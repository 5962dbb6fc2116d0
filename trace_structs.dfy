/** The stack of functions being traced and the bpftrace program generated
    from it (src/trace_structs.rs). */
module TraceStructs {
  import opened Util
  import opened Programs
  import opened Events
  import opened BpftraceCompiler

  /** Line: latency per traced line of the current view; Histogram: a
      latency histogram of the current function. */
  datatype TraceMode = Line | Histogram

  /** A bpftrace predicate on the current function: none, evaluated on
      entry, or (written `ret:<filter>`) evaluated on return. */
  datatype Filter = NoFilter | Filter(text: string) | RetFilter(text: string)

  datatype InstructionType =
    | DynamicSymbol(target: FunctionName)
    | Function(target: FunctionName)
    | Register(register: string, displacement: Option<I64>)
    | Manual
    | Unknown

  /** A call instruction: its offset from the start of the function, its
      length in bytes, and what it calls. */
  datatype CallInstruction = CallInstruction(relativeIp: nat, length: nat, instruction: InstructionType)

  datatype FrameInfo = FrameInfo(
    func: FunctionName,
    sourceFile: string,
    sourceLine: nat,
    lineToCallsites: map<nat, seq<CallInstruction>>,
    unattachedCallsites: seq<CallInstruction>,
    tracedCallsites: map<nat, CallInstruction>,
    filter: Filter)

  /** `FrameInfo::new`: a frame with nothing traced and no filter. */
  function NewFrameInfo(func: FunctionName, sourceFile: string, sourceLine: nat,
                        lineToCallsites: map<nat, seq<CallInstruction>>,
                        unattachedCallsites: seq<CallInstruction>): (f: FrameInfo)
    ensures f.tracedCallsites == map[] && f.filter == NoFilter
    ensures f.func == func && f.sourceFile == sourceFile && f.sourceLine == sourceLine
    ensures f.lineToCallsites == lineToCallsites && f.unattachedCallsites == unattachedCallsites
  {
    FrameInfo(func, sourceFile, sourceLine, lineToCallsites, unattachedCallsites, map[], NoFilter)
  }

  /** The largest element of a non-empty set of line numbers. */
  ghost function MaxOf(s: set<nat>): (m: nat)
    requires s != {}
    ensures m in s && forall k :: k in s ==> k <= m
  {
    var x :| x in s;
    assert forall k :: k in s ==> k == x || k in s - {x};
    if s - {x} == {} then x
    else
      var rest := MaxOf(s - {x});
      if x < rest then rest else x
  }

  /** `max_line`: the largest line holding a callsite, or the function's
      own line when there is none. */
  ghost function MaxLine(f: FrameInfo): (m: nat)
    ensures f.lineToCallsites == map[] ==> m == f.sourceLine
    ensures f.lineToCallsites != map[] ==>
      m in f.lineToCallsites && forall l :: l in f.lineToCallsites ==> l <= m
  {
    if f.lineToCallsites == map[] then f.sourceLine
    else
      assert exists l :: l in f.lineToCallsites.Keys;
      MaxOf(f.lineToCallsites.Keys)
  }

  // ---------------------------------------------------------------------
  // Display
  // ---------------------------------------------------------------------

  /** `Display` for InstructionType: the function name, the register, a
      register with its displacement as `[reg+0x<hex>]`, or a marker. */
  function InstructionTypeText(it: InstructionType): string
  {
    match it
    case DynamicSymbol(f) => f.name
    case Function(f) => f.name
    case Register(r, None) => r
    case Register(r, Some(d)) => "[" + r + "+0x" + I64ToHex(d) + "]"
    case Manual => "(Manual)"
    case Unknown => "(UNKNOWN)"
  }

  /** `Display` for CallInstruction: the offset and `: `, then a tag for
      dynamic (`(D)`) and register (`(I) register`) calls, and for a manual
      callsite the byte range it covers. */
  function CallInstructionText(ci: CallInstruction): string
  {
    NatToDecimal(ci.relativeIp) + ": " +
    match ci.instruction
    case DynamicSymbol(_) => "(D) " + InstructionTypeText(ci.instruction)
    case Function(_) => InstructionTypeText(ci.instruction)
    case Register(_, _) => "(I) register " + InstructionTypeText(ci.instruction)
    case Manual => "Manual " + NatToDecimal(ci.relativeIp) + "-" + NatToDecimal(ci.relativeIp + ci.length)
    case Unknown => InstructionTypeText(ci.instruction)
  }

  /** The text before the first `:` of a displayed callsite is its offset in
      decimal, so the offset can be read back from the text. */
  lemma CallInstructionTextStartsWithIp(ci: CallInstruction)
    ensures var t := CallInstructionText(ci);
      var d := NatToDecimal(ci.relativeIp);
      StartsWith(t, d + ": ")
      && (forall i :: 0 <= i < |d| ==> t[i] != ':')
      && BaseValue(t[..|d|], 10) == ci.relativeIp
  {
    var t := CallInstructionText(ci);
    var d := NatToDecimal(ci.relativeIp);
    assert t[..|d + ": "|] == d + ": ";
    assert t[..|d|] == d;
    NatToBaseDigits(ci.relativeIp, 10);
    NatToBaseRoundTrip(ci.relativeIp, 10);
  }

  // ---------------------------------------------------------------------
  // Filters
  // ---------------------------------------------------------------------

  /** The filter stored for a non-empty filter string. The whole string,
      `ret:` prefix included, is kept. */
  function FilterFor(text: string): Filter
  {
    if StartsWith(text, "ret:") then RetFilter(text) else Filter(text)
  }

  /** `get_current_filter` on one frame: a return filter is shown with a
      `ret:` prefix. */
  function FilterText(f: Filter): Option<string>
  {
    match f
    case NoFilter => None
    case Filter(t) => Some(t)
    case RetFilter(t) => Some("ret:" + t)
  }

  /** Reading a filter back after storing it: an entry filter comes back as
      written, a return filter with a second `ret:` in front, because the
      stored string keeps its own prefix. */
  lemma FilterReadBack(text: string)
    requires text != ""
    ensures FilterFor(text).RetFilter? <==> StartsWith(text, "ret:")
    ensures !StartsWith(text, "ret:") ==> FilterText(FilterFor(text)) == Some(text)
    ensures StartsWith(text, "ret:") ==> FilterText(FilterFor(text)) == Some("ret:" + text)
    ensures FilterText(FilterFor(text)) != None
  {
  }

  // ---------------------------------------------------------------------
  // The generated bpftrace program
  // ---------------------------------------------------------------------

  /** The predicate selecting a call at stack depth `d`. */
  function Depth(d: nat): Option<string>
  {
    Some("@depth[tid] == " + NatToDecimal(d))
  }

  function SetDepth(d: nat): string
  {
    "@depth[tid] = " + NatToDecimal(d)
  }

  /** The per-thread start-time variable of a line. */
  function StartVar(line: nat): string
  {
    "@start" + NatToDecimal(line) + "[tid]"
  }

  function BeginBlock(): Block
  {
    NewBlock(Begin, None, ["@start_time = nsecs", "@depth[-1] = 0"])
  }

  /** The two probes of a frame below the top: entering at depth `i` goes
      to depth `i + 1`, returning at depth `i + 1` goes back to `i`. */
  function FrameProbes(f: FunctionName, i: nat): seq<Block>
  {
    [NewBlock(Uprobe(f), Depth(i), [SetDepth(i + 1)]),
     NewBlock(Uretprobe(f), Depth(i + 1), [SetDepth(i)])]
  }

  /** The probes of the first `k` frames, in stack order. */
  function LowerProbes(frames: seq<FrameInfo>, k: nat): (r: seq<Block>)
    requires k <= |frames|
    ensures |r| == 2 * k
  {
    if k == 0 then [] else LowerProbes(frames, k - 1) + FrameProbes(frames[k - 1].func, k - 1)
  }

  /** Entry into the top function at depth `d`: record the start time of
      its own line and go to depth `d + 1`. */
  function TopEntry(f: FunctionName, line: nat, d: nat): Block
  {
    NewBlock(Uprobe(f), Depth(d), [StartVar(line) + " = nsecs", SetDepth(d + 1)])
  }

  /** Add the time since the line's start to its total and count it. */
  function RecordLine(line: nat): seq<string>
  {
    ["@duration" + NatToDecimal(line) + " += nsecs - " + StartVar(line),
     "@count" + NatToDecimal(line) + " += 1",
     "delete(" + StartVar(line) + ")"]
  }

  function TopReturnLine(f: FunctionName, line: nat, d: nat): Block
  {
    NewBlock(Uretprobe(f), Depth(d + 1), RecordLine(line) + [SetDepth(d)])
  }

  function HistogramReturn(f: FunctionName, line: nat, d: nat): Block
  {
    NewBlock(Uretprobe(f), Depth(d + 1),
      ["@histogram = hist(nsecs - " + StartVar(line) + ")", "delete(" + StartVar(line) + ")", SetDepth(d)])
  }

  /** The predicate of the probe after a traced call, as written: the
      depth test, then a test on `start<line>[tid]`. */
  function CallDoneFilter(d: nat, line: nat): Option<string>
  {
    Some("@depth[tid] == " + NatToDecimal(d) + " && start" + NatToDecimal(line) + "[tid]")
  }

  /** The probes around one traced call at depth `d + 1`: at the call
      instruction, and just after it. */
  function CallsiteProbe(f: FunctionName, d: nat, line: nat, ci: CallInstruction): seq<Block>
  {
    [NewBlock(UprobeOffset(f, ci.relativeIp), Depth(d + 1), [StartVar(line) + " = nsecs"]),
     NewBlock(UprobeOffset(f, ci.relativeIp + ci.length), CallDoneFilter(d + 1, line), RecordLine(line))]
  }

  /** The probes of the traced lines, in the given order. */
  function CallsiteProbes(f: FunctionName, d: nat, traced: map<nat, CallInstruction>, lines: seq<nat>): (r: seq<Block>)
    requires forall l :: l in lines ==> l in traced
    ensures |r| == 2 * |lines|
  {
    if lines == [] then []
    else
      var last := lines[|lines| - 1];
      CallsiteProbes(f, d, traced, lines[..|lines| - 1]) + CallsiteProbe(f, d, last, traced[last])
  }

  const ElapsedSeconds: string := "(nsecs - @start_time) / 1000000000"

  /** The JSON member reporting one line's totals. */
  function LineEntryFormat(line: nat): string
  {
    "\"" + NatToDecimal(line) + "\": [%lld, %lld]"
  }

  function LineEntry(line: nat, last: bool): Expression
  {
    Printf(LineEntryFormat(line) + (if last then "" else ", "),
           ["@duration" + NatToDecimal(line), "@count" + NatToDecimal(line)])
  }

  /** The printf of each of the first `k` reported lines. */
  function LineEntries(lines: seq<nat>, k: nat): (r: seq<Expression>)
    requires k <= |lines|
    ensures |r| == k
  {
    if k == 0 then [] else LineEntries(lines, k - 1) + [LineEntry(lines[k - 1], k - 1 == |lines| - 1)]
  }

  /** The once-a-second report of Line mode: a JSON object with the elapsed
      time and the totals of every reported line. */
  function LinePrints(lines: seq<nat>): seq<Expression>
  {
    [Printf("{\"time\": %d, \"lines\": {", [ElapsedSeconds])]
    + LineEntries(lines, |lines|)
    + [Printf("}}\\n", [])]
  }

  function HistogramPrints(): seq<Expression>
  {
    [Printf("{\"time\": %d, \"histogram\": \"", [ElapsedSeconds]),
     Print("@histogram"),
     Printf("\"}\\n", [])]
  }

  /** Every block of the generated program, in the order it is built: BEGIN,
      the probes of the lower frames, the top frame's entry, then the
      blocks of the trace mode. `order` is the iteration order of the top
      frame's traced callsites. */
  function ExpectedBlocks(frames: seq<FrameInfo>, mode: TraceMode, order: seq<nat>): seq<Block>
    requires |frames| > 0
    requires forall l :: l in order ==> l in frames[|frames| - 1].tracedCallsites
  {
    var d := |frames| - 1;
    var top := frames[d];
    [BeginBlock()] + LowerProbes(frames, d) + [TopEntry(top.func, top.sourceLine, d)]
    + ModeBlocks(top, d, mode, order)
  }

  /** The blocks after the top frame's entry: its return probe first, then
      the callsite probes and the report of Line mode, or the report of
      Histogram mode. */
  function ModeBlocks(top: FrameInfo, d: nat, mode: TraceMode, order: seq<nat>): seq<Block>
    requires forall l :: l in order ==> l in top.tracedCallsites
  {
    match mode
    case Line =>
      [TopReturnLine(top.func, top.sourceLine, d)]
      + CallsiteProbes(top.func, d, top.tracedCallsites, order)
      + [Block(Interval(1), None, LinePrints([top.sourceLine] + order))]
    case Histogram =>
      [HistogramReturn(top.func, top.sourceLine, d), Block(Interval(1), None, HistogramPrints())]
  }

  function ProgramText(frames: seq<FrameInfo>, mode: TraceMode, order: seq<nat>, programPath: string): string
    requires |frames| > 0
    requires forall l :: l in order ==> l in frames[|frames| - 1].tracedCallsites
  {
    CompileBlocks(ExpectedBlocks(frames, mode, order), programPath)
  }

  /** Probe `2i` of the lower frames enters frame `i`, probe `2i + 1`
      returns from it. */
  lemma {:induction false} LowerProbesAt(frames: seq<FrameInfo>, k: nat, i: nat)
    requires k <= |frames| && i < k
    ensures LowerProbes(frames, k)[2 * i] == NewBlock(Uprobe(frames[i].func), Depth(i), [SetDepth(i + 1)])
    ensures LowerProbes(frames, k)[2 * i + 1] == NewBlock(Uretprobe(frames[i].func), Depth(i + 1), [SetDepth(i)])
  {
    if i < k - 1 {
      LowerProbesAt(frames, k - 1, i);
    }
  }

  /** The stack shape of a program for `frames`: BEGIN first; frame `i`
      below the top is entered at depth `i` and left at depth `i + 1`; the
      top frame is entered at depth `n - 1`, moving to depth `n` last, and
      its return probe fires at depth `n` and moves back to `n - 1` last. */
  ghost predicate Nested(bs: seq<Block>, frames: seq<FrameInfo>)
    requires |frames| > 0
  {
    var n := |frames|;
    && |bs| >= 2 * n + 1
    && bs[0] == BeginBlock()
    && (forall i :: 0 <= i < n - 1 ==>
          bs[2 * i + 1] == NewBlock(Uprobe(frames[i].func), Depth(i), [SetDepth(i + 1)])
          && bs[2 * i + 2] == NewBlock(Uretprobe(frames[i].func), Depth(i + 1), [SetDepth(i)]))
    && bs[2 * n - 1].blockType == Uprobe(frames[n - 1].func) && bs[2 * n - 1].filter == Depth(n - 1)
    && |bs[2 * n - 1].expressions| == 2 && bs[2 * n - 1].expressions[1] == RawExpr(SetDepth(n))
    && bs[2 * n].blockType == Uretprobe(frames[n - 1].func) && bs[2 * n].filter == Depth(n)
    && |bs[2 * n].expressions| > 0
    && bs[2 * n].expressions[|bs[2 * n].expressions| - 1] == RawExpr(SetDepth(n - 1))
  }

  /** The generated program has the stack shape of its frames, in either
      mode. */
  lemma ProgramNesting(frames: seq<FrameInfo>, mode: TraceMode, order: seq<nat>)
    requires |frames| > 0
    requires forall l :: l in order ==> l in frames[|frames| - 1].tracedCallsites
    ensures Nested(ExpectedBlocks(frames, mode, order), frames)
  {
    var d := |frames| - 1;
    var top := frames[d];
    TopShape(top, d, mode);
    ModeBlocksStart(top, d, mode, order);
    LowerProbesShape(frames);
    NestedPieces(frames, LowerProbes(frames, d), TopEntry(top.func, top.sourceLine, d), ModeBlocks(top, d, mode, order));
  }

  /** The mode blocks start with the top frame's return probe. */
  lemma ModeBlocksStart(top: FrameInfo, d: nat, mode: TraceMode, order: seq<nat>)
    requires forall l :: l in order ==> l in top.tracedCallsites
    ensures var ms := ModeBlocks(top, d, mode, order);
      |ms| >= 2 && ms[0] == if mode == Line then TopReturnLine(top.func, top.sourceLine, d)
                           else HistogramReturn(top.func, top.sourceLine, d)
  {
  }

  /** BEGIN, the probes of the lower frames, an entry probe and a tail
      starting with a return probe, of the right shapes, make a nested
      program. */
  lemma {:induction false} NestedPieces(frames: seq<FrameInfo>, lower: seq<Block>, entry: Block, tail: seq<Block>)
    requires |frames| > 0
    requires LowerShape(lower, frames)
    requires entry.blockType == Uprobe(frames[|frames| - 1].func) && entry.filter == Depth(|frames| - 1)
    requires |entry.expressions| == 2 && entry.expressions[1] == RawExpr(SetDepth(|frames|))
    requires |tail| > 0 && tail[0].blockType == Uretprobe(frames[|frames| - 1].func)
    requires tail[0].filter == Depth(|frames|) && |tail[0].expressions| > 0
    requires tail[0].expressions[|tail[0].expressions| - 1] == RawExpr(SetDepth(|frames| - 1))
    ensures Nested([BeginBlock()] + lower + [entry] + tail, frames)
  {
    var n := |frames|;
    var bs := [BeginBlock()] + lower + [entry] + tail;
    assert bs[2 * n - 1] == entry && bs[2 * n] == tail[0];
    assert forall j :: 0 <= j < |lower| ==> bs[j + 1] == lower[j];
  }

  /** The probes of the frames below the top: frame `i` is entered at
      depth `i` and left at depth `i + 1`. */
  ghost predicate LowerShape(lower: seq<Block>, frames: seq<FrameInfo>)
    requires |frames| > 0
  {
    && |lower| == 2 * (|frames| - 1)
    && forall i :: 0 <= i < |frames| - 1 ==>
         lower[2 * i] == NewBlock(Uprobe(frames[i].func), Depth(i), [SetDepth(i + 1)])
         && lower[2 * i + 1] == NewBlock(Uretprobe(frames[i].func), Depth(i + 1), [SetDepth(i)])
  }

  lemma LowerProbesShape(frames: seq<FrameInfo>)
    requires |frames| > 0
    ensures LowerShape(LowerProbes(frames, |frames| - 1), frames)
  {
    forall i | 0 <= i < |frames| - 1 {
      LowerProbesAt(frames, |frames| - 1, i);
    }
  }

  /** The top frame's entry probe moves to depth `d + 1` last; its return
      probe, in either mode, moves back to depth `d` last. */
  lemma TopShape(top: FrameInfo, d: nat, mode: TraceMode)
    ensures var entry := TopEntry(top.func, top.sourceLine, d);
      entry.blockType == Uprobe(top.func) && entry.filter == Depth(d)
      && |entry.expressions| == 2 && entry.expressions[1] == RawExpr(SetDepth(d + 1))
    ensures var ret := if mode == Line then TopReturnLine(top.func, top.sourceLine, d)
                       else HistogramReturn(top.func, top.sourceLine, d);
      ret.blockType == Uretprobe(top.func) && ret.filter == Depth(d + 1)
      && |ret.expressions| > 0 && ret.expressions[|ret.expressions| - 1] == RawExpr(SetDepth(d))
  {
    var ss := RecordLine(top.sourceLine) + [SetDepth(d)];
    assert ss[|ss| - 1] == SetDepth(d);
  }

  /** Blocks `2 * j` and `2 * j + 1` of `r` time traced line `line` at the
      call instruction `ci` of `f`: from the call to the instruction after it. */
  ghost predicate TimesCall(r: seq<Block>, j: nat, f: FunctionName, d: nat, line: nat, ci: CallInstruction)
  {
    && 2 * j + 1 < |r|
    && r[2 * j] == NewBlock(UprobeOffset(f, ci.relativeIp), Depth(d + 1), [StartVar(line) + " = nsecs"])
    && r[2 * j + 1].blockType == UprobeOffset(f, ci.relativeIp + ci.length)
    && r[2 * j + 1].expressions == FromStrings(RecordLine(line))
  }

  /** Traced line `lines[j]` is timed from its call instruction to the
      instruction after it, at the depth inside the top function. */
  lemma {:induction false} CallsiteProbesAt(f: FunctionName, d: nat, traced: map<nat, CallInstruction>, lines: seq<nat>, j: nat)
    requires forall l :: l in lines ==> l in traced
    requires j < |lines|
    ensures TimesCall(CallsiteProbes(f, d, traced, lines), j, f, d, lines[j], traced[lines[j]])
  {
    var front := lines[..|lines| - 1];
    var last := lines[|lines| - 1];
    assert forall l :: l in front ==> l in lines;
    var before := CallsiteProbes(f, d, traced, front);
    var r := before + CallsiteProbe(f, d, last, traced[last]);
    assert CallsiteProbes(f, d, traced, lines) == r;
    if j < |lines| - 1 {
      CallsiteProbesAt(f, d, traced, front, j);
      assert lines[j] == front[j];
      TimesCallExtend(before, CallsiteProbe(f, d, last, traced[last]), j, f, d, lines[j], traced[lines[j]]);
    } else {
      assert r[2 * j] == CallsiteProbe(f, d, last, traced[last])[0];
      assert r[2 * j + 1] == CallsiteProbe(f, d, last, traced[last])[1];
    }
  }

  lemma TimesCallExtend(before: seq<Block>, after: seq<Block>, j: nat, f: FunctionName, d: nat, line: nat, ci: CallInstruction)
    requires TimesCall(before, j, f, d, line, ci)
    ensures TimesCall(before + after, j, f, d, line, ci)
  {
    assert (before + after)[2 * j] == before[2 * j];
    assert (before + after)[2 * j + 1] == before[2 * j + 1];
  }

  /** The probes below the top depend only on the frames below the top. */
  lemma {:induction false} LowerProbesPrefix(a: seq<FrameInfo>, b: seq<FrameInfo>, k: nat)
    requires k <= |a| && k <= |b| && a[..k] == b[..k]
    ensures LowerProbes(a, k) == LowerProbes(b, k)
  {
    if k > 0 {
      assert a[k - 1] == a[..k][k - 1] && b[k - 1] == b[..k][k - 1];
      assert a[..k - 1] == a[..k][..k - 1] && b[..k - 1] == b[..k][..k - 1];
      LowerProbesPrefix(a, b, k - 1);
    }
  }

  /** The frames with the top one replaced. */
  function WithTop(frames: seq<FrameInfo>, top: FrameInfo): (r: seq<FrameInfo>)
    requires |frames| > 0
    ensures |r| == |frames| && r[..|r| - 1] == frames[..|frames| - 1] && r[|r| - 1] == top
  {
    frames[..|frames| - 1] + [top]
  }

  /** The filter of the top frame never reaches the generated program: the
      program is the same whatever the filter. */
  lemma ProgramIgnoresFilter(frames: seq<FrameInfo>, mode: TraceMode, order: seq<nat>, filter: Filter)
    requires |frames| > 0
    requires forall l :: l in order ==> l in frames[|frames| - 1].tracedCallsites
    ensures var changed := WithTop(frames, frames[|frames| - 1].(filter := filter));
      ExpectedBlocks(changed, mode, order) == ExpectedBlocks(frames, mode, order)
  {
    var changed := WithTop(frames, frames[|frames| - 1].(filter := filter));
    var k := |frames| - 1;
    assert changed[..k] == frames[..k];
    LowerProbesPrefix(changed, frames, k);
  }

  /** The format strings of a list of printf expressions, concatenated. */
  function FormatText(es: seq<Expression>): string
  {
    if es == [] then ""
    else FormatText(es[..|es| - 1]) + (if es[|es| - 1].Printf? then es[|es| - 1].format else "")
  }

  /** The JSON members of the reported lines, one per line, in order. */
  function LineEntryFormats(lines: seq<nat>): (r: seq<string>)
    ensures |r| == |lines|
  {
    if lines == [] then [] else LineEntryFormats(lines[..|lines| - 1]) + [LineEntryFormat(lines[|lines| - 1])]
  }

  lemma {:induction false} LineEntryFormatsPrefix(lines: seq<nat>, k: nat)
    requires k < |lines|
    ensures LineEntryFormats(lines[..k + 1]) == LineEntryFormats(lines[..k]) + [LineEntryFormat(lines[k])]
  {
    assert lines[..k + 1][..k] == lines[..k];
  }

  /** After the first `k` line printfs, the text printed so far is the
      members of those lines separated by `, `, with a trailing `, ` unless
      the last line has been printed. */
  lemma {:induction false} LineEntriesText(lines: seq<nat>, k: nat)
    requires k <= |lines|
    ensures FormatText(LineEntries(lines, k)) ==
      if k == 0 then ""
      else Join(LineEntryFormats(lines[..k]), ", ") + (if k < |lines| then ", " else "")
  {
    if k == 1 {
      FirstLineEntryText(lines);
    } else if k > 1 {
      LineEntriesText(lines, k - 1);
      LineEntryTextStep(lines, k);
    }
  }

  /** The report of the first traced line is that line's own format. */
  lemma FirstLineEntryText(lines: seq<nat>)
    requires 0 < |lines|
    ensures FormatText(LineEntries(lines, 1)) ==
      Join(LineEntryFormats(lines[..1]), ", ") + (if 1 < |lines| then ", " else "")
  {
    assert LineEntries(lines, 1) == [LineEntry(lines[0], 0 == |lines| - 1)];
    assert lines[..1] == [lines[0]];
    assert LineEntryFormats([lines[0]]) == [LineEntryFormat(lines[0])] by {
      assert [lines[0]][..0] == [];
    }
  }

  /** One more traced line appends its format after the separator the previous one ended with. */
  lemma LineEntryTextStep(lines: seq<nat>, k: nat)
    requires 1 < k <= |lines|
    requires FormatText(LineEntries(lines, k - 1)) == Join(LineEntryFormats(lines[..k - 1]), ", ") + ", "
    ensures FormatText(LineEntries(lines, k)) ==
      Join(LineEntryFormats(lines[..k]), ", ") + (if k < |lines| then ", " else "")
  {
    var prev := LineEntries(lines, k - 1);
    var fmt := LineEntryFormat(lines[k - 1]);
    var tail := if k < |lines| then ", " else "";
    var es := LineEntries(lines, k);
    assert es[..k - 1] == prev;
    assert FormatText(es) == FormatText(prev) + (fmt + tail);
    LineEntryFormatsPrefix(lines, k - 1);
    var front := LineEntryFormats(lines[..k - 1]);
    assert front != [];
    JoinSnoc(front, fmt, ", ");
    AppendRegroup(Join(front, ", "), ", ", fmt, tail);
  }

  /** String regrouping used when a report grows by one entry. */
  lemma AppendRegroup(a: string, b: string, c: string, d: string)
    ensures (a + b) + (c + d) == (a + b + c) + d
  {
  }

  /** The line list of a Line-mode report is the members of all reported
      lines separated by `, `, with nothing after the last one. */
  lemma LineListText(lines: seq<nat>)
    requires lines != []
    ensures FormatText(LineEntries(lines, |lines|)) == Join(LineEntryFormats(lines), ", ")
  {
    LineEntriesText(lines, |lines|);
    assert lines[..|lines|] == lines;
  }

  // ---------------------------------------------------------------------
  // Building the program (the loops of `get_bpftrace_expr_locked`)
  // ---------------------------------------------------------------------

  /** Adds the entry and return probes of every frame but the top one. */
  method AddLowerProbes(program: BpftraceProgram, frames: seq<FrameInfo>)
    requires |frames| > 0
    modifies program
    ensures program.blocks == old(program.blocks) + LowerProbes(frames, |frames| - 1)
  {
    var n := |frames|;
    var i := 0;
    while i < n
      invariant 0 <= i <= n
      invariant program.blocks == old(program.blocks) + LowerProbes(frames, if i < n then i else n - 1)
    {
      if i != n - 1 {
        program.Add(NewBlock(Uprobe(frames[i].func), Depth(i), [SetDepth(i + 1)]));
        program.Add(NewBlock(Uretprobe(frames[i].func), Depth(i + 1), [SetDepth(i)]));
      }
      i := i + 1;
    }
  }

  /** Adds the probes around every traced callsite of `top` and returns the
      reported lines: the function's own line, then the traced ones. */
  method AddCallsiteProbes(program: BpftraceProgram, top: FrameInfo, d: nat, order: seq<nat>) returns (lines: seq<nat>)
    requires forall l :: l in order ==> l in top.tracedCallsites
    modifies program
    ensures lines == [top.sourceLine] + order
    ensures program.blocks == old(program.blocks) + CallsiteProbes(top.func, d, top.tracedCallsites, order)
  {
    var f, traced := top.func, top.tracedCallsites;
    ghost var start := program.blocks;
    ghost var probes: seq<Block> := [];
    lines := [top.sourceLine];
    var j := 0;
    while j < |order|
      invariant 0 <= j <= |order|
      invariant lines == [top.sourceLine] + order[..j]
      invariant probes == CallsiteProbes(f, d, traced, order[..j])
      invariant program.blocks == start + probes
    {
      var l := order[j];
      lines := lines + [l];
      AddCallsite(program, f, d, l, traced[l]);
      CallsiteProbesSnoc(f, d, traced, order, j);
      probes := probes + CallsiteProbe(f, d, l, traced[l]);
      j := j + 1;
    }
    assert order[..j] == order;
  }

  /** Adds the two probes around one traced call. */
  method AddCallsite(program: BpftraceProgram, f: FunctionName, d: nat, line: nat, callsite: CallInstruction)
    modifies program
    ensures program.blocks == old(program.blocks) + CallsiteProbe(f, d, line, callsite)
  {
    program.Add(NewBlock(UprobeOffset(f, callsite.relativeIp), Depth(d + 1), [StartVar(line) + " = nsecs"]));
    program.Add(NewBlock(UprobeOffset(f, callsite.relativeIp + callsite.length),
                         CallDoneFilter(d + 1, line), RecordLine(line)));
  }

  lemma CallsiteProbesSnoc(f: FunctionName, d: nat, traced: map<nat, CallInstruction>, order: seq<nat>, j: nat)
    requires forall l :: l in order ==> l in traced
    requires j < |order|
    ensures CallsiteProbes(f, d, traced, order[..j + 1])
      == CallsiteProbes(f, d, traced, order[..j]) + CallsiteProbe(f, d, order[j], traced[order[j]])
  {
    assert order[..j + 1][..j] == order[..j];
  }

  /** The printf statements of the Line-mode report. */
  method BuildLinePrints(lines: seq<nat>) returns (printExprs: seq<Expression>)
    ensures printExprs == LinePrints(lines)
  {
    printExprs := [Printf("{\"time\": %d, \"lines\": {", [ElapsedSeconds])];
    var k := 0;
    while k < |lines|
      invariant 0 <= k <= |lines|
      invariant printExprs == [Printf("{\"time\": %d, \"lines\": {", [ElapsedSeconds])] + LineEntries(lines, k)
    {
      var format := LineEntryFormat(lines[k]);
      if k != |lines| - 1 {
        format := format + ", ";
      }
      var entry := Printf(format, ["@duration" + NatToDecimal(lines[k]), "@count" + NatToDecimal(lines[k])]);
      assert LineEntryFormat(lines[k]) + "" == LineEntryFormat(lines[k]);
      assert entry == LineEntry(lines[k], k == |lines| - 1);
      printExprs := printExprs + [entry];
      k := k + 1;
    }
    printExprs := printExprs + [Printf("}}\\n", [])];
  }

  /** Adds the blocks that follow the top frame's entry probe. */
  method AddModeBlocks(program: BpftraceProgram, top: FrameInfo, d: nat, mode: TraceMode, order: seq<nat>)
    requires forall l :: l in order ==> l in top.tracedCallsites
    modifies program
    ensures program.blocks == old(program.blocks) + ModeBlocks(top, d, mode, order)
  {
    match mode {
      case Line =>
        program.Add(TopReturnLine(top.func, top.sourceLine, d));
        var lines := AddCallsiteProbes(program, top, d, order);
        var printExprs := BuildLinePrints(lines);
        program.Add(Block(Interval(1), None, printExprs));
      case Histogram =>
        program.Add(HistogramReturn(top.func, top.sourceLine, d));
        program.Add(Block(Interval(1), None, HistogramPrints()));
    }
  }

  // ---------------------------------------------------------------------
  // The trace stack
  // ---------------------------------------------------------------------

  /** Outcome of checking a bpftrace program with a dry run: success, or
      failure with the text read from its stderr or the error that reading
      it gave. */
  datatype DryRun = DryRunSucceeded | DryRunFailed(stderr: Result<string, string>)

  /** What `set_current_filter` reports for a dry run: nothing on success,
      bpftrace's stderr on failure, or why that stderr could not be read. */
  function DryRunResult(outcome: DryRun): (r: Result<(), string>)
    ensures r.Ok? <==> outcome.DryRunSucceeded?
    ensures outcome.DryRunFailed? && outcome.stderr.Ok? ==> r == Err(outcome.stderr.value)
    ensures outcome.DryRunFailed? && outcome.stderr.Err? ==>
      r == Err("Failed to read bpftrace stderr: " + outcome.stderr.error)
  {
    match outcome
    case DryRunSucceeded => Ok(())
    case DryRunFailed(Ok(stderr)) => Err(stderr)
    case DryRunFailed(Err(e)) => Err("Failed to read bpftrace stderr: " + e)
  }

  /** A callsite may be traced on `line` when it is a manual one, one of
      the calls on that line, or one of the calls with no line. */
  predicate CanTrace(f: FrameInfo, line: nat, ci: CallInstruction)
  {
    ci.instruction == Manual
    || (line in f.lineToCallsites && ci in f.lineToCallsites[line])
    || ci in f.unattachedCallsites
  }

  /** Every traced callsite of the frame could have been added. */
  ghost predicate TracesKnown(f: FrameInfo)
  {
    forall line :: line in f.tracedCallsites ==> CanTrace(f, line, f.tracedCallsites[line])
  }

  /** Changing the top frame's filter leaves every frame's traces known. */
  lemma FilterKeepsTraces(frames: seq<FrameInfo>, filter: Filter)
    requires |frames| > 0
    requires forall i :: 0 <= i < |frames| ==> TracesKnown(frames[i])
    ensures var r := WithTop(frames, frames[|frames| - 1].(filter := filter));
      forall i :: 0 <= i < |r| ==> TracesKnown(r[i])
  {
    var r := WithTop(frames, frames[|frames| - 1].(filter := filter));
    forall i | 0 <= i < |r|
      ensures TracesKnown(r[i])
    {
      if i < |r| - 1 {
        assert r[i] == frames[i];
      } else {
        assert TracesKnown(frames[i]);
      }
    }
  }

  /** `TraceStack` with the `Frames` it guards. The counter is bumped by
      every change that invalidates trace data; `outbox` is what has been
      sent to the controller. */
  class TraceStack {
    var counter: nat
    const programPath: string
    var mode: TraceMode
    var frames: seq<FrameInfo>
    var outbox: seq<Event>

    /** The stack is never empty. */
    ghost predicate Valid()
      reads this
    {
      |frames| > 0
    }

    ghost predicate AllTracesKnown()
      reads this
    {
      forall i :: 0 <= i < |frames| ==> TracesKnown(frames[i])
    }

    function Top(): FrameInfo
      reads this
      requires Valid()
    {
      frames[|frames| - 1]
    }

    constructor (programPath: string, frame: FrameInfo)
      ensures Valid()
      ensures this.programPath == programPath
      ensures counter == 0 && mode == Line && frames == [frame] && outbox == []
    {
      this.programPath := programPath;
      counter := 0;
      mode := Line;
      frames := [frame];
      outbox := [];
    }

    /** `get_callsites`: the calls on `line` of the top frame, or none. */
    function GetCallsites(line: nat): (r: seq<CallInstruction>)
      reads this
      requires Valid()
      ensures line in Top().lineToCallsites ==> r == Top().lineToCallsites[line]
      ensures line !in Top().lineToCallsites ==> r == []
    {
      if line in Top().lineToCallsites then Top().lineToCallsites[line] else []
    }

    /** Trace `ci` on `line` of the top frame, replacing what was traced
      there. Trace data stays valid, so the counter is kept. */
    method AddCallsite(line: nat, ci: CallInstruction)
      requires Valid()
      requires CanTrace(Top(), line, ci)
      modifies this
      ensures Valid()
      ensures frames == WithTop(old(frames), old(Top()).(tracedCallsites := old(Top().tracedCallsites)[line := ci]))
      ensures counter == old(counter) && mode == old(mode)
      ensures outbox == old(outbox) + [TraceCommandModified]
      ensures old(AllTracesKnown()) ==> AllTracesKnown()
    {
      var top := Top();
      frames := WithTop(frames, top.(tracedCallsites := top.tracedCallsites[line := ci]));
      outbox := outbox + [TraceCommandModified];
    }

    /** Stop tracing `line` of the top frame; tells whether it was traced. */
    method RemoveCallsite(line: nat) returns (removed: bool)
      requires Valid()
      modifies this
      ensures Valid()
      ensures removed <==> line in old(Top().tracedCallsites)
      ensures frames == WithTop(old(frames), old(Top()).(tracedCallsites := old(Top().tracedCallsites) - {line}))
      ensures counter == old(counter) + (if removed then 1 else 0) && mode == old(mode)
      ensures outbox == old(outbox) + (if removed then [TraceCommandModified] else [])
      ensures old(AllTracesKnown()) ==> AllTracesKnown()
    {
      var top := Top();
      removed := line in top.tracedCallsites;
      frames := WithTop(frames, top.(tracedCallsites := top.tracedCallsites - {line}));
      if removed {
        counter := counter + 1;
        outbox := outbox + [TraceCommandModified];
      }
    }

    /** Start tracing inside `frame`, which becomes the top. */
    method Push(frame: FrameInfo)
      requires Valid()
      modifies this
      ensures Valid()
      ensures frames == old(frames) + [frame] && Top() == frame
      ensures counter == old(counter) + 1 && mode == old(mode)
      ensures outbox == old(outbox) + [TraceCommandModified]
      ensures old(AllTracesKnown()) && TracesKnown(frame) ==> AllTracesKnown()
    {
      frames := frames + [frame];
      counter := counter + 1;
      outbox := outbox + [TraceCommandModified];
    }

    /** Drop the top frame unless it is the only one, and return the new
      top. */
    method Pop() returns (r: Option<FrameInfo>)
      requires Valid()
      modifies this
      ensures Valid()
      ensures |old(frames)| == 1 ==>
        r == None && frames == old(frames) && counter == old(counter) && outbox == old(outbox)
      ensures |old(frames)| > 1 ==>
        && frames == old(frames)[..|old(frames)| - 1]
        && r == Some(Top())
        && counter == old(counter) + 1
        && outbox == old(outbox) + [TraceCommandModified]
      ensures mode == old(mode)
      ensures old(AllTracesKnown()) ==> AllTracesKnown()
    {
      if |frames| == 1 {
        return None;
      }
      frames := frames[..|frames| - 1];
      r := Some(Top());
      counter := counter + 1;
      outbox := outbox + [TraceCommandModified];
    }

    method SetMode(m: TraceMode)
      requires Valid()
      modifies this
      ensures Valid()
      ensures mode == m && frames == old(frames)
      ensures counter == old(counter) + 1
      ensures outbox == old(outbox) + [TraceCommandModified]
    {
      mode := m;
      counter := counter + 1;
      outbox := outbox + [TraceCommandModified];
    }

    /** The frames with the top frame's filter replaced by `filter`. */
    function WithFilter(filter: Filter): (r: seq<FrameInfo>)
      reads this
      requires Valid()
      ensures |r| == |frames| && r[|r| - 1].filter == filter
    {
      WithTop(frames, Top().(filter := filter))
    }

    /** `get_current_filter`. */
    function GetCurrentFilter(): Option<string>
      reads this
      requires Valid()
    {
      FilterText(Top().filter)
    }

    /** Set the top frame's filter. The empty string removes it. Otherwise
      the filter is stored and the program is checked with `dryRun`, whose
      answer is `outcome`; on failure the previous filter is restored and
      the error is returned, on success the counter is bumped. `order` is
      the iteration order of the top frame's traced callsites. */
    method SetCurrentFilter(text: string, order: seq<nat>, dryRun: string -> DryRun)
        returns (r: Result<(), string>, ghost outcome: DryRun)
      requires Valid()
      requires IsEnumeration(order, Top().tracedCallsites.Keys)
      modifies this
      ensures Valid() && mode == old(mode)
      ensures text == "" ==>
        && r == Ok(())
        && frames == old(WithFilter(NoFilter))
        && counter == old(counter) && outbox == old(outbox)
      ensures text != "" ==>
        && outcome == dryRun(ProgramText(old(WithFilter(FilterFor(text))), old(mode), order, programPath))
        && r == DryRunResult(outcome)
      ensures text != "" && outcome.DryRunSucceeded? ==>
        && frames == old(WithFilter(FilterFor(text)))
        && counter == old(counter) + 1 && outbox == old(outbox) + [TraceCommandModified]
      ensures text != "" && outcome.DryRunFailed? ==>
        frames == old(frames) && counter == old(counter) && outbox == old(outbox)
      ensures old(AllTracesKnown()) ==> AllTracesKnown()
    {
      if text == "" {
        if AllTracesKnown() {
          FilterKeepsTraces(frames, NoFilter);
        }
        frames := WithFilter(NoFilter);
        return Ok(()), DryRunSucceeded;
      }
      if AllTracesKnown() {
        FilterKeepsTraces(frames, FilterFor(text));
      }
      var restored := frames;
      frames := WithFilter(FilterFor(text));
      var answer := DryRunProgram(order, dryRun, frames, mode);
      outcome := answer;
      r := Settle(answer, restored);
    }

    /** The answer of `dryRun` for the program of the current stack. */
    method DryRunProgram(order: seq<nat>, dryRun: string -> DryRun, ghost fs: seq<FrameInfo>, ghost m: TraceMode)
        returns (answer: DryRun)
      requires Valid() && frames == fs && mode == m
      requires IsEnumeration(order, Top().tracedCallsites.Keys)
      ensures answer == dryRun(ProgramText(fs, m, order, programPath))
    {
      var expr, _ := GetBpftraceExprLocked(order);
      answer := dryRun(expr);
    }

    /** The end of `set_current_filter` once the dry run has answered
      `outcome`: success keeps the new filter and bumps the counter;
      failure goes back to the `restored` frames. */
    method Settle(outcome: DryRun, restored: seq<FrameInfo>) returns (r: Result<(), string>)
      requires Valid() && |restored| > 0
      modifies this
      ensures Valid() && mode == old(mode)
      ensures r == DryRunResult(outcome)
      ensures outcome.DryRunSucceeded? ==>
        frames == old(frames) && counter == old(counter) + 1 && outbox == old(outbox) + [TraceCommandModified]
      ensures outcome.DryRunFailed? ==>
        frames == restored && counter == old(counter) && outbox == old(outbox)
    {
      if outcome.DryRunFailed? {
        frames := restored;
        match outcome.stderr
        case Err(e) =>
          return Err("Failed to read bpftrace stderr: " + e);
        case Ok(stderr) =>
          return Err(stderr);
      } else {
        counter := counter + 1;
        outbox := outbox + [TraceCommandModified];
        r := Ok(());
      }
    }

    /** The bpftrace program for the current stack and mode, with the counter
      it belongs to. `order` is the iteration order of the top frame's
      traced callsites. */
    method GetBpftraceExprLocked(order: seq<nat>) returns (expr: string, c: nat)
      requires Valid()
      requires IsEnumeration(order, Top().tracedCallsites.Keys)
      ensures expr == ProgramText(frames, mode, order, programPath)
      ensures c == counter
    {
      var program := new BpftraceProgram();
      program.Add(BeginBlock());
      AddLowerProbes(program, frames);
      var d := |frames| - 1;
      var top := frames[d];
      var line := top.sourceLine;
      program.Add(TopEntry(top.func, line, d));
      ghost var common := program.blocks;
      assert common == [BeginBlock()] + LowerProbes(frames, d) + [TopEntry(top.func, line, d)];
      AddModeBlocks(program, top, d, mode, order);
      assert program.blocks == ExpectedBlocks(frames, mode, order);
      expr := program.Compile(programPath);
      c := counter;
    }


    /** Trace data tagged `c` belongs to the current program. */
    predicate IsCounterCurrent(c: nat)
      reads this
    {
      c == counter
    }
  }
}
