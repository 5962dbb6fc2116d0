/** The controller (src/controller.rs): it turns the decoded call
    instructions of a function into callsites grouped by source line,
    shows trace data on the source view, and decides what the 'x', 'X'
    and Enter keys do with the callsites of the selected line. Widgets,
    dialogs and the event loop are not modelled; where the source opens a
    dialog or a menu, the model returns what it would show. */
module Controller {
  import opened Util
  import opened Programs
  import opened Events
  import opened TraceStructs
  import opened Search

  const TwoTo32: int := 0x1_0000_0000

  // ---------------------------------------------------------------------
  // Callsite classification
  // ---------------------------------------------------------------------

  /** One decoded call as a callsite: its offset from the function start,
      its length, and what it calls, judged from its first operand. */
  function Classify(p: Program, start: nat, d: Decoded): (ci: CallInstruction)
    requires p.Valid()
    requires start <= d.ip
    ensures ci.relativeIp == d.ip - start && ci.length == d.instruction.length
    ensures ci.instruction != Manual
    ensures d.instruction.operand.reg.Reg? ==>
      ci.instruction == Register(d.instruction.operand.reg.name, None)
    ensures d.instruction.operand.reg.NoRegister? && d.instruction.operand.memBase.Reg? ==>
      ci.instruction == Register(d.instruction.operand.memBase.name, Some(d.instruction.operand.displacement))
    ensures ci.instruction.DynamicSymbol? ==>
      var t := d.instruction.operand.target;
      IsDynamicSymbol(p, t) && t in p.dynamicSymbolsMap && p.dynamicSymbolsMap[t] == ci.instruction.target
    ensures ci.instruction.Function? ==>
      var t := d.instruction.operand.target;
      && !IsDynamicSymbol(p, t)
      && ci.instruction.target in p.nameToSymbol
      && p.nameToSymbol[ci.instruction.target].address == t
    ensures ci.instruction.Unknown? <==>
      && d.instruction.operand.reg.NoRegister? && d.instruction.operand.memBase.NoRegister?
      && GetFunctionForAddress(p, d.instruction.operand.target).None?
  {
    var op := d.instruction.operand;
    var it :=
      match op.reg
      case Reg(r) => Register(r, None)
      case NoRegister =>
        match op.memBase
        case Reg(b) => Register(b, Some(op.displacement))
        case NoRegister =>
          match GetFunctionForAddress(p, op.target)
          case Some(f) => if IsDynamicSymbol(p, op.target) then DynamicSymbol(f) else Function(f)
          case None => Unknown;
    CallInstruction(d.ip - start, d.instruction.length, it)
  }

  // ---------------------------------------------------------------------
  // Grouping callsites by line
  // ---------------------------------------------------------------------

  /** Every call lies at or after the function start and the line tables
      know its file and line; the source unwraps both. */
  ghost predicate Locatable(p: Program, start: nat, calls: seq<Decoded>)
  {
    forall i :: 0 <= i < |calls| ==> start <= calls[i].ip && GetLocation(p, calls[i].ip).Some?
  }

  /** Where a call is shown: on its line when it lies in `sourceFile`,
      nowhere (None) when it was inlined from another file. */
  function Placement(p: Program, sourceFile: string, d: Decoded): Option<nat>
    requires GetLocation(p, d.ip).Some?
  {
    var loc := GetLocation(p, d.ip).value;
    if loc.file.value == sourceFile then Some(loc.line.value) else None
  }

  /** The grouping after the first `k` calls: the callsites of each line,
      and those without a line. */
  function Partition(p: Program, start: nat, sourceFile: string, calls: seq<Decoded>, k: nat)
    : (map<nat, seq<CallInstruction>>, seq<CallInstruction>)
    requires p.Valid() && Locatable(p, start, calls) && k <= |calls|
  {
    if k == 0 then (map[], [])
    else
      var (byLine, unattached) := Partition(p, start, sourceFile, calls, k - 1);
      var ci := Classify(p, start, calls[k - 1]);
      match Placement(p, sourceFile, calls[k - 1])
      case Some(line) => (byLine[line := (if line in byLine then byLine[line] else []) + [ci]], unattached)
      case None => (byLine, unattached + [ci])
  }

  /** Reference definition: the callsites among the first `k` calls that are
      placed on `line`, in decode order. */
  function OnLine(p: Program, start: nat, sourceFile: string, calls: seq<Decoded>, k: nat, line: nat): seq<CallInstruction>
    requires p.Valid() && Locatable(p, start, calls) && k <= |calls|
  {
    if k == 0 then []
    else
      var rest := OnLine(p, start, sourceFile, calls, k - 1, line);
      if Placement(p, sourceFile, calls[k - 1]) == Some(line) then rest + [Classify(p, start, calls[k - 1])] else rest
  }

  /** Reference definition: the callsites among the first `k` calls that are
      placed on no line, in decode order. */
  function Elsewhere(p: Program, start: nat, sourceFile: string, calls: seq<Decoded>, k: nat): seq<CallInstruction>
    requires p.Valid() && Locatable(p, start, calls) && k <= |calls|
  {
    if k == 0 then []
    else
      var rest := Elsewhere(p, start, sourceFile, calls, k - 1);
      if Placement(p, sourceFile, calls[k - 1]).None? then rest + [Classify(p, start, calls[k - 1])] else rest
  }

  /** Each call goes to exactly one place: a line holds exactly the calls
      placed on it, in decode order, and is a key only when it holds one;
      the calls of other files are the unattached callsites, in order. */
  lemma {:induction false} PartitionMeaning(p: Program, start: nat, sourceFile: string, calls: seq<Decoded>, k: nat)
    requires p.Valid() && Locatable(p, start, calls) && k <= |calls|
    ensures var (byLine, unattached) := Partition(p, start, sourceFile, calls, k);
      && unattached == Elsewhere(p, start, sourceFile, calls, k)
      && (forall line :: line in byLine <==> OnLine(p, start, sourceFile, calls, k, line) != [])
      && (forall line :: line in byLine ==> byLine[line] == OnLine(p, start, sourceFile, calls, k, line))
  {
    if k > 0 {
      PartitionMeaning(p, start, sourceFile, calls, k - 1);
    }
  }

  /** The number of calls among the first `k` that land on `line` or
      nowhere, counted from the placements alone. */
  function CountPlaced(p: Program, sourceFile: string, calls: seq<Decoded>, k: nat, place: Option<nat>): nat
    requires forall i :: 0 <= i < |calls| ==> GetLocation(p, calls[i].ip).Some?
    requires k <= |calls|
  {
    if k == 0 then 0
    else CountPlaced(p, sourceFile, calls, k - 1, place) + (if Placement(p, sourceFile, calls[k - 1]) == place then 1 else 0)
  }

  /** No call is dropped or duplicated: a line shows as many callsites as
      calls are placed on it, and the unattached list as many as are placed
      nowhere. */
  lemma {:induction false} PartitionCounts(p: Program, start: nat, sourceFile: string, calls: seq<Decoded>, k: nat, line: nat)
    requires p.Valid() && Locatable(p, start, calls) && k <= |calls|
    ensures |OnLine(p, start, sourceFile, calls, k, line)| == CountPlaced(p, sourceFile, calls, k, Some(line))
    ensures |Elsewhere(p, start, sourceFile, calls, k)| == CountPlaced(p, sourceFile, calls, k, None)
  {
    if k > 0 {
      PartitionCounts(p, start, sourceFile, calls, k - 1, line);
    }
  }

  /** What `create_frame_info` needs to hold to get past its unwraps: the
      function is in the symbol table; once its location is known, it has
      code in this file, and every call in its decoded code lies in it and
      has a location. `decoded` is the disassembler's output for the code. */
  ghost predicate CanCreate(p: Program, func: FunctionName, decoded: seq<Decoded>)
  {
    && p.Valid()
    && func in p.nameToSymbol
    && var symbol := p.nameToSymbol[func];
       GetLocation(p, symbol.address).Some? ==>
         && symbol.address != 0 && symbol.sectionIndex.Some?
         && Locatable(p, symbol.address, WithMnemonic(decoded, Call))
  }

  function MissingDebugInfo(p: Program, func: FunctionName): string
  {
    "Failed to get source information corresponding to function " + func.name
    + ", please ensure " + p.filePath + " has debugging symbols"
  }

  /** `create_frame_info`: the frame of `func`, at the location of its
      first address, with its calls grouped by line; an error when the line
      tables know nothing about the function. */
  method CreateFrameInfo(p: Program, func: FunctionName, decoded: seq<Decoded>) returns (r: Result<FrameInfo, string>)
    requires CanCreate(p, func, decoded)
    ensures var address := p.nameToSymbol[func].address;
      r.Err? <==> GetLocation(p, address).None?
    ensures r.Err? ==> r.error == MissingDebugInfo(p, func)
    ensures r.Ok? ==>
      var address := p.nameToSymbol[func].address;
      var location := GetLocation(p, address).value;
      var calls := WithMnemonic(decoded, Call);
      var (byLine, unattached) := Partition(p, address, location.file.value, calls, |calls|);
      r.value == NewFrameInfo(func, location.file.value, location.line.value, byLine, unattached)
  {
    var address := p.nameToSymbol[func].address;
    var location := GetLocation(p, address);
    if location.None? {
      return Err(MissingDebugInfo(p, func));
    }
    var sourceFile := location.value.file.value;
    var sourceLine := location.value.line.value;
    var code := GetData(p, func);
    var start := code.value.address;
    var calls := InstructionsWithMnemonic(decoded, Call);
    var lineToCallsites: map<nat, seq<CallInstruction>> := map[];
    var unattachedCallsites: seq<CallInstruction> := [];
    for k := 0 to |calls|
      invariant (lineToCallsites, unattachedCallsites) == Partition(p, start, sourceFile, calls, k)
    {
      var ci := Classify(p, start, calls[k]);
      var callLocation := GetLocation(p, calls[k].ip).value;
      if callLocation.file.value == sourceFile {
        var line := callLocation.line.value;
        var existing := if line in lineToCallsites then lineToCallsites[line] else [];
        lineToCallsites := lineToCallsites[line := existing + [ci]];
      } else {
        unattachedCallsites := unattachedCallsites + [ci];
      }
    }
    r := Ok(NewFrameInfo(func, sourceFile, sourceLine, lineToCallsites, unattachedCallsites));
  }

  // ---------------------------------------------------------------------
  // Trace data on the source view
  // ---------------------------------------------------------------------

  /** The state of one column of a source line. */
  datatype TraceState<T> = Untraced | Pending | Traced(value: T)

  /** Calls per second as the exact ratio `count / seconds`. */
  datatype Rate = Rate(count: nat, seconds: nat)

  /** The latency and frequency columns of one source line. */
  datatype LineState = LineState(latency: TraceState<nat>, frequency: TraceState<Rate>)

  /** Mean latency of a line in nanoseconds: the total duration divided by
      the call count, rounded down, or Untraced when it was never called. */
  function Latency(c: TraceCumulative): (r: TraceState<nat>)
    ensures r.Traced? <==> c.count != 0
    ensures r.Traced? ==> r.value * c.count <= c.durationNanos < (r.value + 1) * c.count
    ensures r != Pending
  {
    if c.count != 0 then Traced(c.durationNanos / c.count) else Untraced
  }

  function Frequency(c: TraceCumulative, seconds: nat): TraceState<Rate>
  {
    Traced(Rate(c.count, seconds))
  }

  function TraceLineState(c: TraceCumulative, seconds: nat): LineState
  {
    LineState(Latency(c), Frequency(c, seconds))
  }

  /** The table of the source view: entry `i` is line `i + 1`. */
  class SourceView {
    var items: seq<LineState>

    /** A view of `lines` lines, none of them traced. */
    constructor (lines: nat)
      ensures |items| == lines
      ensures forall i :: 0 <= i < lines ==> items[i] == LineState(Untraced, Untraced)
    {
      items := seq(lines, i => LineState(Untraced, Untraced));
    }

    /** `set_line_state`: lines are numbered from 1, and a line past the
        end of the view is an error in the source (an unwrap). */
    method SetLineState(line: nat, latency: TraceState<nat>, frequency: TraceState<Rate>)
      requires 1 <= line <= |items|
      modifies this
      ensures items == old(items)[line - 1 := LineState(latency, frequency)]
    {
      items := items[line - 1 := LineState(latency, frequency)];
    }
  }

  /** The view after showing the traces of the first `k` lines of `order`. */
  function ApplyTraces(items: seq<LineState>, info: TraceInfo, order: seq<nat>, k: nat): (r: seq<LineState>)
    requires k <= |order|
    requires forall i :: 0 <= i < |order| ==> order[i] in info.traces && 1 <= order[i] <= |items|
    ensures |r| == |items|
  {
    if k == 0 then items
    else
      var line := order[k - 1];
      ApplyTraces(items, info, order, k - 1)[line - 1 := TraceLineState(info.traces[line], info.timeSeconds)]
  }

  /** Entry `i` of the view after the first `k` lines of `order`: the
      trace of line `i + 1` if that line came up, else the old state. */
  lemma {:induction false} ApplyTracesAt(items: seq<LineState>, info: TraceInfo, order: seq<nat>, k: nat, i: nat)
    requires k <= |order|
    requires forall j :: 0 <= j < |order| ==> order[j] in info.traces && 1 <= order[j] <= |items|
    requires i < |items|
    ensures ApplyTraces(items, info, order, k)[i] ==
      if i + 1 in order[..k] then TraceLineState(info.traces[i + 1], info.timeSeconds) else items[i]
  {
    if k > 0 {
      ApplyTracesAt(items, info, order, k - 1, i);
      assert order[..k] == order[..k - 1] + [order[k - 1]];
    }
  }

  /** The view after a `TraceData` event, traversing the lines in map
      order: every line of the data shows its latency, and no other line
      changes. */
  lemma TraceDataShown(items: seq<LineState>, info: TraceInfo, order: seq<nat>)
    requires IsEnumeration(order, info.traces.Keys)
    requires forall line :: line in info.traces ==> 1 <= line <= |items|
    ensures var r := ApplyTraces(items, info, order, |order|);
      && |r| == |items|
      && (forall line :: line in info.traces ==> r[line - 1] == TraceLineState(info.traces[line], info.timeSeconds))
      && (forall i :: 0 <= i < |items| && i + 1 !in info.traces ==> r[i] == items[i])
  {
    var r := ApplyTraces(items, info, order, |order|);
    assert order[..|order|] == order;
    forall line | line in info.traces
      ensures r[line - 1] == TraceLineState(info.traces[line], info.timeSeconds)
    {
      ApplyTracesAt(items, info, order, |order|, line - 1);
    }
    forall i | 0 <= i < |items| && i + 1 !in info.traces
      ensures r[i] == items[i]
    {
      ApplyTracesAt(items, info, order, |order|, i);
    }
  }

  /** The `TraceData` arm of `handle_event`: data of an older program is
      dropped; otherwise each line of it is shown, in the order `order` in
      which the map is iterated. Counts are converted to 32 bits with an
      unwrap, and lines are looked up in the view with an unwrap. */
  method HandleTraceData(stack: TraceStack, sview: SourceView, info: TraceInfo, order: seq<nat>)
    requires IsEnumeration(order, info.traces.Keys)
    requires stack.IsCounterCurrent(info.counter) ==>
      forall line :: line in info.traces ==> 1 <= line <= |sview.items| && info.traces[line].count < TwoTo32
    modifies sview
    ensures !stack.IsCounterCurrent(info.counter) ==> sview.items == old(sview.items)
    ensures stack.IsCounterCurrent(info.counter) ==> sview.items == ApplyTraces(old(sview.items), info, order, |order|)
  {
    if !stack.IsCounterCurrent(info.counter) {
      return;
    }
    ghost var items := sview.items;
    assert forall j :: 0 <= j < |order| ==> order[j] in info.traces && 1 <= order[j] <= |items|;
    for k := 0 to |order|
      invariant sview.items == ApplyTraces(items, info, order, k)
    {
      var line := order[k];
      var trace := info.traces[line];
      var latency := if trace.count != 0 then Traced(trace.durationNanos / trace.count) else Untraced;
      var frequency := Traced(Rate(trace.count, info.timeSeconds));
      sview.SetLineState(line, latency, frequency);
    }
  }

  // ---------------------------------------------------------------------
  // Events
  // ---------------------------------------------------------------------

  /** What the event loop does with an event. */
  datatype Reaction =
    | Quit(message: string)
    | ShowTraces(info: TraceInfo)
    | RerunTracer
    | ShowSearchResults(viewName: string, results: Results)
    | Ignore

  /** `handle_event`: a fatal error ends the program with its message;
      trace data and search results are shown only when they belong to the
      current trace program and the current search. A `SelectedFunction`
      event never reaches the controller (the source panics on it). */
  function HandleEvent(event: Event, traceCounter: nat, searchCounter: nat): (r: Reaction)
    requires !event.SelectedFunction?
    ensures r.Quit? <==> event.FatalTraceError?
    ensures r.ShowTraces? <==> event.TraceData? && event.info.counter == traceCounter
    ensures r.ShowTraces? ==> r.info == event.info
    ensures r.RerunTracer? <==> event.TraceCommandModified?
    ensures r.ShowSearchResults? <==> event.SearchResults? && event.counter == searchCounter
    ensures r.ShowSearchResults? ==> r.viewName == event.viewName && r.results == event.results
  {
    match event
    case FatalTraceError(message) => Quit(message)
    case TraceData(info) => if info.counter == traceCounter then ShowTraces(info) else Ignore
    case TraceCommandModified => RerunTracer
    case SearchResults(counter, viewName, results) =>
      if counter == searchCounter then ShowSearchResults(viewName, results) else Ignore
  }

  // ---------------------------------------------------------------------
  // Toggling a trace with 'x' and 'X'
  // ---------------------------------------------------------------------

  /** What a key press on a line leads to. */
  datatype ToggleResult =
    | Removed
    | NoCallsDialog(message: string)
    | Added(callsite: CallInstruction)
    | SelectCall(callsites: seq<CallInstruction>)

  function NoCallsMessage(f: FunctionName, line: nat): string
  {
    "No calls found in " + f.name + " on line " + NatToDecimal(line) + ". Note the call may have been inlined."
  }

  function NoUnattachedMessage(f: FunctionName): string
  {
    "No unattached calls found in " + f.name
  }

  function CallsitesOn(f: FrameInfo, line: nat): seq<CallInstruction>
  {
    if line in f.lineToCallsites then f.lineToCallsites[line] else []
  }

  /** 'x' on `line` of frame `f`: untrace the line if it is traced; else
      report a line without calls, trace its only call, or offer its calls
      for selection. Returns the new frame and what is shown. */
  function Toggle(f: FrameInfo, line: nat): (r: (FrameInfo, ToggleResult))
    ensures r.0 == f.(tracedCallsites := r.0.tracedCallsites)
    ensures forall l :: l != line ==>
      (l in r.0.tracedCallsites <==> l in f.tracedCallsites)
      && (l in f.tracedCallsites ==> r.0.tracedCallsites[l] == f.tracedCallsites[l])
    ensures line in f.tracedCallsites ==> r.1 == Removed && line !in r.0.tracedCallsites
    ensures line !in f.tracedCallsites ==>
      var cs := CallsitesOn(f, line);
      && (cs == [] ==> r.1 == NoCallsDialog(NoCallsMessage(f.func, line)) && r.0 == f)
      && (|cs| == 1 ==> r.1 == Added(cs[0]) && line in r.0.tracedCallsites && r.0.tracedCallsites[line] == cs[0])
      && (|cs| > 1 ==> r.1 == SelectCall(cs) && r.0 == f)
    ensures TracesKnown(f) ==> TracesKnown(r.0)
  {
    if line in f.tracedCallsites then
      (f.(tracedCallsites := f.tracedCallsites - {line}), Removed)
    else
      var cs := CallsitesOn(f, line);
      if cs == [] then (f, NoCallsDialog(NoCallsMessage(f.func, line)))
      else if |cs| > 1 then (f, SelectCall(cs))
      else (f.(tracedCallsites := f.tracedCallsites[line := cs[0]]), Added(cs[0]))
  }

  /** Pressing 'x' twice on an untraced line with a single call leaves the
      frame as it was. */
  lemma ToggleTwice(f: FrameInfo, line: nat)
    requires line !in f.tracedCallsites && |CallsitesOn(f, line)| == 1
    ensures Toggle(f, line).1.Added?
    ensures Toggle(Toggle(f, line).0, line).1 == Removed
    ensures Toggle(Toggle(f, line).0, line).0 == f
  {
    var once := Toggle(f, line).0;
    assert once.tracedCallsites - {line} == f.tracedCallsites;
  }

  /** 'X' on `line`: untrace the line if it is traced; otherwise report a
      frame without unattached calls or offer them for selection. */
  function ToggleUnattached(f: FrameInfo, line: nat): (r: (FrameInfo, ToggleResult))
    ensures line in f.tracedCallsites ==>
      r == (f.(tracedCallsites := f.tracedCallsites - {line}), Removed)
    ensures line !in f.tracedCallsites ==> r.0 == f
    ensures line !in f.tracedCallsites && f.unattachedCallsites == [] ==> r.1 == NoCallsDialog(NoUnattachedMessage(f.func))
    ensures line !in f.tracedCallsites && f.unattachedCallsites != [] ==> r.1 == SelectCall(f.unattachedCallsites)
    ensures !r.1.Added?
  {
    if line in f.tracedCallsites then
      (f.(tracedCallsites := f.tracedCallsites - {line}), Removed)
    else if f.unattachedCallsites == [] then (f, NoCallsDialog(NoUnattachedMessage(f.func)))
    else (f, SelectCall(f.unattachedCallsites))
  }

  /** The state shown on a line after a toggle. */
  function ShownAfter(items: seq<LineState>, line: nat, r: ToggleResult): seq<LineState>
    requires 1 <= line <= |items|
  {
    match r
    case Removed => items[line - 1 := LineState(Untraced, Untraced)]
    case Added(_) => items[line - 1 := LineState(Pending, Pending)]
    case _ => items
  }

  /** The 'x' callback on the selected `line`. */
  method ToggleLine(stack: TraceStack, sview: SourceView, line: nat) returns (r: ToggleResult)
    requires stack.Valid() && 1 <= line <= |sview.items|
    modifies stack, sview
    ensures stack.Valid()
    ensures (stack.Top(), r) == Toggle(old(stack.Top()), line)
    ensures stack.frames[..|stack.frames| - 1] == old(stack.frames)[..|old(stack.frames)| - 1]
    ensures stack.mode == old(stack.mode)
    ensures stack.counter == old(stack.counter) + (if r.Removed? then 1 else 0)
    ensures stack.outbox == old(stack.outbox) + (if r.Removed? || r.Added? then [TraceCommandModified] else [])
    ensures sview.items == ShownAfter(old(sview.items), line, r)
    ensures old(stack.AllTracesKnown()) ==> stack.AllTracesKnown()
  {
    var removed := stack.RemoveCallsite(line);
    if removed {
      sview.SetLineState(line, Untraced, Untraced);
      return Removed;
    }
    assert stack.Top().tracedCallsites == old(stack.Top().tracedCallsites);
    var callsites := stack.GetCallsites(line);
    if |callsites| == 0 {
      return NoCallsDialog(NoCallsMessage(stack.Top().func, line));
    }
    if |callsites| > 1 {
      return SelectCall(callsites);
    }
    sview.SetLineState(line, Pending, Pending);
    stack.AddCallsite(line, callsites[0]);
    r := Added(callsites[0]);
  }

  /** The 'X' callback on the selected `line`. */
  method ToggleUnattachedLine(stack: TraceStack, sview: SourceView, line: nat) returns (r: ToggleResult)
    requires stack.Valid() && 1 <= line <= |sview.items|
    modifies stack, sview
    ensures stack.Valid()
    ensures (stack.Top(), r) == ToggleUnattached(old(stack.Top()), line)
    ensures stack.frames[..|stack.frames| - 1] == old(stack.frames)[..|old(stack.frames)| - 1]
    ensures stack.mode == old(stack.mode)
    ensures stack.counter == old(stack.counter) + (if r.Removed? then 1 else 0)
    ensures stack.outbox == old(stack.outbox) + (if r.Removed? then [TraceCommandModified] else [])
    ensures sview.items == ShownAfter(old(sview.items), line, r)
  {
    var removed := stack.RemoveCallsite(line);
    if removed {
      sview.SetLineState(line, Untraced, Untraced);
      return Removed;
    }
    assert stack.Top() == old(stack.Top());
    var callsites := stack.Top().unattachedCallsites;
    if |callsites| == 0 {
      return NoCallsDialog(NoUnattachedMessage(stack.Top().func));
    }
    r := SelectCall(callsites);
  }

  /** The selection callback of the menus opened by 'x' and 'X': the chosen
      call is traced on `line`, which is shown as pending. */
  method TraceSelected(stack: TraceStack, sview: SourceView, line: nat, ci: CallInstruction)
    requires stack.Valid() && 1 <= line <= |sview.items|
    requires CanTrace(stack.Top(), line, ci)
    modifies stack, sview
    ensures stack.Valid()
    ensures stack.frames == WithTop(old(stack.frames),
      old(stack.Top()).(tracedCallsites := old(stack.Top().tracedCallsites)[line := ci]))
    ensures stack.mode == old(stack.mode) && stack.counter == old(stack.counter)
    ensures stack.outbox == old(stack.outbox) + [TraceCommandModified]
    ensures sview.items == ShownAfter(old(sview.items), line, Added(ci))
    ensures old(stack.AllTracesKnown()) ==> stack.AllTracesKnown()
  {
    sview.SetLineState(line, Pending, Pending);
    stack.AddCallsite(line, ci);
  }

  // ---------------------------------------------------------------------
  // Entering a called function with Enter
  // ---------------------------------------------------------------------

  /** A call whose target is known: a function of this file or a
      dynamically linked one. */
  predicate IsDirect(ci: CallInstruction)
  {
    ci.instruction.Function? || ci.instruction.DynamicSymbol?
  }

  /** The targets of the direct calls, in order. */
  function DirectTargets(cs: seq<CallInstruction>): (r: seq<FunctionName>)
    ensures |r| <= |cs|
    ensures forall f :: f in r ==> exists c :: c in cs && IsDirect(c) && c.instruction.target == f
  {
    if cs == [] then []
    else
      var rest := DirectTargets(cs[1..]);
      if IsDirect(cs[0]) then [cs[0].instruction.target] + rest else rest
  }

  /** The number of calls whose target is not known. */
  function CountIndirect(cs: seq<CallInstruction>): nat
  {
    if cs == [] then 0 else CountIndirect(cs[..|cs| - 1]) + (if IsDirect(cs[|cs| - 1]) then 0 else 1)
  }

  /** Taking the direct targets distributes over concatenation, so the list
      has one entry per direct call, in call order. */
  lemma {:induction false} DirectTargetsAppend(a: seq<CallInstruction>, b: seq<CallInstruction>)
    ensures DirectTargets(a + b) == DirectTargets(a) + DirectTargets(b)
  {
    if a != [] {
      assert (a + b)[1..] == a[1..] + b;
      DirectTargetsAppend(a[1..], b);
    } else {
      assert a + b == b;
    }
  }

  /** The calls left out of the direct targets are exactly the indirect
      ones: `num_indirect_calls` counts them. */
  lemma {:induction false} DirectTargetsCount(cs: seq<CallInstruction>)
    ensures |cs| - |DirectTargets(cs)| == CountIndirect(cs)
  {
    if cs != [] {
      var front, last := cs[..|cs| - 1], cs[|cs| - 1];
      assert cs == front + [last];
      DirectTargetsAppend(front, [last]);
      assert [last][1..] == [];
      DirectTargetsCount(front);
    }
  }

  /** The direct targets are exactly the targets of the direct calls; there
      are no more of them than calls, and as many exactly when every call is
      direct. */
  lemma {:induction false} DirectTargetsMeaning(cs: seq<CallInstruction>)
    ensures |DirectTargets(cs)| == |cs| <==> forall i :: 0 <= i < |cs| ==> IsDirect(cs[i])
    ensures forall c :: c in cs && IsDirect(c) ==> c.instruction.target in DirectTargets(cs)
  {
    if cs != [] {
      DirectTargetsMeaning(cs[1..]);
      if !IsDirect(cs[0]) {
        assert |DirectTargets(cs)| < |cs|;
      } else {
        assert |DirectTargets(cs)| == 1 + |DirectTargets(cs[1..])|;
      }
      assert forall i :: 1 <= i < |cs| ==> cs[i] == cs[1..][i - 1];
      assert forall c :: c in cs ==> c == cs[0] || c in cs[1..];
    }
  }

  /** `get_symbol` applied to each name. */
  function Symbols(p: Program, fs: seq<FunctionName>): (r: seq<SymbolInfo>)
    requires forall i :: 0 <= i < |fs| ==> fs[i] in p.nameToSymbol
    ensures |r| == |fs|
    ensures forall i :: 0 <= i < |fs| ==> r[i] == p.nameToSymbol[fs[i]]
  {
    if fs == [] then [] else [p.nameToSymbol[fs[0]]] + Symbols(p, fs[1..])
  }

  /** The first entry of the function menu when some calls are indirect. */
  function IndirectHeader(n: nat): string
  {
    (if n == 1 then "1 indirect call" else NatToDecimal(n) + " indirect calls") + " (type to search)"
  }

  /** What a symbol is listed and matched as. */
  function SymbolText(s: SymbolInfo): string
  {
    DisplayName(s)
  }

  const UsizeMax: nat := TwoTo64 - 1

  /** What Enter on a line leads to. */
  datatype EnterAction =
    | EnterNoCalls(message: string)
    | EnterSymbol(symbol: SymbolInfo)
    | ChooseDirect(symbols: seq<SymbolInfo>)
    | ChooseWithSearch(initialResults: Results, symbols: seq<SymbolInfo>)

  /** Every direct call on the line names a symbol of the table (the source
      looks them up with an unwrap). */
  predicate TargetsKnown(p: Program, cs: seq<CallInstruction>)
  {
    forall c :: c in cs && IsDirect(c) ==> c.instruction.target in p.nameToSymbol
  }

  /** `get_symbol` of each direct target, in order. */
  function DirectSymbols(p: Program, cs: seq<CallInstruction>): (r: seq<SymbolInfo>)
    requires TargetsKnown(p, cs)
    ensures |r| == |DirectTargets(cs)|
    ensures forall s :: s in r ==> exists c :: c in cs && IsDirect(c) && p.nameToSymbol[c.instruction.target] == s
    ensures forall i :: 0 <= i < |r| ==> DirectTargets(cs)[i] in p.nameToSymbol && r[i] == p.nameToSymbol[DirectTargets(cs)[i]]
  {
    var targets := DirectTargets(cs);
    assert forall i :: 0 <= i < |targets| ==> targets[i] in targets;
    Symbols(p, targets)
  }

  /** The Enter decision on the callsites `cs` of `line` in function `f`:
      a message when there are none; the single call entered at once when
      it is the only call and is direct; otherwise a menu of the direct
      calls, which becomes a search headed by the number of indirect calls
      when there are any. */
  function EnterDecision(p: Program, f: FunctionName, line: nat, cs: seq<CallInstruction>,
                         score: (string, string) -> Option<int>): EnterAction
    requires TargetsKnown(p, cs)
  {
    if cs == [] then EnterNoCalls(NoCallsMessage(f, line))
    else
      var symbols := DirectSymbols(p, cs);
      var numIndirect := |cs| - |symbols|;
      if |cs| > 1 || numIndirect > 0 then
        if numIndirect == 0 then ChooseDirect(symbols)
        else
          var ranked := Ranked(symbols, "", UsizeMax, SymbolText, SymbolText, score);
          ChooseWithSearch([(IndirectHeader(numIndirect), None)] + ranked, symbols)
      else
        EnterSymbol(symbols[0])
  }

  /** The four outcomes of Enter and when each happens: a message exactly
      when the line has no call; the call entered at once exactly when it
      is the only one and direct; a plain menu of the direct calls exactly
      when there are several and all are direct; a search menu exactly when
      some call is indirect, headed by the number of indirect calls. Menus
      list only the symbols of direct calls of the line. */
  lemma EnterDecisionMeaning(p: Program, f: FunctionName, line: nat, cs: seq<CallInstruction>,
                             score: (string, string) -> Option<int>)
    requires TargetsKnown(p, cs)
    ensures var r := EnterDecision(p, f, line, cs, score);
      && (r.EnterNoCalls? <==> cs == [])
      && (r.EnterNoCalls? ==> r.message == NoCallsMessage(f, line))
      && (r.EnterSymbol? <==> |cs| == 1 && IsDirect(cs[0]))
      && (r.EnterSymbol? ==> r.symbol == p.nameToSymbol[cs[0].instruction.target])
      && (r.ChooseDirect? <==> |cs| > 1 && forall i :: 0 <= i < |cs| ==> IsDirect(cs[i]))
      && (r.ChooseWithSearch? <==> exists i :: 0 <= i < |cs| && !IsDirect(cs[i]))
      && (r.ChooseDirect? || r.ChooseWithSearch? ==>
            && r.symbols == DirectSymbols(p, cs)
            && forall s :: s in r.symbols ==>
                 exists c :: c in cs && IsDirect(c) && p.nameToSymbol[c.instruction.target] == s)
      && (r.ChooseWithSearch? ==>
            |r.initialResults| >= 1 && r.initialResults[0] == (IndirectHeader(CountIndirect(cs)), None))
  {
    DirectTargetsMeaning(cs);
    DirectTargetsCount(cs);
    if |cs| == 1 && IsDirect(cs[0]) {
      assert DirectTargets(cs) == [cs[0].instruction.target];
    }
  }

  /** The frame `create_frame_info` builds for `func` once its location is
      known: at that location, with the calls of `decoded` grouped by line. */
  function EnteredFrame(p: Program, func: FunctionName, decoded: seq<Decoded>): FrameInfo
    requires CanCreate(p, func, decoded) && GetLocation(p, p.nameToSymbol[func].address).Some?
  {
    var address := p.nameToSymbol[func].address;
    var location := GetLocation(p, address).value;
    var calls := WithMnemonic(decoded, Call);
    var (byLine, unattached) := Partition(p, address, location.file.value, calls, |calls|);
    NewFrameInfo(func, location.file.value, location.line.value, byLine, unattached)
  }

  /** `is_dynamic_symbol` asked of a symbol, where src/program.rs answers it
      only for an address: a symbol is dynamically linked when it has no
      address of its own (address 0, as `get_data` reads it) or when its
      address lies in the PLT. */
  predicate IsDynamicallyLinked(p: Program, symbol: SymbolInfo)
  {
    symbol.address == 0 || IsDynamicSymbol(p, symbol.address)
  }

  /** What the submit callback needs to get past its `expect`: a symbol that
      is not dynamically linked names a function whose frame can be built
      from its decoded code `decoded` and whose location is known. */
  ghost predicate SubmitReady(p: Program, symbol: SymbolInfo, decoded: seq<Decoded>)
  {
    !IsDynamicallyLinked(p, symbol) ==>
      CanCreate(p, symbol.name, decoded) && GetLocation(p, p.nameToSymbol[symbol.name].address).Some?
  }

  /** The submit callback of the Enter and '>' menus: a dynamically linked
      symbol is not entered; any other has its frame built from its decoded
      code and pushed onto the trace stack. */
  method SubmitSymbol(stack: TraceStack, p: Program, symbol: SymbolInfo, decoded: seq<Decoded>)
    requires stack.Valid() && SubmitReady(p, symbol, decoded)
    modifies stack
    ensures stack.Valid() && stack.mode == old(stack.mode)
    ensures IsDynamicallyLinked(p, symbol) ==>
      stack.frames == old(stack.frames) && stack.counter == old(stack.counter) && stack.outbox == old(stack.outbox)
    ensures !IsDynamicallyLinked(p, symbol) ==>
      && stack.frames == old(stack.frames) + [EnteredFrame(p, symbol.name, decoded)]
      && stack.counter == old(stack.counter) + 1
      && stack.outbox == old(stack.outbox) + [TraceCommandModified]
  {
    if !IsDynamicallyLinked(p, symbol) {
      var frame := CreateFrameInfo(p, symbol.name, decoded);
      stack.Push(frame.value);
    }
  }

  /** The Enter callback on the selected `line`: decides; for the search
      menu hands its first results and the direct symbols to the searcher;
      for a single direct call submits it at once. `decoded` is the decoded
      code of the function entered that way. */
  method Enter(stack: TraceStack, searcher: Searcher, p: Program, line: nat, decoded: seq<Decoded>,
               score: (string, string) -> Option<int>) returns (action: EnterAction)
    requires stack.Valid() && searcher.Valid()
    requires TargetsKnown(p, stack.GetCallsites(line))
    requires var a := EnterDecision(p, stack.Top().func, line, stack.GetCallsites(line), score);
      a.EnterSymbol? ==> SubmitReady(p, a.symbol, decoded)
    modifies stack, searcher
    ensures stack.Valid() && searcher.Valid() && stack.mode == old(stack.mode)
    ensures action == old(EnterDecision(p, stack.Top().func, line, stack.GetCallsites(line), score))
    ensures action.ChooseWithSearch? ==>
      && searcher.counter == old(searcher.counter) + 1
      && searcher.commands == old(searcher.commands)
           + [SetEmptySearchResults(action.initialResults), SetFixedItems(action.symbols)]
    ensures !action.ChooseWithSearch? ==>
      searcher.counter == old(searcher.counter) && searcher.commands == old(searcher.commands)
    ensures action.EnterSymbol? && !IsDynamicallyLinked(p, action.symbol) ==>
      && stack.frames == old(stack.frames) + [EnteredFrame(p, action.symbol.name, decoded)]
      && stack.counter == old(stack.counter) + 1
      && stack.outbox == old(stack.outbox) + [TraceCommandModified]
    ensures !(action.EnterSymbol? && !IsDynamicallyLinked(p, action.symbol)) ==>
      stack.frames == old(stack.frames) && stack.counter == old(stack.counter) && stack.outbox == old(stack.outbox)
  {
    var callsites := stack.GetCallsites(line);
    if |callsites| == 0 {
      return EnterNoCalls(NoCallsMessage(stack.Top().func, line));
    }
    var directCalls := DirectSymbols(p, callsites);
    var numIndirect := |callsites| - |directCalls|;
    if |callsites| > 1 || numIndirect > 0 {
      if numIndirect == 0 {
        action := ChooseDirect(directCalls);
      } else {
        var ranked := RankFn(directCalls, "", UsizeMax, SymbolText, SymbolText, score);
        var initialResults := [(IndirectHeader(numIndirect), None)] + ranked;
        searcher.SetupSearch(initialResults, directCalls);
        action := ChooseWithSearch(initialResults, directCalls);
      }
    } else {
      action := EnterSymbol(directCalls[0]);
      SubmitSymbol(stack, p, directCalls[0], decoded);
    }
  }

  // ---------------------------------------------------------------------
  // Entering any function with '>', leaving one with Esc
  // ---------------------------------------------------------------------

  /** The first entry of the '>' menu before anything is typed. */
  const TypeToSearch: Results := [("Type to search", None)]

  /** The '>' callback: opens a search over all functions, starting from a
      hint and with no fixed items. Typing goes to `Searcher.Search`, the
      chosen function to `SubmitSymbol`. */
  method SelectFunctionToEnter(searcher: Searcher) returns (initialResults: Results)
    requires searcher.Valid()
    modifies searcher
    ensures searcher.Valid()
    ensures initialResults == TypeToSearch
    ensures searcher.counter == old(searcher.counter) + 1
    ensures searcher.commands == old(searcher.commands) + [SetEmptySearchResults(TypeToSearch), SetFixedItems([])]
  {
    initialResults := TypeToSearch;
    searcher.SetupSearch(initialResults, []);
  }

  /** What Esc leads to. */
  datatype EscapeResult = CloseLayer | ShowFrame(frame: FrameInfo) | ConfirmQuit

  /** The Esc callback with `layers` layers on screen: closes the top layer
      when there is one above the source view; otherwise leaves the current
      function for its caller, whose frame is shown, or asks whether to quit
      when it is the outermost one. */
  method Escape(stack: TraceStack, layers: nat) returns (r: EscapeResult)
    requires stack.Valid()
    modifies stack
    ensures stack.Valid() && stack.mode == old(stack.mode)
    ensures r.CloseLayer? <==> layers > 1
    ensures r.ConfirmQuit? <==> layers <= 1 && |old(stack.frames)| == 1
    ensures !r.ShowFrame? ==>
      stack.frames == old(stack.frames) && stack.counter == old(stack.counter) && stack.outbox == old(stack.outbox)
    ensures r.ShowFrame? ==>
      && stack.frames == old(stack.frames)[..|old(stack.frames)| - 1]
      && r.frame == stack.Top()
      && stack.counter == old(stack.counter) + 1
      && stack.outbox == old(stack.outbox) + [TraceCommandModified]
  {
    if layers > 1 {
      return CloseLayer;
    }
    var popped := stack.Pop();
    match popped {
      case Some(frame) => r := ShowFrame(frame);
      case None => r := ConfirmQuit;
    }
  }
}
