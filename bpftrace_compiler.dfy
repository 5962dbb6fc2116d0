/** The small AST the profiler builds its bpftrace programs from, and the
    pretty-printer that turns it into bpftrace source text
    (src/bpftrace_compiler.rs). */
module BpftraceCompiler {
  import opened Util
  import opened Programs

  datatype BlockType =
    | Begin
    | Interval(rateSeconds: int)
    | Uprobe(target: FunctionName)
    | UprobeOffset(target: FunctionName, offset: nat)
    | Uretprobe(target: FunctionName)

  datatype Expression =
    | RawExpr(text: string)
    | If(condition: string, body: seq<Expression>)
    | Printf(format: string, args: seq<string>)
    | Print(val: string)

  /** Number of AST nodes; used only to show that compilation terminates. */
  function Size(e: Expression): nat
  {
    match e
    case If(_, body) => 1 + SizeAll(body)
    case _ => 1
  }

  function SizeAll(es: seq<Expression>): nat
  {
    if es == [] then 0 else Size(es[0]) + SizeAll(es[1..])
  }

  // ---------------------------------------------------------------------
  // Expressions
  // ---------------------------------------------------------------------

  /** The `, a1, a2` part of a printf call; nothing when there are no
      arguments. */
  function PrintfArgs(args: seq<string>): (r: string)
    ensures r == "" <==> args == []
    ensures args != [] ==> StartsWith(r, ", ") && r[2..] == Join(args, ", ")
  {
    if args == [] then "" else ", " + Join(args, ", ")
  }

  /** The bpftrace text of one expression. Every form but `If` ends in `;`. */
  function CompileExpression(e: Expression): string
    decreases Size(e), 0
  {
    match e
    case RawExpr(text) => text + ";"
    case If(condition, body) => "if (" + condition + ") { " + CompileVec(body) + " }"
    case Printf(format, args) => "printf(\"" + EscapeQuotes(format) + "\"" + PrintfArgs(args) + ");"
    case Print(val) => "print(" + val + ");"
  }

  /** The compiled expressions, one string per expression, in order. */
  function CompiledAll(es: seq<Expression>): (r: seq<string>)
    ensures |r| == |es|
    decreases SizeAll(es), 1
  {
    if es == [] then [] else [CompileExpression(es[0])] + CompiledAll(es[1..])
  }

  /** Element `i` of the compiled list is the text of expression `i`. */
  lemma {:induction false} CompiledAllAt(es: seq<Expression>, i: nat)
    requires i < |es|
    ensures CompiledAll(es)[i] == CompileExpression(es[i])
  {
    if i > 0 {
      CompiledAllAt(es[1..], i - 1);
    }
  }

  /** `compile_vec`: the compiled expressions separated by single spaces. */
  function CompileVec(es: seq<Expression>): string
    decreases SizeAll(es), 2
  {
    Join(CompiledAll(es), " ")
  }

  /** `If` is the only form that does not end in `;`; it ends in `}`. */
  lemma CompileExpressionEnding(e: Expression)
    ensures EndsWith(CompileExpression(e), ";") <==> !e.If?
    ensures e.If? ==> EndsWith(CompileExpression(e), "}")
  {
    var r := CompileExpression(e);
    assert r[|r| - 1..] == [r[|r| - 1]];
  }

  /** A printf call carries the whole format, with every quote escaped so
      that the format cannot end the string literal early; unescaping the
      text between the quotes gives the format back. */
  lemma PrintfCarriesFormat(format: string, args: seq<string>)
    ensures var r := CompileExpression(Printf(format, args));
      var inner := r[8..8 + |EscapeQuotes(format)|];
      StartsWith(r, "printf(\"") && EndsWith(r, ");")
      && UnescapeQuotes(inner) == format
      && (forall i :: 0 <= i < |inner| && inner[i] == '"' ==> i > 0 && inner[i - 1] == '\\')
      && r[8 + |EscapeQuotes(format)|..] == "\"" + PrintfArgs(args) + ");"
  {
    var esc := EscapeQuotes(format);
    var r := CompileExpression(Printf(format, args));
    assert r == "printf(\"" + esc + "\"" + PrintfArgs(args) + ");";
    assert r[8..8 + |esc|] == esc;
    assert r[8 + |esc|..] == "\"" + PrintfArgs(args) + ");";
    EscapeQuotesRoundTrip(format);
  }

  /** Compiling one more expression adds one space and its text. */
  lemma CompileVecSnoc(es: seq<Expression>, e: Expression)
    ensures CompileVec(es + [e]) ==
      if es == [] then CompileExpression(e) else CompileVec(es) + " " + CompileExpression(e)
  {
    var c := CompiledAll(es + [e]);
    forall i | 0 <= i < |c| ensures c[i] == (CompiledAll(es) + [CompileExpression(e)])[i] {
      CompiledAllAt(es + [e], i);
      if i < |es| {
        CompiledAllAt(es, i);
      }
    }
    assert c == CompiledAll(es) + [CompileExpression(e)];
    JoinSnoc(CompiledAll(es), CompileExpression(e), " ");
  }

  /** `From<String>`/`From<&str>` applied to each element: every string
      becomes a raw expression, with count and order kept. */
  function FromStrings(ss: seq<string>): (r: seq<Expression>)
    ensures |r| == |ss|
    ensures forall i :: 0 <= i < |ss| ==> r[i] == RawExpr(ss[i])
  {
    if ss == [] then [] else [RawExpr(ss[0])] + FromStrings(ss[1..])
  }

  /** The statements of raw expressions built from strings: each string
      followed by `;`, separated by spaces. */
  lemma {:induction false} CompileRawExprs(ss: seq<string>)
    ensures CompileVec(FromStrings(ss)) == Join(Terminated(ss), " ")
  {
    var es := FromStrings(ss);
    var c := CompiledAll(es);
    var t := Terminated(ss);
    assert |c| == |t|;
    forall i | 0 <= i < |c| ensures c[i] == t[i] {
      CompiledAllAt(es, i);
    }
    assert c == t;
  }

  /** Each string with `;` appended. */
  function Terminated(ss: seq<string>): (r: seq<string>)
    ensures |r| == |ss|
    ensures forall i :: 0 <= i < |ss| ==> r[i] == ss[i] + ";"
  {
    if ss == [] then [] else [ss[0] + ";"] + Terminated(ss[1..])
  }

  // ---------------------------------------------------------------------
  // Blocks
  // ---------------------------------------------------------------------

  /** The probe header of a block: `BEGIN`, `interval:s:N`, or a
      `uprobe:`/`uretprobe:` on the program and function, with `+offset`
      for an offset probe. */
  function Header(blockType: BlockType, programPath: string): string
  {
    match blockType
    case Begin => "BEGIN"
    case Interval(rate) => "interval:s:" + IntToDecimal(rate)
    case Uprobe(f) => "uprobe:" + programPath + ":" + DebugName(f)
    case UprobeOffset(f, offset) => "uprobe:" + programPath + ":" + DebugName(f) + "+" + NatToDecimal(offset)
    case Uretprobe(f) => "uretprobe:" + programPath + ":" + DebugName(f)
  }

  /** An offset probe is the plain probe on the same function with `+offset`
      after it; a return probe names the same function under `uretprobe:`. */
  lemma HeaderRelations(f: FunctionName, offset: nat, programPath: string)
    ensures Header(UprobeOffset(f, offset), programPath)
      == Header(Uprobe(f), programPath) + "+" + NatToDecimal(offset)
    ensures Header(Uretprobe(f), programPath) == "uret" + Header(Uprobe(f), programPath)[1..]
    ensures Header(Uprobe(f), programPath) != Header(Uretprobe(f), programPath)
  {
    var u := Header(Uprobe(f), programPath);
    var r := Header(Uretprobe(f), programPath);
    assert u[1] == 'p' && r[1] == 'r';
  }

  /** A probe: its type, an optional filter predicate and its statements. */
  datatype Block = Block(blockType: BlockType, filter: Option<string>, expressions: seq<Expression>)
  {
    /** `Block::add`: one more statement at the end. */
    function Add(e: Expression): (b: Block)
      ensures b.blockType == blockType && b.filter == filter
      ensures b.expressions == expressions + [e]
    {
      this.(expressions := expressions + [e])
    }

    /** `Block::extend` with strings: the raw expressions appended in order. */
    function Extend(ss: seq<string>): (b: Block)
      ensures b.blockType == blockType && b.filter == filter
      ensures |b.expressions| == |expressions| + |ss|
      ensures b.expressions[..|expressions|] == expressions
      ensures forall i :: 0 <= i < |ss| ==> b.expressions[|expressions| + i] == RawExpr(ss[i])
    {
      this.(expressions := expressions + FromStrings(ss))
    }

    /** The probe text: header, ` /filter/` only when there is a filter,
        then the statements between `{ ` and ` }`. */
    function Compile(programPath: string): string
    {
      Header(blockType, programPath) + FilterPart(filter) + " { " + CompileVec(expressions) + " }"
    }

    /** `Block::compile` as written: the text built up piece by piece. */
    method CompileText(programPath: string) returns (out: string)
      ensures out == Compile(programPath)
    {
      out := Header(blockType, programPath);
      if filter.Some? {
        out := out + " /" + filter.value + "/";
      }
      out := out + " { ";
      out := out + CompileVec(expressions);
      out := out + " }";
    }
  }

  /** The ` /predicate/` written after a probe header, if any. */
  function FilterPart(filter: Option<string>): string
  {
    if filter.Some? then " /" + filter.value + "/" else ""
  }

  /** `Block::new` with string statements. */
  function NewBlock(blockType: BlockType, filter: Option<string>, ss: seq<string>): Block
  {
    Block(blockType, filter, FromStrings(ss))
  }

  /** The layout of a compiled block: its header, then ` /filter/` exactly
      when it has a filter, then its statements between ` { ` and ` }`. */
  lemma BlockLayout(b: Block, programPath: string)
    ensures var r := b.Compile(programPath);
      var h := Header(b.blockType, programPath);
      StartsWith(r, h) && EndsWith(r, " }")
      && (StartsWith(r, h + " /") <==> b.filter.Some?)
      && (b.filter.Some? ==> StartsWith(r, h + (" /" + b.filter.value + "/") + " { "))
      && (b.filter.None? ==> StartsWith(r, h + " { "))
      && EndsWith(r, " { " + CompileVec(b.expressions) + " }")
  {
    var h := Header(b.blockType, programPath);
    var fl := FilterPart(b.filter);
    var body := " { " + CompileVec(b.expressions) + " }";
    BlockOpening(b, programPath);
    BlockClosing(b, programPath);
    assert b.Compile(programPath) == h + (fl + body);
    PrefixOfConcat(h, fl + body);
    SuffixOfConcat(h + fl + " { " + CompileVec(b.expressions), " }");
    if b.filter.None? {
      assert h + fl + " { " == h + " { ";
    }
  }

  /** Helper for `BlockLayout`: the text up to the statements. */
  lemma BlockOpening(b: Block, programPath: string)
    ensures var r := b.Compile(programPath);
      var h := Header(b.blockType, programPath);
      && StartsWith(r, h + FilterPart(b.filter) + " { ")
      && (StartsWith(r, h + " /") <==> b.filter.Some?)
  {
    var r := b.Compile(programPath);
    var h := Header(b.blockType, programPath);
    var opening := h + FilterPart(b.filter) + " { ";
    assert r == opening + (CompileVec(b.expressions) + " }");
    PrefixOfConcat(opening, CompileVec(b.expressions) + " }");
    assert r[..|opening|] == opening;
    if b.filter.Some? {
      assert opening[..|h + " /"|] == h + " /";
    } else {
      assert r[|h| + 1] == opening[|h| + 1] == '{';
    }
  }

  /** Helper for `BlockLayout`: the text after the header and filter. */
  lemma BlockClosing(b: Block, programPath: string)
    ensures EndsWith(b.Compile(programPath), " { " + CompileVec(b.expressions) + " }")
  {
    var front := Header(b.blockType, programPath) + FilterPart(b.filter);
    var body := " { " + CompileVec(b.expressions) + " }";
    assert b.Compile(programPath) == front + body;
    SuffixOfConcat(front, body);
  }

  // ---------------------------------------------------------------------
  // Programs
  // ---------------------------------------------------------------------

  /** The compiled blocks, one string per block. */
  function CompiledBlocks(blocks: seq<Block>, programPath: string): (r: seq<string>)
    ensures |r| == |blocks|
    ensures forall i :: 0 <= i < |blocks| ==> r[i] == blocks[i].Compile(programPath)
  {
    if blocks == [] then [] else [blocks[0].Compile(programPath)] + CompiledBlocks(blocks[1..], programPath)
  }

  /** The program text: every block's text, in order, separated by a space. */
  function CompileBlocks(blocks: seq<Block>, programPath: string): string
  {
    Join(CompiledBlocks(blocks, programPath), " ")
  }

  /** Adding a block appends its text after one space. */
  lemma CompileBlocksSnoc(blocks: seq<Block>, b: Block, programPath: string)
    ensures CompileBlocks(blocks + [b], programPath) ==
      if blocks == [] then b.Compile(programPath)
      else CompileBlocks(blocks, programPath) + " " + b.Compile(programPath)
  {
    assert CompiledBlocks(blocks + [b], programPath)
      == CompiledBlocks(blocks, programPath) + [b.Compile(programPath)];
    JoinSnoc(CompiledBlocks(blocks, programPath), b.Compile(programPath), " ");
  }

  /** The program under construction: its blocks, in the order added. */
  class BpftraceProgram {
    var blocks: seq<Block>

    constructor ()
      ensures blocks == []
    {
      blocks := [];
    }

    method Add(b: Block)
      modifies this
      ensures blocks == old(blocks) + [b]
    {
      blocks := blocks + [b];
    }

    function Compile(programPath: string): string
      reads this
    {
      CompileBlocks(blocks, programPath)
    }
  }
}
