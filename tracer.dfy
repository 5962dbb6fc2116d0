/** The reader of bpftrace's standard output and the check of its exit
    status (src/tracer.rs). bpftrace prints one JSON object per report,
    spread over several lines for a histogram; the reader puts the lines
    of one object back together and hands each object to the parser. */
module Tracer {
  import opened Util
  import opened Events

  /** One line read from bpftrace's standard output, or a read error. */
  datatype LineRead = ReadOk(text: string) | ReadError

  /** What the JSON parser makes of one report. */
  datatype ParsedOutput = ParsedOutput(timeSeconds: nat, traces: map<nat, TraceCumulative>)

  /** The text with every newline written as the two characters `\n`, so
      that a report printed over several lines is one JSON line. */
  function EscapeNewlines(s: string): (r: string)
    ensures forall i :: 0 <= i < |r| ==> r[i] != '\n'
    ensures |r| == |s| + CountChar(s, '\n')
  {
    if s == [] then []
    else (if s[0] == '\n' then "\\n" else [s[0]]) + EscapeNewlines(s[1..])
  }

  /** `TraceStack::parse`: escapes newlines, runs the JSON parser `json`
      and stamps the result with the counter of the program that produced
      it. */
  function Parse(text: string, counter: nat, json: string -> Result<ParsedOutput, string>): (r: Result<TraceInfo, string>)
    ensures r.Ok? <==> json(EscapeNewlines(text)).Ok?
    ensures r.Ok? ==> r.value.counter == counter
  {
    match json(EscapeNewlines(text))
    case Ok(out) => Ok(TraceInfo(counter, out.timeSeconds, out.traces))
    case Err(e) => Err(e)
  }

  /** The buffer after taking a line in, or None when the line is noise
      (bpftrace prints all maps on exit) and is dropped. */
  function Collect(buf: string, line: string): Option<string>
  {
    if buf != "" then Some(buf + "\n" + line)
    else if !StartsWith(line, "{") then None
    else Some(line)
  }

  /** One pass of the reading loop: the new buffer and the events sent. */
  function ReadStep(buf: string, read: LineRead, counter: nat, json: string -> Result<ParsedOutput, string>): (string, seq<Event>)
  {
    match read
    case ReadError => (buf, [])
    case ReadOk(line) =>
      match Collect(buf, line)
      case None => (buf, [])
      case Some(b) =>
        if !EndsWith(b, "}") then (b, [])
        else
          match Parse(b, counter, json)
          case Ok(info) => ("", [TraceData(info)])
          case Err(e) => (b, [FatalTraceError("Failed to parse bpftrace output '" + b + "': " + e)])
  }

  /** The buffer and the events sent after the first `k` lines. */
  function ReadLines(lines: seq<LineRead>, k: nat, counter: nat, json: string -> Result<ParsedOutput, string>): (string, seq<Event>)
    requires k <= |lines|
  {
    if k == 0 then ("", [])
    else
      var before := ReadLines(lines, k - 1, counter, json);
      var after := ReadStep(before.0, lines[k - 1], counter, json);
      (after.0, before.1 + after.1)
  }

  /** The reading loop of the output thread: returns the events it sends
      and what is left in the buffer when the output ends. */
  method ProcessOutput(lines: seq<LineRead>, counter: nat, json: string -> Result<ParsedOutput, string>)
    returns (jsonBuf: string, sent: seq<Event>)
    ensures (jsonBuf, sent) == ReadLines(lines, |lines|, counter, json)
  {
    jsonBuf := "";
    sent := [];
    for k := 0 to |lines|
      invariant (jsonBuf, sent) == ReadLines(lines, k, counter, json)
    {
      ghost var step := ReadStep(jsonBuf, lines[k], counter, json);
      assert ReadLines(lines, k + 1, counter, json) == (step.0, sent + step.1);
      assert sent + [] == sent;
      if lines[k].ReadError? {
        continue;
      }
      var line := lines[k].text;
      if jsonBuf != "" {
        jsonBuf := jsonBuf + "\n";
        jsonBuf := jsonBuf + line;
      } else if !StartsWith(line, "{") {
        continue;
      } else {
        jsonBuf := line;
      }
      assert Collect(ReadLines(lines, k, counter, json).0, line) == Some(jsonBuf);
      if EndsWith(jsonBuf, "}") {
        var parsed := Parse(jsonBuf, counter, json);
        if parsed.Err? {
          sent := sent + [FatalTraceError("Failed to parse bpftrace output '" + jsonBuf + "': " + parsed.error)];
          continue;
        }
        sent := sent + [TraceData(parsed.value)];
        jsonBuf := "";
      }
    }
  }

  /** How one line changes the buffer: a read error or a noise line leaves
      it as it was; a line opening a report starts it; any line while a
      report is open is appended after a newline; a complete report that
      parses empties it, and one that does not parse stays. */
  lemma ReadStepBuffer(buf: string, read: LineRead, counter: nat, json: string -> Result<ParsedOutput, string>)
    ensures read.ReadError? ==> ReadStep(buf, read, counter, json) == (buf, [])
    ensures read.ReadOk? && buf == "" && !StartsWith(read.text, "{") ==> ReadStep(buf, read, counter, json) == (buf, [])
    ensures read.ReadOk? && buf != "" && !EndsWith(buf + "\n" + read.text, "}") ==>
      ReadStep(buf, read, counter, json).0 == buf + "\n" + read.text
    ensures read.ReadOk? && (buf != "" || StartsWith(read.text, "{")) ==>
      var b := if buf == "" then read.text else buf + "\n" + read.text;
      var (after, events) := ReadStep(buf, read, counter, json);
      && (!EndsWith(b, "}") ==> after == b && events == [])
      && (EndsWith(b, "}") && Parse(b, counter, json).Ok? ==> after == "" && events == [TraceData(Parse(b, counter, json).value)])
      && (EndsWith(b, "}") && Parse(b, counter, json).Err? ==> after == b && |events| == 1 && events[0].FatalTraceError?)
  {
  }

  /** Between lines the buffer is empty or holds an open report. */
  lemma {:induction false} BufferOpensReport(lines: seq<LineRead>, k: nat, counter: nat, json: string -> Result<ParsedOutput, string>)
    requires k <= |lines|
    ensures var buf := ReadLines(lines, k, counter, json).0;
      buf == "" || StartsWith(buf, "{")
  {
    if k > 0 {
      BufferOpensReport(lines, k - 1, counter, json);
      var before := ReadLines(lines, k - 1, counter, json).0;
      if lines[k - 1].ReadOk? && before != "" {
        var b := before + "\n" + lines[k - 1].text;
        assert b[..1] == before[..1];
      }
    }
  }

  /** Every trace report sent carries the counter the program was started
      with, so the controller can tell reports of an older program. */
  lemma {:induction false} ReportsCarryCounter(lines: seq<LineRead>, k: nat, counter: nat, json: string -> Result<ParsedOutput, string>)
    requires k <= |lines|
    ensures forall e :: e in ReadLines(lines, k, counter, json).1 ==>
      (e.TraceData? && e.info.counter == counter) || e.FatalTraceError?
  {
    if k > 0 {
      ReportsCarryCounter(lines, k - 1, counter, json);
    }
  }

  /** The check after bpftrace exits: a failure is fatal unless bpftrace
      was being killed on purpose; otherwise its stderr is only logged. */
  function ExitReport(success: bool, isKilling: bool, expr: string, status: string, stderr: string): (r: Option<Event>)
    ensures r.Some? <==> !success && !isKilling
    ensures r.Some? ==>
      (&& r.value.FatalTraceError?
       && StartsWith(r.value.message, "bpftrace command '" + expr + "'")
       && EndsWith(r.value.message, "stderr:\n" + stderr))
  {
    if !success && !isKilling then
      var msg := "bpftrace command '" + expr + "' failed, status: " + status + ", stderr:\n" + stderr;
      assert msg[..|"bpftrace command '" + expr + "'"|] == "bpftrace command '" + expr + "'";
      assert msg[|msg| - |"stderr:\n" + stderr|..] == "stderr:\n" + stderr;
      Some(FatalTraceError(msg))
    else None
  }
}
