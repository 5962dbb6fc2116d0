/** The messages the threads of the profiler send to the controller
    (src/events.rs). Durations are whole nanoseconds and the trace time
    whole seconds, as the tracer builds them. */
module Events {
  import opened Util
  import opened Programs

  /** Cumulative time and number of calls for one traced line. */
  datatype TraceCumulative = TraceCumulative(durationNanos: nat, count: nat)

  /** One batch of trace data, tagged with the trace-stack counter that was
      current when the bpftrace program producing it was generated. */
  datatype TraceInfo = TraceInfo(counter: nat, timeSeconds: nat, traces: map<nat, TraceCumulative>)

  datatype Event =
    | FatalTraceError(message: string)
    | TraceData(info: TraceInfo)
    | TraceCommandModified
    | SearchResults(counter: nat, viewName: string, results: seq<(string, Option<SymbolInfo>)>)
    | SelectedFunction(selected: FunctionName)
}
