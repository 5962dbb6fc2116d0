# wachy core, modelled in Dafny

wachy is an interactive tracing profiler. It shows the source of a function from
a compiled binary, lets the user pick call sites line by line, and turns those
choices into a bpftrace program of `uprobe`/`uretprobe` blocks. It runs that
program and shows latency and call frequency next to each line. The project
models the core of that pipeline:

- `Programs` (`src/program.rs`): the symbol table of the binary. Covers lookup
  by display name (exact match first, then substring matches), debug-info
  locations, code ranges, address-to-symbol resolution (PLT stubs included), and
  the iterator over `call` instructions of a decoded instruction stream.
- `BpftraceCompiler` (`src/bpftrace_compiler.rs`): the small bpftrace AST and
  its compilation to text. Covers blocks, headers, filters, and `printf` with
  escaped quotes.
- `TraceStructs` (`src/trace_structs.rs`): the trace stack. It holds one frame
  per function the user drilled into, plus each frame's traced call sites,
  filter and mode, and a counter that makes stale reports recognisable. Covers
  the generation of the bpftrace program from that stack, and the filter dry
  run with its rollback.
- `Search` (`src/search.rs`): the fuzzy-search worker. Covers ranking by score,
  then label length, then position, with cancellation. Also covers the command
  protocol, in which only the newest request is answered.
- `Tracer` (`src/tracer.rs` with `parse` from `src/trace_structs.rs`): the
  framing of bpftrace's stdout into JSON reports and the exit report.
- `Controller` (`src/controller.rs`): how events are handled, how a frame is
  built from decoded calls, and the `x`, `X`, Enter, `>` and Esc key
  callbacks.
- `Util` and `Events`: the string helpers these share, and the event datatypes
  of `src/events.rs`.

Classes stand where the source mutates state: `TraceStack`, `BpftraceProgram`,
`Searcher`, `CallIterator` and `SourceView`. The generating methods (for example
`GetBpftraceExprLocked` and its helpers `AddLowerProbes`, `AddCallsiteProbes`
and `AddModeBlocks`) are loops that push blocks into a `BpftraceProgram`. Each
is proved against a specification function (`ExpectedBlocks`, `ProgramText`),
and the lemmas state what that program means: how the probes nest, the timing
pair per traced call site, and the printed line list.

The iteration order of a Rust `HashMap` is unspecified, so it becomes a
parameter `order` that enumerates the keys exactly once. Foreign components
become function-typed parameters:

- the bpftrace dry run;
- `serde_json`;
- the fuzzy matcher's score;
- the counter values the search worker reads: `now` when it takes a command, and `seen` at each cancellation poll.

The decoded instruction stream and the debug-info table enter as data.

Where the code does something unexpected, the model keeps the code's behaviour:

- The filter typed for a frame is stored, and the dry run is judged on it. But
  `get_bpftrace_expr_locked` never emits it (the filter is still a TODO at
  src/trace_structs.rs:416), and `ProgramIgnoresFilter` proves this.
- A `ret:` filter is read back with the prefix doubled
  (src/trace_structs.rs:325-332). `FilterReadBack` states this.
- The guard on the call-site return probe names `start<line>[tid]` without the
  `@` of the map that the entry probe sets (src/trace_structs.rs:447-448). This is
  modelled as written.
- The Enter callback's `filter_map` has no arm for `InstructionType::Manual`
  (src/controller.rs:497-510). A manual call is treated as not direct.
- src/controller.rs calls `is_dynamic_symbol_address` and `get_symbol`, which
  src/program.rs of this revision does not define. It also calls
  `is_dynamic_symbol` on a `SymbolInfo`, but src/program.rs:252-254 takes an
  address. The model reads it as `IsDynamicallyLinked`: the symbol has
  address 0, which is what `get_data` calls a dynamically linked symbol
  (src/program.rs:226-229), or its address lies in the PLT. `get_symbol` is
  a lookup in the name-to-symbol map.
- src/trace_structs.rs:5 and 527-542 build a `TraceInfoMode`, which
  src/events.rs does not define. The model uses the `traces` map of
  `src/events.rs`.
- A label's length in the search ranking is `str::len`, a count of UTF-8
  bytes (src/search.rs:190-191). `Utf8Len` models it.

## Model

| member | source | states |
|---|---|---|
| Util.JoinSnoc | src/bpftrace_compiler.rs:153-155 | joining one more part adds the separator and the part, except that the first part has no separator |
| Util.JoinLength | src/bpftrace_compiler.rs:153-155 | a join's length is the sum of the parts plus one separator between each pair |
| Util.ContainsIffOccurs | src/program.rs:195 | the substring test holds exactly when the query occurs at some position |
| Util.EscapeQuotes | src/bpftrace_compiler.rs:145 | escaping adds one character per quote, and every quote in the output is preceded by a backslash |
| Util.EscapeQuotesRoundTrip | src/bpftrace_compiler.rs:145 | unescaping the escaped format gives back the original format |
| Util.NatToBaseNoLeadingZero | src/trace_structs.rs:421 | a rendered number starts with '0' only when it is zero, and zero renders as "0" |
| Util.NatToBaseDigits | src/trace_structs.rs:421 | every character of a rendered number is a digit of the base |
| Util.NatToBaseRoundTrip | src/trace_structs.rs:421 | reading the rendered digits back gives the number |
| Util.NatToBaseInjective | src/trace_structs.rs:431-433 | different lines render differently, so the `@start<line>` variables of different lines are distinct |
| Util.I64ToHex | src/trace_structs.rs:216 | the hex text of a signed 64-bit displacement reads back as its two's-complement value |
| Util.Utf8Len | src/search.rs:190-191 | a label's byte length lies between its character count and four times that |
| Util.Utf8LenAscii | src/search.rs:190-191 | the byte length equals the character count exactly when every character is ASCII |
| Programs.AddressIndex | src/program.rs:125-129 | the address index excludes address 0, maps every address to a symbol at that address, and covers every nonzero symbol |
| Programs.GetMatches | src/program.rs:188-200 | an exact display-name match gives just that one name; otherwise the result is every name containing the query, in table order |
| Programs.GetLocation | src/program.rs:206-220 | a location comes back exactly when debug info knows both the file and the line of the address |
| Programs.GetData | src/program.rs:222-242 | an undefined symbol (address 0) is an error; otherwise the result is the symbol's own address, size and section |
| Programs.GetFunctionForAddress | src/program.rs:244-254 | PLT addresses resolve through the dynamic-symbol map and other addresses through the symbol table; a hit is a symbol at exactly that nonzero address |
| Programs.WithMnemonicMembers | src/program.rs:279-299 | an instruction is among the filtered ones exactly when it is in the stream and has the wanted mnemonic |
| Programs.CallIterator.constructor | src/program.rs:262-272 | a new iterator starts at the head of the decoded stream with nothing yielded |
| Programs.CallIterator.Next | src/program.rs:279-299 | each call yields the next instruction with the mnemonic; exhaustion comes only at the end of the stream, after everything filtered has been yielded |
| Programs.InstructionsWithMnemonic | src/program.rs:279-299 | draining the iterator gives exactly the instructions with that mnemonic, in stream order |
| BpftraceCompiler.CompiledAllAt | src/bpftrace_compiler.rs:153-155 | each compiled piece is the compilation of the expression at that position |
| BpftraceCompiler.CompileExpressionEnding | src/bpftrace_compiler.rs:124-151 | every statement except an `if` ends in ';', and an `if` ends in '}' |
| BpftraceCompiler.PrintfCarriesFormat | src/bpftrace_compiler.rs:134-148 | a compiled printf is `printf("…", args);` whose quoted part unescapes to the format, has no unescaped quote, and is followed by the argument tail `PrintfArgs`: nothing when there are no arguments, otherwise ", " and the arguments joined with ", " |
| BpftraceCompiler.CompileVecSnoc | src/bpftrace_compiler.rs:153-155 | compiling one more statement appends a space and that statement's text |
| BpftraceCompiler.FromStrings | src/bpftrace_compiler.rs:158-167 | each string becomes the raw expression at the same position |
| BpftraceCompiler.CompileRawExprs | src/bpftrace_compiler.rs:153-155 | raw statements compile to the strings, each with ';' added, separated by spaces |
| BpftraceCompiler.HeaderRelations | src/bpftrace_compiler.rs:100-112 | an offset probe is the plain probe plus "+offset"; a return probe is the entry probe with "uret"; the two headers differ |
| BpftraceCompiler.Block.Add | src/bpftrace_compiler.rs:82-84 | adding keeps the probe and filter and appends the expression |
| BpftraceCompiler.Block.Extend | src/bpftrace_compiler.rs:86-96 | extending keeps probe, filter and existing expressions, then adds one raw expression per string in order |
| BpftraceCompiler.Block.CompileText | src/bpftrace_compiler.rs:98-120 | the text built step by step is the block's compiled form |
| BpftraceCompiler.BlockLayout | src/bpftrace_compiler.rs:98-120 | a compiled block starts with its header, shows ` /filter/` right after the header exactly when it has a filter, and ends with its statements between ` { ` and ` }` |
| BpftraceCompiler.CompiledBlocks | src/bpftrace_compiler.rs:57-63 | each compiled block is at the same position as its block |
| BpftraceCompiler.CompileBlocksSnoc | src/bpftrace_compiler.rs:57-63 | adding a block appends a space and that block's text to the program text |
| BpftraceCompiler.BpftraceProgram.constructor | src/bpftrace_compiler.rs:45-47 | a new program has no blocks |
| BpftraceCompiler.BpftraceProgram.Add | src/bpftrace_compiler.rs:49-51 | adding appends exactly that block |
| TraceStructs.NewFrameInfo | src/trace_structs.rs:105-121 | a new frame traces nothing, has no filter, and keeps the given function, file, line and call sites |
| TraceStructs.MaxLine | src/trace_structs.rs:137-142 | the last line is the greatest line with call sites, or the function's own line when there are none |
| TraceStructs.CallInstructionTextStartsWithIp | src/trace_structs.rs:192-207 | a call's display text starts with its relative address in decimal, then ": " |
| TraceStructs.FilterReadBack | src/trace_structs.rs:325-350 | non-empty text sets a return filter exactly when it starts with "ret:"; reading the filter back gives the text, but with "ret:" doubled for return filters |
| TraceStructs.LowerProbesAt | src/trace_structs.rs:395-408 | each lower frame i contributes an entry probe at depth i that sets depth i+1, and a return probe at depth i+1 that restores depth i |
| TraceStructs.LowerProbesPrefix | src/trace_structs.rs:395-408 | the lower probes depend only on the frames below the top |
| TraceStructs.ProgramNesting | src/trace_structs.rs:388-436 | the program starts with BEGIN; each frame's entry probe is guarded by its depth and steps down one depth, and its return probe steps back |
| TraceStructs.CallsiteProbesAt | src/trace_structs.rs:438-458 | each traced call site gets a probe at its call instruction that starts a timer for its line, then a probe after the call that records the line |
| TraceStructs.ProgramIgnoresFilter | src/trace_structs.rs:410-424 | changing the top frame's filter does not change the generated program |
| TraceStructs.LineEntriesText | src/trace_structs.rs:464-473 | the first k per-line entries print as their formats joined by ", ", with a trailing ", " while more follow |
| TraceStructs.LineListText | src/trace_structs.rs:464-473 | all per-line entries print as one ", "-separated list |
| TraceStructs.AddLowerProbes | src/trace_structs.rs:395-408 | the loop appends exactly the lower frames' probe pairs |
| TraceStructs.AddCallsiteProbes | src/trace_structs.rs:438-458 | the loop appends one probe pair per traced call site in map order, and collects the top frame's line followed by those lines |
| TraceStructs.AddCallsite | src/trace_structs.rs:440-457 | one call site contributes its timing pair of probes |
| TraceStructs.BuildLinePrints | src/trace_structs.rs:460-473 | the print statements built in the loop are the specified line printout |
| TraceStructs.AddModeBlocks | src/trace_structs.rs:425-512 | the top frame's blocks for the current mode are appended |
| TraceStructs.DryRunResult | src/trace_structs.rs:359-368 | the dry run succeeds only on success; a failure carries bpftrace's stderr, or says that stderr could not be read |
| TraceStructs.TraceStack.constructor | src/trace_structs.rs:226-237 | a new stack holds the one frame, in line mode, with counter 0 |
| TraceStructs.TraceStack.GetCallsites | src/trace_structs.rs:244-256 | the call sites of a line of the top frame, or none for a line without calls |
| TraceStructs.TraceStack.AddCallsite | src/trace_structs.rs:265-280 | traces the call site on the top frame only; notifies the tracer; leaves counter and mode unchanged |
| TraceStructs.TraceStack.RemoveCallsite | src/trace_structs.rs:282-293 | reports whether the line was traced; if so, untraces it, bumps the counter and notifies the tracer; nothing else changes |
| TraceStructs.TraceStack.Push | src/trace_structs.rs:295-301 | the new frame becomes the top; the counter is bumped and the tracer notified |
| TraceStructs.TraceStack.Pop | src/trace_structs.rs:303-316 | the last frame is never popped; otherwise the top goes away, the new top is returned, the counter is bumped and the tracer notified |
| TraceStructs.TraceStack.SetMode | src/trace_structs.rs:318-323 | sets the mode; the frames stay; the counter is bumped and the tracer notified |
| TraceStructs.TraceStack.SetCurrentFilter | src/trace_structs.rs:334-374 | empty text clears the filter silently; otherwise the filtered program is dry-run; success keeps the filter, bumps the counter and notifies the tracer; failure restores the frames and returns bpftrace's error |
| TraceStructs.TraceStack.DryRunProgram | src/trace_structs.rs:351-358 | the dry run is asked about the program generated from the current stack |
| TraceStructs.TraceStack.Settle | src/trace_structs.rs:358-373 | a failed dry run puts back the saved frames with no counter change or message; success bumps the counter and notifies the tracer |
| TraceStructs.TraceStack.GetBpftraceExprLocked | src/trace_structs.rs:384-518 | returns the program text specified by the stack, mode and call-site order, together with the counter it belongs to |
| Search.BeforeTransitive | src/search.rs:182-196 | the ranking order (higher score, then shorter label, then earlier position) is transitive |
| Search.CandidatesExact | src/search.rs:169-177 | the candidates are exactly the items the matcher scores, each with its score and position |
| Search.SortCandidatesFacts | src/search.rs:179-196 | sorting yields the ranking order and is a permutation of the candidates |
| Search.Present | src/search.rs:198 | each ranked item is shown with its display text and is itself attached |
| Search.RankedMeaning | src/search.rs:179-199 | the result has min(n, number scored) items, all scored and drawn from the scored candidates; they are ordered by score, then fewer label bytes, then earlier position; and no candidate left out ranks ahead of one kept |
| Search.SortedPrefix | src/search.rs:197 | taking the first n of the sorted candidates keeps them sorted and keeps the best: nothing after the cut ranks ahead of anything before it |
| Search.UnscoredNeverRanked | src/search.rs:173-176 | an item the matcher does not score never appears in the ranking |
| Search.RankWithCancellation | src/search.rs:153-201 | returns nothing exactly when a poll saw cancellation; otherwise returns the specified ranking |
| Search.RankFn | src/search.rs:143-151 | without cancellation the result is always the specified ranking |
| Search.Searcher.constructor | src/search.rs:30-41 | a new searcher has counter 0 and has sent no commands |
| Search.Searcher.SetupSearch | src/search.rs:43-55 | bumps the counter and sends the empty-query results, then the fixed items |
| Search.Searcher.Search | src/search.rs:57-67 | bumps the counter, which makes every earlier request stale, and sends a request tagged with the new counter |
| Search.HandleCommand | src/search.rs:82-119 | one worker step is the specified reaction to the command |
| Search.SearchThread | src/search.rs:73-121 | the events the worker sends are the specified replies to the command stream |
| Search.RepliesAreCurrent | src/search.rs:87-116 | every reply answers a request that was current when handled, and uses that request's tag and view |
| Search.FixedItemsFirst | src/search.rs:99-101 | between equally ranked items, the fixed items come before the searched symbols |
| Tracer.EscapeNewlines | src/trace_structs.rs:524 | escaping leaves no raw newline, and adds one character per newline |
| Tracer.Parse | src/trace_structs.rs:521-549 | parsing succeeds exactly when the JSON decoder accepts the escaped text, and the result carries the trace counter |
| Tracer.ProcessOutput | src/tracer.rs:134-170 | the read loop leaves the buffer and the sent events that the specified line-by-line reading gives |
| Tracer.BufferOpensReport | src/tracer.rs:145-153 | the buffer is always empty or starts with '{' |
| Tracer.ReportsCarryCounter | src/tracer.rs:154-167 | every event sent is trace data tagged with the run's counter, or a fatal error |
| Tracer.ExitReport | src/tracer.rs:171-186 | an error is reported exactly when bpftrace failed and was not being killed; it names the command and ends with stderr |
| Controller.Classify | src/controller.rs:263-307 | register calls keep their register (and the displacement for memory operands); a target resolves to a PLT symbol or a function at that address; Unknown means neither |
| Controller.PartitionMeaning | src/controller.rs:308-324 | calls are grouped under each line of this file that has calls, and the others are kept as unattached, in order |
| Controller.PartitionCounts | src/controller.rs:308-324 | each group holds exactly the calls whose location falls there |
| Controller.CreateFrameInfo | src/controller.rs:242-337 | fails exactly when the function has no location; otherwise builds the frame from the grouped calls |
| Controller.Latency | src/controller.rs:169-173 | mean latency is the total duration divided by the count, rounded down, and is untraced when the count is 0 |
| Controller.SourceView.SetLineState | src/controller.rs:339-348 | sets only the given line's state |
| Controller.ApplyTracesAt | src/controller.rs:167-178 | after the loop, a line with data shows its latency and frequency, and other lines keep their state |
| Controller.TraceDataShown | src/controller.rs:167-178 | every reported line shows its data and every other line is unchanged |
| Controller.HandleTraceData | src/controller.rs:155-181 | stale reports leave the view alone, and current ones are applied to every reported line |
| Controller.HandleEvent | src/controller.rs:149-202 | a fatal error quits; only current trace data and search results are shown; a changed command reruns the tracer |
| Controller.Toggle | src/controller.rs:351-397 | `x` untraces a traced line; on an untraced line, no calls gives a dialog, one call is traced, several open a choice; other lines are untouched |
| Controller.ToggleTwice | src/controller.rs:357-396 | toggling a single-call line twice restores the frame |
| Controller.ToggleUnattached | src/controller.rs:399-438 | `X` untraces a traced line, or offers the unattached calls (a dialog when there are none), and never traces directly |
| Controller.ToggleLine | src/controller.rs:351-397 | the key changes only the top frame, as the toggle specifies, and updates that line of the view; the counter is bumped only when a trace is removed, and the tracer is notified whenever a trace is removed or added |
| Controller.ToggleUnattachedLine | src/controller.rs:399-421 | the unattached toggle changes only the top frame and updates that line of the view; removing a trace bumps the counter and notifies the tracer, and nothing else touches either |
| Controller.TraceSelected | src/controller.rs:380-390 | a call chosen in the dialog is traced on its line and shown as pending; the counter is unchanged and the tracer is notified |
| Controller.DirectTargets | src/controller.rs:497-510 | every target listed is the target of a direct call |
| Controller.DirectTargetsAppend | src/controller.rs:497-510 | the `filter_map` works call by call: the targets of two runs of calls are the targets of the first followed by those of the second, so there is one target per direct call, in call order |
| Controller.DirectTargetsCount | src/controller.rs:497-511 | `num_indirect_calls`, the number of calls minus the number of direct targets, is the number of calls that are not direct |
| Controller.DirectTargetsMeaning | src/controller.rs:497-511 | no call is dropped exactly when all calls are direct, and every direct call's target is listed |
| Controller.Symbols | src/controller.rs:503-506 | each target maps to its symbol, in order |
| Controller.DirectSymbols | src/controller.rs:497-510 | one symbol per direct target, in the same order: position i is the symbol of the i-th direct target |
| Controller.EnterDecisionMeaning | src/controller.rs:486-568 | no calls gives a message; one direct call enters it; several direct calls give a choice; any indirect call gives a search whose results start with a header giving the number of indirect calls |
| Controller.Enter | src/controller.rs:477-569 | Enter takes the specified decision; it starts the searcher only when a search is offered; it pushes the callee's frame, bumping the counter and notifying the tracer, only when the single call is direct and not dynamically linked, and otherwise leaves the stack alone |
| Controller.SubmitSymbol | src/controller.rs:513-533 | choosing a dynamically linked symbol (address 0 or in the PLT) changes nothing; otherwise the frame that `create_frame_info` builds for that function is pushed, the counter is bumped and the tracer notified |
| Controller.SelectFunctionToEnter | src/controller.rs:440-449 | `>` opens a search over all functions with the "Type to search" hint and no fixed items, which bumps the searcher's counter |
| Controller.Escape | src/controller.rs:572-589 | Esc closes a layer above the source view when there is one; otherwise it pops the current frame and shows its caller, or asks to quit when only the outermost frame is left; only the pop changes the stack |

## Left out

- The terminal UI: cursive views, dialogs, layers, `src/views.rs`, `Controller::run`, and `setup_source_view`, which loads a source file into the view. The view is only a sequence of line states. So `SubmitSymbol`, `Enter` and `Escape` do not model the view being refilled with the entered or restored function's source.
- Threads, channels, the mutex and the atomic counters. Commands and events are sequences, and counters are fields.
- Spawning bpftrace and killing it. The dry run and the exit status are parameters.
- The ELF, DWARF and disassembly libraries (`object`, `addr2line`, `gimli`, `zydis`). `Program::new` and `dynamic_symbols_map` build tables that enter the model as data, and the decoded instruction stream is an input.
- C++ demangling. The demangled name is part of the symbol data.
- The fuzzy matcher's scoring. It is a function parameter.
- JSON decoding by `serde_json`. It is a function parameter.
- Histogram-mode output parsing in `parse`. The model reads only the line-mode `traces` map of src/events.rs.
- Controller.HandleTraceData: frequency is kept as the exact pair of count and seconds, not the `f32` quotient, because floating point is not modelled.
- Integer widths: `u32` lines and offsets and `u64` counters are unbounded. The `u32::try_from(count).unwrap()` panic is a precondition of HandleTraceData (count < 2^32).
- Panics. Where the source unwraps or panics, the model instead demands that the panic cannot happen:
  - `Programs.GetData`: a defined symbol has a section index (the `section_index` unwrap).
  - `Controller.HandleEvent`: the event is not `SelectedFunction` (`panic!("Unexpected event")`).
  - `Controller.SourceView.SetLineState`: the line is within the view (the `get_mut(..).unwrap()`).
  - `Controller.CreateFrameInfo`: `CanCreate` covers the unwraps on the code range, section and call locations.
  - `Controller.SubmitSymbol` and `Controller.Enter`: `SubmitReady` says the entered function's frame can be built, which is the `expect` on `setup_function`.
  - `Controller.Enter`: `TargetsKnown` covers the `get_symbol` lookups.
  - `TraceStructs.TraceStack.AddCallsite`: `CanTrace` is the `assert!` that the call is manual, a callsite of the line, or an unattached callsite (src/trace_structs.rs:267-275).
- Programs.DebugName: Rust's derived `Debug` rendering of a function name appears in every probe header (src/bpftrace_compiler.rs:103-111). It is modelled as `FunctionName("…")` without the escaping that `str`'s `Debug` applies to quotes, backslashes and control characters.
- Logging, and the `get_current_function` and `get_unattached_callsites` getters, which only read a field.
- BpftraceCompiler.Block: blocks are values, not objects mutated in place. The source moves them into the program, so there is no aliasing to model.
- Programs.GetData: returns the code range (address, size and section), not the bytes it slices from the section.
