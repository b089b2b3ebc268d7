# xabironelson-codex, modelled in Dafny

Xabiro is a terminal coding assistant. A REPL reads a line, a command
registry handles the `/`-commands, and everything else goes to an LLM
through a provider adapter (Gemini or Kimi/Moonshot). Two benchmark
scripts (`benchmark-compare.ts` and `frame-meter.ts`) measure how fast the
two terminal renderers stream text. This project models the logic at the
core of those parts and proves what it promises:

- **Benchmark statistics and meters** (`stats.dfy`, `benchmark_compare.dfy`,
  `instrumentation.dfy`, `data_provider.dfy`):
  - nearest-rank percentiles, means, the sample standard deviation, Cohen's d and
    Welch's t-test branching;
  - the bisection of `tCritical95`, confidence intervals and the aggregation of runs;
  - extraction of the `BENCHMARK_RESULT:` line and the iteration loop;
  - the frame, memory and stdout meters as classes with their counters;
  - the word-token generator that feeds the renderers.
- **Event emitter and log buffer** (`event_emitter.dfy`, `logs_dialog.dfy`):
  - the listener registry is a map from event names to duplicate-free callback
    sets, with its "no empty set" invariant;
  - the dialog's log list is newest first and capped at 100 entries.
- **Command and tool dispatch** (`command_line.dfy`, `commands.dfy`,
  `py_commands.dfy`, `tools.dfy`):
  - command-line splitting in TypeScript (regular expression) and Python (`split()`);
  - the handlers and the command use cases of both languages;
  - the tool use cases that inject `working_directory`.
- **LLM providers** (`provider_factory.dfy`, `config.dfy`, `llm_client.dfy`,
  `gemini.dfy`, `gemini_legacy.dfy`, `kimi.dfy`, `kimi_stream.dfy`,
  `llm_repository.dfy`):
  - provider and API-key resolution, and configuration parsing;
  - request building, request bodies, status-code tables and response mappers;
  - the Kimi server-sent-events parser with its line buffer and tool-call accumulator;
  - the conversation memory of the repositories.

How the model represents the source:

- JavaScript numbers are `real`; `undefined` is `None`.
- JSON values are the `Json` datatype; something an adapter throws is a `Failure`.
- Everything outside the core is a parameter of the functions that use it: zod
  schemas, `JSON.parse`, `fetch`'s outcome, `Math.sqrt`, the t-distribution CDF,
  `path.resolve` and the way numbers are printed.

## Model

| member | source | states |
|---|---|---|
| Stats.MathRound | benchmark/frame-meter.ts:104 | `Math.round` lands within half a unit of its argument and is an integer |
| Stats.Min | benchmark/benchmark-compare.ts:352 | `Math.min(...s)` is an element of `s` and at most every element |
| Stats.Max | benchmark/benchmark-compare.ts:353 | `Math.max(...s)` is an element of `s` and at least every element |
| Stats.Avg | benchmark/benchmark-compare.ts:89-91 | the mean times the sample size is the sum; an empty sample has mean 0 |
| Stats.AvgBetweenMinMax | benchmark/benchmark-compare.ts:89-91 | the mean of a non-empty sample lies between its minimum and maximum |
| Stats.Sort | benchmark/benchmark-compare.ts:321 | the sorted copy is ascending and a permutation of the input |
| Stats.NearestRank | benchmark/benchmark-compare.ts:322-323 | `max(0, ceil(p·n/100) − 1)` is always a valid index for 0 ≤ p ≤ 100 |
| Stats.NearestRankMonotone | benchmark/benchmark-compare.ts:322-323 | the rank grows with p |
| Stats.Percentile | benchmark/benchmark-compare.ts:319-320 | an empty sample gives 0, as all three copies of `percentile` return before sorting |
| Stats.PercentileIsElement | benchmark/benchmark-compare.ts:319-324 | a non-empty sample's percentile is one of its elements |
| Stats.PercentileHundredIsMax | benchmark/frame-meter.ts:75-80 | the 100th percentile is the maximum |
| Stats.PercentileMonotone | benchmark/frame-meter.ts:254-259 | the percentile is monotone in p |
| Stats.PercentileBetweenMinMax | benchmark/benchmark-compare.ts:319-324 | every percentile lies between the minimum and the maximum |
| Stats.PercentileOfPermutation | benchmark/benchmark-compare.ts:321 | the percentile depends only on the multiset of values, not their order |
| Stats.P95OfFewSamplesIsMax | benchmark/benchmark-compare.ts:319-324 | with fewer than 20 samples the 95th percentile is the maximum |
| Stats.P95OfOneToTen | benchmark/benchmark-compare.ts:319-324 | the 95th percentile of 1..10 is 10 |
| Stats.SquaredDeviations | benchmark/benchmark-compare.ts:96 | the sum of squared deviations is never negative |
| Stats.StdDev | benchmark/benchmark-compare.ts:93-100 | fewer than two samples give 0 |
| Stats.StdDevNonNegative | benchmark/benchmark-compare.ts:93-100 | the standard deviation is never negative |
| Stats.StdDevOfConstant | benchmark/benchmark-compare.ts:93-100 | a sample without spread has standard deviation 0 and its mean is the common value |
| BenchmarkCompare.BracketProperties | benchmark/benchmark-compare.ts:106-110 | each bisection step keeps lo ≤ hi inside the starting bracket and halves its width; lo only moves to a mid with CDF < 0.975, hi only to one with CDF ≥ 0.975 |
| BenchmarkCompare.TCritical | benchmark/benchmark-compare.ts:102-112 | the critical value lies in [0, 20] |
| BenchmarkCompare.TCriticalBracketed | benchmark/benchmark-compare.ts:102-112 | the result is the midpoint of a bracket of width 20/2^100 whose ends, where they moved, straddle the 0.975 level |
| BenchmarkCompare.TCritical95 | benchmark/benchmark-compare.ts:102-112 | the 100-step loop computes the bisection's midpoint, which lies in [0, 20] |
| BenchmarkCompare.ConfidenceInterval95 | benchmark/benchmark-compare.ts:114-121 | fewer than two samples give [mean, mean] |
| BenchmarkCompare.ConfidenceIntervalAroundMean | benchmark/benchmark-compare.ts:114-121 | the interval is symmetric about the mean and contains it |
| BenchmarkCompare.Classify | benchmark/benchmark-compare.ts:145-148 | the thresholds 0.2, 0.5 and 0.8, tested in order, pick exactly one label (both directions) |
| BenchmarkCompare.PooledVarianceNonNegative | benchmark/benchmark-compare.ts:136-137 | the pooled variance is never negative |
| BenchmarkCompare.CohensD | benchmark/benchmark-compare.ts:124-151 | a pooled standard deviation of 0 gives d = 0, "negligible" |
| BenchmarkCompare.CohensDMatchesLabel | benchmark/benchmark-compare.ts:139-150 | the reported d is ≥ 0 and lies in the band of its label (up to the rounding edge) |
| BenchmarkCompare.CohensDSymmetric | benchmark/benchmark-compare.ts:124-151 | the effect size does not depend on the order of the samples |
| BenchmarkCompare.WelchTTest | benchmark/benchmark-compare.ts:154-185 | se = 0 gives t = 0, p = 1, not significant; significant ⇔ p < 0.05; the effect size is Cohen's d |
| BenchmarkCompare.WelchTermsSymmetric | benchmark/benchmark-compare.ts:170-179 | the standard error and the degrees of freedom are symmetric in the samples |
| BenchmarkCompare.WelchTTestSwap | benchmark/benchmark-compare.ts:170-184 | swapping the samples negates t and leaves p, significance and effect size unchanged |
| BenchmarkCompare.WelchTTestOfConstantSamples | benchmark/benchmark-compare.ts:170-173 | two samples without spread give the degenerate verdict t = 0, p = 1 |
| BenchmarkCompare.AllRawFrameTimesContains | benchmark/benchmark-compare.ts:341-343 | every run's frame times appear in the combined list |
| BenchmarkCompare.AggregateResults | benchmark/benchmark-compare.ts:326-375 | null iff no runs; `runs` is the number of results; p95/p99 come from the concatenated frame times; the 60 fps target ⇔ p99 ≤ 16.67 |
| BenchmarkCompare.AggregateOrdered | benchmark/benchmark-compare.ts:352-354 | min ≤ max, p95 ≤ p99, and the interval's ends are ordered |
| BenchmarkCompare.CombinedPercentilesIgnoreRunOrder | benchmark/benchmark-compare.ts:341-364 | the combined percentiles and the target verdict do not depend on the order of the runs |
| BenchmarkCompare.TargetFromFrameBudget | benchmark/benchmark-compare.ts:364 | runs whose frames all meet 16.67 ms achieve the target; runs whose frames all take ≥ 16.68 ms do not |
| BenchmarkCompare.ExtractPayloadSound | benchmark/benchmark-compare.ts:300 | what the regular expression captures is a brace-delimited, single-line stretch right after `BENCHMARK_RESULT:` |
| BenchmarkCompare.ExtractPayloadOfResultLine | benchmark/benchmark-compare.ts:300 | a result printed on its own line, after lines without `{`, is captured exactly |
| BenchmarkCompare.RunResult | benchmark/benchmark-compare.ts:292-315 | a run yields a result exactly when it exits with 0, printed a result line and that line's payload parses, and the result is the parsed payload |
| BenchmarkCompare.SuccessesCount | benchmark/benchmark-compare.ts:392-403 | at most one result per run, and one per run exactly when no run failed |
| BenchmarkCompare.SuccessesFromRuns | benchmark/benchmark-compare.ts:392-403 | every kept result is the parsed payload of some measured run |
| BenchmarkCompare.RunBenchmarkWithIterations | benchmark/benchmark-compare.ts:377-406 | warmup outcomes are discarded; the result is exactly the successful measured runs, in order, at most `ITERATIONS` of them |
| Instrumentation.FrameMetricsOf | benchmark/frame-meter.ts:82-115 | the counters pass through; with no frames every timing is 0 and `rawFrameTimes` is empty; otherwise the raw times are the recorded ones and the average is their rounded mean |
| Instrumentation.FrameMetricsOrdered | benchmark/frame-meter.ts:98-114 | min ≤ avg ≤ max and min ≤ p95 ≤ p99 ≤ max, after rounding |
| Instrumentation.FrameMetricsOfSteadyFrames | benchmark/frame-meter.ts:98-114 | frames of equal length t report t, rounded, as average, minimum, maximum and p99, and a rate of `round(1000 / t)` |
| Instrumentation.FrameMeter.constructor | benchmark/frame-meter.ts:30-34 | a meter starts with no frames, zero counters and nothing pending |
| Instrumentation.FrameMeter.BeginFrame | benchmark/frame-meter.ts:36-53 | a pending frame only counts a dropped frame; otherwise the frame starts, `totalFrames` grows by one, and backpressure is counted exactly when the write was not flushed |
| Instrumentation.FrameMeter.EndFrame | benchmark/frame-meter.ts:55-59 | the measured time is appended and the frame is no longer pending |
| Instrumentation.FrameMeter.RecordFrame | benchmark/frame-meter.ts:36-60 | both halves together: dropped while pending, otherwise exactly one frame time appended, one frame counted and the meter idle again |
| Instrumentation.FrameMeter.RecordFrameSync | benchmark/frame-meter.ts:62-65 | one frame counted and one time appended, in lockstep |
| Instrumentation.FrameMeter.RecordDroppedFrame | benchmark/frame-meter.ts:67-69 | only `droppedFrames` grows |
| Instrumentation.FrameMeter.RecordBackpressure | benchmark/frame-meter.ts:71-73 | only `backpressureEvents` grows |
| Instrumentation.FrameMeter.GetMetrics | benchmark/frame-meter.ts:82-115 | reports `FrameMetricsOf` of the current state |
| Instrumentation.FrameMeter.Reset | benchmark/frame-meter.ts:117-123 | every field is back to its initial value |
| Instrumentation.PeakBounds | benchmark/frame-meter.ts:150-151 | the running peak bounds every reading, is never negative, and is a reading unless still 0 |
| Instrumentation.PeakGrows | benchmark/frame-meter.ts:150-151 | more samples never lower the peak |
| Instrumentation.MemoryMetricsOf | benchmark/frame-meter.ts:154-167 | current and peak readings are reported in megabytes |
| Instrumentation.PeakMetricsBoundSamples | benchmark/frame-meter.ts:154-167 | the reported peaks are at least the reported size of every sample taken |
| Instrumentation.MemoryProfiler.constructor | benchmark/frame-meter.ts:127-130 | no samples, zero peaks, no timer |
| Instrumentation.MemoryProfiler.Sample | benchmark/frame-meter.ts:144-152 | the sample is recorded and each peak becomes the maximum of itself and the sample, so peaks never decrease |
| Instrumentation.MemoryProfiler.Start | benchmark/frame-meter.ts:132-135 | one immediate sample, then the timer is active |
| Instrumentation.MemoryProfiler.Stop | benchmark/frame-meter.ts:137-142 | the timer is off and the samples and peaks are kept; with no timer it is a no-op |
| Instrumentation.MemoryProfiler.GetMetrics | benchmark/frame-meter.ts:154-167 | reports `MemoryMetricsOf` the reading and the peaks |
| Instrumentation.MemoryProfiler.Reset | benchmark/frame-meter.ts:169-174 | samples and peaks cleared and the timer left as it is; only `reset` sets the peaks back to 0 |
| Instrumentation.Utf8LengthBounds | benchmark/frame-meter.ts:234-235 | a string's UTF-8 length is between one and four bytes per character, and equals its length exactly for ASCII |
| Instrumentation.StdoutMetricsOf | benchmark/frame-meter.ts:265-283 | counters pass through; with no writes every timing is 0 |
| Instrumentation.StdoutMetricsOrdered | benchmark/frame-meter.ts:265-283 | avg ≤ max and p95 ≤ p99 ≤ max |
| Instrumentation.ProcessStdout.constructor | benchmark/frame-meter.ts:195 | the stream starts with the given writer installed |
| Instrumentation.StdoutMeter.constructor | benchmark/frame-meter.ts:194-196 | a bound copy of the writer installed at construction is captured, the stream is left as it is; counters are zero and the meter is unhooked |
| Instrumentation.StdoutMeter.Start | benchmark/frame-meter.ts:198-246 | installs the metering wrapper around the captured writer; while hooked it is a no-op |
| Instrumentation.StdoutMeter.InterceptedWrite | benchmark/frame-meter.ts:205-245 | one write counted and timed, the chunk's byte length added (UTF-8 for strings, raw for buffers), backpressure counted exactly when the writer returned false, and the writer's result returned |
| Instrumentation.StdoutMeter.Stop | benchmark/frame-meter.ts:248-252 | installs the captured bound copy, which is not the writer found at construction, and clears `isHooked`; while unhooked it is a no-op |
| Instrumentation.StdoutMeter.GetWriteTimes | benchmark/frame-meter.ts:261-263 | returns the recorded write times |
| Instrumentation.StdoutMeter.GetMetrics | benchmark/frame-meter.ts:265-283 | reports `StdoutMetricsOf` of the counters |
| Instrumentation.StdoutMeter.Reset | benchmark/frame-meter.ts:285-290 | zeroes the counters and leaves the hook as it is |
| DataProvider.Fields | benchmark/data-provider.ts:30 | `split("\n")` gives at least one piece and no piece holds the separator |
| DataProvider.JoinFields | benchmark/data-provider.ts:30 | joining the pieces with the separator gives the text back |
| DataProvider.LinesAreVisibleLines | benchmark/data-provider.ts:30 | the kept lines are exactly the lines with a non-white-space character, and none holds a line feed |
| DataProvider.Words | benchmark/data-provider.ts:35 | the words are non-empty and hold no white space |
| DataProvider.WordTokens | benchmark/data-provider.ts:37-47 | the k-th word token carries the k-th word and the words 0..k joined by single spaces |
| DataProvider.LineTokens | benchmark/data-provider.ts:33-55 | a line yields one token per word and then one more |
| DataProvider.StreamLength | benchmark/data-provider.ts:32-56 | the stream has Σ(words + 1) tokens |
| DataProvider.AccumulatedExtends | benchmark/data-provider.ts:39 | each `accumulated` is the previous one plus a space and the word |
| DataProvider.LineTokensShape | benchmark/data-provider.ts:41-54 | a token is a completion token iff its word is empty; a line's last token is its completion token with the line's text |
| DataProvider.StreamLineIndexBounds | benchmark/data-provider.ts:33 | line indices stay in 0..lines.length−1 |
| DataProvider.StreamLineIndexOrder | benchmark/data-provider.ts:33 | line indices never decrease |
| DataProvider.StreamCompletionTokens | benchmark/data-provider.ts:41-54 | across the stream, `isComplete` holds exactly on the tokens with an empty word |
| DataProvider.StreamCoversLines | benchmark/data-provider.ts:49-54 | every line contributes its completion token carrying its text |
| DataProvider.StreamTokens | benchmark/data-provider.ts:32-56 | the outer loop yields exactly `Stream(lines)` |
| DataProvider.YieldLine | benchmark/data-provider.ts:34-54 | one outer iteration yields exactly the line's tokens |
| DataProvider.YieldWords | benchmark/data-provider.ts:37-47 | the inner loop yields exactly the word tokens |
| JsText.TrimNonEmptyIffVisible | benchmark/data-provider.ts:30 | `line.trim().length > 0` holds exactly when the line has a non-white-space character |
| JsText.TrimmedEnds | src/application/use-cases/execute-command.ts:19 | a trimmed text neither starts nor ends with white space, and trimming is idempotent |
| Events.Added | src/infrastructure/patterns/event-emitter.ts:10 | `set.add` keeps the old members and adds `cb` once; a no-op when `cb` is present |
| Events.Removed | src/infrastructure/patterns/event-emitter.ts:19 | `set.delete` removes exactly `cb`; a no-op when absent |
| Events.Updated | src/infrastructure/patterns/event-emitter.ts:20-22 | the entry holds the new set and is deleted exactly when the set is empty |
| Events.UpdatedFrame | src/infrastructure/patterns/event-emitter.ts:20-22 | writing one event's set leaves every other entry as it was |
| Events.OnMap | src/infrastructure/patterns/event-emitter.ts:6-10 | after `on` the event's set is the old one plus `cb` |
| Events.OnFrame | src/infrastructure/patterns/event-emitter.ts:6-10 | `on` keeps the no-empty-set invariant and touches no other event |
| Events.OffMap | src/infrastructure/patterns/event-emitter.ts:16-24 | after `off` the event's set is the old one minus `cb` |
| Events.OffFrame | src/infrastructure/patterns/event-emitter.ts:16-24 | `off` keeps the invariant and touches no other event; an unknown event or callback changes nothing |
| Events.RemoveAllMap | src/infrastructure/patterns/event-emitter.ts:41-47 | a (truthy) name deletes only that entry; no name clears the map; no entry is changed |
| Events.WithoutOnce | src/infrastructure/patterns/event-emitter.ts:33-37 | what remains after the `once` wrappers unsubscribe: exactly the other callbacks |
| Events.OnIdempotent | src/infrastructure/patterns/event-emitter.ts:10 | registering the same callback twice leaves one copy |
| Events.OffUndoesOn | src/infrastructure/patterns/event-emitter.ts:6-24 | `off` undoes an `on` of a new callback exactly, the empty-set deletion included |
| Events.EmitKeepsValid | src/infrastructure/patterns/event-emitter.ts:26-37 | after an emit the event keeps its callbacks minus the `once` wrappers, and the invariant holds |
| Events.EventEmitter.constructor | src/infrastructure/patterns/event-emitter.ts:4 | an emitter starts with no listeners |
| Events.EventEmitter.On | src/infrastructure/patterns/event-emitter.ts:6-14 | the registry becomes `OnMap`; the returned function unsubscribes this event and callback |
| Events.EventEmitter.Off | src/infrastructure/patterns/event-emitter.ts:16-24 | the registry becomes `OffMap` |
| Events.EventEmitter.CallUnsubscribe | src/infrastructure/patterns/event-emitter.ts:13 | calling what `on` returned is `off(event, callback)` |
| Events.EventEmitter.Once | src/infrastructure/patterns/event-emitter.ts:33-39 | registers a fresh wrapper (never registered before) and returns its unsubscribe |
| Events.EventEmitter.Emit | src/infrastructure/patterns/event-emitter.ts:26-31 | invokes exactly the event's callbacks, in order (none when absent); the `once` wrappers have unsubscribed afterwards, so each fires at most once |
| Events.EventEmitter.VisitAll | src/infrastructure/patterns/event-emitter.ts:29 | the `forEach` visits every callback as it stood when the emit began |
| Events.EventEmitter.Visit | src/infrastructure/patterns/event-emitter.ts:34-36 | a visited `once` wrapper unsubscribes itself; any other callback stays |
| Events.EventEmitter.RemoveAllListeners | src/infrastructure/patterns/event-emitter.ts:41-47 | the registry becomes `RemoveAllMap` |
| Events.EventEmitter.ListenerCount | src/infrastructure/patterns/event-emitter.ts:49-51 | the size of the event's set, 0 exactly when the event has none |
| Logs.Pushed | src/adapters/cli/components/LogsDialog.ts:68 | the new entry first, then a prefix of the old list, at most 100 in all |
| Logs.PushedNewestFirst | src/adapters/cli/components/LogsDialog.ts:62-69 | adding an entry with the next id keeps ids strictly decreasing from the front and the length ≤ 100 |
| Logs.PushedDropsOnlyTheOldest | src/adapters/cli/components/LogsDialog.ts:68 | an entry is evicted only when the buffer was full, and only the oldest |
| Logs.DisplayMessage | src/adapters/cli/components/LogsDialog.ts:130-135 | expanded or short messages show unchanged; longer collapsed ones show their first 80 characters plus "..." |
| Logs.CollapsedRowBounded | src/adapters/cli/components/LogsDialog.ts:130-135 | a collapsed row is at most 83 characters and starts like its message |
| Logs.Rows | src/adapters/cli/components/LogsDialog.ts:105-116 | "No logs yet..." for an empty buffer, otherwise one row per entry in order |
| Logs.Toggled | src/adapters/cli/components/LogsDialog.ts:143-147 | a click flips exactly that entry's `expanded` flag |
| Logs.ToggledTwice | src/adapters/cli/components/LogsDialog.ts:143-147 | two clicks restore the entry |
| Logs.LogsDialog.constructor | src/adapters/cli/components/LogsDialog.ts:24-25 | no logs, counter 0 |
| Logs.LogsDialog.AddLog | src/adapters/cli/components/LogsDialog.ts:62-69 | the new entry has id `idCounter` (which grows by 1), is collapsed, and goes first; the buffer stays newest first and ≤ 100 |
| Logs.LogsDialog.ToggleExpanded | src/adapters/cli/components/LogsDialog.ts:143-147 | the logs become `Toggled` and the counter is unchanged |
| Logs.LogsDialog.Clear | src/adapters/cli/components/LogsDialog.ts:160-164 | the logs are emptied and the counter is 0 |
| CommandLine.SplitCommandShape | src/application/use-cases/execute-command.ts:19-21 | the name is a prefix of the trimmed command without white space; the arguments are empty iff the name is the whole trimmed command, and otherwise follow it after a white-space run |
| CommandLine.SplitJoined | src/application/use-cases/execute-command.ts:19-21 | `name + " " + arguments` splits back into that name and those arguments; a bare name gets "" |
| CommandLine.PyNoNameIffBlank | domain/use_case/command_use_case.py:27-29 | there is no first word exactly when the command is blank |
| CommandLine.PyCommandNameShape | domain/use_case/command_use_case.py:27-29 | the name is the first non-empty white-space-free word of the command |
| CommandLine.PyNameOfWord | domain/use_case/command_use_case.py:27-29 | a word followed by white space or nothing is read back as the name |
| Commands.HandleConfig | src/adapters/cli/commands/handlers.ts:78-93 | throws exactly when the configuration is missing; otherwise a non-exit reply without action |
| Commands.ToggleLoggingOutcome | src/adapters/cli/commands/handlers.ts:64-76 | throws without a logger; otherwise flips `enabled` and reports the new state |
| Commands.ChangeDirectoryOutcome | src/adapters/cli/commands/handlers.ts:19-47 | throws exactly without a manager; no argument leaves the directory alone; the directory only changes to an existing resolved path, with the success message; replies never exit |
| Commands.OnlyExitStops | src/adapters/cli/commands/handlers.ts:49-51 | only `/exit` returns `shouldExit` true |
| Commands.ThrowsIffDependencyMissing | src/adapters/cli/commands/handlers.ts:23-28 | a handler throws exactly when its dependency is missing, and then changes nothing |
| Commands.HandlerFrame | src/adapters/cli/commands/handlers.ts:19-93 | only toggle changes the logger, only `/cd` the directory, and `/cd` only to an existing directory |
| Commands.ToggleTwiceRestores | src/adapters/cli/commands/handlers.ts:73-75 | toggling twice restores the logger; the two messages name opposite states |
| Commands.ChangeDirectoryNeedsArgument | src/adapters/cli/commands/handlers.ts:30-35 | `/cd` without argument replies with the argument error and changes nothing |
| Commands.DomainExecute | src/domain/use-case/command-use-case.ts:20-65 | an unknown name gives the unknown-command reply and changes nothing; otherwise the handler's reply is returned unchanged, and a thrown error becomes a non-exit error reply |
| Commands.ExecuteStopsOnlyOnExit | src/domain/use-case/command-use-case.ts:20-65 | a command stops the CLI exactly when its name is registered to the exit handler |
| Commands.ExecuteFailureChangesNothing | src/domain/use-case/command-use-case.ts:27-38 | an unknown or failing command changes no state and does not exit |
| Commands.ExecuteChangeDirectory | src/domain/use-case/command-use-case.ts:21-23 | `/cd <dir>` leaves the state the `/cd` handler leaves for exactly the argument `<dir>` |
| Commands.Logger.constructor | src/adapters/cli/commands/handlers.ts:73 | a logger holds its `enabled` flag |
| Commands.WorkingDirectoryManager.constructor | src/adapters/cli/commands/handlers.ts:37-46 | a manager holds its directory and the existing directories |
| Commands.WorkingDirectoryManager.SetDirectory | src/adapters/cli/commands/handlers.ts:37-46 | moves exactly to an existing directory, and otherwise reports the error and stays |
| Commands.HandleToggleLogging | src/adapters/cli/commands/handlers.ts:64-76 | on the logger object, the outcome and new flag are `ToggleLoggingOutcome` |
| Commands.HandleChangeWorkingDirectory | src/adapters/cli/commands/handlers.ts:19-47 | on the manager object, the outcome and new directory are `ChangeDirectoryOutcome` |
| Commands.RunHandler | src/application/use-cases/execute-command.ts:38-46 | running a registered handler on the objects is `Handle` on their state |
| Commands.ModelSwitch.constructor | src/application/use-cases/execute-command.ts:67-79 | no model switch requested yet |
| Commands.ModelSwitch.SetModel | src/application/use-cases/execute-command.ts:73 | records one `setModel` call |
| Commands.ModelRequests | src/application/use-cases/execute-command.ts:67-79 | an action asks for one `setModel(payload)` exactly when it is `set_model`, and for nothing otherwise |
| Commands.CommandUseCase.constructor | src/application/use-cases/execute-command.ts:19-23 | the use case keeps its registry and dependencies |
| Commands.CommandUseCase.Execute | src/application/use-cases/execute-command.ts:18-65 | returns `DomainExecute`'s reply and state, and the reply's action is applied to the repository once |
| Commands.CommandUseCase.ProcessAction | src/application/use-cases/execute-command.ts:67-79 | `set_model` calls `setModel(payload)` once; no action or another type changes nothing |
| PyCommands.PyHandleConfig | domain/commands/handlers.py:49-66 | raises exactly when `llm_config` is missing; otherwise a non-exit result |
| PyCommands.PyToggleLoggingOutcome | domain/commands/handlers.py:33-46 | raises without a logger; otherwise flips `enabled` and reports the new state |
| PyCommands.PyOnlyExitStops | domain/commands/handlers.py:10-17 | only `handle_exit` ends the session |
| PyCommands.PyRaisesIffDependencyMissing | domain/commands/handlers.py:39-58 | a handler raises exactly when its dependency is `None`, and then changes nothing |
| PyCommands.PyToggleTwiceRestores | domain/commands/handlers.py:43-46 | toggling twice restores the logger |
| PyCommands.PyHandleToggleLogging | domain/commands/handlers.py:33-46 | on the logger object, the outcome and new flag are `PyToggleLoggingOutcome` |
| PyCommands.ExecuteAsWritten | domain/use_case/command_use_case.py:23-60 | a blank command raises `IndexError` before the `try` |
| PyCommands.UnknownCommandRaises | domain/use_case/command_use_case.py:40-43 | as written, every unknown name raises `TypeError` |
| PyCommands.StatusCommandRaises | domain/use_case/command_use_case.py:40-43 | as written, `/status` raises `TypeError` |
| PyCommands.Execute | domain/use_case/command_use_case.py:23-60 | only a blank command raises (`IndexError`); an unknown name gives the unknown-command reply; a handler's result is returned; its exception becomes a non-exit reply |
| PyCommands.BlankCommandRaises | domain/use_case/command_use_case.py:27-29 | both versions raise `IndexError` exactly for blank commands |
| PyCommands.AsWrittenAgreesWhenItReturns | domain/use_case/command_use_case.py:45-56 | where the as-written use case returns, it returns what the corrected one does |
| PyCommands.ArgumentsIgnored | domain/use_case/command_use_case.py:27-29 | only the first word decides the outcome |
| PyCommands.ExecuteStopsOnlyOnExit | domain/use_case/command_use_case.py:45-56 | the session ends exactly on a first word registered to `handle_exit` |
| Tools.WithWorkingDirectory | src/application/use-cases/execute-tool.ts:27-29 | the copy has the caller's keys plus `working_directory`, set to the directory; every other key is copied |
| Tools.CallerDirectoryOverridden | src/application/use-cases/execute-tool.ts:27-29 | the caller's `working_directory` has no influence on what the tool sees |
| Tools.InjectTwice | src/application/use-cases/execute-tool.ts:27-29 | a later injection wins |
| Tools.ExecuteTool | src/application/use-cases/execute-tool.ts:21-45 | an unknown tool throws "Tool '…' not found."; otherwise the tool's result or error is passed through, run on the copy |
| Tools.DomainExecuteTool | src/domain/use-case/execute-tool-use-case.ts:21-44 | the same with the directory fixed at construction |
| Tools.GenerationsAgree | src/domain/use-case/execute-tool-use-case.ts:21-44 | the two TypeScript generations agree when the directories agree |
| Tools.PyExecuteTool | domain/use_case/execute_tool_use_case.py:21-41 | a missing or falsy tool raises; otherwise the tool runs on the copy and its result or exception passes through |
| Tools.Truthful | domain/use_case/execute_tool_use_case.py:22-24 | exactly the registered, truthy tools |
| Tools.PythonAgrees | domain/use_case/execute_tool_use_case.py:21-41 | the Python port behaves like the TypeScript use case on its truthy tools |
| Config.ParseAgentConfig | src/core/entities/config.ts:16-53 | accepted iff an object whose `llm` is an object with a truthy model; each failure has its message; `api_key_env` defaults to "GEMINI_API_KEY"; the other fields pass through |
| Config.ParsedConfigNamesModelAndKey | src/core/entities/config.ts:30-35 | a parsed configuration always names a model and a key variable |
| Config.ParseToJson | src/core/entities/config.ts:16-53 | parsing a configuration's own object gives it back |
| Config.ParseIdempotent | src/core/entities/config.ts:16-53 | re-parsing a parsed configuration changes nothing |
| ProviderFactory.ResolveApiKey | src/adapters/llm/provider-factory.ts:13-23 | the provider's variable first, then `LLM_API_KEY`; empty counts as unset; neither set throws with the message naming both |
| ProviderFactory.ApiKeyPriority | src/adapters/llm/provider-factory.ts:13-23 | the key is never empty and is the value of one of the two variables; while the provider's own is set, `LLM_API_KEY` is irrelevant |
| ProviderFactory.SlashIndex | src/adapters/llm/provider-factory.ts:26 | `indexOf("/")`: the first slash, or −1 |
| ProviderFactory.ResolveProvider | src/adapters/llm/provider-factory.ts:25-40 | when the text before the first slash is "gemini" the provider is Gemini, and when it is "kimi" or "moonshot" it is Kimi; failures carry the unknown-model message |
| ProviderFactory.ProviderByNamePattern | src/adapters/llm/provider-factory.ts:25-40 | the provider is Gemini iff the name starts with "gemini", Kimi iff it starts with "kimi" or "moonshot", and anything else throws |
| ProviderFactory.CreateProviderAdapter | src/adapters/llm/provider-factory.ts:42-57 | provider and key errors propagate; otherwise the adapter of the resolved provider gets the config with `model` and `apiKey` replaced |
| ProviderFactory.AdapterUsesRequestedModel | src/adapters/llm/provider-factory.ts:47-56 | the adapter uses the requested model and a non-empty key, and keeps the caller's URL, timeout and headers |
| LlmClient.BuildRequest | src/adapters/llm/llm-client.ts:67-79 | one system message is prepended exactly when the prompt is non-empty; model, tools, temperature and token limit are copied |
| LlmClient.CallerMessagesKept | src/adapters/llm/llm-client.ts:68-70 | the caller's messages are the request's suffix, behind exactly one added message when there is a prompt |
| LlmClient.PromptBecomesGeminiInstruction | src/adapters/llm/llm-client.ts:67-79 | with a prompt, Gemini receives it as the system instruction and the caller's non-system turns as contents |
| LlmClient.PromptLeadsKimiBody | src/adapters/llm/llm-client.ts:67-79 | with a prompt, Kimi's body starts with it, followed by the caller's messages |
| LlmClient.DelegateHandsOverConversation | src/adapters/llm/llm-client.ts:40-79 | `complete` and `streamComplete` return the adapter's answer to a request with the configured model and options that ends with the caller's whole conversation, behind the prompt as a system message exactly when there is one |
| Gemini.NewGeminiAdapter | src/adapters/gemini/adapter.ts:14-18 | the configured base URL, or the public endpoint |
| Gemini.ExtractModelName | src/adapters/gemini/adapter.ts:44-49 | a leading "gemini/" is stripped; other names are unchanged |
| Gemini.ExtractModelNameOfPrefixed | src/adapters/gemini/adapter.ts:44-49 | stripping undoes adding the prefix |
| Gemini.RequestHeaders | src/adapters/gemini/adapter.ts:27-31 | API key and JSON content type, each overridden by a configured header of that name |
| Gemini.EndpointIgnoresPrefix | src/adapters/gemini/adapter.ts:21-23 | "gemini/x" and "x" reach the same endpoint |
| Gemini.MapRole | src/adapters/gemini/adapter.ts:92-94 | "assistant" becomes "model", every other role "user" (both directions) |
| Gemini.NonSystem | src/adapters/gemini/adapter.ts:53-55 | exactly the non-system messages |
| Gemini.FirstSystemIndex | src/adapters/gemini/adapter.ts:52 | the first system message, or the end |
| Gemini.Contents | src/adapters/gemini/adapter.ts:57-62 | one entry per message, in order |
| Gemini.ToolsWith | src/adapters/gemini/adapter.ts:70-80 | declarations only for a non-empty tool list, one per tool |
| Gemini.BuildRequestBodyAsWritten | src/adapters/gemini/adapter.ts:70-80 | as written, no declaration carries a name |
| Gemini.AsWrittenLosesToolNames | src/adapters/gemini/adapter.ts:73-77 | as written, no declaration carries its tool's name |
| Gemini.BuildRequestBody | src/adapters/gemini/adapter.ts:51-90 | contents are the non-system messages in order with mapped roles; a system instruction exists iff a system message does; tools only when non-empty, copied from `function`; generation config iff temperature or token limit is set |
| Gemini.SystemInstructionIsFirst | src/adapters/gemini/adapter.ts:52-68 | the system instruction is the first system message's text |
| Gemini.AsWrittenDiffersOnlyInTools | src/adapters/gemini/adapter.ts:51-90 | the as-written and corrected bodies differ only in the declarations |
| Gemini.GeminiMapper | src/adapters/gemini/mapper.ts:4-48 | a failed parse, no candidates, no parts, and a part that is neither text nor call each throw their message; otherwise the first part decides a text or call completion, with args defaulting to {} and tokens to 0 |
| Gemini.MapperInvertsResponse | src/adapters/gemini/mapper.ts:4-48 | the mapper recovers every completion from the response Gemini sends for it |
| Gemini.GeminiComplete | src/adapters/gemini/adapter.ts:20-42 | a failed fetch propagates; a failed status throws "Gemini API error: …"; a body that is not JSON propagates its `SyntaxError`; otherwise the mapper's result or error |
| Gemini.CompleteReturnsCompletion | src/adapters/gemini/adapter.ts:20-42 | an ok reply carrying a completion returns it; an LLM error only comes from the fetch itself |
| GeminiLegacy.MapMessagesToGemini | src/adapters/llm/gemini-adapter.ts:60-69 | system messages dropped, order kept, assistant → model, others → user |
| GeminiLegacy.SameContentsAsNewAdapter | src/adapters/llm/gemini-adapter.ts:60-69 | both generations send the same contents |
| GeminiLegacy.MapToolsToGemini | src/adapters/llm/gemini-adapter.ts:71-85 | `undefined` for absent or empty tools, otherwise one declaration per tool |
| GeminiLegacy.SameToolsAsCorrectedAdapter | src/adapters/llm/gemini-adapter.ts:71-85 | the older adapter declares tools as the corrected newer one does |
| GeminiLegacy.ExtractSystemPrompt | src/adapters/llm/gemini-adapter.ts:87-90 | undefined exactly when there is no system message |
| GeminiLegacy.LegacyRequestBody | src/adapters/llm/gemini-adapter.ts:98-114 | contents and tools as mapped; generation config always; a system instruction only for a non-empty prompt |
| GeminiLegacy.LegacyBodyAgainstNew | src/adapters/llm/gemini-adapter.ts:98-114 | the two generations' bodies agree except on empty generation configs and empty prompts |
| GeminiLegacy.ErrorDetail | src/adapters/llm/gemini-adapter.ts:156-160 | a `null` body throws a `TypeError` (and only it does); a body that is not JSON, or has no truthy `error.message`, gives the status text; a truthy message is used, a string as it is and any other value as the template writes it |
| GeminiLegacy.HandleErrorResponse | src/adapters/llm/gemini-adapter.ts:162-179 | 401/403 authentication, 429 rate limit, 408/504 timeout (each iff, each with its fixed message), otherwise unavailable with the detail |
| GeminiLegacy.MapGeminiResponse | src/adapters/llm/gemini-adapter.ts:182-222 | no candidates throws; a first-part call gives `function_call`; otherwise text defaulting to ""; tokens default to 0 |
| GeminiLegacy.MapGeminiResponseInverts | src/adapters/llm/gemini-adapter.ts:182-222 | the mapping recovers every completion from the response for it |
| GeminiLegacy.WrapError | src/adapters/llm/gemini-adapter.ts:139-153 | LLM errors are rethrown unchanged, anything else becomes unavailable |
| GeminiLegacy.WrapErrorIdempotent | src/adapters/llm/gemini-adapter.ts:139-153 | wrapping twice is wrapping once |
| GeminiLegacy.LegacyComplete | src/adapters/llm/gemini-adapter.ts:92-180 | fetch errors are wrapped; a failed status is mapped with the body's detail, or becomes an unexpected error when the body is `null`; a body that is not JSON and schema failures become unavailable; success is the mapped response |
| GeminiLegacy.NullErrorBodyHidesStatus | src/adapters/llm/gemini-adapter.ts:139-160 | a failed reply with a `null` body is an unexpected error whatever its status, never an authentication failure |
| GeminiLegacy.ErrorClassFromStatus | src/adapters/llm/gemini-adapter.ts:156-180 | with any other body, the status alone decides the class of the error |
| Kimi.NewKimiAdapter | src/adapters/kimi/adapter.ts:24-29 | `baseURL` defaults to the Moonshot URL and `timeout` to 30000 |
| Kimi.BuildHeaders | src/adapters/kimi/adapter.ts:165-171 | bearer token and JSON content type, overridden by configured headers |
| Kimi.BuildRequestBody | src/adapters/kimi/adapter.ts:173-206 | model and messages copied, `stream` as asked, temperature and token limit only when defined, tools only when non-empty |
| Kimi.BodyKeepsRequest | src/adapters/kimi/adapter.ts:173-206 | the body loses nothing but an empty tool list, and both stream modes carry the same request |
| Kimi.HandleErrorResponse | src/adapters/kimi/adapter.ts:208-224 | 401 authentication, 429 rate limit, 408/504 timeout (each iff), otherwise unavailable; each message carries the body |
| Kimi.StatusTablesDifferOnlyAt403 | src/adapters/kimi/adapter.ts:211-223 | Kimi's and the older Gemini adapter's tables agree on every status but 403 |
| Kimi.HandleError | src/adapters/kimi/adapter.ts:226-245 | `AbortError` becomes a timeout, LLM errors pass through, anything else becomes unavailable |
| Kimi.HandleErrorIdempotent | src/adapters/kimi/adapter.ts:226-245 | a second pass changes nothing |
| Kimi.KimiMapper | src/adapters/kimi/mapper.ts:4-29 | failed parse and empty choices throw; otherwise always text from the first choice, tokens default to 0, a non-null finish reason is carried over and a null one is dropped |
| Kimi.MapperInvertsResponse | src/adapters/kimi/mapper.ts:4-29 | the mapper recovers every text completion from the response for it |
| Kimi.KimiComplete | src/adapters/kimi/adapter.ts:31-57 | fetch errors go through `handleError`, failed statuses through `handleErrorResponse`, a body that is not JSON and mapper errors become unavailable |
| KimiStream.SplitLines | src/adapters/kimi/adapter.ts:101 | `split("\n")` gives at least one piece |
| KimiStream.SplitLinesInverse | src/adapters/kimi/adapter.ts:101 | joining the pieces gives the text back, and no piece holds a line feed |
| KimiStream.SplitConcat | src/adapters/kimi/adapter.ts:100-102 | splitting two texts one after the other glues the last piece of the first to the first of the second |
| KimiStream.SplitAppend | src/adapters/kimi/adapter.ts:100-102 | the complete lines of buffer + chunk are the old ones followed by those of tail + chunk, so keeping only the tail loses nothing |
| KimiStream.TextIsLinesThenTail | src/adapters/kimi/adapter.ts:100-102 | the text is its complete lines, each followed by a line feed, then the tail, which has none |
| KimiStream.AddFragment | src/adapters/kimi/adapter.ts:126-137 | the fragment's index gains an entry (added last in the order when new) and no other entry changes |
| KimiStream.AddFragments | src/adapters/kimi/adapter.ts:126-138 | the buffer keeps its shape: every key once in the order |
| KimiStream.AddFragmentsCollects | src/adapters/kimi/adapter.ts:126-138 | an index has an entry iff a fragment had it, holding the last non-empty name and all its arguments in order |
| KimiStream.AddFragmentsKeys | src/adapters/kimi/adapter.ts:126-138 | entries exist exactly for the indices that occurred |
| KimiStream.Step | src/adapters/kimi/adapter.ts:104-139 | a skipped line changes nothing; a handled line yields at most one text chunk and keeps the buffer's shape |
| KimiStream.ProcessLines | src/adapters/kimi/adapter.ts:104-143 | handling lines only appends to what was yielded |
| KimiStream.ProcessLinesAppend | src/adapters/kimi/adapter.ts:104-143 | handling two runs of lines is handling their concatenation |
| KimiStream.AddFragmentsAppend | src/adapters/kimi/adapter.ts:125-139 | buffering two runs of fragments is buffering their concatenation |
| KimiStream.ProcessLinesCollects | src/adapters/kimi/adapter.ts:104-143 | from the start, the lines yield their text chunks in order and buffer all their fragments, taken across lines in order |
| KimiStream.EmitFrom | src/adapters/kimi/adapter.ts:146-159 | at most one chunk per buffered call, each a function call with a non-empty name |
| KimiStream.NamedFromMembers | src/adapters/kimi/adapter.ts:146-147 | the calls considered are exactly the buffered entries with a non-empty name |
| KimiStream.FirstFailure | src/adapters/kimi/adapter.ts:151 | every call before the position parses, and the one at it does not |
| KimiStream.EmitFromCalls | src/adapters/kimi/adapter.ts:146-159 | one function call per named entry in order, with its parsed arguments (`{}` for none), up to the first whose arguments do not parse; that one throws an unexpected error with the parser's message, and nothing is thrown exactly when all parse |
| KimiStream.StreamSpecCalls | src/adapters/kimi/adapter.ts:96-159 | the stream is every text chunk, then the named calls up to the first parse failure, each index holding the last name and all arguments sent for it |
| KimiStream.AddToolCalls | src/adapters/kimi/adapter.ts:126-138 | the loop computes `AddFragments` |
| KimiStream.HandleLine | src/adapters/kimi/adapter.ts:104-142 | one line of the loop computes `Step` |
| KimiStream.ReadChunk | src/adapters/kimi/adapter.ts:96-144 | one read handles the complete lines of buffer + chunk and keeps the tail |
| KimiStream.ReadStep | src/adapters/kimi/adapter.ts:96-144 | reading one more chunk is handling the complete lines of the old tail plus the chunk |
| KimiStream.ReadAll | src/adapters/kimi/adapter.ts:96-144 | the loop has handled every complete line of the whole text, in order, and the buffer holds the tail |
| KimiStream.EmitCalls | src/adapters/kimi/adapter.ts:146-157 | the final loop computes `EmitFrom` |
| KimiStream.StreamComplete | src/adapters/kimi/adapter.ts:87-160 | the body yields exactly `StreamSpec` |
| KimiStream.StreamOutcome | src/adapters/kimi/adapter.ts:59-163 | fetch errors, failed statuses and a null body end the stream with their error before anything is yielded; otherwise the body is read as `StreamSpec` says |
| KimiStream.StreamFailsLikeComplete | src/adapters/kimi/adapter.ts:79-81 | before any read, the stream fails with the same error `complete` throws |
| KimiStream.SilentDecoderChangesNothing | src/adapters/kimi/adapter.ts:114 | a decoder that accepts nothing leaves every line without effect |
| KimiStream.AsWrittenYieldsNothing | src/adapters/kimi/adapter.ts:110 | as written, the stream yields nothing, whatever the server sends |
| KimiStream.ParsedDecoderYieldsText | src/adapters/kimi/adapter.ts:105-123 | with the payload parsed first, a `data:` line carrying text yields that text |
| LlmRepository.AssistantEntry | src/adapters/llm/llm-repository.ts:28-38 | a text response is remembered with its content; a call as "Function call: <name> with arguments <json>" |
| LlmRepository.ExchangeAppends | src/adapters/llm/llm-repository.ts:17-39 | memory grows by 2 per answered call and by 1 when the client throws, the earlier entries unchanged |
| LlmRepository.ReplayAlternates | src/data/repository/llm-repository.ts:20-53 | after answered calls the memory alternates each input and its answer behind the old memory |
| LlmRepository.Repository.constructor | src/adapters/llm/llm-repository.ts:9 | the memory starts empty |
| LlmRepository.Repository.Complete | src/adapters/llm/llm-repository.ts:16-48 | the user's turn is appended before the client is called, the client sees it, and the answer is appended after it returns |

## Left out

- Floating point: numbers are exact reals. IEEE rounding, overflow, `NaN`
  and infinities are not modelled, except `1000 / 0` in the frame rate.
- `lgamma`, `betaIncomplete` and `tDistCDF`: the t-distribution CDF is a
  parameter of the functions that use it. No p-value or quantile is computed,
  and `Math.sqrt` is a parameter required only to be non-negative and to be 0
  exactly at 0.
- BenchmarkCompare.CohensD: requires more than two values across both samples,
  and BenchmarkCompare.WelchTTest requires at least two per sample. The report
  only calls them that way. With fewer values the source divides by zero,
  which `real` division cannot express.
- BenchmarkCompare.ConfidenceInterval95 and BenchmarkCompare.AggregateResults:
  require the square root to behave as above, because Dafny has no `Math.sqrt`.
- Clocks, `process.hrtime`, `setInterval`, `drain` waits and
  `process.memoryUsage`: durations, flush results and memory readings are
  inputs. A second `MemoryProfiler.start` overwrites the interval id in the
  source (leaking a timer); the model keeps only whether a timer is active.
- Instrumentation.FrameMeter.EndFrame: its `Valid()` is only promised after
  a matching `BeginFrame`. A `reset` between the two halves of `recordFrame`
  is not modelled further.
- The stdout monkey patch: the installed `write` is a `Writer` value on a
  stream object, and the wrapped writer's own behaviour is its boolean result.
- Subprocess orchestration (`spawn`, the 60 s timeout, `Math.random` order,
  stderr), `getSystemInfo`, `formatMetrics` and the `print*` report
  functions: process outcomes are inputs, and reporting is text formatting.
- benchmark-ink.tsx, benchmark-opentui.ts and the UI components: LogsDialog
  is modelled only for its `logs`/`idCounter` state and row text.
- `fetch`, `AbortController`, `TextDecoder` and the stream reader:
  - a fetch is an outcome value;
  - the body's chunks arrive already decoded;
  - the unfinished last line in the stream buffer is never processed, as in the source.
- zod schemas: validation is a parse parameter, and `JSON.parse` is another.
- Number formatting in messages (`${status}`, `${timeout}`, template literals
  of configuration values): a `show` parameter.
- LlmRepository.Repository.Complete: the client receives the memory as a value.
  The source passes the live array, which the client could alias or mutate.
- Loggers, `LoggingEventBus`, error classes, DTO mappers, registries' other
  contents (`handleModel`) and the adapter registry are not part of this model.
  Only throws of `Error` objects are modelled; a non-`Error` throw is not.
- src/data/client/llm-client.ts and data/client/lite_llm_client.py (SDK
  clients) are not part of this model. The legacy Gemini adapter's `?key=`
  query URL is not modelled.
- The working-directory manager's `path.resolve` and filesystem checks: a
  resolver parameter and a fixed set of existing directories.
- src/domain/commands/handlers.ts is textually the same as
  src/adapters/cli/commands/handlers.ts in everything modelled, so one model
  covers both.
- Events.EventEmitter.Emit: callbacks' own `on`/`off` calls, for any event
  including the one being emitted, are not modelled; only the `once` wrapper's
  own `off` is. `Set.forEach` walks the live set (event-emitter.ts:29), so in
  the source a callback that removes a sibling not yet reached skips it, and
  one that adds a callback to the same event has it visited too; the model
  always invokes exactly the set as it stood when the emit began.
- Commands.DomainExecute: a registry is a map of its own keys. The source looks
  commands up on a plain object, so a name inherited from `Object.prototype`
  (`toString`, `constructor`) finds a function there; that lookup is not modelled.
- Commands.CommandUseCase.Execute: the same inherited-name lookup is not modelled.
- Tools.ExecuteTool: the same inherited-name lookup is not modelled.
- Tools.DomainExecuteTool: the same inherited-name lookup is not modelled.
- Logs.DisplayMessage: lengths and the 80-character cut count characters
  (code points), where JavaScript counts UTF-16 code units. A message of 41
  emoji is 82 units long and is cut in the source but not in the model. A cut
  through a surrogate pair cannot be expressed, because a Dafny `char` is a
  whole code point.
- Instrumentation.StdoutMeter.constructor: captures `write.bind(process.stdout)`,
  a new function, as the code does. The design's promise that `stop()` puts
  back the original writer by identity is therefore not made.
- Instrumentation.StdoutMeter.Stop: installs that bound copy, so after a start
  the stream never holds the original writer again; the model states this
  rather than identity restoration. A copy calls the writer it was bound from,
  which the model does not go into further.
- GeminiLegacy.ErrorDetail: the `TypeError` for a `null` error body carries V8's
  wording as a fixed string, and a non-string message is written by a `show`
  parameter.
- Registries: the command and tool registries are plain maps given to the use cases. Only the Python command registry (domain/commands/registry.py: `/exit`, `/config`, `/help`, `/toggle_logging`) is written out, for the `/status` finding.

## Findings

| source | as written | input that shows it | evidently intended | confidence | as-written member | corrected member |
|---|---|---|---|---|---|---|
| domain/use_case/command_use_case.py:40-43 | the unknown-command and error paths build their reply by calling `CommandHandler(...)`, a `Callable` type alias, which raises `TypeError` | the command `/status`, which the registry does not contain | return a `CommandResult` with the unknown-command message and `should_exit=False` | not executed | PyCommands.UnknownCommandRaises | PyCommands.Execute |
| src/adapters/gemini/adapter.ts:73-77 | the declarations read `t.name`, `t.description` and `t.parameters`, but a tool nests them under `function`, so all three are `undefined` | any request with one tool, such as `{type: "function", function: {name: "read_file", …}}` | copy the name, description and parameters from `t.function`, as the older adapter does | not executed | Gemini.AsWrittenLosesToolNames | Gemini.BuildRequestBody |
| src/adapters/kimi/adapter.ts:110 | `safeParse` is applied to the payload string itself, and the object schema rejects every string | the line `data: {"choices":[{"delta":{"content":"hi"}}]}` | parse the JSON first, then validate, so that line yields the text "hi" | not executed | KimiStream.AsWrittenYieldsNothing | KimiStream.ParsedDecoderYieldsText |
