# xArray location samples: fusion engine and WAM/Location scheduler

This project models, in Dafny, the two pieces of sequential logic in the
`octane-logging` xArray samples.

**Confidence-weighted fusion (`XArrayLocationMulti`, files `multi.dfy` and
`multi_properties.dfy`).** Several xArray readers report tag locations. The
engine keeps two tables:

- `cycleLengths`: per reader address, the last end-of-cycle duration carried by
  a diagnostic report with metric code 100;
- `tagReadInfos`: per tag EPC, the running sums of `confidence * x`,
  `confidence * y` and `confidence`.

A location report from a reader without a non-zero cycle length is dropped.
Otherwise the report's confidence is its read count divided by the number of
scan cycles in the 30 s compute window, which is `floor(30e6 / cycleLength)`,
clamped to 1. The weighted terms are added to the tag's sums. When the report
comes from the trigger reader, the last configured xArray, the engine emits the
floored weighted mean, or `Invalid` when the confidence sum is 0. It then resets
the tag's sums to zero.

`Engine` is a class whose two listener methods update the two maps in place.
Each method is proved equal to a pure step function (`RecordCycle`,
`LocationStep`). The properties are lemmas about those functions, including:

- reports without trigger reports can be processed in any order;
- the emitted estimate is the mean of a tag's whole fusion cycle, when no
  end-of-cycle diagnostic changes a cycle length during it; the trigger
  reader may report other tags meanwhile;
- a trigger report restarts accumulation from zero;
- confidences stay non-negative.

**Alternating-role scheduler (`XArrayLocationWam`, files `wam.dfy` and
`wam_properties.dfy`).** One xArray runs a fixed number of rounds. Each round
runs a WAM (wide-area monitoring, i.e. inventory) phase and then a Location
phase. Each phase does the following: set up, start, wait, stop, report the
number of distinct EPCs collected, clear the collection. Between rounds, when
the WAM session is 2 or 3, the run waits for the tags' session state to decay.
At the end the run restores the reader's default settings and disconnects.

The reader is not modelled. `Scheduler` records each reader call and each
sleep as an `Action` in `trace`. Calls whose failure the program catches and
prints (`applySettings`, `start`, `stop`) have a nondeterministic outcome. A
failure is logged in `errors` and the run goes on; a failed connect or a
failed restore of the defaults is logged there too and ends the run. The constructor runs the
whole program and is proved to produce exactly `RunTrace`. The lemmas then
prove about `RunTrace`:

- the roles alternate for exactly the configured number of rounds;
- the decay-wait rule holds;
- the total sleep time is as expected;
- defaults are applied before the disconnect;
- each reported count is the number of distinct EPCs, the last report of a tag winning.

Java `double` values are modelled by exact `real` arithmetic and `Math.floor`
by `.Floor`. Java `int` values are unbounded here; no value the program
computes comes near 2^31. The configuration the scheduler ships with is the
constant `Shipped`. The scheduler takes its `Config` as a parameter, so the
properties hold for any settings and `ShippedRoles` / `ShippedSleep`
instantiate them.

## Model

| member | source | states |
|---|---|---|
| XArrayLocationMulti.Plus | src/main/java/com/example/sdksamples/XArrayLocationMulti.java:165-167 | definition: the componentwise sum of two accumulators, as the three setters add the weighted terms and the confidence |
| XArrayLocationMulti.Lookup | src/main/java/com/example/sdksamples/XArrayLocationMulti.java:153-154 | definition: a tag's accumulator, or the all-zero one a new `TagReadInfo` starts as when the EPC has no entry yet |
| XArrayLocationMulti.Ready | src/main/java/com/example/sdksamples/XArrayLocationMulti.java:149 | definition: the guard under which a location report is accepted (the reader has a cycle entry and it is not 0) |
| XArrayLocationMulti.Multiplier | src/main/java/com/example/sdksamples/XArrayLocationMulti.java:156-157 | the multiplier is never 0 (the clamp), is at least 1 for a positive cycle length, and is negative for a negative one |
| XArrayLocationMulti.Confidence | src/main/java/com/example/sdksamples/XArrayLocationMulti.java:158 | confidence times multiplier is the read count; it is non-negative for a non-negative count and a positive multiplier |
| XArrayLocationMulti.Contribution | src/main/java/com/example/sdksamples/XArrayLocationMulti.java:156-162 | an accepted report adds confidence `c` with `c * mult == readCount`, and weighted terms exactly `c * x` and `c * y` |
| XArrayLocationMulti.FusedEstimate | src/main/java/com/example/sdksamples/XArrayLocationMulti.java:174-179 | Invalid if and only if the confidence sum is 0; otherwise each coordinate is the greatest integer not above the weighted mean |
| XArrayLocationMulti.RecordCycle | src/main/java/com/example/sdksamples/XArrayLocationMulti.java:133-140 | the table changes if and only if the first metric is 100 and a second metric exists; the address then maps to the second metric (last write wins); other addresses never change; an empty or truncated end-of-cycle report is Malformed and changes nothing |
| XArrayLocationMulti.LocationStep | src/main/java/com/example/sdksamples/XArrayLocationMulti.java:145-183 | a report from a reader without a non-zero cycle length changes nothing; otherwise only the report's EPC entry changes (created when absent); a non-trigger report adds its contribution; a trigger report emits the estimate of the sums including its own contribution and leaves the entry at zero |
| XArrayLocationMulti.Engine.OnDiagnosticsReported | src/main/java/com/example/sdksamples/XArrayLocationMulti.java:132-142 | the new cycle table and the outcome are those of `RecordCycle` on the old table; the accumulator table is unchanged |
| XArrayLocationMulti.Engine.OnLocationReported | src/main/java/com/example/sdksamples/XArrayLocationMulti.java:144-184 | the new accumulator table and the outcome are those of `LocationStep` on the old tables, with the trigger being the last configured hostname; the cycle table is unchanged |
| XArrayLocationMulti.Engine.constructor | src/main/java/com/example/sdksamples/XArrayLocationMulti.java:19-23 | both tables start empty; the trigger is the hostname of the last configured xArray |
| XArrayLocationMulti.Replay | src/main/java/com/example/sdksamples/XArrayLocationMulti.java:144-184 | the accumulator table after the listener has handled a sequence of reports in order; no entry is ever removed |
| XArrayLocationMulti.Sum | src/main/java/com/example/sdksamples/XArrayLocationMulti.java:156-167 | definition: the independent reference total, the sum of the contributions of the accepted reports about one tag, against which `Replay` is proved |
| MultiProperties.FloorOfQuotient | src/main/java/com/example/sdksamples/XArrayLocationMulti.java:156 | for a positive divisor, the floor of the real quotient is the integer quotient |
| MultiProperties.MultiplierOfPositive | src/main/java/com/example/sdksamples/XArrayLocationMulti.java:156-157 | for a positive cycle length the multiplier is `30000000 / cycleLen`, or 1 when that is 0 |
| MultiProperties.ClampedConfidenceIsReadCount | src/main/java/com/example/sdksamples/XArrayLocationMulti.java:156-158 | a cycle longer than the window clamps the multiplier to 1, so the confidence is the read count |
| MultiProperties.ConfidenceExample | src/main/java/com/example/sdksamples/XArrayLocationMulti.java:156-158 | a 2,000,000 us cycle gives multiplier 15, and 30 reads then give confidence 2 |
| MultiProperties.UnreadyReportsChangeNothing | src/main/java/com/example/sdksamples/XArrayLocationMulti.java:149-150 | any sequence of reports from readers without a usable cycle length leaves the accumulator table as it was, creating no entry |
| MultiProperties.StepsCommute | src/main/java/com/example/sdksamples/XArrayLocationMulti.java:165-168 | two non-trigger reports give the same table in either order |
| MultiProperties.ReplayMoveToFront | src/main/java/com/example/sdksamples/XArrayLocationMulti.java:165-168 | a non-trigger report can be moved ahead of a run of non-trigger reports without changing the resulting table |
| MultiProperties.ReplayOrderIndependent | src/main/java/com/example/sdksamples/XArrayLocationMulti.java:165-168 | any permutation of a sequence of non-trigger reports yields the same accumulator table |
| MultiProperties.ReplayAccumulatesSum | src/main/java/com/example/sdksamples/XArrayLocationMulti.java:161-168 | after reports among which the trigger reader sends none about a tag (it may report other tags), that tag's accumulator is its old value plus the sum of the contributions of its accepted reports |
| MultiProperties.StepAccumulates | src/main/java/com/example/sdksamples/XArrayLocationMulti.java:161-168 | one report that is not a trigger report about a tag adds to that tag's accumulator exactly what it adds to the tag's reference sum |
| MultiProperties.SumAppend | src/main/java/com/example/sdksamples/XArrayLocationMulti.java:161-168 | one more report adds its contribution to the sum exactly when it is accepted and about that tag |
| MultiProperties.FusionCycleEstimate | src/main/java/com/example/sdksamples/XArrayLocationMulti.java:165-181 | a tag's cycle that starts from zero, takes reports with no trigger report about that tag (trigger reports about other tags allowed) and ends with a trigger report about it emits the estimate of the sum of all its accepted contributions, the trigger's included, and resets the entry |
| MultiProperties.CycleEstimateBounds | src/main/java/com/example/sdksamples/XArrayLocationMulti.java:172-179 | the estimate a tag's fusion cycle (no trigger report about the tag before its last report) emits is Invalid exactly when the cycle's summed confidence is 0, never a numeric position then; otherwise each coordinate is the greatest integer not above the cycle's summed weighted coordinate over its summed confidence |
| MultiProperties.ResetRestartsAccumulation | src/main/java/com/example/sdksamples/XArrayLocationMulti.java:181 | after a trigger report the entry still exists and is zero, so the next accepted report for that tag accumulates (or emits) its own contribution alone |
| MultiProperties.StepKeepsConfidenceNonNegative | src/main/java/com/example/sdksamples/XArrayLocationMulti.java:156-167 | with positive cycle lengths and a non-negative read count, one report keeps every confidence sum non-negative |
| MultiProperties.ReplayKeepsConfidenceNonNegative | src/main/java/com/example/sdksamples/XArrayLocationMulti.java:156-167 | the same over any sequence of reports |
| MultiProperties.RecordCycleKeepsPositive | src/main/java/com/example/sdksamples/XArrayLocationMulti.java:136-140 | any diagnostic keeps all cycle lengths positive, provided an end-of-cycle report carries a positive length; other metric codes are ignored whatever they carry |
| XArrayLocationWam.WamCount | src/main/java/com/example/sdksamples/XArrayLocationWam.java:58 | definition: the count the WAM phase prints, the size of the map its listener fills from the round's tag reports |
| XArrayLocationWam.LocationCount | src/main/java/com/example/sdksamples/XArrayLocationWam.java:69 | definition: the count the Location phase prints, the size of the map its listener fills from the round's location reports |
| XArrayLocationWam.Collect | src/main/java/com/example/sdksamples/XArrayLocationWam.java:206-217 | definition: `HashMap.put` of each item under its EPC, in order, so a later item replaces an earlier one with the same EPC |
| XArrayLocationWam.Phase | src/main/java/com/example/sdksamples/XArrayLocationWam.java:55-63 | definition: the actions of one phase: set up, start, wait its duration, stop, report the count, clear |
| XArrayLocationWam.DecayAfter | src/main/java/com/example/sdksamples/XArrayLocationWam.java:76 | definition: the decay-wait guard, more rounds to come and WAM session 2 or 3 |
| XArrayLocationWam.RoundTrace | src/main/java/com/example/sdksamples/XArrayLocationWam.java:53-79 | definition: one round is the WAM phase, then the Location phase, then the decay wait when `DecayAfter` holds |
| XArrayLocationWam.RoundsTrace | src/main/java/com/example/sdksamples/XArrayLocationWam.java:52-80 | definition: the rounds `0 .. n - 1` in order |
| XArrayLocationWam.RunTrace | src/main/java/com/example/sdksamples/XArrayLocationWam.java:42-91 | the trace is empty exactly when the hostname is missing, and otherwise starts with the connect; a completed run is connect, all rounds, apply defaults, disconnect, and a failed `applyDefaultSettings` skips the disconnect |
| XArrayLocationWam.Scheduler.constructor | src/main/java/com/example/sdksamples/XArrayLocationWam.java:42-91 | without a hostname nothing happens; otherwise the trace is exactly `RunTrace` for the status reached (connect failed, defaults failed, completed) and both collections end empty; `errors` is exactly the failed connect when connecting fails, ends with the failed restore of the defaults (after only caught failures) when that fails, and holds only caught set-up/start/stop failures, at most six per round, when the run completes |
| XArrayLocationWam.Scheduler.RunRounds | src/main/java/com/example/sdksamples/XArrayLocationWam.java:52-80 | the loop appends exactly the actions of `iterations` rounds and leaves both collections empty; `errors` only grows, by caught set-up/start/stop failures, at most six per round |
| XArrayLocationWam.Scheduler.RunRound | src/main/java/com/example/sdksamples/XArrayLocationWam.java:53-79 | a round appends the WAM phase, then the Location phase, then the decay wait exactly when more rounds follow and the WAM session is 2 or 3; `errors` only grows, by at most six caught set-up/start/stop failures |
| XArrayLocationWam.Scheduler.NonFatal | src/main/java/com/example/sdksamples/XArrayLocationWam.java:174-188 | a guarded reader call is recorded whether or not it fails; a failure is only logged; nothing else changes |
| XArrayLocationWam.Scheduler.OnTagReported | src/main/java/com/example/sdksamples/XArrayLocationWam.java:212-221 | the WAM collection becomes the old one with every tag put under its EPC in order |
| XArrayLocationWam.Scheduler.OnLocationReported | src/main/java/com/example/sdksamples/XArrayLocationWam.java:203-209 | the Location collection maps the report's EPC to the report; all other state is unchanged |
| XArrayLocationWam.Scheduler.RunWamRole | src/main/java/com/example/sdksamples/XArrayLocationWam.java:54-63 | the WAM phase records set up, start, wait for the WAM duration, stop, report the number of distinct EPCs collected, clear; the collection ends empty and the Location collection is untouched; `errors` only grows, by at most the WAM set-up, the start and the stop |
| XArrayLocationWam.Scheduler.DeliverTagReports | src/main/java/com/example/sdksamples/XArrayLocationWam.java:212-221 | handing each delivered tag report to the listener collects all their tags, in order, by EPC; the trace and `errors` are unchanged |
| XArrayLocationWam.Scheduler.RunLocationRole | src/main/java/com/example/sdksamples/XArrayLocationWam.java:65-73 | the Location phase records set up, start, wait for the Location duration, stop, report the number of distinct EPCs collected, clear; the collection ends empty and the WAM collection is untouched; `errors` only grows, by at most the Location set-up, the start and the stop |
| XArrayLocationWam.Scheduler.DeliverLocationReports | src/main/java/com/example/sdksamples/XArrayLocationWam.java:203-209 | handing each delivered location report to the listener collects them, in order, by EPC; the trace and `errors` are unchanged |
| XArrayLocationWam.CollectAppend | src/main/java/com/example/sdksamples/XArrayLocationWam.java:215-217 | collecting two batches one after the other is collecting their concatenation |
| WamProperties.SetupModesAppend | src/main/java/com/example/sdksamples/XArrayLocationWam.java:52-74 | the roles set up by concatenated traces are those of the parts, in order |
| WamProperties.DecayWaitsAppend | src/main/java/com/example/sdksamples/XArrayLocationWam.java:76-79 | decay waits of concatenated traces add up |
| WamProperties.SleepMsAppend | src/main/java/com/example/sdksamples/XArrayLocationWam.java:56-78 | sleep times of concatenated traces add up |
| WamProperties.PhaseProjections | src/main/java/com/example/sdksamples/XArrayLocationWam.java:55-57 | a phase sets up its own role once, has no decay wait and sleeps exactly its duration |
| WamProperties.RoundProjections | src/main/java/com/example/sdksamples/XArrayLocationWam.java:53-79 | a round sets up WAM then Location, has one decay wait exactly when the decay rule applies, and sleeps both durations plus the persistence when it does |
| WamProperties.RoundsAlternate | src/main/java/com/example/sdksamples/XArrayLocationWam.java:52-74 | `n` rounds set up WAM, Location, WAM, Location, ... exactly `n` times each, WAM first in every round |
| WamProperties.DecayWaitIff | src/main/java/com/example/sdksamples/XArrayLocationWam.java:76-79 | round `i` holds a decay wait if and only if `i < iterations - 1` and the WAM session is 2 or 3 |
| WamProperties.DecayWaitsOfRounds | src/main/java/com/example/sdksamples/XArrayLocationWam.java:52-79 | the first `n` rounds hold one decay wait per round that is not the last, for sessions 2 and 3, and none otherwise |
| WamProperties.DecayWaitCount | src/main/java/com/example/sdksamples/XArrayLocationWam.java:52-79 | a run holds `iterations - 1` decay waits for sessions 2 and 3, and none otherwise |
| WamProperties.LastRoundEndsWithClear | src/main/java/com/example/sdksamples/XArrayLocationWam.java:73-79 | no decay wait follows the last round: the rounds end with clearing the Location collection |
| WamProperties.SleepOfRounds | src/main/java/com/example/sdksamples/XArrayLocationWam.java:56-78 | `n` rounds sleep `n` times both phase durations plus the persistence once per decay wait |
| WamProperties.SleepOfLastRound | src/main/java/com/example/sdksamples/XArrayLocationWam.java:56-78 | one more round adds both phase durations and the persistence of its decay waits |
| WamProperties.SleepOfSchedule | src/main/java/com/example/sdksamples/XArrayLocationWam.java:28-79 | a whole schedule sleeps `iterations * (WAM + Location durations)` plus `(iterations - 1) * persistence` for sessions 2 and 3 |
| WamProperties.AbortedRunHasNoPhase | src/main/java/com/example/sdksamples/XArrayLocationWam.java:44-51 | a missing hostname or a failed connect sets up no phase and never disconnects; a failed connect records only the connect attempt |
| WamProperties.ConnectedRunShape | src/main/java/com/example/sdksamples/XArrayLocationWam.java:50-84 | a connected run starts with the connect, alternates the roles for exactly `iterations` rounds, and ends with applying defaults then disconnecting; if applying defaults fails, no disconnect happens |
| WamProperties.DisconnectNotInRounds | src/main/java/com/example/sdksamples/XArrayLocationWam.java:52-80 | the rounds never disconnect |
| WamProperties.ShippedRoles | src/main/java/com/example/sdksamples/XArrayLocationWam.java:11-30 | with the shipped settings the phases last 30000 ms and 11000 ms and the roles run WAM, Location, WAM, Location |
| WamProperties.ShippedSleep | src/main/java/com/example/sdksamples/XArrayLocationWam.java:11-31 | with the shipped settings there is exactly one decay wait and the rounds sleep 202000 ms |
| WamProperties.CollectKeys | src/main/java/com/example/sdksamples/XArrayLocationWam.java:206-217 | the collected EPCs are the old ones plus the EPC of every item, and nothing else |
| WamProperties.CollectLastWins | src/main/java/com/example/sdksamples/XArrayLocationWam.java:206-217 | an item that no later item shares its EPC with is the one kept (last write wins) |
| WamProperties.CollectKeepsOthers | src/main/java/com/example/sdksamples/XArrayLocationWam.java:206-217 | an EPC no item carries keeps its old entry |
| WamProperties.WamCountIsDistinctEpcs | src/main/java/com/example/sdksamples/XArrayLocationWam.java:58 | the reported WAM count is the number of distinct EPCs among the tags delivered in that phase |
| WamProperties.LocationCountIsDistinctEpcs | src/main/java/com/example/sdksamples/XArrayLocationWam.java:69 | the reported Location count is the number of distinct EPCs among the reports delivered in that phase |

## Left out

- Octane SDK calls (`connect`, `applySettings`, `start`, `stop`, `applyDefaultSettings`, `disconnect`) are not modelled. They are foreign library calls whose behaviour is not visible. Each becomes an `Action`. Its success is a nondeterministic choice for `connect`, `applyDefaultSettings` and the caught calls; `disconnect` always succeeds.
- `queryDefaultSettings` (XArrayLocationWam.java lines 99 and 134) and the listener registrations are not represented and are assumed not to fail. They sit outside any inner `try`, so an unchecked failure there would reach the outer handler, end the run in the middle of a phase and skip both `applyDefaultSettings` and `disconnect`. The model's `Setup(mode)` action stands only for the caught `applySettings` and so is always non-fatal.
- The contents of the settings (`GetPrepareSettings`, the settings bodies of `setupWamMode` / `setupLocationMode`) and the inert `setupFilter` are abstracted. A phase's set-up is one `Setup(mode)` action that may fail.
- The `READER_MODE`, `TAG_POPULATION_ESTIMATE`, `WAM_SEARCH_MODE`, `TAG_AGE_*` and `UPDATE_INTERVAL*` constants are left out. They only feed the reader's settings.
- Console and process I/O are left out: `System.out` printing, the `Scanner` wait for Enter, both `main` methods, and the printed tag lists. Printed fused positions and counts are returned as `Outcome` values or recorded as `Report` actions.
- `LaunchXArray` and `CloseXArray` of the fusion sample are left out, as are its start-up and shutdown loops. They only call the SDK. The engine starts with empty tables and processes one report per call.
- Real time: `Thread.sleep` is a recorded `Wait` or `DecayWait` action. An `InterruptedException` aborting the run is not modelled.
- Concurrency: the listeners run on the SDK's threads, and in the fusion sample on one thread per reader. Each handler call is modelled as one atomic step; races on the shared `HashMap`s are not modelled.
- Reports delivered while the scheduler sleeps are an input (`rounds`: per round, the tag reports of the WAM phase and the location reports of the Location phase). They are handed to the listener after the `Wait` action. When fewer rounds are supplied, the remaining rounds receive no reports.
- Floating point: `double` rounding is not modelled; confidence, weighted sums and means are exact `real`s.
- `TagReadInfo` is a mutable object that only the accumulator table refers to; it is modelled as a value in the map, so aliasing is not represented.
- The `XArray` getters and setters are not modelled (configuration only). `Orientation` is never assigned by the `XArray` constructor, so it is not part of the `XArray` datatype.
- XArrayLocationMulti.Engine.constructor: requires a non-empty xArray list; the program's list is a fixed two-element array.
- XArrayLocationMulti.RecordCycle: an empty metric list, or an end-of-cycle report without a second metric, makes `List.get` throw inside the listener; the model reports `Malformed` and changes nothing, and does not model what the SDK does with the exception.
- XArrayLocationWam.Scheduler.RunRound: requires both collections to be empty at the start of a round; the program guarantees this by clearing them after each phase, which `RunWamRole` and `RunLocationRole` ensure.
- XArrayLocationWam.Scheduler.RunRounds: requires both collections to be empty before the loop, as they are after connecting.
- MultiProperties.FusionCycleEstimate: proved for a fixed cycle-length table. In the program, end-of-cycle diagnostics normally arrive during a tag's fusion cycle; such a cycle is covered only by chaining `ReplayAccumulatesSum` over the segments between diagnostics, each with the table then in force, and no single lemma states that chained result.
- MultiProperties.CycleEstimateBounds: proved for a fixed cycle-length table, for the same reason as `FusionCycleEstimate`.
- The listeners stay registered across phases in `XArrayLocationWam.java`: the tag listener set at line 117 stays attached through the Location phase and the decay wait, and the location listener set at line 132 stays attached into the next WAM phase. The model assumes the reader sends tag reports only during a WAM phase and location reports only during a Location phase; `RunRound`'s requirement that both collections start empty relies on this. A report arriving outside its own phase would be counted in the next report of that role, which the model does not capture.
- In `XArrayLocationMulti.java` both configured xArrays carry the same placeholder hostname, so with those settings every accepted report is a trigger report. The model keeps the rule (the last configured hostname) and proves the properties for any hostnames.
