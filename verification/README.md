# SCD41 operation engine: a verified model

The SCD41 driver runs one operation at a time for an owner that calls it: `begin` binds a transport
callback, `start` admits an operation, `poll` moves it on by at most a budget of callbacks, `cancel` and
`end` stop it, and `takeResult` hands its one result over. It talks to a CO2 sensor that it cannot see,
through callbacks that may fail in any way, on a 32-bit clock that wraps, and keeps beliefs about the
sensor (mode, identity, verified and dirty settings, pressure source) that it must give up whenever a
transfer leaves them in doubt.

The project models that engine, but for what is listed at the end, and proves what it is for, over whole
runs: any sequence of public calls, against any transport.

## How it is built

- `Clocks`, `Types`, `Commands`, `Codec`: 32-bit and unbounded clocks, the public records, command words,
  execution times and limits, CRC-8, framing and fixed-point codecs.
- `Engine`: every public call and every poll step as a function on a value, `State`. The state carries a
  log of what happened: bindings, admissions, callbacks, protocol errors, results, takings.
- `Driver`: the driver as the object it is, with its fields, its poll loop and its six step handlers.
  Each method is proved to take `View()` to what `Engine` says, and `Stable()` ties the object to the run
  of calls it has received, so the theorems about runs are theorems about the object.
- `Exchanges`, `Control` and `Runs`: what each step comes to, one turn of the poll loop as a case analysis,
  reachability of (phase, step) pairs, and the rule that lifts an invariant of the small steps to every
  reachable state.
- The run theorems: `Coherence`, `Ledger`, `Accounts`, `Effort`, `Evidence`, `Pace`, `Spacing`, `Liveness`.
- `Lens`, `Windows`, `Refinement`, `Passivity`: the driver commutes with a change of observation. Times modulo
  2^32 is one such change, and gives the refinement of the wrapped clock. Blindness to the health threshold
  and a past put before the log are two others, and give the passivity of health: the log, of which all
  health counters are a summary, is never read. `Guarantees` says these things of driver objects.
- `Sensors`: the sensor nobody sees, and what a truthful adapter may report. `Belief`, `Promises`,
  `Persistence` and `Doubt` relate the driver to it; `Attention` composes them with the spacing of callbacks,
  for a sensor that does not listen while it executes.
- `CodecProofs`: what the CRC catches, and round trips. `Workflow` and `Session`: the diagnostic sequencer,
  and its composition with the driver; `Completion`: that a served workflow ends. `Console`: the command line
  that serves it, as an object over the driver and workflow objects.

## Assumptions, where a theorem makes any

- The transport is arbitrary: any code, disposition, byte count, completion time and data, out-of-range
  enumeration values included. Only the theorems with a `history` or `body` parameter assume more: there
  `Sensors.Follows` says that the sensor moved as a truthful adapter reports (complete means executed, not
  started and no effect mean not executed, indeterminate means either; a NACKed wake may still wake), that
  an intact read carries the sensor's answer, and that the sensor is never swapped for another. Those rules
  look at the disposition after the driver's own normalisation, which makes them weaker than truthfulness
  about the raw report. A sensor that measures or sleeps does not answer serial and variant reads. In a
  mode that forbids a command, and for unmanaged commands, nothing is assumed about what the sensor does.
- `Spacing`, `Liveness`, `Attention` and `Completion` speak of the clock of mathematical integers.
  `Refinement` carries the first three to the 32-bit clock, and `Guarantees` to the driver object, for owners
  and callbacks that keep inside its windows: owner times less than 2^30 ms after the last accepted poll,
  callback completions less than 2^30 ms after their start, deadlines less than 2^32 ms after their start,
  and no time more than 2^31 ms in the past. Everything else holds for both clocks without such conditions.
- "Completion" of a callback is the time the driver accepts: the reported one, or the start when the
  reported one is not plausible.
- Liveness is about an owner who polls with budget and never later than asked, that is, than the later of the
  returned due time and its own last time, over transfers that take at most the configured timeout. It may
  poll earlier as often as it likes; what is counted are the polls exactly when asked.

Two points where the source is narrower or looser than a reader might expect, both kept as they are:
the effect reported for ATTACH follows the wake attempt alone, so acknowledgement is not claimed for that
kind; and the configuration read is refused to a sensor other than SCD41 and SCD43, which is the one
operation of the diagnostic workflows that depends on the variant (`Session.AdmissionNeedsVariant`).

## Model

| member | source | states |
|---|---|---|
| Driver.ComputeCrc | src/SCD41.cpp:2488-2499 | the byte and bit loops compute the recursive CRC-8 of byte strings of any length |
| Driver.Bus.Transfer | include/SCD41/Config.h:25-75 | a callback answers arbitrarily, with a 32-bit completion time, and is recorded |
| Driver.Driver.constructor | include/SCD41/SCD41.h:1014-1043 | a new driver is the initial state with an empty log and an empty run |
| Driver.Driver.Begin | src/SCD41.cpp:142-172 | binding: refused with its error and no change when invalid or busy, else everything but the epoch, the gate, the owner's time and the generation starts afresh |
| Driver.Driver.Start | src/SCD41.cpp:273-294 | admission: the first failing check decides, in order; else the operation occupies the slot under the returned id |
| Driver.Driver.Poll | src/SCD41.cpp:174-265 | one poll takes the object to the specified state and report, and extends the run by that call |
| Driver.Driver.Cancel | src/SCD41.cpp:296-331 | cancellation keeps what the wire may have done; time never runs back |
| Driver.Driver.TakeResult | src/SCD41.cpp:333-344 | a result is handed over once, to its own id only |
| Driver.Driver.End | src/SCD41.cpp:346-374 | unbinding ends work in progress as a cancelled result that waits to be taken, and forgets the sensor |
| Driver.Driver.RunLoop | src/SCD41.cpp:216-247 | the bounded while loop is the recursive loop of the specification |
| Driver.Driver.Iterate | src/SCD41.cpp:217-246 | one turn: a step, failure handling, and the progress checks |
| Driver.Driver.ObserveTime | src/SCD41.cpp:174-186 | an accepted time is recorded and opens an elapsed gate, even while idle |
| Driver.Driver.ValidateStart | src/SCD41.cpp:606-636 | the start checks in their order, each with its own error |
| Driver.Driver.OpenOperation | src/SCD41.cpp:823-877 | an admitted operation's first phase, due time, effect and target word |
| Driver.Driver.Step | src/SCD41.cpp:879-909 | deadline first, then the safety gate, then the handler of the kind |
| Driver.Driver.StepAttach | src/SCD41.cpp:911-1048 | ATTACH: power-up wait, wake, stop, serial, variant |
| Driver.Driver.StepReadLike | src/SCD41.cpp:1050-1238 | reads, with the composite configuration read field by field |
| Driver.Driver.StepSetting | src/SCD41.cpp:1245-1371 | a setting is read, written unless equal and selected, waited for, and read back |
| Driver.Driver.StepModeCommand | src/SCD41.cpp:1373-1513 | mode commands and WAKE_UP with its identity check |
| Driver.Driver.StepMeasurement | src/SCD41.cpp:1515-1595 | a measurement asks for readiness before it fetches a sample |
| Driver.Driver.StepMaintenance | src/SCD41.cpp:1597-1784 | maintenance: blocked or needless persists answer without a write; resets verify the identity |
| Driver.Driver.StepDiagnostic | src/SCD41.cpp:1786-1843 | an unmanaged command costs the driver its knowledge |
| Driver.Driver.AcceptAttach | src/SCD41.cpp:1001-1042 | the variant word attaches the sensor, or disowns an unsupported one; an unchanged sensor keeps its dirty work |
| Driver.Driver.AcceptIdentity | src/SCD41.cpp:1185-1233 | a changed or unsupported identity ends in reconciliation, an expected one re-attaches |
| Driver.Driver.AcceptVariant | src/SCD41.cpp:1097-1128 | another variant, or an unsupported one, costs the driver its knowledge and publishes only what was read |
| Driver.Driver.AcceptBefore | src/SCD41.cpp:1305-1340 | the old value decides whether a write is needed; an equal value skips it |
| Driver.Driver.AcceptBack | src/SCD41.cpp:1341-1366 | the value read back must be the requested one; then the source is selected |
| Driver.Driver.AcceptConfiguration | src/SCD41.cpp:1134-1171 | one field of the composite read: cached, or refused with a partial end |
| Driver.Driver.AnswerPersist | src/SCD41.cpp:1601-1618 | persistence in doubt is refused, nothing dirty succeeds without a write |
| Driver.Driver.FinishPersist | src/SCD41.cpp:1658-1665 | after its wait a persist has nothing dirty and nothing in doubt |
| Driver.Driver.SendSettingWord | src/SCD41.cpp:1257-1295 | what a setting write may have changed is unverified, dirty and deselected, whatever its status |
| Driver.Driver.AttemptTransfer | src/SCD41.cpp:1910-2040 | one callback: clipped timeout, normalised answer, effect evidence, gate, counters, status |
| Driver.Driver.NormalizeReply | src/SCD41.cpp:1942-1985 | implausible times, bad values and contradictions become failures of unproven effect |
| Driver.Driver.ArmGate | src/SCD41.cpp:2000-2018 | the settle gate is armed by whatever may have reached the sensor, whatever the status |
| Driver.Driver.WriteCommand | src/SCD41.cpp:1845-1856 | a command is put on the wire as its two bytes |
| Driver.Driver.WriteCommandWithWord | src/SCD41.cpp:1858-1874 | a command with an argument is framed with the argument's CRC |
| Driver.Driver.ReadWords | src/SCD41.cpp:1876-1908 | words are delivered only if every one passes its CRC, and then they are exactly the packed words |
| Driver.Driver.DecodeWords | src/SCD41.cpp:1895-1907 | the word loop accepts exactly the all-correct buffers |
| Driver.Driver.FinishOperation | src/SCD41.cpp:2051-2094 | the slot's work becomes one retained result |
| Driver.Driver.FinishOperationFailure | src/SCD41.cpp:2096-2139 | the last transfer's evidence decides outcome, effect and what is forgotten |
| Driver.Driver.ApplyReadValue | src/SCD41.cpp:2141-2179 | a register word enters the cache as verified, in the current epoch |
| Driver.Driver.StoreSample | src/SCD41.cpp:2181-2200 | a sample is converted, numbered and stamped with epoch and mode |
| Driver.Driver.MarkReconciliationRequired | src/SCD41.cpp:2210-2217 | everything believed of the sensor is given up, dirty work is kept |
| Driver.Driver.AdvanceSensorEpoch | src/SCD41.cpp:2219-2227 | a new epoch invalidates sample and source |
| Driver.Driver.RecordTransfer | src/SCD41.cpp:2229-2257 | the health counters stay the summary of the log |
| Driver.Driver.RecordOperationOutcome | src/SCD41.cpp:2268-2294 | each result is counted once |
| Control.StepReachable | src/SCD41.cpp:879-1843 | every kind stays in its own (phase, step) pairs: no handler meets an invalid phase |
| Control.Shape | src/SCD41.cpp:216-247 | one turn is one of seven cases, with the exact condition and resulting state of each |
| Runs.Lift | src/SCD41.cpp:142-374 | an invariant of the small steps holds after every sequence of calls against every transport |
| Coherence.AlwaysCoherent | src/SCD41.cpp:2051-2227 | never both active and terminal; attached iff no reconciliation iff mode known; attached implies bound, valid identity of the current epoch and, when strict, SCD41; verified fields and samples only while attached |
| Ledger.AlwaysBalanced | src/SCD41.cpp:273-374 | in every reachable state the log accounts for the slot: no event ever contradicts it |
| Accounts.ExactlyOnce | src/SCD41.cpp:273-374 | admissions are results plus work in progress, and results are takings plus the pending one |
| Accounts.ResultHasAdmission | src/SCD41.cpp:2051-2094 | a result carries id, kind, start and deadline of its one admission, with nothing of another operation between |
| Accounts.TakenWasPending | src/SCD41.cpp:333-344 | what is taken was pending under that id |
| Accounts.DistinctIdentities | src/SCD41.cpp:284-293 | ids of admissions fewer than 2^32 - 1 apart differ, whatever request ids the owner chose |
| Accounts.CountersConserve | src/SCD41.cpp:2229-2294 | the published counters add up to admissions and callbacks until they saturate |
| Effort.SpentBounded | src/SCD41.cpp:415-530 | in no place has an operation spent more than its published callbacks, and where it sends one more still fits |
| Evidence.AlwaysFaithful | src/SCD41.cpp:1942-1993 | every result lists exactly its callbacks, at most the published number and exactly it on success; a success ends before its deadline; NONE and NOT_ATTEMPTED mean no effectful transfer began, ACKNOWLEDGED that one completed, and an indeterminate one ends as UNKNOWN or a verified wake |
| Pace.AlwaysFit | src/SCD41.cpp:1918-1928 | every callback of every run starts before its deadline with a positive timeout inside configuration and time left, and its settle covers its command's execution time, under clock wrap too |
| Pace.OneCallbackPerPoll | src/SCD41.cpp:208-247 | a poll makes at most one callback whatever its budget, and none without budget |
| Pace.LoopEndsByItself | src/SCD41.cpp:216-247 | the loop ends by its own checks within three turns |
| Pace.CapUnused | src/SCD41.cpp:216-217 | a loop allowed only those turns gives the same result as the cap of 32 |
| Spacing.NeverBusy | src/SCD41.cpp:2000-2018 | over whole runs no callback starts before an earlier one's settle, nor a managed command before the sensor has executed the previous one |
| Spacing.SuccessLasts | tools/scd41_hil_runner.py:57-78 | a success lasted at least the mandatory waits of its kind |
| Spacing.EarlyPollIsQuiet | src/SCD41.cpp:216-247 | a poll before the published due time changes nothing but the owner's recorded time |
| Spacing.LatePollEnds | src/SCD41.cpp:211-214 | an accepted poll at or after the deadline leaves a timeout result without a callback, even with budget zero |
| Liveness.EveryOperationEnds | README.md:60-74 | the published deadline formula suffices for every kind from every reachable state: an owner who never polls later than asked sees the operation end by it, not by timeout, at the latest with the (3 * maxCallbacks + 3)rd poll that comes when asked |
| Refinement.WrappedRefinesLinear | src/SCD41.cpp:2304-2311 | inside the windows the 32-bit driver goes through exactly the states of the driver on integers, modulo 2^32, with the same callbacks, bytes and timeouts |
| Refinement.WrappedAnswersAlike | src/SCD41.cpp:174-265 | and the next poll reports the same |
| Guarantees.ObjectIsSound | include/SCD41/SCD41.h:1014-1043 | the run theorems hold of the driver object: coherent, balanced, faithful and disciplined, with counters that conserve admissions and callbacks |
| Guarantees.ObjectRefinesLinear | src/SCD41.cpp:2304-2311 | the object's fields are the integer driver's, modulo 2^32 |
| Guarantees.ObjectNeverBusy | src/SCD41.cpp:2000-2018 | the object's callbacks are, at 32 bits, callbacks that start only after every earlier settle and execution |
| Guarantees.ObjectSuccessLasts | tools/scd41_hil_runner.py:57-78 | the object's successes are, at 32 bits, results that lasted their mandatory waits |
| Guarantees.ObjectEarlyPollIsQuiet | src/SCD41.cpp:216-247 | polled before the due time the object only records the owner's time |
| Guarantees.ObjectOperationEnds | README.md:60-74 | an object with any history, served in good time, ends its operation: it holds the result of that id and kind, not a timeout, completed at 32 bits by the published formula |
| Guarantees.ObjectBelieves | src/SCD41.cpp:911-1784 | the object's beliefs, traffic and results are as good for a sensor that is deaf while it executes |
| Passivity.LogIsNeverRead | src/SCD41.cpp:142-374 | with any other log, and so any other counters, every call has the same effect, tells its caller the same and adds the same events |
| Passivity.PastIsPassive | src/SCD41.cpp:2229-2294 | from states that agree but for their histories, calls that differ at most in thresholds lead to states that agree, through the same events, and the next call tells the same |
| Passivity.CountersMayDiffer | src/SCD41.cpp:2268-2294 | such states exist with different thresholds and different counters behind them |
| Guarantees.HealthIsPassive | src/SCD41.cpp:2229-2294 | two driver objects that agreed at some time but for counters, thresholds and health agree ever after in beliefs, operations and results, make identical transport requests, and tell their owners the same |
| Sensors.SensorCanMove | test/test_basic.cpp:188-265 | the rules for the unseen sensor can always be met |
| Belief.AlwaysSound | src/SCD41.cpp:911-1784 | over every run against a truthful adapter, mode, verified fields, source and identity are the sensor's |
| Belief.ModeNeverWrong | src/SCD41.cpp:2202-2217 | between operations the believed mode is unknown or the sensor's own |
| Belief.CacheIsTrue | src/SCD41.cpp:2141-2179 | at any time a verified field decodes the register and the believed source is the active one |
| Promises.AlwaysKeeps | src/SCD41.cpp:722-784 | outside ATTACH, WAKE_UP and diagnostics no word reaches a sensor whose mode forbids it; and successes mean what they say: ATTACH idle and identified, mode commands their mode, setters the requested register, verified, selected and reported, the configuration read all seven fields |
| Promises.OffsetReported | src/SCD41.cpp:558-577 | in every run the result of a successful offset write reports, as plain value and in the configuration, the stored register, within one thousandth of a degree of what its admission asked |
| Persistence.AlwaysSaved | src/SCD41.cpp:1601-1665 | every persistable setting that differs from EEPROM is dirty, and a successful persist, written or not, leaves them equal |
| Doubt.NoBlindPersist | src/SCD41.cpp:1601-1618 | while persistence is in doubt no step sends a persist |
| Doubt.DoubtIsKept | src/SCD41.cpp:2127-2132 | from every reachable state, doubt is about a known sensor, and a step ends it only by verifying a reload or reset, by seeing another serial number or variant, or by rebinding |
| Doubt.OnlyResetEndsDoubt | src/SCD41.cpp:1761-1775 | with a sensor that is never swapped, only a verified reload or reset, or a rebind, ends doubt |
| Attention.AlwaysHeard | src/SCD41.cpp:2000-2018 | no callback of a run starts while the sensor executes, so a sensor that does not listen then hears every one |
| Attention.SoundThoughDeaf | src/SCD41.cpp:911-1784 | beliefs, traffic and results are as good for a sensor that may do anything with what reaches it while it executes |
| CodecProofs.OneByteDetected | src/SCD41.cpp:2488-2499 | the CRC of byte strings of any length changes under any change of one byte |
| CodecProofs.BurstDetected | src/SCD41.cpp:1895-1907 | a word with up to eight consecutive bits damaged, across data and CRC, is rejected |
| CodecProofs.FrameRoundTrip | src/SCD41.cpp:1895-1907 | what a sensor frames is accepted and unpacked to the same words |
| CodecProofs.ArgumentIsFramed | src/SCD41.cpp:1858-1874 | command arguments travel in the frame of response words |
| CodecProofs.OffsetRoundTrip | src/SCD41.cpp:558-577 | every offset register word survives decoding and encoding |
| CodecProofs.OffsetAccurate | src/SCD41.cpp:558-577 | an offset is stored to within one thousandth of a degree |
| CodecProofs.PressureAccurate | src/SCD41.cpp:579-590 | a pressure is stored rounded down to 100 Pa, in the domain the driver accepts back |
| Workflow.DiagnosticWorkflow.constructor | examples/common/DiagnosticWorkflow.h:178-192 | a new workflow is inactive, with no calls behind it |
| Workflow.DiagnosticWorkflow.Begin | examples/common/DiagnosticWorkflow.h:36-58 | refused in the wrong state, size or mode with no change; else all counters start afresh |
| Workflow.DiagnosticWorkflow.Next | examples/common/DiagnosticWorkflow.h:60-66 | there is a next request exactly while active and not waiting |
| Workflow.DiagnosticWorkflow.MarkStarted | examples/common/DiagnosticWorkflow.h:68-77 | only the current step can be started |
| Workflow.DiagnosticWorkflow.AcceptResult | examples/common/DiagnosticWorkflow.h:79-98 | only the awaited result is accepted, and counted once |
| Workflow.DiagnosticWorkflow.MarkStartFailure | examples/common/DiagnosticWorkflow.h:100-106 | a failed start is one failure and the end |
| Workflow.DiagnosticWorkflow.RequestStop | examples/common/DiagnosticWorkflow.h:108-116 | a stop between operations ends at once, else after the result |
| Workflow.DiagnosticWorkflow.Clear | examples/common/DiagnosticWorkflow.h:118-118 | everything is reset |
| Workflow.AlwaysInOrder | examples/common/DiagnosticWorkflow.h:36-176 | whatever is called: results in sequence, at most `totalSteps`, each counted once as passed, warned or failed, plus one failure exactly for a failed start |
| Session.TurnWorking | src/SCD41.cpp:1050-1238 | an operation of a workflow keeps mode and identity, or ends with a result that reports reconciliation |
| Session.RequestsAreAdmissible | examples/01_basic_bringup_cli/main.cpp:251-326 | however a session is played, through any number of workflows, cancels and clears: until a result reports reconciliation the mode is the one it began with and every request a workflow issues is admitted and started |
| Session.AdmissionNeedsVariant | src/SCD41.cpp:744-784 | in the workflow's mode a request is admissible iff it is not a configuration read or the sensor is SCD41 or SCD43 |
| Completion.WorkflowCompletes | examples/01_basic_bringup_cli/main.cpp:251-326 | a workflow served by a prompt owner ends within 46 due moves a step, no operation times out, and unless a result reported reconciliation all `totalSteps` operations have run in sequence and passed + warnings + failed is `totalSteps` |
| Completion.SomethingIsDue | examples/01_basic_bringup_cli/main.cpp:303-326 | until then such an owner always has a due move |
| Console.Console.constructor | examples/01_basic_bringup_cli/main.cpp:18-23 | a command line over any driver and any workflow that is not finished has a session with no moves |
| Console.Console.PrintWorkflowUpdate | examples/01_basic_bringup_cli/main.cpp:204-234 | a finished workflow is cleared, any other stays |
| Console.Console.TakeAndPrint | examples/01_basic_bringup_cli/main.cpp:236-249 | the result of an id is taken and offered to the workflow |
| Console.Console.PollDriver | examples/01_basic_bringup_cli/main.cpp:251-258 | one loop poll with a budget of one callback, and the result collected |
| Console.Console.StartStep | examples/01_basic_bringup_cli/main.cpp:270-326 | a step starts under the next request id and the formula's deadline plus a second, or fails the workflow |
| Console.Console.Ready | examples/01_basic_bringup_cli/main.cpp:303-313 | a step may start iff the workflow is between operations, the slot idle and the safety gate open |
| Console.Console.ServiceWorkflow | examples/01_basic_bringup_cli/main.cpp:303-326 | a step is started exactly when it may be |
| Console.Console.StartWorkflow | examples/01_basic_bringup_cli/main.cpp:328-348 | a workflow begins on an idle slot in the believed mode, and is served at once |
| Console.Console.CancelOperation | examples/01_basic_bringup_cli/main.cpp:531-533 | the operation is cancelled and its result collected |
| Console.Console.CancelCommand | examples/01_basic_bringup_cli/main.cpp:522-533 | between operations a cancel only stops the workflow |
| Console.StartsSucceed | examples/01_basic_bringup_cli/main.cpp:270-326 | while no result reported reconciliation and time does not run back, the driver object admits every start the command line makes, whatever happened before |

## Left out

- Arduino and ESP-IDF adapters, command lines, console readers, bus scan, Python tools, version generator: input, output and text around the engine. Of the command lines only the way the Arduino one serves a workflow is modelled, without its printing.
- Floating-point conversions: thin wrappers around the integer codecs.
- Status messages, detail codes, enumeration names, compatibility aliases, snapshots: no behaviour of their own. The device address is fixed and not modelled.
- Re-entrant callbacks, threads, object lifetimes and null buffers: excluded by the interface's contract. The absence of a callback is modelled.
- `tick`: a poll whose report is discarded.
- The seven READ and seven SET kinds of the settings are one kind each with a field as parameter, and the field masks are sets; the driver's fields for knowledge, time, identity and configuration are grouped in records. The driver state is a part of the health record.
- The branches that reset a saturating counter from zero to one after incrementing it are omitted: no increment of a counter that saturates gives zero.
- Evidence.AlwaysFaithful: for ATTACH only the NONE and NOT_ATTEMPTED claims, because its effect follows the wake attempt alone.
- Spacing.NeverBusy: the execution time of unmanaged diagnostic commands is not known to the driver, so only the short settle is claimed after them.
- Persistence.AlwaysSaved: assumes that no diagnostic command reaches the bus and that settings agree with EEPROM at each binding; a diagnostic may write anything.
- Attention.SoundThoughDeaf: unmanaged diagnostic commands are taken to execute for the short settle, and the sensor is not busy at first; it is stated on the clock of mathematical integers.
- Measurement values, electrical behaviour and EEPROM endurance: not modelled.
- Liveness.EveryOperationEnds: owners that poll later than asked are covered only by their deadline (Spacing.LatePollEnds).
- Completion.WorkflowCompletes: stated on the clock of mathematical integers; the owner gives no commands meanwhile.
- Console.Console.ServiceWorkflow: the two clock readings around a served start are one parameter.
- Refinement.WrappedRefinesLinear: outside the windows 32-bit comparisons are ambiguous and nothing is claimed.
