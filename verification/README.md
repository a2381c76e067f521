# EZO provider: a verified model

The anolis EZO provider serves Atlas Scientific EZO probes on one I2C bus. Requests become bus
jobs; one worker thread carries the jobs out in order; for each probe the provider keeps a sample
cache, a cadence monitor, the calibration level and the temperature, salinity and pressure
compensation, which a probe silently loses with its power.

This project models that system in four layers and proves what they guarantee, alone and together.

1. **The executor** (`src/i2c/bus_executor.cpp`). `ExecutorModel` is the protocol: submitters, a
   worker and a stopper interleaving at every lock, flag and promise, jobs being any sequence of
   bus operations. `ExecutorCore`, `ExecutorMetrics` and `ExecutorLog` are the invariants every
   step keeps, `ExecutorTheorems` what follows for every reachable state, and `BusExecutor` the
   object, whose locked sections and the steps between them are each proved to be one event of
   the protocol. `ServiceLine` is the simple thing the executor is meant to be, a serial
   first-in-first-out line; `ExecutorService` proves that every schedule is a run of that line and
   says how one submission ends on it.
2. **The probe** (`Probe`, `Compensation`, `Jobs`, `Adapters`, `JobTheorems`, `CommandTheorems`). The environment is
   adversarial: it may refuse a command, stay busy, fail the transport, or cut the power between
   any two bus operations. What is assumed of a probe is that it answers SUCCESS only to a
   command it acted on and code 2 only to one it did not; that it acts on a command before the
   provider sends it the next one, or never, also when its last answer was 254; and that values
   read back within half of the last digit shown. `Adapters` holds the step-by-step code, proved
   against `Jobs`.
3. **The device record** (`DeviceState`, `DeviceTheorems`, `ArgValidation`, `Timing`): the state
   machine in `src/core/runtime_state.cpp`, as an object with in-place methods and as functions on
   its value; declared against enforced arguments; freshness and deadlines.
4. **The provider** (`Provider`, `Submissions`, `ProviderFold`, `ProviderTheorems`,
   `ProviderHistory`, `ProviderCalls`, `ProviderPolls`, `LateSets`): requests one at a time, jobs that timed out still waiting on the
   worker and carried out later, over whole runs. `ExecutorProvider` joins it to the executor: a
   call of `submit` from any reachable executor state, under any schedule, is a submission of the
   provider model.

`CannedBus` models the mock devices of `src/i2c/ezo_canned_bus.cpp`; `CannedBusTheorems` proves
their laws and that a canned device is a probe of layer 2.

`dafny verify dfyconfig.toml` checks everything.

Fields described as history (`log`, `done`, `runs`, `calibratedAt`, `told`, `asOf`, ...) record what
happened; no decision in the model reads them.

## What the code does not guarantee

Natural versions of some of these properties are false of the code. The code is modelled as it is;
each case has a lemma that exhibits it and a theorem that says exactly when it happens, or under
which condition it does not.

- `timed_out` is no class of its own: a job can be counted as succeeded, or failed, and as timed
  out (`SucceededAndTimedOut`), exactly when its caller stores the flag after the worker has looked
  at it again; a job whose flag the worker then saw is in no other counter (`CountedExactly`,
  `MetricsConservation`).
- A set_compensation whose caller timed out may still be carried out, while the caller returns or
  after. The call's own check then sends the remembered values again, and counts that although no
  power was lost, exactly when the late job came out OK and its value of a remembered field shows
  outside tolerance (`LateSetIsReverted`, `LateSetFromStartup`). If no set_compensation carried out
  for a caller that had given up brings a new value for a remembered field, as when the worker
  skips it, nothing is ever sent again (`NoResendStorm`).
- The level is re-read only after success: any call that did not succeed leaves the old level on
  show (`FailedCallKeepsLevel`), so a calibration that timed out and was carried out, then or later,
  has changed the probe and not the signal (`TimedOutCalibrationLeavesOldLevel`). After a successful
  call the level shown is the probe's (`NeverTheOldValue`).
- A check can report OK and values that do not hold the remembered ones: exactly when it sent
  values again and power was lost between the re-send of a value and its second query, and the
  power-up value then shown is outside tolerance (`CheckConverges`, `PowerCutExample`).
- The salinity of a DO probe that reports it in ppt is not known to the provider and so not
  restored after a calibration (`PptSalinityNotRestored`); every known value is
  (`CalibrationRestores`).
- A call that sends all its commands is within its deadline exactly up to six re-reads in all,
  unless the configured timeout is longer (`DeadlineExact`); a DO calibration the probe accepts
  throughout, each of its seven commands after one re-read, is not (`SevenRereads`).
- Which error a rejected set_compensation gives depends on the iteration order of the argument map
  exactly when both kinds of defect are present (`OneKindOfDefect`, `ReasonDependsOnOrder`);
  acceptance does not (`DeclaredIsEnforced`).
- Splitting an exchange with the canned bus into a write and a read is not the atomic exchange
  when there is nothing to read into (`WriteThenReadExact`).

## Model

| member | source | states |
|---|---|---|
| ExecutorCore.StepKeepsCore | src/i2c/bus_executor.cpp:25-189 | every event of every schedule keeps: the queue is the newest tasks in order; stopping means an empty queue; a promise is empty only for a queued task or the one in hand; what each promise says about runs and result; no promise is set twice; at most one job ends after a stop began |
| ExecutorCore.CancelAllEffect | src/i2c/bus_executor.cpp:58-68 | the cancel loop fulfils exactly the queued tasks with the stop status, counts each once and changes nothing else |
| ExecutorMetrics.CountUpdate | src/i2c/bus_executor.cpp:102-175 | counting tasks of any kind moves by exactly the one task rewritten |
| ExecutorMetrics.CancelAllCounts | src/i2c/bus_executor.cpp:58-68 | cancelling the queue moves every queued task to the cancelled ones and no other count |
| ExecutorMetrics.StepKeepsMetrics | src/i2c/bus_executor.cpp:58-175 | each counter is exactly the number of tasks in its class, after every event |
| ExecutorLog.StepKeepsLog | src/i2c/bus_executor.cpp:137-179 | the bus log stays whole jobs in submission order plus the operations of the running job, on an open bus |
| ExecutorTheorems.RunKeepsInv | src/i2c/bus_executor.cpp:25-189 | all three invariants over every schedule and any number of start/stop sessions |
| ExecutorTheorems.Serialization | src/i2c/bus_executor.cpp:137-179 | in every reachable state the log is a concatenation of whole job blocks in submission order, the bus is open at every operation, every task in it ran once, and a skipped or stop-cancelled task is not in it |
| ExecutorTheorems.DeviceStateIsFoldOfJobs | src/i2c/bus_executor.cpp:137-179 | whatever an operation does to the devices, their state is the fold of the finished jobs, one whole job at a time, and of the running job's own operations |
| ExecutorTheorems.RefinesServiceLine | src/i2c/bus_executor.cpp:46-189 | every event is one move of the serial line, or none |
| ExecutorTheorems.PromisesAndStopping | src/i2c/bus_executor.cpp:46-84 | no promise is set twice, and whoever is about to set one finds it empty, so the catch is never taken; stopping implies an empty queue and at most one job finishing; where an empty promise can be |
| ExecutorTheorems.StopReturnsComplete | src/i2c/bus_executor.cpp:71-84 | once stop returns, every task ever accepted is fulfilled, the worker gone, the queue empty and the bus closed |
| ExecutorTheorems.StoppingWorkerProgresses | src/i2c/bus_executor.cpp:137-179 | while stopping, every worker step strictly decreases a well-founded measure and nobody else moves the worker |
| ExecutorTheorems.WorkerNeverStuck | src/i2c/bus_executor.cpp:137-179 | while stopping, a worker that has not exited always has a step it can take |
| ExecutorTheorems.JoinReturns | src/i2c/bus_executor.cpp:71-75 | from any point of a stop, worker steps alone lead to where join returns |
| ExecutorTheorems.OutcomeTruth | src/i2c/bus_executor.cpp:91-125 | submit returns OK exactly when its job ran once, ended OK and its result was collected; a stop-cancelled job never ran and is reported Cancelled; a Cancelled not of the job's own making means it never ran; a passed deadline is reported DeadlineExceeded; the skip status is never handed out |
| ExecutorTheorems.NothingOlderStillToCome | src/i2c/bus_executor.cpp:137-179 | once the worker has let go of a task, no schedule lets that task or an older one touch the bus again |
| ExecutorTheorems.MetricsConservation | src/i2c/bus_executor.cpp:58-175 | submitted = queue depth + cancelled + succeeded + failed + late + in flight (0 or 1); late plus skipped never exceed the flagged; started plus stop-cancelled plus queued = submitted |
| ExecutorTheorems.SucceededAndTimedOut | src/i2c/bus_executor.cpp:113-175 | a schedule in which one job is counted as succeeded and as timed out |
| ExecutorTheorems.CountedExactly | src/i2c/bus_executor.cpp:113-175 | whatever the schedule, a finished job is counted as succeeded or failed exactly when its flag was not stored when the worker looked again, and is otherwise late; so it is in one of those counters and timed out exactly when the flag came after that look |
| ExecutorTheorems.LastErrorIsLast | src/i2c/bus_executor.cpp:34-175 | in every schedule the last error on show is the last complaint: a bus that did not open, a deadline, or a failed job |
| ExecutorService.RunRefinesLine | src/i2c/bus_executor.cpp:25-189 | every schedule of the executor is a run of the serial line, move for event |
| ExecutorTheorems.WorkerProgresses | src/i2c/bus_executor.cpp:137-179 | at any time a worker step takes a task off the queue or brings the worker closer to being done with the one it has |
| ExecutorService.SubmissionOnTheLine | src/i2c/bus_executor.cpp:91-179 | how one submission ends: with the job's status, and then it was the last job served and nothing is left in the line; stopped, and then it was not served and at most the job in hand is left; or timed out |
| ExecutorService.FateStep | src/i2c/bus_executor.cpp:46-179 | what one event makes of the task at the end of the line: served, gone for good, or still last |
| ExecutorProvider.StepIsMove | src/i2c/bus_executor.cpp:46-179 | an executor state whose jobs are the provider's is a world, and every event is a move of it, a job's return carrying the whole job out on the probe |
| ExecutorProvider.RunIsDrained | src/i2c/bus_executor.cpp:137-179 | a schedule in which nobody submits drains the line |
| ExecutorProvider.FateTold | src/i2c/bus_executor.cpp:46-179 | the fate those moves give the last job is that of its task |
| ExecutorProvider.SubmissionIsService | src/core/runtime_state.cpp:642-657 | one call of submit from any reachable state, under any schedule, is a submission of the provider model: same world after it, same status to its caller |
| ExecutorProvider.RefusalIsService | src/i2c/bus_executor.cpp:97-101 | a refused call leaves the world as it is |
| ExecutorProvider.ProbeIsFoldOfOperations | src/i2c/bus_executor.cpp:137-179 | whatever an operation does, if each job's operations do what the job does, the probe on the bus is the probe of the world between jobs |
| BusExecutor.Executor.constructor | src/i2c/bus_executor.cpp:21-21 | a new executor is the initial state |
| BusExecutor.Executor.StartSession | src/i2c/bus_executor.cpp:25-44 | start is the protocol's start event; OK exactly when already running or the bus exists and opens |
| BusExecutor.Executor.Admit | src/i2c/bus_executor.cpp:97-105 | the locked part of submit: refused exactly when not running or stopping, else the task joins the end of the queue |
| BusExecutor.Executor.CountTimedOut | src/i2c/bus_executor.cpp:116-120 | the caller's deadline is counted once |
| BusExecutor.Executor.Fulfil | src/i2c/bus_executor.cpp:181-189 | a promise keeps its first value |
| BusExecutor.Executor.CancelEach | src/i2c/bus_executor.cpp:62-68 | the cancel loop against its specification |
| BusExecutor.Executor.CancelPending | src/i2c/bus_executor.cpp:49-69 | the locked part of stop is one event, leaves the queue empty and sets no promise twice |
| BusExecutor.Executor.EndSession | src/i2c/bus_executor.cpp:81-84 | the end of stop, with every promise fulfilled |
| BusExecutor.Executor.TakeNext | src/i2c/bus_executor.cpp:141-153 | the worker takes the head of the queue, or exits exactly when stopping |
| BusExecutor.Executor.AccountResult | src/i2c/bus_executor.cpp:167-175 | success and failure are counted, and the task moves with its counter |
| BusExecutor.Executor.GiveUp | src/i2c/bus_executor.cpp:113-115 | the wait ends without a value |
| BusExecutor.Executor.StoreFlag | src/i2c/bus_executor.cpp:116-116 | the caller's flag is stored |
| BusExecutor.Executor.CollectResult | src/i2c/bus_executor.cpp:124-124 | the caller gets what the promise holds |
| BusExecutor.Executor.SkipOrBegin | src/i2c/bus_executor.cpp:157-165 | the task is skipped exactly when flagged, else its job begins |
| BusExecutor.Executor.PerformOp | src/i2c/bus_executor.cpp:165-165 | one bus operation of the job |
| BusExecutor.Executor.FinishJob | src/i2c/bus_executor.cpp:165-165 | the job returns |
| BusExecutor.Executor.LookAgain | src/i2c/bus_executor.cpp:167-167 | a job whose caller has given up by now is not accounted for |
| BusExecutor.Executor.PublishResult | src/i2c/bus_executor.cpp:177-177 | the status goes into the promise |
| BusExecutor.Executor.FulfilSkipped | src/i2c/bus_executor.cpp:158-159 | a skipped task's promise is fulfilled |
| BusExecutor.Executor.CountSkipped | src/i2c/bus_executor.cpp:160-162 | and counted as cancelled |
| BusExecutor.Executor.JoinWorker | src/i2c/bus_executor.cpp:73-75 | join returns once the worker has exited |
| BusExecutor.Executor.CloseBus | src/i2c/bus_executor.cpp:77-79 | the bus is closed after the worker is gone |
| BusExecutor.Executor.PerformAll | src/i2c/bus_executor.cpp:165-165 | a job's operations are on the log, all of them, one after another |
| BusExecutor.Executor.WorkerPass | src/i2c/bus_executor.cpp:138-178 | one pass of the loop: exit exactly when stopping with an empty queue, else the head task leaves the queue, its promise is fulfilled by its job or its skip, and its operations are on the bus, all or none |
| BusExecutor.Executor.WorkerStep | src/i2c/bus_executor.cpp:138-178 | whatever the worker does next is an event of the protocol |
| BusExecutor.Executor.TimeOut | src/i2c/bus_executor.cpp:115-121 | the deadline path of submit |
| BusExecutor.Executor.SubmitJob | src/i2c/bus_executor.cpp:91-125 | submit returns, by a schedule of the protocol: refused exactly when not running or stopping, else with the status its task records |
| BusExecutor.Executor.AwaitTask | src/i2c/bus_executor.cpp:113-124 | the wait ends, with the worker going on meanwhile |
| BusExecutor.Executor.BeginStop | src/i2c/bus_executor.cpp:46-69 | the first locked part of stop, running or not |
| BusExecutor.Executor.AwaitExit | src/i2c/bus_executor.cpp:71-75 | the worker reaches its exit |
| BusExecutor.Executor.FinishStop | src/i2c/bus_executor.cpp:73-84 | join, close and the final locked part, with every promise fulfilled |
| BusExecutor.Executor.StopSession | src/i2c/bus_executor.cpp:46-84 | stop returns, by a schedule of the protocol, with the executor stopped, the bus closed and every promise ever made fulfilled |
| Compensation.SentValuesAreRecognised | src/core/runtime_state.cpp:404-419 | for every real value, rounding to the sent decimals and then to the digit read back stays within tolerance |
| Compensation.ReadbackDigitAloneIsTooTight | src/core/runtime_state.cpp:404-409 | a tolerance of the read-back digit alone would take a held value for lost |
| Compensation.DefaultsSentExactly | src/devices/common/compensation.hpp:23-27 | the DO defaults survive the formatting |
| Probe.Settles | src/devices/common/sample_helpers.cpp:50-80 | the answer that settles a command is the first that is not 254, or the fifth |
| Probe.ReadCommandResponse | src/devices/common/sample_helpers.cpp:50-80 | the re-read loop ends, re-reads at most four times, is OK exactly when a SUCCESS comes within five answers preceded only by 254s, and reports each other answer as what it is |
| Jobs.WriteKeepsRest | src/devices/do/do_adapter.cpp:146-185 | a compensation write never touches the level or the calibrations, and costs at most one command per value and four re-reads per command |
| Jobs.OrderedWrite | src/devices/do/do_adapter.cpp:146-185 | without a power cut, a write is OK exactly when every given value was accepted, and otherwise the probe changed on a prefix of temperature, salinity, pressure and at most the failing value |
| JobTheorems.DefaultsFrom | src/core/ezo_provider_runtime.cpp:375-389 | writing the DO defaults ends at the defaults if OK, whatever power cuts come between |
| JobTheorems.CalibrateDoSafe | src/core/ezo_provider_runtime.cpp:375-435 | a DO calibration job acts on at most one Cal or Cal,0, and that at 20 C, salinity 0, 101.3 kPa |
| JobTheorems.CalibrationOnlyAtDefaults | src/core/ezo_provider_runtime.cpp:360-436 | so does every job there is, with power cut between any two operations |
| JobTheorems.WriteEstablishes | src/devices/do/do_adapter.cpp:146-185 | after an OK write the probe holds every given value as sent, salinity in uS/cm |
| JobTheorems.CalibrationRestores | src/core/ezo_provider_runtime.cpp:375-435 | when everything is accepted the job is OK, the level goes up by one to at most two, and each value ends as restored, or at its default |
| JobTheorems.ReadSeesHeld | src/devices/do/do_adapter.cpp:96-144 | reading back what the probe holds recognises every value |
| JobTheorems.HeldAfterWrite | src/devices/do/do_adapter.cpp:146-185 | what a probe holds after an OK write, value by value, with power cut anywhere |
| JobTheorems.CheckConverges | src/core/runtime_state.cpp:866-884 | an OK check reports values that hold every wanted one exactly when it re-sent nothing, or each value was still there at its second query, or the power-up value shown instead is within tolerance; for pH and DO and any power cuts |
| JobTheorems.AcceptedCalibrationLevel | src/core/ezo_provider_runtime.cpp:391-435 | after an OK calibration, power cuts or not: the level, that of the point for pH and one or two for DO, and that a DO probe was calibrated once |
| JobTheorems.ClearedLevel | src/core/ezo_provider_runtime.cpp:413-429 | an OK clear_calibration job leaves level 0 |
| JobTheorems.ReadReflects | src/devices/do/do_adapter.cpp:96-144 | an OK reading is what the probe holds, to the digit shown, unless power was lost after the query |
| JobTheorems.CheckReflects | src/core/runtime_state.cpp:866-884 | so are the values an OK check reports |
| JobTheorems.CheckLeavesHeldAlone | src/core/runtime_state.cpp:866-884 | a probe that holds what is wanted is sent nothing |
| JobTheorems.ResendsExactly | src/core/runtime_state.cpp:874-883 | on a probe that accepts what it is sent, a check sends again exactly when its first read is answered and shows some wanted value outside tolerance |
| JobTheorems.ResentIsHeld | src/core/runtime_state.cpp:877-883 | and the probe then holds every wanted value |
| JobTheorems.PowerCutExample | src/core/runtime_state.cpp:877-883 | a probe of either family on which an OK check does not report the wanted value |
| JobTheorems.PptSalinityNotRestored | src/devices/do/do_adapter.cpp:123-129 | a DO probe whose ppt salinity a calibration loses |
| CommandTheorems.WriteTells | src/devices/do/do_adapter.cpp:146-185 | a write sends the given values in order, each with its own command, up to the first refused |
| CommandTheorems.CalibrationSends | src/core/ezo_provider_runtime.cpp:375-435 | a DO calibration sends the defaults, then exactly if all were accepted the Cal or Cal,0 asked for, then unless that send failed the values to restore, up to the first refused |
| CommandTheorems.CheckTells | src/core/runtime_state.cpp:866-884 | a check sends nothing if its first read failed or showed every wanted value, and else the wanted values |
| CommandTheorems.OneCommandTold | src/core/ezo_provider_runtime.cpp:391-420 | every other control job sends its one command and nothing else |
| CommandTheorems.QueriesTellNothing | src/core/runtime_state.cpp:681-690 | a sample, a level read and a job for another device send it none |
| CommandTheorems.SleepAsksNothing | src/core/ezo_provider_runtime.cpp:425-428 | sleep is OK exactly when sent, whatever the probe would answer, and never re-reads |
| CommandTheorems.OneCommandOk | src/core/ezo_provider_runtime.cpp:421-435 | every other one-command job is OK exactly when sent and answered SUCCESS in time |
| CommandTheorems.QueryOk | src/core/runtime_state.cpp:681-690 | a sample or level read is OK exactly when answered, and hands on what was read |
| CommandTheorems.UnboundIsUntouched | src/core/runtime_state.cpp:683-687 | a device that cannot be bound is not spoken to, and the job fails |
| Adapters.Link.Perform | src/devices/do/do_adapter.cpp:149-155 | send, settle, read the response, as one exchange |
| Adapters.Link.WritePressure | src/devices/do/do_adapter.cpp:175-184 | the end of the DO writer is the ordered write from the pressure on |
| Adapters.Link.WriteSalinityOn | src/devices/do/do_adapter.cpp:165-184 | and from the salinity on, stopping if it is refused |
| Adapters.Link.WriteDo | src/devices/do/do_adapter.cpp:146-185 | the DO writer, step by step, is the ordered write |
| Adapters.Link.WritePh | src/devices/ph/ph_adapter.cpp:78-92 | the pH writer sends the temperature if there is one |
| Adapters.Link.Ask | src/devices/do/do_adapter.cpp:99-109 | one query shows the device as it is when asked |
| Adapters.Link.ReadAllDo | src/devices/do/do_adapter.cpp:96-144 | the DO reader reports nothing unless all three queries are answered, and no salinity in ppt |
| Adapters.Link.CalAndRestore | src/core/ezo_provider_runtime.cpp:391-435 | Cal, response, restore; a failed send returns before the restore |
| Adapters.Link.CalibrateDoJob | src/core/ezo_provider_runtime.cpp:375-435 | the DO calibration job against its specification |
| Adapters.Link.CheckDoJob | src/core/runtime_state.cpp:866-884 | the compensation check job of a DO probe against its specification |
| DeviceState.ActiveDevice.constructor | src/core/runtime_state.hpp:36-97 | a new record knows nothing |
| DeviceState.ActiveDevice.PutValue | src/devices/common/sample_helpers.cpp:82-100 | one slot is written, none if the index is out of range |
| DeviceState.ActiveDevice.ApplyLevel | src/core/runtime_state.cpp:357-378 | the level goes into its slot, or the reason it is unknown |
| DeviceState.ActiveDevice.ApplyCompensation | src/core/runtime_state.cpp:383-402 | the compensation values go into their slots, or the reasons they are unknown |
| DeviceState.ActiveDevice.WatchCadence | src/core/runtime_state.cpp:729-748 | the lag counter and the one-time warning |
| DeviceState.ActiveDevice.RefreshSample | src/core/runtime_state.cpp:700-773 | the whole record after a refresh, and when a compensation check is due |
| DeviceState.ActiveDevice.StoreLevel | src/core/runtime_state.cpp:819-832 | the whole record after a level read |
| DeviceState.ActiveDevice.StoreCheckResult | src/core/runtime_state.cpp:886-905 | the whole record after a compensation check |
| DeviceState.ActiveDevice.RememberValues | src/core/runtime_state.cpp:913-929 | given fields replace remembered ones, the others stay |
| DeviceState.ActiveDevice.RecordCallResult | src/core/runtime_state.cpp:931-956 | a call is counted once, as succeeded or as failed |
| DeviceTheorems.CacheAgreement | src/core/runtime_state.cpp:357-402 | after any sequence of updates the level and compensation slots of a sample show exactly the stored level and reading, or why they are not known |
| DeviceTheorems.OtherSlotsUntouched | src/core/runtime_state.cpp:819-905 | those updates write no other slot |
| DeviceTheorems.SampleIsLastRead | src/core/runtime_state.cpp:749-772 | after any sequence of updates each slot the sample fills is that of the last successful refresh, with its stamps; failed refreshes and the other updates leave it |
| DeviceTheorems.OnDemandIsLastRead | src/core/runtime_state.cpp:819-905 | the level and the compensation on record are those of the last attempt to read them, and unknown, with its reason, if that failed or there was none |
| Signals.SignalLayout | src/devices/do/do_adapter.cpp:15-32 | the level comes right after a family's own signals, then the compensation values in order, and nothing else |
| DeviceTheorems.StreakIsLongRun | src/core/runtime_state.cpp:729-748 | a streak of three ends at the last refresh exactly when the run of lagging gaps is three or longer |
| DeviceTheorems.CadenceMonitorExact | src/core/runtime_state.cpp:700-776 | the warning latch is set exactly when the history has four successes in a row with all three gaps over the bound; it is logged once; until then the counter is the run still going on, below three |
| DeviceTheorems.RememberedIsLastGiven | src/core/runtime_state.cpp:913-929 | each remembered field is the last value given for it |
| DeviceTheorems.CountersExact | src/core/runtime_state.cpp:749-772 | after any sequence of updates each counter (refreshes OK and failed, re-applications, calls OK and failed) is the number of updates of its kind |
| ArgValidation.IndexOf | src/core/ezo_provider_runtime.cpp:193-203 | the first position of a calibration point, or the length exactly when it is not one |
| ArgValidation.CheckOneArg | src/core/ezo_provider_runtime.cpp:251-268 | the checks on one set_compensation argument |
| ArgValidation.CheckCompensationArgs | src/core/ezo_provider_runtime.cpp:232-274 | the loop over the argument map, in any order, against its specification |
| ArgValidation.CompensationVerdict | src/core/ezo_provider_runtime.cpp:232-274 | accepted exactly when a temperature is given and no argument has a defect, whatever the order, and the values are the map's |
| ArgValidation.DeclaredIsEnforced | src/core/ezo_provider_runtime.cpp:173-309 | for every family, declared function, argument map and order: accepted exactly when the published specs are satisfied |
| ArgValidation.FilledAsGiven | src/core/ezo_provider_runtime.cpp:173-309 | what is passed on is what was given; a pH call carries no salinity and no pressure |
| ArgValidation.ReasonForOne | src/core/ezo_provider_runtime.cpp:251-268 | by the published specs: an argument is INVALID_ARGUMENT exactly when undeclared or no finite double, and OUT_OF_RANGE exactly when a finite double outside its range |
| ArgValidation.OneKindOfDefect | src/core/ezo_provider_runtime.cpp:251-273 | with one kind of defect, by the published specs, the error is that kind in every order, and INVALID_ARGUMENT if only the temperature is missing |
| ArgValidation.ReasonDependsOnOrder | src/core/ezo_provider_runtime.cpp:251-268 | with both kinds present there are orders giving each error |
| ArgValidation.CalibrateReason | src/core/ezo_provider_runtime.cpp:184-230 | a pH calibrate is OUT_OF_RANGE exactly when all is as published but the reference, a finite double, is outside its range |
| ArgValidation.OtherReasons | src/core/ezo_provider_runtime.cpp:276-309 | no other call is ever OUT_OF_RANGE |
| ArgValidation.FunctionsMatchSignals | src/core/runtime_state.cpp:129-218 | calibration is offered exactly where there is a level signal, set_compensation exactly where there is a compensation temperature |
| Timing.CacheIsRecent | src/core/ezo_provider_runtime.cpp:711-739 | after a poll the cached sample is no older than the reuse window |
| Timing.AgeBounded | src/core/ezo_provider_runtime.cpp:711-739 | until the next poll ends it is at most window + interval + read time old |
| Timing.NoFalseStaleness | src/core/ezo_provider_runtime.cpp:711-739 | if that sum is within the freshness bound, no sample ever passes the bound and the cadence warning never fires, whatever else happens to the device |
| Timing.ConfiguredBoundSuffices | src/core/runtime_state.cpp:433-455 | it is, for every schema-valid configuration whose window is shorter than its interval and reads of up to one interval |
| Timing.DerivedIntervals | src/core/runtime_state.cpp:433-455 | the freshness bound is three intervals, within half a second and what an int holds; interval and window are the configured ones, not under 50 ms |
| Timing.ConditionIsExact | src/core/ezo_provider_runtime.cpp:711-739 | if it is not, some regular schedule of successful polls has a sample older than the bound and sets off the cadence warning |
| Timing.JobCommands | src/core/ezo_provider_runtime.cpp:342-352 | how many commands the job of each function sends at most, and the re-reads of a single command |
| Timing.DeadlineCoversJob | src/core/ezo_provider_runtime.cpp:311-355 | a job needing at most six re-reads in all waits within its deadline, and a one-command job always does |
| Timing.DeadlineExact | src/core/ezo_provider_runtime.cpp:342-355 | a set_compensation or DO calibrate job that sends all its commands waits within the deadline exactly when it needs at most six re-reads or fits the configured timeout |
| Timing.SlowCalibrationOutlastsDeadline | src/core/ezo_provider_runtime.cpp:342-355 | a DO calibration accepted throughout, each command after n re-reads, outlasts its deadline exactly when n > 0 and the configured timeout is shorter too |
| Timing.SevenRereads | src/core/ezo_provider_runtime.cpp:342-355 | such a calibration with seven re-reads |
| Timing.AllCommandsSent | src/core/ezo_provider_runtime.cpp:342-352 | accepted throughout, a full set_compensation sends three commands, a DO calibration seven and any other call one, which is what their deadlines are sized for |
| Timing.DatasheetDeadlines | src/core/ezo_provider_runtime.cpp:342-355 | with the datasheet waits a DO calibration has 4.6 s, inside the runtime's 5 s |
| Provider.Drained | src/core/runtime_state.cpp:642-657 | how many jobs a sequence of worker and stop moves leaves in the line |
| Submissions.GoneLeavesNoTrace | src/i2c/bus_executor.cpp:58-68 | a job that leaves the line without being carried out leaves everything as if it had never joined |
| Submissions.CarriedOutLast | src/i2c/bus_executor.cpp:137-179 | a job that is carried out comes after everything before it has left the line, and nothing is left after it |
| ProviderTheorems.RunKeepsInv | src/core/ezo_provider_runtime.cpp:684-818 | every run of requests, late jobs and power cuts keeps the bus and record invariants |
| ProviderFold.ProbeIsItsHistory | src/core/ezo_provider_runtime.cpp:684-818 | in every run the probe is what the jobs carried out, whole and in order, and the power cuts between them make of it, and those jobs are the ones the line has served |
| ProviderFold.SubmitServes | src/core/runtime_state.cpp:642-657 | during a submission nothing is served but what was waiting and the job submitted |
| ProviderTheorems.SafeOverEveryRun | src/core/ezo_provider_runtime.cpp:755-818 | over every run from startup: each Cal reached a DO probe at the defaults, the signals agree with what is stored, and a pH device never has a salinity or pressure remembered |
| ProviderTheorems.CheckDoneConverges | src/core/runtime_state.cpp:835-911 | an OK check, older late jobs out of the way, leaves reported values that hold every remembered one exactly under the condition of CheckConverges |
| ProviderTheorems.CompensationConverges | src/core/ezo_provider_runtime.cpp:784-798 | so after any set_compensation or DO calibrate, succeeded, partly refused or timed out and carried out late; a failed one remembers nothing new, and is rolled back on every field remembered before |
| ProviderTheorems.SubmitMovesClock | src/core/runtime_state.cpp:642-657 | a result handed over was read off the probe after the submission began |
| ProviderTheorems.NeverTheOldValue | src/core/ezo_provider_runtime.cpp:784-817 | after a successful calibrate or clear the level on record is unknown or the probe's own; after a successful set_compensation the values on record are unknown or, read after the job ended, what the probe holds to the digit shown, unless power was lost since; whatever is left on the worker |
| ProviderCalls.CallShowsLevel | src/core/ezo_provider_runtime.cpp:806-816 | after a successful calibrate or clear_calibration the level on record is unknown or exactly what such a call leaves: 0, the pH point's, or for DO one more than found, at most two |
| ProviderCalls.CallSendsItsCommand | src/core/ezo_provider_runtime.cpp:391-420 | find, set_led, sleep, clear_calibration and pH calibrate send their one command, with the arguments given, and nothing else |
| ProviderCalls.SetSendsItsValues | src/core/ezo_provider_runtime.cpp:369-374 | a successful set_compensation sends exactly the values given, temperature first |
| ProviderCalls.CalibrateSendsItsCommands | src/core/ezo_provider_runtime.cpp:375-435 | a successful DO calibrate sends the defaults, Cal or Cal,0 as asked, and what was set or else read |
| ProviderCalls.RejectedCallTouchesNothing | src/core/ezo_provider_runtime.cpp:763-772 | a call of an unknown function changes nothing; a rejected one is counted as failed and changes nothing else |
| ProviderPolls.RunCounts | src/core/runtime_state.cpp:749-772 | over every run the counters are the numbers of successful and failed polls and calls |
| ProviderPolls.PollShowsSample | src/core/runtime_state.cpp:681-773 | a poll that reads the probe shows what it read, in every slot the sample fills, with its stamps; one that fails leaves the sample and marks it |
| ProviderPolls.PollChecksWhenDue | src/core/runtime_state.cpp:759-785 | with every 24th successful poll the remembered compensation is checked, that job being the last served; without it nothing is served but what was waiting and the sample |
| ProviderPolls.DueComes | src/core/runtime_state.cpp:757-759 | in any run, whatever else goes on, 24 successful polls make a check due |
| ProviderPolls.RestoredWithin24 | src/core/runtime_state.cpp:777-785 | so whatever was lost, a run with 24 successful polls has one whose check, if done and OK without another cut, finds or puts back every remembered value |
| ProviderPolls.PowerCutIsRepaired | src/core/runtime_state.cpp:777-785 | power lost, and then a smooth poll that is the 24th: the remembered values are on the probe again and one re-application is counted |
| ProviderTheorems.FailedCallKeepsLevel | src/core/ezo_provider_runtime.cpp:799-816 | a call that did not succeed, of any function on any family, leaves the level on record as it was |
| ProviderTheorems.TimedOutCalibrationLeavesOldLevel | src/core/ezo_provider_runtime.cpp:799-816 | a calibrate call that timed out, its job carried out to an OK end before the caller returned, with the check or by any later work of the line, has changed the probe's level and not the one on record; either family, and to which level |
| ProviderHistory.RememberedIsHistory | src/core/ezo_provider_runtime.cpp:788-792 | at every point of every run each remembered field is the last value given in a successful set_compensation |
| ProviderHistory.CalibrateLeavesSetElseHeld | src/core/ezo_provider_runtime.cpp:774-780 | when everything is accepted and each field was set or read, a DO calibrate leaves the set, else held, values as sent |
| ProviderHistory.HarmlessJobKeepsHeld | src/core/runtime_state.cpp:866-884 | no job but a set_compensation with a new value for a remembered field moves a remembered value off a probe that accepts everything |
| ProviderHistory.UnchangingWorkIsCalm | src/core/ezo_provider_runtime.cpp:784-792 | if the waiting set_compensation jobs bring nothing new for a remembered field, any work of the line meets the condition of NoResendStorm |
| ProviderHistory.NoResendStorm | src/core/runtime_state.cpp:404-419 | on such a probe the re-applied count stays 0 in every run in which no set_compensation carried out for a caller that had given up gives a new value for a remembered field; skipped and removed ones do not matter |
| ProviderHistory.StartupIsCalm | src/core/runtime_state.cpp:475-602 | which holds from startup on |
| LateSets.LateSetLands | src/core/ezo_provider_runtime.cpp:784-792 | a set_compensation that timed out and was carried out, before its caller returned or after, is on the probe when the call's check comes to be carried out, and not remembered |
| LateSets.LateSetIsReverted | src/core/runtime_state.cpp:877-903 | that check sends the remembered values again and counts that exactly when the late job came out OK, the probe can be read, and a late value of a remembered field shows outside tolerance; for pH and DO |
| LateSets.LateSetFromStartup | src/core/ezo_provider_runtime.cpp:784-798 | two calls from startup, the second timing out while its job runs, for any two temperatures |
| LateSets.LateCalibrationFromStartup | src/core/ezo_provider_runtime.cpp:799-816 | a DO calibrate from startup that times out while its job runs: it is the calibration in what befell the probe, the level goes up, and none is on record |
| CannedBus.FrameBytes | src/i2c/ezo_canned_bus.cpp:292-306 | a frame is its status and its payload, byte for byte, cut where the buffer ends |
| CannedBus.EzoCannedBus.constructor | src/i2c/ezo_canned_bus.cpp:166-167 | a new bus is closed and has no devices |
| CannedBus.EzoCannedBus.OpenBus | src/i2c/ezo_canned_bus.cpp:169-172 | open |
| CannedBus.EzoCannedBus.CloseBus | src/i2c/ezo_canned_bus.cpp:174-174 | close keeps the devices |
| CannedBus.EzoCannedBus.StateFor | src/i2c/ezo_canned_bus.cpp:184-198 | the state of an address, made on first access, no other address touched |
| CannedBus.EzoCannedBus.RecordCommand | src/i2c/ezo_canned_bus.cpp:237-277 | what a written command does to its device, and only to it |
| CannedBus.EzoCannedBus.EmitFrame | src/i2c/ezo_canned_bus.cpp:292-306 | the loop puts the frame at the front of the buffer and leaves the rest |
| CannedBus.EzoCannedBus.AnswerRead | src/i2c/ezo_canned_bus.cpp:279-290 | status, pending or success frame, and what the answer does to the device |
| CannedBus.EzoCannedBus.Write | src/i2c/ezo_canned_bus.cpp:308-317 | write against its specification, with its errors |
| CannedBus.EzoCannedBus.Read | src/i2c/ezo_canned_bus.cpp:319-324 | read against its specification, with its errors |
| CannedBus.EzoCannedBus.WriteAndRead | src/i2c/ezo_canned_bus.cpp:326-347 | the atomic exchange against its specification, with its errors |
| CannedBusTheorems.SplitRunIsTheSame | src/i2c/ezo_canned_bus.cpp:308-347 | in any run, replacing atomic exchanges by separate writes and reads changes neither the state nor anything a read returns |
| CannedBusTheorems.WriteThenReadExact | src/i2c/ezo_canned_bus.cpp:326-347 | a write and then a read whatever the lengths gives the atomic reply exactly when the bus is closed or there is something to read into |
| CannedBusTheorems.AddressesAreIsolated | src/i2c/ezo_canned_bus.cpp:184-198 | over any run an address ends in the same state with the same replies as if no operation on another address had been made |
| CannedBusTheorems.LevelIsHistory | src/i2c/ezo_canned_bus.cpp:237-277 | the level is fixed by the commands acted on: the last one set, else the initial one, plus the DO points since, at most two, with 32-bit wrap-around |
| CannedBusTheorems.CompensationIsHistory | src/i2c/ezo_canned_bus.cpp:202-260 | in every run each compensation value is what the last incident that concerned it left: the value of a command acted on, the power-up value after a simulated power cut, or else the initial one; the salinity unit survives the cut |
| CannedBusTheorems.ReadingsAreCounted | src/i2c/ezo_canned_bus.cpp:215-219 | the counter that sets off the simulated power cut is the number of readings given, to 64 bits |
| CannedBusTheorems.RejectedIsInert | src/i2c/ezo_canned_bus.cpp:244-247 | a rejected command and any reads after it change no calibration and no compensation, and each read answers the error code |
| CannedBusTheorems.SetThenAsked | src/i2c/ezo_canned_bus.cpp:208-260 | round trip: the T, S or P command the provider sends, then the query, with any reads between, is answered with the value set, salinity in uS/cm |
| CannedBusTheorems.SetThenRead | src/i2c/ezo_canned_bus.cpp:208-324 | the same on the bus: the bytes a read returns are those of the value set, as far as they fit |
| CannedBusTheorems.OpenIsLastSaid | src/i2c/ezo_canned_bus.cpp:169-175 | in any run an operation fails for want of an open bus exactly when it was last closed or never opened; the count given is that of the bytes |
| CannedBusTheorems.InPpt | src/i2c/ezo_canned_bus.cpp:249-258 | a salinity sent in ppt is held in ppt |
| CannedBusTheorems.RevertIsPowerCut | src/i2c/ezo_canned_bus.cpp:202-206 | the simulated power cut is the power cut of the model's probe |
| CannedBusTheorems.FreshIsPoweredUp | src/i2c/ezo_canned_bus.cpp:184-198 | a device first met is a probe just powered up, as the options say |
| CannedBusTheorems.AddressTellsFamily | src/i2c/ezo_canned_bus.cpp:31-48 | each family has its one address |
| CannedBusTheorems.InfoTellsFamily | src/i2c/ezo_canned_bus.cpp:63-81 | the identity answer carries the code of the family the address stands for |
| CannedBusTheorems.ReadingIsPlausible | src/i2c/ezo_canned_bus.cpp:102-122 | a one-value reading is in its family's range and decimals |
| CannedBusTheorems.ReadingFillsOutputs | src/i2c/ezo_canned_bus.cpp:83-122 | a reading has one field for each enabled output |
| CannedBusTheorems.ActsAsProbe | src/i2c/ezo_canned_bus.cpp:248-276 | for every command the provider sends, a canned device does to its state what the model's probe does, a DO point at the top of the 32-bit counter excepted |
| CannedBusTheorems.TurnVerdict | src/i2c/ezo_canned_bus.cpp:279-290 | when a command to a canned device comes out OK, and that it is an honest probe unless set up to answer SUCCESS to a command it ignores |
| CannedBusTheorems.ExchangeIsProbeExchange | src/i2c/ezo_canned_bus.cpp:237-290 | a command and any number of response reads leave the device as the probe would be, each read answering as the probe would |

## Left out

- Two `stop` calls at once on one executor; shutdown moves the executor out under a lock, so one stopper at a time is assumed.
- Job names in messages: the executor's timeout text and the wrapped driver messages are shortened to their fixed part.
- Executor counters are unbounded; 64-bit wrap-around of the metrics is not modelled.
- The value of `outcome->reapplied` read while a timed-out check is still running: the model takes what the job wrote if it got to its end before the caller looked, and false otherwise.
- Several devices at once: a run has one device, and jobs for others are jobs that leave it alone.
- Unknown device, signal and function ids, and the assembly of read replies: lookups that add only easy members.
- The start-up probing and exclusion of devices, host requirement checks, configuration loading, the command line, descriptors, diagnostics, health strings and logging.
- EC, HUM, ORP and RTD adapters beyond their signal counts, and the no-op bus: straight-line reads.
- The EZO C driver's formatting and parsing, which is not part of this model: numbers are sent rounded half up to the decimals the adapters give, and IEEE rounding is not modelled.
- Clocks: sample stamps of the system clock and the steady clock are integer milliseconds and never go back.
- The record of the last call and of the last sample error: strings copied through. The mapping of executor codes to protocol codes, and the code of a failed send, which is taken to be Unavailable.
- CannedOptions::parse and the delay switch of the canned bus; number text is a parameter of the model.
- Adapters.Link: the pH check job, whose reader and writer are the one-value cases of the DO ones, is modelled as a function (`Jobs.CheckRun`) only.
- DeadlineCoversJob: counts waiting time only, as the deadline's own computation does, and takes the generic wait for each T, S and P command; the driver's transfer times are not part of this model.
- A command still being processed when the provider sends the next one: a probe left at 254 is taken to act before then or never.
- ActsAsProbe: a DO calibration point is taken at a level below 2^32 - 1, where the canned device's counter wraps to 0 (LevelIsHistory says how) and the probe of the model stays at 2.
- ExchangeIsProbeExchange: with the same exception as ActsAsProbe.
