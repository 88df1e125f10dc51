# Verified model of the durable execution engine

A Dafny model of `bullmq-durable`, the engine that runs a processor as a sequence of checkpointed steps over
BullMQ, and of two algorithms of its dashboard. `dafny verify dfyconfig.toml` checks all of it.

## What is modelled

A *run* is one job delivered many times. Each delivery takes the instance lock, counts itself, replays the
processor against the checkpoints it finds, and goes on live from the first step that has none. It may yield
until a backoff or sleep is due, complete, fail straight away, or turn into the failure sequence: compensations
in reverse, then the terminal handler, then a terminal status. It may die after any store operation.

| file | content |
|---|---|
| `Values`, `Phases`, `Retries`, `Text` | payloads and their JSON round trip, storage namespaces, backoff, decimal text |
| `Records`, `Processors` | the persisted record of a run with each store operation on it; user code |
| `Policies` | which of several retry policies wins, attempt budgets and delays |
| `Steps`, `Ticks` | the specification of one delivery: a step call, the failure sequence, the tick |
| `Executors`, `Runtimes`, `Actions` | the suspension controller, step executor, runtime and operator actions as objects with the source's fields and loops, each method proved equal to its specification function |
| `Journal`, `StepCalls`, `Routes`, `Sagas`, `Failures`, `Runs` | what every write, step call, processor run, failure sequence and tick keeps |
| `Guarantees`, `Checkpoints`, `Compensating`, `Irreversible`, `LiveRuns`, `Ordering`, `Budgets`, `Settlements`, `Parking`, `Progress`, `Finishing`, `Cancellations`, `Endings`, `Results`, `Resets`, `Identities`, `Outcomes` | theorems over whole runs |
| `Reversal`, `Witnesses` | concrete runs on the far side of the exact conditions |
| `Locks`, `MemoryStores`, `Indexes`, `IndexedRuns`, `Listings`, `RedisStores`, `Fields`, `Sorting` | the two stores, the lock, the status index and the hash encoding |
| `Layout`, `Pages`, `Reapers` | flow-graph layout, the finished-run listing, the reaper |

A processor is a function from what it has been handed so far to its next move: return, throw, call a step,
sleep. It is sequential and deterministic and makes finitely many calls. What bodies do at each attempt, how long
operations take, the random draws, the operation after which the process dies and whether the terminal
transition finds the lock taken over form a `World`, quantified over everywhere. Events are deliveries (live or
post-mortem), `retry`, `retryCompensation` (each cut short after any number of its writes), `cancel` and time.

A call may recover from its step's failure, and then either looks at the error or ignores it; an error thrown on
keeps the mark that it came from a step. The reference for
replay is `Routes.RouteOf`: the processor evaluated with every step replaced by its stored outcome, errors included.
A `Book` says what each key names and whether its call looks at errors; `Obeys` means that a program never uses one
key for two different things.

Three conditions recur.

- `Guarantees.Faithful`: in no live delivery did the processor look at the error of a poll that had just run out of
  attempts. This is exactly when a tick replays (`Routes.ReplaysExactly`); `Guarantees.PlainIsFaithful` gives it from
  the events alone, and a processor that looks at no error always has it. `Guarantees.Consistent` holds after every
  faithful history by `AlwaysConsistent`; `Journal.Sound`, which asks nothing of what the processor looks at, holds
  after every history by `Guarantees.AlwaysSound`.
- `Irreversible.Guarded`: also no live delivery of a compensating run while a forward step is unfinished. By
  `LiveRuns.LiveRunsAreGuarded` every history without a settlement is guarded.
- `Compensating.Committed`: the trigger on record matches the status. It holds in every state reached by a guarded
  history, by `Irreversible.AlwaysCommitted`.

The job side of parking keeps a delay. The model notes beside it which step asked for it (`Steps.Resume`); nothing
reads that note except the theorems about parking.

## What the proofs turned up

Each of these is stated as a lemma. The model does what the code does.

- A compensating run can still complete. If it was settled while a forward step was unfinished and the settling
  process died, a later live delivery runs on from that step (`Reversal.CompensatedYetCompleted`). The exact
  condition is `Irreversible.ResumesDownwardsExactly`.
- A poll that exhausts its attempts raises `DurableRetriesExhaustedError` live, but its record replays the
  `RetryLaterError` (`Guarantees.LiveErrorReplays`). A processor that catches it and looks at it can complete with an
  output its checkpoints do not give (`Witnesses.OutputNotReplayed`). It can also fail with a completed step never
  compensated, because the replay takes another branch and does not register it (`Witnesses.FailedUncompensated`).
  The exact condition is `Routes.ReplaysExactly`.
- The same error reaches `onFailure` in its report, so on a later delivery the handler may be told another one for the
  same compensation and take another way (`Witnesses.HandlerTurnsAway`). The exact condition is
  `Progress.RetellsExactly`.
- Cancelling a failed run leaves its id in two done buckets of the Redis index
  (`Indexes.CancelledFailureListedTwice`); the comment above the terminal script speaks of moving the id.
- A memory-store update that ends a run keeps the ending time an earlier ending left behind
  (`Listings.StaleEndDiffers`). No caller in the repository passes `updateInstance` a terminal status, so this can be
  reached only through the store interface.
- Completing with an absent output clears an older output in memory and keeps it in Redis; it is one of the
  conditions of `Indexes.OpExactly`.
- Oldest-first listing over several queues merges each queue's newest rows (`Pages.MergedOldestPageIsWrong`), and
  pages past the cap can miss rows the same way. The exact condition is `Pages.MergedPageExactly`.
- A worker that has been fenced off still reports a failure on the fast path (`Witnesses.FailureNotStored`) and still
  reports a cancellation that a body asked for (`Witnesses.CancellationNotStored`); every other ending is reported
  only once stored (`Outcomes.UnstoredExactly`).
- A `retryCompensation` that dies before its last write leaves a run that is `compensation_failed` and holds no failed
  compensation record (`Witnesses.GivenUpForgotten`, exactly: `Guarantees.RetryCompGivesUp`).
- A step patch with an explicitly undefined field erases the field in Redis and leaves it alone in memory, because the
  memory store merges a JSON copy; it is one of the conditions of `Indexes.OpExactly`. No caller in the repository
  passes one (`IndexedRuns.WakesAllowed`).
- The delivery that completes a run answers with the live output, every later one with its JSON round trip
  (`Witnesses.DateThenText`, exactly: `Outcomes.FirstOutputExactly`).

## Model

| member | source | states |
|---|---|---|
| Guarantees.SagaSettled | packages/bullmq-durable/src/execution/runtime.ts:363-499 | After any faithful number of deliveries, crashes, yields, settlements and operator actions, a `failed` run has a completed compensation record for every completed forward step that promised one |
| Guarantees.SagaGaveUp | packages/bullmq-durable/src/execution/runtime.ts:436-499 | Whenever a run is `compensation_failed`, every such step has a completed or failed compensation record and at least one has failed; from the delivery that ends it so, and for as long as no `retryCompensation` dies between its writes |
| Guarantees.RetryCompGivesUp | packages/bullmq-durable/src/run.ts:238-259 | A `retryCompensation` of such a run leaves that claim true if and only if it does not die between dropping the failed records and changing the status |
| Witnesses.GivenUpForgotten | packages/bullmq-durable/src/run.ts:238-259 | A concrete run outside that condition: `compensation_failed`, the completed step there, and no compensation record at all |
| Guarantees.AlwaysConsistent | packages/bullmq-durable/src/execution/runtime.ts:225-348 | Step numbering, coverage of owed compensations, settled `failed` runs and replayable outputs hold after every faithful history, operator retries included |
| Guarantees.PlainIsFaithful | packages/bullmq-durable/src/execution/step-executor.ts:309-323 | A condition on the events alone: a history is faithful if no live delivery's world can exhaust a poll whose error the processor looks at; a processor that looks at no caught error meets it in every world |
| Guarantees.CompletedRunReplays | packages/bullmq-durable/src/execution/runtime.ts:230-242 | A run completed by a faithful history stored the value the processor returns when every step is replaced by its checkpoint, and every later delivery hands out that output and changes nothing |
| Guarantees.LiveValueReplays | packages/bullmq-durable/src/execution/step-executor.ts:159-263 | The value a step call returns, in any phase and mode, is the value any later call on a store that kept its record returns, whatever that call would have handed the body |
| Guarantees.LiveErrorReplays | packages/bullmq-durable/src/execution/step-executor.ts:207-212 | The error a step call raises, in any phase and mode, is the one any later call on a store that kept its record raises, if and only if the step is not a poll that ran out of attempts in that very call |
| Results.StepAnswers | packages/bullmq-durable/src/execution/step-executor.ts:233-281 | A step call that finds its step unsettled returns, and stores, the JSON round trip of what the body returned at the last attempt it started; the error it raises is that attempt's |
| Results.CheckpointsAreAnswers | packages/bullmq-durable/src/execution/step-executor.ts:243-263 | After every history each settled step record says what its body answered: some delivery started that body under the attempt on record, and the stored result is the round trip of what it returned, or the stored error what it threw |
| Results.CompensationsGetResults | packages/bullmq-durable/src/execution/runtime.ts:449-456 | Whatever a delivery compensates, each compensation is handed the stored result of the step it undoes |
| Results.StepTimes | packages/bullmq-durable/src/execution/step-executor.ts:207-263 | A step counts from its first call through all attempts and deliveries, and when it settles the time is recorded |
| Results.AttemptsInTurn | packages/bullmq-durable/src/execution/step-executor.ts:207-230 | A step call takes up one attempt after another, from the one after the attempt on record, or from the first |
| Runs.ExecuteEnds | packages/bullmq-durable/src/execution/runtime.ts:261-348 | Wherever a tick stops: what it may have changed, when it may have completed, failed or turned compensating, all against the evaluation of its checkpoints |
| Failures.FailureSequenceEnds | packages/bullmq-durable/src/execution/runtime.ts:363-429 | Wherever the failure sequence stops: forward records untouched, trigger and failed step persisted once, registered compensations discharged and reported if the run ended, everyone told the same trigger, and never a completion |
| Sagas.RollbacksAccount | packages/bullmq-durable/src/execution/runtime.ts:436-469 | A finished rollback loop has settled each registered compensation, and its report lists exactly the completed and the given-up ones in order |
| Routes.EvalAgrees | packages/bullmq-durable/src/execution/step-executor.ts:126-263 | Running the processor live leaves checkpoints that, evaluated alone, give the same value, error, registered rollbacks and failed step, unless it looked at the error of a poll that had just run out of attempts |
| Routes.ReplaysExactly | packages/bullmq-durable/src/execution/step-executor.ts:126-263 | What the processor, or the failure handler, is handed live is what its checkpoints hand it on replay if and only if it looked at no error of a poll that had just run out of attempts |
| Routes.EndsExactly | packages/bullmq-durable/src/execution/step-executor.ts:354-359 | A step error that ends the run is the one a replay ends with if and only if it is not such a poll's |
| Witnesses.OutputNotReplayed | packages/bullmq-durable/src/execution/step-executor.ts:354-359 | A concrete completed run outside that condition: its stored output is the name of the live error, and its checkpoints give the other name |
| Witnesses.FailedUncompensated | packages/bullmq-durable/src/execution/runtime.ts:338-344 | A concrete failed run outside that condition: a completed step promised a compensation, and no compensation was ever begun |
| Checkpoints.CompletedForEver | packages/bullmq-durable/src/run.ts:211-259 | A completed step record is never changed and its body never started again by any later deliveries, settlements, `retry` or `retryCompensation` |
| Checkpoints.NumbersDistinct | packages/bullmq-durable/src/store/memory-store.ts:163-188 | In every reachable state step numbers are distinct and lie between 1 and the instance counter, also after failed steps were removed and created again |
| Checkpoints.NoEarlyWake | packages/bullmq-durable/src/execution/step-executor.ts:447-499 | A pending sleep keeps its first wake time through every replay, and the completion time on its record lies between that wake time and the clock |
| Checkpoints.NoEarlyStart | packages/bullmq-durable/src/execution/step-executor.ts:213-229 | A body starts only on an unsettled record, under a higher attempt number, and no earlier than the time the record was scheduled for |
| Compensating.ExecuteResumes | packages/bullmq-durable/src/execution/runtime.ts:273-308 | A delivery of a compensating run that meets nothing unfinished leaves forward records, trigger and failed step alone, and can only stay compensating or end as failed, compensation_failed or cancelled |
| Compensating.TickTells | packages/bullmq-durable/src/execution/runtime.ts:366-380 | One tick tells every compensation and the failure handler the trigger and failed step that the run then has on record |
| Irreversible.OneTrigger | packages/bullmq-durable/src/execution/runtime.ts:366-410 | Between two operator retries every compensation and every `onFailure` call, on any delivery, hears the one error and failed step on record |
| Irreversible.IrreversibleFailure | packages/bullmq-durable/src/execution/runtime.ts:273-308 | A compensating run only becomes failed, compensation_failed or cancelled; trigger, failed step and forward records stay, and no forward body runs, over any guarded sequence of events |
| Irreversible.NeverCompletesFromCompensating | packages/bullmq-durable/src/execution/runtime.ts:269-308 | No delivery, guarded or not, takes a run from compensating to completed or running, and one that leaves it yielded is live and met an unfinished forward step |
| Irreversible.AlwaysCommitted | packages/bullmq-durable/src/execution/runtime.ts:366-378 | The trigger and failed step on record always match the run's status, in every guarded run, operator retries included |
| LiveRuns.LiveRunsAreGuarded | packages/bullmq-durable/src/execution/runtime.ts:288-308 | Every faithful history without a settlement is guarded, and never leaves a compensating run waiting for a forward step |
| LiveRuns.OneTriggerLive | packages/bullmq-durable/src/execution/runtime.ts:366-410 | One trigger for everyone, from scratch, for every history that is never settled, with conditions on the events alone |
| LiveRuns.IrreversibleLive | packages/bullmq-durable/src/execution/runtime.ts:273-308 | Irreversible failure for every history that is never settled, with conditions on the events alone |
| Irreversible.ResumesDownwardsExactly | packages/bullmq-durable/src/execution/runtime.ts:288-308 | A live delivery of a compensating run leaves it on its way down with its forward records unchanged if and only if the forward replay meets no unfinished step; in every world, bodies that cancel their run included |
| Reversal.CompensatedYetCompleted | packages/bullmq-durable/src/execution/runtime.ts:288-303 | A concrete run outside that condition: settled after a crash, interrupted, delivered live again, it completes although its step was compensated |
| Outcomes.ReportsAreTrue | packages/bullmq-durable/src/execution/runtime.ts:230-348 | What a delivery reports is stored: completions with their output, failures with their error, suspensions only when fenced off; a fenced worker leaves the run unended and reports, besides suspensions, only cancellations, yields, retries and fast failures; BullMQ retries only errors outside steps, with attempts left |
| Outcomes.RetriableExactly | packages/bullmq-durable/src/execution/runtime.ts:310-333 | BullMQ is asked to try again if and only if the last thing the processor did, live and not compensating, was to throw an error of its own with attempts left that neither the error nor the job rules out; nothing is then undone and nobody told |
| Outcomes.FastFailureStored | packages/bullmq-durable/src/execution/runtime.ts:334-344 | A fast failure is stored with its error and the step it came from, and adds no act |
| Outcomes.TriggerRecorded | packages/bullmq-durable/src/execution/runtime.ts:351-380 | What a run that goes down is recorded to have failed of: the error that escaped, or the job's error when a settlement met an unfinished step |
| Outcomes.OutcomeRepeats | packages/bullmq-durable/src/execution/runtime.ts:238-252 | Once a failure or a cancellation is stored, every later delivery reports the same and changes nothing |
| Outcomes.UnstoredExactly | packages/bullmq-durable/src/execution/runtime.ts:297-344 | An ending is reported without being stored if and only if the worker is fenced off and the delivery started a body that cancels the run, or fails the run fast: a final error, not compensating, nothing registered, no handler |
| Cancellations.CancelledExactly | packages/bullmq-durable/src/execution/step-executor.ts:298-300 | A delivery that runs to its end reports a cancellation if and only if it started a body, of whatever phase, that cancels the run |
| Witnesses.CancellationNotStored | packages/bullmq-durable/src/execution/runtime.ts:297-300 | A concrete fenced delivery: the cancellation is reported and the run is still `running` |
| Endings.FailuresAreTold | packages/bullmq-durable/src/execution/runtime.ts:400-429 | With `onFailure` set, the delivery that ends a run as failed or compensation_failed has called it with the error, the completed steps and the report that the ended run has on record |
| Endings.CompletedNeverCompensated | packages/bullmq-durable/src/execution/runtime.ts:269-308 | In a guarded history without an operator's `retry` a completed run has no compensation record and no handler record, and neither a compensation nor the handler has ever acted in it |
| Endings.CompletedNeverCompensatedLive | packages/bullmq-durable/src/execution/runtime.ts:269-308 | The same from scratch for every history that is never settled, with conditions on the events alone |
| Witnesses.FailureNotStored | packages/bullmq-durable/src/execution/runtime.ts:338-344 | A concrete fenced delivery: the failure is reported for good and the run is still `running` |
| Outcomes.FirstOutputExactly | packages/bullmq-durable/src/execution/runtime.ts:230-282 | The delivery that completes a run hands out what the processor returned and every later one its JSON round trip; the two are equal if and only if the round trip leaves the value alone |
| Witnesses.DateThenText | packages/bullmq-durable/src/execution/runtime.ts:241-282 | A concrete run whose first delivery hands out a date and whose later ones hand out its text |
| Outcomes.FailureVerdict | packages/bullmq-durable/src/execution/step-executor.ts:289-443 | A failed body is final exactly when not retryable or out of budget; otherwise its record is due after the poll's own delay or one within the policy's range and cap, with the error kept unless it was a poll |
| Outcomes.SettlementWaits | packages/bullmq-durable/src/execution/step-executor.ts:262-281 | A settlement waits out the same delay in process and then takes up the very next attempt |
| Ordering.CompensatesLatestFirst | packages/bullmq-durable/src/execution/runtime.ts:445-468 | Compensations are sorted into strictly descending step number, each registered one once, and handlers start in that order |
| Ordering.DeliveryInOrder | packages/bullmq-durable/src/execution/runtime.ts:445-468 | Whatever a delivery compensates, and whatever the processor looked at, its compensation bodies start in descending number of the steps they undo |
| Ordering.SameListOnResume | packages/bullmq-durable/src/execution/runtime.ts:449-453 | Every resumed delivery of a run on its way down compensates the same list in the same order |
| Ordering.CompensatesInReverse | packages/bullmq-durable/src/execution/runtime.ts:449-453 | In a run no `retry` has reset, the compensation order is reverse program order |
| Budgets.RetryBudget | packages/bullmq-durable/src/execution/step-executor.ts:243-360 | Attempt numbers rise with every start, nothing starts after its recorded end, and a step with bounded retries starts at most `attempts` times plus once per interruption |
| Settlements.SettlementSafe | packages/bullmq-durable/src/execution/step-executor.ts:138-157 | A post-mortem delivery starts no forward body and changes no forward record, wherever it dies; on an ended or unknown run it changes nothing |
| Settlements.ExecuteSettles | packages/bullmq-durable/src/execution/step-executor.ts:144-157 | A settlement registers exactly the rollbacks of the completed prefix |
| Settlements.LoopStarts | packages/bullmq-durable/src/execution/step-executor.ts:243-281 | The in-process loop ends: a live delivery starts the body once, a settlement at most once per remaining attempt |
| Settlements.RetryCompensationStarts | packages/bullmq-durable/src/run.ts:238-259 | After `retryCompensation` only compensation and failure-handler steps start, and none whose record had completed |
| Settlements.RetryCompensationStartsLive | packages/bullmq-durable/src/run.ts:238-259 | The same from scratch for every history that is never settled, with conditions on the events alone |
| Resets.RetryResets | packages/bullmq-durable/src/run.ts:211-227 | `retry`, cut short anywhere: the first write drops exactly the failed step records, the second forgets the failure, the third puts the run back on its way; everything else stays |
| Resets.RetryCompResets | packages/bullmq-durable/src/run.ts:238-256 | `retryCompensation`, cut short anywhere: exactly the failed compensation and handler records go, the outcome is forgotten, the trigger stays |
| Resets.RetryStartsAgain | packages/bullmq-durable/src/run.ts:211-227 | After `retry` a live delivery that is not cut short starts a formerly failed step from its first attempt as soon as the processor calls it |
| Resets.RetryRunsAgain | packages/bullmq-durable/src/run.ts:211-227 | And it does call one: if replaying the failed run met a failed step, the next such delivery starts the body of one again |
| Resets.RetryCompensationStartsAgain | packages/bullmq-durable/src/run.ts:238-256 | After `retryCompensation` a formerly failed compensation starts from its first attempt once those before it have settled |
| Resets.RetryCompensationTellsAgain | packages/bullmq-durable/src/run.ts:238-256 | And a formerly failed handler step as soon as the handler calls it |
| Resets.CancelEnds | packages/bullmq-durable/src/run.ts:266-277 | `cancel` ends every run that has not completed, keeps its records, and no later delivery changes it |
| Identities.IdentityFixed | packages/bullmq-durable/src/store/memory-store.ts:37-68 | Over every history a run keeps its identity, input and creation time, and its counter counts its deliveries |
| Parking.ParkedUntilDue | packages/bullmq-durable/src/execution/runtime.ts:288-296 | A delivery that parks the run, in any phase, is live and names the step it waits for: that step is running and due by the time the job is; a forward step leaves the run yielded, any other compensating |
| Parking.ParkedNoLonger | packages/bullmq-durable/src/execution/suspension.ts:74-82 | Nor does parking keep a run waiting too long: counted from the begin of the delivery, the job comes back no later than its step is due, and after a suspension by the body after exactly the time it named |
| Parking.SleepsAsAsked | packages/bullmq-durable/src/execution/step-executor.ts:447-499 | A sleep is due at its first call plus its delay, parks for just that long or for what is left of it, and otherwise ends at once |
| Progress.ParksAtFrontier | packages/bullmq-durable/src/execution/runtime.ts:288-296 | The awaited step is where replaying the stored run stops: the pending end of the forward route, the first unsettled compensation in order, or a step of the failure handler; for the last, if nothing the handler was told in that delivery came from a poll that had just run out |
| Progress.ParkedProceeds | packages/bullmq-durable/src/execution/step-executor.ts:213-229 | Any live delivery at or after the parking delay takes the awaited step to a higher attempt or settles it, unless the process dies; no step is parked on twice for one wake time. For handler steps under the same condition on the delivery that parked |
| Finishing.ParksFinitelyOften | packages/bullmq-durable/src/execution/runtime.ts:288-296 | From any state a run can reach: if no further delivery dies, the job comes back in time and retries and suspensions are bounded, some delivery reports something else than that the run is parked |
| Finishing.RunsEnd | packages/bullmq-durable/src/execution/runtime.ts:230-348 | If moreover no worker is fenced off and BullMQ has no attempts of its own left, the run ends |
| Progress.RetellsExactly | packages/bullmq-durable/src/execution/runtime.ts:436-469 | `onFailure` is told of the given-up compensations what a replay of their records tells it if and only if none of them was, in that delivery, a poll that ran out of attempts |
| Witnesses.HandlerTurnsAway | packages/bullmq-durable/src/execution/runtime.ts:383-410 | A concrete run outside that condition: the handler parks on one step, is told another error on the next delivery, parks on a second step and leaves the first where it was |
| Executors.SuspensionController.TakePendingResume | packages/bullmq-durable/src/execution/suspension.ts:45-49 | Hands over the recorded delay and clears it |
| Executors.SuspensionController.YieldToBullMQ | packages/bullmq-durable/src/execution/suspension.ts:74-82 | Keeps the least delay and unwinds; during settlement refuses and records nothing |
| Executors.SuspensionController.WaitOrYield | packages/bullmq-durable/src/execution/suspension.ts:55-67 | The split of waiting by mode and kind: yield, wait in process, or refuse to sleep |
| Executors.LeastDelayTaken | packages/bullmq-durable/src/execution/suspension.ts:78-80 | Of all yields of a tick the least delay is the one taken |
| Executors.TakenYieldIsDue | packages/bullmq-durable/src/execution/suspension.ts:74-82 | However far the clock moved before parking, the job is not due before the wake time of the step whose yield was taken |
| Executors.StepExecutor.Execute | packages/bullmq-durable/src/execution/step-executor.ts:126-167 | A step call of the executor object has the result and leaves the state of the step function |
| Executors.StepExecutor.BeginOrReplayWritableStep | packages/bullmq-durable/src/execution/step-executor.ts:177-230 | Begin or replay, as the specification function says, from every kind of record |
| Executors.StepExecutor.RunStepAttemptLoop | packages/bullmq-durable/src/execution/step-executor.ts:233-281 | The attempt loop refines the recursive specification and terminates |
| Executors.StepExecutor.HandleStepError | packages/bullmq-durable/src/execution/step-executor.ts:289-360 | Give up, record and yield, or hand back the delay, with the state the specification says |
| Executors.StepExecutor.SleepFor | packages/bullmq-durable/src/execution/step-executor.ts:447-499 | A sleep call, from every kind of record and in both modes |
| Runtimes.DurableRuntime.Run | packages/bullmq-durable/src/execution/runtime.ts:181-222 | A contended lock parks the job and changes nothing; otherwise the tick runs under the lock, which is free again before the job is parked |
| Runtimes.DurableRuntime.RunLocked | packages/bullmq-durable/src/execution/runtime.ts:225-258 | The locked part of a delivery, including the repeated outcome of an ended run and the fields it sets |
| Runtimes.DurableRuntime.Execute | packages/bullmq-durable/src/execution/runtime.ts:261-348 | Running the processor and persisting the outcome refines the specification |
| Runtimes.DurableRuntime.RunFailureSequence | packages/bullmq-durable/src/execution/runtime.ts:363-429 | The failure sequence refines the specification |
| Runtimes.DurableRuntime.RunRegistered | packages/bullmq-durable/src/execution/runtime.ts:436-469 | The rollback loop refines the recursive specification |
| Actions.DurableRun.Retry | packages/bullmq-durable/src/run.ts:211-230 | The write sequence of `retry`, cut short anywhere, and its refusals |
| Actions.DurableRun.RetryCompensation | packages/bullmq-durable/src/run.ts:238-259 | The write sequence of `retryCompensation`, cut short anywhere, and its refusals |
| Actions.DurableRun.Cancel | packages/bullmq-durable/src/run.ts:266-277 | Cancels exactly the runs that are neither completed nor cancelled |
| Values.CloneIdempotent | packages/bullmq-durable/src/utils/serialize.ts:62-65 | A value that has been through JSON once reads back unchanged for ever |
| Values.CloneFixesJson | packages/bullmq-durable/src/utils/serialize.ts:62-65 | The round trip leaves a value alone if and only if there is no date in it and nothing absent inside it |
| Values.ClonedParts | packages/bullmq-durable/src/utils/serialize.ts:62-65 | Part by part: places stay, an absent item becomes null, an absent field disappears, and what comes out is such a value |
| Phases.ReservedNamesCollide | packages/bullmq-durable/src/execution/phase.ts:11-15 | A forward step name can be mistaken for an internal record exactly when it carries a reserved prefix |
| Phases.StorageKeysFaithful | packages/bullmq-durable/src/execution/phase.ts:11-20 | For unreserved names, storage fields and (phase, name) pairs correspond one to one |
| Retries.ComputeBackoff | packages/bullmq-durable/src/utils/retry.ts:98-113 | The imperative computation gives the specified delay |
| Retries.ExponentialGrowth | packages/bullmq-durable/src/utils/retry.ts:98-113 | Without jitter exponential delays are the doubled delay up to the cap, and never shrink |
| Retries.JitterRange | packages/bullmq-durable/src/utils/retry.ts:98-113 | With jitter a delay lies between the floor of base times (1 - jitter) and the base |
| Retries.TotalWaitBounded | packages/bullmq-durable/src/utils/retry.ts:98-113 | A whole retry run waits at most one cap per retry |
| Policies.StepThenFallback | packages/bullmq-durable/src/utils/retry.ts:66-96 | Field by field: what the step asks for wins, what it leaves out comes from the fallback, what both leave out is the baseline; a flat delay or cap ranks below its own `backoff` and above the whole fallback |
| Policies.StepPolicy | packages/bullmq-durable/src/execution/step-executor.ts:307-308 | The policy of a step is its own, then the worker's |
| Policies.RollbackPolicy | packages/bullmq-durable/src/execution/runtime.ts:454-456 | The policy of a compensation is the one registered, else the worker's, else five exponential attempts from one second to thirty, completed from the worker's step policy |
| Policies.AttemptBudget | packages/bullmq-durable/src/execution/step-executor.ts:311-323 | A poll of a live delivery is unbounded if and only if neither the step nor the worker configures attempts; anything else has the attempts of the policy |
| Policies.FixedDelays | packages/bullmq-durable/src/utils/retry.ts:98-113 | A fixed delay without jitter is the same after every attempt, up to a cap that was asked for |
| Policies.JitterSpreads | packages/bullmq-durable/src/utils/retry.ts:98-113 | Jitter places the delay, rounded down, where the draw falls between its least value and the base |
| Locks.OneHolder | packages/bullmq-durable/src/store/memory-store.ts:232-257 | Over any history of acquire, renew, release and time, at most one token holds a live lease, and the store names it |
| Locks.OthersChangeNothing | packages/bullmq-durable/src/store/memory-store.ts:232-257 | No operation under another token ends or shortens a lease |
| Locks.NonHolderChangesNothing | packages/bullmq-durable/src/store/memory-store.ts:242-257 | Renewing or releasing a lock one does not hold changes nothing for anybody |
| Locks.FreeExactly | packages/bullmq-durable/src/store/memory-store.ts:232-257 | Over any history the lock is granted if and only if no other token has a live lease, for the whole time asked; it is renewed exactly by a live holder; and once the holder lets go anybody can have it |
| MemoryStores.ZombieIsFenced | packages/bullmq-durable/src/store/memory-store.ts:145-159 | A worker whose lock another has taken over cannot end the run; the holder can |
| MemoryStores.MemoryStateStore.TerminalTransition | packages/bullmq-durable/src/store/memory-store.ts:145-159 | Applied exactly when the run exists and no other live lock fences the token; otherwise nothing changes |
| MemoryStores.MemoryStateStore.InitInstance | packages/bullmq-durable/src/store/memory-store.ts:37-68 | Begin-tick: create, count the delivery, or return an ended run untouched |
| MemoryStores.MemoryStateStore.BeginStep | packages/bullmq-durable/src/store/memory-store.ts:163-188 | Step entry: missing, cancelled, existing, or created under the next number |
| MemoryStores.MemoryStateStore.UpdateStep | packages/bullmq-durable/src/store/memory-store.ts:209-215 | Merges a JSON copy of the patch into a step it has; an unknown run or step is left alone |
| MemoryStores.MemoryStateStore.ListActive | packages/bullmq-durable/src/store/memory-store.ts:273-280 | Exactly the queue's runs that have not ended, each once |
| MemoryStores.MemoryStateStore.CountTerminal | packages/bullmq-durable/src/store/memory-store.ts:320-326 | The number of runs of the queue in that status |
| MemoryStores.ClipWindow | packages/bullmq-durable/src/store/memory-store.ts:282-318 | A page is the stretch of the list that starts at the offset and is as long as asked for, or as there is |
| MemoryStores.MemoryStateStore.HeldLocks | packages/bullmq-durable/src/store/memory-store.ts:349-357 | Exactly those of the given ids whose lock is live |
| MemoryStores.MemoryStateStore.WipeQueue | packages/bullmq-durable/src/store/memory-store.ts:335-342 | Exactly the queue's runs and their locks are gone |
| MemoryStores.MemoryStateStore.RemoveInstances | packages/bullmq-durable/src/store/memory-store.ts:328-333 | Exactly the given runs and locks are gone, the others keep their order |
| Indexes.OpExactly | packages/bullmq-durable/src/store/redis-store.ts:91-187 | From agreeing stores, one operation leaves the Redis form and the records in agreement if and only if it is allowed: endings from non-terminal or the same status, removals and deliveries under the run's own queue, steps of known runs, step patches that erase nothing the step has |
| Indexes.HistoryAgrees | packages/bullmq-durable/src/store/redis-store.ts:91-187 | After every history of allowed operations the Redis hashes and index agree with the memory records |
| Indexes.IndexIsStatus | packages/bullmq-durable/src/store/redis-store.ts:91-187 | An id is in its queue's active set iff its run has not ended, and in bucket `s` iff it ended in `s` |
| IndexedRuns.EndingsAllowed | packages/bullmq-durable/src/execution/runtime.ts:261-348 | In every reachable state of a run that has not ended, every ending is allowed; and an operator's cancel is allowed if and only if the run has not failed |
| IndexedRuns.WakesAllowed | packages/bullmq-durable/src/execution/step-executor.ts:478-492 | In every reachable state the patch that ends a sleep is allowed, and marks the step completed and nothing else |
| IndexedRuns.EndedStays | packages/bullmq-durable/src/execution/runtime.ts:238-252 | Until an operator acts, no number of deliveries of an ended run, live or post-mortem, changes its record or starts a body |
| Indexes.CancelledFailureListedTwice | packages/bullmq-durable/src/run.ts:266-277 | Cancelling a failed run leaves it in two done buckets |
| Sorting.SortStable | packages/bullmq-durable/src/store/memory-store.ts:288-296 | Sorting keeps the order of entries with equal keys |
| Listings.ListingsAgree | packages/bullmq-durable/src/store/redis-store.ts:612-688 | With distinct ending times the two stores list a bucket in the same order, hence the same oldest, newest and page |
| Listings.StaleEndDiffers | packages/bullmq-durable/src/store/memory-store.ts:82-93 | An update that ends a run keeps a stale ending time in memory but not in Redis |
| RedisStores.RedisStateStore.BeginTick | packages/bullmq-durable/src/store/redis-store.ts:91-117 | A new run joins the active set and leaves no stale bucket entry; a known one is counted and re-indexed; an ended one is untouched |
| RedisStores.RedisStateStore.UpdateInstance | packages/bullmq-durable/src/store/redis-store.ts:130-154 | Patches known runs only, and moves the id between active set and buckets exactly on a change of status |
| RedisStores.RedisStateStore.TerminalTransition | packages/bullmq-durable/src/store/redis-store.ts:166-187 | Applied exactly when the memory store would apply it; hash and index then change together, else nothing changes |
| RedisStores.RedisStateStore.BeginStep | packages/bullmq-durable/src/store/redis-store.ts:194-224 | Missing, cancelled and existing steps change nothing; a new one gets the next number and a running record in one step |
| RedisStores.RedisStateStore.UpdateStep | packages/bullmq-durable/src/store/redis-store.ts:468-472 | Writes back the step with the patch laid over it, explicit undefined fields erasing theirs; an unknown step is left alone |
| RedisStores.RedisStateStore.RemoveInstances | packages/bullmq-durable/src/store/redis-store.ts:729-750 | Chunked removal equals removing the ids one by one |
| RedisStores.RedisStateStore.WipeQueue | packages/bullmq-durable/src/store/redis-store.ts:752-782 | The chunked drain terminates and removes everything the queue's index lists, and the index itself |
| Fields.EncodeInstanceFields | packages/bullmq-durable/src/store/redis-store.ts:892-927 | The flat pairs hold exactly the defined fields of the patch |
| Fields.PatchMerges | packages/bullmq-durable/src/store/redis-store.ts:892-971 | Writing an encoded patch and parsing equals merging its defined fields into the parsed instance |
| Fields.InstanceRoundTrip | packages/bullmq-durable/src/store/redis-store.ts:892-971 | Parsing an encoded instance gives it back if and only if it carries no 0.1.x counter |
| Text.ParsePrinted | packages/bullmq-durable/src/store/redis-store.ts:985-989 | A number printed in decimal parses back to itself |
| Layout.Layer | packages/bullmq-cockpit/client/src/features/flows/components/flow-graph.tsx:70-80 | Kahn's worklist: no node twice, nobody before its predecessors, columns one past the latest handled predecessor, unhandled exactly the nodes with an unhandled predecessor |
| Layout.LayersAreLongestPaths | packages/bullmq-cockpit/client/src/features/flows/components/flow-graph.tsx:70-80 | In an acyclic graph every node is handled exactly once, its column is the length of the longest path to it, and every edge goes to a later column |
| Layout.ComputeLayout | packages/bullmq-cockpit/client/src/features/flows/components/flow-graph.tsx:59-103 | Boxes do not overlap, stay inside the computed width and height, which are no larger than needed, and stand in their columns, centred and in the given order; longest-path columns for acyclic graphs |
| Pages.RecencyPageIsGlobal | packages/bullmq-cockpit/src/server/inspectors/durable-inspector.ts:195-245 | The merged newest-first page is the page of all queues' buckets while page times pageSize is within the cap; the single-queue pushdown gives the same page without a cap |
| Pages.GlobalPageMeans | packages/bullmq-cockpit/src/server/inspectors/durable-inspector.ts:222-245 | The page that listings are held against: every row of the queues asked for that the filter keeps, as often as they have it, in the order of field and direction, and of that the stretch asked for |
| Pages.MergedPageExactly | packages/bullmq-cockpit/src/server/inspectors/durable-inspector.ts:222-245 | With distinct sort keys and a page not past the end, the merged page is the page of all queues' rows if and only if no row beyond the first `need` of its bucket sorts before the end of the page; for every filter, field and direction, within the cap and past it |
| Pages.UntruncatedPageIsGlobal | packages/bullmq-cockpit/src/server/inspectors/durable-inspector.ts:224-244 | When no bucket is longer than what is fetched, the merged page is right for every filter, field and direction, ties included, and is not marked truncated |
| Pages.OldestPageIsGlobal | packages/bullmq-cockpit/src/server/inspectors/durable-inspector.ts:205-220 | The pushdown is right oldest-first when no two rows share an `updatedAt` |
| Pages.MergedOldestPageIsWrong | packages/bullmq-cockpit/src/server/inspectors/durable-inspector.ts:222-238 | A concrete listing outside that condition: oldest first over two queues it shows the oldest of the newest |
| Reapers.DurableReaper.ReapTerminal | packages/bullmq-durable/src/reaper.ts:88-110 | Removes only ended runs of its queue whose job is missing, keeps every run `queue:id` whose job `id` exists, returns the exact number, and takes at least min(d, 4 batches) of a bucket whose oldest d are dead |
| Reapers.DurableReaper.ReconcileActive | packages/bullmq-durable/src/reaper.ts:117-145 | Cancels exactly the active runs that are job-less, past the grace window and not carried by a 0.1.x job, and counts them; a run `queue:id` whose job `id` exists is unchanged |
| Reapers.JobIdNamed | packages/bullmq-durable/src/reaper.ts:51-56 | The job of a run `queue:id` is `id`; any other id is a job id as it is |
| Reapers.DurableReaper.OrphanNamed | packages/bullmq-durable/src/reaper.ts:117-160 | A run is an orphan exactly when its job is gone, it is unended, past the grace window and not carried |
| Reapers.DurableReaper.Kick | packages/bullmq-durable/src/reaper.ts:63-75 | A pass starts exactly when none is running and the throttle interval has passed |
| Reapers.BucketLeft | packages/bullmq-durable/src/reaper.ts:91-107 | A bucket after a removal is the old bucket without the removed entries |

## Left out

- Concurrency inside a tick (`Promise.all`, detached steps, `awaitQuiescence`): steps are sequential. Only the choice among several yields is covered, by `Executors.LeastDelayTaken`.
- Two live ticks of one run at once: `saveStep` and `updateInstance` are not fenced, so checkpoint claims are about one delivery at a time. A takeover shows only as the fenced terminal transition.
- Cancelling or removing a run, or an operator retry, in the middle of a tick: such events fall between deliveries.
- Store errors other than the process dying, and corrupted JSON except in `Fields.ParseInstance`.
- Processors that are not deterministic given their step results, or that change between deliveries. Of a caught error the name and message can be looked at, not its class or identity.
- Using one key for two different steps: excluded by `Obeys`; a key used twice for the same step is allowed except where `OnceEach` is required.
- A `catch` in the processor that swallows what the engine throws to stop it (a yield, a cancellation, the settlement's signal): only step errors can be caught. The source would go on, and could complete a run with a step still pending.
- Error stacks, codes and causes: an error is a name and a message.
- Duration strings, fractional milliseconds and floating point: delays are whole milliseconds, `Retries` computes over the reals, and `attempts: Infinity` is not represented.
- 0.1.x leftovers: global index keys, resume envelopes, legacy logs and the legacy parts of listings. The counter `resumeSeq` and the reaper's carrier guard are kept.
- Redis, ioredis and BullMQ themselves: a Lua script is one atomic method, `moveToDelayed` a due time, job existence a predicate that does not change during a reaper pass.
- Redis lock scripts: their effect on live locks is that of `Locks.Acquire`, `Renew` and `Release`; only the memory store's lock methods are written out.
- The order of bucket entries with equal scores, which Redis takes from the bytes of the ids.
- A status text outside the seven known names, which `parseInstance` passes through.
- Executors and Runtimes work on the one record of their run; that the stores' methods have the same effect on it is the contract of `MemoryStores.MemoryStateStore`, stated with the same `Record` functions.
- Listings.ListingsAgree: states the order only for distinct ending times, because ties are broken by insertion order in memory and by id in Redis.
- Guarantees.SagaGaveUp: excludes a `retryCompensation` that dies between its writes, after which the claim is false: `Guarantees.RetryCompGivesUp` is the exact condition and `Witnesses.GivenUpForgotten` a run outside it.
- Progress.ParkedProceeds: for a step of the failure handler it assumes that the delivery that parked met no compensation, and no handler call whose error is looked at, that ran out of attempts as a poll; `Witnesses.HandlerTurnsAway` is a run where one did.
- Finishing.ParksFinitelyOften: crashes come before the turns it speaks of, and it names no number of deliveries; every turn is faithful and, like `Progress.ParkedProceeds`, one that parks on a handler step leaves the handler to be told the same again.
- Pages.MergedPageExactly: assumes distinct sort keys, because which of two equal rows is shown depends on the order in which queues are merged.
- Budgets.RetryBudget: bounds starts between two operator retries, because `retry` removes failed records and a removed step starts again from attempt 1.
- Layout.Layer: requires distinct node ids; the source does not check them, and a repeated id would be handled twice.
- Derived listings for running, stuck and mixed views, events, logs, summaries, handler resolution, worker options, NestJS, adapters, the HTTP layer and the rest of the React client: wiring and presentation.
