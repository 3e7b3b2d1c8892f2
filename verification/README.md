# Taskferry: a verified model

Taskferry hands work to outside engines, but some of it Taskferry executes itself. This project models
that part in Dafny and proves what it promises: the local execution backends as step systems, the retry
computation in all its spellings, the log streams, the bounded id index, the pull consumers and the
local scheduler.

`dafny verify dfyconfig.toml` checks everything.

## How it is organised

| file | what it models |
|---|---|
| `Executions.dfy` | lifecycle states, the table of legal transitions, outcomes and results |
| `Retry.dfy` | retry policies, delay arithmetic, the supervised run of a function, the thread and child loops |
| `Correlations.dfy`, `Envelope.dfy` | correlation headers, the wire envelope, the worker that executes one |
| `Dispatchers.dfy` | the Celery and Procrastinate dispatchers with an engine that redelivers |
| `History.dfy` | the bounded history of the thread and process backends |
| `ThreadBackend.dfy`, `ThreadRuns.dfy` | the thread backend: its locked sections, and all interleavings of them |
| `ProcessBackend.dfy`, `ProcessRuns.dfy` | the same for the process backend |
| `SubprocessBackend.dfy` | job records that follow a child process |
| `Hooks.dfy`, `InlineBackend.dfy` | the hook chain, and the inline backend with its retry loop and history |
| `Ports.dfy` | the generic polling wait |
| `Tracking.dfy` | the bounded index of engine ids |
| `Lines.dfy`, `CloudRunLogs.dfy` | line assembly over chunks; the watermark-and-seen-set log poller |
| `Consumers.dfy`, `QueueRuns.dfy` | the SQS and Service Bus loops; the delivery protocol around them |
| `LocalScheduler.dfy` | the in-process scheduler |

Concurrency is modelled as step systems. Every `with self._lock` section that writes or decides is one
function from table to table, and one method of a class over live entries that is proved against that function; a
section that only looks an entry up has no function of its own. Every operation on a future and every call of a
task function is a step of its own. A run is any sequence of enabled steps, over any number of tasks, workers,
cancellers and observers. Times and outcomes are parameters.

## Findings

Where the code does not quite do what its documentation says, the model follows the code, a lemma gives a
concrete case, and the exact condition is proved.

- Thread backend: a recorded CANCELLED can turn into SUCCEEDED or FAILED (`GapOverwritesCancel`). This happens
  exactly when the cancel was recorded between the worker's look for a cancellation and its move to RUNNING
  (`RunObeysTable`).
- Thread backend: a wait can end while the entry is still QUEUED (`WaitCanSeeQueued`). With the future over, the
  entry is not terminal exactly while the future was taken down and no canceller that took it down has recorded
  that yet (`NoStuckExecution`).
- Process backend: a wait can end before the done-callback has run and see RUNNING (`WaitCanSeeRunning`). With the
  future over, the entry is terminal exactly if the callback has run, or the future was taken down and a canceller
  has recorded that (`SettledMeansTerminal`).
- Process backend: before the callback has run, `result` answers that the execution was cancelled, also for a task
  that succeeded (`ResultCanDenySuccess`). With the future over, the answer is right exactly if the callback has run,
  the future was taken down, or the task's own result looks like the placeholder (`ResultIsRight`).
- Thread and process history: with a history of zero no entry is ever dropped (`ZeroHistoryKeepsTheEntry`), so the
  bound holds exactly for a positive history or before the first submission (`RingSize`). The inline backend keeps
  nothing at zero.
- Envelope: the retry owner does not travel, so an application-owned policy is retried by the engine
  (`LostOwnerIsRetried`). A name that does not resolve is final at once in the thread and process backends, but the
  dispatchers ask the policy about it, so the engine redelivers it (`UnresolvedIsRedelivered`). Delivery and the
  in-process backends differ exactly if the policy asks for more than one attempt and, for a name that resolves, it
  is application-owned and its filter matches the first failure, or, for one that does not, it has an owner and its
  filter matches that error (`EngineRefinesLoop`).
- Procrastinate: without a job context every delivery counts as the first (`WithoutContextExample`), so a matching
  failure is requeued every time, for every enabled policy and no other (`WithoutContextNeverGivesUp`).
- Subprocess: a cancel reports CANCELLED even for a child that had already exited with success
  (`CancelAfterSuccess`), and does so exactly if the job was not seen to be over before (`WhatSettlesAJob`,
  `TerminalSnapshotIsFinal`).
- Cloud Run: an entry that shows up late is never yielded (`LateEntryExample`); a poll picks up an entry exactly if
  its time is not below the watermark (`PickedUpIffNotBelow`), and the watermark never goes back
  (`PassedIsNotYielded`).
- Cloud Run: an entry without an insert id is yielded again by exactly those polls whose watermark it is not below,
  and with text it keeps the stream open as long, past its timeout too (`UnidentifiedKeepsStreamOpen`); if nothing
  newer arrives, that is for ever (`UnidentifiedExample`).
- Cloud Run: the stream looks at the execution after it has listed the log, and does not list again, so the last
  lines can be missing (`MissedExample`); none is missing exactly if nothing with text arrived in between
  (`MissedAtTheEnd`).
- SQS: the count returned includes deletes under a receipt that had lapsed (`StaleDeleteIsCounted`), and is the number
  of removals exactly if there were none of these (`CountIsRemovals`).
- Scheduler: a due schedule whose target raises a provider error stays due and ends the sweep (`BlockedExample`). A sweep
  fires exactly the due schedules that do not raise and have no such schedule before them (`FiredIffNotBlocked`), so
  as long as it raises, nothing created after it ever fires (`BlockedNeverFires`).
- The diagram in `execution.py` shows fewer transitions than the table beside it; the model uses the table.

## Model

| member | source | states |
|---|---|---|
| Executions.TransitionsInPlain | packages/taskferry/src/taskferry/execution.py:85-125 | every edge of the lifecycle by itself, and which four states are terminal |
| Executions.ReportInPlain | packages/taskferry/src/taskferry/execution.py:144-158 | a returned value is reported as SUCCEEDED with it, an error as FAILED with its message, or its type's name if it has none, and its type's qualified name |
| Retry.DelayIsExact | packages/taskferry/src/taskferry/retry.py:116-135 | each delay exactly: what the backoff gives for that attempt, or the ceiling where that is smaller |
| Retry.MatchesInPlain | packages/taskferry/src/taskferry/retry.py:145-150 | the filter matches exactly the errors with no excluded name and, if any are asked for, an included one |
| Retry.DelayMonotoneAndCapped | packages/taskferry/src/taskferry/retry.py:116-135 | delays are never negative, never shrink as attempts grow, and never pass the ceiling |
| Retry.TotalWaitCapped | packages/taskferry/src/taskferry/retry.py:116-135 | the total wait before attempt n is at most n-1 ceilings |
| Retry.TotalWaitClosedForm | packages/taskferry/src/taskferry/retry.py:124-132 | without a ceiling the total wait is 0, n-1, n(n-1)/2 or 2^(n-1)-1 initial delays, by backoff |
| Retry.RunIsExactly | packages/taskferry/src/taskferry/backends/inline.py:164-173 | the supervised run is the only one that retries every attempt before its last and not the last, waiting each attempt's own delay |
| Retry.RunInPlain | packages/taskferry/src/taskferry/retry.py:137-150 | a run ends at the first attempt that returns, raises what the filter does not match, is the last one granted, or is not the backend's to retry |
| Retry.AlwaysRaising | packages/taskferry/src/taskferry/retry.py:107-150 | a function that always raises a matching error is called exactly as often as the policy says, once if the backend does not own the retry |
| Retry.RunIsBounded | packages/taskferry/src/taskferry/retry.py:107-114 | there is at least one attempt and at most as many as the engine attempts; the time waited is the total wait before the last attempt |
| Retry.CallWithRetriesThread | packages/taskferry/src/taskferry/backends/thread.py:174-206 | the worker gives the supervised run's outcome, number of attempts and sleeps, or the error of a name that does not resolve as a first and last attempt |
| Retry.ExecuteInChild | packages/taskferry/src/taskferry/backends/process.py:84-99 | so does the child process, whose loop counts before it sleeps; without a call if the name does not resolve |
| Retry.SleepsAddUp | packages/taskferry/src/taskferry/backends/thread.py:198-200 | the sleeps of a run are all positive and add up to the total wait before its last attempt |
| InlineBackend.InlineExecutionBackend.CallWithRetries | packages/taskferry/src/taskferry/backends/inline.py:153-173 | so does the inline loop, which tells the hooks of each re-attempt before sleeping |
| Correlations.HeadersRoundTrip | packages/taskferry/src/taskferry/core/correlation.py:52-77 | headers give a correlation back if and only if its ids are nonempty and its trace holds only trace fields |
| Correlations.HeadersInPlain | packages/taskferry/src/taskferry/core/correlation.py:52-60 | the headers by name: the two ids under their own, the trace fields as they are, and nothing else |
| Correlations.ReadingHeadersInPlain | packages/taskferry/src/taskferry/core/correlation.py:62-77 | what any headers are read as: a fresh flow without a usable id, else that id, a nonempty cause and the trace fields |
| Envelope.EverythingTravels | packages/taskferry/src/taskferry/envelope.py:73-90 | the envelope carries every field of the spec under version 2, and a retry object exactly if more than one attempt is asked for |
| Envelope.RefusalsAreExact | packages/taskferry/src/taskferry/envelope.py:93-113 | which payloads are refused, and as what; an accepted one asks for its own task and arguments |
| Envelope.RetryObjectInPlain | packages/taskferry/src/taskferry/envelope.py:141-155 | what any retry object decodes to, key by key, with missing keys and nulls; and exactly when it does not decode |
| Envelope.DecodeOfEncode | packages/taskferry/src/taskferry/envelope.py:122-155 | a built envelope always decodes, to the submitted policy up to jitter and owner, or to no retry when it was disabled |
| Envelope.DecodedPolicyDecides | packages/taskferry/src/taskferry/envelope.py:122-155 | the decoded policy decides a retry differently exactly for an application-owned policy with an attempt left and a matching error |
| Envelope.WorkerRunsWhatWasSubmitted | packages/taskferry/src/taskferry/envelope.py:73-119 | a worker calls the submitted name with the submitted arguments, and under the submitted correlation exactly when that is portable |
| Envelope.Worker.ExecuteEnvelope | packages/taskferry/src/taskferry/envelope.py:158-185 | one call, made while the requested correlation is the ambient one, or the right error and no call; the ambient correlation is restored whether the call returns or raises |
| Dispatchers.DeliveriesFollowDecodedPolicy | packages/taskferry-procrastinate/src/taskferry_procrastinate/worker.py:107-148 | all deliveries through either dispatcher together are the supervised run of the decoded policy, over what the message makes of the worker: a call, or the error that refuses it |
| Dispatchers.EngineRefinesLoop | packages/taskferry-celery/src/taskferry_celery/worker.py:98-111 | for every policy, name and script of outcomes, delivery gives the attempts, delays and outcome of an in-process execution, except exactly when the lost owner matters, or the policy would retry the failure to resolve the name |
| Dispatchers.LostOwnerIsRetried | packages/taskferry/src/taskferry/envelope.py:129-138 | an application-owned policy of three attempts: one attempt in-process, three deliveries |
| Dispatchers.UnresolvedIsRedelivered | packages/taskferry-celery/src/taskferry_celery/worker.py:100-111 | a name that does not resolve, under a policy of three attempts: final at once in-process, three deliveries |
| Dispatchers.WithoutCountIsFirst | packages/taskferry-celery/src/taskferry_celery/worker.py:102-103 | a Celery delivery that does not tell its retries is decided as the first |
| Dispatchers.WithoutContextNeverGivesUp | packages/taskferry-procrastinate/src/taskferry_procrastinate/worker.py:120-124 | without a job context a failure is requeued every time, with the same delay, exactly if the policy is enabled and its filter matches |
| Dispatchers.WithoutContextExample | packages/taskferry-procrastinate/src/taskferry_procrastinate/worker.py:120-124 | the third delivery under a policy of three attempts fails with a job context, and is requeued without one |
| History.RememberLocked | packages/taskferry/src/taskferry/backends/thread.py:336-341 | the eviction loop keeps the newest ids and drops the entries of the others, but never that of the id being added |
| History.KeptInPlain | packages/taskferry/src/taskferry/backends/thread.py:336-341 | what is kept of an order is its last ids, as many as the history allows, in their order |
| History.RegisterKeepsRing | packages/taskferry/src/taskferry/backends/process.py:275-280 | registering a fresh id keeps table and order those of the last submissions |
| History.RingSize | packages/taskferry/src/taskferry/backends/thread.py:336-341 | the table is bounded by the history if and only if the history is positive or nothing was submitted |
| History.ZeroHistoryKeepsTheEntry | packages/taskferry/src/taskferry/backends/thread.py:336-341 | at history zero a registered entry stays, with an empty order |
| ThreadBackend.ThreadTaskBackend.RegisterLocked | packages/taskferry/src/taskferry/backends/thread.py:151-154 | a submission adds a fresh QUEUED entry and evicts the oldest |
| ThreadBackend.ThreadTaskBackend.Transition | packages/taskferry/src/taskferry/backends/thread.py:234-239 | moves a kept entry unless it is CANCELLED, and changes nothing else |
| ThreadBackend.ThreadTaskBackend.IsCancelled | packages/taskferry/src/taskferry/backends/thread.py:241-244 | an entry counts as cancelled when it is CANCELLED or gone |
| ThreadBackend.ThreadTaskBackend.Finish | packages/taskferry/src/taskferry/backends/thread.py:246-267 | records state, attempt and result of a kept entry, whatever its state was |
| ThreadBackend.ThreadTaskBackend.CancelEnter | packages/taskferry/src/taskferry/backends/thread.py:317-323 | first half of a cancel: unknown, already terminal, or to be tried |
| ThreadBackend.ThreadTaskBackend.CancelCommit | packages/taskferry/src/taskferry/backends/thread.py:328-334 | second half: CANCELLED if the future was stopped or the entry is still QUEUED |
| ThreadBackend.ThreadTaskBackend.ResultAfterWait | packages/taskferry/src/taskferry/backends/thread.py:288-293 | the recorded result, or the cancelled placeholder when there is none |
| ThreadRuns.StepKeepsInv | packages/taskferry/src/taskferry/backends/thread.py:159-334 | every step of every submitter, worker and canceller keeps table, futures and workers in agreement |
| ThreadRuns.StepObeysTable | packages/taskferry/src/taskferry/execution.py:101-125 | one step changes a kept entry along the table, except exactly a finish after a cancel in the gap; a recorded outcome is never replaced |
| ThreadRuns.RunObeysTable | packages/taskferry/src/taskferry/backends/thread.py:167-170 | over every interleaving, the only changes outside the table are finishes of a task for which an earlier cancel was recorded between its worker's check and its move to RUNNING |
| ThreadRuns.RecordedIsFinal | packages/taskferry/src/taskferry/backends/thread.py:260-267 | SUCCEEDED and FAILED, with attempt and result, stay for as long as the entry is kept |
| ThreadRuns.CancelledIsNeverCalled | packages/taskferry/src/taskferry/backends/thread.py:166-168 | a cancel recorded before the worker's check means the function is never called |
| ThreadRuns.EvictedIsNeverCalled | packages/taskferry/src/taskferry/backends/thread.py:160-172 | a task whose entry is evicted before its worker has read it back is never called |
| ThreadRuns.CancelGoesOnIff | packages/taskferry/src/taskferry/backends/thread.py:319-327 | a cancel goes beyond its first look exactly for a kept entry that is not terminal; else it changes nothing |
| ThreadRuns.NoStuckExecution | packages/taskferry/src/taskferry/backends/thread.py:286-334 | over every interleaving: with a kept entry's future over, the entry is not terminal exactly while the future is down and no canceller that took it down has recorded that; a terminal entry says what was recorded, and `result` answers that, or the placeholder exactly for CANCELLED |
| ThreadRuns.RecordedRun | packages/taskferry/src/taskferry/backends/thread.py:174-206 | over every interleaving, what a finished entry records is the in-process execution of its policy over what the calls did, or the error of a name that did not resolve |
| ThreadRuns.FinishedInPlain | packages/taskferry/src/taskferry/backends/thread.py:246-293 | over every interleaving: a finished entry is SUCCEEDED with the value the last call returned, or FAILED with what it raised, and `result` answers just that |
| ThreadRuns.CancelledInPlain | packages/taskferry/src/taskferry/backends/thread.py:288-293 | over every interleaving: for an entry with nothing finished, `result` answers that the execution was cancelled |
| ThreadRuns.UndisturbedRun | packages/taskferry/src/taskferry/backends/thread.py:159-206 | for every policy and script some interleaving makes all the calls of the supervised run and records the last |
| ThreadRuns.UnresolvedRun | packages/taskferry/src/taskferry/backends/thread.py:174-183 | a name that does not resolve can end as FAILED at the first attempt, without a call |
| ThreadRuns.CancelledRun | packages/taskferry/src/taskferry/backends/thread.py:327-334 | a task that waits can end as CANCELLED, without a call |
| ThreadRuns.CallsAreBounded | packages/taskferry/src/taskferry/backends/thread.py:196-202 | at no moment of any run has a function been called more often than its policy grants |
| ThreadRuns.HistoryRing | packages/taskferry/src/taskferry/backends/thread.py:336-341 | after any run the order is the last submissions, and the table holds exactly those, or everything at history zero |
| ThreadRuns.GapOverwritesCancel | packages/taskferry/src/taskferry/backends/thread.py:264-267 | a reachable state in which a finish turns CANCELLED into SUCCEEDED |
| ThreadRuns.WaitCanSeeQueued | packages/taskferry/src/taskferry/backends/thread.py:327-333 | a reachable state in which the future is over and the entry still QUEUED |
| ProcessBackend.ProcessTaskBackend.RegisterLocked | packages/taskferry/src/taskferry/backends/process.py:170-173 | a submission adds a fresh QUEUED entry and evicts the oldest |
| ProcessBackend.ProcessTaskBackend.Settle | packages/taskferry/src/taskferry/backends/process.py:190-209 | the callback records CANCELLED, or the outcome with its result, in a kept entry |
| ProcessBackend.ProcessTaskBackend.SetState | packages/taskferry/src/taskferry/backends/process.py:217-222 | sets the state of a kept entry and nothing else |
| ProcessBackend.ProcessTaskBackend.MarkRunning | packages/taskferry/src/taskferry/backends/process.py:239-243 | an entry seen running moves from QUEUED to RUNNING; an evicted one changes outside the table only |
| ProcessBackend.ProcessTaskBackend.ResultAfterWait | packages/taskferry/src/taskferry/backends/process.py:258-263 | the recorded result, or the cancelled placeholder when there is none |
| ProcessRuns.StepKeepsInv | packages/taskferry/src/taskferry/backends/process.py:156-273 | every step of submitters, pool, observers and cancellers keeps table and futures in agreement |
| ProcessRuns.RunObeysTable | packages/taskferry/src/taskferry/execution.py:101-125 | over every interleaving each change of a kept entry is in the table, with no exception, and terminal entries do not change |
| ProcessRuns.TerminalIsFinal | packages/taskferry/src/taskferry/backends/process.py:190-222 | SUCCEEDED, FAILED and CANCELLED stay for as long as the entry is kept |
| ProcessRuns.SettledMeansTerminal | packages/taskferry/src/taskferry/backends/process.py:190-209 | over every interleaving: with the future over, a kept entry is terminal exactly when the callback has run, or the future was taken down and a canceller has recorded that; it then says what the future holds |
| ProcessRuns.SettledInPlain | packages/taskferry/src/taskferry/backends/process.py:190-263 | over every interleaving: a settled entry is SUCCEEDED with the child's value, FAILED with its error, or CANCELLED, and `result` answers just that |
| ProcessRuns.UndisturbedRun | packages/taskferry/src/taskferry/backends/process.py:156-209 | for every outcome of the child some interleaving records it |
| ProcessRuns.CancelledRun | packages/taskferry/src/taskferry/backends/process.py:265-273 | a task that waits can end as CANCELLED |
| ProcessRuns.BrokenPoolFails | packages/taskferry/src/taskferry/backends/process.py:195-209 | a pool that breaks makes every task that has not reported FAILED |
| ProcessRuns.CancelGoesOnIff | packages/taskferry/src/taskferry/backends/process.py:265-270 | a cancel of a kept entry goes beyond its first look exactly if that is not terminal |
| ProcessRuns.CancelMeaning | packages/taskferry/src/taskferry/backends/process.py:217-273 | a kept entry is CANCELLED exactly if a canceller that took its future down has recorded that, or the callback has |
| ProcessRuns.TerminalMeansOver | packages/taskferry/src/taskferry/backends/process.py:265-273 | over every interleaving, no kept entry is terminal while its future is open |
| ProcessRuns.HistoryRing | packages/taskferry/src/taskferry/backends/process.py:275-280 | after any run the table holds exactly the last submissions, or everything at history zero |
| ProcessRuns.WaitCanSeeRunning | packages/taskferry/src/taskferry/backends/process.py:245-256 | a reachable state in which the future is done and the entry still RUNNING |
| ProcessRuns.ResultIsRight | packages/taskferry/src/taskferry/backends/process.py:258-263 | over every interleaving: with the future over, `result` answers what the future holds exactly if the callback has run, the future was taken down, or the two look the same |
| ProcessRuns.ResultCanDenySuccess | packages/taskferry/src/taskferry/backends/process.py:258-263 | a reachable state in which the task has succeeded and `result` answers that it was cancelled |
| SubprocessBackend.Record.Refresh | packages/taskferry/src/taskferry/backends/subprocess.py:205-223 | recomputes a job from the child's real state, stopping it if the budget is spent |
| SubprocessBackend.Record.Cancel | packages/taskferry/src/taskferry/backends/subprocess.py:276-284 | stops a living child and settles the job as cancelled |
| SubprocessBackend.Record.Stop | packages/taskferry/src/taskferry/backends/subprocess.py:286-295 | leaves the child dead, with its own code if it had one |
| SubprocessBackend.Record.Wait | packages/taskferry/src/taskferry/backends/subprocess.py:257-269 | returns a terminal snapshot, or fails after a look that was not terminal with the deadline passed |
| SubprocessBackend.RunIsConsistent | packages/taskferry/src/taskferry/backends/subprocess.py:205-255 | over every run a job is RUNNING with nothing recorded until it is over; then the child is dead, the exit code is its own, each state has its exact reason, TIMED_OUT means the budget was exceeded, and the error is missing exactly for SUCCEEDED |
| SubprocessBackend.TerminalSnapshotIsFinal | packages/taskferry/src/taskferry/backends/subprocess.py:207-208 | the first terminal snapshot never changes |
| SubprocessBackend.WhatSettlesAJob | packages/taskferry/src/taskferry/backends/subprocess.py:210-284 | a look settles a job exactly if the child is dead or the time is later than start plus budget, and else changes nothing; a cancel always does, as CANCELLED |
| SubprocessBackend.LooksInTime | packages/taskferry/src/taskferry/backends/subprocess.py:205-218 | with nothing but looks within the budget the job is RUNNING and its child alive |
| SubprocessBackend.FirstLateLook | packages/taskferry/src/taskferry/backends/subprocess.py:212-255 | the first look later than start plus budget makes it TIMED_OUT for good, with the code of the stopped child |
| SubprocessBackend.CancelOfLivingChild | packages/taskferry/src/taskferry/backends/subprocess.py:276-295 | a cancel of a living child makes it CANCELLED for good, with the code of the stopped child |
| SubprocessBackend.ExitOfItsOwn | packages/taskferry/src/taskferry/backends/subprocess.py:205-231 | a child that exits first is reported by its own code at the next look, however late |
| SubprocessBackend.CancelAfterSuccess | packages/taskferry/src/taskferry/backends/subprocess.py:276-284 | a child that exits with code 0 and is then cancelled is reported as CANCELLED |
| SubprocessBackend.WaitIsARun | packages/taskferry/src/taskferry/backends/subprocess.py:260-269 | a wait is the run of its looks, each after what the child did before it, so all the above holds of it |
| Hooks.HookChain.Dispatch | packages/taskferry/src/taskferry/hooks.py:163-171 | every hook with a handler gets the event, whatever other hooks raise, and exactly the raising ones are reported |
| Hooks.VisibleInPlain | packages/taskferry/src/taskferry/hooks.py:163-171 | a hook sees each event of a trace exactly if it has a handler for it and as often as it happens; with handlers for everything, the whole trace |
| InlineBackend.InlineExecutionBackend.Submit | packages/taskferry/src/taskferry/ports.py:232-241 | every hook sees the whole trace, as far as it has handlers; the execution returned is terminal, reports what the last attempt returned or raised, and is remembered |
| InlineBackend.InlineExecutionBackend.SubmitInner | packages/taskferry/src/taskferry/backends/inline.py:113-151 | execution, result and execute-side events of one submission |
| InlineBackend.TraceOrder | packages/taskferry/src/taskferry/backends/inline.py:113-173 | submit-side events enclose execute-side ones, with one re-attempt event less than the attempt number returned, and success or failure as the last call |
| InlineBackend.InlineExecutionBackend.Remember | packages/taskferry/src/taskferry/backends/inline.py:198-208 | the three structures drop the same oldest ids; a history of zero keeps nothing |
| InlineBackend.HistoryIsARing | packages/taskferry/src/taskferry/backends/inline.py:198-208 | after any submissions with fresh ids the three structures hold the same last ids in order, each result that of its execution, within the bound |
| InlineBackend.KeepsWhatWasReturned | packages/taskferry/src/taskferry/backends/inline.py:198-208 | after any submissions with fresh ids, what is kept under an id is the execution its own submission returned |
| Ports.Wait | packages/taskferry/src/taskferry/ports.py:213-229 | ends within ceil(timeout/0.1)+1 polls, returns only a terminal snapshot, and gives up only after a poll that was not terminal with the deadline passed |
| Tracking.ExternalIdIndex.Remember | packages/taskferry/src/taskferry/tracking.py:80-88 | the pairing becomes the most recent one and the least recent are evicted beyond the capacity |
| Tracking.ExternalIdIndex.Resolve | packages/taskferry/src/taskferry/tracking.py:90-103 | a known pairing is answered and becomes the most recent; else the id itself if recognised |
| Tracking.ExternalIdIndex.Forget | packages/taskferry/src/taskferry/tracking.py:105-108 | drops one pairing and keeps the order of the others |
| Tracking.RunIsValid | packages/taskferry/src/taskferry/tracking.py:80-112 | the capacity is never exceeded and no id is held twice |
| Tracking.SmallerIsIncluded | packages/taskferry/src/taskferry/tracking.py:80-108 | for any run, an index of smaller capacity holds, in order and with equal values, all but at most C-c pairs of a larger one |
| Tracking.ByLastTouchIsPlain | packages/taskferry/src/taskferry/tracking.py:80-112 | the list of all pairs by last touch is the mapping of an unbounded index |
| Tracking.ByLastTouchIsAged | packages/taskferry/src/taskferry/tracking.py:80-103 | and it is in the order of the last touches, counted over the events |
| Tracking.SurvivorsAreMostRecent | packages/taskferry/src/taskferry/tracking.py:87-99 | the bounded index is the most recent part of that list, where a hit is a touch and a miss is not |
| Tracking.EvictedIsLeastRecent | packages/taskferry/src/taskferry/tracking.py:87-99 | after any run, every key that was lost was last touched before every key that is held |
| Tracking.HitIsATouch | packages/taskferry/src/taskferry/tracking.py:96-103 | after any run, a hit makes the pair with the value last remembered the most recent and keeps the others in order; a miss changes nothing |
| Tracking.ResolveNeverLies | packages/taskferry/src/taskferry/tracking.py:90-103 | after any run a resolution is the last id remembered for a surviving key, else the key itself if recognised, else nothing |
| Tracking.FullBeforeDropping | packages/taskferry/src/taskferry/tracking.py:87-88 | without forgets nothing is dropped before the index is full |
| Lines.SplitAppend | packages/taskferry-jobs/src/taskferry_jobs/kubernetes.py:456-461 | only the last piece of a split meets later text |
| Lines.IterLines | packages/taskferry-jobs/src/taskferry_jobs/kubernetes.py:446-467 | for every chunking, the lines of the whole text |
| Lines.StreamLogs | packages/taskferry/src/taskferry/backends/subprocess.py:338-361 | when the follower stops, by end or by deadline, it has yielded the lines of the text read so far; before that, the complete ones |
| Lines.TextReadInPlain | packages/taskferry/src/taskferry/backends/subprocess.py:338-361 | the text read is every chunk met and what was written last before the job was over, in order |
| Lines.LinesGiveTextBack | packages/taskferry-jobs/src/taskferry_jobs/kubernetes.py:446-451 | joining the lines gives the text back up to one final newline, and no line holds a newline |
| Lines.WrittenLinesAreReadBack | packages/taskferry/src/taskferry/backends/subprocess.py:313-325 | lines written with a newline each are read back as the same lines |
| CloudRunLogs.ReadPage | packages/taskferry-cloudrun/src/taskferry_cloudrun/backend.py:471-484 | one page goes through the seen-set entry by entry |
| CloudRunLogs.StreamLogs | packages/taskferry-cloudrun/src/taskferry_cloudrun/backend.py:450-490 | the stream yields what its polls add up to, and stops at the first poll that fails, or yields no text when there is no following, the execution is over or the time is up; at no other |
| CloudRunLogs.EndsInPlain | packages/taskferry-cloudrun/src/taskferry_cloudrun/backend.py:485-489 | when a poll ends the stream, by what it yields, `follow`, the execution and the deadline |
| CloudRunLogs.ExactlyOnceInOrder | packages/taskferry-cloudrun/src/taskferry_cloudrun/backend.py:450-490 | entries arriving in time order with distinct ids are yielded exactly once, in order, for any grouping into polls, and all up to the watermark are in the seen-set |
| CloudRunLogs.WatermarkNeverGoesBack | packages/taskferry-cloudrun/src/taskferry_cloudrun/backend.py:478-480 | with answers in time order the watermark never goes back |
| CloudRunLogs.WatermarkIsTheMicrosecond | packages/taskferry-cloudrun/src/taskferry_cloudrun/backend.py:478-480 | the watermark is the microsecond of the last entry taken |
| CloudRunLogs.PickedUpIffNotBelow | packages/taskferry-cloudrun/src/taskferry_cloudrun/backend.py:453-477 | a poll picks up a new entry exactly when its time is not below the watermark |
| CloudRunLogs.LateEntryIsLost | packages/taskferry-cloudrun/src/taskferry_cloudrun/backend.py:453-477 | an entry that shows up below the watermark is never picked up by any number of further polls |
| CloudRunLogs.PassedIsNotYielded | packages/taskferry-cloudrun/src/taskferry_cloudrun/backend.py:453-477 | with or without an insert id, an entry that the watermark has passed is not yielded by any later poll |
| CloudRunLogs.LateEntryExample | packages/taskferry-cloudrun/src/taskferry_cloudrun/backend.py:453-477 | a stream of two polls that ends without the older entry the second one holds |
| CloudRunLogs.UnidentifiedKeepsStreamOpen | packages/taskferry-cloudrun/src/taskferry_cloudrun/backend.py:472-486 | an entry without insert id is yielded, again and again, by exactly those polls whose watermark it is not below; with text, none of them ends the stream |
| CloudRunLogs.UnidentifiedExample | packages/taskferry-cloudrun/src/taskferry_cloudrun/backend.py:472-486 | such an entry alone in the log of an execution that is over: every poll yields it once more and none ends the stream |
| CloudRunLogs.MissedAtTheEnd | packages/taskferry-cloudrun/src/taskferry_cloudrun/backend.py:483-490 | with entries in time order and distinct ids: of those that are there when the execution is seen to be over, the stream has yielded those of its last listing, so all of them exactly if what arrived in between has no text |
| CloudRunLogs.MissedExample | packages/taskferry-cloudrun/src/taskferry_cloudrun/backend.py:483-490 | an entry that arrives between the listing and the look at the execution is never yielded |
| Consumers.EveryDeliveryIsJudged | packages/taskferry-sqs/src/taskferry_sqs/consumer.py:89-97 | succeeding and failing deliveries share out all of them |
| Consumers.ProcessEvent | packages/taskferry-sqs/src/taskferry_sqs/consumer.py:70-97 | reports the ids of exactly the failing records, in order |
| Consumers.PollForever | packages/taskferry-sqs/src/taskferry_sqs/consumer.py:129-153 | requests a delete for exactly the deliveries whose task returned, and counts those |
| Consumers.ReceiveForever | packages/taskferry-servicebus/src/taskferry_servicebus/consumer.py:93-112 | completes what succeeded and abandons what failed, up to the first lost lock, which raises; counts completions |
| Consumers.HeldInPlain | packages/taskferry-servicebus/src/taskferry_servicebus/consumer.py:96-112 | what is settled is everything before the first delivery whose lock is lost |
| QueueRuns.StepKeepsInv | packages/taskferry-sqs/src/taskferry_sqs/consumer.py:132-150 | every step of queue and consumers keeps messages, receipts and counts in agreement |
| QueueRuns.AtLeastOnce | packages/taskferry-sqs/src/taskferry_sqs/consumer.py:109-114 | over any run, messages sent are those removed, queued, in flight and dead, without overlap, and a removed one succeeded under the receipt that removed it |
| QueueRuns.SucceededMeaning | packages/taskferry-sqs/src/taskferry_sqs/consumer.py:138-149 | over every run, a receipt counts as succeeded exactly if a consumer ran its task under it and that returned |
| QueueRuns.GivingUpInPlain | packages/taskferry-servicebus/src/taskferry_servicebus/consumer.py:100-109 | after a failure SQS leaves the message in flight; Service Bus queues or dead-letters it at once, or the consumer is gone with its lock |
| QueueRuns.CrashLosesNothing | packages/taskferry-sqs/src/taskferry_sqs/consumer.py:109-114 | a consumer may crash at any time, and every message it held can still be delivered again |
| QueueRuns.FailureIsRedelivered | packages/taskferry-servicebus/src/taskferry_servicebus/consumer.py:96-112 | a run in which a failed message is delivered again, succeeds and is removed under the second receipt |
| QueueRuns.RemovalIsFinal | packages/taskferry-servicebus/src/taskferry_servicebus/consumer.py:96-109 | a removed message stays removed under the same receipt |
| QueueRuns.CountIsRemovals | packages/taskferry-servicebus/src/taskferry_servicebus/consumer.py:90-112 | the count is the number of removals with Service Bus, and with SQS exactly when no delete came under a lapsed receipt |
| QueueRuns.StaleDeleteIsCounted | packages/taskferry-sqs/src/taskferry_sqs/consumer.py:149-153 | a run in which a receipt lapses between success and delete: one is counted, nothing is removed, the message is queued again |
| QueueRuns.EveryRemovalIsCountedOnce | packages/taskferry-sqs/src/taskferry_sqs/consumer.py:149-153 | each removal is counted by exactly one consumer |
| LocalScheduler.Scheduler.Create | packages/taskferry-scheduler/src/taskferry_scheduler/adapters/local.py:103-120 | a cron trigger is rejected; others become due at their time or one interval from now |
| LocalScheduler.Scheduler.SetStatus | packages/taskferry-scheduler/src/taskferry_scheduler/adapters/local.py:130-136 | pauses or resumes one entry |
| LocalScheduler.Scheduler.Update | packages/taskferry-scheduler/src/taskferry_scheduler/adapters/local.py:144-149 | replaces the trigger and makes the entry due anew, without touching its status |
| LocalScheduler.Scheduler.Delete | packages/taskferry-scheduler/src/taskferry_scheduler/adapters/local.py:151-153 | removes one entry, silently if unknown |
| LocalScheduler.Scheduler.RunPending | packages/taskferry-scheduler/src/taskferry_scheduler/adapters/local.py:156-177 | one sweep in order of creation, cut short by the first provider error |
| LocalScheduler.SweepOfOne | packages/taskferry-scheduler/src/taskferry_scheduler/adapters/local.py:162-177 | a sweep fires an entry only if it is due, and always then unless it is cut short |
| LocalScheduler.FiredIffNotBlocked | packages/taskferry-scheduler/src/taskferry_scheduler/adapters/local.py:158-177 | a sweep fires exactly the due entries that do not raise a provider error and have no due entry that does before them |
| LocalScheduler.BlockedNeverFires | packages/taskferry-scheduler/src/taskferry_scheduler/adapters/local.py:171-177 | while an entry is due and raises a provider error, it and all entries created after it stay unchanged over any number of sweeps |
| LocalScheduler.BlockedExample | packages/taskferry-scheduler/src/taskferry_scheduler/adapters/local.py:171-172 | two due schedules of which the first raises: nothing fires |
| LocalScheduler.IntervalIsSpaced | packages/taskferry-scheduler/src/taskferry_scheduler/adapters/local.py:144-186 | since its creation or last update, whatever the moments of the sweeps, an interval schedule's consecutive fires are at least one interval apart and the next is due one interval after the last |
| LocalScheduler.IntervalFiresIfDue | packages/taskferry-scheduler/src/taskferry_scheduler/adapters/local.py:162-186 | after any run without an update, a sweep, late or not, fires an interval schedule exactly if it is enabled and an interval has passed since its last fire or its scheduling, and the next counts from there |
| LocalScheduler.FiresAreBounded | packages/taskferry-scheduler/src/taskferry_scheduler/adapters/local.py:156-186 | without updates, the fire number k is at or after creation plus k intervals, so up to t at most floor((t - created)/seconds) fires |
| LocalScheduler.FiresSinceUpdateAreBounded | packages/taskferry-scheduler/src/taskferry_scheduler/adapters/local.py:144-186 | after the last update, to an interval, the same bound holds of the fires since then, counted from the update, whatever the schedule was before |
| LocalScheduler.BoundIsMet | packages/taskferry-scheduler/src/taskferry_scheduler/adapters/local.py:180-186 | sweeps on the dot reach that bound |
| LocalScheduler.OneShotFiresOncePerSchedule | packages/taskferry-scheduler/src/taskferry_scheduler/adapters/local.py:144-186 | after its last update, to a one-shot, any schedule fires at most once more, not before the new time, and is used up exactly by that fire |
| LocalScheduler.OneShotFiresOnce | packages/taskferry-scheduler/src/taskferry_scheduler/adapters/local.py:103-186 | the same from its creation, for a one-shot that is never updated |
| LocalScheduler.OneShotFiresIfReached | packages/taskferry-scheduler/src/taskferry_scheduler/adapters/local.py:162-183 | it does fire exactly if some sweep at or after its time finds it enabled and its target raises no provider error |
| LocalScheduler.OneShotFiresAreCounted | packages/taskferry-scheduler/src/taskferry_scheduler/adapters/local.py:144-186 | over a whole run of updates to one-shots only, the fires are at most as many as the creation and the updates |
| LocalScheduler.PausedNeverFires | packages/taskferry-scheduler/src/taskferry_scheduler/adapters/local.py:164-165 | a paused schedule does not fire until resumed, not even after an update |
| LocalScheduler.StatusInPlain | packages/taskferry-scheduler/src/taskferry_scheduler/adapters/local.py:130-142 | a schedule is paused exactly if it was paused since it was last resumed, or created so and never resumed |
| LocalScheduler.CreatedDisabledNeverFires | packages/taskferry-scheduler/src/taskferry_scheduler/adapters/local.py:103-120 | a schedule that is created disabled does not fire until it is resumed |

## Left out

- ThreadRuns.RunObeysTable: cancels are modelled for ids that a submission has returned, so the future is set; an id learned earlier, from inside a hook, is not covered.
- Dispatchers.EngineRefinesLoop: the worker and the in-process backend are taken to resolve the same names, and to raise the same error for the others.
- ThreadRuns.NoStuckExecution: `close()` is not a step; it cancels futures before it clears the table.
- QueueRuns.CountIsRemovals: a delete under a lapsed SQS receipt is taken to have no effect; the queue service itself is an assumption, not part of the repository.
- CloudRunLogs.ExactlyOnceInOrder: every entry has a timestamp, taken in nanoseconds and rounded down to microseconds as the filter does.
- Ports.Wait: without a timeout the wait is modelled for executions that end, since otherwise it does not return.
- LocalScheduler.Scheduler.RunPending: targets that call back into the scheduler, and changes by other threads during a sweep, are not modelled.
- A negative history for the thread and process backends, whose eviction loop then fails on an empty list.
- Exceptions that are not `Exception`, which escape the retry loops.
- Timestamps of executions other than those the timeout needs, and the metadata copied into them.
- JSON itself: the envelope is modelled with typed fields, any of which may be missing, and null where the code tells that apart; coercion of values of the wrong JSON type is not, and an empty retry object, which the code takes for a missing one, decodes to a policy of one attempt.
- Name resolution and module import: a set of resolvable names, and a function from a call to its outcome.
- Real clocks, threads, processes and signals; decoding of bytes; the async surface; limits that engines put on retries.
- Validation of specs, capability sets, routing, configuration, provider clients and status tables: lookups and field copying that would add only easy members.
- `on_submit_error` and `on_cancel` hooks, and deferred start (`delay`, `run_at`) in the thread backend, which only postpones its check.
- Cloud, cron and Kubernetes schedulers, Django, the event bus and the CLI.
