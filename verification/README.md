# Verified model of the run orchestrator and the genetic throttle search

This project models two parts of the repository and proves what they promise.

**The run orchestrator.** An API-side store and a worker-side store change one shared table of runs
and append to one event log. Any number of workers claim runs under a 30 second lease, renew the
lease with a heartbeat task that runs beside the executor, observe cancellation intent, finalize
runs, and recover runs whose lease is over (RUNNING, TIMED_OUT, RETRYING, ENQUEUED inside one
`claim_run`).

**The genetic throttle search.** Populations of mutable lists are scored, selected, crossed and
mutated in place until the generations or the time are used up; the score rests on the motion of a
unit under a throttle sequence.

## How the model is built

| file | content |
|---|---|
| `run_domain.dfy`, `event_log.dfy` | records, status graph, merge of transition requests; the log as a class, cursors, polling |
| `run_store.dfy` | each store call as a function from the shared state to the shared state |
| `records.dfy` | what each store call writes, spelled out field by field and event by event |
| `run_table.dfy`, `intake_store.dfy`, `processing_store.dfy` | the two stores as classes over shared fields; every method is proved to do what its function says |
| `worker.dfy`, `consumer.dfy` | a worker as a program-counter machine; execution context, lease scope and consumer as classes proved to follow the machine under interference |
| `cluster.dfy`, `cluster_steps.dfy` | the whole system: API calls, workers, clock ticks, shutdowns and kills in any order |
| `refinement.dfy` | every execution of a run in the system is one that the consumer class computes |
| `run_life.dfy`, `executions.dfy` | the life of one run, and what holds in every reachable state |
| `claim_facts.dfy`, `scheduling.dfy` | what one claim does; intent is final; bounded waiting |
| `exclusion.dfy`, `finalization.dfy`, `crashes.dfy`, `crash_trace.dfy`, `causality.dfy`, `shutdowns.dfy`, `witnesses.dfy` | mutual exclusion, how executions end, when they raise, why runs are cancelled, and concrete executions |
| `kinematics.dfy`, `selection.dfy`, `randomness.dfy` | motion, stable selection, random draws and clock readings |
| `genetics.dfy`, `genetic_draws.dfy`, `genetic_search.dfy` | the search as functions of the draws, with what holds for all draws; that everything the search can do is made by some draws; the search over heap lists, proved to compute these functions |

- **Granularity.** One store call is one step. The stores' locks are left out because no critical
  section suspends. Between two store calls anything can happen: other workers, API calls, the
  heartbeat task, a clock tick, a shutdown, a kill. `RunSignalQueue.wait` can return at any time.
- **Clock.** Readings are parameters: `claim_run` takes one reading for every run it checks and one
  for the lease it grants. Readings never run backwards, and they are real numbers.
- **Ids.** `uuid4` is a parameter of `create_run` that must be fresh. Ids are only compared.
- **Order.** The table keeps the insertion order of the dictionary, in which `claim_run` iterates.
- **Records of the past.** Claim times (`grants`) and the runs a shutdown has interrupted are kept
  beside the system only to state properties; no step depends on them.
- **Interference in the classes.** The consumer's methods are given what the other parties have made
  of the shared state at each store call. It can be any well-formed state at all.
- **Search.** Throttles and lengths are integers, all other quantities exact reals. Random numbers and
  the time come from objects that hand out any given sequence of draws in [0, 1) and of readings;
  integers and samples are scaled from the draws. All results hold for every such sequence. `sorted`
  is a stable insertion ranking.

## What the code does that its documentation does not say

- A shutdown can cancel a run for good: `execute_run` calls `set_cancelled` whenever the context is
  cancelled, and `shutdown_execution` cancels the context. Its documentation says the run stays
  RUNNING; in fact the executor's end ends it, as CANCELLED or as FAILED (`ShutdownIsFinal`,
  `ShutdownEndIsAttained`).
- Cancellation intent accepted while a run is CREATED is lost when the run is enqueued
  (`AcceptedIntentIsKeptIff`, reached from an empty store in `LostIntentIsAttained`).
- The deprecated `mark_cancelled` resets the retry count and the intent, which the log still tells
  (`MarkCancelAgreesIff`, reached in `DisagreementIsReached`); the other fields and all other runs
  agree even then.
- With several workers an exception can leave `execute_run` and end the consumer loop, even when no
  lease is overrun: a worker that has seen the intent stops renewing its lease, a later claim of
  another worker cancels the run, and both finalizing calls raise (`SweptExecutionCrashes`, reached
  from an empty store in `CrashIsAttained`). `RaisesIff` gives the exact condition. Only runs with
  intent are affected (`OnlyIntentCrashes`), and with one worker it cannot happen
  (`LoneWorkerNeverCrashes`).

## Model

| member | source | states |
|---|---|---|
| Executions.LogDeterminesTable | llm_agent/local_runtime/run_store/intake.py:28 | In every state reached without the deprecated cancellation, replaying a run's events gives its stored status, error, retry count, cancel flag and, while RUNNING, its worker: the table is a cache of the log |
| Executions.LogDeterminesTableOr | llm_agent/local_runtime/run_store/intake.py:82-109 | With the deprecated cancellation in use, status and error still agree everywhere, and everything agrees on runs that are not CANCELLED |
| RunLife.MarkCancelAgreesIff | llm_agent/local_runtime/run_store/intake.py:98-108 | The deprecated cancellation keeps log and record in agreement if and only if the run had no retries and no intent |
| RunLife.ChangeKeepsAgreement | llm_agent/local_runtime/run_store/processing.py:129-147 | Every permitted change to a record and the event it appends keep the replay of the log equal to the record |
| Executions.AttemptsAreConserved | llm_agent/local_runtime/run_store/processing.py:58-63 | In every state reached without the deprecated cancellation, `retry_count` is the number of claim_expired events, and the number of claimed events is fixed by it and the status |
| Executions.AttemptsAreConservedOr | llm_agent/local_runtime/run_store/processing.py:180-184 | In every state reached in any way, the same for runs that are not CANCELLED, and the claimed events of every run exceed its claim_expired events by what the status says |
| RunLife.ChangeConserves | llm_agent/local_runtime/run_store/processing.py:179-184 | Each change keeps counters and events in step, and a run has one closing event if and only if it is terminal |
| Executions.TableIsWellFormed | llm_agent/local_runtime/run_store/processing.py:215-238 | In every reachable state table and log hold the same ids, TIMED_OUT and RETRYING are never visible, RUNNING runs have a worker and a positive expiry, and exactly the terminal runs have exactly one closing event |
| Executions.TerminalForever | llm_agent/llm_agent/domain/agent/runs/transition_rules.py:5-19 | Over any execution the record of a terminal run never changes and only executor events are appended to its stream |
| Executions.StepsFollowRules | llm_agent/llm_agent/services/agent/transition_policy.py:15-26 | Every step of the whole system takes every run along a path of the rule table |
| Executions.ClaimsAreSpaced | llm_agent/local_runtime/run_store/processing.py:241-252 | Two successive claims of a run are more than 30 seconds apart, and the second is more than 30 seconds after the last renewal of the first |
| Executions.RetriesBoundTime | llm_agent/local_runtime/run_store/processing.py:71-75 | In every reachable state, 30 seconds times the retry count is less than the time since the first claim, whatever the status, if there is a retry at all |
| RunLife.RetriesTakeLeases | llm_agent/local_runtime/run_store/processing.py:182-183 | The same for any life whose claims are spaced, by adding up leases |
| Executions.PollingAnExecution | llm_agent/local_runtime/event_log/in_memory.py:62-81 | A client that lists after the last number it saw, at any moments of any execution, holds exactly the stream as it was at its last poll |
| Executions.StreamsGrow | llm_agent/local_runtime/event_log/in_memory.py:30-60 | Along any execution a run's stream is always numbered 1..n and only grows at its end |
| EventLog.PollingLosesNothing | llm_agent/local_runtime/event_log/in_memory.py:70-81 | Polling any growing snapshots with a cursor collects the last one, without gap or duplicate |
| EventLog.ListAfterIsSuffix | llm_agent/local_runtime/event_log/in_memory.py:77-81 | The filter by sequence number is the suffix after the cursor, for any cursor |
| EventLog.InMemoryRunEventLog.InitRunStream | llm_agent/local_runtime/event_log/in_memory.py:23-28 | Adds an empty stream unless there is one already |
| EventLog.InMemoryRunEventLog.Append | llm_agent/local_runtime/event_log/in_memory.py:30-60 | Appends an event numbered one above the length, to that stream only; fails exactly for an unknown run and then changes nothing |
| EventLog.InMemoryRunEventLog.List | llm_agent/local_runtime/event_log/in_memory.py:62-81 | Returns the events above the cursor, all of them without one; fails exactly for an unknown run |
| RunStore.RefusedCallsChangeNothing | llm_agent/local_runtime/run_store/processing.py:215-219 | For each guarded call, exactly when it raises; raising, or answering False, it leaves table and log as they are |
| RunStore.LostHeartbeatIsLogged | llm_agent/local_runtime/run_store/processing.py:106-112 | A heartbeat raises exactly on a missing run or another worker's running run; losing the lease changes only the log, by one claim_lost event |
| RunStore.ClaimKeepsValid | llm_agent/local_runtime/run_store/processing.py:50-84 | A claim keeps table and log well formed, with the same runs in the same order |
| Records.CreateWrites | llm_agent/local_runtime/run_store/intake.py:35-58 | A new run is CREATED with no other field set, and its stream holds the created event, numbered 1 |
| Records.EnqueueWrites | llm_agent/local_runtime/run_store/intake.py:65-80 | Enqueuing keeps result and error and resets every other field |
| Records.AskCancelWrites | llm_agent/local_runtime/run_store/intake.py:111-136 | A request changes the flag only, whatever the status, and keeps worker and expiry; it is refused when the run is over or the flag is set |
| Records.MarkCancelWrites | llm_agent/local_runtime/run_store/intake.py:82-109 | The deprecated cancellation keeps result and error and resets every other field; each of its refusals |
| Records.FinalWrites | llm_agent/local_runtime/run_store/processing.py:129-163 | Each finalizing call keeps every field but the status and the result or error it is called with |
| Records.HeartbeatWrites | llm_agent/local_runtime/run_store/processing.py:88-127 | The owner's heartbeat moves the expiry to 30 seconds from now and answers with the renewed record; a run that is not RUNNING is returned as it is, and a lost lease raises |
| RunDomain.MergeReplacesSetFields | llm_agent/llm_agent/domain/agent/runs/transition_request.py:15-30 | A merge replaces exactly the fields a request sets |
| IntakeStore.InMemoryRunIntakeStore.CreateRun | llm_agent/local_runtime/run_store/intake.py:35-58 | Adds a CREATED record at the end of the order and a stream holding the created event, and nothing else |
| IntakeStore.InMemoryRunIntakeStore.GetStatus | llm_agent/local_runtime/run_store/intake.py:60-63 | The record, or RunNotFound |
| IntakeStore.InMemoryRunIntakeStore.MarkEnqueued | llm_agent/local_runtime/run_store/intake.py:65-80 | The whole new state after enqueuing, which resets the record's defaults; nothing changes when it raises |
| IntakeStore.InMemoryRunIntakeStore.MarkCancelled | llm_agent/local_runtime/run_store/intake.py:82-109 | The whole new state and answer of the deprecated cancellation, error cases included |
| IntakeStore.InMemoryRunIntakeStore.RequestCancellation | llm_agent/local_runtime/run_store/intake.py:111-136 | The whole new state and answer of a cancellation request: only the flag and one event change |
| IntakeStore.InMemoryRunIntakeStore.GetEvents | llm_agent/local_runtime/run_store/intake.py:138-151 | The events above the cursor, or RunNotFound |
| ProcessingStore.InMemoryRunProcessingStore.ClaimRun | llm_agent/local_runtime/run_store/processing.py:40-84 | The two loops over the table, in place, leave the state in which every run has undergone its own recovery and dispatch, and return the first claimable run with its new record |
| ProcessingStore.InMemoryRunProcessingStore.Sweep | llm_agent/local_runtime/run_store/processing.py:51-63 | The first loop recovers exactly the runs whose lease is over at their own check |
| ProcessingStore.InMemoryRunProcessingStore.Dispatch | llm_agent/local_runtime/run_store/processing.py:65-84 | The second loop cancels the enqueued runs before the first claimable one, takes that one and stops |
| ProcessingStore.InMemoryRunProcessingStore.Heartbeat | llm_agent/local_runtime/run_store/processing.py:88-127 | The whole new state and result of a heartbeat in each of its branches |
| ProcessingStore.InMemoryRunProcessingStore.SetFailed | llm_agent/local_runtime/run_store/processing.py:129-137 | The whole new state after a failure is recorded; nothing changes when it raises |
| ProcessingStore.InMemoryRunProcessingStore.SetSucceeded | llm_agent/local_runtime/run_store/processing.py:139-147 | The whole new state after a success is recorded; nothing changes when it raises |
| ProcessingStore.InMemoryRunProcessingStore.SetCancelled | llm_agent/local_runtime/run_store/processing.py:155-163 | The whole new state after a definite cancellation; nothing changes when it raises |
| ProcessingStore.InMemoryRunProcessingStore.GetStatus | llm_agent/local_runtime/run_store/processing.py:149-153 | The record, or RunNotFound |
| ProcessingStore.InMemoryRunProcessingStore.RecoverExpiredRun | llm_agent/local_runtime/run_store/processing.py:165-184 | For any run and any record the caller has read: refused at the first transition, changing nothing, exactly when the stored run is missing or not RUNNING; otherwise the three transitions amount to one change: ENQUEUED, claimed by the recovering worker, one retry more than in the record read |
| ProcessingStore.InMemoryRunProcessingStore.TransitionLocked | llm_agent/local_runtime/run_store/processing.py:199-238 | Raises exactly on a missing run or a forbidden transition, changing nothing; otherwise merges the request into the record |
| ClaimFacts.ClaimIsComplete | llm_agent/local_runtime/run_store/processing.py:50-84 | What becomes of every run in one claim: before the handed-out run nothing is left enqueued and those cancelled had intent, the run itself gets worker and lease, and those after it are only recovered |
| ClaimFacts.HandoutIff | llm_agent/local_runtime/run_store/processing.py:65-82 | A run is handed out if and only if it waits or has just been recovered, has no intent, and no earlier run is in that position |
| ClaimFacts.ClaimIsFifo | llm_agent/local_runtime/run_store/processing.py:65-84 | Nothing is handed out while an earlier run waits without intent, just-recovered runs included; no run before the one handed out, or none at all, is left ENQUEUED |
| ClaimFacts.LapsedAreRecovered | llm_agent/local_runtime/run_store/processing.py:51-63 | No run found lapsed at its check keeps its lease: it has one more retry, and if it runs again it has a new lease and no intent (LeaseEndsAtExpiry says when a lease is over) |
| ClaimFacts.HandoutNeedsWaiting | llm_agent/local_runtime/run_store/processing.py:66-82 | A handed-out run was waiting or lapsed and had no intent, and is now RUNNING for that worker with a lease of 30 seconds |
| Records.LeaseEndsAtExpiry | llm_agent/local_runtime/run_store/processing.py:241-247 | A claim that looks at the clock after the expiry of a RUNNING run recovers it, with one retry more, and one that looks before or exactly then leaves the record as it is; without an expiry, or with expiry zero, a run is never recovered |
| Records.ClaimWritesRecord | llm_agent/local_runtime/run_store/processing.py:50-84 | Field by field, what a claim makes of any run and which events it appends for it: handed out with a lease of 30 seconds, cancelled for its intent, recovered only, or left alone |
| Scheduling.AcceptedIntentIsFinal | llm_agent/local_runtime/run_store/intake.py:116-130 | After a request answered True on an ENQUEUED or RUNNING run, no claim of any later execution returns it or logs a claim of it, and the flag stays until it is terminal |
| Scheduling.DoomedNeverClaimed | llm_agent/local_runtime/run_store/processing.py:65-69 | Over any execution a terminal run, or a waiting or running one with intent, is never handed out, whatever leases expire |
| Scheduling.AcceptedIntentIsKeptIff | llm_agent/local_runtime/run_store/intake.py:65-80 | An accepted request survives enqueuing if and only if the run was not CREATED; on a CREATED run it is lost and the run becomes claimable |
| Scheduling.WaitIsBounded | llm_agent/local_runtime/run_store/processing.py:65-84 | While no lease expires, a run that stays ENQUEUED through n claims had at least n waiting runs before it, whatever is created or enqueued meanwhile |
| Scheduling.MoreClaimsThanAhead | llm_agent/local_runtime/run_store/processing.py:65-84 | From any reachable state, with k waiting runs ahead an ENQUEUED run has left that status after k + 1 claims |
| Exclusion.MutualExclusion | llm_agent/agent_run_worker/in_memory/run_lease.py:74-94 | As long as the clock passes no guarded lease, no two of any number of workers are ever busy with the same run, including workers that stopped beating after seeing intent |
| Exclusion.StepKeepsExclusive | llm_agent/agent_run_worker/in_memory/consumer.py:65-94 | The inductive step: the run of every busy worker is guarded by its own lease and heartbeat, or can never be claimed again |
| Exclusion.OverrunBreaksExclusionIff | llm_agent/local_runtime/run_store/processing.py:51-82 | A claim takes the run of a busy worker if and only if the lease is found over, there is no intent, and no earlier run can be handed out |
| Finalization.LoneWorkerNeverCrashes | llm_agent/agent_run_worker/in_memory/consumer.py:116-150 | With one worker, and creations, enqueuings and cancellation requests at any point, no exception leaves `execute_run`, and the run is terminal when it is over |
| Finalization.IntentBeforeReadCancels | llm_agent/agent_run_worker/in_memory/consumer.py:123-136 | Intent recorded before the status is read makes the run end CANCELLED, never SUCCEEDED or FAILED |
| Finalization.FinalizeRunning | llm_agent/agent_run_worker/in_memory/consumer.py:123-147 | On a RUNNING run no finalizing call raises, and the branch taken decides the terminal status |
| Finalization.FinalizationTerminates | llm_agent/agent_run_worker/in_memory/consumer.py:116-150 | At most three store calls follow the executor, whatever the store answers |
| Crashes.OnlyIntentCrashes | llm_agent/agent_run_worker/in_memory/consumer.py:141-147 | With any number of workers and no overrun lease, only a run with intent can make `execute_run` raise; without intent a busy worker still owns its RUNNING run |
| Crashes.ExceptBranchRaisesIff | llm_agent/agent_run_worker/in_memory/consumer.py:141-150 | `set_failed` in the except branch raises if and only if the run is missing or not RUNNING |
| Consumer.RaisesIff | llm_agent/agent_run_worker/in_memory/consumer.py:116-150 | Exactly when an exception leaves `execute_run`, for any executor and any state at each store call: the last call of the try block is refused, or the executor raises, and the run is missing or not RUNNING when the except branch records the failure |
| Crashes.OnlyOwnerFinalizes | llm_agent/local_runtime/run_store/processing.py:129-163 | Although the store does not check the caller, with no overrun lease only the owner of a RUNNING run comes to make a finalizing call on it, and SUCCEEDED and FAILED only come from RUNNING |
| Crashes.EndedByOwnerOrSwept | llm_agent/local_runtime/run_store/processing.py:51-69 | With no overrun lease, a RUNNING run is ended in exactly two ways: its owner finalizes it, or a claim finds its lease over and makes it CANCELLED for its intent |
| Crashes.BusyRunsAreNotRetried | llm_agent/local_runtime/run_store/processing.py:51-63 | With no overrun lease, a claim that keeps time retries no run a worker is busy with, unless it carries intent |
| Crashes.IntentBeforeReadHolds | llm_agent/agent_run_worker/in_memory/consumer.py:123-136 | Among any number of workers: if intent is recorded when the executor has returned in a timely execution, the run never becomes SUCCEEDED or FAILED in any continuation, and is CANCELLED once that worker has moved on |
| Witnesses.CrashIsAttained | llm_agent/agent_run_worker/in_memory/consumer.py:116-150 | An exception really ends a consumer loop: a timely execution of two workers from an empty store leads there |
| Witnesses.LostIntentIsAttained | llm_agent/local_runtime/run_store/intake.py:65-80 | Intent is really lost: from an empty store, intent is accepted on a CREATED run, which is claimable once it is enqueued |
| Witnesses.DisagreementIsReached | llm_agent/local_runtime/run_store/intake.py:98-108 | Log and table really disagree: from an empty store, the deprecated cancellation of a run with intent leads there |
| CrashTrace.SweptExecutionCrashes | llm_agent/agent_run_worker/in_memory/run_lease.py:81-88 | From any state in which a worker has seen the intent and its lease is over, a claim of another worker followed by the executor's normal return leads, with no guarded lease overrun, to a consumer loop ended by an exception |
| Causality.CancellationIsCaused | llm_agent/agent_run_worker/in_memory/consumer.py:123-136 | Every CANCELLED run has intent, with the request logged before the cancellation, or was being executed by a worker that was shut down |
| Causality.InterruptedByShutdown | llm_agent/agent_run_worker/in_memory/consumer.py:172-175 | A run counts as interrupted only through a shutdown of the worker executing it |
| Shutdowns.ShutdownIsFinal | llm_agent/agent_run_worker/in_memory/consumer.py:152-175 | Over any timely execution that begins with a shutdown of a worker that is executing, unless cancellation is asked for or the worker is killed: the run is RUNNING until the executor has ended and the finalizing call is made, and then CANCELLED if and only if the executor returned normally and FAILED if and only if it raised |
| Causality.ShutdownEndsRun | llm_agent/agent_run_worker/in_memory/consumer.py:116-147 | The same with no step of another party in between, without any timing assumption, and with the intent unchanged |
| Witnesses.ShutdownEndIsAttained | llm_agent/agent_run_worker/in_memory/consumer.py:162-170 | Both endings are reached from an empty store by a timely execution: the run is over, with no intent, where the documentation says it stays RUNNING |
| Consumer.RunExecutionContext.EmitEvent | llm_agent/agent_run_worker/domain/runs/execution_context.py:58-72 | Appends one executor event to the stream of the context's own run |
| Consumer.RunExecutionContext.Cancel | llm_agent/agent_run_worker/domain/runs/execution_context.py:39-46 | Sets the cancellation flag that `IsCancelled` reads |
| Consumer.RunLeaseScope.HeartbeatLoop | llm_agent/agent_run_worker/in_memory/run_lease.py:56-94 | Under any interference the loop does what the machine's heartbeat turns do, and stops on intent or a lost lease |
| Consumer.BeatMeans | llm_agent/agent_run_worker/in_memory/run_lease.py:78-94 | A heartbeat turn cancels the context and stops when it reads intent, stops on a lost lease, and goes on otherwise, also when the run is over |
| Consumer.BeatsGoOn | llm_agent/agent_run_worker/in_memory/run_lease.py:74-94 | The heartbeat loop takes turn after turn up to and including the first that stops it |
| Consumer.InMemoryConsumer.ShutdownExecution | llm_agent/agent_run_worker/in_memory/consumer.py:152-177 | Stops further claims and cancels the current context, if there is one |
| Consumer.InMemoryConsumer.ExecuteRun | llm_agent/agent_run_worker/in_memory/consumer.py:96-150 | Under any interference the try, except and finally branches leave the store, the flag and the exception of the machine's finalization, and clear the context |
| Consumer.InMemoryConsumer.ConsumeAndExecuteLoop | llm_agent/agent_run_worker/in_memory/consumer.py:48-94 | Under any interference and any shutdowns the loop does turn by turn what the machine does, and ends on shutdown or on an exception |
| Consumer.ExecutionWrites | llm_agent/agent_run_worker/in_memory/consumer.py:116-150 | The record and event `execute_run` leaves: FAILED with the text of the executor's exception; CANCELLED if the context is cancelled or intent is read; SUCCEEDED with result "ok" otherwise; and FAILED with the store's own error if a call of the try block is refused |
| Consumer.TurnWrites | llm_agent/agent_run_worker/in_memory/consumer.py:65-87 | A turn leaves what its claim makes and, if a run is handed out without a shutdown, what the execution of that run writes; it ends the loop on a run claimed after a shutdown, and on an exception |
| Consumer.AllowedUntilShutdown | llm_agent/agent_run_worker/in_memory/consumer.py:152-175 | Whatever happens at the store calls of an execution, further claims stay allowed unless a shutdown arrives |
| Consumer.LoopGoesOn | llm_agent/agent_run_worker/in_memory/consumer.py:65-94 | The loop takes turn after turn: it goes on after every turn that is not over and allows it, stops after the first other one, and ends with the store, flag and exception of its last turn |
| Refinement.ExecutionIsServed | llm_agent/agent_run_worker/in_memory/consumer.py:96-150 | Every execution of a run in the system, from its begin to the end of `execute_run` and whatever all parties do in between, ends with the store, the flag and the exception that the consumer class computes for some interference |
| Refinement.FinalizationIsConcluded | llm_agent/agent_run_worker/in_memory/consumer.py:123-150 | The same for every finalization, whatever the worker has been through before |
| Consumer.TurnFollowsMachine | llm_agent/agent_run_worker/in_memory/consumer.py:65-79 | A turn is the machine's claim; a run claimed after a shutdown is left RUNNING and the loop ends |
| Consumer.DoneFollowsMachine | llm_agent/agent_run_worker/in_memory/consumer.py:80-121 | From a claimed run, the machine's begin and finish steps lead to the worker that finalization starts from, with a new context and no store call |
| GeneticSearch.FindOptimal | llm_agent/llm_agent/infrastructure/navigation/path_finders/genetic.py:43-130 | For all random draws, clock readings and configurations: succeeds if and only if the configuration is runnable; after at least one generation the list returned is, as it stands on return, the best of the last evaluated generation, which the draws and readings determine; it is legal, and the score is its fitness |
| GeneticSearch.Search | llm_agent/llm_agent/infrastructure/navigation/path_finders/genetic.py:69-130 | The loop over the generations breeds each from the one before, stops after the first one that is late or the last, and keeps the best of the last evaluated one although the population has been replaced since |
| GeneticSearch.RunGeneration | llm_agent/llm_agent/infrastructure/navigation/path_finders/genetic.py:72-121 | One generation succeeds exactly if scoring, sampling, breeding and the minimum do; the best is an element of the given population, unchanged by breeding, and the first of minimal fitness in it; the next population is made of new, pairwise different lists and is exactly what the draws make of the given one |
| GeneticSearch.SelectParents | llm_agent/llm_agent/infrastructure/navigation/path_finders/genetic.py:90-94 | The individuals at the best positions by score, as the same objects, followed by as many drawn at different positions as asked for; fails exactly if there are not that many |
| GeneticSearch.Breed | llm_agent/llm_agent/infrastructure/navigation/path_finders/genetic.py:96-107 | The children of the parents, mutated: exactly what the draws make of them; the lists are new and pairwise different, and no list that existed before is changed |
| GeneticSearch.BreedChildren | llm_agent/llm_agent/infrastructure/navigation/path_finders/genetic.py:96-101 | As many new, pairwise different lists as asked for, each the crossover that the draws make; fails exactly when there are fewer than two parents to draw from |
| GeneticSearch.MutateAll | llm_agent/llm_agent/infrastructure/navigation/path_finders/genetic.py:103-107 | Each child is mutated in place exactly once, in order, as the draws make it |
| GeneticSearch.BestPosition | llm_agent/llm_agent/infrastructure/navigation/path_finders/genetic.py:109-111 | The position of the first minimal score; fails exactly on an empty list |
| GeneticSearch.Crossover | llm_agent/llm_agent/infrastructure/navigation/path_finders/genetic.py:244-255 | A new list: the prefix of one parent and the suffix of the other that the two draws cut, trimmed; fails exactly on an empty parent |
| GeneticSearch.Mutate | llm_agent/llm_agent/infrastructure/navigation/path_finders/genetic.py:258-277 | The same list, changed as the draws say; with an empty range it fails exactly if some draw falls below the rate |
| GeneticSearch.GenerateInitialPopulation | llm_agent/llm_agent/infrastructure/navigation/path_finders/genetic.py:215-225 | As many new, pairwise different lists as asked for, exactly as the draws make them; fails exactly when a draw has an empty range |
| GeneticSearch.ComputeFitness | llm_agent/llm_agent/infrastructure/navigation/path_finders/genetic.py:155-212 | The score and its penalties for the recursively defined distance and final velocity; fails exactly on a zero mass |
| GeneticSearch.SelectBestParents | llm_agent/llm_agent/infrastructure/navigation/path_finders/genetic.py:228-233 | The individuals at the selected positions, as the same objects |
| Genetics.ParentsAt | llm_agent/llm_agent/infrastructure/navigation/path_finders/genetic.py:90-94 | The pool holds the individuals at the best positions, followed by those at the drawn ones |
| Genetics.BestIsChosen | llm_agent/llm_agent/infrastructure/navigation/path_finders/genetic.py:228-233 | As many best parents as asked for, in order of fitness, and none left out scores better, or as well and stands earlier |
| Genetics.GenerationsFollow | llm_agent/llm_agent/infrastructure/navigation/path_finders/genetic.py:72-107 | For all draws every generation is legal and of full size, and every individual of the next one is a mutated crossover of two parents at different positions of a pool of the best, none of those left out scoring better, and some drawn at random |
| GeneticDraws.HistoriesAreMadeIff | llm_agent/llm_agent/infrastructure/navigation/path_finders/genetic.py:62-124 | A sequence of generations is made by some draws if and only if they are legal and of full size and each is bred from the best by fitness and some others of the one before |
| GeneticDraws.EveryIndividualIsDrawn | llm_agent/llm_agent/infrastructure/navigation/path_finders/genetic.py:215-225 | Every legal sequence is a random individual for some draws |
| GeneticDraws.EveryChildIsDrawn | llm_agent/llm_agent/infrastructure/navigation/path_finders/genetic.py:244-255 | Every crossover of two parents at different positions, at any two cuts, is bred by some draws |
| GeneticDraws.EveryMutantIsDrawn | llm_agent/llm_agent/infrastructure/navigation/path_finders/genetic.py:258-277 | Every mutation within the rules, with any throttles redrawn to any values and any one deleted, is made by some draws |
| GeneticDraws.EveryNextIsDrawn | llm_agent/llm_agent/infrastructure/navigation/path_finders/genetic.py:90-107 | Every generation that may follow another one is bred from it by some draws |
| Genetics.BestIsFirst | llm_agent/llm_agent/infrastructure/navigation/path_finders/genetic.py:109-111 | No individual of a generation has a lower score than the best, and those before it have higher ones |
| Genetics.RoundsStopInTime | llm_agent/llm_agent/infrastructure/navigation/path_finders/genetic.py:119-128 | The number of evaluated generations is between 1 and the configured number, no earlier generation ended too late, and unless all are evaluated the last one did |
| Genetics.SearchStopsInTime | llm_agent/llm_agent/infrastructure/navigation/path_finders/genetic.py:119-128 | The same by the clock, for the whole search: before its last generation the time since the start is below the limit, and unless all are evaluated it is not after the last one |
| Genetics.MutantIsOne | llm_agent/llm_agent/infrastructure/navigation/path_finders/genetic.py:258-277 | For all draws, mutation redraws throttles within the range and deletes at most one, never the last one; nothing changes at rate 0, and at rate 1 everything is redrawn and one deleted if there is more than one |
| Genetics.RedrawAt | llm_agent/llm_agent/infrastructure/navigation/path_finders/genetic.py:262-264 | A throttle takes the value of the next draw if its own draw falls below the rate, and stays otherwise |
| Genetics.ChildIsOne | llm_agent/llm_agent/infrastructure/navigation/path_finders/genetic.py:244-255 | For all draws, a child joins a non-empty prefix of one parent with a proper suffix of another at a different position, trimmed, and is legal if they are |
| Genetics.BredIsLegal | llm_agent/llm_agent/infrastructure/navigation/path_finders/genetic.py:244-255 | Children of legal parents are legal: never empty, never too long, in range |
| Genetics.BredAt | llm_agent/llm_agent/infrastructure/navigation/path_finders/genetic.py:244-255 | A child has the first parent's throttles up to its cut and the second's from its own, up to the maximal length |
| Genetics.OnlyArrivingIsFree | llm_agent/llm_agent/infrastructure/navigation/path_finders/genetic.py:190-210 | A score is at least the price of length and non-zero throttles, and equal to it if and only if the sequence reaches the target at an allowed speed |
| Genetics.ScoresDiffer | llm_agent/llm_agent/infrastructure/navigation/path_finders/genetic.py:203-212 | Two scores differ by the distance weight times the difference of the gaps, the speed weight times that of the speed penalties, the length weight times that of the lengths and the non-zero weight times that of the non-zero throttles |
| Genetics.FitnessIsScored | llm_agent/llm_agent/infrastructure/navigation/path_finders/genetic.py:189-212 | A score consists of the penalties reported with it, the length and the non-zero throttles of its sequence |
| Genetics.NoPenaltyScoresZero | llm_agent/llm_agent/infrastructure/navigation/path_finders/genetic.py:203-212 | Nothing else is charged |
| Genetics.GapMeans | llm_agent/llm_agent/infrastructure/navigation/path_finders/genetic.py:191-192 | The gap is the way between the distance driven and the target, on either side |
| Genetics.SpeedPenaltyMeans | llm_agent/llm_agent/infrastructure/navigation/path_finders/genetic.py:194-198 | No penalty from standstill to the threshold, and the distance from the threshold above it and for a negative speed |
| Genetics.NonzerosCounts | llm_agent/llm_agent/infrastructure/navigation/path_finders/genetic.py:203-204 | The count adds up over parts of a sequence, and a throttle counts exactly if it is not zero |
| Randomness.RandomSource.Sample | llm_agent/llm_agent/infrastructure/navigation/path_finders/genetic.py:236-241 | The elements at as many different positions as asked for, one draw for each; fails exactly when there are not that many |
| Randomness.SampleIsDrawn | llm_agent/llm_agent/infrastructure/navigation/path_finders/genetic.py:236-241 | For all draws a sample consists of different positions of the list |
| Randomness.EveryIntIsDrawn | llm_agent/llm_agent/infrastructure/navigation/path_finders/genetic.py:215-225 | Every integer of a range is drawn by some number, so that nothing random.randint can yield is left out |
| Randomness.EverySampleIsDrawn | llm_agent/llm_agent/infrastructure/navigation/path_finders/genetic.py:236-241 | Every list of different positions is sampled by some numbers, whatever was drawn before, so that nothing random.sample can yield is left out |
| Selection.SelectionIsBest | llm_agent/llm_agent/infrastructure/navigation/path_finders/genetic.py:228-233 | As many as asked for or as there are, all but so many for a negative count, in stable order of their scores, each before every one left out, earlier individuals first on equal scores |
| Selection.BestIsUnique | llm_agent/llm_agent/infrastructure/navigation/path_finders/genetic.py:228-233 | There is only one such selection |
| Selection.SliceLengthMeans | llm_agent/llm_agent/infrastructure/navigation/path_finders/genetic.py:232 | How many elements the slice keeps, for a negative count too |
| Kinematics.Conservation | llm_agent/llm_agent/infrastructure/navigation/path_finders/genetic.py:133-152 | Friction times distance equals (1 - friction) times the velocity lost plus the impulse given, for every sequence |
| Kinematics.MotionIsBounded | llm_agent/llm_agent/infrastructure/navigation/path_finders/genetic.py:133-152 | With positive mass, friction in (0, 1] and throttles in [0, T], speed stays between 0 and the greater of start and equilibrium speed, and the distance below length times that |
| Kinematics.MoreThrottleGoesFurther | llm_agent/llm_agent/infrastructure/navigation/path_finders/genetic.py:133-152 | Raising throttles never lowers final velocity or distance |
| Kinematics.CalculateTotalDistance | llm_agent/llm_agent/infrastructure/navigation/path_finders/genetic.py:140-152 | The accumulating loop computes distance and final velocity; fails exactly on a zero mass |
| Kinematics.DistancesAndVelocities | llm_agent/llm_agent/infrastructure/navigation/path_finders/genetic.py:280-293 | The trace loop computes position and velocity after every prefix |
| Kinematics.TraceEndsAtTotals | llm_agent/llm_agent/infrastructure/navigation/path_finders/genetic.py:280-293 | The last point of the trace is the start plus the total distance, at the final velocity |
| Kinematics.TotalsSplit | llm_agent/llm_agent/infrastructure/navigation/path_finders/genetic.py:140-152 | Driving two sequences in a row adds their distances, the second from the velocity the first ends with |
| Kinematics.TraceSplits | llm_agent/llm_agent/infrastructure/navigation/path_finders/genetic.py:280-293 | The trace of two sequences in a row is the first trace continued by the second |
| Kinematics.OneThrottle | llm_agent/llm_agent/infrastructure/navigation/path_finders/genetic.py:133-152 | One throttle adds its impulse, then friction takes its share, and the way covered is the new velocity |
| Kinematics.TraceAt | llm_agent/llm_agent/infrastructure/navigation/path_finders/genetic.py:280-293 | Every point of the trace is the start plus the distance of its prefix, at the velocity the prefix ends with |

## Left out

- HTTP routes, DTOs, authentication, dependency wiring, logging, the database set-up and the Conversation and Turn layers: no hard property.
- Concrete executors: an executor emits events whose names differ from those of the stores, and returns or raises at any time; what it does with the cancellation flag is its own affair.
- Event timestamps and payloads other than worker, user and error; the result of a run is an opaque text that the log does not carry.
- Custom tables passed to `RunTransitionPolicy`: the default table is built in.
- A `retry_count` of None in a transition request: no caller passes one.
- Unknown statuses in the rule table: every status has an entry in the default table.
- asyncio itself: tasks, locks and queues appear only as interleavings between store calls.
- Killing the heartbeat task in the middle of its store call: a call is one step, and leaving the scope stops the task between calls.
- LogDeterminesTableOr: says less of CANCELLED runs because the deprecated call really resets two of their fields; MarkCancelAgreesIff gives the exact condition.
- LoneWorkerNeverCrashes: for executions without the deprecated cancellation, which can end a run under a worker.
- OnlyIntentCrashes: for executions without the deprecated cancellation, for the same reason.
- OnlyOwnerFinalizes: for executions without the deprecated cancellation, for the same reason.
- IntentBeforeReadHolds: without the deprecated cancellation up to the executor's return; afterwards anything may happen.
- CancellationIsCaused: for executions without the deprecated cancellation, which cancels without intent.
- ConsumeAndExecuteLoop: is related to executions of the whole system execution by execution (ExecutionIsServed) and turn by turn to the machine (TurnFollowsMachine), not in one statement on the whole loop, because the system also lets a shutdown come between two turns, where the program does not suspend.
- AttemptsAreConserved: for executions without the deprecated cancellation, which resets the retry count; AttemptsAreConservedOr covers the others.
- LogDeterminesTable: for executions without the deprecated cancellation, for the same reason; LogDeterminesTableOr covers the others.
- EndedByOwnerOrSwept: for executions without the deprecated cancellation, which ends a run whoever owns it.
- ShutdownIsFinal: for executions without the deprecated cancellation, for the same reason.
- Sweep: asks for a clock reading for every run, also for those the loop skips, which it never looks at.
- Failure of the genetic search: that it fails is exact, but which of several exceptions is raised first is not part of the contract.
- Floating-point rounding, how Python turns random bits into integers and samples, probability distributions, quality and convergence of the genetic search: the best score is not monotone over generations, since nothing keeps the best individual.
- `GeneticPathFinderStrategy.find_path`, which only builds the input of the search: no property of its own.
