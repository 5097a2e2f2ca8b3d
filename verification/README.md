# QWorker: the rescue protocol and its retry machines

QWorker runs a pool of worker processes. Each worker keeps the tasks it has accepted in an asyncio queue that may grow
above its configured size, and mirrors that queue in a ledger in shared state. A supervisor thread watches heartbeats,
drains and kills stuck workers, pushes the ledger of a dead worker to a Redis stream, and respawns the process. Around
that core stand small machines: the container dispatcher's retry and poll loops, the memory monitor, RabbitMQ
redelivery, and the client's round robin. This project models them and proves what they keep over every run.

## Reading order

| file | what it holds |
|---|---|
| `Common.dfy`, `Decimal.dfy` | optional values, sequences without an element; decimal numerals and their round trip |
| `SharedState.dfy`, `StateTracker.dfy` | a worker's entry and what each tracker method does to it; the tracker as a class |
| `TaskHistory.dfy` | runs of tracker calls: the completed ring against the full log, the active lists against the open starts |
| `WorkerProcess.dfy` | one worker, step by step between two awaits, with crashes; the three views of the waiting tasks |
| `CheckDecision.dfy`, `Supervisor.dfy` | the supervisor's decision; the supervisor as a class over the job list, the table and the stream |
| `RescueProtocol.dfy`, `RescueGuarantees.dfy` | workers and supervisor as one transition system, its invariant, and what follows for every run |
| `RescueFutures.dfy` | what a rescue or a late put can still lead to: the exact conditions for a doubled and for a lost task |
| `MethodRuns.dfy` | the methods of the manager and of the supervisor are runs of that transition system |
| `HeartbeatRuns.dfy` | its runs as one worker's entry sees them: when a running process is killed |
| `QueuePolicy.dfy`, `ElasticQueue.dfy`, `QueueManager.dfy` | the sizing policy, the elastic queue under every interleaving, the manager as a class, readiness |
| `Dispatcher.dfy`, `ResourceMonitor.dfy` | container routing, dispatch and polling; the two-threshold automaton |
| `RabbitRedelivery.dfy`, `RoundRobin.dfy` | redelivery with the x-retry header; the client's connection attempts |

## Premises

- Code between two awaits is atomic inside a worker. It is not atomic against a crash or the supervisor: in
  `WorkerProcess` every single write of such a stretch is a step, and any supervisor step or crash may come between two.
- A tracker or supervisor method that reads an entry and replaces it is one step. Two of them that split their read and
  write across processes could overwrite each other (`qw/state.py:313-319`, `qw/supervisor.py:250-256`).
- Task ids are unique. Calls on the shared-state proxies and on the broker do not raise; a Redis failure while rescuing
  does, per entry or for the whole connection, and makes the entry a recorded failed push. Tasks can be serialised for
  the ledger. flowtask imports, so the exception tuple at `qw/queues/manager.py:439-446` exists.
- The job list holds a process of its own in every slot (`qw/process.py` starts one per worker).
- A SIGKILL takes effect before the respawn. Clock readings are reals; in the protocol every check may read any time, so
  its guarantees hold for all clocks; `BoundedReplacement` says how checks and readings must be spaced.
- A sleep lasts at least its interval, and a poll of a backend takes some least time, however small. A putter woken from `queue.put` may look again at any time, which covers every
  wake-up order of asyncio.
- "Taken alive": a rescue emptied the ledger while the worker's process was running and the ledger listed the task.
  "Listed late": a put wrote the ledger entry while the rescue of its own worker was under way. Both are said of the steps
  of the run; a rescue of another worker, or of another task, takes nothing from a guarantee.

## Where the code differs from what it says

- `qw/queues/manager.py:398-403` says a task still in the ledger cannot be executed twice by a rescue. The drain-timeout
  kill rescues before it terminates (`qw/supervisor.py:425-457`), and `LiveRescueDoubles` is a run in which the worker
  starts a task that is also in the stream. Exactly: a rescue that takes a task can lead to that if and only if the process
  it is taken from is running and has a handler at all, which a `base_size` of 1 denies it (`RescueCanDouble`), no other
  task is ever both (`NotBoth`), and it happens at exactly two kinds of step, while that rescue is under way
  (`BecomesBoth`).
- A put that passed the draining guard before such a rescue adds to the ledger after it, and the respawned worker
  overwrites that entry: `LiveRescueLoses` is a run that loses an acknowledged task. Exactly: a ledger entry can lead to
  that if and only if it is written while its worker's rescue is under way (`LateListingLoses`), and a held task slips out
  of everybody's hands at exactly one kind of step (`LostExactly`).
- A respawned process that has not yet written its entry is judged on the entry of the one it replaces:
  `KilledBeforeBoot` is a run whose next check kills it. A running process is killed only for its own silence (`KillSound`).
- `should_use_container` (`qw/backends/dispatch.py:192-217`) promises to answer whether a container backend would be
  selected. `QuickCheckMisled` is an input where it would not be; `QuickCheckExact` is the exact condition.
- `get_connection` keeps a local table that it resets on success, but counts refusals in another one that is never reset
  (`qw/client.py:172`, `qw/client.py:190`, `qw/client.py:209`): `SuccessResetsNothing` is a client whose every call
  succeeded and whose next refusal raises. Exactly: whatever connected in between, a call of a client raises for a worker
  if and only if it is refused there and the worker has by then been refused more than five times in the client's life
  (`LifetimeRaises`, `NextRefusalRaises`).
- A worker that dies between the nack and the new publication loses a message that has retries left (`CrashLoses`), and
  nothing else loses one (`RabbitRedelivery.LostExactly`).

## Model

| member | source | states |
|---|---|---|
| RescueGuarantees.Conservation | qw/supervisor.py:290-354 | In every run an acknowledged task is held at most once by a ledger, the rescue in progress, the stream and the failed pushes together; if it was not taken alive it is not released besides; if it was not listed late it is held or released: with neither, exactly one |
| RescueGuarantees.LostExactly | qw/state.py:30-44 | A step leaves a task that someone holds neither held nor released if and only if it is a worker's initialisation over an entry whose ledger lists it |
| RescueGuarantees.NotBoth | qw/queues/manager.py:398-414 | A task both started and in the stream was itself taken alive, from its own worker's ledger |
| RescueGuarantees.BecomesBoth | qw/supervisor.py:425-457 | A step makes a task both started and pushed if and only if it starts a pushed task or pushes a started one; then the rescue of the task's own worker is under way, and began with that process running if the step is the worker's |
| RescueFutures.RescueCanDouble | qw/supervisor.py:425-457 | For every number of handlers: a rescue that takes a task has a continuation within them that makes it both started and pushed if and only if the process is running and there is a handler |
| RescueFutures.LateListingLoses | qw/queues/manager.py:267-274 | A put's ledger entry has a continuation in which the acknowledged task is in nobody's hands if and only if it is written while the rescue of its worker is under way |
| RescueGuarantees.PushedOnceInOrder | qw/supervisor.py:316-336 | In every run no task is pushed twice, and the pushes for one worker stand in the order its ledger accepted them |
| RescueGuarantees.ThreeViewsAgree | qw/queues/manager.py:267-284 | At every await point before a rescue, ledger, queued records and admitted queue items list the same distinct ids in the same order |
| RescueGuarantees.DrainingLedger | qw/supervisor.py:248-256 | While a worker is draining its ledger is a suffix of the ledger at the mark, then at most one entry of a put past its guard |
| RescueGuarantees.DeadIsReplaced | qw/supervisor.py:176-188 | In every run, whatever comes in between: once the supervisor is at rest after a check that found a process dead, the ledger is empty, every task it listed was pushed or is a recorded failure, and a new process boots if the spawn succeeded |
| RescueGuarantees.LiveRescueDoubles | qw/supervisor.py:425-457 | A run with a live rescue after which one task is started and in the stream |
| RescueGuarantees.LiveRescueLoses | qw/supervisor.py:425-457 | A run with a live rescue after which an acknowledged task is in nobody's hands |
| RescueProtocol.InvStep | qw/supervisor.py:412-484 | Every step of a worker, of the supervisor and of Redis keeps the protocol's invariant |
| RescueProtocol.InvExec | qw/supervisor.py:117-144 | So does every run |
| WorkerProcess.ViewInvStep | qw/queues/manager.py:390-434 | Every step of a worker keeps the relation of its three views, with any number of consumers and retries |
| WorkerProcess.UnlistTakesHead | qw/queues/manager.py:398-408 | Outside a rescue, ledger_remove takes the head of the ledger for an admitted task and nothing for a retried one |
| WorkerProcess.DrainInvStep | qw/queues/manager.py:216-279 | Every step of a worker keeps the draining ledger a suffix of the marked one plus at most one entry |
| MethodRuns.PutIsRun | qw/queues/manager.py:216-284 | Through QueueManager.Put: an accepted put is the protocol's four steps, one refused for want of room the guard alone, one refused by a draining worker none; manager, queue and tracker show the slot after them |
| MethodRuns.BeginIsRun | qw/queues/manager.py:390-414 | Through QueueManager.BeginTask: a consumer's stretch to the start of its task is the protocol's four steps, and the manager shows the slot after them |
| MethodRuns.RetryIsRun | qw/queues/manager.py:462-464 | Through QueueManager.RetryPut: one step once there is room, none while it blocks |
| MethodRuns.EndIsRun | qw/queues/manager.py:491-493 | Through QueueManager.RecordEnd: the end of an execution, before or after its retry was queued, is one step |
| MethodRuns.BeatIsRun | qw/state.py:251-260 | Through StateTracker.UpdateHeartbeat: the heartbeat loop's write is one step |
| MethodRuns.StatusIsMark | qw/state.py:262-279 | set_status leaves the table exactly as the supervisor's own marks do |
| MethodRuns.DrainIsRescue | qw/state.py:339-355 | ledger_drain leaves the table exactly as the supervisor's rescue does, and returns what the rescue pushes |
| MethodRuns.PushesAreRescued | qw/supervisor.py:316-336 | The protocol's pushes, entry by entry, append to the stream what RescueTasks appends |
| MethodRuns.CheckWorkerIsRun | qw/supervisor.py:170-242 | An undisturbed run of the protocol's steps for one check changes entry, process and stream as CheckWorker does, and nothing else |
| Supervision.ProcessSupervisor.MarkDraining | qw/supervisor.py:248-256 | Status draining with the time, in that worker's entry only; nothing for an unknown worker |
| Supervision.ProcessSupervisor.MarkHealthy | qw/supervisor.py:258-266 | Status healthy and no time, in that worker's entry only; nothing for an unknown worker |
| Supervision.ProcessSupervisor.RescueTasks | qw/supervisor.py:272-354 | The ledger is emptied; the stream grows by the entries, payload and id, at exactly the positions Redis takes, in order; their number is returned; a Redis that takes everything is given the whole ledger |
| Supervision.RescuedExactly | qw/supervisor.py:316-336 | What a rescue pushes is the ledger at an increasing sequence of positions that holds k exactly when Redis is connected and takes the k-th |
| Supervision.ProcessSupervisor.KillAndRespawn | qw/supervisor.py:412-484 | The ledger is rescued, the process is dead, and a live process of that name takes the slot exactly if the spawn succeeds |
| Supervision.ProcessSupervisor.CheckWorker | qw/supervisor.py:170-242 | A dead process, whatever its entry says: ledger emptied and rescued, a fresh live process in the slot if the spawn succeeds. A live one, by status, heartbeat and draining_since: back to healthy, killed past the drain timeout, marked draining, or left as it is; and nothing else changes |
| Supervision.ProcessSupervisor.Cycle | qw/supervisor.py:125-160 | Every process whose name carries the prefix, and no other, is inspected under prefix_slot: a dead one is rescued and replaced, a live one judged on the state before the round, without disturbing the others; messages are appended in slot order |
| HeartbeatRuns.StatusIffSince | qw/supervisor.py:248-266 | In every run of the protocol the status of an entry is draining exactly when draining_since is set |
| HeartbeatRuns.KillSound | qw/supervisor.py:202-242 | In every run of the protocol a running process is killed only if it was itself marked (no boot since) more than the drain timeout ago and every check since found it running with a stale heartbeat |
| HeartbeatRuns.KilledBeforeBoot | qw/supervisor.py:196-240 | For all timeouts, a run whose last step spawns a process that the next check kills on its predecessor's entry |
| HeartbeatRuns.BoundedReplacement | qw/supervisor.py:196-240 | With the heartbeat of a running healthy worker frozen at h and its checks at gaps of at most d, whatever else the protocol does, the first check that kills it comes after h + heartbeat timeout + drain timeout and at most 2d plus the delay between two clock readings later |
| StateTracking.StateTracker.TaskExecuting | qw/state.py:134-177 | From the queue: exactly the records of that id become executing, in place; from elsewhere: a new record at the end of that source's list, unknown sources sharing the TCP list |
| StateTracking.StateTracker.MarkExecuting | qw/state.py:150-159 | The loop over the queue list marks exactly the records of the id, in place |
| StateTracking.StateTracker.TakeFirst | qw/state.py:194-204 | The loop takes out the first record of the id and keeps the others in order |
| StateTracking.StateTracker.TaskCompleted | qw/state.py:179-230 | The first record of that id leaves the list of its source and enters the ring, the last ten, with the given result, completed, timed, its duration from its start; a made-up record of no duration if there was none; nothing else changes |
| SharedState.QueuedIdsStart | qw/state.py:150-165 | Marking a task executing takes exactly its id out of the queued view and keeps the order |
| SharedState.LedgerIdsDrop | qw/state.py:332-337 | Removing a task takes exactly its id out of the ledger view and keeps the order |
| TaskHistory.RingRefinesLog | qw/state.py:225-229 | After any tracker calls the completed list is the last ten of the unbounded completion log |
| TaskHistory.ActiveIsOpen | qw/state.py:166-206 | For every source but the queue the active list is exactly the starts nothing has completed since, in order, if ids do not repeat |
| QueuePolicy.QueueSizePolicy.Create | qw/queues/policy.py:38-48 | A policy is made exactly from a valid configuration, at its base size |
| QueuePolicy.QueueSizePolicy.RegisterGrow | qw/queues/policy.py:125-134 | Raises and changes nothing exactly when the margin is used up; otherwise one slot and one event more |
| QueuePolicy.QueueSizePolicy.RegisterShrink | qw/queues/policy.py:136-139 | One slot less, never below the base |
| ElasticQueue.PutAccepts | qw/queues/manager.py:244-265 | A put is accepted exactly below the ceiling, the second put_nowait never raises, and the counters and the queue change accordingly |
| ElasticQueue.GrowIsHighUsage | qw/queues/manager.py:286-289 | Every grow also restarts the shrink cooldown |
| ElasticQueue.PutsUpToCeiling | qw/queues/manager.py:216-265 | Puts with no gets accept exactly min(n, ceiling - size) and discard the rest, whatever shrink ticks come between |
| ElasticQueue.QuietShrink | qw/queues/manager.py:299-313 | In a quiet, low queue k ticks past the cooldown leave the maxsize at max(base, m - k) and all else as it was |
| ElasticQueue.CapacityStep | qw/queues/manager.py:156-168 | Every event of putters, consumers, blocked retry putters and the shrink monitor keeps the capacity invariant |
| ElasticQueue.Capacity | qw/queues/policy.py:94-139 | In every run size <= maxsize = the policy's, base <= maxsize <= ceiling, and maxsize = base + grows - shrinks |
| ElasticQueue.ShrinkAfterCooldown | qw/queues/policy.py:102-123 | In every run a shrink is by one, at least the cooldown after the last grow and the last high usage, and with the queue no fuller than the low watermark |
| ElasticQueue.ShrinksExactly | qw/queues/manager.py:304-310 | A tick shrinks if and only if the queue is above its base, no fuller than the low watermark, and the cooldown is over |
| ElasticQueue.PutRestartsCooldown | qw/queues/manager.py:286-289 | An accepted put above the low watermark, grown or not, restarts the cooldown, and no other put does |
| ElasticQueue.JoinExact | qw/queues/manager.py:482-484 | The unfinished count is zero exactly when nothing is queued and no consumer has a task in hand, retries included |
| ElasticQueue.TaskDoneNeverRaises | qw/queues/manager.py:482-484 | Whenever a consumer reaches task_done the count is positive |
| ElasticQueue.OutstandingStep | qw/queues/manager.py:452-470 | A finished execution lowers its task's outstanding executions and no other's; only an accepted put raises them |
| ElasticQueue.RetriesTerminate | qw/queues/manager.py:452-470 | A task put once runs at most max(1, retry count - initial retries) times in every interleaving |
| ElasticQueue.RetriesUsedUp | qw/queues/manager.py:452-470 | A task that asks for retries and always fails is executed exactly max(1, retry count - initial retries) times, in every interleaving, once nothing of it is left |
| ElasticQueue.FinishExactly | qw/queues/manager.py:439-470 | A handler retries exactly a retryable failure below the limit, with one retry more |
| ElasticQueue.RequeueExactly | qw/queues/manager.py:462-464 | The retry goes to the end of the queue if there is room, and blocks otherwise |
| QueueManagement.QueueManager.PutOrGrow | qw/queues/manager.py:243-265 | The queue part of put: enqueue, or grow and enqueue, or discard |
| QueueManagement.QueueManager.Put | qw/queues/manager.py:195-295 | Accepted exactly if not draining and below base + margin; an accepted task, and nothing else, is added to queue, ledger (with its payload) and queued records; the warning flag follows the warn ratio |
| QueueManagement.QueueManager.ShrinkTick | qw/queues/manager.py:304-310 | One wake-up takes one slot exactly above the base, at or below the low watermark and past the cooldown |
| QueueManagement.QueueManager.BeginTask | qw/queues/manager.py:394-414 | The head of the queue leaves queue and ledger and its record is executing |
| QueueManagement.QueueManager.RetryPut | qw/queues/manager.py:462-464 | The retry's put blocks exactly on a full queue and otherwise only appends: no ledger, no guard, no growth |
| QueueManagement.QueueManager.TaskDone | qw/queues/manager.py:482-484 | Only the unfinished count changes |
| QueueManagement.QueueManager.RecordEnd | qw/queues/manager.py:491-493 | The record moves to the completed ring with its result |
| QueueManagement.QueueManager.FireConsumers | qw/queues/manager.py:170-178 | base_size - 1 handlers and one shrink task, all distinct |
| QueueManagement.QueueManager.MonitorTick | qw/queues/manager.py:335-360 | For any set of dead tasks: staffing is kept, each dead task and no other is replaced by a new one of its kind, and respawn_events rises by their number |
| QueueManagement.QueueManager.TakeSnapshot | qw/queues/manager.py:95-123 | base_size - 1 consumers, the living ones among them, and the queue's and the policy's figures |
| QueueManagement.ReadinessExact | qw/health.py:174-223 | Readiness answers 200 if and only if a put at that instant is accepted |
| QueueManagement.ProbeThenPut | qw/health.py:188-223 | Through the methods: a probe reads the snapshot and answers 200 exactly if the put that follows it is accepted |
| Dispatching.MatchTaskMapping | qw/backends/dispatch.py:158-190 | The first mapping that matches and whose container is configured, or none if there is none |
| Dispatching.ResolveBackend | qw/backends/dispatch.py:81-134 | The task's own config first, then the first serving mapping, then overflow to Kubernetes, else local; an error exactly for an own config that is not configured |
| Dispatching.ShouldUseContainer | qw/backends/dispatch.py:192-217 | True exactly when the worker overflows or some mapping matches the name |
| Dispatching.QuickCheckExact | qw/backends/dispatch.py:192-217 | The quick check agrees with the resolved backend if and only if the worker overflows, a configured mapping matches, or none matches |
| Dispatching.QuickCheckMisled | qw/backends/dispatch.py:192-217 | An input where the quick check says container and the task runs locally |
| Dispatching.BackendDispatcher.PollUntilDone | qw/backends/dispatch.py:316-385 | Polls go on over pending and running and stop at any other answer; then the result is the fetched one, or a failure exactly if the fetch raised, and the task is cleaned up; without such an answer, only past the deadline, it is cancelled; started before the deadline it is polled at least once |
| Dispatching.BackendDispatcher.Attempt | qw/backends/dispatch.py:241-304 | One turn of the retry loop: a dispatch that succeeds is followed to its end, whose result is final if a success or the last turn; or its cleanup is scheduled |
| Dispatching.BackendDispatcher.DispatchAndTrack | qw/backends/dispatch.py:219-314 | For all intervals: at most max(1, retry count) dispatch calls, exactly so many if it ends without success; success exactly if the last fetch brought it, and none before did; every successful dispatch ended once, in order; fire-and-forget ends at the first; all polls share one deadline |
| Dispatching.PollsRoundUp | qw/backends/dispatch.py:334-348 | So there are at most ceil(timeout / min(poll interval, retry interval)) polls, and none for a timeout of zero |
| ResourceMonitoring.ResourceMonitor.ShouldOverflow | qw/backends/monitor.py:69-93 | Switches on at the high threshold and answers the mode; without a reading answers false and changes nothing |
| ResourceMonitoring.ResourceMonitor.ShouldRecover | qw/backends/monitor.py:95-118 | Switches off at the low threshold and is true exactly on that call |
| ResourceMonitoring.NoFlapping | qw/backends/monitor.py:83-118 | (switches - 1) times the gap between the thresholds is at most the total variation of the readings |
| ResourceMonitoring.ModeExact | qw/backends/monitor.py:83-118 | Overflow is on exactly when some activating reading has had no later clearing reading |
| RabbitRedelivery.RabbitMQConnection.WrappedCallback | qw/broker/rabbit.py:305-382 | Success: acked and settled. Failure with header c (0 if missing): within the limit replaced by one new last copy, queued, same origin, content and route, header c + 1; beyond it discarded. Unreadable header: nothing settled. Other messages untouched; and all this is a run of the protocol |
| RabbitRedelivery.OneCurrentCopy | qw/broker/rabbit.py:346-375 | In every run, crashes included, each message has exactly one copy that was not replaced, and all copies have the same body, other properties and route |
| RabbitRedelivery.SettledOnce | qw/broker/rabbit.py:322-381 | No delivery is settled twice, and a delivery of the open connection is settled exactly unless its callback still holds it |
| RabbitRedelivery.DiscardedAfter | qw/broker/rabbit.py:345-381 | A message is discarded after exactly max(0, max_retries - r) + 1 failed deliveries from header r, and before that it is alive, acked or lost; one with an unreadable header never |
| RabbitRedelivery.EndIsFinal | qw/broker/rabbit.py:322-381 | Once acked, discarded or lost a message stays so and has no later copy |
| RabbitRedelivery.LostExactly | qw/broker/rabbit.py:351-375 | A message ends lost if and only if a crash struck while it was dropped and not yet published again |
| RabbitRedelivery.CrashLoses | qw/broker/rabbit.py:351-375 | A crash between nack and publication loses a message that has a retry left |
| RabbitRedelivery.InvStep | qw/broker/rabbit.py:305-382 | Every step keeps the chain of copies, the settlement of tags and the count in the header |
| Decimal.ParseShow | qw/broker/rabbit.py:337-354 | The count written to the header as text is read back as itself |
| Decimal.ParseExactly | qw/broker/rabbit.py:337-344 | The header text reads as a number exactly if it is digits with at most one sign |
| Decimal.ShowIs | qw/broker/rabbit.py:354-354 | What the written numeral is, digit by digit |
| RoundRobin.QClient.RoundRobinWorker | qw/client.py:46-56 | The next worker of the cycle, or nothing from an empty one |
| RoundRobin.QClient.GetConnection | qw/client.py:171-234 | Attempt k goes to worker k mod n of the cycle; every outcome before the last is a timeout or a refusal; the last one decides: connection to that worker, discard, other error, or the retry limit when its worker has been refused more than 5 times; counters grow by exactly the refusals met |
| RoundRobin.CallIs | qw/client.py:178-229 | The same of the specification the run theorems are about |
| RoundRobin.RefusalsTakeSlack | qw/client.py:204-229 | Whatever a call meets, all its refusals but a raising one take slack: exactly one each for distinct workers, so a call meets at most 1 + sum of max(0, 5 - r_w) |
| RoundRobin.LifetimeRefusals | qw/client.py:204-229 | Over any sequence of calls, refusals met = slack used up + calls that raised |
| RoundRobin.CounterIsLifetime | qw/client.py:208-221 | Over any calls, however they end, a worker's counter grows by exactly the refusals met there |
| RoundRobin.RaisesExactly | qw/client.py:204-229 | For any ring and counters: a call raises for a worker if and only if it met a refusal there and counter plus refusals exceed 5 |
| RoundRobin.LifetimeRaises | qw/client.py:171-229 | A call of a client with any past raises for a worker if and only if it is refused there and the worker's refusals over the client's life exceed 5 |
| RoundRobin.NextRefusalRaises | qw/client.py:208-213 | A refusal by the next worker raises if and only if that worker has been refused 5 times before, whatever succeeded |
| RoundRobin.SpentClientRaises | qw/client.py:208-213 | When every worker of the ring is spent, a call meets one refusal if it raises and none otherwise |
| RoundRobin.SuccessResetsNothing | qw/client.py:190-210 | Five calls that each met one refusal and then connected leave a client whose next refusal raises |
| RoundRobin.CarriedOverRaises | qw/client.py:204-229 | From any counters, a call that is always refused raises, after at most 1 + sum of max(0, 5 - r_w) attempts |
| RoundRobin.AllRefused | qw/client.py:171-234 | If n distinct fresh workers all refuse, the call raises after exactly 5n + 1 attempts, at the first worker |

## Left out

- Sockets, HTTP, signatures, JSON, cloudpickle, base64: payloads are opaque and steps succeed or fail.
- TaskExecutor, wrappers and flowtask: an execution is an oracle that succeeds, times out, or fails for good or for retry.
- Docker and Kubernetes backends: a backend may answer anything; only the contract of the base class is used.
- psutil and fnmatch: a reading is a parameter, and so is the matching predicate.
- RabbitMQ connect, reconnect and consumer setup: a crash stands for a lost connection, after which the broker takes back what was unsettled.
- The stream's consumer group (`start_subscription`): the stream is the sink of rescued tasks.
- `empty_queue` and shutdown: they drain the queue without touching the ledger, so the views stop agreeing there by design.
- The monitor's `reset` and the critical log of the consumer monitor: single assignments and messages.
- Worker discovery when the client has no list: `GetConnection` starts from the list it has; timeouts are modelled but, as in the code, not counted.
- WorkerProcess.Next: whether a put finds room is open in the protocol; capacity is the subject of the elastic queue.
- Progress: `base_size` 1 starts no handler, and all handlers can block in the retry's put; nothing here claims that a task is eventually run.
- AsyncQueue: its waiters are not modelled; a blocked putter is a consumer that may look again at any time.
- Decimal.Parse: reads an optional sign and ASCII digits; the blanks, underscores and other digits that int() also takes, and its length limit, are not modelled.
- HeartbeatRuns.BoundedReplacement: premises that the worker neither beats, boots nor crashes meanwhile, and that its checks and marks keep the stated pace.
- Dispatching.BackendDispatcher.DispatchAndTrack: takes the resolved backend as given; a resolution error is raised before the loop and dispatches nothing.
- Supervision.ProcessSupervisor.Cycle: the wait between rounds and the stop event are not modelled.
