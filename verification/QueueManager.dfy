/** qw/queues/manager.py as a class: put, the shrink monitor's tick, the consumer pool and its monitor,
    and the readiness decision of qw/health.py. Each method is one stretch of code between two awaits. */
module QueueManagement {
  import opened Common
  import opened SharedState
  import opened StateTracking
  import opened QueuePolicy
  import opened ElasticQueue

  /** asyncio.Queue, without its waiters. */
  class AsyncQueue {
    var items: seq<Task>
    var maxsize: int
    var unfinished: nat

    constructor (maxsize: int)
      ensures items == [] && this.maxsize == maxsize && unfinished == 0
    {
      items, this.maxsize, unfinished := [], maxsize, 0;
    }

    predicate Full()
      reads this
    {
      maxsize > 0 && |items| >= maxsize
    }

    /** Raises QueueFull, leaving the queue alone, exactly when it is full. */
    method PutNowait(task: Task) returns (raised: bool)
      modifies this
      ensures raised <==> old(Full())
      ensures maxsize == old(maxsize)
      ensures !raised ==> items == old(items) + [task] && unfinished == old(unfinished) + 1
      ensures raised ==> items == old(items) && unfinished == old(unfinished)
    {
      if Full() {
        return true;
      }
      items, unfinished := items + [task], unfinished + 1;
      raised := false;
    }
  }

  datatype Kind = Handler | ShrinkMonitor

  /** An asyncio task: its identity, and the coroutine it runs. */
  datatype AsyncTask = AsyncTask(identity: nat, kind: Kind)

  datatype Snapshot = Snapshot(
    size: nat, maxSize: int, baseSize: int, growMargin: int, ceiling: int, growEvents: nat, discardEvents: nat,
    full: bool, consumerAlive: nat, consumerTotal: nat, respawnEvents: nat)

  /** How many of the tasks are done. */
  function Dead(tasks: seq<AsyncTask>, done: set<nat>): nat {
    if tasks == [] then 0
    else Dead(tasks[..|tasks| - 1], done) + (if tasks[|tasks| - 1].identity in done then 1 else 0)
  }

  /** Handlers and, last, the one shrink monitor: all distinct, all made before `next`. */
  ghost predicate Crew(tasks: seq<AsyncTask>, next: nat) {
    && tasks != []
    && (forall k :: 0 <= k < |tasks| ==> tasks[k].identity < next)
    && (forall j, k :: 0 <= j < k < |tasks| ==> tasks[j].identity != tasks[k].identity)
    && (forall k :: 0 <= k < |tasks| ==> (k == |tasks| - 1 <==> tasks[k].kind == ShrinkMonitor))
  }

  /** A done task makes way for a new one of its kind; any other stays. */
  predicate Renewed(was: AsyncTask, now: AsyncTask, done: set<nat>, firstNew: nat) {
    && now.kind == was.kind
    && (if was.identity in done then now.identity >= firstNew else now == was)
  }

  /** The list that a round of the monitor has built so far. */
  ghost predicate Pool(tasks: seq<AsyncTask>, alive: seq<AsyncTask>, done: set<nat>, firstNew: nat, next: nat) {
    && firstNew <= next && |alive| <= |tasks|
    && (forall k :: 0 <= k < |alive| ==> alive[k].identity < next)
    && (forall k :: 0 <= k < |alive| ==> Renewed(tasks[k], alive[k], done, firstNew))
    && (forall j, k :: 0 <= j < k < |alive| ==> alive[j].identity != alive[k].identity)
  }

  lemma PoolGrows(
    tasks: seq<AsyncTask>, alive: seq<AsyncTask>, done: set<nat>, firstNew: nat, next: nat, r: AsyncTask, next': nat)
    requires Crew(tasks, firstNew) && Pool(tasks, alive, done, firstNew, next) && |alive| < |tasks|
    requires var t := tasks[|alive|];
             if t.identity in done then r.kind == t.kind && r.identity == next && next' == next + 1
             else r == t && next' == next
    ensures Pool(tasks, alive + [r], done, firstNew, next')
  {
    forall j | 0 <= j < |alive|
      ensures alive[j].identity != r.identity
    {
      assert Renewed(tasks[j], alive[j], done, firstNew);
    }
  }

  lemma PoolStaffs(tasks: seq<AsyncTask>, alive: seq<AsyncTask>, done: set<nat>, firstNew: nat, next: nat)
    requires Crew(tasks, firstNew) && Pool(tasks, alive, done, firstNew, next) && |alive| == |tasks|
    ensures Crew(alive, next)
  {
    forall k | 0 <= k < |alive|
      ensures k == |alive| - 1 <==> alive[k].kind == ShrinkMonitor
    {
      assert Renewed(tasks[k], alive[k], done, firstNew);
    }
  }

  lemma DeadGrows(tasks: seq<AsyncTask>, i: nat, done: set<nat>)
    requires i < |tasks|
    ensures Dead(tasks[..i + 1], done) == Dead(tasks[..i], done) + if tasks[i].identity in done then 1 else 0
  {
    assert tasks[..i + 1][..i] == tasks[..i];
  }

  /** What PutAccepts says of a put's answer and of the items. */
  lemma PutDirectly(core: Core, task: Task, now: real)
    requires core.Bounded()
    ensures core.Put(task, now).1 <==> |core.items| < core.policy.baseSize + core.policy.growMargin
    ensures core.Put(task, now).0.items == core.items + if core.Put(task, now).1 then [task] else []
  {
    PutAccepts(core, task, now);
  }

  class QueueManager {
    const policy: QueueSizePolicy
    const queue: AsyncQueue
    const tracker: StateTracker?
    var warnActive: bool
    var consumers: seq<AsyncTask>
    var shrinkTask: AsyncTask
    var respawnEvents: nat
    var nextIdentity: nat

    constructor (policy: QueueSizePolicy, tracker: StateTracker?)
      ensures this.policy == policy && this.tracker == tracker && fresh(queue)
      ensures ManagerCore() == NewCore(policy.View())
      ensures consumers == [] && respawnEvents == 0 && !warnActive
    {
      this.policy, this.tracker := policy, tracker;
      queue := new AsyncQueue(policy.currentMaxsize);
      warnActive, consumers, respawnEvents, nextIdentity := false, [], 0, 1;
      shrinkTask := AsyncTask(0, ShrinkMonitor);
    }

    /** The queue and its policy as one value. */
    function ManagerCore(): Core
      reads policy, queue
    {
      Core(policy.View(), queue.items, queue.maxsize, queue.unfinished)
    }

    predicate Tracked()
      reads if tracker == null then {} else {tracker.table}
    {
      tracker != null ==> tracker.Registered()
    }

    predicate IsDraining()
      requires Tracked()
      reads if tracker == null then {} else {tracker.table}
    {
      tracker != null && tracker.Entry().status == Draining
    }

    method ApplyMaxsize(newMax: int)
      modifies queue
      ensures queue.maxsize == newMax
      ensures queue.items == old(queue.items) && queue.unfinished == old(queue.unfinished)
    {
      queue.maxsize := newMax;
      // one blocked putter is woken here; it checks for room again when it runs
    }

    /** put_nowait; if full, grow by one and try again, or count a discard. */
    method PutOrGrow(task: Task) returns (accepted: bool)
      modifies policy, queue
      ensures (ManagerCore(), accepted) == old(ManagerCore()).Admit(task)
    {
      var full := queue.PutNowait(task);
      if full {
        if policy.View().CanGrow() {
          var _ := policy.RegisterGrow();
          ApplyMaxsize(policy.currentMaxsize);
          var again := queue.PutNowait(task);
          return !again;
        } else {
          policy.RegisterDiscard();
          return false;
        }
      }
      accepted := true;
    }

    /** Ledger first, then the queued record. */
    method RecordPut(task: Task, payload: string, functionName: string, now: real)
      requires Tracked()
      modifies if tracker == null then {} else {tracker.table}
      ensures tracker != null ==>
                var e := old(tracker.Entry());
                tracker.table.entries == old(tracker.table.entries)[tracker.workerName :=
                  QueueTask(AddToLedger(e, task.id, payload, now), task.id, functionName, now)]
      ensures tracker != null ==>
                var e := old(tracker.Entry());
                tracker.Entry() == e.(
                  ledger := e.ledger + [LedgerEntry(task.id, payload, now)],
                  queue := e.queue + [TaskRecord(task.id, functionName, now, None, None, None, Queued, "", FromQueue)])
    {
      if tracker != null {
        tracker.LedgerAdd(task.id, payload, now);
        tracker.TaskQueued(task.id, functionName, now);
      }
    }

    /** The warning flag follows the warn ratio. */
    method UpdateWarning()
      modifies this`warnActive
      ensures warnActive <==> (
                policy.currentMaxsize > 0
                && |queue.items| as real / policy.currentMaxsize as real >= policy.warnRatio)
    {
      var warn := policy.View().ShouldWarn(|queue.items|);
      if warn && !warnActive {
        warnActive := true;
      } else if !warn && warnActive {
        warnActive := false;
      }
    }

    /** put past the draining guard. */
    method PutPastGuard(task: Task, payload: string, functionName: string, now: real) returns (accepted: bool)
      requires Tracked()
      modifies policy, queue, if tracker == null then {} else {tracker.table}
      ensures (ManagerCore(), accepted) == old(ManagerCore()).Put(task, now)
      ensures tracker != null && !accepted ==> tracker.table.entries == old(tracker.table.entries)
      ensures tracker != null && accepted ==>
                var e := old(tracker.Entry());
                tracker.table.entries == old(tracker.table.entries)[tracker.workerName :=
                  QueueTask(AddToLedger(e, task.id, payload, now), task.id, functionName, now)]
      ensures tracker != null && accepted ==>
                var e := old(tracker.Entry());
                tracker.Entry() == e.(
                  ledger := e.ledger + [LedgerEntry(task.id, payload, now)],
                  queue := e.queue + [TaskRecord(task.id, functionName, now, None, None, None, Queued, "", FromQueue)])
    {
      accepted := PutOrGrow(task);
      if !accepted {
        return;
      }
      RecordPut(task, payload, functionName, now);
      if |queue.items| as real / Max(1, queue.maxsize) as real > policy.lowWatermark {
        policy.NoteHighUsage(now);
      }
    }

    /** A refused put leaves everything but the discard counter and the warning flag as it was; an accepted one
        appends to the queue, to the ledger and to the queued records of this worker's entry. */
    method Put(task: Task, payload: string, functionName: string, now: real) returns (accepted: bool)
      requires Tracked()
      modifies this`warnActive, policy, queue, if tracker == null then {} else {tracker.table}
      ensures old(IsDraining()) ==> !accepted && ManagerCore() == old(ManagerCore()) && warnActive == old(warnActive)
      ensures !old(IsDraining()) ==> (ManagerCore(), accepted) == old(ManagerCore()).Put(task, now)
      ensures tracker != null && !accepted ==> tracker.table.entries == old(tracker.table.entries)
      ensures tracker != null && accepted ==>
                var e := old(tracker.Entry());
                tracker.table.entries == old(tracker.table.entries)[tracker.workerName :=
                  QueueTask(AddToLedger(e, task.id, payload, now), task.id, functionName, now)]
      ensures tracker != null && accepted ==>
                var e := old(tracker.Entry());
                tracker.Entry() == e.(
                  ledger := e.ledger + [LedgerEntry(task.id, payload, now)],
                  queue := e.queue + [TaskRecord(task.id, functionName, now, None, None, None, Queued, "", FromQueue)])
      ensures old(ManagerCore()).Bounded() ==>
                (accepted <==> (
                  && !(tracker != null && old(tracker.Entry()).status == Draining)
                  && old(|queue.items|) < policy.baseSize + policy.growMargin))
      ensures old(ManagerCore()).Bounded() ==> queue.items == old(queue.items) + if accepted then [task] else []
      ensures !(tracker != null && old(tracker.Entry()).status == Draining) ==>
                (warnActive <==> (
                  old(policy.currentMaxsize) > 0
                  && old(|queue.items|) as real / old(policy.currentMaxsize) as real >= policy.warnRatio))
    {
      if tracker != null {
        var status := tracker.GetStatus();
        if status == Draining {
          return false;
        }
      }
      UpdateWarning();
      ghost var core := ManagerCore();
      accepted := PutPastGuard(task, payload, functionName, now);
      if core.Bounded() {
        PutDirectly(core, task, now);
      }
    }

    method ShrinkTick(now: real)
      modifies policy, queue
      ensures ManagerCore() == old(ManagerCore()).Tick(now)
      ensures old(ManagerCore()).Bounded() ==>
                && queue.items == old(queue.items)
                && queue.maxsize
                   == if old(queue.maxsize) > policy.baseSize
                         && old(|queue.items|) as real <= policy.lowWatermark * old(queue.maxsize) as real
                         && now - old(policy.lastHighUsage) >= policy.shrinkCooldown
                      then old(queue.maxsize) - 1 else old(queue.maxsize)
    {
      if old(ManagerCore()).Bounded() {
        ShrinksExactly(old(ManagerCore()), now);
      }
      var size := |queue.items|;
      if policy.View().CanShrink(size, now) && size < policy.currentMaxsize {
        policy.RegisterShrink();
        ApplyMaxsize(policy.currentMaxsize);
      }
    }

    /** A consumer's stretch from queue.get to the start of the task: out of the queue, out of the ledger,
        marked executing. */
    method BeginTask(now: real) returns (task: Task)
      requires Tracked() && queue.items != []
      modifies queue, if tracker == null then {} else {tracker.table}
      ensures [task] + queue.items == old(queue.items)
      ensures queue.maxsize == old(queue.maxsize) && queue.unfinished == old(queue.unfinished)
      ensures tracker != null ==>
                var e := old(tracker.Entry());
                tracker.table.entries == old(tracker.table.entries)[tracker.workerName :=
                  ExecuteTask(RemoveFromLedger(e, task.id), task.id, FromQueue, now)]
      ensures tracker != null ==>
                var e, e' := old(tracker.Entry()), tracker.Entry();
                && e' == e.(ledger := e'.ledger, queue := e'.queue)
                && (forall x :: x in e'.ledger <==> x in e.ledger && x.id != task.id)
                && |e'.queue| == |e.queue|
                && (forall k :: 0 <= k < |e.queue| ==>
                     e'.queue[k] == if e.queue[k].id == task.id
                                    then e.queue[k].(phase := Executing, startedAt := Some(now)) else e.queue[k])
    {
      task := queue.items[0];
      queue.items := queue.items[1..];
      if tracker != null {
        tracker.LedgerRemove(task.id);
        tracker.TaskExecuting(task.id, FromQueue, now);
      }
    }

    /** The retry's queue.put, once it is awake: it goes straight to the queue, past guard, ledger and growth. */
    method RetryPut(task: Task) returns (blocked: bool)
      modifies queue
      ensures blocked == old(ManagerCore()).Full()
      ensures ManagerCore() == if blocked then old(ManagerCore()) else old(ManagerCore()).Enqueue(task)
      ensures blocked <==> queue.maxsize > 0 && old(|queue.items|) >= queue.maxsize
      ensures !blocked ==> queue.items == old(queue.items) + [task] && queue.unfinished == old(queue.unfinished) + 1
    {
      blocked := queue.PutNowait(task);
    }

    /** The finally block up to the callback. */
    method TaskDone()
      requires queue.unfinished > 0
      modifies queue
      ensures ManagerCore() == old(ManagerCore()).(unfinished := old(queue.unfinished) - 1)
    {
      queue.unfinished := queue.unfinished - 1;
    }

    /** The finally block after the callback: the record moves to the completed ring. */
    method RecordEnd(task: Task, failed: bool, now: real)
      requires Tracked()
      modifies if tracker == null then {} else {tracker.table}
      ensures tracker != null ==>
                var e := old(tracker.Entry());
                tracker.table.entries == old(tracker.table.entries)[tracker.workerName :=
                  CompleteTask(e, task.id, if failed then "error" else "success", FromQueue, now)]
    {
      if tracker != null {
        tracker.TaskCompleted(task.id, if failed then "error" else "success", FromQueue, now);
      }
    }

    // ---------------- consumers ----------------

    /** base_size - 1 handlers and then the one shrink monitor, all distinct tasks. */
    ghost predicate Staffed()
      reads this
    {
      && policy.baseSize >= 1
      && |consumers| == policy.baseSize
      && Crew(consumers, nextIdentity)
      && shrinkTask == consumers[|consumers| - 1]
    }

    method FireConsumers()
      requires consumers == [] && policy.baseSize >= 1
      modifies this`consumers, this`shrinkTask, this`nextIdentity
      ensures Staffed() && respawnEvents == old(respawnEvents)
    {
      for k := 0 to policy.baseSize - 1
        invariant |consumers| == k && nextIdentity >= old(nextIdentity)
        invariant forall j :: 0 <= j < k ==> consumers[j].kind == Handler && consumers[j].identity < nextIdentity
        invariant forall i, j :: 0 <= i < j < k ==> consumers[i].identity != consumers[j].identity
      {
        consumers := consumers + [AsyncTask(nextIdentity, Handler)];
        nextIdentity := nextIdentity + 1;
      }
      shrinkTask := AsyncTask(nextIdentity, ShrinkMonitor);
      nextIdentity := nextIdentity + 1;
      consumers := consumers + [shrinkTask];
    }

    /** The task itself if it lives, a new one of its kind if it is done. */
    method Replacement(t: AsyncTask, done: set<nat>) returns (r: AsyncTask)
      requires t == shrinkTask <==> t.kind == ShrinkMonitor
      modifies this`shrinkTask, this`nextIdentity, this`respawnEvents
      ensures r.kind == t.kind
      ensures t.identity !in done ==>
                r == t && nextIdentity == old(nextIdentity) && respawnEvents == old(respawnEvents)
      ensures t.identity in done ==>
                r.identity == old(nextIdentity) && nextIdentity == old(nextIdentity) + 1
                && respawnEvents == old(respawnEvents) + 1
      ensures shrinkTask == if t == old(shrinkTask) then r else old(shrinkTask)
    {
      r := t;
      if t == shrinkTask {
        if t.identity in done {
          r := AsyncTask(nextIdentity, ShrinkMonitor);
          shrinkTask := r;
          nextIdentity := nextIdentity + 1;
          respawnEvents := respawnEvents + 1;
        }
      } else if t.identity in done {
        r := AsyncTask(nextIdentity, Handler);
        nextIdentity := nextIdentity + 1;
        respawnEvents := respawnEvents + 1;
      }
    }

    /** One round of the consumer monitor, for any set of tasks that are done: each of them, and no other, is
        replaced in place by a new task of its own kind, and counted. */
    method MonitorTick(done: set<nat>)
      requires Staffed()
      modifies this`consumers, this`shrinkTask, this`nextIdentity, this`respawnEvents
      ensures Staffed()
      ensures forall k :: 0 <= k < |consumers| ==> Renewed(old(consumers)[k], consumers[k], done, old(nextIdentity))
      ensures respawnEvents == old(respawnEvents) + Dead(old(consumers), done)
    {
      var tasks := consumers;
      var alive: seq<AsyncTask> := [];
      for i := 0 to |tasks|
        invariant |alive| == i && Pool(tasks, alive, done, old(nextIdentity), nextIdentity)
        invariant shrinkTask == if i < |tasks| then old(shrinkTask) else alive[i - 1]
        invariant respawnEvents == old(respawnEvents) + Dead(tasks[..i], done)
      {
        DeadGrows(tasks, i, done);
        ghost var next := nextIdentity;
        var r := Replacement(tasks[i], done);
        PoolGrows(tasks, alive, done, old(nextIdentity), next, r, nextIdentity);
        alive := alive + [r];
      }
      assert tasks[..|tasks|] == tasks;
      PoolStaffs(tasks, alive, done, old(nextIdentity), nextIdentity);
      consumers := alive;
    }

    /** The two comprehensions of snapshot: the consumers but the shrink task, and how many of them live. */
    method CountHandlers(done: set<nat>) returns (handlers: seq<AsyncTask>, alive: nat)
      requires Staffed()
      ensures handlers == consumers[..|consumers| - 1]
      ensures alive == |handlers| - Dead(handlers, done)
    {
      handlers, alive := [], 0;
      for i := 0 to |consumers|
        invariant handlers == if i < |consumers| then consumers[..i] else consumers[..i - 1]
        invariant alive == |handlers| - Dead(handlers, done)
      {
        var t := consumers[i];
        if t != shrinkTask {
          assert i < |consumers| - 1;
          assert (handlers + [t])[..|handlers|] == handlers;
          handlers := handlers + [t];
          if t.identity !in done {
            alive := alive + 1;
          }
        }
      }
    }

    /** Once the consumers have been fired, every snapshot reports base_size - 1 of them. */
    method TakeSnapshot(done: set<nat>) returns (snap: Snapshot)
      requires Staffed()
      ensures snap.size == |ManagerCore().items| && snap.maxSize == ManagerCore().maxsize
      ensures snap.ceiling == policy.baseSize + policy.growMargin && snap.full == ManagerCore().Full()
      ensures snap.growEvents == policy.growEvents && snap.discardEvents == policy.discardEvents
      ensures snap.baseSize == policy.baseSize && snap.growMargin == policy.growMargin
      ensures snap.consumerTotal == policy.baseSize - 1
      ensures snap.consumerAlive == policy.baseSize - 1 - Dead(consumers[..|consumers| - 1], done)
      ensures snap.respawnEvents == respawnEvents
    {
      var handlers, alive := CountHandlers(done);
      snap := Snapshot(|queue.items|, queue.maxsize, policy.baseSize, policy.growMargin, policy.View().Ceiling(),
        policy.growEvents, policy.discardEvents, queue.Full(), alive, |handlers|, respawnEvents);
    }
  }

  // ---------------- readiness ----------------

  datatype HttpStatus = Http200 | Http503

  /** HealthServer._readiness: draining first, then the ceiling. `entry` is None where no shared state is given. */
  function Readiness(entry: Option<WorkerEntry>, size: nat, ceiling: int): HttpStatus {
    if entry.Some? && entry.value.status == Draining then Http503
    else if size >= ceiling then Http503
    else Http200
  }

  /** What put would do with a task arriving now. */
  predicate PutWouldAccept(entry: Option<WorkerEntry>, core: Core, task: Task, now: real) {
    !(entry.Some? && entry.value.status == Draining) && core.Put(task, now).1
  }

  /** The readiness probe answers 200 if and only if a put at that instant is accepted. */
  lemma ReadinessExact(entry: Option<WorkerEntry>, core: Core, task: Task, now: real)
    requires core.Bounded()
    ensures Readiness(entry, |core.items|, core.policy.Ceiling()) == Http200 <==> PutWouldAccept(entry, core, task, now)
  {
    PutAccepts(core, task, now);
  }

  /** The same through the methods: a probe, and a put right after it. */
  method ProbeThenPut(m: QueueManager, task: Task, payload: string, functionName: string, now: real)
    returns (answer: HttpStatus, accepted: bool)
    requires m.Tracked() && m.Staffed() && m.ManagerCore().Bounded()
    modifies m`warnActive, m.policy, m.queue, if m.tracker == null then {} else {m.tracker.table}
    ensures answer == Http200 <==> accepted
  {
    var snap := m.TakeSnapshot({});
    ghost var core := m.ManagerCore();
    answer := Readiness(if m.tracker == null then None else Some(m.tracker.Entry()), snap.size, snap.ceiling);
    PutAccepts(core, task, now);
    accepted := m.Put(task, payload, functionName, now);
  }
}
