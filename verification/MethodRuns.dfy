/** The methods of the manager and the supervisor are runs of the rescue protocol: what put, a consumer's stretches and
    CheckWorker do in one go is what the protocol does step by step, with everything else free to come in between. */
module MethodRuns {
  import opened Common
  import opened SharedState
  import opened CheckDecision
  import opened StateTracking
  import E = ElasticQueue
  import Q = QueueManagement
  import S = Supervision
  import W = WorkerProcess
  import P = RescueProtocol

  function Steps(slot: W.Slot, steps: seq<W.Step>): Option<W.Slot>
    decreases |steps|
  {
    if steps == [] then Some(slot)
    else if W.Enabled(slot, steps[0]) then Steps(W.Next(slot, steps[0]), steps[1..])
    else None
  }

  lemma FourSteps(slot: W.Slot, a: W.Step, b: W.Step, c: W.Step, d: W.Step)
    requires W.Enabled(slot, a)
    requires W.Enabled(W.Next(slot, a), b)
    requires W.Enabled(W.Next(W.Next(slot, a), b), c)
    requires W.Enabled(W.Next(W.Next(W.Next(slot, a), b), c), d)
    ensures Steps(slot, [a, b, c, d]) == Some(W.Next(W.Next(W.Next(W.Next(slot, a), b), c), d))
  {
    var s1 := W.Next(slot, a);
    var s2 := W.Next(s1, b);
    var s3 := W.Next(s2, c);
    assert [d][1..] == [];
    assert Steps(s3, [d]) == Some(W.Next(s3, d));
    assert [c, d][1..] == [d];
    assert Steps(s2, [c, d]) == Steps(s3, [d]);
    assert [b, c, d][1..] == [c, d];
    assert Steps(s1, [b, c, d]) == Steps(s2, [c, d]);
    assert [a, b, c, d][1..] == [b, c, d];
  }

  lemma OneStep(slot: W.Slot, a: W.Step)
    requires W.Enabled(slot, a)
    ensures Steps(slot, [a]) == Some(W.Next(slot, a))
  {
    assert [a][1..] == [];
  }

  lemma PutSteps(slot: W.Slot, id: TaskId, payload: string, functionName: string, now: real)
    requires W.AtAwaitPoint(slot) && slot.entry.value.status != Draining
    ensures Steps(slot, [W.PutCheck(id), W.PutEnqueue, W.PutList(payload, now), W.PutRecord(functionName, now)])
            == Some(slot.(
                 process := slot.process.(
                   queue := slot.process.queue + [W.Item(id, false)], replying := slot.process.replying + {id}),
                 entry := Some(QueueTask(AddToLedger(slot.entry.value, id, payload, now), id, functionName, now))))
  {
    FourSteps(slot, W.PutCheck(id), W.PutEnqueue, W.PutList(payload, now), W.PutRecord(functionName, now));
  }

  lemma RefusedSteps(slot: W.Slot, id: TaskId)
    requires W.AtAwaitPoint(slot) && slot.entry.value.status != Draining
    ensures Steps(slot, [W.PutCheck(id), W.PutDiscard]) == Some(slot)
  {
    assert [W.PutCheck(id), W.PutDiscard][1..] == [W.PutDiscard];
    OneStep(W.Next(slot, W.PutCheck(id)), W.PutDiscard);
  }

  lemma BeginSteps(slot: W.Slot, now: real)
    requires W.AtAwaitPoint(slot) && slot.process.queue != []
    ensures var id := slot.process.queue[0].id;
            Steps(slot, [W.Get, W.Unlist, W.MarkExecuting(now), W.Start])
            == Some(slot.(
                 process := slot.process.(
                   queue := slot.process.queue[1..], running := slot.process.running + multiset{id}),
                 entry := Some(ExecuteTask(RemoveFromLedger(slot.entry.value, id), id, FromQueue, now))))
  {
    FourSteps(slot, W.Get, W.Unlist, W.MarkExecuting(now), W.Start);
  }

  // ---------------- the manager ----------------

  predicate SameIds(items: seq<E.Task>, queue: seq<W.Item>) {
    |items| == |queue| && forall k :: 0 <= k < |items| ==> items[k].id == queue[k].id
  }

  /** The slot is what the manager, its queue and its tracker look like at an await. */
  ghost predicate Shows(m: Q.QueueManager, slot: W.Slot)
    reads m.queue, if m.tracker == null then {} else {m.tracker.table}
  {
    && m.tracker != null && m.tracker.Registered()
    && W.AtAwaitPoint(slot) && slot.entry == Some(m.tracker.Entry())
    && SameIds(m.queue.items, slot.process.queue)
  }

  /** QueueManager.put: an accepted task passes the guard, the queue, the ledger and the record; one refused for want of
      room passes the guard alone; one refused by a draining worker takes no step. */
  method PutIsRun(
    m: Q.QueueManager, task: E.Task, payload: string, functionName: string, now: real, ghost slot: W.Slot)
    returns (accepted: bool, ghost steps: seq<W.Step>, ghost after: W.Slot)
    requires Shows(m, slot)
    modifies m`warnActive, m.policy, m.queue, if m.tracker == null then {} else {m.tracker.table}
    ensures Steps(slot, steps) == Some(after) && Shows(m, after)
    ensures steps == if accepted then
              [W.PutCheck(task.id), W.PutEnqueue, W.PutList(payload, now), W.PutRecord(functionName, now)]
            else if slot.entry.value.status == Draining then []
            else [W.PutCheck(task.id), W.PutDiscard]
    ensures accepted <==>
              slot.entry.value.status != Draining && old(m.ManagerCore()).Put(task, now).1
    ensures accepted ==> task.id in after.process.replying
  {
    accepted := m.Put(task, payload, functionName, now);
    if accepted {
      PutSteps(slot, task.id, payload, functionName, now);
      steps := [W.PutCheck(task.id), W.PutEnqueue, W.PutList(payload, now), W.PutRecord(functionName, now)];
      after := Steps(slot, steps).value;
      AcceptedItems(old(m.ManagerCore()), task, now);
    } else if slot.entry.value.status == Draining {
      steps, after := [], slot;
    } else {
      RefusedSteps(slot, task.id);
      steps, after := [W.PutCheck(task.id), W.PutDiscard], slot;
      AcceptedItems(old(m.ManagerCore()), task, now);
    }
  }

  lemma AcceptedItems(core: E.Core, task: E.Task, now: real)
    ensures var (after, accepted) := core.Put(task, now);
            after.items == if accepted then core.items + [task] else core.items
  {
  }

  /** queue_handler up to the start of the task. */
  method BeginIsRun(m: Q.QueueManager, now: real, ghost slot: W.Slot)
    returns (task: E.Task, ghost after: W.Slot)
    requires Shows(m, slot) && m.queue.items != []
    modifies m.queue, if m.tracker == null then {} else {m.tracker.table}
    ensures Steps(slot, [W.Get, W.Unlist, W.MarkExecuting(now), W.Start]) == Some(after) && Shows(m, after)
    ensures task == old(m.queue.items)[0]
    ensures after.process.running == slot.process.running + multiset{task.id}
  {
    task := m.BeginTask(now);
    BeginSteps(slot, now);
    after := Steps(slot, [W.Get, W.Unlist, W.MarkExecuting(now), W.Start]).value;
    assert forall k :: 0 <= k < |m.queue.items| ==> m.queue.items[k] == old(m.queue.items)[k + 1];
  }

  /** The retry's queue.put: one step once there is room, none while it blocks. */
  method RetryIsRun(m: Q.QueueManager, task: E.Task, ghost slot: W.Slot)
    returns (blocked: bool, ghost steps: seq<W.Step>, ghost after: W.Slot)
    requires Shows(m, slot) && task.id in slot.process.running
    modifies m.queue
    ensures steps == (if blocked then [] else [W.Retry(task.id)])
    ensures Steps(slot, steps) == Some(after) && Shows(m, after)
  {
    var before := m.queue.items;
    blocked := m.RetryPut(task);
    steps, after := [], slot;
    assert m.ManagerCore().items == if blocked then before else before + [task];
    if !blocked {
      OneStep(slot, W.Retry(task.id));
      steps, after := [W.Retry(task.id)], W.Next(slot, W.Retry(task.id));
    }
  }

  /** The end of an execution, of one that queued a retry before or not. */
  method EndIsRun(m: Q.QueueManager, task: E.Task, late: bool, failed: bool, now: real, ghost slot: W.Slot)
    returns (ghost after: W.Slot)
    requires Shows(m, slot) && task.id in if late then slot.process.finishing else slot.process.running
    modifies if m.tracker == null then {} else {m.tracker.table}
    ensures Steps(slot, [W.Finish(task.id, late, if failed then "error" else "success", now)]) == Some(after)
    ensures Shows(m, after)
  {
    m.RecordEnd(task, failed, now);
    var step := W.Finish(task.id, late, if failed then "error" else "success", now);
    OneStep(slot, step);
    after := W.Next(slot, step);
  }

  /** The heartbeat loop's write is the protocol's beat. */
  method BeatIsRun(m: Q.QueueManager, now: real, ghost slot: W.Slot) returns (ghost after: W.Slot)
    requires Shows(m, slot)
    modifies if m.tracker == null then {} else {m.tracker.table}
    ensures Steps(slot, [W.Beat(now)]) == Some(after) && Shows(m, after)
  {
    m.tracker.UpdateHeartbeat(now);
    OneStep(slot, W.Beat(now));
    after := W.Next(slot, W.Beat(now));
  }

  /** set_status, which the supervisor does not call, leaves the table as its own marks do. */
  method StatusIsMark(tracker: StateTracker, draining: bool, now: real)
    requires tracker.Registered()
    modifies tracker.table
    ensures var was := S.EntryIn(old(tracker.table.entries), tracker.workerName);
            tracker.table.entries
            == S.WithEntry(old(tracker.table.entries), tracker.workerName,
                 S.EntryAfter(if draining then MarkDraining else MarkHealthy, was, S.World(now, now, true, [], true)))
  {
    if draining {
      tracker.SetStatus(Draining, Some(now));
    } else {
      tracker.SetStatus(Healthy, None);
    }
  }

  /** ledger_drain, which the supervisor does not call either, leaves the table as its rescue does and returns what
      the rescue pushes. */
  method DrainIsRescue(tracker: StateTracker, w: S.World) returns (drained: seq<LedgerEntry>)
    requires tracker.Registered()
    modifies tracker.table
    ensures var was := S.EntryIn(old(tracker.table.entries), tracker.workerName);
            && tracker.table.entries
               == S.WithEntry(old(tracker.table.entries), tracker.workerName, S.EntryAfter(KillAndRespawn, was, w))
            && S.Rescued(drained, w, |drained|) == S.MessagesAfter(KillAndRespawn, was, w)
  {
    drained := tracker.LedgerDrain();
  }

  // ---------------- the supervisor ----------------

  function Messages(pushes: seq<P.Push>): (r: seq<S.Message>)
    ensures |r| == |pushes|
  {
    seq(|pushes|, k requires 0 <= k < |pushes| => S.Message(pushes[k].entry.payload, pushes[k].entry.id))
  }

  /** Pushing the entries from k on, with the answers of the world. */
  function PushSteps(w: S.World, k: nat, n: nat): seq<P.Step>
    requires k <= n
    decreases n - k
  {
    if k == n then [] else [P.PushOne(S.Accepted(w, k))] + PushSteps(w, k + 1, n)
  }

  lemma {:induction false} PushesAreRescued(
    t: Timeouts, s: P.System, i: nat, ledger: seq<LedgerEntry>, w: S.World, k: nat, before: seq<S.Message>)
    requires k <= |ledger| && i < |s.slots| && s.supervisor == P.Pushing(i, ledger[k..])
    requires Messages(s.stream) == before + S.Rescued(ledger, w, k)
    ensures var end := P.Exec(t, s, PushSteps(w, k, |ledger|));
            && end.Some? && end.value.slots == s.slots && end.value.supervisor == P.Pushing(i, [])
            && Messages(end.value.stream) == before + S.Rescued(ledger, w, |ledger|)
    decreases |ledger| - k
  {
    if k < |ledger| {
      var step := P.PushOne(S.Accepted(w, k));
      var s' := P.Next(t, s, step);
      assert ledger[k..][1..] == ledger[k + 1..];
      PushedOne(t, s, i, ledger, w, k, before);
      PushesAreRescued(t, s', i, ledger, w, k + 1, before);
      assert PushSteps(w, k, |ledger|)[1..] == PushSteps(w, k + 1, |ledger|);
    }
  }

  lemma PushedOne(
    t: Timeouts, s: P.System, i: nat, ledger: seq<LedgerEntry>, w: S.World, k: nat, before: seq<S.Message>)
    requires k < |ledger| && i < |s.slots| && s.supervisor == P.Pushing(i, ledger[k..])
    requires Messages(s.stream) == before + S.Rescued(ledger, w, k)
    ensures Messages(P.Next(t, s, P.PushOne(S.Accepted(w, k))).stream) == before + S.Rescued(ledger, w, k + 1)
  {
    var e := ledger[k];
    assert ledger[k..][0] == e;
    assert Messages(s.stream + [P.Push(i, e)]) == Messages(s.stream) + [S.Message(e.payload, e.id)];
    assert (before + S.Rescued(ledger, w, k)) + [S.Message(e.payload, e.id)]
        == before + (S.Rescued(ledger, w, k) + [S.Message(e.payload, e.id)]);
  }

  lemma ExecTwo(t: Timeouts, s: P.System, a: P.Step, b: P.Step)
    requires P.Enabled(s, a) && P.Enabled(P.Next(t, s, a), b)
    ensures P.Exec(t, s, [a, b]) == Some(P.Next(t, P.Next(t, s, a), b))
  {
    var s1 := P.Next(t, s, a);
    assert [b][1..] == [];
    assert P.Exec(t, s1, [b]) == P.Exec(t, P.Next(t, s1, b), []);
    assert [a, b][1..] == [b];
  }

  /** The process a slot holds after an action. */
  function ProcessAfter(action: Action, p: W.Process, spawned: bool): W.Process {
    if !action.KillAndRespawn? then p else if spawned then W.Booting else W.Dead
  }

  /** The steps of one inspection of worker i. */
  function CheckSteps(s: P.System, i: nat, action: Action, w: S.World): seq<P.Step>
    requires i < |s.slots|
  {
    match action
    case Nothing => [P.Check(i, w.now)]
    case KillAndRespawn =>
      var n := if s.slots[i].entry.Some? then |s.slots[i].entry.value.ledger| else 0;
      [P.Check(i, w.now), P.Act(w.markedAt)] + (PushSteps(w, 0, n) + [P.Terminate, P.Respawn(w.spawned)])
    case _ => [P.Check(i, w.now), P.Act(w.markedAt)]
  }

  ghost predicate Inspected(s: P.System, s': P.System, i: nat, action: Action, w: S.World)
    requires i < |s.slots|
  {
    && s'.supervisor.Idle? && |s'.slots| == |s.slots|
    && (forall k :: 0 <= k < |s.slots| && k != i ==> s'.slots[k] == s.slots[k])
    && s'.slots[i].entry == S.EntryAfter(action, s.slots[i].entry, w)
    && s'.slots[i].process == ProcessAfter(action, s.slots[i].process, w.spawned)
    && Messages(s'.stream) == Messages(s.stream) + S.MessagesAfter(action, s.slots[i].entry, w)
  }

  /** One call of CheckWorker does to the entry, the stream and the process what the protocol's steps do, when nothing
      comes in between. */
  lemma CheckWorkerIsRun(t: Timeouts, s: P.System, i: nat, w: S.World)
    requires s.supervisor.Idle? && i < |s.slots|
    ensures var action := Decide(!s.slots[i].process.Dead?, s.slots[i].entry, w.now, t);
            var end := P.Exec(t, s, CheckSteps(s, i, action, w));
            end.Some? && Inspected(s, end.value, i, action, w)
  {
    var action := Decide(!s.slots[i].process.Dead?, s.slots[i].entry, w.now, t);
    var check, act := P.Check(i, w.now), P.Act(w.markedAt);
    match action
    case Nothing =>
      assert P.Exec(t, s, [check]) == P.Exec(t, P.Next(t, s, check), [check][1..]);
    case KillAndRespawn =>
      ExecTwo(t, s, check, act);
      KillIsRun(t, s, i, w);
      var n := if s.slots[i].entry.Some? then |s.slots[i].entry.value.ledger| else 0;
      P.ExecAppend(t, s, [check, act], PushSteps(w, 0, n) + [P.Terminate, P.Respawn(w.spawned)]);
    case _ =>
      ExecTwo(t, s, check, act);
  }

  /** The first two steps of a kill: the ledger is out of the entry and in the supervisor's hands. */
  lemma ActRescues(t: Timeouts, s: P.System, i: nat, w: S.World)
    requires s.supervisor.Idle? && i < |s.slots|
    requires Decide(!s.slots[i].process.Dead?, s.slots[i].entry, w.now, t) == KillAndRespawn
    ensures var rescue := P.Next(t, P.Next(t, s, P.Check(i, w.now)), P.Act(w.markedAt));
            && rescue.supervisor == P.Pushing(i, if s.slots[i].entry.Some? then s.slots[i].entry.value.ledger else [])
            && |rescue.slots| == |s.slots| && rescue.stream == s.stream
            && (forall k :: 0 <= k < |s.slots| && k != i ==> rescue.slots[k] == s.slots[k])
            && rescue.slots[i].entry == S.EntryAfter(KillAndRespawn, s.slots[i].entry, w)
  {
  }

  /** The last two: the process is dead, and a new one boots in its slot if the spawn succeeds. */
  lemma Replaced(t: Timeouts, s: P.System, i: nat, spawned: bool)
    requires i < |s.slots| && s.supervisor == P.Pushing(i, [])
    ensures var end := P.Exec(t, s, [P.Terminate, P.Respawn(spawned)]);
            && end.Some? && end.value.supervisor.Idle? && |end.value.slots| == |s.slots|
            && (forall k :: 0 <= k < |s.slots| && k != i ==> end.value.slots[k] == s.slots[k])
            && end.value.slots[i].entry == s.slots[i].entry && end.value.stream == s.stream
            && end.value.slots[i].process == if spawned then W.Booting else W.Dead
  {
    ExecTwo(t, s, P.Terminate, P.Respawn(spawned));
  }

  lemma KillIsRun(t: Timeouts, s: P.System, i: nat, w: S.World)
    requires s.supervisor.Idle? && i < |s.slots|
    requires Decide(!s.slots[i].process.Dead?, s.slots[i].entry, w.now, t) == KillAndRespawn
    ensures var acting := P.Next(t, s, P.Check(i, w.now));
            var rescue := P.Next(t, acting, P.Act(w.markedAt));
            var n := if s.slots[i].entry.Some? then |s.slots[i].entry.value.ledger| else 0;
            var end := P.Exec(t, rescue, PushSteps(w, 0, n) + [P.Terminate, P.Respawn(w.spawned)]);
            end.Some? && Inspected(s, end.value, i, KillAndRespawn, w)
  {
    ActRescues(t, s, i, w);
    var rescue := P.Next(t, P.Next(t, s, P.Check(i, w.now)), P.Act(w.markedAt));
    var ledger := if s.slots[i].entry.Some? then s.slots[i].entry.value.ledger else [];
    RescueToEnd(t, rescue, i, ledger, w);
  }

  lemma RescueToEnd(t: Timeouts, s: P.System, i: nat, ledger: seq<LedgerEntry>, w: S.World)
    requires i < |s.slots| && s.supervisor == P.Pushing(i, ledger)
    ensures var end := P.Exec(t, s, PushSteps(w, 0, |ledger|) + [P.Terminate, P.Respawn(w.spawned)]);
            && end.Some? && end.value.supervisor.Idle? && |end.value.slots| == |s.slots|
            && (forall k :: 0 <= k < |s.slots| && k != i ==> end.value.slots[k] == s.slots[k])
            && end.value.slots[i].entry == s.slots[i].entry
            && end.value.slots[i].process == (if w.spawned then W.Booting else W.Dead)
            && Messages(end.value.stream) == Messages(s.stream) + S.Rescued(ledger, w, |ledger|)
  {
    assert ledger[0..] == ledger;
    PushesAreRescued(t, s, i, ledger, w, 0, Messages(s.stream));
    var pushing := PushSteps(w, 0, |ledger|);
    Replaced(t, P.Exec(t, s, pushing).value, i, w.spawned);
    P.ExecAppend(t, s, pushing, [P.Terminate, P.Respawn(w.spawned)]);
  }
}
