/** Workers, their shared entries, and the supervisor that rescues them, as one transition system.
    Every tracker or supervisor method that reads and replaces an entry is one step. */
module RescueProtocol {
  import opened Common
  import opened SharedState
  import opened CheckDecision
  import W = WorkerProcess

  /** An entry handed to the Redis stream, with the worker it was rescued from. */
  datatype Push = Push(worker: nat, entry: LedgerEntry)

  datatype Supervisor =
    | Idle
    | Acting(worker: nat, action: Action)
    | Pushing(worker: nat, pending: seq<LedgerEntry>)
    | Respawning(worker: nat)

  /** Where an accepted task is; a history value, no step reads it. */
  datatype Place = InLedger | InRescue | InStream | Dropped | Released | Overwritten

  /** The system. From `owner` on the fields only record what has happened:
      which worker was offered a task, which tasks a consumer released, started, which the client was told of,
      which ledger entries a booting worker destroyed, which a rescue took from under a running process,
      which were written while their worker's rescue was under way. */
  datatype System = System(
    slots: seq<W.Slot>,
    supervisor: Supervisor,
    stream: seq<Push>,
    dropped: seq<Push>,
    owner: map<TaskId, nat>,
    released: set<TaskId>,
    started: set<TaskId>,
    acked: set<TaskId>,
    lost: set<TaskId>,
    takenAlive: set<TaskId>,
    listedLate: set<TaskId>,
    place: map<TaskId, Place>,
    ticket: map<TaskId, nat>)

  datatype Step =
    | Work(worker: nat, step: W.Step)
    | Check(worker: nat, now: real)
    | Act(markedAt: real)
    | PushOne(ok: bool)
    | Terminate
    | Respawn(ok: bool)

  function Init(workers: nat): System {
    System(
      seq(workers, _ => W.Slot(W.Booting, None, false, [])), Idle, [], [], map[], {}, {}, {}, {}, {}, {}, map[], map[])
  }

  function LedgerOf(slot: W.Slot): seq<TaskId> {
    if slot.entry.Some? then LedgerIds(slot.entry.value.ledger) else []
  }

  predicate Enabled(s: System, step: Step) {
    match step
    case Work(i, w) => i < |s.slots| && W.Enabled(s.slots[i], w) && (w.PutCheck? ==> w.id !in s.owner)
    case Check(i, _) => s.supervisor.Idle? && i < |s.slots|
    case Act(_) => s.supervisor.Acting? && s.supervisor.worker < |s.slots|
    case PushOne(_) => s.supervisor.Pushing? && s.supervisor.pending != [] && s.supervisor.worker < |s.slots|
    case Terminate => s.supervisor.Pushing? && s.supervisor.pending == [] && s.supervisor.worker < |s.slots|
    case Respawn(_) => s.supervisor.Respawning? && s.supervisor.worker < |s.slots|
  }

  /** What a worker's step does to the ledger and to the record. */
  datatype Effect =
    | Quiet
    | Offered(id: TaskId)
    | Listed(id: TaskId)
    | Taken(id: TaskId)
    | Begun(id: TaskId)
    | Replied(id: TaskId)
    | Booted

  function EffectOf(slot: W.Slot, w: W.Step): Effect
    requires W.Enabled(slot, w)
  {
    match w
    case PutCheck(id) => Offered(id)
    case PutList(_, _) => Listed(slot.process.cpu.id)
    case Unlist => Taken(slot.process.cpu.item.id)
    case Start => Begun(slot.process.cpu.item.id)
    case Reply(id) => Replied(id)
    case Boot(_) => Booted
    case _ => Quiet
  }

  /** The supervisor has emptied worker i's ledger and not yet ended its process. */
  predicate UnderRescue(s: System, i: nat) {
    s.supervisor.Pushing? && s.supervisor.worker == i
  }

  /** The record after worker i's effect; `ledger` is what its ledger listed before. */
  function Recorded(s: System, i: nat, effect: Effect, ledger: seq<TaskId>): System {
    match effect
    case Quiet => s
    case Offered(id) => s.(owner := s.owner[id := i])
    case Listed(id) =>
      s.(place := s.place[id := InLedger], ticket := s.ticket[id := |s.ticket|],
        listedLate := if UnderRescue(s, i) then s.listedLate + {id} else s.listedLate)
    case Taken(id) =>
      s.(released := s.released + {id}, place := if id in ledger then s.place[id := Released] else s.place)
    case Begun(id) => s.(started := s.started + {id})
    case Replied(id) => s.(acked := s.acked + {id})
    case Booted =>
      s.(lost := s.lost + (set id | id in ledger), place := s.place + (map id | id in ledger :: Overwritten))
  }

  function Acted(s: System, markedAt: real): System
    requires Enabled(s, Act(markedAt))
  {
    var i := s.supervisor.worker;
    var slot := s.slots[i];
    match s.supervisor.action
    case Nothing => s.(supervisor := Idle)
    case MarkDraining =>
      if slot.entry.None? then s.(supervisor := Idle) else
      var slot' := slot.(entry := Some(WithStatus(slot.entry.value, Draining, Some(markedAt))),
                         marked := slot.entry.value.ledger);
      s.(slots := s.slots[i := slot'], supervisor := Idle)
    case MarkHealthy =>
      if slot.entry.None? then s.(supervisor := Idle) else
      var slot' := slot.(entry := Some(WithStatus(slot.entry.value, Healthy, None)));
      s.(slots := s.slots[i := slot'], supervisor := Idle)
    case KillAndRespawn =>
      if slot.entry.None? then s.(supervisor := Pushing(i, [])) else
      var pending := slot.entry.value.ledger;
      var slot' := slot.(entry := Some(ClearLedger(slot.entry.value)), tainted := slot.process.Running?);
      s.(slots := s.slots[i := slot'],
        supervisor := Pushing(i, pending),
        takenAlive := if slot.process.Running? then s.takenAlive + set id | id in LedgerIds(pending) else s.takenAlive,
        place := s.place + (map id | id in LedgerIds(pending) :: InRescue))
  }

  function Next(t: Timeouts, s: System, step: Step): System
    requires Enabled(s, step)
  {
    match step
    case Work(i, w) =>
      Recorded(s, i, EffectOf(s.slots[i], w), LedgerOf(s.slots[i])).(slots := s.slots[i := W.Next(s.slots[i], w)])
    case Check(i, now) =>
      var action := Decide(!s.slots[i].process.Dead?, s.slots[i].entry, now, t);
      if action == Nothing then s else s.(supervisor := Acting(i, action))
    case Act(markedAt) => Acted(s, markedAt)
    case PushOne(ok) =>
      var i := s.supervisor.worker;
      var e := s.supervisor.pending[0];
      var s' := s.(supervisor := Pushing(i, s.supervisor.pending[1..]));
      if ok then s'.(stream := s.stream + [Push(i, e)], place := s.place[e.id := InStream])
      else s'.(dropped := s.dropped + [Push(i, e)], place := s.place[e.id := Dropped])
    case Terminate =>
      var i := s.supervisor.worker;
      s.(slots := s.slots[i := s.slots[i].(process := W.Dead, tainted := false)], supervisor := Respawning(i))
    case Respawn(ok) =>
      var i := s.supervisor.worker;
      s.(slots := if ok then s.slots[i := s.slots[i].(process := W.Booting, tainted := false)] else s.slots,
        supervisor := Idle)
  }

  /** The state after a run, if every step of it was possible. */
  function Exec(t: Timeouts, s: System, run: seq<Step>): Option<System>
    decreases |run|
  {
    if run == [] then Some(s)
    else if Enabled(s, run[0]) then Exec(t, Next(t, s, run[0]), run[1..])
    else None
  }

  lemma {:induction false} ExecAppend(t: Timeouts, s: System, a: seq<Step>, b: seq<Step>)
    requires Exec(t, s, a).Some?
    ensures Exec(t, s, a + b) == Exec(t, Exec(t, s, a).value, b)
    decreases |a|
  {
    if a == [] {
      assert a + b == b;
    } else {
      assert (a + b)[1..] == a[1..] + b;
      ExecAppend(t, Next(t, s, a[0]), a[1..], b);
    }
  }

  /** One more step of a run. */
  lemma ExecOne(t: Timeouts, start: System, run: seq<Step>, s: System, step: Step)
    requires Exec(t, start, run) == Some(s) && Enabled(s, step)
    ensures Exec(t, start, run + [step]) == Some(Next(t, s, step))
  {
    ExecAppend(t, start, run, [step]);
    assert Exec(t, s, [step]) == Exec(t, Next(t, s, step), [step][1..]);
  }

  /** Every part of a run is a run. */
  lemma {:induction false} ExecPrefix(t: Timeouts, s: System, a: seq<Step>, b: seq<Step>)
    requires Exec(t, s, a + b).Some?
    ensures Exec(t, s, a).Some?
    decreases |a|
  {
    if a != [] {
      assert (a + b)[0] == a[0] && (a + b)[1..] == a[1..] + b;
      ExecPrefix(t, Next(t, s, a[0]), a[1..], b);
    }
  }

  /** A run ends with its last step, from the state its front leads to. */
  lemma ExecLast(t: Timeouts, start: System, run: seq<Step>) returns (before: System)
    requires run != [] && Exec(t, start, run).Some?
    ensures Exec(t, start, run[..|run| - 1]) == Some(before) && Enabled(before, run[|run| - 1])
    ensures Exec(t, start, run) == Some(Next(t, before, run[|run| - 1]))
  {
    var front, last := run[..|run| - 1], run[|run| - 1];
    assert run == front + [last];
    ExecPrefix(t, start, front, [last]);
    before := Exec(t, start, front).value;
    ExecAppend(t, start, front, [last]);
    assert Exec(t, before, [last]).Some?;
    assert Exec(t, before, [last]) == Exec(t, Next(t, before, last), [last][1..]);
  }

  // ---------------- where tasks are ----------------

  function PushIds(pushes: seq<Push>): (r: seq<TaskId>)
    ensures |r| == |pushes|
    ensures forall k :: 0 <= k < |r| ==> r[k] == pushes[k].entry.id
  {
    seq(|pushes|, k requires 0 <= k < |pushes| => pushes[k].entry.id)
  }

  function PendingIds(sup: Supervisor): seq<TaskId> {
    if sup.Pushing? then LedgerIds(sup.pending) else []
  }

  predicate InSomeLedger(s: System, id: TaskId) {
    exists i :: 0 <= i < |s.slots| && id in LedgerOf(s.slots[i])
  }

  // ---------------- invariants ----------------

  ghost predicate SlotsInv(s: System) {
    forall i :: 0 <= i < |s.slots| ==> W.ViewInv(s.slots[i]) && W.DrainInv(s.slots[i])
  }

  ghost predicate MentionInv(s: System) {
    forall i, id {:trigger W.Mentions(s.slots[i], id)} ::
      0 <= i < |s.slots| && W.Mentions(s.slots[i], id) ==> id in s.owner && s.owner[id] == i
  }

  ghost predicate KeysInv(s: System) {
    s.ticket.Keys == s.place.Keys <= s.owner.Keys && s.listedLate <= s.place.Keys
  }

  ghost predicate OwnerInv(s: System) {
    MentionInv(s) && KeysInv(s)
  }

  /** The task is where its history value says it is. */
  ghost predicate Located(s: System, id: TaskId)
    requires id in s.place
  {
    match s.place[id]
    case InLedger => id in s.owner && s.owner[id] < |s.slots| && id in LedgerOf(s.slots[s.owner[id]])
    case InRescue => id in PendingIds(s.supervisor)
    case InStream => id in PushIds(s.stream)
    case Dropped => id in PushIds(s.dropped)
    case Released => id in s.released
    case Overwritten => id in s.lost
  }

  ghost predicate Placed(s: System, id: TaskId, place: Place) {
    id in s.place && s.place[id] == place
  }

  ghost predicate OwnedBy(s: System, id: TaskId, i: nat) {
    id in s.owner && s.owner[id] == i
  }

  ghost predicate LocatedInv(s: System) {
    forall id {:trigger s.place[id]} :: id in s.place ==> Located(s, id)
  }

  ghost predicate LedgersInv(s: System) {
    forall i, id {:trigger id in LedgerOf(s.slots[i])} :: 0 <= i < |s.slots| && id in LedgerOf(s.slots[i]) ==>
      Placed(s, id, InLedger) && OwnedBy(s, id, i)
  }

  ghost predicate PushesInv(s: System) {
    && (forall id {:trigger id in PendingIds(s.supervisor)} :: id in PendingIds(s.supervisor) ==>
         Placed(s, id, InRescue) && OwnedBy(s, id, s.supervisor.worker))
    && (forall id {:trigger id in PushIds(s.stream)} :: id in PushIds(s.stream) ==> Placed(s, id, InStream))
    && (forall id {:trigger id in PushIds(s.dropped)} :: id in PushIds(s.dropped) ==> Placed(s, id, Dropped))
    && (forall id {:trigger id in s.lost} :: id in s.lost ==> Placed(s, id, Overwritten))
    && (forall k {:trigger s.stream[k]} :: 0 <= k < |s.stream| ==>
         OwnedBy(s, s.stream[k].entry.id, s.stream[k].worker))
  }

  ghost predicate PlaceInv(s: System) {
    LocatedInv(s) && LedgersInv(s) && PushesInv(s)
  }

  /** What a task in a consumer's hands, or re-queued by one, has been through. */
  ghost predicate Consumed(p: W.Process, id: TaskId)
    requires p.Running?
  {
    W.Handled(p, id) || (p.cpu.Unlisted? && p.cpu.item.id == id)
  }

  ghost predicate Consumes(slot: W.Slot, id: TaskId) {
    slot.process.Running? && Consumed(slot.process, id)
  }

  /** A task in the middle of a put is accepted exactly once it is in the ledger. */
  ghost predicate PutKnown(s: System, p: W.Process)
    requires p.Running?
  {
    && (W.MidPut(p) ==> p.cpu.id !in s.place)
    && (p.cpu.PutListed? ==> p.cpu.id in s.place)
    && p.replying <= s.place.Keys
  }

  ghost predicate HandsInv(s: System) {
    && (forall i {:trigger s.slots[i]} :: 0 <= i < |s.slots| && s.slots[i].process.Running? ==>
         PutKnown(s, s.slots[i].process))
    && (forall i, id {:trigger Consumes(s.slots[i], id)} :: 0 <= i < |s.slots| && Consumes(s.slots[i], id) ==>
         id in s.released)
    && s.started <= s.released
    && s.acked <= s.place.Keys
  }

  ghost predicate TaintInv(s: System) {
    forall i :: 0 <= i < |s.slots| && s.slots[i].process.Running? && s.slots[i].tainted ==>
      s.supervisor.Pushing? && s.supervisor.worker == i
  }

  /** The task is in the supervisor's hands, or has left them. */
  ghost predicate Handed(s: System, id: TaskId) {
    id in s.place && (s.place[id].InRescue? || s.place[id].InStream? || s.place[id].Dropped?)
  }

  /** A task in a consumer's hands is nowhere else, unless a rescue took it from a running process; only an entry
      written under a rescue is ever overwritten. */
  ghost predicate ReleasedInv(s: System) {
    && s.lost <= s.listedLate
    && (forall id :: id in s.released ==> Placed(s, id, Released) || id in s.takenAlive)
    && (forall id :: id in s.takenAlive ==> Handed(s, id))
  }

  /** Worker i's process is being replaced: what its ledger lists now, the next boot will overwrite. */
  predicate Doomed(s: System, i: nat)
    requires i < |s.slots|
  {
    s.slots[i].process.Booting? || UnderRescue(s, i) || (s.supervisor.Respawning? && s.supervisor.worker == i)
  }

  ghost predicate DoomedInv(s: System) {
    && (forall i, id {:trigger id in LedgerOf(s.slots[i])} ::
         0 <= i < |s.slots| && Doomed(s, i) && id in LedgerOf(s.slots[i]) ==> id in s.listedLate)
    && (s.supervisor.Respawning? && s.supervisor.worker < |s.slots| ==>
         s.slots[s.supervisor.worker].process.Dead?)
  }

  /** Only the running process it was taken from still mentions a task that was taken alive. */
  ghost predicate TakenInv(s: System) {
    forall i, id {:trigger W.Mentions(s.slots[i], id)} ::
      0 <= i < |s.slots| && W.Mentions(s.slots[i], id) && id in s.takenAlive ==>
        s.slots[i].process.Running? && s.slots[i].tainted
  }

  /** A waiting task that its ledger does not list was taken alive. */
  ghost predicate CoverInv(s: System) {
    forall i, id {:trigger W.Uncovered(s.slots[i], id)} ::
      0 <= i < |s.slots| && W.Uncovered(s.slots[i], id) ==> id in s.takenAlive
  }

  function StreamOf(stream: seq<Push>, worker: nat): seq<TaskId> {
    if stream == [] then []
    else
      var last := stream[|stream| - 1];
      StreamOf(stream[..|stream| - 1], worker) + (if last.worker == worker then [last.entry.id] else [])
  }

  /** The tasks of one worker that have been pushed or are being pushed. */
  function PushedOf(s: System, i: nat): seq<TaskId> {
    StreamOf(s.stream, i)
    + (if s.supervisor.Pushing? && s.supervisor.worker == i then LedgerIds(s.supervisor.pending) else [])
  }

  /** The pushed, the being pushed and the waiting tasks of one worker. */
  function Trail(s: System, i: nat): seq<TaskId>
    requires i < |s.slots|
  {
    PushedOf(s, i) + LedgerOf(s.slots[i])
  }

  /** The ids stand in the order in which they were accepted. */
  ghost predicate InOrder(ids: seq<TaskId>, ticket: map<TaskId, nat>) {
    && (forall k :: 0 <= k < |ids| ==> ids[k] in ticket)
    && (forall j, k :: 0 <= j < k < |ids| ==> ticket[ids[j]] < ticket[ids[k]])
  }

  ghost predicate TicketInv(s: System) {
    forall id :: id in s.ticket ==> s.ticket[id] < |s.ticket|
  }

  ghost predicate OrderInv(s: System) {
    forall i {:trigger Trail(s, i)} :: 0 <= i < |s.slots| ==> InOrder(Trail(s, i), s.ticket)
  }

  ghost predicate Inv(s: System) {
    && SlotsInv(s)
    && OwnerInv(s)
    && PlaceInv(s)
    && HandsInv(s)
    && TaintInv(s)
    && ReleasedInv(s)
    && DoomedInv(s)
    && TakenInv(s)
    && CoverInv(s)
    && TicketInv(s)
    && OrderInv(s)
  }

  // ---------------- worker steps ----------------
  // Each lemma sees a worker's step only through its effect and the facts it needs about the slot after it.

  function LedgerAfter(ledger: seq<TaskId>, effect: Effect): seq<TaskId> {
    match effect
    case Listed(id) => ledger + [id]
    case Taken(id) => Without(ledger, id)
    case Booted => []
    case _ => ledger
  }

  ghost predicate MentionsMove(slot: W.Slot, effect: Effect, slot': W.Slot) {
    forall id :: W.Mentions(slot', id) ==> W.Mentions(slot, id) || effect == Offered(id)
  }

  ghost predicate ConsumesMove(slot: W.Slot, effect: Effect, slot': W.Slot) {
    forall id :: Consumes(slot', id) ==> Consumes(slot, id) || effect == Taken(id)
  }

  ghost predicate CoverMove(slot: W.Slot, slot': W.Slot) {
    forall id :: W.Uncovered(slot', id) ==> W.Uncovered(slot, id)
  }

  ghost predicate ProcessMove(slot: W.Slot, slot': W.Slot) {
    && !slot.process.Dead?
    && (slot'.process.Running? && slot'.tainted ==> slot.process.Running? && slot.tainted)
    && (slot'.process.Running? && slot.process.Running? && slot.tainted ==> slot'.tainted)
    && !slot'.process.Booting?
  }

  ghost predicate PutMove(s: System, slot: W.Slot, effect: Effect, slot': W.Slot) {
    slot'.process.Running? ==>
      && (W.MidPut(slot'.process) ==>
        || effect == Offered(slot'.process.cpu.id)
        || (effect == Quiet && W.MidPut(slot.process) && slot.process.cpu.id == slot'.process.cpu.id))
      && (slot'.process.cpu.PutListed? ==> effect == Listed(slot'.process.cpu.id))
      && slot'.process.replying <= s.place.Keys
  }

  /** When worker i's step can have this effect. */
  ghost predicate Allowed(s: System, i: nat, effect: Effect) {
    match effect
    case Offered(id) => id !in s.owner
    case Listed(id) => OwnedBy(s, id, i) && id !in s.place
    case Begun(id) => id in s.released
    case Replied(id) => id in s.place
    case Taken(id) => (i < |s.slots| && id in LedgerOf(s.slots[i])) || id in s.released || id in s.takenAlive
    case _ => true
  }

  function Moved(s: System, i: nat, effect: Effect, slot': W.Slot): System
    requires i < |s.slots|
  {
    Recorded(s, i, effect, LedgerOf(s.slots[i])).(slots := s.slots[i := slot'])
  }

  lemma SlotsInvWork(t: Timeouts, s: System, i: nat, w: W.Step)
    requires Enabled(s, Work(i, w)) && SlotsInv(s) && OwnerInv(s)
    ensures SlotsInv(Next(t, s, Work(i, w)))
  {
    W.ViewInvStep(s.slots[i], w);
    W.DrainInvStep(s.slots[i], w);
  }

  lemma LedgerStep(slot: W.Slot, w: W.Step)
    requires W.Enabled(slot, w)
    ensures LedgerOf(W.Next(slot, w)) == LedgerAfter(LedgerOf(slot), EffectOf(slot, w))
  {
    if w.Unlist? {
      LedgerIdsDrop(slot.entry.value.ledger, slot.process.cpu.item.id);
    } else if !w.Boot? && !w.PutList? {
      W.EntryFrame(slot, w);
    }
  }

  /** Queueing a task, by put or by a retry, or taking one out of the queue. */
  lemma ConsumesQueueStep(slot: W.Slot, w: W.Step, id: TaskId)
    requires w.PutEnqueue? || w.Retry? || w.Get?
    requires W.Enabled(slot, w) && Consumes(W.Next(slot, w), id)
    ensures Consumes(slot, id)
  {
    var p := slot.process;
    if w.Get? {
      assert p.queue[0] in p.queue;
    }
  }

  lemma ConsumesHandStep(slot: W.Slot, w: W.Step, id: TaskId)
    requires w.Unlist? || w.MarkExecuting?
    requires W.Enabled(slot, w) && Consumes(W.Next(slot, w), id)
    ensures Consumes(slot, id) || (w.Unlist? && slot.process.cpu.item.id == id)
  {
  }

  lemma ConsumesRunStep(slot: W.Slot, w: W.Step, id: TaskId)
    requires w.Start? || w.Finish?
    requires W.Enabled(slot, w) && Consumes(W.Next(slot, w), id)
    ensures Consumes(slot, id)
  {
  }

  lemma ConsumesOtherStep(slot: W.Slot, w: W.Step, id: TaskId)
    requires !(w.PutEnqueue? || w.Retry? || w.Get?) && !(w.Unlist? || w.MarkExecuting?) && !(w.Start? || w.Finish?)
    requires W.Enabled(slot, w) && Consumes(W.Next(slot, w), id)
    ensures Consumes(slot, id)
  {
  }

  lemma ConsumesStep(slot: W.Slot, w: W.Step, id: TaskId)
    requires W.Enabled(slot, w) && Consumes(W.Next(slot, w), id)
    ensures Consumes(slot, id) || EffectOf(slot, w) == Taken(id)
  {
    if w.PutEnqueue? || w.Retry? || w.Get? {
      ConsumesQueueStep(slot, w, id);
    } else if w.Unlist? || w.MarkExecuting? {
      ConsumesHandStep(slot, w, id);
    } else if w.Start? || w.Finish? {
      ConsumesRunStep(slot, w, id);
    } else {
      ConsumesOtherStep(slot, w, id);
    }
  }

  lemma ProcessStep(s: System, i: nat, w: W.Step)
    requires Enabled(s, Work(i, w)) && HandsInv(s)
    ensures ProcessMove(s.slots[i], W.Next(s.slots[i], w))
    ensures PutMove(s, s.slots[i], EffectOf(s.slots[i], w), W.Next(s.slots[i], w))
  {
  }

  lemma AllowedStep(s: System, i: nat, w: W.Step)
    requires Enabled(s, Work(i, w)) && Inv(s)
    ensures Allowed(s, i, EffectOf(s.slots[i], w))
  {
    var slot := s.slots[i];
    if w.Unlist? {
      var item := slot.process.cpu.item;
      if item.retried {
        assert Consumes(s.slots[i], item.id);
      } else if item.id !in LedgerOf(slot) {
        assert W.Waiting(slot.process)[0] == item.id;
        assert W.Uncovered(s.slots[i], item.id);
      }
    } else if w.Start? {
      assert Consumes(s.slots[i], slot.process.cpu.item.id);
    } else if w.PutList? {
      assert W.Mentions(slot, slot.process.cpu.id);
    }
  }

  lemma MentionInvWork(s: System, i: nat, effect: Effect, slot': W.Slot)
    requires MentionInv(s) && i < |s.slots|
    requires MentionsMove(s.slots[i], effect, slot')
    requires effect.Offered? ==> effect.id !in s.owner
    ensures MentionInv(Moved(s, i, effect, slot'))
  {
    var s' := Moved(s, i, effect, slot');
    forall j, id | 0 <= j < |s'.slots| && W.Mentions(s'.slots[j], id)
      ensures id in s'.owner && s'.owner[id] == j
    {
      if j != i {
        assert W.Mentions(s.slots[j], id);
      } else if effect != Offered(id) {
        assert W.Mentions(s.slots[i], id);
      }
    }
  }

  lemma KeysInvWork(s: System, i: nat, effect: Effect, slot': W.Slot)
    requires KeysInv(s) && i < |s.slots| && Allowed(s, i, effect)
    requires forall id :: id in LedgerOf(s.slots[i]) ==> id in s.place
    ensures KeysInv(Moved(s, i, effect, slot'))
  {
  }

  /** A task that an effect does not move stays where it is. */
  lemma LocatedStill(s: System, i: nat, effect: Effect, slot': W.Slot, id: TaskId)
    requires LocatedInv(s) && i < |s.slots| && id in s.place
    requires effect.Listed? || effect.Taken? ==> effect.id != id
    requires LedgerOf(slot') == LedgerAfter(LedgerOf(s.slots[i]), effect)
    requires effect.Booted? ==> id !in LedgerOf(s.slots[i])
    requires effect.Offered? ==> effect.id !in s.owner
    ensures id in Moved(s, i, effect, slot').place && Located(Moved(s, i, effect, slot'), id)
  {
    assert Located(s, id);
  }

  /** A consumer's ledger_remove releases the task if the ledger listed it, and moves nothing otherwise. */
  lemma LocatedTaken(s: System, i: nat, id: TaskId, slot': W.Slot)
    requires LocatedInv(s) && i < |s.slots| && id in s.place
    requires id in LedgerOf(s.slots[i]) ==> OwnedBy(s, id, i)
    requires LedgerOf(slot') == Without(LedgerOf(s.slots[i]), id)
    ensures Located(Moved(s, i, Taken(id), slot'), id)
  {
    assert Located(s, id);
  }

  lemma LocatedInvWork(s: System, i: nat, effect: Effect, slot': W.Slot)
    requires OwnerInv(s) && LocatedInv(s) && i < |s.slots| && Allowed(s, i, effect)
    requires forall id :: id in LedgerOf(s.slots[i]) ==> id in s.place && OwnedBy(s, id, i)
    requires LedgerOf(slot') == LedgerAfter(LedgerOf(s.slots[i]), effect)
    ensures LocatedInv(Moved(s, i, effect, slot'))
  {
    var s' := Moved(s, i, effect, slot');
    forall id | id in s'.place
      ensures Located(s', id)
    {
      if effect == Taken(id) {
        LocatedTaken(s, i, id, slot');
      } else if effect == Listed(id) {
        assert LedgerOf(slot')[|LedgerOf(s.slots[i])|] == id;
      } else if effect.Booted? && id in LedgerOf(s.slots[i]) {
        assert id in s'.lost;
      } else {
        LocatedStill(s, i, effect, slot', id);
      }
    }
  }

  lemma LedgersInvWork(s: System, i: nat, effect: Effect, slot': W.Slot)
    requires OwnerInv(s) && LedgersInv(s) && i < |s.slots| && Allowed(s, i, effect)
    requires LedgerOf(slot') == LedgerAfter(LedgerOf(s.slots[i]), effect)
    ensures LedgersInv(Moved(s, i, effect, slot'))
  {
    var s' := Moved(s, i, effect, slot');
    forall j, id | 0 <= j < |s'.slots| && id in LedgerOf(s'.slots[j])
      ensures Placed(s', id, InLedger) && OwnedBy(s', id, j)
    {
      if j != i || effect != Listed(id) {
        assert id in LedgerOf(s.slots[j]) && OwnedBy(s, id, j);
        assert id in LedgerOf(s.slots[i]) ==> OwnedBy(s, id, i);
        ListedStill(s, i, effect, j, id);
      }
    }
  }

  /** A task that a ledger keeps listing stays in its place and with its owner. */
  lemma ListedStill(s: System, i: nat, effect: Effect, j: nat, id: TaskId)
    requires Placed(s, id, InLedger) && OwnedBy(s, id, j) && i < |s.slots| && Allowed(s, i, effect)
    requires KeysInv(s) && (effect == Taken(id) || effect.Booted? ==> id !in LedgerOf(s.slots[i]))
    ensures var s' := Recorded(s, i, effect, LedgerOf(s.slots[i]));
            Placed(s', id, InLedger) && OwnedBy(s', id, j)
  {
  }

  lemma PushesInvWork(s: System, i: nat, effect: Effect, slot': W.Slot)
    requires OwnerInv(s) && PushesInv(s) && i < |s.slots| && Allowed(s, i, effect)
    requires forall id :: id in LedgerOf(s.slots[i]) ==> Placed(s, id, InLedger)
    ensures PushesInv(Moved(s, i, effect, slot'))
  {
    var s' := Moved(s, i, effect, slot');
    forall id, place | Placed(s, id, place) && place != InLedger
      ensures Placed(s', id, place)
    {
    }
    forall id, j | OwnedBy(s, id, j)
      ensures OwnedBy(s', id, j)
    {
    }
    forall id | id in s'.lost
      ensures Placed(s', id, Overwritten)
    {
      if id in s.lost {
        assert Placed(s, id, Overwritten);
      }
    }
  }

  lemma HandsInvWork(s: System, i: nat, effect: Effect, slot': W.Slot)
    requires OwnerInv(s) && HandsInv(s) && i < |s.slots| && Allowed(s, i, effect)
    requires forall id :: id in LedgerOf(s.slots[i]) ==> id in s.place
    requires PutMove(s, s.slots[i], effect, slot') && ConsumesMove(s.slots[i], effect, slot')
    ensures HandsInv(Moved(s, i, effect, slot'))
  {
    var s' := Moved(s, i, effect, slot');
    forall j | 0 <= j < |s'.slots| && s'.slots[j].process.Running?
      ensures PutKnown(s', s'.slots[j].process)
    {
      var q := s.slots[j].process;
      if j != i && W.MidPut(q) {
        assert PutKnown(s, q);
        assert W.Mentions(s.slots[j], q.cpu.id);
      }
    }
  }

  lemma DoomedInvWork(s: System, i: nat, effect: Effect, slot': W.Slot)
    requires TaintInv(s) && DoomedInv(s) && i < |s.slots|
    requires ProcessMove(s.slots[i], slot')
    requires LedgerOf(slot') == LedgerAfter(LedgerOf(s.slots[i]), effect)
    ensures TaintInv(Moved(s, i, effect, slot')) && DoomedInv(Moved(s, i, effect, slot'))
  {
    var s' := Moved(s, i, effect, slot');
    forall j, id | 0 <= j < |s'.slots| && Doomed(s', j) && id in LedgerOf(s'.slots[j])
      ensures id in s'.listedLate
    {
      if j != i || effect != Listed(id) {
        assert id in LedgerOf(s.slots[j]);
        assert Doomed(s, j);
      }
    }
  }

  lemma ReleasedInvWork(s: System, i: nat, effect: Effect, slot': W.Slot)
    requires ReleasedInv(s) && i < |s.slots| && Allowed(s, i, effect)
    requires forall id :: id in LedgerOf(s.slots[i]) ==> Placed(s, id, InLedger)
    requires effect.Booted? ==> forall id :: id in LedgerOf(s.slots[i]) ==> id in s.listedLate
    ensures ReleasedInv(Moved(s, i, effect, slot'))
  {
    var s' := Moved(s, i, effect, slot');
    forall id | id in s'.takenAlive
      ensures Handed(s', id)
    {
      assert Handed(s, id);
    }
    forall id | id in s'.released
      ensures Placed(s', id, Released) || id in s'.takenAlive
    {
      if id in s.released && id !in s.takenAlive {
        assert Placed(s, id, Released);
      }
    }
  }

  lemma TakenInvWork(s: System, i: nat, effect: Effect, slot': W.Slot)
    requires TakenInv(s) && ReleasedInv(s) && KeysInv(s) && i < |s.slots| && Allowed(s, i, effect)
    requires MentionsMove(s.slots[i], effect, slot') && ProcessMove(s.slots[i], slot')
    requires LedgersInv(Moved(s, i, effect, slot')) && ReleasedInv(Moved(s, i, effect, slot'))
    ensures TakenInv(Moved(s, i, effect, slot'))
  {
    var s' := Moved(s, i, effect, slot');
    forall j, id | 0 <= j < |s'.slots| && W.Mentions(s'.slots[j], id) && id in s'.takenAlive
      ensures s'.slots[j].process.Running? && s'.slots[j].tainted
    {
      assert Handed(s, id) && Handed(s', id);
      assert W.Mentions(s.slots[j], id);
      assert id !in LedgerOf(s'.slots[j]);
    }
  }

  lemma CoverInvWork(s: System, i: nat, effect: Effect, slot': W.Slot)
    requires CoverInv(s) && i < |s.slots| && CoverMove(s.slots[i], slot')
    ensures CoverInv(Moved(s, i, effect, slot'))
  {
    var s' := Moved(s, i, effect, slot');
    forall j, id | 0 <= j < |s'.slots| && W.Uncovered(s'.slots[j], id)
      ensures id in s'.takenAlive
    {
      assert W.Uncovered(s.slots[j], id);
    }
  }

  lemma InOrderConcat(a: seq<TaskId>, b: seq<TaskId>, ticket: map<TaskId, nat>)
    ensures InOrder(a + b, ticket) <==>
            && InOrder(a, ticket) && InOrder(b, ticket)
            && forall x, y :: x in a && y in b ==> ticket[x] < ticket[y]
  {
    var c := a + b;
    if InOrder(c, ticket) {
      assert forall k :: 0 <= k < |a| ==> a[k] == c[k];
      assert forall k :: 0 <= k < |b| ==> b[k] == c[|a| + k];
    }
  }

  lemma {:induction false} InOrderWithout(ids: seq<TaskId>, id: TaskId, ticket: map<TaskId, nat>)
    requires InOrder(ids, ticket)
    ensures InOrder(Without(ids, id), ticket)
  {
    if ids != [] {
      assert ids == [ids[0]] + ids[1..];
      InOrderConcat([ids[0]], ids[1..], ticket);
      InOrderWithout(ids[1..], id, ticket);
      InOrderConcat([ids[0]], Without(ids[1..], id), ticket);
    }
  }

  lemma InOrderAfter(head: seq<TaskId>, ledger: seq<TaskId>, effect: Effect, ticket: map<TaskId, nat>)
    requires InOrder(head + ledger, ticket)
    requires !effect.Listed?
    ensures InOrder(head + LedgerAfter(ledger, effect), ticket)
  {
    InOrderConcat(head, ledger, ticket);
    if effect.Taken? {
      InOrderWithout(ledger, effect.id, ticket);
    }
    InOrderConcat(head, LedgerAfter(ledger, effect), ticket);
  }

  lemma InOrderAppend(ids: seq<TaskId>, id: TaskId, ticket: map<TaskId, nat>)
    requires InOrder(ids, ticket) && id !in ticket
    requires forall x :: x in ticket ==> ticket[x] < |ticket|
    ensures InOrder(ids + [id], ticket[id := |ticket|])
  {
  }

  lemma TicketInvWork(s: System, i: nat, effect: Effect, slot': W.Slot)
    requires KeysInv(s) && TicketInv(s) && i < |s.slots| && Allowed(s, i, effect)
    ensures TicketInv(Moved(s, i, effect, slot'))
  {
    if effect.Listed? {
      assert effect.id !in s.ticket;
    }
  }

  lemma TrailOther(s: System, i: nat, effect: Effect, slot': W.Slot, j: nat)
    requires i < |s.slots| && j < |s.slots|
    ensures var s' := Moved(s, i, effect, slot');
            Trail(s', j) == PushedOf(s, j) + LedgerOf(s'.slots[j])
  {
    assert PushedOf(Moved(s, i, effect, slot'), j) == PushedOf(s, j);
  }

  lemma TrailListed(s: System, i: nat, id: TaskId, slot': W.Slot)
    requires TicketInv(s) && OrderInv(s) && i < |s.slots| && id !in s.ticket
    requires LedgerOf(slot') == LedgerOf(s.slots[i]) + [id]
    ensures InOrder(PushedOf(s, i) + LedgerOf(slot'), s.ticket[id := |s.ticket|])
  {
    assert InOrder(Trail(s, i), s.ticket);
    InOrderAppend(Trail(s, i), id, s.ticket);
    assert PushedOf(s, i) + LedgerOf(slot') == Trail(s, i) + [id];
  }

  lemma InOrderFresh(ids: seq<TaskId>, ticket: map<TaskId, nat>, id: TaskId, n: nat)
    requires InOrder(ids, ticket) && id !in ticket
    ensures InOrder(ids, ticket[id := n])
  {
  }

  lemma TrailWork(s: System, i: nat, effect: Effect, slot': W.Slot, j: nat)
    requires KeysInv(s) && TicketInv(s) && OrderInv(s) && i < |s.slots| && Allowed(s, i, effect)
    requires LedgerOf(slot') == LedgerAfter(LedgerOf(s.slots[i]), effect) && j < |s.slots|
    ensures InOrder(Trail(Moved(s, i, effect, slot'), j), Moved(s, i, effect, slot').ticket)
  {
    assert InOrder(Trail(s, j), s.ticket);
    TrailOther(s, i, effect, slot', j);
    if j == i && effect.Listed? {
      TrailListed(s, i, effect.id, slot');
    } else if j == i {
      InOrderAfter(PushedOf(s, i), LedgerOf(s.slots[i]), effect, s.ticket);
    } else if effect.Listed? {
      InOrderFresh(Trail(s, j), s.ticket, effect.id, |s.ticket|);
    }
  }

  lemma OrderInvWork(s: System, i: nat, effect: Effect, slot': W.Slot)
    requires KeysInv(s) && TicketInv(s) && OrderInv(s) && i < |s.slots| && Allowed(s, i, effect)
    requires LedgerOf(slot') == LedgerAfter(LedgerOf(s.slots[i]), effect)
    ensures OrderInv(Moved(s, i, effect, slot'))
  {
    var s' := Moved(s, i, effect, slot');
    forall j | 0 <= j < |s'.slots|
      ensures InOrder(Trail(s', j), s'.ticket)
    {
      TrailWork(s, i, effect, slot', j);
    }
  }

  lemma InvWork(t: Timeouts, s: System, i: nat, w: W.Step)
    requires Enabled(s, Work(i, w)) && Inv(s)
    ensures Inv(Next(t, s, Work(i, w)))
  {
    var slot := s.slots[i];
    var effect := EffectOf(slot, w);
    var slot' := W.Next(slot, w);
    SlotsInvWork(t, s, i, w);
    LedgerStep(slot, w);
    ProcessStep(s, i, w);
    AllowedStep(s, i, w);
    assert MentionsMove(slot, effect, slot') by {
      forall id | W.Mentions(slot', id)
        ensures W.Mentions(slot, id) || effect == Offered(id)
      {
        W.MentionsStep(slot, w, id);
      }
    }
    assert ConsumesMove(slot, effect, slot') by {
      forall id | Consumes(slot', id)
        ensures Consumes(slot, id) || effect == Taken(id)
      {
        ConsumesStep(slot, w, id);
      }
    }
    assert CoverMove(slot, slot') by {
      forall id | W.Uncovered(slot', id)
        ensures W.Uncovered(slot, id)
      {
        W.UncoveredStep(slot, w, id);
      }
    }
    MentionInvWork(s, i, effect, slot');
    KeysInvWork(s, i, effect, slot');
    LocatedInvWork(s, i, effect, slot');
    LedgersInvWork(s, i, effect, slot');
    PushesInvWork(s, i, effect, slot');
    HandsInvWork(s, i, effect, slot');
    DoomedInvWork(s, i, effect, slot');
    TicketInvWork(s, i, effect, slot');
    assert effect.Booted? ==> Doomed(s, i);
    ReleasedInvWork(s, i, effect, slot');
    TakenInvWork(s, i, effect, slot');
    CoverInvWork(s, i, effect, slot');
    OrderInvWork(s, i, effect, slot');
  }

  // ---------------- supervisor steps ----------------

  /** The supervisor replaces slot i's process or status but nothing in its ledger. */
  function Swapped(s: System, i: nat, slot': W.Slot, supervisor: Supervisor): System
    requires i < |s.slots|
  {
    s.(slots := s.slots[i := slot'], supervisor := supervisor)
  }

  ghost predicate SameTasks(slot: W.Slot, slot': W.Slot) {
    && LedgerOf(slot') == LedgerOf(slot)
    && ((slot'.process == slot.process && slot'.tainted == slot.tainted) || !slot'.process.Running?)
  }

  lemma MentionsSame(slot: W.Slot, slot': W.Slot)
    requires SameTasks(slot, slot')
    ensures MentionsMove(slot, Quiet, slot')
  {
  }

  lemma SwapPlace(s: System, i: nat, slot': W.Slot, supervisor: Supervisor)
    requires PlaceInv(s) && i < |s.slots| && SameTasks(s.slots[i], slot')
    requires PendingIds(s.supervisor) == PendingIds(supervisor) == []
    ensures PlaceInv(Swapped(s, i, slot', supervisor))
  {
    var s' := Swapped(s, i, slot', supervisor);
    forall id | id in s'.place
      ensures Located(s', id)
    {
      assert Located(s, id);
    }
    forall j, id | 0 <= j < |s'.slots| && id in LedgerOf(s'.slots[j])
      ensures Placed(s', id, InLedger) && OwnedBy(s', id, j)
    {
      assert id in LedgerOf(s.slots[j]);
    }
  }

  lemma SwapHands(s: System, i: nat, slot': W.Slot, supervisor: Supervisor)
    requires HandsInv(s) && i < |s.slots| && SameTasks(s.slots[i], slot')
    ensures HandsInv(Swapped(s, i, slot', supervisor))
  {
    var s' := Swapped(s, i, slot', supervisor);
    forall j, id | 0 <= j < |s'.slots| && Consumes(s'.slots[j], id)
      ensures id in s'.released
    {
      assert Consumes(s.slots[j], id);
    }
  }

  lemma SwapOrder(s: System, i: nat, slot': W.Slot, supervisor: Supervisor)
    requires OrderInv(s) && i < |s.slots| && SameTasks(s.slots[i], slot')
    requires PendingIds(s.supervisor) == PendingIds(supervisor) == []
    ensures OrderInv(Swapped(s, i, slot', supervisor))
  {
    var s' := Swapped(s, i, slot', supervisor);
    forall j | 0 <= j < |s'.slots|
      ensures InOrder(Trail(s', j), s'.ticket)
    {
      assert InOrder(Trail(s, j), s.ticket);
      assert PushedOf(s', j) == PushedOf(s, j);
    }
  }

  lemma SwapTaken(s: System, i: nat, slot': W.Slot, supervisor: Supervisor)
    requires TakenInv(s) && CoverInv(s) && LedgersInv(s) && ReleasedInv(s)
    requires i < |s.slots| && SameTasks(s.slots[i], slot')
    ensures TakenInv(Swapped(s, i, slot', supervisor)) && CoverInv(Swapped(s, i, slot', supervisor))
  {
    var s' := Swapped(s, i, slot', supervisor);
    forall j, id | 0 <= j < |s'.slots| && W.Mentions(s'.slots[j], id) && id in s'.takenAlive
      ensures s'.slots[j].process.Running? && s'.slots[j].tainted
    {
      assert Handed(s, id);
      assert W.Mentions(s.slots[j], id);
      assert id !in LedgerOf(s.slots[j]);
    }
    forall j, id | 0 <= j < |s'.slots| && W.Uncovered(s'.slots[j], id)
      ensures id in s'.takenAlive
    {
      assert W.Uncovered(s.slots[j], id);
    }
  }

  lemma SwapInv(s: System, i: nat, slot': W.Slot, supervisor: Supervisor)
    requires Inv(s) && i < |s.slots| && SameTasks(s.slots[i], slot')
    requires W.ViewInv(slot') && W.DrainInv(slot')
    requires PendingIds(s.supervisor) == PendingIds(supervisor) == []
    requires TaintInv(Swapped(s, i, slot', supervisor))
    requires DoomedInv(Swapped(s, i, slot', supervisor))
    ensures Inv(Swapped(s, i, slot', supervisor))
  {
    MentionsSame(s.slots[i], slot');
    MentionInvWork(s, i, Quiet, slot');
    var s' := Swapped(s, i, slot', supervisor);
    assert MentionInv(s') by {
      assert s'.slots == Moved(s, i, Quiet, slot').slots;
      assert MentionInv(Moved(s, i, Quiet, slot'));
    }
    SwapPlace(s, i, slot', supervisor);
    SwapHands(s, i, slot', supervisor);
    SwapOrder(s, i, slot', supervisor);
    SwapTaken(s, i, slot', supervisor);
  }

  /** A swap dooms no ledger that was not doomed. */
  lemma SwapDoomed(s: System, i: nat, slot': W.Slot, supervisor: Supervisor)
    requires DoomedInv(s) && i < |s.slots| && SameTasks(s.slots[i], slot')
    requires LedgerOf(slot') == [] || (Doomed(Swapped(s, i, slot', supervisor), i) ==> Doomed(s, i))
    requires forall j :: 0 <= j < |s.slots| && j != i && Doomed(Swapped(s, i, slot', supervisor), j) ==> Doomed(s, j)
    requires supervisor.Respawning? ==> supervisor.worker == i && slot'.process.Dead?
    ensures DoomedInv(Swapped(s, i, slot', supervisor))
  {
    var s' := Swapped(s, i, slot', supervisor);
    forall j, id | 0 <= j < |s'.slots| && Doomed(s', j) && id in LedgerOf(s'.slots[j])
      ensures id in s'.listedLate
    {
      assert id in LedgerOf(s.slots[j]) && Doomed(s, j);
    }
  }

  /** The supervisor makes up its mind. */
  lemma InvDecide(s: System, i: nat, supervisor: Supervisor)
    requires Inv(s) && i < |s.slots| && s.supervisor.Idle? && (supervisor.Idle? || supervisor.Acting?)
    ensures Inv(Swapped(s, i, s.slots[i], supervisor))
  {
    SwapDoomed(s, i, s.slots[i], supervisor);
    SwapInv(s, i, s.slots[i], supervisor);
  }

  lemma InvCheck(t: Timeouts, s: System, i: nat, now: real)
    requires Enabled(s, Check(i, now)) && Inv(s)
    ensures Inv(Next(t, s, Check(i, now)))
  {
    var s' := Next(t, s, Check(i, now));
    InvDecide(s, i, s'.supervisor);
    assert s.slots[i := s.slots[i]] == s.slots;
    assert s' == Swapped(s, i, s.slots[i], s'.supervisor);
  }

  lemma MarkedSlotInv(slot: W.Slot, status: Status, since: Option<real>, marked: seq<LedgerEntry>)
    requires W.ViewInv(slot) && W.DrainInv(slot) && slot.entry.Some?
    requires status == Draining ==> !(slot.process.Running? && slot.tainted) && marked == slot.entry.value.ledger
    ensures var slot' := slot.(entry := Some(WithStatus(slot.entry.value, status, since)), marked := marked);
            W.ViewInv(slot') && W.DrainInv(slot') && SameTasks(slot, slot')
  {
    if status == Draining {
      assert W.SuffixFrom(slot.entry.value.ledger, marked, !W.MidPut(slot.process), 0);
    }
  }

  /** Back to idle after an action that leaves every process and ledger alone. */
  lemma InvSettle(s: System, slot': W.Slot)
    requires Inv(s) && s.supervisor.Acting? && s.supervisor.worker < |s.slots|
    requires var slot := s.slots[s.supervisor.worker];
             SameTasks(slot, slot') && slot'.process == slot.process && slot'.tainted == slot.tainted
    requires W.ViewInv(slot') && W.DrainInv(slot')
    ensures Inv(Swapped(s, s.supervisor.worker, slot', Idle))
  {
    var i := s.supervisor.worker;
    SwapDoomed(s, i, slot', Idle);
    SwapInv(s, i, slot', Idle);
  }

  lemma InvMarkAs(s: System, status: Status, since: Option<real>, marked: seq<LedgerEntry>)
    requires Inv(s) && s.supervisor.Acting? && s.supervisor.worker < |s.slots|
    requires var slot := s.slots[s.supervisor.worker];
             slot.entry.Some? && (status == Draining ==> marked == slot.entry.value.ledger)
    ensures var i := s.supervisor.worker;
            var slot := s.slots[i];
            var slot' := slot.(entry := Some(WithStatus(slot.entry.value, status, since)), marked := marked);
            Inv(Swapped(s, i, slot', Idle))
  {
    var i := s.supervisor.worker;
    var slot := s.slots[i];
    MarkedSlotInv(slot, status, since, marked);
    InvSettle(s, slot.(entry := Some(WithStatus(slot.entry.value, status, since)), marked := marked));
  }

  lemma InvMark(s: System, markedAt: real)
    requires Enabled(s, Act(markedAt)) && Inv(s) && s.supervisor.action != KillAndRespawn
    ensures Inv(Acted(s, markedAt))
  {
    var i := s.supervisor.worker;
    var slot := s.slots[i];
    var s' := Acted(s, markedAt);
    if slot.entry.None? || s.supervisor.action.Nothing? {
      InvSettle(s, slot);
      assert s.slots[i := slot] == s.slots;
      assert s' == Swapped(s, i, slot, Idle);
    } else if s.supervisor.action.MarkDraining? {
      InvMarkAs(s, Draining, Some(markedAt), slot.entry.value.ledger);
      assert s' == Swapped(s, i, s'.slots[i], Idle);
    } else {
      InvMarkAs(s, Healthy, None, slot.marked);
      assert s' == Swapped(s, i, s'.slots[i], Idle);
    }
  }

  lemma InvReplace(s: System, slot': W.Slot, supervisor: Supervisor)
    requires Inv(s) && PendingIds(s.supervisor) == []
    requires s.supervisor.Pushing? || s.supervisor.Respawning?
    requires s.supervisor.worker < |s.slots|
    requires var slot := s.slots[s.supervisor.worker];
             slot' == slot || slot' == slot.(process := W.Dead, tainted := false)
             || (slot' == slot.(process := W.Booting, tainted := false) && s.supervisor.Respawning?)
    requires supervisor == Idle || (supervisor == Respawning(s.supervisor.worker) && slot'.process.Dead?)
    requires supervisor == Idle ==> s.supervisor.Respawning?
    ensures Inv(Swapped(s, s.supervisor.worker, slot', supervisor))
  {
    var i := s.supervisor.worker;
    var slot := s.slots[i];
    SwapDoomed(s, i, slot', supervisor);
    assert W.DrainInv(slot') by {
      if slot.entry.Some? && slot.entry.value.status == Draining {
        var k: nat :| W.SuffixFrom(slot.entry.value.ledger, slot.marked, !W.MidPut(slot.process), k);
        assert W.SuffixFrom(slot.entry.value.ledger, slot.marked, !W.MidPut(slot'.process), k);
      }
    }
    SwapInv(s, i, slot', supervisor);
  }

  lemma TakeLedgers(s: System, s': System, i: nat)
    requires LedgersInv(s) && i < |s.slots| == |s'.slots|
    requires s'.slots == s.slots[i := s'.slots[i]] && LedgerOf(s'.slots[i]) == []
    requires s'.place == s.place + map id | id in LedgerOf(s.slots[i]) :: InRescue
    requires s'.owner == s.owner
    ensures LedgersInv(s') && s'.place.Keys == s.place.Keys
    ensures forall id :: id in LedgerOf(s.slots[i]) ==> Placed(s, id, InLedger) && OwnedBy(s, id, i)
  {
    forall j, id | 0 <= j < |s'.slots| && id in LedgerOf(s'.slots[j])
      ensures Placed(s', id, InLedger) && OwnedBy(s', id, j)
    {
      assert id in LedgerOf(s.slots[j]);
      assert OwnedBy(s, id, j);
    }
  }

  lemma TakePlace(s: System, s': System, i: nat)
    requires LocatedInv(s) && PushesInv(s) && i < |s.slots| == |s'.slots| && PendingIds(s.supervisor) == []
    requires s'.slots == s.slots[i := s'.slots[i]]
    requires s'.supervisor.Pushing? && s'.supervisor.worker == i && PendingIds(s'.supervisor) == LedgerOf(s.slots[i])
    requires s'.place == s.place + map id | id in LedgerOf(s.slots[i]) :: InRescue
    requires s'.stream == s.stream && s'.dropped == s.dropped && s'.owner == s.owner
    requires s'.released == s.released && s'.lost == s.lost
    requires forall id :: id in LedgerOf(s.slots[i]) ==> Placed(s, id, InLedger) && OwnedBy(s, id, i)
    ensures LocatedInv(s') && PushesInv(s')
  {
    forall id | id in s'.place
      ensures Located(s', id)
    {
      if id !in LedgerOf(s.slots[i]) {
        assert Located(s, id);
      }
    }
    forall id, place | Placed(s, id, place) && place != InLedger
      ensures Placed(s', id, place)
    {
    }
  }

  lemma TakeOrder(s: System, s': System, i: nat)
    requires OrderInv(s) && i < |s.slots| && PendingIds(s.supervisor) == [] && !s.supervisor.Pushing?
    requires |s'.slots| == |s.slots| && s'.slots == s.slots[i := s'.slots[i]] && LedgerOf(s'.slots[i]) == []
    requires s'.supervisor.Pushing? && s'.supervisor.worker == i && PendingIds(s'.supervisor) == LedgerOf(s.slots[i])
    requires s'.stream == s.stream && s'.ticket == s.ticket
    ensures OrderInv(s')
  {
    forall j | 0 <= j < |s'.slots|
      ensures InOrder(Trail(s', j), s'.ticket)
    {
      assert InOrder(Trail(s, j), s.ticket);
      assert Trail(s', j) == Trail(s, j);
    }
  }

  lemma TakenSlotInv(slot: W.Slot)
    requires W.ViewInv(slot) && slot.entry.Some?
    ensures var slot' := slot.(entry := Some(ClearLedger(slot.entry.value)), tainted := slot.process.Running?);
            W.ViewInv(slot') && W.DrainInv(slot')
  {
    assert W.SuffixFrom([], slot.marked, !W.MidPut(slot.process), |slot.marked|);
  }

  lemma TakeSlots(s: System, s': System, i: nat)
    requires i < |s.slots| == |s'.slots| && s'.slots == s.slots[i := s'.slots[i]]
    requires s'.slots[i].process == s.slots[i].process && LedgerOf(s'.slots[i]) == []
    requires s'.owner == s.owner && s'.released == s.released && s'.started == s.started && s'.acked == s.acked
    requires s'.place.Keys == s.place.Keys && MentionInv(s) && HandsInv(s)
    ensures MentionInv(s') && HandsInv(s')
  {
    forall j, id | 0 <= j < |s'.slots| && W.Mentions(s'.slots[j], id)
      ensures OwnedBy(s', id, j)
    {
      assert W.Mentions(s.slots[j], id);
    }
    forall j, id | 0 <= j < |s'.slots| && Consumes(s'.slots[j], id)
      ensures id in s'.released
    {
      assert Consumes(s.slots[j], id);
    }
  }

  lemma TakeReleased(s: System, s': System, i: nat)
    requires ReleasedInv(s) && LedgersInv(s) && i < |s.slots|
    requires s'.place == s.place + map id | id in LedgerOf(s.slots[i]) :: InRescue
    requires s'.released == s.released && s'.lost == s.lost && s'.listedLate == s.listedLate
    requires s.takenAlive <= s'.takenAlive <= s.takenAlive + set id | id in LedgerOf(s.slots[i])
    ensures ReleasedInv(s')
  {
    forall id | id in s'.takenAlive
      ensures Handed(s', id)
    {
      if id !in LedgerOf(s.slots[i]) {
        assert Handed(s, id);
      }
    }
    forall id | id in s'.released
      ensures Placed(s', id, Released) || id in s'.takenAlive
    {
      if id !in s.takenAlive {
        assert Placed(s, id, Released);
      }
    }
  }

  lemma TakeDoomed(s: System, s': System, i: nat)
    requires DoomedInv(s) && TaintInv(s) && s.supervisor.Acting? && i < |s.slots| == |s'.slots|
    requires s'.slots == s.slots[i := s'.slots[i]] && s'.slots[i].process == s.slots[i].process
    requires LedgerOf(s'.slots[i]) == [] && s'.listedLate == s.listedLate
    requires s'.slots[i].tainted == s.slots[i].process.Running?
    requires s'.supervisor.Pushing? && s'.supervisor.worker == i
    ensures DoomedInv(s') && TaintInv(s')
  {
    forall j, id | 0 <= j < |s'.slots| && Doomed(s', j) && id in LedgerOf(s'.slots[j])
      ensures id in s'.listedLate
    {
      assert id in LedgerOf(s.slots[j]) && Doomed(s, j);
    }
  }

  lemma TakeTaken(s: System, s': System, i: nat)
    requires TakenInv(s) && MentionInv(s) && i < |s.slots| == |s'.slots|
    requires s'.slots == s.slots[i := s'.slots[i]] && s'.slots[i].process == s.slots[i].process
    requires LedgerOf(s'.slots[i]) == [] && s'.slots[i].tainted == s.slots[i].process.Running?
    requires s'.takenAlive <= s.takenAlive + set id | id in LedgerOf(s.slots[i])
    ensures TakenInv(s')
  {
    forall j, id | 0 <= j < |s'.slots| && W.Mentions(s'.slots[j], id) && id in s'.takenAlive
      ensures s'.slots[j].process.Running? && s'.slots[j].tainted
    {
      if j != i && id !in s.takenAlive {
        assert W.Mentions(s.slots[j], id) && W.Mentions(s.slots[i], id);
      }
    }
  }

  lemma TakeCover(s: System, s': System, i: nat)
    requires CoverInv(s) && i < |s.slots| == |s'.slots|
    requires s'.slots == s.slots[i := s'.slots[i]] && s'.slots[i].process == s.slots[i].process
    requires s.takenAlive <= s'.takenAlive
    requires s.slots[i].process.Running? ==> forall id :: id in LedgerOf(s.slots[i]) ==> id in s'.takenAlive
    ensures CoverInv(s')
  {
    forall j, id | 0 <= j < |s'.slots| && W.Uncovered(s'.slots[j], id)
      ensures id in s'.takenAlive
    {
      assert W.Uncovered(s.slots[j], id) || (j == i && id in LedgerOf(s.slots[i]));
    }
  }

  lemma TakeSlotsInv(s: System, s': System, i: nat)
    requires SlotsInv(s) && i < |s.slots| == |s'.slots| && s.slots[i].entry.Some?
    requires s'.slots == s.slots[i := s'.slots[i]]
    requires var slot := s.slots[i];
             s'.slots[i] == slot.(entry := Some(ClearLedger(slot.entry.value)), tainted := slot.process.Running?)
    ensures SlotsInv(s')
  {
    TakenSlotInv(s.slots[i]);
  }

  lemma InvTake(s: System, markedAt: real)
    requires Enabled(s, Act(markedAt)) && Inv(s)
    requires s.supervisor.action == KillAndRespawn && s.slots[s.supervisor.worker].entry.Some?
    ensures Inv(Acted(s, markedAt))
  {
    var i := s.supervisor.worker;
    var s' := Acted(s, markedAt);
    assert LedgerOf(s'.slots[i]) == [];
    TakeSlotsInv(s, s', i);
    TakeLedgers(s, s', i);
    TakePlace(s, s', i);
    TakeSlots(s, s', i);
    TakeOrder(s, s', i);
    TakeDoomed(s, s', i);
    TakeReleased(s, s', i);
    TakeTaken(s, s', i);
    TakeCover(s, s', i);
  }

  /** A worker that never registered has nothing to rescue. */
  lemma InvNoEntry(s: System)
    requires Inv(s) && s.supervisor.Acting? && s.supervisor.worker < |s.slots|
    requires s.slots[s.supervisor.worker].entry.None?
    ensures Inv(s.(supervisor := Pushing(s.supervisor.worker, [])))
  {
    var i := s.supervisor.worker;
    SwapDoomed(s, i, s.slots[i], Pushing(i, []));
    SwapInv(s, i, s.slots[i], Pushing(i, []));
    assert s.slots[i := s.slots[i]] == s.slots;
    assert s.(supervisor := Pushing(i, [])) == Swapped(s, i, s.slots[i], Pushing(i, []));
  }

  lemma InvAct(s: System, markedAt: real)
    requires Enabled(s, Act(markedAt)) && Inv(s)
    ensures Inv(Acted(s, markedAt))
  {
    var i := s.supervisor.worker;
    if s.supervisor.action != KillAndRespawn {
      InvMark(s, markedAt);
    } else if s.slots[i].entry.Some? {
      InvTake(s, markedAt);
    } else {
      InvNoEntry(s);
    }
  }

  lemma StreamOfAppend(stream: seq<Push>, p: Push, i: nat)
    ensures StreamOf(stream + [p], i) == StreamOf(stream, i) + (if p.worker == i then [p.entry.id] else [])
  {
    assert (stream + [p])[..|stream|] == stream;
  }

  lemma PushIdsAppend(pushes: seq<Push>, p: Push)
    ensures PushIds(pushes + [p]) == PushIds(pushes) + [p.entry.id]
  {
  }

  lemma PushLocated(s: System, s': System, i: nat, e: LedgerEntry, rest: seq<LedgerEntry>, ok: bool)
    requires LocatedInv(s) && s.supervisor == Pushing(i, [e] + rest) && s'.supervisor == Pushing(i, rest)
    requires s'.slots == s.slots && s'.owner == s.owner && s'.released == s.released && s'.lost == s.lost
    requires s'.stream == if ok then s.stream + [Push(i, e)] else s.stream
    requires s'.dropped == if ok then s.dropped else s.dropped + [Push(i, e)]
    requires s'.place == s.place[e.id := if ok then InStream else Dropped]
    ensures LocatedInv(s')
  {
    PushIdsAppend(s.stream, Push(i, e));
    PushIdsAppend(s.dropped, Push(i, e));
    LedgerIdsHead([e] + rest);
    assert ([e] + rest)[1..] == rest;
    forall id | id in s'.place
      ensures Located(s', id)
    {
      if id != e.id {
        assert Located(s, id);
      }
    }
  }

  lemma PushPending(s: System, i: nat, e: LedgerEntry, rest: seq<LedgerEntry>)
    requires PushesInv(s) && s.supervisor == Pushing(i, [e] + rest) && Distinct(PendingIds(s.supervisor))
    ensures Placed(s, e.id, InRescue) && OwnedBy(s, e.id, i)
    ensures forall id :: id in LedgerIds(rest) ==> id != e.id && Placed(s, id, InRescue) && OwnedBy(s, id, i)
  {
    LedgerIdsHead([e] + rest);
    assert ([e] + rest)[1..] == rest;
    var ids := PendingIds(s.supervisor);
    assert ids == [e.id] + LedgerIds(rest);
    assert e.id in ids;
    forall k | 0 <= k < |LedgerIds(rest)|
      ensures LedgerIds(rest)[k] != e.id && LedgerIds(rest)[k] in ids
    {
      assert ids[k + 1] == LedgerIds(rest)[k] && ids[0] == e.id;
    }
  }

  lemma PushPushes(s: System, s': System, i: nat, e: LedgerEntry, rest: seq<LedgerEntry>, ok: bool)
    requires PushesInv(s) && s'.supervisor == Pushing(i, rest)
    requires Placed(s, e.id, InRescue) && OwnedBy(s, e.id, i)
    requires forall id :: id in LedgerIds(rest) ==> id != e.id && Placed(s, id, InRescue) && OwnedBy(s, id, i)
    requires s'.owner == s.owner && s'.lost == s.lost
    requires s'.stream == if ok then s.stream + [Push(i, e)] else s.stream
    requires s'.dropped == if ok then s.dropped else s.dropped + [Push(i, e)]
    requires s'.place == s.place[e.id := if ok then InStream else Dropped]
    ensures PushesInv(s')
  {
    PushIdsAppend(s.stream, Push(i, e));
    PushIdsAppend(s.dropped, Push(i, e));
    forall id, place | Placed(s, id, place) && place != InRescue
      ensures Placed(s', id, place)
    {
    }
  }

  lemma PushLedgers(s: System, s': System, id0: TaskId, place: Place)
    requires LedgersInv(s) && Placed(s, id0, InRescue)
    requires s'.slots == s.slots && s'.owner == s.owner && s'.place == s.place[id0 := place]
    ensures LedgersInv(s')
  {
    forall j, id | 0 <= j < |s'.slots| && id in LedgerOf(s'.slots[j])
      ensures Placed(s', id, InLedger) && OwnedBy(s', id, j)
    {
      assert id in LedgerOf(s.slots[j]);
    }
  }

  /** Moving the oldest pending task to the stream leaves the trail as it is; dropping it keeps the order. */
  lemma TrailAfterPush(head: seq<TaskId>, id: TaskId, rest: seq<TaskId>, ledger: seq<TaskId>, ticket: map<TaskId, nat>)
    requires InOrder((head + ([id] + rest)) + ledger, ticket)
    ensures InOrder(((head + [id]) + rest) + ledger, ticket)
    ensures InOrder((head + rest) + ledger, ticket)
  {
    assert ((head + [id]) + rest) + ledger == (head + ([id] + rest)) + ledger;
    assert (head + ([id] + rest)) + ledger == head + ([id] + (rest + ledger));
    InOrderConcat(head, [id] + (rest + ledger), ticket);
    InOrderConcat([id], rest + ledger, ticket);
    InOrderConcat(head, rest + ledger, ticket);
    assert head + (rest + ledger) == (head + rest) + ledger;
  }

  lemma PushOrder(s: System, s': System, i: nat, e: LedgerEntry, rest: seq<LedgerEntry>, ok: bool)
    requires OrderInv(s) && i < |s.slots| && s.supervisor == Pushing(i, [e] + rest)
    requires s'.slots == s.slots && s'.ticket == s.ticket && s'.supervisor == Pushing(i, rest)
    requires s'.stream == if ok then s.stream + [Push(i, e)] else s.stream
    ensures OrderInv(s')
  {
    assert LedgerIds([e] + rest) == [e.id] + LedgerIds(rest);
    forall j | 0 <= j < |s'.slots|
      ensures InOrder(Trail(s', j), s'.ticket)
    {
      assert InOrder(Trail(s, j), s.ticket);
      StreamOfAppend(s.stream, Push(i, e), j);
      if j == i {
        TrailAfterPush(StreamOf(s.stream, j), e.id, LedgerIds(rest), LedgerOf(s.slots[j]), s.ticket);
      } else {
        assert PushedOf(s', j) == PushedOf(s, j);
      }
    }
  }

  lemma PendingDistinct(s: System)
    requires OrderInv(s) && s.supervisor.Pushing? && s.supervisor.worker < |s.slots|
    ensures Distinct(PendingIds(s.supervisor))
  {
    var i := s.supervisor.worker;
    var trail := Trail(s, i);
    var head := StreamOf(s.stream, i);
    assert InOrder(trail, s.ticket);
    assert forall k :: 0 <= k < |PendingIds(s.supervisor)| ==> PendingIds(s.supervisor)[k] == trail[|head| + k];
  }

  lemma PushDoomed(s: System, s': System)
    requires s.supervisor.Pushing? && s'.supervisor.Pushing? && s'.supervisor.worker == s.supervisor.worker
    requires s'.slots == s.slots && s'.listedLate == s.listedLate
    requires DoomedInv(s) && TaintInv(s)
    ensures DoomedInv(s') && TaintInv(s')
  {
    forall j | 0 <= j < |s'.slots| && Doomed(s', j)
      ensures Doomed(s, j)
    {
    }
  }

  lemma PushReleased(s: System, s': System, id0: TaskId, place: Place)
    requires ReleasedInv(s) && Placed(s, id0, InRescue)
    requires s'.place == s.place[id0 := place] && s'.released == s.released && s'.lost == s.lost
    requires s'.takenAlive == s.takenAlive && s'.listedLate == s.listedLate && (place.InStream? || place.Dropped?)
    ensures ReleasedInv(s') && s'.place.Keys == s.place.Keys
  {
    forall id | id in s'.takenAlive
      ensures Handed(s', id)
    {
      assert Handed(s, id);
    }
    forall id | id in s'.released
      ensures Placed(s', id, Released) || id in s'.takenAlive
    {
      if id !in s.takenAlive {
        assert Placed(s, id, Released);
      }
    }
  }

  lemma PushFrame(s: System, s': System)
    requires SlotsInv(s) && MentionInv(s) && HandsInv(s) && TicketInv(s)
    requires s'.slots == s.slots && s'.owner == s.owner && s'.released == s.released && s'.started == s.started
    requires s'.acked == s.acked && s'.place.Keys == s.place.Keys && s'.ticket == s.ticket
    requires s'.takenAlive == s.takenAlive && TakenInv(s) && CoverInv(s)
    ensures SlotsInv(s') && MentionInv(s') && HandsInv(s') && TicketInv(s') && TakenInv(s') && CoverInv(s')
  {
    forall i | 0 <= i < |s'.slots| && s'.slots[i].process.Running?
      ensures PutKnown(s', s'.slots[i].process)
    {
      assert PutKnown(s, s.slots[i].process);
    }
  }

  lemma InvPush(t: Timeouts, s: System, ok: bool)
    requires Enabled(s, PushOne(ok)) && Inv(s)
    ensures Inv(Next(t, s, PushOne(ok)))
  {
    var s' := Next(t, s, PushOne(ok));
    var i := s.supervisor.worker;
    var e := s.supervisor.pending[0];
    var rest := s.supervisor.pending[1..];
    assert s.supervisor.pending == [e] + rest;
    PendingDistinct(s);
    PushLocated(s, s', i, e, rest, ok);
    PushPending(s, i, e, rest);
    PushPushes(s, s', i, e, rest, ok);
    PushLedgers(s, s', e.id, if ok then InStream else Dropped);
    PushOrder(s, s', i, e, rest, ok);
    PushDoomed(s, s');
    PushReleased(s, s', e.id, if ok then InStream else Dropped);
    PushFrame(s, s');
  }

  /** Every step of the system keeps the invariant. */
  lemma InvStep(t: Timeouts, s: System, step: Step)
    requires Enabled(s, step) && Inv(s)
    ensures Inv(Next(t, s, step))
  {
    match step
    case Work(i, w) => InvWork(t, s, i, w);
    case Check(i, now) => InvCheck(t, s, i, now);
    case Act(markedAt) => InvAct(s, markedAt);
    case PushOne(ok) => InvPush(t, s, ok);
    case Terminate =>
      var i := s.supervisor.worker;
      InvReplace(s, s.slots[i].(process := W.Dead, tainted := false), Respawning(i));
    case Respawn(ok) =>
      var i := s.supervisor.worker;
      InvReplace(s, if ok then s.slots[i].(process := W.Booting, tainted := false) else s.slots[i], Idle);
      assert s.slots[i := s.slots[i]] == s.slots;
  }

  lemma InvInit(workers: nat)
    ensures Inv(Init(workers))
  {
  }

  lemma {:induction false} InvExec(t: Timeouts, s: System, run: seq<Step>)
    requires Inv(s)
    ensures Exec(t, s, run).Some? ==> Inv(Exec(t, s, run).value)
    decreases |run|
  {
    if run != [] && Enabled(s, run[0]) {
      InvStep(t, s, run[0]);
      InvExec(t, Next(t, s, run[0]), run[1..]);
    }
  }
}
