/** What the rescue protocol guarantees about every run, from the invariant of RescueProtocol. */
module RescueGuarantees {
  import opened Common
  import opened SharedState
  import opened CheckDecision
  import opened RescueProtocol
  import W = WorkerProcess

  /** s is where some run of a system of `workers` workers ends. */
  ghost predicate Reached(t: Timeouts, workers: nat, run: seq<Step>, s: System) {
    Exec(t, Init(workers), run) == Some(s)
  }

  function Bit(b: bool): nat {
    if b then 1 else 0
  }

  /** How many hands hold the task. */
  function Holders(s: System, id: TaskId): nat {
    Bit(InSomeLedger(s, id)) + Bit(id in PendingIds(s.supervisor)) + Bit(id in PushIds(s.stream))
    + Bit(id in PushIds(s.dropped))
  }

  lemma ReachedInv(t: Timeouts, workers: nat, run: seq<Step>, s: System)
    requires Reached(t, workers, run, s)
    ensures Inv(s)
  {
    InvInit(workers);
    InvExec(t, Init(workers), run);
  }

  lemma LedgerPlace(s: System, id: TaskId)
    requires Inv(s)
    ensures InSomeLedger(s, id) <==> Placed(s, id, InLedger)
  {
    if InSomeLedger(s, id) {
      var i :| 0 <= i < |s.slots| && id in LedgerOf(s.slots[i]);
    }
    if Placed(s, id, InLedger) {
      assert Located(s, id);
      assert id in LedgerOf(s.slots[s.owner[id]]);
    }
  }

  lemma OnePlace(s: System, id: TaskId)
    requires Inv(s)
    ensures id in PendingIds(s.supervisor) <==> Placed(s, id, InRescue)
    ensures id in PushIds(s.stream) <==> Placed(s, id, InStream)
    ensures id in PushIds(s.dropped) <==> Placed(s, id, Dropped)
    ensures id in s.lost <==> Placed(s, id, Overwritten)
    ensures Placed(s, id, Released) ==> id in s.released
  {
    if id in s.place {
      assert Located(s, id);
    }
  }

  // ---------------- rescues of running processes ----------------

  /** The supervisor is about to take the task from the ledger of a process that is running. */
  predicate TakesAlive(s: System, step: Step, id: TaskId) {
    && step.Act? && s.supervisor.Acting? && s.supervisor.action == KillAndRespawn
    && s.supervisor.worker < |s.slots| && s.slots[s.supervisor.worker].process.Running?
    && id in LedgerOf(s.slots[s.supervisor.worker])
  }

  /** A put is about to write the task into a ledger whose rescue is under way. */
  predicate ListsLate(s: System, step: Step, id: TaskId) {
    && step.Work? && step.worker < |s.slots| && step.step.PutList?
    && s.slots[step.worker].process.Running? && s.slots[step.worker].process.cpu == W.PutEnqueued(id)
    && UnderRescue(s, step.worker)
  }

  /** At step n of the run the task was taken from a running process. */
  ghost predicate TakenAt(t: Timeouts, workers: nat, run: seq<Step>, n: nat, id: TaskId) {
    n < |run| && match Exec(t, Init(workers), run[..n])
                 case None => false
                 case Some(s) => TakesAlive(s, run[n], id)
  }

  /** At step n of the run the task was written into a ledger under rescue. */
  ghost predicate LateAt(t: Timeouts, workers: nat, run: seq<Step>, n: nat, id: TaskId) {
    n < |run| && match Exec(t, Init(workers), run[..n])
                 case None => false
                 case Some(s) => ListsLate(s, run[n], id)
  }

  lemma TakenStep(t: Timeouts, s: System, step: Step, id: TaskId)
    requires Enabled(s, step)
    ensures id in Next(t, s, step).takenAlive <==> id in s.takenAlive || TakesAlive(s, step, id)
  {
    if step.Work? {
      RecordKeeps(s, step.worker, EffectOf(s.slots[step.worker], step.step), LedgerOf(s.slots[step.worker]));
    }
  }

  lemma RecordKeeps(s: System, i: nat, effect: Effect, ledger: seq<TaskId>)
    ensures Recorded(s, i, effect, ledger).takenAlive == s.takenAlive
    ensures Recorded(s, i, effect, ledger).stream == s.stream
  {
  }

  lemma RecordLate(s: System, i: nat, effect: Effect, ledger: seq<TaskId>, id: TaskId)
    ensures id in Recorded(s, i, effect, ledger).listedLate <==>
            id in s.listedLate || (effect == Listed(id) && UnderRescue(s, i))
  {
  }

  lemma LateStep(t: Timeouts, s: System, step: Step, id: TaskId)
    requires Enabled(s, step)
    ensures id in Next(t, s, step).listedLate <==> id in s.listedLate || ListsLate(s, step, id)
  {
    if step.Work? {
      RecordLate(s, step.worker, EffectOf(s.slots[step.worker], step.step), LedgerOf(s.slots[step.worker]), id);
    } else if step.Act? {
      assert Acted(s, step.markedAt).listedLate == s.listedLate;
    }
  }

  lemma TakenAtFront(t: Timeouts, workers: nat, run: seq<Step>, before: System, n: nat, id: TaskId)
    requires run != [] && Exec(t, Init(workers), run[..|run| - 1]) == Some(before)
    ensures TakenAt(t, workers, run, n, id) <==>
            if n < |run| - 1 then TakenAt(t, workers, run[..|run| - 1], n, id)
            else n == |run| - 1 && TakesAlive(before, run[n], id)
  {
    if n < |run| - 1 {
      assert run[..|run| - 1][..n] == run[..n];
    }
  }

  lemma LateAtFront(t: Timeouts, workers: nat, run: seq<Step>, before: System, n: nat, id: TaskId)
    requires run != [] && Exec(t, Init(workers), run[..|run| - 1]) == Some(before)
    ensures LateAt(t, workers, run, n, id) <==>
            if n < |run| - 1 then LateAt(t, workers, run[..|run| - 1], n, id)
            else n == |run| - 1 && ListsLate(before, run[n], id)
  {
    if n < |run| - 1 {
      assert run[..|run| - 1][..n] == run[..n];
    }
  }

  /** The set of tasks taken alive is what the run says it is. */
  lemma {:induction false} TakenRun(t: Timeouts, workers: nat, run: seq<Step>, s: System, id: TaskId)
    requires Reached(t, workers, run, s)
    ensures id in s.takenAlive <==> exists n :: TakenAt(t, workers, run, n, id)
    decreases |run|
  {
    if run != [] {
      var front := run[..|run| - 1];
      var before := ExecLast(t, Init(workers), run);
      TakenRun(t, workers, front, before, id);
      TakenStep(t, before, run[|run| - 1], id);
      forall n: nat
        ensures TakenAt(t, workers, run, n, id) <==>
                if n < |front| then TakenAt(t, workers, front, n, id)
                else n == |front| && TakesAlive(before, run[|front|], id)
      {
        TakenAtFront(t, workers, run, before, n, id);
      }
      assert TakesAlive(before, run[|front|], id) ==> TakenAt(t, workers, run, |front|, id);
    }
  }

  lemma {:induction false} LateRun(t: Timeouts, workers: nat, run: seq<Step>, s: System, id: TaskId)
    requires Reached(t, workers, run, s)
    ensures id in s.listedLate <==> exists n :: LateAt(t, workers, run, n, id)
    decreases |run|
  {
    if run != [] {
      var front := run[..|run| - 1];
      var before := ExecLast(t, Init(workers), run);
      LateRun(t, workers, front, before, id);
      LateStep(t, before, run[|run| - 1], id);
      forall n: nat
        ensures LateAt(t, workers, run, n, id) <==>
                if n < |front| then LateAt(t, workers, front, n, id)
                else n == |front| && ListsLate(before, run[|front|], id)
      {
        LateAtFront(t, workers, run, before, n, id);
      }
      assert ListsLate(before, run[|front|], id) ==> LateAt(t, workers, run, |front|, id);
    }
  }

  // ---------------- conservation ----------------

  /** No acknowledged task is lost or doubled, but for two ways of killing a process that still runs: each is held by
      exactly one of a worker's ledger, the supervisor's rescue in progress, the stream and the failed pushes, or a
      consumer has released it. Only a task whose own entry was taken from a running process can also be released;
      only a task written into a ledger already rescued can be held by nobody. */
  lemma Conservation(t: Timeouts, workers: nat, run: seq<Step>, s: System, id: TaskId)
    requires Reached(t, workers, run, s) && id in s.acked
    ensures Holders(s, id) <= 1
    ensures !(exists n :: TakenAt(t, workers, run, n, id)) ==> Holders(s, id) + Bit(id in s.released) <= 1
    ensures !(exists n :: LateAt(t, workers, run, n, id)) ==> Holders(s, id) + Bit(id in s.released) >= 1
  {
    ReachedInv(t, workers, run, s);
    TakenRun(t, workers, run, s, id);
    LateRun(t, workers, run, s, id);
    LedgerPlace(s, id);
    OnePlace(s, id);
    assert id in s.place;
  }

  /** In nobody's hands: not listed, not being rescued, not pushed, not a recorded failure, not released. */
  predicate Gone(s: System, id: TaskId) {
    Holders(s, id) == 0 && id !in s.released
  }

  lemma GoneIsLost(s: System, id: TaskId)
    requires Inv(s) && id in s.place
    ensures Gone(s, id) <==> id in s.lost
  {
    LedgerPlace(s, id);
    OnePlace(s, id);
    assert id in s.takenAlive ==> Handed(s, id);
  }

  lemma LostStep(t: Timeouts, s: System, step: Step, id: TaskId)
    requires Enabled(s, step)
    ensures id in Next(t, s, step).lost <==>
            id in s.lost || (step.Work? && step.step.Boot? && id in LedgerOf(s.slots[step.worker]))
  {
    if step.Work? {
      BootedOnly(s.slots[step.worker], step.step);
      RecordedLost(s, step.worker, EffectOf(s.slots[step.worker], step.step), LedgerOf(s.slots[step.worker]), id);
    } else if step.Act? {
      assert Acted(s, step.markedAt).lost == s.lost;
    }
  }

  lemma RecordedLost(s: System, i: nat, effect: Effect, ledger: seq<TaskId>, id: TaskId)
    ensures id in Recorded(s, i, effect, ledger).lost <==> id in s.lost || (effect.Booted? && id in ledger)
  {
  }

  lemma BootedOnly(slot: W.Slot, w: W.Step)
    requires W.Enabled(slot, w)
    ensures EffectOf(slot, w).Booted? <==> w.Boot?
  {
  }

  lemma PlaceStays(t: Timeouts, s: System, step: Step, id: TaskId)
    requires Enabled(s, step) && id in s.place
    ensures id in Next(t, s, step).place
  {
    if step.Work? {
      var effect := EffectOf(s.slots[step.worker], step.step);
      assert id in Recorded(s, step.worker, effect, LedgerOf(s.slots[step.worker])).place;
    } else if step.Act? {
      assert id in Acted(s, step.markedAt).place;
    }
  }

  /** A task that someone holds slips out of everybody's hands at exactly one kind of step: a worker initialises its
      entry over a ledger that lists it. */
  lemma LostExactly(t: Timeouts, workers: nat, run: seq<Step>, s: System, step: Step, id: TaskId)
    requires Reached(t, workers, run, s) && Enabled(s, step) && Holders(s, id) > 0
    ensures Gone(Next(t, s, step), id) <==>
            step.Work? && step.step.Boot? && id in LedgerOf(s.slots[step.worker])
  {
    ReachedInv(t, workers, run, s);
    InvStep(t, s, step);
    LedgerPlace(s, id);
    OnePlace(s, id);
    PlaceStays(t, s, step, id);
    GoneIsLost(s, id);
    GoneIsLost(Next(t, s, step), id);
    LostStep(t, s, step, id);
  }

  // ---------------- started and pushed ----------------

  predicate Both(s: System, id: TaskId) {
    id in s.started && id in PushIds(s.stream)
  }

  /** A task is both started by its worker and in the stream only if a rescue took it, itself, from the ledger of its
      worker while that worker's process was running. */
  lemma NotBoth(t: Timeouts, workers: nat, run: seq<Step>, s: System, id: TaskId)
    requires Reached(t, workers, run, s) && Both(s, id)
    ensures exists n :: TakenAt(t, workers, run, n, id)
  {
    ReachedInv(t, workers, run, s);
    TakenRun(t, workers, run, s, id);
    OnePlace(s, id);
  }

  lemma BothStep(t: Timeouts, s: System, step: Step, id: TaskId)
    requires Enabled(s, step)
    ensures id in Next(t, s, step).started <==>
            id in s.started
            || (step.Work? && step.step.Start? && s.slots[step.worker].process.cpu.item.id == id)
    ensures id in PushIds(Next(t, s, step).stream) <==>
            id in PushIds(s.stream) || (step == PushOne(true) && s.supervisor.pending[0].id == id)
  {
    if step.Work? {
      var effect := EffectOf(s.slots[step.worker], step.step);
      RecordKeeps(s, step.worker, effect, LedgerOf(s.slots[step.worker]));
      assert effect.Begun? <==> step.step.Start?;
    } else if step.Act? {
      assert Acted(s, step.markedAt).stream == s.stream && Acted(s, step.markedAt).started == s.started;
    } else if step == PushOne(true) {
      PushIdsAppend(s.stream, Push(s.supervisor.worker, s.supervisor.pending[0]));
    }
  }

  /** The worker starts a task that is in the stream. */
  predicate StartsPushed(s: System, step: Step, id: TaskId)
    requires Enabled(s, step)
  {
    step.Work? && step.step.Start? && s.slots[step.worker].process.cpu.item.id == id && id in PushIds(s.stream)
  }

  /** The supervisor pushes a task that has been started. */
  predicate PushesStarted(s: System, step: Step, id: TaskId)
    requires Enabled(s, step)
  {
    step == PushOne(true) && s.supervisor.pending[0].id == id && id in s.started
  }

  /** Where both can come about: a task becomes started and pushed at exactly two kinds of step, and only while the
      rescue of its own worker is under way; if it is the worker's step, that rescue began with the process running. */
  lemma BecomesBoth(t: Timeouts, workers: nat, run: seq<Step>, s: System, step: Step, id: TaskId)
    requires Reached(t, workers, run, s) && Enabled(s, step) && !Both(s, id)
    ensures Both(Next(t, s, step), id) <==> StartsPushed(s, step, id) || PushesStarted(s, step, id)
    ensures Both(Next(t, s, step), id) ==> id in s.owner && UnderRescue(s, s.owner[id])
    ensures StartsPushed(s, step, id) ==> step.worker == s.owner[id] && s.slots[step.worker].tainted
  {
    ReachedInv(t, workers, run, s);
    BothStep(t, s, step, id);
    if StartsPushed(s, step, id) {
      StartsUnderRescue(s, step, id);
    }
    if PushesStarted(s, step, id) {
      PushesUnderRescue(s, step, id);
    }
  }

  lemma StartsUnderRescue(s: System, step: Step, id: TaskId)
    requires Inv(s) && Enabled(s, step) && StartsPushed(s, step, id)
    ensures OwnedBy(s, id, step.worker) && UnderRescue(s, step.worker) && s.slots[step.worker].tainted
  {
    OnePlace(s, id);
    assert W.Mentions(s.slots[step.worker], id);
    assert Consumes(s.slots[step.worker], id);
  }

  lemma PushesUnderRescue(s: System, step: Step, id: TaskId)
    requires PushesInv(s) && Enabled(s, step) && PushesStarted(s, step, id)
    ensures id in s.owner && UnderRescue(s, s.owner[id])
  {
    assert PendingIds(s.supervisor)[0] == id;
    assert id in PendingIds(s.supervisor);
  }

  lemma {:induction false} StreamOfOrdered(stream: seq<Push>, ticket: map<TaskId, nat>, w: nat, k: nat)
    requires InOrder(StreamOf(stream, w), ticket)
    requires k < |stream| && stream[k].worker == w
    ensures stream[k].entry.id in StreamOf(stream, w)
    ensures forall j :: 0 <= j < k && stream[j].worker == w ==>
              stream[j].entry.id in ticket && stream[k].entry.id in ticket
              && ticket[stream[j].entry.id] < ticket[stream[k].entry.id]
  {
    var front := stream[..|stream| - 1];
    var ids := StreamOf(stream, w);
    assert forall a :: 0 <= a < |StreamOf(front, w)| ==> StreamOf(front, w)[a] == ids[a];
    if k < |stream| - 1 {
      StreamOfOrdered(front, ticket, w, k);
      assert front[k] == stream[k];
      forall j | 0 <= j < k && stream[j].worker == w
        ensures stream[j].entry.id in ticket && ticket[stream[j].entry.id] < ticket[stream[k].entry.id]
      {
        assert front[j] == stream[j];
      }
    } else {
      assert ids[|ids| - 1] == stream[k].entry.id;
      forall j | 0 <= j < k && stream[j].worker == w
        ensures stream[j].entry.id in ticket && ticket[stream[j].entry.id] < ticket[stream[k].entry.id]
      {
        assert front[j] == stream[j];
        StreamOfOrdered(front, ticket, w, j);
        var a :| 0 <= a < |StreamOf(front, w)| && StreamOf(front, w)[a] == stream[j].entry.id;
        assert ids[a] == stream[j].entry.id;
      }
    }
  }

  lemma StreamOrder(s: System, j: nat, k: nat)
    requires Inv(s) && StreamKnown(s) && j < k < |s.stream| && s.stream[j].worker == s.stream[k].worker
    ensures s.stream[j].entry.id in s.ticket && s.stream[k].entry.id in s.ticket
    ensures s.ticket[s.stream[j].entry.id] < s.ticket[s.stream[k].entry.id]
  {
    var w := s.stream[k].worker;
    assert InOrder(Trail(s, w), s.ticket);
    assert forall a :: 0 <= a < |StreamOf(s.stream, w)| ==> StreamOf(s.stream, w)[a] == Trail(s, w)[a];
    StreamOfOrdered(s.stream, s.ticket, w, k);
  }

  lemma StreamOwners(s: System, j: nat, k: nat)
    requires PushesInv(s) && j < |s.stream| && k < |s.stream| && s.stream[j].entry.id == s.stream[k].entry.id
    ensures s.stream[j].worker == s.stream[k].worker
  {
    assert OwnedBy(s, s.stream[j].entry.id, s.stream[j].worker);
    assert OwnedBy(s, s.stream[k].entry.id, s.stream[k].worker);
  }

  /** In every run, live rescues included, no task is pushed twice, and the tasks pushed for one worker
      stand in the order in which that worker's ledger accepted them. */
  lemma PushedOnceInOrder(t: Timeouts, workers: nat, run: seq<Step>, s: System, j: nat, k: nat)
    requires Reached(t, workers, run, s) && j < k < |s.stream|
    ensures s.stream[j].entry.id != s.stream[k].entry.id
    ensures s.stream[j].worker == s.stream[k].worker ==>
              s.stream[j].entry.id in s.ticket && s.stream[k].entry.id in s.ticket
              && s.ticket[s.stream[j].entry.id] < s.ticket[s.stream[k].entry.id]
  {
    ReachedInv(t, workers, run, s);
    StreamWorkers(t, Init(workers), run);
    if s.stream[j].entry.id == s.stream[k].entry.id {
      StreamOwners(s, j, k);
    }
    if s.stream[j].worker == s.stream[k].worker {
      StreamOrder(s, j, k);
    }
  }

  ghost predicate StreamKnown(s: System) {
    forall k :: 0 <= k < |s.stream| ==> s.stream[k].worker < |s.slots|
  }

  lemma StreamKnownStep(t: Timeouts, s: System, step: Step)
    requires StreamKnown(s) && Enabled(s, step)
    ensures StreamKnown(Next(t, s, step))
  {
    if step.Work? {
      var effect := EffectOf(s.slots[step.worker], step.step);
      assert Recorded(s, step.worker, effect, LedgerOf(s.slots[step.worker])).stream == s.stream;
    } else if step.Act? {
      assert Acted(s, step.markedAt).stream == s.stream;
    }
  }

  lemma {:induction false} StreamWorkers(t: Timeouts, s: System, run: seq<Step>)
    requires StreamKnown(s)
    ensures Exec(t, s, run).Some? ==> StreamKnown(Exec(t, s, run).value)
    decreases |run|
  {
    if run != [] && Enabled(s, run[0]) {
      StreamKnownStep(t, s, run[0]);
      StreamWorkers(t, Next(t, s, run[0]), run[1..]);
    }
  }

  /** At every await point of a worker whose ledger no rescue has emptied, the ledger, the records with status
      "queued" and the admitted part of the asyncio queue list the same tasks in the same order. */
  lemma ThreeViewsAgree(t: Timeouts, workers: nat, run: seq<Step>, s: System, i: nat)
    requires Reached(t, workers, run, s)
    requires i < |s.slots| && W.AtAwaitPoint(s.slots[i]) && !s.slots[i].tainted
    ensures var e := s.slots[i].entry.value;
            && LedgerIds(e.ledger) == QueuedIds(e.queue) == W.Admitted(s.slots[i].process.queue)
            && Distinct(LedgerIds(e.ledger))
  {
    ReachedInv(t, workers, run, s);
    assert W.ViewInv(s.slots[i]);
    assert [] + W.Admitted(s.slots[i].process.queue) == W.Admitted(s.slots[i].process.queue);
  }

  /** While a worker is draining its ledger is a suffix of the ledger at the moment it was marked,
      followed by at most one entry, of a put that had already passed the guard. */
  lemma DrainingLedger(t: Timeouts, workers: nat, run: seq<Step>, s: System, i: nat)
    requires Reached(t, workers, run, s)
    requires i < |s.slots| && s.slots[i].entry.Some? && s.slots[i].entry.value.status == Draining
    ensures exists k | 0 <= k <= |s.slots[i].marked| ::
              var ledger := s.slots[i].entry.value.ledger;
              var rest := s.slots[i].marked[k..];
              ledger == rest || (|ledger| == |rest| + 1 && ledger[..|rest|] == rest && !W.MidPut(s.slots[i].process))
  {
    ReachedInv(t, workers, run, s);
    var slot := s.slots[i];
    assert W.DrainInv(slot);
    var k: nat :| W.SuffixFrom(slot.entry.value.ledger, slot.marked, !W.MidPut(slot.process), k);
    assert 0 <= k <= |slot.marked|;
  }

  // ---------------- a dead worker is always replaced ----------------

  predicate Delivered(s: System, id: TaskId) {
    id in PushIds(s.stream) || id in PushIds(s.dropped)
  }

  /** Worker i was found dead with this ledger, and is being replaced. */
  ghost predicate Replacing(s: System, i: nat, ids: seq<TaskId>) {
    && i < |s.slots| && s.slots[i].process.Dead?
    && match s.supervisor
       case Idle => false
       case Acting(j, action) => j == i && action == KillAndRespawn && LedgerOf(s.slots[i]) == ids
       case Pushing(j, _) =>
         j == i && LedgerOf(s.slots[i]) == []
         && forall id :: id in ids ==> id in PendingIds(s.supervisor) || Delivered(s, id)
       case Respawning(j) => j == i && LedgerOf(s.slots[i]) == [] && forall id :: id in ids ==> Delivered(s, id)
  }

  /** The replacement is over: the ledger is empty, every task it listed was pushed or is a recorded failure, and a new
      process boots if the spawn succeeded. */
  ghost predicate Replaced(s: System, i: nat, ids: seq<TaskId>, spawned: bool) {
    && i < |s.slots| && s.supervisor.Idle?
    && s.slots[i].process == (if spawned then W.Booting else W.Dead)
    && LedgerOf(s.slots[i]) == []
    && forall id :: id in ids ==> Delivered(s, id)
  }

  lemma ReplacingWork(t: Timeouts, s: System, step: Step, i: nat, ids: seq<TaskId>)
    requires Replacing(s, i, ids) && Enabled(s, step) && step.Work?
    ensures Replacing(Next(t, s, step), i, ids)
  {
    assert step.worker != i;
    WorkRecord(s, step.worker, EffectOf(s.slots[step.worker], step.step), LedgerOf(s.slots[step.worker]));
  }

  lemma WorkRecord(s: System, i: nat, effect: Effect, ledger: seq<TaskId>)
    ensures var r := Recorded(s, i, effect, ledger);
            r.supervisor == s.supervisor && r.stream == s.stream && r.dropped == s.dropped
  {
  }

  lemma ReplacingPush(t: Timeouts, s: System, step: Step, i: nat, ids: seq<TaskId>)
    requires Replacing(s, i, ids) && Enabled(s, step) && step.PushOne?
    ensures Replacing(Next(t, s, step), i, ids)
  {
    var e := s.supervisor.pending[0];
    PushIdsAppend(s.stream, Push(i, e));
    PushIdsAppend(s.dropped, Push(i, e));
    LedgerIdsHead(s.supervisor.pending);
  }

  lemma ReplacingAct(t: Timeouts, s: System, step: Step, i: nat, ids: seq<TaskId>)
    requires Replacing(s, i, ids) && Enabled(s, step) && step.Act?
    ensures Replacing(Next(t, s, step), i, ids)
  {
  }

  lemma ReplacingStep(t: Timeouts, s: System, step: Step, i: nat, ids: seq<TaskId>)
    requires Replacing(s, i, ids) && Enabled(s, step)
    ensures if step.Respawn? then Replaced(Next(t, s, step), i, ids, step.ok) else Replacing(Next(t, s, step), i, ids)
  {
    match step
    case Work(_, _) => ReplacingWork(t, s, step, i, ids);
    case PushOne(_) => ReplacingPush(t, s, step, i, ids);
    case Act(_) => ReplacingAct(t, s, step, i, ids);
    case _ =>
  }

  lemma {:induction false} ReplacingRun(t: Timeouts, s: System, run: seq<Step>, end: System, i: nat, ids: seq<TaskId>)
    returns (n: nat, after: System)
    requires Replacing(s, i, ids) && Exec(t, s, run) == Some(end) && end.supervisor.Idle?
    ensures n < |run| && run[n].Respawn? && Exec(t, s, run[..n + 1]) == Some(after)
    ensures Replaced(after, i, ids, run[n].ok)
    decreases |run|
  {
    ReplacingStep(t, s, run[0], i, ids);
    var next := Next(t, s, run[0]);
    if run[0].Respawn? {
      n, after := 0, next;
      assert run[..1] == [run[0]];
      assert Exec(t, s, [run[0]]) == Exec(t, next, [run[0]][1..]);
    } else {
      n, after := ReplacingRun(t, next, run[1..], end, i, ids);
      n := n + 1;
      assert run[..n + 1][1..] == run[1..][..n];
    }
  }

  /** A check that finds a process dead replaces it, whatever its entry says and whatever else happens meanwhile: in
      every run on which the supervisor comes to rest again, the check has ended with an empty ledger, every task of it
      pushed or recorded as a failed push, and a new process booting if the spawn succeeded. */
  lemma DeadIsReplaced(t: Timeouts, s: System, i: nat, now: real, run: seq<Step>, end: System)
    returns (n: nat, after: System)
    requires s.supervisor.Idle? && i < |s.slots| && s.slots[i].process.Dead?
    requires Exec(t, s, [Check(i, now)] + run) == Some(end) && end.supervisor.Idle?
    ensures n < |run| && run[n].Respawn? && Exec(t, s, [Check(i, now)] + run[..n + 1]) == Some(after)
    ensures Replaced(after, i, LedgerOf(s.slots[i]), run[n].ok)
  {
    assert ([Check(i, now)] + run)[1..] == run;
    n, after := ReplacingRun(t, Next(t, s, Check(i, now)), run, end, i, LedgerOf(s.slots[i]));
    assert ([Check(i, now)] + run[..n + 1])[1..] == run[..n + 1];
  }

  // ---------------- what killing a running process can do ----------------

  const STALE := Timeouts(30.0, 300.0)

  /** One more step of a run. */
  lemma Extend(t: Timeouts, workers: nat, run: seq<Step>, s: System, step: Step) returns (run': seq<Step>, s': System)
    requires Reached(t, workers, run, s) && Enabled(s, step)
    ensures Reached(t, workers, run', s') && s' == Next(t, s, step)
  {
    ExecOne(t, Init(workers), run, s, step);
    run', s' := run + [step], Next(t, s, step);
  }

  /** A run of one worker, whose only heartbeat was at time 1, has come this far. */
  ghost predicate At(
    run: seq<Step>, s: System, cpu: W.Cpu, queue: seq<W.Item>, since: Option<real>, ledger: seq<TaskId>)
  {
    && Reached(STALE, 1, run, s)
    && |s.slots| == 1 && s.slots[0].process.Running? && s.slots[0].entry.Some?
    && s.slots[0].process.cpu == cpu
    && s.slots[0].process.queue == queue
    && LedgerOf(s.slots[0]) == ledger
    && var e := s.slots[0].entry.value;
       e.heartbeat == 1.0 && e.drainingSince == since && e.status == if since.Some? then Draining else Healthy
  }

  /** Nobody has been told, given, or robbed of anything yet. */
  ghost predicate Calm(s: System) {
    s.started == {} && s.lost == {} && s.stream == []
  }

  lemma BeatRun() returns (run: seq<Step>, s: System)
    ensures At(run, s, W.AtAwait, [], None, []) && Calm(s) && s.supervisor == Idle && s.acked == {} && s.owner == map[]
  {
    run, s := [], Init(1);
    run, s := Extend(STALE, 1, run, s, Work(0, W.Boot(1)));
    run, s := Extend(STALE, 1, run, s, Work(0, W.Beat(1.0)));
  }

  lemma BootRun(id: TaskId) returns (run: seq<Step>, s: System)
    ensures At(run, s, W.PutChecked(id), [], None, []) && Calm(s) && s.supervisor == Idle && s.acked == {}
  {
    run, s := BeatRun();
    run, s := Extend(STALE, 1, run, s, Work(0, W.PutCheck(id)));
  }

  lemma ListRun(id: TaskId, since: Option<real>, run0: seq<Step>, s0: System) returns (run: seq<Step>, s: System)
    requires At(run0, s0, W.PutChecked(id), [], since, []) && Calm(s0)
    ensures At(run, s, W.PutListed(id), [W.Item(id, false)], since, [id])
    ensures Calm(s) && s.supervisor == s0.supervisor && s.acked == s0.acked
  {
    run, s := Extend(STALE, 1, run0, s0, Work(0, W.PutEnqueue));
    run, s := Extend(STALE, 1, run, s, Work(0, W.PutList("payload", 1.0)));
  }

  lemma ReplyRun(id: TaskId, since: Option<real>, run0: seq<Step>, s0: System) returns (run: seq<Step>, s: System)
    requires At(run0, s0, W.PutListed(id), [W.Item(id, false)], since, [id]) && Calm(s0)
    ensures At(run, s, W.AtAwait, [W.Item(id, false)], since, [id])
    ensures Calm(s) && s.supervisor == s0.supervisor && id in s.acked
  {
    run, s := Extend(STALE, 1, run0, s0, Work(0, W.PutRecord("f", 1.0)));
    run, s := Extend(STALE, 1, run, s, Work(0, W.Reply(id)));
  }

  /** The supervisor finds the heartbeat stale at 100, marks the worker, and rescues it alive at 500. */
  lemma RescueRun(cpu: W.Cpu, queue: seq<W.Item>, ledger: seq<TaskId>, run0: seq<Step>, s0: System)
    returns (run: seq<Step>, s: System)
    requires At(run0, s0, cpu, queue, None, ledger) && Calm(s0) && s0.supervisor == Idle
    ensures At(run, s, cpu, queue, Some(100.0), [])
    ensures Calm(s) && s.acked == s0.acked
    ensures s.supervisor.Pushing? && s.supervisor.worker == 0 && LedgerIds(s.supervisor.pending) == ledger
  {
    run, s := Extend(STALE, 1, run0, s0, Check(0, 100.0));
    run, s := Extend(STALE, 1, run, s, Act(100.0));
    run, s := Extend(STALE, 1, run, s, Check(0, 500.0));
    run, s := Extend(STALE, 1, run, s, Act(500.0));
  }

  lemma PushRun(id: TaskId, run0: seq<Step>, s0: System) returns (run: seq<Step>, s: System)
    requires At(run0, s0, W.AtAwait, [W.Item(id, false)], Some(100.0), [])
    requires s0.supervisor.Pushing? && s0.supervisor.worker == 0 && LedgerIds(s0.supervisor.pending) == [id]
    ensures At(run, s, W.Got(W.Item(id, false)), [], Some(100.0), [])
    ensures id in PushIds(s.stream) && s.acked == s0.acked
  {
    assert s0.supervisor.pending[0].id == LedgerIds(s0.supervisor.pending)[0] == id;
    run, s := Extend(STALE, 1, run0, s0, PushOne(true));
    assert PushIds(s.stream)[|s0.stream|] == id;
    run, s := Extend(STALE, 1, run, s, Work(0, W.Get));
  }

  lemma UnlistRun(id: TaskId, run0: seq<Step>, s0: System) returns (run: seq<Step>, s: System)
    requires At(run0, s0, W.Got(W.Item(id, false)), [], Some(100.0), [])
    ensures At(run, s, W.Unlisted(W.Item(id, false)), [], Some(100.0), [])
    ensures s.stream == s0.stream && s.acked == s0.acked
  {
    run, s := Extend(STALE, 1, run0, s0, Work(0, W.Unlist));
  }

  lemma MarkRun(id: TaskId, run0: seq<Step>, s0: System) returns (run: seq<Step>, s: System)
    requires At(run0, s0, W.Unlisted(W.Item(id, false)), [], Some(100.0), [])
    ensures At(run, s, W.Marked(W.Item(id, false)), [], Some(100.0), [])
    ensures s.stream == s0.stream && s.acked == s0.acked
  {
    run, s := Extend(STALE, 1, run0, s0, Work(0, W.MarkExecuting(501.0)));
  }

  lemma StartRun(id: TaskId, run0: seq<Step>, s0: System) returns (run: seq<Step>, s: System)
    requires At(run0, s0, W.Marked(W.Item(id, false)), [], Some(100.0), [])
    ensures Reached(STALE, 1, run, s) && id in s.started && s.stream == s0.stream && s.acked == s0.acked
  {
    run, s := Extend(STALE, 1, run0, s0, Work(0, W.Start));
  }

  /** A worker whose heartbeat froze is rescued while alive: it still starts the task it was rescued of. */
  lemma LiveRescueDoubles(id: TaskId) returns (run: seq<Step>, s: System)
    ensures Reached(STALE, 1, run, s) && id in s.acked && id in s.started && id in PushIds(s.stream)
  {
    run, s := BootRun(id);
    run, s := ListRun(id, None, run, s);
    run, s := ReplyRun(id, None, run, s);
    run, s := RescueRun(W.AtAwait, [W.Item(id, false)], [id], run, s);
    run, s := PushRun(id, run, s);
    run, s := UnlistRun(id, run, s);
    run, s := MarkRun(id, run, s);
    run, s := StartRun(id, run, s);
  }

  lemma RespawnRun(id: TaskId, run0: seq<Step>, s0: System) returns (run: seq<Step>, s: System)
    requires At(run0, s0, W.AtAwait, [W.Item(id, false)], Some(100.0), [id]) && Calm(s0)
    requires s0.supervisor == Pushing(0, []) && id in s0.acked
    ensures Reached(STALE, 1, run, s) && id in s.acked && id !in s.started && |s.slots| == 1
    ensures s.slots[0].process.Booting? && id in LedgerOf(s.slots[0])
  {
    run, s := Extend(STALE, 1, run0, s0, Terminate);
    run, s := Extend(STALE, 1, run, s, Respawn(true));
    assert LedgerOf(s.slots[0])[0] == id;
  }

  lemma ReplaceRun(id: TaskId, run0: seq<Step>, s0: System) returns (run: seq<Step>, s: System)
    requires At(run0, s0, W.AtAwait, [W.Item(id, false)], Some(100.0), [id]) && Calm(s0)
    requires s0.supervisor == Pushing(0, []) && id in s0.acked
    ensures Reached(STALE, 1, run, s) && id in s.acked && id in s.lost && id !in s.started && id in s.place
  {
    run, s := RespawnRun(id, run0, s0);
    run, s := Extend(STALE, 1, run, s, Work(0, W.Boot(2)));
  }

  /** A put that passed the draining guard before the mark finishes after the rescue: its task is acknowledged,
      and the replacement process destroys the ledger entry that held it. */
  lemma LiveRescueLoses(id: TaskId) returns (run: seq<Step>, s: System)
    ensures Reached(STALE, 1, run, s) && id in s.acked && id !in s.started && Gone(s, id)
  {
    run, s := BootRun(id);
    run, s := RescueRun(W.PutChecked(id), [], [], run, s);
    assert s.supervisor == Pushing(0, []);
    run, s := ListRun(id, Some(100.0), run, s);
    run, s := ReplyRun(id, Some(100.0), run, s);
    run, s := ReplaceRun(id, run, s);
    ReachedInv(STALE, 1, run, s);
    GoneIsLost(s, id);
  }
}
