/** What a rescue, or a late write to the ledger, can still lead to: the exact conditions under which a task can end up
    both started and pushed, or in nobody's hands. */
module RescueFutures {
  import opened Common
  import opened SharedState
  import opened CheckDecision
  import opened RescueProtocol
  import opened RescueGuarantees
  import W = WorkerProcess

  /** How many handlers of a worker have a task in hand: taken from the queue, running, or past its retry's put. */
  function Busy(slot: W.Slot): nat {
    if !slot.process.Running? then 0
    else
      |slot.process.running| + |slot.process.finishing|
      + if InHand(slot.process.cpu) then 1 else 0
  }

  predicate InHand(cpu: W.Cpu) {
    cpu.Got? || cpu.Unlisted? || cpu.Marked?
  }

  /** A run in which worker i never has more than so many of its handlers busy. */
  ghost predicate Within(t: Timeouts, s: System, run: seq<Step>, i: nat, handlers: nat)
    decreases |run|
  {
    && i < |s.slots| && Busy(s.slots[i]) <= handlers
    && (run == [] || (Enabled(s, run[0]) && Within(t, Next(t, s, run[0]), run[1..], i, handlers)))
  }

  /** Some run from s, with so many handlers on worker i, leads to a state where the task is both started and in the
      stream. */
  ghost predicate CanBecomeBoth(t: Timeouts, s: System, id: TaskId, i: nat, handlers: nat) {
    exists run, end :: Within(t, s, run, i, handlers) && Exec(t, s, run) == Some(end) && Both(end, id)
  }

  /** Some run from s leads to a state where the client has been told of the task and nobody has it. */
  ghost predicate CanBeLost(t: Timeouts, s: System, id: TaskId) {
    exists run, end :: Exec(t, s, run) == Some(end) && id in end.acked && Gone(end, id)
  }

  // ---------------- what stays true ----------------

  lemma HandedRecorded(s: System, i: nat, effect: Effect, ledger: seq<TaskId>, id: TaskId)
    requires Handed(s, id) && id !in ledger && (effect.Listed? ==> effect.id !in s.place)
    ensures Handed(Recorded(s, i, effect, ledger), id)
  {
  }

  lemma HandedWork(t: Timeouts, s: System, i: nat, w: W.Step, id: TaskId)
    requires Inv(s) && Enabled(s, Work(i, w)) && Handed(s, id)
    ensures Handed(Next(t, s, Work(i, w)), id)
  {
    AllowedStep(s, i, w);
    assert id in LedgerOf(s.slots[i]) ==> Placed(s, id, InLedger);
    HandedRecorded(s, i, EffectOf(s.slots[i], w), LedgerOf(s.slots[i]), id);
  }

  lemma HandedAct(s: System, markedAt: real, id: TaskId)
    requires LedgersInv(s) && Enabled(s, Act(markedAt)) && Handed(s, id)
    ensures Handed(Acted(s, markedAt), id)
  {
    assert id in LedgerOf(s.slots[s.supervisor.worker]) ==> Placed(s, id, InLedger);
  }

  lemma HandedPush(t: Timeouts, s: System, step: Step, id: TaskId)
    requires Enabled(s, step) && step.PushOne? && Handed(s, id)
    ensures Handed(Next(t, s, step), id)
  {
  }

  lemma HandedNotTaken(s: System, step: Step, id: TaskId)
    requires LedgersInv(s) && Handed(s, id)
    ensures !TakesAlive(s, step, id)
  {
  }

  lemma HandedStep(t: Timeouts, s: System, step: Step, id: TaskId)
    requires Inv(s) && Enabled(s, step) && Handed(s, id) && id !in s.takenAlive
    ensures Handed(Next(t, s, step), id) && id !in Next(t, s, step).takenAlive
  {
    TakenStep(t, s, step, id);
    HandedNotTaken(s, step, id);
    match step
    case Work(i, w) => HandedWork(t, s, i, w, id);
    case Act(markedAt) => HandedAct(s, markedAt, id);
    case PushOne(_) => HandedPush(t, s, step, id);
    case Check(_, _) =>
    case Terminate =>
    case Respawn(_) =>
  }

  /** A task that a rescue took from a dead process never runs in it again. */
  lemma {:induction false} NeverBoth(t: Timeouts, s: System, run: seq<Step>, id: TaskId)
    requires Inv(s) && Handed(s, id) && id !in s.takenAlive
    ensures Exec(t, s, run).Some? ==> !Both(Exec(t, s, run).value, id)
    decreases |run|
  {
    if run == [] {
      assert id in s.released ==> Placed(s, id, Released);
    } else if Enabled(s, run[0]) {
      HandedStep(t, s, run[0], id);
      InvStep(t, s, run[0]);
      NeverBoth(t, Next(t, s, run[0]), run[1..], id);
    }
  }

  lemma OwnerStep(t: Timeouts, s: System, step: Step, id: TaskId)
    requires Enabled(s, step) && id in s.owner
    ensures OwnedBy(Next(t, s, step), id, s.owner[id])
  {
    if step.Work? {
      OwnerStays(s, step.worker, EffectOf(s.slots[step.worker], step.step), LedgerOf(s.slots[step.worker]), id);
    } else if step.Act? {
      assert Acted(s, step.markedAt).owner == s.owner;
    }
  }

  /** A task is only ever started by its own worker, with a handler that holds it. */
  lemma StartedByOwner(t: Timeouts, s: System, step: Step, id: TaskId, i: nat)
    requires MentionInv(s) && Enabled(s, step) && OwnedBy(s, id, i)
    ensures id in Next(t, s, step).started && id !in s.started ==> i < |s.slots| && Busy(s.slots[i]) > 0
  {
    BothStep(t, s, step, id);
    if step.Work? && step.step.Start? {
      assert W.Mentions(s.slots[step.worker], s.slots[step.worker].process.cpu.item.id);
    }
  }

  lemma OwnerStays(s: System, i: nat, effect: Effect, ledger: seq<TaskId>, id: TaskId)
    requires id in s.owner && (effect.Offered? ==> effect.id !in s.owner)
    ensures id in Recorded(s, i, effect, ledger).owner && Recorded(s, i, effect, ledger).owner[id] == s.owner[id]
  {
  }

  /** Without a handler nothing is started. */
  lemma {:induction false} NeverStarted(t: Timeouts, s: System, run: seq<Step>, id: TaskId, i: nat)
    requires Inv(s) && OwnedBy(s, id, i) && id !in s.started && Within(t, s, run, i, 0)
    ensures Exec(t, s, run).Some? ==> id !in Exec(t, s, run).value.started
    decreases |run|
  {
    if run != [] {
      StartedByOwner(t, s, run[0], id, i);
      OwnerStep(t, s, run[0], id);
      InvStep(t, s, run[0]);
      NeverStarted(t, Next(t, s, run[0]), run[1..], id, i);
    }
  }

  /** A task that was listed in time is never lost. */
  lemma {:induction false} NeverLost(t: Timeouts, s: System, run: seq<Step>, id: TaskId)
    requires Inv(s) && id in s.place && id !in s.listedLate
    ensures Exec(t, s, run).Some? ==> !Gone(Exec(t, s, run).value, id)
    decreases |run|
  {
    if run == [] {
      GoneIsLost(s, id);
    } else if Enabled(s, run[0]) {
      PlaceStays(t, s, run[0], id);
      LateStep(t, s, run[0], id);
      assert !ListsLate(s, run[0], id) by {
        if run[0].Work? {
          AllowedStep(s, run[0].worker, run[0].step);
        }
      }
      InvStep(t, s, run[0]);
      NeverLost(t, Next(t, s, run[0]), run[1..], id);
    }
  }

  // ---------------- building runs ----------------

  /** The run leads from s0 to s within the handlers of worker i. */
  ghost predicate Leads(t: Timeouts, s0: System, run: seq<Step>, s: System, i: nat, handlers: nat) {
    Within(t, s0, run, i, handlers) && Exec(t, s0, run) == Some(s) && i < |s.slots| && Busy(s.slots[i]) <= handlers
  }

  lemma {:induction false} WithinOne(
    t: Timeouts, s0: System, run: seq<Step>, s: System, step: Step, i: nat, handlers: nat)
    requires Leads(t, s0, run, s, i, handlers) && Enabled(s, step)
    requires i < |Next(t, s, step).slots| && Busy(Next(t, s, step).slots[i]) <= handlers
    ensures Within(t, s0, run + [step], i, handlers)
    decreases |run|
  {
    if run == [] {
      assert [step][1..] == [];
      assert run + [step] == [step];
    } else {
      assert (run + [step])[1..] == run[1..] + [step];
      WithinOne(t, Next(t, s0, run[0]), run[1..], s, step, i, handlers);
    }
  }

  /** The run goes on with one step. */
  lemma GoOn(t: Timeouts, s0: System, run0: seq<Step>, s: System, step: Step, i: nat, handlers: nat)
    returns (run: seq<Step>, s': System)
    requires Leads(t, s0, run0, s, i, handlers) && Enabled(s, step)
    requires i < |Next(t, s, step).slots| && Busy(Next(t, s, step).slots[i]) <= handlers
    ensures Leads(t, s0, run, s', i, handlers) && s' == Next(t, s, step)
  {
    ExecOne(t, s0, run0, s, step);
    WithinOne(t, s0, run0, s, step, i, handlers);
    run, s' := run0 + [step], Next(t, s, step);
  }

  /** Worker i has gone on from s to s', with nobody else moving; what was started stays so. */
  ghost predicate Onward(s: System, s': System, i: nat) {
    && |s'.slots| == |s.slots| && i < |s.slots|
    && s'.stream == s.stream && s'.supervisor == s.supervisor
    && s.started <= s'.started && s.acked <= s'.acked
  }

  /** The run goes on with a step of worker i. */
  lemma WorkOn(t: Timeouts, s0: System, run0: seq<Step>, s: System, i: nat, handlers: nat, w: W.Step)
    returns (run: seq<Step>, s': System)
    requires Leads(t, s0, run0, s, i, handlers) && !w.PutCheck? && W.Enabled(s.slots[i], w)
    requires Busy(W.Next(s.slots[i], w)) <= handlers
    ensures Leads(t, s0, run, s', i, handlers) && s' == Next(t, s, Work(i, w))
    ensures Onward(s, s', i) && s'.slots[i] == W.Next(s.slots[i], w)
    ensures w.Start? ==> s.slots[i].process.cpu.item.id in s'.started
    ensures w.Reply? ==> w.id in s'.acked
  {
    run, s' := GoOn(t, s0, run0, s, Work(i, w), i, handlers);
    WorkFrame(s, i, EffectOf(s.slots[i], w), LedgerOf(s.slots[i]));
  }

  lemma WorkFrame(s: System, i: nat, effect: Effect, ledger: seq<TaskId>)
    ensures var r := Recorded(s, i, effect, ledger);
            r.stream == s.stream && r.supervisor == s.supervisor && s.started <= r.started && s.acked <= r.acked
  {
  }

  lemma LessOne(m: multiset<TaskId>, id: TaskId)
    requires id in m
    ensures |m - multiset{id}| == |m| - 1 && |m| > 0
  {
    assert m == (m - multiset{id}) + multiset{id};
  }

  /** A handler with its item out of the queue starts it. */
  lemma {:induction false} StartItem(t: Timeouts, s0: System, run0: seq<Step>, s: System, i: nat, handlers: nat)
    returns (run: seq<Step>, s': System)
    requires Leads(t, s0, run0, s, i, handlers) && W.Inside(s.slots[i]) && InHand(s.slots[i].process.cpu)
    ensures Leads(t, s0, run, s', i, handlers) && Onward(s, s', i) && W.AtAwaitPoint(s'.slots[i])
    ensures s'.slots[i].process.queue == s.slots[i].process.queue
    ensures s.slots[i].process.cpu.item.id in s'.started
    decreases if s.slots[i].process.cpu.Got? then 2 else if s.slots[i].process.cpu.Unlisted? then 1 else 0
  {
    if s.slots[i].process.cpu.Marked? {
      run, s' := WorkOn(t, s0, run0, s, i, handlers, W.Start);
    } else {
      var w := if s.slots[i].process.cpu.Got? then W.Unlist else W.MarkExecuting(0.0);
      run, s' := WorkOn(t, s0, run0, s, i, handlers, w);
      run, s' := StartItem(t, s0, run, s', i, handlers);
    }
  }

  /** A put past its guard goes through. */
  lemma {:induction false} FinishPut(t: Timeouts, s0: System, run0: seq<Step>, s: System, i: nat, handlers: nat)
    returns (run: seq<Step>, s': System)
    requires Leads(t, s0, run0, s, i, handlers) && W.Inside(s.slots[i])
    requires var cpu := s.slots[i].process.cpu; cpu.PutChecked? || cpu.PutEnqueued? || cpu.PutListed?
    ensures Leads(t, s0, run, s', i, handlers) && Onward(s, s', i) && W.AtAwaitPoint(s'.slots[i])
    ensures forall id :: id in W.Admitted(s.slots[i].process.queue) ==> id in W.Admitted(s'.slots[i].process.queue)
    decreases if s.slots[i].process.cpu.PutChecked? then 2 else if s.slots[i].process.cpu.PutEnqueued? then 1 else 0
  {
    var p := s.slots[i].process;
    if p.cpu.PutListed? {
      run, s' := WorkOn(t, s0, run0, s, i, handlers, W.PutRecord("", 0.0));
    } else {
      if p.cpu.PutChecked? {
        W.AdmittedAppend(p.queue, [W.Item(p.cpu.id, false)]);
      }
      var w := if p.cpu.PutChecked? then W.PutEnqueue else W.PutList("", 0.0);
      run, s' := WorkOn(t, s0, run0, s, i, handlers, w);
      run, s' := FinishPut(t, s0, run, s', i, handlers);
    }
  }

  /** Whatever section the worker is in, it can leave it; the waiting tasks then stand in its queue, or have started. */
  lemma LeaveSection(t: Timeouts, s0: System, run0: seq<Step>, s: System, i: nat, handlers: nat)
    returns (run: seq<Step>, s': System)
    requires Leads(t, s0, run0, s, i, handlers) && W.Inside(s.slots[i])
    ensures Leads(t, s0, run, s', i, handlers) && Onward(s, s', i) && W.AtAwaitPoint(s'.slots[i])
    ensures forall id :: id in W.Waiting(s.slots[i].process) ==>
                           id in s'.started || id in W.Admitted(s'.slots[i].process.queue)
  {
    if s.slots[i].process.cpu.AtAwait? {
      run, s' := run0, s;
    } else if InHand(s.slots[i].process.cpu) {
      run, s' := StartItem(t, s0, run0, s, i, handlers);
    } else {
      run, s' := FinishPut(t, s0, run0, s, i, handlers);
    }
  }

  /** If all handlers are busy, one of them can end its execution. */
  lemma FreeHandler(t: Timeouts, s0: System, run0: seq<Step>, s: System, i: nat, handlers: nat)
    returns (run: seq<Step>, s': System)
    requires Leads(t, s0, run0, s, i, handlers) && handlers > 0 && W.AtAwaitPoint(s.slots[i])
    ensures Leads(t, s0, run, s', i, handlers) && Onward(s, s', i) && W.AtAwaitPoint(s'.slots[i])
    ensures s'.slots[i].process.queue == s.slots[i].process.queue && Busy(s'.slots[i]) < handlers
  {
    var p := s.slots[i].process;
    run, s' := run0, s;
    if id: TaskId :| id in p.running {
      LessOne(p.running, id);
      run, s' := WorkOn(t, s0, run, s', i, handlers, W.Finish(id, false, "", 0.0));
    } else if id: TaskId :| id in p.finishing {
      LessOne(p.finishing, id);
      run, s' := WorkOn(t, s0, run, s', i, handlers, W.Finish(id, true, "", 0.0));
    } else {
      assert p.running == multiset{} && p.finishing == multiset{};
    }
  }

  /** A worker with a handler can start any admitted task of its queue, after those before it. */
  lemma {:induction false} StartAdmitted(
    t: Timeouts, s0: System, run0: seq<Step>, s: System, i: nat, handlers: nat, id: TaskId)
    returns (run: seq<Step>, s': System)
    requires Leads(t, s0, run0, s, i, handlers) && handlers > 0 && W.AtAwaitPoint(s.slots[i])
    requires id in W.Admitted(s.slots[i].process.queue)
    ensures Leads(t, s0, run, s', i, handlers) && Onward(s, s', i) && id in s'.started
    decreases |s.slots[i].process.queue|
  {
    var queue := s.slots[i].process.queue;
    run, s' := FreeHandler(t, s0, run0, s, i, handlers);
    run, s' := WorkOn(t, s0, run, s', i, handlers, W.Get);
    var got := s';
    run, s' := StartItem(t, s0, run, s', i, handlers);
    if id !in s'.started {
      assert s'.slots[i].process.queue == got.slots[i].process.queue == queue[1..];
      run, s' := StartAdmitted(t, s0, run, s', i, handlers, id);
    }
  }

  /** Redis can accept everything that is left to push. */
  lemma {:induction false} PushAll(t: Timeouts, s0: System, run0: seq<Step>, s: System, i: nat, handlers: nat)
    returns (run: seq<Step>, s': System)
    requires Leads(t, s0, run0, s, i, handlers) && s.supervisor.Pushing? && s.supervisor.worker < |s.slots|
    ensures Leads(t, s0, run, s', i, handlers) && s'.supervisor == Pushing(s.supervisor.worker, [])
    ensures s'.slots == s.slots && s'.acked == s.acked
    ensures forall id :: id in PushIds(s.stream) || id in PendingIds(s.supervisor) ==> id in PushIds(s'.stream)
    decreases |s.supervisor.pending|
  {
    run, s' := run0, s;
    if s.supervisor.pending != [] {
      var next: System;
      run, next := GoOn(t, s0, run, s, PushOne(true), i, handlers);
      PushIdsAppend(s.stream, Push(s.supervisor.worker, s.supervisor.pending[0]));
      LedgerIdsHead(s.supervisor.pending);
      run, s' := PushAll(t, s0, run, next, i, handlers);
      forall id | id in PushIds(s.stream) || id in PendingIds(s.supervisor)
        ensures id in PushIds(s'.stream)
      {
        assert id in PushIds(next.stream) || id in PendingIds(next.supervisor);
      }
    }
  }

  // ---------------- the exact conditions ----------------

  /** What a rescue leaves: the ledger in the supervisor's hands, the process as it was. */
  lemma ActTakes(t: Timeouts, s: System, markedAt: real)
    requires Enabled(s, Act(markedAt)) && s.supervisor.action == KillAndRespawn
    requires s.slots[s.supervisor.worker].entry.Some?
    ensures var i := s.supervisor.worker;
            var taken := Next(t, s, Act(markedAt));
            && taken.supervisor == Pushing(i, s.slots[i].entry.value.ledger)
            && PendingIds(taken.supervisor) == LedgerOf(s.slots[i])
            && |taken.slots| == |s.slots| && taken.slots[i].process == s.slots[i].process
            && taken.slots[i].entry.Some?
  {
  }

  /** A task that the ledger of a process lists before any rescue waits in that process. */
  lemma ListedWaits(slot: W.Slot, id: TaskId)
    requires W.ViewInv(slot) && slot.process.Running? && !slot.tainted && id in LedgerOf(slot)
    ensures id in W.Waiting(slot.process)
  {
  }

  lemma TakenBothRun(t: Timeouts, s: System, markedAt: real, id: TaskId, handlers: nat)
    requires Inv(s) && Enabled(s, Act(markedAt)) && TakesAlive(s, Act(markedAt), id)
    requires Busy(s.slots[s.supervisor.worker]) <= handlers && handlers > 0
    ensures CanBecomeBoth(t, Next(t, s, Act(markedAt)), id, s.supervisor.worker, handlers)
  {
    ListedWaits(s.slots[s.supervisor.worker], id);
    ActTakes(t, s, markedAt);
    WaitsBothRun(t, Next(t, s, Act(markedAt)), id, handlers);
  }

  lemma WaitsBothRun(t: Timeouts, s: System, id: TaskId, handlers: nat)
    requires s.supervisor.Pushing? && s.supervisor.worker < |s.slots| && id in PendingIds(s.supervisor)
    requires W.Inside(s.slots[s.supervisor.worker]) && id in W.Waiting(s.slots[s.supervisor.worker].process)
    requires Busy(s.slots[s.supervisor.worker]) <= handlers && handlers > 0
    ensures CanBecomeBoth(t, s, id, s.supervisor.worker, handlers)
  {
    var i := s.supervisor.worker;
    var run, s' := PushAll(t, s, [], s, i, handlers);
    run, s' := LeaveSection(t, s, run, s', i, handlers);
    if id !in s'.started {
      run, s' := StartAdmitted(t, s, run, s', i, handlers, id);
    }
    assert Both(s', id);
  }

  lemma TakenHanded(t: Timeouts, s: System, markedAt: real, id: TaskId)
    requires LedgersInv(s) && ReleasedInv(s) && Enabled(s, Act(markedAt)) && s.supervisor.action == KillAndRespawn
    requires id in LedgerOf(s.slots[s.supervisor.worker]) && !s.slots[s.supervisor.worker].process.Running?
    ensures Handed(Next(t, s, Act(markedAt)), id) && id !in Next(t, s, Act(markedAt)).takenAlive
  {
    assert Placed(s, id, InLedger);
    assert id in s.takenAlive ==> Handed(s, id);
    assert Acted(s, markedAt).place[id] == InRescue;
  }

  lemma TakenNeverBoth(t: Timeouts, s: System, markedAt: real, id: TaskId, handlers: nat)
    requires Inv(s) && Enabled(s, Act(markedAt)) && s.supervisor.action == KillAndRespawn
    requires id in LedgerOf(s.slots[s.supervisor.worker]) && !s.slots[s.supervisor.worker].process.Running?
    ensures !CanBecomeBoth(t, Next(t, s, Act(markedAt)), id, s.supervisor.worker, handlers)
  {
    var taken := Next(t, s, Act(markedAt));
    InvStep(t, s, Act(markedAt));
    TakenHanded(t, s, markedAt, id);
    forall run, end | Exec(t, taken, run) == Some(end)
      ensures !Both(end, id)
    {
      NeverBoth(t, taken, run, id);
    }
  }

  lemma TakenNeverStarted(t: Timeouts, s: System, markedAt: real, id: TaskId)
    requires Inv(s) && Enabled(s, Act(markedAt)) && id in LedgerOf(s.slots[s.supervisor.worker])
    ensures !CanBecomeBoth(t, Next(t, s, Act(markedAt)), id, s.supervisor.worker, 0)
  {
    var i := s.supervisor.worker;
    var taken := Next(t, s, Act(markedAt));
    assert OwnedBy(s, id, i) && Placed(s, id, InLedger);
    assert id !in s.released by {
      assert id in s.takenAlive ==> Handed(s, id);
    }
    OwnerStep(t, s, Act(markedAt), id);
    BothStep(t, s, Act(markedAt), id);
    InvStep(t, s, Act(markedAt));
    forall run, end | Within(t, taken, run, i, 0) && Exec(t, taken, run) == Some(end)
      ensures !Both(end, id)
    {
      NeverStarted(t, taken, run, id, i);
    }
  }

  /** A rescue that takes a task from the ledger of a worker with so many handlers can lead to the task's being both
      pushed and started if and only if the process it is taken from is running and has a handler at all. */
  lemma RescueCanDouble(
    t: Timeouts, workers: nat, run: seq<Step>, s: System, markedAt: real, id: TaskId, handlers: nat)
    requires Reached(t, workers, run, s) && Enabled(s, Act(markedAt)) && s.supervisor.action == KillAndRespawn
    requires id in LedgerOf(s.slots[s.supervisor.worker]) && Busy(s.slots[s.supervisor.worker]) <= handlers
    ensures CanBecomeBoth(t, Next(t, s, Act(markedAt)), id, s.supervisor.worker, handlers) <==>
            s.slots[s.supervisor.worker].process.Running? && handlers > 0
  {
    ReachedInv(t, workers, run, s);
    if !s.slots[s.supervisor.worker].process.Running? {
      TakenNeverBoth(t, s, markedAt, id, handlers);
    } else if handlers == 0 {
      TakenNeverStarted(t, s, markedAt, id);
    } else {
      TakenBothRun(t, s, markedAt, id, handlers);
    }
  }

  /** The client is told of a task just listed. */
  lemma ListedReplies(t: Timeouts, s: System, i: nat, handlers: nat, id: TaskId) returns (run: seq<Step>, s': System)
    requires i < |s.slots| && W.Inside(s.slots[i]) && Busy(s.slots[i]) <= handlers
    requires s.slots[i].process.cpu == W.PutListed(id) && id in LedgerOf(s.slots[i])
    ensures Leads(t, s, run, s', i, handlers) && |s'.slots| == |s.slots| && s'.supervisor == s.supervisor
    ensures id in LedgerOf(s'.slots[i]) && id in s'.acked
  {
    run, s' := WorkOn(t, s, [], s, i, handlers, W.PutRecord("", 0.0));
    run, s' := WorkOn(t, s, run, s', i, handlers, W.Reply(id));
  }

  /** Once everything is pushed, the process is ended and its replacement boots over what the ledger lists. */
  lemma BootOver(t: Timeouts, s0: System, run0: seq<Step>, s: System, i: nat, handlers: nat, id: TaskId)
    returns (run: seq<Step>, end: System)
    requires Leads(t, s0, run0, s, i, handlers) && s.supervisor == Pushing(i, [])
    requires id in LedgerOf(s.slots[i]) && id in s.acked
    ensures Leads(t, s0, run, end, i, handlers) && id in end.lost && id in end.acked
  {
    var s1: System;
    run, s1 := Replace(t, s0, run0, s, i, handlers);
    run, end := WorkOn(t, s0, run, s1, i, handlers, W.Boot(0));
    LostStep(t, s1, Work(i, W.Boot(0)), id);
  }

  lemma Replace(t: Timeouts, s0: System, run0: seq<Step>, s: System, i: nat, handlers: nat)
    returns (run: seq<Step>, s': System)
    requires Leads(t, s0, run0, s, i, handlers) && s.supervisor == Pushing(i, [])
    ensures Leads(t, s0, run, s', i, handlers) && |s'.slots| == |s.slots| && s'.acked == s.acked
    ensures s'.slots[i].process.Booting? && LedgerOf(s'.slots[i]) == LedgerOf(s.slots[i])
  {
    run, s' := GoOn(t, s0, run0, s, Terminate, i, handlers);
    run, s' := GoOn(t, s0, run, s', Respawn(true), i, handlers);
  }

  lemma LateLostRun(t: Timeouts, s: System, i: nat, id: TaskId)
    requires Inv(s) && UnderRescue(s, i) && i < |s.slots| && W.Inside(s.slots[i])
    requires s.slots[i].process.cpu == W.PutListed(id) && id in LedgerOf(s.slots[i])
    ensures CanBeLost(t, s, id)
  {
    var handlers := Busy(s.slots[i]);
    var run, s' := ListedReplies(t, s, i, handlers, id);
    run, s' := PushAll(t, s, run, s', i, handlers);
    run, s' := BootOver(t, s, run, s', i, handlers, id);
    InvExec(t, s, run);
    assert Placed(s', id, Overwritten);
    GoneIsLost(s', id);
  }

  /** A put's ledger entry can lead to an acknowledged task in nobody's hands if and only if it is written while the
      rescue of its worker is under way. */
  lemma LateListingLoses(
    t: Timeouts, workers: nat, run: seq<Step>, s: System, i: nat, payload: string, now: real, id: TaskId)
    requires Reached(t, workers, run, s) && Enabled(s, Work(i, W.PutList(payload, now)))
    requires s.slots[i].process.cpu == W.PutEnqueued(id)
    ensures CanBeLost(t, Next(t, s, Work(i, W.PutList(payload, now))), id) <==> UnderRescue(s, i)
  {
    ReachedInv(t, workers, run, s);
    var step := Work(i, W.PutList(payload, now));
    var listed := Next(t, s, step);
    InvStep(t, s, step);
    AllowedStep(s, i, step.step);
    LedgerStep(s.slots[i], step.step);
    assert LedgerOf(listed.slots[i])[|LedgerOf(s.slots[i])|] == id;
    if UnderRescue(s, i) {
      LateLostRun(t, listed, i, id);
    } else {
      LateStep(t, s, step, id);
      assert id !in s.listedLate;
      forall run', end | Exec(t, listed, run') == Some(end)
        ensures !Gone(end, id)
      {
        NeverLost(t, listed, run', id);
      }
    }
  }
}
