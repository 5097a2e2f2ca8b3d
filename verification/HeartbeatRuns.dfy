/** Runs of the rescue protocol as one worker's entry sees them: when its process is killed alive, and why. Between a
    check and the action it decides, and between any two checks, every worker may do anything. */
module HeartbeatRuns {
  import opened Common
  import opened SharedState
  import opened CheckDecision
  import opened RescueProtocol
  import W = WorkerProcess

  /** What a check of worker i at this time decides. */
  function Decision(t: Timeouts, s: System, i: nat, now: real): Action
    requires i < |s.slots|
  {
    Decide(!s.slots[i].process.Dead?, s.slots[i].entry, now, t)
  }

  predicate IsDraining(s: System, i: nat)
    requires i < |s.slots|
  {
    s.slots[i].entry.Some? && s.slots[i].entry.value.status == Draining
  }

  ghost predicate Consistent(s: System) {
    forall i :: 0 <= i < |s.slots| && s.slots[i].entry.Some? ==>
      (s.slots[i].entry.value.status == Draining <==> s.slots[i].entry.value.drainingSince.Some?)
  }

  /** A step of the supervisor other than an action, and a step of another worker, leave the entry alone;
      a step of its own worker other than a boot leaves status and time. */
  lemma StatusFrame(t: Timeouts, s: System, step: Step, i: nat)
    requires Enabled(s, step) && i < |s.slots|
    ensures |Next(t, s, step).slots| == |s.slots|
    ensures !(step.Work? && step.worker == i) && !(step.Act? && s.supervisor.worker == i) ==>
              Next(t, s, step).slots[i].entry == s.slots[i].entry
    ensures step.Work? && step.worker == i && !step.step.Boot? ==>
              var e, e' := s.slots[i].entry, Next(t, s, step).slots[i].entry;
              && e'.Some? == e.Some?
              && (e.Some? ==> e'.value.status == e.value.status && e'.value.drainingSince == e.value.drainingSince)
  {
    if step.Work? && !step.step.Boot? {
      W.EntryFrame(s.slots[step.worker], step.step);
    }
  }

  lemma ConsistentStep(t: Timeouts, s: System, step: Step)
    requires Enabled(s, step) && Consistent(s)
    ensures Consistent(Next(t, s, step))
  {
    var s' := Next(t, s, step);
    forall i | 0 <= i < |s'.slots| && s'.slots[i].entry.Some?
      ensures s'.slots[i].entry.value.status == Draining <==> s'.slots[i].entry.value.drainingSince.Some?
    {
      ConsistentSlot(t, s, step, i);
    }
  }

  lemma ConsistentSlot(t: Timeouts, s: System, step: Step, i: nat)
    requires Enabled(s, step) && Consistent(s) && i < |Next(t, s, step).slots|
    requires Next(t, s, step).slots[i].entry.Some?
    ensures var e := Next(t, s, step).slots[i].entry.value;
            e.status == Draining <==> e.drainingSince.Some?
  {
    SlotCount(t, s, step);
    StatusFrame(t, s, step, i);
    if step.Act? && s.supervisor.worker == i {
      assert Acted(s, step.markedAt).slots[i].entry.Some? ==> s.slots[i].entry.Some?;
    }
  }

  lemma SlotCount(t: Timeouts, s: System, step: Step)
    requires Enabled(s, step)
    ensures |Next(t, s, step).slots| == |s.slots|
  {
  }

  /** Status and draining_since agree at every point of every run. */
  lemma {:induction false} StatusIffSince(t: Timeouts, s: System, run: seq<Step>)
    requires Consistent(s)
    ensures Exec(t, s, run).Some? ==> Consistent(Exec(t, s, run).value)
    decreases |run|
  {
    if run != [] && Enabled(s, run[0]) {
      ConsistentStep(t, s, run[0]);
      StatusIffSince(t, Next(t, s, run[0]), run[1..]);
    }
  }

  // ---------------- why a live process is killed ----------------

  /** Step n of the run stored the time m with a mark of worker i. */
  ghost predicate MarkedAt(t: Timeouts, start: System, run: seq<Step>, n: nat, i: nat, m: real) {
    n < |run| && run[n] == Act(m) && match Exec(t, start, run[..n])
                                     case None => false
                                     case Some(s) => s.supervisor == Acting(i, MarkDraining)
  }

  /** If step n of the run is a check of worker i, it found the process running and its heartbeat stale. */
  ghost predicate SawStale(t: Timeouts, start: System, run: seq<Step>, n: nat, i: nat) {
    n < |run| && (run[n].Check? && run[n].worker == i ==>
      match Exec(t, start, run[..n])
      case None => false
      case Some(s) =>
        && i < |s.slots| && s.slots[i].process.Running? && s.slots[i].entry.Some?
        && Stale(s.slots[i].entry.value, run[n].now, t))
  }

  predicate Boots(step: Step, i: nat) {
    step.Work? && step.worker == i && step.step.Boot?
  }

  /** Step j stored m with a mark of worker i; every check of it since saw a stale heartbeat; and no process of it has
      booted since, so that the process marked is the process there now. */
  ghost predicate MarkedSince(t: Timeouts, start: System, run: seq<Step>, j: nat, i: nat, m: real) {
    && MarkedAt(t, start, run, j, i, m)
    && forall n :: j < n < |run| ==> SawStale(t, start, run, n, i) && !Boots(run[n], i)
  }

  /** That goes on as the run does. */
  lemma SinceGrows(t: Timeouts, start: System, run: seq<Step>, step: Step, j: nat, i: nat, m: real)
    requires MarkedSince(t, start, run, j, i, m)
    requires SawStale(t, start, run + [step], |run|, i) && !Boots(step, i)
    ensures MarkedSince(t, start, run + [step], j, i, m)
  {
    var all := run + [step];
    forall n: nat | n < |run|
      ensures all[n] == run[n] && all[..n] == run[..n]
    {
    }
    forall n | j < n < |all|
      ensures SawStale(t, start, all, n, i) && !Boots(all[n], i)
    {
      if n < |run| {
        assert SawStale(t, start, run, n, i);
      }
    }
  }

  /** The draining entry of a running process carries the time of such a mark, unless a check has just seen it
      recover. */
  lemma {:induction false} DrainingOrigin(t: Timeouts, start: System, run: seq<Step>, s: System, i: nat)
    returns (j: nat, m: real)
    requires Exec(t, start, run) == Some(s) && i < |s.slots| == |start.slots|
    requires !IsDraining(start, i) && start.supervisor.Idle?
    requires s.slots[i].process.Running? && IsDraining(s, i) && s.supervisor != Acting(i, MarkHealthy)
    ensures MarkedSince(t, start, run, j, i, m) && s.slots[i].entry.value.drainingSince == Some(m)
    decreases |run|
  {
    var before := ExecLast(t, start, run);
    var front, last := run[..|run| - 1], run[|run| - 1];
    assert run == front + [last];
    SlotsStay(t, start, front, before);
    StatusFrame(t, before, last, i);
    if last.Act? && before.supervisor == Acting(i, MarkDraining) {
      j, m := |front|, last.markedAt;
    } else {
      StillDraining(t, before, last, i);
      j, m := DrainingOrigin(t, start, front, before, i);
      SinceGrows(t, start, front, last, j, i, m);
    }
  }

  lemma {:induction false} SlotsStay(t: Timeouts, s: System, run: seq<Step>, end: System)
    requires Exec(t, s, run) == Some(end)
    ensures |end.slots| == |s.slots|
    decreases |run|
  {
    if run != [] {
      SlotsStay(t, Next(t, s, run[0]), run[1..], end);
    }
  }

  /** An entry that is draining after a step other than a mark was draining before it, since the same time; and a
      process that runs after it, under a draining entry, ran before it. */
  lemma StillDraining(t: Timeouts, s: System, step: Step, i: nat)
    requires Enabled(s, step) && i < |s.slots| && i < |Next(t, s, step).slots|
    requires !(step.Act? && s.supervisor == Acting(i, MarkDraining))
    requires IsDraining(Next(t, s, step), i) && Next(t, s, step).supervisor != Acting(i, MarkHealthy)
    requires Next(t, s, step).slots[i].process.Running?
    ensures s.slots[i].process.Running? && IsDraining(s, i) && s.supervisor != Acting(i, MarkHealthy)
    ensures s.slots[i].entry.value.drainingSince == Next(t, s, step).slots[i].entry.value.drainingSince
    ensures step.Check? && step.worker == i ==> Stale(s.slots[i].entry.value, step.now, t)
    ensures !Boots(step, i)
  {
    match step
    case Work(_, _) => StillDrainingWork(t, s, step, i);
    case Act(_) => StillDrainingAct(t, s, step, i);
    case _ =>
  }

  lemma StillDrainingWork(t: Timeouts, s: System, step: Step, i: nat)
    requires Enabled(s, step) && i < |s.slots| && step.Work? && i < |Next(t, s, step).slots|
    requires IsDraining(Next(t, s, step), i) && Next(t, s, step).slots[i].process.Running?
    ensures s.slots[i].process.Running? && IsDraining(s, i)
    ensures s.slots[i].entry.value.drainingSince == Next(t, s, step).slots[i].entry.value.drainingSince
    ensures Next(t, s, step).supervisor == s.supervisor && !Boots(step, i)
  {
    StatusFrame(t, s, step, i);
    var effect := EffectOf(s.slots[step.worker], step.step);
    assert Recorded(s, step.worker, effect, LedgerOf(s.slots[step.worker])).supervisor == s.supervisor;
  }

  lemma StillDrainingAct(t: Timeouts, s: System, step: Step, i: nat)
    requires Enabled(s, step) && i < |s.slots| && step.Act? && i < |Next(t, s, step).slots|
    requires s.supervisor != Acting(i, MarkDraining)
    requires IsDraining(Next(t, s, step), i) && Next(t, s, step).slots[i].process.Running?
    ensures s.slots[i].process.Running? && IsDraining(s, i) && s.supervisor != Acting(i, MarkHealthy)
    ensures s.slots[i].entry.value.drainingSince == Next(t, s, step).slots[i].entry.value.drainingSince
  {
    if s.supervisor.worker != i {
      StatusFrame(t, s, step, i);
      assert Acted(s, step.markedAt).slots[i] == s.slots[i];
    }
  }

  /** A running process is killed only when it, itself, was marked draining more than the drain timeout ago, and every
      check from the mark to the kill found it running with a stale heartbeat. */
  lemma KillSound(t: Timeouts, workers: nat, run: seq<Step>, s: System, i: nat, now: real) returns (j: nat, m: real)
    requires Exec(t, Init(workers), run) == Some(s) && Enabled(s, Check(i, now))
    requires s.slots[i].process.Running? && Decision(t, s, i, now) == KillAndRespawn
    ensures MarkedSince(t, Init(workers), run, j, i, m) && now - m > t.drain
    ensures Stale(s.slots[i].entry.value, now, t)
  {
    SlotsStay(t, Init(workers), run, s);
    j, m := DrainingOrigin(t, Init(workers), run, s, i);
  }

  /** One worker, whose process is p, judged on this status and time; its only heartbeat was at time 1. */
  ghost predicate Stands(t: Timeouts, run: seq<Step>, s: System, p: W.Process, since: Option<real>, sup: Supervisor) {
    && Exec(t, Init(1), run) == Some(s) && |s.slots| == 1 && s.slots[0].process == p && s.supervisor == sup
    && s.slots[0].entry.Some?
    && var e := s.slots[0].entry.value;
       && e.heartbeat == 1.0 && e.ledger == [] && e.drainingSince == since
       && e.status == if since.Some? then Draining else Healthy
  }

  lemma MarkedRun(t: Timeouts) returns (run: seq<Step>, s: System)
    requires t.heartbeat >= 0.0
    ensures Stands(t, run, s, W.Running(W.AtAwait, [], {}, multiset{}, multiset{}), Some(t.heartbeat + 2.0), Idle)
  {
    run, s := [], Init(1);
    run, s := Longer(t, run, s, Work(0, W.Boot(1)));
    run, s := Longer(t, run, s, Work(0, W.Beat(1.0)));
    run, s := Longer(t, run, s, Check(0, t.heartbeat + 2.0));
    run, s := Longer(t, run, s, Act(t.heartbeat + 2.0));
  }

  lemma Longer(t: Timeouts, run: seq<Step>, s: System, step: Step) returns (run': seq<Step>, s': System)
    requires Exec(t, Init(1), run) == Some(s) && Enabled(s, step)
    ensures run' == run + [step] && s' == Next(t, s, step) && Exec(t, Init(1), run') == Some(s')
  {
    ExecOne(t, Init(1), run, s, step);
    run', s' := run + [step], Next(t, s, step);
  }

  /** The marked process dies and is respawned. */
  lemma RespawnedRun(t: Timeouts, since: real, run0: seq<Step>, s0: System) returns (run: seq<Step>, s: System)
    requires Stands(t, run0, s0, W.Running(W.AtAwait, [], {}, multiset{}, multiset{}), Some(since), Idle)
    ensures Stands(t, run, s, W.Booting, Some(since), Idle) && run != [] && run[|run| - 1] == Respawn(true)
  {
    run, s := Longer(t, run0, s0, Work(0, W.Crash));
    run, s := Longer(t, run, s, Check(0, since));
    run, s := Longer(t, run, s, Act(since));
    run, s := Longer(t, run, s, Terminate);
    run, s := Longer(t, run, s, Respawn(true));
  }

  /** Why the process must be running: one that has not yet written its entry is judged on the entry of the process it
      replaces. Here a process is killed by the first check after its spawn, whatever the timeouts. */
  lemma KilledBeforeBoot(t: Timeouts) returns (run: seq<Step>, s: System, now: real)
    requires t.heartbeat >= 0.0 && t.drain >= 0.0
    ensures Exec(t, Init(1), run) == Some(s) && run != [] && run[|run| - 1] == Respawn(true)
    ensures |s.slots| == 1 && s.slots[0].process.Booting? && Enabled(s, Check(0, now))
    ensures Decision(t, s, 0, now) == KillAndRespawn
  {
    run, s := MarkedRun(t);
    run, s := RespawnedRun(t, t.heartbeat + 2.0, run, s);
    now := t.heartbeat + t.drain + 3.0;
  }

  // ---------------- a frozen heartbeat ----------------

  /** The time of the last check of worker i, if there was one. */
  function Later(last: Option<real>, step: Step, i: nat): Option<real> {
    if step.Check? && step.worker == i then Some(step.now) else last
  }

  function LastCheck(last: Option<real>, run: seq<Step>, i: nat): Option<real>
    decreases |run|
  {
    if run == [] then last else LastCheck(Later(last, run[0], i), run[1..], i)
  }

  /** How the checks are spaced: the first comes by `first`, each at most d after the one before it; a mark is stored
      at most `delay` after the reading it was decided on. */
  datatype Pace = Pace(first: real, d: real, delay: real)

  /** The worker's heartbeat is frozen: it neither beats nor boots nor dies by itself; and the supervisor keeps pace. */
  predicate InTime(s: System, step: Step, i: nat, last: Option<real>, pace: Pace) {
    match step
    case Work(j, w) => j == i ==> !w.Beat? && !w.Boot? && !w.Crash?
    case Check(j, now) =>
      j == i ==> if last.None? then now <= pace.first else last.value <= now <= last.value + pace.d
    case Act(m) =>
      s.supervisor.Acting? && s.supervisor.worker == i && last.Some? ==> last.value <= m <= last.value + pace.delay
    case _ => true
  }

  ghost predicate Paced(t: Timeouts, s: System, run: seq<Step>, i: nat, last: Option<real>, pace: Pace)
    decreases |run|
  {
    run == [] || (
      && Enabled(s, run[0]) && InTime(s, run[0], i, last, pace)
      && Paced(t, Next(t, s, run[0]), run[1..], i, Later(last, run[0], i), pace))
  }

  /** The check that opens the run decides to kill. */
  predicate Kills(t: Timeouts, s: System, step: Step, i: nat) {
    step.Check? && step.worker == i && i < |s.slots| && Decision(t, s, i, step.now) == KillAndRespawn
  }

  /** With the heartbeat frozen at h and no kill decided: the worker is healthy with every check so far in time, or
      about to be marked, or draining since a mark that came no later than d + delay after the heartbeat went stale. */
  predicate Frozen(t: Timeouts, s: System, i: nat, last: Option<real>, h: real, pace: Pace) {
    && i < |s.slots| && s.slots[i].process.Running? && s.slots[i].entry.Some?
    && var e := s.slots[i].entry.value;
       && e.heartbeat == h
       && !((s.supervisor.Pushing? || s.supervisor.Respawning?) && s.supervisor.worker == i)
       && (if s.supervisor.Acting? && s.supervisor.worker == i then
             s.supervisor.action == MarkDraining && e.status == Healthy && last.Some?
             && h + t.heartbeat < last.value <= h + t.heartbeat + pace.d
           else if e.status == Healthy then
             last.Some? ==> last.value <= h + t.heartbeat
           else
             last.Some? && h + t.heartbeat < last.value && e.drainingSince.Some?
             && h + t.heartbeat < e.drainingSince.value <= h + t.heartbeat + pace.d + pace.delay
             && last.value <= e.drainingSince.value + t.drain)
  }

  ghost predicate Premises(t: Timeouts, h: real, pace: Pace) {
    h > 0.0 && pace.d >= 0.0 && pace.delay >= 0.0 && t.drain >= 0.0 && pace.first == h + t.heartbeat + pace.d
  }

  lemma FrozenWork(t: Timeouts, s: System, step: Step, i: nat, last: Option<real>, h: real, pace: Pace)
    requires Frozen(t, s, i, last, h, pace) && Enabled(s, step) && InTime(s, step, i, last, pace) && step.Work?
    ensures Frozen(t, Next(t, s, step), i, last, h, pace)
  {
    StatusFrame(t, s, step, i);
    var effect := EffectOf(s.slots[step.worker], step.step);
    assert Recorded(s, step.worker, effect, LedgerOf(s.slots[step.worker])).supervisor == s.supervisor;
  }

  lemma FrozenCheck(t: Timeouts, s: System, step: Step, i: nat, last: Option<real>, h: real, pace: Pace)
    requires Premises(t, h, pace) && Frozen(t, s, i, last, h, pace)
    requires Enabled(s, step) && InTime(s, step, i, last, pace) && step.Check? && !Kills(t, s, step, i)
    ensures Frozen(t, Next(t, s, step), i, Later(last, step, i), h, pace)
  {
  }

  lemma FrozenStep(t: Timeouts, s: System, step: Step, i: nat, last: Option<real>, h: real, pace: Pace)
    requires Premises(t, h, pace) && Frozen(t, s, i, last, h, pace)
    requires Enabled(s, step) && InTime(s, step, i, last, pace) && !Kills(t, s, step, i)
    ensures Frozen(t, Next(t, s, step), i, Later(last, step, i), h, pace)
  {
    if step.Work? {
      FrozenWork(t, s, step, i, last, h, pace);
    } else if step.Check? {
      FrozenCheck(t, s, step, i, last, h, pace);
    }
  }

  /** The kill that ends a frozen stretch falls between the two bounds. */
  lemma KillWindow(t: Timeouts, s: System, step: Step, i: nat, last: Option<real>, h: real, pace: Pace)
    requires Premises(t, h, pace) && Frozen(t, s, i, last, h, pace)
    requires Enabled(s, step) && InTime(s, step, i, last, pace) && Kills(t, s, step, i)
    ensures var bound := h + t.heartbeat + t.drain;
            bound < step.now <= bound + 2.0 * pace.d + pace.delay
  {
  }

  /** Step k is the first check that decides to kill worker i. */
  ghost predicate FirstKill(t: Timeouts, start: System, run: seq<Step>, k: nat, i: nat) {
    && k < |run|
    && (match Exec(t, start, run[..k])
        case None => false
        case Some(s) => Kills(t, s, run[k], i))
    && forall n: nat :: n < k ==>
         match Exec(t, start, run[..n])
         case None => false
         case Some(s) => !Kills(t, s, run[n], i)
  }

  lemma {:induction false} KilledInTime(
    t: Timeouts, s: System, run: seq<Step>, i: nat, last: Option<real>, h: real, pace: Pace) returns (k: nat)
    requires Premises(t, h, pace) && Frozen(t, s, i, last, h, pace) && Paced(t, s, run, i, last, pace)
    requires var end := LastCheck(last, run, i);
             end.Some? && end.value > h + t.heartbeat + t.drain + pace.d + pace.delay
    ensures FirstKill(t, s, run, k, i) && run[k].Check?
    ensures var bound := h + t.heartbeat + t.drain;
            bound < run[k].now <= bound + 2.0 * pace.d + pace.delay
    decreases |run|
  {
    assert run != [];
    if Kills(t, s, run[0], i) {
      k := 0;
      KillWindow(t, s, run[0], i, last, h, pace);
    } else {
      FrozenStep(t, s, run[0], i, last, h, pace);
      var rest := KilledInTime(t, Next(t, s, run[0]), run[1..], i, Later(last, run[0], i), h, pace);
      k := rest + 1;
      FirstKillLater(t, s, run, rest, i);
    }
  }

  lemma FirstKillLater(t: Timeouts, s: System, run: seq<Step>, k: nat, i: nat)
    requires run != [] && Enabled(s, run[0]) && !Kills(t, s, run[0], i)
    requires FirstKill(t, Next(t, s, run[0]), run[1..], k, i)
    ensures FirstKill(t, s, run, k + 1, i)
  {
    var rest := run[1..];
    forall n: nat | n <= k
      ensures Exec(t, s, run[..n + 1]) == Exec(t, Next(t, s, run[0]), rest[..n]) && run[n + 1] == rest[n]
    {
      assert run[..n + 1][1..] == rest[..n];
    }
    assert run[..0] == [];
    forall n: nat | n < k + 1
      ensures match Exec(t, s, run[..n])
              case None => false
              case Some(s') => !Kills(t, s', run[n], i)
    {
      if n > 0 {
        var m: nat := n - 1;
        assert Exec(t, s, run[..m + 1]) == Exec(t, Next(t, s, run[0]), rest[..m]) && run[m + 1] == rest[m];
      }
    }
  }

  /** If the heartbeat of a healthy worker with a running process freezes at h and the worker is checked at gaps of at
      most d, the first check that kills it comes after h + heartbeat timeout + drain timeout, and no later than
      2d + delay after that, once the checks go on past that time less one gap: whatever else the system does. */
  lemma BoundedReplacement(t: Timeouts, s: System, run: seq<Step>, i: nat, h: real, pace: Pace) returns (k: nat)
    requires Premises(t, h, pace) && Paced(t, s, run, i, None, pace)
    requires s.supervisor.Idle? && i < |s.slots| && s.slots[i].process.Running? && s.slots[i].entry.Some?
    requires s.slots[i].entry.value.heartbeat == h && s.slots[i].entry.value.status == Healthy
    requires var end := LastCheck(None, run, i);
             end.Some? && end.value > h + t.heartbeat + t.drain + pace.d + pace.delay
    ensures FirstKill(t, s, run, k, i) && run[k].Check?
    ensures var bound := h + t.heartbeat + t.drain;
            bound < run[k].now <= bound + 2.0 * pace.d + pace.delay
  {
    k := KilledInTime(t, s, run, i, None, h, pace);
  }
}
