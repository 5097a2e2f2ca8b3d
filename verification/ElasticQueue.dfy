/** The elastic queue as a transition system: puts, any number of consumers with retries and blocked putters,
    and the shrink monitor, in any interleaving of the code between two awaits. */
module ElasticQueue {
  import opened Common
  import opened SharedState
  import opened QueuePolicy

  /** `retryable` is what task.retry() answers. */
  datatype Task = Task(id: TaskId, retries: nat, retryable: bool)

  /** An asyncio queue with the policy that sizes it. */
  datatype Core = Core(policy: Policy, items: seq<Task>, maxsize: int, unfinished: nat) {
    /** asyncio.Queue.full: a maxsize of zero or less means no bound. */
    predicate Full() {
      maxsize > 0 && |items| >= maxsize
    }

    function Enqueue(task: Task): Core {
      this.(items := items + [task], unfinished := unfinished + 1)
    }

    /** put_nowait, grow and try again, or discard; None is QueueFull. */
    function Admit(task: Task): (Core, bool) {
      if !Full() then (Enqueue(task), true)
      else if policy.CanGrow() then
        var grown := this.(policy := policy.Grow(), maxsize := policy.Grow().currentMaxsize);
        if grown.Full() then (grown, false) else (grown.Enqueue(task), true)
      else (this.(policy := policy.Discard()), false)
    }

    predicate HighUsage() {
      |items| as real / Max(1, maxsize) as real > policy.lowWatermark
    }

    /** The queue part of QueueManager.put, past the draining guard. */
    function Put(task: Task, now: real): (Core, bool) {
      var (core, accepted) := Admit(task);
      if accepted && core.HighUsage() then (core.(policy := core.policy.NoteHighUsage(now)), true)
      else (core, accepted)
    }

    predicate Shrinks(now: real) {
      policy.CanShrink(|items|, now) && |items| < policy.currentMaxsize
    }

    /** One wake-up of the shrink monitor. */
    function Tick(now: real): Core {
      if Shrinks(now) then this.(policy := policy.Shrink(), maxsize := policy.Shrink().currentMaxsize) else this
    }

    ghost predicate Bounded() {
      && policy.Configured()
      && |items| <= maxsize == policy.currentMaxsize
      && policy.baseSize <= policy.currentMaxsize <= policy.Ceiling()
    }
  }

  function NewCore(policy: Policy): Core {
    Core(policy, [], policy.currentMaxsize, 0)
  }

  // ---------------- one put ----------------

  /** A put is accepted exactly when the queue is below the ceiling, whatever the current maxsize is;
      the put_nowait after a grow never raises. */
  lemma PutAccepts(core: Core, task: Task, now: real)
    requires core.Bounded()
    ensures var (core', accepted) := core.Put(task, now);
            && (accepted <==> |core.items| < core.policy.baseSize + core.policy.growMargin)
            && core'.Bounded()
            && core'.items == (if accepted then core.items + [task] else core.items)
            && core'.policy.discardEvents == core.policy.discardEvents + (if accepted then 0 else 1)
            && core'.policy.growEvents - core.policy.growEvents == core'.maxsize - core.maxsize
            && core'.policy.Ceiling() == core.policy.Ceiling()
  {
  }

  /** A put that leaves the queue above the low watermark restarts the shrink cooldown, whether it grew or not; no other
      put does. */
  lemma PutRestartsCooldown(core: Core, task: Task, now: real)
    requires core.Bounded()
    ensures var (core', accepted) := core.Put(task, now);
            core'.policy.lastHighUsage
            == if accepted && |core.items| as real + 1.0 > core.policy.lowWatermark * core'.maxsize as real then now
               else core.policy.lastHighUsage
  {
    PutAccepts(core, task, now);
    var core' := core.Put(task, now).0;
    if core.Put(task, now).1 {
      RatioAtMost(|core'.items|, core'.maxsize, core.policy.lowWatermark);
    }
  }

  /** The shrink monitor takes one slot exactly when the queue is above its base, holds no more than the low watermark,
      and the cooldown since the last high usage is over; otherwise it changes nothing. */
  lemma ShrinksExactly(core: Core, now: real)
    requires core.Bounded()
    ensures var shrinks :=
              && core.maxsize > core.policy.baseSize
              && |core.items| as real <= core.policy.lowWatermark * core.maxsize as real
              && now - core.policy.lastHighUsage >= core.policy.shrinkCooldown;
            && (core.Tick(now) != core <==> shrinks)
            && (shrinks ==>
                 && core.Tick(now).maxsize == core.Tick(now).policy.currentMaxsize == core.maxsize - 1
                 && core.Tick(now).items == core.items)
  {
    RatioAtMost(|core.items|, core.maxsize, core.policy.lowWatermark);
    if |core.items| as real <= core.policy.lowWatermark * core.maxsize as real {
      FractionOf(core.policy.lowWatermark, core.maxsize as real, core.maxsize as real);
    }
  }

  /** A grow is itself high usage: it resets the shrink cooldown. */
  lemma GrowIsHighUsage(core: Core, task: Task, now: real)
    requires core.Bounded() && core.Put(task, now).0.policy.growEvents > core.policy.growEvents
    ensures core.Put(task, now).1 && core.Put(task, now).0.policy.lastHighUsage == now
  {
    var admitted := core.Admit(task).0;
    assert |admitted.items| == admitted.maxsize == core.maxsize + 1;
    RatioAtMost(|admitted.items|, admitted.maxsize, core.policy.lowWatermark);
    assert core.policy.lowWatermark * admitted.maxsize as real < admitted.maxsize as real;
  }

  /** Puts and shrink ticks with nothing taken out: exactly as many are accepted as the ceiling leaves room for. */
  datatype Arrival = APut(task: Task, now: real) | ATick(now: real)

  function Puts(arrivals: seq<Arrival>): nat {
    if arrivals == [] then 0
    else Puts(arrivals[..|arrivals| - 1]) + (if arrivals[|arrivals| - 1].APut? then 1 else 0)
  }

  /** The core after the arrivals, and how many puts were accepted. */
  function Arrive(core: Core, arrivals: seq<Arrival>): (Core, nat) {
    if arrivals == [] then (core, 0)
    else
      var (before, n) := Arrive(core, arrivals[..|arrivals| - 1]);
      match arrivals[|arrivals| - 1]
      case APut(task, now) => var (after, accepted) := before.Put(task, now); (after, if accepted then n + 1 else n)
      case ATick(now) => (before.Tick(now), n)
  }

  lemma TickBounded(core: Core, now: real)
    requires core.Bounded()
    ensures core.Tick(now).Bounded() && core.Tick(now).items == core.items
    ensures core.Tick(now).policy.Ceiling() == core.policy.Ceiling()
    ensures core.Tick(now).policy.discardEvents == core.policy.discardEvents
  {
  }

  lemma {:induction false} PutsUpToCeiling(core: Core, arrivals: seq<Arrival>)
    requires core.Bounded()
    ensures var (core', accepted) := Arrive(core, arrivals);
            var room := core.policy.Ceiling() - |core.items|;
            && core'.Bounded() && core'.policy.Ceiling() == core.policy.Ceiling()
            && accepted == Min(Puts(arrivals), room)
            && |core'.items| == |core.items| + accepted
            && core'.policy.discardEvents - core.policy.discardEvents == Puts(arrivals) - accepted
  {
    if arrivals != [] {
      var front := arrivals[..|arrivals| - 1];
      PutsUpToCeiling(core, front);
      var before := Arrive(core, front).0;
      match arrivals[|arrivals| - 1]
      case APut(task, now) => PutAccepts(before, task, now);
      case ATick(now) => TickBounded(before, now);
    }
  }

  // ---------------- quiet shrinking ----------------

  function Ticks(core: Core, times: seq<real>): Core {
    if times == [] then core else Ticks(core, times[..|times| - 1]).Tick(times[|times| - 1])
  }

  /** Once the queue is quiet and low, k ticks past the cooldown leave the maxsize at max(base, m - k). */
  lemma {:induction false} QuietShrink(core: Core, times: seq<real>)
    requires core.Bounded()
    requires |core.items| as real <= core.policy.lowWatermark * (core.policy.baseSize + 1) as real
    requires forall k :: 0 <= k < |times| ==> times[k] - core.policy.lastHighUsage >= core.policy.shrinkCooldown
    ensures var after := Ticks(core, times);
            && after.maxsize == after.policy.currentMaxsize == Max(core.policy.baseSize, core.maxsize - |times|)
            && after.items == core.items
            && after.policy == core.policy.(currentMaxsize := after.maxsize)
  {
    if times != [] {
      var front := times[..|times| - 1];
      QuietShrink(core, front);
      var before := Ticks(core, front);
      if before.maxsize > core.policy.baseSize {
        LowEnough(core, before.maxsize);
      }
    }
  }

  lemma LowEnough(core: Core, max: int)
    requires core.Bounded() && max > core.policy.baseSize
    requires |core.items| as real <= core.policy.lowWatermark * (core.policy.baseSize + 1) as real
    ensures |core.items| as real / max as real <= core.policy.lowWatermark && |core.items| < max
  {
    LowRatio(|core.items|, core.policy.baseSize + 1, max, core.policy.lowWatermark);
  }

  lemma LowRatio(size: nat, least: int, max: int, low: real)
    requires 0.0 < low < 1.0 && 0 < least <= max && size as real <= low * least as real
    ensures size as real / max as real <= low && size < max
  {
    FractionOf(low, least as real, max as real);
    var allowed := low * max as real;
    assert size as real <= allowed < max as real;
    RatioAtMost(size, max, low);
  }

  lemma FractionOf(low: real, a: real, b: real)
    requires 0.0 < low < 1.0 && 0.0 < a <= b
    ensures low * a <= low * b < b
  {
    assert low * (b - a) >= 0.0 && (1.0 - low) * b > 0.0;
  }

  // ---------------- consumers, retries and blocked putters ----------------

  /** Where a consumer is: waiting for an item, running its task, sleeping before a retry,
      blocked in the retry's queue.put, or past it and about to call task_done. */
  datatype Consumer = Waiting | Running(task: Task) | Sleeping(task: Task) | Blocked(task: Task) | Finishing

  datatype Outcome = Success | TimedOut | Permanent | Failed

  datatype Event =
    | PutTask(task: Task, now: real)
    | Take(c: nat)
    | Finish(c: nat, outcome: Outcome)
    | Requeue(c: nat)
    | TaskDone(c: nat)
    | ShrinkTick(now: real)

  /** From `lastGrow` on the fields only record what has happened: the last grow, how many shrinks,
      the tasks put accepted, and how often each task's execution has finished. */
  datatype State = State(
    core: Core,
    consumers: seq<Consumer>,
    clock: real,
    lastGrow: Option<real>,
    shrinks: nat,
    accepted: seq<Task>,
    runs: multiset<TaskId>)

  predicate Enabled(s: State, ev: Event) {
    match ev
    case PutTask(_, now) => now >= s.clock
    case Take(c) => c < |s.consumers| && s.consumers[c].Waiting? && s.core.items != []
    case Finish(c, _) => c < |s.consumers| && s.consumers[c].Running?
    case Requeue(c) => c < |s.consumers| && (s.consumers[c].Sleeping? || s.consumers[c].Blocked?)
    case TaskDone(c) => c < |s.consumers| && s.consumers[c].Finishing? && s.core.unfinished > 0
    case ShrinkTick(now) => now >= s.clock
  }

  predicate Retries(task: Task, outcome: Outcome, retryCount: int) {
    outcome == Failed && task.retryable && task.retries < retryCount - 1
  }

  function Next(s: State, ev: Event, retryCount: int): State
    requires Enabled(s, ev)
  {
    match ev
    case PutTask(task, now) =>
      var (core, accepted) := s.core.Put(task, now);
      s.(core := core, clock := now,
        lastGrow := if core.policy.growEvents > s.core.policy.growEvents then Some(now) else s.lastGrow,
        accepted := if accepted then s.accepted + [task] else s.accepted)
    case Take(c) =>
      s.(core := s.core.(items := s.core.items[1..]), consumers := s.consumers[c := Running(s.core.items[0])])
    case Finish(c, outcome) =>
      var task := s.consumers[c].task;
      var consumer := if Retries(task, outcome, retryCount) then Sleeping(task.(retries := task.retries + 1))
                      else Finishing;
      s.(consumers := s.consumers[c := consumer], runs := s.runs + multiset{task.id})
    case Requeue(c) =>
      var task := s.consumers[c].task;
      if s.core.Full() then s.(consumers := s.consumers[c := Blocked(task)])
      else s.(core := s.core.Enqueue(task), consumers := s.consumers[c := Finishing])
    case TaskDone(c) =>
      s.(core := s.core.(unfinished := s.core.unfinished - 1), consumers := s.consumers[c := Waiting])
    case ShrinkTick(now) =>
      s.(core := s.core.Tick(now), clock := now, shrinks := if s.core.Shrinks(now) then s.shrinks + 1 else s.shrinks)
  }

  function Start(policy: Policy, consumers: nat): State {
    State(NewCore(policy), seq(consumers, _ => Waiting), policy.lastHighUsage, None, 0, [], multiset{})
  }

  function Exec(s: State, run: seq<Event>, retryCount: int): Option<State>
    decreases |run|
  {
    if run == [] then Some(s)
    else if Enabled(s, run[0]) then Exec(Next(s, run[0], retryCount), run[1..], retryCount)
    else None
  }

  // ---------------- capacity ----------------

  function Busy(consumers: seq<Consumer>): nat {
    if consumers == [] then 0
    else Busy(consumers[..|consumers| - 1]) + (if consumers[|consumers| - 1].Waiting? then 0 else 1)
  }

  lemma {:induction false} BusyUpdate(consumers: seq<Consumer>, c: nat, x: Consumer)
    requires c < |consumers|
    ensures Busy(consumers[c := x]) + (if consumers[c].Waiting? then 0 else 1)
            == Busy(consumers) + (if x.Waiting? then 0 else 1)
  {
    var n := |consumers| - 1;
    var after := consumers[c := x];
    if c == n {
      assert after[..n] == consumers[..n];
    } else {
      assert after[..n] == consumers[..n][c := x];
      BusyUpdate(consumers[..n], c, x);
    }
  }

  ghost predicate CapacityInv(s: State) {
    && s.core.Bounded()
    && s.core.policy.growEvents >= s.shrinks
    && s.core.policy.currentMaxsize == s.core.policy.baseSize + s.core.policy.growEvents - s.shrinks
    && s.core.unfinished == |s.core.items| + Busy(s.consumers)
    && s.core.policy.lastHighUsage <= s.clock
    && (s.lastGrow.Some? ==> s.lastGrow.value <= s.core.policy.lastHighUsage)
  }

  lemma CapacityPut(s: State, task: Task, now: real, retryCount: int)
    requires Enabled(s, PutTask(task, now)) && CapacityInv(s)
    ensures CapacityInv(Next(s, PutTask(task, now), retryCount))
  {
    PutAccepts(s.core, task, now);
    var core := s.core.Put(task, now).0;
    if core.policy.growEvents > s.core.policy.growEvents {
      GrowIsHighUsage(s.core, task, now);
    }
  }

  lemma CapacityStep(s: State, ev: Event, retryCount: int)
    requires Enabled(s, ev) && CapacityInv(s)
    ensures CapacityInv(Next(s, ev, retryCount))
    ensures Next(s, ev, retryCount).core.policy.Ceiling() == s.core.policy.Ceiling()
    ensures Next(s, ev, retryCount).core.policy.shrinkCooldown == s.core.policy.shrinkCooldown
  {
    var s' := Next(s, ev, retryCount);
    match ev
    case PutTask(task, now) => CapacityPut(s, task, now, retryCount);
    case ShrinkTick(now) => TickBounded(s.core, now);
    case Take(c) => BusyUpdate(s.consumers, c, s'.consumers[c]);
    case Finish(c, _) => BusyUpdate(s.consumers, c, s'.consumers[c]);
    case Requeue(c) => BusyUpdate(s.consumers, c, s'.consumers[c]);
    case TaskDone(c) => BusyUpdate(s.consumers, c, s'.consumers[c]);
  }

  lemma {:induction false} BusyNone(n: nat)
    ensures Busy(seq(n, _ => Waiting)) == 0
  {
    if n > 0 {
      var all := seq(n, _ => Waiting);
      assert all[..n - 1] == seq(n - 1, _ => Waiting);
      BusyNone(n - 1);
    }
  }

  lemma {:induction false} CapacityExec(s: State, run: seq<Event>, retryCount: int)
    requires CapacityInv(s)
    ensures Exec(s, run, retryCount).Some? ==> CapacityInv(Exec(s, run, retryCount).value)
    decreases |run|
  {
    if run != [] && Enabled(s, run[0]) {
      CapacityStep(s, run[0], retryCount);
      CapacityExec(Next(s, run[0], retryCount), run[1..], retryCount);
    }
  }

  /** In every interleaving the queue never holds more than its maxsize, which is the policy's and stays between
      base and base + margin, and is base plus the grows less the shrinks. */
  lemma Capacity(policy: Policy, consumers: nat, run: seq<Event>, retryCount: int, s: State)
    requires policy.Configured() && policy.currentMaxsize == policy.baseSize && policy.growEvents == 0
    requires Exec(Start(policy, consumers), run, retryCount) == Some(s)
    ensures |s.core.items| <= s.core.maxsize == s.core.policy.currentMaxsize
    ensures s.core.policy.baseSize <= s.core.maxsize <= s.core.policy.baseSize + s.core.policy.growMargin
    ensures s.core.maxsize == s.core.policy.baseSize + s.core.policy.growEvents - s.shrinks
  {
    BusyNone(consumers);
    CapacityExec(Start(policy, consumers), run, retryCount);
  }

  /** Every shrink comes at least the cooldown after the last grow. */
  lemma ShrinkAfterCooldown(policy: Policy, consumers: nat, run: seq<Event>, retryCount: int, s: State, now: real)
    requires policy.Configured() && policy.currentMaxsize == policy.baseSize && policy.growEvents == 0
    requires Exec(Start(policy, consumers), run, retryCount) == Some(s)
    requires Enabled(s, ShrinkTick(now)) && Next(s, ShrinkTick(now), retryCount).core.maxsize != s.core.maxsize
    ensures Next(s, ShrinkTick(now), retryCount).core.maxsize == s.core.maxsize - 1
    ensures s.lastGrow.Some? ==> now - s.lastGrow.value >= s.core.policy.shrinkCooldown
    ensures now - s.core.policy.lastHighUsage >= s.core.policy.shrinkCooldown
    ensures |s.core.items| as real <= s.core.policy.lowWatermark * s.core.maxsize as real
  {
    BusyNone(consumers);
    CapacityExec(Start(policy, consumers), run, retryCount);
    ShrinksExactly(s.core, now);
  }

  // ---------------- join and retries ----------------

  lemma {:induction false} BusyZero(consumers: seq<Consumer>)
    ensures Busy(consumers) == 0 <==> forall c :: 0 <= c < |consumers| ==> consumers[c].Waiting?
  {
    if consumers != [] {
      var front := consumers[..|consumers| - 1];
      BusyZero(front);
      assert forall c :: 0 <= c < |front| ==> front[c] == consumers[c];
    }
  }

  /** join returns only when nothing is queued and no consumer holds a task, so never while a retry is pending. */
  lemma JoinExact(policy: Policy, consumers: nat, run: seq<Event>, retryCount: int, s: State)
    requires policy.Configured() && policy.currentMaxsize == policy.baseSize && policy.growEvents == 0
    requires Exec(Start(policy, consumers), run, retryCount) == Some(s)
    ensures s.core.unfinished == 0 <==>
            s.core.items == [] && forall c :: 0 <= c < |s.consumers| ==> s.consumers[c].Waiting?
  {
    BusyNone(consumers);
    CapacityExec(Start(policy, consumers), run, retryCount);
    BusyZero(s.consumers);
  }

  /** A consumer that reaches task_done can always call it: the count never runs below zero. */
  lemma TaskDoneNeverRaises(policy: Policy, consumers: nat, run: seq<Event>, retryCount: int, s: State, c: nat)
    requires policy.Configured() && policy.currentMaxsize == policy.baseSize && policy.growEvents == 0
    requires Exec(Start(policy, consumers), run, retryCount) == Some(s)
    requires c < |s.consumers| && s.consumers[c].Finishing?
    ensures Enabled(s, TaskDone(c))
  {
    BusyNone(consumers);
    CapacityExec(Start(policy, consumers), run, retryCount);
    BusyZero(s.consumers);
  }

  /** How many executions a task may still take. */
  function Weight(task: Task, retryCount: int): nat {
    Max(1, retryCount - task.retries)
  }

  function WeightOf(tasks: seq<Task>, id: TaskId, retryCount: int): nat {
    if tasks == [] then 0
    else (if tasks[0].id == id then Weight(tasks[0], retryCount) else 0) + WeightOf(tasks[1..], id, retryCount)
  }

  function HandWeight(c: Consumer, id: TaskId, retryCount: int): nat {
    if (c.Running? || c.Sleeping? || c.Blocked?) && c.task.id == id then Weight(c.task, retryCount) else 0
  }

  function HandsWeight(consumers: seq<Consumer>, id: TaskId, retryCount: int): nat {
    if consumers == [] then 0
    else HandsWeight(consumers[..|consumers| - 1], id, retryCount)
         + HandWeight(consumers[|consumers| - 1], id, retryCount)
  }

  /** The executions a task may still take, wherever its copies are. */
  function Outstanding(s: State, id: TaskId, retryCount: int): nat {
    WeightOf(s.core.items, id, retryCount) + HandsWeight(s.consumers, id, retryCount)
  }

  lemma {:induction false} HandsUpdate(consumers: seq<Consumer>, c: nat, x: Consumer, id: TaskId, retryCount: int)
    requires c < |consumers|
    ensures HandsWeight(consumers[c := x], id, retryCount) + HandWeight(consumers[c], id, retryCount)
            == HandsWeight(consumers, id, retryCount) + HandWeight(x, id, retryCount)
  {
    var n := |consumers| - 1;
    var after := consumers[c := x];
    if c == n {
      assert after[..n] == consumers[..n];
    } else {
      assert after[..n] == consumers[..n][c := x];
      HandsUpdate(consumers[..n], c, x, id, retryCount);
    }
  }

  lemma {:induction false} WeightAppend(tasks: seq<Task>, task: Task, id: TaskId, retryCount: int)
    ensures WeightOf(tasks + [task], id, retryCount)
            == WeightOf(tasks, id, retryCount) + WeightOf([task], id, retryCount)
  {
    if tasks == [] {
      assert [] + [task] == [task];
    } else {
      assert (tasks + [task])[1..] == tasks[1..] + [task];
      WeightAppend(tasks[1..], task, id, retryCount);
    }
  }

  /** Each finished execution uses up at least one of its task's outstanding executions and none of another's;
      a put adds its task's; no other event changes them. */
  lemma OutstandingStep(s: State, ev: Event, retryCount: int, id: TaskId)
    requires Enabled(s, ev) && s.core.Bounded()
    ensures var s' := Next(s, ev, retryCount);
            var before := Outstanding(s, id, retryCount);
            var after := Outstanding(s', id, retryCount);
            match ev
            case Finish(c, _) =>
              if s.consumers[c].task.id == id then after + 1 <= before && s'.runs[id] == s.runs[id] + 1
              else after == before && s'.runs[id] == s.runs[id]
            case PutTask(task, now) =>
              s'.runs == s.runs && after == before + WeightOf(s'.accepted[|s.accepted|..], id, retryCount)
            case _ => after == before && s'.runs == s.runs
  {
    var s' := Next(s, ev, retryCount);
    match ev
    case PutTask(task, now) =>
      PutAccepts(s.core, task, now);
      WeightAppend(s.core.items, task, id, retryCount);
      if s.core.Put(task, now).1 {
        assert s'.accepted[|s.accepted|..] == [task];
      } else {
        assert s'.accepted[|s.accepted|..] == [];
      }
    case Take(c) =>
      HandsUpdate(s.consumers, c, s'.consumers[c], id, retryCount);
    case Finish(c, _) =>
      HandsUpdate(s.consumers, c, s'.consumers[c], id, retryCount);
    case Requeue(c) =>
      HandsUpdate(s.consumers, c, s'.consumers[c], id, retryCount);
      WeightAppend(s.core.items, s.consumers[c].task, id, retryCount);
    case TaskDone(c) =>
      HandsUpdate(s.consumers, c, s'.consumers[c], id, retryCount);
    case ShrinkTick(now) =>
      TickBounded(s.core, now);
  }

  lemma {:induction false} RunsBounded(s: State, run: seq<Event>, retryCount: int, id: TaskId)
    requires CapacityInv(s)
    requires s.runs[id] + Outstanding(s, id, retryCount) <= WeightOf(s.accepted, id, retryCount)
    ensures Exec(s, run, retryCount).Some? ==>
              var s' := Exec(s, run, retryCount).value;
              s'.runs[id] + Outstanding(s', id, retryCount) <= WeightOf(s'.accepted, id, retryCount)
    decreases |run|
  {
    if run != [] && Enabled(s, run[0]) {
      var s' := Next(s, run[0], retryCount);
      CapacityStep(s, run[0], retryCount);
      OutstandingStep(s, run[0], retryCount, id);
      if run[0].PutTask? {
        WeightAppend(s.accepted, run[0].task, id, retryCount);
        assert s'.accepted == s.accepted || s'.accepted == s.accepted + [run[0].task];
        assert s'.accepted == s.accepted ==> s'.accepted[|s.accepted|..] == [];
        assert s'.accepted == s.accepted + [run[0].task] ==> s'.accepted[|s.accepted|..] == [run[0].task];
      }
      RunsBounded(s', run[1..], retryCount, id);
    }
  }

  lemma {:induction false} HandsNone(n: nat, id: TaskId, retryCount: int)
    ensures HandsWeight(seq(n, _ => Waiting), id, retryCount) == 0
  {
    if n > 0 {
      var all := seq(n, _ => Waiting);
      assert all[..n - 1] == seq(n - 1, _ => Waiting);
      HandsNone(n - 1, id, retryCount);
    }
  }

  lemma {:induction false} WeightOnce(tasks: seq<Task>, k: nat, retryCount: int)
    requires k < |tasks| && forall j :: 0 <= j < |tasks| && j != k ==> tasks[j].id != tasks[k].id
    ensures WeightOf(tasks, tasks[k].id, retryCount) == Weight(tasks[k], retryCount)
  {
    if k == 0 {
      WeightNone(tasks[1..], tasks[0].id, retryCount);
    } else {
      WeightOnce(tasks[1..], k - 1, retryCount);
    }
  }

  lemma {:induction false} WeightNone(tasks: seq<Task>, id: TaskId, retryCount: int)
    requires forall j :: 0 <= j < |tasks| ==> tasks[j].id != id
    ensures WeightOf(tasks, id, retryCount) == 0
  {
    if tasks != [] {
      WeightNone(tasks[1..], id, retryCount);
    }
  }

  /** A task put once is executed at most max(1, retry count - the retries it came with) times,
      however consumers, retries, shrinks and other puts interleave. */
  lemma RetriesTerminate(
    policy: Policy, consumers: nat, run: seq<Event>, retryCount: int, s: State, k: nat)
    requires policy.Configured() && policy.currentMaxsize == policy.baseSize && policy.growEvents == 0
    requires Exec(Start(policy, consumers), run, retryCount) == Some(s)
    requires k < |s.accepted| && forall j :: 0 <= j < |s.accepted| && j != k ==> s.accepted[j].id != s.accepted[k].id
    ensures s.runs[s.accepted[k].id] + Outstanding(s, s.accepted[k].id, retryCount)
            <= Max(1, retryCount - s.accepted[k].retries)
  {
    var id := s.accepted[k].id;
    BusyNone(consumers);
    HandsNone(consumers, id, retryCount);
    RunsBounded(Start(policy, consumers), run, retryCount, id);
    WeightOnce(s.accepted, k, retryCount);
  }

  // ---------------- retries happen ----------------

  /** What the end of an execution does to its handler: a retryable failure below the limit sleeps with one retry more
      and is queued again at the end once there is room, still unfinished; any other end is the last. */
  lemma FinishExactly(s: State, c: nat, outcome: Outcome, retryCount: int)
    requires Enabled(s, Finish(c, outcome))
    ensures var task := s.consumers[c].task;
            var s' := Next(s, Finish(c, outcome), retryCount);
            && s'.core == s.core && |s'.consumers| == |s.consumers|
            && (forall k :: 0 <= k < |s.consumers| && k != c ==> s'.consumers[k] == s.consumers[k])
            && s'.consumers[c] == (if outcome == Failed && task.retryable && task.retries + 1 < retryCount
                                   then Sleeping(Task(task.id, task.retries + 1, task.retryable)) else Finishing)
  {
  }

  lemma RequeueExactly(s: State, c: nat, retryCount: int)
    requires Enabled(s, Requeue(c)) && s.core.Bounded()
    ensures var task := s.consumers[c].task;
            var s' := Next(s, Requeue(c), retryCount);
            if |s.core.items| < s.core.maxsize then
              && s'.core.items == s.core.items + [task] && s'.core.unfinished == s.core.unfinished + 1
              && s'.core.policy == s.core.policy && s'.consumers == s.consumers[c := Finishing]
            else s'.core == s.core && s'.consumers == s.consumers[c := Blocked(task)]
  {
  }

  /** Every execution of the task in this run fails in a way that asks for a retry. */
  ghost predicate AlwaysFails(s: State, run: seq<Event>, retryCount: int, id: TaskId)
    decreases |run|
  {
    run == [] || (
      && Enabled(s, run[0])
      && (run[0].Finish? && s.consumers[run[0].c].task.id == id ==> run[0].outcome == Failed)
      && AlwaysFails(Next(s, run[0], retryCount), run[1..], retryCount, id))
  }

  predicate Asks(task: Task, id: TaskId) {
    task.id == id ==> task.retryable
  }

  predicate AsksHand(c: Consumer, id: TaskId) {
    c.Running? || c.Sleeping? || c.Blocked? ==> Asks(c.task, id)
  }

  /** Wherever the task is, it is marked to retry. */
  ghost predicate AllAsk(s: State, id: TaskId) {
    && (forall k :: 0 <= k < |s.core.items| ==> Asks(s.core.items[k], id))
    && (forall k :: 0 <= k < |s.consumers| ==> AsksHand(s.consumers[k], id))
  }

  lemma AllAskStep(s: State, ev: Event, retryCount: int, id: TaskId)
    requires Enabled(s, ev) && s.core.Bounded() && AllAsk(s, id) && (ev.PutTask? ==> Asks(ev.task, id))
    ensures AllAsk(Next(s, ev, retryCount), id)
  {
    match ev
    case PutTask(task, now) => PutAccepts(s.core, task, now);
    case Take(_) => assert AsksHand(Running(s.core.items[0]), id);
    case Finish(c, _) => assert AsksHand(s.consumers[c], id);
    case Requeue(c) => assert AsksHand(s.consumers[c], id);
    case ShrinkTick(now) => TickBounded(s.core, now);
    case TaskDone(_) =>
  }

  /** A failure that asks for a retry uses up exactly one of the task's outstanding executions. */
  lemma FailureCosts(s: State, c: nat, retryCount: int, id: TaskId)
    requires Enabled(s, Finish(c, Failed)) && AllAsk(s, id) && s.consumers[c].task.id == id
    ensures Outstanding(Next(s, Finish(c, Failed), retryCount), id, retryCount) + 1 == Outstanding(s, id, retryCount)
  {
    assert AsksHand(s.consumers[c], id);
    HandsUpdate(s.consumers, c, Next(s, Finish(c, Failed), retryCount).consumers[c], id, retryCount);
  }

  lemma {:induction false} RunsAll(s: State, run: seq<Event>, retryCount: int, id: TaskId, budget: nat)
    requires CapacityInv(s) && AllAsk(s, id) && AlwaysFails(s, run, retryCount, id)
    requires forall k :: 0 <= k < |run| && run[k].PutTask? ==> run[k].task.id != id
    requires s.runs[id] + Outstanding(s, id, retryCount) == budget
    ensures Exec(s, run, retryCount).Some? ==>
              var s' := Exec(s, run, retryCount).value;
              s'.runs[id] + Outstanding(s', id, retryCount) == budget
    decreases |run|
  {
    if run != [] {
      var s' := Next(s, run[0], retryCount);
      CapacityStep(s, run[0], retryCount);
      AllAskStep(s, run[0], retryCount, id);
      RunsAllStep(s, run[0], retryCount, id);
      RunsAll(s', run[1..], retryCount, id, budget);
    }
  }

  lemma RunsAllStep(s: State, ev: Event, retryCount: int, id: TaskId)
    requires CapacityInv(s) && AllAsk(s, id) && Enabled(s, ev)
    requires ev.Finish? && s.consumers[ev.c].task.id == id ==> ev.outcome == Failed
    requires ev.PutTask? ==> ev.task.id != id
    ensures var s' := Next(s, ev, retryCount);
            s'.runs[id] + Outstanding(s', id, retryCount) == s.runs[id] + Outstanding(s, id, retryCount)
  {
    OutstandingStep(s, ev, retryCount, id);
    if ev.Finish? && s.consumers[ev.c].task.id == id {
      FailureCosts(s, ev.c, retryCount, id);
    }
    if ev.PutTask? {
      NewerWeight(s, ev, retryCount, id);
    }
  }

  lemma NewerWeight(s: State, ev: Event, retryCount: int, id: TaskId)
    requires Enabled(s, ev) && ev.PutTask? && ev.task.id != id
    ensures WeightOf(Next(s, ev, retryCount).accepted[|s.accepted|..], id, retryCount) == 0
  {
    var newer := Next(s, ev, retryCount).accepted[|s.accepted|..];
    assert newer == [] || newer == [ev.task];
  }

  /** A task that always fails, and asks for retries, is executed exactly max(1, retry count - the retries it came with)
      times: from the moment it is accepted, once nothing of it is queued or in hand any more, however the rest of the
      system interleaves. */
  lemma RetriesUsedUp(s: State, task: Task, now: real, run: seq<Event>, retryCount: int, end: State)
    requires CapacityInv(s) && task.retryable && s.runs[task.id] == 0
    requires Enabled(s, PutTask(task, now)) && s.core.Put(task, now).1
    requires AllAsk(s, task.id) && Outstanding(s, task.id, retryCount) == 0
    requires forall k :: 0 <= k < |run| && run[k].PutTask? ==> run[k].task.id != task.id
    requires AlwaysFails(Next(s, PutTask(task, now), retryCount), run, retryCount, task.id)
    requires Exec(Next(s, PutTask(task, now), retryCount), run, retryCount) == Some(end)
    ensures end.runs[task.id] + Outstanding(end, task.id, retryCount) == Max(1, retryCount - task.retries)
    ensures Outstanding(end, task.id, retryCount) == 0 ==> end.runs[task.id] == Max(1, retryCount - task.retries)
  {
    var put := PutTask(task, now);
    var s' := Next(s, put, retryCount);
    CapacityStep(s, put, retryCount);
    AllAskStep(s, put, retryCount, task.id);
    OutstandingStep(s, put, retryCount, task.id);
    assert s'.accepted[|s.accepted|..] == [task];
    RunsAll(s', run, retryCount, task.id, Max(1, retryCount - task.retries));
  }
}
