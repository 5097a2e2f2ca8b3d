/** qw/backends/dispatch.py: routing, and the retry loop around the poll loop. A backend may answer anything;
    what it has been asked is recorded in the fields of Backend. */
module Dispatching {
  import opened Common

  // ---------------- routing ----------------

  datatype Container = Docker | K8s

  datatype Target = Local | Remote(container: Container)

  datatype Config = Config(backend: Container, fireAndForget: bool, timeout: Option<real>)

  /** A task as the dispatcher sees it: the name found on it, if any, and its container_config. */
  datatype Job = Job(name: Option<string>, config: Option<Config>)

  datatype Mapping = Mapping(pattern: string, backend: Container)

  /** The containers that are configured, the mapping file, fnmatch, and whether the resource monitor
      (if there is one) answers that the worker overflows. */
  datatype Routing = Routing(
    available: set<Container>, mappings: seq<Mapping>, matches: (string, string) -> bool, overflow: bool)

  datatype Resolved = Chosen(target: Target) | NotConfigured(container: Container)

  predicate Hits(r: Routing, name: string, i: nat)
    requires i < |r.mappings|
  {
    r.matches(name, r.mappings[i].pattern)
  }

  predicate Serves(r: Routing, name: string, i: nat)
    requires i < |r.mappings|
  {
    Hits(r, name, i) && r.mappings[i].backend in r.available
  }

  /** The name the mappings are tried on; a task without a name, or with an empty one, matches nothing. */
  predicate Named(job: Job) {
    job.name.Some? && job.name.value != ""
  }

  /** Some mapping matches the job's name. */
  ghost predicate Mapped(r: Routing, job: Job) {
    Named(job) && exists i :: 0 <= i < |r.mappings| && Hits(r, job.name.value, i)
  }

  /** Some mapping matches the job's name and its container is configured. */
  ghost predicate Served(r: Routing, job: Job) {
    Named(job) && exists i :: 0 <= i < |r.mappings| && Serves(r, job.name.value, i)
  }

  /** Mapping i is the first to match the name with its container configured. */
  ghost predicate FirstServing(r: Routing, name: string, i: nat) {
    i < |r.mappings| && Serves(r, name, i) && forall j :: 0 <= j < i ==> !Serves(r, name, j)
  }

  predicate Overflows(r: Routing) {
    K8s in r.available && r.overflow
  }

  method MatchTaskMapping(r: Routing, name: string) returns (target: Option<Target>, ghost first: nat)
    ensures target.None? ==> forall i :: 0 <= i < |r.mappings| ==> !Serves(r, name, i)
    ensures target.Some? ==> FirstServing(r, name, first) && target.value == Remote(r.mappings[first].backend)
  {
    for i := 0 to |r.mappings|
      invariant forall j :: 0 <= j < i ==> !Serves(r, name, j)
    {
      if r.matches(name, r.mappings[i].pattern) {
        if r.mappings[i].backend in r.available {
          return Some(Remote(r.mappings[i].backend)), i;
        }
      }
    }
    target, first := None, 0;
  }

  /** The task's own config first, then the first mapping that matches and is configured, then overflow. */
  method ResolveBackend(r: Routing, job: Job) returns (resolved: Resolved)
    ensures job.config.Some? ==>
              resolved == if job.config.value.backend in r.available then Chosen(Remote(job.config.value.backend))
                          else NotConfigured(job.config.value.backend)
    ensures job.config.None? && Served(r, job) ==>
              exists i: nat :: FirstServing(r, job.name.value, i) && resolved == Chosen(Remote(r.mappings[i].backend))
    ensures job.config.None? && !Served(r, job) ==>
              resolved == Chosen(if K8s in r.available && r.overflow then Remote(K8s) else Local)
    ensures resolved.Chosen? && resolved.target.Remote? ==> resolved.target.container in r.available
    ensures resolved.NotConfigured? ==> resolved.container !in r.available && job.config.Some?
  {
    if job.config.Some? {
      var wanted := job.config.value.backend;
      return if wanted in r.available then Chosen(Remote(wanted)) else NotConfigured(wanted);
    }
    if Named(job) && r.mappings != [] {
      var target, first := MatchTaskMapping(r, job.name.value);
      if target.Some? {
        return Chosen(target.value);
      }
    }
    if K8s in r.available && r.overflow {
      return Chosen(Remote(K8s));
    }
    resolved := Chosen(Local);
  }

  method ShouldUseContainer(r: Routing, job: Job) returns (use: bool)
    ensures use <==> (K8s in r.available && r.overflow) || Mapped(r, job)
  {
    if Named(job) {
      for i := 0 to |r.mappings|
        invariant forall j :: 0 <= j < i ==> !Hits(r, job.name.value, j)
      {
        if r.matches(job.name.value, r.mappings[i].pattern) {
          assert Hits(r, job.name.value, i);
          return true;
        }
      }
    }
    use := K8s in r.available && r.overflow;
  }

  lemma ServedIsMapped(r: Routing, job: Job)
    ensures Served(r, job) ==> Mapped(r, job)
  {
    if Served(r, job) {
      var i :| 0 <= i < |r.mappings| && Serves(r, job.name.value, i);
      assert Hits(r, job.name.value, i);
    }
  }

  /** The quick check promises that a container backend would be selected. For a task without its own config it
      keeps that promise exactly when the worker overflows, or a matching mapping is configured, or none matches. */
  method QuickCheckExact(r: Routing, job: Job) returns (use: bool, resolved: Resolved)
    requires job.config.None?
    ensures resolved.Chosen?
    ensures use == resolved.target.Remote? <==> Overflows(r) || Served(r, job) || !Mapped(r, job)
  {
    use := ShouldUseContainer(r, job);
    resolved := ResolveBackend(r, job);
    ServedIsMapped(r, job);
  }

  /** A mapping to Docker on a worker without Docker: the quick check says container, the task runs locally. */
  method QuickCheckMisled() returns (use: bool, resolved: Resolved)
    ensures use && resolved == Chosen(Local)
  {
    var r := Routing({}, [Mapping("*", Docker)], (name, pattern) => true, false);
    var job := Job(Some("task"), None);
    use := ShouldUseContainer(r, job);
    assert Hits(r, "task", 0);
    resolved := ResolveBackend(r, job);
  }

  // ---------------- dispatch and track ----------------

  datatype Status = Pending | Active | Completed | Failed

  /** A poll that raised counts as a failed task. */
  predicate Ends(answer: Option<Status>) {
    answer.Some? ==> answer.value == Completed || answer.value == Failed
  }

  datatype TaskResult = TaskResult(id: Option<nat>, success: bool, error: string)

  /** How a dispatched task is let go: cancel, cleanup, or a cleanup scheduled for later. */
  datatype Ending = Cancelled(id: nat) | Cleaned(id: nat) | Scheduled(id: nat)

  /** What poll answered about a task, or None if it raised; and the same of get_result. */
  datatype Answer = Answer(id: nat, status: Option<Status>)

  datatype Fetch = Fetch(id: nat, result: Option<TaskResult>)

  /** One task followed to its end, from what poll said of it, in order: as long as that is pending or running the
      polls go on; any other answer, or an exception, ends them, and then the result is the fetched one, or a failure
      exactly if the fetch raised, and the task is cleaned up. Without such an answer the task is cancelled and the
      result is a failure. */
  ghost predicate Followed(
    id: nat, heard: seq<Option<Status>>, ending: Ending, fetched: seq<Fetch>, result: TaskResult)
  {
    && (forall k :: 0 <= k < |heard| - 1 ==> heard[k] == Some(Pending) || heard[k] == Some(Active))
    && if heard != [] && heard[|heard| - 1] != Some(Pending) && heard[|heard| - 1] != Some(Active) then
         && ending == Cleaned(id)
         && |fetched| == 1 && fetched[0].id == id
         && result == match fetched[0].result
                      case Some(r) => r
                      case None => TaskResult(Some(id), false, "get_result failed")
       else
         ending == Cancelled(id) && fetched == [] && result == TaskResult(Some(id), false, "timed out")
  }

  /** A backend and the clock. Every call may take time, may fail, and may answer anything. */
  class Backend {
    const tick: real               // the least time a poll takes
    var clock: real
    var attempts: nat              // calls of dispatch
    var dispatched: seq<nat>       // ids that dispatch returned
    var ended: seq<Ending>
    var answers: seq<Answer>
    var fetches: seq<Fetch>
    var terminal: set<nat>         // ids whose last poll answered, or by failing meant, completed or failed
    var polls: nat
    var lastPoll: real
    var nextId: nat

    ghost predicate Valid()
      reads this
    {
      && tick > 0.0 && lastPoll <= clock && Distinct(dispatched)
      && forall id :: id in dispatched || id in terminal ==> id < nextId
    }

    method Pass()
      requires Valid()
      modifies this`clock
      ensures Valid() && clock >= old(clock)
    {
      var d: real := *;
      if d > 0.0 {
        clock := clock + d;
      }
    }

    method Sleep(d: real)
      requires Valid()
      modifies this`clock
      ensures Valid() && clock >= old(clock) + d && clock >= old(clock)
    {
      if d > 0.0 {
        clock := clock + d;
      }
      Pass();
    }

    /** None is an exception. Every id is new. */
    method Dispatch() returns (id: Option<nat>)
      requires Valid()
      modifies this`clock, this`attempts, this`dispatched, this`nextId
      ensures Valid() && clock >= old(clock) && attempts == old(attempts) + 1
      ensures id.None? ==> dispatched == old(dispatched)
      ensures id.Some? ==>
                id.value !in old(dispatched) && id.value !in terminal && dispatched == old(dispatched) + [id.value]
    {
      attempts := attempts + 1;
      Pass();
      var ok: bool := *;
      if !ok {
        return None;
      }
      id := Some(nextId);
      assert nextId !in dispatched;
      dispatched := dispatched + [nextId];
      nextId := nextId + 1;
    }

    /** None is an exception, which the caller takes for a failure of the task. */
    method Poll(id: nat) returns (status: Option<Status>)
      requires Valid() && id in dispatched
      modifies this`clock, this`polls, this`lastPoll, this`terminal, this`answers
      ensures answers == old(answers) + [Answer(id, status)]
      ensures Valid() && clock >= old(clock) + tick && polls == old(polls) + 1 && lastPoll == old(clock)
      ensures terminal == if Ends(status) then old(terminal) + {id} else old(terminal) - {id}
    {
      polls, lastPoll := polls + 1, clock;
      clock := clock + tick;
      Pass();
      status := *;
      answers := answers + [Answer(id, status)];
      terminal := if Ends(status) then terminal + {id} else terminal - {id};
    }

    method Cancel(id: nat)
      requires Valid() && id !in terminal
      modifies this`clock, this`ended
      ensures Valid() && clock >= old(clock) && ended == old(ended) + [Cancelled(id)]
    {
      ended := ended + [Cancelled(id)];
      Pass();
    }

    /** The contract of BaseExecutionBackend.get_result: the task must have ended. None is an exception. */
    method GetResult(id: nat) returns (result: Option<TaskResult>)
      requires Valid() && id in terminal
      modifies this`clock, this`fetches
      ensures Valid() && clock >= old(clock) && fetches == old(fetches) + [Fetch(id, result)]
    {
      Pass();
      result := *;
      fetches := fetches + [Fetch(id, result)];
    }

    method Cleanup(id: nat)
      requires Valid()
      modifies this`clock, this`ended
      ensures Valid() && clock >= old(clock) && ended == old(ended) + [Cleaned(id)]
    {
      ended := ended + [Cleaned(id)];
      Pass();
    }

    method ScheduleCleanup(id: nat)
      modifies this`ended
      ensures ended == old(ended) + [Scheduled(id)]
    {
      ended := ended + [Scheduled(id)];
    }
  }

  /** n steps of the given length, one after the other. */
  function Steps(n: nat, step: real): real {
    if n == 0 then 0.0 else Steps(n - 1, step) + step
  }

  lemma {:induction false} StepsIs(n: nat, step: real)
    ensures Steps(n, step) == n as real * step
  {
    if n > 0 {
      StepsIs(n - 1, step);
      assert n as real * step == (n - 1) as real * step + step;
    }
  }

  lemma ProductPositive(a: real, b: real)
    requires a > 0.0 && b > 0.0
    ensures a * b > 0.0
  {
  }

  lemma QuotientDrops(a: real, b: real, step: real)
    requires step > 0.0 && a - b >= step
    ensures b / step <= a / step - 1.0
  {
    var x := a / step - b / step;
    assert x * step == a - b;
    if x < 1.0 {
      ProductPositive(1.0 - x, step);
    }
  }

  lemma ProductSign(a: real, b: real)
    requires b > 0.0
    ensures a <= 0.0 ==> a * b <= 0.0
  {
  }

  lemma QuotientPositive(a: real, b: real)
    requires b > 0.0 && a > 0.0
    ensures a / b > 0.0
  {
    ProductSign(a / b, b);
    assert (a / b) * b == a;
  }

  /** How many steps fit before the deadline, rounded up or one more. */
  function Rounds(left: real, step: real): nat
    requires step > 0.0
  {
    if left / step <= 0.0 then 0 else (left / step).Floor + 1
  }

  lemma RoundsDrop(left: real, step: real, passed: real)
    requires step > 0.0 && left > 0.0 && passed >= step
    ensures Rounds(left - passed, step) < Rounds(left, step)
  {
    QuotientDrops(left, left - passed, step);
    QuotientPositive(left, step);
  }

  class BackendDispatcher {
    const retryCount: int
    const retryInterval: real
    const pollInterval: real
    const defaultTimeout: real

    constructor (retryCount: int, retryInterval: real, pollInterval: real, defaultTimeout: real)
      ensures this.retryCount == retryCount && this.retryInterval == retryInterval
      ensures this.pollInterval == pollInterval && this.defaultTimeout == defaultTimeout
    {
      this.retryCount, this.retryInterval := retryCount, retryInterval;
      this.pollInterval, this.defaultTimeout := pollInterval, defaultTimeout;
    }

    /** The last of n polls since the start came before the deadline, and n - 1 steps after the start or later. */
    static ghost predicate Polled(b: Backend, n: nat, start: real, deadline: real, step: real)
      reads b
    {
      b.clock >= start && (n > 0 ==> b.lastPoll >= start + Steps(n - 1, step) && b.lastPoll < deadline)
    }

    /** Besides, a step has passed since the last poll. */
    static ghost predicate Spaced(b: Backend, n: nat, start: real, deadline: real, step: real)
      reads b
    {
      Polled(b, n, start, deadline, step) && (n > 0 ==> b.clock >= b.lastPoll + step)
    }

    static function AnswersOf(id: nat, heard: seq<Option<Status>>): seq<Answer> {
      seq(|heard|, k requires 0 <= k < |heard| => Answer(id, heard[k]))
    }

    static lemma MoreAnswers(id: nat, heard: seq<Option<Status>>, status: Option<Status>)
      ensures AnswersOf(id, heard + [status]) == AnswersOf(id, heard) + [Answer(id, status)]
    {
    }

    /** The poll loop: it stops at the first answer that is neither pending nor running, or at the deadline. */
    method PollLoop(b: Backend, id: nat, start: real, deadline: real, ghost n0: nat, ghost step: real)
      returns (status: Status, ghost heard: seq<Option<Status>>)
      requires b.Valid() && id in b.dispatched && id !in b.terminal && step <= pollInterval
      requires Spaced(b, n0, start, deadline, step)
      modifies b`clock, b`polls, b`lastPoll, b`terminal, b`answers
      ensures b.Valid() && b.clock >= old(b.clock) && Polled(b, n0 + |heard|, start, deadline, step)
      ensures b.answers == old(b.answers) + AnswersOf(id, heard) && b.polls == old(b.polls) + |heard|
      ensures forall k :: 0 <= k < |heard| - 1 ==> heard[k] == Some(Pending) || heard[k] == Some(Active)
      ensures old(b.clock) < deadline <==> heard != []
      ensures status == Completed || status == Failed <==>
                heard != [] && heard[|heard| - 1] != Some(Pending) && heard[|heard| - 1] != Some(Active)
      ensures status == Completed || status == Failed <==> id in b.terminal
      ensures status == Completed || status == Failed || b.clock >= deadline
      ensures forall x :: x in b.terminal && x != id ==> x in old(b.terminal)
    {
      status, heard := Pending, [];
      while b.clock < deadline
        invariant b.Valid() && b.clock >= old(b.clock) && Spaced(b, n0 + |heard|, start, deadline, step)
        invariant b.answers == old(b.answers) + AnswersOf(id, heard) && b.polls == old(b.polls) + |heard|
        invariant status == Pending || status == Active
        invariant forall k :: 0 <= k < |heard| ==> heard[k] == Some(Pending) || heard[k] == Some(Active)
        invariant heard == [] ==> b.clock == old(b.clock)
        invariant heard != [] ==> old(b.clock) < deadline
        invariant id !in b.terminal
        invariant forall x :: x in b.terminal && x != id ==> x in old(b.terminal)
        decreases Rounds(deadline - b.clock, b.tick)
      {
        ghost var before := b.clock;
        var answer := b.Poll(id);
        status := if answer.Some? then answer.value else Failed;
        MoreAnswers(id, heard, answer);
        heard := heard + [answer];
        if status.Completed? || status.Failed? {
          break;
        }
        b.Sleep(pollInterval);
        RoundsDrop(deadline - before, b.tick, b.clock - before);
      }
    }

    /** Polls one dispatch until it ends or the deadline passes, and ends it exactly once. It is cancelled only past
        the deadline, and polled at least once if it started before it. */
    method PollUntilDone(b: Backend, id: nat, start: real, deadline: real, ghost n0: nat, ghost step: real)
      returns (
        result: TaskResult, ghost n: nat, ghost heard: seq<Option<Status>>, ghost ending: Ending,
        ghost fetched: seq<Fetch>)
      requires b.Valid() && id in b.dispatched && id !in b.terminal && step <= pollInterval
      requires Spaced(b, n0, start, deadline, step)
      modifies b`clock, b`polls, b`lastPoll, b`terminal, b`ended, b`answers, b`fetches
      ensures b.Valid() && b.clock >= old(b.clock)
      ensures Followed(id, heard, ending, fetched, result)
      ensures b.answers == old(b.answers) + AnswersOf(id, heard) && b.fetches == old(b.fetches) + fetched
      ensures b.ended == old(b.ended) + [ending]
      ensures ending.Cancelled? ==> b.clock >= deadline
      ensures old(b.clock) < deadline <==> heard != []
      ensures b.polls == old(b.polls) + |heard| && n == n0 + |heard| && Polled(b, n, start, deadline, step)
      ensures forall x :: x in b.terminal && x != id ==> x in old(b.terminal)
    {
      var status;
      status, heard := PollLoop(b, id, start, deadline, n0, step);
      n, fetched := n0 + |heard|, [];
      if b.clock >= deadline && !status.Completed? && !status.Failed? {
        b.Cancel(id);
        ending := Cancelled(id);
        return TaskResult(Some(id), false, "timed out"), n, heard, ending, fetched;
      }
      var got := b.GetResult(id);
      fetched := [Fetch(id, got)];
      result := if got.Some? then got.value else TaskResult(Some(id), false, "get_result failed");
      b.Cleanup(id);
      ending := Cleaned(id);
    }

    function Step(): real {
      if pollInterval <= retryInterval then pollInterval else retryInterval
    }

    function TimeoutOf(job: Job): real {
      if job.config.Some? && job.config.value.timeout.Some? then job.config.value.timeout.value else defaultTimeout
    }

    /** One turn of the retry loop: dispatch, and follow the task to its end or schedule its cleanup. Its result is
        final if it is a success or this turn is the last; otherwise the loop goes on, a step past the last poll. */
    method Attempt(
      b: Backend, attempt: nat, fireAndForget: bool, start: real, deadline: real, ghost n0: nat, ghost step: real)
      returns (
        result: Option<TaskResult>, error: string, ghost id: Option<nat>, ghost n: nat, ghost endings: seq<Ending>,
        ghost fetched: seq<Fetch>)
      requires b.Valid() && step <= pollInterval && step <= retryInterval
      requires Spaced(b, n0, start, deadline, step)
      modifies b
      ensures b.Valid() && b.attempts == old(b.attempts) + 1
      ensures b.ended == old(b.ended) + endings && b.fetches == old(b.fetches) + fetched
      ensures id.None? ==> result.None? && b.dispatched == old(b.dispatched) && endings == [] && fetched == []
      ensures id.Some? ==> id.value !in old(b.dispatched) && b.dispatched == old(b.dispatched) + [id.value]
      ensures id.Some? && fireAndForget ==>
                endings == [Scheduled(id.value)] && fetched == [] && result == Some(TaskResult(id, true, ""))
      ensures id.Some? && !fireAndForget ==>
                && (endings == [Cleaned(id.value)] || endings == [Cancelled(id.value)])
                && exists heard, followed ::
                     && Followed(id.value, heard, endings[0], fetched, followed)
                     && (result == if followed.success || attempt >= retryCount - 1 then Some(followed) else None)
                     && (result.None? ==> error == followed.error)
      ensures b.polls == old(b.polls) + (n - n0) && n >= n0 && (fireAndForget ==> n == n0)
      ensures Polled(b, n, start, deadline, step)
      ensures result.None? ==> Spaced(b, n, start, deadline, step)
    {
      n, error, result, endings, fetched := n0, "", None, [], [];
      var dispatched := b.Dispatch();
      id := dispatched;
      if dispatched.None? {
        if attempt < retryCount - 1 {
          b.Sleep(retryInterval);
        }
        return None, "dispatch failed", id, n, endings, fetched;
      }
      if fireAndForget {
        b.ScheduleCleanup(dispatched.value);
        endings := [Scheduled(dispatched.value)];
        return Some(TaskResult(dispatched, true, "")), "", id, n, endings, fetched;
      }
      var followed: TaskResult;
      ghost var heard, ending;
      followed, n, heard, ending, fetched := PollUntilDone(b, dispatched.value, start, deadline, n0, step);
      endings := [ending];
      assert Followed(id.value, heard, endings[0], fetched, followed);
      if followed.success || attempt >= retryCount - 1 {
        return Some(followed), "", id, n, endings, fetched;
      }
      b.Sleep(retryInterval);
      error := followed.error;
    }

    /** Retries around the poll loop, all against one deadline. At most max(1, retry count) dispatch calls, and exactly
        so many unless one of them brings success, which ends the call at once. Dispatches that succeed are ended
        exactly once each, in order; with fire-and-forget the first of them is the last. The polls of all attempts
        together fit the deadline: polls less one, times min(poll interval, retry interval), is less than the
        timeout. */
    method DispatchAndTrack(b: Backend, job: Job)
      returns (result: TaskResult, ghost ids: seq<nat>, ghost endings: seq<Ending>, ghost fetched: seq<Fetch>)
      requires b.Valid()
      modifies b
      ensures b.Valid()
      ensures old(b.attempts) < b.attempts <= old(b.attempts) + Max(1, retryCount)
      ensures !result.success ==> b.attempts == old(b.attempts) + Max(1, retryCount)
      ensures b.dispatched == old(b.dispatched) + ids && b.ended == old(b.ended) + endings
      ensures b.fetches == old(b.fetches) + fetched
      ensures |endings| == |ids| && forall k :: 0 <= k < |ids| ==> endings[k].id == ids[k]
      ensures b.polls >= old(b.polls)
      ensures b.polls > old(b.polls) ==>
                Steps(b.polls - old(b.polls) - 1, if pollInterval <= retryInterval then pollInterval else retryInterval)
                < if job.config.Some? && job.config.value.timeout.Some? then job.config.value.timeout.value
                  else defaultTimeout
      ensures job.config.Some? && job.config.value.fireAndForget ==>
                && b.polls == old(b.polls) && fetched == []
                && (result.success <==> ids != [])
                && (ids != [] ==>
                     |ids| == 1 && endings == [Scheduled(ids[0])] && result == TaskResult(Some(ids[0]), true, ""))
      ensures !(job.config.Some? && job.config.value.fireAndForget) ==>
                && (forall k :: 0 <= k < |endings| ==> !endings[k].Scheduled?)
                && (forall k :: 0 <= k < |fetched| - 1 ==> !Succeeds(fetched[k]))
                && (result.success <==> fetched != [] && Succeeds(fetched[|fetched| - 1]))
                && (result.success ==> fetched[|fetched| - 1].result == Some(result) && endings != []
                                       && endings[|endings| - 1] == Cleaned(fetched[|fetched| - 1].id))
    {
      var fireAndForget := job.config.Some? && job.config.value.fireAndForget;
      var start := b.clock;
      var deadline := start + TimeoutOf(job);
      ghost var n: nat := 0;
      var lastError := "";
      ids, endings, fetched := [], [], [];
      for attempt := 0 to Max(1, retryCount)
        invariant b.Valid() && b.attempts == old(b.attempts) + attempt
        invariant b.dispatched == old(b.dispatched) + ids && b.ended == old(b.ended) + endings
        invariant b.fetches == old(b.fetches) + fetched
        invariant |endings| == |ids| && forall k :: 0 <= k < |ids| ==> endings[k].id == ids[k]
        invariant b.polls == old(b.polls) + n && Spaced(b, n, start, deadline, Step())
        invariant fireAndForget ==> n == 0 && ids == [] && fetched == []
        invariant !fireAndForget ==> forall k :: 0 <= k < |endings| ==> !endings[k].Scheduled?
        invariant forall k :: 0 <= k < |fetched| ==> !Succeeds(fetched[k])
      {
        var done, error;
        ghost var id, es, fs;
        done, error, id, n, es, fs := Attempt(b, attempt, fireAndForget, start, deadline, n, Step());
        if id.Some? {
          ids := ids + [id.value];
        }
        endings, fetched := endings + es, fetched + fs;
        if done.Some? {
          return done.value, ids, endings, fetched;
        }
        lastError := error;
      }
      result := TaskResult(None, false, if lastError == "" then "All dispatch attempts failed" else lastError);
    }

    static predicate Succeeds(f: Fetch) {
      f.result.Some? && f.result.value.success
    }
  }

  function Ceiling(x: real): int {
    -(-x).Floor
  }

  /** What the bound on the polls comes to: at most the timeout over the interval, rounded up. */
  lemma PollsRoundUp(polls: nat, timeout: real, step: real)
    requires step > 0.0 && polls > 0 && Steps(polls - 1, step) < timeout
    ensures timeout > 0.0 && polls <= Ceiling(timeout / step)
  {
    StepsIs(polls - 1, step);
    ProductBelow((polls - 1) as real, timeout, step);
    ProductNotNegative((polls - 1) as real, step);
  }

  lemma ProductNotNegative(a: real, b: real)
    requires a >= 0.0 && b > 0.0
    ensures a * b >= 0.0
  {
  }

  lemma ProductBelow(a: real, b: real, step: real)
    requires step > 0.0 && a * step < b
    ensures a < b / step
  {
    QuotientPositive(b - a * step, step);
    assert (b - a * step) / step == b / step - a;
  }
}
