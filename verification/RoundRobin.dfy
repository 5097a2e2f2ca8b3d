/** qw/client.py: get_connection takes the next worker of the cycle until one accepts. Refusals are counted by worker;
    no success ever resets a count. */
module RoundRobin {
  import opened Common

  type Worker = nat

  const MAX_RETRY_COUNT: nat := 5

  /** How one attempt ends: connected and validated; or DiscardedTask, asyncio.TimeoutError, ConnectionRefusedError,
      another OSError, or any other exception. */
  datatype Outcome = Connected | Discarded | TimedOut | Refused | OsError | Unexpected

  /** How the call ends. Waiting: the outcomes at hand are used up and it goes on. */
  datatype Result =
    Connection(worker: Worker) | NoWorkers | TaskDiscarded | MaxRetries(worker: Worker) | UnexpectedError | Waiting

  /** The cycle iterator, from the next worker on, and _num_retries. */
  datatype Client = Client(ring: seq<Worker>, retries: map<Worker, nat>)

  datatype Call = Call(client: Client, result: Result, attempts: nat)

  predicate Counted(o: Outcome) {
    o.Refused? || o.OsError?
  }

  /** defaultdict(int) */
  function Retries(retries: map<Worker, nat>, w: Worker): nat {
    if w in retries then retries[w] else 0
  }

  function Bump(retries: map<Worker, nat>, w: Worker): map<Worker, nat> {
    retries[w := Retries(retries, w) + 1]
  }

  function Turned(ring: seq<Worker>): seq<Worker>
    requires ring != []
  {
    ring[1..] + [ring[0]]
  }

  function Ended(o: Outcome, w: Worker, retries: map<Worker, nat>): Result {
    match o
    case Connected => Connection(w)
    case Discarded => TaskDiscarded
    case TimedOut => Waiting
    case Unexpected => UnexpectedError
    case _ => if Retries(retries, w) >= MAX_RETRY_COUNT then MaxRetries(w) else Waiting
  }

  function AfterAttempt(c: Client, o: Outcome): Client
    requires c.ring != []
  {
    Client(Turned(c.ring), if Counted(o) then Bump(c.retries, c.ring[0]) else c.retries)
  }

  function Later(call: Call, attempts: nat): Call {
    call.(attempts := call.attempts + attempts)
  }

  /** One call against the outcomes that its attempts will meet. */
  function Connect(c: Client, outcomes: seq<Outcome>): Call
    decreases |outcomes|
  {
    if c.ring == [] then Call(c, NoWorkers, 0)
    else if outcomes == [] then Call(c, Waiting, 0)
    else
      var ended := Ended(outcomes[0], c.ring[0], c.retries);
      var after := AfterAttempt(c, outcomes[0]);
      if ended.Waiting? then Later(Connect(after, outcomes[1..]), 1) else Call(after, ended, 1)
  }

  /** The cycle after n turns. */
  function CycleAt(ring: seq<Worker>, n: nat): seq<Worker>
    requires ring != []
  {
    ring[n % |ring|..] + ring[..n % |ring|]
  }

  /** Every one of the first n outcomes leaves the call to go on. */
  ghost predicate GoesOn(outcomes: seq<Outcome>, n: int) {
    n <= |outcomes| && forall k :: 0 <= k < n ==> Goes(outcomes[k])
  }

  predicate Goes(o: Outcome) {
    o == TimedOut || o == Refused || o == OsError
  }

  /** What the last of so many attempts makes of the call, with the counters after it. */
  ghost predicate EndsAs(
    ring: seq<Worker>, outcomes: seq<Outcome>, result: Result, attempts: nat, retries: map<Worker, nat>)
  {
    && ring != [] && attempts <= |outcomes|
    && if attempts == 0 then result == Waiting && outcomes == []
       else
         var w := ring[(attempts - 1) % |ring|];
         match outcomes[attempts - 1]
         case Connected => result == Connection(w)
         case Discarded => result == TaskDiscarded
         case Unexpected => result == UnexpectedError
         case TimedOut => result == Waiting && attempts == |outcomes|
         case Refused => RefusedEnd(result, w, retries, attempts == |outcomes|)
         case OsError => RefusedEnd(result, w, retries, attempts == |outcomes|)
  }

  ghost predicate RefusedEnd(result: Result, w: Worker, retries: map<Worker, nat>, used: bool) {
    if Retries(retries, w) > 5 then result == MaxRetries(w) else result == Waiting && used
  }

  /** The attempts, of the first n, that were refused at worker w. */
  function RefusedAt(ring: seq<Worker>, outcomes: seq<Outcome>, n: nat, w: Worker): set<nat>
    requires n <= |outcomes|
  {
    set k: nat | k < n && (outcomes[k] == Refused || outcomes[k] == OsError) && ring != [] && ring[k % |ring|] == w
  }

  lemma RefusedOnce(ring: seq<Worker>, outcomes: seq<Outcome>, n: nat, w: Worker)
    requires n < |outcomes| && ring != []
    ensures |RefusedAt(ring, outcomes, n + 1, w)| == |RefusedAt(ring, outcomes, n, w)|
            + if (outcomes[n] == Refused || outcomes[n] == OsError) && ring[n % |ring|] == w then 1 else 0
  {
    var before, after := RefusedAt(ring, outcomes, n, w), RefusedAt(ring, outcomes, n + 1, w);
    if n in after {
      assert after == before + {n};
    } else {
      assert after == before;
    }
  }

  class QClient {
    var workerList: seq<Worker>
    var numRetries: map<Worker, nat>

    constructor (workers: seq<Worker>)
      ensures State() == Client(workers, map[])
    {
      workerList, numRetries := workers, map[];
    }

    function State(): Client
      reads this
    {
      Client(workerList, numRetries)
    }

    /** next() on the cycle; nothing when it is empty. */
    method RoundRobinWorker() returns (worker: Option<Worker>)
      modifies this`workerList
      ensures old(workerList) == [] ==> worker.None? && workerList == []
      ensures old(workerList) != [] ==> worker == Some(old(workerList)[0]) && workerList == Turned(old(workerList))
    {
      if workerList == [] {
        return None;
      }
      worker := Some(workerList[0]);
      workerList := workerList[1..] + [workerList[0]];
    }

    /** Attempt k goes to worker k of the cycle. Timeouts and refusals make the call go on; the first outcome of
        another kind ends it in its own way; a refusal ends it once its worker has been refused more than five times.
        Each counter grows by the refusals met at its worker. */
    method GetConnection(outcomes: seq<Outcome>) returns (result: Result, attempts: nat)
      modifies this
      ensures Call(State(), result, attempts) == Connect(old(State()), outcomes)
      ensures attempts <= |outcomes|
      ensures old(workerList) == [] ==> result == NoWorkers && attempts == 0 && State() == old(State())
      ensures old(workerList) != [] ==>
                && workerList == CycleAt(old(workerList), attempts)
                && GoesOn(outcomes, attempts - 1)
                && EndsAs(old(workerList), outcomes, result, attempts, numRetries)
      ensures forall w :: Retries(numRetries, w) == old(Retries(numRetries, w))
                + |RefusedAt(old(workerList), outcomes, attempts, w)|
    {
      CallIs(State(), outcomes);
      result, attempts := TryWorkers(outcomes);
    }

    /** The loop of get_connection. */
    method TryWorkers(outcomes: seq<Outcome>) returns (result: Result, attempts: nat)
      modifies this
      ensures Call(State(), result, attempts) == Connect(old(State()), outcomes)
    {
      attempts := 0;
      while true
        invariant attempts <= |outcomes|
        invariant Connect(old(State()), outcomes) == Later(Connect(State(), outcomes[attempts..]), attempts)
        decreases |outcomes| - attempts
      {
        if workerList != [] && attempts == |outcomes| {
          return Waiting, attempts;
        }
        var worker := RoundRobinWorker();
        if worker.None? {
          return NoWorkers, attempts;
        }
        var outcome := outcomes[attempts];
        attempts := attempts + 1;
        match outcome
        case Connected =>
          return Connection(worker.value), attempts;
        case Discarded =>
          return TaskDiscarded, attempts;
        case TimedOut =>
        case Unexpected =>
          return UnexpectedError, attempts;
        case _ =>
          numRetries := Bump(numRetries, worker.value);
          if numRetries[worker.value] > MAX_RETRY_COUNT {
            return MaxRetries(worker.value), attempts;
          }
      }
    }
  }

  // ---------------- the cycle ----------------

  lemma AtLeast(d: int, m: nat)
    requires d >= 1
    ensures d * m >= m
  {
    assert (d - 1) * m >= 0;
  }

  lemma ModUnique(x: nat, q: int, r: nat, m: nat)
    requires r < m && x == q * m + r
    ensures x % m == r
  {
    var d := x / m - q;
    assert x == (x / m) * m + x % m;
    assert d * m == r - x % m;
    if d >= 1 {
      AtLeast(d, m);
    } else if d <= -1 {
      assert (-d) * m == -(d * m);
      AtLeast(-d, m);
    }
  }

  lemma NextPlace(n: nat, m: nat)
    requires m > 0
    ensures (n + 1) % m == if n % m == m - 1 then 0 else n % m + 1
  {
    var q, r := n / m, n % m;
    assert n == q * m + r;
    if r == m - 1 {
      assert (q + 1) * m == q * m + m;
      ModUnique(n + 1, q + 1, 0, m);
    } else {
      ModUnique(n + 1, q, r + 1, m);
    }
  }

  lemma TurnedAt(ring: seq<Worker>, n: nat)
    requires ring != []
    ensures Turned(ring)[n % |ring|] == ring[(n + 1) % |ring|]
    ensures CycleAt(Turned(ring), n) == CycleAt(ring, n + 1)
  {
    NextPlace(n, |ring|);
    var at, next := n % |ring|, (n + 1) % |ring|;
    var turned := Turned(ring);
    if next == 0 {
      assert turned[at..] == [ring[0]] && turned[..at] == ring[1..];
    } else {
      assert turned[at..] == ring[next..] + [ring[0]];
      assert turned[..at] == ring[1..next];
      assert ring[..next] == [ring[0]] + ring[1..next];
    }
  }

  /** What a call is, outcome by outcome. */
  lemma CallIs(c: Client, outcomes: seq<Outcome>)
    ensures Connect(c, outcomes).attempts <= |outcomes|
    ensures c.ring == [] ==> Connect(c, outcomes) == Call(c, NoWorkers, 0)
    ensures c.ring != [] ==> CallEnds(c, outcomes, Connect(c, outcomes))
    ensures forall w :: Retries(Connect(c, outcomes).client.retries, w)
              == Retries(c.retries, w) + |RefusedAt(c.ring, outcomes, Connect(c, outcomes).attempts, w)|
  {
    AttemptsFit(c, outcomes);
    if c.ring != [] {
      CallEndsSo(c, outcomes);
    }
    var n := Connect(c, outcomes).attempts;
    forall w
      ensures Retries(Connect(c, outcomes).client.retries, w)
              == Retries(c.retries, w) + |RefusedAt(c.ring, outcomes, n, w)|
    {
      CounterGrows(c, outcomes, w);
      MetIsCount(c.ring, outcomes, n, w);
    }
  }

  ghost predicate CallEnds(c: Client, outcomes: seq<Outcome>, call: Call) {
    && c.ring != [] && call.attempts <= |outcomes|
    && call.client.ring == CycleAt(c.ring, call.attempts)
    && GoesOn(outcomes, call.attempts - 1)
    && EndsAs(c.ring, outcomes, call.result, call.attempts, call.client.retries)
  }

  lemma {:induction false} CallEndsSo(c: Client, outcomes: seq<Outcome>)
    requires c.ring != []
    ensures CallEnds(c, outcomes, Connect(c, outcomes))
    decreases |outcomes|
  {
    TurnedOnce(c.ring);
    if outcomes != [] && Ended(outcomes[0], c.ring[0], c.retries).Waiting? {
      CallEndsSo(AfterAttempt(c, outcomes[0]), outcomes[1..]);
      CallGoesOn(c, outcomes, Connect(AfterAttempt(c, outcomes[0]), outcomes[1..]));
    }
  }

  lemma TurnedOnce(ring: seq<Worker>)
    requires ring != []
    ensures CycleAt(ring, 0) == ring && CycleAt(ring, 1) == Turned(ring)
    ensures ring[0 % |ring|] == ring[0]
  {
    ModUnique(0, 0, 0, |ring|);
    TurnedAt(ring, 0);
  }

  lemma GoesOnLater(outcomes: seq<Outcome>, n: nat)
    requires outcomes != [] && Goes(outcomes[0]) && GoesOn(outcomes[1..], n)
    ensures GoesOn(outcomes, n + 1)
  {
    forall k | 0 <= k < n + 1
      ensures Goes(outcomes[k])
    {
      if k > 0 {
        assert outcomes[1..][k - 1] == outcomes[k];
      }
    }
  }

  lemma EndsLater(
    ring: seq<Worker>, outcomes: seq<Outcome>, result: Result, attempts: nat, retries: map<Worker, nat>)
    requires ring != [] && outcomes != [] && attempts > 0
    requires EndsAs(Turned(ring), outcomes[1..], result, attempts, retries)
    ensures EndsAs(ring, outcomes, result, attempts + 1, retries)
  {
    TurnedAt(ring, attempts - 1);
    assert outcomes[1..][attempts - 1] == outcomes[attempts];
  }

  lemma CallGoesOn(c: Client, outcomes: seq<Outcome>, rest: Call)
    requires c.ring != [] && outcomes != [] && Ended(outcomes[0], c.ring[0], c.retries).Waiting?
    requires CallEnds(AfterAttempt(c, outcomes[0]), outcomes[1..], rest)
    requires rest.attempts == 0 ==> rest.client == AfterAttempt(c, outcomes[0])
    ensures CallEnds(c, outcomes, Later(rest, 1))
  {
    TurnedAt(c.ring, rest.attempts);
    if rest.attempts > 0 {
      GoesOnLater(outcomes, rest.attempts - 1);
      EndsLater(c.ring, outcomes, rest.result, rest.attempts, rest.client.retries);
    } else {
      TurnedOnce(c.ring);
    }
  }

  lemma {:induction false} AtAppend(ring: seq<Worker>, outcomes: seq<Outcome>, o: Outcome, w: Worker)
    requires ring != []
    ensures At(ring, outcomes + [o], w)
            == At(ring, outcomes, w) + if Counted(o) && ring[|outcomes| % |ring|] == w then 1 else 0
    decreases |outcomes|
  {
    if outcomes == [] {
      TurnedOnce(ring);
      assert outcomes + [o] == [o] && [o][1..] == [];
    } else {
      assert (outcomes + [o])[1..] == outcomes[1..] + [o];
      AtAppend(Turned(ring), outcomes[1..], o, w);
      TurnedAt(ring, |outcomes| - 1);
    }
  }

  lemma {:induction false} MetIsCount(ring: seq<Worker>, outcomes: seq<Outcome>, n: nat, w: Worker)
    requires n <= |outcomes|
    ensures At(ring, outcomes[..n], w) == |RefusedAt(ring, outcomes, n, w)|
    decreases n
  {
    if ring == [] || n == 0 {
      assert RefusedAt(ring, outcomes, n, w) == {};
    } else {
      MetIsCount(ring, outcomes, n - 1, w);
      assert outcomes[..n] == outcomes[..n - 1] + [outcomes[n - 1]];
      AtAppend(ring, outcomes[..n - 1], outcomes[n - 1], w);
      RefusedOnce(ring, outcomes, n - 1, w);
    }
  }

  // ---------------- refusals are bounded ----------------

  /** How many refusals the workers of the ring have left before one raises. */
  function Slack(ring: seq<Worker>, retries: map<Worker, nat>): nat {
    if ring == [] then 0
    else (if Retries(retries, ring[0]) < MAX_RETRY_COUNT then MAX_RETRY_COUNT - Retries(retries, ring[0]) else 0)
         + Slack(ring[1..], retries)
  }

  function Refusals(outcomes: seq<Outcome>): nat {
    if outcomes == [] then 0 else (if Counted(outcomes[0]) then 1 else 0) + Refusals(outcomes[1..])
  }

  lemma {:induction false} SlackAppend(xs: seq<Worker>, ys: seq<Worker>, retries: map<Worker, nat>)
    ensures Slack(xs + ys, retries) == Slack(xs, retries) + Slack(ys, retries)
  {
    if xs == [] {
      assert xs + ys == ys;
    } else {
      assert (xs + ys)[1..] == xs[1..] + ys;
      SlackAppend(xs[1..], ys, retries);
    }
  }

  lemma SlackTurned(ring: seq<Worker>, retries: map<Worker, nat>)
    requires ring != []
    ensures Slack(Turned(ring), retries) == Slack(ring, retries)
  {
    SlackAppend(ring[1..], [ring[0]], retries);
  }

  /** A refusal takes as much slack as the ring lists the worker, and none once the worker is over the limit. */
  lemma {:induction false} SlackBumped(ring: seq<Worker>, retries: map<Worker, nat>, w: Worker)
    ensures Slack(ring, Bump(retries, w))
            == Slack(ring, retries) - if Retries(retries, w) < MAX_RETRY_COUNT then multiset(ring)[w] else 0
  {
    if ring != [] {
      assert ring == [ring[0]] + ring[1..];
      SlackBumped(ring[1..], retries, w);
    }
  }

  lemma {:induction false} ListedOnce(ring: seq<Worker>, w: Worker)
    requires w in ring
    ensures multiset(ring)[w] >= 1
    ensures Distinct(ring) ==> multiset(ring)[w] == 1
  {
    assert ring == [ring[0]] + ring[1..];
    if w in ring[1..] {
      ListedOnce(ring[1..], w);
    }
  }

  predicate Raised(r: Result) {
    r.MaxRetries?
  }

  lemma SlackAttempt(c: Client, o: Outcome)
    requires c.ring != [] && Counted(o)
    ensures var after := AfterAttempt(c, o);
            var spent := if Retries(c.retries, c.ring[0]) < MAX_RETRY_COUNT then 1 else 0;
            && Slack(after.ring, after.retries) + spent <= Slack(c.ring, c.retries)
            && (Distinct(c.ring) ==> Slack(after.ring, after.retries) + spent == Slack(c.ring, c.retries))
  {
    SlackTurned(c.ring, Bump(c.retries, c.ring[0]));
    SlackBumped(c.ring, c.retries, c.ring[0]);
    ListedOnce(c.ring, c.ring[0]);
  }

  lemma TurnedDistinct(ring: seq<Worker>)
    requires ring != [] && Distinct(ring)
    ensures Distinct(Turned(ring))
  {
  }

  /** Whatever the attempts of a call meet, every refusal but the one that raises takes slack from the client: one each
      when the workers are distinct. So a call meets at most 1 + the sum of what its workers have left. */
  lemma {:induction false} RefusalsTakeSlack(c: Client, outcomes: seq<Outcome>)
    ensures var call := Connect(c, outcomes);
            var after := call.client;
            && call.attempts <= |outcomes|
            && var spent := Refusals(outcomes[..call.attempts]) - if Raised(call.result) then 1 else 0;
            && 0 <= spent
            && Slack(after.ring, after.retries) + spent <= Slack(c.ring, c.retries)
            && (Distinct(c.ring) ==> Slack(after.ring, after.retries) + spent == Slack(c.ring, c.retries))
            && (Distinct(c.ring) ==> Distinct(after.ring))
    decreases |outcomes|
  {
    if c.ring != [] && outcomes != [] {
      var after := AfterAttempt(c, outcomes[0]);
      SlackTurned(c.ring, c.retries);
      if Counted(outcomes[0]) {
        SlackAttempt(c, outcomes[0]);
      }
      if Distinct(c.ring) {
        TurnedDistinct(c.ring);
      }
      RefusalsTakeSlack(after, outcomes[1..]);
      var attempts := Connect(c, outcomes).attempts;
      assert outcomes[..attempts][1..] == outcomes[1..][..attempts - 1];
    }
  }

  lemma {:induction false} AllCounted(outcomes: seq<Outcome>)
    requires forall i :: 0 <= i < |outcomes| ==> Counted(outcomes[i])
    ensures Refusals(outcomes) == |outcomes|
  {
    if outcomes != [] {
      AllCounted(outcomes[1..]);
    }
  }

  /** A call that meets refusals only ends by raising, or has used up the outcomes at hand. */
  lemma {:induction false} RaisesOrWaits(c: Client, outcomes: seq<Outcome>)
    requires c.ring != [] && forall i :: 0 <= i < |outcomes| ==> Counted(outcomes[i])
    ensures var call := Connect(c, outcomes);
            Raised(call.result) || (call.result.Waiting? && call.attempts == |outcomes|)
    decreases |outcomes|
  {
    if outcomes != [] {
      RaisesOrWaits(AfterAttempt(c, outcomes[0]), outcomes[1..]);
    }
  }

  /** Whatever counters are carried over, a call that is always refused raises, after at most one attempt more than what
      its workers have left; after exactly so many and the refusals it leaves, when they are distinct. */
  lemma CarriedOverRaises(c: Client, outcomes: seq<Outcome>)
    requires c.ring != [] && |outcomes| > Slack(c.ring, c.retries)
    requires forall i :: 0 <= i < |outcomes| ==> Counted(outcomes[i])
    ensures var call := Connect(c, outcomes);
            && Raised(call.result)
            && call.attempts <= 1 + Slack(c.ring, c.retries)
            && (Distinct(c.ring) ==>
                 call.attempts == 1 + Slack(c.ring, c.retries) - Slack(call.client.ring, call.client.retries))
  {
    var call := Connect(c, outcomes);
    RefusalsTakeSlack(c, outcomes);
    RaisesOrWaits(c, outcomes);
    AllCounted(outcomes[..call.attempts]);
  }

  // ---------------- many calls ----------------

  function Calls(c: Client, scripts: seq<seq<Outcome>>): Client
    decreases |scripts|
  {
    if scripts == [] then c else Calls(Connect(c, scripts[0]).client, scripts[1..])
  }

  /** Refusals met, and calls that raised for them. */
  function Met(c: Client, scripts: seq<seq<Outcome>>): (int, int)
    decreases |scripts|
  {
    if scripts == [] then (0, 0)
    else
      var call := Connect(c, scripts[0]);
      RefusalsTakeSlack(c, scripts[0]);
      var rest := Met(call.client, scripts[1..]);
      (Refusals(scripts[0][..call.attempts]) + rest.0, (if Raised(call.result) then 1 else 0) + rest.1)
  }

  /** Over the life of a client with distinct workers: refusals met = slack used up + calls that raised. Successes
      give nothing back. */
  lemma {:induction false} LifetimeRefusals(c: Client, scripts: seq<seq<Outcome>>)
    requires Distinct(c.ring)
    ensures var after := Calls(c, scripts);
            Met(c, scripts).0 == Slack(c.ring, c.retries) - Slack(after.ring, after.retries) + Met(c, scripts).1
    decreases |scripts|
  {
    if scripts != [] {
      RefusalsTakeSlack(c, scripts[0]);
      LifetimeRefusals(Connect(c, scripts[0]).client, scripts[1..]);
    }
  }

  /** So once the slack is used up, the next refusal of any worker raises, however many connections succeeded. */
  lemma {:induction false} SpentClientRaises(c: Client, outcomes: seq<Outcome>)
    requires Slack(c.ring, c.retries) == 0
    ensures var call := Connect(c, outcomes);
            call.attempts <= |outcomes|
            && Refusals(outcomes[..call.attempts]) == if Raised(call.result) then 1 else 0
  {
    RefusalsTakeSlack(c, outcomes);
  }

  // ---------------- all refuse ----------------

  /** The ring after j attempts of a round. */
  function Rotated(ring: seq<Worker>, j: nat): seq<Worker>
    requires j <= |ring|
  {
    ring[j..] + ring[..j]
  }

  /** The first j workers have been refused k + 1 times, the others k times. */
  ghost predicate MidRound(c: Client, ring: seq<Worker>, k: nat, j: nat)
    requires j <= |ring|
  {
    && c.ring == Rotated(ring, j)
    && forall i :: 0 <= i < |ring| ==> Retries(c.retries, ring[i]) == if i < j then k + 1 else k
  }

  lemma MidRoundStep(c: Client, o: Outcome, ring: seq<Worker>, k: nat, j: nat)
    requires Distinct(ring) && j < |ring| && MidRound(c, ring, k, j) && Counted(o)
    ensures MidRound(AfterAttempt(c, o), ring, k, j + 1) && c.ring[0] == ring[j]
  {
    assert c.ring[0] == ring[j];
  }

  /** Attempts until a call raises: what remains of this and the later rounds, and one more. */
  function ToGo(n: nat, k: nat, j: nat): int {
    (MAX_RETRY_COUNT - k) * n - j + 1
  }

  lemma NextRound(n: nat, k: nat)
    ensures ToGo(n, k + 1, 0) == ToGo(n, k, n)
  {
  }

  lemma RoundLeft(n: nat, k: nat, j: nat)
    requires k < MAX_RETRY_COUNT && j < n
    ensures ToGo(n, k, j) > 1
  {
    NextRound(n, k);
    assert (MAX_RETRY_COUNT - k - 1) * n >= 0;
  }

  ghost predicate RaisesAfter(call: Call, outcomes: nat, togo: int, w: Worker) {
    if outcomes < togo then call.result == Waiting && call.attempts == outcomes
    else call.result == MaxRetries(w) && call.attempts == togo
  }

  /** From there, if every attempt is refused, the call raises after exactly that many attempts, at the first worker. */
  lemma {:induction false} RoundsToGo(c: Client, outcomes: seq<Outcome>, ring: seq<Worker>, k: nat, j: nat)
    requires Distinct(ring) && j < |ring| && k <= MAX_RETRY_COUNT && (k == MAX_RETRY_COUNT ==> j == 0)
    requires MidRound(c, ring, k, j) && forall i :: 0 <= i < |outcomes| ==> Counted(outcomes[i])
    ensures RaisesAfter(Connect(c, outcomes), |outcomes|, ToGo(|ring|, k, j), ring[0])
    decreases |outcomes|, 0
  {
    if k < MAX_RETRY_COUNT {
      RoundLeft(|ring|, k, j);
      if outcomes != [] {
        MidRoundStep(c, outcomes[0], ring, k, j);
        RoundOn(AfterAttempt(c, outcomes[0]), outcomes[1..], ring, k, j + 1);
      }
    } else if outcomes != [] {
      MidRoundStep(c, outcomes[0], ring, k, j);
    }
  }

  /** The same at the end of a round, where the next one starts. */
  lemma {:induction false} RoundOn(c: Client, outcomes: seq<Outcome>, ring: seq<Worker>, k: nat, j: nat)
    requires Distinct(ring) && 0 < j <= |ring| && k < MAX_RETRY_COUNT
    requires MidRound(c, ring, k, j) && forall i :: 0 <= i < |outcomes| ==> Counted(outcomes[i])
    ensures RaisesAfter(Connect(c, outcomes), |outcomes|, ToGo(|ring|, k, j), ring[0])
    decreases |outcomes|, 1
  {
    if j < |ring| {
      RoundsToGo(c, outcomes, ring, k, j);
    } else {
      assert Rotated(ring, |ring|) == Rotated(ring, 0);
      NextRound(|ring|, k);
      RoundsToGo(c, outcomes, ring, k + 1, 0);
    }
  }

  /** A fresh client whose n distinct workers all refuse raises after exactly 5n + 1 attempts, at its first worker. */
  lemma AllRefused(workers: seq<Worker>, outcomes: seq<Outcome>)
    requires workers != [] && Distinct(workers) && |outcomes| >= MAX_RETRY_COUNT * |workers| + 1
    requires forall i :: 0 <= i < |outcomes| ==> Counted(outcomes[i])
    ensures var call := Connect(Client(workers, map[]), outcomes);
            call.result == MaxRetries(workers[0]) && call.attempts == MAX_RETRY_COUNT * |workers| + 1
  {
    assert Rotated(workers, 0) == workers;
    RoundsToGo(Client(workers, map[]), outcomes, workers, 0, 0);
  }

  // ---------------- who raises ----------------

  /** The refusals among the outcomes that fall on w, as the ring turns. */
  function At(ring: seq<Worker>, outcomes: seq<Outcome>, w: Worker): nat
    decreases |outcomes|
  {
    if ring == [] || outcomes == [] then 0
    else (if Counted(outcomes[0]) && ring[0] == w then 1 else 0) + At(Turned(ring), outcomes[1..], w)
  }

  /** The refusals that one call meets at w. */
  function MetAt(c: Client, outcomes: seq<Outcome>, w: Worker): nat {
    AttemptsFit(c, outcomes);
    At(c.ring, outcomes[..Connect(c, outcomes).attempts], w)
  }

  lemma {:induction false} AttemptsFit(c: Client, outcomes: seq<Outcome>)
    ensures Connect(c, outcomes).attempts <= |outcomes|
    decreases |outcomes|
  {
    if c.ring != [] && outcomes != [] {
      AttemptsFit(AfterAttempt(c, outcomes[0]), outcomes[1..]);
    }
  }

  /** The first attempt and the rest of the call. */
  lemma MetFirst(c: Client, outcomes: seq<Outcome>, w: Worker)
    requires c.ring != [] && outcomes != []
    ensures MetAt(c, outcomes, w)
            == (if Counted(outcomes[0]) && c.ring[0] == w then 1 else 0)
               + if Ended(outcomes[0], c.ring[0], c.retries).Waiting?
                 then MetAt(AfterAttempt(c, outcomes[0]), outcomes[1..], w) else 0
  {
    AttemptsFit(c, outcomes);
    var n := Connect(c, outcomes).attempts;
    var met := outcomes[..n];
    assert n > 0 && met[0] == outcomes[0];
    assert met[1..] == outcomes[1..][..n - 1];
    assert AfterAttempt(c, outcomes[0]).ring == Turned(c.ring);
    assert n == 1 ==> At(Turned(c.ring), met[1..], w) == 0;
  }

  /** A call adds to the counter of each worker exactly the refusals it met there, and never takes anything off. */
  lemma {:induction false} CounterGrows(c: Client, outcomes: seq<Outcome>, w: Worker)
    ensures Retries(Connect(c, outcomes).client.retries, w) == Retries(c.retries, w) + MetAt(c, outcomes, w)
    decreases |outcomes|
  {
    if c.ring != [] && outcomes != [] {
      MetFirst(c, outcomes, w);
      CounterGrows(AfterAttempt(c, outcomes[0]), outcomes[1..], w);
    }
  }

  /** A call raises for a worker if and only if it met a refusal there that took the counter over the limit. */
  lemma {:induction false} RaisesExactly(c: Client, outcomes: seq<Outcome>, w: Worker)
    ensures Connect(c, outcomes).result == MaxRetries(w) <==>
            MetAt(c, outcomes, w) > 0 && Retries(c.retries, w) + MetAt(c, outcomes, w) > MAX_RETRY_COUNT
    decreases |outcomes|
  {
    if c.ring != [] && outcomes != [] {
      MetFirst(c, outcomes, w);
      if Ended(outcomes[0], c.ring[0], c.retries).Waiting? {
        RaisesExactly(AfterAttempt(c, outcomes[0]), outcomes[1..], w);
      }
    }
  }

  /** The refusals that a client has met at w in all its calls. */
  function Lifetime(c: Client, scripts: seq<seq<Outcome>>, w: Worker): nat
    decreases |scripts|
  {
    if scripts == [] then 0
    else MetAt(c, scripts[0], w) + Lifetime(Connect(c, scripts[0]).client, scripts[1..], w)
  }

  /** The counter of a worker is what it was plus all the refusals met there since, whatever succeeded in between. */
  lemma {:induction false} CounterIsLifetime(c: Client, scripts: seq<seq<Outcome>>, w: Worker)
    ensures Retries(Calls(c, scripts).retries, w) == Retries(c.retries, w) + Lifetime(c, scripts, w)
    decreases |scripts|
  {
    if scripts != [] {
      CounterGrows(c, scripts[0], w);
      CounterIsLifetime(Connect(c, scripts[0]).client, scripts[1..], w);
    }
  }

  /** What no success resets: whatever calls a fresh client has made before, and however they ended, its next call
      raises for a worker if and only if that call is refused there and the worker has by then been refused more than
      five times in the client's life. */
  lemma LifetimeRaises(workers: seq<Worker>, scripts: seq<seq<Outcome>>, outcomes: seq<Outcome>, w: Worker)
    ensures var c := Client(workers, map[]);
            var now := Calls(c, scripts);
            Connect(now, outcomes).result == MaxRetries(w) <==>
            MetAt(now, outcomes, w) > 0 && Lifetime(c, scripts, w) + MetAt(now, outcomes, w) > MAX_RETRY_COUNT
  {
    var c := Client(workers, map[]);
    CounterIsLifetime(c, scripts, w);
    RaisesExactly(Calls(c, scripts), outcomes, w);
  }

  /** So a refusal by the next worker of the ring raises if and only if it has already been refused five times. */
  lemma NextRefusalRaises(workers: seq<Worker>, scripts: seq<seq<Outcome>>, o: Outcome, rest: seq<Outcome>)
    requires Calls(Client(workers, map[]), scripts).ring != [] && Counted(o)
    ensures var c := Client(workers, map[]);
            var now := Calls(c, scripts);
            Connect(now, [o] + rest) == Call(AfterAttempt(now, o), MaxRetries(now.ring[0]), 1) <==>
            Lifetime(c, scripts, now.ring[0]) >= MAX_RETRY_COUNT
  {
    var c := Client(workers, map[]);
    CounterIsLifetime(c, scripts, Calls(c, scripts).ring[0]);
  }

  // ---------------- success resets nothing ----------------

  /** n calls, each refused once and then accepted. */
  function FailsOnce(n: nat): seq<seq<Outcome>>
    decreases n
  {
    if n == 0 then [] else [[Refused, Connected]] + FailsOnce(n - 1)
  }

  lemma {:induction false} FailsOnceCounts(w: Worker, retries: map<Worker, nat>, n: nat)
    requires Retries(retries, w) + n <= MAX_RETRY_COUNT
    ensures var after := Calls(Client([w], retries), FailsOnce(n));
            after.ring == [w] && Retries(after.retries, w) == Retries(retries, w) + n
    decreases n
  {
    if n > 0 {
      RefusedThenConnected(w, retries);
      assert FailsOnce(n)[1..] == FailsOnce(n - 1);
      FailsOnceCounts(w, Bump(retries, w), n - 1);
    }
  }

  lemma RefusedThenConnected(w: Worker, retries: map<Worker, nat>)
    requires Retries(retries, w) < MAX_RETRY_COUNT
    ensures Connect(Client([w], retries), [Refused, Connected])
            == Call(Client([w], Bump(retries, w)), Connection(w), 2)
  {
    assert Turned([w]) == [w];
    assert [Refused, Connected][1..] == [Connected];
    assert Connect(Client([w], Bump(retries, w)), [Connected])
        == Call(Client([w], Bump(retries, w)), Connection(w), 1);
  }

  /** Five calls that each met one refusal and then succeeded: the next single refusal raises. */
  lemma SuccessResetsNothing(w: Worker)
    ensures forall n: nat :: n < MAX_RETRY_COUNT ==>
              Connect(Calls(Client([w], map[]), FailsOnce(n)), [Refused, Connected]).result == Connection(w)
    ensures Connect(Calls(Client([w], map[]), FailsOnce(MAX_RETRY_COUNT)), [Refused]).result == MaxRetries(w)
  {
    forall n: nat | n < MAX_RETRY_COUNT
      ensures Connect(Calls(Client([w], map[]), FailsOnce(n)), [Refused, Connected]).result == Connection(w)
    {
      FailsOnceCounts(w, map[], n);
      RefusedThenConnected(w, Calls(Client([w], map[]), FailsOnce(n)).retries);
    }
    FailsOnceCounts(w, map[], MAX_RETRY_COUNT);
  }
}
