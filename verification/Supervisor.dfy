/** qw/supervisor.py as a class. Clock readings, the answers of Redis and the outcome of a spawn are parameters. */
module Supervision {
  import opened Common
  import opened SharedState
  import opened StateTracking
  import opened CheckDecision
  import Decimal

  /** One stream entry: the two fields that start_subscription reads back. */
  datatype Message = Message(task: string, uid: TaskId)

  class RedisStream {
    var messages: seq<Message>
  }

  class Process {
    const name: string
    var alive: bool

    constructor (name: string)
      ensures this.name == name && alive
    {
      this.name := name;
      alive := true;
    }
  }

  /** What Redis and the operating system answer during one check. */
  datatype World = World(now: real, markedAt: real, connected: bool, accepts: seq<bool>, spawned: bool)

  predicate Accepted(w: World, k: nat) {
    w.connected && k < |w.accepts| && w.accepts[k]
  }

  /** The ledger entries that reach the stream, in ledger order. */
  function Rescued(ledger: seq<LedgerEntry>, w: World, n: nat): seq<Message>
    requires n <= |ledger|
  {
    if n == 0 then []
    else if Accepted(w, n - 1) then
      Rescued(ledger, w, n - 1) + [Message(ledger[n - 1].payload, ledger[n - 1].id)]
    else Rescued(ledger, w, n - 1)
  }

  /** An increasing sequence of positions below n: exactly those at which Redis, connected, answers yes. */
  ghost predicate Taken(kept: seq<nat>, w: World, n: nat) {
    && (forall a :: 0 <= a < |kept| ==> kept[a] < n)
    && (forall a, b :: 0 <= a < b < |kept| ==> kept[a] < kept[b])
    && (forall k: nat :: k in kept <==> k < n && w.connected && k < |w.accepts| && w.accepts[k])
  }

  /** The rescued entries are those, whole and in order. */
  lemma {:induction false} RescuedExactly(ledger: seq<LedgerEntry>, w: World, n: nat) returns (kept: seq<nat>)
    requires n <= |ledger|
    ensures Taken(kept, w, n)
    ensures Rescued(ledger, w, n)
            == seq(|kept|, a requires 0 <= a < |kept| && kept[a] < |ledger| =>
                 Message(ledger[kept[a]].payload, ledger[kept[a]].id))
  {
    kept := [];
    if n > 0 {
      kept := RescuedExactly(ledger, w, n - 1);
      if w.connected && n - 1 < |w.accepts| && w.accepts[n - 1] {
        kept := kept + [n - 1];
      }
    }
  }

  /** A Redis that takes everything is given the whole ledger. */
  lemma AllRescued(ledger: seq<LedgerEntry>, w: World)
    requires w.connected && |w.accepts| >= |ledger| && forall k :: 0 <= k < |ledger| ==> w.accepts[k]
    ensures Rescued(ledger, w, |ledger|)
            == seq(|ledger|, k requires 0 <= k < |ledger| => Message(ledger[k].payload, ledger[k].id))
  {
    var kept := RescuedExactly(ledger, w, |ledger|);
    IncreasingAll(kept, |ledger|);
  }

  /** An increasing sequence of all the numbers below n is 0, 1, .., n - 1. */
  lemma {:induction false} IncreasingAll(kept: seq<nat>, n: nat)
    requires forall a, b :: 0 <= a < b < |kept| ==> kept[a] < kept[b]
    requires forall k: nat :: k in kept <==> k < n
    ensures |kept| == n && forall a :: 0 <= a < n ==> kept[a] == a
  {
    assert |kept| > 0 ==> kept[0] in kept;
    if n > 0 {
      assert n - 1 in kept;
      var last := |kept| - 1;
      assert kept[last] in kept;
      var a :| 0 <= a < |kept| && kept[a] == n - 1;
      assert a == last;
      var front := kept[..last];
      forall k: nat
        ensures k in front <==> k < n - 1
      {
        if k in front {
          var b :| 0 <= b < last && front[b] == k;
          assert kept[b] in kept && kept[b] < kept[last];
        }
        if k < n - 1 {
          assert k in kept;
          var b :| 0 <= b < |kept| && kept[b] == k;
          assert b != last && front[b] == k;
        }
      }
      IncreasingAll(front, n - 1);
    }
  }

  function EntryIn(entries: map<string, WorkerEntry>, name: string): Option<WorkerEntry> {
    if name in entries then Some(entries[name]) else None
  }

  function WithEntry(entries: map<string, WorkerEntry>, name: string, e: Option<WorkerEntry>)
    : map<string, WorkerEntry>
  {
    if e.Some? then entries[name := e.value] else entries
  }

  /** The worker's entry after an action. */
  function EntryAfter(action: Action, e: Option<WorkerEntry>, w: World): Option<WorkerEntry> {
    if e.None? then None
    else
      match action
      case Nothing => e
      case MarkDraining => Some(WithStatus(e.value, Draining, Some(w.markedAt)))
      case MarkHealthy => Some(WithStatus(e.value, Healthy, None))
      case KillAndRespawn => Some(ClearLedger(e.value))
  }

  /** What an action appends to the stream. */
  function MessagesAfter(action: Action, e: Option<WorkerEntry>, w: World): seq<Message> {
    if action.KillAndRespawn? && e.Some? then Rescued(e.value.ledger, w, |e.value.ledger|) else []
  }

  class ProcessSupervisor {
    const table: SharedTable
    const stream: RedisStream
    const prefix: string
    const timeouts: Timeouts
    var jobList: seq<Process>

    constructor (table: SharedTable, stream: RedisStream, prefix: string, timeouts: Timeouts, jobList: seq<Process>)
      ensures this.table == table && this.stream == stream && this.prefix == prefix
      ensures this.timeouts == timeouts && this.jobList == jobList
    {
      this.table, this.stream, this.prefix, this.timeouts, this.jobList := table, stream, prefix, timeouts, jobList;
    }

    /** Only processes named with the prefix are workers. */
    function WorkerNameFor(idx: nat, process: Process): Option<string> {
      if prefix <= process.name then Some(prefix + "_" + Decimal.Show(idx)) else None
    }

    method MarkDraining(name: string, now: real)
      modifies table
      ensures table.entries == if name in old(table.entries)
                then old(table.entries)[name := WithStatus(old(table.entries)[name], Draining, Some(now))]
                else old(table.entries)
    {
      if name !in table.entries {
        return;
      }
      table.entries := table.entries[name := table.entries[name].(status := Draining, drainingSince := Some(now))];
    }

    method MarkHealthy(name: string)
      modifies table
      ensures table.entries == if name in old(table.entries)
                then old(table.entries)[name := WithStatus(old(table.entries)[name], Healthy, None)]
                else old(table.entries)
    {
      if name !in table.entries {
        return;
      }
      table.entries := table.entries[name := table.entries[name].(status := Healthy, drainingSince := None)];
    }

    /** Empties the ledger first, then pushes its entries one by one; a failed push is not tried again. */
    method RescueTasks(name: string, w: World) returns (pushed: nat, ghost kept: seq<nat>)
      modifies table, stream
      ensures name in old(table.entries) ==>
                var ledger := old(table.entries)[name].ledger;
                && table.entries == old(table.entries)[name := old(table.entries)[name].(ledger := [])]
                && Taken(kept, w, |ledger|)
                && stream.messages == old(stream.messages)
                   + seq(|kept|, a requires 0 <= a < |kept| && kept[a] < |ledger| =>
                       Message(ledger[kept[a]].payload, ledger[kept[a]].id))
                && pushed == |kept|
      ensures name in old(table.entries) && w.connected && |w.accepts| >= |old(table.entries)[name].ledger|
              && (forall k :: 0 <= k < |old(table.entries)[name].ledger| ==> w.accepts[k]) ==>
                var ledger := old(table.entries)[name].ledger;
                && stream.messages == old(stream.messages)
                   + seq(|ledger|, k requires 0 <= k < |ledger| => Message(ledger[k].payload, ledger[k].id))
                && pushed == |ledger|
      ensures name !in old(table.entries) ==>
                table.entries == old(table.entries) && stream.messages == old(stream.messages) && pushed == 0
      ensures name in old(table.entries) ==>
                var ledger := old(table.entries)[name].ledger;
                && table.entries == old(table.entries)[name := ClearLedger(old(table.entries)[name])]
                && stream.messages == old(stream.messages) + Rescued(ledger, w, |ledger|)
                && pushed == |Rescued(ledger, w, |ledger|)|
    {
      kept := [];
      if name !in table.entries {
        return 0, kept;
      }
      var entries := table.entries[name].ledger;
      kept := RescuedExactly(entries, w, |entries|);
      if w.connected && |w.accepts| >= |entries| && forall k :: 0 <= k < |entries| ==> w.accepts[k] {
        AllRescued(entries, w);
      }
      table.entries := table.entries[name := table.entries[name].(ledger := [])];
      pushed := 0;
      if entries == [] {
        return;
      }
      if !w.connected {
        NothingRescued(entries, w, |entries|);
        return;
      }
      for k := 0 to |entries|
        invariant stream.messages == old(stream.messages) + Rescued(entries, w, k)
        invariant pushed == |Rescued(entries, w, k)|
        invariant table.entries == old(table.entries)[name := ClearLedger(old(table.entries)[name])]
      {
        if k < |w.accepts| && w.accepts[k] {
          stream.messages := stream.messages + [Message(entries[k].payload, entries[k].id)];
          pushed := pushed + 1;
        }
      }
    }

    static lemma NothingRescued(ledger: seq<LedgerEntry>, w: World, n: nat)
      requires n <= |ledger| && !w.connected
      ensures Rescued(ledger, w, n) == []
    {
    }

    /** Rescue, end the process for good, respawn into the same slot. */
    method KillAndRespawn(idx: nat, process: Process, name: string, w: World)
      requires idx < |jobList|
      modifies table, stream, process, this
      ensures name !in old(table.entries) ==>
                table.entries == old(table.entries) && stream.messages == old(stream.messages)
      ensures name in old(table.entries) ==>
                var ledger := old(table.entries)[name].ledger;
                && table.entries == old(table.entries)[name := ClearLedger(old(table.entries)[name])]
                && stream.messages == old(stream.messages) + Rescued(ledger, w, |ledger|)
      ensures name in old(table.entries) && w.connected && |w.accepts| >= |old(table.entries)[name].ledger|
              && (forall k :: 0 <= k < |old(table.entries)[name].ledger| ==> w.accepts[k]) ==>
                var ledger := old(table.entries)[name].ledger;
                stream.messages == old(stream.messages)
                + seq(|ledger|, k requires 0 <= k < |ledger| => Message(ledger[k].payload, ledger[k].id))
      ensures !process.alive && |jobList| == |old(jobList)|
      ensures !w.spawned ==> jobList == old(jobList)
      ensures w.spawned ==>
                && jobList == old(jobList)[idx := jobList[idx]]
                && fresh(jobList[idx]) && jobList[idx].alive && jobList[idx].name == name
    {
      var _, _ := RescueTasks(name, w);
      if process.alive {
        process.alive := false;  // SIGTERM, then SIGKILL
      }
      if w.spawned {
        var newProcess := new Process(name);
        jobList := jobList[idx := newProcess];
      }
    }

    /** One inspection: at most one transition, the one that Decide names. */
    method CheckWorker(idx: nat, process: Process, name: string, w: World)
      requires idx < |jobList|
      modifies table, stream, process, this
      ensures var was := EntryIn(old(table.entries), name);
              var action := Decide(old(process.alive), was, w.now, timeouts);
              && table.entries == WithEntry(old(table.entries), name, EntryAfter(action, was, w))
              && stream.messages == old(stream.messages) + MessagesAfter(action, was, w)
              && process.alive == (old(process.alive) && !action.KillAndRespawn?)
              && |jobList| == |old(jobList)|
              && (if action.KillAndRespawn? && w.spawned then
                    jobList == old(jobList)[idx := jobList[idx]]
                    && fresh(jobList[idx]) && jobList[idx].alive && jobList[idx].name == name
                  else jobList == old(jobList))
      ensures !old(process.alive) ==>
                && !process.alive
                && (name in old(table.entries) ==>
                     table.entries == old(table.entries)[name := old(table.entries)[name].(ledger := [])])
                && (name !in old(table.entries) ==> table.entries == old(table.entries))
                && (w.spawned ==>
                     jobList == old(jobList)[idx := jobList[idx]] && fresh(jobList[idx])
                     && jobList[idx].alive && jobList[idx].name == name)
                && (!w.spawned ==> jobList == old(jobList))
      ensures old(process.alive) && name !in old(table.entries) ==>
                table.entries == old(table.entries) && stream.messages == old(stream.messages)
                && process.alive && jobList == old(jobList)
      ensures old(process.alive) && name in old(table.entries) ==>
                var e := old(table.entries)[name];
                var e' := table.entries[name];
                && table.entries == old(table.entries)[name := e'] && Judged(e, e', w, timeouts)
                && (!process.alive <==>
                     && e.status == Draining && !(e.heartbeat > 0.0 && w.now - e.heartbeat <= timeouts.heartbeat)
                     && e.drainingSince.Some? && w.now - e.drainingSince.value > timeouts.drain)
      ensures name in old(table.entries) && w.connected && |w.accepts| >= |old(table.entries)[name].ledger|
              && (forall k :: 0 <= k < |old(table.entries)[name].ledger| ==> w.accepts[k]) && !process.alive ==>
                var ledger := old(table.entries)[name].ledger;
                stream.messages == old(stream.messages)
                + seq(|ledger|, k requires 0 <= k < |ledger| => Message(ledger[k].payload, ledger[k].id))
      ensures process.alive ==> stream.messages == old(stream.messages) && jobList == old(jobList)
      ensures !process.alive && w.spawned ==> jobList[idx] != process && jobList[idx].alive
    {
      if !process.alive {
        KillAndRespawn(idx, process, name, w);
        return;
      }
      if name !in table.entries {
        return;
      }
      var e := table.entries[name];
      var stale := if e.heartbeat > 0.0 then w.now - e.heartbeat > timeouts.heartbeat else true;
      if e.status == Draining {
        if e.heartbeat > 0.0 && !stale {
          MarkHealthy(name);
          return;
        }
        if e.drainingSince.Some? && w.now - e.drainingSince.value > timeouts.drain {
          KillAndRespawn(idx, process, name, w);
          return;
        }
        return;
      }
      if e.heartbeat > 0.0 && stale {
        MarkDraining(name, w.markedAt);
      }
    }

    /** The slots after n inspections of the round: the workers killed so far are dead and replaced, or not. */
    ghost predicate SlotsAt(r: RoundState, n: nat, snapshot: seq<Process>)
      requires |snapshot| == |r.names| == |r.alive| == |r.worlds|
      reads this, jobList, snapshot
    {
      && |jobList| == |snapshot|
      && (forall k :: 0 <= k < |snapshot| ==>
           snapshot[k].alive == (r.alive[k] && !(k < n && ActionFor(r, k).KillAndRespawn?)))
      && (forall k :: 0 <= k < |snapshot| ==>
           if k < n && ActionFor(r, k).KillAndRespawn? && r.worlds[k].spawned
           then jobList[k] !in snapshot && jobList[k].alive
           else jobList[k] == snapshot[k])
    }

    /** The inspection of one slot, within a round. */
    method CheckSlot(idx: nat, snapshot: seq<Process>, w: World, ghost r: RoundState)
      requires idx < |snapshot| && RoundOf(r, snapshot) && r.worlds[idx] == w
      requires SlotsAt(r, idx, snapshot) && EntriesAt(r, idx, table.entries)
      modifies table, stream, snapshot[idx], this
      ensures SlotsAt(r, idx + 1, snapshot) && EntriesAt(r, idx + 1, table.entries)
      ensures stream.messages == old(stream.messages) + MessagesFor(r, idx)
    {
      var name := WorkerNameFor(idx, snapshot[idx]);
      EntriesNext(r, idx, table.entries);
      if name.Some? {
        CheckWorker(idx, snapshot[idx], name.value, w);
      }
    }

    method CheckSlots(snapshot: seq<Process>, worlds: seq<World>, ghost r: RoundState)
      requires RoundOf(r, snapshot) && r.worlds == worlds
      requires SlotsAt(r, 0, snapshot) && EntriesAt(r, 0, table.entries)
      modifies table, stream, this, snapshot
      ensures SlotsAt(r, |r.names|, snapshot) && EntriesAt(r, |r.names|, table.entries)
      ensures stream.messages == old(stream.messages) + RoundMessages(r, |r.names|)
    {
      for idx := 0 to |snapshot|
        invariant SlotsAt(r, idx, snapshot) && EntriesAt(r, idx, table.entries)
        invariant stream.messages == old(stream.messages) + RoundMessages(r, idx)
      {
        CheckSlot(idx, snapshot, worlds[idx], r);
        RoundGrows(r, idx, old(stream.messages));
      }
    }

    /** One round over a snapshot of the job list. The workers do not disturb each other: each gets the action that
        the state before the round decides, and the messages of all of them are appended in slot order. */
    method Cycle(worlds: seq<World>, ghost r: RoundState)
      requires IsRound(r) && r.worlds == worlds
      modifies table, stream, this, jobList
      ensures SlotsAt(r, |r.names|, old(jobList)) && EntriesAt(r, |r.names|, table.entries)
      ensures stream.messages == old(stream.messages) + RoundMessages(r, |r.names|)
      ensures |jobList| == |old(jobList)|
      ensures forall k :: 0 <= k < |jobList| && !(prefix <= old(jobList)[k].name) ==>
                jobList[k] == old(jobList)[k] && jobList[k].alive == old(jobList[k].alive)
      ensures forall k :: 0 <= k < |jobList| && prefix <= old(jobList)[k].name && !old(jobList[k].alive) ==>
                var name := prefix + "_" + Decimal.Show(k);
                && (name in old(table.entries) ==> name in table.entries && table.entries[name].ledger == [])
                && (worlds[k].spawned ==> jobList[k] !in old(jobList) && jobList[k].alive)
      ensures forall k :: 0 <= k < |jobList| && prefix <= old(jobList)[k].name && old(jobList[k].alive) ==>
                var name := prefix + "_" + Decimal.Show(k);
                name in old(table.entries) ==>
                  name in table.entries
                  && Judged(old(table.entries)[name], table.entries[name], worlds[k], timeouts)
    {
      RoundStart(r);
      CheckSlots(jobList, worlds, r);
      forall k | 0 <= k < |r.names| && r.names[k].Some? && r.names[k].value in r.entries
        ensures r.names[k].value in table.entries
        ensures !r.alive[k] ==> table.entries[r.names[k].value].ledger == []
        ensures r.alive[k] ==>
                  Judged(r.entries[r.names[k].value], table.entries[r.names[k].value], r.worlds[k], r.timeouts)
      {
        InspectedDirectly(r, k, table.entries);
      }
    }

    lemma RoundStart(r: RoundState)
      requires IsRound(r)
      ensures SlotsAt(r, 0, jobList) && EntriesAt(r, 0, table.entries)
    {
    }

    /** r belongs to this supervisor and these processes, one per slot. */
    ghost predicate RoundOf(r: RoundState, snapshot: seq<Process>) {
      && |snapshot| == |r.names| == |r.alive| == |r.worlds|
      && Distinct(snapshot)
      && r.prefix == prefix && r.timeouts == timeouts
      && forall k :: 0 <= k < |snapshot| ==>
                       r.names[k] == if prefix <= snapshot[k].name then Some(prefix + "_" + Decimal.Show(k)) else None
    }

    /** r is what the job list and the table look like now. */
    ghost predicate IsRound(r: RoundState)
      reads this, table, jobList
    {
      && RoundOf(r, jobList) && r.entries == table.entries
      && forall k :: 0 <= k < |jobList| ==> r.alive[k] == jobList[k].alive
    }
  }

  /** What an inspection does to the entry of a worker whose process is alive. */
  ghost predicate Judged(e: WorkerEntry, e': WorkerEntry, w: World, t: Timeouts) {
    var beats := e.heartbeat > 0.0 && w.now - e.heartbeat <= t.heartbeat;
    match e.status
    case Draining =>
      if beats then e' == e.(status := Healthy, drainingSince := None)
      else if e.drainingSince.Some? && w.now - e.drainingSince.value > t.drain then e' == e.(ledger := [])
      else e' == e
    case Healthy =>
      e' == if e.heartbeat > 0.0 && !beats then e.(status := Draining, drainingSince := Some(w.markedAt)) else e
  }

  lemma InspectedDirectly(r: RoundState, k: nat, entries: map<string, WorkerEntry>)
    requires Sized(r, k) && Inspected(r, k, entries) && r.names[k].Some? && r.names[k].value in r.entries
    ensures var name := r.names[k].value;
            && name in entries
            && (!r.alive[k] ==> entries[name].ledger == [])
            && (r.alive[k] ==> Judged(r.entries[name], entries[name], r.worlds[k], r.timeouts))
  {
  }

  /** Names, lives and entries before a round, and what the world answers during it. */
  datatype RoundState = RoundState(
    prefix: string, names: seq<Option<string>>, alive: seq<bool>, entries: map<string, WorkerEntry>,
    worlds: seq<World>, timeouts: Timeouts)

  predicate Sized(r: RoundState, k: nat) {
    k < |r.names| == |r.alive| == |r.worlds|
  }

  function ActionFor(r: RoundState, k: nat): Action
    requires Sized(r, k)
  {
    if r.names[k].None? then Nothing
    else Decide(r.alive[k], EntryIn(r.entries, r.names[k].value), r.worlds[k].now, r.timeouts)
  }

  predicate Inspected(r: RoundState, k: nat, entries: map<string, WorkerEntry>)
    requires Sized(r, k)
  {
    r.names[k].Some? ==>
      EntryIn(entries, r.names[k].value)
      == EntryAfter(ActionFor(r, k), EntryIn(r.entries, r.names[k].value), r.worlds[k])
  }

  function WorkerNames(r: RoundState): set<string> {
    set k | 0 <= k < |r.names| && r.names[k].Some? :: r.names[k].value
  }

  /** What inspection k of the round appends to the stream. */
  function MessagesFor(r: RoundState, k: nat): seq<Message>
    requires Sized(r, k)
  {
    if r.names[k].None? then []
    else MessagesAfter(ActionFor(r, k), EntryIn(r.entries, r.names[k].value), r.worlds[k])
  }

  /** What the first n inspections append. */
  function RoundMessages(r: RoundState, n: nat): seq<Message>
    requires n == 0 || Sized(r, n - 1)
  {
    if n == 0 then [] else RoundMessages(r, n - 1) + MessagesFor(r, n - 1)
  }

  lemma RoundGrows(r: RoundState, k: nat, before: seq<Message>)
    requires Sized(r, k)
    ensures before + RoundMessages(r, k) + MessagesFor(r, k) == before + RoundMessages(r, k + 1)
  {
  }

  /** Two slots never share a worker name. */
  lemma NamesDiffer(prefix: string, i: nat, j: nat)
    requires i != j
    ensures prefix + "_" + Decimal.Show(i) != prefix + "_" + Decimal.Show(j)
  {
    Decimal.ParseShow(i);
    Decimal.ParseShow(j);
    var a, b := prefix + "_" + Decimal.Show(i), prefix + "_" + Decimal.Show(j);
    assert a[|prefix| + 1..] == Decimal.Show(i) && b[|prefix| + 1..] == Decimal.Show(j);
  }

  ghost predicate Named(r: RoundState) {
    && |r.names| == |r.alive| == |r.worlds|
    && forall k :: 0 <= k < |r.names| && r.names[k].Some? ==>
                     r.names[k].value == r.prefix + "_" + Decimal.Show(k)
  }

  /** The table after n inspections: the first n workers have been dealt with, the rest is as before the round. */
  ghost predicate EntriesAt(r: RoundState, n: nat, entries: map<string, WorkerEntry>) {
    && Named(r) && n <= |r.names|
    && (forall k :: 0 <= k < n ==> Inspected(r, k, entries))
    && (forall k :: n <= k < |r.names| && r.names[k].Some? ==>
                      EntryIn(entries, r.names[k].value) == EntryIn(r.entries, r.names[k].value))
    && (forall name :: name !in WorkerNames(r) ==> EntryIn(entries, name) == EntryIn(r.entries, name))
  }

  lemma EntriesNext(r: RoundState, n: nat, entries: map<string, WorkerEntry>)
    requires EntriesAt(r, n, entries) && n < |r.names|
    ensures r.names[n].Some? ==> EntryIn(entries, r.names[n].value) == EntryIn(r.entries, r.names[n].value)
    ensures EntriesAt(r, n + 1,
              if r.names[n].None? then entries
              else WithEntry(entries, r.names[n].value,
                     EntryAfter(ActionFor(r, n), EntryIn(entries, r.names[n].value), r.worlds[n])))
  {
    if r.names[n].Some? {
      var after := WithEntry(entries, r.names[n].value,
        EntryAfter(ActionFor(r, n), EntryIn(entries, r.names[n].value), r.worlds[n]));
      assert r.names[n].value in WorkerNames(r);
      forall k | 0 <= k < |r.names| && k != n && r.names[k].Some?
        ensures EntryIn(after, r.names[k].value) == EntryIn(entries, r.names[k].value)
      {
        NamesDiffer(r.prefix, k, n);
      }
      forall k | 0 <= k < n
        ensures Inspected(r, k, after)
      {
        assert Inspected(r, k, entries);
      }
    }
  }
}
