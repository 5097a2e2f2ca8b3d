/** What the active lists and the completed ring buffer of a worker's entry say about the whole run. */
module TaskHistory {
  import opened Common
  import opened SharedState

  datatype Call =
    | Queue(id: TaskId, functionName: string, now: real)
    | Execute(id: TaskId, source: Source, now: real)
    | Complete(id: TaskId, result: string, source: Source, now: real)

  function Apply(e: WorkerEntry, c: Call): WorkerEntry {
    match c
    case Queue(id, fn, now) => QueueTask(e, id, fn, now)
    case Execute(id, source, now) => ExecuteTask(e, id, source, now)
    case Complete(id, result, source, now) => CompleteTask(e, id, result, source, now)
  }

  /** The entry after a run of lifecycle calls. */
  function Run(e: WorkerEntry, calls: seq<Call>): WorkerEntry {
    if calls == [] then e else Apply(Run(e, calls[..|calls| - 1]), calls[|calls| - 1])
  }

  /** The record a completion adds to the history of an entry. */
  function DoneRecord(e: WorkerEntry, c: Call): TaskRecord
    requires c.Complete?
  {
    CompletedRecord(FindFirst(Active(e, KeyOf(c.source)), c.id), c.id, c.result, c.source, c.now)
  }

  /** Every completion of the run, none evicted. */
  function FullLog(e: WorkerEntry, calls: seq<Call>): seq<TaskRecord> {
    if calls == [] then []
    else
      var front := calls[..|calls| - 1];
      var c := calls[|calls| - 1];
      if c.Complete? then FullLog(e, front) + [DoneRecord(Run(e, front), c)] else FullLog(e, front)
  }

  function LastTen(log: seq<TaskRecord>): seq<TaskRecord> {
    log[Max(0, |log| - MAX_COMPLETED)..]
  }

  lemma CappedLog(log: seq<TaskRecord>, done: TaskRecord)
    ensures Capped(LastTen(log) + [done]) == LastTen(log + [done])
  {
  }

  lemma CompletedAfter(e: WorkerEntry, c: Call)
    ensures Apply(e, c).completed
            == if c.Complete? then Capped(e.completed + [DoneRecord(e, c)]) else e.completed
  {
  }

  /** The ring buffer is the last ten entries of the full log. */
  lemma {:induction false} RingRefinesLog(e: WorkerEntry, calls: seq<Call>)
    requires e.completed == []
    ensures Run(e, calls).completed == LastTen(FullLog(e, calls))
  {
    if calls != [] {
      var before := Run(e, calls[..|calls| - 1]);
      var c := calls[|calls| - 1];
      RingRefinesLog(e, calls[..|calls| - 1]);
      CompletedAfter(before, c);
      if c.Complete? {
        CappedLog(FullLog(e, calls[..|calls| - 1]), DoneRecord(before, c));
      }
    }
  }

  // ---------------- active lists ----------------

  predicate Starts(c: Call, key: ListKey) {
    c.Execute? && c.source != FromQueue && KeyOf(c.source) == key
  }

  predicate Ends(c: Call, key: ListKey, id: TaskId) {
    c.Complete? && KeyOf(c.source) == key && c.id == id
  }

  /** Call i started a task of this list that no later call has completed. */
  predicate Open(calls: seq<Call>, key: ListKey, i: nat)
    requires i < |calls|
  {
    Starts(calls[i], key) && forall j :: i < j < |calls| ==> !Ends(calls[j], key, calls[i].id)
  }

  /** The ids of the open starts among the first n calls, oldest first. */
  function OpenIds(calls: seq<Call>, key: ListKey, n: nat): seq<TaskId>
    requires n <= |calls|
  {
    if n == 0 then []
    else if Open(calls, key, n - 1) then OpenIds(calls, key, n - 1) + [calls[n - 1].id]
    else OpenIds(calls, key, n - 1)
  }

  function Ids(records: seq<TaskRecord>): (r: seq<TaskId>)
    ensures |r| == |records|
    ensures forall i :: 0 <= i < |r| ==> r[i] == records[i].id
  {
    seq(|records|, i requires 0 <= i < |records| => records[i].id)
  }

  ghost predicate NoRepeats(calls: seq<Call>, key: ListKey) {
    forall i, j :: 0 <= i < j < |calls| && Starts(calls[i], key) && Starts(calls[j], key) ==> calls[i].id != calls[j].id
  }

  lemma IdsSplit(r: TaskRecord, rest: seq<TaskRecord>)
    ensures Ids([r] + rest) == [r.id] + Ids(rest)
  {
  }

  lemma {:induction false} DropFirstIds(records: seq<TaskRecord>, id: TaskId)
    requires Distinct(Ids(records))
    ensures Ids(DropFirst(records, id)) == Without(Ids(records), id)
  {
    if records != [] {
      IdsSplit(records[0], records[1..]);
      assert records == [records[0]] + records[1..];
      var ids := Ids(records);
      assert ids[1..] == Ids(records[1..]);
      if records[0].id == id {
        WithoutHead(ids);
      } else {
        DropFirstIds(records[1..], id);
        IdsSplit(records[0], DropFirst(records[1..], id));
      }
    }
  }

  lemma {:induction false} WithoutAppend(a: seq<TaskId>, b: seq<TaskId>, id: TaskId)
    ensures Without(a + b, id) == Without(a, id) + Without(b, id)
  {
    if a == [] {
      assert a + b == b;
    } else {
      assert (a + b)[1..] == a[1..] + b;
      WithoutAppend(a[1..], b, id);
    }
  }

  lemma WithoutLast(ids: seq<TaskId>, last: TaskId, id: TaskId)
    ensures Without(ids + [last], id) == Without(ids, id) + if last == id then [] else [last]
  {
    WithoutAppend(ids, [last], id);
  }

  lemma OpenLater(calls: seq<Call>, c: Call, key: ListKey, i: nat)
    requires i < |calls|
    ensures Open(calls + [c], key, i) <==> Open(calls, key, i) && !Ends(c, key, calls[i].id)
  {
    var all := calls + [c];
    assert all[i] == calls[i] && all[|calls|] == c;
    assert forall j :: i < j < |calls| ==> all[j] == calls[j];
  }

  /** A later call closes at most the starts of its own id. */
  lemma {:induction false} OpenIdsLater(calls: seq<Call>, c: Call, key: ListKey, n: nat)
    requires n <= |calls|
    ensures OpenIds(calls + [c], key, n) ==
            if c.Complete? && KeyOf(c.source) == key then Without(OpenIds(calls, key, n), c.id)
            else OpenIds(calls, key, n)
  {
    if n > 0 {
      var id := calls[n - 1].id;
      OpenIdsLater(calls, c, key, n - 1);
      OpenLater(calls, c, key, n - 1);
      assert (calls + [c])[n - 1] == calls[n - 1];
      if Open(calls, key, n - 1) && c.Complete? {
        WithoutLast(OpenIds(calls, key, n - 1), id, c.id);
      }
    }
  }

  /** One more call adds its start, or closes the starts of the id it completes. */
  lemma OpenIdsNext(calls: seq<Call>, c: Call, key: ListKey)
    ensures OpenIds(calls + [c], key, |calls| + 1) ==
            if Starts(c, key) then OpenIds(calls, key, |calls|) + [c.id]
            else if c.Complete? && KeyOf(c.source) == key then Without(OpenIds(calls, key, |calls|), c.id)
            else OpenIds(calls, key, |calls|)
  {
    OpenIdsLater(calls, c, key, |calls|);
    assert Open(calls + [c], key, |calls|) == Starts(c, key);
  }

  ghost predicate StartedBefore(calls: seq<Call>, key: ListKey, n: nat, id: TaskId)
    requires n <= |calls|
  {
    exists i :: 0 <= i < n && Starts(calls[i], key) && calls[i].id == id
  }

  lemma {:induction false} OpenIdsIn(calls: seq<Call>, key: ListKey, n: nat)
    requires n <= |calls| && NoRepeats(calls, key)
    ensures Distinct(OpenIds(calls, key, n))
    ensures forall id :: id in OpenIds(calls, key, n) ==> StartedBefore(calls, key, n, id)
  {
    if n > 0 {
      OpenIdsIn(calls, key, n - 1);
      var ids := OpenIds(calls, key, n - 1);
      forall id | StartedBefore(calls, key, n - 1, id)
        ensures StartedBefore(calls, key, n, id)
      {
      }
      if Open(calls, key, n - 1) {
        assert StartedBefore(calls, key, n, calls[n - 1].id);
        assert !StartedBefore(calls, key, n - 1, calls[n - 1].id);
      }
    }
  }

  lemma ActiveAfter(e: WorkerEntry, c: Call, key: ListKey)
    requires key != QueueList
    ensures Active(Apply(e, c), key) ==
            if Starts(c, key) then Active(e, key) + [NewRecord(c.id, "", c.now, Some(c.now), Executing, c.source)]
            else if c.Complete? && KeyOf(c.source) == key then DropFirst(Active(e, key), c.id)
            else Active(e, key)
  {
  }

  /** For every source but the queue, the active list is exactly the starts that nothing has completed since,
      in the order they were made, as long as no id is started twice. */
  lemma {:induction false} ActiveIsOpen(e: WorkerEntry, calls: seq<Call>, key: ListKey)
    requires key != QueueList && Active(e, key) == [] && NoRepeats(calls, key)
    ensures Ids(Active(Run(e, calls), key)) == OpenIds(calls, key, |calls|)
  {
    if calls != [] {
      var front := calls[..|calls| - 1];
      var c := calls[|calls| - 1];
      var before := Active(Run(e, front), key);
      assert calls == front + [c];
      assert NoRepeats(front, key);
      ActiveIsOpen(e, front, key);
      OpenIdsIn(front, key, |front|);
      ActiveAfter(Run(e, front), c, key);
      OpenIdsNext(front, c, key);
      if c.Complete? && KeyOf(c.source) == key {
        DropFirstIds(before, c.id);
      }
    }
  }
}
