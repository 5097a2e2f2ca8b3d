/** The shared worker table of qw/state.py: one entry per worker, always replaced as a whole value. */
module SharedState {
  import opened Common

  /** Task ids are UUIDs, that is 128-bit integers; no operation looks inside one. */
  type TaskId = nat

  datatype Source = FromQueue | FromTcp | FromRedis | FromBroker | FromUnknown(name: string)

  datatype ListKey = QueueList | TcpList | RedisList | BrokerList

  datatype Phase = Queued | Executing | Completed

  datatype TaskRecord = TaskRecord(
    id: TaskId,
    functionName: string,
    enqueuedAt: real,
    startedAt: Option<real>,
    completedAt: Option<real>,
    duration: Option<real>,
    phase: Phase,
    result: string,
    source: Source)

  datatype LedgerEntry = LedgerEntry(id: TaskId, payload: string, enqueuedAt: real)

  datatype Status = Healthy | Draining

  datatype WorkerEntry = WorkerEntry(
    pid: int,
    queue: seq<TaskRecord>,
    tcp: seq<TaskRecord>,
    redis: seq<TaskRecord>,
    broker: seq<TaskRecord>,
    completed: seq<TaskRecord>,
    heartbeat: real,
    status: Status,
    drainingSince: Option<real>,
    ledger: seq<LedgerEntry>)

  const MAX_COMPLETED := 10

  function InitialEntry(pid: int): WorkerEntry {
    WorkerEntry(pid, [], [], [], [], [], 0.0, Healthy, None, [])
  }

  /** An unknown source shares the TCP list. */
  function KeyOf(source: Source): ListKey {
    match source
    case FromQueue => QueueList
    case FromTcp => TcpList
    case FromRedis => RedisList
    case FromBroker => BrokerList
    case FromUnknown(_) => TcpList
  }

  function Active(e: WorkerEntry, key: ListKey): seq<TaskRecord> {
    match key
    case QueueList => e.queue
    case TcpList => e.tcp
    case RedisList => e.redis
    case BrokerList => e.broker
  }

  function WithActive(e: WorkerEntry, key: ListKey, records: seq<TaskRecord>): WorkerEntry {
    match key
    case QueueList => e.(queue := records)
    case TcpList => e.(tcp := records)
    case RedisList => e.(redis := records)
    case BrokerList => e.(broker := records)
  }

  function NewRecord(id: TaskId, functionName: string, now: real, startedAt: Option<real>, phase: Phase, source: Source)
    : TaskRecord
  {
    TaskRecord(id, functionName, now, startedAt, None, None, phase, "", source)
  }

  function QueueTask(e: WorkerEntry, id: TaskId, functionName: string, now: real): WorkerEntry {
    e.(queue := e.queue + [NewRecord(id, functionName, now, None, Queued, FromQueue)])
  }

  function StartOne(r: TaskRecord, id: TaskId, now: real): TaskRecord {
    if r.id == id then r.(phase := Executing, startedAt := Some(now)) else r
  }

  /** Every record with this id becomes executing; the others and the order stay. */
  function StartRecords(records: seq<TaskRecord>, id: TaskId, now: real): (r: seq<TaskRecord>)
    ensures |r| == |records|
    ensures forall i :: 0 <= i < |r| ==> r[i] == StartOne(records[i], id, now)
  {
    if records == [] then [] else [StartOne(records[0], id, now)] + StartRecords(records[1..], id, now)
  }

  function ExecuteTask(e: WorkerEntry, id: TaskId, source: Source, now: real): WorkerEntry {
    if source == FromQueue then
      e.(queue := StartRecords(e.queue, id, now))
    else
      WithActive(e, KeyOf(source), Active(e, KeyOf(source)) + [NewRecord(id, "", now, Some(now), Executing, source)])
  }

  /** The first record with this id, if there is one. */
  function FindFirst(records: seq<TaskRecord>, id: TaskId): Option<TaskRecord> {
    if records == [] then None
    else if records[0].id == id then Some(records[0])
    else FindFirst(records[1..], id)
  }

  /** The records with the first one of this id dropped. */
  function DropFirst(records: seq<TaskRecord>, id: TaskId): seq<TaskRecord> {
    if records == [] then []
    else if records[0].id == id then records[1..]
    else [records[0]] + DropFirst(records[1..], id)
  }

  /** Position k is the first with the id, or the end if there is none. */
  ghost predicate FirstWith(records: seq<TaskRecord>, id: TaskId, k: nat) {
    k <= |records| && (forall j :: 0 <= j < k ==> records[j].id != id) && (k < |records| ==> records[k].id == id)
  }

  lemma {:induction false} FirstExists(records: seq<TaskRecord>, id: TaskId) returns (k: nat)
    ensures FirstWith(records, id, k)
    ensures FindFirst(records, id) == if k < |records| then Some(records[k]) else None
  {
    k := 0;
    if records != [] && records[0].id != id {
      k := FirstExists(records[1..], id);
      k := k + 1;
    }
  }

  /** Of the first record with the id, that alone is dropped. */
  lemma {:induction false} DropsFirst(records: seq<TaskRecord>, id: TaskId, k: nat)
    requires FirstWith(records, id, k)
    ensures DropFirst(records, id) == if k < |records| then records[..k] + records[k + 1..] else records
  {
    if k > 0 {
      var rest := records[1..];
      assert FirstWith(rest, id, k - 1);
      DropsFirst(rest, id, k - 1);
      assert records == [records[0]] + rest;
      assert records[..k] == [records[0]] + rest[..k - 1];
    }
  }

  function CompletedRecord(found: Option<TaskRecord>, id: TaskId, result: string, source: Source, now: real)
    : TaskRecord
  {
    var r := if found.Some? then found.value else NewRecord(id, "", now, Some(now), Executing, source);
    // a start time of zero counts as missing
    var started := if r.startedAt.Some? && r.startedAt.value != 0.0 then r.startedAt.value else now;
    r.(completedAt := Some(now), duration := Some(now - started), phase := Completed, result := result)
  }

  /** The last MAX_COMPLETED records. */
  function Capped(records: seq<TaskRecord>): seq<TaskRecord> {
    if |records| > MAX_COMPLETED then records[|records| - MAX_COMPLETED..] else records
  }

  function CompleteTask(e: WorkerEntry, id: TaskId, result: string, source: Source, now: real): WorkerEntry {
    var records := Active(e, KeyOf(source));
    var done := CompletedRecord(FindFirst(records, id), id, result, source, now);
    WithActive(e, KeyOf(source), DropFirst(records, id)).(completed := Capped(e.completed + [done]))
  }

  function Heartbeat(e: WorkerEntry, now: real): WorkerEntry {
    e.(heartbeat := now)
  }

  function WithStatus(e: WorkerEntry, status: Status, since: Option<real>): WorkerEntry {
    e.(status := status, drainingSince := since)
  }

  function AddToLedger(e: WorkerEntry, id: TaskId, payload: string, now: real): WorkerEntry {
    e.(ledger := e.ledger + [LedgerEntry(id, payload, now)])
  }

  function DropEntries(ledger: seq<LedgerEntry>, id: TaskId): (r: seq<LedgerEntry>)
    ensures forall x :: x in r <==> x in ledger && x.id != id
  {
    if ledger == [] then []
    else if ledger[0].id == id then DropEntries(ledger[1..], id)
    else [ledger[0]] + DropEntries(ledger[1..], id)
  }

  function RemoveFromLedger(e: WorkerEntry, id: TaskId): WorkerEntry {
    e.(ledger := DropEntries(e.ledger, id))
  }

  function ClearLedger(e: WorkerEntry): WorkerEntry {
    e.(ledger := [])
  }

  // ---------------- the three views of the waiting tasks ----------------

  function LedgerIds(ledger: seq<LedgerEntry>): (r: seq<TaskId>)
    ensures |r| == |ledger|
    ensures forall i :: 0 <= i < |r| ==> r[i] == ledger[i].id
  {
    seq(|ledger|, i requires 0 <= i < |ledger| => ledger[i].id)
  }

  function QueuedIds(records: seq<TaskRecord>): seq<TaskId> {
    if records == [] then []
    else if records[0].phase == Queued then [records[0].id] + QueuedIds(records[1..])
    else QueuedIds(records[1..])
  }

  lemma LedgerIdsHead(ledger: seq<LedgerEntry>)
    requires ledger != []
    ensures LedgerIds(ledger) == [ledger[0].id] + LedgerIds(ledger[1..])
    ensures LedgerIds(ledger)[1..] == LedgerIds(ledger[1..])
  {
  }

  lemma {:induction false} LedgerIdsDrop(ledger: seq<LedgerEntry>, id: TaskId)
    ensures LedgerIds(DropEntries(ledger, id)) == Without(LedgerIds(ledger), id)
  {
    if ledger != [] {
      LedgerIdsHead(ledger);
      LedgerIdsDrop(ledger[1..], id);
      if ledger[0].id != id {
        var rest := DropEntries(ledger[1..], id);
        LedgerIdsHead([ledger[0]] + rest);
        assert ([ledger[0]] + rest)[1..] == rest;
      }
    }
  }

  lemma {:induction false} QueuedIdsAppend(a: seq<TaskRecord>, b: seq<TaskRecord>)
    ensures QueuedIds(a + b) == QueuedIds(a) + QueuedIds(b)
  {
    if a == [] {
      assert a + b == b;
    } else {
      assert (a + b)[1..] == a[1..] + b;
      QueuedIdsAppend(a[1..], b);
    }
  }

  /** Marking a task as executing takes it out of the queued view and leaves the rest in order. */
  lemma {:induction false} QueuedIdsStart(records: seq<TaskRecord>, id: TaskId, now: real)
    ensures QueuedIds(StartRecords(records, id, now)) == Without(QueuedIds(records), id)
  {
    if records != [] {
      QueuedIdsStart(records[1..], id, now);
    }
  }

  lemma {:induction false} QueuedIdsDrop(records: seq<TaskRecord>, id: TaskId)
    requires id !in QueuedIds(records)
    ensures QueuedIds(DropFirst(records, id)) == QueuedIds(records)
  {
    if records != [] && records[0].id != id {
      QueuedIdsDrop(records[1..], id);
    }
  }
}
