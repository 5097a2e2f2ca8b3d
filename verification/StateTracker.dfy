/** qw/state.py as a class over the shared table. The clock is a parameter of every method that reads it. */
module StateTracking {
  import opened Common
  import opened SharedState

  /** The manager's dict proxy: worker names to whole entries. */
  class SharedTable {
    var entries: map<string, WorkerEntry>

    constructor ()
      ensures entries == map[]
    {
      entries := map[];
    }
  }

  class StateTracker {
    const table: SharedTable
    const workerName: string
    const pid: int

    /** Overwrites whatever entry a previous process of this name left. */
    constructor (table: SharedTable, workerName: string, pid: int)
      modifies table
      ensures this.table == table && this.workerName == workerName && this.pid == pid
      ensures table.entries == old(table.entries)[workerName := InitialEntry(pid)]
      ensures InitialEntry(pid).heartbeat == 0.0 && InitialEntry(pid).status == Healthy
      ensures InitialEntry(pid).drainingSince == None && InitialEntry(pid).ledger == []
      ensures InitialEntry(pid).queue == InitialEntry(pid).tcp == []
      ensures InitialEntry(pid).redis == InitialEntry(pid).broker == []
      ensures InitialEntry(pid).completed == []
    {
      this.table := table;
      this.workerName := workerName;
      this.pid := pid;
      new;
      table.entries := table.entries[workerName := InitialEntry(pid)];
    }

    predicate Registered()
      reads table
    {
      workerName in table.entries
    }

    function Entry(): WorkerEntry
      requires Registered()
      reads table
    {
      table.entries[workerName]
    }

    method TaskQueued(id: TaskId, functionName: string, now: real)
      requires Registered()
      modifies table
      ensures table.entries == old(table.entries)[workerName := QueueTask(old(Entry()), id, functionName, now)]
      ensures Entry() == old(Entry()).(queue := old(Entry()).queue
                + [TaskRecord(id, functionName, now, None, None, None, Queued, "", FromQueue)])
    {
      var d := Entry();
      var record := NewRecord(id, functionName, now, None, Queued, FromQueue);
      table.entries := table.entries[workerName := d.(queue := d.queue + [record])];
    }

    /** The loop of task_executing: the records of the id become executing, in place. */
    static method MarkExecuting(records: seq<TaskRecord>, id: TaskId, now: real) returns (marked: seq<TaskRecord>)
      ensures marked == StartRecords(records, id, now)
    {
      marked := [];
      for i := 0 to |records|
        invariant |marked| == i && forall k :: 0 <= k < i ==> marked[k] == StartOne(records[k], id, now)
      {
        var item := records[i];
        if item.id == id {
          item := item.(phase := Executing, startedAt := Some(now));
        }
        marked := marked + [item];
      }
    }

    method TaskExecuting(id: TaskId, source: Source, now: real)
      requires Registered()
      modifies table
      ensures table.entries == old(table.entries)[workerName := ExecuteTask(old(Entry()), id, source, now)]
      ensures source.FromQueue? ==>
                && Entry() == old(Entry()).(queue := Entry().queue) && |Entry().queue| == |old(Entry()).queue|
                && forall k :: 0 <= k < |Entry().queue| ==>
                     var was := old(Entry()).queue[k];
                     Entry().queue[k] == if was.id == id then was.(phase := Executing, startedAt := Some(now)) else was
      ensures var record := TaskRecord(id, "", now, Some(now), None, None, Executing, "", source);
              match source
              case FromQueue => true
              case FromRedis => Entry() == old(Entry()).(redis := old(Entry()).redis + [record])
              case FromBroker => Entry() == old(Entry()).(broker := old(Entry()).broker + [record])
              case _ => Entry() == old(Entry()).(tcp := old(Entry()).tcp + [record])
    {
      var key := KeyOf(source);
      var d := Entry();
      if source == FromQueue {
        var newQueue := MarkExecuting(d.queue, id, now);
        d := d.(queue := newQueue);
      } else {
        d := WithActive(d, key, Active(d, key) + [NewRecord(id, "", now, Some(now), Executing, source)]);
      }
      table.entries := table.entries[workerName := d];
    }

    /** The loop of task_completed: the first record of the id is taken out, the others keep their order. */
    static method TakeFirst(records: seq<TaskRecord>, id: TaskId)
      returns (found: Option<TaskRecord>, remaining: seq<TaskRecord>)
      ensures found == FindFirst(records, id) && remaining == DropFirst(records, id)
    {
      found, remaining := None, [];
      for i := 0 to |records|
        invariant match found
                  case None =>
                    && FindFirst(records, id) == FindFirst(records[i..], id)
                    && DropFirst(records, id) == remaining + DropFirst(records[i..], id)
                  case Some(_) =>
                    FindFirst(records, id) == found && DropFirst(records, id) == remaining + records[i..]
      {
        assert records[i..] == [records[i]] + records[i + 1..];
        if records[i].id == id && found.None? {
          found := Some(records[i]);
        } else {
          remaining := remaining + [records[i]];
        }
      }
    }

    method TaskCompleted(id: TaskId, result: string, source: Source, now: real)
      requires Registered()
      modifies table
      ensures table.entries == old(table.entries)[workerName := CompleteTask(old(Entry()), id, result, source, now)]
      ensures |Entry().completed| == Min(10, |old(Entry()).completed| + 1)
      ensures Entry().completed == (old(Entry()).completed + [Entry().completed[|Entry().completed| - 1]])
                [|old(Entry()).completed| + 1 - |Entry().completed|..]
      ensures var done := Entry().completed[|Entry().completed| - 1];
              match source
              case FromQueue =>
                && Entry() == old(Entry()).(queue := Entry().queue, completed := Entry().completed)
                && Completes(old(Entry()).queue, Entry().queue, done, id, result, source, now)
              case FromRedis =>
                && Entry() == old(Entry()).(redis := Entry().redis, completed := Entry().completed)
                && Completes(old(Entry()).redis, Entry().redis, done, id, result, source, now)
              case FromBroker =>
                && Entry() == old(Entry()).(broker := Entry().broker, completed := Entry().completed)
                && Completes(old(Entry()).broker, Entry().broker, done, id, result, source, now)
              case _ =>
                && Entry() == old(Entry()).(tcp := Entry().tcp, completed := Entry().completed)
                && Completes(old(Entry()).tcp, Entry().tcp, done, id, result, source, now)
    {
      var key := KeyOf(source);
      var d := Entry();
      var found, remaining := TakeFirst(Active(d, key), id);
      CompletesExactly(Active(d, key), id, result, source, now);
      var completedList := AppendCapped(d.completed, CompletedRecord(found, id, result, source, now));
      d := WithActive(d, key, remaining).(completed := completedList);
      table.entries := table.entries[workerName := d];
    }

    /** The first record of the id, if there is one, left its list and became the done one: result, phase and time are
        those of the call, and the duration runs from the start, or is zero if the record has none (or a zero one).
        Without a record the done one is made up, with an empty name and the call's time. */
    static ghost predicate Completes(
      was: seq<TaskRecord>, left: seq<TaskRecord>, done: TaskRecord,
      id: TaskId, result: string, source: Source, now: real)
    {
      && done.id == id && done.result == result && done.phase == Completed && done.completedAt == Some(now)
      && exists k: nat {:trigger FirstWith(was, id, k)} ::
           && FirstWith(was, id, k)
           && (if k == |was| then
                 left == was && done.functionName == "" && done.enqueuedAt == now && done.source == source
                 && done.startedAt == Some(now) && done.duration == Some(0.0)
               else
                 left == was[..k] + was[k + 1..] && done.functionName == was[k].functionName
                 && done.enqueuedAt == was[k].enqueuedAt && done.startedAt == was[k].startedAt
                 && done.source == was[k].source
                 && match was[k].startedAt
                    case None => done.duration == Some(0.0)
                    case Some(start) => done.duration == Some(if start == 0.0 then 0.0 else now - start))
    }

    static lemma CompletesExactly(records: seq<TaskRecord>, id: TaskId, result: string, source: Source, now: real)
      ensures Completes(records, DropFirst(records, id),
                CompletedRecord(FindFirst(records, id), id, result, source, now), id, result, source, now)
    {
      var k := FirstExists(records, id);
      DropsFirst(records, id, k);
    }

    static method AppendCapped(completed: seq<TaskRecord>, record: TaskRecord) returns (list: seq<TaskRecord>)
      ensures list == Capped(completed + [record])
    {
      list := completed + [record];
      if |list| > MAX_COMPLETED {
        list := list[|list| - MAX_COMPLETED..];
      }
    }

    method UpdateHeartbeat(now: real)
      requires Registered()
      modifies table
      ensures table.entries == old(table.entries)[workerName := Heartbeat(old(Entry()), now)]
      ensures Entry() == old(Entry()).(heartbeat := now)
    {
      table.entries := table.entries[workerName := Entry().(heartbeat := now)];
    }

    method SetStatus(status: Status, drainingSince: Option<real>)
      requires Registered()
      modifies table
      ensures table.entries == old(table.entries)[workerName := WithStatus(old(Entry()), status, drainingSince)]
      ensures Entry() == old(Entry()).(status := status, drainingSince := drainingSince)
    {
      table.entries := table.entries[workerName := Entry().(status := status, drainingSince := drainingSince)];
    }

    method GetStatus() returns (status: Status)
      requires Registered()
      ensures status == Entry().status
    {
      status := Entry().status;
    }

    method LedgerAdd(id: TaskId, payload: string, now: real)
      requires Registered()
      modifies table
      ensures table.entries == old(table.entries)[workerName := AddToLedger(old(Entry()), id, payload, now)]
      ensures Entry() == old(Entry()).(ledger := old(Entry()).ledger + [LedgerEntry(id, payload, now)])
    {
      var d := Entry();
      table.entries := table.entries[workerName := d.(ledger := d.ledger + [LedgerEntry(id, payload, now)])];
    }

    method LedgerRemove(id: TaskId)
      requires Registered()
      modifies table
      ensures table.entries == old(table.entries)[workerName := RemoveFromLedger(old(Entry()), id)]
      ensures Entry() == old(Entry()).(ledger := Entry().ledger)
      ensures forall x :: x in Entry().ledger <==> x in old(Entry()).ledger && x.id != id
    {
      var d := Entry();
      table.entries := table.entries[workerName := d.(ledger := DropEntries(d.ledger, id))];
    }

    method LedgerDrain() returns (drained: seq<LedgerEntry>)
      requires Registered()
      modifies table
      ensures drained == old(Entry().ledger)
      ensures table.entries == old(table.entries)[workerName := ClearLedger(old(Entry()))]
      ensures Entry() == old(Entry()).(ledger := [])
    {
      drained := Entry().ledger;
      table.entries := table.entries[workerName := Entry().(ledger := [])];
    }
  }
}
