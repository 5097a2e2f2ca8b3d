/** One worker slot: a process, its asyncio queue, and its entry in the shared table.
    Code between two awaits runs without another coroutine of the same process, so at most one
    coroutine is inside such a section; `Cpu` says how far it got. A crash, and every step of the
    supervisor, may come between any two of these steps. */
module WorkerProcess {
  import opened Common
  import opened SharedState

  /** An element of the asyncio queue; `retried` tells a re-queued execution from an admission by put. */
  datatype Item = Item(id: TaskId, retried: bool)

  datatype Cpu =
    | AtAwait
    | PutChecked(id: TaskId)    // past the draining guard
    | PutEnqueued(id: TaskId)   // in the asyncio queue
    | PutListed(id: TaskId)     // in the ledger
    | Got(item: Item)           // out of the asyncio queue
    | Unlisted(item: Item)      // out of the ledger
    | Marked(item: Item)        // marked executing

  datatype Process =
    | Dead
    | Booting
    | Running(cpu: Cpu, queue: seq<Item>, replying: set<TaskId>, running: multiset<TaskId>, finishing: multiset<TaskId>)

  /** `tainted`: the supervisor has emptied the ledger under the running process.
      `marked`: the ledger at the moment the worker was last marked draining. */
  datatype Slot = Slot(process: Process, entry: Option<WorkerEntry>, tainted: bool, marked: seq<LedgerEntry>)

  datatype Step =
    | Boot(pid: int)
    | Crash
    | PutCheck(id: TaskId)
    | PutDiscard
    | PutEnqueue
    | PutList(payload: string, now: real)
    | PutRecord(functionName: string, now: real)
    | Reply(id: TaskId)
    | Get
    | Unlist
    | MarkExecuting(now: real)
    | Start
    | Retry(id: TaskId)
    | Finish(id: TaskId, late: bool, result: string, now: real)  // late: after its retry was queued
    | Beat(now: real)
    | OtherStart(id: TaskId, source: Source, now: real)
    | OtherFinish(id: TaskId, source: Source, result: string, now: real)

  predicate AtAwaitPoint(s: Slot) {
    s.process.Running? && s.process.cpu.AtAwait? && s.entry.Some?
  }

  predicate Inside(s: Slot) {
    s.process.Running? && s.entry.Some?
  }

  predicate Enabled(s: Slot, step: Step) {
    match step
    case Boot(_) => s.process.Booting?
    case Crash => !s.process.Dead?
    case PutCheck(_) => AtAwaitPoint(s) && s.entry.value.status != Draining
    case PutDiscard => Inside(s) && s.process.cpu.PutChecked?
    case PutEnqueue => Inside(s) && s.process.cpu.PutChecked?
    case PutList(_, _) => Inside(s) && s.process.cpu.PutEnqueued?
    case PutRecord(_, _) => Inside(s) && s.process.cpu.PutListed?
    case Reply(id) => AtAwaitPoint(s) && id in s.process.replying
    case Get => AtAwaitPoint(s) && s.process.queue != []
    case Unlist => Inside(s) && s.process.cpu.Got?
    case MarkExecuting(_) => Inside(s) && s.process.cpu.Unlisted?
    case Start => Inside(s) && s.process.cpu.Marked?
    case Retry(id) => AtAwaitPoint(s) && id in s.process.running
    case Finish(id, late, _, _) => AtAwaitPoint(s) && id in if late then s.process.finishing else s.process.running
    case Beat(_) => AtAwaitPoint(s)
    case OtherStart(_, source, _) => AtAwaitPoint(s) && source != FromQueue
    case OtherFinish(_, source, _, _) => AtAwaitPoint(s) && source != FromQueue
  }

  function Next(s: Slot, step: Step): Slot
    requires Enabled(s, step)
  {
    var p := s.process;
    match step
    case Boot(pid) => Slot(Running(AtAwait, [], {}, multiset{}, multiset{}), Some(InitialEntry(pid)), false, [])
    case Crash => s.(process := Dead, tainted := false)
    case PutCheck(id) => s.(process := p.(cpu := PutChecked(id)))
    case PutDiscard => s.(process := p.(cpu := AtAwait))
    case PutEnqueue => s.(process := p.(cpu := PutEnqueued(p.cpu.id), queue := p.queue + [Item(p.cpu.id, false)]))
    case PutList(payload, now) =>
      s.(process := p.(cpu := PutListed(p.cpu.id)), entry := Some(AddToLedger(s.entry.value, p.cpu.id, payload, now)))
    case PutRecord(fn, now) =>
      s.(process := p.(cpu := AtAwait, replying := p.replying + {p.cpu.id}),
        entry := Some(QueueTask(s.entry.value, p.cpu.id, fn, now)))
    case Reply(id) => s.(process := p.(replying := p.replying - {id}))
    case Get => s.(process := p.(cpu := Got(p.queue[0]), queue := p.queue[1..]))
    case Unlist =>
      s.(process := p.(cpu := Unlisted(p.cpu.item)), entry := Some(RemoveFromLedger(s.entry.value, p.cpu.item.id)))
    case MarkExecuting(now) =>
      s.(process := p.(cpu := Marked(p.cpu.item)),
        entry := Some(ExecuteTask(s.entry.value, p.cpu.item.id, FromQueue, now)))
    case Start => s.(process := p.(cpu := AtAwait, running := p.running + multiset{p.cpu.item.id}))
    case Retry(id) =>
      s.(process := p.(queue := p.queue + [Item(id, true)],
        running := p.running - multiset{id}, finishing := p.finishing + multiset{id}))
    case Finish(id, late, result, now) =>
      var p' := if late then p.(finishing := p.finishing - multiset{id})
                else p.(running := p.running - multiset{id});
      s.(process := p', entry := Some(CompleteTask(s.entry.value, id, result, FromQueue, now)))
    case Beat(now) => s.(entry := Some(Heartbeat(s.entry.value, now)))
    case OtherStart(id, source, now) => s.(entry := Some(ExecuteTask(s.entry.value, id, source, now)))
    case OtherFinish(id, source, result, now) => s.(entry := Some(CompleteTask(s.entry.value, id, result, source, now)))
  }

  // ---------------- the three views ----------------

  /** The tasks admitted by put that are still in the asyncio queue, oldest first. */
  function Admitted(queue: seq<Item>): seq<TaskId> {
    if queue == [] then []
    else if queue[0].retried then Admitted(queue[1..])
    else [queue[0].id] + Admitted(queue[1..])
  }

  lemma {:induction false} AdmittedAppend(a: seq<Item>, b: seq<Item>)
    ensures Admitted(a + b) == Admitted(a) + Admitted(b)
  {
    if a == [] {
      assert a + b == b;
    } else {
      assert (a + b)[1..] == a[1..] + b;
      AdmittedAppend(a[1..], b);
    }
  }

  /** The admitted task a consumer holds between taking it from the queue and the given point. */
  function Held(cpu: Cpu): seq<TaskId> {
    match cpu
    case Got(item) => if item.retried then [] else [item.id]
    case Unlisted(item) => if item.retried then [] else [item.id]
    case _ => []
  }

  /** Admitted tasks not yet marked executing, oldest first: what the three views should list. */
  function Waiting(p: Process): seq<TaskId>
    requires p.Running?
  {
    Held(p.cpu) + Admitted(p.queue)
  }

  /** Tasks that have left the waiting list: retried executions and executions in a consumer's hands. */
  ghost predicate Handled(p: Process, id: TaskId)
    requires p.Running?
  {
    || Item(id, true) in p.queue
    || id in p.running
    || id in p.finishing
    || ((p.cpu.Got? || p.cpu.Unlisted?) && p.cpu.item == Item(id, true))
    || (p.cpu.Marked? && p.cpu.item.id == id)
  }

  /** How far each view is from the waiting list while a coroutine is between two awaits. */
  ghost predicate ViewsAgree(s: Slot)
    requires Inside(s)
  {
    var w := Waiting(s.process);
    var l := LedgerIds(s.entry.value.ledger);
    var q := QueuedIds(s.entry.value.queue);
    match s.process.cpu
    case PutEnqueued(id) => w == l + [id] && q == l
    case PutListed(id) => w == l && l == q + [id]
    case Unlisted(_) => l == Admitted(s.process.queue) && q == w
    case _ => l == w && q == w
  }

  /** A waiting task waits once and has not been handled; one about to be put is not there at all. */
  ghost predicate WaitingInv(p: Process)
    requires p.Running?
  {
    && Distinct(Waiting(p))
    && (forall id :: id in Waiting(p) ==> !Handled(p, id))
    && (p.cpu.PutChecked? ==> p.cpu.id !in Waiting(p) && !Handled(p, p.cpu.id))
  }

  /** What every step keeps; the views agree while no rescue has emptied the ledger under the process. */
  ghost predicate ViewInv(s: Slot) {
    s.process.Running? ==> s.entry.Some? && WaitingInv(s.process) && (!s.tainted ==> ViewsAgree(s))
  }

  /** Every id that a slot still mentions. */
  ghost predicate Mentions(s: Slot, id: TaskId) {
    || (s.entry.Some? && id in LedgerIds(s.entry.value.ledger))
    || (s.process.Running? && (
      || (exists b :: Item(id, b) in s.process.queue)
      || id in s.process.replying
      || id in s.process.running
      || id in s.process.finishing
      || CpuMentions(s.process.cpu, id)))
  }

  ghost predicate CpuMentions(cpu: Cpu, id: TaskId) {
    match cpu
    case AtAwait => false
    case PutChecked(x) => x == id
    case PutEnqueued(x) => x == id
    case PutListed(x) => x == id
    case Got(item) => item.id == id
    case Unlisted(item) => item.id == id
    case Marked(item) => item.id == id
  }

  lemma {:induction false} AdmittedIn(queue: seq<Item>, id: TaskId)
    requires id in Admitted(queue)
    ensures Item(id, false) in queue
  {
    if queue[0].retried || queue[0].id != id {
      AdmittedIn(queue[1..], id);
    }
  }

  lemma ViewInvEnqueue(s: Slot)
    requires Enabled(s, PutEnqueue) && ViewInv(s)
    ensures ViewInv(Next(s, PutEnqueue))
  {
    var p := s.process;
    var s' := Next(s, PutEnqueue);
    AdmittedAppend(p.queue, [Item(p.cpu.id, false)]);
    assert Waiting(s'.process) == Waiting(p) + [p.cpu.id];
    assert forall x :: Item(x, true) in s'.process.queue <==> Item(x, true) in p.queue;
  }

  lemma ViewInvPut(s: Slot, step: Step)
    requires Enabled(s, step) && ViewInv(s)
    requires step.PutCheck? ==> !Mentions(s, step.id)
    requires step.PutCheck? || step.PutDiscard?
    ensures ViewInv(Next(s, step))
  {
    var p := s.process;
    match step
    case PutCheck(id) =>
      assert Item(id, true) !in p.queue && Item(id, false) !in p.queue;
      if id in Waiting(p) {
        AdmittedIn(p.queue, id);
      }
    case _ =>
  }

  lemma ViewInvList(s: Slot, payload: string, now: real)
    requires Enabled(s, PutList(payload, now)) && ViewInv(s)
    ensures ViewInv(Next(s, PutList(payload, now)))
  {
    var s' := Next(s, PutList(payload, now));
    assert LedgerIds(s'.entry.value.ledger) == LedgerIds(s.entry.value.ledger) + [s.process.cpu.id];
    assert forall x :: Handled(s'.process, x) == Handled(s.process, x);
  }

  lemma ViewInvRecord(s: Slot, fn: string, now: real)
    requires Enabled(s, PutRecord(fn, now)) && ViewInv(s)
    ensures ViewInv(Next(s, PutRecord(fn, now)))
  {
    QueuedIdsAppend(s.entry.value.queue, [NewRecord(s.process.cpu.id, fn, now, None, Queued, FromQueue)]);
    assert forall x :: Handled(Next(s, PutRecord(fn, now)).process, x) == Handled(s.process, x);
  }

  lemma ViewInvGet(s: Slot)
    requires Enabled(s, Get) && ViewInv(s)
    ensures ViewInv(Next(s, Get))
  {
    var p := s.process;
    var s' := Next(s, Get);
    assert p.queue == [p.queue[0]] + p.queue[1..];
    assert Waiting(s'.process) == Waiting(p);
    assert forall x :: Handled(s'.process, x) ==> Handled(p, x);
  }

  lemma ViewInvUnlist(s: Slot)
    requires Enabled(s, Unlist) && ViewInv(s)
    ensures ViewInv(Next(s, Unlist))
  {
    var p := s.process;
    var id := p.cpu.item.id;
    LedgerIdsDrop(s.entry.value.ledger, id);
    if p.cpu.item.retried {
      assert Handled(p, id);
    } else {
      WithoutHead(Waiting(p));
    }
    assert forall x :: Handled(Next(s, Unlist).process, x) == Handled(p, x);
  }

  /** Marking a task takes it, and nothing else, out of the waiting list. */
  lemma MarkWaiting(p: Process, p': Process)
    requires p.Running? && p.cpu.Unlisted? && WaitingInv(p) && p' == p.(cpu := Marked(p.cpu.item))
    ensures Waiting(p') == Without(Waiting(p), p.cpu.item.id) && Distinct(Waiting(p'))
  {
    var id := p.cpu.item.id;
    if p.cpu.item.retried {
      assert Handled(p, id);
      assert Waiting(p') == Waiting(p);
    } else {
      WithoutHead(Waiting(p));
      assert Waiting(p') == Waiting(p)[1..];
    }
  }

  lemma MarkHandled(p: Process, p': Process, id: TaskId)
    requires p.Running? && p.cpu.Unlisted? && p' == p.(cpu := Marked(p.cpu.item)) && Handled(p', id)
    ensures Handled(p, id) || id == p.cpu.item.id
  {
  }

  lemma ViewInvMark(s: Slot, now: real)
    requires Enabled(s, MarkExecuting(now)) && ViewInv(s)
    ensures ViewInv(Next(s, MarkExecuting(now)))
  {
    var s' := Next(s, MarkExecuting(now));
    QueuedIdsStart(s.entry.value.queue, s.process.cpu.item.id, now);
    MarkWaiting(s.process, s'.process);
    forall id | id in Waiting(s'.process)
      ensures !Handled(s'.process, id)
    {
      if Handled(s'.process, id) {
        MarkHandled(s.process, s'.process, id);
      }
    }
  }

  lemma ViewInvRetry(s: Slot, id: TaskId)
    requires Enabled(s, Retry(id)) && ViewInv(s)
    ensures ViewInv(Next(s, Retry(id)))
  {
    var p := s.process;
    var p' := Next(s, Retry(id)).process;
    AdmittedAppend(p.queue, [Item(id, true)]);
    assert Waiting(p') == Waiting(p);
    assert Handled(p, id);
    assert forall x :: Handled(p', x) ==> Handled(p, x);
  }

  lemma ViewInvFinish(s: Slot, id: TaskId, late: bool, result: string, now: real)
    requires Enabled(s, Finish(id, late, result, now)) && ViewInv(s)
    ensures ViewInv(Next(s, Finish(id, late, result, now)))
  {
    assert forall x :: Handled(Next(s, Finish(id, late, result, now)).process, x) ==> Handled(s.process, x);
    if !s.tainted {
      assert Handled(s.process, id);
      QueuedIdsDrop(s.entry.value.queue, id);
    }
  }

  lemma ViewInvStart(s: Slot)
    requires Enabled(s, Start) && ViewInv(s)
    ensures ViewInv(Next(s, Start))
  {
    assert forall x :: Handled(Next(s, Start).process, x) ==> Handled(s.process, x);
  }

  lemma ViewInvOther(s: Slot, step: Step)
    requires Enabled(s, step) && ViewInv(s)
    requires step.Boot? || step.Crash? || step.Reply? || step.Beat? || step.OtherStart? || step.OtherFinish?
    ensures ViewInv(Next(s, step))
  {
  }

  /** Every step of a worker keeps the three views in step, whatever the consumers and retries do. */
  lemma ViewInvStep(s: Slot, step: Step)
    requires Enabled(s, step) && ViewInv(s)
    requires step.PutCheck? ==> !Mentions(s, step.id)
    ensures ViewInv(Next(s, step))
  {
    if step.PutCheck? || step.PutDiscard? {
      ViewInvPut(s, step);
    } else if step.PutEnqueue? {
      ViewInvEnqueue(s);
    } else if step.PutList? {
      ViewInvList(s, step.payload, step.now);
    } else if step.PutRecord? {
      ViewInvRecord(s, step.functionName, step.now);
    } else if step.Get? {
      ViewInvGet(s);
    } else if step.Unlist? {
      ViewInvUnlist(s);
    } else if step.MarkExecuting? {
      ViewInvMark(s, step.now);
    } else if step.Retry? {
      ViewInvRetry(s, step.id);
    } else if step.Finish? {
      ViewInvFinish(s, step.id, step.late, step.result, step.now);
    } else if step.Start? {
      ViewInvStart(s);
    } else {
      ViewInvOther(s, step);
    }
  }

  // ---------------- waiting tasks and the ledger ----------------

  /** A waiting task whose ledger entry should be there: written by its put and not yet removed by its consumer. */
  ghost predicate ShouldBeListed(s: Slot, id: TaskId) {
    && s.process.Running?
    && id in Waiting(s.process)
    && s.process.cpu != PutEnqueued(id)
    && s.process.cpu != Unlisted(Item(id, false))
  }

  /** Such a task that the ledger does not list: only a rescue can have taken its entry. */
  ghost predicate Uncovered(s: Slot, id: TaskId) {
    ShouldBeListed(s, id) && !(s.entry.Some? && id in LedgerIds(s.entry.value.ledger))
  }

  lemma UncoveredUnlist(s: Slot, id: TaskId)
    requires Enabled(s, Unlist) && ViewInv(s) && Uncovered(Next(s, Unlist), id)
    ensures Uncovered(s, id)
  {
    var item := s.process.cpu.item;
    LedgerIdsDrop(s.entry.value.ledger, item.id);
    assert Waiting(Next(s, Unlist).process) == Waiting(s.process);
    if item.retried {
      assert Handled(s.process, item.id);
    }
  }

  lemma UncoveredPut(s: Slot, step: Step, id: TaskId)
    requires step.PutEnqueue? || step.PutList?
    requires Enabled(s, step) && ViewInv(s) && Uncovered(Next(s, step), id)
    ensures Uncovered(s, id)
  {
    var p := s.process;
    var s' := Next(s, step);
    if step.PutEnqueue? {
      AdmittedAppend(p.queue, [Item(p.cpu.id, false)]);
      assert Waiting(s'.process) == Waiting(p) + [p.cpu.id];
    } else {
      assert LedgerIds(s'.entry.value.ledger) == LedgerIds(s.entry.value.ledger) + [p.cpu.id];
      assert LedgerIds(s'.entry.value.ledger)[|s.entry.value.ledger|] == p.cpu.id;
    }
  }

  lemma UncoveredQueue(s: Slot, step: Step, id: TaskId)
    requires step.Get? || step.MarkExecuting? || step.Retry?
    requires Enabled(s, step) && ViewInv(s) && Uncovered(Next(s, step), id)
    ensures Uncovered(s, id)
  {
    var p := s.process;
    var s' := Next(s, step);
    match step
    case Get =>
      assert p.queue == [p.queue[0]] + p.queue[1..];
      assert Waiting(s'.process) == Waiting(p);
    case MarkExecuting(_) =>
      assert Waiting(p) == Held(p.cpu) + Waiting(s'.process);
      if !p.cpu.item.retried {
        assert Waiting(p)[0] == p.cpu.item.id && Waiting(p)[1..] == Waiting(s'.process);
      }
    case Retry(x) =>
      AdmittedAppend(p.queue, [Item(x, true)]);
      assert Waiting(s'.process) == Waiting(p);
  }

  /** No worker step takes the ledger entry of a task that still needs it. */
  lemma UncoveredStep(s: Slot, step: Step, id: TaskId)
    requires Enabled(s, step) && ViewInv(s) && Uncovered(Next(s, step), id)
    ensures Uncovered(s, id)
  {
    if step.Unlist? {
      UncoveredUnlist(s, id);
    } else if step.PutEnqueue? || step.PutList? {
      UncoveredPut(s, step, id);
    } else if step.Get? || step.MarkExecuting? || step.Retry? {
      UncoveredQueue(s, step, id);
    } else if !step.Boot? {
      EntryFrame(s, step);
      assert !step.Crash? ==> Waiting(Next(s, step).process) == Waiting(s.process);
    }
  }

  // ---------------- the ledger of a draining worker ----------------

  /** A put that has passed the draining guard and not yet written the ledger. */
  predicate MidPut(p: Process) {
    p.Running? && (p.cpu.PutChecked? || p.cpu.PutEnqueued?)
  }

  /** The ledger is what remains of `marked` from position k on, with one more entry if `extra` allows it. */
  ghost predicate SuffixFrom(ledger: seq<LedgerEntry>, marked: seq<LedgerEntry>, extra: bool, k: nat) {
    k <= |marked| && (
      || ledger == marked[k..]
      || (extra && ledger != [] && ledger[..|ledger| - 1] == marked[k..]))
  }

  ghost predicate SuffixPlusOne(ledger: seq<LedgerEntry>, marked: seq<LedgerEntry>, extra: bool) {
    exists k :: SuffixFrom(ledger, marked, extra, k)
  }

  ghost predicate DrainInv(s: Slot) {
    s.entry.Some? && s.entry.value.status == Draining ==>
      var ledger := s.entry.value.ledger;
      && SuffixPlusOne(ledger, s.marked, !MidPut(s.process))
      && (s.process.Running? && s.tainted ==> |ledger| <= 1 && (MidPut(s.process) ==> ledger == []))
  }

  lemma SuffixPlusOneTail(ledger: seq<LedgerEntry>, marked: seq<LedgerEntry>, extra: bool)
    requires ledger != [] && SuffixPlusOne(ledger, marked, extra)
    ensures SuffixPlusOne(ledger[1..], marked, extra)
  {
    var k: nat :| SuffixFrom(ledger, marked, extra, k);
    if ledger == marked[k..] {
      assert SuffixFrom(ledger[1..], marked, extra, k + 1);
    } else if |ledger| == 1 {
      assert SuffixFrom(ledger[1..], marked, extra, k);
    } else {
      assert ledger[1..][..|ledger| - 2] == ledger[..|ledger| - 1][1..] == marked[k + 1..];
      assert SuffixFrom(ledger[1..], marked, extra, k + 1);
    }
  }

  lemma DropEntriesSmall(ledger: seq<LedgerEntry>, id: TaskId)
    ensures ledger == [] ==> DropEntries(ledger, id) == []
    ensures |ledger| == 1 ==> DropEntries(ledger, id) == if ledger[0].id == id then [] else ledger
  {
    if |ledger| == 1 {
      assert ledger == [ledger[0]];
    }
  }

  lemma {:induction false} DropEntriesNone(ledger: seq<LedgerEntry>, id: TaskId)
    requires id !in LedgerIds(ledger)
    ensures DropEntries(ledger, id) == ledger
  {
    if ledger != [] {
      assert LedgerIds(ledger)[1..] == LedgerIds(ledger[1..]);
      assert LedgerIds(ledger)[0] == ledger[0].id;
      DropEntriesNone(ledger[1..], id);
    }
  }

  /** The ledger entry a consumer removes is the oldest one, or there is none to remove. */
  lemma UnlistTakesHead(s: Slot)
    requires Enabled(s, Unlist) && ViewInv(s) && !s.tainted
    ensures var ledger := s.entry.value.ledger;
            var item := s.process.cpu.item;
            Next(s, Unlist).entry.value.ledger == if item.retried then ledger else ledger[1..]
    ensures !s.process.cpu.item.retried ==>
              s.entry.value.ledger != [] && s.entry.value.ledger[0].id == s.process.cpu.item.id
  {
    var ledger := s.entry.value.ledger;
    var item := s.process.cpu.item;
    if item.retried {
      assert Handled(s.process, item.id);
      DropEntriesNone(ledger, item.id);
    } else {
      assert LedgerIds(ledger)[0] == item.id;
      assert LedgerIds(ledger)[1..] == LedgerIds(ledger[1..]);
      DropEntriesNone(ledger[1..], item.id);
    }
  }

  lemma DrainInvUnlist(s: Slot)
    requires Enabled(s, Unlist) && ViewInv(s) && DrainInv(s)
    ensures DrainInv(Next(s, Unlist))
  {
    var ledger := s.entry.value.ledger;
    if s.entry.value.status == Draining {
      if s.tainted {
        DropEntriesSmall(ledger, s.process.cpu.item.id);
        if Next(s, Unlist).entry.value.ledger != ledger {
          assert SuffixFrom([], s.marked, true, |s.marked|);
        }
      } else {
        UnlistTakesHead(s);
        if !s.process.cpu.item.retried {
          SuffixPlusOneTail(ledger, s.marked, true);
        }
      }
    }
  }

  /** Only put, dequeue and boot write the ledger, and no worker step but boot writes the status. */
  lemma EntryFrame(s: Slot, step: Step)
    requires Enabled(s, step) && !step.Boot?
    ensures Next(s, step).marked == s.marked && Next(s, step).entry.Some? == s.entry.Some?
    ensures s.entry.Some? ==> Next(s, step).entry.value.status == s.entry.value.status
    ensures s.entry.Some? ==> Next(s, step).entry.value.drainingSince == s.entry.value.drainingSince
    ensures s.entry.Some? && !step.PutList? && !step.Unlist? ==>
              Next(s, step).entry.value.ledger == s.entry.value.ledger
  {
  }

  lemma SuffixGrows(ledger: seq<LedgerEntry>, marked: seq<LedgerEntry>, late: LedgerEntry)
    requires SuffixPlusOne(ledger, marked, false)
    ensures SuffixPlusOne(ledger + [late], marked, true)
  {
    var k: nat :| SuffixFrom(ledger, marked, false, k);
    assert (ledger + [late])[..|ledger|] == ledger;
    assert SuffixFrom(ledger + [late], marked, true, k);
  }

  lemma SuffixAllows(ledger: seq<LedgerEntry>, marked: seq<LedgerEntry>, extra: bool, extra': bool)
    requires SuffixPlusOne(ledger, marked, extra) && (extra ==> extra')
    ensures SuffixPlusOne(ledger, marked, extra')
  {
    var k: nat :| SuffixFrom(ledger, marked, extra, k);
    assert SuffixFrom(ledger, marked, extra', k);
  }

  lemma DrainInvList(s: Slot, payload: string, now: real)
    requires Enabled(s, PutList(payload, now)) && DrainInv(s)
    ensures DrainInv(Next(s, PutList(payload, now)))
  {
    if s.entry.value.status == Draining {
      SuffixGrows(s.entry.value.ledger, s.marked, LedgerEntry(s.process.cpu.id, payload, now));
    }
  }

  /** While a worker drains, its ledger only loses entries from the front, but for one late put. */
  lemma DrainInvStep(s: Slot, step: Step)
    requires Enabled(s, step) && ViewInv(s) && DrainInv(s)
    ensures DrainInv(Next(s, step))
  {
    if step.Unlist? {
      DrainInvUnlist(s);
    } else if step.PutList? {
      DrainInvList(s, step.payload, step.now);
    } else if !step.Boot? && s.entry.Some? && s.entry.value.status == Draining {
      EntryFrame(s, step);
      assert MidPut(Next(s, step).process) ==> MidPut(s.process);
      SuffixAllows(s.entry.value.ledger, s.marked, !MidPut(s.process), !MidPut(Next(s, step).process));
    }
  }

  lemma MentionsLedger(s: Slot, step: Step, id: TaskId)
    requires Enabled(s, step) && Next(s, step).entry.Some? && id in LedgerIds(Next(s, step).entry.value.ledger)
    ensures Mentions(s, id)
  {
    if step.Unlist? {
      LedgerIdsDrop(s.entry.value.ledger, s.process.cpu.item.id);
    } else if step.PutList? {
      assert LedgerIds(Next(s, step).entry.value.ledger) == LedgerIds(s.entry.value.ledger) + [s.process.cpu.id];
    } else if !step.Boot? {
      EntryFrame(s, step);
    }
  }

  lemma MentionsQueue(s: Slot, step: Step, id: TaskId, b: bool)
    requires Enabled(s, step) && Next(s, step).process.Running? && Item(id, b) in Next(s, step).process.queue
    ensures Mentions(s, id)
  {
    if step.Get? {
      assert s.process.queue == [s.process.queue[0]] + s.process.queue[1..];
    }
  }

  lemma MentionsCpu(s: Slot, step: Step, id: TaskId)
    requires Enabled(s, step) && Next(s, step).process.Running? && CpuMentions(Next(s, step).process.cpu, id)
    ensures Mentions(s, id) || (step.PutCheck? && step.id == id)
  {
    if step.Get? {
      assert Item(s.process.queue[0].id, s.process.queue[0].retried) in s.process.queue;
    }
  }

  lemma MentionsHands(s: Slot, step: Step, id: TaskId)
    requires Enabled(s, step) && Next(s, step).process.Running?
    requires var p := Next(s, step).process; id in p.replying || id in p.running || id in p.finishing
    ensures Mentions(s, id)
  {
    if s.process.Running? {
      var p, p' := s.process, Next(s, step).process;
      assert id in p'.replying ==> id in p.replying || CpuMentions(p.cpu, id);
      assert id in p'.running ==> id in p.running || CpuMentions(p.cpu, id);
      assert id in p'.finishing ==> id in p.finishing || id in p.running;
    }
  }

  /** A worker only ever learns of a new task through put. */
  lemma MentionsStep(s: Slot, step: Step, id: TaskId)
    requires Enabled(s, step) && Mentions(Next(s, step), id)
    ensures Mentions(s, id) || (step.PutCheck? && step.id == id)
  {
    var s' := Next(s, step);
    if s'.entry.Some? && id in LedgerIds(s'.entry.value.ledger) {
      MentionsLedger(s, step, id);
    } else if b: bool :| Item(id, b) in s'.process.queue {
      MentionsQueue(s, step, id, b);
    } else if CpuMentions(s'.process.cpu, id) {
      MentionsCpu(s, step, id);
    } else {
      MentionsHands(s, step, id);
    }
  }
}
