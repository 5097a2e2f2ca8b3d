/** qw/broker/rabbit.py, wrap_callback: a failed message is dropped and published again with a raised x-retry header,
    until the header passes the limit. The broker keeps one instance for every publication, in order. */
module RabbitRedelivery {
  import opened Common
  import Decimal

  /** The x-retry header: missing, a number, text or bytes that int() reads, or something int() refuses. */
  datatype Header = Absent | Number(n: int) | Text(s: string) | Bytes(s: string) | Unreadable

  function RetryOf(h: Header): Option<int> {
    match h
    case Absent => Some(0)
    case Number(n) => Some(n)
    case Text(s) => Decimal.Parse(s)
    case Bytes(s) => Decimal.Parse(s)
    case Unreadable => None
  }

  /** The origin is the index of the first publication a message descends from; content is its body with every
      property but x-retry; route its exchange and routing key. */
  datatype Message = Message(origin: nat, content: nat, route: nat, retry: Header)

  /** Queued or handed to a callback (Stuck: the callback is over but has settled nothing); then either acked,
      discarded, or dropped to be published again. Lost: the worker died between the drop and the publication. */
  datatype Place =
    Queued | Delivered(tag: nat) | Stuck(tag: nat) | Republishing | Replaced(next: nat) | Acked | Discarded | Lost

  datatype Instance = Instance(msg: Message, place: Place)

  /** Besides the instances: which tags are unsettled, in whose hands; which were settled, in order;
      the first tag of this connection and the next one; and how often a delivery failed, by origin. */
  datatype Broker = Broker(
    instances: seq<Instance>, open: map<nat, nat>, settled: seq<nat>, firstTag: nat, nextTag: nat,
    failed: multiset<nat>)

  datatype Event =
    | Publish(content: nat, route: nat, retry: Header)  // by a client
    | Deliver(i: nat)
    | Success(i: nat)    // the callback returned: ack
    | Failure(i: nat)    // it raised: nack without requeue, unless the header cannot be read
    | Republish(i: nat)  // after the nack, with the raised header
    | Crash              // the connection dies: the broker takes unsettled messages back

  const EMPTY := Broker([], map[], [], 0, 0, multiset{})

  predicate Final(p: Place) {
    p.Acked? || p.Discarded? || p.Lost?
  }

  predicate Enabled(b: Broker, e: Event) {
    match e
    case Publish(_, _, _) => true
    case Deliver(i) => i < |b.instances| && b.instances[i].place.Queued?
    case Success(i) => i < |b.instances| && b.instances[i].place.Delivered?
    case Failure(i) => i < |b.instances| && b.instances[i].place.Delivered?
    case Republish(i) =>
      i < |b.instances| && b.instances[i].place.Republishing? && RetryOf(b.instances[i].msg.retry).Some?
    case Crash => true
  }

  function PutAt(b: Broker, i: nat, place: Place): Broker
    requires i < |b.instances|
  {
    b.(instances := b.instances[i := Instance(b.instances[i].msg, place)])
  }

  /** basic_ack or basic_nack: the tag is settled and the instance leaves the queue. */
  function Settle(b: Broker, i: nat, place: Place): Broker
    requires i < |b.instances| && b.instances[i].place.Delivered?
  {
    var tag := b.instances[i].place.tag;
    PutAt(b, i, place).(open := b.open - {tag}, settled := b.settled + [tag])
  }

  /** basic_publish by the callback that dropped instance i. */
  function Renew(b: Broker, i: nat, retry: Header): Broker
    requires i < |b.instances|
  {
    var dropped := PutAt(b, i, Replaced(|b.instances|));
    dropped.(instances := dropped.instances + [Instance(b.instances[i].msg.(retry := retry), Queued)])
  }

  function AfterCrash(p: Place): Place {
    if p.Delivered? || p.Stuck? then Queued else if p.Republishing? then Lost else p
  }

  function Next(b: Broker, max: int, e: Event): Broker
    requires Enabled(b, e)
  {
    match e
    case Publish(content, route, retry) =>
      b.(instances := b.instances + [Instance(Message(|b.instances|, content, route, retry), Queued)])
    case Deliver(i) =>
      PutAt(b, i, Delivered(b.nextTag)).(open := b.open[b.nextTag := i], nextTag := b.nextTag + 1)
    case Success(i) => Settle(b, i, Acked)
    case Failure(i) =>
      var m := b.instances[i].msg;
      var retry := RetryOf(m.retry);
      if retry.None? then PutAt(b, i, Stuck(b.instances[i].place.tag))
      else
        Settle(b, i, if retry.value + 1 <= max then Republishing else Discarded)
        .(failed := b.failed + multiset{m.origin})
    case Republish(i) => Renew(b, i, Text(Decimal.Show(RetryOf(b.instances[i].msg.retry).value + 1)))
    case Crash =>
      b.(instances := seq(|b.instances|, k requires 0 <= k < |b.instances| =>
                            Instance(b.instances[k].msg, AfterCrash(b.instances[k].place))),
         open := map[], firstTag := b.nextTag)
  }

  ghost predicate Run(b: Broker, max: int, events: seq<Event>)
    decreases |events|
  {
    events == [] || (Enabled(b, events[0]) && Run(Next(b, max, events[0]), max, events[1..]))
  }

  function Exec(b: Broker, max: int, events: seq<Event>): Broker
    requires Run(b, max, events)
    decreases |events|
  {
    if events == [] then b else Exec(Next(b, max, events[0]), max, events[1..])
  }

  // ---------------- the consumer ----------------

  class Channel {
    var broker: Broker

    method BasicAck(i: nat)
      requires i < |broker.instances| && broker.instances[i].place.Delivered?
      modifies this
      ensures broker == Settle(old(broker), i, Acked)
    {
      broker := Settle(broker, i, Acked);
    }

    /** Without requeue. The handler goes on to publish, or not. */
    method BasicNack(i: nat, publishes: bool)
      requires i < |broker.instances| && broker.instances[i].place.Delivered?
      modifies this
      ensures broker == Settle(old(broker), i, if publishes then Republishing else Discarded)
                        .(failed := old(broker.failed) + multiset{old(broker).instances[i].msg.origin})
    {
      broker := Settle(broker, i, if publishes then Republishing else Discarded)
      .(failed := broker.failed + multiset{broker.instances[i].msg.origin});
    }

    method BasicPublish(i: nat, retry: Header)
      requires i < |broker.instances| && broker.instances[i].place.Republishing?
      modifies this
      ensures broker == Renew(old(broker), i, retry)
    {
      broker := Renew(broker, i, retry);
    }

    /** The handler raises out of the callback and settles nothing. */
    method Abandon(i: nat)
      requires i < |broker.instances| && broker.instances[i].place.Delivered?
      modifies this
      ensures broker == PutAt(old(broker), i, Stuck(old(broker).instances[i].place.tag))
    {
      broker := PutAt(broker, i, Stuck(broker.instances[i].place.tag));
    }
  }

  /** What one whole callback does to the broker, as steps of the protocol. */
  function Callback(b: Broker, max: int, i: nat, success: bool): seq<Event>
    requires i < |b.instances|
  {
    if success then [Success(i)]
    else
      var retry := RetryOf(b.instances[i].msg.retry);
      if retry.Some? && retry.value + 1 <= max then [Failure(i), Republish(i)] else [Failure(i)]
  }

  /** The delivery of instance i is settled, and a copy with header c + 1 stands last, if that is within the limit. */
  ghost predicate Retried(b: Broker, b': Broker, i: nat, c: int, max: int) {
    && i < |b.instances| <= |b'.instances| && b.instances[i].place.Delivered?
    && b'.settled == b.settled + [b.instances[i].place.tag]
    && if c + 1 <= max then
         && |b'.instances| == |b.instances| + 1
         && b'.instances[i].place == Replaced(|b.instances|)
         && var m, copy := b.instances[i].msg, b'.instances[|b.instances|];
            && copy.place == Queued && copy.msg.origin == m.origin && copy.msg.content == m.content
            && copy.msg.route == m.route && copy.msg.retry == Text(Decimal.Show(c + 1))
       else
         |b'.instances| == |b.instances| && b'.instances[i].place == Discarded
  }

  /** The delivery of instance i is over and still unsettled. */
  ghost predicate Unsettled(b: Broker, b': Broker, i: nat) {
    && i < |b.instances| == |b'.instances| && b.instances[i].place.Delivered?
    && b'.settled == b.settled && b'.open == b.open
    && b'.instances[i].place == Stuck(b.instances[i].place.tag)
  }

  class RabbitMQConnection {
    const channel: Channel
    const maxRetries: int

    constructor (channel: Channel, maxRetries: int)
      ensures this.channel == channel && this.maxRetries == maxRetries
    {
      this.channel, this.maxRetries := channel, maxRetries;
    }

    /** Success acks the message. A failure whose header reads c (zero if it is missing) replaces it by a new last copy
        whose header reads c + 1, as long as that is within the limit, and discards it otherwise. A failure whose
        header cannot be read settles nothing. No other message is touched. */
    method WrappedCallback(i: nat, success: bool)
      requires i < |channel.broker.instances| && channel.broker.instances[i].place.Delivered?
      modifies channel
      ensures Run(old(channel.broker), maxRetries, Callback(old(channel.broker), maxRetries, i, success))
      ensures channel.broker
              == Exec(old(channel.broker), maxRetries, Callback(old(channel.broker), maxRetries, i, success))
      ensures i < |old(channel.broker).instances| <= |channel.broker.instances|
      ensures forall k :: 0 <= k < |old(channel.broker).instances| && k != i ==>
                channel.broker.instances[k] == old(channel.broker).instances[k]
      ensures channel.broker.instances[i].msg == old(channel.broker).instances[i].msg
      ensures success ==>
                && channel.broker.instances[i].place == Acked
                && channel.broker.settled == old(channel.broker).settled + [old(channel.broker).instances[i].place.tag]
                && |channel.broker.instances| == |old(channel.broker).instances|
      ensures !success ==>
                var m := old(channel.broker).instances[i].msg;
                match m.retry
                case Absent => Retried(old(channel.broker), channel.broker, i, 0, maxRetries)
                case Number(c) => Retried(old(channel.broker), channel.broker, i, c, maxRetries)
                case Text(t) =>
                  (match Decimal.Parse(t)
                   case None => Unsettled(old(channel.broker), channel.broker, i)
                   case Some(c) => Retried(old(channel.broker), channel.broker, i, c, maxRetries))
                case Bytes(t) =>
                  (match Decimal.Parse(t)
                   case None => Unsettled(old(channel.broker), channel.broker, i)
                   case Some(c) => Retried(old(channel.broker), channel.broker, i, c, maxRetries))
                case Unreadable => Unsettled(old(channel.broker), channel.broker, i)
    {
      ghost var before := channel.broker;
      var msg := channel.broker.instances[i].msg;
      if success {
        channel.BasicAck(i);
        OneStep(before, maxRetries, Success(i));
        return;
      }
      var read := RetryOf(msg.retry);
      OneStep(before, maxRetries, Failure(i));
      if read.None? {
        channel.Abandon(i);
        return;
      }
      var count := read.value + 1;
      if count <= maxRetries {
        channel.BasicNack(i, true);
        channel.BasicPublish(i, Text(Decimal.Show(count)));
        TwoSteps(before, maxRetries, Failure(i), Republish(i));
      } else {
        channel.BasicNack(i, false);
      }
    }
  }

  lemma OneStep(b: Broker, max: int, e: Event)
    requires Enabled(b, e)
    ensures Run(b, max, [e]) && Exec(b, max, [e]) == Next(b, max, e)
  {
    assert [e][1..] == [];
  }

  lemma TwoSteps(b: Broker, max: int, e: Event, f: Event)
    requires Enabled(b, e) && Enabled(Next(b, max, e), f)
    ensures Run(b, max, [e, f]) && Exec(b, max, [e, f]) == Next(Next(b, max, e), max, f)
  {
    assert [e, f][1..] == [f];
    OneStep(Next(b, max, e), max, f);
  }

  // ---------------- invariants ----------------

  /** Of the instances with one origin only the last has not been replaced, and they carry the same content. */
  ghost predicate Chained(b: Broker) {
    && (forall k :: 0 <= k < |b.instances| ==> Descends(b, k))
    && (forall i, j :: 0 <= i < j < |b.instances| && b.instances[i].msg.origin == b.instances[j].msg.origin ==>
                         b.instances[i].place.Replaced?)
  }

  ghost predicate Descends(b: Broker, k: nat)
    requires k < |b.instances|
  {
    var m := b.instances[k].msg;
    var p := b.instances[k].place;
    && m.origin <= k
    && SameMessage(m, b.instances[m.origin].msg)
    && (p.Replaced? ==> k < p.next < |b.instances| && b.instances[p.next].msg.origin == m.origin)
  }

  predicate SameMessage(m: Message, first: Message) {
    first.origin == m.origin && m.content == first.content && m.route == first.route
  }

  /** Every tag of this connection is unsettled in the hands of one instance, or has been settled once. */
  ghost predicate Settled(b: Broker) {
    && Distinct(b.settled) && b.firstTag <= b.nextTag
    && (forall t :: t in b.settled ==> t < b.nextTag && t !in b.open)
    && (forall t :: t in b.open ==> t < b.nextTag && b.open[t] < |b.instances| && Holds(b, b.open[t], t))
    && (forall k :: 0 <= k < |b.instances| && (b.instances[k].place.Delivered? || b.instances[k].place.Stuck?) ==>
                      b.instances[k].place.tag in b.open && b.open[b.instances[k].place.tag] == k)
    && (forall t :: b.firstTag <= t < b.nextTag ==> t in b.open || t in b.settled)
  }

  predicate Holds(b: Broker, k: nat, tag: nat)
    requires k < |b.instances|
  {
    b.instances[k].place == Delivered(tag) || b.instances[k].place == Stuck(tag)
  }

  /** The header of an instance counts the failed deliveries of its origin. */
  ghost predicate Counts(b: Broker, max: int, k: nat)
    requires k < |b.instances| && b.instances[k].msg.origin < |b.instances|
  {
    var o := b.instances[k].msg.origin;
    var p := b.instances[k].place;
    var first := RetryOf(b.instances[o].msg.retry);
    var now := RetryOf(b.instances[k].msg.retry);
    if first.None? then k == o && b.failed[o] == 0 && !p.Republishing? && !p.Discarded? && !p.Lost?
    else
      && now.Some?
      && (k != o ==> first.value < now.value <= max)
      && (if p.Republishing? || p.Lost? then now.value == first.value + b.failed[o] - 1 && now.value + 1 <= max
          else if p.Discarded? then now.value == first.value + b.failed[o] - 1 && now.value + 1 > max
          else now.value == first.value + b.failed[o])
      && !p.Stuck?
  }

  ghost predicate Counted(b: Broker, max: int) {
    && (forall o :: o in b.failed ==> o < |b.instances|)
    && (forall k :: 0 <= k < |b.instances| && b.instances[k].msg.origin <= k && !b.instances[k].place.Replaced? ==>
                      Counts(b, max, k))
  }

  ghost predicate Inv(b: Broker, max: int) {
    Chained(b) && Settled(b) && Counted(b, max)
  }

  lemma InvStep(b: Broker, max: int, e: Event)
    requires Inv(b, max) && Enabled(b, e)
    ensures Inv(Next(b, max, e), max)
  {
    ChainedStep(b, max, e);
    SettledStep(b, max, e);
    CountedStep(b, max, e);
  }

  lemma ChainedStep(b: Broker, max: int, e: Event)
    requires Chained(b) && Enabled(b, e)
    ensures Chained(Next(b, max, e))
  {
    var n := Next(b, max, e);
    forall k | 0 <= k < |n.instances|
      ensures Descends(n, k)
    {
      if k < |b.instances| {
        assert Descends(b, k);
      } else if e.Republish? {
        assert Descends(b, e.i);
      }
    }
    ReplacedStep(b, max, e);
  }

  lemma ReplacedStep(b: Broker, max: int, e: Event)
    requires Chained(b) && Enabled(b, e)
    ensures var n := Next(b, max, e);
            forall i, j :: 0 <= i < j < |n.instances| && n.instances[i].msg.origin == n.instances[j].msg.origin ==>
                             n.instances[i].place.Replaced?
  {
    var n := Next(b, max, e);
    forall i, j | 0 <= i < j < |n.instances| && n.instances[i].msg.origin == n.instances[j].msg.origin
      ensures n.instances[i].place.Replaced?
    {
      assert Descends(b, i);
      if j == |b.instances| && e.Republish? {
        assert i <= e.i;
      }
    }
  }

  lemma SettledStep(b: Broker, max: int, e: Event)
    requires Settled(b) && Enabled(b, e)
    ensures Settled(Next(b, max, e))
  {
    match e
    case Publish(content, route, retry) => SettledPublish(b, max, e);
    case Deliver(i) => SettledDeliver(b, max, i);
    case Success(i) => SettledSettle(b, i, Acked);
    case Failure(i) =>
      var retry := RetryOf(b.instances[i].msg.retry);
      if retry.Some? {
        SettledSettle(b, i, if retry.value + 1 <= max then Republishing else Discarded);
      }
    case Republish(i) => SettledRenew(b, max, i);
    case Crash =>
  }

  lemma SettledPublish(b: Broker, max: int, e: Event)
    requires Settled(b) && e.Publish?
    ensures Settled(Next(b, max, e))
  {
  }

  lemma SettledRenew(b: Broker, max: int, i: nat)
    requires Settled(b) && Enabled(b, Republish(i))
    ensures Settled(Next(b, max, Republish(i)))
  {
  }

  lemma SettledDeliver(b: Broker, max: int, i: nat)
    requires Settled(b) && Enabled(b, Deliver(i))
    ensures Settled(Next(b, max, Deliver(i)))
  {
  }

  lemma SettledSettle(b: Broker, i: nat, place: Place)
    requires Settled(b) && i < |b.instances| && b.instances[i].place.Delivered?
    requires !place.Delivered? && !place.Stuck?
    ensures Settled(Settle(b, i, place))
  {
  }

  lemma CountedStep(b: Broker, max: int, e: Event)
    requires Chained(b) && Counted(b, max) && Enabled(b, e)
    ensures Counted(Next(b, max, e), max)
  {
    var n := Next(b, max, e);
    forall k | 0 <= k < |n.instances| && n.instances[k].msg.origin <= k && !n.instances[k].place.Replaced?
      ensures Counts(n, max, k)
    {
      CountsAfter(b, max, e, k);
    }
    FailedKnown(b, max, e);
  }

  lemma CountsAfter(b: Broker, max: int, e: Event, k: nat)
    requires Chained(b) && Counted(b, max) && Enabled(b, e) && k < |Next(b, max, e).instances|
    requires Next(b, max, e).instances[k].msg.origin <= k && !Next(b, max, e).instances[k].place.Replaced?
    ensures Counts(Next(b, max, e), max, k)
  {
    if k < |b.instances| {
      assert Descends(b, k);
      CountsStep(b, max, e, k);
    } else if e.Republish? {
      assert Descends(b, e.i);
      CountsRenewed(b, max, e.i);
    }
  }

  lemma FailedKnown(b: Broker, max: int, e: Event)
    requires Chained(b) && Counted(b, max) && Enabled(b, e)
    ensures forall o :: o in Next(b, max, e).failed ==> o < |Next(b, max, e).instances|
  {
    if e.Failure? {
      assert Descends(b, e.i);
    }
  }

  /** An instance that is there before a step keeps its count. */
  lemma CountsStep(b: Broker, max: int, e: Event, k: nat)
    requires Chained(b) && Enabled(b, e) && k < |b.instances| && b.instances[k].msg.origin <= k
    requires Counts(b, max, k) && !Next(b, max, e).instances[k].place.Replaced?
    ensures Counts(Next(b, max, e), max, k)
  {
    if e.Failure? && k != e.i {
      assert b.instances[k].msg.origin != b.instances[e.i].msg.origin;
    }
  }

  /** The copy carries the raised count, as text that reads back. */
  lemma CountsRenewed(b: Broker, max: int, i: nat)
    requires Chained(b) && Counted(b, max) && Enabled(b, Republish(i)) && b.instances[i].msg.origin <= i
    ensures Counts(Next(b, max, Republish(i)), max, |b.instances|)
  {
    assert Descends(b, i) && Counts(b, max, i);
    Decimal.ParseShow(RetryOf(b.instances[i].msg.retry).value + 1);
  }

  lemma {:induction false} InvExec(b: Broker, max: int, events: seq<Event>)
    requires Inv(b, max) && Run(b, max, events)
    ensures Inv(Exec(b, max, events), max)
    decreases |events|
  {
    if events != [] {
      InvStep(b, max, events[0]);
      InvExec(Next(b, max, events[0]), max, events[1..]);
    }
  }

  // ---------------- guarantees ----------------

  /** A broker state that a run from the empty broker ends in. */
  ghost predicate Reached(b: Broker, max: int, events: seq<Event>) {
    Run(EMPTY, max, events) && b == Exec(EMPTY, max, events)
  }

  /** Every message has exactly one current copy: all its other copies were replaced, and carry the same content. */
  lemma OneCurrentCopy(b: Broker, max: int, events: seq<Event>, k: nat) returns (current: nat)
    requires Reached(b, max, events) && k < |b.instances|
    ensures current < |b.instances| && b.instances[current].msg.origin == b.instances[k].msg.origin
    ensures forall j :: 0 <= j < |b.instances| && b.instances[j].msg.origin == b.instances[k].msg.origin ==>
                          && (b.instances[j].place.Replaced? <==> j != current)
                          && b.instances[j].msg.content == b.instances[k].msg.content
                          && b.instances[j].msg.route == b.instances[k].msg.route
  {
    InvExec(EMPTY, max, events);
    current := FollowCopies(b, k);
    assert Descends(b, k);
    forall j | 0 <= j < |b.instances| && b.instances[j].msg.origin == b.instances[k].msg.origin
      ensures b.instances[j].place.Replaced? <==> j != current
      ensures b.instances[j].msg.content == b.instances[k].msg.content
      ensures b.instances[j].msg.route == b.instances[k].msg.route
    {
      assert Descends(b, j);
    }
  }

  lemma {:induction false} FollowCopies(b: Broker, k: nat) returns (current: nat)
    requires Chained(b) && k < |b.instances|
    ensures k <= current < |b.instances| && b.instances[current].msg.origin == b.instances[k].msg.origin
    ensures !b.instances[current].place.Replaced?
    decreases |b.instances| - k
  {
    current := k;
    if b.instances[k].place.Replaced? {
      assert Descends(b, k);
      current := FollowCopies(b, b.instances[k].place.next);
    }
  }

  /** No tag is settled twice, and a tag of the open connection is settled unless its callback still has it. */
  lemma SettledOnce(b: Broker, max: int, events: seq<Event>, tag: nat)
    requires Reached(b, max, events)
    ensures multiset(b.settled)[tag] <= 1
    ensures b.firstTag <= tag < b.nextTag ==>
              (multiset(b.settled)[tag] == 1 <==> forall k :: 0 <= k < |b.instances| ==> !Holds(b, k, tag))
  {
    InvExec(EMPTY, max, events);
    OccursOnce(b.settled, tag);
  }

  lemma {:induction false} OccursOnce(xs: seq<nat>, x: nat)
    requires Distinct(xs)
    ensures multiset(xs)[x] == if x in xs then 1 else 0
  {
    if xs != [] {
      assert xs == [xs[0]] + xs[1..];
      OccursOnce(xs[1..], x);
    }
  }

  /** How many deliveries of a message that arrives with count r may fail. */
  function Failures(max: int, r: int): nat {
    Max(0, max - r) + 1
  }

  ghost predicate FailedAsOften(b: Broker, max: int, k: nat)
    requires k < |b.instances| && b.instances[k].msg.origin < |b.instances|
  {
    var o := b.instances[k].msg.origin;
    var p := b.instances[k].place;
    match RetryOf(b.instances[o].msg.retry)
    case None => b.failed[o] == 0 && !p.Discarded?
    case Some(r) =>
      && !p.Stuck?
      && (if p.Discarded? then b.failed[o] == Failures(max, r) else b.failed[o] < Failures(max, r))
  }

  /** A message is discarded after exactly as many failed deliveries as its header leaves (max + 1 from zero), and is
      alive or acked only before that. One whose header cannot be read is never settled by a failure. */
  lemma DiscardedAfter(b: Broker, max: int, events: seq<Event>, k: nat)
    requires Reached(b, max, events) && k < |b.instances| && !b.instances[k].place.Replaced?
    ensures b.instances[k].msg.origin <= k
    ensures FailedAsOften(b, max, k)
  {
    InvExec(EMPTY, max, events);
    assert Descends(b, k) && Counts(b, max, k);
  }

  /** Once acked, discarded or lost, a message stays so, and no copy of it comes after. */
  lemma {:induction false} EndIsFinal(b: Broker, max: int, events: seq<Event>, k: nat)
    requires Inv(b, max) && Run(b, max, events) && k < |b.instances| && Final(b.instances[k].place)
    ensures var n := Exec(b, max, events);
            && k < |n.instances| && n.instances[k] == b.instances[k]
            && forall j :: k < j < |n.instances| ==> n.instances[j].msg.origin != b.instances[k].msg.origin
    decreases |events|
  {
    if events != [] {
      InvStep(b, max, events[0]);
      EndIsFinal(Next(b, max, events[0]), max, events[1..], k);
    }
  }

  /** Step n of the run is a crash that strikes instance k between its drop and the new publication. */
  ghost predicate StruckAt(b: Broker, max: int, events: seq<Event>, n: nat, k: nat)
    requires Run(b, max, events)
  {
    && n < |events| && events[n] == Crash
    && Run(b, max, events[..n])
    && var before := Exec(b, max, events[..n]);
       k < |before.instances| && before.instances[k].place.Republishing?
  }

  /** One step loses an instance exactly if it is such a crash. */
  lemma LostStep(b: Broker, max: int, e: Event, k: nat)
    requires Enabled(b, e) && k < |Next(b, max, e).instances|
    ensures Next(b, max, e).instances[k].place.Lost? <==>
            k < |b.instances|
            && (b.instances[k].place.Lost? || (e == Crash && b.instances[k].place.Republishing?))
  {
  }

  lemma StruckLater(b: Broker, max: int, events: seq<Event>, n: nat, k: nat)
    requires events != [] && Run(b, max, events)
    ensures StruckAt(b, max, events, n + 1, k) <==> StruckAt(Next(b, max, events[0]), max, events[1..], n, k)
  {
    if n + 1 < |events| {
      assert events[..n + 1][1..] == events[1..][..n];
    }
  }

  /** A message is lost if and only if a crash struck between its drop and the new publication. */
  lemma {:induction false} LostExactly(b: Broker, max: int, events: seq<Event>, k: nat)
    requires Run(b, max, events) && k < |Exec(b, max, events).instances|
    requires k < |b.instances| ==> !b.instances[k].place.Lost?
    ensures Exec(b, max, events).instances[k].place.Lost? <==> exists n :: StruckAt(b, max, events, n, k)
    decreases |events|
  {
    if events != [] {
      var next := Next(b, max, events[0]);
      assert events[..0] == [];
      if k < |next.instances| && next.instances[k].place.Lost? {
        LostStep(b, max, events[0], k);
        assert StruckAt(b, max, events, 0, k);
        LostStays(next, max, events[1..], k);
      } else {
        LostExactly(next, max, events[1..], k);
        if k < |next.instances| {
          LostStep(b, max, events[0], k);
        }
        assert !StruckAt(b, max, events, 0, k);
        forall n: nat
          ensures StruckAt(b, max, events, n + 1, k) <==> StruckAt(next, max, events[1..], n, k)
        {
          StruckLater(b, max, events, n, k);
        }
        if n: nat :| StruckAt(b, max, events, n, k) {
          assert n > 0;
          assert StruckAt(next, max, events[1..], n - 1, k);
        }
      }
    }
  }

  lemma {:induction false} LostStays(b: Broker, max: int, events: seq<Event>, k: nat)
    requires Run(b, max, events) && k < |b.instances| && b.instances[k].place.Lost?
    ensures k < |Exec(b, max, events).instances| && Exec(b, max, events).instances[k].place.Lost?
    decreases |events|
  {
    if events != [] {
      LostStep(b, max, events[0], k);
      LostStays(Next(b, max, events[0]), max, events[1..], k);
    }
  }

  /** A crash between the drop and the new publication does lose it, before the limit is reached. */
  lemma CrashLoses(max: int)
    requires max >= 1
    ensures var events := [Publish(0, 0, Absent), Deliver(0), Failure(0), Crash];
            Run(EMPTY, max, events) && Exec(EMPTY, max, events).instances[0].place == Lost
  {
    var b1 := Next(EMPTY, max, Publish(0, 0, Absent));
    var b2 := Next(b1, max, Deliver(0));
    TwoSteps(EMPTY, max, Publish(0, 0, Absent), Deliver(0));
    TwoSteps(b2, max, Failure(0), Crash);
    var events := [Publish(0, 0, Absent), Deliver(0), Failure(0), Crash];
    assert events[1..][1..] == [Failure(0), Crash];
    assert events[1..][0] == Deliver(0);
  }
}
