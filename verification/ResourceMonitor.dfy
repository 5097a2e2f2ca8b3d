/** qw/backends/monitor.py: a two-threshold automaton over memory readings. */
module ResourceMonitoring {
  import opened Common

  /** A call with the memory percentage at that moment. */
  datatype Call = ShouldOverflow(mem: real) | ShouldRecover(mem: real)

  datatype Thresholds = Thresholds(high: real, low: real)

  class ResourceMonitor {
    const high: real
    const low: real
    const measurable: bool  // psutil is there, or an override is set
    var overflowing: bool

    constructor (high: real, low: real, measurable: bool)
      ensures this.high == high && this.low == low && this.measurable == measurable && !overflowing
    {
      this.high, this.low, this.measurable, overflowing := high, low, measurable, false;
    }

    method ShouldOverflow(mem: real) returns (r: bool)
      modifies this
      ensures measurable ==> overflowing == After(Thresholds(high, low), old(overflowing), Call.ShouldOverflow(mem))
      ensures measurable ==> r == overflowing
      ensures !measurable ==> !r && overflowing == old(overflowing)
    {
      if !measurable {
        return false;
      }
      if !overflowing && mem >= high {
        overflowing := true;
      }
      r := overflowing;
    }

    /** True exactly on the call that clears the overflow; without psutil memory reads as zero. */
    method ShouldRecover(mem: real) returns (cleared: bool)
      modifies this
      ensures overflowing
              == After(Thresholds(high, low), old(overflowing), Call.ShouldRecover(if measurable then mem else 0.0))
      ensures cleared <==> old(overflowing) && !overflowing
    {
      if overflowing {
        var reading := if measurable then mem else 0.0;
        if reading <= low {
          overflowing := false;
          return true;
        }
      }
      cleared := false;
    }
  }

  /** The mode after one call. */
  function After(t: Thresholds, mode: bool, c: Call): bool {
    match c
    case ShouldOverflow(mem) => mode || mem >= t.high
    case ShouldRecover(mem) => mode && mem > t.low
  }

  function Mode(t: Thresholds, calls: seq<Call>): bool {
    if calls == [] then false else After(t, Mode(t, calls[..|calls| - 1]), calls[|calls| - 1])
  }

  function Switches(t: Thresholds, calls: seq<Call>): nat {
    if calls == [] then 0
    else
      var front := calls[..|calls| - 1];
      Switches(t, front) + (if Mode(t, front) != Mode(t, calls) then 1 else 0)
  }

  function Gap(t: Thresholds): real {
    t.high - t.low
  }

  function Abs(x: real): real {
    if x < 0.0 then -x else x
  }

  /** How far the readings have moved in all. */
  function Variation(calls: seq<Call>): real {
    if |calls| < 2 then 0.0
    else Variation(calls[..|calls| - 1]) + Abs(calls[|calls| - 1].mem - calls[|calls| - 2].mem)
  }

  /** How far the last reading is from the threshold the last switch crossed. */
  function Slack(t: Thresholds, calls: seq<Call>): real
    requires calls != []
  {
    var mem := calls[|calls| - 1].mem;
    var d := if Mode(t, calls) then t.high - mem else mem - t.low;
    if d > 0.0 then d else 0.0
  }

  /** Between two calls the distance to the crossed threshold changes by no more than the reading does,
      and a switch after another one has crossed the whole gap. */
  lemma SlackStep(t: Thresholds, calls: seq<Call>)
    requires t.low < t.high && |calls| >= 2
    ensures var front := calls[..|calls| - 1];
            var step := Abs(calls[|calls| - 1].mem - calls[|calls| - 2].mem);
            if Mode(t, front) == Mode(t, calls) then Slack(t, calls) <= Slack(t, front) + step
            else Slack(t, calls) == 0.0 && Gap(t) <= Slack(t, front) + step
  {
    var front := calls[..|calls| - 1];
    assert front[|front| - 1] == calls[|calls| - 2];
  }

  /** The price of n switches: the gap for each but the first. */
  function Price(n: nat, gap: real): real {
    if n <= 1 then 0.0 else Price(n - 1, gap) + gap
  }

  lemma {:induction false} PriceIs(n: nat, gap: real)
    requires gap > 0.0
    ensures (n - 1) as real * gap <= Price(n, gap)
  {
    if n > 1 {
      PriceIs(n - 1, gap);
      assert (n - 1) as real * gap == (n - 2) as real * gap + gap;
    }
  }

  /** Every switch but the first has been paid for by movement of the readings. */
  lemma {:induction false} PaidFor(t: Thresholds, calls: seq<Call>)
    requires t.low < t.high && calls != []
    ensures Switches(t, calls) >= 1 ==>
              Price(Switches(t, calls), Gap(t)) + Slack(t, calls) <= Variation(calls)
    ensures Switches(t, calls) == 0 ==> !Mode(t, calls)
    ensures Variation(calls) >= 0.0
  {
    var front := calls[..|calls| - 1];
    if front == [] {
      assert Switches(t, front) == 0 && !Mode(t, front);
    } else {
      PaidFor(t, front);
      SlackStep(t, calls);
    }
  }

  lemma PaidInAll(t: Thresholds, calls: seq<Call>)
    requires t.low < t.high
    ensures Price(Switches(t, calls), Gap(t)) <= Variation(calls)
  {
    if calls != [] {
      PaidFor(t, calls);
    }
  }

  /** So many gaps. */
  function Gaps(n: int, gap: real): real {
    n as real * gap
  }

  lemma GapsPaid(n: nat, gap: real, paid: real)
    requires gap > 0.0 && Price(n, gap) <= paid
    ensures Gaps(n - 1, gap) <= paid
  {
    PriceIs(n, gap);
  }

  /** No flapping: the mode can switch often only if the readings travel far. */
  lemma NoFlapping(t: Thresholds, calls: seq<Call>)
    requires t.low < t.high
    ensures Gaps(Switches(t, calls) - 1, Gap(t)) <= Variation(calls)
  {
    PaidInAll(t, calls);
    GapsPaid(Switches(t, calls), Gap(t), Variation(calls));
  }

  /** Call i saw memory at or above the high threshold, and no later recovery call saw it at or below the low one. */
  predicate HoldsSince(t: Thresholds, calls: seq<Call>, i: nat)
    requires i < |calls|
  {
    && calls[i].ShouldOverflow? && calls[i].mem >= t.high
    && forall j :: i < j < |calls| && calls[j].ShouldRecover? ==> calls[j].mem > t.low
  }

  lemma {:induction false} ModeWitness(t: Thresholds, calls: seq<Call>) returns (i: nat)
    requires Mode(t, calls)
    ensures i < |calls| && HoldsSince(t, calls, i)
  {
    var front := calls[..|calls| - 1];
    var last := calls[|calls| - 1];
    if last.ShouldOverflow? && last.mem >= t.high {
      i := |calls| - 1;
    } else {
      i := ModeWitness(t, front);
      forall j | i < j < |calls| && calls[j].ShouldRecover?
        ensures calls[j].mem > t.low
      {
        if j < |front| {
          assert calls[j] == front[j];
        }
      }
    }
  }

  lemma {:induction false} ModeHolds(t: Thresholds, calls: seq<Call>, i: nat)
    requires i < |calls| && HoldsSince(t, calls, i)
    ensures Mode(t, calls)
  {
    var front := calls[..|calls| - 1];
    if i < |front| {
      assert forall j :: 0 <= j < |front| ==> front[j] == calls[j];
      ModeHolds(t, front, i);
    }
  }

  /** Overflow is on exactly when some activating reading has had no clearing reading since. */
  lemma ModeExact(t: Thresholds, calls: seq<Call>)
    ensures Mode(t, calls) <==> exists i :: 0 <= i < |calls| && HoldsSince(t, calls, i)
  {
    if Mode(t, calls) {
      var i := ModeWitness(t, calls);
    } else if exists i :: 0 <= i < |calls| && HoldsSince(t, calls, i) {
      var i :| 0 <= i < |calls| && HoldsSince(t, calls, i);
      ModeHolds(t, calls, i);
    }
  }
}
