/** qw/queues/policy.py: the growth and shrink decisions, as functions of the policy's fields,
    and the class whose methods update those fields. Ratios and times are reals. */
module QueuePolicy {
  import opened Common

  datatype Policy = Policy(
    baseSize: int,
    growMargin: int,
    warnRatio: real,
    shrinkCooldown: real,
    lowWatermark: real,
    currentMaxsize: int,
    growEvents: nat,
    discardEvents: nat,
    lastHighUsage: real)
  {
    /** What the constructor validates, and nothing later changes. */
    predicate Configured() {
      baseSize >= 1 && growMargin >= 0 && 0.0 < warnRatio <= 1.0 && 0.0 < lowWatermark < 1.0
    }

    function Ceiling(): int {
      baseSize + growMargin
    }

    predicate ShouldWarn(size: int) {
      currentMaxsize > 0 && size as real / currentMaxsize as real >= warnRatio
    }

    predicate CanGrow() {
      currentMaxsize < Ceiling()
    }

    predicate CanShrink(size: int, now: real) {
      && currentMaxsize > baseSize
      && currentMaxsize > 0
      && size as real / currentMaxsize as real <= lowWatermark
      && now - lastHighUsage >= shrinkCooldown
    }

    function Grow(): Policy {
      this.(currentMaxsize := currentMaxsize + 1, growEvents := growEvents + 1)
    }

    function Shrink(): Policy {
      if currentMaxsize > baseSize then this.(currentMaxsize := currentMaxsize - 1) else this
    }

    function Discard(): Policy {
      this.(discardEvents := discardEvents + 1)
    }

    function NoteHighUsage(now: real): Policy {
      this.(lastHighUsage := now)
    }
  }

  /** Dividing by a positive number and comparing is comparing with the product. */
  lemma RatioAtMost(size: int, max: int, ratio: real)
    requires max > 0
    ensures size as real / max as real <= ratio <==> size as real <= ratio * max as real
  {
    var q := size as real / max as real;
    assert q * max as real == size as real;
    if q <= ratio {
      assert (ratio - q) * max as real >= 0.0;
    } else {
      assert (q - ratio) * max as real > 0.0;
    }
  }

  datatype Created = Ok(policy: QueueSizePolicy) | ValueError(message: string)

  class QueueSizePolicy {
    const baseSize: int
    const growMargin: int
    const warnRatio: real
    const shrinkCooldown: real
    const lowWatermark: real
    var currentMaxsize: int
    var growEvents: nat
    var discardEvents: nat
    var lastHighUsage: real

    function View(): Policy
      reads this
    {
      Policy(baseSize, growMargin, warnRatio, shrinkCooldown, lowWatermark,
             currentMaxsize, growEvents, discardEvents, lastHighUsage)
    }

    constructor (baseSize: int, growMargin: int, warnRatio: real, shrinkCooldown: real, lowWatermark: real, now: real)
      ensures View() == Policy(baseSize, growMargin, warnRatio, shrinkCooldown, lowWatermark, baseSize, 0, 0, now)
    {
      this.baseSize, this.growMargin := baseSize, growMargin;
      this.warnRatio, this.shrinkCooldown, this.lowWatermark := warnRatio, shrinkCooldown, lowWatermark;
      currentMaxsize := baseSize;
      growEvents, discardEvents, lastHighUsage := 0, 0, now;
    }

    static method Create(
      baseSize: int, growMargin: int, warnRatio: real, shrinkCooldown: real, lowWatermark: real, now: real)
      returns (r: Created)
      ensures r.Ok? <==> baseSize >= 1 && growMargin >= 0 && 0.0 < warnRatio <= 1.0 && 0.0 < lowWatermark < 1.0
      ensures r.Ok? ==> r.policy.View().Configured()
      ensures r.Ok? ==> fresh(r.policy)
      ensures r.Ok? ==>
                r.policy.View()
                == Policy(baseSize, growMargin, warnRatio, shrinkCooldown, lowWatermark, baseSize, 0, 0, now)
    {
      if baseSize < 1 {
        return ValueError("base_size must be >= 1");
      }
      if growMargin < 0 {
        return ValueError("grow_margin must be >= 0");
      }
      if !(0.0 < warnRatio <= 1.0) {
        return ValueError("warn_ratio must be in (0, 1]");
      }
      if !(0.0 < lowWatermark < 1.0) {
        return ValueError("low_watermark_ratio must be in (0, 1)");
      }
      var policy := new QueueSizePolicy(baseSize, growMargin, warnRatio, shrinkCooldown, lowWatermark, now);
      r := Ok(policy);
    }

    /** Raises, leaving everything as it was, exactly when the margin is used up. */
    method RegisterGrow() returns (raised: bool)
      modifies this
      ensures raised <==> old(currentMaxsize) >= baseSize + growMargin
      ensures !raised ==> currentMaxsize == old(currentMaxsize) + 1 && growEvents == old(growEvents) + 1
      ensures View() == if raised then old(View()) else old(View()).Grow()
    {
      if currentMaxsize >= View().Ceiling() {
        return true;
      }
      currentMaxsize := currentMaxsize + 1;
      growEvents := growEvents + 1;
      raised := false;
    }

    method RegisterShrink()
      modifies this
      ensures View() == old(View()).Shrink()
      ensures currentMaxsize == if old(currentMaxsize) > baseSize then old(currentMaxsize) - 1 else old(currentMaxsize)
    {
      if currentMaxsize > baseSize {
        currentMaxsize := currentMaxsize - 1;
      }
    }

    method RegisterDiscard()
      modifies this
      ensures View() == old(View()).Discard() && discardEvents == old(discardEvents) + 1
    {
      discardEvents := discardEvents + 1;
    }

    method NoteHighUsage(now: real)
      modifies this
      ensures View() == old(View()).NoteHighUsage(now) && lastHighUsage == now
    {
      lastHighUsage := now;
    }
  }
}
