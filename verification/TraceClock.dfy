/** The trace clock: it fills as an agent works and trips at its threshold. */
module TraceClock {
  const U32_MAX: nat := 0xFFFF_FFFF

  type U32 = n: nat | n <= U32_MAX

  lemma QuotientFits(a: nat, n: nat)
    requires n > 0
    ensures 0 <= a / n <= a
  {
    DivisionIsMonotone(a, 1, a, n);
  }

  /** Bouncing through hops divides the rate, but an active intrusion always gains at least one. */
  function Rate(base: U32, hops: U32): (r: U32)
    ensures r == 0 <==> base == 0
    ensures r <= base
  {
    if base == 0 then 0
    else
      QuotientFits(base, AtLeastOne(hops));
      AtLeastOne(base / AtLeastOne(hops))
  }

  function AtLeastOne(n: nat): nat {
    if n == 0 then 1 else n
  }

  /** A saturating addition, capped at the threshold. */
  function Advanced(progress: U32, threshold: U32, base: U32, hops: U32): (r: U32)
    ensures r <= threshold
    ensures base > 0 && progress < threshold ==> progress < r
    ensures progress <= threshold ==> progress <= r
  {
    var sum := progress + Rate(base, hops);
    var saturated := if sum > U32_MAX then U32_MAX else sum;
    if saturated > threshold then threshold else saturated
  }

  /** Short of the threshold an advance gains its whole rate. */
  lemma GainsTheRate(progress: U32, threshold: U32, base: U32, hops: U32)
    ensures Advanced(progress, threshold, base, hops) == threshold
            || Advanced(progress, threshold, base, hops) == progress + Rate(base, hops)
  {
  }

  /** What one advance gains: the base shared out over the hops, rounded down, and never nothing. */
  function Gain(base: nat, hops: nat): nat {
    if base == 0 then 0 else if hops <= 1 then base else if base < hops then 1 else base / hops
  }

  /** An advance adds its gain and stops at the threshold; the saturation never shows. */
  lemma AdvanceAddsTheGain(progress: U32, threshold: U32, base: U32, hops: U32)
    ensures var sum := progress + Gain(base, hops);
            Advanced(progress, threshold, base, hops) == if sum > threshold then threshold else sum
  {
    if hops > 1 {
      SharesOut(base, hops);
    }
  }

  lemma SharesOut(a: nat, n: nat)
    requires n > 1
    ensures a < n ==> a / n == 0
    ensures a >= n ==> a / n >= 1 && a / n * n <= a < (a / n + 1) * n
  {
    assert a == a / n * n + a % n;
  }

  /** More cost or fewer hops never slow the clock. */
  lemma RateIsMonotone(base: U32, hops: U32, less: U32, more: U32)
    requires 0 < less <= base && 0 < hops <= more
    ensures Rate(less, more) <= Rate(base, hops)
  {
    DivisionIsMonotone(base, hops, less, more);
  }

  lemma ProductIsMonotone(q: nat, m: nat, n: nat)
    requires m <= n
    ensures q * m <= q * n && m * q <= n * q
  {
  }

  lemma QuotientHolds(a: nat, m: nat, q: nat)
    requires m > 0 && q * m <= a
    ensures q <= a / m
  {
    if a / m < q {
      ProductIsMonotone(m, a / m + 1, q);
    }
  }

  lemma DivisionIsMonotone(a: nat, m: nat, b: nat, n: nat)
    requires b <= a && 0 < m <= n
    ensures 0 <= b / n <= a / m
  {
    var q := b / n;
    assert q * n + b % n == b;
    ProductIsMonotone(q, m, n);
    QuotientHolds(a, m, q);
  }

  class Trace {
    var progress: U32
    const threshold: U32

    constructor (threshold: U32)
      ensures this.threshold == threshold && progress == 0
    {
      this.threshold, progress := threshold, 0;
    }

    method Advance(base: U32, hops: U32)
      modifies this
      ensures progress == Advanced(old(progress), threshold, base, hops)
      ensures var sum := old(progress) + Gain(base, hops); progress == if sum > threshold then threshold else sum
    {
      AdvanceAddsTheGain(progress, threshold, base, hops);
      var rate := 0;
      if base != 0 {
        QuotientFits(base, AtLeastOne(hops));
        rate := AtLeastOne(base / AtLeastOne(hops));
      }
      var sum := if progress + rate > U32_MAX then U32_MAX else progress + rate;
      progress := if sum > threshold then threshold else sum;
    }

    predicate Traced()
      reads this
    {
      progress >= threshold
    }
  }
}
