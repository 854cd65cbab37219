/** The growth of the batch limit. */
module RampArithmetic {
  import opened Seqs
  import opened ZauController

  /** The limits and factors with which every batch deletes something. */
  predicate Progressive(limit: int, factor: real) {
    limit >= 1 && (factor == 0.0 || factor >= 1.0)
  }

  lemma {:induction false} PowGrows(factor: real, n: nat)
    requires factor >= 1.0
    ensures 1.0 <= Pow(factor, n) <= Pow(factor, n + 1)
  {
    if n > 0 {
      PowGrows(factor, n - 1);
      assert factor * Pow(factor, n - 1) >= Pow(factor, n - 1);
      assert factor * Pow(factor, n) >= Pow(factor, n);
    }
  }

  /** Steps add up as exponents do. */
  lemma {:induction false} PowAdds(factor: real, m: nat, n: nat)
    ensures Pow(factor, 0) == 1.0 && Pow(factor, 1) == factor
    ensures Pow(factor, m + n) == Pow(factor, m) * Pow(factor, n)
  {
    assert Pow(factor, 1) == factor * Pow(factor, 0);
    if m > 0 {
      PowAdds(factor, m - 1, n);
      assert Pow(factor, m + n) == factor * Pow(factor, m - 1 + n);
      assert Pow(factor, m) == factor * Pow(factor, m - 1);
      Associates(factor, Pow(factor, m - 1), Pow(factor, n));
    }
  }

  lemma Associates(x: real, y: real, z: real)
    ensures x * (y * z) == (x * y) * z
  {}

  /**
   * What the limit of a step is, apart from its computation: without a factor maxUnavailable itself; otherwise the
   * greatest whole number up to maxUnavailable, the greatest int32, and the power of the factor. Below zero the
   * fraction is dropped as well, so the number is the least one not below the power.
   */
  lemma CapIs(limit: int, step: nat, factor: real, cap: int)
    requires cap == Cap(limit, step, factor)
    ensures factor == 0.0 ==> cap == limit
    ensures factor != 0.0 ==> cap <= limit && cap <= 0x7fff_ffff
    ensures factor != 0.0 && Pow(factor, step) >= 0.0 ==>
              && cap as real <= Pow(factor, step)
              && (cap == limit || cap == 0x7fff_ffff || Pow(factor, step) < (cap + 1) as real)
    ensures factor != 0.0 && Pow(factor, step) < 0.0 ==>
              cap == limit || Pow(factor, step) <= cap as real < Pow(factor, step) + 1.0
  {}

  lemma TruncMonotone(x: real, y: real)
    requires 0.0 <= x <= y
    ensures Trunc(x) <= Trunc(y)
  {}

  /** For a factor of at least one the limit starts at one pod, never falls and never passes maxUnavailable. */
  lemma CapBounds(limit: int, step: nat, factor: real)
    requires Progressive(limit, factor)
    ensures 1 <= Cap(limit, step, factor) <= limit
    ensures Cap(limit, step, factor) <= Cap(limit, step + 1, factor)
    ensures factor != 0.0 ==> Cap(limit, 0, factor) == 1
  {
    if factor != 0.0 {
      PowGrows(factor, step);
      var bound := MAX_INT32 as real;
      var x, y := Pow(factor, step), Pow(factor, step + 1);
      TruncMonotone(1.0, if x > bound then bound else x);
      TruncMonotone(if x > bound then bound else x, if y > bound then bound else y);
      assert Pow(factor, 0) == 1.0;
    }
  }

  lemma {:induction false} CapMonotone(limit: int, step: nat, later: nat, factor: real)
    requires Progressive(limit, factor) && step <= later
    ensures Cap(limit, step, factor) <= Cap(limit, later, factor)
    decreases later
  {
    if step < later {
      CapMonotone(limit, step, later - 1, factor);
      CapBounds(limit, later - 1, factor);
    }
  }

  /** Every batch of the ramp deletes something if and only if the limit is positive and the factor does not shrink. */
  lemma ProgressIff(limit: int, factor: real)
    requires factor >= 0.0
    ensures (forall step :: Cap(limit, step, factor) >= 1) <==> Progressive(limit, factor)
  {
    if Progressive(limit, factor) {
      forall step ensures Cap(limit, step, factor) >= 1 { CapBounds(limit, step, factor); }
    } else if limit < 1 {
      assert Cap(limit, 0, factor) <= limit;
    } else {
      assert Pow(factor, 1) == factor * Pow(factor, 0) == factor;
      assert Trunc(factor) == 0;
      assert Cap(limit, 1, factor) < 1;
    }
  }

  /** Capping the power at the largest int32 cannot be observed, since the limit is an int32 itself. */
  lemma ClampIsUnobservable(limit: int, step: nat, factor: real)
    requires limit <= MAX_INT32 && factor > 0.0
    ensures Cap(limit, step, factor) == Min(Trunc(Pow(factor, step)), limit)
  {
    var bound := MAX_INT32 as real;
    if Pow(factor, step) > bound {
      TruncMonotone(bound, Pow(factor, step));
    }
  }

  // ---------- how soon the ramp is over ----------

  function CeilLog2(m: nat): nat {
    if m <= 1 then 0 else 1 + CeilLog2((m + 1) / 2)
  }

  lemma {:induction false} DoublingReaches(m: nat, k: nat)
    requires k >= CeilLog2(m)
    ensures Pow(2.0, k) >= m as real
    decreases m
  {
    if m <= 1 {
      PowGrows(2.0, k);
    } else {
      DoublingReaches((m + 1) / 2, k - 1);
      assert 2 * ((m + 1) / 2) >= m;
      assert Pow(2.0, k) == 2.0 * Pow(2.0, k - 1);
    }
  }

  /** Doubling reaches the full limit within the rounded-up logarithm of it. */
  lemma DoublingIsShort(limit: nat, step: nat)
    requires 1 <= limit <= MAX_INT32 && step >= CeilLog2(limit)
    ensures Cap(limit, step, 2.0) == limit
  {
    DoublingReaches(limit, step);
    ClampIsUnobservable(limit, step, 2.0);
    TruncMonotone(limit as real, Pow(2.0, step));
  }

  /** Bernoulli's inequality. */
  lemma {:induction false} PowIsAtLeastLinear(growth: real, n: nat)
    requires growth >= 0.0
    ensures Pow(1.0 + growth, n) >= 1.0 + n as real * growth
  {
    if n == 0 {
      assert n as real * growth == 0.0;
    } else {
      PowIsAtLeastLinear(growth, n - 1);
      OneMoreFactor(growth, (n - 1) as real, Pow(1.0 + growth, n - 1));
      assert n as real == (n - 1) as real + 1.0;
    }
  }

  lemma OneMoreFactor(growth: real, n: real, power: real)
    requires growth >= 0.0 && n >= 0.0 && power >= 1.0 + n * growth
    ensures (1.0 + growth) * power >= 1.0 + (n + 1.0) * growth
  {
    assert growth * power >= growth * 1.0;
  }

  /** Whatever the factor exceeds one by, the full limit is reached within the limit divided by it. */
  lemma GrowthReaches(limit: nat, growth: real, step: nat)
    requires 1 <= limit <= MAX_INT32 && growth > 0.0 && step as real * growth >= limit as real
    ensures Cap(limit, step, 1.0 + growth) == limit
  {
    PowIsAtLeastLinear(growth, step);
    ClampIsUnobservable(limit, step, 1.0 + growth);
    TruncMonotone(limit as real, Pow(1.0 + growth, step));
  }

  lemma {:induction false} PowOfOne(n: nat)
    ensures Pow(1.0, n) == 1.0
  {
    if n > 0 {
      PowOfOne(n - 1);
    }
  }

  lemma FactorOneIsFlat(limit: int, step: nat)
    requires limit >= 1
    ensures Cap(limit, step, 1.0) == 1
  {
    PowOfOne(step);
  }
}
