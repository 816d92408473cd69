/**
 * Lift-per-drift: the accuracy a classifier gains from a drift detector,
 * divided among the drifts the detector raised. Every drift after the first
 * is discounted geometrically by the cost ratio `c`, so the divisor is
 * 1 + c + c^2 + ... + c^(n-1); with `c = 1` it is simply `n`.
 */
module LiftPerDrift {
  import opened Common

  /** A float division by zero, which Python raises as ZeroDivisionError. */
  datatype LpdError = ZeroDivision

  /** `c ** n` for a natural exponent. */
  function Pow(c: real, n: nat): real
  {
    if n == 0 then 1.0 else c * Pow(c, n - 1)
  }

  /** The discounted number of drifts: 1 + c + ... + c^(n-1). */
  function GeometricSum(c: real, n: nat): real
  {
    if n == 0 then 0.0 else GeometricSum(c, n - 1) + Pow(c, n - 1)
  }

  /** `lift_per_drift(base_accuracy, assisted_accuracy, n_drifts, cost_ratio)`. */
  function Lpd(baseAccuracy: real, assistedAccuracy: real, nDrifts: nat, costRatio: real): (r: Result<real, LpdError>)
    // the zero-drift guard comes before every division, whatever the accuracies
    ensures nDrifts == 0 ==> r == Success(0.0)
  {
    if nDrifts == 0 then Success(0.0)
    else if costRatio == 1.0 then Success((assistedAccuracy - baseAccuracy) / (nDrifts as real))
    else
      var accuracyDiff := assistedAccuracy - baseAccuracy;
      var penalty := 1.0 - costRatio;
      var denominator := 1.0 - Pow(costRatio, nDrifts);
      if denominator == 0.0 then Failure(ZeroDivision)
      else Success(accuracyDiff * penalty / denominator)
  }

  lemma {:induction false} GeometricClosedForm(c: real, n: nat)
    ensures (1.0 - c) * GeometricSum(c, n) == 1.0 - Pow(c, n)
  {
    if n > 0 {
      GeometricClosedForm(c, n - 1);
      calc {
        (1.0 - c) * GeometricSum(c, n);
        (1.0 - c) * GeometricSum(c, n - 1) + (1.0 - c) * Pow(c, n - 1);
        1.0 - Pow(c, n - 1) + Pow(c, n - 1) - c * Pow(c, n - 1);
      }
    }
  }

  lemma {:induction false} GeometricSumOne(n: nat)
    ensures GeometricSum(1.0, n) == n as real
  {
    if n > 0 {
      GeometricSumOne(n - 1);
      PowNonNegative(1.0, n - 1);
      assert Pow(1.0, n - 1) == 1.0 by {
        PowOne(n - 1);
      }
    }
  }

  lemma {:induction false} PowOne(n: nat)
    ensures Pow(1.0, n) == 1.0
  {
    if n > 0 {
      PowOne(n - 1);
    }
  }

  lemma {:induction false} PowNonNegative(c: real, n: nat)
    requires c >= 0.0
    ensures Pow(c, n) >= 0.0
  {
    if n > 0 {
      PowNonNegative(c, n - 1);
    }
  }

  /** For a non-negative ratio the discounted count is at least one drift's worth. */
  lemma {:induction false} GeometricSumAtLeastOne(c: real, n: nat)
    requires c >= 0.0 && n >= 1
    ensures GeometricSum(c, n) >= 1.0
  {
    if n > 1 {
      GeometricSumAtLeastOne(c, n - 1);
      PowNonNegative(c, n - 1);
    }
  }

  /** A raised power of a larger non-negative base is larger. */
  lemma {:induction false} PowMonotone(c1: real, c2: real, n: nat)
    requires 0.0 <= c1 <= c2
    ensures Pow(c1, n) <= Pow(c2, n)
  {
    if n > 0 {
      PowMonotone(c1, c2, n - 1);
      PowNonNegative(c1, n - 1);
      assert c1 * Pow(c1, n - 1) <= c2 * Pow(c1, n - 1);
      assert c2 * Pow(c1, n - 1) <= c2 * Pow(c2, n - 1);
    }
  }

  lemma {:induction false} GeometricSumMonotone(c1: real, c2: real, n: nat)
    requires 0.0 <= c1 <= c2
    ensures GeometricSum(c1, n) <= GeometricSum(c2, n)
  {
    if n > 0 {
      GeometricSumMonotone(c1, c2, n - 1);
      PowMonotone(c1, c2, n - 1);
    }
  }

  /**
   * The reference definition: for at least one drift, whatever the cost
   * ratio, the result is the accuracy difference divided by the discounted
   * count 1 + c + ... + c^(n-1), and the division fails exactly when that
   * count is zero (only possible for c = -1 and an even count).
   */
  lemma LpdIsDiscountedAverage(base: real, assisted: real, n: nat, c: real)
    requires n >= 1
    ensures Lpd(base, assisted, n, c).Failure? <==> GeometricSum(c, n) == 0.0
    ensures Lpd(base, assisted, n, c).Success? ==>
      Lpd(base, assisted, n, c).value == (assisted - base) / GeometricSum(c, n)
  {
    var g := GeometricSum(c, n);
    if c == 1.0 {
      GeometricSumOne(n);
    } else {
      var d, k, den := assisted - base, 1.0 - c, 1.0 - Pow(c, n);
      GeometricClosedForm(c, n);
      ZeroProductIff(k, g, den);
      if den != 0.0 {
        LpdDiscountedBranch(base, assisted, n, c);
        SolveQuotient(Lpd(base, assisted, n, c).value, d, k, g, den);
      } else {
        assert Lpd(base, assisted, n, c) == Failure(ZeroDivision);
      }
    }
  }

  /** With a non-zero first factor, a product is zero exactly when the second factor is. */
  lemma ZeroProductIff(k: real, g: real, den: real)
    requires k != 0.0 && den == k * g
    ensures den == 0.0 <==> g == 0.0
  {
    if g != 0.0 {
      NonZeroProduct(k, g);
    }
  }

  /** Away from `c = 1`, a non-zero divisor gives the source's geometric formula. */
  lemma LpdDiscountedBranch(base: real, assisted: real, n: nat, c: real)
    requires n >= 1 && c != 1.0
    requires 1.0 - Pow(c, n) != 0.0
    ensures Lpd(base, assisted, n, c).Success?
    ensures Lpd(base, assisted, n, c).value * (1.0 - Pow(c, n)) == (assisted - base) * (1.0 - c)
  {
  }

  lemma NonZeroProduct(a: real, b: real)
    requires a != 0.0 && b != 0.0
    ensures a * b != 0.0
  {
  }

  /** With `c = 1` every drift costs the same: the plain average gain per drift. */
  lemma LpdUndiscounted(base: real, assisted: real, n: nat)
    requires n >= 1
    ensures Lpd(base, assisted, n, 1.0) == Success((assisted - base) / (n as real))
  {
  }

  /** A single drift receives the whole accuracy difference, whatever the cost ratio. */
  lemma LpdSingleDrift(base: real, assisted: real, c: real)
    ensures Lpd(base, assisted, 1, c) == Success(assisted - base)
  {
    LpdIsDiscountedAverage(base, assisted, 1, c);
  }

  /** For a non-negative cost ratio the result never fails and has the sign of the accuracy difference. */
  lemma LpdSign(base: real, assisted: real, n: nat, c: real)
    requires n >= 1 && c >= 0.0
    ensures Lpd(base, assisted, n, c).Success?
    ensures var r := Lpd(base, assisted, n, c).value;
      (r > 0.0 <==> assisted > base) && (r < 0.0 <==> assisted < base)
  {
    LpdIsDiscountedAverage(base, assisted, n, c);
    GeometricSumAtLeastOne(c, n);
  }

  /** For a gain, a stronger penalty (larger cost ratio) never gives a larger result. */
  lemma LpdAntitoneInCost(base: real, assisted: real, n: nat, c1: real, c2: real)
    requires n >= 1 && 0.0 <= c1 <= c2 && assisted > base
    ensures Lpd(base, assisted, n, c1).Success? && Lpd(base, assisted, n, c2).Success?
    ensures Lpd(base, assisted, n, c2).value <= Lpd(base, assisted, n, c1).value
  {
    LpdIsDiscountedAverage(base, assisted, n, c1);
    LpdIsDiscountedAverage(base, assisted, n, c2);
    GeometricSumAtLeastOne(c1, n);
    GeometricSumAtLeastOne(c2, n);
    GeometricSumMonotone(c1, c2, n);
    DivideByLarger(assisted - base, GeometricSum(c1, n), GeometricSum(c2, n));
  }

  /** From `v * (k * g) == d * k` with `k, g` non-zero, `v` is `d / g`. */
  lemma SolveQuotient(v: real, d: real, k: real, g: real, den: real)
    requires k != 0.0 && g != 0.0 && den == k * g && v * den == d * k
    ensures v == d / g
  {
    assert (v * g - d) * k == 0.0;
    if v * g - d != 0.0 {
      NonZeroProduct(v * g - d, k);
      assert false;
    }
    assert v * g == d;
  }

  lemma DivideByLarger(d: real, g1: real, g2: real)
    requires d > 0.0 && 0.0 < g1 <= g2
    ensures d / g2 <= d / g1
  {
    var q1, q2 := d / g1, d / g2;
    assert q1 * g1 == d && q2 * g2 == d;
    assert q2 > 0.0;
    assert q2 * g1 <= q2 * g2;
  }

  /** An even count with c = -1 makes the divisor 1 - c^n zero: the source raises. */
  lemma LpdAlternatingFails(base: real, assisted: real)
    ensures Lpd(base, assisted, 2, -1.0) == Failure(ZeroDivision)
  {
  }
}
