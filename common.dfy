/**
 * Shared vocabulary of the model: optional and failing results, sums and
 * means over reals, the first-minimum index that numpy's `argmin` returns,
 * and the rounding functions that Python's `int(...)` and `np.ceil` apply.
 */
module Common {

  /** A value that may be missing; in the metrics `None` stands for NaN. */
  datatype Option<+T> = None | Some(value: T)

  /** The outcome of an operation that raises an exception on bad input. */
  datatype Result<+T, +E> = Success(value: T) | Failure(error: E)

  /** Sum of a sequence of reals, folded from the front. */
  function Sum(s: seq<real>): real
  {
    if |s| == 0 then 0.0 else s[0] + Sum(s[1..])
  }

  lemma {:induction false} SumAppend(a: seq<real>, b: seq<real>)
    ensures Sum(a + b) == Sum(a) + Sum(b)
  {
    if |a| == 0 {
      assert a + b == b;
    } else {
      assert (a + b)[1..] == a[1..] + b;
      SumAppend(a[1..], b);
    }
  }

  /** The sum of the first |s| - 1 elements plus the last one. */
  lemma SumLast(s: seq<real>)
    requires |s| > 0
    ensures Sum(s) == Sum(s[..|s| - 1]) + s[|s| - 1]
  {
    assert s == s[..|s| - 1] + [s[|s| - 1]];
    SumAppend(s[..|s| - 1], [s[|s| - 1]]);
  }

  lemma {:induction false} SumNonNegative(s: seq<real>)
    requires forall i :: 0 <= i < |s| ==> s[i] >= 0.0
    ensures Sum(s) >= 0.0
  {
    if |s| > 0 {
      SumNonNegative(s[1..]);
    }
  }

  lemma {:induction false} SumZero(s: seq<real>)
    requires forall i :: 0 <= i < |s| ==> s[i] == 0.0
    ensures Sum(s) == 0.0
  {
    if |s| > 0 {
      SumZero(s[1..]);
    }
  }

  /** A sum of terms that are each at most `hi` is at most `|s| * hi`. */
  lemma {:induction false} SumAtMost(s: seq<real>, hi: real)
    requires forall i :: 0 <= i < |s| ==> s[i] <= hi
    ensures Sum(s) <= (|s| as real) * hi
  {
    if |s| > 0 {
      SumAtMost(s[1..], hi);
    }
  }

  /** Arithmetic mean of a non-empty sequence (numpy's `np.mean`). */
  function Mean(s: seq<real>): real
    requires |s| > 0
  {
    Sum(s) / (|s| as real)
  }

  /** A constant sequence sums to its length times the constant. */
  lemma {:induction false} SumConstant(s: seq<real>, v: real)
    requires forall i :: 0 <= i < |s| ==> s[i] == v
    ensures Sum(s) == (|s| as real) * v
  {
    if |s| > 0 {
      SumConstant(s[1..], v);
    }
  }

  /** The mean of a constant sequence is the constant. */
  lemma MeanConstant(s: seq<real>, v: real)
    requires |s| > 0 && forall i :: 0 <= i < |s| ==> s[i] == v
    ensures Mean(s) == v
  {
    SumConstant(s, v);
    var n := |s| as real;
    assert Sum(s) / n == (n * v) / n;
  }

  /** The mean of values that are all at least `lo` is at least `lo`. */
  lemma MeanAtLeast(s: seq<real>, lo: real)
    requires |s| > 0
    requires forall i :: 0 <= i < |s| ==> s[i] >= lo
    ensures Mean(s) >= lo
  {
    var shifted := seq(|s|, i requires 0 <= i < |s| => s[i] - lo);
    SumNonNegative(shifted);
    SumShift(s, lo);
    QuotientAtLeast(Sum(s), |s| as real, lo);
  }

  /** A total of at least `n * lo`, shared by `n`, gives at least `lo` each. */
  lemma QuotientAtLeast(total: real, n: real, lo: real)
    requires n > 0.0 && total >= n * lo
    ensures total / n >= lo
  {
    assert total / n - lo == (total - n * lo) / n;
  }

  lemma {:induction false} SumShift(s: seq<real>, c: real)
    ensures Sum(seq(|s|, i requires 0 <= i < |s| => s[i] - c)) == Sum(s) - (|s| as real) * c
  {
    var t := seq(|s|, i requires 0 <= i < |s| => s[i] - c);
    if |s| > 0 {
      SumShift(s[1..], c);
      assert t[1..] == seq(|s[1..]|, i requires 0 <= i < |s[1..]| => s[1..][i] - c);
    }
  }

  /**
   * Index of the first minimal element, the tie-breaking rule of
   * numpy's `argmin`.
   */
  function ArgMin(ds: seq<real>): (k: nat)
    requires |ds| > 0
    ensures k < |ds|
    ensures forall j :: 0 <= j < |ds| ==> ds[k] <= ds[j]
    ensures forall j :: 0 <= j < k ==> ds[j] > ds[k]
  {
    if |ds| == 1 then 0
    else
      var k := ArgMin(ds[..|ds| - 1]);
      if ds[|ds| - 1] < ds[k] then |ds| - 1 else k
  }

  /** Python's `int(x)` on a float: truncation toward zero. */
  function Trunc(x: real): (n: int)
    ensures x >= 0.0 ==> n as real <= x < n as real + 1.0
    ensures x < 0.0 ==> n as real - 1.0 < x <= n as real
  {
    if x >= 0.0 then x.Floor else -((-x).Floor)
  }

  /** `np.ceil`: the least integer not below `x`. */
  function Ceil(x: real): (n: int)
    ensures x <= n as real < x + 1.0
  {
    -((-x).Floor)
  }

  /** Number of positions of `s` holding `x`. */
  function Count<T(==)>(s: seq<T>, x: T): nat
  {
    if |s| == 0 then 0 else (if s[0] == x then 1 else 0) + Count(s[1..], x)
  }

  lemma {:induction false} CountBound<T>(s: seq<T>, x: T)
    ensures Count(s, x) <= |s|
  {
    if |s| > 0 {
      CountBound(s[1..], x);
    }
  }

  /** The elements of a sequence as a set. */
  function Elements<T>(s: seq<T>): set<T>
  {
    set x | x in s
  }

  /** A set of indices below `n` has at most `n` members. */
  lemma {:induction false} IndexSetBound(xs: set<nat>, n: nat)
    requires forall x :: x in xs ==> x < n
    ensures |xs| <= n
  {
    if n > 0 {
      IndexSetBound(xs - {n - 1}, n - 1);
    } else {
      assert xs == {};
    }
  }

  /** A sequence has at least as many positions as distinct elements. */
  lemma {:induction false} ElementsBound<T>(s: seq<T>)
    ensures |Elements(s)| <= |s|
  {
    if |s| > 0 {
      ElementsBound(s[1..]);
      assert Elements(s) == {s[0]} + Elements(s[1..]);
    } else {
      assert Elements(s) == {};
    }
  }

  /** A subset is no larger than its superset. */
  lemma SubsetBound<T>(a: set<T>, b: set<T>)
    requires a <= b
    ensures |a| <= |b|
  {
    assert b == a + (b - a);
  }

  /** A proportion `part / whole` with `part <= whole` lies in [0, 1]. */
  lemma RatioBounds(part: nat, whole: nat)
    requires part <= whole && whole > 0
    ensures 0.0 <= (part as real) / (whole as real) <= 1.0
  {
  }
}
