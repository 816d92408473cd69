/**
 * What the streaming detectors share: samples as real vectors, the
 * exceptions an update can raise, the outcome of one update, the
 * sliding-delay window pair (the oldest recent sample moves into the
 * reference window), and the small pieces of numpy arithmetic the
 * detectors compute themselves.
 */
module Detector {
  import opened Common
  import opened Window

  /** One sample: `np.fromiter(features.values(), dtype=float)`. */
  type Vector = seq<real>

  /** The exceptions a detector update can raise. */
  datatype DetectorError =
    | IndexError       // indexing an empty buffer, or popping more than it holds
    | ValueError       // a shape mismatch, or an argument numpy rejects
    | KeyError         // a feature missing from a later sample
    | NotImplemented   // a mode the detector declares but does not implement
    | LinAlgError      // numpy's linear algebra refusing an array that is not 2-D

  /** `np.exp`: positive everywhere. */
  type Exp = f: real -> real | forall x :: f(x) > 0.0 witness (x: real) => 1.0

  /** `rng.shuffle`: the `k`-th draw of the generator permutes its argument. */
  type Shuffle = f: (seq<int>, nat) -> seq<int> | forall s, k :: multiset(f(s, k)) == multiset(s)
    witness (s: seq<int>, k: nat) => s

  /** `np.arange(n)`. */
  function Identity(n: nat): (r: seq<int>)
    ensures |r| == n && forall i :: 0 <= i < n ==> r[i] == i
  {
    seq(n, i requires 0 <= i < n => i)
  }

  /** `0 .. n - 1` holds each of its numbers once and nothing else. */
  lemma {:induction false} IdentityOnce(n: nat)
    ensures forall v :: multiset(Identity(n))[v] == if 0 <= v < n then 1 else 0
  {
    if n > 0 {
      IdentityOnce(n - 1);
      assert Identity(n) == Identity(n - 1) + [n - 1];
    }
  }

  /** A shuffled `np.arange(n)` lists every index below `n` exactly once. */
  lemma ShuffledIdentity(shuffle: Shuffle, n: nat, k: nat)
    ensures var r := shuffle(Identity(n), k);
      && |r| == n
      && (forall i :: 0 <= i < n ==> 0 <= r[i] < n)
      && (forall i, j :: 0 <= i < j < n ==> r[i] != r[j])
  {
    var r := shuffle(Identity(n), k);
    IdentityOnce(n);
    assert |r| == |multiset(r)| == |multiset(Identity(n))| == n;
    forall i | 0 <= i < n
      ensures 0 <= r[i] < n
    {
      assert r[i] in multiset(r);
    }
    forall i, j | 0 <= i < j < n
      ensures r[i] != r[j]
    {
      RepeatCounted(r, i, j);
    }
  }

  /** An element at two positions occurs at least twice in the multiset. */
  lemma RepeatCounted<T>(r: seq<T>, i: nat, j: nat)
    requires i < j < |r|
    ensures r[i] == r[j] ==> multiset(r)[r[i]] >= 2
  {
    assert r == r[..j] + r[j..];
    assert r[i] in multiset(r[..j]) && r[j] in multiset(r[j..]);
  }

  /**
   * The square root inside `np.linalg.norm` and `np.std`; only its sign
   * and its value at 0 are relied on.
   */
  type Sqrt = f: real -> real | forall x :: f(x) >= 0.0 && (x == 0.0 ==> f(x) == 0.0)
    witness (x: real) => 0.0

  /**
   * The detector's state after one `update`, and what the call returned or
   * raised. An exception raised half-way leaves the changes made before it.
   */
  datatype Outcome<S> = Outcome(state: S, drift: Result<bool, DetectorError>)

  // ---------------------------------------------------------------------
  // The sliding-delay window pair
  // ---------------------------------------------------------------------

  /**
   * Appending `x` to the pair: once `recent` is full its oldest element
   * moves into `reference` (both of capacity `cap`) before `x` is appended
   * to `recent`.
   */
  function Slide<T>(reference: seq<T>, recent: seq<T>, x: T, cap: nat): (r: (seq<T>, seq<T>))
    requires cap > 0
    ensures |recent| < cap ==> r.0 == reference && r.1 == recent + [x]
    ensures |recent| == cap ==> r.0 == Append(reference, recent[0], cap) && r.1 == recent[1..] + [x]
    ensures |reference| <= cap && |recent| <= cap ==> |r.0| <= cap && |r.1| <= cap
  {
    var reference' := if |recent| == cap then Append(reference, recent[0], cap) else reference;
    (reference', Append(recent, x, cap))
  }

  /** The window pair after a stream `xs`, starting from two empty windows. */
  function SlideAll<T>(xs: seq<T>, cap: nat): (seq<T>, seq<T>)
    requires cap > 0
  {
    if |xs| == 0 then ([], [])
    else
      var w := SlideAll(xs[..|xs| - 1], cap);
      Slide(w.0, w.1, xs[|xs| - 1], cap)
  }

  /** What the window pair holds after the samples `h`, without resets. */
  ghost predicate SlideInvariant<T>(w: (seq<T>, seq<T>), h: seq<T>, cap: nat)
  {
    && w.0 + w.1 == Last(h, 2 * cap)
    && |w.0| <= cap && |w.1| <= cap
    && (|w.1| < cap ==> w.0 == [])
  }

  lemma SlideStep<T>(w: (seq<T>, seq<T>), h: seq<T>, x: T, cap: nat)
    requires cap > 0 && SlideInvariant(w, h, cap)
    ensures SlideInvariant(Slide(w.0, w.1, x, cap), h + [x], cap)
  {
    if |w.1| < cap {
      SlideFilling(w, h, x, cap);
    } else if |w.0| < cap {
      SlideMoving(w, h, x, cap);
    } else {
      SlideFull(w, h, x, cap);
    }
  }

  /** While `recent` fills, the pair is the whole stream. */
  lemma SlideFilling<T>(w: (seq<T>, seq<T>), h: seq<T>, x: T, cap: nat)
    requires cap > 0 && SlideInvariant(w, h, cap) && |w.1| < cap
    ensures SlideInvariant(Slide(w.0, w.1, x, cap), h + [x], cap)
  {
    assert w.0 + w.1 == h;
    var r := Slide(w.0, w.1, x, cap);
    assert r.0 == [] && r.1 == w.1 + [x];
    assert Last(h + [x], 2 * cap) == h + [x];
  }

  /** While `reference` fills, nothing leaves the pair. */
  lemma SlideMoving<T>(w: (seq<T>, seq<T>), h: seq<T>, x: T, cap: nat)
    requires cap > 0 && SlideInvariant(w, h, cap) && |w.1| == cap && |w.0| < cap
    ensures SlideInvariant(Slide(w.0, w.1, x, cap), h + [x], cap)
  {
    assert w.0 + w.1 == h;
    var r := Slide(w.0, w.1, x, cap);
    assert r.0 == w.0 + [w.1[0]] && r.1 == w.1[1..] + [x];
    assert r.0 + r.1 == h + [x];
    assert Last(h + [x], 2 * cap) == h + [x];
  }

  /** Once both are full, the oldest sample of the pair drops out. */
  lemma SlideFull<T>(w: (seq<T>, seq<T>), h: seq<T>, x: T, cap: nat)
    requires cap > 0 && SlideInvariant(w, h, cap) && |w.1| == cap && |w.0| == cap
    ensures SlideInvariant(Slide(w.0, w.1, x, cap), h + [x], cap)
  {
    var xs := h + [x];
    var r := Slide(w.0, w.1, x, cap);
    assert r.0 == w.0[1..] + [w.1[0]] && r.1 == w.1[1..] + [x];
    assert r.0 + r.1 == (w.0 + w.1)[1..] + [x];
    assert w.0 + w.1 == h[|h| - 2 * cap..];
    assert h[|h| - 2 * cap..][1..] + [x] == xs[|xs| - 2 * cap..];
  }

  /**
   * The sliding delay: without resets, reference ++ recent is exactly the
   * last `2 * cap` samples in arrival order, and the reference window stays
   * empty until the recent window has filled.
   */
  lemma {:induction false} SlidingDelay<T>(xs: seq<T>, cap: nat)
    requires cap > 0
    ensures SlideInvariant(SlideAll(xs, cap), xs, cap)
  {
    if |xs| > 0 {
      SlidingDelay(xs[..|xs| - 1], cap);
      SlideAllStep(xs, cap);
    }
  }

  lemma SlideAllStep<T>(xs: seq<T>, cap: nat)
    requires cap > 0 && |xs| > 0
    requires SlideInvariant(SlideAll(xs[..|xs| - 1], cap), xs[..|xs| - 1], cap)
    ensures SlideInvariant(SlideAll(xs, cap), xs, cap)
  {
    var h := xs[..|xs| - 1];
    var x := xs[|xs| - 1];
    SplitLast(xs);
    var w := SlideAll(h, cap);
    SlideStep(w, h, x, cap);
  }

  /** One slide keeps reference ++ recent a suffix of what it held plus the new sample. */
  lemma SlideIsSuffix<T>(reference: seq<T>, recent: seq<T>, x: T, cap: nat)
    requires cap > 0 && |reference| <= cap && |recent| <= cap
    ensures var w := Slide(reference, recent, x, cap);
      IsSuffix(w.0 + w.1, reference + recent + [x])
  {
    if |recent| == cap {
      SlideIsSuffixFull(reference, recent, x, cap);
    }
  }

  lemma SlideIsSuffixFull<T>(reference: seq<T>, recent: seq<T>, x: T, cap: nat)
    requires cap > 0 && |reference| <= cap && |recent| == cap
    ensures var w := Slide(reference, recent, x, cap);
      IsSuffix(w.0 + w.1, reference + recent + [x])
  {
    var moved := reference + [recent[0]];
    var tail := recent[1..] + [x];
    var w := Slide(reference, recent, x, cap);
    assert w.0 == Last(moved, cap) && w.1 == tail;
    ShiftFirst(reference, recent, x);
    SuffixOfConcat(moved, w.0, tail);
  }

  /**
   * What a detector holds after one slide, or after a slide followed by a
   * reset (the recent window alone), is a suffix of the stream so far.
   */
  lemma SlideOrResetIsSuffix<T>(reference: seq<T>, recent: seq<T>, x: T, cap: nat, h: seq<T>, t: seq<T>)
    requires cap > 0 && |reference| <= cap && |recent| <= cap && IsSuffix(reference + recent, h)
    requires var w := Slide(reference, recent, x, cap); t == w.0 + w.1 || t == w.1
    ensures IsSuffix(t, h + [x])
  {
    var w := Slide(reference, recent, x, cap);
    SlideIsSuffix(reference, recent, x, cap);
    IsSuffixExtend(reference + recent, h, x);
    IsSuffixTransitive(w.0 + w.1, reference + recent + [x], h + [x]);
    if t != w.0 + w.1 {
      assert IsSuffix(w.1, w.0 + w.1);
      IsSuffixTransitive(w.1, w.0 + w.1, h + [x]);
    }
  }

  /** Sliding a `d`-dimensional sample into windows of `d`-dimensional samples keeps every sample `d`-dimensional. */
  lemma SlideKeepsRows(reference: seq<Vector>, recent: seq<Vector>, x: Vector, cap: nat, d: nat)
    requires cap > 0 && Rows(reference, d) && Rows(recent, d) && |x| == d
    ensures var w := Slide(reference, recent, x, cap);
      Rows(w.0, d) && Rows(w.1, d)
  {
    var w := Slide(reference, recent, x, cap);
    LastRows(reference + (if |recent| == cap then [recent[0]] else []), cap, d);
    LastRows(recent + [x], cap, d);
  }

  lemma LastRows(s: seq<Vector>, n: nat, d: nat)
    requires Rows(s, d)
    ensures Rows(Last(s, n), d)
  {
    var r := Last(s, n);
    forall i | 0 <= i < |r|
      ensures |r[i]| == d
    {
      assert r[i] == s[|s| - |r| + i];
    }
  }

  lemma SuffixOfConcat<T>(a: seq<T>, b: seq<T>, tail: seq<T>)
    requires IsSuffix(b, a)
    ensures IsSuffix(b + tail, a + tail)
  {
    assert (a + tail)[|a + tail| - |b + tail|..] == a[|a| - |b|..] + tail;
  }

  // ---------------------------------------------------------------------
  // Vectors and matrices
  // ---------------------------------------------------------------------

  /** Every row has `d` entries: what `np.array` needs to build a 2-D array. */
  predicate Rows(rows: seq<Vector>, d: nat)
  {
    forall i :: 0 <= i < |rows| ==> |rows[i]| == d
  }

  /** `data[labels == i]`: the rows whose label is `i`, in order. */
  function Members<T>(rows: seq<T>, labels: seq<int>, i: int): (r: seq<T>)
    requires |labels| == |rows|
    ensures |r| <= |rows|
    decreases |rows|
  {
    if |rows| == 0 then []
    else (if labels[0] == i then [rows[0]] else []) + Members(rows[1..], labels[1..], i)
  }

  /** Every label is 0 or 1. */
  predicate TwoClasses(labels: seq<int>)
  {
    forall j :: 0 <= j < |labels| ==> 0 <= labels[j] <= 1
  }

  lemma TwoClassesSlice(labels: seq<int>, lo: nat, hi: nat)
    requires TwoClasses(labels) && lo <= hi <= |labels|
    ensures TwoClasses(labels[lo..hi])
  {
    assert forall j :: 0 <= j < hi - lo ==> labels[lo..hi][j] == labels[lo + j];
  }

  /** A split sequence holds the elements of its two parts. */
  lemma MultisetSplit<T>(s: seq<T>, k: nat)
    requires k <= |s|
    ensures multiset(s) == multiset(s[..k]) + multiset(s[k..])
  {
    assert s == s[..k] + s[k..];
  }

  /** With labels 0 and 1 only, the two label classes partition the rows. */
  lemma {:induction false} MembersPartition<T>(rows: seq<T>, labels: seq<int>)
    requires |labels| == |rows| && TwoClasses(labels)
    ensures multiset(Members(rows, labels, 0)) + multiset(Members(rows, labels, 1)) == multiset(rows)
    decreases |rows|
  {
    if |rows| > 0 {
      MembersPartition(rows[1..], labels[1..]);
      var zeros := Members(rows[1..], labels[1..], 0);
      var ones := Members(rows[1..], labels[1..], 1);
      assert rows == [rows[0]] + rows[1..];
      assert multiset(rows) == multiset{rows[0]} + multiset(rows[1..]);
      if labels[0] == 0 {
        assert Members(rows, labels, 0) == [rows[0]] + zeros && Members(rows, labels, 1) == ones;
      } else {
        assert Members(rows, labels, 0) == zeros && Members(rows, labels, 1) == [rows[0]] + ones;
      }
    }
  }

  /** All rows have the length of the first: `np.array` builds a 2-D array rather than raising. */
  predicate Uniform(data: seq<Vector>)
  {
    |data| == 0 || Rows(data, |data[0]|)
  }

  /** Elementwise difference. */
  function Sub(a: Vector, b: Vector): (r: Vector)
    requires |a| == |b|
    ensures |r| == |a|
    ensures forall i :: 0 <= i < |a| ==> r[i] == a[i] - b[i]
  {
    seq(|a|, i requires 0 <= i < |a| => a[i] - b[i])
  }

  /** Inner product. */
  function Dot(a: Vector, b: Vector): real
    requires |a| == |b|
  {
    if |a| == 0 then 0.0 else a[0] * b[0] + Dot(a[1..], b[1..])
  }

  /** Column `j` of a matrix given by rows. */
  function Col(rows: seq<Vector>, j: nat): (c: seq<real>)
    requires forall i :: 0 <= i < |rows| ==> j < |rows[i]|
    ensures |c| == |rows|
    ensures forall i :: 0 <= i < |rows| ==> c[i] == rows[i][j]
  {
    seq(|rows|, i requires 0 <= i < |rows| => rows[i][j])
  }

  /** `np.matmul(c, m)`: the row vector `c` times the square matrix `m`. */
  function VecMat(c: Vector, m: seq<Vector>): (r: Vector)
    requires |m| == |c| && Rows(m, |c|)
    ensures |r| == |c|
    ensures forall j :: 0 <= j < |c| ==> r[j] == Dot(c, Col(m, j))
  {
    seq(|c|, j requires 0 <= j < |c| => Dot(c, Col(m, j)))
  }

  /** The quadratic form `c · M · cᵀ`. */
  function QuadForm(c: Vector, m: seq<Vector>): real
    requires |m| == |c| && Rows(m, |c|)
  {
    Dot(VecMat(c, m), c)
  }

  predicate IsZero(c: Vector)
  {
    forall i :: 0 <= i < |c| ==> c[i] == 0.0
  }

  /** A product with the zero vector vanishes. */
  lemma {:induction false} DotZero(a: Vector, b: Vector)
    requires |a| == |b| && IsZero(b)
    ensures Dot(a, b) == 0.0
  {
    if |a| > 0 {
      DotZero(a[1..], b[1..]);
    }
  }

  /** The quadratic form of the zero vector is zero, whatever the matrix. */
  lemma QuadFormZero(c: Vector, m: seq<Vector>)
    requires |m| == |c| && Rows(m, |c|) && IsZero(c)
    ensures QuadForm(c, m) == 0.0
  {
    DotZero(VecMat(c, m), c);
  }

  /** A sum of squares is never negative. */
  lemma {:induction false} DotSelfNonNegative(a: Vector)
    ensures Dot(a, a) >= 0.0
  {
    if |a| > 0 {
      DotSelfNonNegative(a[1..]);
    }
  }

  /** `np.mean(rows, axis=0)`: the column-wise mean. */
  function ColumnMean(rows: seq<Vector>, d: nat): (m: Vector)
    requires |rows| > 0 && Rows(rows, d)
    ensures |m| == d
    ensures forall j :: 0 <= j < d ==> m[j] == Mean(Col(rows, j))
  {
    seq(d, j requires 0 <= j < d => Mean(Col(rows, j)))
  }
}
