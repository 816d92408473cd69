/**
 * Nearest Neighbor-based Density Variation Identification (NN-DVI): a
 * reference and a sliding window of `n_samples` points, a particle matrix
 * built from the k nearest neighbours of every point in both windows, the
 * lcm-weighted NNPS distance between the two windows' particles, and a
 * permutation test that turns the distance into a drift decision.
 */
module Nndvi {
  import opened Common
  import opened Window
  import opened Detector

  // ---------------------------------------------------------------------
  // Index sets
  // ---------------------------------------------------------------------

  /** Every index of `idx` addresses a row of a matrix with `len` rows. */
  predicate InRange(idx: seq<int>, len: nat)
  {
    forall t :: 0 <= t < |idx| ==> 0 <= idx[t] < len
  }

  lemma InRangeMembers(idx: seq<int>, len: nat)
    ensures InRange(idx, len) <==> forall x :: x in idx ==> 0 <= x < len
  {
    if InRange(idx, len) {
      forall x | x in idx ensures 0 <= x < len {
        var t :| 0 <= t < |idx| && idx[t] == x;
      }
    } else {
      var t :| 0 <= t < |idx| && !(0 <= idx[t] < len);
      assert idx[t] in idx;
    }
  }

  /**
   * `_get_indices(data_len)`: the first `n` positions belong to the
   * reference window and the last `n` positions to the sliding window.
   */
  function Indices(n: nat, dataLen: nat): (r: (seq<int>, seq<int>))
    ensures |r.0| == n && |r.1| == n
    ensures n <= dataLen ==> InRange(r.0, dataLen) && InRange(r.1, dataLen)
  {
    (seq(n, i => i), seq(n, i => i + dataLen - n))
  }

  /** The integers `lo, ..., hi - 1` as a set. */
  predicate Between(lo: int, x: int, hi: int)
  {
    lo <= x < hi
  }

  function Range(lo: int, hi: int): set<int>
  {
    set x: int | lo <= x < hi && Between(lo, x, hi)
  }

  lemma {:induction false} RangeSize(lo: int, hi: int)
    requires lo <= hi
    ensures |Range(lo, hi)| == hi - lo
    decreases hi - lo
  {
    if lo < hi {
      RangeSize(lo + 1, hi);
      assert Range(lo, hi) == {lo} + Range(lo + 1, hi);
    } else {
      assert Range(lo, hi) == {};
    }
  }

  /**
   * The two index sets are disjoint iff the data holds at least `2 * n`
   * points; with exactly `n` points they coincide.
   */
  lemma IndicesDisjoint(n: nat, dataLen: nat)
    requires 0 < n <= dataLen
    ensures var r := Indices(n, dataLen);
      (Elements(r.0) * Elements(r.1) == {}) <==> dataLen >= 2 * n
    ensures dataLen == n ==> Indices(n, dataLen).0 == Indices(n, dataLen).1
  {
    var r := Indices(n, dataLen);
    if dataLen < 2 * n {
      assert r.1[0] == dataLen - n == r.0[dataLen - n];
      assert dataLen - n in Elements(r.0) * Elements(r.1);
    } else {
      assert forall x :: x in r.0 ==> x < n;
      assert forall x :: x in r.1 ==> x >= n;
    }
  }

  /**
   * Together the two index sets cover `min(data_len, 2 * n)` distinct
   * positions: 10, 9 and 6 for `n = 5` and lengths 10, 9 and 6.
   */
  lemma IndicesUnionSize(n: nat, dataLen: nat)
    requires n <= dataLen
    ensures var r := Indices(n, dataLen);
      |Elements(r.0) + Elements(r.1)| == if dataLen < 2 * n then dataLen else 2 * n
  {
    var r := Indices(n, dataLen);
    IndicesAsRanges(n, dataLen);
    var u := Elements(r.0) + Elements(r.1);
    assert u == Range(0, n) + Range(dataLen - n, dataLen);
    if dataLen < 2 * n {
      RangeOverlapUnion(0, dataLen - n, n, dataLen);
      RangeSize(0, dataLen);
      assert |u| == dataLen;
    } else {
      DisjointEnds(n, dataLen);
    }
  }

  lemma RangeOverlapUnion(a: int, b: int, c: int, d: int)
    requires a <= b <= c <= d
    ensures Range(a, c) + Range(b, d) == Range(a, d)
  {
  }

  lemma DisjointEnds(n: nat, dataLen: nat)
    requires 2 * n <= dataLen
    ensures |Range(0, n) + Range(dataLen - n, dataLen)| == 2 * n
  {
    RangeDisjointUnionSize(0, n, dataLen - n, dataLen);
  }

  lemma RangeDisjointUnionSize(a: int, b: int, c: int, d: int)
    requires a <= b <= c <= d
    ensures |Range(a, b) + Range(c, d)| == (b - a) + (d - c)
  {
    RangeSize(a, b);
    RangeSize(c, d);
    assert Range(a, b) * Range(c, d) == {};
  }

  lemma IndicesAsRanges(n: nat, dataLen: nat)
    requires n <= dataLen
    ensures var r := Indices(n, dataLen);
      Elements(r.0) == Range(0, n) && Elements(r.1) == Range(dataLen - n, dataLen)
  {
    var r := Indices(n, dataLen);
    forall x | x in Range(0, n) ensures x in Elements(r.0) {
      assert r.0[x] == x;
    }
    forall x | x in Range(dataLen - n, dataLen) ensures x in Elements(r.1) {
      assert r.1[x - dataLen + n] == x;
    }
  }

  /**
   * `_get_permutation`: the two index sets are concatenated, shuffled with
   * the generator's `draw`-th shuffle, and split after the first `n`.
   */
  function GetPermutation(shuffle: Shuffle, draw: nat, first: seq<int>, second: seq<int>, n: nat): (r: (seq<int>, seq<int>))
    ensures multiset(r.0) + multiset(r.1) == multiset(first + second)
    ensures |r.0| == if n <= |first + second| then n else |first + second|
  {
    var shuffled := shuffle(first + second, draw);
    assert |shuffled| == |multiset(shuffled)| == |first + second|;
    var r := if n <= |shuffled| then (shuffled[..n], shuffled[n..]) else (shuffled, []);
    assert r.0 + r.1 == shuffled;
    r
  }

  /** The shuffled halves address the same rows as the index sets they came from. */
  lemma PermutationInRange(shuffle: Shuffle, draw: nat, first: seq<int>, second: seq<int>, n: nat, len: nat)
    requires InRange(first + second, len)
    ensures var r := GetPermutation(shuffle, draw, first, second, n);
      InRange(r.0, len) && InRange(r.1, len)
  {
    var r := GetPermutation(shuffle, draw, first, second, n);
    assert forall x :: x in r.0 || x in r.1 ==> x in multiset(first + second);
    InRangeMembers(first + second, len);
    InRangeMembers(r.0, len);
    InRangeMembers(r.1, len);
  }

  // ---------------------------------------------------------------------
  // Particle matrix
  // ---------------------------------------------------------------------

  /** A square 0/1 matrix. */
  predicate Binary(m: seq<seq<int>>)
  {
    forall i :: 0 <= i < |m| ==> |m[i]| == |m| && forall j :: 0 <= j < |m[i]| ==> m[i][j] == 0 || m[i][j] == 1
  }

  /** Every neighbour index names one of the `len` points, and every point has a neighbour list. */
  predicate Neighbourly(neighbours: seq<seq<int>>, len: nat)
  {
    |neighbours| == len && forall i :: 0 <= i < len ==> InRange(neighbours[i], len)
  }

  /** The particle matrix of a neighbour table: row `i` marks the neighbours of point `i`. */
  function ParticleMatrix(neighbours: seq<seq<int>>): (m: seq<seq<int>>)
    ensures Binary(m) && |m| == |neighbours|
  {
    seq(|neighbours|, i requires 0 <= i < |neighbours| => ParticleRow(neighbours[i], |neighbours|))
  }

  /** Row `i` of the particle matrix marks exactly the neighbours of point `i`. */
  lemma ParticleMatrixMarks(neighbours: seq<seq<int>>)
    ensures var m := ParticleMatrix(neighbours);
      forall i, j :: 0 <= i < |m| && 0 <= j < |m| ==> (m[i][j] == 1 <==> j in neighbours[i])
  {
  }

  function ParticleRow(neighbours: seq<int>, len: nat): (row: seq<int>)
    ensures |row| == len
    ensures forall j :: 0 <= j < len ==> (row[j] == 1 <==> j in neighbours) && (row[j] == 0 <==> j !in neighbours)
  {
    seq(len, j => if j in neighbours then 1 else 0)
  }

  /**
   * `_get_particle_matrix` after the neighbour query: a zero matrix in
   * which, row by row, every listed neighbour's column is set to 1.
   */
  method GetParticleMatrix(neighbours: seq<seq<int>>) returns (m: seq<seq<int>>)
    requires Neighbourly(neighbours, |neighbours|)
    ensures m == ParticleMatrix(neighbours)
  {
    var len := |neighbours|;
    m := [];
    for i := 0 to len
      invariant m == ParticleMatrix(neighbours)[..i]
    {
      var row := new int[len](_ => 0);
      var columns := neighbours[i];
      for c := 0 to |columns|
        invariant forall j :: 0 <= j < len ==> row[j] == if j in columns[..c] then 1 else 0
      {
        row[columns[c]] := 1;
      }
      assert columns[..|columns|] == columns;
      assert row[..] == ParticleRow(columns, len);
      m := m + [row[..]];
    }
    assert ParticleMatrix(neighbours)[..len] == ParticleMatrix(neighbours);
  }

  // ---------------------------------------------------------------------
  // The NNPS distance
  // ---------------------------------------------------------------------

  /** The sum of a row of integers. */
  function RowSum(row: seq<int>): int
  {
    if |row| == 0 then 0 else row[0] + RowSum(row[1..])
  }

  /** `np.sum(particle_matrix, axis=1)`: the cardinality of every particle. */
  function Cardinalities(m: seq<seq<int>>): (cs: seq<int>)
    ensures |cs| == |m|
  {
    seq(|m|, i requires 0 <= i < |m| => RowSum(m[i]))
  }

  /** Every particle holds at least one point. */
  predicate PositiveRows(m: seq<seq<int>>)
  {
    forall i :: 0 <= i < |m| ==> RowSum(m[i]) > 0
  }

  /** `k` is a positive common multiple of `a` and `b`. */
  predicate CommonMultiple(a: nat, b: nat, k: int)
    requires a > 0 && b > 0
  {
    k > 0 && k % a == 0 && k % b == 0
  }

  lemma MultipleMod(a: nat, b: nat)
    requires a > 0
    ensures (a * b) % a == 0
  {
    var q, r := (a * b) / a, (a * b) % a;
    assert a * b == q * a + r;
    var d := b - q;
    assert r == a * d;
    if d >= 1 {
      assert false;
    } else if d <= -1 {
      assert false;
    }
  }

  /** The least common multiple of `a` and `b` that is at least `k`. */
  function LcmFrom(a: nat, b: nat, k: nat): (r: nat)
    requires a > 0 && b > 0 && 0 < k <= a * b
    ensures k <= r <= a * b && CommonMultiple(a, b, r)
    ensures forall l :: k <= l < r ==> !CommonMultiple(a, b, l)
    decreases a * b - k
  {
    MultipleMod(a, b);
    MultipleMod(b, a);
    if CommonMultiple(a, b, k) then k else LcmFrom(a, b, k + 1)
  }

  /** `np.lcm` of two positive integers: their least positive common multiple. */
  function Lcm(a: nat, b: nat): (r: nat)
    requires a > 0 && b > 0
    ensures CommonMultiple(a, b, r)
    ensures forall l :: 0 < l < r ==> !CommonMultiple(a, b, l)
  {
    LcmFrom(a, b, 1)
  }

  /** A multiple of a multiple of `c` is a multiple of `c`. */
  lemma MultipleTransitive(c: nat, x: nat, y: nat)
    requires c > 0 && x > 0 && x % c == 0 && y % x == 0
    ensures y % c == 0
  {
    var p, q := y / x, x / c;
    assert y == p * x;
    assert x == q * c;
    assert y == c * (p * q);
    MultipleMod(c, p * q);
  }

  /** `np.lcm.reduce(cardinalities)`: a positive multiple of every cardinality. */
  function LcmAll(cs: seq<int>): (r: nat)
    requires forall i :: 0 <= i < |cs| ==> cs[i] > 0
    ensures r > 0 && forall i :: 0 <= i < |cs| ==> r % cs[i] == 0
  {
    if |cs| == 0 then 1
    else
      var init := LcmAll(cs[..|cs| - 1]);
      var r := Lcm(init, cs[|cs| - 1]);
      assert forall i :: 0 <= i < |cs| - 1 ==> r % cs[i] == 0 by {
        forall i | 0 <= i < |cs| - 1 ensures r % cs[i] == 0 {
          assert cs[..|cs| - 1][i] == cs[i];
          MultipleTransitive(cs[i], init, r);
        }
      }
      r
  }

  /** The weight `scale / cardinality` of every particle. */
  function Weights(m: seq<seq<int>>, scale: nat): (w: seq<real>)
    requires PositiveRows(m)
    ensures |w| == |m|
    ensures scale > 0 ==> forall i :: 0 <= i < |w| ==> w[i] > 0.0
  {
    seq(|m|, i requires 0 <= i < |m| => (scale as real) / (RowSum(m[i]) as real))
  }

  /** The column `j` total of the weighted particles of the rows listed in `idx` (repeats count twice). */
  function ColumnTotal(m: seq<seq<int>>, w: seq<real>, idx: seq<int>, j: nat): real
    requires Binary(m) && |w| == |m| && InRange(idx, |m|) && j < |m|
  {
    if |idx| == 0 then 0.0
    else w[idx[0]] * (m[idx[0]][j] as real) + ColumnTotal(m, w, idx[1..], j)
  }

  /** `np.sum(particle_sets[idx], axis=0)`. */
  function Totals(m: seq<seq<int>>, w: seq<real>, idx: seq<int>): (f: seq<real>)
    requires Binary(m) && |w| == |m| && InRange(idx, |m|)
    ensures |f| == |m|
  {
    seq(|m|, j requires 0 <= j < |m| => ColumnTotal(m, w, idx, j))
  }

  /** The per-column dissimilarity `|f - s| / (f + s)`. */
  function Terms(f: seq<real>, s: seq<real>): (t: seq<real>)
    requires |f| == |s| && forall j :: 0 <= j < |f| ==> f[j] + s[j] != 0.0
    ensures |t| == |f|
  {
    seq(|f|, j requires 0 <= j < |f| => Abs(f[j] - s[j]) / (f[j] + s[j]))
  }

  function Abs(x: real): real
  {
    if x < 0.0 then -x else x
  }

  /**
   * The averaged per-column dissimilarity of two particle totals; `None`
   * (NaN) when there are no columns or some column is empty on both sides
   * (0 / 0).
   */
  function Dissimilarity(f: seq<real>, s: seq<real>): (r: Option<real>)
    requires |f| == |s|
    ensures r.Some? <==> |f| > 0 && forall j :: 0 <= j < |f| ==> f[j] + s[j] != 0.0
  {
    if |f| == 0 || exists j :: 0 <= j < |f| && f[j] + s[j] == 0.0 then None
    else Some(Sum(Terms(f, s)) / (|f| as real))
  }

  /**
   * `_get_nnps_distance`: particles weighted by lcm / cardinality, summed
   * per index set, and compared column by column. A zero cardinality makes
   * the lcm 0 and every weight NaN or 0, so every column is NaN.
   */
  function NnpsDistance(m: seq<seq<int>>, first: seq<int>, second: seq<int>): Option<real>
    requires Binary(m) && InRange(first, |m|) && InRange(second, |m|)
  {
    if |m| == 0 || !PositiveRows(m) then None
    else
      var w := Weights(m, LcmAll(Cardinalities(m)));
      Dissimilarity(Totals(m, w, first), Totals(m, w, second))
  }

  // ---------------------------------------------------------------------
  // Properties of the distance
  // ---------------------------------------------------------------------

  /** Every vector entry multiplied by `k`. */
  function Scale(f: seq<real>, k: real): (r: seq<real>)
    ensures |r| == |f| && forall j :: 0 <= j < |f| ==> r[j] == k * f[j]
  {
    seq(|f|, j requires 0 <= j < |f| => k * f[j])
  }

  /** Swapping the two sides leaves the dissimilarity unchanged. */
  lemma DissimilaritySymmetric(f: seq<real>, s: seq<real>)
    requires |f| == |s|
    ensures Dissimilarity(f, s) == Dissimilarity(s, f)
  {
    if Dissimilarity(f, s).Some? {
      assert Terms(f, s) == Terms(s, f) by {
        forall j | 0 <= j < |f| ensures Terms(f, s)[j] == Terms(s, f)[j] {
          assert Abs(f[j] - s[j]) == Abs(s[j] - f[j]);
        }
      }
    }
  }

  /** A side compared with itself has dissimilarity 0 wherever it is defined. */
  lemma DissimilaritySelf(f: seq<real>)
    ensures Dissimilarity(f, f) == None || Dissimilarity(f, f) == Some(0.0)
  {
    if Dissimilarity(f, f).Some? {
      SumZero(Terms(f, f));
    }
  }

  lemma TermBounds(a: real, b: real)
    requires a >= 0.0 && b >= 0.0 && a + b != 0.0
    ensures 0.0 <= Abs(a - b) / (a + b) <= 1.0
  {
    assert Abs(a - b) <= a + b;
  }

  lemma QuotientAtMostOne(x: real, n: real)
    requires 0.0 <= x <= n && n > 0.0
    ensures 0.0 <= x / n <= 1.0
  {
  }

  /** On non-negative totals the dissimilarity is a proportion. */
  lemma DissimilarityBounds(f: seq<real>, s: seq<real>)
    requires |f| == |s|
    requires forall j :: 0 <= j < |f| ==> f[j] >= 0.0 && s[j] >= 0.0
    ensures Dissimilarity(f, s).Some? ==> 0.0 <= Dissimilarity(f, s).value <= 1.0
  {
    if Dissimilarity(f, s).Some? {
      var t := Terms(f, s);
      forall j | 0 <= j < |t| ensures 0.0 <= t[j] <= 1.0 {
        TermBounds(f[j], s[j]);
      }
      SumNonNegative(t);
      SumAtMost(t, 1.0);
      QuotientAtMostOne(Sum(t), |f| as real);
    }
  }

  lemma TermScale(a: real, b: real, k: real)
    requires k > 0.0 && a + b != 0.0
    ensures k * a + k * b != 0.0
    ensures Abs(k * a - k * b) / (k * a + k * b) == Abs(a - b) / (a + b)
  {
    assert k * a - k * b == k * (a - b);
    assert k * a + k * b == k * (a + b);
    assert Abs(k * (a - b)) == k * Abs(a - b);
  }

  lemma ScaleKeepsEmptyColumns(f: seq<real>, s: seq<real>, k: real)
    requires |f| == |s| && k > 0.0
    ensures var f', s' := Scale(f, k), Scale(s, k);
      forall j :: 0 <= j < |f| ==> (f'[j] + s'[j] == 0.0 <==> f[j] + s[j] == 0.0)
  {
    var f', s' := Scale(f, k), Scale(s, k);
    forall j | 0 <= j < |f| ensures f'[j] + s'[j] == 0.0 <==> f[j] + s[j] == 0.0 {
      assert f'[j] + s'[j] == k * (f[j] + s[j]);
    }
  }

  lemma ScaleKeepsTerms(f: seq<real>, s: seq<real>, k: real)
    requires |f| == |s| && k > 0.0
    requires forall j :: 0 <= j < |f| ==> f[j] + s[j] != 0.0
    requires var f', s' := Scale(f, k), Scale(s, k);
      forall j :: 0 <= j < |f| ==> f'[j] + s'[j] != 0.0
    ensures Terms(Scale(f, k), Scale(s, k)) == Terms(f, s)
  {
    var f', s' := Scale(f, k), Scale(s, k);
    var t', t := Terms(f', s'), Terms(f, s);
    forall j | 0 <= j < |f| ensures t'[j] == t[j] {
      assert t'[j] == Abs(k * f[j] - k * s[j]) / (k * f[j] + k * s[j]);
      TermScale(f[j], s[j], k);
    }
    assert t' == t;
  }

  /** Scaling both sides by the same positive factor changes nothing. */
  lemma DissimilarityScale(f: seq<real>, s: seq<real>, k: real)
    requires |f| == |s| && k > 0.0
    ensures Dissimilarity(Scale(f, k), Scale(s, k)) == Dissimilarity(f, s)
  {
    ScaleKeepsEmptyColumns(f, s, k);
    if Dissimilarity(f, s).Some? {
      ScaleKeepsTerms(f, s, k);
    }
  }

  /** Column totals are linear in the weights: weights `k` times others give totals `k` times theirs. */
  lemma {:induction false} ColumnTotalLinear(m: seq<seq<int>>, w: seq<real>, v: seq<real>, k: real, idx: seq<int>, j: nat)
    requires Binary(m) && |w| == |m| && |v| == |m| && InRange(idx, |m|) && j < |m|
    requires forall i :: 0 <= i < |m| ==> w[i] == k * v[i]
    ensures ColumnTotal(m, w, idx, j) == k * ColumnTotal(m, v, idx, j)
  {
    if |idx| > 0 {
      ColumnTotalLinear(m, w, v, k, idx[1..], j);
      var x := m[idx[0]][j] as real;
      assert w[idx[0]] * x == k * (v[idx[0]] * x);
      Distribute(k, v[idx[0]] * x, ColumnTotal(m, v, idx[1..], j));
    }
  }

  lemma Distribute(k: real, a: real, b: real)
    ensures k * a + k * b == k * (a + b)
  {
  }

  /** The weights for a common multiple `scale` are `scale` times the unit weights `1 / cardinality`. */
  lemma ColumnTotalScale(m: seq<seq<int>>, scale: nat, idx: seq<int>, j: nat)
    requires Binary(m) && PositiveRows(m) && InRange(idx, |m|) && j < |m|
    ensures ColumnTotal(m, Weights(m, scale), idx, j) == (scale as real) * ColumnTotal(m, Weights(m, 1), idx, j)
  {
    var ws, w1 := Weights(m, scale), Weights(m, 1);
    forall i | 0 <= i < |m| ensures ws[i] == (scale as real) * w1[i] {
      ScaledWeight(scale as real, RowSum(m[i]) as real);
    }
    ColumnTotalLinear(m, ws, w1, scale as real, idx, j);
  }

  lemma ScaledWeight(k: real, c: real)
    requires c > 0.0
    ensures k / c == k * (1.0 / c)
  {
  }

  lemma TotalsScale(m: seq<seq<int>>, scale: nat, idx: seq<int>)
    requires Binary(m) && PositiveRows(m) && InRange(idx, |m|)
    ensures Totals(m, Weights(m, scale), idx) == Scale(Totals(m, Weights(m, 1), idx), scale as real)
  {
    var scaled, unit := Totals(m, Weights(m, scale), idx), Totals(m, Weights(m, 1), idx);
    var r := Scale(unit, scale as real);
    forall j | 0 <= j < |m| ensures scaled[j] == r[j] {
      ColumnTotalScale(m, scale, idx, j);
    }
    assert scaled == r;
  }

  /**
   * The lcm only rescales every column total, so the distance is the one
   * computed with the unit weights `1 / cardinality`.
   */
  lemma NnpsDistanceUnitWeights(m: seq<seq<int>>, first: seq<int>, second: seq<int>)
    requires Binary(m) && InRange(first, |m|) && InRange(second, |m|)
    requires |m| > 0 && PositiveRows(m)
    ensures NnpsDistance(m, first, second) ==
      Dissimilarity(Totals(m, Weights(m, 1), first), Totals(m, Weights(m, 1), second))
  {
    var scale := LcmAll(Cardinalities(m));
    TotalsScale(m, scale, first);
    TotalsScale(m, scale, second);
    DissimilarityScale(Totals(m, Weights(m, 1), first), Totals(m, Weights(m, 1), second), scale as real);
  }

  /** Row `j` of some particle listed in `idx` marks column `j`. */
  predicate Marks(m: seq<seq<int>>, idx: seq<int>, j: nat)
    requires Binary(m) && InRange(idx, |m|) && j < |m|
  {
    exists t :: 0 <= t < |idx| && m[idx[t]][j] == 1
  }

  /** With positive weights a column total is non-negative, and positive iff some listed particle marks the column. */
  lemma {:induction false} ColumnTotalSign(m: seq<seq<int>>, w: seq<real>, idx: seq<int>, j: nat)
    requires Binary(m) && |w| == |m| && InRange(idx, |m|) && j < |m|
    requires forall i :: 0 <= i < |w| ==> w[i] > 0.0
    ensures ColumnTotal(m, w, idx, j) >= 0.0
    ensures ColumnTotal(m, w, idx, j) > 0.0 <==> Marks(m, idx, j)
  {
    if |idx| > 0 {
      ColumnTotalSign(m, w, idx[1..], j);
      if Marks(m, idx[1..], j) {
        var t :| 0 <= t < |idx[1..]| && m[idx[1..][t]][j] == 1;
        assert m[idx[t + 1]][j] == 1;
      }
      if Marks(m, idx, j) && m[idx[0]][j] != 1 {
        var t :| 0 <= t < |idx| && m[idx[t]][j] == 1;
        assert idx[1..][t - 1] == idx[t];
      }
    }
  }

  /** The column totals of one index set, weighted by the lcm. */
  function LcmTotals(m: seq<seq<int>>, idx: seq<int>): (f: seq<real>)
    requires Binary(m) && PositiveRows(m) && InRange(idx, |m|)
    ensures |f| == |m|
    ensures forall j :: 0 <= j < |m| ==> f[j] >= 0.0 && (f[j] > 0.0 <==> Marks(m, idx, j))
  {
    var w := Weights(m, LcmAll(Cardinalities(m)));
    forall j | 0 <= j < |m| ensures ColumnTotal(m, w, idx, j) >= 0.0 && (ColumnTotal(m, w, idx, j) > 0.0 <==> Marks(m, idx, j)) {
      ColumnTotalSign(m, w, idx, j);
    }
    Totals(m, w, idx)
  }

  /**
   * The distance is a number (not NaN) exactly when the matrix is
   * non-empty, every particle is non-empty and every column is marked by a
   * particle of one of the two index sets; it then lies in [0, 1].
   */
  lemma NnpsDistanceDefined(m: seq<seq<int>>, first: seq<int>, second: seq<int>)
    requires Binary(m) && InRange(first, |m|) && InRange(second, |m|)
    ensures NnpsDistance(m, first, second).Some? <==>
      |m| > 0 && PositiveRows(m) && forall j :: 0 <= j < |m| ==> Marks(m, first, j) || Marks(m, second, j)
    ensures NnpsDistance(m, first, second).Some? ==> 0.0 <= NnpsDistance(m, first, second).value <= 1.0
  {
    if |m| > 0 && PositiveRows(m) {
      var f, s := LcmTotals(m, first), LcmTotals(m, second);
      assert NnpsDistance(m, first, second) == Dissimilarity(f, s);
      DissimilarityBounds(f, s);
    }
  }

  /** Swapping the two index sets leaves the distance unchanged. */
  lemma NnpsDistanceSymmetric(m: seq<seq<int>>, first: seq<int>, second: seq<int>)
    requires Binary(m) && InRange(first, |m|) && InRange(second, |m|)
    ensures NnpsDistance(m, first, second) == NnpsDistance(m, second, first)
  {
    if |m| > 0 && PositiveRows(m) {
      var w := Weights(m, LcmAll(Cardinalities(m)));
      DissimilaritySymmetric(Totals(m, w, first), Totals(m, w, second));
    }
  }

  /** An index set compared with itself is at distance 0 (or NaN). */
  lemma NnpsDistanceSameSets(m: seq<seq<int>>, idx: seq<int>)
    requires Binary(m) && InRange(idx, |m|)
    ensures NnpsDistance(m, idx, idx) == None || NnpsDistance(m, idx, idx) == Some(0.0)
  {
    if |m| > 0 && PositiveRows(m) {
      DissimilaritySelf(Totals(m, Weights(m, LcmAll(Cardinalities(m))), idx));
    }
  }

  lemma DividesExactly(l: nat, c: int)
    requires c > 0 && l % c == 0
    ensures (l as real) / (c as real) == ((l / c) as real)
  {
    var q := l / c;
    assert l == q * c;
    assert (l as real) == (q as real) * (c as real);
  }

  /** The scaled row of particle `i`, `particle_sets[i]`. */
  function WeightedRow(w: real, row: seq<int>): (r: seq<real>)
    ensures |r| == |row|
  {
    seq(|row|, j requires 0 <= j < |row| => w * (row[j] as real))
  }

  lemma {:induction false} WeightedRowSum(w: real, row: seq<int>)
    ensures Sum(WeightedRow(w, row)) == w * (RowSum(row) as real)
  {
    if |row| > 0 {
      WeightedRowSum(w, row[1..]);
      var r, tail := WeightedRow(w, row), WeightedRow(w, row[1..]);
      assert r[1..] == tail by {
        forall j | 0 <= j < |tail| ensures r[1..][j] == tail[j] {
          assert row[1..][j] == row[j + 1];
        }
      }
      var x, rest := row[0] as real, RowSum(row[1..]) as real;
      assert Sum(r) == w * x + Sum(tail);
      assert RowSum(row) as real == x + rest;
      Distribute(w, x, rest);
    }
  }

  /**
   * Every lcm weight is an integer, and every weighted particle sums to
   * the lcm.
   */
  lemma LcmWeights(m: seq<seq<int>>, i: nat)
    requires PositiveRows(m) && i < |m|
    ensures var l := LcmAll(Cardinalities(m));
      && Weights(m, l)[i] == ((l / RowSum(m[i])) as real)
      && Sum(WeightedRow(Weights(m, l)[i], m[i])) == l as real
  {
    var l := LcmAll(Cardinalities(m));
    var c := RowSum(m[i]);
    LcmDivides(m, i);
    LcmWeightRow(l, m[i], Weights(m, l)[i]);
  }

  lemma LcmWeightRow(l: nat, row: seq<int>, w: real)
    requires RowSum(row) > 0 && l % RowSum(row) == 0 && w == (l as real) / (RowSum(row) as real)
    ensures w == ((l / RowSum(row)) as real) && Sum(WeightedRow(w, row)) == l as real
  {
    WeightOf(l, RowSum(row), w);
    WeightedRowTotal(w, row, l as real);
  }

  lemma WeightedRowTotal(w: real, row: seq<int>, total: real)
    requires w * (RowSum(row) as real) == total
    ensures Sum(WeightedRow(w, row)) == total
  {
    WeightedRowSum(w, row);
  }

  lemma LcmDivides(m: seq<seq<int>>, i: nat)
    requires PositiveRows(m) && i < |m|
    ensures RowSum(m[i]) > 0 && LcmAll(Cardinalities(m)) % RowSum(m[i]) == 0
    ensures Weights(m, LcmAll(Cardinalities(m)))[i] == (LcmAll(Cardinalities(m)) as real) / (RowSum(m[i]) as real)
  {
    assert Cardinalities(m)[i] == RowSum(m[i]);
  }

  lemma WeightOf(l: nat, c: int, w: real)
    requires c > 0 && l % c == 0 && w == (l as real) / (c as real)
    ensures w == ((l / c) as real) && w * (c as real) == l as real
  {
    DividesExactly(l, c);
    QuotientTimesDivisor(l as real, c as real);
  }

  lemma QuotientTimesDivisor(a: real, b: real)
    requires b != 0.0
    ensures (a / b) * b == a
  {
  }

  /** The particle matrix of the four-point example of Liu et al. */
  const PaperMatrix: seq<seq<int>> := [[1, 1, 0, 0], [1, 1, 1, 0], [0, 1, 1, 1], [0, 0, 1, 1]]

  lemma PaperWeights()
    ensures Binary(PaperMatrix) && PositiveRows(PaperMatrix)
    ensures Weights(PaperMatrix, 1) == [1.0 / 2.0, 1.0 / 3.0, 1.0 / 3.0, 1.0 / 2.0]
  {
    var m := PaperMatrix;
    assert RowSum(m[0]) == 2 && RowSum(m[1]) == 3 && RowSum(m[2]) == 3 && RowSum(m[3]) == 2;
  }

  lemma ColumnTotalPair(m: seq<seq<int>>, w: seq<real>, a: int, b: int, j: nat)
    requires Binary(m) && |w| == |m| && 0 <= a < |m| && 0 <= b < |m| && j < |m|
    ensures ColumnTotal(m, w, [a, b], j) == w[a] * (m[a][j] as real) + w[b] * (m[b][j] as real)
  {
    assert [a, b][1..] == [b] && [b][1..] == [];
    assert ColumnTotal(m, w, [b], j) == w[b] * (m[b][j] as real) + ColumnTotal(m, w, [], j);
  }

  /** The totals of a two-particle index set, column by column. */
  lemma TotalsPair(m: seq<seq<int>>, w: seq<real>, a: int, b: int)
    requires Binary(m) && |w| == |m| && 0 <= a < |m| && 0 <= b < |m|
    ensures Totals(m, w, [a, b]) == seq(|m|, j requires 0 <= j < |m| => w[a] * (m[a][j] as real) + w[b] * (m[b][j] as real))
  {
    var t := Totals(m, w, [a, b]);
    forall j | 0 <= j < |m| ensures t[j] == w[a] * (m[a][j] as real) + w[b] * (m[b][j] as real) {
      ColumnTotalPair(m, w, a, b, j);
    }
  }

  lemma PaperTotals()
    requires Binary(PaperMatrix) && PositiveRows(PaperMatrix)
    requires Weights(PaperMatrix, 1) == [1.0 / 2.0, 1.0 / 3.0, 1.0 / 3.0, 1.0 / 2.0]
    ensures Totals(PaperMatrix, Weights(PaperMatrix, 1), [0, 1]) == [5.0 / 6.0, 5.0 / 6.0, 1.0 / 3.0, 0.0]
    ensures Totals(PaperMatrix, Weights(PaperMatrix, 1), [2, 3]) == [0.0, 1.0 / 3.0, 5.0 / 6.0, 5.0 / 6.0]
  {
    TotalsPair(PaperMatrix, Weights(PaperMatrix, 1), 0, 1);
    TotalsPair(PaperMatrix, Weights(PaperMatrix, 1), 2, 3);
  }

  lemma PaperTerms()
    ensures var f: seq<real>, s: seq<real> := [5.0 / 6.0, 5.0 / 6.0, 1.0 / 3.0, 0.0], [0.0, 1.0 / 3.0, 5.0 / 6.0, 5.0 / 6.0];
      Dissimilarity(f, s) == Some(5.0 / 7.0)
  {
    var f: seq<real>, s: seq<real> := [5.0 / 6.0, 5.0 / 6.0, 1.0 / 3.0, 0.0], [0.0, 1.0 / 3.0, 5.0 / 6.0, 5.0 / 6.0];
    var t := Terms(f, s);
    assert t[0] == 1.0 && t[1] == 3.0 / 7.0 && t[2] == 3.0 / 7.0 && t[3] == 1.0;
    SumOfFour(t);
  }

  lemma SumOfFour(t: seq<real>)
    requires |t| == 4
    ensures Sum(t) == t[0] + t[1] + t[2] + t[3]
  {
    var t1, t2, t3 := t[1..], t[2..], t[3..];
    assert t1[1..] == t2 && t2[1..] == t3 && t3[1..] == [];
    assert Sum(t3) == t[3];
    assert Sum(t2) == t[2] + t[3];
    assert Sum(t1) == t[1] + t[2] + t[3];
  }

  /** The four-point example of Liu et al.: two particles per window, distance 5/7. */
  lemma PaperExample()
    ensures NnpsDistance(PaperMatrix, [0, 1], [2, 3]) == Some(5.0 / 7.0)
  {
    PaperWeights();
    PaperTotals();
    NnpsDistanceUnitWeights(PaperMatrix, [0, 1], [2, 3]);
    PaperTerms();
  }

  // ---------------------------------------------------------------------
  // The permutation test and the detector
  // ---------------------------------------------------------------------

  datatype NndviConfig = NndviConfig(nSamples: nat, kNeighbors: nat, nPermutations: nat, significanceLevel: real)

  /**
   * The foreign routines: `NearestNeighbors(n_neighbors).kneighbors(data)`
   * (the neighbour table of the points fitted), the generator's shuffles,
   * `np.std`, and `norm.ppf(q, loc, scale)` (`None` for NaN).
   */
  datatype NndviOracles = NndviOracles(
    kneighbors: (seq<Vector>, nat) -> seq<seq<int>>,
    shuffle: Shuffle,
    std: seq<real> -> real,
    normPpf: (real, real, real) -> Option<real>)

  /** The two windows and the number of shuffles the generator has produced. */
  datatype NndviState = NndviState(reference: seq<Vector>, sliding: seq<Vector>, draws: nat)

  const Fresh: NndviState := NndviState([], [], 0)

  /** The reference window fills alongside the sliding window and is full once it stops filling. */
  predicate Synced(c: NndviConfig, s: NndviState)
  {
    || (|s.reference| < c.nSamples && s.reference == s.sliding)
    || (|s.reference| == c.nSamples && |s.sliding| == c.nSamples)
  }

  /** A drift decision and the generator's draw count after it. */
  datatype Detection = Detection(drift: Result<bool, DetectorError>, draws: nat)

  /** The distances of the permuted index sets of draws `draws, ..., draws + count - 1`. */
  function PermutedDistances(m: seq<seq<int>>, shuffle: Shuffle, first: seq<int>, second: seq<int>, n: nat, draws: nat, count: nat): (ds: seq<Option<real>>)
    requires Binary(m) && InRange(first + second, |m|)
    ensures |ds| == count
  {
    seq(count, k requires 0 <= k < count => PermutedDistance(m, shuffle, first, second, n, draws + k))
  }

  /** The distance between the two halves of one shuffle of the index sets. */
  function PermutedDistance(m: seq<seq<int>>, shuffle: Shuffle, first: seq<int>, second: seq<int>, n: nat, draw: nat): Option<real>
    requires Binary(m) && InRange(first + second, |m|)
  {
    var p := GetPermutation(shuffle, draw, first, second, n);
    PermutationInRange(shuffle, draw, first, second, n, |m|);
    NnpsDistance(m, p.0, p.1)
  }

  lemma PermutedDistancesStep(m: seq<seq<int>>, shuffle: Shuffle, first: seq<int>, second: seq<int>, n: nat, draws: nat, count: nat)
    requires Binary(m) && InRange(first + second, |m|)
    ensures PermutedDistances(m, shuffle, first, second, n, draws, count + 1)
      == PermutedDistances(m, shuffle, first, second, n, draws, count) + [PermutedDistance(m, shuffle, first, second, n, draws + count)]
  {
    var a := PermutedDistances(m, shuffle, first, second, n, draws, count + 1);
    var b := PermutedDistances(m, shuffle, first, second, n, draws, count) + [PermutedDistance(m, shuffle, first, second, n, draws + count)];
    forall k | 0 <= k < count + 1 ensures a[k] == b[k] {
    }
    assert a == b;
  }

  /** One more shuffle appends the distance between the halves of shuffle number `draws + count`. */
  lemma PermutedDistancesNext(m: seq<seq<int>>, shuffle: Shuffle, first: seq<int>, second: seq<int>, n: nat, draws: nat, count: nat,
                               draw: nat, ds: seq<Option<real>>)
    requires Binary(m) && InRange(first + second, |m|)
    requires draw == draws + count && ds == PermutedDistances(m, shuffle, first, second, n, draws, count)
    ensures var p := GetPermutation(shuffle, draw, first, second, n);
      && InRange(p.0, |m|) && InRange(p.1, |m|)
      && PermutedDistances(m, shuffle, first, second, n, draws, count + 1) == ds + [NnpsDistance(m, p.0, p.1)]
  {
    PermutedDistancesStep(m, shuffle, first, second, n, draws, count);
    PermutedDistanceIs(m, shuffle, first, second, n, draw);
  }

  lemma PermutedDistanceIs(m: seq<seq<int>>, shuffle: Shuffle, first: seq<int>, second: seq<int>, n: nat, draw: nat)
    requires Binary(m) && InRange(first + second, |m|)
    ensures var p := GetPermutation(shuffle, draw, first, second, n);
      InRange(p.0, |m|) && InRange(p.1, |m|) && PermutedDistance(m, shuffle, first, second, n, draw) == NnpsDistance(m, p.0, p.1)
  {
    PermutationInRange(shuffle, draw, first, second, n, |m|);
  }

  /** The values of a sequence with no NaN in it. */
  function Values(ds: seq<Option<real>>): (xs: seq<real>)
    requires forall k :: 0 <= k < |ds| ==> ds[k].Some?
    ensures |xs| == |ds| && forall k :: 0 <= k < |ds| ==> xs[k] == ds[k].value
  {
    seq(|ds|, k requires 0 <= k < |ds| => ds[k].value)
  }

  /**
   * `norm.ppf(1 - significance_level, mean, std)` of the permuted
   * distances: NaN when there are none or one of them is NaN.
   */
  function Threshold(c: NndviConfig, o: NndviOracles, ds: seq<Option<real>>): (t: Option<real>)
    ensures t.Some? ==> |ds| > 0 && forall k :: 0 <= k < |ds| ==> ds[k].Some?
  {
    if |ds| == 0 || exists k :: 0 <= k < |ds| && ds[k].None? then None
    else
      var xs := Values(ds);
      o.normPpf(1.0 - c.significanceLevel, Mean(xs), o.std(xs))
  }

  /** `distance > threshold`, which is false when either side is NaN. */
  predicate Exceeds(distance: Option<real>, threshold: Option<real>)
  {
    distance.Some? && threshold.Some? && distance.value > threshold.value
  }

  /**
   * `_detect_drift` on the concatenated windows: fitting more neighbours
   * than points raises, and so does a neighbour table that does not match
   * the data; otherwise the distance between the two windows is compared
   * with the threshold drawn from `n_permutations` shuffles.
   */
  function Detect(c: NndviConfig, o: NndviOracles, reference: seq<Vector>, sliding: seq<Vector>, draws: nat): (d: Detection)
    requires |reference| >= c.nSamples
    ensures d.drift.Success? <==>
      c.kNeighbors + 1 <= |reference + sliding| && Neighbourly(o.kneighbors(reference + sliding, c.kNeighbors + 1), |reference + sliding|)
    ensures d.draws == if d.drift.Success? then draws + c.nPermutations else draws
    ensures d.drift.Failure? ==> d.drift.error == ValueError
  {
    var data := reference + sliding;
    if c.kNeighbors + 1 > |data| then Detection(Failure(ValueError), draws)
    else
      var neighbours := o.kneighbors(data, c.kNeighbors + 1);
      if !Neighbourly(neighbours, |data|) then Detection(Failure(ValueError), draws)
      else Detection(Success(Decide(c, o, ParticleMatrix(neighbours), draws)), draws + c.nPermutations)
  }

  /** With enough points and a well-formed neighbour table, detection is the permutation test. */
  lemma DetectDecides(c: NndviConfig, o: NndviOracles, reference: seq<Vector>, sliding: seq<Vector>, draws: nat)
    requires |reference| >= c.nSamples && c.kNeighbors + 1 <= |reference + sliding|
    requires Neighbourly(o.kneighbors(reference + sliding, c.kNeighbors + 1), |reference + sliding|)
    ensures var m := ParticleMatrix(o.kneighbors(reference + sliding, c.kNeighbors + 1));
      |m| >= c.nSamples && Detect(c, o, reference, sliding, draws) == Detection(Success(Decide(c, o, m, draws)), draws + c.nPermutations)
  {
  }

  /** The permutation test on a particle matrix over data of at least `n_samples` points. */
  function Decide(c: NndviConfig, o: NndviOracles, m: seq<seq<int>>, draws: nat): (drift: bool)
    requires Binary(m) && |m| >= c.nSamples
    ensures drift ==> NnpsDistance(m, Indices(c.nSamples, |m|).0, Indices(c.nSamples, |m|).1).Some?
  {
    var idx := Indices(c.nSamples, |m|);
    assert InRange(idx.0 + idx.1, |m|);
    var distance := NnpsDistance(m, idx.0, idx.1);
    var ds := PermutedDistances(m, o.shuffle, idx.0, idx.1, c.nSamples, draws, c.nPermutations);
    Exceeds(distance, Threshold(c, o, ds))
  }

  /** `update(features)`. */
  function Step(c: NndviConfig, o: NndviOracles, s: NndviState, x: Vector): (r: Outcome<NndviState>)
    ensures r.state.sliding == Append(s.sliding, x, c.nSamples)
  {
    var sliding := Append(s.sliding, x, c.nSamples);
    if |s.reference| < c.nSamples then
      Outcome(NndviState(Append(s.reference, x, c.nSamples), sliding, s.draws), Success(false))
    else
      var d := Detect(c, o, s.reference, sliding, s.draws);
      Outcome(NndviState(if d.drift == Success(true) then sliding else s.reference, sliding, d.draws), d.drift)
  }

  /** The state after a stream of samples, from a fresh detector. */
  function Run(c: NndviConfig, o: NndviOracles, xs: seq<Vector>): NndviState
  {
    if |xs| == 0 then Fresh
    else Step(c, o, Run(c, o, xs[..|xs| - 1]), xs[|xs| - 1]).state
  }

  // ---------------------------------------------------------------------
  // Properties of the detector
  // ---------------------------------------------------------------------

  /**
   * The warm-up: while the reference window is short the sample goes into
   * both windows and no test runs; afterwards every update runs the test,
   * and a drift copies the sliding window into the reference window.
   */
  lemma StepDecision(c: NndviConfig, o: NndviOracles, s: NndviState, x: Vector)
    ensures var r := Step(c, o, s, x);
      var sliding := Append(s.sliding, x, c.nSamples);
      && (|s.reference| < c.nSamples ==>
          r == Outcome(NndviState(s.reference + [x], sliding, s.draws), Success(false)))
      && (|s.reference| >= c.nSamples ==>
          && r.drift == Detect(c, o, s.reference, sliding, s.draws).drift
          && r.state.draws == Detect(c, o, s.reference, sliding, s.draws).draws
          && r.state.reference == (if r.drift == Success(true) then sliding else s.reference))
  {
  }

  /** The two windows stay in step: equal while filling, both full afterwards. */
  lemma StepKeepsSynced(c: NndviConfig, o: NndviOracles, s: NndviState, x: Vector)
    requires Synced(c, s)
    ensures Synced(c, Step(c, o, s, x).state)
  {
  }

  /** Every test runs on two full windows, so the two index sets are disjoint and cover all `2 * n_samples` points. */
  lemma TestOnFullWindows(c: NndviConfig, s: NndviState, x: Vector)
    requires c.nSamples > 0 && Synced(c, s) && |s.reference| >= c.nSamples
    ensures var data := s.reference + Append(s.sliding, x, c.nSamples);
      var idx := Indices(c.nSamples, |data|);
      && |data| == 2 * c.nSamples
      && Elements(idx.0) * Elements(idx.1) == {}
      && |Elements(idx.0) + Elements(idx.1)| == |data|
  {
    var data := s.reference + Append(s.sliding, x, c.nSamples);
    IndicesDisjoint(c.nSamples, |data|);
    IndicesUnionSize(c.nSamples, |data|);
  }

  /** The sliding window always holds the latest `n_samples` samples. */
  lemma {:induction false} RunSliding(c: NndviConfig, o: NndviOracles, xs: seq<Vector>)
    ensures Run(c, o, xs).sliding == Last(xs, c.nSamples)
    ensures Synced(c, Run(c, o, xs))
  {
    if |xs| > 0 {
      var h := xs[..|xs| - 1];
      assert xs == h + [xs[|xs| - 1]];
      RunSliding(c, o, h);
      AppendKeepsLast(Run(c, o, h).sliding, h, xs[|xs| - 1], c.nSamples);
      StepKeepsSynced(c, o, Run(c, o, h), xs[|xs| - 1]);
    }
  }

  /** The first `n_samples` updates only fill both windows with the stream. */
  lemma {:induction false} RunWarmUp(c: NndviConfig, o: NndviOracles, xs: seq<Vector>)
    requires |xs| <= c.nSamples
    ensures Run(c, o, xs) == NndviState(xs, xs, 0)
  {
    if |xs| > 0 {
      var h := xs[..|xs| - 1];
      assert xs == h + [xs[|xs| - 1]];
      RunWarmUp(c, o, h);
    }
  }

  /** The update that brings the stream to position `t <= n_samples` reports no drift. */
  lemma WarmUpNoDrift(c: NndviConfig, o: NndviOracles, xs: seq<Vector>, x: Vector)
    requires |xs| < c.nSamples
    ensures Step(c, o, Run(c, o, xs), x).drift == Success(false)
  {
    RunWarmUp(c, o, xs);
  }

  // ---------------------------------------------------------------------
  // The detector object
  // ---------------------------------------------------------------------

  class NndviDetector {
    const config: NndviConfig
    const oracles: NndviOracles
    var reference: seq<Vector>
    var sliding: seq<Vector>
    var draws: nat

    ghost predicate Valid()
      reads this
    {
      Synced(config, State())
    }

    function State(): NndviState
      reads this
    {
      NndviState(reference, sliding, draws)
    }

    constructor (config: NndviConfig, oracles: NndviOracles)
      ensures Valid() && State() == Fresh
      ensures this.config == config && this.oracles == oracles
    {
      this.config := config;
      this.oracles := oracles;
      reference, sliding, draws := [], [], 0;
    }

    /** `update(features)`. */
    method Update(features: Vector) returns (drift: Result<bool, DetectorError>)
      requires Valid()
      modifies this
      ensures Valid()
      ensures Outcome(State(), drift) == Step(config, oracles, old(State()), features)
    {
      StepKeepsSynced(config, oracles, State(), features);
      sliding := Append(sliding, features, config.nSamples);
      if |reference| < config.nSamples {
        reference := Append(reference, features, config.nSamples);
        return Success(false);
      }
      drift := DetectDrift();
      if drift == Success(true) {
        reference := sliding;
      }
    }

    /** `_detect_drift`. */
    method DetectDrift() returns (drift: Result<bool, DetectorError>)
      requires |reference| >= config.nSamples
      modifies this
      ensures reference == old(reference) && sliding == old(sliding)
      ensures Detection(drift, draws) == Detect(config, oracles, reference, sliding, old(draws))
    {
      var data := reference + sliding;
      if config.kNeighbors + 1 > |data| {
        return Failure(ValueError);
      }
      var neighbours := oracles.kneighbors(data, config.kNeighbors + 1);
      if !Neighbourly(neighbours, |data|) {
        return Failure(ValueError);
      }
      var particles := GetParticleMatrix(neighbours);
      DetectDecides(config, oracles, reference, sliding, draws);
      var decision := PermutationTest(particles);
      drift := Success(decision);
    }

    /** The distance between the two windows against the threshold drawn from the shuffled distances. */
    method PermutationTest(particles: seq<seq<int>>) returns (drift: bool)
      requires Binary(particles) && |particles| >= config.nSamples
      modifies this
      ensures reference == old(reference) && sliding == old(sliding) && draws == old(draws) + config.nPermutations
      ensures drift == Decide(config, oracles, particles, old(draws))
    {
      var idx := Indices(config.nSamples, |particles|);
      assert InRange(idx.0 + idx.1, |particles|);
      var distance := NnpsDistance(particles, idx.0, idx.1);
      var distances := PermutationDistances(particles, idx.0, idx.1);
      var threshold := Threshold(config, oracles, distances);
      drift := distance.Some? && threshold.Some? && distance.value > threshold.value;
    }

    /** The loop of `_detect_drift` over `n_permutations` shuffles of the index sets. */
    method PermutationDistances(particles: seq<seq<int>>, first: seq<int>, second: seq<int>) returns (distances: seq<Option<real>>)
      requires Binary(particles) && InRange(first + second, |particles|)
      modifies this
      ensures reference == old(reference) && sliding == old(sliding) && draws == old(draws) + config.nPermutations
      ensures distances == PermutedDistances(particles, oracles.shuffle, first, second, config.nSamples, old(draws), config.nPermutations)
    {
      distances := [];
      var shuffle, n := oracles.shuffle, config.nSamples;
      ghost var start := draws;
      for k := 0 to config.nPermutations
        invariant reference == old(reference) && sliding == old(sliding) && draws == start + k
        invariant distances == PermutedDistances(particles, shuffle, first, second, n, start, k)
      {
        var draw := draws;
        PermutedDistancesNext(particles, shuffle, first, second, n, start, k, draw, distances);
        var p := GetPermutation(shuffle, draw, first, second, n);
        var d := NnpsDistance(particles, p.0, p.1);
        draws := draw + 1;
        distances := distances + [d];
      }
    }
  }
}
