/**
 * The fixed-capacity FIFO buffer every detector builds on: Python's
 * `collections.deque(maxlen=cap)`. Appending to a full buffer evicts the
 * oldest element; a buffer of capacity 0 stays empty.
 */
module Window {

  /** `a` is a suffix of `b`: what remains of `b` after dropping a prefix. */
  ghost predicate IsSuffix<T>(a: seq<T>, b: seq<T>)
  {
    |a| <= |b| && a == b[|b| - |a|..]
  }

  /** A non-empty sequence is its front followed by its last element. */
  lemma SplitLast<T>(xs: seq<T>)
    requires |xs| > 0
    ensures xs == xs[..|xs| - 1] + [xs[|xs| - 1]]
  {
  }

  /** Moving the first element of `b` to the end of `a`, and appending `x`, keeps the concatenation. */
  lemma ShiftFirst<T>(a: seq<T>, b: seq<T>, x: T)
    requires |b| > 0
    ensures a + b + [x] == (a + [b[0]]) + (b[1..] + [x])
  {
    assert b == [b[0]] + b[1..];
  }

  /** The last `min(n, |s|)` elements of `s`, in order. */
  function Last<T>(s: seq<T>, n: nat): (r: seq<T>)
    ensures |r| == if |s| < n then |s| else n
    ensures IsSuffix(r, s)
  {
    if |s| <= n then s else s[|s| - n..]
  }

  /** `deque.append(x)` on a deque with `maxlen = cap`. */
  function Append<T>(w: seq<T>, x: T, cap: nat): (r: seq<T>)
    ensures |r| == if |w| + 1 <= cap then |w| + 1 else cap
    ensures |w| < cap ==> r == w + [x]
    ensures 0 < cap <= |w| ==> r[|r| - 1] == x && r[..|r| - 1] == w[|w| - cap + 1..]
    ensures cap == 0 ==> r == []
  {
    Last(w + [x], cap)
  }

  lemma IsSuffixTransitive<T>(a: seq<T>, b: seq<T>, c: seq<T>)
    requires IsSuffix(a, b) && IsSuffix(b, c)
    ensures IsSuffix(a, c)
  {
    assert c[|c| - |b|..][|b| - |a|..] == c[|c| - |a|..];
  }

  lemma IsSuffixExtend<T>(a: seq<T>, b: seq<T>, x: T)
    requires IsSuffix(a, b)
    ensures IsSuffix(a + [x], b + [x])
  {
    assert (b + [x])[|b| + 1 - (|a| + 1)..] == b[|b| - |a|..] + [x];
  }

  /** The window keeps exactly the last `cap` elements of what was appended. */
  lemma {:induction false} AppendKeepsLast<T>(w: seq<T>, h: seq<T>, x: T, cap: nat)
    requires w == Last(h, cap)
    ensures Append(w, x, cap) == Last(h + [x], cap)
  {
    var s := h + [x];
    if |h| <= cap {
      assert w == h;
    } else {
      assert w == h[|h| - cap..];
      if cap > 0 {
        assert Append(w, x, cap) == (w + [x])[|w| + 1 - cap..];
        assert (w + [x])[1..] == s[|s| - cap..];
      }
    }
  }

  /** Of two suffixes of one sequence, the shorter is a suffix of the longer. */
  lemma SuffixOfSuffix<T>(a: seq<T>, b: seq<T>, c: seq<T>)
    requires IsSuffix(a, c) && IsSuffix(b, c) && |a| <= |b|
    ensures IsSuffix(a, b)
  {
    assert c[|c| - |b|..][|b| - |a|..] == c[|c| - |a|..];
  }

  /** Appending the same element to two windows of one capacity keeps one a suffix of the other. */
  lemma AppendKeepsSuffix<T>(a: seq<T>, b: seq<T>, x: T, cap: nat)
    requires IsSuffix(a, b)
    ensures IsSuffix(Append(a, x, cap), Append(b, x, cap))
  {
    IsSuffixExtend(a, b, x);
    var ra, rb := Last(a + [x], cap), Last(b + [x], cap);
    IsSuffixTransitive(ra, a + [x], b + [x]);
    SuffixOfSuffix(ra, rb, b + [x]);
  }
}
