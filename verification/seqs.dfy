/** Sequence relations shared by the filtering operations. */
module Seqs {
  /** `xs` is `ys` with some elements left out, order kept. */
  predicate IsSubsequence<T(==)>(xs: seq<T>, ys: seq<T>)
    decreases |ys|
  {
    |xs| == 0 || (|ys| > 0 && (if xs[0] == ys[0] then IsSubsequence(xs[1..], ys[1..]) else IsSubsequence(xs, ys[1..])))
  }

  /** Every sequence is a subsequence of itself. */
  lemma {:induction false} SubsequenceRefl<T>(xs: seq<T>)
    ensures IsSubsequence(xs, xs)
    decreases |xs|
  {
    if |xs| > 0 {
      SubsequenceRefl(xs[1..]);
    }
  }

  /** Subsequences of two sequences concatenate to a subsequence of their concatenation. */
  lemma {:induction false} SubsequenceConcat<T>(a: seq<T>, b: seq<T>, c: seq<T>, d: seq<T>)
    requires IsSubsequence(a, b) && IsSubsequence(c, d)
    ensures IsSubsequence(a + c, b + d)
    decreases |b|
  {
    if |b| == 0 {
      assert |a| == 0;
      assert a + c == c && b + d == d;
    } else if |a| > 0 && a[0] == b[0] {
      SubsequenceConcat(a[1..], b[1..], c, d);
      assert (a + c)[1..] == a[1..] + c && (b + d)[1..] == b[1..] + d;
    } else {
      SubsequenceConcat(a, b[1..], c, d);
      assert (b + d)[1..] == b[1..] + d;
      if |a| > 0 {
        assert (a + c)[0] == a[0];
      } else {
        assert a + c == c;
        SubsequenceSkip(c, d, b);
      }
    }
  }

  /** A subsequence of `d` is one of `p + d` too. */
  lemma {:induction false} SubsequenceSkip<T>(c: seq<T>, d: seq<T>, p: seq<T>)
    requires IsSubsequence(c, d)
    ensures IsSubsequence(c, p + d)
    decreases |p|
  {
    if |p| > 0 {
      SubsequenceSkip(c, d, p[1..]);
      assert p + d == [p[0]] + (p[1..] + d);
      SubsequenceCons(c, p[1..] + d, p[0]);
    } else {
      assert p + d == d;
    }
  }

  /** Putting one element in front keeps a subsequence. */
  lemma {:induction false} SubsequenceCons<T>(x: seq<T>, y: seq<T>, e: T)
    requires IsSubsequence(x, y)
    ensures IsSubsequence(x, [e] + y)
    decreases |y|, 1
  {
    assert ([e] + y)[1..] == y;
    if |x| > 0 && x[0] == e {
      SubsequenceWeaken(x, y);
    }
  }

  /** Dropping the first element of a subsequence keeps it a subsequence. */
  lemma {:induction false} SubsequenceWeaken<T>(c: seq<T>, d: seq<T>)
    requires |c| > 0 && IsSubsequence(c, d)
    ensures IsSubsequence(c[1..], d)
    decreases |d|, 0
  {
    assert d == [d[0]] + d[1..];
    if c[0] != d[0] {
      SubsequenceWeaken(c, d[1..]);
    }
    SubsequenceCons(c[1..], d[1..], d[0]);
  }

  /** The elements of a subsequence are elements of the sequence. */
  lemma {:induction false} SubsequenceMembers<T>(xs: seq<T>, ys: seq<T>)
    requires IsSubsequence(xs, ys)
    ensures forall k :: 0 <= k < |xs| ==> xs[k] in ys
    decreases |ys|
  {
    if |xs| > 0 {
      if xs[0] == ys[0] {
        SubsequenceMembers(xs[1..], ys[1..]);
        assert forall k :: 1 <= k < |xs| ==> xs[k] == xs[1..][k - 1];
      } else {
        SubsequenceMembers(xs, ys[1..]);
      }
    }
  }
}
