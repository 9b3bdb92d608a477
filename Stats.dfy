/**
 * Sums and arithmetic means of sequences of reals, the two reductions the bot
 * uses (pandas' rolling mean and the mean of the per-article sentiment values).
 * Floating point is idealised as exact real arithmetic.
 */
module Stats {

  /** The sum of the elements of `s`. */
  function Sum(s: seq<real>): real
  {
    if s == [] then 0.0 else s[0] + Sum(s[1..])
  }

  /** The arithmetic mean of a non-empty sequence. */
  function Mean(s: seq<real>): real
    requires |s| > 0
  {
    Sum(s) / (|s| as real)
  }

  /** Summing a concatenation is adding the sums of its parts. */
  lemma {:induction false} SumAppend(a: seq<real>, b: seq<real>)
    ensures Sum(a + b) == Sum(a) + Sum(b)
    decreases |a|
  {
    if a == [] {
      assert a + b == b;
    } else {
      assert (a + b)[1..] == a[1..] + b;
      SumAppend(a[1..], b);
    }
  }

  /** A sum of `n` values each at least `lo` is at least `n * lo`. */
  lemma {:induction false} SumAtLeast(s: seq<real>, lo: real)
    requires forall i :: 0 <= i < |s| ==> lo <= s[i]
    ensures (|s| as real) * lo <= Sum(s)
    decreases |s|
  {
    if s != [] {
      SumAtLeast(s[1..], lo);
      assert (|s| as real) * lo == lo + (|s[1..]| as real) * lo;
    }
  }

  /** A sum of `n` values each at most `hi` is at most `n * hi`. */
  lemma {:induction false} SumAtMost(s: seq<real>, hi: real)
    requires forall i :: 0 <= i < |s| ==> s[i] <= hi
    ensures Sum(s) <= (|s| as real) * hi
    decreases |s|
  {
    if s != [] {
      SumAtMost(s[1..], hi);
      assert (|s| as real) * hi == hi + (|s[1..]| as real) * hi;
    }
  }

  /** The mean of values that are all at least `lo` is at least `lo`. */
  lemma MeanAtLeast(s: seq<real>, lo: real)
    requires |s| > 0
    requires forall i :: 0 <= i < |s| ==> lo <= s[i]
    ensures lo <= Mean(s)
  {
    SumAtLeast(s, lo);
    assert Mean(s) * (|s| as real) == Sum(s);
  }

  /** The mean of values that are all at most `hi` is at most `hi`. */
  lemma MeanAtMost(s: seq<real>, hi: real)
    requires |s| > 0
    requires forall i :: 0 <= i < |s| ==> s[i] <= hi
    ensures Mean(s) <= hi
  {
    SumAtMost(s, hi);
    assert Mean(s) * (|s| as real) == Sum(s);
  }

  /** A non-empty sequence whose values all lie in `[lo, hi]` has its mean in `[lo, hi]`. */
  lemma MeanBoundedBy(s: seq<real>, lo: real, hi: real)
    requires |s| > 0
    ensures (forall i :: 0 <= i < |s| ==> lo <= s[i] <= hi) ==> lo <= Mean(s) <= hi
  {
    if forall i :: 0 <= i < |s| ==> lo <= s[i] <= hi {
      MeanAtLeast(s, lo);
      MeanAtMost(s, hi);
    }
  }

  /** If `a` is below `b` element by element, its sum is strictly below. */
  lemma {:induction false} SumStrictlyBelow(a: seq<real>, b: seq<real>)
    requires |a| == |b| > 0
    requires forall i :: 0 <= i < |a| ==> a[i] < b[i]
    ensures Sum(a) < Sum(b)
    decreases |a|
  {
    if |a| > 1 {
      SumStrictlyBelow(a[1..], b[1..]);
    }
  }
}
