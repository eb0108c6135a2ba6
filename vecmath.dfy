/** Exact-real stand-ins for the f64 arithmetic of the vector kernels: the
    sums they accumulate and the windowed outputs they produce. Only lengths,
    indices and the order of the terms are modelled; rounding is not. */
module VecMath {

  /** The sum of a vector, added from the left as the kernels' loops do. */
  function Sum(s: seq<real>): real {
    if |s| == 0 then 0.0 else Sum(s[..|s| - 1]) + s[|s| - 1]
  }

  /** The sum of `a[j] * b[j]` over the indices of `a`, added from the left. */
  function Dot(a: seq<real>, b: seq<real>): real
    requires |a| <= |b|
  {
    if |a| == 0 then 0.0 else Dot(a[..|a| - 1], b) + a[|a| - 1] * b[|a| - 1]
  }

  /** The sum of squared differences `(a[j] - b[j])^2` over the indices of `a`. */
  function SqDist(a: seq<real>, b: seq<real>): real
    requires |a| <= |b|
  {
    if |a| == 0 then 0.0
    else SqDist(a[..|a| - 1], b) + (a[|a| - 1] - b[|a| - 1]) * (a[|a| - 1] - b[|a| - 1])
  }

  /** A kernel of `w` ones. */
  function Ones(w: nat): (r: seq<real>)
    ensures |r| == w
  {
    seq(w, _ => 1.0)
  }

  /** `out_len`: the number of full windows of width `k` in `n` samples. */
  function OutLen(n: nat, k: nat): nat {
    if n >= k then n - k + 1 else 0
  }

  /** Window `i` of width `k` lies inside the signal. */
  lemma WindowInBounds(n: nat, k: nat, i: nat, j: nat)
    requires i < OutLen(n, k) && j < k
    ensures i + j < n
  {
  }

  /** The valid-mode convolution: output `i` is the kernel laid over window `i`. */
  function Convolution(signal: seq<real>, kernel: seq<real>): (r: seq<real>)
    ensures |r| == OutLen(|signal|, |kernel|)
  {
    seq(OutLen(|signal|, |kernel|),
        i requires 0 <= i < OutLen(|signal|, |kernel|) => Dot(signal[i..i + |kernel|], kernel))
  }

  /** One mean per full window; a zero-width window has no defined mean and
      yields 0.0 (the f64 code divides 0.0 by 0.0 there). */
  function WindowMeans(signal: seq<real>, w: nat): (r: seq<real>)
    ensures |r| == OutLen(|signal|, w)
  {
    seq(OutLen(|signal|, w),
        i requires 0 <= i < OutLen(|signal|, w) => if w == 0 then 0.0 else Sum(signal[i..i + w]) / (w as real))
  }

  /** `diff`: one difference of neighbours per adjacent pair. */
  function Differences(s: seq<real>): (r: seq<real>)
    ensures |r| == if |s| > 0 then |s| - 1 else 0
  {
    seq(if |s| > 0 then |s| - 1 else 0, i requires 0 <= i < |s| - 1 => s[i + 1] - s[i])
  }

  /** `cumsum`: output `i` is the sum of the first `i + 1` samples. */
  function PrefixSums(s: seq<real>): (r: seq<real>)
    ensures |r| == |s|
  {
    seq(|s|, i requires 0 <= i < |s| => Sum(s[..i + 1]))
  }

  /** Laying a kernel of ones over a vector adds it up. */
  lemma {:induction false} DotOnes(x: seq<real>, ones: seq<real>)
    requires |x| <= |ones|
    requires forall j :: 0 <= j < |ones| ==> ones[j] == 1.0
    ensures Dot(x, ones) == Sum(x)
  {
    if |x| > 0 {
      DotOnes(x[..|x| - 1], ones);
    }
  }

  /** A moving average is a convolution with a kernel of ones, divided by the width. */
  lemma MeansAreConvolution(signal: seq<real>, w: nat, i: nat)
    requires w > 0 && i < OutLen(|signal|, w)
    ensures WindowMeans(signal, w)[i] == Convolution(signal, Ones(w))[i] / (w as real)
  {
    DotOnes(signal[i..i + w], Ones(w));
  }

  /** The dot product does not depend on the order of its arguments. */
  lemma {:induction false} DotSymmetric(a: seq<real>, b: seq<real>)
    requires |a| == |b|
    ensures Dot(a, b) == Dot(b, a)
  {
    if |a| > 0 {
      var n := |a| - 1;
      DotPrefix(a[..n], b);
      DotPrefix(b[..n], a);
      DotSymmetric(a[..n], b[..n]);
    }
  }

  /** `Dot` reads only as much of its second argument as the first is long. */
  lemma {:induction false} DotPrefix(a: seq<real>, b: seq<real>)
    requires |a| <= |b|
    ensures Dot(a, b) == Dot(a, b[..|a|])
  {
    if |a| > 0 {
      var n := |a| - 1;
      DotPrefix(a[..n], b);
      DotPrefix(a[..n], b[..|a|]);
      assert b[..|a|][..n] == b[..n];
    }
  }

  /** The squared distance does not depend on the order of the points. */
  lemma {:induction false} SqDistSymmetric(a: seq<real>, b: seq<real>)
    requires |a| == |b|
    ensures SqDist(a, b) == SqDist(b, a)
  {
    if |a| > 0 {
      var n := |a| - 1;
      SqDistPrefix(a[..n], b);
      SqDistPrefix(b[..n], a);
      SqDistSymmetric(a[..n], b[..n]);
    }
  }

  /** `SqDist` reads only as much of its second argument as the first is long. */
  lemma {:induction false} SqDistPrefix(a: seq<real>, b: seq<real>)
    requires |a| <= |b|
    ensures SqDist(a, b) == SqDist(a, b[..|a|])
  {
    if |a| > 0 {
      var n := |a| - 1;
      SqDistPrefix(a[..n], b);
      SqDistPrefix(a[..n], b[..|a|]);
      assert b[..|a|][..n] == b[..n];
    }
  }

  /** A squared distance is never negative, and is zero from a point to itself. */
  lemma {:induction false} SqDistNonNegative(a: seq<real>, b: seq<real>)
    requires |a| <= |b|
    ensures SqDist(a, b) >= 0.0
    ensures a == b[..|a|] ==> SqDist(a, b) == 0.0
  {
    if |a| > 0 {
      var n := |a| - 1;
      SqDistNonNegative(a[..n], b);
      if a == b[..|a|] {
        assert a[..n] == b[..n];
      }
    }
  }

  /** `diff` undoes `cumsum`: the differences of the running sums are the samples after the first. */
  lemma DiffOfCumsum(s: seq<real>)
    requires |s| > 0
    ensures Differences(PrefixSums(s)) == s[1..]
  {
    forall i | 0 <= i < |s| - 1
      ensures Differences(PrefixSums(s))[i] == s[1..][i]
    {
      assert s[..i + 2][..i + 1] == s[..i + 1];
    }
  }

  /** `cumsum` of `diff` telescopes: output `i` is `s[i + 1] - s[0]`. */
  lemma CumsumOfDiff(s: seq<real>, i: nat)
    requires i + 1 < |s|
    ensures PrefixSums(Differences(s))[i] == s[i + 1] - s[0]
  {
    Telescopes(s, i + 1);
  }

  /** The first `m` differences add up to `s[m] - s[0]`. */
  lemma {:induction false} Telescopes(s: seq<real>, m: nat)
    requires m < |s|
    ensures Sum(Differences(s)[..m]) == s[m] - s[0]
  {
    if m > 0 {
      Telescopes(s, m - 1);
      assert Differences(s)[..m][..m - 1] == Differences(s)[..m - 1];
    }
  }
}
