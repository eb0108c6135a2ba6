/** The checked kernels of `rustify-stdlib` (`rustify-stdlib/src/lib.rs`):
    the same windowed loops as the extension kernels, but every ill-shaped
    input is turned into a `PyValueError`, modelled as `Err` with its message.
    The square root is a parameter: only its argument is modelled. */
module StdKernels {
  import opened Common
  import opened VecMath
  import Bpe

  const LengthMismatch := "length mismatch"
  const InvalidWindow := "invalid window"
  const ShortSignalWindow := "signal shorter than window"
  const InvalidKernel := "invalid kernel length"
  const ShortSignalKernel := "signal shorter than kernel"

  /** `euclidean`: the square root of the summed squared differences, or an
      error when the points have different dimensions. */
  function Euclidean(p1: seq<real>, p2: seq<real>, sqrt: real -> real): (r: Result<real>)
    ensures r.Err? <==> |p1| != |p2|
    ensures r.Err? ==> r.msg == LengthMismatch
  {
    if |p1| != |p2| then Err(LengthMismatch) else Ok(sqrt(SqDist(p1, p2)))
  }

  /** The distance is symmetric, and the root is taken of a non-negative sum
      that is zero from a point to itself. */
  lemma EuclideanSymmetric(p1: seq<real>, p2: seq<real>, sqrt: real -> real)
    ensures Euclidean(p1, p2, sqrt) == Euclidean(p2, p1, sqrt)
    ensures |p1| == |p2| ==> SqDist(p1, p2) >= 0.0
    ensures Euclidean(p1, p1, sqrt) == Ok(sqrt(0.0))
  {
    if |p1| == |p2| {
      SqDistSymmetric(p1, p2);
      SqDistNonNegative(p1, p2);
    }
    SqDistNonNegative(p1, p1);
  }

  /** `dot_product`: the length check, then the zipped sum of products. */
  method DotProduct(a: seq<real>, b: seq<real>) returns (r: Result<real>)
    ensures |a| != |b| ==> r == Err(LengthMismatch)
    ensures |a| == |b| ==> r == Ok(Dot(a, b))
  {
    if |a| != |b| {
      return Err(LengthMismatch);
    }
    var total := 0.0;
    for i := 0 to |a|
      invariant total == Dot(a[..i], b)
    {
      total := total + a[i] * b[i];
      assert a[..i + 1][..i] == a[..i];
    }
    assert a[..|a|] == a;
    r := Ok(total);
  }

  /** `moving_average`: a zero window is refused first, then a signal shorter
      than the window; otherwise one mean per full window. */
  method MovingAverage(signal: seq<real>, window: nat) returns (r: Result<seq<real>>)
    ensures window == 0 ==> r == Err(InvalidWindow)
    ensures window > 0 && |signal| < window ==> r == Err(ShortSignalWindow)
    ensures window > 0 && |signal| >= window ==>
      r == Ok(WindowMeans(signal, window)) && |r.value| == |signal| - window + 1
  {
    if window == 0 {
      return Err(InvalidWindow);
    }
    var n := |signal|;
    if n < window {
      return Err(ShortSignalWindow);
    }
    var result := new real[n - window + 1](_ => 0.0);
    for i := 0 to n - window + 1
      invariant forall p :: 0 <= p < i ==> result[p] == Sum(signal[p..p + window]) / (window as real)
    {
      var total := 0.0;
      for j := 0 to window
        invariant total == Sum(signal[i..i + j])
      {
        total := total + signal[i + j];
        assert signal[i..i + j + 1][..j] == signal[i..i + j];
      }
      result[i] := total / (window as real);
    }
    assert result[..] == WindowMeans(signal, window);
    r := Ok(result[..]);
  }

  /** `convolve1d`: an empty kernel is refused first, then a signal shorter
      than the kernel; otherwise the valid-mode convolution. */
  method Convolve1d(signal: seq<real>, kernel: seq<real>) returns (r: Result<seq<real>>)
    ensures |kernel| == 0 ==> r == Err(InvalidKernel)
    ensures |kernel| > 0 && |signal| < |kernel| ==> r == Err(ShortSignalKernel)
    ensures |kernel| > 0 && |signal| >= |kernel| ==>
      r == Ok(Convolution(signal, kernel)) && |r.value| == |signal| - |kernel| + 1
  {
    var n := |signal|;
    var k := |kernel|;
    if k == 0 {
      return Err(InvalidKernel);
    }
    if n < k {
      return Err(ShortSignalKernel);
    }
    var result := new real[n - k + 1](_ => 0.0);
    for i := 0 to n - k + 1
      invariant forall p :: 0 <= p < i ==> result[p] == Dot(signal[p..p + k], kernel)
    {
      var total := 0.0;
      for j := 0 to k
        invariant total == Dot(signal[i..i + j], kernel)
      {
        total := total + signal[i + j] * kernel[j];
        assert signal[i..i + j + 1][..j] == signal[i..i + j];
      }
      result[i] := total;
    }
    assert result[..] == Convolution(signal, kernel);
    r := Ok(result[..]);
  }

  /** `bpe_encode`: the text's UTF-8 bytes; the merges are not looked at. */
  function BpeEncode(text: string, merges: seq<(string, string)>): (r: Result<seq<int>>)
    ensures r.Ok? && |r.value| >= |text|
  {
    Ok(Bpe.Utf8(text))
  }

  /** The stub gives what the merging encoder gives with no merges, whatever
      merges it is passed. */
  lemma BpeEncodeIgnoresMerges(text: string, merges: seq<(string, string)>)
    ensures BpeEncode(text, merges) == Ok(Bpe.Encoded(Bpe.Utf8(text), Bpe.RankMap([])))
  {
    Bpe.EncodeNoMerges(text);
  }

  /** The unit test: "ab" encodes to `[97, 98]`. */
  lemma BpeEncodeAb()
    ensures BpeEncode("ab", []) == Ok([97, 98])
  {
    Bpe.Utf8Ascii("ab");
    assert 'a' as int == 97 && 'b' as int == 98;
    assert Bpe.Utf8("ab") == [97, 98];
  }

  /** Three numbers add up left to right. */
  lemma SumOfThree(a: real, b: real, c: real)
    ensures Sum([a, b, c]) == a + b + c
  {
    assert [a][..0] == [];
    assert Sum([a]) == a;
    assert [a, b][..1] == [a];
    assert Sum([a, b]) == a + b;
    assert [a, b, c][..2] == [a, b];
  }

  /** A three-wide dot product, term by term. */
  lemma DotOfThree(a: real, b: real, c: real, kernel: seq<real>)
    requires |kernel| == 3
    ensures Dot([a, b, c], kernel) == a * kernel[0] + b * kernel[1] + c * kernel[2]
  {
    assert [a][..0] == [];
    assert Dot([a], kernel) == a * kernel[0];
    assert [a, b][..1] == [a];
    assert Dot([a, b], kernel) == a * kernel[0] + b * kernel[1];
    assert [a, b, c][..2] == [a, b];
  }

  /** The unit tests over exact reals: the 3-wide moving average of 1..5 and
      the convolution of 1..4 with `[1, 0, -1]`. */
  lemma UnitTestValues()
    ensures WindowMeans([1.0, 2.0, 3.0, 4.0, 5.0], 3) == [2.0, 3.0, 4.0]
    ensures Convolution([1.0, 2.0, 3.0, 4.0], [1.0, 0.0, -1.0]) == [-2.0, -2.0]
  {
    var s := [1.0, 2.0, 3.0, 4.0, 5.0];
    assert s[0..3] == [1.0, 2.0, 3.0] && s[1..4] == [2.0, 3.0, 4.0] && s[2..5] == [3.0, 4.0, 5.0];
    SumOfThree(1.0, 2.0, 3.0);
    SumOfThree(2.0, 3.0, 4.0);
    SumOfThree(3.0, 4.0, 5.0);
    var c := [1.0, 2.0, 3.0, 4.0];
    var ker := [1.0, 0.0, -1.0];
    assert c[0..3] == [1.0, 2.0, 3.0] && c[1..4] == [2.0, 3.0, 4.0];
    DotOfThree(1.0, 2.0, 3.0, ker);
    DotOfThree(2.0, 3.0, 4.0, ker);
  }
}
