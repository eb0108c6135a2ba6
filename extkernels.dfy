/** The hand-written windowed kernels of the `rustify_ml_ext` extension
    (`dist/rustify_ml_ext/src/lib.rs`): output lengths, the indices each
    loop reads, and the sums it accumulates, over exact reals. The two BPE
    kernels of the same file are in module `Bpe`. */
module ExtKernels {
  import opened VecMath

  /** `convolve1d`: a zero-filled buffer of `out_len` outputs, each the kernel
      laid over one window; a kernel longer than the signal gives no output. */
  method Convolve1d(signal: seq<real>, kernel: seq<real>) returns (result: seq<real>)
    ensures result == Convolution(signal, kernel)
  {
    var n := |signal|;
    var k := |kernel|;
    var outLen := if n >= k then n - k + 1 else 0;
    var buf := new real[outLen](_ => 0.0);
    for i := 0 to outLen
      invariant forall p :: 0 <= p < i ==> buf[p] == Dot(signal[p..p + k], kernel)
    {
      var total := 0.0;
      for j := 0 to k
        invariant total == Dot(signal[i..i + j], kernel)
      {
        total := total + signal[i + j] * kernel[j];
        assert signal[i..i + j + 1][..j] == signal[i..i + j];
      }
      buf[i] := total;
    }
    result := buf[..];
  }

  /** `moving_average`: the mean of every full window. */
  method MovingAverage(signal: seq<real>, window: nat) returns (result: seq<real>)
    ensures result == WindowMeans(signal, window)
  {
    var n := |signal|;
    var outLen := if n >= window then n - window + 1 else 0;
    var buf := new real[outLen](_ => 0.0);
    for i := 0 to outLen
      invariant forall p :: 0 <= p < i ==>
        buf[p] == if window == 0 then 0.0 else Sum(signal[p..p + window]) / (window as real)
    {
      var total := 0.0;
      for j := 0 to window
        invariant total == Sum(signal[i..i + j])
      {
        total := total + signal[i + j];
        assert signal[i..i + j + 1][..j] == signal[i..i + j];
      }
      buf[i] := if window == 0 then 0.0 else total / (window as real);
    }
    result := buf[..];
  }

  /** `diff`: `n - 1` differences of neighbours, none for an empty signal. */
  method Diff(signal: seq<real>) returns (result: seq<real>)
    ensures result == Differences(signal)
  {
    var n := |signal|;
    var buf := new real[if n > 0 then n - 1 else 0](_ => 0.0);
    for i := 0 to buf.Length
      invariant forall p :: 0 <= p < i ==> buf[p] == signal[p + 1] - signal[p]
    {
      buf[i] := signal[i + 1] - signal[i];
    }
    result := buf[..];
  }

  /** `cumsum`: the running total after every sample. */
  method Cumsum(signal: seq<real>) returns (result: seq<real>)
    ensures result == PrefixSums(signal)
  {
    var n := |signal|;
    var buf := new real[n](_ => 0.0);
    var total := 0.0;
    for i := 0 to n
      invariant total == Sum(signal[..i])
      invariant forall p :: 0 <= p < i ==> buf[p] == Sum(signal[..p + 1])
    {
      total := total + signal[i];
      assert signal[..i + 1][..i] == signal[..i];
      buf[i] := total;
    }
    result := buf[..];
  }

  /** The first index of `running_mean`'s trailing window ending at `i`. */
  function WindowStart(i: nat, window: nat): nat {
    if i + 1 >= window then i + 1 - window else 0
  }

  /** `running_mean`'s output at `i`: the mean of the samples from the window
      start up to `i`, or 0.0 when that range is empty. */
  function RunningMeanAt(values: seq<real>, window: nat, i: nat): real
    requires i < |values|
  {
    var start := WindowStart(i, window);
    if start <= i then Sum(values[start..i + 1]) / ((i + 1 - start) as real) else 0.0
  }

  /** One trailing mean per input value. */
  function RunningMeans(values: seq<real>, window: nat): (r: seq<real>)
    ensures |r| == |values|
  {
    seq(|values|, i requires 0 <= i < |values| => RunningMeanAt(values, window, i))
  }

  /** `running_mean`: for every position, sum and count the trailing window. */
  method RunningMean(values: seq<real>, window: nat) returns (result: seq<real>)
    ensures result == RunningMeans(values, window)
  {
    result := [];
    for i := 0 to |values|
      invariant result == RunningMeans(values, window)[..i]
    {
      var start := if i + 1 >= window then i + 1 - window else 0;
      var total := 0.0;
      var count := 0;
      var j := start;
      while j <= i
        invariant start <= j <= i + 1
        invariant count == j - start
        invariant total == Sum(values[start..j])
      {
        total := total + values[j];
        count := count + 1;
        assert values[start..j + 1][..j - start] == values[start..j];
        j := j + 1;
      }
      assert j == i + 1 && count == i + 1 - WindowStart(i, window);
      var mean := if count > 0 then total / (count as real) else 0.0;
      assert mean == RunningMeanAt(values, window, i);
      assert RunningMeans(values, window)[..i + 1] == RunningMeans(values, window)[..i] + [mean];
      result := result + [mean];
    }
  }

  /** The window holds `min(window, i + 1)` values: it is never empty unless
      the window is 0, the one case where the 0.0 branch is taken. */
  lemma RunningMeanCount(i: nat, window: nat)
    ensures WindowStart(i, window) <= i + 1
    ensures i + 1 - WindowStart(i, window) == if window <= i + 1 then window else i + 1
    ensures WindowStart(i, window) <= i <==> window >= 1
  {
  }

  /** A zero window makes every output 0.0. */
  lemma RunningMeanZeroWindow(values: seq<real>, i: nat)
    requires i < |values|
    ensures RunningMeans(values, 0)[i] == 0.0
  {
  }

  /** Once a full window fits, the running mean at `i` is the moving average of
      the window that ends at `i`. */
  lemma RunningMeanIsMovingAverage(values: seq<real>, window: nat, i: nat)
    requires window >= 1 && window - 1 <= i < |values|
    ensures RunningMeans(values, window)[i] == WindowMeans(values, window)[i + 1 - window]
  {
    assert WindowStart(i, window) == i + 1 - window;
  }
}
