/** The waveform preview of the dashboard: the 16-bit samples of a segment
    are thinned to about `samples` values by taking every step-th one, then
    divided by their peak magnitude so that they span [-1, 1]. */
module Waveform {
  import opened Numeric

  /** `ZeroDivisionError` for `samples == 0`; `ValueError` from `max()` of an
      empty array; and, in the code as written, a division by a zero peak,
      which yields infinities and NaNs instead of numbers. */
  datatype WaveformError = DivisionByZero | EmptyArray | NonFinite

  /** Python's `a // b`: the quotient rounded toward negative infinity. */
  function FloorDiv(a: int, b: int): (q: int)
    requires b != 0
    ensures b > 0 ==> q * b <= a < q * b + b
    ensures b < 0 ==> q * b >= a > q * b + b
  {
    if b > 0 then a / b else (-a) / (-b)
  }

  /** `max(1, len(audio_array) // samples)`. */
  function Stride(n: nat, samples: int): (r: Result<nat, WaveformError>)
    ensures r.Failure? <==> samples == 0
    ensures r.Success? ==> r.value >= 1
    ensures r.Success? && (samples < 0 || n < samples) ==> r.value == 1
    ensures r.Success? && 0 < samples <= n ==> r.value * samples <= n < r.value * samples + samples
  {
    if samples == 0 then Failure(DivisionByZero)
    else
      var q := FloorDiv(n, samples);
      assert samples > 0 && n >= samples ==> q >= 1 by {
        if samples > 0 && n >= samples && q < 1 { MulMonotone(q, 0, samples); }
      }
      assert samples > 0 && n < samples ==> q < 1 by {
        if samples > 0 && n < samples && q >= 1 { MulMonotone(1, q, samples); }
      }
      Success(if q > 1 then q else 1)
  }

  /** `n + step - 1` divided by `step` is the least count whose multiple of
      `step` reaches `n`, i.e. the ceiling of `n / step`. */
  lemma CeilingCount(n: nat, step: nat)
    requires step >= 1
    ensures var k := (n + step - 1) / step;
            (k == 0 <==> n == 0) && (n > 0 ==> (k - 1) * step < n <= k * step)
  {
    var k := (n + step - 1) / step;
    var r := (n + step - 1) % step;
    assert n + step - 1 == k * step + r && 0 <= r < step;
    assert (k - 1) * step == k * step - step;
    if n == 0 && k > 0 { MulMonotone(1, k, step); }
  }

  /** `audio_array[::step]`: the elements at indices 0, step, 2 step, ...,
      as many as lie below the length. */
  function Downsample(a: seq<Sample>, step: nat): (d: seq<Sample>)
    requires step >= 1
    ensures |a| == 0 <==> |d| == 0
    ensures |a| > 0 ==> (|d| - 1) * step < |a| <= |d| * step
    ensures forall i :: 0 <= i < |d| ==> i * step < |a| && d[i] == a[i * step]
  {
    var k := (|a| + step - 1) / step;
    CeilingCount(|a|, step);
    assert forall i :: 0 <= i < k ==> i * step < |a| by {
      forall i | 0 <= i < k ensures i * step < |a| { MulMonotone(i, k - 1, step); }
    }
    seq(k, i requires 0 <= i < k => a[i * step])
  }

  /** A stride of one keeps every sample. */
  lemma DownsampleByOne(a: seq<Sample>)
    ensures Downsample(a, 1) == a
  {
    var d := Downsample(a, 1);
    assert |d| == |a|;
    assert forall i :: 0 <= i < |d| ==> d[i] == a[i * 1];
  }

  /** `max(abs(arr.max()), abs(arr.min()))` with the true absolute value. */
  function Peak(d: seq<Sample>): (p: nat)
    requires |d| > 0
    ensures forall i :: 0 <= i < |d| ==> Abs(d[i]) <= p
    ensures exists i :: 0 <= i < |d| && Abs(d[i]) == p
    ensures !Constant(d) ==> p > 0
  {
    var hi, lo := Max(d), Min(d);
    ConstantIffMaxIsMin(d);
    if Abs(hi) >= Abs(lo) then Abs(hi) else Abs(lo)
  }

  /** A number that scales back to `x` by a positive `p` no smaller than
      `|x|` lies in [-1, 1], at one of its ends when `|x| == p`. */
  lemma UnitFromProduct(q: real, p: real, x: real)
    requires p > 0.0 && q * p == x && AbsReal(x) <= p
    ensures -1.0 <= q <= 1.0
    ensures AbsReal(x) == p ==> AbsReal(q) == 1.0
  {
    assert (q - 1.0) * p == x - p;
    assert (q + 1.0) * p == x + p;
    if x == p {
      assert (q - 1.0) * p == 0.0;
    } else if x == -p {
      assert (q + 1.0) * p == 0.0;
    }
  }

  /** `UnitFromProduct` for one sample and an integer bound. */
  lemma SampleQuotient(q: real, x: int, p: nat)
    requires p > 0 && Abs(x) <= p && q * p as real == x as real
    ensures -1.0 <= q <= 1.0
    ensures Abs(x) == p ==> AbsReal(q) == 1.0
  {
    assert AbsReal(x as real) == Abs(x) as real;
    UnitFromProduct(q, p as real, x as real);
  }

  /** Every value divided by a non-zero divisor (numpy's true division). */
  function DivideBy(d: seq<Sample>, p: int): (r: seq<real>)
    requires p != 0
    ensures |r| == |d|
    ensures forall i :: 0 <= i < |d| ==> r[i] * p as real == d[i] as real
  {
    seq(|d|, i requires 0 <= i < |d| => d[i] as real / p as real)
  }

  /** Division by a positive bound `p` on the magnitudes lands in [-1, 1]. */
  function DivideAll(d: seq<Sample>, p: nat): (r: seq<real>)
    requires p > 0 && forall i :: 0 <= i < |d| ==> Abs(d[i]) <= p
    ensures |r| == |d|
    ensures forall i :: 0 <= i < |d| ==> -1.0 <= r[i] <= 1.0 && r[i] * p as real == d[i] as real
    ensures forall i :: 0 <= i < |d| && Abs(d[i]) == p ==> AbsReal(r[i]) == 1.0
  {
    QuotientsInUnit(d, p);
    DivideBy(d, p)
  }

  /** The pointwise argument behind `DivideAll`. */
  lemma QuotientsInUnit(d: seq<Sample>, p: nat)
    requires p > 0 && forall i :: 0 <= i < |d| ==> Abs(d[i]) <= p
    ensures forall i :: 0 <= i < |d| ==> -1.0 <= DivideBy(d, p)[i] <= 1.0
    ensures forall i :: 0 <= i < |d| && Abs(d[i]) == p ==> AbsReal(DivideBy(d, p)[i]) == 1.0
  {
    var r := DivideBy(d, p);
    forall i | 0 <= i < |d| ensures -1.0 <= r[i] <= 1.0 && (Abs(d[i]) == p ==> AbsReal(r[i]) == 1.0) {
      SampleQuotient(r[i], d[i], p);
    }
  }

  /** The normalisation step on a non-empty downsampled array: divided by the
      peak unless all values are equal, in which case they are kept as they are. */
  function Normalise(d: seq<Sample>): (r: seq<real>)
    requires |d| > 0
    ensures |r| == |d|
    ensures Constant(d) ==> forall i :: 0 <= i < |d| ==> r[i] == d[i] as real
    ensures !Constant(d) ==> r == DivideAll(d, Peak(d))
    ensures !Constant(d) ==> exists i :: 0 <= i < |d| && AbsReal(r[i]) == 1.0
  {
    var hi, lo, p := Max(d), Min(d), Peak(d);
    ConstantIffMaxIsMin(d);
    if hi != lo then
      var r := DivideAll(d, p);
      var j :| 0 <= j < |d| && Abs(d[j]) == p;
      assert AbsReal(r[j]) == 1.0;
      r
    else
      seq(|d|, i requires 0 <= i < |d| => d[i] as real)
  }

  /** `get_waveform_data`. */
  function GetWaveformData(audio: seq<Sample>, samples: int): (r: Result<seq<real>, WaveformError>)
    ensures samples == 0 ==> r == Failure(DivisionByZero)
    ensures samples != 0 && |audio| == 0 ==> r == Failure(EmptyArray)
    ensures r.Success? <==> samples != 0 && |audio| > 0
    ensures r.Success? ==> |r.value| == |Downsample(audio, Stride(|audio|, samples).value)|
  {
    match Stride(|audio|, samples)
    case Failure(e) => Failure(e)
    case Success(step) =>
      var d := Downsample(audio, step);
      if |d| == 0 then Failure(EmptyArray)
      else Success(Normalise(d))
  }

  /** For a positive `samples` the preview never has more values than the
      segment has samples, and at least `samples` of them once the segment
      is that long. */
  lemma PreviewSize(audio: seq<Sample>, samples: int)
    requires 0 < samples && 0 < |audio|
    ensures var n := |GetWaveformData(audio, samples).value|;
            n <= |audio| && (|audio| >= samples ==> n >= samples)
  {
    var step := Stride(|audio|, samples).value;
    var d := Downsample(audio, step);
    CountBounds(|audio|, step, |d|, samples);
  }

  /** The arithmetic behind `PreviewSize`: `k = ceil(n / step)` values, with
      `step = max(1, n // samples)`. */
  lemma CountBounds(n: nat, step: nat, k: nat, samples: nat)
    requires 0 < samples && 0 < n && step >= 1 && (k - 1) * step < n <= k * step
    requires n < samples ==> step == 1
    requires samples <= n ==> step * samples <= n
    ensures k <= n && (n >= samples ==> k >= samples)
  {
    MulMonotone(1, step, k - 1);
    if n >= samples && k < samples {
      MulMonotone(k, samples - 1, step);
    }
  }

  /** A segment shorter than `samples` is kept whole. */
  lemma ShortAudioKeptWhole(audio: seq<Sample>, samples: int)
    requires 0 < |audio| < samples
    ensures GetWaveformData(audio, samples) == Success(Normalise(audio))
  {
    DownsampleByOne(audio);
  }

  /** A silent segment, or any other with a single value, is returned as it is,
      not scaled into [-1, 1]. */
  lemma ConstantAudioUnscaled(audio: seq<Sample>, samples: int, i: nat)
    requires samples != 0 && Constant(audio) && i < |audio|
    ensures GetWaveformData(audio, samples).Success?
    ensures var v := GetWaveformData(audio, samples).value;
            forall k :: 0 <= k < |v| ==> v[k] == audio[i] as real
  {
    var step := Stride(|audio|, samples).value;
    var d := Downsample(audio, step);
    assert Constant(d) by {
      forall a, b | 0 <= a < |d| && 0 <= b < |d| ensures d[a] == d[b] {
        assert d[a] == audio[a * step] && d[b] == audio[b * step];
      }
    }
  }

  /** The preview of a non-constant downsampled segment spans [-1, 1] and
      touches one of its ends. */
  lemma PreviewSpansUnitRange(audio: seq<Sample>, samples: int)
    requires samples != 0 && |audio| > 0
    requires !Constant(Downsample(audio, Stride(|audio|, samples).value))
    ensures var v := GetWaveformData(audio, samples).value;
            (forall k :: 0 <= k < |v| ==> -1.0 <= v[k] <= 1.0) &&
            (exists k :: 0 <= k < |v| && AbsReal(v[k]) == 1.0)
  {
  }

  // ---- the code as written ---------------------------------------------------

  /** numpy's `abs` on an int16 scalar: the magnitude of -32768 does not fit
      and wraps to -32768. */
  function WrappingAbs(x: Sample): (y: int)
    ensures x != Int16Min ==> y == Abs(x)
    ensures x == Int16Min ==> y == x
  {
    if x == Int16Min then x else Abs(x)
  }

  /** The peak as computed on int16 scalars. */
  function PeakAsWritten(d: seq<Sample>): (p: int)
    requires |d| > 0
    ensures Int16Min !in d ==> p == Peak(d)
  {
    var hi, lo := WrappingAbs(Max(d)), WrappingAbs(Min(d));
    if hi >= lo then hi else lo
  }

  /** The normalisation as written; a zero peak yields non-finite values. */
  function NormaliseAsWritten(d: seq<Sample>): (r: Result<seq<real>, WaveformError>)
    requires |d| > 0
    ensures Int16Min !in d ==> r == Success(Normalise(d))
  {
    ConstantIffMaxIsMin(d);
    if Max(d) != Min(d) then
      var p := PeakAsWritten(d);
      if p == 0 then Failure(NonFinite)
      else
        Success(DivideBy(d, p))
    else
      Success(seq(|d|, i requires 0 <= i < |d| => d[i] as real))
  }

  /** `get_waveform_data` as written, with the wrapping absolute value. */
  function GetWaveformDataAsWritten(audio: seq<Sample>, samples: int): (r: Result<seq<real>, WaveformError>)
    ensures Int16Min !in audio ==> r == GetWaveformData(audio, samples)
  {
    match Stride(|audio|, samples)
    case Failure(e) => Failure(e)
    case Success(step) =>
      var d := Downsample(audio, step);
      if |d| == 0 then Failure(EmptyArray)
      else
        assert Int16Min in d ==> Int16Min in audio;
        NormaliseAsWritten(d)
  }

  /** A segment reaching -32768 is divided by its other extreme only, and the
      preview leaves [-1, 1]; the corrected peak keeps it inside. */
  lemma MinimumSampleLeavesUnitRange()
    ensures GetWaveformDataAsWritten([-32768, 16384], 1000) == Success([-2.0, 1.0])
    ensures GetWaveformData([-32768, 16384], 1000) == Success([-1.0, 0.5])
  {
    AsWrittenPreviewOfMinimum();
    CorrectedPreviewOfMinimum();
  }

  lemma AsWrittenPreviewOfMinimum()
    ensures GetWaveformDataAsWritten([-32768, 16384], 1000) == Success([-2.0, 1.0])
  {
    var a: seq<Sample> := [-32768, 16384];
    DownsampleByOne(a);
    assert Max(a) == 16384 && Min(a) == -32768;
    assert PeakAsWritten(a) == 16384;
    var v := NormaliseAsWritten(a).value;
    assert v[0] == -2.0 && v[1] == 1.0;
    assert v == [-2.0, 1.0];
  }

  /** A segment holding -32768 has peak 32768. */
  lemma PeakReachesMinimum(a: seq<Sample>, i: nat)
    requires i < |a| && a[i] == Int16Min
    ensures Peak(a) == 32768
  {
    assert Abs(a[i]) == 32768;
  }

  lemma CorrectedPreviewOfMinimum()
    ensures GetWaveformData([-32768, 16384], 1000) == Success([-1.0, 0.5])
  {
    ShortAudioKeptWhole([-32768, 16384], 1000);
    NormaliseOfMinimum();
  }

  lemma NormaliseOfMinimum()
    ensures Normalise([-32768, 16384]) == [-1.0, 0.5]
  {
    var a: seq<Sample> := [-32768, 16384];
    var w := Normalise(a);
    assert !Constant(a) by { assert a[0] != a[1]; }
    PeakReachesMinimum(a, 0);
    assert w[0] * 32768.0 == -32768.0 && w[1] * 32768.0 == 16384.0;
    assert w[0] == -1.0 && w[1] == 0.5;
  }

  /** With -32768 as minimum and 0 as maximum the wrapped peak is zero and
      every value becomes non-finite. */
  lemma MinimumSampleDividesByZero()
    ensures GetWaveformDataAsWritten([0, -32768], 1000) == Failure(NonFinite)
    ensures GetWaveformData([0, -32768], 1000) == Success([0.0, -1.0])
  {
    var a: seq<Sample> := [0, -32768];
    DownsampleByOne(a);
    assert Max(a) == 0 && Min(a) == -32768;
    var w := Normalise(a);
    assert Peak(a) == 32768;
    assert w[0] == 0.0 && w[1] == -1.0;
    assert w == [0.0, -1.0];
  }
}
