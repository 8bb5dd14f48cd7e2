/** The two sample-level operators of the generator: amplitude modulation of a
    carrier by a modulator, and tremolo (a periodic gain envelope). Buffers
    are mono sample sequences; channel and sample-rate conversion are left to
    the audio library. */
module Modulation {
  import opened Numeric

  /** numpy's `max()`/`min()` of an empty array raise, so an empty operand fails. */
  datatype ModulationError = EmptyInput

  /** The modulator normalised to [0, 1] over its own range; a constant
      modulator yields 0.5 everywhere instead of dividing by zero. */
  function Factors(m: seq<Sample>): (f: seq<real>)
    requires |m| > 0
    ensures |f| == |m|
    ensures forall i :: 0 <= i < |f| ==> 0.0 <= f[i] <= 1.0
  {
    var lo, hi := Min(m), Max(m);
    if hi != lo then
      seq(|m|, i requires 0 <= i < |m| => Normalise(m[i], lo, hi))
    else
      seq(|m|, i => 0.5)
  }

  /** `(v - lo) / (hi - lo)` for `lo <= v <= hi`, which lies in [0, 1]. */
  function Normalise(v: int, lo: int, hi: int): (f: real)
    requires lo <= v <= hi && lo < hi
    ensures 0.0 <= f <= 1.0
    ensures v == lo ==> f == 0.0
    ensures v == hi ==> f == 1.0
  {
    var a, b := (v - lo) as real, (hi - lo) as real;
    QuotientInUnit(a, b);
    a / b
  }

  lemma QuotientInUnit(a: real, b: real)
    requires 0.0 <= a <= b && b > 0.0
    ensures 0.0 <= a / b <= 1.0
  {
    var q := a / b;
    assert q * b == a;
  }

  lemma ProductNonnegative(x: real, y: real)
    requires x >= 0.0 && y >= 0.0
    ensures x * y >= 0.0
  {
  }

  /** Scaling by a factor in [-1, 1] never increases magnitude. */
  lemma ScaledWithin(x: real, y: real)
    requires -1.0 <= y <= 1.0
    ensures AbsReal(x * y) <= AbsReal(x)
  {
    var ax := AbsReal(x);
    ProductNonnegative(ax, 1.0 - y);
    ProductNonnegative(ax, 1.0 + y);
    assert -ax <= ax * y <= ax;
    if x < 0.0 { assert x * y == -(ax * y); } else { assert x * y == ax * y; }
  }

  /** A non-constant modulator maps its minimum to 0 and its maximum to 1. */
  lemma FactorsAtExtremes(m: seq<Sample>, i: nat)
    requires i < |m| && !Constant(m)
    ensures m[i] == Min(m) ==> Factors(m)[i] == 0.0
    ensures m[i] == Max(m) ==> Factors(m)[i] == 1.0
  {
    ConstantIffMaxIsMin(m);
  }

  /** A constant modulator scales by exactly one half. */
  lemma FactorsOfConstant(m: seq<Sample>, i: nat)
    requires i < |m| && Constant(m)
    ensures Factors(m)[i] == 0.5
  {
    ConstantIffMaxIsMin(m);
  }

  /** `apply_amplitude_modulation`: both inputs cut to the shorter length, each
      carrier sample scaled by the normalised modulator and cast back to int16. */
  function AmplitudeModulate(carrier: seq<Sample>, modulator: seq<Sample>): (r: Result<seq<Sample>, ModulationError>)
    ensures r.Failure? <==> |carrier| == 0 || |modulator| == 0
    ensures r.Success? ==> |r.value| == MinNat(|carrier|, |modulator|)
    ensures r.Success? ==> forall i :: 0 <= i < |r.value| ==>
              Abs(r.value[i]) <= Abs(carrier[i]) && SameSign(r.value[i], carrier[i])
  {
    var n := MinNat(|carrier|, |modulator|);
    if n == 0 then Failure(EmptyInput)
    else
      var f := Factors(modulator[..n]);
      var out := seq(n, i requires 0 <= i < n => Scale(carrier[i], f[i]));
      assert forall i :: 0 <= i < n ==> out[i] == Scale(carrier[i], f[i]);
      Success(out)
  }

  /** `s` is zero or has the sign of `c`. */
  predicate SameSign(s: int, c: int) {
    (c >= 0 ==> s >= 0) && (c <= 0 ==> s <= 0)
  }

  /** One carrier sample times a factor in [0, 1], cast to int16; the factor
      never amplifies, so the clip never engages. */
  function Scale(c: Sample, f: real): (s: Sample)
    requires 0.0 <= f <= 1.0
    ensures Abs(s) <= Abs(c) && SameSign(s, c)
    ensures f == 1.0 ==> s == c
    ensures f == 0.0 ==> s == 0
  {
    ScaledSample(c, f);
    ToInt16(c as real * f)
  }

  /** The product of a sample and a factor in [0, 1] stays within the
      sample's magnitude and keeps its sign. */
  lemma ScaledSample(c: Sample, f: real)
    requires 0.0 <= f <= 1.0
    ensures AbsReal(c as real * f) <= Abs(c) as real
    ensures c >= 0 ==> c as real * f >= 0.0
    ensures c <= 0 ==> c as real * f <= 0.0
  {
    ScaledWithin(c as real, f);
    assert AbsReal(c as real) == Abs(c) as real;
    if c >= 0 { ProductNonnegative(c as real, f); }
    if c <= 0 { ProductNonnegative(-(c as real), f); }
  }

  /** Where the modulator peaks the carrier passes unchanged; where it is at
      its minimum the output is silent. */
  lemma ModulationFollowsModulator(carrier: seq<Sample>, modulator: seq<Sample>, i: nat)
    requires i < |carrier| && i < |modulator|
    requires !Constant(modulator[..MinNat(|carrier|, |modulator|)])
    ensures AmplitudeModulate(carrier, modulator).Success?
    ensures var m := modulator[..MinNat(|carrier|, |modulator|)];
            (modulator[i] == Max(m) ==> AmplitudeModulate(carrier, modulator).value[i] == carrier[i]) &&
            (modulator[i] == Min(m) ==> AmplitudeModulate(carrier, modulator).value[i] == 0)
  {
    var m := modulator[..MinNat(|carrier|, |modulator|)];
    FactorsAtExtremes(m, i);
  }

  /** A silent (constant) modulator halves every carrier sample, rounding toward zero. */
  lemma ConstantModulatorHalves(carrier: seq<Sample>, modulator: seq<Sample>, i: nat)
    requires i < |carrier| && i < |modulator|
    requires Constant(modulator)
    ensures AmplitudeModulate(carrier, modulator).Success?
    ensures AmplitudeModulate(carrier, modulator).value[i] == TruncateTowardZero(carrier[i] as real / 2.0)
  {
    var m := modulator[..MinNat(|carrier|, |modulator|)];
    FactorsOfConstant(m, i);
    assert carrier[i] as real * 0.5 == carrier[i] as real / 2.0;
  }

  /** The tremolo envelope `1 - depth + depth * sin(...)` at one sine value. */
  function Envelope(depth: real, sine: real): (e: real)
    ensures sine == 0.0 ==> e == 1.0 - depth
    ensures sine == 1.0 || depth == 0.0 ==> e == 1.0
    ensures depth == 1.0 ==> e == sine
  {
    1.0 - depth + depth * sine
  }

  /** For depth in [0, 1] and sine in [-1, 1] the envelope lies in [1 - 2 depth, 1]. */
  lemma EnvelopeRange(depth: real, sine: real)
    requires 0.0 <= depth <= 1.0 && -1.0 <= sine <= 1.0
    ensures 1.0 - 2.0 * depth <= Envelope(depth, sine) <= 1.0
    ensures -1.0 <= Envelope(depth, sine)
  {
    ProductNonnegative(depth, 1.0 - sine);
    ProductNonnegative(depth, 1.0 + sine);
  }

  /** `apply_tremolo`: the audio and the envelope are cut to the shorter
      length, multiplied sample by sample and cast back to int16. The sine
      values of the oscillator come from the caller. */
  function Tremolo(audio: seq<Sample>, depth: real, sine: seq<real>): (r: seq<Sample>)
    ensures |r| == MinNat(|audio|, |sine|)
    ensures forall i :: 0 <= i < |r| ==> r[i] == PulseSample(audio[i], depth, sine[i])
    ensures 0.0 <= depth <= 1.0 && (forall i :: 0 <= i < |sine| ==> -1.0 <= sine[i] <= 1.0) ==>
              forall i :: 0 <= i < |r| ==> Abs(r[i]) <= Abs(audio[i])
  {
    var n := MinNat(|audio|, |sine|);
    var r := seq(n, i requires 0 <= i < n => PulseSample(audio[i], depth, sine[i]));
    assert forall i :: 0 <= i < n ==> r[i] == PulseSample(audio[i], depth, sine[i]);
    if 0.0 <= depth <= 1.0 && (forall i :: 0 <= i < |sine| ==> -1.0 <= sine[i] <= 1.0) then
      assert forall i :: 0 <= i < n ==> Abs(r[i]) <= Abs(audio[i]) by {
        forall i | 0 <= i < n ensures Abs(r[i]) <= Abs(audio[i]) {
          PulseBound(audio[i], depth, sine[i]);
        }
      }
      r
    else r
  }

  /** One sample times the envelope, cast back to int16. */
  function PulseSample(a: Sample, depth: real, sine: real): (r: Sample)
    ensures Envelope(depth, sine) == 1.0 ==> r == a
    ensures Envelope(depth, sine) == 0.0 ==> r == 0
  {
    ToInt16OfSample(a);
    ToInt16(a as real * Envelope(depth, sine))
  }

  lemma PulseBound(a: Sample, depth: real, sine: real)
    requires 0.0 <= depth <= 1.0 && -1.0 <= sine <= 1.0
    ensures Abs(PulseSample(a, depth, sine)) <= Abs(a)
  {
    EnvelopeRange(depth, sine);
    ScaledWithin(a as real, Envelope(depth, sine));
    assert AbsReal(a as real) == Abs(a) as real;
    CastWithinBound(a as real * Envelope(depth, sine), Abs(a));
  }

  /** The int16 cast of a value no larger in magnitude than a sample's is no larger either. */
  lemma CastWithinBound(x: real, bound: nat)
    requires AbsReal(x) <= bound as real && bound <= 32768
    ensures Abs(ToInt16(x)) <= bound
  {
    if x > 32767.0 {
      assert ToInt16(x) == 32767;
    }
  }

  /** Depth 0 makes every envelope value exactly 1: the output is the input prefix. */
  lemma TremoloZeroDepthIsIdentity(audio: seq<Sample>, sine: seq<real>)
    ensures Tremolo(audio, 0.0, sine) == audio[..MinNat(|audio|, |sine|)]
  {
    var n := MinNat(|audio|, |sine|);
    var r := Tremolo(audio, 0.0, sine);
    forall i | 0 <= i < n ensures r[i] == audio[i] {
      assert Envelope(0.0, sine[i]) == 1.0;
      ToInt16OfSample(audio[i]);
    }
  }

  /** Where the oscillator is at sine 0, as it is at the first sample of a
      buffer, the sample is scaled by the envelope at sine 0, which is
      1 - depth: it is not passed through at full level. */
  lemma TremoloAtBufferStart(audio: seq<Sample>, depth: real, sine: seq<real>)
    requires |audio| > 0 && |sine| > 0 && sine[0] == 0.0
    ensures Tremolo(audio, depth, sine)[0] == PulseSample(audio[0], depth, 0.0)
    ensures Envelope(depth, 0.0) == 1.0 - depth
  {
  }

  /** Where the sine is zero the sample is scaled by 1 - depth. */
  lemma PulseAtZeroSine(a: Sample, depth: real)
    ensures PulseSample(a, depth, 0.0) == ToInt16(a as real * (1.0 - depth))
  {
    assert Envelope(depth, 0.0) == 1.0 - depth;
  }

  /** At full depth the output is silent wherever the sine crosses zero. */
  lemma FullDepthSilencesZeroCrossings(audio: seq<Sample>, sine: seq<real>, i: nat)
    requires i < |audio| && i < |sine| && sine[i] == 0.0
    ensures Tremolo(audio, 1.0, sine)[i] == 0
  {
    assert Envelope(1.0, sine[i]) == 0.0;
    assert Tremolo(audio, 1.0, sine)[i] == ToInt16(audio[i] as real * 0.0);
  }
}
