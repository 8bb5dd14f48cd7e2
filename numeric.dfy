/** Shared vocabulary of the model: optional values and results, 16-bit PCM
    samples, and the numpy conversions that the signal operators end with. */
module Numeric {

  datatype Option<+T> = None | Some(value: T) {
    function GetOr(default: T): T {
      match this
      case Some(v) => v
      case None => default
    }
  }

  datatype Result<+T, +E> = Success(value: T) | Failure(error: E)

  const Int16Min: int := -32768
  const Int16Max: int := 32767

  /** One signed 16-bit PCM sample, the element type of every buffer. */
  type Sample = x: int | -32768 <= x <= 32767

  function Abs(x: int): nat { if x < 0 then -x else x }

  function AbsReal(x: real): real { if x < 0.0 then -x else x }

  function MinNat(a: nat, b: nat): nat { if a < b then a else b }

  /** `np.clip(x, -32768, 32767)` on one value. */
  function Clip(x: real): (r: real)
    ensures -32768.0 <= r <= 32767.0
    ensures -32768.0 <= x <= 32767.0 ==> r == x
    ensures x < -32768.0 ==> r == -32768.0
    ensures 32767.0 < x ==> r == 32767.0
  {
    if x < -32768.0 then -32768.0 else if x > 32767.0 then 32767.0 else x
  }

  /** numpy's float-to-integer cast, which drops the fraction (rounds toward zero). */
  function TruncateTowardZero(x: real): (n: int)
    ensures 0.0 <= x ==> 0 <= n && n as real <= x < n as real + 1.0
    ensures x < 0.0 ==> n <= 0 && n as real - 1.0 < x <= n as real
  {
    if x >= 0.0 then x.Floor else -((-x).Floor)
  }

  /** `np.clip(x, -32768, 32767).astype(np.int16)`: saturate, then truncate. */
  function ToInt16(x: real): (s: Sample)
    ensures x >= 32767.0 ==> s == Int16Max
    ensures x <= -32768.0 ==> s == Int16Min
    ensures -32768.0 <= x <= 32767.0 ==> Abs(s) as real <= AbsReal(x) < Abs(s) as real + 1.0
    ensures -32768.0 <= x <= 32767.0 ==> (x >= 0.0 ==> s >= 0) && (x <= 0.0 ==> s <= 0)
  {
    TruncateTowardZero(Clip(x))
  }

  /** An integer value that is already a sample survives the cast unchanged. */
  lemma ToInt16OfSample(s: Sample)
    ensures ToInt16(s as real) == s
  {
  }

  /** Saturating addition of two samples (`audioop.add` on 16-bit data). */
  function Saturate(x: int): (s: Sample)
    ensures Int16Min <= x <= Int16Max ==> s == x
    ensures x > Int16Max ==> s == Int16Max
    ensures x < Int16Min ==> s == Int16Min
  {
    if x < Int16Min then Int16Min else if x > Int16Max then Int16Max else x
  }

  /** The largest element (numpy `max()`, which fails on an empty array). */
  function Max(s: seq<int>): (m: int)
    requires |s| > 0
    ensures m in s
    ensures forall i :: 0 <= i < |s| ==> s[i] <= m
  {
    if |s| == 1 then s[0]
    else
      var rest := Max(s[1..]);
      if s[0] >= rest then s[0] else rest
  }

  /** The smallest element (numpy `min()`, which fails on an empty array). */
  function Min(s: seq<int>): (m: int)
    requires |s| > 0
    ensures m in s
    ensures forall i :: 0 <= i < |s| ==> m <= s[i]
  {
    if |s| == 1 then s[0]
    else
      var rest := Min(s[1..]);
      if s[0] <= rest then s[0] else rest
  }

  /** All elements equal: exactly the case `max() == min()`. */
  predicate Constant(s: seq<int>) {
    forall i, j :: 0 <= i < |s| && 0 <= j < |s| ==> s[i] == s[j]
  }

  lemma {:induction false} ConstantIffMaxIsMin(s: seq<int>)
    requires |s| > 0
    ensures Constant(s) <==> Max(s) == Min(s)
  {
    var hi, lo := Max(s), Min(s);
    if hi == lo {
      forall i, j | 0 <= i < |s| && 0 <= j < |s| ensures s[i] == s[j] {
        assert lo <= s[i] <= hi && lo <= s[j] <= hi;
      }
    } else {
      var i :| 0 <= i < |s| && s[i] == hi;
      var j :| 0 <= j < |s| && s[j] == lo;
      assert s[i] != s[j];
    }
  }

  /** Multiplying by a natural number preserves order. */
  lemma MulMonotone(a: int, b: int, c: nat)
    requires a <= b
    ensures a * c <= b * c
  {
    assert (b - a) * c >= 0;
  }

  /** `i` is the quotient of `k` by `interval` when `k` lies in the i-th period. */
  lemma DivisionUnique(k: int, interval: nat, i: int)
    requires interval > 0 && i * interval <= k < i * interval + interval
    ensures k / interval == i && k % interval == k - i * interval
  {
    var q, r := k / interval, k % interval;
    assert k == q * interval + r && 0 <= r < interval;
    if q < i { MulMonotone(q + 1, i, interval); }
    if q > i { MulMonotone(i + 1, q, interval); }
  }
}
