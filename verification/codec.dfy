/** The QAT quantize/dequantize pair (`_quantize`, `_dequantize`): an affine
    map from reals onto the unsigned integer codes 0 .. 2^bits - 1 and back. */
module Codec {
  import opened RealArith

  /** The exact real code of `x`: its value in steps of `scale`, shifted by the zero point. */
  function Transform(scale: real, zeroPoint: real, x: real): real
    requires scale != 0.0
  {
    zeroPoint + x / scale
  }

  /** `_quantize` on one value: shift by the zero point, clamp to the code
      range, then round to the nearest code. The source keeps the code as a float. */
  function Quantize(bits: nat, scale: real, zeroPoint: real, x: real): (q: real)
    requires scale != 0.0
    ensures IsInteger(q)
    ensures 0.0 <= q <= Qmax(bits) as real
    ensures -0.5 <= q - Clamp(Transform(scale, zeroPoint, x), 0.0, Qmax(bits) as real) <= 0.5
    ensures Transform(scale, zeroPoint, x) < 0.0 ==> q == 0.0
    ensures Transform(scale, zeroPoint, x) > Qmax(bits) as real ==> q == Qmax(bits) as real
  {
    var clamped := Clamp(Transform(scale, zeroPoint, x), 0.0, Qmax(bits) as real);
    RoundMonotone(0.0, clamped);
    RoundMonotone(clamped, Qmax(bits) as real);
    RoundOfInteger(0.0);
    RoundOfInteger(Qmax(bits) as real);
    Round(clamped) as real
  }

  /** `_dequantize` on one value: the affine map back to reals. */
  function Dequantize(scale: real, zeroPoint: real, q: real): real
  {
    scale * (q - zeroPoint)
  }

  /** One value through quantize and then dequantize, the simulated quantization. */
  function FakeQuantize(bits: nat, scale: real, zeroPoint: real, x: real): real
    requires scale != 0.0
  {
    Dequantize(scale, zeroPoint, Quantize(bits, scale, zeroPoint, x))
  }

  /** The source clamps and then rounds; rounding first and clamping the
      integer afterwards gives the same code, because the bounds are integers. */
  lemma QuantizeIsRoundThenClamp(bits: nat, scale: real, zeroPoint: real, x: real)
    requires scale != 0.0
    ensures Quantize(bits, scale, zeroPoint, x) == ClampInt(Round(Transform(scale, zeroPoint, x)), 0, Qmax(bits)) as real
  {
    ClampRoundCommute(Transform(scale, zeroPoint, x), 0, Qmax(bits));
  }

  /** Every in-range integer code survives dequantize followed by quantize. */
  lemma DequantizeQuantizeRoundTrip(bits: nat, scale: real, zeroPoint: real, q: real)
    requires scale != 0.0
    requires IsInteger(q) && 0.0 <= q <= Qmax(bits) as real
    ensures Quantize(bits, scale, zeroPoint, Dequantize(scale, zeroPoint, q)) == q
  {
    var x := Dequantize(scale, zeroPoint, q);
    assert x / scale == q - zeroPoint;
    assert Transform(scale, zeroPoint, x) == q;
    assert Clamp(Transform(scale, zeroPoint, x), 0.0, Qmax(bits) as real) == q;
    RoundOfInteger(q);
    assert Quantize(bits, scale, zeroPoint, x) == Round(q) as real;
  }

  /** Real zero quantizes to the zero point, which dequantizes to exactly zero. */
  lemma ZeroIsExact(bits: nat, scale: real, zeroPoint: real)
    requires scale != 0.0
    requires IsInteger(zeroPoint) && 0.0 <= zeroPoint <= Qmax(bits) as real
    ensures Quantize(bits, scale, zeroPoint, 0.0) == zeroPoint
    ensures Dequantize(scale, zeroPoint, zeroPoint) == 0.0
    ensures FakeQuantize(bits, scale, zeroPoint, 0.0) == 0.0
  {
    assert zeroPoint + 0.0 / scale == zeroPoint;
    RoundOfInteger(zeroPoint);
  }

  /** Simulated quantization is idempotent: a value already on the grid stays put. */
  lemma FakeQuantizeIdempotent(bits: nat, scale: real, zeroPoint: real, x: real)
    requires scale != 0.0
    ensures FakeQuantize(bits, scale, zeroPoint, FakeQuantize(bits, scale, zeroPoint, x))
         == FakeQuantize(bits, scale, zeroPoint, x)
  {
    DequantizeQuantizeRoundTrip(bits, scale, zeroPoint, Quantize(bits, scale, zeroPoint, x));
  }

  /** Inside the representable range [scale * (0 - zp), scale * (qmax - zp)]
      simulated quantization moves a value by at most half a step. */
  lemma FakeQuantizeError(bits: nat, scale: real, zeroPoint: real, x: real)
    requires scale > 0.0
    requires scale * (0.0 - zeroPoint) <= x <= scale * (Qmax(bits) as real - zeroPoint)
    ensures Abs(FakeQuantize(bits, scale, zeroPoint, x) - x) <= scale / 2.0
  {
    var t := Transform(scale, zeroPoint, x);
    assert x == scale * (t - zeroPoint);
    InRangeOffset(scale, zeroPoint, x, Qmax(bits) as real);
    var q := Quantize(bits, scale, zeroPoint, x);
    assert -0.5 <= q - t <= 0.5;
    ShiftedDifference(scale, zeroPoint, x, t, q);
    HalfStep(scale, q - t, FakeQuantize(bits, scale, zeroPoint, x) - x);
  }

  /** Dequantizing code `q` lands `q - t` steps away from the value whose exact code is `t`. */
  lemma ShiftedDifference(scale: real, zeroPoint: real, x: real, t: real, q: real)
    requires x == scale * (t - zeroPoint)
    ensures Dequantize(scale, zeroPoint, q) - x == scale * (q - t)
  {
  }

  /** A value in the representable range has its shifted code inside [0, qmax]. */
  lemma InRangeOffset(scale: real, zeroPoint: real, x: real, qmax: real)
    requires scale > 0.0
    requires scale * (0.0 - zeroPoint) <= x <= scale * (qmax - zeroPoint)
    ensures 0.0 <= Transform(scale, zeroPoint, x) <= qmax
  {
    var y := x / scale;
    assert x == scale * y;
  }

  /** A positive step times an offset of at most one half. */
  lemma HalfStep(scale: real, e: real, d: real)
    requires scale > 0.0
    requires -0.5 <= e <= 0.5
    requires d == scale * e
    ensures Abs(d) <= scale / 2.0
  {
    if e >= 0.0 {
      assert scale * e <= scale * 0.5;
    } else {
      assert scale * (-e) <= scale * 0.5;
    }
  }

  /** `_quantize` applied element-wise to a tensor. */
  function QuantizeTensor(bits: nat, scale: real, zeroPoint: real, t: seq<real>): (codes: seq<real>)
    requires scale != 0.0
    ensures |codes| == |t|
    ensures forall i :: 0 <= i < |t| ==> IsInteger(codes[i]) && 0.0 <= codes[i] <= Qmax(bits) as real
    ensures forall i :: 0 <= i < |t| ==> codes[i] == Quantize(bits, scale, zeroPoint, t[i])
  {
    seq(|t|, i requires 0 <= i < |t| => Quantize(bits, scale, zeroPoint, t[i]))
  }

  /** `_dequantize` applied element-wise to a tensor of codes. */
  function DequantizeTensor(scale: real, zeroPoint: real, codes: seq<real>): (t: seq<real>)
    ensures |t| == |codes|
    ensures forall i :: 0 <= i < |codes| ==> t[i] == Dequantize(scale, zeroPoint, codes[i])
  {
    seq(|codes|, i requires 0 <= i < |codes| => Dequantize(scale, zeroPoint, codes[i]))
  }

  /** The exact real code and the dequantization are inverse affine maps:
      `x` has exact code `r` exactly when `r` dequantizes to `x`. */
  lemma TransformInverse(scale: real, zeroPoint: real, x: real, r: real)
    requires scale != 0.0
    ensures Transform(scale, zeroPoint, x) == r <==> Dequantize(scale, zeroPoint, r) == x
  {
  }

  /** Dequantizing the exact real codes of a tensor, element by element,
      gives the tensor back. */
  lemma TransformTensorInverse(scale: real, zeroPoint: real, t: seq<real>)
    requires scale != 0.0
    ensures DequantizeTensor(scale, zeroPoint, seq(|t|, i requires 0 <= i < |t| => Transform(scale, zeroPoint, t[i]))) == t
  {
    var exact := seq(|t|, i requires 0 <= i < |t| => Transform(scale, zeroPoint, t[i]));
    var back := DequantizeTensor(scale, zeroPoint, exact);
    forall i | 0 <= i < |t|
      ensures back[i] == t[i]
    {
      TransformInverse(scale, zeroPoint, t[i], exact[i]);
    }
  }

  /** A tensor of in-range integer codes survives dequantize followed by quantize. */
  lemma TensorRoundTrip(bits: nat, scale: real, zeroPoint: real, codes: seq<real>)
    requires scale != 0.0
    requires forall i :: 0 <= i < |codes| ==> IsInteger(codes[i]) && 0.0 <= codes[i] <= Qmax(bits) as real
    ensures QuantizeTensor(bits, scale, zeroPoint, DequantizeTensor(scale, zeroPoint, codes)) == codes
  {
    var back := QuantizeTensor(bits, scale, zeroPoint, DequantizeTensor(scale, zeroPoint, codes));
    forall i | 0 <= i < |codes|
      ensures back[i] == codes[i]
    {
      DequantizeQuantizeRoundTrip(bits, scale, zeroPoint, codes[i]);
    }
  }
}
