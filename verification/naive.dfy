/** `NaiveQuantizer`: symmetric 8-bit weight quantization with one scale per
    layer. Each call widens the layer's stored scale to cover the weight's
    largest magnitude at code 127, and the weight is then truncated onto the
    int8 grid of that scale. */
module Naive {
  import opened RealArith
  import opened Tensor
  import opened Outcome

  /** The quantizer's state: the scale stored for each layer name. */
  datatype NaiveQuantizer = NaiveQuantizer(layerScale: map<string, real>)

  /** `__init__`: no layer has a scale yet. */
  const Init: NaiveQuantizer := NaiveQuantizer(map[])

  /** `layer_scale.get(op_name, 0)`. */
  function StoredScale(nq: NaiveQuantizer, opName: string): real
  {
    if opName in nq.layerScale then nq.layerScale[opName] else 0.0
  }

  /** The scale a call uses and stores: the stored one, widened if the
      weight's largest magnitude does not fit at code 127. */
  function CallScale(nq: NaiveQuantizer, opName: string, weight: seq<real>): (s: real)
    requires |weight| > 0
    ensures s >= StoredScale(nq, opName) && s >= MaxAbs(weight) / 127.0
    ensures s == StoredScale(nq, opName) || s == MaxAbs(weight) / 127.0
  {
    MaxR(StoredScale(nq, opName), MaxAbs(weight) / 127.0)
  }

  /** For a positive step, the magnitude of a multiple is the step times the multiplier's magnitude. */
  lemma AbsScaled(a: real, scale: real)
    requires scale > 0.0
    ensures Abs(a * scale) == Abs(a) * scale
  {
    if a < 0.0 {
      assert a * scale == -((-a) * scale);
    }
  }

  /** Comparing multiples of a positive step compares the multipliers. */
  lemma ScaledLe(a: real, b: real, scale: real)
    requires scale > 0.0
    ensures a * scale <= b * scale <==> a <= b
    ensures a * scale < b * scale <==> a < b
  {
    assert b * scale - a * scale == (b - a) * scale;
  }

  /** `w` lies within 127 steps of 0, so `w / scale` truncates into int8 without overflow. */
  predicate Fits(w: real, scale: real)
    requires scale > 0.0
  {
    -127.0 <= w / scale <= 127.0
  }

  /** A value no larger in magnitude than `m` fits any scale of at least m / 127. */
  lemma FitsUnder(w: real, m: real, scale: real)
    requires scale > 0.0
    requires Abs(w) <= m
    requires m / 127.0 <= scale
    ensures Fits(w, scale)
  {
    var y := w / scale;
    assert y * scale == w;
    assert m <= 127.0 * scale;
    ScaledLe(Abs(y), 127.0, scale);
    AbsScaled(y, scale);
  }

  /** The int8 code of one element, `trunc(w / scale)`. */
  function Code(w: real, scale: real): (c: int)
    requires scale > 0.0
    requires Fits(w, scale)
    ensures -127 <= c <= 127
    ensures TruncatesTo(w / scale, c as real)
  {
    Int8Cast(w / scale)
  }

  /** `weight.div(scale).type(torch.int8)`: the int8 code of each element,
      truncated toward zero. */
  function Codes(weight: seq<real>, scale: real): (c: seq<int>)
    requires scale > 0.0
    requires forall i :: 0 <= i < |weight| ==> Fits(weight[i], scale)
    ensures |c| == |weight|
    ensures forall i :: 0 <= i < |weight| ==> c[i] == Code(weight[i], scale)
    ensures forall i :: 0 <= i < |weight| ==> -127 <= c[i] <= 127 && TruncatesTo(weight[i] / scale, c[i] as real)
  {
    seq(|weight|, i requires 0 <= i < |weight| => Code(weight[i], scale))
  }

  /** The real value of code `c` on the grid of step `scale`. */
  function Level(c: int, scale: real): real
  {
    c as real * scale
  }

  /** `.type(orig_type).mul(scale)`: codes back to reals. */
  function Rescale(codes: seq<int>, scale: real): (out: seq<real>)
    ensures |out| == |codes|
    ensures forall i :: 0 <= i < |codes| ==> out[i] == Level(codes[i], scale)
  {
    seq(|codes|, i requires 0 <= i < |codes| => Level(codes[i], scale))
  }

  /** A weight fits every scale that covers its largest magnitude at code 127. */
  lemma AllFit(weight: seq<real>, scale: real)
    requires |weight| > 0
    requires scale > 0.0
    requires scale >= MaxAbs(weight) / 127.0
    ensures forall i :: 0 <= i < |weight| ==> Fits(weight[i], scale)
  {
    forall i | 0 <= i < |weight|
      ensures Fits(weight[i], scale)
    {
      FitsUnder(weight[i], MaxAbs(weight), scale);
    }
  }

  /** `quantize_weight`. An empty weight has no maximum, so the call fails.
      A zero scale (an all-zero weight on a layer without a positive stored
      scale) is stored as it is; the source then divides 0 by 0 and casts the
      result to int8, and whatever code that gives, multiplying it by the zero
      scale gives 0 for every element. */
  function QuantizeWeight(nq: NaiveQuantizer, opName: string, weight: seq<real>)
    : (r: Result<(seq<real>, NaiveQuantizer)>)
    ensures r.Err? <==> |weight| == 0
    ensures r.Err? ==> r.error == EmptyTensor
    ensures r.Ok? ==> |r.value.0| == |weight|
    ensures r.Ok? ==> r.value.1.layerScale == nq.layerScale[opName := CallScale(nq, opName, weight)]
    ensures r.Ok? && CallScale(nq, opName, weight) == 0.0 ==> forall i :: 0 <= i < |weight| ==> r.value.0[i] == 0.0
  {
    if |weight| == 0 then Err(EmptyTensor)
    else
      var scale := CallScale(nq, opName, weight);
      if scale <= 0.0 then
        Ok((seq(|weight|, i => 0.0), NaiveQuantizer(nq.layerScale[opName := scale])))
      else
        AllFit(weight, scale);
        Ok((Rescale(Codes(weight, scale), scale), NaiveQuantizer(nq.layerScale[opName := scale])))
  }

  /** A zero scale happens only for an all-zero weight, which then comes back
      unchanged, with the zero scale stored for the layer. */
  lemma ZeroScaleKeepsWeight(nq: NaiveQuantizer, opName: string, weight: seq<real>)
    requires |weight| > 0
    requires CallScale(nq, opName, weight) == 0.0
    ensures forall i :: 0 <= i < |weight| ==> weight[i] == 0.0
    ensures QuantizeWeight(nq, opName, weight) == Ok((weight, NaiveQuantizer(nq.layerScale[opName := 0.0])))
  {
    var out := QuantizeWeight(nq, opName, weight).value.0;
    forall i | 0 <= i < |weight|
      ensures weight[i] == 0.0
    {
      assert Abs(weight[i]) <= MaxAbs(weight);
    }
    assert out == weight;
  }

  /** A call never shrinks a stored scale: the layer's scale is at least what
      it was and covers the weight at code 127, and other layers are untouched. */
  lemma QuantizeWeightWidens(nq: NaiveQuantizer, opName: string, weight: seq<real>)
    requires QuantizeWeight(nq, opName, weight).Ok?
    ensures var s := QuantizeWeight(nq, opName, weight).value.1;
            && opName in s.layerScale
            && s.layerScale[opName] >= 0.0
            && s.layerScale[opName] >= StoredScale(nq, opName)
            && s.layerScale[opName] >= MaxAbs(weight) / 127.0
            && (forall k :: k in nq.layerScale ==> k in s.layerScale)
            && (forall k :: k in s.layerScale && k != opName ==> k in nq.layerScale && s.layerScale[k] == nq.layerScale[k])
  {
  }

  /** `c` truncates `y` toward zero: it has the sign of `y`, and lies between
      0 and `y` less than one away from `y`. */
  ghost predicate TruncatesTo(y: real, c: real)
  {
    if y >= 0.0 then 0.0 <= c <= y < c + 1.0 else c - 1.0 < y <= c <= 0.0
  }

  /** `o` is a truncation of `w` onto a grid of step `scale`: no larger in
      magnitude than `w`, and less than one step away from it. */
  ghost predicate TruncatedWithinStep(o: real, w: real, scale: real)
  {
    Abs(o) <= Abs(w) && Abs(o - w) < scale
  }

  /** `o` lies between 0 and `w`, less than one step from `w`. */
  ghost predicate TowardZeroWithin(o: real, w: real, scale: real)
  {
    (0.0 <= o <= w < o + scale) || (o - scale < w <= o <= 0.0)
  }

  /** The linear core of TruncScaled. */
  lemma TruncatedBetween(o: real, w: real, scale: real)
    requires TowardZeroWithin(o, w, scale)
    ensures TruncatedWithinStep(o, w, scale)
  {
  }

  /** `o` lies within `m` of 0. */
  ghost predicate InBand(o: real, m: real)
  {
    -m <= o <= m
  }

  /** The linear core of CodeOfGridPoint. */
  lemma BandAbs(o: real, m: real)
    requires InBand(o, m)
    ensures Abs(o) <= m
  {
  }

  /** The truncation facts about `c` for `y`, multiplied by a positive step. */
  lemma TruncScaled(y: real, code: int, scale: real, w: real)
    requires scale > 0.0
    requires TruncatesTo(y, code as real)
    requires y * scale == w
    ensures TruncatedWithinStep(Level(code, scale), w, scale)
  {
    var c := code as real;
    if y >= 0.0 {
      ScaledUp(y, c, scale, w);
    } else {
      ScaledDown(y, c, scale, w);
    }
    TruncatedBetween(c * scale, w, scale);
  }

  /** The non-negative case of TruncScaled. */
  lemma ScaledUp(y: real, c: real, scale: real, w: real)
    requires scale > 0.0
    requires 0.0 <= c <= y < c + 1.0
    requires y * scale == w
    ensures 0.0 <= c * scale <= w < c * scale + scale
  {
    MulLe(0.0, c, scale);
    assert 0.0 <= c * scale;
    MulLe(c, y, scale);
    assert c * scale <= w;
    calc {
      w;
      == y * scale;
      < { MulLt(y, c + 1.0, scale); }
      (c + 1.0) * scale;
      == c * scale + scale;
    }
  }

  /** The negative case of TruncScaled. */
  lemma ScaledDown(y: real, c: real, scale: real, w: real)
    requires scale > 0.0
    requires c - 1.0 < y <= c <= 0.0
    requires y * scale == w
    ensures c * scale - scale < w <= c * scale <= 0.0
  {
    MulLe(c, 0.0, scale);
    assert c * scale <= 0.0;
    MulLe(y, c, scale);
    assert w <= c * scale;
    calc {
      c * scale - scale;
      == (c - 1.0) * scale;
      < { MulLt(c - 1.0, y, scale); }
      y * scale;
      == w;
    }
  }

  /** One element truncated onto the grid of a positive step. */
  lemma CodeError(w: real, scale: real)
    requires scale > 0.0
    requires Fits(w, scale)
    ensures TruncatedWithinStep(Level(Code(w, scale), scale), w, scale)
  {
    DivTimes(w, scale);
    TruncScaled(w / scale, Code(w, scale), scale, w);
  }

  /** Dividing by a positive step and multiplying back gives the value. */
  lemma DivTimes(w: real, scale: real)
    requires scale > 0.0
    ensures (w / scale) * scale == w
  {
  }

  /** Element-wise truncation error of a tensor on the grid of a positive step. */
  lemma GridError(weight: seq<real>, scale: real)
    requires scale > 0.0
    requires forall i :: 0 <= i < |weight| ==> Fits(weight[i], scale)
    ensures var out := Rescale(Codes(weight, scale), scale);
            forall i :: 0 <= i < |weight| ==> TruncatedWithinStep(out[i], weight[i], scale)
  {
    var out := Rescale(Codes(weight, scale), scale);
    forall i | 0 <= i < |weight|
      ensures TruncatedWithinStep(out[i], weight[i], scale)
    {
      CodeError(weight[i], scale);
    }
  }

  /** With a positive scale, every output element is an int8 code in
      [-127, 127] times the layer's new scale, no larger in magnitude than the
      weight element, and less than one step away from it. */
  lemma QuantizeWeightOnGrid(nq: NaiveQuantizer, opName: string, weight: seq<real>)
    requires QuantizeWeight(nq, opName, weight).Ok?
    requires CallScale(nq, opName, weight) > 0.0
    ensures var r := QuantizeWeight(nq, opName, weight).value;
            var scale := r.1.layerScale[opName];
            && scale == CallScale(nq, opName, weight)
            && scale > 0.0
            && (forall i :: 0 <= i < |weight| ==> Fits(weight[i], scale))
            && r.0 == Rescale(Codes(weight, scale), scale)
            && (forall i :: 0 <= i < |weight| ==> -127 <= Codes(weight, scale)[i] <= 127)
            && forall i :: 0 <= i < |weight| ==> TruncatedWithinStep(r.0[i], weight[i], scale)
  {
    var scale := CallScale(nq, opName, weight);
    AllFit(weight, scale);
    GridError(weight, scale);
  }

  /** A grid point of at most 127 steps fits, and its code is its multiplier. */
  lemma CodeOfGridPoint(c: int, scale: real)
    requires scale > 0.0
    requires -127 <= c <= 127
    ensures Fits(Level(c, scale), scale)
    ensures Code(Level(c, scale), scale) == c
    ensures Abs(Level(c, scale)) <= 127.0 * scale
  {
    assert (c as real * scale) / scale == c as real;
    MulLe(-127.0, c as real, scale);
    MulLe(c as real, 127.0, scale);
    assert (-127.0) * scale == -(127.0 * scale);
    assert InBand(c as real * scale, 127.0 * scale);
    BandAbs(c as real * scale, 127.0 * scale);
  }

  /** Codes of a tensor already on the grid are its multipliers, and its
      largest magnitude is within 127 steps. */
  lemma CodesOfGrid(codes: seq<int>, scale: real)
    requires scale > 0.0
    requires forall i :: 0 <= i < |codes| ==> -127 <= codes[i] <= 127
    ensures forall i :: 0 <= i < |codes| ==> Fits(Rescale(codes, scale)[i], scale)
    ensures forall i :: 0 <= i < |codes| ==> Abs(Rescale(codes, scale)[i]) <= 127.0 * scale
    ensures Codes(Rescale(codes, scale), scale) == codes
  {
    var out := Rescale(codes, scale);
    forall i | 0 <= i < |codes|
      ensures Fits(out[i], scale) && Abs(out[i]) <= 127.0 * scale
    {
      CodeOfGridPoint(codes[i], scale);
    }
    var back := Codes(out, scale);
    forall i | 0 <= i < |codes|
      ensures back[i] == codes[i]
    {
      CodeOfGridPoint(codes[i], scale);
    }
  }

  /** Quantizing the output again on the same layer changes neither the
      output nor the stored scale. */
  lemma QuantizeWeightIdempotent(nq: NaiveQuantizer, opName: string, weight: seq<real>)
    requires QuantizeWeight(nq, opName, weight).Ok?
    ensures var (out, s) := QuantizeWeight(nq, opName, weight).value;
            QuantizeWeight(s, opName, out) == Ok((out, s))
  {
    if CallScale(nq, opName, weight) == 0.0 {
      ZeroScaleIdempotent(nq, opName, weight);
    } else {
      GridIdempotent(nq, opName, weight);
    }
  }

  /** QuantizeWeightIdempotent for a zero scale: zeros stay zeros. */
  lemma ZeroScaleIdempotent(nq: NaiveQuantizer, opName: string, weight: seq<real>)
    requires |weight| > 0
    requires CallScale(nq, opName, weight) == 0.0
    ensures var (out, s) := QuantizeWeight(nq, opName, weight).value;
            QuantizeWeight(s, opName, out) == Ok((out, s))
  {
    ZeroScaleKeepsWeight(nq, opName, weight);
    var s := NaiveQuantizer(nq.layerScale[opName := 0.0]);
    assert StoredScale(s, opName) == 0.0;
    ZeroScaleKeepsWeight(s, opName, weight);
    assert s.layerScale[opName := 0.0] == s.layerScale;
  }

  /** QuantizeWeightIdempotent for a positive scale: grid points keep their codes. */
  lemma GridIdempotent(nq: NaiveQuantizer, opName: string, weight: seq<real>)
    requires QuantizeWeight(nq, opName, weight).Ok?
    requires CallScale(nq, opName, weight) > 0.0
    ensures var (out, s) := QuantizeWeight(nq, opName, weight).value;
            QuantizeWeight(s, opName, out) == Ok((out, s))
  {
    var (out, s) := QuantizeWeight(nq, opName, weight).value;
    QuantizeWeightOnGrid(nq, opName, weight);
    var scale := s.layerScale[opName];
    var codes := Codes(weight, scale);
    CodesOfGrid(codes, scale);
    assert StoredScale(s, opName) == scale;
    assert MaxAbs(out) <= 127.0 * scale;
    assert MaxAbs(out) / 127.0 <= scale;
    assert CallScale(s, opName, out) == scale;
    assert s.layerScale[opName := scale] == s.layerScale;
  }

  /** On a layer without a stored scale, a weight that is not all zero gets
      the scale that puts its largest magnitude exactly at code 127, and that
      element comes back unchanged. */
  lemma FirstCallKeepsPeak(nq: NaiveQuantizer, opName: string, weight: seq<real>)
    requires opName !in nq.layerScale
    requires |weight| > 0 && MaxAbs(weight) > 0.0
    ensures QuantizeWeight(nq, opName, weight).Ok?
    ensures var (out, s) := QuantizeWeight(nq, opName, weight).value;
            && s.layerScale[opName] == MaxAbs(weight) / 127.0
            && exists j :: 0 <= j < |weight| && Abs(weight[j]) == MaxAbs(weight) && out[j] == weight[j]
  {
    var scale := MaxAbs(weight) / 127.0;
    assert CallScale(nq, opName, weight) == scale;
    var out := QuantizeWeight(nq, opName, weight).value.0;
    QuantizeWeightOnGrid(nq, opName, weight);
    var j :| 0 <= j < |weight| && MaxAbs(weight) == Abs(weight[j]);
    PeakCode(weight[j], scale);
    assert out[j] == Level(Codes(weight, scale)[j], scale);
  }

  /** An element of magnitude 127 steps is on the grid: code ±127, exactly. */
  lemma PeakCode(w: real, scale: real)
    requires scale > 0.0
    requires Abs(w) == 127.0 * scale
    ensures Fits(w, scale)
    ensures Level(Code(w, scale), scale) == w
  {
    if w >= 0.0 {
      assert w / scale == 127.0;
    } else {
      assert w / scale == -127.0;
    }
  }

  /** A sequence of calls, each naming a layer and a weight; the first error stops it. */
  function Run(nq: NaiveQuantizer, calls: seq<(string, seq<real>)>): Result<NaiveQuantizer>
    decreases |calls|
  {
    if |calls| == 0 then Ok(nq)
    else
      match QuantizeWeight(nq, calls[0].0, calls[0].1)
      case Err(e) => Err(e)
      case Ok((_, next)) => Run(next, calls[1..])
  }

  /** Every scale of `a` is present in `b` and no larger there. */
  ghost predicate NoneShrunk(a: NaiveQuantizer, b: NaiveQuantizer)
  {
    forall k :: k in a.layerScale ==> k in b.layerScale && a.layerScale[k] <= b.layerScale[k]
  }

  /** Over any successful sequence of calls the stored scales only widen. */
  lemma {:induction false} RunWidens(nq: NaiveQuantizer, calls: seq<(string, seq<real>)>)
    requires Run(nq, calls).Ok?
    ensures NoneShrunk(nq, Run(nq, calls).value)
    decreases |calls|
  {
    if |calls| > 0 {
      var next := QuantizeWeight(nq, calls[0].0, calls[0].1).value.1;
      QuantizeWeightWidens(nq, calls[0].0, calls[0].1);
      assert NoneShrunk(nq, next);
      RunWidens(next, calls[1..]);
    }
  }
}
