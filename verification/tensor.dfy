/** Tensors as flat sequences of reals: the reductions `torch.min`,
    `torch.max` and `abs().max()` that the quantizers apply to whole tensors.
    Shapes play no part in any of the quantizers, so they are not modelled. */
module Tensor {
  import opened RealArith

  type Tensor = seq<real>

  /** torch.min over a non-empty tensor. */
  function Min(t: Tensor): (m: real)
    requires |t| > 0
    ensures m in t
    ensures forall i :: 0 <= i < |t| ==> m <= t[i]
  {
    if |t| == 1 then t[0]
    else
      var rest := Min(t[..|t| - 1]);
      assert rest in t;
      MinR(rest, t[|t| - 1])
  }

  /** torch.max over a non-empty tensor. */
  function Max(t: Tensor): (m: real)
    requires |t| > 0
    ensures m in t
    ensures forall i :: 0 <= i < |t| ==> t[i] <= m
  {
    if |t| == 1 then t[0]
    else
      var rest := Max(t[..|t| - 1]);
      assert rest in t;
      MaxR(rest, t[|t| - 1])
  }

  /** `t.abs().max()`: the largest magnitude in a non-empty tensor. */
  function MaxAbs(t: Tensor): (m: real)
    requires |t| > 0
    ensures m >= 0.0
    ensures exists i :: 0 <= i < |t| && m == Abs(t[i])
    ensures forall i :: 0 <= i < |t| ==> Abs(t[i]) <= m
  {
    if |t| == 1 then Abs(t[0])
    else
      var rest := MaxAbs(t[..|t| - 1]);
      assert forall i :: 0 <= i < |t| - 1 ==> t[..|t| - 1][i] == t[i];
      MaxR(rest, Abs(t[|t| - 1]))
  }

  /** The element-by-element reduction a batched kernel must agree with:
      a left-to-right scan that keeps the running minimum. */
  method ReduceMin(t: Tensor) returns (m: real)
    requires |t| > 0
    ensures m == Min(t)
  {
    m := t[0];
    var i := 1;
    while i < |t|
      invariant 1 <= i <= |t|
      invariant m == Min(t[..i])
    {
      assert t[..i + 1][..i] == t[..i];
      m := MinR(m, t[i]);
      i := i + 1;
    }
    assert t[..|t|] == t;
  }

  /** The running-maximum scan, the partner of ReduceMin. */
  method ReduceMax(t: Tensor) returns (m: real)
    requires |t| > 0
    ensures m == Max(t)
  {
    m := t[0];
    var i := 1;
    while i < |t|
      invariant 1 <= i <= |t|
      invariant m == Max(t[..i])
    {
      assert t[..i + 1][..i] == t[..i];
      m := MaxR(m, t[i]);
      i := i + 1;
    }
    assert t[..|t|] == t;
  }
}
