/**
  Tensor arithmetic that the collectives are specified by.

  A tensor is a fixed-length sequence of reals: the shape of a tensor is
  flattened to its length, and floating-point rounding is not modelled.
  A group's contributions are a sequence of tensors indexed by rank.
 */
module Tensors {

  type Tensor = seq<real>

  /** All contributions have the same shape (the transport's precondition). */
  predicate SameShape(ts: seq<Tensor>)
  {
    forall i :: 0 <= i < |ts| ==> |ts[i]| == |ts[0]|
  }

  /** Element `k` summed over every contribution, in rank order. */
  function ColumnSum(ts: seq<Tensor>, k: nat): (total: real)
    requires forall i :: 0 <= i < |ts| ==> k < |ts[i]|
  {
    if ts == [] then 0.0 else ColumnSum(ts[..|ts| - 1], k) + ts[|ts| - 1][k]
  }

  /** The element-wise sum of the contributions. */
  function Sum(ts: seq<Tensor>): (r: Tensor)
    requires |ts| >= 1 && SameShape(ts)
    ensures |r| == |ts[0]|
  {
    seq(|ts[0]|, k requires 0 <= k < |ts[0]| => ColumnSum(ts, k))
  }

  /** The element-wise average of the contributions: the sum divided by the group size. */
  function Mean(ts: seq<Tensor>): (r: Tensor)
    requires |ts| >= 1 && SameShape(ts)
    ensures |r| == |ts[0]|
  {
    seq(|ts[0]|, k requires 0 <= k < |ts[0]| => ColumnSum(ts, k) / (|ts| as real))
  }

  /** Element-wise addition of two tensors of the same shape. */
  function Add(a: Tensor, b: Tensor): (r: Tensor)
    requires |a| == |b|
    ensures |r| == |a|
    ensures forall k :: 0 <= k < |r| ==> r[k] == a[k] + b[k]
  {
    seq(|a|, k requires 0 <= k < |a| => a[k] + b[k])
  }

  /** Element-wise division by a non-zero scalar (`tensor /= d`, `tensor.div_(d)`). */
  function Divide(t: Tensor, d: real): (r: Tensor)
    requires d != 0.0
    ensures |r| == |t|
    ensures forall k :: 0 <= k < |r| ==> r[k] * d == t[k]
  {
    seq(|t|, k requires 0 <= k < |t| => t[k] / d)
  }

  /** The mean is an average and not a total: scaled back by the group size it is the sum. */
  lemma MeanIsSumOverSize(ts: seq<Tensor>)
    requires |ts| >= 1 && SameShape(ts)
    ensures Divide(Sum(ts), |ts| as real) == Mean(ts)
    ensures forall k :: 0 <= k < |ts[0]| ==> Mean(ts)[k] * (|ts| as real) == Sum(ts)[k]
  {
  }

  /** Summing a concatenation of two groups of contributions splits into two sums. */
  lemma {:induction false} ColumnSumAppend(a: seq<Tensor>, b: seq<Tensor>, k: nat)
    requires forall i :: 0 <= i < |a| ==> k < |a[i]|
    requires forall i :: 0 <= i < |b| ==> k < |b[i]|
    ensures forall i :: 0 <= i < |a + b| ==> k < |(a + b)[i]|
    ensures ColumnSum(a + b, k) == ColumnSum(a, k) + ColumnSum(b, k)
  {
    if b == [] {
      assert a + b == a;
    } else {
      var ab := a + b;
      assert ab[..|ab| - 1] == a + b[..|b| - 1];
      ColumnSumAppend(a, b[..|b| - 1], k);
    }
  }

  /** Swapping two blocks of contributions leaves the average unchanged. */
  lemma MeanOfSwappedBlocks(a: seq<Tensor>, b: seq<Tensor>)
    requires |a| >= 1 && |b| >= 1 && SameShape(a + b)
    ensures SameShape(b + a) && Mean(a + b) == Mean(b + a)
  {
    var n := |a[0]|;
    assert (a + b)[0] == a[0];
    assert forall i :: 0 <= i < |a| ==> a[i] == (a + b)[i];
    assert forall i :: 0 <= i < |b| ==> b[i] == (a + b)[|a| + i];
    assert (b + a)[0] == b[0];
    forall k | 0 <= k < n
      ensures ColumnSum(a + b, k) == ColumnSum(b + a, k)
    {
      ColumnSumAppend(a, b, k);
      ColumnSumAppend(b, a, k);
    }
  }

  /** Summing `m` copies of one tensor multiplies each element by `m`. */
  lemma {:induction false} ColumnSumOfCopies(ts: seq<Tensor>, t: Tensor, k: nat)
    requires k < |t|
    requires forall i :: 0 <= i < |ts| ==> ts[i] == t
    ensures ColumnSum(ts, k) == (|ts| as real) * t[k]
  {
    if ts != [] {
      ColumnSumOfCopies(ts[..|ts| - 1], t, k);
    }
  }

  /** When every rank contributes the same tensor, the average is that tensor. */
  lemma MeanOfCopies(ts: seq<Tensor>, t: Tensor)
    requires |ts| >= 1
    requires forall i :: 0 <= i < |ts| ==> ts[i] == t
    ensures SameShape(ts) && Mean(ts) == t
  {
    forall k | 0 <= k < |t|
      ensures Mean(ts)[k] == t[k]
    {
      ColumnSumOfCopies(ts, t, k);
    }
  }

  /** A group of one averages to its own contribution. */
  lemma MeanOfOne(t: Tensor)
    ensures SameShape([t]) && Mean([t]) == t
  {
    MeanOfCopies([t], t);
  }
}
