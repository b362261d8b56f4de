/**
 * Boxes, box lists with their attached per-box fields, two-dimensional tensors,
 * and the tensor primitives the loss code relies on: gathering by an index list,
 * concatenation along the first dimension and `nonzero` of a boolean mask.
 */
module Structures {
  import opened Outcomes

  /** A box in corner form. */
  datatype Box = Box(x1: real, y1: real, x2: real, y2: real)

  /** One regression target, as produced by the box coder. */
  datatype Delta = Delta(dx: real, dy: real, dw: real, dh: real)

  /**
   * One named field slot of a box list: not attached, attached while holding
   * None, or attached with one value per box.
   */
  datatype Field<T> = Absent | NoneValue | Tensor(values: seq<T>)

  /**
   * A box list restricted to the three fields this core reads or writes:
   * "labels", "regression_targets" and "matched_idxs".
   */
  datatype BoxList = BoxList(bbox: seq<Box>, labels: Field<int>, regressionTargets: Field<Delta>, matchedIdxs: Field<int>)

  /** A two-dimensional tensor: a list of rows, each meant to hold `width` entries. */
  datatype Tensor2 = Tensor2(width: nat, rows: seq<seq<real>>)

  predicate Fits<T>(f: Field<T>, n: nat) {
    f.Tensor? ==> |f.values| == n
  }

  /** Every attached tensor field has one entry per box. */
  predicate WellFormed(b: BoxList) {
    Fits(b.labels, |b.bbox|) && Fits(b.regressionTargets, |b.bbox|) && Fits(b.matchedIdxs, |b.bbox|)
  }

  predicate AllWellFormed(bs: seq<BoxList>) {
    forall i :: 0 <= i < |bs| ==> WellFormed(bs[i])
  }

  /** Some attached field holds None. */
  predicate HoldsNone(b: BoxList) {
    b.labels.NoneValue? || b.regressionTargets.NoneValue? || b.matchedIdxs.NoneValue?
  }

  predicate Rectangular(t: Tensor2) {
    forall row :: row in t.rows ==> |row| == t.width
  }

  predicate InRange(idx: seq<nat>, n: nat) {
    forall k :: 0 <= k < |idx| ==> idx[k] < n
  }

  predicate StrictlyIncreasing(idx: seq<nat>) {
    forall a, b :: 0 <= a < b < |idx| ==> idx[a] < idx[b]
  }

  /** `s[idx]`: the entries of `s` at the given positions, in the given order. */
  function Gather<T>(s: seq<T>, idx: seq<nat>): seq<T>
    requires InRange(idx, |s|)
  {
    seq(|idx|, k requires 0 <= k < |idx| => s[idx[k]])
  }

  function GatherField<T>(f: Field<T>, idx: seq<nat>): Field<T>
    requires f.Tensor? ==> InRange(idx, |f.values|)
  {
    if f.Tensor? then Tensor(Gather(f.values, idx)) else f
  }

  /**
   * Indexing a box list by an index list: the boxes and every attached field
   * are re-indexed by the same positions. An index past the end raises an
   * IndexError; a field holding None cannot be indexed.
   */
  function Index(b: BoxList, idx: seq<nat>): (r: Result<BoxList>)
    requires WellFormed(b)
    ensures r.Ok? <==> InRange(idx, |b.bbox|) && !HoldsNone(b)
    ensures r.Err? ==> r.error == if InRange(idx, |b.bbox|) then NoneTensor else IndexOutOfRange
    ensures r.Ok? ==> WellFormed(r.value) && |r.value.bbox| == |idx|
    ensures r.Ok? ==> forall k :: 0 <= k < |idx| ==> r.value.bbox[k] == b.bbox[idx[k]]
    ensures r.Ok? ==> (r.value.labels == GatherField(b.labels, idx) &&
                       r.value.regressionTargets == GatherField(b.regressionTargets, idx) &&
                       r.value.matchedIdxs == GatherField(b.matchedIdxs, idx))
  {
    if !InRange(idx, |b.bbox|) then Err(IndexOutOfRange)
    else if HoldsNone(b) then Err(NoneTensor)
    else Ok(BoxList(Gather(b.bbox, idx), GatherField(b.labels, idx),
                    GatherField(b.regressionTargets, idx), GatherField(b.matchedIdxs, idx)))
  }

  /** Concatenation along the first dimension, parts in order. */
  function Flatten<T>(parts: seq<seq<T>>): seq<T> {
    if parts == [] then [] else Flatten(parts[..|parts| - 1]) + parts[|parts| - 1]
  }

  function Sum(xs: seq<nat>): nat {
    if xs == [] then 0 else Sum(xs[..|xs| - 1]) + xs[|xs| - 1]
  }

  function Lengths<T>(parts: seq<seq<T>>): (r: seq<nat>)
    ensures |r| == |parts|
  {
    seq(|parts|, i requires 0 <= i < |parts| => |parts[i]|)
  }

  /** The concatenation is as long as all parts together. */
  lemma {:induction false} FlattenLength<T>(parts: seq<seq<T>>)
    ensures |Flatten(parts)| == Sum(Lengths(parts))
  {
    if parts != [] {
      var init := parts[..|parts| - 1];
      FlattenLength(init);
      assert Lengths(parts)[..|parts| - 1] == Lengths(init);
    }
  }

  /**
   * Image-major order: entry `k` of part `i` sits in the concatenation right
   * after everything of parts 0..i-1.
   */
  lemma {:induction false} FlattenAt<T>(parts: seq<seq<T>>, i: nat, k: nat)
    requires i < |parts| && k < |parts[i]|
    ensures |Flatten(parts[..i])| + k < |Flatten(parts)|
    ensures Flatten(parts)[|Flatten(parts[..i])| + k] == parts[i][k]
  {
    var init := parts[..|parts| - 1];
    if i == |parts| - 1 {
      assert init == parts[..i];
    } else {
      FlattenAt(init, i, k);
      assert init[..i] == parts[..i];
    }
  }

  /** Every row of a concatenation comes from one of the parts. */
  lemma {:induction false} FlattenMember<T>(parts: seq<seq<T>>, x: T)
    requires x in Flatten(parts)
    ensures exists i :: 0 <= i < |parts| && x in parts[i]
  {
    var init := parts[..|parts| - 1];
    if x in Flatten(init) {
      FlattenMember(init, x);
      var i :| 0 <= i < |init| && x in init[i];
      assert parts[i] == init[i];
    } else {
      assert x in parts[|parts| - 1];
    }
  }

  /** `torch.nonzero(mask)`: the positions where the mask is true, in increasing order. */
  function NonZero(mask: seq<bool>): seq<nat> {
    if mask == [] then []
    else NonZero(mask[..|mask| - 1]) + (if mask[|mask| - 1] then [|mask| - 1] else [])
  }

  /** `nonzero` yields exactly the true positions, each once, strictly increasing. */
  lemma {:induction false} NonZeroSpec(mask: seq<bool>)
    ensures InRange(NonZero(mask), |mask|)
    ensures StrictlyIncreasing(NonZero(mask))
    ensures forall x :: x in NonZero(mask) <==> 0 <= x < |mask| && mask[x]
  {
    if mask != [] {
      var init := mask[..|mask| - 1];
      NonZeroSpec(init);
      assert forall x :: 0 <= x < |init| ==> init[x] == mask[x];
    }
  }
}
