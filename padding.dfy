/**
 * The padding filter that opens every box loss: with `ignore_zero` set, the
 * rows of `output` and `target` are kept exactly where the target row has a
 * strictly positive coordinate, `(target > 0).any(-1)`, and the same mask is
 * applied to both tensors.
 */
module Padding {
  import opened Geometry

  /** `(row > 0).any(-1)` for one row. A row whose coordinates are all <= 0
      (not only the all-zero sentinel) fails it. */
  predicate HasPositive(b: Box)
  {
    b.x1 > 0.0 || b.y1 > 0.0 || b.x2 > 0.0 || b.y2 > 0.0
  }

  /** The boolean row mask, computed from the target alone. */
  function Mask(target: seq<Box>): (m: seq<bool>)
    ensures |m| == |target|
  {
    seq(|target|, i requires 0 <= i < |target| => HasPositive(target[i]))
  }

  /** Boolean-mask indexing `s[m]`: the elements of `s` whose mask entry is true,
      in their original order. */
  function Select<T>(s: seq<T>, m: seq<bool>): seq<T>
    requires |s| == |m|
  {
    if s == [] then []
    else
      var n := |s| - 1;
      Select(s[..n], m[..n]) + (if m[n] then [s[n]] else [])
  }

  /** The positions at which `m` is true: strictly increasing, and exactly the
      true positions. */
  function Indices(m: seq<bool>): (r: seq<nat>)
    ensures forall k :: 0 <= k < |r| ==> r[k] < |m| && m[r[k]]
    ensures forall k, l :: 0 <= k < l < |r| ==> r[k] < r[l]
    ensures forall i :: 0 <= i < |m| && m[i] ==> i in r
  {
    if m == [] then []
    else
      var n := |m| - 1;
      var init := Indices(m[..n]);
      if m[n] then init + [n] else init
  }

  /** Mask indexing is the gather of the true positions: position `k` of
      `s[m]` is `s` at the `k`-th true position of `m`. */
  lemma {:induction false} SelectAt<T>(s: seq<T>, m: seq<bool>)
    requires |s| == |m|
    ensures |Select(s, m)| == |Indices(m)|
    ensures forall k :: 0 <= k < |Indices(m)| ==> Select(s, m)[k] == s[Indices(m)[k]]
  {
    if s != [] {
      var n := |s| - 1;
      SelectAt(s[..n], m[..n]);
      forall k | 0 <= k < |Indices(m[..n])|
        ensures s[..n][Indices(m[..n])[k]] == s[Indices(m[..n])[k]]
      {
      }
    }
  }

  /** A mask that is true everywhere selects everything. */
  lemma {:induction false} SelectAll<T>(s: seq<T>, m: seq<bool>)
    requires |s| == |m|
    requires forall i :: 0 <= i < |m| ==> m[i]
    ensures Select(s, m) == s
  {
    if s != [] {
      var n := |s| - 1;
      SelectAll(s[..n], m[..n]);
      assert s == s[..n] + [s[n]];
    }
  }

  /** The original indices of the rows that survive filtering. */
  function Kept(target: seq<Box>): seq<nat>
  {
    Indices(Mask(target))
  }

  /** A row survives iff its target row has a strictly positive coordinate;
      the surviving indices are in increasing order. */
  lemma KeptExactly(target: seq<Box>)
    ensures forall k :: 0 <= k < |Kept(target)| ==> Kept(target)[k] < |target|
    ensures forall i :: 0 <= i < |target| ==> (i in Kept(target) <==> HasPositive(target[i]))
    ensures forall k, l :: 0 <= k < l < |Kept(target)| ==> Kept(target)[k] < Kept(target)[l]
  {
  }

  /** The filtering step shared by all four box losses (the rebinding of
      `output` and `target` at the head of each). */
  function Filter(output: seq<Box>, target: seq<Box>, ignoreZero: bool): (r: (seq<Box>, seq<Box>))
    requires |output| == |target|
    ensures |r.0| == |r.1|
    ensures !ignoreZero ==> r.0 == output && r.1 == target
    ensures ignoreZero ==>
      && |r.1| == |Kept(target)|
      && forall k :: 0 <= k < |r.1| ==>
           r.0[k] == output[Kept(target)[k]] && r.1[k] == target[Kept(target)[k]]
    ensures ignoreZero ==> forall k :: 0 <= k < |r.1| ==> HasPositive(r.1[k])
  {
    if ignoreZero then
      var m := Mask(target);
      SelectAt(output, m);
      SelectAt(target, m);
      (Select(output, m), Select(target, m))
    else
      (output, target)
  }

  /** Which rows survive, and the filtered target, do not depend on the
      prediction at all. */
  lemma DecisionIgnoresOutput(output1: seq<Box>, output2: seq<Box>, target: seq<Box>, ignoreZero: bool)
    requires |output1| == |target| && |output2| == |target|
    ensures Filter(output1, target, ignoreZero).1 == Filter(output2, target, ignoreZero).1
    ensures |Filter(output1, target, ignoreZero).0| == |Filter(output2, target, ignoreZero).0|
  {
  }

  /** Filtering a pair that has already been filtered changes nothing. */
  lemma FilterIdempotent(output: seq<Box>, target: seq<Box>, ignoreZero: bool)
    requires |output| == |target|
    ensures var r := Filter(output, target, ignoreZero);
            Filter(r.0, r.1, ignoreZero) == r
  {
    var r := Filter(output, target, ignoreZero);
    if ignoreZero {
      var m := Mask(r.1);
      SelectAll(r.0, m);
      SelectAll(r.1, m);
    }
  }

  /** When no target row is padding, `ignore_zero` makes no difference. */
  lemma NoPaddingNoEffect(output: seq<Box>, target: seq<Box>)
    requires |output| == |target|
    requires forall i :: 0 <= i < |target| ==> HasPositive(target[i])
    ensures Filter(output, target, true) == Filter(output, target, false)
  {
    SelectAll(output, Mask(target));
    SelectAll(target, Mask(target));
  }

  /** The mask drops more than the all-zero sentinel: any target row with no
      positive coordinate, `(-0.5, 0, 0, 0)` for one, is dropped together with
      its prediction row, whatever that prediction is. */
  lemma NonPositiveRowDropped(p: Box, t: Box)
    requires !HasPositive(t)
    ensures Filter([p], [t], true) == ([], [])
  {
    assert !Mask([t])[0];
    assert Select([t], Mask([t])) == Select([t][..0], Mask([t])[..0]);
    assert Select([p], Mask([t])) == Select([p][..0], Mask([t])[..0]);
  }
}
