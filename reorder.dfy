/**
 * Order independence. Reordering the slots of one sample (the prediction and
 * the target sequence by the same permutation) leaves the complete and the
 * tile IoU loss unchanged, and reordering the samples of a batch leaves
 * `batch_mean` unchanged. "The same permutation" is stated as: the two
 * sequences of (prediction, target) pairs hold the same multiset of pairs.
 */
module Reorder {
  import opened Geometry
  import opened Stats
  import opened Padding
  import opened Losses
  import opened Batch

  function Zip<X, Y>(a: seq<X>, b: seq<Y>): (z: seq<(X, Y)>)
    requires |a| == |b|
    ensures |z| == |b|
    ensures forall i :: 0 <= i < |b| ==> z[i] == (a[i], b[i])
  {
    seq(|b|, i requires 0 <= i < |b| => (a[i], b[i]))
  }

  function MapSeq<T, U>(f: T --> U, s: seq<T>): (r: seq<U>)
    requires forall i :: 0 <= i < |s| ==> f.requires(s[i])
    ensures |r| == |s|
    ensures forall i :: 0 <= i < |s| ==> r[i] == f(s[i])
  {
    seq(|s|, i requires 0 <= i < |s| => f(s[i]))
  }

  /** Mapping a function over two reorderings of one sequence gives two
      reorderings of one sequence. */
  lemma {:induction false} MapPermutation<T, U>(f: T --> U, a: seq<T>, b: seq<T>)
    requires multiset(a) == multiset(b)
    requires forall i :: 0 <= i < |a| ==> f.requires(a[i])
    requires forall i :: 0 <= i < |b| ==> f.requires(b[i])
    ensures multiset(MapSeq(f, a)) == multiset(MapSeq(f, b))
    decreases |a|
  {
    if a != [] {
      assert a[0] in multiset(b);
      var j :| 0 <= j < |b| && b[j] == a[0];
      TailMatchesRemoval(a, b, j);
      MapRemoveAt(f, b, j);
      MapPermutation(f, a[1..], RemoveAt(b, j));
      ConsMatchesRemoval(f, a, b, j);
    }
  }

  lemma TailMatchesRemoval<T>(a: seq<T>, b: seq<T>, j: nat)
    requires multiset(a) == multiset(b) && a != [] && j < |b| && b[j] == a[0]
    ensures multiset(a[1..]) == multiset(RemoveAt(b, j))
  {
    assert a == [a[0]] + a[1..];
    assert multiset(a[1..]) == multiset(a) - multiset{a[0]};
  }

  lemma ConsMatchesRemoval<T, U>(f: T --> U, a: seq<T>, b: seq<T>, j: nat)
    requires a != [] && j < |b| && b[j] == a[0]
    requires forall i :: 0 <= i < |a| ==> f.requires(a[i])
    requires forall i :: 0 <= i < |b| ==> f.requires(b[i])
    requires forall i :: 0 <= i < |RemoveAt(b, j)| ==> f.requires(RemoveAt(b, j)[i])
    requires multiset(MapSeq(f, a[1..])) == multiset(MapSeq(f, RemoveAt(b, j)))
    requires MapSeq(f, RemoveAt(b, j)) == RemoveAt(MapSeq(f, b), j)
    ensures multiset(MapSeq(f, a)) == multiset(MapSeq(f, b))
  {
    var fa, fb, tail := MapSeq(f, a), MapSeq(f, b), MapSeq(f, a[1..]);
    assert multiset(tail) == multiset(fb) - multiset{fb[j]};
    assert fa == [fb[j]] + tail;
    Restore(multiset(fb), fb[j]);
  }

  lemma MapRemoveAt<T, U>(f: T --> U, b: seq<T>, j: nat)
    requires j < |b|
    requires forall i :: 0 <= i < |b| ==> f.requires(b[i])
    ensures forall i :: 0 <= i < |RemoveAt(b, j)| ==> f.requires(RemoveAt(b, j)[i])
    ensures MapSeq(f, RemoveAt(b, j)) == RemoveAt(MapSeq(f, b), j)
  {
  }

  lemma Restore<T>(m: multiset<T>, x: T)
    requires x in m
    ensures multiset{x} + (m - multiset{x}) == m
  {
  }

  // ---------------------------------------------------------------------------
  // The padding filter on pairs.

  /** The target-only keep mask, read off the pairs. */
  function TargetMask(z: seq<(Box, Box)>): (m: seq<bool>)
    ensures |m| == |z|
  {
    seq(|z|, i requires 0 <= i < |z| => HasPositive(z[i].1))
  }

  /** Filtering both sequences with one mask is filtering their pairs. */
  lemma {:induction false} ZipSelect(o: seq<Box>, t: seq<Box>, m: seq<bool>)
    requires |o| == |t| == |m|
    ensures |Select(o, m)| == |Select(t, m)|
    ensures Zip(Select(o, m), Select(t, m)) == Select(Zip(o, t), m)
  {
    SelectAt(o, m);
    SelectAt(t, m);
    if o != [] {
      var n := |o| - 1;
      ZipSelect(o[..n], t[..n], m[..n]);
      assert Zip(o, t)[..n] == Zip(o[..n], t[..n]);
    }
  }

  /** How often a pair occurs after filtering: as often as before if its target
      row is kept, never otherwise. */
  lemma {:induction false} SelectCount(z: seq<(Box, Box)>, x: (Box, Box))
    ensures multiset(Select(z, TargetMask(z)))[x] == if HasPositive(x.1) then multiset(z)[x] else 0
  {
    if z != [] {
      var n := |z| - 1;
      assert TargetMask(z)[..n] == TargetMask(z[..n]);
      SelectCount(z[..n], x);
      assert z == z[..n] + [z[n]];
    }
  }

  /** The filtered pairs of a sample. */
  function FilteredPairs(o: seq<Box>, t: seq<Box>, ignoreZero: bool): (z: seq<(Box, Box)>)
    requires |o| == |t|
    ensures z == Zip(Filter(o, t, ignoreZero).0, Filter(o, t, ignoreZero).1)
    ensures ignoreZero ==> z == Select(Zip(o, t), TargetMask(Zip(o, t)))
    ensures !ignoreZero ==> z == Zip(o, t)
  {
    var f := Filter(o, t, ignoreZero);
    if ignoreZero then
      ZipSelect(o, t, Mask(t));
      assert Mask(t) == TargetMask(Zip(o, t));
      Zip(f.0, f.1)
    else
      Zip(f.0, f.1)
  }

  /** Filtering commutes with reordering the pairs. */
  lemma FilterReorder(o1: seq<Box>, t1: seq<Box>, o2: seq<Box>, t2: seq<Box>, ignoreZero: bool)
    requires |o1| == |t1| && |o2| == |t2|
    requires multiset(Zip(o1, t1)) == multiset(Zip(o2, t2))
    ensures multiset(FilteredPairs(o1, t1, ignoreZero)) == multiset(FilteredPairs(o2, t2, ignoreZero))
  {
    if ignoreZero {
      var z1, z2 := Zip(o1, t1), Zip(o2, t2);
      forall x ensures multiset(Select(z1, TargetMask(z1)))[x] == multiset(Select(z2, TargetMask(z2)))[x] {
        SelectCount(z1, x);
        SelectCount(z2, x);
      }
      assert multiset(Select(z1, TargetMask(z1))) == multiset(Select(z2, TargetMask(z2)));
    }
  }

  // ---------------------------------------------------------------------------
  // The losses read through the pairs.

  function First(p: (Box, Box)): Box { p.0 }

  function Second(p: (Box, Box)): Box { p.1 }

  /** The complete IoU term of one (prediction, target) pair. */
  function PairCiou(g: Geometry): (f: ((Box, Box)) --> real)
    ensures forall p: (Box, Box) :: CiouDefined(g, p.1, p.0) ==> f.requires(p)
    ensures forall p: (Box, Box) :: CiouDefined(g, p.1, p.0) ==> f(p) == CiouTerm(g, p.1, p.0)
  {
    (p: (Box, Box)) requires CiouDefined(g, p.1, p.0) => CiouTerm(g, p.1, p.0)
  }

  /** Two reorderings of one multiset of pairs: sizes, prediction and target
      boxes, definedness and the mean complete IoU term agree. */
  lemma PairsReorder(g: Geometry, z1: seq<(Box, Box)>, z2: seq<(Box, Box)>)
    requires multiset(z1) == multiset(z2)
    requires forall i :: 0 <= i < |z1| ==> CiouDefined(g, z1[i].1, z1[i].0)
    ensures |z1| == |z2|
    ensures multiset(MapSeq(First, z1)) == multiset(MapSeq(First, z2))
    ensures multiset(MapSeq(Second, z1)) == multiset(MapSeq(Second, z2))
    ensures forall i :: 0 <= i < |z2| ==> CiouDefined(g, z2[i].1, z2[i].0)
    ensures |z1| > 0 ==> Mean(MapSeq(PairCiou(g), z1)) == Mean(MapSeq(PairCiou(g), z2))
  {
    assert |multiset(z1)| == |z1| && |multiset(z2)| == |z2|;
    forall i | 0 <= i < |z2| ensures CiouDefined(g, z2[i].1, z2[i].0) {
      assert z2[i] in multiset(z1);
      var k :| 0 <= k < |z1| && z1[k] == z2[i];
    }
    MapPermutation(First, z1, z2);
    MapPermutation(Second, z1, z2);
    if |z1| > 0 {
      MapPermutation(PairCiou(g), z1, z2);
      MeanPermutation(MapSeq(PairCiou(g), z1), MapSeq(PairCiou(g), z2));
    }
  }

  /** The filtered prediction and target sequences and the complete IoU terms
      are read off the filtered pairs. */
  lemma FilteredViaPairs(g: Geometry, o: seq<Box>, t: seq<Box>, ignoreZero: bool)
    requires |o| == |t|
    ensures var f, z := Filter(o, t, ignoreZero), FilteredPairs(o, t, ignoreZero);
            && f.0 == MapSeq(First, z) && f.1 == MapSeq(Second, z)
            && (AllCiouDefined(g, f.0, f.1) <==> forall i :: 0 <= i < |z| ==> CiouDefined(g, z[i].1, z[i].0))
            && (AllCiouDefined(g, f.0, f.1) ==> CiouTerms(g, f.0, f.1) == MapSeq(PairCiou(g), z))
  {
  }

  /** `complete_iou_loss` is unchanged when prediction and target are
      reordered by the same permutation. */
  lemma CiouLossReorderInvariant(g: Geometry, o1: seq<Box>, t1: seq<Box>, o2: seq<Box>, t2: seq<Box>, ignoreZero: bool)
    requires |o1| == |t1| && |o2| == |t2|
    requires multiset(Zip(o1, t1)) == multiset(Zip(o2, t2))
    requires CiouReady(g, o1, t1, ignoreZero)
    ensures CiouReady(g, o2, t2, ignoreZero)
    ensures CompleteIouLoss(g, o1, t1, ignoreZero) == CompleteIouLoss(g, o2, t2, ignoreZero)
  {
    var z1, z2 := FilteredPairs(o1, t1, ignoreZero), FilteredPairs(o2, t2, ignoreZero);
    FilterReorder(o1, t1, o2, t2, ignoreZero);
    FilteredViaPairs(g, o1, t1, ignoreZero);
    FilteredViaPairs(g, o2, t2, ignoreZero);
    PairsReorder(g, z1, z2);
  }

  /** `tile_iou_loss` is unchanged when prediction and target are reordered by
      the same permutation, given order-free sequence primitives. */
  lemma TileLossReorderInvariant(g: Geometry, o1: seq<Box>, t1: seq<Box>, o2: seq<Box>, t2: seq<Box>, ignoreZero: bool)
    requires |o1| == |t1| && |o2| == |t2|
    requires multiset(Zip(o1, t1)) == multiset(Zip(o2, t2))
    requires OrderFree(g)
    requires TileReady(g, o1, t1, ignoreZero)
    ensures TileReady(g, o2, t2, ignoreZero)
    ensures TileIouLoss(g, o1, t1, ignoreZero) == TileIouLoss(g, o2, t2, ignoreZero)
  {
    CiouLossReorderInvariant(g, o1, t1, o2, t2, ignoreZero);
    var f1, f2 := Filter(o1, t1, ignoreZero), Filter(o2, t2, ignoreZero);
    var z1, z2 := FilteredPairs(o1, t1, ignoreZero), FilteredPairs(o2, t2, ignoreZero);
    FilterReorder(o1, t1, o2, t2, ignoreZero);
    FilteredViaPairs(g, o1, t1, ignoreZero);
    FilteredViaPairs(g, o2, t2, ignoreZero);
    PairsReorder(g, z1, z2);
    SeqLossReorder(g, f1.0, f1.1, f2.0, f2.1);
  }

  /** The sequence term of the tile loss depends on the two box sequences only
      as multisets. */
  lemma SeqLossReorder(g: Geometry, o1: seq<Box>, t1: seq<Box>, o2: seq<Box>, t2: seq<Box>)
    requires OrderFree(g)
    requires multiset(o1) == multiset(o2) && multiset(t1) == multiset(t2)
    requires SeqDefined(g, o1, t1)
    ensures SeqDefined(g, o2, t2)
    ensures SeqLoss(g, o1, t1) == SeqLoss(g, o2, t2)
  {
    TileScoreReorder(g, o1, o2);
    TileScoreReorder(g, t1, t2);
  }

  lemma TileScoreReorder(g: Geometry, s1: seq<Box>, s2: seq<Box>)
    requires OrderFree(g)
    requires multiset(s1) == multiset(s2)
    ensures g.mbrOf(s1) == g.mbrOf(s2)
    ensures g.area(g.mbrOf(s1)) != 0.0 ==> TileScore(g, s1) == TileScore(g, s2)
  {
    assert Areas(g, s1) == MapSeq(g.area, s1);
    assert Areas(g, s2) == MapSeq(g.area, s2);
    MapPermutation(g.area, s1, s2);
    SumPermutation(Areas(g, s1), Areas(g, s2));
  }

  // ---------------------------------------------------------------------------
  // Batches.

  /** `batch_mean` does not depend on the order of the samples. */
  lemma BatchMeanReorderInvariant<X, Y>(lossFunc: (X, Y) --> real,
                                        outputs1: seq<X>, targets1: seq<Y>,
                                        outputs2: seq<X>, targets2: seq<Y>)
    requires 0 < |targets1| == |outputs1| && |targets2| == |outputs2|
    requires multiset(Zip(outputs1, targets1)) == multiset(Zip(outputs2, targets2))
    requires forall b :: 0 <= b < |targets1| ==> lossFunc.requires(outputs1[b], targets1[b])
    requires forall b :: 0 <= b < |targets2| ==> lossFunc.requires(outputs2[b], targets2[b])
    ensures 0 < |targets2|
    ensures BatchMean(lossFunc, outputs1, targets1) == BatchMean(lossFunc, outputs2, targets2)
  {
    var z1, z2 := Zip(outputs1, targets1), Zip(outputs2, targets2);
    assert |multiset(z1)| == |z1| && |multiset(z2)| == |z2|;
    var f := (p: (X, Y)) requires lossFunc.requires(p.0, p.1) => lossFunc(p.0, p.1);
    assert PerSample(lossFunc, outputs1, targets1) == MapSeq(f, z1);
    assert PerSample(lossFunc, outputs2, targets2) == MapSeq(f, z2);
    MapPermutation(f, z1, z2);
    MeanPermutation(MapSeq(f, z1), MapSeq(f, z2));
  }
}
