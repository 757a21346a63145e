/**
 * `batch_mean`, which applies a single-sample loss to every sample of a batch
 * and averages, and `structure_loss`, the top-level entry that returns the
 * classification loss and the box loss as a pair.
 */
module Batch {
  import opened Geometry
  import opened Stats
  import opened Losses

  datatype Option<T> = None | Some(value: T)

  /** Class logits of one sample, `[seq_len, dim]`. */
  type Logits = seq<seq<real>>

  /** Class labels of one sample, `[seq_len]`. */
  type Labels = seq<int>

  /** `cls_loss(output, target, pad_idx, smoothing, weight)`: label-smoothed
      cross-entropy is not part of this model and is passed in. */
  type ClsLoss = (Logits, Labels, int, real, Option<seq<real>>) -> real

  /** The list `[loss_func(outputs[b], targets[b], **kwargs) for b in
      range(targets.size(0))]`, with the keyword arguments bound into
      `lossFunc`. Element `b` is the loss of sample `b` alone. */
  function PerSample<X, Y>(lossFunc: (X, Y) --> real, outputs: seq<X>, targets: seq<Y>): (r: seq<real>)
    requires |targets| <= |outputs|
    requires forall b :: 0 <= b < |targets| ==> lossFunc.requires(outputs[b], targets[b])
    ensures |r| == |targets|
    ensures forall b :: 0 <= b < |targets| ==> r[b] == lossFunc(outputs[b], targets[b])
  {
    if targets == [] then []
    else
      var n := |targets| - 1;
      PerSample(lossFunc, outputs[..n], targets[..n]) + [lossFunc(outputs[n], targets[n])]
  }

  /** `batch_mean(loss_func, outputs, targets, **kwargs)`. The batch size is
      that of `targets`; `torch.stack` of an empty list fails, so the batch is
      not empty. The result lies between the smallest and the largest
      per-sample loss, and a batch of one sample gives exactly that sample's
      loss. */
  function BatchMean<X, Y>(lossFunc: (X, Y) --> real, outputs: seq<X>, targets: seq<Y>): (r: real)
    requires 0 < |targets| <= |outputs|
    requires forall b :: 0 <= b < |targets| ==> lossFunc.requires(outputs[b], targets[b])
    ensures exists b :: 0 <= b < |targets| && lossFunc(outputs[b], targets[b]) <= r
    ensures exists b :: 0 <= b < |targets| && r <= lossFunc(outputs[b], targets[b])
    ensures |targets| == 1 ==> r == lossFunc(outputs[0], targets[0])
  {
    var s := PerSample(lossFunc, outputs, targets);
    MeanBetweenElements(s);
    MeanSingleton(s[0]);
    assert |targets| == 1 ==> s == [s[0]];
    Mean(s)
  }

  /** `batch_mean` is the mean of any list that holds, index by index, the
      per-sample losses. */
  lemma BatchMeanOfValues<X, Y>(lossFunc: (X, Y) --> real, outputs: seq<X>, targets: seq<Y>, values: seq<real>)
    requires 0 < |targets| <= |outputs|
    requires forall b :: 0 <= b < |targets| ==> lossFunc.requires(outputs[b], targets[b])
    requires |values| == |targets|
    requires forall b :: 0 <= b < |targets| ==> values[b] == lossFunc(outputs[b], targets[b])
    ensures BatchMean(lossFunc, outputs, targets) == Mean(values)
  {
    assert PerSample(lossFunc, outputs, targets) == values;
  }

  /** No information passes between samples: two batches whose samples give
      the same losses index by index have the same batch mean, whatever else
      they contain (extra trailing outputs included). */
  lemma BatchMeanIndependent<X, Y>(lossFunc: (X, Y) --> real,
                                   outputs1: seq<X>, targets1: seq<Y>,
                                   outputs2: seq<X>, targets2: seq<Y>)
    requires 0 < |targets1| <= |outputs1| && |targets2| == |targets1| <= |outputs2|
    requires forall b :: 0 <= b < |targets1| ==> lossFunc.requires(outputs1[b], targets1[b])
    requires forall b :: 0 <= b < |targets2| ==> lossFunc.requires(outputs2[b], targets2[b])
    requires forall b :: 0 <= b < |targets1| ==>
               lossFunc(outputs1[b], targets1[b]) == lossFunc(outputs2[b], targets2[b])
    ensures BatchMean(lossFunc, outputs1, targets1) == BatchMean(lossFunc, outputs2, targets2)
  {
    assert PerSample(lossFunc, outputs1, targets1) == PerSample(lossFunc, outputs2, targets2);
  }

  /** The batch mean lies within any bounds that every sample's loss meets. */
  lemma BatchMeanBounds<X, Y>(lossFunc: (X, Y) --> real, outputs: seq<X>, targets: seq<Y>, lo: real, hi: real)
    requires 0 < |targets| <= |outputs|
    requires forall b :: 0 <= b < |targets| ==> lossFunc.requires(outputs[b], targets[b])
    requires forall b :: 0 <= b < |targets| ==> lo <= lossFunc(outputs[b], targets[b]) <= hi
    ensures lo <= BatchMean(lossFunc, outputs, targets) <= hi
  {
    MeanBounds(PerSample(lossFunc, outputs, targets), lo, hi);
  }

  lemma BatchMeanAtLeast<X, Y>(lossFunc: (X, Y) --> real, outputs: seq<X>, targets: seq<Y>, lo: real)
    requires 0 < |targets| <= |outputs|
    requires forall b :: 0 <= b < |targets| ==> lossFunc.requires(outputs[b], targets[b])
    requires forall b :: 0 <= b < |targets| ==> lo <= lossFunc(outputs[b], targets[b])
    ensures lo <= BatchMean(lossFunc, outputs, targets)
  {
    MeanAtLeast(PerSample(lossFunc, outputs, targets), lo);
  }

  /** A loss that is sample by sample at least another has at least its batch mean. */
  lemma BatchMeanMonotone<X, Y>(small: (X, Y) --> real, large: (X, Y) --> real, outputs: seq<X>, targets: seq<Y>)
    requires 0 < |targets| <= |outputs|
    requires forall b :: 0 <= b < |targets| ==> small.requires(outputs[b], targets[b])
    requires forall b :: 0 <= b < |targets| ==> large.requires(outputs[b], targets[b])
    requires forall b :: 0 <= b < |targets| ==> small(outputs[b], targets[b]) <= large(outputs[b], targets[b])
    ensures BatchMean(small, outputs, targets) <= BatchMean(large, outputs, targets)
  {
    MeanMonotone(PerSample(small, outputs, targets), PerSample(large, outputs, targets));
  }

  /** `tile_iou_loss` with `ignore_zero` bound, as `batch_mean` receives it. */
  function TileLossOf(g: Geometry, ignoreZero: bool): (f: (seq<Box>, seq<Box>) --> real)
    ensures forall o, t :: TileReady(g, o, t, ignoreZero) ==> f.requires(o, t)
    ensures forall o, t :: TileReady(g, o, t, ignoreZero) ==> f(o, t) == TileIouLoss(g, o, t, ignoreZero)
  {
    (o: seq<Box>, t: seq<Box>) requires TileReady(g, o, t, ignoreZero) => TileIouLoss(g, o, t, ignoreZero)
  }

  /** `cls_loss` with its keyword arguments bound, as `batch_mean` receives it. */
  function ClsLossOf(clsLoss: ClsLoss, padIdx: int, smoothing: real, weight: Option<seq<real>>): (f: (Logits, Labels) --> real)
    ensures forall o, t :: f.requires(o, t)
    ensures forall o, t :: f(o, t) == clsLoss(o, t, padIdx, smoothing, weight)
  {
    (o: Logits, t: Labels) => clsLoss(o, t, padIdx, smoothing, weight)
  }

  /** `structure_loss(outputs, targets, ignore_zero, pad_idx, smoothing, weight)`:
      the batch mean of the classification loss and the batch mean of the tile
      IoU loss, returned side by side and never summed. */
  function StructureLoss(g: Geometry, clsLoss: ClsLoss,
                         outputs: (seq<Logits>, seq<seq<Box>>), targets: (seq<Labels>, seq<seq<Box>>),
                         ignoreZero: bool := true, padIdx: int := 0, smoothing: real := 0.01,
                         weight: Option<seq<real>> := None): (r: (real, real))
    requires 0 < |targets.0| <= |outputs.0|
    requires 0 < |targets.1| <= |outputs.1|
    requires forall b :: 0 <= b < |targets.1| ==> TileReady(g, outputs.1[b], targets.1[b], ignoreZero)
    ensures r.0 == Mean(seq(|targets.0|, b requires 0 <= b < |targets.0| =>
                              clsLoss(outputs.0[b], targets.0[b], padIdx, smoothing, weight)))
    ensures r.1 == Mean(seq(|targets.1|, b requires 0 <= b < |targets.1| =>
                              TileIouLoss(g, outputs.1[b], targets.1[b], ignoreZero)))
  {
    var (clsOutput, boxOutput) := outputs;
    var (clsTarget, boxTarget) := targets;
    var clsValue := BatchMean(ClsLossOf(clsLoss, padIdx, smoothing, weight), clsOutput, clsTarget);
    var boxValue := BatchMean(TileLossOf(g, ignoreZero), boxOutput, boxTarget);
    ClsComponent(clsLoss, outputs, targets, padIdx, smoothing, weight);
    BoxComponent(g, outputs, targets, ignoreZero);
    (clsValue, boxValue)
  }

  /** The classification component of `structure_loss`, read off `cls_loss`. */
  lemma ClsComponent(clsLoss: ClsLoss,
                     outputs: (seq<Logits>, seq<seq<Box>>), targets: (seq<Labels>, seq<seq<Box>>),
                     padIdx: int, smoothing: real, weight: Option<seq<real>>)
    requires 0 < |targets.0| <= |outputs.0|
    ensures BatchMean(ClsLossOf(clsLoss, padIdx, smoothing, weight), outputs.0, targets.0)
            == Mean(seq(|targets.0|, b requires 0 <= b < |targets.0| =>
                          clsLoss(outputs.0[b], targets.0[b], padIdx, smoothing, weight)))
  {
    var values := seq(|targets.0|, b requires 0 <= b < |targets.0| =>
                        clsLoss(outputs.0[b], targets.0[b], padIdx, smoothing, weight));
    BatchMeanOfValues(ClsLossOf(clsLoss, padIdx, smoothing, weight), outputs.0, targets.0, values);
  }

  /** The box component of `structure_loss`, read off `tile_iou_loss`. */
  lemma BoxComponent(g: Geometry,
                     outputs: (seq<Logits>, seq<seq<Box>>), targets: (seq<Labels>, seq<seq<Box>>),
                     ignoreZero: bool)
    requires 0 < |targets.1| <= |outputs.1|
    requires forall b :: 0 <= b < |targets.1| ==> TileReady(g, outputs.1[b], targets.1[b], ignoreZero)
    ensures BatchMean(TileLossOf(g, ignoreZero), outputs.1, targets.1)
            == Mean(seq(|targets.1|, b requires 0 <= b < |targets.1| =>
                          TileIouLoss(g, outputs.1[b], targets.1[b], ignoreZero)))
  {
    var values := seq(|targets.1|, b requires 0 <= b < |targets.1| =>
                        TileIouLoss(g, outputs.1[b], targets.1[b], ignoreZero));
    BatchMeanOfValues(TileLossOf(g, ignoreZero), outputs.1, targets.1, values);
  }

  /** `complete_iou_loss` with `ignore_zero` bound. */
  function CiouLossOf(g: Geometry, ignoreZero: bool): (f: (seq<Box>, seq<Box>) --> real)
    ensures forall o, t :: CiouReady(g, o, t, ignoreZero) ==> f.requires(o, t)
    ensures forall o, t :: CiouReady(g, o, t, ignoreZero) ==> f(o, t) == CompleteIouLoss(g, o, t, ignoreZero)
  {
    (o: seq<Box>, t: seq<Box>) requires CiouReady(g, o, t, ignoreZero) => CompleteIouLoss(g, o, t, ignoreZero)
  }

  /** The box component of `structure_loss` is `batch_mean` of the bound
      `tile_iou_loss`. */
  lemma StructureBoxIsBatchMean(g: Geometry, clsLoss: ClsLoss,
                                outputs: (seq<Logits>, seq<seq<Box>>), targets: (seq<Labels>, seq<seq<Box>>),
                                ignoreZero: bool, padIdx: int, smoothing: real, weight: Option<seq<real>>)
    requires 0 < |targets.0| <= |outputs.0|
    requires 0 < |targets.1| <= |outputs.1|
    requires forall b :: 0 <= b < |targets.1| ==> TileReady(g, outputs.1[b], targets.1[b], ignoreZero)
    ensures StructureLoss(g, clsLoss, outputs, targets, ignoreZero, padIdx, smoothing, weight).1
              == BatchMean(TileLossOf(g, ignoreZero), outputs.1, targets.1)
  {
    BoxComponent(g, outputs, targets, ignoreZero);
  }

  /** One sample: the bound complete IoU loss is defined, non-negative and at
      most the bound tile IoU loss. */
  lemma CiouBelowTile(g: Geometry, ignoreZero: bool, o: seq<Box>, t: seq<Box>)
    requires TileReady(g, o, t, ignoreZero)
    requires Sound(g)
    ensures CiouLossOf(g, ignoreZero).requires(o, t)
    ensures 0.0 <= CiouLossOf(g, ignoreZero)(o, t) <= TileLossOf(g, ignoreZero)(o, t)
  {
    LossChain(g, o, t, ignoreZero);
  }

  /** With sound geometry, `batch_mean` of the tile IoU loss is at least
      `batch_mean` of the complete IoU loss, which is non-negative. */
  lemma BoxBatchBounds(g: Geometry, ignoreZero: bool, outputs: seq<seq<Box>>, targets: seq<seq<Box>>)
    requires 0 < |targets| <= |outputs|
    requires forall b :: 0 <= b < |targets| ==> TileReady(g, outputs[b], targets[b], ignoreZero)
    requires Sound(g)
    ensures forall b :: 0 <= b < |targets| ==> CiouLossOf(g, ignoreZero).requires(outputs[b], targets[b])
    ensures BatchMean(TileLossOf(g, ignoreZero), outputs, targets)
              >= BatchMean(CiouLossOf(g, ignoreZero), outputs, targets)
              >= 0.0
  {
    var tile, ciou := TileLossOf(g, ignoreZero), CiouLossOf(g, ignoreZero);
    forall b | 0 <= b < |targets|
      ensures ciou.requires(outputs[b], targets[b])
      ensures 0.0 <= ciou(outputs[b], targets[b]) <= tile(outputs[b], targets[b])
    {
      CiouBelowTile(g, ignoreZero, outputs[b], targets[b]);
    }
    BatchMeanMonotone(ciou, tile, outputs, targets);
    BatchMeanAtLeast(ciou, outputs, targets, 0.0);
  }

  /** With sound geometry the box component of `structure_loss` is at least
      the batch mean of the complete IoU loss, which is non-negative. */
  lemma StructureBoxLossBounds(g: Geometry, clsLoss: ClsLoss,
                               outputs: (seq<Logits>, seq<seq<Box>>), targets: (seq<Labels>, seq<seq<Box>>),
                               ignoreZero: bool, padIdx: int, smoothing: real, weight: Option<seq<real>>)
    requires 0 < |targets.0| <= |outputs.0|
    requires 0 < |targets.1| <= |outputs.1|
    requires forall b :: 0 <= b < |targets.1| ==> TileReady(g, outputs.1[b], targets.1[b], ignoreZero)
    requires Sound(g)
    ensures forall b :: 0 <= b < |targets.1| ==> CiouLossOf(g, ignoreZero).requires(outputs.1[b], targets.1[b])
    ensures StructureLoss(g, clsLoss, outputs, targets, ignoreZero, padIdx, smoothing, weight).1
              >= BatchMean(CiouLossOf(g, ignoreZero), outputs.1, targets.1)
              >= 0.0
  {
    BoxBatchBounds(g, ignoreZero, outputs.1, targets.1);
    StructureBoxIsBatchMean(g, clsLoss, outputs, targets, ignoreZero, padIdx, smoothing, weight);
  }
}
