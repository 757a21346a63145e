# Structure losses of the tex table-structure model

This project models the loss functions used to train the sequence-structured
box detector of `tex`: four single-sample box-regression losses (IoU, distance
IoU, complete IoU and the sequence-aware tile IoU loss), the per-batch reducer
`batch_mean` and the top-level `structure_loss`, which returns the
classification loss and the box loss as a pair. All of it lives in
`tex/models/structure/losses.py` and is pure: each loss filters the padding
rows, builds one term per remaining position, and takes the mean.

Modules: `Stats`, `Padding`, `Losses` and `Batch` follow the parts of that
file; `Geometry` stands for the primitives it imports, and `Reorder` holds
properties that span the others.

- `Geometry` (`geometry.dfy`): the `Box` row and the `Geometry` record. The
  record carries the primitives `iou`, `mbr` (for one pair and for a whole
  sequence), `diag`, `center_distance`, `aspect_ratio`, `area`, `sum_si` and
  `torch.arctan` as function values. It also holds the assumed facts `Sound`
  (IoU in [0, 1]; diagonals, centre distances, areas and overlap sums
  non-negative) and `OrderFree` (the sequence-level primitives depend only on
  which boxes a sequence holds). It also defines the constant `4 / pi^2`.
  The source calls `iou`, `area`, `diag(mbr(.,.))`, `center_distance` and
  `aspect_ratio` on whole `[seq_len, 4]` tensors; the model reads each as a
  per-row function mapped over the slots (`IouTerms`, `DiouTerms`,
  `CiouTerms`, `Areas`), and the per-position bounds and the reordering
  results rest on that row-by-row reading.
- `Stats` (`stats.dfy`): `torch.sum` / `torch.mean` over reals, with bounds,
  monotonicity and permutation lemmas.
- `Padding` (`padding.dfy`): the mask `(target > 0).any(-1)` and the filter
  `output[mask]`, `target[mask]` shared by every loss (`Filter`).
- `Losses` (`losses.dfy`): the per-position terms (`IouTerm`, `DiouTerm`,
  `AspectPenalty`, `Alpha`, `CiouTerm`), the sequence term (`TileScore`,
  `SeqLoss`) and the four losses `IouLoss`, `DistanceIouLoss`,
  `CompleteIouLoss` and `TileIouLoss`.
- `Batch` (`batch.dfy`): `PerSample` (the list comprehension), `BatchMean` and
  `StructureLoss`. The keyword arguments and their defaults
  (`ignore_zero=True`, `pad_idx=0`, `smoothing=0.01`, `weight=None`) are kept.
- `Reorder` (`reorder.dfy`): order independence. Reordering a sample's slots
  (prediction and target by the same permutation) leaves the complete and tile
  IoU losses unchanged. Reordering a batch's samples leaves `batch_mean`
  unchanged.

A row survives filtering iff its target row has some coordinate strictly
greater than 0. A target row such as `(-0.5, 0, 0, 0)` is therefore dropped,
not only the all-zero padding sentinel. The model follows the code here
(`Padding.NonPositiveRowDropped`).

None of the source's divisions is guarded, so each divisor that can be zero is
a precondition: `IouReady`, `DiouReady`, `CiouReady` and `TileReady`. These
cover the mean of an empty filtered sequence, a zero `diag(mbr(target,
output))`, the `alpha` denominator `(1 - iou) + value` (0/0 at perfect overlap
with equal aspect angles, see `Losses.AlphaUndefinedIff`) and a zero
`area(mbr(...))`. Defining the mean of an empty filtered sequence as 0 would
differ from the code: `torch.mean` of nothing is NaN, so the model keeps a
precondition there as well.

## Model

| member | source | states |
|---|---|---|
| `Padding.Filter` | tex/models/structure/losses.py:8-10 | filtered output and target have equal length; with `ignore_zero` off both are returned unchanged; with it on, position k of each is the row at the k-th kept index of the original, and every kept target row has a positive coordinate |
| `Padding.SelectAt` | tex/models/structure/losses.py:9-10 | boolean-mask indexing keeps exactly the rows at the true positions of the mask, in order |
| `Padding.KeptExactly` | tex/models/structure/losses.py:9-10 | row i survives iff its target row has some coordinate > 0; surviving indices are strictly increasing, so both results are order-preserving subsequences |
| `Padding.DecisionIgnoresOutput` | tex/models/structure/losses.py:9-10 | the prediction plays no part in which rows survive: two predictions give the same filtered target and filtered lengths |
| `Padding.FilterIdempotent` | tex/models/structure/losses.py:8-10 | filtering an already filtered pair changes nothing |
| `Padding.NoPaddingNoEffect` | tex/models/structure/losses.py:8-10 | when every target row has a positive coordinate, `ignore_zero` makes no difference |
| `Padding.NonPositiveRowDropped` | tex/models/structure/losses.py:9-10 | any target row with no positive coordinate (negative ones included) is dropped together with its prediction row, whatever the prediction |
| `Geometry.AspectScale` | tex/models/structure/losses.py:38-39 | the factor 4 / pi^2, with pi the double `torch.pi`, lies strictly between 0 and 1 |
| `Losses.IouTerm` | tex/models/structure/losses.py:11-12 | `1 - iou` lies in [0, 1] whenever the IoU does, and is 0 exactly when IoU is 1 |
| `Losses.DistanceTerm` | tex/models/structure/losses.py:22-24 | `dist_center / mbr_diag` is non-negative when the centre distance and the diagonal are |
| `Losses.DiouTerm` | tex/models/structure/losses.py:21-24 | the DIoU term is the IoU term plus the distance term, so with non-negative distances it is never below the IoU term |
| `Losses.AspectPenalty` | tex/models/structure/losses.py:36-39 | the aspect-ratio penalty `value` is never negative, and is 0 exactly when the two arctan aspect angles are equal |
| `Losses.Alpha` | tex/models/structure/losses.py:40 | when its denominator is non-zero and IoU <= 1, `alpha` lies in [0, 1] |
| `Losses.AlphaUndefinedIff` | tex/models/structure/losses.py:40 | the denominator of `alpha` is 0 (the NaN the source notes) exactly at IoU 1 with equal aspect angles |
| `Losses.CiouTerm` | tex/models/structure/losses.py:33-41 | the CIoU term is the DIoU term plus `alpha * value` and, with IoU <= 1, is never below it |
| `Losses.IouTermsMean` | tex/models/structure/losses.py:11-13 | the mean of the IoU terms lies in [0, 1] when every IoU does, and is 0 when every IoU is 1 |
| `Losses.DiouTermsDominate` | tex/models/structure/losses.py:21-25 | under sound geometry the mean DIoU term is at least the mean IoU term |
| `Losses.CiouTermsDominate` | tex/models/structure/losses.py:33-42 | wherever the CIoU terms are defined the DIoU terms are too, and under sound geometry their mean is at least the mean DIoU term |
| `Losses.TileScore` | tex/models/structure/losses.py:64-71 | `sum_si / area(mbr) + abs(1 - sum(area) / area(mbr))` is non-negative under sound geometry |
| `Losses.TileScoreAsDocumented` | tex/models/structure/losses.py:49-71 | where `area(mbr) > 0`, the computed tile score equals the documented `(sum of overlaps + abs(sum of areas - area(mbr))) / area(mbr)` |
| `Losses.SeqLoss` | tex/models/structure/losses.py:72-74 | with the sequence-level IoU <= 1, the sequence term is >= 0, and it is 0 exactly when the two bounding rectangles overlap perfectly and the tile scores agree |
| `Losses.IouLoss` | tex/models/structure/losses.py:6-13 | `iou_loss` (default `ignore_zero=True`) lies in [0, 1] if every surviving IoU does, and is 0 if every surviving pair overlaps perfectly |
| `Losses.DistanceIouLoss` | tex/models/structure/losses.py:16-25 | under sound geometry `distance_iou_loss >= iou_loss` on the same input |
| `Losses.CompleteIouLoss` | tex/models/structure/losses.py:28-42 | wherever `complete_iou_loss` is defined, `distance_iou_loss` is too, and under sound geometry `complete_iou_loss >= distance_iou_loss` |
| `Losses.TileIouLoss` | tex/models/structure/losses.py:45-75 | `tile_iou_loss` is defined only where `complete_iou_loss` is, equals it plus the sequence term added once per sample, and under sound geometry is never below it |
| `Losses.LossChain` | tex/models/structure/losses.py:6-75 | `0 <= iou_loss <= distance_iou_loss <= complete_iou_loss <= tile_iou_loss` on one input |
| `Losses.LossesFactorThroughFilter` | tex/models/structure/losses.py:8-10 | each of the four losses depends on its inputs only through the filtered pair |
| `Losses.IouLossSeesOnlyFilteredRows` | tex/models/structure/losses.py:8-13 | with `ignore_zero`, `iou_loss` equals `iou_loss` of the filtered pair, filtered again or not |
| `Losses.DiouLossSeesOnlyFilteredRows` | tex/models/structure/losses.py:18-25 | the same for `distance_iou_loss` |
| `Losses.CiouLossSeesOnlyFilteredRows` | tex/models/structure/losses.py:30-42 | the same for `complete_iou_loss` |
| `Losses.TileLossSeesOnlyFilteredRows` | tex/models/structure/losses.py:52-75 | the same for `tile_iou_loss` |
| `Stats.MeanBounds` | tex/models/structure/losses.py:13 | a mean lies within any bounds that every element meets |
| `Stats.MeanMonotone` | tex/models/structure/losses.py:13 | pointwise larger values have a larger mean |
| `Stats.MeanPermutation` | tex/models/structure/losses.py:13 | reordering values does not change their mean |
| `Stats.MeanBetweenElements` | tex/models/structure/losses.py:85-93 | some element is at most the mean and some element is at least it |
| `Batch.PerSample` | tex/models/structure/losses.py:87-91 | one value per target sample, and element b is `loss_func(outputs[b], targets[b])`, so no sample sees another's data |
| `Batch.BatchMean` | tex/models/structure/losses.py:83-93 | `batch_mean` lies between the smallest and the largest per-sample loss, and a batch of one sample gives exactly `loss_func(outputs[0], targets[0])` |
| `Batch.BatchMeanIndependent` | tex/models/structure/losses.py:83-93 | two batches whose samples give equal losses index by index have the same batch mean |
| `Batch.BatchMeanBounds` | tex/models/structure/losses.py:85-93 | the batch mean lies within any bounds that every sample's loss meets |
| `Batch.BatchMeanMonotone` | tex/models/structure/losses.py:85-93 | a loss at least as large as another on every sample has at least its batch mean |
| `Batch.StructureLoss` | tex/models/structure/losses.py:96-107 | the first component is the mean over samples of `cls_loss` called with the same `pad_idx`, `smoothing` and `weight` every time; the second is the mean over samples of `tile_iou_loss` called with the same `ignore_zero`; the defaults are those of the source, and the two components are returned separately |
| `Batch.BoxBatchBounds` | tex/models/structure/losses.py:85-93 | with sound geometry, on a batch where every sample's tile IoU loss is defined, `complete_iou_loss` is defined on every sample, and `batch_mean` of `tile_iou_loss` is at least `batch_mean` of `complete_iou_loss`, which is non-negative |
| `Batch.StructureBoxLossBounds` | tex/models/structure/losses.py:105-107 | with sound geometry, `complete_iou_loss` is defined on every sample, and the box component is at least the batch mean of `complete_iou_loss`, which is non-negative |
| `Reorder.ZipSelect` | tex/models/structure/losses.py:9-10 | masking output and target with one mask is masking their (output, target) pairs, so the two stay aligned |
| `Reorder.FilterReorder` | tex/models/structure/losses.py:8-10 | filtering commutes with reordering the (output, target) pairs |
| `Reorder.CiouLossReorderInvariant` | tex/models/structure/losses.py:28-42 | reordering prediction and target by the same permutation keeps `complete_iou_loss` defined and unchanged |
| `Reorder.TileScoreReorder` | tex/models/structure/losses.py:64-71 | with order-free primitives, the bounding rectangle and tile score of a sequence do not depend on its order |
| `Reorder.SeqLossReorder` | tex/models/structure/losses.py:64-74 | the sequence term depends on the two box sequences only as multisets |
| `Reorder.TileLossReorderInvariant` | tex/models/structure/losses.py:45-75 | reordering prediction and target by the same permutation keeps `tile_iou_loss` defined and unchanged |
| `Reorder.BatchMeanReorderInvariant` | tex/models/structure/losses.py:83-93 | `batch_mean` does not depend on the order of the samples |

## Left out

- `tex/models/structure/encoder/blocks.py` is not part of this model: it is convolution, normalisation and attention layers composed from the tensor library, with no loss logic.
- `tex.core.geometry` is not part of this model. Its primitives are parameters, and the only facts assumed about them are `Geometry.Sound` and `Geometry.OrderFree`, which appear as lemma hypotheses.
- `cls_loss` (label-smoothed cross-entropy with `ignore_index` and class weights) is an opaque parameter of `StructureLoss`; the claim that correct logits give a lower loss than wrong ones is therefore not modelled.
- `torch.arctan` is a parameter (a field of `Geometry`). `torch.pi` is written as the exact value of the double nearest to pi, 3.141592653589793115997963468544185161590576171875; only 0 < 4/pi^2 < 1 is used.
- Floating point: all arithmetic is over exact reals. NaN and infinity are not values of the model. Each unguarded division that could produce them is a precondition instead.
- Three failures that are not divisions are preconditions as well: an empty batch (`torch.stack([])` raises), fewer outputs than targets (`outputs[batch]` raises IndexError) and different row counts in a sample's output and target. With `ignore_zero` on, mask indexing raises; with it off, the tensors reach `geo.iou` unchecked and the model requires equal lengths, one prediction slot per target slot.
- Autograd, dtypes, devices and the `unsqueeze`/`squeeze` shape changes are left out, and so is the `__main__` demonstration (tex/models/structure/losses.py:110-129).
- Reorder.BatchMeanReorderInvariant: stated for batches whose output and target counts agree. `batch_mean` itself also accepts, and ignores, extra trailing outputs.
- Reorder.TileLossReorderInvariant: assumes `OrderFree`. The source relies on `mbr` and `sum_si` being set aggregates; their implementations are not part of this model.
- The order independence of `iou_loss` and `distance_iou_loss` is not stated separately; `CiouLossReorderInvariant` shows the method.
