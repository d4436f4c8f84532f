# YOLACT loss, modelled in Dafny

This project models the training loss of YOLACT, a single-shot instance
segmentation network, as written in `loss/loss_yolact.py`. A `YOLACTLoss`
object keeps a class count, four loss weights, the hard-negative ratio
`neg_pos_ratio` and the cap `max_masks_for_train`. Called on a label
dictionary and a prediction dictionary, it returns four component losses
and their weighted total:

- **location** (`_loss_location`): the Huber loss of the predicted box offsets
  over the positive anchors, divided by the number of positives;
- **confidence** (`_loss_class`): the softmax cross-entropy over the positive
  anchors plus the hard-mined negatives. The mined negatives are the
  `num_pos * neg_pos_ratio` negatives with the highest `-log` of class
  column 0. The sum is divided by the number of positives;
- **mask** (`_loss_mask`): for each image, each positive anchor's mask is the
  prototype masks combined linearly with that anchor's coefficients. It is
  scored with sigmoid cross-entropy against the mask of its matched object,
  cropped to that object's box and divided by the box area. The batch sum is
  divided by the total positive count;
- **segmentation** (`_loss_semantic_segmentation`): each image's object masks
  are resized to the segmentation grid, rounded to 0/1 and cut to the first
  `num_obj`. Each is then written whole into the channel of its class. The
  sigmoid cross-entropy against the predicted class maps is summed and
  divided by the grid area and the batch size.

Tensors are nested sequences of reals (`Tensors`). The library routines
are total functions supplied in one record (`Library.Ops`): the Huber and
cross-entropy losses, `log`, the box area and crop test from `utils`, and
the bilinear resize. Every expression the loss computes is built from them.

Modules:

- `Tensors`: reductions, row-major flattening, gather, the Python slice
  `s[:n]`, and the inner product;
- `Indices`: `tf.where(x == v)` on vectors and on batches;
- `Argsort`: the descending argsort and the top-k cut;
- `Library`: the library routines;
- one module per component loss: `Location`, `Classification`, `Mask`,
  `Segmentation`;
- `Yolact`: the loss object and its call.

The two batch loops (`_loss_mask`, `_loss_semantic_segmentation`) are
methods with loop invariants, proved against recursive specification
functions. The rest is pure functions and lemmas.

## Model

| member | source | states |
|---|---|---|
| Tensors.Prefix | loss/loss_yolact.py:101 | `s[:n]` is a prefix of `s`; for n >= 0 its length is min(n, \|s\|); for negative n it drops -n elements from the end, or gives the empty sequence |
| Tensors.FlattenIndex | loss/loss_yolact.py:68 | reshaping a [B, A] batch to [B*A]: flat position b*A+a holds element (b, a), and the flat length is B*A |
| Indices.Where | loss/loss_yolact.py:77-78 | every position that `tf.where(s == v)` lists lies in range and holds v |
| Indices.WhereComplete | loss/loss_yolact.py:77-78 | `tf.where` lists every position holding v, in strictly ascending order |
| Indices.WhereMembership | loss/loss_yolact.py:77-78 | a position is listed exactly when it is in range and holds v |
| Indices.PartitionDisjoint | loss/loss_yolact.py:77-78 | no anchor is both positive and negative; a neutral anchor (neither 0 nor 1) is in neither set |
| Indices.WhereCount | loss/loss_yolact.py:77-78 | the number of positions listed is the number of occurrences of v |
| Indices.WherePairs | loss/loss_yolact.py:56-58 | every (image, anchor) pair `tf.where` lists on a batch is in range and holds v |
| Indices.WherePairsComplete | loss/loss_yolact.py:56-58 | every (image, anchor) pair holding v is listed |
| Indices.WherePairsOrdered | loss/loss_yolact.py:56-58 | the pairs come in row-major order, so each appears once |
| Indices.PairCount | loss/loss_yolact.py:144 | the number of positive (image, anchor) pairs (lines 56-61) equals the flattened batch's positive count and the per-image counts added up, so all three loss divisors agree |
| Argsort.ArgsortDescending | loss/loss_yolact.py:98 | the order lists every index once, in non-increasing score, and equal scores come lower index first, as `tf.nn.top_k` (which computes a descending `tf.argsort`) lists them |
| Argsort.StableArgsortUnique | loss/loss_yolact.py:98 | there is only one descending argsort that lists equal scores lower index first, so the order above is the library's |
| Argsort.TopK | loss/loss_yolact.py:98-101 | for any admissible descending order, the cut `order[:needed]` takes min(needed, \|scores\|) distinct indices in descending score; each scores at least as high as every index left out; all are taken when there are not enough |
| Argsort.TopKGathered | loss/loss_yolact.py:88-104 | the same cut, taken over the scores of a sub-list and mapped back, gives indices of that sub-list in descending score, each at least as high as every sub-list index left out |
| Library.SigmoidXentSumNonNegative | loss/loss_yolact.py:155 | the summed sigmoid cross-entropy is non-negative when the element loss is |
| Location.GatheredSum | loss/loss_yolact.py:56-63 | the Huber sum over the gathered positive pairs equals a masked sum: per image, per anchor with positiveness 1 |
| Location.LocationIsMaskedMean | loss/loss_yolact.py:52-64 | the location loss is the masked Huber sum divided by the number of 1s in the positiveness batch |
| Location.LocationNonNegative | loss/loss_yolact.py:52-64 | the location loss is non-negative when the Huber loss is |
| Classification.NegativeScores | loss/loss_yolact.py:92-95 | definition: the mining score of each negative is -log of its raw column 0 (no softmax applied) |
| Classification.FlattenClassInputs | loss/loss_yolact.py:68-76 | after the reshapes, logits, labels and positiveness have one entry per anchor, and each logit row has num_classes columns |
| Classification.MiningScores | loss/loss_yolact.py:92-95 | definition: one mining score per negative anchor, in flat order |
| Classification.MinedAnchorsAreNegatives | loss/loss_yolact.py:85-104 | for every descending argsort of the mining scores, whatever its tie order: exactly min(num_pos * ratio, num_neg) anchors are mined; each is a negative (positiveness 0); no anchor is mined twice |
| Classification.MinedAnchorsScoreHighest | loss/loss_yolact.py:92-104 | for every descending argsort of the mining scores: every mined negative scores at least as high as every negative not mined |
| Classification.HardNegativeMining | loss/loss_yolact.py:85-104 | for every descending argsort of the mining scores, the two facts together: the count, negativity, distinctness, and the score dominance |
| Classification.AssembledTrainingSet | loss/loss_yolact.py:104-110 | for every descending argsort of the mining scores, the training set is the positives in flat order, each with its own logits and label, followed by the mined negatives with theirs |
| Classification.TrainingSetSize | loss/loss_yolact.py:85-110 | for every descending argsort of the mining scores, the training set has num_pos + min(num_pos * ratio, num_neg) entries |
| Classification.LossClassUsesLibraryOrder | loss/loss_yolact.py:98-115 | the confidence loss is the cross-entropy sum over the training set cut by any descending argsort that lists equal scores lower index first, divided by num_pos |
| Classification.XentSumNonNegative | loss/loss_yolact.py:111-114 | the summed cross-entropy over the one-hot labels is non-negative when the element loss is |
| Classification.ClassNonNegative | loss/loss_yolact.py:66-117 | the confidence loss is non-negative when the softmax cross-entropy is |
| Mask.PredictedMasks | loss/loss_yolact.py:138-146 | one predicted mask per positive anchor, on the prototype grid |
| Mask.MatchedMasks | loss/loss_yolact.py:149 | one target mask per positive anchor, on the prototype grid |
| Mask.MatchedBoxes | loss/loss_yolact.py:150 | one box per positive anchor |
| Mask.PrototypeCombination | loss/loss_yolact.py:138-146 | predicted mask p at pixel (i, j) is the inner product of prototype pixel (i, j) with the coefficients of the p-th positive anchor |
| Mask.PredictedMasksLinear | loss/loss_yolact.py:138-146 | the predicted masks are linear in the mask coefficients: with coefficients cA + x*cB, every mask pixel is that of cA plus x times that of cB |
| Mask.MatchedTargets | loss/loss_yolact.py:139-150 | the target mask and box of the p-th positive anchor are those of its matched object max_id[a] |
| Mask.CroppedSlice | loss/loss_yolact.py:155-156 | one slice of the cropped element losses is the reference per-anchor grid: the element loss inside the box, 0 outside |
| Mask.ImageLossIsReference | loss/loss_yolact.py:134-158 | an image's contribution, computed in the source's steps, equals the sum over its positive anchors of the reference per-anchor loss |
| Mask.CropIgnoresOutside | loss/loss_yolact.py:156-157 | an anchor's mask loss depends only on the targets and prototypes inside its box |
| Mask.AnchorMaskLossNonNegative | loss/loss_yolact.py:155-157 | each anchor's mask loss is non-negative when the element loss is and the box area is positive |
| Mask.ImageMaskLossNonNegative | loss/loss_yolact.py:134-158 | an image's contribution is non-negative under the same conditions |
| Mask.ImageContributions | loss/loss_yolact.py:125-158 | one contribution per image of the batch |
| Mask.MaskLossNonNegative | loss/loss_yolact.py:160 | the mask loss is non-negative |
| Mask.LossMask | loss/loss_yolact.py:119-161 | the loop returns the sum of the image contributions divided by the batch's positive count; its invariants keep the running loss and total_pos equal to the sums over the images seen so far |
| Segmentation.Trunc | loss/loss_yolact.py:179 | casting a float to int truncates toward zero |
| Segmentation.BinarizeUnit | loss/loss_yolact.py:179 | for a value in [0, 1], `cast(x + 0.5)` is 1 exactly when x >= 0.5, else 0 |
| Segmentation.BinarizedMasks | loss/loss_yolact.py:177-180 | one binarised resized mask per object |
| Segmentation.LastIndexSpec | loss/loss_yolact.py:189 | the last index of class c is -1 exactly when c is absent; otherwise it holds c and no later index does |
| Segmentation.ScatterSpec | loss/loss_yolact.py:189 | definition: the reference scatter. Channel c is the update of the last write naming c, which replaces the whole channel; a channel no write names keeps its base value. The channel count is kept |
| Segmentation.Scatter | loss/loss_yolact.py:189 | the update loop of `tensor_scatter_nd_update` computes the reference scatter: channel c is the update of the last index naming c, or the base channel if none does |
| Segmentation.ZeroChannels | loss/loss_yolact.py:187-188 | definition: the empty target is a [C, n, n] tensor of zeros |
| Segmentation.Transpose120 | loss/loss_yolact.py:190 | definition: the transpose to [n, n, C] moves element (c, i, j) to (i, j, c) |
| Segmentation.SegTarget | loss/loss_yolact.py:177-190 | an image's target has shape [n, n, C] |
| Segmentation.BuildSegTarget | loss/loss_yolact.py:177-190 | the imperative construction of seg_gt gives the reference target |
| Segmentation.TargetChannel | loss/loss_yolact.py:183-190 | target (i, j, c) is 0 when no kept object has class c; otherwise it is the binarised resized mask, at (i, j), of the last kept object of class c |
| Segmentation.DistinctClassesOwnChannels | loss/loss_yolact.py:183-190 | with distinct kept classes, each kept object's class channel is exactly its binarised mask |
| Segmentation.TargetIsBinary | loss/loss_yolact.py:178-190 | when resized masks lie in [0, 1], every target entry is 0 or 1 |
| Segmentation.TargetReadsKeptObjectsOnly | loss/loss_yolact.py:183-184 | two images that agree on their first num_obj masks and classes get the same target |
| Segmentation.ImageSegmentationLoss | loss/loss_yolact.py:170-191 | one loop body computes the reference loss of image b, which extends the accumulated sum over the first b images to the first b + 1 |
| Segmentation.AccumulateSegLoss | loss/loss_yolact.py:167-191 | the loop accumulates the sum of the per-image losses |
| Segmentation.LossSemanticSegmentation | loss/loss_yolact.py:163-194 | the result is the accumulated loss divided by the grid area and the batch size |
| Segmentation.SegSumNonNegative | loss/loss_yolact.py:191 | the accumulated loss over any leading run of images is non-negative when the element loss is |
| Segmentation.ImageSegLossNonNegative | loss/loss_yolact.py:191 | one image's loss is non-negative when the element loss is |
| Segmentation.SegLossNonNegative | loss/loss_yolact.py:192 | the segmentation loss is non-negative when the element loss is |
| Yolact.YolactLoss.constructor | loss/loss_yolact.py:7-20 | keeps the class count, the four weights, neg_pos_ratio and max_masks_for_train; the defaults are 1, 1.5, 6.125, 1, 3, 100 |
| Yolact.YolactLoss.Call | loss/loss_yolact.py:22-50 | returns the location, confidence, mask and segmentation losses of the batch, in that order, and their total weighted by the object's weights |
| Yolact.ComponentsNonNegative | loss/loss_yolact.py:41-45 | all four component losses are non-negative when the library's element losses are |

## Left out

- Floating point: every quantity is an exact real. float32 rounding, NaN and infinity are not modelled. `log` of a non-positive column 0 is whatever the supplied `log` returns.
- The library numerics are supplied functions and are not defined here. This covers the Huber loss and its per-anchor reduction over the 4 offsets, both cross-entropies, `tf.math.log` and the bilinear `tf.image.resize`.
- `utils.map_to_center_form` and `utils.crop` are not part of this model. The box area and the in-box test are supplied functions with the same roles.
- Zero divisors: the source divides by the positive count, the box area, the grid side and the batch size without a guard. The model follows the code and makes each divisor a precondition: the positive count, the grid side and the batch size non-zero, every matched box of positive area (`Mask.MaskImageOk`, which also excludes the negative areas the source would divide by). It does not use a guarded division that returns 0.
- Input shapes and index ranges are preconditions, not error paths: every `max_id` of a positive anchor names an existing mask and box, every matched object mask lies on the prototype grid (`Mask.MaskImageOk`), the kept classes lie in [0, num_classes) and there are as many kept classes as kept masks (`Segmentation.ImageSegOk`), and every predicted segmentation map is a square n x n x C grid (`Segmentation.ImageInputs`). On inputs that break these, `tf.gather` and `tensor_scatter_nd_update` raise an error on CPU and zero-fill or skip on GPU; the model does not cover either behaviour.
- Segmentation.Scatter: `tensor_scatter_nd_update` with a repeated class index is not defined in order by TensorFlow. The model takes the last write. Each update replaces the whole class channel, as the code writes, instead of being merged pixel by pixel.
- Rank quirks are not modelled: the `tf.squeeze` of a single positive (lines 134, 140-143), the `tf.squeeze` of a single label (line 111), and the resize squeeze of one object (line 180). The model reads all three places one-dimensionally: the positive indices, the labels and the resized masks each keep one entry per element even when there is only one. The source restores that reading itself only at lines 140-143 (the `expand_dims` of the coefficients and the `max_id`s); at lines 111 and 180 a single element gives a lower rank, which the model does not follow.
- The `max_masks_for_train` cap is a TODO in the source (line 137). Mask.LossMask takes the argument and, like the source, does not use it.
- Graph execution, `tf.range` loops as graph ops, and the unused `time` import are not modelled.
- Yolact.ComponentsNonNegative: it proves each component non-negative, not the weighted total. For the total, the weights must also be non-negative.
- Classification.MinedAnchorsAreNegatives: requires a non-negative `neg_pos_ratio`. With a negative ratio, the slice `[:num_neg_needed]` counts from the end; `Tensors.Prefix` models that, but this lemma does not cover it.
- Classification.MinedAnchorsScoreHighest: requires a non-negative `neg_pos_ratio`. With a negative ratio, the slice `[:num_neg_needed]` counts from the end; `Tensors.Prefix` models that, but this lemma does not cover it.
- Classification.HardNegativeMining: requires a non-negative `neg_pos_ratio`. With a negative ratio, the slice `[:num_neg_needed]` counts from the end; `Tensors.Prefix` models that, but this lemma does not cover it.
- Classification.TrainingSetSize: requires a non-negative `neg_pos_ratio`. With a negative ratio, the slice `[:num_neg_needed]` counts from the end; `Tensors.Prefix` models that, but this lemma does not cover it.
- Classification.LossClass: invariance under a reordering of the anchors within an image (with their targets reordered alike) is not proved, and it does not hold in general. When tied mining scores straddle the cut, the order picks the tied negative with the lower flat index, so a reordering can mine a different anchor. Example: flat positiveness [1, 0, 0], equal column-0 logits and ratio 1. Anchor 1 is mined; after swapping anchors 1 and 2 the other negative is mined, and the loss changes when the two negatives' logits or labels differ.
- Location.LossLocation: invariance under a reordering of the anchors within an image is not proved. The loss is a sum over the positive anchors, so it is expected to hold.
- Mask.LossMask: invariance under a reordering of the anchors within an image is not proved. Each image's contribution is a sum over its positive anchors, so it is expected to hold.
