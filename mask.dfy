/** `_loss_mask`: for every positive anchor, the predicted mask (a linear
    combination of the prototype channels with the anchor's coefficients)
    against the ground-truth mask of its matched object, cropped to that
    object's box and normalised by the box area; accumulated over the batch
    and divided by the total number of positives. */
module Mask {
  import opened Tensors
  import opened Indices
  import opened Library

  /** Every pixel of `proto` has one prototype value per coefficient in `c`. */
  predicate ProtoFits(proto: Tensor3, c: Vec)
  {
    forall i, j :: 0 <= i < |proto| && 0 <= j < |proto[i]| ==> |proto[i][j]| == |c|
  }

  /** `m` has the pixel grid of the prototypes. */
  predicate SameGrid(m: Mat, proto: Tensor3)
  {
    |m| == |proto| && forall i :: 0 <= i < |m| ==> |m[i]| == |proto[i]|
  }

  /** tf.linalg.matmul(proto, c, transpose_b=True): [H, W, P]. */
  function MatMulT(proto: Tensor3, c: Mat): (r: Tensor3)
    requires forall p :: 0 <= p < |c| ==> ProtoFits(proto, c[p])
    ensures |r| == |proto|
    ensures forall i :: 0 <= i < |r| ==> |r[i]| == |proto[i]|
    ensures forall i, j :: 0 <= i < |r| && 0 <= j < |r[i]| ==> |r[i][j]| == |c|
  {
    seq(|proto|, i requires 0 <= i < |proto| =>
      seq(|proto[i]|, j requires 0 <= j < |proto[i]| =>
        seq(|c|, p requires 0 <= p < |c| => assert ProtoFits(proto, c[p]); Dot(proto[i][j], c[p]))))
  }

  /** tf.transpose(t, perm=(2, 0, 1)) of an [H, W, n] tensor: [n, H, W]. */
  function Transpose201(t: Tensor3, n: nat): (r: Tensor3)
    requires forall i, j :: 0 <= i < |t| && 0 <= j < |t[i]| ==> |t[i][j]| == n
    ensures |r| == n
    ensures forall p, i :: 0 <= p < n && 0 <= i < |t| ==> |r[p]| == |t| && |r[p][i]| == |t[i]|
  {
    seq(n, p requires 0 <= p < n =>
      seq(|t|, i requires 0 <= i < |t| =>
        seq(|t[i]|, j requires 0 <= j < |t[i]| => t[i][j][p])))
  }

  /** utils.crop(s, boxes): element (i, j) of slice p is kept when the box
      of slice p contains it, and zeroed otherwise. */
  function Crop(inBox: (Vec, nat, nat) -> bool, s: Tensor3, boxes: seq<Vec>): (r: Tensor3)
    requires |boxes| == |s|
    ensures |r| == |s|
  {
    seq(|s|, p requires 0 <= p < |s| =>
      seq(|s[p]|, i requires 0 <= i < |s[p]| =>
        seq(|s[p][i]|, j requires 0 <= j < |s[p][i]| => if inBox(boxes[p], i, j) then s[p][i][j] else 0.0)))
  }

  /** What one image must provide: a coefficient row and a matched-object id
      per anchor and, for each positive anchor, coefficients that fit the
      prototypes, a matched object that exists, a ground-truth mask on the
      prototype grid and a box whose area is positive (the source divides
      by it unguarded). */
  predicate MaskImageOk(proto: Tensor3, coef: Mat, boxes: seq<Vec>, masks: Tensor3,
                        pos: seq<int>, maxId: seq<int>, lib: Ops)
  {
    && |coef| == |pos| && |maxId| == |pos|
    && forall a :: 0 <= a < |pos| && pos[a] == 1 ==>
         && ProtoFits(proto, coef[a])
         && 0 <= maxId[a] < |masks| && maxId[a] < |boxes|
         && SameGrid(masks[maxId[a]], proto)
         && lib.boxArea(boxes[maxId[a]]) > 0.0
  }

  /** pred_mask of one image: matmul with the positives' coefficients, then
      transpose to [num_pos, H, W]. */
  function PredictedMasks(proto: Tensor3, coef: Mat, boxes: seq<Vec>, masks: Tensor3,
                          pos: seq<int>, maxId: seq<int>, lib: Ops): (r: Tensor3)
    requires MaskImageOk(proto, coef, boxes, masks, pos, maxId, lib)
    ensures |r| == |Where(pos, 1)|
    ensures forall p :: 0 <= p < |r| ==> SameGrid(r[p], proto)
  {
    var posIndices := Where(pos, 1);
    var posMaskCoef := Gather(coef, posIndices);
    Transpose201(MatMulT(proto, posMaskCoef), |posIndices|)
  }

  /** gt and bbox of one image: gathered by the positives' matched ids. */
  function MatchedMasks(proto: Tensor3, coef: Mat, boxes: seq<Vec>, masks: Tensor3,
                        pos: seq<int>, maxId: seq<int>, lib: Ops): (r: Tensor3)
    requires MaskImageOk(proto, coef, boxes, masks, pos, maxId, lib)
    ensures |r| == |Where(pos, 1)|
    ensures forall p :: 0 <= p < |r| ==> SameGrid(r[p], proto)
  {
    var posIndices := Where(pos, 1);
    Gather(masks, Gather(maxId, posIndices))
  }

  function MatchedBoxes(proto: Tensor3, coef: Mat, boxes: seq<Vec>, masks: Tensor3,
                        pos: seq<int>, maxId: seq<int>, lib: Ops): (r: seq<Vec>)
    requires MaskImageOk(proto, coef, boxes, masks, pos, maxId, lib)
    ensures |r| == |Where(pos, 1)|
  {
    var posIndices := Where(pos, 1);
    Gather(boxes, Gather(maxId, posIndices))
  }

  /** The per-image body of the batch loop, in the source's steps: the
      element losses of the predicted masks against their targets, cropped to
      the boxes, summed per anchor over the box area, then over the anchors. */
  function ImageMaskLoss(proto: Tensor3, coef: Mat, boxes: seq<Vec>, masks: Tensor3,
                         pos: seq<int>, maxId: seq<int>, lib: Ops): real
    requires MaskImageOk(proto, coef, boxes, masks, pos, maxId, lib)
  {
    var numPos := |Where(pos, 1)|;
    var predMask := PredictedMasks(proto, coef, boxes, masks, pos, maxId, lib);
    var gt := MatchedMasks(proto, coef, boxes, masks, pos, maxId, lib);
    var bbox := MatchedBoxes(proto, coef, boxes, masks, pos, maxId, lib);
    ImageMaskGathered(lib, numPos, predMask, gt, bbox)
  }

  /** The crop, per-anchor sum and area division of the loop body, on
      gathered per-anchor data. The areas are positive whenever this is reached from `ImageMaskLoss`. */
  function ImageMaskGathered(lib: Ops, numPos: nat, predMask: Tensor3, gt: Tensor3, bbox: seq<Vec>): real
    requires |predMask| == numPos && |gt| == numPos && |bbox| == numPos
    requires forall p :: 0 <= p < numPos ==> |gt[p]| == |predMask[p]|
    requires forall p, i :: 0 <= p < numPos && 0 <= i < |predMask[p]| ==> |gt[p][i]| == |predMask[p][i]|
    requires forall p :: 0 <= p < numPos ==> lib.boxArea(bbox[p]) > 0.0
  {
    var area := seq(numPos, p requires 0 <= p < numPos => lib.boxArea(bbox[p]));
    var s := Crop(lib.inBox, SigmoidXent(lib.sigmoidXent, gt, predMask), bbox);
    var loss := seq(numPos, p requires 0 <= p < numPos => Sum2(s[p]) / area[p]);
    Sum(loss)
  }

  /** Reference definition of one positive anchor's contribution, written
      directly: the predicted value at pixel (i, j) is
      sum_k proto[i][j][k] * c[k]; pixels outside the box count zero. */
  function AnchorMaskGrid(proto: Tensor3, c: Vec, gt: Mat, box: Vec, lib: Ops): (r: Mat)
    requires ProtoFits(proto, c) && SameGrid(gt, proto)
    ensures SameGrid(r, proto)
  {
    seq(|proto|, i requires 0 <= i < |proto| =>
      seq(|proto[i]|, j requires 0 <= j < |proto[i]| =>
        if lib.inBox(box, i, j) then lib.sigmoidXent(gt[i][j], Dot(proto[i][j], c)) else 0.0))
  }

  function AnchorMaskLoss(proto: Tensor3, c: Vec, gt: Mat, box: Vec, lib: Ops): real
    requires ProtoFits(proto, c) && SameGrid(gt, proto) && lib.boxArea(box) > 0.0
  {
    Sum2(AnchorMaskGrid(proto, c, gt, box, lib)) / lib.boxArea(box)
  }

  /** The reference contribution of an image: anchor `a`'s loss uses its own
      coefficients coef[a] and the mask and box of its matched object maxId[a]. */
  function ReferenceImageLoss(proto: Tensor3, coef: Mat, boxes: seq<Vec>, masks: Tensor3,
                              pos: seq<int>, maxId: seq<int>, lib: Ops): real
    requires MaskImageOk(proto, coef, boxes, masks, pos, maxId, lib)
  {
    var posIndices := Where(pos, 1);
    Sum(seq(|posIndices|, p requires 0 <= p < |posIndices| =>
      var a := posIndices[p];
      AnchorMaskLoss(proto, coef[a], masks[maxId[a]], boxes[maxId[a]], lib)))
  }

  /** The p-th predicted mask is the linear combination of the prototype
      channels with the p-th positive anchor's coefficients:
      pred_mask[p][i][j] = sum_k proto[i][j][k] * coef[a][k]. */
  lemma PrototypeCombination(proto: Tensor3, coef: Mat, boxes: seq<Vec>, masks: Tensor3,
                             pos: seq<int>, maxId: seq<int>, lib: Ops, p: nat)
    requires MaskImageOk(proto, coef, boxes, masks, pos, maxId, lib)
    requires p < |Where(pos, 1)|
    ensures var a := Where(pos, 1)[p];
      var predMask := PredictedMasks(proto, coef, boxes, masks, pos, maxId, lib);
      && pos[a] == 1
      && ProtoFits(proto, coef[a])
      && forall i, j :: 0 <= i < |proto| && 0 <= j < |proto[i]| ==>
           predMask[p][i][j] == Dot(proto[i][j], coef[a])
  {
    var posIndices := Where(pos, 1);
    var a := posIndices[p];
    var posMaskCoef := Gather(coef, posIndices);
    var m := MatMulT(proto, posMaskCoef);
    assert posMaskCoef[p] == coef[a];
    forall i, j | 0 <= i < |proto| && 0 <= j < |proto[i]|
      ensures m[i][j][p] == Dot(proto[i][j], coef[a])
    {
    }
  }

  /** The predicted masks are linear in the mask coefficients: predicting
      with coefA[a] + x * coefB[a] for every positive anchor a gives, at
      every mask p and pixel (i, j), the value predicted with coefA plus x
      times the value predicted with coefB. */
  lemma PredictedMasksLinear(proto: Tensor3, coefA: Mat, coefB: Mat, coefC: Mat, x: real,
                             boxes: seq<Vec>, masks: Tensor3, pos: seq<int>, maxId: seq<int>, lib: Ops,
                             p: nat, i: nat, j: nat)
    requires MaskImageOk(proto, coefA, boxes, masks, pos, maxId, lib)
    requires MaskImageOk(proto, coefB, boxes, masks, pos, maxId, lib)
    requires MaskImageOk(proto, coefC, boxes, masks, pos, maxId, lib)
    requires forall a :: 0 <= a < |pos| && pos[a] == 1 ==>
      |coefB[a]| == |coefA[a]| && coefC[a] == Add(coefA[a], Scale(x, coefB[a]))
    requires p < |Where(pos, 1)| && i < |proto| && j < |proto[i]|
    ensures PredictedMasks(proto, coefC, boxes, masks, pos, maxId, lib)[p][i][j]
         == PredictedMasks(proto, coefA, boxes, masks, pos, maxId, lib)[p][i][j]
            + x * PredictedMasks(proto, coefB, boxes, masks, pos, maxId, lib)[p][i][j]
  {
    var a := Where(pos, 1)[p];
    PrototypeCombination(proto, coefA, boxes, masks, pos, maxId, lib, p);
    PrototypeCombination(proto, coefB, boxes, masks, pos, maxId, lib, p);
    PrototypeCombination(proto, coefC, boxes, masks, pos, maxId, lib, p);
    DotCombination(proto[i][j], coefA[a], coefB[a], coefC[a], x);
  }

  lemma DotCombination(u: Vec, cA: Vec, cB: Vec, cC: Vec, x: real)
    requires |u| == |cA| == |cB| && cC == Add(cA, Scale(x, cB))
    ensures Dot(u, cC) == Dot(u, cA) + x * Dot(u, cB)
  {
    DotAdd(u, cA, Scale(x, cB));
    DotScale(u, x, cB);
  }

  /** The target mask and box of the p-th positive anchor are those of the
      object it is matched to, maxId[a]. */
  lemma MatchedTargets(proto: Tensor3, coef: Mat, boxes: seq<Vec>, masks: Tensor3,
                       pos: seq<int>, maxId: seq<int>, lib: Ops, p: nat)
    requires MaskImageOk(proto, coef, boxes, masks, pos, maxId, lib)
    requires p < |Where(pos, 1)|
    ensures var a := Where(pos, 1)[p];
      && pos[a] == 1
      && 0 <= maxId[a] < |masks| && maxId[a] < |boxes|
      && MatchedMasks(proto, coef, boxes, masks, pos, maxId, lib)[p] == masks[maxId[a]]
      && MatchedBoxes(proto, coef, boxes, masks, pos, maxId, lib)[p] == boxes[maxId[a]]
  {
  }

  /** One slice of the cropped element losses is the reference grid of the
      anchor whose prediction, target and box it was built from. */
  lemma CroppedSlice(lib: Ops, predMask: Tensor3, gt: Tensor3, bbox: seq<Vec>, p: nat,
                     proto: Tensor3, c: Vec, target: Mat, box: Vec)
    requires |gt| == |predMask| && |bbox| == |predMask| && p < |predMask|
    requires forall q :: 0 <= q < |predMask| ==> |gt[q]| == |predMask[q]|
    requires forall q, i :: 0 <= q < |predMask| && 0 <= i < |predMask[q]| ==> |gt[q][i]| == |predMask[q][i]|
    requires ProtoFits(proto, c) && SameGrid(target, proto) && SameGrid(predMask[p], proto)
    requires forall i, j :: 0 <= i < |proto| && 0 <= j < |proto[i]| ==> predMask[p][i][j] == Dot(proto[i][j], c)
    requires gt[p] == target && bbox[p] == box
    ensures Crop(lib.inBox, SigmoidXent(lib.sigmoidXent, gt, predMask), bbox)[p] == AnchorMaskGrid(proto, c, target, box, lib)
  {
    var s := Crop(lib.inBox, SigmoidXent(lib.sigmoidXent, gt, predMask), bbox);
    var g := AnchorMaskGrid(proto, c, target, box, lib);
    assert |s[p]| == |g|;
    forall i | 0 <= i < |g| ensures s[p][i] == g[i] {
      assert |s[p][i]| == |g[i]|;
    }
  }

  /** Computed in the source's steps, an image's contribution is the sum
      over its positive anchors of the reference per-anchor loss. */
  lemma ImageLossIsReference(proto: Tensor3, coef: Mat, boxes: seq<Vec>, masks: Tensor3,
                             pos: seq<int>, maxId: seq<int>, lib: Ops)
    requires MaskImageOk(proto, coef, boxes, masks, pos, maxId, lib)
    ensures ImageMaskLoss(proto, coef, boxes, masks, pos, maxId, lib)
         == ReferenceImageLoss(proto, coef, boxes, masks, pos, maxId, lib)
  {
    var posIndices := Where(pos, 1);
    var numPos := |posIndices|;
    var predMask := PredictedMasks(proto, coef, boxes, masks, pos, maxId, lib);
    var gt := MatchedMasks(proto, coef, boxes, masks, pos, maxId, lib);
    var bbox := MatchedBoxes(proto, coef, boxes, masks, pos, maxId, lib);
    var area := seq(numPos, p requires 0 <= p < numPos => lib.boxArea(bbox[p]));
    var s := Crop(lib.inBox, SigmoidXent(lib.sigmoidXent, gt, predMask), bbox);
    var loss := seq(numPos, p requires 0 <= p < numPos => Sum2(s[p]) / area[p]);
    var reference := seq(numPos, p requires 0 <= p < numPos =>
      var a := posIndices[p];
      AnchorMaskLoss(proto, coef[a], masks[maxId[a]], boxes[maxId[a]], lib));
    forall p | 0 <= p < numPos ensures loss[p] == reference[p] {
      var a := posIndices[p];
      PrototypeCombination(proto, coef, boxes, masks, pos, maxId, lib, p);
      MatchedTargets(proto, coef, boxes, masks, pos, maxId, lib, p);
      CroppedSlice(lib, predMask, gt, bbox, p, proto, coef[a], masks[maxId[a]], boxes[maxId[a]]);
    }
    assert loss == reference;
  }

  /** The crop makes an anchor's loss depend only on the pixels inside its
      box: targets and prototypes may differ arbitrarily outside it. */
  lemma CropIgnoresOutside(lib: Ops, protoA: Tensor3, protoB: Tensor3, c: Vec, gtA: Mat, gtB: Mat, box: Vec)
    requires ProtoFits(protoA, c) && ProtoFits(protoB, c)
    requires SameGrid(gtA, protoA) && SameGrid(gtB, protoB)
    requires |protoA| == |protoB| && forall i :: 0 <= i < |protoA| ==> |protoA[i]| == |protoB[i]|
    requires forall i, j :: 0 <= i < |protoA| && 0 <= j < |protoA[i]| && lib.inBox(box, i, j) ==>
               gtA[i][j] == gtB[i][j] && protoA[i][j] == protoB[i][j]
    requires lib.boxArea(box) > 0.0
    ensures AnchorMaskLoss(protoA, c, gtA, box, lib) == AnchorMaskLoss(protoB, c, gtB, box, lib)
  {
    var gA := AnchorMaskGrid(protoA, c, gtA, box, lib);
    var gB := AnchorMaskGrid(protoB, c, gtB, box, lib);
    forall i | 0 <= i < |gA| ensures gA[i] == gB[i] {
      assert |gA[i]| == |gB[i]|;
    }
    assert gA == gB;
  }

  lemma AnchorMaskLossNonNegative(proto: Tensor3, c: Vec, gt: Mat, box: Vec, lib: Ops)
    requires ProtoFits(proto, c) && SameGrid(gt, proto) && lib.boxArea(box) > 0.0
    requires NonNegativeLosses(lib)
    ensures AnchorMaskLoss(proto, c, gt, box, lib) >= 0.0
  {
    var g := AnchorMaskGrid(proto, c, gt, box, lib);
    forall i, j | 0 <= i < |g| && 0 <= j < |g[i]| ensures g[i][j] >= 0.0 {
      if lib.inBox(box, i, j) {
        assert g[i][j] == lib.sigmoidXent(gt[i][j], Dot(proto[i][j], c));
        SigmoidXentNonNegative(lib, gt[i][j], Dot(proto[i][j], c));
      } else {
        assert g[i][j] == 0.0;
      }
    }
    Sum2NonNegative(g);
    QuotientNonNegative(Sum2(g), lib.boxArea(box));
  }

  lemma ImageMaskLossNonNegative(proto: Tensor3, coef: Mat, boxes: seq<Vec>, masks: Tensor3,
                                 pos: seq<int>, maxId: seq<int>, lib: Ops)
    requires MaskImageOk(proto, coef, boxes, masks, pos, maxId, lib)
    requires NonNegativeLosses(lib)
    ensures ImageMaskLoss(proto, coef, boxes, masks, pos, maxId, lib) >= 0.0
  {
    ImageLossIsReference(proto, coef, boxes, masks, pos, maxId, lib);
    var posIndices := Where(pos, 1);
    var reference := seq(|posIndices|, p requires 0 <= p < |posIndices| =>
      var a := posIndices[p];
      AnchorMaskLoss(proto, coef[a], masks[maxId[a]], boxes[maxId[a]], lib));
    forall p | 0 <= p < |posIndices| ensures reference[p] >= 0.0 {
      var a := posIndices[p];
      AnchorMaskLossNonNegative(proto, coef[a], masks[maxId[a]], boxes[maxId[a]], lib);
    }
    SumNonNegative(reference);
  }

  /** The batched inputs: one image's worth of each per batch entry. */
  predicate MaskInputs(protos: seq<Tensor3>, coefs: seq<Mat>, boxes: seq<seq<Vec>>, masks: seq<Tensor3>,
                       positiveness: seq<seq<int>>, maxIds: seq<seq<int>>, lib: Ops)
  {
    && |coefs| == |protos| && |boxes| == |protos| && |masks| == |protos|
    && |positiveness| == |protos| && |maxIds| == |protos|
    && forall b :: 0 <= b < |protos| ==>
         MaskImageOk(protos[b], coefs[b], boxes[b], masks[b], positiveness[b], maxIds[b], lib)
  }

  /** Each image's contribution to the accumulated mask loss. */
  function ImageContributions(protos: seq<Tensor3>, coefs: seq<Mat>, boxes: seq<seq<Vec>>, masks: seq<Tensor3>,
                              positiveness: seq<seq<int>>, maxIds: seq<seq<int>>, lib: Ops): (r: seq<real>)
    requires MaskInputs(protos, coefs, boxes, masks, positiveness, maxIds, lib)
    ensures |r| == |protos|
  {
    seq(|protos|, b requires 0 <= b < |protos| =>
      ImageMaskLoss(protos[b], coefs[b], boxes[b], masks[b], positiveness[b], maxIds[b], lib))
  }

  /** The mask loss `LossMask` returns is never negative. */
  lemma MaskLossNonNegative(protos: seq<Tensor3>, coefs: seq<Mat>, boxes: seq<seq<Vec>>, masks: seq<Tensor3>,
                            positiveness: seq<seq<int>>, maxIds: seq<seq<int>>, lib: Ops)
    requires MaskInputs(protos, coefs, boxes, masks, positiveness, maxIds, lib)
    requires |WherePairs(positiveness, 1)| > 0
    requires NonNegativeLosses(lib)
    ensures Sum(ImageContributions(protos, coefs, boxes, masks, positiveness, maxIds, lib))
            / |WherePairs(positiveness, 1)| as real >= 0.0
  {
    var c := ImageContributions(protos, coefs, boxes, masks, positiveness, maxIds, lib);
    forall b | 0 <= b < |c| ensures c[b] >= 0.0 {
      ImageMaskLossNonNegative(protos[b], coefs[b], boxes[b], masks[b], positiveness[b], maxIds[b], lib);
    }
    SumNonNegative(c);
    QuotientNonNegative(Sum(c), |WherePairs(positiveness, 1)| as real);
  }

  /** One iteration of the batch loop adds image `idx`'s contribution to the
      running loss and its positive count to the running total. */
  lemma MaskLoopStep(protos: seq<Tensor3>, coefs: seq<Mat>, boxes: seq<seq<Vec>>, masks: seq<Tensor3>,
                     positiveness: seq<seq<int>>, maxIds: seq<seq<int>>, lib: Ops, idx: nat)
    requires MaskInputs(protos, coefs, boxes, masks, positiveness, maxIds, lib)
    requires idx < |protos|
    ensures MaskImageOk(protos[idx], coefs[idx], boxes[idx], masks[idx], positiveness[idx], maxIds[idx], lib)
    ensures var c := ImageContributions(protos, coefs, boxes, masks, positiveness, maxIds, lib);
      && Sum(c[..idx + 1])
         == Sum(c[..idx]) + ImageMaskLoss(protos[idx], coefs[idx], boxes[idx], masks[idx], positiveness[idx], maxIds[idx], lib)
      && RowCounts(positiveness[..idx + 1], 1) == RowCounts(positiveness[..idx], 1) + |Where(positiveness[idx], 1)|
  {
    var c := ImageContributions(protos, coefs, boxes, masks, positiveness, maxIds, lib);
    assert positiveness[..idx + 1][..idx] == positiveness[..idx];
    assert c[..idx + 1][..idx] == c[..idx];
  }

  /** The batch loop: accumulates every image's contribution and the number
      of positives, then divides (unguarded in the source, hence the second
      precondition). `maxMasksForTrain` is accepted and, as in the source,
      not used. The positives counted are the (image, anchor) pairs the
      localisation loss gathers. */
  method LossMask(protos: seq<Tensor3>, coefs: seq<Mat>, boxes: seq<seq<Vec>>, masks: seq<Tensor3>,
                  positiveness: seq<seq<int>>, maxIds: seq<seq<int>>, maxMasksForTrain: int, lib: Ops)
    returns (lossMask: real)
    requires MaskInputs(protos, coefs, boxes, masks, positiveness, maxIds, lib)
    requires |WherePairs(positiveness, 1)| > 0
    ensures lossMask == Sum(ImageContributions(protos, coefs, boxes, masks, positiveness, maxIds, lib))
                        / |WherePairs(positiveness, 1)| as real
  {
    var batchSize := |protos|;
    ghost var contributions := ImageContributions(protos, coefs, boxes, masks, positiveness, maxIds, lib);
    lossMask := 0.0;
    var totalPos := 0;
    var idx := 0;
    while idx < batchSize
      invariant 0 <= idx <= batchSize
      invariant lossMask == Sum(contributions[..idx])
      invariant totalPos == RowCounts(positiveness[..idx], 1)
    {
      MaskLoopStep(protos, coefs, boxes, masks, positiveness, maxIds, lib, idx);
      var posIndices := Where(positiveness[idx], 1);
      totalPos := totalPos + |posIndices|;
      var imageLoss := ImageMaskLoss(protos[idx], coefs[idx], boxes[idx], masks[idx], positiveness[idx], maxIds[idx], lib);
      lossMask := lossMask + imageLoss;
      idx := idx + 1;
    }
    assert positiveness[..idx] == positiveness;
    assert contributions[..idx] == contributions;
    PairCount(positiveness, 1);
    lossMask := lossMask / totalPos as real;
  }
}
