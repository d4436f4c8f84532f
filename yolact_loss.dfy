/** The YOLACT training loss object: the constructor keeps the loss weights,
    and a call evaluates the four component losses on one batch and
    combines them into the weighted total. */
module Yolact {
  import opened Tensors
  import opened Indices
  import opened Library
  import Location
  import Classification
  import Mask
  import Segmentation

  /** The label dictionary y_true, one field per key. */
  datatype Labels = Labels(
    clsTargets: seq<seq<int>>,       // 'cls_targets'       [B, A]
    boxTargets: seq<Mat>,            // 'box_targets'       [B, A, 4]
    positiveness: seq<seq<int>>,     // 'positiveness'      [B, A]: 1 positive, 0 negative, else neutral
    bboxForNorm: seq<seq<Vec>>,      // 'bbox_for_norm'     [B, M, 4]
    maskTarget: seq<Tensor3>,        // 'mask_target'       [B, M, H, W]
    maxIdForAnchors: seq<seq<int>>,  // 'max_id_for_anchors' [B, A]
    classes: seq<seq<int>>,          // 'classes'           [B, M]
    numObj: seq<int>                 // 'num_obj'           [B]
  )

  /** The prediction dictionary y_pred, one field per key. */
  datatype Predictions = Predictions(
    predCls: seq<Mat>,               // 'pred_cls'          [B, A, C]
    predOffset: seq<Mat>,            // 'pred_offset'       [B, A, 4]
    predMaskCoef: seq<Mat>,          // 'pred_mask_coef'    [B, A, P]
    protoOut: seq<Tensor3>,          // 'proto_out'         [B, H, W, P]
    seg: seq<Tensor3>                // 'seg'               [B, S, S, C]
  )

  /** What the four component losses demand of one batch: each component's
      shapes, and at least one positive anchor (every component but the
      segmentation loss divides by the positive count unguarded). */
  predicate CallInputs(numClasses: nat, yTrue: Labels, yPred: Predictions, lib: Ops)
  {
    && Location.SameAnchors(yPred.predOffset, yTrue.boxTargets, yTrue.positiveness)
    && Classification.ClassInputs(yPred.predCls, yTrue.clsTargets, yTrue.positiveness, numClasses)
    && Mask.MaskInputs(yPred.protoOut, yPred.predMaskCoef, yTrue.bboxForNorm, yTrue.maskTarget,
                       yTrue.positiveness, yTrue.maxIdForAnchors, lib)
    && Segmentation.SegInputs(lib, yPred.seg, yTrue.maskTarget, yTrue.classes, yTrue.numObj)
    && |WherePairs(yTrue.positiveness, 1)| > 0
  }

  /** The four component losses of one batch, read off the labels and the
      predictions as `__call__` passes them on. */
  function LocationLoss(numClasses: nat, yTrue: Labels, yPred: Predictions, lib: Ops): real
    requires CallInputs(numClasses, yTrue, yPred, lib)
  {
    Location.LossLocation(yPred.predOffset, yTrue.boxTargets, yTrue.positiveness, lib)
  }

  function ConfidenceLoss(numClasses: nat, negPosRatio: int, yTrue: Labels, yPred: Predictions, lib: Ops): real
    requires CallInputs(numClasses, yTrue, yPred, lib)
  {
    PairCount(yTrue.positiveness, 1);
    Classification.LossClass(yPred.predCls, yTrue.clsTargets, yTrue.positiveness, numClasses, negPosRatio, lib)
  }

  function MaskLoss(numClasses: nat, yTrue: Labels, yPred: Predictions, lib: Ops): real
    requires CallInputs(numClasses, yTrue, yPred, lib)
  {
    Sum(Mask.ImageContributions(yPred.protoOut, yPred.predMaskCoef, yTrue.bboxForNorm,
                                yTrue.maskTarget, yTrue.positiveness, yTrue.maxIdForAnchors, lib))
    / |WherePairs(yTrue.positiveness, 1)| as real
  }

  function SegmentationLoss(numClasses: nat, yTrue: Labels, yPred: Predictions, lib: Ops): real
    requires CallInputs(numClasses, yTrue, yPred, lib)
  {
    Segmentation.Normalise(
      Segmentation.SegSum(lib, yPred.seg, yTrue.maskTarget, yTrue.classes, yTrue.numObj, |yTrue.maskTarget|),
      Segmentation.SegShape(yPred.seg), |yTrue.maskTarget|)
  }

  class YolactLoss {
    var numClasses: nat
    var classificationLossWeight: real
    var boxPredictionLossWeight: real
    var maskLossWeight: real
    var segmentationLossWeight: real
    var negPosRatio: int
    var maxMasksForTrain: int

    /** Keeps the class count and the weights; the defaults are those of the
        source. */
    constructor (numClasses: nat,
                 classificationLossWeight: real := 1.0,
                 boxPredictionLossWeight: real := 1.5,
                 maskLossWeight: real := 6.125,
                 segmentationLossWeight: real := 1.0,
                 negPosRatio: int := 3,
                 maxMasksForTrain: int := 100)
      ensures this.numClasses == numClasses
      ensures this.classificationLossWeight == classificationLossWeight
      ensures this.boxPredictionLossWeight == boxPredictionLossWeight
      ensures this.maskLossWeight == maskLossWeight
      ensures this.segmentationLossWeight == segmentationLossWeight
      ensures this.negPosRatio == negPosRatio
      ensures this.maxMasksForTrain == maxMasksForTrain
    {
      this.numClasses := numClasses;
      this.classificationLossWeight := classificationLossWeight;
      this.boxPredictionLossWeight := boxPredictionLossWeight;
      this.maskLossWeight := maskLossWeight;
      this.segmentationLossWeight := segmentationLossWeight;
      this.negPosRatio := negPosRatio;
      this.maxMasksForTrain := maxMasksForTrain;
    }

    /** `__call__`: the four component losses and their weighted total, in
        the order (location, confidence, mask, segmentation, total). */
    method Call(yTrue: Labels, yPred: Predictions, lib: Ops)
      returns (locLoss: real, confLoss: real, maskLoss: real, segLoss: real, totalLoss: real)
      requires CallInputs(numClasses, yTrue, yPred, lib)
      ensures locLoss == LocationLoss(numClasses, yTrue, yPred, lib)
      ensures confLoss == ConfidenceLoss(numClasses, negPosRatio, yTrue, yPred, lib)
      ensures maskLoss == MaskLoss(numClasses, yTrue, yPred, lib)
      ensures segLoss == SegmentationLoss(numClasses, yTrue, yPred, lib)
      ensures totalLoss == boxPredictionLossWeight * locLoss + classificationLossWeight * confLoss
                           + maskLossWeight * maskLoss + segmentationLossWeight * segLoss
    {
      PairCount(yTrue.positiveness, 1);
      locLoss := Location.LossLocation(yPred.predOffset, yTrue.boxTargets, yTrue.positiveness, lib);
      confLoss := Classification.LossClass(yPred.predCls, yTrue.clsTargets, yTrue.positiveness,
                                           numClasses, negPosRatio, lib);
      maskLoss := Mask.LossMask(yPred.protoOut, yPred.predMaskCoef, yTrue.bboxForNorm, yTrue.maskTarget,
                                yTrue.positiveness, yTrue.maxIdForAnchors, maxMasksForTrain, lib);
      segLoss := Segmentation.LossSemanticSegmentation(lib, yPred.seg, yTrue.maskTarget, yTrue.classes, yTrue.numObj);
      totalLoss := boxPredictionLossWeight * locLoss + classificationLossWeight * confLoss
                   + maskLossWeight * maskLoss + segmentationLossWeight * segLoss;
    }
  }

  /** When the library's element losses are never negative, neither is any
      component loss. */
  lemma ComponentsNonNegative(numClasses: nat, negPosRatio: int, yTrue: Labels, yPred: Predictions, lib: Ops)
    requires CallInputs(numClasses, yTrue, yPred, lib)
    requires NonNegativeLosses(lib)
    ensures 0.0 <= LocationLoss(numClasses, yTrue, yPred, lib)
    ensures 0.0 <= ConfidenceLoss(numClasses, negPosRatio, yTrue, yPred, lib)
    ensures 0.0 <= MaskLoss(numClasses, yTrue, yPred, lib)
    ensures 0.0 <= SegmentationLoss(numClasses, yTrue, yPred, lib)
  {
    LocationLossNonNegative(numClasses, yTrue, yPred, lib);
    ConfidenceLossNonNegative(numClasses, negPosRatio, yTrue, yPred, lib);
    MaskLossNonNegative(numClasses, yTrue, yPred, lib);
    SegmentationLossNonNegative(numClasses, yTrue, yPred, lib);
  }

  lemma LocationLossNonNegative(numClasses: nat, yTrue: Labels, yPred: Predictions, lib: Ops)
    requires CallInputs(numClasses, yTrue, yPred, lib)
    requires NonNegativeLosses(lib)
    ensures LocationLoss(numClasses, yTrue, yPred, lib) >= 0.0
  {
    Location.LocationNonNegative(yPred.predOffset, yTrue.boxTargets, yTrue.positiveness, lib);
  }

  lemma ConfidenceLossNonNegative(numClasses: nat, negPosRatio: int, yTrue: Labels, yPred: Predictions, lib: Ops)
    requires CallInputs(numClasses, yTrue, yPred, lib)
    requires NonNegativeLosses(lib)
    ensures ConfidenceLoss(numClasses, negPosRatio, yTrue, yPred, lib) >= 0.0
  {
    PairCount(yTrue.positiveness, 1);
    Classification.ClassNonNegative(yPred.predCls, yTrue.clsTargets, yTrue.positiveness, numClasses, negPosRatio, lib);
  }

  lemma MaskLossNonNegative(numClasses: nat, yTrue: Labels, yPred: Predictions, lib: Ops)
    requires CallInputs(numClasses, yTrue, yPred, lib)
    requires NonNegativeLosses(lib)
    ensures MaskLoss(numClasses, yTrue, yPred, lib) >= 0.0
  {
    Mask.MaskLossNonNegative(yPred.protoOut, yPred.predMaskCoef, yTrue.bboxForNorm, yTrue.maskTarget,
                             yTrue.positiveness, yTrue.maxIdForAnchors, lib);
  }

  lemma SegmentationLossNonNegative(numClasses: nat, yTrue: Labels, yPred: Predictions, lib: Ops)
    requires CallInputs(numClasses, yTrue, yPred, lib)
    requires NonNegativeLosses(lib)
    ensures SegmentationLoss(numClasses, yTrue, yPred, lib) >= 0.0
  {
    Segmentation.SegLossNonNegative(lib, yPred.seg, yTrue.maskTarget, yTrue.classes, yTrue.numObj);
  }
}
