/** `_loss_class`: softmax cross-entropy over the positive anchors and the
    hard-mined negatives of the flattened batch, divided by the number of
    positives. */
module Classification {
  import opened Tensors
  import opened Indices
  import opened Argsort
  import opened Library

  /** tf.one_hot(cls, depth): all zeros when `cls` is outside [0, depth). */
  function OneHot(cls: int, depth: nat): (r: Vec)
    ensures |r| == depth
  {
    seq(depth, c => if c == cls then 1.0 else 0.0)
  }

  /** The flattened logits have one row per anchor, each with a column 0. */
  predicate FlatInputs(flatPred: seq<Vec>, flatGt: seq<int>, flatPos: seq<int>)
  {
    && |flatPred| == |flatPos| && |flatGt| == |flatPos|
    && forall i :: 0 <= i < |flatPred| ==> |flatPred[i]| > 0
  }

  /** -log of column 0 of an anchor's raw class outputs (no softmax is applied). */
  function NegativeScore(log: real -> real, row: Vec): real
    requires |row| > 0
  {
    -1.0 * log(row[0])
  }

  function NegativeScores(log: real -> real, negPred: seq<Vec>): (r: seq<real>)
    requires forall j :: 0 <= j < |negPred| ==> |negPred[j]| > 0
    ensures |r| == |negPred|
    ensures forall j :: 0 <= j < |negPred| ==> r[j] == NegativeScore(log, negPred[j])
  {
    seq(|negPred|, j requires 0 <= j < |negPred| => NegativeScore(log, negPred[j]))
  }

  /** The mining scores neg_minus_log_class0: one per negative, in the
      order `tf.where` lists the negatives. */
  function MiningScores(flatPred: seq<Vec>, flatPos: seq<int>, log: real -> real): (r: seq<real>)
    requires |flatPred| == |flatPos| && forall i :: 0 <= i < |flatPred| ==> |flatPred[i]| > 0
    ensures |r| == |Where(flatPos, 0)|
  {
    NegativeScores(log, Gather(flatPred, Where(flatPos, 0)))
  }

  /** neg_indices_for_loss: the first num_pos * neg_pos_ratio entries of a
      descending argsort `order` of the mining scores, as positions within
      the list of negatives. */
  function SelectedNegatives(flatPred: seq<Vec>, flatPos: seq<int>, negPosRatio: int, log: real -> real,
                             order: seq<int>): (sel: seq<int>)
    requires |flatPred| == |flatPos| && forall i :: 0 <= i < |flatPred| ==> |flatPred[i]| > 0
    requires IsDescendingArgsort(MiningScores(flatPred, flatPos, log), order)
    ensures forall k :: 0 <= k < |sel| ==> 0 <= sel[k] < |Where(flatPos, 0)|
  {
    var numPos := |Where(flatPos, 1)|;
    var numNegNeeded := numPos * negPosRatio;
    var sel := Prefix(order, numNegNeeded);
    assert forall k :: 0 <= k < |sel| ==> sel[k] == order[k];
    sel
  }

  /** The flat anchor indices of the mined negatives. */
  function HardNegativeAnchors(flatPred: seq<Vec>, flatPos: seq<int>, negPosRatio: int, log: real -> real,
                               order: seq<int>): seq<nat>
    requires |flatPred| == |flatPos| && forall i :: 0 <= i < |flatPred| ==> |flatPred[i]| > 0
    requires IsDescendingArgsort(MiningScores(flatPred, flatPos, log), order)
  {
    Gather(Where(flatPos, 0), SelectedNegatives(flatPred, flatPos, negPosRatio, log, order))
  }

  datatype TrainingSet = TrainingSet(logits: seq<Vec>, labels: seq<int>)

  /** target_logits and the labels behind target_labels: the positives, then
      the mined negatives, each with its own class target. */
  function AssembleTrainingSet(flatPred: seq<Vec>, flatGt: seq<int>, flatPos: seq<int>,
                               negPosRatio: int, log: real -> real, order: seq<int>): TrainingSet
    requires FlatInputs(flatPred, flatGt, flatPos)
    requires IsDescendingArgsort(MiningScores(flatPred, flatPos, log), order)
  {
    var posIndices := Where(flatPos, 1);
    var negIndices := Where(flatPos, 0);
    var posPred := Gather(flatPred, posIndices);
    var posGt := Gather(flatGt, posIndices);
    var negPred := Gather(flatPred, negIndices);
    var negGt := Gather(flatGt, negIndices);
    var sel := SelectedNegatives(flatPred, flatPos, negPosRatio, log, order);
    TrainingSet(posPred + Gather(negPred, sel), posGt + Gather(negGt, sel))
  }

  /** reduce_sum of the per-anchor cross-entropies of the training set. */
  function XentSum(xent: (Vec, Vec) -> real, numClasses: nat, logits: seq<Vec>, labels: seq<int>): real
    requires |logits| == |labels|
  {
    if |labels| == 0 then 0.0
    else
      var n := |labels| - 1;
      XentSum(xent, numClasses, logits[..n], labels[..n]) + xent(OneHot(labels[n], numClasses), logits[n])
  }

  /** The batched inputs: one row of `numClasses` outputs per (image, anchor). */
  predicate ClassInputs(predCls: seq<Mat>, gtCls: seq<seq<int>>, positiveness: seq<seq<int>>, numClasses: nat)
  {
    && 0 < numClasses
    && |predCls| == |positiveness| && |gtCls| == |positiveness|
    && (forall b :: 0 <= b < |positiveness| ==>
          |predCls[b]| == |positiveness[b]| && |gtCls[b]| == |positiveness[b]|)
    && (forall b, a :: 0 <= b < |predCls| && 0 <= a < |predCls[b]| ==> |predCls[b][a]| == numClasses)
  }

  lemma FlattenClassInputs(predCls: seq<Mat>, gtCls: seq<seq<int>>, positiveness: seq<seq<int>>, numClasses: nat)
    requires ClassInputs(predCls, gtCls, positiveness, numClasses)
    ensures FlatInputs(Flatten(predCls), Flatten(gtCls), Flatten(positiveness))
    ensures forall i :: 0 <= i < |Flatten(predCls)| ==> |Flatten(predCls)[i]| == numClasses
  {
    FlattenSameShape(predCls, positiveness);
    FlattenSameShape(gtCls, positiveness);
    FlattenWidth(predCls, numClasses);
  }

  /** The classification loss, with the negatives mined along the library's
      argsort (ties lower index first). The division by the positive count
      is unguarded in the source, hence the last precondition. */
  function LossClass(predCls: seq<Mat>, gtCls: seq<seq<int>>, positiveness: seq<seq<int>>,
                     numClasses: nat, negPosRatio: int, lib: Ops): real
    requires ClassInputs(predCls, gtCls, positiveness, numClasses)
    requires |Where(Flatten(positiveness), 1)| > 0
  {
    FlattenClassInputs(predCls, gtCls, positiveness, numClasses);
    var flatPred := Flatten(predCls);
    var flatGt := Flatten(gtCls);
    var flatPos := Flatten(positiveness);
    var order := ArgsortDescending(MiningScores(flatPred, flatPos, lib.log));
    var ts := AssembleTrainingSet(flatPred, flatGt, flatPos, negPosRatio, lib.log, order);
    var numPos := |Where(flatPos, 1)|;
    XentSum(lib.softmaxXent, numClasses, ts.logits, ts.labels) / numPos as real
  }

  /** The score the mining step gives the negative at flat index `i`. */
  function AnchorScore(flatPred: seq<Vec>, log: real -> real, i: nat): real
    requires i < |flatPred| && |flatPred[i]| > 0
  {
    NegativeScore(log, flatPred[i])
  }

  /** Whatever descending argsort breaks the ties, the mined anchors are
      min(num_pos * neg_pos_ratio, #negatives) distinct negatives. */
  lemma MinedAnchorsAreNegatives(flatPred: seq<Vec>, flatPos: seq<int>, negPosRatio: int, log: real -> real,
                                 order: seq<int>)
    requires |flatPred| == |flatPos| && forall i :: 0 <= i < |flatPred| ==> |flatPred[i]| > 0
    requires IsDescendingArgsort(MiningScores(flatPred, flatPos, log), order)
    requires 0 <= negPosRatio
    ensures var negIndices := Where(flatPos, 0);
      var needed := |Where(flatPos, 1)| * negPosRatio;
      var anchors := HardNegativeAnchors(flatPred, flatPos, negPosRatio, log, order);
      && |anchors| == (if needed <= |negIndices| then needed else |negIndices|)
      && (forall k :: 0 <= k < |anchors| ==> anchors[k] < |flatPos| && flatPos[anchors[k]] == 0)
      && Distinct(anchors)
  {
    var negIndices := Where(flatPos, 0);
    var needed := |Where(flatPos, 1)| * negPosRatio;
    var scores := MiningScores(flatPred, flatPos, log);
    var sel := SelectedNegatives(flatPred, flatPos, negPosRatio, log, order);
    assert sel == Prefix(order, needed);
    TopK(scores, order, needed);
    WhereComplete(flatPos, 0);
    GatherIncreasingDistinct(negIndices, sel);
  }

  /** Whatever descending argsort breaks the ties, the mined anchors come in
      descending score, and each scores at least as high as every negative
      left out. */
  lemma MinedAnchorsScoreHighest(flatPred: seq<Vec>, flatPos: seq<int>, negPosRatio: int, log: real -> real,
                                 order: seq<int>)
    requires |flatPred| == |flatPos| && forall i :: 0 <= i < |flatPred| ==> |flatPred[i]| > 0
    requires IsDescendingArgsort(MiningScores(flatPred, flatPos, log), order)
    requires 0 <= negPosRatio
    ensures var anchors := HardNegativeAnchors(flatPred, flatPos, negPosRatio, log, order);
      && (forall k :: 0 <= k < |anchors| ==> anchors[k] < |flatPos|)
      && (forall p, q :: 0 <= p < q < |anchors| ==>
            AnchorScore(flatPred, log, anchors[p]) >= AnchorScore(flatPred, log, anchors[q]))
      && (forall k, i :: 0 <= k < |anchors| && 0 <= i < |flatPos| && flatPos[i] == 0 && i !in anchors ==>
            AnchorScore(flatPred, log, anchors[k]) >= AnchorScore(flatPred, log, i))
  {
    var negIndices := Where(flatPos, 0);
    var needed := |Where(flatPos, 1)| * negPosRatio;
    var all := NegativeScores(log, flatPred);
    var scores := MiningScores(flatPred, flatPos, log);
    assert scores == Gather(all, negIndices);
    var anchors := HardNegativeAnchors(flatPred, flatPos, negPosRatio, log, order);
    assert anchors == Gather(negIndices, Prefix(order, needed));
    WhereComplete(flatPos, 0);
    TopKGathered(all, negIndices, order, needed);
    forall k, i | 0 <= k < |anchors| && 0 <= i < |flatPos| && flatPos[i] == 0 && i !in anchors
      ensures all[anchors[k]] >= all[i]
    {
      assert i in negIndices;
    }
  }

  /** Hard-negative mining, for every descending argsort of the scores: the
      mined anchors are exactly min(num_pos * neg_pos_ratio, #negatives)
      distinct negatives, listed in descending score, and each scores at
      least as high as every negative left out. */
  lemma HardNegativeMining(flatPred: seq<Vec>, flatPos: seq<int>, negPosRatio: int, log: real -> real,
                           order: seq<int>)
    requires |flatPred| == |flatPos| && forall i :: 0 <= i < |flatPred| ==> |flatPred[i]| > 0
    requires IsDescendingArgsort(MiningScores(flatPred, flatPos, log), order)
    requires 0 <= negPosRatio
    ensures var negIndices := Where(flatPos, 0);
      var needed := |Where(flatPos, 1)| * negPosRatio;
      var anchors := HardNegativeAnchors(flatPred, flatPos, negPosRatio, log, order);
      && |anchors| == (if needed <= |negIndices| then needed else |negIndices|)
      && (forall k :: 0 <= k < |anchors| ==> anchors[k] < |flatPos| && flatPos[anchors[k]] == 0)
      && Distinct(anchors)
      && (forall p, q :: 0 <= p < q < |anchors| ==>
            AnchorScore(flatPred, log, anchors[p]) >= AnchorScore(flatPred, log, anchors[q]))
      && (forall k, i :: 0 <= k < |anchors| && 0 <= i < |flatPos| && flatPos[i] == 0 && i !in anchors ==>
            AnchorScore(flatPred, log, anchors[k]) >= AnchorScore(flatPred, log, i))
  {
    MinedAnchorsAreNegatives(flatPred, flatPos, negPosRatio, log, order);
    MinedAnchorsScoreHighest(flatPred, flatPos, negPosRatio, log, order);
  }

  /** The assembled training set: the positives first, in ascending flat
      index, then the mined negatives; every entry carries its own anchor's
      logits and class target (a negative's target is not reset to 0). */
  lemma AssembledTrainingSet(flatPred: seq<Vec>, flatGt: seq<int>, flatPos: seq<int>, negPosRatio: int, log: real -> real,
                             order: seq<int>)
    requires FlatInputs(flatPred, flatGt, flatPos)
    requires IsDescendingArgsort(MiningScores(flatPred, flatPos, log), order)
    ensures var ts := AssembleTrainingSet(flatPred, flatGt, flatPos, negPosRatio, log, order);
      var posIndices := Where(flatPos, 1);
      var anchors := HardNegativeAnchors(flatPred, flatPos, negPosRatio, log, order);
      && |ts.logits| == |posIndices| + |anchors| && |ts.labels| == |ts.logits|
      && (forall k :: 0 <= k < |posIndices| ==>
            flatPos[posIndices[k]] == 1 && ts.logits[k] == flatPred[posIndices[k]] && ts.labels[k] == flatGt[posIndices[k]])
      && (forall k :: |posIndices| <= k < |ts.labels| ==>
            ts.logits[k] == flatPred[anchors[k - |posIndices|]] && ts.labels[k] == flatGt[anchors[k - |posIndices|]])
  {
  }

  /** With a non-negative ratio the training set holds
      num_pos + min(num_pos * neg_pos_ratio, #negatives) entries. */
  lemma TrainingSetSize(flatPred: seq<Vec>, flatGt: seq<int>, flatPos: seq<int>, negPosRatio: int, log: real -> real,
                        order: seq<int>)
    requires FlatInputs(flatPred, flatGt, flatPos)
    requires IsDescendingArgsort(MiningScores(flatPred, flatPos, log), order)
    requires 0 <= negPosRatio
    ensures var ts := AssembleTrainingSet(flatPred, flatGt, flatPos, negPosRatio, log, order);
      var numPos := |Where(flatPos, 1)|;
      var numNeg := |Where(flatPos, 0)|;
      var needed := numPos * negPosRatio;
      |ts.labels| == numPos + (if needed <= numNeg then needed else numNeg)
  {
    AssembledTrainingSet(flatPred, flatGt, flatPos, negPosRatio, log, order);
    HardNegativeMining(flatPred, flatPos, negPosRatio, log, order);
  }

  /** The loss is the one of the library's own order: any descending
      argsort that lists ties lower index first gives the same training set,
      hence the same loss. */
  lemma LossClassUsesLibraryOrder(predCls: seq<Mat>, gtCls: seq<seq<int>>, positiveness: seq<seq<int>>,
                                  numClasses: nat, negPosRatio: int, lib: Ops, order: seq<int>)
    requires ClassInputs(predCls, gtCls, positiveness, numClasses)
    requires |Where(Flatten(positiveness), 1)| > 0
    requires FlatInputs(Flatten(predCls), Flatten(gtCls), Flatten(positiveness))
    requires IsDescendingArgsort(MiningScores(Flatten(predCls), Flatten(positiveness), lib.log), order)
    requires TiesAscending(MiningScores(Flatten(predCls), Flatten(positiveness), lib.log), order)
    ensures var ts := AssembleTrainingSet(Flatten(predCls), Flatten(gtCls), Flatten(positiveness), negPosRatio, lib.log, order);
      LossClass(predCls, gtCls, positiveness, numClasses, negPosRatio, lib)
      == XentSum(lib.softmaxXent, numClasses, ts.logits, ts.labels) / |Where(Flatten(positiveness), 1)| as real
  {
    var scores := MiningScores(Flatten(predCls), Flatten(positiveness), lib.log);
    StableArgsortUnique(scores, ArgsortDescending(scores), order);
  }

  lemma {:induction false} XentSumNonNegative(xent: (Vec, Vec) -> real, numClasses: nat, logits: seq<Vec>, labels: seq<int>)
    requires |logits| == |labels|
    requires forall u, v :: xent(u, v) >= 0.0
    ensures XentSum(xent, numClasses, logits, labels) >= 0.0
  {
    if |labels| > 0 {
      var n := |labels| - 1;
      XentSumNonNegative(xent, numClasses, logits[..n], labels[..n]);
    }
  }

  lemma ClassNonNegative(predCls: seq<Mat>, gtCls: seq<seq<int>>, positiveness: seq<seq<int>>,
                         numClasses: nat, negPosRatio: int, lib: Ops)
    requires ClassInputs(predCls, gtCls, positiveness, numClasses)
    requires |Where(Flatten(positiveness), 1)| > 0
    requires NonNegativeLosses(lib)
    ensures LossClass(predCls, gtCls, positiveness, numClasses, negPosRatio, lib) >= 0.0
  {
    FlattenClassInputs(predCls, gtCls, positiveness, numClasses);
    var order := ArgsortDescending(MiningScores(Flatten(predCls), Flatten(positiveness), lib.log));
    var ts := AssembleTrainingSet(Flatten(predCls), Flatten(gtCls), Flatten(positiveness), negPosRatio, lib.log, order);
    AssembledTrainingSet(Flatten(predCls), Flatten(gtCls), Flatten(positiveness), negPosRatio, lib.log, order);
    XentSumNonNegative(lib.softmaxXent, numClasses, ts.logits, ts.labels);
    var numPos := |Where(Flatten(positiveness), 1)|;
    assert LossClass(predCls, gtCls, positiveness, numClasses, negPosRatio, lib)
        == XentSum(lib.softmaxXent, numClasses, ts.logits, ts.labels) / numPos as real;
    QuotientNonNegative(XentSum(lib.softmaxXent, numClasses, ts.logits, ts.labels), numPos as real);
  }
}
