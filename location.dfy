/** `_loss_location`: smooth-L1 loss over the positive anchors of the batch,
    divided by their number. */
module Location {
  import opened Tensors
  import opened Indices
  import opened Library

  /** The input tensors are laid out per (image, anchor) alike. */
  predicate SameAnchors(predOffset: seq<Mat>, gtOffset: seq<Mat>, positiveness: seq<seq<int>>)
  {
    && |predOffset| == |positiveness| && |gtOffset| == |positiveness|
    && forall b :: 0 <= b < |positiveness| ==>
         |predOffset[b]| == |positiveness[b]| && |gtOffset[b]| == |positiveness[b]|
  }

  predicate PairsIn<T>(s: seq<seq<T>>, pairs: seq<(nat, nat)>)
  {
    forall k :: 0 <= k < |pairs| ==> pairs[k].0 < |s| && pairs[k].1 < |s[pairs[k].0]|
  }

  /** tf.gather_nd with (image, anchor) index pairs. */
  function GatherPairs<T>(s: seq<seq<T>>, pairs: seq<(nat, nat)>): (r: seq<T>)
    requires PairsIn(s, pairs)
    ensures |r| == |pairs|
  {
    seq(|pairs|, k requires 0 <= k < |pairs| => s[pairs[k].0][pairs[k].1])
  }

  /** One Huber value per gathered anchor. */
  function PairLosses(huber: (Vec, Vec) -> real, gt: seq<Vec>, pred: seq<Vec>): (r: Vec)
    requires |gt| == |pred|
    ensures |r| == |gt|
  {
    seq(|gt|, k requires 0 <= k < |gt| => huber(gt[k], pred[k]))
  }

  /** The localisation loss. The division by the positive count is unguarded
      in the source, hence the last precondition. */
  function LossLocation(predOffset: seq<Mat>, gtOffset: seq<Mat>, positiveness: seq<seq<int>>,
                        lib: Ops): real
    requires SameAnchors(predOffset, gtOffset, positiveness)
    requires |WherePairs(positiveness, 1)| > 0
  {
    var posIndices := WherePairs(positiveness, 1);
    var pred := GatherPairs(predOffset, posIndices);
    var gt := GatherPairs(gtOffset, posIndices);
    var numPos := |gt|;
    Sum(PairLosses(lib.huber, gt, pred)) / numPos as real
  }

  /** Sum of the Huber values of the listed (image, anchor) pairs. */
  function PairSum(huber: (Vec, Vec) -> real, gt: seq<Mat>, pred: seq<Mat>, pairs: seq<(nat, nat)>): real
    requires PairsIn(gt, pairs) && PairsIn(pred, pairs)
  {
    if |pairs| == 0 then 0.0
    else
      var n := |pairs| - 1;
      PairSum(huber, gt, pred, pairs[..n]) + huber(gt[pairs[n].0][pairs[n].1], pred[pairs[n].0][pairs[n].1])
  }

  lemma {:induction false} GatheredPairSum(huber: (Vec, Vec) -> real, gt: seq<Mat>, pred: seq<Mat>, pairs: seq<(nat, nat)>)
    requires PairsIn(gt, pairs) && PairsIn(pred, pairs)
    ensures Sum(PairLosses(huber, GatherPairs(gt, pairs), GatherPairs(pred, pairs))) == PairSum(huber, gt, pred, pairs)
  {
    if |pairs| > 0 {
      var n := |pairs| - 1;
      GatheredPairSum(huber, gt, pred, pairs[..n]);
      var l := PairLosses(huber, GatherPairs(gt, pairs), GatherPairs(pred, pairs));
      assert l[..n] == PairLosses(huber, GatherPairs(gt, pairs[..n]), GatherPairs(pred, pairs[..n]));
    }
  }

  lemma {:induction false} PairSumAppend(huber: (Vec, Vec) -> real, gt: seq<Mat>, pred: seq<Mat>, p1: seq<(nat, nat)>, p2: seq<(nat, nat)>)
    requires PairsIn(gt, p1) && PairsIn(pred, p1) && PairsIn(gt, p2) && PairsIn(pred, p2)
    ensures PairsIn(gt, p1 + p2) && PairsIn(pred, p1 + p2)
    ensures PairSum(huber, gt, pred, p1 + p2) == PairSum(huber, gt, pred, p1) + PairSum(huber, gt, pred, p2)
  {
    assert forall k :: 0 <= k < |p1 + p2| ==> (p1 + p2)[k] == if k < |p1| then p1[k] else p2[k - |p1|];
    if |p2| > 0 {
      var n := |p2| - 1;
      assert (p1 + p2)[..|p1 + p2| - 1] == p1 + p2[..n];
      assert (p1 + p2)[|p1 + p2| - 1] == p2[n];
      PairSumAppend(huber, gt, pred, p1, p2[..n]);
    } else {
      assert p1 + p2 == p1;
    }
  }

  lemma {:induction false} PairSumPrefix(huber: (Vec, Vec) -> real, gt: seq<Mat>, pred: seq<Mat>, pairs: seq<(nat, nat)>, n: nat)
    requires n <= |gt| && n <= |pred|
    requires PairsIn(gt[..n], pairs) && PairsIn(pred[..n], pairs)
    ensures PairsIn(gt, pairs) && PairsIn(pred, pairs)
    ensures PairSum(huber, gt[..n], pred[..n], pairs) == PairSum(huber, gt, pred, pairs)
  {
    if |pairs| > 0 {
      var m := |pairs| - 1;
      PairSumPrefix(huber, gt, pred, pairs[..m], n);
      assert gt[..n][pairs[m].0] == gt[pairs[m].0] && pred[..n][pairs[m].0] == pred[pairs[m].0];
    }
  }

  /** Reference definition: every anchor of one image contributes its Huber
      value when its positiveness is 1 and nothing otherwise. */
  function MaskedRowSum(huber: (Vec, Vec) -> real, gt: Mat, pred: Mat, pos: seq<int>): real
    requires |gt| == |pos| && |pred| == |pos|
  {
    if |pos| == 0 then 0.0
    else
      var m := |pos| - 1;
      MaskedRowSum(huber, gt[..m], pred[..m], pos[..m]) + (if pos[m] == 1 then huber(gt[m], pred[m]) else 0.0)
  }

  /** The same masked sum over every image of the batch. */
  function MaskedSum(huber: (Vec, Vec) -> real, gt: seq<Mat>, pred: seq<Mat>, pos: seq<seq<int>>): real
    requires SameAnchors(pred, gt, pos)
  {
    if |pos| == 0 then 0.0
    else
      var n := |pos| - 1;
      MaskedSum(huber, gt[..n], pred[..n], pos[..n]) + MaskedRowSum(huber, gt[n], pred[n], pos[n])
  }

  /** Over one image, the listed positives' losses add up to the masked sum. */
  lemma {:induction false} RowSum(huber: (Vec, Vec) -> real, gt: seq<Mat>, pred: seq<Mat>, b: nat, pos: seq<int>, m: nat)
    requires b < |gt| && b < |pred| && |gt[b]| == |pos| && |pred[b]| == |pos|
    requires m <= |pos|
    ensures var w := Where(pos[..m], 1);
      PairsIn(gt, RowPairs(b, w)) && PairsIn(pred, RowPairs(b, w))
      && PairSum(huber, gt, pred, RowPairs(b, w)) == MaskedRowSum(huber, gt[b][..m], pred[b][..m], pos[..m])
  {
    var w := Where(pos[..m], 1);
    if m > 0 {
      var w' := Where(pos[..m - 1], 1);
      assert pos[..m][..m - 1] == pos[..m - 1];
      assert gt[b][..m][..m - 1] == gt[b][..m - 1] && pred[b][..m][..m - 1] == pred[b][..m - 1];
      RowSum(huber, gt, pred, b, pos, m - 1);
      if pos[m - 1] == 1 {
        assert w == w' + [m - 1];
        assert RowPairs(b, w)[..|w'|] == RowPairs(b, w');
      } else {
        assert w == w';
      }
    }
  }

  /** The pairs of the last image add up to its masked row sum. */
  lemma LastImageSum(huber: (Vec, Vec) -> real, gt: seq<Mat>, pred: seq<Mat>, pos: seq<seq<int>>)
    requires SameAnchors(pred, gt, pos) && |pos| > 0
    ensures var n := |pos| - 1;
      var last := RowPairs(n, Where(pos[n], 1));
      PairsIn(gt, last) && PairsIn(pred, last)
      && PairSum(huber, gt, pred, last) == MaskedRowSum(huber, gt[n], pred[n], pos[n])
  {
    var n := |pos| - 1;
    RowSum(huber, gt, pred, n, pos[n], |pos[n]|);
    assert pos[n][..|pos[n]|] == pos[n] && gt[n][..|pos[n]|] == gt[n] && pred[n][..|pos[n]|] == pred[n];
  }

  /** Gathering the pairs of `tf.where` and summing their losses is the
      masked sum over every anchor of the batch. */
  lemma {:induction false} GatheredSum(huber: (Vec, Vec) -> real, gt: seq<Mat>, pred: seq<Mat>, pos: seq<seq<int>>)
    requires SameAnchors(pred, gt, pos)
    ensures PairSum(huber, gt, pred, WherePairs(pos, 1)) == MaskedSum(huber, gt, pred, pos)
  {
    if |pos| > 0 {
      var n := |pos| - 1;
      var front := WherePairs(pos[..n], 1);
      var last := RowPairs(n, Where(pos[n], 1));
      assert PairsIn(gt, front) && PairsIn(pred, front)
          && PairSum(huber, gt, pred, front) == MaskedSum(huber, gt[..n], pred[..n], pos[..n]) by {
        assert SameAnchors(pred[..n], gt[..n], pos[..n]);
        GatheredSum(huber, gt[..n], pred[..n], pos[..n]);
        PairSumPrefix(huber, gt, pred, front, n);
      }
      LastImageSum(huber, gt, pred, pos);
      assert WherePairs(pos, 1) == front + last;
      PairSumAppend(huber, gt, pred, front, last);
    }
  }

  /** The localisation loss is the masked sum over all anchors divided by the
      number of anchors whose positiveness is 1, the same count the
      classification loss divides by. */
  lemma LocationIsMaskedMean(predOffset: seq<Mat>, gtOffset: seq<Mat>, positiveness: seq<seq<int>>, lib: Ops)
    requires SameAnchors(predOffset, gtOffset, positiveness)
    requires |WherePairs(positiveness, 1)| > 0
    ensures |WherePairs(positiveness, 1)| == multiset(Flatten(positiveness))[1]
    ensures LossLocation(predOffset, gtOffset, positiveness, lib)
         == MaskedSum(lib.huber, gtOffset, predOffset, positiveness) / multiset(Flatten(positiveness))[1] as real
  {
    PairCount(positiveness, 1);
    WhereCount(Flatten(positiveness), 1);
    GatheredPairSum(lib.huber, gtOffset, predOffset, WherePairs(positiveness, 1));
    GatheredSum(lib.huber, gtOffset, predOffset, positiveness);
  }

  lemma LocationNonNegative(predOffset: seq<Mat>, gtOffset: seq<Mat>, positiveness: seq<seq<int>>, lib: Ops)
    requires SameAnchors(predOffset, gtOffset, positiveness)
    requires |WherePairs(positiveness, 1)| > 0
    requires NonNegativeLosses(lib)
    ensures LossLocation(predOffset, gtOffset, positiveness, lib) >= 0.0
  {
    var pairs := WherePairs(positiveness, 1);
    var l := PairLosses(lib.huber, GatherPairs(gtOffset, pairs), GatherPairs(predOffset, pairs));
    forall k | 0 <= k < |l| ensures l[k] >= 0.0 {
      assert l[k] == lib.huber(GatherPairs(gtOffset, pairs)[k], GatherPairs(predOffset, pairs)[k]);
    }
    SumNonNegative(l);
    assert LossLocation(predOffset, gtOffset, positiveness, lib) == Sum(l) / |pairs| as real;
    QuotientNonNegative(Sum(l), |pairs| as real);
  }
}
