/** `_loss_semantic_segmentation`: for every image, a per-class target is
    built from the image's object masks (resized to the segmentation grid,
    binarised, the first num_obj kept, each written whole into its class
    channel) and scored against the predicted class maps; the summed loss is
    divided by the grid area and by the batch size. */
module Segmentation {
  import opened Tensors
  import opened Indices
  import opened Library

  /** tf.cast(x, tf.int64) on a float: truncation toward zero. */
  function Trunc(x: real): (t: int)
    ensures 0.0 <= x ==> t as real <= x < t as real + 1.0
    ensures x < 0.0 ==> t as real - 1.0 < x <= t as real
  {
    if 0.0 <= x then x.Floor else -((-x).Floor)
  }

  /** tf.cast(tf.cast(x + 0.5, tf.int64), tf.float32). */
  function Binarize(x: real): real
  {
    Trunc(x + 0.5) as real
  }

  /** On resized mask values in [0, 1], binarising gives exactly 0 or 1: 1
      exactly when the value is at least 0.5. */
  lemma BinarizeUnit(x: real)
    requires 0.0 <= x <= 1.0
    ensures Binarize(x) == if x >= 0.5 then 1.0 else 0.0
  {
    var t := Trunc(x + 0.5);
    if x >= 0.5 {
      assert 1.0 <= x + 0.5 < 2.0;
      assert t == 1;
    } else {
      assert 0.5 <= x + 0.5 < 1.0;
      assert t == 0;
    }
  }

  function BinarizeGrid(m: Mat): (r: Mat)
    ensures |r| == |m| && forall i :: 0 <= i < |m| ==> |r[i]| == |m[i]|
  {
    seq(|m|, i requires 0 <= i < |m| => seq(|m[i]|, j requires 0 <= j < |m[i]| => Binarize(m[i][j])))
  }

  /** The resize and the rounding cast: every object mask resized to n x n and binarised. */
  function BinarizedMasks(lib: Ops, masks: Tensor3, n: nat): (r: Tensor3)
    ensures |r| == |masks|
  {
    seq(|masks|, m requires 0 <= m < |masks| => BinarizeGrid(lib.resize(masks[m], n)))
  }

  /** The last position of `s` holding `c`, or -1 when there is none. */
  function LastIndex(s: seq<int>, c: int): (l: int)
    ensures -1 <= l < |s|
  {
    if |s| == 0 then -1
    else if s[|s| - 1] == c then |s| - 1
    else LastIndex(s[..|s| - 1], c)
  }

  /** `LastIndex` finds `c` exactly when `c` occurs, and no later position
      holds `c`. */
  lemma {:induction false} LastIndexSpec(s: seq<int>, c: int)
    ensures LastIndex(s, c) == -1 <==> c !in s
    ensures LastIndex(s, c) >= 0 ==>
      s[LastIndex(s, c)] == c && forall k :: LastIndex(s, c) < k < |s| ==> s[k] != c
  {
    if |s| > 0 && s[|s| - 1] != c {
      var n := |s| - 1;
      LastIndexSpec(s[..n], c);
      assert s == s[..n] + [s[n]];
    }
  }

  /** tf.tensor_scatter_nd_update(base, indices, updates) with whole-slice
      updates: slice c is the update of the last write to c, or is left as
      it was. The library leaves the order of duplicate writes open; this
      model takes the last one in index order. */
  function ScatterSpec(base: Tensor3, indices: seq<int>, updates: Tensor3): (r: Tensor3)
    requires |indices| == |updates|
    ensures |r| == |base|
  {
    seq(|base|, c requires 0 <= c < |base| =>
      var l := LastIndex(indices, c);
      if l >= 0 then updates[l] else base[c])
  }

  lemma LastIndexAppend(s: seq<int>, x: int, c: int)
    ensures LastIndex(s + [x], c) == if x == c then |s| else LastIndex(s, c)
  {
    assert (s + [x])[..|s|] == s;
  }

  /** The scatter as a sequence of slice writes, in index order. */
  method Scatter(base: Tensor3, indices: seq<int>, updates: Tensor3) returns (r: Tensor3)
    requires |indices| == |updates|
    requires forall k :: 0 <= k < |indices| ==> 0 <= indices[k] < |base|
    ensures r == ScatterSpec(base, indices, updates)
  {
    r := base;
    var k := 0;
    while k < |indices|
      invariant 0 <= k <= |indices|
      invariant r == ScatterSpec(base, indices[..k], updates[..k])
    {
      ghost var before := r;
      r := r[indices[k] := updates[k]];
      assert indices[..k + 1] == indices[..k] + [indices[k]];
      forall c | 0 <= c < |base| ensures r[c] == ScatterSpec(base, indices[..k + 1], updates[..k + 1])[c] {
        LastIndexAppend(indices[..k], indices[k], c);
      }
      k := k + 1;
    }
    assert indices[..k] == indices && updates[..k] == updates;
  }

  /** zeros_like(seg) transposed to [C, S, S]. */
  function ZeroChannels(channels: nat, n: nat): (r: Tensor3)
    ensures IsTensor3(r, channels, n, n)
    ensures forall c, i, j :: 0 <= c < channels && 0 <= i < n && 0 <= j < n ==> r[c][i][j] == 0.0
  {
    seq(channels, c => Zeros(n, n))
  }

  /** tf.transpose(t, perm=(1, 2, 0)) of a [C, n, n] tensor: [n, n, C]. */
  function Transpose120(t: Tensor3, n: nat): (r: Tensor3)
    requires IsTensor3(t, |t|, n, n)
    ensures IsTensor3(r, n, n, |t|)
    ensures forall i, j, c :: 0 <= i < n && 0 <= j < n && 0 <= c < |t| ==> r[i][j][c] == t[c][i][j]
  {
    seq(n, i requires 0 <= i < n => seq(n, j requires 0 <= j < n => seq(|t|, c requires 0 <= c < |t| => t[c][i][j])))
  }

  /** What one image must provide: kept masks and kept classes that pair up
      (the scatter's update and index counts must agree), resized masks on
      the n x n grid, and kept classes that name a channel (the scatter
      rejects an index outside the tensor). */
  predicate ImageSegOk(lib: Ops, masks: Tensor3, cls: seq<int>, objects: int, n: nat, channels: nat)
  {
    && |Prefix(cls, objects)| == |Prefix(masks, objects)|
    && (forall m :: 0 <= m < |masks| ==> IsGrid(lib.resize(masks[m], n), n, n))
    && (forall k :: 0 <= k < |Prefix(cls, objects)| ==> 0 <= Prefix(cls, objects)[k] < channels)
  }

  /** seg_gt of one image, [n, n, C]: the masks resized and binarised, the
      first num_obj kept, scattered into zero channels, transposed. */
  function SegTarget(lib: Ops, masks: Tensor3, cls: seq<int>, objects: int, n: nat, channels: nat): (r: Tensor3)
    requires ImageSegOk(lib, masks, cls, objects, n, channels)
    ensures IsTensor3(r, n, n, channels)
  {
    var objMask := Prefix(BinarizedMasks(lib, masks, n), objects);
    var objCls := Prefix(cls, objects);
    var segGt := ScatterSpec(ZeroChannels(channels, n), objCls, objMask);
    assert IsTensor3(segGt, channels, n, n) by {
      forall c | 0 <= c < channels ensures IsGrid(segGt[c], n, n) {
        var l := LastIndex(objCls, c);
        if l >= 0 {
          assert objMask[l] == BinarizedMasks(lib, masks, n)[l];
        }
      }
    }
    Transpose120(segGt, n)
  }

  /** One image's summed element loss against its target. */
  function ImageSegLoss(lib: Ops, seg: Tensor3, masks: Tensor3, cls: seq<int>, objects: int, n: nat, channels: nat): real
    requires ImageSegOk(lib, masks, cls, objects, n, channels) && IsTensor3(seg, n, n, channels)
  {
    Sum3(SigmoidXent(lib.sigmoidXent, SegTarget(lib, masks, cls, objects, n, channels), seg))
  }

  /** The batched inputs. The grid side n and the class count C are read
      from the first prediction, as tf.shape(pred_seg)[1] and zeros_like(seg)
      do; the batch and the grid must be non-empty because the source
      divides by both unguarded. */
  predicate SegInputs(lib: Ops, predSeg: seq<Tensor3>, maskGt: seq<Tensor3>, classes: seq<seq<int>>, numObj: seq<int>)
  {
    && 0 < |maskGt| && |predSeg| == |maskGt| && |classes| == |maskGt| && |numObj| == |maskGt|
    && 0 < |predSeg[0]| && 0 < |predSeg[0][0]|
    && forall b :: 0 <= b < |maskGt| ==> ImageInputs(lib, predSeg, maskGt, classes, numObj, b)
  }

  /** Image `b` of the batch: an n x n x C prediction and masks and classes
      its target can be built from. */
  predicate ImageInputs(lib: Ops, predSeg: seq<Tensor3>, maskGt: seq<Tensor3>, classes: seq<seq<int>>, numObj: seq<int>, b: nat)
    requires 0 < |predSeg| && 0 < |predSeg[0]| && 0 < |predSeg[0][0]|
    requires |predSeg| == |maskGt| == |classes| == |numObj| && b < |maskGt|
  {
    var n := SegShape(predSeg);
    var channels := SegChannels(predSeg);
    IsTensor3(predSeg[b], n, n, channels) && ImageSegOk(lib, maskGt[b], classes[b], numObj[b], n, channels)
  }

  function SegShape(predSeg: seq<Tensor3>): nat
    requires 0 < |predSeg|
  {
    |predSeg[0]|
  }

  function SegChannels(predSeg: seq<Tensor3>): nat
    requires 0 < |predSeg| && 0 < |predSeg[0]| && 0 < |predSeg[0][0]|
  {
    |predSeg[0][0][0]|
  }

  /** The summed element losses of the first `k` images. */
  function SegSum(lib: Ops, predSeg: seq<Tensor3>, maskGt: seq<Tensor3>, classes: seq<seq<int>>, numObj: seq<int>, k: nat): real
    requires SegInputs(lib, predSeg, maskGt, classes, numObj) && k <= |maskGt|
  {
    if k == 0 then 0.0
    else
      assert ImageInputs(lib, predSeg, maskGt, classes, numObj, k - 1);
      SegSum(lib, predSeg, maskGt, classes, numObj, k - 1)
      + ImageSegLoss(lib, predSeg[k - 1], maskGt[k - 1], classes[k - 1], numObj[k - 1], SegShape(predSeg), SegChannels(predSeg))
  }

  lemma SquarePositive(n: nat)
    requires 0 < n
    ensures 0.0 < n as real * n as real
  {
    assert 1.0 <= n as real;
  }

  /** The final normalisation: the summed loss divided by the grid area and the batch size. */
  function Normalise(total: real, n: nat, batch: nat): real
    requires 0 < n && 0 < batch
  {
    SquarePositive(n);
    total / (n as real * n as real) / batch as real
  }

  /** The target construction for one image: binarise and keep the first `objects`
      masks, scatter them into zero channels, transpose to [n, n, C]. */
  method BuildSegTarget(lib: Ops, masks: Tensor3, cls: seq<int>, objects: int, n: nat, channels: nat)
    returns (segGt: Tensor3)
    requires ImageSegOk(lib, masks, cls, objects, n, channels)
    ensures segGt == SegTarget(lib, masks, cls, objects, n, channels)
  {
    var objMask := Prefix(BinarizedMasks(lib, masks, n), objects);
    var objCls := Prefix(cls, objects);
    var channelsFirst := Scatter(ZeroChannels(channels, n), objCls, objMask);
    segGt := Transpose120(channelsFirst, n);
  }

  /** The loop body for image `b` of the batch: the summed element loss of its
      prediction against its target. */
  method ImageSegmentationLoss(lib: Ops, predSeg: seq<Tensor3>, maskGt: seq<Tensor3>,
                               classes: seq<seq<int>>, numObj: seq<int>, b: nat) returns (imageLoss: real)
    requires SegInputs(lib, predSeg, maskGt, classes, numObj) && b < |maskGt|
    ensures ImageInputs(lib, predSeg, maskGt, classes, numObj, b)
    ensures imageLoss == ImageSegLoss(lib, predSeg[b], maskGt[b], classes[b], numObj[b], SegShape(predSeg), SegChannels(predSeg))
    ensures SegSum(lib, predSeg, maskGt, classes, numObj, b + 1)
            == SegSum(lib, predSeg, maskGt, classes, numObj, b) + imageLoss
  {
    var n := SegShape(predSeg);
    var channels := SegChannels(predSeg);
    assert ImageInputs(lib, predSeg, maskGt, classes, numObj, b);
    var segGt := BuildSegTarget(lib, maskGt[b], classes[b], numObj[b], n, channels);
    imageLoss := Sum3(SigmoidXent(lib.sigmoidXent, segGt, predSeg[b]));
  }

  /** The batch loop: builds each image's target by scatter and accumulates
      the summed element losses. */
  method AccumulateSegLoss(lib: Ops, predSeg: seq<Tensor3>, maskGt: seq<Tensor3>,
                           classes: seq<seq<int>>, numObj: seq<int>) returns (total: real)
    requires SegInputs(lib, predSeg, maskGt, classes, numObj)
    ensures total == SegSum(lib, predSeg, maskGt, classes, numObj, |maskGt|)
  {
    total := 0.0;
    var idx := 0;
    while idx < |maskGt|
      invariant 0 <= idx <= |maskGt|
      invariant total == SegSum(lib, predSeg, maskGt, classes, numObj, idx)
    {
      var imageLoss := ImageSegmentationLoss(lib, predSeg, maskGt, classes, numObj, idx);
      total := total + imageLoss;
      idx := idx + 1;
    }
  }

  /** `_loss_semantic_segmentation`: the accumulated loss divided by the grid
      area and by the batch size. */
  method LossSemanticSegmentation(lib: Ops, predSeg: seq<Tensor3>, maskGt: seq<Tensor3>,
                                  classes: seq<seq<int>>, numObj: seq<int>) returns (lossSeg: real)
    requires SegInputs(lib, predSeg, maskGt, classes, numObj)
    ensures lossSeg == Normalise(SegSum(lib, predSeg, maskGt, classes, numObj, |maskGt|), SegShape(predSeg), |maskGt|)
  {
    var total := AccumulateSegLoss(lib, predSeg, maskGt, classes, numObj);
    lossSeg := Normalise(total, |predSeg[0]|, |maskGt|);
  }

  /** Element (i, j) of class channel c of the target: the binarised resized
      mask of the last kept object of class c, or 0 when no kept object has
      class c. */
  lemma TargetChannel(lib: Ops, masks: Tensor3, cls: seq<int>, objects: int, n: nat, channels: nat,
                      i: nat, j: nat, c: nat)
    requires ImageSegOk(lib, masks, cls, objects, n, channels)
    requires i < n && j < n && c < channels
    ensures var kept := Prefix(cls, objects);
      var l := LastIndex(kept, c);
      var t := SegTarget(lib, masks, cls, objects, n, channels);
      && (l == -1 <==> c !in kept)
      && (l == -1 ==> t[i][j][c] == 0.0)
      && (l >= 0 ==>
            && kept[l] == c
            && (forall k :: l < k < |kept| ==> kept[k] != c)
            && l < |masks|
            && t[i][j][c] == Binarize(lib.resize(masks[l], n)[i][j]))
  {
    var kept := Prefix(cls, objects);
    var l := LastIndex(kept, c);
    LastIndexSpec(kept, c);
    var binarized := BinarizedMasks(lib, masks, n);
    var objMask := Prefix(binarized, objects);
    var segGt := ScatterSpec(ZeroChannels(channels, n), kept, objMask);
    assert segGt[c] == if l >= 0 then objMask[l] else ZeroChannels(channels, n)[c];
    if l >= 0 {
      assert |objMask| == |Prefix(masks, objects)| <= |masks|;
      assert objMask[l] == binarized[l];
    }
  }

  /** With distinct kept classes every kept object owns its class channel:
      that channel is exactly the object's binarised mask. */
  lemma DistinctClassesOwnChannels(lib: Ops, masks: Tensor3, cls: seq<int>, objects: int, n: nat, channels: nat,
                                   l: nat, i: nat, j: nat)
    requires ImageSegOk(lib, masks, cls, objects, n, channels)
    requires Distinct(Prefix(cls, objects))
    requires l < |Prefix(cls, objects)| && i < n && j < n
    ensures l < |masks| && 0 <= Prefix(cls, objects)[l] < channels
    ensures SegTarget(lib, masks, cls, objects, n, channels)[i][j][Prefix(cls, objects)[l]]
            == Binarize(lib.resize(masks[l], n)[i][j])
  {
    var kept := Prefix(cls, objects);
    var c := kept[l];
    TargetChannel(lib, masks, cls, objects, n, channels, i, j, c);
    assert c in kept;
  }

  /** When the resized masks lie in [0, 1], the target is a 0/1 tensor. */
  lemma TargetIsBinary(lib: Ops, masks: Tensor3, cls: seq<int>, objects: int, n: nat, channels: nat)
    requires ImageSegOk(lib, masks, cls, objects, n, channels)
    requires forall m, i, j :: 0 <= m < |masks| && 0 <= i < n && 0 <= j < n ==>
      0.0 <= lib.resize(masks[m], n)[i][j] <= 1.0
    ensures var t := SegTarget(lib, masks, cls, objects, n, channels);
      forall i, j, c :: 0 <= i < n && 0 <= j < n && 0 <= c < channels ==> t[i][j][c] == 0.0 || t[i][j][c] == 1.0
  {
    var t := SegTarget(lib, masks, cls, objects, n, channels);
    forall i, j, c | 0 <= i < n && 0 <= j < n && 0 <= c < channels
      ensures t[i][j][c] == 0.0 || t[i][j][c] == 1.0
    {
      TargetChannel(lib, masks, cls, objects, n, channels, i, j, c);
      var l := LastIndex(Prefix(cls, objects), c);
      if l >= 0 {
        BinarizeUnit(lib.resize(masks[l], n)[i][j]);
      }
    }
  }

  /** Only the first num_obj masks and classes are read: two images that
      agree on them get the same target. */
  lemma TargetReadsKeptObjectsOnly(lib: Ops, masks: Tensor3, masks': Tensor3, cls: seq<int>, cls': seq<int>,
                                   objects: int, n: nat, channels: nat)
    requires ImageSegOk(lib, masks, cls, objects, n, channels)
    requires ImageSegOk(lib, masks', cls', objects, n, channels)
    requires Prefix(masks, objects) == Prefix(masks', objects)
    requires Prefix(cls, objects) == Prefix(cls', objects)
    ensures SegTarget(lib, masks, cls, objects, n, channels) == SegTarget(lib, masks', cls', objects, n, channels)
  {
    var kept := Prefix(masks, objects);
    var objMask := Prefix(BinarizedMasks(lib, masks, n), objects);
    var objMask' := Prefix(BinarizedMasks(lib, masks', n), objects);
    assert |objMask| == |kept| == |objMask'|;
    forall k | 0 <= k < |objMask| ensures objMask[k] == objMask'[k] {
      assert kept[k] == masks[k] && kept[k] == masks'[k];
    }
    assert objMask == objMask';
  }

  /** When the library's element loss is never negative, neither is the
      accumulated loss of any leading run of images. */
  lemma {:induction false} SegSumNonNegative(lib: Ops, predSeg: seq<Tensor3>, maskGt: seq<Tensor3>,
                                             classes: seq<seq<int>>, numObj: seq<int>, k: nat)
    requires SegInputs(lib, predSeg, maskGt, classes, numObj) && k <= |maskGt|
    requires NonNegativeLosses(lib)
    ensures SegSum(lib, predSeg, maskGt, classes, numObj, k) >= 0.0
  {
    if k > 0 {
      SegSumNonNegative(lib, predSeg, maskGt, classes, numObj, k - 1);
      assert ImageInputs(lib, predSeg, maskGt, classes, numObj, k - 1);
      ImageSegLossNonNegative(lib, predSeg[k - 1], maskGt[k - 1], classes[k - 1], numObj[k - 1],
                              SegShape(predSeg), SegChannels(predSeg));
    }
  }

  lemma ImageSegLossNonNegative(lib: Ops, seg: Tensor3, masks: Tensor3, cls: seq<int>, objects: int, n: nat, channels: nat)
    requires ImageSegOk(lib, masks, cls, objects, n, channels) && IsTensor3(seg, n, n, channels)
    requires NonNegativeLosses(lib)
    ensures ImageSegLoss(lib, seg, masks, cls, objects, n, channels) >= 0.0
  {
    SigmoidXentSumNonNegative(lib, SegTarget(lib, masks, cls, objects, n, channels), seg);
  }

  /** The segmentation loss is never negative when the element loss is not. */
  lemma SegLossNonNegative(lib: Ops, predSeg: seq<Tensor3>, maskGt: seq<Tensor3>,
                           classes: seq<seq<int>>, numObj: seq<int>)
    requires SegInputs(lib, predSeg, maskGt, classes, numObj)
    requires NonNegativeLosses(lib)
    ensures Normalise(SegSum(lib, predSeg, maskGt, classes, numObj, |maskGt|), SegShape(predSeg), |maskGt|) >= 0.0
  {
    SegSumNonNegative(lib, predSeg, maskGt, classes, numObj, |maskGt|);
    NormaliseNonNegative(SegSum(lib, predSeg, maskGt, classes, numObj, |maskGt|), SegShape(predSeg), |maskGt|);
  }

  lemma NormaliseNonNegative(total: real, n: nat, batch: nat)
    requires 0.0 <= total && 0 < n && 0 < batch
    ensures Normalise(total, n, batch) >= 0.0
  {
    SquarePositive(n);
    var area := n as real * n as real;
    QuotientNonNegative(total, area);
    QuotientNonNegative(total / area, batch as real);
  }
}
