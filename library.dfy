/** The floating-point library operations the loss calls. Their numerics are
    not modelled: each is a supplied total function on reals. */
module Library {
  import opened Tensors

  datatype Ops = Ops(
    /** keras Huber(delta = 1) with no reduction across anchors: the loss of
        one anchor's (target offsets, predicted offsets). */
    huber: (Vec, Vec) -> real,
    /** softmax_cross_entropy_with_logits on one (one-hot labels, logits) row. */
    softmaxXent: (Vec, Vec) -> real,
    /** tf.math.log. */
    log: real -> real,
    /** sigmoid_cross_entropy_with_logits on one (label, logit) element. */
    sigmoidXent: (real, real) -> real,
    /** width * height of a box after utils.map_to_center_form. */
    boxArea: Vec -> real,
    /** utils.crop keeps element (i, j) of a mask exactly when this holds for the box. */
    inBox: (Vec, nat, nat) -> bool,
    /** tf.image.resize(mask, [n, n], BILINEAR). */
    resize: (Mat, nat) -> Mat
  )

  /** The per-element losses the library returns are never negative. */
  ghost predicate NonNegativeLosses(lib: Ops)
  {
    && (forall u, v :: lib.huber(u, v) >= 0.0)
    && (forall u, v :: lib.softmaxXent(u, v) >= 0.0)
    && (forall x, y :: lib.sigmoidXent(x, y) >= 0.0)
  }

  /** sigmoid_cross_entropy_with_logits(labels, logits), element by element. */
  function SigmoidXent(sx: (real, real) -> real, labels: Tensor3, logits: Tensor3): (r: Tensor3)
    requires |labels| == |logits|
    requires forall p :: 0 <= p < |logits| ==> |labels[p]| == |logits[p]|
    requires forall p, i :: 0 <= p < |logits| && 0 <= i < |logits[p]| ==> |labels[p][i]| == |logits[p][i]|
    ensures |r| == |logits|
    ensures forall p :: 0 <= p < |r| ==> |r[p]| == |logits[p]|
  {
    seq(|logits|, p requires 0 <= p < |logits| =>
      seq(|logits[p]|, i requires 0 <= i < |logits[p]| =>
        seq(|logits[p][i]|, j requires 0 <= j < |logits[p][i]| => sx(labels[p][i][j], logits[p][i][j]))))
  }

  lemma SigmoidXentNonNegative(lib: Ops, target: real, logit: real)
    requires NonNegativeLosses(lib)
    ensures lib.sigmoidXent(target, logit) >= 0.0
  {
  }

  lemma SigmoidXentSumNonNegative(lib: Ops, labels: Tensor3, logits: Tensor3)
    requires |labels| == |logits|
    requires forall p :: 0 <= p < |logits| ==> |labels[p]| == |logits[p]|
    requires forall p, i :: 0 <= p < |logits| && 0 <= i < |logits[p]| ==> |labels[p][i]| == |logits[p][i]|
    requires NonNegativeLosses(lib)
    ensures Sum3(SigmoidXent(lib.sigmoidXent, labels, logits)) >= 0.0
  {
    var r := SigmoidXent(lib.sigmoidXent, labels, logits);
    forall p, i, j | 0 <= p < |r| && 0 <= i < |r[p]| && 0 <= j < |r[p][i]| ensures r[p][i][j] >= 0.0 {
      SigmoidXentNonNegative(lib, labels[p][i][j], logits[p][i][j]);
    }
    Sum3NonNegative(r);
  }
}
