/** Plain-value views of the tensors the loss works on, and the handful of
    tensor operations (reductions, flattening, gathering, slicing) it uses. */
module Tensors {

  type Vec = seq<real>
  type Mat = seq<seq<real>>
  type Tensor3 = seq<seq<seq<real>>>

  /** `m` is a rows x cols grid. */
  predicate IsGrid<T>(m: seq<seq<T>>, rows: nat, cols: nat)
  {
    |m| == rows && forall i :: 0 <= i < |m| ==> |m[i]| == cols
  }

  /** `t` has the shape d0 x d1 x d2. */
  predicate IsTensor3(t: Tensor3, d0: nat, d1: nat, d2: nat)
  {
    |t| == d0 && forall i :: 0 <= i < |t| ==> IsGrid(t[i], d1, d2)
  }

  /** All-zero grid. */
  function Zeros(rows: nat, cols: nat): (z: Mat)
    ensures IsGrid(z, rows, cols)
    ensures forall i, j :: 0 <= i < rows && 0 <= j < cols ==> z[i][j] == 0.0
  {
    seq(rows, i => seq(cols, j => 0.0))
  }

  /** reduce_sum over a vector. */
  function Sum(s: Vec): real
  {
    if |s| == 0 then 0.0 else Sum(s[..|s| - 1]) + s[|s| - 1]
  }

  /** reduce_sum over a grid. */
  function Sum2(m: Mat): real
  {
    if |m| == 0 then 0.0 else Sum2(m[..|m| - 1]) + Sum(m[|m| - 1])
  }

  /** reduce_sum over a three-dimensional tensor. */
  function Sum3(t: Tensor3): real
  {
    if |t| == 0 then 0.0 else Sum3(t[..|t| - 1]) + Sum2(t[|t| - 1])
  }

  lemma {:induction false} SumNonNegative(s: Vec)
    requires forall k :: 0 <= k < |s| ==> s[k] >= 0.0
    ensures Sum(s) >= 0.0
  {
    if |s| > 0 {
      SumNonNegative(s[..|s| - 1]);
    }
  }

  lemma {:induction false} Sum2NonNegative(m: Mat)
    requires forall i, j :: 0 <= i < |m| && 0 <= j < |m[i]| ==> m[i][j] >= 0.0
    ensures Sum2(m) >= 0.0
  {
    if |m| > 0 {
      Sum2NonNegative(m[..|m| - 1]);
      SumNonNegative(m[|m| - 1]);
    }
  }

  lemma {:induction false} Sum3NonNegative(t: Tensor3)
    requires forall i, j, k :: 0 <= i < |t| && 0 <= j < |t[i]| && 0 <= k < |t[i][j]| ==> t[i][j][k] >= 0.0
    ensures Sum3(t) >= 0.0
  {
    if |t| > 0 {
      Sum3NonNegative(t[..|t| - 1]);
      Sum2NonNegative(t[|t| - 1]);
    }
  }

  lemma QuotientNonNegative(x: real, d: real)
    requires 0.0 <= x && 0.0 < d
    ensures 0.0 <= x / d
  {
  }

  /** Row-major flattening: reshape of [n, m, ...] to [n * m, ...]. */
  function Flatten<T>(s: seq<seq<T>>): seq<T>
  {
    if |s| == 0 then [] else Flatten(s[..|s| - 1]) + s[|s| - 1]
  }

  /** In a rectangular batch, the flat position b * w + a holds element (b, a). */
  lemma {:induction false} FlattenIndex<T>(s: seq<seq<T>>, w: nat, b: nat, a: nat)
    requires IsGrid(s, |s|, w)
    requires b < |s| && a < w
    ensures |Flatten(s)| == |s| * w
    ensures b * w + a < |Flatten(s)| && Flatten(s)[b * w + a] == s[b][a]
  {
    var n := |s| - 1;
    assert IsGrid(s[..n], n, w);
    FlattenSize(s[..n], w);
    assert |Flatten(s)| == n * w + w;
    if b < n {
      FlattenIndex(s[..n], w, b, a);
      assert b * w + a < n * w by {
        assert b * w + a < b * w + w == (b + 1) * w;
        assert (b + 1) * w <= n * w by { MulMonotone(b + 1, n, w); }
      }
    } else {
      assert b * w == n * w;
    }
  }

  lemma {:induction false} FlattenSize<T>(s: seq<seq<T>>, w: nat)
    requires IsGrid(s, |s|, w)
    ensures |Flatten(s)| == |s| * w
  {
    if |s| > 0 {
      var n := |s| - 1;
      assert IsGrid(s[..n], n, w);
      FlattenSize(s[..n], w);
    }
  }

  /** Two batches with the same row lengths flatten to equally long sequences. */
  lemma {:induction false} FlattenSameShape<T, U>(s: seq<seq<T>>, t: seq<seq<U>>)
    requires |s| == |t|
    requires forall b :: 0 <= b < |s| ==> |s[b]| == |t[b]|
    ensures |Flatten(s)| == |Flatten(t)|
  {
    if |s| > 0 {
      var n := |s| - 1;
      FlattenSameShape(s[..n], t[..n]);
    }
  }

  /** Flattening a batch of rows of width `c` gives rows of width `c`. */
  lemma {:induction false} FlattenWidth(s: seq<Mat>, c: nat)
    requires forall b, a :: 0 <= b < |s| && 0 <= a < |s[b]| ==> |s[b][a]| == c
    ensures forall i :: 0 <= i < |Flatten(s)| ==> |Flatten(s)[i]| == c
  {
    if |s| > 0 {
      var n := |s| - 1;
      FlattenWidth(s[..n], c);
      var f := Flatten(s[..n]);
      forall i | 0 <= i < |Flatten(s)| ensures |Flatten(s)[i]| == c {
        if i < |f| {
          assert Flatten(s)[i] == f[i];
        } else {
          assert Flatten(s)[i] == s[n][i - |f|];
        }
      }
    }
  }

  lemma MulMonotone(x: nat, y: nat, w: nat)
    requires x <= y
    ensures x * w <= y * w
  {
  }

  /** tf.gather along the first axis. */
  function Gather<T>(s: seq<T>, idx: seq<int>): seq<T>
    requires forall k :: 0 <= k < |idx| ==> 0 <= idx[k] < |s|
  {
    seq(|idx|, k requires 0 <= k < |idx| => s[idx[k]])
  }

  /** The Python and TensorFlow slice `s[:n]`: a prefix of `s`; a negative `n`
      counts from the end, and an `n` past either end is clamped. */
  function Prefix<T>(s: seq<T>, n: int): (r: seq<T>)
    ensures r <= s
    ensures 0 <= n ==> |r| == if n <= |s| then n else |s|
    ensures n < 0 ==> |r| == if -n <= |s| then |s| + n else 0
  {
    if 0 <= n then
      if n <= |s| then s[..n] else s
    else
      if -n <= |s| then s[..|s| + n] else []
  }

  /** Inner product of two equally long vectors. */
  function Dot(u: Vec, v: Vec): real
    requires |u| == |v|
  {
    if |u| == 0 then 0.0 else Dot(u[..|u| - 1], v[..|v| - 1]) + u[|u| - 1] * v[|v| - 1]
  }

  /** Elementwise sum of two coefficient vectors. */
  function Add(v: Vec, w: Vec): (r: Vec)
    requires |v| == |w|
    ensures |r| == |v|
  {
    seq(|v|, k requires 0 <= k < |v| => v[k] + w[k])
  }

  /** The inner product distributes over a sum of coefficient vectors. */
  lemma {:induction false} DotAdd(u: Vec, v: Vec, w: Vec)
    requires |u| == |v| == |w|
    ensures Dot(u, Add(v, w)) == Dot(u, v) + Dot(u, w)
  {
    if |u| > 0 {
      var n := |u| - 1;
      var c := Add(v, w);
      assert c[..n] == Add(v[..n], w[..n]) by {
        forall k | 0 <= k < n ensures c[..n][k] == Add(v[..n], w[..n])[k] {
          assert v[..n][k] == v[k] && w[..n][k] == w[k];
        }
      }
      DotAdd(u[..n], v[..n], w[..n]);
      Distribute(u[n], v[n], w[n]);
    }
  }

  lemma Distribute(a: real, p: real, q: real)
    ensures a * (p + q) == a * p + a * q
  {
  }

  /** A coefficient vector scaled by x. */
  function Scale(x: real, v: Vec): (r: Vec)
    ensures |r| == |v|
  {
    seq(|v|, k requires 0 <= k < |v| => x * v[k])
  }

  /** The inner product is homogeneous in its second argument. */
  lemma {:induction false} DotScale(u: Vec, x: real, v: Vec)
    requires |u| == |v|
    ensures Dot(u, Scale(x, v)) == x * Dot(u, v)
  {
    if |u| > 0 {
      var n := |u| - 1;
      var c := Scale(x, v);
      assert c[..n] == Scale(x, v[..n]) by {
        forall k | 0 <= k < n ensures c[..n][k] == Scale(x, v[..n])[k] {
          assert v[..n][k] == v[k];
        }
      }
      DotScale(u[..n], x, v[..n]);
      ScaleStep(x, Dot(u[..n], v[..n]), u[n], v[n]);
    }
  }

  lemma ScaleStep(x: real, d: real, a: real, p: real)
    ensures x * d + a * (x * p) == x * (d + a * p)
  {
  }
}
