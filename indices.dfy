/** Index sets produced by `tf.where(x == v)`: the positions holding `v`, in
    ascending (row-major) order. */
module Indices {
  import opened Tensors

  predicate Increasing(r: seq<int>)
  {
    forall i, j :: 0 <= i < j < |r| ==> r[i] < r[j]
  }

  predicate Distinct<T(==)>(r: seq<T>)
  {
    forall i, j :: 0 <= i < j < |r| ==> r[i] != r[j]
  }

  /** tf.where(s == v) on a vector: positions of `s` that hold `v`. That it
      lists all of them, in ascending order, is `WhereComplete`. */
  function Where(s: seq<int>, v: int): (r: seq<nat>)
    ensures forall k :: 0 <= k < |r| ==> r[k] < |s| && s[r[k]] == v
  {
    if |s| == 0 then [] else Where(s[..|s| - 1], v) + (if s[|s| - 1] == v then [|s| - 1] else [])
  }

  /** `Where` lists every position holding `v`, each once, in ascending order. */
  lemma {:induction false} WhereComplete(s: seq<int>, v: int)
    ensures forall i :: 0 <= i < |s| && s[i] == v ==> i in Where(s, v)
    ensures Increasing(Where(s, v))
  {
    if |s| > 0 {
      var n := |s| - 1;
      WhereComplete(s[..n], v);
      forall i | 0 <= i < n && s[i] == v ensures i in Where(s[..n], v) {
        assert s[..n][i] == s[i];
      }
    }
  }

  /** A position is listed by `Where` exactly when it holds the value. */
  lemma WhereMembership(s: seq<int>, v: int, i: int)
    ensures i in Where(s, v) <==> 0 <= i < |s| && s[i] == v
  {
    WhereComplete(s, v);
    if i in Where(s, v) {
      var k :| 0 <= k < |Where(s, v)| && Where(s, v)[k] == i;
    }
  }

  /** The positives and the negatives never share an anchor, and a value other
      than 0 and 1 is in neither set. */
  lemma PartitionDisjoint(s: seq<int>, i: int)
    ensures !(i in Where(s, 1) && i in Where(s, 0))
    ensures 0 <= i < |s| && s[i] != 0 && s[i] != 1 ==> i !in Where(s, 1) && i !in Where(s, 0)
  {
    WhereMembership(s, 1, i);
    WhereMembership(s, 0, i);
  }

  /** The number of positions `Where` lists is the number of occurrences of `v`. */
  lemma {:induction false} WhereCount(s: seq<int>, v: int)
    ensures |Where(s, v)| == multiset(s)[v]
  {
    if |s| > 0 {
      var n := |s| - 1;
      WhereCount(s[..n], v);
      assert s == s[..n] + [s[n]];
      assert multiset(s) == multiset(s[..n]) + multiset{s[n]};
    }
  }

  lemma WhereCountAppend(s: seq<int>, t: seq<int>, v: int)
    ensures |Where(s + t, v)| == |Where(s, v)| + |Where(t, v)|
  {
    WhereCount(s + t, v);
    WhereCount(s, v);
    WhereCount(t, v);
    assert multiset(s + t) == multiset(s) + multiset(t);
  }

  /** Picking distinct positions of an increasing index list gives distinct indices. */
  lemma GatherIncreasingDistinct(w: seq<nat>, sel: seq<int>)
    requires Increasing(w) && Distinct(sel)
    requires forall k :: 0 <= k < |sel| ==> 0 <= sel[k] < |w|
    ensures Distinct(Gather(w, sel))
  {
    var g := Gather(w, sel);
    forall p, q | 0 <= p < q < |g| ensures g[p] != g[q] {
      assert g[p] == w[sel[p]] && g[q] == w[sel[q]];
      assert sel[p] != sel[q];
      if sel[p] < sel[q] {
        assert w[sel[p]] < w[sel[q]];
      } else {
        assert w[sel[q]] < w[sel[p]];
      }
    }
  }

  predicate LexLess(p: (nat, nat), q: (nat, nat))
  {
    p.0 < q.0 || (p.0 == q.0 && p.1 < q.1)
  }

  /** The pairs (b, a) for the positions listed in `w` of row `b`. */
  function RowPairs(b: nat, w: seq<nat>): (r: seq<(nat, nat)>)
    ensures |r| == |w|
    ensures forall k :: 0 <= k < |w| ==> r[k] == (b, w[k])
  {
    seq(|w|, k requires 0 <= k < |w| => (b, w[k]))
  }

  /** tf.where(s == v) on a batch of rows: (row, column) pairs holding `v`.
      That it lists all of them, in row-major order, is `WherePairsComplete`. */
  function WherePairs(s: seq<seq<int>>, v: int): (r: seq<(nat, nat)>)
    ensures forall k :: 0 <= k < |r| ==> r[k].0 < |s| && r[k].1 < |s[r[k].0]| && s[r[k].0][r[k].1] == v
  {
    if |s| == 0 then []
    else
      var n := |s| - 1;
      WherePairs(s[..n], v) + RowPairs(n, Where(s[n], v))
  }

  /** `WherePairs` lists every pair holding `v`. */
  lemma {:induction false} WherePairsComplete(s: seq<seq<int>>, v: int)
    ensures forall b, a :: 0 <= b < |s| && 0 <= a < |s[b]| && s[b][a] == v ==> (b, a) in WherePairs(s, v)
  {
    if |s| > 0 {
      var n := |s| - 1;
      var front := WherePairs(s[..n], v);
      var w := Where(s[n], v);
      var r := front + RowPairs(n, w);
      WherePairsComplete(s[..n], v);
      WhereComplete(s[n], v);
      forall b, a | 0 <= b < |s| && 0 <= a < |s[b]| && s[b][a] == v
        ensures (b, a) in r
      {
        if b < n {
          assert s[..n][b] == s[b];
          assert (b, a) in front;
        } else {
          var k :| 0 <= k < |w| && w[k] == a;
          assert r[|front| + k] == (b, a);
        }
      }
    }
  }

  /** `WherePairs` lists its pairs in row-major order, hence each once. */
  lemma {:induction false} WherePairsOrdered(s: seq<seq<int>>, v: int)
    ensures forall i, j :: 0 <= i < j < |WherePairs(s, v)| ==> LexLess(WherePairs(s, v)[i], WherePairs(s, v)[j])
  {
    if |s| > 0 {
      var n := |s| - 1;
      var front := WherePairs(s[..n], v);
      var w := Where(s[n], v);
      var last := RowPairs(n, w);
      var r := front + last;
      WherePairsOrdered(s[..n], v);
      WhereComplete(s[n], v);
      forall i, j | 0 <= i < j < |r| ensures LexLess(r[i], r[j]) {
        if j < |front| {
          assert r[i] == front[i] && r[j] == front[j];
        } else if i < |front| {
          assert r[i] == front[i] && r[i].0 < n;
          assert r[j] == last[j - |front|];
        } else {
          assert r[i] == last[i - |front|] && r[j] == last[j - |front|];
        }
      }
    }
  }

  /** The batch-wide positive count is the per-row counts added up. */
  function RowCounts(s: seq<seq<int>>, v: int): nat
  {
    if |s| == 0 then 0 else RowCounts(s[..|s| - 1], v) + |Where(s[|s| - 1], v)|
  }

  /** Counting the pairs of a batch, counting the flattened batch and adding up
      the per-row counts agree. */
  lemma {:induction false} PairCount(s: seq<seq<int>>, v: int)
    ensures |WherePairs(s, v)| == RowCounts(s, v)
    ensures |WherePairs(s, v)| == |Where(Flatten(s), v)|
  {
    if |s| > 0 {
      var n := |s| - 1;
      PairCount(s[..n], v);
      WhereCountAppend(Flatten(s[..n]), s[n], v);
    }
  }
}
