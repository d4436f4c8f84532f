/** tf.argsort(scores, direction="DESCENDING") and the hard-negative cut
    `order[:needed]` taken from it. A descending argsort is computed by
    tf.nn.top_k, which lists equal scores lower index first; the insertion
    sort below is proved to be that order, and to be the only descending
    argsort that breaks ties so. The properties of the cut are proved for
    every descending argsort, whatever its tie order. */
module Argsort {
  import opened Tensors
  import opened Indices

  predicate InRange(scores: seq<real>, s: seq<int>)
  {
    forall k :: 0 <= k < |s| ==> 0 <= s[k] < |scores|
  }

  /** Non-increasing scores along `s`. */
  predicate SortedDescending(scores: seq<real>, s: seq<int>)
    requires InRange(scores, s)
  {
    forall p, q :: 0 <= p < q < |s| ==> scores[s[p]] >= scores[s[q]]
  }

  /** `order` lists every index of `scores` once, highest score first; the
      order among equal scores is left open. */
  predicate IsDescendingArgsort(scores: seq<real>, order: seq<int>)
  {
    && |order| == |scores|
    && InRange(scores, order)
    && (forall j :: 0 <= j < |scores| ==> j in order)
    && Distinct(order)
    && SortedDescending(scores, order)
  }

  /** Equal scores along `s` come in ascending index. */
  predicate TiesAscending(scores: seq<real>, s: seq<int>)
    requires InRange(scores, s)
  {
    forall p, q :: 0 <= p < q < |s| && scores[s[p]] == scores[s[q]] ==> s[p] < s[q]
  }

  /** Inserts index `x` in front of the first element scoring lower than it. */
  function Insert(scores: seq<real>, x: int, s: seq<int>): (r: seq<int>)
    requires 0 <= x < |scores| && InRange(scores, s)
    ensures |r| == |s| + 1 && InRange(scores, r)
    ensures forall y :: y in r <==> y in s || y == x
  {
    if s == [] then [x]
    else if scores[s[0]] < scores[x] then [x] + s
    else
      var t := Insert(scores, x, s[1..]);
      assert forall y :: y in s ==> y == s[0] || y in s[1..];
      [s[0]] + t
  }

  /** The first element of a descending sequence scores highest. */
  lemma HeadScoresHighest(scores: seq<real>, s: seq<int>, y: int)
    requires InRange(scores, s) && SortedDescending(scores, s)
    requires y in s
    ensures scores[y] <= scores[s[0]]
  {
    var q :| 0 <= q < |s| && s[q] == y;
    if q > 0 { assert scores[s[0]] >= scores[s[q]]; }
  }

  lemma TailSorted(scores: seq<real>, s: seq<int>)
    requires InRange(scores, s) && SortedDescending(scores, s) && |s| > 0
    ensures SortedDescending(scores, s[1..])
  {
    forall p, q | 0 <= p < q < |s[1..]| ensures scores[s[1..][p]] >= scores[s[1..][q]] {
      assert s[1..][p] == s[p + 1] && s[1..][q] == s[q + 1];
    }
  }

  /** `[y] + t` is descending when `t` is and `y` scores at least as high as all of `t`. */
  lemma ConsSorted(scores: seq<real>, y: int, t: seq<int>)
    requires 0 <= y < |scores| && InRange(scores, t) && SortedDescending(scores, t)
    requires forall z :: z in t ==> scores[z] <= scores[y]
    ensures SortedDescending(scores, [y] + t)
  {
    var r := [y] + t;
    forall p, q | 0 <= p < q < |r| ensures scores[r[p]] >= scores[r[q]] {
      assert r[q] == t[q - 1] && r[q] in t;
      if p > 0 { assert r[p] == t[p - 1]; }
    }
  }

  /** Insertion keeps a descending sequence descending. */
  lemma {:induction false} InsertSorted(scores: seq<real>, x: int, s: seq<int>)
    requires 0 <= x < |scores| && InRange(scores, s) && SortedDescending(scores, s)
    ensures SortedDescending(scores, Insert(scores, x, s))
  {
    if s == [] {
    } else if scores[s[0]] < scores[x] {
      forall z | z in s ensures scores[z] <= scores[x] {
        HeadScoresHighest(scores, s, z);
      }
      ConsSorted(scores, x, s);
    } else {
      TailSorted(scores, s);
      InsertSorted(scores, x, s[1..]);
      var t := Insert(scores, x, s[1..]);
      forall z | z in t ensures scores[z] <= scores[s[0]] {
        if z != x {
          assert z in s;
          HeadScoresHighest(scores, s, z);
        }
      }
      ConsSorted(scores, s[0], t);
    }
  }

  lemma ConsDistinct<T>(y: T, t: seq<T>)
    requires Distinct(t) && y !in t
    ensures Distinct([y] + t)
  {
    var r := [y] + t;
    forall p, q | 0 <= p < q < |r| ensures r[p] != r[q] {
      assert r[q] == t[q - 1] && r[q] in t;
      if p > 0 { assert r[p] == t[p - 1]; }
    }
  }

  /** Inserting a new index keeps the indices distinct. */
  lemma {:induction false} InsertDistinct(scores: seq<real>, x: int, s: seq<int>)
    requires 0 <= x < |scores| && InRange(scores, s)
    requires Distinct(s) && x !in s
    ensures Distinct(Insert(scores, x, s))
  {
    if s == [] {
    } else if scores[s[0]] < scores[x] {
      ConsDistinct(x, s);
    } else {
      assert Distinct(s[1..]) by {
        forall p, q | 0 <= p < q < |s[1..]| ensures s[1..][p] != s[1..][q] {
          assert s[1..][p] == s[p + 1] && s[1..][q] == s[q + 1];
        }
      }
      assert s[0] !in s[1..] by {
        forall q | 0 <= q < |s[1..]| ensures s[1..][q] != s[0] {
          assert s[1..][q] == s[q + 1];
        }
      }
      assert x !in s[1..];
      InsertDistinct(scores, x, s[1..]);
      ConsDistinct(s[0], Insert(scores, x, s[1..]));
    }
  }

  /** `[y] + t` lists ties in ascending index when `t` does and `y` is
      below every element of `t` that it ties with. */
  lemma ConsTiesAscending(scores: seq<real>, y: int, t: seq<int>)
    requires 0 <= y < |scores| && InRange(scores, t) && TiesAscending(scores, t)
    requires forall z :: z in t && scores[z] == scores[y] ==> y < z
    ensures TiesAscending(scores, [y] + t)
  {
    var r := [y] + t;
    forall p, q | 0 <= p < q < |r| && scores[r[p]] == scores[r[q]] ensures r[p] < r[q] {
      assert r[q] == t[q - 1] && r[q] in t;
      if p > 0 { assert r[p] == t[p - 1]; }
    }
  }

  /** Inserting an index above all present ones behind its equals keeps
      ties in ascending index. */
  lemma {:induction false} InsertTiesAscending(scores: seq<real>, x: int, s: seq<int>)
    requires 0 <= x < |scores| && InRange(scores, s) && SortedDescending(scores, s)
    requires TiesAscending(scores, s) && forall y :: y in s ==> y < x
    ensures TiesAscending(scores, Insert(scores, x, s))
  {
    if s == [] {
    } else if scores[s[0]] < scores[x] {
      forall z | z in s ensures scores[z] < scores[x] {
        HeadScoresHighest(scores, s, z);
      }
      ConsTiesAscending(scores, x, s);
    } else {
      TailSorted(scores, s);
      TiesAscendingTail(scores, s);
      assert forall y :: y in s[1..] ==> y in s;
      InsertTiesAscending(scores, x, s[1..]);
      var t := Insert(scores, x, s[1..]);
      assert s[0] in s;
      ConsTiesAscending(scores, s[0], t);
    }
  }

  /** Dropping the head keeps ties ascending, and the head is below every
      later element it ties with. */
  lemma TiesAscendingTail(scores: seq<real>, s: seq<int>)
    requires InRange(scores, s) && TiesAscending(scores, s) && |s| > 0
    ensures TiesAscending(scores, s[1..])
    ensures forall z :: z in s[1..] && scores[z] == scores[s[0]] ==> s[0] < z
  {
    forall p, q | 0 <= p < q < |s[1..]| && scores[s[1..][p]] == scores[s[1..][q]]
      ensures s[1..][p] < s[1..][q]
    {
      assert s[1..][p] == s[p + 1] && s[1..][q] == s[q + 1];
    }
    forall z | z in s[1..] && scores[z] == scores[s[0]] ensures s[0] < z {
      var k :| 0 <= k < |s[1..]| && s[1..][k] == z;
      assert s[k + 1] == z;
    }
  }

  /** Insertion sort of the indices 0 .. n - 1 by descending score. */
  function ArgsortPrefix(scores: seq<real>, n: nat): (r: seq<int>)
    requires n <= |scores|
    ensures |r| == n && InRange(scores, r)
    ensures forall y :: y in r <==> 0 <= y < n
    ensures Distinct(r)
    ensures SortedDescending(scores, r)
    ensures TiesAscending(scores, r)
  {
    if n == 0 then []
    else
      var s := ArgsortPrefix(scores, n - 1);
      InsertSorted(scores, n - 1, s);
      InsertDistinct(scores, n - 1, s);
      InsertTiesAscending(scores, n - 1, s);
      Insert(scores, n - 1, s)
  }

  /** tf.argsort(scores, direction="DESCENDING"): every index once, highest
      score first, equal scores lower index first. */
  function ArgsortDescending(scores: seq<real>): (order: seq<int>)
    ensures IsDescendingArgsort(scores, order)
    ensures TiesAscending(scores, order)
  {
    ArgsortPrefix(scores, |scores|)
  }

  /** There is only one descending argsort that lists ties in ascending
      index, so `ArgsortDescending` is the library's order. */
  lemma {:induction false} StableArgsortUnique(scores: seq<real>, o1: seq<int>, o2: seq<int>)
    requires IsDescendingArgsort(scores, o1) && TiesAscending(scores, o1)
    requires IsDescendingArgsort(scores, o2) && TiesAscending(scores, o2)
    ensures o1 == o2
  {
    StableArgsortsAgree(scores, o1, o2, |o1|);
  }

  lemma {:induction false} StableArgsortsAgree(scores: seq<real>, o1: seq<int>, o2: seq<int>, k: nat)
    requires IsDescendingArgsort(scores, o1) && TiesAscending(scores, o1)
    requires IsDescendingArgsort(scores, o2) && TiesAscending(scores, o2)
    requires k <= |o1|
    ensures forall m :: 0 <= m < k ==> o1[m] == o2[m]
  {
    if k > 0 {
      StableArgsortsAgree(scores, o1, o2, k - 1);
      StableArgsortsAgreeAt(scores, o1, o2, k - 1);
    }
  }

  /** Two such orders that agree before position k agree at k. */
  lemma StableArgsortsAgreeAt(scores: seq<real>, o1: seq<int>, o2: seq<int>, k: nat)
    requires IsDescendingArgsort(scores, o1) && TiesAscending(scores, o1)
    requires IsDescendingArgsort(scores, o2) && TiesAscending(scores, o2)
    requires k < |o1| && forall m :: 0 <= m < k ==> o1[m] == o2[m]
    ensures o1[k] == o2[k]
  {
    var a, b := o1[k], o2[k];
    assert b in o1 && a in o2;
    var q :| 0 <= q < |o1| && o1[q] == b;
    var r :| 0 <= r < |o2| && o2[r] == a;
    assert k <= q && k <= r;
    assert scores[a] >= scores[b] && scores[b] >= scores[a];
    assert a <= b && b <= a;
  }

  /** The cut `order[:needed]` of any admissible argsort takes exactly
      min(needed, |scores|) distinct indices, in descending-score order, and
      each of them scores at least as high as every index left out; when
      `needed` reaches |scores| every index is taken. */
  lemma TopK(scores: seq<real>, order: seq<int>, needed: int)
    requires IsDescendingArgsort(scores, order)
    requires 0 <= needed
    ensures var sel := Prefix(order, needed);
      && |sel| == (if needed <= |scores| then needed else |scores|)
      && InRange(scores, sel)
      && Distinct(sel)
      && SortedDescending(scores, sel)
      && (forall k, j :: 0 <= k < |sel| && 0 <= j < |scores| && j !in sel ==> scores[sel[k]] >= scores[j])
      && (|scores| <= needed ==> forall j :: 0 <= j < |scores| ==> j in sel)
  {
    var sel := Prefix(order, needed);
    var m := |sel|;
    assert sel == order[..m];
    if |scores| <= needed {
      assert sel == order;
    }
    forall k, j | 0 <= k < m && 0 <= j < |scores| && j !in sel
      ensures scores[sel[k]] >= scores[j]
    {
      assert j in order;
      var q :| 0 <= q < |order| && order[q] == j;
      assert q >= m;
      assert scores[order[k]] >= scores[order[q]];
    }
  }

  /** The top-k cut taken over the scores of some of the indices `w` of a
      larger list, read back as indices of that list: the picked indices
      come in descending score and each scores at least as high as every
      index of `w` left out. */
  lemma TopKGathered(all: seq<real>, w: seq<nat>, order: seq<int>, needed: int)
    requires Increasing(w) && forall k :: 0 <= k < |w| ==> w[k] < |all|
    requires IsDescendingArgsort(Gather(all, w), order) && 0 <= needed
    ensures var sel := Prefix(order, needed);
      && (forall k :: 0 <= k < |sel| ==> 0 <= sel[k] < |w|)
      && var picked := Gather(w, sel);
      && (forall p, q :: 0 <= p < q < |picked| ==> all[picked[p]] >= all[picked[q]])
      && (forall k, j :: 0 <= k < |picked| && 0 <= j < |w| && w[j] !in picked ==> all[picked[k]] >= all[w[j]])
  {
    var scores := Gather(all, w);
    var sel := Prefix(order, needed);
    TopK(scores, order, needed);
    var picked := Gather(w, sel);
    forall k, j | 0 <= k < |picked| && 0 <= j < |w| && w[j] !in picked
      ensures all[picked[k]] >= all[w[j]]
    {
      forall q | 0 <= q < |sel| ensures sel[q] != j {
        assert picked[q] == w[sel[q]] && picked[q] in picked;
      }
      assert scores[sel[k]] >= scores[j];
    }
    forall p, q | 0 <= p < q < |picked| ensures all[picked[p]] >= all[picked[q]] {
      assert scores[sel[p]] >= scores[sel[q]];
    }
  }
}
