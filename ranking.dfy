/**
 * Ranking of scored entries as the recommender does it: Python's stable
 * `list.sort(key=score, reverse=True)` followed by the slice `[:top_n]`.
 * An entry is a pair of an item and its score.
 */
module Ranking {

  /** Scores never increase along the sequence. */
  predicate NonIncreasing<T>(s: seq<(T, real)>)
  {
    forall i, j :: 0 <= i < j < |s| ==> s[i].1 >= s[j].1
  }

  /** No item occurs twice. */
  predicate DistinctItems<T(==)>(s: seq<(T, real)>)
  {
    forall i, j :: 0 <= i < j < |s| ==> s[i].0 != s[j].0
  }

  /** `[e]` when `e` has score `v`, else nothing. */
  function Keep<T>(e: (T, real), v: real): seq<(T, real)>
  {
    if e.1 == v then [e] else []
  }

  /** The entries whose score is exactly `v`, in their order of occurrence. */
  function WithScore<T>(s: seq<(T, real)>, v: real): seq<(T, real)>
  {
    if |s| == 0 then [] else WithScore(s[..|s| - 1], v) + Keep(s[|s| - 1], v)
  }

  /** Insert `x` after every entry whose score is at least its own. */
  function Insert<T>(sorted: seq<(T, real)>, x: (T, real)): seq<(T, real)>
  {
    if |sorted| == 0 then [x]
    else if sorted[0].1 >= x.1 then [sorted[0]] + Insert(sorted[1..], x)
    else [x] + sorted
  }

  /** Inserting adds exactly the new entry. */
  lemma {:induction false} InsertPermutes<T>(sorted: seq<(T, real)>, x: (T, real))
    ensures multiset(Insert(sorted, x)) == multiset(sorted) + multiset{x}
    decreases |sorted|
  {
    if |sorted| > 0 && sorted[0].1 >= x.1 {
      InsertPermutes(sorted[1..], x);
      assert sorted == [sorted[0]] + sorted[1..];
    }
  }

  /** A bound on every score survives an insertion that respects it. */
  lemma {:induction false} InsertBounded<T>(sorted: seq<(T, real)>, x: (T, real), h: real)
    requires forall i :: 0 <= i < |sorted| ==> sorted[i].1 <= h
    requires x.1 <= h
    ensures forall i :: 0 <= i < |Insert(sorted, x)| ==> Insert(sorted, x)[i].1 <= h
    decreases |sorted|
  {
    if |sorted| > 0 && sorted[0].1 >= x.1 {
      var tail := sorted[1..];
      assert forall i :: 0 <= i < |tail| ==> tail[i] == sorted[i + 1];
      InsertBounded(tail, x, h);
    }
  }

  /** Inserting into a list sorted by descending score keeps it sorted. */
  lemma {:induction false} InsertSorted<T>(sorted: seq<(T, real)>, x: (T, real))
    requires NonIncreasing(sorted)
    ensures NonIncreasing(Insert(sorted, x))
    decreases |sorted|
  {
    if |sorted| == 0 {
    } else if sorted[0].1 >= x.1 {
      var head, tail := sorted[0], sorted[1..];
      assert forall i :: 0 <= i < |tail| ==> tail[i] == sorted[i + 1];
      InsertSorted(tail, x);
      InsertBounded(tail, x, head.1);
      ConsNonIncreasing(head, Insert(tail, x));
    } else {
      ConsNonIncreasing(x, sorted);
    }
  }

  lemma ConsNonIncreasing<T>(h: (T, real), t: seq<(T, real)>)
    requires NonIncreasing(t)
    requires forall i :: 0 <= i < |t| ==> t[i].1 <= h.1
    ensures NonIncreasing([h] + t)
  {
    var r := [h] + t;
    forall i, j | 0 <= i < j < |r| ensures r[i].1 >= r[j].1 {
      assert r[j] == t[j - 1];
      if i > 0 {
        assert r[i] == t[i - 1];
      }
    }
  }

  /** Stable sort by descending score: `sort(key=score, reverse=True)`. */
  function SortDesc<T>(s: seq<(T, real)>): (r: seq<(T, real)>)
    ensures NonIncreasing(r)
    ensures multiset(r) == multiset(s)
  {
    if |s| == 0 then []
    else
      var init, last := SortDesc(s[..|s| - 1]), s[|s| - 1];
      InsertSorted(init, last);
      InsertPermutes(init, last);
      assert s == s[..|s| - 1] + [last];
      Insert(init, last)
  }

  /** `s[:n]` with Python's slice bounds: a negative `n` counts from the end. */
  function PyPrefix<T>(s: seq<T>, n: int): (r: seq<T>)
    ensures n >= 0 ==> |r| == if n < |s| then n else |s|
    ensures n < 0 ==> |r| == if |s| + n > 0 then |s| + n else 0
    ensures r <= s
  {
    if n >= 0 then s[..if n < |s| then n else |s|]
    else s[..if |s| + n > 0 then |s| + n else 0]
  }

  /** The first `topN` entries by descending score, ties in input order. */
  function TopN<T>(entries: seq<(T, real)>, topN: int): seq<(T, real)>
  {
    PyPrefix(SortDesc(entries), topN)
  }

  lemma {:induction false} WithScoreAppend<T>(a: seq<(T, real)>, b: seq<(T, real)>, v: real)
    ensures WithScore(a + b, v) == WithScore(a, v) + WithScore(b, v)
    decreases |b|
  {
    if |b| == 0 {
      assert a + b == a;
    } else {
      assert (a + b)[..|a + b| - 1] == a + b[..|b| - 1];
      WithScoreAppend(a, b[..|b| - 1], v);
    }
  }

  lemma {:induction false} WithScoreBelow<T>(s: seq<(T, real)>, v: real)
    requires forall i :: 0 <= i < |s| ==> s[i].1 < v
    ensures WithScore(s, v) == []
    decreases |s|
  {
    if |s| > 0 {
      WithScoreBelow(s[..|s| - 1], v);
    }
  }

  lemma {:induction false} WithScoreInsert<T>(sorted: seq<(T, real)>, x: (T, real), v: real)
    requires NonIncreasing(sorted)
    ensures WithScore(Insert(sorted, x), v) == WithScore(sorted, v) + Keep(x, v)
    decreases |sorted|
  {
    if |sorted| == 0 {
      assert Insert(sorted, x) == [x];
      assert [x][..0] == [];
    } else if sorted[0].1 >= x.1 {
      var head, tail := [sorted[0]], sorted[1..];
      assert sorted == head + tail;
      assert Insert(sorted, x) == head + Insert(tail, x);
      WithScoreInsert(tail, x, v);
      WithScoreAppendThree(head, tail, Insert(tail, x), Keep(x, v), v);
    } else {
      WithScoreInsertFront(sorted, x, v);
    }
  }

  lemma {:induction false} WithScoreAppendThree<T>(h: seq<(T, real)>, t: seq<(T, real)>, ins: seq<(T, real)>, k: seq<(T, real)>, v: real)
    requires WithScore(ins, v) == WithScore(t, v) + k
    ensures WithScore(h + ins, v) == WithScore(h + t, v) + k
  {
    WithScoreAppend(h, ins, v);
    WithScoreAppend(h, t, v);
    var a, b := WithScore(h, v), WithScore(t, v);
    assert a + (b + k) == (a + b) + k;
  }

  lemma WithScoreInsertFront<T>(sorted: seq<(T, real)>, x: (T, real), v: real)
    requires NonIncreasing(sorted) && |sorted| > 0 && sorted[0].1 < x.1
    ensures WithScore(Insert(sorted, x), v) == WithScore(sorted, v) + Keep(x, v)
  {
    assert Insert(sorted, x) == [x] + sorted;
    WithScoreAppend([x], sorted, v);
    assert [x][..0] == [];
    assert WithScore([x], v) == Keep(x, v);
    if x.1 == v {
      WithScoreBelow(sorted, v);
    }
  }

  /** Stability: the entries of any one score keep their input order. */
  lemma {:induction false} SortDescStable<T>(s: seq<(T, real)>, v: real)
    ensures WithScore(SortDesc(s), v) == WithScore(s, v)
    decreases |s|
  {
    if |s| > 0 {
      var init := s[..|s| - 1];
      SortDescStable(init, v);
      WithScoreInsert(SortDesc(init), s[|s| - 1], v);
    }
  }

  lemma {:induction false} InsertDistinct<T>(sorted: seq<(T, real)>, x: (T, real))
    requires NonIncreasing(sorted) && DistinctItems(sorted)
    requires forall i :: 0 <= i < |sorted| ==> sorted[i].0 != x.0
    ensures DistinctItems(Insert(sorted, x))
    decreases |sorted|
  {
    if |sorted| > 0 && sorted[0].1 >= x.1 {
      var tail := sorted[1..];
      assert forall i :: 0 <= i < |tail| ==> tail[i] == sorted[i + 1];
      InsertDistinct(tail, x);
      InsertPermutes(tail, x);
      var rest := Insert(tail, x);
      var r := Insert(sorted, x);
      assert r == [sorted[0]] + rest;
      forall i, j | 0 <= i < j < |r| ensures r[i].0 != r[j].0 {
        if i == 0 {
          assert r[j] == rest[j - 1];
          assert r[j] in multiset(tail) + multiset{x};
          if r[j] != x {
            var k :| 0 <= k < |tail| && tail[k] == r[j];
          }
        }
      }
    } else if |sorted| > 0 {
      var r := [x] + sorted;
      forall i, j | 0 <= i < j < |r| ensures r[i].0 != r[j].0 {
        if i == 0 {
          assert r[j] == sorted[j - 1];
        }
      }
    }
  }

  lemma {:induction false} SortDescDistinct<T>(s: seq<(T, real)>)
    requires DistinctItems(s)
    ensures DistinctItems(SortDesc(s))
    decreases |s|
  {
    if |s| > 0 {
      var init, last := s[..|s| - 1], s[|s| - 1];
      assert DistinctItems(init);
      SortDescDistinct(init);
      var sortedInit := SortDesc(init);
      forall i | 0 <= i < |sortedInit| ensures sortedInit[i].0 != last.0 {
        assert sortedInit[i] in multiset(init);
      }
      InsertDistinct(sortedInit, last);
    }
  }

  lemma {:induction false} WithScorePrefix<T>(s: seq<(T, real)>, t: seq<(T, real)>, v: real)
    requires t <= s
    ensures WithScore(t, v) <= WithScore(s, v)
    decreases |s|
  {
    if |t| < |s| {
      assert t <= s[..|s| - 1];
      WithScorePrefix(s[..|s| - 1], t, v);
    } else {
      assert t == s;
    }
  }

  /**
   * What the recommender hands back: `min(topN, |entries|)` entries for a
   * non-negative `topN`, each one of the input entries, none repeated when
   * the items are distinct, scores non-increasing, and the entries of any
   * one score a prefix of that score's entries in input order, and no
   * entry left out scoring above an entry kept.
   */
  lemma TopNProperties<T>(entries: seq<(T, real)>, topN: int)
    ensures topN >= 0 ==> |TopN(entries, topN)| == if topN < |entries| then topN else |entries|
    ensures NonIncreasing(TopN(entries, topN))
    ensures forall e :: e in TopN(entries, topN) ==> e in entries
    ensures DistinctItems(entries) ==> DistinctItems(TopN(entries, topN))
    ensures forall v :: WithScore(TopN(entries, topN), v) <= WithScore(entries, v)
    ensures var r := TopN(entries, topN);
      forall x, y :: x in multiset(entries) - multiset(r) && y in r ==> x.1 <= y.1
  {
    TopNSelects(entries, topN);
    var sorted := SortDesc(entries);
    var r := TopN(entries, topN);
    assert r <= sorted;
    assert forall i :: 0 <= i < |r| ==> r[i] == sorted[i];
    forall e | e in r ensures e in entries {
      assert e in multiset(sorted);
    }
    if DistinctItems(entries) {
      SortDescDistinct(entries);
    }
    forall v ensures WithScore(r, v) <= WithScore(entries, v) {
      WithScorePrefix(sorted, r, v);
      SortDescStable(entries, v);
    }
  }

  /**
   * The cut keeps the best: every entry that the top-N list leaves out
   * (counted with multiplicity) scores at most every entry it keeps.
   */
  lemma TopNSelects<T>(entries: seq<(T, real)>, topN: int)
    ensures var r := TopN(entries, topN);
      forall x, y :: x in multiset(entries) - multiset(r) && y in r ==> x.1 <= y.1
  {
    var sorted := SortDesc(entries);
    var r := TopN(entries, topN);
    var k := |r|;
    var rest := sorted[k..];
    assert r == sorted[..k];
    assert sorted == r + rest;
    assert multiset(entries) - multiset(r) == multiset(rest);
    forall x, y | x in multiset(entries) - multiset(r) && y in r ensures x.1 <= y.1 {
      assert x in rest;
      var i :| 0 <= i < |rest| && rest[i] == x;
      var j :| 0 <= j < k && sorted[..k][j] == y;
      assert sorted[k + i] == x;
      assert sorted[j] == y;
    }
  }
}
