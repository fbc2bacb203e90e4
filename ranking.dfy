/**
 * Ranking by score, highest first, as Python's stable `list.sort(key=..., reverse=True)`
 * does it: items with equal scores keep their original relative order. Also Python's
 * `s[:k]` cut, which for a negative `k` drops items from the end.
 */
module Ranking {
  /** An item paired with its score. */
  datatype Scored<T> = Scored(score: int, item: T)

  predicate SortedDesc<T>(s: seq<Scored<T>>)
  {
    forall i, j :: 0 <= i < j < |s| ==> s[i].score >= s[j].score
  }

  /** Puts `x` before the first item that does not score higher, so an earlier item stays ahead of equal later ones. */
  function Insert<T>(x: Scored<T>, s: seq<Scored<T>>): (r: seq<Scored<T>>)
    ensures |r| == |s| + 1
  {
    if s == [] || x.score >= s[0].score then [x] + s
    else [s[0]] + Insert(x, s[1..])
  }

  /** The stable descending sort: each item, from the last to the first, is inserted ahead of its equals. */
  function SortDesc<T>(s: seq<Scored<T>>): (r: seq<Scored<T>>)
    ensures |r| == |s|
  {
    if s == [] then [] else Insert(s[0], SortDesc(s[1..]))
  }

  /** The items scoring exactly `k`, in order. */
  function WithScore<T>(s: seq<Scored<T>>, k: int): (r: seq<Scored<T>>)
    ensures |r| <= |s|
  {
    if s == [] then []
    else (if s[0].score == k then [s[0]] else []) + WithScore(s[1..], k)
  }

  lemma {:induction false} InsertWithScore<T>(x: Scored<T>, s: seq<Scored<T>>, k: int)
    ensures WithScore(Insert(x, s), k) == (if x.score == k then [x] else []) + WithScore(s, k)
  {
    if s == [] || x.score >= s[0].score {
      var r := [x] + s;
      assert r[0] == x && r[1..] == s;
    } else {
      var t := Insert(x, s[1..]);
      var r := [s[0]] + t;
      assert r[0] == s[0] && r[1..] == t;
      InsertWithScore(x, s[1..], k);
      if x.score == k {
        assert WithScore(r, k) == WithScore(t, k);
        assert WithScore(s, k) == WithScore(s[1..], k);
      } else {
        assert WithScore(t, k) == WithScore(s[1..], k);
      }
    }
  }

  /** Stability: the items of each score come out exactly as they went in, in the same order. */
  lemma {:induction false} SortDescStable<T>(s: seq<Scored<T>>, k: int)
    ensures WithScore(SortDesc(s), k) == WithScore(s, k)
  {
    if s != [] {
      SortDescStable(s[1..], k);
      InsertWithScore(s[0], SortDesc(s[1..]), k);
    }
  }

  /** No item of `s` scores above `v`. */
  predicate AllAtMost<T>(s: seq<Scored<T>>, v: int)
  {
    forall i :: 0 <= i < |s| ==> s[i].score <= v
  }

  lemma {:induction false} InsertAtMost<T>(x: Scored<T>, s: seq<Scored<T>>, v: int)
    requires AllAtMost(s, v) && x.score <= v
    ensures AllAtMost(Insert(x, s), v)
  {
    if s != [] && x.score < s[0].score {
      InsertAtMost(x, s[1..], v);
      var r := Insert(x, s[1..]);
      assert forall i :: 0 < i < |r| + 1 ==> ([s[0]] + r)[i] == r[i - 1];
    }
  }

  lemma ConsSorted<T>(y: Scored<T>, t: seq<Scored<T>>)
    requires AllAtMost(t, y.score) && SortedDesc(t)
    ensures SortedDesc([y] + t)
  {
    forall i, j | 0 <= i < j < |[y] + t|
      ensures ([y] + t)[i].score >= ([y] + t)[j].score
    {
      if i > 0 {
        assert ([y] + t)[i] == t[i - 1];
      }
      assert ([y] + t)[j] == t[j - 1];
    }
  }

  lemma {:induction false} InsertSorted<T>(x: Scored<T>, s: seq<Scored<T>>)
    requires SortedDesc(s)
    ensures SortedDesc(Insert(x, s))
  {
    if s == [] || x.score >= s[0].score {
      assert AllAtMost(s, x.score) by {
        forall i | 0 <= i < |s| ensures s[i].score <= x.score {
          assert s[0].score >= s[i].score;
        }
      }
      ConsSorted(x, s);
    } else {
      var t := s[1..];
      assert SortedDesc(t) by {
        forall i, j | 0 <= i < j < |t| ensures t[i].score >= t[j].score {
          assert t[i] == s[i + 1] && t[j] == s[j + 1];
        }
      }
      assert AllAtMost(t, s[0].score) by {
        forall i | 0 <= i < |t| ensures t[i].score <= s[0].score {
          assert t[i] == s[i + 1];
        }
      }
      InsertSorted(x, t);
      InsertAtMost(x, t, s[0].score);
      ConsSorted(s[0], Insert(x, t));
    }
  }

  /** The sort puts the highest scores first. */
  lemma {:induction false} SortDescSorted<T>(s: seq<Scored<T>>)
    ensures SortedDesc(SortDesc(s))
  {
    if s != [] {
      SortDescSorted(s[1..]);
      InsertSorted(s[0], SortDesc(s[1..]));
    }
  }

  /** Python's `s[:k]`. */
  function Limit<T>(s: seq<T>, k: int): (r: seq<T>)
    ensures |r| <= |s| && r == s[..|r|]
    ensures k >= 0 ==> |r| == if k < |s| then k else |s|
    ensures k < 0 ==> |r| == if |s| + k > 0 then |s| + k else 0
  {
    if k >= 0 then (if k < |s| then s[..k] else s)
    else if |s| + k > 0 then s[..|s| + k] else []
  }

  /** What a cut of a descending ranking keeps outscores or ties everything it drops. */
  lemma LimitKeepsBest<T>(s: seq<Scored<T>>, k: int, i: nat, j: nat)
    requires SortedDesc(s)
    requires i < |Limit(s, k)| <= j < |s|
    ensures Limit(s, k)[i].score >= s[j].score
  {}

  /** The sort only reorders: every item it puts out was put in. */
  lemma SortDescIn<T>(m: seq<Scored<T>>, i: nat)
    requires i < |SortDesc(m)|
    ensures SortDesc(m)[i] in m
  {
    var x := SortDesc(m)[i];
    SortDescStable(m, x.score);
    WithScoreHas(SortDesc(m), i);
    WithScoreIn(m, x.score, x);
  }

  lemma {:induction false} WithScoreHas<T>(s: seq<Scored<T>>, i: nat)
    requires i < |s|
    ensures s[i] in WithScore(s, s[i].score)
  {
    if i > 0 {
      WithScoreHas(s[1..], i - 1);
    }
  }

  lemma {:induction false} WithScoreIn<T>(s: seq<Scored<T>>, k: int, x: Scored<T>)
    requires x in WithScore(s, k)
    ensures x in s
  {
    if s != [] && x != s[0] {
      WithScoreIn(s[1..], k, x);
    }
  }

  /** The items of a ranking, scores dropped. */
  function Items<T>(s: seq<Scored<T>>): (r: seq<T>)
    ensures |r| == |s|
    ensures forall i :: 0 <= i < |s| ==> r[i] == s[i].item
  {
    if s == [] then [] else [s[0].item] + Items(s[1..])
  }

  /** `sorted(s, key=score, reverse=True)[:k]`. */
  function TopK<T>(s: seq<Scored<T>>, k: int): seq<Scored<T>>
  {
    Limit(SortDesc(s), k)
  }

  lemma {:induction false} WithScoreAppend<T>(a: seq<Scored<T>>, b: seq<Scored<T>>, v: int)
    ensures WithScore(a + b, v) == WithScore(a, v) + WithScore(b, v)
  {
    if a == [] {
      assert a + b == b;
    } else {
      var h := if a[0].score == v then [a[0]] else [];
      assert (a + b)[0] == a[0] && (a + b)[1..] == a[1..] + b;
      assert WithScore(a + b, v) == h + WithScore(a[1..] + b, v);
      WithScoreAppend(a[1..], b, v);
      assert WithScore(a, v) == h + WithScore(a[1..], v);
      assert h + (WithScore(a[1..], v) + WithScore(b, v)) == (h + WithScore(a[1..], v)) + WithScore(b, v);
    }
  }

  lemma {:induction false} WithScoreWitness<T>(s: seq<Scored<T>>, v: int) returns (j: nat)
    requires WithScore(s, v) != []
    ensures j < |s| && s[j].score == v
  {
    if s[0].score != v {
      j := WithScoreWitness(s[1..], v);
      j := j + 1;
    } else {
      j := 0;
    }
  }

  /** `r` is what a stable descending sort of `s` cut at `k` keeps:
      - Python's `[:k]` length;
      - highest first;
      - the items of each score are the first ones of that score in `s`, in order;
      - an item is dropped only when every kept item scores at least as high. */
  ghost predicate BestK<T>(r: seq<Scored<T>>, s: seq<Scored<T>>, k: int)
  {
    (k >= 0 ==> |r| == if k < |s| then k else |s|)
    && (k < 0 ==> |r| == if |s| + k > 0 then |s| + k else 0)
    && SortedDesc(r)
    && (forall v :: WithScore(r, v) <= WithScore(s, v))
    && (forall v, w :: |WithScore(r, v)| < |WithScore(s, v)| && WithScore(r, w) != [] ==> v <= w)
  }

  /** The items of each score that a cut of the sort keeps are the first ones of that score in the input;
      the ones it drops all lie past the cut. */
  lemma TopKSplit<T>(s: seq<Scored<T>>, k: int, v: int)
    ensures var n := |TopK(s, k)|;
      n <= |s| && WithScore(s, v) == WithScore(TopK(s, k), v) + WithScore(SortDesc(s)[n..], v)
  {
    var sorted := SortDesc(s);
    var r := Limit(sorted, k);
    assert sorted == r + sorted[|r|..];
    SortDescStable(s, v);
    WithScoreAppend(r, sorted[|r|..], v);
  }

  /** A score some of whose items are dropped is no higher than any score kept. */
  lemma TopKDropsLower<T>(s: seq<Scored<T>>, k: int, v: int, w: int)
    requires |WithScore(TopK(s, k), v)| < |WithScore(s, v)| && WithScore(TopK(s, k), w) != []
    ensures v <= w
  {
    var sorted := SortDesc(s);
    var r := TopK(s, k);
    var n := |r|;
    TopKSplit(s, k, v);
    SortDescSorted(s);
    var j := WithScoreWitness(sorted[n..], v);
    var i := WithScoreWitness(r, w);
    assert sorted[i] == r[i] && sorted[n + j] == sorted[n..][j];
  }

  /** Every item of the top `k` is one of the inputs. */
  lemma TopKIn<T>(s: seq<Scored<T>>, k: int)
    ensures forall x :: x in TopK(s, k) ==> x in s
  {
    var sorted := SortDesc(s);
    var r := TopK(s, k);
    forall x | x in r
      ensures x in s
    {
      var i :| 0 <= i < |r| && r[i] == x;
      assert x == sorted[i];
      SortDescIn(s, i);
    }
  }

  /** Each score's kept items are the first of that score in the input, all of them when nothing is cut. */
  lemma TopKStable<T>(s: seq<Scored<T>>, k: int)
    ensures forall v :: WithScore(TopK(s, k), v) <= WithScore(s, v)
    ensures k >= |s| ==> forall v :: WithScore(TopK(s, k), v) == WithScore(s, v)
  {
    var r := TopK(s, k);
    forall v
      ensures WithScore(r, v) <= WithScore(s, v)
      ensures k >= |s| ==> WithScore(r, v) == WithScore(s, v)
    {
      TopKSplit(s, k, v);
      if k >= |s| {
        assert SortDesc(s)[|r|..] == [];
      }
    }
  }

  /** The best `k` of the inputs, each one of them, and with nothing cut each score's items in input order. */
  lemma TopKSpec<T>(s: seq<Scored<T>>, k: int)
    ensures var r := TopK(s, k);
      BestK(r, s, k)
      && (forall x :: x in r ==> x in s)
      && (k >= |s| ==> forall v :: WithScore(r, v) == WithScore(s, v))
  {
    var r := TopK(s, k);
    SortDescSorted(s);
    TopKIn(s, k);
    TopKStable(s, k);
    forall v, w | |WithScore(r, v)| < |WithScore(s, v)| && WithScore(r, w) != []
      ensures v <= w
    {
      TopKDropsLower(s, k, v, w);
    }
  }
}
