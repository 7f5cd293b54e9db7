// Python's stable `sorted(..., reverse=True)` and the similarity search built on it.
module Ranking {
  /** Python's `xs[:k]`. */
  function Take<T>(xs: seq<T>, k: int): seq<T> {
    if k >= |xs| then xs else if k >= 0 then xs[..k] else if |xs| + k >= 0 then xs[..|xs| + k] else []
  }

  /** A slice from the start: a prefix; a negative bound counts from the end, and past the start leaves nothing. */
  lemma {:induction false} TakeIsPrefix<T>(xs: seq<T>, k: int)
    ensures Take(xs, k) <= xs
    ensures |Take(xs, k)| == if k > |xs| then |xs| else if k >= 0 then k else if k < -|xs| then 0 else |xs| + k
  {}

  function Insert<T>(x: T, ys: seq<T>, key: T -> real): seq<T> {
    if ys == [] || key(ys[0]) <= key(x) then [x] + ys else [ys[0]] + Insert(x, ys[1..], key)
  }

  /** `sorted(xs, key=key, reverse=True)`: descending, equal keys in their old order. */
  function SortDesc<T>(xs: seq<T>, key: T -> real): seq<T> {
    if xs == [] then [] else Insert(xs[0], SortDesc(xs[1..], key), key)
  }

  ghost predicate Descending<T>(xs: seq<T>, key: T -> real) {
    forall i, j :: 0 <= i < j < |xs| ==> key(xs[i]) >= key(xs[j])
  }

  /** The elements with a given key, in order. */
  function WithKey<T>(xs: seq<T>, key: T -> real, v: real): seq<T> {
    if xs == [] then [] else (if key(xs[0]) == v then [xs[0]] else []) + WithKey(xs[1..], key, v)
  }

  lemma {:induction false} InsertPermutes<T>(x: T, ys: seq<T>, key: T -> real)
    ensures multiset(Insert(x, ys, key)) == multiset{x} + multiset(ys)
  {
    if ys != [] && !(key(ys[0]) <= key(x)) {
      InsertPermutes(x, ys[1..], key);
      assert ys == [ys[0]] + ys[1..];
    }
  }

  lemma {:induction false} InsertBounded<T>(x: T, ys: seq<T>, key: T -> real, v: real)
    requires key(x) <= v && forall i :: 0 <= i < |ys| ==> key(ys[i]) <= v
    ensures forall i :: 0 <= i < |Insert(x, ys, key)| ==> key(Insert(x, ys, key)[i]) <= v
  {
    if ys != [] && !(key(ys[0]) <= key(x)) { InsertBounded(x, ys[1..], key, v); }
  }

  lemma {:induction false} InsertSorts<T>(x: T, ys: seq<T>, key: T -> real)
    requires Descending(ys, key)
    ensures Descending(Insert(x, ys, key), key)
  {
    if ys != [] && !(key(ys[0]) <= key(x)) {
      InsertSorts(x, ys[1..], key);
      InsertBounded(x, ys[1..], key, key(ys[0]));
    }
  }

  lemma {:induction false} WithKeyCons<T>(x: T, ys: seq<T>, key: T -> real, v: real)
    ensures WithKey([x] + ys, key, v) == (if key(x) == v then [x] else []) + WithKey(ys, key, v)
  {
    assert ([x] + ys)[1..] == ys;
  }

  lemma {:induction false} NoneWithKey<T>(ys: seq<T>, key: T -> real, v: real)
    requires forall i :: 0 <= i < |ys| ==> key(ys[i]) != v
    ensures WithKey(ys, key, v) == []
  {
    if ys != [] { NoneWithKey(ys[1..], key, v); }
  }

  lemma {:induction false} InsertUnfolds<T>(x: T, ys: seq<T>, key: T -> real)
    ensures Insert(x, ys, key)
      == if ys == [] || key(ys[0]) <= key(x) then [x] + ys else [ys[0]] + Insert(x, ys[1..], key)
  {}

  lemma {:induction false} DescendingTail<T>(ys: seq<T>, key: T -> real)
    requires ys != [] && Descending(ys, key)
    ensures Descending(ys[1..], key)
  {}

  lemma {:induction false} InsertStable<T>(x: T, ys: seq<T>, key: T -> real, v: real)
    requires Descending(ys, key)
    ensures WithKey(Insert(x, ys, key), key, v) == (if key(x) == v then [x] else []) + WithKey(ys, key, v)
  {
    hide *;
    InsertUnfolds(x, ys, key);
    if ys == [] || key(ys[0]) <= key(x) {
      WithKeyCons(x, ys, key, v);
    } else {
      var rest := Insert(x, ys[1..], key);
      DescendingTail(ys, key);
      InsertStable(x, ys[1..], key, v);
      WithKeyCons(ys[0], rest, key, v);
      WithKeyCons(ys[0], ys[1..], key, v);
      assert ys == [ys[0]] + ys[1..];
    }
  }

  /** The sort is a descending permutation that keeps the order of equal keys. */
  lemma {:induction false} SortDescSorts<T>(xs: seq<T>, key: T -> real)
    ensures Descending(SortDesc(xs, key), key)
    ensures multiset(SortDesc(xs, key)) == multiset(xs)
    ensures forall v :: WithKey(SortDesc(xs, key), key, v) == WithKey(xs, key, v)
  {
    if xs != [] {
      SortDescSorts(xs[1..], key);
      InsertSorts(xs[0], SortDesc(xs[1..], key), key);
      InsertPermutes(xs[0], SortDesc(xs[1..], key), key);
      assert xs == [xs[0]] + xs[1..];
      forall v ensures WithKey(SortDesc(xs, key), key, v) == WithKey(xs, key, v) {
        InsertStable(xs[0], SortDesc(xs[1..], key), key, v);
      }
    }
  }

  /** Sorting what is already descending changes nothing. */
  lemma {:induction false} SortDescIdentity<T>(xs: seq<T>, key: T -> real)
    requires Descending(xs, key)
    ensures SortDesc(xs, key) == xs
  {
    if xs != [] {
      SortDescIdentity(xs[1..], key);
      if |xs| > 1 { assert xs[1..][0] == xs[1]; }
    }
  }

  // ---- Similarity search ----

  /** A candidate id with the similarity of its embedding to the query. */
  type Scored = (string, real)

  function Score(c: Scored): real { c.1 }

  function AtLeast(xs: seq<Scored>, min: real): seq<Scored> {
    if xs == [] then [] else (if Score(xs[0]) >= min then [xs[0]] else []) + AtLeast(xs[1..], min)
  }

  function CosineSearch(candidates: seq<Scored>, topK: int, minScore: real): seq<Scored> {
    AtLeast(Take(SortDesc(candidates, Score), topK), minScore)
  }

  /** On a descending list the filter cuts off a tail. */
  lemma {:induction false} FilterIsPrefix(xs: seq<Scored>, min: real)
    requires Descending(xs, Score)
    ensures var f := AtLeast(xs, min);
      |f| <= |xs| && f == xs[..|f|] && forall i :: |f| <= i < |xs| ==> Score(xs[i]) < min
    ensures forall i :: 0 <= i < |AtLeast(xs, min)| ==> Score(xs[i]) >= min
  {
    if xs != [] {
      FilterIsPrefix(xs[1..], min);
      var f := AtLeast(xs[1..], min);
      if Score(xs[0]) < min {
        assert forall i :: 0 < i < |xs| ==> Score(xs[i]) <= Score(xs[0]);
        assert |xs| > 1 ==> Score(xs[1..][0]) < min;
        assert f == [];
      } else {
        assert AtLeast(xs, min) == [xs[0]] + f == xs[..1 + |f|];
        forall i | 1 + |f| <= i < |xs| ensures Score(xs[i]) < min { assert xs[i] == xs[1..][i - 1]; }
        forall i | 0 <= i < 1 + |f| ensures Score(xs[i]) >= min { if i > 0 { assert xs[i] == xs[1..][i - 1]; } }
      }
    }
  }

  /** Slicing then filtering is filtering then slicing. */
  lemma {:induction false} SliceFilterCommute(xs: seq<Scored>, k: nat, min: real)
    requires Descending(xs, Score)
    ensures AtLeast(Take(xs, k), min) == Take(AtLeast(xs, min), k)
  {
    var t := Take(xs, k);
    FilterIsPrefix(xs, min);
    FilterIsPrefix(t, min);
    hide AtLeast;
    hide Descending;
    PrefixesAgree(xs, AtLeast(xs, min), AtLeast(t, min), k, min);
  }

  /** Two cuts of one list at the threshold, one of them after slicing. */
  lemma {:induction false} PrefixesAgree(xs: seq<Scored>, f: seq<Scored>, g: seq<Scored>, k: nat, min: real)
    requires |f| <= |xs| && f == xs[..|f|] && (forall i :: 0 <= i < |f| ==> Score(f[i]) >= min)
    requires forall i :: |f| <= i < |xs| ==> Score(xs[i]) < min
    requires |g| <= |Take(xs, k)| && g == Take(xs, k)[..|g|] && (forall i :: 0 <= i < |g| ==> Score(g[i]) >= min)
    requires forall i :: |g| <= i < |Take(xs, k)| ==> Score(Take(xs, k)[i]) < min
    ensures g == Take(f, k)
  {
    hide Score;
    var t, cut := Take(xs, k), Take(f, k);
    if g != [] {
      var i := |g| - 1;
      assert g[i] == xs[i];
      BeforeCut(xs, |f|, i, min);
    }
    if cut != [] {
      var i := |cut| - 1;
      assert f[i] == xs[i] == t[i];
      BeforeCut(t, |g|, i, min);
    }
  }

  lemma {:induction false} BeforeCut(xs: seq<Scored>, m: nat, i: nat, min: real)
    requires i < |xs| && Score(xs[i]) >= min && forall j :: m <= j < |xs| ==> Score(xs[j]) < min
    ensures i < m
  {}

  /** What the search returns, as a prefix of the sorted candidates. */
  lemma {:induction false} SearchIsPrefix(candidates: seq<Scored>, topK: nat, minScore: real)
    ensures var sorted, r := SortDesc(candidates, Score), CosineSearch(candidates, topK, minScore);
      && |r| <= |sorted| && |r| <= topK && r == sorted[..|r|]
      && (forall i :: 0 <= i < |r| ==> Score(r[i]) >= minScore)
      && (|r| < topK ==> forall i :: |r| <= i < |sorted| ==> Score(sorted[i]) < minScore)
  {
    hide SortDesc;
    hide AtLeast;
    hide Descending;
    hide Score;
    SortDescSorts(candidates, Score);
    SliceFilterCommute(SortDesc(candidates, Score), topK, minScore);
    FilterIsPrefix(SortDesc(candidates, Score), minScore);
  }

  /** The search is an optimal top-k: what it returns are candidates at or above the threshold, best
      first, at most k; and a candidate at or above the threshold is left out only when k better ones
      (or equal ones) are returned. */
  lemma {:induction false} SearchIsOptimal(candidates: seq<Scored>, topK: nat, minScore: real)
    ensures var r := CosineSearch(candidates, topK, minScore);
      && |r| <= topK
      && multiset(r) <= multiset(candidates)
      && Descending(r, Score)
      && (forall i :: 0 <= i < |r| ==> Score(r[i]) >= minScore)
      && (forall c :: c in multiset(candidates) - multiset(r) && Score(c) >= minScore ==>
            |r| == topK && forall i :: 0 <= i < |r| ==> Score(r[i]) >= Score(c))
  {
    var sorted := SortDesc(candidates, Score);
    var r := CosineSearch(candidates, topK, minScore);
    SortDescSorts(candidates, Score);
    SearchIsPrefix(candidates, topK, minScore);
    hide SortDesc;
    hide CosineSearch;
    PrefixOf(sorted, |r|);
    forall c | c in multiset(candidates) - multiset(r) && Score(c) >= minScore
      ensures |r| == topK && forall i :: 0 <= i < |r| ==> Score(r[i]) >= Score(c)
    {
      var j :| |r| <= j < |sorted| && sorted[j] == c;
    }
  }

  lemma {:induction false} PrefixOf(xs: seq<Scored>, m: nat)
    requires m <= |xs|
    ensures multiset(xs[..m]) <= multiset(xs)
    ensures forall c :: c in multiset(xs) - multiset(xs[..m]) ==> exists j :: m <= j < |xs| && xs[j] == c
  {
    assert xs == xs[..m] + xs[m..];
    assert multiset(xs) - multiset(xs[..m]) == multiset(xs[m..]);
    forall c | c in multiset(xs) - multiset(xs[..m]) ensures exists j :: m <= j < |xs| && xs[j] == c {
      assert c in xs[m..];
      var k :| 0 <= k < |xs[m..]| && xs[m..][k] == c;
      assert xs[m + k] == c;
    }
  }
}
