// The context window: passive nodes, then matched active nodes, then neighbours one link away.
module Retriever {
  import opened Dicts
  import opened Graph
  import opened Ranking

  // ---- The neighbour table: a dict from ids to scores, as entries in insertion order ----

  /** `neighbor_scores.get(id, 0.0)`. */
  function ValueOf(d: seq<Scored>, id: string): real {
    var k := IndexOf(d, id); if k < |d| then d[k].1 else 0.0
  }

  /** One touch of a neighbour: only a stronger score replaces what is there. */
  function Touch(d: seq<Scored>, x: Scored): seq<Scored> {
    var k := IndexOf(d, x.0);
    if ValueOf(d, x.0) < x.1 then (if k < |d| then d[k := x] else d + [x]) else d
  }

  function Fold(touches: seq<Scored>): seq<Scored> {
    if touches == [] then [] else Touch(Fold(touches[..|touches| - 1]), touches[|touches| - 1])
  }

  /** v is the greatest score with which the neighbour was touched. */
  ghost predicate IsMax(touches: seq<Scored>, id: string, v: real) {
    (id, v) in touches && forall x :: x in touches && x.0 == id ==> x.1 <= v
  }

  ghost predicate TableRight(d: seq<Scored>, touches: seq<Scored>) {
    && DistinctKeys(d)
    && (forall i :: 0 <= i < |d| ==> d[i].1 > 0.0 && IsMax(touches, d[i].0, d[i].1))
    && (forall x :: x in touches && x.1 > 0.0 ==> IndexOf(d, x.0) < |d|)
  }

  lemma {:induction false} MaxKept(touches: seq<Scored>, x: Scored, id: string, v: real)
    requires IsMax(touches, id, v) && (x.0 == id ==> x.1 <= v)
    ensures IsMax(touches + [x], id, v)
  {}

  lemma {:induction false} MaxRaised(touches: seq<Scored>, x: Scored)
    requires forall y :: y in touches && y.0 == x.0 ==> y.1 <= x.1
    ensures IsMax(touches + [x], x.0, x.1)
  {
    assert (touches + [x])[|touches|] == x;
  }

  lemma {:induction false} TouchMaxima(d: seq<Scored>, touches: seq<Scored>, x: Scored)
    requires TableRight(d, touches)
    ensures forall i :: 0 <= i < |Touch(d, x)| ==>
      Touch(d, x)[i].1 > 0.0 && IsMax(touches + [x], Touch(d, x)[i].0, Touch(d, x)[i].1)
  {
    var e := Touch(d, x);
    var k := IndexOf(d, x.0);
    if k < |d| { assert IsMax(touches, x.0, d[k].1); }
    if e != d { MaxRaised(touches, x); }
    forall i | 0 <= i < |d| && (i != k || e == d) ensures e[i] == d[i] && IsMax(touches + [x], d[i].0, d[i].1) {
      MaxKept(touches, x, d[i].0, d[i].1);
    }
  }

  lemma {:induction false} TouchKeys(d: seq<Scored>, x: Scored)
    requires DistinctKeys(d)
    ensures DistinctKeys(Touch(d, x))
    ensures forall i :: 0 <= i < |d| ==> Touch(d, x)[i].0 == d[i].0
    ensures x.1 > 0.0 ==> exists i :: 0 <= i < |Touch(d, x)| && Touch(d, x)[i].0 == x.0
  {
    var k := IndexOf(d, x.0);
    assert x.1 > 0.0 ==> k < |Touch(d, x)| && Touch(d, x)[k].0 == x.0;
  }

  lemma {:induction false} HasPosition(d: seq<Scored>, i: nat)
    requires i < |d|
    ensures IndexOf(d, d[i].0) < |d|
  {}

  lemma {:induction false} TouchRight(d: seq<Scored>, touches: seq<Scored>, x: Scored)
    requires TableRight(d, touches)
    ensures TableRight(Touch(d, x), touches + [x])
  {
    var e, more := Touch(d, x), touches + [x];
    TouchMaxima(d, touches, x);
    TouchKeys(d, x);
    hide IsMax;
    hide Touch;
    forall y | y in more && y.1 > 0.0 ensures IndexOf(e, y.0) < |e| {
      if y.0 == x.0 {
        var i :| 0 <= i < |e| && e[i].0 == x.0;
        HasPosition(e, i);
      } else {
        assert y in touches;
        HasPosition(e, IndexOf(d, y.0));
      }
    }
  }

  /** The table holds each neighbour that was touched with a positive score, once, with its greatest score. */
  lemma {:induction false} TableHoldsMaxima(touches: seq<Scored>)
    ensures TableRight(Fold(touches), touches)
  {
    if touches != [] {
      var init := touches[..|touches| - 1];
      TableHoldsMaxima(init);
      TouchRight(Fold(init), init, touches[|touches| - 1]);
      assert touches == init + [touches[|touches| - 1]];
    }
  }

  lemma {:induction false} FoldAbove(touches: seq<Scored>, v: real)
    requires forall i :: 0 <= i < |touches| ==> Score(touches[i]) >= v
    ensures forall i :: 0 <= i < |Fold(touches)| ==> Score(Fold(touches)[i]) >= v
  {
    TableHoldsMaxima(touches);
    var d := Fold(touches);
    hide Fold;
    forall i | 0 <= i < |d| ensures Score(d[i]) >= v {
      assert IsMax(touches, d[i].0, d[i].1);
      var j :| 0 <= j < |touches| && touches[j] == (d[i].0, d[i].1);
      assert Score(touches[j]) >= v;
    }
  }

  /** A touch weaker than everything in the table can only be appended. */
  lemma {:induction false} WeakTouch(d: seq<Scored>, x: Scored)
    requires Descending(d, Score) && forall i :: 0 <= i < |d| ==> Score(d[i]) >= Score(x)
    ensures d <= Touch(d, x) && Descending(Touch(d, x), Score)
  {}

  /** When the touches come best first, the first touch of a neighbour wins, the table is already in
      descending order, and sorting it changes nothing. */
  lemma {:induction false} FirstTouchWins(touches: seq<Scored>)
    requires Descending(touches, Score)
    ensures Descending(Fold(touches), Score) && SortDesc(Fold(touches), Score) == Fold(touches)
    ensures touches != [] ==> Fold(touches[..|touches| - 1]) <= Fold(touches)
  {
    if touches != [] {
      var init, x := touches[..|touches| - 1], touches[|touches| - 1];
      FirstTouchWins(init);
      FoldAbove(init, Score(x));
      WeakTouch(Fold(init), x);
      hide Touch;
      assert Fold(touches) == Touch(Fold(init), x);
    }
    hide Fold;
    SortDescIdentity(Fold(touches), Score);
  }

  // ---- The touches of a search result ----

  function LinksOf(byId: Table, id: string): seq<string> { if id in byId then byId[id].links else [] }

  function LinkTouches(links: seq<string>, primary: set<string>, base: real): seq<Scored> {
    if links == [] then []
    else
      var last := links[|links| - 1];
      LinkTouches(links[..|links| - 1], primary, base) + (if last in primary then [] else [(last, base)])
  }

  /** A neighbour's relevance: the similarity of the match it hangs on, scaled down. */
  function Decayed(m: Scored, decay: real): real { m.1 * decay }

  function Touches(ranked: seq<Scored>, byId: Table, primary: set<string>, decay: real): seq<Scored> {
    if ranked == [] then []
    else
      var m := ranked[|ranked| - 1];
      Touches(ranked[..|ranked| - 1], byId, primary, decay)
        + LinkTouches(LinksOf(byId, m.0), primary, Decayed(m, decay))
  }

  lemma {:induction false} LinkTouchesAre(links: seq<string>, primary: set<string>, base: real)
    ensures forall x :: x in LinkTouches(links, primary, base) <==> x.0 in links && x.0 !in primary && x.1 == base
  {
    if links != [] {
      var init := links[..|links| - 1];
      LinkTouchesAre(init, primary, base);
      assert links == init + [links[|links| - 1]];
    }
  }

  /** A touch comes from a link of a matched node to a node outside the primary window. */
  lemma {:induction false} TouchesAre(ranked: seq<Scored>, byId: Table, primary: set<string>, decay: real)
    ensures forall x :: x in Touches(ranked, byId, primary, decay) <==>
      x.0 !in primary && exists m :: m in ranked && x.0 in LinksOf(byId, m.0) && x.1 == Decayed(m, decay)
  {
    if ranked != [] {
      var init, m := ranked[..|ranked| - 1], ranked[|ranked| - 1];
      TouchesAre(init, byId, primary, decay);
      LinkTouchesAre(LinksOf(byId, m.0), primary, Decayed(m, decay));
      assert ranked == init + [m];
    }
  }

  lemma {:induction false} DecayedOrder(x: Scored, y: Scored, decay: real)
    requires Score(x) >= Score(y) && decay > 0.0
    ensures Decayed(x, decay) >= Decayed(y, decay)
  {}

  lemma {:induction false} DescendingAppend(a: seq<Scored>, b: seq<Scored>)
    requires Descending(a, Score) && Descending(b, Score)
    requires forall x, y :: x in a && y in b ==> Score(x) >= Score(y)
    ensures Descending(a + b, Score)
  {
    forall i, j | 0 <= i < j < |a + b| ensures Score((a + b)[i]) >= Score((a + b)[j]) {
      if i < |a| <= j { assert a[i] in a && b[j - |a|] in b; }
    }
  }

  lemma {:induction false} LinkTouchesDescend(links: seq<string>, primary: set<string>, base: real)
    ensures Descending(LinkTouches(links, primary, base), Score)
  {
    LinkTouchesAre(links, primary, base);
    var b := LinkTouches(links, primary, base);
    hide LinkTouches;
    forall i, j | 0 <= i < j < |b| ensures Score(b[i]) >= Score(b[j]) { assert b[i] in b && b[j] in b; }
  }

  lemma {:induction false} TouchesAbove(ranked: seq<Scored>, byId: Table, primary: set<string>, decay: real, v: Scored)
    requires decay > 0.0 && forall i :: 0 <= i < |ranked| ==> Score(ranked[i]) >= Score(v)
    ensures forall x :: x in Touches(ranked, byId, primary, decay) ==> Score(x) >= Decayed(v, decay)
  {
    TouchesAre(ranked, byId, primary, decay);
    var a := Touches(ranked, byId, primary, decay);
    hide Touches;
    hide Decayed;
    forall x | x in a ensures Score(x) >= Decayed(v, decay) {
      var m :| m in ranked && x.0 in LinksOf(byId, m.0) && x.1 == Decayed(m, decay);
      var p :| 0 <= p < |ranked| && ranked[p] == m;
      assert Score(ranked[p]) >= Score(v);
      DecayedOrder(m, v, decay);
    }
  }

  /** Matches come in descending order, so the touches do. */
  lemma {:induction false} TouchesDescend(ranked: seq<Scored>, byId: Table, primary: set<string>, decay: real)
    requires Descending(ranked, Score) && decay > 0.0
    ensures Descending(Touches(ranked, byId, primary, decay), Score)
  {
    if ranked != [] {
      var init, m := ranked[..|ranked| - 1], ranked[|ranked| - 1];
      var links := LinksOf(byId, m.0);
      TouchesDescend(init, byId, primary, decay);
      TouchesAbove(init, byId, primary, decay, m);
      LinkTouchesDescend(links, primary, Decayed(m, decay));
      LinkTouchesAre(links, primary, Decayed(m, decay));
      hide LinkTouches;
      hide LinksOf;
      hide Decayed;
      DescendingAppend(Touches(init, byId, primary, decay), LinkTouches(links, primary, Decayed(m, decay)));
    }
  }

  lemma {:induction false} TouchesSnoc(ranked: seq<Scored>, m: Scored, byId: Table, primary: set<string>, decay: real)
    ensures Touches(ranked + [m], byId, primary, decay)
      == Touches(ranked, byId, primary, decay) + LinkTouches(LinksOf(byId, m.0), primary, Decayed(m, decay))
  {
    assert (ranked + [m])[..|ranked|] == ranked;
  }

  /** A match links to a node outside the primary window. */
  ghost predicate Neighbours(ranked: seq<Scored>, byId: Table, primary: set<string>, m: Scored, id: string) {
    m in ranked && m.0 in byId && id in byId[m.0].links && id !in primary
  }

  ghost predicate Scores(m: Scored, decay: real, v: real) { v == m.1 * decay }

  ghost predicate FromMatches(d: seq<Scored>, ranked: seq<Scored>, byId: Table, primary: set<string>, decay: real) {
    forall x :: x in d ==>
      x.1 > 0.0 && exists m :: Neighbours(ranked, byId, primary, m, x.0) && Scores(m, decay, x.1)
  }

  ghost predicate AboveMatches(d: seq<Scored>, ranked: seq<Scored>, byId: Table, primary: set<string>, decay: real) {
    forall m, id, v :: Neighbours(ranked, byId, primary, m, id) && Scores(m, decay, v) && v > 0.0 ==>
      exists w :: (id, w) in d && w >= v
  }

  /** Each neighbour of a match once, with the greatest of its matches' scores times the decay, and no other. */
  ghost predicate BestScores(d: seq<Scored>, ranked: seq<Scored>, byId: Table, primary: set<string>, decay: real) {
    && DistinctKeys(d)
    && FromMatches(d, ranked, byId, primary, decay)
    && AboveMatches(d, ranked, byId, primary, decay)
  }

  ghost predicate TouchesOf(touches: seq<Scored>, ranked: seq<Scored>, byId: Table, primary: set<string>, decay: real) {
    forall x :: x in touches <==>
      x.0 !in primary && exists m :: m in ranked && x.0 in LinksOf(byId, m.0) && x.1 == Decayed(m, decay)
  }

  lemma {:induction false} DecayScores(m: Scored, decay: real, v: real)
    ensures Scores(m, decay, v) <==> v == Decayed(m, decay)
  {}

  lemma {:induction false} MatchOf(d: seq<Scored>, touches: seq<Scored>, ranked: seq<Scored>, byId: Table,
                                   primary: set<string>, decay: real, x: Scored)
    returns (m: Scored)
    requires TableRight(d, touches) && TouchesOf(touches, ranked, byId, primary, decay) && x in d
    ensures x.1 > 0.0 && Neighbours(ranked, byId, primary, m, x.0) && Scores(m, decay, x.1)
  {
    hide Decayed;
    hide Scores;
    assert IsMax(touches, x.0, x.1);
    m :| m in ranked && x.0 in LinksOf(byId, m.0) && x.1 == Decayed(m, decay);
    DecayScores(m, decay, x.1);
  }

  lemma {:induction false} ScoreOf(d: seq<Scored>, touches: seq<Scored>, ranked: seq<Scored>, byId: Table,
                                   primary: set<string>, decay: real, m: Scored, id: string, v: real)
    returns (w: real)
    requires TableRight(d, touches) && TouchesOf(touches, ranked, byId, primary, decay)
    requires Neighbours(ranked, byId, primary, m, id) && Scores(m, decay, v) && v > 0.0
    ensures (id, w) in d && w >= v
  {
    DecayScores(m, decay, v);
    hide Decayed;
    hide Scores;
    var x: Scored := (id, v);
    assert x.0 in LinksOf(byId, m.0);
    assert x in touches;
    var k := IndexOf(d, id);
    w := d[k].1;
    assert d[k] == (id, w) && IsMax(touches, id, w);
  }

  lemma {:induction false} TableFromMatches(d: seq<Scored>, touches: seq<Scored>, ranked: seq<Scored>, byId: Table,
                                            primary: set<string>, decay: real)
    requires TableRight(d, touches) && TouchesOf(touches, ranked, byId, primary, decay)
    ensures FromMatches(d, ranked, byId, primary, decay)
  {
    hide Scores;
    hide TouchesOf;
    hide TableRight;
    hide Neighbours;
    forall x | x in d
      ensures x.1 > 0.0 && exists m :: Neighbours(ranked, byId, primary, m, x.0) && Scores(m, decay, x.1)
    {
      var m := MatchOf(d, touches, ranked, byId, primary, decay, x);
    }
  }

  lemma {:induction false} TableAboveMatches(d: seq<Scored>, touches: seq<Scored>, ranked: seq<Scored>, byId: Table,
                                             primary: set<string>, decay: real)
    requires TableRight(d, touches) && TouchesOf(touches, ranked, byId, primary, decay)
    ensures AboveMatches(d, ranked, byId, primary, decay)
  {
    hide Scores;
    hide TouchesOf;
    hide TableRight;
    hide Neighbours;
    forall m, id, v | Neighbours(ranked, byId, primary, m, id) && Scores(m, decay, v) && v > 0.0
      ensures exists w :: (id, w) in d && w >= v
    {
      var w := ScoreOf(d, touches, ranked, byId, primary, decay, m, id, v);
    }
  }

  lemma {:induction false} TouchesOfAll(ranked: seq<Scored>, byId: Table, primary: set<string>, decay: real)
    ensures TouchesOf(Touches(ranked, byId, primary, decay), ranked, byId, primary, decay)
  {
    TouchesAre(ranked, byId, primary, decay);
    hide Touches;
    hide Decayed;
    hide LinksOf;
  }

  lemma {:induction false} KeysDistinct(touches: seq<Scored>)
    ensures DistinctKeys(Fold(touches))
  {
    TableHoldsMaxima(touches);
    hide Fold;
    hide IsMax;
  }

  lemma {:induction false} TableIsBestScores(ranked: seq<Scored>, byId: Table, primary: set<string>, decay: real)
    ensures BestScores(Fold(Touches(ranked, byId, primary, decay)), ranked, byId, primary, decay)
  {
    var touches := Touches(ranked, byId, primary, decay);
    var d := Fold(touches);
    hide Fold;
    hide Touches;
    hide TouchesOf;
    hide TableRight;
    hide DistinctKeys;
    hide FromMatches;
    hide AboveMatches;
    TableHoldsMaxima(touches);
    KeysDistinct(touches);
    TouchesOfAll(ranked, byId, primary, decay);
    TableFromMatches(d, touches, ranked, byId, primary, decay);
    TableAboveMatches(d, touches, ranked, byId, primary, decay);
  }

  lemma {:induction false} NoTouches(byId: Table, primary: set<string>, decay: real)
    ensures Touches([], byId, primary, decay) == [] && Fold([]) == []
  {}

  /** The nested loops over matches and their links. */
  method NeighbourScores(ranked: seq<Scored>, byId: Table, primary: set<string>, decay: real)
    returns (d: seq<Scored>)
    ensures d == Fold(Touches(ranked, byId, primary, decay))
    ensures BestScores(d, ranked, byId, primary, decay)
  {
    hide *;
    d := [];
    NoTouches(byId, primary, decay);
    ghost var matches: seq<Scored>, all: seq<Scored> := [], [];
    for i := 0 to |ranked|
      invariant matches == ranked[..i] && all == Touches(matches, byId, primary, decay) && d == Fold(all)
    {
      var base := Decayed(ranked[i], decay);
      var links := LinksOf(byId, ranked[i].0);
      TouchesSnoc(matches, ranked[i], byId, primary, decay);
      matches := matches + [ranked[i]];
      d := TouchLinks(d, all, links, primary, base);
      all := all + LinkTouches(links, primary, base);
    }
    assert matches == ranked;
    TableIsBestScores(ranked, byId, primary, decay);
  }

  method TouchLinks(d: seq<Scored>, ghost all: seq<Scored>, links: seq<string>, primary: set<string>, base: real)
    returns (d': seq<Scored>)
    requires d == Fold(all)
    ensures d' == Fold(all + LinkTouches(links, primary, base))
  {
    d' := d;
    ghost var done: seq<string>, now: seq<Scored> := [], all;
    assert all + [] == all;
    for j := 0 to |links|
      invariant done == links[..j] && now == all + LinkTouches(done, primary, base) && d' == Fold(now)
    {
      assert (done + [links[j]])[..j] == done;
      done := done + [links[j]];
      if links[j] !in primary {
        ghost var next := now + [(links[j], base)];
        assert next[..|now|] == now;
        d' := Touch(d', (links[j], base));
        now := next;
      }
      assert now == all + LinkTouches(done, primary, base);
    }
    assert done == links;
  }
}
