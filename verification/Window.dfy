// `get_context_window`: which nodes ride along with a prompt.
module Window {
  import opened Dicts
  import opened Graph
  import opened Ranking
  import opened NodeTables
  import opened Retriever

  function IdsOf(ns: seq<MemoryNode>): set<string> { set n | n in ns :: n.id }

  function Pairs(ns: seq<MemoryNode>, sim: string -> real): (r: seq<Scored>)
    ensures |r| == |ns| && forall i :: 0 <= i < |ns| ==> r[i] == (ns[i].id, sim(ns[i].id))
  {
    if ns == [] then [] else [(ns[0].id, sim(ns[0].id))] + Pairs(ns[1..], sim)
  }

  function Keys(d: seq<Scored>): (r: seq<string>)
    ensures |r| == |d| && forall i :: 0 <= i < |d| ==> r[i] == d[i].0
  {
    if d == [] then [] else [d[0].0] + Keys(d[1..])
  }

  function Outside(taken: set<string>): MemoryNode -> bool { (n: MemoryNode) => n.id !in taken }

  /** The active rows that are not already in the window. */
  function CandidateRow(sid: string, cross: bool, taken: set<string>): MemoryNode -> bool {
    AndAlso(ActiveRow(sid, cross), Outside(taken))
  }

  /** A listing without the children. */
  function ParentsOnly(ns: seq<MemoryNode>): seq<MemoryNode> { Filter(ns, (n: MemoryNode) => n.parent.None?) }

  /** Rows of the table, no id twice. */
  ghost predicate RowsOnce(t: Table, ns: seq<MemoryNode>) {
    && (forall i :: 0 <= i < |ns| ==> ns[i].id in t && t[ns[i].id] == ns[i])
    && (forall i, j :: 0 <= i < j < |ns| ==> ns[i].id != ns[j].id)
  }

  /** What the window may show: rows once, no children, and only the session's own when scoped. */
  ghost predicate Presentable(t: Table, sid: string, cross: bool, ns: seq<MemoryNode>) {
    && RowsOnce(t, ns)
    && (forall i :: 0 <= i < |ns| ==> ns[i].parent.None? && InScope(ns[i], sid, cross))
  }

  ghost predicate Apart(a: seq<MemoryNode>, b: seq<MemoryNode>) {
    forall i, j :: 0 <= i < |a| && 0 <= j < |b| ==> a[i].id != b[j].id
  }

  lemma {:induction false} PresentableAppend(t: Table, sid: string, cross: bool, a: seq<MemoryNode>, b: seq<MemoryNode>)
    requires Presentable(t, sid, cross, a) && Presentable(t, sid, cross, b) && Apart(a, b)
    ensures Presentable(t, sid, cross, a + b)
  {}

  /** The candidates outside `taken`, in whatever order the store lists them. */
  method Candidates(store: NodeStore, sid: string, cross: bool, taken: set<string>)
    returns (cands: seq<MemoryNode>)
    requires Keyed(store.rows)
    ensures Lists(cands, store.rows, CandidateRow(sid, cross, taken))
  {
    var all := store.ListActiveWithEmbeddings(sid, cross);
    FilterLists(all, store.rows, ActiveRow(sid, cross), Outside(taken));
    cands := FilterNodes(all, Outside(taken));
  }

  /** What the matching step adds: candidates, each once, at most `room`. */
  ghost predicate Matches(t: Table, sid: string, cross: bool, taken: set<string>, room: int, ns: seq<MemoryNode>) {
    && |ns| <= room && Presentable(t, sid, cross, ns)
    && forall i :: 0 <= i < |ns| ==> ns[i].id !in taken
  }

  lemma {:induction false} CandidateFacts(sid: string, cross: bool, taken: set<string>, n: MemoryNode)
    ensures CandidateRow(sid, cross, taken)(n) ==> n.parent.None? && InScope(n, sid, cross) && n.id !in taken
  {
    assert CandidateRow(sid, cross, taken)(n) == (ActiveRow(sid, cross)(n) && Outside(taken)(n));
  }

  lemma {:induction false} ListingMatches(t: Table, sid: string, cross: bool, taken: set<string>,
                                          cands: seq<MemoryNode>, room: int)
    requires Keyed(t) && Lists(cands, t, CandidateRow(sid, cross, taken)) && room >= 0
    ensures Matches(t, sid, cross, taken, room, Take(cands, room))
  {
    ListingIds(cands, t, CandidateRow(sid, cross, taken));
    hide Lists;
    forall i | 0 <= i < |cands|
      ensures cands[i].parent.None? && InScope(cands[i], sid, cross) && cands[i].id !in taken
    {
      CandidateFacts(sid, cross, taken, cands[i]);
    }
  }

  lemma {:induction false} HitIsCandidate(cands: seq<MemoryNode>, sim: string -> real, r: seq<Scored>, i: nat)
    returns (k: nat)
    requires multiset(r) <= multiset(Pairs(cands, sim)) && i < |r|
    ensures k < |cands| && r[i] == Pairs(cands, sim)[k] && cands[k].id == r[i].0
  {
    var pairs := Pairs(cands, sim);
    assert r[i] in multiset(r) && r[i] in pairs;
    k :| 0 <= k < |pairs| && pairs[k] == r[i];
  }

  lemma {:induction false} HitsDistinct(cands: seq<MemoryNode>, sim: string -> real, r: seq<Scored>)
    requires forall i, j :: 0 <= i < j < |cands| ==> cands[i].id != cands[j].id
    requires multiset(r) <= multiset(Pairs(cands, sim))
    ensures forall i, j :: 0 <= i < j < |r| ==> r[i].0 != r[j].0
  {
    var pairs := Pairs(cands, sim);
    forall i, j | 0 <= i < j < |r| ensures r[i].0 != r[j].0 {
      var a := HitIsCandidate(cands, sim, r, i);
      var b := HitIsCandidate(cands, sim, r, j);
      TwiceInPairs(pairs, r, i, j, a, b);
    }
  }

  lemma {:induction false} TwiceInPairs(pairs: seq<Scored>, r: seq<Scored>, i: nat, j: nat, a: nat, b: nat)
    requires i < j < |r| && a < |pairs| && b < |pairs| && pairs[a] == r[i] && pairs[b] == r[j]
    requires multiset(r) <= multiset(pairs)
    requires forall x, y :: 0 <= x < y < |pairs| ==> pairs[x].0 != pairs[y].0
    ensures r[i].0 != r[j].0
  {
    if a == b {
      Twice(r, i, j);
      NoneTwice(pairs, a);
    }
  }

  lemma {:induction false} NoneTwice(pairs: seq<Scored>, a: nat)
    requires a < |pairs| && forall x, y :: 0 <= x < y < |pairs| ==> pairs[x].0 != pairs[y].0
    ensures multiset(pairs)[pairs[a]] <= 1
  {
    assert pairs == pairs[..a] + [pairs[a]] + pairs[a + 1..];
    assert pairs[a] !in pairs[..a] && pairs[a] !in pairs[a + 1..];
  }

  lemma {:induction false} FetchAll(t: Table, ids: seq<string>)
    requires forall i :: 0 <= i < |ids| ==> ids[i] in t
    ensures |Fetch(t, ids)| == |ids| && forall i :: 0 <= i < |ids| ==> Fetch(t, ids)[i] == t[ids[i]]
  {
    if ids != [] {
      FetchAll(t, ids[..|ids| - 1]);
      assert Fetch(t, ids) == Fetch(t, ids[..|ids| - 1]) + [t[ids[|ids| - 1]]];
    }
  }

  lemma {:induction false} FetchMatches(t: Table, sid: string, cross: bool, taken: set<string>, room: nat,
                                        ids: seq<string>)
    requires Keyed(t) && |ids| <= room
    requires forall i, j :: 0 <= i < j < |ids| ==> ids[i] != ids[j]
    requires forall i :: 0 <= i < |ids| ==> ids[i] in t && CandidateRow(sid, cross, taken)(t[ids[i]])
    ensures Matches(t, sid, cross, taken, room, Fetch(t, ids))
  {
    FetchAll(t, ids);
    hide Fetch;
    forall i | 0 <= i < |ids|
      ensures t[ids[i]].parent.None? && InScope(t[ids[i]], sid, cross)
      ensures t[ids[i]].id !in taken && t[ids[i]].id == ids[i]
    {
      CandidateFacts(sid, cross, taken, t[ids[i]]);
    }
  }

  lemma {:induction false} HitsAreRows(t: Table, cond: MemoryNode -> bool, cands: seq<MemoryNode>,
                                       sim: string -> real, r: seq<Scored>)
    requires Keyed(t) && Lists(cands, t, cond) && multiset(r) <= multiset(Pairs(cands, sim))
    ensures forall i :: 0 <= i < |r| ==> r[i].0 in t && cond(t[r[i].0])
    ensures forall i, j :: 0 <= i < j < |r| ==> r[i].0 != r[j].0
  {
    ListingIds(cands, t, cond);
    hide *;
    HitsDistinct(cands, sim, r);
    forall i | 0 <= i < |r| ensures r[i].0 in t && cond(t[r[i].0]) {
      var k := HitIsCandidate(cands, sim, r, i);
    }
  }

  /** The vector match: the actives are the rows of the search's hits, in its order. */
  lemma {:induction false} SearchMatches(t: Table, sid: string, cross: bool, taken: set<string>,
                                         cands: seq<MemoryNode>, sim: string -> real, room: nat, minScore: real)
    requires Keyed(t) && Lists(cands, t, CandidateRow(sid, cross, taken))
    ensures var r := CosineSearch(Pairs(cands, sim), room, minScore);
      && Matches(t, sid, cross, taken, room, Fetch(t, Keys(r)))
      && (forall i :: 0 <= i < |r| ==> r[i].0 in t && CandidateRow(sid, cross, taken)(t[r[i].0]))
  {
    hide *;
    var r := CosineSearch(Pairs(cands, sim), room, minScore);
    SearchIsOptimal(Pairs(cands, sim), room, minScore);
    HitsAreRows(t, CandidateRow(sid, cross, taken), cands, sim, r);
    FetchMatches(t, sid, cross, taken, room, Keys(r));
  }

  // ---- One hop further ----

  lemma {:induction false} ParentsOnlyAre(ns: seq<MemoryNode>, t: Table)
    requires RowsOnce(t, ns)
    ensures |ParentsOnly(ns)| <= |ns| && RowsOnce(t, ParentsOnly(ns))
    ensures forall i :: 0 <= i < |ParentsOnly(ns)| ==> ParentsOnly(ns)[i] in ns && ParentsOnly(ns)[i].parent.None?
  {
    if ns != [] {
      var init, last := ns[..|ns| - 1], ns[|ns| - 1];
      ParentsOnlyAre(init, t);
      var p := ParentsOnly(init);
      forall i | 0 <= i < |p| ensures p[i].id != last.id {
        var j :| 0 <= j < |init| && init[j] == p[i];
        assert ns[j] == p[i];
      }
    }
  }

  lemma {:induction false} FetchOnce(t: Table, ids: seq<string>)
    requires Keyed(t) && forall i, j :: 0 <= i < j < |ids| ==> ids[i] != ids[j]
    ensures var f := Fetch(t, ids); |f| <= |ids| && RowsOnce(t, f) && forall i :: 0 <= i < |f| ==> f[i].id in ids
  {
    if ids != [] {
      var init, last := ids[..|ids| - 1], ids[|ids| - 1];
      FetchOnce(t, init);
      assert ids == init + [last];
    }
  }

  /** A link of a matched node leads to a node of the same session: this is the graph invariant, and the
      only reason that neighbours, fetched without a session filter, stay in the session. */
  lemma {:induction false} LinkStaysInSession(t: Table, id: string, link: string)
    requires GraphOk(t) && id in t && t[id].parent.None? && link in t[id].links
    ensures link in t && t[link].session == t[id].session
  {
    assert RowOk(t, t[id]);
  }

  /** The neighbours that fill the remaining slots. */
  function Hops(t: Table, d: seq<Scored>, slots: nat): seq<MemoryNode> {
    ParentsOnly(Fetch(t, Keys(Take(SortDesc(d, Score), slots))))
  }

  /** Outside the window, and linked from a match. */
  ghost predicate Linked(t: Table, ranked: seq<Scored>, primary: set<string>, id: string) {
    id !in primary && exists m :: m in ranked && id in LinksOf(t, m.0)
  }

  /** Neighbours are new rows, no children, and each is linked from a match that scored above zero. */
  ghost predicate Neighbours(t: Table, ranked: seq<Scored>, primary: set<string>, slots: nat, ns: seq<MemoryNode>) {
    && |ns| <= slots && RowsOnce(t, ns)
    && forall i :: 0 <= i < |ns| ==>
         ns[i].parent.None? && Linked(t, ranked, primary, ns[i].id)
  }

  /** The keys of the neighbour table: linked from matches, outside the window, each once, best first. */
  lemma {:induction false} TableKeys(t: Table, byId: Table, ranked: seq<Scored>, primary: set<string>, decay: real)
    requires Descending(ranked, Score) && decay > 0.0
    requires forall m :: m in ranked ==> LinksOf(byId, m.0) == LinksOf(t, m.0)
    ensures var d := Fold(Touches(ranked, byId, primary, decay));
      && DistinctKeys(d) && SortDesc(d, Score) == d
      && forall k :: 0 <= k < |d| ==> Linked(t, ranked, primary, d[k].0)
  {
    var touches := Touches(ranked, byId, primary, decay);
    var d := Fold(touches);
    TouchesDescend(ranked, byId, primary, decay);
    FirstTouchWins(touches);
    TableHoldsMaxima(touches);
    TouchesAre(ranked, byId, primary, decay);
    hide Touches;
    hide Fold;
    hide SortDesc;
    forall k | 0 <= k < |d| ensures Linked(t, ranked, primary, d[k].0) {
      assert IsMax(touches, d[k].0, d[k].1);
      assert d[k] in touches;
    }
  }

  lemma {:induction false} FirstKeys(d: seq<Scored>, slots: nat)
    requires DistinctKeys(d)
    ensures var ids := Keys(Take(d, slots));
      && |ids| <= slots
      && (forall i, j :: 0 <= i < j < |ids| ==> ids[i] != ids[j])
      && (forall id :: id in ids ==> exists k :: 0 <= k < |d| && d[k].0 == id)
  {
    var ids := Keys(Take(d, slots));
    forall id | id in ids ensures exists k :: 0 <= k < |d| && d[k].0 == id {
      var k :| 0 <= k < |ids| && ids[k] == id;
      assert d[k].0 == id;
    }
  }

  lemma {:induction false} NeighboursFrom(t: Table, ranked: seq<Scored>, primary: set<string>, d: seq<Scored>,
                                          slots: nat)
    requires Keyed(t) && DistinctKeys(d) && SortDesc(d, Score) == d
    requires forall k :: 0 <= k < |d| ==> Linked(t, ranked, primary, d[k].0)
    ensures Neighbours(t, ranked, primary, slots, Hops(t, d, slots))
  {
    FirstKeys(d, slots);
    var ids := Keys(Take(d, slots));
    FetchOnce(t, ids);
    var fetched := Fetch(t, ids);
    ParentsOnlyAre(fetched, t);
    var ns := ParentsOnly(fetched);
    assert Hops(t, d, slots) == ns;
    hide Linked;
    hide ParentsOnly;
    hide Fetch;
    hide Hops;
    hide SortDesc;
    hide DistinctKeys;
    hide Take;
    hide Keys;
    forall i | 0 <= i < |ns| ensures Linked(t, ranked, primary, ns[i].id) {
      var j :| 0 <= j < |fetched| && fetched[j] == ns[i];
      assert fetched[j].id in ids;
      var k :| 0 <= k < |d| && d[k].0 == ns[i].id;
    }
  }

  lemma {:induction false} HopsAreNeighbours(t: Table, byId: Table, ranked: seq<Scored>, primary: set<string>,
                                             decay: real, slots: nat)
    requires Keyed(t) && Descending(ranked, Score) && decay > 0.0
    requires forall m :: m in ranked ==> LinksOf(byId, m.0) == LinksOf(t, m.0)
    ensures Neighbours(t, ranked, primary, slots, Hops(t, Fold(Touches(ranked, byId, primary, decay)), slots))
  {
    TableKeys(t, byId, ranked, primary, decay);
    hide Fold;
    hide Touches;
    NeighboursFrom(t, ranked, primary, Fold(Touches(ranked, byId, primary, decay)), slots);
  }

  // ---- The whole window ----

  /** The matched nodes, by id. */
  method IndexById(ns: seq<MemoryNode>, ghost t: Table) returns (byId: Table)
    requires RowsOnce(t, ns)
    ensures byId.Keys == IdsOf(ns) && forall id :: id in byId ==> id in t && byId[id] == t[id]
  {
    byId := map[];
    for i := 0 to |ns|
      invariant byId.Keys == IdsOf(ns[..i])
      invariant forall id :: id in byId ==> id in t && byId[id] == t[id]
    {
      assert ns[..i + 1] == ns[..i] + [ns[i]];
      byId := byId[ns[i].id := ns[i]];
    }
    assert ns[..|ns|] == ns;
  }

  method PassiveNodes(store: NodeStore, sid: string, cross: bool) returns (passives: seq<MemoryNode>)
    requires Keyed(store.rows)
    ensures Lists(passives, store.rows, PassiveRow(sid, cross)) && Descending(passives, CreatedAt)
    ensures Presentable(store.rows, sid, cross, passives)
  {
    passives := store.ListPassive(sid, cross);
    ListingIds(passives, store.rows, PassiveRow(sid, cross));
  }

  ghost predicate AllInScope(t: Table, sid: string, cross: bool, ranked: seq<Scored>) {
    forall m :: m in ranked ==> m.0 in t && t[m.0].parent.None? && InScope(t[m.0], sid, cross)
  }

  lemma {:induction false} HitsInScope(t: Table, sid: string, cross: bool, taken: set<string>, ranked: seq<Scored>)
    requires forall i :: 0 <= i < |ranked| ==> ranked[i].0 in t && CandidateRow(sid, cross, taken)(t[ranked[i].0])
    ensures AllInScope(t, sid, cross, ranked)
  {
    hide CandidateRow;
    forall m | m in ranked ensures m.0 in t && t[m.0].parent.None? && InScope(t[m.0], sid, cross) {
      var i :| 0 <= i < |ranked| && ranked[i] == m;
      CandidateFacts(sid, cross, taken, t[ranked[i].0]);
    }
  }

  lemma {:induction false} QueryFacts(t: Table, sid: string, cross: bool, taken: set<string>,
                                      cands: seq<MemoryNode>, sim: string -> real, room: nat, minScore: real)
    requires Keyed(t) && Lists(cands, t, CandidateRow(sid, cross, taken))
    ensures var r := CosineSearch(Pairs(cands, sim), room, minScore);
      && Matches(t, sid, cross, taken, room, Fetch(t, Keys(r))) && Descending(r, Score)
      && AllInScope(t, sid, cross, r)
  {
    hide *;
    SearchMatches(t, sid, cross, taken, cands, sim, room, minScore);
    SearchIsOptimal(Pairs(cands, sim), room, minScore);
    HitsInScope(t, sid, cross, taken, CosineSearch(Pairs(cands, sim), room, minScore));
  }

  /** The vector match against the query. */
  method MatchQuery(store: NodeStore, sid: string, cross: bool, taken: set<string>,
                    sim: string -> real, room: nat, minScore: real)
    returns (actives: seq<MemoryNode>, ranked: seq<Scored>, ghost cands: seq<MemoryNode>)
    requires Keyed(store.rows)
    ensures Lists(cands, store.rows, CandidateRow(sid, cross, taken))
    ensures ranked == CosineSearch(Pairs(cands, sim), room, minScore)
    ensures actives == Fetch(store.rows, Keys(ranked))
    ensures Matches(store.rows, sid, cross, taken, room, actives) && Descending(ranked, Score)
    ensures AllInScope(store.rows, sid, cross, ranked)
  {
    var found := Candidates(store, sid, cross, taken);
    cands := found;
    QueryFacts(store.rows, sid, cross, taken, found, sim, room, minScore);
    hide CosineSearch;
    hide Matches;
    hide AllInScope;
    hide Lists;
    hide Fetch;
    ranked := CosineSearch(Pairs(found, sim), room, minScore);
    actives := store.GetNodes(Keys(ranked));
  }

  /** Without a query: the newest candidates. */
  method MatchNewest(store: NodeStore, sid: string, cross: bool, taken: set<string>, room: nat)
    returns (actives: seq<MemoryNode>, ghost cands: seq<MemoryNode>)
    requires Keyed(store.rows)
    ensures Lists(cands, store.rows, CandidateRow(sid, cross, taken)) && Descending(cands, CreatedAt)
    ensures actives == Take(cands, room)
    ensures Matches(store.rows, sid, cross, taken, room, actives)
  {
    var found := Candidates(store, sid, cross, taken);
    SortDescSorts(found, CreatedAt);
    var sorted := SortDesc(found, CreatedAt);
    cands := sorted;
    actives := Take(sorted, room);
    ListingMatches(store.rows, sid, cross, taken, sorted, room);
  }

  lemma {:induction false} NeighboursInScope(t: Table, sid: string, cross: bool, ranked: seq<Scored>,
                                             primary: set<string>, slots: nat, hops: seq<MemoryNode>)
    requires GraphOk(t) && AllInScope(t, sid, cross, ranked) && Neighbours(t, ranked, primary, slots, hops)
    ensures Presentable(t, sid, cross, hops)
  {
    forall i | 0 <= i < |hops| ensures InScope(hops[i], sid, cross) {
      assert Linked(t, ranked, primary, hops[i].id);
      var m :| m in ranked && hops[i].id in LinksOf(t, m.0);
      LinkStaysInSession(t, m.0, hops[i].id);
    }
  }

  /** The one-hop expansion: the two nested loops, the sort and the fetch. */
  method Expand(store: NodeStore, actives: seq<MemoryNode>, ranked: seq<Scored>, primary: set<string>,
                decay: real, slots: nat)
    returns (hops: seq<MemoryNode>)
    requires Keyed(store.rows) && RowsOnce(store.rows, actives) && decay > 0.0 && Descending(ranked, Score)
    requires forall m :: m in ranked ==> m.0 in IdsOf(actives)
    ensures Neighbours(store.rows, ranked, primary, slots, hops)
    ensures hops == Hops(store.rows, Fold(Touches(ranked, store.rows, primary, decay)), slots)
  {
    var byId := IndexById(actives, store.rows);
    SameTouches(ranked, byId, store.rows, primary, decay);
    HopsAreNeighbours(store.rows, byId, ranked, primary, decay, slots);
    var scores := NeighbourScores(ranked, byId, primary, decay);
    hide Fold;
    hide Touches;
    hide SortDesc;
    hide Neighbours;
    hide Fetch;
    var fetched := store.GetNodes(Keys(Take(SortDesc(scores, Score), slots)));
    hops := FilterNodes(fetched, (n: MemoryNode) => n.parent.None?);
  }

  lemma {:induction false} SameTouches(ranked: seq<Scored>, byId: Table, t: Table, primary: set<string>, decay: real)
    requires forall m :: m in ranked ==> LinksOf(byId, m.0) == LinksOf(t, m.0)
    ensures Touches(ranked, byId, primary, decay) == Touches(ranked, t, primary, decay)
  {
    if ranked != [] {
      assert ranked[|ranked| - 1] in ranked;
      forall m | m in ranked[..|ranked| - 1] ensures m in ranked {}
      SameTouches(ranked[..|ranked| - 1], byId, t, primary, decay);
    }
  }

  lemma {:induction false} RankedAreActives(t: Table, actives: seq<MemoryNode>, ranked: seq<Scored>)
    requires Keyed(t) && actives == Fetch(t, Keys(ranked)) && forall m :: m in ranked ==> m.0 in t
    ensures forall m :: m in ranked ==> m.0 in IdsOf(actives)
  {
    FetchAll(t, Keys(ranked));
    hide Fetch;
    forall m | m in ranked ensures m.0 in IdsOf(actives) {
      var i :| 0 <= i < |ranked| && ranked[i] == m;
      assert actives[i] in actives && actives[i].id == m.0;
    }
  }

  /** The parts of a window that is not full of passive nodes. */
  ghost predicate WindowParts(t: Table, sid: string, cross: bool, maxNodes: int, decay: real, passives: seq<MemoryNode>,
                              actives: seq<MemoryNode>, ranked: seq<Scored>, hops: seq<MemoryNode>)
  {
    && Matches(t, sid, cross, IdsOf(passives), maxNodes - |passives|, actives)
    && var primary := passives + actives;
       && |primary| <= maxNodes && AllInScope(t, sid, cross, ranked)
       && Neighbours(t, ranked, IdsOf(primary), maxNodes - |primary|, hops)
       && hops == if decay > 0.0
                  then Hops(t, Fold(Touches(ranked, t, IdsOf(primary), decay)), maxNodes - |primary|) else []
  }

  lemma {:induction false} PartsMakeWindow(t: Table, sid: string, cross: bool, maxNodes: int, decay: real,
                                           passives: seq<MemoryNode>, actives: seq<MemoryNode>,
                                           ranked: seq<Scored>, hops: seq<MemoryNode>)
    requires Presentable(t, sid, cross, passives)
    requires WindowParts(t, sid, cross, maxNodes, decay, passives, actives, ranked, hops)
    ensures var w := passives + actives + hops;
      && |w| <= maxNodes && RowsOnce(t, w)
      && (forall i :: 0 <= i < |w| ==> w[i].parent.None?)
      && (GraphOk(t) ==> Presentable(t, sid, cross, w))
  {
    var primary := passives + actives;
    forall i, j | 0 <= i < |passives| && 0 <= j < |actives| ensures passives[i].id != actives[j].id {
      assert passives[i] in passives;
    }
    PresentableAppend(t, sid, cross, passives, actives);
    forall i, j | 0 <= i < |primary| && 0 <= j < |hops| ensures primary[i].id != hops[j].id {
      assert primary[i] in primary;
    }
    PresentableAppend(t, "", true, primary, hops);
    if GraphOk(t) {
      NeighboursInScope(t, sid, cross, ranked, IdsOf(primary), maxNodes - |primary|, hops);
      PresentableAppend(t, sid, cross, primary, hops);
    }
  }

  ghost predicate Matched(t: Table, sid: string, cross: bool, taken: set<string>, room: int,
                          actives: seq<MemoryNode>, ranked: seq<Scored>)
  {
    && Matches(t, sid, cross, taken, room, actives) && AllInScope(t, sid, cross, ranked)
    && Descending(ranked, Score) && (forall m :: m in ranked ==> m.0 in IdsOf(actives))
  }

  /** Which candidates are taken: the best of the similarity search, or without a query the newest. */
  ghost predicate Chosen(t: Table, sid: string, query: string, sim: string -> real, minScore: real, cross: bool,
                         taken: set<string>, room: nat, cands: seq<MemoryNode>, actives: seq<MemoryNode>,
                         ranked: seq<Scored>)
  {
    && Lists(cands, t, CandidateRow(sid, cross, taken))
    && if query != "" then
         ranked == CosineSearch(Pairs(cands, sim), room, minScore) && actives == Fetch(t, Keys(ranked))
       else
         Descending(cands, CreatedAt) && actives == Take(cands, room) && ranked == []
  }

  method MatchActives(store: NodeStore, sid: string, query: string, sim: string -> real,
                      minScore: real, cross: bool, taken: set<string>, room: nat)
    returns (actives: seq<MemoryNode>, ranked: seq<Scored>, ghost cands: seq<MemoryNode>)
    requires Keyed(store.rows)
    ensures Chosen(store.rows, sid, query, sim, minScore, cross, taken, room, cands, actives, ranked)
    ensures Matched(store.rows, sid, cross, taken, room, actives, ranked)
  {
    hide Matches;
    hide Fetch;
    hide CosineSearch;
    hide Lists;
    if query != "" {
      actives, ranked, cands := MatchQuery(store, sid, cross, taken, sim, room, minScore);
      RankedAreActives(store.rows, actives, ranked);
    } else {
      actives, cands := MatchNewest(store, sid, cross, taken, room);
      ranked := [];
    }
  }

  // ---- What the window leaves out ----

  ghost predicate InReach(n: MemoryNode, sid: string, cross: bool) { sid == "" || cross || n.session == sid }

  /** A row that always rides along: passive or both, no child, in reach. */
  ghost predicate Rides(t: Table, sid: string, cross: bool, n: MemoryNode) {
    && n.id in t && t[n.id] == n && (n.recall == PassiveOnly || n.recall == Both) && n.parent.None?
    && InReach(n, sid, cross)
  }

  /** A row that can be matched: active or both with an embedding, no child, in reach. */
  ghost predicate Matchable(t: Table, sid: string, cross: bool, n: MemoryNode) {
    && n.id in t && t[n.id] == n && (n.recall == ActiveOnly || n.recall == Both) && n.embedded && n.parent.None?
    && InReach(n, sid, cross)
  }

  /** A riding row is left out only when riding rows at least as new fill the window. */
  ghost predicate RidersFirst(t: Table, sid: string, cross: bool, maxNodes: int, w: seq<MemoryNode>) {
    forall n :: Rides(t, sid, cross, n) ==>
      n in w || (|w| == maxNodes && forall m :: m in w ==> Rides(t, sid, cross, m) && m.createdAt >= n.createdAt)
  }

  lemma {:induction false} PassivesRide(t: Table, sid: string, cross: bool, passives: seq<MemoryNode>)
    requires Keyed(t) && Lists(passives, t, PassiveRow(sid, cross))
    ensures forall n :: n in passives <==> Rides(t, sid, cross, n)
  {
    ListedAre(passives, t, PassiveRow(sid, cross));
    hide Lists;
  }

  /** What a slice leaves out comes after it. */
  lemma {:induction false} SliceMisses(xs: seq<MemoryNode>, k: nat, n: MemoryNode) returns (i: nat)
    requires n in xs && n !in Take(xs, k)
    ensures |Take(xs, k)| == k <= i < |xs| && xs[i] == n
  {
    var r := Take(xs, k);
    assert forall j :: 0 <= j < |r| ==> r[j] in r && r[j] == xs[j];
    i :| i < |xs| && xs[i] == n;
  }

  lemma {:induction false} WindowHasRiders(t: Table, sid: string, cross: bool, maxNodes: nat,
                                           passives: seq<MemoryNode>, w: seq<MemoryNode>)
    requires Keyed(t) && Lists(passives, t, PassiveRow(sid, cross)) && Descending(passives, CreatedAt)
    requires if |passives| >= maxNodes then w == Take(passives, maxNodes) else passives <= w
    ensures RidersFirst(t, sid, cross, maxNodes, w)
  {
    PassivesRide(t, sid, cross, passives);
    hide Lists;
    hide Rides;
    if |passives| < maxNodes {
      forall n | n in passives ensures n in w { var i: nat :| i < |passives| && passives[i] == n; assert w[i] == n; }
    } else {
      forall n | n in passives && n !in w
        ensures |w| == maxNodes && forall m :: m in w ==> m in passives && m.createdAt >= n.createdAt
      {
        var i := SliceMisses(passives, maxNodes, n);
        forall m | m in w ensures m in passives && m.createdAt >= n.createdAt {
          var j: nat :| j < |w| && w[j] == m;
          assert CreatedAt(passives[j]) >= CreatedAt(passives[i]);
        }
      }
    }
  }

  /** A matchable row outside the window so far is left out only when it is not similar enough, or when better
      ones, or without a query newer ones, fill the room. */
  ghost predicate BestMatches(t: Table, sid: string, cross: bool, query: string, sim: string -> real, minScore: real,
                              taken: set<string>, room: nat, actives: seq<MemoryNode>)
  {
    && |actives| <= room
    && (forall m :: m in actives ==>
          Matchable(t, sid, cross, m) && m.id !in taken && (query != "" ==> sim(m.id) >= minScore))
    && (forall c :: Matchable(t, sid, cross, c) && c.id !in taken && c !in actives ==>
          || (query != "" && sim(c.id) < minScore)
          || (|actives| == room && forall m :: m in actives ==>
                if query != "" then sim(m.id) >= sim(c.id) else m.createdAt >= c.createdAt))
  }

  lemma {:induction false} CandidatesAre(t: Table, sid: string, cross: bool, taken: set<string>, cands: seq<MemoryNode>)
    requires Keyed(t) && Lists(cands, t, CandidateRow(sid, cross, taken))
    ensures forall c :: c in cands <==> Matchable(t, sid, cross, c) && c.id !in taken
  {
    ListedAre(cands, t, CandidateRow(sid, cross, taken));
    hide Lists;
    forall c ensures CandidateRow(sid, cross, taken)(c) == (ActiveRow(sid, cross)(c) && Outside(taken)(c)) {}
  }

  lemma {:induction false} NewestAreBest(t: Table, sid: string, cross: bool, sim: string -> real, minScore: real,
                                         taken: set<string>, room: nat, cands: seq<MemoryNode>)
    requires Keyed(t) && Lists(cands, t, CandidateRow(sid, cross, taken)) && Descending(cands, CreatedAt)
    ensures BestMatches(t, sid, cross, "", sim, minScore, taken, room, Take(cands, room))
  {
    CandidatesAre(t, sid, cross, taken, cands);
    hide Lists;
    hide Matchable;
    var r := Take(cands, room);
    forall m | m in r ensures m in cands { var j: nat :| j < |r| && r[j] == m; }
    forall c | c in cands && c !in r
      ensures |r| == room && forall m :: m in r ==> m.createdAt >= c.createdAt
    {
      var i := SliceMisses(cands, room, c);
      forall m | m in r ensures m.createdAt >= c.createdAt {
        var j: nat :| j < |r| && r[j] == m;
        assert CreatedAt(cands[j]) >= CreatedAt(cands[i]);
      }
    }
  }

  /** The hits of the search: candidates and their similarities, and no better candidate left out. */
  lemma {:induction false} HitsAreBest(t: Table, cands: seq<MemoryNode>, sim: string -> real, room: nat, minScore: real)
    requires forall c :: c in cands ==> c.id in t && t[c.id] == c
    ensures var r := CosineSearch(Pairs(cands, sim), room, minScore);
      && |r| <= room
      && (forall i :: 0 <= i < |r| ==>
            r[i].0 in t && t[r[i].0] in cands && r[i].1 == sim(r[i].0) && r[i].1 >= minScore)
      && (forall c :: c in cands && sim(c.id) >= minScore && (c.id, sim(c.id)) !in r ==>
            |r| == room && forall i :: 0 <= i < |r| ==> r[i].1 >= sim(c.id))
  {
    var pairs := Pairs(cands, sim);
    var r := CosineSearch(pairs, room, minScore);
    SearchIsOptimal(pairs, room, minScore);
    hide CosineSearch;
    forall i | 0 <= i < |r|
      ensures r[i].0 in t && t[r[i].0] in cands && r[i].1 == sim(r[i].0) && r[i].1 >= minScore
    {
      var k := HitIsCandidate(cands, sim, r, i);
      assert cands[k] in cands && Score(r[i]) >= minScore;
    }
    forall c | c in cands && sim(c.id) >= minScore && (c.id, sim(c.id)) !in r
      ensures |r| == room && forall i :: 0 <= i < |r| ==> r[i].1 >= sim(c.id)
    {
      var k: nat :| k < |cands| && cands[k] == c;
      var p := pairs[k];
      assert p in multiset(pairs) - multiset(r) && Score(p) >= minScore;
      assert forall i :: 0 <= i < |r| ==> Score(r[i]) >= Score(p);
    }
  }

  lemma {:induction false} SearchedAreBest(t: Table, sid: string, cross: bool, query: string, sim: string -> real,
                                           minScore: real, taken: set<string>, room: nat, cands: seq<MemoryNode>)
    requires Keyed(t) && Lists(cands, t, CandidateRow(sid, cross, taken)) && query != ""
    ensures var r := CosineSearch(Pairs(cands, sim), room, minScore);
      BestMatches(t, sid, cross, query, sim, minScore, taken, room, Fetch(t, Keys(r)))
  {
    hide *;
    CandidatesAre(t, sid, cross, taken, cands);
    InTable(t, sid, cross, taken, cands);
    HitsAreBest(t, cands, sim, room, minScore);
    var r := CosineSearch(Pairs(cands, sim), room, minScore);
    FetchAll(t, Keys(r));
    HitsAsNodes(t, cands, sim, room, minScore, r, Fetch(t, Keys(r)));
    BestOfCandidates(t, sid, cross, query, sim, minScore, taken, room, cands, Fetch(t, Keys(r)));
  }

  lemma {:induction false} BestOfCandidates(t: Table, sid: string, cross: bool, query: string, sim: string -> real,
                                            minScore: real, taken: set<string>, room: nat, cands: seq<MemoryNode>,
                                            acts: seq<MemoryNode>)
    requires query != "" && |acts| <= room
    requires forall c :: c in cands <==> Matchable(t, sid, cross, c) && c.id !in taken
    requires forall m :: m in acts ==> m in cands && sim(m.id) >= minScore
    requires forall c :: c in cands && c !in acts && sim(c.id) >= minScore ==>
      |acts| == room && forall m :: m in acts ==> sim(m.id) >= sim(c.id)
    ensures BestMatches(t, sid, cross, query, sim, minScore, taken, room, acts)
  {
    hide Matchable;
  }

  /** The same of the rows that the hits name. */
  lemma {:induction false} HitsAsNodes(t: Table, cands: seq<MemoryNode>, sim: string -> real, room: nat, minScore: real,
                                       r: seq<Scored>, acts: seq<MemoryNode>)
    requires Keyed(t)
    requires forall c :: c in cands ==> c.id in t && t[c.id] == c
    requires forall i :: 0 <= i < |r| ==>
      r[i].0 in t && t[r[i].0] in cands && r[i].1 == sim(r[i].0) && r[i].1 >= minScore
    requires forall c :: c in cands && sim(c.id) >= minScore && (c.id, sim(c.id)) !in r ==>
      |r| == room && forall i :: 0 <= i < |r| ==> r[i].1 >= sim(c.id)
    requires |acts| == |r| && forall i :: 0 <= i < |r| ==> acts[i] == t[r[i].0]
    ensures forall m :: m in acts ==> m in cands && sim(m.id) >= minScore
    ensures forall c :: c in cands && c !in acts && sim(c.id) >= minScore ==>
      |acts| == room && forall m :: m in acts ==> sim(m.id) >= sim(c.id)
  {
    forall m | m in acts ensures m in cands && sim(m.id) >= minScore {
      var j: nat :| j < |acts| && acts[j] == m;
      assert r[j].0 in t && m.id == r[j].0;
    }
    forall c | c in cands && c !in acts && sim(c.id) >= minScore
      ensures |acts| == room && forall m :: m in acts ==> sim(m.id) >= sim(c.id)
    {
      forall j | 0 <= j < |r| ensures r[j].0 != c.id { assert acts[j] in acts && acts[j] == t[r[j].0]; }
      var p: Scored := (c.id, sim(c.id));
      assert p !in r;
      forall m | m in acts ensures sim(m.id) >= sim(c.id) {
        var j: nat :| j < |acts| && acts[j] == m;
        assert r[j].0 in t && m.id == r[j].0 && r[j].1 >= sim(c.id);
      }
    }
  }

  lemma {:induction false} InTable(t: Table, sid: string, cross: bool, taken: set<string>, cands: seq<MemoryNode>)
    requires forall c :: c in cands <==> Matchable(t, sid, cross, c) && c.id !in taken
    ensures forall c :: c in cands ==> c.id in t && t[c.id] == c
  {}

  lemma {:induction false} ChosenAreBest(t: Table, sid: string, query: string, sim: string -> real, minScore: real,
                                         cross: bool, taken: set<string>, room: nat, cands: seq<MemoryNode>,
                                         actives: seq<MemoryNode>, ranked: seq<Scored>)
    requires Keyed(t) && Chosen(t, sid, query, sim, minScore, cross, taken, room, cands, actives, ranked)
    ensures BestMatches(t, sid, cross, query, sim, minScore, taken, room, actives)
  {
    hide Lists;
    hide BestMatches;
    hide CosineSearch;
    hide Fetch;
    if query != "" {
      SearchedAreBest(t, sid, cross, query, sim, minScore, taken, room, cands);
    } else {
      NewestAreBest(t, sid, cross, sim, minScore, taken, room, cands);
    }
  }

  /** A row without a parent that a match links to, outside the window so far. */
  ghost predicate HopFrom(t: Table, ranked: seq<Scored>, primary: set<string>, m: Scored, id: string) {
    m in ranked && id in LinksOf(t, m.0) && id !in primary
  }

  /** It is left out only when as many others, each linked from a match at least as good, fill the slots. */
  ghost predicate BestHops(t: Table, ranked: seq<Scored>, primary: set<string>, slots: nat, hops: seq<MemoryNode>) {
    forall m, id :: HopFrom(t, ranked, primary, m, id) && m.1 > 0.0 && id in t && t[id].parent.None? ==>
      t[id] in hops || SlotsFull(t, ranked, primary, slots, m, id)
  }

  ghost predicate SlotsFull(t: Table, ranked: seq<Scored>, primary: set<string>, slots: nat, m: Scored, id: string) {
    exists others: seq<string> ::
      && |others| == slots && (forall i, j :: 0 <= i < j < |others| ==> others[i] != others[j])
      && forall i :: 0 <= i < |others| ==> others[i] != id && BetterHop(t, ranked, primary, m, others[i])
  }

  ghost predicate BetterHop(t: Table, ranked: seq<Scored>, primary: set<string>, m: Scored, id: string) {
    exists n :: HopFrom(t, ranked, primary, n, id) && n.1 >= m.1
  }

  lemma {:induction false} DecayedLess(x: Scored, y: Scored, decay: real)
    requires x.1 < y.1 && decay > 0.0
    ensures Decayed(x, decay) < Decayed(y, decay)
  {
    assert (y.1 - x.1) * decay > 0.0;
  }

  lemma {:induction false} DecayedBack(x: Scored, y: Scored, decay: real)
    requires Decayed(x, decay) >= Decayed(y, decay) && decay > 0.0
    ensures x.1 >= y.1
  {
    hide Decayed;
    if x.1 < y.1 { DecayedLess(x, y, decay); }
  }

  lemma {:induction false} KeyIsFetched(t: Table, d: seq<Scored>, slots: nat, k: nat)
    requires Keyed(t) && DistinctKeys(d) && SortDesc(d, Score) == d && k < |d| && k < slots
    requires d[k].0 in t && t[d[k].0].parent.None?
    ensures t[d[k].0] in Hops(t, d, slots)
  {
    FirstKeys(d, slots);
    var ids := Keys(Take(d, slots));
    assert ids[k] == d[k].0;
    FetchHas(t, ids, k);
    hide SortDesc;
    hide Fetch;
    FilterHas(Fetch(t, ids), (n: MemoryNode) => n.parent.None?, t[d[k].0]);
  }

  lemma {:induction false} FetchHas(t: Table, ids: seq<string>, k: nat)
    requires k < |ids| && ids[k] in t
    ensures t[ids[k]] in Fetch(t, ids)
  {
    if k < |ids| - 1 { FetchHas(t, ids[..|ids| - 1], k); }
  }

  lemma {:induction false} FilterHas(ns: seq<MemoryNode>, cond: MemoryNode -> bool, n: MemoryNode)
    requires n in ns && cond(n)
    ensures n in Filter(ns, cond)
  {
    FilterKeeps(ns, cond);
    assert n in multiset(ns) && n in multiset(Filter(ns, cond));
  }

  lemma {:induction false} HopsAreBest(t: Table, ranked: seq<Scored>, primary: set<string>, decay: real, slots: nat)
    requires Keyed(t) && Descending(ranked, Score) && decay > 0.0
    ensures BestHops(t, ranked, primary, slots, Hops(t, Fold(Touches(ranked, t, primary, decay)), slots))
  {
    var touches := Touches(ranked, t, primary, decay);
    var d := Fold(touches);
    TouchesDescend(ranked, t, primary, decay);
    FirstTouchWins(touches);
    TableHoldsMaxima(touches);
    TouchesAre(ranked, t, primary, decay);
    hide Touches;
    hide Fold;
    hide Hops;
    hide SortDesc;
    hide SlotsFull;
    hide TableRight;
    hide DistinctKeys;
    hide Descending;
    hide Decayed;
    forall m, id | HopFrom(t, ranked, primary, m, id) && m.1 > 0.0 && id in t && t[id].parent.None?
      ensures t[id] in Hops(t, d, slots) || SlotsFull(t, ranked, primary, slots, m, id)
    {
      HopIsTaken(t, ranked, primary, decay, touches, d, slots, m, id);
    }
  }

  ghost predicate TouchesOf(touches: seq<Scored>, t: Table, ranked: seq<Scored>, primary: set<string>, decay: real) {
    forall x :: x in touches <==>
      x.0 !in primary && exists n :: n in ranked && x.0 in LinksOf(t, n.0) && x.1 == Decayed(n, decay)
  }

  lemma {:induction false} HopIsTaken(t: Table, ranked: seq<Scored>, primary: set<string>, decay: real,
                                      touches: seq<Scored>, d: seq<Scored>, slots: nat, m: Scored, id: string)
    requires Keyed(t) && decay > 0.0 && TableRight(d, touches) && Descending(d, Score) && SortDesc(d, Score) == d
    requires TouchesOf(touches, t, ranked, primary, decay)
    requires HopFrom(t, ranked, primary, m, id) && m.1 > 0.0 && id in t && t[id].parent.None?
    ensures t[id] in Hops(t, d, slots) || SlotsFull(t, ranked, primary, slots, m, id)
  {
    var x: Scored := (id, Decayed(m, decay));
    assert x in touches && x.1 > 0.0;
    var k := TouchedKey(d, touches, id, x.1);
    assert DistinctKeys(d);
    hide *;
    if k < slots {
      KeyIsFetched(t, d, slots, k);
    } else {
      OthersFill(t, ranked, primary, decay, touches, d, slots, m, k);
    }
  }

  lemma {:induction false} TouchedKey(d: seq<Scored>, touches: seq<Scored>, id: string, v: real) returns (k: nat)
    requires TableRight(d, touches) && (id, v) in touches && v > 0.0
    ensures k < |d| && d[k].0 == id && d[k].1 >= v
  {
    var x: Scored := (id, v);
    assert x in touches && x.1 > 0.0;
    k := IndexOf(d, x.0);
    assert IsMax(touches, d[k].0, d[k].1);
  }

  lemma {:induction false} OthersFill(t: Table, ranked: seq<Scored>, primary: set<string>, decay: real,
                                      touches: seq<Scored>, d: seq<Scored>, slots: nat, m: Scored, k: nat)
    requires decay > 0.0 && TableRight(d, touches) && Descending(d, Score) && slots <= k < |d|
    requires d[k].1 >= Decayed(m, decay)
    requires TouchesOf(touches, t, ranked, primary, decay)
    ensures SlotsFull(t, ranked, primary, slots, m, d[k].0)
  {
    var others := Keys(d[..slots]);
    hide *;
    forall i | 0 <= i < slots ensures others[i] != d[k].0 && BetterHop(t, ranked, primary, m, others[i]) {
      AboveIsBetter(t, ranked, primary, decay, touches, d, m, i, k);
    }
    KeysApart(d, touches, slots);
    FullOf(t, ranked, primary, slots, m, d[k].0, others);
  }

  lemma {:induction false} AboveIsBetter(t: Table, ranked: seq<Scored>, primary: set<string>, decay: real,
                                         touches: seq<Scored>, d: seq<Scored>, m: Scored, i: nat, k: nat)
    requires decay > 0.0 && TableRight(d, touches) && Descending(d, Score) && i < k < |d|
    requires d[k].1 >= Decayed(m, decay) && TouchesOf(touches, t, ranked, primary, decay)
    ensures d[i].0 != d[k].0 && BetterHop(t, ranked, primary, m, d[i].0)
  {
    assert Score(d[i]) >= Score(d[k]) && IsMax(touches, d[i].0, d[i].1);
    assert d[i] in touches;
    hide LinksOf;
    hide Decayed;
    var n :| n in ranked && d[i].0 in LinksOf(t, n.0) && d[i].1 == Decayed(n, decay);
    DecayedBack(n, m, decay);
    assert HopFrom(t, ranked, primary, n, d[i].0);
  }

  lemma {:induction false} KeysApart(d: seq<Scored>, touches: seq<Scored>, slots: nat)
    requires TableRight(d, touches) && slots <= |d|
    ensures var ids := Keys(d[..slots]); forall i, j :: 0 <= i < j < |ids| ==> ids[i] != ids[j]
  {}

  lemma {:induction false} FullOf(t: Table, ranked: seq<Scored>, primary: set<string>, slots: nat, m: Scored,
                                  id: string, others: seq<string>)
    requires |others| == slots && forall i, j :: 0 <= i < j < |others| ==> others[i] != others[j]
    requires forall i :: 0 <= i < |others| ==> others[i] != id && BetterHop(t, ranked, primary, m, others[i])
    ensures SlotsFull(t, ranked, primary, slots, m, id)
  {
    hide BetterHop;
  }

  // ---- The whole window, put together ----

  /** The matches and their neighbours, when the passive nodes leave room. */
  method FillWindow(store: NodeStore, sid: string, query: string, sim: string -> real, maxNodes: int,
                    minScore: real, cross: bool, decay: real, passive: seq<MemoryNode>)
    returns (matched: seq<MemoryNode>, scores: seq<Scored>, found: seq<MemoryNode>, ghost cands: seq<MemoryNode>)
    requires Keyed(store.rows) && |passive| < maxNodes
    ensures Chosen(store.rows, sid, query, sim, minScore, cross, IdsOf(passive), maxNodes - |passive|,
                   cands, matched, scores)
    ensures WindowParts(store.rows, sid, cross, maxNodes, decay, passive, matched, scores, found)
    ensures BestMatches(store.rows, sid, cross, query, sim, minScore, IdsOf(passive), maxNodes - |passive|, matched)
    ensures |passive + matched| <= maxNodes
    ensures decay > 0.0 ==>
      BestHops(store.rows, scores, IdsOf(passive + matched), maxNodes - |passive + matched|, found)
  {
    hide *;
    matched, scores, cands :=
      MatchActives(store, sid, query, sim, minScore, cross, IdsOf(passive), maxNodes - |passive|);
    MatchedFacts(store.rows, sid, cross, IdsOf(passive), maxNodes - |passive|, matched, scores);
    ChosenAreBest(store.rows, sid, query, sim, minScore, cross, IdsOf(passive), maxNodes - |passive|, cands, matched,
                  scores);
    var primary := passive + matched;
    var slots: nat := maxNodes - |primary|;
    found := [];
    if decay > 0.0 {
      found := Expand(store, matched, scores, IdsOf(primary), decay, slots);
      HopsAreBest(store.rows, scores, IdsOf(primary), decay, slots);
    } else {
      NoNeighbours(store.rows, scores, IdsOf(primary), slots);
    }
    MakeParts(store.rows, sid, cross, maxNodes, decay, passive, matched, scores, found);
  }

  lemma {:induction false} MatchedFacts(t: Table, sid: string, cross: bool, taken: set<string>, room: int,
                                        actives: seq<MemoryNode>, ranked: seq<Scored>)
    requires Matched(t, sid, cross, taken, room, actives, ranked)
    ensures |actives| <= room && RowsOnce(t, actives) && Descending(ranked, Score)
    ensures forall m :: m in ranked ==> m.0 in IdsOf(actives)
  {
    hide RowsOnce;
    hide Descending;
  }

  lemma {:induction false} MakeParts(t: Table, sid: string, cross: bool, maxNodes: int, decay: real,
                                     passives: seq<MemoryNode>, actives: seq<MemoryNode>,
                                     ranked: seq<Scored>, hops: seq<MemoryNode>)
    requires Matched(t, sid, cross, IdsOf(passives), maxNodes - |passives|, actives, ranked)
    requires var primary := passives + actives;
      && |primary| <= maxNodes
      && Neighbours(t, ranked, IdsOf(primary), maxNodes - |primary|, hops)
      && hops == if decay > 0.0
                 then Hops(t, Fold(Touches(ranked, t, IdsOf(primary), decay)), maxNodes - |primary|) else []
    ensures WindowParts(t, sid, cross, maxNodes, decay, passives, actives, ranked, hops)
  {
    hide Matches;
    hide AllInScope;
    hide Neighbours;
    hide Hops;
  }

  lemma {:induction false} NoNeighbours(t: Table, ranked: seq<Scored>, primary: set<string>, slots: nat)
    ensures Neighbours(t, ranked, primary, slots, [])
  {}

  lemma {:induction false} TakeAll(ns: seq<MemoryNode>, k: int)
    requires |ns| <= k
    ensures Take(ns, k) == ns
  {}

  lemma {:induction false} PassivesFill(t: Table, sid: string, cross: bool, maxNodes: int, passives: seq<MemoryNode>)
    requires Keyed(t) && Lists(passives, t, PassiveRow(sid, cross)) && Descending(passives, CreatedAt)
    requires Presentable(t, sid, cross, passives) && |passives| >= maxNodes
    ensures var w := Take(passives, maxNodes);
      && RowsOnce(t, w) && (forall i :: 0 <= i < |w| ==> w[i].parent.None?) && Presentable(t, sid, cross, w)
      && (maxNodes >= 0 ==> |w| <= maxNodes && RidersFirst(t, sid, cross, maxNodes, w))
  {
    if maxNodes >= 0 { WindowHasRiders(t, sid, cross, maxNodes, passives, Take(passives, maxNodes)); }
    hide Lists;
    hide Descending;
    hide RidersFirst;
  }

  /** The window: the newest passive nodes alone when they fill it; otherwise all passive nodes newest
      first, then the matches, then their neighbours. Never more than asked for, no node twice, no
      child, and, over a well-formed graph, nothing from another session. */
  method GetContextWindow(store: NodeStore, sid: string, query: string, sim: string -> real, maxNodes: int,
                          minScore: real, cross: bool, decay: real)
    returns (w: seq<MemoryNode>, ghost passives: seq<MemoryNode>, ghost actives: seq<MemoryNode>,
             ghost ranked: seq<Scored>, ghost hops: seq<MemoryNode>, ghost cands: seq<MemoryNode>)
    requires Keyed(store.rows)
    ensures Lists(passives, store.rows, PassiveRow(sid, cross)) && Descending(passives, CreatedAt)
    ensures |passives| >= maxNodes ==> w == Take(passives, maxNodes)
    ensures |passives| < maxNodes ==>
      && w == passives + actives + hops
      && WindowParts(store.rows, sid, cross, maxNodes, decay, passives, actives, ranked, hops)
    ensures |passives| < maxNodes ==>
      Chosen(store.rows, sid, query, sim, minScore, cross, IdsOf(passives), maxNodes - |passives|,
             cands, actives, ranked)
    ensures maxNodes >= 0 ==> |w| <= maxNodes && RidersFirst(store.rows, sid, cross, maxNodes, w)
    ensures |passives| < maxNodes ==>
      BestMatches(store.rows, sid, cross, query, sim, minScore, IdsOf(passives), maxNodes - |passives|, actives)
    ensures |passives| < maxNodes && decay > 0.0 ==>
      BestHops(store.rows, ranked, IdsOf(passives + actives), maxNodes - |passives + actives|, hops)
    ensures RowsOnce(store.rows, w) && forall i :: 0 <= i < |w| ==> w[i].parent.None?
    ensures GraphOk(store.rows) ==> Presentable(store.rows, sid, cross, w)
  {
    hide *;
    var passive := PassiveNodes(store, sid, cross);
    passives, actives, ranked, hops, cands := passive, [], [], [], [];
    if |passive| >= maxNodes {
      PassivesFill(store.rows, sid, cross, maxNodes, passive);
      return Take(passive, maxNodes), passives, actives, ranked, hops, cands;
    }
    var matched, scores, found;
    matched, scores, found, cands := FillWindow(store, sid, query, sim, maxNodes, minScore, cross, decay, passive);
    actives, ranked, hops := matched, scores, found;
    PartsMakeWindow(store.rows, sid, cross, maxNodes, decay, passives, actives, ranked, hops);
    TakeAll(passive + matched + found, maxNodes);
    w := Take(passive + matched + found, maxNodes);
    assert w == passive + (matched + found);
    WindowHasRiders(store.rows, sid, cross, maxNodes, passive, w);
  }
}
