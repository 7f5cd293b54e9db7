// The node store: tables held in memory, updated in place. SQL leaves the order of rows open unless a
// query sorts them, so the listings return their rows in an arbitrary order.
module NodeTables {
  import opened Sequences
  import opened Text
  import opened Machine
  import opened Graph
  import opened Ranking

  ghost predicate Keyed(t: Table) { forall id :: id in t ==> t[id].id == id }

  /** The rows that satisfy a condition. */
  function Selected(t: Table, cond: MemoryNode -> bool): set<MemoryNode> {
    set id | id in t && cond(t[id]) :: t[id]
  }

  /** A listing: each selected row exactly once, in any order. */
  ghost predicate Lists(r: seq<MemoryNode>, t: Table, cond: MemoryNode -> bool) {
    multiset(r) == multiset(Selected(t, cond))
  }

  predicate InScope(n: MemoryNode, sid: string, cross: bool) { sid == "" || cross || n.session == sid }

  function PassiveRow(sid: string, cross: bool): MemoryNode -> bool {
    (n: MemoryNode) => !n.recall.ActiveOnly? && n.parent.None? && InScope(n, sid, cross)
  }

  function ActiveRow(sid: string, cross: bool): MemoryNode -> bool {
    (n: MemoryNode) => !n.recall.PassiveOnly? && n.embedded && n.parent.None? && InScope(n, sid, cross)
  }

  function ChildRow(parent: string): MemoryNode -> bool {
    (n: MemoryNode) => n.parent == Some(parent)
  }

  function CreatedAt(n: MemoryNode): real { n.createdAt }

  /** The rows of the given ids, in their order; missing ids are dropped. */
  function Fetch(t: Table, ids: seq<string>): seq<MemoryNode> {
    if ids == [] then []
    else Fetch(t, ids[..|ids| - 1]) + (if ids[|ids| - 1] in t then [t[ids[|ids| - 1]]] else [])
  }

  lemma {:induction false} Twice<T>(r: seq<T>, i: nat, j: nat)
    requires i < j < |r| && r[i] == r[j]
    ensures multiset(r)[r[i]] >= 2
  {
    assert r == r[..i] + [r[i]] + r[i + 1..j] + [r[j]] + r[j + 1..];
  }

  lemma {:induction false} FromSet<T>(r: seq<T>, s: set<T>)
    requires multiset(r) == multiset(s)
    ensures forall i, j :: 0 <= i < j < |r| ==> r[i] != r[j]
    ensures forall x :: x in r <==> x in s
  {
    forall i, j | 0 <= i < j < |r| ensures r[i] != r[j] {
      assert multiset(s)[r[i]] <= 1;
      if r[i] == r[j] { Twice(r, i, j); }
    }
    forall x ensures x in r <==> x in s { assert x in multiset(r) <==> x in multiset(s); }
  }

  /** The listing as the caller sees it: rows of the table, no id twice, all that satisfy the condition. */
  lemma {:induction false} ListingIds(r: seq<MemoryNode>, t: Table, cond: MemoryNode -> bool)
    requires Keyed(t) && Lists(r, t, cond)
    ensures forall i :: 0 <= i < |r| ==> r[i].id in t && t[r[i].id] == r[i] && cond(r[i])
    ensures forall i, j :: 0 <= i < j < |r| ==> r[i].id != r[j].id
    ensures forall id :: id in t && cond(t[id]) ==> t[id] in r
  {
    FromSet(r, Selected(t, cond));
    forall i | 0 <= i < |r| ensures r[i].id in t && t[r[i].id] == r[i] && cond(r[i]) {
      assert r[i] in Selected(t, cond);
    }
  }

  lemma {:induction false} ListedAre(r: seq<MemoryNode>, t: Table, cond: MemoryNode -> bool)
    requires Keyed(t) && Lists(r, t, cond)
    ensures forall n :: n in r <==> n.id in t && t[n.id] == n && cond(n)
    ensures forall i, j :: 0 <= i < j < |r| ==> r[i].id != r[j].id
  {
    ListingIds(r, t, cond);
    hide Lists;
    forall n | n in r ensures n.id in t && t[n.id] == n && cond(n) {
      var i :| 0 <= i < |r| && r[i] == n;
    }
  }

  lemma {:induction false} SomeOrder<T>(s: set<T>) returns (r: seq<T>)
    ensures multiset(r) == multiset(s)
  {
    r := [];
    if s != {} {
      var x :| x in s;
      r := SomeOrder(s - {x});
      assert multiset(s) == multiset(s - {x}) + multiset{x};
      r := r + [x];
    }
  }

  // ---- Filtering a listing ----

  function AndAlso(c: MemoryNode -> bool, d: MemoryNode -> bool): MemoryNode -> bool {
    (n: MemoryNode) => c(n) && d(n)
  }

  function Filter(ns: seq<MemoryNode>, cond: MemoryNode -> bool): seq<MemoryNode> {
    if ns == [] then []
    else Filter(ns[..|ns| - 1], cond) + (if cond(ns[|ns| - 1]) then [ns[|ns| - 1]] else [])
  }

  lemma {:induction false} FilterKeeps(ns: seq<MemoryNode>, cond: MemoryNode -> bool)
    ensures forall n :: multiset(Filter(ns, cond))[n] == if cond(n) then multiset(ns)[n] else 0
  {
    if ns != [] {
      FilterKeeps(ns[..|ns| - 1], cond);
      assert ns == ns[..|ns| - 1] + [ns[|ns| - 1]];
    }
  }

  /** Filtering a listing lists the rows that satisfy both conditions. */
  lemma {:induction false} FilterLists(ns: seq<MemoryNode>, t: Table, c: MemoryNode -> bool, d: MemoryNode -> bool)
    requires Lists(ns, t, c)
    ensures Lists(Filter(ns, d), t, AndAlso(c, d))
  {
    FilterKeeps(ns, d);
    var all, some := Selected(t, c), Selected(t, AndAlso(c, d));
    forall n ensures multiset(Filter(ns, d))[n] == multiset(some)[n] {
      assert n in some <==> n in all && d(n);
      assert multiset(ns)[n] == multiset(all)[n];
    }
  }

  method FilterNodes(ns: seq<MemoryNode>, cond: MemoryNode -> bool) returns (r: seq<MemoryNode>)
    ensures r == Filter(ns, cond)
  {
    r := [];
    ghost var done: seq<MemoryNode> := [];
    for i := 0 to |ns|
      invariant done == ns[..i] && r == Filter(done, cond)
    {
      assert (done + [ns[i]])[..i] == done;
      if cond(ns[i]) { r := r + [ns[i]]; }
      done := done + [ns[i]];
    }
    assert done == ns;
  }

  /** The selected rows among those already seen. */
  ghost function SelectedOutside(t: Table, cond: MemoryNode -> bool, todo: set<string>): set<MemoryNode> {
    set id | id in t && id !in todo && cond(t[id]) :: t[id]
  }

  lemma {:induction false} SelectOne(t: Table, cond: MemoryNode -> bool, todo: set<string>, id: string)
    requires Keyed(t) && id in todo && id in t
    ensures var before, after := SelectedOutside(t, cond, todo), SelectedOutside(t, cond, todo - {id});
      if cond(t[id]) then after == before + {t[id]} && t[id] !in before else after == before
  {
    var before, after := SelectedOutside(t, cond, todo), SelectedOutside(t, cond, todo - {id});
    forall x | x in t && t[x] == t[id] ensures x == id { assert t[x].id == x; }
    if cond(t[id]) { assert after == before + {t[id]}; } else { assert after == before; }
  }

  /** The tags of some nodes. */
  function TagsOf(ns: seq<MemoryNode>): set<string> {
    if ns == [] then {} else Elems(ns[0].tags) + TagsOf(ns[1..])
  }

  /** A brief that is not blank replaces the session's. */
  function WithBrief(briefs: map<string, string>, sid: string, brief: string): map<string, string> {
    if Strip(brief) != "" then briefs[sid := Strip(brief)] else briefs
  }

  class NodeStore {
    var rows: Table
    var raws: map<string, seq<Turn>>
    var briefs: map<string, string>
    var tags: set<string>

    constructor ()
      ensures rows == map[] && raws == map[] && briefs == map[] && tags == {}
    {
      rows, raws, briefs, tags := map[], map[], map[], {};
    }

    method SaveNode(n: MemoryNode)
      modifies this`rows, this`tags
      ensures rows == Save(old(rows), n)
      ensures tags == old(tags) + Elems(n.tags)
    {
      rows := rows[n.id := n];
      ghost var done: seq<string> := [];
      for i := 0 to |n.tags|
        invariant rows == Save(old(rows), n) && done == n.tags[..i] && tags == old(tags) + Elems(done)
      {
        tags := tags + {n.tags[i]};
        done := done + [n.tags[i]];
      }
      assert done == n.tags;
    }

    method SaveRawTurns(id: string, turns: seq<Turn>)
      modifies this`raws
      ensures raws == if turns == [] then old(raws) - {id} else old(raws)[id := turns]
    {
      raws := raws - {id};
      if turns != [] { raws := raws[id := turns]; }
    }

    method GetRawTurns(id: string) returns (turns: seq<Turn>)
      ensures turns == if id in raws then raws[id] else []
    {
      turns := if id in raws then raws[id] else [];
    }

    method SaveSessionBrief(sid: string, brief: string)
      modifies this`briefs
      ensures briefs == old(briefs)[sid := brief]
    {
      briefs := briefs[sid := brief];
    }

    method AddBidirectionalLink(a: string, b: string)
      modifies this`rows
      ensures rows == Link(old(rows), a, b)
    {
      if a == b || a !in rows || b !in rows { return; }
      var aLinks, bLinks := rows[a].links, rows[b].links;
      if b !in aLinks {
        aLinks := aLinks + [b];
        rows := rows[a := rows[a].(links := aLinks)];
      }
      if a !in bLinks {
        bLinks := bLinks + [a];
        rows := rows[b := rows[b].(links := bLinks)];
      }
    }

    /** A table scan: the row order is the database's choice. */
    method Select(cond: MemoryNode -> bool) returns (r: seq<MemoryNode>)
      requires Keyed(rows)
      ensures Lists(r, rows, cond)
    {
      r := [];
      var todo := rows.Keys;
      while todo != {}
        invariant todo <= rows.Keys
        invariant multiset(r) == multiset(SelectedOutside(rows, cond, todo))
      {
        var id :| id in todo;
        SelectOne(rows, cond, todo, id);
        hide SelectedOutside;
        todo := todo - {id};
        if cond(rows[id]) { r := r + [rows[id]]; }
      }
    }

    method ListPassive(sid: string, cross: bool) returns (r: seq<MemoryNode>)
      requires Keyed(rows)
      ensures Lists(r, rows, PassiveRow(sid, cross)) && Descending(r, CreatedAt)
      ensures forall n :: n in r <==>
        && n.id in rows && rows[n.id] == n && (n.recall == PassiveOnly || n.recall == Both)
        && n.parent == None && (sid == "" || cross || n.session == sid)
      ensures forall i, j :: 0 <= i < j < |r| ==> r[i].id != r[j].id && r[i].createdAt >= r[j].createdAt
    {
      r := Select(PassiveRow(sid, cross));
      SortDescSorts(r, CreatedAt);
      r := SortDesc(r, CreatedAt);
      ListedAre(r, rows, PassiveRow(sid, cross));
    }

    method ListActiveWithEmbeddings(sid: string, cross: bool) returns (r: seq<MemoryNode>)
      requires Keyed(rows)
      ensures Lists(r, rows, ActiveRow(sid, cross))
      ensures forall n :: n in r <==>
        && n.id in rows && rows[n.id] == n && (n.recall == ActiveOnly || n.recall == Both) && n.embedded
        && n.parent == None && (sid == "" || cross || n.session == sid)
      ensures forall i, j :: 0 <= i < j < |r| ==> r[i].id != r[j].id
    {
      r := Select(ActiveRow(sid, cross));
      ListedAre(r, rows, ActiveRow(sid, cross));
    }

    method ListLinkedNodes(parent: string) returns (r: seq<MemoryNode>)
      requires Keyed(rows)
      ensures Lists(r, rows, ChildRow(parent))
      ensures forall n :: n in r <==> n.id in rows && rows[n.id] == n && n.parent == Some(parent)
      ensures forall i, j :: 0 <= i < j < |r| ==> r[i].id != r[j].id && r[i].createdAt <= r[j].createdAt
    {
      r := Select(ChildRow(parent));
      SortDescSorts(r, n => -CreatedAt(n));
      r := SortDesc(r, n => -CreatedAt(n));
      ListedAre(r, rows, ChildRow(parent));
    }

    method GetNodes(ids: seq<string>) returns (r: seq<MemoryNode>)
      ensures r == Fetch(rows, ids)
    {
      r := [];
      ghost var done: seq<string> := [];
      for i := 0 to |ids|
        invariant done == ids[..i] && r == Fetch(rows, done)
      {
        assert (done + [ids[i]])[..|done|] == done;
        if ids[i] in rows { r := r + [rows[ids[i]]]; }
        done := done + [ids[i]];
      }
      assert done == ids;
    }
  }
}
