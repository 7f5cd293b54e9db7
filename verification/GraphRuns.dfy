// The worker's graph writes in a row: cross-linking a node, and saving a bundle's children and parent.
module GraphRuns {
  import opened Sequences
  import opened Text
  import opened Graph

  ghost predicate Reaches(s: Store, t: Store, topK: nat) {
    exists ops :: Legal(ops, s, topK) && Run(ops, s, topK) == t
  }

  lemma {:induction false} Stay(s: Store, topK: nat)
    ensures Reaches(s, s, topK)
  {
    assert Legal([], s, topK) && Run([], s, topK) == s;
  }

  lemma {:induction false} RunAppend(ops: seq<Op>, more: seq<Op>, s: Store, topK: nat)
    requires Legal(ops, s, topK) && Legal(more, Run(ops, s, topK), topK)
    ensures Legal(ops + more, s, topK) && Run(ops + more, s, topK) == Run(more, Run(ops, s, topK), topK)
    decreases |ops|
  {
    hide Apply;
    if ops == [] {
      assert ops + more == more;
    } else {
      assert (ops + more)[0] == ops[0] && (ops + more)[1..] == ops[1..] + more;
      RunAppend(ops[1..], more, Apply(s, ops[0]), topK);
    }
  }

  lemma {:induction false} Then(s: Store, t: Store, u: Store, topK: nat)
    requires Reaches(s, t, topK) && Reaches(t, u, topK)
    ensures Reaches(s, u, topK)
  {
    var ops :| Legal(ops, s, topK) && Run(ops, s, topK) == t;
    var more :| Legal(more, t, topK) && Run(more, t, topK) == u;
    RunAppend(ops, more, s, topK);
  }

  lemma {:induction false} ThenOp(s: Store, t: Store, op: Op, topK: nat)
    requires Reaches(s, t, topK) && Enabled(t, op, topK)
    ensures Reaches(s, Apply(t, op), topK)
  {
    var u := Apply(t, op);
    hide Apply;
    hide Enabled;
    assert Legal([op][1..], u, topK) && Run([op][1..], u, topK) == u;
    assert Legal([op], t, topK) && Run([op], t, topK) == u;
    Then(s, t, u, topK);
  }

  function LinkAll(t: Table, id: string, hits: seq<string>): Table
    decreases |hits|
  {
    if hits == [] then t else LinkAll(Link(t, id, hits[0]), id, hits[1..])
  }

  function SaveAll(t: Table, ns: seq<MemoryNode>): Table
    decreases |ns|
  {
    if ns == [] then t else SaveAll(Save(t, ns[0]), ns[1..])
  }

  lemma {:induction false} LinkRuns(s: Store, t: Table, id: string, hits: seq<string>, topK: nat)
    requires Reaches(s, Store(t, Linking(id, hits)), topK)
    ensures Reaches(s, Store(LinkAll(t, id, hits), Linking(id, [])), topK)
    decreases |hits|
  {
    if hits != [] {
      ThenOp(s, Store(t, Linking(id, hits)), LinkNext, topK);
      hide Link;
      LinkRuns(s, Link(t, id, hits[0]), id, hits[1..], topK);
    }
  }

  lemma {:induction false} SaveRuns(s: Store, t: Table, todo: seq<MemoryNode>, p: MemoryNode, topK: nat)
    requires Reaches(s, Store(t, Bundling(todo, p)), topK)
    ensures Reaches(s, Store(Save(SaveAll(t, todo), p), Resting), topK)
    decreases |todo|
  {
    ThenOp(s, Store(t, Bundling(todo, p)), SaveNext, topK);
    hide Save;
    if todo != [] { SaveRuns(s, Save(t, todo[0]), todo[1..], p, topK); }
  }

  /** An id that no row has or names as its parent. */
  ghost predicate Unused(t: Table, id: string) { id !in t && forall x :: x in t ==> t[x].parent != Some(id) }

  lemma {:induction false} LinkKeeps(t: Table, a: string, b: string)
    ensures Link(t, a, b).Keys == t.Keys
    ensures forall x :: x in t ==> Link(t, a, b)[x].(links := []) == t[x].(links := [])
  {}

  lemma {:induction false} LinkAllKeeps(t: Table, id: string, hits: seq<string>)
    ensures LinkAll(t, id, hits).Keys == t.Keys
    ensures forall x :: x in t ==> LinkAll(t, id, hits)[x].(links := []) == t[x].(links := [])
    decreases |hits|
  {
    if hits != [] {
      LinkKeeps(t, id, hits[0]);
      LinkAllKeeps(Link(t, id, hits[0]), id, hits[1..]);
      hide Link;
      var u := Link(t, id, hits[0]);
      forall x | x in t ensures LinkAll(u, id, hits[1..])[x].(links := []) == t[x].(links := []) {
        assert LinkAll(u, id, hits[1..])[x].(links := []) == u[x].(links := []);
      }
    }
  }

  lemma {:induction false} UnusedAfterLinks(t: Table, id: string, hits: seq<string>, other: string)
    requires Unused(t, other)
    ensures Unused(LinkAll(t, id, hits), other)
  {
    LinkAllKeeps(t, id, hits);
    var u := LinkAll(t, id, hits);
    hide LinkAll;
    forall x | x in u ensures u[x].parent != Some(other) {
      assert u[x].(links := []).parent == t[x].(links := []).parent;
    }
  }

  lemma {:induction false} UnusedAfterSaves(t: Table, ns: seq<MemoryNode>, other: string)
    requires Unused(t, other)
    requires forall i :: 0 <= i < |ns| ==> ns[i].id != other && ns[i].parent != Some(other)
    ensures Unused(SaveAll(t, ns), other)
    decreases |ns|
  {
    if ns != [] { UnusedAfterSaves(Save(t, ns[0]), ns[1..], other); }
  }

  lemma {:induction false} SaveAllKeys(t: Table, ns: seq<MemoryNode>)
    ensures SaveAll(t, ns).Keys == t.Keys + (set x | x in Ids(ns))
    decreases |ns|
  {
    if ns != [] {
      SaveAllKeys(Save(t, ns[0]), ns[1..]);
      assert (set x | x in Ids(ns)) == {ns[0].id} + set x | x in Ids(ns[1..]);
    }
  }

  /** Saving a compacted node and linking it to its hits is a run of the graph's operations. */
  lemma {:induction false} CompactionReaches(t: Table, n: MemoryNode, hits: seq<string>, topK: nat)
    requires Compacted(n) && Unused(t, n.id)
    requires |hits| <= topK && Distinct(hits)
    requires forall i :: 0 <= i < |hits| ==> IsPeer(Save(t, n), n.id, hits[i])
    ensures Reaches(Store(t, Resting), Store(LinkAll(Save(t, n), n.id, hits), Resting), topK)
  {
    var s := Store(t, Resting);
    Stay(s, topK);
    ThenOp(s, s, SaveOwn(n), topK);
    var u := Save(t, n);
    ThenOp(s, Store(u, JustSaved(n.id)), StartLinking(hits), topK);
    LinkRuns(s, u, n.id, hits, topK);
    hide LinkAll;
    ThenOp(s, Store(LinkAll(u, n.id, hits), Linking(n.id, [])), Rest, topK);
  }

  /** Saving a bundle is a run of the graph's operations. */
  lemma {:induction false} BundleReaches(t: Table, children: seq<MemoryNode>, p: MemoryNode, topK: nat)
    requires Bundle(Store(t, Resting), children, p)
    ensures Reaches(Store(t, Resting), Store(Save(SaveAll(t, children), p), Resting), topK)
  {
    var s := Store(t, Resting);
    Stay(s, topK);
    ThenOp(s, s, StartBundle(children, p), topK);
    SaveRuns(s, t, children, p, topK);
  }
}
