// The memory graph: the node table and the worker's writes to it, one at a time. Other threads may
// save plain nodes between any two of them, and the worker may fail between any two.
module Graph {
  import opened Sequences
  import opened Text

  datatype Recall = PassiveOnly | ActiveOnly | Both

  datatype MemoryNode = MemoryNode(
    id: string,
    summary: string,
    recall: Recall,
    session: string,         // "" for none
    reason: string,
    createdAt: real,
    embedded: bool,
    parent: Option<string>,
    links: seq<string>,
    tags: seq<string>)

  type Table = map<string, MemoryNode>

  const PARENT_REASON := "bundle_parent"
  const CHILD_REASON := "bundle_child"
  const MAX_CHILDREN := 12

  predicate IsChild(n: MemoryNode) { n.parent.Some? }
  predicate IsParent(n: MemoryNode) { n.parent.None? && n.reason == PARENT_REASON }
  predicate IsPlain(n: MemoryNode) { n.parent.None? && n.reason != PARENT_REASON }

  // ---- Table operations ----

  function Save(t: Table, n: MemoryNode): Table { t[n.id := n] }

  function Append(links: seq<string>, id: string): seq<string> { if id in links then links else links + [id] }

  /** `add_bidirectional_link`: nothing unless both rows exist and differ. */
  function Link(t: Table, a: string, b: string): Table {
    if a == b || a !in t || b !in t then t
    else t[a := t[a].(links := Append(t[a].links, b))][b := t[b].(links := Append(t[b].links, a))]
  }

  // ---- The invariant ----

  /** Similarity links of a plain node: distinct, to other plain nodes of its session, and mutual. */
  ghost predicate PlainOk(t: Table, n: MemoryNode) {
    && Distinct(n.links)
    && forall l :: l in n.links ==>
         l != n.id && l in t && IsPlain(t[l]) && t[l].session == n.session && n.id in t[l].links
  }

  /** A child is hidden: no links, no embedding; its parent, once saved, lists it. */
  ghost predicate ChildOk(t: Table, n: MemoryNode) {
    && n.parent.Some? && n.links == [] && !n.embedded
    && (n.parent.value in t ==>
          IsParent(t[n.parent.value]) && n.id in t[n.parent.value].links && t[n.parent.value].session == n.session)
  }

  /** A bundle parent's links are 1 to 12 children of its own. */
  ghost predicate ParentOk(t: Table, n: MemoryNode) {
    && 1 <= |n.links| <= MAX_CHILDREN && Distinct(n.links)
    && forall l :: l in n.links ==> l in t && t[l].parent == Some(n.id) && t[l].session == n.session
  }

  ghost predicate RowOk(t: Table, n: MemoryNode) {
    if IsChild(n) then ChildOk(t, n) else if IsParent(n) then ParentOk(t, n) else PlainOk(t, n)
  }

  ghost predicate GraphOk(t: Table) {
    forall id :: id in t ==> t[id].id == id && RowOk(t, t[id])
  }

  /** `list_linked_nodes`, as a set of ids. */
  function ChildrenOf(t: Table, parent: string): set<string> {
    set id | id in t && t[id].parent == Some(parent)
  }

  /** A bundle parent's links are exactly the nodes that name it as their parent. */
  lemma {:induction false} LinksAreChildren(t: Table, p: string)
    requires GraphOk(t) && p in t && IsParent(t[p])
    ensures ChildrenOf(t, p) == set l | l in t[p].links
    ensures 1 <= |t[p].links| <= MAX_CHILDREN
  {
    assert RowOk(t, t[p]);
    forall id | id in ChildrenOf(t, p) ensures id in t[p].links { assert RowOk(t, t[id]); }
  }

  // ---- The writers ----

  /** What the worker is in the middle of. */
  datatype Phase =
    | Resting
    | JustSaved(id: string)
    | Linking(id: string, hits: seq<string>)
    | Bundling(todo: seq<MemoryNode>, parent: MemoryNode)

  datatype Store = Store(table: Table, phase: Phase)

  datatype Op =
    | SaveOwn(node: MemoryNode)               // the worker saves a compacted node
    | SaveOther(node: MemoryNode)             // another thread saves one
    | StartLinking(hits: seq<string>)
    | LinkNext
    | StartBundle(children: seq<MemoryNode>, parent: MemoryNode)
    | SaveNext                                // the next child, or the parent after the last one
    | Rest                                    // the phase is finished, or the worker failed

  /** An id that nobody uses yet. */
  ghost predicate Fresh(s: Store, id: string) {
    && id !in s.table
    && (forall x :: x in s.table ==> s.table[x].parent != Some(id))
    && (s.phase.Bundling? ==> id != s.phase.parent.id)
    && (s.phase.Bundling? ==> forall i :: 0 <= i < |s.phase.todo| ==> s.phase.todo[i].id != id)
  }

  ghost predicate Compacted(n: MemoryNode) { IsPlain(n) && n.links == [] }

  /** The peers that the cross-link search may return for a node. */
  ghost predicate IsPeer(t: Table, id: string, peer: string) {
    && id in t && peer in t && peer != id
    && !t[peer].recall.PassiveOnly? && t[peer].embedded
    && IsPlain(t[peer]) && t[peer].session == t[id].session
  }

  ghost predicate ChildFor(c: MemoryNode, p: MemoryNode) {
    && c.parent == Some(p.id) && c.reason == CHILD_REASON && c.session == p.session
    && c.links == [] && !c.embedded && c.recall == ActiveOnly
  }

  function Ids(ns: seq<MemoryNode>): (r: seq<string>)
    ensures |r| == |ns| && forall i :: 0 <= i < |ns| ==> r[i] == ns[i].id
  {
    if ns == [] then [] else [ns[0].id] + Ids(ns[1..])
  }

  ghost predicate Bundle(s: Store, children: seq<MemoryNode>, p: MemoryNode) {
    && IsParent(p) && p.links == Ids(children)
    && 1 <= |children| <= MAX_CHILDREN
    && Fresh(s, p.id) && Distinct(Ids(children))
    && forall i :: 0 <= i < |children| ==>
         ChildFor(children[i], p) && Fresh(s, children[i].id) && children[i].id != p.id
  }

  ghost predicate Enabled(s: Store, op: Op, topK: nat) {
    match op
    case SaveOwn(n) => s.phase.Resting? && Compacted(n) && Fresh(s, n.id)
    case SaveOther(n) => Compacted(n) && Fresh(s, n.id)
    case StartLinking(hits) =>
      s.phase.JustSaved? && |hits| <= topK && Distinct(hits)
      && forall i :: 0 <= i < |hits| ==> IsPeer(s.table, s.phase.id, hits[i])
    case LinkNext => s.phase.Linking? && s.phase.hits != []
    case StartBundle(children, p) => s.phase.Resting? && Bundle(s, children, p)
    case SaveNext => s.phase.Bundling?
    case Rest => true
  }

  function Apply(s: Store, op: Op): Store
    requires op.StartLinking? ==> s.phase.JustSaved?
    requires op.LinkNext? ==> s.phase.Linking? && s.phase.hits != []
    requires op.SaveNext? ==> s.phase.Bundling?
  {
    match op
    case SaveOwn(n) => Store(Save(s.table, n), JustSaved(n.id))
    case SaveOther(n) => s.(table := Save(s.table, n))
    case StartLinking(hits) => s.(phase := Linking(s.phase.id, hits))
    case LinkNext =>
      Store(Link(s.table, s.phase.id, s.phase.hits[0]), Linking(s.phase.id, s.phase.hits[1..]))
    case StartBundle(children, p) => s.(phase := Bundling(children, p))
    case SaveNext =>
      if s.phase.todo == [] then Store(Save(s.table, s.phase.parent), Resting)
      else Store(Save(s.table, s.phase.todo[0]), Bundling(s.phase.todo[1..], s.phase.parent))
    case Rest => s.(phase := Resting)
  }

  ghost predicate Legal(ops: seq<Op>, s: Store, topK: nat)
    decreases |ops|
  {
    ops == [] || (Enabled(s, ops[0], topK) && Legal(ops[1..], Apply(s, ops[0]), topK))
  }

  ghost function Run(ops: seq<Op>, s: Store, topK: nat): Store
    requires Legal(ops, s, topK)
    decreases |ops|
  {
    if ops == [] then s else Run(ops[1..], Apply(s, ops[0]), topK)
  }

  // ---- Every write keeps the graph well formed ----

  lemma {:induction false} RowOkUnaffected(t: Table, u: Table, n: MemoryNode)
    requires RowOk(t, n)
    requires forall x :: x in t && x in n.links ==> x in u && u[x] == t[x]
    requires IsChild(n) ==> (n.parent.value in t <==> n.parent.value in u)
    requires IsChild(n) && n.parent.value in t ==> u[n.parent.value] == t[n.parent.value]
    ensures RowOk(u, n)
  {}

  lemma {:induction false} SavePlainOk(s: Store, n: MemoryNode)
    requires GraphOk(s.table) && Compacted(n) && Fresh(s, n.id)
    ensures GraphOk(Save(s.table, n))
  {
    var t := s.table;
    var u := Save(t, n);
    forall id | id in u ensures u[id].id == id && RowOk(u, u[id]) {
      if id != n.id { RowOkUnaffected(t, u, t[id]); }
    }
  }

  lemma {:induction false} AppendFacts(links: seq<string>, id: string)
    requires Distinct(links)
    ensures Distinct(Append(links, id)) && forall x :: x in Append(links, id) <==> x in links || x == id
  {}

  lemma {:induction false} LinkOk(t: Table, a: string, b: string)
    requires GraphOk(t) && a in t && IsPlain(t[a]) && IsPeer(t, a, b)
    ensures GraphOk(Link(t, a, b))
  {
    var u := Link(t, a, b);
    assert RowOk(t, t[a]) && RowOk(t, t[b]);
    AppendFacts(t[a].links, b);
    AppendFacts(t[b].links, a);
    forall id | id in u ensures u[id].id == id && RowOk(u, u[id]) {
      assert RowOk(t, t[id]);
      if id != a && id != b { OtherRowOk(t, a, b, id); }
    }
  }

  lemma {:induction false} OtherRowOk(t: Table, a: string, b: string, id: string)
    requires GraphOk(t) && a in t && IsPlain(t[a]) && IsPeer(t, a, b) && id in t && id != a && id != b
    ensures Link(t, a, b)[id] == t[id] && RowOk(Link(t, a, b), t[id])
  {
    assert RowOk(t, t[id]);
    hide Append;
  }

  /** What a bundle in progress has saved: the first k children, and nothing else names its parent. */
  ghost predicate BundleOk(t: Table, todo: seq<MemoryNode>, p: MemoryNode) {
    && IsParent(p) && p.id !in t
    && Distinct(p.links) && |todo| <= |p.links| && 1 <= |p.links| <= MAX_CHILDREN
    && var k := |p.links| - |todo|;
       && (forall i :: 0 <= i < k ==>
             p.links[i] in t && t[p.links[i]].parent == Some(p.id) && t[p.links[i]].session == p.session)
       && (forall i :: 0 <= i < |todo| ==> p.links[k + i] == todo[i].id && UnsavedChild(t, todo[i], p))
       && (forall x :: x in t && t[x].parent == Some(p.id) ==> x in p.links)
  }

  ghost predicate UnsavedChild(t: Table, c: MemoryNode, p: MemoryNode) {
    ChildFor(c, p) && c.id !in t && c.id != p.id && forall x :: x in t ==> t[x].parent != Some(c.id)
  }

  ghost predicate PhaseOk(s: Store) {
    match s.phase
    case Resting => true
    case JustSaved(id) => id in s.table && IsPlain(s.table[id])
    case Linking(id, hits) =>
      id in s.table && IsPlain(s.table[id]) && forall i :: 0 <= i < |hits| ==> IsPeer(s.table, id, hits[i])
    case Bundling(todo, p) => BundleOk(s.table, todo, p)
  }

  lemma {:induction false} SaveChildOk(t: Table, todo: seq<MemoryNode>, p: MemoryNode)
    requires GraphOk(t) && BundleOk(t, todo, p) && todo != []
    ensures GraphOk(Save(t, todo[0])) && BundleOk(Save(t, todo[0]), todo[1..], p)
  {
    var c := todo[0];
    var u := Save(t, c);
    assert UnsavedChild(t, c, p);
    forall id | id in u ensures u[id].id == id && RowOk(u, u[id]) {
      if id != c.id { RowOkUnaffected(t, u, t[id]); }
    }
    var k := |p.links| - |todo|;
    assert p.links[k + 0] == c.id;
    forall i | 0 <= i < |todo[1..]| ensures p.links[k + 1 + i] == todo[1..][i].id && UnsavedChild(u, todo[1..][i], p) {
      assert todo[1..][i] == todo[i + 1] && UnsavedChild(t, todo[i + 1], p);
      assert p.links[k + (i + 1)] == todo[i + 1].id;
    }
  }

  lemma {:induction false} SaveParentOk(t: Table, p: MemoryNode)
    requires GraphOk(t) && BundleOk(t, [], p)
    ensures GraphOk(Save(t, p))
  {
    var u := Save(t, p);
    forall l | l in p.links ensures l in t && t[l].parent == Some(p.id) && t[l].session == p.session {
      var i :| 0 <= i < |p.links| && p.links[i] == l;
    }
    forall id | id in u ensures u[id].id == id && RowOk(u, u[id]) {
      if id != p.id {
        assert RowOk(t, t[id]);
        if t[id].parent == Some(p.id) { assert id in p.links; } else { RowOkUnaffected(t, u, t[id]); }
      }
    }
  }

  lemma {:induction false} PeerStays(t: Table, u: Table, id: string, peer: string)
    requires IsPeer(t, id, peer)
    requires forall x :: x in t ==> x in u && u[x].(links := []) == t[x].(links := [])
    ensures IsPeer(u, id, peer)
  {
    assert u[peer].(links := []) == t[peer].(links := []) && u[id].(links := []) == t[id].(links := []);
  }

  /** A plain node saved by another thread does not disturb what the worker is doing. */
  lemma {:induction false} OtherSavePhase(s: Store, n: MemoryNode)
    requires PhaseOk(s) && Compacted(n) && Fresh(s, n.id)
    ensures PhaseOk(s.(table := Save(s.table, n)))
  {
    var u := Save(s.table, n);
    match s.phase
    case Linking(id, hits) =>
      forall i | 0 <= i < |hits| ensures IsPeer(u, id, hits[i]) { PeerStays(s.table, u, id, hits[i]); }
    case Bundling(todo, p) =>
      forall i | 0 <= i < |todo| ensures UnsavedChild(u, todo[i], p) { assert UnsavedChild(s.table, todo[i], p); }
    case _ =>
  }

  lemma {:induction false} LinkPhase(s: Store)
    requires PhaseOk(s) && s.phase.Linking? && s.phase.hits != []
    ensures PhaseOk(Apply(s, LinkNext))
  {
    var u := Link(s.table, s.phase.id, s.phase.hits[0]);
    forall i | 0 <= i < |s.phase.hits[1..]| ensures IsPeer(u, s.phase.id, s.phase.hits[1..][i]) {
      PeerStays(s.table, u, s.phase.id, s.phase.hits[i + 1]);
    }
  }

  lemma {:induction false} BundleStarts(s: Store, children: seq<MemoryNode>, p: MemoryNode)
    requires Bundle(s, children, p)
    ensures BundleOk(s.table, children, p)
  {
    assert Fresh(s, p.id);
    forall i | 0 <= i < |children| ensures p.links[i] == children[i].id && UnsavedChild(s.table, children[i], p) {
      assert Fresh(s, children[i].id);
    }
  }

  lemma {:induction false} GraphStep(s: Store, op: Op, topK: nat)
    requires Enabled(s, op, topK) && GraphOk(s.table) && PhaseOk(s)
    ensures GraphOk(Apply(s, op).table) && PhaseOk(Apply(s, op))
  {
    hide GraphOk;
    hide BundleOk;
    hide Fresh;
    match op
    case SaveOwn(n) => SavePlainOk(s, n);
    case SaveOther(n) => SavePlainOk(s, n); OtherSavePhase(s, n);
    case LinkNext => LinkOk(s.table, s.phase.id, s.phase.hits[0]); LinkPhase(s);
    case StartBundle(children, p) => BundleStarts(s, children, p);
    case SaveNext =>
      if s.phase.todo == [] { SaveParentOk(s.table, s.phase.parent); }
      else { SaveChildOk(s.table, s.phase.todo, s.phase.parent); }
    case _ =>
  }

  /** In every run the graph is well formed after each single write. */
  lemma {:induction false} GraphAlwaysOk(ops: seq<Op>, s: Store, topK: nat)
    requires Legal(ops, s, topK) && GraphOk(s.table) && PhaseOk(s)
    ensures GraphOk(Run(ops, s, topK).table) && PhaseOk(Run(ops, s, topK))
    decreases |ops|
  {
    if ops != [] {
      GraphStep(s, ops[0], topK);
      hide GraphOk;
      hide PhaseOk;
      GraphAlwaysOk(ops[1..], Apply(s, ops[0]), topK);
    }
  }

  // ---- The number of similarity edges ----

  function SimEdges(t: Table): set<set<string>> {
    set a, b | a in t && IsPlain(t[a]) && b in t[a].links :: {a, b}
  }

  function Plains(t: Table): set<string> { set id | id in t && IsPlain(t[id]) }

  /** Edges that the phase under way may still add. */
  function Credit(p: Phase, topK: nat): nat {
    if p.JustSaved? then topK else if p.Linking? then |p.hits| else 0
  }

  ghost predicate EdgesBounded(s: Store, topK: nat) {
    |SimEdges(s.table)| + Credit(s.phase, topK) <= topK * |Plains(s.table)|
  }

  lemma {:induction false} EdgesAfterPlain(t: Table, n: MemoryNode)
    requires n.id !in t && Compacted(n)
    ensures SimEdges(Save(t, n)) == SimEdges(t)
    ensures |Plains(Save(t, n))| == |Plains(t)| + 1
  {
    assert Plains(Save(t, n)) == Plains(t) + {n.id};
  }

  lemma {:induction false} EdgesAfterOther(t: Table, n: MemoryNode)
    requires n.id !in t && !IsPlain(n)
    ensures SimEdges(Save(t, n)) == SimEdges(t) && Plains(Save(t, n)) == Plains(t)
  {}

  /** The only link that Link adds is the one between its arguments. */
  lemma {:induction false} NewLink(t: Table, a: string, b: string, x: string, y: string)
    requires x in Link(t, a, b) && y in Link(t, a, b)[x].links
    ensures x in t && (y in t[x].links || (x == a && y == b) || (x == b && y == a))
    ensures IsPlain(Link(t, a, b)[x]) == IsPlain(t[x])
  {}

  lemma {:induction false} EdgeFrom(t: Table, a: string, b: string, x: string, y: string)
    requires x in Link(t, a, b) && IsPlain(Link(t, a, b)[x]) && y in Link(t, a, b)[x].links
    ensures {x, y} in SimEdges(t) + {{a, b}}
  {
    NewLink(t, a, b, x, y);
    hide Link;
    if y in t[x].links { assert {x, y} in SimEdges(t); } else { assert {x, y} == {a, b}; }
  }

  lemma {:induction false} PlainsAfterLink(t: Table, a: string, b: string)
    ensures Plains(Link(t, a, b)) == Plains(t)
  {}

  lemma {:induction false} EdgesAfterLink(t: Table, a: string, b: string)
    ensures |SimEdges(Link(t, a, b))| <= |SimEdges(t)| + 1
  {
    hide Link;
    var u := Link(t, a, b);
    forall e | e in SimEdges(u) ensures e in SimEdges(t) + {{a, b}} {
      var x, y :| x in u && IsPlain(u[x]) && y in u[x].links && e == {x, y};
      EdgeFrom(t, a, b, x, y);
    }
    Subset(SimEdges(u), SimEdges(t) + {{a, b}});
  }

  lemma {:induction false} Subset<T>(a: set<T>, b: set<T>)
    requires a <= b
    ensures |a| <= |b|
  {
    if a != {} {
      var x :| x in a;
      Subset(a - {x}, b - {x});
    }
  }

  lemma {:induction false} EdgesStep(s: Store, op: Op, topK: nat)
    requires Enabled(s, op, topK) && PhaseOk(s) && EdgesBounded(s, topK)
    ensures EdgesBounded(Apply(s, op), topK)
  {
    hide SimEdges;
    hide Plains;
    match op
    case SaveOwn(n) => EdgesAfterPlain(s.table, n);
    case SaveOther(n) => EdgesAfterPlain(s.table, n);
    case LinkNext =>
      EdgesAfterLink(s.table, s.phase.id, s.phase.hits[0]);
      PlainsAfterLink(s.table, s.phase.id, s.phase.hits[0]);
    case SaveNext =>
      var n := if s.phase.todo == [] then s.phase.parent else s.phase.todo[0];
      if s.phase.todo != [] { assert UnsavedChild(s.table, n, s.phase.parent); }
      EdgesAfterOther(s.table, n);
    case _ =>
  }

  /** In every run there are at most topK similarity edges per compacted node. */
  lemma {:induction false} EdgesAlwaysBounded(ops: seq<Op>, s: Store, topK: nat)
    requires Legal(ops, s, topK) && GraphOk(s.table) && PhaseOk(s) && EdgesBounded(s, topK)
    ensures EdgesBounded(Run(ops, s, topK), topK)
    decreases |ops|
  {
    if ops != [] {
      GraphStep(s, ops[0], topK);
      EdgesStep(s, ops[0], topK);
      hide GraphOk;
      hide PhaseOk;
      hide EdgesBounded;
      EdgesAlwaysBounded(ops[1..], Apply(s, ops[0]), topK);
    }
  }

  const EMPTY := Store(map[], Resting)

  /** From an empty store: symmetric links, hidden children, complete bundles, bounded edges. */
  lemma {:induction false} WorkerRunsKeepTheGraph(ops: seq<Op>, topK: nat)
    requires Legal(ops, EMPTY, topK)
    ensures var t := Run(ops, EMPTY, topK).table;
      && GraphOk(t)
      && |SimEdges(t)| <= topK * |Plains(t)|
      && (forall p :: p in t && IsParent(t[p]) ==> ChildrenOf(t, p) == (set l | l in t[p].links))
  {
    GraphAlwaysOk(ops, EMPTY, topK);
    assert SimEdges(EMPTY.table) == {};
    EdgesAlwaysBounded(ops, EMPTY, topK);
    var t := Run(ops, EMPTY, topK).table;
    forall p | p in t && IsParent(t[p]) ensures ChildrenOf(t, p) == (set l | l in t[p].links) {
      LinksAreChildren(t, p);
    }
  }
}
