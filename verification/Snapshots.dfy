// The live graph view: the server shapes the node list into a snapshot, sends the difference from the
// last snapshot, and the page applies it to its own data set.
module Snapshots {
  import opened Sequences
  import opened Text

  // ---- Shaping ----

  /** A node as the daemon reports it; "" stands for a missing parent. */
  datatype NodeIn = NodeIn(
    id: string, summary: string, tags: seq<string>, importance: string, session: string,
    parent: string, links: seq<string>)

  datatype NodeView = NodeView(
    id: string, title: string, importance: string, session: string, isChild: bool, tags: seq<string>)

  datatype EdgeKind = Sim | Parent
  datatype EdgeKey = EdgeKey(src: string, dst: string, kind: EdgeKind)
  datatype EdgeView = EdgeView(id: string, src: string, dst: string, kind: EdgeKind)

  type Nodes = map<string, NodeView>
  type Edges = map<EdgeKey, EdgeView>

  const ARROW := '\U{2192}'

  /** Python's order on strings. */
  predicate StrLe(a: string, b: string) {
    a == "" || (b != "" && (a[0] < b[0] || (a[0] == b[0] && StrLe(a[1..], b[1..]))))
  }

  function KeyOf(src: string, dst: string, kind: EdgeKind): EdgeKey {
    if kind.Sim? && !StrLe(src, dst) then EdgeKey(dst, src, kind) else EdgeKey(src, dst, kind)
  }

  lemma {:induction false} StrLeOrder(a: string, b: string)
    ensures StrLe(a, b) || StrLe(b, a)
    ensures StrLe(a, b) && StrLe(b, a) ==> a == b
  {
    if a != "" && b != "" {
      StrLeOrder(a[1..], b[1..]);
      assert a == [a[0]] + a[1..] && b == [b[0]] + b[1..];
    }
  }

  /** The strings agree up to a place where the first one is smaller. */
  ghost predicate SmallerAt(a: string, b: string, k: nat) {
    k < |a| && k < |b| && a[..k] == b[..k] && a[k] < b[k]
  }

  lemma {:induction false} SmallerShifts(c: char, a: string, b: string, k: nat)
    ensures SmallerAt([c] + a, [c] + b, k + 1) <==> SmallerAt(a, b, k)
  {
    if k < |a| && k < |b| {
      assert ([c] + a)[..k + 1] == [c] + a[..k] && ([c] + b)[..k + 1] == [c] + b[..k];
      assert ([c] + a[..k])[1..] == a[..k] && ([c] + b[..k])[1..] == b[..k];
    }
  }

  lemma {:induction false} FirstDiffers(a: string, b: string)
    requires a != "" && b != "" && a[0] != b[0]
    ensures !(a <= b) && forall k: nat :: SmallerAt(a, b, k) <==> k == 0 && a[0] < b[0]
  {
    forall k: nat ensures SmallerAt(a, b, k) <==> k == 0 && a[0] < b[0] {
      if 0 < k && k <= |a| && k <= |b| { assert a[..k][0] != b[..k][0]; }
    }
  }

  lemma {:induction false} SmallerInTails(c: char, a: string, b: string)
    ensures (exists k: nat :: SmallerAt([c] + a, [c] + b, k)) <==> exists k: nat :: SmallerAt(a, b, k)
  {
    if k: nat :| SmallerAt(a, b, k) { SmallerShifts(c, a, b, k); }
    if k: nat :| SmallerAt([c] + a, [c] + b, k) { SmallerShifts(c, a, b, k - 1); }
  }

  lemma {:induction false} PrefixInTails(c: char, a: string, b: string)
    ensures [c] + a <= [c] + b <==> a <= b
  {
    assert a == ([c] + a)[1..] && b == ([c] + b)[1..];
    if [c] + a <= [c] + b {
      assert ([c] + b)[..|a| + 1] == [c] + a && ([c] + b)[..|a| + 1] == [c] + b[..|a|];
      assert ([c] + b[..|a|])[1..] == b[..|a|];
    }
    if a <= b { assert [c] + b == ([c] + a) + b[|a|..]; }
  }

  /** It is the order of dictionaries: a prefix comes first, and else the first difference decides. */
  lemma {:induction false} StrLeIsLexicographic(a: string, b: string)
    ensures StrLe(a, b) <==> a <= b || exists k: nat :: SmallerAt(a, b, k)
  {
    if a != "" && b != "" {
      if a[0] == b[0] {
        StrLeIsLexicographic(a[1..], b[1..]);
        SmallerInTails(a[0], a[1..], b[1..]);
        PrefixInTails(a[0], a[1..], b[1..]);
        assert a == [a[0]] + a[1..] && b == [a[0]] + b[1..];
        hide SmallerAt;
      } else {
        FirstDiffers(a, b);
        if a[0] < b[0] { assert SmallerAt(a, b, 0); }
      }
    }
  }

  /** A similarity edge has one key, from whichever end it is seen. */
  lemma {:induction false} SimKeySymmetric(a: string, b: string)
    ensures KeyOf(a, b, Sim) == KeyOf(b, a, Sim)
    ensures var k := KeyOf(a, b, Sim); StrLe(k.src, k.dst) && {k.src, k.dst} == {a, b}
  {
    StrLeOrder(a, b);
  }

  function KindText(k: EdgeKind): string { if k.Sim? then "sim" else "parent" }

  function EdgeId(k: EdgeKey): string { k.src + [ARROW] + k.dst + ":" + KindText(k.kind) }

  function PayloadOf(k: EdgeKey): EdgeView { EdgeView(EdgeId(k), k.src, k.dst, k.kind) }

  function FirstLine(s: string): string {
    if s == "" || s[0] == '\n' then "" else [s[0]] + FirstLine(s[1..])
  }

  function PlainTags(tags: seq<string>): seq<string> {
    if tags == [] then []
    else (if "IMPORTANCE:" <= tags[0] then [] else [tags[0]]) + PlainTags(tags[1..])
  }

  function ViewOf(n: NodeIn): NodeView {
    var title := Prefix(FirstLine(Strip(n.summary)), 80);
    var tags := PlainTags(n.tags);
    NodeView(n.id, if title == "" then "(untitled)" else title, n.importance, n.session, n.parent != "",
             if |tags| > 4 then tags[..4] else tags)
  }

  // What a page shows of a node.

  /** The title: the first line of the summary, from its first character that is no space, up to 80 characters. */
  ghost predicate Titles(title: string, summary: string) {
    if Blank(summary) then title == "(untitled)"
    else exists k, e :: TitleIn(title, summary, k, e)
  }

  ghost predicate TitleIn(title: string, summary: string, k: nat, e: nat) {
    && k < e <= |summary| && Blank(summary[..k]) && Blank(summary[e..])
    && !IsSpace(summary[k]) && !IsSpace(summary[e - 1])
    && 0 < |title| <= 80 && k + |title| <= e && title == summary[k..k + |title|] && '\n' !in title
    && (|title| == 80 || k + |title| == e || summary[k + |title|] == '\n')
  }

  /** The first four tags that are not about importance. */
  ghost predicate ShowsTags(shown: seq<string>, tags: seq<string>) {
    exists idx: seq<nat> ::
      && |idx| == |shown| <= 4 && (forall i, j :: 0 <= i < j < |idx| ==> idx[i] < idx[j])
      && (forall i :: 0 <= i < |idx| ==> idx[i] < |tags| && shown[i] == tags[idx[i]] && !("IMPORTANCE:" <= shown[i]))
      && (forall t: nat :: t < |tags| && !("IMPORTANCE:" <= tags[t]) && t !in idx ==>
            |shown| == 4 && forall i :: 0 <= i < |idx| ==> idx[i] < t)
  }

  ghost predicate Depicts(v: NodeView, n: NodeIn) {
    && v.id == n.id && v.importance == n.importance && v.session == n.session && (v.isChild <==> n.parent != "")
    && Titles(v.title, n.summary) && ShowsTags(v.tags, n.tags)
  }

  lemma {:induction false} FirstLineIs(s: string) returns (k: nat)
    ensures k <= |s| && FirstLine(s) == s[..k] && '\n' !in s[..k] && (k < |s| ==> s[k] == '\n')
  {
    if s == "" || s[0] == '\n' {
      k := 0;
    } else {
      k := FirstLineIs(s[1..]);
      assert s[..k + 1] == [s[0]] + s[1..][..k];
      k := k + 1;
    }
  }

  lemma {:induction false} TitleIs(summary: string)
    ensures var t := Prefix(FirstLine(Strip(summary)), 80); Titles(if t == "" then "(untitled)" else t, summary)
  {
    var k, e := StripTakesEnds(summary);
    var n := FirstLineIs(Strip(summary));
    StripEmpty(summary);
    hide Strip;
    hide FirstLine;
    var t := Prefix(FirstLine(Strip(summary)), 80);
    if !Blank(summary) {
      assert !IsSpace(summary[k]) && summary[k] != '\n';
      var s := summary[k..e];
      assert s[0] == summary[k];
      assert n > 0;
      assert t == s[..|t|] == summary[k..k + |t|];
      assert |t| < |s| ==> s[|t|] == summary[k + |t|];
      TitleFits(t, summary, k, e);
    }
  }

  lemma {:induction false} TitleFits(t: string, summary: string, k: nat, e: nat)
    requires TitleIn(t, summary, k, e) && !Blank(summary)
    ensures Titles(t, summary)
  {}

  predicate OfImportance(tag: string) { "IMPORTANCE:" <= tag }

  /** The positions of the tags that are not about importance. */
  ghost predicate PlainAt(idx: seq<nat>, tags: seq<string>, plain: seq<string>) {
    && |idx| == |plain| && (forall i, j :: 0 <= i < j < |idx| ==> idx[i] < idx[j])
    && (forall i :: 0 <= i < |idx| ==>
          idx[i] < |tags| && plain[i] == tags[idx[i]] && !OfImportance(tags[idx[i]]))
    && (forall t: nat :: t < |tags| && !OfImportance(tags[t]) ==> t in idx)
  }

  lemma {:induction false} Shifted(idx: seq<nat>) returns (up: seq<nat>)
    ensures |up| == |idx| && forall i :: 0 <= i < |idx| ==> up[i] == idx[i] + 1
  {
    up := seq(|idx|, i requires 0 <= i < |idx| => idx[i] + 1);
  }

  lemma {:induction false} PlainTagsAt(tags: seq<string>) returns (idx: seq<nat>)
    ensures PlainAt(idx, tags, PlainTags(tags))
  {
    if tags == [] {
      idx := [];
    } else {
      var rest := PlainTagsAt(tags[1..]);
      var up := Shifted(rest);
      hide PlainTags;
      hide OfImportance;
      idx := (if OfImportance(tags[0]) then [] else [0]) + up;
      OneTagMore(tags, rest, up, PlainTags(tags[1..]), idx);
      TagsHead(tags);
    }
  }

  lemma {:induction false} TagsHead(tags: seq<string>)
    requires tags != []
    ensures PlainTags(tags) == (if OfImportance(tags[0]) then [] else [tags[0]]) + PlainTags(tags[1..])
  {}

  /** What is known of the later tags, at their positions in the whole list. */
  lemma {:induction false} LaterTags(tags: seq<string>, rest: seq<nat>, up: seq<nat>, plain: seq<string>)
    requires tags != [] && PlainAt(rest, tags[1..], plain)
    requires |up| == |rest| && forall i :: 0 <= i < |rest| ==> up[i] == rest[i] + 1
    ensures |up| == |plain| && forall i, j :: 0 <= i < j < |up| ==> up[i] < up[j]
    ensures forall i :: 0 <= i < |up| ==>
      0 < up[i] < |tags| && plain[i] == tags[up[i]] && !OfImportance(tags[up[i]])
    ensures forall t: nat :: 0 < t < |tags| && !OfImportance(tags[t]) ==> t in up
  {
    hide OfImportance;
    forall i | 0 <= i < |up| ensures up[i] < |tags| && plain[i] == tags[up[i]] && !OfImportance(tags[up[i]]) {
      assert tags[1..][rest[i]] == tags[up[i]];
    }
    forall t: nat | 0 < t < |tags| && !OfImportance(tags[t]) ensures t in up {
      var p: nat := t - 1;
      assert tags[1..][p] == tags[t] && p in rest;
      var i: nat :| i < |rest| && rest[i] == p;
      assert up[i] == t;
    }
  }

  lemma {:induction false} OneTagMore(tags: seq<string>, rest: seq<nat>, up: seq<nat>, plain: seq<string>,
                                      idx: seq<nat>)
    requires tags != [] && PlainAt(rest, tags[1..], plain)
    requires |up| == |rest| && forall i :: 0 <= i < |rest| ==> up[i] == rest[i] + 1
    requires idx == (if OfImportance(tags[0]) then [] else [0]) + up
    ensures PlainAt(idx, tags, (if OfImportance(tags[0]) then [] else [tags[0]]) + plain)
  {
    hide *;
    LaterTags(tags, rest, up, plain);
    if OfImportance(tags[0]) {
      FirstTagDropped(tags, up, plain);
      assert idx == up;
      assert [] + plain == plain;
    } else {
      FirstTagKept(tags, up, plain);
    }
  }

  lemma {:induction false} FirstTagDropped(tags: seq<string>, up: seq<nat>, plain: seq<string>)
    requires tags != [] && OfImportance(tags[0])
    requires |up| == |plain| && forall i, j :: 0 <= i < j < |up| ==> up[i] < up[j]
    requires forall i :: 0 <= i < |up| ==>
      0 < up[i] < |tags| && plain[i] == tags[up[i]] && !OfImportance(tags[up[i]])
    requires forall t: nat :: 0 < t < |tags| && !OfImportance(tags[t]) ==> t in up
    ensures PlainAt(up, tags, plain)
  {
    hide OfImportance;
  }

  lemma {:induction false} FirstTagKept(tags: seq<string>, up: seq<nat>, plain: seq<string>)
    requires tags != [] && !OfImportance(tags[0])
    requires |up| == |plain| && forall i, j :: 0 <= i < j < |up| ==> up[i] < up[j]
    requires forall i :: 0 <= i < |up| ==>
      0 < up[i] < |tags| && plain[i] == tags[up[i]] && !OfImportance(tags[up[i]])
    requires forall t: nat :: 0 < t < |tags| && !OfImportance(tags[t]) ==> t in up
    ensures PlainAt([0] + up, tags, [tags[0]] + plain)
  {
    hide OfImportance;
    var idx: seq<nat> := [0] + up;
    assert idx[0] == 0;
    forall t: nat | t < |tags| && !OfImportance(tags[t]) ensures t in idx {
      if t > 0 {
        var i: nat :| i < |up| && up[i] == t;
        assert idx[i + 1] == t;
      }
    }
  }

  lemma {:induction false} TagsShown(tags: seq<string>)
    ensures var plain := PlainTags(tags); ShowsTags(if |plain| > 4 then plain[..4] else plain, tags)
  {
    var idx := PlainTagsAt(tags);
    hide PlainTags;
    var plain := PlainTags(tags);
    var shown, at := if |plain| > 4 then plain[..4] else plain, if |idx| > 4 then idx[..4] else idx;
    forall t: nat | t < |tags| && !("IMPORTANCE:" <= tags[t]) && t !in at
      ensures |shown| == 4 && forall i :: 0 <= i < |at| ==> at[i] < t
    {
      var j: nat :| j < |idx| && idx[j] == t;
      assert forall i :: 0 <= i < |at| ==> at[i] in at && at[i] == idx[i];
    }
  }

  /** What is shown of a node. */
  lemma {:induction false} ViewDepicts(n: NodeIn)
    ensures Depicts(ViewOf(n), n)
  {
    TitleIs(n.summary);
    TagsShown(n.tags);
    hide Titles;
    hide ShowsTags;
    hide FirstLine;
    hide PlainTags;
    hide Strip;
  }

  ghost predicate DepictsLast(v: NodeView, ns: seq<NodeIn>, id: string, i: nat) {
    && i < |ns| && ns[i].id == id && Depicts(v, ns[i])
    && forall j :: i < j < |ns| ==> ns[j].id != id
  }

  /** Every node of the snapshot depicts the last row with its id. */
  lemma {:induction false} NodesDepict(ns: seq<NodeIn>, id: string) returns (i: nat)
    requires id in NodesOf(ns)
    ensures DepictsLast(NodesOf(ns)[id], ns, id, i)
  {
    hide ViewOf;
    hide Depicts;
    var init, last := ns[..|ns| - 1], ns[|ns| - 1];
    NodesOfSnoc(init, last);
    assert ns == init + [last];
    if last.id == id {
      i := |ns| - 1;
      ViewDepicts(last);
    } else {
      i := NodesDepict(init, id);
    }
  }

  function KnownIds(ns: seq<NodeIn>): set<string> { set n | n in ns :: n.id }

  /** The edges of a node list, declaratively: one per link between known nodes, one per known parent. */
  ghost predicate IsEdge(ns: seq<NodeIn>, k: EdgeKey) {
    exists i :: 0 <= i < |ns| && EdgeOf(ns, ns[i], k)
  }

  ghost predicate EdgeOf(ns: seq<NodeIn>, n: NodeIn, k: EdgeKey) {
    || (k.kind.Sim? && exists p :: p in n.links && p in KnownIds(ns) && k == KeyOf(n.id, p, Sim))
    || (n.parent != "" && n.parent in KnownIds(ns) && k == EdgeKey(n.parent, n.id, Parent))
  }

  function EdgeKeys(ns: seq<NodeIn>): set<EdgeKey> {
    (set n, p | n in ns && p in n.links && p in KnownIds(ns) :: KeyOf(n.id, p, Sim))
    + set n | n in ns && n.parent != "" && n.parent in KnownIds(ns) :: EdgeKey(n.parent, n.id, Parent)
  }

  function EdgesOf(ns: seq<NodeIn>): Edges { map k | k in EdgeKeys(ns) :: PayloadOf(k) }

  lemma {:induction false} EdgeKeysAre(ns: seq<NodeIn>, k: EdgeKey)
    ensures k in EdgeKeys(ns) <==> IsEdge(ns, k)
  {
    if IsEdge(ns, k) {
      var i :| 0 <= i < |ns| && EdgeOf(ns, ns[i], k);
      assert ns[i] in ns;
    }
  }

  /** A snapshot whose entries sit under their own keys, as shaping makes them. */
  ghost predicate Shaped(nodes: Nodes, edges: Edges) {
    && (forall id :: id in nodes ==> nodes[id].id == id)
    && (forall k :: k in edges ==> edges[k] == PayloadOf(k))
  }

  method ShapeLinks(n: NodeIn, known: set<string>, edges: Edges) returns (edges': Edges)
    requires forall k :: k in edges ==> edges[k] == PayloadOf(k)
    ensures forall k :: k in edges' ==> edges'[k] == PayloadOf(k)
    ensures forall k :: k in edges' <==>
      k in edges || (k.kind.Sim? && exists p :: p in n.links && p in known && k == KeyOf(n.id, p, Sim))
  {
    edges' := edges;
    for j := 0 to |n.links|
      invariant forall k :: k in edges' ==> edges'[k] == PayloadOf(k)
      invariant forall k :: k in edges' <==>
        k in edges || (k.kind.Sim? && exists p :: p in n.links[..j] && p in known && k == KeyOf(n.id, p, Sim))
    {
      var peer := n.links[j];
      ghost var before := edges';
      assert n.links[..j + 1] == n.links[..j] + [peer];
      if peer in known {
        var key := KeyOf(n.id, peer, Sim);
        if key !in edges' { edges' := edges'[key := EdgeView(EdgeId(key), key.src, key.dst, Sim)]; }
      }
    }
    assert n.links[..|n.links|] == n.links;
  }

  /** The node dict: a later row of the same id replaces an earlier one. */
  function NodesOf(ns: seq<NodeIn>): (r: Nodes)
    ensures r.Keys == KnownIds(ns)
    ensures forall id :: id in r ==> r[id].id == id
  {
    if ns == [] then map[]
    else
      assert ns == ns[..|ns| - 1] + [ns[|ns| - 1]];
      NodesOf(ns[..|ns| - 1])[ns[|ns| - 1].id := ViewOf(ns[|ns| - 1])]
  }

  lemma {:induction false} NodesOfSnoc(ns: seq<NodeIn>, n: NodeIn)
    ensures NodesOf(ns + [n]) == NodesOf(ns)[n.id := ViewOf(n)]
  {
    hide ViewOf;
    assert (ns + [n])[..|ns|] == ns;
  }

  lemma {:induction false} AllDepict(ns: seq<NodeIn>)
    ensures forall id :: id in NodesOf(ns) ==> exists i :: DepictsLast(NodesOf(ns)[id], ns, id, i)
  {
    hide DepictsLast;
    forall id | id in NodesOf(ns) ensures exists i :: DepictsLast(NodesOf(ns)[id], ns, id, i) {
      var i := NodesDepict(ns, id);
    }
  }

  method ShapeNodes(ns: seq<NodeIn>) returns (nodes: Nodes)
    ensures nodes == NodesOf(ns)
  {
    hide ViewOf;
    nodes := map[];
    ghost var done: seq<NodeIn> := [];
    for i := 0 to |ns|
      invariant done == ns[..i] && nodes == NodesOf(done)
    {
      NodesOfSnoc(done, ns[i]);
      nodes, done := nodes[ns[i].id := ViewOf(ns[i])], done + [ns[i]];
    }
    assert done == ns;
  }

  method ShapeNode(ns: seq<NodeIn>, n: NodeIn, known: set<string>, edges: Edges) returns (edges': Edges)
    requires known == KnownIds(ns) && forall k :: k in edges ==> edges[k] == PayloadOf(k)
    ensures forall k :: k in edges' ==> edges'[k] == PayloadOf(k)
    ensures forall k :: k in edges' <==> k in edges || EdgeOf(ns, n, k)
  {
    edges' := ShapeLinks(n, known, edges);
    if n.parent != "" && n.parent in known {
      var key := KeyOf(n.parent, n.id, Parent);
      edges' := edges'[key := EdgeView(EdgeId(key), key.src, key.dst, Parent)];
    }
  }

  method ShapeGraph(ns: seq<NodeIn>) returns (nodes: Nodes, edges: Edges)
    ensures Shaped(nodes, edges) && nodes == NodesOf(ns) && edges == EdgesOf(ns)
    ensures forall k :: k in edges <==> IsEdge(ns, k)
    ensures forall id :: id in nodes ==> exists i :: DepictsLast(nodes[id], ns, id, i)
  {
    hide DepictsLast;
    nodes := ShapeNodes(ns);
    AllDepict(ns);
    edges := map[];
    var known := KnownIds(ns);
    hide EdgeOf;
    hide PayloadOf;
    hide NodesOf;
    for i := 0 to |ns|
      invariant forall k :: k in edges ==> edges[k] == PayloadOf(k)
      invariant forall k :: k in edges <==> exists x :: 0 <= x < i && EdgeOf(ns, ns[x], k)
    {
      edges := ShapeNode(ns, ns[i], known, edges);
    }
    forall k ensures k in edges <==> k in EdgeKeys(ns) { EdgeKeysAre(ns, k); }
  }

  // ---- Edge identities ----

  predicate ArrowFree(s: string) { ARROW !in s }

  lemma {:induction false} TailInjective(a: string, b: string, x: EdgeKind, y: EdgeKind)
    requires a + ":" + KindText(x) == b + ":" + KindText(y)
    ensures a == b && x == y
  {
    var p, q := a + ":" + KindText(x), b + ":" + KindText(y);
    assert p[|p| - 1] == (if x.Sim? then 'm' else 't') && q[|q| - 1] == (if y.Sim? then 'm' else 't');
    assert p[..|a|] == a && q[..|b|] == b;
  }

  /** The id that the page itself makes for an edge. */
  lemma {:induction false} EdgeIdText(src: string, dst: string)
    ensures EdgeId(EdgeKey(src, dst, Sim)) == src + "\U{2192}" + dst + ":sim"
    ensures EdgeId(EdgeKey(src, dst, Parent)) == src + "\U{2192}" + dst + ":parent"
  {
    assert ":" + "sim" == ":sim" && ":" + "parent" == ":parent" && [ARROW] == "\U{2192}";
    assert dst + (":" + "sim") == dst + ":" + "sim" && dst + (":" + "parent") == dst + ":" + "parent";
  }

  /** Edge ids are injective for sources without the arrow character. */
  lemma {:induction false} EdgeIdInjective(a: EdgeKey, b: EdgeKey)
    requires ArrowFree(a.src) && ArrowFree(b.src) && EdgeId(a) == EdgeId(b)
    ensures a == b
  {
    hide KindText;
    var p, q := a.dst + ":" + KindText(a.kind), b.dst + ":" + KindText(b.kind);
    var x, y := [ARROW] + p, [ARROW] + q;
    assert EdgeId(a) == a.src + x && EdgeId(b) == b.src + y;
    SplitAtFirst(ARROW, a.src, x, b.src, y);
    assert x[1..] == p && y[1..] == q;
    TailInjective(a.dst, b.dst, a.kind, b.kind);
  }

  /** With the arrow character in ids, two different edges can have one id. */
  lemma {:induction false} ArrowIdsCollide()
    ensures var a, b := EdgeKey("a" + [ARROW] + "b", "c", Sim), EdgeKey("a", "b" + [ARROW] + "c", Sim);
      a != b && EdgeId(a) == EdgeId(b)
  {
    var a, b := EdgeKey("a" + [ARROW] + "b", "c", Sim), EdgeKey("a", "b" + [ARROW] + "c", Sim);
    assert |a.src| != |b.src|;
    assert EdgeId(a) == EdgeId(b);
  }

  // ---- Differences ----

  datatype Diff = Diff(
    addedNodes: seq<NodeView>, updatedNodes: seq<NodeView>, removedIds: seq<string>,
    addedEdges: seq<EdgeView>, removedEdges: seq<EdgeView>)

  /** The difference between two snapshots; the lists come in any order. */
  ghost predicate IsDiff(d: Diff, n: Nodes, e: Edges, n': Nodes, e': Edges) {
    && (forall x :: x in d.addedNodes <==> x.id in n' && n'[x.id] == x && x.id !in n)
    && (forall x :: x in d.updatedNodes <==> x.id in n' && n'[x.id] == x && x.id in n && n[x.id] != x)
    && (forall id :: id in d.removedIds <==> id in n && id !in n')
    && (forall x :: x in d.addedEdges <==> exists k :: k in e' && k !in e && x == e'[k])
    && (forall x :: x in d.removedEdges <==> exists k :: k in e && k !in e' && x == e[k])
  }

  predicate IsEmpty(d: Diff) {
    d.addedNodes == [] && d.updatedNodes == [] && d.removedIds == [] && d.addedEdges == [] && d.removedEdges == []
  }

  lemma {:induction false} Nothing<T(!new)>(xs: seq<T>)
    ensures (forall x :: x !in xs) <==> xs == []
  {
    if xs != [] { assert xs[0] in xs; }
  }

  /** An empty difference means equal snapshots. */
  lemma {:induction false} EmptyIffEqual(d: Diff, n: Nodes, e: Edges, n': Nodes, e': Edges)
    requires Shaped(n, e) && Shaped(n', e') && IsDiff(d, n, e, n', e')
    ensures IsEmpty(d) <==> n == n' && e == e'
  {
    if IsEmpty(d) {
      forall id | id in n' ensures id in n && n[id] == n'[id] {
        assert n'[id] !in d.addedNodes && n'[id] !in d.updatedNodes;
      }
      forall id | id in n ensures id in n' { assert id !in d.removedIds; }
      forall k | k in e' ensures k in e { assert e'[k] !in d.addedEdges; }
      forall k | k in e ensures k in e' { assert e[k] !in d.removedEdges; }
    }
    if n == n' && e == e' {
      Nothing(d.addedNodes);
      Nothing(d.updatedNodes);
      Nothing(d.removedIds);
      Nothing(d.addedEdges);
      Nothing(d.removedEdges);
    }
  }

  lemma {:induction false} Snoc<T(!new)>(xs: seq<T>, x: T)
    ensures forall y :: y in xs + [x] <==> y in xs || y == x
  {}

  method DiffNewNodes(last: Nodes, new': Nodes) returns (added: seq<NodeView>, updated: seq<NodeView>)
    requires forall id :: id in new' ==> new'[id].id == id
    ensures forall x :: x in added <==> x.id in new' && new'[x.id] == x && x.id !in last
    ensures forall x :: x in updated <==> x.id in new' && new'[x.id] == x && x.id in last && last[x.id] != x
  {
    added, updated := [], [];
    var todo := new'.Keys;
    while todo != {}
      invariant todo <= new'.Keys
      invariant forall x :: x in added <==> x.id in new'.Keys - todo && new'[x.id] == x && x.id !in last
      invariant forall x :: x in updated <==>
        x.id in new'.Keys - todo && new'[x.id] == x && x.id in last && last[x.id] != x
    {
      var id :| id in todo;
      todo := todo - {id};
      if id !in last {
        Snoc(added, new'[id]);
        added := added + [new'[id]];
      } else if last[id] != new'[id] {
        Snoc(updated, new'[id]);
        updated := updated + [new'[id]];
      }
    }
  }

  method GoneIds(last: Nodes, new': Nodes) returns (removed: seq<string>)
    ensures forall id :: id in removed <==> id in last && id !in new'
  {
    removed := [];
    var todo := last.Keys;
    while todo != {}
      invariant todo <= last.Keys
      invariant forall id :: id in removed <==> id in last.Keys - todo && id !in new'
    {
      var id :| id in todo;
      todo := todo - {id};
      if id !in new' {
        Snoc(removed, id);
        removed := removed + [id];
      }
    }
  }

  /** The payloads of the edges of `a` whose keys `b` does not have. */
  method EdgesOnlyIn(a: Edges, b: Edges) returns (r: seq<EdgeView>)
    ensures forall x :: x in r <==> exists k :: k in a && k !in b && x == a[k]
  {
    r := [];
    var todo := a.Keys;
    while todo != {}
      invariant todo <= a.Keys
      invariant forall x :: x in r <==> exists k :: k in a && k !in todo && k !in b && x == a[k]
    {
      var key :| key in todo;
      ghost var before, was := r, todo;
      todo := todo - {key};
      if key !in b {
        Snoc(r, a[key]);
        r := r + [a[key]];
      }
      forall x ensures x in r <==> exists k :: k in a && k !in todo && k !in b && x == a[k] {
        if k :| k in a && k !in todo && k !in b && x == a[k] {
          assert k == key || x in before;
        }
      }
    }
  }

  /** `_diff`: nothing when the snapshots are equal, and otherwise their difference. */
  method DiffOf(last: Nodes, lastE: Edges, new': Nodes, newE: Edges) returns (d: Option<Diff>)
    requires Shaped(last, lastE) && Shaped(new', newE)
    ensures d.None? <==> last == new' && lastE == newE
    ensures d.Some? ==> IsDiff(d.value, last, lastE, new', newE)
  {
    var added, updated := DiffNewNodes(last, new');
    var removed := GoneIds(last, new');
    var addedEdges := EdgesOnlyIn(newE, lastE);
    var removedEdges := EdgesOnlyIn(lastE, newE);
    var diff := Diff(added, updated, removed, addedEdges, removedEdges);
    EmptyIffEqual(diff, last, lastE, new', newE);
    d := if IsEmpty(diff) then None else Some(diff);
  }

  // ---- The page ----

  /** The page's data sets, keyed by the items' ids. */
  datatype Page = Page(nodes: map<string, NodeView>, edges: map<string, EdgeView>)

  function UpsertNodes(v: map<string, NodeView>, xs: seq<NodeView>): map<string, NodeView> {
    if xs == [] then v else UpsertNodes(v, xs[..|xs| - 1])[xs[|xs| - 1].id := xs[|xs| - 1]]
  }

  function UpsertEdges(v: map<string, EdgeView>, xs: seq<EdgeView>): map<string, EdgeView> {
    if xs == [] then v else UpsertEdges(v, xs[..|xs| - 1])[xs[|xs| - 1].id := xs[|xs| - 1]]
  }

  function EdgeIds(xs: seq<EdgeView>): set<string> { set x | x in xs :: x.id }

  /** The page applies upserts before removals. */
  function ApplyDiff(p: Page, d: Diff): Page {
    Page(UpsertNodes(UpsertNodes(p.nodes, d.addedNodes), d.updatedNodes) - Elems(d.removedIds),
         UpsertEdges(p.edges, d.addedEdges) - EdgeIds(d.removedEdges))
  }

  ghost predicate ShowsEdges(v: map<string, EdgeView>, e: Edges) {
    && (forall k :: k in e ==> EdgeId(k) in v && v[EdgeId(k)] == e[k])
    && (forall id :: id in v ==> exists k :: k in e && EdgeId(k) == id)
  }

  /** The page shows exactly this snapshot. */
  ghost predicate Shows(p: Page, n: Nodes, e: Edges) { p.nodes == n && ShowsEdges(p.edges, e) }

  /** No two edges of the snapshots share an id. */
  ghost predicate IdsClear(e: Edges, e': Edges) {
    forall k, k' :: (k in e || k in e') && (k' in e || k' in e') && EdgeId(k) == EdgeId(k') ==> k == k'
  }

  lemma {:induction false} ArrowFreeIsClear(e: Edges, e': Edges)
    requires forall k :: k in e || k in e' ==> ArrowFree(k.src)
    ensures IdsClear(e, e')
  {
    forall k, k' | (k in e || k in e') && (k' in e || k' in e') && EdgeId(k) == EdgeId(k') ensures k == k' {
      EdgeIdInjective(k, k');
    }
  }

  function NodeIds(xs: seq<NodeView>): set<string> { set x | x in xs :: x.id }

  function Only(n: Nodes, ids: set<string>): Nodes { map id | id in n && id in ids :: n[id] }

  function Changed(n: Nodes, n': Nodes): set<string> { set id | id in n' && id in n && n[id] != n'[id] }

  lemma {:induction false} OnlyMore(v: Nodes, n: Nodes, ids: set<string>, id: string)
    requires id in n
    ensures (v + Only(n, ids))[id := n[id]] == v + Only(n, ids + {id})
  {}

  lemma {:induction false} UpsertNodesIs(v: Nodes, xs: seq<NodeView>, n': Nodes)
    requires forall x :: x in xs ==> x.id in n' && n'[x.id] == x
    ensures UpsertNodes(v, xs) == v + Only(n', NodeIds(xs))
  {
    if xs != [] {
      var init, last := xs[..|xs| - 1], xs[|xs| - 1];
      UpsertNodesIs(v, init, n');
      assert xs == init + [last];
      assert NodeIds(xs) == NodeIds(init) + {last.id};
      OnlyMore(v, n', NodeIds(init), last.id);
      hide Only;
    }
  }

  lemma {:induction false} DiffNodes(d: Diff, n: Nodes, e: Edges, n': Nodes, e': Edges)
    requires Shaped(n, e) && Shaped(n', e') && IsDiff(d, n, e, n', e')
    ensures NodeIds(d.addedNodes) == n'.Keys - n.Keys
    ensures NodeIds(d.updatedNodes) == Changed(n, n')
    ensures Elems(d.removedIds) == n.Keys - n'.Keys
  {
    forall id | id in n' && id !in n ensures id in NodeIds(d.addedNodes) {
      assert n'[id] in d.addedNodes && n'[id].id == id;
    }
    forall id | id in Changed(n, n') ensures id in NodeIds(d.updatedNodes) {
      assert n'[id] in d.updatedNodes && n'[id].id == id;
    }
  }

  lemma {:induction false} PageNodes(p: Page, d: Diff, n: Nodes, e: Edges, n': Nodes, e': Edges)
    requires Shaped(n, e) && Shaped(n', e') && IsDiff(d, n, e, n', e')
    ensures ApplyDiff(p, d).nodes
      == p.nodes + Only(n', n'.Keys - n.Keys) + Only(n', Changed(n, n')) - (n.Keys - n'.Keys)
  {
    UpsertNodesIs(p.nodes, d.addedNodes, n');
    UpsertNodesIs(UpsertNodes(p.nodes, d.addedNodes), d.updatedNodes, n');
    DiffNodes(d, n, e, n', e');
  }

  lemma {:induction false} NodesApplied(p: Page, d: Diff, n: Nodes, e: Edges, n': Nodes, e': Edges)
    requires Shaped(n, e) && Shaped(n', e') && IsDiff(d, n, e, n', e') && (p.nodes == n || p.nodes == n')
    ensures ApplyDiff(p, d).nodes == n'
  {
    PageNodes(p, d, n, e, n', e');
    hide ApplyDiff;
    hide IsDiff;
  }

  lemma {:induction false} UpsertEdgesIs(v: map<string, EdgeView>, xs: seq<EdgeView>)
    requires forall x, y :: x in xs && y in xs && x.id == y.id ==> x == y
    ensures var u := UpsertEdges(v, xs);
      && u.Keys == v.Keys + EdgeIds(xs)
      && (forall x :: x in xs ==> u[x.id] == x)
      && (forall id :: id in v && id !in EdgeIds(xs) ==> u[id] == v[id])
  {
    if xs != [] {
      UpsertEdgesIs(v, xs[..|xs| - 1]);
      assert xs == xs[..|xs| - 1] + [xs[|xs| - 1]];
    }
  }

  function NewIds(e: Edges, e': Edges): set<string> { set k | k in e' && k !in e :: EdgeId(k) }

  /** The ids in the edge lists of a difference are those of the edges that came and went. */
  lemma {:induction false} DiffIds(d: Diff, n: Nodes, e: Edges, n': Nodes, e': Edges)
    requires Shaped(n, e) && Shaped(n', e') && IsDiff(d, n, e, n', e')
    ensures EdgeIds(d.addedEdges) == NewIds(e, e') && EdgeIds(d.removedEdges) == NewIds(e', e)
  {
    forall k | k in e' && k !in e ensures EdgeId(k) in EdgeIds(d.addedEdges) {
      assert e'[k] in d.addedEdges && e'[k].id == EdgeId(k);
    }
    forall k | k in e && k !in e' ensures EdgeId(k) in EdgeIds(d.removedEdges) {
      assert e[k] in d.removedEdges && e[k].id == EdgeId(k);
    }
  }

  /** A page's edge set after the updates `u` and the removals: exactly the edges of the new snapshot. */
  lemma {:induction false} EdgesAfter(v: map<string, EdgeView>, u: map<string, EdgeView>, e: Edges, e': Edges)
    requires IdsClear(e, e') && (forall k :: k in e ==> e[k] == PayloadOf(k)) && ShowsEdges(v, e)
    requires forall k :: k in e' ==> e'[k] == PayloadOf(k)
    requires u.Keys == v.Keys + NewIds(e, e')
    requires forall k :: k in e' && k !in e ==> u[EdgeId(k)] == e'[k]
    requires forall id :: id in v && id !in NewIds(e, e') ==> u[id] == v[id]
    ensures ShowsEdges(u - NewIds(e', e), e')
  {
    hide EdgeId;
    var w := u - NewIds(e', e);
    forall k | k in e' ensures EdgeId(k) in w && w[EdgeId(k)] == e'[k] {
      assert EdgeId(k) !in NewIds(e', e);
      assert k !in e ==> EdgeId(k) in NewIds(e, e');
    }
    forall id | id in w ensures exists k :: k in e' && EdgeId(k) == id {
      if id !in NewIds(e, e') {
        var k :| k in e && EdgeId(k) == id;
        assert k in e' || id in NewIds(e', e);
      }
    }
  }

  lemma {:induction false} AddedEdges(v: map<string, EdgeView>, d: Diff, n: Nodes, e: Edges, n': Nodes, e': Edges)
    requires Shaped(n, e) && Shaped(n', e') && IsDiff(d, n, e, n', e') && IdsClear(e, e')
    ensures var u := UpsertEdges(v, d.addedEdges);
      && u.Keys == v.Keys + NewIds(e, e')
      && (forall k :: k in e' && k !in e ==> u[EdgeId(k)] == e'[k])
      && (forall id :: id in v && id !in NewIds(e, e') ==> u[id] == v[id])
  {
    var added := d.addedEdges;
    forall x, y | x in added && y in added && x.id == y.id ensures x == y {
      var k :| k in e' && k !in e && x == e'[k];
      var k' :| k' in e' && k' !in e && y == e'[k'];
    }
    UpsertEdgesIs(v, added);
    DiffIds(d, n, e, n', e');
    hide UpsertEdges;
    forall k | k in e' && k !in e ensures UpsertEdges(v, added)[EdgeId(k)] == e'[k] {
      assert e'[k] in added && e'[k].id == EdgeId(k);
    }
  }

  lemma {:induction false} EdgesStay(v: map<string, EdgeView>, u: map<string, EdgeView>, e: Edges, e': Edges)
    requires IdsClear(e, e') && ShowsEdges(v, e')
    requires u.Keys == v.Keys + NewIds(e, e')
    requires forall k :: k in e' && k !in e ==> u[EdgeId(k)] == e'[k]
    requires forall id :: id in v && id !in NewIds(e, e') ==> u[id] == v[id]
    ensures u - NewIds(e', e) == v
  {
    hide EdgeId;
    forall id | id in v ensures id !in NewIds(e', e) && u[id] == v[id] {
      var k :| k in e' && EdgeId(k) == id;
    }
  }

  lemma {:induction false} EdgesApplied(p: Page, d: Diff, n: Nodes, e: Edges, n': Nodes, e': Edges)
    requires Shaped(n, e) && Shaped(n', e') && IsDiff(d, n, e, n', e') && IdsClear(e, e') && ShowsEdges(p.edges, e)
    ensures ShowsEdges(ApplyDiff(p, d).edges, e')
  {
    AddedEdges(p.edges, d, n, e, n', e');
    DiffIds(d, n, e, n', e');
    EdgesAfter(p.edges, UpsertEdges(p.edges, d.addedEdges), e, e');
  }

  /** Applying a difference to the new snapshot changes nothing. */
  lemma {:induction false} SecondTimeIdle(p: Page, d: Diff, n: Nodes, e: Edges, n': Nodes, e': Edges)
    requires Shaped(n, e) && Shaped(n', e') && IsDiff(d, n, e, n', e') && IdsClear(e, e') && Shows(p, n', e')
    ensures ApplyDiff(p, d) == p
  {
    NodesApplied(p, d, n, e, n', e');
    AddedEdges(p.edges, d, n, e, n', e');
    DiffIds(d, n, e, n', e');
    EdgesStay(p.edges, UpsertEdges(p.edges, d.addedEdges), e, e');
  }

  /** A page that shows the old snapshot shows the new one after applying the difference, and applying
      it again changes nothing. */
  lemma {:induction false} ApplyReproduces(p: Page, d: Diff, n: Nodes, e: Edges, n': Nodes, e': Edges)
    requires Shaped(n, e) && Shaped(n', e') && IsDiff(d, n, e, n', e') && IdsClear(e, e') && Shows(p, n, e)
    ensures var q := ApplyDiff(p, d); Shows(q, n', e') && ApplyDiff(q, d) == q
  {
    NodesApplied(p, d, n, e, n', e');
    EdgesApplied(p, d, n, e, n', e');
    SecondTimeIdle(ApplyDiff(p, d), d, n, e, n', e');
  }

  /** A page can show a set of edges exactly when their ids are distinct: of two edges with one id,
      it loses one. */
  lemma {:induction false} ShowableIffClear(e: Edges)
    requires forall k :: k in e ==> e[k] == PayloadOf(k)
    ensures (exists v :: ShowsEdges(v, e)) <==> IdsClear(e, e)
  {
    hide EdgeId;
    if IdsClear(e, e) {
      var v := map k | k in e :: EdgeId(k) := e[k];
      assert ShowsEdges(v, e);
    }
  }
}
