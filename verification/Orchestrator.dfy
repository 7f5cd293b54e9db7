// The trim orchestrator's object: its two entry points as they run when nothing interrupts them, tied to
// the machine, in which they interleave, and to the operations on the memory graph.
module Orchestrator {
  import opened Sequences
  import opened Text
  import opened Messages
  import opened Machine
  import opened Sessions
  import opened Uninterrupted
  import opened Proxy
  import opened NodeTables
  import opened Ranking
  import Graph
  import GraphRuns
  import Trimming
  import Views
  import Window

  const SYNTH_ACK := "Understood \U{2014} I have the prior context above. Ready for the next instruction."

  // ---- Bundle synthesis ----

  /** A child as the synthesis model describes it, with the id and the time drawn for its node. */
  datatype ChildDraft = ChildDraft(id: string, tool: string, summary: string, createdAt: real)

  /** The tags include that of the importance; they come from a set, in any order. */
  datatype Synth = Synth(parentId: string, summary: string, tags: seq<string>, createdAt: real,
                         children: seq<ChildDraft>)

  function ChildNode(c: ChildDraft, sid: string, parent: string): Graph.MemoryNode {
    Graph.MemoryNode(c.id, c.summary, Graph.ActiveOnly, sid, Graph.CHILD_REASON, c.createdAt, false, Some(parent), [],
                     ["FROM_BUNDLE:" + parent, "TOOL:" + c.tool, "IMPORTANCE:LOW"])
  }

  function ChildNodes(cs: seq<ChildDraft>, sid: string, parent: string): (r: seq<Graph.MemoryNode>)
    ensures |r| == |cs| && forall i :: 0 <= i < |cs| ==> r[i] == ChildNode(cs[i], sid, parent)
  {
    if cs == [] then [] else ChildNodes(cs[..|cs| - 1], sid, parent) + [ChildNode(cs[|cs| - 1], sid, parent)]
  }

  /** At most twelve children are kept. */
  function Kept(synth: Synth): seq<ChildDraft> {
    if |synth.children| <= Graph.MAX_CHILDREN then synth.children else synth.children[..Graph.MAX_CHILDREN]
  }

  function ParentNode(synth: Synth, sid: string): Graph.MemoryNode {
    Graph.MemoryNode(synth.parentId, synth.summary, Graph.ActiveOnly, sid, Graph.PARENT_REASON, synth.createdAt, true,
                     None, Graph.Ids(ChildNodes(Kept(synth), sid, synth.parentId)), synth.tags)
  }

  predicate Usable(synth: Option<Synth>) { synth.Some? && synth.value.summary != "" && synth.value.children != [] }

  function AfterBundle(t: Graph.Table, sid: string, synth: Option<Synth>): Graph.Table {
    if !Usable(synth) then t
    else
      var kids := ChildNodes(Kept(synth.value), sid, synth.value.parentId);
      Graph.Save(GraphRuns.SaveAll(t, kids), ParentNode(synth.value, sid))
  }

  /** The tags that a bundle adds. */
  function BundleTags(synth: Option<Synth>, sid: string): set<string> {
    if !Usable(synth) then {}
    else TagsOf(ChildNodes(Kept(synth.value), sid, synth.value.parentId)) + Elems(ParentNode(synth.value, sid).tags)
  }

  const BUNDLE_LABEL := "[tool_bundle]"

  predicate IsBundle(e: L1) { BUNDLE_LABEL <= e.content }

  /** The bundles of a buffer, in order: `answers` holds the synthesis model's answer for each entry. */
  function AfterBundles(t: Graph.Table, sid: string, buffer: seq<L1>, answers: seq<Option<Synth>>): Graph.Table
    requires |answers| == |buffer|
  {
    if buffer == [] then t
    else
      var k := |buffer| - 1;
      var u := AfterBundles(t, sid, buffer[..k], answers[..k]);
      if IsBundle(buffer[k]) then AfterBundle(u, sid, answers[k]) else u
  }

  function AllBundleTags(sid: string, buffer: seq<L1>, answers: seq<Option<Synth>>): set<string>
    requires |answers| == |buffer|
  {
    if buffer == [] then {}
    else
      var k := |buffer| - 1;
      AllBundleTags(sid, buffer[..k], answers[..k]) + if IsBundle(buffer[k]) then BundleTags(answers[k], sid) else {}
  }

  /** The ids of the nodes that these bundles save. */
  function BundleIds(synth: Option<Synth>, sid: string): seq<string> {
    if !Usable(synth) then []
    else Graph.Ids(ChildNodes(Kept(synth.value), sid, synth.value.parentId)) + [synth.value.parentId]
  }

  function AllBundleIds(sid: string, buffer: seq<L1>, answers: seq<Option<Synth>>): seq<string>
    requires |answers| == |buffer|
  {
    if buffer == [] then []
    else
      var k := |buffer| - 1;
      AllBundleIds(sid, buffer[..k], answers[..k]) + if IsBundle(buffer[k]) then BundleIds(answers[k], sid) else []
  }

  ghost predicate AllUnused(t: Graph.Table, ids: seq<string>) {
    forall i :: 0 <= i < |ids| ==> GraphRuns.Unused(t, ids[i])
  }

  lemma {:induction false} IdsAre(cs: seq<ChildDraft>, sid: string, parent: string)
    ensures forall i :: 0 <= i < |cs| ==> Graph.Ids(ChildNodes(cs, sid, parent))[i] == cs[i].id
  {}

  lemma {:induction false} PartsDistinct(a: seq<string>, b: seq<string>)
    requires Distinct(a + b)
    ensures Distinct(a) && Distinct(b) && forall x, y :: x in a && y in b ==> x != y
  {
    forall x, y | x in a && y in b ensures x != y {
      var i :| 0 <= i < |a| && a[i] == x;
      var j :| 0 <= j < |b| && b[j] == y;
      assert (a + b)[i] != (a + b)[|a| + j];
    }
    forall i, j | 0 <= i < j < |b| ensures b[i] != b[j] { assert (a + b)[|a| + i] != (a + b)[|a| + j]; }
    forall i, j | 0 <= i < j < |a| ensures a[i] != a[j] { assert (a + b)[i] != (a + b)[j]; }
  }

  lemma {:induction false} BundleIsBundle(t: Graph.Table, sid: string, synth: Synth)
    requires Usable(Some(synth)) && AllUnused(t, BundleIds(Some(synth), sid))
    requires Distinct(BundleIds(Some(synth), sid))
    ensures var kids := ChildNodes(Kept(synth), sid, synth.parentId);
      Graph.Bundle(Graph.Store(t, Graph.Resting), kids, ParentNode(synth, sid))
  {
    var kids := ChildNodes(Kept(synth), sid, synth.parentId);
    var ids := BundleIds(Some(synth), sid);
    IdsAre(Kept(synth), sid, synth.parentId);
    PartsDistinct(Graph.Ids(kids), [synth.parentId]);
    assert ids[|kids|] == synth.parentId && GraphRuns.Unused(t, ids[|kids|]);
    forall i | 0 <= i < |kids|
      ensures Graph.ChildFor(kids[i], ParentNode(synth, sid)) && Graph.Fresh(Graph.Store(t, Graph.Resting), kids[i].id)
        && kids[i].id != synth.parentId
    {
      assert ids[i] == kids[i].id && GraphRuns.Unused(t, ids[i]);
      assert kids[i].id in Graph.Ids(kids);
    }
  }

  lemma {:induction false} UnusedAfterBundle(t: Graph.Table, sid: string, synth: Option<Synth>, other: string)
    requires GraphRuns.Unused(t, other) && other !in BundleIds(synth, sid)
    ensures GraphRuns.Unused(AfterBundle(t, sid, synth), other)
  {
    if Usable(synth) {
      var kids := ChildNodes(Kept(synth.value), sid, synth.value.parentId);
      var ids := BundleIds(synth, sid);
      assert ids[|kids|] == synth.value.parentId;
      forall i | 0 <= i < |kids| ensures kids[i].id != other && kids[i].parent != Some(other) {
        assert ids[i] == kids[i].id;
      }
      GraphRuns.UnusedAfterSaves(t, kids, other);
    }
  }

  lemma {:induction false} BundleKeys(t: Graph.Table, sid: string, synth: Option<Synth>)
    ensures AfterBundle(t, sid, synth).Keys == t.Keys + Elems(BundleIds(synth, sid))
  {
    if Usable(synth) {
      var kids := ChildNodes(Kept(synth.value), sid, synth.value.parentId);
      GraphRuns.SaveAllKeys(t, kids);
    }
  }

  lemma {:induction false} ElemsAppend(a: seq<string>, b: seq<string>)
    ensures Elems(a + b) == Elems(a) + Elems(b)
  {}

  /** The bundles of a job are a run of the graph's operations, and save exactly these ids. */
  lemma {:induction false} BundlesReach(t: Graph.Table, sid: string, buffer: seq<L1>, answers: seq<Option<Synth>>,
                                        topK: nat)
    requires |answers| == |buffer|
    requires AllUnused(t, AllBundleIds(sid, buffer, answers)) && Distinct(AllBundleIds(sid, buffer, answers))
    ensures var u := AfterBundles(t, sid, buffer, answers);
      && GraphRuns.Reaches(Graph.Store(t, Graph.Resting), Graph.Store(u, Graph.Resting), topK)
      && u.Keys == t.Keys + Elems(AllBundleIds(sid, buffer, answers))
      && forall other :: GraphRuns.Unused(t, other) && other !in AllBundleIds(sid, buffer, answers) ==>
           GraphRuns.Unused(u, other)
  {
    var s := Graph.Store(t, Graph.Resting);
    hide IsBundle;
    hide BundleIds;
    if buffer == [] {
      GraphRuns.Stay(s, topK);
    } else {
      var k := |buffer| - 1;
      var before := AllBundleIds(sid, buffer[..k], answers[..k]);
      var last := if IsBundle(buffer[k]) then BundleIds(answers[k], sid) else [];
      var all := before + last;
      PartsDistinct(before, last);
      forall i | 0 <= i < |before| ensures GraphRuns.Unused(t, before[i]) { assert all[i] == before[i]; }
      BundlesReach(t, sid, buffer[..k], answers[..k], topK);
      var u := AfterBundles(t, sid, buffer[..k], answers[..k]);
      ElemsAppend(before, last);
      if IsBundle(buffer[k]) {
        forall i | 0 <= i < |last| ensures GraphRuns.Unused(u, last[i]) {
          assert all[|before| + i] == last[i] && last[i] in last;
        }
        OneMoreBundle(s, u, sid, answers[k], topK);
      }
    }
  }

  lemma {:induction false} OneMoreBundle(s: Graph.Store, t: Graph.Table, sid: string, synth: Option<Synth>, topK: nat)
    requires GraphRuns.Reaches(s, Graph.Store(t, Graph.Resting), topK)
    requires AllUnused(t, BundleIds(synth, sid)) && Distinct(BundleIds(synth, sid))
    ensures GraphRuns.Reaches(s, Graph.Store(AfterBundle(t, sid, synth), Graph.Resting), topK)
    ensures AfterBundle(t, sid, synth).Keys == t.Keys + Elems(BundleIds(synth, sid))
    ensures forall other :: GraphRuns.Unused(t, other) && other !in BundleIds(synth, sid) ==>
      GraphRuns.Unused(AfterBundle(t, sid, synth), other)
  {
    BundleKeys(t, sid, synth);
    forall other | GraphRuns.Unused(t, other) && other !in BundleIds(synth, sid)
      ensures GraphRuns.Unused(AfterBundle(t, sid, synth), other)
    {
      UnusedAfterBundle(t, sid, synth, other);
    }
    if Usable(synth) {
      BundleIsBundle(t, sid, synth.value);
      var kids, parent := ChildNodes(Kept(synth.value), sid, synth.value.parentId), ParentNode(synth.value, sid);
      GraphRuns.BundleReaches(t, kids, parent, topK);
      GraphRuns.Then(s, Graph.Store(t, Graph.Resting), Graph.Store(AfterBundle(t, sid, synth), Graph.Resting), topK);
    }
  }

  // ---- Cross-linking ----

  function NotSelfNorBundle(id: string): Graph.MemoryNode -> bool {
    (n: Graph.MemoryNode) => n.id != id && n.reason != Graph.PARENT_REASON
  }

  /** The rows among which a node's peers are searched. */
  function PeerRow(sid: string, cross: bool, id: string): Graph.MemoryNode -> bool {
    AndAlso(ActiveRow(sid, cross), NotSelfNorBundle(id))
  }

  lemma {:induction false} HitsArePeers(t: Graph.Table, sid: string, id: string, peers: seq<Graph.MemoryNode>,
                                        sim: string -> real, topK: nat, minScore: real)
    requires Keyed(t) && sid != "" && id in t && t[id].session == sid && Lists(peers, t, PeerRow(sid, false, id))
    ensures var hits := Window.Keys(CosineSearch(Window.Pairs(peers, sim), topK, minScore));
      |hits| <= topK && Distinct(hits) && forall i :: 0 <= i < |hits| ==> Graph.IsPeer(t, id, hits[i])
  {
    var r := CosineSearch(Window.Pairs(peers, sim), topK, minScore);
    SearchIsOptimal(Window.Pairs(peers, sim), topK, minScore);
    Window.HitsAreRows(t, PeerRow(sid, false, id), peers, sim, r);
    hide CosineSearch;
    hide Lists;
    forall i | 0 <= i < |r| ensures Graph.IsPeer(t, id, r[i].0) {
      var row := t[r[i].0];
      assert PeerRow(sid, false, id)(row) == (ActiveRow(sid, false)(row) && NotSelfNorBundle(id)(row));
    }
  }

  /** What a node is linked to: the best of the search among its peers. */
  ghost predicate IsHits(t: Graph.Table, sid: string, cross: bool, id: string, sim: string -> real, topK: nat,
                         minScore: real, hits: seq<string>)
  {
    exists peers :: HitsAmong(t, sid, cross, id, sim, topK, minScore, hits, peers)
  }

  ghost predicate HitsAmong(t: Graph.Table, sid: string, cross: bool, id: string, sim: string -> real, topK: nat,
                            minScore: real, hits: seq<string>, peers: seq<Graph.MemoryNode>)
  {
    && Lists(peers, t, PeerRow(sid, cross, id))
    && hits == Window.Keys(CosineSearch(Window.Pairs(peers, sim), topK, minScore))
  }

  /** A row that a new node may be linked to. */
  ghost predicate Peer(t: Graph.Table, sid: string, cross: bool, id: string, n: Graph.MemoryNode) {
    Window.Matchable(t, sid, cross, n) && n.id != id && n.reason != "bundle_parent"
  }

  /** The hits are peers that are similar enough; one that is left out is no better than any of a full list. */
  ghost predicate BestPeers(t: Graph.Table, sid: string, cross: bool, id: string, sim: string -> real, topK: nat,
                            minScore: real, hits: seq<string>)
  {
    && |hits| <= topK
    && (forall x :: x in hits ==> x in t && Peer(t, sid, cross, id, t[x]) && sim(x) >= minScore)
    && (forall n :: Peer(t, sid, cross, id, n) && sim(n.id) >= minScore && n.id !in hits ==>
          |hits| == topK && forall x :: x in hits ==> sim(x) >= sim(n.id))
  }

  lemma {:induction false} PeersAre(t: Graph.Table, sid: string, cross: bool, id: string, peers: seq<Graph.MemoryNode>)
    requires Keyed(t) && Lists(peers, t, PeerRow(sid, cross, id))
    ensures forall n :: n in peers <==> Peer(t, sid, cross, id, n)
    ensures forall n :: n in peers ==> n.id in t && t[n.id] == n
  {
    ListedAre(peers, t, PeerRow(sid, cross, id));
    hide Lists;
    forall n ensures PeerRow(sid, cross, id)(n) == (ActiveRow(sid, cross)(n) && NotSelfNorBundle(id)(n)) {}
  }

  lemma {:induction false} HitsAreBest(t: Graph.Table, sid: string, cross: bool, id: string, sim: string -> real,
                                       topK: nat, minScore: real, hits: seq<string>)
    requires Keyed(t) && IsHits(t, sid, cross, id, sim, topK, minScore, hits)
    ensures BestPeers(t, sid, cross, id, sim, topK, minScore, hits)
  {
    var peers :| HitsAmong(t, sid, cross, id, sim, topK, minScore, hits, peers);
    hide *;
    var r := CosineSearch(Window.Pairs(peers, sim), topK, minScore);
    AmongAre(t, sid, cross, id, sim, topK, minScore, hits, peers);
    PeersAre(t, sid, cross, id, peers);
    Window.HitsAreBest(t, peers, sim, topK, minScore);
    KeysKeep(t, peers, sim, topK, minScore, r, hits);
    BestAmong(t, sid, cross, id, sim, topK, minScore, hits, peers);
  }

  lemma {:induction false} AmongAre(t: Graph.Table, sid: string, cross: bool, id: string, sim: string -> real,
                                    topK: nat, minScore: real, hits: seq<string>, peers: seq<Graph.MemoryNode>)
    requires HitsAmong(t, sid, cross, id, sim, topK, minScore, hits, peers)
    ensures Lists(peers, t, PeerRow(sid, cross, id))
    ensures hits == Window.Keys(CosineSearch(Window.Pairs(peers, sim), topK, minScore))
  {}

  lemma {:induction false} BestAmong(t: Graph.Table, sid: string, cross: bool, id: string, sim: string -> real,
                                     topK: nat, minScore: real, hits: seq<string>, peers: seq<Graph.MemoryNode>)
    requires forall n :: n in peers <==> Peer(t, sid, cross, id, n)
    requires |hits| <= topK && forall x :: x in hits ==> x in t && t[x] in peers && sim(x) >= minScore
    requires forall n :: n in peers && sim(n.id) >= minScore && n.id !in hits ==>
      |hits| == topK && forall x :: x in hits ==> sim(x) >= sim(n.id)
    ensures BestPeers(t, sid, cross, id, sim, topK, minScore, hits)
  {
    hide Peer;
  }

  lemma {:induction false} KeysKeep(t: Graph.Table, peers: seq<Graph.MemoryNode>, sim: string -> real, topK: nat,
                                    minScore: real, r: seq<Scored>, hits: seq<string>)
    requires hits == Window.Keys(r) && |r| <= topK
    requires forall n :: n in peers ==> n.id in t && t[n.id] == n
    requires forall i :: 0 <= i < |r| ==>
      r[i].0 in t && t[r[i].0] in peers && r[i].1 == sim(r[i].0) && r[i].1 >= minScore
    requires forall n :: n in peers && sim(n.id) >= minScore && (n.id, sim(n.id)) !in r ==>
      |r| == topK && forall i :: 0 <= i < |r| ==> r[i].1 >= sim(n.id)
    ensures |hits| <= topK && forall x :: x in hits ==> x in t && t[x] in peers && sim(x) >= minScore
    ensures forall n :: n in peers && sim(n.id) >= minScore && n.id !in hits ==>
      |hits| == topK && forall x :: x in hits ==> sim(x) >= sim(n.id)
  {
    forall x | x in hits ensures x in t && t[x] in peers && sim(x) >= minScore {
      var i: nat :| i < |hits| && hits[i] == x;
      assert r[i].0 == x;
    }
    forall n | n in peers && sim(n.id) >= minScore && n.id !in hits
      ensures |hits| == topK && forall x :: x in hits ==> sim(x) >= sim(n.id)
    {
      var p: Scored := (n.id, sim(n.id));
      forall i | 0 <= i < |r| ensures r[i] != p { assert hits[i] in hits && hits[i] == r[i].0; }
      assert p !in r;
      forall x | x in hits ensures sim(x) >= sim(n.id) {
        var i: nat :| i < |hits| && hits[i] == x;
        assert r[i].0 == x && r[i].1 >= sim(n.id);
      }
    }
  }

  lemma {:induction false} NoHits(candidates: seq<Scored>, minScore: real)
    ensures CosineSearch(candidates, 0, minScore) == []
  {
    SearchIsOptimal(candidates, 0, minScore);
  }

  // ---- The request path's loops ----

  lemma {:induction false} OneFpEach(h: Hash, ms: seq<Message>)
    ensures forall i :: 0 <= i < |PerMessage(h, ms)| ==> |PerMessage(h, ms)[i].fps| == 1
    ensures |PerMessage(h, ms)| <= |ms|
  {
    hide TextOf;
    hide Visible;
    if ms != [] { OneFpEach(h, ms[1..]); }
  }

  lemma {:induction false} HeadAt(es: seq<L1>, i: nat)
    requires i < |es|
    ensures |Heads(es)| == |es| && (es[i].fps != [] ==> Heads(es)[i] == es[i].fps[0])
  {
    if i > 0 { HeadAt(es[1..], i - 1); } else if |es| > 1 { HeadAt(es[1..], 0); }
  }

  lemma {:induction false} HeadsLength(es: seq<L1>)
    ensures |Heads(es)| == |es|
  {
    if es != [] { HeadsLength(es[1..]); }
  }

  method UnabsorbedIndices(l1: seq<L1>, absorbed: set<string>) returns (idx: seq<nat>)
    requires forall i :: 0 <= i < |l1| ==> |l1[i].fps| == 1
    ensures |Heads(l1)| == |l1| && idx == Unabsorbed(Heads(l1), absorbed, |l1|)
    ensures forall i :: 0 <= i < |idx| ==> idx[i] < |l1|
  {
    HeadsLength(l1);
    hide Heads;
    idx := [];
    for i := 0 to |l1|
      invariant idx == Unabsorbed(Heads(l1), absorbed, i)
      invariant forall j :: 0 <= j < |idx| ==> idx[j] < i
    {
      HeadAt(l1, i);
      if l1[i].fps[0] !in absorbed { idx := idx + [i]; }
    }
  }

  method SelectMessages(msgs: seq<Message>, idx: seq<nat>) returns (sel: seq<Message>)
    requires forall i :: 0 <= i < |idx| ==> idx[i] < |msgs|
    ensures sel == Pick(msgs, idx)
  {
    sel := [];
    ghost var done: seq<nat> := [];
    for i := 0 to |idx|
      invariant done == idx[..i] && sel == Pick(msgs, done)
    {
      assert (done + [idx[i]])[..i] == done;
      sel := sel + [msgs[idx[i]]];
      done := done + [idx[i]];
    }
    assert done == idx;
  }

  /** The effect of a request's check for a new job on the registry and the queue. */
  ghost predicate OffersJob(cfg: Config, req: Request, x: Session, m: map<string, Session>, m': map<string, Session>,
                            q: seq<Job>, q': seq<Job>)
  {
    var job := JobFor(cfg, req, x);
    var ready := |job.buffer| >= cfg.minL1 && !x.inFlight && !x.queued;
    && m' == (if ready then m[req.sid := x.(queued := true)] else m)
    && q' == if ready then q + [job] else q
  }

  lemma {:induction false} RewriteIs(cfg: Config, s: Sys, t: Sys, req: Request, x: Session)
    requires x == Sess(s, req.sid)
    requires OffersJob(cfg, req, x, Registered(s, req.sid), t.sessions, s.queue, t.queue)
    requires t.log == s.log + [req] && t.worker == s.worker && t.saved == s.saved && t.raw == s.raw
    requires t.reader == ReplyOf(x, req, cfg.keys(req.msgs))
    ensures t == AfterRewrite(cfg, s, req)
  {
    hide Pick;
    hide Unabsorbed;
  }

  lemma {:induction false} ReplyIgnoresQueue(x: Session, y: Session, req: Request, keys: seq<string>)
    requires y.(queued := x.queued) == x
    ensures ReplyOf(y, req, keys) == ReplyOf(x, req, keys)
  {}

  // ---- The worker's loops ----

  method TurnsOf(cfg: Config, buffer: seq<L1>) returns (turns: seq<Turn>)
    requires cfg.tier3 == RecoveredTurn
    ensures turns == Tier3(cfg, buffer)
  {
    hide RecoveredTurn;
    turns := [];
    for i := 0 to |buffer|
      invariant |turns| == i && forall j :: 0 <= j < i ==> turns[j] == RecoveredTurn(buffer[j])
    {
      turns := turns + [RecoveredTurn(buffer[i])];
    }
  }

  method FlattenFps(buffer: seq<L1>) returns (absorbed: set<string>)
    ensures absorbed == Elems(AllFps(buffer))
  {
    absorbed := {};
    ghost var done: seq<L1> := [];
    for i := 0 to |buffer|
      invariant done == buffer[..i] && absorbed == Elems(AllFps(done))
    {
      Views.AllFpsAppend(done, [buffer[i]]);
      assert AllFps([buffer[i]]) == buffer[i].fps + AllFps([]);
      ElemsAppend(AllFps(done), buffer[i].fps);
      absorbed := absorbed + set fp | fp in buffer[i].fps;
      done := done + [buffer[i]];
    }
    assert done == buffer;
  }

  method BuildChildren(drafts: seq<ChildDraft>, sid: string, parent: string) returns (kids: seq<Graph.MemoryNode>)
    ensures kids == ChildNodes(drafts, sid, parent)
  {
    hide ChildNode;
    kids := [];
    for i := 0 to |drafts|
      invariant |kids| == i && forall j :: 0 <= j < i ==> kids[j] == ChildNode(drafts[j], sid, parent)
    {
      kids := kids + [ChildNode(drafts[i], sid, parent)];
    }
  }

  lemma {:induction false} LinkOneMore(t: Graph.Table, id: string, hits: seq<string>)
    ensures hits != [] ==>
      GraphRuns.LinkAll(t, id, hits) == GraphRuns.LinkAll(Graph.Link(t, id, hits[0]), id, hits[1..])
  {}

  lemma {:induction false} NoLinks(t: Graph.Table, id: string)
    ensures GraphRuns.LinkAll(t, id, []) == t
  {}

  lemma {:induction false} SaveOneMore(t: Graph.Table, ns: seq<Graph.MemoryNode>)
    ensures ns != [] ==> GraphRuns.SaveAll(t, ns) == GraphRuns.SaveAll(Graph.Save(t, ns[0]), ns[1..])
    ensures ns != [] ==> TagsOf(ns) == Elems(ns[0].tags) + TagsOf(ns[1..])
  {}

  lemma {:induction false} SaveNothing(t: Graph.Table)
    ensures GraphRuns.SaveAll(t, []) == t && TagsOf([]) == {}
  {}

  lemma {:induction false} BundlesOneMore(t: Graph.Table, sid: string, buffer: seq<L1>, answers: seq<Option<Synth>>,
                                          e: L1, synth: Option<Synth>)
    requires |answers| == |buffer|
    ensures AfterBundles(t, sid, buffer + [e], answers + [synth])
      == var u := AfterBundles(t, sid, buffer, answers); if IsBundle(e) then AfterBundle(u, sid, synth) else u
    ensures AllBundleTags(sid, buffer + [e], answers + [synth])
      == AllBundleTags(sid, buffer, answers) + if IsBundle(e) then BundleTags(synth, sid) else {}
  {
    hide AfterBundle;
    hide BundleTags;
    hide IsBundle;
    assert (buffer + [e])[..|buffer|] == buffer && (answers + [synth])[..|buffer|] == answers;
  }

  /** Where a job raises, if it does: in the models' part, or after one of the store's. */
  datatype Crash = Nowhere | InModels | AfterNode | AfterRows | AfterBrief | AfterLinks | DuringBundles(n: nat)

  /** The answers of the models during one job, with the ids and times drawn for the nodes they lead to, and
      where the job raises. */
  datatype Answers = Answers(
    fire: bool, result: Option<(Graph.MemoryNode, string)>, sim: string -> real, synths: seq<Option<Synth>>,
    crash: Crash)

  /** The job comes to save a node. */
  predicate Saves(a: Answers) { a.fire && a.result.Some? && !a.crash.InModels? }

  predicate WritesRows(a: Answers) { !a.crash.AfterNode? }
  predicate WritesBrief(a: Answers) { WritesRows(a) && !a.crash.AfterRows? }
  predicate WritesLinks(a: Answers) { WritesBrief(a) && !a.crash.AfterBrief? }

  /** How many entries of the buffer the bundle synthesis gets to. */
  function Reached(job: Job, a: Answers): (k: nat)
    ensures k <= |job.buffer|
  {
    match a.crash
    case Nowhere => |job.buffer|
    case DuringBundles(n) => if n <= |job.buffer| then n else |job.buffer|
    case _ => 0
  }

  /** The ids of the bundle nodes that the job saves. */
  function SideIds(job: Job, a: Answers): seq<string>
    requires |a.synths| == |job.buffer|
  {
    AllBundleIds(job.sid, job.buffer[..Reached(job, a)], a.synths[..Reached(job, a)])
  }

  /** The tags that a job adds once it saves: those of its node and of its bundles. */
  function JobTags(job: Job, a: Answers): set<string>
    requires Saves(a) && |a.synths| == |job.buffer|
  {
    Elems(a.result.value.0.tags) + AllBundleTags(job.sid, job.buffer[..Reached(job, a)], a.synths[..Reached(job, a)])
  }

  function EndingOf(job: Job, a: Answers): Ending
    requires |a.synths| == |job.buffer|
  {
    if !Saves(a) then Quits
    else
      var node := Node(a.result.value.0.id, a.result.value.0.summary);
      if a.crash.Nowhere? then Completes(node, SideIds(job, a))
      else if WritesRows(a) then FailsAfterRows(node, SideIds(job, a))
      else FailsAfterNode(node)
  }

  /** What the models' answers satisfy: the compacter's node is a plain one of the session, there is an
      answer for every entry, and the ids drawn are new. */
  ghost predicate Fair(t: Graph.Table, raws: map<string, seq<Turn>>, job: Job, a: Answers) {
    && job.sid != ""
    && |a.synths| == |job.buffer|
    && (Saves(a) ==>
          var n, ids := a.result.value.0, SideIds(job, a);
          && Graph.Compacted(n) && n.session == job.sid && GraphRuns.Unused(t, n.id) && n.id !in raws
          && AllUnused(t, ids) && Distinct([n.id] + ids) && forall i :: 0 <= i < |ids| ==> ids[i] !in raws)
  }

  lemma {:induction false} TooShort(cfg: Config, m: map<string, Session>, job: Job, e: Ending)
    requires |job.buffer| < cfg.minL1
    ensures SessionsAfter(cfg, m, job, e) == SetQueued(m, job.sid, false)
  {}

  /** Pick-up, start, the absorption if there is one, and the `finally` clause. */
  lemma {:induction false} LongEnough(cfg: Config, m: map<string, Session>, job: Job, e: Ending)
    requires |job.buffer| >= cfg.minL1
    ensures var started := SetFlight(SetQueued(m, job.sid, false), job.sid, true);
      var fps := Elems(AllFps(job.buffer));
      var done := if e.Completes? then SetDone(started, job.sid, fps, Some(e.node.summary), Some(cfg.ack)) else started;
      SessionsAfter(cfg, m, job, e) == SetFlight(done, job.sid, false)
  {
    hide Elems;
    hide AllFps;
  }

  /** The node table after a job that saves a node, linked to these hits. */
  function TableAfter(t: Graph.Table, job: Job, a: Answers, hits: seq<string>): Graph.Table
    requires a.result.Some? && |a.synths| == |job.buffer|
  {
    var n, k := a.result.value.0, Reached(job, a);
    AfterBundles(GraphRuns.LinkAll(Graph.Save(t, n), n.id, hits), job.sid, job.buffer[..k], a.synths[..k])
  }

  lemma {:induction false} KeyedAfterSave(t: Graph.Table, n: Graph.MemoryNode)
    requires Keyed(t)
    ensures Keyed(Graph.Save(t, n))
  {}

  lemma {:induction false} KeyedAfterLinks(t: Graph.Table, id: string, hits: seq<string>)
    requires Keyed(t)
    ensures Keyed(GraphRuns.LinkAll(t, id, hits))
  {
    GraphRuns.LinkAllKeeps(t, id, hits);
    var u := GraphRuns.LinkAll(t, id, hits);
    hide GraphRuns.LinkAll;
    forall x | x in u ensures u[x].id == x { assert u[x].(links := []).id == t[x].(links := []).id; }
  }

  lemma {:induction false} KeyedAfterSaves(t: Graph.Table, ns: seq<Graph.MemoryNode>)
    requires Keyed(t)
    ensures Keyed(GraphRuns.SaveAll(t, ns))
    decreases |ns|
  {
    if ns != [] { KeyedAfterSaves(Graph.Save(t, ns[0]), ns[1..]); }
  }

  lemma {:induction false} KeyedAfterBundles(t: Graph.Table, sid: string, buffer: seq<L1>, answers: seq<Option<Synth>>)
    requires Keyed(t) && |answers| == |buffer|
    ensures Keyed(AfterBundles(t, sid, buffer, answers))
  {
    hide IsBundle;
    if buffer != [] {
      var k := |buffer| - 1;
      KeyedAfterBundles(t, sid, buffer[..k], answers[..k]);
      var u := AfterBundles(t, sid, buffer[..k], answers[..k]);
      if Usable(answers[k]) {
        KeyedAfterSaves(u, ChildNodes(Kept(answers[k].value), sid, answers[k].value.parentId));
      }
    }
  }

  lemma {:induction false} TableKeyed(t: Graph.Table, job: Job, a: Answers, hits: seq<string>)
    requires Keyed(t) && a.result.Some? && |a.synths| == |job.buffer|
    ensures Keyed(TableAfter(t, job, a, hits))
  {
    var n, k := a.result.value.0, Reached(job, a);
    KeyedAfterSave(t, n);
    KeyedAfterLinks(Graph.Save(t, n), n.id, hits);
    KeyedAfterBundles(GraphRuns.LinkAll(Graph.Save(t, n), n.id, hits), job.sid, job.buffer[..k], a.synths[..k]);
  }

  lemma {:induction false} SavedIsRow(t: Graph.Table, n: Graph.MemoryNode)
    ensures n.id in Graph.Save(t, n) && Graph.Save(t, n)[n.id] == n
    ensures Graph.Save(t, n).Keys == t.Keys + {n.id}
  {}

  lemma {:induction false} UnusedAfterSave(t: Graph.Table, n: Graph.MemoryNode, ids: seq<string>)
    requires Graph.Compacted(n) && AllUnused(t, ids) && Distinct([n.id] + ids)
    ensures AllUnused(Graph.Save(t, n), ids)
  {
    forall i | 0 <= i < |ids| ensures GraphRuns.Unused(Graph.Save(t, n), ids[i]) {
      assert ([n.id] + ids)[1 + i] == ids[i] && ([n.id] + ids)[0] != ([n.id] + ids)[1 + i];
      assert GraphRuns.Unused(t, ids[i]);
    }
  }

  lemma {:induction false} UnusedStays(t: Graph.Table, id: string, hits: seq<string>, ids: seq<string>)
    requires AllUnused(t, ids)
    ensures AllUnused(GraphRuns.LinkAll(t, id, hits), ids)
  {
    hide GraphRuns.LinkAll;
    forall i | 0 <= i < |ids| ensures GraphRuns.Unused(GraphRuns.LinkAll(t, id, hits), ids[i]) {
      assert GraphRuns.Unused(t, ids[i]);
      GraphRuns.UnusedAfterLinks(t, id, hits, ids[i]);
    }
  }

  /** The bundle part of a job's writes, after the node is saved and linked. */
  lemma {:induction false} SideWrites(t: Graph.Table, raws: map<string, seq<Turn>>, job: Job, a: Answers,
                                      hits: seq<string>, topK: nat)
    requires Fair(t, raws, job, a) && Saves(a)
    ensures var n := a.result.value.0;
      var linked, u := GraphRuns.LinkAll(Graph.Save(t, n), n.id, hits), TableAfter(t, job, a, hits);
      && GraphRuns.Reaches(Graph.Store(linked, Graph.Resting), Graph.Store(u, Graph.Resting), topK)
      && u.Keys == t.Keys + {n.id} + Elems(SideIds(job, a))
  {
    var n, ids, k := a.result.value.0, SideIds(job, a), Reached(job, a);
    var saved := Graph.Save(t, n);
    SavedIsRow(t, n);
    UnusedAfterSave(t, n, ids);
    PartsDistinct([n.id], ids);
    hide Graph.Save;
    hide AllBundleIds;
    hide GraphRuns.LinkAll;
    GraphRuns.LinkAllKeeps(saved, n.id, hits);
    UnusedStays(saved, n.id, hits, ids);
    BundlesReach(GraphRuns.LinkAll(saved, n.id, hits), job.sid, job.buffer[..k], a.synths[..k], topK);
    hide AfterBundles;
  }

  /** The graph writes of any job, however far it gets, are a run of the graph's operations, so they keep the
      graph well formed; and they add exactly the ids drawn. */
  lemma {:induction false} JobKeepsGraph(t: Graph.Table, raws: map<string, seq<Turn>>, job: Job, a: Answers,
                                         hits: seq<string>, topK: nat, minScore: real)
    requires Graph.GraphOk(t) && Fair(t, raws, job, a) && Saves(a)
    requires var n := a.result.value.0;
      hits == [] || IsHits(Graph.Save(t, n), job.sid, false, n.id, a.sim, topK, minScore, hits)
    ensures var u := TableAfter(t, job, a, hits);
      && GraphRuns.Reaches(Graph.Store(t, Graph.Resting), Graph.Store(u, Graph.Resting), topK)
      && Graph.GraphOk(u)
  {
    var n := a.result.value.0;
    var saved := Graph.Save(t, n);
    SavedIsRow(t, n);
    Graph.SavePlainOk(Graph.Store(t, Graph.Resting), n);
    SideWrites(t, raws, job, a, hits, topK);
    hide Graph.GraphOk;
    hide Graph.Save;
    hide AllBundleIds;
    hide GraphRuns.LinkAll;
    hide TableAfter;
    if hits != [] { HitsFound(saved, job.sid, n.id, a.sim, topK, minScore, hits); }
    GraphRuns.CompactionReaches(t, n, hits, topK);
    var linked, u := GraphRuns.LinkAll(saved, n.id, hits), TableAfter(t, job, a, hits);
    var s := Graph.Store(t, Graph.Resting);
    GraphRuns.Then(s, Graph.Store(linked, Graph.Resting), Graph.Store(u, Graph.Resting), topK);
    RunKeepsGraph(t, u, topK);
  }

  lemma {:induction false} HitsFound(t: Graph.Table, sid: string, id: string, sim: string -> real, topK: nat,
                                     minScore: real, hits: seq<string>)
    requires Graph.GraphOk(t) && sid != "" && id in t && t[id].session == sid
    requires IsHits(t, sid, false, id, sim, topK, minScore, hits)
    ensures |hits| <= topK && Distinct(hits) && forall i :: 0 <= i < |hits| ==> Graph.IsPeer(t, id, hits[i])
  {
    var peers :| HitsAmong(t, sid, false, id, sim, topK, minScore, hits, peers);
    HitsArePeers(t, sid, id, peers, sim, topK, minScore);
  }

  lemma {:induction false} RunKeepsGraph(t: Graph.Table, u: Graph.Table, topK: nat)
    requires Graph.GraphOk(t) && GraphRuns.Reaches(Graph.Store(t, Graph.Resting), Graph.Store(u, Graph.Resting), topK)
    ensures Graph.GraphOk(u)
  {
    hide Graph.GraphOk;
    var s := Graph.Store(t, Graph.Resting);
    var ops :| Graph.Legal(ops, s, topK) && Graph.Run(ops, s, topK) == Graph.Store(u, Graph.Resting);
    Graph.GraphAlwaysOk(ops, s, topK);
  }

  /** The ids drawn are new to the machine too. */
  lemma {:induction false} FairIds(t: Graph.Table, raws: map<string, seq<Turn>>, s: Sys, job: Job, a: Answers)
    requires Fair(t, raws, job, a) && Saves(a) && s.saved == t.Keys && s.raw == raws
    ensures NewIds(s, a.result.value.0.id, SideIds(job, a)) && NewIds(s, a.result.value.0.id, [])
  {
    var n, ids := a.result.value.0, SideIds(job, a);
    PartsDistinct([n.id], ids);
    hide SideIds;
    assert n.id in [n.id];
    forall i | 0 <= i < |ids| ensures ids[i] !in s.saved && ids[i] !in s.raw { assert GraphRuns.Unused(t, ids[i]); }
  }

  class TrimOrchestrator {
    const h: Hash
    const ack: string
    const minL1: int
    const topK: nat
    const linkThreshold: real
    const hopDecay: real
    const cross: bool
    const store: NodeStore
    const registry: SessionRegistry
    var jobs: seq<Job>
    ghost var log: seq<Request>

    constructor (h: Hash, minL1: int, topK: nat, linkThreshold: real, hopDecay: real, cross: bool, store: NodeStore)
      ensures this.h == h && this.minL1 == minL1 && this.topK == topK
      ensures ack == "Understood \U{2014} I have the prior context above. Ready for the next instruction."
      ensures this.linkThreshold == linkThreshold && this.hopDecay == hopDecay && this.cross == cross
      ensures this.store == store
      ensures registry.Valid() && fresh(registry) && registry.View() == map[] && jobs == [] && log == []
    {
      this.h, this.minL1, this.topK, this.linkThreshold, this.hopDecay := h, minL1, topK, linkThreshold, hopDecay;
      this.store, this.cross, ack := store, cross, SYNTH_ACK;
      registry := new SessionRegistry();
      jobs, log := [], [];
    }

    function Cfg(): Config { RealConfig(h, ack, minL1) }

    /** The machine's state that the objects hold, given where the two threads are. */
    ghost function State(r: Reader, w: Worker): Sys
      reads this, registry, registry.Objects(), store
    {
      Sys(registry.View(), jobs, r, w, store.rows.Keys, store.raws, log)
    }

    // ---- Request path ----

    /** The bundled view of what the session has not absorbed. */
    method UnabsorbedBuffer(req: Request, state: SessionState, l1: seq<L1>) returns (job: Job)
      requires l1 == PerMessage(h, req.msgs)
      ensures job == JobFor(Cfg(), req, state.View())
    {
      OneFpEach(h, req.msgs);
      hide PerMessage;
      hide Bundled;
      var unabsorbed := UnabsorbedIndices(l1, state.absorbedFps);
      var selected := SelectMessages(req.msgs, unabsorbed);
      var bundled := BundleL1(h, selected);
      job := Job(req.sid, bundled);
    }

    /** The check for a new job: marked and put, when enough is unabsorbed and none is pending or running. */
    method OfferJob(req: Request, state: SessionState, l1: seq<L1>)
      requires registry.Valid() && req.sid in registry.states && state == registry.states[req.sid]
      requires l1 == PerMessage(h, req.msgs)
      modifies this`jobs, registry.Objects()
      ensures registry.Valid()
      ensures OffersJob(Cfg(), req, old(state.View()), old(registry.View()), registry.View(), old(jobs), jobs)
      ensures state.View().(queued := old(state.View()).queued) == old(state.View())
    {
      hide JobFor;
      hide PerMessage;
      var job := UnabsorbedBuffer(req, state, l1);
      if |job.buffer| >= minL1 && !state.compactInFlight && !state.sensorQueued {
        assert registry.View()[req.sid] == state.View();
        registry.MarkSensorQueued(req.sid);
        assert registry.View()[req.sid] == state.View();
        jobs := jobs + [job];
      }
    }

    /** The array that goes out: the request's, or the summary pair and what is not absorbed. */
    method Trimmed(req: Request, state: SessionState, l1: seq<L1>) returns (out: seq<Message>, ghost reply: Reader)
      requires l1 == PerMessage(h, req.msgs)
      ensures reply.Sent? && reply == ReplyOf(state.View(), req, Heads(l1))
      ensures out == Trimming.ArrayOf(req.msgs, ReplyOf(state.View(), req, Heads(l1)).out)
    {
      OneFpEach(h, req.msgs);
      hide PerMessage;
      out := req.msgs;
      reply := Sent(req, [], false, false, Untouched);
      if Truthy(state.summaryUser) && Truthy(state.summaryAsst) {
        var keptIdx := UnabsorbedIndices(l1, state.absorbedFps);
        var kept := SelectMessages(req.msgs, keptIdx);
        out := Trimming.SummaryPair(state.summaryUser.value, state.summaryAsst.value) + kept;
        reply := Sent(req, keptIdx, false, false, Rewritten(state.summaryUser.value, state.summaryAsst.value, kept));
      }
    }

    /** `rewrite` on a request with a session id, up to the retrieval block. */
    method RewriteArray(req: Request) returns (out: seq<Message>, ghost reply: Reader)
      requires registry.Valid()
      modifies this, registry, registry.Objects()
      ensures registry.Valid() && log == old(log) + [req]
      ensures reply.Sent? && out == Trimming.ArrayOf(req.msgs, reply.out)
      ensures var m := old(registry.View());
        var x := if req.sid in m then m[req.sid] else FRESH;
        && OffersJob(Cfg(), req, x, (if req.sid in m then m else m[req.sid := FRESH]), registry.View(), old(jobs), jobs)
        && reply == ReplyOf(x, req, Cfg().keys(req.msgs))
    {
      hide OffersJob;
      hide PerMessage;
      hide Heads;
      hide Trimming.ArrayOf;
      hide Unabsorbed;
      hide Pick;
      hide Bundled;
      hide ReplyOf;
      hide RealConfig;
      RealViews(h, ack, minL1, req.msgs, []);
      var state := registry.GetOrCreate(req.sid);
      log := log + [req];
      var l1 := MessagesToL1(h, req.msgs);
      ghost var x := state.View();
      OfferJob(req, state, l1);
      out, reply := Trimmed(req, state, l1);
      ReplyIgnoresQueue(x, state.View(), req, Heads(l1));
    }

    /** As the machine sees it, wherever the worker is: a run of the request path. */
    method Rewrite(req: Request, ghost w: Worker) returns (out: seq<Message>, ghost reply: Reader)
      requires registry.Valid()
      modifies this, registry, registry.Objects()
      ensures registry.Valid()
      ensures State(reply, w) == AfterRewrite(Cfg(), old(State(Idle, w)), req)
      ensures Reaches(Cfg(), old(State(Idle, w)), State(reply, w))
      ensures reply.Sent? && out == Trimming.ArrayOf(req.msgs, reply.out)
      ensures if reply.out.Rewritten? then
                Trimming.PairThenKept(out, reply.out.user, reply.out.asst, reply.out.kept)
              else out == req.msgs
    {
      ghost var before := State(Idle, w);
      RewriteReaches(Cfg(), before, req);
      hide AfterRewrite;
      hide Reaches;
      hide OffersJob;
      hide ReplyOf;
      out, reply := RewriteArray(req);
      Trimming.ArrayIsPairThenKept(req.msgs, reply.out);
      hide Trimming.PairThenKept;
      hide Trimming.ArrayOf;
      RewriteIs(Cfg(), before, State(reply, w), req, Sess(before, req.sid));
    }

    // ---- Worker path ----

    method CrossLink(newId: string, sid: string, sim: string -> real) returns (ghost hits: seq<string>)
      requires Keyed(store.rows)
      modifies store`rows
      ensures IsHits(old(store.rows), sid, cross, newId, sim, topK, linkThreshold, hits)
      ensures BestPeers(old(store.rows), sid, cross, newId, sim, topK, linkThreshold, hits)
      ensures store.rows == GraphRuns.LinkAll(old(store.rows), newId, hits)
    {
      hide GraphRuns.LinkAll;
      if hopDecay == 0.0 && topK == 0 {
        ghost var anyOrder := SomeOrder(Selected(store.rows, PeerRow(sid, cross, newId)));
        NoHits(Window.Pairs(anyOrder, sim), linkThreshold);
        assert HitsAmong(store.rows, sid, cross, newId, sim, topK, linkThreshold, [], anyOrder);
        hits := [];
        NoLinks(store.rows, newId);
        HitsAreBest(store.rows, sid, cross, newId, sim, topK, linkThreshold, hits);
        return;
      }
      hide BestPeers;
      var actives := store.ListActiveWithEmbeddings(sid, cross);
      var peers := FilterNodes(actives, NotSelfNorBundle(newId));
      FilterLists(actives, store.rows, ActiveRow(sid, cross), NotSelfNorBundle(newId));
      var found := CosineSearch(Window.Pairs(peers, sim), topK, linkThreshold);
      hits := Window.Keys(found);
      assert HitsAmong(store.rows, sid, cross, newId, sim, topK, linkThreshold, hits, peers);
      HitsAreBest(store.rows, sid, cross, newId, sim, topK, linkThreshold, hits);
      ghost var rest := hits;
      assert hits[0..] == hits;
      for i := 0 to |found|
        invariant rest == hits[i..]
        invariant GraphRuns.LinkAll(store.rows, newId, rest) == GraphRuns.LinkAll(old(store.rows), newId, hits)
      {
        LinkOneMore(store.rows, newId, rest);
        store.AddBidirectionalLink(newId, found[i].0);
        rest := rest[1..];
      }
      NoLinks(store.rows, newId);
    }

    method SynthesizeBundleFor(synth: Option<Synth>, sid: string)
      modifies store`rows, store`tags
      ensures store.rows == AfterBundle(old(store.rows), sid, synth)
      ensures store.tags == old(store.tags) + BundleTags(synth, sid)
    {
      if synth.None? || synth.value.summary == "" || synth.value.children == [] { return; }
      hide GraphRuns.SaveAll;
      hide TagsOf;
      hide ChildNodes;
      var drafts, pid := Kept(synth.value), synth.value.parentId;
      var kids := BuildChildren(drafts, sid, pid);
      var parent := ParentNode(synth.value, sid);
      ghost var rest := kids;
      assert kids[0..] == kids;
      for i := 0 to |kids|
        invariant rest == kids[i..] && GraphRuns.SaveAll(store.rows, rest) == GraphRuns.SaveAll(old(store.rows), kids)
        invariant store.tags + TagsOf(rest) == old(store.tags) + TagsOf(kids)
      {
        SaveOneMore(store.rows, rest);
        store.SaveNode(kids[i]);
        rest := rest[1..];
      }
      SaveNothing(store.rows);
      store.SaveNode(parent);
    }

    method SynthesizeBundles(sid: string, buffer: seq<L1>, answers: seq<Option<Synth>>)
      requires |answers| == |buffer|
      modifies store`rows, store`tags
      ensures store.rows == AfterBundles(old(store.rows), sid, buffer, answers)
      ensures store.tags == old(store.tags) + AllBundleTags(sid, buffer, answers)
    {
      hide AfterBundle;
      hide BundleTags;
      hide IsBundle;
      ghost var entries: seq<L1>, given: seq<Option<Synth>> := [], [];
      for i := 0 to |buffer|
        invariant entries == buffer[..i] && given == answers[..i]
        invariant store.rows == AfterBundles(old(store.rows), sid, entries, given)
        invariant store.tags == old(store.tags) + AllBundleTags(sid, entries, given)
      {
        BundlesOneMore(old(store.rows), sid, entries, given, buffer[i], answers[i]);
        if IsBundle(buffer[i]) { SynthesizeBundleFor(answers[i], sid); }
        entries, given := entries + [buffer[i]], given + [answers[i]];
      }
      assert entries == buffer && given == answers;
    }

    /** The node, its tier-3 rows and the brief, as far as the job gets. */
    method SaveCompacted(job: Job, a: Answers, node: Graph.MemoryNode, brief: string)
      modifies store
      ensures store.rows == Graph.Save(old(store.rows), node)
      ensures store.raws == if WritesRows(a) then RawAfter(Cfg(), old(store.raws), job, Node(node.id, node.summary))
                            else old(store.raws)
      ensures store.briefs ==
        if WritesBrief(a) then WithBrief(old(store.briefs), job.sid, brief) else old(store.briefs)
      ensures store.tags == old(store.tags) + Elems(node.tags)
    {
      hide Strip;
      var turns := TurnsOf(Cfg(), job.buffer);
      store.SaveNode(node);
      if a.crash.AfterNode? { return; }
      if turns != [] { store.SaveRawTurns(node.id, turns); }
      if a.crash.AfterRows? { return; }
      if Strip(brief) != "" { store.SaveSessionBrief(job.sid, Strip(brief)); }
    }

    /** What a job that saves a node does to the tables. */
    ghost predicate Stored(t: Graph.Table, raws: map<string, seq<Turn>>, job: Job, a: Answers, hits: seq<string>,
                           t': Graph.Table, raws': map<string, seq<Turn>>)
      requires a.result.Some? && |a.synths| == |job.buffer|
    {
      var n := a.result.value.0;
      && (if WritesLinks(a) then IsHits(Graph.Save(t, n), job.sid, cross, n.id, a.sim, topK, linkThreshold, hits)
          else hits == [])
      && t' == TableAfter(t, job, a, hits)
      && raws' == if WritesRows(a) then RawAfter(Cfg(), raws, job, Node(n.id, n.summary)) else raws
    }

    /** The store's part of a compaction: the node, its rows and brief, its links, its bundles; each statement
        may be the last. */
    method StoreCompacted(job: Job, a: Answers) returns (ghost hits: seq<string>)
      requires Keyed(store.rows) && |a.synths| == |job.buffer| && Saves(a)
      modifies store
      ensures Stored(old(store.rows), old(store.raws), job, a, hits, store.rows, store.raws)
      ensures store.briefs ==
        if WritesBrief(a) then WithBrief(old(store.briefs), job.sid, a.result.value.1) else old(store.briefs)
      ensures store.tags == old(store.tags) + JobTags(job, a)
    {
      hide Strip;
      hide RawAfter;
      hide IsHits;
      hide AfterBundle;
      hide IsBundle;
      hide Elems;
      hide AllBundleTags;
      var (node, brief) := a.result.value;
      var k := Reached(job, a);
      KeyedAfterSave(store.rows, node);
      SaveCompacted(job, a, node, brief);
      hits := [];
      if !WritesLinks(a) {
        NoLinks(store.rows, node.id);
        NoBundles(store.rows, job.sid, job.buffer, a.synths);
        return;
      }
      hide GraphRuns.LinkAll;
      hits := CrossLink(node.id, job.sid, a.sim);
      hide AfterBundles;
      SynthesizeBundles(job.sid, job.buffer[..k], a.synths[..k]);
    }

    /** The part of a job under its `try`, once there is a compacted node. */
    method Compact(job: Job, a: Answers) returns (ghost hits: seq<string>)
      requires registry.Valid() && Keyed(store.rows) && |a.synths| == |job.buffer| && Saves(a)
      modifies store, registry.Objects()
      ensures registry.Valid()
      ensures registry.View() == var m := old(registry.View());
        if a.crash.Nowhere? then
          SetDone(m, job.sid, Elems(AllFps(job.buffer)), Some(a.result.value.0.summary), Some(ack))
        else m
      ensures Stored(old(store.rows), old(store.raws), job, a, hits, store.rows, store.raws)
      ensures store.briefs ==
        if WritesBrief(a) then WithBrief(old(store.briefs), job.sid, a.result.value.1) else old(store.briefs)
      ensures store.tags == old(store.tags) + JobTags(job, a)
    {
      hide Elems;
      hide AllFps;
      hide Stored;
      hide WithBrief;
      hide JobTags;
      hits := StoreCompacted(job, a);
      if !a.crash.Nowhere? { return; }
      var absorbed := FlattenFps(job.buffer);
      registry.MarkCompactDone(job.sid, absorbed, Some(a.result.value.0.summary), Some(ack));
    }

    /** A job, up to its normal end or to where it raises; the `finally` clause comes last either way. */
    method DoSensorCheck(job: Job, a: Answers) returns (ghost hits: seq<string>)
      requires registry.Valid() && Keyed(store.rows) && |a.synths| == |job.buffer|
      modifies store, registry.Objects()
      ensures registry.Valid()
      ensures registry.View() == SessionsAfter(Cfg(), old(registry.View()), job, EndingOf(job, a))
      ensures |job.buffer| >= minL1 && Saves(a) ==>
        Stored(old(store.rows), old(store.raws), job, a, hits, store.rows, store.raws)
      ensures store.briefs ==
        if |job.buffer| >= minL1 && Saves(a) && WritesBrief(a)
        then WithBrief(old(store.briefs), job.sid, a.result.value.1) else old(store.briefs)
      ensures store.tags == old(store.tags) + if |job.buffer| >= minL1 && Saves(a) then JobTags(job, a) else {}
      ensures !(|job.buffer| >= minL1 && Saves(a)) ==> store.rows == old(store.rows) && store.raws == old(store.raws)
    {
      hide JobTags;
      hide Stored;
      hide WithBrief;
      hide SessionsAfter;
      hide SideIds;
      hits := [];
      ghost var m := registry.View();
      registry.MarkSensorPickup(job.sid);
      if |job.buffer| < minL1 {
        TooShort(Cfg(), m, job, EndingOf(job, a));
        return;
      }
      registry.MarkCompactStart(job.sid);
      if Saves(a) { hits := Compact(job, a); }
      registry.ClearFlight(job.sid);
      LongEnough(Cfg(), m, job, EndingOf(job, a));
    }

    /** One turn of the worker's loop, as the machine sees it: a run of it, however the job ends and wherever
        the request path is. With cross-session linking off it is a run of the graph's operations too. */
    method RunJob(a: Answers, ghost r: Reader) returns (ghost hits: seq<string>, ghost r': Reader)
      requires registry.Valid() && Keyed(store.rows)
      requires jobs != [] && Fair(store.rows, store.raws, jobs[0], a)
      modifies this`jobs, store, registry.Objects()
      ensures registry.Valid() && Keyed(store.rows)
      ensures State(r', Waiting) ==
        var job := old(jobs[0]);
        AfterJob(Cfg(), old(State(r, Dequeued(jobs[0])).(queue := jobs[1..])), job, EndingOf(job, a))
      ensures Reaches(Cfg(), old(State(r, Waiting)), State(r', Waiting))
      ensures !cross && Graph.GraphOk(old(store.rows)) ==>
        && Graph.GraphOk(store.rows)
        && GraphRuns.Reaches(Graph.Store(old(store.rows), Graph.Resting), Graph.Store(store.rows, Graph.Resting), topK)
    {
      hide AfterJob;
      hide Fair;
      hide Stored;
      hide Reaches;
      hide GraphRuns.Reaches;
      hide Graph.GraphOk;
      hide EndingOf;
      hide SessionsAfter;
      hide WithBrief;
      hide WritesBrief;
      hide Keyed;
      ghost var s, t := State(r, Waiting), State(r, Dequeued(jobs[0])).(queue := jobs[1..]);
      ghost var rows, raws := store.rows, store.raws;
      var job := jobs[0];
      FairCount(rows, raws, job, a);
      JobRuns(Cfg(), s, t, rows, raws, job, a);
      jobs := jobs[1..];
      hits := DoSensorCheck(job, a);
      r' := AfterJob(Cfg(), t, job, EndingOf(job, a)).reader;
      JobIs(this, t, rows, raws, job, a, hits, store.rows, store.raws, State(r', Waiting));
      if !cross && Graph.GraphOk(rows) { GraphIs(this, rows, raws, job, a, hits, store.rows, store.raws); }
    }
  }

  lemma {:induction false} NoBundles(t: Graph.Table, sid: string, buffer: seq<L1>, answers: seq<Option<Synth>>)
    requires |answers| == |buffer|
    ensures AfterBundles(t, sid, buffer[..0], answers[..0]) == t && AllBundleTags(sid, buffer[..0], answers[..0]) == {}
  {}

  lemma {:induction false} FairCount(t: Graph.Table, raws: map<string, seq<Turn>>, job: Job, a: Answers)
    requires Fair(t, raws, job, a)
    ensures |a.synths| == |job.buffer|
  {}

  lemma {:induction false} JobRuns(cfg: Config, s: Sys, t: Sys, rows: Graph.Table, raws: map<string, seq<Turn>>,
                                   job: Job, a: Answers)
    requires s.worker.Waiting? && s.queue != [] && job == s.queue[0]
    requires t == s.(queue := s.queue[1..], worker := Dequeued(job)) && s.saved == rows.Keys && s.raw == raws
    requires Fair(rows, raws, job, a)
    ensures Reaches(cfg, s, AfterJob(cfg, t, job, EndingOf(job, a)))
  {
    hide SideIds;
    hide AfterJob;
    Uninterrupted.Stay(cfg, s);
    ThenEvent(cfg, s, s, Dequeue);
    if Saves(a) { FairIds(rows, raws, t, job, a); }
    FairCount(rows, raws, job, a);
    hide Fair;
    JobReaches(cfg, t, job, EndingOf(job, a));
    Uninterrupted.Then(cfg, s, t, AfterJob(cfg, t, job, EndingOf(job, a)));
  }

  /** The tables after a job agree with the machine. */
  lemma {:induction false} JobIs(o: TrimOrchestrator, t: Sys, rows: Graph.Table, raws: map<string, seq<Turn>>,
                                 job: Job, a: Answers,
                                 hits: seq<string>, rows': Graph.Table, raws': map<string, seq<Turn>>, u: Sys)
    requires Keyed(rows) && Fair(rows, raws, job, a) && t.saved == rows.Keys && t.raw == raws
    requires u == t.(sessions := SessionsAfter(o.Cfg(), t.sessions, job, EndingOf(job, a)), worker := Waiting,
                     reader := AfterJob(o.Cfg(), t, job, EndingOf(job, a)).reader, saved := rows'.Keys, raw := raws')
    requires if |job.buffer| >= o.minL1 && Saves(a) then o.Stored(rows, raws, job, a, hits, rows', raws')
             else rows' == rows && raws' == raws
    ensures u == AfterJob(o.Cfg(), t, job, EndingOf(job, a))
    ensures Keyed(rows')
  {
    if |job.buffer| >= o.minL1 && Saves(a) {
      SideWrites(rows, raws, job, a, hits, o.topK);
      TableKeyed(rows, job, a, hits);
      if a.crash.AfterNode? { assert SideIds(job, a) == []; }
    }
    hide SideIds;
    hide SessionsAfter;
    hide ReaderAfter;
    hide RawAfter;
    hide TableAfter;
    hide IsHits;
  }

  /** And the graph is still well formed. */
  lemma {:induction false} GraphIs(o: TrimOrchestrator, rows: Graph.Table, raws: map<string, seq<Turn>>,
                                   job: Job, a: Answers,
                                   hits: seq<string>, rows': Graph.Table, raws': map<string, seq<Turn>>)
    requires Graph.GraphOk(rows) && Fair(rows, raws, job, a) && !o.cross
    requires if |job.buffer| >= o.minL1 && Saves(a) then o.Stored(rows, raws, job, a, hits, rows', raws')
             else rows' == rows && raws' == raws
    ensures GraphRuns.Reaches(Graph.Store(rows, Graph.Resting), Graph.Store(rows', Graph.Resting), o.topK)
    ensures Graph.GraphOk(rows')
  {
    hide SideIds;
    hide TableAfter;
    hide IsHits;
    hide RawAfter;
    hide Graph.GraphOk;
    if |job.buffer| >= o.minL1 && Saves(a) {
      JobKeepsGraph(rows, raws, job, a, hits, o.topK, o.linkThreshold);
    } else {
      GraphRuns.Stay(Graph.Store(rows, Graph.Resting), o.topK);
    }
  }
}
