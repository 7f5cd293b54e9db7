// Which entries of a buffer are synthesized into bundles, and what a completed job leaves of them.
module Synthesis {
  import opened Sequences
  import opened Text
  import opened Messages
  import opened Machine
  import opened Orchestrator
  import Graph
  import GraphRuns
  import ToolCalls
  import Views

  // ---- The test on the preview ----

  /** The entry of a tool run is always taken for one. */
  lemma {:induction false} RunIsBundle(h: Hash, run: seq<Message>)
    ensures IsBundle(BundleEntry(h, run))
  {
    hide MapParts;
    hide Join;
    var uncut := RunText(run);
    hide RunPreview;
    hide RunRaw;
    hide Fps;
    assert |"[tool_bundle]"| == 13;
  }

  lemma {:induction false} RunText(run: seq<Message>) returns (uncut: string)
    ensures "[tool_bundle]" <= uncut && RunPreview(run) == Prefix(uncut, 1500) && |uncut| > 13
  {
    hide MapParts;
    var lines := MapParts(PartLine, ToolCalls.Render(RunEvents(run)));
    hide Join;
    uncut := if lines == [] then "[tool_bundle] (empty)" else "[tool_bundle]\n" + Join("\n", lines);
  }

  /** The entry of one message is taken for one exactly when its role says so. */
  lemma {:induction false} PlainIsBundleIff(h: Hash, m: Message)
    requires ']' !in m.role
    ensures IsBundle(Plain(h, m)) <==> m.role == "tool_bundle"
  {
    hide TextOf;
    hide Prefix;
    var c, name := Plain(h, m).content, "tool_bundle";
    var rest := "] " + Prefix(TextOf(m.content), 500);
    assert c == "[" + m.role + rest;
    if m.role == name { assert c[..13] == "[tool_bundle]"; }
    if IsBundle(Plain(h, m)) { SameUpToBracket(m.role, name, rest, c); }
  }

  lemma {:induction false} SameUpToBracket(role: string, name: string, rest: string, c: string)
    requires ']' !in role && ']' !in name && c == "[" + role + rest && rest != "" && rest[0] == ']'
    requires "[" + name + "]" <= c
    ensures role == name
  {
    var p := "[" + name + "]";
    assert c[|role| + 1] == ']' && c[|name| + 1] == p[|name| + 1] == ']';
    forall i | 0 <= i < |role| ensures c[i + 1] == role[i] {}
    forall i | 0 <= i < |name| ensures c[i + 1] == name[i] { assert c[i + 1] == p[i + 1]; }
    assert forall j :: 0 < j <= |role| ==> c[j] == role[j - 1];
    assert forall j :: 0 < j <= |name| ==> c[j] == name[j - 1];
    assert |name| >= |role| && |role| >= |name|;
  }

  /** Entry k is that of a whole tool run. */
  ghost predicate RunEntry(h: Hash, ms: seq<Message>, k: nat) {
    k < |Bundled(h, ms)| && exists lo: nat, hi: nat :: IsRunEntry(h, ms, k, lo, hi)
  }

  ghost predicate IsRunEntry(h: Hash, ms: seq<Message>, k: nat, lo: nat, hi: nat) {
    k < |Bundled(h, ms)| && Views.RunAt(ms, lo, hi) && Bundled(h, ms)[k] == BundleEntry(h, ms[lo..hi])
  }

  ghost predicate TwoRoles(ms: seq<Message>) {
    forall i :: 0 <= i < |ms| ==> ms[i].role == "user" || ms[i].role == "assistant"
  }

  /** Of a conversation's entries exactly those of its tool runs are taken for synthesis. */
  lemma {:induction false} TakenIffRun(h: Hash, ms: seq<Message>, k: nat)
    requires TwoRoles(ms) && k < |Bundled(h, ms)|
    ensures IsBundle(Bundled(h, ms)[k]) <==> RunEntry(h, ms, k)
  {
    hide IsBundle;
    hide Bundled;
    hide BundleEntry;
    hide Visible;
    hide KindOf;
    hide TextOf;
    if RunEntry(h, ms, k) {
      var lo: nat, hi: nat :| IsRunEntry(h, ms, k, lo, hi);
      RunIsBundle(h, ms[lo..hi]);
    } else {
      var lo, hi := Views.EntryStands(h, ms, k);
      assert !IsRunEntry(h, ms, k, lo, hi);
      NoBracketRoles(ms[lo]);
      PlainIsBundleIff(h, ms[lo]);
    }
  }

  lemma {:induction false} NoBracketRoles(m: Message)
    requires m.role == "user" || m.role == "assistant"
    ensures ']' !in m.role && m.role != "tool_bundle"
  {
    assert "user"[0] == 'u' && "assistant"[0] == 'a' && "tool_bundle"[0] == 't';
  }

  // ---- What is saved of a bundle ----

  /** How many of the children are kept. */
  function KeptCount(synth: Synth): nat { if |synth.children| <= 12 then |synth.children| else 12 }

  ghost predicate ChildSaved(u: Graph.Table, synth: Synth, sid: string, i: nat)
    requires i < |synth.children|
  {
    var c := synth.children[i];
    && c.id in u && u[c.id].id == c.id && u[c.id].summary == c.summary && u[c.id].session == sid
    && u[c.id].parent == Some(synth.parentId) && u[c.id].links == [] && !u[c.id].embedded
    && u[c.id].recall == Graph.ActiveOnly && u[c.id].reason == "bundle_child"
    && u[c.id].tags == ["FROM_BUNDLE:" + synth.parentId, "TOOL:" + c.tool, "IMPORTANCE:LOW"]
  }

  ghost predicate ParentSaved(u: Graph.Table, synth: Synth, sid: string) {
    var p := synth.parentId;
    && p in u && u[p].id == p && u[p].summary == synth.summary && u[p].session == sid && u[p].parent == None
    && u[p].embedded && u[p].recall == Graph.ActiveOnly && u[p].reason == "bundle_parent" && u[p].tags == synth.tags
    && |u[p].links| == KeptCount(synth)
    && forall i :: 0 <= i < KeptCount(synth) ==> u[p].links[i] == synth.children[i].id
  }

  /** The parent with its first children, at most twelve, all as the synthesis describes them. */
  ghost predicate BundleSaved(u: Graph.Table, synth: Synth, sid: string) {
    ParentSaved(u, synth, sid) && forall i :: 0 <= i < KeptCount(synth) ==> ChildSaved(u, synth, sid, i)
  }

  lemma {:induction false} SaveAllOthers(t: Graph.Table, ns: seq<Graph.MemoryNode>, id: string)
    requires forall i :: 0 <= i < |ns| ==> ns[i].id != id
    ensures id in GraphRuns.SaveAll(t, ns) <==> id in t
    ensures id in t ==> GraphRuns.SaveAll(t, ns)[id] == t[id]
    decreases |ns|
  {
    if ns != [] { SaveAllOthers(Graph.Save(t, ns[0]), ns[1..], id); }
  }

  lemma {:induction false} SaveAllHas(t: Graph.Table, ns: seq<Graph.MemoryNode>, i: nat)
    requires i < |ns| && forall x, y :: 0 <= x < y < |ns| ==> ns[x].id != ns[y].id
    ensures ns[i].id in GraphRuns.SaveAll(t, ns) && GraphRuns.SaveAll(t, ns)[ns[i].id] == ns[i]
    decreases |ns|
  {
    var u := Graph.Save(t, ns[0]);
    if i == 0 { SaveAllOthers(u, ns[1..], ns[0].id); } else { SaveAllHas(u, ns[1..], i - 1); }
  }

  lemma {:induction false} KidIds(synth: Synth, sid: string)
    requires Usable(Some(synth)) && Distinct(BundleIds(Some(synth), sid))
    ensures var kids := ChildNodes(Kept(synth), sid, synth.parentId);
      && |kids| == KeptCount(synth)
      && (forall i :: 0 <= i < |kids| ==>
            kids[i] == ChildNode(synth.children[i], sid, synth.parentId) && kids[i].id != synth.parentId)
      && (forall i, j :: 0 <= i < j < |kids| ==> kids[i].id != kids[j].id)
  {
    var kids := ChildNodes(Kept(synth), sid, synth.parentId);
    var ids := BundleIds(Some(synth), sid);
    assert ids == Graph.Ids(kids) + [synth.parentId] && ids[|kids|] == synth.parentId;
    forall i | 0 <= i < |kids|
      ensures kids[i] == ChildNode(synth.children[i], sid, synth.parentId) && kids[i].id != synth.parentId
    {
      assert ids[i] == kids[i].id;
    }
    forall i, j | 0 <= i < j < |kids| ensures kids[i].id != kids[j].id {
      assert ids[i] == kids[i].id && ids[j] == kids[j].id;
    }
  }

  /** One bundle. */
  lemma {:induction false} BundleIsSaved(t: Graph.Table, sid: string, synth: Synth)
    requires Usable(Some(synth)) && Distinct(BundleIds(Some(synth), sid))
    ensures BundleSaved(AfterBundle(t, sid, Some(synth)), synth, sid)
  {
    KidIds(synth, sid);
    var kids := ChildNodes(Kept(synth), sid, synth.parentId);
    var saved, u := GraphRuns.SaveAll(t, kids), AfterBundle(t, sid, Some(synth));
    hide GraphRuns.SaveAll;
    hide ChildNodes;
    hide BundleIds;
    hide Kept;
    forall i | 0 <= i < |kids| ensures ChildSaved(u, synth, sid, i) {
      SaveAllHas(t, kids, i);
      assert u[kids[i].id] == saved[kids[i].id] == kids[i];
    }
    assert u[synth.parentId] == ParentNode(synth, sid);
    assert forall i :: 0 <= i < |kids| ==> u[synth.parentId].links[i] == kids[i].id;
  }

  lemma {:induction false} BundleIdsAre(synth: Synth, sid: string)
    requires Usable(Some(synth))
    ensures synth.parentId in BundleIds(Some(synth), sid)
    ensures forall i :: 0 <= i < KeptCount(synth) ==> synth.children[i].id in BundleIds(Some(synth), sid)
  {
    var kids := ChildNodes(Kept(synth), sid, synth.parentId);
    var ids := BundleIds(Some(synth), sid);
    assert ids[|kids|] == synth.parentId;
    forall i | 0 <= i < KeptCount(synth) ensures synth.children[i].id in ids {
      assert kids[i] == ChildNode(synth.children[i], sid, synth.parentId) && ids[i] == kids[i].id;
    }
  }

  /** Another bundle leaves it alone. */
  lemma {:induction false} OtherBundleKeeps(t: Graph.Table, sid: string, other: Option<Synth>, id: string)
    requires id in t && id !in BundleIds(other, sid)
    ensures id in AfterBundle(t, sid, other) && AfterBundle(t, sid, other)[id] == t[id]
  {
    if Usable(other) {
      var kids := ChildNodes(Kept(other.value), sid, other.value.parentId);
      var ids := BundleIds(other, sid);
      assert ids[|kids|] == other.value.parentId;
      forall i | 0 <= i < |kids| ensures kids[i].id != id { assert ids[i] == kids[i].id && ids[i] in ids; }
      SaveAllOthers(t, kids, id);
    }
  }

  lemma {:induction false} BundleKept(t: Graph.Table, sid: string, other: Option<Synth>, synth: Synth)
    requires Usable(Some(synth)) && BundleSaved(t, synth, sid)
    requires forall x, y :: x in BundleIds(Some(synth), sid) && y in BundleIds(other, sid) ==> x != y
    ensures BundleSaved(AfterBundle(t, sid, other), synth, sid)
  {
    BundleIdsAre(synth, sid);
    hide BundleIds;
    hide AfterBundle;
    OtherBundleKeeps(t, sid, other, synth.parentId);
    forall i | 0 <= i < KeptCount(synth) ensures ChildSaved(AfterBundle(t, sid, other), synth, sid, i) {
      assert ChildSaved(t, synth, sid, i);
      OtherBundleKeeps(t, sid, other, synth.children[i].id);
    }
  }

  lemma {:induction false} IdsOf(sid: string, buffer: seq<L1>, answers: seq<Option<Synth>>, k: nat)
    requires |answers| == |buffer| && k < |buffer| && IsBundle(buffer[k])
    ensures forall x :: x in BundleIds(answers[k], sid) ==> x in AllBundleIds(sid, buffer, answers)
  {
    hide IsBundle;
    hide BundleIds;
    var last := |buffer| - 1;
    if k < last { IdsOf(sid, buffer[..last], answers[..last], k); }
  }

  /** Each bundle of a buffer is saved, and stays. */
  lemma {:induction false} EachIsSaved(t: Graph.Table, sid: string, buffer: seq<L1>, answers: seq<Option<Synth>>,
                                       k: nat)
    requires |answers| == |buffer| && Distinct(AllBundleIds(sid, buffer, answers))
    requires k < |buffer| && IsBundle(buffer[k]) && Usable(answers[k])
    ensures BundleSaved(AfterBundles(t, sid, buffer, answers), answers[k].value, sid)
  {
    var last := |buffer| - 1;
    var before := AllBundleIds(sid, buffer[..last], answers[..last]);
    var ids := if IsBundle(buffer[last]) then BundleIds(answers[last], sid) else [];
    PartsDistinct(before, ids);
    var u := AfterBundles(t, sid, buffer[..last], answers[..last]);
    hide IsBundle;
    hide BundleIds;
    hide AfterBundle;
    hide BundleSaved;
    hide Usable;
    hide Distinct;
    if k < last {
      EachIsSaved(t, sid, buffer[..last], answers[..last], k);
      IdsOf(sid, buffer[..last], answers[..last], k);
      if IsBundle(buffer[last]) { BundleKept(u, sid, answers[last], answers[k].value); }
    } else {
      BundleIsSaved(u, sid, answers[k].value);
    }
  }

  // ---- What a completed job leaves ----

  /** The answer draws this id for its parent or for a child. */
  ghost predicate Draws(answer: Option<Synth>, id: string) {
    && answer.Some?
    && var kids := answer.value.children;
       id == answer.value.parentId || exists i :: 0 <= i < |kids| && kids[i].id == id
  }

  lemma {:induction false} BundleIdDrawn(synth: Option<Synth>, sid: string, id: string)
    requires id in BundleIds(synth, sid)
    ensures Draws(synth, id)
  {
    var kids := ChildNodes(Kept(synth.value), sid, synth.value.parentId);
    var ids := BundleIds(synth, sid);
    var i: nat :| i < |ids| && ids[i] == id;
    if i < |kids| { assert kids[i] == ChildNode(synth.value.children[i], sid, synth.value.parentId); }
  }

  lemma {:induction false} SideIdFrom(sid: string, buffer: seq<L1>, answers: seq<Option<Synth>>, id: string)
    returns (j: nat)
    requires |answers| == |buffer| && id in AllBundleIds(sid, buffer, answers)
    ensures j < |buffer| && IsBundle(buffer[j]) && Draws(answers[j], id)
  {
    hide IsBundle;
    hide BundleIds;
    hide Draws;
    var last := |buffer| - 1;
    if id in AllBundleIds(sid, buffer[..last], answers[..last]) {
      j := SideIdFrom(sid, buffer[..last], answers[..last], id);
    } else {
      j := last;
      BundleIdDrawn(answers[last], sid, id);
    }
  }

  /** An id that is new, and drawn by no answer but this one. */
  ghost predicate OwnId(t: Graph.Table, a: Answers, k: nat, id: string)
    requires a.result.Some?
  {
    && id !in t && id != a.result.value.0.id
    && forall j :: 0 <= j < |a.synths| && j != k ==> !Draws(a.synths[j], id)
  }

  /** After a completed job each tool run of its messages with a usable answer has its parent and children in
      the table; and nothing of what an answer for any other entry draws is there. */
  lemma {:induction false} RunsAreSynthesized(h: Hash, ms: seq<Message>, t: Graph.Table, raws: map<string, seq<Turn>>,
                                              job: Job, a: Answers, hits: seq<string>, k: nat, topK: nat)
    requires Fair(t, raws, job, a) && Saves(a) && a.crash.Nowhere?
    requires TwoRoles(ms) && job.buffer == Bundled(h, ms) && k < |job.buffer|
    requires a.synths[k].Some? && a.synths[k].value.summary != "" && a.synths[k].value.children != []
    ensures RunEntry(h, ms, k) ==> BundleSaved(TableAfter(t, job, a, hits), a.synths[k].value, job.sid)
    ensures !RunEntry(h, ms, k) ==> forall id :: OwnId(t, a, k, id) ==> id !in TableAfter(t, job, a, hits)
  {
    TakenIffRun(h, ms, k);
    hide RunEntry;
    hide TableAfter;
    hide OwnId;
    hide IsBundle;
    hide Bundled;
    if RunEntry(h, ms, k) {
      TakenIsSaved(t, raws, job, a, hits, k);
    } else {
      forall id | OwnId(t, a, k, id) ensures id !in TableAfter(t, job, a, hits) {
        UntakenIsAbsent(t, raws, job, a, hits, k, topK, id);
      }
    }
  }

  lemma {:induction false} UntakenIsAbsent(t: Graph.Table, raws: map<string, seq<Turn>>, job: Job, a: Answers,
                                           hits: seq<string>, k: nat, topK: nat, id: string)
    requires Fair(t, raws, job, a) && Saves(a) && a.crash.Nowhere?
    requires k < |job.buffer| && !IsBundle(job.buffer[k]) && OwnId(t, a, k, id)
    ensures id !in TableAfter(t, job, a, hits)
  {
    SideWrites(t, raws, job, a, hits, topK);
    assert job.buffer[..|job.buffer|] == job.buffer && a.synths[..|a.synths|] == a.synths;
    hide TableAfter;
    hide IsBundle;
    hide Draws;
    hide AllBundleIds;
    if id in SideIds(job, a) {
      var j := SideIdFrom(job.sid, job.buffer, a.synths, id);
    }
  }

  lemma {:induction false} TakenIsSaved(t: Graph.Table, raws: map<string, seq<Turn>>, job: Job, a: Answers,
                                        hits: seq<string>, k: nat)
    requires Fair(t, raws, job, a) && Saves(a) && a.crash.Nowhere?
    requires k < |job.buffer| && IsBundle(job.buffer[k]) && Usable(a.synths[k])
    ensures BundleSaved(TableAfter(t, job, a, hits), a.synths[k].value, job.sid)
  {
    var n := a.result.value.0;
    PartsDistinct([n.id], SideIds(job, a));
    assert job.buffer[..|job.buffer|] == job.buffer && a.synths[..|a.synths|] == a.synths;
    hide IsBundle;
    hide Usable;
    hide AllBundleIds;
    hide AfterBundles;
    hide BundleSaved;
    EachIsSaved(GraphRuns.LinkAll(Graph.Save(t, n), n.id, hits), job.sid, job.buffer, a.synths, k);
  }

  /** A job whose worker fails among the bundles, after n entries: the runs before that are saved all the same, and
      no answer for a later entry is. */
  lemma {:induction false} RunsBeforeFailure(h: Hash, ms: seq<Message>, t: Graph.Table, raws: map<string, seq<Turn>>,
                                             job: Job, a: Answers, hits: seq<string>, n: nat, k: nat, topK: nat)
    requires Fair(t, raws, job, a) && Saves(a) && a.crash == DuringBundles(n) && n <= |job.buffer|
    requires TwoRoles(ms) && job.buffer == Bundled(h, ms) && k < |job.buffer|
    requires a.synths[k].Some? && a.synths[k].value.summary != "" && a.synths[k].value.children != []
    ensures k < n && RunEntry(h, ms, k) ==> BundleSaved(TableAfter(t, job, a, hits), a.synths[k].value, job.sid)
    ensures k >= n ==> forall id :: OwnId(t, a, k, id) ==> id !in TableAfter(t, job, a, hits)
  {
    TakenIffRun(h, ms, k);
    hide RunEntry;
    hide OwnId;
    hide IsBundle;
    hide Bundled;
    if k < n {
      if RunEntry(h, ms, k) { TakenBeforeFailure(t, raws, job, a, hits, n, k); }
    } else {
      forall id | OwnId(t, a, k, id) ensures id !in TableAfter(t, job, a, hits) {
        LaterIsAbsent(t, raws, job, a, hits, n, k, topK, id);
      }
    }
  }

  lemma {:induction false} TakenBeforeFailure(t: Graph.Table, raws: map<string, seq<Turn>>, job: Job, a: Answers,
                                              hits: seq<string>, n: nat, k: nat)
    requires Fair(t, raws, job, a) && Saves(a) && a.crash == DuringBundles(n) && n <= |job.buffer|
    requires k < n && IsBundle(job.buffer[k]) && Usable(a.synths[k])
    ensures BundleSaved(TableAfter(t, job, a, hits), a.synths[k].value, job.sid)
  {
    var node := a.result.value.0;
    PartsDistinct([node.id], SideIds(job, a));
    hide IsBundle;
    hide Usable;
    hide AllBundleIds;
    hide AfterBundles;
    hide BundleSaved;
    EachIsSaved(GraphRuns.LinkAll(Graph.Save(t, node), node.id, hits), job.sid, job.buffer[..n], a.synths[..n], k);
  }

  lemma {:induction false} LaterIsAbsent(t: Graph.Table, raws: map<string, seq<Turn>>, job: Job, a: Answers,
                                         hits: seq<string>, n: nat, k: nat, topK: nat, id: string)
    requires Fair(t, raws, job, a) && Saves(a) && a.crash == DuringBundles(n) && n <= k < |job.buffer|
    requires OwnId(t, a, k, id)
    ensures id !in TableAfter(t, job, a, hits)
  {
    SideWrites(t, raws, job, a, hits, topK);
    hide TableAfter;
    hide IsBundle;
    hide Draws;
    hide AllBundleIds;
    if id in SideIds(job, a) {
      var j := SideIdFrom(job.sid, job.buffer[..n], a.synths[..n], id);
    }
  }
}
