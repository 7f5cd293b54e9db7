// What the parser makes of each entry of a transcript, and what the nodes hold.
module Entries {
  import opened Text
  import Runs
  import opened Messages
  import ToolCalls
  import opened Transcript
  import opened Contents

  // ---- Text nodes ----

  /** The texts of the blocks, without the empty ones, in order. */
  lemma {:induction false} TextsAround(a: seq<Block>, t: Block, b: seq<Block>)
    ensures Texts([]) == []
    ensures Texts(a + [t] + b) == Texts(a) + (if t.TextBlock? && t.text != "" then [t.text] else []) + Texts(b)
  {
    if b == [] {
      assert a + [t] + b == a + [t] && (a + [t])[..|a|] == a;
    } else {
      var init := a + [t] + b[..|b| - 1];
      assert (a + [t] + b)[..|a + [t] + b| - 1] == init;
      TextsAround(a, t, b[..|b| - 1]);
    }
  }

  /** The node is of one entry with texts only: it is named after it, and holds each of its texts whole. */
  ghost predicate TextNodeOf(n: Logical, e: Entry, kind: NodeKind, start: string) {
    && n.kind == kind && n.uuids == [e.uuid] && start <= n.content
    && n.content[|start|..] == Prefix(n.raw, 400)
    && forall t :: TextBlock(t) in EntryBlocks(e) && t != "" ==> Among(n.raw, "\n", t)
  }

  lemma {:induction false} TextNodeIs(e: Entry, kind: NodeKind, start: string)
    ensures TextNodeOf(TextNode(e, kind, start), e, kind, start)
  {
    var n := TextNode(e, kind, start);
    hide Prefix;
    hide Join;
    assert (start + Prefix(n.raw, 400))[|start|..] == Prefix(n.raw, 400);
    forall t | TextBlock(t) in EntryBlocks(e) && t != "" ensures Among(n.raw, "\n", t) {
      TextIsHeld(EntryBlocks(e), t);
    }
    hide Among;
    hide Texts;
  }

  lemma {:induction false} TextIsHeld(bs: seq<Block>, t: string)
    requires TextBlock(t) in bs && t != ""
    ensures Among(Join("\n", Texts(bs)), "\n", t)
  {
    var i: nat :| i < |bs| && bs[i] == TextBlock(t);
    assert bs == bs[..i] + [bs[i]] + bs[i + 1..];
    TextsAround(bs[..i], bs[i], bs[i + 1..]);
    var k := |Texts(bs[..i])|;
    hide Texts;
    assert Texts(bs)[k] == t;
    JoinHas("\n", Texts(bs), k);
  }

  // ---- Entries and their nodes ----

  lemma {:induction false} PlainCuts(es: seq<Entry>, i: nat)
    requires i < |es| && EntryKind(es[i]).Plain?
    ensures !Runs.CutsRun(es[..i], [es[i]], EntryKind) && !Runs.CutsRun(es[..i + 1], es[i + 1..], EntryKind)
  {
    hide EntryKind;
    assert es[..i + 1][i] == es[i];
  }

  lemma {:induction false} SingleParsed(e: Entry)
    requires !EntryKind(e).Call?
    ensures Parse([e]) == NodesOf(Runs.Single(e))
  {
    ParseSingle([e]);
    hide EntryKind;
    hide NodesOf;
    assert [e][1..] == [] && Parse([]) == [];
  }

  /** An entry outside the tool runs stands for itself. */
  lemma {:induction false} PlainEntryParsed(es: seq<Entry>, i: nat)
    requires i < |es| && EntryKind(es[i]).Plain?
    ensures Parse(es) == Parse(es[..i]) + NodesOf(Runs.Single(es[i])) + Parse(es[i + 1..])
  {
    PlainCuts(es, i);
    SingleParsed(es[i]);
    assert es == es[..i + 1] + es[i + 1..] && es[..i + 1] == es[..i] + [es[i]];
    hide *;
    ParseSplits(es[..i + 1], es[i + 1..]);
    ParseSplits(es[..i], [es[i]]);
  }

  predicate HasCall(e: Entry) { exists b :: b in EntryBlocks(e) && b.ToolUse? }

  predicate HasResult(e: Entry) { exists b :: b in EntryBlocks(e) && b.ToolResult? }

  /** An assistant entry with a call opens a tool run, a user entry with a result goes on with it. */
  lemma {:induction false} KindsAre(e: Entry)
    ensures EntryKind(e).Call? <==> e.kind == "assistant" && HasCall(e)
    ensures EntryKind(e).Answer? <==> e.kind == "user" && HasResult(e)
    ensures Answers(MessageOf(e)) <==> HasResult(e)
  {
    assert "user"[0] == 'u' && "assistant"[0] == 'a';
    var m := MessageOf(e);
    if Uses(m) {
      var i :| 0 <= i < |m.content.blocks| && m.content.blocks[i].ToolUse?;
      assert m.content.blocks[i] in EntryBlocks(e);
    }
    if Answers(m) {
      var i :| 0 <= i < |m.content.blocks| && m.content.blocks[i].ToolResult?;
      assert m.content.blocks[i] in EntryBlocks(e);
    }
  }

  /** A user entry with blocks but no result is one node, between those of the entries around it. */
  lemma {:induction false} UserEntryParsed(es: seq<Entry>, i: nat) returns (n: Logical)
    requires i < |es| && es[i].kind == "user" && EntryBlocks(es[i]) != [] && !HasResult(es[i])
    ensures Parse(es) == Parse(es[..i]) + [n] + Parse(es[i + 1..])
    ensures TextNodeOf(n, es[i], UserText, "[USER] ")
  {
    KindsAre(es[i]);
    UserTextIsNoCall(es[i]);
    n := UserNode(es[i]);
    TextNodeIs(es[i], UserText, "[USER] ");
    PlainEntryParsed(es, i);
    hide TextNode;
    hide TextNodeOf;
    hide Parse;
    hide EntryKind;
    hide HasResult;
  }

  /** An assistant entry without a call is one too. */
  lemma {:induction false} AssistantEntryParsed(es: seq<Entry>, i: nat) returns (n: Logical)
    requires i < |es| && es[i].kind == "assistant" && !HasCall(es[i])
    ensures Parse(es) == Parse(es[..i]) + [n] + Parse(es[i + 1..])
    ensures TextNodeOf(n, es[i], AssistantText, "[ASSISTANT] ")
  {
    KindsAre(es[i]);
    assert "user"[0] == 'u' && "assistant"[0] == 'a';
    n := AssistantNode(es[i]);
    TextNodeIs(es[i], AssistantText, "[ASSISTANT] ");
    PlainEntryParsed(es, i);
    hide TextNode;
    hide TextNodeOf;
    hide Parse;
    hide EntryKind;
    hide HasCall;
  }

  /** An entry whose content is a string holds that string and nothing else. */
  lemma {:induction false} StringEntryText(e: Entry, kind: NodeKind, start: string)
    requires e.content.Str?
    ensures TextNode(e, kind, start).raw == e.content.text && EntryBlocks(e) != [] && !HasCall(e) && !HasResult(e)
  {
    TextsAround([], TextBlock(e.content.text), []);
    assert [] + [TextBlock(e.content.text)] + [] == [TextBlock(e.content.text)];
  }

  /** Entries of other kinds, and user entries without blocks, are no nodes. */
  lemma {:induction false} OtherEntryParsed(es: seq<Entry>, i: nat)
    requires i < |es| && (if es[i].kind == "user" then EntryBlocks(es[i]) == [] else es[i].kind != "assistant")
    ensures Parse(es) == Parse(es[..i]) + Parse(es[i + 1..])
  {
    KindsAre(es[i]);
    PlainEntryParsed(es, i);
    hide Parse;
    hide EntryKind;
  }

  /** Entries lo to hi - 1 are a whole tool run. */
  ghost predicate RunOfEntries(es: seq<Entry>, lo: nat, hi: nat) {
    && lo < hi <= |es| && EntryKind(es[lo]).Call? && (forall k :: lo <= k < hi ==> !EntryKind(es[k]).Plain?)
    && (hi < |es| ==> EntryKind(es[hi]).Plain?)
    && !Runs.CutsRun(es[..lo], es[lo..], EntryKind)
  }

  /** A tool run is one node, named after all its entries. */
  lemma {:induction false} RunParsed(es: seq<Entry>, lo: nat, hi: nat) returns (n: Logical)
    requires RunOfEntries(es, lo, hi)
    ensures Parse(es) == Parse(es[..lo]) + [n] + Parse(es[hi..])
    ensures n.kind == ToolBundle && n.uuids == Uuids(es[lo..hi]) && n == BundleNode(es[lo..hi])
  {
    hide *;
    RestIsRun(es, lo, hi);
    n := BundleNode(es[lo..hi]);
    BundleFacts(es[lo..hi]);
    RunBetween(es, lo, hi);
  }

  lemma {:induction false} RunBetween(es: seq<Entry>, lo: nat, hi: nat)
    requires lo < hi <= |es| && !Runs.CutsRun(es[..lo], es[lo..], EntryKind) && EntryKind(es[lo..][0]).Call?
    requires forall k :: 0 <= k < hi - lo ==> !EntryKind(es[lo..][k]).Plain?
    requires hi - lo < |es[lo..]| ==> EntryKind(es[lo..][hi - lo]).Plain?
    ensures Parse(es) == Parse(es[..lo]) + [BundleNode(es[lo..hi])] + Parse(es[hi..])
  {
    hide *;
    var rest := es[lo..];
    ParseRun(rest, hi - lo);
    ParseSplits(es[..lo], rest);
    assert es == es[..lo] + rest;
    assert rest[..hi - lo] == es[lo..hi];
    assert rest[hi - lo..] == es[hi..];
    Runs.Associative(Parse(es[..lo]), [BundleNode(es[lo..hi])], Parse(es[hi..]));
  }

  lemma {:induction false} RestIsRun(es: seq<Entry>, lo: nat, hi: nat)
    requires RunOfEntries(es, lo, hi)
    ensures lo < hi <= |es|
    ensures var rest, n := es[lo..], hi - lo;
      && !Runs.CutsRun(es[..lo], rest, EntryKind) && EntryKind(rest[0]).Call?
      && (forall k :: 0 <= k < n ==> !EntryKind(rest[k]).Plain?) && (n < |rest| ==> EntryKind(rest[n]).Plain?)
  {
    hide EntryKind;
    hide Runs.CutsRun;
  }

  lemma {:induction false} BundleFacts(run: seq<Entry>)
    ensures BundleNode(run).kind == ToolBundle && BundleNode(run).uuids == Uuids(run)
  {}

  // ---- What a run's node holds ----

  lemma {:induction false} NodeLine(run: seq<Entry>, k: nat) returns (uncut: string)
    requires k < |ToolCalls.Render(EntryEvents(run))|
    ensures Previews(BundleNode(run).content, "[TOOL_BUNDLE]\n", uncut)
    ensures var p := ToolCalls.Render(EntryEvents(run))[k];
      Among(uncut, "\n", BundleLine(p)) && Among(BundleNode(run).raw, "\n\n", PartRaw(p))
  {
    var parts, head := ToolCalls.Render(EntryEvents(run)), "[TOOL_BUNDLE]\n";
    MapPartsAt(BundleLine, parts, k);
    JoinedPart(BundleLine, "\n", parts, k);
    JoinedPart(PartRaw, "\n\n", parts, k);
    hide BundleLine;
    hide PartRaw;
    hide MapParts;
    hide Among;
    hide Join;
    uncut := head + Join("\n", MapParts(BundleLine, parts));
    assert head[|head| - 1..] == "\n";
    AmongPrepended(head, Join("\n", MapParts(BundleLine, parts)), "\n", BundleLine(parts[k]));
  }

  /** A run's node holds each answered call: whole in its text, cut in its preview. */
  lemma {:induction false} AnswerIsInNode(run: seq<Entry>, p: nat, q: nat) returns (uncut: string)
    requires var bs := EntriesBlocks(run); q < |bs| && bs[q].ToolResult? && CallWaits(bs, p, q, bs[q].useId)
    ensures Previews(BundleNode(run).content, "[TOOL_BUNDLE]\n", uncut)
    ensures var bs := EntriesBlocks(run);
      var name, input, out := bs[p].name, Prefix(bs[p].input, 300), WholeResult(bs[q].result);
      && Among(BundleNode(run).raw, "\n\n", name + "(" + input + ") \U{2192} " + out)
      && Among(uncut, "\n", "  - " + name + "(" + input + ") \U{2192} "
                              + ((if bs[q].isError then "[ERR] " else "[OK] ") + Prefix(out, 200)))
  {
    EntryEventsFlat(run);
    var k := AnswerPart(EntriesBlocks(run), p, q);
    hide Among;
    hide CallWaits;
    hide BundleNode;
    uncut := NodeLine(run, k);
  }

  /** And each call without an answer yet. */
  lemma {:induction false} PendingIsInNode(run: seq<Entry>, p: nat) returns (uncut: string)
    requires var bs := EntriesBlocks(run); p < |bs| && bs[p].ToolUse? && CallWaits(bs, p, |bs|, bs[p].id)
    ensures Previews(BundleNode(run).content, "[TOOL_BUNDLE]\n", uncut)
    ensures var bs := EntriesBlocks(run);
      var name, input := bs[p].name, Prefix(bs[p].input, 300);
      && Among(BundleNode(run).raw, "\n\n", name + "(" + input + ") \U{2192} " + "pending")
      && Among(uncut, "\n", "  - " + name + "(" + input + ") \U{2192} " + "(no result yet)")
  {
    EntryEventsFlat(run);
    var k := CallPart(EntriesBlocks(run), p);
    hide Among;
    hide CallWaits;
    hide BundleNode;
    uncut := NodeLine(run, k);
  }

  /** The names of the tools that a run's node lists are those of its calls, in order. */
  lemma {:induction false} NamesAround(a: seq<Block>, t: Block, b: seq<Block>)
    ensures CallNames([]) == []
    ensures CallNames(a + [t] + b) == CallNames(a) + (if t.ToolUse? then [t.name] else []) + CallNames(b)
  {
    if b == [] {
      assert a + [t] + b == a + [t] && (a + [t])[..|a|] == a;
    } else {
      assert (a + [t] + b)[..|a + [t] + b| - 1] == a + [t] + b[..|b| - 1];
      NamesAround(a, t, b[..|b| - 1]);
    }
  }
}
