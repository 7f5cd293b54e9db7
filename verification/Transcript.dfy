// The transcript parser: user texts, tool runs and assistant texts of a transcript, as logical nodes.
module Transcript {
  import opened Text
  import Runs
  import ToolCalls
  import opened Messages

  /** A transcript entry: its type, its uuid and the content of its message. */
  datatype Entry = Entry(kind: string, uuid: string, content: Content)

  datatype NodeKind = UserText | ToolBundle | AssistantText

  datatype Logical = Logical(kind: NodeKind, content: string, raw: string, uuids: seq<string>, tools: seq<string>)

  function MessageOf(e: Entry): Message { Message(e.kind, e.content) }

  function EntryKind(e: Entry): Runs.Kind { KindOf(MessageOf(e)) }

  function EntryBlocks(e: Entry): seq<Block> {
    match e.content
    case Str(t) => [TextBlock(t)]
    case Blocks(bs) => bs
    case NoContent => []
  }

  predicate PureUserText(e: Entry) { EntryBlocks(e) != [] && !Answers(MessageOf(e)) }

  function Texts(bs: seq<Block>): seq<string> {
    if bs == [] then []
    else
      Texts(bs[..|bs| - 1])
        + (if bs[|bs| - 1].TextBlock? && bs[|bs| - 1].text != "" then [bs[|bs| - 1].text] else [])
  }

  function EntryText(e: Entry): string { Join("\n", Texts(EntryBlocks(e))) }

  function TextNode(e: Entry, kind: NodeKind, prefix: string): Logical {
    Logical(kind, prefix + Prefix(EntryText(e), 400), EntryText(e), [e.uuid], [])
  }

  function UserNode(e: Entry): Logical { TextNode(e, UserText, "[USER] ") }
  function AssistantNode(e: Entry): Logical { TextNode(e, AssistantText, "[ASSISTANT] ") }

  // ---- Tool runs ----

  function EntryEvents(run: seq<Entry>): seq<ToolCalls.Event> {
    if run == [] then [] else EntryEvents(run[..|run| - 1]) + EventsOf(EntryBlocks(run[|run| - 1]))
  }

  function Uuids(es: seq<Entry>): (r: seq<string>)
    ensures |r| == |es| && forall i :: 0 <= i < |es| ==> r[i] == es[i].uuid
  {
    if es == [] then [] else [es[0].uuid] + Uuids(es[1..])
  }

  function CallNames(bs: seq<Block>): seq<string> {
    if bs == [] then []
    else CallNames(bs[..|bs| - 1]) + (if bs[|bs| - 1].ToolUse? then [bs[|bs| - 1].name] else [])
  }

  function RunNames(run: seq<Entry>): seq<string> {
    if run == [] then [] else RunNames(run[..|run| - 1]) + CallNames(EntryBlocks(run[|run| - 1]))
  }

  function BundleLine(p: ToolCalls.Part): string {
    "  - " + p.call.name + "(" + p.call.input + ") \U{2192} " +
    (if p.Pending? then "(no result yet)"
     else (if p.failed then "[ERR] " else "[OK] ") + Prefix(p.output, 200))
  }

  function BundleText(lines: seq<string>): string {
    Prefix(if lines == [] then "[TOOL_BUNDLE] (empty)" else "[TOOL_BUNDLE]\n" + Join("\n", lines), 1500)
  }

  function BundleNode(run: seq<Entry>): Logical {
    var parts := ToolCalls.Render(EntryEvents(run));
    Logical(ToolBundle, BundleText(MapParts(BundleLine, parts)), Join("\n\n", MapParts(PartRaw, parts)),
            Uuids(run), RunNames(run))
  }

  function NodesOf(seg: Runs.Segment<Entry>): seq<Logical> {
    if seg.Run? then [BundleNode(seg.items)]
    else if seg.item.kind == "user" && PureUserText(seg.item) then [UserNode(seg.item)]
    else if seg.item.kind == "assistant" then [AssistantNode(seg.item)]
    else []
  }

  /** The logical nodes of a transcript: one per tool run, per user text and per assistant text. */
  function Parse(es: seq<Entry>): seq<Logical> {
    Runs.FlatMap(NodesOf, Runs.Segments(es, EntryKind))
  }

  // ---- The parser's loops ----

  method TextFromBlocks(bs: seq<Block>) returns (t: string)
    ensures t == Join("\n", Texts(bs))
  {
    var parts: seq<string> := [];
    ghost var done: seq<Block> := [];
    for i := 0 to |bs|
      invariant done == bs[..i] && parts == Texts(done)
    {
      assert (done + [bs[i]])[..i] == done;
      if bs[i].TextBlock? && bs[i].text != "" { parts := parts + [bs[i].text]; }
      done := done + [bs[i]];
    }
    assert done == bs;
    t := Join("\n", parts);
  }

  method NamesOfCalls(bs: seq<Block>) returns (names: seq<string>)
    ensures names == CallNames(bs)
  {
    names := [];
    ghost var done: seq<Block> := [];
    for i := 0 to |bs|
      invariant done == bs[..i] && names == CallNames(done)
    {
      assert (done + [bs[i]])[..i] == done;
      if bs[i].ToolUse? { names := names + [bs[i].name]; }
      done := done + [bs[i]];
    }
    assert done == bs;
  }

  method NodeOfText(e: Entry, kind: NodeKind, prefix: string) returns (n: Logical)
    ensures n == TextNode(e, kind, prefix)
  {
    var text := TextFromBlocks(EntryBlocks(e));
    n := Logical(kind, prefix + Prefix(text, 400), text, [e.uuid], []);
  }

  lemma {:induction false} RunSnoc(run: seq<Entry>, e: Entry)
    ensures EntryEvents(run + [e]) == EntryEvents(run) + EventsOf(EntryBlocks(e))
    ensures RunNames(run + [e]) == RunNames(run) + CallNames(EntryBlocks(e))
    ensures Uuids(run + [e]) == Uuids(run) + [e.uuid]
  {
    hide EventsOf;
    hide CallNames;
    assert (run + [e])[..|run|] == run;
  }

  /** The outer loop of the bundle renderer. */
  method RenderEntries(run: seq<Entry>)
    returns (pending: ToolCalls.Dict, lines: seq<string>, raws: seq<string>, names: seq<string>, uuids: seq<string>)
    ensures Rendering(BundleLine, EntryEvents(run), pending, lines, raws)
    ensures names == RunNames(run) && uuids == Uuids(run)
  {
    RenderingStarts(BundleLine);
    hide Rendering;
    hide EventsOf;
    pending, lines, raws, names, uuids := [], [], [], [], [];
    ghost var done: seq<Entry> := [];
    for i := 0 to |run|
      invariant done == run[..i] && names == RunNames(done) && uuids == Uuids(done)
      invariant Rendering(BundleLine, EntryEvents(done), pending, lines, raws)
    {
      RunSnoc(done, run[i]);
      var more := NamesOfCalls(EntryBlocks(run[i]));
      names, uuids := names + more, uuids + [run[i].uuid];
      pending, lines, raws := RenderBlocks(BundleLine, EntryEvents(done), EntryBlocks(run[i]), pending, lines, raws);
      done := done + [run[i]];
    }
    assert done == run;
  }

  lemma {:induction false} RenderedBundle(run: seq<Entry>)
    ensures var all := ToolCalls.Render(EntryEvents(run));
      BundleNode(run) == Logical(ToolBundle, BundleText(MapParts(BundleLine, all)),
                                 Join("\n\n", MapParts(PartRaw, all)), Uuids(run), RunNames(run))
  {}

  method RenderBundle(run: seq<Entry>) returns (n: Logical)
    ensures n == BundleNode(run)
  {
    var pending, lines, raws, names, uuids := RenderEntries(run);
    RenderedBundle(run);
    lines, raws := RenderPending(BundleLine, pending, ToolCalls.After(EntryEvents(run)).parts, lines, raws);
    n := Logical(ToolBundle, BundleText(lines), Join("\n\n", raws), uuids, names);
  }

  lemma {:induction false} ParseRun(es: seq<Entry>, n: nat)
    requires 0 < n <= |es| && EntryKind(es[0]).Call?
    requires forall k :: 0 <= k < n ==> !EntryKind(es[k]).Plain?
    requires n < |es| ==> EntryKind(es[n]).Plain?
    ensures Parse(es) == [BundleNode(es[..n])] + Parse(es[n..])
  {
    Runs.RunLengthIs(es, EntryKind, n);
  }

  lemma {:induction false} ParseSingle(es: seq<Entry>)
    requires es != [] && !EntryKind(es[0]).Call?
    ensures Parse(es) == NodesOf(Runs.Single(es[0])) + Parse(es[1..])
  {}

  /** The inner loop: the run that starts at i. */
  method TakeEntries(es: seq<Entry>, i: nat) returns (run: seq<Entry>, j: nat)
    requires i < |es| && EntryKind(es[i]).Call?
    ensures i < j <= |es| && run == es[i..j]
    ensures forall k :: i <= k < j ==> !EntryKind(es[k]).Plain?
    ensures j < |es| ==> EntryKind(es[j]).Plain?
  {
    run, j := [], i;
    while j < |es| && !EntryKind(es[j]).Plain?
      invariant i <= j <= |es| && run == es[i..j]
      invariant forall k :: i <= k < j ==> !EntryKind(es[k]).Plain?
    {
      run := run + [es[j]];
      j := j + 1;
    }
  }

  lemma {:induction false} UserTextIsNoCall(e: Entry)
    requires e.kind == "user"
    ensures !EntryKind(e).Call?
  {
    assert "user"[0] == 'u' && "assistant"[0] == 'a';
  }

  /** One turn of the parser's loop. */
  method NextNodes(es: seq<Entry>, i: nat) returns (nodes: seq<Logical>, j: nat)
    requires i < |es|
    ensures i < j <= |es|
    ensures Parse(es[i..]) == nodes + Parse(es[j..])
  {
    hide Parse;
    hide BundleNode;
    hide TextNode;
    ghost var rest := es[i..];
    if es[i].kind == "user" && PureUserText(es[i]) {
      UserTextIsNoCall(es[i]);
      var n := NodeOfText(es[i], UserText, "[USER] ");
      nodes := [n];
    } else if EntryKind(es[i]).Call? {
      var run: seq<Entry>;
      run, j := TakeEntries(es, i);
      ParseRun(rest, j - i);
      assert rest[..j - i] == run && rest[j - i..] == es[j..];
      var n := RenderBundle(run);
      return [n], j;
    } else if es[i].kind == "assistant" {
      var n := NodeOfText(es[i], AssistantText, "[ASSISTANT] ");
      nodes := [n];
    } else {
      nodes := [];
    }
    j := i + 1;
    ParseSingle(rest);
    assert rest[1..] == es[j..] && rest[0] == es[i];
  }

  method ParseTranscript(es: seq<Entry>) returns (nodes: seq<Logical>)
    ensures nodes == Parse(es)
  {
    nodes := [];
    var i := 0;
    ghost var rest := Parse(es);
    assert es[0..] == es;
    hide Parse;
    while i < |es|
      invariant 0 <= i <= |es|
      invariant rest == Parse(es[i..])
      invariant nodes + rest == Parse(es)
    {
      var more, j := NextNodes(es, i);
      Runs.Associative(nodes, more, Parse(es[j..]));
      nodes, i := nodes + more, j;
      rest := Parse(es[j..]);
    }
    assert es[i..] == [];
    ParseNothing();
  }

  lemma {:induction false} ParseNothing()
    ensures Parse([]) == []
  {}

  // ---- Cutting a transcript ----

  function AllUuids(ns: seq<Logical>): seq<string> {
    if ns == [] then [] else ns[0].uuids + AllUuids(ns[1..])
  }

  lemma {:induction false} AllUuidsAppend(a: seq<Logical>, b: seq<Logical>)
    ensures AllUuids(a + b) == AllUuids(a) + AllUuids(b)
  {
    if a == [] {
      assert a + b == b;
    } else {
      assert (a + b)[1..] == a[1..] + b;
      AllUuidsAppend(a[1..], b);
    }
  }

  lemma {:induction false} ParseSplit(a: seq<Entry>, b: seq<Entry>)
    requires !Runs.CutsRun(a, b, EntryKind)
    ensures Parse(a + b) == Parse(a) + Parse(b)
  {
    Runs.SegmentsSplit(a, b, EntryKind);
    Runs.FlatMapAppend(NodesOf, Runs.Segments(a, EntryKind), Runs.Segments(b, EntryKind));
  }

  /** A cut inside a run: the whole has one node where the first part has a shorter one. */
  lemma {:induction false} ParseMerge(a: seq<Entry>, b: seq<Entry>) returns (before: seq<Logical>, open: seq<Entry>)
    requires Runs.CutsRun(a, b, EntryKind)
    ensures open != [] && Parse(a) == before + [BundleNode(open)]
    ensures var n := Runs.RunLength(b, EntryKind);
      0 < n <= |b| && Parse(a + b) == before + [BundleNode(open + b[..n])] + Parse(b[n..])
  {
    var segs: seq<Runs.Segment<Entry>>;
    segs, open := Runs.SegmentsMerge(a, b, EntryKind);
    var n := Runs.RunLength(b, EntryKind);
    hide BundleNode;
    before := Runs.FlatMap(NodesOf, segs);
    Runs.FlatMapAppend(NodesOf, segs, [Runs.Run(open)]);
    Runs.FlatMapAppend(NodesOf, segs + [Runs.Run(open + b[..n])], Runs.Segments(b[n..], EntryKind));
    Runs.FlatMapAppend(NodesOf, segs, [Runs.Run(open + b[..n])]);
    OneNode(open);
    OneNode(open + b[..n]);
    OpenRunProper(a, segs, open);
  }

  lemma {:induction false} OneNode(run: seq<Entry>)
    ensures Runs.FlatMap(NodesOf, [Runs.Run(run)]) == [BundleNode(run)]
  {
    assert Runs.FlatMap(NodesOf, [Runs.Run(run)][1..]) == [];
  }

  lemma {:induction false} OpenRunProper(a: seq<Entry>, segs: seq<Runs.Segment<Entry>>, open: seq<Entry>)
    requires Runs.Segments(a, EntryKind) == segs + [Runs.Run(open)]
    ensures open != []
  {
    Runs.SegmentsCover(a, EntryKind);
    assert Runs.ProperRun((segs + [Runs.Run(open)])[|segs|], EntryKind);
  }

  /** Parsing a transcript is parsing its parts, exactly when the cut is not inside a tool run. */
  lemma {:induction false} ParseSplits(a: seq<Entry>, b: seq<Entry>)
    ensures Parse(a + b) == Parse(a) + Parse(b) <==> !Runs.CutsRun(a, b, EntryKind)
  {
    if Runs.CutsRun(a, b, EntryKind) {
      var before, open := ParseMerge(a, b);
      var n := Runs.RunLength(b, EntryKind);
      assert Parse(a + b)[|before|] == BundleNode(open + b[..n]);
      assert (Parse(a) + Parse(b))[|before|] == BundleNode(open);
      assert |BundleNode(open).uuids| != |BundleNode(open + b[..n]).uuids|;
    } else {
      ParseSplit(a, b);
    }
  }

  /** A list of entries parses to nodes with at most as many uuids. */
  lemma {:induction false} ParseUuids(es: seq<Entry>)
    ensures |AllUuids(Parse(es))| <= |es|
    decreases |es|
  {
    hide BundleLine;
    hide MapParts;
    hide Join;
    if es != [] {
      if EntryKind(es[0]).Call? {
        var n := Runs.RunLength(es, EntryKind);
        ParseRun(es, n);
        ParseUuids(es[n..]);
        AllUuidsAppend([BundleNode(es[..n])], Parse(es[n..]));
        assert AllUuids([BundleNode(es[..n])]) == Uuids(es[..n]) + AllUuids([]);
      } else {
        ParseSingle(es);
        ParseUuids(es[1..]);
        AllUuidsAppend(NodesOf(Runs.Single(es[0])), Parse(es[1..]));
        SingleUuids(es[0]);
      }
    }
  }

  lemma {:induction false} SingleUuids(e: Entry)
    ensures |AllUuids(NodesOf(Runs.Single(e)))| <= 1
  {
    var ns := NodesOf(Runs.Single(e));
    if ns != [] { assert AllUuids(ns) == [e.uuid] + AllUuids([]); }
  }
}
