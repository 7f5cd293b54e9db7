// The two views that the proxy takes of a request's messages: one entry per message (for dropping
// absorbed messages) and one entry per tool run (for the sensor and the compacter).
// `h` is the fingerprint of (role, text); any function.
module Messages {
  import opened Text
  import Runs
  import ToolCalls

  datatype ResultItem = TextItem(text: string) | OtherItem(repr: string)
  datatype ResultContent = Whole(text: string) | Items(items: seq<ResultItem>)

  datatype Block =
    | TextBlock(text: string)
    | Thinking
    | ToolUse(id: string, name: string, input: string)
    | ToolResult(useId: string, result: ResultContent, isError: bool)
    | OtherBlock

  datatype Content = Str(text: string) | Blocks(blocks: seq<Block>) | NoContent
  datatype Message = Message(role: string, content: Content)

  /** One entry of a view: preview, raw text, and the fingerprints of the messages it stands for. */
  datatype L1 = L1(content: string, raw: string, fps: seq<string>)

  /** The fingerprints of all messages that a view stands for. */
  function AllFps(es: seq<L1>): seq<string> {
    if es == [] then [] else es[0].fps + AllFps(es[1..])
  }

  type Hash = (string, string) -> string

  /** How a tool run shows one of its parts in the preview. */
  type Line = ToolCalls.Part -> string

  // ---- Text of a message ----

  function DictTexts(items: seq<ResultItem>): seq<string> {
    if items == [] then []
    else (if items[0].TextItem? then [items[0].text] else []) + DictTexts(items[1..])
  }

  function ItemText(i: ResultItem): string { if i.TextItem? then i.text else i.repr }

  function AllTexts(items: seq<ResultItem>): seq<string> {
    if items == [] then [] else [ItemText(items[0])] + AllTexts(items[1..])
  }

  /** A result's text as a message shows it. */
  function ShownResult(r: ResultContent): string { if r.Whole? then r.text else Join(" ", DictTexts(r.items)) }

  /** A result's text as its tool run stores it. */
  function WholeResult(r: ResultContent): string { if r.Whole? then r.text else Join("\n", AllTexts(r.items)) }

  /** A block's contribution to the text, before empty pieces are dropped. */
  function Piece(b: Block): string {
    match b
    case TextBlock(t) => StripBoilerplate(t)
    case ToolUse(_, name, input) => "[tool_use:" + name + " " + Prefix(input, 400) + "]"
    case ToolResult(_, r, _) => "[tool_result:" + Prefix(ShownResult(r), 400) + "]"
    case _ => ""
  }

  function Pieces(bs: seq<Block>): seq<string> {
    if bs == [] then [] else (if Piece(bs[0]) == "" then [] else [Piece(bs[0])]) + Pieces(bs[1..])
  }

  function TextOf(c: Content): string {
    match c
    case Str(s) => StripBoilerplate(s)
    case Blocks(bs) => Join("\n", Pieces(bs))
    case NoContent => ""
  }

  function Fp(h: Hash, m: Message): string { h(m.role, TextOf(m.content)) }

  predicate Visible(m: Message) { !Blank(TextOf(m.content)) }

  lemma {:induction false} PiecesAppend(a: seq<Block>, b: seq<Block>)
    ensures Pieces(a + b) == Pieces(a) + Pieces(b)
  {
    if a == [] {
      assert a + b == b;
    } else {
      assert (a + b)[1..] == a[1..] + b;
      PiecesAppend(a[1..], b);
    }
  }

  lemma {:induction false} PiecesSnoc(bs: seq<Block>, b: Block)
    ensures Pieces(bs + [b]) == if Piece(b) == "" then Pieces(bs) else Pieces(bs) + [Piece(b)]
  {
    PiecesAppend(bs, [b]);
    assert Pieces([b]) == (if Piece(b) == "" then [] else [Piece(b)]) + Pieces([]);
  }

  method AddPiece(ghost done: seq<Block>, b: Block, out: seq<string>) returns (out': seq<string>)
    requires out == Pieces(done)
    ensures out' == Pieces(done + [b])
  {
    var piece := Piece(b);
    PiecesSnoc(done, b);
    out' := if piece == "" then out else out + [piece];
  }

  method ExtractText(c: Content) returns (t: string)
    ensures t == TextOf(c)
  {
    match c
    case Str(s) => t := StripBoilerplate(s);
    case NoContent => t := "";
    case Blocks(bs) =>
      var out: seq<string> := [];
      ghost var done: seq<Block> := [];
      for i := 0 to |bs|
        invariant done == bs[..i] && out == Pieces(done)
      {
        out := AddPiece(done, bs[i], out);
        done := done + [bs[i]];
      }
      assert done == bs;
      t := Join("\n", out);
  }

  // ---- One entry per message ----

  function TurnEntry(h: Hash, role: string, text: string): L1 {
    L1("[" + role + "] " + Prefix(text, 500), text, [h(role, text)])
  }

  function Plain(h: Hash, m: Message): L1 { TurnEntry(h, m.role, TextOf(m.content)) }

  function PlainEntry(h: Hash, m: Message): seq<L1> { if Visible(m) then [Plain(h, m)] else [] }

  function PerMessage(h: Hash, ms: seq<Message>): seq<L1> {
    if ms == [] then [] else PlainEntry(h, ms[0]) + PerMessage(h, ms[1..])
  }

  lemma {:induction false} PerMessageAppend(h: Hash, a: seq<Message>, b: seq<Message>)
    ensures PerMessage(h, a + b) == PerMessage(h, a) + PerMessage(h, b)
  {
    if a == [] {
      assert a + b == b;
    } else {
      assert (a + b)[1..] == a[1..] + b;
      PerMessageAppend(h, a[1..], b);
    }
  }

  lemma {:induction false} PerMessageSnoc(h: Hash, a: seq<Message>, m: Message)
    ensures PerMessage(h, a + [m]) == PerMessage(h, a) + PlainEntry(h, m)
  {
    PerMessageAppend(h, a, [m]);
    assert PerMessage(h, [m]) == PlainEntry(h, m) + PerMessage(h, []);
  }

  /** The entry of a message on its own, if its text is not blank. */
  method TurnOf(h: Hash, m: Message) returns (out: seq<L1>)
    ensures out == PlainEntry(h, m)
  {
    var text := ExtractText(m.content);
    StripEmpty(text);
    out := if Strip(text) != "" then [TurnEntry(h, m.role, text)] else [];
  }

  method AddTurn(h: Hash, ghost done: seq<Message>, m: Message, out: seq<L1>) returns (out': seq<L1>)
    requires out == PerMessage(h, done)
    ensures out' == PerMessage(h, done + [m])
  {
    var turn := TurnOf(h, m);
    PerMessageSnoc(h, done, m);
    out' := out + turn;
  }

  method MessagesToL1(h: Hash, ms: seq<Message>) returns (out: seq<L1>)
    ensures out == PerMessage(h, ms)
  {
    hide TextOf;
    out := [];
    ghost var done: seq<Message> := [];
    for i := 0 to |ms|
      invariant done == ms[..i] && out == PerMessage(h, done)
    {
      out := AddTurn(h, done, ms[i], out);
      done := done + [ms[i]];
    }
    assert done == ms;
  }

  // ---- Tool runs ----

  predicate Uses(m: Message) {
    m.content.Blocks? && exists i :: 0 <= i < |m.content.blocks| && m.content.blocks[i].ToolUse?
  }

  predicate Answers(m: Message) {
    m.content.Blocks? && exists i :: 0 <= i < |m.content.blocks| && m.content.blocks[i].ToolResult?
  }

  function KindOf(m: Message): Runs.Kind {
    if m.role == "assistant" && Uses(m) then Runs.Call
    else if m.role == "user" && Answers(m) then Runs.Answer
    else Runs.Plain
  }

  function BlockEvents(b: Block): seq<ToolCalls.Event> {
    match b
    case ToolUse(id, name, input) => [ToolCalls.Use(id, ToolCalls.Call(name, Prefix(input, 300)))]
    case ToolResult(id, r, err) => [ToolCalls.Result(id, WholeResult(r), err)]
    case _ => []
  }

  function EventsOf(bs: seq<Block>): seq<ToolCalls.Event> {
    if bs == [] then [] else EventsOf(bs[..|bs| - 1]) + BlockEvents(bs[|bs| - 1])
  }

  function BlocksOf(m: Message): seq<Block> { if m.content.Blocks? then m.content.blocks else [] }

  function RunEvents(run: seq<Message>): seq<ToolCalls.Event> {
    if run == [] then [] else RunEvents(run[..|run| - 1]) + EventsOf(BlocksOf(run[|run| - 1]))
  }

  function PartLine(p: ToolCalls.Part): string {
    "  - " + p.call.name + "(" + p.call.input + ") \U{2192} " +
    (if p.Pending? then "(no result)"
     else (if p.failed then "[ERR] " else "[OK] ") + Prefix(p.output, 200))
  }

  function PartRaw(p: ToolCalls.Part): string {
    p.call.name + "(" + p.call.input + ") \U{2192} " + (if p.Pending? then "pending" else p.output)
  }

  function MapParts(f: Line, ps: seq<ToolCalls.Part>): seq<string> {
    if ps == [] then [] else MapParts(f, ps[..|ps| - 1]) + [f(ps[|ps| - 1])]
  }

  function RunRaw(run: seq<Message>): string {
    Join("\n\n", MapParts(PartRaw, ToolCalls.Render(RunEvents(run))))
  }

  function PreviewOf(lines: seq<string>): string {
    Prefix(if lines == [] then "[tool_bundle] (empty)" else "[tool_bundle]\n" + Join("\n", lines), 1500)
  }

  function RunPreview(run: seq<Message>): string {
    PreviewOf(MapParts(PartLine, ToolCalls.Render(RunEvents(run))))
  }

  function Fps(h: Hash, ms: seq<Message>): (r: seq<string>)
    ensures |r| == |ms| && forall i :: 0 <= i < |ms| ==> r[i] == Fp(h, ms[i])
  {
    if ms == [] then [] else [Fp(h, ms[0])] + Fps(h, ms[1..])
  }

  lemma {:induction false} FpsSnoc(h: Hash, a: seq<Message>, m: Message)
    ensures Fps(h, a + [m]) == Fps(h, a) + [Fp(h, m)]
  {}

  function BundleEntry(h: Hash, run: seq<Message>): L1 { L1(RunPreview(run), RunRaw(run), Fps(h, run)) }

  function EntriesOf(h: Hash): Runs.Segment<Message> -> seq<L1> {
    (s: Runs.Segment<Message>) => if s.Run? then [BundleEntry(h, s.items)] else PlainEntry(h, s.item)
  }

  /** The bundled view: a plain entry per visible message outside tool runs, one entry per run. */
  function Bundled(h: Hash, ms: seq<Message>): seq<L1> {
    Runs.FlatMap(EntriesOf(h), Runs.Segments(ms, KindOf))
  }

  lemma {:induction false} AfterSnoc(evs: seq<ToolCalls.Event>, e: ToolCalls.Event)
    ensures ToolCalls.After(evs + [e]) == ToolCalls.Step(ToolCalls.After(evs), e)
  {
    assert (evs + [e])[..|evs|] == evs;
  }

  lemma {:induction false} MapSnoc(f: Line, ps: seq<ToolCalls.Part>, p: ToolCalls.Part)
    ensures MapParts(f, ps + [p]) == MapParts(f, ps) + [f(p)]
  {
    assert (ps + [p])[..|ps|] == ps;
  }

  /** What the renderer's loop holds after the events `evs`. */
  ghost predicate Rendering(line: Line, evs: seq<ToolCalls.Event>, pending: ToolCalls.Dict,
                            lines: seq<string>, raws: seq<string>)
  {
    var s := ToolCalls.After(evs);
    pending == s.pending && lines == MapParts(line, s.parts) && raws == MapParts(PartRaw, s.parts)
  }

  lemma {:induction false} RenderingStarts(line: Line)
    ensures Rendering(line, RunEvents([]), [], [], [])
  {}

  /** The body of the renderer's inner loop. */
  method RenderBlock(line: Line, ghost evs: seq<ToolCalls.Event>, b: Block, pending: ToolCalls.Dict,
                     lines: seq<string>, raws: seq<string>)
    returns (pending': ToolCalls.Dict, lines': seq<string>, raws': seq<string>)
    requires Rendering(line, evs, pending, lines, raws)
    ensures Rendering(line, evs + BlockEvents(b), pending', lines', raws')
  {
    pending', lines', raws' := pending, lines, raws;
    ghost var parts := ToolCalls.After(evs).parts;
    match b
    case ToolUse(id, name, input) =>
      AfterSnoc(evs, BlockEvents(b)[0]);
      pending' := ToolCalls.Put(pending, id, ToolCalls.Call(name, Prefix(input, 300)));
    case ToolResult(id, r, err) =>
      AfterSnoc(evs, BlockEvents(b)[0]);
      var (rest, call) := ToolCalls.Pop(pending, id);
      var part := ToolCalls.Answered(call, WholeResult(r), err);
      MapSnoc(line, parts, part);
      MapSnoc(PartRaw, parts, part);
      pending', lines', raws' := rest, lines + [line(part)], raws + [PartRaw(part)];
    case _ =>
      assert evs + BlockEvents(b) == evs;
  }

  lemma {:induction false} EventsSnoc(bs: seq<Block>, b: Block)
    ensures EventsOf(bs + [b]) == EventsOf(bs) + BlockEvents(b)
  {
    assert (bs + [b])[..|bs|] == bs;
  }

  lemma {:induction false} EventsAppend(a: seq<Block>, b: seq<Block>)
    ensures EventsOf(a + b) == EventsOf(a) + EventsOf(b)
  {
    hide BlockEvents;
    if b == [] {
      assert a + b == a;
    } else {
      var init, last := b[..|b| - 1], b[|b| - 1];
      assert (a + b)[..|a + b| - 1] == a + init;
      EventsAppend(a, init);
      Runs.Associative(EventsOf(a), EventsOf(init), BlockEvents(last));
    }
  }

  lemma {:induction false} EventsGrow(evs: seq<ToolCalls.Event>, bs: seq<Block>, b: Block)
    ensures (evs + EventsOf(bs)) + BlockEvents(b) == evs + EventsOf(bs + [b])
  {
    EventsSnoc(bs, b);
    Runs.Associative(evs, EventsOf(bs), BlockEvents(b));
  }

  /** The renderer's loop over the blocks of one message. */
  method RenderBlocks(line: Line, ghost evs: seq<ToolCalls.Event>, bs: seq<Block>, pending: ToolCalls.Dict,
                      lines: seq<string>, raws: seq<string>)
    returns (pending': ToolCalls.Dict, lines': seq<string>, raws': seq<string>)
    requires Rendering(line, evs, pending, lines, raws)
    ensures Rendering(line, evs + EventsOf(bs), pending', lines', raws')
  {
    hide Rendering;
    hide BlockEvents;
    pending', lines', raws' := pending, lines, raws;
    ghost var done: seq<Block>, now := [], evs;
    assert evs + EventsOf([]) == evs;
    for j := 0 to |bs|
      invariant done == bs[..j] && now == evs + EventsOf(done)
      invariant Rendering(line, now, pending', lines', raws')
    {
      pending', lines', raws' := RenderBlock(line, now, bs[j], pending', lines', raws');
      EventsGrow(evs, done, bs[j]);
      now, done := now + BlockEvents(bs[j]), done + [bs[j]];
    }
    assert done == bs;
  }

  /** The renderer's last loop: what is still pending. */
  method RenderPending(line: Line, pending: ToolCalls.Dict, ghost parts: seq<ToolCalls.Part>,
                       lines: seq<string>, raws: seq<string>)
    returns (lines': seq<string>, raws': seq<string>)
    requires lines == MapParts(line, parts) && raws == MapParts(PartRaw, parts)
    ensures lines' == MapParts(line, parts + ToolCalls.PendingOf(pending))
    ensures raws' == MapParts(PartRaw, parts + ToolCalls.PendingOf(pending))
  {
    hide MapParts;
    hide PartRaw;
    lines', raws' := lines, raws;
    ghost var all, left := parts, ToolCalls.PendingOf(pending);
    assert parts + left[..0] == parts;
    for k := 0 to |pending|
      invariant all == parts + left[..k]
      invariant lines' == MapParts(line, all) && raws' == MapParts(PartRaw, all)
    {
      var part := ToolCalls.Pending(pending[k].1);
      MapSnoc(line, all, part);
      MapSnoc(PartRaw, all, part);
      all := all + [part];
      lines', raws' := lines' + [line(part)], raws' + [PartRaw(part)];
    }
    assert left[..|pending|] == left;
  }

  lemma {:induction false} RunEventsSnoc(run: seq<Message>, m: Message)
    ensures RunEvents(run + [m]) == RunEvents(run) + EventsOf(BlocksOf(m))
  {
    assert (run + [m])[..|run|] == run;
  }

  lemma {:induction false} RenderedEntry(h: Hash, run: seq<Message>)
    ensures var all := ToolCalls.Render(RunEvents(run));
      BundleEntry(h, run)
        == L1(PreviewOf(MapParts(PartLine, all)), Join("\n\n", MapParts(PartRaw, all)), Fps(h, run))
  {}

  method FingerprintOf(h: Hash, m: Message) returns (fp: string)
    ensures fp == Fp(h, m)
  {
    var text := ExtractText(m.content);
    fp := h(m.role, text);
  }

  /** One turn of the renderer's outer loop: the calls and results of one more message. */
  method RenderMessage(h: Hash, ghost done: seq<Message>, m: Message, pending: ToolCalls.Dict,
                       lines: seq<string>, raws: seq<string>, fps: seq<string>)
    returns (pending': ToolCalls.Dict, lines': seq<string>, raws': seq<string>, fps': seq<string>)
    requires Rendering(PartLine, RunEvents(done), pending, lines, raws) && fps == Fps(h, done)
    ensures Rendering(PartLine, RunEvents(done + [m]), pending', lines', raws') && fps' == Fps(h, done + [m])
  {
    var fp := FingerprintOf(h, m);
    FpsSnoc(h, done, m);
    fps' := fps + [fp];
    RunEventsSnoc(done, m);
    pending', lines', raws' := RenderBlocks(PartLine, RunEvents(done), BlocksOf(m), pending, lines, raws);
  }

  /** The renderer's outer loop. */
  method RenderRun(h: Hash, run: seq<Message>)
    returns (pending: ToolCalls.Dict, lines: seq<string>, raws: seq<string>, fps: seq<string>)
    ensures Rendering(PartLine, RunEvents(run), pending, lines, raws) && fps == Fps(h, run)
  {
    hide Rendering;
    hide RunEvents;
    hide Fps;
    hide Fp;
    pending, lines, raws, fps := [], [], [], [];
    RenderingStarts(PartLine);
    ghost var done: seq<Message> := [];
    for i := 0 to |run|
      invariant done == run[..i] && fps == Fps(h, done)
      invariant Rendering(PartLine, RunEvents(done), pending, lines, raws)
    {
      pending, lines, raws, fps := RenderMessage(h, done, run[i], pending, lines, raws, fps);
      done := done + [run[i]];
    }
    assert done == run;
  }

  method RenderToolBundle(h: Hash, run: seq<Message>) returns (preview: string, raw: string, fps: seq<string>)
    ensures L1(preview, raw, fps) == BundleEntry(h, run)
  {
    var pending, lines, raws, fps' := RenderRun(h, run);
    RenderedEntry(h, run);
    lines, raws := RenderPending(PartLine, pending, ToolCalls.After(RunEvents(run)).parts, lines, raws);
    preview := PreviewOf(lines);
    raw := Join("\n\n", raws);
    fps := fps';
  }

  lemma {:induction false} BundledRun(h: Hash, ms: seq<Message>, n: nat)
    requires 0 < n <= |ms| && KindOf(ms[0]).Call?
    requires forall k :: 0 <= k < n ==> !KindOf(ms[k]).Plain?
    requires n < |ms| ==> KindOf(ms[n]).Plain?
    ensures Bundled(h, ms) == [BundleEntry(h, ms[..n])] + Bundled(h, ms[n..])
  {
    Runs.RunLengthIs(ms, KindOf, n);
  }

  lemma {:induction false} BundledPlain(h: Hash, ms: seq<Message>)
    requires ms != [] && !KindOf(ms[0]).Call?
    ensures Bundled(h, ms) == PlainEntry(h, ms[0]) + Bundled(h, ms[1..])
  {}

  /** The inner loop of the grouping: the run that starts at i. */
  method TakeRun(ms: seq<Message>, i: nat) returns (run: seq<Message>, j: nat)
    requires i < |ms| && KindOf(ms[i]).Call?
    ensures i < j <= |ms| && run == ms[i..j]
    ensures forall k :: i <= k < j ==> !KindOf(ms[k]).Plain?
    ensures j < |ms| ==> KindOf(ms[j]).Plain?
  {
    run, j := [], i;
    while j < |ms| && !KindOf(ms[j]).Plain?
      invariant i <= j <= |ms| && run == ms[i..j]
      invariant forall k :: i <= k < j ==> !KindOf(ms[k]).Plain?
    {
      run := run + [ms[j]];
      j := j + 1;
    }
  }

  /** One turn of the grouping loop: the entries of the segment that starts at i. */
  method NextEntries(h: Hash, ms: seq<Message>, i: nat) returns (entries: seq<L1>, j: nat)
    requires i < |ms|
    ensures i < j <= |ms|
    ensures Bundled(h, ms[i..]) == entries + Bundled(h, ms[j..])
  {
    hide Bundled;
    hide BundleEntry;
    hide PlainEntry;
    ghost var rest := ms[i..];
    if KindOf(ms[i]).Call? {
      var run: seq<Message>;
      run, j := TakeRun(ms, i);
      BundledRun(h, rest, j - i);
      assert rest[..j - i] == run && rest[j - i..] == ms[j..];
      var preview, raw, fps := RenderToolBundle(h, run);
      entries := [L1(preview, raw, fps)];
    } else {
      entries := TurnOf(h, ms[i]);
      j := i + 1;
      BundledPlain(h, rest);
      assert rest[1..] == ms[j..] && rest[0] == ms[i];
    }
  }

  method BundleL1(h: Hash, ms: seq<Message>) returns (out: seq<L1>)
    ensures out == Bundled(h, ms)
  {
    out := [];
    var i := 0;
    ghost var rest := Bundled(h, ms);
    assert ms[0..] == ms;
    while i < |ms|
      invariant 0 <= i <= |ms|
      invariant rest == Bundled(h, ms[i..])
      invariant out + rest == Bundled(h, ms)
    {
      var entries, j := NextEntries(h, ms, i);
      Runs.Associative(out, entries, Bundled(h, ms[j..]));
      out, i := out + entries, j;
      rest := Bundled(h, ms[j..]);
    }
    assert ms[i..] == [];
  }
}
