// What the texts hold: of a message, of a tool run's entry and of a transcript node. Every statement is about
// the blocks themselves and the strings around them.
module Contents {
  import opened Text
  import opened Messages
  import Dicts
  import ToolCalls
  import Transcript
  import Views

  // ---- Parts of a joined text ----

  ghost predicate Around(text: string, a: string, part: string, b: string) { text == a + part + b }

  ghost predicate EndsWith(s: string, t: string) { |t| <= |s| && s[|s| - |t|..] == t }

  /** The part stands in the text between separators, or at an end of it. */
  ghost predicate Among(text: string, sep: string, part: string) {
    exists a: string, b: string ::
      Around(text, a, part, b) && (a == "" || EndsWith(a, sep)) && (b == "" || sep <= b)
  }

  lemma {:induction false} AmongIs(text: string, sep: string, part: string, a: string, b: string)
    requires text == a + part + b && (a == "" || EndsWith(a, sep)) && (b == "" || sep <= b)
    ensures Among(text, sep, part)
  {
    assert Around(text, a, part, b);
  }

  lemma {:induction false} AmongPrepended(head: string, text: string, sep: string, part: string)
    requires Among(text, sep, part) && EndsWith(head, sep)
    ensures Among(head + text, sep, part)
  {
    var a: string, b: string :| Around(text, a, part, b) && (a == "" || EndsWith(a, sep)) && (b == "" || sep <= b);
    assert head + text == (head + a) + part + b;
    if a == "" {
      assert head + a == head;
    } else {
      assert (head + a)[|head + a| - |sep|..] == a[|a| - |sep|..];
    }
    AmongIs(head + text, sep, part, head + a, b);
  }

  lemma {:induction false} JoinHas(sep: string, parts: seq<string>, k: nat)
    requires k < |parts|
    ensures Among(Join(sep, parts), sep, parts[k])
  {
    var text := Join(sep, parts);
    if |parts| == 1 {
      assert text == "" + parts[0] + "";
      AmongIs(text, sep, parts[0], "", "");
    } else {
      var rest := Join(sep, parts[1..]);
      assert text == parts[0] + sep + rest;
      if k == 0 {
        assert text == "" + parts[0] + (sep + rest);
        AmongIs(text, sep, parts[0], "", sep + rest);
      } else {
        JoinHas(sep, parts[1..], k - 1);
        var head := parts[0] + sep;
        assert head[|head| - |sep|..] == sep;
        AmongPrepended(head, rest, sep, parts[k]);
        assert head + rest == text;
      }
    }
  }

  lemma {:induction false} MapPartsAt(f: Line, ps: seq<ToolCalls.Part>, k: nat)
    requires k < |ps|
    ensures |MapParts(f, ps)| == |ps| && MapParts(f, ps)[k] == f(ps[k])
  {
    var init := ps[..|ps| - 1];
    if k < |init| {
      MapPartsAt(f, init, k);
    } else if init != [] {
      MapPartsAt(f, init, 0);
    }
  }

  lemma {:induction false} JoinedPart(f: Line, sep: string, ps: seq<ToolCalls.Part>, k: nat)
    requires k < |ps|
    ensures Among(Join(sep, MapParts(f, ps)), sep, f(ps[k]))
  {
    MapPartsAt(f, ps, k);
    JoinHas(sep, MapParts(f, ps), k);
  }

  // ---- The text of a message ----

  /** A result's items: those with a text show it, joined by blanks; in a run all do, line by line. */
  lemma {:induction false} ResultItems(a: seq<ResultItem>, i: ResultItem, b: seq<ResultItem>)
    ensures DictTexts([]) == AllTexts([]) == []
    ensures DictTexts(a + [i] + b) == DictTexts(a) + (if i.TextItem? then [i.text] else []) + DictTexts(b)
    ensures AllTexts(a + [i] + b) == AllTexts(a) + [if i.TextItem? then i.text else i.repr] + AllTexts(b)
    ensures ShownResult(Items(a + [i] + b)) == Join(" ", DictTexts(a + [i] + b))
    ensures WholeResult(Items(a + [i] + b)) == Join("\n", AllTexts(a + [i] + b))
  {
    assert DictTexts([]) == [] && AllTexts([]) == [];
    DictItems(a, i, b);
    AllItems(a, i, b);
    hide DictTexts;
    hide AllTexts;
    hide Join;
  }

  lemma {:induction false} TextsHead(items: seq<ResultItem>)
    requires items != []
    ensures DictTexts(items) == (if items[0].TextItem? then [items[0].text] else []) + DictTexts(items[1..])
  {}

  lemma {:induction false} Regroup<T>(x: seq<T>, a: seq<T>, t: seq<T>, b: seq<T>, y: seq<T>)
    ensures x + ((a + t + b) + y) == (x + a) + t + (b + y)
  {}

  lemma {:induction false} DictItems(a: seq<ResultItem>, i: ResultItem, b: seq<ResultItem>)
    ensures DictTexts(a + [i] + b) == DictTexts(a) + (if i.TextItem? then [i.text] else []) + DictTexts(b)
  {
    if a == [] {
      assert a + [i] + b == [i] + b && ([i] + b)[1..] == b;
    } else {
      var rest := a[1..] + [i] + b;
      assert (a + [i] + b)[1..] == rest && (a + [i] + b)[0] == a[0];
      DictItems(a[1..], i, b);
      hide DictTexts;
      Regroup(if a[0].TextItem? then [a[0].text] else [], DictTexts(a[1..]), if i.TextItem? then [i.text] else [],
              DictTexts(b), []);
      TextsHead(a + [i] + b);
      TextsHead(a);
    }
  }

  lemma {:induction false} AllItems(a: seq<ResultItem>, i: ResultItem, b: seq<ResultItem>)
    ensures AllTexts(a + [i] + b) == AllTexts(a) + [if i.TextItem? then i.text else i.repr] + AllTexts(b)
  {
    if a == [] {
      assert a + [i] + b == [i] + b && ([i] + b)[1..] == b;
    } else {
      assert (a + [i] + b)[1..] == a[1..] + [i] + b;
      AllItems(a[1..], i, b);
    }
  }

  lemma {:induction false} PieceAmong(a: seq<Block>, t: Block, b: seq<Block>)
    requires Piece(t) != ""
    ensures Among(TextOf(Blocks(a + [t] + b)), "\n", Piece(t))
  {
    Views.PiecesAround(a, t, b);
    hide Piece;
    var ps := Pieces(a) + [Piece(t)] + Pieces(b);
    assert ps[|Pieces(a)|] == Piece(t);
    JoinHas("\n", ps, |Pieces(a)|);
  }

  /** Of each block the text holds, on lines of its own: a text without reminders and blank ends, a call with
      its name and 400 characters of its input, a result with 400 characters. */
  lemma {:induction false} BlocksShown(a: seq<Block>, t: Block, b: seq<Block>)
    ensures var text := TextOf(Blocks(a + [t] + b));
      && (t.TextBlock? && StripBoilerplate(t.text) != "" ==> Among(text, "\n", StripBoilerplate(t.text)))
      && (t.ToolUse? ==> Among(text, "\n", "[tool_use:" + t.name + " " + Prefix(t.input, 400) + "]"))
      && (t.ToolResult? ==> Among(text, "\n", "[tool_result:" + Prefix(ShownResult(t.result), 400) + "]"))
    ensures t.TextBlock? ==> TextOf(Str(t.text)) == TextOf(Blocks([t]))
  {
    hide StripBoilerplate;
    hide Among;
    if Piece(t) != "" { PieceAmong(a, t, b); }
    if t.TextBlock? { TextAlone(t); }
    hide TextOf;
  }

  lemma {:induction false} TextAlone(t: Block)
    requires t.TextBlock?
    ensures TextOf(Str(t.text)) == TextOf(Blocks([t]))
  {
    hide StripBoilerplate;
    assert [t][1..] == [] && Pieces([]) == [];
    assert Pieces([t]) == if Piece(t) == "" then [] else [Piece(t)];
  }

  /** Two messages that differ in one block have the same text exactly when the blocks say the same. */
  lemma {:induction false} BlockTellsApart(a: seq<Block>, t: Block, u: Block, b: seq<Block>)
    ensures TextOf(Blocks(a + [t] + b)) == TextOf(Blocks(a + [u] + b)) <==> Piece(t) == Piece(u)
  {
    Views.PiecesAround(a, t, b);
    Views.PiecesAround(a, u, b);
    hide Piece;
    var x, y, p, q := Pieces(a), Pieces(b), Piece(t), Piece(u);
    assert x + [] + y == x + y;
    if p != "" { Views.JoinInsert("\n", x, p, y); }
    if q != "" { Views.JoinInsert("\n", x, q, y); }
    Views.JoinReplace("\n", x, p, q, y);
  }

  ghost predicate Injective(h: Hash) { forall role, x, y :: h(role, x) == h(role, y) ==> x == y }

  /** Two results in the same place of a message are told apart exactly when their texts differ within 400
      characters; so are the fingerprints, when the digest is injective. */
  lemma {:induction false} ResultTellsApart(h: Hash, role: string, a: seq<Block>, t: Block, u: Block, b: seq<Block>)
    requires t.ToolResult? && u.ToolResult?
    ensures var m, n := Message(role, Blocks(a + [t] + b)), Message(role, Blocks(a + [u] + b));
      && (TextOf(m.content) == TextOf(n.content) <==>
            Prefix(ShownResult(t.result), 400) == Prefix(ShownResult(u.result), 400))
      && (Injective(h) ==>
            (Fp(h, m) == Fp(h, n) <==> Prefix(ShownResult(t.result), 400) == Prefix(ShownResult(u.result), 400)))
  {
    BlockTellsApart(a, t, u, b);
    hide TextOf;
    hide ShownResult;
    hide Prefix;
    var x, y := Prefix(ShownResult(t.result), 400), Prefix(ShownResult(u.result), 400);
    assert Piece(t) == "[tool_result:" + x + "]" && Piece(u) == "[tool_result:" + y + "]";
    Bracketed("[tool_result:", x, y, "]");
  }

  lemma {:induction false} Bracketed(a: string, x: string, y: string, b: string)
    ensures a + x + b == a + y + b <==> x == y
  {
    var s, t := a + x + b, a + y + b;
    if s == t {
      assert |x| == |y| && s[|a|..|a| + |x|] == x && t[|a|..|a| + |y|] == y;
    }
  }

  /** The preview of a message keeps its role and 500 characters of its text. */
  lemma {:induction false} PreviewTellsApart(h: Hash, m: Message, n: Message)
    requires m.role == n.role
    ensures Plain(h, m).content == Plain(h, n).content <==>
      Prefix(TextOf(m.content), 500) == Prefix(TextOf(n.content), 500)
    ensures "[" + m.role + "] " <= Plain(h, m).content && Plain(h, m).raw == TextOf(m.content)
  {
    hide TextOf;
    hide Prefix;
    var x, y, head := Prefix(TextOf(m.content), 500), Prefix(TextOf(n.content), 500), "[" + m.role + "] ";
    assert Plain(h, m).content == head + x && Plain(h, n).content == head + y;
    assert (head + x)[|head|..] == x && (head + y)[|head|..] == y;
  }

  // ---- Blocks and events ----

  /** The blocks of a run, message after message. */
  function AllBlocks(run: seq<Message>): seq<Block> {
    if run == [] then [] else AllBlocks(run[..|run| - 1]) + BlocksOf(run[|run| - 1])
  }

  function EntriesBlocks(run: seq<Transcript.Entry>): seq<Block> {
    if run == [] then [] else EntriesBlocks(run[..|run| - 1]) + Transcript.EntryBlocks(run[|run| - 1])
  }

  lemma {:induction false} RunEventsFlat(run: seq<Message>)
    ensures RunEvents(run) == EventsOf(AllBlocks(run))
  {
    if run != [] {
      RunEventsFlat(run[..|run| - 1]);
      EventsAppend(AllBlocks(run[..|run| - 1]), BlocksOf(run[|run| - 1]));
    }
  }

  lemma {:induction false} EntryEventsFlat(run: seq<Transcript.Entry>)
    ensures Transcript.EntryEvents(run) == EventsOf(EntriesBlocks(run))
  {
    if run != [] {
      EntryEventsFlat(run[..|run| - 1]);
      EventsAppend(EntriesBlocks(run[..|run| - 1]), Transcript.EntryBlocks(run[|run| - 1]));
    }
  }

  /** The call or result of a block among the events. */
  lemma {:induction false} EventAt(bs: seq<Block>, p: nat) returns (n: nat)
    requires p < |bs| && (bs[p].ToolUse? || bs[p].ToolResult?)
    ensures n == |EventsOf(bs[..p])| < |EventsOf(bs)| && EventsOf(bs)[n] == BlockEvents(bs[p])[0]
    ensures |EventsOf(bs[..p + 1])| == n + 1
  {
    n := |EventsOf(bs[..p])|;
    assert bs == bs[..p] + [bs[p]] + bs[p + 1..];
    Views.AroundBlock(bs[..p], bs[p], bs[p + 1..]);
    assert bs[..p + 1] == bs[..p] + [bs[p]];
    EventsSnoc(bs[..p], bs[p]);
    hide EventsOf;
  }

  lemma {:induction false} EventsUpTo(bs: seq<Block>, p: nat, q: nat)
    requires p <= q <= |bs|
    ensures |EventsOf(bs[..p])| <= |EventsOf(bs[..q])|
  {
    assert bs[..q] == bs[..p] + bs[p..q];
    EventsAppend(bs[..p], bs[p..q]);
  }

  /** The block that an event comes from. */
  lemma {:induction false} EventFrom(bs: seq<Block>, k: nat) returns (j: nat)
    requires k < |EventsOf(bs)|
    ensures j < |bs| && |EventsOf(bs[..j])| == k && BlockEvents(bs[j]) == [EventsOf(bs)[k]]
  {
    var init := bs[..|bs| - 1];
    if k < |EventsOf(init)| {
      j := EventFrom(init, k);
      assert init[..j] == bs[..j];
    } else {
      j := |bs| - 1;
    }
  }

  predicate Concerns(b: Block, id: string) { (b.ToolUse? && b.id == id) || (b.ToolResult? && b.useId == id) }

  /** Block p calls with this id, and no block between p and q has it. */
  ghost predicate CallWaits(bs: seq<Block>, p: nat, q: nat, id: string) {
    p < q <= |bs| && bs[p].ToolUse? && bs[p].id == id && forall k :: p < k < q ==> !Concerns(bs[k], id)
  }

  lemma {:induction false} WaitingIsOpen(bs: seq<Block>, p: nat, q: nat, id: string) returns (n: nat)
    requires CallWaits(bs, p, q, id)
    ensures n < |EventsOf(bs)| && |EventsOf(bs[..q])| <= |EventsOf(bs)|
    ensures EventsOf(bs)[n] == ToolCalls.Use(id, ToolCalls.Call(bs[p].name, Prefix(bs[p].input, 300)))
    ensures ToolCalls.OpenAt(EventsOf(bs), n, |EventsOf(bs[..q])|)
  {
    n := EventAt(bs, p);
    EventsUpTo(bs, p + 1, q);
    EventsUpTo(bs, q, |bs|);
    assert bs[..|bs|] == bs;
    var evs, m := EventsOf(bs), |EventsOf(bs[..q])|;
    forall k | n < k < m ensures evs[k].id != id {
      var j := EventFrom(bs, k);
      if j <= p { EventsUpTo(bs, j, p); }
      if q <= j { EventsUpTo(bs, q, j); }
      hide EventsOf;
      assert !Concerns(bs[j], id);
    }
  }

  lemma {:induction false} OpenIsWaiting(bs: seq<Block>, n: nat, q: nat, id: string) returns (p: nat)
    requires q <= |bs| && |EventsOf(bs[..q])| <= |EventsOf(bs)|
    requires ToolCalls.OpenAt(EventsOf(bs), n, |EventsOf(bs[..q])|) && EventsOf(bs)[n].id == id
    ensures CallWaits(bs, p, q, id)
  {
    p := EventFrom(bs, n);
    if q <= p { EventsUpTo(bs, q, p); }
    assert bs[p].ToolUse? && bs[p].id == id;
    forall k | p < k < q ensures !Concerns(bs[k], id) {
      if bs[k].ToolUse? || bs[k].ToolResult? {
        var m := EventBetween(bs, p, k, q);
        hide EventsOf;
        assert EventsOf(bs)[m].id != id;
      }
    }
  }

  lemma {:induction false} EventBetween(bs: seq<Block>, p: nat, k: nat, q: nat) returns (m: nat)
    requires p < k < q <= |bs| && (bs[p].ToolUse? || bs[p].ToolResult?) && (bs[k].ToolUse? || bs[k].ToolResult?)
    ensures |EventsOf(bs[..p])| < m < |EventsOf(bs[..q])| && m < |EventsOf(bs)|
    ensures EventsOf(bs)[m] == BlockEvents(bs[k])[0]
  {
    hide *;
    m := EventAt(bs, k);
    var first := EventAt(bs, p);
    EventsUpTo(bs, p + 1, k);
    EventsUpTo(bs, k + 1, q);
  }

  /** An assistant message with a call opens a tool run; a user message with a result goes on with one. */
  lemma {:induction false} MessageKinds(m: Message)
    ensures KindOf(m).Call? <==> m.role == "assistant" && exists b :: b in BlocksOf(m) && b.ToolUse?
    ensures KindOf(m).Answer? <==> m.role == "user" && exists b :: b in BlocksOf(m) && b.ToolResult?
  {
    assert "user"[0] == 'u' && "assistant"[0] == 'a';
    if Uses(m) {
      var i :| 0 <= i < |m.content.blocks| && m.content.blocks[i].ToolUse?;
      assert m.content.blocks[i] in BlocksOf(m);
    }
    if Answers(m) {
      var i :| 0 <= i < |m.content.blocks| && m.content.blocks[i].ToolResult?;
      assert m.content.blocks[i] in BlocksOf(m);
    }
  }

  // ---- Parts of a run ----

  lemma {:induction false} ResultPartsGrow(evs: seq<ToolCalls.Event>, n: nat, m: nat)
    requires n < m <= |evs| && evs[n].Result?
    ensures var k := |ToolCalls.ResultParts(evs, n)|;
      && k < |ToolCalls.ResultParts(evs, m)|
      && ToolCalls.ResultParts(evs, m)[k]
           == ToolCalls.Answered(ToolCalls.OpenCall(evs, evs[n].id, n), evs[n].output, evs[n].failed)
  {
    hide ToolCalls.OpenCall;
    if n + 1 < m { ResultPartsGrow(evs, n, m - 1); }
  }

  /** Each result is rendered, with the call that is open for it. */
  lemma {:induction false} AnsweredPart(evs: seq<ToolCalls.Event>, n: nat) returns (k: nat)
    requires n < |evs| && evs[n].Result?
    ensures k < |ToolCalls.Render(evs)|
    ensures ToolCalls.Render(evs)[k]
      == ToolCalls.Answered(ToolCalls.OpenCall(evs, evs[n].id, n), evs[n].output, evs[n].failed)
  {
    k := |ToolCalls.ResultParts(evs, n)|;
    ToolCalls.RendererTracksOpenCalls(evs, |evs|);
    assert evs[..|evs|] == evs;
    ResultPartsGrow(evs, n, |evs|);
    hide ToolCalls.OpenCall;
    hide ToolCalls.Tracks;
    hide ToolCalls.After;
    hide ToolCalls.ResultParts;
  }

  /** And each call that is still open at the end, as pending. */
  lemma {:induction false} PendingPart(evs: seq<ToolCalls.Event>, p: nat) returns (k: nat)
    requires ToolCalls.OpenAt(evs, p, |evs|)
    ensures k < |ToolCalls.Render(evs)| && ToolCalls.Render(evs)[k] == ToolCalls.Pending(evs[p].call)
  {
    ToolCalls.RendererTracksOpenCalls(evs, |evs|);
    ToolCalls.OpenUnique(evs, p, |evs|);
    assert evs[..|evs|] == evs;
    var s := ToolCalls.After(evs);
    var i := KeyAt(s.pending, evs[p].id);
    hide ToolCalls.OpenCall;
    hide ToolCalls.HasOpen;
    hide ToolCalls.After;
    hide ToolCalls.ResultParts;
    k := |s.parts| + i;
    assert ToolCalls.PendingOf(s.pending)[i] == ToolCalls.Pending(s.pending[i].1);
  }

  lemma {:induction false} KeyAt(d: ToolCalls.Dict, id: string) returns (i: nat)
    ensures Dicts.IndexOf(d, id) < |d| ==> i < |d| && d[i].0 == id
  {
    i := Dicts.IndexOf(d, id);
  }

  // ---- What a run's texts hold ----

  /** Block q answers the call of block p, and is rendered with its name, its input up to 300 characters, its
      whole output and its error flag. */
  lemma {:induction false} AnswerPart(bs: seq<Block>, p: nat, q: nat) returns (k: nat)
    requires q < |bs| && bs[q].ToolResult? && CallWaits(bs, p, q, bs[q].useId)
    ensures var parts := ToolCalls.Render(EventsOf(bs));
      && k < |parts|
      && parts[k] == ToolCalls.Answered(ToolCalls.Call(bs[p].name, Prefix(bs[p].input, 300)),
                                        WholeResult(bs[q].result), bs[q].isError)
  {
    var n := WaitingIsOpen(bs, p, q, bs[q].useId);
    var m := EventAt(bs, q);
    hide EventsOf;
    ToolCalls.OpenUnique(EventsOf(bs), n, m);
    k := AnsweredPart(EventsOf(bs), m);
  }

  /** Block p calls and no later block has its id: the call is rendered as pending. */
  lemma {:induction false} CallPart(bs: seq<Block>, p: nat) returns (k: nat)
    requires p < |bs| && bs[p].ToolUse? && CallWaits(bs, p, |bs|, bs[p].id)
    ensures var parts := ToolCalls.Render(EventsOf(bs));
      && k < |parts|
      && parts[k] == ToolCalls.Pending(ToolCalls.Call(bs[p].name, Prefix(bs[p].input, 300)))
  {
    var n := WaitingIsOpen(bs, p, |bs|, bs[p].id);
    assert bs[..|bs|] == bs;
    hide EventsOf;
    k := PendingPart(EventsOf(bs), n);
  }

  /** Block q answers no call: it is rendered without a name and an input. */
  lemma {:induction false} StrayPart(bs: seq<Block>, q: nat) returns (k: nat)
    requires q < |bs| && bs[q].ToolResult? && forall p :: !CallWaits(bs, p, q, bs[q].useId)
    ensures var parts := ToolCalls.Render(EventsOf(bs));
      && k < |parts|
      && parts[k] == ToolCalls.Answered(ToolCalls.Call("?", ""), WholeResult(bs[q].result), bs[q].isError)
  {
    var m := EventAt(bs, q);
    var evs := EventsOf(bs);
    if ToolCalls.HasOpen(evs, bs[q].useId, m) {
      var n: nat :| ToolCalls.OpenAt(evs, n, m) && evs[n].id == bs[q].useId;
      var p := OpenIsWaiting(bs, n, q, bs[q].useId);
    }
    hide EventsOf;
    k := AnsweredPart(evs, m);
  }

  /** What is stored for a run holds each answered call: name, 300 characters of input and the whole result. */
  lemma {:induction false} AnswerIsStored(run: seq<Message>, p: nat, q: nat)
    requires var bs := AllBlocks(run); q < |bs| && bs[q].ToolResult? && CallWaits(bs, p, q, bs[q].useId)
    ensures var bs := AllBlocks(run);
      Among(RunRaw(run), "\n\n",
            bs[p].name + "(" + Prefix(bs[p].input, 300) + ") \U{2192} " + WholeResult(bs[q].result))
  {
    RunEventsFlat(run);
    var k := AnswerPart(AllBlocks(run), p, q);
    hide Among;
    hide CallWaits;
    JoinedPart(PartRaw, "\n\n", ToolCalls.Render(RunEvents(run)), k);
  }

  /** Each call that is never answered, as pending. */
  lemma {:induction false} PendingIsStored(run: seq<Message>, p: nat)
    requires var bs := AllBlocks(run); p < |bs| && bs[p].ToolUse? && CallWaits(bs, p, |bs|, bs[p].id)
    ensures var bs := AllBlocks(run);
      Among(RunRaw(run), "\n\n", bs[p].name + "(" + Prefix(bs[p].input, 300) + ") \U{2192} pending")
  {
    RunEventsFlat(run);
    var k := CallPart(AllBlocks(run), p);
    hide Among;
    hide CallWaits;
    JoinedPart(PartRaw, "\n\n", ToolCalls.Render(RunEvents(run)), k);
    PendingText(AllBlocks(run)[p].name + "(" + Prefix(AllBlocks(run)[p].input, 300));
  }

  lemma {:induction false} PendingText(s: string)
    ensures s + ") \U{2192} pending" == s + ") \U{2192} " + "pending"
  {}

  /** And each result that answers no call. */
  lemma {:induction false} StrayIsStored(run: seq<Message>, q: nat)
    requires var bs := AllBlocks(run);
      q < |bs| && bs[q].ToolResult? && forall p :: !CallWaits(bs, p, q, bs[q].useId)
    ensures Among(RunRaw(run), "\n\n", "?() \U{2192} " + WholeResult(AllBlocks(run)[q].result))
  {
    RunEventsFlat(run);
    var k := StrayPart(AllBlocks(run), q);
    hide Among;
    hide CallWaits;
    hide PartRaw;
    hide RunEvents;
    JoinedPart(PartRaw, "\n\n", ToolCalls.Render(RunEvents(run)), k);
    StrayText(WholeResult(AllBlocks(run)[q].result), AllBlocks(run)[q].isError);
  }

  lemma {:induction false} StrayText(out: string, err: bool)
    ensures PartRaw(ToolCalls.Answered(ToolCalls.Call("?", ""), out, err)) == "?() \U{2192} " + out
  {
    assert "?" + "(" + "" + ") \U{2192} " == "?() \U{2192} ";
  }

  // ---- The preview of a run ----

  /** The preview is this text, cut at 1500 characters. */
  ghost predicate Previews(preview: string, start: string, uncut: string) {
    preview == Prefix(uncut, 1500) && start <= uncut
  }

  lemma {:induction false} PreviewLine(run: seq<Message>, k: nat) returns (uncut: string)
    requires k < |ToolCalls.Render(RunEvents(run))|
    ensures Previews(RunPreview(run), "[tool_bundle]\n", uncut)
    ensures Among(uncut, "\n", PartLine(ToolCalls.Render(RunEvents(run))[k]))
  {
    var parts, head := ToolCalls.Render(RunEvents(run)), "[tool_bundle]\n";
    MapPartsAt(PartLine, parts, k);
    JoinedPart(PartLine, "\n", parts, k);
    hide PartLine;
    hide MapParts;
    hide Among;
    hide Join;
    uncut := head + Join("\n", MapParts(PartLine, parts));
    assert head[|head| - 1..] == "\n";
    AmongPrepended(head, Join("\n", MapParts(PartLine, parts)), "\n", PartLine(parts[k]));
  }

  /** The preview's line for an answered call: name, input, how it ended, and 200 characters of its result. */
  lemma {:induction false} AnswerIsPreviewed(run: seq<Message>, p: nat, q: nat) returns (uncut: string)
    requires var bs := AllBlocks(run); q < |bs| && bs[q].ToolResult? && CallWaits(bs, p, q, bs[q].useId)
    ensures Previews(RunPreview(run), "[tool_bundle]\n", uncut)
    ensures var bs := AllBlocks(run);
      Among(uncut, "\n",
            "  - " + bs[p].name + "(" + Prefix(bs[p].input, 300) + ") \U{2192} "
            + ((if bs[q].isError then "[ERR] " else "[OK] ") + Prefix(WholeResult(bs[q].result), 200)))
  {
    RunEventsFlat(run);
    var k := AnswerPart(AllBlocks(run), p, q);
    hide Among;
    hide CallWaits;
    hide RunPreview;
    uncut := PreviewLine(run, k);
  }

  /** And for a call without a result. */
  lemma {:induction false} PendingIsPreviewed(run: seq<Message>, p: nat) returns (uncut: string)
    requires var bs := AllBlocks(run); p < |bs| && bs[p].ToolUse? && CallWaits(bs, p, |bs|, bs[p].id)
    ensures Previews(RunPreview(run), "[tool_bundle]\n", uncut)
    ensures var bs := AllBlocks(run);
      Among(uncut, "\n", "  - " + bs[p].name + "(" + Prefix(bs[p].input, 300) + ") \U{2192} " + "(no result)")
  {
    RunEventsFlat(run);
    var k := CallPart(AllBlocks(run), p);
    hide Among;
    hide CallWaits;
    hide RunPreview;
    uncut := PreviewLine(run, k);
  }

  /** And for a result that answers no call. */
  lemma {:induction false} StrayIsPreviewed(run: seq<Message>, q: nat) returns (uncut: string)
    requires var bs := AllBlocks(run);
      q < |bs| && bs[q].ToolResult? && forall p :: !CallWaits(bs, p, q, bs[q].useId)
    ensures Previews(RunPreview(run), "[tool_bundle]\n", uncut)
    ensures var b := AllBlocks(run)[q];
      Among(uncut, "\n",
            "  - ?() \U{2192} " + ((if b.isError then "[ERR] " else "[OK] ") + Prefix(WholeResult(b.result), 200)))
  {
    RunEventsFlat(run);
    var k := StrayPart(AllBlocks(run), q);
    hide Among;
    hide CallWaits;
    hide RunPreview;
    hide PartLine;
    hide RunEvents;
    uncut := PreviewLine(run, k);
    StrayLine(WholeResult(AllBlocks(run)[q].result), AllBlocks(run)[q].isError);
  }

  lemma {:induction false} StrayLine(out: string, err: bool)
    ensures PartLine(ToolCalls.Answered(ToolCalls.Call("?", ""), out, err))
      == "  - ?() \U{2192} " + ((if err then "[ERR] " else "[OK] ") + Prefix(out, 200))
  {
    assert "  - " + "?" + "(" + "" + ") \U{2192} " == "  - ?() \U{2192} ";
  }

  // ---- One result exchanged for another ----

  lemma {:induction false} RunEventsAppend(a: seq<Message>, b: seq<Message>)
    ensures RunEvents(a + b) == RunEvents(a) + RunEvents(b)
  {
    hide EventsOf;
    if b == [] {
      assert a + b == a;
    } else {
      assert (a + b)[..|a + b| - 1] == a + b[..|b| - 1];
      RunEventsAppend(a, b[..|b| - 1]);
    }
  }

  /** The events before and after one block of the run. */
  lemma {:induction false} EventsAround(run: seq<Message>, i: nat, a: seq<Block>, t: Block, b: seq<Block>)
    requires i < |run| && run[i].content == Blocks(a + [t] + b)
    ensures RunEvents(run)
      == (RunEvents(run[..i]) + EventsOf(a)) + BlockEvents(t) + (EventsOf(b) + RunEvents(run[i + 1..]))
  {
    assert run == run[..i] + ([run[i]] + run[i + 1..]);
    RunEventsAppend(run[..i], [run[i]] + run[i + 1..]);
    RunEventsAppend([run[i]], run[i + 1..]);
    Views.AroundBlock(a, t, b);
    OneMessageEvents(run[i]);
    hide *;
    Regroup(RunEvents(run[..i]), EventsOf(a), BlockEvents(t), EventsOf(b), RunEvents(run[i + 1..]));
  }

  lemma {:induction false} OneMessageEvents(m: Message)
    ensures RunEvents([m]) == EventsOf(BlocksOf(m))
  {
    hide EventsOf;
    assert [m][..0] == [] && RunEvents([m]) == RunEvents([]) + EventsOf(BlocksOf(m));
  }

  function Rendered(pend: ToolCalls.Dict, before: seq<ToolCalls.Part>, p: ToolCalls.Part, after: seq<ToolCalls.Part>):
    ToolCalls.State
  {
    ToolCalls.State(pend, before + [p] + after)
  }

  /** Exchanging the output of one result exchanges it in one part. */
  lemma {:induction false} OutputInOnePart(x: seq<ToolCalls.Event>, id: string, o: string, u: string, err: bool,
                                           y: seq<ToolCalls.Event>)
    returns (c: ToolCalls.Call, after: seq<ToolCalls.Part>, pend: ToolCalls.Dict)
    ensures var before := ToolCalls.After(x).parts;
      && ToolCalls.After(x + [ToolCalls.Result(id, o, err)] + y)
           == Rendered(pend, before, ToolCalls.Answered(c, o, err), after)
      && ToolCalls.After(x + [ToolCalls.Result(id, u, err)] + y)
           == Rendered(pend, before, ToolCalls.Answered(c, u, err), after)
  {
    var s, t := x + [ToolCalls.Result(id, o, err)], x + [ToolCalls.Result(id, u, err)];
    hide *;
    if y == [] {
      assert s + y == s && t + y == t;
      c, after, pend := ThisPart(x, id, o, u, err);
    } else {
      var init, last := y[..|y| - 1], y[|y| - 1];
      c, after, pend := OutputInOnePart(x, id, o, u, err, init);
      assert s + y == (s + init) + [last] && t + y == (t + init) + [last];
      AfterSnoc(s + init, last);
      AfterSnoc(t + init, last);
      after, pend := OneMore(pend, ToolCalls.After(x).parts, ToolCalls.Answered(c, o, err),
                             ToolCalls.Answered(c, u, err), after, last);
    }
  }

  lemma {:induction false} ThisPart(x: seq<ToolCalls.Event>, id: string, o: string, u: string, err: bool)
    returns (c: ToolCalls.Call, after: seq<ToolCalls.Part>, pend: ToolCalls.Dict)
    ensures var before := ToolCalls.After(x).parts;
      && ToolCalls.After(x + [ToolCalls.Result(id, o, err)])
           == Rendered(pend, before, ToolCalls.Answered(c, o, err), after)
      && ToolCalls.After(x + [ToolCalls.Result(id, u, err)])
           == Rendered(pend, before, ToolCalls.Answered(c, u, err), after)
  {
    AfterSnoc(x, ToolCalls.Result(id, o, err));
    AfterSnoc(x, ToolCalls.Result(id, u, err));
    hide ToolCalls.After;
    var (rest, call) := ToolCalls.Pop(ToolCalls.After(x).pending, id);
    hide ToolCalls.Pop;
    c, after, pend := call, [], rest;
  }

  lemma {:induction false} OneMore(pend: ToolCalls.Dict, before: seq<ToolCalls.Part>, p: ToolCalls.Part,
                                   q: ToolCalls.Part, after: seq<ToolCalls.Part>, e: ToolCalls.Event)
    returns (after': seq<ToolCalls.Part>, pend': ToolCalls.Dict)
    ensures ToolCalls.Step(Rendered(pend, before, p, after), e) == Rendered(pend', before, p, after')
    ensures ToolCalls.Step(Rendered(pend, before, q, after), e) == Rendered(pend', before, q, after')
  {
    hide ToolCalls.Put;
    hide ToolCalls.Pop;
    match e
    case Use(id, call) => after', pend' := after, ToolCalls.Put(pend, id, call);
    case Result(id, output, failed) =>
      var (rest, call) := ToolCalls.Pop(pend, id);
      var last := ToolCalls.Answered(call, output, failed);
      after', pend' := after + [last], rest;
      assert before + [p] + after + [last] == before + [p] + after';
      assert before + [q] + after + [last] == before + [q] + after';
  }

  lemma {:induction false} MapPartsAppend(f: Line, a: seq<ToolCalls.Part>, b: seq<ToolCalls.Part>)
    ensures MapParts(f, a + b) == MapParts(f, a) + MapParts(f, b)
  {
    if b == [] {
      assert a + b == a;
    } else {
      assert (a + b)[..|a + b| - 1] == a + b[..|b| - 1];
      MapPartsAppend(f, a, b[..|b| - 1]);
    }
  }

  /** The rendered parts of a run, and of the run with the other result. */
  lemma {:induction false} PartsApart(run: seq<Message>, i: nat, a: seq<Block>, t: Block, u: Block, b: seq<Block>)
    returns (c: ToolCalls.Call, before: seq<ToolCalls.Part>, after: seq<ToolCalls.Part>)
    requires i < |run| && run[i].content == Blocks(a + [t] + b) && t.ToolResult?
    requires u.ToolResult? && u.useId == t.useId && u.isError == t.isError
    ensures var m := run[i].(content := Blocks(a + [u] + b));
      && ToolCalls.Render(RunEvents(run))
           == before + [ToolCalls.Answered(c, WholeResult(t.result), t.isError)] + after
      && ToolCalls.Render(RunEvents(run[i := m]))
           == before + [ToolCalls.Answered(c, WholeResult(u.result), t.isError)] + after
  {
    var m := run[i].(content := Blocks(a + [u] + b));
    var other := run[i := m];
    EventsAround(run, i, a, t, b);
    EventsAround(other, i, a, u, b);
    assert other[..i] == run[..i] && other[i + 1..] == run[i + 1..];
    var x, y := RunEvents(run[..i]) + EventsOf(a), EventsOf(b) + RunEvents(run[i + 1..]);
    var o, v := WholeResult(t.result), WholeResult(u.result);
    assert BlockEvents(t) == [ToolCalls.Result(t.useId, o, t.isError)];
    assert BlockEvents(u) == [ToolCalls.Result(t.useId, v, t.isError)];
    hide *;
    c, before, after := RenderedApart(x, t.useId, o, v, t.isError, y);
  }

  lemma {:induction false} RenderedApart(x: seq<ToolCalls.Event>, id: string, o: string, u: string, err: bool,
                                         y: seq<ToolCalls.Event>)
    returns (c: ToolCalls.Call, before: seq<ToolCalls.Part>, after: seq<ToolCalls.Part>)
    ensures ToolCalls.Render(x + [ToolCalls.Result(id, o, err)] + y) == before + [ToolCalls.Answered(c, o, err)] + after
    ensures ToolCalls.Render(x + [ToolCalls.Result(id, u, err)] + y) == before + [ToolCalls.Answered(c, u, err)] + after
  {
    var rest, pend;
    c, rest, pend := OutputInOnePart(x, id, o, u, err, y);
    hide ToolCalls.After;
    var left := ToolCalls.PendingOf(pend);
    before, after := ToolCalls.After(x).parts, rest + left;
    Regroup([], before, [ToolCalls.Answered(c, o, err)], rest, left);
    Regroup([], before, [ToolCalls.Answered(c, u, err)], rest, left);
    assert [] + before == before;
    hide ToolCalls.PendingOf;
  }

  lemma {:induction false} JoinedApart(f: Line, sep: string, before: seq<ToolCalls.Part>, p: ToolCalls.Part,
                                       q: ToolCalls.Part, after: seq<ToolCalls.Part>)
    ensures Join(sep, MapParts(f, before + [p] + after)) == Join(sep, MapParts(f, before + [q] + after)) <==>
      f(p) == f(q)
  {
    MapPartsAround(f, before, p, after);
    MapPartsAround(f, before, q, after);
    hide MapParts;
    Views.JoinReplace(sep, MapParts(f, before), f(p), f(q), MapParts(f, after));
  }

  lemma {:induction false} MapPartsAround(f: Line, before: seq<ToolCalls.Part>, p: ToolCalls.Part,
                                          after: seq<ToolCalls.Part>)
    ensures MapParts(f, before + [p] + after) == MapParts(f, before) + [f(p)] + MapParts(f, after)
  {
    MapPartsAppend(f, before + [p], after);
    MapSnoc(f, before, p);
    hide MapParts;
  }

  /** What is stored for a run tells two results in one place apart exactly when their whole texts differ; its
      preview does not when they agree on 200 characters. */
  lemma {:induction false} OutputTellsApart(run: seq<Message>, i: nat, a: seq<Block>, t: Block, u: Block, b: seq<Block>)
    requires i < |run| && run[i].content == Blocks(a + [t] + b) && t.ToolResult?
    requires u.ToolResult? && u.useId == t.useId && u.isError == t.isError
    ensures var other := run[i := run[i].(content := Blocks(a + [u] + b))];
      && (RunRaw(run) == RunRaw(other) <==> WholeResult(t.result) == WholeResult(u.result))
      && (Prefix(WholeResult(t.result), 200) == Prefix(WholeResult(u.result), 200) ==>
            RunPreview(run) == RunPreview(other))
  {
    var c, before, after := PartsApart(run, i, a, t, u, b);
    hide RunEvents;
    hide WholeResult;
    hide MapParts;
    hide Join;
    hide Prefix;
    var o, v := WholeResult(t.result), WholeResult(u.result);
    var p, q := ToolCalls.Answered(c, o, t.isError), ToolCalls.Answered(c, v, t.isError);
    JoinedApart(PartRaw, "\n\n", before, p, q, after);
    RawApart(c, o, v, t.isError);
    LinesSame(c, o, v, t.isError);
    if PartLine(p) == PartLine(q) {
      MapPartsAround(PartLine, before, p, after);
      MapPartsAround(PartLine, before, q, after);
    }
    hide PartRaw;
    hide PartLine;
    hide PreviewOf;
  }

  lemma {:induction false} RawApart(c: ToolCalls.Call, o: string, v: string, err: bool)
    ensures PartRaw(ToolCalls.Answered(c, o, err)) == PartRaw(ToolCalls.Answered(c, v, err)) <==> o == v
  {
    var head := c.name + "(" + c.input + ") \U{2192} ";
    assert PartRaw(ToolCalls.Answered(c, o, err)) == head + o && PartRaw(ToolCalls.Answered(c, v, err)) == head + v;
    assert (head + o)[|head|..] == o && (head + v)[|head|..] == v;
  }

  lemma {:induction false} LinesSame(c: ToolCalls.Call, o: string, v: string, err: bool)
    ensures Prefix(o, 200) == Prefix(v, 200) ==>
      PartLine(ToolCalls.Answered(c, o, err)) == PartLine(ToolCalls.Answered(c, v, err))
  {}
}
