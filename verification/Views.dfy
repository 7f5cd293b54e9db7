// How the two views of a request agree, which the trim protocol relies on.
module Views {
  import opened Text
  import Runs
  import opened Messages

  lemma {:induction false} AllFpsAppend(a: seq<L1>, b: seq<L1>)
    ensures AllFps(a + b) == AllFps(a) + AllFps(b)
  {
    if a == [] {
      assert a + b == b;
    } else {
      assert (a + b)[1..] == a[1..] + b;
      AllFpsAppend(a[1..], b);
    }
  }

  lemma {:induction false} ToolPieceVisible(b: Block)
    requires b.ToolUse? || b.ToolResult?
    ensures Piece(b) != "" && !Blank(Piece(b))
  {
    assert Piece(b)[0] == '[' && !IsSpace('[');
  }

  lemma {:induction false} PieceListed(bs: seq<Block>, i: nat) returns (k: nat)
    requires i < |bs| && Piece(bs[i]) != ""
    ensures k < |Pieces(bs)| && Pieces(bs)[k] == Piece(bs[i])
  {
    hide Piece;
    if i == 0 {
      k := 0;
    } else {
      k := PieceListed(bs[1..], i - 1);
      if Piece(bs[0]) != "" { k := k + 1; }
    }
  }

  /** Tool calls and tool results always have text, so no message of a tool run is skipped as blank. */
  lemma {:induction false} ToolMessagesVisible(m: Message)
    requires !KindOf(m).Plain?
    ensures Visible(m)
  {
    var bs := m.content.blocks;
    var i: nat :| i < |bs| && (bs[i].ToolUse? || bs[i].ToolResult?);
    ToolPieceVisible(bs[i]);
    var k := PieceListed(bs, i);
    JoinNotBlank("\n", Pieces(bs), k);
  }

  lemma {:induction false} RunFps(h: Hash, run: seq<Message>)
    requires forall i :: 0 <= i < |run| ==> Visible(run[i])
    ensures AllFps(PerMessage(h, run)) == Fps(h, run)
    ensures |PerMessage(h, run)| == |run|
    ensures forall i :: 0 <= i < |run| ==> PerMessage(h, run)[i] == Plain(h, run[i])
  {
    if run != [] {
      RunFps(h, run[1..]);
      assert PerMessage(h, run) == [Plain(h, run[0])] + PerMessage(h, run[1..]);
    }
  }

  lemma {:induction false} SegmentFps(h: Hash, seg: Runs.Segment<Message>)
    requires Runs.ProperRun(seg, KindOf)
    ensures AllFps(EntriesOf(h)(seg)) == AllFps(PerMessage(h, Runs.Items(seg)))
  {
    if seg.Run? {
      forall i | 0 <= i < |seg.items| ensures Visible(seg.items[i]) { ToolMessagesVisible(seg.items[i]); }
      RunFps(h, seg.items);
    } else {
      assert PerMessage(h, [seg.item]) == PlainEntry(h, seg.item) + PerMessage(h, []);
    }
  }

  lemma {:induction false} SegmentsFps(h: Hash, segs: seq<Runs.Segment<Message>>)
    requires forall i :: 0 <= i < |segs| ==> Runs.ProperRun(segs[i], KindOf)
    ensures AllFps(Runs.FlatMap(EntriesOf(h), segs)) == AllFps(PerMessage(h, Runs.Flat(segs)))
  {
    if segs != [] {
      var head, rest := Runs.Items(segs[0]), Runs.Flat(segs[1..]);
      SegmentFps(h, segs[0]);
      SegmentsFps(h, segs[1..]);
      PerMessageAppend(h, head, rest);
      AllFpsAppend(PerMessage(h, head), PerMessage(h, rest));
      AllFpsAppend(EntriesOf(h)(segs[0]), Runs.FlatMap(EntriesOf(h), segs[1..]));
    }
  }

  /** Grouping loses, repeats and reorders no fingerprint. */
  lemma {:induction false} BundlingKeepsFingerprints(h: Hash, ms: seq<Message>)
    ensures AllFps(Bundled(h, ms)) == AllFps(PerMessage(h, ms))
  {
    Runs.SegmentsCover(ms, KindOf);
    SegmentsFps(h, Runs.Segments(ms, KindOf));
  }

  /** Bundling a list is bundling its parts, exactly when the cut is not inside a tool run. */
  lemma {:induction false} BundlingSplits(h: Hash, a: seq<Message>, b: seq<Message>)
    ensures Bundled(h, a + b) == Bundled(h, a) + Bundled(h, b) <==> !Runs.CutsRun(a, b, KindOf)
  {
    var f := EntriesOf(h);
    hide KindOf;
    hide TextOf;
    if Runs.CutsRun(a, b, KindOf) {
      var before, open := Runs.SegmentsMerge(a, b, KindOf);
      var n := Runs.RunLength(b, KindOf);
      var tail := Runs.Segments(b[n..], KindOf);
      Runs.FlatMapAppend(f, before, [Runs.Run(open)]);
      Runs.FlatMapAppend(f, before + [Runs.Run(open + b[..n])], tail);
      Runs.FlatMapAppend(f, before, [Runs.Run(open + b[..n])]);
      var k := |Runs.FlatMap(f, before)|;
      assert Runs.FlatMap(f, [Runs.Run(open)]) == [BundleEntry(h, open)];
      assert Runs.FlatMap(f, [Runs.Run(open + b[..n])]) == [BundleEntry(h, open + b[..n])];
      assert (Bundled(h, a) + Bundled(h, b))[k] == BundleEntry(h, open);
      assert Bundled(h, a + b)[k] == BundleEntry(h, open + b[..n]);
      assert |BundleEntry(h, open).fps| != |BundleEntry(h, open + b[..n]).fps|;
    } else {
      Runs.SegmentsSplit(a, b, KindOf);
      Runs.FlatMapAppend(f, Runs.Segments(a, KindOf), Runs.Segments(b, KindOf));
    }
  }

  /** Entry i of the per-message view is the entry of message i. */
  ghost predicate Aligned(h: Hash, ms: seq<Message>) {
    forall i :: 0 <= i < |PerMessage(h, ms)| ==> i < |ms| && PerMessage(h, ms)[i] == Plain(h, ms[i])
  }

  ghost predicate NoneVisible(ms: seq<Message>) { forall i :: 0 <= i < |ms| ==> !Visible(ms[i]) }

  lemma {:induction false} EntriesVisible(h: Hash, ms: seq<Message>)
    ensures forall i :: 0 <= i < |PerMessage(h, ms)| ==> !Blank(PerMessage(h, ms)[i].raw)
    ensures PerMessage(h, ms) == [] <==> NoneVisible(ms)
  {
    if ms != [] { EntriesVisible(h, ms[1..]); }
  }

  /** The length of the longest prefix of visible messages. */
  function VisiblePrefix(ms: seq<Message>): (n: nat)
    ensures n <= |ms|
  {
    if ms == [] || !Visible(ms[0]) then 0 else 1 + VisiblePrefix(ms[1..])
  }

  lemma {:induction false} VisiblePrefixIs(ms: seq<Message>)
    ensures var n := VisiblePrefix(ms);
      (forall i :: 0 <= i < n ==> Visible(ms[i])) && (n < |ms| ==> !Visible(ms[n]))
  {
    hide Visible;
    if ms != [] && Visible(ms[0]) {
      VisiblePrefixIs(ms[1..]);
      assert forall i :: 0 < i < |ms| ==> ms[i] == ms[1..][i - 1];
    }
  }

  ghost predicate BlanksLast(ms: seq<Message>) {
    forall i, j :: 0 <= i < j < |ms| && Visible(ms[j]) ==> Visible(ms[i])
  }

  lemma {:induction false} BlanksLastIs(ms: seq<Message>, n: nat)
    requires n <= |ms| && (n < |ms| ==> !Visible(ms[n]))
    requires forall i :: 0 <= i < n ==> Visible(ms[i])
    ensures BlanksLast(ms) <==> NoneVisible(ms[n..])
  {
    var rest := ms[n..];
    if BlanksLast(ms) {
      forall j | 0 <= j < |rest| ensures !Visible(rest[j]) { assert rest[j] == ms[n + j] && rest[0] == ms[n]; }
    }
    if NoneVisible(rest) {
      forall i, j | 0 <= i < j < |ms| && Visible(ms[j]) ensures Visible(ms[i]) {
        assert j >= n ==> rest[j - n] == ms[j];
      }
    }
  }

  lemma {:induction false} ViewOfParts(h: Hash, a: seq<Message>, rest: seq<Message>)
    requires forall i :: 0 <= i < |a| ==> Visible(a[i])
    requires rest != [] ==> !Visible(rest[0])
    ensures Aligned(h, a + rest) <==> NoneVisible(rest)
  {
    PerMessageAppend(h, a, rest);
    RunFps(h, a);
    EntriesVisible(h, rest);
    var view := PerMessage(h, a + rest);
    if PerMessage(h, rest) == [] {
      assert view == PerMessage(h, a);
    } else {
      assert view[|a|] == PerMessage(h, rest)[0];
      assert (a + rest)[|a|] == rest[0];
      assert Plain(h, rest[0]).raw != view[|a|].raw;
    }
  }

  /** The proxy indexes the raw array with positions of this view. That is right exactly when every
      blank message comes after all the others. */
  lemma {:induction false} AlignedIffBlanksLast(h: Hash, ms: seq<Message>)
    ensures Aligned(h, ms) <==> BlanksLast(ms)
  {
    hide Visible;
    var n := VisiblePrefix(ms);
    VisiblePrefixIs(ms);
    assert ms == ms[..n] + ms[n..];
    BlanksLastIs(ms, n);
    ViewOfParts(h, ms[..n], ms[n..]);
  }

  // ---- What an entry stands for ----

  /** The messages lo to hi - 1 are a whole tool run of the list. */
  ghost predicate RunAt(ms: seq<Message>, lo: nat, hi: nat) {
    && lo < hi <= |ms| && KindOf(ms[lo]).Call?
    && (forall k :: lo <= k < hi ==> !KindOf(ms[k]).Plain?)
    && (hi < |ms| ==> KindOf(ms[hi]).Plain?)
  }

  /** The entry is that of one message on its own, or of a whole tool run. */
  ghost predicate StandsFor(h: Hash, e: L1, ms: seq<Message>, lo: nat, hi: nat) {
    || (lo < |ms| && hi == lo + 1 && !KindOf(ms[lo]).Call? && Visible(ms[lo]) && e == Plain(h, ms[lo]))
    || (RunAt(ms, lo, hi) && e == BundleEntry(h, ms[lo..hi]))
  }

  lemma {:induction false} RunMoves(ms: seq<Message>, n: nat, lo: nat, hi: nat)
    requires n <= |ms| && RunAt(ms[n..], lo, hi)
    ensures RunAt(ms, lo + n, hi + n) && ms[n..][lo..hi] == ms[lo + n..hi + n]
  {
    hide KindOf;
    assert forall k :: lo + n <= k < hi + n ==> ms[k] == ms[n..][k - n];
  }

  lemma {:induction false} StandsMoves(h: Hash, e: L1, ms: seq<Message>, n: nat, lo: nat, hi: nat)
    requires n <= |ms| && StandsFor(h, e, ms[n..], lo, hi)
    ensures StandsFor(h, e, ms, lo + n, hi + n)
  {
    hide KindOf;
    hide RunAt;
    hide BundleEntry;
    hide Visible;
    if RunAt(ms[n..], lo, hi) { RunMoves(ms, n, lo, hi); }
  }

  /** The entries of the first segment, and what they stand for. */
  lemma {:induction false} HeadStands(h: Hash, ms: seq<Message>) returns (n: nat, head: seq<L1>)
    requires ms != []
    ensures 0 < n <= |ms| && |head| <= 1 && Bundled(h, ms) == head + Bundled(h, ms[n..])
    ensures head != [] ==> StandsFor(h, head[0], ms, 0, n)
    ensures head == [] ==> n == 1 && !Visible(ms[0])
  {
    hide Bundled;
    hide BundleEntry;
    hide TextOf;
    if KindOf(ms[0]).Call? {
      n := Runs.RunLength(ms, KindOf);
      BundledRun(h, ms, n);
      assert ms[..n] == ms[0..n];
      head := [BundleEntry(h, ms[..n])];
    } else {
      n := 1;
      BundledPlain(h, ms);
      head := PlainEntry(h, ms[0]);
    }
  }

  lemma {:induction false} NothingBundled(h: Hash)
    ensures Bundled(h, []) == []
  {}

  /** Every entry of the bundled view stands for one message or one whole tool run. */
  lemma {:induction false} EntryStands(h: Hash, ms: seq<Message>, k: nat) returns (lo: nat, hi: nat)
    requires k < |Bundled(h, ms)|
    ensures lo < hi <= |ms| && StandsFor(h, Bundled(h, ms)[k], ms, lo, hi)
    decreases |ms|
  {
    hide *;
    if ms == [] { NothingBundled(h); }
    var n, head := HeadStands(h, ms);
    if k < |head| {
      lo, hi := 0, n;
    } else {
      lo, hi := EntryStands(h, ms[n..], k - |head|);
      StandsMoves(h, Bundled(h, ms)[k], ms, n, lo, hi);
      lo, hi := lo + n, hi + n;
    }
  }

  /** Every visible message has its entry: its own, or that of its tool run. */
  lemma {:induction false} EntryOfMessage(h: Hash, ms: seq<Message>, j: nat) returns (k: nat, lo: nat, hi: nat)
    requires j < |ms| && Visible(ms[j])
    ensures k < |Bundled(h, ms)| && lo <= j < hi && StandsFor(h, Bundled(h, ms)[k], ms, lo, hi)
    decreases |ms|
  {
    hide *;
    var n, head := HeadStands(h, ms);
    if j < n {
      k, lo, hi := 0, 0, n;
    } else {
      k, lo, hi := EntryOfMessage(h, ms[n..], j - n);
      StandsMoves(h, Bundled(h, ms[n..])[k], ms, n, lo, hi);
      k, lo, hi := k + |head|, lo + n, hi + n;
    }
  }

  /** A fingerprint of an entry is that of one of the messages it stands for. */
  lemma {:induction false} EntryFpIs(h: Hash, e: L1, ms: seq<Message>, lo: nat, hi: nat, fp: string) returns (j: nat)
    requires lo < hi <= |ms| && StandsFor(h, e, ms, lo, hi) && fp in e.fps
    ensures lo <= j < hi && Fp(h, ms[j]) == fp
  {
    hide KindOf;
    hide Fp;
    hide RunPreview;
    hide RunRaw;
    if RunAt(ms, lo, hi) && e == BundleEntry(h, ms[lo..hi]) {
      var i :| 0 <= i < |e.fps| && e.fps[i] == fp;
      j := lo + i;
    } else {
      PlainFp(h, ms[lo]);
      j := lo;
    }
  }

  lemma {:induction false} PlainFp(h: Hash, m: Message)
    ensures Plain(h, m).fps == [Fp(h, m)]
  {}

  // ---- What a tool run's row leaves out ----

  /** Neither a call nor a result. */
  predicate Prose(b: Block) { !b.ToolUse? && !b.ToolResult? }

  lemma {:induction false} AroundBlock(a: seq<Block>, t: Block, b: seq<Block>)
    ensures EventsOf(a + [t] + b) == EventsOf(a) + BlockEvents(t) + EventsOf(b)
  {
    EventsAppend(a + [t], b);
    EventsSnoc(a, t);
  }

  lemma {:induction false} SameEvents(run: seq<Message>, i: nat, m: Message)
    requires i < |run| && EventsOf(BlocksOf(m)) == EventsOf(BlocksOf(run[i]))
    ensures RunEvents(run[i := m]) == RunEvents(run)
  {
    hide EventsOf;
    var init := run[..|run| - 1];
    if i < |init| {
      SameEvents(init, i, m);
      assert run[i := m][..|run| - 1] == init[i := m];
    } else {
      assert run[i := m][..|run| - 1] == init;
    }
  }

  /** What a tool run's row holds is decided by its calls and results: any other block, at any place of any
      of its messages, can be taken out without a trace. */
  lemma {:induction false} ProseBesideCallIsDropped(run: seq<Message>, i: nat, a: seq<Block>, t: Block, b: seq<Block>)
    requires i < |run| && run[i].content == Blocks(a + [t] + b) && Prose(t)
    ensures var less := run[i := run[i].(content := Blocks(a + b))];
      RunEvents(less) == RunEvents(run) && RunRaw(less) == RunRaw(run) && RunPreview(less) == RunPreview(run)
  {
    AroundBlock(a, t, b);
    EventsAppend(a, b);
    assert EventsOf(a) + [] == EventsOf(a);
    hide EventsOf;
    SameEvents(run, i, run[i].(content := Blocks(a + b)));
    hide RunEvents;
  }

  lemma {:induction false} JoinInsert(sep: string, x: seq<string>, p: string, y: seq<string>)
    requires p != ""
    ensures |Join(sep, x + [p] + y)| > |Join(sep, x + y)|
  {
    if x == [] {
      assert x + [p] + y == [p] + y && x + y == y && ([p] + y)[1..] == y;
    } else {
      assert (x + [p] + y)[1..] == x[1..] + [p] + y && (x + y)[1..] == x[1..] + y;
      JoinInsert(sep, x[1..], p, y);
    }
  }

  lemma {:induction false} PiecesAround(a: seq<Block>, t: Block, b: seq<Block>)
    ensures Pieces(a + [t] + b) == Pieces(a) + (if Piece(t) == "" then [] else [Piece(t)]) + Pieces(b)
    ensures Pieces(a + b) == Pieces(a) + Pieces(b)
  {
    PiecesAppend(a + [t], b);
    PiecesSnoc(a, t);
    PiecesAppend(a, b);
    hide Piece;
    assert Pieces(a) + [] == Pieces(a);
  }

  /** So text is lost, in that the message says it and the row of its run does not, exactly when the block
      leaves text: for a text block, when something remains of it without reminders and outer blanks. */
  lemma {:induction false} ProseLostIff(run: seq<Message>, i: nat, a: seq<Block>, t: Block, b: seq<Block>)
    requires i < |run| && run[i].content == Blocks(a + [t] + b) && Prose(t)
    ensures var m := run[i].(content := Blocks(a + b));
      (RunRaw(run[i := m]) == RunRaw(run) && TextOf(m.content) != TextOf(run[i].content))
        <==> (t.TextBlock? && StripBoilerplate(t.text) != "")
  {
    hide *;
    ProseBesideCallIsDropped(run, i, a, t, b);
    PiecesAround(a, t, b);
    BlocksText(a + [t] + b);
    BlocksText(a + b);
    ProsePiece(t);
    if Piece(t) != "" {
      JoinInsert("\n", Pieces(a), Piece(t), Pieces(b));
    } else {
      assert Pieces(a) + [] + Pieces(b) == Pieces(a) + Pieces(b);
    }
  }

  lemma {:induction false} BlocksText(bs: seq<Block>)
    ensures TextOf(Blocks(bs)) == Join("\n", Pieces(bs))
  {}

  lemma {:induction false} ProsePiece(t: Block)
    requires Prose(t)
    ensures Piece(t) == if t.TextBlock? then StripBoilerplate(t.text) else ""
  {
    hide StripBoilerplate;
  }

  lemma {:induction false} JoinReplace(sep: string, x: seq<string>, p: string, q: string, y: seq<string>)
    ensures Join(sep, x + [p] + y) == Join(sep, x + [q] + y) <==> p == q
  {
    var s, t := Join(sep, x + [p] + y), Join(sep, x + [q] + y);
    if x == [] {
      assert x + [p] + y == [p] + y && x + [q] + y == [q] + y && ([p] + y)[1..] == y && ([q] + y)[1..] == y;
      if y != [] {
        var rest := sep + Join(sep, y);
        assert s == p + rest && t == q + rest;
        assert |p| == |s| - |rest| && |q| == |t| - |rest| && s[..|p|] == p && t[..|q|] == q;
      }
    } else {
      assert (x + [p] + y)[1..] == x[1..] + [p] + y && (x + [q] + y)[1..] == x[1..] + [q] + y;
      JoinReplace(sep, x[1..], p, q, y);
      var u, v := Join(sep, x[1..] + [p] + y), Join(sep, x[1..] + [q] + y);
      assert s == x[0] + sep + u && t == x[0] + sep + v;
      assert s[|x[0]| + |sep|..] == u && t[|x[0]| + |sep|..] == v;
    }
  }

  /** The row keeps 300 characters of a call's input. Of two inputs that agree on these, the message tells
      which it was exactly when they differ within 400, and the row never does. */
  lemma {:induction false} LongInputIsCut(run: seq<Message>, i: nat, a: seq<Block>, b: seq<Block>,
                                          id: string, name: string, input: string, other: string)
    requires i < |run| && run[i].content == Blocks(a + [ToolUse(id, name, input)] + b)
    requires Prefix(input, 300) == Prefix(other, 300)
    ensures var m := run[i].(content := Blocks(a + [ToolUse(id, name, other)] + b));
      && RunRaw(run[i := m]) == RunRaw(run)
      && (TextOf(m.content) != TextOf(run[i].content) <==> Prefix(input, 400) != Prefix(other, 400))
  {
    var t, u := ToolUse(id, name, input), ToolUse(id, name, other);
    var m := run[i].(content := Blocks(a + [u] + b));
    AroundBlock(a, t, b);
    AroundBlock(a, u, b);
    hide EventsOf;
    SameEvents(run, i, m);
    hide RunEvents;
    PiecesAround(a, t, b);
    PiecesAround(a, u, b);
    ToolPieceVisible(t);
    ToolPieceVisible(u);
    CallPieces(id, name, input, other);
    hide Piece;
    hide RunRaw;
    JoinReplace("\n", Pieces(a), Piece(t), Piece(u), Pieces(b));
  }

  lemma {:induction false} CallPieces(id: string, name: string, input: string, other: string)
    ensures Piece(ToolUse(id, name, input)) == Piece(ToolUse(id, name, other)) <==>
      Prefix(input, 400) == Prefix(other, 400)
  {
    hide Prefix;
    var head, x, y := "[tool_use:" + name + " ", Prefix(input, 400), Prefix(other, 400);
    var s, t := head + x + "]", head + y + "]";
    assert s[|head|..|s| - 1] == x && t[|head|..|t| - 1] == y;
    assert Piece(ToolUse(id, name, input)) == s && Piece(ToolUse(id, name, other)) == t;
  }
}
