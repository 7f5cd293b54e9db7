// Retrieval injection: a reminder block in front of the last user message, put there in place.
module Injection {
  import opened Text
  import Runs
  import opened Messages

  const HEADER :=
    "\nPersistent memory context" + " injected by CoMeT-CC " + "(cross-session + " + "session brief):\n\n"

  /** The block around a body; no block around an empty one. */
  function BlockOf(body: string): string {
    if body == "" then "" else OPEN_TAG + HEADER + body + "\n" + CLOSE_TAG
  }

  /** The block as it reads. */
  lemma {:induction false} BlockReads(body: string)
    requires body != ""
    ensures BlockOf(body)
      == "<system-reminder>"
         + ("\nPersistent memory context" + " injected by CoMeT-CC " + "(cross-session + " + "session brief):\n\n")
         + body + "\n" + "</system-reminder>"
  {}

  function WithBlock(m: Message, block: string): Message {
    match m.content
    case Str(s) => m.(content := Blocks([TextBlock(block), TextBlock(s)]))
    case Blocks(bs) => m.(content := Blocks([TextBlock(block)] + bs))
    case NoContent => m
  }

  /** Position of the last user message, or the length of the list. */
  function LastUser(ms: seq<Message>): (k: nat)
    ensures k <= |ms|
    ensures k < |ms| ==> ms[k].role == "user" && forall j :: k < j < |ms| ==> ms[j].role != "user"
    ensures k == |ms| ==> forall j :: 0 <= j < |ms| ==> ms[j].role != "user"
  {
    if ms == [] then 0
    else if ms[|ms| - 1].role == "user" then |ms| - 1
    else
      var k := LastUser(ms[..|ms| - 1]);
      if k == |ms| - 1 then |ms| else k
  }

  function Injected(ms: seq<Message>, block: string): seq<Message> {
    var k := LastUser(ms);
    if k < |ms| then ms[k := WithBlock(ms[k], block)] else ms
  }

  /** The backward loop; it changes the one message in place. */
  method InjectIntoLastUser(msgs: array<Message>, block: string)
    modifies msgs
    ensures msgs[..] == Injected(old(msgs[..]), block)
  {
    ghost var was := msgs[..];
    hide WithBlock;
    var i := msgs.Length - 1;
    while i >= 0
      invariant -1 <= i < msgs.Length && msgs[..] == was
      invariant forall j :: i < j < msgs.Length ==> was[j].role != "user"
    {
      if msgs[i].role == "user" {
        assert LastUser(was) == i;
        match msgs[i].content {
          case Str(s) => msgs[i] := msgs[i].(content := Blocks([TextBlock(block), TextBlock(s)]));
          case Blocks(bs) => msgs[i] := msgs[i].(content := Blocks([TextBlock(block)] + bs));
          case NoContent =>
        }
        WithBlockIs(was[i], block);
        assert msgs[..] == was[i := msgs[i]];
        return;
      }
      i := i - 1;
    }
  }

  lemma {:induction false} WithBlockIs(m: Message, block: string)
    ensures WithBlock(m, block) == match m.content
      case Str(s) => m.(content := Blocks([TextBlock(block), TextBlock(s)]))
      case Blocks(bs) => m.(content := Blocks([TextBlock(block)] + bs))
      case NoContent => m
  {}

  // ---- The block vanishes from the text ----

  lemma {:induction false} HeaderHasNoTag()
    ensures '<' !in HEADER
  {
    assert '<' !in "\nPersistent memory context" && '<' !in " injected by CoMeT-CC ";
    assert '<' !in "(cross-session + " && '<' !in "session brief):\n\n";
  }

  lemma {:induction false} NoTagInHeader(body: string)
    requires forall i :: !At(body, CLOSE_TAG, i)
    ensures forall i :: !At(HEADER + body, CLOSE_TAG, i)
  {
    HeaderHasNoTag();
    var s := HEADER + body;
    forall i ensures !At(s, CLOSE_TAG, i) {
      if At(s, CLOSE_TAG, i) { TagInTail(HEADER, body, i); }
    }
  }

  lemma {:induction false} TagInTail(head: string, body: string, i: int)
    requires '<' !in head && At(head + body, CLOSE_TAG, i)
    ensures At(body, CLOSE_TAG, i - |head|)
  {
    var s := head + body;
    assert s[i..i + |CLOSE_TAG|][0] == CLOSE_TAG[0] == '<';
    assert forall j :: 0 <= j < |head| ==> s[j] == head[j];
    assert s[i..i + |CLOSE_TAG|] == body[i - |head|..i - |head| + |CLOSE_TAG|];
  }

  /** A block whose body holds no closing tag leaves no text. */
  lemma {:induction false} BlockLeavesNothing(body: string)
    requires forall i :: !At(body, CLOSE_TAG, i)
    ensures StripBoilerplate(BlockOf(body)) == ""
  {
    if body == "" {
      assert BlockOf(body) == "";
      assert RemoveReminders("") == "";
    } else {
      NoTagInHeader(body);
      hide At;
      hide StripBoilerplate;
      BlockVanishes(HEADER + body);
      Same(body);
    }
  }

  lemma {:induction false} Same(body: string)
    requires body != ""
    ensures BlockOf(body) == OPEN_TAG + (HEADER + body) + "\n" + CLOSE_TAG
  {
    Runs.Associative(OPEN_TAG, HEADER, body);
  }

  /** The text of a message with content survives the injection exactly when the block leaves no text. */
  lemma {:induction false} TextKeptIff(m: Message, block: string)
    requires !m.content.NoContent?
    ensures TextOf(WithBlock(m, block).content) == TextOf(m.content) <==> StripBoilerplate(block) == ""
  {
    var bs := if m.content.Str? then [TextBlock(m.content.text)] else m.content.blocks;
    var p, rest := StripBoilerplate(block), Pieces(bs);
    hide StripBoilerplate;
    assert WithBlock(m, block).content == Blocks([TextBlock(block)] + bs);
    assert ([TextBlock(block)] + bs)[1..] == bs;
    assert Pieces([TextBlock(block)] + bs) == (if p == "" then [] else [p]) + rest;
    if m.content.Str? { OnePiece(m.content.text); }
    if p != "" { LongerJoin(p, rest); }
    assert [] + rest == rest;
  }

  lemma {:induction false} OnePiece(s: string)
    ensures Join("\n", Pieces([TextBlock(s)])) == StripBoilerplate(s)
  {
    assert Pieces([TextBlock(s)][1..]) == [];
    hide StripBoilerplate;
  }

  lemma {:induction false} LongerJoin(p: string, rest: seq<string>)
    requires p != ""
    ensures |Join("\n", [p] + rest)| > |Join("\n", rest)|
  {
    assert ([p] + rest)[1..] == rest;
  }

  // ---- The views do not see it ----

  /** Two messages that no view of the proxy can tell apart. */
  ghost predicate Alike(m: Message, m': Message) {
    m.role == m'.role && TextOf(m.content) == TextOf(m'.content)
    && KindOf(m) == KindOf(m') && EventsOf(BlocksOf(m)) == EventsOf(BlocksOf(m'))
  }

  ghost predicate AllAlike(a: seq<Message>, b: seq<Message>) {
    |a| == |b| && forall i :: 0 <= i < |a| ==> Alike(a[i], b[i])
  }

  lemma {:induction false} AlikePerMessage(h: Hash, a: seq<Message>, b: seq<Message>)
    requires AllAlike(a, b)
    ensures PerMessage(h, a) == PerMessage(h, b)
  {
    hide TextOf;
    hide KindOf;
    hide EventsOf;
    if a != [] {
      assert Alike(a[0], b[0]);
      AlikePerMessage(h, a[1..], b[1..]);
    }
  }

  lemma {:induction false} AlikeRun(h: Hash, a: seq<Message>, b: seq<Message>)
    requires AllAlike(a, b)
    ensures RunEvents(a) == RunEvents(b) && Fps(h, a) == Fps(h, b)
  {
    hide TextOf;
    hide KindOf;
    hide EventsOf;
    if a != [] {
      assert Alike(a[|a| - 1], b[|b| - 1]);
      AlikeRun(h, a[..|a| - 1], b[..|b| - 1]);
    }
    assert Fps(h, a) == Fps(h, b) by {
      forall i | 0 <= i < |a| ensures Fp(h, a[i]) == Fp(h, b[i]) { assert Alike(a[i], b[i]); }
    }
  }

  lemma {:induction false} AlikeLength(a: seq<Message>, b: seq<Message>)
    requires AllAlike(a, b)
    ensures Runs.RunLength(a, KindOf) == Runs.RunLength(b, KindOf)
  {
    hide TextOf;
    hide KindOf;
    hide EventsOf;
    if a != [] {
      assert Alike(a[0], b[0]);
      AlikeLength(a[1..], b[1..]);
    }
  }

  /** The entries of the first segment of a list. */
  function HeadEntries(h: Hash, a: seq<Message>): seq<L1>
    requires a != []
  {
    if KindOf(a[0]).Call? then [BundleEntry(h, a[..Runs.HeadLength(a, KindOf)])] else PlainEntry(h, a[0])
  }

  lemma {:induction false} BundledHead(h: Hash, a: seq<Message>)
    requires a != []
    ensures Bundled(h, a) == HeadEntries(h, a) + Bundled(h, a[Runs.HeadLength(a, KindOf)..])
  {
    hide Bundled;
    hide BundleEntry;
    hide PlainEntry;
    hide KindOf;
    if KindOf(a[0]).Call? { BundledRun(h, a, Runs.HeadLength(a, KindOf)); } else { BundledPlain(h, a); }
  }

  lemma {:induction false} AlikeHead(h: Hash, a: seq<Message>, b: seq<Message>)
    requires a != [] && AllAlike(a, b)
    ensures Runs.HeadLength(a, KindOf) == Runs.HeadLength(b, KindOf) && HeadEntries(h, a) == HeadEntries(h, b)
  {
    assert Alike(a[0], b[0]);
    AlikeLength(a, b);
    hide KindOf;
    hide EventsOf;
    hide TextOf;
    var n := Runs.HeadLength(a, KindOf);
    AlikeRun(h, a[..n], b[..n]);
    hide RunEvents;
    hide Fps;
    hide Alike;
  }

  lemma {:induction false} AlikeRest(a: seq<Message>, b: seq<Message>, n: nat)
    requires AllAlike(a, b) && n <= |a|
    ensures AllAlike(a[n..], b[n..])
  {
    hide Alike;
  }

  lemma {:induction false} AlikeBundled(h: Hash, a: seq<Message>, b: seq<Message>)
    requires AllAlike(a, b)
    ensures Bundled(h, a) == Bundled(h, b)
    decreases |a|
  {
    assert |a| == |b|;
    if a == [] {
      assert b == [];
    } else {
      hide *;
      BundledHead(h, a);
      BundledHead(h, b);
      AlikeHead(h, a, b);
      var n := Runs.HeadLength(a, KindOf);
      AlikeRest(a, b, n);
      AlikeBundled(h, a[n..], b[n..]);
    }
  }

  lemma {:induction false} TextHasNoEvents(text: string, bs: seq<Block>)
    ensures EventsOf([TextBlock(text)] + bs) == EventsOf(bs)
  {
    EventsAppend([TextBlock(text)], bs);
    assert [TextBlock(text)][..0] == [];
    assert EventsOf([TextBlock(text)]) == EventsOf([]) + BlockEvents(TextBlock(text));
  }

  lemma {:induction false} TextHasNoTools(m: Message, block: string)
    ensures var m' := WithBlock(m, block);
      Uses(m') == Uses(m) && Answers(m') == Answers(m) && EventsOf(BlocksOf(m')) == EventsOf(BlocksOf(m))
  {
    var m' := WithBlock(m, block);
    if m.content.Blocks? {
      var bs := m.content.blocks;
      TextHasNoEvents(block, bs);
      assert forall i :: 0 <= i < |bs| ==> m'.content.blocks[i + 1] == bs[i];
    } else if m.content.Str? {
      TextHasNoEvents(block, [TextBlock(m.content.text)]);
      TextHasNoEvents(m.content.text, []);
      assert [TextBlock(m.content.text)] + [] == [TextBlock(m.content.text)];
      assert [TextBlock(block)] + [TextBlock(m.content.text)] == m'.content.blocks;
    }
  }

  lemma {:induction false} AlikeItself(m: Message)
    ensures Alike(m, m)
  {}

  lemma {:induction false} AlikeWithBlock(m: Message, block: string)
    requires StripBoilerplate(block) == ""
    ensures Alike(WithBlock(m, block), m)
  {
    hide StripBoilerplate;
    hide TextOf;
    hide EventsOf;
    if !m.content.NoContent? { TextKeptIff(m, block); }
    TextHasNoTools(m, block);
  }

  /** The injection cannot be seen: there is no user message, or the last one has no content to put the
      block in front of, or the block leaves no text. */
  predicate Unseen(ms: seq<Message>, block: string) {
    var k := LastUser(ms);
    k == |ms| || ms[k].content.NoContent? || StripBoilerplate(block) == ""
  }

  lemma {:induction false} UnseenAlike(ms: seq<Message>, block: string)
    requires Unseen(ms, block)
    ensures AllAlike(Injected(ms, block), ms)
  {
    hide StripBoilerplate;
    hide WithBlock;
    hide Alike;
    var k, after := LastUser(ms), Injected(ms, block);
    forall i | 0 <= i < |ms| ensures Alike(after[i], ms[i]) {
      AlikeItself(ms[i]);
      if i == k {
        if ms[k].content.NoContent? { NothingToInject(ms[k], block); } else { AlikeWithBlock(ms[k], block); }
      }
    }
  }

  lemma {:induction false} NothingToInject(m: Message, block: string)
    requires m.content.NoContent?
    ensures WithBlock(m, block) == m
  {}

  lemma {:induction false} LStripStart(s: string)
    ensures LStrip(s) == "" || !IsSpace(LStrip(s)[0])
  {
    if s != "" && IsSpace(s[0]) { LStripStart(s[1..]); }
  }

  lemma {:induction false} RStripStart(s: string)
    requires s != "" && !IsSpace(s[0])
    ensures RStrip(s) != "" && RStrip(s)[0] == s[0]
  {
    if IsSpace(s[|s| - 1]) { RStripStart(s[..|s| - 1]); }
  }

  /** What stripping leaves is empty or not blank. */
  lemma {:induction false} StrippedNotBlank(s: string)
    requires Strip(s) != ""
    ensures !Blank(Strip(s))
  {
    LStripStart(s);
    assert LStrip(s) != "" by { assert RStrip("") == ""; }
    RStripStart(LStrip(s));
  }

  /** A block that leaves text makes its message visible. */
  lemma {:induction false} BlockVisible(m: Message, block: string)
    requires !m.content.NoContent? && StripBoilerplate(block) != ""
    ensures Visible(WithBlock(m, block))
  {
    StrippedNotBlank(RemoveReminders(block));
    hide StripBoilerplate;
    var bs := WithBlock(m, block).content.blocks;
    assert bs[0] == TextBlock(block) && Pieces(bs) == [StripBoilerplate(block)] + Pieces(bs[1..]);
    assert Pieces(bs)[0] == StripBoilerplate(block) && !Blank(Pieces(bs)[0]);
    JoinNotBlank("\n", Pieces(bs), 0);
  }

  /** So the entry of the message that it goes into changes. */
  lemma {:induction false} SeenEntry(h: Hash, m: Message, block: string)
    requires !m.content.NoContent? && StripBoilerplate(block) != ""
    ensures PlainEntry(h, WithBlock(m, block)) != PlainEntry(h, m)
  {
    var m' := WithBlock(m, block);
    BlockVisible(m, block);
    TextKeptIff(m, block);
    hide StripBoilerplate;
    hide TextOf;
    hide WithBlock;
    assert PlainEntry(h, m') == [Plain(h, m')];
    if Visible(m) { assert Plain(h, m').raw != Plain(h, m).raw; }
  }

  lemma {:induction false} AroundOne(h: Hash, ms: seq<Message>, k: nat)
    requires k < |ms|
    ensures PerMessage(h, ms) == PerMessage(h, ms[..k]) + PlainEntry(h, ms[k]) + PerMessage(h, ms[k + 1..])
  {
    hide PlainEntry;
    assert ms == ms[..k] + ([ms[k]] + ms[k + 1..]);
    PerMessageAppend(h, ms[..k], [ms[k]] + ms[k + 1..]);
    assert ([ms[k]] + ms[k + 1..])[1..] == ms[k + 1..];
    Runs.Associative(PerMessage(h, ms[..k]), PlainEntry(h, ms[k]), PerMessage(h, ms[k + 1..]));
  }

  lemma {:induction false} MiddleSame<T>(a: seq<T>, x: seq<T>, y: seq<T>, c: seq<T>)
    requires a + x + c == a + y + c
    ensures x == y
  {
    var s, t := a + x + c, a + y + c;
    assert |x| == |y|;
    assert s[|a|..|a| + |x|] == x && t[|a|..|a| + |y|] == y;
  }

  lemma {:induction false} SeenView(h: Hash, ms: seq<Message>, block: string)
    requires !Unseen(ms, block)
    ensures PerMessage(h, Injected(ms, block)) != PerMessage(h, ms)
  {
    hide StripBoilerplate;
    hide WithBlock;
    hide PlainEntry;
    var k, after := LastUser(ms), Injected(ms, block);
    SeenEntry(h, ms[k], block);
    AroundOne(h, ms, k);
    AroundOne(h, after, k);
    assert after[..k] == ms[..k] && after[k + 1..] == ms[k + 1..];
    if PerMessage(h, after) == PerMessage(h, ms) {
      MiddleSame(PerMessage(h, ms[..k]), PlainEntry(h, after[k]), PlainEntry(h, ms[k]), PerMessage(h, ms[k + 1..]));
    }
  }

  /** For every list and every block, the injection leaves the per-message view as it was exactly when it
      cannot be seen; and then the bundled view too: same roles, texts, groups and fingerprints. */
  lemma {:induction false} InvisibleIffUnseen(h: Hash, ms: seq<Message>, block: string)
    ensures PerMessage(h, Injected(ms, block)) == PerMessage(h, ms) <==> Unseen(ms, block)
    ensures Unseen(ms, block) ==> Bundled(h, Injected(ms, block)) == Bundled(h, ms)
  {
    if Unseen(ms, block) {
      UnseenAlike(ms, block);
      hide *;
      AlikePerMessage(h, Injected(ms, block), ms);
      AlikeBundled(h, Injected(ms, block), ms);
    } else {
      SeenView(h, ms, block);
    }
  }

  /** What follows the first closing tag of a body, up to the end of the block. */
  function AfterTag(body: string): string {
    match Find(body, CLOSE_TAG, 0)
    case None => ""
    case Some(j) => body[j + |CLOSE_TAG|..] + "\n" + CLOSE_TAG
  }

  /** A block leaves no text exactly when its body holds no closing tag, or what follows the first one, with
      the block's own closing tag, strips to nothing. */
  lemma {:induction false} BlockVanishesIff(body: string)
    ensures StripBoilerplate(BlockOf(body)) == "" <==>
      Find(body, CLOSE_TAG, 0).None? || StripBoilerplate(AfterTag(body)) == ""
  {
    hide StripBoilerplate;
    if Find(body, CLOSE_TAG, 0).None? {
      BlockLeavesNothing(body);
    } else {
      FirstTagEnds(body, Find(body, CLOSE_TAG, 0).value);
    }
  }

  lemma {:induction false} FirstTagEnds(body: string, j: nat)
    requires Find(body, CLOSE_TAG, 0) == Some(j)
    ensures StripBoilerplate(BlockOf(body)) == StripBoilerplate(AfterTag(body))
  {
    hide *;
    var s, k := BlockOf(body), |OPEN_TAG| + |HEADER| + j;
    NoEarlierTags(body, j);
    TagInBlock(body, j);
    WholeMatch(s, k);
    MatchIs(s, k);
    FirstRemoved(s, k + |CLOSE_TAG|);
  }

  lemma {:induction false} NoEarlierTags(body: string, j: nat)
    requires Find(body, CLOSE_TAG, 0) == Some(j)
    ensures forall i :: |OPEN_TAG| <= i < |OPEN_TAG| + |HEADER| + j ==> !At(BlockOf(body), CLOSE_TAG, i)
  {
    hide *;
    forall i | |OPEN_TAG| <= i < |OPEN_TAG| + |HEADER| + j ensures !At(BlockOf(body), CLOSE_TAG, i) {
      NoEarlierTag(body, j, i);
    }
  }

  lemma {:induction false} WholeMatch(s: string, k: nat)
    requires |OPEN_TAG| <= k && At(s, OPEN_TAG, 0) && At(s, CLOSE_TAG, k)
    ensures Matches(s, 0, k + |CLOSE_TAG|)
  {}

  lemma {:induction false} FirstRemoved(s: string, e: nat)
    requires FirstMatch(s) == Some((0, e))
    ensures e <= |s| && StripBoilerplate(s) == StripBoilerplate(s[e..])
  {
    hide Strip;
    assert RemoveReminders(s) == s[..0] + RemoveReminders(s[e..]);
    assert s[..0] + RemoveReminders(s[e..]) == RemoveReminders(s[e..]);
  }

  /** Where the parts of a block lie. */
  lemma {:induction false} BlockParts(body: string)
    requires body != ""
    ensures var s, off := BlockOf(body), |OPEN_TAG| + |HEADER|;
      && |s| == off + |body| + 1 + |CLOSE_TAG|
      && At(s, OPEN_TAG, 0)
      && (forall i :: 0 <= i < |HEADER| ==> s[|OPEN_TAG| + i] == HEADER[i])
      && (forall i :: 0 <= i < |body| ==> s[off + i] == body[i])
      && (forall i :: 0 <= i <= |body| ==> s[off + i..] == body[i..] + "\n" + CLOSE_TAG)
  {
    var s, off := BlockOf(body), |OPEN_TAG| + |HEADER|;
    assert s[..|OPEN_TAG|] == OPEN_TAG;
    forall i | 0 <= i <= |body| ensures s[off + i..] == body[i..] + "\n" + CLOSE_TAG {
      assert s == OPEN_TAG + HEADER + body + "\n" + CLOSE_TAG;
    }
  }

  lemma {:induction false} NoEarlierTag(body: string, j: nat, i: nat)
    requires Find(body, CLOSE_TAG, 0) == Some(j) && |OPEN_TAG| <= i < |OPEN_TAG| + |HEADER| + j
    ensures !At(BlockOf(body), CLOSE_TAG, i)
  {
    var s, off := BlockOf(body), |OPEN_TAG| + |HEADER|;
    BlockParts(body);
    HeaderHasNoTag();
    hide BlockOf;
    assert forall k :: |OPEN_TAG| <= k < off ==> s[k] == HEADER[k - |OPEN_TAG|];
    if At(s, CLOSE_TAG, i) {
      CloseStarts(s, i);
      if off <= i { SameTag(s, body, off, i - off); }
    }
  }

  lemma {:induction false} SameTag(s: string, body: string, off: nat, i: nat)
    requires off + |body| <= |s| && i + |CLOSE_TAG| <= |body| && At(s, CLOSE_TAG, off + i)
    requires forall k :: 0 <= k < |body| ==> s[off + k] == body[k]
    ensures At(body, CLOSE_TAG, i)
  {
    assert s[off + i..off + i + |CLOSE_TAG|] == body[i..i + |CLOSE_TAG|];
  }

  lemma {:induction false} TagInBlock(body: string, j: nat)
    requires Find(body, CLOSE_TAG, 0) == Some(j)
    ensures var s, k := BlockOf(body), |OPEN_TAG| + |HEADER| + j;
      At(s, OPEN_TAG, 0) && At(s, CLOSE_TAG, k) && s[k + |CLOSE_TAG|..] == AfterTag(body)
  {
    var s, k := BlockOf(body), |OPEN_TAG| + |HEADER| + j;
    assert At(body, CLOSE_TAG, j);
    BlockParts(body);
    hide BlockOf;
    hide Find;
    TagMoves(s, body, |OPEN_TAG| + |HEADER|, j);
    assert s[|OPEN_TAG| + |HEADER| + (j + |CLOSE_TAG|)..] == body[j + |CLOSE_TAG|..] + "\n" + CLOSE_TAG;
  }

  lemma {:induction false} TagMoves(s: string, body: string, off: nat, j: nat)
    requires off + |body| <= |s| && At(body, CLOSE_TAG, j)
    requires forall k :: 0 <= k < |body| ==> s[off + k] == body[k]
    ensures At(s, CLOSE_TAG, off + j)
  {
    assert s[off + j..off + j + |CLOSE_TAG|] == body[j..j + |CLOSE_TAG|];
  }

  lemma {:induction false} MatchIs(s: string, k: nat)
    requires |OPEN_TAG| <= k && Matches(s, 0, k + |CLOSE_TAG|)
    requires forall j :: |OPEN_TAG| <= j < k ==> !At(s, CLOSE_TAG, j)
    ensures FirstMatch(s) == Some((0, k + |CLOSE_TAG|))
  {
    hide At;
  }

  lemma {:induction false} CloseStarts(s: string, i: int)
    requires At(s, CLOSE_TAG, i)
    ensures s[i] == '<'
  {
    assert s[i..i + |CLOSE_TAG|][0] == s[i];
  }

  /** The views of a request do not change when the body holds no closing tag. */
  lemma {:induction false} InjectionInvisible(h: Hash, ms: seq<Message>, body: string)
    requires forall i :: !At(body, CLOSE_TAG, i)
    ensures var after := Injected(ms, BlockOf(body));
      PerMessage(h, after) == PerMessage(h, ms) && Bundled(h, after) == Bundled(h, ms)
  {
    BlockLeavesNothing(body);
    hide StripBoilerplate;
    hide BlockOf;
    InvisibleIffUnseen(h, ms, BlockOf(body));
  }

  /** A closing tag with no opening tag after it leaves text: at least the block's own closing tag. */
  lemma {:induction false} ClosingTagShows(body: string, tail: string)
    requires Find(body, CLOSE_TAG, 0).Some? && tail == body[Find(body, CLOSE_TAG, 0).value + |CLOSE_TAG|..]
    requires forall i :: !At(tail, OPEN_TAG, i)
    ensures StripBoilerplate(BlockOf(body)) != ""
  {
    var rest := AfterTag(body);
    BlockVanishesIff(body);
    forall i: nat, e: nat ensures !Matches(rest, i, e) { NoOpenTag(tail, i); }
    assert RemoveReminders(rest) == rest;
    assert rest[|rest| - 1] == '>';
    StripEmpty(rest);
  }

  lemma {:induction false} NoOpenTag(tail: string, i: nat)
    requires forall k :: !At(tail, OPEN_TAG, k)
    ensures !At(tail + "\n" + CLOSE_TAG, OPEN_TAG, i)
  {
    var s := tail + "\n" + CLOSE_TAG;
    assert |s| == |tail| + 19 && |OPEN_TAG| == 17;
    assert s[|tail|] == '\n' && s[|tail| + 1] == '<' && s[|tail| + 2] == '/';
    assert !At(tail, OPEN_TAG, i);
    if At(s, OPEN_TAG, i) {
      OpenChars(s, i);
      if i + |OPEN_TAG| <= |tail| { TagInTailOnly(s, tail, i); }
    }
  }

  lemma {:induction false} TagInTailOnly(s: string, tail: string, i: nat)
    requires tail <= s && i + |OPEN_TAG| <= |tail| && At(s, OPEN_TAG, i)
    ensures At(tail, OPEN_TAG, i)
  {
    assert s[i..i + |OPEN_TAG|] == tail[i..i + |OPEN_TAG|];
  }

  lemma {:induction false} OpenChars(s: string, i: nat)
    requires At(s, OPEN_TAG, i)
    ensures s[i] == '<' && s[i + 1] == 's'
    ensures forall k :: i <= k < i + |OPEN_TAG| ==> s[k] != '\n'
  {
    var t := s[i..i + |OPEN_TAG|];
    assert forall k :: i <= k < i + |OPEN_TAG| ==> s[k] == t[k - i];
  }

  lemma {:induction false} EmptyBlockVanishes()
    ensures StripBoilerplate(OPEN_TAG + "\n" + CLOSE_TAG) == ""
  {
    assert forall i :: !At("", CLOSE_TAG, i);
    BlockVanishes("");
    hide StripBoilerplate;
    assert OPEN_TAG + "" + "\n" + CLOSE_TAG == OPEN_TAG + "\n" + CLOSE_TAG;
  }

  /** But a closing tag alone does not settle it: an opening tag after it is closed by the block's own. */
  lemma {:induction false} ReopenedTagVanishes()
    ensures At(CLOSE_TAG + OPEN_TAG, CLOSE_TAG, 0) && StripBoilerplate(BlockOf(CLOSE_TAG + OPEN_TAG)) == ""
  {
    var body := CLOSE_TAG + OPEN_TAG;
    assert body[0..|CLOSE_TAG|] == CLOSE_TAG && body[|CLOSE_TAG|..] == OPEN_TAG;
    assert Find(body, CLOSE_TAG, 0) == Some(0);
    BlockVanishesIff(body);
    EmptyBlockVanishes();
    hide Find;
    hide StripBoilerplate;
    hide BlockOf;
    assert AfterTag(body) == OPEN_TAG + "\n" + CLOSE_TAG;
  }
}
