// What becomes of a request's newest message: the position of the summary's end is found in the per-message
// view, which skips blank messages, and by fingerprint, which repeated messages share.
module Newest {
  import opened Sequences
  import opened Text
  import opened Messages
  import opened Machine
  import opened Coverage
  import opened Archive
  import opened Uninterrupted
  import opened Proxy
  import opened Safety
  import Race
  import Slots
  import Views

  // ---- In every reachable state ----

  /** With a blank message anywhere in the request, the scan never gets to the newest message: it is not kept,
      absorbed or not, and unless it occurs twice it does not go out. */
  lemma {:induction false} BlankHidesNewest(h: Hash, ack: string, minL1: int, s: Sys)
    requires Reaches(RealConfig(h, ack, minL1), INIT, s)
    requires s.reader.Sent? && s.reader.out.Rewritten? && !AllVisible(s.reader.req.msgs)
    ensures var msgs, r := s.reader.req.msgs, s.reader;
      && |msgs| > 0 && |msgs| - 1 !in r.kept
      && (msgs[|msgs| - 1] !in msgs[..|msgs| - 1] ==> msgs[|msgs| - 1] !in r.out.kept)
  {
    var r, msgs := s.reader, s.reader.req.msgs;
    DroppedKeysStored(RealConfig(h, ack, minL1), s);
    RealViews(h, ack, minL1, msgs, []);
    HeadsAre(h, msgs);
    hide *;
    BlankMeansSome(msgs);
    OnlyEarlier(msgs, r.kept, |Heads(PerMessage(h, msgs))|);
  }

  lemma {:induction false} BlankMeansSome(ms: seq<Message>)
    requires !AllVisible(ms)
    ensures |ms| > 0
  {}

  lemma {:induction false} OnlyEarlier(ms: seq<Message>, kept: seq<nat>, n: nat)
    requires n < |ms| && Ascending(kept, n)
    ensures |ms| - 1 !in kept
    ensures ms[|ms| - 1] !in ms[..|ms| - 1] ==> ms[|ms| - 1] !in Pick(ms, kept)
  {
    PickAscending(ms, kept);
    forall i | 0 <= i < |kept| ensures Pick(ms, kept)[i] in ms[..|ms| - 1] {
      assert ms[..|ms| - 1][kept[i]] == ms[kept[i]];
    }
  }

  // ---- What was absorbed before a request came ----

  /** The fingerprint is absorbed, and the scan keeps no position that has it. */
  ghost predicate StaysOut(cfg: Config, s: Sys, sid: string, fp: string) {
    && fp in Sess(s, sid).absorbed
    && (Keeping(s.reader) && s.reader.req.sid == sid ==> KeepsNone(cfg.keys(s.reader.req.msgs), s.reader.kept, fp))
  }

  ghost predicate KeepsNone(keys: seq<string>, kept: seq<nat>, fp: string) {
    forall i :: i in kept && i < |keys| ==> keys[i] != fp
  }

  lemma {:induction false} StaysOutReader(cfg: Config, s: Sys, sid: string, fp: string)
    requires !s.reader.Idle? && StaysOut(cfg, s, sid, fp)
    ensures StaysOut(cfg, ReaderNext(cfg, s), sid, fp)
  {
    ReaderEffects(cfg, s);
    hide Pick;
  }

  lemma {:induction false} StaysOutStep(cfg: Config, s: Sys, e: Event, sid: string, fp: string)
    requires Enabled(s, e) && Slots.Registered(s) && StaysOut(cfg, s, sid, fp)
    ensures StaysOut(cfg, Apply(cfg, s, e), sid, fp)
  {
    StepGrows(cfg, s, e);
    if e.ReaderStep? {
      StaysOutReader(cfg, s, sid, fp);
    } else if !e.Arrive? {
      OtherScans(cfg, s, e);
      hide Apply;
    }
    hide ReaderNext;
    hide WorkerNext;
    hide KeepsNone;
  }

  lemma {:induction false} StaysOutAlways(cfg: Config, evs: seq<Event>, s: Sys, sid: string, fp: string)
    requires Legal(cfg, evs, s) && Slots.Registered(s) && StaysOut(cfg, s, sid, fp)
    ensures StaysOut(cfg, Run(cfg, evs, s), sid, fp)
    decreases |evs|
  {
    if evs != [] {
      hide Apply;
      hide Enabled;
      hide StaysOut;
      Slots.RegisteredStep(cfg, s, evs[0]);
      StaysOutStep(cfg, s, evs[0], sid, fp);
      StaysOutAlways(cfg, evs[1..], Apply(cfg, s, evs[0]), sid, fp);
    }
  }

  lemma {:induction false} ReachableRegistered(cfg: Config, s: Sys)
    requires Reaches(cfg, INIT, s)
    ensures Slots.Registered(s)
  {
    var evs :| Legal(cfg, evs, INIT) && Run(cfg, evs, INIT) == s;
    StoringAlways(cfg, evs, INIT);
    hide Slots.Registered;
  }

  /** In every run from a reachable state between two requests: a fingerprint absorbed there never goes out
      again. A request whose newest message repeats its role and text is rewritten without that message. */
  lemma {:induction false} RepeatGoesUnkept(h: Hash, ack: string, minL1: int, s: Sys, evs: seq<Event>,
                                            sid: string, fp: string)
    requires Reaches(RealConfig(h, ack, minL1), INIT, s) && s.reader.Idle? && fp in Sess(s, sid).absorbed
    requires Legal(RealConfig(h, ack, minL1), evs, s)
    ensures var r := Run(RealConfig(h, ack, minL1), evs, s).reader;
      r.Sent? && r.out.Rewritten? && r.req.sid == sid && r.req.msgs != [] ==>
        (Fp(h, r.req.msgs[|r.req.msgs| - 1]) == fp ==> |r.req.msgs| - 1 !in r.kept)
  {
    var cfg := RealConfig(h, ack, minL1);
    var t := Run(cfg, evs, s);
    ReachableRegistered(cfg, s);
    StaysOutAlways(cfg, evs, s, sid, fp);
    ThenRun(cfg, s, evs);
    if t.reader.Sent? && t.reader.out.Rewritten? {
      var msgs := t.reader.req.msgs;
      if !AllVisible(msgs) { BlankHidesNewest(h, ack, minL1, t); }
      RealViews(h, ack, minL1, msgs, []);
      HeadsAre(h, msgs);
    }
    hide Run;
    hide Fp;
    hide AllVisible;
    hide RealConfig;
  }

  lemma {:induction false} ThenRun(cfg: Config, s: Sys, evs: seq<Event>)
    requires Reaches(cfg, INIT, s) && Legal(cfg, evs, s)
    ensures Reaches(cfg, INIT, Run(cfg, evs, s))
  {
    var t := Run(cfg, evs, s);
    assert Reaches(cfg, s, t);
    hide Reaches;
    Then(cfg, INIT, s, t);
  }

  // ---- Exactly when a rewrite in one piece keeps it ----

  lemma {:induction false} UnabsorbedAre(keys: seq<string>, absorbed: set<string>, k: nat, i: nat)
    requires k <= |keys|
    ensures i in Unabsorbed(keys, absorbed, k) <==> i < k && keys[i] !in absorbed
  {
    if k > 0 { UnabsorbedAre(keys, absorbed, k - 1, i); }
  }

  /** A rewrite that drops messages keeps the newest one exactly when no message of the request is blank and
      its fingerprint is not absorbed: not when it is blank, not behind a blank one, and not when it repeats
      the role and text of an absorbed one. */
  lemma {:induction false} NewestKeptIff(h: Hash, ack: string, minL1: int, s: Sys, req: Request)
    requires req.msgs != []
    requires var x := Sess(s, req.sid); Truthy(x.user) && Truthy(x.asst)
    ensures var r, n := Reply(RealConfig(h, ack, minL1), s, req), |req.msgs| - 1;
      && r.Sent? && r.out.Rewritten? && r.out.kept == Pick(req.msgs, r.kept)
      && (n in r.kept <==> AllVisible(req.msgs) && Fp(h, req.msgs[n]) !in Sess(s, req.sid).absorbed)
  {
    var n := |req.msgs| - 1;
    RealViews(h, ack, minL1, req.msgs, []);
    HeadsAre(h, req.msgs);
    var keys := Heads(PerMessage(h, req.msgs));
    UnabsorbedAre(keys, Sess(s, req.sid).absorbed, |keys|, n);
    hide Unabsorbed;
    hide RealConfig;
    hide Heads;
    hide PerMessage;
    hide AllVisible;
    hide Fp;
    hide Pick;
  }

  // ---- Runs that lose it ----

  /** A session that has absorbed exactly a clean list of messages, both threads at rest. */
  lemma {:induction false} AbsorbAll(h: Hash, ack: string, minL1: int, ms: seq<Message>, sid: string, node: Node)
    returns (s: Sys)
    requires AllVisible(ms) && Distinct(Fps(h, ms)) && |Bundled(h, ms)| >= minL1
    requires node.summary != "" && ack != ""
    ensures Reaches(RealConfig(h, ack, minL1), INIT, s) && s.reader.Idle?
    ensures Sess(s, sid).absorbed == Elems(Fps(h, ms)) && (ms != [] ==> Archive.HasPair(s, sid))
  {
    var cfg := RealConfig(h, ack, minL1);
    FaithfulIff(h, ack, minL1, ms);
    RealViews(h, ack, minL1, ms, ms);
    HeadsAre(h, ms);
    hide Faithful;
    hide RealConfig;
    hide Bundled;
    hide AllVisible;
    hide Heads;
    hide PerMessage;
    assert ms[..|ms|] == ms;
    s := Race.FirstCompaction(cfg, ms, sid, |ms|, node);
    assert cfg.keys(ms)[..|ms|] == Fps(h, ms);
  }

  lemma {:induction false} KeysOfParts(h: Hash, a: seq<Message>, b: seq<Message>)
    requires AllVisible(a)
    ensures Heads(PerMessage(h, a + b)) == Fps(h, a) + Heads(PerMessage(h, b))
  {
    PerMessageAppend(h, a, b);
    HeadsAre(h, a);
    HeadsAppend(PerMessage(h, a), PerMessage(h, b));
  }

  lemma {:induction false} HeadsAppend(x: seq<L1>, y: seq<L1>)
    ensures Heads(x + y) == Heads(x) + Heads(y)
  {
    if x == [] {
      assert x + y == y;
    } else {
      assert (x + y)[1..] == x[1..] + y;
      HeadsAppend(x[1..], y);
    }
  }

  lemma {:induction false} NoneUnabsorbed(keys: seq<string>, absorbed: set<string>, k: nat)
    requires k <= |keys| && forall i :: 0 <= i < k ==> keys[i] in absorbed
    ensures Unabsorbed(keys, absorbed, k) == []
  {
    if k > 0 { NoneUnabsorbed(keys, absorbed, k - 1); }
  }

  /** A rewrite from such a session, reached by a run. */
  lemma {:induction false} ThenRewrite(cfg: Config, s: Sys, req: Request) returns (t: Sys)
    requires Reaches(cfg, INIT, s) && s.reader.Idle? && Archive.HasPair(s, req.sid)
    ensures Reaches(cfg, INIT, t)
    ensures t.reader.Sent? && t.reader.req == req && t.reader.out.Rewritten?
    ensures var keys := cfg.keys(req.msgs);
      && t.reader.kept == Unabsorbed(keys, Sess(s, req.sid).absorbed, |keys|)
      && t.reader.out.kept == Pick(req.msgs, t.reader.kept)
  {
    RewriteReaches(cfg, s, req);
    t := AfterRewrite(cfg, s, req);
    hide Reaches;
    Then(cfg, INIT, s, t);
  }

  /** After any clean list is absorbed: a blank message and then a new one. The blank one goes out, and the
      new one, which no job has read yet, does not. */
  lemma {:induction false} BlankTakesItsPlace(h: Hash, ack: string, minL1: int, ms: seq<Message>, sid: string,
                                              node: Node, blank: Message, newest: Message)
    returns (t: Sys)
    requires ms != [] && AllVisible(ms) && Distinct(Fps(h, ms)) && |Bundled(h, ms)| >= minL1
    requires node.summary != "" && ack != ""
    requires !Visible(blank) && Visible(newest) && Fp(h, newest) !in Fps(h, ms)
    ensures Reaches(RealConfig(h, ack, minL1), INIT, t)
    ensures t.reader.Sent? && t.reader.req == Request(sid, ms + [blank, newest])
    ensures t.reader.out.Rewritten? && t.reader.out.kept == [blank]
  {
    var cfg, req := RealConfig(h, ack, minL1), Request(sid, ms + [blank, newest]);
    hide AllVisible;
    hide Visible;
    hide Bundled;
    hide PerMessage;
    hide Heads;
    hide Distinct;
    hide Unabsorbed;
    hide Pick;
    hide Fp;
    var s := AbsorbAll(h, ack, minL1, ms, sid, node);
    t := ThenRewrite(cfg, s, req);
    RealViews(h, ack, minL1, req.msgs, []);
    KeysOfParts(h, ms, [blank, newest]);
    OneVisible(h, blank, newest);
    var n, keys := |ms|, Fps(h, ms) + [Fp(h, newest)];
    hide *;
    KeptAfter(Fps(h, ms), Fp(h, newest), n);
    PickLast(ms, blank, newest);
  }

  lemma {:induction false} OneVisible(h: Hash, blank: Message, newest: Message)
    requires !Visible(blank) && Visible(newest)
    ensures Heads(PerMessage(h, [blank, newest])) == [Fp(h, newest)]
  {
    hide Visible;
    hide TextOf;
    assert [blank, newest][1..] == [newest] && [newest][1..] == [];
    assert PerMessage(h, [newest]) == [Plain(h, newest)] + PerMessage(h, []);
    assert PerMessage(h, [blank, newest]) == [] + PerMessage(h, [newest]);
    FirstFp(h, newest);
  }

  lemma {:induction false} KeptAfter(fps: seq<string>, fp: string, n: nat)
    requires n == |fps| && fp !in fps
    ensures Unabsorbed(fps + [fp], Elems(fps), n + 1) == [n]
  {
    var keys := fps + [fp];
    NoneUnabsorbed(keys, Elems(fps), n);
    assert keys[n] == fp;
  }

  lemma {:induction false} PickLast(ms: seq<Message>, x: Message, y: Message)
    ensures Pick(ms + [x, y], [|ms|]) == [x]
  {
    var idx: seq<nat> := [|ms|];
    assert Ascending(idx, |ms + [x, y]|);
    PickAscending(ms + [x, y], idx);
  }

  /** And a message that repeats the role and text of an absorbed one is dropped: nothing follows the pair. */
  lemma {:induction false} RepeatIsDropped(h: Hash, ack: string, minL1: int, ms: seq<Message>, sid: string,
                                           node: Node, newest: Message)
    returns (t: Sys)
    requires ms != [] && AllVisible(ms) && Distinct(Fps(h, ms)) && |Bundled(h, ms)| >= minL1
    requires node.summary != "" && ack != ""
    requires Visible(newest) && Fp(h, newest) in Fps(h, ms)
    ensures Reaches(RealConfig(h, ack, minL1), INIT, t)
    ensures t.reader.Sent? && t.reader.req == Request(sid, ms + [newest])
    ensures t.reader.out.Rewritten? && t.reader.out.kept == []
  {
    var cfg, req := RealConfig(h, ack, minL1), Request(sid, ms + [newest]);
    var s := AbsorbAll(h, ack, minL1, ms, sid, node);
    t := ThenRewrite(cfg, s, req);
    RealViews(h, ack, minL1, req.msgs, []);
    KeysOfParts(h, ms, [newest]);
    JustOne(h, newest);
    var keys, absorbed := cfg.keys(req.msgs), Sess(s, sid).absorbed;
    hide *;
    NothingNew(req.msgs, keys, absorbed, Fps(h, ms), Fp(h, newest));
  }

  lemma {:induction false} JustOne(h: Hash, newest: Message)
    requires Visible(newest)
    ensures Heads(PerMessage(h, [newest])) == [Fp(h, newest)]
  {
    hide Visible;
    hide TextOf;
    assert [newest][1..] == [];
    assert PerMessage(h, [newest]) == [Plain(h, newest)] + PerMessage(h, []);
    FirstFp(h, newest);
  }

  lemma {:induction false} NothingNew(msgs: seq<Message>, keys: seq<string>, absorbed: set<string>,
                                      fps: seq<string>, fp: string)
    requires keys == fps + [fp] && absorbed == Elems(fps) && fp in fps
    ensures Pick(msgs, Unabsorbed(keys, absorbed, |keys|)) == []
  {
    NoneUnabsorbed(keys, absorbed, |keys|);
  }

  // ---- An input ----

  /** A text without spaces and angle brackets is its own text. */
  lemma {:induction false} WordText(c: char)
    requires !IsSpace(c)
    ensures TextOf(Str([c])) == [c]
  {
    var s := [c];
    assert forall i: nat, e: nat :: !Matches(s, i, e);
    assert RemoveReminders(s) == s;
    assert LStrip(s) == s && RStrip(s) == s;
  }

  lemma {:induction false} WordVisible(role: string, c: char)
    requires !IsSpace(c)
    ensures Visible(Message(role, Str([c])))
  {
    WordText(c);
    hide TextOf;
    assert [c][0] == c;
  }

  lemma {:induction false} ThinkingIsBlank(role: string)
    ensures !Visible(Message(role, Blocks([Thinking])))
  {
    assert [Thinking][1..] == [];
    assert Pieces([Thinking]) == [] + Pieces([]);
  }

  /** Say "a", get an answer that is only thinking, say "b": with a buffer size of one, "b" never goes out. */
  lemma {:induction false} SecondWordIsLost(h: Hash, ack: string, sid: string, node: Node) returns (t: Sys)
    requires h("user", "a") != h("user", "b") && node.summary != "" && ack != ""
    ensures Reaches(RealConfig(h, ack, 1), INIT, t) && t.reader.Sent?
    ensures t.reader.req.msgs ==
      [Message("user", Str("a")), Message("assistant", Blocks([Thinking])), Message("user", Str("b"))]
    ensures t.reader.out.Rewritten? && t.reader.out.kept == [Message("assistant", Blocks([Thinking]))]
  {
    var a, blank, b := Message("user", Str("a")), Message("assistant", Blocks([Thinking])), Message("user", Str("b"));
    WordText('a');
    WordText('b');
    WordVisible("user", 'a');
    WordVisible("user", 'b');
    ThinkingIsBlank("assistant");
    OneMessage(h, a);
    assert Fps(h, [a]) == [Fp(h, a)];
    hide TextOf;
    hide Visible;
    assert [a] + [blank, b] == [a, blank, b];
    t := BlankTakesItsPlace(h, ack, 1, [a], sid, node, blank, b);
  }

  lemma {:induction false} OneMessage(h: Hash, m: Message)
    requires Visible(m)
    ensures AllVisible([m]) && |Bundled(h, [m])| >= 1
  {
    var k, lo, hi := Views.EntryOfMessage(h, [m], 0);
  }
}
