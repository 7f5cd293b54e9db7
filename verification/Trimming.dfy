// The main results about the trim protocol: what the outgoing message array is, in every reachable
// state of every interleaving.
module Trimming {
  import opened Sequences
  import opened Messages
  import opened Machine
  import Slots
  import opened Coverage
  import opened Archive

  /** Every request of the run carries a prefix of its session's transcript. */
  ghost predicate FromTranscripts(tr: Transcripts, evs: seq<Event>) {
    forall i :: 0 <= i < |evs| && evs[i].Arrive? ==> evs[i].req.msgs <= tr(evs[i].req.sid)
  }

  ghost predicate Invariant(cfg: Config, tr: Transcripts, s: Sys) {
    && Slots.Registered(s) && Covered(cfg, tr, s)
    && PairRight(cfg, s) && (forall r :: r in s.log ==> r.msgs <= tr(r.sid))
  }

  lemma {:induction false} InvariantInit(cfg: Config, tr: Transcripts)
    requires World(cfg, tr)
    ensures Invariant(cfg, tr, INIT)
  {
    forall sid ensures AbsorbedRequest(cfg, tr, INIT, sid) {
      assert Faithful(cfg, tr(sid));
      assert AbsorbedUpTo(cfg, tr, INIT, sid, 0);
    }
  }

  lemma {:induction false} InvariantStep(cfg: Config, tr: Transcripts, s: Sys, e: Event)
    requires World(cfg, tr) && Enabled(s, e) && Invariant(cfg, tr, s)
    requires e.Arrive? ==> e.req.msgs <= tr(e.req.sid)
    ensures Invariant(cfg, tr, Apply(cfg, s, e))
  {
    hide Apply;
    Slots.RegisteredStep(cfg, s, e);
    CoveredStep(cfg, tr, s, e);
    PairStep(cfg, s, e);
    LogStep(cfg, s, e);
  }

  lemma {:induction false} InvariantAlways(cfg: Config, tr: Transcripts, evs: seq<Event>, s: Sys)
    requires World(cfg, tr) && Legal(cfg, evs, s) && FromTranscripts(tr, evs) && Invariant(cfg, tr, s)
    ensures Invariant(cfg, tr, Run(cfg, evs, s))
    decreases |evs|
  {
    if evs != [] {
      hide Invariant;
      hide Apply;
      InvariantStep(cfg, tr, s, evs[0]);
      InvariantAlways(cfg, tr, evs[1..], Apply(cfg, s, evs[0]));
    }
  }

  lemma {:induction false} Reachable(cfg: Config, tr: Transcripts, evs: seq<Event>) returns (s: Sys)
    requires World(cfg, tr) && Legal(cfg, evs, INIT) && FromTranscripts(tr, evs)
    ensures s == Run(cfg, evs, INIT) && Invariant(cfg, tr, s)
  {
    hide Invariant;
    InvariantInit(cfg, tr);
    InvariantAlways(cfg, tr, evs, INIT);
    s := Run(cfg, evs, INIT);
  }

  /** In every reachable state, what a session has absorbed is nothing, or exactly the fingerprints
      of the whole message list of some request: however jobs overlap, never part of one. */
  lemma {:induction false} AbsorbedIsAWholeRequest(cfg: Config, tr: Transcripts, evs: seq<Event>, sid: string)
    requires World(cfg, tr) && Legal(cfg, evs, INIT) && FromTranscripts(tr, evs)
    ensures var s := Run(cfg, evs, INIT);
      var absorbed := Sess(s, sid).absorbed;
      absorbed == {} || exists r :: r in s.log && r.sid == sid && absorbed == Elems(cfg.keys(r.msgs))
  {
    var s := Reachable(cfg, tr, evs);
    var n := AbsorbedIsPrefix(cfg, tr, s, sid);
    assert Faithful(cfg, tr(sid));
    if n > 0 {
      var r := Request(sid, tr(sid)[..n]);
      assert r in s.log && Sess(s, sid).absorbed == Elems(cfg.keys(r.msgs));
    }
  }

  // ---- The outgoing array ----

  /** A selection without a gap is an interval. */
  lemma {:induction false} SolidIsInterval(kept: seq<nat>, n: nat)
    requires Ascending(kept, n) && Solid(kept, n) && kept != []
    ensures |kept| == n - kept[0] && forall i :: 0 <= i < |kept| ==> kept[i] == kept[0] + i
  {
    var i := 1;
    while i < |kept|
      invariant 1 <= i <= |kept| && forall j :: 0 <= j < i ==> kept[j] == kept[0] + j
    {
      var v: nat := kept[0] + i;
      assert kept[i - 1] < kept[i] && v in kept;
      var p: nat :| p < |kept| && kept[p] == v;
      i := i + 1;
    }
    var top: nat := kept[0] + |kept|;
    assert kept[|kept| - 1] < n && top !in kept;
    assert top < n ==> top in kept;
  }

  /** Equal messages have equal keys, so in a faithful transcript no message occurs twice. */
  lemma {:induction false} MessagesDistinct(cfg: Config, tr: seq<Message>, a: nat, b: nat)
    requires Faithful(cfg, tr) && a < |tr| && b < |tr| && tr[a] == tr[b]
    ensures a == b
  {
    var keys := cfg.keys(tr);
    assert Ascending([a], |tr|) && Ascending([b], |tr|);
    assert Pick(tr, [a][..0]) == [] && Pick(keys, [a][..0]) == [];
    assert Pick(tr, [b][..0]) == [] && Pick(keys, [b][..0]) == [];
    assert Pick(tr, [a]) == [tr[a]] == Pick(tr, [b]);
    assert Pick(keys, [a]) == [keys[a]] && Pick(keys, [b]) == [keys[b]];
  }

  /** A scan that was not torn keeps exactly a suffix, starting where some request ended. */
  lemma {:induction false} UntornKeepsSuffix(cfg: Config, tr: Transcripts, s: Sys, req: Request, kept: seq<nat>)
    returns (lo: nat)
    requires World(cfg, tr) && req.msgs <= tr(req.sid)
    requires Scan(cfg, tr, s, req, |req.msgs|, kept, false)
    ensures lo <= |req.msgs| && Pick(req.msgs, kept) == req.msgs[lo..]
    ensures lo == |req.msgs| || CutAt(s, tr, req.sid, lo)
  {
    var n := |req.msgs|;
    PickAscending(req.msgs, kept);
    if kept == [] {
      lo := n;
    } else {
      lo := kept[0];
      SolidIsInterval(kept, n);
    }
  }

  /** A scan whose result is a suffix left no gap. */
  lemma {:induction false} SuffixIsSolid(cfg: Config, tr: Transcripts, req: Request, kept: seq<nat>, lo: nat)
    requires World(cfg, tr) && req.msgs <= tr(req.sid)
    requires Ascending(kept, |req.msgs|) && lo <= |req.msgs| && Pick(req.msgs, kept) == req.msgs[lo..]
    ensures Solid(kept, |req.msgs|)
  {
    var n := |req.msgs|;
    PickAscending(req.msgs, kept);
    assert Faithful(cfg, tr(req.sid));
    forall i | 0 <= i < |kept| ensures kept[i] == lo + i {
      assert req.msgs[kept[i]] == req.msgs[lo..][i] == req.msgs[lo + i];
      MessagesDistinct(cfg, tr(req.sid), kept[i], lo + i);
    }
    if kept != [] {
      forall j: nat | kept[0] <= j < n ensures j in kept { assert kept[j - lo] == j; }
    }
  }

  ghost predicate IsSuffix(msgs: seq<Message>, kept: seq<Message>) {
    exists lo :: 0 <= lo <= |msgs| && kept == msgs[lo..]
  }

  lemma {:induction false} GapsAreNoSuffix(cfg: Config, tr: Transcripts, req: Request, kept: seq<nat>)
    requires World(cfg, tr) && req.msgs <= tr(req.sid)
    requires Ascending(kept, |req.msgs|) && !Solid(kept, |req.msgs|)
    ensures !IsSuffix(req.msgs, Pick(req.msgs, kept))
  {
    if IsSuffix(req.msgs, Pick(req.msgs, kept)) {
      var lo :| 0 <= lo <= |req.msgs| && Pick(req.msgs, kept) == req.msgs[lo..];
      SuffixIsSolid(cfg, tr, req, kept, lo);
    }
  }

  /** The outgoing array is the request itself, or a summary pair with non-empty texts followed by kept
      messages. These are a suffix of the request exactly when no absorption landed behind the scan:
      between keeping one message and testing the next, of the next one. */
  lemma {:induction false} OutgoingIsSuffixUnlessTorn(cfg: Config, tr: Transcripts, evs: seq<Event>)
    requires World(cfg, tr) && Legal(cfg, evs, INIT) && FromTranscripts(tr, evs)
    ensures var r := Run(cfg, evs, INIT).reader;
      r.Sent? && r.out.Rewritten? ==>
        && r.out.user != "" && r.out.asst != ""
        && (IsSuffix(r.req.msgs, r.out.kept) <==> !r.torn)
  {
    var s := Reachable(cfg, tr, evs);
    var r := s.reader;
    if r.Sent? && r.out.Rewritten? {
      if r.torn {
        GapsAreNoSuffix(cfg, tr, r.req, r.kept);
      } else {
        var lo := UntornKeepsSuffix(cfg, tr, s, r.req, r.kept);
        assert r.out.kept == r.req.msgs[lo..];
      }
    }
  }

  /** Torn or not, nothing is lost: every message of a rewritten request goes out, or was absorbed and
      stored before. */
  lemma {:induction false} NothingLost(cfg: Config, tr: Transcripts, evs: seq<Event>, i: nat)
    requires World(cfg, tr) && Legal(cfg, evs, INIT) && FromTranscripts(tr, evs)
    requires Run(cfg, evs, INIT).reader.Sent? && i < |Run(cfg, evs, INIT).reader.req.msgs|
    ensures var s := Run(cfg, evs, INIT);
      var r := s.reader;
      r.out.Untouched? || r.req.msgs[i] in r.out.kept || Stored(cfg, tr, s, r.req.sid, i)
  {
    var s := Reachable(cfg, tr, evs);
    var r := s.reader;
    DroppedIsStored(cfg, evs);
    if r.out.Rewritten? {
      KeysAre(cfg, tr, r.req);
      hide FpStored;
      if i in r.kept {
        PickAscending(r.req.msgs, r.kept);
        var j: nat :| j < |r.kept| && r.kept[j] == i;
        assert r.out.kept[j] == r.req.msgs[i];
      } else {
        KeyIsMessage(cfg, tr, s, r.req.sid, i);
      }
    }
  }

  // ---- The whole array ----

  const SUMMARY_HEADER :=
    "[PREVIOUS CONVERSATION SUMMARY \U{2014} authoritative; the verbatim turns were trimmed to save context]\n\n"

  function SummaryPair(user: string, asst: string): seq<Message> {
    [Message("user", Blocks([TextBlock(SUMMARY_HEADER + user)])),
     Message("assistant", Blocks([TextBlock(asst)]))]
  }

  /** The message array that goes out. */
  function ArrayOf(msgs: seq<Message>, out: Outgoing): seq<Message> {
    if out.Untouched? then msgs else SummaryPair(out.user, out.asst) + out.kept
  }

  /** The message holds one text block and nothing else: these two texts, one after the other. */
  ghost predicate OneText(m: Message, role: string, start: string, rest: string) {
    && m.role == role && m.content.Blocks? && |m.content.blocks| == 1 && m.content.blocks[0].TextBlock?
    && var t := m.content.blocks[0].text; start <= t && t[|start|..] == rest
  }

  /** A user message with the heading and the summary, an assistant message with the acknowledgement, and then
      the kept messages. */
  ghost predicate PairThenKept(arr: seq<Message>, summary: string, ack: string, kept: seq<Message>) {
    && |arr| == 2 + |kept| && arr[2..] == kept
    && OneText(
         arr[0], "user",
         "[PREVIOUS CONVERSATION SUMMARY \U{2014} authoritative; the verbatim turns were trimmed to save context]\n\n",
         summary)
    && OneText(arr[1], "assistant", "", ack)
  }

  /** A rewritten array is its pair and what was kept; any other is the request's own. */
  lemma {:induction false} ArrayIsPairThenKept(msgs: seq<Message>, out: Outgoing)
    ensures out.Rewritten? ==> PairThenKept(ArrayOf(msgs, out), out.user, out.asst, out.kept)
    ensures out.Untouched? ==> ArrayOf(msgs, out) == msgs
  {
    if out.Rewritten? {
      HeadingThen(out.user);
      PairTexts(out.user, out.asst);
      hide SummaryPair;
    }
  }

  lemma {:induction false} HeadingThen(user: string)
    ensures (SUMMARY_HEADER + user)[|SUMMARY_HEADER|..] == user && SUMMARY_HEADER <= SUMMARY_HEADER + user
  {}

  lemma {:induction false} PairTexts(user: string, asst: string)
    ensures var p := SummaryPair(user, asst);
      && |p| == 2 && OneText(p[0], "user", SUMMARY_HEADER, user) && OneText(p[1], "assistant", "", asst)
  {
    HeadingThen(user);
    assert asst[0..] == asst;
  }
}
