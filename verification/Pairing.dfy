// Tool calls and their results in the outgoing array. If every request pairs them, no result ever goes out
// without its call; a call goes out without its result exactly when an absorption parted the two.
module Pairing {
  import opened Messages
  import opened Machine
  import opened Coverage
  import opened Archive
  import opened Trimming

  predicate Calls(m: Message, id: string) {
    m.content.Blocks? && exists b :: b in m.content.blocks && b.ToolUse? && b.id == id
  }

  predicate Replies(m: Message, id: string) {
    m.content.Blocks? && exists b :: b in m.content.blocks && b.ToolResult? && b.useId == id
  }

  /** Every tool call is answered in the next message. */
  ghost predicate CallsAnswered(ms: seq<Message>) {
    forall i, id :: 0 <= i < |ms| && Calls(ms[i], id) ==> i + 1 < |ms| && Replies(ms[i + 1], id)
  }

  /** Every result answers a call of the message before. */
  ghost predicate ResultsCalled(ms: seq<Message>) {
    forall i, id :: 0 <= i < |ms| && Replies(ms[i], id) ==> i > 0 && Calls(ms[i - 1], id)
  }

  ghost predicate Paired(ms: seq<Message>) { CallsAnswered(ms) && ResultsCalled(ms) }

  lemma {:induction false} UsesIsCalls(m: Message)
    ensures Uses(m) <==> exists id :: Calls(m, id)
  {
    if Uses(m) {
      var i :| 0 <= i < |m.content.blocks| && m.content.blocks[i].ToolUse?;
      assert m.content.blocks[i] in m.content.blocks && Calls(m, m.content.blocks[i].id);
    }
  }

  lemma {:induction false} PairHasNoTools(user: string, asst: string, id: string)
    ensures var p := SummaryPair(user, asst);
      !Calls(p[0], id) && !Calls(p[1], id) && !Replies(p[0], id) && !Replies(p[1], id)
  {}

  // ---- Arrays ----

  /** No stretch of kept messages begins with a result. */
  ghost predicate StartsClean(msgs: seq<Message>, kept: seq<nat>) {
    forall j, id :: j in kept && j < |msgs| && Replies(msgs[j], id) ==> j > 0 && j - 1 in kept
  }

  /** After every kept call the next message is kept. */
  ghost predicate CallsFollowed(msgs: seq<Message>, kept: seq<nat>) {
    forall i, id :: i in kept && i < |msgs| && Calls(msgs[i], id) ==> i + 1 in kept
  }

  lemma {:induction false} NextKept(kept: seq<nat>, n: nat, p: nat)
    requires Ascending(kept, n) && p < |kept| && kept[p] + 1 in kept
    ensures p + 1 < |kept| && kept[p + 1] == kept[p] + 1
  {
    var q: nat :| q < |kept| && kept[q] == kept[p] + 1;
    assert p < q;
  }

  lemma {:induction false} LastKept(kept: seq<nat>, n: nat, p: nat)
    requires Ascending(kept, n) && p < |kept| && kept[p] > 0 && kept[p] - 1 in kept
    ensures p > 0 && kept[p - 1] == kept[p] - 1
  {
    var q: nat :| q < |kept| && kept[q] == kept[p] - 1;
    assert q < p;
  }

  lemma {:induction false} KeptAt(msgs: seq<Message>, kept: seq<nat>, pair: seq<Message>, i: nat)
    requires Ascending(kept, |msgs|) && i < |pair + Pick(msgs, kept)|
    ensures |pair + Pick(msgs, kept)| == |pair| + |kept|
    ensures (pair + Pick(msgs, kept))[i] == if i < |pair| then pair[i] else msgs[kept[i - |pair|]]
  {
    PickAscending(msgs, kept);
  }

  ghost predicate NoTools(ms: seq<Message>) {
    forall i, id :: 0 <= i < |ms| ==> !Calls(ms[i], id) && !Replies(ms[i], id)
  }

  /** A kept result has its call before it. */
  lemma {:induction false} ResultsStay(msgs: seq<Message>, kept: seq<nat>, pair: seq<Message>)
    requires ResultsCalled(msgs) && Ascending(kept, |msgs|) && StartsClean(msgs, kept) && NoTools(pair)
    ensures ResultsCalled(pair + Pick(msgs, kept))
  {
    var out := pair + Pick(msgs, kept);
    hide Calls;
    hide Replies;
    forall i, id | 0 <= i < |out| && Replies(out[i], id) ensures i > 0 && Calls(out[i - 1], id) {
      KeptAt(msgs, kept, pair, i);
      var p := i - |pair|;
      assert kept[p] in kept;
      LastKept(kept, |msgs|, p);
      KeptAt(msgs, kept, pair, i - 1);
    }
  }

  lemma {:induction false} FollowedIsAnswered(msgs: seq<Message>, kept: seq<nat>, pair: seq<Message>)
    requires CallsAnswered(msgs) && Ascending(kept, |msgs|) && CallsFollowed(msgs, kept) && NoTools(pair)
    ensures CallsAnswered(pair + Pick(msgs, kept))
  {
    var out := pair + Pick(msgs, kept);
    hide Calls;
    hide Replies;
    forall i, id | 0 <= i < |out| && Calls(out[i], id) ensures i + 1 < |out| && Replies(out[i + 1], id) {
      KeptAt(msgs, kept, pair, i);
      var p := i - |pair|;
      assert kept[p] in kept;
      NextKept(kept, |msgs|, p);
      KeptAt(msgs, kept, pair, i + 1);
    }
  }

  lemma {:induction false} AnsweredIsFollowed(msgs: seq<Message>, kept: seq<nat>, pair: seq<Message>)
    requires Ascending(kept, |msgs|) && StartsClean(msgs, kept) && CallsAnswered(pair + Pick(msgs, kept))
    ensures CallsFollowed(msgs, kept)
  {
    hide Calls;
    hide Replies;
    forall i, id | i in kept && i < |msgs| && Calls(msgs[i], id) ensures i + 1 in kept {
      var p: nat :| p < |kept| && kept[p] == i;
      AnswerIsNext(msgs, kept, pair, p, id);
    }
  }

  lemma {:induction false} AnswerIsNext(msgs: seq<Message>, kept: seq<nat>, pair: seq<Message>, p: nat, id: string)
    requires Ascending(kept, |msgs|) && StartsClean(msgs, kept) && CallsAnswered(pair + Pick(msgs, kept))
    requires p < |kept| && Calls(msgs[kept[p]], id)
    ensures kept[p] + 1 in kept
  {
    hide Calls;
    hide Replies;
    PickAscending(msgs, kept);
    var out, q := pair + Pick(msgs, kept), |pair| + p;
    KeptAt(msgs, kept, pair, q);
    assert q + 1 < |out| && Replies(out[q + 1], id);
    KeptAt(msgs, kept, pair, q + 1);
    hide Pick;
    hide CallsAnswered;
    var next := kept[p + 1];
    assert next in kept && Replies(msgs[next], id);
    hide StartsClean;
    LastKept(kept, |msgs|, p + 1);
  }

  /** Of a paired request, kept in stretches none of which begins with a result: no result is alone, and the
      array is paired exactly when no kept call has lost the message after it. */
  lemma {:induction false} KeptPairedIff(msgs: seq<Message>, kept: seq<nat>, user: string, asst: string)
    requires Paired(msgs) && Ascending(kept, |msgs|) && StartsClean(msgs, kept)
    ensures ResultsCalled(SummaryPair(user, asst) + Pick(msgs, kept))
    ensures Paired(SummaryPair(user, asst) + Pick(msgs, kept)) <==> CallsFollowed(msgs, kept)
  {
    var pair := SummaryPair(user, asst);
    forall i, id | 0 <= i < |pair| ensures !Calls(pair[i], id) && !Replies(pair[i], id) {
      PairHasNoTools(user, asst, id);
    }
    assert NoTools(pair);
    hide *;
    PairedParts(msgs);
    ResultsStay(msgs, kept, pair);
    if CallsFollowed(msgs, kept) { FollowedIsAnswered(msgs, kept, pair); }
    PairedParts(pair + Pick(msgs, kept));
    if CallsAnswered(pair + Pick(msgs, kept)) { AnsweredIsFollowed(msgs, kept, pair); }
  }

  lemma {:induction false} PairedParts(ms: seq<Message>)
    ensures Paired(ms) <==> CallsAnswered(ms) && ResultsCalled(ms)
  {}

  /** Where a paired request ended, no longer one that is paired goes on with a result. */
  lemma {:induction false} CutIsNoResult(msgs: seq<Message>, j: nat, id: string)
    requires j < |msgs| && Paired(msgs) && Paired(msgs[..j])
    ensures !Replies(msgs[j], id)
  {
    hide Calls;
    hide Replies;
    if j > 0 {
      var last := msgs[..j][j - 1];
      assert last == msgs[j - 1] && !Calls(last, id);
    }
  }

  // ---- The scan ----

  predicate Starts(kept: seq<nat>, j: nat) { j in kept && (j == 0 || j - 1 !in kept) }

  /** Every stretch of kept messages starts where some request ended. */
  ghost predicate StartsAtCuts(tr: Transcripts, s: Sys, sid: string, kept: seq<nat>) {
    forall j: nat :: Starts(kept, j) ==> CutAt(s, tr, sid, j)
  }

  /** Message i is a kept call, and the message after it is not kept, or about to be dropped. */
  ghost predicate LetsGo(cfg: Config, tr: Transcripts, s: Sys, req: Request, k: nat, kept: seq<nat>, i: nat) {
    && i in kept && i < k && i + 1 < |req.msgs| && Uses(req.msgs[i])
    && i + 1 !in kept && (i + 1 == k ==> IsAbsorbed(cfg, tr, s, req.sid, k))
  }

  ghost predicate SomeLetsGo(cfg: Config, tr: Transcripts, s: Sys, req: Request, k: nat, kept: seq<nat>) {
    exists i: nat :: LetsGo(cfg, tr, s, req, k, kept, i)
  }

  function Position(r: Reader): nat
    requires Keeping(r)
  {
    if r.ScanKept? then r.k else |r.req.msgs|
  }

  /** The scan before position k is marked parted exactly when it lets go of a call. */
  ghost predicate Marked(cfg: Config, tr: Transcripts, s: Sys, req: Request, k: nat, kept: seq<nat>, torn: bool,
                         parted: bool)
  {
    && StartsAtCuts(tr, s, req.sid, kept)
    && (parted <==> SomeLetsGo(cfg, tr, s, req, k, kept))
    && (parted ==> torn)
  }

  ghost predicate ToolsRight(cfg: Config, tr: Transcripts, s: Sys) {
    var r := s.reader;
    Keeping(r) ==> Marked(cfg, tr, s, r.req, Position(r), r.kept, r.torn, r.parted)
  }

  lemma {:induction false} CutsGrow(tr: Transcripts, s: Sys, t: Sys, sid: string, kept: seq<nat>)
    requires Grows(s, t) && StartsAtCuts(tr, s, sid, kept)
    ensures StartsAtCuts(tr, t, sid, kept)
  {
    hide Starts;
    forall j: nat | Starts(kept, j) ensures CutAt(t, tr, sid, j) { assert CutAt(s, tr, sid, j); }
  }

  lemma {:induction false} NothingKept(cfg: Config, tr: Transcripts, s: Sys, req: Request, k: nat)
    ensures StartsAtCuts(tr, s, req.sid, []) && !SomeLetsGo(cfg, tr, s, req, k, [])
  {}

  /** With the absorbed sets unchanged, or the scan over, nothing more is let go. */
  lemma {:induction false} SameLetGo(cfg: Config, tr: Transcripts, s: Sys, t: Sys, req: Request, k: nat, kept: seq<nat>)
    requires Sess(s, req.sid).absorbed == Sess(t, req.sid).absorbed || k >= |req.msgs|
    ensures SomeLetsGo(cfg, tr, s, req, k, kept) <==> SomeLetsGo(cfg, tr, t, req, k, kept)
  {
    hide Uses;
    forall i: nat ensures LetsGo(cfg, tr, s, req, k, kept, i) <==> LetsGo(cfg, tr, t, req, k, kept, i) {}
  }

  lemma {:induction false} DropLetsGo(cfg: Config, tr: Transcripts, s: Sys, req: Request, k: nat, kept: seq<nat>)
    requires Ascending(kept, k) && IsAbsorbed(cfg, tr, s, req.sid, k)
    ensures SomeLetsGo(cfg, tr, s, req, k, kept) <==> SomeLetsGo(cfg, tr, s, req, k + 1, kept)
  {
    hide Uses;
    var next := k + 1;
    forall i: nat ensures LetsGo(cfg, tr, s, req, k, kept, i) <==> LetsGo(cfg, tr, s, req, next, kept, i) {}
  }

  lemma {:induction false} KeepLetsGo(cfg: Config, tr: Transcripts, s: Sys, req: Request, k: nat, kept: seq<nat>)
    requires World(cfg, tr) && AbsorbedRight(cfg, tr, s) && Ascending(kept, k) && k < |Keys(cfg, tr, req.sid)|
    requires !IsAbsorbed(cfg, tr, s, req.sid, k)
    ensures SomeLetsGo(cfg, tr, s, req, k, kept) <==> SomeLetsGo(cfg, tr, s, req, k + 1, kept + [k])
  {
    var n := AbsorbedIsPrefix(cfg, tr, s, req.sid);
    assert !IsAbsorbed(cfg, tr, s, req.sid, k + 1);
    hide Uses;
    hide IsAbsorbed;
    hide AbsorbedUpTo;
    var next, more := k + 1, kept + [k];
    assert more[|kept|] == k;
    forall i: nat ensures LetsGo(cfg, tr, s, req, k, kept, i) <==> LetsGo(cfg, tr, s, req, next, more, i) {}
  }

  /** The scan keeps a message after one that it did not keep: what is absorbed ends here. */
  lemma {:induction false} KeepStarts(cfg: Config, tr: Transcripts, s: Sys, req: Request, k: nat, kept: seq<nat>)
    requires World(cfg, tr) && AbsorbedRight(cfg, tr, s) && Rest(cfg, tr, s, req.sid, kept, k)
    requires k < |Keys(cfg, tr, req.sid)| && !IsAbsorbed(cfg, tr, s, req.sid, k)
    requires StartsAtCuts(tr, s, req.sid, kept)
    ensures StartsAtCuts(tr, s, req.sid, kept + [k])
  {
    var n := AbsorbedIsPrefix(cfg, tr, s, req.sid);
    hide IsAbsorbed;
    var more := kept + [k];
    forall j: nat | Starts(more, j) ensures CutAt(s, tr, req.sid, j) {
      if j in kept {
        assert Starts(kept, j);
      } else if k > 0 {
        assert IsAbsorbed(cfg, tr, s, req.sid, k - 1);
      }
    }
  }

  /** One position of the scan: the message is dropped because it is absorbed, or kept. */
  lemma {:induction false} OnePosition(cfg: Config, tr: Transcripts, s: Sys, req: Request, k: nat, kept: seq<nat>,
                                       torn: bool, parted: bool)
    requires World(cfg, tr) && AbsorbedRight(cfg, tr, s) && Rest(cfg, tr, s, req.sid, kept, k) && Ascending(kept, k)
    requires k < |Keys(cfg, tr, req.sid)| && Marked(cfg, tr, s, req, k, kept, torn, parted)
    ensures var more := if IsAbsorbed(cfg, tr, s, req.sid, k) then kept else kept + [k];
      Marked(cfg, tr, s, req, k + 1, more, torn, parted)
  {
    if IsAbsorbed(cfg, tr, s, req.sid, k) {
      DropLetsGo(cfg, tr, s, req, k, kept);
    } else {
      KeepLetsGo(cfg, tr, s, req, k, kept);
      KeepStarts(cfg, tr, s, req, k, kept);
    }
    hide SomeLetsGo;
    hide StartsAtCuts;
    hide IsAbsorbed;
    hide World;
    hide AbsorbedRight;
    hide Rest;
    hide Ascending;
  }

  /** With more requests logged, and the absorbed sets unchanged or the scan over. */
  lemma {:induction false} MarkedKept(cfg: Config, tr: Transcripts, s: Sys, t: Sys, req: Request, k: nat,
                                      kept: seq<nat>, torn: bool, parted: bool)
    requires Marked(cfg, tr, s, req, k, kept, torn, parted)
    requires Keeps(s, t) || (Grows(s, t) && k >= |req.msgs|)
    ensures Marked(cfg, tr, t, req, k, kept, torn, parted)
  {
    CutsGrow(tr, s, t, req.sid, kept);
    SameLetGo(cfg, tr, s, t, req, k, kept);
    hide SomeLetsGo;
    hide StartsAtCuts;
  }

  lemma {:induction false} MarkedDuring(cfg: Config, tr: Transcripts, s: Sys)
    requires s.reader.ScanKept?
    ensures var r := s.reader;
      ToolsRight(cfg, tr, s) <==> Marked(cfg, tr, s, r.req, r.k, r.kept, r.torn, r.parted)
  {
    hide Marked;
  }

  lemma {:induction false} MarkedAfter(cfg: Config, tr: Transcripts, s: Sys)
    requires Keeping(s.reader) && !s.reader.ScanKept?
    ensures var r := s.reader;
      ToolsRight(cfg, tr, s) <==> Marked(cfg, tr, s, r.req, |r.req.msgs|, r.kept, r.torn, r.parted)
  {
    hide Marked;
  }

  lemma {:induction false} ScanTools(cfg: Config, tr: Transcripts, s: Sys)
    requires World(cfg, tr) && Covered(cfg, tr, s) && s.reader.ScanKept? && ToolsRight(cfg, tr, s)
    ensures ToolsRight(cfg, tr, ReaderNext(cfg, s))
  {
    var r, t := s.reader, ReaderNext(cfg, s);
    CoveredParts(cfg, tr, s);
    ScanMoves(cfg, tr, s);
    MarkedDuring(cfg, tr, s);
    hide *;
    if r.k < |r.req.msgs| {
      MarkedOnward(cfg, tr, s, t, t.reader.kept);
    } else {
      MarkedKept(cfg, tr, s, t, r.req, r.k, r.kept, r.torn, r.parted);
      IsKeeping(t.reader);
      MarkedAfter(cfg, tr, t);
    }
  }

  lemma {:induction false} MarkedOnward(cfg: Config, tr: Transcripts, s: Sys, t: Sys, more: seq<nat>)
    requires World(cfg, tr) && AbsorbedRight(cfg, tr, s) && Keeps(s, t) && s.reader.ScanKept?
    requires var r := s.reader;
      && Rest(cfg, tr, s, r.req.sid, r.kept, r.k) && Ascending(r.kept, r.k) && r.k < |Keys(cfg, tr, r.req.sid)|
      && Marked(cfg, tr, s, r.req, r.k, r.kept, r.torn, r.parted)
      && more == (if IsAbsorbed(cfg, tr, s, r.req.sid, r.k) then r.kept else r.kept + [r.k])
      && t.reader == ScanKept(r.req, r.k + 1, more, r.torn, r.parted)
    ensures ToolsRight(cfg, tr, t)
  {
    hide *;
    var r := s.reader;
    OnePosition(cfg, tr, s, r.req, r.k, r.kept, r.torn, r.parted);
    MarkedKept(cfg, tr, s, t, r.req, r.k + 1, more, r.torn, r.parted);
    MarkedDuring(cfg, tr, t);
  }

  lemma {:induction false} IsKeeping(r: Reader)
    requires r.ReadUser?
    ensures Keeping(r)
  {}

  lemma {:induction false} ReaderTools(cfg: Config, tr: Transcripts, s: Sys)
    requires World(cfg, tr) && Covered(cfg, tr, s) && !s.reader.Idle? && ToolsRight(cfg, tr, s)
    ensures ToolsRight(cfg, tr, ReaderNext(cfg, s))
  {
    var r, t := s.reader, ReaderNext(cfg, s);
    if r.ScanKept? {
      ScanTools(cfg, tr, s);
    } else {
      ReaderEffects(cfg, s);
      hide SomeLetsGo;
      hide StartsAtCuts;
      hide Pick;
      if r.ReadUser? || r.ReadAsst? {
        MarkedKept(cfg, tr, s, t, r.req, |r.req.msgs|, r.kept, r.torn, r.parted);
      } else if Keeping(t.reader) {
        NothingKept(cfg, tr, t, r.req, Position(t.reader));
      }
    }
  }

  /** An absorption lets go of a kept call exactly when it comes right behind it. */
  lemma {:induction false} AbsorbLetsGo(cfg: Config, tr: Transcripts, s: Sys, t: Sys, req: Request, k: nat,
                                        kept: seq<nat>)
    requires Ascending(kept, k) && k < |req.msgs| && Sess(s, req.sid).absorbed <= Sess(t, req.sid).absorbed
    ensures SomeLetsGo(cfg, tr, t, req, k, kept) <==>
      SomeLetsGo(cfg, tr, s, req, k, kept)
      || (BehindCall(req, k, kept) && IsAbsorbed(cfg, tr, t, req.sid, k) && !IsAbsorbed(cfg, tr, s, req.sid, k))
  {
    hide Uses;
    if SomeLetsGo(cfg, tr, s, req, k, kept) {
      var i: nat :| LetsGo(cfg, tr, s, req, k, kept, i);
      assert LetsGo(cfg, tr, t, req, k, kept, i);
    } else if SomeLetsGo(cfg, tr, t, req, k, kept) {
      var i: nat :| LetsGo(cfg, tr, t, req, k, kept, i);
      assert !LetsGo(cfg, tr, s, req, k, kept, i);
      var p: nat :| p < |kept| && kept[p] == i;
      assert p == |kept| - 1;
    } else if BehindCall(req, k, kept) {
      var i := kept[|kept| - 1];
      assert !LetsGo(cfg, tr, t, req, k, kept, i);
    }
  }

  lemma {:induction false} AbsorbTools(cfg: Config, tr: Transcripts, s: Sys, t: Sys)
    requires World(cfg, tr) && ReaderOk(cfg, tr, s) && AbsorbsInto(cfg, s, t) && Grows(s, t) && ToolsRight(cfg, tr, s)
    ensures ToolsRight(cfg, tr, t)
  {
    var r := s.reader;
    if Keeping(r) {
      CutsGrow(tr, s, t, r.req.sid, r.kept);
      if r.ScanKept? && r.k < |r.req.msgs| {
        assert Scan(cfg, tr, s, r.req, r.k, r.kept, r.torn);
        KeysAre(cfg, tr, r.req);
        AbsorbLetsGo(cfg, tr, s, t, r.req, r.k, r.kept);
      } else {
        SameLetGo(cfg, tr, s, t, r.req, Position(r), r.kept);
        if r.ScanKept? { KeysAre(cfg, tr, r.req); }
      }
    }
    hide SomeLetsGo;
    hide StartsAtCuts;
    hide Scan;
  }

  /** A step that leaves the reader and the absorbed sets alone. */
  lemma {:induction false} ToolsKept(cfg: Config, tr: Transcripts, s: Sys, t: Sys)
    requires Keeps(s, t) && t.reader == s.reader && ToolsRight(cfg, tr, s)
    ensures ToolsRight(cfg, tr, t)
  {
    var r := s.reader;
    if Keeping(r) { MarkedKept(cfg, tr, s, t, r.req, Position(r), r.kept, r.torn, r.parted); }
    hide Marked;
  }

  /** Every step of either thread keeps what is known about stretches and parted calls. */
  lemma {:induction false} ToolsStep(cfg: Config, tr: Transcripts, s: Sys, e: Event)
    requires World(cfg, tr) && Enabled(s, e) && Invariant(cfg, tr, s) && ToolsRight(cfg, tr, s)
    ensures ToolsRight(cfg, tr, Apply(cfg, s, e))
  {
    var t := Apply(cfg, s, e);
    hide Covered;
    hide World;
    if e.ReaderStep? {
      ReaderTools(cfg, tr, s);
    } else if e.WorkerStep? && s.worker.Absorb? {
      AbsorbEffects(cfg, s);
      CoveredParts(cfg, tr, s);
      AbsorbTools(cfg, tr, s, t);
    } else if !e.Arrive? {
      OnlyAbsorbAbsorbs(cfg, s, e);
      if e.WorkerStep? { OtherWorkerEffects(cfg, s); }
      ToolsKept(cfg, tr, s, t);
    }
  }

  lemma {:induction false} CoveredParts(cfg: Config, tr: Transcripts, s: Sys)
    requires Covered(cfg, tr, s)
    ensures AbsorbedRight(cfg, tr, s) && ReaderOk(cfg, tr, s)
  {}

  lemma {:induction false} ToolsAlways(cfg: Config, tr: Transcripts, evs: seq<Event>, s: Sys)
    requires World(cfg, tr) && Legal(cfg, evs, s) && FromTranscripts(tr, evs)
    requires Invariant(cfg, tr, s) && ToolsRight(cfg, tr, s)
    ensures ToolsRight(cfg, tr, Run(cfg, evs, s))
    decreases |evs|
  {
    if evs != [] {
      hide Invariant;
      hide ToolsRight;
      hide Apply;
      InvariantStep(cfg, tr, s, evs[0]);
      ToolsStep(cfg, tr, s, evs[0]);
      ToolsAlways(cfg, tr, evs[1..], Apply(cfg, s, evs[0]));
    }
  }

  // ---- The results ----

  lemma {:induction false} CutsAreClean(tr: Transcripts, s: Sys, req: Request, kept: seq<nat>)
    requires req.msgs <= tr(req.sid) && Paired(req.msgs) && (forall r :: r in s.log ==> Paired(r.msgs))
    requires StartsAtCuts(tr, s, req.sid, kept)
    ensures StartsClean(req.msgs, kept)
  {
    hide Paired;
    hide Replies;
    forall j, id | j in kept && j < |req.msgs| && Replies(req.msgs[j], id) ensures j > 0 && j - 1 in kept {
      if j == 0 || j - 1 !in kept {
        assert Starts(kept, j);
        assert CutAt(s, tr, req.sid, j);
        assert req.msgs[..j] == tr(req.sid)[..j];
        if j == 0 { NothingIsPaired(req.msgs[..j]); } else { assert Request(req.sid, tr(req.sid)[..j]) in s.log; }
        CutIsNoResult(req.msgs, j, id);
      }
    }
  }

  lemma {:induction false} NothingIsPaired(ms: seq<Message>)
    requires ms == []
    ensures Paired(ms)
  {}

  lemma {:induction false} FollowedIffNoneGo(cfg: Config, tr: Transcripts, s: Sys, req: Request, kept: seq<nat>)
    requires Paired(req.msgs) && Ascending(kept, |req.msgs|)
    ensures CallsFollowed(req.msgs, kept) <==> !SomeLetsGo(cfg, tr, s, req, |req.msgs|, kept)
  {
    hide Calls;
    hide Replies;
    hide Uses;
    if SomeLetsGo(cfg, tr, s, req, |req.msgs|, kept) {
      var i: nat :| LetsGo(cfg, tr, s, req, |req.msgs|, kept, i);
      UsesIsCalls(req.msgs[i]);
    } else {
      forall i, id | i in kept && i < |req.msgs| && Calls(req.msgs[i], id) ensures i + 1 in kept {
        UsesIsCalls(req.msgs[i]);
        assert !LetsGo(cfg, tr, s, req, |req.msgs|, kept, i);
      }
    }
  }

  lemma {:induction false} ReachableTools(cfg: Config, tr: Transcripts, evs: seq<Event>) returns (s: Sys)
    requires World(cfg, tr) && Legal(cfg, evs, INIT) && FromTranscripts(tr, evs)
    ensures s == Run(cfg, evs, INIT) && Invariant(cfg, tr, s) && ToolsRight(cfg, tr, s)
  {
    hide Invariant;
    s := Reachable(cfg, tr, evs);
    InvariantInit(cfg, tr);
    ToolsAlways(cfg, tr, evs, INIT);
  }

  /** In every run whose requests pair their tool calls, torn or not: no result goes out without its call; and
      what goes out is paired exactly when every kept call has the message after it kept, which is exactly when
      no absorption came right behind a kept call. */
  lemma {:induction false} PairedUnlessParted(cfg: Config, tr: Transcripts, evs: seq<Event>)
    requires World(cfg, tr) && Legal(cfg, evs, INIT) && FromTranscripts(tr, evs)
    requires forall req :: req in Run(cfg, evs, INIT).log ==> Paired(req.msgs)
    ensures var r := Run(cfg, evs, INIT).reader;
      r.Sent? ==>
        var out := ArrayOf(r.req.msgs, r.out);
        && ResultsCalled(out)
        && (Paired(out) <==> !r.parted)
        && (r.out.Rewritten? ==> (Paired(out) <==> CallsFollowed(r.req.msgs, r.kept)))
        && (r.parted ==> r.torn)
  {
    var s := ReachableTools(cfg, tr, evs);
    var r := s.reader;
    if r.Sent? {
      hide Run;
      hide Paired;
      SentFacts(cfg, tr, s);
      PairedParts(r.req.msgs);
      if r.out.Rewritten? {
        CutsAreClean(tr, s, r.req, r.kept);
        KeptPairedIff(r.req.msgs, r.kept, r.out.user, r.out.asst);
        FollowedIffNoneGo(cfg, tr, s, r.req, r.kept);
      }
    }
  }

  lemma {:induction false} SentFacts(cfg: Config, tr: Transcripts, s: Sys)
    requires Invariant(cfg, tr, s) && s.reader.Sent?
    ensures var r := s.reader;
      && r.req in s.log && r.req.msgs <= tr(r.req.sid)
      && (r.out.Untouched? ==> !r.torn)
      && (r.out.Rewritten? ==> Ascending(r.kept, |r.req.msgs|) && r.out.kept == Pick(r.req.msgs, r.kept))
  {}

  /** So a scan that was not torn orphans neither half of a call. */
  lemma {:induction false} TrimmingKeepsToolPairing(cfg: Config, tr: Transcripts, evs: seq<Event>)
    requires World(cfg, tr) && Legal(cfg, evs, INIT) && FromTranscripts(tr, evs)
    requires forall req :: req in Run(cfg, evs, INIT).log ==> Paired(req.msgs)
    ensures var r := Run(cfg, evs, INIT).reader;
      r.Sent? && !r.torn ==> Paired(ArrayOf(r.req.msgs, r.out))
  {
    hide Paired;
    PairedUnlessParted(cfg, tr, evs);
  }
}
