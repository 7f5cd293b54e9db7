// The protocol's guarantees for the proxy's own views, in any state that the request path and the worker
// can reach.
module Safety {
  import opened Sequences
  import Runs
  import opened Messages
  import opened Machine
  import opened Coverage
  import opened Archive
  import opened Trimming
  import opened Pairing
  import opened Proxy
  import Summaries
  import Views
  import opened Uninterrupted

  /** The requests that arrive in a run, in order. */
  function Arrivals(evs: seq<Event>): seq<Request> {
    if evs == [] then [] else (if evs[0].Arrive? then [evs[0].req] else []) + Arrivals(evs[1..])
  }

  lemma {:induction false} LogIsArrivals(cfg: Config, evs: seq<Event>, s: Sys)
    requires Legal(cfg, evs, s)
    ensures Run(cfg, evs, s).log == s.log + Arrivals(evs)
    decreases |evs|
  {
    if evs != [] {
      LogStep(cfg, s, evs[0]);
      hide Apply;
      hide Enabled;
      LogIsArrivals(cfg, evs[1..], Apply(cfg, s, evs[0]));
      Runs.Associative(s.log, if evs[0].Arrive? then [evs[0].req] else [], Arrivals(evs[1..]));
    }
  }

  lemma {:induction false} ArrivalListed(evs: seq<Event>, i: nat)
    requires i < |evs| && evs[i].Arrive?
    ensures evs[i].req in Arrivals(evs)
  {
    if i > 0 { ArrivalListed(evs[1..], i - 1); }
  }

  ghost predicate FromLog(tr: Transcripts, s: Sys) { forall r :: r in s.log ==> r.msgs <= tr(r.sid) }

  lemma {:induction false} RunFromLog(cfg: Config, tr: Transcripts, evs: seq<Event>)
    requires Legal(cfg, evs, INIT) && FromLog(tr, Run(cfg, evs, INIT))
    ensures FromTranscripts(tr, evs)
  {
    LogIsArrivals(cfg, evs, INIT);
    forall i | 0 <= i < |evs| && evs[i].Arrive? ensures evs[i].req.msgs <= tr(evs[i].req.sid) {
      ArrivalListed(evs, i);
    }
  }

  // ---- Storage, for any requests ----

  /** In every reachable state, whatever the requests carry, a rewritten array keeps messages of the request in
      their order, and every key of the request whose position is not kept is in the rows of a saved node. */
  lemma {:induction false} DroppedKeysStored(cfg: Config, s: Sys)
    requires Reaches(cfg, INIT, s)
    ensures var r := s.reader;
      r.Sent? && r.out.Rewritten? ==>
        var keys := cfg.keys(r.req.msgs);
        && Ascending(r.kept, |keys|) && r.out.kept == Pick(r.req.msgs, r.kept)
        && forall i: nat :: i < |keys| ==> i in r.kept || FpStored(cfg, s, r.req.sid, keys[i])
  {
    var evs :| Legal(cfg, evs, INIT) && Run(cfg, evs, INIT) == s;
    hide FpStored;
    DroppedIsStored(cfg, evs);
  }

  /** And every absorbed fingerprint is. */
  lemma {:induction false} AbsorbedKeysStored(cfg: Config, s: Sys, sid: string, fp: string)
    requires Reaches(cfg, INIT, s) && fp in Sess(s, sid).absorbed
    ensures FpStored(cfg, s, sid, fp)
  {
    var evs :| Legal(cfg, evs, INIT) && Run(cfg, evs, INIT) == s;
    hide FpStored;
    AbsorbedIsStored(cfg, evs, sid, fp);
  }

  /** In every legal run, whatever the requests carry, what goes out in place of dropped messages is the
      summary of a node that the compacter returned and the worker saved, under its heading, and the
      acknowledgement; then come the kept messages. */
  lemma {:induction false} PairGoesOut(cfg: Config, evs: seq<Event>)
    requires Legal(cfg, evs, INIT)
    ensures var s := Run(cfg, evs, INIT);
      var r := s.reader;
      r.Sent? && r.out.Rewritten? ==>
        exists n :: n in Summaries.Returned(evs) && n.id in s.saved && n.summary != "" && cfg.ack != ""
          && PairThenKept(ArrayOf(r.req.msgs, r.out), n.summary, cfg.ack, Pick(r.req.msgs, r.kept))
  {
    var s := Run(cfg, evs, INIT);
    Summaries.PairIsOfSavedNode(cfg, evs);
    DroppedIsStored(cfg, evs);
    hide FpStored;
    if s.reader.Sent? && s.reader.out.Rewritten? {
      ArrayIsPairThenKept(s.reader.req.msgs, s.reader.out);
      hide PairThenKept;
      hide ArrayOf;
      hide Pick;
      var n :| n in Summaries.Returned(evs) && n.summary == s.reader.out.user && n.id in s.saved;
    }
  }

  // ---- What a row shows ----

  /** The text is that of message j on its own, or the rendering of the whole tool run that j is in. */
  ghost predicate Shows(text: string, ms: seq<Message>, j: nat) {
    && j < |ms|
    && (text == TextOf(ms[j].content) || exists lo: nat, hi: nat :: RunOf(ms, lo, j, hi) && text == RunRaw(ms[lo..hi]))
  }

  ghost predicate RunOf(ms: seq<Message>, lo: nat, j: nat, hi: nat) { lo <= j < hi && Views.RunAt(ms, lo, hi) }

  /** Messages of one request of the session, in order. */
  ghost predicate SelectedFrom(s: Sys, sid: string, req: Request, idx: seq<nat>) {
    req in s.log && req.sid == sid && Ascending(idx, |req.msgs|)
  }

  /** Row k of the node shows message j of the selection. */
  ghost predicate RowShows(s: Sys, sid: string, id: string, k: nat, req: Request, idx: seq<nat>, j: nat) {
    && id in s.saved && id in s.raw && k < |s.raw[id]|
    && SelectedFrom(s, sid, req, idx)
    && Shows(s.raw[id][k].text, Pick(req.msgs, idx), j)
  }

  /** Some row of the session shows a message with this fingerprint. */
  ghost predicate FpShown(h: Hash, s: Sys, sid: string, fp: string) {
    exists id, k, req, idx, j ::
      RowShows(s, sid, id, k, req, idx, j) && HasFp(h, Pick(req.msgs, idx), j, fp)
  }

  ghost predicate HasFp(h: Hash, ms: seq<Message>, j: nat, fp: string) { j < |ms| && Fp(h, ms[j]) == fp }

  lemma {:induction false} StandsShows(h: Hash, e: L1, ms: seq<Message>, lo: nat, j: nat, hi: nat)
    requires lo <= j < hi <= |ms| && Views.StandsFor(h, e, ms, lo, hi)
    ensures Shows(e.raw, ms, j)
  {
    hide KindOf;
    hide RunPreview;
    hide RunRaw;
    hide TextOf;
    hide Visible;
    if Views.RunAt(ms, lo, hi) && e == BundleEntry(h, ms[lo..hi]) { assert RunOf(ms, lo, j, hi); }
  }

  lemma {:induction false} KeysShorter(h: Hash, ms: seq<Message>, idx: seq<nat>)
    requires Ascending(idx, |Heads(PerMessage(h, ms))|)
    ensures Ascending(idx, |ms|)
  {
    HeadsAre(h, ms);
    hide Heads;
    hide PerMessage;
  }

  /** What is stored is shown: the row of an entry has the text of a message with the fingerprint, or the
      rendering of its tool run. What the rendering keeps of a run is its calls, with 300 characters of input,
      and its results. */
  lemma {:induction false} StoredIsShown(h: Hash, ack: string, minL1: int, s: Sys, sid: string, fp: string)
    requires FpStored(RealConfig(h, ack, minL1), s, sid, fp)
    ensures FpShown(h, s, sid, fp)
  {
    hide RowOf;
    hide RealConfig;
    var cfg := RealConfig(h, ack, minL1);
    var id, req, idx: seq<nat>, k: nat :| RowOf(cfg, s, sid, fp, id, req, idx, k);
    hide *;
    var sel := Pick(req.msgs, idx);
    RowFacts(h, ack, minL1, s, sid, fp, id, req, idx, k);
    var lo, hi := Views.EntryStands(h, sel, k);
    var j := Views.EntryFpIs(h, Bundled(h, sel)[k], sel, lo, hi, fp);
    StandsShows(h, Bundled(h, sel)[k], sel, lo, j, hi);
    MakeShown(h, s, sid, fp, id, k, req, idx, j);
  }

  lemma {:induction false} RowFacts(h: Hash, ack: string, minL1: int, s: Sys, sid: string, fp: string,
                                    id: string, req: Request, idx: seq<nat>, k: nat)
    requires RowOf(RealConfig(h, ack, minL1), s, sid, fp, id, req, idx, k)
    ensures var e := Bundled(h, Pick(req.msgs, idx));
      && k < |e| && fp in e[k].fps
      && id in s.saved && id in s.raw && k < |s.raw[id]| && s.raw[id][k].text == e[k].raw
      && SelectedFrom(s, sid, req, idx)
  {
    var sel := Pick(req.msgs, idx);
    RealViews(h, ack, minL1, req.msgs, sel);
    KeysShorter(h, req.msgs, idx);
    RowText(h, ack, minL1, Bundled(h, sel), k);
    hide RealConfig;
    hide Bundled;
    hide PerMessage;
    hide Heads;
    hide Pick;
  }

  lemma {:induction false} MakeShown(h: Hash, s: Sys, sid: string, fp: string, id: string, k: nat,
                                     req: Request, idx: seq<nat>, j: nat)
    requires id in s.saved && id in s.raw && k < |s.raw[id]| && SelectedFrom(s, sid, req, idx)
    requires var sel := Pick(req.msgs, idx);
      j < |sel| && Shows(s.raw[id][k].text, sel, j) && Fp(h, sel[j]) == fp
    ensures FpShown(h, s, sid, fp)
  {
    hide Shows;
    hide Fp;
    hide Pick;
    assert RowShows(s, sid, id, k, req, idx, j) && HasFp(h, Pick(req.msgs, idx), j, fp);
  }

  lemma {:induction false} RowText(h: Hash, ack: string, minL1: int, buffer: seq<L1>, k: nat)
    requires k < |buffer|
    ensures Tier3(RealConfig(h, ack, minL1), buffer)[k].text == buffer[k].raw
  {
    hide RoleOf;
  }

  // ---- The outgoing array, for transcripts ----

  /** What the request path sends, in any reachable state: the request as it came, or a complete summary
      pair followed by messages of the request, a suffix unless an absorption tore the scan. Every message
      left out is in a selection of messages of its session whose entries are the rows of a saved node. If every
      request pairs its tool calls with their results, no result goes out without its call, and what is sent is
      paired unless an absorption parted a kept call from its result. */
  lemma {:induction false} SentIsSafe(cfg: Config, tr: Transcripts, s: Sys)
    requires World(cfg, tr) && Reaches(cfg, INIT, s) && FromLog(tr, s) && s.reader.Sent?
    ensures var r := s.reader;
      && (r.out.Rewritten? ==> r.out.user != "" && r.out.asst != "" && (IsSuffix(r.req.msgs, r.out.kept) <==> !r.torn))
      && (forall i: nat :: i < |r.req.msgs| ==>
            r.out.Untouched? || r.req.msgs[i] in r.out.kept || Stored(cfg, tr, s, r.req.sid, i))
      && ((forall req :: req in s.log ==> Paired(req.msgs)) ==>
            && ResultsCalled(ArrayOf(r.req.msgs, r.out))
            && (Paired(ArrayOf(r.req.msgs, r.out)) <==> !r.parted) && (r.parted ==> r.torn))
  {
    var r := s.reader;
    var evs :| Legal(cfg, evs, INIT) && Run(cfg, evs, INIT) == s;
    RunFromLog(cfg, tr, evs);
    hide *;
    OutgoingIsSuffixUnlessTorn(cfg, tr, evs);
    forall i: nat | i < |r.req.msgs|
      ensures r.out.Untouched? || r.req.msgs[i] in r.out.kept || Stored(cfg, tr, s, r.req.sid, i)
    {
      NothingLost(cfg, tr, evs, i);
    }
    if forall req :: req in s.log ==> Paired(req.msgs) { PairedUnlessParted(cfg, tr, evs); }
  }

  /** No blank message, no two with one fingerprint, in any session. */
  ghost predicate Clean(h: Hash, tr: Transcripts) {
    forall sid :: AllVisible(tr(sid)) && Distinct(Fps(h, tr(sid)))
  }

  /** For the proxy's own views these hypotheses are exactly that the transcripts are clean. */
  lemma {:induction false} CleanIffWorld(h: Hash, ack: string, minL1: int, tr: Transcripts)
    ensures Clean(h, tr) <==> World(RealConfig(h, ack, minL1), tr)
  {
    var cfg := RealConfig(h, ack, minL1);
    forall sid ensures Faithful(cfg, tr(sid)) <==> AllVisible(tr(sid)) && Distinct(Fps(h, tr(sid))) {
      FaithfulIff(h, ack, minL1, tr(sid));
    }
    hide Faithful;
    hide AllVisible;
    hide Distinct;
  }

  /** The message itself is shown by a row. */
  ghost predicate MessageShown(s: Sys, sid: string, m: Message) {
    exists id, k, req, idx, j ::
      RowShows(s, sid, id, k, req, idx, j) && IsAt(Pick(req.msgs, idx), j, m)
  }

  ghost predicate IsAt(ms: seq<Message>, j: nat, m: Message) { j < |ms| && ms[j] == m }

  lemma {:induction false} SameFpSameMessage(h: Hash, tr: seq<Message>, i: nat, req: Request, idx: seq<nat>, j: nat)
    requires Distinct(Fps(h, tr)) && i < |tr| && req.msgs <= tr && Ascending(idx, |req.msgs|)
    requires HasFp(h, Pick(req.msgs, idx), j, Fp(h, tr[i]))
    ensures IsAt(Pick(req.msgs, idx), j, tr[i])
  {
    hide Fp;
    hide Pick;
    PickAscending(req.msgs, idx);
    var k := idx[j];
    assert Pick(req.msgs, idx)[j] == tr[k];
    var fps := Fps(h, tr);
    assert fps[k] == fps[i];
    hide Fps;
    assert k == i;
  }

  lemma {:induction false} ShownMessage(h: Hash, tr: Transcripts, s: Sys, sid: string, i: nat)
    requires Clean(h, tr) && FromLog(tr, s) && i < |tr(sid)| && FpShown(h, s, sid, Fp(h, tr(sid)[i]))
    ensures MessageShown(s, sid, tr(sid)[i])
  {
    var fp := Fp(h, tr(sid)[i]);
    hide Fp;
    hide AllVisible;
    var id, k, req, idx, j :| RowShows(s, sid, id, k, req, idx, j) && HasFp(h, Pick(req.msgs, idx), j, fp);
    SameFpSameMessage(h, tr(sid), i, req, idx, j);
  }

  /** For the proxy's own views and clean transcripts: every message of a rewritten request goes out, or a row
      of a saved node shows it. */
  lemma {:induction false} LeftOutIsShown(h: Hash, ack: string, minL1: int, tr: Transcripts, s: Sys, i: nat)
    requires Clean(h, tr) && Reaches(RealConfig(h, ack, minL1), INIT, s) && FromLog(tr, s)
    requires s.reader.Sent? && i < |s.reader.req.msgs|
    ensures var r := s.reader;
      r.out.Untouched? || r.req.msgs[i] in r.out.kept || MessageShown(s, r.req.sid, r.req.msgs[i])
  {
    var cfg, r := RealConfig(h, ack, minL1), s.reader;
    if r.out.Rewritten? {
      DroppedKeysStored(cfg, s);
      ReaderLogged(cfg, s);
      CleanKeys(h, tr(r.req.sid), r.req);
      RealViews(h, ack, minL1, r.req.msgs, []);
      hide *;
      if i in r.kept {
        PickedAt(r.req.msgs, r.kept, i);
      } else {
        StoredIsShown(h, ack, minL1, s, r.req.sid, cfg.keys(r.req.msgs)[i]);
        ShownMessage(h, tr, s, r.req.sid, i);
      }
    }
  }

  lemma {:induction false} ReaderLogged(cfg: Config, s: Sys)
    requires Reaches(cfg, INIT, s) && !s.reader.Idle?
    ensures s.reader.req in s.log
  {
    var evs :| Legal(cfg, evs, INIT) && Run(cfg, evs, INIT) == s;
    StoringAlways(cfg, evs, INIT);
  }

  lemma {:induction false} PickedAt(ms: seq<Message>, kept: seq<nat>, i: nat)
    requires Ascending(kept, |ms|) && i in kept
    ensures i < |ms| && ms[i] in Pick(ms, kept)
  {
    PickAscending(ms, kept);
    var j: nat :| j < |kept| && kept[j] == i;
    assert Pick(ms, kept)[j] == ms[i];
  }

  lemma {:induction false} CleanKeys(h: Hash, tr: seq<Message>, req: Request)
    requires AllVisible(tr) && req.msgs <= tr
    ensures Heads(PerMessage(h, req.msgs)) == Fps(h, req.msgs)
    ensures forall i :: 0 <= i < |req.msgs| ==> req.msgs[i] == tr[i] && Fps(h, req.msgs)[i] == Fp(h, tr[i])
  {
    assert req.msgs == tr[..|req.msgs|];
    VisiblePart(tr, |req.msgs|);
    HeadsAre(h, req.msgs);
    hide AllVisible;
    hide Fp;
  }
}
