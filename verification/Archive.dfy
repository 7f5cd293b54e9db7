// Nothing is dropped before it is stored, and nothing is dropped without a summary in its place. All of
// this holds of every legal run, whatever the requests carry.
module Archive {
  import opened Sequences
  import opened Messages
  import opened Machine
  import opened Coverage
  import Slots

  /** The buffer of every job is the bundled view of some messages of a request of its session. */
  ghost predicate ViewOf(cfg: Config, s: Sys, sid: string, buffer: seq<L1>, req: Request, idx: seq<nat>) {
    && req in s.log && req.sid == sid
    && Ascending(idx, |cfg.keys(req.msgs)|) && buffer == cfg.bundled(Pick(req.msgs, idx))
  }

  ghost predicate FromRequest(cfg: Config, s: Sys, job: Job) {
    exists req, idx :: ViewOf(cfg, s, job.sid, job.buffer, req, idx)
  }

  /** Row k of a saved node is the row of an entry that carries the fingerprint; the rows of the node are,
      in order, those of the bundled view of messages of one request of the session. */
  ghost predicate RowOf(cfg: Config, s: Sys, sid: string, fp: string, id: string, req: Request, idx: seq<nat>, k: nat) {
    var buffer := cfg.bundled(Pick(req.msgs, idx));
    && id in s.saved && id in s.raw
    && ViewOf(cfg, s, sid, buffer, req, idx)
    && s.raw[id] == Tier3(cfg, buffer)
    && k < |buffer| && fp in buffer[k].fps
  }

  ghost predicate FpStored(cfg: Config, s: Sys, sid: string, fp: string) {
    exists id, req, idx, k :: RowOf(cfg, s, sid, fp, id, req, idx, k)
  }

  ghost predicate AbsorbedStored(cfg: Config, s: Sys) {
    forall sid, fp :: fp in Sess(s, sid).absorbed ==> FpStored(cfg, s, sid, fp)
  }

  predicate Offering(r: Reader) { r.CheckFlight? || r.CheckQueued? || r.Mark? || r.Put? }

  ghost predicate JobsFrom(cfg: Config, s: Sys) {
    && (forall i :: 0 <= i < |s.queue| ==> FromRequest(cfg, s, s.queue[i]))
    && (!s.worker.Waiting? ==> FromRequest(cfg, s, s.worker.job))
    && (Offering(s.reader) ==> FromRequest(cfg, s, s.reader.job))
  }

  /** Of the first k keys of a request, those not kept are absorbed. */
  ghost predicate Unkept(cfg: Config, s: Sys, req: Request, kept: seq<nat>, k: nat) {
    && k <= |cfg.keys(req.msgs)| && Ascending(kept, k)
    && forall i: nat :: i < k ==> i in kept || cfg.keys(req.msgs)[i] in Sess(s, req.sid).absorbed
  }

  ghost predicate ScansRight(cfg: Config, s: Sys) {
    var r := s.reader;
    && (!r.Idle? ==> r.req in s.log)
    && (r.ScanBuffer? ==> r.k <= |cfg.keys(r.req.msgs)| && Ascending(r.picked, r.k))
    && (r.ScanKept? ==> Unkept(cfg, s, r.req, r.kept, r.k))
    && ((r.ReadUser? || r.ReadAsst? || (r.Sent? && r.out.Rewritten?)) ==>
          Unkept(cfg, s, r.req, r.kept, |cfg.keys(r.req.msgs)|))
    && (r.Sent? && r.out.Rewritten? ==> r.out.kept == Pick(r.req.msgs, r.kept))
  }

  /** What the worker has stored so far of the job it is compacting. */
  ghost predicate WorkerStored(cfg: Config, s: Sys) {
    var w := s.worker;
    && (w.SaveNode? || w.SaveRaw? ==> w.node.id !in s.raw)
    && (w.SaveRaw? || w.Linking? || w.ClearFlight? || w.Absorb? ==> w.node.id in s.saved)
    && ((w.Linking? || w.ClearFlight? || w.Absorb?) && w.job.buffer != [] ==>
          w.node.id in s.raw && s.raw[w.node.id] == Tier3(cfg, w.job.buffer))
  }

  /** A step that only adds rows of nodes that had none. */
  ghost predicate StoreGrows(s: Sys, t: Sys) {
    && s.saved <= t.saved
    && (forall id :: id in s.raw ==> id in t.raw && t.raw[id] == s.raw[id])
  }

  lemma {:induction false} StoreStep(cfg: Config, s: Sys, e: Event)
    requires Enabled(s, e) && WorkerStored(cfg, s)
    ensures StoreGrows(s, Apply(cfg, s, e)) && WorkerStored(cfg, Apply(cfg, s, e))
  {
    hide ReaderNext;
    hide WorkerNext;
    if e.ReaderStep? { ReaderStores(cfg, s); }
    if e.WorkerStep? { WorkerStores(cfg, s); }
  }

  lemma {:induction false} ReaderStores(cfg: Config, s: Sys)
    requires !s.reader.Idle?
    ensures var t := ReaderNext(cfg, s); t.saved == s.saved && t.raw == s.raw && t.worker == s.worker
  {
    hide Pick;
  }

  lemma {:induction false} WorkerStores(cfg: Config, s: Sys)
    requires Deterministic(s.worker) && WorkerStored(cfg, s)
    ensures StoreGrows(s, WorkerNext(cfg, s)) && WorkerStored(cfg, WorkerNext(cfg, s))
  {
    hide WorkerNext;
    if Writes(s.worker) { WritingStores(cfg, s); } else { StoreIdle(cfg, s); }
  }

  lemma {:induction false} WritingStores(cfg: Config, s: Sys)
    requires Writes(s.worker) && WorkerStored(cfg, s)
    ensures StoreGrows(s, WorkerNext(cfg, s)) && WorkerStored(cfg, WorkerNext(cfg, s))
  {
    hide Tier3;
  }

  lemma {:induction false} StoreIdle(cfg: Config, s: Sys)
    requires Deterministic(s.worker) && !Writes(s.worker)
    ensures var w, t := s.worker, WorkerNext(cfg, s);
      && t.saved == s.saved && t.raw == s.raw && !Writes(t.worker) && !t.worker.ClearFlight?
      && (t.worker.Absorb? ==> w.ClearFlight? && t.worker.node == w.node && t.worker.job == w.job)
  {
    hide Elems;
    hide AllFps;
    hide TornBy;
  }

  lemma {:induction false} OnlyAbsorbAbsorbs(cfg: Config, s: Sys, e: Event)
    requires Enabled(s, e) && !(e.WorkerStep? && s.worker.Absorb?)
    ensures Keeps(s, Apply(cfg, s, e))
  {
    hide Tier3;
    hide Elems;
  }

  lemma {:induction false} LogStep(cfg: Config, s: Sys, e: Event)
    requires Enabled(s, e)
    ensures Apply(cfg, s, e).log == s.log + if e.Arrive? then [e.req] else []
  {
    hide Tier3;
    hide Elems;
    hide AllFps;
    hide Pick;
  }

  // ---- Where jobs come from ----

  lemma {:induction false} FromGrows(cfg: Config, s: Sys, t: Sys, job: Job)
    requires Grows(s, t) && FromRequest(cfg, s, job)
    ensures FromRequest(cfg, t, job)
  {
    var req, idx :| ViewOf(cfg, s, job.sid, job.buffer, req, idx);
    assert ViewOf(cfg, t, job.sid, job.buffer, req, idx);
  }

  /** The finished first scan makes a job from its request. */
  lemma {:induction false} ScanMakesJob(cfg: Config, s: Sys)
    requires s.reader.ScanBuffer? && ScansRight(cfg, s) && Offering(ReaderNext(cfg, s).reader)
    ensures FromRequest(cfg, ReaderNext(cfg, s), ReaderNext(cfg, s).reader.job)
  {
    var r, t := s.reader, ReaderNext(cfg, s);
    assert ViewOf(cfg, t, r.req.sid, t.reader.job.buffer, r.req, r.picked);
  }

  lemma {:induction false} JobsFromReader(cfg: Config, s: Sys)
    requires !s.reader.Idle? && ScansRight(cfg, s) && JobsFrom(cfg, s)
    ensures JobsFrom(cfg, ReaderNext(cfg, s))
  {
    var t := ReaderNext(cfg, s);
    ReaderEffects(cfg, s);
    if s.reader.ScanBuffer? && Offering(t.reader) { ScanMakesJob(cfg, s); }
    assert Offering(t.reader) && !s.reader.ScanBuffer? ==> Offering(s.reader) && t.reader.job == s.reader.job;
    assert s.reader.Put? ==> Offering(s.reader);
    hide ReaderNext;
    hide FromRequest;
    forall i | 0 <= i < |t.queue| ensures FromRequest(cfg, t, t.queue[i]) { FromGrows(cfg, s, t, t.queue[i]); }
    if !t.worker.Waiting? { FromGrows(cfg, s, t, t.worker.job); }
    if Offering(t.reader) && !s.reader.ScanBuffer? { FromGrows(cfg, s, t, t.reader.job); }
  }

  /** What the steps of the other kinds do to the jobs. */
  lemma {:induction false} OtherJobs(cfg: Config, s: Sys, e: Event)
    requires Enabled(s, e) && !e.ReaderStep?
    ensures var t := Apply(cfg, s, e);
      && (forall i :: 0 <= i < |t.queue| ==> t.queue[i] in s.queue)
      && (!t.worker.Waiting? ==> (!s.worker.Waiting? && t.worker.job == s.worker.job) || t.worker.job in s.queue)
      && (Offering(t.reader) ==> t.reader == s.reader)
  {
    hide Tier3;
    hide Elems;
    hide AllFps;
  }

  lemma {:induction false} StepGrows(cfg: Config, s: Sys, e: Event)
    requires Enabled(s, e) && (!s.worker.Waiting? ==> s.worker.job.sid in s.sessions)
    ensures Grows(s, Apply(cfg, s, e))
  {
    if e.WorkerStep? && s.worker.Absorb? { AbsorbEffects(cfg, s); } else { OnlyAbsorbAbsorbs(cfg, s, e); }
    hide Apply;
  }

  lemma {:induction false} JobsFromStep(cfg: Config, s: Sys, e: Event)
    requires Enabled(s, e) && Slots.Registered(s) && ScansRight(cfg, s) && JobsFrom(cfg, s)
    ensures JobsFrom(cfg, Apply(cfg, s, e))
  {
    if e.ReaderStep? {
      JobsFromReader(cfg, s);
    } else {
      var t := Apply(cfg, s, e);
      OtherJobs(cfg, s, e);
      StepGrows(cfg, s, e);
      hide Apply;
      hide FromRequest;
      forall i | 0 <= i < |t.queue| ensures FromRequest(cfg, t, t.queue[i]) { FromGrows(cfg, s, t, t.queue[i]); }
      if !t.worker.Waiting? { FromGrows(cfg, s, t, t.worker.job); }
      if Offering(t.reader) { FromGrows(cfg, s, t, t.reader.job); }
    }
  }

  // ---- What the scans drop ----

  lemma {:induction false} UnkeptGrows(cfg: Config, s: Sys, t: Sys, req: Request, kept: seq<nat>, k: nat)
    requires Grows(s, t) && Unkept(cfg, s, req, kept, k)
    ensures Unkept(cfg, t, req, kept, k)
  {}

  /** One position of the second scan. */
  lemma {:induction false} UnkeptStep(cfg: Config, s: Sys, req: Request, kept: seq<nat>, k: nat)
    requires Unkept(cfg, s, req, kept, k) && k < |cfg.keys(req.msgs)|
    ensures cfg.keys(req.msgs)[k] in Sess(s, req.sid).absorbed ==> Unkept(cfg, s, req, kept, k + 1)
    ensures Unkept(cfg, s, req, kept + [k], k + 1)
  {
    AscendingMore(kept, k);
    assert (kept + [k])[|kept|] == k;
    assert forall i: nat :: i < k && i in kept ==> i in kept + [k];
  }

  lemma {:induction false} ScanKeptRight(cfg: Config, s: Sys)
    requires s.reader.ScanKept? && ScansRight(cfg, s)
    ensures ScansRight(cfg, ReaderNext(cfg, s))
  {
    var r, t := s.reader, ReaderNext(cfg, s);
    hide Pick;
    ReaderEffects(cfg, s);
    if r.k < |cfg.keys(r.req.msgs)| { UnkeptStep(cfg, s, r.req, r.kept, r.k); }
    hide Unkept;
    UnkeptGrows(cfg, s, t, r.req, t.reader.kept, if t.reader.ScanKept? then t.reader.k else r.k);
  }

  lemma {:induction false} ScansReader(cfg: Config, s: Sys)
    requires !s.reader.Idle? && ScansRight(cfg, s)
    ensures ScansRight(cfg, ReaderNext(cfg, s))
  {
    var r, t := s.reader, ReaderNext(cfg, s);
    if r.ScanKept? {
      ScanKeptRight(cfg, s);
    } else {
      ReaderEffects(cfg, s);
      if r.ScanBuffer? { AscendingMore(r.picked, r.k); }
      UnkeptStarts(cfg, t, r.req);
      hide Pick;
      hide Unkept;
      hide Ascending;
      if r.ReadUser? || r.ReadAsst? { UnkeptGrows(cfg, s, t, r.req, r.kept, |cfg.keys(r.req.msgs)|); }
    }
  }

  lemma {:induction false} UnkeptStarts(cfg: Config, s: Sys, req: Request)
    ensures Unkept(cfg, s, req, [], 0)
  {}

  /** Steps that are not the request path's own leave its scan where it is. */
  lemma {:induction false} OtherScans(cfg: Config, s: Sys, e: Event)
    requires Enabled(s, e) && !e.ReaderStep? && !e.Arrive?
    ensures var r, r' := s.reader, Apply(cfg, s, e).reader;
      r' == r || (r.ScanKept? && r'.ScanKept? && r'.req == r.req && r'.k == r.k && r'.kept == r.kept)
  {
    hide Tier3;
    hide Elems;
    hide AllFps;
  }

  lemma {:induction false} ScansStep(cfg: Config, s: Sys, e: Event)
    requires Enabled(s, e) && Slots.Registered(s) && ScansRight(cfg, s)
    ensures ScansRight(cfg, Apply(cfg, s, e))
  {
    if e.ReaderStep? {
      ScansReader(cfg, s);
    } else if !e.Arrive? {
      var r, t := s.reader, Apply(cfg, s, e);
      OtherScans(cfg, s, e);
      StepGrows(cfg, s, e);
      hide Apply;
      hide Unkept;
      if r.ScanKept? { UnkeptGrows(cfg, s, t, r.req, r.kept, r.k); }
      if r.ReadUser? || r.ReadAsst? || (r.Sent? && r.out.Rewritten?) {
        UnkeptGrows(cfg, s, t, r.req, r.kept, |cfg.keys(r.req.msgs)|);
      }
    }
  }

  // ---- What is absorbed is stored ----

  lemma {:induction false} FpStoredGrows(cfg: Config, s: Sys, t: Sys, sid: string, fp: string)
    requires StoreGrows(s, t) && Grows(s, t) && FpStored(cfg, s, sid, fp)
    ensures FpStored(cfg, t, sid, fp)
  {
    var id, req, idx, k :| RowOf(cfg, s, sid, fp, id, req, idx, k);
    assert RowOf(cfg, t, sid, fp, id, req, idx, k);
  }

  lemma {:induction false} FpOfEntry(buffer: seq<L1>, fp: string) returns (k: nat)
    requires fp in AllFps(buffer)
    ensures k < |buffer| && fp in buffer[k].fps
  {
    if fp in buffer[0].fps {
      k := 0;
    } else {
      k := FpOfEntry(buffer[1..], fp);
      k := k + 1;
    }
  }

  /** What the absorbing step newly absorbs is in the buffer whose rows were just stored. */
  lemma {:induction false} NewlyAbsorbedStored(cfg: Config, s: Sys, t: Sys, fp: string)
    requires JobsFrom(cfg, s) && WorkerStored(cfg, s) && AbsorbsInto(cfg, s, t) && StoreGrows(s, t) && Grows(s, t)
    requires fp in Elems(AllFps(s.worker.job.buffer))
    ensures FpStored(cfg, t, s.worker.job.sid, fp)
  {
    var job, node := s.worker.job, s.worker.node;
    var k := FpOfEntry(job.buffer, fp);
    var req, idx :| ViewOf(cfg, s, job.sid, job.buffer, req, idx);
    assert RowOf(cfg, t, job.sid, fp, node.id, req, idx, k);
  }

  lemma {:induction false} AbsorbStores(cfg: Config, s: Sys, t: Sys)
    requires JobsFrom(cfg, s) && WorkerStored(cfg, s) && AbsorbedStored(cfg, s)
    requires AbsorbsInto(cfg, s, t) && StoreGrows(s, t) && Grows(s, t)
    ensures AbsorbedStored(cfg, t)
  {
    hide WorkerStored;
    hide JobsFrom;
    hide FpStored;
    forall sid, fp | fp in Sess(t, sid).absorbed ensures FpStored(cfg, t, sid, fp) {
      if fp in Sess(s, sid).absorbed { FpStoredGrows(cfg, s, t, sid, fp); } else { NewlyAbsorbedStored(cfg, s, t, fp); }
    }
  }

  lemma {:induction false} AbsorbedStoredStep(cfg: Config, s: Sys, e: Event)
    requires Enabled(s, e) && Slots.Registered(s) && JobsFrom(cfg, s) && WorkerStored(cfg, s) && AbsorbedStored(cfg, s)
    ensures AbsorbedStored(cfg, Apply(cfg, s, e))
  {
    var t := Apply(cfg, s, e);
    StoreStep(cfg, s, e);
    StepGrows(cfg, s, e);
    if e.WorkerStep? && s.worker.Absorb? {
      AbsorbEffects(cfg, s);
      AbsorbStores(cfg, s, t);
    } else {
      OnlyAbsorbAbsorbs(cfg, s, e);
      hide Apply;
      hide FpStored;
      forall sid, fp | fp in Sess(t, sid).absorbed ensures FpStored(cfg, t, sid, fp) {
        FpStoredGrows(cfg, s, t, sid, fp);
      }
    }
  }

  ghost predicate Storing(cfg: Config, s: Sys) {
    && Slots.Registered(s) && WorkerStored(cfg, s) && JobsFrom(cfg, s) && ScansRight(cfg, s) && AbsorbedStored(cfg, s)
  }

  lemma {:induction false} StoringAlways(cfg: Config, evs: seq<Event>, s: Sys)
    requires Legal(cfg, evs, s) && Storing(cfg, s)
    ensures Storing(cfg, Run(cfg, evs, s))
    decreases |evs|
  {
    if evs != [] {
      hide Apply;
      hide Enabled;
      Slots.RegisteredStep(cfg, s, evs[0]);
      StoreStep(cfg, s, evs[0]);
      JobsFromStep(cfg, s, evs[0]);
      ScansStep(cfg, s, evs[0]);
      AbsorbedStoredStep(cfg, s, evs[0]);
      hide Storing;
      assert Storing(cfg, Apply(cfg, s, evs[0]));
      StoringAlways(cfg, evs[1..], Apply(cfg, s, evs[0]));
    }
  }

  /** In every legal run, whatever the requests carry and wherever the worker failed, every absorbed
      fingerprint is in the tier-3 rows of a saved node. */
  lemma {:induction false} AbsorbedIsStored(cfg: Config, evs: seq<Event>, sid: string, fp: string)
    requires Legal(cfg, evs, INIT)
    ensures var s := Run(cfg, evs, INIT); fp in Sess(s, sid).absorbed ==> FpStored(cfg, s, sid, fp)
  {
    StoringAlways(cfg, evs, INIT);
    hide FpStored;
  }

  /** So a rewritten array keeps messages of the request in their order, and every position of the second
      scan that it does not keep has a key that is stored. */
  lemma {:induction false} DroppedIsStored(cfg: Config, evs: seq<Event>)
    requires Legal(cfg, evs, INIT)
    ensures var s := Run(cfg, evs, INIT);
      var r := s.reader;
      r.Sent? && r.out.Rewritten? ==>
        var keys := cfg.keys(r.req.msgs);
        && Ascending(r.kept, |keys|) && r.out.kept == Pick(r.req.msgs, r.kept)
        && forall i: nat :: i < |keys| ==> i in r.kept || FpStored(cfg, s, r.req.sid, keys[i])
  {
    StoringAlways(cfg, evs, INIT);
    hide FpStored;
  }

  // ---- Transcripts ----

  /** Message i of the session is in the tier-3 rows of a saved node: the rows of that node are, in
      order, the turns of the bundled view of a selection of messages that contains it. */
  ghost predicate StoredIn(cfg: Config, tr: Transcripts, s: Sys, sid: string, i: nat, id: string, idx: seq<nat>) {
    && id in s.saved && id in s.raw
    && Ascending(idx, |tr(sid)|) && i in idx
    && s.raw[id] == Tier3(cfg, cfg.bundled(Pick(tr(sid), idx)))
  }

  ghost predicate Stored(cfg: Config, tr: Transcripts, s: Sys, sid: string, i: nat) {
    exists id, idx :: StoredIn(cfg, tr, s, sid, i, id, idx)
  }

  lemma {:induction false} RowsCarry(cfg: Config, tr: seq<Message>, req: Request, idx: seq<nat>, k: nat, i: nat)
    requires Faithful(cfg, tr) && req.msgs <= tr && Ascending(idx, |req.msgs|) && i < |tr|
    requires var buffer := cfg.bundled(Pick(req.msgs, idx)); k < |buffer| && cfg.keys(tr)[i] in buffer[k].fps
    ensures Ascending(idx, |tr|) && Pick(req.msgs, idx) == Pick(tr, idx) && i in idx
  {
    var keys := cfg.keys(tr);
    assert req.msgs == tr[..|req.msgs|];
    PickPrefix(tr, |req.msgs|, idx);
    PickAscending(keys, idx);
    EntryFps(cfg.bundled(Pick(tr, idx)), k, keys[i]);
    assert keys[i] in Pick(keys, idx);
    var j: nat :| j < |idx| && Pick(keys, idx)[j] == keys[i];
    assert idx[j] == i;
  }

  lemma {:induction false} EntryFps(es: seq<L1>, k: nat, fp: string)
    requires k < |es| && fp in es[k].fps
    ensures fp in AllFps(es)
  {
    if k > 0 { EntryFps(es[1..], k - 1, fp); }
  }

  /** In a transcript that serves the protocol a stored key is its message's: the message is stored. */
  lemma {:induction false} KeyIsMessage(cfg: Config, tr: Transcripts, s: Sys, sid: string, i: nat)
    requires World(cfg, tr) && i < |Keys(cfg, tr, sid)| && (forall r :: r in s.log ==> r.msgs <= tr(r.sid))
    requires FpStored(cfg, s, sid, Keys(cfg, tr, sid)[i])
    ensures Stored(cfg, tr, s, sid, i)
  {
    var id, req, idx, k :| RowOf(cfg, s, sid, Keys(cfg, tr, sid)[i], id, req, idx, k);
    assert Faithful(cfg, tr(sid));
    KeysAre(cfg, tr, req);
    RowsCarry(cfg, tr(sid), req, idx, k, i);
    assert StoredIn(cfg, tr, s, sid, i, id, idx);
  }

  // ---- The summary pair ----

  predicate HasPair(s: Sys, sid: string) { Truthy(Sess(s, sid).user) && Truthy(Sess(s, sid).asst) }

  /** The worker writes only non-empty texts, and the request path drops messages only after it has
      seen both halves of a pair; the halves are never taken away. */
  ghost predicate PairRight(cfg: Config, s: Sys) {
    var r, w := s.reader, s.worker;
    && ((w.Absorb? || w.SetUser? || w.SetAsst?) ==> w.node.summary != "" && cfg.ack != "")
    && (r.TestAsst? ==> Truthy(Sess(s, r.req.sid).user))
    && ((r.ScanKept? || r.ReadUser? || r.ReadAsst?) ==> HasPair(s, r.req.sid))
    && (r.ReadAsst? ==> r.user != "")
    && (r.Sent? && r.out.Rewritten? ==> r.out.user != "" && r.out.asst != "")
  }

  lemma {:induction false} PairReader(cfg: Config, s: Sys)
    requires !s.reader.Idle? && PairRight(cfg, s)
    ensures PairRight(cfg, ReaderNext(cfg, s))
  {}

  lemma {:induction false} PairWorker(cfg: Config, s: Sys)
    requires Deterministic(s.worker) && PairRight(cfg, s)
    ensures PairRight(cfg, WorkerNext(cfg, s))
  {
    hide WorkerNext;
    if Writes(s.worker) { Slots.WritingStep(cfg, s); } else { PairOtherStage(cfg, s); }
  }

  lemma {:induction false} PairOtherStage(cfg: Config, s: Sys)
    requires Deterministic(s.worker) && PairRight(cfg, s) && !Writes(s.worker)
    ensures PairRight(cfg, WorkerNext(cfg, s))
  {
    hide WorkerNext;
    hide Sess;
    hide Truthy;
    Slots.FlagStep(cfg, s);
    NodeGoesOn(cfg, s);
    if !s.reader.Idle? { HalvesStay(cfg, s, s.reader.req.sid); }
  }

  lemma {:induction false} NodeGoesOn(cfg: Config, s: Sys)
    requires Deterministic(s.worker)
    ensures var w, w' := s.worker, WorkerNext(cfg, s).worker;
      && (w'.Absorb? ==> w'.node.summary != "" && cfg.ack != "")
      && (w'.SetUser? || w'.SetAsst? ==> (w.Absorb? || w.SetUser?) && w'.node == w.node)
  {
    hide Elems;
    hide AllFps;
    hide TornBy;
    hide Sess;
    hide WithSession;
  }

  lemma {:induction false} HalvesStay(cfg: Config, s: Sys, sid: string)
    requires Deterministic(s.worker) && PairRight(cfg, s)
    ensures var x, y := Sess(s, sid), Sess(WorkerNext(cfg, s), sid);
      (Truthy(x.user) ==> Truthy(y.user)) && (Truthy(x.asst) ==> Truthy(y.asst))
  {
    hide Elems;
    hide AllFps;
    hide TornBy;
  }

  lemma {:induction false} PairStep(cfg: Config, s: Sys, e: Event)
    requires Enabled(s, e) && PairRight(cfg, s)
    ensures PairRight(cfg, Apply(cfg, s, e))
  {
    hide ReaderNext;
    hide WorkerNext;
    if e.ReaderStep? { PairReader(cfg, s); }
    if e.WorkerStep? { PairWorker(cfg, s); }
  }
}
