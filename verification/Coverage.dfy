// What the protocol absorbs and what it drops, over every run.
module Coverage {
  import opened Sequences
  import opened Messages
  import opened Machine
  import Slots

  /** The transcript of each session: every request of the session carries a prefix of it. */
  type Transcripts = string -> seq<Message>

  ghost predicate Ascending(idx: seq<nat>, n: nat) {
    && (forall i, j :: 0 <= i < j < |idx| ==> idx[i] < idx[j])
    && (forall i :: 0 <= i < |idx| ==> idx[i] < n)
  }

  /** What the protocol needs of a transcript: one key per message, no key twice, and the bundled
      view of any selection of messages carrying exactly their keys. */
  ghost predicate Faithful(cfg: Config, tr: seq<Message>) {
    var keys := cfg.keys(tr);
    && |keys| == |tr|
    && Distinct(keys)
    && (forall n :: 0 <= n <= |tr| ==> cfg.keys(tr[..n]) == keys[..n])
    && (forall idx :: Ascending(idx, |tr|) ==> AllFps(cfg.bundled(Pick(tr, idx))) == Pick(keys, idx))
  }

  ghost predicate World(cfg: Config, tr: Transcripts) { forall sid :: Faithful(cfg, tr(sid)) }

  function Keys(cfg: Config, tr: Transcripts, sid: string): seq<string> { cfg.keys(tr(sid)) }

  /** The first n messages of the transcript were the whole list of some request (or n is 0). */
  ghost predicate CutAt(s: Sys, tr: Transcripts, sid: string, n: nat) {
    n <= |tr(sid)| && (n == 0 || Request(sid, tr(sid)[..n]) in s.log)
  }

  ghost predicate AbsorbedUpTo(cfg: Config, tr: Transcripts, s: Sys, sid: string, n: nat) {
    && CutAt(s, tr, sid, n) && n <= |Keys(cfg, tr, sid)|
    && Sess(s, sid).absorbed == Elems(Keys(cfg, tr, sid)[..n])
  }

  /** What a session has absorbed is exactly a request's whole message list. */
  ghost predicate AbsorbedRequest(cfg: Config, tr: Transcripts, s: Sys, sid: string) {
    exists n :: AbsorbedUpTo(cfg, tr, s, sid, n)
  }

  ghost predicate AbsorbedRight(cfg: Config, tr: Transcripts, s: Sys) {
    forall sid :: AbsorbedRequest(cfg, tr, s, sid)
  }

  ghost predicate IsAbsorbed(cfg: Config, tr: Transcripts, s: Sys, sid: string, i: nat) {
    i < |Keys(cfg, tr, sid)| && Keys(cfg, tr, sid)[i] in Sess(s, sid).absorbed
  }

  /** Of the first k messages, those not chosen are absorbed. */
  ghost predicate Rest(cfg: Config, tr: Transcripts, s: Sys, sid: string, chosen: seq<nat>, k: nat) {
    && k <= |Keys(cfg, tr, sid)|
    && Ascending(chosen, k)
    && (forall i: nat :: i < k ==> i in chosen || IsAbsorbed(cfg, tr, s, sid, i))
  }

  /** The buffer holds the chosen messages of a request of n messages; its other messages are absorbed. */
  ghost predicate Covers(cfg: Config, tr: Transcripts, s: Sys, job: Job, idx: seq<nat>, n: nat) {
    && CutAt(s, tr, job.sid, n)
    && Rest(cfg, tr, s, job.sid, idx, n)
    && job.buffer == cfg.bundled(Pick(tr(job.sid), idx))
  }

  ghost predicate JobOk(cfg: Config, tr: Transcripts, s: Sys, job: Job) {
    exists idx, n :: Covers(cfg, tr, s, job, idx, n)
  }

  /** The kept messages reach without a gap up to position k. */
  ghost predicate Solid(kept: seq<nat>, k: nat) {
    kept != [] ==> forall j: nat :: kept[0] <= j < k ==> j in kept
  }

  /** The scan for the outgoing array, before position k. */
  ghost predicate Scan(cfg: Config, tr: Transcripts, s: Sys, req: Request, k: nat, kept: seq<nat>, torn: bool) {
    && k <= |req.msgs|
    && Rest(cfg, tr, s, req.sid, kept, k)
    && (!torn ==> Solid(kept, k))
    && (!torn && kept != [] ==>
          CutAt(s, tr, req.sid, kept[0]) && (k < |req.msgs| ==> !IsAbsorbed(cfg, tr, s, req.sid, k)))
    && (torn ==> kept != [] && (!Solid(kept, k) || (k < |req.msgs| && IsAbsorbed(cfg, tr, s, req.sid, k))))
  }

  ghost predicate ReaderOk(cfg: Config, tr: Transcripts, s: Sys) {
    var r := s.reader;
    && (!r.Idle? ==> r.req in s.log && r.req.msgs <= tr(r.req.sid) && |r.req.msgs| <= |Keys(cfg, tr, r.req.sid)|)
    && (r.ScanBuffer? ==> r.k <= |r.req.msgs| && Rest(cfg, tr, s, r.req.sid, r.picked, r.k))
    && ((r.CheckFlight? || r.CheckQueued? || r.Mark? || r.Put?) ==> JobOk(cfg, tr, s, r.job))
    && (r.ScanKept? ==> Scan(cfg, tr, s, r.req, r.k, r.kept, r.torn))
    && ((r.ReadUser? || r.ReadAsst? || (r.Sent? && r.out.Rewritten?)) ==>
          Scan(cfg, tr, s, r.req, |r.req.msgs|, r.kept, r.torn))
    && (r.Sent? && r.out.Rewritten? ==> r.out.kept == Pick(r.req.msgs, r.kept))
    && (r.Sent? && r.out.Untouched? ==> !r.torn)
  }

  ghost predicate JobsOk(cfg: Config, tr: Transcripts, s: Sys) {
    && (forall i :: 0 <= i < |s.queue| ==> JobOk(cfg, tr, s, s.queue[i]))
    && (!s.worker.Waiting? ==> JobOk(cfg, tr, s, s.worker.job))
  }

  ghost predicate Covered(cfg: Config, tr: Transcripts, s: Sys) {
    AbsorbedRight(cfg, tr, s) && JobsOk(cfg, tr, s) && ReaderOk(cfg, tr, s)
  }

  // ---- Facts about selections ----

  lemma {:induction false} PickAscending<T>(xs: seq<T>, idx: seq<nat>)
    requires Ascending(idx, |xs|)
    ensures |Pick(xs, idx)| == |idx|
    ensures forall i :: 0 <= i < |idx| ==> Pick(xs, idx)[i] == xs[idx[i]]
  {
    if idx != [] {
      var init, last := idx[..|idx| - 1], idx[|idx| - 1];
      PickAscending(xs, init);
      assert Pick(xs, idx) == Pick(xs, init) + [xs[last]];
    }
  }

  lemma {:induction false} PickPrefix<T>(xs: seq<T>, n: nat, idx: seq<nat>)
    requires n <= |xs| && Ascending(idx, n)
    ensures Pick(xs[..n], idx) == Pick(xs, idx)
  {
    PickAscending(xs, idx);
    PickAscending(xs[..n], idx);
  }

  lemma {:induction false} KeysAre(cfg: Config, tr: Transcripts, req: Request)
    requires World(cfg, tr) && req.msgs <= tr(req.sid)
    ensures |cfg.keys(req.msgs)| == |req.msgs| <= |Keys(cfg, tr, req.sid)| == |tr(req.sid)|
    ensures forall i :: 0 <= i < |req.msgs| ==> cfg.keys(req.msgs)[i] == Keys(cfg, tr, req.sid)[i]
  {
    assert Faithful(cfg, tr(req.sid));
    assert req.msgs == tr(req.sid)[..|req.msgs|];
  }

  /** The absorbed messages are a prefix. */
  lemma {:induction false} AbsorbedIsPrefix(cfg: Config, tr: Transcripts, s: Sys, sid: string) returns (n: nat)
    requires World(cfg, tr) && AbsorbedRight(cfg, tr, s)
    ensures AbsorbedUpTo(cfg, tr, s, sid, n)
    ensures forall i: nat :: i < |Keys(cfg, tr, sid)| ==> (IsAbsorbed(cfg, tr, s, sid, i) <==> i < n)
  {
    assert AbsorbedRequest(cfg, tr, s, sid);
    n :| AbsorbedUpTo(cfg, tr, s, sid, n);
    var keys := Keys(cfg, tr, sid);
    assert Faithful(cfg, tr(sid));
    forall i: nat | i < |keys| ensures IsAbsorbed(cfg, tr, s, sid, i) <==> i < n {
      if i < n {
        assert keys[..n][i] == keys[i];
      } else {
        assert forall j: nat :: j < n ==> keys[..n][j] == keys[j] != keys[i];
      }
    }
  }

  // ---- Steps ----

  /** Requests are only added, and sessions only absorb more. */
  ghost predicate Grows(s: Sys, t: Sys) {
    && (forall r :: r in s.log ==> r in t.log)
    && (forall sid :: Sess(s, sid).absorbed <= Sess(t, sid).absorbed)
  }

  /** As Grows, with the absorbed sets unchanged. */
  ghost predicate Keeps(s: Sys, t: Sys) {
    && (forall r :: r in s.log ==> r in t.log)
    && (forall sid :: Sess(s, sid).absorbed == Sess(t, sid).absorbed)
  }

  lemma {:induction false} RestGrows(cfg: Config, tr: Transcripts, s: Sys, t: Sys, sid: string, chosen: seq<nat>,
                                     k: nat)
    requires Grows(s, t) && Rest(cfg, tr, s, sid, chosen, k)
    ensures Rest(cfg, tr, t, sid, chosen, k)
  {
    forall i: nat | i < k ensures i in chosen || IsAbsorbed(cfg, tr, t, sid, i) {
      assert i in chosen || IsAbsorbed(cfg, tr, s, sid, i);
    }
  }

  lemma {:induction false} JobOkGrows(cfg: Config, tr: Transcripts, s: Sys, t: Sys, job: Job)
    requires Grows(s, t) && JobOk(cfg, tr, s, job)
    ensures JobOk(cfg, tr, t, job)
  {
    var idx, n :| Covers(cfg, tr, s, job, idx, n);
    RestGrows(cfg, tr, s, t, job.sid, idx, n);
    assert Covers(cfg, tr, t, job, idx, n);
  }

  lemma {:induction false} AbsorbedKept(cfg: Config, tr: Transcripts, s: Sys, t: Sys)
    requires Keeps(s, t) && AbsorbedRight(cfg, tr, s)
    ensures AbsorbedRight(cfg, tr, t)
  {
    forall sid ensures AbsorbedRequest(cfg, tr, t, sid) {
      assert AbsorbedRequest(cfg, tr, s, sid);
      var n :| AbsorbedUpTo(cfg, tr, s, sid, n);
      assert AbsorbedUpTo(cfg, tr, t, sid, n);
    }
  }

  lemma {:induction false} ScanKeeps(cfg: Config, tr: Transcripts, s: Sys, t: Sys,
                                     req: Request, k: nat, kept: seq<nat>, torn: bool)
    requires Keeps(s, t) && Scan(cfg, tr, s, req, k, kept, torn)
    ensures Scan(cfg, tr, t, req, k, kept, torn)
  {
    RestGrows(cfg, tr, s, t, req.sid, kept, k);
  }

  /** A step that leaves the reader and the absorbed sets alone keeps what is known about the reader. */
  lemma {:induction false} ReaderKept(cfg: Config, tr: Transcripts, s: Sys, t: Sys)
    requires Keeps(s, t) && ReaderOk(cfg, tr, s) && t.reader == s.reader
    ensures ReaderOk(cfg, tr, t)
  {
    var r := s.reader;
    if r.ScanBuffer? { RestGrows(cfg, tr, s, t, r.req.sid, r.picked, r.k); }
    if r.CheckFlight? || r.CheckQueued? || r.Mark? || r.Put? { JobOkGrows(cfg, tr, s, t, r.job); }
    if r.ScanKept? { ScanKeeps(cfg, tr, s, t, r.req, r.k, r.kept, r.torn); }
    if r.ReadUser? || r.ReadAsst? || (r.Sent? && r.out.Rewritten?) {
      ScanKeeps(cfg, tr, s, t, r.req, |r.req.msgs|, r.kept, r.torn);
    }
  }

  lemma {:induction false} JobsKept(cfg: Config, tr: Transcripts, s: Sys, t: Sys)
    requires Grows(s, t) && JobsOk(cfg, tr, s)
    requires forall i :: 0 <= i < |t.queue| ==> t.queue[i] in s.queue || JobOk(cfg, tr, s, t.queue[i])
    requires !t.worker.Waiting? ==> (!s.worker.Waiting? && t.worker.job == s.worker.job) || t.worker.job in s.queue
    ensures JobsOk(cfg, tr, t)
  {
    forall i | 0 <= i < |t.queue| ensures JobOk(cfg, tr, t, t.queue[i]) {
      JobOkGrows(cfg, tr, s, t, t.queue[i]);
    }
    if !t.worker.Waiting? { JobOkGrows(cfg, tr, s, t, t.worker.job); }
  }

  // The two scans.

  lemma {:induction false} AscendingMore(idx: seq<nat>, k: nat)
    requires Ascending(idx, k)
    ensures Ascending(idx, k + 1) && Ascending(idx + [k], k + 1)
  {}

  /** One position of a scan: dropped because absorbed, or chosen. */
  lemma {:induction false} RestStep(cfg: Config, tr: Transcripts, s: Sys, sid: string, chosen: seq<nat>, k: nat)
    requires Rest(cfg, tr, s, sid, chosen, k) && k < |Keys(cfg, tr, sid)|
    ensures IsAbsorbed(cfg, tr, s, sid, k) ==> Rest(cfg, tr, s, sid, chosen, k + 1)
    ensures Rest(cfg, tr, s, sid, chosen + [k], k + 1)
  {
    AscendingMore(chosen, k);
    forall i: nat | i < k + 1 ensures i in chosen + [k] || IsAbsorbed(cfg, tr, s, sid, i) {
      if i < k { assert i in chosen || IsAbsorbed(cfg, tr, s, sid, i); } else { assert (chosen + [k])[|chosen|] == i; }
    }
  }

  lemma {:induction false} SolidSnoc(kept: seq<nat>, k: nat)
    requires Ascending(kept, k)
    ensures Solid(kept + [k], k + 1) <==> Solid(kept, k)
    ensures kept != [] ==> !Solid(kept, k + 1)
  {
    var more := kept + [k];
    assert more[|kept|] == k;
    if kept != [] {
      assert k !in kept;
      if Solid(more, k + 1) {
        forall j: nat | kept[0] <= j < k ensures j in kept {
          assert more[0] == kept[0] && j in more;
        }
      }
      if Solid(kept, k) {
        forall j: nat | more[0] <= j < k + 1 ensures j in more {}
      }
    }
  }

  /** The scan reaches an absorbed message and drops it. */
  lemma {:induction false} ScanDrops(cfg: Config, tr: Transcripts, s: Sys, req: Request, k: nat, kept: seq<nat>,
                                     torn: bool)
    requires Scan(cfg, tr, s, req, k, kept, torn) && k < |req.msgs| <= |Keys(cfg, tr, req.sid)|
    requires IsAbsorbed(cfg, tr, s, req.sid, k)
    ensures Scan(cfg, tr, s, req, k + 1, kept, torn)
  {
    RestStep(cfg, tr, s, req.sid, kept, k);
    SolidSnoc(kept, k);
  }

  /** The scan reaches an unabsorbed message and keeps it; the first one kept is where a request ended. */
  lemma {:induction false} ScanKeepsOne(cfg: Config, tr: Transcripts, s: Sys, req: Request, k: nat, kept: seq<nat>,
                                        torn: bool)
    requires World(cfg, tr) && AbsorbedRight(cfg, tr, s)
    requires Scan(cfg, tr, s, req, k, kept, torn) && k < |req.msgs| <= |Keys(cfg, tr, req.sid)|
    requires !IsAbsorbed(cfg, tr, s, req.sid, k)
    ensures Scan(cfg, tr, s, req, k + 1, kept + [k], torn)
  {
    RestStep(cfg, tr, s, req.sid, kept, k);
    SolidSnoc(kept, k);
    var n := AbsorbedIsPrefix(cfg, tr, s, req.sid);
    if kept == [] {
      if k > 0 { assert IsAbsorbed(cfg, tr, s, req.sid, k - 1); }
      assert n == k;
    }
    assert (kept + [k])[0] == if kept == [] then k else kept[0];
  }

  lemma {:induction false} ScanBufferStep(cfg: Config, tr: Transcripts, s: Sys)
    requires World(cfg, tr) && ReaderOk(cfg, tr, s) && s.reader.ScanBuffer?
    ensures ReaderOk(cfg, tr, ReaderNext(cfg, s))
  {
    var r := s.reader;
    var t := ReaderNext(cfg, s);
    KeysAre(cfg, tr, r.req);
    if r.k < |r.req.msgs| {
      RestStep(cfg, tr, s, r.req.sid, r.picked, r.k);
      RestGrows(cfg, tr, s, t, r.req.sid, t.reader.picked, r.k + 1);
    } else if t.reader.CheckFlight? {
      BufferCovers(cfg, tr, s, r.req, r.picked);
      JobOkGrows(cfg, tr, s, t, t.reader.job);
    }
  }

  /** The finished scan makes a job that covers the request. */
  lemma {:induction false} BufferCovers(cfg: Config, tr: Transcripts, s: Sys, req: Request, picked: seq<nat>)
    requires World(cfg, tr) && req in s.log && req.msgs <= tr(req.sid)
    requires Rest(cfg, tr, s, req.sid, picked, |req.msgs|)
    ensures JobOk(cfg, tr, s, Job(req.sid, cfg.bundled(Pick(req.msgs, picked))))
  {
    var n := |req.msgs|;
    assert req.msgs == tr(req.sid)[..n];
    PickPrefix(tr(req.sid), n, picked);
    assert req == Request(req.sid, tr(req.sid)[..n]);
    assert Covers(cfg, tr, s, Job(req.sid, cfg.bundled(Pick(req.msgs, picked))), picked, n);
  }

  /** One position of the second scan, or its end. */
  lemma {:induction false} ScanMoves(cfg: Config, tr: Transcripts, s: Sys)
    requires World(cfg, tr) && ReaderOk(cfg, tr, s) && s.reader.ScanKept?
    ensures var r, t := s.reader, ReaderNext(cfg, s);
      && r.req in s.log && r.req.msgs <= tr(r.req.sid)
      && r.k <= |r.req.msgs| <= |Keys(cfg, tr, r.req.sid)|
      && Scan(cfg, tr, s, r.req, r.k, r.kept, r.torn)
      && Rest(cfg, tr, s, r.req.sid, r.kept, r.k) && Ascending(r.kept, r.k)
      && Keeps(s, t) && Grows(s, t)
      && t.reader ==
         if r.k == |r.req.msgs| then ReadUser(r.req, r.kept, r.torn, r.parted)
         else
           ScanKept(r.req, r.k + 1, if IsAbsorbed(cfg, tr, s, r.req.sid, r.k) then r.kept else r.kept + [r.k],
                    r.torn, r.parted)
  {
    var r := s.reader;
    KeysAre(cfg, tr, r.req);
    ReaderEffects(cfg, s);
    assert Scan(cfg, tr, s, r.req, r.k, r.kept, r.torn);
    hide Pick;
  }

  lemma {:induction false} ScanKeptStep(cfg: Config, tr: Transcripts, s: Sys)
    requires World(cfg, tr) && AbsorbedRight(cfg, tr, s) && ReaderOk(cfg, tr, s) && s.reader.ScanKept?
    ensures ReaderOk(cfg, tr, ReaderNext(cfg, s))
  {
    hide *;
    var r, t := s.reader, ReaderNext(cfg, s);
    ScanMoves(cfg, tr, s);
    if r.k < |r.req.msgs| {
      if IsAbsorbed(cfg, tr, s, r.req.sid, r.k) {
        ScanDrops(cfg, tr, s, r.req, r.k, r.kept, r.torn);
      } else {
        ScanKeepsOne(cfg, tr, s, r.req, r.k, r.kept, r.torn);
      }
      ScanKeeps(cfg, tr, s, t, r.req, r.k + 1, t.reader.kept, r.torn);
    } else {
      ScanKeeps(cfg, tr, s, t, r.req, r.k, r.kept, r.torn);
    }
    StillLogged(s, t, r.req);
    ScanIsOk(cfg, tr, t);
  }

  lemma {:induction false} StillLogged(s: Sys, t: Sys, req: Request)
    requires Keeps(s, t) && req in s.log
    ensures req in t.log
  {}

  lemma {:induction false} ScanIsOk(cfg: Config, tr: Transcripts, s: Sys)
    requires s.reader.ScanKept? || s.reader.ReadUser?
    requires var r := s.reader;
      && r.req in s.log && r.req.msgs <= tr(r.req.sid) && |r.req.msgs| <= |Keys(cfg, tr, r.req.sid)|
      && Scan(cfg, tr, s, r.req, if r.ScanKept? then r.k else |r.req.msgs|, r.kept, r.torn)
    ensures ReaderOk(cfg, tr, s)
  {
    hide Scan;
  }

  lemma {:induction false} ScanStarts(cfg: Config, tr: Transcripts, s: Sys, req: Request)
    ensures Rest(cfg, tr, s, req.sid, [], 0) && Scan(cfg, tr, s, req, 0, [], false)
  {}

  lemma {:induction false} ReaderEffects(cfg: Config, s: Sys)
    requires !s.reader.Idle?
    ensures var t := ReaderNext(cfg, s);
      && Keeps(s, t) && t.log == s.log && t.worker == s.worker
      && t.queue == if s.reader.Put? then s.queue + [s.reader.job] else s.queue
  {}

  lemma {:induction false} ReaderStepOk(cfg: Config, tr: Transcripts, s: Sys)
    requires World(cfg, tr) && Covered(cfg, tr, s) && !s.reader.Idle?
    ensures ReaderOk(cfg, tr, ReaderNext(cfg, s))
  {
    var r := s.reader;
    var t := ReaderNext(cfg, s);
    ReaderEffects(cfg, s);
    if r.ScanBuffer? {
      ScanBufferStep(cfg, tr, s);
    } else if r.ScanKept? {
      ScanKeptStep(cfg, tr, s);
    } else if r.CheckFlight? || r.CheckQueued? || r.Mark? || r.Put? {
      JobOkGrows(cfg, tr, s, t, r.job);
    } else if r.TestAsst? {
      ScanStarts(cfg, tr, t, r.req);
    } else if r.ReadUser? || r.ReadAsst? {
      ScanKeeps(cfg, tr, s, t, r.req, |r.req.msgs|, r.kept, r.torn);
    }
  }

  lemma {:induction false} ReaderCovered(cfg: Config, tr: Transcripts, s: Sys)
    requires World(cfg, tr) && Covered(cfg, tr, s) && !s.reader.Idle?
    ensures Covered(cfg, tr, ReaderNext(cfg, s))
  {
    var t := ReaderNext(cfg, s);
    ReaderEffects(cfg, s);
    AbsorbedKept(cfg, tr, s, t);
    JobsKept(cfg, tr, s, t);
    ReaderStepOk(cfg, tr, s);
  }

  lemma {:induction false} ArriveCovered(cfg: Config, tr: Transcripts, s: Sys, req: Request)
    requires World(cfg, tr) && Covered(cfg, tr, s) && s.reader.Idle? && req.msgs <= tr(req.sid)
    ensures Covered(cfg, tr, Arrived(s, req))
  {
    var t := Arrived(s, req);
    assert Keeps(s, t);
    AbsorbedKept(cfg, tr, s, t);
    JobsKept(cfg, tr, s, t);
    KeysAre(cfg, tr, req);
    ScanStarts(cfg, tr, t, req);
  }

  // ---- The absorbing step ----

  /** The worker's update turns one absorbed prefix into another: the longer of the old one and the
      request that its job was made from. */
  lemma {:induction false} UnionIsPrefix(cfg: Config, tr: Transcripts, s: Sys, job: Job, m: nat, idx: seq<nat>, n: nat)
    requires World(cfg, tr) && AbsorbedUpTo(cfg, tr, s, job.sid, m) && Covers(cfg, tr, s, job, idx, n)
    ensures var keys := Keys(cfg, tr, job.sid);
      var top := if m < n then n else m;
      top <= |keys| && Sess(s, job.sid).absorbed + Elems(AllFps(job.buffer)) == Elems(keys[..top])
  {
    var sid, keys := job.sid, Keys(cfg, tr, job.sid);
    var top := if m < n then n else m;
    assert Faithful(cfg, tr(sid));
    assert AllFps(job.buffer) == Pick(keys, idx);
    PickAscending(keys, idx);
    var picked := Pick(keys, idx);
    forall x | x in keys[..top] ensures x in Sess(s, sid).absorbed || x in picked {
      var i: nat :| i < top && keys[..top][i] == x;
      if i < n {
        assert i in idx || IsAbsorbed(cfg, tr, s, sid, i);
        if i in idx { var j: nat :| j < |idx| && idx[j] == i; assert picked[j] == x; }
      } else {
        assert keys[..m][i] == x;
      }
    }
    forall x | x in picked ensures x in keys[..top] {
      var j: nat :| j < |picked| && picked[j] == x;
      assert keys[..top][idx[j]] == x;
    }
    forall x | x in keys[..m] ensures x in keys[..top] {
      var j: nat :| j < m && keys[..m][j] == x;
      assert keys[..top][j] == x;
    }
  }

  /** What the absorbing step does to the shared state. */
  ghost predicate AbsorbsInto(cfg: Config, s: Sys, t: Sys) {
    && s.worker.Absorb? && t.worker == SetUser(s.worker.job, s.worker.node)
    && s.worker.job.sid in s.sessions
    && t.log == s.log && t.queue == s.queue && t.saved == s.saved && t.raw == s.raw
    && var sid, before := s.worker.job.sid, Sess(s, s.worker.job.sid).absorbed;
       && Sess(t, sid).absorbed == before + Elems(AllFps(s.worker.job.buffer))
       && (forall other :: other != sid ==> Sess(t, other) == Sess(s, other))
       && t.reader == TornBy(cfg, s.reader, sid, before, Sess(t, sid).absorbed)
  }

  lemma {:induction false} AbsorbEffects(cfg: Config, s: Sys)
    requires s.worker.Absorb? && s.worker.job.sid in s.sessions
    ensures AbsorbsInto(cfg, s, WorkerNext(cfg, s)) && Grows(s, WorkerNext(cfg, s))
  {}

  lemma {:induction false} AbsorbKeepsPrefix(cfg: Config, tr: Transcripts, s: Sys, t: Sys)
    requires World(cfg, tr) && AbsorbedRight(cfg, tr, s) && JobsOk(cfg, tr, s) && AbsorbsInto(cfg, s, t)
    ensures AbsorbedRight(cfg, tr, t)
  {
    var job := s.worker.job;
    forall sid ensures AbsorbedRequest(cfg, tr, t, sid) {
      assert AbsorbedRequest(cfg, tr, s, sid);
      var m: nat :| AbsorbedUpTo(cfg, tr, s, sid, m);
      if sid == job.sid {
        assert JobOk(cfg, tr, s, job);
        var idx: seq<nat>, n: nat :| Covers(cfg, tr, s, job, idx, n);
        UnionIsPrefix(cfg, tr, s, job, m, idx, n);
        assert AbsorbedUpTo(cfg, tr, t, sid, if m < n then n else m);
      } else {
        assert AbsorbedUpTo(cfg, tr, t, sid, m);
      }
    }
  }

  /** The scan under way when the worker absorbs: marked torn exactly when it will now drop a message
      after having kept an earlier one. */
  lemma {:induction false} AbsorbDuringScan(cfg: Config, tr: Transcripts, s: Sys, t: Sys)
    requires World(cfg, tr) && AbsorbsInto(cfg, s, t) && Grows(s, t)
    requires s.reader.ScanKept? && s.reader.req.msgs <= tr(s.reader.req.sid)
    requires var r := s.reader; Scan(cfg, tr, s, r.req, r.k, r.kept, r.torn)
    ensures t.reader.ScanKept? && t.reader.req == s.reader.req
    ensures t.reader.k == s.reader.k && t.reader.kept == s.reader.kept
    ensures var r := t.reader; Scan(cfg, tr, t, r.req, r.k, r.kept, r.torn)
  {
    var r := s.reader;
    KeysAre(cfg, tr, r.req);
    RestGrows(cfg, tr, s, t, r.req.sid, r.kept, r.k);
  }

  lemma {:induction false} FinishedScanGrows(cfg: Config, tr: Transcripts, s: Sys, t: Sys,
                                             req: Request, kept: seq<nat>, torn: bool)
    requires Grows(s, t) && t.log == s.log && Scan(cfg, tr, s, req, |req.msgs|, kept, torn)
    ensures Scan(cfg, tr, t, req, |req.msgs|, kept, torn)
  {
    RestGrows(cfg, tr, s, t, req.sid, kept, |req.msgs|);
  }

  lemma {:induction false} AbsorbReader(cfg: Config, tr: Transcripts, s: Sys, t: Sys)
    requires World(cfg, tr) && ReaderOk(cfg, tr, s) && AbsorbsInto(cfg, s, t) && Grows(s, t)
    ensures ReaderOk(cfg, tr, t)
  {
    var r := s.reader;
    if r.ScanKept? {
      AbsorbDuringScan(cfg, tr, s, t);
    } else if r.ScanBuffer? {
      RestGrows(cfg, tr, s, t, r.req.sid, r.picked, r.k);
    } else if r.CheckFlight? || r.CheckQueued? || r.Mark? || r.Put? {
      JobOkGrows(cfg, tr, s, t, r.job);
    } else if r.ReadUser? || r.ReadAsst? || (r.Sent? && r.out.Rewritten?) {
      FinishedScanGrows(cfg, tr, s, t, r.req, r.kept, r.torn);
    }
  }

  lemma {:induction false} OtherWorkerEffects(cfg: Config, s: Sys)
    requires Deterministic(s.worker) && !s.worker.Absorb?
    ensures var t := WorkerNext(cfg, s);
      && Keeps(s, t) && Grows(s, t) && t.reader == s.reader && t.queue == s.queue
      && (!t.worker.Waiting? ==> t.worker.job == s.worker.job)
  {
    hide WorkerNext;
    if Writes(s.worker) {
      Slots.WritingStep(cfg, s);
    } else {
      Slots.FlagStep(cfg, s);
      forall sid ensures Sess(WorkerNext(cfg, s), sid).absorbed == Sess(s, sid).absorbed { Slots.FlagOf(cfg, s, sid); }
    }
  }

  lemma {:induction false} WorkerCovered(cfg: Config, tr: Transcripts, s: Sys)
    requires World(cfg, tr) && Covered(cfg, tr, s) && Deterministic(s.worker)
    requires s.worker.job.sid in s.sessions
    ensures Covered(cfg, tr, WorkerNext(cfg, s))
  {
    var t := WorkerNext(cfg, s);
    if s.worker.Absorb? {
      AbsorbEffects(cfg, s);
      AbsorbKeepsPrefix(cfg, tr, s, t);
      AbsorbReader(cfg, tr, s, t);
    } else {
      OtherWorkerEffects(cfg, s);
      AbsorbedKept(cfg, tr, s, t);
      ReaderKept(cfg, tr, s, t);
    }
    JobsKept(cfg, tr, s, t);
  }

  lemma {:induction false} CoveredStep(cfg: Config, tr: Transcripts, s: Sys, e: Event)
    requires World(cfg, tr) && Covered(cfg, tr, s) && Enabled(s, e)
    requires !s.worker.Waiting? ==> s.worker.job.sid in s.sessions
    requires e.Arrive? ==> e.req.msgs <= tr(e.req.sid)
    ensures Covered(cfg, tr, Apply(cfg, s, e))
  {
    var t := Apply(cfg, s, e);
    if e.Arrive? {
      ArriveCovered(cfg, tr, s, e.req);
    } else if e.ReaderStep? {
      ReaderCovered(cfg, tr, s);
    } else if e.WorkerStep? {
      WorkerCovered(cfg, tr, s);
    } else {
      assert Keeps(s, t) && Grows(s, t) && t.reader == s.reader;
      AbsorbedKept(cfg, tr, s, t);
      ReaderKept(cfg, tr, s, t);
      JobsKept(cfg, tr, s, t);
    }
  }
}
