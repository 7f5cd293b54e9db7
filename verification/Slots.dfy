// The queue slot of each session, over every run.
module Slots {
  import opened Sequences
  import opened Messages
  import opened Machine

  function Jobs(queue: seq<Job>, sid: string): nat {
    if queue == [] then 0 else Jobs(queue[..|queue| - 1], sid) + One(queue[|queue| - 1].sid == sid)
  }

  function One(b: bool): nat { if b then 1 else 0 }

  lemma {:induction false} JobsHead(queue: seq<Job>, sid: string)
    requires queue != []
    ensures Jobs(queue, sid) == One(queue[0].sid == sid) + Jobs(queue[1..], sid)
  {
    if |queue| > 1 {
      var init := queue[..|queue| - 1];
      JobsHead(init, sid);
      assert queue[1..][..|queue| - 2] == init[1..];
    }
  }

  lemma {:induction false} JobsSnoc(queue: seq<Job>, job: Job, sid: string)
    ensures Jobs(queue + [job], sid) == Jobs(queue, sid) + One(job.sid == sid)
  {
    assert (queue + [job])[..|queue|] == queue;
  }

  /** Jobs of a session that hold its slot: queued, dequeued but not picked up, or marked but not put. */
  function SlotsTaken(s: Sys, sid: string): nat {
    Jobs(s.queue, sid) + One(s.worker.Dequeued? && s.worker.job.sid == sid)
      + One(s.reader.Put? && s.reader.req.sid == sid)
  }

  /** Every session that a thread or a job refers to is registered; jobs of the request path are its own. */
  ghost predicate Registered(s: Sys) {
    && (forall i :: 0 <= i < |s.queue| ==> s.queue[i].sid in s.sessions)
    && (!s.worker.Waiting? ==> s.worker.job.sid in s.sessions)
    && (!s.reader.Idle? ==> s.reader.req.sid in s.sessions)
    && ((s.reader.CheckFlight? || s.reader.CheckQueued? || s.reader.Mark? || s.reader.Put?) ==>
          s.reader.job.sid == s.reader.req.sid)
  }

  ghost predicate SlotsRight(s: Sys) {
    && (forall sid :: SlotsTaken(s, sid) == One(Sess(s, sid).queued))
    && (s.reader.Mark? ==> !Sess(s, s.reader.req.sid).queued)
  }

  /** The stages in which the worker compacts a session. */
  predicate Busy(w: Worker) {
    w.Assessing? || w.Compacting? || w.SaveNode? || w.SaveRaw? || w.Linking? || w.ClearFlight?
  }

  /** A session is marked in flight only while the worker processes it, and always while it compacts it. */
  ghost predicate FlightRight(s: Sys) {
    && (forall sid :: Sess(s, sid).inFlight ==>
          (Busy(s.worker) || s.worker.Finally?) && s.worker.job.sid == sid)
    && (Busy(s.worker) ==> Sess(s, s.worker.job.sid).inFlight)
  }

  lemma {:induction false} RegisteredStep(cfg: Config, s: Sys, e: Event)
    requires Enabled(s, e) && Registered(s)
    ensures Registered(Apply(cfg, s, e))
  {
    hide ReaderNext;
    hide WorkerNext;
    if e.ReaderStep? { RegisteredReader(cfg, s); }
    if e.WorkerStep? { RegisteredWorker(cfg, s); }
  }

  lemma {:induction false} RegisteredReader(cfg: Config, s: Sys)
    requires !s.reader.Idle? && Registered(s)
    ensures Registered(ReaderNext(cfg, s))
  {
    hide Pick;
  }

  lemma {:induction false} RegisteredWorker(cfg: Config, s: Sys)
    requires Deterministic(s.worker) && Registered(s)
    ensures Registered(WorkerNext(cfg, s))
  {
    hide Tier3;
    hide Elems;
    hide AllFps;
    hide BehindCall;
  }

  lemma {:induction false} ReaderSlots(cfg: Config, s: Sys)
    requires !s.reader.Idle? && Registered(s) && SlotsRight(s)
    ensures SlotsRight(ReaderNext(cfg, s))
  {
    var t := ReaderNext(cfg, s);
    forall sid ensures SlotsTaken(t, sid) == One(Sess(t, sid).queued) {
      assert SlotsTaken(s, sid) == One(Sess(s, sid).queued);
      if s.reader.Put? { JobsSnoc(s.queue, s.reader.job, sid); }
    }
  }

  /** Of the slots, the worker's own steps change only that of the job it picks up. */
  lemma {:induction false} WorkerQueued(cfg: Config, s: Sys, sid: string)
    requires Deterministic(s.worker)
    ensures var w, t := s.worker, WorkerNext(cfg, s);
      && t.queue == s.queue && !t.worker.Dequeued?
      && (t.reader == s.reader || (s.reader.ScanKept? && t.reader.ScanKept?))
      && Sess(t, sid).queued == (Sess(s, sid).queued && !(w.Dequeued? && w.job.sid == sid))
  {
    hide WorkerNext;
    if Writes(s.worker) {
      WritingStep(cfg, s);
    } else {
      FlagStep(cfg, s);
      FlagOf(cfg, s, sid);
    }
  }

  lemma {:induction false} WritingStep(cfg: Config, s: Sys)
    requires Writes(s.worker)
    ensures var w, t := s.worker, WorkerNext(cfg, s);
      && t.sessions == s.sessions && t.queue == s.queue && t.reader == s.reader && t.log == s.log
      && (t.worker.SaveRaw? || t.worker.Linking? || t.worker.ClearFlight?)
      && t.worker.job == w.job && t.worker.node == w.node
  {
    hide Tier3;
  }

  lemma {:induction false} FlagStep(cfg: Config, s: Sys)
    requires Deterministic(s.worker) && !Writes(s.worker)
    ensures var t := WorkerNext(cfg, s);
      && t.queue == s.queue && t.log == s.log && !t.worker.Dequeued?
      && (t.reader == s.reader
          || (s.worker.Absorb? && s.reader.ScanKept? && t.reader.ScanKept? && t.reader.req == s.reader.req))
      && (!t.worker.Waiting? ==> t.worker.job == s.worker.job)
  {
    hide Elems;
    hide AllFps;
    hide BehindCall;
    hide Sess;
  }

  lemma {:induction false} FlagOf(cfg: Config, s: Sys, sid: string)
    requires Deterministic(s.worker) && !Writes(s.worker)
    ensures var w, x, y := s.worker, Sess(s, sid), Sess(WorkerNext(cfg, s), sid);
      && y.queued == (x.queued && !(w.Dequeued? && w.job.sid == sid))
      && (y.absorbed == x.absorbed || w.Absorb?)
  {
    hide Elems;
    hide AllFps;
    hide TornBy;
  }

  lemma {:induction false} WorkerSlots(cfg: Config, s: Sys)
    requires Deterministic(s.worker) && Registered(s) && SlotsRight(s)
    ensures SlotsRight(WorkerNext(cfg, s))
  {
    var t := WorkerNext(cfg, s);
    forall sid ensures SlotsTaken(t, sid) == One(Sess(t, sid).queued) {
      WorkerQueued(cfg, s, sid);
      assert SlotsTaken(s, sid) == One(Sess(s, sid).queued);
      hide WorkerNext;
    }
    if t.reader.Mark? { WorkerQueued(cfg, s, t.reader.req.sid); }
    hide WorkerNext;
    hide Sess;
  }

  lemma {:induction false} SlotsStep(cfg: Config, s: Sys, e: Event)
    requires Enabled(s, e) && Registered(s) && SlotsRight(s)
    ensures SlotsRight(Apply(cfg, s, e))
  {
    hide ReaderNext;
    hide WorkerNext;
    var t := Apply(cfg, s, e);
    match e
    case ReaderStep => ReaderSlots(cfg, s);
    case WorkerStep => WorkerSlots(cfg, s);
    case Dequeue =>
      forall sid ensures SlotsTaken(t, sid) == One(Sess(t, sid).queued) {
        assert SlotsTaken(s, sid) == One(Sess(s, sid).queued);
        JobsHead(s.queue, sid);
      }
    case _ =>
      forall sid ensures SlotsTaken(t, sid) == One(Sess(t, sid).queued) {
        assert SlotsTaken(s, sid) == One(Sess(s, sid).queued);
      }
  }

  lemma {:induction false} FlightStep(cfg: Config, s: Sys, e: Event)
    requires Enabled(s, e) && Registered(s) && FlightRight(s)
    ensures FlightRight(Apply(cfg, s, e))
  {
    var t := Apply(cfg, s, e);
    forall sid | Sess(t, sid).inFlight
      ensures (Busy(t.worker) || t.worker.Finally?) && t.worker.job.sid == sid
    {
      assert Sess(s, sid).inFlight || (s.worker.Picked? && s.worker.job.sid == sid);
    }
  }

  ghost predicate SlotInvariant(s: Sys) { Registered(s) && SlotsRight(s) && FlightRight(s) }

  /** In every reachable state the slots of each session count exactly to its `sensor_queued` flag, and
      `compact_in_flight` marks exactly the session the worker is compacting. */
  lemma {:induction false} SlotsAlwaysRight(cfg: Config, evs: seq<Event>, s: Sys)
    requires Legal(cfg, evs, s) && SlotInvariant(s)
    ensures SlotInvariant(Run(cfg, evs, s))
    decreases |evs|
  {
    if evs != [] {
      RegisteredStep(cfg, s, evs[0]);
      SlotsStep(cfg, s, evs[0]);
      FlightStep(cfg, s, evs[0]);
      SlotsAlwaysRight(cfg, evs[1..], Apply(cfg, s, evs[0]));
    }
  }

  /** So at most one job of a session waits and at most one runs, whatever the interleaving. */
  lemma {:induction false} OnePendingOneRunning(cfg: Config, evs: seq<Event>, sid: string)
    requires Legal(cfg, evs, INIT)
    ensures var s := Run(cfg, evs, INIT);
      && Jobs(s.queue, sid) <= 1
      && (Jobs(s.queue, sid) == 1 ==> Sess(s, sid).queued && !(s.worker.Dequeued? && s.worker.job.sid == sid))
      && (forall other :: Sess(s, sid).inFlight && Sess(s, other).inFlight ==> sid == other)
  {
    SlotsAlwaysRight(cfg, evs, INIT);
    var s := Run(cfg, evs, INIT);
    assert SlotsTaken(s, sid) == One(Sess(s, sid).queued);
  }
}
