// The steps of the machine in a row: what a rewrite and a job do when the other thread does not move.
module Uninterrupted {
  import opened Sequences
  import opened Text
  import opened Messages
  import opened Machine
  import opened Sessions

  ghost predicate Reaches(cfg: Config, s: Sys, t: Sys) {
    exists evs :: Legal(cfg, evs, s) && Run(cfg, evs, s) == t
  }

  lemma {:induction false} Stay(cfg: Config, s: Sys)
    ensures Reaches(cfg, s, s)
  {
    assert Legal(cfg, [], s) && Run(cfg, [], s) == s;
  }

  lemma {:induction false} RunAppend(cfg: Config, evs: seq<Event>, more: seq<Event>, s: Sys)
    requires Legal(cfg, evs, s) && Legal(cfg, more, Run(cfg, evs, s))
    ensures Legal(cfg, evs + more, s) && Run(cfg, evs + more, s) == Run(cfg, more, Run(cfg, evs, s))
    decreases |evs|
  {
    hide Apply;
    hide Enabled;
    if evs == [] {
      assert evs + more == more;
    } else {
      assert (evs + more)[0] == evs[0] && (evs + more)[1..] == evs[1..] + more;
      RunAppend(cfg, evs[1..], more, Apply(cfg, s, evs[0]));
    }
  }

  lemma {:induction false} Then(cfg: Config, s: Sys, t: Sys, u: Sys)
    requires Reaches(cfg, s, t) && Reaches(cfg, t, u)
    ensures Reaches(cfg, s, u)
  {
    var evs :| Legal(cfg, evs, s) && Run(cfg, evs, s) == t;
    var more :| Legal(cfg, more, t) && Run(cfg, more, t) == u;
    RunAppend(cfg, evs, more, s);
  }

  /** One more event. */
  lemma {:induction false} ThenEvent(cfg: Config, s: Sys, t: Sys, e: Event)
    requires Reaches(cfg, s, t) && Enabled(t, e)
    ensures Reaches(cfg, s, Apply(cfg, t, e))
  {
    var u := Apply(cfg, t, e);
    hide Apply;
    hide Enabled;
    assert Legal(cfg, [e][1..], u) && Run(cfg, [e][1..], u) == u;
    assert Legal(cfg, [e], t) && Run(cfg, [e], t) == u;
    Then(cfg, s, t, u);
  }

  // ---- A rewrite ----

  /** The positions from k on whose keys are not absorbed. */
  function Unabsorbed(keys: seq<string>, absorbed: set<string>, k: nat): seq<nat>
    requires k <= |keys|
  {
    if k == 0 then []
    else Unabsorbed(keys, absorbed, k - 1) + if keys[k - 1] in absorbed then [] else [k - 1]
  }

  function Registered(s: Sys, sid: string): map<string, Session> {
    if sid in s.sessions then s.sessions else s.sessions[sid := FRESH]
  }

  function JobFor(cfg: Config, req: Request, x: Session): Job {
    var keys := cfg.keys(req.msgs);
    Job(req.sid, cfg.bundled(Pick(req.msgs, Unabsorbed(keys, x.absorbed, |keys|))))
  }

  function JobOf(cfg: Config, s: Sys, req: Request): Job { JobFor(cfg, req, Sess(s, req.sid)) }

  predicate Ready(cfg: Config, s: Sys, req: Request) {
    |JobOf(cfg, s, req).buffer| >= cfg.minL1 && !Sess(s, req.sid).inFlight && !Sess(s, req.sid).queued
  }

  /** A rewrite's answer, given the session and the keys of the request. */
  function ReplyOf(x: Session, req: Request, keys: seq<string>): Reader {
    if Truthy(x.user) && Truthy(x.asst) then
      var kept := Unabsorbed(keys, x.absorbed, |keys|);
      Sent(req, kept, false, false, Rewritten(x.user.value, x.asst.value, Pick(req.msgs, kept)))
    else Sent(req, [], false, false, Untouched)
  }

  function Reply(cfg: Config, s: Sys, req: Request): Reader { ReplyOf(Sess(s, req.sid), req, cfg.keys(req.msgs)) }

  /** What a whole rewrite leaves. */
  function AfterRewrite(cfg: Config, s: Sys, req: Request): Sys {
    var known, ready := Registered(s, req.sid), Ready(cfg, s, req);
    s.(sessions := if ready then known[req.sid := known[req.sid].(queued := true)] else known,
       queue := if ready then s.queue + [JobOf(cfg, s, req)] else s.queue,
       log := s.log + [req],
       reader := Reply(cfg, s, req))
  }

  lemma {:induction false} ScanBufferRuns(cfg: Config, s: Sys, t: Sys, req: Request, k: nat)
    requires Reaches(cfg, s, t.(reader := ScanBuffer(req, 0, []))) && k <= |cfg.keys(req.msgs)|
    ensures var keys := cfg.keys(req.msgs);
      Reaches(cfg, s, t.(reader := ScanBuffer(req, k, Unabsorbed(keys, Sess(t, req.sid).absorbed, k))))
  {
    if k > 0 {
      ScanBufferRuns(cfg, s, t, req, k - 1);
      var keys := cfg.keys(req.msgs);
      var r := ScanBuffer(req, k - 1, Unabsorbed(keys, Sess(t, req.sid).absorbed, k - 1));
      ThenEvent(cfg, s, t.(reader := r), ReaderStep);
      BufferStep(cfg, t, req, k);
    }
  }

  lemma {:induction false} BufferStep(cfg: Config, t: Sys, req: Request, k: nat)
    requires 0 < k <= |cfg.keys(req.msgs)|
    ensures var keys, absorbed := cfg.keys(req.msgs), Sess(t, req.sid).absorbed;
      Apply(cfg, t.(reader := ScanBuffer(req, k - 1, Unabsorbed(keys, absorbed, k - 1))), ReaderStep)
        == t.(reader := ScanBuffer(req, k, Unabsorbed(keys, absorbed, k)))
  {
    hide Pick;
    var keys, absorbed := cfg.keys(req.msgs), Sess(t, req.sid).absorbed;
    var was := Unabsorbed(keys, absorbed, k - 1);
    assert was + [] == was;
  }

  lemma {:induction false} ScanKeptRuns(cfg: Config, s: Sys, t: Sys, req: Request, k: nat)
    requires Reaches(cfg, s, t.(reader := ScanKept(req, 0, [], false, false))) && k <= |cfg.keys(req.msgs)|
    ensures var keys := cfg.keys(req.msgs);
      Reaches(cfg, s, t.(reader := ScanKept(req, k, Unabsorbed(keys, Sess(t, req.sid).absorbed, k), false, false)))
  {
    if k > 0 {
      ScanKeptRuns(cfg, s, t, req, k - 1);
      var keys := cfg.keys(req.msgs);
      var r := ScanKept(req, k - 1, Unabsorbed(keys, Sess(t, req.sid).absorbed, k - 1), false, false);
      ThenEvent(cfg, s, t.(reader := r), ReaderStep);
      KeptStep(cfg, t, req, k);
    }
  }

  lemma {:induction false} KeptStep(cfg: Config, t: Sys, req: Request, k: nat)
    requires 0 < k <= |cfg.keys(req.msgs)|
    ensures var keys, absorbed := cfg.keys(req.msgs), Sess(t, req.sid).absorbed;
      Apply(cfg, t.(reader := ScanKept(req, k - 1, Unabsorbed(keys, absorbed, k - 1), false, false)), ReaderStep)
        == t.(reader := ScanKept(req, k, Unabsorbed(keys, absorbed, k), false, false))
  {
    hide Pick;
    var keys, absorbed := cfg.keys(req.msgs), Sess(t, req.sid).absorbed;
    var was := Unabsorbed(keys, absorbed, k - 1);
    assert was + [] == was;
  }

  /** The first half: from the arrival to the point where the summary is looked at. */
  function Offered(cfg: Config, s: Sys, req: Request): Sys {
    AfterRewrite(cfg, s, req).(reader := TestUser(req))
  }

  lemma {:induction false} OfferRuns(cfg: Config, s: Sys, req: Request)
    requires s.reader.Idle?
    ensures Reaches(cfg, s, Offered(cfg, s, req))
  {
    var t, keys := Arrived(s, req), cfg.keys(req.msgs);
    Stay(cfg, s);
    ThenEvent(cfg, s, s, Arrive(req));
    assert Sess(t, req.sid) == Sess(s, req.sid);
    assert t == t.(reader := ScanBuffer(req, 0, []));
    ScanBufferRuns(cfg, s, t, req, |keys|);
    var a := t.(reader := ScanBuffer(req, |keys|, Unabsorbed(keys, Sess(t, req.sid).absorbed, |keys|)));
    hide Unabsorbed;
    hide Pick;
    ThenEvent(cfg, s, a, ReaderStep);
    QueueRuns(cfg, s, t, req, JobOf(cfg, s, req));
  }

  /** The checks, the mark and the put. */
  lemma {:induction false} QueueRuns(cfg: Config, s: Sys, t: Sys, req: Request, job: Job)
    requires req.sid in t.sessions
    requires Reaches(cfg, s, t.(reader := if |job.buffer| >= cfg.minL1 then CheckFlight(req, job) else TestUser(req)))
    ensures var x := Sess(t, req.sid);
      var ready := |job.buffer| >= cfg.minL1 && !x.inFlight && !x.queued;
      Reaches(cfg, s, t.(sessions := if ready then t.sessions[req.sid := x.(queued := true)] else t.sessions,
                         queue := if ready then t.queue + [job] else t.queue,
                         reader := TestUser(req)))
  {
    hide Unabsorbed;
    hide Pick;
    var x := Sess(t, req.sid);
    if |job.buffer| >= cfg.minL1 {
      ThenEvent(cfg, s, t.(reader := CheckFlight(req, job)), ReaderStep);
      if !x.inFlight {
        ThenEvent(cfg, s, t.(reader := CheckQueued(req, job)), ReaderStep);
        if !x.queued {
          ThenEvent(cfg, s, t.(reader := Mark(req, job)), ReaderStep);
          ThenEvent(cfg, s, t.(sessions := t.sessions[req.sid := x.(queued := true)], reader := Put(req, job)),
                    ReaderStep);
        }
      }
    }
  }

  lemma {:induction false} AnswerRuns(cfg: Config, s: Sys, t: Sys, req: Request)
    requires Reaches(cfg, s, t.(reader := TestUser(req)))
    ensures Reaches(cfg, s, t.(reader := Reply(cfg, t, req)))
  {
    hide Unabsorbed;
    hide Pick;
    hide Reaches;
    var x, keys := Sess(t, req.sid), cfg.keys(req.msgs);
    ThenEvent(cfg, s, t.(reader := TestUser(req)), ReaderStep);
    if Truthy(x.user) {
      ThenEvent(cfg, s, t.(reader := TestAsst(req)), ReaderStep);
      if Truthy(x.asst) {
        ScanKeptRuns(cfg, s, t, req, |keys|);
        PairRuns(cfg, s, t, req, Unabsorbed(keys, x.absorbed, |keys|), false, false);
      }
    }
  }

  /** The scan is over: the pair is read and the array put together. */
  lemma {:induction false} PairRuns(cfg: Config, s: Sys, t: Sys, req: Request, kept: seq<nat>, torn: bool,
                                    parted: bool)
    requires var x := Sess(t, req.sid); x.user.Some? && x.asst.Some?
    requires Reaches(cfg, s, t.(reader := ScanKept(req, |cfg.keys(req.msgs)|, kept, torn, parted)))
    ensures var x := Sess(t, req.sid);
      var out := Rewritten(x.user.value, x.asst.value, Pick(req.msgs, kept));
      Reaches(cfg, s, t.(reader := Sent(req, kept, torn, parted, out)))
  {
    hide Pick;
    hide Reaches;
    ThenEvent(cfg, s, t.(reader := ScanKept(req, |cfg.keys(req.msgs)|, kept, torn, parted)), ReaderStep);
    ThenEvent(cfg, s, t.(reader := ReadUser(req, kept, torn, parted)), ReaderStep);
    ThenEvent(cfg, s, t.(reader := ReadAsst(req, kept, torn, parted, Sess(t, req.sid).user.value)), ReaderStep);
  }

  /** A rewrite that is not interrupted is a run of the machine. */
  lemma {:induction false} RewriteReaches(cfg: Config, s: Sys, req: Request)
    requires s.reader.Idle?
    ensures Reaches(cfg, s, AfterRewrite(cfg, s, req))
  {
    OfferRuns(cfg, s, req);
    var t := Offered(cfg, s, req);
    AnswerRuns(cfg, s, t, req);
    hide Unabsorbed;
    hide Pick;
    assert Reply(cfg, t, req) == Reply(cfg, s, req);
  }

  // ---- A job ----

  /** How a job that is long enough ends: it saves nothing (no reason, no result, or a failure before the
      save); it completes, having saved these other nodes too; or something raises after the node is saved,
      before or after its rows are. */
  datatype Ending =
    | Quits
    | Completes(node: Node, others: seq<string>)
    | FailsAfterNode(node: Node)
    | FailsAfterRows(node: Node, others: seq<string>)

  function Others(e: Ending): seq<string> { if e.Completes? || e.FailsAfterRows? then e.others else [] }

  /** What a whole job leaves of the sessions. */
  function SessionsAfter(cfg: Config, m: map<string, Session>, job: Job, e: Ending): map<string, Session> {
    var picked := SetQueued(m, job.sid, false);
    if |job.buffer| < cfg.minL1 then picked
    else if e.Completes? then SetDone(picked, job.sid, Elems(AllFps(job.buffer)), Some(e.node.summary), Some(cfg.ack))
    else SetFlight(picked, job.sid, false)
  }

  /** What the absorption of a job does to a scan under way: it may tear it. */
  function ReaderAfter(cfg: Config, s: Sys, job: Job, node: Node): Reader {
    if node.summary != "" && cfg.ack != "" then AfterAbsorb(cfg, s, job) else s.reader
  }

  function AfterAbsorb(cfg: Config, s: Sys, job: Job): Reader {
    var before := Sess(s, job.sid).absorbed;
    TornBy(cfg, s.reader, job.sid, before, before + Elems(AllFps(job.buffer)))
  }

  function RawAfter(cfg: Config, raw: map<string, seq<Turn>>, job: Job, node: Node): map<string, seq<Turn>> {
    if job.buffer == [] then raw else raw[node.id := Tier3(cfg, job.buffer)]
  }

  /** What a whole job leaves. */
  function AfterJob(cfg: Config, s: Sys, job: Job, e: Ending): Sys {
    var t := s.(sessions := SessionsAfter(cfg, s.sessions, job, e), worker := Waiting);
    if |job.buffer| < cfg.minL1 || e.Quits? then t
    else t.(reader := if e.Completes? then ReaderAfter(cfg, s, job, e.node) else s.reader,
            saved := s.saved + {e.node.id} + Elems(Others(e)),
            raw := if e.FailsAfterNode? then s.raw else RawAfter(cfg, s.raw, job, e.node))
  }

  /** Ids drawn for the nodes of one job: unused, and no two the same. */
  ghost predicate NewIds(s: Sys, id: string, others: seq<string>) {
    && id !in s.saved && id !in s.raw && id !in others
    && (forall i :: 0 <= i < |others| ==> others[i] !in s.saved && others[i] !in s.raw)
    && Distinct(others)
  }

  lemma {:induction false} StartRuns(cfg: Config, s: Sys, job: Job)
    requires s.worker == Dequeued(job)
    ensures var picked := SetQueued(s.sessions, job.sid, false);
      Reaches(cfg, s, if |job.buffer| < cfg.minL1 then s.(sessions := picked, worker := Waiting)
                      else s.(sessions := SetFlight(picked, job.sid, true), worker := Assessing(job)))
  {
    var picked := SetQueued(s.sessions, job.sid, false);
    Stay(cfg, s);
    ThenEvent(cfg, s, s, WorkerStep);
    ThenEvent(cfg, s, s.(sessions := picked, worker := Picked(job)), WorkerStep);
  }

  /** The `finally` clause. */
  lemma {:induction false} FinallyRuns(cfg: Config, s: Sys, t: Sys, job: Job)
    requires Reaches(cfg, s, t.(worker := Finally(job)))
    ensures Reaches(cfg, s, t.(sessions := SetFlight(t.sessions, job.sid, false), worker := Waiting))
  {
    ThenEvent(cfg, s, t.(worker := Finally(job)), WorkerStep);
  }

  lemma {:induction false} SaveRuns(cfg: Config, s: Sys, t: Sys, job: Job, node: Node)
    requires Reaches(cfg, s, t.(worker := SaveNode(job, node)))
    ensures Reaches(cfg, s, t.(saved := t.saved + {node.id}, worker := SaveRaw(job, node)))
    ensures Reaches(cfg, s, t.(saved := t.saved + {node.id}, raw := RawAfter(cfg, t.raw, job, node),
                               worker := Linking(job, node)))
  {
    hide Tier3;
    ThenEvent(cfg, s, t.(worker := SaveNode(job, node)), WorkerStep);
    ThenEvent(cfg, s, t.(saved := t.saved + {node.id}, worker := SaveRaw(job, node)), WorkerStep);
  }

  lemma {:induction false} OthersRun(cfg: Config, s: Sys, t: Sys, others: seq<string>)
    requires Reaches(cfg, s, t) && t.worker.Linking?
    requires forall i :: 0 <= i < |others| ==>
      others[i] !in t.saved && others[i] !in t.raw && others[i] != t.worker.node.id
    requires Distinct(others)
    ensures Reaches(cfg, s, t.(saved := t.saved + Elems(others)))
  {
    if others == [] {
      assert t.saved + Elems(others) == t.saved;
    } else {
      var init, last := others[..|others| - 1], others[|others| - 1];
      OthersRun(cfg, s, t, init);
      var u := t.(saved := t.saved + Elems(init));
      ThenEvent(cfg, s, u, SideSave(last));
      assert u.saved + {last} == t.saved + Elems(others);
    }
  }

  /** The absorbing assignments, one by one. */
  lemma {:induction false} AbsorbRuns(cfg: Config, s: Sys, t: Sys, job: Job, node: Node)
    requires Reaches(cfg, s, t.(worker := Absorb(job, node)))
    ensures Reaches(cfg, s, t.(sessions := Updated(t.sessions, job.sid, (x: Session) =>
      Session(x.absorbed + Elems(AllFps(job.buffer)), Some(node.summary), Some(cfg.ack), x.inFlight, x.queued)),
      reader := AfterAbsorb(cfg, t, job), worker := Finally(job)))
  {
    hide Elems;
    hide AllFps;
    hide Reaches;
    hide Tears;
    var r := AfterAbsorb(cfg, t, job);
    var fps := Elems(AllFps(job.buffer));
    var a := Updated(t.sessions, job.sid, (x: Session) => x.(absorbed := x.absorbed + fps));
    var b := Updated(a, job.sid, (x: Session) => x.(user := Some(node.summary)));
    ThenEvent(cfg, s, t.(worker := Absorb(job, node)), WorkerStep);
    ThenEvent(cfg, s, t.(sessions := a, reader := r, worker := SetUser(job, node)), WorkerStep);
    var last := t.(sessions := b, reader := r, worker := SetAsst(job, node));
    ThenEvent(cfg, s, last, WorkerStep);
    assert Apply(cfg, last, WorkerStep).sessions
      == Updated(t.sessions, job.sid, (x: Session) =>
           Session(x.absorbed + fps, Some(node.summary), Some(cfg.ack), x.inFlight, x.queued));
  }

  /** From the links to the point where the absorption starts, or is skipped. */
  lemma {:induction false} ClearRuns(cfg: Config, s: Sys, t: Sys, job: Job, node: Node)
    requires Reaches(cfg, s, t.(worker := Linking(job, node)))
    ensures Reaches(cfg, s, t.(sessions := SetFlight(t.sessions, job.sid, false),
      worker := if node.summary != "" && cfg.ack != "" then Absorb(job, node) else Finally(job)))
  {
    hide Reaches;
    ThenEvent(cfg, s, t.(worker := Linking(job, node)), WorkerStep);
    ThenEvent(cfg, s, t.(worker := ClearFlight(job, node)), WorkerStep);
  }

  lemma {:induction false} DoneRuns(cfg: Config, s: Sys, t: Sys, job: Job, node: Node)
    requires Reaches(cfg, s, t.(worker := Linking(job, node)))
    ensures var fps := Elems(AllFps(job.buffer));
      Reaches(cfg, s, t.(sessions := SetDone(t.sessions, job.sid, fps, Some(node.summary), Some(cfg.ack)),
                         reader := ReaderAfter(cfg, t, job, node), worker := Waiting))
  {
    hide Elems;
    hide AllFps;
    hide Reaches;
    ClearRuns(cfg, s, t, job, node);
    var u := t.(sessions := SetFlight(t.sessions, job.sid, false));
    if node.summary != "" && cfg.ack != "" {
      AbsorbRuns(cfg, s, u, job, node);
      assert Sess(u, job.sid).absorbed == Sess(t, job.sid).absorbed;
      u := u.(sessions := Updated(u.sessions, job.sid, (x: Session) =>
        Session(x.absorbed + Elems(AllFps(job.buffer)), Some(node.summary), Some(cfg.ack), x.inFlight, x.queued)),
        reader := ReaderAfter(cfg, t, job, node));
    }
    hide Apply;
    hide TornBy;
    FinallyRuns(cfg, s, u, job);
    assert SetFlight(u.sessions, job.sid, false)
      == SetDone(t.sessions, job.sid, Elems(AllFps(job.buffer)), Some(node.summary), Some(cfg.ack));
  }

  /** A job in one piece is a run of the machine, however it ends and wherever the request path is. */
  lemma {:induction false} JobReaches(cfg: Config, s: Sys, job: Job, e: Ending)
    requires s.worker == Dequeued(job) && (!e.Quits? ==> NewIds(s, e.node.id, Others(e)))
    ensures Reaches(cfg, s, AfterJob(cfg, s, job, e))
  {
    StartRuns(cfg, s, job);
    hide Elems;
    hide AllFps;
    hide Tier3;
    hide Reaches;
    if |job.buffer| >= cfg.minL1 { LongJobReaches(cfg, s, job, e); }
  }

  lemma {:induction false} LongJobReaches(cfg: Config, s: Sys, job: Job, e: Ending)
    requires |job.buffer| >= cfg.minL1 && (!e.Quits? ==> NewIds(s, e.node.id, Others(e)))
    requires var picked := SetQueued(s.sessions, job.sid, false);
      Reaches(cfg, s, s.(sessions := SetFlight(picked, job.sid, true), worker := Assessing(job)))
    ensures Reaches(cfg, s, AfterJob(cfg, s, job, e))
  {
    hide Elems;
    hide AllFps;
    hide Tier3;
    hide Reaches;
    hide Apply;
    var picked := SetQueued(s.sessions, job.sid, false);
    var t := s.(sessions := SetFlight(picked, job.sid, true));
    JudgeRuns(cfg, s, t, job, e);
    assert SetFlight(t.sessions, job.sid, false) == SetFlight(picked, job.sid, false);
    match e
    case Quits => FinallyRuns(cfg, s, t, job);
    case Completes(node, others) =>
      RowsRun(cfg, s, t, job, node, others);
      CompactRuns(cfg, s, t, job, node, others);
      assert Sess(t, job.sid).absorbed == Sess(s, job.sid).absorbed;
      hide TornBy;
      var fps, user := Elems(AllFps(job.buffer)), Some(node.summary);
      assert SetDone(t.sessions, job.sid, fps, user, Some(cfg.ack))
          == SetDone(picked, job.sid, fps, user, Some(cfg.ack));
    case FailsAfterNode(node) => FailsEarly(cfg, s, t, job, node);
    case FailsAfterRows(node, others) =>
      RowsRun(cfg, s, t, job, node, others);
      FailsLate(cfg, s, t, job, node, others);
  }

  /** The models' answers. */
  lemma {:induction false} JudgeRuns(cfg: Config, s: Sys, t: Sys, job: Job, e: Ending)
    requires Reaches(cfg, s, t.(worker := Assessing(job)))
    requires !e.Quits? ==> e.node.id !in t.saved && e.node.id !in t.raw
    ensures Reaches(cfg, s, t.(worker := if e.Quits? then Finally(job) else SaveNode(job, e.node)))
  {
    hide Reaches;
    ThenEvent(cfg, s, t.(worker := Assessing(job)), Verdict(!e.Quits?));
    if !e.Quits? { ThenEvent(cfg, s, t.(worker := Compacting(job)), Compacted(Some(e.node))); }
  }

  /** The node, its rows and the other nodes. */
  lemma {:induction false} RowsRun(cfg: Config, s: Sys, t: Sys, job: Job, node: Node, others: seq<string>)
    requires Reaches(cfg, s, t.(worker := SaveNode(job, node))) && NewIds(t, node.id, others)
    ensures Reaches(cfg, s, t.(saved := t.saved + {node.id} + Elems(others), raw := RawAfter(cfg, t.raw, job, node),
                               worker := Linking(job, node)))
  {
    SaveRuns(cfg, s, t, job, node);
    hide Tier3;
    OthersRun(cfg, s, t.(saved := t.saved + {node.id}, raw := RawAfter(cfg, t.raw, job, node),
                         worker := Linking(job, node)), others);
  }

  lemma {:induction false} CompactRuns(cfg: Config, s: Sys, t: Sys, job: Job, node: Node, others: seq<string>)
    requires Reaches(cfg, s, t.(saved := t.saved + {node.id} + Elems(others), raw := RawAfter(cfg, t.raw, job, node),
                                worker := Linking(job, node)))
    ensures Reaches(cfg, s, t.(
      sessions := SetDone(t.sessions, job.sid, Elems(AllFps(job.buffer)), Some(node.summary), Some(cfg.ack)),
      saved := t.saved + {node.id} + Elems(others), raw := RawAfter(cfg, t.raw, job, node),
      reader := ReaderAfter(cfg, t, job, node), worker := Waiting))
  {
    hide RawAfter;
    hide AllFps;
    DoneRuns(cfg, s, t.(saved := t.saved + {node.id} + Elems(others), raw := RawAfter(cfg, t.raw, job, node)),
             job, node);
  }

  lemma {:induction false} FailsEarly(cfg: Config, s: Sys, t: Sys, job: Job, node: Node)
    requires Reaches(cfg, s, t.(worker := SaveNode(job, node)))
    ensures Reaches(cfg, s, t.(sessions := SetFlight(t.sessions, job.sid, false),
                               saved := t.saved + {node.id} + Elems([]), worker := Waiting))
  {
    SaveRuns(cfg, s, t, job, node);
    hide Reaches;
    var u := t.(saved := t.saved + {node.id});
    ThenEvent(cfg, s, u.(worker := SaveRaw(job, node)), Crash);
    FinallyRuns(cfg, s, u, job);
    assert t.saved + {node.id} + Elems([]) == t.saved + {node.id};
  }

  lemma {:induction false} FailsLate(cfg: Config, s: Sys, t: Sys, job: Job, node: Node, others: seq<string>)
    requires Reaches(cfg, s, t.(saved := t.saved + {node.id} + Elems(others), raw := RawAfter(cfg, t.raw, job, node),
                                worker := Linking(job, node)))
    ensures Reaches(cfg, s, t.(sessions := SetFlight(t.sessions, job.sid, false),
                               saved := t.saved + {node.id} + Elems(others), raw := RawAfter(cfg, t.raw, job, node),
                               worker := Waiting))
  {
    hide RawAfter;
    hide Reaches;
    var u := t.(saved := t.saved + {node.id} + Elems(others), raw := RawAfter(cfg, t.raw, job, node));
    ThenEvent(cfg, s, u.(worker := Linking(job, node)), Crash);
    FinallyRuns(cfg, s, u, job);
  }
}
