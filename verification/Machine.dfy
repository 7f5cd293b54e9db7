// The trim protocol as a transition system. Two threads share the session registry, the job queue
// and the store: the request path (`rewrite`, one request at a time) and the single worker
// (`run_jobs`). Every read or write of shared state is a step of its own, and the steps of the two
// threads interleave freely. What the language models answer, and where the worker raises an
// exception, is part of the event.
module Machine {
  import opened Sequences
  import opened Text
  import opened Messages

  datatype Session = Session(
    absorbed: set<string>,
    user: Option<string>,
    asst: Option<string>,
    inFlight: bool,
    queued: bool)

  const FRESH := Session({}, None, None, false, false)

  /** Python's truth value of an optional string. */
  predicate Truthy(o: Option<string>) { o.Some? && o.value != "" }

  datatype Request = Request(sid: string, msgs: seq<Message>)
  datatype Job = Job(sid: string, buffer: seq<L1>)
  datatype Node = Node(id: string, summary: string)

  /** A tier-3 row: the verbatim turn kept for an absorbed entry. */
  datatype Turn = Turn(role: string, text: string)

  /** What the request path makes of the message array, before retrieval injection. */
  datatype Outgoing = Untouched | Rewritten(user: string, asst: string, kept: seq<Message>)

  /** The views of a request that the protocol uses: the key (first fingerprint) of each entry of
      the per-message view, and the bundled view. */
  datatype Config = Config(
    keys: seq<Message> -> seq<string>,
    bundled: seq<Message> -> seq<L1>,
    tier3: L1 -> Turn,
    ack: string,
    minL1: int)

  /** Where the request path is in `rewrite`. */
  datatype Reader =
    | Idle
    | ScanBuffer(req: Request, k: nat, picked: seq<nat>)
    | CheckFlight(req: Request, job: Job)
    | CheckQueued(req: Request, job: Job)
    | Mark(req: Request, job: Job)
    | Put(req: Request, job: Job)
    | TestUser(req: Request)
    | TestAsst(req: Request)
    | ScanKept(req: Request, k: nat, kept: seq<nat>, torn: bool, parted: bool)
    | ReadUser(req: Request, kept: seq<nat>, torn: bool, parted: bool)
    | ReadAsst(req: Request, kept: seq<nat>, torn: bool, parted: bool, user: string)
    | Sent(req: Request, kept: seq<nat>, torn: bool, parted: bool, out: Outgoing)

  /** Where the worker is in `_do_sensor_check`. */
  datatype Worker =
    | Waiting
    | Dequeued(job: Job)
    | Picked(job: Job)
    | Assessing(job: Job)
    | Compacting(job: Job)
    | SaveNode(job: Job, node: Node)
    | SaveRaw(job: Job, node: Node)
    | Linking(job: Job, node: Node)
    | ClearFlight(job: Job, node: Node)
    | Absorb(job: Job, node: Node)
    | SetUser(job: Job, node: Node)
    | SetAsst(job: Job, node: Node)
    | Finally(job: Job)

  datatype Sys = Sys(
    sessions: map<string, Session>,
    queue: seq<Job>,
    reader: Reader,
    worker: Worker,
    saved: set<string>,
    raw: map<string, seq<Turn>>,
    log: seq<Request>)

  const INIT := Sys(map[], [], Idle, Waiting, {}, map[], [])

  datatype Event =
    | Arrive(req: Request)
    | ReaderStep
    | Dequeue
    | WorkerStep
    | Verdict(fire: bool)
    | Compacted(result: Option<Node>)
    | SideSave(id: string)  // a bundle's parent or child, or a node saved by another thread
    | Crash

  // ---- Shared state ----

  function Sess(s: Sys, sid: string): Session {
    if sid in s.sessions then s.sessions[sid] else FRESH
  }

  /** An update of a session; the registry ignores sessions it does not know. */
  function WithSession(s: Sys, sid: string, x: Session): Sys {
    if sid in s.sessions then s.(sessions := s.sessions[sid := x]) else s
  }

  function Pick<T>(xs: seq<T>, idx: seq<nat>): seq<T> {
    if idx == [] then []
    else Pick(xs, idx[..|idx| - 1]) + (if idx[|idx| - 1] < |xs| then [xs[idx[|idx| - 1]]] else [])
  }

  function Tier3(cfg: Config, buffer: seq<L1>): (r: seq<Turn>)
    ensures |r| == |buffer| && forall i :: 0 <= i < |buffer| ==> r[i] == cfg.tier3(buffer[i])
  {
    if buffer == [] then [] else [cfg.tier3(buffer[0])] + Tier3(cfg, buffer[1..])
  }

  // ---- The request path ----

  function Arrived(s: Sys, req: Request): Sys {
    s.(sessions := if req.sid in s.sessions then s.sessions else s.sessions[req.sid := FRESH],
       reader := ScanBuffer(req, 0, []),
       log := s.log + [req])
  }

  function ReaderNext(cfg: Config, s: Sys): Sys
    requires !s.reader.Idle?
  {
    match s.reader
    case ScanBuffer(req, k, picked) =>
      var keys := cfg.keys(req.msgs);
      if k < |keys| then
        s.(reader := ScanBuffer(req, k + 1,
          if keys[k] in Sess(s, req.sid).absorbed then picked else picked + [k]))
      else
        var job := Job(req.sid, cfg.bundled(Pick(req.msgs, picked)));
        s.(reader := if |job.buffer| >= cfg.minL1 then CheckFlight(req, job) else TestUser(req))
    case CheckFlight(req, job) =>
      s.(reader := if Sess(s, req.sid).inFlight then TestUser(req) else CheckQueued(req, job))
    case CheckQueued(req, job) =>
      s.(reader := if Sess(s, req.sid).queued then TestUser(req) else Mark(req, job))
    case Mark(req, job) =>
      WithSession(s, req.sid, Sess(s, req.sid).(queued := true)).(reader := Put(req, job))
    case Put(req, job) =>
      s.(queue := s.queue + [job], reader := TestUser(req))
    case TestUser(req) =>
      s.(reader := if Truthy(Sess(s, req.sid).user) then TestAsst(req)
                   else Sent(req, [], false, false, Untouched))
    case TestAsst(req) =>
      s.(reader := if Truthy(Sess(s, req.sid).asst) then ScanKept(req, 0, [], false, false)
                   else Sent(req, [], false, false, Untouched))
    case ScanKept(req, k, kept, torn, parted) =>
      var keys := cfg.keys(req.msgs);
      if k < |keys| then
        s.(reader := ScanKept(req, k + 1,
          if keys[k] in Sess(s, req.sid).absorbed then kept else kept + [k], torn, parted))
      else
        s.(reader := ReadUser(req, kept, torn, parted))
    case ReadUser(req, kept, torn, parted) =>
      s.(reader := ReadAsst(req, kept, torn, parted, TextOr(Sess(s, req.sid).user)))
    case ReadAsst(req, kept, torn, parted, user) =>
      s.(reader := Sent(req, kept, torn, parted,
        Rewritten(user, TextOr(Sess(s, req.sid).asst), Pick(req.msgs, kept))))
    case Sent(_, _, _, _, _) => s.(reader := Idle)
  }

  function TextOr(o: Option<string>): string { if o.Some? then o.value else "" }

  // ---- The worker ----

  /** Some message was already kept by the scan, and the one it comes to next was unabsorbed and is
      absorbed by this update: the scan will drop a message after keeping an earlier one. */
  predicate Tears(cfg: Config, r: Reader, sid: string, before: set<string>, after: set<string>) {
    && r.ScanKept? && r.req.sid == sid && r.kept != []
    && var keys := cfg.keys(r.req.msgs);
       r.k < |keys| && keys[r.k] !in before && keys[r.k] in after
  }

  /** The message that the scan kept last is right before the one it comes to, and calls a tool. */
  predicate BehindCall(req: Request, k: nat, kept: seq<nat>) {
    kept != [] && var i := kept[|kept| - 1]; i + 1 == k && i < |req.msgs| && Uses(req.msgs[i])
  }

  /** A tear behind a kept call parts the call from its result. */
  function TornBy(cfg: Config, r: Reader, sid: string, before: set<string>, after: set<string>): Reader {
    if Tears(cfg, r, sid, before, after) then
      ScanKept(r.req, r.k, r.kept, true, r.parted || BehindCall(r.req, r.k, r.kept))
    else r
  }

  /** Where the request path has a list of kept positions. */
  predicate Keeping(r: Reader) { r.ScanKept? || r.ReadUser? || r.ReadAsst? || r.Sent? }

  /** The worker's steps that do not depend on a model's answer. */
  function WorkerNext(cfg: Config, s: Sys): Sys
    requires Deterministic(s.worker)
  {
    match s.worker
    case Dequeued(job) =>
      WithSession(s, job.sid, Sess(s, job.sid).(queued := false)).(worker := Picked(job))
    case Picked(job) =>
      if |job.buffer| < cfg.minL1 then s.(worker := Waiting)
      else WithSession(s, job.sid, Sess(s, job.sid).(inFlight := true)).(worker := Assessing(job))
    case SaveNode(job, node) => s.(saved := s.saved + {node.id}, worker := SaveRaw(job, node))
    case SaveRaw(job, node) =>
      s.(raw := if job.buffer == [] then s.raw else s.raw[node.id := Tier3(cfg, job.buffer)],
         worker := Linking(job, node))
    case Linking(job, node) => s.(worker := ClearFlight(job, node))
    case ClearFlight(job, node) =>
      WithSession(s, job.sid, Sess(s, job.sid).(inFlight := false))
        .(worker := if node.summary != "" && cfg.ack != "" then Absorb(job, node) else Finally(job))
    case Absorb(job, node) =>
      var before := Sess(s, job.sid).absorbed;
      var after := before + Elems(AllFps(job.buffer));
      WithSession(s, job.sid, Sess(s, job.sid).(absorbed := after))
        .(reader := TornBy(cfg, s.reader, job.sid, before, after), worker := SetUser(job, node))
    case SetUser(job, node) =>
      WithSession(s, job.sid, Sess(s, job.sid).(user := Some(node.summary))).(worker := SetAsst(job, node))
    case SetAsst(job, node) =>
      WithSession(s, job.sid, Sess(s, job.sid).(asst := Some(cfg.ack))).(worker := Finally(job))
    case Finally(job) =>
      WithSession(s, job.sid, Sess(s, job.sid).(inFlight := false)).(worker := Waiting)
  }

  predicate Deterministic(w: Worker) { !w.Waiting? && !w.Assessing? && !w.Compacting? }

  /** The stages that write to the store, and to nothing else. */
  predicate Writes(w: Worker) { w.SaveNode? || w.SaveRaw? || w.Linking? }

  /** Inside the `try`: an exception runs the `finally` clause. */
  predicate Guarded(w: Worker) { !w.Waiting? && !w.Dequeued? && !w.Picked? && !w.Finally? }

  /** A node id that the worker has drawn and may not have saved yet. */
  predicate Drawn(w: Worker, id: string) {
    (w.SaveNode? || w.SaveRaw? || w.Linking?) && w.node.id == id
  }

  predicate Enabled(s: Sys, e: Event) {
    match e
    case Arrive(_) => s.reader.Idle?
    case ReaderStep => !s.reader.Idle?
    case Dequeue => s.worker.Waiting? && s.queue != []
    case WorkerStep => Deterministic(s.worker)
    case Verdict(_) => s.worker.Assessing?
    case Compacted(r) =>
      s.worker.Compacting? && (r.Some? ==> r.value.id !in s.saved && r.value.id !in s.raw)
    case SideSave(id) => id !in s.saved && id !in s.raw && !Drawn(s.worker, id)
    case Crash => Guarded(s.worker) || s.worker.Picked?
  }

  function Apply(cfg: Config, s: Sys, e: Event): Sys
    requires Enabled(s, e)
  {
    match e
    case Arrive(req) => Arrived(s, req)
    case ReaderStep => ReaderNext(cfg, s)
    case Dequeue => s.(queue := s.queue[1..], worker := Dequeued(s.queue[0]))
    case WorkerStep => WorkerNext(cfg, s)
    case Verdict(fire) => s.(worker := if fire then Compacting(s.worker.job) else Finally(s.worker.job))
    case Compacted(r) =>
      s.(worker := if r.Some? then SaveNode(s.worker.job, r.value) else Finally(s.worker.job))
    case SideSave(id) => s.(saved := s.saved + {id})
    case Crash => s.(worker := if Guarded(s.worker) then Finally(s.worker.job) else Waiting)
  }

  /** Every event is enabled when its turn comes. */
  ghost predicate Legal(cfg: Config, evs: seq<Event>, s: Sys)
    decreases |evs|
  {
    evs == [] || (Enabled(s, evs[0]) && Legal(cfg, evs[1..], Apply(cfg, s, evs[0])))
  }

  function Run(cfg: Config, evs: seq<Event>, s: Sys): Sys
    requires Legal(cfg, evs, s)
    decreases |evs|
  {
    if evs == [] then s else Run(cfg, evs[1..], Apply(cfg, s, evs[0]))
  }
}
