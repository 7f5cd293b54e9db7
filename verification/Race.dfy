// The one way a rewrite goes wrong: an absorption that lands inside its second scan. Such a run exists
// for every transcript and every two cut points at which the proxy would compact.
module Race {
  import opened Sequences
  import opened Messages
  import opened Machine
  import opened Coverage
  import opened Sessions
  import opened Trimming
  import opened Pairing
  import opened Uninterrupted

  function Interval(lo: nat, hi: nat): (r: seq<nat>)
    requires lo <= hi
    ensures |r| == hi - lo && forall i :: 0 <= i < |r| ==> r[i] == lo + i
  {
    seq(hi - lo, i requires 0 <= i < hi - lo => lo + i)
  }

  lemma {:induction false} PickInterval<T>(xs: seq<T>, lo: nat, hi: nat)
    requires lo <= hi <= |xs|
    ensures Pick(xs, Interval(lo, hi)) == xs[lo..hi]
  {
    PickAscending(xs, Interval(lo, hi));
  }

  /** The first a keys are absorbed, so the positions up to k that are left are those from a on. */
  lemma {:induction false} UnabsorbedIs(keys: seq<string>, a: nat, k: nat)
    requires Distinct(keys) && a <= k <= |keys|
    ensures Unabsorbed(keys, Elems(keys[..a]), k) == Interval(a, k)
  {
    if k == a {
      NoneLeft(keys, a, k);
    } else {
      UnabsorbedIs(keys, a, k - 1);
      assert forall i :: 0 <= i < a ==> keys[..a][i] != keys[k - 1];
      assert Interval(a, k) == Interval(a, k - 1) + [k - 1];
    }
  }

  lemma {:induction false} NoneLeft(keys: seq<string>, a: nat, k: nat)
    requires k <= a <= |keys|
    ensures Unabsorbed(keys, Elems(keys[..a]), k) == []
  {
    if k > 0 {
      NoneLeft(keys, a, k - 1);
      assert keys[..a][k - 1] == keys[k - 1];
    }
  }

  /** The buffer of a stretch of the transcript carries exactly its keys. */
  lemma {:induction false} StretchKeys(cfg: Config, ms: seq<Message>, lo: nat, hi: nat)
    requires Faithful(cfg, ms) && lo <= hi <= |ms|
    ensures AllFps(cfg.bundled(ms[lo..hi])) == cfg.keys(ms)[lo..hi]
  {
    assert Ascending(Interval(lo, hi), |ms|);
    PickInterval(ms, lo, hi);
    PickInterval(cfg.keys(ms), lo, hi);
  }

  /** The session has absorbed its first a messages; both threads rest; nothing is queued. */
  ghost predicate Resting(cfg: Config, ms: seq<Message>, sid: string, a: nat, s: Sys) {
    && a <= |cfg.keys(ms)| && s.reader.Idle? && s.worker.Waiting? && s.queue == []
    && sid in s.sessions && !s.sessions[sid].queued && !s.sessions[sid].inFlight
    && s.sessions[sid].absorbed == Elems(cfg.keys(ms)[..a])
    && (a > 0 ==> Truthy(s.sessions[sid].user) && Truthy(s.sessions[sid].asst))
  }

  /** The job that a request for the first b messages offers to such a session. */
  lemma {:induction false} StretchJob(cfg: Config, ms: seq<Message>, sid: string, a: nat, b: nat, x: Session)
    requires Faithful(cfg, ms) && a <= b <= |ms| && x.absorbed == Elems(cfg.keys(ms)[..a])
    ensures JobFor(cfg, Request(sid, ms[..b]), x) == Job(sid, cfg.bundled(ms[a..b]))
  {
    var keys := cfg.keys(ms);
    assert cfg.keys(ms[..b]) == keys[..b] && keys[..b][..a] == keys[..a];
    assert Distinct(keys[..b]);
    UnabsorbedIs(keys[..b], a, b);
    PickInterval(ms[..b], a, b);
    assert ms[..b][a..b] == ms[a..b];
  }

  /** A rewrite of the first b messages that offers a job, and the worker's dequeue of it. */
  lemma {:induction false} Offer(cfg: Config, ms: seq<Message>, sid: string, a: nat, b: nat, s0: Sys,
                                 s: Sys) returns (t: Sys)
    requires Faithful(cfg, ms) && a <= b <= |ms| && Reaches(cfg, s0, s)
    requires (s == INIT && a == 0) || Resting(cfg, ms, sid, a, s)
    requires |cfg.bundled(ms[a..b])| >= cfg.minL1
    ensures Reaches(cfg, s0, t)
    ensures var job := Job(sid, cfg.bundled(ms[a..b]));
      t == s.(sessions := t.sessions, log := s.log + [Request(sid, ms[..b])], worker := Dequeued(job))
      && sid in t.sessions && t.sessions[sid] == Sess(s, sid).(queued := true)
  {
    var req, job := Request(sid, ms[..b]), Job(sid, cfg.bundled(ms[a..b]));
    assert cfg.keys(ms)[..0] == [];
    StretchJob(cfg, ms, sid, a, b, Sess(s, sid));
    hide JobFor;
    hide Faithful;
    RewriteReaches(cfg, s, req);
    hide Reaches;
    var u := AfterRewrite(cfg, s, req);
    Then(cfg, s0, s, u);
    ThenEvent(cfg, s0, u, ReaderStep);
    var v := u.(reader := Idle);
    assert v.queue == [job];
    ThenEvent(cfg, s0, v, Dequeue);
    t := v.(queue := [], worker := Dequeued(job));
  }

  /** The first compaction: the session's first a messages are absorbed. */
  lemma {:induction false} FirstCompaction(cfg: Config, ms: seq<Message>, sid: string, a: nat,
                                           node: Node) returns (s: Sys)
    requires Faithful(cfg, ms) && a <= |ms| && |cfg.bundled(ms[..a])| >= cfg.minL1
    requires node.summary != "" && cfg.ack != ""
    ensures Reaches(cfg, INIT, s) && Resting(cfg, ms, sid, a, s)
    ensures s.log == [Request(sid, ms[..a])] && s.saved == {node.id} && s.raw.Keys <= {node.id}
  {
    assert ms[0..a] == ms[..a];
    Uninterrupted.Stay(cfg, INIT);
    var t := Offer(cfg, ms, sid, 0, a, INIT, INIT);
    var job := Job(sid, cfg.bundled(ms[..a]));
    StretchKeys(cfg, ms, 0, a);
    assert cfg.keys(ms)[0..a] == cfg.keys(ms)[..a];
    JobReaches(cfg, t, job, Completes(node, []));
    s := AfterJob(cfg, t, job, Completes(node, []));
    hide Faithful;
    hide Tier3;
    hide AllFps;
    Then(cfg, INIT, t, s);
    assert Elems<string>([]) == {};
  }

  /** The worker brings its job to the point just before it absorbs. */
  lemma {:induction false} ToAbsorption(cfg: Config, s0: Sys, s: Sys, job: Job, node: Node) returns (t: Sys)
    requires Reaches(cfg, s0, s) && s.worker == Dequeued(job) && |job.buffer| >= cfg.minL1 && job.sid in s.sessions
    requires node.summary != "" && cfg.ack != "" && node.id !in s.saved && node.id !in s.raw
    ensures Reaches(cfg, s0, t)
    ensures t == s.(sessions := t.sessions, saved := t.saved, raw := t.raw, worker := Absorb(job, node))
    ensures job.sid in t.sessions && t.sessions[job.sid] == s.sessions[job.sid].(queued := false, inFlight := false)
  {
    StartRuns(cfg, s, job);
    hide Reaches;
    hide Tier3;
    var picked := SetQueued(s.sessions, job.sid, false);
    var started := SetFlight(picked, job.sid, true);
    var u := s.(sessions := started);
    Then(cfg, s0, s, u.(worker := Assessing(job)));
    JudgeRuns(cfg, s0, u, job, Completes(node, []));
    SaveRuns(cfg, s0, u, job, node);
    var v := u.(saved := u.saved + {node.id}, raw := RawAfter(cfg, u.raw, job, node));
    ClearRuns(cfg, s0, v, job, node);
    t := v.(sessions := SetFlight(v.sessions, job.sid, false), worker := Absorb(job, node));
  }

  /** A request for the first n messages, up to the test of message k in its second scan. */
  lemma {:induction false} IntoSecondScan(cfg: Config, ms: seq<Message>, sid: string, a: nat, k: nat, n: nat, s0: Sys,
                                          s: Sys)
    returns (t: Sys)
    requires Faithful(cfg, ms) && a <= k <= n <= |ms| && Reaches(cfg, s0, s) && s.reader.Idle? && sid in s.sessions
    requires var x := s.sessions[sid]; x.absorbed == Elems(cfg.keys(ms)[..a]) && Truthy(x.user) && Truthy(x.asst)
    ensures Reaches(cfg, s0, t)
    ensures t == s.(sessions := t.sessions, queue := t.queue, log := s.log + [Request(sid, ms[..n])],
                    reader := ScanKept(Request(sid, ms[..n]), k, Interval(a, k), false, false))
    ensures sid in t.sessions && t.sessions[sid].(queued := false) == s.sessions[sid].(queued := false)
  {
    var req := Request(sid, ms[..n]);
    var keys := cfg.keys(ms);
    assert cfg.keys(req.msgs) == keys[..n] && keys[..n][..a] == keys[..a] && Distinct(keys[..n]);
    UnabsorbedIs(keys[..n], a, k);
    hide Faithful;
    hide JobFor;
    OfferRuns(cfg, s, req);
    hide Reaches;
    var u := Offered(cfg, s, req);
    Then(cfg, s0, s, u);
    ThenEvent(cfg, s0, u, ReaderStep);
    ThenEvent(cfg, s0, u.(reader := TestAsst(req)), ReaderStep);
    ScanKeptRuns(cfg, s0, u, req, k);
    t := u.(reader := ScanKept(req, k, Interval(a, k), false, false));
  }

  /** The absorption behind the scan. */
  lemma {:induction false} Tear(cfg: Config, s0: Sys, s: Sys, job: Job, node: Node, req: Request, k: nat,
                                kept: seq<nat>)
    returns (t: Sys)
    requires Reaches(cfg, s0, s) && s.worker == Absorb(job, node) && s.reader == ScanKept(req, k, kept, false, false)
    requires req.sid == job.sid && job.sid in s.sessions && kept != [] && k < |cfg.keys(req.msgs)|
    requires cfg.keys(req.msgs)[k] !in s.sessions[job.sid].absorbed
    requires cfg.keys(req.msgs)[k] in Elems(AllFps(job.buffer))
    ensures Reaches(cfg, s0, t)
    ensures t == s.(sessions := t.sessions, reader := ScanKept(req, k, kept, true, BehindCall(req, k, kept)),
                    worker := SetUser(job, node))
    ensures job.sid in t.sessions
    ensures var x := s.sessions[job.sid];
      t.sessions[job.sid] == x.(absorbed := x.absorbed + Elems(AllFps(job.buffer)))
  {
    hide Elems;
    hide AllFps;
    ThenEvent(cfg, s0, s, WorkerStep);
    t := Apply(cfg, s, WorkerStep);
  }

  /** The rest of the scan finds everything absorbed and drops it. */
  lemma {:induction false} DropRest(cfg: Config, s0: Sys, t: Sys, req: Request, k: nat, kept: seq<nat>, torn: bool,
                                    parted: bool)
    requires Reaches(cfg, s0, t.(reader := ScanKept(req, k, kept, torn, parted))) && k <= |cfg.keys(req.msgs)|
    requires forall i :: k <= i < |cfg.keys(req.msgs)| ==> cfg.keys(req.msgs)[i] in Sess(t, req.sid).absorbed
    ensures Reaches(cfg, s0, t.(reader := ScanKept(req, |cfg.keys(req.msgs)|, kept, torn, parted)))
    decreases |cfg.keys(req.msgs)| - k
  {
    hide Reaches;
    if k < |cfg.keys(req.msgs)| {
      ThenEvent(cfg, s0, t.(reader := ScanKept(req, k, kept, torn, parted)), ReaderStep);
      DropRest(cfg, s0, t, req, k + 1, kept, torn, parted);
    }
  }

  /** Take any transcript that serves the protocol, and any two cut points a < n at which the proxy
      compacts, to whatever nodes. For every k strictly between them there is a run whose outgoing array keeps messages
      a to k - 1 and loses all after them; it is marked parted when the last of these calls a tool. */
  lemma {:induction false} SecondScanCanTear(cfg: Config, ms: seq<Message>, sid: string, a: nat, k: nat, n: nat,
                                            one: Node, two: Node)
    returns (s: Sys)
    requires Faithful(cfg, ms) && 0 < a < k < n <= |ms| && cfg.ack != ""
    requires |cfg.bundled(ms[..a])| >= cfg.minL1 && |cfg.bundled(ms[a..n])| >= cfg.minL1
    requires one.id != two.id && one.summary != "" && two.summary != ""
    ensures Reaches(cfg, INIT, s) && forall r :: r in s.log ==> r.sid == sid && r.msgs <= ms
    ensures s.reader.Sent? && s.reader.req == Request(sid, ms[..n]) && s.reader.torn
    ensures s.reader.out.Rewritten? && s.reader.out.kept == ms[a..k] && (s.reader.parted <==> Uses(ms[k - 1]))
  {
    hide Faithful;
    hide Reaches;
    hide Elems;
    hide AllFps;
    var s1 := FirstCompaction(cfg, ms, sid, a, one);
    var s2 := Offer(cfg, ms, sid, a, n, INIT, s1);
    var job := Job(sid, cfg.bundled(ms[a..n]));
    var s3 := ToAbsorption(cfg, INIT, s2, job, two);
    var s4 := IntoSecondScan(cfg, ms, sid, a, k, n, INIT, s3);
    StretchKeys(cfg, ms, a, n);
    TearConditions(cfg, ms, a, k, n);
    hide *;
    s := FinishTorn(cfg, s4, job, two, Request(sid, ms[..n]), k, Interval(a, k));
    IntervalOf(a, k);
    PickInterval(ms[..n], a, k);
    BehindInterval(Request(sid, ms[..n]), a, k);
    assert ms[..n][a..k] == ms[a..k];
  }

  lemma {:induction false} BehindInterval(req: Request, a: nat, k: nat)
    requires a < k <= |req.msgs|
    ensures BehindCall(req, k, Interval(a, k)) <==> Uses(req.msgs[k - 1])
  {
    hide Uses;
  }

  lemma {:induction false} IntervalOf(lo: nat, hi: nat)
    requires lo <= hi
    ensures |Interval(lo, hi)| == hi - lo
  {}

  /** From the absorption behind the scan to the torn array. */
  lemma {:induction false} FinishTorn(cfg: Config, s4: Sys, job: Job, node: Node, req: Request, k: nat, kept: seq<nat>)
    returns (s: Sys)
    requires Reaches(cfg, INIT, s4)
    requires s4.worker == Absorb(job, node) && s4.reader == ScanKept(req, k, kept, false, false)
    requires req.sid == job.sid && job.sid in s4.sessions && kept != [] && k < |cfg.keys(req.msgs)|
    requires cfg.keys(req.msgs)[k] !in s4.sessions[job.sid].absorbed
    requires forall i :: k <= i < |cfg.keys(req.msgs)| ==> cfg.keys(req.msgs)[i] in Elems(AllFps(job.buffer))
    requires s4.sessions[job.sid].user.Some? && s4.sessions[job.sid].asst.Some?
    ensures Reaches(cfg, INIT, s) && s.log == s4.log
    ensures s.reader.Sent? && s.reader.req == req && s.reader.torn && s.reader.parted == BehindCall(req, k, kept)
    ensures s.reader.out.Rewritten? && s.reader.out.kept == Pick(req.msgs, kept)
  {
    var t := Tear(cfg, INIT, s4, job, node, req, k, kept);
    hide Pick;
    hide Reaches;
    hide AllFps;
    var parted := BehindCall(req, k, kept);
    assert t == t.(reader := ScanKept(req, k, kept, true, parted));
    DropRest(cfg, INIT, t, req, k, kept, true, parted);
    PairRuns(cfg, INIT, t, req, kept, true, parted);
    var x := t.sessions[req.sid];
    s := t.(reader := Sent(req, kept, true, parted, Rewritten(x.user.value, x.asst.value, Pick(req.msgs, kept))));
  }

  lemma {:induction false} TearConditions(cfg: Config, ms: seq<Message>, a: nat, k: nat, n: nat)
    requires Faithful(cfg, ms) && a < k < n <= |ms|
    ensures var keys := cfg.keys(ms[..n]);
      && |keys| == n
      && keys[k] !in Elems(cfg.keys(ms)[..a])
      && (forall i :: k <= i < n ==> keys[i] in Elems(cfg.keys(ms)[a..n]))
  {
    var keys := cfg.keys(ms);
    assert cfg.keys(ms[..n]) == keys[..n];
    assert forall i :: 0 <= i < a ==> keys[..a][i] != keys[k];
    forall i | k <= i < n ensures keys[i] in Elems(keys[a..n]) { assert keys[a..n][i - a] == keys[i]; }
  }

  /** In such a run a tool call can go out without its result: when the scan is torn between the two. */
  lemma {:induction false} TornCallIsOrphaned(cfg: Config, ms: seq<Message>, sid: string, a: nat, k: nat, n: nat,
                                             one: Node, two: Node, id: string)
    returns (s: Sys)
    requires Faithful(cfg, ms) && 0 < a < k < n <= |ms| && cfg.ack != ""
    requires |cfg.bundled(ms[..a])| >= cfg.minL1 && |cfg.bundled(ms[a..n])| >= cfg.minL1
    requires one.id != two.id && one.summary != "" && two.summary != "" && Calls(ms[k - 1], id)
    ensures Reaches(cfg, INIT, s) && s.reader.Sent? && s.reader.req == Request(sid, ms[..n])
    ensures s.reader.parted && !Paired(ArrayOf(s.reader.req.msgs, s.reader.out))
  {
    s := SecondScanCanTear(cfg, ms, sid, a, k, n, one, two);
    UsesIsCalls(ms[k - 1]);
    hide Uses;
    hide Calls;
    hide Replies;
    hide SummaryPair;
    var out := ArrayOf(s.reader.req.msgs, s.reader.out);
    assert out[|out| - 1] == ms[k - 1] by { assert ms[a..k][k - 1 - a] == ms[k - 1]; }
  }

  /** Torn elsewhere the array is no suffix, but it is paired: if the requests are paired, what such a run sends
      is paired exactly when the last message that it keeps calls no tool. */
  lemma {:induction false} TornPairedIff(cfg: Config, ms: seq<Message>, sid: string, a: nat, k: nat, n: nat,
                                        one: Node, two: Node)
    returns (s: Sys)
    requires Faithful(cfg, ms) && 0 < a < k < n <= |ms| && cfg.ack != ""
    requires |cfg.bundled(ms[..a])| >= cfg.minL1 && |cfg.bundled(ms[a..n])| >= cfg.minL1
    requires one.id != two.id && one.summary != "" && two.summary != "" && Paired(ms[..a]) && Paired(ms[..n])
    ensures Reaches(cfg, INIT, s) && s.reader.Sent? && s.reader.req == Request(sid, ms[..n]) && s.reader.torn
    ensures Paired(ArrayOf(s.reader.req.msgs, s.reader.out)) <==> !Uses(ms[k - 1])
  {
    s := SecondScanCanTear(cfg, ms, sid, a, k, n, one, two);
    IntervalPaired(ms[..n], a, k, s.reader.out.user, s.reader.out.asst);
    assert ms[..n][..a] == ms[..a] && ms[..n][a..k] == ms[a..k];
    hide *;
    ArrayIs(s.reader.req.msgs, s.reader.out);
  }

  lemma {:induction false} ArrayIs(msgs: seq<Message>, out: Outgoing)
    requires out.Rewritten?
    ensures ArrayOf(msgs, out) == SummaryPair(out.user, out.asst) + out.kept
  {}

  lemma {:induction false} IntervalPaired(msgs: seq<Message>, a: nat, k: nat, user: string, asst: string)
    requires a < k < |msgs| && Paired(msgs[..a]) && Paired(msgs)
    ensures Paired(SummaryPair(user, asst) + msgs[a..k]) <==> !Uses(msgs[k - 1])
  {
    var kept := Interval(a, k);
    PickInterval(msgs, a, k);
    hide Paired;
    hide Uses;
    hide Replies;
    forall j, id | j in kept && j < |msgs| && Replies(msgs[j], id) ensures j > 0 && j - 1 in kept {
      if j == a { CutIsNoResult(msgs, a, id); } else { assert kept[j - 1 - a] == j - 1; }
    }
    KeptPairedIff(msgs, kept, user, asst);
    IntervalFollowed(msgs, a, k);
  }

  lemma {:induction false} IntervalFollowed(msgs: seq<Message>, a: nat, k: nat)
    requires a < k < |msgs|
    ensures CallsFollowed(msgs, Interval(a, k)) <==> !Uses(msgs[k - 1])
  {
    var kept := Interval(a, k);
    UsesIsCalls(msgs[k - 1]);
    hide Calls;
    hide Uses;
    assert kept[k - 1 - a] == k - 1 && k !in kept;
    forall i, id | i in kept && i < |msgs| && Calls(msgs[i], id) ensures i + 1 in kept || i == k - 1 {
      if i < k - 1 { assert kept[i + 1 - a] == i + 1; }
    }
  }
}
