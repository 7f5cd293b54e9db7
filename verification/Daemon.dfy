// The transcript worker: each job parses a session's transcript, takes the nodes that no earlier pass
// consumed, and may save them as one memory node.
module Daemon {
  import opened Sequences
  import opened Text
  import Runs
  import opened Transcript
  import Graph
  import opened NodeTables

  /** The truncated SHA-1 of a text; any function. */
  type Digest = string -> string

  function Fp(h: Digest, n: Logical): string {
    var base := Join("|", n.uuids);
    h(if base != "" then base else Prefix(n.raw, 200))
  }

  function Fps(h: Digest, ns: seq<Logical>): (r: seq<string>)
    ensures |r| == |ns| && forall i :: 0 <= i < |ns| ==> r[i] == Fp(h, ns[i])
  {
    if ns == [] then [] else Fps(h, ns[..|ns| - 1]) + [Fp(h, ns[|ns| - 1])]
  }

  /** The nodes of a pass: neither consumed before nor repeated within it. */
  function Unconsumed(h: Digest, ns: seq<Logical>, consumed: set<string>): seq<Logical> {
    if ns == [] then []
    else
      var init, last := Unconsumed(h, ns[..|ns| - 1], consumed), ns[|ns| - 1];
      if Fp(h, last) in consumed || Fp(h, last) in Fps(h, init) then init else init + [last]
  }

  /** How a pass ends: the sensor sees no reason, the compacter gives nothing, something raises before the
      node is saved, the node is saved, or it is saved and then something raises. */
  datatype Outcome =
    | NotDue
    | NoSummary
    | Failed
    | Saved(node: Graph.MemoryNode, brief: string)
    | SavedThenFailed(node: Graph.MemoryNode)

  datatype Job = Job(sid: string, entries: seq<Entry>, outcome: Outcome)

  /** A node saved by the worker, with the transcript of its pass and the nodes it absorbed. */
  datatype Absorption = Absorption(sid: string, id: string, entries: seq<Entry>, buffer: seq<Logical>)

  datatype Worker = Worker(consumed: map<string, set<string>>, absorbed: seq<Absorption>)

  const START := Worker(map[], [])

  function Consumed(s: Worker, sid: string): set<string> {
    if sid in s.consumed then s.consumed[sid] else {}
  }

  function BufferOf(h: Digest, s: Worker, job: Job): seq<Logical> {
    Unconsumed(h, Parse(job.entries), Consumed(s, job.sid))
  }

  /** What a pass with this buffer leaves. */
  function Ended(h: Digest, s: Worker, job: Job, buffer: seq<Logical>): Worker {
    match job.outcome
    case Saved(node, _) =>
      Worker(s.consumed[job.sid := Consumed(s, job.sid) + Elems(Fps(h, buffer))],
             s.absorbed + [Absorption(job.sid, node.id, job.entries, buffer)])
    case SavedThenFailed(node) =>
      s.(absorbed := s.absorbed + [Absorption(job.sid, node.id, job.entries, buffer)])
    case _ => s
  }

  function Step(h: Digest, s: Worker, job: Job): Worker {
    var buffer := BufferOf(h, s, job);
    if buffer == [] then s else Ended(h, s, job, buffer)
  }

  function Run(h: Digest, s: Worker, jobs: seq<Job>): Worker {
    if jobs == [] then s else Step(h, Run(h, s, jobs[..|jobs| - 1]), jobs[|jobs| - 1])
  }

  lemma {:induction false} JobsSnoc(h: Digest, s: Worker, jobs: seq<Job>, job: Job)
    ensures Run(h, s, jobs + [job]) == Step(h, Run(h, s, jobs), job)
  {
    hide Step;
    assert (jobs + [job])[..|jobs|] == jobs;
  }

  // ---- Exactly once ----

  function AbsorbedBy(h: Digest, abs: seq<Absorption>, sid: string): set<string> {
    set i, fp | 0 <= i < |abs| && abs[i].sid == sid && fp in Fps(h, abs[i].buffer) :: fp
  }

  /** No fingerprint is absorbed twice, within a node or by two nodes of a session. */
  ghost predicate OnceEach(h: Digest, abs: seq<Absorption>) {
    && (forall i :: 0 <= i < |abs| ==> Distinct(Fps(h, abs[i].buffer)))
    && (forall i, j, fp :: 0 <= i < j < |abs| && abs[i].sid == abs[j].sid && fp in Fps(h, abs[i].buffer) ==>
          fp !in Fps(h, abs[j].buffer))
  }

  /** The absorbed fingerprints of each session are disjoint, and together they are its consumed set. */
  ghost predicate Accounted(h: Digest, s: Worker) {
    OnceEach(h, s.absorbed) && forall sid :: Consumed(s, sid) == AbsorbedBy(h, s.absorbed, sid)
  }

  lemma {:induction false} UnconsumedIsNew(h: Digest, ns: seq<Logical>, consumed: set<string>)
    ensures var fps := Fps(h, Unconsumed(h, ns, consumed));
      Distinct(fps) && forall i :: 0 <= i < |fps| ==> fps[i] !in consumed
  {
    hide Fp;
    if ns != [] { UnconsumedIsNew(h, ns[..|ns| - 1], consumed); }
  }

  lemma {:induction false} AbsorbedMore(h: Digest, abs: seq<Absorption>, a: Absorption, sid: string)
    ensures AbsorbedBy(h, abs + [a], sid)
      == AbsorbedBy(h, abs, sid) + if a.sid == sid then Elems(Fps(h, a.buffer)) else {}
  {
    hide Fps;
    var all := abs + [a];
    forall fp | fp in AbsorbedBy(h, abs, sid) ensures fp in AbsorbedBy(h, all, sid) {
      var i :| 0 <= i < |abs| && abs[i].sid == sid && fp in Fps(h, abs[i].buffer);
      assert all[i] == abs[i];
    }
    forall fp | a.sid == sid && fp in Fps(h, a.buffer) ensures fp in AbsorbedBy(h, all, sid) {
      assert all[|abs|] == a;
    }
  }

  lemma {:induction false} OnceMore(h: Digest, abs: seq<Absorption>, a: Absorption)
    requires OnceEach(h, abs) && Distinct(Fps(h, a.buffer))
    requires forall fp :: fp in AbsorbedBy(h, abs, a.sid) ==> fp !in Fps(h, a.buffer)
    ensures OnceEach(h, abs + [a])
  {
    hide Fps;
    var all := abs + [a];
    forall i, j, fp | 0 <= i < j < |all| && all[i].sid == all[j].sid && fp in Fps(h, all[i].buffer)
      ensures fp !in Fps(h, all[j].buffer)
    {
      if j == |abs| { assert fp in AbsorbedBy(h, abs, a.sid); }
    }
  }

  /** The pass saves a node and then forgets that it did. */
  predicate Forgets(h: Digest, s: Worker, job: Job) { job.outcome.SavedThenFailed? && BufferOf(h, s, job) != [] }

  /** A pass keeps the account exactly unless something raises between saving its node and marking its
      turns as consumed. */
  lemma {:induction false} StepAccounts(h: Digest, s: Worker, job: Job)
    requires Accounted(h, s)
    ensures Accounted(h, Step(h, s, job)) <==> !Forgets(h, s, job)
  {
    var t := Step(h, s, job);
    var buffer := BufferOf(h, s, job);
    UnconsumedIsNew(h, Parse(job.entries), Consumed(s, job.sid));
    hide Unconsumed;
    hide AbsorbedBy;
    hide OnceEach;
    if t != s {
      var a := Absorption(job.sid, job.outcome.node.id, job.entries, buffer);
      forall sid ensures AbsorbedBy(h, t.absorbed, sid)
        == AbsorbedBy(h, s.absorbed, sid) + if job.sid == sid then Elems(Fps(h, buffer)) else {}
      {
        AbsorbedMore(h, s.absorbed, a, sid);
      }
      forall fp | fp in AbsorbedBy(h, s.absorbed, job.sid) ensures fp !in Fps(h, buffer) {
        assert fp in Consumed(s, job.sid);
      }
      OnceMore(h, s.absorbed, a);
      assert Fp(h, buffer[0]) in Elems(Fps(h, buffer)) && Fp(h, buffer[0]) !in Consumed(s, job.sid);
    }
  }

  /** Over any sequence of jobs, with failures of the models or before the save anywhere, the sets absorbed
      by a session's nodes are pairwise disjoint and their union is its consumed set. */
  lemma {:induction false} RunAccounts(h: Digest, jobs: seq<Job>)
    requires forall i :: 0 <= i < |jobs| ==> !jobs[i].outcome.SavedThenFailed?
    ensures Accounted(h, Run(h, START, jobs))
  {
    if jobs == [] {
      assert forall sid :: AbsorbedBy(h, [], sid) == {};
    } else {
      RunAccounts(h, jobs[..|jobs| - 1]);
      StepAccounts(h, Run(h, START, jobs[..|jobs| - 1]), jobs[|jobs| - 1]);
    }
  }

  // ---- In order ----

  ghost predicate Elem(n: Logical, ns: seq<Logical>) { n in ns }

  /** Fingerprints tell the nodes of a growing transcript apart. */
  ghost predicate Identifying(h: Digest, tr: seq<Entry>) {
    && (forall k :: 0 <= k <= |tr| ==> Distinct(Fps(h, Parse(tr[..k]))))
    && (forall k, l, x, y ::
          0 <= k <= |tr| && 0 <= l <= |tr| && Elem(x, Parse(tr[..k])) && Elem(y, Parse(tr[..l])) ==>
            Fp(h, x) == Fp(h, y) ==> x == y)
  }

  /** What is consumed is passed over; the rest is taken, in order. */
  lemma {:induction false} UnconsumedAfter(h: Digest, a: seq<Logical>, b: seq<Logical>, consumed: set<string>)
    requires forall x :: x in a ==> Fp(h, x) in consumed
    requires Distinct(Fps(h, b)) && forall x :: x in b ==> Fp(h, x) !in consumed
    ensures Unconsumed(h, a + b, consumed) == b
  {
    hide Fp;
    if b != [] {
      var init, last := b[..|b| - 1], b[|b| - 1];
      assert (a + b)[..|a + b| - 1] == a + init && (a + b)[|a + b| - 1] == last && b == init + [last];
      assert Fps(h, b) == Fps(h, init) + [Fp(h, last)];
      UnconsumedAfter(h, a, init, consumed);
      assert last in b;
    } else if a != [] {
      assert (a + b)[..|a + b| - 1] == a[..|a| - 1] + [] && (a + b)[|a + b| - 1] == a[|a| - 1];
      UnconsumedAfter(h, a[..|a| - 1], [], consumed);
    }
  }

  lemma {:induction false} FpsParts(h: Digest, a: seq<Logical>, b: seq<Logical>)
    requires Distinct(Fps(h, a + b))
    ensures Distinct(Fps(h, b)) && forall x, y :: x in a && y in b ==> Fp(h, x) != Fp(h, y)
  {
    hide Fp;
    forall x, y | x in a && y in b ensures Fp(h, x) != Fp(h, y) {
      var i :| 0 <= i < |a| && a[i] == x;
      var j :| 0 <= j < |b| && b[j] == y;
      assert (a + b)[i] == x && (a + b)[|a| + j] == y;
    }
    forall i, j | 0 <= i < j < |b| ensures Fp(h, b[i]) != Fp(h, b[j]) {
      assert (a + b)[|a| + i] == b[i] && (a + b)[|a| + j] == b[j];
    }
  }

  lemma {:induction false} NotListed(h: Digest, a: seq<Logical>, b: seq<Logical>)
    requires forall x, y :: x in a && y in b ==> Fp(h, x) != Fp(h, y)
    ensures forall y :: y in b ==> Fp(h, y) !in Elems(Fps(h, a))
  {
    hide Fp;
    forall y | y in b ensures Fp(h, y) !in Elems(Fps(h, a)) {
      forall i | 0 <= i < |a| ensures Fps(h, a)[i] != Fp(h, y) { assert a[i] in a; }
    }
  }

  /** A pass over a longer transcript, after one that consumed its first m entries, takes exactly the
      nodes of the entries after them, unless the cut fell inside a tool run. */
  lemma {:induction false} PassTakesTheRest(h: Digest, tr: seq<Entry>, m: nat, n: nat, consumed: set<string>)
    requires Identifying(h, tr) && m <= n <= |tr| && consumed == Elems(Fps(h, Parse(tr[..m])))
    ensures Unconsumed(h, Parse(tr[..n]), consumed) == Parse(tr[m..n])
      <==> !Runs.CutsRun(tr[..m], tr[m..n], EntryKind)
  {
    var a, b := tr[..m], tr[m..n];
    assert tr[..n] == a + b;
    hide Fp;
    if Runs.CutsRun(a, b, EntryKind) {
      var _, _ := RunTakenAgain(h, tr, m, n, consumed);
    } else {
      ParseSplit(a, b);
      FpsParts(h, Parse(a), Parse(b));
      FpsListed(h, Parse(a));
      NotListed(h, Parse(a), Parse(b));
      hide *;
      UnconsumedAfter(h, Parse(a), Parse(b), consumed);
    }
  }

  lemma {:induction false} FirstTaken(h: Digest, a: seq<Logical>, y: Logical, c: seq<Logical>, consumed: set<string>)
    requires forall x :: x in a ==> Fp(h, x) in consumed
    requires Fp(h, y) !in consumed
    ensures var u := Unconsumed(h, a + [y] + c, consumed); u != [] && u[0] == y
  {
    hide Fp;
    if c == [] {
      assert a + [y] + c == a + [y];
      assert Fps(h, [y]) == [Fp(h, y)];
      UnconsumedAfter(h, a, [y], consumed);
    } else {
      var all := a + [y] + c;
      assert all[..|all| - 1] == a + [y] + c[..|c| - 1];
      FirstTaken(h, a, y, c[..|c| - 1], consumed);
    }
  }

  /** Cut inside a run: the pass takes the whole run again. Its first node lists the entries of a node
      that is already consumed, followed by the rest of the run. */
  lemma {:induction false} RunTakenAgain(h: Digest, tr: seq<Entry>, m: nat, n: nat, consumed: set<string>)
    returns (open: Logical, again: Logical)
    requires Identifying(h, tr) && m <= n <= |tr| && consumed == Elems(Fps(h, Parse(tr[..m])))
    requires Runs.CutsRun(tr[..m], tr[m..n], EntryKind)
    ensures open in Parse(tr[..m]) && Fp(h, open) in consumed
    ensures var u := Unconsumed(h, Parse(tr[..n]), consumed); u != [] && u[0] == again
    ensures open.uuids < again.uuids
    ensures Parse(tr[m..n]) == [] || Parse(tr[m..n])[0] != again
  {
    var a, b := tr[..m], tr[m..n];
    assert tr[..n] == a + b;
    var before, run := ParseMerge(a, b);
    var k := Runs.RunLength(b, EntryKind);
    var rest := Parse(b[k..]);
    open, again := BundleNode(run), BundleNode(run + b[..k]);
    GrownRun(run, b[..k]);
    hide *;
    assert Parse(a)[|before|] == open;
    assert Parse(tr[..n]) == before + [again] + rest;
    AgainIsNew(h, tr, m, n, before, open, again, rest);
    FpsListed(h, Parse(a));
    forall x | x in before ensures Fp(h, x) in consumed {
      assert x in Parse(a);
    }
    FirstTaken(h, before, again, rest, consumed);
    RestStartsElsewhere(b, k, again);
  }

  lemma {:induction false} FpsListed(h: Digest, ns: seq<Logical>)
    ensures forall x :: x in ns ==> Fp(h, x) in Elems(Fps(h, ns))
  {
    hide Fp;
    forall x | x in ns ensures Fp(h, x) in Elems(Fps(h, ns)) {
      var i :| 0 <= i < |ns| && ns[i] == x;
      assert Fps(h, ns)[i] == Fp(h, x);
    }
  }

  lemma {:induction false} GrownRun(run: seq<Entry>, more: seq<Entry>)
    requires more != []
    ensures BundleNode(run).uuids < BundleNode(run + more).uuids
    ensures |BundleNode(run + more).uuids| == |run| + |more|
  {
    var r, s := Uuids(run), Uuids(run + more);
    assert forall i :: 0 <= i < |run| ==> r[i] == s[i];
  }

  lemma {:induction false} OneMoreFp(h: Digest, ns: seq<Logical>, n: Logical)
    ensures Elems(Fps(h, ns + [n])) == Elems(Fps(h, ns)) + {Fp(h, n)}
  {
    FpsOfParts(h, ns, [n]);
    hide Fp;
    assert Fps(h, [n]) == [Fp(h, n)];
  }

  lemma {:induction false} NewAmong(h: Digest, before: seq<Logical>, open: Logical, again: Logical, rest: seq<Logical>)
    requires Distinct(Fps(h, before + [again] + rest)) && Fp(h, open) != Fp(h, again)
    ensures Fp(h, again) !in Elems(Fps(h, before + [open])) && again !in rest
  {
    hide *;
    assert before + [again] + rest == before + ([again] + rest);
    FpsParts(h, before, [again] + rest);
    FpsParts(h, before + [again], rest);
    assert ([again] + rest)[0] == again && (before + [again])[|before|] == again;
    NotListed(h, before, [again] + rest);
    OneMoreFp(h, before, open);
  }

  lemma {:induction false} AgainIsNew(h: Digest, tr: seq<Entry>, m: nat, n: nat, before: seq<Logical>,
                                      open: Logical, again: Logical, rest: seq<Logical>)
    requires Identifying(h, tr) && m <= n <= |tr|
    requires Parse(tr[..m]) == before + [open] && Parse(tr[..n]) == before + [again] + rest && open != again
    ensures Fp(h, again) !in Elems(Fps(h, Parse(tr[..m])))
    ensures again !in rest
  {
    hide Parse;
    hide Fp;
    hide Fps;
    assert Elem(open, Parse(tr[..m])) by { assert (before + [open])[|before|] == open; }
    assert Elem(again, Parse(tr[..n])) by { assert (before + [again] + rest)[|before|] == again; }
    NewAmong(h, before, open, again, rest);
  }

  lemma {:induction false} RestStartsElsewhere(b: seq<Entry>, k: nat, again: Logical)
    requires k == Runs.RunLength(b, EntryKind) && k < |again.uuids| && again !in Parse(b[k..])
    ensures Parse(b) == [] || Parse(b)[0] != again
  {
    var b1, b2 := b[..k], b[k..];
    assert b == b1 + b2;
    ParseSplit(b1, b2);
    ParseUuids(b1);
    var p := Parse(b1);
    if p != [] { assert AllUuids(p) == p[0].uuids + AllUuids(p[1..]); }
  }

  // ---- Growing transcripts ----

  /** Length of the transcript of the session's last saving pass. */
  function LastLength(abs: seq<Absorption>, sid: string): nat {
    if abs == [] then 0
    else if abs[|abs| - 1].sid == sid then |abs[|abs| - 1].entries|
    else LastLength(abs[..|abs| - 1], sid)
  }

  /** The nodes that a session's saving passes took, one pass after the other. */
  function Drained(abs: seq<Absorption>, sid: string): seq<Logical> {
    if abs == [] then []
    else Drained(abs[..|abs| - 1], sid) + if abs[|abs| - 1].sid == sid then abs[|abs| - 1].buffer else []
  }

  type Transcripts = string -> seq<Entry>

  /** Each job reads the current state of a growing transcript, and a saving pass ends outside an open run. */
  ghost predicate LegalJob(tr: Transcripts, s: Worker, job: Job) {
    && job.entries <= tr(job.sid) && LastLength(s.absorbed, job.sid) <= |job.entries|
    && !job.outcome.SavedThenFailed?
    && (job.outcome.Saved? ==> !Runs.OpenAtEnd(job.entries, EntryKind))
  }

  ghost predicate Legal(h: Digest, tr: Transcripts, jobs: seq<Job>) {
    forall i :: 0 <= i < |jobs| ==> LegalJob(tr, Run(h, START, jobs[..i]), jobs[i])
  }

  ghost predicate DrainedInOrder(h: Digest, tr: Transcripts, s: Worker, sid: string) {
    var m := LastLength(s.absorbed, sid);
    && m <= |tr(sid)|
    && Drained(s.absorbed, sid) == Parse(tr(sid)[..m])
    && Consumed(s, sid) == Elems(Fps(h, Parse(tr(sid)[..m])))
    && !Runs.OpenAtEnd(tr(sid)[..m], EntryKind)
  }

  lemma {:induction false} AbsorbedOneMore(abs: seq<Absorption>, a: Absorption, sid: string)
    ensures LastLength(abs + [a], sid) == if a.sid == sid then |a.entries| else LastLength(abs, sid)
    ensures Drained(abs + [a], sid) == Drained(abs, sid) + if a.sid == sid then a.buffer else []
  {
    assert (abs + [a])[..|abs|] == abs;
  }

  lemma {:induction false} FpsOfParts(h: Digest, a: seq<Logical>, b: seq<Logical>)
    ensures Elems(Fps(h, a + b)) == Elems(Fps(h, a)) + Elems(Fps(h, b))
  {
    hide Fp;
    assert Fps(h, a + b) == Fps(h, a) + Fps(h, b);
  }

  lemma {:induction false} NotOpenNotCut(a: seq<Entry>, b: seq<Entry>)
    requires !Runs.OpenAtEnd(a, EntryKind)
    ensures !Runs.CutsRun(a, b, EntryKind)
  {}

  /** What a pass takes and, if it saves, what the session's nodes then hold. */
  lemma {:induction false} PassInOrder(h: Digest, tr: seq<Entry>, m: nat, n: nat, consumed: set<string>)
    requires Identifying(h, tr) && m <= n <= |tr| && consumed == Elems(Fps(h, Parse(tr[..m])))
    requires !Runs.OpenAtEnd(tr[..m], EntryKind)
    ensures var buffer := Unconsumed(h, Parse(tr[..n]), consumed);
      && buffer == Parse(tr[m..n]) && Parse(tr[..m]) + buffer == Parse(tr[..n])
      && consumed + Elems(Fps(h, buffer)) == Elems(Fps(h, Parse(tr[..n])))
  {
    NotOpenNotCut(tr[..m], tr[m..n]);
    hide *;
    assert tr[..n] == tr[..m] + tr[m..n];
    PassTakesTheRest(h, tr, m, n, consumed);
    ParseSplit(tr[..m], tr[m..n]);
    FpsOfParts(h, Parse(tr[..m]), Parse(tr[m..n]));
  }

  lemma {:induction false} StepDrains(h: Digest, tr: Transcripts, s: Worker, job: Job, sid: string)
    requires Identifying(h, tr(sid)) && LegalJob(tr, s, job) && DrainedInOrder(h, tr, s, sid)
    ensures DrainedInOrder(h, tr, Step(h, s, job), sid)
    ensures sid == job.sid ==> BufferOf(h, s, job) == Parse(tr(sid)[LastLength(s.absorbed, sid)..|job.entries|])
  {
    hide Unconsumed;
    hide Parse;
    hide Fps;
    hide Identifying;
    hide Runs.OpenAtEnd;
    if sid == job.sid {
      assert job.entries == tr(sid)[..|job.entries|];
      PassInOrder(h, tr(sid), LastLength(s.absorbed, sid), |job.entries|, Consumed(s, sid));
    }
    if Step(h, s, job) != s {
      AbsorbedOneMore(s.absorbed, Absorption(job.sid, job.outcome.node.id, job.entries, BufferOf(h, s, job)), sid);
    }
    hide LastLength;
    hide Drained;
    hide Elems;
  }

  /** So a session's nodes absorb its transcript's logical nodes exactly once each and in order: pass by
      pass, each takes what came after the one before. */
  lemma {:induction false} DrainedExactlyOnceInOrder(h: Digest, tr: Transcripts, jobs: seq<Job>, sid: string)
    requires Identifying(h, tr(sid)) && Legal(h, tr, jobs)
    ensures DrainedInOrder(h, tr, Run(h, START, jobs), sid)
  {
    if jobs == [] {
      assert tr(sid)[..0] == [];
      ParseNothing();
      assert Fps(h, []) == [];
    } else {
      var init := jobs[..|jobs| - 1];
      forall i | 0 <= i < |init| ensures LegalJob(tr, Run(h, START, init[..i]), init[i]) {
        assert init[..i] == jobs[..i];
        assert LegalJob(tr, Run(h, START, jobs[..i]), jobs[i]);
      }
      DrainedExactlyOnceInOrder(h, tr, init, sid);
      StepDrains(h, tr, Run(h, START, init), jobs[|jobs| - 1], sid);
    }
  }

  // ---- The worker's object ----

  /** The session's brief is replaced by a saving pass that ends well and comes with one. */
  function BriefsAfter(briefs: map<string, string>, job: Job, saved: bool): map<string, string> {
    if saved && job.outcome.Saved? then WithBrief(briefs, job.sid, job.outcome.brief) else briefs
  }

  class CompactWorker {
    const store: NodeStore
    var consumedFp: map<string, set<string>>
    ghost var absorbed: seq<Absorption>

    constructor (store: NodeStore)
      ensures this.store == store && State() == START
    {
      this.store, consumedFp, absorbed := store, map[], [];
    }

    ghost function State(): Worker
      reads this
    {
      Worker(consumedFp, absorbed)
    }

    /** The loop that fills the buffer, skipping what is consumed or repeated. */
    method FillBuffer(h: Digest, logical: seq<Logical>, consumed: set<string>)
      returns (buffer: seq<Logical>, newFps: seq<string>)
      ensures buffer == Unconsumed(h, logical, consumed) && newFps == Fps(h, buffer)
    {
      hide Fp;
      buffer, newFps := [], [];
      ghost var done: seq<Logical> := [];
      for i := 0 to |logical|
        invariant done == logical[..i] && buffer == Unconsumed(h, done, consumed) && newFps == Fps(h, buffer)
      {
        assert (done + [logical[i]])[..i] == done;
        done := done + [logical[i]];
        var fp := Fp(h, logical[i]);
        if fp !in consumed && fp !in newFps {
          ghost var was := buffer;
          newFps := newFps + [fp];
          buffer := buffer + [logical[i]];
          assert buffer[..|was|] == was;
        }
      }
      assert done == logical;
    }

    /** The end of a pass: what is saved, and what is marked as consumed. */
    method EndPass(h: Digest, job: Job, buffer: seq<Logical>, newFps: seq<string>)
      requires newFps == Fps(h, buffer)
      modifies this, store
      ensures State() == Ended(h, old(State()), job, buffer)
      ensures store.raws == old(store.raws)
      ensures absorbed != old(absorbed) ==> store.rows == Graph.Save(old(store.rows), job.outcome.node)
      ensures absorbed == old(absorbed) ==> store.rows == old(store.rows)
      ensures store.briefs == BriefsAfter(old(store.briefs), job, absorbed != old(absorbed))
      ensures store.tags == old(store.tags) + if absorbed != old(absorbed) then Elems(job.outcome.node.tags) else {}
    {
      hide Strip;
      match job.outcome
      case Saved(node, brief) =>
        store.SaveNode(node);
        if Strip(brief) != "" { store.SaveSessionBrief(job.sid, Strip(brief)); }
        var consumed := if job.sid in consumedFp then consumedFp[job.sid] else {};
        consumedFp := consumedFp[job.sid := consumed + Elems(newFps)];
        absorbed := absorbed + [Absorption(job.sid, node.id, job.entries, buffer)];
      case SavedThenFailed(node) =>
        store.SaveNode(node);
        absorbed := absorbed + [Absorption(job.sid, node.id, job.entries, buffer)];
      case _ =>
    }

    method DoCompact(h: Digest, job: Job)
      modifies this, store
      ensures State() == Step(h, old(State()), job)
      ensures store.raws == old(store.raws)
      ensures absorbed != old(absorbed) ==> store.rows == Graph.Save(old(store.rows), job.outcome.node)
      ensures absorbed == old(absorbed) ==> store.rows == old(store.rows)
      ensures store.briefs == BriefsAfter(old(store.briefs), job, absorbed != old(absorbed))
      ensures store.tags == old(store.tags) + if absorbed != old(absorbed) then Elems(job.outcome.node.tags) else {}
    {
      hide Ended;
      hide Unconsumed;
      var logical := ParseTranscript(job.entries);
      var consumed := if job.sid in consumedFp then consumedFp[job.sid] else {};
      var buffer, newFps := FillBuffer(h, logical, consumed);
      if buffer == [] { return; }
      EndPass(h, job, buffer, newFps);
    }

    /** The single worker thread: one job after the other. */
    method CompactLoop(h: Digest, queue: seq<Job>)
      modifies this, store
      ensures State() == Run(h, old(State()), queue)
    {
      hide Step;
      ghost var done: seq<Job> := [];
      for i := 0 to |queue|
        invariant done == queue[..i] && State() == Run(h, old(State()), done)
      {
        JobsSnoc(h, old(State()), done, queue[i]);
        DoCompact(h, queue[i]);
        done := done + [queue[i]];
      }
      assert done == queue;
    }
  }
}
