// Where the summary pair that goes out comes from.
module Summaries {
  import opened Sequences
  import opened Text
  import opened Messages
  import opened Machine
  import Archive

  /** The nodes that the compacter returned in a run. */
  ghost function Returned(evs: seq<Event>): set<Node> {
    set e | e in evs && e.Compacted? && e.result.Some? :: e.result.value
  }

  /** The text is the summary of a saved one of these nodes. */
  ghost predicate SummaryOf(nodes: set<Node>, saved: set<string>, text: string) {
    exists n :: n in nodes && n.summary == text && n.id in saved
  }

  ghost predicate SessionFrom(cfg: Config, nodes: set<Node>, saved: set<string>, x: Session) {
    && (x.user.Some? ==> SummaryOf(nodes, saved, x.user.value))
    && (x.asst.Some? ==> x.asst.value == cfg.ack)
  }

  predicate Holding(w: Worker) {
    w.SaveNode? || w.SaveRaw? || w.Linking? || w.ClearFlight? || w.Absorb? || w.SetUser? || w.SetAsst?
  }

  ghost predicate PairFrom(cfg: Config, nodes: set<Node>, s: Sys) {
    var r, w := s.reader, s.worker;
    && (Holding(w) ==> w.node in nodes && (!w.SaveNode? ==> w.node.id in s.saved))
    && (forall sid :: SessionFrom(cfg, nodes, s.saved, Sess(s, sid)))
    && (r.ReadAsst? ==> SummaryOf(nodes, s.saved, r.user))
    && (r.Sent? && r.out.Rewritten? ==> SummaryOf(nodes, s.saved, r.out.user) && r.out.asst == cfg.ack)
  }

  lemma {:induction false} SessionGrows(cfg: Config, nodes: set<Node>, saved: set<string>, more: set<Node>,
                                        saved': set<string>, x: Session)
    requires SessionFrom(cfg, nodes, saved, x) && nodes <= more && saved <= saved'
    ensures SessionFrom(cfg, more, saved', x)
  {}

  lemma {:induction false} PairGrows(cfg: Config, nodes: set<Node>, more: set<Node>, s: Sys)
    requires PairFrom(cfg, nodes, s) && nodes <= more
    ensures PairFrom(cfg, more, s)
  {
    hide SessionFrom;
    forall sid ensures SessionFrom(cfg, more, s.saved, Sess(s, sid)) {
      SessionGrows(cfg, nodes, s.saved, more, s.saved, Sess(s, sid));
    }
  }

  lemma {:induction false} ReaderFrom(cfg: Config, nodes: set<Node>, s: Sys)
    requires !s.reader.Idle? && PairFrom(cfg, nodes, s) && Archive.PairRight(cfg, s)
    ensures PairFrom(cfg, nodes, ReaderNext(cfg, s))
  {
    hide Pick;
    var t := ReaderNext(cfg, s);
    assert SessionFrom(cfg, nodes, s.saved, Sess(s, s.reader.req.sid));
    forall sid ensures SessionFrom(cfg, nodes, t.saved, Sess(t, sid)) {
      assert SessionFrom(cfg, nodes, s.saved, Sess(s, sid));
    }
  }

  lemma {:induction false} WorkerMoves(cfg: Config, s: Sys)
    requires Deterministic(s.worker)
    ensures var t := WorkerNext(cfg, s);
      && s.saved <= t.saved
      && (Holding(t.worker) ==> Holding(s.worker) && t.worker.node == s.worker.node)
      && (Holding(t.worker) && !t.worker.SaveNode? ==> !s.worker.SaveNode? || t.worker.node.id in t.saved)
      && (t.reader == s.reader || (s.reader.ScanKept? && t.reader.ScanKept?))
  {
    hide Tier3;
    hide Elems;
    hide AllFps;
    hide BehindCall;
  }

  lemma {:induction false} WorkerWrites(cfg: Config, s: Sys, sid: string)
    requires Deterministic(s.worker)
    ensures var x, y := Sess(s, sid), Sess(WorkerNext(cfg, s), sid);
      && (y.user == x.user || (s.worker.SetUser? && y.user == Some(s.worker.node.summary)))
      && (y.asst == x.asst || y.asst == Some(cfg.ack))
  {
    hide Tier3;
    hide Elems;
    hide AllFps;
    hide TornBy;
  }

  lemma {:induction false} WorkerFrom(cfg: Config, nodes: set<Node>, s: Sys)
    requires Deterministic(s.worker) && PairFrom(cfg, nodes, s)
    ensures PairFrom(cfg, nodes, WorkerNext(cfg, s))
  {
    WorkerMoves(cfg, s);
    hide WorkerNext;
    hide Sess;
    var t := WorkerNext(cfg, s);
    forall sid ensures SessionFrom(cfg, nodes, t.saved, Sess(t, sid)) {
      WorkerWrites(cfg, s, sid);
      assert SessionFrom(cfg, nodes, s.saved, Sess(s, sid));
    }
  }

  lemma {:induction false} FromStep(cfg: Config, nodes: set<Node>, s: Sys, e: Event)
    requires Enabled(s, e) && PairFrom(cfg, nodes, s) && Archive.PairRight(cfg, s)
    ensures PairFrom(cfg, nodes + Returned([e]), Apply(cfg, s, e))
  {
    var more := nodes + Returned([e]);
    PairGrows(cfg, nodes, more, s);
    if e.ReaderStep? {
      ReaderFrom(cfg, more, s);
    } else if e.WorkerStep? {
      WorkerFrom(cfg, more, s);
    } else {
      var t := Apply(cfg, s, e);
      assert e in [e];
      forall sid ensures SessionFrom(cfg, more, t.saved, Sess(t, sid)) {
        SessionGrows(cfg, more, s.saved, more, t.saved, Sess(s, sid));
      }
    }
  }

  lemma {:induction false} ReturnedSplit(evs: seq<Event>)
    requires evs != []
    ensures Returned(evs) == Returned([evs[0]]) + Returned(evs[1..])
  {
    assert evs == [evs[0]] + evs[1..];
  }

  lemma {:induction false} FromAlways(cfg: Config, evs: seq<Event>, nodes: set<Node>, s: Sys)
    requires Legal(cfg, evs, s) && PairFrom(cfg, nodes, s) && Archive.PairRight(cfg, s)
    ensures PairFrom(cfg, nodes + Returned(evs), Run(cfg, evs, s)) && Archive.PairRight(cfg, Run(cfg, evs, s))
    decreases |evs|
  {
    hide PairFrom;
    hide Apply;
    hide Archive.PairRight;
    if evs == [] {
      assert Returned(evs) == {};
      assert nodes + {} == nodes;
    } else {
      FromStep(cfg, nodes, s, evs[0]);
      Archive.PairStep(cfg, s, evs[0]);
      FromAlways(cfg, evs[1..], nodes + Returned([evs[0]]), Apply(cfg, s, evs[0]));
      ReturnedSplit(evs);
      hide Returned;
      assert nodes + Returned([evs[0]]) + Returned(evs[1..]) == nodes + Returned(evs);
    }
  }

  /** In every run, messages are dropped only for a complete pair: two texts, neither of them empty, the summary
      of a node that the compacter returned and the worker saved, and the fixed acknowledgement, in this order. */
  lemma {:induction false} PairIsOfSavedNode(cfg: Config, evs: seq<Event>)
    requires Legal(cfg, evs, INIT)
    ensures var s := Run(cfg, evs, INIT);
      s.reader.Sent? && s.reader.out.Rewritten? ==>
        var out := s.reader.out;
        && out.user != "" && out.asst != ""
        && out.asst == cfg.ack && SummaryOf(Returned(evs), s.saved, out.user)
  {
    FromAlways(cfg, evs, {}, INIT);
    assert {} + Returned(evs) == Returned(evs);
  }
}
