// The broadcaster: one poll loop, one shared baseline, a bounded queue per connected page.
module Broadcaster {
  import opened Text
  import opened Snapshots

  const QUEUE_MAX := 64

  datatype Snap = Snap(nodes: Nodes, edges: Edges)

  function SnapOf(ns: seq<NodeIn>): Snap { Snap(NodesOf(ns), EdgesOf(ns)) }

  /** One connected page, as the broadcaster's state concerns it: the shared baseline, the diffs still
      in the page's queue, and what the page shows. */
  datatype Watch = Watch(last: Snap, boot: bool, queue: seq<Diff>, view: Page)

  /** From a poll to the last queue it feeds nothing else runs: the lock is never held across a wait. */
  datatype Event =
    | Poll(ns: seq<NodeIn>, diff: Option<Diff>)
    | Seed(ns: seq<NodeIn>)   // any page fetches the whole graph
    | Deliver                 // the page takes a diff from its queue

  /** `put_nowait`: a full queue drops the item. */
  function Offer(queue: seq<Diff>, d: Diff): seq<Diff> { if |queue| < QUEUE_MAX then queue + [d] else queue }

  ghost predicate IsDiffTo(d: Diff, a: Snap, b: Snap) { IsDiff(d, a.nodes, a.edges, b.nodes, b.edges) }

  ghost predicate Enabled(w: Watch, e: Event) {
    match e
    case Poll(ns, d) => w.boot && SnapOf(ns) != w.last ==> d.Some? && IsDiffTo(d.value, w.last, SnapOf(ns))
    case Seed(_) => true
    case Deliver => w.queue != []
  }

  ghost function Next(w: Watch, e: Event): Watch
    requires Enabled(w, e)
  {
    match e
    case Poll(ns, d) =>
      if !w.boot then w.(last := SnapOf(ns), boot := true)
      else if SnapOf(ns) == w.last then w
      else w.(last := SnapOf(ns), queue := Offer(w.queue, d.value))
    case Seed(ns) => w.(last := SnapOf(ns), boot := true)
    case Deliver => w.(queue := w.queue[1..], view := ApplyDiff(w.view, w.queue[0]))
  }

  function Replay(view: Page, queue: seq<Diff>): Page {
    if queue == [] then view else ApplyDiff(Replay(view, queue[..|queue| - 1]), queue[|queue| - 1])
  }

  ghost predicate ShowsSnap(p: Page, s: Snap) { Shows(p, s.nodes, s.edges) }

  /** Once its queue is drained the page will show the baseline. */
  ghost predicate InStep(w: Watch) { ShowsSnap(Replay(w.view, w.queue), w.last) }

  // ---- Snapshots of graphs without the arrow character in their ids ----

  predicate PlainIds(ns: seq<NodeIn>) { forall i :: 0 <= i < |ns| ==> ArrowFree(ns[i].id) }

  ghost predicate SnapOk(s: Snap) {
    Shaped(s.nodes, s.edges) && forall k :: k in s.edges ==> ArrowFree(k.src)
  }

  lemma {:induction false} SnapOfOk(ns: seq<NodeIn>)
    requires PlainIds(ns)
    ensures SnapOk(SnapOf(ns))
  {
    assert forall id :: id in KnownIds(ns) ==> ArrowFree(id);
    hide PayloadOf;
    hide ArrowFree;
  }

  /** What a page shows determines the snapshot. */
  lemma {:induction false} ShowsOne(p: Page, a: Snap, b: Snap)
    requires SnapOk(a) && SnapOk(b) && ShowsSnap(p, a) && ShowsSnap(p, b)
    ensures a == b
  {
    SameEdges(p, a, b);
    SameEdges(p, b, a);
    assert a.edges == b.edges;
  }

  lemma {:induction false} SameEdges(p: Page, a: Snap, b: Snap)
    requires SnapOk(a) && SnapOk(b) && ShowsSnap(p, a) && ShowsSnap(p, b)
    ensures forall k :: k in a.edges ==> k in b.edges && a.edges[k] == b.edges[k]
  {
    forall k | k in a.edges ensures k in b.edges && a.edges[k] == b.edges[k] {
      assert EdgeId(k) in p.edges;
      var k' :| k' in b.edges && EdgeId(k') == EdgeId(k);
      hide EdgeId;
      assert PayloadOf(k) == p.edges[EdgeId(k)] == PayloadOf(k');
    }
  }

  // ---- One event ----

  /** The events after which a page in step is no longer: a changed graph that is not announced to it,
      because its queue is full, the broadcaster has no baseline yet, or another page's fetch moved it. */
  ghost predicate Harmful(w: Watch, e: Event) {
    match e
    case Poll(ns, _) => SnapOf(ns) != w.last && (!w.boot || |w.queue| >= QUEUE_MAX)
    case Seed(ns) => SnapOf(ns) != w.last
    case Deliver => false
  }

  lemma {:induction false} ReplayHead(view: Page, queue: seq<Diff>)
    requires queue != []
    ensures Replay(ApplyDiff(view, queue[0]), queue[1..]) == Replay(view, queue)
  {
    hide ApplyDiff;
    if |queue| > 1 {
      ReplayHead(view, queue[..|queue| - 1]);
      assert queue[1..][..|queue| - 2] == queue[..|queue| - 1][1..];
    }
  }

  lemma {:induction false} ReplaySnoc(view: Page, queue: seq<Diff>, d: Diff)
    ensures Replay(view, queue + [d]) == ApplyDiff(Replay(view, queue), d)
  {
    hide ApplyDiff;
    assert (queue + [d])[..|queue|] == queue;
  }

  lemma {:induction false} ApplyMoves(p: Page, d: Diff, a: Snap, b: Snap)
    requires SnapOk(a) && SnapOk(b) && IsDiffTo(d, a, b) && ShowsSnap(p, a)
    ensures ShowsSnap(ApplyDiff(p, d), b)
  {
    ArrowFreeIsClear(a.edges, b.edges);
    ApplyReproduces(p, d, a.nodes, a.edges, b.nodes, b.edges);
  }

  /** A page in step stays in step through every event but the harmful ones, and through none of those. */
  lemma {:induction false} InStepUnlessHarmed(w: Watch, e: Event)
    requires SnapOk(w.last) && Enabled(w, e) && InStep(w)
    requires (e.Poll? || e.Seed?) ==> PlainIds(e.ns)
    ensures SnapOk(Next(w, e).last)
    ensures InStep(Next(w, e)) <==> !Harmful(w, e)
  {
    var now := Replay(w.view, w.queue);
    if e.Deliver? {
      ReplayHead(w.view, w.queue);
    } else {
      var s := SnapOf(e.ns);
      SnapOfOk(e.ns);
      hide SnapOf;
      hide ApplyDiff;
      hide SnapOk;
      hide IsDiffTo;
      if e.Poll? && w.boot && s != w.last && |w.queue| < QUEUE_MAX {
        ReplaySnoc(w.view, w.queue, e.diff.value);
        ApplyMoves(now, e.diff.value, w.last, s);
      } else if ShowsSnap(now, s) {
        ShowsOne(now, w.last, s);
      }
    }
  }

  // ---- Runs ----

  ghost predicate Legal(w: Watch, evs: seq<Event>)
    decreases |evs|
  {
    evs == []
    || (Enabled(w, evs[0]) && ((evs[0].Poll? || evs[0].Seed?) ==> PlainIds(evs[0].ns))
        && Legal(Next(w, evs[0]), evs[1..]))
  }

  ghost function Run(w: Watch, evs: seq<Event>): Watch
    requires Legal(w, evs)
    decreases |evs|
  {
    if evs == [] then w else Run(Next(w, evs[0]), evs[1..])
  }

  ghost predicate Unharmed(w: Watch, evs: seq<Event>)
    requires Legal(w, evs)
    decreases |evs|
  {
    evs == [] || (!Harmful(w, evs[0]) && Unharmed(Next(w, evs[0]), evs[1..]))
  }

  /** From the moment a page that shows the baseline registers, its view with the queued diffs applied in
      order is the baseline after every event, as long as none is harmful. */
  lemma {:induction false} PageFollowsBaseline(w: Watch, evs: seq<Event>)
    requires SnapOk(w.last) && Legal(w, evs) && InStep(w) && Unharmed(w, evs)
    ensures InStep(Run(w, evs))
    ensures Run(w, evs).queue == [] ==> ShowsSnap(Run(w, evs).view, Run(w, evs).last)
    decreases |evs|
  {
    if evs != [] {
      InStepUnlessHarmed(w, evs[0]);
      hide Enabled;
      hide Harmful;
      hide InStep;
      hide SnapOk;
      hide Next;
      PageFollowsBaseline(Next(w, evs[0]), evs[1..]);
    }
  }

  ghost predicate OnlyPollsOf(evs: seq<Event>, ns: seq<NodeIn>) {
    forall i :: 0 <= i < |evs| ==> evs[i].Deliver? || (evs[i].Poll? && evs[i].ns == ns)
  }

  /** The update that a second page's fetch hides is lost: however often the poll sees the graph again,
      the first page is never told. */
  lemma {:induction false} SecondFetchHidesUpdate(w: Watch, ns: seq<NodeIn>, evs: seq<Event>)
    requires SnapOk(w.last) && PlainIds(ns) && InStep(w) && SnapOf(ns) != w.last
    requires Legal(w, [Seed(ns)] + evs) && OnlyPollsOf(evs, ns)
    ensures !InStep(Run(w, [Seed(ns)] + evs))
  {
    InStepUnlessHarmed(w, Seed(ns));
    var all := [Seed(ns)] + evs;
    assert all[0] == Seed(ns) && all[1..] == evs;
    StaysBehind(Next(w, Seed(ns)), ns, evs);
  }

  lemma {:induction false} StaysBehind(w: Watch, ns: seq<NodeIn>, evs: seq<Event>)
    requires Legal(w, evs) && OnlyPollsOf(evs, ns) && w.boot && w.last == SnapOf(ns) && !InStep(w)
    ensures !InStep(Run(w, evs))
    decreases |evs|
  {
    if evs != [] {
      if evs[0].Deliver? { ReplayHead(w.view, w.queue); }
      hide SnapOf;
      hide ApplyDiff;
      hide ShowsSnap;
      StaysBehind(Next(w, evs[0]), ns, evs[1..]);
    }
  }

  // ---- The broadcaster's objects ----

  class ClientQueue {
    var items: seq<Diff>

    constructor ()
      ensures items == []
    {
      items := [];
    }

    method PutNowait(d: Diff)
      modifies this
      ensures items == Offer(old(items), d)
      ensures items == if |old(items)| < 64 then old(items) + [d] else old(items)
    {
      if |items| < QUEUE_MAX { items := items + [d]; }
    }
  }

  class GraphBroadcaster {
    var clients: set<ClientQueue>
    var lastNodes: Nodes
    var lastEdges: Edges
    var bootstrapped: bool

    constructor ()
      ensures clients == {} && lastNodes == map[] && lastEdges == map[] && !bootstrapped
    {
      clients, lastNodes, lastEdges, bootstrapped := {}, map[], map[], false;
    }

    function WatchOf(q: ClientQueue, view: Page): Watch
      reads this, q
    {
      Watch(Snap(lastNodes, lastEdges), bootstrapped, q.items, view)
    }

    method Register() returns (q: ClientQueue)
      modifies this`clients
      ensures fresh(q) && q.items == [] && clients == old(clients) + {q}
    {
      q := new ClientQueue();
      clients := clients + {q};
    }

    method Unregister(q: ClientQueue)
      modifies this`clients
      ensures clients == old(clients) - {q}
    {
      clients := clients - {q};
    }

    method SeedState(nodes: Nodes, edges: Edges)
      modifies this`lastNodes, this`lastEdges, this`bootstrapped
      ensures lastNodes == nodes && lastEdges == edges && bootstrapped
    {
      lastNodes, lastEdges, bootstrapped := nodes, edges, true;
    }

    /** The handler of a page's fetch of the whole graph: for every connected page it is a Seed. */
    method ApiGraph(ns: seq<NodeIn>) returns (nodes: Nodes, edges: Edges)
      modifies this`lastNodes, this`lastEdges, this`bootstrapped
      ensures Snap(nodes, edges) == SnapOf(ns)
      ensures forall q, view :: q in clients ==> WatchOf(q, view) == Next(old(WatchOf(q, view)), Seed(ns))
    {
      nodes, edges := ShapeGraph(ns);
      SeedState(nodes, edges);
    }

    method Broadcast(d: Diff)
      modifies clients
      ensures forall q :: q in clients ==> q.items == Offer(old(q.items), d)
    {
      var todo := clients;
      while todo != {}
        invariant todo <= clients
        invariant forall q :: q in clients - todo ==> q.items == Offer(old(q.items), d)
        invariant forall q :: q in todo ==> q.items == old(q.items)
      {
        var q :| q in todo;
        q.PutNowait(d);
        todo := todo - {q};
      }
    }

    /** One turn of the poll loop; no answer from the daemon changes nothing. */
    method PollOnce(resp: Option<seq<NodeIn>>) returns (d: Option<Diff>)
      requires Shaped(lastNodes, lastEdges)
      modifies this`lastNodes, this`lastEdges, this`bootstrapped, clients
      ensures Shaped(lastNodes, lastEdges)
      ensures resp.None? ==> lastNodes == old(lastNodes) && lastEdges == old(lastEdges)
      ensures resp.None? ==> bootstrapped == old(bootstrapped)
      ensures resp.None? ==> forall q :: q in clients ==> q.items == old(q.items)
      ensures resp.Some? ==> forall q, view :: q in clients ==>
        && Enabled(old(WatchOf(q, view)), Poll(resp.value, d))
        && WatchOf(q, view) == Next(old(WatchOf(q, view)), Poll(resp.value, d))
    {
      d := None;
      if resp.Some? {
        var nodes, edges := ShapeGraph(resp.value);
        if !bootstrapped {
          lastNodes, lastEdges, bootstrapped := nodes, edges, true;
        } else {
          d := DiffOf(lastNodes, lastEdges, nodes, edges);
          if d.Some? {
            lastNodes, lastEdges := nodes, edges;
            Broadcast(d.value);
          }
        }
      }
    }
  }
}
