// Pairing tool calls with their results inside one tool run. The source keeps a dict of open calls
// (`pending`), pops a call when its result comes, and lists what is left at the end.
module ToolCalls {
  import opened Dicts

  datatype Call = Call(name: string, input: string)

  datatype Event =
    | Use(id: string, call: Call)
    | Result(id: string, output: string, failed: bool)

  datatype Part =
    | Answered(call: Call, output: string, failed: bool)
    | Pending(call: Call)

  const UNKNOWN := Call("?", "")

  /** A Python dict from ids to calls: its entries in insertion order, keys distinct. */
  type Dict = seq<(string, Call)>

  /** Assignment to a key: an existing key keeps its position. */
  function Put(d: Dict, id: string, c: Call): Dict {
    var k := IndexOf(d, id);
    if k < |d| then d[k := (id, c)] else d + [(id, c)]
  }

  function Pop(d: Dict, id: string): (Dict, Call) {
    var k := IndexOf(d, id);
    if k < |d| then (d[..k] + d[k + 1..], d[k].1) else (d, UNKNOWN)
  }

  /** The loop state of the renderer. */
  datatype State = State(pending: Dict, parts: seq<Part>)

  function Step(s: State, e: Event): State {
    match e
    case Use(id, call) => State(Put(s.pending, id, call), s.parts)
    case Result(id, output, failed) =>
      var (rest, call) := Pop(s.pending, id);
      State(rest, s.parts + [Answered(call, output, failed)])
  }

  function After(evs: seq<Event>): State {
    if evs == [] then State([], []) else Step(After(evs[..|evs| - 1]), evs[|evs| - 1])
  }

  function PendingOf(d: Dict): (r: seq<Part>)
    ensures |r| == |d| && forall i :: 0 <= i < |d| ==> r[i] == Pending(d[i].1)
  {
    if d == [] then [] else [Pending(d[0].1)] + PendingOf(d[1..])
  }

  /** The parts that a run renders to. */
  function Render(evs: seq<Event>): seq<Part> {
    After(evs).parts + PendingOf(After(evs).pending)
  }

  // ---- Reference definitions, without a dict ----

  /** At time n the call made at time p is still open: nothing with its id happened in between. */
  ghost predicate OpenAt(evs: seq<Event>, p: nat, n: nat) {
    && p < n <= |evs| && evs[p].Use?
    && forall k :: p < k < n ==> evs[k].id != evs[p].id
  }

  ghost predicate HasOpen(evs: seq<Event>, id: string, n: nat) {
    exists p: nat :: OpenAt(evs, p, n) && evs[p].id == id
  }

  ghost function OpenCall(evs: seq<Event>, id: string, n: nat): Call {
    if HasOpen(evs, id, n) then
      var p: nat :| OpenAt(evs, p, n) && evs[p].id == id; evs[p].call
    else UNKNOWN
  }

  lemma {:induction false} OpenSame(evs: seq<Event>, p: nat, q: nat, n: nat)
    requires OpenAt(evs, p, n) && OpenAt(evs, q, n) && evs[p].id == evs[q].id
    ensures p == q
  {}

  lemma {:induction false} OpenUnique(evs: seq<Event>, p: nat, n: nat)
    requires OpenAt(evs, p, n)
    ensures HasOpen(evs, evs[p].id, n) && OpenCall(evs, evs[p].id, n) == evs[p].call
  {
    forall q: nat | OpenAt(evs, q, n) && evs[q].id == evs[p].id ensures q == p { OpenSame(evs, p, q, n); }
  }

  /** One part for each result among the first n events: the call it answers, if one is open. */
  ghost function ResultParts(evs: seq<Event>, n: nat): seq<Part>
    requires n <= |evs|
  {
    if n == 0 then []
    else if evs[n - 1].Result? then
      ResultParts(evs, n - 1)
        + [Answered(OpenCall(evs, evs[n - 1].id, n - 1), evs[n - 1].output, evs[n - 1].failed)]
    else ResultParts(evs, n - 1)
  }

  ghost predicate Tracks(evs: seq<Event>, d: Dict, n: nat) {
    && DistinctKeys(d)
    && (forall i :: 0 <= i < |d| ==> HasOpen(evs, d[i].0, n) && OpenCall(evs, d[i].0, n) == d[i].1)
    && (forall id :: HasOpen(evs, id, n) ==> IndexOf(d, id) < |d|)
  }

  /** How one event changes which calls are open. */
  lemma {:induction false} OpenStep(evs: seq<Event>, n: nat, id: string)
    requires n < |evs|
    ensures id != evs[n].id ==>
      HasOpen(evs, id, n + 1) == HasOpen(evs, id, n) && OpenCall(evs, id, n + 1) == OpenCall(evs, id, n)
    ensures id == evs[n].id ==> HasOpen(evs, id, n + 1) == evs[n].Use?
    ensures id == evs[n].id && evs[n].Use? ==> OpenCall(evs, id, n + 1) == evs[n].call
  {
    if id != evs[n].id {
      if HasOpen(evs, id, n + 1) {
        var p: nat :| OpenAt(evs, p, n + 1) && evs[p].id == id;
        assert OpenAt(evs, p, n);
        OpenUnique(evs, p, n);
        OpenUnique(evs, p, n + 1);
      }
      if HasOpen(evs, id, n) {
        var p: nat :| OpenAt(evs, p, n) && evs[p].id == id;
        assert OpenAt(evs, p, n + 1);
      }
    } else if evs[n].Use? {
      assert OpenAt(evs, n, n + 1);
      OpenUnique(evs, n, n + 1);
    } else {
      assert forall p: nat :: OpenAt(evs, p, n + 1) ==> p == n || evs[p].id != evs[n].id;
    }
  }

  lemma {:induction false} PutTracks(evs: seq<Event>, d: Dict, n: nat)
    requires n < |evs| && evs[n].Use? && Tracks(evs, d, n)
    ensures Tracks(evs, Put(d, evs[n].id, evs[n].call), n + 1)
  {
    var id := evs[n].id;
    var e := Put(d, id, evs[n].call);
    forall i | 0 <= i < |e| ensures HasOpen(evs, e[i].0, n + 1) && OpenCall(evs, e[i].0, n + 1) == e[i].1 {
      OpenStep(evs, n, e[i].0);
    }
    forall x | HasOpen(evs, x, n + 1) ensures IndexOf(e, x) < |e| {
      OpenStep(evs, n, x);
      var k := if x == id then (if IndexOf(d, id) < |d| then IndexOf(d, id) else |d|) else IndexOf(d, x);
      assert e[k].0 == x;
    }
  }

  lemma {:induction false} PopTracks(evs: seq<Event>, d: Dict, n: nat)
    requires n < |evs| && evs[n].Result? && Tracks(evs, d, n)
    ensures Tracks(evs, Pop(d, evs[n].id).0, n + 1)
    ensures Pop(d, evs[n].id).1 == OpenCall(evs, evs[n].id, n)
  {
    var id := evs[n].id;
    var e := Pop(d, id).0;
    var j := IndexOf(d, id);
    forall i | 0 <= i < |e| ensures HasOpen(evs, e[i].0, n + 1) && OpenCall(evs, e[i].0, n + 1) == e[i].1 {
      assert e[i] == if i < j then d[i] else d[i + 1];
      OpenStep(evs, n, e[i].0);
    }
    forall x | HasOpen(evs, x, n + 1) ensures IndexOf(e, x) < |e| {
      OpenStep(evs, n, x);
      var k := IndexOf(d, x);
      assert e[if k < j then k else k - 1].0 == x;
    }
  }

  /** The dict always holds exactly the open calls, so every result is paired with the call it answers. */
  lemma {:induction false} RendererTracksOpenCalls(evs: seq<Event>, n: nat)
    requires n <= |evs|
    ensures Tracks(evs, After(evs[..n]).pending, n)
    ensures After(evs[..n]).parts == ResultParts(evs, n)
  {
    if n > 0 {
      RendererTracksOpenCalls(evs, n - 1);
      assert evs[..n][..n - 1] == evs[..n - 1];
      var d := After(evs[..n - 1]).pending;
      if evs[n - 1].Use? { PutTracks(evs, d, n - 1); } else { PopTracks(evs, d, n - 1); }
    }
  }

  /** Calls, results that answer no open call, and calls whose id was taken over while they were open. */
  ghost function Calls(evs: seq<Event>, n: nat): nat
    requires n <= |evs|
  {
    if n == 0 then 0 else Calls(evs, n - 1) + if evs[n - 1].Use? then 1 else 0
  }

  ghost function Orphans(evs: seq<Event>, n: nat): nat
    requires n <= |evs|
  {
    if n == 0 then 0
    else Orphans(evs, n - 1) + if evs[n - 1].Result? && !HasOpen(evs, evs[n - 1].id, n - 1) then 1 else 0
  }

  ghost function Overwritten(evs: seq<Event>, n: nat): nat
    requires n <= |evs|
  {
    if n == 0 then 0
    else Overwritten(evs, n - 1) + if evs[n - 1].Use? && HasOpen(evs, evs[n - 1].id, n - 1) then 1 else 0
  }

  lemma {:induction false} OpenIsKey(evs: seq<Event>, d: Dict, n: nat, id: string)
    requires Tracks(evs, d, n)
    ensures HasOpen(evs, id, n) <==> IndexOf(d, id) < |d|
  {
    hide HasOpen;
    var k := IndexOf(d, id);
    if k < |d| { assert HasOpen(evs, d[k].0, n); }
  }

  lemma {:induction false} StepCounts(s: State, e: Event)
    ensures var t, known := Step(s, e), IndexOf(s.pending, e.id) < |s.pending|;
      && |t.parts| == |s.parts| + (if e.Result? then 1 else 0)
      && |t.pending| == |s.pending| + (if e.Use? then (if known then 0 else 1) else if known then -1 else 0)
  {}

  lemma {:induction false} CountStep(evs: seq<Event>, n: nat)
    requires n <= |evs|
    ensures |After(evs[..n]).parts| + |After(evs[..n]).pending| + Overwritten(evs, n)
      == Calls(evs, n) + Orphans(evs, n)
  {
    if n > 0 {
      CountStep(evs, n - 1);
      RendererTracksOpenCalls(evs, n - 1);
      assert evs[..n][..n - 1] == evs[..n - 1];
      var s := After(evs[..n - 1]);
      assert After(evs[..n]) == Step(s, evs[n - 1]);
      OpenIsKey(evs, s.pending, n - 1, evs[n - 1].id);
      hide After;
      hide Tracks;
      hide HasOpen;
      StepCounts(s, evs[n - 1]);
    }
  }

  /** Conservation: a part for every call and every stray result, less the calls overwritten while open. */
  lemma {:induction false} RenderConserves(evs: seq<Event>)
    ensures |Render(evs)| + Overwritten(evs, |evs|) == Calls(evs, |evs|) + Orphans(evs, |evs|)
  {
    CountStep(evs, |evs|);
    assert evs[..|evs|] == evs;
  }

  ghost predicate DistinctCalls(evs: seq<Event>) {
    forall i, j :: 0 <= i < j < |evs| && evs[i].Use? && evs[j].Use? ==> evs[i].id != evs[j].id
  }

  /** No result with the id of call p comes between p and time n. */
  ghost predicate Unanswered(evs: seq<Event>, p: nat, n: nat) {
    && p < n <= |evs| && evs[p].Use?
    && forall k :: p < k < n && evs[k].Result? ==> evs[k].id != evs[p].id
  }

  /** The calls among the first m events that are unanswered at time n, in call order. */
  ghost function UnansweredCalls(evs: seq<Event>, m: nat, n: nat): Dict
    requires m <= n <= |evs|
  {
    if m == 0 then []
    else if Unanswered(evs, m - 1, n) then
      UnansweredCalls(evs, m - 1, n) + [(evs[m - 1].id, evs[m - 1].call)]
    else UnansweredCalls(evs, m - 1, n)
  }

  lemma {:induction false} UnansweredId(evs: seq<Event>, m: nat, n: nat, i: nat) returns (p: nat)
    requires m <= n <= |evs| && i < |UnansweredCalls(evs, m, n)|
    ensures p < m && Unanswered(evs, p, n) && evs[p].id == UnansweredCalls(evs, m, n)[i].0
  {
    if i < |UnansweredCalls(evs, m - 1, n)| { p := UnansweredId(evs, m - 1, n, i); } else { p := m - 1; }
  }

  /** An id used by no unanswered call is no key of the list. */
  lemma {:induction false} UnansweredAbsent(evs: seq<Event>, m: nat, n: nat, id: string)
    requires m <= n <= |evs|
    requires forall p: nat :: p < m && Unanswered(evs, p, n) ==> evs[p].id != id
    ensures IndexOf(UnansweredCalls(evs, m, n), id) == |UnansweredCalls(evs, m, n)|
  {
    var d := UnansweredCalls(evs, m, n);
    if IndexOf(d, id) < |d| { var _ := UnansweredId(evs, m, n, IndexOf(d, id)); }
  }

  /** An event that is no result, or a result of none of these calls, leaves the list alone. */
  lemma {:induction false} UnansweredKept(evs: seq<Event>, m: nat, n: nat)
    requires m <= n < |evs|
    requires evs[n].Use? || forall p: nat :: p < m && Unanswered(evs, p, n) ==> evs[p].id != evs[n].id
    ensures UnansweredCalls(evs, m, n + 1) == UnansweredCalls(evs, m, n)
  {
    if m > 0 {
      UnansweredKept(evs, m - 1, n);
      assert Unanswered(evs, m - 1, n + 1) <==> Unanswered(evs, m - 1, n);
    }
  }

  /** A result removes from the list the one call it answers. */
  lemma {:induction false} UnansweredPopped(evs: seq<Event>, m: nat, n: nat)
    requires DistinctCalls(evs)
    requires m <= n < |evs| && evs[n].Result?
    ensures UnansweredCalls(evs, m, n + 1) == Pop(UnansweredCalls(evs, m, n), evs[n].id).0
  {
    if m > 0 {
      var d, id := UnansweredCalls(evs, m - 1, n), evs[n].id;
      UnansweredPopped(evs, m - 1, n);
      if Unanswered(evs, m - 1, n) {
        var e := (evs[m - 1].id, evs[m - 1].call);
        if e.0 == id {
          UnansweredAbsent(evs, m - 1, n, id);
          IndexOfAppend(d, e, id);
          assert !Unanswered(evs, m - 1, n + 1);
        } else {
          IndexOfAppend(d, e, id);
          assert Unanswered(evs, m - 1, n + 1);
        }
      }
    }
  }

  lemma {:induction false} IndexOfAppend(d: Dict, e: (string, Call), id: string)
    ensures IndexOf(d + [e], id) == if IndexOf(d, id) < |d| || e.0 == id then IndexOf(d, id) else |d| + 1
    ensures e.0 != id ==> Pop(d + [e], id).0 == Pop(d, id).0 + [e]
    ensures e.0 == id && IndexOf(d, id) == |d| ==> Pop(d + [e], id).0 == d
  {
    if d != [] {
      IndexOfAppend(d[1..], e, id);
      assert (d + [e])[1..] == d[1..] + [e];
    }
  }

  /** With distinct ids, the dict is the list of unanswered calls, in call order. */
  lemma {:induction false} PendingIsUnanswered(evs: seq<Event>, n: nat)
    requires DistinctCalls(evs) && n <= |evs|
    ensures After(evs[..n]).pending == UnansweredCalls(evs, n, n)
  {
    if n > 0 {
      PendingIsUnanswered(evs, n - 1);
      assert evs[..n][..n - 1] == evs[..n - 1];
      var d := UnansweredCalls(evs, n - 1, n - 1);
      if evs[n - 1].Use? {
        UnansweredKept(evs, n - 1, n - 1);
        UnansweredAbsent(evs, n - 1, n - 1, evs[n - 1].id);
        assert Unanswered(evs, n - 1, n);
      } else {
        UnansweredPopped(evs, n - 1, n - 1);
      }
    }
  }

  /** With distinct ids every call is rendered exactly once: in the part of its first result, or, when
      it has none, among the pending parts; further results with its id count as strays. */
  lemma {:induction false} EveryCallOnce(evs: seq<Event>)
    requires DistinctCalls(evs)
    ensures Render(evs) == ResultParts(evs, |evs|) + PendingOf(UnansweredCalls(evs, |evs|, |evs|))
    ensures |Render(evs)| == Calls(evs, |evs|) + Orphans(evs, |evs|)
    ensures forall p: nat, q: nat ::
      q < |evs| && evs[q].Result? && Unanswered(evs, p, q) && evs[p].id == evs[q].id ==>
        OpenCall(evs, evs[q].id, q) == evs[p].call
  {
    PendingIsUnanswered(evs, |evs|);
    RendererTracksOpenCalls(evs, |evs|);
    assert evs[..|evs|] == evs;
    RenderConserves(evs);
    NoneOverwritten(evs, |evs|);
    forall p: nat, q: nat | q < |evs| && evs[q].Result? && Unanswered(evs, p, q) && evs[p].id == evs[q].id
      ensures OpenCall(evs, evs[q].id, q) == evs[p].call
    {
      assert OpenAt(evs, p, q);
      OpenUnique(evs, p, q);
    }
  }

  lemma {:induction false} NoneOverwritten(evs: seq<Event>, n: nat)
    requires DistinctCalls(evs) && n <= |evs|
    ensures Overwritten(evs, n) == 0
  {
    if n > 0 {
      NoneOverwritten(evs, n - 1);
      assert forall p: nat :: OpenAt(evs, p, n - 1) && evs[n - 1].Use? ==> evs[p].id != evs[n - 1].id;
    }
  }
}
