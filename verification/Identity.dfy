// When the transcript worker's fingerprints tell nodes apart: distinct entry ids are enough.
module Identity {
  import opened Sequences
  import opened Text
  import Runs
  import opened Transcript
  import opened Daemon

  ghost predicate Injective(h: Digest) { forall x, y :: h(x) == h(y) ==> x == y }

  /** Entry ids are non-empty, without the separator, and pairwise different. */
  ghost predicate GoodIds(es: seq<Entry>) {
    && (forall i :: 0 <= i < |es| ==> es[i].uuid != "" && '|' !in es[i].uuid)
    && (forall i, j :: 0 <= i < j < |es| ==> es[i].uuid != es[j].uuid)
  }

  ghost predicate Plainly(ids: seq<string>) { forall i :: 0 <= i < |ids| ==> ids[i] != "" && '|' !in ids[i] }

  /** What follows the first part. */
  function Joined(a: seq<string>): string {
    if |a| <= 1 then "" else "|" + Join("|", a[1..])
  }

  lemma {:induction false} JoinHead(a: seq<string>)
    requires a != []
    ensures Join("|", a) == a[0] + Joined(a)
  {}

  /** A join by a separator that the parts do not contain can be taken apart again. */
  lemma {:induction false} JoinInjective(a: seq<string>, b: seq<string>)
    requires Plainly(a) && Plainly(b) && Join("|", a) == Join("|", b)
    ensures a == b
  {
    if a == [] {
      if b != [] { JoinLonger(b); }
    } else if b == [] {
      JoinLonger(a);
    } else {
      var r, r' := Joined(a), Joined(b);
      JoinHead(a);
      JoinHead(b);
      hide Join;
      SplitAtFirst('|', a[0], r, b[0], r');
      if |a| > 1 {
        assert r[1..] == Join("|", a[1..]) && r'[1..] == Join("|", b[1..]);
        JoinInjective(a[1..], b[1..]);
      }
      assert a == [a[0]] + a[1..] && b == [b[0]] + b[1..];
    }
  }

  lemma {:induction false} JoinLonger(a: seq<string>)
    requires Plainly(a) && a != []
    ensures Join("|", a) != ""
  {}

  /** The node of a stretch of entries. */
  function StretchNode(run: seq<Entry>): Logical
    requires run != []
  {
    if EntryKind(run[0]).Call? then BundleNode(run)
    else if run[0].kind == "user" then UserNode(run[0])
    else AssistantNode(run[0])
  }

  /** Node k of a transcript is made of the entries from at[k] on, and the stretches follow each other. */
  ghost predicate Placed(es: seq<Entry>, ns: seq<Logical>, at: seq<nat>) {
    && |at| == |ns|
    && (forall k :: 0 <= k < |ns| ==> PlacedAt(es, ns[k], at[k]))
    && (forall k, l :: 0 <= k < l < |ns| ==> at[k] < at[l])
  }

  ghost predicate PlacedAt(es: seq<Entry>, n: Logical, p: nat) {
    && n.uuids != [] && p + |n.uuids| <= |es|
    && n.uuids == Uuids(es[p..p + |n.uuids|])
    && n == StretchNode(es[p..p + |n.uuids|])
  }

  lemma {:induction false} Shifted(es: seq<Entry>, n: Logical, p: nat, m: nat)
    requires m <= |es| && PlacedAt(es[m..], n, p)
    ensures PlacedAt(es, n, p + m)
  {
    hide StretchNode;
    hide Uuids;
    assert es[m..][p..p + |n.uuids|] == es[p + m..p + m + |n.uuids|];
  }

  lemma {:induction false} HeadPlaced(es: seq<Entry>) returns (n: nat, head: seq<Logical>)
    requires es != []
    ensures 0 < n <= |es| && |head| <= 1 && Parse(es) == head + Parse(es[n..])
    ensures head != [] ==> PlacedAt(es, head[0], 0)
  {
    if EntryKind(es[0]).Call? {
      n := Runs.RunLength(es, EntryKind);
      ParseRun(es, n);
      head := [BundleNode(es[..n])];
      assert es[0..n] == es[..n];
    } else {
      n := 1;
      ParseSingle(es);
      head := NodesOf(Runs.Single(es[0]));
      assert es[0..1] == [es[0]] && Uuids([es[0]]) == [es[0].uuid];
    }
  }

  lemma {:induction false} Places(es: seq<Entry>) returns (at: seq<nat>)
    ensures Placed(es, Parse(es), at)
    decreases |es|
  {
    if es == [] {
      at := [];
      ParseNothing();
    } else {
      hide *;
      var n, head := HeadPlaced(es);
      var rest := Places(es[n..]);
      Moved(es, n, Parse(es[n..]), rest);
      at := Combined(es, head, Parse(es[n..]), Shift(rest, n));
    }
  }

  lemma {:induction false} Combined(es: seq<Entry>, head: seq<Logical>, ns: seq<Logical>, at: seq<nat>)
    returns (all: seq<nat>)
    requires |head| <= 1 && (head != [] ==> PlacedAt(es, head[0], 0))
    requires Placed(es, ns, at) && forall k :: 0 <= k < |at| ==> at[k] > 0
    ensures Placed(es, head + ns, all)
  {
    hide *;
    if head == [] {
      assert head + ns == ns;
      all := at;
    } else {
      assert head == [head[0]];
      Prepended(es, head[0], ns, at);
      all := [0] + at;
    }
  }

  function Shift(at: seq<nat>, n: nat): (r: seq<nat>)
    ensures |r| == |at| && forall k :: 0 <= k < |at| ==> r[k] == at[k] + n
  {
    if at == [] then [] else [at[0] + n] + Shift(at[1..], n)
  }

  lemma {:induction false} Moved(es: seq<Entry>, n: nat, ns: seq<Logical>, at: seq<nat>)
    requires n <= |es| && Placed(es[n..], ns, at)
    ensures Placed(es, ns, Shift(at, n))
  {
    hide PlacedAt;
    var moved := Shift(at, n);
    hide Shift;
    forall k | 0 <= k < |ns| ensures PlacedAt(es, ns[k], moved[k]) { Shifted(es, ns[k], at[k], n); }
  }

  lemma {:induction false} Prepended(es: seq<Entry>, x: Logical, ns: seq<Logical>, at: seq<nat>)
    requires PlacedAt(es, x, 0) && Placed(es, ns, at) && forall k :: 0 <= k < |at| ==> at[k] > 0
    ensures Placed(es, [x] + ns, [0] + at)
  {
    hide PlacedAt;
  }

  lemma {:induction false} SameStart(tr: seq<Entry>, x: Logical, p: nat, y: Logical, q: nat)
    requires GoodIds(tr) && PlacedAt(tr, x, p) && PlacedAt(tr, y, q) && x.uuids == y.uuids
    ensures p == q && x == y
  {
    hide StretchNode;
    hide Uuids;
    assert tr[p..p + |x.uuids|][0] == tr[p] && tr[q..q + |y.uuids|][0] == tr[q];
    assert tr[p].uuid == x.uuids[0] == tr[q].uuid;
  }

  lemma {:induction false} InWhole(tr: seq<Entry>, k: nat, n: Logical, p: nat)
    requires k <= |tr| && PlacedAt(tr[..k], n, p)
    ensures PlacedAt(tr, n, p)
  {
    hide StretchNode;
    hide Uuids;
    assert tr[..k][p..p + |n.uuids|] == tr[p..p + |n.uuids|];
  }

  lemma {:induction false} PlacedPlainly(tr: seq<Entry>, x: Logical, p: nat)
    requires GoodIds(tr) && PlacedAt(tr, x, p)
    ensures Plainly(x.uuids) && x.uuids != []
  {
    assert forall i :: 0 <= i < |x.uuids| ==> x.uuids[i] == tr[p..p + |x.uuids|][i].uuid == tr[p + i].uuid;
  }

  lemma {:induction false} SameUuids(h: Digest, tr: seq<Entry>, x: Logical, p: nat, y: Logical, q: nat)
    requires Injective(h) && GoodIds(tr) && PlacedAt(tr, x, p) && PlacedAt(tr, y, q) && Fp(h, x) == Fp(h, y)
    ensures x.uuids == y.uuids
  {
    PlacedPlainly(tr, x, p);
    PlacedPlainly(tr, y, q);
    hide PlacedAt;
    hide GoodIds;
    hide Plainly;
    JoinLonger(x.uuids);
    JoinLonger(y.uuids);
    hide Join;
    JoinInjective(x.uuids, y.uuids);
  }

  /** A node whose entries have no ids is known by the first 200 characters of its text. */
  lemma {:induction false} NamelessByText(h: Digest, x: Logical, y: Logical)
    requires Injective(h) && (forall u :: u in x.uuids + y.uuids ==> u == "") && |x.uuids| <= 1 && |y.uuids| <= 1
    ensures Fp(h, x) == Fp(h, y) <==> Prefix(x.raw, 200) == Prefix(y.raw, 200)
  {
    assert x.uuids != [] ==> x.uuids[0] in x.uuids + y.uuids;
    assert y.uuids != [] ==> y.uuids[0] in x.uuids + y.uuids;
    hide Prefix;
  }

  /** With an injective digest and good entry ids, fingerprints identify the nodes of every state of the
      transcript. */
  lemma {:induction false} GoodIdsIdentify(h: Digest, tr: seq<Entry>)
    requires Injective(h) && GoodIds(tr)
    ensures Identifying(h, tr)
  {
    forall k | 0 <= k <= |tr| ensures Distinct(Fps(h, Parse(tr[..k]))) { NoneRepeats(h, tr, k); }
    forall k, l, x, y | 0 <= k <= |tr| && 0 <= l <= |tr| && Elem(x, Parse(tr[..k])) && Elem(y, Parse(tr[..l]))
      ensures Fp(h, x) == Fp(h, y) ==> x == y
    {
      if Fp(h, x) == Fp(h, y) {
        var p := PlaceOf(tr, k, x);
        var q := PlaceOf(tr, l, y);
        SameUuids(h, tr, x, p, y, q);
        SameStart(tr, x, p, y, q);
      }
    }
  }

  lemma {:induction false} PlaceOf(tr: seq<Entry>, k: nat, x: Logical) returns (p: nat)
    requires k <= |tr| && Elem(x, Parse(tr[..k]))
    ensures PlacedAt(tr, x, p)
  {
    var at := Places(tr[..k]);
    hide PlacedAt;
    var i :| 0 <= i < |at| && Parse(tr[..k])[i] == x;
    p := at[i];
    InWhole(tr, k, x, p);
  }

  lemma {:induction false} NoneRepeats(h: Digest, tr: seq<Entry>, k: nat)
    requires Injective(h) && GoodIds(tr) && k <= |tr|
    ensures Distinct(Fps(h, Parse(tr[..k])))
  {
    var ns := Parse(tr[..k]);
    var at := Places(tr[..k]);
    hide PlacedAt;
    hide Fp;
    hide Parse;
    forall i, j | 0 <= i < j < |ns| ensures Fp(h, ns[i]) != Fp(h, ns[j]) {
      InWhole(tr, k, ns[i], at[i]);
      InWhole(tr, k, ns[j], at[j]);
      if Fp(h, ns[i]) == Fp(h, ns[j]) {
        SameUuids(h, tr, ns[i], at[i], ns[j], at[j]);
        SameStart(tr, ns[i], at[i], ns[j], at[j]);
      }
    }
  }
}
