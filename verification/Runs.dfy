// Grouping a list into tool runs and single items. Both the proxy's extractor and the transcript
// parser group this way, over different kinds of item.
module Runs {
  /** A `Call` opens a run or continues it, an `Answer` only continues it, a `Plain` item ends it. */
  datatype Kind = Call | Answer | Plain

  datatype Segment<M> = Run(items: seq<M>) | Single(item: M)

  /** Length of the longest prefix without a plain item. */
  function RunLength<M>(ms: seq<M>, kind: M -> Kind): (n: nat)
    ensures n <= |ms|
    ensures forall k :: 0 <= k < n ==> !kind(ms[k]).Plain?
    ensures n < |ms| ==> kind(ms[n]).Plain?
  {
    if ms == [] || kind(ms[0]).Plain? then 0 else 1 + RunLength(ms[1..], kind)
  }

  lemma {:induction false} RunLengthIs<M>(ms: seq<M>, kind: M -> Kind, n: nat)
    requires n <= |ms|
    requires forall k :: 0 <= k < n ==> !kind(ms[k]).Plain?
    requires n < |ms| ==> kind(ms[n]).Plain?
    ensures RunLength(ms, kind) == n
  {}

  function Segments<M>(ms: seq<M>, kind: M -> Kind): seq<Segment<M>>
    decreases |ms|
  {
    if ms == [] then []
    else if kind(ms[0]).Call? then
      var n := RunLength(ms, kind);
      [Run(ms[..n])] + Segments(ms[n..], kind)
    else
      [Single(ms[0])] + Segments(ms[1..], kind)
  }

  /** The list ends inside a run: from some call on, no plain item. */
  ghost predicate OpenAtEnd<M>(ms: seq<M>, kind: M -> Kind) {
    exists q :: 0 <= q < |ms| && kind(ms[q]).Call? && forall k :: q <= k < |ms| ==> !kind(ms[k]).Plain?
  }

  /** The cut between `a` and `b` falls inside a run of a + b. */
  ghost predicate CutsRun<M>(a: seq<M>, b: seq<M>, kind: M -> Kind) {
    b != [] && !kind(b[0]).Plain? && OpenAtEnd(a, kind)
  }

  /** `r` is a whole run standing before `rest`. */
  ghost predicate WholeRun<M>(r: seq<M>, rest: seq<M>, kind: M -> Kind) {
    && r != [] && kind(r[0]).Call? && (forall k :: 0 <= k < |r| ==> !kind(r[k]).Plain?)
    && (rest != [] ==> kind(rest[0]).Plain?)
  }

  lemma {:induction false} SegmentsRun<M>(r: seq<M>, rest: seq<M>, kind: M -> Kind)
    requires WholeRun(r, rest, kind)
    ensures Segments(r + rest, kind) == [Run(r)] + Segments(rest, kind)
  {
    RunLengthIs(r + rest, kind, |r|);
    assert (r + rest)[..|r|] == r && (r + rest)[|r|..] == rest;
  }

  lemma {:induction false} SegmentsSingle<M>(m: M, rest: seq<M>, kind: M -> Kind)
    requires !kind(m).Call?
    ensures Segments([m] + rest, kind) == [Single(m)] + Segments(rest, kind)
  {
    assert ([m] + rest)[1..] == rest;
  }

  lemma {:induction false} OpenAfterSingle<M>(m: M, rest: seq<M>, kind: M -> Kind)
    requires !kind(m).Call?
    ensures OpenAtEnd([m] + rest, kind) <==> OpenAtEnd(rest, kind)
  {
    var ms := [m] + rest;
    if OpenAtEnd(ms, kind) {
      var q :| 0 <= q < |ms| && kind(ms[q]).Call? && forall k :: q <= k < |ms| ==> !kind(ms[k]).Plain?;
      assert kind(rest[q - 1]).Call?;
      forall k | q - 1 <= k < |rest| ensures !kind(rest[k]).Plain? { assert rest[k] == ms[k + 1]; }
    }
    if OpenAtEnd(rest, kind) {
      var q :| 0 <= q < |rest| && kind(rest[q]).Call? && forall k :: q <= k < |rest| ==> !kind(rest[k]).Plain?;
      assert kind(ms[q + 1]).Call?;
    }
  }

  lemma {:induction false} OpenAfterRun<M>(r: seq<M>, rest: seq<M>, kind: M -> Kind)
    requires WholeRun(r, rest, kind)
    ensures rest == [] ==> OpenAtEnd(r, kind)
    ensures rest != [] ==> (OpenAtEnd(r + rest, kind) <==> OpenAtEnd(rest, kind))
  {
    var ms := r + rest;
    if rest == [] {
      assert kind(r[0]).Call?;
    } else {
      assert kind(ms[|r|]).Plain?;
      if OpenAtEnd(ms, kind) {
        var q :| 0 <= q < |ms| && kind(ms[q]).Call? && forall k :: q <= k < |ms| ==> !kind(ms[k]).Plain?;
        assert kind(rest[q - |r|]).Call?;
        forall k | q - |r| <= k < |rest| ensures !kind(rest[k]).Plain? { assert rest[k] == ms[k + |r|]; }
      }
      if OpenAtEnd(rest, kind) {
        var q :| 0 <= q < |rest| && kind(rest[q]).Call?
          && forall k :: q <= k < |rest| ==> !kind(rest[k]).Plain?;
        assert kind(ms[q + |r|]).Call?;
      }
    }
  }

  function HeadLength<M>(ms: seq<M>, kind: M -> Kind): (n: nat)
    requires ms != []
    ensures 0 < n <= |ms|
  {
    if kind(ms[0]).Call? then RunLength(ms, kind) else 1
  }

  /** The first segment of `a`, when the head of `b` does not extend it. */
  lemma {:induction false} HeadStep<M>(a: seq<M>, b: seq<M>, kind: M -> Kind) returns (head: Segment<M>)
    requires a != []
    requires kind(a[0]).Call? && RunLength(a, kind) == |a| && b != [] ==> kind(b[0]).Plain?
    ensures var rest := a[HeadLength(a, kind)..];
      && Segments(a, kind) == [head] + Segments(rest, kind)
      && Segments(a + b, kind) == [head] + Segments(rest + b, kind)
      && (rest != [] || !kind(a[0]).Call? ==> (OpenAtEnd(a, kind) <==> OpenAtEnd(rest, kind)))
  {
    var n := HeadLength(a, kind);
    var r, rest := a[..n], a[n..];
    assert a == r + rest && a + b == r + (rest + b);
    if kind(a[0]).Call? {
      head := Run(r);
      OpenAfterRun(r, rest, kind);
      SegmentsRun(r, rest, kind);
      SegmentsRun(r, rest + b, kind);
    } else {
      head := Single(a[0]);
      assert r == [a[0]];
      OpenAfterSingle(a[0], rest, kind);
      SegmentsSingle(a[0], rest, kind);
      SegmentsSingle(a[0], rest + b, kind);
    }
  }

  lemma {:induction false} OpenIfAllRun<M>(a: seq<M>, kind: M -> Kind)
    requires a != [] && kind(a[0]).Call? && RunLength(a, kind) == |a|
    ensures OpenAtEnd(a, kind)
  {
    assert kind(a[0]).Call?;
  }

  lemma {:induction false} Associative<T>(x: seq<T>, y: seq<T>, z: seq<T>)
    ensures (x + y) + z == x + (y + z)
  {}

  /** Outside a run, grouping the whole is grouping the parts. */
  lemma {:induction false} SegmentsSplit<M>(a: seq<M>, b: seq<M>, kind: M -> Kind)
    requires !CutsRun(a, b, kind)
    ensures Segments(a + b, kind) == Segments(a, kind) + Segments(b, kind)
    decreases |a|
  {
    if a == [] {
      assert a + b == b;
    } else {
      if kind(a[0]).Call? && RunLength(a, kind) == |a| { OpenIfAllRun(a, kind); }
      var head := HeadStep(a, b, kind);
      var rest := a[HeadLength(a, kind)..];
      SegmentsSplit(rest, b, kind);
      Associative([head], Segments(rest, kind), Segments(b, kind));
    }
  }

  lemma {:induction false} SegmentsJoined<M>(a: seq<M>, b: seq<M>, kind: M -> Kind)
    requires a != [] && kind(a[0]).Call? && RunLength(a, kind) == |a|
    ensures Segments(a, kind) == [Run(a)]
    ensures var m := RunLength(b, kind);
      Segments(a + b, kind) == [Run(a + b[..m])] + Segments(b[m..], kind)
  {
    var m := RunLength(b, kind);
    assert a + [] == a && a + b == (a + b[..m]) + b[m..];
    SegmentsRun(a, [], kind);
    SegmentsRun(a + b[..m], b[m..], kind);
  }

  /** Inside a run, the run that `a` left open absorbs the head of `b`. */
  lemma {:induction false} SegmentsMerge<M>(a: seq<M>, b: seq<M>, kind: M -> Kind)
    returns (before: seq<Segment<M>>, open: seq<M>)
    requires CutsRun(a, b, kind)
    ensures Segments(a, kind) == before + [Run(open)]
    ensures var n := RunLength(b, kind);
      n > 0 && Segments(a + b, kind) == before + [Run(open + b[..n])] + Segments(b[n..], kind)
    decreases |a|
  {
    if kind(a[0]).Call? && RunLength(a, kind) == |a| {
      before, open := [], a;
      SegmentsJoined(a, b, kind);
    } else {
      var head := HeadStep(a, b, kind);
      var rest := a[HeadLength(a, kind)..];
      before, open := SegmentsMerge(rest, b, kind);
      var n := RunLength(b, kind);
      Associative([head], before, [Run(open)]);
      Associative([head], before, [Run(open + b[..n])]);
      Associative([head], before + [Run(open + b[..n])], Segments(b[n..], kind));
      before := [head] + before;
    }
  }

  function FlatMap<A, B>(f: A -> seq<B>, xs: seq<A>): seq<B> {
    if xs == [] then [] else f(xs[0]) + FlatMap(f, xs[1..])
  }

  lemma {:induction false} FlatMapAppend<A, B>(f: A -> seq<B>, xs: seq<A>, ys: seq<A>)
    ensures FlatMap(f, xs + ys) == FlatMap(f, xs) + FlatMap(f, ys)
  {
    if xs == [] {
      assert xs + ys == ys;
    } else {
      assert (xs + ys)[1..] == xs[1..] + ys;
      FlatMapAppend(f, xs[1..], ys);
    }
  }

  function Items<M>(s: Segment<M>): seq<M> { if s.Run? then s.items else [s.item] }

  function Flat<M>(segs: seq<Segment<M>>): seq<M> {
    if segs == [] then [] else Items(segs[0]) + Flat(segs[1..])
  }

  ghost predicate ProperRun<M>(s: Segment<M>, kind: M -> Kind) {
    s.Run? ==> s.items != [] && kind(s.items[0]).Call? && forall k :: 0 <= k < |s.items| ==> !kind(s.items[k]).Plain?
  }

  /** Runs are maximal: nothing follows one but a plain item; and no call stands alone. */
  ghost predicate Maximal<M>(segs: seq<Segment<M>>, kind: M -> Kind) {
    && (forall i :: 0 <= i < |segs| && segs[i].Single? ==> !kind(segs[i].item).Call?)
    && (forall i :: 0 <= i < |segs| - 1 && segs[i].Run? ==> segs[i + 1].Single? && kind(segs[i + 1].item).Plain?)
  }

  /** The items of the segments, in order, are the list: grouping loses and reorders nothing; and the runs
      are the maximal ones. */
  lemma {:induction false} SegmentsCover<M>(ms: seq<M>, kind: M -> Kind)
    ensures var segs := Segments(ms, kind);
      && Flat(segs) == ms
      && (forall i :: 0 <= i < |segs| ==> ProperRun(segs[i], kind))
      && Maximal(segs, kind)
  {
    SegmentsFlat(ms, kind);
    SegmentsProper(ms, kind);
    SegmentsMaximal(ms, kind);
  }

  lemma {:induction false} FirstItems<M>(ms: seq<M>, kind: M -> Kind) returns (n: nat, head: Segment<M>)
    requires ms != []
    ensures 0 < n <= |ms| && Segments(ms, kind) == [head] + Segments(ms[n..], kind) && Items(head) == ms[..n]
  {
    if kind(ms[0]).Call? {
      n := RunLength(ms, kind);
      head := Run(ms[..n]);
    } else {
      n, head := 1, Single(ms[0]);
    }
  }

  lemma {:induction false} FlatCons<M>(head: Segment<M>, rest: seq<Segment<M>>)
    ensures Flat([head] + rest) == Items(head) + Flat(rest)
  {
    assert ([head] + rest)[1..] == rest;
  }

  lemma {:induction false} SegmentsFlat<M>(ms: seq<M>, kind: M -> Kind)
    ensures Flat(Segments(ms, kind)) == ms
    decreases |ms|
  {
    if ms != [] {
      var n, head := FirstItems(ms, kind);
      SegmentsFlat(ms[n..], kind);
      hide *;
      FlatCons(head, Segments(ms[n..], kind));
      assert ms == ms[..n] + ms[n..];
    } else {
      assert Segments(ms, kind) == [];
    }
  }

  lemma {:induction false} SegmentsProper<M>(ms: seq<M>, kind: M -> Kind)
    ensures forall i :: 0 <= i < |Segments(ms, kind)| ==> ProperRun(Segments(ms, kind)[i], kind)
    decreases |ms|
  {
    if ms != [] {
      var n := if kind(ms[0]).Call? then RunLength(ms, kind) else 1;
      SegmentsProper(ms[n..], kind);
    }
  }

  lemma {:induction false} SegmentsMaximal<M>(ms: seq<M>, kind: M -> Kind)
    ensures Maximal(Segments(ms, kind), kind)
    decreases |ms|
  {
    if ms != [] {
      if kind(ms[0]).Call? {
        var n := RunLength(ms, kind);
        SegmentsMaximal(ms[n..], kind);
        if n < |ms| { FirstSegment(ms[n..], kind); }
      } else {
        SegmentsMaximal(ms[1..], kind);
      }
    }
  }

  lemma {:induction false} FirstSegment<M>(ms: seq<M>, kind: M -> Kind)
    requires ms != [] && !kind(ms[0]).Call?
    ensures Segments(ms, kind) != [] && Segments(ms, kind)[0] == Single(ms[0])
  {}
}
