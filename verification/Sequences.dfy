// What the modules share about lists.
module Sequences {
  function Elems<T>(xs: seq<T>): set<T> { set x | x in xs }

  ghost predicate Distinct<T>(xs: seq<T>) { forall i, j :: 0 <= i < j < |xs| ==> xs[i] != xs[j] }

  lemma {:induction false} NotShorter<T>(sep: T, a: seq<T>, rest: seq<T>, b: seq<T>, rest': seq<T>)
    requires sep !in b && (rest == [] || rest[0] == sep) && a + rest == b + rest'
    ensures |a| >= |b|
  {
    var s := a + rest;
    assert rest != [] ==> s[|a|] == sep;
    assert forall i :: 0 <= i < |b| ==> s[i] == b[i];
  }

  /** A list splits before its first separator in one way only. */
  lemma {:induction false} SplitAtFirst<T>(sep: T, a: seq<T>, rest: seq<T>, b: seq<T>, rest': seq<T>)
    requires sep !in a && sep !in b && a + rest == b + rest'
    requires (rest == [] || rest[0] == sep) && (rest' == [] || rest'[0] == sep)
    ensures a == b && rest == rest'
  {
    var s := a + rest;
    NotShorter(sep, a, rest, b, rest');
    NotShorter(sep, b, rest', a, rest);
    assert s[..|a|] == a && s[..|b|] == b && s[|a|..] == rest && s[|b|..] == rest';
  }
}
