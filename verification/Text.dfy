// String helpers of the extractor: Python's `strip`, and the removal of
// <system-reminder> blocks by a leftmost, non-greedy regular expression.
module Text {
  datatype Option<+T> = None | Some(value: T)

  const OPEN_TAG := "<system-reminder>"
  const CLOSE_TAG := "</system-reminder>"

  /** The characters that Python's `str.strip()` removes. */
  predicate IsSpace(c: char) {
    || '\t' <= c <= '\r' || '\U{1c}' <= c <= ' ' || c == '\U{85}' || c == '\U{a0}' || c == '\U{1680}'
    || '\U{2000}' <= c <= '\U{200a}' || c == '\U{2028}' || c == '\U{2029}' || c == '\U{202f}'
    || c == '\U{205f}' || c == '\U{3000}'
  }

  /** The 29 characters that Python's `str.strip` takes for white space. */
  lemma {:induction false} SpacesAre(c: char)
    ensures IsSpace(c) <==> c in {
      '\U{9}', '\U{a}', '\U{b}', '\U{c}', '\U{d}', '\U{1c}', '\U{1d}', '\U{1e}', '\U{1f}', '\U{20}', '\U{85}',
      '\U{a0}', '\U{1680}', '\U{2000}', '\U{2001}', '\U{2002}', '\U{2003}', '\U{2004}', '\U{2005}', '\U{2006}',
      '\U{2007}', '\U{2008}', '\U{2009}', '\U{200a}', '\U{2028}', '\U{2029}', '\U{202f}', '\U{205f}', '\U{3000}'}
  {
    if IsSpace(c) && c <= '\U{1680}' { assert c as int in {9, 10, 11, 12, 13, 28, 29, 30, 31, 32, 133, 160, 0x1680}; }
  }

  function LStrip(s: string): string {
    if s != "" && IsSpace(s[0]) then LStrip(s[1..]) else s
  }

  function RStrip(s: string): string {
    if s != "" && IsSpace(s[|s| - 1]) then RStrip(s[..|s| - 1]) else s
  }

  function Strip(s: string): string { RStrip(LStrip(s)) }

  predicate Blank(s: string) { forall i :: 0 <= i < |s| ==> IsSpace(s[i]) }

  lemma {:induction false} LStripEmpty(s: string)
    ensures LStrip(s) == "" <==> Blank(s)
    ensures Blank(LStrip(s)) <==> Blank(s)
  {
    if s != "" && IsSpace(s[0]) {
      LStripEmpty(s[1..]);
      assert forall i :: 0 < i < |s| ==> s[i] == s[1..][i - 1];
    } else if s != "" {
      assert !IsSpace(s[0]);
    }
  }

  lemma {:induction false} RStripEmpty(s: string)
    ensures RStrip(s) == "" <==> Blank(s)
  {
    if s != "" && IsSpace(s[|s| - 1]) {
      RStripEmpty(s[..|s| - 1]);
    } else if s != "" {
      assert !IsSpace(s[|s| - 1]);
    }
  }

  /** Stripping takes the blank ends off, and nothing else. */
  lemma {:induction false} StripTakesEnds(s: string) returns (k: nat, e: nat)
    ensures k <= e <= |s| && Strip(s) == s[k..e] && Blank(s[..k]) && Blank(s[e..])
    ensures k < e ==> !IsSpace(s[k]) && !IsSpace(s[e - 1])
  {
    k := LStripIs(s);
    var r := RStripIs(s[k..]);
    e := k + r;
    assert s[k..][..r] == s[k..e] && s[k..][r..] == s[e..];
  }

  lemma {:induction false} LStripIs(s: string) returns (k: nat)
    ensures k <= |s| && LStrip(s) == s[k..] && Blank(s[..k]) && (k < |s| ==> !IsSpace(s[k]))
  {
    if s != "" && IsSpace(s[0]) {
      k := LStripIs(s[1..]);
      k := k + 1;
      assert s[1..][k - 1..] == s[k..];
      forall i | 0 <= i < k ensures IsSpace(s[..k][i]) { if i > 0 { assert s[..k][i] == s[1..][..k - 1][i - 1]; } }
    } else {
      k := 0;
    }
  }

  lemma {:induction false} RStripIs(s: string) returns (e: nat)
    ensures e <= |s| && RStrip(s) == s[..e] && Blank(s[e..]) && (e > 0 ==> !IsSpace(s[e - 1]))
  {
    if s != "" && IsSpace(s[|s| - 1]) {
      var init := s[..|s| - 1];
      e := RStripIs(init);
      assert init[..e] == s[..e];
      forall i | 0 <= i < |s| - e ensures IsSpace(s[e..][i]) {
        if i < |s| - e - 1 { assert s[e..][i] == init[e..][i]; }
      }
    } else {
      e := |s|;
    }
  }

  /** `if not text.strip()` holds exactly of the all-whitespace strings. */
  lemma {:induction false} StripEmpty(s: string)
    ensures Strip(s) == "" <==> Blank(s)
  {
    LStripEmpty(s);
    RStripEmpty(LStrip(s));
  }

  predicate At(s: string, t: string, i: int) {
    0 <= i && i + |t| <= |s| && s[i..i + |t|] == t
  }

  /** The first occurrence of `t` in `s` at or after `from`. */
  function Find(s: string, t: string, from: nat): (r: Option<nat>)
    ensures r.None? ==> forall i :: from <= i ==> !At(s, t, i)
    ensures r.Some? ==> from <= r.value && At(s, t, r.value)
    ensures r.Some? ==> forall i :: from <= i < r.value ==> !At(s, t, i)
    decreases |s| - from
  {
    if from > |s| then None
    else if At(s, t, from) then Some(from)
    else Find(s, t, from + 1)
  }

  /** The text s[i..e] matches `<system-reminder>.*?</system-reminder>` (with DOTALL). */
  predicate Matches(s: string, i: nat, e: nat) {
    e <= |s| && At(s, OPEN_TAG, i) && i + |OPEN_TAG| <= e - |CLOSE_TAG| && At(s, CLOSE_TAG, e - |CLOSE_TAG|)
  }

  /** The match that the regular expression finds first: the leftmost one and, of those, the shortest. */
  function FirstMatch(s: string): (r: Option<(nat, nat)>)
    ensures r.None? ==> forall i: nat, e: nat :: !Matches(s, i, e)
    ensures r.Some? ==> Matches(s, r.value.0, r.value.1)
    ensures r.Some? ==> forall i: nat, e: nat :: Matches(s, i, e) ==>
      r.value.0 < i || (r.value.0 == i && r.value.1 <= e)
  {
    match Find(s, OPEN_TAG, 0)
    case None => None
    case Some(i) =>
      match Find(s, CLOSE_TAG, i + |OPEN_TAG|)
      case None => None
      case Some(j) => Some((i, j + |CLOSE_TAG|))
  }

  /** `re.sub` by the empty string. */
  function RemoveReminders(s: string): string
    decreases |s|
  {
    match FirstMatch(s)
    case None => s
    case Some((i, e)) => s[..i] + RemoveReminders(s[e..])
  }

  /** Without an opening tag nothing is removed. */
  lemma {:induction false} NoReminderKept(s: string)
    requires forall i :: !At(s, "<system-reminder>", i)
    ensures RemoveReminders(s) == s
  {
    assert forall i: nat, e: nat :: !Matches(s, i, e);
  }

  /** The first reminder goes, up to its first closing tag; the text before it stays, and what follows is
      treated alike. */
  lemma {:induction false} FirstReminderCut(a: string, body: string, b: string)
    requires var s := a + "<system-reminder>" + body + "</system-reminder>" + b;
      forall i :: 0 <= i < |a| ==> !At(s, "<system-reminder>", i)
    requires forall i :: 0 <= i < |body| ==> !At(body + "</system-reminder>" + b, "</system-reminder>", i)
    ensures RemoveReminders(a + "<system-reminder>" + body + "</system-reminder>" + b) == a + RemoveReminders(b)
  {
    var s, rest := a + OPEN_TAG + body + CLOSE_TAG + b, body + CLOSE_TAG + b;
    var i, j, e := |a|, |a| + |OPEN_TAG| + |body|, |a| + |OPEN_TAG| + |body| + |CLOSE_TAG|;
    assert s == a + OPEN_TAG + rest && s[i..i + |OPEN_TAG|] == OPEN_TAG && s[j..e] == CLOSE_TAG && s[e..] == b;
    var off := i + |OPEN_TAG|;
    assert s[off..] == rest;
    forall k | off <= k < j ensures !At(s, CLOSE_TAG, k) { AtInTail(s, off, CLOSE_TAG, k); }
    FirstMatchIs(s, i, j);
    hide At;
    assert s[..i] == a;
  }

  lemma {:induction false} AtInTail(s: string, off: nat, t: string, k: nat)
    requires off <= k && off <= |s|
    ensures At(s, t, k) <==> At(s[off..], t, k - off)
  {
    if k + |t| <= |s| { assert s[k..k + |t|] == s[off..][k - off..k - off + |t|]; }
  }

  lemma {:induction false} FirstMatchIs(s: string, i: nat, j: nat)
    requires At(s, OPEN_TAG, i) && (forall k :: 0 <= k < i ==> !At(s, OPEN_TAG, k))
    requires i + |OPEN_TAG| <= j && At(s, CLOSE_TAG, j)
    requires forall k :: i + |OPEN_TAG| <= k < j ==> !At(s, CLOSE_TAG, k)
    ensures FirstMatch(s) == Some((i, j + |CLOSE_TAG|))
  {
    hide At;
    assert Find(s, OPEN_TAG, 0) == Some(i);
    assert Find(s, CLOSE_TAG, i + |OPEN_TAG|) == Some(j);
  }

  function StripBoilerplate(s: string): string { Strip(RemoveReminders(s)) }

  /** In pre + body + newline + tag, a tag without newlines occurs after `pre` only at the very end,
      unless the body holds it. */
  lemma {:induction false} TagOnlyAtEnd(pre: string, body: string, tag: string, j: nat)
    requires forall i :: !At(body, tag, i)
    requires '\n' !in tag
    requires |pre| <= j < |pre| + |body| + 1
    ensures !At(pre + body + "\n" + tag, tag, j)
  {
    var s := pre + body + "\n" + tag;
    var close := |pre| + |body| + 1;
    if j + |tag| < close {
      assert s[j..j + |tag|] == body[j - |pre|..j - |pre| + |tag|];
      assert !At(body, tag, j - |pre|);
    } else {
      // An occurrence here would cover the newline at position close - 1.
      assert s[j..j + |tag|][close - 1 - j] == s[close - 1] == '\n';
    }
  }

  /** A reminder block whose body holds no closing tag is removed whole. The body is anything
      followed by a newline, as the block's template puts one before its closing tag. */
  lemma {:induction false} BlockVanishes(body: string)
    requires forall i :: !At(body, CLOSE_TAG, i)
    ensures StripBoilerplate(OPEN_TAG + body + "\n" + CLOSE_TAG) == ""
  {
    var s := OPEN_TAG + body + "\n" + CLOSE_TAG;
    assert Matches(s, 0, |s|);
    var (i, e) := FirstMatch(s).value;
    assert i == 0;
    if e < |s| {
      TagOnlyAtEnd(OPEN_TAG, body, CLOSE_TAG, e - |CLOSE_TAG|);
      assert false;
    }
    assert RemoveReminders(s) == s[..0] + RemoveReminders("");
  }

  function Prefix(s: string, n: nat): (r: string)
    ensures r <= s && |r| <= n && (|r| == n || r == s)
  {
    if n <= |s| then s[..n] else s
  }

  /** Python's `sep.join(parts)`. */
  function Join(sep: string, parts: seq<string>): string {
    if |parts| == 0 then ""
    else if |parts| == 1 then parts[0]
    else parts[0] + sep + Join(sep, parts[1..])
  }

  /** A join is not blank as soon as one of its parts is not. */
  lemma {:induction false} JoinNotBlank(sep: string, parts: seq<string>, k: nat)
    requires k < |parts| && !Blank(parts[k])
    ensures !Blank(Join(sep, parts))
  {
    var j := Join(sep, parts);
    if |parts| > 1 {
      if k == 0 {
        var i :| 0 <= i < |parts[0]| && !IsSpace(parts[0][i]);
        assert j[i] == parts[0][i];
      } else {
        JoinNotBlank(sep, parts[1..], k - 1);
        var rest := Join(sep, parts[1..]);
        var i :| 0 <= i < |rest| && !IsSpace(rest[i]);
        assert j[|parts[0]| + |sep| + i] == rest[i];
      }
    }
  }
}
