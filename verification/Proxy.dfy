// The machine's configuration for the proxy's own views of a request, and what it takes for them to
// serve the protocol.
module Proxy {
  import opened Sequences
  import opened Text
  import opened Messages
  import opened Machine
  import opened Coverage
  import ToolCalls
  import Views

  function Heads(es: seq<L1>): seq<string> {
    if es == [] then [] else [if es[0].fps == [] then "" else es[0].fps[0]] + Heads(es[1..])
  }

  function LStripBrackets(s: string): string {
    if s != "" && s[0] == '[' then LStripBrackets(s[1..]) else s
  }

  /** The role that is recovered from an entry's preview. */
  function RoleOf(content: string): string {
    var k := Find(content, "] ", 0);
    if content != "" && content[0] == '[' && k.Some? then LStripBrackets(content[..k.value]) else "user"
  }

  function RecoveredTurn(e: L1): Turn { Turn(RoleOf(e.content), e.raw) }

  function RealConfig(h: Hash, ack: string, minL1: int): Config {
    Config((ms: seq<Message>) => Heads(PerMessage(h, ms)), (ms: seq<Message>) => Bundled(h, ms),
           RecoveredTurn, ack, minL1)
  }

  lemma {:induction false} RealViews(h: Hash, ack: string, minL1: int, ms: seq<Message>, sel: seq<Message>)
    ensures var cfg := RealConfig(h, ack, minL1);
      && cfg.keys(ms) == Heads(PerMessage(h, ms)) && cfg.bundled(sel) == Bundled(h, sel)
      && cfg.minL1 == minL1 && cfg.ack == ack
  {}

  ghost predicate AllVisible(ms: seq<Message>) { forall i :: 0 <= i < |ms| ==> Visible(ms[i]) }

  lemma {:induction false} HeadsAre(h: Hash, ms: seq<Message>)
    ensures |Heads(PerMessage(h, ms))| <= |ms|
    ensures AllVisible(ms) <==> |Heads(PerMessage(h, ms))| == |ms|
    ensures AllVisible(ms) ==> Heads(PerMessage(h, ms)) == Fps(h, ms)
  {
    hide Visible;
    hide Fp;
    hide TextOf;
    if ms != [] {
      HeadsAre(h, ms[1..]);
      var tail := PerMessage(h, ms[1..]);
      if Visible(ms[0]) {
        assert PerMessage(h, ms) == [Plain(h, ms[0])] + tail;
        assert ([Plain(h, ms[0])] + tail)[1..] == tail;
        FirstFp(h, ms[0]);
      } else {
        assert PerMessage(h, ms) == tail;
      }
      VisibleRest(ms);
    }
  }

  lemma {:induction false} FirstFp(h: Hash, m: Message)
    ensures Plain(h, m).fps == [Fp(h, m)]
  {}

  lemma {:induction false} VisibleRest(ms: seq<Message>)
    requires ms != []
    ensures AllVisible(ms) <==> Visible(ms[0]) && AllVisible(ms[1..])
  {
    hide Visible;
    if Visible(ms[0]) && AllVisible(ms[1..]) {
      forall i | 0 <= i < |ms| ensures Visible(ms[i]) { assert i > 0 ==> ms[i] == ms[1..][i - 1]; }
    }
  }

  lemma {:induction false} SelectionKeys(h: Hash, tr: seq<Message>, idx: seq<nat>)
    requires AllVisible(tr) && Ascending(idx, |tr|)
    ensures AllFps(Bundled(h, Pick(tr, idx))) == Pick(Fps(h, tr), idx)
  {
    hide Visible;
    var sel := Pick(tr, idx);
    PickAscending(tr, idx);
    PickAscending(Fps(h, tr), idx);
    Views.BundlingKeepsFingerprints(h, sel);
    Views.RunFps(h, sel);
    hide Bundled;
    hide PerMessage;
    hide Pick;
    assert Fps(h, sel) == Pick(Fps(h, tr), idx);
  }

  /** The proxy's views serve the protocol exactly when no message of the transcript is blank and no two
      have the same fingerprint. */
  lemma {:induction false} FaithfulIff(h: Hash, ack: string, minL1: int, tr: seq<Message>)
    ensures Faithful(RealConfig(h, ack, minL1), tr) <==> AllVisible(tr) && Distinct(Fps(h, tr))
  {
    var cfg := RealConfig(h, ack, minL1);
    HeadsAre(h, tr);
    hide AllVisible;
    if AllVisible(tr) {
      forall n | 0 <= n <= |tr| ensures cfg.keys(tr[..n]) == cfg.keys(tr)[..n] {
        VisiblePart(tr, n);
        HeadsAre(h, tr[..n]);
        FpsPart(h, tr, n);
      }
      forall idx | Ascending(idx, |tr|) ensures AllFps(cfg.bundled(Pick(tr, idx))) == Pick(cfg.keys(tr), idx) {
        SelectionKeys(h, tr, idx);
      }
    }
  }

  lemma {:induction false} VisiblePart(ms: seq<Message>, n: nat)
    requires AllVisible(ms) && n <= |ms|
    ensures AllVisible(ms[..n])
  {
    hide Visible;
  }

  lemma {:induction false} FpsPart(h: Hash, ms: seq<Message>, n: nat)
    requires n <= |ms|
    ensures Fps(h, ms[..n]) == Fps(h, ms)[..n]
  {
    hide Fp;
  }

  // ---- Role recovery ----

  lemma {:induction false} StripOne(s: string)
    requires s == "" || s[0] != '['
    ensures LStripBrackets("[" + s) == s
  {
    assert ("[" + s)[1..] == s;
  }

  lemma {:induction false} AtStarts(s: string, t: string, i: nat)
    requires t != "" && At(s, t, i)
    ensures s[i] == t[0]
  {
    var u := s[i..i + |t|];
    assert u[0] == s[i];
  }

  lemma {:induction false} StripShortens(s: string)
    ensures |LStripBrackets(s)| <= |s|
    ensures LStripBrackets(s) == "" || LStripBrackets(s)[0] != '['
  {
    if s != "" && s[0] == '[' { StripShortens(s[1..]); }
  }

  /** A role that comes back from the preview of its entry: it does not start with the bracket that the
      preview opens with, and does not hold the mark that ends it. */
  ghost predicate Recoverable(role: string) {
    (role == "" || role[0] != '[') && forall i :: 0 <= i < |role| ==> !At(role, "] ", i)
  }

  /** Inside a bracketed role, the mark is where it is in the role. */
  lemma {:induction false} MarkInside(role: string, rest: string, i: nat)
    requires i < |role| + 1
    ensures At("[" + role + "] " + rest, "] ", i) <==> i > 0 && At(role, "] ", i - 1)
  {
    var c := "[" + role + "] " + rest;
    assert |c| == |role| + 3 + |rest| && c[0] == '[' && c[|role| + 1] == ']';
    assert c[i..i + 2] == [c[i], c[i + 1]] && "] " == [']', ' '];
    if i > 0 {
      assert c[i] == role[i - 1];
      if i < |role| { assert c[i + 1] == role[i] && role[i - 1..i + 1] == [role[i - 1], role[i]]; }
    }
  }

  lemma {:induction false} BracketedRole(role: string, rest: string)
    ensures RoleOf("[" + role + "] " + rest) == role <==> Recoverable(role)
  {
    var c := "[" + role + "] " + rest;
    var k := |role| + 1;
    assert c[k..k + 2] == "] ";
    assert At(c, "] ", k);
    forall i: nat | i < k ensures At(c, "] ", i) <==> i > 0 && At(role, "] ", i - 1) { MarkInside(role, rest, i); }
    var at := Find(c, "] ", 0).value;
    assert at <= k;
    assert c[..at] == "[" + role[..at - 1];
    StripShortens(role[..at - 1]);
    StripHead(role[..at - 1]);
    if at == k {
      assert role[..at - 1] == role;
      NoMark(role, c, k);
      if role == "" || role[0] != '[' { StripOne(role); }
    } else {
      assert At(role, "] ", at - 1);
    }
  }

  lemma {:induction false} StripHead(s: string)
    ensures LStripBrackets("[" + s) == LStripBrackets(s)
  {
    assert ("[" + s)[1..] == s;
  }

  lemma {:induction false} NoMark(role: string, c: string, k: nat)
    requires k == |role| + 1
    requires forall i: nat :: i < k ==> !At(c, "] ", i)
    requires forall i: nat :: i < k ==> (At(c, "] ", i) <==> i > 0 && At(role, "] ", i - 1))
    ensures forall i :: 0 <= i < |role| ==> !At(role, "] ", i)
  {
    forall i | 0 <= i < |role| ensures !At(role, "] ", i) { assert !At(c, "] ", i + 1); }
  }

  /** The text of a plain entry always comes back from it, and its role exactly when it is recoverable. */
  lemma {:induction false} PlainRoleRecovered(h: Hash, m: Message)
    ensures RecoveredTurn(Plain(h, m)).text == TextOf(m.content)
    ensures RecoveredTurn(Plain(h, m)).role == m.role <==> Recoverable(m.role)
  {
    hide TextOf;
    hide Prefix;
    BracketedRole(m.role, Prefix(TextOf(m.content), 500));
    hide RoleOf;
    hide Recoverable;
  }

  /** A preview that starts with "[label", where the label holds no bracket. */
  lemma {:induction false} LabelledRole(name: string, c: string)
    requires name != "" && '[' !in name && ']' !in name && |c| >= |name| + 1 && c[..|name| + 1] == "[" + name
    ensures RoleOf(c) == "user" || name <= RoleOf(c)
  {
    var k := Find(c, "] ", 0);
    if k.Some? {
      assert c[k.value..k.value + 2][0] == ']';
      assert forall i :: 0 < i < |name| + 1 ==> c[i] == name[i - 1];
      assert k.value >= |name| + 1;
      var rest := c[..k.value][1..];
      assert c[..k.value] == "[" + rest;
      assert name <= rest;
      assert rest[0] == name[0];
      StripOne(rest);
    }
  }

  /** The role of a tool run's entry never is: it is read out of the middle of the rendering, or is the
      default "user", though the run is opened by the assistant. */
  lemma {:induction false} BundleRoleNotRecovered(h: Hash, run: seq<Message>)
    ensures var role := RecoveredTurn(BundleEntry(h, run)).role;
      role == "user" || "tool_bundle" <= role
  {
    hide RoleOf;
    hide PreviewOf;
    hide RunRaw;
    hide Fps;
    hide MapParts;
    hide RunEvents;
    var lines := MapParts(PartLine, ToolCalls.Render(RunEvents(run)));
    PreviewStart(lines);
    LabelledRole("tool_bundle", PreviewOf(lines));
  }

  lemma {:induction false} PreviewStart(lines: seq<string>)
    ensures |PreviewOf(lines)| >= 12 && PreviewOf(lines)[..12] == "[tool_bundle"
  {
    hide Join;
  }
}
