// The transmit gate every port shares (apps/ingest/src/callverify.ts): the box transmits only under station
// calls the gateway confirmed, and for how long a confirmation counts.
//
// A refresh asks in several awaited lookups and touches the answers only when it completes, so any overlap
// of refreshes is a sequence of completions. Strings are ASCII here.

module CallGate {
  import opened Common

  const LOOKUP_CALLS: nat := 16

  // ---- keys ---------------------------------------------------------------------------------------

  // The key a refresh stores an answer under.
  function RefreshKey(c: string): string { Upper(Trim(c)) }

  function StripStar(s: string): string { if s != "" && s[|s| - 1] == '*' then s[..|s| - 1] else s }

  predicate EndsInZeroSsid(s: string) { |s| >= 2 && s[|s| - 2] == '-' && s[|s| - 1] == '0' }

  function StripZero(s: string): string { if EndsInZeroSsid(s) then s[..|s| - 2] else s }

  // The key a frame's addresses are compared by: without the has-been-repeated mark and a zero SSID.
  function GateKey(c: string): string { StripZero(StripStar(Upper(Trim(c)))) }

  // The distinct elements, in order of first appearance.
  function Distinct(s: seq<string>): seq<string> {
    if s == [] then []
    else
      var init := Distinct(s[..|s| - 1]);
      if s[|s| - 1] in init then init else init + [s[|s| - 1]]
  }

  lemma {:induction false} DistinctIsSet(s: seq<string>)
    ensures forall x :: x in Distinct(s) <==> x in s
    ensures forall i, j :: 0 <= i < j < |Distinct(s)| ==> Distinct(s)[i] != Distinct(s)[j]
  {
    if s != [] {
      DistinctIsSet(s[..|s| - 1]);
      assert s == s[..|s| - 1] + [s[|s| - 1]];
    }
  }

  // The calls a refresh asks about.
  function Asked(calls: seq<string>): seq<string> {
    Distinct(NonEmpty(seq(|calls|, i requires 0 <= i < |calls| => RefreshKey(calls[i]))))
  }

  function NonEmpty(s: seq<string>): seq<string> {
    if s == [] then [] else NonEmpty(s[..|s| - 1]) + if s[|s| - 1] != "" then [s[|s| - 1]] else []
  }

  lemma {:induction false} NonEmptyIsFilter(s: seq<string>)
    ensures forall x :: x in NonEmpty(s) <==> x in s && x != ""
  {
    if s != [] {
      NonEmptyIsFilter(s[..|s| - 1]);
      assert s == s[..|s| - 1] + [s[|s| - 1]];
    }
  }

  // ---- a refresh --------------------------------------------------------------------------------------

  // What one lookup gives: an answer per call, no answer, or a refused credential.
  datatype Lookup = Answered(answers: map<string, bool>) | Unreachable | CredentialRefused

  // Lookups of a refresh, in turn: the answers merged, or the first failure.
  function Merged(lookups: seq<Lookup>): Lookup {
    if lookups == [] then Answered(map[])
    else
      var before := Merged(lookups[..|lookups| - 1]);
      if !before.Answered? then before
      else match lookups[|lookups| - 1]
        case Answered(m) => Answered(before.answers + m)
        case failure => failure
  }

  // The requests of a refresh: its calls in order, 16 at a time.
  function Chunks(list: seq<string>): seq<seq<string>>
    decreases |list|
  {
    if list == [] then []
    else if |list| <= LOOKUP_CALLS then [list]
    else [list[..LOOKUP_CALLS]] + Chunks(list[LOOKUP_CALLS..])
  }

  datatype Entry = Entry(ok: bool, at: real)

  // A refresh that completed: what it asked, what came of it, and when.
  datatype Completion = Completion(list: seq<string>, outcome: Lookup, at: real)

  function Answer(outcome: Lookup, call: string): bool {
    outcome.Answered? && call in outcome.answers && outcome.answers[call]
  }

  // The answers after a completion: an answer for every call it asked about, or none at all.
  function Applied(answers: map<string, Entry>, c: Completion): map<string, Entry> {
    if c.outcome.Unreachable? then answers
    else answers + map call | call in c.list :: Entry(Answer(c.outcome, call), c.at)
  }

  function AllApplied(log: seq<Completion>): map<string, Entry> {
    if log == [] then map[] else Applied(AllApplied(log[..|log| - 1]), log[|log| - 1])
  }

  predicate Confirmed(answers: map<string, Entry>, call: string, now: real, grace: real) {
    call in answers && answers[call].ok && now - answers[call].at <= grace
  }

  // refusal(calls) is null.
  predicate Allowed(answers: map<string, Entry>, calls: seq<string>, now: real, grace: real) {
    calls != [] && forall k :: 0 <= k < |calls| ==> Confirmed(answers, Upper(calls[k]), now, grace)
  }

  // ---- freshness over all runs ------------------------------------------------------------------------

  // The last completion with an answer covering a call.
  function LastCovering(log: seq<Completion>, call: string): Option<Completion> {
    if log == [] then None
    else
      var last := log[|log| - 1];
      if call in last.list && !last.outcome.Unreachable? then Some(last) else LastCovering(log[..|log| - 1], call)
  }

  lemma {:induction false} AnswersAreLastCovering(log: seq<Completion>, call: string)
    ensures call in AllApplied(log) <==> LastCovering(log, call).Some?
    ensures var c := LastCovering(log, call); c.Some? ==>
        AllApplied(log)[call] == Entry(Answer(c.value.outcome, call), c.value.at)
  {
    if log != [] { AnswersAreLastCovering(log[..|log| - 1], call); }
  }

  // After any overlap of refreshes: a transmission under `calls` is allowed exactly when there are calls and,
  // for each, the last refresh to complete with an answer covering it said ok at most `grace` ago.
  lemma AllowedIffFreshlyConfirmed(log: seq<Completion>, calls: seq<string>, now: real, grace: real)
    ensures Allowed(AllApplied(log), calls, now, grace) <==>
      calls != [] && forall k :: 0 <= k < |calls| ==>
        var c := LastCovering(log, Upper(calls[k]));
        c.Some? && Answer(c.value.outcome, Upper(calls[k])) && now - c.value.at <= grace
  {
    forall k | 0 <= k < |calls|
      ensures Confirmed(AllApplied(log), Upper(calls[k]), now, grace) <==>
        var c := LastCovering(log, Upper(calls[k]));
        c.Some? && Answer(c.value.outcome, Upper(calls[k])) && now - c.value.at <= grace
    {
      AnswersAreLastCovering(log, Upper(calls[k]));
    }
  }

  lemma {:induction false} OutagesChangeNothing(log: seq<Completion>, outages: seq<Completion>)
    requires forall k :: 0 <= k < |outages| ==> outages[k].outcome.Unreachable?
    ensures AllApplied(log + outages) == AllApplied(log)
  {
    if outages == [] {
      assert log + outages == log;
    } else {
      OutagesChangeNothing(log, outages[..|outages| - 1]);
      assert (log + outages)[..|log + outages| - 1] == log + outages[..|outages| - 1];
    }
  }

  // An outage never extends a confirmation: what is allowed after any number of failed refreshes was
  // already allowed before them.
  lemma OutagesExtendNothing(
    log: seq<Completion>, outages: seq<Completion>, calls: seq<string>, now: real, later: real, grace: real)
    requires now <= later && forall k :: 0 <= k < |outages| ==> outages[k].outcome.Unreachable?
    ensures Allowed(AllApplied(log + outages), calls, later, grace) ==> Allowed(AllApplied(log), calls, now, grace)
  {
    OutagesChangeNothing(log, outages);
  }

  // The requests of a refresh cover its calls, 16 at a time.
  function Requests(n: nat): nat
    decreases n
  {
    if n == 0 then 0 else if n <= LOOKUP_CALLS then 1 else 1 + Requests(n - LOOKUP_CALLS)
  }

  lemma {:induction false} RequestsBound(n: nat)
    ensures (Requests(n) * 16 >= n) && (n > 0 ==> (Requests(n) - 1) * 16 < n)
    decreases n
  {
    if n > LOOKUP_CALLS { RequestsBound(n - LOOKUP_CALLS); }
  }

  // Laid together they are the calls, none is empty and none over 16; there are as many as `Requests` says.
  lemma {:induction false} RequestsCover(list: seq<string>)
    ensures Concat(Chunks(list)) == list && |Chunks(list)| == Requests(|list|)
    ensures forall k :: 0 <= k < |Chunks(list)| ==> 0 < |Chunks(list)[k]| <= 16
    decreases |list|
  {
    if |list| > LOOKUP_CALLS {
      var first, rest := list[..LOOKUP_CALLS], list[LOOKUP_CALLS..];
      RequestsCover(rest);
      assert ([first] + Chunks(rest))[1..] == Chunks(rest);
      assert first + rest == list;
    } else if list != [] {
      assert [list][1..] == [] && list + [] == list;
    }
  }

  // The lookups of a refresh come to an answer exactly when every one did, else to the first failure.
  lemma {:induction false} MergedIs(lookups: seq<Lookup>)
    ensures Merged(lookups).Answered? <==> forall i :: 0 <= i < |lookups| ==> lookups[i].Answered?
    ensures forall k :: 0 <= k < |lookups| && !lookups[k].Answered? && (forall j :: 0 <= j < k ==> lookups[j].Answered?)
              ==> Merged(lookups) == lookups[k]
  {
    if lookups != [] {
      var init, n := lookups[..|lookups| - 1], |lookups| - 1;
      MergedIs(init);
      assert forall i :: 0 <= i < n ==> init[i] == lookups[i];
    }
  }

  // What the last lookup that names a call says of it; no when none does.
  function LastNaming(lookups: seq<Lookup>, call: string): bool {
    if lookups == [] then false
    else
      var last := lookups[|lookups| - 1];
      if last.Answered? && call in last.answers then last.answers[call] else LastNaming(lookups[..|lookups| - 1], call)
  }

  lemma {:induction false} MergedAnswer(lookups: seq<Lookup>, call: string)
    requires Merged(lookups).Answered?
    ensures Answer(Merged(lookups), call) == LastNaming(lookups, call)
  {
    if lookups != [] { MergedAnswer(lookups[..|lookups| - 1], call); }
  }

  // A refresh of several lookups is all or nothing: when each answered, every call it asked about has an answer
  // of this moment, the last that names it; at the first that did not, whatever the others said, an outage
  // changes nothing and a refused credential closes every call it asked about. Other calls keep theirs.
  lemma RefreshIsAllOrNothing(answers: map<string, Entry>, list: seq<string>, lookups: seq<Lookup>, now: real, k: nat)
    requires k <= |lookups| && (forall j :: 0 <= j < k ==> lookups[j].Answered?)
        && (k < |lookups| ==> !lookups[k].Answered?)
    ensures var after := Applied(answers, Completion(list, Merged(lookups), now));
      && (forall call :: call !in list ==>
            (call in after <==> call in answers) && (call in answers ==> after[call] == answers[call]))
      && (if k == |lookups|
          then forall call :: call in list ==> call in after && after[call] == Entry(LastNaming(lookups, call), now)
          else if lookups[k].Unreachable? then after == answers
          else forall call :: call in list ==> call in after && after[call] == Entry(false, now))
  {
    MergedIs(lookups);
    if k == |lookups| {
      forall call | call in list ensures Answer(Merged(lookups), call) == LastNaming(lookups, call) {
        MergedAnswer(lookups, call);
      }
    }
  }

  // ---- frames -------------------------------------------------------------------------------------------

  function Keys(calls: seq<string>): seq<string> {
    seq(|calls|, i requires 0 <= i < |calls| => GateKey(calls[i]))
  }

  // The elements that are among `mine`.
  function Among(s: seq<string>, mine: seq<string>): seq<string> {
    if s == [] then [] else Among(s[..|s| - 1], mine) + if s[|s| - 1] in mine then [s[|s| - 1]] else []
  }

  // The box's calls a frame goes out under.
  function FrameCalls(own: seq<string>, addrs: seq<string>, fallback: Option<string>): seq<string> {
    var hit := Distinct(Among(Keys(addrs), Keys(own)));
    if hit != [] then hit else if fallback.Some? && fallback.value != "" then [GateKey(fallback.value)] else []
  }

  predicate FrameAllowed(answers: map<string, Entry>, own: seq<string>, addrs: seq<string>, fallback: Option<string>,
      now: real, grace: real) {
    Allowed(answers, FrameCalls(own, addrs, fallback), now, grace)
  }

  lemma {:induction false} AmongIsFilter(s: seq<string>, mine: seq<string>)
    ensures forall x :: x in Among(s, mine) <==> x in s && x in mine
  {
    if s != [] {
      AmongIsFilter(s[..|s| - 1], mine);
      assert s == s[..|s| - 1] + [s[|s| - 1]];
    }
  }

  // A frame goes out under exactly the box's calls among its addresses; under the fallback only when it
  // names none; under nothing when there is no fallback.
  lemma FrameCallsAre(own: seq<string>, addrs: seq<string>, fallback: Option<string>, x: string)
    ensures var named := exists i, j :: 0 <= i < |addrs| && 0 <= j < |own| && GateKey(addrs[i]) == GateKey(own[j]);
      x in FrameCalls(own, addrs, fallback) <==>
        if named then Named(own, addrs, x)
        else fallback.Some? && fallback.value != "" && x == GateKey(fallback.value)
  {
    var all := Among(Keys(addrs), Keys(own));
    DistinctIsSet(all);
    EmptyIffNoMember(Distinct(all));
    forall y ensures y in all <==> Named(own, addrs, y) { NamedIff(own, addrs, y); }
    if i, j :| 0 <= i < |addrs| && 0 <= j < |own| && GateKey(addrs[i]) == GateKey(own[j]) {
      assert Named(own, addrs, GateKey(own[j]));
    }
  }

  predicate Named(own: seq<string>, addrs: seq<string>, y: string) {
    exists i, j :: 0 <= i < |addrs| && 0 <= j < |own| && GateKey(addrs[i]) == GateKey(own[j]) == y
  }

  lemma NamedIff(own: seq<string>, addrs: seq<string>, y: string)
    ensures y in Among(Keys(addrs), Keys(own)) <==> Named(own, addrs, y)
  {
    AmongIsFilter(Keys(addrs), Keys(own));
    if y in Keys(addrs) && y in Keys(own) {
      var i :| 0 <= i < |Keys(addrs)| && Keys(addrs)[i] == y;
      var j :| 0 <= j < |Keys(own)| && Keys(own)[j] == y;
      assert GateKey(addrs[i]) == GateKey(own[j]) == y;
    }
    if i, j :| 0 <= i < |addrs| && 0 <= j < |own| && GateKey(addrs[i]) == GateKey(own[j]) == y {
      assert Keys(addrs)[i] == y && Keys(own)[j] == y;
    }
  }

  // What is known of one call decides nothing for a frame that does not go out under it.
  lemma RefusedCallBlocksOnlyItsFrames(
    a: map<string, Entry>, b: map<string, Entry>, x: string,
    own: seq<string>, addrs: seq<string>, fallback: Option<string>, now: real, grace: real)
    requires forall c :: c != x ==> ((c in a <==> c in b) && (c in a ==> a[c] == b[c]))
    requires x !in FrameCalls(own, addrs, fallback)
    ensures FrameAllowed(a, own, addrs, fallback, now, grace) == FrameAllowed(b, own, addrs, fallback, now, grace)
  {
    var calls := FrameCalls(own, addrs, fallback);
    forall k | 0 <= k < |calls|
      ensures Upper(calls[k]) != x && Confirmed(a, Upper(calls[k]), now, grace) ==
          Confirmed(b, Upper(calls[k]), now, grace)
    {
      FrameCallsAreKeys(own, addrs, fallback, k);
      assert calls[k] in calls;
    }
  }

  lemma UpperOfUpper(s: string)
    ensures Upper(Upper(s)) == Upper(s)
  {
  }

  lemma GateKeyIsUpper(c: string)
    ensures Upper(GateKey(c)) == GateKey(c)
  {
    UpperOfUpper(Trim(c));
  }

  lemma FrameCallsAreKeys(own: seq<string>, addrs: seq<string>, fallback: Option<string>, k: nat)
    requires k < |FrameCalls(own, addrs, fallback)|
    ensures var x := FrameCalls(own, addrs, fallback)[k]; Upper(x) == x
  {
    var x := FrameCalls(own, addrs, fallback)[k];
    var hit := Distinct(Among(Keys(addrs), Keys(own)));
    if hit != [] {
      AmongIsFilter(Keys(addrs), Keys(own));
      DistinctIsSet(Among(Keys(addrs), Keys(own)));
      assert x in hit && x in Keys(addrs);
      var i :| 0 <= i < |Keys(addrs)| && Keys(addrs)[i] == x;
      GateKeyIsUpper(addrs[i]);
    } else {
      GateKeyIsUpper(fallback.value);
    }
  }

  // ---- the two keys -------------------------------------------------------------------------------------

  // A frame sent under a configured call finds the answer a refresh stored for it exactly when the call, as
  // configured, ends neither in the repeated mark nor in a zero SSID.
  lemma KeysAgreeIff(c: string)
    ensures GateKey(c) == RefreshKey(c) <==>
      !(RefreshKey(c) != "" && RefreshKey(c)[|RefreshKey(c)| - 1] == '*') && !EndsInZeroSsid(RefreshKey(c))
  {
    var k := RefreshKey(c);
    if k != "" && k[|k| - 1] == '*' { assert |GateKey(c)| < |k|; }
  }

  lemma AskedIs(c: string)
    requires RefreshKey(c) != ""
    ensures Asked([c]) == [RefreshKey(c)]
  {
    var ks := seq(|[c]|, i requires 0 <= i < |[c]| => RefreshKey([c][i]));
    assert ks == [RefreshKey(c)];
    assert ks[..0] == [] && NonEmpty([]) == [] && NonEmpty(ks) == [] + [RefreshKey(c)] == ks;
    assert Distinct(ks[..0]) == [] && Distinct(ks) == [] + [RefreshKey(c)];
  }

  // A frame from one address that names a configured call goes out under that key.
  lemma OneNamed(own: seq<string>, c: string, j: nat)
    requires j < |own| && GateKey(own[j]) == GateKey(c)
    ensures FrameCalls(own, [c], None) == [GateKey(c)]
  {
    var ks, mine, g := Keys([c]), Keys(own), GateKey(c);
    assert ks == [g] && mine[j] == g;
    assert ks[..0] == [] && Among(ks[..0], mine) == [];
    assert Among(ks, mine) == [] + [g] == [g];
    assert [g][..0] == [] && Distinct([g]) == [] + [g];
  }

  // The calls asked about are the keys of the configured ones.
  lemma AskedAre(calls: seq<string>, x: string)
    ensures x in Asked(calls) <==> x != "" && exists j :: 0 <= j < |calls| && RefreshKey(calls[j]) == x
  {
    var ks := seq(|calls|, i requires 0 <= i < |calls| => RefreshKey(calls[i]));
    NonEmptyIsFilter(ks);
    DistinctIsSet(NonEmpty(ks));
    if j :| 0 <= j < |calls| && RefreshKey(calls[j]) == x { assert ks[j] == x; }
  }

  // One refresh about all configured calls, each answered yes.
  function ConfirmedAll(own: seq<string>, now: real): seq<Completion> {
    [Completion(Asked(own), Answered(map c | c in Asked(own) :: true), now)]
  }

  lemma ConfirmedAllIs(own: seq<string>, now: real, key: string)
    ensures var answers := AllApplied(ConfirmedAll(own, now));
      (key in answers <==> key in Asked(own)) && (key in answers ==> answers[key] == Entry(true, now))
  {
    var log := ConfirmedAll(own, now);
    assert log[..0] == [] && AllApplied(log[..0]) == map[];
    assert AllApplied(log) == Applied(map[], log[0]);
  }

  // For any station, frame and fallback, just after the gateway confirmed every configured call: the frame may
  // go out exactly when it goes out under some call and each of those is the key of a configured one, that is,
  // is among the configured calls without a repeated mark and a zero SSID.
  lemma JustConfirmedIsAllowedIff(
    own: seq<string>, addrs: seq<string>, fallback: Option<string>, now: real, grace: real)
    requires grace >= 0.0
    ensures var calls := FrameCalls(own, addrs, fallback);
      FrameAllowed(AllApplied(ConfirmedAll(own, now)), own, addrs, fallback, now, grace) <==>
        calls != [] && forall k :: 0 <= k < |calls| ==> calls[k] in Asked(own)
  {
    var calls := FrameCalls(own, addrs, fallback);
    forall k | 0 <= k < |calls|
      ensures Confirmed(AllApplied(ConfirmedAll(own, now)), Upper(calls[k]), now, grace) <==> calls[k] in Asked(own)
    {
      FrameCallsAreKeys(own, addrs, fallback, k);
      ConfirmedAllIs(own, now, calls[k]);
    }
  }

  // A station with one call: exactly when it is configured without a repeated mark and without a zero SSID.
  lemma SoleCallIsAllowedIff(c: string, now: real, grace: real)
    requires RefreshKey(c) != "" && grace >= 0.0
    ensures FrameAllowed(AllApplied(ConfirmedAll([c], now)), [c], [c], None, now, grace) <==>
      RefreshKey(c)[|RefreshKey(c)| - 1] != '*' && !EndsInZeroSsid(RefreshKey(c))
  {
    JustConfirmedIsAllowedIff([c], [c], None, now, grace);
    assert [c][0] == c;
    OneNamed([c], c, 0);
    AskedIs(c);
    KeysAgreeIff(c);
    OneAmongOne(FrameCalls([c], [c], None), Asked([c]), GateKey(c), RefreshKey(c));
  }

  lemma OneAmongOne(calls: seq<string>, asked: seq<string>, g: string, r: string)
    requires calls == [g] && asked == [r]
    ensures (calls != [] && forall k :: 0 <= k < |calls| ==> calls[k] in asked) <==> g == r
  {
    assert calls[0] == g && asked[0] == r;
  }

  lemma KeyOfItself(c: string)
    requires c != "" && !Blank(c[0]) && !Blank(c[|c| - 1]) && forall i :: 0 <= i < |c| ==> UpperChar(c[i]) == c[i]
    ensures RefreshKey(c) == c
  {
  }

  // So a station whose only call is configured with a zero SSID never transmits, confirmed or not.
  lemma ZeroSsidStaysRefused(c: string, now: real, grace: real)
    requires c == "A-0" && grace >= 0.0
    ensures !FrameAllowed(AllApplied(ConfirmedAll([c], now)), [c], [c], None, now, grace)
  {
    KeyOfItself(c);
    SoleCallIsAllowedIff(c, now, grace);
  }

  // Configured beside the same call without it, it does: the frame is asked for under the other's key.
  lemma ZeroSsidBesideItsCallIsAllowed(c: string, d: string, now: real, grace: real)
    requires c == "A-0" && d == "A" && grace >= 0.0
    ensures FrameAllowed(AllApplied(ConfirmedAll([c, d], now)), [c, d], [c], None, now, grace)
  {
    var own := [c, d];
    ZeroSsidKeys(c, d);
    assert own[0] == c && own[1] == d;
    OneNamed(own, c, 0);
    AskedAre(own, "A");
    JustConfirmedIsAllowedIff(own, [c], None, now, grace);
  }

  lemma ZeroSsidKeys(c: string, d: string)
    requires c == "A-0" && d == "A"
    ensures GateKey(c) == "A" && RefreshKey(d) == "A"
  {
    KeyOfItself(c);
    KeyOfItself(d);
  }

  // ---- the class ------------------------------------------------------------------------------------------

  class CallVerifier {
    const grace: real
    var answers: map<string, Entry>
    var failures: nat
    ghost var log: seq<Completion>

    ghost predicate Valid()
      reads this
    {
      answers == AllApplied(log)
    }

    constructor (grace: real)
      ensures Valid() && log == [] && failures == 0 && this.grace == grace
    {
      this.grace, answers, failures, log := grace, map[], 0, [];
    }

    // The lookups of a refresh in turn, up to the first failure; nothing is stored yet.
    method Collect(list: seq<string>, lookups: seq<Lookup>) returns (outcome: Lookup)
      requires |lookups| == Requests(|list|)
      ensures outcome == Merged(lookups)
    {
      var got: map<string, bool> := map[];
      for i := 0 to |lookups|
        invariant Merged(lookups[..i]) == Answered(got)
      {
        assert lookups[..i + 1][..i] == lookups[..i];
        match lookups[i]
        case Answered(m) => got := got + m;
        case failure =>
          MergedFails(lookups, i + 1);
          return failure;
      }
      assert lookups[..|lookups|] == lookups;
      return Answered(got);
    }

    // A refresh completes: its answers are stored, all of them, or a refused credential closes its calls.
    method Complete(list: seq<string>, outcome: Lookup, now: real) returns (ok: bool)
      requires Valid()
      modifies this
      ensures Valid() && log == old(log) + [Completion(list, outcome, now)]
      ensures ok == (list == [] || outcome.Answered?)
      ensures failures == if list == [] then old(failures) else if ok then 0 else old(failures) + 1
    {
      log := log + [Completion(list, outcome, now)];
      assert log[..|log| - 1] == old(log);
      if |list| == 0 {
        assert Applied(answers, log[|log| - 1]) == answers;
        return true;
      }
      if outcome.Unreachable? {
        failures := failures + 1;
        return false;
      }
      answers := answers + map call | call in list :: Entry(Answer(outcome, call), now);
      ok := outcome.Answered?;
      failures := if ok then 0 else failures + 1;
    }

    // Whether refusal(calls) is null.
    method Allows(calls: seq<string>, now: real) returns (ok: bool)
      requires Valid()
      ensures ok == Allowed(AllApplied(log), calls, now, grace)
    {
      if |calls| == 0 { return false; }
      for k := 0 to |calls|
        invariant forall j :: 0 <= j < k ==> Confirmed(answers, Upper(calls[j]), now, grace)
      {
        var c := Upper(calls[k]);
        if c !in answers || (answers[c].ok && now - answers[c].at > grace) { return false; }
        if !answers[c].ok { return false; }
      }
      return true;
    }
  }

  // A failure among the lookups is the outcome, whatever follows.
  lemma {:induction false} MergedFails(lookups: seq<Lookup>, n: nat)
    requires n <= |lookups| && !Merged(lookups[..n]).Answered?
    ensures Merged(lookups) == Merged(lookups[..n])
    decreases |lookups| - n
  {
    if n < |lookups| {
      assert lookups[..n + 1][..n] == lookups[..n];
      MergedFails(lookups, n + 1);
    } else {
      assert lookups[..n] == lookups;
    }
  }
}
