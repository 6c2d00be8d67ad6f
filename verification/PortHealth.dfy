// Per-port health counters (apps/ingest/src/porthealth.ts): totals carried to the gateway by reports that
// count only once committed, and a rate over the last minute kept in a ring of 60 seconds.

module PortHealth {
  import opened Arithmetic

  const RATE_WINDOW_S: nat := 60
  const PORT_HEALTH_MAX: nat := 32

  // ---- the ring -----------------------------------------------------------------------------------

  // Frames per second of the window, indexed by the second modulo the window, and the second each counts.
  datatype Ring = Ring(counts: seq<nat>, secs: seq<int>)

  predicate Sized(r: Ring) { |r.counts| == RATE_WINDOW_S && |r.secs| == RATE_WINDOW_S }

  function Fresh(): (r: Ring)
    ensures Sized(r)
  {
    Ring(seq(RATE_WINDOW_S, i => 0), seq(RATE_WINDOW_S, i => -1))
  }

  function Slot(sec: nat): nat { Remainder(sec, RATE_WINDOW_S) }

  function Ticked(r: Ring, sec: nat): (t: Ring)
    requires Sized(r)
    ensures Sized(t)
  {
    var i := Slot(sec);
    var n := if r.secs[i] != sec then 0 else r.counts[i];
    Ring(r.counts[i := n + 1], r.secs[i := sec])
  }

  // The ring after every frame ever heard, one second a frame.
  function RingOf(log: seq<nat>): (r: Ring)
    ensures Sized(r)
  {
    if log == [] then Fresh() else Ticked(RingOf(log[..|log| - 1]), log[|log| - 1])
  }

  // What the first n slots add to the rate at a given second.
  function RateSum(r: Ring, sec: int, n: nat): nat
    requires Sized(r) && n <= RATE_WINDOW_S
  {
    if n == 0 then 0
    else RateSum(r, sec, n - 1) + if r.secs[n - 1] > sec - RATE_WINDOW_S then r.counts[n - 1] else 0
  }

  // ---- the full log -------------------------------------------------------------------------------

  // Frames heard after `since`, and those of them in one slot.
  function HeardAfter(log: seq<nat>, since: int): nat {
    if log == [] then 0 else HeardAfter(log[..|log| - 1], since) + if log[|log| - 1] > since then 1 else 0
  }

  function InSlotAfter(log: seq<nat>, since: int, slot: nat): nat {
    if log == [] then 0
    else
      var s := log[|log| - 1];
      InSlotAfter(log[..|log| - 1], since, slot) + if s > since && Slot(s) == slot then 1 else 0
  }

  function SlotSum(log: seq<nat>, since: int, n: nat): nat {
    if n == 0 then 0 else SlotSum(log, since, n - 1) + InSlotAfter(log, since, n - 1)
  }

  lemma {:induction false} SlotSumNext(log: seq<nat>, since: int, n: nat)
    requires log != []
    ensures var s := log[|log| - 1];
      SlotSum(log, since, n) == SlotSum(log[..|log| - 1], since, n) + if s > since && Slot(s) < n then 1 else 0
    decreases n
  {
    if n > 0 { SlotSumNext(log, since, n - 1); }
  }

  lemma {:induction false} SlotSumOfNone(since: int, n: nat)
    ensures SlotSum([], since, n) == 0
  {
    if n > 0 { SlotSumOfNone(since, n - 1); }
  }

  // Every frame is in one slot.
  lemma {:induction false} SlotsCoverTheLog(log: seq<nat>, since: int)
    ensures SlotSum(log, since, RATE_WINDOW_S) == HeardAfter(log, since)
  {
    if log == [] {
      SlotSumOfNone(since, RATE_WINDOW_S);
    } else {
      SlotsCoverTheLog(log[..|log| - 1], since);
      SlotSumNext(log, since, RATE_WINDOW_S);
    }
  }

  // Two seconds of one window that share a slot are the same.
  lemma SameSlotSameSecond(a: nat, b: nat)
    requires Slot(a) == Slot(b) && a <= b < a + RATE_WINDOW_S
    ensures a == b
  {
    var p, q := Quotient(a, RATE_WINDOW_S), Quotient(b, RATE_WINDOW_S);
    DivMod(a, RATE_WINDOW_S);
    DivMod(b, RATE_WINDOW_S);
    assert b - a == (q - p) * RATE_WINDOW_S;
    if q > p { Grows(q - p, RATE_WINDOW_S); } else if q < p { Grows(p - q, RATE_WINDOW_S); }
  }

  predicate Forward(log: seq<nat>) { forall i, j :: 0 <= i < j < |log| ==> log[i] <= log[j] }

  // A slot holds the last second heard in it, and how many frames were heard then.
  lemma {:induction false} SlotHolds(log: seq<nat>, slot: nat)
    requires Forward(log) && slot < RATE_WINDOW_S
    ensures var r := RingOf(log);
      && (r.secs[slot] == -1 ==> r.counts[slot] == 0)
      && (r.secs[slot] >= 0 ==> Slot(r.secs[slot]) == slot && log != [] && r.secs[slot] <= log[|log| - 1])
      && (forall i :: 0 <= i < |log| && Slot(log[i]) == slot ==> log[i] <= r.secs[slot])
      && r.secs[slot] >= -1
  {
    if log != [] {
      var init, s := log[..|log| - 1], log[|log| - 1];
      SlotHolds(init, slot);
      if init != [] { assert init[|init| - 1] <= s; }
      forall i | 0 <= i < |log| && Slot(log[i]) == slot ensures log[i] <= RingOf(log).secs[slot] {
        if i < |init| { assert init[i] == log[i]; }
      }
    }
  }

  // After the window opens, what a slot counts is exactly what was heard in it.
  lemma {:induction false} SlotCounts(log: seq<nat>, now: nat, slot: nat)
    requires Forward(log) && slot < RATE_WINDOW_S && (log != [] ==> log[|log| - 1] <= now)
    ensures var r, since := RingOf(log), now - RATE_WINDOW_S;
      (if r.secs[slot] > since then r.counts[slot] else 0) == InSlotAfter(log, since, slot)
  {
    if log != [] {
      var init, s := log[..|log| - 1], log[|log| - 1];
      if init != [] { assert init[|init| - 1] <= s; }
      SlotCounts(init, now, slot);
      SlotHolds(init, slot);
      var before := RingOf(init).secs[slot];
      if Slot(s) == slot && s > now - RATE_WINDOW_S && before > now - RATE_WINDOW_S && before >= 0 {
        SameSlotSameSecond(before, s);
      }
      if Slot(s) == slot && s <= now - RATE_WINDOW_S { assert before <= s; }
    } else {
      assert RingOf(log).secs[slot] == -1 && RingOf(log).counts[slot] == 0;
    }
  }

  lemma {:induction false} RateSums(log: seq<nat>, now: nat, n: nat)
    requires Forward(log) && n <= RATE_WINDOW_S && (log != [] ==> log[|log| - 1] <= now)
    ensures RateSum(RingOf(log), now, n) == SlotSum(log, now - RATE_WINDOW_S, n)
    decreases n
  {
    if n > 0 {
      RateSums(log, now, n - 1);
      SlotCounts(log, now, n - 1);
    }
  }

  // While the clock does not go back, the ring's rate is, before rounding, the number of frames heard in the
  // last 60 seconds of the full log.
  lemma RateIsExact(log: seq<nat>, now: nat)
    requires Forward(log) && (log != [] ==> log[|log| - 1] <= now)
    ensures RateSum(RingOf(log), now, 60) == HeardAfter(log, now - 60)
  {
    RateSums(log, now, RATE_WINDOW_S);
    SlotsCoverTheLog(log, now - RATE_WINDOW_S);
  }

  // ---- totals and reports ------------------------------------------------------------------------------

  datatype Tally = Tally(heard: int, parsed: int, invalid: int) {
    function Plus(t: Tally): Tally { Tally(heard + t.heard, parsed + t.parsed, invalid + t.invalid) }
    function Minus(t: Tally): Tally { Tally(heard - t.heard, parsed - t.parsed, invalid - t.invalid) }
    // From these totals to those: counts of frames, of which the parsed and the invalid are disjoint parts.
    predicate GrowsTo(t: Tally) {
      parsed <= t.parsed && invalid <= t.invalid && t.parsed - parsed + t.invalid - invalid <= t.heard - heard
    }
  }

  function Zero(): Tally { Tally(0, 0, 0) }

  datatype Frame = Parsed | Unparsed | Invalid {
    function Counted(): Tally { Tally(1, if Parsed? then 1 else 0, if Invalid? then 1 else 0) }
  }

  // A report: the totals when it was made, and those sent by then.
  datatype Report = Snapshot(snap: Tally, sent: Tally) {
    function Delta(): Tally { snap.Minus(sent) }
  }

  // One port, with what the committed reports carried.
  datatype Port = Port(total: Tally, sent: Tally, reports: seq<Report>, taken: Tally)

  function Quiet(): Port { Port(Zero(), Zero(), [], Zero()) }

  datatype Event = Heard(frame: Frame) | MakeReport | Commit(k: nat)

  function Step(p: Port, e: Event): Port {
    match e
    case Heard(f) => p.(total := p.total.Plus(f.Counted()))
    case MakeReport => p.(reports := p.reports + [Snapshot(p.total, p.sent)])
    case Commit(k) =>
      if k >= |p.reports| then p
      else p.(sent := p.reports[k].snap, taken := p.taken.Plus(p.reports[k].Delta()))
  }

  function Steps(es: seq<Event>): Port {
    if es == [] then Quiet() else Step(Steps(es[..|es| - 1]), es[|es| - 1])
  }

  // Reports do not overlap: a commit is of the latest report, and that report not yet committed.
  predicate Sequential(es: seq<Event>) {
    es == [] ||
      var init, last := es[..|es| - 1], es[|es| - 1];
      Sequential(init) && (last.Commit? ==> last.k == |Steps(init).reports| - 1 && Open(init))
  }

  // The latest report is still uncommitted.
  predicate Open(es: seq<Event>) {
    es != [] &&
      var init, last := es[..|es| - 1], es[|es| - 1];
      last.MakeReport? || (last.Heard? && Open(init))
  }

  // The committed reports carried exactly what counts as sent, every report claims a part of what was heard,
  // and while the latest report is open nothing was sent since.
  predicate Balanced(p: Port, open: bool) {
    && p.taken == p.sent && Zero().GrowsTo(p.taken) && p.sent.GrowsTo(p.total)
    && (open ==>
          p.reports != [] &&
          var latest := p.reports[|p.reports| - 1];
          latest.sent == p.sent && p.sent.GrowsTo(latest.snap) && latest.snap.GrowsTo(p.total))
  }

  lemma BalancedStep(p: Port, open: bool, e: Event, q: Port, after: bool)
    requires Balanced(p, open) && (e.Commit? ==> e.k == |p.reports| - 1 && open)
    requires q == Step(p, e) && after == (e.MakeReport? || (e.Heard? && open))
    ensures Balanced(q, after)
  {
  }

  lemma {:induction false} StaysBalanced(es: seq<Event>, p: Port, open: bool)
    requires Sequential(es) && p == Steps(es) && open == Open(es)
    ensures Balanced(p, open)
  {
    if es != [] {
      var init, last := es[..|es| - 1], es[|es| - 1];
      var before, was := Steps(init), Open(init);
      StaysBalanced(init, before, was);
      BalancedStep(before, was, last, p, open);
    }
  }

  // The frames heard, and those of them parsed and invalid.
  function HeardIn(es: seq<Event>): nat {
    if es == [] then 0 else HeardIn(es[..|es| - 1]) + if es[|es| - 1].Heard? then 1 else 0
  }

  function ParsedIn(es: seq<Event>): nat {
    if es == [] then 0 else ParsedIn(es[..|es| - 1]) + if es[|es| - 1] == Heard(Parsed) then 1 else 0
  }

  function InvalidIn(es: seq<Event>): nat {
    if es == [] then 0 else InvalidIn(es[..|es| - 1]) + if es[|es| - 1] == Heard(Invalid) then 1 else 0
  }

  lemma {:induction false} TotalsAreWhatWasHeard(es: seq<Event>)
    ensures Steps(es).total == Tally(HeardIn(es), ParsedIn(es), InvalidIn(es))
  {
    if es != [] { TotalsAreWhatWasHeard(es[..|es| - 1]); }
  }

  // Whatever posts fail, while reports do not overlap: what the committed reports carried and what the next
  // would carry add up to everything heard, parsed and invalid.
  lemma CountsAreConserved(es: seq<Event>, p: Port)
    requires Sequential(es) && p == Steps(es)
    ensures Balanced(p, Open(es))
    ensures var next := Snapshot(p.total, p.sent).Delta();
      && p.taken.heard + next.heard == HeardIn(es)
      && p.taken.parsed + next.parsed == ParsedIn(es)
      && p.taken.invalid + next.invalid == InvalidIn(es)
  {
    TotalsAreWhatWasHeard(es);
    StaysBalanced(es, p, Open(es));
  }

  // Exactly then: a commit keeps the balance if and only if nothing was committed since its report was made
  // that changed what counts as sent.
  lemma CommitBalancesIff(p: Port, k: nat)
    requires p.taken == p.sent && k < |p.reports|
    ensures Step(p, Commit(k)).taken == Step(p, Commit(k)).sent <==> p.reports[k].sent == p.sent
  {
  }

  // Every commit of a run was of a report that still carried what counted as sent.
  predicate Current(es: seq<Event>) {
    es == [] ||
      var p, last := Steps(es[..|es| - 1]), es[|es| - 1];
      Current(es[..|es| - 1]) && (last.Commit? && last.k < |p.reports| ==> p.reports[last.k].sent == p.sent)
  }

  // Over whole runs: the counts balance at every moment if and only if each commit was of such a report.
  lemma {:induction false} BalancedThroughoutIff(es: seq<Event>)
    ensures Current(es) <==> forall n :: 0 <= n <= |es| ==> Steps(es[..n]).taken == Steps(es[..n]).sent
  {
    if es == [] {
      assert es[..0] == [];
    } else {
      var init, last := es[..|es| - 1], es[|es| - 1];
      var p := Steps(init);
      BalancedThroughoutIff(init);
      assert forall n :: 0 <= n <= |init| ==> es[..n] == init[..n];
      assert init[..|init|] == init && es[..|es|] == es;
      if Current(init) {
        assert Steps(init[..|init|]).taken == Steps(init[..|init|]).sent;
        if last.Commit? && last.k < |p.reports| { CommitBalancesIff(p, last.k); }
        assert (last.Commit? && last.k < |p.reports| ==> p.reports[last.k].sent == p.sent) <==>
            Steps(es).taken == Steps(es).sent;
      }
    }
  }

  // Two reports in flight at once, both committed, count a frame twice.
  lemma OverlappingReportsCountTwice()
    ensures var p := Step(Step(Step(Quiet(), Heard(Parsed)), MakeReport), MakeReport);
      var q := Step(Step(p, Commit(0)), Commit(1));
      q.taken == Tally(2, 2, 0) && q.total == Tally(1, 1, 0)
  {
    var one := Tally(1, 1, 0);
    assert Step(Step(Step(Quiet(), Heard(Parsed)), MakeReport), MakeReport)
        == Port(one, Zero(), [Snapshot(one, Zero()), Snapshot(one, Zero())], Zero());
  }

  // ---- the classes -------------------------------------------------------------------------------------

  class Counts {
    var total: Tally
    var sent: Tally
    const counts: array<nat>
    const secs: array<int>
    ghost var reports: seq<Report>
    ghost var taken: Tally

    ghost predicate Valid()
      reads this
    {
      counts.Length == RATE_WINDOW_S && secs.Length == RATE_WINDOW_S
    }

    ghost function Window(): (r: Ring)
      reads this, counts, secs
      requires Valid()
      ensures Sized(r)
    {
      Ring(counts[..], secs[..])
    }

    ghost function Now(): Port
      reads this
    {
      Port(total, sent, reports, taken)
    }

    constructor ()
      ensures Valid() && fresh(counts) && fresh(secs) && Now() == Quiet() && Window() == Fresh()
    {
      total, sent, reports, taken := Zero(), Zero(), [], Zero();
      counts := new nat[RATE_WINDOW_S](i => 0);
      secs := new int[RATE_WINDOW_S](i => -1);
    }

    method Tick(sec: nat)
      requires Valid()
      modifies this`total, counts, secs
      ensures Valid() && Window() == Ticked(old(Window()), sec)
      ensures total == old(total).(heard := old(total).heard + 1)
    {
      var i := Slot(sec);
      if secs[i] != sec {
        secs[i] := sec;
        counts[i] := 0;
      }
      counts[i] := counts[i] + 1;
      total := total.(heard := total.heard + 1);
    }

    method Hear(frame: Frame, sec: nat)
      requires Valid()
      modifies this`total, counts, secs
      ensures Valid() && Window() == Ticked(old(Window()), sec) && Now() == Step(old(Now()), Heard(frame))
    {
      Tick(sec);
      match frame
      case Parsed => total := total.(parsed := total.parsed + 1);
      case Invalid => total := total.(invalid := total.invalid + 1);
      case Unparsed =>
    }

    // The frames of the last minute; the rate is this over 60, rounded to hundredths.
    method Pps(sec: nat) returns (n: nat)
      requires Valid()
      ensures n == RateSum(Window(), sec, RATE_WINDOW_S)
    {
      n := 0;
      for i := 0 to RATE_WINDOW_S
        invariant n == RateSum(Window(), sec, i)
      {
        if secs[i] > sec - RATE_WINDOW_S { n := n + counts[i]; }
      }
    }

    // This port's part of a report, and its commit, once the gateway took it.
    method Report(sec: nat) returns (snap: Tally, delta: Tally, rate: nat)
      requires Valid()
      modifies this`reports
      ensures Valid() && Now() == Step(old(Now()), MakeReport)
      ensures snap == total && delta == Snapshot(snap, sent).Delta() && rate == RateSum(Window(), sec, RATE_WINDOW_S)
    {
      snap, delta := total, total.Minus(sent);
      rate := Pps(sec);
      reports := reports + [Snapshot(total, sent)];
    }

    method Commit(snap: Tally, ghost k: nat)
      requires Valid() && k < |reports| && snap == reports[k].snap
      modifies this`sent, this`taken
      ensures Valid() && Now() == Step(old(Now()), Event.Commit(k))
    {
      sent, taken := snap, taken.Plus(reports[k].Delta());
    }
  }

  class PortHealthCounter {
    var ports: map<string, Counts>

    constructor ()
      ensures ports == map[]
    {
      ports := map[];
    }

    // The counts of a port, new when it is first heard; none past the bound.
    method Of(port: string) returns (c: Counts?)
      requires |ports| <= PORT_HEALTH_MAX && forall p :: p in ports ==> ports[p].Valid()
      modifies this
      ensures |ports| <= PORT_HEALTH_MAX && forall p :: p in ports ==> ports[p].Valid()
      ensures c == null <==> port !in old(ports) && |old(ports)| == 32
      ensures ports == if c == null then old(ports) else old(ports)[port := c]
      ensures if port in old(ports) then c == old(ports)[port]
              else c != null ==>
                     && fresh(c) && fresh(c.counts) && fresh(c.secs)
                     && c.Valid() && c.Now() == Quiet() && c.Window() == Fresh()
    {
      if port in ports {
        c := ports[port];
        assert ports == ports[port := c];
        return;
      }
      if |ports| >= PORT_HEALTH_MAX { return null; }
      c := new Counts();
      ports := ports[port := c];
    }
  }
}
