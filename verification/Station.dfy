// The soundcard port asking the call verifier (apps/ingest/src/soundcard.ts over apps/ingest/src/callverify.ts):
// whether a frame may go out is asked anew each time, of the refreshes completed by then, at the port's clock.

module Station {
  import opened Common
  import opened SoundcardTx
  import CallGate

  // The station's calls, the digipeater's call, how long a confirmation counts, and the addresses of a frame.
  datatype Box = Box(own: seq<string>, fallback: Option<string>, grace: real, addresses: int -> seq<string>) {
    function Calls(addrs: int): seq<string> { CallGate.FrameCalls(own, addresses(addrs), fallback) }
  }

  // The port, the refreshes completed, and how many of them there were when each frame was keyed.
  datatype State = State(port: Port, log: seq<CallGate.Completion>, seen: seq<nat>)

  datatype Happening = Refreshed(refresh: CallGate.Completion) | At(wait: real, e: Event)

  // The addresses the gate is asked about in a step.
  function Asked(p: Port, e: Event): Option<int> {
    match e
    case Enqueue(addrs) => Some(addrs)
    case Resume => if p.phase.Granted? then Some(p.phase.item.addrs) else None
    case _ => None
  }

  // The port's gate as the verifier answers it.
  function Told(box: Box, p: Port, log: seq<CallGate.Completion>, e: Event): Gate {
    match Asked(p, e)
    case None => p.gate
    case Some(addrs) =>
      var ok := CallGate.Allowed(CallGate.AllApplied(log), box.Calls(addrs), p.clock, box.grace);
      p.gate.(confirmed := if ok then {addrs} else {})
  }

  function Ready(box: Box, s: State, wait: real, e: Event): Port {
    var later := Later(s.port, wait);
    later.(gate := Told(box, later, s.log, e))
  }

  predicate Can(box: Box, s: State, h: Happening) {
    h.Refreshed? || (h.wait >= 0.0 && Possible(Ready(box, s, h.wait, h.e), h.e))
  }

  function Next(box: Box, s: State, c: Config, h: Happening): State
    requires Can(box, s, h)
  {
    match h
    case Refreshed(refresh) => s.(log := s.log + [refresh])
    case At(wait, e) =>
      var q := Step(Ready(box, s, wait, e), c, e);
      State(q, s.log, if |q.keyed| > |s.port.keyed| then s.seen + [|s.log|] else s.seen)
  }

  predicate CanAll(box: Box, s: State, c: Config, hs: seq<Happening>)
    decreases |hs|
  {
    hs == [] || (Can(box, s, hs[0]) && CanAll(box, Next(box, s, c, hs[0]), c, hs[1..]))
  }

  function AllNext(box: Box, s: State, c: Config, hs: seq<Happening>): State
    requires CanAll(box, s, c, hs)
    decreases |hs|
  {
    if hs == [] then s else AllNext(box, Next(box, s, c, hs[0]), c, hs[1..])
  }

  // For each call, the last refresh with an answer covering it said yes, within the grace.
  predicate FreshlyConfirmed(log: seq<CallGate.Completion>, calls: seq<string>, now: real, grace: real) {
    calls != [] && forall j :: 0 <= j < |calls| ==>
      var c := CallGate.LastCovering(log, Upper(calls[j]));
      c.Some? && CallGate.Answer(c.value.outcome, Upper(calls[j])) && now - c.value.at <= grace
  }

  // The k-th frame keyed went out under calls so confirmed by the refreshes there were then.
  predicate KeyedFreshly(box: Box, s: State, k: nat)
    requires k < |s.port.keyed| && k < |s.seen| && s.seen[k] <= |s.log|
  {
    var x := s.port.keyed[k];
    FreshlyConfirmed(s.log[..s.seen[k]], box.Calls(x.item.addrs), x.air.at, box.grace)
  }

  ghost predicate Spoken(box: Box, s: State) {
    && |s.seen| == |s.port.keyed|
    && forall k :: 0 <= k < |s.seen| ==> s.seen[k] <= |s.log| && KeyedFreshly(box, s, k)
  }

  // ---- what a step keys ---------------------------------------------------------------------------------

  lemma StepKeys(p: Port, c: Config, e: Event, q: Port)
    requires Possible(p, e) && q == Step(p, c, e)
    ensures q.keyed == p.keyed ||
      (e.Resume? && p.phase.item.addrs in p.gate.confirmed && |q.keyed| == |p.keyed| + 1
       && q.keyed[..|p.keyed|] == p.keyed
       && q.keyed[|p.keyed|].item == p.phase.item && q.keyed[|p.keyed|].air.at == p.clock)
  {
  }

  lemma AllowedIsFresh(log: seq<CallGate.Completion>, calls: seq<string>, now: real, grace: real)
    ensures CallGate.Allowed(CallGate.AllApplied(log), calls, now, grace) <==> FreshlyConfirmed(log, calls, now, grace)
  {
    CallGate.AllowedIffFreshlyConfirmed(log, calls, now, grace);
  }

  // What was keyed before stays so, whatever refreshes and frames come after.
  lemma SpokenStays(box: Box, s: State, t: State)
    requires Spoken(box, s) && s.log <= t.log && |t.seen| == |t.port.keyed| && |s.seen| <= |t.seen|
    requires t.seen[..|s.seen|] == s.seen && t.port.keyed[..|s.seen|] == s.port.keyed
    ensures forall k :: 0 <= k < |s.seen| ==> t.seen[k] <= |t.log| && KeyedFreshly(box, t, k)
  {
    forall k | 0 <= k < |s.seen| ensures t.seen[k] <= |t.log| && KeyedFreshly(box, t, k) {
      assert KeyedFreshly(box, s, k) && t.seen[k] == s.seen[k] && t.port.keyed[k] == s.port.keyed[k];
      assert t.log[..s.seen[k]] == s.log[..s.seen[k]];
    }
  }

  lemma KeyedIsFresh(box: Box, s: State, c: Config, wait: real, e: Event, t: State)
    requires Spoken(box, s) && Can(box, s, At(wait, e)) && t == Next(box, s, c, At(wait, e))
    ensures Spoken(box, t)
  {
    var p, n := Ready(box, s, wait, e), |s.seen|;
    StepKeys(p, c, e, t.port);
    if t.port.keyed == s.port.keyed {
      assert t.port.keyed[..n] == s.port.keyed && t.seen[..n] == s.seen;
      SpokenStays(box, s, t);
    } else {
      assert t.seen[..n] == s.seen && s.log[..|s.log|] == s.log;
      SpokenStays(box, s, t);
      AllowedIsFresh(s.log, box.Calls(p.phase.item.addrs), p.clock, box.grace);
      assert KeyedFreshly(box, t, n);
    }
  }

  // ---- every run ----------------------------------------------------------------------------------------

  lemma ReadyKeepsInv(box: Box, s: State, c: Config, wait: real, e: Event, p: Port)
    requires Inv(s.port, c) && wait >= 0.0 && p == Ready(box, s, wait, e)
    ensures Inv(p, c)
  {
    var later := Later(s.port, wait);
    LaterKeepsInv(s.port, c, later);
    ToldKeepsFault(box, later, s.log, e);
    OnlyGateChanges(later, c, p);
    StepKeepsInv(later, c, GateChanges(p.gate), p);
  }

  lemma ToldKeepsFault(box: Box, p: Port, log: seq<CallGate.Completion>, e: Event)
    ensures Told(box, p, log, e).fault == p.gate.fault
  {
  }

  lemma OnlyGateChanges(p: Port, c: Config, q: Port)
    requires q == p.(gate := q.gate) && q.gate.fault == p.gate.fault
    ensures q == Step(p, c, GateChanges(q.gate))
  {
  }

  lemma NextKeeps(box: Box, s: State, c: Config, h: Happening, t: State)
    requires Inv(s.port, c) && Spoken(box, s) && Can(box, s, h) && t == Next(box, s, c, h)
    ensures Inv(t.port, c) && Spoken(box, t)
  {
    match h
    case Refreshed(refresh) =>
      assert t.port.keyed[..|s.seen|] == s.port.keyed && t.seen[..|s.seen|] == s.seen;
      SpokenStays(box, s, t);
    case At(wait, e) =>
      var p := Ready(box, s, wait, e);
      ReadyKeepsInv(box, s, c, wait, e, p);
      StepKeepsInv(p, c, e, t.port);
      KeyedIsFresh(box, s, c, wait, e, t);
  }

  lemma {:induction false} EveryRunKeeps(box: Box, s: State, c: Config, hs: seq<Happening>)
    requires Inv(s.port, c) && Spoken(box, s) && CanAll(box, s, c, hs)
    ensures var t := AllNext(box, s, c, hs); Inv(t.port, c) && Spoken(box, t)
    decreases |hs|
  {
    if hs != [] {
      var t := Next(box, s, c, hs[0]);
      NextKeeps(box, s, c, hs[0], t);
      EveryRunKeeps(box, t, c, hs[1..]);
    }
  }

  function Opening(gate: Gate, now: real): State { State(Started(gate, now), [], []) }

  // Over every run of the port and of refreshes, however they overlap: a frame is keyed only if, for each call it
  // goes out under, the last refresh completed by then with an answer covering that call said yes, within the
  // grace; and the port keeps its limits.
  lemma KeyedUnderConfirmedCalls(box: Box, gate: Gate, now: real, c: Config, hs: seq<Happening>, s: State, k: nat)
    requires c.Budget() >= 0.0 && CanAll(box, Opening(gate, now), c, hs)
    requires s == AllNext(box, Opening(gate, now), c, hs) && k < |s.port.keyed|
    ensures |s.seen| == |s.port.keyed| && s.seen[k] <= |s.log|
    ensures var x := s.port.keyed[k]; var calls := box.Calls(x.item.addrs);
      calls != [] && forall j :: 0 <= j < |calls| ==>
        var last := CallGate.LastCovering(s.log[..s.seen[k]], Upper(calls[j]));
        last.Some? && CallGate.Answer(last.value.outcome, Upper(calls[j])) && x.air.at - last.value.at <= box.grace
    ensures forall from :: WindowTotal(Airs(s.port.keyed), from) <= c.Budget()
  {
    StartInv(gate, now, c);
    EveryRunKeeps(box, Opening(gate, now), c, hs);
    assert KeyedFreshly(box, s, k);
    forall from ensures WindowTotal(Airs(s.port.keyed), from) <= c.Budget() {
      InvMeans(s.port, c, from);
    }
  }
}
