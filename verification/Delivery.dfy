// The queue between the transports and the gateway (apps/ingest/src/deliver.ts).
//
// Each POST is an `await`: while it is in flight other callers may `add` packets, and a second
// `flush` only joins the first. The environment is a script of turns, one per POST: what arrives
// while that POST is in flight, and the reply. A script that runs out leaves the run suspended at
// its await, so quantifying over scripts covers every finite prefix of every interleaving.

module DeliveryQueue {

  const REFUSED: set<int> := {400, 413, 422}
  const SPLIT_BUDGET: nat := 16
  const INGEST_BATCH_MAX: nat := 1000

  // `fits` says whether the gateway's schema accepts the packet on its own.
  datatype Packet = Packet(content: int, fits: bool)

  // A packet as `add` received it. The arrival number stands for the object's identity: the code never
  // reads it, the statements about order and loss do.
  datatype Arrival = Arrival(no: nat, packet: Packet)

  datatype Reply = Response(ok: bool, status: int) | Throws {
    predicate Accepts() { Response? && ok }
    predicate Refuses() { Response? && !ok && status in REFUSED }
    // A throw or any other status: the gateway may take the batch later.
    predicate Later() { !Accepts() && !Refuses() }
  }

  datatype Turn = Turn(arrivals: seq<seq<Packet>>, reply: seq<Arrival> -> Reply)

  // The queue and its counter, with the history the properties speak of: everything given to `add`,
  // the accepted bodies, the packets dropped for each of the three reasons, the POSTs and their replies.
  datatype Ledger = Ledger(
    queue: seq<Arrival>, dropped: nat,
    arrived: seq<Arrival>, accepted: seq<Arrival>,
    misfits: seq<Arrival>, overflow: seq<Arrival>, refused: seq<Arrival>,
    posts: seq<seq<Arrival>>, replies: seq<Reply>)

  const EMPTY := Ledger([], 0, [], [], [], [], [], [], [])

  // ---- the operations ----------------------------------------------------------------------------

  function Numbered(from: nat, ps: seq<Packet>): (r: seq<Arrival>)
    ensures |r| == |ps| && forall i :: 0 <= i < |r| ==> r[i] == Arrival(from + i, ps[i])
  {
    seq(|ps|, i requires 0 <= i < |ps| => Arrival(from + i, ps[i]))
  }

  function Fitting(ps: seq<Arrival>, fits: bool): seq<Arrival> {
    if ps == [] then []
    else (if ps[0].packet.fits == fits then [ps[0]] else []) + Fitting(ps[1..], fits)
  }

  function Capped(l: Ledger, maxQueue: nat): Ledger {
    var over := |l.queue| - maxQueue;
    if over <= 0 then l
    else l.(queue := l.queue[over..], dropped := l.dropped + over, overflow := l.overflow + l.queue[..over])
  }

  // Packets that arrived: those that fit join the queue, the others are dropped.
  function Enqueued(l: Ledger, all: seq<Arrival>): Ledger {
    var bad := Fitting(all, false);
    l.(queue := l.queue + Fitting(all, true), arrived := l.arrived + all,
       dropped := l.dropped + |bad|, misfits := l.misfits + bad)
  }

  function Added(l: Ledger, maxQueue: nat, packets: seq<Packet>): Ledger {
    var all := Numbered(|l.arrived|, packets);
    if Fitting(all, true) == [] then Enqueued(l, all) else Capped(Enqueued(l, all), maxQueue)
  }

  function AllAdded(l: Ledger, maxQueue: nat, batches: seq<seq<Packet>>): Ledger
    decreases |batches|
  {
    if batches == [] then l else AllAdded(Added(l, maxQueue, batches[0]), maxQueue, batches[1..])
  }

  function Issued(l: Ledger, chunk: seq<Arrival>): Ledger {
    l.(posts := l.posts + [chunk])
  }

  // A POST issued, the arrivals during it, and its reply.
  function Answered(l: Ledger, maxQueue: nat, chunk: seq<Arrival>, turn: Turn): Ledger {
    var l1 := AllAdded(Issued(l, chunk), maxQueue, turn.arrivals);
    l1.(replies := l1.replies + [turn.reply(chunk)])
  }

  function Accept(l: Ledger, chunk: seq<Arrival>): Ledger {
    l.(accepted := l.accepted + chunk)
  }

  function Refuse(l: Ledger, chunk: seq<Arrival>): Ledger {
    l.(dropped := l.dropped + |chunk|, refused := l.refused + chunk)
  }

  // null, the packets to retry, or the packets still held by a send suspended at its POST.
  datatype Outcome = Done | Undelivered(packets: seq<Arrival>) | Suspended(packets: seq<Arrival>) {
    function Held(): seq<Arrival> { if Done? then [] else packets }
    function Before(rest: seq<Arrival>): Outcome { if Done? then Done else this.(packets := packets + rest) }
  }

  datatype Sent = Sent(l: Ledger, outcome: Outcome, splits: nat, turns: seq<Turn>)

  // Half of n, rounded up (recursive, so that proofs need no division).
  function HalfUp(n: nat): (h: nat)
    ensures 2 * h == n || 2 * h == n + 1
  {
    if n <= 1 then n else 1 + HalfUp(n - 2)
  }

  function Mid(chunk: seq<Arrival>): nat { HalfUp(|chunk|) }

  predicate Splits(turn: Turn, chunk: seq<Arrival>, splits: nat) {
    turn.reply(chunk).Refuses() && |chunk| > 1 && splits > 0
  }

  function SendSpec(l: Ledger, maxQueue: nat, chunk: seq<Arrival>, splits: nat, turns: seq<Turn>): (r: Sent)
    ensures |r.turns| <= |turns| && (turns != [] ==> |r.turns| < |turns|) && (turns == [] ==> !r.outcome.Done?)
    ensures r.splits <= splits
    decreases |chunk|
  {
    if turns == [] then Sent(Issued(l, chunk), Suspended(chunk), splits, [])
    else
      var reply, l1 := turns[0].reply(chunk), Answered(l, maxQueue, chunk, turns[0]);
      if reply.Accepts() then Sent(Accept(l1, chunk), Done, splits, turns[1..])
      else if reply.Later() then Sent(l1, Undelivered(chunk), splits, turns[1..])
      else if |chunk| <= 1 || splits == 0 then Sent(Refuse(l1, chunk), Done, splits, turns[1..])
      else
        var first := SendSpec(l1, maxQueue, chunk[..Mid(chunk)], splits - 1, turns[1..]);
        if !first.outcome.Done? then first.(outcome := first.outcome.Before(chunk[Mid(chunk)..]))
        else SendSpec(first.l, maxQueue, chunk[Mid(chunk)..], first.splits, first.turns)
  }

  function Requeued(l: Ledger, maxQueue: nat, ps: seq<Arrival>): Ledger {
    Capped(l.(queue := ps + l.queue), maxQueue)
  }

  function Min(a: nat, b: nat): nat { if a < b then a else b }

  // The queue once its first n packets are taken off.
  function Taken(l: Ledger, n: nat): Ledger {
    l.(queue := if n <= |l.queue| then l.queue[n..] else [])
  }

  // `flight` is empty when the run has ended, else what the suspended send still holds. `chunks`
  // counts the chunks the run took off the queue.
  datatype Ran = Ran(l: Ledger, flight: seq<Arrival>, splits: nat, turns: seq<Turn>, chunks: nat)

  function RunSpec(l: Ledger, maxQueue: nat, max: nat, splits: nat, turns: seq<Turn>): Ran
    requires max >= 1
    decreases |turns|
  {
    if l.queue == [] then Ran(l, [], splits, turns, 0)
    else
      var n := Min(max, |l.queue|);
      var sent := SendSpec(Taken(l, n), maxQueue, l.queue[..n], splits, turns);
      match sent.outcome
      case Suspended(ps) => Ran(sent.l, ps, sent.splits, sent.turns, 1)
      case Undelivered(ps) => Ran(Requeued(sent.l, maxQueue, ps), [], sent.splits, sent.turns, 1)
      case Done =>
        var more := RunSpec(sent.l, maxQueue, max, sent.splits, sent.turns);
        more.(chunks := more.chunks + 1)
  }

  // ---- whole runs ----------------------------------------------------------------------------------

  datatype Event = Add(packets: seq<Packet>) | Flush(turns: seq<Turn>)
  datatype System = System(l: Ledger, flight: seq<Arrival>)

  // A flush while another is in progress joins it: no second POST goes out.
  function Step(s: System, maxQueue: nat, max: nat, e: Event): System
    requires max >= 1
  {
    match e
    case Add(ps) => s.(l := Added(s.l, maxQueue, ps))
    case Flush(turns) =>
      if s.flight != [] then s
      else var r := RunSpec(s.l, maxQueue, max, SPLIT_BUDGET, turns); System(r.l, r.flight)
  }

  function Steps(s: System, maxQueue: nat, max: nat, es: seq<Event>): System
    requires max >= 1
    decreases |es|
  {
    if es == [] then s else Steps(Step(s, maxQueue, max, es[0]), maxQueue, max, es[1..])
  }

  // ---- what a reply means, spelled out -------------------------------------------------------------------

  ghost predicate Took(reply: Reply) { reply.Response? && reply.ok }

  ghost predicate Unacceptable(reply: Reply) {
    reply.Response? && !reply.ok && (reply.status == 400 || reply.status == 413 || reply.status == 422)
  }

  ghost predicate TryLater(reply: Reply) {
    reply.Throws? || (!reply.ok && reply.status != 400 && reply.status != 413 && reply.status != 422)
  }

  // ---- what a send or a run keeps ----------------------------------------------------------------------

  // `inv(l, flight)` survives everything that can happen while a flush is under way: the arrivals and
  // reply of a POST, a chunk settled off the front of the flight, a chunk taken from the queue or put back.
  ghost predicate Stable(inv: (Ledger, seq<Arrival>) -> bool, maxQueue: nat) {
    && SendStable(inv, maxQueue)
    && (forall l, n: nat {:trigger inv(Taken(l, n), l.queue[..n])} ::
          inv(l, []) && n <= |l.queue| ==> inv(Taken(l, n), l.queue[..n]))
    && (forall l, flight {:trigger inv(Requeued(l, maxQueue, flight), [])} ::
          inv(l, flight) ==> inv(Requeued(l, maxQueue, flight), []))
  }

  ghost predicate SendStable(inv: (Ledger, seq<Arrival>) -> bool, maxQueue: nat) {
    && (forall l, chunk, flight {:trigger inv(Issued(l, chunk), flight)} ::
        inv(l, flight) ==> inv(Issued(l, chunk), flight))
    && (forall l, chunk, turn, flight {:trigger inv(Answered(l, maxQueue, chunk, turn), flight)} ::
          inv(l, flight) ==> inv(Answered(l, maxQueue, chunk, turn), flight))
    && (forall l, chunk, rest {:trigger inv(Accept(l, chunk), rest)} {:trigger inv(Refuse(l, chunk), rest)} ::
          inv(l, chunk + rest) ==> inv(Accept(l, chunk), rest) && inv(Refuse(l, chunk), rest))
  }

  lemma SettleKeeps(
    inv: (Ledger, seq<Arrival>) -> bool, l: Ledger, chunk: seq<Arrival>, rest: seq<Arrival>, maxQueue: nat)
    requires SendStable(inv, maxQueue) && inv(l, chunk + rest)
    ensures inv(Accept(l, chunk), [] + rest) && inv(Refuse(l, chunk), [] + rest)
  {
    assert inv(Accept(l, chunk), rest) && inv(Refuse(l, chunk), rest);
    assert [] + rest == rest;
  }

  lemma {:induction false} SendKeeps(
    inv: (Ledger, seq<Arrival>) -> bool,
    l: Ledger, maxQueue: nat, chunk: seq<Arrival>, rest: seq<Arrival>, splits: nat, turns: seq<Turn>, r: Sent)
    requires SendStable(inv, maxQueue) && inv(l, chunk + rest)
    requires r == SendSpec(l, maxQueue, chunk, splits, turns)
    ensures inv(r.l, r.outcome.Held() + rest)
    decreases |chunk|
  {
    if turns == [] {
      assert inv(Issued(l, chunk), chunk + rest);
    } else {
      var l1, a, b := Answered(l, maxQueue, chunk, turns[0]), chunk[..Mid(chunk)], chunk[Mid(chunk)..];
      assert inv(l1, chunk + rest);
      if !Splits(turns[0], chunk, splits) {
        SettleKeeps(inv, l1, chunk, rest, maxQueue);
      } else {
        var first := SendSpec(l1, maxQueue, a, splits - 1, turns[1..]);
        Halves(chunk, first.outcome.Held(), rest);
        SendKeeps(inv, l1, maxQueue, a, b + rest, splits - 1, turns[1..], first);
        if first.outcome.Done? { SendKeeps(inv, first.l, maxQueue, b, rest, first.splits, first.turns, r); }
      }
    }
  }

  // The halves of a chunk ahead of the rest, and what is held of the first ahead of the second.
  lemma Halves(chunk: seq<Arrival>, held: seq<Arrival>, rest: seq<Arrival>)
    ensures chunk + rest == chunk[..Mid(chunk)] + (chunk[Mid(chunk)..] + rest)
    ensures held + (chunk[Mid(chunk)..] + rest) == (held + chunk[Mid(chunk)..]) + rest
    ensures [] + (chunk[Mid(chunk)..] + rest) == chunk[Mid(chunk)..] + rest
  {
  }

  lemma {:induction false} RunKeeps(
    inv: (Ledger, seq<Arrival>) -> bool, l: Ledger, maxQueue: nat, max: nat, splits: nat, turns: seq<Turn>)
    requires Stable(inv, maxQueue) && max >= 1 && inv(l, [])
    ensures var r := RunSpec(l, maxQueue, max, splits, turns); inv(r.l, r.flight)
    decreases |turns|
  {
    if l.queue != [] {
      var n := Min(max, |l.queue|);
      var chunk, l0 := l.queue[..n], Taken(l, n);
      assert inv(l0, chunk) && chunk + [] == chunk;
      var sent := SendSpec(l0, maxQueue, chunk, splits, turns);
      SendKeeps(inv, l0, maxQueue, chunk, [], splits, turns, sent);
      assert sent.outcome.Held() + [] == sent.outcome.Held();
      match sent.outcome
      case Suspended(ps) =>
      case Undelivered(ps) => assert inv(Requeued(sent.l, maxQueue, ps), []);
      case Done => RunKeeps(inv, sent.l, maxQueue, max, sent.splits, sent.turns);
    }
  }

  // ---- conservation ------------------------------------------------------------------------------------

  // Everything given to `add` is accepted, held by the flight, queued, or dropped and counted.
  ghost predicate Conserved(l: Ledger, flight: seq<Arrival>) {
    && multiset(l.arrived) == multiset(l.accepted) + multiset(flight) + multiset(l.queue)
                              + multiset(l.misfits) + multiset(l.overflow) + multiset(l.refused)
    && l.dropped == |l.misfits| + |l.overflow| + |l.refused|
  }

  lemma {:induction false} FittingSplits(ps: seq<Arrival>)
    ensures multiset(ps) == multiset(Fitting(ps, true)) + multiset(Fitting(ps, false))
  {
    if ps != [] {
      FittingSplits(ps[1..]);
      assert ps == [ps[0]] + ps[1..];
    }
  }

  lemma {:induction false} FittingCounts(ps: seq<Arrival>)
    ensures |Fitting(ps, true)| + |Fitting(ps, false)| == |ps|
  {
    if ps != [] { FittingCounts(ps[1..]); }
  }

  lemma CappedConserves(l: Ledger, maxQueue: nat, flight: seq<Arrival>)
    requires Conserved(l, flight)
    ensures Conserved(Capped(l, maxQueue), flight)
  {
    var over := |l.queue| - maxQueue;
    if over > 0 { assert l.queue == l.queue[..over] + l.queue[over..]; }
  }

  lemma AddedConserves(l: Ledger, maxQueue: nat, packets: seq<Packet>, flight: seq<Arrival>)
    requires Conserved(l, flight)
    ensures Conserved(Added(l, maxQueue, packets), flight)
  {
    var all := Numbered(|l.arrived|, packets);
    FittingSplits(all);
    CappedConserves(Enqueued(l, all), maxQueue, flight);
  }

  lemma {:induction false} AllAddedConserves(l: Ledger, maxQueue: nat, batches: seq<seq<Packet>>, flight: seq<Arrival>)
    requires Conserved(l, flight)
    ensures Conserved(AllAdded(l, maxQueue, batches), flight)
    decreases |batches|
  {
    if batches != [] {
      AddedConserves(l, maxQueue, batches[0], flight);
      AllAddedConserves(Added(l, maxQueue, batches[0]), maxQueue, batches[1..], flight);
    }
  }

  lemma ConservedStable(maxQueue: nat)
    ensures Stable(Conserved, maxQueue)
  {
    forall l, chunk, turn, flight | Conserved(l, flight) ensures Conserved(Answered(l, maxQueue, chunk, turn), flight) {
      AllAddedConserves(Issued(l, chunk), maxQueue, turn.arrivals, flight);
    }
    forall l, n: nat | Conserved(l, []) && n <= |l.queue| ensures Conserved(Taken(l, n), l.queue[..n]) {
      assert l.queue == l.queue[..n] + l.queue[n..];
    }
    forall l, flight | Conserved(l, flight) ensures Conserved(Requeued(l, maxQueue, flight), []) {
      CappedConserves(l.(queue := flight + l.queue), maxQueue, []);
    }
  }

  // ---- order ---------------------------------------------------------------------------------------------

  ghost predicate Increasing(ps: seq<Arrival>) {
    forall i, j :: 0 <= i < j < |ps| ==> ps[i].no < ps[j].no
  }

  ghost predicate Within(ps: seq<Arrival>, from: nat, to: nat) {
    forall i :: 0 <= i < |ps| ==> from <= ps[i].no < to
  }

  // The accepted bodies, the flight and the queue, one after the other, are in arrival order.
  ghost predicate InOrder(l: Ledger, flight: seq<Arrival>) {
    var line := l.accepted + flight + l.queue;
    Increasing(line) && Within(line, 0, |l.arrived|)
  }

  // The order, and the bound on the queue.
  ghost predicate Ordered(l: Ledger, maxQueue: nat, flight: seq<Arrival>) {
    InOrder(l, flight) && |l.queue| <= maxQueue
  }

  // Cutting a stretch out of an increasing sequence leaves it increasing.
  lemma CutKeepsOrder(a: seq<Arrival>, cut: seq<Arrival>, b: seq<Arrival>, to: nat)
    requires Increasing(a + cut + b) && Within(a + cut + b, 0, to)
    ensures Increasing(a + b) && Within(a + b, 0, to)
  {
    var whole := a + cut + b;
    assert forall i :: 0 <= i < |a + b| ==> (a + b)[i] == whole[if i < |a| then i else i + |cut|];
  }

  lemma AppendKeepsOrder(a: seq<Arrival>, b: seq<Arrival>, from: nat, mid: nat, to: nat)
    requires Increasing(a) && Within(a, from, mid) && Increasing(b) && Within(b, mid, to) && from <= mid <= to
    ensures Increasing(a + b) && Within(a + b, from, to)
  {
  }

  lemma {:induction false} FittingOrder(ps: seq<Arrival>, from: nat, to: nat)
    requires Increasing(ps) && Within(ps, from, to)
    ensures Increasing(Fitting(ps, true)) && Within(Fitting(ps, true), from, to)
  {
    if ps != [] {
      var p, rest := ps[0], ps[1..];
      assert Increasing(rest) && Within(rest, p.no + 1, to);
      FittingOrder(rest, p.no + 1, to);
      var ok := Fitting(rest, true);
      AppendKeepsOrder([p], ok, from, p.no + 1, to);
      assert Fitting(ps, true) == if p.packet.fits then [p] + ok else ok;
    }
  }

  lemma CappedOrders(l: Ledger, maxQueue: nat, flight: seq<Arrival>)
    requires InOrder(l, flight)
    ensures Ordered(Capped(l, maxQueue), maxQueue, flight)
  {
    var over := |l.queue| - maxQueue;
    if over > 0 {
      assert l.accepted + flight + l.queue == (l.accepted + flight) + l.queue[..over] + l.queue[over..];
      CutKeepsOrder(l.accepted + flight, l.queue[..over], l.queue[over..], |l.arrived|);
    }
  }

  // The cap drops the oldest: what it leaves is the newest `maxQueue` of the queue, what it drops is older.
  lemma CapDropsOldest(l: Ledger, maxQueue: nat, flight: seq<Arrival>)
    requires InOrder(l, flight)
    ensures var r := Capped(l, maxQueue);
      && r.overflow[|l.overflow|..] + r.queue == l.queue && |r.queue| == Min(maxQueue, |l.queue|)
      && r.dropped == l.dropped + |r.overflow[|l.overflow|..]|
      && forall x, y :: x in r.overflow[|l.overflow|..] && y in r.queue ==> x.no < y.no
  {
    var r := Capped(l, maxQueue);
    var out := r.overflow[|l.overflow|..];
    var before := l.accepted + flight;
    assert out + r.queue == l.queue;
    assert before + l.queue == before + (out + r.queue);
    forall x, y | x in out && y in r.queue ensures x.no < y.no { EarlierIsOlder(before, out, r.queue, x, y); }
  }

  lemma EarlierIsOlder(a: seq<Arrival>, b: seq<Arrival>, c: seq<Arrival>, x: Arrival, y: Arrival)
    requires Increasing(a + (b + c)) && x in b && y in c
    ensures x.no < y.no
  {
    var line := a + (b + c);
    var i :| 0 <= i < |b| && b[i] == x;
    var j :| 0 <= j < |c| && c[j] == y;
    assert line[|a| + i] == x && line[|a| + |b| + j] == y;
  }

  lemma AddedOrders(l: Ledger, maxQueue: nat, packets: seq<Packet>, flight: seq<Arrival>)
    requires Ordered(l, maxQueue, flight)
    ensures Ordered(Added(l, maxQueue, packets), maxQueue, flight)
  {
    var all := Numbered(|l.arrived|, packets);
    FittingOrder(all, |l.arrived|, |l.arrived| + |packets|);
    AppendKeepsOrder(l.accepted + flight + l.queue, Fitting(all, true), 0, |l.arrived|, |l.arrived| + |packets|);
    var l1 := Enqueued(l, all);
    assert l1.accepted + flight + l1.queue == (l.accepted + flight + l.queue) + Fitting(all, true);
    CappedOrders(l1, maxQueue, flight);
  }

  lemma {:induction false} AllAddedOrders(l: Ledger, maxQueue: nat, batches: seq<seq<Packet>>, flight: seq<Arrival>)
    requires Ordered(l, maxQueue, flight)
    ensures Ordered(AllAdded(l, maxQueue, batches), maxQueue, flight)
    decreases |batches|
  {
    if batches != [] {
      AddedOrders(l, maxQueue, batches[0], flight);
      AllAddedOrders(Added(l, maxQueue, batches[0]), maxQueue, batches[1..], flight);
    }
  }

  lemma SettlingOrders(l: Ledger, chunk: seq<Arrival>, rest: seq<Arrival>)
    requires InOrder(l, chunk + rest)
    ensures InOrder(Accept(l, chunk), rest) && InOrder(Refuse(l, chunk), rest)
  {
    assert l.accepted + (chunk + rest) + l.queue == (l.accepted + chunk) + rest + l.queue;
    assert l.accepted + (chunk + rest) + l.queue == l.accepted + chunk + (rest + l.queue);
    CutKeepsOrder(l.accepted, chunk, rest + l.queue, |l.arrived|);
    assert l.accepted + rest + l.queue == l.accepted + (rest + l.queue);
  }

  lemma OrderedStable(maxQueue: nat)
    ensures Stable((l, flight) => Ordered(l, maxQueue, flight), maxQueue)
  {
    var inv := (l, flight) => Ordered(l, maxQueue, flight);
    forall l, chunk, turn, flight | inv(l, flight) ensures inv(Answered(l, maxQueue, chunk, turn), flight) {
      AllAddedOrders(Issued(l, chunk), maxQueue, turn.arrivals, flight);
    }
    forall l, chunk, rest | inv(l, chunk + rest) ensures inv(Accept(l, chunk), rest) && inv(Refuse(l, chunk), rest) {
      SettlingOrders(l, chunk, rest);
    }
    forall l, n: nat | inv(l, []) && n <= |l.queue| ensures inv(Taken(l, n), l.queue[..n]) {
      assert l.accepted + [] + l.queue == l.accepted + l.queue[..n] + l.queue[n..];
    }
    forall l, flight | inv(l, flight) ensures inv(Requeued(l, maxQueue, flight), []) {
      assert l.accepted + flight + l.queue == l.accepted + [] + (flight + l.queue);
      CappedOrders(l.(queue := flight + l.queue), maxQueue, []);
    }
  }

  // ---- the POSTs ---------------------------------------------------------------------------------------

  // One POST at a time (every POST but possibly the last has its reply), none empty or too large.
  ghost predicate PostsOk(l: Ledger, waiting: bool, max: nat) {
    && |l.posts| == |l.replies| + (if waiting then 1 else 0)
    && Sized(l.posts, max)
  }

  ghost predicate Sized(posts: seq<seq<Arrival>>, max: nat) {
    forall k :: 0 <= k < |posts| ==> 0 < |posts[k]| <= max
  }

  // Adding touches neither the POST log nor what was accepted or refused.
  lemma {:induction false} AllAddedFrame(l: Ledger, maxQueue: nat, batches: seq<seq<Packet>>)
    ensures var r := AllAdded(l, maxQueue, batches);
      r.accepted == l.accepted && r.refused == l.refused && r.posts == l.posts && r.replies == l.replies
    decreases |batches|
  {
    if batches != [] { AllAddedFrame(Added(l, maxQueue, batches[0]), maxQueue, batches[1..]); }
  }

  lemma AnsweredFrame(l: Ledger, maxQueue: nat, chunk: seq<Arrival>, turn: Turn)
    ensures var r := Answered(l, maxQueue, chunk, turn);
      && r.accepted == l.accepted && r.refused == l.refused
      && r.posts == l.posts + [chunk] && r.replies == l.replies + [turn.reply(chunk)]
  {
    AllAddedFrame(Issued(l, chunk), maxQueue, turn.arrivals);
  }

  lemma SuffixOfHalves(chunk: seq<Arrival>, m: nat, k: nat)
    requires m <= |chunk|
    ensures k <= m ==> chunk[..m][k..] + chunk[m..] == chunk[k..]
    ensures m + k <= |chunk| ==> chunk[m..][k..] == chunk[m + k..]
  {
  }

  // A send gives back nothing, or a non-empty suffix of its chunk, from index `k` on.
  lemma {:induction false} SendHolds(
    l: Ledger, maxQueue: nat, chunk: seq<Arrival>, splits: nat, turns: seq<Turn>, r: Sent) returns (k: nat)
    requires chunk != [] && r == SendSpec(l, maxQueue, chunk, splits, turns)
    ensures !r.outcome.Done? ==> k < |chunk| && r.outcome.packets == chunk[k..]
    decreases |chunk|
  {
    k := 0;
    if turns == [] || !Splits(turns[0], chunk, splits) {
      assert chunk == chunk[0..];
    } else {
      var l1, m := Answered(l, maxQueue, chunk, turns[0]), Mid(chunk);
      var a, b := chunk[..m], chunk[m..];
      var first := SendSpec(l1, maxQueue, a, splits - 1, turns[1..]);
      k := SendHolds(l1, maxQueue, a, splits - 1, turns[1..], first);
      if first.outcome.Done? {
        k := SendHolds(first.l, maxQueue, b, first.splits, first.turns, r);
        SuffixOfHalves(chunk, m, k);
        k := m + k;
      } else {
        SuffixOfHalves(chunk, m, k);
      }
    }
  }

  // Isolating refused packets costs two POSTs per split on top of the first.
  lemma {:induction false} SendPostCount(
    l: Ledger, maxQueue: nat, chunk: seq<Arrival>, splits: nat, turns: seq<Turn>, r: Sent)
    requires chunk != [] && |l.posts| == |l.replies| && r == SendSpec(l, maxQueue, chunk, splits, turns)
    ensures |r.l.posts| == |r.l.replies| + (if r.outcome.Suspended? then 1 else 0)
    ensures |r.l.posts| <= |l.posts| + 1 + 2 * (splits - r.splits)
    decreases |chunk|
  {
    if turns != [] {
      AnsweredFrame(l, maxQueue, chunk, turns[0]);
      if Splits(turns[0], chunk, splits) {
        var l1, m := Answered(l, maxQueue, chunk, turns[0]), Mid(chunk);
        var first := SendSpec(l1, maxQueue, chunk[..m], splits - 1, turns[1..]);
        SendPostCount(l1, maxQueue, chunk[..m], splits - 1, turns[1..], first);
        if first.outcome.Done? { SendPostCount(first.l, maxQueue, chunk[m..], first.splits, first.turns, r); }
      }
    }
  }

  lemma {:induction false} SendPostSizes(
    l: Ledger, maxQueue: nat, chunk: seq<Arrival>, splits: nat, turns: seq<Turn>, max: nat, r: Sent)
    requires 0 < |chunk| <= max && Sized(l.posts, max) && r == SendSpec(l, maxQueue, chunk, splits, turns)
    ensures Sized(r.l.posts, max)
    decreases |chunk|
  {
    if turns != [] {
      AnsweredFrame(l, maxQueue, chunk, turns[0]);
      if Splits(turns[0], chunk, splits) {
        var l1, m := Answered(l, maxQueue, chunk, turns[0]), Mid(chunk);
        var first := SendSpec(l1, maxQueue, chunk[..m], splits - 1, turns[1..]);
        SendPostSizes(l1, maxQueue, chunk[..m], splits - 1, turns[1..], max, first);
        if first.outcome.Done? { SendPostSizes(first.l, maxQueue, chunk[m..], first.splits, first.turns, max, r); }
      }
    }
  }

  lemma {:induction false} RunPosts(l: Ledger, maxQueue: nat, max: nat, splits: nat, turns: seq<Turn>)
    requires max >= 1 && PostsOk(l, false, max)
    ensures var r := RunSpec(l, maxQueue, max, splits, turns);
      && PostsOk(r.l, r.flight != [], max)
      && r.splits <= splits && |r.l.posts| <= |l.posts| + r.chunks + 2 * (splits - r.splits)
    decreases |turns|
  {
    if l.queue != [] {
      var n := Min(max, |l.queue|);
      var l0 := Taken(l, n);
      var sent := SendSpec(l0, maxQueue, l.queue[..n], splits, turns);
      SendPostCount(l0, maxQueue, l.queue[..n], splits, turns, sent);
      SendPostSizes(l0, maxQueue, l.queue[..n], splits, turns, max, sent);
      var _ := SendHolds(l0, maxQueue, l.queue[..n], splits, turns, sent);
      if sent.outcome.Done? { RunPosts(sent.l, maxQueue, max, sent.splits, sent.turns); }
    }
  }

  // One flush, whatever the gateway answers, makes at most one POST per chunk it takes off the queue
  // plus two per split of its budget.
  lemma FlushPostBound(l: Ledger, maxQueue: nat, max: nat, turns: seq<Turn>)
    requires max >= 1 && PostsOk(l, false, max)
    ensures var r := RunSpec(l, maxQueue, max, SPLIT_BUDGET, turns);
      |r.l.posts| - |l.posts| <= r.chunks + 2 * SPLIT_BUDGET
  {
    RunPosts(l, maxQueue, max, SPLIT_BUDGET, turns);
  }

  // ---- every run -----------------------------------------------------------------------------------------

  ghost predicate Sound(s: System, maxQueue: nat, max: nat) {
    Conserved(s.l, s.flight) && Ordered(s.l, maxQueue, s.flight) && PostsOk(s.l, s.flight != [], max)
  }

  lemma StepKeepsSound(s: System, maxQueue: nat, max: nat, e: Event)
    requires max >= 1 && Sound(s, maxQueue, max)
    ensures Sound(Step(s, maxQueue, max, e), maxQueue, max)
  {
    match e
    case Add(ps) =>
      AddedConserves(s.l, maxQueue, ps, s.flight);
      AddedOrders(s.l, maxQueue, ps, s.flight);
    case Flush(turns) =>
      if s.flight == [] {
        ConservedStable(maxQueue);
        RunKeeps(Conserved, s.l, maxQueue, max, SPLIT_BUDGET, turns);
        OrderedStable(maxQueue);
        RunKeeps((l, flight) => Ordered(l, maxQueue, flight), s.l, maxQueue, max, SPLIT_BUDGET, turns);
        RunPosts(s.l, maxQueue, max, SPLIT_BUDGET, turns);
      }
  }

  // Every run of adds and flushes, however the POSTs turn out and whatever arrives during them.
  lemma {:induction false} EveryRunSound(s: System, maxQueue: nat, max: nat, es: seq<Event>)
    requires max >= 1 && Sound(s, maxQueue, max)
    ensures Sound(Steps(s, maxQueue, max, es), maxQueue, max)
    decreases |es|
  {
    if es != [] {
      StepKeepsSound(s, maxQueue, max, es[0]);
      EveryRunSound(Step(s, maxQueue, max, es[0]), maxQueue, max, es[1..]);
    }
  }

  // From an empty queue: every packet ends in exactly one place, and the accepted POST bodies, what is
  // in flight and what is queued are together in arrival order with nothing repeated.
  lemma NothingLostOrReordered(maxQueue: nat, max: nat, es: seq<Event>)
    requires max >= 1
    ensures var s := Steps(System(EMPTY, []), maxQueue, max, es);
      && multiset(s.l.arrived) == multiset(s.l.accepted) + multiset(s.flight) + multiset(s.l.queue)
                                  + multiset(s.l.misfits) + multiset(s.l.overflow) + multiset(s.l.refused)
      && s.l.dropped == |s.l.misfits| + |s.l.overflow| + |s.l.refused|
      && Increasing(s.l.accepted + s.flight + s.l.queue)
      && |s.l.queue| <= maxQueue
      && |s.l.replies| <= |s.l.posts| <= |s.l.replies| + 1
      && forall k :: 0 <= k < |s.l.posts| ==> 0 < |s.l.posts[k]| <= max
  {
    EveryRunSound(System(EMPTY, []), maxQueue, max, es);
  }

  // ---- when a run stops --------------------------------------------------------------------------------

  // The replies received since `before`: no "later" at all, or exactly one, as the last.
  ghost predicate LaterEnds(before: seq<Reply>, after: seq<Reply>, later: bool) {
    && before <= after
    && (later ==> |before| < |after| && TryLater(after[|after| - 1]))
    && forall k :: |before| <= k < |after| - (if later then 1 else 0) ==> !TryLater(after[k])
  }

  lemma LaterEndsChain(a: seq<Reply>, b: seq<Reply>, c: seq<Reply>, later: bool)
    requires LaterEnds(a, b, false) && LaterEnds(b, c, later)
    ensures LaterEnds(a, c, later)
  {
    assert forall k :: 0 <= k < |b| ==> c[k] == b[k];
  }

  lemma {:induction false} SendLater(
    l: Ledger, maxQueue: nat, chunk: seq<Arrival>, splits: nat, turns: seq<Turn>, r: Sent)
    requires chunk != [] && r == SendSpec(l, maxQueue, chunk, splits, turns)
    ensures LaterEnds(l.replies, r.l.replies, r.outcome.Undelivered?)
    decreases |chunk|
  {
    if turns != [] {
      AnsweredFrame(l, maxQueue, chunk, turns[0]);
      if Splits(turns[0], chunk, splits) {
        var l1, m := Answered(l, maxQueue, chunk, turns[0]), Mid(chunk);
        var first := SendSpec(l1, maxQueue, chunk[..m], splits - 1, turns[1..]);
        SendLater(l1, maxQueue, chunk[..m], splits - 1, turns[1..], first);
        LaterEndsChain(l.replies, l1.replies, first.l.replies, first.outcome.Undelivered?);
        if first.outcome.Done? {
          SendLater(first.l, maxQueue, chunk[m..], first.splits, first.turns, r);
          LaterEndsChain(l.replies, first.l.replies, r.l.replies, r.outcome.Undelivered?);
        }
      }
    }
  }

  // A run stops at the first "later" reply; a run that ended with packets still queued met one. So while
  // the gateway answers, a flush drains the queue, refused packets included.
  lemma {:induction false} RunStopsAtFirstLater(
    l: Ledger, maxQueue: nat, max: nat, splits: nat, turns: seq<Turn>) returns (later: bool)
    requires max >= 1
    ensures var r := RunSpec(l, maxQueue, max, splits, turns);
      && LaterEnds(l.replies, r.l.replies, later)
      && (r.flight == [] && r.l.queue != [] ==> later)
    decreases |turns|
  {
    later := false;
    if l.queue != [] {
      var n := Min(max, |l.queue|);
      var l0 := Taken(l, n);
      var sent := SendSpec(l0, maxQueue, l.queue[..n], splits, turns);
      SendLater(l0, maxQueue, l.queue[..n], splits, turns, sent);
      var _ := SendHolds(l0, maxQueue, l.queue[..n], splits, turns, sent);
      later := sent.outcome.Undelivered?;
      if sent.outcome.Done? {
        later := RunStopsAtFirstLater(sent.l, maxQueue, max, sent.splits, sent.turns);
        LaterEndsChain(l.replies, sent.l.replies, RunSpec(l, maxQueue, max, splits, turns).l.replies, later);
      }
    }
  }

  // ---- what the replies decide ---------------------------------------------------------------------------

  // The POSTs of a flush and their replies, read one after the other with `budget` splits to spend: an accepted
  // body is taken; a refused one is dropped when it is a single packet or `budget` larger ones were refused
  // before it, and else is split; any other reply settles nothing.
  datatype Tally = Tally(taken: seq<Arrival>, dropped: seq<Arrival>, halved: nat)

  ghost function Tallied(posts: seq<seq<Arrival>>, replies: seq<Reply>, from: nat, budget: nat): (t: Tally)
    requires |posts| == |replies|
    ensures t.halved <= budget
    decreases |posts|
  {
    if |posts| <= from then Tally([], [], 0)
    else
      var n := |posts| - 1;
      Counted(Tallied(posts[..n], replies[..n], from, budget), posts[n], replies[n], budget)
  }

  ghost function Counted(t: Tally, body: seq<Arrival>, reply: Reply, budget: nat): (r: Tally)
    requires t.halved <= budget
    ensures r.halved <= budget
  {
    if Took(reply) then t.(taken := t.taken + body)
    else if TryLater(reply) then t
    else if |body| == 1 || t.halved == budget then t.(dropped := t.dropped + body)
    else t.(halved := t.halved + 1)
  }

  // The reading of what has been answered since the log held `from` POSTs.
  ghost function Reading(l: Ledger, from: nat, budget: nat): Tally
    requires |l.replies| <= |l.posts|
  {
    Tallied(l.posts[..|l.replies|], l.replies, from, budget)
  }

  // What has been accepted and refused since `base` is what the replies since then say, and the splits left
  // are those not yet spent.
  ghost predicate Settled(base: Ledger, l: Ledger, budget: nat, splits: nat, waiting: bool) {
    && |l.posts| == |l.replies| + (if waiting then 1 else 0)
    && base.posts <= l.posts && base.replies <= l.replies && |base.posts| == |base.replies|
    && var t := Reading(l, |base.posts|, budget);
      && l.accepted == base.accepted + t.taken
      && l.refused == base.refused + t.dropped
      && splits + t.halved == budget
  }

  lemma ReadingGrows(l: Ledger, l1: Ledger, from: nat, budget: nat, chunk: seq<Arrival>, reply: Reply)
    requires from <= |l.posts| == |l.replies|
    requires l1.posts == l.posts + [chunk] && l1.replies == l.replies + [reply]
    ensures Reading(l1, from, budget) == Counted(Reading(l, from, budget), chunk, reply, budget)
  {
    var n := |l.posts|;
    assert l.posts[..n] == l.posts && l.replies[..n] == l.replies;
    assert l1.posts[..n] == l.posts && l1.replies[..n] == l.replies && l1.posts[..n + 1] == l1.posts;
  }

  lemma ReadingOf(l: Ledger, l1: Ledger, from: nat, budget: nat)
    requires |l.replies| <= |l.posts| && l1.replies == l.replies && l.posts <= l1.posts
    ensures Reading(l1, from, budget) == Reading(l, from, budget)
  {
    assert l1.posts[..|l.replies|] == l.posts[..|l.replies|];
  }

  // One POST answered: its chunk is accepted, kept, split or refused as the reply and the splits left say.
  lemma AnsweredSettles(
    base: Ledger, l: Ledger, l1: Ledger, chunk: seq<Arrival>, reply: Reply, budget: nat, splits: nat, after: Ledger)
    requires chunk != [] && Settled(base, l, budget, splits, false)
    requires l1.posts == l.posts + [chunk] && l1.replies == l.replies + [reply]
    requires l1.accepted == l.accepted && l1.refused == l.refused
    requires after == if Took(reply) then Accept(l1, chunk)
      else if TryLater(reply) || (|chunk| > 1 && splits > 0) then l1 else Refuse(l1, chunk)
    ensures var left := if Unacceptable(reply) && |chunk| > 1 && splits > 0 then splits - 1 else splits;
      Settled(base, after, budget, left, false)
  {
    var from := |base.posts|;
    ReadingGrows(l, l1, from, budget, chunk, reply);
    ReadingOf(l1, after, from, budget);
    var t := Reading(l, from, budget);
    assert base.accepted + (t.taken + chunk) == l.accepted + chunk;
    assert base.refused + (t.dropped + chunk) == l.refused + chunk;
  }

  lemma {:induction false} SendSettles(base: Ledger, budget: nat,
    l: Ledger, maxQueue: nat, chunk: seq<Arrival>, splits: nat, turns: seq<Turn>, r: Sent)
    requires chunk != [] && Settled(base, l, budget, splits, false)
    requires r == Sending(l, maxQueue, chunk, splits, turns)
    ensures Settled(base, r.l, budget, r.splits, r.outcome.Suspended?)
    decreases |chunk|
  {
    if turns == [] {
      ReadingOf(l, r.l, |base.posts|, budget);
    } else {
      var l1, m := Answered(l, maxQueue, chunk, turns[0]), Mid(chunk);
      var split := Splits(turns[0], chunk, splits);
      AnsweredFrame(l, maxQueue, chunk, turns[0]);
      AnsweredSettles(base, l, l1, chunk, turns[0].reply(chunk), budget, splits, if split then l1 else r.l);
      if split {
        var first := Sending(l1, maxQueue, chunk[..m], splits - 1, turns[1..]);
        SendSettles(base, budget, l1, maxQueue, chunk[..m], splits - 1, turns[1..], first);
        if first.outcome.Done? {
          SendSettles(base, budget, first.l, maxQueue, chunk[m..], first.splits, first.turns, r);
        }
      }
    }
  }

  lemma {:induction false} RunSettles(base: Ledger, budget: nat,
    l: Ledger, maxQueue: nat, max: nat, splits: nat, turns: seq<Turn>)
    requires max >= 1 && Settled(base, l, budget, splits, false)
    ensures var r := RunSpec(l, maxQueue, max, splits, turns);
      Settled(base, r.l, budget, r.splits, r.flight != [])
    decreases |turns|
  {
    if l.queue != [] {
      var n := Min(max, |l.queue|);
      var l0 := Taken(l, n);
      var sent := SendSpec(l0, maxQueue, l.queue[..n], splits, turns);
      SendSettles(base, budget, l0, maxQueue, l.queue[..n], splits, turns, sent);
      var _ := SendHolds(l0, maxQueue, l.queue[..n], splits, turns, sent);
      if sent.outcome.Done? { RunSettles(base, budget, sent.l, maxQueue, max, sent.splits, sent.turns); }
    }
  }

  // What one flush accepts and what it drops as refused, packet for packet and in order, is what its POSTs and
  // the gateway's replies alone say: 16 refused batches may be split, 400, 413 and 422 refuse.
  lemma FlushSettlesByReplies(l: Ledger, maxQueue: nat, max: nat, turns: seq<Turn>)
    requires max >= 1 && |l.posts| == |l.replies|
    ensures var r := RunSpec(l, maxQueue, max, SPLIT_BUDGET, turns);
      && l.posts <= r.l.posts && l.replies <= r.l.replies && |r.l.replies| <= |r.l.posts|
      && var t := Tallied(r.l.posts[..|r.l.replies|], r.l.replies, |l.posts|, 16);
        r.l.accepted == l.accepted + t.taken && r.l.refused == l.refused + t.dropped
  {
    assert l.posts[..|l.replies|] == l.posts;
    RunSettles(l, 16, l, maxQueue, max, SPLIT_BUDGET, turns);
  }

  // Each accepted packet was in a POST answered ok, and each refused one in a POST answered 400, 413 or 422.
  ghost predicate AnsweredFor(l: Ledger) {
    && |l.replies| <= |l.posts|
    && (forall x :: x in l.accepted ==> exists k ::
          0 <= k < |l.replies| && x in l.posts[k] && l.replies[k].Response? && l.replies[k].ok)
    && (forall x :: x in l.refused ==> exists k ::
          0 <= k < |l.replies| && x in l.posts[k] && l.replies[k].Response? && !l.replies[k].ok
          && (l.replies[k].status == 400 || l.replies[k].status == 413 || l.replies[k].status == 422))
  }

  lemma {:induction false} TalliedWasAnswered(
    posts: seq<seq<Arrival>>, replies: seq<Reply>, from: nat, budget: nat, x: Arrival, t: Tally)
    requires |posts| == |replies| && t == Tallied(posts, replies, from, budget)
    ensures x in t.taken ==> exists k :: 0 <= k < |replies| && x in posts[k] && Took(replies[k])
    ensures x in t.dropped ==> exists k :: 0 <= k < |replies| && x in posts[k] && Unacceptable(replies[k])
    decreases |posts|
  {
    if |posts| > from {
      var n := |posts| - 1;
      var before := Tallied(posts[..n], replies[..n], from, budget);
      TalliedWasAnswered(posts[..n], replies[..n], from, budget, x, before);
      if x in before.taken {
        var k :| 0 <= k < n && x in posts[..n][k] && Took(replies[..n][k]);
        assert x in posts[k] && Took(replies[k]);
      }
      if x in before.dropped {
        var k :| 0 <= k < n && x in posts[..n][k] && Unacceptable(replies[..n][k]);
        assert x in posts[k] && Unacceptable(replies[k]);
      }
    }
  }

  lemma FlushAnsweredFor(l: Ledger, maxQueue: nat, max: nat, turns: seq<Turn>, r: Ledger)
    requires max >= 1 && |l.posts| == |l.replies| && AnsweredFor(l)
    requires r == RunSpec(l, maxQueue, max, SPLIT_BUDGET, turns).l
    ensures AnsweredFor(r)
  {
    FlushSettlesByReplies(l, maxQueue, max, turns);
    var posts := r.posts[..|r.replies|];
    var t := Tallied(posts, r.replies, |l.posts|, 16);
    forall x | x in r.accepted
      ensures exists k :: 0 <= k < |r.replies| && x in r.posts[k] && r.replies[k].Response? && r.replies[k].ok
    {
      TalliedWasAnswered(posts, r.replies, |l.posts|, 16, x, t);
      if x !in t.taken {
        var k :| 0 <= k < |l.replies| && x in l.posts[k] && Took(l.replies[k]);
        assert x in r.posts[k] && Took(r.replies[k]);
      }
    }
    forall x | x in r.refused
      ensures exists k :: 0 <= k < |r.replies| && x in r.posts[k] && Unacceptable(r.replies[k])
    {
      TalliedWasAnswered(posts, r.replies, |l.posts|, 16, x, t);
      if x !in t.dropped {
        var k :| 0 <= k < |l.replies| && x in l.posts[k] && Unacceptable(l.replies[k]);
        assert x in r.posts[k] && Unacceptable(r.replies[k]);
      }
    }
  }

  lemma {:induction false} StepsAnsweredFor(s: System, maxQueue: nat, max: nat, es: seq<Event>)
    requires max >= 1 && Sound(s, maxQueue, max) && AnsweredFor(s.l)
    ensures AnsweredFor(Steps(s, maxQueue, max, es).l)
    decreases |es|
  {
    if es != [] {
      var s1 := Step(s, maxQueue, max, es[0]);
      StepKeepsSound(s, maxQueue, max, es[0]);
      StepAnsweredFor(s, maxQueue, max, es[0], s1);
      StepsAnsweredFor(s1, maxQueue, max, es[1..]);
    }
  }

  lemma StepAnsweredFor(s: System, maxQueue: nat, max: nat, e: Event, r: System)
    requires max >= 1 && Sound(s, maxQueue, max) && AnsweredFor(s.l) && r == Step(s, maxQueue, max, e)
    ensures AnsweredFor(r.l)
  {
    match e
    case Add(ps) => SameAnswers(s.l, r.l);
    case Flush(turns) => if s.flight == [] { FlushAnsweredFor(s.l, maxQueue, max, turns, r.l); }
  }

  lemma SameAnswers(l: Ledger, r: Ledger)
    requires AnsweredFor(l)
    requires r.posts == l.posts && r.replies == l.replies && r.accepted == l.accepted && r.refused == l.refused
    ensures AnsweredFor(r)
  {
  }

  // Over every run: a packet is accepted only by a POST answered ok, and dropped as refused only after a POST
  // that held it was answered 400, 413 or 422.
  lemma RefusedOnlyWhenAnsweredSo(maxQueue: nat, max: nat, es: seq<Event>)
    requires max >= 1
    ensures var l := Steps(System(EMPTY, []), maxQueue, max, es).l;
      && |l.replies| <= |l.posts|
      && (forall x :: x in l.accepted ==> exists k ::
            0 <= k < |l.replies| && x in l.posts[k] && l.replies[k].Response? && l.replies[k].ok)
      && (forall x :: x in l.refused ==> exists k ::
            0 <= k < |l.replies| && x in l.posts[k] && l.replies[k].Response? && !l.replies[k].ok
            && (l.replies[k].status == 400 || l.replies[k].status == 413 || l.replies[k].status == 422))
  {
    StepsAnsweredFor(System(EMPTY, []), maxQueue, max, es);
  }

  // A POST that throws, or is answered with any other status, refuses nothing: the whole chunk is to be retried.
  lemma LaterKeepsTheChunk(l: Ledger, maxQueue: nat, chunk: seq<Arrival>, splits: nat, turns: seq<Turn>, st: int)
    requires turns != [] && st != 400 && st != 413 && st != 422
    requires turns[0].reply(chunk) == Throws || turns[0].reply(chunk) == Response(false, st)
    ensures var r := SendSpec(l, maxQueue, chunk, splits, turns);
      && r.outcome == Undelivered(chunk) && r.splits == splits && r.turns == turns[1..]
      && r.l.accepted == l.accepted && r.l.refused == l.refused
  {
    AnsweredFrame(l, maxQueue, chunk, turns[0]);
  }

  // ---- poison isolation ----------------------------------------------------------------------------

  function CeilLog2(n: nat): nat
    decreases n
  {
    if n <= 1 then 0 else 1 + CeilLog2(HalfUp(n))
  }

  lemma {:induction false} CeilLog2Monotone(m: nat, n: nat)
    requires m <= n
    ensures CeilLog2(m) <= CeilLog2(n)
    decreases n
  {
    if m > 1 { CeilLog2Monotone(HalfUp(m), HalfUp(n)); }
  }

  function Keep(ps: seq<Arrival>, bad: Arrival -> bool, want: bool): seq<Arrival> {
    if ps == [] then [] else (if bad(ps[0]) == want then [ps[0]] else []) + Keep(ps[1..], bad, want)
  }

  lemma {:induction false} KeepConcat(a: seq<Arrival>, b: seq<Arrival>, bad: Arrival -> bool, want: bool)
    ensures Keep(a + b, bad, want) == Keep(a, bad, want) + Keep(b, bad, want)
  {
    if a == [] {
      assert a + b == b;
    } else {
      var head, rest := if bad(a[0]) == want then [a[0]] else [], Keep(a[1..], bad, want);
      assert (a + b)[0] == a[0] && (a + b)[1..] == a[1..] + b;
      KeepConcat(a[1..], b, bad, want);
      assert Keep(a, bad, want) == head + rest;
      var more := Keep(b, bad, want);
      assert head + (rest + more) == (head + rest) + more;
    }
  }

  lemma {:induction false} KeepNone(ps: seq<Arrival>, bad: Arrival -> bool)
    ensures Keep(ps, bad, true) == [] <==> forall p :: p in ps ==> !bad(p)
    ensures Keep(ps, bad, true) == [] ==> Keep(ps, bad, false) == ps
  {
    if ps != [] {
      KeepNone(ps[1..], bad);
      assert ps == [ps[0]] + ps[1..];
    }
  }

  // The gateway refuses exactly the batches that hold a bad packet and accepts the others.
  ghost predicate Exact(turn: Turn, bad: Arrival -> bool) {
    forall body: seq<Arrival> {:trigger turn.reply(body)} ::
      if Keep(body, bad, true) != [] then Unacceptable(turn.reply(body)) else Took(turn.reply(body))
  }

  ghost predicate RefusesExactly(turns: seq<Turn>, bad: Arrival -> bool) {
    turns == [] || (Exact(turns[0], bad) && RefusesExactly(turns[1..], bad))
  }

  // n * c by repeated addition, so that the recursion below needs only linear arithmetic.
  function Times(n: nat, c: nat): nat {
    if n == 0 then 0 else c + Times(n - 1, c)
  }

  lemma {:induction false} TimesIsProduct(n: nat, c: nat)
    ensures Times(n, c) == n * c
  {
    if n > 0 { TimesIsProduct(n - 1, c); }
  }

  lemma {:induction false} TimesSplits(na: nat, nb: nat, ca: nat, cb: nat)
    requires na + nb >= 1 && cb <= ca
    ensures Times(na + nb, 1 + ca) >= 1 + Times(na, ca) + Times(nb, cb)
    decreases na + nb
  {
    if na > 0 {
      if na + nb > 1 { TimesSplits(na - 1, nb, ca, cb); }
    } else if nb > 1 {
      TimesSplits(na, nb - 1, ca, cb);
    }
  }

  // The splits it takes to isolate `bad` packets in a chunk of `n`.
  function SplitCost(bad: nat, n: nat): nat {
    Times(bad, CeilLog2(n))
  }

  // Splitting a chunk that holds a bad packet leaves less to spend.
  lemma SplitCostDrops(bad: nat, n: nat, na: nat, a: nat, nb: nat, b: nat)
    requires n > 1 && bad >= 1 && bad == na + nb && a == HalfUp(n) && b == n - a
    ensures SplitCost(bad, n) >= 1 + SplitCost(na, a) + SplitCost(nb, b)
  {
    CeilLog2Monotone(b, a);
    TimesSplits(na, nb, CeilLog2(a), CeilLog2(b));
  }

  lemma KeepHalves(chunk: seq<Arrival>, bad: Arrival -> bool, want: bool)
    ensures Keep(chunk, bad, want) == Keep(chunk[..Mid(chunk)], bad, want) + Keep(chunk[Mid(chunk)..], bad, want)
  {
    assert chunk == chunk[..Mid(chunk)] + chunk[Mid(chunk)..];
    KeepConcat(chunk[..Mid(chunk)], chunk[Mid(chunk)..], bad, want);
  }

  lemma RestRefuses(turns: seq<Turn>, bad: Arrival -> bool, rest: seq<Turn>)
    requires RefusesExactly(turns, bad) && turns != [] && rest == turns[1..]
    ensures Exact(turns[0], bad) && RefusesExactly(rest, bad)
  {
  }

  // The turns a send leaves are the end of those it was given.
  lemma {:induction false} SendTurns(
    l: Ledger, maxQueue: nat, chunk: seq<Arrival>, splits: nat, turns: seq<Turn>, bad: Arrival -> bool, r: Sent)
    requires RefusesExactly(turns, bad) && r == SendSpec(l, maxQueue, chunk, splits, turns)
    ensures RefusesExactly(r.turns, bad)
    decreases |chunk|
  {
    if turns != [] {
      var rest := turns[1..];
      RestRefuses(turns, bad, rest);
      if Splits(turns[0], chunk, splits) {
        var l1, m := Answered(l, maxQueue, chunk, turns[0]), Mid(chunk);
        var first := SendSpec(l1, maxQueue, chunk[..m], splits - 1, rest);
        SendTurns(l1, maxQueue, chunk[..m], splits - 1, rest, bad, first);
        if first.outcome.Done? { SendTurns(first.l, maxQueue, chunk[m..], first.splits, first.turns, bad, r); }
      }
    }
  }

  // What a send does to the ledger when it isolates the bad packets of its chunk for `cost` splits.
  ghost predicate Isolates(
    l: Ledger, splits: nat, turns: nat, r: Sent, good: seq<Arrival>, refused: seq<Arrival>, cost: nat) {
    && r.outcome.Done?
    && r.l.accepted == l.accepted + good
    && r.l.refused == l.refused + refused
    && splits - r.splits <= cost
    && turns - |r.turns| <= 1 + 2 * cost
  }

  lemma IsolatesBothHalves(l: Ledger, l1: Ledger, splits: nat, turns: nat, first: Sent, r: Sent,
    g1: seq<Arrival>, b1: seq<Arrival>, c1: nat, g2: seq<Arrival>, b2: seq<Arrival>, c2: nat,
    good: seq<Arrival>, refused: seq<Arrival>, cost: nat)
    requires splits >= 1 && turns >= 1 && l1.accepted == l.accepted && l1.refused == l.refused
    requires Isolates(l1, splits - 1, turns - 1, first, g1, b1, c1)
    requires Isolates(first.l, first.splits, |first.turns|, r, g2, b2, c2)
    requires good == g1 + g2 && refused == b1 + b2 && cost == 1 + c1 + c2
    ensures Isolates(l, splits, turns, r, good, refused, cost)
  {
  }

  // A batch without a bad packet is accepted at once; a bad packet alone is refused.
  lemma LeafIsolates(l: Ledger, maxQueue: nat, chunk: seq<Arrival>, splits: nat, turns: seq<Turn>, bad: Arrival -> bool,
    r: Sent, good: seq<Arrival>, poison: seq<Arrival>)
    requires chunk != [] && turns != [] && Exact(turns[0], bad) && r == SendSpec(l, maxQueue, chunk, splits, turns)
    requires good == Keep(chunk, bad, false) && poison == Keep(chunk, bad, true)
    requires poison == [] || |chunk| == 1
    ensures Isolates(l, splits, |turns|, r, good, poison, 0)
  {
    AnsweredFrame(l, maxQueue, chunk, turns[0]);
    KeepNone(chunk, bad);
    if poison != [] { assert chunk == [chunk[0]]; }
  }

  lemma HalvesSizes(chunk: seq<Arrival>, a: seq<Arrival>, b: seq<Arrival>)
    requires |chunk| > 1 && a == chunk[..Mid(chunk)] && b == chunk[Mid(chunk)..]
    ensures |a| == HalfUp(|chunk|) && |b| == |chunk| - |a| && a != [] && b != []
  {
  }

  // A chunk of several packets with a bad one among them is refused, and its halves need less: what there is
  // to spend covers the split and both of them.
  lemma HalvesCost(
    chunk: seq<Arrival>, turn: Turn, splits: nat, bad: Arrival -> bool, a: seq<Arrival>, b: seq<Arrival>, cost: nat)
    returns (c1: nat, c2: nat)
    requires |chunk| > 1 && Keep(chunk, bad, true) != [] && Exact(turn, bad)
    requires SplitCost(|Keep(chunk, bad, true)|, |chunk|) <= cost <= splits
    requires a == chunk[..Mid(chunk)] && b == chunk[Mid(chunk)..]
    ensures Splits(turn, chunk, splits)
    ensures Keep(chunk, bad, true) == Keep(a, bad, true) + Keep(b, bad, true)
    ensures Keep(chunk, bad, false) == Keep(a, bad, false) + Keep(b, bad, false)
    ensures 1 + c1 + c2 == cost
    ensures SplitCost(|Keep(a, bad, true)|, |a|) <= c1 && SplitCost(|Keep(b, bad, true)|, |b|) <= c2
  {
    KeepHalves(chunk, bad, true);
    KeepHalves(chunk, bad, false);
    HalvesSizes(chunk, a, b);
    var p, p1, p2 := |Keep(chunk, bad, true)|, |Keep(a, bad, true)|, |Keep(b, bad, true)|;
    assert p == p1 + p2;
    SplitCostDrops(p, |chunk|, p1, |a|, p2, |b|);
    c1 := SplitCost(p1, |a|);
    c2 := cost - 1 - c1;
  }

  // What is good and what is bad in a chunk, and that `cost` splits are enough to tell them apart.
  ghost predicate Afforded(
    chunk: seq<Arrival>, bad: Arrival -> bool, good: seq<Arrival>, poison: seq<Arrival>, cost: nat) {
    && chunk != [] && good == Keep(chunk, bad, false) && poison == Keep(chunk, bad, true)
    && SplitCost(|poison|, |chunk|) <= cost
  }

  lemma HalvesAfforded(
    chunk: seq<Arrival>, turn: Turn, splits: nat, bad: Arrival -> bool, a: seq<Arrival>, b: seq<Arrival>,
    good: seq<Arrival>, poison: seq<Arrival>, cost: nat)
    returns (g1: seq<Arrival>, p1: seq<Arrival>, c1: nat, g2: seq<Arrival>, p2: seq<Arrival>, c2: nat)
    requires |chunk| > 1 && poison != [] && Exact(turn, bad)
        && Afforded(chunk, bad, good, poison, cost) && cost <= splits
    requires a == chunk[..Mid(chunk)] && b == chunk[Mid(chunk)..]
    ensures Splits(turn, chunk, splits) && good == g1 + g2 && poison == p1 + p2 && 1 + c1 + c2 == cost
    ensures Afforded(a, bad, g1, p1, c1) && Afforded(b, bad, g2, p2, c2)
  {
    g1, p1, g2, p2 := Keep(a, bad, false), Keep(a, bad, true), Keep(b, bad, false), Keep(b, bad, true);
    c1, c2 := HalvesCost(chunk, turn, splits, bad, a, b, cost);
    HalvesSizes(chunk, a, b);
  }

  // A send by a name that proofs by induction over it keep folded.
  function Sending(l: Ledger, maxQueue: nat, chunk: seq<Arrival>, splits: nat, turns: seq<Turn>): Sent {
    SendSpec(l, maxQueue, chunk, splits, turns)
  }

  // A refused chunk of several packets: the send of the first half, and then that of the second, each with its
  // share of what is good, what is bad and what there is to spend.
  lemma OpensInHalves(
    l: Ledger, maxQueue: nat, chunk: seq<Arrival>, splits: nat, turns: seq<Turn>, bad: Arrival -> bool, r: Sent,
    good: seq<Arrival>, poison: seq<Arrival>, cost: nat)
    returns (l1: Ledger, a: seq<Arrival>, b: seq<Arrival>, rest: seq<Turn>, first: Sent,
      g1: seq<Arrival>, p1: seq<Arrival>, c1: nat, g2: seq<Arrival>, p2: seq<Arrival>, c2: nat)
    requires RefusesExactly(turns, bad) && r == Sending(l, maxQueue, chunk, splits, turns)
    requires Afforded(chunk, bad, good, poison, cost) && cost <= splits && turns != [] && poison != [] && |chunk| > 1
    ensures splits >= 1 && |rest| == |turns| - 1 && |a| < |chunk| && |b| < |chunk|
    ensures l1.accepted == l.accepted && l1.refused == l.refused && first == Sending(l1, maxQueue, a, splits - 1, rest)
    ensures if first.outcome.Done? then r == Sending(first.l, maxQueue, b, first.splits, first.turns)
            else r == first.(outcome := first.outcome.Before(b))
    ensures RefusesExactly(rest, bad) && RefusesExactly(first.turns, bad)
    ensures good == g1 + g2 && poison == p1 + p2 && 1 + c1 + c2 == cost
    ensures Afforded(a, bad, g1, p1, c1) && Afforded(b, bad, g2, p2, c2)
  {
    l1, a, b := Answered(l, maxQueue, chunk, turns[0]), chunk[..Mid(chunk)], chunk[Mid(chunk)..];
    rest := turns[1..];
    RestRefuses(turns, bad, rest);
    g1, p1, c1, g2, p2, c2 := HalvesAfforded(chunk, turns[0], splits, bad, a, b, good, poison, cost);
    HalvesSizes(chunk, a, b);
    AnsweredFrame(l, maxQueue, chunk, turns[0]);
    first := Sending(l1, maxQueue, a, splits - 1, rest);
    SendTurns(l1, maxQueue, a, splits - 1, rest, bad, first);
  }

  lemma {:induction false} SendIsolates(
    l: Ledger, maxQueue: nat, chunk: seq<Arrival>, splits: nat, turns: seq<Turn>, bad: Arrival -> bool,
    r: Sent, good: seq<Arrival>, poison: seq<Arrival>, cost: nat)
    requires RefusesExactly(turns, bad) && r == Sending(l, maxQueue, chunk, splits, turns)
    requires Afforded(chunk, bad, good, poison, cost) && splits >= cost && |turns| >= 1 + 2 * cost
    ensures Isolates(l, splits, |turns|, r, good, poison, cost)
    decreases |chunk|
  {
    if poison == [] || |chunk| == 1 {
      LeafIsolates(l, maxQueue, chunk, splits, turns, bad, r, good, poison);
    } else {
      var l1, a, b, rest, first, g1, p1, c1, g2, p2, c2 :=
        OpensInHalves(l, maxQueue, chunk, splits, turns, bad, r, good, poison, cost);
      SendIsolates(l1, maxQueue, a, splits - 1, rest, bad, first, g1, p1, c1);
      SendIsolates(first.l, maxQueue, b, first.splits, first.turns, bad, r, g2, p2, c2);
      IsolatesBothHalves(l, l1, splits, |turns|, first, r, g1, p1, c1, g2, p2, c2, good, poison, cost);
    }
  }

  // With a budget of b * ceil(log2 n) splits for the b bad packets among n, a send loses exactly the bad
  // ones and delivers the rest in order, in at most 1 + 2 * b * ceil(log2 n) POSTs.
  lemma PoisonIsolated(
    l: Ledger, maxQueue: nat, chunk: seq<Arrival>, splits: nat, turns: seq<Turn>, bad: Arrival -> bool)
    requires chunk != [] && RefusesExactly(turns, bad)
    requires var cost := |Keep(chunk, bad, true)| * CeilLog2(|chunk|);
      splits >= cost && |turns| >= 1 + 2 * cost
    ensures var r := SendSpec(l, maxQueue, chunk, splits, turns);
      && r.outcome.Done?
      && r.l.accepted == l.accepted + Keep(chunk, bad, false)
      && r.l.refused == l.refused + Keep(chunk, bad, true)
      && |turns| - |r.turns| <= 1 + 2 * (|Keep(chunk, bad, true)| * CeilLog2(|chunk|))
  {
    var poison := Keep(chunk, bad, true);
    TimesIsProduct(|poison|, CeilLog2(|chunk|));
    SendIsolates(l, maxQueue, chunk, splits, turns, bad, SendSpec(l, maxQueue, chunk, splits, turns),
      Keep(chunk, bad, false), poison, SplitCost(|poison|, |chunk|));
  }

  // ---- how much a chunk takes ------------------------------------------------------------------------------

  ghost predicate PostedNext(before: seq<seq<Arrival>>, chunk: seq<Arrival>, after: seq<seq<Arrival>>) {
    before + [chunk] <= after
  }

  lemma PostedThen(a: seq<seq<Arrival>>, chunk: seq<Arrival>, b: seq<seq<Arrival>>, next: seq<Arrival>,
    c: seq<seq<Arrival>>)
    requires PostedNext(a, chunk, b) && PostedNext(b, next, c)
    ensures PostedNext(a, chunk, c)
  {
  }

  lemma {:induction false} SendPostsFirst(
    l: Ledger, maxQueue: nat, chunk: seq<Arrival>, splits: nat, turns: seq<Turn>, r: Sent)
    requires r == Sending(l, maxQueue, chunk, splits, turns)
    ensures PostedNext(l.posts, chunk, r.l.posts)
    decreases |chunk|
  {
    if turns != [] {
      AnsweredFrame(l, maxQueue, chunk, turns[0]);
      if Splits(turns[0], chunk, splits) {
        var l1, m := Answered(l, maxQueue, chunk, turns[0]), Mid(chunk);
        var first := Sending(l1, maxQueue, chunk[..m], splits - 1, turns[1..]);
        SendPostsFirst(l1, maxQueue, chunk[..m], splits - 1, turns[1..], first);
        PostedThen(l.posts, chunk, l1.posts, chunk[..m], first.l.posts);
        if first.outcome.Done? {
          SendPostsFirst(first.l, maxQueue, chunk[m..], first.splits, first.turns, r);
          PostedThen(l.posts, chunk, first.l.posts, chunk[m..], r.l.posts);
        }
      }
    }
  }

  lemma {:induction false} RunPostsFirst(l: Ledger, maxQueue: nat, max: nat, splits: nat, turns: seq<Turn>)
    requires max >= 1
    ensures var r := RunSpec(l, maxQueue, max, splits, turns);
      && l.posts <= r.l.posts
      && (l.queue != [] ==> l.posts + [l.queue[..if max < |l.queue| then max else |l.queue|]] <= r.l.posts)
    decreases |turns|
  {
    if l.queue != [] {
      var n := Min(max, |l.queue|);
      var sent := SendSpec(Taken(l, n), maxQueue, l.queue[..n], splits, turns);
      SendPostsFirst(Taken(l, n), maxQueue, l.queue[..n], splits, turns, sent);
      if sent.outcome.Done? { RunPostsFirst(sent.l, maxQueue, max, sent.splits, sent.turns); }
    }
  }

  // Nothing is added while these POSTs are in flight.
  ghost predicate Quiet(turns: seq<Turn>) {
    forall k :: 0 <= k < |turns| ==> turns[k].arrivals == []
  }

  lemma {:induction false} QuietSend(
    l: Ledger, maxQueue: nat, chunk: seq<Arrival>, splits: nat, turns: seq<Turn>, r: Sent)
    requires Quiet(turns) && r == SendSpec(l, maxQueue, chunk, splits, turns)
    ensures r.l.queue == l.queue && Quiet(r.turns)
    decreases |chunk|
  {
    if turns != [] {
      var l1, m, rest := Answered(l, maxQueue, chunk, turns[0]), Mid(chunk), turns[1..];
      assert l1.queue == l.queue && Quiet(rest);
      if Splits(turns[0], chunk, splits) {
        var first := SendSpec(l1, maxQueue, chunk[..m], splits - 1, rest);
        QuietSend(l1, maxQueue, chunk[..m], splits - 1, rest, first);
        if first.outcome.Done? { QuietSend(first.l, maxQueue, chunk[m..], first.splits, first.turns, r); }
      }
    }
  }

  // One round of a run: a chunk comes off the queue, the rest stays; what is not delivered is queued again.
  lemma QuietRound(
    l: Ledger, maxQueue: nat, max: nat, splits: nat, turns: seq<Turn>, n: nat, sent: Sent)
    requires max >= 1 && l.queue != [] && Quiet(turns) && n == Min(max, |l.queue|)
    requires sent == Sending(Taken(l, n), maxQueue, l.queue[..n], splits, turns)
    ensures sent.l.queue == l.queue[n..] && Quiet(sent.turns)
    ensures sent.outcome.Suspended? ==> sent.outcome.packets != []
    ensures sent.outcome.Undelivered? && maxQueue > 0 ==> Requeued(sent.l, maxQueue, sent.outcome.packets).queue != []
  {
    QuietSend(Taken(l, n), maxQueue, l.queue[..n], splits, turns, sent);
    var k := SendHolds(Taken(l, n), maxQueue, l.queue[..n], splits, turns, sent);
  }

  // One chunk more than it takes for the rest.
  lemma OneChunkMore(all: nat, n: nat, max: nat, chunks: nat)
    requires max >= 1 && all > 0 && n == Min(max, all)
    requires if all == n then chunks == 0 else chunks >= 1 && Times(chunks - 1, max) < all - n
    ensures Times(chunks, max) < all && (all - n <= Times(chunks, max) ==> all <= Times(chunks + 1, max))
  {
  }

  // A run by a name that proofs by induction over it keep folded.
  function Running(l: Ledger, maxQueue: nat, max: nat, splits: nat, turns: seq<Turn>): Ran
    requires max >= 1
  {
    RunSpec(l, maxQueue, max, splits, turns)
  }

  // A run with something queued: it ends with its first chunk, or goes on as a run of its own.
  lemma RunOpens(l: Ledger, maxQueue: nat, max: nat, splits: nat, turns: seq<Turn>, n: nat, sent: Sent, r: Ran)
    returns (more: Ran)
    requires max >= 1 && l.queue != [] && n == Min(max, |l.queue|) && r == Running(l, maxQueue, max, splits, turns)
    requires sent == Sending(Taken(l, n), maxQueue, l.queue[..n], splits, turns)
    ensures if sent.outcome.Done? then
        more == Running(sent.l, maxQueue, max, sent.splits, sent.turns) && |sent.turns| < |turns|
        && r.chunks == more.chunks + 1 && r.l == more.l && r.flight == more.flight
      else
        r.chunks == 1 && if sent.outcome.Suspended? then r.flight == sent.outcome.packets
          else r.l == Requeued(sent.l, maxQueue, sent.outcome.packets)
  {
    more := if sent.outcome.Done? then Running(sent.l, maxQueue, max, sent.splits, sent.turns) else r;
  }

  lemma EmptyRun(l: Ledger, maxQueue: nat, max: nat, splits: nat, turns: seq<Turn>)
    requires max >= 1 && l.queue == []
    ensures Running(l, maxQueue, max, splits, turns).chunks == 0
  {
  }

  lemma {:induction false} QuietRunChunks(
    l: Ledger, maxQueue: nat, max: nat, splits: nat, turns: seq<Turn>, r: Ran)
    requires max >= 1 && Quiet(turns) && r == Running(l, maxQueue, max, splits, turns)
    ensures if l.queue == [] then r.chunks == 0 else r.chunks >= 1 && Times(r.chunks - 1, max) < |l.queue|
    ensures maxQueue > 0 && r.flight == [] && r.l.queue == [] ==> |l.queue| <= Times(r.chunks, max)
    decreases |turns|
  {
    if l.queue == [] {
      EmptyRun(l, maxQueue, max, splits, turns);
    } else {
      var n := Min(max, |l.queue|);
      var sent := Sending(Taken(l, n), maxQueue, l.queue[..n], splits, turns);
      QuietRound(l, maxQueue, max, splits, turns, n, sent);
      var more := RunOpens(l, maxQueue, max, splits, turns, n, sent, r);
      if sent.outcome.Done? {
        QuietRunChunks(sent.l, maxQueue, max, sent.splits, sent.turns, more);
        OneChunkMore(|l.queue|, n, max, more.chunks);
      }
    }
  }

  // A flush during which nothing arrives takes the queue off in chunks of `max`, the last one smaller: when it
  // drains the queue it has taken exactly as many chunks as the queue fills.
  lemma QuietFlushChunks(l: Ledger, maxQueue: nat, max: nat, turns: seq<Turn>)
    requires max >= 1 && Quiet(turns)
    ensures var r := RunSpec(l, maxQueue, max, SPLIT_BUDGET, turns);
      && (l.queue != [] ==> (r.chunks - 1) * max < |l.queue|)
      && (maxQueue > 0 && r.flight == [] && r.l.queue == [] ==> |l.queue| <= r.chunks * max)
  {
    var r := RunSpec(l, maxQueue, max, SPLIT_BUDGET, turns);
    QuietRunChunks(l, maxQueue, max, SPLIT_BUDGET, turns, r);
    TimesIsProduct(r.chunks, max);
    if l.queue != [] { TimesIsProduct(r.chunks - 1, max); }
  }

  // ---- what arrives during the POSTs -----------------------------------------------------------------------

  function Packets(ps: seq<Arrival>): seq<Packet> {
    seq(|ps|, i requires 0 <= i < |ps| => ps[i].packet)
  }

  function Joined(batches: seq<seq<Packet>>): seq<Packet> {
    if batches == [] then [] else batches[0] + Joined(batches[1..])
  }

  // Everything given to `add` while the POSTs of these turns are in flight.
  function Heard(turns: seq<Turn>): seq<Packet> {
    if turns == [] then [] else Joined(turns[0].arrivals) + Heard(turns[1..])
  }

  lemma PacketsAdd(ps: seq<Arrival>, from: nat, packets: seq<Packet>)
    ensures Packets(ps + Numbered(from, packets)) == Packets(ps) + packets
  {
  }

  lemma OneAfterAnother(a: seq<Packet>, b: seq<Packet>, c: seq<Packet>)
    ensures (a + b) + c == a + (b + c)
  {
  }

  lemma {:induction false} AllAddedHears(l: Ledger, maxQueue: nat, batches: seq<seq<Packet>>)
    ensures Packets(AllAdded(l, maxQueue, batches).arrived) == Packets(l.arrived) + Joined(batches)
    decreases |batches|
  {
    if batches == [] {
      assert Packets(l.arrived) + [] == Packets(l.arrived);
    } else {
      var l1 := Added(l, maxQueue, batches[0]);
      PacketsAdd(l.arrived, |l.arrived|, batches[0]);
      AllAddedHears(l1, maxQueue, batches[1..]);
      OneAfterAnother(Packets(l.arrived), batches[0], Joined(batches[1..]));
    }
  }

  // The packets that have arrived, and those the turns left would bring.
  function Hearing(l: Ledger, turns: seq<Turn>): seq<Packet> {
    Packets(l.arrived) + Heard(turns)
  }

  lemma AnsweredHears(l: Ledger, maxQueue: nat, chunk: seq<Arrival>, turns: seq<Turn>)
    requires turns != []
    ensures Hearing(Answered(l, maxQueue, chunk, turns[0]), turns[1..]) == Hearing(l, turns)
  {
    AllAddedHears(Issued(l, chunk), maxQueue, turns[0].arrivals);
    OneAfterAnother(Packets(l.arrived), Joined(turns[0].arrivals), Heard(turns[1..]));
  }

  lemma {:induction false} SendHears(
    l: Ledger, maxQueue: nat, chunk: seq<Arrival>, splits: nat, turns: seq<Turn>, r: Sent)
    requires r == Sending(l, maxQueue, chunk, splits, turns)
    ensures Hearing(r.l, r.turns) == Hearing(l, turns)
    decreases |chunk|
  {
    if turns != [] {
      AnsweredHears(l, maxQueue, chunk, turns);
      if Splits(turns[0], chunk, splits) {
        var l1, m := Answered(l, maxQueue, chunk, turns[0]), Mid(chunk);
        var first := Sending(l1, maxQueue, chunk[..m], splits - 1, turns[1..]);
        SendHears(l1, maxQueue, chunk[..m], splits - 1, turns[1..], first);
        if first.outcome.Done? { SendHears(first.l, maxQueue, chunk[m..], first.splits, first.turns, r); }
      }
    }
  }

  // A flush hears everything given to `add` during its POSTs, in order, and nothing else: what has arrived after
  // it, with what the turns it did not reach hold, is what had arrived and what its turns hold.
  lemma {:induction false} FlushHearsEverything(l: Ledger, maxQueue: nat, max: nat, splits: nat, turns: seq<Turn>)
    requires max >= 1
    ensures var r := RunSpec(l, maxQueue, max, splits, turns);
      Packets(r.l.arrived) + Heard(r.turns) == Packets(l.arrived) + Heard(turns)
    decreases |turns|
  {
    if l.queue != [] {
      var n := Min(max, |l.queue|);
      var sent := SendSpec(Taken(l, n), maxQueue, l.queue[..n], splits, turns);
      SendHears(Taken(l, n), maxQueue, l.queue[..n], splits, turns, sent);
      if sent.outcome.Done? { FlushHearsEverything(sent.l, maxQueue, max, sent.splits, sent.turns); }
    }
  }

  // Adding, whether or not a flush is under way: the packets have arrived, and no POST is touched.
  lemma AddHears(s: System, maxQueue: nat, max: nat, packets: seq<Packet>)
    requires max >= 1
    ensures var r := Step(s, maxQueue, max, Add(packets));
      && Packets(r.l.arrived) == Packets(s.l.arrived) + packets && r.flight == s.flight
      && r.l.posts == s.l.posts && r.l.replies == s.l.replies
      && r.l.accepted == s.l.accepted && r.l.refused == s.l.refused
  {
    PacketsAdd(s.l.arrived, |s.l.arrived|, packets);
  }

  // ---- what the schema refuses -----------------------------------------------------------------------------

  // Only packets the schema accepts are queued, sent or cut by the cap; the misfits are those it refuses.
  ghost predicate Fit(l: Ledger, flight: seq<Arrival>) {
    && AllFit(l.queue) && AllFit(flight) && AllFit(l.accepted) && AllFit(l.refused) && AllFit(l.overflow)
    && (forall k :: 0 <= k < |l.misfits| ==> !l.misfits[k].packet.fits)
    && forall k :: 0 <= k < |l.arrived| ==> l.arrived[k].no == k
  }

  ghost predicate AllFit(ps: seq<Arrival>) {
    forall k :: 0 <= k < |ps| ==> ps[k].packet.fits
  }

  lemma {:induction false} FittingFit(ps: seq<Arrival>, fits: bool)
    ensures forall x :: x in Fitting(ps, fits) ==> x.packet.fits == fits
  {
    if ps != [] { FittingFit(ps[1..], fits); }
  }

  lemma AddedFit(l: Ledger, maxQueue: nat, packets: seq<Packet>, flight: seq<Arrival>)
    requires Fit(l, flight)
    ensures Fit(Added(l, maxQueue, packets), flight)
  {
    var all := Numbered(|l.arrived|, packets);
    EnqueuedFit(l, all, flight);
    CappedFit(Enqueued(l, all), maxQueue, flight);
  }

  lemma EnqueuedFit(l: Ledger, all: seq<Arrival>, flight: seq<Arrival>)
    requires Fit(l, flight) && forall k :: 0 <= k < |all| ==> all[k].no == |l.arrived| + k
    ensures Fit(Enqueued(l, all), flight)
  {
    FittingFit(all, true);
    FittingFit(all, false);
    FitAdds(l.queue, Fitting(all, true));
  }

  lemma FitAdds(a: seq<Arrival>, b: seq<Arrival>)
    requires AllFit(a) && forall x :: x in b ==> x.packet.fits
    ensures AllFit(a + b)
  {
  }

  lemma CappedFit(l: Ledger, maxQueue: nat, flight: seq<Arrival>)
    requires Fit(l, flight)
    ensures Fit(Capped(l, maxQueue), flight)
  {
    var over := |l.queue| - maxQueue;
    if over > 0 {
      assert AllFit(l.queue[over..]);
      FitAdds(l.overflow, l.queue[..over]);
    }
  }

  lemma {:induction false} AllAddedFit(l: Ledger, maxQueue: nat, batches: seq<seq<Packet>>, flight: seq<Arrival>)
    requires Fit(l, flight)
    ensures Fit(AllAdded(l, maxQueue, batches), flight)
    decreases |batches|
  {
    if batches != [] {
      AddedFit(l, maxQueue, batches[0], flight);
      AllAddedFit(Added(l, maxQueue, batches[0]), maxQueue, batches[1..], flight);
    }
  }

  lemma SettlingFit(l: Ledger, chunk: seq<Arrival>, rest: seq<Arrival>)
    requires Fit(l, chunk + rest)
    ensures Fit(Accept(l, chunk), rest) && Fit(Refuse(l, chunk), rest)
  {
    assert forall k :: 0 <= k < |chunk| ==> (chunk + rest)[k] == chunk[k];
    assert forall k :: 0 <= k < |rest| ==> (chunk + rest)[|chunk| + k] == rest[k];
  }

  lemma FitStable(maxQueue: nat)
    ensures Stable(Fit, maxQueue)
  {
    forall l, chunk, turn, flight | Fit(l, flight) ensures Fit(Answered(l, maxQueue, chunk, turn), flight) {
      AllAddedFit(Issued(l, chunk), maxQueue, turn.arrivals, flight);
    }
    forall l, chunk, rest | Fit(l, chunk + rest) ensures Fit(Accept(l, chunk), rest) && Fit(Refuse(l, chunk), rest) {
      SettlingFit(l, chunk, rest);
    }
  }

  lemma {:induction false} StepsFit(s: System, maxQueue: nat, max: nat, es: seq<Event>)
    requires max >= 1 && Fit(s.l, s.flight)
    ensures var r := Steps(s, maxQueue, max, es); Fit(r.l, r.flight)
    decreases |es|
  {
    if es != [] {
      match es[0] {
        case Add(ps) => AddedFit(s.l, maxQueue, ps, s.flight);
        case Flush(turns) =>
          FitStable(maxQueue);
          if s.flight == [] { RunKeeps(Fit, s.l, maxQueue, max, SPLIT_BUDGET, turns); }
      }
      StepsFit(Step(s, maxQueue, max, es[0]), maxQueue, max, es[1..]);
    }
  }

  // Over every run packets are numbered as they arrive, and one the schema refuses is dropped on arrival, and it
  // alone: what is sent, queued, or dropped for another reason, the schema accepts.
  lemma SchemaDecidesOnArrival(maxQueue: nat, max: nat, es: seq<Event>, x: Arrival)
    requires max >= 1
    ensures var s := Steps(System(EMPTY, []), maxQueue, max, es);
      && (forall k :: 0 <= k < |s.l.arrived| ==> s.l.arrived[k].no == k)
      && (x in s.l.misfits ==> !x.packet.fits)
      && (x in s.l.accepted + s.flight + s.l.queue + s.l.overflow + s.l.refused ==> x.packet.fits)
  {
    StepsFit(System(EMPTY, []), maxQueue, max, es);
  }

  // ---- poison isolation over a whole flush -----------------------------------------------------------

  // What was accepted in between is good, and what was refused is bad.
  ghost predicate Pure(l: Ledger, r: Ledger, bad: Arrival -> bool) {
    && l.accepted <= r.accepted && l.refused <= r.refused
    && (forall k :: |l.accepted| <= k < |r.accepted| ==> !bad(r.accepted[k]))
    && (forall k :: |l.refused| <= k < |r.refused| ==> bad(r.refused[k]))
  }

  lemma PureChain(a: Ledger, b: Ledger, c: Ledger, bad: Arrival -> bool)
    requires Pure(a, b, bad) && Pure(b, c, bad)
    ensures Pure(a, c, bad)
  {
    assert forall k :: 0 <= k < |b.accepted| ==> c.accepted[k] == b.accepted[k];
    assert forall k :: 0 <= k < |b.refused| ==> c.refused[k] == b.refused[k];
  }

  lemma LeafPure(
    l: Ledger, maxQueue: nat, chunk: seq<Arrival>, splits: nat, turns: seq<Turn>, bad: Arrival -> bool, r: Sent)
    requires chunk != [] && turns != [] && Exact(turns[0], bad) && r == SendSpec(l, maxQueue, chunk, splits, turns)
    requires Keep(chunk, bad, true) == [] || |chunk| == 1
    ensures Pure(l, r.l, bad) && r.splits == splits && r.outcome.Done?
  {
    AnsweredFrame(l, maxQueue, chunk, turns[0]);
    KeepNone(chunk, bad);
    if Keep(chunk, bad, true) != [] { assert chunk == [chunk[0]]; }
  }

  // A send with budget enough for its bad packets accepts no bad one and refuses no good one, however many of
  // its POSTs are answered before it is suspended; it never gives packets back, and stays within its cost.
  lemma {:induction false} SendIsPure(
    l: Ledger, maxQueue: nat, chunk: seq<Arrival>, splits: nat, turns: seq<Turn>, bad: Arrival -> bool, r: Sent,
    good: seq<Arrival>, poison: seq<Arrival>, cost: nat)
    requires RefusesExactly(turns, bad) && r == Sending(l, maxQueue, chunk, splits, turns)
    requires Afforded(chunk, bad, good, poison, cost) && cost <= splits
    ensures Pure(l, r.l, bad) && splits - r.splits <= cost && !r.outcome.Undelivered?
    decreases |chunk|
  {
    if turns == [] {
    } else if poison == [] || |chunk| == 1 {
      LeafPure(l, maxQueue, chunk, splits, turns, bad, r);
    } else {
      var l1, a, b, rest, first, g1, p1, c1, g2, p2, c2 :=
        OpensInHalves(l, maxQueue, chunk, splits, turns, bad, r, good, poison, cost);
      SendIsPure(l1, maxQueue, a, splits - 1, rest, bad, first, g1, p1, c1);
      if first.outcome.Done? { SendIsPure(first.l, maxQueue, b, first.splits, first.turns, bad, r, g2, p2, c2); }
      BothHalvesPure(l, l1, splits, first, r, bad, c1, c2, cost);
    }
  }

  // The second half is sent once the first is done; else the send stops where the first half did.
  lemma BothHalvesPure(
    l: Ledger, l1: Ledger, splits: nat, first: Sent, r: Sent, bad: Arrival -> bool, c1: nat, c2: nat, cost: nat)
    requires l1.accepted == l.accepted && l1.refused == l.refused && Pure(l1, first.l, bad)
    requires splits - 1 - first.splits <= c1 && cost == 1 + c1 + c2
    requires if first.outcome.Done? then Pure(first.l, r.l, bad) && first.splits - r.splits <= c2
             else r.l == first.l && r.splits == first.splits && (r.outcome.Undelivered? <==> first.outcome.Undelivered?)
    requires !first.outcome.Undelivered? && (first.outcome.Done? ==> !r.outcome.Undelivered?)
    ensures Pure(l, r.l, bad) && splits - r.splits <= cost && !r.outcome.Undelivered?
  {
    assert Pure(l, first.l, bad);
    if first.outcome.Done? { PureChain(l, first.l, r.l, bad); }
  }

  // At most `n` bad packets are queued, and none is to come.
  ghost predicate PoisonWithin(l: Ledger, bad: Arrival -> bool, n: nat) {
    |Keep(l.queue, bad, true)| <= n && forall x: Arrival :: x.no >= |l.arrived| ==> !bad(x)
  }

  lemma {:induction false} FittingAreGood(ps: seq<Arrival>, bad: Arrival -> bool)
    requires forall k :: 0 <= k < |ps| ==> !bad(ps[k])
    ensures Keep(Fitting(ps, true), bad, true) == []
  {
    if ps != [] {
      FittingAreGood(ps[1..], bad);
      KeepConcat(if ps[0].packet.fits then [ps[0]] else [], Fitting(ps[1..], true), bad, true);
    }
  }

  lemma CappedPoison(l: Ledger, maxQueue: nat, bad: Arrival -> bool, n: nat)
    requires PoisonWithin(l, bad, n)
    ensures PoisonWithin(Capped(l, maxQueue), bad, n)
  {
    var over := |l.queue| - maxQueue;
    if over > 0 {
      assert l.queue == l.queue[..over] + l.queue[over..];
      KeepConcat(l.queue[..over], l.queue[over..], bad, true);
    }
  }

  lemma AddedPoison(l: Ledger, maxQueue: nat, packets: seq<Packet>, bad: Arrival -> bool, n: nat)
    requires PoisonWithin(l, bad, n)
    ensures PoisonWithin(Added(l, maxQueue, packets), bad, n)
  {
    var all := Numbered(|l.arrived|, packets);
    FittingAreGood(all, bad);
    KeepConcat(l.queue, Fitting(all, true), bad, true);
    CappedPoison(Enqueued(l, all), maxQueue, bad, n);
  }

  lemma {:induction false} AllAddedPoison(
    l: Ledger, maxQueue: nat, batches: seq<seq<Packet>>, bad: Arrival -> bool, n: nat)
    requires PoisonWithin(l, bad, n)
    ensures PoisonWithin(AllAdded(l, maxQueue, batches), bad, n)
    decreases |batches|
  {
    if batches != [] {
      AddedPoison(l, maxQueue, batches[0], bad, n);
      AllAddedPoison(Added(l, maxQueue, batches[0]), maxQueue, batches[1..], bad, n);
    }
  }

  lemma PoisonStable(maxQueue: nat, bad: Arrival -> bool, n: nat)
    ensures SendStable((l: Ledger, flight: seq<Arrival>) => PoisonWithin(l, bad, n), maxQueue)
  {
    forall l, chunk, turn | PoisonWithin(l, bad, n) ensures PoisonWithin(Answered(l, maxQueue, chunk, turn), bad, n) {
      AllAddedPoison(Issued(l, chunk), maxQueue, turn.arrivals, bad, n);
    }
  }

  lemma {:induction false} TimesGrows(m: nat, n: nat, c: nat, d: nat)
    requires m <= n && c <= d
    ensures Times(m, c) <= Times(n, d) && Times(n, d) == Times(m, d) + Times(n - m, d)
    decreases n
  {
    if m < n { TimesGrows(m, n - 1, c, d); } else if m > 0 { TimesGrows(m - 1, n - 1, c, d); }
  }

  // The chunk a run takes off the queue holds some of the poison; the rest stays queued.
  lemma TakenPoison(l: Ledger, bad: Arrival -> bool, poison: nat, n: nat, chunk: seq<Arrival>)
    returns (here: nat, left: nat)
    requires n <= |l.queue| && chunk == l.queue[..n] && PoisonWithin(l, bad, poison)
    ensures here == |Keep(chunk, bad, true)| && here + left == poison && PoisonWithin(Taken(l, n), bad, left)
  {
    assert l.queue == l.queue[..n] + l.queue[n..];
    KeepConcat(l.queue[..n], l.queue[n..], bad, true);
    here := |Keep(chunk, bad, true)|;
    left := poison - here;
  }

  // It costs no more than its share of the budget, at c for each.
  lemma ChunkCost(here: nat, poison: nat, n: nat, max: nat, c: nat, cost: nat, splits: nat)
    requires here <= poison && n <= max && CeilLog2(max) <= c && cost == Times(here, c) && Times(poison, c) <= splits
    ensures SplitCost(here, n) <= cost <= splits
  {
    CeilLog2Monotone(n, max);
    TimesGrows(here, poison, c, c);
    TimesGrows(here, here, CeilLog2(n), c);
  }

  // What a chunk leaves of the budget is enough for the poison left.
  lemma BudgetLeft(poison: nat, here: nat, left: nat, c: nat, splits: nat, after: nat)
    requires here + left == poison && Times(poison, c) <= splits && splits - after <= Times(here, c)
    ensures Times(left, c) <= after
  {
    TimesGrows(here, poison, c, c);
    assert poison - here == left;
  }

  // A chunk whose bad packets cost no more than `cost` is sent purely.
  lemma ChunkSent(
    l: Ledger, l0: Ledger, maxQueue: nat, chunk: seq<Arrival>, splits: nat, turns: seq<Turn>, bad: Arrival -> bool,
    here: nat, cost: nat, sent: Sent)
    requires chunk != [] && RefusesExactly(turns, bad) && sent == SendSpec(l0, maxQueue, chunk, splits, turns)
    requires l0.accepted == l.accepted && l0.refused == l.refused
    requires here == |Keep(chunk, bad, true)| && SplitCost(here, |chunk|) <= cost <= splits
    ensures Pure(l, sent.l, bad) && !sent.outcome.Undelivered? && splits - sent.splits <= cost
  {
    SendIsPure(l0, maxQueue, chunk, splits, turns, bad, sent, Keep(chunk, bad, false), Keep(chunk, bad, true), cost);
  }

  // One chunk of a run: sent purely, within its share of the budget.
  lemma ChunkIsPure(
    l: Ledger, l0: Ledger, maxQueue: nat, max: nat, c: nat, chunk: seq<Arrival>, splits: nat, turns: seq<Turn>,
    bad: Arrival -> bool, poison: nat, here: nat, left: nat, sent: Sent)
    requires 0 < |chunk| <= max && CeilLog2(max) <= c && l0.accepted == l.accepted && l0.refused == l.refused
    requires RefusesExactly(turns, bad) && sent == SendSpec(l0, maxQueue, chunk, splits, turns)
    requires here == |Keep(chunk, bad, true)| && here + left == poison && Times(poison, c) <= splits
    ensures Pure(l, sent.l, bad) && !sent.outcome.Undelivered?
    ensures Times(left, c) <= sent.splits
  {
    var cost := Times(here, c);
    ChunkCost(here, poison, |chunk|, max, c, cost, splits);
    ChunkSent(l, l0, maxQueue, chunk, splits, turns, bad, here, cost, sent);
    BudgetLeft(poison, here, left, c, splits, sent.splits);
  }

  lemma SendKeepsPoison(
    l: Ledger, maxQueue: nat, chunk: seq<Arrival>, splits: nat, turns: seq<Turn>, bad: Arrival -> bool, n: nat, r: Sent)
    requires PoisonWithin(l, bad, n) && r == SendSpec(l, maxQueue, chunk, splits, turns)
    ensures PoisonWithin(r.l, bad, n)
  {
    var inv := (q: Ledger, flight: seq<Arrival>) => PoisonWithin(q, bad, n);
    PoisonStable(maxQueue, bad, n);
    SendKeeps(inv, l, maxQueue, chunk, [], splits, turns, r);
  }

  lemma {:induction false} RunIsPure(
    l: Ledger, maxQueue: nat, max: nat, c: nat, splits: nat, turns: seq<Turn>,
    bad: Arrival -> bool, poison: nat, r: Ran)
    requires max >= 1 && RefusesExactly(turns, bad) && PoisonWithin(l, bad, poison)
    requires CeilLog2(max) <= c && Times(poison, c) <= splits && r == RunSpec(l, maxQueue, max, splits, turns)
    ensures Pure(l, r.l, bad) && (r.flight == [] ==> r.l.queue == [])
    decreases |turns|
  {
    if l.queue != [] {
      var n := Min(max, |l.queue|);
      var l0, chunk := Taken(l, n), l.queue[..n];
      var sent := SendSpec(l0, maxQueue, chunk, splits, turns);
      var here, left := TakenPoison(l, bad, poison, n, chunk);
      ChunkIsPure(l, l0, maxQueue, max, c, chunk, splits, turns, bad, poison, here, left, sent);
      SendKeepsPoison(l0, maxQueue, chunk, splits, turns, bad, left, sent);
      SendTurns(l0, maxQueue, chunk, splits, turns, bad, sent);
      var _ := SendHolds(l0, maxQueue, chunk, splits, turns, sent);
      if sent.outcome.Done? {
        var more := RunSpec(sent.l, maxQueue, max, sent.splits, sent.turns);
        RunIsPure(sent.l, maxQueue, max, c, sent.splits, sent.turns, bad, left, more);
        PureChain(l, sent.l, r.l, bad);
      }
    }
  }

  // A whole flush, with good packets arriving all the while: when b bad packets are queued and
  // b * ceil(log2 max) is within the budget of 16, it accepts no bad packet and refuses no good one, and once
  // it ends the queue is empty.
  lemma FlushIsolatesPoison(l: Ledger, maxQueue: nat, max: nat, turns: seq<Turn>, bad: Arrival -> bool)
    requires max >= 1 && RefusesExactly(turns, bad)
    requires forall x: Arrival :: x.no >= |l.arrived| ==> !bad(x)
    requires |Keep(l.queue, bad, true)| * CeilLog2(max) <= SPLIT_BUDGET
    ensures var r := RunSpec(l, maxQueue, max, SPLIT_BUDGET, turns);
      && l.accepted <= r.l.accepted && l.refused <= r.l.refused
      && (forall k :: |l.accepted| <= k < |r.l.accepted| ==> !bad(r.l.accepted[k]))
      && (forall k :: |l.refused| <= k < |r.l.refused| ==> bad(r.l.refused[k]))
      && (r.flight == [] ==> r.l.queue == [])
  {
    var poison := |Keep(l.queue, bad, true)|;
    TimesIsProduct(poison, CeilLog2(max));
    var r := RunSpec(l, maxQueue, max, SPLIT_BUDGET, turns);
    RunIsPure(l, maxQueue, max, CeilLog2(max), SPLIT_BUDGET, turns, bad, poison, r);
  }

  // ---- the class -------------------------------------------------------------------------------------------

  class Delivery {
    const maxQueue: nat
    const maxBatch: nat
    var queue: seq<Arrival>
    var dropped: nat
    var running: bool
    // Arrival numbers handed out so far.
    var heard: nat
    ghost var history: Ledger
    // What a run suspended at its POST still holds.
    ghost var flight: seq<Arrival>

    ghost function Books(): Ledger
      reads this
    {
      history.(queue := queue, dropped := dropped)
    }

    ghost predicate Valid()
      reads this
    {
      heard == |history.arrived| && maxBatch >= 1
    }

    constructor (maxQueue: nat, maxBatch: int := INGEST_BATCH_MAX)
      ensures Valid() && !running && System(Books(), flight) == System(EMPTY, [])
      ensures this.maxQueue == maxQueue && this.maxBatch == if maxBatch < 1 then 1 else maxBatch
    {
      this.maxQueue := maxQueue;
      this.maxBatch := if maxBatch < 1 then 1 else maxBatch;
      queue, dropped, running, heard := [], 0, false, 0;
      history, flight := EMPTY, [];
    }

    method Cap()
      requires Valid()
      modifies `queue, `dropped, `history
      ensures Valid() && Books() == Capped(old(Books()), maxQueue)
    {
      var over := |queue| - maxQueue;
      if over <= 0 { return; }
      history := history.(overflow := history.overflow + queue[..over]);
      queue := queue[over..];
      dropped := dropped + over;
    }

    method Add(packets: seq<Packet>)
      requires Valid()
      modifies `queue, `dropped, `heard, `history
      ensures Valid() && Books() == Added(old(Books()), maxQueue, packets)
    {
      var all := Numbered(heard, packets);
      var ok := Fitting(all, true);
      FittingCounts(all);
      history := history.(arrived := history.arrived + all, misfits := history.misfits + Fitting(all, false));
      heard := heard + |packets|;
      if |ok| < |packets| {
        dropped := dropped + (|packets| - |ok|);
      }
      if |ok| == 0 {
        assert queue + ok == queue;
        return;
      }
      queue := queue + ok;
      assert Books() == Enqueued(old(Books()), all);
      Cap();
    }

    // One POST answered: what arrives while it is in flight is added, then the reply comes.
    method Post(chunk: seq<Arrival>, turn: Turn) returns (reply: Reply)
      requires Valid()
      modifies `queue, `dropped, `heard, `history
      ensures Valid() && Books() == Answered(old(Books()), maxQueue, chunk, turn) && reply == turn.reply(chunk)
    {
      history := Issued(history, chunk);
      for i := 0 to |turn.arrivals|
        invariant Valid()
        invariant AllAdded(Books(), maxQueue, turn.arrivals[i..]) ==
            AllAdded(Issued(old(Books()), chunk), maxQueue, turn.arrivals)
      {
        Add(turn.arrivals[i]);
        assert turn.arrivals[i..][1..] == turn.arrivals[i + 1..];
      }
      reply := turn.reply(chunk);
      history := history.(replies := history.replies + [reply]);
    }

    method Send(
      chunk: seq<Arrival>, splits: nat, turns: seq<Turn>) returns (result: Outcome, left: nat, later: seq<Turn>)
      requires Valid() && chunk != []
      modifies `queue, `dropped, `heard, `history
      ensures Valid() && Sent(Books(), result, left, later) == SendSpec(old(Books()), maxQueue, chunk, splits, turns)
      decreases |chunk|
    {
      if turns == [] {
        history := Issued(history, chunk);
        return Suspended(chunk), splits, [];
      }
      var reply := Post(chunk, turns[0]);
      if reply.Accepts() {
        history := Accept(history, chunk);
        return Done, splits, turns[1..];
      }
      if reply.Throws? || reply.status !in REFUSED {
        return Undelivered(chunk), splits, turns[1..];
      }
      if |chunk| == 1 || splits <= 0 {
        dropped := dropped + |chunk|;
        history := history.(refused := history.refused + chunk);
        return Done, splits, turns[1..];
      }
      var mid := (|chunk| + 1) / 2;
      assert mid == Mid(chunk) && Splits(turns[0], chunk, splits);
      result, left, later := Send(chunk[..mid], splits - 1, turns[1..]);
      if !result.Done? {
        return result.Before(chunk[mid..]), left, later;
      }
      result, left, later := Send(chunk[mid..], left, later);
    }

    method Requeue(packets: seq<Arrival>)
      requires Valid()
      modifies `queue, `dropped, `history
      ensures Valid() && Books() == Requeued(old(Books()), maxQueue, packets)
    {
      queue := packets + queue;
      Cap();
    }

    method Run(turns: seq<Turn>) returns (ended: bool)
      requires Valid() && flight == []
      modifies `queue, `dropped, `heard, `history, `flight
      ensures Valid() && ended == (flight == [])
      ensures var r := RunSpec(old(Books()), maxQueue, maxBatch, SPLIT_BUDGET, turns);
          System(Books(), flight) == System(r.l, r.flight)
    {
      var splits, rest := SPLIT_BUDGET, turns;
      while |queue| > 0
        invariant Valid() && flight == []
        invariant var r, s := RunSpec(old(Books()), maxQueue, maxBatch, SPLIT_BUDGET, turns),
            RunSpec(Books(), maxQueue, maxBatch, splits, rest);
          r.l == s.l && r.flight == s.flight
        decreases |rest|, |queue|
      {
        var n := Min(maxBatch, |queue|);
        var chunk := queue[..n];
        queue := queue[n..];
        var result;
        ghost var _ := SendHolds(Books(), maxQueue, chunk, splits, rest,
            SendSpec(Books(), maxQueue, chunk, splits, rest));
        result, splits, rest := Send(chunk, splits, rest);
        match result
        case Done =>
        case Undelivered(packets) => Requeue(packets); return true;
        case Suspended(packets) => flight := packets; return false;
      }
      return true;
    }

    // A flush already in progress is joined instead of started again.
    method Flush(turns: seq<Turn>)
      requires Valid() && running == (flight != [])
      modifies this
      ensures Valid() && running == (flight != [])
      ensures System(Books(), flight) == Step(old(System(Books(), flight)), maxQueue, maxBatch, Event.Flush(turns))
    {
      if running { return; }
      running := true;
      var ended := Run(turns);
      if ended { running := false; }
    }
  }
}
