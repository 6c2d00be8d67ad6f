// The soundcard port's transmit path (apps/ingest/src/soundcard.ts): the queue, the duty-cycle window and
// the gate that is asked again at the moment of keying.
//
// `drain` is one loop with an await in every turn; it is modelled as the phase it is suspended in, and each
// continuation as one step. Everything else (enqueue, stop, the gate's inputs changing) may happen between
// steps. Times are milliseconds of a clock that never goes back.

module SoundcardTx {

  const TX_QUEUE_MAX: nat := 16
  const TX_MAX_AGE_MS: real := 30000.0
  const DUTY_WINDOW_MS: real := 60000.0

  datatype Config = Config(tx: bool, pttMaxMs: real, persist: int, dutyPct: real) {
    function Budget(): real { dutyPct / 100.0 * DUTY_WINDOW_MS }
  }

  // `no` numbers the frames in the order they were queued; `addrs` stands for the frame's addresses.
  datatype Item = Item(no: nat, addrs: int, at: real)

  datatype Air = Air(at: real, ms: real)

  // A transmission: the frame, when it was granted, when key() was called and for how long, and what the
  // gate depended on at that instant.
  datatype Keyed = Keyed(item: Item, granted: real, air: Air, stopped: bool, gate: Gate)

  // What the gate depends on besides the port's own state: a fault, the PTT, capture, the master switch,
  // and the addresses the gateway confirms.
  datatype Gate = Gate(fault: bool, ptt: bool, captureUp: bool, master: bool, confirmed: set<int>)

  // Where the drain loop is suspended. Ended: the loop is over, its promise not yet cleared.
  datatype Phase =
    | Idle
    | Modulating(item: Item)
    | Waiting(item: Item, ms: real)
    | Granted(item: Item, ms: real, at: real)
    | OnAir(item: Item, air: Air)
    | Ended

  // Why a frame that was queued never went out.
  datatype Why = Overlong | Unmodulated | Stale | PortStopped | PortFaulted | GateClosed

  datatype Dropped = Dropped(item: Item, why: Why, at: real)

  // Every frame that was queued, and those given up.
  datatype Tally = Tally(arrived: seq<Item>, dropped: seq<Dropped>)

  datatype Port = Port(
    queue: seq<Item>, airtime: seq<Air>, phase: Phase, stopped: bool, gate: Gate,
    clock: real, queued: nat, pruned: real, keyed: seq<Keyed>, tally: Tally)

  datatype Event =
    | Enqueue(addrs: int)
    | Modulated(ms: real)
    | ModulateFails
    | Poll(dcd: bool, random: real)
    | Resume
    | Unkeyed
    | DrainCleared
    | Stop
    | Fault
    | GateChanges(gate: Gate)

  // ---- the operations --------------------------------------------------------------------------------

  // txRefusal found no reason to refuse a frame with these addresses.
  predicate TxOpen(c: Config, stopped: bool, gate: Gate, addrs: int) {
    c.tx && !stopped && !gate.fault && gate.ptt && gate.captureUp && gate.master && addrs in gate.confirmed
  }

  // The head of the drain loop.
  function LoopHead(p: Port): Port {
    if p.queue != [] && !p.stopped then p.(queue := p.queue[1..], phase := Modulating(p.queue[0]))
    else p.(phase := Ended)
  }

  function AllDropped(items: seq<Item>, why: Why, at: real): seq<Dropped> {
    seq(|items|, i requires 0 <= i < |items| => Dropped(items[i], why, at))
  }

  function Drop(p: Port, items: seq<Item>, why: Why): Port {
    p.(tally := p.tally.(dropped := p.tally.dropped + AllDropped(items, why, p.clock)))
  }

  function Enqueued(p: Port, c: Config, addrs: int): Port {
    if !TxOpen(c, p.stopped, p.gate, addrs) || |p.queue| >= TX_QUEUE_MAX then p
    else
      var item := Item(p.queued, addrs, p.clock);
      var q := p.(queue := p.queue + [item], queued := p.queued + 1,
                  tally := p.tally.(arrived := p.tally.arrived + [item]));
      if p.phase.Idle? then LoopHead(q) else q
  }

  function Recent(airtime: seq<Air>, now: real): seq<Air> {
    if airtime == [] then []
    else
      var init, last := airtime[..|airtime| - 1], airtime[|airtime| - 1];
      Recent(init, now) + if now - last.at < DUTY_WINDOW_MS then [last] else []
  }

  function Total(airtime: seq<Air>): real {
    if airtime == [] then 0.0 else Total(airtime[..|airtime| - 1]) + airtime[|airtime| - 1].ms
  }

  // One turn of waitToSend.
  function Polled(p: Port, c: Config, item: Item, ms: real, dcd: bool, random: real): Port {
    if p.stopped || p.clock - item.at > TX_MAX_AGE_MS
        then LoopHead(Drop(p, [item], if p.stopped then PortStopped else Stale))
    else
      var recent := Recent(p.airtime, p.clock);
      var q := p.(airtime := recent, pruned := p.clock);
      if Total(recent) + ms <= c.Budget() && !dcd && (random * 256.0).Floor <= c.persist
      then q.(phase := Granted(item, ms, p.clock)) else q
  }

  // The gate is asked again; when it is open, key() is called in the same breath.
  function Resumed(p: Port, c: Config, item: Item, ms: real, at: real): Port {
    if !TxOpen(c, p.stopped, p.gate, item.addrs)
        then Drop(p, [item] + p.queue, GateClosed).(queue := [], phase := Ended)
    else
      var air := Air(p.clock, ms);
      p.(phase := OnAir(item, air), keyed := p.keyed + [Keyed(item, at, air, p.stopped, p.gate)])
  }

  // What can happen in a state: a continuation only of what the drain is suspended in.
  predicate Possible(p: Port, e: Event) {
    match e
    case Modulated(ms) => p.phase.Modulating? && ms >= 0.0
    case ModulateFails => p.phase.Modulating?
    case Poll(_, random) => p.phase.Waiting?
    case Resume => p.phase.Granted?
    case Unkeyed => p.phase.OnAir?
    case DrainCleared => p.phase.Ended?
    case _ => true
  }

  function Step(p: Port, c: Config, e: Event): Port
    requires Possible(p, e)
  {
    match e
    case Enqueue(addrs) => Enqueued(p, c, addrs)
    case Modulated(ms) =>
      if ms >= c.pttMaxMs then LoopHead(Drop(p, [p.phase.item], Overlong)) else p.(phase := Waiting(p.phase.item, ms))
    case ModulateFails => LoopHead(Drop(p, [p.phase.item], Unmodulated))
    case Poll(dcd, random) => Polled(p, c, p.phase.item, p.phase.ms, dcd, random)
    case Resume => Resumed(p, c, p.phase.item, p.phase.ms, p.phase.at)
    case Unkeyed => LoopHead(p.(airtime := p.airtime + [p.phase.air]))
    case DrainCleared => p.(phase := Idle)
    case Stop => Drop(p, p.queue, PortStopped).(stopped := true, queue := [])
    // The watchdog's fault lasts until the process restarts; the gate's other inputs change at any time.
    case Fault => Drop(p, p.queue, PortFaulted).(gate := p.gate.(fault := true), queue := [])
    case GateChanges(gate) => p.(gate := gate.(fault := gate.fault || p.gate.fault))
  }

  // ---- the duty cycle ------------------------------------------------------------------------------

  function Airs(keyed: seq<Keyed>): seq<Air> {
    if keyed == [] then [] else Airs(keyed[..|keyed| - 1]) + [keyed[|keyed| - 1].air]
  }

  // The airtime of the transmissions started in [from, from + 60 s).
  function WindowTotal(airs: seq<Air>, from: real): real {
    if airs == [] then 0.0
    else
      var last := airs[|airs| - 1];
      WindowTotal(airs[..|airs| - 1], from) + if from <= last.at < from + 60000.0 then last.ms else 0.0
  }

  // At every start, that transmission and those started in the 60 s before it were within the budget.
  ghost predicate WithinBudget(airs: seq<Air>, budget: real) {
    airs == [] || (WithinBudget(airs[..|airs| - 1], budget) && Total(Recent(airs, airs[|airs| - 1].at)) <= budget)
  }

  ghost predicate NonNegative(airs: seq<Air>) {
    forall k :: 0 <= k < |airs| ==> airs[k].ms >= 0.0
  }

  lemma RecentAppend(airs: seq<Air>, a: Air, now: real)
    ensures Recent(airs + [a], now) == Recent(airs, now) + if now - a.at < DUTY_WINDOW_MS then [a] else []
  {
    assert (airs + [a])[..|airs|] == airs;
  }

  lemma TotalAppend(airs: seq<Air>, a: Air)
    ensures Total(airs + [a]) == Total(airs) + a.ms
  {
    assert (airs + [a])[..|airs|] == airs;
  }

  // Pruning at an earlier time loses nothing a later look needs.
  lemma {:induction false} RecentTwice(airs: seq<Air>, t: real, now: real)
    requires t <= now
    ensures Recent(Recent(airs, t), now) == Recent(airs, now)
  {
    if airs != [] {
      var init, last := airs[..|airs| - 1], airs[|airs| - 1];
      RecentTwice(init, t, now);
      RecentAppend(Recent(init, t), last, now);
      Nothing(Recent(init, t));
    }
  }

  // One transmission more adds its airtime to the recent total while it is recent.
  lemma RecentTotal(init: seq<Air>, last: Air, now: real, airs: seq<Air>, before: real, after: real)
    requires airs == init + [last] && before == Total(Recent(init, now)) && after == Total(Recent(airs, now))
    ensures after == before + if now - last.at < DUTY_WINDOW_MS then last.ms else 0.0
  {
    RecentAppend(init, last, now);
    TotalAppend(Recent(init, now), last);
    Nothing(Recent(init, now));
  }

  lemma LastApart(airs: seq<Air>, init: seq<Air>, last: Air)
    requires airs != [] && init == airs[..|airs| - 1] && last == airs[|airs| - 1]
    ensures airs == init + [last] && (NonNegative(airs) ==> NonNegative(init) && last.ms >= 0.0)
  {
  }

  lemma Nothing(airs: seq<Air>)
    ensures airs + [] == airs
  {
  }

  // As time passes, less of the past is recent.
  lemma {:induction false} RecentShrinks(airs: seq<Air>, t: real, now: real, past: real, left: real)
    requires t <= now && NonNegative(airs) && past == Total(Recent(airs, t)) && left == Total(Recent(airs, now))
    ensures 0.0 <= left <= past
    decreases |airs|
  {
    if airs != [] {
      var init, last := airs[..|airs| - 1], airs[|airs| - 1];
      var p, l := Total(Recent(init, t)), Total(Recent(init, now));
      LastApart(airs, init, last);
      RecentShrinks(init, t, now, p, l);
      RecentTotal(init, last, t, airs, p, past);
      RecentTotal(init, last, now, airs, l, left);
    }
  }

  // Everything in a window that reaches up to `now` counts as recent at `now`.
  lemma {:induction false} WindowIsRecent(airs: seq<Air>, from: real, now: real, recent: real)
    requires NonNegative(airs) && from <= now < from + DUTY_WINDOW_MS && recent == Total(Recent(airs, now))
    ensures WindowTotal(airs, from) <= recent
    decreases |airs|
  {
    if airs != [] {
      var init, last := airs[..|airs| - 1], airs[|airs| - 1];
      var r := Total(Recent(init, now));
      LastApart(airs, init, last);
      WindowIsRecent(init, from, now, r);
      RecentTotal(init, last, now, airs, r, recent);
    }
  }

  lemma {:induction false} EveryWindowWithinBudget(airs: seq<Air>, budget: real, from: real)
    requires WithinBudget(airs, budget) && NonNegative(airs) && budget >= 0.0
    ensures WindowTotal(airs, from) <= budget
  {
    if airs != [] {
      var last := airs[|airs| - 1];
      EveryWindowWithinBudget(airs[..|airs| - 1], budget, from);
      if from <= last.at < from + DUTY_WINDOW_MS { WindowIsRecent(airs, from, last.at, Total(Recent(airs, last.at))); }
    }
  }

  // ---- what every run keeps ---------------------------------------------------------------------------

  // The item in the drain's hands, if any, as far as it is not on the air yet.
  function InHand(ph: Phase): seq<Item> {
    if ph.Modulating? || ph.Waiting? || ph.Granted? then [ph.item] else []
  }

  function Items(keyed: seq<Keyed>): seq<Item> {
    if keyed == [] then [] else Items(keyed[..|keyed| - 1]) + [keyed[|keyed| - 1].item]
  }

  ghost predicate Increasing(items: seq<Item>) {
    forall i, j :: 0 <= i < j < |items| ==> items[i].no < items[j].no
  }

  // Those keyed, in hand and queued are in order, and below the number of those that came.
  ghost predicate InLine(keyed: seq<Item>, hand: seq<Item>, queue: seq<Item>, bound: nat) {
    var line := keyed + hand + queue;
    Increasing(line) && forall k :: 0 <= k < |line| ==> line[k].no < bound
  }

  // Frames are keyed, held and queued in the order they came.
  ghost predicate Fifo(p: Port) {
    InLine(Items(p.keyed), InHand(p.phase), p.queue, p.queued)
  }

  // A frame was keyed with transmit on, the port neither stopped nor faulted, PTT, capture and the master switch
  // on and its addresses confirmed; at most 30 s after it was queued, and for less than the PTT watchdog.
  ghost predicate KeyedOk(k: Keyed, c: Config) {
    && c.tx && !k.stopped && !k.gate.fault && k.gate.ptt && k.gate.captureUp && k.gate.master
    && k.item.addrs in k.gate.confirmed
    && k.granted - k.item.at <= 30000.0 && k.granted <= k.air.at && k.air.ms < c.pttMaxMs
  }

  // The transmissions whose airtime has been accounted: all but the one on the air.
  function Accounted(p: Port): seq<Air> {
    var airs := Airs(p.keyed);
    if p.phase.OnAir? && airs != [] then airs[..|airs| - 1] else airs
  }

  ghost predicate Duty(p: Port, c: Config) {
    && p.pruned <= p.clock
    && p.airtime == Recent(Accounted(p), p.pruned)
    && NonNegative(Airs(p.keyed)) && WithinBudget(Airs(p.keyed), c.Budget())
    && (p.phase.Waiting? ==> p.phase.ms >= 0.0)
    && (p.phase.OnAir? ==> p.keyed != [] && p.phase.air == p.keyed[|p.keyed| - 1].air && p.pruned <= p.phase.air.at)
    && (p.phase.Granted? ==> p.phase.ms >= 0.0 && p.phase.at == p.pruned && Total(p.airtime) + p.phase.ms <= c.Budget())
  }

  ghost predicate Gated(p: Port, c: Config) {
    && |p.queue| <= 16
    && (forall k :: 0 <= k < |p.keyed| ==> KeyedOk(p.keyed[k], c))
    && (p.phase.Waiting? || p.phase.Granted? ==> p.phase.ms < c.pttMaxMs)
    && (p.phase.Granted? ==> p.phase.at - p.phase.item.at <= 30000.0 && p.phase.at <= p.clock)
  }

  ghost predicate Inv(p: Port, c: Config) {
    Fifo(p) && Duty(p, c) && Gated(p, c)
  }

  lemma ItemsAppend(keyed: seq<Keyed>, k: Keyed)
    ensures Items(keyed + [k]) == Items(keyed) + [k.item]
  {
    assert (keyed + [k])[..|keyed|] == keyed;
  }

  lemma {:induction false} AirsOf(keyed: seq<Keyed>)
    ensures |Airs(keyed)| == |keyed| && forall k :: 0 <= k < |keyed| ==> Airs(keyed)[k] == keyed[k].air
  {
    if keyed != [] { AirsOf(keyed[..|keyed| - 1]); }
  }

  // ---- order

  // Giving up what is in hand, or all of the queue, keeps the order.
  lemma CutKeepsOrder(a: seq<Item>, cut: seq<Item>, b: seq<Item>, bound: nat)
    requires InLine(a, cut, b, bound)
    ensures InLine(a, [], b, bound) && InLine(a, cut, [], bound) && InLine(a, [], [], bound)
  {
    var whole, short := a + cut + b, a + [] + b;
    assert forall i :: 0 <= i < |short| ==> short[i] == whole[if i < |a| then i else i + |cut|];
    assert forall i :: 0 <= i < |a + cut + []| ==> (a + cut + [])[i] == whole[i];
    assert forall i :: 0 <= i < |a + [] + []| ==> (a + [] + [])[i] == whole[i];
  }

  lemma HandIsKeyed(a: seq<Item>, x: Item, b: seq<Item>, bound: nat)
    requires InLine(a, [x], b, bound)
    ensures InLine(a + [x], [], b, bound)
  {
    assert (a + [x]) + [] + b == a + [x] + b;
  }

  lemma HeadIsTaken(a: seq<Item>, b: seq<Item>, bound: nat)
    requires InLine(a, [], b, bound) && b != []
    ensures InLine(a, [b[0]], b[1..], bound)
  {
    assert a + [b[0]] + b[1..] == a + [] + b;
  }

  lemma NewestIsLast(a: seq<Item>, h: seq<Item>, b: seq<Item>, x: Item)
    requires InLine(a, h, b, x.no)
    ensures InLine(a, h, b + [x], x.no + 1)
  {
    assert a + h + (b + [x]) == (a + h + b) + [x];
  }

  lemma LoopHeadFifo(p: Port)
    requires InLine(Items(p.keyed), [], p.queue, p.queued)
    ensures Fifo(LoopHead(p))
  {
    if p.queue != [] { HeadIsTaken(Items(p.keyed), p.queue, p.queued); }
  }

  lemma EnqueuedFifo(p: Port, c: Config, addrs: int, r: Port)
    requires Fifo(p) && r == Enqueued(p, c, addrs)
    ensures Fifo(r)
  {
    var item := Item(p.queued, addrs, p.clock);
    var q := p.(queue := p.queue + [item], queued := p.queued + 1,
                tally := p.tally.(arrived := p.tally.arrived + [item]));
    NewestIsLast(Items(p.keyed), InHand(p.phase), p.queue, item);
    if p.phase.Idle? { LoopHeadFifo(q); }
  }

  lemma DroppedFifo(p: Port, why: Why, q: Port)
    requires Fifo(p) && InHand(p.phase) != [] && q == LoopHead(Drop(p, [p.phase.item], why))
    ensures Fifo(q)
  {
    CutKeepsOrder(Items(p.keyed), InHand(p.phase), p.queue, p.queued);
    LoopHeadFifo(Drop(p, [p.phase.item], why));
  }

  lemma PolledFifo(p: Port, c: Config, dcd: bool, random: real, q: Port)
    requires Fifo(p) && p.phase.Waiting? && q == Polled(p, c, p.phase.item, p.phase.ms, dcd, random)
    ensures Fifo(q)
  {
    if p.stopped || p.clock - p.phase.item.at > TX_MAX_AGE_MS {
      DroppedFifo(p, if p.stopped then PortStopped else Stale, q);
    } else {
      UntouchedFifo(p, q);
    }
  }

  lemma UntouchedFifo(p: Port, q: Port)
    requires Fifo(p) && q.keyed == p.keyed && InHand(q.phase) == InHand(p.phase)
        && q.queue == p.queue && q.queued == p.queued
    ensures Fifo(q)
  {
  }

  lemma QueueClearedFifo(p: Port, q: Port)
    requires Fifo(p) && q.keyed == p.keyed && q.queue == [] && q.queued == p.queued
    requires InHand(q.phase) == InHand(p.phase) || InHand(q.phase) == []
    ensures Fifo(q)
  {
    CutKeepsOrder(Items(p.keyed), InHand(p.phase), p.queue, p.queued);
  }

  lemma KeyedFifo(p: Port, k: Keyed, q: Port)
    requires Fifo(p) && InHand(p.phase) == [k.item] && InHand(q.phase) == []
    requires q.keyed == p.keyed + [k] && q.queue == p.queue && q.queued == p.queued
    ensures Fifo(q)
  {
    ItemsAppend(p.keyed, k);
    HandIsKeyed(Items(p.keyed), k.item, p.queue, p.queued);
  }

  lemma ResumedFifo(p: Port, c: Config, q: Port)
    requires Fifo(p) && p.phase.Granted? && q == Resumed(p, c, p.phase.item, p.phase.ms, p.phase.at)
    ensures Fifo(q)
  {
    if q.phase.OnAir? { KeyedFifo(p, q.keyed[|p.keyed|], q); } else { QueueClearedFifo(p, q); }
  }

  lemma StepFifo(p: Port, c: Config, e: Event, q: Port)
    requires Fifo(p) && Possible(p, e) && q == Step(p, c, e)
    ensures Fifo(q)
  {
    match e
    case Enqueue(addrs) => EnqueuedFifo(p, c, addrs, q);
    case Modulated(ms) => if ms >= c.pttMaxMs { DroppedFifo(p, Overlong, q); } else { UntouchedFifo(p, q); }
    case ModulateFails => DroppedFifo(p, Unmodulated, q);
    case Poll(dcd, random) => PolledFifo(p, c, dcd, random, q);
    case Resume => ResumedFifo(p, c, q);
    case Unkeyed => LoopHeadFifo(p.(airtime := p.airtime + [p.phase.air]));
    case DrainCleared => UntouchedFifo(p, q);
    case Stop => QueueClearedFifo(p, q);
    case Fault => QueueClearedFifo(p, q);
    case GateChanges(gate) => UntouchedFifo(p, q);
  }

  // ---- the duty cycle, step by step

  // Going idle, or on to the next frame, touches no airtime.
  lemma LoopHeadDuty(p: Port, c: Config, q: Port)
    requires Duty(p, c) && !p.phase.OnAir? && q == LoopHead(p)
    ensures Duty(q, c)
  {
    assert Accounted(q) == Accounted(p);
  }

  // Giving up the frame in hand and going on, likewise.
  lemma DroppedDuty(p: Port, c: Config, why: Why, q: Port)
    requires Duty(p, c) && InHand(p.phase) != [] && q == LoopHead(Drop(p, [p.phase.item], why))
    ensures Duty(q, c)
  {
    var r := Drop(p, [p.phase.item], why);
    UntouchedDuty(p, c, r);
    LoopHeadDuty(r, c, q);
  }

  // Pruning keeps what a later look needs.
  lemma PrunedDuty(p: Port, c: Config, q: Port)
    requires Duty(p, c) && p.phase.Waiting? && q == p.(airtime := Recent(p.airtime, p.clock), pruned := p.clock)
    ensures Duty(q, c)
  {
    RecentTwice(Accounted(p), p.pruned, p.clock);
  }

  lemma GrantedDuty(p: Port, c: Config, q: Port)
    requires Duty(p, c) && p.phase.Waiting? && p.pruned == p.clock && Total(p.airtime) + p.phase.ms <= c.Budget()
    requires q == p.(phase := Granted(p.phase.item, p.phase.ms, p.clock))
    ensures Duty(q, c)
  {
  }

  lemma PolledDuty(p: Port, c: Config, dcd: bool, random: real, r: Port)
    requires Duty(p, c) && p.phase.Waiting? && r == Polled(p, c, p.phase.item, p.phase.ms, dcd, random)
    ensures Duty(r, c)
  {
    if p.stopped || p.clock - p.phase.item.at > TX_MAX_AGE_MS {
      DroppedDuty(p, c, if p.stopped then PortStopped else Stale, r);
    } else {
      var q := p.(airtime := Recent(p.airtime, p.clock), pruned := p.clock);
      PrunedDuty(p, c, q);
      if r != q { GrantedDuty(q, c, r); }
    }
  }

  // A start within the budget at the grant is within it at the start.
  lemma StartWithinBudget(airs: seq<Air>, granted: real, now: real, ms: real, budget: real)
    requires NonNegative(airs) && ms >= 0.0 && granted <= now && WithinBudget(airs, budget)
    requires Total(Recent(airs, granted)) + ms <= budget
    ensures WithinBudget(airs + [Air(now, ms)], budget)
  {
    var a := Air(now, ms);
    RecentShrinks(airs, granted, now, Total(Recent(airs, granted)), Total(Recent(airs, now)));
    RecentAppend(airs, a, now);
    TotalAppend(Recent(airs, now), a);
    assert (airs + [a])[..|airs|] == airs;
  }

  lemma AirsAppend(keyed: seq<Keyed>, k: Keyed)
    ensures Airs(keyed + [k]) == Airs(keyed) + [k.air] && Airs(keyed + [k])[..|Airs(keyed)|] == Airs(keyed)
  {
    assert (keyed + [k])[..|keyed|] == keyed;
  }

  lemma StartedDuty(p: Port, c: Config, k: Keyed, q: Port)
    requires Duty(p, c) && p.phase.Granted? && k.air == Air(p.clock, p.phase.ms)
    requires q == p.(phase := OnAir(p.phase.item, k.air), keyed := p.keyed + [k])
    ensures Duty(q, c)
  {
    var airs := Airs(p.keyed);
    AirsAppend(p.keyed, k);
    assert Accounted(p) == airs && Accounted(q) == airs;
    assert WithinBudget(airs + [k.air], c.Budget()) by {
      StartWithinBudget(airs, p.pruned, p.clock, p.phase.ms, c.Budget());
    }
  }

  lemma ResumedDuty(p: Port, c: Config, q: Port)
    requires Duty(p, c) && p.phase.Granted? && q == Resumed(p, c, p.phase.item, p.phase.ms, p.phase.at)
    ensures Duty(q, c)
  {
    if q.phase.OnAir? {
      StartedDuty(p, c, q.keyed[|p.keyed|], q);
    } else {
      var r := p.(queue := [], tally := q.tally);
      UntouchedDuty(p, c, r);
      LoopHeadDuty(r, c, q);
    }
  }

  // The transmission that ended joins the accounted ones.
  lemma AccountedDuty(p: Port, c: Config, q: Port)
    requires Duty(p, c) && p.phase.OnAir? && q == p.(airtime := p.airtime + [p.phase.air], phase := Ended)
    ensures Duty(q, c)
  {
    var airs, air := Airs(p.keyed), p.phase.air;
    AirsOf(p.keyed);
    assert airs == airs[..|airs| - 1] + [air];
    RecentAppend(airs[..|airs| - 1], air, p.pruned);
  }

  lemma UnkeyedDuty(p: Port, c: Config, r: Port)
    requires Duty(p, c) && p.phase.OnAir? && r == LoopHead(p.(airtime := p.airtime + [p.phase.air]))
    ensures Duty(r, c)
  {
    var q := p.(airtime := p.airtime + [p.phase.air], phase := Ended);
    AccountedDuty(p, c, q);
    LoopHeadDuty(q, c, r);
  }

  lemma EnqueuedDuty(p: Port, c: Config, addrs: int, r: Port)
    requires Duty(p, c) && r == Enqueued(p, c, addrs)
    ensures Duty(r, c)
  {
    if r != p {
      var item := Item(p.queued, addrs, p.clock);
      var q := p.(queue := p.queue + [item], queued := p.queued + 1,
                  tally := p.tally.(arrived := p.tally.arrived + [item]));
      UntouchedDuty(p, c, q);
      if p.phase.Idle? { LoopHeadDuty(q, c, r); }
    }
  }

  lemma ModulatedDuty(p: Port, c: Config, ms: real)
    requires Duty(p, c) && p.phase.Modulating? && ms >= 0.0
    ensures Duty(p.(phase := Waiting(p.phase.item, ms)), c)
  {
  }

  // Steps that leave the airtime and the phase alone, or end the drain.
  lemma UntouchedDuty(p: Port, c: Config, q: Port)
    requires Duty(p, c) && q.airtime == p.airtime && q.keyed == p.keyed && q.pruned == p.pruned && q.pruned <= q.clock
    requires q.phase == p.phase || (q.phase.Idle? && !p.phase.OnAir?)
    ensures Duty(q, c)
  {
    assert Accounted(q) == Accounted(p);
  }

  lemma StepDuty(p: Port, c: Config, e: Event, q: Port)
    requires Duty(p, c) && Possible(p, e) && q == Step(p, c, e)
    ensures Duty(q, c)
  {
    match e
    case Enqueue(addrs) => EnqueuedDuty(p, c, addrs, q);
    case Modulated(ms) => if ms >= c.pttMaxMs { DroppedDuty(p, c, Overlong, q); } else { ModulatedDuty(p, c, ms); }
    case ModulateFails => DroppedDuty(p, c, Unmodulated, q);
    case Poll(dcd, random) => PolledDuty(p, c, dcd, random, q);
    case Resume => ResumedDuty(p, c, q);
    case Unkeyed => UnkeyedDuty(p, c, q);
    case DrainCleared => UntouchedDuty(p, c, q);
    case Stop => UntouchedDuty(p, c, q);
    case Fault => UntouchedDuty(p, c, q);
    case GateChanges(gate) => UntouchedDuty(p, c, q);
  }

  lemma StepGated(p: Port, c: Config, e: Event, q: Port)
    requires Gated(p, c) && Possible(p, e) && q == Step(p, c, e)
    ensures Gated(q, c)
  {
  }

  lemma StepKeepsInv(p: Port, c: Config, e: Event, q: Port)
    requires Inv(p, c) && Possible(p, e) && q == Step(p, c, e)
    ensures Inv(q, c)
  {
    assert Fifo(q) by { StepFifo(p, c, e, q); }
    assert Duty(q, c) by { StepDuty(p, c, e, q); }
    assert Gated(q, c) by { StepGated(p, c, e, q); }
  }

  // ---- every run -------------------------------------------------------------------------------------

  // An event and the time that has passed since the one before.
  datatype Timed = Timed(wait: real, e: Event)

  function Later(p: Port, wait: real): Port { p.(clock := p.clock + wait) }

  predicate PossibleRun(p: Port, c: Config, run: seq<Timed>)
    decreases |run|
  {
    run == [] || (run[0].wait >= 0.0 && Possible(p, run[0].e)
        && PossibleRun(Step(Later(p, run[0].wait), c, run[0].e), c, run[1..]))
  }

  function Steps(p: Port, c: Config, run: seq<Timed>): Port
    requires PossibleRun(p, c, run)
    decreases |run|
  {
    if run == [] then p else Steps(Step(Later(p, run[0].wait), c, run[0].e), c, run[1..])
  }

  lemma LaterKeepsInv(p: Port, c: Config, later: Port)
    requires Inv(p, c) && later == p.(clock := later.clock) && p.clock <= later.clock
    ensures Inv(later, c)
  {
    UntouchedDuty(p, c, later);
  }

  lemma {:induction false} EveryRunKeepsInv(p: Port, c: Config, run: seq<Timed>)
    requires Inv(p, c) && PossibleRun(p, c, run)
    ensures Inv(Steps(p, c, run), c)
    decreases |run|
  {
    if run != [] {
      var later := Later(p, run[0].wait);
      LaterKeepsInv(p, c, later);
      var q := Step(later, c, run[0].e);
      StepKeepsInv(later, c, run[0].e, q);
      EveryRunKeepsInv(q, c, run[1..]);
    }
  }

  // ---- no frame is forgotten -------------------------------------------------------------------------

  function Fallen(dropped: seq<Dropped>): seq<Item> {
    seq(|dropped|, i requires 0 <= i < |dropped| => dropped[i].item)
  }

  // Everything that arrived is keyed, in hand, queued, or given up.
  ghost predicate Balanced(arrived: seq<Item>, keyed: seq<Item>, hand: seq<Item>, queue: seq<Item>, fallen: seq<Item>) {
    multiset(arrived) == multiset(keyed) + multiset(hand) + multiset(queue) + multiset(fallen)
  }

  predicate DropOk(d: Dropped) { d.why.Stale? ==> d.at - d.item.at > 30000.0 }

  ghost predicate FramesAccounted(p: Port) {
    && Balanced(p.tally.arrived, Items(p.keyed), InHand(p.phase), p.queue, Fallen(p.tally.dropped))
    && (forall k :: 0 <= k < |p.tally.dropped| ==> DropOk(p.tally.dropped[k]))
  }

  lemma FallenAdds(dropped: seq<Dropped>, items: seq<Item>, why: Why, at: real)
    ensures Fallen(dropped + AllDropped(items, why, at)) == Fallen(dropped) + items
  {
  }

  lemma HandFalls(a: seq<Item>, k: seq<Item>, x: Item, q: seq<Item>, f: seq<Item>)
    requires Balanced(a, k, [x], q, f)
    ensures Balanced(a, k, [], q, f + [x]) && Balanced(a, k, [], [], f + ([x] + q)) && Balanced(a, k + [x], [], q, f)
  {
    assert f + ([x] + q) == (f + [x]) + q;
  }

  lemma QueueFalls(a: seq<Item>, k: seq<Item>, h: seq<Item>, q: seq<Item>, f: seq<Item>)
    requires Balanced(a, k, h, q, f)
    ensures Balanced(a, k, h, [], f + q)
  {
  }

  lemma Arrives(a: seq<Item>, k: seq<Item>, h: seq<Item>, q: seq<Item>, f: seq<Item>, x: Item)
    requires Balanced(a, k, h, q, f)
    ensures Balanced(a + [x], k, h, q + [x], f)
  {
  }

  lemma NextTaken(a: seq<Item>, k: seq<Item>, q: seq<Item>, f: seq<Item>)
    requires Balanced(a, k, [], q, f) && q != []
    ensures Balanced(a, k, [q[0]], q[1..], f)
  {
    assert q == [q[0]] + q[1..];
  }

  lemma LoopHeadAccounts(p: Port)
    requires Balanced(p.tally.arrived, Items(p.keyed), [], p.queue, Fallen(p.tally.dropped))
    requires forall k :: 0 <= k < |p.tally.dropped| ==> DropOk(p.tally.dropped[k])
    ensures FramesAccounted(LoopHead(p))
  {
    if p.queue != [] { NextTaken(p.tally.arrived, Items(p.keyed), p.queue, Fallen(p.tally.dropped)); }
  }

  // What is in hand is given up, and the loop goes on.
  lemma DroppedAccounts(p: Port, why: Why, q: Port)
    requires FramesAccounted(p) && InHand(p.phase) != [] && (why.Stale? ==> p.clock - p.phase.item.at > TX_MAX_AGE_MS)
    requires q == LoopHead(Drop(p, [p.phase.item], why))
    ensures FramesAccounted(q)
  {
    FallenAdds(p.tally.dropped, [p.phase.item], why, p.clock);
    HandFalls(p.tally.arrived, Items(p.keyed), p.phase.item, p.queue, Fallen(p.tally.dropped));
    LoopHeadAccounts(Drop(p, [p.phase.item], why));
  }

  lemma EnqueuedAccounts(p: Port, c: Config, addrs: int, r: Port)
    requires FramesAccounted(p) && r == Enqueued(p, c, addrs)
    ensures FramesAccounted(r)
  {
    var item := Item(p.queued, addrs, p.clock);
    var q := p.(queue := p.queue + [item], queued := p.queued + 1,
                tally := p.tally.(arrived := p.tally.arrived + [item]));
    Arrives(p.tally.arrived, Items(p.keyed), InHand(p.phase), p.queue, Fallen(p.tally.dropped), item);
    if p.phase.Idle? { LoopHeadAccounts(q); }
  }

  lemma KeyedAccounts(p: Port, k: Keyed, q: Port)
    requires FramesAccounted(p) && InHand(p.phase) == [k.item] && InHand(q.phase) == []
    requires q == p.(phase := q.phase, keyed := p.keyed + [k])
    ensures FramesAccounted(q)
  {
    ItemsAppend(p.keyed, k);
    HandFalls(p.tally.arrived, Items(p.keyed), k.item, p.queue, Fallen(p.tally.dropped));
  }

  lemma ClosedAccounts(p: Port, x: Item, q: Port)
    requires FramesAccounted(p) && InHand(p.phase) == [x] && InHand(q.phase) == []
    requires q == Drop(p, [x] + p.queue, GateClosed).(queue := [], phase := q.phase)
    ensures FramesAccounted(q)
  {
    FallenAdds(p.tally.dropped, [x] + p.queue, GateClosed, p.clock);
    HandFalls(p.tally.arrived, Items(p.keyed), x, p.queue, Fallen(p.tally.dropped));
  }

  lemma ClearedAccounts(p: Port, why: Why, q: Port)
    requires FramesAccounted(p) && !why.Stale?
    requires q == Drop(p, p.queue, why).(stopped := q.stopped, gate := q.gate, queue := [])
    ensures FramesAccounted(q)
  {
    FallenAdds(p.tally.dropped, p.queue, why, p.clock);
    QueueFalls(p.tally.arrived, Items(p.keyed), InHand(p.phase), p.queue, Fallen(p.tally.dropped));
  }

  lemma ResumedAccounts(p: Port, c: Config, q: Port)
    requires FramesAccounted(p) && p.phase.Granted? && q == Resumed(p, c, p.phase.item, p.phase.ms, p.phase.at)
    ensures FramesAccounted(q)
  {
    if q.phase.OnAir? { KeyedAccounts(p, q.keyed[|p.keyed|], q); } else { ClosedAccounts(p, p.phase.item, q); }
  }

  lemma PolledAccounts(p: Port, c: Config, dcd: bool, random: real, q: Port)
    requires FramesAccounted(p) && p.phase.Waiting? && q == Polled(p, c, p.phase.item, p.phase.ms, dcd, random)
    ensures FramesAccounted(q)
  {
    if p.stopped || p.clock - p.phase.item.at > TX_MAX_AGE_MS {
      DroppedAccounts(p, if p.stopped then PortStopped else Stale, q);
    } else {
      SameFrames(p, q);
    }
  }

  lemma SameFrames(p: Port, q: Port)
    requires FramesAccounted(p)
    requires q.tally == p.tally && q.keyed == p.keyed && InHand(q.phase) == InHand(p.phase) && q.queue == p.queue
    ensures FramesAccounted(q)
  {
  }

  lemma ModulatedAccounts(p: Port, c: Config, ms: real, q: Port)
    requires FramesAccounted(p) && p.phase.Modulating? && ms >= 0.0 && q == Step(p, c, Modulated(ms))
    ensures FramesAccounted(q)
  {
    if ms >= c.pttMaxMs { DroppedAccounts(p, Overlong, q); } else { SameFrames(p, q); }
  }

  lemma UnkeyedAccounts(p: Port, q: Port)
    requires FramesAccounted(p) && p.phase.OnAir? && q == LoopHead(p.(airtime := p.airtime + [p.phase.air]))
    ensures FramesAccounted(q)
  {
    LoopHeadAccounts(p.(airtime := p.airtime + [p.phase.air]));
  }

  lemma StepAccounts(p: Port, c: Config, e: Event, q: Port)
    requires FramesAccounted(p) && Possible(p, e) && q == Step(p, c, e)
    ensures FramesAccounted(q)
  {
    match e
    case Enqueue(addrs) => EnqueuedAccounts(p, c, addrs, q);
    case Modulated(ms) => ModulatedAccounts(p, c, ms, q);
    case ModulateFails => DroppedAccounts(p, Unmodulated, q);
    case Poll(dcd, random) => PolledAccounts(p, c, dcd, random, q);
    case Resume => ResumedAccounts(p, c, q);
    case Unkeyed => UnkeyedAccounts(p, q);
    case DrainCleared => SameFrames(p, q);
    case Stop => ClearedAccounts(p, PortStopped, q);
    case Fault => ClearedAccounts(p, PortFaulted, q);
    case GateChanges(_) => SameFrames(p, q);
  }

  // The frames queued, each with its own number.
  ghost predicate Numbered(p: Port) {
    |p.tally.arrived| == p.queued && forall k :: 0 <= k < |p.tally.arrived| ==> p.tally.arrived[k].no == k
  }

  lemma StepNumbers(p: Port, c: Config, e: Event)
    requires Numbered(p) && Possible(p, e)
    ensures Numbered(Step(p, c, e))
  {
  }

  // `inv` survives every step and the passing of time.
  ghost predicate Stable(inv: Port -> bool, c: Config) {
    && (forall p, e {:trigger inv(Step(p, c, e))} :: Possible(p, e) && inv(p) ==> inv(Step(p, c, e)))
    && (forall p, wait {:trigger inv(Later(p, wait))} :: inv(p) ==> inv(Later(p, wait)))
  }

  lemma {:induction false} RunKeeps(inv: Port -> bool, p: Port, c: Config, run: seq<Timed>)
    requires Stable(inv, c) && inv(p) && PossibleRun(p, c, run)
    ensures inv(Steps(p, c, run))
    decreases |run|
  {
    if run != [] {
      var later := Later(p, run[0].wait);
      assert inv(later) && inv(Step(later, c, run[0].e));
      RunKeeps(inv, Step(later, c, run[0].e), c, run[1..]);
    }
  }

  lemma AccountingStable(c: Config)
    ensures Stable(FramesAccounted, c) && Stable(Numbered, c)
  {
    forall p, e | Possible(p, e) && FramesAccounted(p) ensures FramesAccounted(Step(p, c, e)) {
      StepAccounts(p, c, e, Step(p, c, e));
    }
    forall p, e | Possible(p, e) && Numbered(p) ensures Numbered(Step(p, c, e)) {
      StepNumbers(p, c, e);
    }
  }

  // In every run: each frame queued is keyed, on its way, or given up, and only once; one given up as stale
  // was over 30 s old.
  lemma EveryFrameIsAccounted(gate: Gate, now: real, c: Config, run: seq<Timed>)
    requires PossibleRun(Started(gate, now), c, run)
    ensures var p := Steps(Started(gate, now), c, run);
      && multiset(p.tally.arrived)
           == multiset(Items(p.keyed)) + multiset(InHand(p.phase)) + multiset(p.queue)
            + multiset(Fallen(p.tally.dropped))
      && |p.tally.arrived| == p.queued && (forall k :: 0 <= k < p.queued ==> p.tally.arrived[k].no == k)
      && (forall k :: 0 <= k < |p.tally.dropped| && p.tally.dropped[k].why.Stale? ==>
            p.tally.dropped[k].at - p.tally.dropped[k].item.at > 30000.0)
  {
    var start := Started(gate, now);
    AccountingStable(c);
    RunKeeps(FramesAccounted, start, c, run);
    RunKeeps(Numbered, start, c, run);
    var p := Steps(start, c, run);
    forall k | 0 <= k < |p.tally.dropped| ensures DropOk(p.tally.dropped[k]) {
    }
  }

  function Started(gate: Gate, now: real): Port {
    Port([], [], Idle, false, gate, now, 0, now, [], Tally([], []))
  }

  // In every run: over its whole history the airtime of the transmissions started in any 60 s, the one on
  // the air included, stays within the duty cycle, though the port keeps only a pruned list; frames are
  // keyed in the order they were queued, each with every condition of the gate met at that instant, granted at
  // most 30 s after it was queued and shorter than the PTT watchdog; the queue never exceeds 16.
  lemma TransmitsWithinItsLimits(gate: Gate, now: real, c: Config, run: seq<Timed>, from: real)
    requires c.Budget() >= 0.0 && PossibleRun(Started(gate, now), c, run)
    ensures var p := Steps(Started(gate, now), c, run);
      && WindowTotal(Airs(p.keyed), from) <= c.dutyPct / 100.0 * 60000.0
      && Increasing(Items(p.keyed)) && |p.queue| <= 16
      && forall k :: 0 <= k < |p.keyed| ==>
        var x := p.keyed[k];
        && c.tx && !x.stopped && !x.gate.fault && x.gate.ptt && x.gate.captureUp && x.gate.master
        && x.item.addrs in x.gate.confirmed
        && x.granted - x.item.at <= 30000.0 && x.granted <= x.air.at && x.air.ms < c.pttMaxMs
  {
    var start := Started(gate, now);
    StartInv(gate, now, c);
    EveryRunKeepsInv(start, c, run);
    InvMeans(Steps(start, c, run), c, from);
    InvKeyed(Steps(start, c, run), c);
  }

  lemma InvKeyed(p: Port, c: Config)
    requires Inv(p, c)
    ensures forall k :: 0 <= k < |p.keyed| ==>
        var x := p.keyed[k];
        && c.tx && !x.stopped && !x.gate.fault && x.gate.ptt && x.gate.captureUp && x.gate.master
        && x.item.addrs in x.gate.confirmed
        && x.granted - x.item.at <= 30000.0 && x.granted <= x.air.at && x.air.ms < c.pttMaxMs
  {
    assert forall k :: 0 <= k < |p.keyed| ==> KeyedOk(p.keyed[k], c);
  }

  lemma StartInv(gate: Gate, now: real, c: Config)
    ensures Inv(Started(gate, now), c)
  {
  }

  lemma InvMeans(p: Port, c: Config, from: real)
    requires Inv(p, c) && c.Budget() >= 0.0
    ensures WindowTotal(Airs(p.keyed), from) <= c.Budget()
    ensures Increasing(Items(p.keyed))
    ensures |p.queue| <= 16
  {
    EveryWindowWithinBudget(Airs(p.keyed), c.Budget(), from);
    HeadIncreasing(Items(p.keyed), InHand(p.phase), p.queue, p.queued);
  }

  lemma HeadIncreasing(a: seq<Item>, b: seq<Item>, c: seq<Item>, bound: nat)
    requires InLine(a, b, c, bound)
    ensures Increasing(a)
  {
    assert forall k :: 0 <= k < |a| ==> (a + b + c)[k] == a[k];
  }

  // A refused gate silences what was waiting: after a Resume that finds any of its conditions unmet, nothing is
  // queued or in hand, and nothing was keyed.
  lemma ClosedGateEmptiesPort(p: Port, c: Config)
    requires p.phase.Granted?
    requires !c.tx || p.stopped || p.gate.fault || !p.gate.ptt || !p.gate.captureUp || !p.gate.master
      || p.phase.item.addrs !in p.gate.confirmed
    ensures var q := Step(p, c, Resume); q.queue == [] && InHand(q.phase) == [] && q.keyed == p.keyed
  {
  }

  // A stopped or faulted port stays off the air: whatever happens from there on, nothing is keyed or queued.
  lemma {:induction false} StoppedOrFaultedIsSilent(p: Port, c: Config, run: seq<Timed>)
    requires (p.stopped || p.gate.fault) && p.queue == [] && PossibleRun(p, c, run)
    ensures var q := Steps(p, c, run);
      && q.keyed == p.keyed && q.queued == p.queued && q.queue == []
      && (p.stopped ==> q.stopped) && (p.gate.fault ==> q.gate.fault)
    decreases |run|
  {
    if run != [] { StoppedOrFaultedIsSilent(Step(Later(p, run[0].wait), c, run[0].e), c, run[1..]); }
  }

  // So from a stop or a fault of the PTT watchdog on.
  lemma StopOrFaultSilences(p: Port, c: Config, e: Event, run: seq<Timed>)
    requires (e.Stop? || e.Fault?) && PossibleRun(Step(p, c, e), c, run)
    ensures var q := Steps(Step(p, c, e), c, run); q.keyed == p.keyed && q.queued == p.queued && q.queue == []
  {
    StoppedOrFaultedIsSilent(Step(p, c, e), c, run);
  }

  // A frame is queued, behind those waiting, exactly when transmit is on, the port is neither stopped nor faulted,
  // PTT, capture and the master switch are on, its addresses are confirmed, and fewer than 16 wait; an idle port
  // takes the first of them in hand at once. Else nothing changes.
  lemma QueuedIff(p: Port, c: Config, addrs: int)
    ensures var q, item := Step(p, c, Enqueue(addrs)), Item(p.queued, addrs, p.clock);
      var line := p.queue + [item];
      if c.tx && !p.stopped && !p.gate.fault && p.gate.ptt && p.gate.captureUp && p.gate.master
        && addrs in p.gate.confirmed && |p.queue| < 16
      then
        && q.queued == p.queued + 1 && q.tally.arrived == p.tally.arrived + [item] && q.keyed == p.keyed
        && (if p.phase.Idle? then q.queue == line[1..] && q.phase == Modulating(line[0])
            else q.queue == line && q.phase == p.phase)
      else q == p
  {
  }

  // A port that has frames queued and yet is idle: no drain is under way for them.
  predicate Strands(p: Port) { p.phase.Idle? && p.queue != [] }

  // It comes to that exactly when the finished drain is cleared after a frame was queued behind its end.
  lemma StrandsIff(p: Port, c: Config, e: Event)
    requires !Strands(p) && Possible(p, e)
    ensures Strands(Step(p, c, e)) <==> e.DrainCleared? && p.queue != []
  {
  }

  // And then those frames wait, however long, until the next send that is accepted, which takes the first of them;
  // a stop or a fault gives them up.
  lemma {:induction false} StrandedUntilASend(p: Port, c: Config, run: seq<Timed>)
    requires Strands(p) && PossibleRun(p, c, run)
    requires forall k :: 0 <= k < |run| ==> !run[k].e.Stop? && !run[k].e.Fault?
    requires Steps(p, c, run).queued == p.queued
    ensures Steps(p, c, run).queue == p.queue && Strands(Steps(p, c, run))
    decreases |run|
  {
    if run != [] {
      var q := Step(Later(p, run[0].wait), c, run[0].e);
      QueuedGrows(q, c, run[1..]);
      StrandedUntilASend(q, c, run[1..]);
    }
  }

  lemma {:induction false} QueuedGrows(p: Port, c: Config, run: seq<Timed>)
    requires PossibleRun(p, c, run)
    ensures p.queued <= Steps(p, c, run).queued
    decreases |run|
  {
    if run != [] { QueuedGrows(Step(Later(p, run[0].wait), c, run[0].e), c, run[1..]); }
  }

  // A frame modulated waits for the channel exactly when it is shorter than the PTT watchdog; one as long is given
  // up for that, and the loop goes on.
  lemma ModulatedIff(p: Port, c: Config, ms: real)
    requires p.phase.Modulating? && ms >= 0.0
    ensures var q := Step(p, c, Modulated(ms));
      var given := p.tally.dropped + [Dropped(p.phase.item, Overlong, p.clock)];
      if ms < c.pttMaxMs then
        q.phase == Waiting(p.phase.item, ms) && q.tally == p.tally
      else
        !q.phase.Waiting? && q.tally.dropped == given
  {
  }

  // The airtime the port still lists shows a look what the whole history would.
  lemma ListedIsRecent(p: Port, c: Config)
    requires Duty(p, c) && !p.phase.OnAir?
    ensures Recent(p.airtime, p.clock) == Recent(Airs(p.keyed), p.clock)
  {
    RecentTwice(Airs(p.keyed), p.pruned, p.clock);
  }

  // The airtime started in the last 60 s.
  function LastMinute(airs: seq<Air>, now: real): real {
    if airs == [] then 0.0
    else
      var last := airs[|airs| - 1];
      LastMinute(airs[..|airs| - 1], now) + if now - last.at < 60000.0 then last.ms else 0.0
  }

  lemma {:induction false} RecentIsLastMinute(airs: seq<Air>, now: real)
    ensures Total(Recent(airs, now)) == LastMinute(airs, now)
  {
    if airs != [] {
      var init, last := airs[..|airs| - 1], airs[|airs| - 1];
      LastApart(airs, init, last);
      RecentIsLastMinute(init, now);
      RecentTotal(init, last, now, airs, Total(Recent(init, now)), Total(Recent(airs, now)));
    }
  }

  // What one look at the channel decides: a frame is given up exactly when the port stopped or it waited over
  // 30 s; else it is granted exactly when it fits the duty cycle, the channel is clear and the draw is won; else it
  // goes on waiting.
  lemma PollDecides(p: Port, c: Config, dcd: bool, random: real, q: Port)
    requires p.phase.Waiting? && q == Step(p, c, Poll(dcd, random))
    ensures var goes := LastMinute(p.airtime, p.clock) + p.phase.ms <= c.dutyPct / 100.0 * 60000.0
          && !dcd && (random * 256.0).Floor <= c.persist;
      var given := [Dropped(p.phase.item, if p.stopped then PortStopped else Stale, p.clock)];
      if p.stopped || p.clock - p.phase.item.at > 30000.0 then
        q.tally.dropped == p.tally.dropped + given && !q.phase.Granted? && !q.phase.Waiting?
      else
        && q.tally == p.tally && q.queue == p.queue && q.stopped == p.stopped && q.gate == p.gate
        && q.phase == if goes then Granted(p.phase.item, p.phase.ms, p.clock) else p.phase
  {
    RecentIsLastMinute(p.airtime, p.clock);
  }

  lemma OnAirIff(q: Port, c: Config)
    requires q.phase.Granted?
    ensures Step(q, c, Resume).phase.OnAir? <==>
      && c.tx && !q.stopped && !q.gate.fault && q.gate.ptt && q.gate.captureUp && q.gate.master
      && q.phase.item.addrs in q.gate.confirmed
  {
  }

  // And it does key: a frame whose turn it is goes on the air, when the channel is looked at, exactly if it is
  // not too old, fits the duty cycle of the whole history, finds the channel clear and wins the draw, and every
  // condition of the gate is met.
  lemma KeyedIff(p: Port, c: Config, dcd: bool, random: real)
    requires Inv(p, c) && p.phase.Waiting?
    ensures var q, x := Step(p, c, Poll(dcd, random)), p.phase.item;
      (q.phase.Granted? && q.phase.item == x && Step(q, c, Resume).phase.OnAir?) <==>
        && p.clock - x.at <= 30000.0
        && LastMinute(Airs(p.keyed), p.clock) + p.phase.ms <= c.dutyPct / 100.0 * 60000.0
        && !dcd && (random * 256.0).Floor <= c.persist
        && c.tx && !p.stopped && !p.gate.fault && p.gate.ptt && p.gate.captureUp && p.gate.master
        && x.addrs in p.gate.confirmed
  {
    ListedIsRecent(p, c);
    RecentIsLastMinute(p.airtime, p.clock);
    RecentIsLastMinute(Airs(p.keyed), p.clock);
    var q := Step(p, c, Poll(dcd, random));
    PollDecides(p, c, dcd, random, q);
    if q.phase.Granted? { OnAirIff(q, c); }
  }

  // ---- the class ---------------------------------------------------------------------------------------

  class SoundcardPort {
    const config: Config
    var queue: seq<Item>
    var airtime: seq<Air>
    var phase: Phase
    var stopped: bool
    var gate: Gate
    var clock: real
    var queued: nat
    ghost var pruned: real
    ghost var keyed: seq<Keyed>
    ghost var tally: Tally

    ghost function Abs(): Port
      reads this
    {
      Port(queue, airtime, phase, stopped, gate, clock, queued, pruned, keyed, tally)
    }

    constructor (config: Config, gate: Gate, now: real)
      ensures this.config == config && Abs() == Started(gate, now)
    {
      this.config, this.gate := config, gate;
      queue, airtime, phase, stopped := [], [], Idle, false;
      clock, queued, pruned, keyed, tally := now, 0, now, [], Tally([], []);
    }

    ghost method GiveUp(items: seq<Item>, why: Why)
      modifies `tally
      ensures Abs() == Drop(old(Abs()), items, why)
    {
      tally := tally.(dropped := tally.dropped + AllDropped(items, why, clock));
    }

    method NextFrame()
      modifies this
      ensures Abs() == LoopHead(old(Abs()))
    {
      if |queue| > 0 && !stopped {
        phase := Modulating(queue[0]);
        queue := queue[1..];
      } else {
        phase := Ended;
      }
    }

    method Send(addrs: int) returns (accepted: bool)
      modifies this
      ensures Abs() == Step(old(Abs()), config, Enqueue(addrs))
      ensures accepted == (queued == old(queued) + 1)
    {
      if !TxOpen(config, stopped, gate, addrs) { return false; }
      if |queue| >= TX_QUEUE_MAX { return false; }
      var item := Item(queued, addrs, clock);
      queue := queue + [item];
      queued := queued + 1;
      tally := tally.(arrived := tally.arrived + [item]);
      if phase.Idle? { NextFrame(); }
      return true;
    }

    method OnModulated(ms: real)
      requires phase.Modulating? && ms >= 0.0
      modifies this
      ensures Abs() == Step(old(Abs()), config, Modulated(ms))
    {
      if ms >= config.pttMaxMs {
        GiveUp([phase.item], Overlong);
        NextFrame();
      } else {
        phase := Waiting(phase.item, ms);
      }
    }

    method OnModulateFailed()
      requires phase.Modulating?
      modifies this
      ensures Abs() == Step(old(Abs()), config, ModulateFails)
    {
      GiveUp([phase.item], Unmodulated);
      NextFrame();
    }

    // Prune the list to the last minute and add it up.
    method RecentAirtime() returns (sum: real)
      modifies `airtime, `pruned
      ensures airtime == Recent(old(airtime), clock) && pruned == clock && sum == Total(airtime)
    {
      var all, kept := airtime, [];
      ghost var seen := [];
      sum := 0.0;
      for i := 0 to |all|
        invariant seen == all[..i] && kept == Recent(seen, clock) && sum == Total(kept)
      {
        var a := all[i];
        RecentAppend(seen, a, clock);
        Nothing(kept);
        seen := seen + [a];
        if clock - a.at < DUTY_WINDOW_MS {
          TotalAppend(kept, a);
          kept := kept + [a];
          sum := sum + a.ms;
        }
      }
      assert seen == all;
      airtime := kept;
      pruned := clock;
    }

    method PollChannel(dcd: bool, random: real)
      requires phase.Waiting?
      modifies this
      ensures Abs() == Step(old(Abs()), config, Poll(dcd, random))
    {
      if stopped || clock - phase.item.at > TX_MAX_AGE_MS {
        GiveUp([phase.item], if stopped then PortStopped else Stale);
        NextFrame();
        return;
      }
      var recent := RecentAirtime();
      assert Abs() == old(Abs()).(airtime := Recent(old(airtime), clock), pruned := clock);
      var withinDuty := recent + phase.ms <= config.Budget();
      if withinDuty && !dcd && (random * 256.0).Floor <= config.persist {
        phase := Granted(phase.item, phase.ms, clock);
      }
    }

    // `key` says that key() is called now.
    method OnGranted() returns (key: bool)
      requires phase.Granted?
      modifies this
      ensures Abs() == Step(old(Abs()), config, Resume) && key == phase.OnAir?
    {
      if !TxOpen(config, stopped, gate, phase.item.addrs) {
        GiveUp([phase.item] + queue, GateClosed);
        queue := [];
        phase := Ended;
        return false;
      }
      var air := Air(clock, phase.ms);
      keyed := keyed + [Keyed(phase.item, phase.at, air, stopped, gate)];
      phase := OnAir(phase.item, air);
      return true;
    }

    method OnUnkeyed()
      requires phase.OnAir?
      modifies this
      ensures Abs() == Step(old(Abs()), config, Unkeyed)
    {
      airtime := airtime + [phase.air];
      NextFrame();
    }

    // The drain's promise is cleared; frames queued since it ended wait for the next send.
    method OnDrainCleared()
      requires phase.Ended?
      modifies this
      ensures Abs() == Step(old(Abs()), config, DrainCleared) && queue == old(queue)
    {
      phase := Idle;
    }

    method OnFault()
      modifies this
      ensures Abs() == Step(old(Abs()), config, Fault)
    {
      gate := gate.(fault := true);
      GiveUp(queue, PortFaulted);
      queue := [];
    }

    method Stop()
      modifies this
      ensures Abs() == Step(old(Abs()), config, Event.Stop)
    {
      GiveUp(queue, PortStopped);
      stopped := true;
      queue := [];
    }
  }
}
