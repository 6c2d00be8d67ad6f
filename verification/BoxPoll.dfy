// Remote control of the box (apps/ingest/src/boxpoll.ts): the gates of every remote transmit, the repeats
// of numbered messages, and the acks owed to the gateway.
//
// A poll is one async method; it is modelled as the phase it is suspended in, and each continuation as one
// step. Repeats and settlements (MessageRetrier, not part of this model) may come between any two steps.
// What the radio answers to a send is part of the event. Times are milliseconds of a clock that never goes back.

module BoxPolling {
  import opened Common
  import opened Buckets
  import TxLimit

  const MAX_PENDING_ACKS: nat := 200
  const HF_BEACON_MIN_MS: real := 600000.0

  // A callsign as the gates read it: its base call, and whether it looks like a callsign at all.
  datatype Callsign = NoCall | Call(base: string, wellFormed: bool)

  // What a command asks for; `ok` says that its payload passed the checks of its kind, `nodeKnown` that the box
  // has the node named, `overKiss` that this node takes the answer over KISS.
  datatype Kind =
    | Status
    | Beacon
    | Object(ok: bool)
    | Message(ok: bool)
    | AprsAnswer(ok: bool, numbered: bool)
    | MeshcomAnswer(ok: bool, nodeKnown: bool, overKiss: bool)
    | TxSwitch(on: Option<bool>)
    | DigiSwitch(on: Option<bool>)
    | IgateSwitch(on: Option<bool>)
    | Unknown

  datatype Command = Command(id: nat, call: Callsign, createdAt: Option<real>, kind: Kind)

  datatype Radio = Radio(hf: bool)

  datatype Config = Config(
    remoteTx: bool, boxBase: Option<string>, position: bool, radio: Option<Radio>, meshcom: bool,
    maxAgeSec: real, limits: Limits)

  datatype Why =
    | RemoteTxOff | SwitchedOff | NoBoxCall | WrongCall | Expired | NoRadio | RateLimited | RadioRefused
    | BadPayload | NoPosition | TooSoon | NotConfigured | Unsupported | NoNode | NodeRefused

  datatype Result = Done | Failed(why: Why)

  // A call of radio.send: when, what the switches said at that instant, whether it was an HF beacon, and
  // what the radio answered.
  datatype Send = Send(at: real, remoteTx: bool, tx: bool, hfBeacon: bool, accepted: bool)

  // A report owed to the gateway, numbered in the order it became due: a command's result, or that a message it
  // repeated is settled.
  datatype Report = Ran(res: Result) | Settled

  datatype Ack = Ack(no: nat, id: nat, report: Report)

  datatype Phase =
    | Idle
    | Flushing(ack: Ack, last: bool)       // an ack POST is in flight; `last`: after the commands, not before
    | Fetching
    | Executing(todo: seq<Command>)
    | AwaitingNode(id: nat, todo: seq<Command>)

  // What transmitting touches: the bucket, when the last HF beacon went out, and the history of sends and takes.
  datatype Tx = Tx(bucket: Bucket, lastHf: Option<real>, sends: seq<Send>, takes: seq<Op>)

  // The acks owed: pending ones, how many became due, and what happened to the others.
  datatype Acks = Acks(pending: seq<Ack>, owed: nat, confirmed: seq<Ack>, dropped: seq<Ack>)

  datatype Box = Box(
    tx: bool, digi: Option<bool>, igate: Option<bool>, air: Tx, acks: Acks, repeating: set<nat>,
    phase: Phase, clock: real)

  datatype Event =
    | Tick
    | AckReply(ok: Option<bool>)           // None: the request failed
    | Commands(cmds: Option<seq<Command>>)
    | Execute(radioOk: bool)
    | NodeReply(took: bool)
    | Repeat(id: nat, radioOk: bool)
    | Settle(id: nat)

  // ---- the gates -----------------------------------------------------------------------------------

  // One token of the bucket every remote transmit shares.
  function TakeToken(b: Box, c: Config): Box {
    b.(air := b.air.(bucket := Taken(b.air.bucket, c.limits, b.clock), takes := b.air.takes + [Op.Take(b.clock)]))
  }

  predicate HasToken(b: Box, c: Config) {
    CanTake(b.air.bucket, c.limits, b.clock)
  }

  function RadioSend(b: Box, c: Config, hfBeacon: bool, radioOk: bool): Box {
    b.(air := b.air.(sends := b.air.sends + [Send(b.clock, c.remoteTx, b.tx, hfBeacon, radioOk)]))
  }

  predicate OurCall(c: Config, call: Callsign) {
    c.boxBase.Some? && call.Call? && call.base == c.boxBase.value
  }

  predicate TooOld(b: Box, c: Config, cmd: Command) {
    cmd.createdAt.Some? && b.clock / 1000.0 - cmd.createdAt.value > c.maxAgeSec
  }

  // Why the gate refuses a transmit command before it looks at the bucket, in the order of the checks.
  function GateRefusal(b: Box, c: Config, cmd: Command): Option<Why> {
    if !c.remoteTx then Some(RemoteTxOff)
    else if !b.tx then Some(SwitchedOff)
    else if c.boxBase.None? then Some(NoBoxCall)
    else if !(OurCall(c, cmd.call) && cmd.call.wellFormed) then Some(WrongCall)
    else if TooOld(b, c, cmd) then Some(Expired)
    else if c.radio.None? then Some(NoRadio)
    else None
  }

  // transmit: the gate, a token, the radio.
  function Transmit(b: Box, c: Config, cmd: Command, hfBeacon: bool, radioOk: bool): (Box, Result) {
    var why := GateRefusal(b, c, cmd);
    if why.Some? then (b, Failed(why.value))
    else
      var b1 := TakeToken(b, c);
      if !HasToken(b, c) then (b1, Failed(RateLimited))
      else (RadioSend(b1, c, hfBeacon, radioOk), if radioOk then Done else Failed(RadioRefused))
  }

  function HfBeacon(b: Box, c: Config, cmd: Command, radioOk: bool): (Box, Result) {
    if b.air.lastHf.Some? && b.air.lastHf.value + HF_BEACON_MIN_MS - b.clock > 0.0 then (b, Failed(TooSoon))
    else
      var (b1, res) := Transmit(b, c, cmd, true, radioOk);
      (if res.Done? then b1.(air := b1.air.(lastHf := Some(b.clock))) else b1, res)
  }

  // The numbered message or answer of a command that went out is repeated until it is settled.
  function Repeating(r: (Box, Result), id: nat): (Box, Result) {
    if r.1.Done? then (r.0.(repeating := r.0.repeating + {id}), r.1) else r
  }

  function AnswerRefusal(b: Box, c: Config, cmd: Command): Option<Why> {
    if !c.remoteTx then Some(RemoteTxOff)
    else if !b.tx then Some(SwitchedOff)
    else if TooOld(b, c, cmd) then Some(Expired)
    else None
  }

  function Answer(b: Box, c: Config, cmd: Command, radioOk: bool): (Box, Result) {
    var why := AnswerRefusal(b, c, cmd);
    if why.Some? then (b, Failed(why.value))
    else if c.boxBase.None? then (b, Failed(NoBoxCall))
    else if c.radio.None? then (b, Failed(NoRadio))
    else
      var b1 := TakeToken(b, c);
      if !HasToken(b, c) then (b1, Failed(RateLimited))
      else (RadioSend(b1, c, false, radioOk), if radioOk then Done else Failed(RadioRefused))
  }

  // Off is always honoured; on is a transmit decision.
  function ToggleRefusal(c: Config, call: Callsign, on: Option<bool>, configured: bool): Option<Why> {
    if on.None? then Some(BadPayload)
    else if !configured then Some(NotConfigured)
    else if on.value && !c.remoteTx then Some(RemoteTxOff)
    else if on.value && !OurCall(c, call) then Some(WrongCall)
    else None
  }

  function Toggle(b: Box, c: Config, cmd: Command): (Box, Result)
    requires cmd.kind.TxSwitch? || cmd.kind.DigiSwitch? || cmd.kind.IgateSwitch?
  {
    var configured := cmd.kind.TxSwitch? || (if cmd.kind.DigiSwitch? then b.digi.Some? else b.igate.Some?);
    var why := ToggleRefusal(c, cmd.call, cmd.kind.on, configured);
    if why.Some? then (b, Failed(why.value))
    else match cmd.kind
      case TxSwitch(on) => (b.(tx := on.value), Done)
      case DigiSwitch(on) => (b.(digi := on), Done)
      case IgateSwitch(on) => (b.(igate := on), Done)
  }

  // A MeshCom answer over a node's KISS port spends a token too; it never touches the radio.
  function NodeAnswer(b: Box, c: Config, cmd: Command, nodeKnown: bool, overKiss: bool): (Box, Option<Why>) {
    var why := AnswerRefusal(b, c, cmd);
    if why.Some? then (b, why)
    else if !c.meshcom then (b, Some(NotConfigured))
    else if !nodeKnown then (b, Some(NoNode))
    else if !overKiss then (b, None)
    else (TakeToken(b, c), if HasToken(b, c) then None else Some(RateLimited))
  }

  // Everything but a MeshCom answer runs to its result in one go.
  function Executed(b: Box, c: Config, cmd: Command, radioOk: bool): (Box, Result)
    requires !cmd.kind.MeshcomAnswer?
  {
    match cmd.kind
    case Status => (b, Done)
    case Beacon =>
      if !c.position then (b, Failed(NoPosition))
      else if c.radio.Some? && c.radio.value.hf then HfBeacon(b, c, cmd, radioOk)
      else Transmit(b, c, cmd, false, radioOk)
    case Object(ok) => if !ok then (b, Failed(BadPayload)) else Transmit(b, c, cmd, false, radioOk)
    case Message(ok) => if !ok then (b, Failed(BadPayload)) else Repeating(Transmit(b, c, cmd, false, radioOk), cmd.id)
    case AprsAnswer(ok, numbered) =>
      if !ok then (b, Failed(BadPayload))
      else if numbered then Repeating(Answer(b, c, cmd, radioOk), cmd.id)
      else Answer(b, c, cmd, radioOk)
    case TxSwitch(_) => Toggle(b, c, cmd)
    case DigiSwitch(_) => Toggle(b, c, cmd)
    case IgateSwitch(_) => Toggle(b, c, cmd)
    case Unknown => (b, Failed(Unsupported))
  }

  // A repeat: every gate of the first send again.
  function Repeated(b: Box, c: Config, id: nat, radioOk: bool): Box {
    if id !in b.repeating || !c.remoteTx || !b.tx || c.radio.None? then b
    else
      var b1 := TakeToken(b, c);
      if HasToken(b, c) then RadioSend(b1, c, false, radioOk) else b1
  }

  // ---- the poll ----------------------------------------------------------------------------------------

  function Owe(b: Box, id: nat, report: Report): Box {
    b.(acks := b.acks.(pending := b.acks.pending + [Ack(b.acks.owed, id, report)], owed := b.acks.owed + 1))
  }

  function NodeResult(took: bool): Result { if took then Done else Failed(NodeRefused) }

  // The head of flushAcks' loop.
  function FlushHead(b: Box, last: bool): Box {
    b.(phase := if b.acks.pending != [] then Flushing(b.acks.pending[0], last) else if last then Idle else Fetching)
  }

  // The head of the loop over the commands.
  function CommandHead(b: Box, todo: seq<Command>): Box {
    if todo == [] then FlushHead(b, true) else b.(phase := Executing(todo))
  }

  // A confirmed ack is shifted off.
  function Shifted(a: Acks, ack: Ack): Acks {
    if a.pending == [] then a else a.(pending := a.pending[1..], confirmed := a.confirmed + [ack])
  }

  // A refused ack drops the oldest past the bound and ends the poll.
  function Spliced(a: Acks): Acks {
    var over := |a.pending| - MAX_PENDING_ACKS;
    if over <= 0 then a else a.(pending := a.pending[over..], dropped := a.dropped + a.pending[..over])
  }

  predicate Possible(b: Box, e: Event) {
    match e
    case Tick => true
    case AckReply(_) => b.phase.Flushing?
    case Commands(_) => b.phase.Fetching?
    case Execute(_) => b.phase.Executing? && b.phase.todo != []
    case NodeReply(_) => b.phase.AwaitingNode?
    case Repeat(_, _) => true
    case Settle(_) => true
  }

  function Step(b: Box, c: Config, e: Event): Box
    requires Possible(b, e)
  {
    match e
    case Tick => if b.phase.Idle? then FlushHead(b, false) else b
    case AckReply(ok) =>
      if ok == Some(true) then FlushHead(b.(acks := Shifted(b.acks, b.phase.ack)), b.phase.last)
      else if ok == Some(false) then b.(acks := Spliced(b.acks), phase := Idle)
      else b.(phase := Idle)
    case Commands(cmds) => if cmds.None? then b.(phase := Idle) else CommandHead(b, cmds.value)
    case Execute(radioOk) =>
      var cmd, todo := b.phase.todo[0], b.phase.todo[1..];
      if cmd.kind.MeshcomAnswer? then
        var (b1, why) :=
          if cmd.kind.ok then NodeAnswer(b, c, cmd, cmd.kind.nodeKnown, cmd.kind.overKiss) else (b, Some(BadPayload));
        if why.None? then b1.(phase := AwaitingNode(cmd.id, todo))
        else CommandHead(Owe(b1, cmd.id, Ran(Failed(why.value))), todo)
      else
        var (b1, res) := Executed(b, c, cmd, radioOk);
        CommandHead(Owe(b1, cmd.id, Ran(res)), todo)
    case NodeReply(took) => CommandHead(Owe(b, b.phase.id, Ran(NodeResult(took))), b.phase.todo)
    case Repeat(id, radioOk) => Repeated(b, c, id, radioOk)
    case Settle(id) => Owe(b.(repeating := b.repeating - {id}), id, Settled)
  }

  // An event and the time that has passed since the one before.
  datatype Timed = Timed(wait: real, e: Event)

  function Later(b: Box, wait: real): Box { b.(clock := b.clock + wait) }

  predicate PossibleRun(b: Box, c: Config, run: seq<Timed>)
    decreases |run|
  {
    run == [] || (run[0].wait >= 0.0 && Possible(b, run[0].e)
        && PossibleRun(Step(Later(b, run[0].wait), c, run[0].e), c, run[1..]))
  }

  function Steps(b: Box, c: Config, run: seq<Timed>): Box
    requires PossibleRun(b, c, run)
    decreases |run|
  {
    if run == [] then b else Steps(Step(Later(b, run[0].wait), c, run[0].e), c, run[1..])
  }

  // ---- transmitting ------------------------------------------------------------------------------------

  // What one step can do on the air: nothing, take a token (granted or not), or take a token that is
  // granted and make one send, with remote transmit opted in and the switch on, and an HF beacon that goes
  // out no sooner than allowed.
  ghost predicate OneTransmitAtMost(b: Box, c: Config, u: Tx) {
    var t := TakeToken(b, c).air;
    || u == b.air
    || u == t
    || (&& HasToken(b, c) && c.remoteTx && b.tx
        && exists hf, ok :: && (hf && ok ==> b.air.lastHf.None? || b.clock - b.air.lastHf.value >= 600000.0)
                            && u == SentAs(t, b.clock, hf, ok))
  }

  // A send that passed the switches; an HF beacon that went out is remembered.
  function SentAs(t: Tx, now: real, hf: bool, ok: bool): Tx {
    t.(sends := t.sends + [Send(now, true, true, hf, ok)], lastHf := if hf && ok then Some(now) else t.lastHf)
  }

  lemma TransmitOnce(b: Box, c: Config, cmd: Command, radioOk: bool)
    ensures OneTransmitAtMost(b, c, Transmit(b, c, cmd, false, radioOk).0.air)
    ensures OneTransmitAtMost(b, c, Answer(b, c, cmd, radioOk).0.air)
  {
    if HasToken(b, c) {
      var u := SentAs(TakeToken(b, c).air, b.clock, false, radioOk);
      assert GateRefusal(b, c, cmd).None? ==> Transmit(b, c, cmd, false, radioOk).0.air == u;
      assert Answer(b, c, cmd, radioOk).0.air != TakeToken(b, c).air && Answer(b, c, cmd, radioOk).0.air != b.air
         ==> Answer(b, c, cmd, radioOk).0.air == u;
    }
  }

  lemma HfBeaconOnce(b: Box, c: Config, cmd: Command, radioOk: bool)
    ensures OneTransmitAtMost(b, c, HfBeacon(b, c, cmd, radioOk).0.air)
  {
    if HasToken(b, c) && GateRefusal(b, c, cmd).None? {
      var u := SentAs(TakeToken(b, c).air, b.clock, true, radioOk);
      assert HfBeacon(b, c, cmd, radioOk).1 != Failed(TooSoon) ==> HfBeacon(b, c, cmd, radioOk).0.air == u;
    }
  }

  lemma ExecutedOnce(b: Box, c: Config, cmd: Command, radioOk: bool)
    requires !cmd.kind.MeshcomAnswer?
    ensures OneTransmitAtMost(b, c, Executed(b, c, cmd, radioOk).0.air)
  {
    TransmitOnce(b, c, cmd, radioOk);
    HfBeaconOnce(b, c, cmd, radioOk);
  }

  lemma RepeatedOnce(b: Box, c: Config, id: nat, radioOk: bool)
    ensures OneTransmitAtMost(b, c, Repeated(b, c, id, radioOk).air)
  {
    if HasToken(b, c) && c.remoteTx && b.tx {
      var u := SentAs(TakeToken(b, c).air, b.clock, false, radioOk);
      assert Repeated(b, c, id, radioOk) != b ==> Repeated(b, c, id, radioOk).air == u;
    }
  }

  // Owing a result and going on touch neither the air nor the clock.
  lemma RestKeepsAir(b: Box, id: nat, report: Report, todo: seq<Command>)
    ensures var r := CommandHead(Owe(b, id, report), todo); r.air == b.air && r.clock == b.clock
  {
  }

  lemma ExecutedKeepsClock(b: Box, c: Config, cmd: Command, radioOk: bool)
    requires !cmd.kind.MeshcomAnswer?
    ensures Executed(b, c, cmd, radioOk).0.clock == b.clock
  {
  }

  lemma NodeAnswerTakes(b: Box, c: Config, cmd: Command, nodeKnown: bool, overKiss: bool)
    ensures var r := NodeAnswer(b, c, cmd, nodeKnown, overKiss).0;
      (r.air == b.air || r.air == TakeToken(b, c).air) && r.clock == b.clock
  {
  }

  lemma ExecuteOnce(b: Box, c: Config, radioOk: bool, r: Box)
    requires Possible(b, Execute(radioOk)) && r == Step(b, c, Execute(radioOk))
    ensures OneTransmitAtMost(b, c, r.air) && r.clock == b.clock
  {
    var cmd, todo := b.phase.todo[0], b.phase.todo[1..];
    if cmd.kind.MeshcomAnswer? {
      NodeAnswerTakes(b, c, cmd, cmd.kind.nodeKnown, cmd.kind.overKiss);
      var (b1, why) := NodeAnswer(b, c, cmd, cmd.kind.nodeKnown, cmd.kind.overKiss);
      if why.Some? { RestKeepsAir(b1, cmd.id, Ran(Failed(why.value)), todo); }
      RestKeepsAir(b, cmd.id, Ran(Failed(BadPayload)), todo);
    } else {
      var (b1, res) := Executed(b, c, cmd, radioOk);
      ExecutedOnce(b, c, cmd, radioOk);
      ExecutedKeepsClock(b, c, cmd, radioOk);
      RestKeepsAir(b1, cmd.id, Ran(res), todo);
      assert r.air == b1.air;
    }
  }

  lemma StepTransmitsOnce(b: Box, c: Config, e: Event, r: Box)
    requires Possible(b, e) && r == Step(b, c, e)
    ensures OneTransmitAtMost(b, c, r.air) && r.clock == b.clock
  {
    match e
    case Execute(radioOk) => ExecuteOnce(b, c, radioOk, r);
    case Repeat(id, radioOk) => RepeatedOnce(b, c, id, radioOk);
    case _ => assert r.air == b.air;
  }

  // ---- every send is gated

  // The HF beacons that went out, in order.
  function HfTimes(sends: seq<Send>): seq<real> {
    if sends == [] then []
    else
      var last := sends[|sends| - 1];
      HfTimes(sends[..|sends| - 1]) + if last.hfBeacon && last.accepted then [last.at] else []
  }

  ghost predicate Spaced(times: seq<real>) {
    forall k :: 0 < k < |times| ==> times[k] - times[k - 1] >= 600000.0
  }

  // Every send passed the switches and has a token of its own; HF beacons keep their distance; the bucket
  // has seen exactly the takes, all of them by now.
  ghost predicate TxInv(t: Tx, now: real, l: Limits, start: Bucket) {
    && (forall k :: 0 <= k < |t.sends| ==> t.sends[k].remoteTx && t.sends[k].tx)
    && |t.sends| <= Granted(start, l, t.takes)
    && t.bucket == Run(start, l, t.takes)
    && Within(t.takes, start.at, now) && start.at <= now
    && HfInv(t)
  }

  ghost predicate HfInv(t: Tx) {
    var times := HfTimes(t.sends);
    Spaced(times) && t.lastHf == if times == [] then None else Some(times[|times| - 1])
  }

  // A token taken; when it is granted there is one more than there are sends.
  lemma TakeKeeps(b: Box, c: Config, start: Bucket)
    requires TxInv(b.air, b.clock, c.limits, start)
    ensures var t := TakeToken(b, c).air;
      && TxInv(t, b.clock, c.limits, start)
      && Granted(start, c.limits, t.takes) == Granted(start, c.limits, b.air.takes) + if HasToken(b, c) then 1 else 0
  {
    RunSplits(start, c.limits, b.air.takes, [Op.Take(b.clock)]);
    OneTake(b.air.bucket, c.limits, b.clock);
  }

  lemma HfSent(t: Tx, now: real, hf: bool, ok: bool)
    requires HfInv(t) && (hf && ok ==> t.lastHf.None? || now - t.lastHf.value >= 600000.0)
    ensures HfInv(SentAs(t, now, hf, ok))
  {
    var s := Send(now, true, true, hf, ok);
    assert (t.sends + [s])[..|t.sends|] == t.sends;
    assert HfTimes(t.sends + [s]) == HfTimes(t.sends) + if hf && ok then [now] else [];
    assert HfTimes(t.sends) + [] == HfTimes(t.sends);
  }

  lemma SentKeeps(t: Tx, now: real, l: Limits, start: Bucket, hf: bool, ok: bool)
    requires TxInv(t, now, l, start) && |t.sends| < Granted(start, l, t.takes)
    requires hf && ok ==> t.lastHf.None? || now - t.lastHf.value >= 600000.0
    ensures TxInv(SentAs(t, now, hf, ok), now, l, start)
  {
    HfSent(t, now, hf, ok);
  }

  lemma StepKeepsTx(b: Box, c: Config, u: Tx, start: Bucket)
    requires TxInv(b.air, b.clock, c.limits, start) && OneTransmitAtMost(b, c, u)
    ensures TxInv(u, b.clock, c.limits, start)
    ensures b.air.takes <= u.takes && b.air.sends <= u.sends
    ensures |u.sends| - |b.air.sends| <= Granted(start, c.limits, u.takes) - Granted(start, c.limits, b.air.takes)
  {
    TakeKeeps(b, c, start);
    var t := TakeToken(b, c).air;
    if u != b.air && u != t {
      var hf, ok :| && (hf && ok ==> b.air.lastHf.None? || b.clock - b.air.lastHf.value >= 600000.0)
                    && u == SentAs(t, b.clock, hf, ok);
      SentKeeps(t, b.clock, c.limits, start, hf, ok);
      assert u.takes == t.takes && |u.sends| == |b.air.sends| + 1;
    }
  }

  // A command was created too long before now.
  ghost predicate Expires(b: Box, c: Config, cmd: Command) {
    cmd.createdAt.Some? && b.clock / 1000.0 - cmd.createdAt.value > c.maxAgeSec
  }

  // One token taken and at most one send made: taken when the gates pass, and sent when it was granted.
  ghost predicate Spends(b: Box, c: Config, u: Tx, passes: bool, hf: bool, radioOk: bool) {
    var granted := CanTake(b.air.bucket, c.limits, b.clock);
    && u.bucket == (if passes then Taken(b.air.bucket, c.limits, b.clock) else b.air.bucket)
    && u.takes == b.air.takes + (if passes then [Op.Take(b.clock)] else [])
    && u.sends == b.air.sends + (if passes && granted then [Send(b.clock, true, true, hf, radioOk)] else [])
    && u.lastHf == if passes && granted && hf && radioOk then Some(b.clock) else b.air.lastHf
  }

  // And it does send: a beacon with a known position, or an object or message whose payload is in order, goes to
  // the radio exactly when remote transmit is opted in, the switch is on, the command comes under the box's own
  // well-formed call and in time, a radio is there, an HF beacon is due, and there is a token, which is taken only
  // once all the rest holds. It is reported done exactly when the radio took it, and a message that went out is
  // repeated from then on.
  lemma CommandSendsIff(b: Box, c: Config, cmd: Command, radioOk: bool)
    requires cmd.kind.Beacon? || cmd.kind.Object? || cmd.kind.Message?
    ensures var (r, res) := Executed(b, c, cmd, radioOk);
      var hf := cmd.kind.Beacon? && c.radio.Some? && c.radio.value.hf;
      var passes :=
        && ((cmd.kind.Beacon? && c.position) || (cmd.kind.Object? && cmd.kind.ok) || (cmd.kind.Message? && cmd.kind.ok))
        && c.remoteTx && b.tx && !Expires(b, c, cmd) && c.radio.Some?
        && c.boxBase.Some? && cmd.call.Call? && cmd.call.base == c.boxBase.value && cmd.call.wellFormed
        && (hf ==> b.air.lastHf.None? || b.clock - b.air.lastHf.value >= 600000.0);
      var done := passes && CanTake(b.air.bucket, c.limits, b.clock) && radioOk;
      && Spends(b, c, r.air, passes, hf, radioOk)
      && (res.Done? <==> done) && r == b.(air := r.air, repeating := r.repeating)
      && r.repeating == if cmd.kind.Message? && done then b.repeating + {cmd.id} else b.repeating
  {
  }

  // A status request changes nothing and is done; an unknown command changes nothing and is not.
  lemma OthersDoNothing(b: Box, c: Config, cmd: Command, radioOk: bool)
    requires cmd.kind.Status? || cmd.kind.Unknown?
    ensures var (r, res) := Executed(b, c, cmd, radioOk); r == b && (res.Done? <==> cmd.kind.Status?)
  {
  }

  // An answer to a radio command goes out exactly when its payload is in order, remote transmit is opted in, the
  // switch is on, it is in time, the box has a call and a radio, and there is a token. It is reported done exactly
  // when the radio took it, and then repeated if it carries a number.
  lemma AnswerSendsIff(b: Box, c: Config, cmd: Command, radioOk: bool)
    requires cmd.kind.AprsAnswer?
    ensures var (r, res) := Executed(b, c, cmd, radioOk);
      var passes := cmd.kind.ok && c.remoteTx && b.tx && !Expires(b, c, cmd) && c.boxBase.Some? && c.radio.Some?;
      var done := passes && CanTake(b.air.bucket, c.limits, b.clock) && radioOk;
      && Spends(b, c, r.air, passes, false, radioOk)
      && (res.Done? <==> done) && r == b.(air := r.air, repeating := r.repeating)
      && r.repeating == if done && cmd.kind.numbered then b.repeating + {cmd.id} else b.repeating
  {
  }

  // A MeshCom answer is handed to its node exactly when its payload is in order, remote transmit is opted in, the
  // switch is on, it is in time, MeshCom is set up with that node, and, over its KISS port, there is a token. It
  // never touches the radio.
  lemma MeshcomAnswerIff(b: Box, c: Config, cmd: Command, todo: seq<Command>, radioOk: bool)
    requires b.phase == Executing([cmd] + todo) && cmd.kind.MeshcomAnswer?
    ensures var r := Step(b, c, Execute(radioOk));
      var passes := cmd.kind.ok && c.remoteTx && b.tx && !Expires(b, c, cmd) && c.meshcom && cmd.kind.nodeKnown;
      && (r.phase == AwaitingNode(cmd.id, todo) <==>
            passes && (cmd.kind.overKiss ==> CanTake(b.air.bucket, c.limits, b.clock)))
      && r.air.sends == b.air.sends && r.air.lastHf == b.air.lastHf && r.repeating == b.repeating
      && r.air.takes == b.air.takes + (if passes && cmd.kind.overKiss then [Op.Take(b.clock)] else [])
  {
    assert ([cmd] + todo)[1..] == todo;
  }

  // A repeat goes out exactly when its message is still unsettled, remote transmit is opted in, the switch is on,
  // a radio is there, and there is a token; nothing but the air changes. A settled one never does.
  lemma RepeatGoesOutIff(b: Box, c: Config, id: nat, radioOk: bool)
    ensures var r := Step(b, c, Repeat(id, radioOk));
      && Spends(b, c, r.air, id in b.repeating && c.remoteTx && b.tx && c.radio.Some?, false, radioOk)
      && r == b.(air := r.air)
    ensures var settled := Step(b, c, Settle(id)); Step(settled, c, Repeat(id, radioOk)) == settled
  {
  }

  // A switch takes the value asked for, and is reported done, exactly when a value is given, the feature is set
  // up, and, to switch on, remote transmit is opted in and the command comes under the box's own call. Else nothing
  // changes; and no other switch ever does.
  lemma SwitchesIff(b: Box, c: Config, cmd: Command, radioOk: bool)
    requires cmd.kind.TxSwitch? || cmd.kind.DigiSwitch? || cmd.kind.IgateSwitch?
    ensures var (r, res) := Executed(b, c, cmd, radioOk);
      var on := cmd.kind.on;
      var does :=
        && on.Some?
        && (on.value ==> c.remoteTx && c.boxBase.Some? && cmd.call.Call? && cmd.call.base == c.boxBase.value)
        && (cmd.kind.DigiSwitch? ==> b.digi.Some?) && (cmd.kind.IgateSwitch? ==> b.igate.Some?);
      && (res.Done? <==> does)
      && r == b.(tx := r.tx, digi := r.digi, igate := r.igate)
      && r.tx == (if does && cmd.kind.TxSwitch? then on.value else b.tx)
      && r.digi == (if does && cmd.kind.DigiSwitch? then on else b.digi)
      && r.igate == (if does && cmd.kind.IgateSwitch? then on else b.igate)
  {
  }

  // What a run keeps, and what it adds: sends paid one by one with tokens taken during it.
  lemma {:induction false} RunKeepsTx(b: Box, c: Config, run: seq<Timed>, start: Bucket, r: Box)
    requires TxInv(b.air, b.clock, c.limits, start) && PossibleRun(b, c, run) && r == Steps(b, c, run)
    ensures TxInv(r.air, r.clock, c.limits, start) && b.clock <= r.clock
    ensures b.air.takes <= r.air.takes && b.air.sends <= r.air.sends
    ensures |r.air.sends| - |b.air.sends|
         <= Granted(start, c.limits, r.air.takes) - Granted(start, c.limits, b.air.takes)
    decreases |run|
  {
    if run != [] {
      var later := Later(b, run[0].wait);
      var next := Step(later, c, run[0].e);
      StepTransmitsOnce(later, c, run[0].e, next);
      StepKeepsTx(later, c, next.air, start);
      RunKeepsTx(next, c, run[1..], start, r);
    }
  }

  function Fresh(c: Config, now: real, tx: bool, digi: Option<bool>, igate: Option<bool>): Box {
    Box(tx, digi, igate, Tx(Bucket(c.limits.burst, now), None, [], []), Acks([], 0, [], []), {}, Idle, now)
  }

  // In every run of commands, repeats and polls: every radio.send, a first send or a repeat, was made with
  // remote transmit opted in and the master switch on; each has a token of its own; and the HF beacons that
  // went out are at least 600 s apart.
  lemma EverySendIsGated(c: Config, now: real, tx: bool, digi: Option<bool>, igate: Option<bool>, run: seq<Timed>)
    requires PossibleRun(Fresh(c, now, tx, digi, igate), c, run)
    ensures var t := Steps(Fresh(c, now, tx, digi, igate), c, run).air;
      && (forall k :: 0 <= k < |t.sends| ==> t.sends[k].remoteTx && t.sends[k].tx)
      && |t.sends| <= Granted(Bucket(c.limits.burst, now), c.limits, t.takes)
      && Spaced(HfTimes(t.sends))
  {
    var b := Fresh(c, now, tx, digi, igate);
    RunKeepsTx(b, c, run, b.air.bucket, Steps(b, c, run));
  }

  // Over any stretch of a run, first sends and repeats together obey the one bucket: at most burst plus
  // rate * duration of them.
  lemma OneRateForAll(c: Config, b: Box, start: Bucket, window: seq<Timed>, r: Box)
    requires c.limits.Valid() && WithinCap(start, c.limits) && TxInv(b.air, b.clock, c.limits, start)
    requires PossibleRun(b, c, window) && r == Steps(b, c, window)
    ensures (|r.air.sends| - |b.air.sends|) as real <= c.limits.burst + Gain(c.limits.rate, b.clock, r.clock)
  {
    RunKeepsTx(b, c, window, start, r);
    var n := |b.air.takes|;
    TakesOfRun(b, c, window, n, b.clock, r);
    assert r.air.takes == b.air.takes + r.air.takes[n..];
    RateLawWithin(start, c.limits, b.air.takes, r.air.takes[n..], b.clock, r.clock);
  }

  // The takes of a stretch happen during it.
  lemma {:induction false} TakesOfRun(b: Box, c: Config, run: seq<Timed>, n: nat, from: real, r: Box)
    requires PossibleRun(b, c, run) && r == Steps(b, c, run)
    requires from <= b.clock && n <= |b.air.takes| && Within(b.air.takes[n..], from, b.clock)
    ensures n <= |r.air.takes| && Within(r.air.takes[n..], from, r.clock)
    decreases |run|
  {
    if run != [] {
      var later := Later(b, run[0].wait);
      var next := Step(later, c, run[0].e);
      StepTransmitsOnce(later, c, run[0].e, next);
      assert next.air.takes == b.air.takes || next.air.takes == b.air.takes + [Op.Take(later.clock)];
      if next.air.takes != b.air.takes { assert next.air.takes[n..] == b.air.takes[n..] + [Op.Take(later.clock)]; }
      TakesOfRun(next, c, run[1..], n, from, r);
    }
  }

  // ---- the master switch -------------------------------------------------------------------------------

  // A command that may switch transmit on: the one kind that can, from this box's call, with remote
  // transmit opted in.
  predicate SwitchesOn(b: Box, c: Config, e: Event) {
    && e.Execute? && b.phase.Executing? && b.phase.todo != []
    && b.phase.todo[0].kind == TxSwitch(Some(true)) && c.remoteTx && OurCall(c, b.phase.todo[0].call)
  }

  predicate NeverSwitchedOn(b: Box, c: Config, run: seq<Timed>)
    requires PossibleRun(b, c, run)
    decreases |run|
  {
    run == [] || (!SwitchesOn(b, c, run[0].e) && NeverSwitchedOn(Step(Later(b, run[0].wait), c, run[0].e), c, run[1..]))
  }

  lemma OffStep(b: Box, c: Config, e: Event)
    requires Possible(b, e) && !b.tx
    ensures Step(b, c, e).air.sends == b.air.sends
    ensures Step(b, c, e).tx <==> SwitchesOn(b, c, e)
  {
  }

  // Once transmit is off nothing is sent, first send or repeat, until a gated "tx on".
  lemma {:induction false} OffMeansSilent(b: Box, c: Config, run: seq<Timed>)
    requires !b.tx && PossibleRun(b, c, run) && NeverSwitchedOn(b, c, run)
    ensures Steps(b, c, run).air.sends == b.air.sends && !Steps(b, c, run).tx
    decreases |run|
  {
    if run != [] {
      var later := Later(b, run[0].wait);
      OffStep(later, c, run[0].e);
      OffMeansSilent(Step(later, c, run[0].e), c, run[1..]);
    }
  }

  // Off is honoured whoever asks and whatever the opt-in says.
  lemma OffIsAlwaysHonoured(b: Box, c: Config, cmd: Command, radioOk: bool)
    requires cmd.kind == TxSwitch(Some(false))
    ensures Executed(b, c, cmd, radioOk) == (b.(tx := false), Done)
  {
  }

  // ---- the acks ------------------------------------------------------------------------------------------

  ghost predicate Increasing(acks: seq<Ack>, bound: nat) {
    && (forall i, j :: 0 <= i < j < |acks| ==> acks[i].no < acks[j].no)
    && forall k :: 0 <= k < |acks| ==> acks[k].no < bound
  }

  function Nos(acks: seq<Ack>): seq<nat> { seq(|acks|, i requires 0 <= i < |acks| => acks[i].no) }

  lemma NosConcat(a: seq<Ack>, b: seq<Ack>)
    ensures Nos(a + b) == Nos(a) + Nos(b)
  {
  }

  // Each ack that became due is confirmed, dropped past the bound, or pending, and only once.
  ghost predicate EachOnce(a: Acks) {
    multiset(Nos(a.confirmed)) + multiset(Nos(a.dropped)) + multiset(Nos(a.pending)) == multiset(UpTo(a.owed))
  }

  // And the gateway gets them in the order they became due.
  ghost predicate AcksOk(a: Acks) {
    Increasing(a.confirmed + a.pending, a.owed) && EachOnce(a)
  }

  // The ack in flight is the oldest pending one, whatever was appended since.
  ghost predicate AckInv(b: Box) {
    && AcksOk(b.acks)
    && (b.phase.Flushing? ==> b.acks.pending != [] && b.acks.pending[0] == b.phase.ack)
  }

  lemma OweKeeps(b: Box, id: nat, report: Report)
    requires AckInv(b)
    ensures AckInv(Owe(b, id, report))
  {
    var a, q := b.acks, Owe(b, id, report).acks;
    var ack := Ack(a.owed, id, report);
    assert q.confirmed + q.pending == (a.confirmed + a.pending) + [ack];
    NosConcat(a.pending, [ack]);
    UpToNext(a.owed);
    assert Nos([ack]) == [a.owed];
  }

  lemma ShiftedKeeps(a: Acks, ack: Ack)
    requires AcksOk(a) && a.pending != [] && a.pending[0] == ack
    ensures AcksOk(Shifted(a, ack))
  {
    assert (a.confirmed + [ack]) + a.pending[1..] == a.confirmed + a.pending;
    assert [ack] + a.pending[1..] == a.pending;
    NosConcat(a.confirmed, [ack]);
    NosConcat([ack], a.pending[1..]);
  }

  // A splice leaves at most the bound, the newest of what was pending; what it drops is older and is counted.
  lemma SplicedKeeps(a: Acks)
    requires AcksOk(a)
    ensures var r := Spliced(a); var cut := r.dropped[|a.dropped|..];
      && AcksOk(r) && |r.pending| == (if |a.pending| < 200 then |a.pending| else 200)
      && r.confirmed == a.confirmed && a.dropped <= r.dropped && cut + r.pending == a.pending
      && forall i, j :: 0 <= i < |cut| && 0 <= j < |r.pending| ==> cut[i].no < r.pending[j].no
  {
    var r := Spliced(a);
    var cut := r.dropped[|a.dropped|..];
    assert cut + r.pending == a.pending && a.dropped + cut == r.dropped;
    NosConcat(cut, r.pending);
    NosConcat(a.dropped, cut);
    CutKeepsAckOrder(a.confirmed, cut, r.pending, a.owed);
  }

  lemma CutKeepsAckOrder(confirmed: seq<Ack>, cut: seq<Ack>, rest: seq<Ack>, bound: nat)
    requires Increasing(confirmed + (cut + rest), bound)
    ensures Increasing(confirmed + rest, bound)
    ensures forall i, j :: 0 <= i < |cut| && 0 <= j < |rest| ==> cut[i].no < rest[j].no
  {
    var before, after := confirmed + (cut + rest), confirmed + rest;
    assert forall k :: 0 <= k < |after| ==> after[k] == before[if k < |confirmed| then k else k + |cut|];
    forall i, j | 0 <= i < |cut| && 0 <= j < |rest| ensures cut[i].no < rest[j].no {
      assert before[|confirmed| + i] == cut[i] && before[|confirmed| + |cut| + j] == rest[j];
    }
  }

  lemma ExecutedTouchesNoAcks(b: Box, c: Config, cmd: Command, radioOk: bool)
    requires !cmd.kind.MeshcomAnswer?
    ensures Executed(b, c, cmd, radioOk).0.acks == b.acks && Executed(b, c, cmd, radioOk).0.phase == b.phase
  {
  }

  // What executing a command leaves: the node awaited, or its result owed and the loop gone on.
  ghost predicate Finished(b: Box, id: nat, res: Result, todo: seq<Command>, r: Box) {
    r.acks == Owe(b, id, Ran(res)).acks && r.phase == CommandHead(r, todo).phase
  }

  lemma MeshcomOwes(b: Box, c: Config, radioOk: bool, r: Box) returns (res: Result)
    requires Possible(b, Execute(radioOk)) && r == Step(b, c, Execute(radioOk)) && b.phase.todo[0].kind.MeshcomAnswer?
    ensures var cmd, todo := b.phase.todo[0], b.phase.todo[1..];
      (r.phase == AwaitingNode(cmd.id, todo) && r.acks == b.acks) || Finished(b, cmd.id, res, todo, r)
  {
    var cmd := b.phase.todo[0];
    var why := NodeAnswer(b, c, cmd, cmd.kind.nodeKnown, cmd.kind.overKiss).1;
    res := Failed(if !cmd.kind.ok || why.None? then BadPayload else why.value);
  }

  lemma ExecuteOwes(b: Box, c: Config, radioOk: bool, r: Box) returns (res: Result)
    requires Possible(b, Execute(radioOk)) && r == Step(b, c, Execute(radioOk))
    ensures var cmd, todo := b.phase.todo[0], b.phase.todo[1..];
      if cmd.kind.MeshcomAnswer?
      then (r.phase == AwaitingNode(cmd.id, todo) && r.acks == b.acks) || Finished(b, cmd.id, res, todo, r)
      else res == Executed(b, c, cmd, radioOk).1 && Finished(b, cmd.id, res, todo, r)
  {
    var cmd := b.phase.todo[0];
    if cmd.kind.MeshcomAnswer? {
      res := MeshcomOwes(b, c, radioOk, r);
    } else {
      ExecutedTouchesNoAcks(b, c, cmd, radioOk);
      res := Executed(b, c, cmd, radioOk).1;
    }
  }

  lemma FinishedKeepsAcks(b: Box, id: nat, res: Result, todo: seq<Command>, r: Box)
    requires AckInv(b) && Finished(b, id, res, todo, r)
    ensures AckInv(r)
  {
    OweKeeps(b, id, Ran(res));
  }

  lemma ExecuteAcks(b: Box, c: Config, radioOk: bool, r: Box)
    requires AckInv(b) && Possible(b, Execute(radioOk)) && r == Step(b, c, Execute(radioOk))
    ensures AckInv(r)
  {
    var cmd, todo := b.phase.todo[0], b.phase.todo[1..];
    var res := ExecuteOwes(b, c, radioOk, r);
    if Finished(b, cmd.id, res, todo, r) { FinishedKeepsAcks(b, cmd.id, res, todo, r); }
  }

  lemma StepKeepsAcks(b: Box, c: Config, e: Event, r: Box)
    requires AckInv(b) && Possible(b, e) && r == Step(b, c, e)
    ensures AckInv(r)
  {
    match e
    case AckReply(ok) =>
      if ok == Some(true) { ShiftedKeeps(b.acks, b.phase.ack); } else if ok == Some(false) { SplicedKeeps(b.acks); }
    case Execute(radioOk) => ExecuteAcks(b, c, radioOk, r);
    case NodeReply(took) => OweKeeps(b, b.phase.id, Ran(NodeResult(took)));
    case Settle(id) => OweKeeps(b.(repeating := b.repeating - {id}), id, Settled);
    case _ =>
  }

  lemma {:induction false} EveryRunKeepsAcks(b: Box, c: Config, run: seq<Timed>)
    requires AckInv(b) && PossibleRun(b, c, run)
    ensures AckInv(Steps(b, c, run))
    decreases |run|
  {
    if run != [] {
      var later := Later(b, run[0].wait);
      var next := Step(later, c, run[0].e);
      StepKeepsAcks(later, c, run[0].e, next);
      EveryRunKeepsAcks(next, c, run[1..]);
    }
  }

  // In every run, settlements appended during an ack POST included: the ack the next confirmation shifts
  // off is the one that POST carries; each ack that became due is confirmed, dropped or pending, in one place
  // and once; and they are confirmed in the order they became due.
  lemma ShiftedAckIsConfirmed(c: Config, now: real, tx: bool, digi: Option<bool>, igate: Option<bool>, run: seq<Timed>)
    requires PossibleRun(Fresh(c, now, tx, digi, igate), c, run)
    ensures var b := Steps(Fresh(c, now, tx, digi, igate), c, run);
      && (b.phase.Flushing? ==>
            b.acks.pending != [] && b.acks.pending[0] == b.phase.ack
            && Step(b, c, AckReply(Some(true))).acks.pending == b.acks.pending[1..])
      && Increasing(b.acks.confirmed + b.acks.pending, b.acks.owed)
      && forall no :: 0 <= no < b.acks.owed ==>
           1 == multiset(Nos(b.acks.confirmed))[no] + multiset(Nos(b.acks.dropped))[no]
              + multiset(Nos(b.acks.pending))[no]
  {
    EveryRunKeepsAcks(Fresh(c, now, tx, digi, igate), c, run);
    var a := Steps(Fresh(c, now, tx, digi, igate), c, run).acks;
    forall no: nat | no < a.owed
      ensures multiset(Nos(a.confirmed))[no] + multiset(Nos(a.dropped))[no] + multiset(Nos(a.pending))[no] == 1
    {
      UpToOnce(a.owed, no);
    }
  }

  // What the answer to an ack POST does: yes shifts that ack off; no drops all but the newest 200 of those pending
  // and ends the poll; no answer ends the poll and leaves them all for the next.
  lemma AckReplyDecides(b: Box, c: Config, ok: Option<bool>, r: Box)
    requires AckInv(b) && b.phase.Flushing? && r == Step(b, c, AckReply(ok))
    ensures var over := if ok == Some(false) && |b.acks.pending| > 200 then |b.acks.pending| - 200 else 0;
      if ok == Some(true) then
        && r.acks.pending == b.acks.pending[1..] && r.acks.confirmed == b.acks.confirmed + [b.acks.pending[0]]
        && r.acks.dropped == b.acks.dropped && !r.phase.Executing? && !r.phase.AwaitingNode?
      else
        && r.acks.pending == b.acks.pending[over..] && r.acks.dropped == b.acks.dropped + b.acks.pending[..over]
        && r.acks.confirmed == b.acks.confirmed && r.phase == Idle
  {
  }

  // Where a poll goes: a tick starts one unless one is under way, with the acks owed first; each ack confirmed is
  // followed by the next, and once none is left by the commands, or, after those, by the end; an answer without
  // commands ends it; and what a node said of an answer is the result reported.
  lemma PollGoesOn(b: Box, c: Config, e: Event, r: Box)
    requires AckInv(b) && Possible(b, e) && r == Step(b, c, e)
    ensures e.Tick? ==> r == b.(phase := r.phase)
    ensures e.Tick? ==>
      r.phase == if !b.phase.Idle? then b.phase
        else if b.acks.pending == [] then Fetching else Flushing(b.acks.pending[0], false)
    ensures e == AckReply(Some(true)) ==>
      r.phase == if |b.acks.pending| > 1 then Flushing(b.acks.pending[1], b.phase.last)
        else if b.phase.last then Idle else Fetching
    ensures e == Commands(None) ==> r == b.(phase := Idle)
    ensures e.NodeReply? ==> |r.acks.pending| == |b.acks.pending| + 1
    ensures e.NodeReply? ==>
      var ack := r.acks.pending[|b.acks.pending|];
      ack.id == b.phase.id && ack.report.Ran? && (ack.report.res.Done? <==> e.took)
  {
  }

  // ---- every command is reported ---------------------------------------------------------------------------

  function Ids(cmds: seq<Command>): seq<nat> {
    if cmds == [] then [] else [cmds[0].id] + Ids(cmds[1..])
  }

  // The commands of the poll not yet reported.
  function Unreported(ph: Phase): seq<nat> {
    match ph
    case Executing(todo) => Ids(todo)
    case AwaitingNode(id, todo) => [id] + Ids(todo)
    case _ => []
  }

  function ReportedIds(acks: seq<Ack>): seq<nat> {
    if acks == [] then []
    else
      var last := acks[|acks| - 1];
      ReportedIds(acks[..|acks| - 1]) + if last.report.Ran? then [last.id] else []
  }

  // Since `before`, acks were only appended, and the commands reported in them and those left are `ids`.
  ghost predicate Reports(before: seq<Ack>, r: Box, ids: seq<nat>) {
    && before <= r.acks.pending
    && ReportedIds(r.acks.pending[|before|..]) + Unreported(r.phase) == ids
    && (r.phase.Executing? ==> r.phase.todo != [])
    && (r.phase.Executing? || r.phase.AwaitingNode? || (r.phase.Flushing? && r.phase.last))
  }

  lemma OneMoreAck(before: seq<Ack>, now: seq<Ack>, ack: Ack)
    requires before <= now
    ensures before <= now + [ack]
    ensures ReportedIds((now + [ack])[|before|..])
      == ReportedIds(now[|before|..]) + if ack.report.Ran? then [ack.id] else []
  {
    var since := (now + [ack])[|before|..];
    assert since == now[|before|..] + [ack];
    assert since[..|since| - 1] == now[|before|..];
  }

  lemma FinishedReports(before: seq<Ack>, b: Box, id: nat, res: Result, todo: seq<Command>, r: Box, ids: seq<nat>)
    requires Reports(before, b, ids) && Unreported(b.phase) == [id] + Ids(todo) && Finished(b, id, res, todo, r)
    ensures Reports(before, r, ids)
  {
    OneMoreAck(before, b.acks.pending, Ack(b.acks.owed, id, Ran(res)));
    var done := ReportedIds(b.acks.pending[|before|..]);
    assert done + ([id] + Ids(todo)) == (done + [id]) + Ids(todo);
  }

  lemma ExecuteReports(before: seq<Ack>, b: Box, c: Config, radioOk: bool, r: Box, ids: seq<nat>)
    requires Reports(before, b, ids) && Possible(b, Execute(radioOk)) && r == Step(b, c, Execute(radioOk))
    ensures Reports(before, r, ids)
  {
    var cmd, todo := b.phase.todo[0], b.phase.todo[1..];
    assert Ids(b.phase.todo) == [cmd.id] + Ids(todo);
    var res := ExecuteOwes(b, c, radioOk, r);
    if Finished(b, cmd.id, res, todo, r) { FinishedReports(before, b, cmd.id, res, todo, r, ids); }
  }

  lemma StepReports(before: seq<Ack>, b: Box, c: Config, e: Event, r: Box, ids: seq<nat>)
    requires Reports(before, b, ids) && Possible(b, e) && !e.AckReply? && r == Step(b, c, e)
    ensures Reports(before, r, ids)
  {
    match e
    case Execute(radioOk) => ExecuteReports(before, b, c, radioOk, r, ids);
    case NodeReply(took) => FinishedReports(before, b, b.phase.id, NodeResult(took), b.phase.todo, r, ids);
    case Settle(id) => SettleReports(before, b, c, id, r, ids);
    case Repeat(id, radioOk) => SameReports(before, b, r, ids);
    case Tick => SameReports(before, b, r, ids);
  }

  lemma SettleReports(before: seq<Ack>, b: Box, c: Config, id: nat, r: Box, ids: seq<nat>)
    requires Reports(before, b, ids) && r == Step(b, c, Settle(id))
    ensures Reports(before, r, ids)
  {
    OneMoreAck(before, b.acks.pending, Ack(b.acks.owed, id, Settled));
    var done := ReportedIds(b.acks.pending[|before|..]);
    assert done + [] == done;
  }

  lemma SameReports(before: seq<Ack>, b: Box, r: Box, ids: seq<nat>)
    requires Reports(before, b, ids) && r.acks == b.acks && r.phase == b.phase
    ensures Reports(before, r, ids)
  {
  }

  lemma {:induction false} RunReports(before: seq<Ack>, b: Box, c: Config, run: seq<Timed>, ids: seq<nat>)
    requires Reports(before, b, ids) && PossibleRun(b, c, run)
    requires forall k :: 0 <= k < |run| ==> !run[k].e.AckReply?
    ensures Reports(before, Steps(b, c, run), ids)
    decreases |run|
  {
    if run != [] {
      var later := Later(b, run[0].wait);
      var next := Step(later, c, run[0].e);
      StepReports(before, later, c, run[0].e, next, ids);
      RunReports(before, next, c, run[1..], ids);
    }
  }

  // The commands a poll fetches are each reported once, in order, whatever repeats and settlements come in
  // between: until the acks are next answered, those reported and those left are the commands as they came; the
  // acks owed from before stay ahead of them; and once none is left the acks are being flushed.
  lemma {:induction false} EachCommandIsReported(b: Box, c: Config, cmds: seq<Command>, run: seq<Timed>)
    requires b.phase.Fetching? && cmds != [] && PossibleRun(Step(b, c, Commands(Some(cmds))), c, run)
    requires forall k :: 0 <= k < |run| ==> !run[k].e.AckReply?
    ensures var r := Steps(Step(b, c, Commands(Some(cmds))), c, run);
      && b.acks.pending <= r.acks.pending
      && ReportedIds(r.acks.pending[|b.acks.pending|..]) + Unreported(r.phase) == Ids(cmds)
      && (Unreported(r.phase) == [] ==> r.phase.Flushing? && r.phase.last)
  {
    var start := Step(b, c, Commands(Some(cmds)));
    assert b.acks.pending[|b.acks.pending|..] == [];
    RunReports(b.acks.pending, start, c, run, Ids(cmds));
  }

  // ---- the class -----------------------------------------------------------------------------------------

  class BoxPoller {
    const config: Config
    const bucket: TxLimit.TokenBucket
    var tx: bool
    var digi: Option<bool>
    var igate: Option<bool>
    var pendingAcks: seq<Ack>
    var retryFrames: set<nat>
    var lastHfBeaconAt: Option<real>
    var phase: Phase
    var clock: real
    var owed: nat
    ghost var confirmed: seq<Ack>
    ghost var dropped: seq<Ack>
    ghost var sends: seq<Send>
    ghost var takes: seq<Op>

    ghost function Abs(): Box
      reads this, bucket
    {
      Box(tx, digi, igate, Tx(bucket.Abs(), lastHfBeaconAt, sends, takes), Acks(pendingAcks, owed, confirmed, dropped),
          retryFrames, phase, clock)
    }

    ghost predicate Valid()
      reads this
    {
      bucket.refillSec > 0.0 && config.limits == bucket.Law()
    }

    constructor (
      config: Config, bucket: TxLimit.TokenBucket, tx: bool, digi: Option<bool>, igate: Option<bool>, now: real)
      requires bucket.refillSec > 0.0 && config.limits == bucket.Law() && bucket.Abs() == Bucket(bucket.burst, now)
      ensures Valid() && this.config == config && this.bucket == bucket && Abs() == Fresh(config, now, tx, digi, igate)
    {
      this.config, this.bucket := config, bucket;
      this.tx, this.digi, this.igate := tx, digi, igate;
      pendingAcks, retryFrames, lastHfBeaconAt, phase, clock, owed := [], {}, None, Idle, now, 0;
      confirmed, dropped, sends, takes := [], [], [], [];
    }

    method TakeOne() returns (ok: bool)
      requires Valid()
      modifies this`takes, bucket
      ensures Valid() && Abs() == TakeToken(old(Abs()), config) && ok == HasToken(old(Abs()), config)
    {
      ok := bucket.Take(clock);
      takes := takes + [Op.Take(clock)];
    }

    method RadioOut(hfBeacon: bool, radioOk: bool)
      modifies this`sends
      ensures Abs() == RadioSend(old(Abs()), config, hfBeacon, radioOk)
    {
      sends := sends + [Send(clock, config.remoteTx, tx, hfBeacon, radioOk)];
    }

    method TransmitFrame(cmd: Command, hfBeacon: bool, radioOk: bool) returns (res: Result)
      requires Valid()
      modifies this`takes, this`sends, bucket
      ensures Valid() && (Abs(), res) == Transmit(old(Abs()), config, cmd, hfBeacon, radioOk)
    {
      if !config.remoteTx { return Failed(RemoteTxOff); }
      if !tx { return Failed(SwitchedOff); }
      if config.boxBase.None? { return Failed(NoBoxCall); }
      if !OurCall(config, cmd.call) || !cmd.call.wellFormed { return Failed(WrongCall); }
      if cmd.createdAt.Some? && clock / 1000.0 - cmd.createdAt.value > config.maxAgeSec { return Failed(Expired); }
      if config.radio.None? { return Failed(NoRadio); }
      var ok := TakeOne();
      if !ok { return Failed(RateLimited); }
      RadioOut(hfBeacon, radioOk);
      return if radioOk then Done else Failed(RadioRefused);
    }

    method HfBeaconOut(cmd: Command, radioOk: bool) returns (res: Result)
      requires Valid()
      modifies this`takes, this`sends, this`lastHfBeaconAt, bucket
      ensures Valid() && (Abs(), res) == HfBeacon(old(Abs()), config, cmd, radioOk)
    {
      if lastHfBeaconAt.Some? && lastHfBeaconAt.value + HF_BEACON_MIN_MS - clock > 0.0 { return Failed(TooSoon); }
      res := TransmitFrame(cmd, true, radioOk);
      if res.Done? { lastHfBeaconAt := Some(clock); }
    }

    method AprsAnswerOut(cmd: Command, radioOk: bool) returns (res: Result)
      requires Valid()
      modifies this`takes, this`sends, bucket
      ensures Valid() && (Abs(), res) == Answer(old(Abs()), config, cmd, radioOk)
    {
      if !config.remoteTx { return Failed(RemoteTxOff); }
      if !tx { return Failed(SwitchedOff); }
      if cmd.createdAt.Some? && clock / 1000.0 - cmd.createdAt.value > config.maxAgeSec { return Failed(Expired); }
      if config.boxBase.None? { return Failed(NoBoxCall); }
      if config.radio.None? { return Failed(NoRadio); }
      var ok := TakeOne();
      if !ok { return Failed(RateLimited); }
      RadioOut(false, radioOk);
      return if radioOk then Done else Failed(RadioRefused);
    }

    method Switch(cmd: Command) returns (res: Result)
      requires cmd.kind.TxSwitch? || cmd.kind.DigiSwitch? || cmd.kind.IgateSwitch?
      modifies this`tx, this`digi, this`igate
      ensures (Abs(), res) == Toggle(old(Abs()), config, cmd)
    {
      var on := cmd.kind.on;
      if on.None? { return Failed(BadPayload); }
      if (cmd.kind.DigiSwitch? && digi.None?) || (cmd.kind.IgateSwitch? && igate.None?) {
        return Failed(NotConfigured);
      }
      if on.value {
        if !config.remoteTx { return Failed(RemoteTxOff); }
        if !OurCall(config, cmd.call) { return Failed(WrongCall); }
      }
      match cmd.kind
      case TxSwitch(_) => tx := on.value; return Done;
      case DigiSwitch(_) => digi := on; return Done;
      case IgateSwitch(_) => igate := on; return Done;
    }

    method Execute(cmd: Command, radioOk: bool) returns (res: Result)
      requires Valid() && !cmd.kind.MeshcomAnswer?
      modifies this, bucket
      ensures Valid() && (Abs(), res) == Executed(old(Abs()), config, cmd, radioOk)
    {
      match cmd.kind
      case Status => res := Done;
      case Beacon =>
        if !config.position { return Failed(NoPosition); }
        if config.radio.Some? && config.radio.value.hf {
          res := HfBeaconOut(cmd, radioOk);
        } else {
          res := TransmitFrame(cmd, false, radioOk);
        }
      case Object(ok) =>
        if !ok { return Failed(BadPayload); }
        res := TransmitFrame(cmd, false, radioOk);
      case Message(ok) =>
        if !ok { return Failed(BadPayload); }
        res := TransmitFrame(cmd, false, radioOk);
        if res.Done? { retryFrames := retryFrames + {cmd.id}; }
      case AprsAnswer(ok, numbered) =>
        if !ok { return Failed(BadPayload); }
        res := AprsAnswerOut(cmd, radioOk);
        if res.Done? && numbered { retryFrames := retryFrames + {cmd.id}; }
      case TxSwitch(_) => res := Switch(cmd);
      case DigiSwitch(_) => res := Switch(cmd);
      case IgateSwitch(_) => res := Switch(cmd);
      case Unknown => res := Failed(Unsupported);
    }

    // A MeshCom answer up to the node: why it is refused, or none when it goes out.
    method MeshcomOut(cmd: Command) returns (why: Option<Why>)
      requires Valid() && cmd.kind.MeshcomAnswer?
      modifies this`takes, bucket
      ensures Valid()
      ensures (Abs(), why) ==
        if cmd.kind.ok then NodeAnswer(old(Abs()), config, cmd, cmd.kind.nodeKnown, cmd.kind.overKiss)
        else (old(Abs()), Some(BadPayload))
    {
      if !cmd.kind.ok { return Some(BadPayload); }
      if !config.remoteTx { return Some(RemoteTxOff); }
      if !tx { return Some(SwitchedOff); }
      if cmd.createdAt.Some? && clock / 1000.0 - cmd.createdAt.value > config.maxAgeSec { return Some(Expired); }
      if !config.meshcom { return Some(NotConfigured); }
      if !cmd.kind.nodeKnown { return Some(NoNode); }
      if cmd.kind.overKiss {
        var ok := TakeOne();
        if !ok { return Some(RateLimited); }
      }
      return None;
    }

    // The command at the head of the loop, of any kind: its result is owed, or the node's answer awaited.
    method OnExecute(radioOk: bool)
      requires Valid() && phase.Executing? && phase.todo != []
      modifies this, bucket
      ensures Valid() && Abs() == Step(old(Abs()), config, Event.Execute(radioOk))
    {
      var cmd, todo := phase.todo[0], phase.todo[1..];
      var res: Result;
      if cmd.kind.MeshcomAnswer? {
        var why := MeshcomOut(cmd);
        if why.None? {
          phase := AwaitingNode(cmd.id, todo);
          return;
        }
        res := Failed(why.value);
      } else {
        res := Execute(cmd, radioOk);
      }
      Finish(cmd.id, res, todo);
    }

    method OnNodeReply(took: bool)
      requires Valid() && phase.AwaitingNode?
      modifies this
      ensures Valid() && Abs() == Step(old(Abs()), config, NodeReply(took))
    {
      Finish(phase.id, NodeResult(took), phase.todo);
    }

    // A result is owed to the gateway, and the loop goes on.
    method Finish(id: nat, res: Result, todo: seq<Command>)
      modifies this
      ensures Abs() == CommandHead(Owe(old(Abs()), id, Ran(res)), todo)
    {
      pendingAcks := pendingAcks + [Ack(owed, id, Ran(res))];
      owed := owed + 1;
      if |todo| == 0 { NextAck(true); } else { phase := Executing(todo); }
    }

    method Resend(id: nat, radioOk: bool)
      requires Valid()
      modifies this`takes, this`sends, bucket
      ensures Valid() && Abs() == Step(old(Abs()), config, Repeat(id, radioOk))
    {
      if id !in retryFrames || !config.remoteTx || !tx || config.radio.None? { return; }
      var ok := TakeOne();
      if ok { RadioOut(false, radioOk); }
    }

    method OnSettle(id: nat)
      modifies this
      ensures Abs() == Step(old(Abs()), config, Settle(id))
    {
      retryFrames := retryFrames - {id};
      pendingAcks := pendingAcks + [Ack(owed, id, Settled)];
      owed := owed + 1;
    }

    method NextAck(last: bool)
      modifies this`phase
      ensures Abs() == FlushHead(old(Abs()), last)
    {
      phase := if |pendingAcks| > 0 then Flushing(pendingAcks[0], last) else if last then Idle else Fetching;
    }

    // The ack POST in flight is answered: the confirmed one goes, a refusal splices and ends the poll.
    method OnAckReply(ok: Option<bool>)
      requires phase.Flushing?
      modifies this
      ensures Abs() == Step(old(Abs()), config, AckReply(ok))
    {
      if ok == Some(true) {
        if |pendingAcks| > 0 {
          confirmed := confirmed + [phase.ack];
          pendingAcks := pendingAcks[1..];
        }
        NextAck(phase.last);
      } else {
        if ok == Some(false) && |pendingAcks| > MAX_PENDING_ACKS {
          var over := |pendingAcks| - MAX_PENDING_ACKS;
          dropped := dropped + pendingAcks[..over];
          pendingAcks := pendingAcks[over..];
        }
        phase := Idle;
      }
    }
  }
}
