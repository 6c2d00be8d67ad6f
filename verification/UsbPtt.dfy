// The keying helper for USB radio interfaces (deploy/pocket/extras/usb_ptt.py): KEY, UNKEY and QUIT on lines,
// a watchdog that unkeys without a fresh KEY, and an unkey on every way out.
//
// Every interaction with the world (a look at the input, a USB transfer, a line written) takes its outcome
// and its time from `world`, one moment each; a signal may interrupt any of them.

module UsbPtt {
  import opened Common

  const READ_MAX: nat := 1024
  const LINE_MAX: nat := 256

  datatype Kind = Key | Unkey

  // A transfer interrupted by a signal may have taken effect or not.
  datatype Result = Done | Failed | Interrupted(took: bool) {
    predicate Took() { Done? || (Interrupted? && took) }
  }

  datatype Transfer = Transfer(kind: Kind, result: Result, at: real)

  // The input: a chunk, its end, nothing ready, or an error or signal.
  datatype Poll = Data(chunk: string) | End | Quiet | Breaks

  datatype Said = Written | Raises | Stopped

  datatype Moment = Moment(at: real, poll: Poll, result: Result, said: Said)

  // The line as its last effective transfer left it, the server's own state, the transfers made, and the
  // times at which the input was looked at and had nothing ready.
  datatype Server = Server(
    keyed: bool, keyedAt: Option<real>, buf: string, eof: bool, exited: bool,
    step: nat, log: seq<Transfer>, quiet: seq<real>)

  function Fresh(): Server { Server(false, None, "", false, false, 0, [], []) }

  // ---- lines --------------------------------------------------------------------------------------

  predicate Pending(buf: string) { '\n' in buf }

  function FirstNewline(buf: string): (n: nat)
    requires Pending(buf)
    ensures n < |buf| && buf[n] == '\n' && '\n' !in buf[..n]
  {
    if buf[0] == '\n' then 0 else 1 + FirstNewline(buf[1..])
  }

  // The buffer with one more chunk: a run without a newline that no command can be is dropped.
  function Fed(buf: string, chunk: string): string {
    var all := buf + chunk;
    if !Pending(all) && |all| > LINE_MAX then "" else all
  }

  // ---- one turn of the loop -------------------------------------------------------------------------

  function Transferred(s: Server, kind: Kind, world: nat -> Moment): Server {
    var m := world(s.step);
    s.(step := s.step + 1, log := s.log + [Transfer(kind, m.result, m.at)],
       keyed := if m.result.Took() then kind.Key? else s.keyed)
  }

  // Every way out goes through `close`, which unkeys.
  function Closed(s: Server, world: nat -> Moment): Server {
    Transferred(s, Unkey, world).(exited := true)
  }

  // A transfer or a write raised an OSError.
  function Recovered(s: Server, world: nat -> Moment): Server {
    var t := Transferred(s.(keyedAt := None), Unkey, world);
    if world(s.step).result.Interrupted? then Closed(t, world) else Told(t, world)
  }

  // A line written outside the handler.
  function Told(s: Server, world: nat -> Moment): Server {
    var t := s.(step := s.step + 1);
    if world(s.step).said.Written? then t else Closed(t, world)
  }

  // A line written inside the handler.
  function Answered(s: Server, world: nat -> Moment): Server {
    var t := s.(step := s.step + 1);
    match world(s.step).said
    case Written => t
    case Raises => Recovered(t, world)
    case Stopped => Closed(t, world)
  }

  function Ordered(s: Server, cmd: string, world: nat -> Moment): Server {
    if cmd == "" then s
    else if cmd == "KEY" then
      var t, m := Transferred(s, Key, world), world(s.step);
      (match m.result
       case Done => Answered(t.(keyedAt := Some(m.at)), world)
       case Failed => Recovered(t, world)
       case Interrupted(_) => Closed(t, world))
    else if cmd == "UNKEY" then
      var t := Transferred(s.(keyedAt := None), Unkey, world);
      (match world(s.step).result
       case Done => Answered(t, world)
       case Failed => Recovered(t, world)
       case Interrupted(_) => Closed(t, world))
    else if cmd == "QUIT" then
      var t := Answered(s, world);
      if world(s.step).said.Written? then Closed(t, world) else t
    else Answered(s, world)
  }

  // Nothing was ready by the deadline.
  function Watched(s: Server, world: nat -> Moment): Server {
    var t := Transferred(s, Unkey, world);
    if world(s.step).result.Done? then Told(t.(keyedAt := None), world) else Closed(t, world)
  }

  // One look at the input while no line is pending. Without a deadline, or before it, the look goes on.
  function Looked(s: Server, maxKey: real, world: nat -> Moment): Server {
    var m := world(s.step);
    var t := s.(step := s.step + 1);
    match m.poll
    case Data(chunk) => t.(buf := Fed(s.buf, chunk))
    case End => t.(eof := true)
    case Breaks => Closed(t, world)
    case Quiet =>
      var u := t.(quiet := s.quiet + [m.at]);
      if s.keyedAt.Some? && m.at >= s.keyedAt.value + maxKey then Watched(u, world) else u
  }

  function Turn(s: Server, maxKey: real, world: nat -> Moment): Server {
    if s.exited then s
    else if Pending(s.buf) then
      var n := FirstNewline(s.buf);
      Ordered(s.(buf := s.buf[n + 1..]), Upper(Trim(s.buf[..n])), world)
    else if s.eof then Closed(s, world)
    else Looked(s, maxKey, world)
  }

  function Serve(maxKey: real, world: nat -> Moment, n: nat): Server {
    if n == 0 then Fresh() else Turn(Serve(maxKey, world, n - 1), maxKey, world)
  }

  // ---- what holds on the way ------------------------------------------------------------------------

  // Time passes, and a read returns at most what was asked for.
  ghost predicate Fair(world: nat -> Moment) {
    && (forall i: nat, j: nat :: i <= j ==> world(i).at <= world(j).at)
    && (forall i: nat :: world(i).poll.Data? ==> 0 < |world(i).poll.chunk| <= READ_MAX)
  }

  // The line by its log: as the last transfer that took effect left it.
  function KeyedBy(log: seq<Transfer>): bool {
    if log == [] then false
    else
      var last := log[|log| - 1];
      if last.result == Done || last.result == Interrupted(true) then last.kind.Key? else KeyedBy(log[..|log| - 1])
  }

  predicate LastIs(log: seq<Transfer>, kind: Kind, result: Result) {
    log != [] && log[|log| - 1].kind == kind && log[|log| - 1].result == result
  }

  predicate Tracked(s: Server) { s.keyed == KeyedBy(s.log) }

  // While the server runs: a deadline is armed by the last transfer, a successful key, at its time; a keyed
  // line without a deadline means the last transfer was an unkey that failed.
  predicate Armed(s: Server) {
    && (s.keyedAt.Some? ==> s.keyed && LastIs(s.log, Key, Done) && s.log[|s.log| - 1].at == s.keyedAt.value)
    && (s.keyed && s.keyedAt.None? ==> LastIs(s.log, Unkey, Failed))
  }

  // After it exits: an unkey was the last thing tried, and the line is keyed only if that did not succeed.
  predicate UnkeyedOut(s: Server) {
    s.log != [] && s.log[|s.log| - 1].kind == Unkey && (s.keyed ==> s.log[|s.log| - 1].result != Done)
  }

  // The input was never found quiet at or past the deadline of a key still standing.
  ghost predicate Timely(s: Server, maxKey: real, world: nat -> Moment) {
    forall i :: 0 <= i < |s.quiet| ==> QuietBefore(s, s.quiet[i], maxKey, world)
  }

  // A quiet moment of the past, before the deadline.
  predicate QuietBefore(s: Server, q: real, maxKey: real, world: nat -> Moment) {
    s.step > 0 && q <= world(s.step - 1).at && (s.keyedAt.Some? ==> q < s.keyedAt.value + maxKey)
  }

  predicate Sound(s: Server) { Tracked(s) && if s.exited then UnkeyedOut(s) else Armed(s) }

  lemma TransferTracked(s: Server, kind: Kind, world: nat -> Moment)
    requires Tracked(s)
    ensures Tracked(Transferred(s, kind, world))
  {
    var t := Transferred(s, kind, world);
    assert t.log[..|t.log| - 1] == s.log;
  }

  lemma ClosedIsOut(s: Server, world: nat -> Moment)
    requires Tracked(s)
    ensures var t := Closed(s, world); t.exited && Tracked(t) && UnkeyedOut(t)
  {
    TransferTracked(s, Unkey, world);
  }

  // What handling a command may do to the deadline: nothing, disarm it, or arm it now.
  predicate Moves(s: Server, t: Server, world: nat -> Moment) {
    && t.step >= s.step && t.quiet == s.quiet && t.buf == s.buf
    && (t.exited || t.keyedAt.None? || t.keyedAt == s.keyedAt
        || (t.step > s.step && t.keyedAt == Some(world(s.step).at)))
  }

  lemma ToldSound(s: Server, world: nat -> Moment)
    requires Sound(s) && !s.exited
    ensures var t := Told(s, world); Sound(t) && Moves(s, t, world) && (t.exited || t.keyedAt == s.keyedAt)
  {
    ClosedIsOut(s.(step := s.step + 1), world);
  }

  lemma RecoveredSound(s: Server, world: nat -> Moment)
    requires Tracked(s) && !s.exited
    ensures var t := Recovered(s, world); Sound(t) && Moves(s, t, world) && (t.exited || t.keyedAt.None?)
  {
    var t := Transferred(s.(keyedAt := None), Unkey, world);
    TransferTracked(s.(keyedAt := None), Unkey, world);
    if world(s.step).result.Interrupted? { ClosedIsOut(t, world); } else { ToldSound(t, world); }
  }

  lemma AnsweredSound(s: Server, world: nat -> Moment, r: Server)
    requires Sound(s) && !s.exited && r == Answered(s, world)
    ensures Sound(r)
    ensures Moves(s, r, world)
    ensures r.exited || r.keyedAt.None? || r.keyedAt == s.keyedAt
  {
    var t := s.(step := s.step + 1);
    if world(s.step).said.Raises? {
      RecoveredSound(t, world);
      assert r == Recovered(t, world);
    } else if world(s.step).said.Stopped? {
      ClosedIsOut(t, world);
      assert r == Closed(t, world);
    }
  }

  lemma KeySound(s: Server, world: nat -> Moment)
    requires Sound(s) && !s.exited
    ensures Sound(Ordered(s, "KEY", world)) && Moves(s, Ordered(s, "KEY", world), world)
  {
    var t := Transferred(s, Key, world);
    TransferTracked(s, Key, world);
    match world(s.step).result
    case Done => AnsweredSound(t.(keyedAt := Some(world(s.step).at)), world, Ordered(s, "KEY", world));
    case Failed => RecoveredSound(t, world);
    case Interrupted(_) => ClosedIsOut(t, world);
  }

  lemma UnkeySound(s: Server, world: nat -> Moment)
    requires Sound(s) && !s.exited
    ensures Sound(Ordered(s, "UNKEY", world)) && Moves(s, Ordered(s, "UNKEY", world), world)
  {
    var t := Transferred(s.(keyedAt := None), Unkey, world);
    TransferTracked(s.(keyedAt := None), Unkey, world);
    match world(s.step).result
    case Done => AnsweredSound(t, world, Ordered(s, "UNKEY", world));
    case Failed => RecoveredSound(t, world);
    case Interrupted(_) => ClosedIsOut(t, world);
  }

  lemma OrderedSound(s: Server, cmd: string, world: nat -> Moment)
    requires Sound(s) && !s.exited
    ensures Sound(Ordered(s, cmd, world)) && Moves(s, Ordered(s, cmd, world), world)
  {
    if cmd == "KEY" {
      KeySound(s, world);
    } else if cmd == "UNKEY" {
      UnkeySound(s, world);
    } else if cmd == "QUIT" && world(s.step).said.Written? {
      ClosedIsOut(s.(step := s.step + 1), world);
    } else if cmd != "" {
      AnsweredSound(s, world, Answered(s, world));
    }
  }

  lemma WatchedSound(s: Server, world: nat -> Moment)
    requires Sound(s) && !s.exited
    ensures var t := Watched(s, world);
      Sound(t) && (t.exited || t.keyedAt.None?) && t.step > s.step && t.quiet == s.quiet
  {
    var t := Transferred(s, Unkey, world);
    TransferTracked(s, Unkey, world);
    if world(s.step).result.Done? { ToldSound(t.(keyedAt := None), world); } else { ClosedIsOut(t, world); }
  }

  lemma LookedSound(s: Server, maxKey: real, world: nat -> Moment)
    requires Sound(s) && !s.exited
    ensures Sound(Looked(s, maxKey, world))
  {
    var m, t := world(s.step), s.(step := s.step + 1);
    match m.poll
    case Data(_) =>
    case End =>
    case Breaks => ClosedIsOut(t, world);
    case Quiet =>
      if s.keyedAt.Some? && m.at >= s.keyedAt.value + maxKey { WatchedSound(t.(quiet := s.quiet + [m.at]), world); }
  }

  ghost predicate TurnKeeps(inv: Server -> bool, s: Server, maxKey: real, world: nat -> Moment) {
    inv(s) ==> inv(Turn(s, maxKey, world))
  }

  lemma {:induction false} TurnsKeep(inv: Server -> bool, maxKey: real, world: nat -> Moment, n: nat)
    requires inv(Fresh())
    requires forall s {:trigger TurnKeeps(inv, s, maxKey, world)} :: TurnKeeps(inv, s, maxKey, world)
    ensures inv(Serve(maxKey, world, n))
    decreases n
  {
    if n > 0 {
      TurnsKeep(inv, maxKey, world, n - 1);
      assert TurnKeeps(inv, Serve(maxKey, world, n - 1), maxKey, world);
    }
  }

  lemma TurnSound(s: Server, maxKey: real, world: nat -> Moment)
    requires Sound(s)
    ensures Sound(Turn(s, maxKey, world))
  {
    if s.exited {
    } else if Pending(s.buf) {
      var k := FirstNewline(s.buf);
      OrderedSound(s.(buf := s.buf[k + 1..]), Upper(Trim(s.buf[..k])), world);
    } else if s.eof {
      ClosedIsOut(s, world);
    } else {
      LookedSound(s, maxKey, world);
    }
  }

  lemma EveryRunSound(maxKey: real, world: nat -> Moment, n: nat)
    ensures Sound(Serve(maxKey, world, n))
  {
    forall s | Sound(s) ensures Sound(Turn(s, maxKey, world)) { TurnSound(s, maxKey, world); }
    TurnsKeep(Sound, maxKey, world, n);
  }

  // Over every run, whatever fails and wherever a signal strikes: while the server runs, a keyed line has its
  // deadline armed at the last key, unless the last transfer was an unkey that failed; and every way out ends
  // with an unkey, which leaves the line keyed only if it did not succeed.
  lemma KeyedMeansArmedOrOut(maxKey: real, world: nat -> Moment, n: nat)
    ensures var s := Serve(maxKey, world, n);
      && s.keyed == KeyedBy(s.log)
      && (!s.exited && s.keyed ==>
            LastIs(s.log, Unkey, Failed) || (LastIs(s.log, Key, Done) && s.keyedAt == Some(s.log[|s.log| - 1].at)))
      && (s.exited ==>
            s.log != [] && s.log[|s.log| - 1].kind == Unkey && (s.keyed ==> s.log[|s.log| - 1].result != Done))
  {
    EveryRunSound(maxKey, world, n);
  }

  // ---- what the commands do -------------------------------------------------------------------------

  lemma {:induction false} FirstNewlineOf(line: string, rest: string)
    requires '\n' !in line
    ensures Pending(line + "\n" + rest) && FirstNewline(line + "\n" + rest) == |line|
  {
    assert (line + "\n" + rest)[|line|] == '\n';
    if line != "" {
      FirstNewlineOf(line[1..], rest);
      assert (line + "\n" + rest)[1..] == line[1..] + "\n" + rest;
    }
  }

  // A turn takes the first pending line and runs it, whatever follows it.
  lemma TurnRunsTheFirstLine(s: Server, line: string, rest: string, maxKey: real, world: nat -> Moment)
    requires !s.exited && '\n' !in line && s.buf == line + "\n" + rest
    ensures Turn(s, maxKey, world) == Ordered(s.(buf := rest), Upper(Trim(line)), world)
  {
    FirstNewlineOf(line, rest);
    assert s.buf[|line|] == '\n';
    assert s.buf[..|line|] == line && s.buf[|line| + 1..] == rest;
  }

  // When the transfer and the answer succeed, KEY keys and arms the deadline from that moment, UNKEY unkeys and
  // disarms it, and the server goes on; QUIT once answered and the end of the input unkey and end it.
  lemma CommandsDoWhatTheySay(s: Server, maxKey: real, world: nat -> Moment)
    requires !s.exited && world(s.step).result.Done?
    ensures world(s.step + 1).said.Written? ==>
      var k, u := Ordered(s, "KEY", world), Ordered(s, "UNKEY", world);
      && !k.exited && k.keyed && k.keyedAt == Some(world(s.step).at)
      && k.log == s.log + [Transfer(Key, Done, world(s.step).at)]
      && !u.exited && !u.keyed && u.keyedAt.None?
      && u.log == s.log + [Transfer(Unkey, Done, world(s.step).at)]
    ensures world(s.step).said.Written? && world(s.step + 1).result.Done? ==>
      var q := Ordered(s, "QUIT", world); q.exited && !q.keyed
    ensures !Pending(s.buf) && s.eof ==> var e := Turn(s, maxKey, world); e.exited && !e.keyed
  {
  }

  // ---- the watchdog ---------------------------------------------------------------------------------

  lemma CommandTimely(s: Server, t: Server, maxKey: real, world: nat -> Moment)
    requires Fair(world) && maxKey > 0.0 && Timely(s, maxKey, world) && Moves(s, t, world) && !t.exited
    ensures Timely(t, maxKey, world)
  {
    forall i | 0 <= i < |t.quiet| ensures QuietBefore(t, t.quiet[i], maxKey, world) {
      assert QuietBefore(s, s.quiet[i], maxKey, world);
      QuietStill(s, t, s.quiet[i], maxKey, world);
    }
  }

  lemma QuietStill(s: Server, t: Server, q: real, maxKey: real, world: nat -> Moment)
    requires Fair(world) && maxKey > 0.0 && QuietBefore(s, q, maxKey, world) && Moves(s, t, world) && !t.exited
    ensures QuietBefore(t, q, maxKey, world)
  {
    InTime(world, s.step - 1, t.step - 1);
    InTime(world, s.step - 1, s.step);
  }

  lemma InTime(world: nat -> Moment, i: nat, j: nat)
    requires Fair(world) && i <= j
    ensures world(i).at <= world(j).at
  {
  }

  lemma LookTimely(s: Server, maxKey: real, world: nat -> Moment)
    requires Fair(world) && !s.exited && Sound(s) && Timely(s, maxKey, world) && !Looked(s, maxKey, world).exited
    ensures Timely(Looked(s, maxKey, world), maxKey, world)
  {
    var m, t := world(s.step), Looked(s, maxKey, world);
    var u := s.(step := s.step + 1, quiet := s.quiet + [m.at]);
    if s.step > 0 { InTime(world, s.step - 1, s.step); }
    if m.poll.Quiet? && s.keyedAt.Some? && m.at >= s.keyedAt.value + maxKey {
      WatchedSound(u, world);
      InTime(world, s.step, t.step - 1);
    }
  }

  lemma TurnTimely(s: Server, maxKey: real, world: nat -> Moment)
    requires Fair(world) && maxKey > 0.0 && !s.exited && Sound(s) && Timely(s, maxKey, world)
    requires !Turn(s, maxKey, world).exited
    ensures Timely(Turn(s, maxKey, world), maxKey, world)
  {
    if Pending(s.buf) {
      var k := FirstNewline(s.buf);
      var u := s.(buf := s.buf[k + 1..]);
      OrderedSound(u, Upper(Trim(s.buf[..k])), world);
      CommandTimely(u, Turn(s, maxKey, world), maxKey, world);
    } else {
      LookTimely(s, maxKey, world);
    }
  }

  // Over every run in which time passes: at no moment from its deadline on was the input found quiet while
  // the key still stood. A key outlives its deadline only behind input that keeps coming.
  lemma NoKeyOutlivesAQuietDeadline(maxKey: real, world: nat -> Moment, n: nat)
    requires Fair(world) && maxKey > 0.0
    ensures var s := Serve(maxKey, world, n);
      !s.exited && s.keyedAt.Some? ==> forall i :: 0 <= i < |s.quiet| ==> s.quiet[i] < s.keyedAt.value + maxKey
  {
    var inv := (s: Server) => Sound(s) && (s.exited || Timely(s, maxKey, world));
    forall s | inv(s) ensures inv(Turn(s, maxKey, world)) {
      TurnSound(s, maxKey, world);
      if !s.exited && !Turn(s, maxKey, world).exited { TurnTimely(s, maxKey, world); }
    }
    TurnsKeep(inv, maxKey, world, n);
  }

  // The watchdog acts exactly at a quiet moment past the deadline: a look at the input makes a transfer, an
  // unkey, in that case and when the look itself fails, and in no other.
  lemma WatchdogActsIff(s: Server, maxKey: real, world: nat -> Moment)
    requires !s.exited
    ensures var m, t := world(s.step), Looked(s, maxKey, world);
      if m.poll.Breaks? || (m.poll.Quiet? && s.keyedAt.Some? && m.at >= s.keyedAt.value + maxKey)
      then |t.log| > |s.log| && t.log[|s.log|].kind == Unkey
          && (m.poll.Quiet? && world(s.step + 1).result == Done ==> !t.keyed)
      else t.log == s.log
    ensures Looked(s, maxKey, world).quiet == s.quiet + if world(s.step).poll.Quiet? then [world(s.step).at] else []
  {
  }

  // After it acted, the server goes on, its deadline gone, exactly when the unkey succeeded and could be told.
  lemma WatchdogGoesOnIff(s: Server, maxKey: real, world: nat -> Moment)
    requires !s.exited && s.keyedAt.Some?
    requires world(s.step).poll.Quiet? && world(s.step).at >= s.keyedAt.value + maxKey
    ensures var t, m := Looked(s, maxKey, world), world(s.step + 1);
      && (!t.exited <==> m.result == Done && world(s.step + 2).said.Written?)
      && (!t.exited ==>
            t.keyedAt.None? && !t.keyed && t.log == s.log + [Transfer(Unkey, Done, m.at)] && t.step == s.step + 3)
  {
  }

  // QUIT ends the server unless its answer cannot be written and the error that follows is dealt with and told.
  lemma QuitEndsIff(s: Server, world: nat -> Moment)
    requires !s.exited
    ensures Ordered(s, "QUIT", world).exited <==>
      !(world(s.step).said.Raises? && !world(s.step + 1).result.Interrupted? && world(s.step + 2).said.Written?)
  {
    if world(s.step).said.Raises? {
      var t := s.(step := s.step + 1);
      assert Answered(s, world) == Recovered(t, world);
    }
  }

  // After UNKEY the server goes on with the line keyed exactly when the transfer fails, the one that follows
  // fails too, and the error can be told.
  lemma UnkeyLeavesKeyedIff(s: Server, world: nat -> Moment)
    requires !s.exited && s.keyed
    ensures var t := Ordered(s, "UNKEY", world);
      !t.exited && t.keyed <==>
        world(s.step).result.Failed? && world(s.step + 1).result.Failed? && world(s.step + 2).said.Written?
    ensures var t := Ordered(s, "UNKEY", world); !t.exited ==> t.keyedAt.None?
  {
    var t := Transferred(s.(keyedAt := None), Unkey, world);
    match world(s.step).result
    case Done =>
    case Failed =>
    case Interrupted(_) =>
  }

  // Then it stays keyed with no deadline, however long the input is quiet.
  lemma {:induction false} FailedUnkeyDisarms(s: Server, maxKey: real, world: nat -> Moment, n: nat)
    requires !s.exited && !Pending(s.buf) && !s.eof && s.keyed && s.keyedAt.None?
    requires forall i: nat :: i >= s.step ==> world(i).poll == Quiet
    ensures var t := Turns(s, maxKey, world, n); !t.exited && t.keyed && t.keyedAt.None? && t.log == s.log
    ensures var t := Turns(s, maxKey, world, n); t.buf == s.buf && !t.eof && t.step >= s.step
    decreases n
  {
    if n > 0 {
      FailedUnkeyDisarms(s, maxKey, world, n - 1);
      QuietTurn(Turns(s, maxKey, world, n - 1), maxKey, world);
    }
  }

  // A quiet look without a deadline.
  lemma QuietTurn(s: Server, maxKey: real, world: nat -> Moment)
    requires !s.exited && !Pending(s.buf) && !s.eof && s.keyedAt.None? && world(s.step).poll == Quiet
    ensures var t := Turn(s, maxKey, world);
      !t.exited && t.keyed == s.keyed && t.keyedAt.None? && t.log == s.log && t.buf == s.buf && !t.eof
      && t.step == s.step + 1
  {
  }

  function Turns(s: Server, maxKey: real, world: nat -> Moment, n: nat): Server {
    if n == 0 then s else Turn(Turns(s, maxKey, world, n - 1), maxKey, world)
  }

  // ---- how long a key stands ------------------------------------------------------------------------

  // The log only grows, and what a step adds follows what was there.
  predicate Extends(a: seq<Transfer>, b: seq<Transfer>) { |a| <= |b| && b[..|a|] == a }

  lemma ExtendsChain(a: seq<Transfer>, b: seq<Transfer>, c: seq<Transfer>)
    requires Extends(a, b) && Extends(b, c)
    ensures Extends(a, c)
  {
    assert c[..|a|] == c[..|b|][..|a|];
  }

  lemma ClosedExtends(s: Server, world: nat -> Moment)
    ensures Extends(s.log, Closed(s, world).log) && Closed(s, world).log[|s.log|].kind == Unkey
  {
  }

  lemma ToldExtends(s: Server, world: nat -> Moment)
    ensures Extends(s.log, Told(s, world).log)
  {
    ClosedExtends(s.(step := s.step + 1), world);
  }

  lemma RecoveredExtends(s: Server, world: nat -> Moment)
    ensures Extends(s.log, Recovered(s, world).log)
  {
    var t := Transferred(s.(keyedAt := None), Unkey, world);
    assert Extends(s.log, t.log);
    ClosedExtends(t, world);
    ToldExtends(t, world);
    ExtendsChain(s.log, t.log, Recovered(s, world).log);
  }

  lemma AnsweredExtends(s: Server, world: nat -> Moment)
    ensures Extends(s.log, Answered(s, world).log)
  {
    var t := s.(step := s.step + 1);
    RecoveredExtends(t, world);
    ClosedExtends(t, world);
  }

  // What follows a transfer and its outcome.
  lemma OutcomeExtends(s: Server, t: Server, done: Server, world: nat -> Moment)
    requires Extends(s.log, t.log) && done == t.(keyedAt := done.keyedAt)
    ensures Extends(s.log, Answered(done, world).log) && Extends(s.log, Recovered(t, world).log)
    ensures Extends(s.log, Closed(t, world).log)
  {
    AnsweredExtends(done, world);
    RecoveredExtends(t, world);
    ClosedExtends(t, world);
    ExtendsChain(s.log, t.log, Answered(done, world).log);
    ExtendsChain(s.log, t.log, Recovered(t, world).log);
    ExtendsChain(s.log, t.log, Closed(t, world).log);
  }

  lemma OrderedExtends(s: Server, cmd: string, world: nat -> Moment)
    ensures Extends(s.log, Ordered(s, cmd, world).log)
  {
    var k, u := Transferred(s, Key, world), Transferred(s.(keyedAt := None), Unkey, world);
    if cmd == "KEY" {
      OutcomeExtends(s, k, k.(keyedAt := Some(world(s.step).at)), world);
    } else if cmd == "UNKEY" {
      OutcomeExtends(s, u, u, world);
    } else {
      var t := Answered(s, world);
      AnsweredExtends(s, world);
      ClosedExtends(t, world);
      ExtendsChain(s.log, t.log, Closed(t, world).log);
    }
  }

  lemma WatchedExtends(s: Server, world: nat -> Moment)
    ensures var t := Watched(s, world);
      Extends(s.log, t.log) && |t.log| > |s.log| && t.log[|s.log|].kind == Unkey
  {
    var t := Transferred(s, Unkey, world);
    assert Extends(s.log, t.log) && t.log[|s.log|].kind == Unkey;
    ToldExtends(t.(keyedAt := None), world);
    ClosedExtends(t, world);
    var r := Watched(s, world);
    assert Extends(t.log, r.log);
    ExtendsChain(s.log, t.log, r.log);
    assert r.log[|s.log|] == r.log[..|t.log|][|s.log|];
  }

  lemma LookedExtends(s: Server, maxKey: real, world: nat -> Moment)
    ensures Extends(s.log, Looked(s, maxKey, world).log)
  {
    var t := s.(step := s.step + 1);
    ClosedExtends(t, world);
    WatchedExtends(t.(quiet := s.quiet + [world(s.step).at]), world);
  }

  lemma TurnExtends(s: Server, maxKey: real, world: nat -> Moment, t: Server)
    requires t == Turn(s, maxKey, world)
    ensures Extends(s.log, t.log)
  {
    if s.exited {
    } else if Pending(s.buf) {
      var n := FirstNewline(s.buf);
      OrderedExtends(s.(buf := s.buf[n + 1..]), Upper(Trim(s.buf[..n])), world);
    } else if s.eof {
      ClosedExtends(s, world);
    } else {
      LookedExtends(s, maxKey, world);
    }
  }

  // No other command touches the line: an empty one is passed over, an unknown one only answered. Only an answer
  // that cannot be written makes a transfer, and that is an unkey.
  lemma OtherCommandsLeaveTheLine(s: Server, cmd: string, world: nat -> Moment)
    requires !s.exited && cmd != "KEY" && cmd != "UNKEY" && cmd != "QUIT"
    ensures var t := Ordered(s, cmd, world);
      if cmd == "" then t == s
      else if world(s.step).said.Written? then t == s.(step := s.step + 1)
      else |t.log| > |s.log| && t.log[|s.log|].kind == Unkey && (t.exited || t.keyedAt.None?)
  {
    if cmd != "" && !world(s.step).said.Written? {
      var t := s.(step := s.step + 1);
      var u := if world(s.step).said.Raises? then t.(keyedAt := None) else t;
      assert Extends(Transferred(u, Unkey, world).log, Ordered(s, cmd, world).log) by { AnswerUnkeys(s, world); }
    }
  }

  // A KEY whose transfer does not succeed, or whose answer cannot be written, is followed at once by an unkey, and
  // leaves no deadline armed.
  lemma FailedKeyUnkeys(s: Server, world: nat -> Moment)
    requires !s.exited && (world(s.step).result != Done || !world(s.step + 1).said.Written?)
    ensures var t := Ordered(s, "KEY", world);
      && |t.log| >= |s.log| + 2 && t.log[..|s.log|] == s.log && (t.exited || t.keyedAt.None?)
      && t.log[|s.log|] == Transfer(Key, world(s.step).result, world(s.step).at) && t.log[|s.log| + 1].kind == Unkey
  {
    var t := Transferred(s, Key, world);
    match world(s.step).result
    case Done => AnswerUnkeys(t.(keyedAt := Some(world(s.step).at)), world);
    case Failed => RecoveryUnkeys(t, world);
    case Interrupted(_) =>
  }

  lemma RecoveryUnkeys(s: Server, world: nat -> Moment)
    requires !s.exited
    ensures var r := Recovered(s, world);
      Extends(Transferred(s.(keyedAt := None), Unkey, world).log, r.log) && (r.exited || r.keyedAt.None?)
  {
    var u := Transferred(s.(keyedAt := None), Unkey, world);
    if world(s.step).result.Interrupted? { ClosedExtends(u, world); } else { ToldExtends(u, world); }
  }

  // An answer that cannot be written is followed by an unkey, whatever the world does.
  lemma AnswerUnkeys(s: Server, world: nat -> Moment)
    requires !s.exited && !world(s.step).said.Written?
    ensures var t, r := s.(step := s.step + 1), Answered(s, world);
      && Extends(Transferred(t, Unkey, world).log, r.log) && (r.exited || r.keyedAt.None?)
  {
    if world(s.step).said.Raises? { RecoveryUnkeys(s.(step := s.step + 1), world); }
  }

  // A key that stands, its deadline armed, with no line pending.
  predicate Standing(s: Server) {
    !s.exited && !s.eof && !Pending(s.buf) && s.keyed && s.keyedAt.Some?
  }

  // The i-th moment, as a look, lets it stand: something to read, or nothing before the deadline.
  predicate Leaves(world: nat -> Moment, i: nat, deadline: real) {
    world(i).poll.Data? || (world(i).poll.Quiet? && world(i).at < deadline)
  }

  predicate CompletesLine(world: nat -> Moment, i: nat) { world(i).poll.Data? && '\n' in world(i).poll.chunk }

  // No line is completed by what the next n looks read.
  ghost predicate NoLine(world: nat -> Moment, from: nat, n: nat) {
    forall i: nat :: from <= i < from + n ==> !CompletesLine(world, i)
  }

  // All of the next n looks let it stand.
  ghost predicate AllLeave(world: nat -> Moment, from: nat, n: nat, deadline: real) {
    forall i: nat :: from <= i < from + n ==> Leaves(world, i, deadline)
  }

  lemma FedHasNoLine(buf: string, chunk: string)
    requires !Pending(buf) && '\n' !in chunk
    ensures !Pending(Fed(buf, chunk))
  {
  }

  // Nothing was sent to the line.
  predicate StillKeyed(s: Server, t: Server) {
    t.log == s.log && t.keyed && t.keyedAt == s.keyedAt && !t.exited
  }

  // Something was, and an unkey first.
  predicate Unkeys(s: Server, t: Server) {
    Extends(s.log, t.log) && |t.log| > |s.log| && t.log[|s.log|].kind == Unkey
  }

  lemma LeftStanding(s: Server, maxKey: real, world: nat -> Moment, t: Server)
    requires Standing(s) && Leaves(world, s.step, s.keyedAt.value + maxKey) && !CompletesLine(world, s.step)
    requires t == Turn(s, maxKey, world)
    ensures Standing(t) && t.keyedAt == s.keyedAt && t.log == s.log && t.step == s.step + 1
  {
    var m := world(s.step);
    assert t == Looked(s, maxKey, world);
    if m.poll.Data? { FedHasNoLine(s.buf, m.poll.chunk); }
  }

  // A run of turns, state by state: each is what a turn makes of the one before.
  predicate TurnsTo(us: seq<Server>, k: nat, maxKey: real, world: nat -> Moment)
    requires k + 1 < |us|
  {
    us[k + 1] == Turn(us[k], maxKey, world)
  }

  ghost predicate Trace(us: seq<Server>, maxKey: real, world: nat -> Moment) {
    us != [] && forall k: nat :: k + 1 < |us| ==> TurnsTo(us, k, maxKey, world)
  }

  lemma LeftAt(us: seq<Server>, maxKey: real, world: nat -> Moment, k: nat)
    requires Trace(us, maxKey, world) && k + 1 < |us| && Standing(us[k])
    requires Leaves(world, us[k].step, us[k].keyedAt.value + maxKey) && !CompletesLine(world, us[k].step)
    ensures Standing(us[k + 1]) && StillKeyed(us[k], us[k + 1]) && us[k + 1].step == us[k].step + 1
  {
    assert TurnsTo(us, k, maxKey, world);
    LeftStanding(us[k], maxKey, world, us[k + 1]);
  }

  // Input that keeps coming without a newline holds a key past any deadline.
  lemma {:induction false} StandsWhileLeft(us: seq<Server>, maxKey: real, world: nat -> Moment, n: nat)
    requires Trace(us, maxKey, world) && n < |us| && Standing(us[0]) && NoLine(world, us[0].step, n)
    requires AllLeave(world, us[0].step, n, us[0].keyedAt.value + maxKey)
    ensures Standing(us[n]) && StillKeyed(us[0], us[n]) && us[n].step == us[0].step + n
    decreases n
  {
    if n > 0 {
      StandsWhileLeft(us, maxKey, world, n - 1);
      LeftAt(us, maxKey, world, n - 1);
    }
  }

  // The next n looks let it stand, but for the last, which may find the end of the input.
  ghost predicate LeftUntil(world: nat -> Moment, from: nat, n: nat, deadline: real) {
    n == 0 || (AllLeave(world, from, n - 1, deadline)
               && (Leaves(world, from + n - 1, deadline) || world(from + n - 1).poll.End?))
  }

  lemma UnkeyStays(s: Server, t: Server, u: Server, maxKey: real, world: nat -> Moment)
    requires Unkeys(s, t) && u == Turn(t, maxKey, world)
    ensures Unkeys(s, u)
  {
    TurnExtends(t, maxKey, world, u);
    ExtendsChain(s.log, t.log, u.log);
    assert u.log[|s.log|] == u.log[..|t.log|][|s.log|];
  }

  // Any other look ends it: by an unkey, or, at the end of the input, by the turn after.
  lemma EndsAt(s: Server, maxKey: real, world: nat -> Moment, t: Server, u: Server)
    requires Standing(s) && !Leaves(world, s.step, s.keyedAt.value + maxKey)
    requires t == Turn(s, maxKey, world) && u == Turn(t, maxKey, world)
    ensures if world(s.step).poll.End? then StillKeyed(s, t) else Unkeys(s, t)
    ensures Unkeys(s, u)
  {
    var next := s.(step := s.step + 1);
    if world(s.step).poll.End? {
      ClosedExtends(t, world);
    } else {
      ClosedExtends(next, world);
      WatchedExtends(next.(quiet := s.quiet + [world(s.step).at]), world);
      UnkeyStays(s, t, u, maxKey, world);
    }
  }

  lemma EndedAt(us: seq<Server>, maxKey: real, world: nat -> Moment, k: nat)
    requires Trace(us, maxKey, world) && k + 1 < |us| && Standing(us[k])
    requires !Leaves(world, us[k].step, us[k].keyedAt.value + maxKey)
    ensures if world(us[k].step).poll.End? then StillKeyed(us[k], us[k + 1]) else Unkeys(us[k], us[k + 1])
    ensures k + 2 < |us| ==> Unkeys(us[k], us[k + 2])
  {
    assert TurnsTo(us, k, maxKey, world);
    if k + 2 < |us| { assert TurnsTo(us, k + 1, maxKey, world); }
    EndsAt(us[k], maxKey, world, us[k + 1], Turn(us[k + 1], maxKey, world));
  }

  lemma UnkeyedStays(us: seq<Server>, maxKey: real, world: nat -> Moment, k: nat)
    requires Trace(us, maxKey, world) && k + 1 < |us| && Unkeys(us[0], us[k])
    ensures Unkeys(us[0], us[k + 1])
  {
    assert TurnsTo(us, k, maxKey, world);
    UnkeyStays(us[0], us[k], us[k + 1], maxKey, world);
  }

  // The look that ended it is over, and at least one turn more.
  lemma {:induction false} EndedEarlier(us: seq<Server>, maxKey: real, world: nat -> Moment, n: nat)
    requires Trace(us, maxKey, world) && n + 1 < |us| && Standing(us[0]) && NoLine(world, us[0].step, n)
    requires !AllLeave(world, us[0].step, n, us[0].keyedAt.value + maxKey)
    ensures Unkeys(us[0], us[n + 1])
    decreases n
  {
    if AllLeave(world, us[0].step, n - 1, us[0].keyedAt.value + maxKey) {
      StandsWhileLeft(us, maxKey, world, n - 1);
      EndedAt(us, maxKey, world, n - 1);
    } else {
      EndedEarlier(us, maxKey, world, n - 1);
      UnkeyedStays(us, maxKey, world, n);
    }
  }

  // Without a complete line, a key that stands with its deadline armed is left alone by the next n turns exactly
  // if none of their looks fails or finds the input quiet at or past the deadline, and none but the last finds
  // its end; else the next transfer is an unkey.
  lemma KeyStandsIff(us: seq<Server>, maxKey: real, world: nat -> Moment, n: nat)
    requires Trace(us, maxKey, world) && n < |us| && Standing(us[0]) && NoLine(world, us[0].step, n)
    ensures if LeftUntil(world, us[0].step, n, us[0].keyedAt.value + maxKey) then StillKeyed(us[0], us[n])
            else Unkeys(us[0], us[n])
  {
    if n > 0 {
      var last, deadline := us[0].step + n - 1, us[0].keyedAt.value + maxKey;
      if AllLeave(world, us[0].step, n - 1, deadline) {
        StandsWhileLeft(us, maxKey, world, n - 1);
        if Leaves(world, last, deadline) {
          LeftAt(us, maxKey, world, n - 1);
        } else {
          EndedAt(us, maxKey, world, n - 1);
        }
      } else {
        EndedEarlier(us, maxKey, world, n - 1);
      }
    }
  }

  // One byte a second after the KEY, and no newline.
  function Drip(i: nat): Moment { Moment(i as real, Data(if i == 0 then "KEY\n" else "x"), Done, Written) }

  lemma DripIsFair()
    ensures Fair(Drip)
  {
  }

  // As here, from a fresh server: the key of second 1 still stands at second n + 2, for any n and deadline.
  lemma {:induction false} DripHoldsKey(us: seq<Server>, maxKey: real, n: nat)
    requires Trace(us, maxKey, Drip) && n + 2 < |us| && us[0] == Fresh()
    ensures Fair(Drip) && Standing(us[n + 2]) && us[n + 2].step == n + 3
    ensures us[n + 2].keyedAt == Some(1.0) && us[n + 2].log == [Transfer(Key, Done, 1.0)]
    decreases n
  {
    DripIsFair();
    if n == 0 {
      assert TurnsTo(us, 0, maxKey, Drip) && TurnsTo(us, 1, maxKey, Drip);
      DripKeys(maxKey, us[0], us[1], us[2]);
    } else {
      DripHoldsKey(us, maxKey, n - 1);
      LeftAt(us, maxKey, Drip, n + 1);
    }
  }

  // So of the server itself.
  lemma DripHoldsServer(maxKey: real, n: nat)
    ensures var s := Serve(maxKey, Drip, n + 2); Standing(s) && s.keyedAt == Some(1.0) && s.step == n + 3
  {
    var us := seq(n + 3, i requires 0 <= i < n + 3 => Serve(maxKey, Drip, i));
    assert us[0] == Fresh();
    forall k: nat | k + 1 < |us| ensures TurnsTo(us, k, maxKey, Drip) {
    }
    DripHoldsKey(us, maxKey, n);
  }

  lemma DripKeys(maxKey: real, s: Server, t: Server, u: Server)
    requires s == Fresh() && t == Turn(s, maxKey, Drip) && u == Turn(t, maxKey, Drip)
    ensures u == Server(true, Some(1.0), "", false, false, 3, [Transfer(Key, Done, 1.0)], [])
  {
    KeyLine("KEY\n");
    assert "" + "KEY\n" == "KEY\n";
    assert t == s.(step := 1, buf := "KEY\n");
    assert u == Ordered(t.(buf := ""), "KEY", Drip);
  }

  lemma KeyLine(buf: string)
    requires buf == "KEY\n"
    ensures Pending(buf) && FirstNewline(buf) == 3 && Upper(Trim(buf[..3])) == "KEY" && buf[4..] == ""
  {
    assert buf[3] == '\n';
    assert FirstNewline(buf) == 3;
    assert buf[..3] == "KEY" && Trim("KEY") == "KEY";
  }

  // ---- the buffer -----------------------------------------------------------------------------------

  // The buffer stays bounded: what follows a newline came with one read, and a run without a newline is
  // dropped, so less than two reads are ever held.
  predicate Bounded(buf: string) {
    |buf| < 2 * READ_MAX && (if Pending(buf) then |buf| - FirstNewline(buf) <= READ_MAX else |buf| < READ_MAX)
  }

  lemma FirstNewlineAfter(buf: string, chunk: string)
    requires !Pending(buf) && Pending(buf + chunk)
    ensures FirstNewline(buf + chunk) >= |buf|
  {
    assert forall i :: 0 <= i < |buf| ==> (buf + chunk)[i] == buf[i] != '\n';
  }

  lemma FedIsBounded(buf: string, chunk: string)
    requires Bounded(buf) && !Pending(buf) && |chunk| <= READ_MAX
    ensures Bounded(Fed(buf, chunk))
  {
    if Pending(buf + chunk) { FirstNewlineAfter(buf, chunk); }
  }

  lemma RestIsBounded(buf: string)
    requires Bounded(buf) && Pending(buf)
    ensures Bounded(buf[FirstNewline(buf) + 1..])
  {
  }

  lemma TurnBounded(s: Server, maxKey: real, world: nat -> Moment)
    requires Fair(world) && Sound(s) && Bounded(s.buf)
    ensures Bounded(Turn(s, maxKey, world).buf)
  {
    if s.exited {
    } else if Pending(s.buf) {
      var k := FirstNewline(s.buf);
      RestIsBounded(s.buf);
      OrderedSound(s.(buf := s.buf[k + 1..]), Upper(Trim(s.buf[..k])), world);
    } else if !s.eof && world(s.step).poll.Data? {
      FedIsBounded(s.buf, world(s.step).poll.chunk);
    }
  }

  lemma BufferIsBounded(maxKey: real, world: nat -> Moment, n: nat)
    requires Fair(world)
    ensures |Serve(maxKey, world, n).buf| < 2048
  {
    var inv := (s: Server) => Sound(s) && Bounded(s.buf);
    forall s | inv(s) ensures inv(Turn(s, maxKey, world)) {
      TurnSound(s, maxKey, world);
      TurnBounded(s, maxKey, world);
    }
    TurnsKeep(inv, maxKey, world, n);
  }

  // The buffer as one read after the other leaves it.
  function FedAll(buf: string, chunks: seq<string>): string
    decreases |chunks|
  {
    if chunks == [] then buf else FedAll(Fed(buf, chunks[0]), chunks[1..])
  }

  lemma {:induction false} ShortRunsStay(buf: string, chunks: seq<string>)
    requires '\n' !in buf + Concat(chunks) && |buf + Concat(chunks)| <= 256
    ensures FedAll(buf, chunks) == buf + Concat(chunks)
    decreases |chunks|
  {
    if chunks == [] {
      assert buf + [] == buf;
    } else {
      Associates(buf, chunks[0], Concat(chunks[1..]));
      NoNewlineBefore(buf + chunks[0], Concat(chunks[1..]));
      ShortRunsStay(buf + chunks[0], chunks[1..]);
    }
  }

  lemma NoNewlineBefore(a: string, b: string)
    requires '\n' !in a + b
    ensures '\n' !in a && |a| <= |a + b|
  {
    assert forall i :: 0 <= i < |a| ==> (a + b)[i] == a[i];
  }

  // A line of at most 256 characters arrives whole, in whatever reads it comes: after the read with its newline the
  // buffer starts with it.
  lemma LinesArriveWhole(chunks: seq<string>, last: string)
    requires '\n' !in Concat(chunks) && |Concat(chunks)| <= 256 && '\n' in last
    ensures Fed(FedAll("", chunks), last) == Concat(chunks) + last
  {
    assert "" + Concat(chunks) == Concat(chunks);
    ShortRunsStay("", chunks);
    NewlineStays(Concat(chunks), last);
  }

  lemma NewlineStays(a: string, b: string)
    requires '\n' in b
    ensures Pending(a + b)
  {
    var k :| 0 <= k < |b| && b[k] == '\n';
    assert (a + b)[|a| + k] == '\n';
  }

  // A longer run is dropped by the first read that leaves it without a newline; one that stays within 256 is kept.
  lemma LongRunsAreDropped(buf: string, chunk: string)
    requires '\n' !in buf + chunk
    ensures Fed(buf, chunk) == if |buf| + |chunk| > 256 then "" else buf + chunk
  {
  }

  // ---- the server -----------------------------------------------------------------------------------

  datatype Raised = Fine | OsError | Exit

  // Where a raise or an exit leads.
  function Landed(s: Server, r: Raised, world: nat -> Moment): Server {
    match r case Fine => s case OsError => Recovered(s, world) case Exit => Closed(s, world)
  }

  class PttServer {
    var keyedAt: Option<real>
    var buf: string
    var eof: bool
    var exited: bool
    var step: nat
    // The line itself, and the history.
    ghost var keyed: bool
    ghost var log: seq<Transfer>
    ghost var quiet: seq<real>

    ghost function Now(): Server
      reads this
    {
      Server(keyed, keyedAt, buf, eof, exited, step, log, quiet)
    }

    constructor ()
      ensures Now() == Fresh()
    {
      keyedAt, buf, eof, exited, step, keyed, log, quiet := None, "", false, false, 0, false, [], [];
    }

    method Control(kind: Kind, world: nat -> Moment) returns (r: Raised)
      modifies this
      ensures Now() == Transferred(old(Now()), kind, world)
      ensures r == match world(old(step)).result case Done => Fine case Failed => OsError case Interrupted(_) => Exit
    {
      var m := world(step);
      step := step + 1;
      log := log + [Transfer(kind, m.result, m.at)];
      keyed := if m.result.Took() then kind.Key? else keyed;
      r := match m.result case Done => Fine case Failed => OsError case Interrupted(_) => Exit;
    }

    method Say(world: nat -> Moment) returns (r: Raised)
      modifies this`step
      ensures step == old(step) + 1
      ensures r == match world(old(step)).said case Written => Fine case Raises => OsError case Stopped => Exit
    {
      r := match world(step).said case Written => Fine case Raises => OsError case Stopped => Exit;
      step := step + 1;
    }

    method Close(world: nat -> Moment)
      modifies this
      ensures Now() == Closed(old(Now()), world)
    {
      var r := Control(Unkey, world);
      exited := true;
    }

    // The commands, up to where they return, raise or exit.
    method KeyCommand(world: nat -> Moment) returns (r: Raised)
      modifies this
      ensures Landed(Now(), r, world) == Ordered(old(Now()), "KEY", world)
    {
      var at := world(step).at;
      r := Control(Key, world);
      if r.Fine? {
        keyedAt := Some(at);
        r := Say(world);
      }
    }

    method UnkeyCommand(world: nat -> Moment) returns (r: Raised)
      modifies this
      ensures Landed(Now(), r, world) == Ordered(old(Now()), "UNKEY", world)
    {
      keyedAt := None;
      ghost var s := Now();
      r := Control(Unkey, world);
      assert Now() == Transferred(s, Unkey, world);
      if r.Fine? { r := Say(world); }
    }

    method Command(cmd: string, world: nat -> Moment)
      modifies this
      ensures Now() == Ordered(old(Now()), cmd, world)
    {
      if cmd == "" { return; }
      var r, quits := Fine, false;
      if cmd == "KEY" {
        r := KeyCommand(world);
      } else if cmd == "UNKEY" {
        r := UnkeyCommand(world);
      } else {
        r := Say(world);
        quits := cmd == "QUIT" && r.Fine?;
      }
      if r.OsError? { Recover(world); } else if r.Exit? || quits { Close(world); }
    }

    method Recover(world: nat -> Moment)
      modifies this
      ensures Now() == Recovered(old(Now()), world)
    {
      keyedAt := None;
      var r := Control(Unkey, world);
      if r.Exit? {
        Close(world);
      } else {
        r := Say(world);
        if !r.Fine? { Close(world); }
      }
    }

    // One look at the input.
    method Look(maxKey: real, world: nat -> Moment)
      modifies this
      ensures Now() == Looked(old(Now()), maxKey, world)
    {
      var m := world(step);
      step := step + 1;
      match m.poll
      case Data(chunk) =>
        buf := buf + chunk;
        if '\n' !in buf && |buf| > LINE_MAX { buf := ""; }
      case End => eof := true;
      case Breaks => Close(world);
      case Quiet =>
        quiet := quiet + [m.at];
        ghost var u := Now();
        if keyedAt.Some? && m.at >= keyedAt.value + maxKey {
          Expire(world);
          assert Now() == Watched(u, world);
        }
    }

    // The watchdog's deadline has passed.
    method Expire(world: nat -> Moment)
      modifies this
      ensures Now() == Watched(old(Now()), world)
    {
      var r := Control(Unkey, world);
      if r.Fine? {
        keyedAt := None;
        r := Say(world);
      }
      if !r.Fine? { Close(world); }
    }

    method TakeTurn(maxKey: real, world: nat -> Moment)
      modifies this
      ensures Now() == Turn(old(Now()), maxKey, world)
    {
      if exited { return; }
      if Pending(buf) {
        var k := FirstNewline(buf);
        var cmd := Upper(Trim(buf[..k]));
        ghost var s := Now().(buf := buf[k + 1..]);
        buf := buf[k + 1..];
        assert Now() == s;
        Command(cmd, world);
        assert Now() == Ordered(s, cmd, world);
      } else if eof {
        Close(world);
      } else {
        Look(maxKey, world);
      }
    }

    method Run(maxKey: real, world: nat -> Moment, n: nat)
      requires Now() == Fresh()
      modifies this
      ensures Now() == Serve(maxKey, world, n)
    {
      for i := 0 to n
        invariant Now() == Serve(maxKey, world, i)
      {
        TakeTurn(maxKey, world);
      }
    }
  }
}
