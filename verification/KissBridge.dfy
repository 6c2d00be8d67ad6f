// The USB KISS bridge, client to radio (deploy/pocket/extras/usb_kiss_bridge.py): the deframer, the
// transmit gate, and what reaches the radio.

module KissBridge {
  import opened Arithmetic
  import opened Buckets
  import opened Common

  const FEND: Byte := 192
  const FESC: Byte := 219
  const TFEND: Byte := 220
  const TFESC: Byte := 221
  const MAX_FRAME: nat := 330
  const MAX_ESCAPED: nat := 668 // 2 * MAX_FRAME + 8

  // ---- framing ------------------------------------------------------------------------------------

  // Whether a stream has reached its first FEND, and what follows the last one.
  predicate Opened(s: Bytes) { FEND in s }

  function Tail(s: Bytes): Bytes {
    if s == [] || s[|s| - 1] == FEND then [] else Tail(s[..|s| - 1]) + [s[|s| - 1]]
  }

  // What lies between consecutive FENDs, empty stretches included.
  function Between(s: Bytes): seq<Bytes> {
    if s == [] then []
    else
      var init := s[..|s| - 1];
      if s[|s| - 1] == FEND && Opened(init) then Between(init) + [Tail(init)] else Between(init)
  }

  // The frames a reader with the given limit sees: the stretches that are not empty and not too long.
  function FramesWithin(stretches: seq<Bytes>, limit: nat): seq<Bytes> {
    if stretches == [] then []
    else
      var last := stretches[|stretches| - 1];
      FramesWithin(stretches[..|stretches| - 1], limit) + if 0 < |last| <= limit then [last] else []
  }

  function Frames(s: Bytes): seq<Bytes> {
    FramesWithin(Between(s), MAX_ESCAPED)
  }

  ghost predicate FrameOk(f: Bytes) {
    f != [] && FEND !in f && |f| <= 668
  }

  lemma {:induction false} BetweenIsClean(s: Bytes)
    ensures FEND !in Tail(s) && forall k :: 0 <= k < |Between(s)| ==> FEND !in Between(s)[k]
  {
    if s != [] { BetweenIsClean(s[..|s| - 1]); }
  }

  lemma {:induction false} FramesWithinOk(stretches: seq<Bytes>)
    requires forall k :: 0 <= k < |stretches| ==> FEND !in stretches[k]
    ensures forall f :: f in FramesWithin(stretches, MAX_ESCAPED) ==> FrameOk(f)
  {
    if stretches != [] { FramesWithinOk(stretches[..|stretches| - 1]); }
  }

  // Whatever the client sends, a deframed frame is neither empty nor over 668 bytes, and holds no FEND.
  lemma FramesOk(s: Bytes)
    ensures forall f :: f in Frames(s) ==> FrameOk(f)
  {
    BetweenIsClean(s);
    FramesWithinOk(Between(s));
  }

  lemma AppendByte(s: Bytes, b: Byte)
    ensures Opened(s + [b]) == (Opened(s) || b == FEND)
    ensures Tail(s + [b]) == (if b == FEND then [] else Tail(s) + [b])
    ensures Between(s + [b]) == if b == FEND && Opened(s) then Between(s) + [Tail(s)] else Between(s)
  {
    assert (s + [b])[..|s|] == s;
  }

  lemma FrameEnds(stretches: seq<Bytes>, last: Bytes, limit: nat)
    ensures FramesWithin(stretches + [last], limit) ==
        FramesWithin(stretches, limit) + if 0 < |last| <= limit then [last] else []
  {
    assert (stretches + [last])[..|stretches|] == stretches;
  }

  // What the deframer holds after a stream; a runaway frame waits for the next FEND.
  datatype Held = Held(buf: Bytes, inside: bool)

  function HeldAfter(s: Bytes): Held {
    var inside := Opened(s) && |Tail(s)| <= MAX_ESCAPED;
    Held(if inside then Tail(s) else [], inside)
  }

  // What is held never passes 668 bytes: the frame under way, unless none has begun or it ran over, which is given up
  // until the next FEND.
  lemma HeldIsBounded(s: Bytes)
    ensures var h := HeldAfter(s);
      && |h.buf| <= 668 && (h.inside <==> 0xC0 in s && |Tail(s)| <= 668)
      && h.buf == if h.inside then Tail(s) else []
  {
  }

  lemma {:induction false} FramesOnlyGrow(s: Bytes, more: Bytes)
    ensures Frames(s) <= Frames(s + more)
  {
    if more == [] {
      assert s + more == s;
    } else {
      var init, b := more[..|more| - 1], more[|more| - 1];
      FramesOnlyGrow(s, init);
      assert s + more == (s + init) + [b];
      AppendByte(s + init, b);
      FrameEnds(Between(s + init), Tail(s + init), MAX_ESCAPED);
    }
  }

  // State and frames are functions of the stream alone, so its chunking is invisible.
  class Deframer {
    var buf: Bytes
    var inside: bool
    ghost var stream: Bytes

    ghost predicate Valid()
      reads this
    {
      Held(buf, inside) == HeldAfter(stream)
    }

    constructor ()
      ensures Valid() && stream == []
    {
      buf, inside, stream := [], false, [];
    }

    // One turn of the loop over the bytes.
    method FeedByte(b: Byte) returns (out: seq<Bytes>)
      requires Valid()
      modifies this
      ensures Valid() && stream == old(stream) + [b] && Frames(stream) == Frames(old(stream)) + out
    {
      out := [];
      AppendByte(stream, b);
      FrameEnds(Between(stream), Tail(stream), MAX_ESCAPED);
      stream := stream + [b];
      if b == FEND {
        if buf != [] { out := [buf]; }
        buf, inside := [], true;
      } else if inside {
        buf := buf + [b];
        if |buf| > 2 * MAX_FRAME + 8 { buf, inside := [], false; }
      }
    }

    method Feed(data: Bytes) returns (out: seq<Bytes>)
      requires Valid()
      modifies this
      ensures Valid() && stream == old(stream) + data && Frames(stream) == Frames(old(stream)) + out
    {
      out := [];
      ghost var was, had, seen := stream, Frames(stream), [];
      for i := 0 to |data|
        invariant Valid() && seen == data[..i] && stream == was + seen && Frames(stream) == had + out
      {
        var more := FeedByte(data[i]);
        Associates(was, seen, [data[i]]);
        Associates(had, out, more);
        seen := seen + [data[i]];
        out := out + more;
      }
      assert data[..|data|] == data;
    }
  }

  // ---- escaping -----------------------------------------------------------------------------------

  // What a KISS client does: C0 is sent as DB DC, and DB as DB DD.
  function Escape(x: Bytes): Bytes {
    if x == [] then []
    else (if x[0] == 0xC0 then [0xDB, 0xDC] else if x[0] == 0xDB then [0xDB, 0xDD] else [x[0]]) + Escape(x[1..])
  }

  function Unescaped(b: Byte): Byte { if b == TFEND then FEND else if b == TFESC then FESC else b }

  function Unescape(frame: Bytes, esc: bool): Bytes
    decreases |frame|
  {
    if frame == [] then []
    else if esc then [Unescaped(frame[0])] + Unescape(frame[1..], false)
    else if frame[0] == FESC then Unescape(frame[1..], true)
    else [frame[0]] + Unescape(frame[1..], false)
  }

  lemma {:induction false} UnescapeInvertsEscape(x: Bytes)
    ensures Unescape(Escape(x), false) == x
    ensures FEND !in Escape(x) && |x| <= |Escape(x)| <= 2 * |x|
  {
    if x != [] {
      var rest := Escape(x[1..]);
      UnescapeInvertsEscape(x[1..]);
      assert [x[0]] + x[1..] == x;
      if x[0] == FEND || x[0] == FESC {
        var e := if x[0] == FEND then TFEND else TFESC;
        assert Escape(x) == [FESC, e] + rest;
        assert Escape(x)[1..] == [e] + rest && ([e] + rest)[1..] == rest;
      } else {
        assert Escape(x)[1..] == rest;
      }
    }
  }

  // Byte for byte: DB DC stands for C0 and DB DD for DB; before any other byte a DB is dropped; what is not escaped
  // stands for itself.
  lemma UnescapeReads(b: Byte, rest: Bytes)
    ensures Unescape([0xDB, b] + rest, false)
      == [if b == 0xDC then 0xC0 else if b == 0xDD then 0xDB else b] + Unescape(rest, false)
    ensures b != 0xDB ==> Unescape([b] + rest, false) == [b] + Unescape(rest, false)
    ensures Unescape([0xDB], false) == []
  {
    assert ([0xDB, b] + rest)[1..] == [b] + rest && ([b] + rest)[1..] == rest;
  }

  // A client that escapes its frames as KISS says is understood: the deframer sees the escaped frame
  // between its FENDs and the gate judges the frame itself.
  lemma EscapedFrameArrives(s: Bytes, x: Bytes)
    requires x != [] && |x| <= 334
    ensures Frames(s + [FEND] + Escape(x) + [FEND]) == Frames(s + [FEND]) + [Escape(x)]
    ensures Unescape(Escape(x), false) == x
  {
    UnescapeInvertsEscape(x);
    var e, open := Escape(x), s + [FEND];
    AppendByte(s, FEND);
    TailGrows(open, e);
    AppendByte(open + e, FEND);
    FrameEnds(Between(open), e, MAX_ESCAPED);
    assert [] + e == e;
  }

  lemma {:induction false} TailGrows(s: Bytes, e: Bytes)
    requires FEND !in e
    ensures Tail(s + e) == Tail(s) + e && Between(s + e) == Between(s) && (Opened(s) ==> Opened(s + e))
  {
    if e == [] {
      assert s + e == s && Tail(s) + e == Tail(s);
    } else {
      var init, b := e[..|e| - 1], e[|e| - 1];
      TailGrows(s, init);
      assert b in e && s + e == (s + init) + [b] && Tail(s) + e == Tail(s) + init + [b];
      AppendByte(s + init, b);
    }
  }

  method UnescapeFrame(frame: Bytes) returns (out: Bytes)
    ensures out == Unescape(frame, false)
  {
    out := [];
    var esc := false;
    assert frame[0..] == frame && [] + Unescape(frame, false) == Unescape(frame, false);
    for i := 0 to |frame|
      invariant out + Unescape(frame[i..], esc) == Unescape(frame, false)
    {
      var b := frame[i];
      ghost var rest := frame[i + 1..];
      assert frame[i..][0] == b && frame[i..][1..] == rest;
      if esc {
        assert out + ([Unescaped(b)] + Unescape(rest, false)) == (out + [Unescaped(b)]) + Unescape(rest, false);
        out := out + [Unescaped(b)];
        esc := false;
      } else if b == FESC {
        esc := true;
      } else {
        assert out + ([b] + Unescape(rest, false)) == (out + [b]) + Unescape(rest, false);
        out := out + [b];
      }
    }
    assert out + [] == out;
  }

  // ---- the gate ------------------------------------------------------------------------------------------

  function RateOf(perMin: nat, burst: nat): Limits { Limits(burst as real, perMin as real / 60.0) }

  datatype Verdict = Dropped | Parameter | DataFrame

  // What the gate makes of a frame before it looks at the bucket.
  function Judge(tx: bool, frame: Bytes): Verdict {
    var raw := Unescape(frame, false);
    if !tx || raw == [] || raw[0] == 255 then Dropped
    else
      var cmd := Remainder(raw[0], 16);
      if cmd != 0 then if cmd <= 6 then Parameter else Dropped
      else if |raw| - 1 > MAX_FRAME then Dropped else DataFrame
  }

  function Allows(tx: bool, frame: Bytes, b: Bucket, l: Limits, now: real): bool {
    Judge(tx, frame) == Parameter || (Judge(tx, frame) == DataFrame && CanTake(b, l, now))
  }

  // Only a data frame touches the bucket.
  function Charged(tx: bool, frame: Bytes, b: Bucket, l: Limits, now: real): Bucket {
    if Judge(tx, frame) == DataFrame then Taken(b, l, now) else b
  }

  // ---- the gate, over the bytes

  // The command a frame carries: the low nibble of its first byte.
  ghost function LowNibble(b: Byte): nat { b % 16 }

  // A KISS data frame: command 0.
  ghost predicate IsData(frame: Bytes) {
    var raw := Unescape(frame, false);
    raw != [] && LowNibble(raw[0]) == 0
  }

  // TNC parameters, commands 1 to 6.
  ghost predicate IsParameter(frame: Bytes) {
    var raw := Unescape(frame, false);
    raw != [] && 1 <= LowNibble(raw[0]) <= 6
  }

  lemma NibbleIs(b: Byte)
    ensures Remainder(b, 16) == LowNibble(b) && (b == 255 ==> LowNibble(b) == 15)
  {
    AreDivision(b, 16);
  }

  lemma JudgeSays(tx: bool, frame: Bytes)
    ensures Judge(tx, frame) == DataFrame <==> tx && IsData(frame) && |Unescape(frame, false)| <= 331
    ensures Judge(tx, frame) == Parameter <==> tx && IsParameter(frame)
  {
    var raw := Unescape(frame, false);
    if raw != [] { NibbleIs(raw[0]); }
  }

  // Of the frames of a client, none passes while transmit is off; a data frame passes exactly when it has at most
  // 331 bytes and there is a token, which it takes; one with low nibble 1 to 6 always passes, and any other never
  // does, and neither touches the bucket.
  lemma GateDecides(tx: bool, frame: Bytes, b: Bucket, l: Limits, now: real)
    ensures var raw := Unescape(frame, false);
      && (Allows(tx, frame, b, l, now) <==>
            tx && raw != [] &&
              if LowNibble(raw[0]) == 0 then |raw| <= 331 && CanTake(b, l, now) else LowNibble(raw[0]) <= 6)
      && Charged(tx, frame, b, l, now) ==
            if tx && raw != [] && LowNibble(raw[0]) == 0 && |raw| <= 331 then Taken(b, l, now) else b
  {
    JudgeSays(tx, frame);
  }

  class TxGate {
    const tx: bool
    const rate: real
    const burst: real
    var tokens: real
    var last: real

    ghost function Abs(): Bucket
      reads this
    {
      Bucket(tokens, last)
    }

    ghost function Law(): Limits { Limits(burst, rate) }

    constructor (tx: bool, perMin: nat, burst: nat, now: real)
      ensures this.tx == tx && Law() == RateOf(perMin, burst) && Abs() == Bucket(burst as real, now)
    {
      this.tx, rate, this.burst := tx, perMin as real / 60.0, burst as real;
      tokens, last := burst as real, now;
    }

    method Allow(frame: Bytes, now: real) returns (ok: bool)
      modifies this
      ensures ok == Allows(tx, frame, old(Abs()), Law(), now)
      ensures Abs() == Charged(tx, frame, old(Abs()), Law(), now)
    {
      if !tx { return false; }
      var raw := UnescapeFrame(frame);
      if raw == [] { return false; }
      var cmd := Remainder(raw[0], 16);
      if raw[0] == 255 { return false; }
      if cmd != 0 { return 1 <= cmd <= 6; }
      if |raw| - 1 > MAX_FRAME { return false; }
      tokens := Min(burst, tokens + (now - last) * rate);
      last := now;
      if tokens < 1.0 { return false; }
      tokens := tokens - 1.0;
      return true;
    }
  }

  // ---- the bridge ------------------------------------------------------------------------------------

  // One frame the gate let through, and when.
  datatype Sent = Sent(frame: Bytes, at: real)

  // The client's stream since it connected, the bucket, what was written to the radio, and the history:
  // the frames sent and the bucket's takes.
  datatype Bridge = Bridge(stream: Bytes, bucket: Bucket, radio: Bytes, sent: seq<Sent>, takes: seq<Op>)

  datatype Config = Config(tx: bool, perMin: nat, burst: nat) {
    function Law(): Limits { RateOf(perMin, burst) }
    ghost predicate Valid() { Law().Valid() }
  }

  // A client connects, or sends bytes. All frames of one `Data` are judged at one time; since the deframer
  // does not see where a stream is cut, a run whose frames have times of their own is one with smaller cuts.
  datatype Event = Connect | Data(chunk: Bytes, at: real)

  function Offered(br: Bridge, c: Config, frame: Bytes, at: real): Bridge {
    var b := br.(bucket := Charged(c.tx, frame, br.bucket, c.Law(), at),
                 takes := if Judge(c.tx, frame) == DataFrame then br.takes + [Take(at)] else br.takes);
    if Allows(c.tx, frame, br.bucket, c.Law(), at)
    then b.(radio := br.radio + [FEND] + frame + [FEND], sent := br.sent + [Sent(frame, at)])
    else b
  }

  // The frames from index i on, one after the other.
  function AllOffered(br: Bridge, c: Config, frames: seq<Bytes>, i: nat, at: real): Bridge
    decreases |frames| - i
  {
    if i >= |frames| then br else AllOffered(Offered(br, c, frames[i], at), c, frames, i + 1, at)
  }

  function NewFrames(stream: Bytes, chunk: Bytes): seq<Bytes> {
    FramesOnlyGrow(stream, chunk);
    Frames(stream + chunk)[|Frames(stream)|..]
  }

  function Step(br: Bridge, c: Config, e: Event): Bridge {
    match e
    case Connect => br.(stream := [])
    case Data(chunk, at) => AllOffered(br.(stream := br.stream + chunk), c, NewFrames(br.stream, chunk), 0, at)
  }

  function Steps(br: Bridge, c: Config, es: seq<Event>): Bridge
    decreases |es|
  {
    if es == [] then br else Steps(Step(br, c, es[0]), c, es[1..])
  }

  // What the radio's KISS reader sees: no length limit of ours.
  function KissRead(s: Bytes): seq<Bytes> {
    FramesWithin(Between(s), |s|)
  }

  function FramesOf(sent: seq<Sent>): seq<Bytes> {
    if sent == [] then [] else FramesOf(sent[..|sent| - 1]) + [sent[|sent| - 1].frame]
  }

  function Written(frames: seq<Bytes>): Bytes {
    if frames == [] then [] else Written(frames[..|frames| - 1]) + [FEND] + frames[|frames| - 1] + [FEND]
  }

  // Only frames the gate let through, each of them clean.
  ghost predicate SentOk(f: Bytes, c: Config) {
    c.tx && FrameOk(f) && (IsParameter(f) || (IsData(f) && |Unescape(f, false)| <= 331))
  }

  ghost function DataCount(sent: seq<Sent>): nat {
    if sent == [] then 0
    else DataCount(sent[..|sent| - 1]) + if IsData(sent[|sent| - 1].frame) then 1 else 0
  }

  // What was written is the frames sent, each of them fit to be.
  ghost predicate RadioOk(radio: Bytes, sent: seq<Sent>, c: Config) {
    radio == Written(FramesOf(sent)) && forall k :: 0 <= k < |sent| ==> SentOk(sent[k].frame, c)
  }

  // The bucket is where its takes brought it, and each data frame sent is a take granted.
  ghost predicate Paid(bucket: Bucket, takes: seq<Op>, sent: seq<Sent>, c: Config, start: Bucket) {
    bucket == Run(start, c.Law(), takes) && DataCount(sent) == Granted(start, c.Law(), takes)
  }

  ghost predicate Inv(br: Bridge, c: Config, start: Bucket) {
    RadioOk(br.radio, br.sent, c) && Paid(br.bucket, br.takes, br.sent, c, start)
  }

  lemma SentAppend(sent: seq<Sent>, x: Sent)
    ensures FramesOf(sent + [x]) == FramesOf(sent) + [x.frame]
    ensures DataCount(sent + [x]) == DataCount(sent) + if IsData(x.frame) then 1 else 0
  {
    assert (sent + [x])[..|sent|] == sent;
  }

  lemma WrittenAppend(frames: seq<Bytes>, f: Bytes)
    ensures Written(frames + [f]) == Written(frames) + [FEND] + f + [FEND]
  {
    assert (frames + [f])[..|frames|] == frames;
  }

  lemma SentMore(radio: Bytes, sent: seq<Sent>, x: Sent, c: Config)
    requires RadioOk(radio, sent, c) && SentOk(x.frame, c)
    ensures RadioOk(radio + [FEND] + x.frame + [FEND], sent + [x], c)
  {
    SentAppend(sent, x);
    WrittenAppend(FramesOf(sent), x.frame);
  }

  // A data frame is a take; it is sent exactly when the take is granted.
  lemma DataPaid(br: Bridge, c: Config, frame: Bytes, at: real, start: Bucket)
    requires Paid(br.bucket, br.takes, br.sent, c, start) && IsData(frame)
    ensures Paid(Taken(br.bucket, c.Law(), at), br.takes + [Take(at)],
                 if CanTake(br.bucket, c.Law(), at) then br.sent + [Sent(frame, at)] else br.sent, c, start)
  {
    RunSplits(start, c.Law(), br.takes, [Take(at)]);
    OneTake(br.bucket, c.Law(), at);
    SentAppend(br.sent, Sent(frame, at));
  }

  lemma FitToSend(c: Config, frame: Bytes)
    requires FrameOk(frame) && Judge(c.tx, frame) != Dropped
    ensures SentOk(frame, c)
  {
    JudgeSays(c.tx, frame);
  }

  lemma OfferedRadio(br: Bridge, c: Config, frame: Bytes, at: real, next: Bridge)
    requires RadioOk(br.radio, br.sent, c) && FrameOk(frame) && next == Offered(br, c, frame, at)
    ensures RadioOk(next.radio, next.sent, c)
  {
    var written := OfferedWrites(br, c, frame, at, next);
    if written { SentMore(br.radio, br.sent, Sent(frame, at), c); }
  }

  // A frame offered is written and remembered as sent, and is fit to be, or nothing is.
  lemma OfferedWrites(br: Bridge, c: Config, frame: Bytes, at: real, next: Bridge) returns (written: bool)
    requires FrameOk(frame) && next == Offered(br, c, frame, at)
    ensures written ==>
      SentOk(frame, c) && next.radio == br.radio + [FEND] + frame + [FEND] && next.sent == br.sent + [Sent(frame, at)]
    ensures !written ==> next.radio == br.radio && next.sent == br.sent
  {
    written := Allows(c.tx, frame, br.bucket, c.Law(), at);
    if written { FitToSend(c, frame); }
  }

  lemma OfferedPaid(br: Bridge, c: Config, frame: Bytes, at: real, start: Bucket, next: Bridge)
    requires Paid(br.bucket, br.takes, br.sent, c, start) && next == Offered(br, c, frame, at)
    ensures Paid(next.bucket, next.takes, next.sent, c, start)
  {
    JudgeSays(c.tx, frame);
    match Judge(c.tx, frame)
    case DataFrame => DataPaid(br, c, frame, at, start);
    case Parameter => SentAppend(br.sent, Sent(frame, at));
    case Dropped =>
  }

  lemma OfferedKeeps(br: Bridge, c: Config, frame: Bytes, at: real, start: Bucket, next: Bridge)
    requires Inv(br, c, start) && FrameOk(frame) && next == Offered(br, c, frame, at)
    ensures Inv(next, c, start) && br.takes <= next.takes && br.sent <= next.sent
  {
    OfferedRadio(br, c, frame, at, next);
    OfferedPaid(br, c, frame, at, start, next);
  }

  lemma {:induction false} AllOfferedKeeps(br: Bridge, c: Config, frames: seq<Bytes>, i: nat, at: real, start: Bucket)
    requires Inv(br, c, start) && forall k :: 0 <= k < |frames| ==> FrameOk(frames[k])
    ensures Inv(AllOffered(br, c, frames, i, at), c, start)
    decreases |frames| - i
  {
    if i < |frames| {
      var next := Offered(br, c, frames[i], at);
      OfferedKeeps(br, c, frames[i], at, start, next);
      AllOfferedKeeps(next, c, frames, i + 1, at, start);
    }
  }

  lemma NewFramesOk(stream: Bytes, chunk: Bytes)
    ensures forall k :: 0 <= k < |NewFrames(stream, chunk)| ==> FrameOk(NewFrames(stream, chunk)[k])
  {
    FramesOnlyGrow(stream, chunk);
    FramesOk(stream + chunk);
    var n, all := |Frames(stream)|, Frames(stream + chunk);
    assert forall k :: 0 <= k < |all| - n ==> all[n..][k] == all[n + k] && all[n + k] in all;
  }

  lemma {:induction false} EveryRunKeepsInv(br: Bridge, c: Config, es: seq<Event>, start: Bucket)
    requires Inv(br, c, start)
    ensures Inv(Steps(br, c, es), c, start)
    decreases |es|
  {
    if es != [] {
      if es[0].Data? {
        NewFramesOk(br.stream, es[0].chunk);
        AllOfferedKeeps(br.(stream := br.stream + es[0].chunk), c,
            NewFrames(br.stream, es[0].chunk), 0, es[0].at, start);
      }
      EveryRunKeepsInv(Step(br, c, es[0]), c, es[1..], start);
    }
  }

  lemma FrameReadsBack(w: Bytes, f: Bytes, limit: nat)
    requires Tail(w) == [] && FEND !in f && 0 < |f| <= limit
    ensures var next := w + [FEND] + f + [FEND];
      Tail(next) == [] && FramesWithin(Between(next), limit) == FramesWithin(Between(w), limit) + [f]
  {
    AppendByte(w, FEND);
    FrameEnds(Between(w), [], limit);
    TailGrows(w + [FEND], f);
    AppendByte(w + [FEND] + f, FEND);
    FrameEnds(Between(w + [FEND]), f, limit);
    assert [] + f == f && FramesWithin(Between(w), limit) + [] == FramesWithin(Between(w), limit);
  }

  lemma {:induction false} ReadsBack(frames: seq<Bytes>, limit: nat)
    requires forall k :: 0 <= k < |frames| ==> 0 < |frames[k]| <= limit && FEND !in frames[k]
    ensures FramesWithin(Between(Written(frames)), limit) == frames && Tail(Written(frames)) == []
  {
    if frames != [] {
      var init, last := frames[..|frames| - 1], frames[|frames| - 1];
      var w := Written(init);
      ReadsBack(init, limit);
      FrameReadsBack(w, last, limit);
      assert Written(frames) == w + [FEND] + last + [FEND] && init + [last] == frames;
    }
  }

  lemma {:induction false} WrittenHoldsEach(frames: seq<Bytes>)
    ensures forall k :: 0 <= k < |frames| ==> |frames[k]| <= |Written(frames)|
  {
    if frames != [] { WrittenHoldsEach(frames[..|frames| - 1]); }
  }

  lemma {:induction false} FramesOfSent(sent: seq<Sent>)
    ensures |FramesOf(sent)| == |sent| && forall k :: 0 <= k < |sent| ==> FramesOf(sent)[k] == sent[k].frame
  {
    if sent != [] { FramesOfSent(sent[..|sent| - 1]); }
  }

  function Fresh(c: Config, now: real): Bridge {
    Bridge([], Bucket(c.burst as real, now), [], [], [])
  }

  // A frame fit for the radio: no FEND in it, at most 668 bytes as sent, not the exit from KISS, and a parameter of
  // commands 1 to 6 or a data frame of at most 331 bytes.
  ghost predicate CleanOut(f: Bytes) {
    var raw := Unescape(f, false);
    && 0xC0 !in f && 0 < |f| <= 668 && raw != [] && raw[0] != 0xFF
    && LowNibble(raw[0]) <= 6 && (LowNibble(raw[0]) == 0 ==> |raw| <= 331)
  }

  lemma SentIsClean(f: Bytes, c: Config)
    requires SentOk(f, c)
    ensures CleanOut(f)
  {
    NibbleIs(Unescape(f, false)[0]);
  }

  // End to end, whatever bytes the clients send in whatever chunks: the radio's reader sees exactly the
  // frames the gate let through, in order; each is clean, and unescapes to a parameter of commands 1 to 6 or to a
  // data frame of at most 331 bytes.
  lemma RadioReadsWhatTheGateAllowed(c: Config, now: real, es: seq<Event>)
    ensures var r := Steps(Fresh(c, now), c, es);
      && KissRead(r.radio) == FramesOf(r.sent)
      && (forall k :: 0 <= k < |r.sent| ==> CleanOut(r.sent[k].frame))
      && (!c.tx ==> r.radio == [])
  {
    var start := Bucket(c.burst as real, now);
    EveryRunKeepsInv(Fresh(c, now), c, es, start);
    var r := Steps(Fresh(c, now), c, es);
    FramesOfSent(r.sent);
    WrittenHoldsEach(FramesOf(r.sent));
    ReadsBack(FramesOf(r.sent), |r.radio|);
    assert r.sent != [] ==> SentOk(r.sent[0].frame, c);
    forall k | 0 <= k < |r.sent| ensures CleanOut(r.sent[k].frame) {
      SentIsClean(r.sent[k].frame, c);
    }
  }

  lemma NoTimeNoGain(b: Bucket, l: Limits, at: real)
    ensures Refilled(Taken(b, l, at), l, at) == Taken(b, l, at) || Refilled(b, l, at).tokens < 1.0
  {
    assert Gain(l.rate, at, at) == 0.0;
  }

  // The gate has nothing against a frame: with transmit on, a parameter, or a data frame of at most 331 bytes.
  ghost predicate Welcome(c: Config, frame: Bytes) {
    c.tx && (IsParameter(frame) || (IsData(frame) && |Unescape(frame, false)| <= 331))
  }

  // The frames from index i on that the gate has nothing against, and how many of them cost a token.
  ghost function Passing(c: Config, frames: seq<Bytes>, i: nat): seq<Bytes>
    decreases |frames| - i
  {
    if i >= |frames| then [] else (if Welcome(c, frames[i]) then [frames[i]] else []) + Passing(c, frames, i + 1)
  }

  ghost function Costing(c: Config, frames: seq<Bytes>, i: nat): nat
    decreases |frames| - i
  {
    if i >= |frames| then 0
    else (if Welcome(c, frames[i]) && IsData(frames[i]) then 1 else 0) + Costing(c, frames, i + 1)
  }

  // Nothing more is dropped: while there are tokens for all data frames of a batch, every frame of it the gate
  // has nothing against goes out, in order.
  lemma {:induction false} TokensForAllSendAll(br: Bridge, c: Config, frames: seq<Bytes>, i: nat, at: real)
    requires i <= |frames| && Refilled(br.bucket, c.Law(), at).tokens >= Costing(c, frames, i) as real
    ensures FramesOf(AllOffered(br, c, frames, i, at).sent) == FramesOf(br.sent) + Passing(c, frames, i)
    decreases |frames| - i
  {
    if i < |frames| {
      var next := Offered(br, c, frames[i], at);
      OfferedPasses(br, c, frames[i], at, next, Costing(c, frames, i + 1));
      TokensForAllSendAll(next, c, frames, i + 1, at);
      FirstPasses(c, frames, i, FramesOf(br.sent), FramesOf(next.sent));
    }
  }

  lemma FirstPasses(c: Config, frames: seq<Bytes>, i: nat, sent: seq<Bytes>, next: seq<Bytes>)
    requires i < |frames| && next == sent + if Welcome(c, frames[i]) then [frames[i]] else []
    ensures next + Passing(c, frames, i + 1) == sent + Passing(c, frames, i)
  {
    Associates(sent, if Welcome(c, frames[i]) then [frames[i]] else [], Passing(c, frames, i + 1));
  }

  lemma OfferedPasses(br: Bridge, c: Config, frame: Bytes, at: real, next: Bridge, later: nat)
    requires next == Offered(br, c, frame, at)
    requires Refilled(br.bucket, c.Law(), at).tokens
          >= ((if Welcome(c, frame) && IsData(frame) then 1 else 0) + later) as real
    ensures FramesOf(next.sent) == FramesOf(br.sent) + if Welcome(c, frame) then [frame] else []
    ensures Refilled(next.bucket, c.Law(), at).tokens >= later as real
  {
    JudgeSays(c.tx, frame);
    if Judge(c.tx, frame) == DataFrame { NoTimeNoGain(br.bucket, c.Law(), at); }
    if Judge(c.tx, frame) != Dropped { SentAppend(br.sent, Sent(frame, at)); }
  }

  // What one read sends: the frames it completes, of the client's whole stream, go out in order as far as the gate
  // has nothing against them, while there are tokens for the data frames among them.
  lemma ReadSendsItsFrames(br: Bridge, c: Config, chunk: Bytes, at: real, completed: seq<Bytes>)
    requires Frames(br.stream + chunk) == Frames(br.stream) + completed
    requires Refilled(br.bucket, c.Law(), at).tokens >= Costing(c, completed, 0) as real
    ensures var r := Step(br, c, Data(chunk, at));
      FramesOf(r.sent) == FramesOf(br.sent) + Passing(c, completed, 0) && r.stream == br.stream + chunk
  {
    FramesOnlyGrow(br.stream, chunk);
    assert NewFrames(br.stream, chunk) == completed;
    TokensForAllSendAll(br.(stream := br.stream + chunk), c, completed, 0, at);
    AllOfferedKeepsStream(br.(stream := br.stream + chunk), c, completed, 0, at);
  }

  lemma {:induction false} AllOfferedKeepsStream(br: Bridge, c: Config, frames: seq<Bytes>, i: nat, at: real)
    ensures AllOffered(br, c, frames, i, at).stream == br.stream
    decreases |frames| - i
  {
    if i < |frames| { AllOfferedKeepsStream(Offered(br, c, frames[i], at), c, frames, i + 1, at); }
  }

  // A new client's frames are those of its own bytes: nothing a client before it left unfinished is joined to them.
  lemma NewClientStartsAfresh(br: Bridge, c: Config, chunk: Bytes, at: real)
    requires Refilled(br.bucket, c.Law(), at).tokens >= Costing(c, Frames(chunk), 0) as real
    ensures var connected := Step(br, c, Connect);
      connected.sent == br.sent && connected.bucket == br.bucket && connected.radio == br.radio
      && FramesOf(Step(connected, c, Data(chunk, at)).sent) == FramesOf(br.sent) + Passing(c, Frames(chunk), 0)
  {
    assert [] + chunk == chunk && Frames([]) == [] && [] + Frames(chunk) == Frames(chunk);
    ReadSendsItsFrames(Step(br, c, Connect), c, chunk, at, Frames(chunk));
  }

  // ---- the rate ----------------------------------------------------------------------------------------

  ghost predicate InTime(from: real, es: seq<Event>) {
    && (forall i :: 0 <= i < |es| && es[i].Data? ==> from <= es[i].at)
    && (forall i, j :: 0 <= i < j < |es| && es[i].Data? && es[j].Data? ==> es[i].at <= es[j].at)
  }

  lemma {:induction false} AllOfferedTakes(
    br: Bridge, c: Config, frames: seq<Bytes>, i: nat, at: real, n: nat, from: real)
    requires n <= |br.takes| && from <= at && Within(br.takes[n..], from, at)
    ensures var r := AllOffered(br, c, frames, i, at); br.takes <= r.takes && Within(r.takes[n..], from, at)
    decreases |frames| - i
  {
    if i < |frames| {
      var next := Offered(br, c, frames[i], at);
      if next.takes != br.takes { assert next.takes[n..] == br.takes[n..] + [Take(at)]; }
      AllOfferedTakes(next, c, frames, i + 1, at, n, from);
    }
  }

  // The takes of a stretch of a run lie between its first and last times.
  lemma {:induction false} StepsTakes(br: Bridge, c: Config, es: seq<Event>, n: nat, from: real, at: real, to: real)
    requires n <= |br.takes| && from <= at <= to && Within(br.takes[n..], from, at)
    requires InTime(at, es) && forall i :: 0 <= i < |es| && es[i].Data? ==> es[i].at <= to
    ensures var r := Steps(br, c, es); br.takes <= r.takes && Within(r.takes[n..], from, to)
    decreases |es|
  {
    if es != [] {
      var now := if es[0].Data? then es[0].at else at;
      if es[0].Data? {
        var b := br.(stream := br.stream + es[0].chunk);
        AllOfferedTakes(b, c, NewFrames(br.stream, es[0].chunk), 0, now, n, from);
      }
      StepsTakes(Step(br, c, es[0]), c, es[1..], n, from, now, to);
    }
  }

  lemma {:induction false} StepsSplit(br: Bridge, c: Config, a: seq<Event>, b: seq<Event>)
    ensures Steps(br, c, a + b) == Steps(Steps(br, c, a), c, b)
    decreases |a|
  {
    if a == [] {
      assert a + b == b;
    } else {
      assert (a + b)[0] == a[0] && (a + b)[1..] == a[1..] + b;
      StepsSplit(Step(br, c, a[0]), c, a[1..], b);
    }
  }

  // From any state the invariant holds in, with its takes up to `from`.
  lemma WindowBound(start: Bucket, c: Config, s: Bridge, window: seq<Event>, r: Bridge, from: real, to: real)
    requires Inv(s, c, start) && WithinCap(start, c.Law()) && start.at <= from <= to && Within(s.takes, start.at, from)
    requires InTime(from, window) && forall i :: 0 <= i < |window| && window[i].Data? ==> window[i].at <= to
    requires r == Steps(s, c, window)
    ensures (DataCount(r.sent) - DataCount(s.sent)) as real <= c.Law().burst + Gain(c.Law().rate, from, to)
  {
    EveryRunKeepsInv(s, c, window, start);
    StepsTakes(s, c, window, |s.takes|, from, from, to);
    var w := r.takes[|s.takes|..];
    assert r.takes == s.takes + w;
    RateLawWithin(start, c.Law(), s.takes, w, from, to);
  }

  lemma RunBound(c: Config, now: real, before: seq<Event>, window: seq<Event>, from: real, to: real)
    requires now <= from <= to && InTime(now, before) && InTime(from, window)
    requires forall i :: 0 <= i < |before| && before[i].Data? ==> before[i].at <= from
    requires forall i :: 0 <= i < |window| && window[i].Data? ==> window[i].at <= to
    ensures var r, s := Steps(Fresh(c, now), c, before + window), Steps(Fresh(c, now), c, before);
      (DataCount(r.sent) - DataCount(s.sent)) as real <= c.Law().burst + Gain(c.Law().rate, from, to)
  {
    var start, f := Bucket(c.burst as real, now), Fresh(c, now);
    var s := Steps(f, c, before);
    StepsSplit(f, c, before, window);
    EveryRunKeepsInv(f, c, before, start);
    StepsTakes(f, c, before, 0, now, now, from);
    assert s.takes[0..] == s.takes;
    WindowBound(start, c, s, window, Steps(s, c, window), from, to);
  }

  lemma LawIs(c: Config, from: real, to: real)
    ensures c.Law().burst + Gain(c.Law().rate, from, to) == c.burst as real + (to - from) * (c.perMin as real / 60.0)
  {
  }

  // In every window [from, to] of every run, at most burst + (to - from) * perMin / 60 data frames go out: frames
  // whose first byte, unescaped, has low nibble 0.
  lemma DataRateBound(c: Config, now: real, before: seq<Event>, window: seq<Event>, from: real, to: real)
    requires now <= from <= to && InTime(now, before) && InTime(from, window)
    requires forall i :: 0 <= i < |before| && before[i].Data? ==> before[i].at <= from
    requires forall i :: 0 <= i < |window| && window[i].Data? ==> window[i].at <= to
    ensures var r, s := Steps(Fresh(c, now), c, before + window), Steps(Fresh(c, now), c, before);
      (DataCount(r.sent) - DataCount(s.sent)) as real <= c.burst as real + (to - from) * (c.perMin as real / 60.0)
  {
    RunBound(c, now, before, window, from, to);
    LawIs(c, from, to);
  }

  // ---- the client-to-radio loop --------------------------------------------------------------------------

  class Serial {
    var written: Bytes

    constructor ()
      ensures written == []
    {
      written := [];
    }

    method Write(data: Bytes)
      modifies this
      ensures written == old(written) + data
    {
      written := written + data;
    }
  }

  class BridgeLoop {
    const serial: Serial
    const gate: TxGate
    const config: Config
    var deframer: Deframer
    ghost var history: Bridge

    ghost function Abs(): Bridge
      reads this, serial, gate, deframer
    {
      history.(stream := deframer.stream, bucket := gate.Abs(), radio := serial.written)
    }

    ghost predicate Valid()
      reads this, serial, gate, deframer
    {
      deframer.Valid() && gate.tx == config.tx && gate.Law() == config.Law()
    }

    constructor (serial: Serial, gate: TxGate, config: Config)
      requires serial.written == [] && gate.tx == config.tx && gate.Law() == config.Law()
      ensures Valid() && this.serial == serial && this.gate == gate && this.config == config
      ensures fresh(deframer) && Abs() == Bridge([], gate.Abs(), [], [], [])
    {
      this.serial, this.gate, this.config := serial, gate, config;
      deframer := new Deframer();
      history := Bridge([], gate.Abs(), [], [], []);
    }

    // A new client starts with a deframer of its own.
    method OnConnect()
      requires Valid()
      modifies this
      ensures Valid() && fresh(deframer) && Abs() == Step(old(Abs()), config, Connect)
    {
      deframer := new Deframer();
    }

    method OnData(data: Bytes, now: real)
      requires Valid()
      modifies this, serial, gate, deframer
      ensures Valid() && deframer == old(deframer) && Abs() == Step(old(Abs()), config, Event.Data(data, now))
    {
      var frames := deframer.Feed(data);
      ghost var before := Abs();
      for i := 0 to |frames|
        invariant Valid() && deframer == old(deframer)
        invariant AllOffered(Abs(), config, frames, i, now) == AllOffered(before, config, frames, 0, now)
      {
        Deliver(frames[i], now);
      }
    }

    // One frame, to the radio if the gate lets it.
    method Deliver(frame: Bytes, now: real)
      requires Valid()
      modifies this`history, serial, gate
      ensures Valid() && Abs() == Offered(old(Abs()), config, frame, now)
    {
      var ok := gate.Allow(frame, now);
      ghost var at := old(Abs());
      if ok {
        assert at.radio + ([FEND] + frame + [FEND]) == at.radio + [FEND] + frame + [FEND];
        serial.Write([FEND] + frame + [FEND]);
      }
      history := Offered(at, config, frame, now);
    }
  }
}
