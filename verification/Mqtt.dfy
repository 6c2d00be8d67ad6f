// The MQTT 3.1.1 packet codec and the subscriber's receive buffer (apps/ingest/src/mqtt.ts).
// Section numbers are those of MQTT Version 3.1.1.

module MqttCodec {
  import opened Arithmetic
  import opened Common

  const MQTT_MAX_PACKET: nat := 262144

  // ---- remaining length (section 2.2.3) -----------------------------------------------------------

  function Low7(n: nat): (d: nat)
    ensures d < 128 && n == d + 128 * High7(n)
  {
    DivMod(n, 128);
    Remainder(n, 128)
  }

  function High7(n: nat): nat { Quotient(n, 128) }

  function LengthBytes(n: nat): Bytes {
    if n < 128 then [n] else [128 + Low7(n)] + LengthBytes(High7(n))
  }

  method EncodeRemainingLength(n: nat) returns (out: Bytes)
    ensures out == LengthBytes(n)
  {
    var m := n;
    out := [];
    ghost var all, left := LengthBytes(n), LengthBytes(n);
    while true
      invariant out + left == all && left == LengthBytes(m)
      decreases m
    {
      var b, rest := Low7(m), High7(m);
      LengthDigit(m);
      if rest > 0 {
        left := LengthBytes(rest);
        Associates(out, [128 + b], left);
        out := out + [128 + b];
        m := rest;
      } else {
        return out + [b];
      }
    }
  }

  lemma LengthDigit(n: nat)
    ensures if High7(n) > 0 then LengthBytes(n) == [128 + Low7(n)] + LengthBytes(High7(n))
        else LengthBytes(n) == [Low7(n)]
    ensures High7(n) <= n && (High7(n) > 0 ==> High7(n) < n)
  {
  }

  // Four bytes all saying "more follows" are malformed; running out of bytes before that is not.
  datatype Length = Incomplete | Malformed | Length(value: nat, size: nat)

  function ReadLength(s: Bytes, k: nat): Length
    decreases |s|
  {
    if k >= 4 then Malformed
    else if s == [] then Incomplete
    else if s[0] < 128 then Length(s[0], 1)
    else match ReadLength(s[1..], k + 1)
      case Length(v, n) => Length(s[0] - 128 + 128 * v, n + 1)
      case other => other
  }

  // Lengths that fit in the bytes left after the first k.
  function Capacity(k: nat): nat
    decreases 4 - k
  {
    if k >= 4 then 1 else 128 * Capacity(k + 1)
  }

  lemma {:induction false} LengthRoundTrip(n: nat, k: nat, t: Bytes)
    requires k < 4 && n < Capacity(k)
    ensures ReadLength(LengthBytes(n) + t, k) == Length(n, |LengthBytes(n)|)
    ensures |LengthBytes(n)| <= 4 - k
    decreases 4 - k
  {
    if n >= 128 {
      DivMod(n, 128);
      assert High7(n) < Capacity(k + 1);
      LengthRoundTrip(High7(n), k + 1, t);
      assert (LengthBytes(n) + t)[1..] == LengthBytes(High7(n)) + t;
    }
  }

  // Every length below 128^4 survives in at most four bytes.
  lemma RemainingLengthRoundTrip(n: nat, t: Bytes)
    requires n < 268435456
    ensures ReadLength(LengthBytes(n) + t, 0) == Length(n, |LengthBytes(n)|) && 1 <= |LengthBytes(n)| <= 4
  {
    assert Capacity(0) == 128 * (128 * (128 * (128 * Capacity(4))));
    LengthRoundTrip(n, 0, t);
  }

  // Once decided, a length is not changed by what follows.
  lemma {:induction false} ReadLengthPrefix(s: Bytes, t: Bytes, k: nat)
    requires ReadLength(s, k) != Incomplete
    ensures ReadLength(s + t, k) == ReadLength(s, k)
    decreases |s|
  {
    if k < 4 && s[0] >= 128 {
      assert (s + t)[1..] == s[1..] + t;
      ReadLengthPrefix(s[1..], t, k + 1);
    }
  }

  lemma {:induction false} ReadLengthSize(s: Bytes, k: nat)
    ensures var r := ReadLength(s, k);
      && (r.Length? ==> 1 <= r.size <= |s| && r.size <= 4 - k)
      && (r.Incomplete? ==> |s| < 4 - k)
    decreases |s|
  {
    if k < 4 && s != [] && s[0] >= 128 { ReadLengthSize(s[1..], k + 1); }
  }

  // ---- splitting a stream -----------------------------------------------------------------------------

  datatype Packet = Packet(kind: nat, flags: nat, body: Bytes)

  function High4(b: Byte): nat { Quotient(b, 16) }
  function Low4(b: Byte): nat { Remainder(b, 16) }

  // The packet a buffer starts with, and its whole size.
  datatype Next = More | Bad | One(packet: Packet, size: nat)

  function NextPacket(buf: Bytes): Next {
    if |buf| < 2 then More
    else match ReadLength(buf[1..], 0)
      case Malformed => Bad
      case Incomplete => More
      case Length(len, n) =>
        if len > MQTT_MAX_PACKET then Bad
        else if 1 + n + len > |buf| then More
        else ReadLengthSize(buf[1..], 0); One(Packet(High4(buf[0]), Low4(buf[0]), buf[1 + n..1 + n + len]), 1 + n + len)
  }

  // null, or the complete packets and the bytes after them.
  datatype Split = Broken | Split(packets: seq<Packet>, rest: Bytes)

  function After(ps: seq<Packet>, s: Split): Split {
    if s.Broken? then Broken else Split(ps + s.packets, s.rest)
  }

  function SplitSpec(buf: Bytes): Split
    decreases |buf|
  {
    match NextPacket(buf)
    case More => Split([], buf)
    case Bad => Broken
    case One(p, size) => NextPacketSize(buf); After([p], SplitSpec(buf[size..]))
  }

  lemma NextPacketSize(buf: Bytes)
    ensures NextPacket(buf).One? ==> 2 <= NextPacket(buf).size <= |buf|
    ensures NextPacket(buf).More? ==> |buf| < 5 + 262144
  {
    if |buf| >= 2 { ReadLengthSize(buf[1..], 0); }
  }

  lemma NextPacketPrefix(a: Bytes, b: Bytes)
    requires !NextPacket(a).More?
    ensures NextPacket(a + b) == NextPacket(a)
  {
    assert (a + b)[1..] == a[1..] + b;
    ReadLengthPrefix(a[1..], b, 0);
    if NextPacket(a).One? {
      var n := ReadLength(a[1..], 0).size;
      assert forall i, j :: 0 <= i <= j <= |a| ==> (a + b)[i..j] == a[i..j];
    }
  }

  // Where a stream is cut does not matter: splitting a ++ b is splitting a, then its rest ++ b.
  lemma {:induction false} SplitPrefix(a: Bytes, b: Bytes)
    ensures SplitSpec(a + b) ==
        match SplitSpec(a) case Broken => Broken case Split(ps, rest) => After(ps, SplitSpec(rest + b))
    decreases |a|
  {
    match NextPacket(a)
    case More => assert After([], SplitSpec(a + b)) == SplitSpec(a + b) by { AfterNothing(SplitSpec(a + b)); }
    case Bad => NextPacketPrefix(a, b);
    case One(p, size) =>
      NextPacketSize(a);
      NextPacketPrefix(a, b);
      assert (a + b)[size..] == a[size..] + b;
      SplitPrefix(a[size..], b);
      match SplitSpec(a[size..])
      case Broken =>
      case Split(ps, rest) => AfterAfter([p], ps, SplitSpec(rest + b));
  }

  lemma AfterNothing(s: Split)
    ensures After([], s) == s
  {
    if s.Split? { assert [] + s.packets == s.packets; }
  }

  lemma AfterAfter(a: seq<Packet>, b: seq<Packet>, s: Split)
    ensures After(a, After(b, s)) == After(a + b, s)
  {
    if s.Split? { assert a + (b + s.packets) == (a + b) + s.packets; }
  }

  // The rest is the start of one packet of legal size, never more.
  lemma {:induction false} RestIsBounded(buf: Bytes)
    ensures SplitSpec(buf).Split? ==> |SplitSpec(buf).rest| < 5 + 262144
    decreases |buf|
  {
    NextPacketSize(buf);
    if NextPacket(buf).One? { RestIsBounded(buf[NextPacket(buf).size..]); }
  }

  // A length read from the k-th byte on, seen from the first: the bytes before gave `len`.
  ghost function Scaled(r: Length, len: nat, mult: nat, k: nat): Length {
    match r case Length(v, n) => Length(len + mult * v, k + n) case other => other
  }

  lemma ScaledStep(tail: Bytes, len: nat, mult: nat, k: nat)
    requires k < 4 && tail != []
    ensures tail[0] < 128 ==> Scaled(ReadLength(tail, k), len, mult, k) == Length(len + Low7(tail[0]) * mult, k + 1)
    ensures tail[0] >= 128 ==>
      Scaled(ReadLength(tail, k), len, mult, k) ==
          Scaled(ReadLength(tail[1..], k + 1), len + Low7(tail[0]) * mult, mult * 128, k + 1)
  {
    var d := Low7(tail[0]);
    if tail[0] < 128 {
      assert d == tail[0];
    } else {
      assert d == tail[0] - 128;
      var r := ReadLength(tail[1..], k + 1);
      if r.Length? { assert len + mult * (d + 128 * r.value) == (len + d * mult) + (mult * 128) * r.value; }
    }
  }

  // The inner loop of splitPackets: the length field after position i, and the position after it.
  method ReadLengthAt(buf: Bytes, i: nat) returns (len: nat, p: nat, done: bool)
    requires i < |buf|
    ensures i + 1 <= p <= |buf|
    ensures ReadLength(buf[i + 1..], 0) == if done then Length(len, p - (i + 1))
        else if p - (i + 1) >= 4 then Malformed else Incomplete
  {
    ghost var s := buf[i + 1..];
    var mult, k := 1, 0;
    len, p, done := 0, i + 1, false;
    while k < 4 && p < |buf| && !done
      invariant 0 <= k <= 4 && p == i + 1 + k <= |buf| && mult >= 1
      invariant ReadLength(s, 0) == if done then Length(len, k) else Scaled(ReadLength(s[k..], k), len, mult, k)
      decreases 4 - k
    {
      assert s[k..][1..] == s[k + 1..] && s[k..][0] == buf[p];
      ScaledStep(s[k..], len, mult, k);
      len := len + Low7(buf[p]) * mult;
      mult := mult * 128;
      if buf[p] < 128 { done := true; }
      k, p := k + 1, p + 1;
    }
  }

  // The body of that loop: the packet at position i, if it is complete and legal.
  method PacketAt(buf: Bytes, i: nat) returns (next: Next)
    requires i + 2 <= |buf|
    ensures next == NextPacket(buf[i..])
  {
    var len, p, done := ReadLengthAt(buf, i);
    assert buf[i..][1..] == buf[i + 1..];
    if !done { return if p - (i + 1) >= 4 then Bad else More; }
    if len > MQTT_MAX_PACKET { return Bad; }
    if p + len > |buf| { return More; }
    NextPacketAt(buf, i, p, len);
    next := One(Packet(High4(buf[i]), Low4(buf[i]), buf[p..p + len]), p + len - i);
  }

  // What the loop still has to split, and what that comes to.
  ghost predicate Splitting(buf: Bytes, i: nat, tail: Bytes, todo: Split) {
    i <= |buf| && tail == buf[i..] && todo == SplitSpec(tail)
  }

  // The loop of splitPackets over its local indices.
  method SplitPackets(buf: Bytes) returns (split: Split)
    ensures split == SplitSpec(buf)
  {
    var packets: seq<Packet> := [];
    var i := 0;
    ghost var whole, tail, todo := SplitSpec(buf), buf, SplitSpec(buf);
    AfterNothing(whole);
    while i + 2 <= |buf|
      invariant Splitting(buf, i, tail, todo) && whole == After(packets, todo)
      decreases |buf| - i
    {
      var next := PacketAt(buf, i);
      match next
      case Bad =>
        return Broken;
      case More =>
        PacketsEnd(packets, tail, todo);
        return Split(packets, buf[i..]);
      case One(pkt, size) =>
        tail, todo := PacketTaken(buf, packets, i, pkt, size, tail, todo);
        packets := packets + [pkt];
        i := i + size;
    }
    PacketsEnd(packets, tail, todo);
    split := Split(packets, buf[i..]);
  }

  lemma PacketsEnd(packets: seq<Packet>, tail: Bytes, todo: Split)
    requires NextPacket(tail).More? && todo == SplitSpec(tail)
    ensures After(packets, todo) == Split(packets, tail)
  {
    assert packets + [] == packets;
  }

  lemma PacketTaken(buf: Bytes, packets: seq<Packet>, i: nat, pkt: Packet, size: nat, tail: Bytes, todo: Split)
    returns (rest: Bytes, more: Split)
    requires Splitting(buf, i, tail, todo) && NextPacket(tail) == One(pkt, size)
    ensures 2 <= size && Splitting(buf, i + size, rest, more)
    ensures After(packets, todo) == After(packets + [pkt], more)
  {
    NextPacketSize(tail);
    rest := tail[size..];
    assert rest == buf[i + size..];
    more := SplitSpec(rest);
    AfterAfter(packets, [pkt], more);
  }

  lemma NextPacketAt(buf: Bytes, i: nat, p: nat, len: nat)
    requires i + 2 <= |buf| && i + 1 <= p && p + len <= |buf| && len <= 262144
    requires ReadLength(buf[i + 1..], 0) == Length(len, p - (i + 1))
    ensures NextPacket(buf[i..]) == One(Packet(High4(buf[i]), Low4(buf[i]), buf[p..p + len]), p + len - i)
  {
    var b := buf[i..];
    assert b[1..] == buf[i + 1..] && b[0] == buf[i];
    SliceOfRest(buf, i, p, p + len);
  }

  lemma SliceOfRest(buf: Bytes, i: nat, p: nat, q: nat)
    requires i <= p <= q <= |buf|
    ensures buf[i..][p - i..q - i] == buf[p..q]
  {
  }

  // ---- printing -------------------------------------------------------------------------------------

  predicate Printable(p: Packet) {
    p.kind < 16 && p.flags < 16 && |p.body| <= 262144
  }

  function Print(p: Packet): Bytes
    requires Printable(p)
  {
    [16 * p.kind + p.flags] + LengthBytes(|p.body|) + p.body
  }

  function PrintAll(ps: seq<Packet>): Bytes
    requires forall p :: p in ps ==> Printable(p)
  {
    if ps == [] then [] else Print(ps[0]) + PrintAll(ps[1..])
  }

  lemma NibbleParts(kind: nat, flags: nat)
    requires kind < 16 && flags < 16
    ensures High4(16 * kind + flags) == kind && Low4(16 * kind + flags) == flags
  {
    Digits(kind, flags, 16);
  }

  lemma PrintedIsNext(p: Packet, t: Bytes)
    requires Printable(p)
    ensures NextPacket(Print(p) + t) == One(p, |Print(p)|)
  {
    var n := LengthBytes(|p.body|);
    var buf := Print(p) + t;
    RemainingLengthRoundTrip(|p.body|, p.body + t);
    assert buf[1..] == n + (p.body + t);
    assert buf[1 + |n|..1 + |n| + |p.body|] == p.body;
    NibbleParts(p.kind, p.flags);
  }

  lemma {:induction false} StreamRoundTrip(ps: seq<Packet>)
    requires forall p :: p in ps ==> Printable(p)
    ensures SplitSpec(PrintAll(ps)) == Split(ps, [])
  {
    if ps != [] {
      var head, tail := Print(ps[0]), PrintAll(ps[1..]);
      PrintedIsNext(ps[0], tail);
      assert (head + tail)[|head|..] == tail;
      StreamRoundTrip(ps[1..]);
      assert [ps[0]] + ps[1..] == ps;
    }
  }

  // ---- the receive buffer ----------------------------------------------------------------------------

  // What a connection has delivered: None once the stream broke and the socket was destroyed.
  function Feed(buf: Bytes, chunks: seq<Bytes>): Split
    decreases |chunks|
  {
    if chunks == [] then Split([], buf)
    else match SplitSpec(buf + chunks[0])
      case Broken => Broken
      case Split(ps, rest) => After(ps, Feed(rest, chunks[1..]))
  }

  // However a stream is cut into chunks, the subscriber sees the packets of the whole stream.
  lemma {:induction false} ChunkingIsInvisible(buf: Bytes, chunks: seq<Bytes>)
    requires SplitSpec(buf) == Split([], buf)
    ensures Feed(buf, chunks) == SplitSpec(buf + Concat(chunks))
    decreases |chunks|
  {
    if chunks == [] {
      assert buf + [] == buf;
    } else {
      var a, b := buf + chunks[0], Concat(chunks[1..]);
      assert buf + Concat(chunks) == a + b;
      SplitPrefix(a, b);
      if SplitSpec(a).Split? {
        RestIsStuck(a);
        ChunkingIsInvisible(SplitSpec(a).rest, chunks[1..]);
      }
    }
  }

  lemma {:induction false} RestIsStuck(buf: Bytes)
    ensures SplitSpec(buf).Split? ==> SplitSpec(SplitSpec(buf).rest) == Split([], SplitSpec(buf).rest)
    decreases |buf|
  {
    NextPacketSize(buf);
    if NextPacket(buf).One? { RestIsStuck(buf[NextPacket(buf).size..]); }
  }

  lemma PacketsSurviveChunking(ps: seq<Packet>, chunks: seq<Bytes>)
    requires forall p :: p in ps ==> Printable(p)
    requires Concat(chunks) == PrintAll(ps)
    ensures Feed([], chunks) == Split(ps, [])
  {
    assert [] + Concat(chunks) == Concat(chunks);
    ChunkingIsInvisible([], chunks);
    StreamRoundTrip(ps);
  }

  class MqttSubscriber {
    var buf: Bytes
    var connected: bool

    constructor ()
      ensures buf == [] && connected
    {
      buf, connected := [], true;
    }

    // The packets of one chunk, in order; a broken stream drops the connection and keeps the buffer.
    method Receive(chunk: Bytes) returns (packets: seq<Packet>)
      modifies this
      ensures var s := SplitSpec(old(buf) + chunk);
        if s.Broken? then packets == [] && !connected && buf == old(buf)
        else packets == s.packets && connected == old(connected) && buf == s.rest && |buf| < 5 + 262144
    {
      var split := SplitPackets(buf + chunk);
      RestIsBounded(buf + chunk);
      if split.Broken? {
        connected := false;
        return [];
      }
      buf := split.rest;
      return split.packets;
    }
  }

  // ---- strings and packet bodies -----------------------------------------------------------------------

  // A two-byte length, as Uint8Array keeps it (modulo 256 each), then the bytes (section 1.5.3).
  function Hi(n: nat): Byte { Remainder(Quotient(n, 256), 256) }
  function Lo(n: nat): Byte { Remainder(n, 256) }

  function Str(s: Bytes): Bytes { [Hi(|s|), Lo(|s|)] + s }

  function ReadStr(b: Bytes): Option<(Bytes, Bytes)> {
    if |b| < 2 || 2 + Word(b[0], b[1]) > |b| then None
    else var n := Word(b[0], b[1]); Some((b[2..2 + n], b[2 + n..]))
  }

  lemma WordParts(n: nat)
    ensures Word(Hi(n), Lo(n)) <= n
    ensures Word(Hi(n), Lo(n)) == n <==> n < 65536
  {
    DivMod(n, 256);
    DivMod(Quotient(n, 256), 256);
  }

  // A string comes back exactly when its length fits in two bytes.
  lemma StrRoundTrip(s: Bytes, t: Bytes)
    ensures ReadStr(Str(s) + t) == Some((s, t)) <==> |s| < 65536
  {
    WordParts(|s|);
    var b, n := Str(s) + t, Word(Hi(|s|), Lo(|s|));
    assert b[0] == Hi(|s|) && b[1] == Lo(|s|);
    if |s| < 65536 {
      assert b[2..2 + |s|] == s && b[2 + |s|..] == t;
    } else {
      assert |b[2..2 + n]| == n != |s|;
    }
  }

  datatype Connect = Connect(clientId: Bytes, username: Option<Bytes>, password: Option<Bytes>, keepAliveSec: nat)

  const PROTOCOL: Bytes := [77, 81, 84, 84]

  function OptStr(s: Option<Bytes>): Bytes { if s.Some? then Str(s.value) else [] }

  function ConnectFlags(o: Connect): Byte {
    2 + (if o.username.Some? then 128 else 0) + (if o.password.Some? then 64 else 0)
  }

  function ConnectBody(o: Connect): Bytes {
    Str(PROTOCOL) + ([4, ConnectFlags(o), Hi(o.keepAliveSec), Lo(o.keepAliveSec)]
      + (Str(o.clientId) + (OptStr(o.username) + OptStr(o.password))))
  }

  // A broker's reading of a CONNECT body (section 3.1): the flags say which strings follow.
  function ReadOptStr(present: bool, b: Bytes): Option<(Option<Bytes>, Bytes)> {
    if !present then Some((None, b))
    else match ReadStr(b) case None => None case Some(p) => Some((Some(p.0), p.1))
  }

  function ReadPayload(flags: Byte, keepAliveSec: nat, b: Bytes): Option<Connect> {
    match ReadStr(b)
    case None => None
    case Some(id) =>
      match ReadOptStr(flags >= 128, id.1)
      case None => None
      case Some(user) =>
        match ReadOptStr(Remainder(flags, 128) >= 64, user.1)
        case None => None
        case Some(pass) => if pass.1 != [] then None else Some(Connect(id.0, user.0, pass.0, keepAliveSec))
  }

  function ReadConnect(body: Bytes): Option<Connect> {
    match ReadStr(body)
    case None => None
    case Some(name) =>
      var v := name.1;
      if name.0 != PROTOCOL || |v| < 4 || v[0] != 4 then None else ReadPayload(v[1], Word(v[2], v[3]), v[4..])
  }

  predicate ShortStrings(o: Connect) {
    && |o.clientId| < 65536 && o.keepAliveSec < 65536
    && (o.username.Some? ==> |o.username.value| < 65536) && (o.password.Some? ==> |o.password.value| < 65536)
  }

  lemma OptStrRoundTrip(s: Option<Bytes>, t: Bytes)
    requires s.Some? ==> |s.value| < 65536
    ensures ReadOptStr(s.Some?, OptStr(s) + t) == Some((s, t))
  {
    if s.Some? { StrRoundTrip(s.value, t); } else { assert [] + t == t; }
  }

  lemma FlagBits(o: Connect)
    ensures (ConnectFlags(o) >= 128) == o.username.Some? && (Remainder(ConnectFlags(o), 128) >= 64) == o.password.Some?
  {
  }

  lemma PayloadReadsBack(o: Connect, b: Bytes)
    requires ShortStrings(o) && b == Str(o.clientId) + (OptStr(o.username) + OptStr(o.password))
    ensures ReadPayload(ConnectFlags(o), o.keepAliveSec, b) == Some(o)
  {
    FlagBits(o);
    StrRoundTrip(o.clientId, OptStr(o.username) + OptStr(o.password));
    OptStrRoundTrip(o.username, OptStr(o.password));
    OptStrRoundTrip(o.password, []);
    assert OptStr(o.password) + [] == OptStr(o.password);
  }

  lemma HeaderReadsBack(o: Connect, v: Bytes, b: Bytes)
    requires o.keepAliveSec < 65536
    requires v == [4, ConnectFlags(o), Hi(o.keepAliveSec), Lo(o.keepAliveSec)] + b
    ensures |v| >= 4 && v[0] == 4 && v[1] == ConnectFlags(o) && Word(v[2], v[3]) == o.keepAliveSec && v[4..] == b
  {
    WordParts(o.keepAliveSec);
  }

  lemma ConnectReadsBack(o: Connect)
    requires ShortStrings(o)
    ensures ReadConnect(ConnectBody(o)) == Some(o)
  {
    var b := Str(o.clientId) + (OptStr(o.username) + OptStr(o.password));
    var v := [4, ConnectFlags(o), Hi(o.keepAliveSec), Lo(o.keepAliveSec)] + b;
    HeaderReadsBack(o, v, b);
    PayloadReadsBack(o, b);
    StrRoundTrip(PROTOCOL, v);
  }

  // CONNECT goes out as one packet of type 1, and a broker reads back what was asked for.
  lemma ConnectRoundTrip(o: Connect)
    requires ShortStrings(o)
    ensures var p := Packet(1, 0, ConnectBody(o));
      Printable(p) && SplitSpec(Print(p)) == Split([p], []) && ReadConnect(p.body) == Some(o)
  {
    var p := Packet(1, 0, ConnectBody(o));
    assert PrintAll([p]) == Print(p) + [] == Print(p);
    StreamRoundTrip([p]);
    ConnectReadsBack(o);
  }

  // ---- SUBSCRIBE (section 3.8) -------------------------------------------------------------------------

  function TopicFilters(topics: seq<Bytes>): Bytes {
    if topics == [] then [] else Str(topics[0]) + ([0] + TopicFilters(topics[1..]))
  }

  function SubscribeBody(id: nat, topics: seq<Bytes>): Bytes { [Hi(id), Lo(id)] + TopicFilters(topics) }

  // A broker's reading of the topic filters: each a string and the QoS asked for.
  function ReadFilters(b: Bytes): Option<seq<(Bytes, Byte)>>
    decreases |b|
  {
    if b == [] then Some([])
    else match ReadStr(b)
      case None => None
      case Some(t) =>
        if t.1 == [] then None
        else match ReadFilters(t.1[1..]) case None => None case Some(more) => Some([(t.0, t.1[0])] + more)
  }

  function AtQos0(topics: seq<Bytes>): seq<(Bytes, Byte)> {
    if topics == [] then [] else [(topics[0], 0)] + AtQos0(topics[1..])
  }

  lemma {:induction false} FiltersReadBack(topics: seq<Bytes>)
    requires forall k :: 0 <= k < |topics| ==> |topics[k]| < 65536
    ensures ReadFilters(TopicFilters(topics)) == Some(AtQos0(topics))
  {
    if topics != [] {
      var rest := [0] + TopicFilters(topics[1..]);
      StrRoundTrip(topics[0], rest);
      FiltersReadBack(topics[1..]);
      assert rest[1..] == TopicFilters(topics[1..]);
    }
  }

  // SUBSCRIBE goes out as one packet of type 8, and a broker reads back the id and every topic, at QoS 0.
  lemma SubscribeRoundTrip(id: nat, topics: seq<Bytes>)
    requires id < 65536 && (forall k :: 0 <= k < |topics| ==> |topics[k]| < 65536)
    requires |SubscribeBody(id, topics)| <= 262144
    ensures var p := Packet(8, 2, SubscribeBody(id, topics));
      && Printable(p) && SplitSpec(Print(p)) == Split([p], [])
      && Word(p.body[0], p.body[1]) == id
      && ReadFilters(p.body[2..]) == Some(AtQos0(topics))
  {
    var p := Packet(8, 2, SubscribeBody(id, topics));
    assert PrintAll([p]) == Print(p) + [] == Print(p);
    StreamRoundTrip([p]);
    WordParts(id);
    FiltersReadBack(topics);
    assert p.body[2..] == TopicFilters(topics);
  }

  // ---- PUBLISH (section 3.3) ---------------------------------------------------------------------------

  datatype Publish = Publish(topic: Bytes, id: Option<nat>, payload: Bytes)

  function Qos(flags: nat): nat { Remainder(Quotient(flags, 2), 4) }

  function ParsePublish(p: Packet): Option<Publish> {
    var b := p.body;
    if |b| < 2 then None
    else
      var tlen := Word(b[0], b[1]);
      if 2 + tlen > |b| then None
      else if Qos(p.flags) > 0 then
        if 2 + tlen + 2 > |b| then None
        else Some(Publish(b[2..2 + tlen], Some(Word(b[2 + tlen], b[2 + tlen + 1])), b[2 + tlen + 2..]))
      else Some(Publish(b[2..2 + tlen], None, b[2 + tlen..]))
  }

  function PublishBody(m: Publish): Bytes {
    Str(m.topic) + ((if m.id.Some? then [Hi(m.id.value), Lo(m.id.value)] else []) + m.payload)
  }

  // A PUBLISH printed with its packet id exactly when its QoS calls for one parses back.
  lemma PublishRoundTrip(m: Publish, flags: nat)
    requires flags < 16 && |m.topic| < 65536
    requires m.id.Some? <==> Qos(flags) > 0
    requires m.id.Some? ==> m.id.value < 65536
    ensures ParsePublish(Packet(3, flags, PublishBody(m))) == Some(m)
  {
    var tail := (if m.id.Some? then [Hi(m.id.value), Lo(m.id.value)] else []) + m.payload;
    var b, n := PublishBody(m), |m.topic|;
    TopicLaid(m.topic, tail, b);
    if m.id.Some? {
      WordParts(m.id.value);
      assert b[2 + n] == tail[0] && b[2 + n + 1] == tail[1];
      assert b[2 + n + 2..] == tail[2..] == m.payload;
    } else {
      assert tail == m.payload;
    }
  }

  lemma TopicLaid(topic: Bytes, tail: Bytes, b: Bytes)
    requires |topic| < 65536 && b == Str(topic) + tail
    ensures |b| >= 2 && Word(b[0], b[1]) == |topic| && b[2..2 + |topic|] == topic && b[2 + |topic|..] == tail
  {
    WordParts(|topic|);
    assert b[0] == Hi(|topic|) && b[1] == Lo(|topic|);
  }

  lemma StrOfPrefix(b: Bytes)
    requires |b| >= 2 && 2 + Word(b[0], b[1]) <= |b|
    ensures var n := Word(b[0], b[1]); b == Str(b[2..2 + n]) + b[2 + n..]
  {
    var hi, lo, n := b[0], b[1], Word(b[0], b[1]);
    var s, t := b[2..2 + n], b[2 + n..];
    BytesOfWord(hi, lo, n);
    StrIs(s, hi, lo);
    assert b == [hi, lo] + (s + t);
    Associates([hi, lo], s, t);
  }

  lemma StrIs(s: Bytes, hi: Byte, lo: Byte)
    requires hi == Hi(|s|) && lo == Lo(|s|)
    ensures Str(s) == [hi, lo] + s
  {
  }

  // What parses was there: topic, id and payload cover the body, nothing is invented or skipped.
  lemma ParsedPublishCovers(p: Packet)
    requires ParsePublish(p).Some?
    ensures PublishBody(ParsePublish(p).value) == p.body
    ensures ParsePublish(p).value.id.Some? <==> Qos(p.flags) > 0
  {
    var m, b := ParsePublish(p).value, p.body;
    var n := Word(b[0], b[1]);
    StrOfPrefix(b);
    var tail := b[2 + n..];
    if m.id.Some? {
      assert tail[0] == b[2 + n] && tail[1] == b[2 + n + 1] && tail[2..] == b[2 + n + 2..];
      IdLaid(m.id.value, m.payload, tail);
    } else {
      assert [] + tail == tail;
    }
  }

  lemma IdLaid(id: nat, payload: Bytes, tail: Bytes)
    requires |tail| >= 2 && id == Word(tail[0], tail[1]) && payload == tail[2..]
    ensures [Hi(id), Lo(id)] + payload == tail
  {
    var hi, lo := Hi(id), Lo(id);
    BytesOfWord(tail[0], tail[1], id);
    TwoAndRest(hi, lo, payload, tail);
  }

  lemma TwoAndRest(a: Byte, b: Byte, rest: Bytes, all: Bytes)
    requires |all| >= 2 && a == all[0] && b == all[1] && rest == all[2..]
    ensures [a, b] + rest == all
  {
  }

  lemma BytesOfWord(hi: Byte, lo: Byte, n: nat)
    requires n == Word(hi, lo)
    ensures Hi(n) == hi && Lo(n) == lo
  {
    Digits(hi, lo, 256);
    Digits(0, hi, 256);
  }
}
