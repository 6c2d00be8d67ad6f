// The two buffers between Direwolf's modem and its host (modems/direwolf/src/glue.c writes, index.ts reads):
// one record per received frame, and the transmit audio collected from its bytes.
//
// What the modem hears is the environment's: the frames its callback is given during each push of samples.

module DirewolfBuffers {
  import opened Arithmetic
  import opened Common

  const RX_OUT_CAP: nat := 65536
  const IN_CAP: nat := 16384
  const HEADER: nat := 5

  datatype Fec = NoFec | Fx25 | Il2p

  // A frame as the callback gets it; `bytes` is what packing it yields, never longer than a packet may be.
  datatype Heard = Heard(bytes: Bytes, fec: Fec, subchan: int, slice: int, retries: int)

  predicate Packed(f: Heard) { |f.bytes| <= 2123 }

  // A frame as the host reads it.
  datatype Frame = Frame(bytes: Bytes, fec: Fec, corrected: nat, subchannel: nat, slice: nat)

  // Which framings the receiver accepts.
  datatype Accepts = Accepts(fx25: bool, il2p: bool)

  // ---- records ------------------------------------------------------------------------------------

  // The low bits of a C int, as `n & (d - 1)` keeps them for a power of two d.
  function LowBits(n: int, d: nat): (r: nat)
    requires d >= 1
    ensures r < d
  {
    if n >= 0 then Remainder(n, d) else d - 1 - Remainder(-1 - n, d)
  }

  lemma LowBitsAreRemainder(n: int, d: nat)
    requires d >= 1
    ensures LowBits(n, d) == n % d
  {
    if n >= 0 {
      AreDivision(n, d);
    } else {
      var q, r := Quotient(-1 - n, d), Remainder(-1 - n, d);
      assert (-1 - q) * d == 0 - d - q * d;
      DivMod(-1 - n, d);
      Unique(n, d, -1 - q, d - 1 - r, n / d, n % d);
    }
  }

  function Nibble(n: int): (r: nat)
    ensures r < 16
  {
    LowBits(n, 16)
  }

  function Clamped(n: int): Byte { if n < 0 then 0 else if n > 255 then 255 else n }

  function Code(fec: Fec): Byte { if fec.NoFec? then 0 else if fec.Fx25? then 1 else 2 }

  function Named(code: Byte): Fec { if code == 1 then Fx25 else if code == 2 then Il2p else NoFec }

  function Header(f: Heard): (h: Bytes)
    ensures |h| == HEADER
  {
    [Remainder(|f.bytes|, 256), Remainder(Quotient(|f.bytes|, 256), 256), Code(f.fec),
     16 * Nibble(f.subchan) + Nibble(f.slice), Clamped(f.retries)]
  }

  function Record(f: Heard): (r: Bytes)
    ensures |r| == HEADER + |f.bytes|
  {
    Header(f) + f.bytes
  }

  predicate Wanted(f: Heard, a: Accepts) {
    !(f.fec.Fx25? && !a.fx25) && !(f.fec.Il2p? && !a.il2p) && f.bytes != []
  }

  // What the buffer holds after one more frame: its record, when the frame is wanted and there is room.
  function Recorded(out: Bytes, f: Heard, a: Accepts): Bytes {
    if Wanted(f, a) && |out| + HEADER + |f.bytes| <= RX_OUT_CAP then out + Record(f) else out
  }

  function AllRecorded(fs: seq<Heard>, a: Accepts): Bytes {
    if fs == [] then [] else Recorded(AllRecorded(fs[..|fs| - 1], a), fs[|fs| - 1], a)
  }

  // Where the record at a position ends; one whose length runs past the end yields what there is of it.
  function NextAt(out: Bytes, p: nat): nat
    requires p + HEADER <= |out|
  {
    p + HEADER + Word(out[p + 1], out[p])
  }

  function FrameAt(out: Bytes, p: nat): Frame
    requires p + HEADER <= |out|
  {
    var q := NextAt(out, p);
    Frame(out[p + HEADER..if q <= |out| then q else |out|], Named(out[p + 2]), out[p + 4],
          Quotient(out[p + 3], 16), Remainder(out[p + 3], 16))
  }

  // The host's reading of a buffer, from position p on: records while a header is left.
  function Collected(out: Bytes, p: nat): seq<Frame>
    decreases |out| - p
  {
    if p + HEADER > |out| then [] else [FrameAt(out, p)] + Collected(out, NextAt(out, p))
  }

  // A frame heard, as the host is to read it: its count within a byte, its channel and slice modulo 16.
  ghost function View(f: Heard): Frame {
    Frame(f.bytes, f.fec, if f.retries < 0 then 0 else if f.retries > 255 then 255 else f.retries,
          Modulo16(f.subchan), Modulo16(f.slice))
  }

  ghost function Modulo16(n: int): nat { n % 16 }

  lemma ViewIs(f: Heard)
    ensures View(f) == Frame(f.bytes, f.fec, Clamped(f.retries), Nibble(f.subchan), Nibble(f.slice))
  {
    LowBitsAreRemainder(f.subchan, 16);
    LowBitsAreRemainder(f.slice, 16);
  }

  ghost function Views(fs: seq<Heard>): seq<Frame> { seq(|fs|, i requires 0 <= i < |fs| => View(fs[i])) }

  // A frame to be handed on: not empty, and in plain AX.25 or a framing that is accepted.
  ghost predicate Acceptable(f: Heard, a: Accepts) {
    f.bytes != [] && (f.fec.NoFec? || (f.fec.Fx25? && a.fx25) || (f.fec.Il2p? && a.il2p))
  }

  // The frames stored: those to be handed on, as long as they find room.
  ghost function Stored(fs: seq<Heard>, a: Accepts): seq<Heard> {
    if fs == [] then []
    else
      var init, f := fs[..|fs| - 1], fs[|fs| - 1];
      if Acceptable(f, a) && |AllRecorded(init, a)| + 5 + |f.bytes| <= 65536
      then Stored(init, a) + [f] else Stored(init, a)
  }

  function Records(fs: seq<Heard>): Bytes {
    if fs == [] then [] else Record(fs[0]) + Records(fs[1..])
  }

  lemma {:induction false} RecordsAppend(fs: seq<Heard>, f: Heard)
    ensures Records(fs + [f]) == Records(fs) + Record(f)
  {
    if fs == [] {
      assert Records([f]) == Record(f) + Records([]);
    } else {
      assert (fs + [f])[0] == fs[0] && (fs + [f])[1..] == fs[1..] + [f];
      RecordsAppend(fs[1..], f);
      assert Record(fs[0]) + (Records(fs[1..]) + Record(f)) == (Record(fs[0]) + Records(fs[1..])) + Record(f);
    }
  }

  lemma {:induction false} BufferIsRecords(fs: seq<Heard>, a: Accepts)
    requires forall i :: 0 <= i < |fs| ==> Packed(fs[i])
    ensures AllRecorded(fs, a) == Records(Stored(fs, a)) && |AllRecorded(fs, a)| <= 65536
    ensures forall i :: 0 <= i < |Stored(fs, a)| ==> Packed(Stored(fs, a)[i])
  {
    if fs != [] {
      BufferIsRecords(fs[..|fs| - 1], a);
      RecordsAppend(Stored(fs[..|fs| - 1], a), fs[|fs| - 1]);
    }
  }

  // A record reads back: length, framing, nibbles, clamped count.
  lemma HeaderReads(f: Heard, h: Bytes)
    requires Packed(f) && h == Header(f)
    ensures Word(h[1], h[0]) == |f.bytes| && Named(h[2]) == f.fec && h[4] == Clamped(f.retries)
    ensures Quotient(h[3], 16) == Nibble(f.subchan) && Remainder(h[3], 16) == Nibble(f.slice)
  {
    var n := |f.bytes|;
    WordReads(n, Quotient(n, 256), h[1], h[0]);
    NibblesRead(Nibble(f.subchan), Nibble(f.slice), h[3]);
  }

  lemma WordReads(n: nat, q: nat, hi: Byte, lo: Byte)
    requires n < 65536 && q == Quotient(n, 256) && lo == Remainder(n, 256) && hi == Remainder(q, 256)
    ensures Word(hi, lo) == n
  {
    DivMod(n, 256);
    assert n == q * 256 + lo && q < 256;
    SmallRemainder(q, 256);
  }

  lemma SmallRemainder(q: nat, d: nat)
    requires q < d
    ensures Remainder(q, d) == q
  {
    assert Quotient(q, d) == 0;
  }

  lemma NibblesRead(a: nat, b: nat, c: nat)
    requires a < 16 && b < 16 && c == 16 * a + b
    ensures Quotient(c, 16) == a && Remainder(c, 16) == b
  {
    Digits(a, b, 16);
  }

  lemma Laid(p: nat, before: Bytes, h: Bytes, bytes: Bytes, rest: Bytes, out: Bytes)
    requires |h| == HEADER && p == |before| && out == before + ((h + bytes) + rest)
    ensures |out| >= p + HEADER + |bytes| && out[p + HEADER..p + HEADER + |bytes|] == bytes
    ensures out[p] == h[0] && out[p + 1] == h[1] && out[p + 2] == h[2] && out[p + 3] == h[3] && out[p + 4] == h[4]
  {
    assert forall i :: 0 <= i < HEADER ==> out[p + i] == h[i];
    assert out[p + 0] == h[0];
  }

  lemma FirstFrame(f: Heard, h: Bytes, p: nat, out: Bytes)
    requires |h| == HEADER && p + HEADER + |f.bytes| <= |out| && out[p + HEADER..p + HEADER + |f.bytes|] == f.bytes
    requires out[p] == h[0] && out[p + 1] == h[1] && out[p + 2] == h[2] && out[p + 3] == h[3] && out[p + 4] == h[4]
    requires Word(h[1], h[0]) == |f.bytes| && Named(h[2]) == f.fec && h[4] == Clamped(f.retries)
    requires Quotient(h[3], 16) == Nibble(f.subchan) && Remainder(h[3], 16) == Nibble(f.slice)
    ensures FrameAt(out, p) == View(f) && NextAt(out, p) == p + HEADER + |f.bytes|
  {
    var x := FrameAt(out, p);
    ViewIs(f);
    assert x.bytes == f.bytes && x.fec == f.fec;
    assert x.subchannel == Nibble(f.subchan) && x.slice == Nibble(f.slice);
  }

  lemma FirstRecord(f: Heard, before: Bytes, rest: Bytes, out: Bytes)
    requires Packed(f) && out == before + (Record(f) + rest)
    ensures |before| + HEADER <= |out| && FrameAt(out, |before|) == View(f)
        && NextAt(out, |before|) == |before| + |Record(f)|
  {
    var h, p := Header(f), |before|;
    Laid(p, before, h, f.bytes, rest, out);
    HeaderReads(f, h);
    FirstFrame(f, h, p, out);
  }

  // Whatever frames fill a buffer, the host reads exactly them, in order.
  lemma {:induction false} RecordsReadBack(fs: seq<Heard>, before: Bytes, out: Bytes, frames: seq<Frame>)
    requires forall i :: 0 <= i < |fs| ==> Packed(fs[i])
    requires out == before + Records(fs) && frames == Collected(out, |before|)
    ensures frames == Views(fs)
    decreases |fs|
  {
    if fs != [] {
      var r, rest, x := Record(fs[0]), Records(fs[1..]), View(fs[0]);
      FirstRecord(fs[0], before, rest, out);
      Associates(before, r, rest);
      CollectedNext(out, |before|, |before + r|, x, frames);
      var more := Collected(out, |before + r|);
      RecordsReadBack(fs[1..], before + r, out, more);
      ViewsNext(fs, x, more);
    }
  }

  lemma CollectedNext(out: Bytes, p: nat, q: nat, x: Frame, frames: seq<Frame>)
    requires p + HEADER <= |out| && FrameAt(out, p) == x && NextAt(out, p) == q && frames == Collected(out, p)
    ensures frames == [x] + Collected(out, q)
  {
  }

  lemma ViewsNext(fs: seq<Heard>, x: Frame, more: seq<Frame>)
    requires fs != [] && x == View(fs[0]) && more == Views(fs[1..])
    ensures Views(fs) == [x] + more
  {
  }

  // End to end for one buffer: of any frames the modem hears, the host gets exactly the stored ones, in
  // order, unchanged, and the buffer never runs past its end.
  lemma FramesArrive(fs: seq<Heard>, a: Accepts)
    requires forall i :: 0 <= i < |fs| ==> Packed(fs[i])
    ensures Collected(AllRecorded(fs, a), 0) == Views(Stored(fs, a)) && |AllRecorded(fs, a)| <= 65536
  {
    BufferIsRecords(fs, a);
    assert [] + Records(Stored(fs, a)) == Records(Stored(fs, a));
    RecordsReadBack(Stored(fs, a), [], AllRecorded(fs, a), Collected(AllRecorded(fs, a), 0));
  }

  ghost function WantedOnes(fs: seq<Heard>, a: Accepts): seq<Heard> {
    if fs == [] then [] else WantedOnes(fs[..|fs| - 1], a) + if Acceptable(fs[|fs| - 1], a) then [fs[|fs| - 1]] else []
  }

  // Nothing wanted is lost while at most 30 frames come between two reads, however long they are.
  lemma {:induction false} ThirtyFramesFit(fs: seq<Heard>, a: Accepts)
    requires |fs| <= 30 && forall i :: 0 <= i < |fs| ==> Packed(fs[i])
    ensures Stored(fs, a) == WantedOnes(fs, a) && |AllRecorded(fs, a)| <= |fs| * (5 + 2123)
  {
    if fs != [] { ThirtyFramesFit(fs[..|fs| - 1], a); }
  }

  // What a push of samples returns: what is heard in each stretch of the input buffer is read before the next.
  ghost function Pushed(heard: seq<seq<Heard>>, a: Accepts): seq<Frame> {
    if heard == [] then [] else Pushed(heard[..|heard| - 1], a) + Views(Stored(heard[|heard| - 1], a))
  }

  // Everything heard, stretch after stretch.
  function AllHeard(heard: seq<seq<Heard>>): seq<Heard> {
    if heard == [] then [] else AllHeard(heard[..|heard| - 1]) + heard[|heard| - 1]
  }

  lemma {:induction false} WantedConcat(a: seq<Heard>, b: seq<Heard>, accepts: Accepts)
    ensures WantedOnes(a + b, accepts) == WantedOnes(a, accepts) + WantedOnes(b, accepts)
    decreases |b|
  {
    if b == [] {
      assert a + b == a && WantedOnes(a, accepts) + [] == WantedOnes(a, accepts);
    } else {
      var init, last := b[..|b| - 1], if Acceptable(b[|b| - 1], accepts) then [b[|b| - 1]] else [];
      assert (a + b)[..|a + b| - 1] == a + init;
      WantedConcat(a, init, accepts);
      Associates(WantedOnes(a, accepts), WantedOnes(init, accepts), last);
    }
  }

  lemma ViewsConcat(a: seq<Heard>, b: seq<Heard>)
    ensures Views(a + b) == Views(a) + Views(b)
  {
  }

  // A push of any number of samples: while at most 30 frames come in each stretch of the input buffer, the host
  // gets exactly the frames to be handed on, of all stretches, in order.
  lemma {:induction false} PushLosesNothing(heard: seq<seq<Heard>>, a: Accepts)
    requires forall k :: 0 <= k < |heard| ==> |heard[k]| <= 30
    requires forall k, i :: 0 <= k < |heard| && 0 <= i < |heard[k]| ==> Packed(heard[k][i])
    ensures Pushed(heard, a) == Views(WantedOnes(AllHeard(heard), a))
  {
    if heard != [] {
      var init, last := heard[..|heard| - 1], heard[|heard| - 1];
      PushLosesNothing(init, a);
      ThirtyFramesFit(last, a);
      WantedConcat(AllHeard(init), last, a);
      ViewsConcat(WantedOnes(AllHeard(init), a), WantedOnes(last, a));
    }
  }

  function Stretches(samples: nat): nat {
    if samples == 0 then 0 else if samples <= IN_CAP then 1 else 1 + Stretches(samples - IN_CAP)
  }

  // The stretches of 16384 samples cover the push, and none is empty.
  lemma {:induction false} StretchesCover(samples: nat)
    ensures Stretches(samples) * 16384 >= samples
    ensures samples > 0 ==> Stretches(samples) > 0 && (Stretches(samples) - 1) * 16384 < samples
  {
    if samples > 16384 { StretchesCover(samples - 16384); }
  }

  class Receiver {
    const rxOut: array<Byte>
    var rxOutLen: nat
    const accepts: Accepts

    ghost predicate Valid()
      reads this
    {
      rxOut.Length == RX_OUT_CAP && rxOutLen <= RX_OUT_CAP
    }

    ghost function Out(): Bytes
      reads this, rxOut
      requires Valid()
    {
      rxOut[..rxOutLen]
    }

    constructor (accepts: Accepts)
      ensures Valid() && Out() == [] && fresh(rxOut) && this.accepts == accepts
    {
      this.accepts, rxOutLen := accepts, 0;
      rxOut := new Byte[RX_OUT_CAP](i => 0);
    }

    method Put(b: Byte)
      requires Valid() && rxOutLen < RX_OUT_CAP
      modifies this, rxOut
      ensures Valid() && Out() == old(Out()) + [b]
    {
      rxOut[rxOutLen] := b;
      rxOutLen := rxOutLen + 1;
    }

    // The receive core's frame callback.
    method RecFrame(f: Heard)
      requires Valid()
      modifies this, rxOut
      ensures Valid() && Out() == Recorded(old(Out()), f, accepts)
    {
      var n := |f.bytes|;
      if (f.fec == Fx25 && !accepts.fx25) || (f.fec == Il2p && !accepts.il2p) { return; }
      if n <= 0 || rxOutLen + HEADER + n > RX_OUT_CAP { return; }
      ghost var out := Out();
      PutHeader(f);
      CopyIn(f.bytes);
      Associates(out, Header(f), f.bytes);
    }

    method PutHeader(f: Heard)
      requires Valid() && rxOutLen + HEADER <= RX_OUT_CAP
      modifies this, rxOut
      ensures Valid() && Out() == old(Out()) + Header(f)
    {
      ghost var h, out := Header(f), Out();
      var len := |f.bytes|;
      Put(Remainder(len, 256));
      assert Out() == out + h[..1];
      Put(Remainder(Quotient(len, 256), 256));
      assert Out() == out + h[..2];
      Put(Code(f.fec));
      assert Out() == out + h[..3];
      Put(16 * Nibble(f.subchan) + Nibble(f.slice));
      assert Out() == out + h[..4];
      Put(Clamped(f.retries));
    }

    method CopyIn(bytes: Bytes)
      requires Valid() && rxOutLen + |bytes| <= RX_OUT_CAP
      modifies this, rxOut
      ensures Valid() && Out() == old(Out()) + bytes
    {
      ghost var out := Out();
      assert bytes[..0] == [];
      for i := 0 to |bytes|
        invariant Valid() && rxOutLen == |out| + i && Out() == out + bytes[..i]
      {
        Put(bytes[i]);
        assert bytes[..i + 1] == bytes[..i] + [bytes[i]];
      }
      assert bytes[..|bytes|] == bytes;
    }

    // The record at a position, and where the next one starts.
    static method ReadRecord(view: Bytes, p: nat) returns (f: Frame, q: nat)
      requires p + HEADER <= |view|
      ensures f == FrameAt(view, p) && q == NextAt(view, p)
    {
      var n := Word(view[p + 1], view[p]);
      var end := if p + HEADER + n <= |view| then p + HEADER + n else |view|;
      f := Frame(view[p + HEADER..end], Named(view[p + 2]), view[p + 4],
                 Quotient(view[p + 3], 16), Remainder(view[p + 3], 16));
      q := p + HEADER + n;
    }

    // The host's reading of the buffer; the buffer is then cleared.
    method Collect() returns (frames: seq<Frame>)
      requires Valid()
      modifies this
      ensures Valid() && Out() == [] && frames == Collected(old(Out()), 0)
    {
      frames := [];
      var view := rxOut[..rxOutLen];
      ghost var all, rest := Collected(view, 0), Collected(view, 0);
      var p := 0;
      while p + HEADER <= |view|
        invariant frames + rest == all && rest == Collected(view, p)
        decreases |view| - p
      {
        var f, q := ReadRecord(view, p);
        CollectedNext(view, p, q, f, rest);
        rest := Collected(view, q);
        Associates(frames, [f], rest);
        frames := frames + [f];
        p := q;
      }
      rxOutLen := 0;
    }

    // What the modem hears in one stretch, frame by frame.
    method Hear(fs: seq<Heard>)
      requires Valid() && Out() == []
      modifies this, rxOut
      ensures Valid() && Out() == AllRecorded(fs, accepts)
    {
      for i := 0 to |fs|
        invariant Valid() && Out() == AllRecorded(fs[..i], accepts)
      {
        RecFrame(fs[i]);
        assert fs[..i + 1][..i] == fs[..i];
      }
      assert fs[..|fs|] == fs;
    }

    // A push of `samples` samples; `heard` is what the modem hears in each stretch of the input buffer.
    method Push(samples: nat, heard: seq<seq<Heard>>) returns (frames: seq<Frame>)
      requires Valid() && Out() == [] && |heard| == Stretches(samples)
      requires forall k, i :: 0 <= k < |heard| && 0 <= i < |heard[k]| ==> Packed(heard[k][i])
      modifies this, rxOut
      ensures Valid() && Out() == [] && frames == Pushed(heard, accepts)
    {
      frames := [];
      var off, k := 0, 0;
      while off < samples
        invariant Valid() && Out() == [] && 0 <= k <= |heard|
        invariant k + Stretches(if off < samples then samples - off else 0) == |heard|
        invariant frames == Pushed(heard[..k], accepts)
        decreases samples - off
      {
        var fs := heard[k];
        Hear(fs);
        FramesArrive(fs, accepts);
        if rxOutLen > 0 {
          var got := Collect();
          frames := frames + got;
        }
        assert heard[..k + 1][..k] == heard[..k];
        off, k := off + IN_CAP, k + 1;
      }
      assert heard[..k] == heard;
    }
  }

  // ---- transmit audio -----------------------------------------------------------------------------

  const FIRST_CAP: nat := 65536

  function Low8(c: int): Byte { LowBits(c, 256) }

  lemma Low8Is(c: int)
    ensures Low8(c) == c % 256
  {
    LowBitsAreRemainder(c, 256);
  }

  // Two little-endian bytes as a C short.
  function Short(lo: Byte, hi: Byte): int {
    var v := Word(hi, lo);
    if v >= 32768 then v - 65536 else v
  }

  // The samples a byte stream makes, pair by pair; an odd last byte waits.
  function Paired(bytes: Bytes): seq<int> {
    if |bytes| < 2 then [] else [Short(bytes[0], bytes[1])] + Paired(bytes[2..])
  }

  // A sample's two bytes.
  function Unpaired(v: int): Bytes
    requires -32768 <= v < 32768
  {
    var u: nat := if v < 0 then v + 65536 else v;
    DivMod(u, 256);
    [Remainder(u, 256), Quotient(u, 256)]
  }

  predicate Shorts(samples: seq<int>) { forall i :: 0 <= i < |samples| ==> -32768 <= samples[i] < 32768 }

  function AllUnpaired(samples: seq<int>): Bytes
    requires Shorts(samples)
  {
    if samples == [] then [] else Unpaired(samples[0]) + AllUnpaired(samples[1..])
  }

  lemma UnpairedReads(v: int)
    requires -32768 <= v < 32768
    ensures |Unpaired(v)| == 2 && Short(Unpaired(v)[0], Unpaired(v)[1]) == v
  {
    DivMod(if v < 0 then v + 65536 else v, 256);
  }

  // Any samples the tone generator writes byte by byte come out as they were.
  lemma {:induction false} AudioRoundTrip(samples: seq<int>)
    requires Shorts(samples)
    ensures Paired(AllUnpaired(samples)) == samples
  {
    if samples != [] {
      var two, rest := Unpaired(samples[0]), AllUnpaired(samples[1..]);
      UnpairedReads(samples[0]);
      AudioRoundTrip(samples[1..]);
      assert (two + rest)[2..] == rest && (two + rest)[0] == two[0] && (two + rest)[1] == two[1];
    }
  }

  lemma {:induction false} PairedNext(bytes: Bytes, half: bool, c: Byte)
    requires Even(|bytes|) != half
    ensures Paired(bytes + [c]) == Paired(bytes) + if half then [Short(bytes[|bytes| - 1], c)] else []
    decreases |bytes|
  {
    if |bytes| >= 2 {
      assert (bytes + [c])[2..] == bytes[2..] + [c];
      PairedNext(bytes[2..], half, c);
    } else if half {
      assert Paired((bytes + [c])[2..]) == [];
    }
  }

  predicate Even(n: nat) { if n == 0 then true else !Even(n - 1) }

  class Transmitter {
    var txOut: array<int>
    var txOutLen: nat
    var txByteLo: Byte
    var txByteHalf: bool
    // The bytes put since the last frame began, less the pairs dropped for want of memory.
    ghost var put: Bytes

    ghost predicate Valid()
      reads this, txOut
    {
      && txOutLen <= txOut.Length
      && txByteHalf == !Even(|put|)
      && (txByteHalf ==> put[|put| - 1] == txByteLo)
      && txOut[..txOutLen] == Paired(put)
    }

    constructor ()
      ensures Valid() && put == []
    {
      txOutLen, txByteLo, txByteHalf, put := 0, 0, false, [];
      txOut := new int[0];
    }

    // A new frame: the memory stays.
    method Begin()
      requires Valid()
      modifies this
      ensures Valid() && put == [] && txOut == old(txOut)
    {
      txOutLen, txByteHalf, put := 0, false, [];
    }

    // One byte of audio; `memory` says whether a reallocation, if one is needed, succeeds.
    method AudioPut(c: int, memory: bool) returns (r: int)
      requires Valid()
      modifies this, txOut
      ensures Valid() && (txOut == old(txOut) || fresh(txOut))
      ensures var fails := !memory && old(txByteHalf && txOutLen == txOut.Length);
        r == (if fails then -1 else c) && put == if fails then old(put[..|put| - 1]) else old(put) + [Low8(c)]
    {
      PairedNext(put, txByteHalf, Low8(c));
      if !txByteHalf {
        txByteLo := Low8(c);
        txByteHalf := true;
        put := put + [Low8(c)];
        return c;
      }
      txByteHalf := false;
      if txOutLen == txOut.Length {
        var cap := if txOut.Length != 0 then txOut.Length * 2 else FIRST_CAP;
        if !memory {
          DropHalf(put);
          put := put[..|put| - 1];
          return -1;
        }
        txOut := Reallocated(txOut, txOutLen, cap);
      }
      txOut[txOutLen] := Short(txByteLo, Low8(c));
      txOutLen := txOutLen + 1;
      put := put + [Low8(c)];
      assert Even(|put|);
      return c;
    }
  }

  method Reallocated(a: array<int>, n: nat, cap: nat) returns (grown: array<int>)
    requires n <= a.Length && n <= cap
    ensures fresh(grown) && grown.Length == cap && grown[..n] == a[..n]
  {
    grown := new int[cap];
    for i := 0 to n
      invariant grown[..i] == a[..i]
    {
      grown[i] := a[i];
    }
  }

  // A lone last byte makes no sample.
  lemma DropHalf(bytes: Bytes)
    requires !Even(|bytes|)
    ensures Even(|bytes| - 1) && Paired(bytes[..|bytes| - 1]) == Paired(bytes)
  {
    var init := bytes[..|bytes| - 1];
    PairedNext(init, false, bytes[|bytes| - 1]);
    assert init + [bytes[|bytes| - 1]] == bytes;
  }
}
