// The line splitter of the APRS-IS text streams (apps/ingest/src/lines.ts).

module Lines {
  import opened Common

  // ---- what a stream's lines are ------------------------------------------------------------------

  function Init<T>(s: seq<T>): seq<T>
    requires s != []
  {
    s[..|s| - 1]
  }

  function Last<T>(s: seq<T>): T
    requires s != []
  {
    s[|s| - 1]
  }

  // What follows the last newline of a stream.
  function Tail(s: string): string {
    if s == "" || Last(s) == '\n' then "" else Tail(Init(s)) + [Last(s)]
  }

  // The newline-terminated segments of a stream, without their newlines.
  function Segments(s: string): seq<string> {
    if s == "" then [] else if Last(s) == '\n' then Segments(Init(s)) + [Tail(Init(s))] else Segments(Init(s))
  }

  // A line without its one trailing carriage return.
  function Chomp(line: string): string {
    if line != "" && Last(line) == '\r' then Init(line) else line
  }

  // The lines a splitter hands out: the segments of at most maxBytes.
  function Kept(segments: seq<string>, maxBytes: nat): seq<string> {
    if segments == [] then []
    else Kept(Init(segments), maxBytes) + if |Last(segments)| <= maxBytes then [Chomp(Last(segments))] else []
  }

  function Overlong(segments: seq<string>, maxBytes: nat): nat {
    if segments == [] then 0
    else Overlong(Init(segments), maxBytes) + if |Last(segments)| > maxBytes then 1 else 0
  }

  // What the splitter holds after a stream, having dropped `before` lines on earlier connections: the
  // unfinished line, unless it is over-long already, in which case it is dropped and counted at once.
  datatype Held = Held(buf: string, skipping: bool, dropped: nat)

  function After(stream: string, before: nat, maxBytes: nat): Held {
    var over := |Tail(stream)| > maxBytes;
    Held(if over then "" else Tail(stream), over, before + Overlong(Segments(stream), maxBytes) + if over then 1 else 0)
  }

  // ---- the segments are the stream ------------------------------------------------------------------

  function Joined(segments: seq<string>): string {
    if segments == [] then "" else Joined(Init(segments)) + Last(segments) + "\n"
  }

  lemma {:induction false} SegmentsAreTheStream(s: string)
    ensures Joined(Segments(s)) + Tail(s) == s
    ensures '\n' !in Tail(s) && forall k :: 0 <= k < |Segments(s)| ==> '\n' !in Segments(s)[k]
  {
    if s != "" {
      var init, c := Init(s), Last(s);
      var lines, tail := Segments(init), Tail(init);
      SegmentsAreTheStream(init);
      assert s == init + [c];
      if c == '\n' {
        assert [c] == "\n";
        LineIsClosed(lines, tail, init);
      } else {
        Associates(Joined(lines), tail, [c]);
      }
    }
  }

  lemma LineIsClosed(lines: seq<string>, tail: string, s: string)
    requires Joined(lines) + tail == s
    ensures Joined(lines + [tail]) + "" == s + "\n"
  {
    JoinedAppend(lines, tail);
  }

  lemma JoinedAppend(lines: seq<string>, line: string)
    ensures Joined(lines + [line]) == Joined(lines) + line + "\n"
  {
    assert Init(lines + [line]) == lines;
  }

  // There is only one way to cut a stream into newline-free segments.
  lemma {:induction false} SegmentsUnique(s: string, segments: seq<string>, tail: string)
    requires Joined(segments) + tail == s && '\n' !in tail
    requires forall k :: 0 <= k < |segments| ==> '\n' !in segments[k]
    ensures segments == Segments(s) && tail == Tail(s)
    decreases |segments|
  {
    if segments == [] {
      AppendPart("", tail);
      assert "" + tail == s;
    } else {
      var head, line := Joined(Init(segments)), Last(segments);
      SegmentsUnique(head + line, Init(segments), line);
      AppendNewline(head + line);
      AppendPart(head + line + "\n", tail);
      assert Init(segments) + [line] == segments && "" + tail == tail;
    }
  }

  // ---- feeding a stream -----------------------------------------------------------------------------------

  // A stretch without a newline lengthens the unfinished line.
  lemma {:induction false} AppendPart(s: string, part: string)
    requires '\n' !in part
    ensures Segments(s + part) == Segments(s) && Tail(s + part) == Tail(s) + part
  {
    if part == "" {
      assert s + part == s && Tail(s) + part == Tail(s);
    } else {
      AppendPart(s, Init(part));
      assert Init(s + part) == s + Init(part) && Last(part) in part;
      assert Tail(s) + part == Tail(s) + Init(part) + [Last(part)];
    }
  }

  lemma AppendNewline(s: string)
    ensures Segments(s + "\n") == Segments(s) + [Tail(s)] && Tail(s + "\n") == ""
  {
    assert Init(s + "\n") == s;
  }

  lemma FinishLine(s: string, part: string, maxBytes: nat)
    requires '\n' !in part
    ensures var line, next := Tail(s) + part, s + part + "\n";
      && Kept(Segments(next), maxBytes) == Kept(Segments(s), maxBytes)
          + (if |line| <= maxBytes then [Chomp(line)] else [])
      && Overlong(Segments(next), maxBytes) == Overlong(Segments(s), maxBytes) + (if |line| > maxBytes then 1 else 0)
      && Tail(next) == ""
  {
    AppendPart(s, part);
    AppendNewline(s + part);
    assert Init(Segments(s) + [Tail(s) + part]) == Segments(s);
  }

  // What a newline after `part` makes of what is held: the line goes out or is counted, unless it was already.
  function Ended(held: Held, part: string, maxBytes: nat): (Held, seq<string>) {
    var whole := held.buf + part;
    if held.skipping then (Held("", false, held.dropped), [])
    else if |whole| > maxBytes then (Held("", false, held.dropped + 1), [])
    else (Held("", false, held.dropped), [Chomp(whole)])
  }

  lemma LineEnds(s: string, part: string, before: nat, maxBytes: nat, held: Held, next: string)
    requires '\n' !in part && held == After(s, before, maxBytes) && next == s + part + "\n"
    ensures var (left, lines) := Ended(held, part, maxBytes);
      After(next, before, maxBytes) == left && Kept(Segments(next), maxBytes) == Kept(Segments(s), maxBytes) + lines
  {
    FinishLine(s, part, maxBytes);
    var kept := Kept(Segments(s), maxBytes);
    if held.skipping {
      assert |Tail(s) + part| > maxBytes && kept + [] == kept;
    } else {
      assert held.buf + part == Tail(s) + part && kept + [] == kept;
    }
  }

  // What was handed out stays handed out: the lines of a longer stream start with those of the shorter.
  lemma {:induction false} LinesOnlyGrow(s: string, more: string, maxBytes: nat)
    ensures Kept(Segments(s), maxBytes) <= Kept(Segments(s + more), maxBytes)
  {
    if more == "" {
      assert s + more == s;
    } else {
      LinesOnlyGrow(s, Init(more), maxBytes);
      assert Init(s + more) == s + Init(more);
      if Last(more) == '\n' {
        assert Init(Segments(s + more)) == Segments(s + Init(more));
      }
    }
  }

  // ---- printed lines read back --------------------------------------------------------------------------

  // Lines as a sender writes them, each ended by CR LF, or by LF alone.
  function Printed(lines: seq<string>, cr: bool): string {
    if lines == [] then "" else Printed(Init(lines), cr) + Last(lines) + (if cr then "\r\n" else "\n")
  }

  // The lines that fit, their CR counted, and how many do not.
  function Fitting(lines: seq<string>, cr: bool, maxBytes: nat): seq<string> {
    if lines == [] then []
    else
      var size := |Last(lines)| + if cr then 1 else 0;
      Fitting(Init(lines), cr, maxBytes) + if size <= maxBytes then [Last(lines)] else []
  }

  // Whatever lines a sender prints, exactly those that fit are handed out, as they were and in order; the others
  // are counted; and nothing is left over.
  lemma {:induction false} PrintedLinesReadBack(lines: seq<string>, cr: bool, maxBytes: nat)
    requires forall k :: 0 <= k < |lines| ==> '\n' !in lines[k]
    requires forall k :: 0 <= k < |lines| && !cr && lines[k] != "" ==> Last(lines[k]) != '\r'
    ensures var s := Segments(Printed(lines, cr));
      && Kept(s, maxBytes) == Fitting(lines, cr, maxBytes)
      && Overlong(s, maxBytes) == |lines| - |Fitting(lines, cr, maxBytes)|
      && Tail(Printed(lines, cr)) == ""
  {
    if lines != [] {
      var init, line := Init(lines), Last(lines);
      var before := Printed(init, cr);
      PrintedLinesReadBack(init, cr, maxBytes);
      var part := OneMoreLine(before, line, cr);
      assert '\n' !in line && (!cr && line != "" ==> Last(line) != '\r');
      FinishLine(before, part, maxBytes);
      assert Tail(before) + part == part;
    }
  }

  // A line and its end, as the splitter sees them: what comes before the newline, and what is left of it.
  lemma OneMoreLine(before: string, line: string, cr: bool) returns (part: string)
    ensures part == if cr then line + "\r" else line
    ensures before + part + "\n" == before + line + if cr then "\r\n" else "\n"
    ensures |part| == |line| + (if cr then 1 else 0) && ('\n' !in line ==> '\n' !in part)
    ensures (cr || line == "" || Last(line) != '\r') ==> Chomp(part) == line
  {
    part := if cr then line + "\r" else line;
    if cr {
      assert (before + line) + "\r\n" == before + (line + "\r") + "\n";
      assert Last(part) == '\r' && Init(part) == line;
    }
  }

  // What is held is the unfinished line, while it fits; one that does not is dropped and counted as soon as that
  // shows, and what else has been counted are the over-long lines that ended.
  lemma HoldsTheUnfinishedLine(stream: string, before: nat, maxBytes: nat)
    ensures var held := After(stream, before, maxBytes);
      && |held.buf| <= maxBytes && (held.skipping <==> |Tail(stream)| > maxBytes)
      && (!held.skipping ==> held.buf == Tail(stream))
      && held.dropped ==
          before + |Segments(stream)| - |Kept(Segments(stream), maxBytes)| + if held.skipping then 1 else 0
  {
    KeptOrOverlong(Segments(stream), maxBytes);
  }

  lemma {:induction false} KeptOrOverlong(segments: seq<string>, maxBytes: nat)
    ensures |Kept(segments, maxBytes)| + Overlong(segments, maxBytes) == |segments|
  {
    if segments != [] { KeptOrOverlong(Init(segments), maxBytes); }
  }

  // ---- the class ----------------------------------------------------------------------------------------

  const LINE_MAX_BYTES: nat := 4096

  // The index of the first newline, or the length when there is none.
  function IndexOf(s: string): (i: nat)
    ensures i <= |s| && (i < |s| ==> s[i] == '\n') && forall j :: 0 <= j < i ==> s[j] != '\n'
  {
    if s == "" || s[0] == '\n' then 0 else 1 + IndexOf(s[1..])
  }

  lemma CutAt(rest: string, i: nat)
    requires i < |rest|
    ensures rest == rest[..i] + ([rest[i]] + rest[i + 1..])
  {
  }

  lemma Regroup(stream: string, rest: string, i: nat)
    requires i == IndexOf(rest) < |rest|
    ensures stream + rest == (stream + rest[..i] + "\n") + rest[i + 1..] && '\n' !in rest[..i]
  {
    CutAt(rest, i);
    var nl := [rest[i]];
    Associates(stream, rest[..i], nl + rest[i + 1..]);
    Associates(stream + rest[..i], nl, rest[i + 1..]);
    assert nl == "\n";
  }

  // State and lines are functions of the stream alone, so however it is cut into chunks they are the same.
  class LineBuffer {
    const maxBytes: nat
    var buf: string
    var skipping: bool
    var dropped: nat
    // The bytes of the current connection, the lines given out for it, and the drops before it.
    ghost var stream: string
    ghost var given: seq<string>
    ghost var before: nat

    ghost predicate Valid()
      reads this
    {
      && Held(buf, skipping, dropped) == After(stream, before, maxBytes)
      && given == Kept(Segments(stream), maxBytes)
    }

    constructor (maxBytes: nat := LINE_MAX_BYTES)
      ensures Valid() && stream == "" && before == 0 && this.maxBytes == maxBytes
    {
      this.maxBytes := maxBytes;
      buf, skipping, dropped := "", false, 0;
      stream, given, before := "", [], 0;
    }

    method Push(chunk: string) returns (out: seq<string>)
      requires Valid()
      modifies this
      ensures Valid() && stream == old(stream) + chunk && before == old(before)
      ensures given == old(given) + out && |buf| <= maxBytes
    {
      out := [];
      var rest := chunk;
      var i := IndexOf(rest);
      assert given + out == old(given);
      while i < |rest|
        invariant Valid() && stream + rest == old(stream) + chunk && i == IndexOf(rest)
        invariant before == old(before) && given == old(given) + out
        decreases |rest|
      {
        Regroup(stream, rest, i);
        var line := EndLine(rest[..i]);
        rest := rest[i + 1..];
        i := IndexOf(rest);
        assert old(given) + out + line == old(given) + (out + line);
        out := out + line;
      }
      Hold(rest);
    }

    // The start of a line whose newline has not come.
    method Hold(rest: string)
      requires Valid() && '\n' !in rest
      modifies this
      ensures Valid() && stream == old(stream) + rest && before == old(before)
          && given == old(given) && |buf| <= maxBytes
    {
      AppendPart(stream, rest);
      stream := stream + rest;
      if skipping { return; }
      buf := buf + rest;
      if |buf| > maxBytes {
        buf := "";
        skipping := true;
        dropped := dropped + 1;
      }
    }

    // A newline after `part`: the line it ends, unless that line was over-long.
    method EndLine(part: string) returns (line: seq<string>)
      requires Valid() && '\n' !in part
      modifies this
      ensures Valid() && stream == old(stream) + part + "\n" && before == old(before) && given == old(given) + line
    {
      ghost var next, lines := stream + part + "\n", given;
      LineEnds(stream, part, before, maxBytes, Held(buf, skipping, dropped), next);
      line := TakeLine(part);
      stream, given := next, lines + line;
    }

    // What the line that ends with `part` comes to.
    method TakeLine(part: string) returns (line: seq<string>)
      modifies `buf, `skipping, `dropped
      ensures (Held(buf, skipping, dropped), line) == Ended(old(Held(buf, skipping, dropped)), part, maxBytes)
    {
      var whole := buf + part;
      buf := "";
      if skipping {
        skipping := false;
        return [];
      }
      if |whole| > maxBytes {
        dropped := dropped + 1;
        return [];
      }
      return [Chomp(whole)];
    }

    // A new connection never continues the old one's line.
    method Reset()
      requires Valid()
      modifies this
      ensures Valid() && stream == "" && given == [] && dropped == old(dropped) == before
    {
      buf, skipping := "", false;
      stream, given, before := "", [], dropped;
    }
  }
}
