// The JSON object splitter of the live location source (JsonObjectSplitter in apps/ingest/src/gps.ts):
// it counts braces outside strings and hands each complete object's text to the JSON parser.

module JsonObjects {
  import opened Common

  const MAX_TEXT: nat := 16384

  datatype Scan = Scan(buf: string, depth: nat, inStr: bool, esc: bool)

  const IDLE := Scan("", 0, false, false)

  // ---- one character at a time --------------------------------------------------------------------

  // Past the limit the text is dropped. `esc` is left as it is.
  function Bounded(s: Scan): Scan {
    if |s.buf| > MAX_TEXT then Scan("", 0, false, s.esc) else s
  }

  // The next state, and the text handed to the parser when an object ends here.
  function Step(s: Scan, ch: char): (Scan, Option<string>) {
    if s.depth == 0 && ch != '{' then (s, None)
    else
      var t := s.(buf := s.buf + [ch]);
      if s.inStr then
        if s.esc then (Bounded(t.(esc := false)), None)
        else if ch == '\\' then (Bounded(t.(esc := true)), None)
        else if ch == '"' then (Bounded(t.(inStr := false)), None)
        else (Bounded(t), None)
      else if ch == '"' then (Bounded(t.(inStr := true)), None)
      else if ch == '{' then (Bounded(t.(depth := s.depth + 1)), None)
      else if ch == '}' then
        if s.depth == 1 then (t.(buf := "", depth := 0), Some(t.buf)) else (Bounded(t.(depth := s.depth - 1)), None)
      else (Bounded(t), None)
  }

  datatype Fed = Fed(scan: Scan, texts: seq<string>)

  function Then(r: (Scan, Option<string>), rest: string): Fed
    decreases |rest|, 2
  {
    var f := Feed(r.0, rest);
    if r.1.Some? then f.(texts := [r.1.value] + f.texts) else f
  }

  function Feed(s: Scan, chunk: string): Fed
    decreases |chunk|, 1
  {
    if chunk == "" then Fed(s, []) else Then(Step(s, chunk[0]), chunk[1..])
  }

  // Cutting the input into chunks changes nothing.
  lemma {:induction false} FeedAppend(s: Scan, a: string, b: string)
    ensures var f := Feed(s, a); var g := Feed(f.scan, b);
      Feed(s, a + b) == Fed(g.scan, f.texts + g.texts)
    decreases |a|
  {
    if a == "" {
      assert a + b == b;
      assert [] + Feed(s, b).texts == Feed(s, b).texts;
    } else {
      assert (a + b)[0] == a[0] && (a + b)[1..] == a[1..] + b;
      var r := Step(s, a[0]);
      FeedAppend(r.0, a[1..], b);
      if r.1.Some? {
        var f := Feed(r.0, a[1..]);
        assert [r.1.value] + (f.texts + Feed(f.scan, b).texts) == ([r.1.value] + f.texts) + Feed(f.scan, b).texts;
      }
    }
  }

  // The buffer never holds more than the limit, whatever comes in.
  lemma {:induction false} BufferBounded(s: Scan, chunk: string)
    requires |s.buf| <= 16384
    ensures |Feed(s, chunk).scan.buf| <= 16384
    decreases |chunk|
  {
    if chunk != "" { BufferBounded(Step(s, chunk[0]).0, chunk[1..]); }
  }

  // ---- object texts -----------------------------------------------------------------------------------

  // A character of a string literal: as it is, or behind a backslash.
  datatype StrChar = Raw(c: char) | Escaped(c: char)

  // What stands between an object's braces: numbers, commas, white space and array brackets are plain
  // characters; strings and nested objects are their own pieces.
  datatype Piece = Plain(c: char) | Str(body: seq<StrChar>) | Obj(items: seq<Piece>)

  predicate RawOk(c: char) { c != '"' && c != '\\' }

  predicate WellFormed(p: Piece) {
    match p
    case Plain(c) => c !in {'"', '{', '}'}
    case Str(body) => forall k :: 0 <= k < |body| && body[k].Raw? ==> RawOk(body[k].c)
    case Obj(items) => forall k :: 0 <= k < |items| ==> WellFormed(items[k])
  }

  function CharText(c: StrChar): string { if c.Raw? then [c.c] else ['\\', c.c] }

  function BodyText(body: seq<StrChar>): string {
    if body == [] then "" else CharText(body[0]) + BodyText(body[1..])
  }

  function Text(p: Piece): string
    decreases p, 0
  {
    match p
    case Plain(c) => [c]
    case Str(body) => "\"" + BodyText(body) + "\""
    case Obj(items) => "{" + Texts(items) + "}"
  }

  function Texts(items: seq<Piece>): string
    decreases items, 1
  {
    if items == [] then "" else Text(items[0]) + Texts(items[1..])
  }

  // ---- feeding an object ------------------------------------------------------------------------------

  // `s` with `text` behind what it holds, and nothing handed out: room for it is all a text needs.
  ghost predicate Absorbs(s: Scan, text: string) {
    Feed(s, text) == Fed(s.(buf := s.buf + text), [])
  }

  lemma FeedOne(s: Scan, c: char)
    ensures Feed(s, [c]) == Fed(Step(s, c).0, if Step(s, c).1.Some? then [Step(s, c).1.value] else [])
  {
    var r := Step(s, c);
    assert [c][1..] == "";
    assert Feed(r.0, "") == Fed(r.0, []);
    if r.1.Some? { assert [r.1.value] + [] == [r.1.value]; }
  }

  // One text after another, from state to state, with nothing handed out.
  lemma FeedTwo(s: Scan, a: string, b: string, mid: Scan, end: Scan)
    requires Feed(s, a) == Fed(mid, []) && Feed(mid, b) == Fed(end, [])
    ensures Feed(s, a + b) == Fed(end, [])
  {
    FeedAppend(s, a, b);
    assert [] + Feed(mid, b).texts == Feed(mid, b).texts;
  }

  lemma Held(s: Scan, a: string, b: string)
    ensures s.(buf := s.buf + (a + b)) == s.(buf := s.buf + a).(buf := s.buf + a + b)
  {
    assert s.buf + (a + b) == s.buf + a + b;
  }

  lemma CharAbsorbed(s: Scan, c: StrChar)
    requires s.depth > 0 && s.inStr && !s.esc && |s.buf| + |CharText(c)| <= 16384 && (c.Raw? ==> RawOk(c.c))
    ensures Absorbs(s, CharText(c))
  {
    if c.Raw? {
      FeedOne(s, c.c);
    } else {
      var t := s.(buf := s.buf + "\\", esc := true);
      FeedOne(s, '\\');
      FeedOne(t, c.c);
      assert CharText(c) == "\\" + [c.c];
      FeedTwo(s, "\\", [c.c], t, s.(buf := s.buf + "\\" + [c.c]));
      Held(s, "\\", [c.c]);
    }
  }

  lemma {:induction false} BodyAbsorbed(s: Scan, body: seq<StrChar>)
    requires s.depth > 0 && s.inStr && !s.esc && |s.buf| + |BodyText(body)| <= 16384
    requires forall k :: 0 <= k < |body| && body[k].Raw? ==> RawOk(body[k].c)
    ensures Absorbs(s, BodyText(body))
    decreases |body|
  {
    if body == [] {
      assert s.buf + "" == s.buf;
    } else {
      var a, b := CharText(body[0]), BodyText(body[1..]);
      var mid := s.(buf := s.buf + a);
      CharAbsorbed(s, body[0]);
      BodyAbsorbed(mid, body[1..]);
      Held(s, a, b);
      FeedTwo(s, a, b, mid, mid.(buf := mid.buf + b));
    }
  }

  lemma StrAbsorbed(s: Scan, body: seq<StrChar>)
    requires s.depth > 0 && !s.inStr && !s.esc && |s.buf| + |BodyText(body)| + 2 <= 16384
    requires forall k :: 0 <= k < |body| && body[k].Raw? ==> RawOk(body[k].c)
    ensures Absorbs(s, "\"" + BodyText(body) + "\"")
  {
    var inside := s.(buf := s.buf + "\"", inStr := true);
    var b := BodyText(body);
    FeedOne(s, '"');
    BodyAbsorbed(inside, body);
    var after := inside.(buf := inside.buf + b);
    FeedTwo(s, "\"", b, inside, after);
    FeedOne(after, '"');
    FeedTwo(s, "\"" + b, "\"", after, s.(buf := after.buf + "\""));
    assert s.buf + ("\"" + b + "\"") == s.buf + "\"" + b + "\"";
  }

  // A well-formed piece inside an object is absorbed, brackets, strings, escapes and all.
  lemma {:induction false} PieceAbsorbed(s: Scan, p: Piece)
    requires s.depth > 0 && !s.inStr && !s.esc && WellFormed(p) && |s.buf| + |Text(p)| <= 16384
    ensures Absorbs(s, Text(p))
    decreases p, 0
  {
    match p
    case Plain(c) => FeedOne(s, c);
    case Str(body) => StrAbsorbed(s, body);
    case Obj(items) =>
      var inside := s.(buf := s.buf + "{", depth := s.depth + 1);
      var b := Texts(items);
      FeedOne(s, '{');
      PiecesAbsorbed(inside, items);
      var after := inside.(buf := inside.buf + b);
      FeedTwo(s, "{", b, inside, after);
      FeedOne(after, '}');
      FeedTwo(s, "{" + b, "}", after, s.(buf := after.buf + "}"));
      assert s.buf + ("{" + b + "}") == s.buf + "{" + b + "}";
  }

  lemma {:induction false} PiecesAbsorbed(s: Scan, items: seq<Piece>)
    requires s.depth > 0 && !s.inStr && !s.esc && |s.buf| + |Texts(items)| <= 16384
    requires forall k :: 0 <= k < |items| ==> WellFormed(items[k])
    ensures Absorbs(s, Texts(items))
    decreases items, 1
  {
    if items == [] {
      assert s.buf + "" == s.buf;
    } else {
      var a, b := Text(items[0]), Texts(items[1..]);
      var mid := s.(buf := s.buf + a);
      PieceAbsorbed(s, items[0]);
      PiecesAbsorbed(mid, items[1..]);
      Held(s, a, b);
      FeedTwo(s, a, b, mid, mid.(buf := mid.buf + b));
    }
  }

  // A whole object text that fits is handed out exactly, and leaves the splitter idle.
  lemma ObjectHandedOut(items: seq<Piece>)
    requires WellFormed(Obj(items)) && |Text(Obj(items))| <= 16384
    ensures Feed(IDLE, Text(Obj(items))) == Fed(IDLE, [Text(Obj(items))])
  {
    var b := Texts(items);
    var open := Scan("{", 1, false, false);
    assert "" + "{" == "{";
    FeedOne(IDLE, '{');
    PiecesAbsorbed(open, items);
    var full := open.(buf := "{" + b);
    FeedTwo(IDLE, "{", b, open, full);
    FeedOne(full, '}');
    FeedAppend(IDLE, "{" + b, "}");
    assert [] + [full.buf + "}"] == [full.buf + "}"];
  }

  // ---- a stream of objects ----------------------------------------------------------------------------

  lemma {:induction false} NoiseSkipped(s: Scan, noise: string)
    requires s.depth == 0 && '{' !in noise
    ensures Feed(s, noise) == Fed(s, [])
    decreases |noise|
  {
    if noise != "" {
      assert noise[0] in noise;
      NoiseSkipped(s, noise[1..]);
    }
  }

  // Objects, each behind some noise without an opening brace.
  datatype Item = Item(noise: string, items: seq<Piece>) {
    function ObjText(): string { Text(Obj(items)) }
    predicate Ok() { '{' !in noise && WellFormed(Obj(items)) && |ObjText()| <= 16384 }
  }

  function StreamText(stream: seq<Item>): string {
    if stream == [] then "" else stream[0].noise + stream[0].ObjText() + StreamText(stream[1..])
  }

  function ObjTexts(stream: seq<Item>): seq<string> {
    if stream == [] then [] else [stream[0].ObjText()] + ObjTexts(stream[1..])
  }

  lemma {:induction false} StreamHandedOut(stream: seq<Item>)
    requires forall k :: 0 <= k < |stream| ==> stream[k].Ok()
    ensures Feed(IDLE, StreamText(stream)) == Fed(IDLE, ObjTexts(stream))
    decreases |stream|
  {
    if stream != [] {
      var noise, text, rest := stream[0].noise, stream[0].ObjText(), StreamText(stream[1..]);
      assert stream[0].Ok();
      NoiseSkipped(IDLE, noise);
      ObjectHandedOut(stream[0].items);
      StreamHandedOut(stream[1..]);
      FeedAppend(IDLE, noise, text);
      assert [] + [text] == [text];
      FeedAppend(IDLE, noise + text, rest);
    }
  }

  function FeedAll(s: Scan, chunks: seq<string>): Fed
    decreases |chunks|
  {
    if chunks == [] then Fed(s, [])
    else var f := Feed(s, chunks[0]); var g := FeedAll(f.scan, chunks[1..]); Fed(g.scan, f.texts + g.texts)
  }

  lemma {:induction false} FeedAllIsFeed(s: Scan, chunks: seq<string>)
    ensures FeedAll(s, chunks) == Feed(s, Concat(chunks))
    decreases |chunks|
  {
    if chunks != [] {
      FeedAllIsFeed(Feed(s, chunks[0]).scan, chunks[1..]);
      FeedAppend(s, chunks[0], Concat(chunks[1..]));
    }
  }

  // Any stream of object texts, cut anywhere, is handed to the parser as exactly those texts, in order.
  lemma ObjectsSurviveChunking(stream: seq<Item>, chunks: seq<string>)
    requires forall k :: 0 <= k < |stream| ==> stream[k].Ok()
    requires Concat(chunks) == StreamText(stream)
    ensures FeedAll(IDLE, chunks) == Fed(IDLE, ObjTexts(stream))
  {
    FeedAllIsFeed(IDLE, chunks);
    StreamHandedOut(stream);
  }

  // ---- overflow -----------------------------------------------------------------------------------------

  // An overflow restarts the splitter clean exactly when it leaves no escape open: inside a string, unless its
  // character is a backslash that opens one; outside, unless one was left over from an earlier overflow.
  lemma OverflowIsCleanIff(s: Scan, ch: char)
    requires s.depth > 0 && |s.buf| == 16384 && !(ch == '}' && s.depth == 1 && !s.inStr)
    ensures Step(s, ch).0 == IDLE <==> if s.inStr then s.esc || ch != '\\' else !s.esc
  {
  }

  // Characters that are no bracket, quote or backslash.
  predicate PlainText(text: string) {
    forall k :: 0 <= k < |text| ==> text[k] != '{' && text[k] != '}' && text[k] != '"' && text[k] != '\\'
  }

  // Outside a string, whatever `esc` is, and inside one that is not in an escape, they are just held.
  lemma {:induction false} PlainHeld(s: Scan, text: string)
    requires s.depth > 0 && (s.inStr ==> !s.esc) && PlainText(text) && |s.buf| + |text| <= 16384
    ensures Absorbs(s, text)
    decreases |text|
  {
    if text == "" {
      assert s.buf + "" == s.buf;
    } else {
      var a, b := [text[0]], text[1..];
      var mid := s.(buf := s.buf + a);
      FeedOne(s, text[0]);
      PlainHeld(mid, b);
      Held(s, a, b);
      assert text == a + b;
      FeedTwo(s, a, b, mid, mid.(buf := mid.buf + b));
    }
  }

  const STUCK := Scan("", 0, false, true)

  // A fresh splitter gets there: an open string filled to the limit, then a backslash.
  lemma OverflowLeavesEscape(fill: string)
    requires PlainText(fill) && |fill| == 16384 - 2
    ensures Feed(IDLE, "{\"" + fill + "\\") == Fed(STUCK, [])
  {
    var s1, s2 := Scan("{", 1, false, false), Scan("{\"", 1, true, false);
    var s3 := s2.(buf := s2.buf + fill);
    assert "" + "{" == "{" && "{" + "\"" == "{\"";
    FeedOne(IDLE, '{');
    FeedOne(s1, '"');
    FeedTwo(IDLE, "{", "\"", s1, s2);
    PlainHeld(s2, fill);
    FeedTwo(IDLE, "{\"", fill, s2, s3);
    FeedOne(s3, '\\');
    FeedTwo(IDLE, "{\"" + fill, "\\", s3, STUCK);
  }

  // And it stays there over the next overflow, on a plain character outside any string.
  lemma PlainOverflowStaysStuck(fill: string, ch: char)
    requires PlainText(fill) && |fill| == 16384 - 1 && PlainText([ch])
    ensures Feed(STUCK, "{" + fill + [ch]) == Fed(STUCK, [])
  {
    var s1 := Scan("{", 1, false, true);
    var s2 := s1.(buf := s1.buf + fill);
    assert "" + "{" == "{" && [ch][0] == ch;
    FeedOne(STUCK, '{');
    PlainHeld(s1, fill);
    FeedTwo(STUCK, "{", fill, s1, s2);
    FeedOne(s2, ch);
    FeedTwo(STUCK, "{" + fill, [ch], s2, STUCK);
  }

  // With that `esc` left over, the object {""} is held and not handed out.
  lemma StuckLosesObject()
    ensures Feed(STUCK, "{\"\"}") == Fed(Scan("{\"\"}", 1, true, false), [])
  {
    var s := STUCK;
    var s1, s2 := Step(s, '{').0, Scan("{\"", 1, true, true);
    var s3, s4 := Scan("{\"\"", 1, true, false), Scan("{\"\"}", 1, true, false);
    assert "" + "{" == "{" && "{" + "\"" == "{\"" && "{\"" + "\"" == "{\"\"" && "{\"\"" + "}" == "{\"\"}";
    FeedOne(s, '{');
    FeedOne(s1, '"');
    FeedTwo(s, "{", "\"", s1, s2);
    FeedOne(s2, '"');
    FeedTwo(s, "{\"", "\"", s2, s3);
    FeedOne(s3, '}');
    FeedTwo(s, "{\"\"", "}", s3, s4);
  }

  // From a fresh splitter, end to end: an over-long string cut at a backslash costs the whole object after it,
  // although the overflow dropped all that was held.
  lemma LeftoverEscapeLosesObject(fill: string)
    requires fill == seq(16384 - 2, _ => 'x')
    ensures Feed(IDLE, "{\"" + fill + "\\" + "{\"\"}").texts == [] && Feed(IDLE, "{\"\"}").texts == ["{\"\"}"]
  {
    OverflowLeavesEscape(fill);
    StuckLosesObject();
    FeedTwo(IDLE, "{\"" + fill + "\\", "{\"\"}", STUCK, Scan("{\"\"}", 1, true, false));
    var o := Obj([Str([])]);
    assert Texts([Str([])][1..]) == "" && Text(Str([])) == "\"" + "" + "\"";
    assert Texts([Str([])]) == Text(Str([])) + "" == "\"\"";
    assert Text(o) == "{" + "\"\"" + "}" == "{\"\"}";
    ObjectHandedOut([Str([])]);
  }

  // ---- the class ------------------------------------------------------------------------------------------

  class JsonObjectSplitter {
    var buf: string
    var depth: nat
    var inStr: bool
    var esc: bool

    ghost function Abs(): Scan
      reads this
    {
      Scan(buf, depth, inStr, esc)
    }

    constructor ()
      ensures Abs() == IDLE
    {
      buf, depth, inStr, esc := "", 0, false, false;
    }

    // One turn of the loop over the characters.
    method PushChar(ch: char) returns (text: Option<string>)
      modifies this
      ensures (Abs(), text) == Step(old(Abs()), ch)
    {
      text := None;
      if depth == 0 && ch != '{' { return; }
      buf := buf + [ch];
      if inStr {
        if esc { esc := false; }
        else if ch == '\\' { esc := true; }
        else if ch == '"' { inStr := false; }
      } else if ch == '"' {
        inStr := true;
      } else if ch == '{' {
        depth := depth + 1;
      } else if ch == '}' {
        depth := depth - 1;
        if depth == 0 {
          text := Some(buf);
          buf := "";
        }
      }
      if |buf| > MAX_TEXT {
        buf, depth, inStr := "", 0, false;
      }
    }

    // The texts handed to the JSON parser.
    method Push(chunk: string) returns (out: seq<string>)
      modifies this
      ensures Fed(Abs(), out) == Feed(old(Abs()), chunk)
    {
      out := [];
      for i := 0 to |chunk|
        invariant var f := Feed(Abs(), chunk[i..]); Feed(old(Abs()), chunk) == Fed(f.scan, out + f.texts)
      {
        ghost var before := Abs();
        var text := PushChar(chunk[i]);
        Unfold(before, chunk, i);
        if text.Some? {
          ghost var f := Feed(Abs(), chunk[i + 1..]);
          assert out + ([text.value] + f.texts) == (out + [text.value]) + f.texts;
          out := out + [text.value];
        }
      }
      assert chunk[|chunk|..] == "" && out + [] == out;
    }
  }

  lemma Unfold(s: Scan, chunk: string, i: nat)
    requires i < |chunk|
    ensures Feed(s, chunk[i..]) == Then(Step(s, chunk[i]), chunk[i + 1..])
  {
    assert chunk[i..][0] == chunk[i] && chunk[i..][1..] == chunk[i + 1..];
  }
}
