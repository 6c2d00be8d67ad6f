module Common {

  datatype Option<+T> = None | Some(value: T)

  type Byte = b: int | 0 <= b < 256

  type Bytes = seq<Byte>

  lemma EmptyIffNoMember<T(!new)>(s: seq<T>)
    ensures s == [] <==> forall x :: x !in s
  {
    if s != [] { assert s[0] in s; }
  }

  function PowerOfTwo(n: nat): int { if n == 0 then 1 else 2 * PowerOfTwo(n - 1) }

  lemma {:induction false} PowerGrows(m: nat, n: nat)
    requires m <= n
    ensures 1 <= PowerOfTwo(m) <= PowerOfTwo(n)
    decreases n
  {
    if m < n { PowerGrows(m, n - 1); } else if 0 < m { PowerGrows(m - 1, n - 1); }
  }

  // A 16-bit number from its two bytes.
  function Word(hi: Byte, lo: Byte): nat { 256 * (hi as int) + lo as int }

  // A stream from the chunks it was cut into.
  function Concat<T>(chunks: seq<seq<T>>): seq<T> {
    if chunks == [] then [] else chunks[0] + Concat(chunks[1..])
  }

  lemma Associates<T>(a: seq<T>, b: seq<T>, c: seq<T>)
    ensures a + (b + c) == (a + b) + c
  {
  }

  // The numbers below n, in order.
  function UpTo(n: nat): (r: seq<nat>)
    ensures |r| == n && forall i :: 0 <= i < n ==> r[i] == i
  {
    seq(n, i => i)
  }

  lemma UpToNext(n: nat)
    ensures UpTo(n + 1) == UpTo(n) + [n]
  {
  }

  lemma {:induction false} UpToOnce(n: nat, k: nat)
    requires k < n
    ensures multiset(UpTo(n))[k] == 1
  {
    UpToNext(n - 1);
    if k < n - 1 { UpToOnce(n - 1, k); } else { assert k !in UpTo(n - 1); }
  }

  // ---- text, ASCII only --------------------------------------------------------------------------------

  function UpperChar(c: char): char { if 'a' <= c <= 'z' then c - 'a' + 'A' else c }

  function Upper(s: string): (r: string)
    ensures |r| == |s| && forall i :: 0 <= i < |s| ==> r[i] == UpperChar(s[i])
  {
    seq(|s|, i requires 0 <= i < |s| => UpperChar(s[i]))
  }

  predicate Blank(c: char) { c == ' ' || c == '\t' || c == '\r' || c == '\n' }

  function Trim(s: string): string
    decreases |s|
  {
    if s == "" then ""
    else if Blank(s[0]) then Trim(s[1..])
    else if Blank(s[|s| - 1]) then Trim(s[..|s| - 1])
    else s
  }
}
