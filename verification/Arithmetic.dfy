// Quotient and remainder by a constant, defined by repeated subtraction: proofs about byte strings then
// need only linear arithmetic.

module Arithmetic {

  function Quotient(n: nat, d: nat): (q: nat)
    requires d >= 1
    ensures q <= n && (d > 1 && n > 0 ==> q < n)
  {
    if n < d then 0 else 1 + Quotient(n - d, d)
  }

  function Remainder(n: nat, d: nat): (r: nat)
    requires d >= 1
    ensures r < d
  {
    if n < d then n else Remainder(n - d, d)
  }

  lemma {:induction false} DivMod(n: nat, d: nat)
    requires d >= 1
    ensures n == Quotient(n, d) * d + Remainder(n, d)
  {
    if n >= d { DivMod(n - d, d); }
  }

  lemma Digits(q: nat, r: nat, d: nat)
    requires r < d
    ensures Quotient(q * d + r, d) == q && Remainder(q * d + r, d) == r
  {
    var n := q * d + r;
    DivMod(n, d);
    Unique(n, d, Quotient(n, d), Remainder(n, d), q, r);
  }

  // They are the operators of the source.
  lemma AreDivision(n: nat, d: nat)
    requires d >= 1
    ensures Quotient(n, d) == n / d && Remainder(n, d) == n % d
  {
    DivMod(n, d);
    Unique(n, d, Quotient(n, d), Remainder(n, d), n / d, n % d);
  }

  lemma Grows(k: int, d: nat)
    requires k >= 1
    ensures k * d >= d
  {
  }

  lemma Unique(n: int, d: nat, q: int, r: int, p: int, s: int)
    requires d >= 1 && n == q * d + r && n == p * d + s && 0 <= r < d && 0 <= s < d
    ensures q == p && r == s
  {
    assert (q - p) * d == s - r;
    if q > p { Grows(q - p, d); }
    if q < p { Grows(p - q, d); }
  }
}
