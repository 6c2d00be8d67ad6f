// The token bucket that paces unattended transmits (apps/ingest/src/txlimit.ts); the KISS bridge's
// watchdog is the same bucket with its rate given per second.
//
// Time is a real clock the caller supplies; every statement is for clocks that never go back.

module Buckets {

  datatype Bucket = Bucket(tokens: real, at: real)

  // `rate` tokens per unit of time, at most `burst` of them.
  datatype Limits = Limits(burst: real, rate: real) {
    ghost predicate Valid() { burst >= 0.0 && rate >= 0.0 }
  }

  function Min(a: real, b: real): real { if a < b then a else b }

  function Gain(rate: real, from: real, to: real): real { (to - from) * rate }

  function Refilled(b: Bucket, l: Limits, now: real): Bucket {
    Bucket(Min(l.burst, b.tokens + Gain(l.rate, b.at, now)), now)
  }

  function CanTake(b: Bucket, l: Limits, now: real): bool {
    Refilled(b, l, now).tokens >= 1.0
  }

  function Taken(b: Bucket, l: Limits, now: real): Bucket {
    var r := Refilled(b, l, now);
    if r.tokens < 1.0 then r else r.(tokens := r.tokens - 1.0)
  }

  // A take, or a look at the bucket that spends nothing.
  datatype Op = Take(at: real) | Look(at: real)

  function After(b: Bucket, l: Limits, op: Op): Bucket {
    if op.Take? then Taken(b, l, op.at) else Refilled(b, l, op.at)
  }

  // Whether an operation is a take that is granted.
  predicate Grants(b: Bucket, l: Limits, op: Op) {
    op.Take? && CanTake(b, l, op.at)
  }

  function Run(b: Bucket, l: Limits, ops: seq<Op>): Bucket
    decreases |ops|
  {
    if ops == [] then b else Run(After(b, l, ops[0]), l, ops[1..])
  }

  function Granted(b: Bucket, l: Limits, ops: seq<Op>): nat
    decreases |ops|
  {
    if ops == [] then 0
    else (if Grants(b, l, ops[0]) then 1 else 0) + Granted(After(b, l, ops[0]), l, ops[1..])
  }

  // What each operation would be answered: whether a take is granted at that time.
  function Answers(b: Bucket, l: Limits, ops: seq<Op>): seq<bool>
    decreases |ops|
  {
    if ops == [] then [] else [CanTake(b, l, ops[0].at)] + Answers(After(b, l, ops[0]), l, ops[1..])
  }

  ghost predicate InOrder(from: real, ops: seq<Op>) {
    && (forall i :: 0 <= i < |ops| ==> from <= ops[i].at)
    && (forall i, j :: 0 <= i < j < |ops| ==> ops[i].at <= ops[j].at)
  }

  ghost predicate WithinCap(b: Bucket, l: Limits) {
    0.0 <= b.tokens <= l.burst
  }

  // ---- refilling ---------------------------------------------------------------------------------

  lemma GainAdds(rate: real, a: real, b: real, c: real)
    requires rate >= 0.0 && a <= b <= c
    ensures Gain(rate, a, b) + Gain(rate, b, c) == Gain(rate, a, c)
    ensures Gain(rate, a, b) >= 0.0 && Gain(rate, b, c) >= 0.0
  {
    assert (b - a) * rate >= 0.0 && (c - b) * rate >= 0.0;
    assert (b - a) * rate + (c - b) * rate == (c - a) * rate;
  }

  // Looking at the bucket on the way changes nothing: refilling is additive under the cap.
  lemma RefillAdds(b: Bucket, l: Limits, t: real, now: real)
    requires l.Valid() && b.at <= t <= now
    ensures Refilled(Refilled(b, l, t), l, now) == Refilled(b, l, now)
  {
    GainAdds(l.rate, b.at, t, now);
  }

  // A look or a refused take, then anything: the later answers are what they would have been without it.
  lemma SilentOp(b: Bucket, l: Limits, op: Op, rest: seq<Op>)
    requires l.Valid() && b.at <= op.at && InOrder(op.at, rest) && !Grants(b, l, op)
    ensures Answers(After(b, l, op), l, rest) == Answers(b, l, rest)
    ensures Granted(After(b, l, op), l, rest) == Granted(b, l, rest)
  {
    if rest != [] { RefillAdds(b, l, op.at, rest[0].at); }
  }

  // ---- the rate law --------------------------------------------------------------------------------

  lemma OneTake(b: Bucket, l: Limits, at: real)
    ensures Run(b, l, [Take(at)]) == Taken(b, l, at)
    ensures Granted(b, l, [Take(at)]) == if CanTake(b, l, at) then 1 else 0
  {
    assert [Take(at)][1..] == [];
  }

  lemma StepKeepsCap(b: Bucket, l: Limits, op: Op)
    requires l.Valid() && WithinCap(b, l) && b.at <= op.at
    ensures WithinCap(After(b, l, op), l) && After(b, l, op).at == op.at
  {
    GainAdds(l.rate, b.at, op.at, op.at);
  }

  // Every granted take is paid for by the tokens at the start or by the time since.
  lemma {:induction false} GrantsArePaid(b: Bucket, l: Limits, ops: seq<Op>)
    requires l.Valid() && WithinCap(b, l) && InOrder(b.at, ops)
    ensures WithinCap(Run(b, l, ops), l) && Run(b, l, ops).at == if ops == [] then b.at else ops[|ops| - 1].at
    ensures Granted(b, l, ops) as real + Run(b, l, ops).tokens <= b.tokens + Gain(l.rate, b.at, Run(b, l, ops).at)
    decreases |ops|
  {
    if ops == [] {
      assert Gain(l.rate, b.at, b.at) == 0.0;
    } else {
      var next := After(b, l, ops[0]);
      StepKeepsCap(b, l, ops[0]);
      GrantsArePaid(next, l, ops[1..]);
      GainAdds(l.rate, b.at, ops[0].at, Run(b, l, ops).at);
    }
  }

  lemma {:induction false} RunSplits(b: Bucket, l: Limits, a: seq<Op>, c: seq<Op>)
    ensures Run(b, l, a + c) == Run(Run(b, l, a), l, c)
    ensures Granted(b, l, a + c) == Granted(b, l, a) + Granted(Run(b, l, a), l, c)
    decreases |a|
  {
    if a == [] {
      assert a + c == c;
    } else {
      assert (a + c)[0] == a[0] && (a + c)[1..] == a[1..] + c;
      RunSplits(After(b, l, a[0]), l, a[1..], c);
    }
  }

  lemma StretchInOrder(from: real, before: seq<Op>, window: seq<Op>)
    requires InOrder(from, before + window) && window != []
    ensures InOrder(from, before) && InOrder(window[0].at, window) && from <= window[0].at
    ensures before != [] ==> before[|before| - 1].at <= window[0].at
  {
    var all := before + window;
    assert forall i :: 0 <= i < |before| ==> all[i] == before[i];
    assert forall i :: 0 <= i < |window| ==> all[|before| + i] == window[i];
  }

  // A stretch runs the same from the bucket refilled at its first operation.
  lemma RefilledRunsTheSame(b: Bucket, l: Limits, window: seq<Op>)
    requires l.Valid() && window != [] && b.at <= window[0].at
    ensures var r := Refilled(b, l, window[0].at);
      Run(r, l, window) == Run(b, l, window) && Granted(r, l, window) == Granted(b, l, window)
  {
    var r := Refilled(b, l, window[0].at);
    RefillAdds(b, l, window[0].at, window[0].at);
    assert After(b, l, window[0]) == After(r, l, window[0]);
    assert Grants(b, l, window[0]) == Grants(r, l, window[0]);
  }

  // In any stretch of a run, however long it went on before, at most `burst` takes plus one per refill
  // interval of the stretch's duration are granted.
  lemma RateLaw(b: Bucket, l: Limits, before: seq<Op>, window: seq<Op>)
    requires l.Valid() && WithinCap(b, l) && InOrder(b.at, before + window) && window != []
    ensures (Granted(b, l, before + window) - Granted(b, l, before)) as real
         <= l.burst + Gain(l.rate, window[0].at, window[|window| - 1].at)
  {
    StretchInOrder(b.at, before, window);
    GrantsArePaid(b, l, before);
    RunSplits(b, l, before, window);
    var mid := Run(b, l, before);
    // refilled at the stretch's first operation, the bucket still holds at most its burst
    StepKeepsCap(mid, l, Look(window[0].at));
    RefilledRunsTheSame(mid, l, window);
    GrantsArePaid(Refilled(mid, l, window[0].at), l, window);
  }

  ghost predicate Within(ops: seq<Op>, from: real, to: real) {
    InOrder(from, ops) && forall k :: 0 <= k < |ops| ==> ops[k].at <= to
  }

  // The same for a window of the clock: what happened by `from`, and what happens until `to`.
  lemma RateLawWithin(b: Bucket, l: Limits, before: seq<Op>, window: seq<Op>, from: real, to: real)
    requires l.Valid() && WithinCap(b, l) && b.at <= from <= to
    requires Within(before, b.at, from) && Within(window, from, to)
    ensures (Granted(b, l, before + window) - Granted(b, l, before)) as real <= l.burst + Gain(l.rate, from, to)
  {
    GainAdds(l.rate, from, from, to);
    if window == [] {
      assert before + window == before;
    } else {
      var first, last := window[0].at, window[|window| - 1].at;
      assert InOrder(b.at, before + window);
      RateLaw(b, l, before, window);
      GainAdds(l.rate, from, first, to);
      GainAdds(l.rate, first, last, to);
    }
  }

  // ---- nothing is withheld ---------------------------------------------------------------------------

  // No refill of the run runs into the cap.
  ghost predicate NeverFull(b: Bucket, l: Limits, ops: seq<Op>)
    decreases |ops|
  {
    ops == [] || (b.tokens + Gain(l.rate, b.at, ops[0].at) <= l.burst && NeverFull(After(b, l, ops[0]), l, ops[1..]))
  }

  // While the cap cuts nothing off, each grant costs exactly one token and nothing else is lost: what was granted
  // and what is left is what there was and what time has added.
  lemma {:induction false} GrantsAreExact(b: Bucket, l: Limits, ops: seq<Op>)
    requires l.Valid() && InOrder(b.at, ops) && NeverFull(b, l, ops)
    ensures Granted(b, l, ops) as real + Run(b, l, ops).tokens == b.tokens + Gain(l.rate, b.at, Run(b, l, ops).at)
    ensures Run(b, l, ops).at == if ops == [] then b.at else ops[|ops| - 1].at
    decreases |ops|
  {
    if ops == [] {
      assert Gain(l.rate, b.at, b.at) == 0.0;
    } else {
      var next := After(b, l, ops[0]);
      GrantsAreExact(next, l, ops[1..]);
      GainAdds(l.rate, b.at, ops[0].at, Run(b, l, ops).at);
    }
  }

  // So a take is granted exactly when what there was at the start and what time has added exceeds the grants so far
  // by a whole token.
  lemma GrantedIffEarned(b: Bucket, l: Limits, ops: seq<Op>, at: real, r: Bucket, granted: nat)
    requires l.Valid() && InOrder(b.at, ops) && NeverFull(b, l, ops)
    requires r == Run(b, l, ops) && granted == Granted(b, l, ops)
    requires r.at <= at && r.tokens + Gain(l.rate, r.at, at) <= l.burst
    ensures Grants(r, l, Take(at)) <==> b.tokens + Gain(l.rate, b.at, at) >= 1.0 + granted as real
  {
    GrantsAreExact(b, l, ops);
    GainAdds(l.rate, b.at, r.at, at);
  }
}
