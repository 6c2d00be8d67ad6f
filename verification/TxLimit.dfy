// The bucket as the ingest uses it (apps/ingest/src/txlimit.ts): one transmit refills in `refillSec` seconds, and
// waitSec says how long to wait for the next.

module TxLimit {
  import opened Buckets

  // Tokens per millisecond when one transmit refills in `refillSec` seconds.
  function LimitsOf(burst: real, refillSec: real): Limits
    requires refillSec > 0.0
  {
    Limits(burst, 1.0 / (refillSec * 1000.0))
  }

  function Ceil(x: real): int { -((-x).Floor) }

  function WaitSeconds(b: Bucket, burst: real, refillSec: real, now: real): int
    requires refillSec > 0.0
  {
    var tokens := Refilled(b, LimitsOf(burst, refillSec), now).tokens;
    if tokens >= 1.0 then 0 else Ceil((1.0 - tokens) * refillSec)
  }

  // k whole seconds of refill give k / refillSec tokens.
  lemma SecondsGain(refillSec: real, now: real, k: nat)
    requires refillSec > 0.0
    ensures Gain(1.0 / (refillSec * 1000.0), now, now + k as real * 1000.0) * refillSec == k as real
  {
    var rate := 1.0 / (refillSec * 1000.0);
    assert rate * (refillSec * 1000.0) == 1.0;
    assert (k as real * 1000.0) * rate * refillSec == k as real * (rate * (refillSec * 1000.0));
  }

  lemma ScaleOrder(a: real, b: real, s: real)
    requires s > 0.0
    ensures a <= b <==> a * s <= b * s
  {
    if a <= b { assert (b - a) * s >= 0.0; } else { assert (a - b) * s > 0.0; }
  }

  // Ceil rounds up to the least whole number that covers x.
  lemma CeilCovers(x: real, k: int)
    ensures k as real >= x <==> k >= Ceil(x)
  {
  }

  // After more time undisturbed, a take succeeds exactly when the gain makes up what a token lacks now.
  lemma GainCovers(b: Bucket, l: Limits, now: real, later: real)
    requires l.Valid() && l.burst >= 1.0 && b.at <= now <= later
    ensures CanTake(b, l, later) <==> 1.0 - Refilled(b, l, now).tokens <= Gain(l.rate, now, later)
  {
    RefillAdds(b, l, now, later);
  }

  // k whole seconds make up a lack exactly when they cover it in seconds of refill.
  lemma SecondsCover(lack: real, refillSec: real, now: real, k: nat)
    requires refillSec > 0.0
    ensures lack <= Gain(1.0 / (refillSec * 1000.0), now, now + k as real * 1000.0) <==> lack * refillSec <= k as real
  {
    SecondsGain(refillSec, now, k);
    ScaleOrder(lack, Gain(1.0 / (refillSec * 1000.0), now, now + k as real * 1000.0), refillSec);
  }

  lemma NoLack(lack: real, refillSec: real, k: nat)
    requires refillSec > 0.0 && lack <= 0.0
    ensures lack * refillSec <= k as real
  {
    ScaleOrder(lack, 0.0, refillSec);
  }

  lemma LimitsValid(burst: real, refillSec: real)
    requires burst >= 0.0 && refillSec > 0.0
    ensures LimitsOf(burst, refillSec).Valid()
  {
    assert refillSec * 1000.0 > 0.0;
  }

  // waitSec is the least number of whole seconds after which an undisturbed take succeeds.
  lemma WaitIsLeast(b: Bucket, burst: real, refillSec: real, now: real, k: nat)
    requires refillSec > 0.0 && burst >= 1.0 && b.at <= now
    ensures CanTake(b, LimitsOf(burst, refillSec), now + k as real * 1000.0) <==>
        k >= WaitSeconds(b, burst, refillSec, now)
    ensures WaitSeconds(b, burst, refillSec, now) >= 0
  {
    var l := LimitsOf(burst, refillSec);
    var lack := 1.0 - Refilled(b, l, now).tokens;
    LimitsValid(burst, refillSec);
    GainCovers(b, l, now, now + k as real * 1000.0);
    SecondsCover(lack, refillSec, now, k);
    if lack <= 0.0 {
      NoLack(lack, refillSec, k);
    } else {
      CeilCovers(lack * refillSec, k);
      ScaleOrder(0.0, lack, refillSec);
    }
  }

  // In any stretch of k refill intervals of any run at most `burst` transmits and k more are granted.
  lemma OnePerInterval(
    b: Bucket, burst: real, refillSec: real, before: seq<Op>, window: seq<Op>, from: real, to: real, k: nat)
    requires refillSec > 0.0 && burst >= 0.0 && 0.0 <= b.tokens <= burst && b.at <= from <= to
    requires to - from <= k as real * 1000.0 * refillSec
    requires Within(before, b.at, from) && Within(window, from, to)
    ensures var l := LimitsOf(burst, refillSec);
      (Granted(b, l, before + window) - Granted(b, l, before)) as real <= burst + k as real
  {
    LimitsValid(burst, refillSec);
    RateLawWithin(b, LimitsOf(burst, refillSec), before, window, from, to);
    IntervalsGain(refillSec, from, to, k);
  }

  lemma IntervalsGain(refillSec: real, from: real, to: real, k: nat)
    requires refillSec > 0.0 && to - from <= k as real * 1000.0 * refillSec
    ensures Gain(1.0 / (refillSec * 1000.0), from, to) <= k as real
  {
    var rate := 1.0 / (refillSec * 1000.0);
    assert rate * (refillSec * 1000.0) == 1.0 && rate > 0.0;
    var most := k as real * 1000.0 * refillSec;
    ScaleOrder(to - from, most, rate);
    assert most * rate == k as real * (rate * (refillSec * 1000.0));
  }

  // A bucket that holds less than one token never grants: `burst` of at least 1 is what waitSec relies on.
  lemma SmallBurstNeverGrants(b: Bucket, burst: real, refillSec: real, now: real)
    requires refillSec > 0.0 && burst < 1.0
    ensures !CanTake(b, LimitsOf(burst, refillSec), now)
  {
  }

  class TokenBucket {
    const burst: real
    const refillSec: real
    var tokens: real
    var at: real

    ghost function Abs(): Bucket
      reads this
    {
      Bucket(tokens, at)
    }

    ghost function Law(): Limits
      requires refillSec > 0.0
    {
      LimitsOf(burst, refillSec)
    }

    constructor (burst: real, refillSec: real, now: real)
      requires burst >= 0.0 && refillSec > 0.0
      ensures this.burst == burst && this.refillSec == refillSec
      ensures Abs() == Bucket(burst, now) && WithinCap(Abs(), Law())
    {
      this.burst, this.refillSec := burst, refillSec;
      tokens, at := burst, now;
    }

    method Refill(now: real)
      requires refillSec > 0.0
      modifies this
      ensures Abs() == Refilled(old(Abs()), Law(), now)
    {
      assert (now - at) / (refillSec * 1000.0) == Gain(1.0 / (refillSec * 1000.0), at, now);
      tokens := Min(burst, tokens + (now - at) / (refillSec * 1000.0));
      at := now;
    }

    method Take(now: real) returns (ok: bool)
      requires refillSec > 0.0
      modifies this
      ensures ok == Grants(old(Abs()), Law(), Op.Take(now)) && Abs() == After(old(Abs()), Law(), Op.Take(now))
    {
      Refill(now);
      if tokens < 1.0 { return false; }
      tokens := tokens - 1.0;
      return true;
    }

    method WaitSec(now: real) returns (s: int)
      requires refillSec > 0.0
      modifies this
      ensures Abs() == After(old(Abs()), Law(), Look(now))
      ensures s == WaitSeconds(old(Abs()), burst, refillSec, now)
    {
      Refill(now);
      return if tokens >= 1.0 then 0 else Ceil((1.0 - tokens) * refillSec);
    }
  }
}
