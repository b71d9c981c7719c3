/** The webhook rate limiter: burst tokens refilling at a steady rate. Time and tokens are
    reals; the clock may even run backwards. Most of the argument is about a bucket whose
    clock already counts tokens, so that refilling is plain addition; the limiter in seconds
    is then shown to be that bucket with its clock scaled by the rate. */
module TokenBucket {
  datatype Level = Level(tokens: real, last: real)

  function Min(a: real, b: real): real {
    if a < b then a else b
  }

  // ------------------------------------------- the bucket on a token clock

  function Refill(burst: real, b: Level, now: real): Level {
    if now > b.last then Level(Min(burst, b.tokens + (now - b.last)), now) else b
  }

  function Spend(b: Level): Level {
    if b.tokens < 1.0 then b else b.(tokens := b.tokens - 1.0)
  }

  /** The level after the first n calls of a run, which reads the clock once a call. */
  function After(burst: real, start: real, ts: seq<real>, n: nat): Level
    requires n <= |ts|
  {
    if n == 0 then Level(burst, start) else Spend(Refill(burst, After(burst, start, ts, n - 1), ts[n - 1]))
  }

  /** The level call k finds, refilled. */
  function Found(burst: real, start: real, ts: seq<real>, k: nat): Level
    requires k < |ts|
  {
    Refill(burst, After(burst, start, ts, k), ts[k])
  }

  predicate Allowed(burst: real, start: real, ts: seq<real>, k: nat)
    requires k < |ts|
  {
    Found(burst, start, ts, k).tokens >= 1.0
  }

  /** How many of the calls i, ..., j-1 were allowed. */
  function Count(burst: real, start: real, ts: seq<real>, i: nat, j: nat): nat
    requires i <= j <= |ts|
    decreases j
  {
    if i == j then 0 else Count(burst, start, ts, i, j - 1) + (if Allowed(burst, start, ts, j - 1) then 1 else 0)
  }

  /** What calls k, ..., n-1 leave, at time now, of a bucket that was full at call k. */
  function Left(burst: real, start: real, ts: seq<real>, k: nat, n: nat, now: real): real
    requires k < |ts| && k <= n <= |ts|
  {
    burst + (now - Found(burst, start, ts, k).last) - Count(burst, start, ts, k, n) as real
  }

  /** Tokens never leave [0, burst]. */
  lemma {:induction false} WithinBurst(burst: real, start: real, ts: seq<real>, n: nat)
    requires burst >= 0.0 && n <= |ts|
    ensures 0.0 <= After(burst, start, ts, n).tokens <= burst
    ensures n < |ts| ==> 0.0 <= Found(burst, start, ts, n).tokens <= burst
  {
    if n > 0 { WithinBurst(burst, start, ts, n - 1); }
  }

  ghost predicate IsFloor(burst: real, start: real, ts: seq<real>, k: nat, n: nat, b: Level)
    requires k < |ts| && k <= n <= |ts|
  {
    b.tokens == Left(burst, start, ts, k, n, b.last)
  }

  /** The refilled level is the least of what any full bucket since the start would have
      left: the incremental state forgets nothing that matters. */
  lemma {:induction false} FoundIsLeast(burst: real, start: real, ts: seq<real>, n: nat)
    requires burst >= 0.0 && n < |ts|
    ensures var r := Found(burst, start, ts, n);
            && (forall k :: 0 <= k <= n ==> r.tokens <= Left(burst, start, ts, k, n, r.last))
            && (exists k :: 0 <= k <= n && IsFloor(burst, start, ts, k, n, r))
  {
    var r := Found(burst, start, ts, n);
    WithinBurst(burst, start, ts, n);
    if n == 0 {
      assert IsFloor(burst, start, ts, 0, 0, r);
    } else {
      var f := Found(burst, start, ts, n - 1);
      FoundIsLeast(burst, start, ts, n - 1);
      forall k | 0 <= k <= n ensures r.tokens <= Left(burst, start, ts, k, n, r.last) {
        if k < n { assert f.tokens <= Left(burst, start, ts, k, n - 1, f.last); }
      }
      if r.tokens == burst {
        assert IsFloor(burst, start, ts, n, n, r);
      } else {
        var k :| 0 <= k <= n - 1 && IsFloor(burst, start, ts, k, n - 1, f);
        assert IsFloor(burst, start, ts, k, n, r);
      }
    }
  }

  lemma StretchOnTokenClock(burst: real, start: real, ts: seq<real>, i: nat, j: nat)
    requires burst >= 0.0 && i < j <= |ts|
    ensures Count(burst, start, ts, i, j) as real
         <= burst + (Found(burst, start, ts, j - 1).last - Found(burst, start, ts, i).last)
  {
    FoundIsLeast(burst, start, ts, j - 1);
    WithinBurst(burst, start, ts, j - 1);
    var f := Found(burst, start, ts, j - 1);
    assert f.tokens <= Left(burst, start, ts, i, j - 1, f.last);
  }

  /** One more call at n keeps the stretch from call k within its bound. */
  predicate FitsOnTokenClock(burst: real, start: real, ts: seq<real>, k: nat, n: nat)
    requires k <= n < |ts|
  {
    Count(burst, start, ts, k, n) as real + 1.0
    <= burst + (Found(burst, start, ts, n).last - Found(burst, start, ts, k).last)
  }

  lemma AllowedOnTokenClock(burst: real, start: real, ts: seq<real>, n: nat)
    requires burst >= 0.0 && n < |ts|
    ensures Allowed(burst, start, ts, n) <==> forall k :: 0 <= k <= n ==> FitsOnTokenClock(burst, start, ts, k, n)
  {
    var r := Found(burst, start, ts, n);
    FoundIsLeast(burst, start, ts, n);
    var floor :| 0 <= floor <= n && IsFloor(burst, start, ts, floor, n, r);
    assert FitsOnTokenClock(burst, start, ts, floor, n) <==> r.tokens >= 1.0;
    forall k | 0 <= k <= n ensures r.tokens >= 1.0 ==> FitsOnTokenClock(burst, start, ts, k, n) {
      assert r.tokens <= Left(burst, start, ts, k, n, r.last);
    }
  }

  // ------------------------------------------------- the limiter in seconds

  datatype Limits = Limits(rate: real, burst: real)

  ghost predicate Sane(p: Limits) {
    p.rate >= 0.0 && p.burst >= 0.0
  }

  function RefillAt(p: Limits, b: Level, now: real): Level {
    var elapsed := now - b.last;
    if elapsed > 0.0 then Level(Min(p.burst, b.tokens + elapsed * p.rate), now) else b
  }

  function LevelAt(p: Limits, start: real, ts: seq<real>, n: nat): Level
    requires n <= |ts|
  {
    if n == 0 then Level(p.burst, start) else Spend(RefillAt(p, LevelAt(p, start, ts, n - 1), ts[n - 1]))
  }

  predicate AllowedAt(p: Limits, start: real, ts: seq<real>, k: nat)
    requires k < |ts|
  {
    RefillAt(p, LevelAt(p, start, ts, k), ts[k]).tokens >= 1.0
  }

  function CountAt(p: Limits, start: real, ts: seq<real>, i: nat, j: nat): nat
    requires i <= j <= |ts|
    decreases j
  {
    if i == j then 0 else CountAt(p, start, ts, i, j - 1) + (if AllowedAt(p, start, ts, j - 1) then 1 else 0)
  }

  /** The latest clock reading once call k has been made. */
  function Clock(start: real, ts: seq<real>, k: nat): (c: real)
    requires k < |ts|
    ensures start <= c && forall i :: 0 <= i <= k ==> ts[i] <= c
    ensures c == start || exists i :: 0 <= i <= k && ts[i] == c
  {
    var before := if k == 0 then start else Clock(start, ts, k - 1);
    if ts[k] > before then ts[k] else before
  }

  /** Clock time t on the token clock. */
  function Credit(p: Limits, t: real): real {
    p.rate * t
  }

  function Credits(p: Limits, ts: seq<real>): (r: seq<real>)
    ensures |r| == |ts|
  {
    seq(|ts|, i requires 0 <= i < |ts| => Credit(p, ts[i]))
  }

  function OnTokenClock(p: Limits, b: Level): Level {
    Level(b.tokens, Credit(p, b.last))
  }

  /** What is refilled from a to b. */
  function Refilled(p: Limits, a: real, b: real): real {
    p.rate * (b - a)
  }

  lemma CreditGrows(p: Limits, a: real, b: real)
    requires Sane(p) && a <= b
    ensures Credit(p, a) <= Credit(p, b)
    ensures Credit(p, b) - Credit(p, a) == Refilled(p, a, b) == (b - a) * p.rate
  {
    assert p.rate * (b - a) >= 0.0;
  }

  lemma RefillScales(p: Limits, b: Level, now: real)
    requires Sane(p) && 0.0 <= b.tokens <= p.burst
    ensures OnTokenClock(p, RefillAt(p, b, now)) == Refill(p.burst, OnTokenClock(p, b), Credit(p, now))
  {
    if now > b.last {
      CreditGrows(p, b.last, now);
    } else {
      CreditGrows(p, now, b.last);
    }
  }

  lemma {:induction false} LevelScales(p: Limits, start: real, ts: seq<real>, n: nat)
    requires Sane(p) && n <= |ts|
    ensures OnTokenClock(p, LevelAt(p, start, ts, n)) == After(p.burst, Credit(p, start), Credits(p, ts), n)
    ensures n < |ts| ==>
              OnTokenClock(p, RefillAt(p, LevelAt(p, start, ts, n), ts[n])) == Found(p.burst, Credit(p, start), Credits(p, ts), n)
  {
    hide Credit, RefillAt, Refill;
    WithinBurst(p.burst, Credit(p, start), Credits(p, ts), n);
    if n > 0 { LevelScales(p, start, ts, n - 1); }
    if n < |ts| { RefillScales(p, LevelAt(p, start, ts, n), ts[n]); }
  }

  lemma {:induction false} CountScales(p: Limits, start: real, ts: seq<real>, i: nat, j: nat)
    requires Sane(p) && i <= j <= |ts|
    ensures CountAt(p, start, ts, i, j) == Count(p.burst, Credit(p, start), Credits(p, ts), i, j)
    decreases j
  {
    hide Credit, RefillAt, Refill;
    if i < j {
      CountScales(p, start, ts, i, j - 1);
      LevelScales(p, start, ts, j - 1);
    }
  }

  lemma {:induction false} ClockIsLast(p: Limits, start: real, ts: seq<real>, k: nat)
    requires k < |ts|
    ensures RefillAt(p, LevelAt(p, start, ts, k), ts[k]).last == Clock(start, ts, k)
  {
    if k > 0 { ClockIsLast(p, start, ts, k - 1); }
  }

  lemma {:induction false} TokenClockIs(p: Limits, start: real, ts: seq<real>, k: nat)
    requires Sane(p) && k < |ts|
    ensures Found(p.burst, Credit(p, start), Credits(p, ts), k).last == Credit(p, Clock(start, ts, k))
  {
    hide Credit, RefillAt, Refill, Found;
    LevelScales(p, start, ts, k);
    ClockIsLast(p, start, ts, k);
  }

  /** The most that may be allowed from call k up to call n: a full bucket and the refill
      over the clock time between them. */
  function Quota(p: Limits, start: real, ts: seq<real>, k: nat, n: nat): real
    requires k <= n < |ts|
  {
    p.burst + Refilled(p, Clock(start, ts, k), Clock(start, ts, n))
  }

  lemma {:induction false} QuotaIsCredit(p: Limits, start: real, ts: seq<real>, k: nat, n: nat)
    requires Sane(p) && k <= n < |ts|
    ensures Quota(p, start, ts, k, n) == p.burst + (Credit(p, Clock(start, ts, n)) - Credit(p, Clock(start, ts, k)))
  {
    hide Credit, Refilled;
    CreditGrows(p, Clock(start, ts, k), Clock(start, ts, n));
  }

  /** The quota is what the token clock measures. */
  lemma QuotaScales(p: Limits, start: real, ts: seq<real>, k: nat, n: nat)
    requires Sane(p) && k <= n < |ts|
    ensures Quota(p, start, ts, k, n)
         == p.burst + (Found(p.burst, Credit(p, start), Credits(p, ts), n).last - Found(p.burst, Credit(p, start), Credits(p, ts), k).last)
  {
    hide Credit, RefillAt, Refill, Found, Quota;
    QuotaIsCredit(p, start, ts, k, n);
    TokenClockIs(p, start, ts, k);
    TokenClockIs(p, start, ts, n);
  }

  // ----------------------------------------------------------------- theorems

  /** Tokens stay within [0, burst]. */
  lemma TokensStayInRange(p: Limits, start: real, ts: seq<real>, n: nat)
    requires Sane(p) && n <= |ts|
    ensures 0.0 <= LevelAt(p, start, ts, n).tokens <= p.burst
  {
    hide Credit, RefillAt, Refill;
    LevelScales(p, start, ts, n);
    WithinBurst(p.burst, Credit(p, start), Credits(p, ts), n);
  }

  /** In any stretch of calls no more than the quota is allowed, whatever the clock does. */
  lemma {:induction false} StretchBound(p: Limits, start: real, ts: seq<real>, i: nat, j: nat)
    requires Sane(p) && i < j <= |ts|
    ensures CountAt(p, start, ts, i, j) as real <= Quota(p, start, ts, i, j - 1)
  {
    hide Credit, RefillAt, Refill, Found, Quota;
    StretchOnTokenClock(p.burst, Credit(p, start), Credits(p, ts), i, j);
    CountScales(p, start, ts, i, j);
    QuotaScales(p, start, ts, i, j - 1);
  }

  /** One more call at n keeps the stretch from call k within its quota. */
  predicate Fits(p: Limits, start: real, ts: seq<real>, k: nat, n: nat)
    requires k <= n < |ts|
  {
    CountAt(p, start, ts, k, n) as real + 1.0 <= Quota(p, start, ts, k, n)
  }

  lemma FitsScales(p: Limits, start: real, ts: seq<real>, k: nat, n: nat)
    requires Sane(p) && k <= n < |ts|
    ensures Fits(p, start, ts, k, n) <==> FitsOnTokenClock(p.burst, Credit(p, start), Credits(p, ts), k, n)
  {
    hide Credit, RefillAt, Refill, Found, Quota;
    CountScales(p, start, ts, k, n);
    QuotaScales(p, start, ts, k, n);
  }

  /** The limiter refuses no call it could have let through: a call is allowed exactly
      when no stretch ending with it would then exceed its quota. */
  lemma AllowedExactlyWhenWithinQuota(p: Limits, start: real, ts: seq<real>, n: nat)
    requires Sane(p) && n < |ts|
    ensures AllowedAt(p, start, ts, n) <==> forall k :: 0 <= k <= n ==> Fits(p, start, ts, k, n)
  {
    hide Credit, RefillAt, Refill, Found, Fits, FitsOnTokenClock;
    AllowedOnTokenClock(p.burst, Credit(p, start), Credits(p, ts), n);
    LevelScales(p, start, ts, n);
    forall k | 0 <= k <= n
      ensures Fits(p, start, ts, k, n) <==> FitsOnTokenClock(p.burst, Credit(p, start), Credits(p, ts), k, n)
    {
      FitsScales(p, start, ts, k, n);
    }
  }

  /** While time does not run backwards, at most burst + rate * (t2 - t1) calls are
      allowed in any interval [t1, t2]. */
  lemma {:induction false} IntervalBound(p: Limits, start: real, ts: seq<real>, i: nat, j: nat, t1: real, t2: real)
    requires Sane(p) && i <= j <= |ts| && t1 <= t2
    requires forall a, b :: 0 <= a <= b < |ts| ==> ts[a] <= ts[b]
    requires forall k :: i <= k < j ==> t1 <= ts[k] <= t2
    ensures CountAt(p, start, ts, i, j) as real <= p.burst + p.rate * (t2 - t1)
  {
    hide Quota, CountAt;
    if i < j {
      StretchBound(p, start, ts, i, j);
      QuotaWithin(p, start, ts, i, j - 1, t1, t2);
    } else {
      NoCalls(p, start, ts, i, t2 - t1);
    }
  }

  lemma NoCalls(p: Limits, start: real, ts: seq<real>, i: nat, dt: real)
    requires Sane(p) && i <= |ts| && dt >= 0.0
    ensures CountAt(p, start, ts, i, i) as real <= p.burst + p.rate * dt
  {
    assert p.rate * dt >= 0.0;
  }

  lemma QuotaWithin(p: Limits, start: real, ts: seq<real>, k: nat, n: nat, t1: real, t2: real)
    requires Sane(p) && k <= n < |ts| && t1 <= ts[k] && ts[n] <= t2
    requires forall a, b :: 0 <= a <= b < |ts| ==> ts[a] <= ts[b]
    ensures Quota(p, start, ts, k, n) <= p.burst + p.rate * (t2 - t1)
  {
    hide Refilled;
    assert Clock(start, ts, n) == start || Clock(start, ts, n) <= ts[n];
    RefilledWithin(p, Clock(start, ts, k), Clock(start, ts, n), t1, t2);
  }

  lemma RefilledWithin(p: Limits, a: real, b: real, t1: real, t2: real)
    requires Sane(p) && b - a <= t2 - t1
    ensures Refilled(p, a, b) <= p.rate * (t2 - t1)
  {
    assert p.rate * ((t2 - t1) - (b - a)) >= 0.0;
  }

  class Bucket {
    var tokens: real
    var last: real
    const rate: real
    const burst: real

    constructor (perMinute: int, burst: int, now: real)
      ensures Level(tokens, last) == Level(burst as real, now)
      ensures rate == perMinute as real / 60.0 && this.burst == burst as real
    {
      tokens, last, rate, this.burst := burst as real, now, perMinute as real / 60.0, burst as real;
    }

    method Allow(now: real) returns (ok: bool)
      modifies this
      ensures ok <==> RefillAt(Limits(rate, burst), old(Level(tokens, last)), now).tokens >= 1.0
      ensures Level(tokens, last) == Spend(RefillAt(Limits(rate, burst), old(Level(tokens, last)), now))
    {
      var elapsed := now - last;
      if elapsed > 0.0 {
        tokens := Min(burst, tokens + elapsed * rate);
        last := now;
      }
      if tokens < 1.0 { return false; }
      tokens := tokens - 1.0;
      return true;
    }
  }
}
