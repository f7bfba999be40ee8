/** Token bucket: `rate` grants per `interval`, burst equal to rate. Times are seconds on a monotonic clock. */
module RateLimiting {

  datatype Limits = Limits(rate: nat, interval: real)

  /** What the constructor makes of its arguments: no zero rate, no zero interval. */
  function Effective(rate: nat, interval: real): (l: Limits)
    requires interval >= 0.0
    ensures Proper(l)
    ensures l.rate != rate ==> rate == 0 && l.rate == 1
    ensures l.interval != interval ==> interval == 0.0 && l.interval == 1.0
  {
    Limits(if rate < 1 then 1 else rate, if interval == 0.0 then 1.0 else interval)
  }

  predicate Proper(l: Limits) {
    l.rate >= 1 && l.interval > 0.0
  }

  function PerToken(l: Limits): (p: real)
    requires Proper(l)
    ensures p > 0.0
  {
    l.interval / l.rate as real
  }

  datatype Bucket = Bucket(tokens: real, last: real)

  function Elapsed(from: real, to: real): real {
    if to <= from then 0.0 else to - from
  }

  function Least(a: real, b: real): real {
    if a <= b then a else b
  }

  function Refilled(l: Limits, b: Bucket, now: real): Bucket
    requires Proper(l)
  {
    Bucket(Least(b.tokens + Elapsed(b.last, now) / PerToken(l), l.rate as real), now)
  }

  predicate Grants(l: Limits, b: Bucket, now: real)
    requires Proper(l)
  {
    Refilled(l, b, now).tokens >= 1.0
  }

  /** One use of the bucket: an acquisition attempt, or the refill that sizes a sleep. */
  datatype Use = Attempt(now: real) | Measure(now: real)

  predicate Granted(l: Limits, b: Bucket, use: Use)
    requires Proper(l)
  {
    use.Attempt? && Grants(l, b, use.now)
  }

  function Used(l: Limits, b: Bucket, use: Use): Bucket
    requires Proper(l)
  {
    var r := Refilled(l, b, use.now);
    if Granted(l, b, use) then r.(tokens := r.tokens - 1.0) else r
  }

  // ----------------------------------------------------------------------- every run

  predicate IsRun(l: Limits, trace: seq<Bucket>, uses: seq<Use>)
    requires Proper(l)
  {
    && |trace| == |uses| + 1
    && 0.0 <= trace[0].tokens <= l.rate as real
    && forall i :: 0 <= i < |uses| ==> uses[i].now >= trace[i].last && trace[i + 1] == Used(l, trace[i], uses[i])
  }

  lemma {:induction false} TokensStayInRange(l: Limits, trace: seq<Bucket>, uses: seq<Use>, n: nat)
    requires Proper(l) && IsRun(l, trace, uses) && n <= |uses|
    ensures 0.0 <= trace[n].tokens <= l.rate as real
  {
    if n > 0 {
      TokensStayInRange(l, trace, uses, n - 1);
      assert trace[n - 1 + 1] == Used(l, trace[n - 1], uses[n - 1]);
    }
  }

  /** Grants among the first `n` uses at times within `[from, from + length]`. */
  function GrantsWithin(l: Limits, trace: seq<Bucket>, uses: seq<Use>, from: real, length: real, n: nat): nat
    requires Proper(l) && |trace| == |uses| + 1 && n <= |uses|
  {
    if n == 0 then 0
    else
      GrantsWithin(l, trace, uses, from, length, n - 1)
      + if Granted(l, trace[n - 1], uses[n - 1]) && from <= uses[n - 1].now <= from + length then 1 else 0
  }

  lemma {:induction false} QuotientsAdd(a: real, b: real, p: real)
    requires p > 0.0
    ensures (a + b) / p == a / p + b / p
    ensures a <= b ==> a / p <= b / p
  {
  }

  lemma {:induction false} NoneBefore(l: Limits, trace: seq<Bucket>, uses: seq<Use>, from: real, length: real, n: nat)
    requires Proper(l) && IsRun(l, trace, uses) && n <= |uses|
    requires trace[n].last < from
    ensures GrantsWithin(l, trace, uses, from, length, n) == 0
  {
    if n > 0 {
      assert trace[n - 1 + 1] == Used(l, trace[n - 1], uses[n - 1]);
      NoneBefore(l, trace, uses, from, length, n - 1);
    }
  }

  /** While the window is open, grants plus the tokens left are paid for by the burst and the time gone by. */
  ghost predicate Paid(l: Limits, b: Bucket, grants: nat, from: real)
    requires Proper(l)
  {
    b.tokens + grants as real <= l.rate as real + (b.last - from) / PerToken(l)
  }

  lemma {:induction false} UsePays(l: Limits, b: Bucket, use: Use, grants: nat, from: real)
    requires Proper(l) && use.now >= b.last && use.now >= from
    requires if b.last >= from then Paid(l, b, grants, from) else grants == 0
    ensures Paid(l, Used(l, b, use), grants + if Granted(l, b, use) then 1 else 0, from)
  {
    var p := PerToken(l);
    if b.last >= from {
      QuotientsAdd(b.last - from, use.now - b.last, p);
    } else {
      QuotientsAdd(0.0, use.now - from, p);
    }
    hide PerToken;
  }

  lemma {:induction false} GrantsPaid(l: Limits, trace: seq<Bucket>, uses: seq<Use>, from: real, length: real, n: nat)
    requires Proper(l) && IsRun(l, trace, uses) && n <= |uses| && length >= 0.0
    ensures
      var g := GrantsWithin(l, trace, uses, from, length, n);
      && g as real <= l.rate as real + length / PerToken(l)
      && (n > 0 && from <= trace[n].last <= from + length ==> Paid(l, trace[n], g, from))
  {
    if n == 0 {
      QuotientsAdd(0.0, length, PerToken(l));
    } else {
      GrantsPaid(l, trace, uses, from, length, n - 1);
      TokensStayInRange(l, trace, uses, n);
      var b, use := trace[n - 1], uses[n - 1];
      assert trace[n - 1 + 1] == Used(l, b, use);
      var g := GrantsWithin(l, trace, uses, from, length, n - 1);
      if from <= use.now <= from + length {
        if b.last < from {
          NoneBefore(l, trace, uses, from, length, n - 1);
        } else if n == 1 {
          FirstPays(l, b, from);
        }
        hide Paid, PerToken;
        UsePays(l, b, use, g, from);
        PaidBounds(l, trace[n], g + if Granted(l, b, use) then 1 else 0, from, length);
      }
    }
  }

  lemma {:induction false} FirstPays(l: Limits, b: Bucket, from: real)
    requires Proper(l) && b.last >= from && b.tokens <= l.rate as real
    ensures Paid(l, b, 0, from)
  {
    QuotientsAdd(0.0, b.last - from, PerToken(l));
  }

  lemma {:induction false} PaidBounds(l: Limits, b: Bucket, grants: nat, from: real, length: real)
    requires Proper(l) && Paid(l, b, grants, from) && b.tokens >= 0.0 && b.last - from <= length
    ensures grants as real <= l.rate as real + length / PerToken(l)
  {
    QuotientsAdd(b.last - from, length, PerToken(l));
  }

  lemma {:induction false} PerTokenIs(l: Limits, length: real)
    requires Proper(l)
    ensures length / PerToken(l) == length * l.rate as real / l.interval
  {
    var r := l.rate as real;
    assert length / (l.interval / r) == length * r / l.interval;
  }

  /** In every run and every time window, grants are at most rate + length · rate / interval. */
  lemma {:induction false} WindowBound(l: Limits, trace: seq<Bucket>, uses: seq<Use>, from: real, length: real)
    requires Proper(l) && IsRun(l, trace, uses) && length >= 0.0
    ensures GrantsWithin(l, trace, uses, from, length, |uses|) as real <= l.rate as real
      + length * l.rate as real / l.interval
  {
    GrantsPaid(l, trace, uses, from, length, |uses|);
    PerTokenIs(l, length);
  }

  // ------------------------------------------------------------------------ waiting

  /** How long a caller that found no token sleeps. */
  function SleepFor(l: Limits, b: Bucket): real
    requires Proper(l)
  {
    var s := (if b.tokens >= 1.0 then 0.0 else 1.0 - b.tokens) * PerToken(l);
    if s <= 0.001 then 0.001 else s
  }

  /** A sleep of the computed length is enough when nobody else takes a token meanwhile. */
  lemma {:induction false} SleepSuffices(l: Limits, b: Bucket, now: real)
    requires Proper(l) && 0.0 <= b.tokens && now >= b.last + SleepFor(l, b)
    ensures Grants(l, b, now)
  {
    var p := PerToken(l);
    var deficit := if b.tokens >= 1.0 then 0.0 else 1.0 - b.tokens;
    assert (deficit * p) / p == deficit;
    QuotientsAdd(deficit * p, now - b.last, p);
    hide PerToken;
  }

  class RateLimiter {
    const limits: Limits
    var bucket: Bucket

    ghost predicate Valid()
      reads this
    {
      Proper(limits) && 0.0 <= bucket.tokens <= limits.rate as real
    }

    constructor (rate: nat, interval: real, now: real)
      requires interval >= 0.0
      ensures Valid() && limits == Effective(rate, interval) && bucket == Bucket(limits.rate as real, now)
    {
      limits := Effective(rate, interval);
      bucket := Bucket(Effective(rate, interval).rate as real, now);
    }

    method Refill(now: real)
      requires Valid()
      modifies this
      ensures Valid() && bucket == Used(limits, old(bucket), Measure(now))
    {
      var elapsed := Elapsed(bucket.last, now);
      var per := PerToken(limits);
      QuotientsAdd(0.0, elapsed, per);
      bucket := Bucket(Least(bucket.tokens + elapsed / per, limits.rate as real), now);
    }

    method TryAcquire(now: real) returns (granted: bool)
      requires Valid()
      modifies this
      ensures Valid() && granted == Grants(limits, old(bucket), now)
      ensures bucket == Used(limits, old(bucket), Attempt(now))
    {
      Refill(now);
      if bucket.tokens >= 1.0 {
        bucket := bucket.(tokens := bucket.tokens - 1.0);
        return true;
      }
      return false;
    }

    /**
     Sleep and retry until a token is granted; `drift(k)` is how much the clock runs on by itself
     at its `k`-th reading. A caller alone at the limiter sleeps at most once.
     */
    method Wait(start: real, drift: nat -> real) returns (now: real, attempts: nat)
      requires Valid() && start >= bucket.last && forall k :: drift(k) >= 0.0
      modifies this
      ensures Valid() && 1 <= attempts <= 2 && bucket.last == now >= start
      ensures attempts == 1 <==> Grants(limits, old(bucket), start)
    {
      now, attempts := start, 0;
      while true
        invariant Valid() && attempts <= 1 && start <= now
        invariant attempts == 0 ==> now == start && bucket == old(bucket)
        invariant attempts == 1 ==> Grants(limits, bucket, now) && !Grants(limits, old(bucket), start)
        decreases 2 - attempts
      {
        var granted := TryAcquire(now);
        attempts := attempts + 1;
        if granted {
          return;
        }
        now := now + drift(2 * attempts);
        Refill(now);
        now := now + SleepFor(limits, bucket) + drift(2 * attempts + 1);
        SleepSuffices(limits, bucket, now);
      }
    }
  }
}
