/** The two limiters as they keep their buckets: the boost channel's (take, retry-after, collect) and the login
    page's (consume, refund, collect). Each call is proved to be the corresponding event of TokenBuckets. */
module RateLimiters {
  import opened Common
  import opened TokenBuckets

  const NANOS: real := 1_000_000_000.0

  lemma PerSecond(d: int, rate: real)
    ensures d as real / NANOS * rate == Refill(rate / NANOS, d)
  {
    assert d as real / NANOS * rate == (d as real * rate) / NANOS;
  }

  class RateLimiter {
    const burst: nat
    const refillPerSec: real
    const idleTTL: nat
    var buckets: Buckets

    ghost const cfg: Config := Config(burst as real, refillPerSec / NANOS, idleTTL)

    ghost predicate Valid(now: int)
      reads this
    {
      Ready(cfg, buckets, now)
    }

    constructor (burst: nat, refillPerSec: real, idleTTL: nat)
      requires refillPerSec >= 0.0
      ensures this.burst == burst && this.refillPerSec == refillPerSec && this.idleTTL == idleTTL
      ensures buckets == NEW && forall now :: Valid(now)
    {
      this.burst, this.refillPerSec, this.idleTTL := burst, refillPerSec, idleTTL;
      buckets := NEW;
    }

    method Allow(id: Key, now: int) returns (ok: bool)
      requires Valid(now)
      modifies this
      ensures Valid(now) && (buckets, ok) == Taken(cfg, old(buckets), id, now)
    {
      StepReady(cfg, buckets, Take(id, now));
      var tokens := burst as real;
      if id in buckets {
        var b := buckets[id];
        var elapsed := (now - b.last) as real / NANOS;
        PerSecond(now - b.last, refillPerSec);
        tokens := b.tokens + elapsed * refillPerSec;
        if burst as real <= tokens {
          tokens := burst as real;
        }
        assert tokens == cfg.Later(b.tokens, now - b.last);
      }
      assert tokens == Level(cfg, buckets, id, now);
      ok := tokens >= 1.0;
      if ok {
        tokens := tokens - 1.0;
      }
      buckets := buckets[id := Bucket(tokens, now)];
    }

    // In whole nanoseconds, as a time.Duration is. Without any refill the division has no value: no wait is enough.
    method RetryAfter(id: Key) returns (wait: Option<int>)
      requires refillPerSec >= 0.0
      ensures wait == if id !in buckets || buckets[id].tokens >= 1.0 then Some(0)
                      else if refillPerSec == 0.0 then None
                      else Some(Wait(cfg, buckets[id].tokens).Floor)
    {
      if id !in buckets || buckets[id].tokens >= 1.0 {
        return Some(0);
      }
      if refillPerSec == 0.0 {
        return None;
      }
      var missing := 1.0 - buckets[id].tokens;
      var secs := missing / refillPerSec;
      assert secs * NANOS == Wait(cfg, buckets[id].tokens) by {
        assert secs * refillPerSec == missing;
        assert secs * NANOS * (refillPerSec / NANOS) == missing;
        WaitUnique(cfg, buckets[id].tokens, secs * NANOS);
      }
      wait := Some((secs * NANOS).Floor);
    }

    method GC(now: int)
      requires Valid(now)
      modifies this
      ensures Valid(now) && buckets == Swept(cfg, old(buckets), now)
    {
      StepReady(cfg, buckets, Sweep(now));
      buckets := Collect(buckets, now - idleTTL);
    }
  }

  // The loop both collectors share: drops every bucket last used before the cutoff.
  method Collect(buckets: Buckets, cutoff: int) returns (kept: Buckets)
    ensures kept == map k | k in buckets && buckets[k].last >= cutoff :: buckets[k]
  {
    kept := buckets;
    var todo := buckets.Keys;
    while todo != {}
      invariant todo <= buckets.Keys
      invariant kept == map k | k in buckets && (k in todo || buckets[k].last >= cutoff) :: buckets[k]
      decreases |todo|
    {
      var k :| k in todo;
      if kept[k].last < cutoff {
        kept := kept - {k};
      }
      todo := todo - {k};
    }
  }

  class LoginLimiter {
    const capacity: real
    const refill: real          // tokens per interval
    const interval: int         // nanoseconds
    const idleTTL: nat
    var buckets: Buckets

    ghost const cfg: Config := Config(capacity, if interval > 0 then refill / interval as real else 0.0, idleTTL)

    ghost predicate Valid(now: int)
      reads this
    {
      interval > 0 && Ready(cfg, buckets, now)
    }

    constructor (capacity: real, refill: real, interval: int, idleTTL: nat)
      requires capacity >= 0.0 && refill >= 0.0 && interval > 0
      ensures buckets == NEW && forall now :: Valid(now)
      ensures this.capacity == capacity && this.refill == refill && this.interval == interval && this.idleTTL == idleTTL
    {
      this.capacity, this.refill, this.interval, this.idleTTL := capacity, refill, interval, idleTTL;
      buckets := NEW;
      new;
      assert cfg.rate >= 0.0;
    }

    method Consume(key: Key, now: int) returns (ok: bool)
      requires Valid(now)
      modifies this
      ensures Valid(now) && ok == Taken(cfg, old(buckets), key, now).1
      ensures buckets == Taken(cfg, old(buckets), key, now).0
    {
      StepReady(cfg, buckets, Take(key, now));
      var b := Bucket(capacity, now);
      if key in buckets {
        b := buckets[key];
      }
      b := Refresh(b, now);
      if b.tokens < 1.0 {
        buckets := buckets[key := b];
        return false;
      }
      buckets := buckets[key := Bucket(b.tokens - 1.0, b.last)];
      return true;
    }

    // The refill at the head of consume.
    method Refresh(b: Bucket, now: int) returns (r: Bucket)
      requires interval > 0 && cfg.Valid() && 0.0 <= b.tokens <= cfg.cap && b.last <= now
      ensures r == Bucket(cfg.Later(b.tokens, now - b.last), now)
    {
      r := b;
      var elapsed := now - b.last;
      if elapsed > 0 {
        var rate := refill / interval as real;
        var tokens := b.tokens + elapsed as real * rate;
        if tokens > capacity {
          tokens := capacity;
        }
        r := Bucket(tokens, now);
      } else {
        RefillAdds(cfg.rate, 0, 0);
        assert Refill(cfg.rate, 0) == 0.0;
      }
    }

    method RefundOne(key: Key, ghost now: int)
      requires Valid(now)
      modifies this
      ensures Valid(now) && buckets == Refunded(cfg, old(buckets), key)
    {
      StepReady(cfg, buckets, Refund(key, now));
      if key !in buckets {
        return;
      }
      var tokens := buckets[key].tokens + 1.0;
      if tokens > capacity {
        tokens := capacity;
      }
      buckets := buckets[key := Bucket(tokens, buckets[key].last)];
    }

    method GC(now: int)
      requires Valid(now)
      modifies this
      ensures Valid(now) && buckets == Swept(cfg, old(buckets), now)
    {
      StepReady(cfg, buckets, Sweep(now));
      buckets := Collect(buckets, now - idleTTL);
    }
  }

  const HOUR := 3_600_000_000_000

  // Both limiters, as the daemon sets them up, forget only full buckets.
  lemma DefaultsSweepOnlyFull()
    ensures SweepsOnlyFull(Config(10.0, 1.0 / NANOS, HOUR))
    ensures SweepsOnlyFull(Config(5.0, 5.0 / 60_000_000_000.0, HOUR))
  {}

  // ---- how long to wait after a denial ----

  // The exact time, in nanoseconds, that refills what is missing to one token.
  function Wait(cfg: Config, tokens: real): real {
    if cfg.rate > 0.0 then (1.0 - tokens) / cfg.rate else 0.0
  }

  lemma WaitUnique(cfg: Config, tokens: real, t: real)
    requires cfg.rate > 0.0 && t * cfg.rate == 1.0 - tokens
    ensures Wait(cfg, tokens) == t
  {
    var w := Wait(cfg, tokens);
    assert w * cfg.rate == 1.0 - tokens;
    assert (w - t) * cfg.rate == 0.0;
  }

  /** After a denial at time t, with no call between, a take d nanoseconds later is granted exactly when d is
      at least the exact wait (and the cap lets a whole token in). So the duration given out, which drops
      the fraction of a nanosecond, is enough exactly when there is none, and anything shorter never is. */
  lemma RetryAfterTight(cfg: Config, m: Buckets, k: Key, t: int, d: nat)
    requires Ready(cfg, m, t) && cfg.rate > 0.0 && cfg.cap >= 1.0 && !Taken(cfg, m, k, t).1
    ensures var m' := Taken(cfg, m, k, t).0;
      var wait := Wait(cfg, m'[k].tokens);
      && k in m' && m'[k].tokens < 1.0
      && (Taken(cfg, m', k, t + d).1 <==> d as real >= wait)
      && (d < wait.Floor ==> !Taken(cfg, m', k, t + d).1)
      && (Taken(cfg, m', k, t + wait.Floor).1 <==> wait == wait.Floor as real)
  {
    var m' := Taken(cfg, m, k, t).0;
    LevelLater(cfg, m, k, t, t);
    var tokens := m'[k].tokens;
    WaitPositive(cfg, tokens);
    GrantedExactly(cfg, tokens, d);
    GrantedExactly(cfg, tokens, Wait(cfg, tokens).Floor);
    assert Level(cfg, m', k, t + d) == cfg.Later(tokens, d);
    assert Level(cfg, m', k, t + Wait(cfg, tokens).Floor) == cfg.Later(tokens, Wait(cfg, tokens).Floor);
  }

  lemma GrantedExactly(cfg: Config, tokens: real, d: int)
    requires cfg.rate > 0.0 && cfg.cap >= 1.0
    ensures cfg.Later(tokens, d) >= 1.0 <==> d as real >= Wait(cfg, tokens)
  {
    var wait := Wait(cfg, tokens);
    WaitRefills(cfg, tokens);
    Compare(d as real, wait, cfg.rate);
    assert Refill(cfg.rate, d) == d as real * cfg.rate;
    assert cfg.Later(tokens, d) >= 1.0 <==> tokens + Refill(cfg.rate, d) >= 1.0;
  }

  lemma WaitRefills(cfg: Config, tokens: real)
    requires cfg.rate > 0.0
    ensures Wait(cfg, tokens) * cfg.rate == 1.0 - tokens
  {}

  lemma WaitPositive(cfg: Config, tokens: real)
    requires cfg.rate > 0.0 && tokens < 1.0
    ensures Wait(cfg, tokens) > 0.0
  {
    var w := Wait(cfg, tokens);
    assert w * cfg.rate == 1.0 - tokens;
    assert w <= 0.0 ==> w * cfg.rate <= 0.0;
  }

  lemma Compare(x: real, y: real, rate: real)
    requires rate > 0.0
    ensures x * rate >= y * rate <==> x >= y
  {
    if x >= y { assert (x - y) * rate >= 0.0; } else { assert (y - x) * rate > 0.0; }
  }

  // Without refill a key that was denied stays denied, however long it waits.
  lemma NoRefillNoGrant(cfg: Config, m: Buckets, k: Key, t: int, d: nat)
    requires Ready(cfg, m, t) && cfg.rate == 0.0 && !Taken(cfg, m, k, t).1
    ensures !Taken(cfg, Taken(cfg, m, k, t).0, k, t + d).1
  {
    var m' := Taken(cfg, m, k, t).0;
    LevelLater(cfg, m, k, t, t);
    assert Refill(cfg.rate, d) == 0.0 by { assert d as real * 0.0 == 0.0; }
    assert Level(cfg, m', k, t + d) == cfg.Later(m'[k].tokens, d);
  }

  // The Retry-After header: the whole seconds of the duration, plus one.
  function HeaderSeconds(wait: int): int {
    wait / 1_000_000_000 + 1
  }

  // It is more than the duration, by a second at most.
  lemma HeaderTight(wait: int)
    ensures wait < HeaderSeconds(wait) * 1_000_000_000 <= wait + 1_000_000_000
  {}

  // Waiting as long as the header says is always enough.
  lemma HeaderEnough(cfg: Config, m: Buckets, k: Key, t: int, d: nat)
    requires Ready(cfg, m, t) && cfg.rate > 0.0 && cfg.cap >= 1.0 && !Taken(cfg, m, k, t).1
    requires d >= HeaderSeconds(Wait(cfg, Taken(cfg, m, k, t).0[k].tokens).Floor) * 1_000_000_000
    ensures Taken(cfg, Taken(cfg, m, k, t).0, k, t + d).1
  {
    RetryAfterTight(cfg, m, k, t, d);
  }
}
