/** The token buckets behind both rate limiters, over runs of takes, refunds and idle sweeps.

    Time is a monotone count of nanoseconds; tokens are reals. A key without a bucket counts as full.
  */
module TokenBuckets {
  type Key = nat

  // `cap` tokens at most, `rate` tokens per nanosecond, swept when idle for more than `ttl` nanoseconds.
  datatype Config = Config(cap: real, rate: real, ttl: int)
  {
    predicate Valid() { cap >= 0.0 && rate >= 0.0 && ttl >= 0 }

    function Least(x: real): real { if x < cap then x else cap }

    // A level after `d` nanoseconds without calls.
    function Later(x: real, d: int): real { Least(x + Refill(rate, d)) }
  }

  // The tokens that `d` nanoseconds bring.
  function Refill(rate: real, d: int): real { d as real * rate }

  datatype Bucket = Bucket(tokens: real, last: int)
  type Buckets = map<Key, Bucket>
  const NEW: Buckets := map[]

  predicate Ready(cfg: Config, m: Buckets, now: int) {
    cfg.Valid() && forall k :: k in m ==> 0.0 <= m[k].tokens <= cfg.cap && m[k].last <= now
  }

  // What a take of key k would find.
  function Level(cfg: Config, m: Buckets, k: Key, now: int): real {
    if k in m then cfg.Later(m[k].tokens, now - m[k].last) else cfg.cap
  }

  datatype Event = Take(k: Key, at: int) | Refund(k: Key, at: int) | Sweep(at: int)

  function Taken(cfg: Config, m: Buckets, k: Key, at: int): (Buckets, bool) {
    var level := Level(cfg, m, k, at);
    if level >= 1.0 then (m[k := Bucket(level - 1.0, at)], true) else (m[k := Bucket(level, at)], false)
  }

  function Refunded(cfg: Config, m: Buckets, k: Key): Buckets {
    if k in m then m[k := Bucket(cfg.Least(m[k].tokens + 1.0), m[k].last)] else m
  }

  function Swept(cfg: Config, m: Buckets, at: int): Buckets {
    map k | k in m && m[k].last >= at - cfg.ttl :: m[k]
  }

  function Step(cfg: Config, m: Buckets, e: Event): Buckets {
    match e
    case Take(k, at) => Taken(cfg, m, k, at).0
    case Refund(k, _) => Refunded(cfg, m, k)
    case Sweep(at) => Swept(cfg, m, at)
  }

  // The events come in order of time, none before `now` and none after `end`.
  predicate Timed(es: seq<Event>, now: int, end: int) {
    if es == [] then now <= end else now <= es[0].at && Timed(es[1..], es[0].at, end)
  }

  // The answers to the takes, in order.
  function Answers(cfg: Config, m: Buckets, es: seq<Event>): seq<bool>
    decreases |es|
  {
    if es == [] then []
    else (if es[0].Take? then [Taken(cfg, m, es[0].k, es[0].at).1] else []) + Answers(cfg, Step(cfg, m, es[0]), es[1..])
  }

  // Takes of key k that are granted, less refunds of key k.
  function Net(cfg: Config, m: Buckets, es: seq<Event>, k: Key): int
    decreases |es|
  {
    if es == [] then 0
    else
      Counted(cfg, m, es[0], k) + Net(cfg, Step(cfg, m, es[0]), es[1..], k)
  }

  function Counted(cfg: Config, m: Buckets, e: Event, k: Key): int {
    match e
    case Take(k', at) => if k' == k && Taken(cfg, m, k', at).1 then 1 else 0
    case Refund(k', _) => if k' == k then -1 else 0
    case Sweep(_) => 0
  }

  // An idle bucket is full before a sweep can take it.
  predicate SweepsOnlyFull(cfg: Config) { Refill(cfg.rate, cfg.ttl + 1) >= cfg.cap }

  // ---- what single events do to levels ----

  lemma RefillAdds(rate: real, a: int, b: int)
    requires rate >= 0.0
    ensures Refill(rate, a + b) == Refill(rate, a) + Refill(rate, b)
    ensures a >= 0 ==> Refill(rate, a) >= 0.0
    ensures b >= 0 ==> Refill(rate, b) >= 0.0
  {
    assert (a + b) as real == a as real + b as real;
  }

  lemma LevelLater(cfg: Config, m: Buckets, k: Key, now: int, later: int)
    requires Ready(cfg, m, now) && now <= later
    ensures Level(cfg, m, k, later) == cfg.Later(Level(cfg, m, k, now), later - now)
    ensures 0.0 <= Level(cfg, m, k, now) <= cfg.cap
    ensures Level(cfg, m, k, later) <= Level(cfg, m, k, now) + Refill(cfg.rate, later - now)
  {
    RefillAdds(cfg.rate, later - now, 0);
    if k in m {
      RefillAdds(cfg.rate, now - m[k].last, later - now);
      assert now - m[k].last + (later - now) == later - m[k].last;
    }
  }

  lemma StepReady(cfg: Config, m: Buckets, e: Event)
    requires Ready(cfg, m, e.at)
    ensures Ready(cfg, Step(cfg, m, e), e.at)
  {
    if !e.Sweep? { LevelLater(cfg, m, e.k, e.at, e.at); }
  }

  // A take lowers its own level by what it grants; a refund raises it by one, up to the cap; nothing else moves.
  lemma CallLevel(cfg: Config, m: Buckets, e: Event, k: Key)
    requires Ready(cfg, m, e.at) && !e.Sweep?
    ensures Level(cfg, Step(cfg, m, e), k, e.at) ==
            var level := Level(cfg, m, k, e.at);
            if e.k != k then level
            else if e.Take? then (if level >= 1.0 then level - 1.0 else level)
            else cfg.Least(level + 1.0)
  {
    LevelLater(cfg, m, e.k, e.at, e.at);
    if e.k in m { RefillAdds(cfg.rate, e.at - m[e.k].last, 0); }
  }

  lemma SweepLevel(cfg: Config, m: Buckets, at: int, k: Key)
    requires Ready(cfg, m, at) && SweepsOnlyFull(cfg)
    ensures Level(cfg, Swept(cfg, m, at), k, at) == Level(cfg, m, k, at)
  {
    if k in m && m[k].last < at - cfg.ttl {
      var idle := at - m[k].last;
      RefillAdds(cfg.rate, cfg.ttl + 1, idle - (cfg.ttl + 1));
      assert cfg.ttl + 1 + (idle - (cfg.ttl + 1)) == idle;
      assert k !in Swept(cfg, m, at);
    }
  }

  // ---- the bound over a window ----

  /** In any window of T nanoseconds of any run, the takes of one key that are granted, less its refunds, are
      at most its level at the start plus T * rate. Sweeps are allowed if they only remove full buckets. */
  lemma {:induction false} NetBound(cfg: Config, m: Buckets, es: seq<Event>, k: Key, now: int, end: int)
    requires Ready(cfg, m, now) && Timed(es, now, end)
    requires SweepsOnlyFull(cfg) || forall e :: e in es ==> !e.Sweep?
    ensures now <= end
    ensures Net(cfg, m, es, k) as real <= Level(cfg, m, k, now) + Refill(cfg.rate, end - now)
    decreases |es|
  {
    if es == [] {
      LevelLater(cfg, m, k, now, end);
      RefillAdds(cfg.rate, end - now, 0);
    } else {
      var e, m' := es[0], Step(cfg, m, es[0]);
      StepReady(cfg, m, e);
      NetBound(cfg, m', es[1..], k, e.at, end);
      LevelLater(cfg, m, k, now, e.at);
      RefillAdds(cfg.rate, e.at - now, end - e.at);
      assert e.at - now + (end - e.at) == end - now;
      assert e in es;
      OneEvent(cfg, m, e, k);
      assert Net(cfg, m, es, k) == Counted(cfg, m, e, k) + Net(cfg, m', es[1..], k);
    }
  }

  // What an event grants comes out of the level.
  lemma OneEvent(cfg: Config, m: Buckets, e: Event, k: Key)
    requires Ready(cfg, m, e.at) && (e.Sweep? ==> SweepsOnlyFull(cfg))
    ensures Counted(cfg, m, e, k) as real + Level(cfg, Step(cfg, m, e), k, e.at) <= Level(cfg, m, k, e.at)
  {
    if e.Sweep? { SweepLevel(cfg, m, e.at, k); } else { CallLevel(cfg, m, e, k); }
  }

  // A cap of less than one token grants nothing at all, swept or not.
  lemma {:induction false} NothingGranted(cfg: Config, m: Buckets, es: seq<Event>, now: int, end: int)
    requires Ready(cfg, m, now) && Timed(es, now, end) && cfg.cap < 1.0
    ensures true !in Answers(cfg, m, es)
    decreases |es|
  {
    if es != [] {
      var e := es[0];
      StepReady(cfg, m, e);
      NothingGranted(cfg, Step(cfg, m, e), es[1..], e.at, end);
      if e.Take? { LevelLater(cfg, m, e.k, e.at, e.at); }
    }
  }

  // The bound the limiters promise: the cap, and what is refilled in the window.
  lemma WindowBound(cfg: Config, m: Buckets, es: seq<Event>, k: Key, now: int, end: int)
    requires Ready(cfg, m, now) && Timed(es, now, end)
    requires SweepsOnlyFull(cfg) || forall e :: e in es ==> !e.Sweep?
    ensures Net(cfg, m, es, k) as real <= cfg.cap + Refill(cfg.rate, end - now)
  {
    NetBound(cfg, m, es, k, now, end);
    LevelLater(cfg, m, k, now, now);
  }

  // ---- sweeps cannot be seen ----

  function Unswept(es: seq<Event>): seq<Event> {
    if es == [] then [] else (if es[0].Sweep? then [] else [es[0]]) + Unswept(es[1..])
  }

  ghost predicate SameLevels(cfg: Config, m: Buckets, n: Buckets, now: int) {
    forall k :: Level(cfg, m, k, now) == Level(cfg, n, k, now)
  }

  lemma SameLater(cfg: Config, m: Buckets, n: Buckets, now: int, later: int)
    requires Ready(cfg, m, now) && Ready(cfg, n, now) && now <= later && SameLevels(cfg, m, n, now)
    ensures SameLevels(cfg, m, n, later)
  {
    forall k ensures Level(cfg, m, k, later) == Level(cfg, n, k, later) {
      LevelLater(cfg, m, k, now, later);
      LevelLater(cfg, n, k, now, later);
    }
  }

  // With and without the sweeps, the same takes are granted.
  lemma {:induction false} SweepsUnseen(cfg: Config, m: Buckets, n: Buckets, es: seq<Event>, now: int, end: int)
    requires Ready(cfg, m, now) && Ready(cfg, n, now) && Timed(es, now, end)
    requires SameLevels(cfg, m, n, now) && SweepsOnlyFull(cfg)
    ensures Answers(cfg, m, es) == Answers(cfg, n, Unswept(es))
    decreases |es|
  {
    if es != [] {
      var e, m' := es[0], Step(cfg, m, es[0]);
      SameLater(cfg, m, n, now, e.at);
      StepReady(cfg, m, e);
      if e.Sweep? {
        forall k ensures Level(cfg, m', k, e.at) == Level(cfg, n, k, e.at) { SweepLevel(cfg, m, e.at, k); }
        SweepsUnseen(cfg, m', n, es[1..], e.at, end);
        assert Unswept(es) == Unswept(es[1..]);
        assert Answers(cfg, m, es) == Answers(cfg, m', es[1..]);
      } else {
        var n' := Step(cfg, n, e);
        StepReady(cfg, n, e);
        forall k ensures Level(cfg, m', k, e.at) == Level(cfg, n', k, e.at) {
          CallLevel(cfg, m, e, k);
          CallLevel(cfg, n, e, k);
        }
        SweepsUnseen(cfg, m', n', es[1..], e.at, end);
        assert Unswept(es) == [e] + Unswept(es[1..]) && Unswept(es)[1..] == Unswept(es[1..]);
        assert Level(cfg, m, e.k, e.at) == Level(cfg, n, e.k, e.at);
      }
    }
  }

  function Burst(k: Key, at: int, n: nat): seq<Event> {
    if n == 0 then [] else [Take(k, at)] + Burst(k, at, n - 1)
  }

  function All(b: bool, n: nat): seq<bool> {
    if n == 0 then [] else [b] + All(b, n - 1)
  }

  // n takes at once are all granted exactly when the level is n at least.
  lemma {:induction false} BurstAnswers(cfg: Config, m: Buckets, k: Key, at: int, n: nat, rest: seq<Event>)
    requires Ready(cfg, m, at)
    ensures |Answers(cfg, m, Burst(k, at, n) + rest)| >= n
    ensures Answers(cfg, m, Burst(k, at, n) + rest)[..n] == All(true, n) <==> Level(cfg, m, k, at) >= n as real
    decreases n
  {
    if n == 0 {
      LevelLater(cfg, m, k, at, at);
    } else {
      var e := Take(k, at);
      var m' := Step(cfg, m, e);
      StepReady(cfg, m, e);
      CallLevel(cfg, m, e, k);
      BurstAnswers(cfg, m', k, at, n - 1, rest);
      assert (Burst(k, at, n) + rest)[1..] == Burst(k, at, n - 1) + rest;
      var tail := Answers(cfg, m', Burst(k, at, n - 1) + rest);
      assert Answers(cfg, m, Burst(k, at, n) + rest) == [Taken(cfg, m, k, at).1] + tail;
      assert ([Taken(cfg, m, k, at).1] + tail)[..n] == [Taken(cfg, m, k, at).1] + tail[..n - 1];
      var answers := [Taken(cfg, m, k, at).1] + tail[..n - 1];
      if answers == All(true, n) { assert answers[0] && answers[1..] == All(true, n - 1); }
    }
  }

  lemma {:induction false} BurstTimed(k: Key, at: int, n: nat, rest: seq<Event>, end: int)
    requires Timed(rest, at, end)
    ensures Timed(Burst(k, at, n) + rest, at, end)
    decreases n
  {
    var es := Burst(k, at, n) + rest;
    if n == 0 {
      assert es == rest;
    } else {
      BurstTimed(k, at, n - 1, rest, end);
      assert es[0] == Take(k, at) && es[1..] == Burst(k, at, n - 1) + rest;
    }
  }

  lemma TakeUnswept(k: Key, at: int, es: seq<Event>)
    requires es != [] && es[0] == Take(k, at)
    ensures Unswept(es) == [Take(k, at)] + Unswept(es[1..])
  {}

  lemma {:induction false} BurstUnswept(k: Key, at: int, n: nat, rest: seq<Event>)
    ensures Unswept(Burst(k, at, n) + rest) == Burst(k, at, n) + Unswept(rest)
    decreases n
  {
    var es := Burst(k, at, n) + rest;
    if n == 0 {
      assert es == rest && Burst(k, at, n) + Unswept(rest) == Unswept(rest);
    } else {
      var short := Burst(k, at, n - 1);
      BurstUnswept(k, at, n - 1, rest);
      assert es[0] == Take(k, at) && es[1..] == short + rest;
      TakeUnswept(k, at, es);
      assert Burst(k, at, n) == [Take(k, at)] + short;
      assert ([Take(k, at)] + short) + Unswept(rest) == [Take(k, at)] + (short + Unswept(rest));
    }
  }

  function Drain(cfg: Config, m: Buckets, k: Key, at: int, n: nat): Buckets
    decreases n
  {
    if n == 0 then m else Drain(cfg, Step(cfg, m, Take(k, at)), k, at, n - 1)
  }

  // n takes at once of a bucket that has n tokens.
  lemma {:induction false} DrainLevel(cfg: Config, m: Buckets, k: Key, at: int, n: nat)
    requires Ready(cfg, m, at) && Level(cfg, m, k, at) >= n as real
    ensures var d := Drain(cfg, m, k, at, n);
      && Ready(cfg, d, at) && Level(cfg, d, k, at) == Level(cfg, m, k, at) - n as real
      && (n > 0 ==> k in d && d[k].last == at)
    decreases n
  {
    if n > 0 {
      var e := Take(k, at);
      StepReady(cfg, m, e);
      CallLevel(cfg, m, e, k);
      DrainLevel(cfg, Step(cfg, m, e), k, at, n - 1);
    }
  }

  lemma {:induction false} DrainAnswers(cfg: Config, m: Buckets, k: Key, at: int, n: nat, rest: seq<Event>)
    requires Ready(cfg, m, at) && Level(cfg, m, k, at) >= n as real
    ensures Answers(cfg, m, Burst(k, at, n) + rest) == All(true, n) + Answers(cfg, Drain(cfg, m, k, at, n), rest)
    decreases n
  {
    if n == 0 {
      assert Burst(k, at, n) + rest == rest;
      assert All(true, n) + Answers(cfg, m, rest) == Answers(cfg, m, rest);
    } else {
      var e := Take(k, at);
      var m' := Step(cfg, m, e);
      StepReady(cfg, m, e);
      CallLevel(cfg, m, e, k);
      DrainAnswers(cfg, m', k, at, n - 1, rest);
      assert (Burst(k, at, n) + rest)[1..] == Burst(k, at, n - 1) + rest;
      var later := Answers(cfg, Drain(cfg, m, k, at, n), rest);
      assert All(true, n) + later == [true] + (All(true, n - 1) + later);
    }
  }

  // A run from the start whose sweeps change an answer.
  predicate Shows(cfg: Config, es: seq<Event>, end: int) {
    Timed(es, 0, end) && Answers(cfg, NEW, es) != Answers(cfg, NEW, Unswept(es))
  }

  /** The condition is exact: with a whole, positive cap, sweeps change some run from the start exactly when
      they can take a bucket that is not full. */
  lemma SweepsSeenExactly(cfg: Config, n: nat)
    requires cfg.Valid() && n > 0 && cfg.cap == n as real
    ensures SweepsOnlyFull(cfg) <==>
            forall es, end :: !Shows(cfg, es, end)
  {
    if SweepsOnlyFull(cfg) {
      forall es, end ensures !Shows(cfg, es, end) {
        if Timed(es, 0, end) { SweepsUnseen(cfg, NEW, NEW, es, 0, end); }
      }
    } else {
      var es := SweepSeen(cfg, n);
      assert Shows(cfg, es, cfg.ttl + 1);
    }
  }

  // n whole tokens fit, and a bucket that has given them out has not refilled to n when a sweep can take it.
  predicate SweepsEarly(cfg: Config, n: nat) {
    n > 0 && n as real <= cfg.cap && cfg.cap - n as real + Refill(cfg.rate, cfg.ttl + 1) < n as real
  }

  function Story(n: nat, late: int): seq<Event> { Burst(0, 0, n) + ([Sweep(late)] + Burst(0, late, n)) }

  lemma StoryTimed(n: nat, late: int)
    requires late >= 0
    ensures Timed(Story(n, late), 0, late) && Unswept(Story(n, late)) == Burst(0, 0, n) + Burst(0, late, n)
  {
    var tail := Burst(0, late, n);
    var swept := [Sweep(late)] + tail;
    BurstTimed(0, late, n, [], late);
    BurstUnswept(0, late, n, []);
    assert tail + [] == tail && swept[1..] == tail && tail + Unswept([]) == tail;
    assert Unswept(swept) == tail;
    BurstTimed(0, 0, n, swept, late);
    BurstUnswept(0, 0, n, swept);
  }

  lemma StoryAnswers(cfg: Config, n: nat)
    requires cfg.Valid() && SweepsEarly(cfg, n)
    ensures var late := cfg.ttl + 1;
      Answers(cfg, NEW, Story(n, late)) != Answers(cfg, NEW, Burst(0, 0, n) + Burst(0, late, n))
  {
    var late := cfg.ttl + 1;
    var tail := Burst(0, late, n);
    var swept := [Sweep(late)] + tail;
    assert Level(cfg, NEW, 0, 0) == cfg.cap;
    DrainLevel(cfg, NEW, 0, 0, n);
    DrainAnswers(cfg, NEW, 0, 0, n, swept);
    DrainAnswers(cfg, NEW, 0, 0, n, tail);
    var m := Drain(cfg, NEW, 0, 0, n);
    SweptOrNot(cfg, m, n);
    PrefixDiffers(All(true, n), Answers(cfg, m, swept), Answers(cfg, m, tail));
  }

  /** For any cap, whole or not: take n tokens, wait until a sweep takes the bucket, and ask for n again. If the
      bucket has not refilled to n by then, the sweep changes an answer. */
  lemma SweepSeen(cfg: Config, n: nat) returns (es: seq<Event>)
    requires cfg.Valid() && SweepsEarly(cfg, n)
    ensures Shows(cfg, es, cfg.ttl + 1)
  {
    es := Story(n, cfg.ttl + 1);
    StoryTimed(n, cfg.ttl + 1);
    StoryAnswers(cfg, n);
  }

  lemma SweptOrNot(cfg: Config, m: Buckets, n: nat)
    requires cfg.Valid() && SweepsEarly(cfg, n)
    requires Ready(cfg, m, 0) && Level(cfg, m, 0, 0) == cfg.cap - n as real && 0 in m && m[0].last == 0
    ensures var late := cfg.ttl + 1;
      Answers(cfg, m, [Sweep(late)] + Burst(0, late, n)) != Answers(cfg, m, Burst(0, late, n))
  {
    var late := cfg.ttl + 1;
    assert ([Sweep(late)] + Burst(0, late, n))[1..] == Burst(0, late, n);
    FullOrNot(cfg, m, n);
  }

  lemma PrefixDiffers(p: seq<bool>, a: seq<bool>, b: seq<bool>)
    requires a != b
    ensures p + a != p + b
  {
    assert (p + a)[|p|..] == a && (p + b)[|p|..] == b;
  }

  lemma FullOrNot(cfg: Config, m: Buckets, n: nat)
    requires cfg.Valid() && SweepsEarly(cfg, n)
    requires Ready(cfg, m, 0) && Level(cfg, m, 0, 0) == cfg.cap - n as real && 0 in m && m[0].last == 0
    ensures var late := cfg.ttl + 1;
      Answers(cfg, m, Burst(0, late, n)) != Answers(cfg, Swept(cfg, m, late), Burst(0, late, n))
  {
    var late := cfg.ttl + 1;
    var m' := Swept(cfg, m, late);
    var tail := Burst(0, late, n);
    assert tail + [] == tail;
    LevelLater(cfg, m, 0, 0, late);
    assert 0 !in m';
    StepReady(cfg, m, Sweep(late));
    BurstAnswers(cfg, m, 0, late, n, []);
    BurstAnswers(cfg, m', 0, late, n, []);
    assert Answers(cfg, m, tail)[..n] != Answers(cfg, m', tail)[..n];
  }
}
