/** The subnet allocator: indexes only grow, and every index stands for one /30 block of 172.26.0.0/16. */
module Subnets {
  // What is done to an allocator, in order.
  datatype Call = Allocate | InitPast(idx: int) | Reserve(idx: int) | Release(idx: int)

  function After(next: int, c: Call): int {
    match c
    case Allocate => next + 1
    case InitPast(idx) => if idx >= next then idx + 1 else next
    case Reserve(idx) => if idx >= next then idx + 1 else next
    case Release(_) => next
  }

  // The cursor after some calls.
  function NextAfter(calls: seq<Call>): int {
    if calls == [] then 0 else After(NextAfter(calls[..|calls| - 1]), calls[|calls| - 1])
  }

  // Call k hands out idx, or takes it over from an earlier life of the daemon or a snapshot.
  predicate Gives(calls: seq<Call>, k: nat, idx: int)
    requires k < |calls|
  {
    match calls[k]
    case Allocate => idx == NextAfter(calls[..k])
    case InitPast(i) => idx == i
    case Reserve(i) => idx == i
    case Release(_) => false
  }

  lemma {:induction false} GivenIsPassed(calls: seq<Call>, k: nat, idx: int)
    requires k < |calls| && Gives(calls, k, idx)
    ensures idx < NextAfter(calls)
  {
    var before := calls[..|calls| - 1];
    if k < |before| {
      assert before[..k] == calls[..k];
      GivenIsPassed(before, k, idx);
    }
  }

  /** No allocation returns an index allocated, reserved or recovered before it, whatever was released between. */
  lemma NeverAgain(calls: seq<Call>, i: nat, j: nat, idx: int)
    requires i < j < |calls| && calls[j].Allocate? && Gives(calls, i, idx)
    ensures !Gives(calls, j, idx)
  {
    assert calls[..j][..i] == calls[..i];
    GivenIsPassed(calls[..j], i, idx);
  }

  ghost predicate Given(calls: seq<Call>, idx: int) {
    exists k :: 0 <= k < |calls| && Gives(calls, k, idx)
  }

  lemma GivenAllPassed(calls: seq<Call>, idx: int)
    requires Given(calls, idx)
    ensures idx < NextAfter(calls)
  {
    var k :| 0 <= k < |calls| && Gives(calls, k, idx);
    GivenIsPassed(calls, k, idx);
  }

  lemma GivenGrows(calls: seq<Call>, c: Call, idx: int)
    ensures Given(calls + [c], idx) <==>
            Given(calls, idx) || idx == (match c
                                         case Allocate => NextAfter(calls)
                                         case InitPast(i) => i
                                         case Reserve(i) => i
                                         case Release(_) => idx + 1)
    ensures NextAfter(calls + [c]) == After(NextAfter(calls), c)
  {
    var more := calls + [c];
    assert more[..|calls|] == calls;
    if Given(calls, idx) {
      var k :| 0 <= k < |calls| && Gives(calls, k, idx);
      assert more[..k] == calls[..k];
      assert Gives(more, k, idx);
    }
    if Given(more, idx) {
      var k :| 0 <= k < |more| && Gives(more, k, idx);
      if k < |calls| {
        assert more[..k] == calls[..k];
        assert Gives(calls, k, idx);
      }
    }
    assert Gives(more, |calls|, idx) ==> Given(more, idx);
  }

  // The indexes in use after some calls.
  function InUse(calls: seq<Call>): set<int> {
    if calls == [] then {}
    else
      var before := calls[..|calls| - 1];
      UseAfter(InUse(before), NextAfter(before), calls[|calls| - 1])
  }

  function UseAfter(inUse: set<int>, next: int, c: Call): set<int> {
    match c
    case Allocate => inUse + {next}
    case InitPast(_) => inUse
    case Reserve(idx) => inUse + {idx}
    case Release(idx) => inUse - {idx}
  }

  lemma InUseGrows(calls: seq<Call>, c: Call)
    ensures InUse(calls + [c]) == UseAfter(InUse(calls), NextAfter(calls), c)
  {
    assert (calls + [c])[..|calls|] == calls;
  }

  /** A reservation does not look whether its index is in use. Whoever had it shares it from then on, and the first
      of the two to release it takes it out of use for both. */
  lemma ReservedTwice(calls: seq<Call>, idx: int)
    requires idx in InUse(calls)
    ensures Gives(calls + [Reserve(idx)], |calls|, idx)
    ensures idx !in InUse(calls + [Reserve(idx)] + [Release(idx)])
  {
    InUseGrows(calls, Reserve(idx));
    InUseGrows(calls + [Reserve(idx)], Release(idx));
  }

  class Allocator {
    var next: int
    var inUse: set<int>
    ghost var log: seq<Call>

    ghost predicate Valid()
      reads this
    {
      && next == NextAfter(log) && inUse == InUse(log)
      && (forall idx :: idx in inUse ==> Given(log, idx))
    }

    constructor ()
      ensures Valid() && log == [] && inUse == {}
    {
      next, inUse, log := 0, {}, [];
    }

    ghost method Log(c: Call)
      modifies this`log
      ensures log == old(log) + [c] && NextAfter(log) == After(NextAfter(old(log)), c)
      ensures InUse(log) == UseAfter(InUse(old(log)), NextAfter(old(log)), c)
      ensures forall idx :: Given(old(log), idx) ==> Given(log, idx)
      ensures c.Reserve? ==> Given(log, c.idx)
      ensures c.Allocate? ==> Given(log, NextAfter(old(log)))
    {
      InUseGrows(log, c);
      forall idx ensures Given(log, idx) ==> Given(log + [c], idx) { GivenGrows(log, c, idx); }
      GivenGrows(log, c, if c.Reserve? then c.idx else NextAfter(log));
      log := log + [c];
    }

    method InitPast(idx: int)
      requires Valid()
      modifies this
      ensures Valid() && log == old(log) + [Call.InitPast(idx)] && inUse == old(inUse)
      ensures next > idx && next >= old(next) && (next == old(next) || next == idx + 1)
    {
      if idx >= next { next := idx + 1; }
      Log(Call.InitPast(idx));
    }

    method Allocate() returns (idx: int)
      requires Valid()
      modifies this
      ensures Valid() && log == old(log) + [Call.Allocate]
      ensures idx == NextAfter(old(log)) && inUse == old(inUse) + {idx}
      ensures idx !in old(inUse) && !Given(old(log), idx) && Given(log, idx)
    {
      idx := next;
      if Given(log, idx) { GivenAllPassed(log, idx); }
      next := next + 1;
      inUse := inUse + {idx};
      Log(Call.Allocate);
    }

    method Release(idx: int)
      requires Valid()
      modifies this
      ensures Valid() && log == old(log) + [Call.Release(idx)]
      ensures inUse == old(inUse) - {idx} && next == old(next)
    {
      inUse := inUse - {idx};
      Log(Call.Release(idx));
    }

    method Reserve(idx: int)
      requires Valid()
      modifies this
      ensures Valid() && log == old(log) + [Call.Reserve(idx)] && inUse == old(inUse) + {idx}
      ensures next > idx && next >= old(next) && (next == old(next) || next == idx + 1)
    {
      inUse := inUse + {idx};
      if idx >= next { next := idx + 1; }
      Log(Call.Reserve(idx));
    }
  }

  // ---- addresses ----

  const BLOCKS := 16384

  datatype Ip = Ip(a: int, b: int, c: int, d: int)

  function Byte(n: int): int { n % 256 }

  function Base(idx: int): Ip {
    var offset := idx * 4;
    Ip(172, 26, Byte(offset / 256), Byte(offset))
  }

  // A byte's increment wraps; it does not carry.
  function HostIP(idx: int): Ip {
    var ip := Base(idx);
    ip.(d := Byte(ip.d + 1))
  }

  function GuestIP(idx: int): Ip {
    var ip := Base(idx);
    ip.(d := Byte(ip.d + 2))
  }

  function Value(ip: Ip): int { ((ip.a * 256 + ip.b) * 256 + ip.c) * 256 + ip.d }

  const FIRST := Value(Ip(172, 26, 0, 0))

  // The addresses that share a /30 with index idx's base.
  ghost predicate InBlock(v: int, idx: int) { v / 4 == Value(Base(idx)) / 4 }

  lemma Offset(idx: int)
    ensures (4 * idx) % 65536 == 4 * (idx % BLOCKS)
    ensures Byte(4 * idx / 256) * 256 + Byte(4 * idx) == (4 * idx) % 65536
  {
    var q, r := idx / BLOCKS, idx % BLOCKS;
    assert 4 * idx == 65536 * q + 4 * r;
    assert 4 * idx / 256 == 256 * q + 4 * r / 256;
  }

  /** Where an index's addresses are: block idx mod 16384 of the network, host and guest the first and second
      address after the base, with no carry out of the last byte. */
  lemma Addresses(idx: int)
    ensures Value(Base(idx)) == FIRST + 4 * (idx % BLOCKS)
    ensures Value(HostIP(idx)) == Value(Base(idx)) + 1
    ensures Value(GuestIP(idx)) == Value(Base(idx)) + 2
    ensures InBlock(Value(HostIP(idx)), idx) && InBlock(Value(GuestIP(idx)), idx)
  {
    Offset(idx);
    assert Byte(4 * idx) % 4 == 0;
  }

  /** Two indexes' blocks share an address exactly when the indexes are equal mod 16384. */
  lemma BlocksMeet(i: int, j: int)
    ensures (exists v :: InBlock(v, i) && InBlock(v, j)) <==> i % BLOCKS == j % BLOCKS
  {
    Addresses(i);
    Addresses(j);
    if i % BLOCKS == j % BLOCKS {
      assert InBlock(Value(Base(i)), i) && InBlock(Value(Base(i)), j);
    }
  }

  /** No host address is a guest address, of any index; hosts, and guests, differ unless the blocks meet. */
  lemma AddressesDiffer(i: int, j: int)
    ensures HostIP(i) != GuestIP(j)
    ensures HostIP(i) == HostIP(j) <==> i % BLOCKS == j % BLOCKS
    ensures GuestIP(i) == GuestIP(j) <==> i % BLOCKS == j % BLOCKS
  {
    Addresses(i);
    Addresses(j);
    assert i % BLOCKS == j % BLOCKS ==> Value(Base(i)) == Value(Base(j));
    SameValue(Base(i), Base(j));
  }

  lemma SameValue(p: Ip, q: Ip)
    requires p.a == q.a && p.b == q.b && 0 <= p.c < 256 && 0 <= q.c < 256 && 0 <= p.d < 256 && 0 <= q.d < 256
    ensures Value(p) == Value(q) <==> p == q
  {}

  /** The blocks two allocations hand out meet exactly when a whole multiple of 16384 indexes lies between
      them: an allocation does not look whether the block is still in use. */
  lemma AllocationsMeet(calls: seq<Call>, i: nat, j: nat, a: int, b: int)
    requires i < j < |calls| && calls[i].Allocate? && calls[j].Allocate?
    requires Gives(calls, i, a) && Gives(calls, j, b)
    ensures a < b
    ensures (exists v :: InBlock(v, a) && InBlock(v, b)) <==> (b - a) % BLOCKS == 0
  {
    assert calls[..j][..i] == calls[..i];
    GivenIsPassed(calls[..j], i, a);
    IndexesMeet(a, b);
  }

  // The blocks of any two indexes, however they were handed out.
  lemma IndexesMeet(a: int, b: int)
    ensures (exists v :: InBlock(v, a) && InBlock(v, b)) <==> (b - a) % BLOCKS == 0
  {
    BlocksMeet(a, b);
    Congruent(a, b);
  }

  /** A fork's children are all started from the snapshot with index 0: every two of them reserve it, whatever
      comes between, and share its block, host and guest addresses included. */
  lemma ForkChildrenMeet(calls: seq<Call>, i: nat, j: nat, a: int, b: int)
    requires i < j < |calls| && calls[i] == Reserve(FORKED) && calls[j] == Reserve(FORKED)
    requires Gives(calls, i, a) && Gives(calls, j, b)
    ensures a == b && GuestIP(a) == GuestIP(b) && exists v :: InBlock(v, a) && InBlock(v, b)
  {
    IndexesMeet(a, b);
  }

  // The snapshot index of a vminfo that does not set it.
  const FORKED := 0

  lemma Congruent(a: int, b: int)
    ensures a % BLOCKS == b % BLOCKS <==> (b - a) % BLOCKS == 0
  {
    var k := (b / BLOCKS) - (a / BLOCKS);
    assert b - a == BLOCKS * k + (b % BLOCKS - a % BLOCKS);
  }
}
