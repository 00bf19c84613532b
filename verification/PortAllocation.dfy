/** The circular scan for a free host port. */
module PortAllocation {
  const PORT_MIN := 40000
  const PORT_MAX := 49999
  const SPAN := PORT_MAX - PORT_MIN + 1

  // The ports a publish may be given.
  predicate InRange(p: int) { 40000 <= p <= 49999 }

  // The port `d` places after `start`, counting round once.
  function Ahead(start: int, d: int): int {
    if start + d <= PORT_MAX then start + d else start + d - SPAN
  }

  lemma EveryPortIsAhead(start: int, p: int)
    requires InRange(start) && InRange(p)
    ensures exists d :: 0 <= d < SPAN && Ahead(start, d) == p
  {
    var d := if p >= start then p - start else p - start + SPAN;
    assert Ahead(start, d) == p;
  }

  class PortAllocator {
    var used: set<int>
    var next: int

    ghost predicate Valid()
      reads this
    {
      PORT_MIN <= next <= PORT_MAX + 1
    }

    constructor ()
      ensures Valid() && used == {} && next == PORT_MIN
    {
      used, next := {}, PORT_MIN;
    }

    /** Fails exactly when every port is used; otherwise takes the first unused port at or after the cursor,
        counting round, and no other. */
    method Allocate() returns (ok: bool, port: int)
      requires Valid()
      modifies this
      ensures Valid()
      ensures ok <==> exists p :: InRange(p) && p !in old(used)
      ensures var start := if old(next) > PORT_MAX then PORT_MIN else old(next);
        if ok then
          && InRange(port) && port !in old(used) && used == old(used) + {port} && next == port + 1
          && exists d :: 0 <= d < SPAN && port == Ahead(start, d)
                         && forall k :: 0 <= k < d ==> Ahead(start, k) in old(used)
        else used == old(used) && next == start
    {
      if next > PORT_MAX {
        next := PORT_MIN;
      }
      var start := next;
      ghost var d := 0;
      while true
        invariant used == old(used) && InRange(start) && 0 <= d < SPAN
        invariant next == Ahead(start, d)
        invariant forall k :: 0 <= k < d ==> Ahead(start, k) in used
        decreases SPAN - d
      {
        if next !in used {
          port := next;
          used := used + {port};
          next := next + 1;
          return true, port;
        }
        next := next + 1;
        if next > PORT_MAX {
          next := PORT_MIN;
        }
        d := d + 1;
        if next == start {
          forall p | InRange(p) ensures p in old(used) {
            EveryPortIsAhead(start, p);
          }
          return false, 0;
        }
      }
    }

    method Release(port: int)
      requires Valid()
      modifies this
      ensures Valid() && used == old(used) - {port} && next == old(next)
    {
      used := used - {port};
    }

    method MarkUsed(port: int)
      requires Valid()
      modifies this
      ensures Valid() && used == old(used) + {port} && next == old(next)
    {
      used := used + {port};
    }
  }
}
