/** Shared vocabulary: optional values, the last element of a sequence, and resource limits. */
module Common {
  datatype Option<+T> = None | Some(value: T)

  function Last<T>(s: seq<T>): T
    requires s != []
  {
    s[|s| - 1]
  }

  // A limit that is not set is left alone wherever limits are applied.
  datatype Limits = Limits(cpu: Option<int>, mem: Option<int>)

  const NO_LIMITS := Limits(None, None)

  function Patch(prev: Limits, lim: Limits): Limits {
    Limits(if lim.cpu.Some? then lim.cpu else prev.cpu, if lim.mem.Some? then lim.mem else prev.mem)
  }

  function Max(a: int, b: int): int {
    if a < b then b else a
  }

  function Min(a: int, b: int): int {
    if a < b then a else b
  }

  lemma SomeElement<T>(s: set<T>) returns (x: T)
    requires s != {}
    ensures x in s
  {
    x :| x in s;
  }
}
