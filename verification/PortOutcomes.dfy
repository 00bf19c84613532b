/** What starts, stops, deaths and restarts do to the records of ports, field by field. */
module PortOutcomes {
  import opened Common
  import opened PortOwnership

  // Nothing of any other VM differs.
  ghost predicate OthersSame(s: State, s': State, vm: Vm) {
    && s'.pending == s.pending
    && (forall v :: v != vm ==> (v in s'.infos <==> v in s.infos) && (v in s'.cache <==> v in s.cache))
    && (forall v :: v != vm && v in s.infos ==> s'.infos[v] == s.infos[v])
    && (forall v :: v != vm && v in s.cache ==> s'.cache[v] == s.cache[v])
  }

  /** A start puts the VM on its new subnet, alive and with a tap, with the ports its record has, in the cache too;
      no port and no rule changes hands. */
  lemma StartOutcome(s: State, vm: Vm, subnet: int)
    requires Enabled(s, Start(vm, subnet))
    ensures var s' := Next(s, Start(vm, subnet));
      && vm in s'.infos && s'.infos[vm] == Info(s.infos[vm].ports, true, true, subnet)
      && vm in s'.cache && s'.cache[vm] == s.infos[vm].ports
      && s'.used == s.used && s'.rules == s.rules && OthersSame(s, s', vm)
  {}

  /** A stop gives back every port of a VM that has its tap. If its last write works the record and the cache entry
      are cleared; if not the record keeps its ports and the entry stays. */
  lemma StopOutcome(s: State, vm: Vm, left: set<Port>, fault: bool)
    requires Enabled(s, Stop(vm, left, fault))
    ensures var s' := Next(s, Stop(vm, left, fault));
      && s'.used == (if s.infos[vm].tap then s.used - s.infos[vm].ports.Keys else s.used)
      && OthersSame(s, s', vm) && vm in s'.infos && !s'.infos[vm].alive
      && if fault then
           && s'.infos[vm].ports == s.infos[vm].ports && s'.infos[vm].tap == s.infos[vm].tap
           && s'.infos[vm].subnet == s.infos[vm].subnet && s'.cache == s.cache
         else s'.infos[vm].ports == map[] && !s'.infos[vm].tap && vm !in s'.cache
  {}

  /** After a restart exactly the ports of the serving VMs are in use, and no publish is under way. A serving VM is as
      it was; any other has no ports any more, in its record only if that can be written. */
  lemma RestartOutcome(s: State, f: RestartFaults)
    ensures var s' := Next(s, Restart(f));
      && s'.pending == map[] && s'.infos.Keys == s.infos.Keys == s'.cache.Keys
      && (forall p :: p in s'.used <==> exists vm :: vm in s.infos && Serving(s.infos[vm]) && p in s.infos[vm].ports)
      && (forall vm :: vm in s.infos ==>
            if Serving(s.infos[vm]) then s'.infos[vm] == s.infos[vm] && s'.cache[vm] == s.infos[vm].ports
            else
              && s'.cache[vm] == map[]
              && s'.infos[vm].ports == (if vm in f.uncleared then s.infos[vm].ports else map[])
              && s'.infos[vm].alive == s.infos[vm].alive && s'.infos[vm].tap == s.infos[vm].tap)
  {
    forall vm | vm in s.infos ensures vm in Next(s, Restart(f)).infos && vm in Next(s, Restart(f)).cache {}
  }
}
