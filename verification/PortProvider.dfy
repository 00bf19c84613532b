/** Publishing, unpublishing and the port part of a stop, as the provider runs them. */
module PortProvider {
  import opened Common
  import opened PortOwnership
  import A = PortAllocation

  // `refused` says that adding the rule fails, and `rolled` that its rollback then removes one; `kept` that
  // removing a rule has no effect.
  datatype PublishFaults = PublishFaults(lock: bool, read: bool, refused: bool, rolled: bool, write: bool, kept: bool)
  datatype UnpublishFaults = UnpublishFaults(lock: bool, read: bool, kept: bool, write: bool)

  class Provider {
    const ports: A.PortAllocator
    var infos: map<Vm, Info>
    var cache: map<Vm, map<Port, int>>
    var rules: multiset<Rule>
    ghost var pending: map<Port, Publish>       // other publishes under way

    ghost function Current(): State
      reads this, ports
    {
      State(ports.used, pending, infos, cache, rules)
    }

    ghost predicate Valid()
      reads this, ports
    {
      ports.Valid() && Owned(Current())
    }

    constructor ()
      ensures Valid() && fresh(ports) && Current() == INITIAL
    {
      ports := new A.PortAllocator();
      infos, cache, rules, pending := map[], map[], multiset{}, map[];
    }

    method RemoveRule(rule: Rule, kept: bool)
      modifies this`rules
      ensures rules == if kept then old(rules) else old(rules) - multiset{rule}
    {
      if !kept {
        rules := rules - multiset{rule};
      }
    }

    /** With the VM's lock free: succeeds exactly when a port is free, the VM is serving and no call fails; then
        it has made the moves of a publish with the port it returns. Otherwise nothing but a rule may have
        changed: one is left if the removal after a failed write has no effect, and one of the same kind is
        lost if the rollback of a failed add removes it. */
    method PublishPort(vm: Vm, target: int, f: PublishFaults) returns (r: Option<Port>, ghost tried: Port)
      requires Valid() && !Locked(Current(), vm)
      modifies this, ports
      ensures Valid()
      ensures r.Some? <==>
        && (exists p :: A.InRange(p) && p !in old(ports.used))
        && !f.lock && !f.read && vm in old(infos) && Serving(old(infos)[vm]) && !f.refused && !f.write
      ensures r.None? ==> Current() == old(Current()).(rules := rules)
      ensures r.None? && rules != old(rules) ==>
        && vm in old(infos) && (if f.refused then f.rolled else f.write && f.kept)
        && var rule := Rule(tried, old(infos)[vm].subnet, target);
           rules == if f.refused then old(rules) - multiset{rule} else old(rules) + multiset{rule}
      ensures r.Some? ==>
        && A.InRange(r.value) && r.value !in old(ports.used)
        && Admits(Next(old(Current()), Alloc(r.value)), r.value, vm)
        && Current() == Next(Next(Next(old(Current()), Alloc(r.value)), AddRule(r.value, vm, target)), Commit(r.value))
    {
      var ok, p := ports.Allocate();
      tried := p;
      if !ok {
        return None, p;
      }
      ok := Attach(vm, p, target, f);
      if !ok {
        ports.Release(p);
        assert ports.used == old(ports.used);
        return None, p;
      }
      Published(old(Current()), p, vm, target);
      return Some(p), p;
    }

    // The part of a publish under the VM's lock; the caller gives the port back if it fails.
    method Attach(vm: Vm, p: Port, target: int, f: PublishFaults) returns (ok: bool)
      modifies this`infos, this`cache, this`rules
      ensures ok <==> !f.lock && !f.read && vm in old(infos) && Serving(old(infos)[vm]) && !f.refused && !f.write
      ensures !ok ==> infos == old(infos) && cache == old(cache)
      ensures !ok && rules != old(rules) ==>
        && vm in old(infos) && (if f.refused then f.rolled else f.write && f.kept)
        && var rule := Rule(p, old(infos)[vm].subnet, target);
           rules == if f.refused then old(rules) - multiset{rule} else old(rules) + multiset{rule}
      ensures ok ==>
        var i := old(infos)[vm];
        var published := i.ports[p := target];
        && infos == old(infos)[vm := i.(ports := published)] && cache == Sync(old(cache), vm, published)
        && rules == old(rules) + multiset{Rule(p, i.subnet, target)}
    {
      if f.lock || f.read || vm !in infos {
        return false;
      }
      var info := infos[vm];
      if !info.alive || !info.tap {
        return false;
      }
      var rule := Rule(p, info.subnet, target);
      if f.refused {
        RemoveRule(rule, !f.rolled);
        return false;
      }
      rules := rules + multiset{rule};
      if f.write {
        RemoveRule(rule, f.kept);
        OneRule(old(rules), rule);
        return false;
      }
      var published := info.ports[p := target];
      infos := infos[vm := info.(ports := published)];
      if vm in cache {
        cache := cache[vm := published];
      }
      return true;
    }

    method UnpublishPort(vm: Vm, p: Port, f: UnpublishFaults) returns (ok: bool)
      requires Valid() && !Locked(Current(), vm)
      modifies this, ports
      ensures Valid()
      ensures if f.lock || f.read || vm !in old(infos) then !ok && Current() == old(Current())
              else Current() == Next(old(Current()), Unpublish(vm, p, f.kept, f.write))
                   && (ok <==> p !in old(infos)[vm].ports || !f.write)
    {
      if f.lock || f.read || vm !in infos {
        return false;
      }
      NextOwned(Current(), Unpublish(vm, p, f.kept, f.write));
      ok := Detach(vm, p, f);
    }

    // The part of an unpublish that has read vminfo.
    method Detach(vm: Vm, p: Port, f: UnpublishFaults) returns (ok: bool)
      requires ports.Valid() && vm in infos && !Locked(Current(), vm)
      modifies this`rules, this`infos, this`cache, ports
      ensures ports.Valid() && Current() == Next(old(Current()), Unpublish(vm, p, f.kept, f.write))
      ensures ok <==> p !in old(infos)[vm].ports || !f.write
    {
      var info := infos[vm];
      if p !in info.ports {
        return true;
      }
      RemoveRule(Rule(p, info.subnet, info.ports[p]), f.kept);
      OwnRule(info, p);
      if f.write {
        return false;
      }
      Forget(vm, p);
      return true;
    }

    // The rest of an unpublish whose write works.
    method Forget(vm: Vm, p: Port)
      requires ports.Valid() && vm in infos && p in infos[vm].ports
      modifies this`infos, this`cache, ports
      ensures ports.Valid() && ports.used == old(ports.used) - {p}
      ensures var kept := old(infos)[vm].ports - {p};
        infos == old(infos)[vm := old(infos)[vm].(ports := kept)] && cache == Sync(old(cache), vm, kept)
    {
      var kept := infos[vm].ports - {p};
      infos := infos[vm := infos[vm].(ports := kept)];
      if vm in cache {
        cache := cache[vm := kept];
      }
      ports.Release(p);
    }

    // Removes the rule of every port of a VM, but those of `left`, and gives all its ports back.
    method DropRules(info: Info, left: set<Port>)
      requires ports.Valid()
      modifies this`rules, ports
      ensures ports.Valid() && ports.used == old(ports.used) - info.ports.Keys
      ensures rules == old(rules) - RulesOf(info, info.ports.Keys - left)
    {
      var todo := info.ports.Keys;
      ghost var done: set<Port> := {};
      assert RulesOf(info, done - left) == multiset{};
      while todo != {}
        invariant todo <= info.ports.Keys && done == info.ports.Keys - todo
        invariant ports.Valid() && ports.used == old(ports.used) - done
        invariant rules == old(rules) - RulesOf(info, done - left)
        decreases |todo|
      {
        ghost var some := SomeElement(todo);
        var p :| p in todo;
        DropOne(info, done, p, left, old(rules), old(ports.used));
        done, todo := done + {p}, todo - {p};
      }
      assert done == info.ports.Keys;
    }

    method DropOne(info: Info, ghost done: set<Port>, p: Port, left: set<Port>, ghost allRules: multiset<Rule>,
                   ghost allUsed: set<Port>)
      requires ports.Valid() && done <= info.ports.Keys && p in info.ports && p !in done
      requires ports.used == allUsed - done && rules == allRules - RulesOf(info, done - left)
      modifies this`rules, ports
      ensures ports.Valid() && ports.used == allUsed - (done + {p})
      ensures rules == allRules - RulesOf(info, done + {p} - left)
    {
      OneMoreOrLeft(allRules, info, done, left, p);
      RemoveRule(Rule(p, info.subnet, info.ports[p]), p in left);
      ports.Release(p);
    }

    // What a stop does to the ports, from the end of the process to the deletion of the cache entry.
    method ReleasePorts(vm: Vm, left: set<Port>, fault: bool) returns (ok: bool)
      requires Valid() && vm in infos && !Locked(Current(), vm)
      modifies this, ports
      ensures ok == !fault && Current() == Next(old(Current()), Stop(vm, left, fault))
      ensures ports.Valid() && (Valid() <==> !(fault && old(infos)[vm].ports != map[]))
    {
      NextOwned(Current(), Stop(vm, left, fault));
      var info := infos[vm];
      if info.tap {
        DropRules(info, left);
      }
      if fault {
        infos := infos[vm := info.(alive := false)];
        return false;
      }
      infos := infos[vm := Cleared(info)];
      cache := cache - {vm};
      return true;
    }
  }

  // A publish that goes through leaves ports owned.
  lemma Published(s: State, p: Port, vm: Vm, target: int)
    requires Owned(s) && p !in s.used && vm in s.infos && Serving(s.infos[vm]) && !Locked(s, vm)
    ensures var taken := Next(s, Alloc(p));
      && Admits(taken, p, vm)
      && var t := Next(Next(taken, AddRule(p, vm, target)), Commit(p));
         var ports := s.infos[vm].ports[p := target];
         && Owned(t)
         && t == s.(used := s.used + {p}, infos := s.infos[vm := s.infos[vm].(ports := ports)],
                    cache := Sync(s.cache, vm, ports),
                    rules := s.rules + multiset{Rule(p, s.infos[vm].subnet, target)})
  {
    var taken := Next(s, Alloc(p));
    SameLocks(s, taken, p, vm);
    var ruled := Next(taken, AddRule(p, vm, target));
    NextOwned(s, Alloc(p));
    NextOwned(taken, AddRule(p, vm, target));
    NextOwned(ruled, Commit(p));
    PublishEffect(s, p, vm, target);
  }

  lemma OneMoreOrLeft(rules: multiset<Rule>, i: Info, done: set<Port>, left: set<Port>, p: Port)
    requires done <= i.ports.Keys && p in i.ports && p !in done
    ensures rules - RulesOf(i, done + {p} - left) ==
            var before := rules - RulesOf(i, done - left);
            if p in left then before else before - multiset{Rule(p, i.subnet, i.ports[p])}
  {
    if p in left {
      assert done + {p} - left == done - left;
    } else {
      assert done + {p} - left == (done - left) + {p};
      OneMoreRule(rules, i, done - left, p);
    }
  }

  lemma OneMoreRule(rules: multiset<Rule>, i: Info, done: set<Port>, p: Port)
    requires done <= i.ports.Keys && p in i.ports && p !in done
    ensures rules - RulesOf(i, done) - multiset{Rule(p, i.subnet, i.ports[p])} == rules - RulesOf(i, done + {p})
  {
    var r := Rule(p, i.subnet, i.ports[p]);
    var before := set q | q in done :: Rule(q, i.subnet, i.ports[q]);
    var after := set q | q in done + {p} :: Rule(q, i.subnet, i.ports[q]);
    assert r !in before;
    assert after == before + {r};
    assert multiset(after) == multiset(before) + multiset{r};
  }
}
