/** The forwarding rules against the ports in vminfo: when every port has exactly one rule, and no other rule
    stands. */
module PortRules {
  import opened Common
  import opened PortOwnership

  // The rule is the one for a port of this VM.
  predicate Has(i: Info, r: Rule) {
    r.port in i.ports && r.subnet == i.subnet && r.target == i.ports[r.port]
  }

  // The rule is one that a publish under way has added.
  predicate Adds(s: State, r: Rule) {
    && r.port in s.pending && s.pending[r.port].Ruled?
    && r.subnet == s.pending[r.port].subnet && r.target == s.pending[r.port].target
  }

  ghost predicate Lists(s: State, r: Rule) {
    Adds(s, r) || exists vm :: vm in s.infos && Has(s.infos[vm], r)
  }

  ghost predicate RuleMatches(s: State, r: Rule) {
    s.rules[r] == if Lists(s, r) then 1 else 0
  }

  // The rules that stand are those of every VM's ports and of every publish that has added its own, each once.
  ghost predicate RulesMatch(s: State) { forall r :: RuleMatches(s, r) }

  // The VM's port and its rule come apart in a recovery.
  predicate Parts(s: State, f: RestartFaults, vm: Vm, p: Port)
    requires vm in s.infos
  {
    if Serving(s.infos[vm]) then p !in f.failed || p in f.dropped
    else p in f.left <==> vm !in f.uncleared
  }

  /** The moves that take rules and ports apart: a removal without effect where the record goes, a record that
      stays where the rule goes, a start on another subnet of a VM that still lists ports, and a restart that
      does either to some port, that adds a second rule for a port that is served, or that cuts a publish short
      between adding its rule and writing it down. */
  predicate Misrules(s: State, m: Move) {
    match m
    case Undo(_, kept) => kept
    case Unpublish(vm, p, kept, fault) => vm in s.infos && p in s.infos[vm].ports && kept != fault
    case Stop(vm, left, fault) => vm in s.infos && exists p :: p in s.infos[vm].ports && (p in left) != fault
    case Start(vm, subnet) => vm in s.infos && s.infos[vm].ports != map[] && subnet != s.infos[vm].subnet
    case Restart(f) =>
      || (exists p :: p in s.pending && s.pending[p].Ruled?)
      || (exists vm, p :: vm in s.infos && p in s.infos[vm].ports && Parts(s, f, vm, p))
    case _ => false
  }

  function RuleOf(i: Info, p: Port): Rule
    requires p in i.ports
  {
    Rule(p, i.subnet, i.ports[p])
  }

  lemma RulesOfOne(i: Info, ports: set<Port>, r: Rule)
    requires ports <= i.ports.Keys
    ensures RulesOf(i, ports)[r] == if r.port in ports && Has(i, r) then 1 else 0
  {
    var rules := set p | p in ports :: Rule(p, i.subnet, i.ports[p]);
    assert r in rules <==> r.port in ports && Has(i, r);
  }

  // Two VMs have no rule in common, nor a VM and a publish.
  lemma OneOwner(s: State, v: Vm, w: Vm, r: Rule)
    requires Disjoint(s) && v in s.infos && w in s.infos && Has(s.infos[v], r) && r.port in s.infos[w].ports
    ensures v == w
  {}

  lemma NotPending(s: State, vm: Vm, p: Port)
    requires Marked(s) && vm in s.infos && p in s.infos[vm].ports
    ensures p !in s.pending && p in s.used && s.infos[vm].tap
  {}

  // ---- one rule under each move ----

  lemma SameLists(s: State, s': State, r: Rule)
    requires s'.infos.Keys == s.infos.Keys && (Adds(s', r) <==> Adds(s, r))
    requires forall v :: v in s.infos ==> (Has(s'.infos[v], r) <==> Has(s.infos[v], r))
    ensures Lists(s', r) <==> Lists(s, r)
  {
    if v :| v in s.infos && Has(s.infos[v], r) { assert Has(s'.infos[v], r); }
    if v :| v in s'.infos && Has(s'.infos[v], r) { assert Has(s.infos[v], r); }
  }

  // A port with a publish under way is in no VM's list.
  lemma Unlisted(s: State, p: Port, r: Rule)
    requires Marked(s) && p in s.pending && r.port == p
    ensures Lists(s, r) <==> Adds(s, r)
  {
    forall v | v in s.infos ensures p !in s.infos[v].ports { if p in s.infos[v].ports { NotPending(s, v, p); } }
  }

  lemma PendingMatches(s: State, m: Move, r: Rule)
    requires Owned(s) && RulesMatch(s) && Enabled(s, m) && !Misrules(s, m)
    requires m.Alloc? || m.Abort? || m.Refuse? || m.AddRule? || m.Undo?
    ensures RuleMatches(Next(s, m), r)
  {
    assert RuleMatches(s, r);
    if r.port != m.p {
      OtherPort(s, m, r);
    } else {
      forall v | v in s.infos ensures m.p !in s.infos[v].ports { if m.p in s.infos[v].ports { NotPending(s, v, m.p); } }
      OwnPort(s, m, r);
    }
  }

  lemma OtherPort(s: State, m: Move, r: Rule)
    requires RuleMatches(s, r) && Enabled(s, m)
    requires (m.Alloc? || m.Abort? || m.Refuse? || m.AddRule? || m.Undo?) && r.port != m.p
    ensures RuleMatches(Next(s, m), r)
  {
    OtherFacts(s, m, r);
    SameLists(s, Next(s, m), r);
  }

  lemma OtherFacts(s: State, m: Move, r: Rule)
    requires Enabled(s, m)
    requires (m.Alloc? || m.Abort? || m.Refuse? || m.AddRule? || m.Undo?) && r.port != m.p
    ensures var s' := Next(s, m);
      s'.infos == s.infos && s'.rules[r] == s.rules[r] && (Adds(s', r) <==> Adds(s, r))
  {
    match m
    case Alloc(_) =>
    case Abort(_) =>
    case Refuse(_, _, _) =>
    case AddRule(_, _, _) =>
    case Undo(_, _) =>
  }

  lemma OwnPort(s: State, m: Move, r: Rule)
    requires Marked(s) && RuleMatches(s, r) && Enabled(s, m) && !Misrules(s, m)
    requires (m.Alloc? || m.Abort? || m.Refuse? || m.AddRule? || m.Undo?) && r.port == m.p
    requires forall v :: v in s.infos ==> m.p !in s.infos[v].ports
    ensures RuleMatches(Next(s, m), r)
  {
    assert m.Alloc? ==> m.p !in s.pending.Keys;
    assert Lists(s, r) <==> Adds(s, r);
    assert Lists(Next(s, m), r) <==> Adds(Next(s, m), r);
  }

  lemma CommitMatches(s: State, p: Port, r: Rule)
    requires Owned(s) && RulesMatch(s) && Enabled(s, Commit(p))
    ensures RuleMatches(Next(s, Commit(p)), r)
  {
    var s' := Next(s, Commit(p));
    var vm := s.pending[p].vm;
    assert RuleMatches(s, r);
    if r.port != p {
      SameLists(s, s', r);
    } else {
      Unlisted(s, p, r);
      forall v | v in s'.infos && v != vm ensures !Has(s'.infos[v], r) {
        if p in s.infos[v].ports { NotPending(s, v, p); }
      }
      assert Has(s'.infos[vm], r) <==> Adds(s, r);
    }
  }

  lemma UnpublishMatches(s: State, m: Move, r: Rule)
    requires Owned(s) && RulesMatch(s) && m.Unpublish? && Enabled(s, m) && !Misrules(s, m)
    ensures RuleMatches(Next(s, m), r)
  {
    var s' := Next(s, m);
    assert RuleMatches(s, r);
    if m.p !in s.infos[m.vm].ports || m.kept || r.port != m.p {
      if m.p in s.infos[m.vm].ports { RulesOfOne(s.infos[m.vm], {m.p}, r); }
      SameLists(s, s', r);
    } else {
      RulesOfOne(s.infos[m.vm], {m.p}, r);
      GoneAfter(s, s', m.vm, r);
    }
  }

  // The VM lists the rule's port no longer, and no other ever did.
  lemma GoneAfter(s: State, s': State, vm: Vm, r: Rule)
    requires Owned(s) && vm in s.infos && r.port in s.infos[vm].ports
    requires s'.pending == s.pending && vm in s'.infos && r.port !in s'.infos[vm].ports && s'.infos.Keys == s.infos.Keys
    requires forall v :: v in s.infos && v != vm ==> s'.infos[v] == s.infos[v]
    ensures !Lists(s', r) && (Lists(s, r) <==> Has(s.infos[vm], r))
  {
    NotPending(s, vm, r.port);
    forall v | v in s.infos && v != vm ensures !Has(s.infos[v], r) { if Has(s.infos[v], r) { OneOwner(s, v, vm, r); } }
  }

  lemma StopMatches(s: State, m: Move, r: Rule)
    requires Owned(s) && RulesMatch(s) && m.Stop? && Enabled(s, m) && !Misrules(s, m)
    ensures RuleMatches(Next(s, m), r)
  {
    assert RuleMatches(s, r);
    if r.port in s.infos[m.vm].ports {
      assert (r.port in m.left) == m.fault;
      StopOwnRule(s, m, r);
    } else {
      StopOtherRule(s, m, r);
    }
  }

  lemma StopOtherRule(s: State, m: Move, r: Rule)
    requires RuleMatches(s, r) && m.Stop? && Enabled(s, m) && r.port !in s.infos[m.vm].ports
    ensures RuleMatches(Next(s, m), r)
  {
    RulesOfOne(s.infos[m.vm], s.infos[m.vm].ports.Keys - m.left, r);
    SameLists(s, Next(s, m), r);
  }

  lemma StopOwnRule(s: State, m: Move, r: Rule)
    requires Owned(s) && RuleMatches(s, r) && m.Stop? && Enabled(s, m)
    requires r.port in s.infos[m.vm].ports && (r.port in m.left) == m.fault
    ensures RuleMatches(Next(s, m), r)
  {
    var s' := Next(s, m);
    RulesOfOne(s.infos[m.vm], s.infos[m.vm].ports.Keys - m.left, r);
    NotPending(s, m.vm, r.port);
    if m.fault { SameLists(s, s', r); } else { GoneAfter(s, s', m.vm, r); }
  }

  lemma StartMatches(s: State, m: Move, r: Rule)
    requires RulesMatch(s) && m.Start? && Enabled(s, m) && !Misrules(s, m)
    ensures RuleMatches(Next(s, m), r)
  {
    assert RuleMatches(s, r);
    assert Has(Next(s, m).infos[m.vm], r) <==> Has(s.infos[m.vm], r);
    SameLists(s, Next(s, m), r);
  }

  lemma DestroyMatches(s: State, vm: Vm, r: Rule)
    requires RulesMatch(s) && Enabled(s, Destroy(vm))
    ensures RuleMatches(Next(s, Destroy(vm)), r)
  {
    var s' := Next(s, Destroy(vm));
    assert RuleMatches(s, r);
    if v :| v in s.infos && Has(s.infos[v], r) { assert v in s'.infos && Has(s'.infos[v], r); }
  }

  lemma CreateMatches(s: State, vm: Vm, r: Rule)
    requires RulesMatch(s) && Enabled(s, Create(vm))
    ensures RuleMatches(Next(s, Create(vm)), r)
  {
    var s' := Next(s, Create(vm));
    assert RuleMatches(s, r);
    if v :| v in s.infos && Has(s.infos[v], r) { assert v in s'.infos && Has(s'.infos[v], r); }
  }

  // ---- one rule under a restart ----

  function Less(n: nat): nat { if n > 0 then n - 1 else 0 }

  // What a recovery makes of the count of a rule that this VM has.
  function RecoveredCount(i: Info, f: RestartFaults, r: Rule, n: nat): nat {
    if i.alive then
      if r.port in f.dropped then Less(n) else if r.port in f.failed then n else n + 1
    else if r.port in f.left then n else Less(n)
  }

  lemma RestartRule(s: State, f: RestartFaults, vm: Vm, r: Rule)
    requires Disjoint(s) && Marked(s) && vm in s.infos && Has(s.infos[vm], r)
    ensures Next(s, Restart(f)).rules[r] == RecoveredCount(s.infos[vm], f, r, s.rules[r])
  {
    ServedBy(s, vm, true, r);
    ServedBy(s, vm, false, r);
    if s.infos[vm].alive { LiveRule(s, f, r); } else { DeadRule(s, f, r); }
  }

  lemma LiveRule(s: State, f: RestartFaults, r: Rule)
    requires r in ServedRules(s, true) && r !in ServedRules(s, false)
    ensures var n := s.rules[r];
      Next(s, Restart(f)).rules[r] == if r.port in f.dropped then Less(n) else if r.port in f.failed then n else n + 1
  {
    RecoveredRule(s, f, r);
  }

  lemma DeadRule(s: State, f: RestartFaults, r: Rule)
    requires r !in ServedRules(s, true) && r in ServedRules(s, false)
    ensures var n := s.rules[r];
      Next(s, Restart(f)).rules[r] == if r.port in f.left then n else Less(n)
  {
    RecoveredRule(s, f, r);
  }

  lemma RecoveredRule(s: State, f: RestartFaults, r: Rule)
    requires !(r in ServedRules(s, true) && r in ServedRules(s, false))
    ensures var n := s.rules[r];
      RecoveredRules(s, f)[r] ==
        if r in ServedRules(s, true) then
          if r.port in f.dropped then Less(n) else if r.port in f.failed then n else n + 1
        else if r in ServedRules(s, false) && r.port !in f.left then Less(n) else n
  {
    var live, dead := ServedRules(s, true), ServedRules(s, false);
    CountOf(s.rules, Without(live, f.failed + f.dropped), live - Without(live, f.dropped), Without(dead, f.left), r);
  }

  lemma CountOf(rules: multiset<Rule>, added: set<Rule>, rolled: set<Rule>, removed: set<Rule>, r: Rule)
    requires !(r in added && r in rolled) && !(r in added && r in removed) && !(r in rolled && r in removed)
    ensures (rules + multiset(added) - multiset(rolled) - multiset(removed))[r] ==
            if r in added then rules[r] + 1 else if r in rolled || r in removed then Less(rules[r]) else rules[r]
  {
    assert multiset(added)[r] == if r in added then 1 else 0;
    assert multiset(rolled)[r] == if r in rolled then 1 else 0;
    assert multiset(removed)[r] == if r in removed then 1 else 0;
  }

  lemma ServedBy(s: State, vm: Vm, alive: bool, r: Rule)
    requires Disjoint(s) && Marked(s) && vm in s.infos && Has(s.infos[vm], r)
    ensures r in ServedRules(s, alive) <==> s.infos[vm].alive == alive
  {
    NotPending(s, vm, r.port);
    if s.infos[vm].alive == alive { assert r == RuleOf(s.infos[vm], r.port); }
    forall v | v in s.infos && r.port in s.infos[v].ports ensures v == vm { OneOwner(s, vm, v, r); }
  }

  lemma Unserved(s: State, r: Rule)
    requires forall v :: v in s.infos ==> !Has(s.infos[v], r)
    ensures r !in ServedRules(s, true) && r !in ServedRules(s, false)
  {
    forall v | v in s.infos && r.port in s.infos[v].ports ensures r != RuleOf(s.infos[v], r.port) {
      assert !Has(s.infos[v], r);
    }
  }

  // Who lists a rule after a restart: the VM that had it, if its record was not cleared.
  lemma RestartLists(s: State, f: RestartFaults, vm: Vm, r: Rule)
    requires Disjoint(s) && Marked(s) && vm in s.infos && Has(s.infos[vm], r)
    ensures Lists(Next(s, Restart(f)), r) <==> s.infos[vm].alive || vm in f.uncleared
  {
    var s' := Next(s, Restart(f));
    NotPending(s, vm, r.port);
    assert Has(s'.infos[vm], r) <==> s.infos[vm].alive || vm in f.uncleared;
    forall v | v in s'.infos && v != vm ensures !Has(s'.infos[v], r) {
      if r.port in s.infos[v].ports { OneOwner(s, vm, v, r); }
    }
  }

  lemma RestartMatches(s: State, f: RestartFaults, r: Rule)
    requires Owned(s) && RulesMatch(s) && !Misrules(s, Restart(f))
    ensures RuleMatches(Next(s, Restart(f)), r)
  {
    assert RuleMatches(s, r);
    if vm :| vm in s.infos && Has(s.infos[vm], r) {
      NotPending(s, vm, r.port);
      assert !Parts(s, f, vm, r.port);
      RestartRule(s, f, vm, r);
      RestartLists(s, f, vm, r);
    } else {
      Unserved(s, r);
      NoneLists(s, f, r);
    }
  }

  lemma NoneLists(s: State, f: RestartFaults, r: Rule)
    requires forall v :: v in s.infos ==> !Has(s.infos[v], r)
    ensures !Lists(Next(s, Restart(f)), r)
  {
    var s' := Next(s, Restart(f));
    forall v | v in s'.infos ensures !Has(s'.infos[v], r) { assert !Has(s.infos[v], r); }
  }

  // ---- the moves that take them apart ----

  lemma MisrulesBreak(s: State, m: Move)
    requires Owned(s) && RulesMatch(s) && Enabled(s, m) && Misrules(s, m)
    ensures !RulesMatch(Next(s, m))
  {
    match m
    case Undo(p, _) => OrphanStands(s, p, m);
    case Unpublish(vm, p, kept, _) => if kept { RuleStays(s, vm, p, m); } else { RecordStays(s, vm, p, m); }
    case Stop(vm, left, fault) =>
      var p :| p in s.infos[vm].ports && (p in left) != fault;
      if fault { RecordStays(s, vm, p, m); } else { RuleStays(s, vm, p, m); }
    case Start(vm, subnet) =>
      var p := SomeElement(s.infos[vm].ports.Keys);
      StaleRule(s, vm, p, subnet);
    case Restart(f) =>
      if p :| p in s.pending && s.pending[p].Ruled? {
        OrphanStands(s, p, m);
      } else {
        var vm, p :| vm in s.infos && p in s.infos[vm].ports && Parts(s, f, vm, p);
        RestartParts(s, f, vm, p);
      }
  }

  // A publish that is given up, or forgotten, with its rule standing.
  lemma OrphanStands(s: State, p: Port, m: Move)
    requires Owned(s) && RulesMatch(s) && p in s.pending && s.pending[p].Ruled?
    requires m == Undo(p, true) || m.Restart?
    ensures var r := Rule(p, s.pending[p].subnet, s.pending[p].target);
      Next(s, m).rules[r] == 1 && !Lists(Next(s, m), r) && p !in Next(s, m).used && !RuleMatches(Next(s, m), r)
  {
    var r := Rule(p, s.pending[p].subnet, s.pending[p].target);
    assert RuleMatches(s, r) && Adds(s, r);
    forall v | v in s.infos ensures p !in s.infos[v].ports { if p in s.infos[v].ports { NotPending(s, v, p); } }
    if m.Restart? { RestartForgets(s, m.f, r); } else { UndoForgets(s, p, r); }
  }

  lemma UndoForgets(s: State, p: Port, r: Rule)
    requires Enabled(s, Undo(p, true)) && r.port == p && forall v :: v in s.infos ==> p !in s.infos[v].ports
    ensures var s' := Next(s, Undo(p, true)); s'.rules == s.rules && !Lists(s', r) && p !in s'.used
  {}

  lemma RestartForgets(s: State, f: RestartFaults, r: Rule)
    requires forall v :: v in s.infos ==> r.port !in s.infos[v].ports
    ensures var s' := Next(s, Restart(f)); s'.rules[r] == s.rules[r] && !Lists(s', r) && r.port !in s'.used
  {
    Unserved(s, r);
    NoneLists(s, f, r);
    RecoveredRule(s, f, r);
  }

  // The removal has no effect and the record goes.
  lemma RuleStays(s: State, vm: Vm, p: Port, m: Move)
    requires Owned(s) && RulesMatch(s) && vm in s.infos && p in s.infos[vm].ports && Enabled(s, m)
    requires m == Unpublish(vm, p, true, false) || (m.Stop? && m.vm == vm && p in m.left && !m.fault)
    ensures var r := RuleOf(s.infos[vm], p);
      Next(s, m).rules[r] == 1 && !Lists(Next(s, m), r) && p !in Next(s, m).used && !RuleMatches(Next(s, m), r)
  {
    var r := RuleOf(s.infos[vm], p);
    assert RuleMatches(s, r) && Has(s.infos[vm], r);
    NotPending(s, vm, p);
    if m.Stop? { RulesOfOne(s.infos[vm], s.infos[vm].ports.Keys - m.left, r); }
    GoneAfter(s, Next(s, m), vm, r);
  }

  // The rule goes and the record stays.
  lemma RecordStays(s: State, vm: Vm, p: Port, m: Move)
    requires Owned(s) && RulesMatch(s) && vm in s.infos && p in s.infos[vm].ports && Enabled(s, m)
    requires m == Unpublish(vm, p, false, true) || (m.Stop? && m.vm == vm && p !in m.left && m.fault)
    ensures var r := RuleOf(s.infos[vm], p);
      Next(s, m).rules[r] == 0 && Lists(Next(s, m), r) && !RuleMatches(Next(s, m), r)
  {
    var r := RuleOf(s.infos[vm], p);
    assert RuleMatches(s, r) && Has(s.infos[vm], r);
    NotPending(s, vm, p);
    RulesOfOne(s.infos[vm], if m.Stop? then s.infos[vm].ports.Keys - m.left else {p}, r);
    assert Has(Next(s, m).infos[vm], r);
  }

  // The VM's ports now stand for rules on the new subnet; those on the old one are nobody's.
  lemma StaleRule(s: State, vm: Vm, p: Port, subnet: int)
    requires Owned(s) && RulesMatch(s) && Enabled(s, Start(vm, subnet))
    requires p in s.infos[vm].ports && subnet != s.infos[vm].subnet
    ensures var r := RuleOf(s.infos[vm], p);
      var s' := Next(s, Start(vm, subnet));
      s'.rules[r] == 1 && !Lists(s', r) && !RuleMatches(s', r)
  {
    var r := RuleOf(s.infos[vm], p);
    var s' := Next(s, Start(vm, subnet));
    assert RuleMatches(s, r) && Has(s.infos[vm], r);
    NotPending(s, vm, p);
    forall v | v in s'.infos ensures !Has(s'.infos[v], r) {
      if v != vm && p in s.infos[v].ports { OneOwner(s, vm, v, r); }
    }
  }

  lemma RestartParts(s: State, f: RestartFaults, vm: Vm, p: Port)
    requires Owned(s) && RulesMatch(s) && vm in s.infos && p in s.infos[vm].ports && Parts(s, f, vm, p)
    ensures !RuleMatches(Next(s, Restart(f)), RuleOf(s.infos[vm], p))
  {
    var r := RuleOf(s.infos[vm], p);
    assert RuleMatches(s, r) && Has(s.infos[vm], r);
    NotPending(s, vm, p);
    RestartRule(s, f, vm, r);
    RestartLists(s, f, vm, r);
  }

  // ---- the theorems ----

  /** A step, with any call failing or without effect, and a death of the daemon at any point included, keeps
      rules and ports together if and only if it is not one of those moves. */
  lemma NextRules(s: State, m: Move)
    requires Owned(s) && RulesMatch(s) && Enabled(s, m)
    ensures RulesMatch(Next(s, m)) <==> !Misrules(s, m)
  {
    if Misrules(s, m) {
      MisrulesBreak(s, m);
    } else {
      forall r ensures RuleMatches(Next(s, m), r) { NextMatches(s, m, r); }
    }
  }

  lemma NextMatches(s: State, m: Move, r: Rule)
    requires Owned(s) && RulesMatch(s) && Enabled(s, m) && !Misrules(s, m)
    ensures RuleMatches(Next(s, m), r)
  {
    match m
    case Commit(p) => CommitMatches(s, p, r);
    case Unpublish(_, _, _, _) => UnpublishMatches(s, m, r);
    case Create(vm) => CreateMatches(s, vm, r);
    case Start(_, _) => StartMatches(s, m, r);
    case Die(vm) => DieMatches(s, vm, r);
    case Stop(_, _, _) => StopMatches(s, m, r);
    case Destroy(vm) => DestroyMatches(s, vm, r);
    case Restart(f) => RestartMatches(s, f, r);
    case _ => PendingMatches(s, m, r);
  }

  lemma DieMatches(s: State, vm: Vm, r: Rule)
    requires RulesMatch(s) && Enabled(s, Die(vm))
    ensures RuleMatches(Next(s, Die(vm)), r)
  {
    assert RuleMatches(s, r);
    SameLists(s, Next(s, Die(vm)), r);
  }

  /** Over any run without those moves and without a move that gives up a port somebody owns, each port and each
      publish that got so far has its one rule, and no rule stands for a port that is not in use. */
  lemma {:induction false} RunRules(ss: seq<State>, ms: seq<Move>, i: nat)
    requires IsRun(ss, ms) && i < |ss| && ss[0] == INITIAL
    requires forall j {:trigger ms[j]} :: 0 <= j < i ==> !Frees(ss[j], ms[j]) && !Misrules(ss[j], ms[j])
    ensures Owned(ss[i]) && RulesMatch(ss[i])
    ensures forall r :: r in ss[i].rules ==> r.port in ss[i].used
  {
    if i == 0 {
      forall r ensures RuleMatches(ss[0], r) {}
    } else {
      RunRules(ss, ms, i - 1);
      var s, m := ss[i - 1], ms[i - 1];
      assert Enabled(s, m) && ss[i] == Next(s, m) && !Frees(s, m) && !Misrules(s, m);
      NextOwned(s, m);
      NextRules(s, m);
    }
    forall r | r in ss[i].rules ensures r.port in ss[i].used { RuleIsUsed(ss[i], r); }
  }

  lemma RuleIsUsed(s: State, r: Rule)
    requires Owned(s) && RulesMatch(s) && r in s.rules
    ensures r.port in s.used
  {
    assert RuleMatches(s, r);
    if !Adds(s, r) {
      var vm :| vm in s.infos && Has(s.infos[vm], r);
      NotPending(s, vm, r.port);
    }
  }

  // ---- what is left behind ----

  /** How many rules of a served port are left by a restart and an unpublish after it, whatever the two fail at:
      the re-add raises what stood before by one, leaves it, or lowers it; the removal lowers it or leaves it. */
  lemma RestartThenUnpublish(s: State, vm: Vm, p: Port, f: RestartFaults, kept: bool)
    requires Owned(s) && vm in s.infos && Serving(s.infos[vm]) && p in s.infos[vm].ports
    ensures var r := RuleOf(s.infos[vm], p);
      var t := Next(s, Restart(f));
      && Enabled(t, Unpublish(vm, p, kept, false))
      && var u := Next(t, Unpublish(vm, p, kept, false));
         var stood := RecoveredCount(s.infos[vm], f, r, s.rules[r]);
         p !in u.used && u.rules[r] == if kept then stood else Less(stood)
  {
    var r := RuleOf(s.infos[vm], p);
    RestartRule(s, f, vm, r);
    AfterRestart(s, f, vm);
    UnpublishCount(Next(s, Restart(f)), vm, p, kept);
  }

  lemma AfterRestart(s: State, f: RestartFaults, vm: Vm)
    requires vm in s.infos && Serving(s.infos[vm])
    ensures var t := Next(s, Restart(f)); vm in t.infos && t.infos[vm] == s.infos[vm] && t.pending == map[]
  {}

  lemma UnpublishCount(s: State, vm: Vm, p: Port, kept: bool)
    requires vm in s.infos && p in s.infos[vm].ports && !Locked(s, vm)
    ensures var r := RuleOf(s.infos[vm], p);
      var t := Next(s, Unpublish(vm, p, kept, false));
      t.rules[r] == (if kept then s.rules[r] else Less(s.rules[r])) && p !in t.used
  {
    RulesOfOne(s.infos[vm], {p}, RuleOf(s.infos[vm], p));
  }

  /** A VM that dies with a port and is started on another subnet: the unpublish takes away the rule on the
      new subnet, which is not there, and leaves the one on the old. */
  lemma MovedVmLeavesRule(s: State, vm: Vm, p: Port, subnet: int)
    requires Owned(s) && RulesMatch(s) && vm in s.infos && p in s.infos[vm].ports && subnet != s.infos[vm].subnet
    requires !Locked(s, vm)
    ensures var r := RuleOf(s.infos[vm], p);
      var dead := Next(s, Die(vm));
      && Enabled(dead, Start(vm, subnet))
      && var moved := Next(dead, Start(vm, subnet));
         && Enabled(moved, Unpublish(vm, p, false, false))
         && var t := Next(moved, Unpublish(vm, p, false, false));
            t.rules[r] == 1 && p !in t.used
  {
    var dead := Next(s, Die(vm));
    assert dead.pending == s.pending && !Locked(dead, vm);
    NextOwned(s, Die(vm));
    NextRules(s, Die(vm));
    StaleRule(dead, vm, p, subnet);
    var moved := Next(dead, Start(vm, subnet));
    assert moved.pending == s.pending && !Locked(moved, vm);
    RulesOfOne(moved.infos[vm], {p}, RuleOf(s.infos[vm], p));
  }

  // ---- these moves happen ----

  const PORT := 40000
  const FINE := RestartFaults({}, {}, {}, {})
  const LIVE := Info(map[PORT := 80], true, true, 5)
  const STARTED := INITIAL.(infos := map[0 := Info(map[], true, true, 5)], cache := map[0 := map[]])
  const RULED := STARTED.(used := {PORT}, pending := map[PORT := Ruled(0, 5, 80)], rules := multiset{Rule(PORT, 5, 80)})
  const PUBLISHED := State({PORT}, map[], map[0 := LIVE], map[0 := map[PORT := 80]], multiset{Rule(PORT, 5, 80)})

  function Worlds(): seq<State> {
    var created := INITIAL.(infos := map[0 := Info(map[], false, false, 0)]);
    [INITIAL, created, STARTED, STARTED.(used := {PORT}, pending := map[PORT := Taken]), RULED, PUBLISHED]
  }

  function Moves(): seq<Move> {
    [Create(0), Start(0, 5), Alloc(PORT), AddRule(PORT, 0, 80), Commit(PORT)]
  }

  lemma OneMove(i: nat)
    requires i < 5
    ensures Enabled(Worlds()[i], Moves()[i]) && Worlds()[i + 1] == Next(Worlds()[i], Moves()[i])
  {
    FirstMoves();
    MiddleMoves();
    LastMove();
    if i == 0 {
      assert Moves()[0] == Create(0) && Worlds()[0] == INITIAL;
    } else if i == 1 {
      assert Moves()[1] == Start(0, 5) && Worlds()[2] == STARTED;
    } else if i == 2 {
      assert Moves()[2] == Alloc(PORT) && Worlds()[2] == STARTED;
    } else if i == 3 {
      assert Moves()[3] == AddRule(PORT, 0, 80) && Worlds()[4] == RULED;
    } else {
      assert Moves()[4] == Commit(PORT) && Worlds()[4] == RULED && Worlds()[5] == PUBLISHED;
    }
  }

  lemma PlainMove(i: nat)
    requires i < 5
    ensures !Frees(Worlds()[i], Moves()[i]) && !Misrules(Worlds()[i], Moves()[i])
  {}

  lemma FirstMoves()
    ensures Enabled(INITIAL, Create(0)) && Worlds()[1] == Next(INITIAL, Create(0))
    ensures Enabled(Worlds()[1], Start(0, 5)) && Next(Worlds()[1], Start(0, 5)) == STARTED
    ensures Worlds()[1].infos[0].ports == map[]
  {
    assert Next(INITIAL, Create(0)).infos == Worlds()[1].infos;
  }

  lemma MiddleMoves()
    ensures Enabled(STARTED, Alloc(PORT)) && Worlds()[3] == Next(STARTED, Alloc(PORT))
    ensures Enabled(Worlds()[3], AddRule(PORT, 0, 80)) && Next(Worlds()[3], AddRule(PORT, 0, 80)) == RULED
  {
    var ruled := Next(Worlds()[3], AddRule(PORT, 0, 80));
    assert ruled.pending == RULED.pending && ruled.rules == RULED.rules;
  }

  lemma LastMove()
    ensures Enabled(RULED, Commit(PORT)) && Next(RULED, Commit(PORT)) == PUBLISHED
  {
    var s' := Next(RULED, Commit(PORT));
    assert s'.infos == PUBLISHED.infos && s'.cache == PUBLISHED.cache && s'.pending == PUBLISHED.pending;
  }

  // A VM created, started on subnet 5 and published: a run from the start without any failure.
  lemma Publishes()
    ensures IsRun(Worlds(), Moves()) && Worlds()[0] == INITIAL && Worlds()[4] == RULED && Worlds()[5] == PUBLISHED
    ensures Owned(RULED) && RulesMatch(RULED) && Owned(PUBLISHED) && RulesMatch(PUBLISHED)
  {
    forall i {:trigger Moves()[i]} | 0 <= i < 5
      ensures Enabled(Worlds()[i], Moves()[i]) && Worlds()[i + 1] == Next(Worlds()[i], Moves()[i])
      ensures !Frees(Worlds()[i], Moves()[i]) && !Misrules(Worlds()[i], Moves()[i])
    {
      OneMove(i);
      PlainMove(i);
    }
    RunRules(Worlds(), Moves(), 4);
    RunRules(Worlds(), Moves(), 5);
  }

  /** The exceptions to ownership, one and two moves after that run: a stop, or a restart after the process
      has died, that cannot write the cleared record. */
  lemma PortsAreFreed()
    ensures var m := Stop(0, {}, true); Enabled(PUBLISHED, m) && !Owned(Next(PUBLISHED, m))
    ensures Enabled(PUBLISHED, Die(0))
    ensures var dead := Next(PUBLISHED, Die(0));
      Owned(dead) && !Owned(Next(dead, Restart(FINE.(uncleared := {0}))))
  {
    Publishes();
    assert PORT in LIVE.ports;
    NextOwned(PUBLISHED, Stop(0, {}, true));
    NextOwned(PUBLISHED, Die(0));
    var dead := Next(PUBLISHED, Die(0));
    assert 0 in dead.infos && PORT in dead.infos[0].ports && !Serving(dead.infos[0]);
    NextOwned(dead, Restart(FINE.(uncleared := {0})));
  }

  /** And the exceptions to the rules: an unpublish whose removal or whose write does nothing, a restart whose
      re-add works; a death of the daemon, or a failed write and removal, between adding a rule and writing it
      down; a start on another subnet. A restart whose re-add fails without effect is none. */
  lemma RulesComeApart()
    ensures var m := Unpublish(0, PORT, true, false); Enabled(PUBLISHED, m) && !RulesMatch(Next(PUBLISHED, m))
    ensures var m := Unpublish(0, PORT, false, true); Enabled(PUBLISHED, m) && !RulesMatch(Next(PUBLISHED, m))
    ensures !RulesMatch(Next(PUBLISHED, Restart(FINE)))
    ensures RulesMatch(Next(PUBLISHED, Restart(FINE.(failed := {PORT}))))
    ensures !RulesMatch(Next(RULED, Restart(FINE)))
    ensures Enabled(RULED, Undo(PORT, true)) && !RulesMatch(Next(RULED, Undo(PORT, true)))
    ensures Enabled(PUBLISHED, Die(0))
    ensures var dead := Next(PUBLISHED, Die(0)); Enabled(dead, Start(0, 6)) && !RulesMatch(Next(dead, Start(0, 6)))
  {
    UnpublishApart(true);
    UnpublishApart(false);
    RestartApart();
    PublishApart();
    MovedApart();
  }

  lemma UnpublishApart(kept: bool)
    ensures var m := Unpublish(0, PORT, kept, !kept); Enabled(PUBLISHED, m) && !RulesMatch(Next(PUBLISHED, m))
  {
    Publishes();
    assert PORT in PUBLISHED.infos[0].ports;
    NextRules(PUBLISHED, Unpublish(0, PORT, kept, !kept));
  }

  lemma RestartApart()
    ensures !RulesMatch(Next(PUBLISHED, Restart(FINE)))
    ensures RulesMatch(Next(PUBLISHED, Restart(FINE.(failed := {PORT}))))
  {
    Publishes();
    assert PORT in PUBLISHED.infos[0].ports && Parts(PUBLISHED, FINE, 0, PORT);
    NextRules(PUBLISHED, Restart(FINE));
    FailedReaddKeeps();
  }

  lemma FailedReaddKeeps()
    ensures RulesMatch(Next(PUBLISHED, Restart(FINE.(failed := {PORT}))))
  {
    var f := FINE.(failed := {PORT});
    Publishes();
    forall p | p in PUBLISHED.infos[0].ports ensures !Parts(PUBLISHED, f, 0, p) {}
    NextRules(PUBLISHED, Restart(f));
  }

  lemma PublishApart()
    ensures !RulesMatch(Next(RULED, Restart(FINE)))
    ensures Enabled(RULED, Undo(PORT, true)) && !RulesMatch(Next(RULED, Undo(PORT, true)))
  {
    Publishes();
    assert PORT in RULED.pending;
    NextRules(RULED, Restart(FINE));
    NextRules(RULED, Undo(PORT, true));
  }

  lemma MovedApart()
    ensures Enabled(PUBLISHED, Die(0))
    ensures var dead := Next(PUBLISHED, Die(0)); Enabled(dead, Start(0, 6)) && !RulesMatch(Next(dead, Start(0, 6)))
  {
    Publishes();
    NextOwned(PUBLISHED, Die(0));
    NextRules(PUBLISHED, Die(0));
    var dead := Next(PUBLISHED, Die(0));
    assert dead.infos[0].ports == LIVE.ports && PORT in LIVE.ports;
    NextRules(dead, Start(0, 6));
  }
}
