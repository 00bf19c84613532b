/** Who owns which host port: the allocator's used set, every VM's vminfo, the cached copies and the
    forwarding rules. A publish takes its port before it has the VM's lock, so publishes interleave. */
module PortOwnership {
  import opened Common

  type Port = int
  type Vm = nat

  // The fields of vminfo that matter here; `tap` says that a tap device is set.
  datatype Info = Info(ports: map<Port, int>, alive: bool, tap: bool, subnet: int)

  datatype Rule = Rule(port: Port, subnet: int, target: int)

  // A publish under way: it has its port, or has also locked the VM and added the rule.
  datatype Publish = Taken | Ruled(vm: Vm, subnet: int, target: int)

  datatype State = State(
    used: set<Port>,
    pending: map<Port, Publish>,
    infos: map<Vm, Info>,
    cache: map<Vm, map<Port, int>>,
    rules: multiset<Rule>)

  /** What goes wrong in a recovery. Adding a rule rolls back when it fails, and the rollback removes a rule
      that stood before (`dropped`) or has no effect (`failed`). Removing one never reports a failure. */
  datatype RestartFaults = RestartFaults(
    uncleared: set<Vm>,      // writing the cleared record of these dead VMs fails
    left: set<Port>,         // removing the rules of these ports has no effect
    failed: set<Port>,
    dropped: set<Port>)

  // `kept` says that removing the rule has no effect and `fault` that writing vminfo fails.
  datatype Move =
    | Alloc(p: Port)
    | Abort(p: Port)                               // a publish fails before it tries to add its rule
    | Refuse(p: Port, vm: Vm, target: int)         // adding it fails, and the rollback removes one
    | AddRule(p: Port, vm: Vm, target: int)
    | Commit(p: Port)
    | Undo(p: Port, kept: bool)                    // writing vminfo fails
    | Unpublish(vm: Vm, p: Port, kept: bool, fault: bool)
    | Create(vm: Vm)
    | Start(vm: Vm, subnet: int)
    | Die(vm: Vm)                                  // the process exits by itself
    | Stop(vm: Vm, left: set<Port>, fault: bool)   // the rules of `left` stay
    | Destroy(vm: Vm)
    | Restart(f: RestartFaults)                    // the daemon dies, at any time, and is started again

  function RulesOf(i: Info, ports: set<Port>): multiset<Rule>
    requires ports <= i.ports.Keys
  {
    multiset(set p | p in ports :: Rule(p, i.subnet, i.ports[p]))
  }

  predicate Serving(i: Info) { i.alive && i.tap }

  // A publish holds the VM's file lock.
  predicate Locked(s: State, vm: Vm) {
    exists p :: p in s.pending && s.pending[p].Ruled? && s.pending[p].vm == vm
  }

  // The publish of p can lock the VM and finds it serving.
  predicate Admits(s: State, p: Port, vm: Vm) {
    p in s.pending && s.pending[p].Taken? && vm in s.infos && Serving(s.infos[vm]) && !Locked(s, vm)
  }

  predicate Enabled(s: State, m: Move) {
    match m
    case Alloc(p) => p !in s.used
    case Abort(p) => p in s.pending && s.pending[p].Taken?
    case Refuse(p, vm, _) => Admits(s, p, vm)
    case AddRule(p, vm, _) => Admits(s, p, vm)
    case Commit(p) => p in s.pending && s.pending[p].Ruled? && s.pending[p].vm in s.infos
    case Undo(p, _) => p in s.pending && s.pending[p].Ruled?
    case Unpublish(vm, _, _, _) => vm in s.infos && !Locked(s, vm)
    case Create(vm) => vm !in s.infos
    case Start(vm, _) => vm in s.infos && !s.infos[vm].alive && !Locked(s, vm)
    case Die(vm) => vm in s.infos
    case Stop(vm, _, _) => vm in s.infos && !Locked(s, vm)
    case Destroy(vm) => vm in s.infos && s.infos[vm].ports == map[] && !Locked(s, vm)
    case Restart(_) => true
  }

  function Sync(cache: map<Vm, map<Port, int>>, vm: Vm, ports: map<Port, int>): map<Vm, map<Port, int>> {
    if vm in cache then cache[vm := ports] else cache
  }

  function Cleared(i: Info): Info { Info(map[], false, false, 0) }

  // Recovery keeps the ports of a serving VM and drops those of any other, on disk if the write works.
  function Recovered(i: Info, fault: bool): Info {
    if i.ports == map[] || Serving(i) || fault then i else i.(ports := map[])
  }

  function GiveBack(s: State, p: Port): State {
    s.(used := s.used - {p}, pending := s.pending - {p})
  }

  function Next(s: State, m: Move): State
    requires Enabled(s, m)
  {
    match m
    case Alloc(p) => s.(used := s.used + {p}, pending := s.pending[p := Taken])
    case Abort(p) => GiveBack(s, p)
    case Refuse(p, vm, target) =>
      GiveBack(s, p).(rules := s.rules - multiset{Rule(p, s.infos[vm].subnet, target)})
    case AddRule(p, vm, target) =>
      var subnet := s.infos[vm].subnet;
      s.(pending := s.pending[p := Ruled(vm, subnet, target)], rules := s.rules + multiset{Rule(p, subnet, target)})
    case Commit(p) =>
      var vm := s.pending[p].vm;
      var ports := s.infos[vm].ports[p := s.pending[p].target];
      s.(pending := s.pending - {p}, infos := s.infos[vm := s.infos[vm].(ports := ports)],
         cache := Sync(s.cache, vm, ports))
    case Undo(p, kept) =>
      var rule := Rule(p, s.pending[p].subnet, s.pending[p].target);
      GiveBack(s, p).(rules := if kept then s.rules else s.rules - multiset{rule})
    case Unpublish(vm, p, kept, fault) =>
      var i := s.infos[vm];
      if p !in i.ports then s
      else
        var s' := if kept then s else s.(rules := s.rules - RulesOf(i, {p}));
        if fault then s'
        else
          var ports := i.ports - {p};
          s'.(infos := s.infos[vm := i.(ports := ports)], cache := Sync(s.cache, vm, ports), used := s.used - {p})
    case Create(vm) => s.(infos := s.infos[vm := Info(map[], false, false, 0)])
    case Start(vm, subnet) =>
      var i := s.infos[vm].(alive := true, tap := true, subnet := subnet);
      s.(infos := s.infos[vm := i], cache := s.cache[vm := i.ports])
    case Die(vm) => s.(infos := s.infos[vm := s.infos[vm].(alive := false)])
    case Stop(vm, left, fault) =>
      var i := s.infos[vm];
      var s' :=
        if i.tap then s.(rules := s.rules - RulesOf(i, i.ports.Keys - left), used := s.used - i.ports.Keys) else s;
      if fault then s'.(infos := s.infos[vm := i.(alive := false)])
      else s'.(infos := s.infos[vm := Cleared(i)], cache := s.cache - {vm})
    case Destroy(vm) => s.(infos := s.infos - {vm}, cache := s.cache - {vm})
    case Restart(f) =>
      State(set vm, p | vm in s.infos && Serving(s.infos[vm]) && p in s.infos[vm].ports :: p,
            map[],
            map vm | vm in s.infos :: Recovered(s.infos[vm], vm in f.uncleared),
            map vm | vm in s.infos :: Recovered(s.infos[vm], false).ports,
            RecoveredRules(s, f))
  }

  // The rules of the VMs with a tap whose process is alive, or is not.
  function ServedRules(s: State, alive: bool): set<Rule> {
    set vm, p | vm in s.infos && s.infos[vm].tap && s.infos[vm].alive == alive && p in s.infos[vm].ports ::
      Rule(p, s.infos[vm].subnet, s.infos[vm].ports[p])
  }

  // Those of the living are added on top of what stands, those of the dead removed.
  function RecoveredRules(s: State, f: RestartFaults): multiset<Rule> {
    var live, dead := ServedRules(s, true), ServedRules(s, false);
    s.rules + multiset(Without(live, f.failed + f.dropped)) - multiset(live - Without(live, f.dropped))
    - multiset(Without(dead, f.left))
  }

  function Without(rules: set<Rule>, ports: set<Port>): set<Rule> {
    set r | r in rules && r.port !in ports
  }

  const INITIAL := State({}, map[], map[], map[], multiset{})

  predicate HasOwner(s: State, p: Port) {
    p in s.pending || exists vm :: vm in s.infos && p in s.infos[vm].ports
  }

  // No two VMs have a port in common.
  ghost predicate Disjoint(s: State) {
    forall v, w, p :: v in s.infos && w in s.infos && p in s.infos[v].ports && p in s.infos[w].ports ==> v == w
  }

  // What a VM owns is marked used and not in an unfinished publish, and the VM has its tap.
  ghost predicate Marked(s: State) {
    && s.pending.Keys <= s.used
    && forall vm, p {:trigger p in s.infos[vm].ports} :: vm in s.infos && p in s.infos[vm].ports ==> MarkedFor(s, vm, p)
  }

  predicate MarkedFor(s: State, vm: Vm, p: Port)
    requires vm in s.infos
  {
    p in s.used && p !in s.pending && s.infos[vm].tap
  }

  ghost predicate NoneLost(s: State) {
    forall p :: p in s.used ==> HasOwner(s, p)
  }

  // A publish that has added its rule did so for the VM as it still is.
  ghost predicate Held(s: State) {
    forall p {:trigger s.pending[p]} :: p in s.pending && s.pending[p].Ruled? ==>
      var b := s.pending[p];
      b.vm in s.infos && s.infos[b.vm].tap && s.infos[b.vm].subnet == b.subnet
  }

  /** No two VMs have a port in common, nor a VM and an unfinished publish; every port that is owned is marked
      used, and every port that is used is owned. */
  ghost predicate Owned(s: State) { Disjoint(s) && Marked(s) && NoneLost(s) && Held(s) }

  /** The moves after which a port is owned without being marked used: a stop or a restart that cannot write
      the cleared record of a VM that has ports. */
  predicate Frees(s: State, m: Move)
  {
    match m
    case Stop(vm, _, fault) => fault && vm in s.infos && s.infos[vm].ports != map[]
    case Restart(f) =>
      exists vm :: vm in f.uncleared && vm in s.infos && s.infos[vm].ports != map[] && !Serving(s.infos[vm])
    case _ => false
  }

  lemma NextDisjoint(s: State, m: Move)
    requires Owned(s) && Enabled(s, m)
    ensures Disjoint(Next(s, m))
  {
    var s' := Next(s, m);
    forall v, w, p | v in s'.infos && w in s'.infos && p in s'.infos[v].ports && p in s'.infos[w].ports
      ensures v == w
    {
      PortsGrow(s, m, v, p);
      PortsGrow(s, m, w, p);
    }
  }

  // A VM's port is one it had, or the one just published for it.
  lemma PortsGrow(s: State, m: Move, vm: Vm, p: Port)
    requires Marked(s) && Enabled(s, m) && vm in Next(s, m).infos && p in Next(s, m).infos[vm].ports
    ensures if m.Commit? && p == m.p then vm == s.pending[p].vm else vm in s.infos && p in s.infos[vm].ports
  {
    if m.Commit? { CommitGrows(s, m, vm, p); } else { PortsShrink(s, m, vm, p); }
  }

  lemma PortsShrink(s: State, m: Move, vm: Vm, p: Port)
    requires Enabled(s, m) && !m.Commit? && vm in Next(s, m).infos && p in Next(s, m).infos[vm].ports
    ensures vm in s.infos && p in s.infos[vm].ports
  {
    match m
    case Unpublish(_, _, _, _) =>
    case Create(_) =>
    case Start(_, _) =>
    case Die(_) =>
    case Stop(_, _, _) =>
    case Destroy(_) =>
    case Restart(_) =>
    case _ => assert Next(s, m).infos == s.infos;
  }

  lemma CommitGrows(s: State, m: Move, vm: Vm, p: Port)
    requires Marked(s) && m.Commit? && Enabled(s, m) && vm in Next(s, m).infos && p in Next(s, m).infos[vm].ports
    ensures if p == m.p then vm == s.pending[p].vm else vm in s.infos && p in s.infos[vm].ports
  {}

  lemma NextHeld(s: State, m: Move)
    requires Owned(s) && Enabled(s, m)
    ensures Held(Next(s, m))
  {
    var s' := Next(s, m);
    forall p | p in s'.pending && s'.pending[p].Ruled?
      ensures var b := s'.pending[p]; b.vm in s'.infos && s'.infos[b.vm].tap && s'.infos[b.vm].subnet == b.subnet
    {
      HeldOne(s, m, p);
    }
  }

  lemma HeldOne(s: State, m: Move, p: Port)
    requires Held(s) && Enabled(s, m) && p in Next(s, m).pending && Next(s, m).pending[p].Ruled?
    ensures var s' := Next(s, m);
      var b := s'.pending[p];
      b.vm in s'.infos && s'.infos[b.vm].tap && s'.infos[b.vm].subnet == b.subnet
  {
    if m.AddRule? && m.p == p {
    } else {
      HeldBefore(s, m, p);
      InfoKept(s, m, s.pending[p].vm);
    }
  }

  lemma HeldBefore(s: State, m: Move, p: Port)
    requires Enabled(s, m) && !(m.AddRule? && m.p == p) && p in Next(s, m).pending && Next(s, m).pending[p].Ruled?
    ensures p in s.pending && s.pending[p] == Next(s, m).pending[p]
    ensures Locked(s, s.pending[p].vm) && !m.Restart?
  {}

  // While a publish holds a VM, its tap and its subnet stay.
  lemma InfoKept(s: State, m: Move, vm: Vm)
    requires Enabled(s, m) && !m.Restart? && Locked(s, vm) && vm in s.infos
    ensures var s' := Next(s, m);
      vm in s'.infos && s'.infos[vm].tap == s.infos[vm].tap && s'.infos[vm].subnet == s.infos[vm].subnet
  {}

  lemma NextMarked(s: State, m: Move)
    requires Owned(s) && Enabled(s, m) && !Frees(s, m)
    ensures Marked(Next(s, m))
  {
    var s' := Next(s, m);
    forall vm, p | vm in s'.infos && p in s'.infos[vm].ports ensures MarkedFor(s', vm, p) { MarkedAt(s, m, vm, p); }
    NextPending(s, m);
  }

  lemma NextPending(s: State, m: Move)
    requires Marked(s) && Enabled(s, m)
    ensures Next(s, m).pending.Keys <= Next(s, m).used
  {
    forall p | p in Next(s, m).pending ensures p in Next(s, m).used { PendingUsed(s, m, p); }
  }

  lemma MarkedAt(s: State, m: Move, vm: Vm, p: Port)
    requires Disjoint(s) && Marked(s) && Held(s) && Enabled(s, m) && !Frees(s, m)
    requires vm in Next(s, m).infos && p in Next(s, m).infos[vm].ports
    ensures MarkedFor(Next(s, m), vm, p)
  {
    PortsGrow(s, m, vm, p);
    MarkedOne(s, m, vm, p);
  }

  lemma MarkedOne(s: State, m: Move, vm: Vm, p: Port)
    requires Disjoint(s) && Marked(s) && Held(s) && Enabled(s, m) && !Frees(s, m)
    requires vm in Next(s, m).infos && p in Next(s, m).infos[vm].ports
    requires if m.Commit? && p == m.p then vm == s.pending[p].vm else vm in s.infos && p in s.infos[vm].ports
    ensures MarkedFor(Next(s, m), vm, p)
  {
    match m
    case Commit(q) => if p == q { assert s.pending[q].Ruled?; }
    case Stop(_, _, _) => StopMarks(s, m, vm, p);
    case Restart(_) => RestartMarks(s, m, vm, p);
    case Unpublish(_, _, _, _) =>
    case Start(_, _) =>
    case _ =>
  }

  lemma StopMarks(s: State, m: Move, vm: Vm, p: Port)
    requires Disjoint(s) && Marked(s) && m.Stop? && Enabled(s, m) && !Frees(s, m)
    requires vm in Next(s, m).infos && p in Next(s, m).infos[vm].ports
    ensures MarkedFor(Next(s, m), vm, p)
  {
    assert p in s.infos[vm].ports;
    if m.vm != vm { assert p !in s.infos[m.vm].ports; }
  }

  lemma RestartMarks(s: State, m: Move, vm: Vm, p: Port)
    requires Marked(s) && m.Restart? && !Frees(s, m) && vm in Next(s, m).infos && p in Next(s, m).infos[vm].ports
    ensures MarkedFor(Next(s, m), vm, p)
  {
    assert p in s.infos[vm].ports;
  }

  lemma PendingUsed(s: State, m: Move, p: Port)
    requires Marked(s) && Enabled(s, m) && p in Next(s, m).pending
    ensures p in Next(s, m).used
  {
    match m
    case Unpublish(vm, q, _, _) => assert q in s.infos[vm].ports ==> q !in s.pending;
    case Stop(vm, _, _) => assert p in s.infos[vm].ports ==> p !in s.pending;
    case _ =>
  }

  lemma NextNoneLost(s: State, m: Move)
    requires Owned(s) && Enabled(s, m) && !Frees(s, m)
    ensures NoneLost(Next(s, m))
  {
    forall p | p in Next(s, m).used ensures HasOwner(Next(s, m), p) { StillOwned(s, m, p); }
  }

  lemma StillOwned(s: State, m: Move, p: Port)
    requires Marked(s) && NoneLost(s) && Enabled(s, m) && !Frees(s, m) && p in Next(s, m).used
    ensures HasOwner(Next(s, m), p)
  {
    var s' := Next(s, m);
    if m.Restart? {
      RestartOwner(s, m, p);
    } else if m.Commit? && p == m.p {
      assert p in s'.infos[s.pending[p].vm].ports;
    } else if p in s.used && p !in s.pending {
      assert HasOwner(s, p);
      var vm :| vm in s.infos && p in s.infos[vm].ports;
      StillListed(s, m, vm, p);
    } else {
      StillPending(s, m, p);
    }
  }

  lemma StillListed(s: State, m: Move, vm: Vm, p: Port)
    requires Marked(s) && Enabled(s, m) && !m.Restart? && !Frees(s, m)
    requires vm in s.infos && p in s.infos[vm].ports && p in Next(s, m).used
    ensures vm in Next(s, m).infos && p in Next(s, m).infos[vm].ports
  {
    match m
    case Commit(_) =>
    case Unpublish(_, _, _, _) =>
    case Create(_) =>
    case Start(_, _) =>
    case Die(_) =>
    case Stop(_, _, _) =>
    case Destroy(_) =>
    case _ => assert Next(s, m).infos == s.infos;
  }

  lemma StillPending(s: State, m: Move, p: Port)
    requires Marked(s) && Enabled(s, m) && !m.Restart? && !(m.Commit? && p == m.p)
    requires p in Next(s, m).used && !(p in s.used && p !in s.pending)
    ensures p in Next(s, m).pending
  {}

  lemma RestartOwner(s: State, m: Move, p: Port)
    requires m.Restart? && p in Next(s, m).used
    ensures HasOwner(Next(s, m), p)
  {
    var vm :| vm in s.infos && Serving(s.infos[vm]) && p in s.infos[vm].ports;
    assert p in Next(s, m).infos[vm].ports;
  }

  // What those moves do.
  lemma FreesBreak(s: State, m: Move)
    requires Owned(s) && Enabled(s, m) && Frees(s, m)
    ensures !Marked(Next(s, m))
  {
    var s' := Next(s, m);
    match m
    case Stop(vm, _, _) =>
      var p := SomeElement(s.infos[vm].ports.Keys);
      assert p in s'.infos[vm].ports && p !in s'.used;
    case Restart(f) =>
      var vm :| vm in f.uncleared && vm in s.infos && s.infos[vm].ports != map[] && !Serving(s.infos[vm]);
      var p := SomeElement(s.infos[vm].ports.Keys);
      assert p in s'.infos[vm].ports;
      assert p !in s'.used;
  }

  /** A step, a death of the daemon at any point included, keeps ports owned if and only if it is not one of
      those moves. */
  lemma NextOwned(s: State, m: Move)
    requires Owned(s) && Enabled(s, m)
    ensures Owned(Next(s, m)) <==> !Frees(s, m)
  {
    if Frees(s, m) {
      FreesBreak(s, m);
    } else {
      NextDisjoint(s, m);
      NextMarked(s, m);
      NextNoneLost(s, m);
      NextHeld(s, m);
    }
  }

  ghost predicate IsRun(ss: seq<State>, ms: seq<Move>) {
    && |ss| == |ms| + 1
    && forall i {:trigger ms[i]} :: 0 <= i < |ms| ==> Enabled(ss[i], ms[i]) && ss[i + 1] == Next(ss[i], ms[i])
  }

  /** Over any run, with publishes interleaved at will, ports stay owned by exactly one VM or publish up to the
      first of those moves. */
  lemma {:induction false} RunOwned(ss: seq<State>, ms: seq<Move>, i: nat)
    requires IsRun(ss, ms) && i < |ss| && ss[0] == INITIAL
    requires forall j {:trigger ms[j]} :: 0 <= j < i ==> !Frees(ss[j], ms[j])
    ensures Owned(ss[i])
  {
    if i > 0 {
      RunOwned(ss, ms, i - 1);
      assert Enabled(ss[i - 1], ms[i - 1]) && ss[i] == Next(ss[i - 1], ms[i - 1]) && !Frees(ss[i - 1], ms[i - 1]);
      NextOwned(ss[i - 1], ms[i - 1]);
    }
  }

  /** A publish that fails after taking its port gives everything back but the rules: those are as before unless
      the removal after a failed write has no effect, or the rollback of a failed add removes a rule that
      stood already. */
  lemma FailedPublish(s: State, p: Port, vm: Vm, target: int)
    requires Owned(s) && p !in s.used
    ensures var taken := Next(s, Alloc(p));
      && Next(taken, Abort(p)) == s
      && (Admits(taken, p, vm) ==>
            var r := Rule(p, s.infos[vm].subnet, target);
            var ruled := Next(taken, AddRule(p, vm, target));
            && Next(taken, Refuse(p, vm, target)) == s.(rules := s.rules - multiset{r})
            && (Next(taken, Refuse(p, vm, target)) == s <==> r !in s.rules)
            && Next(ruled, Undo(p, false)) == s
            && Next(ruled, Undo(p, true)) == s.(rules := s.rules + multiset{r}) != s)
  {
    var taken := Next(s, Alloc(p));
    AbortUndoes(s, p);
    if Admits(taken, p, vm) {
      RefuseUndoes(s, p, vm, target);
      UndoUndoes(s, p, vm, target);
    }
  }

  lemma AbortUndoes(s: State, p: Port)
    requires Marked(s) && p !in s.used
    ensures GiveBack(Next(s, Alloc(p)), p) == s
  {
    var taken := Next(s, Alloc(p));
    assert taken.pending - {p} == s.pending && taken.used - {p} == s.used;
  }

  lemma RefuseUndoes(s: State, p: Port, vm: Vm, target: int)
    requires Marked(s) && p !in s.used && Admits(Next(s, Alloc(p)), p, vm)
    ensures var t := Next(Next(s, Alloc(p)), Refuse(p, vm, target));
      var r := Rule(p, s.infos[vm].subnet, target);
      t == s.(rules := s.rules - multiset{r}) && (t == s <==> r !in s.rules)
  {
    AbortUndoes(s, p);
    OneRule(s.rules, Rule(p, s.infos[vm].subnet, target));
  }

  lemma UndoUndoes(s: State, p: Port, vm: Vm, target: int)
    requires Marked(s) && p !in s.used && Admits(Next(s, Alloc(p)), p, vm)
    ensures var ruled := Next(Next(s, Alloc(p)), AddRule(p, vm, target));
      var r := Rule(p, s.infos[vm].subnet, target);
      Next(ruled, Undo(p, false)) == s && Next(ruled, Undo(p, true)) == s.(rules := s.rules + multiset{r}) != s
  {
    var ruled := Next(Next(s, Alloc(p)), AddRule(p, vm, target));
    assert ruled.pending - {p} == s.pending && ruled.used - {p} == s.used;
    OneRule(s.rules, Rule(p, s.infos[vm].subnet, target));
  }

  lemma OneRule(rules: multiset<Rule>, r: Rule)
    ensures rules + multiset{r} - multiset{r} == rules && rules + multiset{r} != rules
    ensures rules - multiset{r} == rules <==> r !in rules
  {
    assert (rules + multiset{r})[r] == rules[r] + 1;
    if r in rules { assert (rules - multiset{r})[r] == rules[r] - 1; }
  }

  // Publishing and unpublishing again is the identity, rules and cache included.
  lemma PublishRoundTrip(s: State, p: Port, vm: Vm, target: int)
    requires Owned(s) && p !in s.used && Admits(Next(s, Alloc(p)), p, vm)
    requires vm in s.cache ==> s.cache[vm] == s.infos[vm].ports
    ensures var t := Next(Next(Next(s, Alloc(p)), AddRule(p, vm, target)), Commit(p));
      Enabled(t, Unpublish(vm, p, false, false)) && Next(t, Unpublish(vm, p, false, false)) == s
  {
    var t := Next(Next(Next(s, Alloc(p)), AddRule(p, vm, target)), Commit(p));
    PublishEffect(s, p, vm, target);
    UnpublishUndoes(s, t, p, vm, target);
  }

  lemma UnpublishUndoes(s: State, t: State, p: Port, vm: Vm, target: int)
    requires Owned(s) && p !in s.used && vm in s.infos && !Locked(s, vm)
    requires vm in s.cache ==> s.cache[vm] == s.infos[vm].ports
    requires var ports := s.infos[vm].ports[p := target];
      t == s.(used := s.used + {p}, infos := s.infos[vm := s.infos[vm].(ports := ports)],
              cache := Sync(s.cache, vm, ports),
              rules := s.rules + multiset{Rule(p, s.infos[vm].subnet, target)})
    ensures Enabled(t, Unpublish(vm, p, false, false)) && Next(t, Unpublish(vm, p, false, false)) == s
  {
    assert t.pending == s.pending && !Locked(t, vm);
    var i := s.infos[vm];
    assert p !in i.ports;
    PutAndTake(i.ports, p, target);
    UnpublishFields(t, vm, p, false);
    OneRule(s.rules, Rule(p, i.subnet, target));
    assert s.used + {p} - {p} == s.used;
    assert s.infos[vm := i.(ports := i.ports[p := target])][vm := i] == s.infos;
    if vm in s.cache { assert s.cache[vm := i.ports[p := target]][vm := i.ports] == s.cache; }
  }

  lemma PutAndTake(ports: map<Port, int>, p: Port, target: int)
    requires p !in ports
    ensures ports[p := target] - {p} == ports
  {}

  // What an unpublish whose write works comes to.
  lemma UnpublishFields(s: State, vm: Vm, p: Port, kept: bool)
    requires vm in s.infos && p in s.infos[vm].ports && !Locked(s, vm)
    ensures var i := s.infos[vm];
      var rule := Rule(p, i.subnet, i.ports[p]);
      Next(s, Unpublish(vm, p, kept, false)) ==
      State(s.used - {p}, s.pending, s.infos[vm := i.(ports := i.ports - {p})], Sync(s.cache, vm, i.ports - {p}),
            if kept then s.rules else s.rules - multiset{rule})
  {
    OwnRule(s.infos[vm], p);
  }

  lemma OwnRule(i: Info, p: Port)
    requires p in i.ports
    ensures RulesOf(i, {p}) == multiset{Rule(p, i.subnet, i.ports[p])}
  {
    assert (set q | q in {p} :: Rule(q, i.subnet, i.ports[q])) == {Rule(p, i.subnet, i.ports[p])};
  }

  // What a publish comes to.
  lemma PublishEffect(s: State, p: Port, vm: Vm, target: int)
    requires Owned(s) && p !in s.used && Admits(Next(s, Alloc(p)), p, vm)
    ensures var t := Next(Next(Next(s, Alloc(p)), AddRule(p, vm, target)), Commit(p));
      var ports := s.infos[vm].ports[p := target];
      t == s.(used := s.used + {p}, infos := s.infos[vm := s.infos[vm].(ports := ports)],
              cache := Sync(s.cache, vm, ports),
              rules := s.rules + multiset{Rule(p, s.infos[vm].subnet, target)})
    ensures !Locked(s, vm)
  {
    var taken := Next(s, Alloc(p));
    var ruled := Next(taken, AddRule(p, vm, target));
    assert ruled.pending - {p} == s.pending;
    forall q | q in s.pending ensures !(s.pending[q].Ruled? && s.pending[q].vm == vm) {
      assert q in taken.pending && taken.pending[q] == s.pending[q];
    }
  }

  // ---- after a stop whose final write failed ----

  // The same stop, tried again before anything else, puts ownership right.
  lemma RetriedStopHeals(s: State, vm: Vm, left: set<Port>, again: set<Port>)
    requires Owned(s) && Enabled(s, Stop(vm, left, true))
    ensures var t := Next(s, Stop(vm, left, true));
      Enabled(t, Stop(vm, again, false)) && Owned(Next(t, Stop(vm, again, false)))
  {
    var t := Next(s, Stop(vm, left, true));
    assert !Locked(t, vm);
    TwoStops(s, vm, left, again);
    NextOwned(s, Stop(vm, left, false));
    SameOwned(Next(s, Stop(vm, left, false)), Next(t, Stop(vm, again, false)));
  }

  // Rules and cache apart, two stops come to one.
  lemma TwoStops(s: State, vm: Vm, left: set<Port>, again: set<Port>)
    requires vm in s.infos && !Locked(s, vm)
    ensures var t := Next(s, Stop(vm, left, true));
      && Enabled(t, Stop(vm, again, false))
      && var u, once := Next(t, Stop(vm, again, false)), Next(s, Stop(vm, left, false));
         u.used == once.used && u.pending == once.pending && u.infos == once.infos
  {
    var t := Next(s, Stop(vm, left, true));
    assert t.pending == s.pending && !Locked(t, vm);
    var gone := s.infos[vm].ports.Keys;
    assert s.used - gone - gone == s.used - gone;
    var i := s.infos[vm];
    assert s.infos[vm := i.(alive := false)][vm := Cleared(i)] == s.infos[vm := Cleared(i)];
  }

  lemma SameOwned(s: State, s': State)
    requires Owned(s) && s'.used == s.used && s'.pending == s.pending && s'.infos == s.infos
    ensures Owned(s')
  {
    forall p | p in s'.used ensures HasOwner(s', p) { assert HasOwner(s, p); }
  }

  /** If another VM is given the port in between, the retried stop frees that VM's port: it is listed, not marked
      used, and the next publish may take it. */
  lemma RetriedStopSteals(s: State, v: Vm, w: Vm, p: Port, target: int, left: set<Port>, again: set<Port>)
    requires Owned(s) && v != w && v in s.infos && p in s.infos[v].ports && !Locked(s, v)
    requires w in s.infos && Serving(s.infos[w]) && !Locked(s, w)
    ensures var s1 := Next(s, Stop(v, left, true));
      && Enabled(s1, Alloc(p)) && Admits(Next(s1, Alloc(p)), p, w)
      && var s2 := Next(Next(s1, Alloc(p)), AddRule(p, w, target));
         && Enabled(s2, Commit(p))
         && var s3 := Next(s2, Commit(p));
            && Enabled(s3, Stop(v, again, false))
            && var s4 := Next(s3, Stop(v, again, false));
               p in s4.infos[w].ports && Serving(s4.infos[w]) && p !in s4.used && Enabled(s4, Alloc(p))
  {
    var s1 := Next(s, Stop(v, left, true));
    assert p !in s1.used && s1.pending == s.pending;
    var taken := Next(s1, Alloc(p));
    SameLocks(s, taken, p, v);
    SameLocks(s, taken, p, w);
    var s3 := Next(Next(taken, AddRule(p, w, target)), Commit(p));
    SameLocks(s, s3, p, v);
    assert s3.infos[v] == s1.infos[v] && p in s3.infos[v].ports && s3.infos[v].tap;
  }

  lemma SameLocks(s: State, s': State, p: Port, vm: Vm)
    requires !Locked(s, vm) && p !in s.pending
    requires forall q :: q in s'.pending && q != p ==> q in s.pending && s'.pending[q] == s.pending[q]
    requires p in s'.pending ==> s'.pending[p].Taken?
    ensures !Locked(s', vm)
  {}
}
