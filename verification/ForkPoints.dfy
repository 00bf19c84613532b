/** Who still needs a fork-point's directory, within one daemon lifetime.

    One fork call spawns the children; any number of destroy calls release theirs meanwhile. Each update of
    fpinfo.json is one step under the global mutex; writing a child's own directory, removing it, and
    removing the fork-point's directory are steps of their own.
  */
module ForkPoints {
  import opened Common

  type VmId = nat

  datatype Forker =
    | Spawning(left: nat)             // that many children to come
    | Written(vm: VmId, left: nat)    // vm is on disk, not yet recorded
    | Finished

  datatype Leaver = Gone | Collecting  // its directory is removed; it has found the fork-point unused

  datatype State = State(
    present: bool,            // the fork-point's directory
    pending: int,             // SpawnPending
    desc: seq<VmId>,          // Descendants
    kids: set<VmId>,          // children on disk that name this fork-point
    forker: Forker,
    leavers: map<VmId, Leaver>,
    next: VmId)

  // A fault says that the fpinfo update, or the removal of the directory, fails.
  datatype Move =
    | Spawn | SpawnFails(fault: bool) | Record(fault: bool) | Finish
    | Destroy(vm: VmId) | Release(vm: VmId, fault: bool) | Collect(vm: VmId, fault: bool)

  // A fork-point with `count` slots reserved before the first spawn.
  function Primed(count: nat): State {
    State(true, count, [], {}, Spawning(count), map[], 0)
  }

  function Less(pending: int): int { if pending > 0 then pending - 1 else pending }

  function Without(desc: seq<VmId>, vm: VmId): (r: seq<VmId>)
    ensures forall d :: d in r <==> d in desc && d != vm
  {
    if desc == [] then []
    else (if desc[0] != vm then [desc[0]] else []) + Without(desc[1..], vm)
  }

  predicate Enabled(s: State, m: Move) {
    match m
    case Spawn => s.forker.Spawning? && s.forker.left > 0
    case SpawnFails(_) => s.forker.Spawning? && s.forker.left > 0
    case Record(_) => s.forker.Written?
    case Finish => s.forker == Spawning(0)
    case Destroy(vm) => vm in s.kids
    case Release(vm, _) => vm in s.leavers && s.leavers[vm] == Gone
    case Collect(vm, _) => vm in s.leavers && s.leavers[vm] == Collecting
  }

  function Next(s: State, m: Move): State
    requires Enabled(s, m)
  {
    match m
    case Spawn => s.(kids := s.kids + {s.next}, forker := Written(s.next, s.forker.left - 1), next := s.next + 1)
    case SpawnFails(fault) =>
      s.(forker := Finished, pending := if fault || !s.present then s.pending else Less(s.pending))
    case Record(fault) =>
      var s' := s.(forker := Spawning(s.forker.left));
      if fault || !s.present then s' else s'.(desc := s.desc + [s.forker.vm], pending := Less(s.pending))
    case Finish => s.(forker := Finished)
    case Destroy(vm) => s.(kids := s.kids - {vm}, leavers := s.leavers[vm := Gone])
    case Release(vm, fault) =>
      if fault || !s.present then s.(leavers := s.leavers - {vm})
      else
        var desc := Without(s.desc, vm);
        var unused := desc == [] && s.pending == 0;
        s.(desc := desc, leavers := if unused then s.leavers[vm := Collecting] else s.leavers - {vm})
    case Collect(vm, fault) => s.(present := s.present && fault, leavers := s.leavers - {vm})
  }

  // Spawns still to come, and the one on its way from disk to Descendants.
  function ToCome(s: State): nat {
    match s.forker
    case Spawning(left) => left
    case Written(_, left) => left + 1
    case Finished => 0
  }

  // Children on disk that no record or spawn in progress accounts for.
  function Unlisted(s: State): set<VmId> {
    set vm | vm in s.kids && vm !in s.desc && !(s.forker.Written? && s.forker.vm == vm)
  }

  predicate Used(s: State) { s.kids != {} || ToCome(s) > 0 }

  ghost predicate Fresh(s: State) {
    && (forall vm :: vm in s.kids || vm in s.desc || vm in s.leavers ==> vm < s.next)
    && (s.forker.Written? ==> s.forker.vm < s.next && s.forker.vm !in s.desc)
    && (forall vm :: vm in s.leavers ==> vm !in s.kids)
  }

  // The slots reserved cover every child the records do not, and every one to come.
  ghost predicate Reserved(s: State) { |Unlisted(s)| + ToCome(s) <= s.pending }

  // Some release has found the fork-point unused and not removed it yet.
  ghost predicate BeingCollected(s: State) {
    exists vm :: vm in s.leavers && s.leavers[vm] == Collecting
  }

  // Once some release has found the fork-point unused, it stays so.
  ghost predicate Settled(s: State) {
    !s.present || BeingCollected(s) ==> s.pending == 0 && s.desc == []
  }

  ghost predicate Inv(s: State) { Fresh(s) && Reserved(s) && Settled(s) }

  lemma SubsetSize<T>(a: set<T>, b: set<T>)
    requires a <= b
    ensures |a| <= |b|
  {
    if a != {} {
      var x :| x in a;
      SubsetSize(a - {x}, b - {x});
    }
  }

  lemma UnlistedMoves(s: State, m: Move)
    requires Fresh(s) && Enabled(s, m)
    ensures Unlisted(Next(s, m)) <= Unlisted(s) + if m.Record? && (m.fault || !s.present) then {s.forker.vm} else {}
  {}

  lemma NextReserved(s: State, m: Move)
    requires Inv(s) && Enabled(s, m)
    ensures Reserved(Next(s, m))
  {
    UnlistedMoves(s, m);
    var extra := if m.Record? && (m.fault || !s.present) then {s.forker.vm} else {};
    SubsetSize(Unlisted(Next(s, m)), Unlisted(s) + extra);
    SubsetSize(Unlisted(s) + extra, Unlisted(s) + extra);
    assert |Unlisted(s) + extra| <= |Unlisted(s)| + |extra|;
  }

  lemma NextKeeps(s: State, m: Move)
    requires Inv(s) && Enabled(s, m)
    ensures Inv(Next(s, m))
  {
    NextReserved(s, m);
    if m.Destroy? { assert m.vm in s.kids; }
    var s' := Next(s, m);
    assert Settled(s') by {
      if BeingCollected(s') {
        var vm :| vm in s'.leavers && s'.leavers[vm] == Collecting;
        assert m != Release(vm, false) ==> vm in s.leavers && s.leavers[vm] == Collecting;
      }
    }
  }

  ghost predicate IsRun(ss: seq<State>, ms: seq<Move>) {
    && |ss| == |ms| + 1
    && forall i {:trigger ms[i]} :: 0 <= i < |ms| ==> Enabled(ss[i], ms[i]) && ss[i + 1] == Next(ss[i], ms[i])
  }

  lemma {:induction false} RunKeeps(ss: seq<State>, ms: seq<Move>, i: nat, count: nat)
    requires IsRun(ss, ms) && i < |ss| && ss[0] == Primed(count)
    ensures Inv(ss[i])
  {
    if i == 0 {
      assert Unlisted(ss[0]) == {};
    } else {
      RunKeeps(ss, ms, i - 1, count);
      assert Enabled(ss[i - 1], ms[i - 1]) && ss[i] == Next(ss[i - 1], ms[i - 1]);
      NextKeeps(ss[i - 1], ms[i - 1]);
    }
  }

  /** The directory is never removed, nor about to be, while a child that uses it is on disk or to come:
      whatever spawns fail, whatever updates are lost, however many releases run at once. */
  lemma NeverRemovedInUse(ss: seq<State>, ms: seq<Move>, i: nat, count: nat)
    requires IsRun(ss, ms) && i < |ss| && ss[0] == Primed(count)
    requires !ss[i].present || BeingCollected(ss[i])
    ensures !Used(ss[i])
  {
    RunKeeps(ss, ms, i, count);
    var s := ss[i];
    assert s.kids <= Unlisted(s) && Unlisted(s) == {};
  }

  // ---- when it is removed at all ----

  // Updates and removals work, and no child is destroyed while it is on disk but not recorded. Spawns may fail.
  predicate Reliable(s: State, m: Move) {
    match m
    case Destroy(vm) => !(s.forker.Written? && s.forker.vm == vm)
    case SpawnFails(fault) => !fault
    case Record(fault) => !fault
    case Release(_, fault) => !fault
    case Collect(_, fault) => !fault
    case _ => true
  }

  // Nor does a spawn fail.
  predicate Clean(s: State, m: Move) { Reliable(s, m) && !m.SpawnFails? }

  ghost predicate Exact(s: State) {
    && s.pending == ToCome(s)
    && (s.forker.Written? ==> s.forker.vm in s.kids)
    && (forall vm :: vm in s.desc ==> vm in s.kids || (vm in s.leavers && s.leavers[vm] == Gone))
    && (s.present ==> s.desc != [] || s.pending > 0 || BeingCollected(s))
  }

  lemma NextExact(s: State, m: Move)
    requires Inv(s) && Exact(s) && Enabled(s, m) && Clean(s, m)
    ensures Exact(Next(s, m))
  {
    var s' := Next(s, m);
    if m.Release? && s.present && s'.desc == [] && s.pending == 0 {
      assert m.vm in s'.leavers && s'.leavers[m.vm] == Collecting;
    } else if BeingCollected(s) {
      var vm :| vm in s.leavers && s.leavers[vm] == Collecting;
      assert s.pending == 0 && s.desc == [];
      if m.Destroy? { NoKids(s); }
      if s'.present { assert vm in s'.leavers && s'.leavers[vm] == Collecting; }
    }
  }

  lemma NoKids(s: State)
    requires Inv(s) && (!s.present || BeingCollected(s))
    ensures s.kids == {}
  {
    assert s.kids <= Unlisted(s) && Unlisted(s) == {};
  }

  lemma {:induction false} RunExact(ss: seq<State>, ms: seq<Move>, i: nat, count: nat)
    requires IsRun(ss, ms) && i < |ss| && ss[0] == Primed(count) && count > 0
    requires forall k {:trigger ms[k]} :: 0 <= k < i ==> Clean(ss[k], ms[k])
    ensures Exact(ss[i])
  {
    if i > 0 {
      RunExact(ss, ms, i - 1, count);
      RunKeeps(ss, ms, i - 1, count);
      assert Enabled(ss[i - 1], ms[i - 1]) && ss[i] == Next(ss[i - 1], ms[i - 1]) && Clean(ss[i - 1], ms[i - 1]);
      NextExact(ss[i - 1], ms[i - 1]);
    }
  }

  // With no failures, once the fork is over, all children are destroyed and all releases done, it is gone.
  lemma CleanForkIsCollected(ss: seq<State>, ms: seq<Move>, i: nat, count: nat)
    requires IsRun(ss, ms) && i < |ss| && ss[0] == Primed(count) && count > 0
    requires forall k {:trigger ms[k]} :: 0 <= k < i ==> Clean(ss[k], ms[k])
    requires ss[i].forker == Finished && ss[i].kids == {} && ss[i].leavers == map[]
    ensures !ss[i].present
  {
    RunExact(ss, ms, i, count);
    if ss[i].desc != [] { assert ss[i].desc[0] in ss[i].desc; }
  }

  /** A slot that is still reserved when the fork call has returned is never given back, and the directory
      stays for the rest of the daemon's life. */
  lemma {:induction false} LeftoverSlotPins(ss: seq<State>, ms: seq<Move>, i: nat, j: nat, count: nat)
    requires IsRun(ss, ms) && i <= j < |ss| && ss[0] == Primed(count)
    requires ss[i].forker == Finished && ss[i].pending > 0
    ensures ss[j].present && ss[j].pending == ss[i].pending && ss[j].forker == Finished
  {
    RunKeeps(ss, ms, j, count);
    if i < j {
      LeftoverSlotPins(ss, ms, i, j - 1, count);
      RunKeeps(ss, ms, j - 1, count);
      assert Enabled(ss[j - 1], ms[j - 1]) && ss[j] == Next(ss[j - 1], ms[j - 1]);
    }
  }

  // A failed spawn gives back its own slot and no other, so those of the children never tried are left.
  lemma FailedSpawnLeavesSlots(ss: seq<State>, ms: seq<Move>, i: nat, count: nat)
    requires IsRun(ss, ms) && i < |ms| && ss[0] == Primed(count) && ms[i] == SpawnFails(false)
    ensures ss[i + 1].forker == Finished && ss[i].present
    ensures ss[i + 1].pending == ss[i].pending - 1 >= ss[i].forker.left - 1
  {
    assert Enabled(ss[i], ms[i]) && ss[i + 1] == Next(ss[i], ms[i]);
    RunKeeps(ss, ms, i, count);
  }

  /** So a failed spawn with a child not tried yet pins the directory for the rest of the daemon's life. */
  lemma EarlyFailurePins(ss: seq<State>, ms: seq<Move>, i: nat, j: nat, count: nat)
    requires IsRun(ss, ms) && i < j < |ss| && ss[0] == Primed(count)
    requires ms[i] == SpawnFails(false) && ss[i].forker.left > 1
    ensures ss[j].present
  {
    FailedSpawnLeavesSlots(ss, ms, i, count);
    LeftoverSlotPins(ss, ms, i + 1, j, count);
  }

  // ---- exactly when it is removed ----

  predicate LastRelease(s: State, m: Move) { m.Release? && s.pending == 0 }

  // Some child has been released after the last slot was given back.
  ghost predicate Released(ss: seq<State>, ms: seq<Move>, i: nat)
    requires i <= |ms| && |ss| > |ms|
  {
    exists k :: 0 <= k < i && LastRelease(ss[k], ms[k])
  }

  // `released` says that some child has been released after the last slot was given back.
  ghost predicate Accounted(s: State, released: bool) {
    && (forall vm :: vm in s.desc ==> vm in s.kids || (vm in s.leavers && s.leavers[vm] == Gone))
    && (s.forker.Written? ==> s.forker.vm in s.kids)
    && (released ==> s.pending == 0 && (!s.present || s.desc != [] || BeingCollected(s)))
    && (!s.present || BeingCollected(s) ==> released)
  }

  lemma NextAccounted(s: State, m: Move, released: bool)
    requires Inv(s) && Accounted(s, released) && Enabled(s, m) && Reliable(s, m)
    ensures Accounted(Next(s, m), released || LastRelease(s, m))
  {
    NextListed(s, m, released);
    NextCollected(s, m, released);
  }

  lemma NextListed(s: State, m: Move, released: bool)
    requires Inv(s) && Accounted(s, released) && Enabled(s, m) && Reliable(s, m)
    ensures var s' := Next(s, m);
      && (forall vm :: vm in s'.desc ==> vm in s'.kids || (vm in s'.leavers && s'.leavers[vm] == Gone))
      && (s'.forker.Written? ==> s'.forker.vm in s'.kids)
  {
    if m.Collect? { NoDesc(s); }
  }

  // A fork-point that is being collected lists nobody.
  lemma NoDesc(s: State)
    requires Inv(s) && BeingCollected(s)
    ensures s.desc == [] && s.pending == 0
  {}

  lemma NextCollected(s: State, m: Move, released: bool)
    requires Inv(s) && Accounted(s, released) && Enabled(s, m) && Reliable(s, m)
    ensures var s' := Next(s, m);
      && (released || LastRelease(s, m) ==> s'.pending == 0 && (!s'.present || s'.desc != [] || BeingCollected(s')))
      && (!s'.present || BeingCollected(s') ==> released || LastRelease(s, m))
  {
    var s' := Next(s, m);
    if m.Release? && s.present && s.pending == 0 && s'.desc == [] {
      assert m.vm in s'.leavers && s'.leavers[m.vm] == Collecting;
    } else if BeingCollected(s) {
      var vm :| vm in s.leavers && s.leavers[vm] == Collecting;
      if m.Destroy? { NoKids(s); }
      if s'.present { assert vm in s'.leavers && s'.leavers[vm] == Collecting; }
    }
  }

  lemma ReleasedNext(ss: seq<State>, ms: seq<Move>, i: nat)
    requires i < |ms| < |ss|
    ensures Released(ss, ms, i + 1) <==> Released(ss, ms, i) || LastRelease(ss[i], ms[i])
  {}

  lemma {:induction false} RunAccounted(ss: seq<State>, ms: seq<Move>, i: nat, count: nat)
    requires IsRun(ss, ms) && i < |ss| && ss[0] == Primed(count)
    requires forall k {:trigger ms[k]} :: 0 <= k < i ==> Reliable(ss[k], ms[k])
    ensures Accounted(ss[i], Released(ss, ms, i))
  {
    if i > 0 {
      RunAccounted(ss, ms, i - 1, count);
      RunKeeps(ss, ms, i - 1, count);
      var s, m := ss[i - 1], ms[i - 1];
      assert Enabled(s, m) && ss[i] == Next(s, m) && Reliable(s, m);
      NextAccounted(s, m, Released(ss, ms, i - 1));
      ReleasedNext(ss, ms, i - 1);
    }
  }

  /** Once the fork is over, all children are destroyed and all releases done, the directory is gone exactly
      when some child was released after the last slot had been given back. */
  lemma CollectedExactly(ss: seq<State>, ms: seq<Move>, i: nat, count: nat)
    requires IsRun(ss, ms) && i < |ss| && ss[0] == Primed(count)
    requires forall k {:trigger ms[k]} :: 0 <= k < i ==> Reliable(ss[k], ms[k])
    requires ss[i].forker == Finished && ss[i].kids == {} && ss[i].leavers == map[]
    ensures !ss[i].present <==> Released(ss, ms, i)
  {
    RunAccounted(ss, ms, i, count);
    if ss[i].desc != [] { assert ss[i].desc[0] in ss[i].desc; }
  }

  // How many spawns have gone through.
  function SpawnCount(ms: seq<Move>): nat {
    if ms == [] then 0 else SpawnCount(ms[..|ms| - 1]) + if Last(ms) == Spawn then 1 else 0
  }

  // Besides, no child is destroyed before the fork call has returned.
  predicate Patient(s: State, m: Move) { Reliable(s, m) && (m.Destroy? ==> s.forker == Finished) }

  predicate CountsUp(s: State, spawned: nat, count: nat) {
    match s.forker
    case Spawning(left) => spawned + left == count
    case Written(_, left) => spawned + left == count
    case Finished => s.pending == (if spawned == count then 0 else count - spawned - 1)
  }

  // Where the fork stands after `spawned` of `count` children, and the first child if nothing was released yet.
  ghost predicate Standing(s: State, spawned: nat, count: nat, anyRelease: bool) {
    && s.next == spawned <= count
    && (s.forker != Finished ==> s.present && s.leavers == map[] && s.pending == ToCome(s) && !anyRelease)
    && CountsUp(s, spawned, count)
    && (spawned > 0 && !anyRelease ==> 0 in s.kids || (0 in s.leavers && s.leavers[0] == Gone))
    && (spawned == 0 ==> s.kids == {} && s.leavers == map[] && !anyRelease)
  }

  lemma NextStanding(s: State, m: Move, spawned: nat, count: nat, anyRelease: bool)
    requires Inv(s) && Standing(s, spawned, count, anyRelease) && Enabled(s, m) && Patient(s, m)
    ensures Standing(Next(s, m), spawned + (if m == Spawn then 1 else 0), count, anyRelease || m.Release?)
  {}

  // In a patient run every release comes after the last slot was given back, or none does.
  ghost predicate AnyRelease(ms: seq<Move>, i: nat)
    requires i <= |ms|
  {
    exists k :: 0 <= k < i && ms[k].Release?
  }

  lemma {:induction false} RunStanding(ss: seq<State>, ms: seq<Move>, i: nat, count: nat)
    requires IsRun(ss, ms) && i < |ss| && ss[0] == Primed(count)
    requires forall k {:trigger ms[k]} :: 0 <= k < i ==> Patient(ss[k], ms[k])
    ensures Standing(ss[i], SpawnCount(ms[..i]), count, AnyRelease(ms, i))
    ensures Released(ss, ms, i) <==> AnyRelease(ms, i) && ss[i].pending == 0
  {
    if i == 0 {
      StandingStart(ss, ms, count);
    } else {
      RunStanding(ss, ms, i - 1, count);
      RunKeeps(ss, ms, i - 1, count);
      assert Patient(ss[i - 1], ms[i - 1]);
      StandingStep(ss, ms, i - 1, count);
    }
  }

  lemma StandingStart(ss: seq<State>, ms: seq<Move>, count: nat)
    requires |ss| == |ms| + 1 && ss[0] == Primed(count)
    ensures Standing(ss[0], SpawnCount(ms[..0]), count, AnyRelease(ms, 0)) && !Released(ss, ms, 0) && !AnyRelease(ms, 0)
  {
    assert ms[..0] == [];
  }

  lemma StandingStep(ss: seq<State>, ms: seq<Move>, i: nat, count: nat)
    requires IsRun(ss, ms) && i < |ms| && Inv(ss[i]) && Patient(ss[i], ms[i])
    requires Standing(ss[i], SpawnCount(ms[..i]), count, AnyRelease(ms, i))
    requires Released(ss, ms, i) <==> AnyRelease(ms, i) && ss[i].pending == 0
    ensures Standing(ss[i + 1], SpawnCount(ms[..i + 1]), count, AnyRelease(ms, i + 1))
    ensures Released(ss, ms, i + 1) <==> AnyRelease(ms, i + 1) && ss[i + 1].pending == 0
  {
    assert Enabled(ss[i], ms[i]) && ss[i + 1] == Next(ss[i], ms[i]);
    StandingNext(ss[i], ms[i], SpawnCount(ms[..i]), count, AnyRelease(ms, i), Released(ss, ms, i));
    SpawnCountNext(ms, i);
    ReleasedNext(ss, ms, i);
  }

  lemma SpawnCountNext(ms: seq<Move>, i: nat)
    requires i < |ms|
    ensures SpawnCount(ms[..i + 1]) == SpawnCount(ms[..i]) + if ms[i] == Spawn then 1 else 0
    ensures AnyRelease(ms, i + 1) <==> AnyRelease(ms, i) || ms[i].Release?
  {
    assert ms[..i + 1][..i] == ms[..i] && Last(ms[..i + 1]) == ms[i];
  }

  lemma StandingNext(s: State, m: Move, spawned: nat, count: nat, anyRelease: bool, released: bool)
    requires Inv(s) && Standing(s, spawned, count, anyRelease) && Enabled(s, m) && Patient(s, m)
    requires released <==> anyRelease && s.pending == 0
    ensures Standing(Next(s, m), spawned + (if m == Spawn then 1 else 0), count, anyRelease || m.Release?)
    ensures released || LastRelease(s, m) <==> (anyRelease || m.Release?) && Next(s, m).pending == 0
  {
    NextStanding(s, m, spawned, count, anyRelease);
  }

  /** So, if children are destroyed only after the fork call has returned, the directory is gone in the end
      exactly when at least one child was spawned and at most one was not. */
  lemma CollectedByCount(ss: seq<State>, ms: seq<Move>, i: nat, count: nat)
    requires IsRun(ss, ms) && i < |ss| && ss[0] == Primed(count)
    requires forall k {:trigger ms[k]} :: 0 <= k < i ==> Patient(ss[k], ms[k])
    requires ss[i].forker == Finished && ss[i].kids == {} && ss[i].leavers == map[]
    ensures var spawned := SpawnCount(ms[..i]);
      !ss[i].present <==> spawned >= 1 && spawned + 1 >= count
  {
    CollectedExactly(ss, ms, i, count);
    RunStanding(ss, ms, i, count);
  }

  // ---- the records as the code changes them ----

  datatype SpawnOutcome = Fails(fault: bool) | Spawned(fault: bool)

  // The children, numbered from `first`, whose fpinfo update went through.
  function Recorded(outcomes: seq<SpawnOutcome>, first: VmId): seq<VmId> {
    if outcomes == [] then []
    else
      Recorded(outcomes[..|outcomes| - 1], first)
      + if Last(outcomes) == Spawned(false) then [first + |outcomes| - 1] else []
  }

  function Elements(vms: seq<VmId>): set<VmId> { set vm | vm in vms }

  lemma OneElementMore(vms: seq<VmId>, vm: VmId)
    ensures Elements(vms + [vm]) == Elements(vms) + {vm}
  {}

  lemma RecordedSize(outcomes: seq<SpawnOutcome>, first: VmId)
    ensures |Recorded(outcomes, first)| <= |outcomes|
  {}

  lemma RecordedNext(outcomes: seq<SpawnOutcome>, i: nat, first: VmId)
    requires i < |outcomes|
    ensures |Recorded(outcomes[..i], first)| <= i
    ensures Recorded(outcomes[..i + 1], first) ==
            Recorded(outcomes[..i], first) + if outcomes[i] == Spawned(false) then [first + i] else []
  {
    RecordedSize(outcomes[..i], first);
    assert outcomes[..i + 1][..i] == outcomes[..i];
  }

  class ForkPoint {
    var present: bool
    var pending: int
    var descendants: seq<VmId>
    var kids: set<VmId>
    var forker: Forker
    var leavers: map<VmId, Leaver>
    var next: VmId

    ghost function Current(): State
      reads this
    {
      State(present, pending, descendants, kids, forker, leavers, next)
    }

    constructor (count: nat)
      ensures Current() == Primed(count)
    {
      present, pending, descendants, kids := true, count, [], {};
      forker, leavers, next := Spawning(count), map[], 0;
    }

    // The steps of SpawnFromForkPoint up to the child's vminfo, then its fpinfo update.
    method SpawnChild(outcome: SpawnOutcome) returns (ok: bool, vm: VmId)
      requires Enabled(Current(), Spawn)
      modifies this
      ensures ok == outcome.Spawned? && vm == old(next)
      ensures ok ==> Current() == Next(Next(old(Current()), Spawn), Record(outcome.fault))
      ensures ok ==> kids == old(kids) + {vm} && next == old(next) + 1 && forker == Spawning(old(forker).left - 1)
      ensures ok ==> present == old(present) && leavers == old(leavers)
      ensures ok && present && old(pending) > 0 ==>
        && descendants == old(descendants) + (if outcome.fault then [] else [vm])
        && pending == old(pending) - if outcome.fault then 0 else 1
      ensures !ok ==> Current() == old(Current())
      ensures Inv(old(Current())) ==> Inv(Current())
    {
      ghost var s := Current();
      if Inv(s) && outcome.Spawned? {
        NextKeeps(s, Spawn);
        NextKeeps(Next(s, Spawn), Record(outcome.fault));
      }
      vm := next;
      if outcome.Fails? {
        return false, vm;
      }
      var left := forker.left - 1;
      kids := kids + {vm};
      next := next + 1;
      if !outcome.fault && present {
        descendants := descendants + [vm];
        if pending > 0 {
          pending := pending - 1;
        }
      }
      forker := Spawning(left);
      return true, vm;
    }

    // What the loop of ForkSandbox does about a failed spawn.
    method GiveUp(fault: bool)
      requires Enabled(Current(), SpawnFails(fault))
      modifies this
      ensures Current() == Next(old(Current()), SpawnFails(fault))
      ensures Inv(old(Current())) ==> Inv(Current())
    {
      if Inv(Current()) { NextKeeps(Current(), SpawnFails(fault)); }
      if !fault && present && pending > 0 {
        pending := pending - 1;
      }
      forker := Finished;
    }

    // The loop of ForkSandbox: stops at the first failure, giving back only the slot of the failed child.
    method Fork(outcomes: seq<SpawnOutcome>) returns (children: seq<VmId>, ok: bool)
      requires forker == Spawning(|outcomes|) && present && pending >= |outcomes|
      modifies this
      ensures forker == Finished
      ensures ok <==> forall o :: o in outcomes ==> o.Spawned?
      ensures ok ==> |children| == |outcomes|
      ensures !ok ==> |children| < |outcomes| && outcomes[|children|].Fails?
      ensures forall i :: 0 <= i < |children| ==> children[i] == old(next) + i && outcomes[i].Spawned?
      ensures kids == old(kids) + Elements(children)
      ensures present && leavers == old(leavers)
      ensures var recorded := Recorded(outcomes[..|children|], old(next));
        && descendants == old(descendants) + recorded
        && pending == old(pending) - |recorded| - if ok || outcomes[|children|].fault then 0 else 1
      ensures Inv(old(Current())) ==> Inv(Current())
    {
      children := [];
      var i := 0;
      while i < |outcomes|
        invariant 0 <= i <= |outcomes| && |children| == i && next == old(next) + i
        invariant forker == Spawning(|outcomes| - i)
        invariant forall k :: 0 <= k < i ==> children[k] == old(next) + k && outcomes[k].Spawned?
        invariant kids == old(kids) + Elements(children)
        invariant present && leavers == old(leavers)
        invariant descendants == old(descendants) + Recorded(outcomes[..i], old(next))
        invariant pending == old(pending) - |Recorded(outcomes[..i], old(next))|
        invariant Inv(old(Current())) ==> Inv(Current())
      {
        RecordedNext(outcomes, i, old(next));
        var spawned, vm := SpawnChild(outcomes[i]);
        if !spawned {
          GiveUp(outcomes[i].fault);
          assert outcomes[i] in outcomes;
          return children, false;
        }
        OneElementMore(children, vm);
        children := children + [vm];
        i := i + 1;
      }
      assert outcomes[..i] == outcomes;
      Return();
      return children, true;
    }

    // The loop is through.
    method Return()
      requires Enabled(Current(), Finish)
      modifies this
      ensures Current() == Next(old(Current()), Finish)
      ensures forker == Finished && pending == old(pending) && descendants == old(descendants) && kids == old(kids)
      ensures present == old(present) && leavers == old(leavers)
      ensures Inv(old(Current())) ==> Inv(Current())
    {
      if Inv(Current()) { NextKeeps(Current(), Finish); }
      forker := Finished;
    }

    // The update of ReleaseForkPointDescendant; true if the directory is to be removed.
    method ReleaseDescendant(vm: VmId, fault: bool) returns (nowEmpty: bool)
      requires Enabled(Current(), Release(vm, fault))
      modifies this
      ensures Current() == Next(old(Current()), Release(vm, fault))
      ensures nowEmpty <==> vm in leavers && leavers[vm] == Collecting
    {
      if !present || fault {
        leavers := leavers - {vm};
        return false;
      }
      var filtered := [];
      var i := 0;
      while i < |descendants|
        invariant 0 <= i <= |descendants|
        invariant filtered + Without(descendants[i..], vm) == Without(descendants, vm)
      {
        if descendants[i] != vm {
          filtered := filtered + [descendants[i]];
        }
        i := i + 1;
      }
      descendants := filtered;
      nowEmpty := |filtered| == 0 && pending == 0;
      leavers := if nowEmpty then leavers[vm := Collecting] else leavers - {vm};
    }
  }
}
