/** What holds of a resize on both layers, and of the sizes over any run of boots and resizes. */
module ResizeTheorems {
  import opened Common
  import opened ResizeModel

  // The live values are the ones vminfo stands for, and the cached copy has the same limits.
  ghost predicate InStep(m: Machine) {
    && (m.disk.cgroup ==> m.quota == PriorQuota(m))
    && m.balloon == PriorBalloon(m)
    && (m.cached.Some? ==> m.cached.value.limitCPU == m.disk.limitCPU && m.cached.value.limitMem == m.disk.limitMem)
  }

  // A compensation that was tried failed, and had something to undo.
  ghost predicate LeavesDamage(m: Machine, req: Limits, f: ProviderFaults) {
    && Tries(m, req, f) && !(req.cpu.Some? && f.quota)
    && (if req.mem.Some? && !Patched(f.patch) then
          req.cpu.Some? && f.quotaBack && req.cpu.value != m.disk.EffectiveCPU()
        else
          && f.write
          && (|| (req.cpu.Some? && f.quotaBack && req.cpu.value != m.disk.EffectiveCPU())
              || (req.mem.Some? && !Patched(f.patchBack) && Tuned(m, req).balloon != PriorBalloon(m))))
  }

  // A failed provider call changes nothing, unless a compensation it tried failed too.
  lemma FailedResizeChangesNothing(m: Machine, req: Limits, f: ProviderFaults)
    requires InStep(m) && !Resized(m, req, f).1
    ensures Resized(m, req, f).0 == m <==> !LeavesDamage(m, req, f)
  {}

  // vminfo and its cached copy never change on a failure, whatever the compensations do.
  lemma FailedResizeKeepsRecords(m: Machine, req: Limits, f: ProviderFaults)
    requires !Resized(m, req, f).1
    ensures var r := Resized(m, req, f).0; r.disk == m.disk && r.cached == m.cached && r.barred == m.barred
  {}

  // The service reaches the provider.
  ghost predicate Calls(s: Sandbox, req: Limits, liveOnly: bool, f: ServiceFaults) {
    && req != NO_LIMITS && !f.read && s.row.phase == Running && InBounds(req) && (liveOnly || !f.persist)
  }

  /** A failed call leaves the row, vminfo, the cache, the quota and the balloon as they were, exactly when
      every compensation it tried that had something to undo went through. */
  lemma FailedUpdateChangesNothing(s: Sandbox, req: Limits, liveOnly: bool, f: ServiceFaults)
    requires InStep(s.vm) && !Update(s, req, liveOnly, f).1
    ensures Update(s, req, liveOnly, f).0 == s <==>
            !(Calls(s, req, liveOnly, f)
              && (LeavesDamage(s.vm, req, f.provider)
                  || (!liveOnly && f.rollback && Patch(s.row.limits, req) != s.row.limits)))
  {
    if Calls(s, req, liveOnly, f) { FailedResizeChangesNothing(s.vm, req, f.provider); }
  }

  /** A successful persisting call on a running sandbox: the row, vminfo, the cache, the quota and the balloon
      agree on every limit it changed, and no other limit changed anywhere. */
  lemma SuccessfulUpdateAgrees(s: Sandbox, req: Limits, f: ServiceFaults)
    requires Update(s, req, false, f).1 && s.row.phase == Running
    ensures var r := Update(s, req, false, f).0;
      && r.vm.cached.Some? && r.vm.disk.CeilMem() == s.vm.disk.CeilMem()
      && (if req.cpu.Some? then
            && r.row.limits.cpu == req.cpu && r.vm.disk.limitCPU == req.cpu.value
            && r.vm.cached.value.limitCPU == req.cpu.value && r.vm.quota == req.cpu.value * 100_000
          else
            && r.row.limits.cpu == s.row.limits.cpu && r.vm.disk.limitCPU == s.vm.disk.limitCPU
            && r.vm.cached.value.limitCPU == s.vm.cached.value.limitCPU && r.vm.quota == s.vm.quota)
      && (if req.mem.Some? then
            && r.row.limits.mem == req.mem && r.vm.disk.limitMem == req.mem.value
            && r.vm.cached.value.limitMem == req.mem.value && r.vm.balloon + req.mem.value == r.vm.disk.CeilMem()
          else
            && r.row.limits.mem == s.row.limits.mem && r.vm.disk.limitMem == s.vm.disk.limitMem
            && r.vm.cached.value.limitMem == s.vm.cached.value.limitMem && r.vm.balloon == s.vm.balloon)
  {}

  // Nor does a failed call of the service, persisting or not.
  lemma FailedUpdateKeepsRecords(s: Sandbox, req: Limits, liveOnly: bool, f: ServiceFaults)
    requires !Update(s, req, liveOnly, f).1
    ensures var r := Update(s, req, liveOnly, f).0; r.vm.disk == s.vm.disk && r.vm.cached == s.vm.cached
  {
    if !Resized(s.vm, req, f.provider).1 { FailedResizeKeepsRecords(s.vm, req, f.provider); }
  }

  // An overlay never touches the row.
  lemma OverlayKeepsRow(s: Sandbox, req: Limits, f: ServiceFaults)
    ensures Update(s, req, true, f).0.row == s.row
  {}

  // A resize and the opposite resize put everything back.
  lemma ResizeRoundTrip(m: Machine, req: Limits, f: ProviderFaults, g: ProviderFaults)
    requires InStep(m) && m.disk.limitCPU > 0 && m.disk.limitMem > 0
    requires Resized(m, req, f).1
    requires var back := Limits(if req.cpu.Some? then Some(m.disk.limitCPU) else None,
                                if req.mem.Some? then Some(m.disk.limitMem) else None);
      Resized(Resized(m, req, f).0, back, g).1
    ensures var back := Limits(if req.cpu.Some? then Some(m.disk.limitCPU) else None,
                               if req.mem.Some? then Some(m.disk.limitMem) else None);
      Resized(Resized(m, req, f).0, back, g).0 == m
  {}

  // ---- sizes ----

  predicate Sized(i: Info) {
    && MIN_CPU <= i.limitCPU <= i.ceilingCPU <= MAX_CPU && i.vcpus == i.ceilingCPU
    && MIN_MEM <= i.limitMem <= i.ceilingMem <= MAX_MEM && i.memSize == i.ceilingMem
  }

  // The live values are those of some limit within bounds and ceiling, even after a failed compensation.
  predicate Plausible(m: Machine) {
    && 0 <= m.balloon <= m.disk.ceilingMem - MIN_MEM
    && (m.disk.cgroup ==> MIN_CPU * PERIOD <= m.quota <= m.disk.ceilingCPU * PERIOD)
  }

  lemma CeilAtLeast(n: int, mult: real)
    requires n >= 1 && mult >= 1.0
    ensures Ceil(n as real * mult) >= n
  {
    var x := n as real * mult;
    assert x >= n as real;
    assert (-x).Floor as real <= -x;
  }

  lemma CreatedSized(cfg: Config, req: Limits)
    requires cfg.Valid() && InBounds(req)
    ensures Sized(Resolve(cfg, req))
  {
    CeilAtLeast(if req.cpu.Some? then req.cpu.value else cfg.defaultCPU, cfg.multCPU);
    CeilAtLeast(if req.mem.Some? then req.mem.value else cfg.defaultMem, cfg.multMem);
  }

  lemma BootedInStep(m: Machine, cgroup: bool)
    requires Sized(m.disk)
    ensures var b := Booted(m, cgroup);
      && Sized(b.disk) && Plausible(b) && InStep(b)
      && b.balloon + b.disk.limitMem == b.disk.ceilingMem
  {}

  type Resting = p: Phase | p != Running witness Idle

  datatype Event =
    | Boot(cgroup: bool)
    | Change(req: Limits, liveOnly: bool, f: ServiceFaults)
    | Move(phase: Resting, barred: bool)     // the sandbox leaves Running; a stop begins, or fails
    | Stopped                                // a stop is through: its cache entry and file lock are gone

  ghost function Step(s: Sandbox, e: Event): Sandbox {
    match e
    case Boot(cgroup) => Sandbox(s.row.(phase := Running), Booted(s.vm, cgroup).(barred := false))
    case Change(req, liveOnly, f) => Update(s, req, liveOnly, f).0
    case Move(phase, barred) => s.(row := s.row.(phase := phase), vm := s.vm.(barred := barred))
    case Stopped => s.(row := s.row.(phase := Idle), vm := s.vm.(cached := None, barred := false))
  }

  ghost function After(s: Sandbox, es: seq<Event>): Sandbox {
    if es == [] then s else Step(After(s, es[..|es| - 1]), es[|es| - 1])
  }

  /** From the first boot of a created sandbox on, through any resizes with any failures, any overlays, stops
      and boots: the recorded limits stay between the minimum and the ceiling and the ceiling at or below the
      maximum, the ceiling never moves, quota and balloon stay those of an admissible limit, and a running
      sandbox has its cache entry. */
  lemma {:induction false} SizesHold(cfg: Config, req: Limits, s0: Sandbox, cgroup: bool, es: seq<Event>)
    requires cfg.Valid() && InBounds(req) && s0.vm.disk == Resolve(cfg, req)
    ensures var s := After(s0, [Boot(cgroup)] + es);
      && Sized(s.vm.disk) && Plausible(s.vm) && (s.row.phase == Running ==> s.vm.cached.Some?)
      && s.vm.disk.ceilingCPU == s0.vm.disk.ceilingCPU && s.vm.disk.ceilingMem == s0.vm.disk.ceilingMem
  {
    var all := [Boot(cgroup)] + es;
    CreatedSized(cfg, req);
    if es == [] {
      assert all[..|all| - 1] == [];
      BootedInStep(s0.vm, cgroup);
    } else {
      var short := es[..|es| - 1];
      assert all[..|all| - 1] == [Boot(cgroup)] + short;
      SizesHold(cfg, req, s0, cgroup, short);
      StepSized(After(s0, [Boot(cgroup)] + short), all[|all| - 1]);
    }
  }

  lemma StepSized(s: Sandbox, e: Event)
    requires Sized(s.vm.disk) && Plausible(s.vm) && (s.row.phase == Running ==> s.vm.cached.Some?)
    ensures var r := Step(s, e);
      && Sized(r.vm.disk) && Plausible(r.vm) && (r.row.phase == Running ==> r.vm.cached.Some?)
      && r.vm.disk.ceilingCPU == s.vm.disk.ceilingCPU && r.vm.disk.ceilingMem == s.vm.disk.ceilingMem
  {}

  /** Over any run of boots, stops and overlays, with any failures, the row keeps the limits it had: only a
      persisting resize changes what the user asked for. */
  lemma {:induction false} OverlaysKeepLimits(s: Sandbox, es: seq<Event>)
    requires forall e :: e in es && e.Change? ==> e.liveOnly
    ensures After(s, es).row.limits == s.row.limits
  {
    if es != [] {
      var short, e := es[..|es| - 1], es[|es| - 1];
      OverlaysKeepLimits(s, short);
      assert e in es;
      if e.Change? { OverlayKeepsRow(After(s, short), e.req, e.f); }
    }
  }

  /** The live values match the record over any run as well, as long as no resize leaves damage. */
  lemma {:induction false} StaysInStep(cfg: Config, req: Limits, s0: Sandbox, cgroup: bool, es: seq<Event>)
    requires cfg.Valid() && InBounds(req) && s0.vm.disk == Resolve(cfg, req)
    requires forall i :: 0 <= i < |es| && es[i].Change? ==>
      !LeavesDamage(After(s0, [Boot(cgroup)] + es[..i]).vm, es[i].req, es[i].f.provider)
    ensures InStep(After(s0, [Boot(cgroup)] + es).vm)
  {
    var all := [Boot(cgroup)] + es;
    CreatedSized(cfg, req);
    if es == [] {
      assert all[..|all| - 1] == [];
      BootedInStep(s0.vm, cgroup);
    } else {
      var short := es[..|es| - 1];
      assert all[..|all| - 1] == [Boot(cgroup)] + short;
      forall i | 0 <= i < |short| && short[i].Change?
        ensures !LeavesDamage(After(s0, [Boot(cgroup)] + short[..i]).vm, short[i].req, short[i].f.provider)
      {
        assert short[..i] == es[..i] && short[i] == es[i];
      }
      StaysInStep(cfg, req, s0, cgroup, short);
      SizesHold(cfg, req, s0, cgroup, short);
      assert es[..|es| - 1] == short;
      StepInStep(After(s0, [Boot(cgroup)] + short), es[|es| - 1]);
    }
  }

  lemma StepInStep(s: Sandbox, e: Event)
    requires Sized(s.vm.disk) && InStep(s.vm)
    requires e.Change? ==> !LeavesDamage(s.vm, e.req, e.f.provider)
    ensures InStep(Step(s, e).vm)
  {
    if e.Change? && !Resized(s.vm, e.req, e.f.provider).1 {
      FailedResizeChangesNothing(s.vm, e.req, e.f.provider);
    }
  }

  /** Limits given while the sandbox is stopped are recorded in its row only. The next boot enforces them
      exactly when they are what vminfo already had. */
  lemma StoppedResizeWaits(s: Sandbox, req: Limits, f: ServiceFaults)
    requires Sized(s.vm.disk) && s.row.phase == Idle && Update(s, req, false, f).1
    ensures var r := Step(Update(s, req, false, f).0, Boot(true));
      && r.row.limits == Patch(s.row.limits, req)
      && ((req.cpu.Some? ==> r.vm.quota == req.cpu.value * PERIOD)
          && (req.mem.Some? ==> r.vm.balloon == r.vm.disk.ceilingMem - req.mem.value)
          <==> s.vm.disk.With(req) == s.vm.disk)
  {}
}
