/** The boost service sees a resize as one provider call that works or changes nothing. On a Firecracker
    machine that is what the two-layer resize looks like, as long as no compensation it tries fails. */
module ResizeBridge {
  import opened Common
  import B = BoostModel
  import R = ResizeModel
  import opened ResizeTheorems

  function PhaseOf(state: B.SandboxState): R.Phase {
    match state
    case Running => R.Running
    case Destroyed => R.Gone
    case Failed => R.Gone
    case _ => R.Idle
  }

  // The limits the guest lives under: whole CPUs of quota, and what the balloon leaves of the ceiling.
  function LiveOf(m: R.Machine): B.Live {
    B.Live(m.quota / R.PERIOD, m.disk.CeilMem() - m.balloon)
  }

  predicate Shows(b: B.Sandbox, s: R.Sandbox) {
    && b.backend == B.Firecracker && PhaseOf(b.state) == s.row.phase
    && b.limits == s.row.limits && b.live == LiveOf(s.vm)
  }

  // The provider call fails.
  ghost predicate Refused(s: R.Sandbox, req: Limits, f: R.ServiceFaults) {
    !R.Resized(s.vm, req, f.provider).1
  }

  ghost function Seen(s: R.Sandbox, req: Limits, f: R.ServiceFaults): B.ResizeFaults {
    B.ResizeFaults(f.read, f.persist, Refused(s, req, f), f.rollback)
  }

  /** The two models of one call agree on its result and on the sandbox it leaves, whatever fails, if a failed
      provider call leaves no damage. */
  lemma SameResize(w: B.World, sid: B.SandboxId, s: R.Sandbox, req: Limits, liveOnly: bool, f: R.ServiceFaults)
    requires sid in w.sandboxes && Shows(w.sandboxes[sid], s) && InStep(s.vm)
    requires Calls(s, req, liveOnly, f) ==> !LeavesDamage(s.vm, req, f.provider)
    ensures var o := B.UpdateResources(w, sid, req, liveOnly, Seen(s, req, f));
      var (s', ok) := R.Update(s, req, liveOnly, f);
      && o.ok == ok
      && sid in Last(o.stages).sandboxes && Shows(Last(o.stages).sandboxes[sid], s')
  {
    if Calls(s, req, liveOnly, f) {
      if Refused(s, req, f) {
        FailedResizeChangesNothing(s.vm, req, f.provider);
      } else {
        LiveAfter(s.vm, req, f.provider);
      }
    }
  }

  // A resize that works enforces exactly the limits it was given.
  lemma LiveAfter(m: R.Machine, req: Limits, f: R.ProviderFaults)
    requires R.Resized(m, req, f).1
    ensures LiveOf(R.Resized(m, req, f).0) == B.Enforce(LiveOf(m), req)
  {}

  /** So where the boost service finds live and persisted limits equal, the quota is the CPU limit's and the
      balloon with the memory limit makes the ceiling. */
  lemma AgreementMeans(b: B.Sandbox, s: R.Sandbox)
    requires Shows(b, s) && InStep(s.vm) && s.vm.disk.cgroup && b.limits.cpu.Some? && b.limits.mem.Some?
    ensures B.Enforce(b.live, b.limits) == b.live <==>
            s.vm.quota == b.limits.cpu.value * R.PERIOD && s.vm.balloon + b.limits.mem.value == s.vm.disk.CeilMem()
  {}
}
