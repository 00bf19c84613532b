/** Exactly when a resize succeeds, on each layer; what a failed one leaves, value by value; and how a machine is
    sized and booted. The constants of the source are written out here. */
module ResizeOutcomes {
  import opened Common
  import opened ResizeModel
  import opened ResizeTheorems

  // The balloon is patched if the VM accepts within ten tries, having asked to wait before.
  lemma PatchedWithinTen(n: nat, rest: seq<Reply>)
    ensures Patched(Waits(n) + [Accepted] + rest) <==> n < 10
    ensures !Patched(Waits(n) + [Refused] + rest)
  {
    var accepted, refused := Waits(n) + [Accepted] + rest, Waits(n) + [Refused] + rest;
    forall k: nat ensures k < n ==> ReplyAt(accepted, k) == ReplyAt(refused, k) == NotActivated {
      if k < n { WaitsAt(n, k); }
    }
    assert ReplyAt(accepted, n) == Accepted && ReplyAt(refused, n) == Refused;
  }

  function Waits(n: nat): (r: seq<Reply>)
    ensures |r| == n
  {
    if n == 0 then [] else Waits(n - 1) + [NotActivated]
  }

  lemma {:induction false} WaitsAt(n: nat, k: nat)
    requires k < n
    ensures Waits(n)[k] == NotActivated
  {
    if k < n - 1 { WaitsAt(n - 1, k); }
  }

  /** The provider's call succeeds exactly when nothing is asked for, or the VM is not stopping, is registered and
      its vminfo can be read, each new limit is at most its ceiling (the boot size where there is none), the CPU
      cgroup is there if needed, the quota and the balloon take, and vminfo can be written. */
  lemma ResizedExactly(m: Machine, req: Limits, f: ProviderFaults)
    ensures Resized(m, req, f).1 <==>
            || (req.cpu.None? && req.mem.None?)
            || (&& !m.barred && m.cached.Some? && !f.read && !f.write
                && (match req.cpu
                    case None => true
                    case Some(c) =>
                      && c <= (if m.disk.ceilingCPU == 0 then m.disk.vcpus else m.disk.ceilingCPU)
                      && m.disk.cgroup && !f.quota)
                && (match req.mem
                    case None => true
                    case Some(mem) =>
                      && mem <= (if m.disk.ceilingMem == 0 then m.disk.memSize else m.disk.ceilingMem)
                      && Patched(f.patch)))
  {}

  /** The service's call succeeds exactly when something within 1..32 CPUs and 128..8192 MB is asked for, the sandbox
      can be read and is not gone, the row can be written unless the call is live-only, and, on a running
      sandbox, the provider's call does. */
  lemma UpdatedExactly(s: Sandbox, req: Limits, liveOnly: bool, f: ServiceFaults)
    ensures Update(s, req, liveOnly, f).1 <==>
            && (req.cpu.Some? || req.mem.Some?)
            && (req.cpu.Some? ==> 1 <= req.cpu.value <= 32) && (req.mem.Some? ==> 128 <= req.mem.value <= 8192)
            && !f.read && s.row.phase != Gone && (liveOnly || !f.persist)
            && (s.row.phase == Running ==> Resized(s.vm, req, f.provider).1)
  {}

  // A persisting call on a sandbox that does not run changes its row and nothing of the machine.
  lemma IdleUpdate(s: Sandbox, req: Limits, f: ServiceFaults)
    requires Update(s, req, false, f).1 && s.row.phase == Idle
    ensures var r := Update(s, req, false, f).0;
      && r.vm == s.vm && r.row.phase == Idle
      && r.row.limits.cpu == (if req.cpu.Some? then req.cpu else s.row.limits.cpu)
      && r.row.limits.mem == (if req.mem.Some? then req.mem else s.row.limits.mem)
  {}

  // The CPU limit a record stands for: its limit, else its ceiling, else its boot size, else one.
  function RecordedCPU(i: Info): int {
    if i.limitCPU > 0 then i.limitCPU else if i.ceilingCPU > 0 then i.ceilingCPU else if i.vcpus > 0 then i.vcpus else 1
  }

  // What the balloon holds back for a record: the ceiling less the limit, each the boot size where it is not set.
  function RecordedBalloon(i: Info): int {
    var ceiling := if i.ceilingMem == 0 then i.memSize else i.ceilingMem;
    if ceiling == 0 then 0 else ceiling - (if i.limitMem == 0 then i.memSize else i.limitMem)
  }

  /** What a failed call that got as far as its first write leaves: the quota of the record if the write back
      works, the new one if not, the one before if it was never set; and the balloon likewise. */
  lemma FailureLeaves(m: Machine, req: Limits, f: ProviderFaults)
    requires !Resized(m, req, f).1 && Tries(m, req, f)
    ensures var r := Resized(m, req, f).0;
      var raised := req.cpu.Some? && !f.quota;
      var pumped := (req.cpu.Some? ==> !f.quota) && req.mem.Some? && Patched(f.patch);
      && r.quota == (if !raised then m.quota
                     else if f.quotaBack then req.cpu.value * 100_000 else RecordedCPU(m.disk) * 100_000)
      && r.balloon == (if !pumped then m.balloon
                       else if Patched(f.patchBack) then RecordedBalloon(m.disk)
                       else (if m.disk.ceilingMem == 0 then m.disk.memSize else m.disk.ceilingMem) - req.mem.value)
  {}

  // x rounded up, or the maximum if that is smaller.
  predicate IsCeiling(n: int, x: real, max: int) {
    if x > max as real then n == max else n as real >= x && (n - 1) as real < x
  }

  /** A new machine has the limits asked for, or the daemon's defaults, and boots with ceilings that are the least
      integers at or above limit times multiplier, at most 32 CPUs and 8192 MB. */
  lemma ResolvedSizes(cfg: Config, req: Limits)
    ensures var i := Resolve(cfg, req);
      && i.limitCPU == (if req.cpu.Some? then req.cpu.value else cfg.defaultCPU)
      && i.limitMem == (if req.mem.Some? then req.mem.value else cfg.defaultMem)
      && IsCeiling(i.ceilingCPU, i.limitCPU as real * cfg.multCPU, 32)
      && IsCeiling(i.ceilingMem, i.limitMem as real * cfg.multMem, 8192)
      && i.vcpus == i.ceilingCPU && i.memSize == i.ceilingMem && !i.cgroup
  {
    var i := Resolve(cfg, req);
    CeilIs(i.limitCPU as real * cfg.multCPU);
    CeilIs(i.limitMem as real * cfg.multMem);
  }

  lemma CeilIs(x: real)
    ensures Ceil(x) as real >= x && (Ceil(x) - 1) as real < x
  {
    var n := (-x).Floor;
    assert n as real <= -x < n as real + 1.0;
  }

  /** A boot registers the machine, writes the quota of its limit if the cgroup is there, and inflates the balloon
      by what the limit leaves of the ceiling. */
  lemma BootedValues(m: Machine, cgroup: bool)
    requires Sized(m.disk)
    ensures var b := Booted(m, cgroup);
      && b.disk == m.disk.(cgroup := cgroup) && b.cached == Some(b.disk) && b.barred == m.barred
      && b.quota == (if cgroup then m.disk.limitCPU * 100_000 else m.quota)
      && b.balloon == m.disk.ceilingMem - m.disk.limitMem
  {}
}
