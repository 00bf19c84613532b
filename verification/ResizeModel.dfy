/** Live resize of a Firecracker sandbox as a transaction over two layers: the sandbox row, and under it the
    CPU quota, the balloon, vminfo.json and the cached copy of it. Each layer compensates what it did when a
    later step fails.
  */
module ResizeModel {
  import opened Common

  const PERIOD := 100_000          // CFS period; the quota is limit * PERIOD
  const MAX_ATTEMPTS := 10         // PATCH /balloon while the guest driver is not up

  const MIN_CPU := 1
  const MAX_CPU := 32
  const MIN_MEM := 128
  const MAX_MEM := 8192

  // The size fields of vminfo.json. Zero stands for a field older records do not have.
  datatype Info = Info(limitCPU: int, limitMem: int, ceilingCPU: int, ceilingMem: int,
                       vcpus: int, memSize: int, cgroup: bool)
  {
    function EffectiveCPU(): int {
      if limitCPU > 0 then limitCPU else if ceilingCPU > 0 then ceilingCPU else if vcpus > 0 then vcpus else 1
    }
    function EffectiveMem(): int { if limitMem == 0 then memSize else limitMem }
    function CeilCPU(): int { if ceilingCPU == 0 then vcpus else ceilingCPU }
    function CeilMem(): int { if ceilingMem == 0 then memSize else ceilingMem }

    function With(req: Limits): Info {
      this.(limitCPU := if req.cpu.Some? then req.cpu.value else limitCPU,
            limitMem := if req.mem.Some? then req.mem.value else limitMem)
    }
  }

  // One VM as the provider sees it. `cached` is its entry in the vms map, `barred` the stop sentinel.
  datatype Machine = Machine(disk: Info, cached: Option<Info>, quota: int, balloon: int, barred: bool)

  // How the VM answers PATCH /balloon.
  datatype Reply = Accepted | NotActivated | Refused

  function ReplyAt(replies: seq<Reply>, k: nat): Reply {
    if k < |replies| then replies[k] else Refused
  }

  // One of the first ten replies accepts, and all before it ask to wait.
  ghost predicate Patched(replies: seq<Reply>) {
    exists k: nat :: k < MAX_ATTEMPTS && ReplyAt(replies, k) == Accepted &&
                     forall j: nat :: j < k ==> ReplyAt(replies, j) == NotActivated
  }

  // Reading vminfo, writing the quota, writing vminfo and writing the quota back may fail; so may both patches.
  datatype ProviderFaults = ProviderFaults(read: bool, quota: bool, patch: seq<Reply>, write: bool,
                                           quotaBack: bool, patchBack: seq<Reply>)

  predicate Fits(m: Machine, req: Limits) {
    && (req.cpu.Some? ==> req.cpu.value <= m.disk.CeilCPU() && m.disk.cgroup)
    && (req.mem.Some? ==> req.mem.value <= m.disk.CeilMem())
  }

  // The provider gets as far as its first write.
  predicate Tries(m: Machine, req: Limits, f: ProviderFaults) {
    !m.barred && m.cached.Some? && !f.read && Fits(m, req)
  }

  // The live values under a request.
  function Tuned(m: Machine, req: Limits): Machine {
    m.(quota := if req.cpu.Some? then req.cpu.value * PERIOD else m.quota,
       balloon := if req.mem.Some? then m.disk.CeilMem() - req.mem.value else m.balloon)
  }

  function PriorQuota(m: Machine): int { m.disk.EffectiveCPU() * PERIOD }
  function PriorBalloon(m: Machine): int {
    if m.disk.CeilMem() == 0 then 0 else m.disk.CeilMem() - m.disk.EffectiveMem()
  }

  // Provider.UpdateResources: the machine afterwards, and whether it returned nil.
  ghost function Resized(m: Machine, req: Limits, f: ProviderFaults): (Machine, bool) {
    if req == NO_LIMITS then (m, true)
    else if !Tries(m, req, f) || (req.cpu.Some? && f.quota) then (m, false)
    else
      var tuned := Tuned(m, req);
      if req.mem.Some? && !Patched(f.patch) then
        // the balloon is as it was; take the quota back
        (m.(quota := if req.cpu.Some? && !f.quotaBack then PriorQuota(m) else tuned.quota), false)
      else if f.write then
        (m.(quota := if req.cpu.Some? && !f.quotaBack then PriorQuota(m) else tuned.quota,
            balloon := if req.mem.Some? && Patched(f.patchBack) then PriorBalloon(m) else tuned.balloon), false)
      else
        (tuned.(disk := m.disk.With(req), cached := Some(m.cached.value.With(req))), true)
  }

  // ---- the service above it ----

  datatype Phase = Running | Idle | Gone       // Gone: destroyed or failed
  datatype Row = Row(phase: Phase, limits: Limits)
  datatype Sandbox = Sandbox(row: Row, vm: Machine)

  datatype ServiceFaults = ServiceFaults(read: bool, persist: bool, provider: ProviderFaults, rollback: bool)

  predicate InBounds(req: Limits) {
    && (req.cpu.Some? ==> MIN_CPU <= req.cpu.value <= MAX_CPU)
    && (req.mem.Some? ==> MIN_MEM <= req.mem.value <= MAX_MEM)
  }

  // SandboxService.UpdateResources.
  ghost function Update(s: Sandbox, req: Limits, liveOnly: bool, f: ServiceFaults): (Sandbox, bool) {
    if req == NO_LIMITS || f.read || s.row.phase == Gone || !InBounds(req) || (!liveOnly && f.persist) then
      (s, false)
    else
      var saved := if liveOnly then s.row else s.row.(limits := Patch(s.row.limits, req));
      if s.row.phase != Running then (s.(row := saved), true)
      else
        var (vm, ok) := Resized(s.vm, req, f.provider);
        (Sandbox(if ok || (!liveOnly && f.rollback) then saved else s.row, vm), ok)
  }

  // ---- creation and boot ----

  // The daemon's defaults and headroom multipliers, as validated at startup.
  datatype Config = Config(defaultCPU: int, defaultMem: int, multCPU: real, multMem: real)
  {
    predicate Valid() {
      && MIN_CPU <= defaultCPU <= MAX_CPU && MIN_MEM <= defaultMem <= MAX_MEM
      && multCPU >= 1.0 && multMem >= 1.0
    }
  }

  function Ceil(x: real): int { -((-x).Floor) }

  function Resolve(cfg: Config, req: Limits): Info {
    var cpu := if req.cpu.Some? then req.cpu.value else cfg.defaultCPU;
    var mem := if req.mem.Some? then req.mem.value else cfg.defaultMem;
    var ceilingCPU := Min(Ceil(cpu as real * cfg.multCPU), MAX_CPU);
    var ceilingMem := Min(Ceil(mem as real * cfg.multMem), MAX_MEM);
    Info(cpu, mem, ceilingCPU, ceilingMem, ceilingCPU, ceilingMem, false)
  }

  // Boot from vminfo: the balloon holds back what the limit leaves of the ceiling, the quota is written if
  // the cgroup can be set up. The row of the sandbox plays no part.
  function Booted(m: Machine, cgroup: bool): Machine {
    var disk := m.disk.(cgroup := cgroup);
    Machine(disk, Some(disk),
            if cgroup then disk.EffectiveCPU() * PERIOD else m.quota,
            if disk.ceilingMem > 0 then Max(0, disk.ceilingMem - disk.limitMem) else m.balloon,
            m.barred)
  }
}
