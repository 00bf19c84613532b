/** The two resize methods as they run, each proved against its specification in ResizeModel. */
module ResizeProvider {
  import opened Common
  import opened ResizeModel

  class Vm {
    var disk: Info              // vminfo.json
    var cached: Option<Info>    // the entry of the vms map
    var quota: int
    var balloon: int
    var barred: bool

    ghost function Current(): Machine
      reads this
    {
      Machine(disk, cached, quota, balloon, barred)
    }

    constructor (disk: Info)
      ensures Current() == Machine(disk, None, 0, 0, false)
    {
      this.disk, cached, quota, balloon, barred := disk, None, 0, 0, false;
    }

    method WriteQuota(value: int, fault: bool) returns (ok: bool)
      modifies this`quota
      ensures ok == !fault && quota == if ok then value else old(quota)
    {
      ok := !fault;
      if ok {
        quota := value;
      }
    }

    // Sends the patch again as long as the guest's driver is not up, ten times at most.
    method PatchBalloon(amount: int, replies: seq<Reply>) returns (ok: bool)
      modifies this`balloon
      ensures ok == Patched(replies) && balloon == if ok then amount else old(balloon)
    {
      var attempt := 0;
      while attempt < MAX_ATTEMPTS
        invariant attempt <= MAX_ATTEMPTS
        invariant balloon == old(balloon)
        invariant forall j: nat :: j < attempt ==> ReplyAt(replies, j) == NotActivated
      {
        match ReplyAt(replies, attempt) {
          case Accepted =>
            balloon := amount;
            return true;
          case Refused =>
            return false;
          case NotActivated =>
        }
        attempt := attempt + 1;
      }
      return false;
    }

    method UpdateResources(req: Limits, f: ProviderFaults) returns (ok: bool)
      modifies this
      ensures (Current(), ok) == Resized(old(Current()), req, f)
    {
      if req == NO_LIMITS {
        return true;
      }
      if barred || cached.None? || f.read {
        return false;
      }
      var info := disk;
      if req.cpu.Some? {
        var ceiling := info.ceilingCPU;
        if ceiling == 0 {
          ceiling := info.vcpus;
        }
        if req.cpu.value > ceiling || !info.cgroup {
          return false;
        }
      }
      var memCeiling, newMem := 0, 0;
      if req.mem.Some? {
        newMem := req.mem.value;
        memCeiling := info.ceilingMem;
        if memCeiling == 0 {
          memCeiling := info.memSize;
        }
        if newMem > memCeiling {
          return false;
        }
      }
      var priorCPU := info.EffectiveCPU();
      var priorMem := info.limitMem;
      if priorMem == 0 {
        priorMem := info.memSize;
      }
      var priorBalloon := memCeiling - priorMem;
      if memCeiling == 0 {
        priorBalloon := 0;
      }

      var cpuApplied := false;
      if req.cpu.Some? {
        cpuApplied := WriteQuota(req.cpu.value * PERIOD, f.quota);
        if !cpuApplied {
          return false;
        }
      }
      if req.mem.Some? {
        var patched := PatchBalloon(memCeiling - newMem, f.patch);
        if !patched {
          if cpuApplied {
            var undone := WriteQuota(priorCPU * PERIOD, f.quotaBack);
          }
          return false;
        }
      }
      if req.cpu.Some? {
        info := info.(limitCPU := req.cpu.value);
      }
      if req.mem.Some? {
        info := info.(limitMem := newMem);
      }
      if f.write {
        // disk and cache are untouched; the two live values go back independently
        if cpuApplied {
          var undone := WriteQuota(priorCPU * PERIOD, f.quotaBack);
        }
        if req.mem.Some? {
          var undone := PatchBalloon(priorBalloon, f.patchBack);
        }
        return false;
      }
      disk := info;
      var entry := cached.value;
      if req.cpu.Some? {
        entry := entry.(limitCPU := info.limitCPU);
      }
      if req.mem.Some? {
        entry := entry.(limitMem := info.limitMem);
      }
      cached := Some(entry);
      return true;
    }
  }

  class SandboxService {
    var row: Row
    const vm: Vm

    constructor (row: Row, vm: Vm)
      ensures this.row == row && this.vm == vm
    {
      this.row, this.vm := row, vm;
    }

    ghost function Current(): Sandbox
      reads this, vm
    {
      Sandbox(row, vm.Current())
    }

    method UpdateResources(req: Limits, liveOnly: bool, f: ServiceFaults) returns (ok: bool)
      modifies this, vm
      ensures (Current(), ok) == Update(old(Current()), req, liveOnly, f)
    {
      if req == NO_LIMITS || f.read || row.phase == Gone || !InBounds(req) {
        return false;
      }
      var prev := row.limits;
      var next := row;
      if req.cpu.Some? {
        next := next.(limits := next.limits.(cpu := req.cpu));
      }
      if req.mem.Some? {
        next := next.(limits := next.limits.(mem := req.mem));
      }
      if !liveOnly {
        if f.persist {
          return false;
        }
        row := next;
      }
      if row.phase == Running {
        ok := vm.UpdateResources(req, f.provider);
        if !ok {
          if !liveOnly && !f.rollback {
            row := row.(limits := prev);
          }
          return false;
        }
      }
      return true;
    }
  }
}
