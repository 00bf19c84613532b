/** The boost service as a transition system over whole operations.

    A `World` holds the two tables (sandboxes, boosts), the limits each backend enforces right now,
    the in-memory timers and the expirations under way. Every operation is a function from
    a world and a record of which of its calls fail to the list of worlds it passes through: one per
    store or provider write. The last stage is what the operation leaves behind; a crash may cut it
    after any stage.
  */
module BoostModel {
  import opened Common

  type SandboxId = nat
  type BoostId = nat
  type Nanos = int

  const SECOND: Nanos := 1_000_000_000

  // The sleep before each retry of a failed revert; its length bounds the number of retries.
  const BACKOFF: seq<Nanos> := [1 * SECOND, 5 * SECOND, 30 * SECOND, 120 * SECOND, 600 * SECOND]

  datatype SandboxState = Pending | Starting | Running | Stopping | Stopped | Failed | Destroyed
  datatype Backend = Firecracker | Generic
  datatype Live = Live(cpu: int, mem: int)

  // A row of the sandbox table, together with the limits its backend currently enforces.
  datatype Sandbox = Sandbox(state: SandboxState, backend: Backend, limits: Limits, live: Live)

  datatype BoostState = Active | RevertFailed
  datatype Boost = Boost(id: BoostId, sandbox: SandboxId, original: Limits, boosted: Limits,
                         startedAt: Nanos, expiresAt: Nanos, state: BoostState, attempts: nat)

  function Enforce(live: Live, lim: Limits): Live {
    Live(if lim.cpu.Some? then lim.cpu.value else live.cpu, if lim.mem.Some? then lim.mem.value else live.mem)
  }

  predicate InBounds(lim: Limits, backend: Backend) {
    && (lim.cpu.Some? ==> 1 <= lim.cpu.value <= if backend.Firecracker? then 32 else 256)
    && (lim.mem.Some? ==>
          if backend.Firecracker? then 128 <= lim.mem.value <= 8192 else 16 <= lim.mem.value <= 524288)
  }

  // Go's time.Duration is a 64-bit count of nanoseconds.
  function Wrap64(x: int): int {
    (x + 0x8000_0000_0000_0000) % 0x1_0000_0000_0000_0000 - 0x8000_0000_0000_0000
  }

  // The boosts table by primary key, and its UNIQUE(sandbox_id) index.
  datatype Table = Table(rows: map<BoostId, Boost>, index: map<SandboxId, BoostId>)
  {
    function Get(sid: SandboxId): Option<Boost> {
      if sid in index && index[sid] in rows then Some(rows[index[sid]]) else None
    }

    function Upsert(b: Boost): Table {
      var kept := if b.sandbox in index then rows - {index[b.sandbox]} else rows;
      Table(kept[b.id := b], index[b.sandbox := b.id])
    }

    function Delete(id: BoostId): Table {
      if id in rows then Table(rows - {id}, index - {rows[id].sandbox}) else this
    }

    function UpdateState(id: BoostId, state: BoostState, attempts: nat): Table {
      if id in rows then this.(rows := rows[id := rows[id].(state := state, attempts := attempts)]) else this
    }
  }

  // An entry of the timer map. One that has fired stays there until something stops or replaces it.
  datatype Timer = Waiting(at: Nanos) | Fired

  datatype World = World(
    sandboxes: map<SandboxId, Sandbox>,
    db: Table,
    timers: map<BoostId, Timer>,
    launched: multiset<BoostId>,          // expirations started, by a timer or by Recover, before their lookup
    looked: multiset<BoostId>,            // those whose lookup found the row, before they have the sandbox's lock
    now: Nanos,
    nextId: BoostId)                      // ids are minted in order; this one is unused
  {
    function BoostOf(sid: SandboxId): Option<Boost> { db.Get(sid) }
    function Upsert(b: Boost): World { this.(db := db.Upsert(b)) }
    function Delete(id: BoostId): World { this.(db := db.Delete(id)) }
    function UpdateState(id: BoostId, state: BoostState, attempts: nat): World {
      this.(db := db.UpdateState(id, state, attempts))
    }

    function Arm(id: BoostId, delay: Nanos): World {
      this.(timers := timers[id := Waiting(now + Max(0, delay))])
    }

    function ArmRemaining(b: Boost): World { Arm(b.id, b.expiresAt - now) }
    function ArmIfActive(b: Boost): World { if b.state == Active then ArmRemaining(b) else this }
    function ArmRetry(id: BoostId): World { Arm(id, BACKOFF[0]) }
    function StopTimer(id: BoostId): World { this.(timers := timers - {id}) }

    function SetState(sid: SandboxId, state: SandboxState): World
      requires sid in sandboxes
    {
      this.(sandboxes := sandboxes[sid := sandboxes[sid].(state := state)])
    }
  }

  // What an operation goes through, and whether it returned without an error.
  datatype Outcome = Outcome(stages: seq<World>, ok: bool)

  // Which calls of a resize fail: reading the row, writing it, the provider, and writing it back.
  datatype ResizeFaults = ResizeFaults(read: bool, persist: bool, apply: bool, rollback: bool)

  function UpdateResources(w: World, sid: SandboxId, lim: Limits, liveOnly: bool, f: ResizeFaults): (o: Outcome)
    ensures o.stages != [] && o.stages[0] == w
    ensures forall st :: st in o.stages ==> st == w.(sandboxes := st.sandboxes)
  {
    if lim == NO_LIMITS || f.read || sid !in w.sandboxes then Outcome([w], false)
    else
      var sb := w.sandboxes[sid];
      if sb.state == Destroyed || sb.state == Failed || !InBounds(lim, sb.backend) then Outcome([w], false)
      else if !liveOnly && f.persist then Outcome([w], false)
      else
        var row := if liveOnly then sb else sb.(limits := Patch(sb.limits, lim));
        var saved := w.(sandboxes := w.sandboxes[sid := row]);
        if sb.state != Running then Outcome([w, saved], true)
        else if !f.apply then
          var applied := w.(sandboxes := w.sandboxes[sid := row.(live := Enforce(sb.live, lim))]);
          Outcome([w, saved, applied], true)
        else if liveOnly || f.rollback then Outcome([w, saved], false)
        else Outcome([w, saved, w], false)
  }

  // The overlay path: persisted limits stay as they are.
  function Apply(w: World, sid: SandboxId, lim: Limits, f: ResizeFaults): Outcome {
    UpdateResources(w, sid, lim, true, f)
  }

  datatype StartFaults = StartFaults(read: bool, reread: bool, prior: bool, upsert: bool,
                                     apply: ResizeFaults, restore: bool, remove: bool)

  function Duration(seconds: int): Nanos { Wrap64(seconds * SECOND) }

  predicate AcceptedDuration(seconds: int, maxDuration: Nanos) {
    seconds > 0 && Duration(seconds) <= maxDuration
  }

  function NewBoost(w: World, sid: SandboxId, lim: Limits, seconds: int): Boost
    requires sid in w.sandboxes
  {
    Boost(w.nextId, sid, w.sandboxes[sid].limits, lim, w.now, w.now + Duration(seconds), Active, 0)
  }

  // The checks before and, with the sandbox lock held, again before the first write.
  predicate Admits(w: World, sid: SandboxId, lim: Limits, seconds: int, maxDuration: Nanos, f: StartFaults) {
    && AcceptedDuration(seconds, maxDuration) && lim != NO_LIMITS
    && !f.read && !f.reread && sid in w.sandboxes
    && w.sandboxes[sid].state == Running && InBounds(lim, w.sandboxes[sid].backend)
    && !f.prior
  }

  function Start(w: World, sid: SandboxId, lim: Limits, seconds: int, maxDuration: Nanos, f: StartFaults): (o: Outcome)
    ensures o.stages != [] && o.stages[0] == w
  {
    if !Admits(w, sid, lim, seconds, maxDuration, f) then Outcome([w], false)
    else Record(w, NewBoost(w, sid, lim, seconds), w.BoostOf(sid), f)
  }

  // A new id is minted and the prior boost's timer stopped.
  function Silenced(w: World, prior: Option<Boost>): World {
    var minted := w.(nextId := w.nextId + 1);
    if prior.Some? then minted.StopTimer(prior.value.id) else minted
  }

  // Start once every check has passed: silence the prior boost and write the new row.
  function Record(w: World, b: Boost, prior: Option<Boost>, f: StartFaults): (o: Outcome)
    ensures o.stages != [] && o.stages[0] == w
  {
    var quiet := Silenced(w, prior);
    if f.upsert then Outcome([w, if prior.Some? then quiet.ArmIfActive(prior.value) else quiet], false)
    else
      var o := Raise(quiet.Upsert(b), b, prior, f);
      Outcome([w] + o.stages, o.ok)
  }

  // Start once the row is written: raise the live limits, or put the prior row back.
  function Raise(w: World, b: Boost, prior: Option<Boost>, f: StartFaults): (o: Outcome)
    ensures o.stages != []
  {
    var applied := Apply(w, b.sandbox, b.boosted, f.apply);
    if applied.ok then
      var live := Last(applied.stages);
      Outcome([w, live, live.ArmRemaining(b)], true)
    else Outcome([w, Undone(w, b, prior, f)], false)
  }

  // The compensation of a Start that could not raise the limits.
  function Undone(w: World, b: Boost, prior: Option<Boost>, f: StartFaults): World {
    if prior.None? then DeleteOrRetry(w, b.id, f.remove)
    else if f.restore then w.ArmRetry(b.id)
    else w.Upsert(prior.value).ArmIfActive(prior.value)
  }

  // `update` is the write of the retry counter, `remove` the delete of the row.
  datatype ExpireFaults = ExpireFaults(reread: bool, sandbox: bool,
                                       apply: ResizeFaults, update: bool, remove: bool)

  function DeleteOrRetry(w: World, id: BoostId, fault: bool): World {
    if fault then w.ArmRetry(id) else w.Delete(id)
  }

  // After a failed revert: count the attempt, then retry later or give up.
  function AfterFailedRevert(w: World, id: BoostId, attempts: nat, fault: bool): World
    requires attempts >= 1
  {
    if fault then w.ArmRetry(id)
    else if attempts > |BACKOFF| then w.UpdateState(id, RevertFailed, attempts)
    else w.UpdateState(id, Active, attempts).Arm(id, BACKOFF[attempts - 1])
  }

  // The beginning of an expiration, which looks up whose sandbox to lock.
  function Look(w0: World, id: BoostId, fault: bool): (o: Outcome)
    ensures o.stages != []
  {
    var w := w0.(launched := w0.launched - multiset{id});
    if fault then Outcome([w.ArmRetry(id)], false)
    else if id !in w.db.rows then Outcome([w.StopTimer(id)], false)
    else Outcome([w.(looked := w.looked + multiset{id})], true)
  }

  // The rest of it, under the lock: the row is read again.
  function Expire(w0: World, id: BoostId, f: ExpireFaults): (o: Outcome)
    ensures o.stages != []
  {
    var w := w0.(looked := w0.looked - multiset{id});
    if f.reread then Outcome([w.ArmRetry(id)], false)
    else if id !in w.db.rows then Outcome([w.StopTimer(id)], false)
    else Revert(w.StopTimer(id), w.db.rows[id], f)
  }

  // The part of Expire that runs with the row read again and its timer stopped.
  function Revert(w: World, b: Boost, f: ExpireFaults): (o: Outcome)
    ensures o.stages != []
  {
    if f.sandbox then Outcome([w.ArmRetry(b.id)], false)
    else if b.sandbox !in w.sandboxes || w.sandboxes[b.sandbox].state != Running then
      Outcome([w, DeleteOrRetry(w, b.id, f.remove)], !f.remove)
    else
      var applied := Apply(w, b.sandbox, w.sandboxes[b.sandbox].limits, f.apply);
      if applied.ok then
        var reverted := Last(applied.stages);
        Outcome([w, reverted, DeleteOrRetry(reverted, b.id, f.remove)], !f.remove)
      else Outcome([w, AfterFailedRevert(w, b.id, b.attempts + 1, f.update)], false)
  }

  datatype CancelFaults = CancelFaults(read: bool, sandbox: bool, apply: ResizeFaults, update: bool, remove: bool)

  function Cancel(w: World, sid: SandboxId, f: CancelFaults): (o: Outcome)
    ensures o.stages != []
  {
    if f.read || w.BoostOf(sid).None? then Outcome([w], false)
    else CancelBoost(w.StopTimer(w.BoostOf(sid).value.id), sid, w.BoostOf(sid).value, f)
  }

  // The part of Cancel that runs with the boost's timer stopped.
  function CancelBoost(w: World, sid: SandboxId, b: Boost, f: CancelFaults): (o: Outcome)
    ensures o.stages != []
  {
    if f.sandbox then Outcome([w.ArmIfActive(b)], false)
    else if sid !in w.sandboxes then Outcome([w, DeleteOrRetry(w, b.id, f.remove)], false)
    else if w.sandboxes[sid].state != Running then Outcome([w, DeleteOrRetry(w, b.id, f.remove)], !f.remove)
    else
      var applied := Apply(w, sid, w.sandboxes[sid].limits, f.apply);
      if applied.ok then
        var reverted := Last(applied.stages);
        Outcome([w, reverted, DeleteOrRetry(reverted, b.id, f.remove)], !f.remove)
      else Outcome([w, if f.update then w.ArmRetry(b.id) else w.UpdateState(b.id, RevertFailed, b.attempts + 1)], false)
  }

  datatype LifecycleFaults = LifecycleFaults(read: bool, update: bool, create: bool, rollback: bool,
                                             boost: bool, remove: bool)

  // Drops the boost row and its timer without a revert: the machine is going away.
  function LifecycleHook(w: World, sid: SandboxId, f: LifecycleFaults): World {
    if f.boost || w.BoostOf(sid).None? || f.remove then w
    else
      var id := w.BoostOf(sid).value.id;
      w.Delete(id).StopTimer(id)
  }

  // Shared by Stop and Destroy: create the operation row, undo the state change if that fails.
  function Enlist(w: World, moved: World, sid: SandboxId, f: LifecycleFaults): Outcome {
    if f.create then Outcome([w, moved, if f.rollback then moved else w], false)
    else Outcome([w, moved, LifecycleHook(moved, sid, f)], true)
  }

  function Stop(w: World, sid: SandboxId, f: LifecycleFaults): (o: Outcome)
    ensures o.stages != []
  {
    if f.read || sid !in w.sandboxes || w.sandboxes[sid].state != Running || f.update then Outcome([w], false)
    else Enlist(w, w.SetState(sid, Stopping), sid, f)
  }

  function Destroy(w: World, sid: SandboxId, f: LifecycleFaults): (o: Outcome)
    ensures o.stages != []
  {
    if f.read || sid !in w.sandboxes || w.sandboxes[sid].state == Destroyed then Outcome([w], false)
    else if w.sandboxes[sid].state == Running then
      if f.update then Outcome([w], false) else Enlist(w, w.SetState(sid, Stopping), sid, f)
    else Enlist(w, w, sid, f)
  }

  // A daemon that stops forgets its timers and goroutines; the tables and the machines stay.
  function Halt(w: World): World { w.(timers := map[], launched := multiset{}, looked := multiset{}) }

  predicate Due(w: World, b: Boost) { b.expiresAt <= w.now }

  function Recover(w: World): World {
    var active := set id | id in w.db.rows && w.db.rows[id].state == Active;
    w.(timers := w.timers + map id | id in active && !Due(w, w.db.rows[id]) :: Waiting(w.db.rows[id].expiresAt),
       launched := w.launched + multiset(set id | id in active && Due(w, w.db.rows[id])))
  }

  datatype Op =
    | OpStart(sid: SandboxId, lim: Limits, seconds: int, maxDuration: Nanos, sf: StartFaults)
    | OpCancel(sid: SandboxId, cf: CancelFaults)
    | OpLook(id: BoostId, fault: bool)
    | OpExpire(id: BoostId, ef: ExpireFaults)
    | OpStop(sid: SandboxId, lf: LifecycleFaults)
    | OpDestroy(sid: SandboxId, lf: LifecycleFaults)
    | OpResize(sid: SandboxId, lim: Limits, rf: ResizeFaults)

  function Run(w: World, op: Op): (o: Outcome)
    ensures o.stages != []
  {
    match op
    case OpStart(sid, lim, seconds, maxDuration, f) => Start(w, sid, lim, seconds, maxDuration, f)
    case OpCancel(sid, f) => Cancel(w, sid, f)
    case OpLook(id, fault) => Look(w, id, fault)
    case OpExpire(id, f) => Expire(w, id, f)
    case OpStop(sid, f) => Stop(w, sid, f)
    case OpDestroy(sid, f) => Destroy(w, sid, f)
    case OpResize(sid, lim, f) => UpdateResources(w, sid, lim, false, f)
  }

  datatype Event =
    | Done(op: Op)
    | Crash(op: Op, after: nat)              // the daemon dies after that stage of op and is started again
    | Fire(id: BoostId)                      // a timer runs out and starts an expiration
    | Tick(d: nat)
    | Leave(sid: SandboxId, state: SandboxState)  // other code moves a sandbox to a state other than Running
    | Boot(sid: SandboxId, live: Live)            // a sandbox starts running with these limits enforced
    | Create(sid: SandboxId, sb: Sandbox)
    | Purge(sid: SandboxId)                       // deletes the sandbox row, and by cascade its boost row

  // An expiration runs only once started, and goes on only once its lookup found the row; the other operations
  // may be called at any time.
  predicate Callable(w: World, op: Op) {
    && (op.OpLook? ==> op.id in w.launched)
    && (op.OpExpire? ==> op.id in w.looked)
  }

  predicate Enabled(w: World, e: Event) {
    match e
    case Done(op) => Callable(w, op)
    case Crash(op, k) => Callable(w, op) && k < |Run(w, op).stages|
    case Fire(id) => id in w.timers && w.timers[id].Waiting? && w.timers[id].at <= w.now
    case Tick(_) => true
    case Leave(sid, state) => sid in w.sandboxes && state != Running
    case Boot(sid, _) => sid in w.sandboxes && w.sandboxes[sid].state != Running
    case Create(sid, sb) => sid !in w.sandboxes && sb.state != Running
    case Purge(_) => true
  }

  function Step(w: World, e: Event): World
    requires Enabled(w, e)
  {
    match e
    case Done(op) => Last(Run(w, op).stages)
    case Crash(op, k) => Recover(Halt(Run(w, op).stages[k]))
    case Fire(id) => w.(timers := w.timers[id := Fired], launched := w.launched + multiset{id})
    case Tick(d) => w.(now := w.now + d)
    case Leave(sid, state) => w.SetState(sid, state)
    case Boot(sid, live) => w.(sandboxes := w.sandboxes[sid := w.sandboxes[sid].(state := Running, live := live)])
    case Create(sid, sb) => w.(sandboxes := w.sandboxes[sid := sb])
    case Purge(sid) =>
      var w' := w.(sandboxes := w.sandboxes - {sid});
      if w.BoostOf(sid).Some? then w'.Delete(w.BoostOf(sid).value.id) else w'
  }

  const EMPTY := World(map[], Table(map[], map[]), map[], multiset{}, multiset{}, 0, 0)

  // The worlds of a run, one more than its events.
  ghost predicate IsRun(ws: seq<World>, es: seq<Event>) {
    && |ws| == |es| + 1
    && forall i {:trigger es[i]} :: 0 <= i < |es| ==> Enabled(ws[i], es[i]) && ws[i + 1] == Step(ws[i], es[i])
  }
}
