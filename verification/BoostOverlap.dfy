/** Operations on different sandboxes overlap: each sandbox has its own lock. They touch nothing of each other's,
    and a death of the daemon that cuts two of them leaves what a recovery can start from. */
module BoostOverlap {
  import opened Common
  import opened BoostModel
  import opened BoostInvariants
  import opened BoostTheorems

  // What belongs to a sandbox: its row and limits, its boost, and that boost's timer and expirations.
  predicate Untouched(w: World, w': World, sid: SandboxId) {
    && w'.now == w.now
    && (sid in w'.sandboxes <==> sid in w.sandboxes)
    && (sid in w.sandboxes ==> w'.sandboxes[sid] == w.sandboxes[sid])
    && w'.BoostOf(sid) == w.BoostOf(sid)
    && (w.BoostOf(sid).Some? ==> SameTimer(w, w', w.BoostOf(sid).value.id))
  }

  predicate SameTimer(w: World, w': World, id: BoostId) {
    && (id in w'.timers <==> id in w.timers) && (id in w.timers ==> w'.timers[id] == w.timers[id])
    && w'.launched[id] == w.launched[id] && w'.looked[id] == w.looked[id]
  }

  // The operation is about another sandbox.
  predicate Elsewhere(w: World, op: Op, sid: SandboxId) {
    match op
    case OpLook(id, _) => w.BoostOf(sid).None? || w.BoostOf(sid).value.id != id
    case OpExpire(id, _) => w.BoostOf(sid).None? || w.BoostOf(sid).value.id != id
    case _ => op.sid != sid
  }

  // ---- what the pieces of an operation on boost b do to another sandbox ----

  // The row is that of another sandbox.
  predicate Foreign(w: World, b: Boost, sid: SandboxId) {
    b.sandbox != sid && b.id in w.db.rows && w.db.rows[b.id] == b
  }

  lemma ForeignId(w: World, b: Boost, sid: SandboxId)
    requires Valid(w) && Foreign(w, b, sid) && w.BoostOf(sid).Some?
    ensures w.BoostOf(sid).value.id != b.id && w.db.index[sid] != b.id
  {}

  lemma ApplyLocal(w0: World, w: World, other: SandboxId, lim: Limits, f: ResizeFaults, sid: SandboxId)
    requires Untouched(w0, w, sid) && other != sid
    ensures forall st :: st in Apply(w, other, lim, f).stages ==>
              Untouched(w0, st, sid) && st.db == w.db && st.nextId == w.nextId
  {}

  lemma DropLocal(w0: World, w: World, b: Boost, fault: bool, sid: SandboxId)
    requires Valid(w) && Untouched(w0, w, sid) && Foreign(w, b, sid)
    ensures Untouched(w0, DeleteOrRetry(w, b.id, fault), sid)
  {
    if w.BoostOf(sid).Some? { ForeignId(w, b, sid); }
  }

  lemma CountLocal(w0: World, w: World, b: Boost, state: BoostState, n: nat, sid: SandboxId)
    requires Valid(w) && Untouched(w0, w, sid) && Foreign(w, b, sid)
    ensures Untouched(w0, w.UpdateState(b.id, state, n), sid)
    ensures forall delay :: Untouched(w0, w.Arm(b.id, delay), sid)
    ensures forall delay :: Untouched(w0, w.UpdateState(b.id, state, n).Arm(b.id, delay), sid)
  {
    if w.BoostOf(sid).Some? { ForeignId(w, b, sid); }
  }

  lemma RestoreLocal(w0: World, w: World, b: Boost, p: Boost, sid: SandboxId)
    requires Valid(w) && Untouched(w0, w, sid) && Foreign(w, b, sid)
    requires p.sandbox == b.sandbox && p.id !in w.db.rows
    ensures Untouched(w0, w.Upsert(p).ArmIfActive(p), sid)
  {
    assert w.db.index[b.sandbox] == b.id;
    if w.BoostOf(sid).Some? { ForeignId(w, b, sid); }
  }

  lemma UndoneLocal(w0: World, w: World, b: Boost, prior: Option<Boost>, f: StartFaults, sid: SandboxId)
    requires Valid(w) && Untouched(w0, w, sid) && Foreign(w, b, sid)
    requires prior.Some? ==> prior.value.sandbox == b.sandbox && prior.value.id !in w.db.rows
    ensures Untouched(w0, Undone(w, b, prior, f), sid)
  {
    DropLocal(w0, w, b, f.remove, sid);
    CountLocal(w0, w, b, Active, 0, sid);
    if prior.Some? { RestoreLocal(w0, w, b, prior.value, sid); }
  }

  lemma RaiseLocal(w0: World, w: World, b: Boost, prior: Option<Boost>, f: StartFaults, sid: SandboxId)
    requires Valid(w) && Untouched(w0, w, sid) && Foreign(w, b, sid)
    requires prior.Some? ==> prior.value.sandbox == b.sandbox && prior.value.id !in w.db.rows
    ensures forall st :: st in Raise(w, b, prior, f).stages ==> Untouched(w0, st, sid)
  {
    var applied := Apply(w, b.sandbox, b.boosted, f.apply);
    ApplyLocal(w0, w, b.sandbox, b.boosted, f.apply, sid);
    if applied.ok {
      var live := Last(applied.stages);
      assert live in applied.stages;
      CountLocal(w0, live, b, Active, 0, sid);
    } else {
      UndoneLocal(w0, w, b, prior, f, sid);
    }
  }

  lemma RecordLocal(w: World, b: Boost, f: StartFaults, sid: SandboxId)
    requires Valid(w) && b.sandbox != sid && b.id == w.nextId
    ensures forall st :: st in Record(w, b, w.BoostOf(b.sandbox), f).stages ==> Untouched(w, st, sid)
  {
    var prior := w.BoostOf(b.sandbox);
    var quiet := Silenced(w, prior);
    assert Untouched(w, quiet, sid);
    if !f.upsert {
      UpsertKeeps(w.db, b, w.nextId + 1);
      RaiseLocal(w, quiet.Upsert(b), b, prior, f, sid);
    }
  }

  lemma RevertLocal(w0: World, w: World, b: Boost, f: ExpireFaults, sid: SandboxId)
    requires Valid(w) && Untouched(w0, w, sid) && Foreign(w, b, sid)
    ensures forall st :: st in Revert(w, b, f).stages ==> Untouched(w0, st, sid)
  {
    DropLocal(w0, w, b, f.remove, sid);
    FailedRevertLocal(w0, w, b, f.update, sid);
    if b.sandbox in w.sandboxes {
      var applied := Apply(w, b.sandbox, w.sandboxes[b.sandbox].limits, f.apply);
      ApplyLocal(w0, w, b.sandbox, w.sandboxes[b.sandbox].limits, f.apply, sid);
      assert Last(applied.stages) in applied.stages;
      DropLocal(w0, Last(applied.stages), b, f.remove, sid);
    }
  }

  lemma FailedRevertLocal(w0: World, w: World, b: Boost, fault: bool, sid: SandboxId)
    requires Valid(w) && Untouched(w0, w, sid) && Foreign(w, b, sid)
    ensures Untouched(w0, AfterFailedRevert(w, b.id, b.attempts + 1, fault), sid)
    ensures Untouched(w0, w.ArmRetry(b.id), sid)
  {
    CountLocal(w0, w, b, Active, b.attempts + 1, sid);
    CountLocal(w0, w, b, RevertFailed, b.attempts + 1, sid);
  }

  lemma CancelLocal(w0: World, w: World, b: Boost, f: CancelFaults, sid: SandboxId)
    requires Valid(w) && Untouched(w0, w, sid) && Foreign(w, b, sid)
    ensures forall st :: st in CancelBoost(w, b.sandbox, b, f).stages ==> Untouched(w0, st, sid)
  {
    DropLocal(w0, w, b, f.remove, sid);
    CountLocal(w0, w, b, RevertFailed, b.attempts + 1, sid);
    if b.sandbox in w.sandboxes {
      var applied := Apply(w, b.sandbox, w.sandboxes[b.sandbox].limits, f.apply);
      ApplyLocal(w0, w, b.sandbox, w.sandboxes[b.sandbox].limits, f.apply, sid);
      assert Last(applied.stages) in applied.stages;
      DropLocal(w0, Last(applied.stages), b, f.remove, sid);
    }
  }

  lemma ExpireLocal(w: World, id: BoostId, f: ExpireFaults, sid: SandboxId)
    requires Valid(w) && Elsewhere(w, OpExpire(id, f), sid)
    ensures forall st :: st in Expire(w, id, f).stages ==> Untouched(w, st, sid)
  {
    var quiet := w.(looked := w.looked - multiset{id}).StopTimer(id);
    assert Untouched(w, quiet, sid);
    if id in w.db.rows { RevertLocal(w, quiet, w.db.rows[id], f, sid); }
  }

  lemma EnlistLocal(w: World, moved: World, other: SandboxId, f: LifecycleFaults, sid: SandboxId)
    requires Valid(w) && Untouched(w, moved, sid) && other != sid && moved.db == w.db
    ensures forall st :: st in Enlist(w, moved, other, f).stages ==> Untouched(w, st, sid)
  {}

  /** No write of an operation touches anything of another sandbox. */
  lemma StagesLocal(w: World, op: Op, sid: SandboxId)
    requires Valid(w) && Elsewhere(w, op, sid)
    ensures forall st :: st in Run(w, op).stages ==> Untouched(w, st, sid)
  {
    match op
    case OpStart(other, lim, seconds, maxDuration, f) =>
      StartLocal(w, op, sid);
    case OpCancel(other, f) => if w.BoostOf(other).Some? { CancelWholeLocal(w, other, f, sid); }
    case OpLook(id, fault) => LookLocal(w, id, fault, sid);
    case OpExpire(id, f) => ExpireLocal(w, id, f, sid);
    case OpStop(other, f) => LifecycleLocal(w, op, sid);
    case OpDestroy(other, f) => LifecycleLocal(w, op, sid);
    case OpResize(other, lim, f) => ResizeLocal(w, other, lim, f, sid);
  }

  lemma StartLocal(w: World, op: Op, sid: SandboxId)
    requires Valid(w) && op.OpStart? && op.sid != sid
    ensures forall st :: st in Run(w, op).stages ==> Untouched(w, st, sid)
  {
    if op.sid in w.sandboxes { RecordLocal(w, NewBoost(w, op.sid, op.lim, op.seconds), op.sf, sid); }
  }

  lemma LookLocal(w: World, id: BoostId, fault: bool, sid: SandboxId)
    requires Elsewhere(w, OpLook(id, fault), sid)
    ensures forall st :: st in Look(w, id, fault).stages ==> Untouched(w, st, sid)
  {}

  lemma ResizeLocal(w: World, other: SandboxId, lim: Limits, f: ResizeFaults, sid: SandboxId)
    requires other != sid
    ensures forall st :: st in UpdateResources(w, other, lim, false, f).stages ==> Untouched(w, st, sid)
  {}

  lemma CancelWholeLocal(w: World, other: SandboxId, f: CancelFaults, sid: SandboxId)
    requires Valid(w) && other != sid && w.BoostOf(other).Some?
    ensures forall st :: st in Cancel(w, other, f).stages ==> Untouched(w, st, sid)
  {
    var b := w.BoostOf(other).value;
    var quiet := w.StopTimer(b.id);
    assert Untouched(w, quiet, sid);
    CancelLocal(w, quiet, b, f, sid);
  }

  lemma LifecycleLocal(w: World, op: Op, sid: SandboxId)
    requires Valid(w) && (op.OpStop? || op.OpDestroy?) && op.sid != sid
    ensures forall st :: st in Run(w, op).stages ==> Untouched(w, st, sid)
  {
    if op.sid in w.sandboxes {
      EnlistLocal(w, w.SetState(op.sid, Stopping), op.sid, op.lf, sid);
      EnlistLocal(w, w, op.sid, op.lf, sid);
    }
  }

  // The operation can be called here, and being cut after that stage tears nothing.
  predicate CutsClean(w: World, op: Op, k: nat) { Callable(w, op) && !Tears(w, Crash(op, k)) }

  /** The daemon dies with one operation after its stage j and another, run meanwhile, after its stage k. The
      recovery finds a consistent table, covers every active boost and arms no stray timer; and sandboxes
      without a boost run at their limits unless one of the two cuts is a tear by itself. */
  lemma CrashOfTwo(w: World, op1: Op, j: nat, op2: Op, k: nat)
    requires Valid(w) && j < |Run(w, op1).stages| && k < |Run(Run(w, op1).stages[j], op2).stages|
    ensures var first := Run(w, op1).stages[j];
      var both := Recover(Halt(Run(first, op2).stages[k]));
      && Valid(both) && Covered(both) && Owned(both)
      && (Steady(w) && CutsClean(w, op1, j) && CutsClean(first, op2, k) ==> Steady(both))
  {
    var first := Run(w, op1).stages[j];
    var cut := Run(first, op2).stages[k];
    StagesValid(w, op1);
    assert first in Run(w, op1).stages;
    StagesValid(first, op2);
    assert cut in Run(first, op2).stages;
    RecoverCovers(cut);
    if Steady(w) && CutsClean(w, op1, j) && CutsClean(first, op2, k) {
      StepSteady(w, Crash(op1, j));
      RecoverSteady(first);
      StepSteady(first, Crash(op2, k));
    }
  }

  lemma RecoverSteady(w: World)
    ensures Steady(Recover(Halt(w))) <==> Steady(w)
  {
    assert forall sid :: sid in w.sandboxes ==> (SteadyAt(Recover(Halt(w)), sid) <==> SteadyAt(w, sid));
  }
}
