/** What every run of the boost service keeps: the table's indexes, a timer for every active boost,
    a boost for every timer, and live limits that equal the persisted ones once a boost is gone.
  */
module BoostInvariants {
  import opened Common
  import opened BoostModel

  // UNIQUE(sandbox_id), the primary key, and every id in use already minted.
  ghost predicate Consistent(t: Table, nextId: BoostId) {
    && (forall id :: id in t.rows ==>
          && id < nextId && t.rows[id].id == id
          && t.rows[id].sandbox in t.index && t.index[t.rows[id].sandbox] == id)
    && (forall sid :: sid in t.index ==> t.index[sid] in t.rows && t.rows[t.index[sid]].sandbox == sid)
  }

  ghost predicate Valid(w: World) { Consistent(w.db, w.nextId) }

  // A timer for the boost is running, or an expiration of it is under way.
  predicate Rings(w: World, id: BoostId) {
    (id in w.timers && w.timers[id].Waiting?) || id in w.launched || id in w.looked
  }

  // Every active boost has a timer under its own id that is yet to fire, or an expiration under way.
  ghost predicate Covered(w: World) {
    forall id :: id in w.db.rows && w.db.rows[id].state == Active ==> Rings(w, id)
  }

  // Every armed timer has a row.
  ghost predicate Owned(w: World) {
    forall id :: id in w.timers ==> id in w.db.rows
  }

  // ---- the table stays consistent at every stage of every operation ----

  lemma UpsertKeeps(t: Table, b: Boost, nextId: BoostId)
    requires Consistent(t, nextId) && b.id < nextId && (b.id !in t.rows || t.rows[b.id].sandbox == b.sandbox)
    ensures Consistent(t.Upsert(b), nextId)
  {}

  lemma DeleteKeeps(t: Table, id: BoostId, nextId: BoostId)
    requires Consistent(t, nextId)
    ensures Consistent(t.Delete(id), nextId)
  {}

  lemma UpdateKeeps(t: Table, id: BoostId, state: BoostState, attempts: nat, nextId: BoostId)
    requires Consistent(t, nextId)
    ensures Consistent(t.UpdateState(id, state, attempts), nextId)
  {}

  lemma RaiseValid(w: World, b: Boost, prior: Option<Boost>, f: StartFaults)
    requires Valid(w) && b.id in w.db.rows && w.db.rows[b.id] == b && b.sandbox in w.sandboxes
    requires prior.Some? ==> prior.value.id < w.nextId && prior.value.id !in w.db.rows
    ensures forall st :: st in Raise(w, b, prior, f).stages ==> Valid(st)
  {
    if prior.Some? { UpsertKeeps(w.db, prior.value, w.nextId); }
    DeleteKeeps(w.db, b.id, w.nextId);
  }

  lemma RecordValid(w: World, b: Boost, prior: Option<Boost>, f: StartFaults)
    requires Valid(w) && b.id == w.nextId && b.sandbox in w.sandboxes && prior == w.BoostOf(b.sandbox)
    ensures forall st :: st in Record(w, b, prior, f).stages ==> Valid(st)
  {
    var quiet := Silenced(w, prior);
    UpsertKeeps(w.db, b, w.nextId + 1);
    assert prior.Some? ==> prior.value.id in w.db.rows && prior.value.sandbox == b.sandbox;
    assert prior.Some? ==> w.db.index[b.sandbox] == prior.value.id;
    RaiseValid(quiet.Upsert(b), b, prior, f);
  }

  lemma RevertValid(w: World, b: Boost, f: ExpireFaults)
    requires Valid(w)
    ensures forall st :: st in Revert(w, b, f).stages ==> Valid(st)
  {
    WritesKeep(w, b.id, b.attempts + 1);
  }

  lemma CancelValid(w: World, sid: SandboxId, b: Boost, f: CancelFaults)
    requires Valid(w)
    ensures forall st :: st in CancelBoost(w, sid, b, f).stages ==> Valid(st)
  {
    WritesKeep(w, b.id, b.attempts + 1);
  }

  lemma EnlistValid(w: World, moved: World, sid: SandboxId, f: LifecycleFaults)
    requires Valid(w) && Valid(moved)
    ensures forall st :: st in Enlist(w, moved, sid, f).stages ==> Valid(st)
  {
    if moved.BoostOf(sid).Some? { DeleteKeeps(moved.db, moved.BoostOf(sid).value.id, moved.nextId); }
  }

  lemma WritesKeep(w: World, id: BoostId, n: nat)
    requires Valid(w)
    ensures Consistent(w.db.Delete(id), w.nextId)
    ensures forall state :: Consistent(w.db.UpdateState(id, state, n), w.nextId)
  {
    DeleteKeeps(w.db, id, w.nextId);
    forall state { UpdateKeeps(w.db, id, state, n, w.nextId); }
  }

  lemma StagesValid(w: World, op: Op)
    requires Valid(w)
    ensures forall st :: st in Run(w, op).stages ==> Valid(st)
  {
    match op
    case OpStart(sid, lim, seconds, maxDuration, f) =>
      if sid in w.sandboxes { RecordValid(w, NewBoost(w, sid, lim, seconds), w.BoostOf(sid), f); }
    case OpCancel(sid, f) =>
      if w.BoostOf(sid).Some? { CancelValid(w.StopTimer(w.BoostOf(sid).value.id), sid, w.BoostOf(sid).value, f); }
    case OpLook(id, fault) =>
    case OpExpire(id, f) =>
      if id in w.db.rows { RevertValid(w.(looked := w.looked - multiset{id}).StopTimer(id), w.db.rows[id], f); }
    case OpStop(sid, f) =>
      if sid in w.sandboxes { EnlistValid(w, w.SetState(sid, Stopping), sid, f); }
    case OpDestroy(sid, f) =>
      if sid in w.sandboxes { EnlistValid(w, w.SetState(sid, Stopping), sid, f); EnlistValid(w, w, sid, f); }
    case OpResize(sid, lim, f) =>
  }

  lemma StepValid(w: World, e: Event)
    requires Valid(w) && Enabled(w, e)
    ensures Valid(Step(w, e))
  {
    match e
    case Done(op) =>
      StagesValid(w, op);
      assert Last(Run(w, op).stages) in Run(w, op).stages;
    case Crash(op, k) =>
      StagesValid(w, op);
      assert Run(w, op).stages[k] in Run(w, op).stages;
      assert Recover(Halt(Run(w, op).stages[k])).db == Run(w, op).stages[k].db;
    case Purge(sid) => PurgeValid(w, sid);
    case Fire(_) =>
    case Tick(_) =>
    case Leave(_, _) =>
    case Boot(_, _) =>
    case Create(_, _) =>
  }

  lemma PurgeValid(w: World, sid: SandboxId)
    requires Valid(w)
    ensures Valid(Step(w, Purge(sid)))
  {
    if w.BoostOf(sid).Some? { DeleteKeeps(w.db, w.BoostOf(sid).value.id, w.nextId); }
  }

  // ---- timers ----

  // Recover needs nothing but the table: whatever state a crash leaves, it covers every active boost.
  lemma RecoverCovers(w: World)
    ensures var r := Recover(Halt(w)); Covered(r) && Owned(r)
    ensures var r := Recover(Halt(w));
      r.db == w.db && forall id :: id in r.timers ==> r.timers[id].Waiting? && r.timers[id].at > r.now
  {}

  // With boost b's own timer stopped, every other active boost is still covered.
  ghost predicate CoveredBut(w: World, id: BoostId) {
    forall other :: other in w.db.rows && other != id && w.db.rows[other].state == Active ==> Rings(w, other)
  }

  lemma RecordCovers(w: World, b: Boost, prior: Option<Boost>, f: StartFaults)
    requires Valid(w) && Covered(w) && b.id == w.nextId && b.state == Active && prior == w.BoostOf(b.sandbox)
    ensures Covered(Last(Record(w, b, prior, f).stages))
  {
    var quiet := Silenced(w, prior);
    if !f.upsert {
      var recorded := quiet.Upsert(b);
      assert CoveredBut(recorded, b.id);
      RaiseCovers(recorded, b, prior, f);
    }
  }

  lemma RaiseCovers(w: World, b: Boost, prior: Option<Boost>, f: StartFaults)
    requires b.id in w.db.rows && w.db.rows[b.id] == b && b.sandbox in w.db.index && w.db.index[b.sandbox] == b.id
    requires CoveredBut(w, b.id)
    requires prior.Some? ==> prior.value.sandbox == b.sandbox
    ensures Covered(Last(Raise(w, b, prior, f).stages))
  {}

  lemma RevertCovers(w: World, b: Boost, f: ExpireFaults)
    requires b.id in w.db.rows && w.db.rows[b.id] == b && CoveredBut(w, b.id)
    ensures Covered(Last(Revert(w, b, f).stages))
  {}

  lemma CancelCovers(w: World, sid: SandboxId, b: Boost, f: CancelFaults)
    requires b.id in w.db.rows && w.db.rows[b.id] == b && CoveredBut(w, b.id)
    ensures Covered(Last(CancelBoost(w, sid, b, f).stages))
  {}

  lemma LookCovers(w: World, id: BoostId, fault: bool)
    requires Covered(w)
    ensures Covered(Last(Look(w, id, fault).stages))
  {
    var w' := w.(launched := w.launched - multiset{id});
    assert CoveredBut(w', id);
  }

  lemma ExpireCovers(w: World, id: BoostId, f: ExpireFaults)
    requires Valid(w) && Covered(w)
    ensures Covered(Last(Expire(w, id, f).stages))
  {
    var w' := w.(looked := w.looked - multiset{id});
    assert CoveredBut(w', id) && CoveredBut(w'.StopTimer(id), id);
    if id in w.db.rows { RevertCovers(w'.StopTimer(id), w.db.rows[id], f); }
  }

  lemma EnlistCovers(w: World, moved: World, sid: SandboxId, f: LifecycleFaults)
    requires Covered(w) && Covered(moved)
    ensures Covered(Last(Enlist(w, moved, sid, f).stages))
  {}

  lemma OpCovers(w: World, op: Op)
    requires Valid(w) && Covered(w)
    ensures Covered(Last(Run(w, op).stages))
  {
    match op
    case OpStart(sid, lim, seconds, maxDuration, f) =>
      if sid in w.sandboxes { RecordCovers(w, NewBoost(w, sid, lim, seconds), w.BoostOf(sid), f); }
    case OpCancel(sid, f) =>
      if w.BoostOf(sid).Some? { CancelCovers(w.StopTimer(w.BoostOf(sid).value.id), sid, w.BoostOf(sid).value, f); }
    case OpLook(id, fault) => LookCovers(w, id, fault);
    case OpExpire(id, f) => ExpireCovers(w, id, f);
    case OpStop(sid, f) => if sid in w.sandboxes { EnlistCovers(w, w.SetState(sid, Stopping), sid, f); }
    case OpDestroy(sid, f) =>
      if sid in w.sandboxes {
        EnlistCovers(w, w.SetState(sid, Stopping), sid, f);
        EnlistCovers(w, w, sid, f);
      }
    case OpResize(sid, lim, f) =>
  }

  lemma StepCovers(w: World, e: Event)
    requires Valid(w) && Covered(w) && Enabled(w, e)
    ensures Covered(Step(w, e))
  {
    match e
    case Done(op) => OpCovers(w, op);
    case Crash(op, k) => RecoverCovers(Run(w, op).stages[k]);
    case _ =>
  }
}
