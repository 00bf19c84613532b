/** The properties of the boost service that hold only under a condition, each with that condition exact,
    and what whole runs keep.
  */
module BoostTheorems {
  import opened Common
  import opened BoostModel
  import opened BoostInvariants

  // ---- a row for every timer, except after two events ----

  /** An expiration that outlived its row, and whose lookup or second read fails, arms a retry for nothing;
      deleting a sandbox row takes its boost row along but leaves the timer. */
  predicate Strays(w: World, e: Event) {
    match e
    case Done(OpLook(id, fault)) => fault && id !in w.db.rows
    case Done(OpExpire(id, f)) => f.reread && id !in w.db.rows
    case Purge(sid) => w.BoostOf(sid).Some? && w.BoostOf(sid).value.id in w.timers
    case _ => false
  }

  lemma RaiseOwned(w: World, b: Boost, prior: Option<Boost>, f: StartFaults)
    requires Owned(w) && b.id !in w.timers && b.id in w.db.rows && w.db.rows[b.id] == b
    requires b.sandbox in w.db.index && w.db.index[b.sandbox] == b.id
    requires prior.Some? ==> prior.value.sandbox == b.sandbox
    ensures Owned(Last(Raise(w, b, prior, f).stages))
  {}

  lemma RecordOwned(w: World, b: Boost, prior: Option<Boost>, f: StartFaults)
    requires Valid(w) && Owned(w) && b.id == w.nextId && prior == w.BoostOf(b.sandbox)
    ensures Owned(Last(Record(w, b, prior, f).stages))
  {
    var quiet := Silenced(w, prior);
    if !f.upsert { RaiseOwned(quiet.Upsert(b), b, prior, f); }
  }

  lemma RevertOwned(w: World, b: Boost, f: ExpireFaults)
    requires Owned(w) && b.id !in w.timers && b.id in w.db.rows
    ensures Owned(Last(Revert(w, b, f).stages))
  {}

  lemma CancelOwned(w: World, sid: SandboxId, b: Boost, f: CancelFaults)
    requires Owned(w) && b.id !in w.timers && b.id in w.db.rows
    ensures Owned(Last(CancelBoost(w, sid, b, f).stages))
  {}

  lemma ExpireOwned(w: World, id: BoostId, f: ExpireFaults)
    requires Valid(w) && Owned(w) && !Strays(w, Done(OpExpire(id, f)))
    ensures Owned(Last(Expire(w, id, f).stages))
  {
    if id in w.db.rows { RevertOwned(w.(looked := w.looked - multiset{id}).StopTimer(id), w.db.rows[id], f); }
  }

  lemma OpOwned(w: World, op: Op)
    requires Valid(w) && Owned(w) && !Strays(w, Done(op))
    ensures Owned(Last(Run(w, op).stages))
  {
    match op
    case OpStart(sid, lim, seconds, maxDuration, f) =>
      if sid in w.sandboxes { RecordOwned(w, NewBoost(w, sid, lim, seconds), w.BoostOf(sid), f); }
    case OpCancel(sid, f) =>
      if w.BoostOf(sid).Some? { CancelOwned(w.StopTimer(w.BoostOf(sid).value.id), sid, w.BoostOf(sid).value, f); }
    case OpLook(id, fault) =>
    case OpExpire(id, f) => ExpireOwned(w, id, f);
    case OpStop(sid, f) =>
    case OpDestroy(sid, f) =>
    case OpResize(sid, lim, f) =>
  }

  lemma StepOwned(w: World, e: Event)
    requires Valid(w) && Owned(w) && Enabled(w, e)
    ensures Owned(Step(w, e)) <==> !Strays(w, e)
  {
    match e
    case Done(op) =>
      if Strays(w, e) {
        assert op.id in Step(w, e).timers && op.id !in Step(w, e).db.rows;
      } else {
        OpOwned(w, op);
      }
    case Crash(op, k) => RecoverCovers(Run(w, op).stages[k]);
    case Purge(sid) =>
      if Strays(w, e) {
        assert w.BoostOf(sid).value.id in Step(w, e).timers;
      }
    case Fire(_) =>
    case Tick(_) =>
    case Leave(_, _) =>
    case Boot(_, _) =>
    case Create(_, _) =>
  }

  // A stray timer goes away the next time it fires and the lookup works.
  lemma StrayTimerHeals(w: World, id: BoostId)
    requires id !in w.db.rows
    ensures Last(Look(w, id, false).stages) == w.(timers := w.timers - {id}, launched := w.launched - multiset{id})
  {}

  // ---- live limits ----

  predicate Agrees(live: Live, lim: Limits) { Enforce(live, lim) == live }

  predicate SteadyAt(w: World, sid: SandboxId)
    requires sid in w.sandboxes
  {
    w.sandboxes[sid].state == Running && sid !in w.db.index ==>
      Agrees(w.sandboxes[sid].live, w.sandboxes[sid].limits)
  }

  // A running sandbox without a boost runs at its persisted limits.
  ghost predicate Steady(w: World) {
    forall sid :: sid in w.sandboxes ==> SteadyAt(w, sid)
  }

  // A plain resize gets past its checks and its first write, with the machine running.
  predicate Reaches(w: World, sid: SandboxId, lim: Limits, f: ResizeFaults) {
    && lim != NO_LIMITS && !f.read && sid in w.sandboxes && !f.persist
    && w.sandboxes[sid].state == Running && InBounds(lim, w.sandboxes[sid].backend)
  }

  /** The events that leave a running, unboosted sandbox away from its persisted limits: a plain resize
      that persists limits the machine does not get, and a boot with other limits. */
  predicate Tears(w: World, e: Event) {
    match e
    case Done(OpResize(sid, lim, f)) =>
      && Reaches(w, sid, lim, f) && f.apply && f.rollback && w.BoostOf(sid).None?
      && !Agrees(w.sandboxes[sid].live, Patch(w.sandboxes[sid].limits, lim))
    case Crash(OpResize(sid, lim, f), k) =>
      && Reaches(w, sid, lim, f) && k == 1 && w.BoostOf(sid).None?
      && !Agrees(w.sandboxes[sid].live, Patch(w.sandboxes[sid].limits, lim))
    case Boot(sid, live) => sid in w.sandboxes && w.BoostOf(sid).None? && !Agrees(live, w.sandboxes[sid].limits)
    case _ => false
  }

  lemma RaiseSteady(w: World, b: Boost, prior: Option<Boost>, f: StartFaults)
    requires b.id in w.db.rows && w.db.rows[b.id] == b
    requires b.sandbox in w.db.index
    requires prior.Some? ==> prior.value.sandbox == b.sandbox
    requires Steady(w)
    requires prior.None? && b.sandbox in w.sandboxes && w.sandboxes[b.sandbox].state == Running ==>
      Agrees(w.sandboxes[b.sandbox].live, w.sandboxes[b.sandbox].limits)
    ensures forall st :: st in Raise(w, b, prior, f).stages ==> Steady(st)
  {}

  lemma RecordSteady(w: World, b: Boost, prior: Option<Boost>, f: StartFaults)
    requires Valid(w) && Steady(w) && b.id == w.nextId && prior == w.BoostOf(b.sandbox)
    ensures forall st :: st in Record(w, b, prior, f).stages ==> Steady(st)
  {
    var quiet := Silenced(w, prior);
    var recorded := quiet.Upsert(b);
    assert Steady(recorded) by {
      forall sid | sid in recorded.sandboxes ensures SteadyAt(recorded, sid) { assert SteadyAt(w, sid); }
    }
    if b.sandbox in w.sandboxes { assert SteadyAt(w, b.sandbox); }
    RaiseSteady(recorded, b, prior, f);
  }

  lemma RevertSteady(w: World, b: Boost, f: ExpireFaults)
    requires Valid(w) && Steady(w) && b.id in w.db.rows && w.db.rows[b.id] == b
    ensures forall st :: st in Revert(w, b, f).stages ==> Steady(st)
  {}

  lemma CancelSteady(w: World, b: Boost, f: CancelFaults)
    requires Valid(w) && Steady(w) && b.id in w.db.rows && w.db.rows[b.id] == b
    ensures forall st :: st in CancelBoost(w, b.sandbox, b, f).stages ==> Steady(st)
  {}

  lemma EnlistSteady(w: World, moved: World, sid: SandboxId, f: LifecycleFaults)
    requires Steady(w) && Steady(moved) && Valid(moved)
    requires sid in moved.sandboxes ==> moved.sandboxes[sid].state != Running
    ensures forall st :: st in Enlist(w, moved, sid, f).stages ==> Steady(st)
  {}

  lemma StagesSteady(w: World, op: Op)
    requires Valid(w) && Steady(w) && !op.OpResize?
    ensures forall st :: st in Run(w, op).stages ==> Steady(st)
  {
    match op
    case OpStart(sid, lim, seconds, maxDuration, f) =>
      if sid in w.sandboxes { RecordSteady(w, NewBoost(w, sid, lim, seconds), w.BoostOf(sid), f); }
    case OpCancel(sid, f) =>
      if w.BoostOf(sid).Some? { CancelSteady(w.StopTimer(w.BoostOf(sid).value.id), w.BoostOf(sid).value, f); }
    case OpLook(id, fault) => LookSteady(w, id, fault);
    case OpExpire(id, f) => ExpireSteady(w, id, f);
    case OpStop(sid, f) => LifecycleSteady(w, op);
    case OpDestroy(sid, f) => LifecycleSteady(w, op);
  }

  lemma LookSteady(w: World, id: BoostId, fault: bool)
    requires Steady(w)
    ensures forall st :: st in Look(w, id, fault).stages ==> Steady(st)
  {
    var st := Last(Look(w, id, fault).stages);
    assert st.db == w.db && st.sandboxes == w.sandboxes;
    forall sid | sid in st.sandboxes ensures SteadyAt(st, sid) { assert SteadyAt(w, sid); }
  }

  lemma ExpireSteady(w: World, id: BoostId, f: ExpireFaults)
    requires Valid(w) && Steady(w)
    ensures forall st :: st in Expire(w, id, f).stages ==> Steady(st)
  {
    var quiet := w.(looked := w.looked - multiset{id}).StopTimer(id);
    assert Steady(quiet);
    if id in w.db.rows { RevertSteady(quiet, w.db.rows[id], f); }
  }

  lemma LifecycleSteady(w: World, op: Op)
    requires Valid(w) && Steady(w) && (op.OpStop? || op.OpDestroy?)
    ensures forall st :: st in Run(w, op).stages ==> Steady(st)
  {
    if op.sid in w.sandboxes {
      EnlistSteady(w, w.SetState(op.sid, Stopping), op.sid, op.lf);
      if w.sandboxes[op.sid].state != Running { EnlistSteady(w, w, op.sid, op.lf); }
    }
  }

  lemma ResizeSteady(w: World, sid: SandboxId, lim: Limits, f: ResizeFaults)
    requires Valid(w) && Steady(w)
    ensures var op := OpResize(sid, lim, f);
      && (Steady(Last(Run(w, op).stages)) <==> !Tears(w, Done(op)))
      && forall k: nat :: k < |Run(w, op).stages| ==> (Steady(Run(w, op).stages[k]) <==> !Tears(w, Crash(op, k)))
  {
    if Reaches(w, sid, lim, f) {
      var sb := w.sandboxes[sid];
      var saved := w.(sandboxes := w.sandboxes[sid := sb.(limits := Patch(sb.limits, lim))]);
      assert SteadyAt(w, sid);
      assert Steady(saved) <==> SteadyAt(saved, sid) by {
        forall other | other in saved.sandboxes && other != sid ensures SteadyAt(saved, other) {
          assert SteadyAt(w, other);
        }
      }
    }
  }

  lemma StepSteady(w: World, e: Event)
    requires Valid(w) && Steady(w) && Enabled(w, e)
    ensures Steady(Step(w, e)) <==> !Tears(w, e)
  {
    match e
    case Done(op) =>
      if op.OpResize? { ResizeSteady(w, op.sid, op.lim, op.rf); } else {
        StagesSteady(w, op);
        assert Last(Run(w, op).stages) in Run(w, op).stages;
      }
    case Crash(op, k) =>
      var cut := Run(w, op).stages[k];
      assert Steady(Recover(Halt(cut))) <==> Steady(cut) by {
        assert forall sid :: sid in cut.sandboxes ==> (SteadyAt(Recover(Halt(cut)), sid) <==> SteadyAt(cut, sid));
      }
      if op.OpResize? { ResizeSteady(w, op.sid, op.lim, op.rf); } else {
        StagesSteady(w, op);
        assert cut in Run(w, op).stages;
      }
    case Boot(sid, live) => assert Steady(Step(w, e)) <==> SteadyAt(Step(w, e), sid);
    case Purge(_) =>
    case Fire(_) =>
    case Tick(_) =>
    case Leave(_, _) =>
    case Create(_, _) =>
  }

  // ---- whole runs ----

  lemma {:induction false} RunKeeps(ws: seq<World>, es: seq<Event>, i: nat)
    requires IsRun(ws, es) && i < |ws|
    requires Valid(ws[0]) && Covered(ws[0])
    ensures Valid(ws[i]) && Covered(ws[i])
    ensures Owned(ws[0]) && (forall j {:trigger es[j]} :: 0 <= j < i ==> !Strays(ws[j], es[j])) ==> Owned(ws[i])
    ensures Steady(ws[0]) && (forall j {:trigger es[j]} :: 0 <= j < i ==> !Tears(ws[j], es[j])) ==> Steady(ws[i])
  {
    if i > 0 {
      RunKeeps(ws, es, i - 1);
      var w, e := ws[i - 1], es[i - 1];
      assert Enabled(w, e) && ws[i] == Step(w, e);
      StepValid(w, e);
      StepCovers(w, e);
      if Owned(w) { StepOwned(w, e); }
      if Steady(w) { StepSteady(w, e); }
    }
  }

  // ---- retries ----

  // Attempt counts do not fall, ids are not used twice.
  ghost predicate Grows(w: World, w': World) {
    && w.nextId <= w'.nextId
    && (forall id :: id in w.db.rows && id in w'.db.rows ==> w.db.rows[id].attempts <= w'.db.rows[id].attempts)
    && (forall id :: id < w.nextId && id in w'.db.rows ==> id in w.db.rows)
  }

  lemma RecordGrows(w: World, b: Boost, prior: Option<Boost>, f: StartFaults)
    requires Valid(w) && b.id == w.nextId && prior == w.BoostOf(b.sandbox)
    ensures forall st :: st in Record(w, b, prior, f).stages ==> Grows(w, st)
  {
    var quiet := Silenced(w, prior);
    RaiseGrows(w, quiet.Upsert(b), b, prior, f);
  }

  lemma RaiseGrows(w: World, w': World, b: Boost, prior: Option<Boost>, f: StartFaults)
    requires Grows(w, w') && b.id == w.nextId && b.id in w'.db.rows && w'.db.rows[b.id] == b
    requires prior.Some? ==> prior.value.id in w.db.rows && w.db.rows[prior.value.id] == prior.value
    ensures forall st :: st in Raise(w', b, prior, f).stages ==> Grows(w, st)
  {}

  lemma CancelGrows(w: World, sid: SandboxId, b: Boost, f: CancelFaults)
    requires Valid(w) && b.id in w.db.rows && w.db.rows[b.id] == b
    ensures forall st :: st in CancelBoost(w, sid, b, f).stages ==> Grows(w, st)
  {}

  lemma RevertGrows(w: World, b: Boost, f: ExpireFaults)
    requires Valid(w) && b.id in w.db.rows && w.db.rows[b.id] == b
    ensures forall st :: st in Revert(w, b, f).stages ==> Grows(w, st)
  {}

  lemma EnlistGrows(w: World, moved: World, sid: SandboxId, f: LifecycleFaults)
    requires moved.db == w.db && moved.nextId == w.nextId
    ensures forall st :: st in Enlist(w, moved, sid, f).stages ==> Grows(w, st)
  {}

  lemma StagesGrow(w: World, op: Op)
    requires Valid(w)
    ensures forall st :: st in Run(w, op).stages ==> Grows(w, st)
  {
    match op
    case OpStart(sid, lim, seconds, maxDuration, f) =>
      if sid in w.sandboxes { RecordGrows(w, NewBoost(w, sid, lim, seconds), w.BoostOf(sid), f); }
    case OpCancel(sid, f) =>
      if w.BoostOf(sid).Some? { CancelGrows(w.StopTimer(w.BoostOf(sid).value.id), sid, w.BoostOf(sid).value, f); }
    case OpLook(id, fault) =>
    case OpExpire(id, f) =>
      if id in w.db.rows { RevertGrows(w.(looked := w.looked - multiset{id}).StopTimer(id), w.db.rows[id], f); }
    case OpStop(sid, f) =>
      if sid in w.sandboxes { EnlistGrows(w, w.SetState(sid, Stopping), sid, f); }
    case OpDestroy(sid, f) =>
      if sid in w.sandboxes { EnlistGrows(w, w.SetState(sid, Stopping), sid, f); EnlistGrows(w, w, sid, f); }
    case OpResize(sid, lim, f) =>
  }

  lemma StepGrows(w: World, e: Event)
    requires Valid(w) && Enabled(w, e)
    ensures Grows(w, Step(w, e))
  {
    match e
    case Done(op) => StagesGrow(w, op); assert Last(Run(w, op).stages) in Run(w, op).stages;
    case Crash(op, k) =>
      StagesGrow(w, op);
      assert Run(w, op).stages[k] in Run(w, op).stages;
      assert Recover(Halt(Run(w, op).stages[k])).db == Run(w, op).stages[k].db;
    case Purge(sid) =>
    case Fire(_) =>
    case Tick(_) =>
    case Leave(_, _) =>
    case Boot(_, _) =>
    case Create(_, _) =>
  }

  lemma {:induction false} RunGrows(ws: seq<World>, es: seq<Event>, i: nat, j: nat)
    requires IsRun(ws, es) && i <= j < |ws| && Valid(ws[i])
    ensures Valid(ws[j]) && Grows(ws[i], ws[j])
  {
    if i < j {
      RunGrows(ws, es, i, j - 1);
      assert Enabled(ws[j - 1], es[j - 1]) && ws[j] == Step(ws[j - 1], es[j - 1]);
      StepValid(ws[j - 1], es[j - 1]);
      StepGrows(ws[j - 1], es[j - 1]);
    }
  }

  // The boost's sandbox runs and the store works, but the revert is refused: by the provider, or because the
  // sandbox has no limit to go back to.
  predicate Refuses(w: World, id: BoostId, f: ExpireFaults) {
    && !f.reread && !f.sandbox && !f.update
    && id in w.db.rows && w.db.rows[id].id == id
    && var sid := w.db.rows[id].sandbox;
       sid in w.sandboxes && w.sandboxes[sid].state == Running && !Apply(w, sid, w.sandboxes[sid].limits, f.apply).ok
  }

  // Some time later an expiration of the boost has looked it up and waits for the lock.
  function Found(w: World, id: BoostId, gap: nat): World {
    w.(now := w.now + gap, launched := w.launched - multiset{id}, looked := w.looked + multiset{id})
  }

  lemma LookFinds(w: World, id: BoostId, gap: nat)
    requires id in w.db.rows
    ensures Last(Look(w.(now := w.now + gap), id, false).stages) == Found(w, id, gap)
  {}

  function Tried(w: World, id: BoostId, gap: nat, f: ExpireFaults): World {
    Last(Expire(Found(w, id, gap), id, f).stages)
  }

  // The boost's expiration runs once after each gap.
  function Retried(w: World, id: BoostId, gaps: seq<nat>, f: ExpireFaults): World {
    if gaps == [] then w else Tried(Retried(w, id, gaps[..|gaps| - 1], f), id, Last(gaps), f)
  }

  // The seconds to wait after the n-th refused attempt, for n up to five.
  function Delay(n: nat): nat {
    if n <= 1 then 1 else if n == 2 then 5 else if n == 3 then 30 else if n == 4 then 2 * 60 else 10 * 60
  }

  // How a boost that was fresh in w stands after n refused attempts.
  predicate Stands(w: World, r: World, id: BoostId, n: nat)
    requires id in w.db.rows
  {
    && RowStands(w, r, id, n)
    && (1 <= n <= 5 ==> id in r.timers && r.timers[id] == Waiting(r.now + Delay(n) * 1_000_000_000))
    && (n >= 6 ==> id !in r.timers)
  }

  predicate RowStands(w: World, r: World, id: BoostId, n: nat)
    requires id in w.db.rows
  {
    && r.sandboxes == w.sandboxes && id in r.db.rows
    && r.db.rows[id] == w.db.rows[id].(attempts := n, state := if n >= 6 then RevertFailed else Active)
  }

  /** A fresh boost whose revert is always refused: the n-th expiration records attempt n and rearms after
      the n-th backoff; the sixth, and none before it, gives up and leaves no timer. */
  lemma {:induction false} GivesUpAtTheSixth(w: World, id: BoostId, gaps: seq<nat>, f: ExpireFaults)
    requires Refuses(w, id, f) && w.db.rows[id].attempts == 0 && w.db.rows[id].state == Active
    ensures Stands(w, Retried(w, id, gaps, f), id, |gaps|)
  {
    if gaps != [] {
      var short := gaps[..|gaps| - 1];
      GivesUpAtTheSixth(w, id, short, f);
      RefusedOnce(w, Retried(w, id, short, f), id, |short|, Last(gaps), f);
    }
  }

  lemma RefusedOnce(w: World, r: World, id: BoostId, n: nat, gap: nat, f: ExpireFaults)
    requires Refuses(w, id, f) && RowStands(w, r, id, n)
    ensures Stands(w, Tried(r, id, gap, f), id, n + 1)
  {
    var found := Found(r, id, gap);
    RefusedAgain(w, found, id, f);
    CountedStands(w, found.(looked := found.looked - multiset{id}).StopTimer(id), id, n);
  }

  lemma RefusedAgain(w: World, found: World, id: BoostId, f: ExpireFaults)
    requires Refuses(w, id, f) && found.sandboxes == w.sandboxes && id in found.db.rows
    requires found.db.rows[id].id == id && found.db.rows[id].sandbox == w.db.rows[id].sandbox
    ensures var quiet := found.(looked := found.looked - multiset{id}).StopTimer(id);
      Last(Expire(found, id, f).stages) == AfterFailedRevert(quiet, id, found.db.rows[id].attempts + 1, false)
  {
    StillRefuses(w, found, id, f);
    ExpireRefused(found, id, f);
  }

  lemma CountedStands(w: World, quiet: World, id: BoostId, n: nat)
    requires id in w.db.rows && RowStands(w, quiet, id, n) && id !in quiet.timers
    ensures Stands(w, AfterFailedRevert(quiet, id, n + 1, false), id, n + 1)
  {}

  // A refused revert comes to counting the attempt.
  lemma ExpireRefused(w: World, id: BoostId, f: ExpireFaults)
    requires Refuses(w, id, f)
    ensures var quiet := w.(looked := w.looked - multiset{id}).StopTimer(id);
      Last(Expire(w, id, f).stages) == AfterFailedRevert(quiet, id, w.db.rows[id].attempts + 1, false)
  {}

  lemma StillRefuses(w: World, w': World, id: BoostId, f: ExpireFaults)
    requires Refuses(w, id, f) && w'.sandboxes == w.sandboxes && id in w'.db.rows
    requires w'.db.rows[id].id == id && w'.db.rows[id].sandbox == w.db.rows[id].sandbox
    ensures Refuses(w', id, f)
  {}

  // ---- failures that undo themselves ----

  /** A failed Start whose compensating write works leaves every row, every sandbox and every live limit as
      they were. The prior boost's timer ends up at its expiry (now, if that is past); so the timers are
      unchanged exactly when that is where it was, which it is unless a retry was pending. */
  lemma FailedStartRestores(w: World, sid: SandboxId, lim: Limits, seconds: int, maxDuration: Nanos, f: StartFaults)
    requires Valid(w) && Owned(w)
    requires !Start(w, sid, lim, seconds, maxDuration, f).ok
    requires if w.BoostOf(sid).Some? then !f.restore else !f.remove
    ensures var r := Last(Start(w, sid, lim, seconds, maxDuration, f).stages);
      && r.db == w.db && r.sandboxes == w.sandboxes && r.launched == w.launched
      && (r.timers == w.timers <==>
            || !Admits(w, sid, lim, seconds, maxDuration, f)
            || w.BoostOf(sid).None?
            || var p := w.BoostOf(sid).value;
               if p.state == Active then p.id in w.timers && w.timers[p.id] == Waiting(Max(w.now, p.expiresAt))
               else p.id !in w.timers)
  {
    if Admits(w, sid, lim, seconds, maxDuration, f) {
      var b := NewBoost(w, sid, lim, seconds);
      var prior := w.BoostOf(sid);
      if prior.Some? { ReplaceUndone(w.db, b, prior.value, w.nextId); } else { InsertUndone(w.db, b, w.nextId); }
      FailedRecord(w, b, prior, f);
      if prior.Some? { MovedTimer(w.timers, prior.value.id, Waiting(Max(w.now, prior.value.expiresAt))); }
    }
  }

  lemma ReplaceUndone(t: Table, b: Boost, p: Boost, nextId: BoostId)
    requires Consistent(t, nextId) && b.id == nextId && t.Get(b.sandbox) == Some(p)
    ensures t.Upsert(b).Upsert(p) == t
  {
    assert t.Upsert(b).Upsert(p).rows == t.rows;
    assert t.Upsert(b).Upsert(p).index == t.index;
  }

  lemma InsertUndone(t: Table, b: Boost, nextId: BoostId)
    requires Consistent(t, nextId) && b.id == nextId && t.Get(b.sandbox).None?
    ensures t.Upsert(b).Delete(b.id) == t
  {
    assert t.Upsert(b).Delete(b.id).rows == t.rows;
    assert t.Upsert(b).Delete(b.id).index == t.index;
  }

  lemma FailedRecord(w: World, b: Boost, prior: Option<Boost>, f: StartFaults)
    requires !Record(w, b, prior, f).ok && if prior.Some? then !f.restore else !f.remove
    requires if prior.Some? then w.db.Upsert(b).Upsert(prior.value) == w.db else w.db.Upsert(b).Delete(b.id) == w.db
    ensures var r := Last(Record(w, b, prior, f).stages);
      && r.db == w.db && r.sandboxes == w.sandboxes && r.launched == w.launched
      && r.timers == if prior.None? then w.timers
                     else if prior.value.state == Active then
                       (w.timers - {prior.value.id})[prior.value.id := Waiting(Max(w.now, prior.value.expiresAt))]
                     else w.timers - {prior.value.id}
  {}

  lemma MovedTimer(timers: map<BoostId, Timer>, id: BoostId, t: Timer)
    ensures (timers - {id})[id := t] == timers <==> id in timers && timers[id] == t
    ensures timers - {id} == timers <==> id !in timers
  {
    assert (timers - {id})[id := t][id] == t;
    assert id !in timers - {id};
  }

  /** A failed Stop or Destroy never touches the boost row or its timer, and changes nothing at all unless
      the write that takes the sandbox back to Running fails. */
  lemma FailedLifecycleRestores(w: World, sid: SandboxId, f: LifecycleFaults, destroy: bool)
    requires var o := if destroy then Destroy(w, sid, f) else Stop(w, sid, f); !o.ok
    ensures var r := Last((if destroy then Destroy(w, sid, f) else Stop(w, sid, f)).stages);
      && r.db == w.db && r.timers == w.timers
      && (r == w <==> !(!f.read && sid in w.sandboxes && w.sandboxes[sid].state == Running
                        && !f.update && f.create && f.rollback))
  {}

  // ---- what a revert restores ----

  /** After an expiration that succeeds the row is gone and each set persisted limit is enforced; a limit
      the sandbox does not set keeps whatever the boost made it. */
  lemma RevertOutcome(w: World, id: BoostId, f: ExpireFaults)
    requires Valid(w) && id in w.db.rows && Expire(w, id, f).ok
    requires w.db.rows[id].sandbox in w.sandboxes && w.sandboxes[w.db.rows[id].sandbox].state == Running
    ensures var sid := w.db.rows[id].sandbox;
      var r := Last(Expire(w, id, f).stages);
      var lim, live := w.sandboxes[sid].limits, w.sandboxes[sid].live;
      && id !in r.db.rows && r.BoostOf(sid).None? && id !in r.timers
      && sid in r.sandboxes && r.sandboxes[sid].limits == lim && lim != NO_LIMITS
      && r.sandboxes[sid].live.cpu == (if lim.cpu.Some? then lim.cpu.value else live.cpu)
      && r.sandboxes[sid].live.mem == (if lim.mem.Some? then lim.mem.value else live.mem)
  {}

  /** With neither limit persisted there is nothing to revert to: no expiration on a running sandbox succeeds,
      whatever fails or works, the row stays and the machine keeps the boosted limits. */
  lemma NothingToRevert(w: World, id: BoostId, f: ExpireFaults)
    requires Valid(w) && id in w.db.rows && w.db.rows[id].sandbox in w.sandboxes
    requires var sb := w.sandboxes[w.db.rows[id].sandbox]; sb.state == Running && sb.limits == NO_LIMITS
    ensures var o := Expire(w, id, f);
      !o.ok && Last(o.stages).sandboxes == w.sandboxes && id in Last(o.stages).db.rows
  {}

  // Nor does a Cancel; if the store works it gives the boost up.
  lemma NothingToCancel(w: World, sid: SandboxId, f: CancelFaults)
    requires Valid(w) && sid in w.sandboxes && w.BoostOf(sid).Some?
    requires w.sandboxes[sid].state == Running && w.sandboxes[sid].limits == NO_LIMITS
    ensures var o := Cancel(w, sid, f);
      var b := Last(o.stages).BoostOf(sid);
      && !o.ok && Last(o.stages).sandboxes == w.sandboxes
      && b.Some? && b.value.id == w.BoostOf(sid).value.id
      && (!f.read && !f.sandbox && !f.update ==> b.value.state == RevertFailed)
  {}

  // ---- the duration cap ----

  /** The cap is checked on a 64-bit product. It bounds the duration asked for, whatever the cap, exactly
      when the product does not overflow. */
  lemma DurationCap(seconds: int)
    requires 0 < seconds < 0x8000_0000_0000_0000
    ensures (forall cap: Nanos :: 0 <= cap < 0x8000_0000_0000_0000 && AcceptedDuration(seconds, cap) ==>
               seconds * SECOND <= cap)
            <==> seconds * SECOND < 0x8000_0000_0000_0000
  {
    if seconds * SECOND >= 0x8000_0000_0000_0000 {
      assert AcceptedDuration(seconds, 0x7FFF_FFFF_FFFF_FFFF);
    }
  }

  // 18446744074 seconds, some 585 years, pass a cap of one hour.
  lemma DurationCapFails()
    ensures AcceptedDuration(18446744074, 3600 * SECOND)
  {
    assert 18446744074 * SECOND == 0x1_0000_0000_0000_0000 + 290448384;
  }
}
