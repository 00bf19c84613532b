/** The boost service as the object it is: tables and timers changed step by step, with a compensation at
    every call that can fail. Each method is proved against the operation of the same name in BoostModel:
    it leaves the operation's last stage, and writes nothing that is not one of its stages.

    A fault argument says that the call fails; a failed write leaves its table alone. The ghost argument
    `plan` lists the stages of the operation under way: no store or provider write is allowed to produce
    durable contents that are not those of a listed stage, so a crash can only expose a stage.
  */
module BoostDaemon {
  import opened Common
  import opened BoostModel

  ghost predicate Shows(plan: seq<World>, db: Table, sandboxes: map<SandboxId, Sandbox>) {
    exists st :: st in plan && st.db == db && st.sandboxes == sandboxes
  }

  // Every stage of an inner operation is, in its durable part, a stage of the outer one.
  ghost predicate Within(plan: seq<World>, stages: seq<World>) {
    forall st :: st in stages ==> Shows(plan, st.db, st.sandboxes)
  }

  class BoostService {
    var sandboxes: map<SandboxId, Sandbox>
    var db: Table
    var timers: map<BoostId, Timer>
    var launched: multiset<BoostId>
    var looked: multiset<BoostId>
    var now: Nanos
    var nextId: BoostId
    const maxDuration: Nanos

    ghost function Current(): World
      reads this
    {
      World(sandboxes, db, timers, launched, looked, now, nextId)
    }

    constructor (maxDuration: Nanos)
      ensures Current() == EMPTY && this.maxDuration == maxDuration
    {
      this.maxDuration := maxDuration;
      sandboxes, db, timers := map[], Table(map[], map[]), map[];
      launched, looked, now, nextId := multiset{}, multiset{}, 0, 0;
    }

    // ---- timers ----

    method ArmExpiry(id: BoostId, delay: Nanos)
      modifies this`timers
      ensures Current() == old(Current()).Arm(id, delay)
    {
      var wait := delay;
      if wait < 0 {
        wait := 0;
      }
      timers := timers[id := Waiting(now + wait)];
    }

    method ArmRemaining(b: Boost)
      modifies this`timers
      ensures Current() == old(Current()).ArmRemaining(b)
    {
      ArmExpiry(b.id, b.expiresAt - now);
    }

    method ArmRetry(id: BoostId)
      modifies this`timers
      ensures Current() == old(Current()).ArmRetry(id)
    {
      ArmExpiry(id, BACKOFF[0]);
    }

    method StopTimer(id: BoostId)
      modifies this`timers
      ensures Current() == old(Current()).StopTimer(id)
    {
      if id in timers {
        timers := timers - {id};
      } else {
        assert timers - {id} == timers;
      }
    }

    // ---- the two stores and the provider ----

    method Upsert(b: Boost, fault: bool, ghost plan: seq<World>) returns (ok: bool)
      requires !fault ==> Shows(plan, db.Upsert(b), sandboxes)
      modifies this`db
      ensures ok == !fault
      ensures Current() == if ok then old(Current()).Upsert(b) else old(Current())
    {
      ok := !fault;
      if ok {
        db := db.Upsert(b);
      }
    }

    // Deleting a row that is not there is not an error to any caller.
    method Delete(id: BoostId, fault: bool, ghost plan: seq<World>) returns (ok: bool)
      requires !fault ==> Shows(plan, db.Delete(id), sandboxes)
      modifies this`db
      ensures ok == !fault
      ensures Current() == if ok then old(Current()).Delete(id) else old(Current())
    {
      ok := !fault;
      if ok {
        db := db.Delete(id);
      }
    }

    // The row goes, or a retry is armed to try again.
    method DropBoost(id: BoostId, fault: bool, ghost plan: seq<World>) returns (ok: bool)
      requires Shows(plan, DeleteOrRetry(Current(), id, fault).db, sandboxes)
      modifies this`db, this`timers
      ensures ok == !fault && Current() == DeleteOrRetry(old(Current()), id, fault)
    {
      ok := Delete(id, fault, plan);
      if !ok {
        ArmRetry(id);
      }
    }

    method UpdateState(id: BoostId, state: BoostState, attempts: nat, fault: bool, ghost plan: seq<World>)
      returns (ok: bool)
      requires !fault ==> Shows(plan, db.UpdateState(id, state, attempts), sandboxes)
      modifies this`db
      ensures ok == !fault
      ensures Current() == if ok then old(Current()).UpdateState(id, state, attempts) else old(Current())
    {
      ok := !fault;
      if ok {
        db := db.UpdateState(id, state, attempts);
      }
    }

    method SaveSandbox(sid: SandboxId, sb: Sandbox, fault: bool, ghost plan: seq<World>) returns (ok: bool)
      requires !fault ==> Shows(plan, db, sandboxes[sid := sb])
      modifies this`sandboxes
      ensures ok == !fault
      ensures sandboxes == if ok then old(sandboxes)[sid := sb] else old(sandboxes)
    {
      ok := !fault;
      if ok {
        sandboxes := sandboxes[sid := sb];
      }
    }

    method UpdateResources(sid: SandboxId, lim: Limits, liveOnly: bool, f: ResizeFaults, ghost plan: seq<World>)
      returns (ok: bool)
      requires Within(plan, BoostModel.UpdateResources(Current(), sid, lim, liveOnly, f).stages)
      modifies this`sandboxes
      ensures var o := BoostModel.UpdateResources(old(Current()), sid, lim, liveOnly, f);
        ok == o.ok && Current() == Last(o.stages)
    {
      ghost var stages := BoostModel.UpdateResources(Current(), sid, lim, liveOnly, f).stages;
      assert Last(stages) in stages && (|stages| > 1 ==> stages[1] in stages);
      if lim == NO_LIMITS || f.read || sid !in sandboxes {
        return false;
      }
      var sb := sandboxes[sid];
      if sb.state == Destroyed || sb.state == Failed || !InBounds(lim, sb.backend) {
        return false;
      }
      assert sandboxes[sid := sb] == sandboxes;
      var row := sb;
      if !liveOnly {
        row := sb.(limits := Patch(sb.limits, lim));
        ok := SaveSandbox(sid, row, f.persist, plan);
        if !ok {
          return false;
        }
      }
      if sb.state == Running {
        if f.apply {
          if !liveOnly {
            assert sandboxes[sid := sb] == old(sandboxes);
            var undone := SaveSandbox(sid, sb, f.rollback, plan);
          }
          return false;
        }
        ok := SaveSandbox(sid, row.(live := Enforce(sb.live, lim)), false, plan);
      }
      return true;
    }

    // ---- the operations ----

    method Start(sid: SandboxId, lim: Limits, seconds: int, f: StartFaults) returns (boost: Option<Boost>)
      modifies this
      ensures var o := BoostModel.Start(old(Current()), sid, lim, seconds, maxDuration, f);
        && Current() == Last(o.stages) && boost.Some? == o.ok
        && (o.ok ==> boost == Some(NewBoost(old(Current()), sid, lim, seconds)))
    {
      if seconds <= 0 || Duration(seconds) > maxDuration || lim == NO_LIMITS {
        return None;
      }
      if f.read || sid !in sandboxes || sandboxes[sid].state != Running || !InBounds(lim, sandboxes[sid].backend) {
        return None;
      }
      if f.reread || f.prior {
        return None;
      }
      var prior := db.Get(sid);
      var b := Boost(nextId, sid, sandboxes[sid].limits, lim, now, now + Duration(seconds), Active, 0);
      assert Admits(Current(), sid, lim, seconds, maxDuration, f) && b == NewBoost(Current(), sid, lim, seconds);
      ghost var o := Record(Current(), b, prior, f);
      assert BoostModel.Start(Current(), sid, lim, seconds, maxDuration, f) == o;
      var ok := RecordBoost(b, prior, f, o.stages);
      return if ok then Some(b) else None;
    }

    // The rest of Start, once every check has passed.
    method RecordBoost(b: Boost, prior: Option<Boost>, f: StartFaults, ghost plan: seq<World>) returns (ok: bool)
      requires plan == Record(Current(), b, prior, f).stages
      modifies this
      ensures Current() == Last(plan) && ok == Record(old(Current()), b, prior, f).ok
    {
      nextId := nextId + 1;
      if prior.Some? {
        StopTimer(prior.value.id);
      }
      assert Current() == Silenced(old(Current()), prior);
      RecordStages(old(Current()), b, prior, f);
      ok := Upsert(b, f.upsert, plan);
      if !ok {
        if prior.Some? && prior.value.state == Active {
          ArmRemaining(prior.value);
        }
        return false;
      }
      ok := RaiseLimits(b, prior, f, plan);
    }

    // The rest of Start, from the row being written.
    method RaiseLimits(b: Boost, prior: Option<Boost>, f: StartFaults, ghost plan: seq<World>) returns (ok: bool)
      requires Within(plan, Raise(Current(), b, prior, f).stages)
      modifies this`sandboxes, this`db, this`timers
      ensures var o := Raise(old(Current()), b, prior, f);
        Current() == Last(o.stages) && ok == o.ok
    {
      RaiseStages(plan, Current(), b, prior, f);
      ok := UpdateResources(b.sandbox, b.boosted, true, f.apply, plan);
      if ok {
        ArmRemaining(b);
        return;
      }
      UndoRecord(b, prior, f, plan);
    }

    // Puts the prior row back, or takes the new one away.
    method UndoRecord(b: Boost, prior: Option<Boost>, f: StartFaults, ghost plan: seq<World>)
      requires Shows(plan, Undone(Current(), b, prior, f).db, sandboxes)
      modifies this`db, this`timers
      ensures Current() == Undone(old(Current()), b, prior, f)
    {
      if prior.Some? {
        var restored := Upsert(prior.value, f.restore, plan);
        if !restored {
          ArmRetry(b.id);
        } else if prior.value.state == Active {
          ArmRemaining(prior.value);
        }
      } else {
        var removed := DropBoost(b.id, f.remove, plan);
      }
    }

    // An expiration up to the wait for the sandbox's lock; `found` if it has a lock to wait for.
    method Look(id: BoostId, fault: bool) returns (found: bool)
      modifies this`timers, this`launched, this`looked
      ensures var o := BoostModel.Look(old(Current()), id, fault); Current() == Last(o.stages) && found == o.ok
    {
      launched := launched - multiset{id};
      if fault {
        ArmRetry(id);
        return false;
      }
      if id !in db.rows {
        StopTimer(id);
        return false;
      }
      looked := looked + multiset{id};
      return true;
    }

    // And from there, with the lock.
    method Expire(id: BoostId, f: ExpireFaults)
      modifies this
      ensures Current() == Last(BoostModel.Expire(old(Current()), id, f).stages)
    {
      looked := looked - multiset{id};
      if f.reread {
        ArmRetry(id);
        return;
      }
      if id !in db.rows {
        StopTimer(id);
        return;
      }
      StopTimer(id);
      RevertBoost(db.rows[id], f);
    }

    // The rest of Expire, with the row read again and its timer stopped.
    method RevertBoost(b: Boost, f: ExpireFaults)
      modifies this`sandboxes, this`db, this`timers
      ensures Current() == Last(Revert(old(Current()), b, f).stages)
    {
      ghost var plan := Revert(Current(), b, f).stages;
      assert Last(plan) in plan && plan[0] in plan && (|plan| > 1 ==> plan[1] in plan);
      if f.sandbox {
        ArmRetry(b.id);
        return;
      }
      if b.sandbox !in sandboxes || sandboxes[b.sandbox].state != Running {
        var removed := DropBoost(b.id, f.remove, plan);
        return;
      }
      RevertLimits(b, f, plan);
    }

    // The rest of RevertBoost, with the machine running.
    method RevertLimits(b: Boost, f: ExpireFaults, ghost plan: seq<World>)
      requires plan == Revert(Current(), b, f).stages && !f.sandbox
      requires b.sandbox in sandboxes && sandboxes[b.sandbox].state == Running
      modifies this`sandboxes, this`db, this`timers
      ensures Current() == Last(plan)
    {
      LiveStages(Current(), b.sandbox, sandboxes[b.sandbox].limits, f.apply);
      assert Last(plan) in plan && plan[0] in plan && plan[1] in plan;
      var ok := UpdateResources(b.sandbox, sandboxes[b.sandbox].limits, true, f.apply, plan);
      if ok {
        var removed := DropBoost(b.id, f.remove, plan);
        return;
      }
      CountFailure(b.id, b.attempts + 1, f.update, plan);
    }

    // A refused revert: retry later, or give up.
    method CountFailure(id: BoostId, attempts: nat, fault: bool, ghost plan: seq<World>)
      requires attempts >= 1 && Shows(plan, AfterFailedRevert(Current(), id, attempts, fault).db, sandboxes)
      modifies this`db, this`timers
      ensures Current() == AfterFailedRevert(old(Current()), id, attempts, fault)
    {
      var ok: bool;
      if attempts > |BACKOFF| {
        ok := UpdateState(id, RevertFailed, attempts, fault, plan);
        if !ok {
          ArmRetry(id);
        }
        return;
      }
      ok := UpdateState(id, Active, attempts, fault, plan);
      if !ok {
        ArmRetry(id);
        return;
      }
      ArmExpiry(id, BACKOFF[attempts - 1]);
    }

    method Cancel(sid: SandboxId, f: CancelFaults) returns (ok: bool)
      modifies this`sandboxes, this`db, this`timers
      ensures var o := BoostModel.Cancel(old(Current()), sid, f);
        Current() == Last(o.stages) && ok == o.ok
    {
      if f.read || db.Get(sid).None? {
        return false;
      }
      var b := db.Get(sid).value;
      StopTimer(b.id);
      ghost var plan := CancelBoost(Current(), sid, b, f).stages;
      assert Last(plan) in plan && plan[0] in plan && (|plan| > 1 ==> plan[1] in plan);
      if f.sandbox {
        if b.state == Active {
          ArmRemaining(b);
        }
        return false;
      }
      if sid !in sandboxes || sandboxes[sid].state != Running {
        ok := DropBoost(b.id, f.remove, plan);
        return ok && sid in sandboxes;
      }
      ok := CancelLimits(sid, b, f, plan);
    }

    // The rest of Cancel, with the machine running.
    method CancelLimits(sid: SandboxId, b: Boost, f: CancelFaults, ghost plan: seq<World>) returns (ok: bool)
      requires plan == CancelBoost(Current(), sid, b, f).stages && !f.sandbox
      requires sid in sandboxes && sandboxes[sid].state == Running
      modifies this`sandboxes, this`db, this`timers
      ensures Current() == Last(plan) && ok == CancelBoost(old(Current()), sid, b, f).ok
    {
      LiveStages(Current(), sid, sandboxes[sid].limits, f.apply);
      assert Last(plan) in plan && plan[0] in plan && plan[1] in plan;
      ok := UpdateResources(sid, sandboxes[sid].limits, true, f.apply, plan);
      if !ok {
        var marked := UpdateState(b.id, RevertFailed, b.attempts + 1, f.update, plan);
        if !marked {
          ArmRetry(b.id);
        }
        return false;
      }
      ok := DropBoost(b.id, f.remove, plan);
    }

    // Called with the sandbox's lock held when its machine is about to go away.
    method CancelOnLifecycle(sid: SandboxId, f: LifecycleFaults, ghost plan: seq<World>)
      requires Shows(plan, LifecycleHook(Current(), sid, f).db, sandboxes)
      modifies this`db, this`timers
      ensures Current() == LifecycleHook(old(Current()), sid, f)
    {
      if f.boost || db.Get(sid).None? {
        return;
      }
      var id := db.Get(sid).value.id;
      var ok := Delete(id, f.remove, plan);
      if ok {
        StopTimer(id);
      }
    }

    method Stop(sid: SandboxId, f: LifecycleFaults) returns (ok: bool)
      modifies this`sandboxes, this`db, this`timers
      ensures var o := BoostModel.Stop(old(Current()), sid, f);
        Current() == Last(o.stages) && ok == o.ok
    {
      ghost var plan := BoostModel.Stop(Current(), sid, f).stages;
      assert Last(plan) in plan && (|plan| > 1 ==> plan[1] in plan);
      if f.read || sid !in sandboxes || sandboxes[sid].state != Running {
        return false;
      }
      var sb := sandboxes[sid];
      ok := SaveSandbox(sid, sb.(state := Stopping), f.update, plan);
      if !ok {
        return false;
      }
      if f.create {
        assert sandboxes[sid := sb] == old(sandboxes);
        var undone := SaveSandbox(sid, sb, f.rollback, plan);
        return false;
      }
      CancelOnLifecycle(sid, f, plan);
    }

    method Destroy(sid: SandboxId, f: LifecycleFaults) returns (ok: bool)
      modifies this`sandboxes, this`db, this`timers
      ensures var o := BoostModel.Destroy(old(Current()), sid, f);
        Current() == Last(o.stages) && ok == o.ok
    {
      ghost var plan := BoostModel.Destroy(Current(), sid, f).stages;
      assert Last(plan) in plan && (|plan| > 1 ==> plan[1] in plan);
      if f.read || sid !in sandboxes || sandboxes[sid].state == Destroyed {
        return false;
      }
      var sb := sandboxes[sid];
      var transitioned := false;
      if sb.state == Running {
        transitioned := SaveSandbox(sid, sb.(state := Stopping), f.update, plan);
        if !transitioned {
          return false;
        }
      }
      if f.create {
        if transitioned {
          assert sandboxes[sid := sb] == old(sandboxes);
          var undone := SaveSandbox(sid, sb, f.rollback, plan);
        }
        return false;
      }
      CancelOnLifecycle(sid, f, plan);
      return true;
    }

    // Run once at startup, after the tables were read without an error.
    method Recover()
      modifies this`timers, this`launched
      ensures Current() == BoostModel.Recover(old(Current()))
    {
      ghost var start := Current();
      var todo := db.rows.Keys;
      NoneRecovered(start);
      while todo != {}
        invariant todo <= db.rows.Keys
        invariant HalfRecovered(start, todo, timers, launched)
        decreases |todo|
      {
        ghost var some := SomeElement(todo);
        var id :| id in todo;
        RecoverOne(start, todo, timers, launched, id);
        RecoverRow(id);
        todo := todo - {id};
      }
      AllRecovered(start, timers, launched);
    }

    // One turn of that loop.
    method RecoverRow(id: BoostId)
      requires id in db.rows
      modifies this`timers, this`launched
      ensures timers == TimersAfter(old(Current()), id, old(timers))
      ensures launched == LaunchedAfter(old(Current()), id, old(launched))
    {
      var b := db.rows[id];
      if b.state == Active {
        if b.expiresAt <= now {
          launched := launched + multiset{id};
        } else {
          ArmExpiry(id, b.expiresAt - now);
        }
      }
    }
  }

  // The stages of a Start whose row is written go on from that row.
  lemma RecordStages(w: World, b: Boost, prior: Option<Boost>, f: StartFaults)
    ensures var plan := Record(w, b, prior, f).stages;
      var written := Silenced(w, prior).Upsert(b);
      !f.upsert ==>
        && Shows(plan, written.db, written.sandboxes)
        && Within(plan, Raise(written, b, prior, f).stages)
        && Last(plan) == Last(Raise(written, b, prior, f).stages)
  {
    var plan := Record(w, b, prior, f).stages;
    var written := Silenced(w, prior).Upsert(b);
    if !f.upsert {
      var later := Raise(written, b, prior, f).stages;
      assert plan == [w] + later;
      assert later[0] == written && plan[1] == written;
      forall st | st in later ensures st in plan {}
    }
  }

  lemma RaiseStages(plan: seq<World>, w: World, b: Boost, prior: Option<Boost>, f: StartFaults)
    requires Within(plan, Raise(w, b, prior, f).stages)
    ensures var applied := Apply(w, b.sandbox, b.boosted, f.apply);
      && Within(plan, applied.stages)
      && (!applied.ok ==> Last(applied.stages) == w && Shows(plan, Undone(w, b, prior, f).db, w.sandboxes))
  {
    var stages := Raise(w, b, prior, f).stages;
    var applied := Apply(w, b.sandbox, b.boosted, f.apply);
    LiveStages(w, b.sandbox, b.boosted, f.apply);
    assert stages[0] in stages && stages[1] in stages;
    assert stages[0] == w && Shows(plan, w.db, w.sandboxes);
    if !applied.ok { assert stages[1] == Undone(w, b, prior, f) && stages[1].sandboxes == w.sandboxes; }
  }

  // An overlay has one stage of its own at most: the one it ends in.
  lemma LiveStages(w: World, sid: SandboxId, lim: Limits, f: ResizeFaults)
    ensures var o := Apply(w, sid, lim, f);
      && (forall st :: st in o.stages ==> st == w || st == Last(o.stages))
      && (!o.ok ==> Last(o.stages) == w)
  {}

  lemma AllSame(timers: map<BoostId, Timer>, launched: multiset<BoostId>, w: World)
    requires forall id :: SameAt(id, timers, launched, w)
    ensures timers == w.timers && launched == w.launched
  {
    forall id ensures (id in timers <==> id in w.timers) && launched[id] == w.launched[id] {
      assert SameAt(id, timers, launched, w);
    }
    forall id | id in timers ensures timers[id] == w.timers[id] { assert SameAt(id, timers, launched, w); }
    assert timers.Keys == w.timers.Keys;
  }

  // Recover has dealt with every row but those still to do.
  ghost predicate HalfRecovered(w: World, todo: set<BoostId>, timers: map<BoostId, Timer>, launched: multiset<BoostId>)
  {
    && (forall id :: id !in todo ==> SameAt(id, timers, launched, BoostModel.Recover(w)))
    && (forall id :: id in todo ==> SameAt(id, timers, launched, w))
  }

  predicate SameAt(id: BoostId, timers: map<BoostId, Timer>, launched: multiset<BoostId>, w: World) {
    && (id in timers <==> id in w.timers) && launched[id] == w.launched[id]
    && (id in timers ==> timers[id] == w.timers[id])
  }

  lemma NoneRecovered(w: World)
    ensures HalfRecovered(w, w.db.rows.Keys, w.timers, w.launched)
  {
    forall id | id !in w.db.rows.Keys ensures SameAt(id, w.timers, w.launched, BoostModel.Recover(w)) {}
  }

  lemma AllRecovered(w: World, timers: map<BoostId, Timer>, launched: multiset<BoostId>)
    requires HalfRecovered(w, {}, timers, launched)
    ensures w.(timers := timers, launched := launched) == BoostModel.Recover(w)
  {
    AllSame(timers, launched, BoostModel.Recover(w));
  }

  lemma RecoverOne(w: World, todo: set<BoostId>, timers: map<BoostId, Timer>, launched: multiset<BoostId>, id: BoostId)
    requires HalfRecovered(w, todo, timers, launched) && id in todo && id in w.db.rows
    ensures HalfRecovered(w, todo - {id}, TimersAfter(w, id, timers), LaunchedAfter(w, id, launched))
  {
    var timers', launched' := TimersAfter(w, id, timers), LaunchedAfter(w, id, launched);
    forall other | other != id && other !in todo ensures SameAt(other, timers', launched', BoostModel.Recover(w)) {
      assert SameAt(other, timers, launched, BoostModel.Recover(w));
    }
    forall other | other in todo - {id} ensures SameAt(other, timers', launched', w) {
      assert SameAt(other, timers, launched, w);
    }
    RecoveredAt(w, timers, launched, id);
  }

  // The entries for one row, once Recover has looked at it.
  function TimersAfter(w: World, id: BoostId, timers: map<BoostId, Timer>): map<BoostId, Timer>
    requires id in w.db.rows
  {
    var b := w.db.rows[id];
    if b.state == Active && !Due(w, b) then timers[id := Waiting(b.expiresAt)] else timers
  }

  function LaunchedAfter(w: World, id: BoostId, launched: multiset<BoostId>): multiset<BoostId>
    requires id in w.db.rows
  {
    var b := w.db.rows[id];
    if b.state == Active && Due(w, b) then launched + multiset{id} else launched
  }

  lemma RecoveredAt(w: World, timers: map<BoostId, Timer>, launched: multiset<BoostId>, id: BoostId)
    requires id in w.db.rows && SameAt(id, timers, launched, w)
    ensures SameAt(id, TimersAfter(w, id, timers), LaunchedAfter(w, id, launched), BoostModel.Recover(w))
  {}
}
