/** What each operation of the boost service comes to: exactly when it succeeds, and what rows, timers and live
    limits it then leaves. Amounts of time and bounds are written out here. */
module BoostOutcomes {
  import opened Common
  import opened BoostModel
  import opened BoostInvariants
  import opened BoostTheorems
  import opened BoostOverlap

  const RETRY := 1_000_000_000   // the pause before a call that failed for the daemon's own reasons is retried

  // ---- the terms these statements use ----

  // Wrap64 is the 64-bit value congruent to its argument.
  lemma WrapIs(x: int)
    ensures -0x8000_0000_0000_0000 <= Wrap64(x) < 0x8000_0000_0000_0000
    ensures (x - Wrap64(x)) % 0x1_0000_0000_0000_0000 == 0
    ensures -0x8000_0000_0000_0000 <= x < 0x8000_0000_0000_0000 ==> Wrap64(x) == x
  {
    var shifted := x + 0x8000_0000_0000_0000;
    assert x - Wrap64(x) == shifted / 0x1_0000_0000_0000_0000 * 0x1_0000_0000_0000_0000;
  }

  // The bounds of each backend, limit by limit; a limit that is not set is always within them.
  lemma BoundsAre(lim: Limits, c: int, m: int, backend: Backend)
    ensures InBounds(Limits(Some(c), None), Firecracker) <==> 1 <= c <= 32
    ensures InBounds(Limits(None, Some(m)), Firecracker) <==> 128 <= m <= 8192
    ensures InBounds(Limits(Some(c), None), Generic) <==> 1 <= c <= 256
    ensures InBounds(Limits(None, Some(m)), Generic) <==> 16 <= m <= 524288
    ensures InBounds(NO_LIMITS, backend)
    ensures InBounds(lim, backend) <==>
            InBounds(Limits(lim.cpu, None), backend) && InBounds(Limits(None, lim.mem), backend)
  {}

  // A resize of a running sandbox that goes through: it asks for something, within bounds, and both calls work.
  predicate Resizes(sb: Sandbox, lim: Limits, f: ResizeFaults) {
    (lim.cpu.Some? || lim.mem.Some?) && InBounds(lim, sb.backend) && !f.read && !f.apply
  }

  // The machine under new limits; what is not set stays.
  predicate LiveUnder(live: Live, was: Live, lim: Limits) {
    && live.cpu == (match lim.cpu case Some(c) => c case None => was.cpu)
    && live.mem == (match lim.mem case Some(m) => m case None => was.mem)
  }

  predicate SameRow(sb: Sandbox, was: Sandbox) {
    sb.state == was.state && sb.backend == was.backend && sb.limits == was.limits
  }

  // Nothing differs but this sandbox's row and these boosts' rows and timers.
  ghost predicate OnlyAbout(w: World, r: World, sid: SandboxId, ids: set<BoostId>) {
    && r.now == w.now && r.launched == w.launched && r.looked == w.looked && r.sandboxes.Keys == w.sandboxes.Keys
    && (forall other :: other in w.sandboxes && other != sid ==> r.sandboxes[other] == w.sandboxes[other])
    && (forall id :: id !in ids ==> SameEntry(w, r, id))
  }

  predicate SameEntry(w: World, r: World, id: BoostId) {
    && (id in r.db.rows <==> id in w.db.rows) && (id in w.db.rows ==> r.db.rows[id] == w.db.rows[id])
    && (id in r.timers <==> id in w.timers) && (id in w.timers ==> r.timers[id] == w.timers[id])
  }

  // The boost and its timer are gone.
  predicate Gone(r: World, sid: SandboxId, id: BoostId) {
    id !in r.db.rows && r.BoostOf(sid).None? && id !in r.timers
  }

  // The row is kept, and its expiration tried again after the pause.
  predicate RetriedSoon(w: World, r: World, id: BoostId) {
    && id in w.db.rows && id in r.db.rows && r.db.rows[id] == w.db.rows[id]
    && id in r.timers && r.timers[id] == Waiting(w.now + RETRY)
  }

  // ---- Start ----

  /** A Start succeeds exactly when the duration is positive and passes the cap, some limit is asked for and all
      are within the backend's bounds, the sandbox is there and running, and no call it makes fails. */
  lemma StartSucceeds(w: World, sid: SandboxId, lim: Limits, seconds: int, maxDuration: Nanos, f: StartFaults)
    ensures Start(w, sid, lim, seconds, maxDuration, f).ok <==>
            && seconds > 0 && Wrap64(seconds * 1_000_000_000) <= maxDuration
            && !f.read && !f.reread && !f.prior && !f.upsert
            && sid in w.sandboxes && w.sandboxes[sid].state == Running && Resizes(w.sandboxes[sid], lim, f.apply)
  {}

  // The boosts a Start is about: the new one and the one it replaces.
  function Concerned(w: World, sid: SandboxId): set<BoostId> {
    if w.BoostOf(sid).Some? then {w.nextId, w.BoostOf(sid).value.id} else {w.nextId}
  }

  lemma StartEnds(w: World, sid: SandboxId, lim: Limits, seconds: int, maxDuration: Nanos, f: StartFaults)
    requires Start(w, sid, lim, seconds, maxDuration, f).ok
    ensures sid in w.sandboxes
    ensures var b := NewBoost(w, sid, lim, seconds);
      var raised := w.sandboxes[sid].(live := Enforce(w.sandboxes[sid].live, lim));
      var recorded := Silenced(w, w.BoostOf(sid)).Upsert(b);
      Last(Start(w, sid, lim, seconds, maxDuration, f).stages) ==
      recorded.(sandboxes := w.sandboxes[sid := raised]).ArmRemaining(b)
  {}

  /** It leaves a new boost, and in place of any older one: with the limits asked for, the limits to go back to, and
      the expiry the duration sets from now on, for which its timer is armed. The machine has the limits asked
      for; the persisted ones are as before; and nothing else differs. */
  lemma StartOutcome(w: World, sid: SandboxId, lim: Limits, seconds: int, maxDuration: Nanos, f: StartFaults)
    requires Valid(w) && Start(w, sid, lim, seconds, maxDuration, f).ok
    ensures var r := Last(Start(w, sid, lim, seconds, maxDuration, f).stages);
      && r.BoostOf(sid).Some? && sid in w.sandboxes && sid in r.sandboxes
      && var b := r.BoostOf(sid).value;
         var expiry := w.now + Wrap64(seconds * 1_000_000_000);
         && b.id !in w.db.rows && b.id == w.nextId && r.nextId == w.nextId + 1
         && b.sandbox == sid && b.boosted == lim && b.original == w.sandboxes[sid].limits
         && b.state == Active && b.attempts == 0 && b.startedAt == w.now && b.expiresAt == expiry
         && b.id in r.timers && r.timers[b.id] == Waiting(Max(w.now, expiry))
         && SameRow(r.sandboxes[sid], w.sandboxes[sid])
         && LiveUnder(r.sandboxes[sid].live, w.sandboxes[sid].live, lim)
         && (w.BoostOf(sid).Some? ==> w.BoostOf(sid).value.id !in r.db.rows && w.BoostOf(sid).value.id !in r.timers)
    ensures OnlyAbout(w, Last(Start(w, sid, lim, seconds, maxDuration, f).stages), sid, Concerned(w, sid))
  {
    StartEnds(w, sid, lim, seconds, maxDuration, f);
  }

  // A duration that fits 64 bits of nanoseconds is the one asked for, to the nanosecond.
  lemma StartExpiry(w: World, sid: SandboxId, lim: Limits, seconds: int, maxDuration: Nanos, f: StartFaults)
    requires Valid(w) && Start(w, sid, lim, seconds, maxDuration, f).ok
    requires seconds * 1_000_000_000 < 0x8000_0000_0000_0000
    ensures var r := Last(Start(w, sid, lim, seconds, maxDuration, f).stages);
      && r.BoostOf(sid).Some? && r.BoostOf(sid).value.expiresAt == w.now + seconds * 1_000_000_000
      && r.BoostOf(sid).value.id in r.timers
      && r.timers[r.BoostOf(sid).value.id] == Waiting(w.now + seconds * 1_000_000_000)
  {
    StartSucceeds(w, sid, lim, seconds, maxDuration, f);
    StartOutcome(w, sid, lim, seconds, maxDuration, f);
    WrapIs(seconds * 1_000_000_000);
  }

  /** A Start that has written its row, could not raise the limits and cannot undo the write either leaves the new
      row, with an expiration after the pause, and the machine as it was. */
  lemma StuckStart(w: World, sid: SandboxId, lim: Limits, seconds: int, maxDuration: Nanos, f: StartFaults)
    requires Valid(w) && Admits(w, sid, lim, seconds, maxDuration, f) && !f.upsert
    requires (f.apply.read || f.apply.apply) && (if w.BoostOf(sid).Some? then f.restore else f.remove)
    ensures var o := Start(w, sid, lim, seconds, maxDuration, f);
      var r := Last(o.stages);
      && !o.ok && r.sandboxes == w.sandboxes
      && r.BoostOf(sid) == Some(NewBoost(w, sid, lim, seconds)) && w.nextId in r.timers
      && r.timers[w.nextId] == Waiting(w.now + RETRY)
  {}

  // ---- an expiration ----

  lemma LookOutcome(w: World, id: BoostId, fault: bool)
    ensures var o := Look(w, id, fault);
      var r := Last(o.stages);
      && r.db == w.db && r.sandboxes == w.sandboxes && r.launched == w.launched - multiset{id}
      && (o.ok <==> !fault && id in w.db.rows)
      && (o.ok ==> r.looked == w.looked + multiset{id} && r.timers == w.timers)
      && (!o.ok ==> r.looked == w.looked)
      && (fault ==> id in r.timers && r.timers[id] == Waiting(w.now + RETRY))
      && (!fault && id !in w.db.rows ==> id !in r.timers)
      && (forall other :: other != id ==> SameEntry(w, r, other))
  {}

  // An expiration that has come to its turn is under way no longer.
  function Picked(w: World, id: BoostId): World { w.(looked := w.looked - multiset{id}) }

  predicate IsRunning(w: World, sid: SandboxId) { sid in w.sandboxes && w.sandboxes[sid].state == Running }

  /** An expiration whose row is there succeeds, whatever was attempted before, exactly when both reads and the
      delete work and, if the sandbox is running, the resize to its persisted limits goes through. */
  lemma ExpireSucceeds(w: World, id: BoostId, f: ExpireFaults)
    requires Valid(w) && id in w.db.rows
    ensures var sid := w.db.rows[id].sandbox;
      Expire(w, id, f).ok <==>
      && !f.reread && !f.sandbox && !f.remove
      && (IsRunning(w, sid) ==> Resizes(w.sandboxes[sid], w.sandboxes[sid].limits, f.apply))
  {}

  /** It then takes the boost and its timer away and, on a running sandbox, puts every persisted limit in force. */
  lemma ExpireOutcome(w: World, id: BoostId, f: ExpireFaults)
    requires Valid(w) && id in w.db.rows && Expire(w, id, f).ok
    ensures var sid := w.db.rows[id].sandbox;
      var r := Last(Expire(w, id, f).stages);
      && Gone(r, sid, id) && OnlyAbout(Picked(w, id), r, sid, {id})
      && (sid in w.sandboxes ==>
            && SameRow(r.sandboxes[sid], w.sandboxes[sid])
            && if w.sandboxes[sid].state == Running then
                 LiveUnder(r.sandboxes[sid].live, w.sandboxes[sid].live, w.sandboxes[sid].limits)
               else r.sandboxes[sid] == w.sandboxes[sid])
  {
    ExpireSucceeds(w, id, f);
    if IsRunning(w, w.db.rows[id].sandbox) { RevertWorks(w, id, f); }
  }

  // One that cannot read the row or the sandbox tries again after the pause, with the same row.
  lemma ExpireUnread(w: World, id: BoostId, f: ExpireFaults)
    requires Valid(w) && id in w.db.rows && (f.reread || f.sandbox)
    ensures var o := Expire(w, id, f);
      var r := Last(o.stages);
      && !o.ok && RetriedSoon(w, r, id) && r.sandboxes == w.sandboxes
      && OnlyAbout(Picked(w, id), r, w.db.rows[id].sandbox, {id})
  {}

  // So does one that cannot delete the row; on a running sandbox the limits are back in force by then.
  lemma ExpireUndeleted(w: World, id: BoostId, f: ExpireFaults)
    requires Valid(w) && id in w.db.rows && !f.reread && !f.sandbox && f.remove
    requires var sid := w.db.rows[id].sandbox;
      IsRunning(w, sid) ==> Resizes(w.sandboxes[sid], w.sandboxes[sid].limits, f.apply)
    ensures var o := Expire(w, id, f);
      var r := Last(o.stages);
      var sid := w.db.rows[id].sandbox;
      && !o.ok && RetriedSoon(w, r, id) && OnlyAbout(Picked(w, id), r, sid, {id})
      && if IsRunning(w, sid) then
           && SameRow(r.sandboxes[sid], w.sandboxes[sid])
           && LiveUnder(r.sandboxes[sid].live, w.sandboxes[sid].live, w.sandboxes[sid].limits)
         else r.sandboxes == w.sandboxes
  {
    if IsRunning(w, w.db.rows[id].sandbox) { UndeletedRunning(w, id, f); } else { UndeletedIdle(w, id, f); }
  }

  lemma UndeletedIdle(w: World, id: BoostId, f: ExpireFaults)
    requires id in w.db.rows && w.db.rows[id].id == id && !f.reread && !f.sandbox && f.remove
    requires !IsRunning(w, w.db.rows[id].sandbox)
    ensures var o := Expire(w, id, f);
      var r := Last(o.stages);
      && !o.ok && RetriedSoon(w, r, id) && r.sandboxes == w.sandboxes
      && OnlyAbout(Picked(w, id), r, w.db.rows[id].sandbox, {id})
  {}

  lemma UndeletedRunning(w: World, id: BoostId, f: ExpireFaults)
    requires id in w.db.rows && w.db.rows[id].id == id && !f.reread && !f.sandbox && f.remove
    requires var sid := w.db.rows[id].sandbox;
      IsRunning(w, sid) && Resizes(w.sandboxes[sid], w.sandboxes[sid].limits, f.apply)
    ensures var o := Expire(w, id, f);
      var r := Last(o.stages);
      var sid := w.db.rows[id].sandbox;
      && !o.ok && RetriedSoon(w, r, id) && OnlyAbout(Picked(w, id), r, sid, {id})
      && SameRow(r.sandboxes[sid], w.sandboxes[sid])
      && LiveUnder(r.sandboxes[sid].live, w.sandboxes[sid].live, w.sandboxes[sid].limits)
  {
    RevertWorks(w, id, f);
  }

  // A revert the provider accepts comes to the delete of the row, on a machine with its persisted limits.
  lemma RevertWorks(w: World, id: BoostId, f: ExpireFaults)
    requires id in w.db.rows && w.db.rows[id].id == id && !f.reread && !f.sandbox
    requires var sid := w.db.rows[id].sandbox;
      IsRunning(w, sid) && Resizes(w.sandboxes[sid], w.sandboxes[sid].limits, f.apply)
    ensures var sid := w.db.rows[id].sandbox;
      var sb := w.sandboxes[sid].(live := Enforce(w.sandboxes[sid].live, w.sandboxes[sid].limits));
      var quiet := w.(looked := w.looked - multiset{id}).StopTimer(id);
      Last(Expire(w, id, f).stages) == DeleteOrRetry(quiet.(sandboxes := w.sandboxes[sid := sb]), id, f.remove)
  {}

  /** One whose resize is refused leaves the machine alone. It counts the attempt, and waits 1, 5, 30, 120 or 600
      seconds after the first five; the sixth gives up. If the count cannot be written it tries again soon. */
  lemma ExpireCounts(w: World, id: BoostId, f: ExpireFaults)
    requires Valid(w) && id in w.db.rows && !f.reread && !f.sandbox && IsRunning(w, w.db.rows[id].sandbox)
    requires var sb := w.sandboxes[w.db.rows[id].sandbox]; !Resizes(sb, sb.limits, f.apply)
    ensures var n := w.db.rows[id].attempts + 1;
      var r := Last(Expire(w, id, f).stages);
      && r.sandboxes == w.sandboxes && OnlyAbout(Picked(w, id), r, w.db.rows[id].sandbox, {id})
      && if f.update then RetriedSoon(w, r, id)
         else
           && id in r.db.rows
           && r.db.rows[id] == w.db.rows[id].(attempts := n, state := if n >= 6 then RevertFailed else Active)
           && (n <= 5 ==> id in r.timers && r.timers[id] == Waiting(w.now + Delay(n) * 1_000_000_000))
           && (n >= 6 ==> id !in r.timers)
  {
    RevertRefused(w, id, f);
    var quiet := w.(looked := w.looked - multiset{id}).StopTimer(id);
    CountsOn(w, quiet, id, w.db.rows[id].attempts + 1, f.update);
  }

  lemma CountsOn(w: World, quiet: World, id: BoostId, n: nat, fault: bool)
    requires Valid(w) && id in w.db.rows && n == w.db.rows[id].attempts + 1
    requires quiet == w.(looked := w.looked - multiset{id}, timers := w.timers - {id})
    ensures var r := AfterFailedRevert(quiet, id, n, fault);
      && r.sandboxes == w.sandboxes && OnlyAbout(Picked(w, id), r, w.db.rows[id].sandbox, {id})
      && if fault then RetriedSoon(w, r, id)
         else
           && id in r.db.rows
           && r.db.rows[id] == w.db.rows[id].(attempts := n, state := if n >= 6 then RevertFailed else Active)
           && (n <= 5 ==> id in r.timers && r.timers[id] == Waiting(w.now + Delay(n) * 1_000_000_000))
           && (n >= 6 ==> id !in r.timers)
  {}

  lemma RevertRefused(w: World, id: BoostId, f: ExpireFaults)
    requires id in w.db.rows && w.db.rows[id].id == id && !f.reread && !f.sandbox
    requires IsRunning(w, w.db.rows[id].sandbox)
    requires var sb := w.sandboxes[w.db.rows[id].sandbox]; !Resizes(sb, sb.limits, f.apply)
    ensures var quiet := w.(looked := w.looked - multiset{id}).StopTimer(id);
      Last(Expire(w, id, f).stages) == AfterFailedRevert(quiet, id, w.db.rows[id].attempts + 1, f.update)
  {}

  // A row that is gone by the time of the second read takes its timer along.
  lemma ExpireTooLate(w: World, id: BoostId, f: ExpireFaults)
    requires id !in w.db.rows && !f.reread
    ensures var r := Last(Expire(w, id, f).stages);
      r.db == w.db && r.sandboxes == w.sandboxes && r.timers == w.timers - {id}
  {}

  /** After any number of refused expirations of a fresh boost that has not been given up, one the provider accepts
      reverts it. */
  lemma RevertsInTheEnd(w: World, id: BoostId, gaps: seq<nat>, f: ExpireFaults, gap: nat, g: ExpireFaults)
    requires Valid(w) && Refuses(w, id, f) && w.db.rows[id].attempts == 0 && w.db.rows[id].state == Active
    requires |gaps| < 6 && !g.reread && !g.sandbox && !g.remove
    requires var sb := w.sandboxes[w.db.rows[id].sandbox]; Resizes(sb, sb.limits, g.apply)
    ensures var before := Retried(w, id, gaps, f);
      var found := Found(before, id, gap);
      var r := Last(Expire(found, id, g).stages);
      var sid := w.db.rows[id].sandbox;
      && (|gaps| > 0 ==> id in before.timers && before.timers[id].Waiting?)
      && Expire(found, id, g).ok && Gone(r, sid, id) && sid in r.sandboxes
      && LiveUnder(r.sandboxes[sid].live, w.sandboxes[sid].live, w.sandboxes[sid].limits)
  {
    GivesUpAtTheSixth(w, id, gaps, f);
    RetriedValid(w, id, gaps, f);
    var found := Found(Retried(w, id, gaps, f), id, gap);
    ExpireSucceeds(found, id, g);
    ExpireOutcome(found, id, g);
  }

  lemma {:induction false} RetriedValid(w: World, id: BoostId, gaps: seq<nat>, f: ExpireFaults)
    requires Valid(w)
    ensures Valid(Retried(w, id, gaps, f))
  {
    if gaps != [] {
      var before := Retried(w, id, gaps[..|gaps| - 1], f);
      RetriedValid(w, id, gaps[..|gaps| - 1], f);
      var found := Found(before, id, Last(gaps));
      StagesValid(found, OpExpire(id, f));
      assert Last(Run(found, OpExpire(id, f)).stages) in Run(found, OpExpire(id, f)).stages;
    }
  }

  // ---- Cancel ----

  /** A Cancel succeeds exactly when the sandbox has a boost and is there, no read or delete fails, and, if it is
      running, the resize to its persisted limits goes through. */
  lemma CancelSucceeds(w: World, sid: SandboxId, f: CancelFaults)
    ensures Cancel(w, sid, f).ok <==>
            && w.BoostOf(sid).Some? && sid in w.sandboxes && !f.read && !f.sandbox && !f.remove
            && (w.sandboxes[sid].state == Running ==> Resizes(w.sandboxes[sid], w.sandboxes[sid].limits, f.apply))
  {}

  lemma CancelOutcome(w: World, sid: SandboxId, f: CancelFaults)
    requires Valid(w) && Cancel(w, sid, f).ok
    ensures w.BoostOf(sid).Some? && sid in w.sandboxes
    ensures var r := Last(Cancel(w, sid, f).stages);
      var id := w.BoostOf(sid).value.id;
      && Gone(r, sid, id) && OnlyAbout(w, r, sid, {id}) && SameRow(r.sandboxes[sid], w.sandboxes[sid])
      && if w.sandboxes[sid].state == Running then
           LiveUnder(r.sandboxes[sid].live, w.sandboxes[sid].live, w.sandboxes[sid].limits)
         else r.sandboxes[sid] == w.sandboxes[sid]
  {}

  /** What a Cancel that fails on a boost it has found leaves. With the sandbox unreadable, an active boost waits for
      its expiry again. With the sandbox gone, no boost. With the resize refused, the boost given up and no timer.
      Whenever a write of the boost fails, the row as it was and a retry after the pause. */
  ghost predicate FailedCancelLeaves(w: World, r: World, sid: SandboxId, b: Boost, f: CancelFaults) {
    && OnlyAbout(w, r, sid, {b.id})
    && if f.sandbox then
         && r.db == w.db && r.sandboxes == w.sandboxes
         && if b.state == Active then b.id in r.timers && r.timers[b.id] == Waiting(Max(w.now, b.expiresAt))
            else b.id !in r.timers
       else if sid !in w.sandboxes then
         if f.remove then RetriedSoon(w, r, b.id) else Gone(r, sid, b.id)
       else if w.sandboxes[sid].state == Running && !Resizes(w.sandboxes[sid], w.sandboxes[sid].limits, f.apply) then
         && r.sandboxes == w.sandboxes
         && if f.update then RetriedSoon(w, r, b.id)
            else r.BoostOf(sid) == Some(b.(state := RevertFailed, attempts := b.attempts + 1)) && b.id !in r.timers
       else f.remove && RetriedSoon(w, r, b.id)
  }

  lemma CancelFails(w: World, sid: SandboxId, f: CancelFaults)
    requires Valid(w) && !Cancel(w, sid, f).ok
    ensures var r := Last(Cancel(w, sid, f).stages);
      if f.read || w.BoostOf(sid).None? then r == w
      else FailedCancelLeaves(w, r, sid, w.BoostOf(sid).value, f)
  {
    if !f.read && w.BoostOf(sid).Some? {
      if f.sandbox || sid !in w.sandboxes {
        CancelBlind(w, sid, f);
      } else if w.sandboxes[sid].state == Running && !Resizes(w.sandboxes[sid], w.sandboxes[sid].limits, f.apply) {
        CancelRefused(w, sid, f);
      } else {
        CancelUndeleted(w, sid, f);
      }
    }
  }

  lemma CancelBlind(w: World, sid: SandboxId, f: CancelFaults)
    requires Valid(w) && !f.read && w.BoostOf(sid).Some? && (f.sandbox || sid !in w.sandboxes)
    ensures FailedCancelLeaves(w, Last(Cancel(w, sid, f).stages), sid, w.BoostOf(sid).value, f)
  {}

  lemma CancelRefused(w: World, sid: SandboxId, f: CancelFaults)
    requires Valid(w) && !f.read && !f.sandbox && w.BoostOf(sid).Some? && IsRunning(w, sid)
    requires !Resizes(w.sandboxes[sid], w.sandboxes[sid].limits, f.apply)
    ensures FailedCancelLeaves(w, Last(Cancel(w, sid, f).stages), sid, w.BoostOf(sid).value, f)
  {}

  lemma CancelUndeleted(w: World, sid: SandboxId, f: CancelFaults)
    requires Valid(w) && !f.read && !f.sandbox && f.remove && w.BoostOf(sid).Some? && sid in w.sandboxes
    requires IsRunning(w, sid) ==> Resizes(w.sandboxes[sid], w.sandboxes[sid].limits, f.apply)
    ensures FailedCancelLeaves(w, Last(Cancel(w, sid, f).stages), sid, w.BoostOf(sid).value, f)
  {}

  // ---- Stop and Destroy ----

  /** A Stop succeeds exactly on a running sandbox, a Destroy exactly on one not destroyed yet, when the read, the
      write of the new state if there is one, and the creation of the operation work. */
  lemma LifecycleSucceeds(w: World, sid: SandboxId, f: LifecycleFaults)
    ensures Stop(w, sid, f).ok <==> IsRunning(w, sid) && !f.read && !f.update && !f.create
    ensures Destroy(w, sid, f).ok <==>
            && sid in w.sandboxes && w.sandboxes[sid].state != Destroyed && !f.read && !f.create
            && (w.sandboxes[sid].state == Running ==> !f.update)
  {}

  /** It then takes the boost and its timer away if the boost can be looked up and deleted, and leaves both as they
      were if not. A sandbox that was running is stopping; any other keeps its state; limits stay. */
  lemma LifecycleOutcome(w: World, sid: SandboxId, f: LifecycleFaults, destroy: bool)
    requires Valid(w) && (if destroy then Destroy(w, sid, f) else Stop(w, sid, f)).ok
    ensures sid in w.sandboxes
    ensures var r := Last((if destroy then Destroy(w, sid, f) else Stop(w, sid, f)).stages);
      && r.sandboxes == (if !IsRunning(w, sid) then w.sandboxes
                         else w.sandboxes[sid := w.sandboxes[sid].(state := Stopping)])
      && (w.BoostOf(sid).Some? && !f.boost && !f.remove ==>
            var id := w.BoostOf(sid).value.id; Gone(r, sid, id) && OnlyAbout(w, r, sid, {id}))
      && (w.BoostOf(sid).None? || f.boost || f.remove ==>
            r.db == w.db && r.timers == w.timers && OnlyAbout(w, r, sid, {}))
  {}

  // ---- a plain resize ----

  /** A plain resize succeeds exactly when it asks for something within bounds, the sandbox is there and neither
      destroyed nor failed, the read and the write work, and, on a running one, the provider accepts. */
  lemma ResizeSucceeds(w: World, sid: SandboxId, lim: Limits, f: ResizeFaults)
    ensures UpdateResources(w, sid, lim, false, f).ok <==>
            && (lim.cpu.Some? || lim.mem.Some?) && !f.read && !f.persist && sid in w.sandboxes
            && InBounds(lim, w.sandboxes[sid].backend)
            && w.sandboxes[sid].state != Destroyed && w.sandboxes[sid].state != Failed
            && (w.sandboxes[sid].state == Running ==> !f.apply)
  {}

  // It then has the limits it was given persisted and, on a running sandbox, in force.
  lemma ResizeOutcome(w: World, sid: SandboxId, lim: Limits, f: ResizeFaults)
    requires UpdateResources(w, sid, lim, false, f).ok
    ensures sid in w.sandboxes
    ensures var r := Last(UpdateResources(w, sid, lim, false, f).stages);
      var sb, was := if sid in r.sandboxes then r.sandboxes[sid] else w.sandboxes[sid], w.sandboxes[sid];
      && sid in r.sandboxes && r == w.(sandboxes := w.sandboxes[sid := sb])
      && sb.state == was.state && sb.backend == was.backend
      && sb.limits.cpu == (if lim.cpu.Some? then lim.cpu else was.limits.cpu)
      && sb.limits.mem == (if lim.mem.Some? then lim.mem else was.limits.mem)
      && if was.state == Running then LiveUnder(sb.live, was.live, lim) else sb.live == was.live
  {}

  // ---- Recover ----

  /** After a restart a boost has a timer exactly when it is active and not yet due, and then for its own expiry;
      an expiration is started, once, exactly for those active and due; nothing durable differs. */
  lemma RecoverOutcome(w: World, id: BoostId)
    ensures var r := Recover(Halt(w));
      var active := id in w.db.rows && w.db.rows[id].state == Active;
      && (id in r.timers <==> active && w.db.rows[id].expiresAt > w.now)
      && (id in r.timers ==> r.timers[id] == Waiting(w.db.rows[id].expiresAt))
      && r.launched[id] == (if active && w.db.rows[id].expiresAt <= w.now then 1 else 0)
      && r.looked == multiset{}
      && r.db == w.db && r.sandboxes == w.sandboxes && r.now == w.now && r.nextId == w.nextId
  {}

  // The boost stands, with its timer at its expiry.
  predicate Awaits(w: World, sid: SandboxId, b: Boost) {
    && w.BoostOf(sid) == Some(b) && b.sandbox == sid && b.state == Active
    && b.id in w.timers && w.timers[b.id] == Waiting(b.expiresAt)
  }

  // The event is none of this sandbox's operations, nor its deletion.
  predicate Aside(w: World, e: Event, sid: SandboxId) {
    match e
    case Done(op) => Elsewhere(w, op, sid)
    case Crash(op, _) => Elsewhere(w, op, sid)
    case Purge(other) => other != sid
    case _ => true
  }

  lemma StepAwaits(w: World, e: Event, sid: SandboxId, b: Boost)
    requires Valid(w) && Awaits(w, sid, b) && w.now < b.expiresAt && Enabled(w, e) && Aside(w, e, sid)
    ensures Awaits(Step(w, e), sid, b)
  {
    match e
    case Done(op) => DoneAwaits(w, op, sid, b);
    case Crash(op, k) => CrashAwaits(w, op, k, sid, b);
    case Purge(other) => PurgeAwaits(w, other, sid, b);
    case Fire(_) =>
    case Tick(_) =>
    case Leave(_, _) =>
    case Boot(_, _) =>
    case Create(_, _) =>
  }

  lemma DoneAwaits(w: World, op: Op, sid: SandboxId, b: Boost)
    requires Valid(w) && Awaits(w, sid, b) && Elsewhere(w, op, sid)
    ensures Awaits(Last(Run(w, op).stages), sid, b)
  {
    StagesLocal(w, op, sid);
    UntouchedAwaits(w, Last(Run(w, op).stages), sid, b);
  }

  lemma UntouchedAwaits(w: World, w': World, sid: SandboxId, b: Boost)
    requires Awaits(w, sid, b) && Untouched(w, w', sid)
    ensures Awaits(w', sid, b) && w'.now == w.now
  {}

  lemma CrashAwaits(w: World, op: Op, k: nat, sid: SandboxId, b: Boost)
    requires Valid(w) && Awaits(w, sid, b) && w.now < b.expiresAt && Elsewhere(w, op, sid) && k < |Run(w, op).stages|
    ensures Awaits(Recover(Halt(Run(w, op).stages[k])), sid, b)
  {
    StagesLocal(w, op, sid);
    UntouchedAwaits(w, Run(w, op).stages[k], sid, b);
    StagesValid(w, op);
    RecoverAwaits(Run(w, op).stages[k], sid, b);
  }

  lemma RecoverAwaits(w: World, sid: SandboxId, b: Boost)
    requires Valid(w) && Awaits(w, sid, b) && w.now < b.expiresAt
    ensures Awaits(Recover(Halt(w)), sid, b)
  {
    RecoverOutcome(w, b.id);
  }

  lemma PurgeAwaits(w: World, other: SandboxId, sid: SandboxId, b: Boost)
    requires Valid(w) && Awaits(w, sid, b) && other != sid
    ensures Awaits(Step(w, Purge(other)), sid, b)
  {}

  /** From a Start that succeeds on, whatever happens to other sandboxes, and to this one's state, and however often
      the daemon dies in between: until it is due, the boost stands and its timer is where Start put it. */
  lemma {:induction false} DeadlineStands(ws: seq<World>, es: seq<Event>, i: nat, sid: SandboxId, b: Boost)
    requires IsRun(ws, es) && i < |ws| && Valid(ws[0]) && Awaits(ws[0], sid, b)
    requires forall j {:trigger es[j]} :: 0 <= j < i ==> Aside(ws[j], es[j], sid)
    requires forall j :: 0 <= j < i ==> ws[j].now < b.expiresAt
    ensures Valid(ws[i]) && Awaits(ws[i], sid, b)
  {
    if i > 0 {
      DeadlineStands(ws, es, i - 1, sid, b);
      assert Enabled(ws[i - 1], es[i - 1]) && ws[i] == Step(ws[i - 1], es[i - 1]);
      assert Aside(ws[i - 1], es[i - 1], sid) && ws[i - 1].now < b.expiresAt;
      StepValid(ws[i - 1], es[i - 1]);
      StepAwaits(ws[i - 1], es[i - 1], sid, b);
    }
  }

  lemma StartAwaits(w: World, sid: SandboxId, lim: Limits, seconds: int, maxDuration: Nanos, f: StartFaults)
    requires Valid(w) && Start(w, sid, lim, seconds, maxDuration, f).ok
    requires seconds * 1_000_000_000 < 0x8000_0000_0000_0000
    ensures var r := Last(Start(w, sid, lim, seconds, maxDuration, f).stages);
      && Valid(r) && r.BoostOf(sid).Some? && Awaits(r, sid, r.BoostOf(sid).value)
      && r.BoostOf(sid).value.expiresAt == w.now + seconds * 1_000_000_000
  {
    StartOutcome(w, sid, lim, seconds, maxDuration, f);
    StartExpiry(w, sid, lim, seconds, maxDuration, f);
    var op := OpStart(sid, lim, seconds, maxDuration, f);
    StagesValid(w, op);
    assert Last(Run(w, op).stages) in Run(w, op).stages;
  }
}
