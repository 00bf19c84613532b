/** Runs in which the conditions of BoostTheorems fail: each exception there is one the daemon can meet. */
module BoostRuns {
  import opened Common
  import opened BoostModel
  import opened BoostInvariants
  import opened BoostTheorems

  /** An expiration under way whose boost is cancelled before it goes on, and whose next read fails, arms a
      timer for nothing: before its lookup or after it, in every consistent world with such an expiration. */
  lemma CancelledWhileExpiring(w: World, id: BoostId, cf: CancelFaults, e: Event)
    requires Valid(w) && Owned(w) && id in w.db.rows && Cancel(w, w.db.rows[id].sandbox, cf).ok
    requires
      || (e == Done(OpLook(id, true)) && id in w.launched)
      || (e.Done? && e.op.OpExpire? && e.op.id == id && e.op.ef.reread && id in w.looked)
    ensures var w' := Last(Cancel(w, w.db.rows[id].sandbox, cf).stages);
      Owned(w') && Enabled(w', e) && Strays(w', e) && !Owned(Step(w', e))
  {
    var sid := w.db.rows[id].sandbox;
    var w' := Last(Cancel(w, sid, cf).stages);
    StepValid(w, Done(OpCancel(sid, cf)));
    StepOwned(w, Done(OpCancel(sid, cf)));
    CancelTakesRow(w, id, cf);
    StepOwned(w', e);
  }

  lemma CancelTakesRow(w: World, id: BoostId, cf: CancelFaults)
    requires Valid(w) && id in w.db.rows && Cancel(w, w.db.rows[id].sandbox, cf).ok
    ensures var w' := Last(Cancel(w, w.db.rows[id].sandbox, cf).stages);
      id !in w'.db.rows && w'.launched == w.launched && w'.looked == w.looked
  {}

  // ---- one daemon, from its first start ----

  const SET := Limits(Some(1), Some(512))
  const MORE := Limits(Some(2), None)
  const MACHINE := Sandbox(Stopped, Generic, SET, Live(1, 512))
  const BOOST := Boost(0, 0, SET, MORE, 0, 60 * SECOND, Active, 0)

  const FINE := ResizeFaults(false, false, false, false)
  const BROKEN := ResizeFaults(false, false, true, true)
  const START := OpStart(0, MORE, 60, 3600 * SECOND, StartFaults(false, false, false, false, FINE, false, false))
  const CANCEL := OpCancel(0, CancelFaults(false, false, FINE, false, false))
  const LOOK := OpLook(0, true)
  const EXPIRE := OpExpire(0, ExpireFaults(true, false, FINE, false, false))

  const CREATED := EMPTY.(sandboxes := map[0 := MACHINE])
  const BOOTED := EMPTY.(sandboxes := map[0 := MACHINE.(state := Running)])
  const BOOSTED := World(map[0 := MACHINE.(state := Running, live := Live(2, 512))],
                         Table(map[0 := BOOST], map[0 := 0]),
                         map[0 := Waiting(60 * SECOND)], multiset{}, multiset{}, 0, 1)
  const LATE := BOOSTED.(now := 60 * SECOND)
  const FIRED := LATE.(timers := map[0 := Fired], launched := multiset{0})
  const CANCELLED := FIRED.(sandboxes := BOOTED.sandboxes, db := Table(map[], map[]), timers := map[])
  const STRAY := CANCELLED.(timers := map[0 := Waiting(61 * SECOND)], launched := multiset{})

  lemma Begins()
    ensures Enabled(EMPTY, Create(0, MACHINE)) && Step(EMPTY, Create(0, MACHINE)) == CREATED
    ensures Enabled(CREATED, Boot(0, Live(1, 512))) && Step(CREATED, Boot(0, Live(1, 512))) == BOOTED
  {}

  lemma Boosts()
    ensures Last(Run(BOOTED, START).stages) == BOOSTED
  {
    assert Duration(60) == 60 * SECOND;
    assert NewBoost(BOOTED, 0, MORE, 60) == BOOST;
    var w := Silenced(BOOTED, None).Upsert(BOOST);
    assert w == BOOTED.(nextId := 1, db := Table(map[0 := BOOST], map[0 := 0]));
    assert Apply(w, 0, MORE, FINE).ok;
  }

  lemma RunsOut()
    ensures Enabled(BOOSTED, Tick(60 * SECOND)) && Step(BOOSTED, Tick(60 * SECOND)) == LATE
    ensures Enabled(LATE, Fire(0)) && Step(LATE, Fire(0)) == FIRED
  {}

  lemma Cancels()
    ensures Last(Run(FIRED, CANCEL).stages) == CANCELLED
  {
    var w := FIRED.StopTimer(0);
    assert w == FIRED.(timers := map[]);
    assert Apply(w, 0, SET, FINE).ok;
    assert Last(Apply(w, 0, SET, FINE).stages) == w.(sandboxes := BOOTED.sandboxes);
  }

  lemma Strands()
    ensures Enabled(CANCELLED, Done(LOOK)) && Step(CANCELLED, Done(LOOK)) == STRAY
    ensures Owned(CANCELLED) && Strays(CANCELLED, Done(LOOK)) && !Owned(STRAY)
  {
    assert CANCELLED.launched - multiset{0} == multiset{};
    assert 0 in STRAY.timers && 0 !in STRAY.db.rows;
  }

  function Worlds(): seq<World> { [EMPTY, CREATED, BOOTED, BOOSTED, LATE, FIRED, CANCELLED, STRAY] }

  function Events(): seq<Event> {
    [Create(0, MACHINE), Boot(0, Live(1, 512)), Done(START), Tick(60 * SECOND), Fire(0), Done(CANCEL), Done(LOOK)]
  }

  lemma OneStep(i: nat)
    requires i < 7
    ensures Enabled(Worlds()[i], Events()[i]) && Worlds()[i + 1] == Step(Worlds()[i], Events()[i])
  {
    if i >= 3 {
      LateStep(i);
    } else if i == 0 {
      Begins();
      assert Events()[0] == Create(0, MACHINE) && Worlds()[0] == EMPTY;
    } else if i == 1 {
      Begins();
      assert Events()[1] == Boot(0, Live(1, 512)) && Worlds()[1] == CREATED;
    } else {
      Boosts();
      assert Events()[2] == Done(START) && Worlds()[2] == BOOTED;
    }
  }

  lemma LateStep(i: nat)
    requires 3 <= i < 7
    ensures Enabled(Worlds()[i], Events()[i]) && Worlds()[i + 1] == Step(Worlds()[i], Events()[i])
  {
    if i == 3 {
      RunsOut();
      assert Events()[3] == Tick(60 * SECOND) && Worlds()[3] == BOOSTED;
    } else if i == 4 {
      RunsOut();
      assert Events()[4] == Fire(0) && Worlds()[4] == LATE;
    } else if i == 5 {
      Cancels();
      assert Events()[5] == Done(CANCEL) && Worlds()[5] == FIRED;
    } else {
      Strands();
      assert Events()[6] == Done(LOOK) && Worlds()[6] == CANCELLED;
    }
  }

  /** From the first start of a daemon, the stray timer: a boost runs out, is cancelled before its expiration
      gets to run, and the expiration's lookup fails. */
  lemma StrayHappens()
    ensures IsRun(Worlds(), Events()) && Worlds()[0] == EMPTY
    ensures Owned(Worlds()[6]) && Strays(Worlds()[6], Events()[6]) && !Owned(Worlds()[7])
  {
    forall i {:trigger Events()[i]} | 0 <= i < 7
      ensures Enabled(Worlds()[i], Events()[i]) && Worlds()[i + 1] == Step(Worlds()[i], Events()[i])
    {
      OneStep(i);
    }
    Strands();
  }

  // Or, after its fifth event, the lookup works, the cancel comes while the expiration waits for the lock, and
  // the second read fails.
  lemma StrayWhileWaiting()
    ensures Enabled(FIRED, Done(OpLook(0, false)))
    ensures var waiting := Step(FIRED, Done(OpLook(0, false)));
      var cancelled := Step(waiting, Done(CANCEL));
      Owned(cancelled) && Enabled(cancelled, Done(EXPIRE)) && !Owned(Step(cancelled, Done(EXPIRE)))
  {
    var waiting := Step(FIRED, Done(OpLook(0, false)));
    assert waiting == FIRED.(launched := multiset{}, looked := multiset{0});
    var w := waiting.StopTimer(0);
    assert Apply(w, 0, SET, FINE).ok && Cancel(waiting, 0, CANCEL.cf).ok;
    assert Valid(waiting) && Owned(waiting);
    CancelledWhileExpiring(waiting, 0, CANCEL.cf, Done(EXPIRE));
  }

  // The other way to a stray timer, after the third event of that run.
  lemma PurgeStrays()
    ensures Owned(BOOSTED) && Enabled(BOOSTED, Purge(0)) && !Owned(Step(BOOSTED, Purge(0)))
  {
    assert Valid(BOOSTED) && Owned(BOOSTED);
    StepOwned(BOOSTED, Purge(0));
  }

  // The three ways to a tear, after its first or second event.
  lemma ResizeTears()
    ensures Steady(BOOTED) && Enabled(BOOTED, Done(OpResize(0, MORE, BROKEN)))
    ensures !Steady(Step(BOOTED, Done(OpResize(0, MORE, BROKEN))))
  {
    StepSteady(BOOTED, Done(OpResize(0, MORE, BROKEN)));
  }

  lemma CrashTears()
    ensures Enabled(BOOTED, Crash(OpResize(0, MORE, FINE), 1))
    ensures !Steady(Step(BOOTED, Crash(OpResize(0, MORE, FINE), 1)))
  {
    StepSteady(BOOTED, Crash(OpResize(0, MORE, FINE), 1));
  }

  lemma BootTears()
    ensures Steady(CREATED) && Enabled(CREATED, Boot(0, Live(1, 256)))
    ensures !Steady(Step(CREATED, Boot(0, Live(1, 256))))
  {
    StepSteady(CREATED, Boot(0, Live(1, 256)));
  }
}
