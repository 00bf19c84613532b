/** The per-VM lock around vminfo.json and the sentinel a stop raises, for one VM, any number of writers
    and one stop at a time. Lock objects outlive their map entry: a writer that looked one up keeps it.

    A writer looks the entry up and checks the sentinel under the map mutex, locks the object, checks the
    sentinel again, and only then may write vminfo. A stop raises the sentinel under the map mutex, locks
    the object, tears the VM down, writes the final vminfo, deletes the entry and unlocks.
  */
module VmFileLocks {
  import opened Common

  type LockId = nat
  type Thread = nat

  datatype Agent = Writer(t: Thread) | Stopper
  datatype FileLock = FileLock(holder: Option<Agent>, stopped: bool)

  // A writer not listed is outside lockFor and the section it guards.
  datatype Place =
    | Looked(l: LockId)      // passed the first check, without the lock
    | Locked(l: LockId)      // has the lock, second check to come
    | Inside(l: LockId)      // lockFor has returned: may write vminfo

  datatype StopPlace =
    | Away
    | Raised(l: LockId)      // sentinel set, waiting for the lock
    | Tearing(l: LockId)     // has the lock; teardown and final write
    | Committed(l: LockId)   // final write done, entry still there
    | Removed(l: LockId)     // entry deleted, lock not yet released

  datatype State = State(
    locks: map<LockId, FileLock>,
    entry: Option<LockId>,                // this VM's slot in the fileMu map
    writers: map<Thread, Place>,
    stop: StopPlace,
    next: LockId,
    commits: seq<Agent>)                  // who wrote vminfo, in order

  datatype Move =
    | LookUp(t: Thread) | Lock(t: Thread) | Recheck(t: Thread) | Commit(t: Thread) | Leave(t: Thread)
    | Raise | StopLock | StopFail | StopCommit | StopRemove | StopUnlock

  predicate Enabled(s: State, m: Move) {
    match m
    case LookUp(t) => t !in s.writers
    case Lock(t) =>
      && t in s.writers && s.writers[t].Looked?
      && s.writers[t].l in s.locks && s.locks[s.writers[t].l].holder.None?
    case Recheck(t) => t in s.writers && s.writers[t].Locked? && s.writers[t].l in s.locks
    case Commit(t) => t in s.writers && s.writers[t].Inside?
    case Leave(t) => t in s.writers && s.writers[t].Inside? && s.writers[t].l in s.locks
    case Raise => s.stop.Away?
    case StopLock => s.stop.Raised? && s.stop.l in s.locks && s.locks[s.stop.l].holder.None?
    case StopFail => s.stop.Tearing? && s.stop.l in s.locks
    case StopCommit => s.stop.Tearing?
    case StopRemove => s.stop.Committed?
    case StopUnlock => s.stop.Removed? && s.stop.l in s.locks
  }

  // The object the map gives out, allocated if there is none.
  function Slot(s: State): (State, LockId) {
    if s.entry.Some? && s.entry.value in s.locks then (s, s.entry.value)
    else (s.(locks := s.locks[s.next := FileLock(None, false)], entry := Some(s.next), next := s.next + 1), s.next)
  }

  function SetHolder(s: State, l: LockId, holder: Option<Agent>): State
    requires l in s.locks
  {
    s.(locks := s.locks[l := s.locks[l].(holder := holder)])
  }

  function Next(s: State, m: Move): State
    requires Enabled(s, m)
  {
    match m
    case LookUp(t) =>
      var (s', l) := Slot(s);
      if s'.locks[l].stopped then s' else s'.(writers := s'.writers[t := Looked(l)])
    case Lock(t) =>
      var l := s.writers[t].l;
      SetHolder(s, l, Some(Writer(t))).(writers := s.writers[t := Locked(l)])
    case Recheck(t) =>
      var l := s.writers[t].l;
      if s.locks[l].stopped then SetHolder(s, l, None).(writers := s.writers - {t})
      else s.(writers := s.writers[t := Inside(l)])
    case Commit(t) => s.(commits := s.commits + [Writer(t)])
    case Leave(t) => SetHolder(s, s.writers[t].l, None).(writers := s.writers - {t})
    case Raise =>
      var (s', l) := Slot(s);
      s'.(locks := s'.locks[l := s'.locks[l].(stopped := true)], stop := Raised(l))
    case StopLock => SetHolder(s, s.stop.l, Some(Stopper)).(stop := Tearing(s.stop.l))
    case StopFail => SetHolder(s, s.stop.l, None).(stop := Away)
    case StopCommit => s.(commits := s.commits + [Stopper], stop := Committed(s.stop.l))
    case StopRemove => s.(entry := None, stop := Removed(s.stop.l))
    case StopUnlock => SetHolder(s, s.stop.l, None).(stop := Away)
  }

  const INITIAL := State(map[], None, map[], Away, 0, [])

  // The writers that may write vminfo.
  function InsideSet(s: State): set<Thread> {
    set t | t in s.writers && s.writers[t].Inside?
  }

  // The stop is between locking the object and deleting the entry.
  predicate StopInside(s: State) { s.stop.Tearing? || s.stop.Committed? }

  // Objects are allocated; one that lost its entry stays marked.
  ghost predicate Objects(s: State) {
    && (forall l :: l in s.locks ==> l < s.next)
    && (s.entry.Some? ==> s.entry.value in s.locks)
    && (forall l :: l in s.locks && s.entry != Some(l) ==> s.locks[l].stopped)
  }

  // A writer holds the object it locked, and writes only under the current one.
  ghost predicate Writers(s: State) { Holders(s) && Insiders(s) }

  ghost predicate Holders(s: State) {
    && (forall t :: t in s.writers ==> s.writers[t].l in s.locks)
    && (forall t, l :: l in s.locks ==>
          (s.locks[l].holder == Some(Writer(t)) <==>
           t in s.writers && (s.writers[t] == Locked(l) || s.writers[t] == Inside(l))))
  }

  ghost predicate Insiders(s: State) {
    forall t :: t in s.writers && s.writers[t].Inside? ==> s.entry == Some(s.writers[t].l)
  }

  // So does the stop.
  ghost predicate Stops(s: State) {
    && (!s.stop.Away? ==> s.stop.l in s.locks && s.locks[s.stop.l].stopped)
    && (forall l :: l in s.locks ==>
          (s.locks[l].holder == Some(Stopper) <==> !s.stop.Away? && !s.stop.Raised? && s.stop.l == l))
    && (s.stop.Raised? || StopInside(s) ==> s.entry == Some(s.stop.l))
    && (s.stop.Removed? ==> s.entry != Some(s.stop.l))
  }

  ghost predicate Inv(s: State) { Objects(s) && Writers(s) && Stops(s) }

  lemma NextObjects(s: State, m: Move)
    requires Inv(s) && Enabled(s, m)
    ensures Objects(Next(s, m))
  {}

  lemma NextWriters(s: State, m: Move)
    requires Inv(s) && Enabled(s, m)
    ensures Writers(Next(s, m))
  {
    NextHolders(s, m);
    NextInside(s, m);
  }

  lemma NextHolders(s: State, m: Move)
    requires Inv(s) && Enabled(s, m)
    ensures Holders(Next(s, m))
  {
    var s' := Next(s, m);
    forall t | t in s'.writers ensures s'.writers[t].l in s'.locks { PointerOf(s, m, t); }
    forall t, l | l in s'.locks
      ensures s'.locks[l].holder == Some(Writer(t)) <==>
              t in s'.writers && (s'.writers[t] == Locked(l) || s'.writers[t] == Inside(l))
    {
      HolderOf(s, m, t, l);
    }
  }

  lemma PointerOf(s: State, m: Move, t: Thread)
    requires Inv(s) && Enabled(s, m) && t in Next(s, m).writers
    ensures Next(s, m).writers[t].l in Next(s, m).locks
  {}

  lemma HolderOf(s: State, m: Move, t: Thread, l: LockId)
    requires Inv(s) && Enabled(s, m) && l in Next(s, m).locks
    ensures var s' := Next(s, m);
      s'.locks[l].holder == Some(Writer(t)) <==>
      t in s'.writers && (s'.writers[t] == Locked(l) || s'.writers[t] == Inside(l))
  {
    assert l in s.locks ==>
      (s.locks[l].holder == Some(Writer(t)) <==>
       t in s.writers && (s.writers[t] == Locked(l) || s.writers[t] == Inside(l)));
  }

  lemma NextInside(s: State, m: Move)
    requires Inv(s) && Enabled(s, m)
    ensures Insiders(Next(s, m))
  {
    if m.StopRemove? {
      var l := s.stop.l;
      assert s.locks[l].holder == Some(Stopper);
    }
  }

  lemma NextStops(s: State, m: Move)
    requires Inv(s) && Enabled(s, m)
    ensures Stops(Next(s, m))
  {}

  lemma NextKeeps(s: State, m: Move)
    requires Inv(s) && Enabled(s, m)
    ensures Inv(Next(s, m))
  {
    NextObjects(s, m);
    NextWriters(s, m);
    NextStops(s, m);
  }

  ghost predicate IsRun(ss: seq<State>, ms: seq<Move>) {
    && |ss| == |ms| + 1
    && forall i {:trigger ms[i]} :: 0 <= i < |ms| ==> Enabled(ss[i], ms[i]) && ss[i + 1] == Next(ss[i], ms[i])
  }

  lemma {:induction false} RunKeeps(ss: seq<State>, ms: seq<Move>, i: nat)
    requires IsRun(ss, ms) && i < |ss| && Inv(ss[0])
    ensures Inv(ss[i])
  {
    if i > 0 {
      RunKeeps(ss, ms, i - 1);
      assert Enabled(ss[i - 1], ms[i - 1]) && ss[i] == Next(ss[i - 1], ms[i - 1]);
      NextKeeps(ss[i - 1], ms[i - 1]);
    }
  }

  /** Mutual exclusion in every state of every run: at most one writer is inside, and none while the stop is,
      whatever stale objects other writers still wait for. */
  lemma Exclusive(ss: seq<State>, ms: seq<Move>, i: nat)
    requires IsRun(ss, ms) && ss[0] == INITIAL && i < |ss|
    ensures forall t, u :: t in InsideSet(ss[i]) && u in InsideSet(ss[i]) ==> t == u
    ensures StopInside(ss[i]) ==> InsideSet(ss[i]) == {}
  {
    RunKeeps(ss, ms, i);
    var s := ss[i];
    forall t, u | t in InsideSet(s) && u in InsideSet(s) ensures t == u {
      var l := s.entry.value;
      assert s.locks[l].holder == Some(Writer(t)) && s.locks[l].holder == Some(Writer(u));
    }
    if StopInside(s) {
      assert s.locks[s.stop.l].holder == Some(Stopper);
    }
  }

  // ---- between the sentinel and the end of the stop ----

  // Every object the map can hand out is marked.
  predicate Barred(s: State) { s.entry.Some? && s.entry.value in s.locks && s.locks[s.entry.value].stopped }

  lemma BarredStep(s: State, m: Move)
    requires Inv(s) && Barred(s) && Enabled(s, m) && !m.StopRemove?
    ensures Barred(Next(s, m)) && Next(s, m).entry == s.entry
    ensures InsideSet(Next(s, m)) <= InsideSet(s)
    ensures m.LookUp? ==> Next(s, m).writers == s.writers
  {
    if m.Recheck? { assert s.locks[s.writers[m.t].l].stopped; }
  }

  /** From the moment the sentinel is up until the entry is deleted, nobody enters: whoever is inside was
      inside already. That is also so after a stop that failed, for as long as no later stop gets through. */
  lemma {:induction false} NobodyEnters(ss: seq<State>, ms: seq<Move>, i: nat, j: nat)
    requires IsRun(ss, ms) && Inv(ss[0]) && i <= j < |ss| && Barred(ss[i])
    requires forall k :: i <= k < j ==> !ms[k].StopRemove?
    ensures Barred(ss[j]) && InsideSet(ss[j]) <= InsideSet(ss[i])
  {
    if i < j {
      NobodyEnters(ss, ms, i, j - 1);
      RunKeeps(ss, ms, j - 1);
      assert Enabled(ss[j - 1], ms[j - 1]) && ss[j] == Next(ss[j - 1], ms[j - 1]);
      BarredStep(ss[j - 1], ms[j - 1]);
    }
  }

  /** A write between the sentinel and the stop's final write comes from the one writer that was inside when
      the sentinel went up, and only before the stop has the lock. */
  lemma WritesDuringStop(ss: seq<State>, ms: seq<Move>, i: nat, j: nat, t: Thread)
    requires IsRun(ss, ms) && ss[0] == INITIAL && i < j < |ms| && ms[i] == Raise && ms[j] == Commit(t)
    requires forall k :: i < k < j ==> !ms[k].StopRemove? && !ms[k].StopFail?
    ensures t in InsideSet(ss[i]) && ss[j].stop.Raised?
  {
    assert Enabled(ss[i], ms[i]) && ss[i + 1] == Next(ss[i], ms[i]);
    assert Enabled(ss[j], ms[j]);
    RunKeeps(ss, ms, i);
    assert InsideSet(ss[i + 1]) == InsideSet(ss[i]);
    NobodyEnters(ss, ms, i + 1, j);
    StopStaysUp(ss, ms, i, j);
    Exclusive(ss, ms, j);
    assert t in InsideSet(ss[j]);
  }

  lemma {:induction false} StopStaysUp(ss: seq<State>, ms: seq<Move>, i: nat, j: nat)
    requires IsRun(ss, ms) && i < j < |ss| && ms[i] == Raise
    requires forall k :: i < k < j ==> !ms[k].StopRemove? && !ms[k].StopFail?
    ensures ss[j].stop.Raised? || StopInside(ss[j])
  {
    assert Enabled(ss[j - 1], ms[j - 1]) && ss[j] == Next(ss[j - 1], ms[j - 1]);
    if i + 1 < j { StopStaysUp(ss, ms, i, j - 1); }
  }

  // And every such writer can: right after the sentinel goes up, exactly a writer inside may write.
  lemma InsiderMayWrite(ss: seq<State>, ms: seq<Move>, i: nat, t: Thread)
    requires IsRun(ss, ms) && ss[0] == INITIAL && i < |ms| && ms[i] == Raise
    ensures Enabled(ss[i + 1], Commit(t)) <==> t in InsideSet(ss[i])
  {
    assert Enabled(ss[i], ms[i]) && ss[i + 1] == Next(ss[i], ms[i]);
    RunKeeps(ss, ms, i);
  }

  // That one write does happen: a writer gets in, the sentinel goes up, the writer writes.
  lemma InheritedWrite()
    ensures exists ss, ms :: IsRun(ss, ms) && ss[0] == INITIAL && |ms| == 5 && ms[3] == Raise && ms[4] == Commit(0)
  {
    var s1 := Next(INITIAL, LookUp(0));
    var s2 := Next(s1, Lock(0));
    var s3 := Next(s2, Recheck(0));
    var s4 := Next(s3, Raise);
    var ss := [INITIAL, s1, s2, s3, s4, Next(s4, Commit(0))];
    var ms := [LookUp(0), Lock(0), Recheck(0), Raise, Commit(0)];
    assert IsRun(ss, ms);
  }

  /** A stop whose teardown or final write fails leaves the sentinel up: every later writer fails at its
      lookup until a stop gets through. */
  lemma FailedStopBars(ss: seq<State>, ms: seq<Move>, i: nat, j: nat, t: Thread)
    requires IsRun(ss, ms) && ss[0] == INITIAL && i < j < |ms| && ms[i] == StopFail && ms[j] == LookUp(t)
    requires forall k :: i < k < j ==> !ms[k].StopRemove?
    ensures t !in ss[j + 1].writers && InsideSet(ss[j + 1]) == {}
  {
    assert Enabled(ss[i], ms[i]) && ss[i + 1] == Next(ss[i], ms[i]);
    assert Enabled(ss[j], ms[j]) && ss[j + 1] == Next(ss[j], ms[j]);
    RunKeeps(ss, ms, i);
    RunKeeps(ss, ms, j);
    Exclusive(ss, ms, i);
    assert InsideSet(ss[i + 1]) == InsideSet(ss[i]);
    NobodyEnters(ss, ms, i + 1, j);
    BarredStep(ss[j], ms[j]);
  }

  // After a stop that got through, the next writer gets a fresh object and can go in.
  lemma CleanStopReopens(s: State, t: Thread)
    requires Inv(s) && s.entry.None? && t !in s.writers
    ensures var s1 := Next(s, LookUp(t));
      && Enabled(s1, Lock(t))
      && Enabled(Next(s1, Lock(t)), Recheck(t))
      && t in InsideSet(Next(Next(s1, Lock(t)), Recheck(t)))
  {}

  // ---- what a writer and a stop achieve ----

  // A lookup fails exactly when the entry is marked.
  lemma LookUpExactly(s: State, t: Thread)
    requires Inv(s) && t !in s.writers
    ensures t in Next(s, LookUp(t)).writers <==> !Barred(s)
  {}

  // The check under the lock lets the writer in exactly when its object is not marked, and unlocks it otherwise.
  lemma RecheckExactly(s: State, t: Thread)
    requires Inv(s) && Enabled(s, Recheck(t))
    ensures var l, s' := s.writers[t].l, Next(s, Recheck(t));
      && l in s'.locks
      && if s.locks[l].stopped then t !in s'.writers && s'.locks[l].holder == None
         else t in InsideSet(s') && s'.locks[l].holder == Some(Writer(t))
  {}

  // Nobody has the entry's lock, if there is an entry.
  predicate Free(s: State) { s.entry.Some? ==> s.entry.value in s.locks && s.locks[s.entry.value].holder.None? }

  /** A writer that finds the VM not stopping and its lock free gets in, and once it leaves, its write is made, it is
      outside and the lock is free again. */
  lemma WriterGoesThrough(s: State, t: Thread)
    requires Inv(s) && t !in s.writers && !Barred(s) && Free(s)
    ensures var s1 := Next(s, LookUp(t));
      && Enabled(s1, Lock(t))
      && var s2 := Next(s1, Lock(t));
         && Enabled(s2, Recheck(t))
         && var s3 := Next(s2, Recheck(t));
            && t in InsideSet(s3) && s3.commits == s.commits
            && WriterLeaves(s3, t)
  {
    var s1 := Next(s, LookUp(t));
    var s2 := Next(s1, Lock(t));
    NextKeeps(s, LookUp(t));
    NextKeeps(s1, Lock(t));
    NextKeeps(s2, Recheck(t));
    LeavesFree(Next(s2, Recheck(t)), t);
  }

  predicate WriterLeaves(s: State, t: Thread) {
    && Enabled(s, Commit(t)) && Enabled(Next(s, Commit(t)), Leave(t))
    && var s' := Next(Next(s, Commit(t)), Leave(t));
       t !in s'.writers && s'.commits == s.commits + [Writer(t)] && Free(s')
  }

  lemma LeavesFree(s: State, t: Thread)
    requires Inv(s) && t in InsideSet(s)
    ensures WriterLeaves(s, t)
  {}

  /** A stop that finds the lock free goes through: the final write is made and no entry is left. */
  lemma StopGoesThrough(s: State)
    requires Inv(s) && s.stop.Away? && Free(s)
    ensures var s1 := Next(s, Raise);
      && Barred(s1) && Enabled(s1, StopLock)
      && var s2 := Next(s1, StopLock);
         && Enabled(s2, StopCommit) && Enabled(s2, StopFail)
         && var s3 := Next(s2, StopCommit);
            && Enabled(s3, StopRemove) && Enabled(Next(s3, StopRemove), StopUnlock)
            && var s5 := Next(Next(s3, StopRemove), StopUnlock);
               s5.stop == Away && s5.entry == None && s5.commits == s.commits + [Stopper]
  {}

  // A stop that fails keeps the entry, marked, and frees its lock; a later stop can go on from there.
  lemma FailedStopFrees(s: State)
    requires Inv(s) && Enabled(s, StopFail)
    ensures var s' := Next(s, StopFail);
      s'.stop == Away && s'.entry == s.entry && s'.commits == s.commits && Barred(s') && Free(s')
  {}

  // ---- the provider's side: lockFor and the locking parts of the stop ----

  class FileMu {
    var locks: map<LockId, FileLock>
    var entry: Option<LockId>
    var next: LockId
    ghost var writers: map<Thread, Place>
    ghost var stop: StopPlace
    ghost var commits: seq<Agent>

    ghost function Current(): State
      reads this
    {
      State(locks, entry, writers, stop, next, commits)
    }

    constructor ()
      ensures Current() == INITIAL
    {
      locks, entry, next := map[], None, 0;
      writers, stop, commits := map[], Away, [];
    }

    // The entry, made if missing: what lockFor and the stop both begin with.
    method Ensure() returns (l: LockId)
      requires Inv(Current())
      modifies this`locks, this`entry, this`next
      ensures Slot(old(Current())) == (Current(), l) && l in locks
    {
      if entry.Some? {
        l := entry.value;
      } else {
        l := next;
        locks := locks[l := FileLock(None, false)];
        entry := Some(l);
        next := next + 1;
      }
    }

    // lockFor up to the release of the map mutex: the object to wait for, or none when the VM is stopping.
    method FirstCheck(t: Thread) returns (fl: Option<LockId>)
      requires Inv(Current()) && Enabled(Current(), LookUp(t))
      modifies this
      ensures Current() == Next(old(Current()), LookUp(t))
      ensures fl == (if t in writers then Some(writers[t].l) else None)
    {
      var l := Ensure();
      if locks[l].stopped { return None; }
      writers := writers[t := Looked(l)];
      fl := Some(l);
    }

    // The object's mutex is granted.
    method Grant(t: Thread, l: LockId)
      requires Inv(Current()) && Enabled(Current(), Lock(t)) && l == writers[t].l
      modifies this`locks, this`writers
      ensures Current() == Next(old(Current()), Lock(t))
    {
      locks := locks[l := locks[l].(holder := Some(Writer(t)))];
      writers := writers[t := Locked(l)];
    }

    // lockFor's second check.
    method SecondCheck(t: Thread, l: LockId) returns (ok: bool)
      requires Inv(Current()) && Enabled(Current(), Recheck(t)) && l == writers[t].l
      modifies this`locks, this`writers
      ensures Current() == Next(old(Current()), Recheck(t))
      ensures ok <==> t in InsideSet(Current())
    {
      ok := !locks[l].stopped;
      if ok {
        writers := writers[t := Inside(l)];
      } else {
        locks := locks[l := locks[l].(holder := None)];
        writers := writers - {t};
      }
    }

    method RaiseSentinel() returns (l: LockId)
      requires Inv(Current()) && Enabled(Current(), Raise)
      modifies this
      ensures Current() == Next(old(Current()), Raise)
      ensures stop == Raised(l)
    {
      l := Ensure();
      locks := locks[l := locks[l].(stopped := true)];
      stop := Raised(l);
    }

    method DeleteEntry()
      requires Inv(Current()) && Enabled(Current(), StopRemove)
      modifies this`entry, this`stop
      ensures Current() == Next(old(Current()), StopRemove)
    {
      entry := None;
      stop := Removed(stop.l);
    }
  }
}
