/** The refcounted lock a boost operation takes per sandbox, for any number of threads.

    A lock object stands for `*sandboxLock`; its name stays fixed while threads hold on to it. Taking the
    lock is two steps (register under the service mutex, then lock the object), and so is letting go.
  */
module SandboxLocks {
  import opened Common

  type SandboxId = nat
  type LockId = nat
  type Thread = nat

  // A mutex, with the thread that has it locked, and its count of holders and waiters.
  datatype Lock = Lock(holder: Option<Thread>, refs: int)

  // Where a thread is; a thread not listed in `threads` is outside acquireSandbox and its release.
  datatype Place =
    | Waiting(sid: SandboxId, l: LockId)
    | Holding(sid: SandboxId, l: LockId)
    | Leaving(sid: SandboxId, l: LockId)

  datatype State = State(
    locks: map<LockId, Lock>,
    entries: map<SandboxId, LockId>,     // the sbxLocks map
    threads: map<Thread, Place>,
    next: LockId)                        // the next object to be allocated

  datatype Move = Register(t: Thread, sid: SandboxId) | Acquire(t: Thread) | Unlock(t: Thread) | Deregister(t: Thread)

  predicate Enabled(s: State, m: Move) {
    match m
    case Register(t, sid) => t !in s.threads
    case Acquire(t) =>
      && t in s.threads && s.threads[t].Waiting?
      && s.threads[t].l in s.locks && s.locks[s.threads[t].l].holder.None?
    case Unlock(t) => t in s.threads && s.threads[t].Holding? && s.threads[t].l in s.locks
    case Deregister(t) => t in s.threads && s.threads[t].Leaving? && s.threads[t].l in s.locks
  }

  function Next(s: State, m: Move): State
    requires Enabled(s, m)
  {
    match m
    case Register(t, sid) =>
      if sid in s.entries && s.entries[sid] in s.locks then
        var l := s.entries[sid];
        s.(locks := s.locks[l := s.locks[l].(refs := s.locks[l].refs + 1)], threads := s.threads[t := Waiting(sid, l)])
      else
        State(s.locks[s.next := Lock(None, 1)], s.entries[sid := s.next],
              s.threads[t := Waiting(sid, s.next)], s.next + 1)
    case Acquire(t) =>
      var p := s.threads[t];
      s.(locks := s.locks[p.l := s.locks[p.l].(holder := Some(t))], threads := s.threads[t := Holding(p.sid, p.l)])
    case Unlock(t) =>
      var p := s.threads[t];
      s.(locks := s.locks[p.l := s.locks[p.l].(holder := None)], threads := s.threads[t := Leaving(p.sid, p.l)])
    case Deregister(t) =>
      var p := s.threads[t];
      var refs := s.locks[p.l].refs - 1;
      var drop := refs == 0 && p.sid in s.entries && s.entries[p.sid] == p.l;
      s.(locks := s.locks[p.l := s.locks[p.l].(refs := refs)],
         entries := if drop then s.entries - {p.sid} else s.entries,
         threads := s.threads - {t})
  }

  const IDLE := State(map[], map[], map[], 0)

  // The threads between registering for a sandbox and deregistering.
  function Users(s: State, sid: SandboxId): set<Thread> {
    set t | t in s.threads && s.threads[t].sid == sid
  }

  // A thread's pointer is the entry of its sandbox; entries are distinct objects already allocated.
  ghost predicate Pointers(s: State) {
    && (forall t :: t in s.threads ==> s.threads[t].sid in s.entries && s.entries[s.threads[t].sid] == s.threads[t].l)
    && (forall sid :: sid in s.entries ==> s.entries[sid] in s.locks && s.entries[sid] < s.next)
    && (forall a, b :: a in s.entries && b in s.entries && s.entries[a] == s.entries[b] ==> a == b)
  }

  // An entry's count is the number of threads that use it, and there is one.
  ghost predicate Counts(s: State) {
    forall sid :: sid in s.entries && s.entries[sid] in s.locks ==>
      s.locks[s.entries[sid]].refs == |Users(s, sid)| > 0
  }

  // An entry is locked by exactly the thread that holds it.
  ghost predicate Held(s: State) {
    forall sid, t :: sid in s.entries && s.entries[sid] in s.locks ==>
      (s.locks[s.entries[sid]].holder == Some(t) <==> t in s.threads && s.threads[t] == Holding(sid, s.entries[sid]))
  }

  ghost predicate Inv(s: State) { Pointers(s) && Counts(s) && Held(s) }

  // ---- the count ----

  lemma UsersMoved(s: State, s': State, t: Thread)
    requires t in s.threads && t in s'.threads && s.threads[t].sid == s'.threads[t].sid
    requires s'.threads == s.threads[t := s'.threads[t]]
    ensures forall sid :: Users(s', sid) == Users(s, sid)
  {
    forall sid ensures Users(s', sid) == Users(s, sid) {}
  }

  lemma UsersJoined(s: State, s': State, t: Thread)
    requires t !in s.threads && t in s'.threads && s'.threads == s.threads[t := s'.threads[t]]
    ensures |Users(s', s'.threads[t].sid)| == |Users(s, s'.threads[t].sid)| + 1
    ensures forall sid :: sid != s'.threads[t].sid ==> Users(s', sid) == Users(s, sid)
  {
    assert Users(s', s'.threads[t].sid) == Users(s, s'.threads[t].sid) + {t};
  }

  lemma UsersLeft(s: State, s': State, t: Thread)
    requires t in s.threads && s'.threads == s.threads - {t}
    ensures |Users(s', s.threads[t].sid)| == |Users(s, s.threads[t].sid)| - 1
    ensures forall sid :: sid != s.threads[t].sid ==> Users(s', sid) == Users(s, sid)
  {
    assert Users(s, s.threads[t].sid) == Users(s', s.threads[t].sid) + {t};
  }

  lemma NoUsers(s: State, sid: SandboxId)
    requires forall t :: t in s.threads ==> s.threads[t].sid != sid
    ensures |Users(s, sid)| == 0
  {
    assert Users(s, sid) == {};
  }

  // ---- every step keeps the invariant ----

  lemma NextPoints(s: State, m: Move)
    requires Inv(s) && Enabled(s, m)
    ensures Pointers(Next(s, m))
  {
    var s' := Next(s, m);
    forall t | t in s'.threads
      ensures s'.threads[t].sid in s'.entries && s'.entries[s'.threads[t].sid] == s'.threads[t].l
    {
      PointerOf(s, m, t);
    }
    forall sid | sid in s'.entries ensures s'.entries[sid] in s'.locks && s'.entries[sid] < s'.next {
      EntryOf(s, m, sid);
    }
    forall a, b | a in s'.entries && b in s'.entries && s'.entries[a] == s'.entries[b] ensures a == b {
      EntryOf(s, m, a);
      EntryOf(s, m, b);
    }
  }

  // An entry was there before, or is the object just made.
  lemma EntryOf(s: State, m: Move, sid: SandboxId)
    requires Inv(s) && Enabled(s, m) && sid in Next(s, m).entries
    ensures var s' := Next(s, m);
      && s'.entries[sid] in s'.locks && s'.entries[sid] < s'.next
      && (if sid in s.entries then s'.entries[sid] == s.entries[sid] < s.next
          else m.Register? && m.sid == sid && s'.entries[sid] == s.next)
  {}

  lemma PointerOf(s: State, m: Move, t: Thread)
    requires Inv(s) && Enabled(s, m) && t in Next(s, m).threads
    ensures var s' := Next(s, m);
      s'.threads[t].sid in s'.entries && s'.entries[s'.threads[t].sid] == s'.threads[t].l
  {
    if m.Deregister? && s.threads[t].sid == s.threads[m.t].sid { LastUser(s, m.t, t); }
  }

  // A count of one leaves no second user.
  lemma LastUser(s: State, t: Thread, u: Thread)
    requires Inv(s) && t in s.threads && u in s.threads && t != u && s.threads[t].sid == s.threads[u].sid
    ensures s.locks[s.threads[t].l].refs > 1
  {
    var users := Users(s, s.threads[t].sid);
    assert t in users && u in users - {t};
    assert |users| == |users - {t}| + 1;
    assert |users - {t}| > 0;
  }

  lemma NextCounts(s: State, m: Move)
    requires Inv(s) && Enabled(s, m)
    ensures Counts(Next(s, m))
  {
    match m
    case Register(t, sid) => RegisterCounts(s, t, sid);
    case Acquire(t) => UsersMoved(s, Next(s, m), t);
    case Unlock(t) => UsersMoved(s, Next(s, m), t);
    case Deregister(t) => DeregisterCounts(s, t);
  }

  lemma RegisterCounts(s: State, t: Thread, sid: SandboxId)
    requires Inv(s) && Enabled(s, Register(t, sid))
    ensures Counts(Next(s, Register(t, sid)))
  {
    var s' := Next(s, Register(t, sid));
    UsersJoined(s, s', t);
    if sid !in s.entries { NoUsers(s, sid); }
    forall other | other in s'.entries && s'.entries[other] in s'.locks
      ensures s'.locks[s'.entries[other]].refs == |Users(s', other)| > 0
    {
      if other != sid { assert s'.locks[s'.entries[other]] == s.locks[s.entries[other]]; }
    }
  }

  lemma DeregisterCounts(s: State, t: Thread)
    requires Inv(s) && Enabled(s, Deregister(t))
    ensures Counts(Next(s, Deregister(t)))
  {
    var s' := Next(s, Deregister(t));
    UsersLeft(s, s', t);
    forall other | other in s'.entries && s'.entries[other] in s'.locks
      ensures s'.locks[s'.entries[other]].refs == |Users(s', other)| > 0
    {
      if other != s.threads[t].sid { assert s'.locks[s'.entries[other]] == s.locks[s.entries[other]]; }
    }
  }

  lemma NextHeld(s: State, m: Move)
    requires Inv(s) && Enabled(s, m)
    ensures Held(Next(s, m))
  {
    var s' := Next(s, m);
    forall sid, t | sid in s'.entries && s'.entries[sid] in s'.locks
      ensures s'.locks[s'.entries[sid]].holder == Some(t) <==>
              t in s'.threads && s'.threads[t] == Holding(sid, s'.entries[sid])
    {
      HolderOf(s, m, sid, t);
    }
  }

  lemma HolderOf(s: State, m: Move, sid: SandboxId, t: Thread)
    requires Inv(s) && Enabled(s, m) && sid in Next(s, m).entries && Next(s, m).entries[sid] in Next(s, m).locks
    ensures var s' := Next(s, m);
      s'.locks[s'.entries[sid]].holder == Some(t) <==> t in s'.threads && s'.threads[t] == Holding(sid, s'.entries[sid])
  {
    EntryOf(s, m, sid);
    assert sid in s.entries ==>
      (s.locks[s.entries[sid]].holder == Some(t) <==> t in s.threads && s.threads[t] == Holding(sid, s.entries[sid]));
  }

  lemma NextKeeps(s: State, m: Move)
    requires Inv(s) && Enabled(s, m)
    ensures Inv(Next(s, m))
  {
    NextPoints(s, m);
    NextCounts(s, m);
    NextHeld(s, m);
  }

  // ---- whole runs ----

  ghost predicate IsRun(ss: seq<State>, ms: seq<Move>) {
    && |ss| == |ms| + 1 && ss[0] == IDLE
    && forall i {:trigger ms[i]} :: 0 <= i < |ms| ==> Enabled(ss[i], ms[i]) && ss[i + 1] == Next(ss[i], ms[i])
  }

  lemma {:induction false} RunKeeps(ss: seq<State>, ms: seq<Move>, i: nat)
    requires IsRun(ss, ms) && i < |ss|
    ensures Inv(ss[i])
  {
    if i > 0 {
      RunKeeps(ss, ms, i - 1);
      assert Enabled(ss[i - 1], ms[i - 1]) && ss[i] == Next(ss[i - 1], ms[i - 1]);
      NextKeeps(ss[i - 1], ms[i - 1]);
    }
  }

  /** In every state of every run: at most one thread holds a sandbox's lock, all threads that use a sandbox
      have the object that is its entry, no two sandboxes share an object, and the map is empty exactly when
      every thread is outside. */
  lemma LockGuarantees(ss: seq<State>, ms: seq<Move>, i: nat)
    requires IsRun(ss, ms) && i < |ss|
    ensures var s := ss[i];
      && (forall t, u :: t in s.threads && u in s.threads && s.threads[t].sid == s.threads[u].sid ==>
            s.threads[t].Holding? && s.threads[u].Holding? ==> t == u)
      && (forall t :: t in s.threads ==> s.threads[t].sid in s.entries && s.entries[s.threads[t].sid] == s.threads[t].l)
      && (forall t, u :: t in s.threads && u in s.threads ==>
            (s.threads[t].l == s.threads[u].l <==> s.threads[t].sid == s.threads[u].sid))
      && (s.entries == map[] <==> s.threads == map[])
  {
    RunKeeps(ss, ms, i);
    var s := ss[i];
    if s.entries != map[] {
      var sid :| sid in s.entries;
      assert |Users(s, sid)| > 0;
      var t :| t in Users(s, sid);
      assert t in s.threads;
    }
    if s.threads != map[] {
      var t :| t in s.threads;
      assert s.threads[t].sid in s.entries;
    }
  }

  // The comparison with the map entry before it is deleted never fails.
  lemma EntryIsAlwaysOwn(ss: seq<State>, ms: seq<Move>, i: nat, t: Thread)
    requires IsRun(ss, ms) && i < |ss| && Enabled(ss[i], Deregister(t))
    ensures var p := ss[i].threads[t]; p.sid in ss[i].entries && ss[i].entries[p.sid] == p.l
  {
    RunKeeps(ss, ms, i);
  }

  // No deadlock: a waiting thread can go on, or the holder of its lock can.
  lemma WaitersProgress(ss: seq<State>, ms: seq<Move>, i: nat, t: Thread)
    requires IsRun(ss, ms) && i < |ss| && t in ss[i].threads && ss[i].threads[t].Waiting?
    ensures var s := ss[i];
      Enabled(s, Acquire(t)) || exists u :: Enabled(s, Unlock(u)) && s.threads[u].sid == s.threads[t].sid
  {
    RunKeeps(ss, ms, i);
    var s := ss[i];
    var sid := s.threads[t].sid;
    if s.locks[s.entries[sid]].holder.Some? {
      assert Enabled(s, Unlock(s.locks[s.entries[sid]].holder.value));
    }
  }

  // Nobody holds the sandbox's lock.
  predicate Free(s: State, sid: SandboxId) {
    sid in s.entries ==> s.entries[sid] in s.locks && s.locks[s.entries[sid]].holder.None?
  }

  /** A thread that finds the lock free gets it, and after its release the map, and everybody's place, is as it was
      before. */
  lemma ThreadGoesThrough(s: State, t: Thread, sid: SandboxId)
    requires Inv(s) && t !in s.threads && Free(s, sid)
    ensures var s1 := Next(s, Register(t, sid));
      && Enabled(s1, Acquire(t))
      && var s2 := Next(s1, Acquire(t));
         && t in s2.threads && s2.threads[t].Holding? && s2.threads[t].sid == sid && Enabled(s2, Unlock(t))
         && var s3 := Next(s2, Unlock(t));
            && Enabled(s3, Deregister(t))
            && var s4 := Next(s3, Deregister(t));
               s4.entries == s.entries && s4.threads == s.threads && Free(s4, sid)
  {
    var s1 := Next(s, Register(t, sid));
    NextKeeps(s, Register(t, sid));
    var s2 := Next(s1, Acquire(t));
    NextKeeps(s1, Acquire(t));
    var s3 := Next(s2, Unlock(t));
    LeavesAsFound(s, s3, t, sid);
  }

  // The thread that came last leaves.
  lemma LeavesAsFound(s: State, s3: State, t: Thread, sid: SandboxId)
    requires Inv(s) && t !in s.threads && Free(s, sid)
    requires s3 == Next(Next(Next(s, Register(t, sid)), Acquire(t)), Unlock(t))
    ensures Enabled(s3, Deregister(t))
    ensures var s4 := Next(s3, Deregister(t));
      s4.entries == s.entries && s4.threads == s.threads && Free(s4, sid)
  {
    var s4 := Next(s3, Deregister(t));
    assert s4.threads == s.threads;
    if sid in s.entries {
      assert s3.locks[s.entries[sid]].refs == s.locks[s.entries[sid]].refs + 1;
      assert s4.entries == s.entries;
    } else {
      assert s3.locks[s.next].refs == 1 && s3.entries == s.entries[sid := s.next];
      assert s4.entries == s.entries;
    }
  }

  // ---- the lock table itself ----

  class LockTable {
    var locks: map<LockId, Lock>
    var entries: map<SandboxId, LockId>
    var threads: map<Thread, Place>
    var next: LockId

    ghost function Current(): State
      reads this
    {
      State(locks, entries, threads, next)
    }

    constructor ()
      ensures Current() == IDLE
    {
      locks, entries, threads, next := map[], map[], map[], 0;
    }

    // The first critical section of acquireSandbox.
    method RegisterFor(t: Thread, sid: SandboxId)
      requires Inv(Current()) && Enabled(Current(), Register(t, sid))
      modifies this
      ensures Current() == Next(old(Current()), Register(t, sid))
    {
      var l := next;
      if sid in entries {
        l := entries[sid];
      } else {
        locks := locks[l := Lock(None, 0)];
        entries := entries[sid := l];
        next := next + 1;
      }
      locks := locks[l := locks[l].(refs := locks[l].refs + 1)];
      threads := threads[t := Waiting(sid, l)];
      assert locks == Next(old(Current()), Register(t, sid)).locks;
    }

    method LockEntry(t: Thread)
      requires Inv(Current()) && Enabled(Current(), Acquire(t))
      modifies this
      ensures Current() == Next(old(Current()), Acquire(t))
    {
      var p := threads[t];
      locks := locks[p.l := locks[p.l].(holder := Some(t))];
      threads := threads[t := Holding(p.sid, p.l)];
    }

    method UnlockEntry(t: Thread)
      requires Inv(Current()) && Enabled(Current(), Unlock(t))
      modifies this
      ensures Current() == Next(old(Current()), Unlock(t))
    {
      var p := threads[t];
      locks := locks[p.l := locks[p.l].(holder := None)];
      threads := threads[t := Leaving(p.sid, p.l)];
    }

    // The last critical section of the release function.
    method Release(t: Thread)
      requires Inv(Current()) && Enabled(Current(), Deregister(t))
      modifies this
      ensures Current() == Next(old(Current()), Deregister(t))
    {
      var p := threads[t];
      locks := locks[p.l := locks[p.l].(refs := locks[p.l].refs - 1)];
      if locks[p.l].refs == 0 && p.sid in entries && entries[p.sid] == p.l {
        entries := entries - {p.sid};
      }
      threads := threads - {t};
    }
  }
}
