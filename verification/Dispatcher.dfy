/** The operation dispatcher as a step machine: any number of enqueuers, cancellers and workers, one loop, one
    stop. Operation ids are not reused. What a handler does is not modelled, only when it is called and what
    it returns. */
module Dispatcher {
  import opened Common

  type Op = nat

  const QUEUE_CAP := 256

  datatype Status = Pending | Running | Succeeded | Failed | Cancelled

  datatype Loop =
    | Top                    // about to check done
    | Choosing               // in the second select
    | Handing(op: Op)        // took op, waiting for the semaphore
    | Draining
    | Exited

  // Where an accepted operation is, from the gate until its wait-group slot is given back.
  datatype Place =
    | Sending                // past wg.Add, before the select
    | Queued
    | InHand                 // held by the loop, waiting for the semaphore
    | Checking               // in run, with the semaphore; the cancel mark not looked at yet
    | Passed                 // no mark; its cancel function not stored yet
    | Armed                  // cancel function stored
    | Working                // handler called
    | Ending                 // outcome stored; semaphore still held
    | Released               // semaphore given back; wait group not yet
  {
    predicate HasSem() { Checking? || Passed? || Armed? || Working? || Ending? }
    predicate Running() { HasSem() || Released? }
    predicate Early() { Sending? || Queued? || InHand? || Checking? }
  }

  datatype Result = Ok | ContextCanceled | Error

  datatype State = State(
    conc: nat,
    stopped: bool,              // no new operation passes the gate
    done: bool,                 // the done channel is closed
    wg: int,
    sem: int,                   // tokens taken
    queue: seq<Op>,
    loop: Loop,
    place: map<Op, Place>,
    cancels: set<Op>,           // operations whose cancel function is stored
    missed: multiset<Op>,       // cancellers that found no cancel function and have not left their mark yet
    marks: set<Op>,             // operations marked for cancellation before they run
    signalled: set<Op>,         // operations whose context has been cancelled
    status: map<Op, Status>,    // every operation that passed the gate
    calls: map<Op, nat>)        // how often its handler was called

  datatype Move =
    | Gate(op: Op) | Send(op: Op) | Refuse(op: Op)
    | Cancel(op: Op) | Mark(op: Op)
    | StopGate | CloseDone
    | LoopDone | LoopGo | LoopTake | LoopRun | DrainOne | DrainEnd
    | Check(op: Op, handled: bool) | Arm(op: Op) | Call(op: Op) | Return(op: Op, r: Result)
    | ReleaseSem(op: Op) | WgDone(op: Op)

  predicate At(s: State, op: Op, p: Place) { op in s.place && s.place[op] == p }

  predicate Enabled(s: State, m: Move) {
    match m
    case Gate(op) => !s.stopped && op !in s.status
    case Send(op) => At(s, op, Sending) && |s.queue| < QUEUE_CAP
    case Refuse(op) => At(s, op, Sending) && (s.done || |s.queue| >= QUEUE_CAP)
    case Cancel(_) => true
    case Mark(op) => op in s.missed
    case StopGate => !s.stopped
    case CloseDone => s.stopped && !s.done
    case LoopDone => (s.loop.Top? || s.loop.Choosing?) && s.done
    case LoopGo => s.loop.Top? && !s.done
    case LoopTake => s.loop.Choosing? && s.queue != []
    case LoopRun => s.loop.Handing? && s.sem < s.conc
    case DrainOne => s.loop.Draining? && s.queue != []
    case DrainEnd => s.loop.Draining? && s.queue == []
    case Check(op, _) => At(s, op, Checking)
    case Arm(op) => At(s, op, Passed)
    case Call(op) => At(s, op, Armed)
    case Return(op, _) => At(s, op, Working)
    case ReleaseSem(op) => At(s, op, Ending)
    case WgDone(op) => At(s, op, Released)
  }

  function Put(s: State, op: Op, p: Place): State { s.(place := s.place[op := p]) }
  function Drop(s: State, op: Op): State { s.(place := s.place - {op}, wg := s.wg - 1) }

  function Verdict(r: Result): Status {
    match r case Ok => Succeeded case ContextCanceled => Cancelled case Error => Failed
  }

  function Next(s: State, m: Move): State
    requires Enabled(s, m)
  {
    match m
    case Gate(op) =>
      Put(s, op, Sending).(wg := s.wg + 1, status := s.status[op := Status.Pending], calls := s.calls[op := 0])
    case Send(op) => Put(s, op, Queued).(queue := s.queue + [op])
    case Refuse(op) => Drop(s, op)
    case Cancel(op) =>
      if op in s.cancels then s.(cancels := s.cancels - {op}, signalled := s.signalled + {op})
      else s.(missed := s.missed + multiset{op})
    case Mark(op) => s.(missed := s.missed - multiset{op}, marks := s.marks + {op})
    case StopGate => s.(stopped := true)
    case CloseDone => s.(done := true)
    case LoopDone => s.(loop := Draining)
    case LoopGo => s.(loop := Choosing)
    case LoopTake => Put(s, s.queue[0], InHand).(loop := Handing(s.queue[0]), queue := s.queue[1..])
    case LoopRun => Put(s, s.loop.op, Checking).(sem := s.sem + 1, loop := Top)
    case DrainOne => Drop(s, s.queue[0]).(queue := s.queue[1..])
    case DrainEnd => s.(loop := Exited)
    case Check(op, handled) =>
      if op in s.marks then Put(s, op, Ending).(marks := s.marks - {op}, status := s.status[op := Cancelled])
      else if !handled then Put(s, op, Ending).(status := s.status[op := Failed])
      else Put(s, op, Passed)
    case Arm(op) => Put(s, op, Armed).(cancels := s.cancels + {op}, status := s.status[op := Status.Running])
    case Call(op) => Put(s, op, Working).(calls := s.calls[op := (if op in s.calls then s.calls[op] else 0) + 1])
    case Return(op, r) =>
      Put(s, op, Ending).(cancels := s.cancels - {op}, status := s.status[op := Verdict(r)])
    case ReleaseSem(op) => Put(s, op, Released).(sem := s.sem - 1)
    case WgDone(op) => Drop(s, op)
  }

  function Fresh(conc: int): State {
    State(Max(1, conc), false, false, 0, 0, [], Top, map[], {}, multiset{}, {}, {}, map[], map[])
  }

  // ---- accounting ----

  function WithSem(s: State): set<Op> { set op | op in s.place && s.place[op].HasSem() }

  // The queue and the loop's hand are what the places say.
  ghost predicate Placed(s: State) {
    && (forall i, j :: 0 <= i < j < |s.queue| ==> s.queue[i] != s.queue[j])
    && (forall op :: op in s.queue <==> At(s, op, Queued))
    && (forall op :: s.loop == Handing(op) <==> At(s, op, InHand))
    && (forall op :: op in s.place ==> op in s.status)
  }

  ghost predicate Counted(s: State) {
    s.wg == |s.place.Keys| && s.sem == |WithSem(s)| <= s.conc
  }

  // No handler is called twice, and none before its operation gets there.
  ghost predicate CalledOnce(s: State) {
    && s.calls.Keys == s.status.Keys
    && (forall op :: op in s.calls ==> s.calls[op] <= 1)
    && (forall op :: op in s.calls && NotYetCalled(s, op) ==> s.calls[op] == 0)
  }

  ghost predicate Inv(s: State) { Placed(s) && Counted(s) && CalledOnce(s) }

  lemma SemMoves(s: State, s': State, op: Op, p: Place)
    requires s'.place == s.place[op := p]
    ensures |WithSem(s')| == |WithSem(s)| + (if p.HasSem() then 1 else 0)
                             - (if op in s.place && s.place[op].HasSem() then 1 else 0)
  {
    var rest := WithSem(s) - {op};
    forall o ensures o in WithSem(s') <==> o in rest || (o == op && p.HasSem()) {
      assert o != op ==> (o in s'.place <==> o in s.place);
    }
    assert WithSem(s') == if p.HasSem() then rest + {op} else rest;
    assert op in WithSem(s) ==> WithSem(s) == rest + {op};
    assert op !in WithSem(s) ==> WithSem(s) == rest;
  }

  lemma SemStays(s: State, s': State, op: Op)
    requires op in s.place && !s.place[op].HasSem() && s'.place == s.place - {op}
    ensures WithSem(s') == WithSem(s)
  {}

  // The operation a move is about, if it moves one.
  function Subject(s: State, m: Move): Option<Op>
    requires Enabled(s, m)
  {
    match m
    case Gate(op) => Some(op)
    case Send(op) => Some(op)
    case Refuse(op) => Some(op)
    case LoopTake => Some(s.queue[0])
    case LoopRun => Some(s.loop.op)
    case DrainOne => Some(s.queue[0])
    case Check(op, _) => Some(op)
    case Arm(op) => Some(op)
    case Call(op) => Some(op)
    case Return(op, _) => Some(op)
    case ReleaseSem(op) => Some(op)
    case WgDone(op) => Some(op)
    case _ => None
  }

  // The moves of an operation's own goroutine.
  predicate Runs(m: Move) {
    m.Check? || m.Arm? || m.Call? || m.Return? || m.ReleaseSem? || m.WgDone?
  }

  // The subject is where the move found it; gone afterwards after three kinds of moves.
  predicate Drops(m: Move) { m.Refuse? || m.DrainOne? || m.WgDone? }

  predicate Located(s: State, m: Move) {
    match m
    case Gate(op) => op !in s.place
    case LoopTake => s.queue != [] && At(s, s.queue[0], Queued)
    case DrainOne => s.queue != [] && At(s, s.queue[0], Queued)
    case LoopRun => s.loop.Handing? && At(s, s.loop.op, InHand)
    case _ => true
  }

  lemma SubjectLocated(s: State, m: Move)
    requires Placed(s) && Enabled(s, m)
    ensures Located(s, m)
  {
    if m.LoopTake? || m.DrainOne? { assert s.queue[0] in s.queue; }
  }

  lemma CountedPut(s: State, s': State, op: Op, p: Place)
    requires Counted(s) && s'.place == s.place[op := p] && s'.conc == s.conc
    requires s'.wg == s.wg + if op in s.place then 0 else 1
    requires s'.sem == s.sem + (if p.HasSem() then 1 else 0) - (if op in s.place && s.place[op].HasSem() then 1 else 0)
    requires s'.sem <= s'.conc
    ensures Counted(s')
  {
    SemMoves(s, s', op, p);
    KeysPut(s.place, op, p);
  }

  lemma KeysPut(place: map<Op, Place>, op: Op, p: Place)
    ensures |place[op := p].Keys| == |place.Keys| + if op in place then 0 else 1
  {
    if op in place {
      assert place[op := p].Keys == place.Keys;
    } else {
      assert place[op := p].Keys == place.Keys + {op} && op !in place.Keys;
    }
  }

  lemma CountedDrop(s: State, s': State, op: Op)
    requires Counted(s) && op in s.place && !s.place[op].HasSem() && s'.place == s.place - {op}
    requires s'.wg == s.wg - 1 && s'.sem == s.sem && s'.conc == s.conc
    ensures Counted(s')
  {
    SemStays(s, s', op);
    assert s.place.Keys == s'.place.Keys + {op};
  }

  // What a move of op may do to the wait group and the semaphore.
  predicate Tallies(s: State, s': State, op: Op, drops: bool) {
    && s'.conc == s.conc && (s'.sem <= s.sem || s'.sem <= s.conc)
    && if drops then
         op in s.place && !s.place[op].HasSem() && s'.place == s.place - {op} && s'.wg == s.wg - 1 && s'.sem == s.sem
       else
         && op in s'.place && s'.place == s.place[op := s'.place[op]]
         && s'.wg == s.wg + (if op in s.place then 0 else 1)
         && s'.sem == s.sem + (if s'.place[op].HasSem() then 1 else 0)
                      - (if op in s.place && s.place[op].HasSem() then 1 else 0)
  }

  lemma Numbers(s: State, m: Move, op: Op)
    requires Enabled(s, m) && Located(s, m) && Subject(s, m) == Some(op)
    ensures Tallies(s, Next(s, m), op, Drops(m))
  {
    if Runs(m) { RunNumbers(s, m, op); } else { QueueNumbers(s, m, op); }
  }

  lemma RunNumbers(s: State, m: Move, op: Op)
    requires Enabled(s, m) && Runs(m) && m.op == op
    ensures Tallies(s, Next(s, m), op, Drops(m))
  {
    match m
    case Check(_, _) =>
    case Arm(_) =>
    case Call(_) =>
    case Return(_, _) =>
    case ReleaseSem(_) =>
    case WgDone(_) =>
  }

  lemma QueueNumbers(s: State, m: Move, op: Op)
    requires Enabled(s, m) && Located(s, m) && !Runs(m) && Subject(s, m) == Some(op)
    ensures Tallies(s, Next(s, m), op, Drops(m))
  {
    match m
    case Gate(_) =>
    case Send(_) =>
    case Refuse(_) =>
    case LoopTake =>
    case LoopRun =>
    case DrainOne =>
    case _ =>
  }

  lemma NextCounted(s: State, m: Move)
    requires Counted(s) && Enabled(s, m) && Located(s, m)
    ensures Counted(Next(s, m))
  {
    var s' := Next(s, m);
    if Subject(s, m).None? {
      NoNumbers(s, m);
    } else {
      var op := Subject(s, m).value;
      Numbers(s, m, op);
      if Drops(m) { CountedDrop(s, s', op); } else { CountedPut(s, s', op, s'.place[op]); }
    }
  }

  lemma NoNumbers(s: State, m: Move)
    requires Enabled(s, m) && Subject(s, m).None?
    ensures var s' := Next(s, m);
      && s'.place == s.place && s'.wg == s.wg && s'.sem == s.sem && s'.conc == s.conc
      && s'.calls == s.calls && s'.status == s.status
    ensures WithSem(Next(s, m)) == WithSem(s)
  {
    NoSubject(s, m);
    SamePlaces(s, Next(s, m));
  }

  lemma NoSubject(s: State, m: Move)
    requires Enabled(s, m) && Subject(s, m).None?
    ensures var s' := Next(s, m);
      && s'.place == s.place && s'.wg == s.wg && s'.sem == s.sem && s'.conc == s.conc
      && s'.calls == s.calls && s'.status == s.status
  {
    match m
    case Cancel(_) =>
    case Mark(_) =>
    case StopGate =>
    case CloseDone =>
    case LoopDone =>
    case LoopGo =>
    case DrainEnd =>
    case _ =>
  }

  lemma SamePlaces(s: State, s': State)
    requires s'.place == s.place
    ensures WithSem(s') == WithSem(s)
  {}

  lemma Dequeued(q: seq<Op>)
    requires q != [] && forall i, j :: 0 <= i < j < |q| ==> q[i] != q[j]
    ensures forall op :: op in q[1..] <==> op in q && op != q[0]
    ensures forall i, j :: 0 <= i < j < |q[1..]| ==> q[1..][i] != q[1..][j]
  {
    assert q == [q[0]] + q[1..];
  }

  lemma Enqueued(q: seq<Op>, op: Op)
    requires op !in q && forall i, j :: 0 <= i < j < |q| ==> q[i] != q[j]
    ensures forall i, j :: 0 <= i < j < |q + [op]| ==> (q + [op])[i] != (q + [op])[j]
  {
    forall i, j | 0 <= i < j < |q + [op]| ensures (q + [op])[i] != (q + [op])[j] {
      assert q[i] in q;
    }
  }

  // Moves that leave the queue and the loop's hand alone.
  lemma PlacedPut(s: State, s': State, op: Op, p: Place)
    requires Placed(s) && s'.queue == s.queue && (s'.loop == s.loop || !(s.loop.Handing? || s'.loop.Handing?))
    requires op in s.place ==> !s.place[op].Queued? && !s.place[op].InHand?
    requires s'.place == s.place - {op} || (s'.place == s.place[op := p] && !p.Queued? && !p.InHand? && op in s'.status)
    requires s.status.Keys <= s'.status.Keys
    ensures Placed(s')
  {
    forall o ensures (o in s'.queue <==> At(s', o, Queued)) && (s'.loop == Handing(o) <==> At(s', o, InHand)) {
      assert o in s.queue <==> At(s, o, Queued);
      assert s.loop == Handing(o) <==> At(s, o, InHand);
    }
  }

  lemma PlacedQueue(s: State, m: Move)
    requires Placed(s) && Enabled(s, m) && Located(s, m)
    requires m.Send? || m.LoopTake? || m.LoopRun? || m.DrainOne?
    ensures Placed(Next(s, m))
  {
    match m
    case Send(op) => Enqueued(s.queue, op);
    case LoopTake => Dequeued(s.queue);
    case DrainOne => Dequeued(s.queue);
    case LoopRun =>
  }

  lemma PlaceOf(s: State, m: Move, op: Op)
    requires Enabled(s, m) && Located(s, m) && Subject(s, m) == Some(op)
    requires !(m.Send? || m.LoopTake? || m.LoopRun? || m.DrainOne?)
    requires op in s.place ==> op in s.status
    ensures var s' := Next(s, m);
      && s'.queue == s.queue && s'.loop == s.loop
      && (op in s.place ==> !s.place[op].Queued? && !s.place[op].InHand?)
      && s.status.Keys <= s'.status.Keys
      && if Drops(m) then s'.place == s.place - {op}
         else
           && op in s'.place && s'.place == s.place[op := s'.place[op]]
           && !s'.place[op].Queued? && !s'.place[op].InHand? && op in s'.status
  {
    match m
    case Gate(_) =>
    case Refuse(_) =>
    case Cancel(_) =>
    case Mark(_) =>
    case StopGate =>
    case CloseDone =>
    case LoopDone =>
    case LoopGo =>
    case DrainEnd =>
    case Check(_, _) =>
    case Arm(_) =>
    case Call(_) =>
    case Return(_, _) =>
    case ReleaseSem(_) =>
    case WgDone(_) =>
  }

  lemma NextPlaced(s: State, m: Move)
    requires Placed(s) && Enabled(s, m) && Located(s, m)
    ensures Placed(Next(s, m))
  {
    var s' := Next(s, m);
    if m.Send? || m.LoopTake? || m.LoopRun? || m.DrainOne? {
      PlacedQueue(s, m);
    } else if Subject(s, m).Some? {
      var op := Subject(s, m).value;
      PlaceOf(s, m, op);
      PlacedPut(s, s', op, if Drops(m) then Sending else s'.place[op]);
    } else {
      NoNumbers(s, m);
      assert s'.queue == s.queue && (s'.loop == s.loop || (!s'.loop.Handing? && !s.loop.Handing?));
    }
  }

  lemma CalledPut(s: State, s': State, op: Op)
    requires CalledOnce(s) && op in s'.calls && s'.calls.Keys == s'.status.Keys == s.status.Keys + {op}
    requires forall o :: o != op ==> (o in s'.place <==> o in s.place) && (o in s.place ==> s'.place[o] == s.place[o])
    requires forall o :: o in s.calls && o != op ==> s'.calls[o] == s.calls[o]
    requires s'.calls[op] <= 1
    requires NotYetCalled(s', op) ==> s'.calls[op] == 0
    ensures CalledOnce(s')
  {}

  predicate NotYetCalled(s: State, op: Op) {
    op in s.place && (s.place[op].Early() || s.place[op] == Passed || s.place[op] == Armed)
  }

  // How many calls an operation has had after a move about it.
  function CallsAfter(s: State, m: Move, op: Op): nat {
    if m.Gate? then 0
    else (if op in s.calls then s.calls[op] else 0) + if m.Call? then 1 else 0
  }

  lemma CallsMove(s: State, m: Move, op: Op)
    requires Enabled(s, m) && Located(s, m) && Subject(s, m) == Some(op)
    requires op in s.place ==> op in s.calls
    ensures Next(s, m).calls == if m.Gate? || m.Call? then s.calls[op := CallsAfter(s, m, op)] else s.calls
    ensures m.Gate? || op in s.calls
  {
    match m
    case Gate(_) =>
    case Send(_) =>
    case Refuse(_) =>
    case Cancel(_) =>
    case Mark(_) =>
    case StopGate =>
    case CloseDone =>
    case LoopDone =>
    case LoopGo =>
    case LoopTake =>
    case LoopRun =>
    case DrainOne =>
    case DrainEnd =>
    case Check(_, _) =>
    case Arm(_) =>
    case Call(_) =>
    case Return(_, _) =>
    case ReleaseSem(_) =>
    case WgDone(_) =>
  }

  lemma StatusMove(s: State, m: Move, op: Op)
    requires Enabled(s, m) && Located(s, m) && Subject(s, m) == Some(op)
    requires op in s.place ==> op in s.status
    ensures Next(s, m).status.Keys == s.status.Keys + {op}
  {}

  lemma PlaceMove(s: State, m: Move, op: Op)
    requires Enabled(s, m) && Located(s, m) && Subject(s, m) == Some(op)
    ensures NotYetCalled(Next(s, m), op) ==> !m.Call? && (m.Gate? || NotYetCalled(s, op))
    ensures m.Call? ==> At(s, op, Armed)
  {}

  lemma NextCalled(s: State, m: Move)
    requires Placed(s) && CalledOnce(s) && Enabled(s, m) && Located(s, m)
    ensures CalledOnce(Next(s, m))
  {
    if Subject(s, m).None? {
      NoNumbers(s, m);
    } else {
      var op := Subject(s, m).value;
      CallsMove(s, m, op);
      StatusMove(s, m, op);
      PlaceMove(s, m, op);
      Numbers(s, m, op);
      assert Next(s, m).calls.Keys == s.calls.Keys + {op};
      CalledPut(s, Next(s, m), op);
    }
  }

  ghost predicate IsRun(ss: seq<State>, ms: seq<Move>, conc: int) {
    && |ss| == |ms| + 1 && ss[0] == Fresh(conc)
    && forall i {:trigger ms[i]} :: 0 <= i < |ms| ==> Enabled(ss[i], ms[i]) && ss[i + 1] == Next(ss[i], ms[i])
  }

  lemma {:induction false} RunKeeps(ss: seq<State>, ms: seq<Move>, conc: int, i: nat)
    requires IsRun(ss, ms, conc) && i < |ss|
    ensures Inv(ss[i])
  {
    if i == 0 {
      assert WithSem(ss[0]) == {};
    } else {
      RunKeeps(ss, ms, conc, i - 1);
      var s, m := ss[i - 1], ms[i - 1];
      assert Enabled(s, m) && ss[i] == Next(s, m);
      SubjectLocated(s, m);
      NextCounted(s, m);
      NextPlaced(s, m);
      NextCalled(s, m);
    }
  }

  lemma StepAt(ss: seq<State>, ms: seq<Move>, conc: int, j: nat)
    requires IsRun(ss, ms, conc) && j < |ms|
    ensures Enabled(ss[j], ms[j]) && ss[j + 1] == Next(ss[j], ms[j]) && Located(ss[j], ms[j])
  {
    RunKeeps(ss, ms, conc, j);
    SubjectLocated(ss[j], ms[j]);
  }

  // ---- what the accounting says ----

  function SendingOps(s: State): set<Op> { set op | op in s.place && s.place[op].Sending? }
  function InHandOps(s: State): set<Op> { set op | op in s.place && s.place[op].InHand? }
  function RunningOps(s: State): set<Op> { set op | op in s.place && s.place[op].Running() }

  function Elements(q: seq<Op>): set<Op> { set op | op in q }

  lemma {:induction false} DistinctLength(q: seq<Op>)
    requires forall i, j :: 0 <= i < j < |q| ==> q[i] != q[j]
    ensures |Elements(q)| == |q|
  {
    if q == [] {
      assert Elements(q) == {};
    } else {
      var last, rest := q[|q| - 1], q[..|q| - 1];
      DistinctLength(rest);
      assert q == rest + [last] && last !in rest;
      assert Elements(q) == Elements(rest) + {last};
    }
  }

  lemma FourParts(all: set<Op>, a: set<Op>, b: set<Op>, c: set<Op>, d: set<Op>)
    requires all == a + b + c + d && a !! b && a + b !! c && a + b + c !! d
    ensures |all| == |a| + |b| + |c| + |d|
  {}

  /** In every state of every run: the wait group counts exactly the enqueuers past the gate, the queue, the
      operation in the loop's hand and the runs that have not ended; no more runs than the concurrency hold
      the semaphore; and no handler was called twice. */
  lemma Accounting(ss: seq<State>, ms: seq<Move>, conc: int, i: nat)
    requires IsRun(ss, ms, conc) && i < |ss|
    ensures var s := ss[i];
      && s.wg == |SendingOps(s)| + |s.queue| + |InHandOps(s)| + |RunningOps(s)|
      && |InHandOps(s)| == (if s.loop.Handing? then 1 else 0)
      && s.sem == |WithSem(s)| <= Max(1, conc)
      && forall op :: op in s.calls ==> s.calls[op] <= 1
  {
    RunKeeps(ss, ms, conc, i);
    ConcFixed(ss, ms, conc, i);
    Partition(ss[i]);
  }

  lemma Partition(s: State)
    requires Placed(s)
    ensures |s.place.Keys| == |SendingOps(s)| + |s.queue| + |InHandOps(s)| + |RunningOps(s)|
    ensures |InHandOps(s)| == if s.loop.Handing? then 1 else 0
  {
    DistinctLength(s.queue);
    PartsOf(s);
    FourParts(s.place.Keys, SendingOps(s), Elements(s.queue), InHandOps(s), RunningOps(s));
    forall op ensures op in InHandOps(s) <==> s.loop == Handing(op) {
      assert op in InHandOps(s) <==> At(s, op, InHand);
    }
    assert InHandOps(s) == if s.loop.Handing? then {s.loop.op} else {};
  }

  lemma PartsOf(s: State)
    requires Placed(s)
    ensures s.place.Keys == SendingOps(s) + Elements(s.queue) + InHandOps(s) + RunningOps(s)
    ensures SendingOps(s) !! Elements(s.queue) && SendingOps(s) + Elements(s.queue) !! InHandOps(s)
    ensures SendingOps(s) + Elements(s.queue) + InHandOps(s) !! RunningOps(s)
  {
    assert forall op :: op in s.queue <==> At(s, op, Queued);
  }

  lemma {:induction false} ConcFixed(ss: seq<State>, ms: seq<Move>, conc: int, i: nat)
    requires IsRun(ss, ms, conc) && i < |ss|
    ensures ss[i].conc == Max(1, conc)
  {
    if i > 0 {
      ConcFixed(ss, ms, conc, i - 1);
      assert Enabled(ss[i - 1], ms[i - 1]) && ss[i] == Next(ss[i - 1], ms[i - 1]);
    }
  }

  // ---- cancellation ----

  // One run leaves every other operation alone.
  lemma RunFrame(s: State, m: Move, op: Op)
    requires Runs(m) && Enabled(s, m) && m.op != op
    ensures var s' := Next(s, m);
      && (op in s'.place <==> op in s.place) && (op in s.place ==> s'.place[op] == s.place[op])
      && (op in s'.status <==> op in s.status) && (op in s.status ==> s'.status[op] == s.status[op])
      && (op in s'.calls <==> op in s.calls) && (op in s.calls ==> s'.calls[op] == s.calls[op])
      && (op in s'.cancels <==> op in s.cancels) && (op in s'.marks <==> op in s.marks)
  {
    PlaceFrame(s, m, op);
    StatusFrame(s, m, op);
    CancelsFrame(s, m, op);
  }

  lemma PlaceFrame(s: State, m: Move, op: Op)
    requires Runs(m) && Enabled(s, m) && m.op != op
    ensures var place := Next(s, m).place;
      (op in place <==> op in s.place) && (op in place ==> place[op] == s.place[op])
  {
    if m.WgDone? { assert Next(s, m).place == s.place - {m.op}; }
  }

  lemma StatusFrame(s: State, m: Move, op: Op)
    requires Runs(m) && Enabled(s, m) && m.op != op
    ensures var status := Next(s, m).status;
      (op in status <==> op in s.status) && (op in status ==> status[op] == s.status[op])
    ensures var calls := Next(s, m).calls;
      (op in calls <==> op in s.calls) && (op in calls ==> calls[op] == s.calls[op])
  {}

  lemma CancelsFrame(s: State, m: Move, op: Op)
    requires Runs(m) && Enabled(s, m) && m.op != op
    ensures op in Next(s, m).cancels <==> op in s.cancels
    ensures op in Next(s, m).marks <==> op in s.marks
  {}

  // A stored cancel function belongs to an operation about to run its handler, or running it.
  ghost predicate CancelsCurrent(s: State) {
    forall op :: op in s.cancels ==> At(s, op, Armed) || At(s, op, Working)
  }

  lemma CancelsRun(s: State, m: Move, op: Op)
    requires Runs(m) && Enabled(s, m) && Located(s, m)
    requires op in s.cancels ==> At(s, op, Armed) || At(s, op, Working)
    ensures op in Next(s, m).cancels ==> At(Next(s, m), op, Armed) || At(Next(s, m), op, Working)
  {
    if m.op != op { RunFrame(s, m, op); }
  }

  lemma CancelsRest(s: State, m: Move, op: Op)
    requires !Runs(m) && Enabled(s, m) && Located(s, m)
    requires op in s.cancels ==> At(s, op, Armed) || At(s, op, Working)
    ensures op in Next(s, m).cancels ==> At(Next(s, m), op, Armed) || At(Next(s, m), op, Working)
  {
    match m
    case Gate(_) =>
    case Send(_) =>
    case Refuse(_) =>
    case Cancel(_) =>
    case Mark(_) =>
    case StopGate =>
    case CloseDone =>
    case LoopDone =>
    case LoopGo =>
    case LoopTake =>
    case LoopRun =>
    case DrainOne =>
    case DrainEnd =>
  }

  lemma CancelsMove(s: State, m: Move, op: Op)
    requires Enabled(s, m) && Located(s, m)
    requires op in s.cancels ==> At(s, op, Armed) || At(s, op, Working)
    ensures op in Next(s, m).cancels ==> At(Next(s, m), op, Armed) || At(Next(s, m), op, Working)
  {
    if Runs(m) { CancelsRun(s, m, op); } else { CancelsRest(s, m, op); }
  }

  lemma {:induction false} RunCancels(ss: seq<State>, ms: seq<Move>, conc: int, i: nat)
    requires IsRun(ss, ms, conc) && i < |ss|
    ensures CancelsCurrent(ss[i])
  {
    if i > 0 {
      RunCancels(ss, ms, conc, i - 1);
      RunKeeps(ss, ms, conc, i - 1);
      var s, m := ss[i - 1], ms[i - 1];
      assert Enabled(s, m) && ss[i] == Next(s, m);
      SubjectLocated(s, m);
      forall op | op in ss[i].cancels ensures At(ss[i], op, Armed) || At(ss[i], op, Working) { CancelsMove(s, m, op); }
    }
  }

  /** The handler has not been called and never will be: the mark waits for the check, or the operation has
      ended cancelled, or it was dropped without being run. */
  predicate Doomed(s: State, op: Op) {
    && op in s.status && op in s.calls && s.calls[op] == 0 && op !in s.cancels
    && if op in s.place then
         || (s.place[op].Early() && op in s.marks)
         || ((s.place[op] == Ending || s.place[op] == Released) && s.status[op] == Cancelled)
       else s.status[op] == Cancelled || s.status[op] == Status.Pending
  }

  lemma DoomedRun(s: State, m: Move, op: Op)
    requires Runs(m) && Enabled(s, m) && Located(s, m) && Doomed(s, op)
    requires op in s.place && s.place[op].Early() ==> s.status[op] == Status.Pending
    ensures Doomed(Next(s, m), op)
  {
    if m.op != op {
      RunFrame(s, m, op);
    } else if m.Check? {
      assert op in s.marks;
    } else if m.ReleaseSem? {
      assert At(s, op, Ending);
    } else if m.WgDone? {
      assert At(s, op, Released);
    }
  }

  lemma DoomedRest(s: State, m: Move, op: Op)
    requires !Runs(m) && Enabled(s, m) && Located(s, m) && Doomed(s, op)
    requires op in s.place && s.place[op].Early() ==> s.status[op] == Status.Pending
    ensures Doomed(Next(s, m), op)
  {
    match m
    case Gate(_) =>
    case Send(_) =>
    case Refuse(_) =>
    case Cancel(_) =>
    case Mark(_) =>
    case StopGate =>
    case CloseDone =>
    case LoopDone =>
    case LoopGo =>
    case LoopTake =>
    case LoopRun =>
    case DrainOne =>
    case DrainEnd =>
  }

  lemma DoomedMove(s: State, m: Move, op: Op)
    requires Enabled(s, m) && Located(s, m) && Doomed(s, op)
    requires op in s.place && s.place[op].Early() ==> s.status[op] == Status.Pending
    ensures Doomed(Next(s, m), op)
  {
    if Runs(m) { DoomedRun(s, m, op); } else { DoomedRest(s, m, op); }
  }

  // An operation whose run has not begun is pending.
  ghost predicate EarlyPending(s: State) {
    forall op :: op in s.place && s.place[op].Early() && op in s.status ==> s.status[op] == Status.Pending
  }

  lemma EarlyRun(s: State, m: Move, op: Op)
    requires Runs(m) && Enabled(s, m) && Located(s, m)
    requires op in s.place && s.place[op].Early() && op in s.status ==> s.status[op] == Status.Pending
    requires op in s.place ==> op in s.status
    ensures var s' := Next(s, m);
      op in s'.place && s'.place[op].Early() && op in s'.status ==> s'.status[op] == Status.Pending
  {
    if m.op != op { RunFrame(s, m, op); }
  }

  lemma EarlyRest(s: State, m: Move, op: Op)
    requires !Runs(m) && Enabled(s, m) && Located(s, m)
    requires op in s.place && s.place[op].Early() && op in s.status ==> s.status[op] == Status.Pending
    requires op in s.place ==> op in s.status
    ensures var s' := Next(s, m);
      op in s'.place && s'.place[op].Early() && op in s'.status ==> s'.status[op] == Status.Pending
  {
    match m
    case Gate(_) =>
    case Send(_) =>
    case Refuse(_) =>
    case Cancel(_) =>
    case Mark(_) =>
    case StopGate =>
    case CloseDone =>
    case LoopDone =>
    case LoopGo =>
    case LoopTake =>
    case LoopRun =>
    case DrainOne =>
    case DrainEnd =>
  }

  lemma EarlyMove(s: State, m: Move, op: Op)
    requires Enabled(s, m) && Located(s, m)
    requires op in s.place && s.place[op].Early() && op in s.status ==> s.status[op] == Status.Pending
    requires op in s.place ==> op in s.status
    ensures var s' := Next(s, m);
      op in s'.place && s'.place[op].Early() && op in s'.status ==> s'.status[op] == Status.Pending
  {
    if Runs(m) { EarlyRun(s, m, op); } else { EarlyRest(s, m, op); }
  }

  lemma {:induction false} RunEarly(ss: seq<State>, ms: seq<Move>, conc: int, i: nat)
    requires IsRun(ss, ms, conc) && i < |ss|
    ensures EarlyPending(ss[i])
  {
    if i > 0 {
      RunEarly(ss, ms, conc, i - 1);
      RunKeeps(ss, ms, conc, i - 1);
      var s, m := ss[i - 1], ms[i - 1];
      assert Enabled(s, m) && ss[i] == Next(s, m);
      SubjectLocated(s, m);
      forall op | op in ss[i].place && ss[i].place[op].Early() && op in ss[i].status
        ensures ss[i].status[op] == Status.Pending
      {
        EarlyMove(s, m, op);
      }
    }
  }

  lemma MarkEffect(s: State, op: Op)
    requires Placed(s) && CalledOnce(s) && CancelsCurrent(s) && op in s.missed && op in s.place
    requires s.place[op] != Ending && s.place[op] != Released
    ensures Doomed(Next(s, Mark(op)), op) <==> s.place[op].Early()
  {
    if s.place[op].Early() { assert NotYetCalled(s, op); }
  }

  lemma CancelThenMark(s: State, op: Op)
    requires op !in s.cancels
    ensures var s' := Next(s, Cancel(op));
      Enabled(s', Mark(op)) && Next(s', Mark(op)) == s.(missed := s'.missed - multiset{op}, marks := s.marks + {op})
  {}

  lemma ArmThenCall(s: State, op: Op)
    requires At(s, op, Passed) && op in s.calls && s.calls[op] == 0
    ensures var s' := Next(s, Arm(op));
      && Enabled(s', Call(op))
      && var run := Next(s', Call(op));
         At(run, op, Working) && op in run.calls && run.calls[op] == 1 && run.signalled == s.signalled
  {}

  // A cancel that finds no cancel function, overtaken by the operation it is for.
  function LostCancel(s: State, op: Op): State
    requires op !in s.cancels && At(s, op, Passed)
  {
    CancelThenMark(s, op);
    var s' := Next(Next(s, Cancel(op)), Mark(op));
    Next(Next(s', Arm(op)), Call(op))
  }

  lemma CancelLost(s: State, op: Op)
    requires op !in s.cancels && At(s, op, Passed) && op in s.calls && s.calls[op] == 0
    ensures var run := LostCancel(s, op);
      At(run, op, Working) && op in run.calls && run.calls[op] == 1 && run.signalled == s.signalled
  {
    CancelThenMark(s, op);
    ArmThenCall(Next(Next(s, Cancel(op)), Mark(op)), op);
  }

  lemma PendingAt(ss: seq<State>, ms: seq<Move>, conc: int, i: nat, op: Op)
    requires IsRun(ss, ms, conc) && i < |ss|
    ensures op in ss[i].place && ss[i].place[op].Early() && op in ss[i].status ==> ss[i].status[op] == Status.Pending
  {
    RunEarly(ss, ms, conc, i);
  }

  lemma MarkedAt(ss: seq<State>, ms: seq<Move>, conc: int, i: nat, op: Op)
    requires IsRun(ss, ms, conc) && i < |ms| && ms[i] == Mark(op)
    requires op in ss[i].place && ss[i].place[op].Early()
    ensures Doomed(ss[i + 1], op)
  {
    StepAt(ss, ms, conc, i);
    RunKeeps(ss, ms, conc, i);
    RunCancels(ss, ms, conc, i);
    MarkEffect(ss[i], op);
  }

  /** A cancel mark left before the operation's run has looked for it: the handler is never called, and if the
      operation is run at all it ends cancelled. */
  lemma {:induction false} EarlyCancelHolds(ss: seq<State>, ms: seq<Move>, conc: int, i: nat, j: nat, op: Op)
    requires IsRun(ss, ms, conc) && i < j < |ss| && ms[i] == Mark(op)
    requires op in ss[i].place && ss[i].place[op].Early()
    ensures Doomed(ss[j], op)
    decreases j
  {
    StepAt(ss, ms, conc, j - 1);
    if i + 1 < j {
      EarlyCancelHolds(ss, ms, conc, i, j - 1, op);
      PendingAt(ss, ms, conc, j - 1, op);
      DoomedMove(ss[j - 1], ms[j - 1], op);
    } else {
      MarkedAt(ss, ms, conc, i, op);
    }
  }

  /** What a cancel does to an operation not yet ended. It cancels the handler's context exactly while the cancel
      function is stored; the mark it leaves otherwise keeps the handler from being called exactly when it comes
      before the check; and a cancel that starts between the check and the storing of the cancel function does
      neither: the handler runs with a live context. */
  lemma CancelEffect(ss: seq<State>, ms: seq<Move>, conc: int, i: nat, op: Op)
    requires IsRun(ss, ms, conc) && i < |ss| && op in ss[i].place
    requires ss[i].place[op] != Ending && ss[i].place[op] != Released
    ensures var s, s' := ss[i], Next(ss[i], Cancel(op));
      && (op in s.cancels ==> op in s'.signalled && s'.marks == s.marks && (At(s, op, Armed) || At(s, op, Working)))
      && (op !in s.cancels ==> op in s'.missed && s'.signalled == s.signalled)
    ensures op in ss[i].missed ==> (Doomed(Next(ss[i], Mark(op)), op) <==> ss[i].place[op].Early())
    ensures ss[i].place[op] == Passed ==> op !in ss[i].cancels
    ensures ss[i].place[op] == Passed ==>
              var run := LostCancel(ss[i], op);
              At(run, op, Working) && op in run.calls && run.calls[op] == 1 && run.signalled == ss[i].signalled
  {
    RunKeeps(ss, ms, conc, i);
    RunCancels(ss, ms, conc, i);
    if op in ss[i].missed { MarkEffect(ss[i], op); }
    if ss[i].place[op] == Passed {
      assert NotYetCalled(ss[i], op);
      CancelLost(ss[i], op);
    }
  }

  predicate LateMarked(s: State, op: Op) {
    op in s.marks && op in s.status && !(op in s.place && s.place[op].Early())
  }

  lemma LateMarkMove(s: State, m: Move, op: Op)
    requires Enabled(s, m) && Located(s, m) && LateMarked(s, op)
    ensures LateMarked(Next(s, m), op)
  {
    if !Runs(m) {
      LateMarkRest(s, m, op);
    } else if m.op == op {
      LateMarkRun(s, m, op);
    } else {
      RunFrame(s, m, op);
    }
  }

  lemma LateMarkRun(s: State, m: Move, op: Op)
    requires Enabled(s, m) && Runs(m) && m.op == op && LateMarked(s, op)
    ensures LateMarked(Next(s, m), op)
  {}

  lemma LateMarkRest(s: State, m: Move, op: Op)
    requires Enabled(s, m) && !Runs(m) && Located(s, m) && LateMarked(s, op)
    ensures LateMarked(Next(s, m), op)
  {
    match m
    case Gate(_) =>
    case Send(_) =>
    case _ =>
  }

  // A mark left after the check is never taken away again.
  lemma {:induction false} LateMarkStays(ss: seq<State>, ms: seq<Move>, conc: int, i: nat, j: nat, op: Op)
    requires IsRun(ss, ms, conc) && i <= j < |ss|
    requires LateMarked(ss[i], op)
    ensures LateMarked(ss[j], op)
  {
    if i < j {
      LateMarkStays(ss, ms, conc, i, j - 1, op);
      StepAt(ss, ms, conc, j - 1);
      LateMarkMove(ss[j - 1], ms[j - 1], op);
    }
  }

  // ---- shutdown ----

  /** Once the loop is gone, an operation still in the queue stays there, never runs, and keeps the wait group
      above zero. */
  lemma {:induction false} LateSendIsStuck(ss: seq<State>, ms: seq<Move>, conc: int, i: nat, j: nat, op: Op)
    requires IsRun(ss, ms, conc) && i <= j < |ss|
    requires ss[i].loop.Exited? && op in ss[i].queue
    ensures ss[j].loop.Exited? && op in ss[j].queue && ss[j].wg > 0 && op in ss[j].calls && ss[j].calls[op] == 0
  {
    if i < j {
      LateSendIsStuck(ss, ms, conc, i, j - 1, op);
      StepAt(ss, ms, conc, j - 1);
      StuckMove(ss[j - 1], ms[j - 1], op);
    }
    RunKeeps(ss, ms, conc, j);
    QueuedCounts(ss[j], op);
  }

  lemma StuckMove(s: State, m: Move, op: Op)
    requires Enabled(s, m) && s.loop.Exited? && op in s.queue
    ensures Next(s, m).loop.Exited? && op in Next(s, m).queue
  {}

  lemma QueuedCounts(s: State, op: Op)
    requires Inv(s) && op in s.queue
    ensures s.wg > 0 && op in s.calls && s.calls[op] == 0
  {
    assert At(s, op, Queued);
    assert op in s.place.Keys && NotYetCalled(s, op);
  }

  lemma ShutDownAround(s: State)
    requires !s.stopped && !s.done && s.loop.Top? && s.queue == []
    ensures var s2 := s.(stopped := true);
      var s3 := s2.(done := true);
      var s4 := s3.(loop := Draining);
      && Enabled(s, StopGate) && Next(s, StopGate) == s2 && Enabled(s2, CloseDone) && Next(s2, CloseDone) == s3
      && Enabled(s3, LoopDone) && Next(s3, LoopDone) == s4
      && Enabled(s4, DrainEnd) && Next(s4, DrainEnd) == s4.(loop := Exited)
  {}

  lemma SendAround(s: State, op: Op)
    requires At(s, op, Sending) && s.queue == []
    ensures Enabled(s, Send(op)) && Next(s, Send(op)) == s.(place := s.place[op := Queued], queue := [op])
  {}

  function LateSend(): (ss: seq<State>) {
    var s1 := Next(Fresh(1), Gate(0));
    var s2 := s1.(stopped := true);
    var s3 := s2.(done := true);
    var s4 := s3.(loop := Draining);
    var s5 := s4.(loop := Exited);
    [Fresh(1), s1, s2, s3, s4, s5, s5.(place := s5.place[0 := Queued], queue := [0])]
  }

  // That happens: an enqueuer past the gate sends after the drain.
  lemma LateSendHappens()
    ensures exists ms :: IsRun(LateSend(), ms, 1)
    ensures Last(LateSend()).loop.Exited? && Last(LateSend()).queue == [0]
  {
    var ss := LateSend();
    var ms := [Gate(0), StopGate, CloseDone, LoopDone, DrainEnd, Send(0)];
    ShutDownAround(ss[1]);
    SendAround(ss[5], 0);
    forall i | 0 <= i < |ms| ensures Enabled(ss[i], ms[i]) && ss[i + 1] == Next(ss[i], ms[i]) {
      assert i == 0 || i == 1 || i == 2 || i == 3 || i == 4 || i == 5;
    }
    assert IsRun(ss, ms, 1);
  }

  // It is the only way: with no enqueuer left and the queue empty when the loop is gone, only runs are waited for.
  lemma {:induction false} CleanShutdown(ss: seq<State>, ms: seq<Move>, conc: int, i: nat, j: nat)
    requires IsRun(ss, ms, conc) && i <= j < |ss|
    requires ss[i].stopped && ss[i].loop.Exited? && ss[i].queue == [] && SendingOps(ss[i]) == {}
    ensures ss[j].stopped && ss[j].loop.Exited? && ss[j].queue == [] && SendingOps(ss[j]) == {}
    ensures ss[j].wg == |RunningOps(ss[j])| && RunningOps(ss[j]) <= RunningOps(ss[i])
  {
    Accounting(ss, ms, conc, j);
    if i < j {
      CleanShutdown(ss, ms, conc, i, j - 1);
      StepAt(ss, ms, conc, j - 1);
      ShutDownMove(ss[j - 1], ms[j - 1]);
    }
    InHandOnlyIfHanding(ss, ms, conc, j);
  }

  lemma InHandOnlyIfHanding(ss: seq<State>, ms: seq<Move>, conc: int, i: nat)
    requires IsRun(ss, ms, conc) && i < |ss| && ss[i].loop.Exited?
    ensures InHandOps(ss[i]) == {}
  {
    Accounting(ss, ms, conc, i);
  }

  lemma ShutDownMove(s: State, m: Move)
    requires Enabled(s, m) && Located(s, m)
    requires s.stopped && s.loop.Exited? && s.queue == [] && SendingOps(s) == {}
    ensures var s' := Next(s, m);
      s'.stopped && s'.loop.Exited? && s'.queue == [] && SendingOps(s') == {} && RunningOps(s') <= RunningOps(s)
  {
    var s' := Next(s, m);
    if Subject(s, m).Some? {
      var op := Subject(s, m).value;
      assert At(s, op, Sending) ==> op in SendingOps(s);
      RunsOn(s, m, op);
      forall o | o in s'.place && o != op ensures o in s.place && s'.place[o] == s.place[o] {}
      forall o | o in s.place ensures !s.place[o].Sending? { assert o in SendingOps(s) <==> s.place[o].Sending?; }
    } else {
      NoNumbers(s, m);
    }
  }

  // With the gate shut, the loop gone and the queue empty, only runs move.
  lemma RunsOn(s: State, m: Move, op: Op)
    requires Enabled(s, m) && Subject(s, m) == Some(op)
    requires s.stopped && s.loop.Exited? && s.queue == [] && !At(s, op, Sending)
    ensures var s' := Next(s, m);
      && Runs(m) && s'.stopped && s'.loop.Exited? && s'.queue == []
      && op in s.place && s.place[op].Running()
      && if m.WgDone? then s'.place == s.place - {op}
         else op in s'.place && s'.place[op].Running() && s'.place == s.place[op := s'.place[op]]
  {}

  // How far a run is from giving its wait-group slot back.
  function Rank(p: Place): nat {
    match p
    case Checking => 6
    case Passed => 5
    case Armed => 4
    case Working => 3
    case Ending => 2
    case Released => 1
    case _ => 0
  }

  // The move a running operation can make next, when its handler returns.
  function Forward(s: State, op: Op): (m: Move)
    requires op in s.place && s.place[op].Running()
    ensures Runs(m) && m.op == op && Enabled(s, m)
  {
    match s.place[op]
    case Checking => Check(op, true)
    case Passed => Arm(op)
    case Armed => Call(op)
    case Working => Return(op, Ok)
    case Ending => ReleaseSem(op)
    case Released => WgDone(op)
  }

  // Whatever move a run makes, it gets closer, and in the end gives its slot back.
  lemma RunFalls(s: State, m: Move)
    requires Runs(m) && Enabled(s, m)
    ensures var s' := Next(s, m);
      if m.WgDone? then m.op !in s'.place && s'.wg == s.wg - 1
      else m.op in s'.place && s'.place[m.op].Running() && Rank(s'.place[m.op]) < Rank(s.place[m.op]) && s'.wg == s.wg
  {}

  // The gate is shut, the loop gone, and nobody is about to send.
  predicate Quiet(s: State) { s.stopped && s.loop.Exited? && SendingOps(s) == {} }

  lemma Extend(ss: seq<State>, ms: seq<Move>, conc: int, m: Move)
    requires IsRun(ss, ms, conc) && Enabled(Last(ss), m)
    ensures IsRun(ss + [Next(Last(ss), m)], ms + [m], conc)
  {
    var ss', ms' := ss + [Next(Last(ss), m)], ms + [m];
    forall i {:trigger ms'[i]} | 0 <= i < |ms'| ensures Enabled(ss'[i], ms'[i]) && ss'[i + 1] == Next(ss'[i], ms'[i]) {
      if i < |ms| { assert ms'[i] == ms[i] && ss'[i] == ss[i] && ss'[i + 1] == ss[i + 1]; }
    }
  }

  lemma RunsToEnd(ss: seq<State>, ms: seq<Move>, conc: int, op: Op) returns (ss': seq<State>, ms': seq<Move>)
    requires IsRun(ss, ms, conc) && Quiet(Last(ss)) && Last(ss).queue == []
    requires op in Last(ss).place && Last(ss).place[op].Running()
    ensures IsRun(ss', ms', conc) && ss <= ss' && ms <= ms' && Quiet(Last(ss')) && Last(ss').queue == []
    ensures Last(ss').wg == Last(ss).wg - 1
    decreases Rank(Last(ss).place[op])
  {
    var s := Last(ss);
    var m := Forward(s, op);
    Extend(ss, ms, conc, m);
    ShutDownMove(s, m);
    RunFalls(s, m);
    ss', ms' := ss + [Next(s, m)], ms + [m];
    if !m.WgDone? { ss', ms' := RunsToEnd(ss', ms', conc, op); }
  }

  lemma AllRunToEnd(ss: seq<State>, ms: seq<Move>, conc: int) returns (ss': seq<State>, ms': seq<Move>)
    requires IsRun(ss, ms, conc) && Quiet(Last(ss)) && Last(ss).queue == []
    ensures IsRun(ss', ms', conc) && ss <= ss' && ms <= ms' && Last(ss').wg == 0
    decreases Last(ss).wg
  {
    var i := |ss| - 1;
    CleanShutdown(ss, ms, conc, i, i);
    if Last(ss).wg == 0 { return ss, ms; }
    var op :| op in RunningOps(Last(ss));
    ss', ms' := RunsToEnd(ss, ms, conc, op);
    CleanShutdown(ss', ms', conc, |ss'| - 1, |ss'| - 1);
    ss', ms' := AllRunToEnd(ss', ms', conc);
  }

  // A run that goes on from this one to a wait group of zero.
  ghost predicate Completes(ss: seq<State>, ms: seq<Move>, conc: int, ss': seq<State>, ms': seq<Move>) {
    IsRun(ss', ms', conc) && ss <= ss' && ms <= ms' && Last(ss').wg == 0
  }

  /** With the loop gone and no sender left, the wait group can still reach zero if and only if the queue is
      empty. */
  lemma ShutdownExactly(ss: seq<State>, ms: seq<Move>, conc: int)
    requires IsRun(ss, ms, conc) && Quiet(Last(ss))
    ensures (exists ss', ms' :: Completes(ss, ms, conc, ss', ms')) <==> Last(ss).queue == []
  {
    if Last(ss).queue == [] {
      var ss', ms' := AllRunToEnd(ss, ms, conc);
      assert Completes(ss, ms, conc, ss', ms');
    } else {
      var op := Last(ss).queue[0];
      forall ss', ms' ensures !Completes(ss, ms, conc, ss', ms') {
        if Completes(ss, ms, conc, ss', ms') {
          assert ss'[|ss| - 1] == Last(ss);
          LateSendIsStuck(ss', ms', conc, |ss| - 1, |ss'| - 1, op);
        }
      }
    }
  }
}
