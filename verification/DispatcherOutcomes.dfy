/** How an operation ends, in terms of what was done to it; and in which order operations are taken. */
module DispatcherOutcomes {
  import opened Common
  import opened Dispatcher

  // The three ways an operation's run ends: its handler returns, it has none, or its mark is found first.
  predicate Succeeds(s: State, m: Move, op: Op) { m == Return(op, Ok) }

  predicate Fails(s: State, m: Move, op: Op) {
    m == Return(op, Result.Error) || (m == Check(op, false) && op !in s.marks)
  }

  predicate Cancels(s: State, m: Move, op: Op) {
    m == Return(op, ContextCanceled) || (m.Check? && m.op == op && op in s.marks)
  }

  predicate IsFinal(st: Status) { st == Succeeded || st == Failed || st == Cancelled }

  // The status that goes with where an operation is.
  predicate Fits(s: State, op: Op)
    requires op in s.status
  {
    if op !in s.place then s.status[op] == Status.Pending || IsFinal(s.status[op])
    else if s.place[op] == Armed || s.place[op] == Working then s.status[op] == Status.Running
    else if s.place[op] == Ending || s.place[op] == Released then IsFinal(s.status[op])
    else s.status[op] == Status.Pending
  }

  // Where an operation is after a move that may be about it, for one that is known.
  lemma NextFits(s: State, m: Move, op: Op)
    requires Enabled(s, m) && Located(s, m) && op in s.status && Fits(s, op)
    ensures op in Next(s, m).status && Fits(Next(s, m), op)
  {
    if Runs(m) && m.op != op {
      RunFrame(s, m, op);
    } else if Runs(m) {
      RunFits(s, m, op);
    } else {
      RestFits(s, m, op);
    }
  }

  lemma RunFits(s: State, m: Move, op: Op)
    requires Enabled(s, m) && Runs(m) && m.op == op && op in s.status && Fits(s, op)
    ensures op in Next(s, m).status && Fits(Next(s, m), op)
  {
    match m
    case Check(_, _) =>
    case Arm(_) =>
    case Call(_) =>
    case Return(_, _) =>
    case ReleaseSem(_) =>
    case WgDone(_) =>
  }

  lemma RestFits(s: State, m: Move, op: Op)
    requires Enabled(s, m) && !Runs(m) && Located(s, m) && op in s.status && Fits(s, op)
    ensures op in Next(s, m).status && Fits(Next(s, m), op)
  {
    RestStatus(s, m, op);
    match m
    case Send(_) =>
    case Refuse(_) =>
    case LoopTake =>
    case LoopRun =>
    case DrainOne =>
    case _ =>
  }

  lemma RestStatus(s: State, m: Move, op: Op)
    requires Enabled(s, m) && !Runs(m) && op in s.status
    ensures op in Next(s, m).status && Next(s, m).status[op] == s.status[op]
  {}

  // An operation that has just passed the gate.
  lemma NewFits(s: State, m: Move, op: Op)
    requires Enabled(s, m) && op !in s.status && op in Next(s, m).status && Placed(s)
    ensures m == Gate(op) && Fits(Next(s, m), op) && Next(s, m).status[op] == Status.Pending
  {}

  lemma {:induction false} RunAllFit(ss: seq<State>, ms: seq<Move>, conc: int, j: nat, op: Op)
    requires IsRun(ss, ms, conc) && j < |ss| && op in ss[j].status
    ensures Fits(ss[j], op)
  {
    if j > 0 {
      StepAt(ss, ms, conc, j - 1);
      if op in ss[j - 1].status {
        RunAllFit(ss, ms, conc, j - 1, op);
        NextFits(ss[j - 1], ms[j - 1], op);
      } else {
        RunKeeps(ss, ms, conc, j - 1);
        NewFits(ss[j - 1], ms[j - 1], op);
      }
    }
  }

  /** What a move does to a status: it ends an operation in one of three ways, or starts it, and only one not
      ended yet; otherwise the status stays. */
  lemma NextStatus(s: State, m: Move, op: Op)
    requires Enabled(s, m) && op in s.status && Fits(s, op)
    ensures op in Next(s, m).status
    ensures Next(s, m).status[op] ==
            if Succeeds(s, m, op) then Succeeded
            else if Fails(s, m, op) then Failed
            else if Cancels(s, m, op) then Cancelled
            else if m == Arm(op) then Status.Running
            else s.status[op]
    ensures Succeeds(s, m, op) || Fails(s, m, op) || Cancels(s, m, op) || m == Arm(op) ==> !IsFinal(s.status[op])
  {
    if !Runs(m) {
      RestStatus(s, m, op);
    } else if m.op != op {
      OtherStatus(s, m, op);
    } else {
      RunStatus(s, m, op);
    }
  }

  lemma OtherStatus(s: State, m: Move, op: Op)
    requires Enabled(s, m) && Runs(m) && m.op != op && op in s.status
    ensures op in Next(s, m).status && Next(s, m).status[op] == s.status[op]
    ensures !Succeeds(s, m, op) && !Fails(s, m, op) && !Cancels(s, m, op) && m != Arm(op)
  {
    StatusFrame(s, m, op);
  }

  lemma RunStatus(s: State, m: Move, op: Op)
    requires Enabled(s, m) && Runs(m) && m.op == op && op in s.status && Fits(s, op)
    ensures op in Next(s, m).status
    ensures Next(s, m).status[op] ==
            if Succeeds(s, m, op) then Succeeded
            else if Fails(s, m, op) then Failed
            else if Cancels(s, m, op) then Cancelled
            else if m == Arm(op) then Status.Running
            else s.status[op]
    ensures m.Check? || m.Arm? || m.Return? ==> !IsFinal(s.status[op])
  {
    match m
    case Check(_, _) =>
    case Arm(_) =>
    case Call(_) =>
    case Return(_, _) =>
    case ReleaseSem(_) =>
    case WgDone(_) =>
  }

  // Such a move has happened before state j.
  ghost predicate HasSucceeded(ss: seq<State>, ms: seq<Move>, j: nat, op: Op)
    requires j <= |ms| < |ss|
  {
    exists k :: 0 <= k < j && Succeeds(ss[k], ms[k], op)
  }

  ghost predicate HasFailed(ss: seq<State>, ms: seq<Move>, j: nat, op: Op)
    requires j <= |ms| < |ss|
  {
    exists k :: 0 <= k < j && Fails(ss[k], ms[k], op)
  }

  ghost predicate WasCancelled(ss: seq<State>, ms: seq<Move>, j: nat, op: Op)
    requires j <= |ms| < |ss|
  {
    exists k :: 0 <= k < j && Cancels(ss[k], ms[k], op)
  }

  lemma OneMoreMove(ss: seq<State>, ms: seq<Move>, j: nat, op: Op)
    requires j < |ms| < |ss|
    ensures HasSucceeded(ss, ms, j + 1, op) <==> HasSucceeded(ss, ms, j, op) || Succeeds(ss[j], ms[j], op)
    ensures HasFailed(ss, ms, j + 1, op) <==> HasFailed(ss, ms, j, op) || Fails(ss[j], ms[j], op)
    ensures WasCancelled(ss, ms, j + 1, op) <==> WasCancelled(ss, ms, j, op) || Cancels(ss[j], ms[j], op)
  {}

  /** In every state of every run an operation is Succeeded exactly if its handler has returned without an error,
      Failed exactly if it has returned another error than a cancellation or there was none to call, and
      Cancelled exactly if it has returned a cancellation or the run found the mark. */
  lemma {:induction false} StatusByMoves(ss: seq<State>, ms: seq<Move>, conc: int, j: nat, op: Op)
    requires IsRun(ss, ms, conc) && j < |ss|
    ensures MovesTell(ss, ms, j, op)
  {
    if j > 0 {
      StatusByMoves(ss, ms, conc, j - 1, op);
      StepAt(ss, ms, conc, j - 1);
      OneMoreMove(ss, ms, j - 1, op);
      if op in ss[j - 1].status {
        RunAllFit(ss, ms, conc, j - 1, op);
        NextStatus(ss[j - 1], ms[j - 1], op);
      } else {
        RunKeeps(ss, ms, conc, j - 1);
        StillNew(ss[j - 1], ms[j - 1], op);
      }
    }
  }

  // The status of an operation is what the moves so far say; one not known yet has had none of them.
  ghost predicate MovesTell(ss: seq<State>, ms: seq<Move>, j: nat, op: Op)
    requires j <= |ms| < |ss|
  {
    if op in ss[j].status then
      && (ss[j].status[op] == Succeeded <==> HasSucceeded(ss, ms, j, op))
      && (ss[j].status[op] == Failed <==> HasFailed(ss, ms, j, op))
      && (ss[j].status[op] == Cancelled <==> WasCancelled(ss, ms, j, op))
    else !HasSucceeded(ss, ms, j, op) && !HasFailed(ss, ms, j, op) && !WasCancelled(ss, ms, j, op)
  }

  lemma StillNew(s: State, m: Move, op: Op)
    requires Placed(s) && Enabled(s, m) && op !in s.status
    ensures !Succeeds(s, m, op) && !Fails(s, m, op) && !Cancels(s, m, op)
    ensures op in Next(s, m).status ==> Next(s, m).status[op] == Status.Pending
  {
    NotYetEnds(s, m, op);
    if op in Next(s, m).status { NewFits(s, m, op); }
  }

  lemma NotYetEnds(s: State, m: Move, op: Op)
    requires Placed(s) && Enabled(s, m) && op !in s.status
    ensures !Succeeds(s, m, op) && !Fails(s, m, op) && !Cancels(s, m, op)
  {}

  /** Once an operation has ended its status never changes. */
  lemma {:induction false} FinalStays(ss: seq<State>, ms: seq<Move>, conc: int, i: nat, j: nat, op: Op)
    requires IsRun(ss, ms, conc) && i <= j < |ss| && op in ss[i].status && IsFinal(ss[i].status[op])
    ensures op in ss[j].status && ss[j].status[op] == ss[i].status[op]
  {
    if i < j {
      FinalStays(ss, ms, conc, i, j - 1, op);
      StepAt(ss, ms, conc, j - 1);
      RunAllFit(ss, ms, conc, j - 1, op);
      NextStatus(ss[j - 1], ms[j - 1], op);
    }
  }

  /** An operation leaves the dispatcher only by being refused, by being drained from the head of the queue, or by
      giving its slot back at the end of its run. In the last case it has ended in one of the three ways; in
      the others it is pending, and stays so. */
  lemma HowItLeaves(ss: seq<State>, ms: seq<Move>, conc: int, i: nat, op: Op)
    requires IsRun(ss, ms, conc) && i < |ms| && op in ss[i].place && op !in ss[i + 1].place
    ensures ms[i] == Refuse(op) || (ms[i] == DrainOne && ss[i].queue[0] == op) || ms[i] == WgDone(op)
    ensures op in ss[i + 1].status
    ensures if ms[i] == WgDone(op) then IsFinal(ss[i + 1].status[op]) else ss[i + 1].status[op] == Status.Pending
  {
    StepAt(ss, ms, conc, i);
    RunKeeps(ss, ms, conc, i);
    RunAllFit(ss, ms, conc, i, op);
    LeavesBy(ss[i], ms[i], op);
    NextStatus(ss[i], ms[i], op);
  }

  lemma LeavesBy(s: State, m: Move, op: Op)
    requires Enabled(s, m) && Located(s, m) && op in s.place && op !in Next(s, m).place
    ensures m == Refuse(op) || (m == DrainOne && s.queue[0] == op && At(s, op, Queued)) || m == WgDone(op)
  {
    match m
    case Refuse(_) =>
    case DrainOne =>
    case WgDone(_) =>
    case _ =>
  }

  lemma {:induction false} DroppedStaysPending(ss: seq<State>, ms: seq<Move>, conc: int, i: nat, j: nat, op: Op)
    requires IsRun(ss, ms, conc) && i <= j < |ss|
    requires op in ss[i].status && op !in ss[i].place && ss[i].status[op] == Status.Pending
    ensures op in ss[j].status && op !in ss[j].place && ss[j].status[op] == Status.Pending
  {
    if i < j {
      DroppedStaysPending(ss, ms, conc, i, j - 1, op);
      StepAt(ss, ms, conc, j - 1);
      RunAllFit(ss, ms, conc, j - 1, op);
      StaysOut(ss[j - 1], ms[j - 1], op);
    }
  }

  lemma StaysOut(s: State, m: Move, op: Op)
    requires Enabled(s, m) && Located(s, m) && op in s.status && op !in s.place
    ensures op !in Next(s, m).place && op in Next(s, m).status && Next(s, m).status[op] == s.status[op]
  {
    if Runs(m) {
      RunFrame(s, m, op);
    } else {
      RestStatus(s, m, op);
      match m
      case Gate(_) =>
      case Send(_) =>
      case LoopTake =>
      case LoopRun =>
      case _ =>
    }
  }

  // ---- the handler ----

  // The handler has been called for an operation that waits for it, or has succeeded.
  predicate CalledFits(s: State, op: Op) {
    At(s, op, Working) || (op in s.status && s.status[op] == Succeeded) ==> op in s.calls && s.calls[op] == 1
  }

  lemma NextCalledFits(s: State, m: Move, op: Op)
    requires Inv(s) && Enabled(s, m) && Located(s, m) && (op in s.status ==> Fits(s, op)) && CalledFits(s, op)
    ensures CalledFits(Next(s, m), op)
  {
    if Runs(m) && m.op != op {
      RunFrame(s, m, op);
    } else if Runs(m) {
      if m.Call? { assert NotYetCalled(s, op); }
      RunCalled(s, m, op);
    } else if op in s.status {
      RestStatus(s, m, op);
      RestCalled(s, m, op);
    } else {
      StillNew(s, m, op);
      RestCalled(s, m, op);
    }
  }

  lemma RunCalled(s: State, m: Move, op: Op)
    requires Enabled(s, m) && Runs(m) && m.op == op && op in s.status && Fits(s, op) && CalledFits(s, op)
    requires m.Call? ==> op in s.calls && s.calls[op] == 0
    ensures CalledFits(Next(s, m), op)
  {
    match m
    case Check(_, _) =>
    case Arm(_) =>
    case Call(_) =>
    case Return(_, _) =>
    case ReleaseSem(_) =>
    case WgDone(_) =>
  }

  lemma RestCalled(s: State, m: Move, op: Op)
    requires Enabled(s, m) && !Runs(m)
    ensures At(Next(s, m), op, Working) ==> At(s, op, Working)
    ensures op in s.calls && m != Gate(op) ==> op in Next(s, m).calls && Next(s, m).calls[op] == s.calls[op]
  {
    match m
    case Gate(_) =>
    case Send(_) =>
    case Refuse(_) =>
    case LoopTake =>
    case LoopRun =>
    case DrainOne =>
    case _ =>
  }

  /** An operation that has succeeded has had its handler called, once. */
  lemma {:induction false} SucceededOnce(ss: seq<State>, ms: seq<Move>, conc: int, j: nat, op: Op)
    requires IsRun(ss, ms, conc) && j < |ss|
    ensures CalledFits(ss[j], op)
  {
    if j > 0 {
      SucceededOnce(ss, ms, conc, j - 1, op);
      StepAt(ss, ms, conc, j - 1);
      RunKeeps(ss, ms, conc, j - 1);
      if op in ss[j - 1].status { RunAllFit(ss, ms, conc, j - 1, op); }
      NextCalledFits(ss[j - 1], ms[j - 1], op);
    }
  }

  /** The operation in the loop's hand can start exactly while fewer than the concurrency hold the semaphore. */
  lemma StartsExactly(ss: seq<State>, ms: seq<Move>, conc: int, j: nat)
    requires IsRun(ss, ms, conc) && j < |ss|
    ensures Enabled(ss[j], LoopRun) <==> ss[j].loop.Handing? && |WithSem(ss[j])| < Max(1, conc)
  {
    Accounting(ss, ms, conc, j);
    ConcFixed(ss, ms, conc, j);
  }

  // ---- the queue ----

  // The operations sent, in order, and those taken by the loop or drained.
  function Sent(ms: seq<Move>): seq<Op> {
    if ms == [] then [] else Sent(ms[..|ms| - 1]) + SentBy(Last(ms))
  }

  function Taken(ss: seq<State>, ms: seq<Move>, j: nat): seq<Op>
    requires j <= |ms| < |ss|
  {
    if j == 0 then [] else Taken(ss, ms, j - 1) + TakenBy(ss[j - 1], ms[j - 1])
  }

  // What was sent is what was taken and what still waits, in this order.
  ghost predicate Ordered(ss: seq<State>, ms: seq<Move>, j: nat)
    requires j <= |ms| < |ss|
  {
    Sent(ms[..j]) == Taken(ss, ms, j) + ss[j].queue
  }

  /** Operations leave the queue in the order they came. */
  lemma {:induction false} FirstInFirstOut(ss: seq<State>, ms: seq<Move>, conc: int, j: nat)
    requires IsRun(ss, ms, conc) && j < |ss|
    ensures Ordered(ss, ms, j)
  {
    if j == 0 {
      NothingSent(ss, ms);
    } else {
      FirstInFirstOut(ss, ms, conc, j - 1);
      StepAt(ss, ms, conc, j - 1);
      InOrder(ss, ms, j - 1);
    }
  }

  lemma NothingSent(ss: seq<State>, ms: seq<Move>)
    requires |ms| < |ss| && ss[0].queue == []
    ensures Ordered(ss, ms, 0)
  {
    assert ms[..0] == [];
  }

  lemma InOrder(ss: seq<State>, ms: seq<Move>, j: nat)
    requires j < |ms| < |ss| && Enabled(ss[j], ms[j]) && ss[j + 1] == Next(ss[j], ms[j]) && Ordered(ss, ms, j)
    ensures Ordered(ss, ms, j + 1)
  {
    SentNext(ms, j);
    QueueMove(ss[j], ms[j]);
    Through(Taken(ss, ms, j), ss[j], ms[j]);
  }

  // The queue holds at most 256 operations.
  lemma {:induction false} QueueBound(ss: seq<State>, ms: seq<Move>, conc: int, j: nat)
    requires IsRun(ss, ms, conc) && j < |ss|
    ensures |ss[j].queue| <= 256
  {
    if j > 0 {
      QueueBound(ss, ms, conc, j - 1);
      StepAt(ss, ms, conc, j - 1);
      QueueMove(ss[j - 1], ms[j - 1]);
    }
  }

  function SentBy(m: Move): seq<Op> { if m.Send? then [m.op] else [] }

  function TakenBy(s: State, m: Move): seq<Op> {
    if (m.LoopTake? || m.DrainOne?) && s.queue != [] then [s.queue[0]] else []
  }

  lemma SentNext(ms: seq<Move>, j: nat)
    requires j < |ms|
    ensures Sent(ms[..j + 1]) == Sent(ms[..j]) + SentBy(ms[j])
  {
    assert ms[..j + 1][..j] == ms[..j] && Last(ms[..j + 1]) == ms[j];
  }

  lemma QueueMove(s: State, m: Move)
    requires Enabled(s, m)
    ensures TakenBy(s, m) + Next(s, m).queue == s.queue + SentBy(m)
    ensures m.Send? ==> |s.queue| < 256
    ensures |Next(s, m).queue| <= |s.queue| + if m.Send? then 1 else 0
  {
    match m
    case Send(_) =>
    case LoopTake =>
    case DrainOne =>
    case _ =>
  }

  lemma Through(taken: seq<Op>, s: State, m: Move)
    requires Enabled(s, m) && TakenBy(s, m) + Next(s, m).queue == s.queue + SentBy(m)
    ensures taken + s.queue + SentBy(m) == taken + TakenBy(s, m) + Next(s, m).queue
  {
    assert taken + s.queue + SentBy(m) == taken + (s.queue + SentBy(m));
  }

  // An enqueuer past the gate is turned away only when the queue is full or the dispatcher is stopping.
  lemma RefusedOnlyIf(s: State, op: Op)
    requires At(s, op, Sending)
    ensures Enabled(s, Send(op)) <==> |s.queue| < 256
    ensures Enabled(s, Refuse(op)) <==> |s.queue| >= 256 || s.done
  {}
}
