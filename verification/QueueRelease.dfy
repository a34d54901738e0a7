/**
 That a drain can always complete: for an external worker, from every reachable state
 and whatever is in flight, a ReleaseContext call can return without its context
 ending, and with nil unless the worker's shutdown has failed.
 */
module QueueRelease {
  import opened Wrappers
  import opened QueueModel
  import opened QueueInvariants
  import opened QueueTheorems
  import opened QueueProgress

  // ---------------------------------------------------------------- closing admission

  function CloseRank(at: ClosePc): nat
  {
    match at
    case FlagSection => 4
    case CloseDrain => 3
    case TakeReady' => 2
    case RefundReady => 1
    case _ => 0
  }

  /** What a step of caller `j` in a once body leaves alone. */
  ghost predicate OthersSame(s: State, t: State, j: nat)
  {
    && |t.callers| == |s.callers| && (forall x :: 0 <= x < |s.callers| && x != j ==> t.callers[x] == s.callers[x])
    && t.group == s.group
  }

  lemma CloseMoves(c: Config, s: State)
    requires Good(c, s) && !c.inMemory && s.once.drain.Running?
    ensures CloseEnabled(s, s.once.drain.who)
    ensures var j := s.once.drain.who; var t := AfterClosing(c, s, j);
      && OthersSame(s, t, j) && t.once.stop == s.once.stop && t.shutdownFailed == s.shutdownFailed
      && if t.once.drain.Completed? then t.callers[j] == AfterClose(s.callers[j].releasing)
         else t.once.drain.Running? && t.once.drain.who == j && t.callers[j] == s.callers[j] &&
              CloseRank(t.once.drain.at) < CloseRank(s.once.drain.at)
  {
    match s.once.drain.at
    case FlagSection =>
    case CloseDrain =>
    case TakeReady' =>
    case _ =>
  }

  /** Whoever closes admission can finish. */
  lemma {:induction false} FinishClose(c: Config, s: State, i: nat) returns (t: State)
    requires Good(c, s) && !c.inMemory && s.once.drain.Running? && i < |s.callers|
    requires i == s.once.drain.who ==> s.callers[i] == Closing(true)
    ensures Leads(c, s, t) && Good(c, t) && t.once.drain.Completed? && i < |t.callers|
    ensures t.callers[i] == if i == s.once.drain.who then WaitAdmissions else s.callers[i]
    ensures t.once.stop == s.once.stop && t.shutdownFailed == s.shutdownFailed
    decreases CloseRank(s.once.drain.at)
  {
    CloseMoves(c, s);
    var u := AfterClosing(c, s, s.once.drain.who);
    Move(c, s, OfClose(s.once.drain.who), u);
    if u.once.drain.Completed? {
      t := u;
    } else {
      t := FinishClose(c, u, i);
      Join(c, s, u, t);
    }
  }

  lemma CloseEntered(c: Config, s: State, i: nat)
    requires i < |s.callers| && s.callers[i] == CloseEnter(true) && !s.once.drain.Running?
    ensures CloseEnabled(s, i)
    ensures var t := AfterClosing(c, s, i);
      && |t.callers| == |s.callers| && t.once.stop == s.once.stop && t.shutdownFailed == s.shutdownFailed
      && if s.once.drain.Completed? then t.once.drain.Completed? && t.callers[i] == WaitAdmissions
         else t.once.drain == Running(i, FlagSection) && t.callers[i] == Closing(true)
  {
  }

  lemma CloseNow(c: Config, s: State, i: nat) returns (t: State)
    requires Good(c, s) && !c.inMemory && i < |s.callers| && s.callers[i] == CloseEnter(true) && !s.once.drain.Running?
    ensures Leads(c, s, t) && Good(c, t) && t.once.drain.Completed? && i < |t.callers| && t.callers[i] == WaitAdmissions
    ensures t.once.stop == s.once.stop && t.shutdownFailed == s.shutdownFailed
  {
    CloseEntered(c, s, i);
    var u := AfterClosing(c, s, i);
    Move(c, s, OfClose(i), u);
    if s.once.drain.Completed? {
      t := u;
    } else {
      t := FinishClose(c, u, i);
      Join(c, s, u, t);
    }
  }

  lemma CloseAll(c: Config, s: State, i: nat) returns (t: State)
    requires Good(c, s) && !c.inMemory && i < |s.callers| && s.callers[i] == CloseEnter(true)
    ensures Leads(c, s, t) && Good(c, t) && t.once.drain.Completed? && i < |t.callers| && t.callers[i] == WaitAdmissions
    ensures t.once.stop == s.once.stop && t.shutdownFailed == s.shutdownFailed
  {
    if s.once.drain.Running? {
      var u := FinishClose(c, s, i);
      t := CloseNow(c, u, i);
      Join(c, s, u, t);
    } else {
      t := CloseNow(c, s, i);
    }
  }

  // ---------------------------------------------------------------- the scheduling loop leaves

  function RequestRank(req: Request): nat
  {
    match req
    case Idle => 0
    case Sending(_) => 7
    case HaveTask(_, _) => 8
    case Pacing(_) => 8
    case NoTask(_) => 8
    case PollingDrain(_) => 8
    case Returned(_, _) => 9
    case Waiting(_) => 9
    case Locked(_) => 10
    case Calling => 11
    case PollingQuit(_) => 12
    case Reserving(_) => 13
  }

  function LoopRank(s: State): nat
  {
    match s.sched
    case NotLaunched => 0
    case Gone => 0
    case Leaving => 1
    case Selecting => 2
    case LeavingReserved => 2
    case GotNil => 2
    case Scheduling => 3
    case TookReady => 3
    case Launching(_) => 4
    case SkippingReserved => 4
    case GotTask(_) => 5
    case Receiving => if s.req.Idle? then 6 else RequestRank(s.req)
    case Spawning => 12
    case CheckingCapacity => 13
  }

  function NextOfRequest(req: Request): RequestStep
  {
    match req
    case Calling => RequestReturns(None, NoTaskError)
    case Locked(_) => TakeRing
    case Returned(_, _) => Account
    case HaveTask(_, _) => LoadDrainFlag
    case NoTask(_) => LoadDrainFlag
    case Pacing(_) => Pace(false)
    case Waiting(_) => Pace(false)
    case PollingDrain(_) => PollDrain
    case Reserving(_) => ReserveAgain
    case PollingQuit(_) => PollQuit
    case _ => Send
  }

  function NextOfSched(sched: Scheduler): SchedulerStep
  {
    match sched
    case Selecting => TakeDrain
    case TookReady => LoadDrain
    case LeavingReserved => ReleaseReservation
    case SkippingReserved => ReleaseReservation
    case CheckingCapacity => HasCapacity
    case Spawning => Spawn
    case Receiving => Receive
    case GotNil => LoadDrainAfterNil
    case GotTask(_) => CountBusy
    case Launching(_) => Launch
    case _ => Leave
  }

  /** Draining has closed the drain channel and nobody holds the queue's mutex. */
  ghost predicate Closing'(c: Config, s: State)
  {
    Good(c, s) && !c.inMemory && s.once.drain.Completed? && s.qlock.Free?
  }

  lemma DrainShows(c: Config, s: State)
    requires Closing'(c, s)
    ensures s.drainFlag && s.ch.drain && !c.inMemory
    ensures s.sched.Receiving? && !s.req.Idle? ==> s.ch.tasks.None?
    ensures s.sched.Receiving? && s.req.Idle? ==> s.ch.tasks.Some? || s.ch.tasksClosed
  {
  }

  lemma RequestMoves(c: Config, s: State, i: nat)
    requires !c.inMemory && s.drainFlag && s.ch.drain && s.ch.tasks.None?
    requires i < |s.callers| && s.sched.Receiving? && !s.req.Idle?
    ensures RequestEnabled(c, s, NextOfRequest(s.req))
    ensures var t := AfterRequest(c, s, NextOfRequest(s.req));
      LoopRank(t) < LoopRank(s) && Same(s, t, i) && t.qlock == s.qlock && t.producers == s.producers
  {
    match s.req
    case Calling =>
    case Locked(_) =>
    case Returned(_, _) =>
    case HaveTask(_, _) =>
    case NoTask(_) =>
    case Pacing(_) =>
    case Waiting(_) =>
    case PollingDrain(_) =>
    case Reserving(_) =>
    case PollingQuit(_) =>
    case Sending(_) =>
  }

  lemma SchedMoves(c: Config, s: State, i: nat)
    requires !c.inMemory && s.drainFlag && s.ch.drain && s.qlock.Free? && i < |s.callers|
    requires !s.sched.NotLaunched? && !s.sched.Gone? && !s.sched.Scheduling?
    requires s.sched.Receiving? ==> s.req.Idle? && (s.ch.tasks.Some? || s.ch.tasksClosed)
    ensures SchedulerEnabled(c, s, NextOfSched(s.sched))
    ensures var t := AfterSched(c, s, NextOfSched(s.sched));
      LoopRank(t) < LoopRank(s) && Same(s, t, i) && t.qlock == s.qlock && t.producers == s.producers
  {
    match s.sched
    case Selecting =>
    case TookReady =>
    case LeavingReserved =>
    case SkippingReserved =>
    case CheckingCapacity =>
    case Spawning =>
    case Receiving =>
    case GotNil =>
    case GotTask(_) =>
    case Launching(_) =>
    case Leaving =>
  }

  lemma ScheduleReturns(c: Config, s: State, i: nat)
    requires !c.inMemory && s.drainFlag && s.qlock.Free? && i < |s.callers| && s.sched.Scheduling?
    ensures ScheduleEnabled(c, s, Enter(OfScheduler))
    ensures var t := AfterSchedule(c, s, Enter(OfScheduler));
      t.sched.Selecting? && Same(s, t, i) && t.qlock.Free? && t.producers == s.producers
  {
  }

  function NextOfLoop(s: State): Step
  {
    if s.sched.Scheduling? then OfSchedule(Enter(OfScheduler))
    else if s.sched.Receiving? && !s.req.Idle? then OfRequest(NextOfRequest(s.req))
    else OfSched(NextOfSched(s.sched))
  }

  lemma LoopMoves(c: Config, s: State, i: nat)
    requires Closing'(c, s) && i < |s.callers| && !s.sched.NotLaunched? && !s.sched.Gone?
    ensures Enabled(c, s, NextOfLoop(s))
    ensures var t := Apply(c, s, NextOfLoop(s));
      LoopRank(t) < LoopRank(s) && Same(s, t, i) && t.qlock.Free? && t.producers == s.producers
  {
    DrainShows(c, s);
    if s.sched.Scheduling? {
      ScheduleReturns(c, s, i);
    } else if s.sched.Receiving? && !s.req.Idle? {
      RequestMoves(c, s, i);
    } else {
      SchedMoves(c, s, i);
    }
  }

  /** From wherever it stands, the loop can leave. */
  lemma {:induction false} EndLoop(c: Config, s: State, i: nat) returns (t: State)
    requires Closing'(c, s) && i < |s.callers|
    ensures Leads(c, s, t) && Closing'(c, t) && Same(s, t, i) && t.producers == s.producers
    ensures t.sched.NotLaunched? || t.sched.Gone?
    decreases LoopRank(s)
  {
    if s.sched.NotLaunched? || s.sched.Gone? {
      Stay(c, s);
      t := s;
    } else {
      LoopMoves(c, s, i);
      var u := Apply(c, s, NextOfLoop(s));
      Move(c, s, NextOfLoop(s), u);
      t := EndLoop(c, u, i);
      Join(c, s, u, t);
    }
  }

  // ---------------------------------------------------------------- wrappers finish

  function NextOfWrapper(pc: WrapperPc, k: nat): Step
  {
    match pc
    case Working => OfWork(k, Settle)
    case Rescheduling => OfSchedule(Enter(OfWrapper(k)))
    case Counting => OfWork(k, CountResult(true))
    case EndingJob => OfWork(k, FinishJob)
    case _ => OfWork(k, Exit)
  }

  ghost predicate WrapperMoved(s: State, t: State, k: nat, i: nat)
  {
    && Same(s, t, i) && t.qlock == s.qlock && t.sched == s.sched
    && |t.wrappers| == |s.wrappers| && k < |s.wrappers|
    && WrapperRank(t.wrappers[k].pc) < WrapperRank(s.wrappers[k].pc)
    && forall j :: 0 <= j < |s.wrappers| && j != k ==> t.wrappers[j] == s.wrappers[j]
  }

  lemma WorkMoves(c: Config, s: State, k: nat, i: nat, st: WrapperStep)
    requires i < |s.callers| && WrapperEnabled(c, s, k, st)
    ensures WrapperMoved(s, AfterWork(c, s, k, st), k, i)
  {
  }

  lemma WrapperScheduled(c: Config, s: State, k: nat, i: nat)
    requires !c.inMemory && s.drainFlag && s.qlock.Free? && i < |s.callers|
    requires k < |s.wrappers| && s.wrappers[k].pc.Rescheduling?
    ensures ScheduleEnabled(c, s, Enter(OfWrapper(k)))
    ensures WrapperMoved(s, AfterSchedule(c, s, Enter(OfWrapper(k))), k, i)
  {
  }

  lemma WrapperMoves(c: Config, s: State, k: nat, i: nat)
    requires Closing'(c, s) && i < |s.callers| && k < |s.wrappers| && !s.wrappers[k].pc.Finished?
    ensures Enabled(c, s, NextOfWrapper(s.wrappers[k].pc, k))
    ensures WrapperMoved(s, Apply(c, s, NextOfWrapper(s.wrappers[k].pc, k)), k, i)
  {
    DrainShows(c, s);
    match s.wrappers[k].pc
    case Working => WorkMoves(c, s, k, i, Settle);
    case Rescheduling => WrapperScheduled(c, s, k, i);
    case Counting => WorkMoves(c, s, k, i, CountResult(true));
    case EndingJob => WorkMoves(c, s, k, i, FinishJob);
    case Exiting => WorkMoves(c, s, k, i, Exit);
  }

  lemma {:induction false} EndWrappers(c: Config, s: State, n: nat, i: nat) returns (t: State)
    requires Closing'(c, s) && i < |s.callers| && n <= |s.wrappers|
    requires forall k :: 0 <= k < n ==> s.wrappers[k].pc.Finished?
    ensures Leads(c, s, t) && Closing'(c, t) && Same(s, t, i) && t.sched == s.sched && AllFinished(t.wrappers)
    decreases |s.wrappers| - n, if n < |s.wrappers| then WrapperRank(s.wrappers[n].pc) else 0
  {
    if n == |s.wrappers| {
      Stay(c, s);
      t := s;
    } else if s.wrappers[n].pc.Finished? {
      t := EndWrappers(c, s, n + 1, i);
    } else {
      WrapperMoves(c, s, n, i);
      var u := Apply(c, s, NextOfWrapper(s.wrappers[n].pc, n));
      Move(c, s, NextOfWrapper(s.wrappers[n].pc, n), u);
      t := EndWrappers(c, u, n, i);
      Join(c, s, u, t);
    }
  }

  lemma FinishMoves(c: Config, s: State, i: nat)
    requires i < |s.callers| && s.finishing > 0
    ensures RequestEnabled(c, s, Finish)
    ensures var t := AfterRequest(c, s, Finish);
      && Same(s, t, i) && t.qlock == s.qlock && t.sched == s.sched && t.wrappers == s.wrappers
      && t.finishing == s.finishing - 1
  {
  }

  lemma {:induction false} EndRequests(c: Config, s: State, i: nat) returns (t: State)
    requires Closing'(c, s) && i < |s.callers|
    ensures Leads(c, s, t) && Closing'(c, t) && Same(s, t, i) && t.sched == s.sched && t.wrappers == s.wrappers
    ensures t.finishing == 0
    decreases s.finishing
  {
    if s.finishing == 0 {
      Stay(c, s);
      t := s;
    } else {
      FinishMoves(c, s, i);
      var u := AfterRequest(c, s, Finish);
      Move(c, s, OfRequest(Finish), u);
      t := EndRequests(c, u, i);
      Join(c, s, u, t);
    }
  }

  lemma {:induction false} NoneAlive(ws: seq<Wrapper>)
    requires AllFinished(ws)
    ensures Count(ws, Alive) == 0
    decreases |ws|
  {
    if ws == [] {
    } else {
      NoneAlive(ws[..|ws| - 1]);
    }
  }

  lemma GroupIsIdle(c: Config, s: State)
    requires Good(c, s) && (s.sched.NotLaunched? || s.sched.Gone?) && s.finishing == 0 && AllFinished(s.wrappers)
    ensures s.group.active == 0 && s.group.closed
  {
    NoneAlive(s.wrappers);
  }

  /** Everything the group waits for can end. */
  lemma EndAll(c: Config, s: State, i: nat) returns (t: State)
    requires Good(c, s) && !c.inMemory && s.once.drain.Completed? && i < |s.callers| && !s.callers[i].CallSchedule?
    ensures Leads(c, s, t) && Good(c, t) && Same(s, t, i) && t.group.closed
  {
    var u := FreeLock(c, s, i);
    var v := EndLoop(c, u, i);
    Join(c, s, u, v);
    var w := EndWrappers(c, v, 0, i);
    Join(c, s, v, w);
    t := EndRequests(c, w, i);
    Join(c, s, w, t);
    GroupIsIdle(c, t);
  }

  // ---------------------------------------------------------------- shutting down

  function ShutRank(at: ShutPc): nat
  {
    match at
    case StopSection => 4
    case LoadDrain' => 3
    case StopWorker => 2
    case CloseQuit => 1
    case _ => 0
  }

  lemma ShutMoves(c: Config, s: State)
    requires Good(c, s) && !c.inMemory && s.once.stop.Running? && ExternalStop(s.once.stop)
    ensures ShutEnabled(s, s.once.stop.who)
    ensures var j := s.once.stop.who; var t := AfterShutting(c, s, j, false);
      && OthersSame(s, t, j) && ExternalStop(t.once.stop) && (t.shutdownFailed ==> s.shutdownFailed)
      && if t.once.stop.Completed? then t.callers[j] == AfterShut(s.callers[j].releasing)
         else t.once.stop.Running? && t.once.stop.who == j && t.callers[j] == s.callers[j] &&
              ShutRank(t.once.stop.at) < ShutRank(s.once.stop.at)
  {
    match s.once.stop.at
    case StopSection =>
    case LoadDrain' =>
    case StopWorker =>
    case CloseQuit =>
  }

  lemma {:induction false} FinishShut(c: Config, s: State, i: nat) returns (t: State)
    requires Good(c, s) && !c.inMemory && s.once.stop.Running? && ExternalStop(s.once.stop) && i < |s.callers|
    requires i == s.once.stop.who ==> s.callers[i] == Shutting(true)
    ensures Leads(c, s, t) && Good(c, t) && t.once.stop.Completed? && i < |t.callers| && t.group == s.group
    ensures t.callers[i] == if i == s.once.stop.who then CaptureIdle(false) else s.callers[i]
    ensures t.shutdownFailed ==> s.shutdownFailed
    decreases ShutRank(s.once.stop.at)
  {
    ShutMoves(c, s);
    var u := AfterShutting(c, s, s.once.stop.who, false);
    Move(c, s, OfShut(s.once.stop.who, false), u);
    if u.once.stop.Completed? {
      t := u;
    } else {
      t := FinishShut(c, u, i);
      Join(c, s, u, t);
    }
  }

  lemma ShutEntered(c: Config, s: State, i: nat)
    requires i < |s.callers| && s.callers[i] == ShutEnter(true) && !s.once.stop.Running?
    ensures ShutEnabled(s, i)
    ensures var t := AfterShutting(c, s, i, false);
      && |t.callers| == |s.callers| && t.group == s.group && t.shutdownFailed == s.shutdownFailed
      && if s.once.stop.Completed? then t.once.stop.Completed? && t.callers[i] == CaptureIdle(false)
         else t.once.stop == Running(i, StopSection) && t.callers[i] == Shutting(true)
  {
  }

  lemma ShutNow(c: Config, s: State, i: nat) returns (t: State)
    requires Good(c, s) && !c.inMemory && i < |s.callers| && s.callers[i] == ShutEnter(true) && !s.once.stop.Running?
    ensures Leads(c, s, t) && Good(c, t) && i < |t.callers| && t.callers[i] == CaptureIdle(false) && t.group == s.group
    ensures t.shutdownFailed ==> s.shutdownFailed
  {
    ShutEntered(c, s, i);
    var u := AfterShutting(c, s, i, false);
    Move(c, s, OfShut(i, false), u);
    if s.once.stop.Completed? {
      t := u;
    } else {
      t := FinishShut(c, u, i);
      Join(c, s, u, t);
    }
  }

  lemma ShutAll(c: Config, s: State, i: nat) returns (t: State)
    requires Good(c, s) && !c.inMemory && ExternalStop(s.once.stop)
    requires i < |s.callers| && s.callers[i] == ShutEnter(true)
    ensures Leads(c, s, t) && Good(c, t) && i < |t.callers| && t.callers[i] == CaptureIdle(false) && t.group == s.group
    ensures t.shutdownFailed ==> s.shutdownFailed
  {
    if s.once.stop.Running? {
      var u := FinishShut(c, s, i);
      t := ShutNow(c, u, i);
      Join(c, s, u, t);
    } else {
      t := ShutNow(c, s, i);
    }
  }

  // ---------------------------------------------------------------- the release caller's own steps

  /** One step of ReleaseContext that does not expire. */
  lemma ReleaseMoves(c: Config, s: State, i: nat, p: Caller) returns (t: State)
    requires Good(c, s) && ReleaseEnabled(s, i, false) && ReleaseRow(c, s, i, false) == p
    ensures Leads(c, s, t) && Good(c, t) && t == s.(callers := s.callers[i := p])
  {
    t := s.(callers := s.callers[i := p]);
    Move(c, s, OfRelease(i, false), t);
  }

  lemma DrainClosed(c: Config, s: State)
    requires Good(c, s) && s.once.drain.Completed? && forall k :: 0 <= k < |s.producers| ==> s.producers[k].Done?
    ensures s.adm.done.Closed?
  {
    AllDoneCount(s.producers);
  }

  /** From WaitAdmissions to ShutEnter. */
  lemma ReleaseWaits(c: Config, s: State, i: nat) returns (t: State)
    requires Good(c, s) && !c.inMemory && s.once.drain.Completed? && i < |s.callers| && s.callers[i] == WaitAdmissions
    ensures Leads(c, s, t) && Good(c, t) && i < |t.callers| && t.callers[i] == ShutEnter(true) && t.group.closed
    ensures t.once == s.once && t.shutdownFailed == s.shutdownFailed
  {
    var a := EndProducers(c, s, 0, i);
    DrainClosed(c, a);
    var b := ReleaseMoves(c, a, i, CaptureIdle(true));
    Join(c, s, a, b);
    var d := EndAll(c, b, i);
    Join(c, s, b, d);
    var e := ReleaseMoves(c, d, i, WaitIdle(true, d.group.generation));
    Join(c, s, d, e);
    t := ReleaseMoves(c, e, i, ShutEnter(true));
    Join(c, s, e, t);
  }

  lemma ReleaseReturns(c: Config, s: State, i: nat) returns (t: State)
    requires Good(c, s) && i < |s.callers| && s.callers[i] == CaptureIdle(false) && s.group.closed
    ensures Leads(c, s, t) && i < |t.callers| && t.shutdownFailed == s.shutdownFailed
    ensures t.callers[i] == if s.shutdownFailed then ReleaseFailed else ReleasedNil
  {
    var u := ReleaseMoves(c, s, i, WaitIdle(false, s.group.generation));
    t := ReleaseMoves(c, u, i, if s.shutdownFailed then ReleaseFailed else ReleasedNil);
    Join(c, s, u, t);
  }

  lemma ReleaseFromClose(c: Config, s: State, i: nat) returns (t: State)
    requires Good(c, s) && !c.inMemory && ExternalStop(s.once.stop)
    requires i < |s.callers| && s.callers[i] == CloseEnter(true)
    ensures Leads(c, s, t) && i < |t.callers|
    ensures t.callers[i].ReleasedNil? || (t.callers[i].ReleaseFailed? && s.shutdownFailed)
  {
    var a := CloseAll(c, s, i);
    var b := ReleaseWaits(c, a, i);
    Join(c, s, a, b);
    var d := ShutAll(c, b, i);
    Join(c, s, b, d);
    t := ReleaseReturns(c, d, i);
    Join(c, s, d, t);
  }

  /**
   For an external worker, from every reachable state: a ReleaseContext call made
   now can return without its context ending, whatever enqueues, requests, handlers
   and other callers are under way, and with nil unless the worker's shutdown has
   failed already.
   */
  lemma ReleaseCanReturn(c: Config, s: State) returns (t: State)
    requires ValidConfig(c) && !c.inMemory && Reachable(c, s)
    ensures Leads(c, s, t) && |s.callers| < |t.callers|
    ensures t.callers[|s.callers|] == ReleasedNil || (t.callers[|s.callers|] == ReleaseFailed && s.shutdownFailed)
  {
    var i := |s.callers|;
    ReachableGood(c, s);
    var steps :| Run(c, Initial(c), steps, s);
    ExternalStopRun(c, Initial(c), steps, s);
    var u := ReleaseCalled(c, s);
    t := ReleaseFromClose(c, u, i);
    Join(c, s, u, t);
  }

  lemma ReleaseCalled(c: Config, s: State) returns (t: State)
    requires Good(c, s) && !c.inMemory
    ensures Leads(c, s, t) && Good(c, t) && |t.callers| == |s.callers| + 1 && t.callers[|s.callers|] == CloseEnter(true)
    ensures t.once == s.once && t.shutdownFailed == s.shutdownFailed
  {
    var u := AfterCall(s, OpRelease);
    Move(c, s, Call(OpRelease), u);
    t := ReleaseMoves(c, u, |s.callers|, CloseEnter(true));
    Join(c, s, u, t);
  }
}
