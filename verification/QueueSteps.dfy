/** Every step keeps every invariant of the queue protocol. */
module QueueSteps {
  import opened RingBuffer
  import opened QueueModel
  import opened QueueInvariants
  import RG = RoutineGroup
  import L = Lifecycle

  // ---------------------------------------------------------------- wrapper counts

  /** How each wrapper count changes when wrapper `i` moves to `pc`. */
  lemma CountsMove(ws: seq<Wrapper>, i: nat, pc: WrapperPc)
    requires i < |ws|
    ensures var w := ws[i].(pc := pc); var vs := ws[i := w];
      && Count(vs, Alive) + One(Alive(ws[i])) == Count(ws, Alive) + One(Alive(w))
      && Count(vs, Busy) + One(Busy(ws[i])) == Count(ws, Busy) + One(Busy(w))
      && Count(vs, HasJob) + One(HasJob(ws[i])) == Count(ws, HasJob) + One(HasJob(w))
      && Count(vs, Finishing) + One(Finishing(ws[i])) == Count(ws, Finishing) + One(Finishing(w))
      && Count(vs, Tallied) + One(Tallied(ws[i])) == Count(ws, Tallied) + One(Tallied(w))
      && TasksOf(vs) == TasksOf(ws)
  {
    var w := ws[i].(pc := pc);
    CountUpdate(ws, i, w, Alive);
    CountUpdate(ws, i, w, Busy);
    CountUpdate(ws, i, w, HasJob);
    CountUpdate(ws, i, w, Finishing);
    CountUpdate(ws, i, w, Tallied);
  }

  lemma CountsLaunch(ws: seq<Wrapper>, task: Task)
    ensures var vs := ws + [Wrapper(task, Working)];
      && Count(vs, Alive) == Count(ws, Alive) + 1 && Count(vs, Busy) == Count(ws, Busy) + 1
      && Count(vs, HasJob) == Count(ws, HasJob) + 1 && Count(vs, Finishing) == Count(ws, Finishing)
      && Count(vs, Tallied) == Count(ws, Tallied)
      && TasksOf(vs) == TasksOf(ws) + [task]
  {
    var w := Wrapper(task, Working);
    CountAppend(ws, w, Alive);
    CountAppend(ws, w, Busy);
    CountAppend(ws, w, HasJob);
    CountAppend(ws, w, Finishing);
    CountAppend(ws, w, Tallied);
  }

  lemma ScheduleWrappers(c: Config, s: State, st: ScheduleStep)
    requires ScheduleEnabled(c, s, st)
    ensures var who := ScheduleCaller(s, st); var vs := AfterSchedule(c, s, st).wrappers;
      || vs == s.wrappers
      || (who.OfWrapper? && who.i < |s.wrappers| && s.wrappers[who.i].pc.Rescheduling? &&
          vs == s.wrappers[who.i := s.wrappers[who.i].(pc := Counting)])
  {
  }

  /** schedule() moves at most its caller, and within the same counts. */
  lemma ScheduleMoves(c: Config, s: State, st: ScheduleStep)
    requires ScheduleEnabled(c, s, st)
    ensures var ws, vs := s.wrappers, AfterSchedule(c, s, st).wrappers;
      && |vs| == |ws|
      && Count(vs, Alive) == Count(ws, Alive) && Count(vs, Busy) == Count(ws, Busy)
      && Count(vs, HasJob) == Count(ws, HasJob) && Count(vs, Finishing) == Count(ws, Finishing)
      && Count(vs, Tallied) == Count(ws, Tallied) && TasksOf(vs) == TasksOf(ws)
  {
    var who := ScheduleCaller(s, st);
    ScheduleWrappers(c, s, st);
    if AfterSchedule(c, s, st).wrappers != s.wrappers { CountsMove(s.wrappers, who.i, Counting); }
  }

  // ---------------------------------------------------------------- the core, actor by actor

  lemma CoreBySubmit(c: Config, s: State, task: Task)
    requires Core(c, s)
    ensures Core(c, AfterSubmit(s, task))
  {
    CountAppend(s.producers, AfterSubmit(s, task).producers[|s.producers|], Admitting);
  }

  lemma AdmissionsByProducer(c: Config, s: State, i: nat, st: ProducerStep)
    requires Admissions(s) && ProducerEnabled(c, s, i, st)
    ensures Admissions(AfterProducer(c, s, i, st)) && AfterProducer(c, s, i, st).fault == s.fault
  {
    CountUpdate(s.producers, i, AfterProducer(c, s, i, st).producers[i], Admitting);
  }

  lemma RingByProducer(c: Config, s: State, i: nat, st: ProducerStep)
    requires RingLock(s) && ExitClosed(s) && ProducerEnabled(c, s, i, st)
    ensures RingLock(AfterProducer(c, s, i, st)) && ExitClosed(AfterProducer(c, s, i, st))
  {
  }

  lemma FlowByProducer(c: Config, s: State, i: nat, st: ProducerStep)
    requires Flow(c, s) && ProducerEnabled(c, s, i, st)
    ensures Flow(c, AfterProducer(c, s, i, st))
  {
    if st.CommitRing? {
      var task := s.producers[i].task;
      assert s.hist.requested + (s.ring.fifo.items + [task]) == s.hist.requested + s.ring.fifo.items + [task];
    }
  }

  lemma CoreByProducer(c: Config, s: State, i: nat, st: ProducerStep)
    requires Core(c, s) && ProducerEnabled(c, s, i, st)
    ensures Core(c, AfterProducer(c, s, i, st))
  {
    AdmissionsByProducer(c, s, i, st);
    RingByProducer(c, s, i, st);
    FlowByProducer(c, s, i, st);
  }

  lemma ShapeBySchedule(c: Config, s: State, st: ScheduleStep)
    requires Shape(c, s) && HandOver(s) && ScheduleEnabled(c, s, st)
    ensures Shape(c, AfterSchedule(c, s, st))
  {
  }

  lemma FlowBySchedule(c: Config, s: State, st: ScheduleStep)
    requires Flow(c, s) && OnceProgress(c, s) && ScheduleEnabled(c, s, st)
    ensures Flow(c, AfterSchedule(c, s, st))
  {
    ScheduleMoves(c, s, st);
  }

  lemma CountsBySchedule(c: Config, s: State, st: ScheduleStep)
    requires Counts(s) && HandOver(s) && OnceProgress(c, s) && ScheduleEnabled(c, s, st)
    ensures Counts(AfterSchedule(c, s, st))
  {
    ScheduleMoves(c, s, st);
  }

  lemma LedgerBySchedule(c: Config, s: State, st: ScheduleStep)
    requires Ledger(c, s) && HandOver(s) && OnceProgress(c, s) && ScheduleEnabled(c, s, st)
    ensures Ledger(c, AfterSchedule(c, s, st))
  {
    ScheduleMoves(c, s, st);
  }

  lemma CoreBySchedule(c: Config, s: State, st: ScheduleStep)
    requires Core(c, s) && ScheduleEnabled(c, s, st)
    ensures Core(c, AfterSchedule(c, s, st))
  {
    ShapeBySchedule(c, s, st);
    FlowBySchedule(c, s, st);
    CountsBySchedule(c, s, st);
    LedgerBySchedule(c, s, st);
  }

  lemma ShapeBySched(c: Config, s: State, st: SchedulerStep)
    requires Shape(c, s) && HandOver(s) && SchedulerEnabled(c, s, st)
    ensures Shape(c, AfterSched(c, s, st))
  {
  }

  lemma FlowByLaunch(c: Config, s: State)
    requires Flow(c, s) && SchedulerEnabled(c, s, Launch)
    ensures Flow(c, AfterSched(c, s, Launch))
  {
    CountsLaunch(s.wrappers, s.sched.task);
  }

  lemma FlowBySched(c: Config, s: State, st: SchedulerStep)
    requires Flow(c, s) && SchedulerEnabled(c, s, st)
    ensures Flow(c, AfterSched(c, s, st))
  {
    if st.Launch? { FlowByLaunch(c, s); }
  }

  lemma CountsByLaunch(c: Config, s: State)
    requires Counts(s) && HandOver(s) && SchedulerEnabled(c, s, Launch)
    ensures Counts(AfterSched(c, s, Launch))
  {
    CountsLaunch(s.wrappers, s.sched.task);
  }

  lemma GroupBySched(c: Config, s: State, st: SchedulerStep)
    requires GroupCount(s) && HandOver(s) && SchedulerEnabled(c, s, st) && !st.Launch?
    ensures GroupCount(AfterSched(c, s, st))
  {
  }

  lemma BusyBySched(c: Config, s: State, st: SchedulerStep)
    requires BusyCount(s) && SchedulerEnabled(c, s, st) && !st.Launch?
    ensures BusyCount(AfterSched(c, s, st))
  {
  }

  lemma CountsBySched(c: Config, s: State, st: SchedulerStep)
    requires Counts(s) && HandOver(s) && SchedulerEnabled(c, s, st)
    ensures Counts(AfterSched(c, s, st))
  {
    if st.Launch? {
      CountsByLaunch(c, s);
    } else {
      GroupBySched(c, s, st);
      BusyBySched(c, s, st);
    }
  }

  lemma SchedLaunches(c: Config, s: State, st: SchedulerStep)
    requires SchedulerEnabled(c, s, st)
    ensures Count(AfterSched(c, s, st).wrappers, HasJob) == Count(s.wrappers, HasJob) + One(st.Launch?)
  {
    if st.Launch? { CountAppend(s.wrappers, Wrapper(s.sched.task, Working), HasJob); }
  }

  lemma AdmissionsBySched(c: Config, s: State, st: SchedulerStep)
    requires c.managed && Reservations(c, s) && HandOver(s) && SchedulerEnabled(c, s, st)
    ensures var t := AfterSched(c, s, st);
      t.life.admissions == One(t.ch.ready) + One(LoopHolds(t.sched, t.req)) + One(ScheduleHolds(t.qlock)) +
                           One(CloserHolds(t.once.drain)) + t.hist.leaked
  {
  }

  lemma JobsBySched(c: Config, s: State, st: SchedulerStep)
    requires c.managed && Reservations(c, s) && HandOver(s) && SchedulerEnabled(c, s, st)
    ensures var t := AfterSched(c, s, st);
      t.life.jobs == Count(t.wrappers, HasJob) + One(JobInHand(t.sched, t.req, t.ch.tasks))
  {
    SchedLaunches(c, s, st);
  }

  lemma LedgerBySched(c: Config, s: State, st: SchedulerStep)
    requires Ledger(c, s) && HandOver(s) && GroupCount(s) && SchedulerEnabled(c, s, st)
    ensures Ledger(c, AfterSched(c, s, st))
  {
    if c.managed {
      AdmissionsBySched(c, s, st);
      JobsBySched(c, s, st);
    }
  }

  lemma CoreBySched(c: Config, s: State, st: SchedulerStep)
    requires Core(c, s) && SchedulerEnabled(c, s, st)
    ensures Core(c, AfterSched(c, s, st))
  {
    ShapeBySched(c, s, st);
    FlowBySched(c, s, st);
    CountsBySched(c, s, st);
    LedgerBySched(c, s, st);
  }

  lemma ShapeByRequest(c: Config, s: State, st: RequestStep)
    requires Shape(c, s) && HandOver(s) && RequestEnabled(c, s, st)
    ensures Shape(c, AfterRequest(c, s, st))
  {
  }

  lemma FlowByRequest(c: Config, s: State, st: RequestStep)
    requires Flow(c, s) && OnceProgress(c, s) && RequestEnabled(c, s, st)
    ensures Flow(c, AfterRequest(c, s, st))
  {
  }

  lemma CountsByRequest(c: Config, s: State, st: RequestStep)
    requires Counts(s) && HandOver(s) && OnceProgress(c, s) && RequestEnabled(c, s, st)
    ensures Counts(AfterRequest(c, s, st))
  {
  }

  lemma AdmissionsByRequest(c: Config, s: State, st: RequestStep)
    requires c.managed && Reservations(c, s) && HandOver(s) && RequestEnabled(c, s, st)
    ensures var t := AfterRequest(c, s, st);
      t.life.admissions == One(t.ch.ready) + One(LoopHolds(t.sched, t.req)) + One(ScheduleHolds(t.qlock)) +
                           One(CloserHolds(t.once.drain)) + t.hist.leaked
  {
  }

  lemma JobsByRequest(c: Config, s: State, st: RequestStep)
    requires c.managed && Reservations(c, s) && HandOver(s) && RequestEnabled(c, s, st)
    ensures var t := AfterRequest(c, s, st);
      t.life.jobs == Count(t.wrappers, HasJob) + One(JobInHand(t.sched, t.req, t.ch.tasks))
  {
  }

  lemma LedgerByRequest(c: Config, s: State, st: RequestStep)
    requires Ledger(c, s) && HandOver(s) && OnceProgress(c, s) && GroupCount(s) && RequestEnabled(c, s, st)
    ensures Ledger(c, AfterRequest(c, s, st))
  {
    if c.managed {
      AdmissionsByRequest(c, s, st);
      JobsByRequest(c, s, st);
    }
  }

  lemma CoreByRequest(c: Config, s: State, st: RequestStep)
    requires Core(c, s) && RequestEnabled(c, s, st)
    ensures Core(c, AfterRequest(c, s, st))
  {
    ShapeByRequest(c, s, st);
    FlowByRequest(c, s, st);
    CountsByRequest(c, s, st);
    LedgerByRequest(c, s, st);
  }

  lemma FlowByWork(c: Config, s: State, i: nat, st: WrapperStep)
    requires Flow(c, s) && WrapperEnabled(c, s, i, st)
    ensures Flow(c, AfterWork(c, s, i, st))
  {
    CountsMove(s.wrappers, i, WrapperRow(c, s, i, st).pc);
  }

  lemma CountsByWork(c: Config, s: State, i: nat, st: WrapperStep)
    requires Counts(s) && WrapperEnabled(c, s, i, st)
    ensures Counts(AfterWork(c, s, i, st))
  {
    CountsMove(s.wrappers, i, WrapperRow(c, s, i, st).pc);
  }

  lemma LedgerByWork(c: Config, s: State, i: nat, st: WrapperStep)
    requires Ledger(c, s) && GroupCount(s) && WrapperEnabled(c, s, i, st)
    ensures Ledger(c, AfterWork(c, s, i, st))
  {
    CountsMove(s.wrappers, i, WrapperRow(c, s, i, st).pc);
  }

  lemma CoreByWork(c: Config, s: State, i: nat, st: WrapperStep)
    requires Core(c, s) && WrapperEnabled(c, s, i, st)
    ensures Core(c, AfterWork(c, s, i, st))
  {
    FlowByWork(c, s, i, st);
    CountsByWork(c, s, i, st);
    LedgerByWork(c, s, i, st);
  }

  lemma CoreByCall(c: Config, s: State, op: Operation)
    requires Core(c, s) && OperationEnabled(s, op)
    ensures Core(c, AfterCall(s, op))
  {
  }

  lemma ShapeByStart(c: Config, s: State, i: nat)
    requires Shape(c, s) && HandOver(s) && StartEnabled(s, i)
    ensures Shape(c, AfterStarting(s, i))
  {
  }

  lemma FlowByStart(c: Config, s: State, i: nat)
    requires Flow(c, s) && OnceProgress(c, s) && StartEnabled(s, i)
    ensures Flow(c, AfterStarting(s, i))
  {
  }

  lemma CountsByStart(c: Config, s: State, i: nat)
    requires Counts(s) && HandOver(s) && OnceProgress(c, s) && StartEnabled(s, i)
    ensures Counts(AfterStarting(s, i))
  {
  }

  lemma LedgerByStart(c: Config, s: State, i: nat)
    requires Ledger(c, s) && HandOver(s) && OnceProgress(c, s) && StartEnabled(s, i)
    ensures Ledger(c, AfterStarting(s, i))
  {
  }

  lemma CoreByStart(c: Config, s: State, i: nat)
    requires Core(c, s) && StartEnabled(s, i)
    ensures Core(c, AfterStarting(s, i))
  {
    ShapeByStart(c, s, i);
    FlowByStart(c, s, i);
    CountsByStart(c, s, i);
    LedgerByStart(c, s, i);
  }

  lemma OnceByClose(c: Config, s: State, i: nat)
    requires OnceProgress(c, s) && CloseEnabled(s, i)
    ensures OnceProgress(c, AfterClosing(c, s, i))
  {
  }

  lemma AdmissionsByClose(c: Config, s: State, i: nat)
    requires OnceProgress(c, s) && Admissions(s) && CloseEnabled(s, i)
    ensures Admissions(AfterClosing(c, s, i))
  {
  }

  lemma RingByClose(c: Config, s: State, i: nat)
    requires RingLock(s) && ExitClosed(s) && CloseEnabled(s, i)
    ensures RingLock(AfterClosing(c, s, i)) && ExitClosed(AfterClosing(c, s, i))
  {
  }

  lemma ShapeByClose(c: Config, s: State, i: nat)
    requires Shape(c, s) && CloseEnabled(s, i)
    ensures Shape(c, AfterClosing(c, s, i))
  {
    OnceByClose(c, s, i);
    AdmissionsByClose(c, s, i);
    RingByClose(c, s, i);
  }

  lemma FlowByClose(c: Config, s: State, i: nat)
    requires Flow(c, s) && OnceProgress(c, s) && CloseEnabled(s, i)
    ensures Flow(c, AfterClosing(c, s, i))
  {
  }

  lemma CountsByClose(c: Config, s: State, i: nat)
    requires Counts(s) && HandOver(s) && OnceProgress(c, s) && CloseEnabled(s, i)
    ensures Counts(AfterClosing(c, s, i))
  {
  }

  lemma LedgerByClose(c: Config, s: State, i: nat)
    requires Ledger(c, s) && HandOver(s) && OnceProgress(c, s) && CloseEnabled(s, i)
    ensures Ledger(c, AfterClosing(c, s, i))
  {
  }

  lemma CoreByClose(c: Config, s: State, i: nat)
    requires Core(c, s) && CloseEnabled(s, i)
    ensures Core(c, AfterClosing(c, s, i))
  {
    ShapeByClose(c, s, i);
    FlowByClose(c, s, i);
    CountsByClose(c, s, i);
    LedgerByClose(c, s, i);
  }

  lemma StopByShut(c: Config, s: State, i: nat, failed: bool)
    requires StopProgress(c, s.ch.quit, s.once.stop, s.worker) && ShutEnabled(s, i)
    ensures var w := ShutRow(c, s, i, failed); StopProgress(c, w.quit, w.once, w.worker)
  {
  }

  lemma OnceByShut(c: Config, s: State, i: nat, failed: bool)
    requires OnceProgress(c, s) && ShutEnabled(s, i)
    ensures OnceProgress(c, AfterShutting(c, s, i, failed))
  {
    StopByShut(c, s, i, failed);
  }

  /** The three things stopIntake does to the ring, whoever calls it. */
  ghost predicate StopsRing(ring: RingPart, after: RingPart, section: bool)
  {
    || after == ring
    || after == ring.(stop := true)
    || (section && ring.stop && ring.lock.None? && after == ring.(fifo := CloseIfEmpty(ring.fifo)))
  }

  lemma ShutStopsRing(c: Config, s: State, i: nat, failed: bool)
    requires s.once.stop.Running? && s.once.stop.at.StopRingSection? ==> s.ring.stop
    requires ShutEnabled(s, i)
    ensures var w := ShutRow(c, s, i, failed);
      && StopsRing(s.ring, w.ring, true)
      && (w.once.Running? && w.once.at.StopRingSection? ==> w.ring.stop)
  {
    if s.callers[i].Shutting? {
      match s.once.stop.at
      case StopRing =>
      case StopRingSection =>
      case _ =>
    }
  }

  lemma StoppedRing(s: State, t: State)
    requires RingLock(s) && ExitClosed(s) && StopsRing(s.ring, t.ring, true)
    requires t.producers == s.producers && t.req == s.req && t.once.drain == s.once.drain
    requires t.once.stop.Running? && t.once.stop.at.StopRingSection? ==> t.ring.stop
    ensures RingLock(t) && ExitClosed(t)
  {
  }

  lemma RingByShut(c: Config, s: State, i: nat, failed: bool)
    requires RingLock(s) && ExitClosed(s) && ShutEnabled(s, i)
    ensures RingLock(AfterShutting(c, s, i, failed)) && ExitClosed(AfterShutting(c, s, i, failed))
    ensures s.ring.fifo.exitClosed ==> AfterShutting(c, s, i, failed).ring.fifo.exitClosed
  {
    ShutStopsRing(c, s, i, failed);
    StoppedRing(s, AfterShutting(c, s, i, failed));
  }

  lemma ShapeByShut(c: Config, s: State, i: nat, failed: bool)
    requires Shape(c, s) && ShutEnabled(s, i)
    ensures Shape(c, AfterShutting(c, s, i, failed))
  {
    OnceByShut(c, s, i, failed);
    RingByShut(c, s, i, failed);
  }

  lemma FlowByShut(c: Config, s: State, i: nat, failed: bool)
    requires Flow(c, s) && OnceProgress(c, s) && ShutEnabled(s, i)
    ensures Flow(c, AfterShutting(c, s, i, failed))
  {
  }

  lemma CountsByShut(c: Config, s: State, i: nat, failed: bool)
    requires Counts(s) && HandOver(s) && OnceProgress(c, s) && ShutEnabled(s, i)
    ensures Counts(AfterShutting(c, s, i, failed))
  {
  }

  lemma LedgerByShut(c: Config, s: State, i: nat, failed: bool)
    requires Ledger(c, s) && HandOver(s) && OnceProgress(c, s) && ShutEnabled(s, i)
    ensures Ledger(c, AfterShutting(c, s, i, failed))
  {
  }

  lemma CoreByShut(c: Config, s: State, i: nat, failed: bool)
    requires Core(c, s) && ShutEnabled(s, i)
    ensures Core(c, AfterShutting(c, s, i, failed))
  {
    ShapeByShut(c, s, i, failed);
    FlowByShut(c, s, i, failed);
    CountsByShut(c, s, i, failed);
    LedgerByShut(c, s, i, failed);
  }

  lemma CoreByRelease(c: Config, s: State, i: nat, expired: bool)
    requires Core(c, s) && ReleaseEnabled(s, i, expired)
    ensures Core(c, AfterReleasing(c, s, i, expired))
  {
  }

  // ---------------------------------------------------------------- release

  /** An idle group after a finished drain means nothing is in flight. */
  lemma IdleIsSettled(c: Config, s: State)
    requires GroupCount(s) && HandOver(s) && Drained(c, s) && s.group.active == 0
    ensures Settled(c, s)
  {
    forall i | 0 <= i < |s.wrappers| ensures s.wrappers[i].pc.Finished? {
      CountZero(s.wrappers, i, Alive);
    }
  }

  /** What every step does to the facts that callers rely on. */
  ghost predicate Advances(c: Config, s: State, t: State)
  {
    && (Ended(s) ==> Ended(t)) && (Drained(c, s) ==> Drained(c, t)) && (Settled(c, s) ==> Settled(c, t))
    && (t.group.closed && Drained(c, t) ==> Settled(c, t))
    && s.group.generation <= t.group.generation
    && (s.group.generation < t.group.generation ==> s.group.closed)
  }

  /** Settled for good: no wrapper is added and, externally, no further Request is made. */
  ghost predicate Frozen(c: Config, s: State, t: State)
  {
    && Settled(c, t) && t.wrappers == s.wrappers
    && (!c.inMemory ==> t.hist.requestCalls == s.hist.requestCalls)
  }

  lemma ClaimSurvives(c: Config, s: State, t: State, p: Caller)
    requires Claim(p, c.inMemory, Ended(s), Drained(c, s), Settled(c, s), s.group)
    requires Advances(c, s, t)
    ensures Claim(p, c.inMemory, Ended(t), Drained(c, t), Settled(c, t), t.group)
  {
  }

  /** A step that moves no caller keeps the claims. */
  lemma OthersAdvance(c: Config, s: State, t: State)
    requires ReleaseProgress(c, s) && ShutdownOrigin(c, s) && Advances(c, s, t)
    requires t.callers == s.callers && t.worker == s.worker && t.once.stop == s.once.stop
    requires t.hist.directShutdown == s.hist.directShutdown
    ensures ReleaseProgress(c, t) && ShutdownOrigin(c, t)
  {
    forall i | 0 <= i < |t.callers|
      ensures Claim(t.callers[i], c.inMemory, Ended(t), Drained(c, t), Settled(c, t), t.group)
    {
      ClaimSurvives(c, s, t, s.callers[i]);
    }
  }

  /** A step that moves caller `i` to `p` keeps them if `p` makes its own claim good. */
  lemma OneAdvances(c: Config, s: State, t: State, i: nat, p: Caller)
    requires ReleaseProgress(c, s) && Advances(c, s, t)
    requires i < |s.callers| && t.callers == s.callers[i := p]
    requires Claim(p, c.inMemory, Ended(t), Drained(c, t), Settled(c, t), t.group)
    ensures ReleaseProgress(c, t)
  {
    forall j | 0 <= j < |t.callers|
      ensures Claim(t.callers[j], c.inMemory, Ended(t), Drained(c, t), Settled(c, t), t.group)
    {
      if j != i { ClaimSurvives(c, s, t, s.callers[j]); }
    }
  }

  /** A step advances if it keeps the core, keeps Settled, and never reopens anything. */
  lemma CoreAdvances(c: Config, s: State, t: State)
    requires Core(c, s) && Core(c, t)
    requires Settled(c, s) ==> Settled(c, t)
    requires (s.drainFlag ==> t.drainFlag) && (s.adm.done.Closed? ==> t.adm.done.Closed?)
    requires s.ring.fifo.exitClosed ==> t.ring.fifo.exitClosed
    requires t.group == s.group || t.group == RG.Register(s.group) || t.group == GroupDone(s.group)
    ensures Advances(c, s, t)
  {
    if t.group.closed && Drained(c, t) { IdleIsSettled(c, t); }
  }

  /** A step that moves no caller keeps the invariant if it keeps the core and Settled and reopens nothing. */
  lemma InvAdvances(c: Config, s: State, t: State)
    requires Inv(c, s) && Core(c, t) && (Settled(c, s) ==> Settled(c, t))
    requires (s.drainFlag ==> t.drainFlag) && (s.adm.done.Closed? ==> t.adm.done.Closed?)
    requires s.ring.fifo.exitClosed ==> t.ring.fifo.exitClosed
    requires t.group == s.group || t.group == RG.Register(s.group) || t.group == GroupDone(s.group)
    requires t.callers == s.callers && t.worker == s.worker && t.once.stop == s.once.stop
    requires t.hist.directShutdown == s.hist.directShutdown
    ensures Inv(c, t)
  {
    CoreAdvances(c, s, t);
    OthersAdvance(c, s, t);
  }

  lemma AdvancesBySubmit(c: Config, s: State, task: Task)
    requires Inv(c, s)
    ensures Inv(c, AfterSubmit(s, task))
  {
    CoreBySubmit(c, s, task);
    CoreAdvances(c, s, AfterSubmit(s, task));
    OthersAdvance(c, s, AfterSubmit(s, task));
  }

  lemma AdvancesByProducer(c: Config, s: State, i: nat, st: ProducerStep)
    requires Inv(c, s) && ProducerEnabled(c, s, i, st)
    ensures Inv(c, AfterProducer(c, s, i, st))
  {
    CoreByProducer(c, s, i, st);
    CoreAdvances(c, s, AfterProducer(c, s, i, st));
    OthersAdvance(c, s, AfterProducer(c, s, i, st));
  }

  lemma SettledBySchedule(c: Config, s: State, st: ScheduleStep)
    requires Settled(c, s) && HandOver(s) && ScheduleEnabled(c, s, st)
    ensures Frozen(c, s, AfterSchedule(c, s, st))
  {
  }

  lemma AdvancesBySchedule(c: Config, s: State, st: ScheduleStep)
    requires Inv(c, s) && ScheduleEnabled(c, s, st)
    ensures Inv(c, AfterSchedule(c, s, st))
  {
    var t := AfterSchedule(c, s, st);
    CoreBySchedule(c, s, st);
    if Settled(c, s) { SettledBySchedule(c, s, st); }
    CoreAdvances(c, s, t);
    var who := ScheduleCaller(s, st);
    if who.OfCaller? && t.qlock.Free? {
      OneAdvances(c, s, t, who.i, Over);
    } else {
      OthersAdvance(c, s, t);
    }
  }

  lemma SettledBySched(c: Config, s: State, st: SchedulerStep)
    requires Settled(c, s) && HandOver(s) && SchedulerEnabled(c, s, st)
    ensures Frozen(c, s, AfterSched(c, s, st))
  {
  }

  lemma SchedReopensNothing(c: Config, s: State, st: SchedulerStep)
    requires SchedulerEnabled(c, s, st)
    ensures var t := AfterSched(c, s, st);
      t.group == s.group || t.group == RG.Register(s.group) || t.group == GroupDone(s.group)
  {
  }

  lemma AdvancesBySched(c: Config, s: State, st: SchedulerStep)
    requires Inv(c, s) && SchedulerEnabled(c, s, st)
    ensures Inv(c, AfterSched(c, s, st))
  {
    CoreBySched(c, s, st);
    if Settled(c, s) { SettledBySched(c, s, st); }
    SchedReopensNothing(c, s, st);
    InvAdvances(c, s, AfterSched(c, s, st));
  }

  lemma SettledByRequest(c: Config, s: State, st: RequestStep)
    requires Settled(c, s) && HandOver(s) && ExitClosed(s) && RequestEnabled(c, s, st)
    ensures Frozen(c, s, AfterRequest(c, s, st))
  {
  }

  lemma RequestReopensNothing(c: Config, s: State, st: RequestStep)
    requires RequestEnabled(c, s, st)
    ensures var t := AfterRequest(c, s, st);
      && (s.ring.fifo.exitClosed ==> t.ring.fifo.exitClosed)
      && (t.group == s.group || t.group == GroupDone(s.group))
      && t.hist.directShutdown == s.hist.directShutdown
  {
  }

  lemma AdvancesByRequest(c: Config, s: State, st: RequestStep)
    requires Inv(c, s) && RequestEnabled(c, s, st)
    ensures Inv(c, AfterRequest(c, s, st))
  {
    CoreByRequest(c, s, st);
    if Settled(c, s) { SettledByRequest(c, s, st); }
    RequestReopensNothing(c, s, st);
    InvAdvances(c, s, AfterRequest(c, s, st));
  }

  lemma AdvancesByWork(c: Config, s: State, i: nat, st: WrapperStep)
    requires Inv(c, s) && WrapperEnabled(c, s, i, st)
    ensures Inv(c, AfterWork(c, s, i, st))
  {
    CoreByWork(c, s, i, st);
    CoreAdvances(c, s, AfterWork(c, s, i, st));
    OthersAdvance(c, s, AfterWork(c, s, i, st));
  }

  lemma AdvancesByCall(c: Config, s: State, op: Operation)
    requires Inv(c, s) && OperationEnabled(s, op)
    ensures Inv(c, AfterCall(s, op))
  {
    var t := AfterCall(s, op);
    CoreByCall(c, s, op);
    CoreAdvances(c, s, t);
    forall j | 0 <= j < |t.callers|
      ensures Claim(t.callers[j], c.inMemory, Ended(t), Drained(c, t), Settled(c, t), t.group)
    {
      if j < |s.callers| { ClaimSurvives(c, s, t, s.callers[j]); }
    }
  }

  lemma SettledByStart(c: Config, s: State, i: nat)
    requires HandOver(s) && OnceProgress(c, s) && StartEnabled(s, i)
    ensures Settled(c, s) ==> Frozen(c, s, AfterStarting(s, i))
    ensures var p := StartRow(s, i).pc;
      !PastDrain(p) && !p.WaitExit? && !p.CaptureIdle? && !p.WaitIdle? && !FromShutdown(p)
  {
  }

  lemma AdvancesByStart(c: Config, s: State, i: nat)
    requires Inv(c, s) && StartEnabled(s, i)
    ensures Inv(c, AfterStarting(s, i))
  {
    var t := AfterStarting(s, i);
    CoreByStart(c, s, i);
    SettledByStart(c, s, i);
    CoreAdvances(c, s, t);
    OneAdvances(c, s, t, i, t.callers[i]);
  }

  lemma SettledByClose(c: Config, s: State, i: nat)
    requires Settled(c, s) && OnceProgress(c, s) && CloseEnabled(s, i)
    ensures Frozen(c, s, AfterClosing(c, s, i))
  {
  }

  lemma CloseClaims(c: Config, s: State, i: nat)
    requires Shape(c, s) && CloseEnabled(s, i)
    ensures var t := AfterClosing(c, s, i);
      && (s.drainFlag ==> t.drainFlag) && (s.adm.done.Closed? ==> t.adm.done.Closed?)
      && (s.ring.fifo.exitClosed ==> t.ring.fifo.exitClosed)
      && (CloseRow(c, s, i).pc.CloseEnter? || CloseRow(c, s, i).pc.Closing? || CloseRow(c, s, i).pc.WaitAdmissions? ||
          CloseRow(c, s, i).pc.Over?)
  {
  }

  lemma AdvancesByClose(c: Config, s: State, i: nat)
    requires Inv(c, s) && CloseEnabled(s, i)
    ensures Inv(c, AfterClosing(c, s, i))
  {
    var t := AfterClosing(c, s, i);
    CoreByClose(c, s, i);
    CloseClaims(c, s, i);
    if Settled(c, s) { SettledByClose(c, s, i); }
    CoreAdvances(c, s, t);
    OneAdvances(c, s, t, i, CloseRow(c, s, i).pc);
  }

  /** Where a Shutdown call goes next depends only on who made it. */
  lemma ShutMoves(c: Config, s: State, i: nat, failed: bool)
    requires ShutEnabled(s, i)
    ensures var p := ShutRow(c, s, i, failed).pc; var r := s.callers[i].releasing;
      && (p == s.callers[i] || p == Shutting(r) || p == AfterShut(r))
      && (s.callers[i].ShutEnter? || s.callers[i].Shutting?)
  {
  }

  lemma AdvancesByShut(c: Config, s: State, i: nat, failed: bool)
    requires Inv(c, s) && ShutEnabled(s, i)
    ensures Inv(c, AfterShutting(c, s, i, failed))
  {
    var t := AfterShutting(c, s, i, failed);
    CoreByShut(c, s, i, failed);
    RingByShut(c, s, i, failed);
    ShutMoves(c, s, i, failed);
    CoreAdvances(c, s, t);
    OneAdvances(c, s, t, i, t.callers[i]);
  }

  lemma AdvancesByRelease(c: Config, s: State, i: nat, expired: bool)
    requires Inv(c, s) && ReleaseEnabled(s, i, expired)
    ensures Inv(c, AfterReleasing(c, s, i, expired))
  {
    var t := AfterReleasing(c, s, i, expired);
    CoreByRelease(c, s, i, expired);
    CoreAdvances(c, s, t);
    OneAdvances(c, s, t, i, ReleaseRow(c, s, i, expired));
  }

  lemma AdvancesByDesired(c: Config, s: State, state: L.DesiredState)
    requires Inv(c, s) && L.EnterState(s.life, state).Some?
    ensures Inv(c, s.(life := L.EnterState(s.life, state).value))
  {
  }
}
