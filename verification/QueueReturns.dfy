/** What has happened once ReleaseContext, Shutdown or Start returned. */
module QueueReturns {
  import opened QueueModel
  import opened QueueInvariants
  import opened QueueTheorems
  import opened QueueProgress
  import opened QueueCounts

  // ---------------------------------------------------------------- ReleaseContext shuts down

  /** A ReleaseContext past its Shutdown call. */
  predicate PastShutdown(p: Caller) { (p.CaptureIdle? && !p.first) || (p.WaitIdle? && !p.first) || p.ReleasedNil? }

  predicate WorkerDown(stop: Once<ShutPc>) { stop.Completed? || (stop.Running? && stop.at.CloseQuit?) }

  ghost predicate ReturnsOf(c: Config, callers: seq<Caller>, stop: Once<ShutPc>, failed: bool, worker: WorkerShutdown)
  {
    && (forall i :: 0 <= i < |callers| && PastShutdown(callers[i]) ==> stop.Completed?)
    && (forall i :: 0 <= i < |callers| && callers[i].ReleasedNil? ==> !failed)
    && (!c.inMemory && WorkerDown(stop) ==> worker.ShutdownDone?)
  }

  ghost predicate Returns(c: Config, s: State)
  {
    ReturnsOf(c, s.callers, s.once.stop, s.shutdownFailed, s.worker)
  }

  lemma ReturnsByShut(c: Config, s: State, i: nat, failed: bool)
    requires Returns(c, s) && ShutEnabled(s, i) && (!c.inMemory ==> ExternalStop(s.once.stop))
    ensures Returns(c, AfterShutting(c, s, i, failed))
  {
    ShutSummary(c, s, i, failed);
    ShutReports(c, s, i, failed);
    var t := AfterShutting(c, s, i, failed);
    forall j | 0 <= j < |t.callers| && PastShutdown(t.callers[j])
      ensures t.once.stop.Completed? && (t.callers[j].ReleasedNil? ==> !t.shutdownFailed)
    {
      if j != i { assert PastShutdown(s.callers[j]); }
    }
  }

  lemma ShutReports(c: Config, s: State, i: nat, failed: bool)
    requires ShutEnabled(s, i) && (!c.inMemory ==> ExternalStop(s.once.stop))
    ensures var w := ShutRow(c, s, i, failed);
      && !w.pc.ReleasedNil? && (PastShutdown(w.pc) ==> w.once.Completed?)
      && (s.once.stop.Completed? ==> w.once.Completed? && w.shutdownFailed == s.shutdownFailed)
      && (!c.inMemory && WorkerDown(w.once) && !WorkerDown(s.once.stop) ==> w.worker.ShutdownDone?)
      && (WorkerDown(s.once.stop) ==> w.worker == s.worker)
  {
    if s.callers[i].Shutting? {
      match s.once.stop.at
      case StopSection =>
      case LoadDrain' =>
      case StopRing =>
      case StopRingSection =>
      case AwaitExit =>
      case StopWorker =>
      case CloseQuit =>
    }
  }

  lemma ReturnsByRelease(c: Config, s: State, i: nat, expired: bool)
    requires Returns(c, s) && ReleaseEnabled(s, i, expired)
    ensures Returns(c, AfterReleasing(c, s, i, expired))
  {
    var t := AfterReleasing(c, s, i, expired);
    forall j | 0 <= j < |t.callers| && PastShutdown(t.callers[j])
      ensures t.once.stop.Completed? && (t.callers[j].ReleasedNil? ==> !t.shutdownFailed)
    {
      assert PastShutdown(s.callers[j]);
    }
  }

  lemma ReturnsByStart(c: Config, s: State, i: nat)
    requires Returns(c, s) && StartEnabled(s, i)
    ensures Returns(c, AfterStarting(s, i))
  {
  }

  lemma ReturnsByClose(c: Config, s: State, i: nat)
    requires Returns(c, s) && CloseEnabled(s, i)
    ensures Returns(c, AfterClosing(c, s, i))
  {
  }

  lemma ReturnsBySchedule(c: Config, s: State, st: ScheduleStep)
    requires Returns(c, s) && ScheduleEnabled(c, s, st)
    ensures Returns(c, AfterSchedule(c, s, st))
  {
  }

  lemma ReturnsByCall(c: Config, s: State, op: Operation)
    requires Returns(c, s) && OperationEnabled(s, op)
    ensures Returns(c, AfterCall(s, op))
  {
  }

  lemma ReturnsStep(c: Config, s: State, step: Step)
    requires Returns(c, s) && Enabled(c, s, step) && (!c.inMemory ==> ExternalStop(s.once.stop))
    ensures Returns(c, Apply(c, s, step))
  {
    match step
    case OfShut(i, failed) => ReturnsByShut(c, s, i, failed);
    case OfRelease(i, expired) => ReturnsByRelease(c, s, i, expired);
    case OfStart(i) => ReturnsByStart(c, s, i);
    case OfClose(i) => ReturnsByClose(c, s, i);
    case OfSchedule(st) => ReturnsBySchedule(c, s, st);
    case Call(op) => ReturnsByCall(c, s, op);
    case _ =>
  }

  lemma {:induction false} ReturnsRun(c: Config, s: State, steps: seq<Step>, t: State)
    requires Returns(c, s) && (!c.inMemory ==> ExternalStop(s.once.stop)) && Run(c, s, steps, t)
    ensures Returns(c, t)
    decreases |steps|
  {
    if steps == [] {
    } else {
      ReturnsStep(c, s, steps[0]);
      if !c.inMemory { ExternalStopStep(c, s, steps[0]); }
      ReturnsRun(c, Apply(c, s, steps[0]), steps[1..], t);
    }
  }

  /**
   If ReleaseContext returned nil, Shutdown's body has completed: quit is closed, and
   an external worker was shut down and reported no failure.
   */
  lemma ReleaseShutsDown(c: Config, s: State, i: nat)
    requires ValidConfig(c) && Reachable(c, s) && i < |s.callers| && s.callers[i].ReleasedNil?
    ensures s.once.stop.Completed? && s.ch.quit && !s.shutdownFailed && (!c.inMemory ==> s.worker.ShutdownDone?)
  {
    var steps :| Run(c, Initial(c), steps, s);
    ReturnsRun(c, Initial(c), steps, s);
    ReachableInv(c, s);
    assert PastShutdown(s.callers[i]);
  }

  // ---------------------------------------------------------------- Shutdown waits for the ring

  /** The stop body has stopped the ring, or is past that. */
  predicate RingStopped(o: Once<ShutPc>)
  {
    o.Completed? || (o.Running? && (o.at.StopRingSection? || o.at.AwaitExit? || o.at.CloseQuit?))
  }

  /** Before any drain only Shutdown stops the ring, and it goes on only once the exit is closed. */
  ghost predicate RingWaitOf(s: State)
  {
    !s.drainFlag ==>
      && (s.ring.stop ==> RingStopped(s.once.stop)) && !s.shutdownFailed
      && (s.once.stop.Completed? || (s.once.stop.Running? && s.once.stop.at.CloseQuit?) ==> s.ring.fifo.exitClosed)
  }

  lemma RingWaitByShut(c: Config, s: State, i: nat, failed: bool)
    requires c.inMemory && RingWaitOf(s) && ShutEnabled(s, i) && StopProgress(c, s.ch.quit, s.once.stop, s.worker)
    ensures RingWaitOf(AfterShutting(c, s, i, failed))
  {
    if s.callers[i].Shutting? {
      match s.once.stop.at
      case StopSection =>
      case LoadDrain' =>
      case StopRing =>
      case StopRingSection =>
      case AwaitExit =>
      case StopWorker =>
      case CloseQuit =>
    }
  }

  lemma RingWaitByClose(c: Config, s: State, i: nat)
    requires RingWaitOf(s) && CloseEnabled(s, i) && OnceProgress(c, s)
    ensures RingWaitOf(AfterClosing(c, s, i))
  {
  }

  lemma RingWaitByRequest(c: Config, s: State, st: RequestStep)
    requires RingWaitOf(s) && RequestEnabled(c, s, st)
    ensures RingWaitOf(AfterRequest(c, s, st))
  {
  }

  lemma RingWaitByProducer(c: Config, s: State, i: nat, st: ProducerStep)
    requires RingWaitOf(s) && ProducerEnabled(c, s, i, st)
    ensures RingWaitOf(AfterProducer(c, s, i, st))
  {
  }

  lemma RingWaitStep(c: Config, s: State, step: Step)
    requires c.inMemory && Inv(c, s) && RingWaitOf(s) && Enabled(c, s, step)
    ensures RingWaitOf(Apply(c, s, step))
  {
    match step
    case OfShut(i, failed) => RingWaitByShut(c, s, i, failed);
    case OfClose(i) => RingWaitByClose(c, s, i);
    case OfRequest(st) => RingWaitByRequest(c, s, st);
    case OfProducer(i, st) => RingWaitByProducer(c, s, i, st);
    case _ =>
  }

  lemma {:induction false} RingWaitRun(c: Config, s: State, steps: seq<Step>, t: State)
    requires c.inMemory && Inv(c, s) && RingWaitOf(s) && Run(c, s, steps, t)
    ensures Inv(c, t) && RingWaitOf(t)
    decreases |steps|
  {
    if steps == [] {
    } else {
      RingWaitStep(c, s, steps[0]);
      StepKeeps(c, s, steps[0]);
      RingWaitRun(c, Apply(c, s, steps[0]), steps[1..], t);
    }
  }

  /**
   In memory, while nobody has drained: a completed Shutdown found the exit closed,
   so the ring is empty and every accepted task was asked for; it reports no failure.
   */
  lemma ShutdownWaitsForRing(c: Config, s: State)
    requires ValidConfig(c) && c.inMemory && Reachable(c, s) && s.once.stop.Completed? && !s.drainFlag
    ensures s.ring.fifo.exitClosed && s.hist.requested == s.hist.accepted && !s.shutdownFailed
  {
    assert Run(c, Initial(c), [], Initial(c));
    ReachableInv(c, Initial(c));
    var steps :| Run(c, Initial(c), steps, s);
    RingWaitRun(c, Initial(c), steps, s);
  }

  lemma FailureStays(c: Config, s: State, step: Step)
    requires c.inMemory && Inv(c, s) && s.shutdownFailed && Enabled(c, s, step)
    ensures Apply(c, s, step).shutdownFailed
  {
    match step
    case OfShut(i, failed) => FailureStaysByShut(c, s, i, failed);
    case _ =>
  }

  lemma FailureStaysByShut(c: Config, s: State, i: nat, failed: bool)
    requires c.inMemory && StopProgress(c, s.ch.quit, s.once.stop, s.worker) && s.shutdownFailed && ShutEnabled(s, i)
    ensures AfterShutting(c, s, i, failed).shutdownFailed
  {
    if s.callers[i].Shutting? {
      match s.once.stop.at
      case StopSection =>
      case LoadDrain' =>
      case StopRing =>
      case StopRingSection =>
      case AwaitExit =>
      case StopWorker =>
      case CloseQuit =>
    }
  }

  lemma {:induction false} FailureRun(c: Config, s: State, steps: seq<Step>, t: State)
    requires c.inMemory && Inv(c, s) && s.shutdownFailed && Run(c, s, steps, t)
    ensures t.shutdownFailed
    decreases |steps|
  {
    if steps == [] {
    } else {
      FailureStays(c, s, steps[0]);
      StepKeeps(c, s, steps[0]);
      FailureRun(c, Apply(c, s, steps[0]), steps[1..], t);
    }
  }

  lemma SecondStopFails(c: Config, s: State, i: nat, failed: bool)
    requires ShutEnabled(s, i) && s.callers[i].Shutting? && s.once.stop == Running(i, StopRing) && s.ring.stop
    ensures AfterShutting(c, s, i, failed).shutdownFailed
  {
  }

  /**
   In memory, a Shutdown that means to stop the ring and finds it stopped by a drain
   fails, and no ReleaseContext ever returns nil.
   */
  lemma StoppedTwiceFails(c: Config, s: State, i: nat, failed: bool, steps: seq<Step>, t: State, k: nat)
    requires ValidConfig(c) && c.inMemory && Reachable(c, s) && ShutEnabled(s, i) && s.callers[i].Shutting?
    requires s.once.stop == Running(i, StopRing) && s.ring.stop && Run(c, AfterShutting(c, s, i, failed), steps, t)
    requires k < |t.callers|
    ensures !t.callers[k].ReleasedNil?
  {
    var u := AfterShutting(c, s, i, failed);
    SecondStopFails(c, s, i, failed);
    ReachableInv(c, s);
    StepKeeps(c, s, OfShut(i, failed));
    FailureRun(c, u, steps, t);
    var before :| Run(c, Initial(c), before, s);
    ReturnsRun(c, Initial(c), before, s);
    ReturnsStep(c, s, OfShut(i, failed));
    ReturnsRun(c, u, steps, t);
  }

  // ---------------------------------------------------------------- Start and the worker count

  /** Some count in force so far was zero. */
  predicate ZeroSet(n: int, steps: seq<Step>) { n == 0 || Call(OpUpdate(0)) in steps }

  /** A ReleaseContext past its own Start call. */
  predicate PastStart(p: Caller)
  {
    || ((p.CloseEnter? || p.Closing? || p.ShutEnter? || p.Shutting?) && p.releasing)
    || p.WaitAdmissions? || p.WaitExit? || p.CaptureIdle? || p.WaitIdle? || p.ReleasedNil?
  }

  ghost predicate StartedOf(s: State, zero: bool)
  {
    && (s.workers.limit == 0 ==> zero)
    && (forall i :: 0 <= i < |s.callers| && PastStart(s.callers[i]) ==> s.started || s.stopFlag || zero)
  }

  lemma StartedByStart(s: State, i: nat, zero: bool)
    requires StartedOf(s, zero) && StartEnabled(s, i) && (s.once.start.Fresh? || s.started)
    ensures StartedOf(AfterStarting(s, i), zero)
    ensures AfterStarting(s, i).once.start.Fresh? || AfterStarting(s, i).started
  {
    var t := AfterStarting(s, i);
    forall j | 0 <= j < |t.callers| && PastStart(t.callers[j]) ensures t.started || t.stopFlag || zero {
      if j != i { assert PastStart(s.callers[j]); }
    }
  }

  lemma StartedByRelease(c: Config, s: State, i: nat, expired: bool, zero: bool)
    requires c.inMemory && StartedOf(s, zero) && ReleaseEnabled(s, i, expired)
    ensures StartedOf(AfterReleasing(c, s, i, expired), zero)
  {
    var t := AfterReleasing(c, s, i, expired);
    forall j | 0 <= j < |t.callers| && PastStart(t.callers[j]) ensures t.started || t.stopFlag || zero {
      if j != i || PastStart(s.callers[i]) { assert PastStart(s.callers[j]); }
    }
  }

  lemma StartedByClose(c: Config, s: State, i: nat, zero: bool)
    requires StartedOf(s, zero) && CloseEnabled(s, i)
    ensures StartedOf(AfterClosing(c, s, i), zero)
  {
    var t := AfterClosing(c, s, i);
    forall j | 0 <= j < |t.callers| && PastStart(t.callers[j]) ensures t.started || t.stopFlag || zero {
      assert PastStart(s.callers[j]);
    }
  }

  lemma StartedByShut(c: Config, s: State, i: nat, failed: bool, zero: bool)
    requires StartedOf(s, zero) && ShutEnabled(s, i)
    ensures StartedOf(AfterShutting(c, s, i, failed), zero)
  {
    ShutSummary(c, s, i, failed);
    ShutKeepsReleasing(c, s, i, failed);
    var t := AfterShutting(c, s, i, failed);
    forall j | 0 <= j < |t.callers| && PastStart(t.callers[j]) ensures t.started || t.stopFlag || zero {
      assert PastStart(s.callers[j]);
    }
  }

  lemma ShutKeepsReleasing(c: Config, s: State, i: nat, failed: bool)
    requires ShutEnabled(s, i)
    ensures PastStart(ShutRow(c, s, i, failed).pc) ==> PastStart(s.callers[i])
  {
    if s.callers[i].Shutting? {
      match s.once.stop.at
      case StopSection =>
      case LoadDrain' =>
      case StopRing =>
      case StopRingSection =>
      case AwaitExit =>
      case StopWorker =>
      case CloseQuit =>
    }
  }

  lemma StartedByCall(s: State, op: Operation, zero: bool)
    requires StartedOf(s, zero) && OperationEnabled(s, op)
    ensures StartedOf(AfterCall(s, op), zero || op == OpUpdate(0))
  {
    var t := AfterCall(s, op);
    forall j | 0 <= j < |t.callers| && PastStart(t.callers[j]) ensures t.started || t.stopFlag || zero {
      assert PastStart(s.callers[j]);
    }
  }

  lemma StartedBySchedule(c: Config, s: State, st: ScheduleStep, zero: bool)
    requires StartedOf(s, zero) && ScheduleEnabled(c, s, st)
    ensures StartedOf(AfterSchedule(c, s, st), zero)
  {
    var t := AfterSchedule(c, s, st);
    forall j | 0 <= j < |t.callers| && PastStart(t.callers[j]) ensures t.started || t.stopFlag || zero {
      assert PastStart(s.callers[j]);
    }
  }

  lemma StartedStep(c: Config, s: State, step: Step, zero: bool)
    requires c.inMemory && StartedOf(s, zero) && (s.once.start.Fresh? || s.started) && Enabled(c, s, step)
    ensures StartedOf(Apply(c, s, step), zero || step == Call(OpUpdate(0)))
    ensures Apply(c, s, step).once.start.Fresh? || Apply(c, s, step).started
  {
    match step
    case OfStart(i) => StartedByStart(s, i, zero);
    case OfRelease(i, expired) => StartedByRelease(c, s, i, expired, zero);
    case OfClose(i) => StartedByClose(c, s, i, zero);
    case OfShut(i, failed) => StartedByShut(c, s, i, failed, zero);
    case OfSchedule(st) => StartedBySchedule(c, s, st, zero);
    case Call(op) => StartedByCall(s, op, zero);
    case _ =>
  }

  lemma {:induction false} StartedRun(c: Config, s: State, steps: seq<Step>, t: State, zero: bool)
    requires c.inMemory && StartedOf(s, zero) && (s.once.start.Fresh? || s.started) && Run(c, s, steps, t)
    ensures StartedOf(t, zero || Call(OpUpdate(0)) in steps)
    decreases |steps|
  {
    if steps == [] {
    } else {
      StartedStep(c, s, steps[0], zero);
      StartedRun(c, Apply(c, s, steps[0]), steps[1..], t, zero || steps[0] == Call(OpUpdate(0)));
      assert steps == [steps[0]] + steps[1..];
    }
  }

  /**
   In memory, a ReleaseContext that got to closing admission finds the queue started,
   by itself or somebody else, unless Shutdown was called or the count was zero at
   some time.
   */
  lemma ReleaseStartsQueue(c: Config, steps: seq<Step>, s: State, i: nat)
    requires c.inMemory && Run(c, Initial(c), steps, s) && i < |s.callers| && PastStart(s.callers[i])
    ensures s.started || s.stopFlag || ZeroSet(c.workerCount, steps)
  {
    StartedRun(c, Initial(c), steps, s, c.workerCount == 0);
  }

  predicate Passed(p: Caller) { p.Launching'? || (p.Starting? && p.start.EnterStart?) }

  ghost predicate UnstartedOf(s: State)
  {
    && s.workers.limit == 0 && s.sched.NotLaunched? && !s.once.start.Running?
    && forall i :: 0 <= i < |s.callers| ==> !Passed(s.callers[i])
  }

  lemma UnstartedByCall(s: State, op: Operation)
    requires UnstartedOf(s) && OperationEnabled(s, op) && !op.OpUpdate?
    ensures UnstartedOf(AfterCall(s, op))
  {
  }

  lemma UnstartedByShut(c: Config, s: State, i: nat, failed: bool)
    requires UnstartedOf(s) && ShutEnabled(s, i)
    ensures UnstartedOf(AfterShutting(c, s, i, failed))
  {
    ShutSummary(c, s, i, failed);
  }

  lemma UnstartedByStart(s: State, i: nat)
    requires UnstartedOf(s) && StartEnabled(s, i)
    ensures UnstartedOf(AfterStarting(s, i))
  {
    assert !Passed(s.callers[i]);
  }

  lemma UnstartedByOthers(c: Config, s: State, step: Step)
    requires UnstartedOf(s) && Enabled(c, s, step) && (step.OfClose? || step.OfRelease? || step.OfSchedule?)
    ensures UnstartedOf(Apply(c, s, step))
  {
  }

  lemma UnstartedStep(c: Config, s: State, step: Step)
    requires UnstartedOf(s) && Enabled(c, s, step) && !Updates(step)
    ensures UnstartedOf(Apply(c, s, step))
  {
    match step
    case OfStart(i) => UnstartedByStart(s, i);
    case OfShut(i, failed) => UnstartedByShut(c, s, i, failed);
    case Call(op) => UnstartedByCall(s, op);
    case OfClose(_) => UnstartedByOthers(c, s, step);
    case OfRelease(_, _) => UnstartedByOthers(c, s, step);
    case OfSchedule(_) => UnstartedByOthers(c, s, step);
    case _ =>
  }

  lemma {:induction false} UnstartedRun(c: Config, s: State, steps: seq<Step>, t: State)
    requires UnstartedOf(s) && Run(c, s, steps, t) && forall i :: 0 <= i < |steps| ==> !Updates(steps[i])
    ensures UnstartedOf(t)
    decreases |steps|
  {
    if steps == [] {
    } else {
      UnstartedStep(c, s, steps[0]);
      UnstartedRun(c, Apply(c, s, steps[0]), steps[1..], t);
    }
  }

  /** A queue configured with no workers and never given any is never started. */
  lemma NeverStartedWithoutCount(c: Config, steps: seq<Step>, s: State)
    requires c.workerCount == 0 && Run(c, Initial(c), steps, s) && forall i :: 0 <= i < |steps| ==> !Updates(steps[i])
    ensures s.sched.NotLaunched?
  {
    UnstartedRun(c, Initial(c), steps, s);
  }

  // ---------------------------------------------------------------- CloseAdmission gives the ready token back

  /**
   For an external worker, the closer takes the ready token if it is there and
   releases the reservation behind it.
   */
  lemma CloserTakesToken(c: Config, s: State, i: nat)
    requires ValidConfig(c) && !c.inMemory && Reachable(c, s) && CloseEnabled(s, i)
    requires s.callers[i].Closing? && s.once.drain == Running(i, TakeReady')
    ensures var t := AfterClosing(c, s, i); !t.ch.ready && CloseEnabled(t, i) == s.ch.ready
    ensures s.ch.ready ==>
              var u := AfterClosing(c, AfterClosing(c, s, i), i);
              u.once.drain.Completed? && (c.managed ==> u.life.admissions == s.life.admissions - 1)
  {
    ReachableInv(c, s);
  }

  // ---------------------------------------------------------------- draining stops requests

  /** The loop is past its last look at the drain and has not asked for a task. */
  predicate MayAsk(s: State)
  {
    s.sched.CheckingCapacity? || s.sched.Spawning? || s.req.Reserving? || s.req.PollingQuit?
  }

  /** Requests made and the one that may still be made. */
  ghost function Asked(s: State): nat { s.hist.requestCalls + One(MayAsk(s)) }

  lemma AskedBySched(c: Config, s: State, st: SchedulerStep)
    requires !c.inMemory && s.drainFlag && HandOver(s) && SchedulerEnabled(c, s, st)
    ensures Asked(AfterSched(c, s, st)) <= Asked(s)
  {
  }

  lemma AskedByRequest(c: Config, s: State, st: RequestStep)
    requires s.drainFlag && s.ch.drain && HandOver(s) && RequestEnabled(c, s, st)
    ensures Asked(AfterRequest(c, s, st)) <= Asked(s)
  {
  }

  lemma AskedBySchedule(c: Config, s: State, st: ScheduleStep)
    requires ScheduleEnabled(c, s, st)
    ensures Asked(AfterSchedule(c, s, st)) <= Asked(s)
  {
  }

  lemma AskedByStart(s: State, i: nat)
    requires StartEnabled(s, i)
    ensures Asked(AfterStarting(s, i)) <= Asked(s)
  {
  }

  lemma AskedStep(c: Config, s: State, step: Step)
    requires Inv(c, s) && !c.inMemory && s.drainFlag && s.ch.drain && Enabled(c, s, step)
    ensures Asked(Apply(c, s, step)) <= Asked(s)
  {
    match step
    case OfSched(st) => AskedBySched(c, s, st);
    case OfRequest(st) => AskedByRequest(c, s, st);
    case OfSchedule(st) => AskedBySchedule(c, s, st);
    case OfStart(i) => AskedByStart(s, i);
    case _ =>
  }

  lemma DrainStays(c: Config, s: State, step: Step)
    requires Enabled(c, s, step) && s.drainFlag && s.ch.drain
    ensures Apply(c, s, step).drainFlag && Apply(c, s, step).ch.drain
  {
    match step
    case OfRequest(st) => DrainStaysByRequest(c, s, st);
    case OfClose(i) => DrainStaysByClose(c, s, i);
    case _ =>
  }

  lemma DrainStaysByRequest(c: Config, s: State, st: RequestStep)
    requires RequestEnabled(c, s, st)
    ensures AfterRequest(c, s, st).ch.drain == s.ch.drain
  {
  }

  lemma DrainStaysByClose(c: Config, s: State, i: nat)
    requires CloseEnabled(s, i)
    ensures s.drainFlag ==> AfterClosing(c, s, i).drainFlag
    ensures s.ch.drain ==> AfterClosing(c, s, i).ch.drain
  {
  }

  lemma {:induction false} AskedRun(c: Config, s: State, steps: seq<Step>, t: State)
    requires Inv(c, s) && !c.inMemory && s.drainFlag && s.ch.drain && Run(c, s, steps, t)
    ensures Asked(t) <= Asked(s)
    decreases |steps|
  {
    if steps == [] {
    } else {
      AskedStep(c, s, steps[0]);
      DrainStays(c, s, steps[0]);
      StepKeeps(c, s, steps[0]);
      AskedRun(c, Apply(c, s, steps[0]), steps[1..], t);
    }
  }

  /**
   For an external worker, once the drain channel is closed at most one more request
   is ever made, and none unless the loop was past its last look at the drain.
   */
  lemma DrainStopsRequests(c: Config, s: State, steps: seq<Step>, t: State)
    requires ValidConfig(c) && !c.inMemory && Reachable(c, s) && s.ch.drain && Run(c, s, steps, t)
    ensures t.hist.requestCalls <= s.hist.requestCalls + if MayAsk(s) then 1 else 0
  {
    ReachableInv(c, s);
    AskedRun(c, s, steps, t);
  }
}
