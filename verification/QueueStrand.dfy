/**
 When a drain or a shutdown leaves an accepted task behind in the ring. The
 scheduling loop leaves on the quit channel, on a closed task channel, or after a
 request that found no task once draining began. Whether a task can be stranded
 after that is decided by what the ring and the producers hold at that moment.
 */
module QueueStrand {
  import opened Wrappers
  import opened QueueModel
  import opened QueueInvariants
  import opened QueueSteps
  import opened QueueTheorems

  /** The scheduler is gone and an accepted task is still in the ring. */
  ghost predicate Stranded(s: State) { s.sched.Gone? && s.ring.fifo.items != [] }

  ghost predicate CanStrand(c: Config, s: State) { exists steps, t :: Run(c, s, steps, t) && Stranded(t) }

  /**
   The loop can only leave: it is leaving or gone, or the message that makes it
   leave is received, sent or about to be sent, or the task channel is closed.
   */
  predicate Committed(s: State)
  {
    || s.sched.Leaving? || s.sched.Gone?
    || (s.sched.GotNil? && s.drainFlag)
    || (s.sched.Receiving? && s.ch.tasksClosed)
    || (s.sched.Receiving? && s.drainFlag && (s.ch.tasks == Some(None) || s.req == Sending(None)))
  }

  /** A producer has passed the stop check, or was admitted and will pass it. */
  predicate CanAdd(p: Producer, stop: bool) { (p.InRing? && !p.stopped) || (p.Admitted? && !stop) }

  /** The ring holds a task, or a producer can still add one. */
  ghost predicate Backlog(s: State)
  {
    s.ring.fifo.items != [] || exists i :: 0 <= i < |s.producers| && CanAdd(s.producers[i], s.ring.stop)
  }

  // ---------------------------------------------------------------- three more facts about every run

  predicate StopRaised(o: Once<ShutPc>) { o.Completed? || (o.Running? && !o.at.StopSection?) }

  ghost predicate LockedByOf(producers: seq<Producer>, ring: RingPart)
  {
    ring.lock.Some? && ring.lock.value.ByProducer? ==>
      ring.lock.value.i < |producers| && producers[ring.lock.value.i].InRing?
  }

  /** Shutdown raised the stop flag; the ring's lock has its holder; the loop leaves only once admission is closed. */
  ghost predicate Exits(s: State)
  {
    && (StopRaised(s.once.stop) ==> s.stopFlag)
    && LockedByOf(s.producers, s.ring)
    && (s.sched.Leaving? || s.sched.Gone? ==> !Admits(s))
  }

  lemma ExitsByProducer(c: Config, s: State, i: nat, st: ProducerStep)
    requires Exits(s) && RingLock(s) && ProducerEnabled(c, s, i, st)
    ensures Exits(AfterProducer(c, s, i, st))
  {
  }

  lemma ExitsBySched(c: Config, s: State, st: SchedulerStep)
    requires c.inMemory && Exits(s) && OnceProgress(c, s) && Leaks(s) && SchedulerEnabled(c, s, st)
    requires !s.sched.TookReady? && !s.sched.LeavingReserved?
    ensures Exits(AfterSched(c, s, st))
  {
  }

  lemma ExitsByRequest(c: Config, s: State, st: RequestStep)
    requires Exits(s) && RingLock(s) && RequestEnabled(c, s, st)
    ensures Exits(AfterRequest(c, s, st))
  {
  }

  lemma ExitsByShut(c: Config, s: State, i: nat, failed: bool)
    requires Exits(s) && ShutEnabled(s, i)
    ensures Exits(AfterShutting(c, s, i, failed))
  {
  }

  lemma ExitsByClose(c: Config, s: State, i: nat)
    requires Exits(s) && CloseEnabled(s, i)
    ensures Exits(AfterClosing(c, s, i))
  {
  }

  lemma ExitsByStart(c: Config, s: State, i: nat)
    requires Exits(s) && OnceProgress(c, s) && StartEnabled(s, i)
    ensures Exits(AfterStarting(s, i))
  {
  }

  lemma ExitsBySchedule(c: Config, s: State, st: ScheduleStep)
    requires Exits(s) && ScheduleEnabled(c, s, st)
    ensures Exits(AfterSchedule(c, s, st))
  {
  }

  /** In memory the loop never looks at the drain flag before a request. */
  ghost predicate Memory(s: State) { !s.sched.TookReady? && !s.sched.LeavingReserved? }

  lemma MemoryStep(c: Config, s: State, step: Step)
    requires c.inMemory && Memory(s) && Enabled(c, s, step)
    ensures Memory(Apply(c, s, step))
  {
  }

  lemma ExitsStep(c: Config, s: State, step: Step)
    requires c.inMemory && Inv(c, s) && Exits(s) && Memory(s) && Enabled(c, s, step)
    ensures Exits(Apply(c, s, step))
  {
    match step
    case OfProducer(i, st) => ExitsByProducer(c, s, i, st);
    case OfSchedule(st) => ExitsBySchedule(c, s, st);
    case OfSched(st) => ExitsBySched(c, s, st);
    case OfRequest(st) => ExitsByRequest(c, s, st);
    case OfStart(i) => ExitsByStart(c, s, i);
    case OfClose(i) => ExitsByClose(c, s, i);
    case OfShut(i, failed) => ExitsByShut(c, s, i, failed);
    case _ =>
  }

  lemma {:induction false} ExitsRun(c: Config, s: State, steps: seq<Step>, t: State)
    requires c.inMemory && Inv(c, s) && Exits(s) && Memory(s) && Run(c, s, steps, t)
    ensures Inv(c, t) && Exits(t) && Memory(t)
    decreases |steps|
  {
    if steps == [] {
    } else {
      StepKeeps(c, s, steps[0]);
      ExitsStep(c, s, steps[0]);
      MemoryStep(c, s, steps[0]);
      ExitsRun(c, Apply(c, s, steps[0]), steps[1..], t);
    }
  }

  lemma ReachableExits(c: Config, s: State)
    requires ValidConfig(c) && c.inMemory && Reachable(c, s)
    ensures Inv(c, s) && Exits(s) && Memory(s)
  {
    var steps :| Run(c, Initial(c), steps, s);
    ExitsRun(c, Initial(c), steps, s);
  }

  // ---------------------------------------------------------------- a committed loop stays committed

  lemma CommittedBySched(c: Config, s: State, st: SchedulerStep)
    requires Committed(s) && HandOver(s) && SchedulerEnabled(c, s, st)
    ensures Committed(AfterSched(c, s, st))
  {
  }

  lemma CommittedByRequest(c: Config, s: State, st: RequestStep)
    requires Committed(s) && HandOver(s) && RequestEnabled(c, s, st)
    ensures Committed(AfterRequest(c, s, st))
  {
  }

  lemma CommittedByStart(c: Config, s: State, i: nat)
    requires Committed(s) && OnceProgress(c, s) && StartEnabled(s, i)
    ensures Committed(AfterStarting(s, i))
  {
  }

  lemma CommittedByClose(c: Config, s: State, i: nat)
    requires Committed(s) && CloseEnabled(s, i)
    ensures Committed(AfterClosing(c, s, i))
  {
  }

  lemma CommittedBySchedule(c: Config, s: State, st: ScheduleStep)
    requires Committed(s) && ScheduleEnabled(c, s, st)
    ensures Committed(AfterSchedule(c, s, st))
  {
  }

  lemma CommittedStep(c: Config, s: State, step: Step)
    requires Inv(c, s) && Committed(s) && Enabled(c, s, step)
    ensures Committed(Apply(c, s, step))
  {
    match step
    case OfSchedule(st) => CommittedBySchedule(c, s, st);
    case OfSched(st) => CommittedBySched(c, s, st);
    case OfRequest(st) => CommittedByRequest(c, s, st);
    case OfStart(i) => CommittedByStart(c, s, i);
    case OfClose(i) => CommittedByClose(c, s, i);
    case _ =>
  }

  lemma CommittedShuts(c: Config, s: State)
    requires OnceProgress(c, s) && Leaks(s) && HandOver(s) && Exits(s) && Committed(s)
    ensures !Admits(s)
  {
  }

  // ---------------------------------------------------------------- without a backlog

  lemma EmptyByProducer(c: Config, s: State, i: nat, st: ProducerStep)
    requires !Backlog(s) && ProducerEnabled(c, s, i, st)
    ensures !Backlog(AfterProducer(c, s, i, st))
  {
    var t := AfterProducer(c, s, i, st);
    assert !CanAdd(s.producers[i], s.ring.stop);
    forall j | 0 <= j < |t.producers| ensures !CanAdd(t.producers[j], t.ring.stop) {
      assert !CanAdd(s.producers[j], s.ring.stop);
    }
  }

  /** The ring gains nothing, and the stop flag is not taken back. */
  ghost predicate NoMore(s: State, t: State)
  {
    && (s.ring.fifo.items == [] ==> t.ring.fifo.items == []) && (s.ring.stop ==> t.ring.stop)
    && t.producers == s.producers
  }

  lemma EmptyByNoMore(s: State, t: State)
    requires !Backlog(s) && NoMore(s, t)
    ensures !Backlog(t)
  {
    forall j | 0 <= j < |t.producers| ensures !CanAdd(t.producers[j], t.ring.stop) {
      assert !CanAdd(s.producers[j], s.ring.stop);
    }
  }

  lemma EmptyBySubmit(s: State, task: Task)
    requires !Backlog(s) && !Admits(s)
    ensures !Backlog(AfterSubmit(s, task))
  {
    var t := AfterSubmit(s, task);
    forall j | 0 <= j < |t.producers| ensures !CanAdd(t.producers[j], t.ring.stop) {
      if j < |s.producers| { assert !CanAdd(s.producers[j], s.ring.stop); }
    }
  }

  lemma NoMoreByRequest(c: Config, s: State, st: RequestStep)
    requires RequestEnabled(c, s, st)
    ensures NoMore(s, AfterRequest(c, s, st))
  {
  }

  lemma NoMoreByShut(c: Config, s: State, i: nat, failed: bool)
    requires ShutEnabled(s, i)
    ensures NoMore(s, AfterShutting(c, s, i, failed))
  {
    if s.callers[i].Shutting? {
      match s.once.stop.at
      case StopRing =>
      case StopRingSection =>
      case _ =>
    }
  }

  lemma NoMoreByClose(c: Config, s: State, i: nat)
    requires CloseEnabled(s, i)
    ensures NoMore(s, AfterClosing(c, s, i))
  {
  }

  lemma NoMoreStep(c: Config, s: State, step: Step)
    requires Enabled(c, s, step) && !step.Submit? && !step.OfProducer?
    ensures NoMore(s, Apply(c, s, step))
  {
    match step
    case OfRequest(st) => NoMoreByRequest(c, s, st);
    case OfClose(i) => NoMoreByClose(c, s, i);
    case OfShut(i, failed) => NoMoreByShut(c, s, i, failed);
    case _ =>
  }

  lemma EmptyStep(c: Config, s: State, step: Step)
    requires Inv(c, s) && Exits(s) && Committed(s) && !Backlog(s) && Enabled(c, s, step)
    ensures !Backlog(Apply(c, s, step))
  {
    if step.Submit? {
      CommittedShuts(c, s);
      EmptyBySubmit(s, step.task);
    } else if step.OfProducer? {
      EmptyByProducer(c, s, step.i, step.producer);
    } else {
      NoMoreStep(c, s, step);
      EmptyByNoMore(s, Apply(c, s, step));
    }
  }

  lemma {:induction false} EmptyRun(c: Config, s: State, steps: seq<Step>, t: State)
    requires c.inMemory && Inv(c, s) && Exits(s) && Memory(s) && Committed(s) && !Backlog(s) && Run(c, s, steps, t)
    ensures !Stranded(t)
    decreases |steps|
  {
    if steps == [] {
    } else {
      StepKeeps(c, s, steps[0]);
      ExitsStep(c, s, steps[0]);
      MemoryStep(c, s, steps[0]);
      CommittedStep(c, s, steps[0]);
      EmptyStep(c, s, steps[0]);
      EmptyRun(c, Apply(c, s, steps[0]), steps[1..], t);
    }
  }

  // ---------------------------------------------------------------- with one

  lemma StepBack(c: Config, s: State, step: Step, u: State)
    requires Enabled(c, s, step) && Apply(c, s, step) == u && CanStrand(c, u)
    ensures CanStrand(c, s)
  {
    var steps, t :| Run(c, u, steps, t) && Stranded(t);
    assert ([step] + steps)[1..] == steps;
    assert Run(c, s, [step] + steps, t);
  }

  lemma FromGone(c: Config, s: State)
    requires s.ring.fifo.items != [] && s.sched.Gone?
    ensures CanStrand(c, s)
  {
    assert Run(c, s, [], s);
  }

  lemma FromLeaving(c: Config, s: State)
    requires s.ring.fifo.items != [] && s.sched.Leaving?
    ensures CanStrand(c, s)
  {
    FromGone(c, AfterSched(c, s, Leave));
    StepBack(c, s, OfSched(Leave), AfterSched(c, s, Leave));
  }

  lemma FromNil(c: Config, s: State)
    requires s.ring.fifo.items != [] && s.sched.GotNil? && s.drainFlag
    ensures CanStrand(c, s)
  {
    FromLeaving(c, AfterSched(c, s, LoadDrainAfterNil));
    StepBack(c, s, OfSched(LoadDrainAfterNil), AfterSched(c, s, LoadDrainAfterNil));
  }

  lemma FromSent(c: Config, s: State)
    requires s.ring.fifo.items != [] && s.sched.Receiving? && HandOver(s)
    requires s.ch.tasksClosed || (s.drainFlag && s.ch.tasks == Some(None))
    ensures CanStrand(c, s)
  {
    var u := AfterSched(c, s, Receive);
    if s.ch.tasks.None? { FromLeaving(c, u); } else { FromNil(c, u); }
    StepBack(c, s, OfSched(Receive), u);
  }

  /** With a task in the ring, a committed loop can go all the way out. */
  lemma LeaveBehind(c: Config, s: State)
    requires Committed(s) && HandOver(s) && s.ring.fifo.items != []
    ensures CanStrand(c, s)
  {
    match s.sched
    case Gone => FromGone(c, s);
    case Leaving => FromLeaving(c, s);
    case GotNil => FromNil(c, s);
    case Receiving =>
      if s.req == Sending(None) && !s.ch.tasksClosed && s.ch.tasks.None? {
        FromSent(c, AfterRequest(c, s, Send));
        StepBack(c, s, OfRequest(Send), AfterRequest(c, s, Send));
      } else {
        FromSent(c, s);
      }
  }

  lemma CommitBehind(c: Config, s: State, i: nat)
    requires Committed(s) && HandOver(s) && s.ring.fifo.items == []
    requires i < |s.producers| && s.producers[i].InRing? && !s.producers[i].stopped
    ensures CanStrand(c, s)
  {
    var u := AfterProducer(c, s, i, CommitRing);
    LeaveBehind(c, u);
    StepBack(c, s, OfProducer(i, CommitRing), u);
  }

  lemma EnterBehind(c: Config, s: State, i: nat)
    requires c.inMemory && Committed(s) && HandOver(s) && RingLock(s) && Exits(s) && s.ring.fifo.items == []
    requires i < |s.producers| && s.producers[i].Admitted? && !s.ring.stop
    ensures CanStrand(c, s)
  {
    if s.ring.lock.None? {
      var u := AfterProducer(c, s, i, EnterRing);
      CommitBehind(c, u, i);
      StepBack(c, s, OfProducer(i, EnterRing), u);
    } else {
      CommitBehind(c, s, s.ring.lock.value.i);
    }
  }

  lemma BacklogStrands(c: Config, s: State)
    requires c.inMemory && Inv(c, s) && Exits(s) && Committed(s) && Backlog(s)
    ensures CanStrand(c, s)
  {
    if s.ring.fifo.items != [] {
      LeaveBehind(c, s);
    } else {
      var i :| 0 <= i < |s.producers| && CanAdd(s.producers[i], s.ring.stop);
      if s.producers[i].InRing? { CommitBehind(c, s, i); } else { EnterBehind(c, s, i); }
    }
  }

  // ---------------------------------------------------------------- exactly when

  /**
   Once the loop of an in-memory queue can only leave, an accepted task can be
   stranded exactly when the ring holds one, or a producer is past the stop check,
   or one was admitted and the ring is not stopped.
   */
  lemma StrandsExactly(c: Config, s: State)
    requires ValidConfig(c) && c.inMemory && Reachable(c, s) && Committed(s)
    ensures CanStrand(c, s) <==>
            || s.ring.fifo.items != []
            || (exists i :: 0 <= i < |s.producers| && CanAdd(s.producers[i], s.ring.stop))
  {
    ReachableExits(c, s);
    if Backlog(s) {
      BacklogStrands(c, s);
    } else if CanStrand(c, s) {
      var steps, t :| Run(c, s, steps, t) && Stranded(t);
      EmptyRun(c, s, steps, t);
    }
  }

  lemma CommitsByRequest(c: Config, s: State, st: RequestStep)
    requires RequestEnabled(c, s, st) && !Committed(s) && Committed(AfterRequest(c, s, st))
    ensures AfterRequest(c, s, st).ring == s.ring
  {
  }

  lemma CommitsByClose(c: Config, s: State, i: nat)
    requires CloseEnabled(s, i) && !Committed(s) && Committed(AfterClosing(c, s, i))
    ensures AfterClosing(c, s, i).ring == s.ring
  {
  }

  lemma CommitsByShut(c: Config, s: State, i: nat, failed: bool)
    requires ShutEnabled(s, i) && Committed(AfterShutting(c, s, i, failed))
    ensures Committed(s)
  {
  }

  /** The steps that commit the loop touch neither the ring nor a producer. */
  lemma CommitLeavesRing(c: Config, s: State, step: Step)
    requires Enabled(c, s, step) && !Committed(s) && Committed(Apply(c, s, step))
    ensures Apply(c, s, step).ring == s.ring && Apply(c, s, step).producers == s.producers
  {
    match step
    case OfRequest(st) => CommitsByRequest(c, s, st);
    case OfClose(i) => CommitsByClose(c, s, i);
    case OfShut(i, failed) => CommitsByShut(c, s, i, failed);
    case _ =>
  }

  /**
   The same at the step that commits the loop, such as taking the quit channel,
   the request goroutine's drain check that finds the flag raised, or the close of
   the task channel: what decides is the backlog just before it.
   */
  lemma CommittingStrandsExactly(c: Config, s: State, step: Step)
    requires ValidConfig(c) && c.inMemory && Reachable(c, s)
    requires Enabled(c, s, step) && !Committed(s) && Committed(Apply(c, s, step))
    ensures CanStrand(c, Apply(c, s, step)) <==> Backlog(s)
  {
    var t := Apply(c, s, step);
    ReachableExits(c, s);
    StepKeeps(c, s, step);
    ExitsStep(c, s, step);
    MemoryStep(c, s, step);
    CommitLeavesRing(c, s, step);
    if Backlog(s) {
      BacklogStrands(c, t);
    } else if steps, u :| Run(c, t, steps, u) && Stranded(u) {
      EmptyRun(c, t, steps, u);
    }
  }

  // ---------------------------------------------------------------- stranded for good

  lemma StrandedStep(c: Config, s: State, step: Step)
    requires c.inMemory && Inv(c, s) && Stranded(s) && Enabled(c, s, step)
    ensures Stranded(Apply(c, s, step))
  {
    match step
    case OfProducer(i, st) => StrandedByProducer(c, s, i, st);
    case OfSchedule(st) => StrandedBySchedule(c, s, st);
    case OfRequest(st) => StrandedByRequest(c, s, st);
    case OfClose(i) => StrandedByClose(c, s, i);
    case OfStart(i) => StrandedByStart(c, s, i);
    case OfShut(i, failed) => StrandedByShut(c, s, i, failed);
    case _ =>
  }

  lemma StrandedBySchedule(c: Config, s: State, st: ScheduleStep)
    requires Stranded(s) && ScheduleEnabled(c, s, st)
    ensures Stranded(AfterSchedule(c, s, st))
  {
  }

  lemma StrandedByShut(c: Config, s: State, i: nat, failed: bool)
    requires Stranded(s) && RingLock(s) && ShutEnabled(s, i)
    ensures Stranded(AfterShutting(c, s, i, failed))
  {
    ShutStopsRing(c, s, i, failed);
  }

  lemma StrandedByRequest(c: Config, s: State, st: RequestStep)
    requires Stranded(s) && HandOver(s) && RequestEnabled(c, s, st)
    ensures Stranded(AfterRequest(c, s, st))
  {
  }

  lemma StrandedByClose(c: Config, s: State, i: nat)
    requires Stranded(s) && CloseEnabled(s, i)
    ensures Stranded(AfterClosing(c, s, i))
  {
  }

  lemma StrandedByStart(c: Config, s: State, i: nat)
    requires Stranded(s) && OnceProgress(c, s) && StartEnabled(s, i)
    ensures Stranded(AfterStarting(s, i))
  {
  }

  lemma StrandedByProducer(c: Config, s: State, i: nat, st: ProducerStep)
    requires Stranded(s) && ProducerEnabled(c, s, i, st)
    ensures Stranded(AfterProducer(c, s, i, st))
  {
  }

  lemma {:induction false} StrandedRun(c: Config, s: State, steps: seq<Step>, t: State)
    requires c.inMemory && Inv(c, s) && Stranded(s) && Run(c, s, steps, t)
    ensures Inv(c, t) && Stranded(t)
    decreases |steps|
  {
    if steps == [] {
    } else {
      StrandedStep(c, s, steps[0]);
      StepKeeps(c, s, steps[0]);
      StrandedRun(c, Apply(c, s, steps[0]), steps[1..], t);
    }
  }

  /** From such a state on, no ReleaseContext ever returns nil, whatever anyone calls. */
  lemma StrandedNeverReleases(c: Config, s: State, steps: seq<Step>, t: State, i: nat)
    requires ValidConfig(c) && c.inMemory && Reachable(c, s) && Stranded(s) && Run(c, s, steps, t) && i < |t.callers|
    ensures !t.callers[i].ReleasedNil? && Stranded(t)
  {
    ReachableInv(c, s);
    StrandedRun(c, s, steps, t);
  }
}
