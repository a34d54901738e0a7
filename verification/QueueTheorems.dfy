/** What holds of the queue in every interleaving. */
module QueueTheorems {
  import opened QueueModel
  import opened QueueInvariants
  import opened QueueSteps

  lemma StepKeeps(c: Config, s: State, step: Step)
    requires Inv(c, s) && Enabled(c, s, step)
    ensures Inv(c, Apply(c, s, step))
  {
    match step
    case Submit(task) => AdvancesBySubmit(c, s, task);
    case OfProducer(i, st) => AdvancesByProducer(c, s, i, st);
    case OfSchedule(st) => AdvancesBySchedule(c, s, st);
    case OfSched(st) => AdvancesBySched(c, s, st);
    case OfRequest(st) => AdvancesByRequest(c, s, st);
    case OfWork(i, st) => AdvancesByWork(c, s, i, st);
    case Call(op) => AdvancesByCall(c, s, op);
    case OfStart(i) => AdvancesByStart(c, s, i);
    case OfClose(i) => AdvancesByClose(c, s, i);
    case OfShut(i, failed) => AdvancesByShut(c, s, i, failed);
    case OfRelease(i, expired) => AdvancesByRelease(c, s, i, expired);
    case SetDesired(state) => AdvancesByDesired(c, s, state);
  }

  lemma {:induction false} RunKeeps(c: Config, s: State, steps: seq<Step>, t: State)
    requires Inv(c, s) && Run(c, s, steps, t)
    ensures Inv(c, t)
    decreases |steps|
  {
    if steps == [] {
    } else {
      StepKeeps(c, s, steps[0]);
      RunKeeps(c, Apply(c, s, steps[0]), steps[1..], t);
    }
  }

  lemma ReachableInv(c: Config, s: State)
    requires ValidConfig(c) && Reachable(c, s)
    ensures Inv(c, s)
  {
    var steps :| Run(c, Initial(c), steps, s);
    RunKeeps(c, Initial(c), steps, s);
  }

  // ---------------------------------------------------------------- settled stays settled

  lemma SettledByProducer(c: Config, s: State, i: nat, st: ProducerStep)
    requires Settled(c, s) && ProducerEnabled(c, s, i, st)
    ensures Frozen(c, s, AfterProducer(c, s, i, st))
  {
  }

  lemma SettledStep(c: Config, s: State, step: Step)
    requires Inv(c, s) && Settled(c, s) && Enabled(c, s, step)
    ensures Frozen(c, s, Apply(c, s, step))
  {
    match step
    case OfProducer(i, st) => SettledByProducer(c, s, i, st);
    case OfSchedule(st) => SettledBySchedule(c, s, st);
    case OfSched(st) => SettledBySched(c, s, st);
    case OfRequest(st) => SettledByRequest(c, s, st);
    case OfStart(i) => SettledByStart(c, s, i);
    case OfClose(i) => SettledByClose(c, s, i);
    case OfShut(i, failed) => RingByShut(c, s, i, failed);
    case _ =>
  }

  lemma {:induction false} SettledRun(c: Config, s: State, steps: seq<Step>, t: State)
    requires Inv(c, s) && Settled(c, s) && Run(c, s, steps, t)
    ensures Frozen(c, s, t)
    decreases |steps|
  {
    if steps == [] {
    } else {
      SettledStep(c, s, steps[0]);
      StepKeeps(c, s, steps[0]);
      SettledRun(c, Apply(c, s, steps[0]), steps[1..], t);
    }
  }

  // ---------------------------------------------------------------- the promises

  /**
   If ReleaseContext on a Ring-backed queue returned nil, then every task the
   Ring ever accepted was dequeued once, in order, given to exactly one wrapper,
   and that wrapper has finished; and nothing is accepted or started afterwards.
   */
  lemma ReleaseDrainsRing(c: Config, s: State, i: nat, steps: seq<Step>, t: State)
    requires ValidConfig(c) && c.inMemory && Reachable(c, s)
    requires i < |s.callers| && s.callers[i].ReleasedNil?
    requires Run(c, s, steps, t)
    ensures t.hist.accepted == TasksOf(t.wrappers) == s.hist.accepted
    ensures forall k :: 0 <= k < |t.wrappers| ==> t.wrappers[k].pc.Finished?
    ensures t.ring.fifo.items == [] && t.adm.count == 0
  {
    ReachableInv(c, s);
    SettledRun(c, s, steps, t);
    RunKeeps(c, s, steps, t);
  }

  lemma {:induction false} NoneAdmitting(ps: seq<Producer>, i: nat)
    requires Count(ps, Admitting) == 0 && i < |ps|
    ensures ps[i].Done?
  {
    CountZero(ps, i, Admitting);
  }

  /**
   For an external worker whose shutdown is reached only through ReleaseContext,
   Worker.Shutdown starts after every accepted enqueue returned, with no Request
   outstanding or ever made again and every requested task's wrapper ended.
   */
  lemma ExternalShutdownIsLast(c: Config, s: State, steps: seq<Step>, t: State)
    requires ValidConfig(c) && !c.inMemory && Reachable(c, s)
    requires !s.worker.NotCalled? && !s.hist.directShutdown
    requires Run(c, s, steps, t)
    ensures forall k :: 0 <= k < |s.producers| ==> s.producers[k].Done?
    ensures s.req.Idle? && t.req.Idle? && t.hist.requestCalls == s.hist.requestCalls
    ensures t.hist.requested == TasksOf(t.wrappers) == s.hist.requested
    ensures forall k :: 0 <= k < |t.wrappers| ==> t.wrappers[k].pc.Finished?
  {
    ReachableInv(c, s);
    SettledRun(c, s, steps, t);
    RunKeeps(c, s, steps, t);
    forall k | 0 <= k < |s.producers| ensures s.producers[k].Done? { NoneAdmitting(s.producers, k); }
  }

  /** admissionsDone is closed exactly when draining has begun and no accepted enqueue is left. */
  lemma AdmissionsDoneIsExact(c: Config, s: State)
    requires ValidConfig(c) && Reachable(c, s)
    ensures s.adm.done.Closed? <==> s.drainFlag && forall k :: 0 <= k < |s.producers| ==> s.producers[k].Done?
  {
    ReachableInv(c, s);
    AllDoneCount(s.producers);
  }

  lemma {:induction false} AllDoneCount(ps: seq<Producer>)
    ensures Count(ps, Admitting) == 0 <==> forall k :: 0 <= k < |ps| ==> ps[k].Done?
  {
    if ps == [] {
    } else {
      var n := |ps| - 1;
      AllDoneCount(ps[..n]);
      assert forall k :: 0 <= k < n ==> ps[..n][k] == ps[k];
    }
  }

  /**
   The lifecycle's admission count is the reservations held by the ready token,
   the scheduler or its request goroutine, a schedule() call under way and a
   closer giving the ready token back; at most three until quit closes, one more
   can be left behind afterwards. Its job count is the requested tasks whose
   wrapper has not ended.
   */
  lemma ReservationLedger(c: Config, s: State)
    requires ValidConfig(c) && c.managed && Reachable(c, s)
    ensures s.life.admissions == One(s.ch.ready) + One(LoopHolds(s.sched, s.req)) + One(ScheduleHolds(s.qlock)) +
                                 One(CloserHolds(s.once.drain)) + s.hist.leaked
    ensures s.life.admissions <= 3 + s.hist.leaked
    ensures s.hist.leaked <= 1 && (!s.ch.quit ==> s.hist.leaked == 0)
    ensures s.life.jobs == Count(s.wrappers, HasJob) + One(JobInHand(s.sched, s.req, s.ch.tasks))
  {
    ReachableInv(c, s);
  }

  /**
   No channel is closed twice or sent to after closing, no group count goes
   negative, and every ignored EndAdmission, PromoteAdmissionToJob and EndJob
   error is nil.
   */
  lemma NeverFaults(c: Config, s: State)
    requires ValidConfig(c) && Reachable(c, s)
    ensures !s.fault
  {
    ReachableInv(c, s);
  }

  /** Tasks reach wrappers one by one, in the order Request returned them. */
  lemma TasksInOrder(c: Config, s: State)
    requires ValidConfig(c) && Reachable(c, s)
    ensures TasksOf(s.wrappers) <= s.hist.requested && |s.hist.requested| <= |s.wrappers| + 1
    ensures c.inMemory ==> s.hist.requested <= s.hist.accepted
    ensures !s.req.Idle? ==> s.sched.Receiving? && s.ch.tasks.None? && !s.ch.tasksClosed
  {
    ReachableInv(c, s);
  }

  /** Started work is active, finishing, succeeded or failed; active is bounded by the largest count ever set. */
  lemma WorkIsAccountedFor(c: Config, s: State)
    requires ValidConfig(c) && Reachable(c, s)
    ensures 0 <= s.workers.active && (s.workers.active > 0 ==> s.workers.active <= s.workers.largest)
    ensures |s.wrappers| + One(s.sched.Launching?) ==
            s.workers.active + Count(s.wrappers, Finishing) + s.hist.succeeded + s.hist.failed
  {
    ReachableInv(c, s);
  }
}
