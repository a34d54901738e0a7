/**
 Termination by management (management_lifecycle.go): the queue is shut down after
 a terminate transition completed, or on a snapshot that says so. From that point
 on nothing is requested from the worker and no job runs.
 */
module QueueTermination {
  import opened QueueModel
  import opened QueueInvariants
  import opened QueueSteps
  import opened QueueTheorems
  import L = Lifecycle

  ghost predicate Quiesced(s: State)
  {
    s.life.state == L.Terminating && s.life.admissions == 0 && s.life.jobs == 0
  }

  /** Nothing was asked of the worker and no wrapper was started in between. */
  ghost predicate Still(s: State, t: State)
  {
    && Quiesced(t) && t.hist.requestCalls == s.hist.requestCalls && t.hist.requested == s.hist.requested
    && TasksOf(t.wrappers) == TasksOf(s.wrappers)
  }

  lemma StillBySchedule(c: Config, s: State, st: ScheduleStep)
    requires Quiesced(s) && ScheduleEnabled(c, s, st)
    ensures Still(s, AfterSchedule(c, s, st))
  {
    ScheduleMoves(c, s, st);
  }

  lemma StillBySched(c: Config, s: State, st: SchedulerStep)
    requires c.managed && Quiesced(s) && Reservations(c, s) && HandOver(s) && SchedulerEnabled(c, s, st)
    ensures Still(s, AfterSched(c, s, st))
  {
  }

  lemma StillByRequest(c: Config, s: State, st: RequestStep)
    requires c.managed && Quiesced(s) && Reservations(c, s) && HandOver(s) && RequestEnabled(c, s, st)
    ensures Still(s, AfterRequest(c, s, st))
  {
  }

  lemma StillByWork(c: Config, s: State, i: nat, st: WrapperStep)
    requires Quiesced(s) && WrapperEnabled(c, s, i, st)
    ensures Still(s, AfterWork(c, s, i, st))
  {
  }

  lemma StillByClose(c: Config, s: State, i: nat)
    requires Quiesced(s) && CloseEnabled(s, i)
    ensures Still(s, AfterClosing(c, s, i))
  {
  }

  lemma StillByProducer(c: Config, s: State, i: nat, st: ProducerStep)
    requires Quiesced(s) && ProducerEnabled(c, s, i, st)
    ensures Still(s, AfterProducer(c, s, i, st))
  {
  }

  lemma StillByShut(c: Config, s: State, i: nat, failed: bool)
    requires Quiesced(s) && ShutEnabled(s, i)
    ensures Still(s, AfterShutting(c, s, i, failed))
  {
  }

  lemma StillStep(c: Config, s: State, step: Step)
    requires c.managed && Inv(c, s) && Quiesced(s) && Enabled(c, s, step)
    ensures Still(s, Apply(c, s, step))
  {
    match step
    case OfProducer(i, st) => StillByProducer(c, s, i, st);
    case OfSchedule(st) => StillBySchedule(c, s, st);
    case OfSched(st) => StillBySched(c, s, st);
    case OfRequest(st) => StillByRequest(c, s, st);
    case OfWork(i, st) => StillByWork(c, s, i, st);
    case OfClose(i) => StillByClose(c, s, i);
    case OfShut(i, failed) => StillByShut(c, s, i, failed);
    case _ =>
  }

  lemma {:induction false} StillRun(c: Config, s: State, steps: seq<Step>, t: State)
    requires c.managed && Inv(c, s) && Quiesced(s) && Run(c, s, steps, t)
    ensures Inv(c, t) && Still(s, t)
    decreases |steps|
  {
    if steps == [] {
    } else {
      StillStep(c, s, steps[0]);
      StepKeeps(c, s, steps[0]);
      StillRun(c, Apply(c, s, steps[0]), steps[1..], t);
    }
  }

  /**
   From a state whose snapshot says terminating and drained, in which the queue
   calls Shutdown: in every continuation no Worker.Request is outstanding or made,
   no wrapper is started, and every wrapper's job has ended.
   */
  lemma TerminationIsQuiet(c: Config, s: State, steps: seq<Step>, t: State)
    requires ValidConfig(c) && c.managed && Reachable(c, s) && Run(c, s, steps, t)
    requires L.SnapshotOf(s.life).terminating && L.SnapshotOf(s.life).drain == L.Completed
    ensures !t.req.Calling? && !t.req.Locked? && t.hist.requestCalls == s.hist.requestCalls
    ensures t.hist.requested == s.hist.requested == TasksOf(t.wrappers) == TasksOf(s.wrappers)
    ensures forall k :: 0 <= k < |t.wrappers| ==> t.wrappers[k].pc.Exiting? || t.wrappers[k].pc.Finished?
  {
    ReachableInv(c, s);
    StillRun(c, s, steps, t);
    QuietNow(c, s);
    QuietNow(c, t);
  }

  lemma QuietNow(c: Config, s: State)
    requires c.managed && Quiesced(s) && Reservations(c, s) && HandOver(s) && TaskFlow(c, s)
    ensures !s.req.Calling? && !s.req.Locked? && s.hist.requested == TasksOf(s.wrappers)
    ensures forall k :: 0 <= k < |s.wrappers| ==> s.wrappers[k].pc.Exiting? || s.wrappers[k].pc.Finished?
  {
    forall k | 0 <= k < |s.wrappers| ensures s.wrappers[k].pc.Exiting? || s.wrappers[k].pc.Finished? {
      CountZero(s.wrappers, k, HasJob);
    }
  }
}
