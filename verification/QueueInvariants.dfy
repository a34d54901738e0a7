/** What every step of the queue protocol keeps. */
module QueueInvariants {
  import opened Wrappers
  import opened QueueModel
  import RG = RoutineGroup
  import L = Lifecycle

  // ---------------------------------------------------------------- counting

  ghost function Count<T(!new)>(xs: seq<T>, p: T -> bool): nat
  {
    if xs == [] then 0
    else Count(xs[..|xs| - 1], p) + if p(xs[|xs| - 1]) then 1 else 0
  }

  lemma CountAppend<T(!new)>(xs: seq<T>, x: T, p: T -> bool)
    ensures Count(xs + [x], p) == Count(xs, p) + if p(x) then 1 else 0
  {
    assert (xs + [x])[..|xs|] == xs;
  }

  lemma {:induction false} CountUpdate<T(!new)>(xs: seq<T>, i: nat, x: T, p: T -> bool)
    requires i < |xs|
    ensures Count(xs[i := x], p) + (if p(xs[i]) then 1 else 0) == Count(xs, p) + if p(x) then 1 else 0
  {
    var n := |xs| - 1;
    if i == n {
      assert xs[i := x][..n] == xs[..n];
    } else {
      CountUpdate(xs[..n], i, x, p);
      assert xs[i := x][..n] == xs[..n][i := x];
    }
  }

  lemma {:induction false} CountZero<T(!new)>(xs: seq<T>, i: nat, p: T -> bool)
    requires Count(xs, p) == 0 && i < |xs|
    ensures !p(xs[i])
  {
    if i < |xs| - 1 { CountZero(xs[..|xs| - 1], i, p); }
  }

  predicate Admitting(p: Producer) { !p.Done? }

  predicate Busy(w: Wrapper) { w.pc.Working? }

  predicate Alive(w: Wrapper) { !w.pc.Finished? }

  predicate HasJob(w: Wrapper) { !w.pc.Exiting? && !w.pc.Finished? }

  predicate Finishing(w: Wrapper) { w.pc.Rescheduling? || w.pc.Counting? }

  predicate Tallied(w: Wrapper) { w.pc.EndingJob? || w.pc.Exiting? || w.pc.Finished? }

  ghost function One(b: bool): nat { if b then 1 else 0 }

  // ---------------------------------------------------------------- the once bodies

  /** The drain channel is closed and the ready token is being taken back. */
  predicate ClosedDrain(o: Once<ClosePc>) { o.Running? && (o.at.TakeReady'? || o.at.RefundReady?) }

  ghost predicate OnceProgressOf(c: Config, sched: Scheduler, flag: bool, drain: bool, quit: bool, once: Onces,
                                 worker: WorkerShutdown)
  {
    && (sched.NotLaunched? <==> !once.start.Completed?)
    && (flag <==> once.drain.Completed? || (once.drain.Running? && !once.drain.at.FlagSection?))
    && (drain <==> (!c.inMemory && (once.drain.Completed? || ClosedDrain(once.drain))))
    && (once.drain.Running? ==>
          && (once.drain.at.RingCas? || once.drain.at.RingSection? || once.drain.at.WakeRequest? ==> c.inMemory)
          && (once.drain.at.CloseDrain? || ClosedDrain(once.drain) ==> !c.inMemory))
    && StopProgress(c, quit, once.stop, worker)
  }

  /** The part that Shutdown's body can touch. */
  ghost predicate StopProgress(c: Config, quit: bool, stop: Once<ShutPc>, worker: WorkerShutdown)
  {
    && (quit <==> stop.Completed?) && (c.inMemory ==> worker.NotCalled?)
    && (stop.Running? && stop.at.StopWorker? ==> !c.inMemory)
  }

  /** How far the once bodies got, read off the flags and channels they write. */
  ghost predicate OnceProgress(c: Config, s: State)
  {
    OnceProgressOf(c, s.sched, s.drainFlag, s.ch.drain, s.ch.quit, s.once, s.worker)
  }

  // ---------------------------------------------------------------- admissions

  ghost predicate AdmissionsOf(producers: seq<Producer>, adm: Admission, flag: bool)
  {
    && adm.count == Count(producers, Admitting)
    && (adm.done.Absent? <==> !flag)
    && (adm.done.Closed? <==> flag && adm.count == 0)
  }

  /** admissionsDone is closed exactly when draining began and the last accepted enqueue ended. */
  ghost predicate Admissions(s: State) { AdmissionsOf(s.producers, s.adm, s.drainFlag) }

  // ---------------------------------------------------------------- ring lock and exit

  ghost predicate RingLockOf(producers: seq<Producer>, ring: RingPart, req: Request,
                             drain: Once<ClosePc>, stop: Once<ShutPc>)
  {
    && (forall i :: 0 <= i < |producers| && producers[i].InRing? ==>
          ring.lock == Some(ByProducer(i)) && (producers[i].stopped ==> ring.stop))
    && (req.Locked? <==> ring.lock == Some(ByRequest))
    && (req.Locked? && req.stoppedEarly ==> ring.stop)
    && (drain.Running? && drain.at.RingSection? ==> ring.stop)
    && (stop.Running? && stop.at.StopRingSection? ==> ring.stop)
  }

  ghost predicate RingLock(s: State)
  {
    RingLockOf(s.producers, s.ring, s.req, s.once.drain, s.once.stop)
  }

  ghost predicate ExitClosedOf(producers: seq<Producer>, ring: RingPart)
  {
    ring.fifo.exitClosed ==>
      && ring.stop
      && ring.fifo.items == []
      && forall i :: 0 <= i < |producers| && producers[i].InRing? ==> producers[i].stopped
  }

  /** A closed exit channel means the buffer is empty and no producer can still add to it. */
  ghost predicate ExitClosed(s: State) { ExitClosedOf(s.producers, s.ring) }

  // ---------------------------------------------------------------- hand-over of tasks

  ghost predicate HandOverOf(sched: Scheduler, req: Request, tasks: Option<Option<Task>>, closed: bool)
  {
    if sched.Receiving? then
      || (!req.Idle? && tasks.None? && !closed)
      || (req.Idle? && tasks.Some? && !closed)
      || (req.Idle? && tasks.None? && closed)
    else
      && req.Idle? && tasks.None?
      && (closed ==> sched.Leaving? || sched.Gone?)
  }

  /** One request goroutine at a time, and its one result is received by a waiting scheduler. */
  ghost predicate HandOver(s: State) { HandOverOf(s.sched, s.req, s.ch.tasks, s.ch.tasksClosed) }

  ghost function Held(o: Option<Task>): seq<Task> { if o.Some? then [o.value] else [] }

  ghost function InHandOf(sched: Scheduler, req: Request, tasks: Option<Option<Task>>): seq<Task>
  {
    match sched
    case GotTask(t) => [t]
    case Launching(t) => [t]
    case Receiving =>
      if tasks.Some? then Held(tasks.value)
      else (match req
            case Returned(t, _) => Held(t)
            case HaveTask(t, _) => [t]
            case Pacing(t) => [t]
            case Sending(m) => Held(m)
            case _ => [])
    case _ => []
  }

  /** The task that has left the worker and has no wrapper yet. */
  ghost function InHand(s: State): seq<Task> { InHandOf(s.sched, s.req, s.ch.tasks) }

  ghost function TasksOf(ws: seq<Wrapper>): (r: seq<Task>)
    ensures |r| == |ws|
    ensures forall k :: 0 <= k < |r| ==> r[k] == ws[k].task
  {
    seq(|ws|, k requires 0 <= k < |ws| => ws[k].task)
  }

  ghost predicate TaskFlowOf(c: Config, requested: seq<Task>, accepted: seq<Task>, launched: seq<Task>,
                             inHand: seq<Task>, items: seq<Task>)
  {
    && requested == launched + inHand
    && (c.inMemory ==> accepted == requested + items)
  }

  /** Nothing requested is lost, duplicated or reordered on its way to a wrapper. */
  ghost predicate TaskFlow(c: Config, s: State)
  {
    TaskFlowOf(c, s.hist.requested, s.hist.accepted, TasksOf(s.wrappers), InHand(s), s.ring.fifo.items)
  }

  // ---------------------------------------------------------------- group and counters

  ghost predicate GroupCountOf(g: RG.Group, sched: Scheduler, req: Request, finishing: nat, alive: nat)
  {
    && RG.Sound(g)
    && g.active == One(!sched.NotLaunched? && !sched.Gone?) + One(!req.Idle?) + finishing + alive
  }

  ghost predicate GroupCount(s: State)
  {
    GroupCountOf(s.group, s.sched, s.req, s.finishing, Count(s.wrappers, Alive))
  }

  ghost predicate BusyCountOf(w: Workers, sched: Scheduler, busy: nat)
  {
    && w.limit <= w.largest
    && w.active == busy + One(sched.Launching?)
    && (w.active == 0 || w.active <= w.largest)
    && (sched.Spawning? || sched.Receiving? || sched.GotTask? ==> w.active < w.largest)
  }

  /** The busy count is exact and within the largest worker count ever set. */
  ghost predicate BusyCount(s: State) { BusyCountOf(s.workers, s.sched, Count(s.wrappers, Busy)) }

  ghost predicate TallyOf(counted: nat, wrappers: seq<Wrapper>)
  {
    && counted == Count(wrappers, Tallied)
    && |wrappers| == Count(wrappers, Busy) + Count(wrappers, Finishing) + Count(wrappers, Tallied)
  }

  /** Every wrapper is busy, finishing, or counted once as a success or a failure. */
  ghost predicate Tally(s: State) { TallyOf(s.hist.succeeded + s.hist.failed, s.wrappers) }

  // ---------------------------------------------------------------- reservations

  /** The scheduler or its request goroutine holds the reservation behind a ready token. */
  predicate LoopHolds(sched: Scheduler, req: Request)
  {
    || sched.TookReady? || sched.LeavingReserved? || sched.SkippingReserved?
    || sched.CheckingCapacity? || sched.Spawning?
    || req.Calling? || req.Locked? || req.Returned? || req.PollingQuit?
  }

  predicate CloserHolds(o: Once<ClosePc>) { o.Running? && o.at.RefundReady? }

  predicate ScheduleHolds(q: QueueLock) { q.Reserved? || q.Refunding? }

  /** A promoted task on its way to a wrapper. */
  predicate JobInHand(sched: Scheduler, req: Request, tasks: Option<Option<Task>>)
  {
    || sched.GotTask? || sched.Launching? || (tasks.Some? && tasks.value.Some?)
    || req.HaveTask? || req.Pacing? || (req.Sending? && req.msg.Some?)
  }

  ghost predicate ReservationsOf(c: Config, life: L.Life, ready: bool, loop: bool, schedule: bool, closer: bool,
                                 leaked: nat, jobs: nat, hand: bool)
  {
    c.managed ==>
      && life.admissions == One(ready) + One(loop) + One(schedule) + One(closer) + leaked
      && life.jobs == jobs + One(hand)
  }

  ghost predicate Reservations(c: Config, s: State)
  {
    ReservationsOf(c, s.life, s.ch.ready, LoopHolds(s.sched, s.req), ScheduleHolds(s.qlock),
                   CloserHolds(s.once.drain), s.hist.leaked, Count(s.wrappers, HasJob),
                   JobInHand(s.sched, s.req, s.ch.tasks))
  }

  /** At most one reservation is ever left behind, and only once quit is closed. */
  ghost predicate Leaks(s: State)
  {
    && (s.hist.leaked > 0 <==> s.ch.tasksClosed)
    && s.hist.leaked <= 1
    && (s.ch.tasksClosed ==> s.ch.quit)
  }

  /** A schedule() call that read drainFlag before it was set may still be under way. */
  ghost predicate CloserBound(s: State)
  {
    CloserHolds(s.once.drain) ==> One(s.ch.ready) + One(!s.qlock.Free?) <= 1
  }

  // ---------------------------------------------------------------- release

  ghost predicate AllFinished(ws: seq<Wrapper>)
  {
    forall i :: 0 <= i < |ws| ==> ws[i].pc.Finished?
  }

  /** The scheduler is before its drain check or on its way out. */
  predicate BeforeCheck(sched: Scheduler)
  {
    sched.NotLaunched? || sched.Scheduling? || sched.Selecting? || sched.TookReady? ||
    sched.LeavingReserved? || sched.Leaving? || sched.Gone?
  }

  ghost predicate Ended(s: State) { s.drainFlag && s.adm.done.Closed? }

  ghost predicate Drained(c: Config, s: State) { Ended(s) && (c.inMemory ==> s.ring.fifo.exitClosed) }

  /**
   Nothing is in flight and nothing can start: in memory because the buffer is
   closed and empty, externally because the scheduler can no longer get past its
   drain check.
   */
  ghost predicate Settled(c: Config, s: State)
  {
    && Drained(c, s)
    && AllFinished(s.wrappers)
    && InHand(s) == []
    && (!c.inMemory ==> s.req.Idle? && s.ch.tasks.None? && BeforeCheck(s.sched))
  }

  /** The calls that only a ReleaseContext past its first wait makes. */
  predicate PastDrain(p: Caller)
  {
    || (p.CaptureIdle? && !p.first) || (p.WaitIdle? && !p.first) || p.ReleasedNil?
    || ((p.ShutEnter? || p.Shutting?) && p.releasing)
  }

  /** What a ReleaseContext caller has established by where it stands. */
  ghost predicate Claim(p: Caller, inMemory: bool, ended: bool, drained: bool, settled: bool, g: RG.Group)
  {
    && (p.WaitExit? ==> ended && inMemory)
    && (p.CaptureIdle? || p.WaitIdle? ==> drained)
    && (p.WaitIdle? ==> p.generation <= g.generation && (RG.IdleClosed(g, p.generation) ==> settled))
    && (PastDrain(p) ==> settled)
  }

  ghost predicate ReleaseProgressOf(callers: seq<Caller>, inMemory: bool, ended: bool, drained: bool,
                                    settled: bool, g: RG.Group)
  {
    forall i :: 0 <= i < |callers| ==> Claim(callers[i], inMemory, ended, drained, settled, g)
  }

  ghost predicate ReleaseProgress(c: Config, s: State)
  {
    ReleaseProgressOf(s.callers, c.inMemory, Ended(s), Drained(c, s), Settled(c, s), s.group)
  }

  predicate FromShutdown(p: Caller) { (p.ShutEnter? || p.Shutting?) && !p.releasing }

  ghost predicate NoneFromShutdown(callers: seq<Caller>)
  {
    forall i :: 0 <= i < |callers| ==> !FromShutdown(callers[i])
  }

  /** Without a direct Shutdown call, the stop body is entered only once all is settled. */
  ghost predicate ShutdownOrigin(c: Config, s: State)
  {
    !s.hist.directShutdown ==>
      && NoneFromShutdown(s.callers)
      && (!s.once.stop.Fresh? || !s.worker.NotCalled? ==> Settled(c, s))
  }

  ghost predicate Shape(c: Config, s: State)
  {
    OnceProgress(c, s) && Admissions(s) && RingLock(s) && ExitClosed(s)
  }

  ghost predicate Flow(c: Config, s: State) { HandOver(s) && TaskFlow(c, s) }

  ghost predicate Counts(s: State) { GroupCount(s) && BusyCount(s) && Tally(s) }

  ghost predicate Ledger(c: Config, s: State)
  {
    Reservations(c, s) && Leaks(s) && CloserBound(s) && !s.fault
  }

  /** The parts that do not look at the callers. */
  ghost predicate Core(c: Config, s: State)
  {
    Shape(c, s) && Flow(c, s) && Counts(s) && Ledger(c, s)
  }

  ghost predicate Inv(c: Config, s: State)
  {
    Core(c, s) && ReleaseProgress(c, s) && ShutdownOrigin(c, s)
  }
}
