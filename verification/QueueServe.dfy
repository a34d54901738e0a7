/**
 When the accepted tasks of an in-memory queue can still all be run: exactly when the
 ring is empty or the scheduling loop can still take from it. Other callers may help:
 somebody may raise the worker count, start the queue or schedule.
 */
module QueueServe {
  import opened QueueModel
  import opened QueueInvariants
  import opened QueueTheorems
  import opened QueueStrand
  import opened QueueProgress

  /** Every accepted task was given to a wrapper that has finished. */
  ghost predicate Served(s: State) { TasksOf(s.wrappers) == s.hist.accepted && AllFinished(s.wrappers) }

  ghost predicate CanServe(c: Config, s: State) { exists t :: Leads(c, s, t) && Served(t) }

  // ---------------------------------------------------------------- when the loop takes nothing any more

  /** The last request brought no task, and the loop has not asked again. */
  predicate CameBackEmpty(req: Request)
  {
    (req.Returned? && req.task.None?) || req.NoTask? || req.Waiting? || req.PollingDrain? || req.PollingQuit?
  }

  /** A request that found nothing leads out: draining began before its check, or quit closed after another error. */
  predicate LeadsOut(s: State)
  {
    && s.sched.Receiving? && CameBackEmpty(s.req)
    && (((s.req.Returned? || s.req.NoTask?) && s.drainFlag) || (s.ch.quit && !s.req.err.NoTaskError?))
  }

  predicate PastStopCheck(p: Caller) { p.Starting? && !p.start.LoadStop? }

  /** Shutdown came before the loop was started, and nobody is past Start's check of it. */
  ghost predicate NeverStarts(s: State)
  {
    && s.sched.NotLaunched? && s.stopFlag && s.once.start.Fresh?
    && forall j :: 0 <= j < |s.callers| ==> !PastStopCheck(s.callers[j])
  }

  ghost predicate Ended'(s: State) { Committed(s) || LeadsOut(s) || NeverStarts(s) }

  lemma EndedIsEmptyHanded(c: Config, s: State)
    requires Inv(c, s) && Ended'(s)
    ensures InHand(s) == [] && !s.req.Locked? && !s.req.Calling?
  {
  }

  // ---------------------------------------------------------------- and stays so

  lemma EndedBySched(c: Config, s: State, st: SchedulerStep)
    requires HandOver(s) && Ended'(s) && SchedulerEnabled(c, s, st)
    ensures Ended'(AfterSched(c, s, st))
  {
    if Committed(s) { CommittedBySched(c, s, st); }
  }

  lemma EndedByRequest(c: Config, s: State, st: RequestStep)
    requires !c.managed && !s.ch.drain && HandOver(s) && Ended'(s) && RequestEnabled(c, s, st)
    ensures Ended'(AfterRequest(c, s, st))
  {
    if Committed(s) { CommittedByRequest(c, s, st); }
  }

  lemma EndedBySchedule(c: Config, s: State, st: ScheduleStep)
    requires Ended'(s) && ScheduleEnabled(c, s, st)
    ensures Ended'(AfterSchedule(c, s, st))
  {
    if Committed(s) { CommittedBySchedule(c, s, st); }
  }

  lemma EndedByStart(c: Config, s: State, i: nat)
    requires OnceProgress(c, s) && Ended'(s) && StartEnabled(s, i)
    ensures Ended'(AfterStarting(s, i))
  {
    if Committed(s) { CommittedByStart(c, s, i); }
  }

  lemma EndedByClose(c: Config, s: State, i: nat)
    requires Ended'(s) && CloseEnabled(s, i)
    ensures Ended'(AfterClosing(c, s, i))
  {
    if Committed(s) { CommittedByClose(c, s, i); }
  }

  lemma EndedByShut(c: Config, s: State, i: nat, failed: bool)
    requires Ended'(s) && ShutEnabled(s, i)
    ensures Ended'(AfterShutting(c, s, i, failed))
  {
    ShutSummary(c, s, i, failed);
  }

  lemma EndedByRelease(c: Config, s: State, i: nat, expired: bool)
    requires Ended'(s) && ReleaseEnabled(s, i, expired)
    ensures Ended'(AfterReleasing(c, s, i, expired))
  {
  }

  lemma EndedByCall(s: State, op: Operation)
    requires Ended'(s) && OperationEnabled(s, op)
    ensures Ended'(AfterCall(s, op))
  {
  }

  lemma EndedStep(c: Config, s: State, step: Step)
    requires c.inMemory && ValidConfig(c) && Inv(c, s) && Ended'(s) && Enabled(c, s, step)
    ensures Ended'(Apply(c, s, step))
  {
    match step
    case OfSched(st) => EndedBySched(c, s, st);
    case OfRequest(st) => EndedByRequest(c, s, st);
    case OfSchedule(st) => EndedBySchedule(c, s, st);
    case OfStart(i) => EndedByStart(c, s, i);
    case OfClose(i) => EndedByClose(c, s, i);
    case OfShut(i, failed) => EndedByShut(c, s, i, failed);
    case OfRelease(i, expired) => EndedByRelease(c, s, i, expired);
    case Call(op) => EndedByCall(s, op);
    case _ =>
  }

  /** Only a request that holds the ring's lock takes from it. */
  lemma ItemsStay(c: Config, s: State, step: Step)
    requires Enabled(c, s, step) && !s.req.Locked? && s.ring.fifo.items != []
    ensures Apply(c, s, step).ring.fifo.items != []
  {
    match step
    case OfRequest(st) => ItemsByRequest(c, s, st);
    case OfProducer(i, st) => ItemsByProducer(c, s, i, st);
    case OfClose(i) => ItemsByClose(c, s, i);
    case OfShut(i, failed) => ItemsByShut(c, s, i, failed);
    case _ =>
  }

  lemma ItemsByRequest(c: Config, s: State, st: RequestStep)
    requires RequestEnabled(c, s, st) && !s.req.Locked?
    ensures AfterRequest(c, s, st).ring.fifo.items == s.ring.fifo.items
  {
  }

  lemma ItemsByProducer(c: Config, s: State, i: nat, st: ProducerStep)
    requires ProducerEnabled(c, s, i, st)
    ensures s.ring.fifo.items <= AfterProducer(c, s, i, st).ring.fifo.items
  {
  }

  lemma ItemsByClose(c: Config, s: State, i: nat)
    requires CloseEnabled(s, i)
    ensures AfterClosing(c, s, i).ring.fifo.items == s.ring.fifo.items
  {
  }

  lemma ItemsByShut(c: Config, s: State, i: nat, failed: bool)
    requires ShutEnabled(s, i)
    ensures AfterShutting(c, s, i, failed).ring.fifo.items == s.ring.fifo.items
  {
    ShutSummary(c, s, i, failed);
  }

  lemma {:induction false} EndedRun(c: Config, s: State, steps: seq<Step>, t: State)
    requires c.inMemory && ValidConfig(c) && Inv(c, s) && Ended'(s) && s.ring.fifo.items != [] && Run(c, s, steps, t)
    ensures Inv(c, t) && t.ring.fifo.items != []
    decreases |steps|
  {
    if steps == [] {
    } else {
      EndedIsEmptyHanded(c, s);
      EndedStep(c, s, steps[0]);
      ItemsStay(c, s, steps[0]);
      StepKeeps(c, s, steps[0]);
      EndedRun(c, Apply(c, s, steps[0]), steps[1..], t);
    }
  }

  lemma ItemsAreUnserved(c: Config, s: State)
    requires c.inMemory && Inv(c, s) && s.ring.fifo.items != []
    ensures !Served(s)
  {
    assert |s.hist.accepted| == |s.wrappers| + |InHand(s)| + |s.ring.fifo.items|;
  }

  lemma EndedCannotServe(c: Config, s: State)
    requires c.inMemory && ValidConfig(c) && Inv(c, s) && Ended'(s) && s.ring.fifo.items != []
    ensures !CanServe(c, s)
  {
    if t :| Leads(c, s, t) && Served(t) {
      var steps :| Run(c, s, steps, t);
      EndedRun(c, s, steps, t);
      ItemsAreUnserved(c, t);
    }
  }

  // ---------------------------------------------------------------- otherwise, a continuation that serves

  ghost predicate Mem(c: Config, s: State)
  {
    c.inMemory && Good(c, s) && Exits(s) && Memory(s) && !s.req.Reserving?
  }

  lemma NeverReserves(c: Config, s: State, step: Step)
    requires !c.managed && !s.req.Reserving? && Enabled(c, s, step)
    ensures !Apply(c, s, step).req.Reserving?
  {
    match step
    case OfRequest(st) => NeverReservesByRequest(c, s, st);
    case _ =>
  }

  lemma NeverReservesByRequest(c: Config, s: State, st: RequestStep)
    requires !c.managed && !s.req.Reserving? && RequestEnabled(c, s, st)
    ensures !AfterRequest(c, s, st).req.Reserving?
  {
  }

  lemma MoveM(c: Config, s: State, step: Step, t: State)
    requires Mem(c, s) && Enabled(c, s, step) && Apply(c, s, step) == t
    ensures Mem(c, t) && Leads(c, s, t)
  {
    Move(c, s, step, t);
    ExitsStep(c, s, step);
    MemoryStep(c, s, step);
    NeverReserves(c, s, step);
  }

  /** Accepted tasks that have no wrapper yet. */
  ghost function Left(s: State): int { |s.hist.accepted| - |s.wrappers| }

  lemma LeftIs(c: Config, s: State)
    requires c.inMemory && Inv(c, s)
    ensures Left(s) == |s.ring.fifo.items| + |InHand(s)| && |InHand(s)| <= 1
    ensures Left(s) == 0 ==> TasksOf(s.wrappers) == s.hist.accepted
  {
  }

  /** What letting go of the queue's mutex leaves alone. */
  ghost predicate SameQueue(s: State, t: State)
  {
    && t.ring == s.ring && t.hist == s.hist && t.once == s.once && t.drainFlag == s.drainFlag
    && t.stopFlag == s.stopFlag && t.req == s.req && t.ch == s.ch.(ready := t.ch.ready)
    && t.producers == s.producers && t.workers == s.workers
  }

  /** And what it moves: at most the caller of schedule(). */
  ghost predicate SameCallers(s: State, t: State)
  {
    && |t.wrappers| == |s.wrappers|
    && (forall k :: 0 <= k < |s.wrappers| ==>
          t.wrappers[k] == s.wrappers[k] || (s.wrappers[k].pc.Rescheduling? && t.wrappers[k].pc.Counting?))
    && (t.sched == s.sched || (s.sched.Scheduling? && t.sched.Selecting?))
    && |t.callers| == |s.callers|
    && forall j :: 0 <= j < |s.callers| ==>
         t.callers[j] == s.callers[j] || (s.callers[j].CallSchedule? && t.callers[j].Over?)
  }

  ghost predicate Alike(s: State, t: State) { SameQueue(s, t) && SameCallers(s, t) }

  lemma LockStep(c: Config, s: State)
    requires HolderOf(s) && !s.qlock.Free?
    ensures ScheduleEnabled(c, s, NextOfLock(s.qlock))
    ensures var t := AfterSchedule(c, s, NextOfLock(s.qlock)); SameQueue(s, t) && LockRank(t.qlock) < LockRank(s.qlock)
  {
  }

  lemma CallersKept(c: Config, s: State)
    requires HolderOf(s) && !s.qlock.Free? && ScheduleEnabled(c, s, NextOfLock(s.qlock))
    ensures SameCallers(s, AfterSchedule(c, s, NextOfLock(s.qlock)))
  {
  }

  lemma HolderReturns(c: Config, s: State)
    requires HolderOf(s) && !s.qlock.Free? && ScheduleEnabled(c, s, NextOfLock(s.qlock))
    ensures var t := AfterSchedule(c, s, NextOfLock(s.qlock));
      if t.qlock.Free? then s.qlock.who.OfWrapper? ==> t.wrappers[s.qlock.who.i].pc.Counting?
      else t.qlock.who == s.qlock.who
  {
    match s.qlock
    case Checked(who) =>
    case Capable(who) =>
    case Reserved(who) =>
    case Refunding(who) =>
  }

  lemma AlikeJoin(s: State, t: State, u: State)
    requires Alike(s, t) && Alike(t, u)
    ensures Alike(s, u)
  {
  }

  lemma LockMoved(c: Config, s: State) returns (t: State)
    requires Mem(c, s) && !s.qlock.Free?
    ensures Leads(c, s, t) && Mem(c, t) && Alike(s, t) && LockRank(t.qlock) < LockRank(s.qlock)
    ensures if !t.qlock.Free? then t.qlock.who == s.qlock.who
            else s.qlock.who.OfWrapper? ==> s.qlock.who.i < |t.wrappers| && t.wrappers[s.qlock.who.i].pc.Counting?
  {
    LockStep(c, s);
    CallersKept(c, s);
    HolderReturns(c, s);
    t := AfterSchedule(c, s, NextOfLock(s.qlock));
    MoveM(c, s, OfSchedule(NextOfLock(s.qlock)), t);
  }

  lemma {:induction false} LetGo(c: Config, s: State) returns (t: State)
    requires Mem(c, s)
    ensures Leads(c, s, t) && Mem(c, t) && t.qlock.Free? && Alike(s, t)
    ensures !s.qlock.Free? && s.qlock.who.OfWrapper? ==>
              s.qlock.who.i < |t.wrappers| && t.wrappers[s.qlock.who.i].pc.Counting?
    decreases LockRank(s.qlock)
  {
    if s.qlock.Free? {
      Stay(c, s);
      t := s;
    } else {
      var u := LockMoved(c, s);
      t := LetGo(c, u);
      AlikeJoin(s, u, t);
      Join(c, s, u, t);
    }
  }

  lemma AlikeNotEnded(s: State, t: State)
    requires Alike(s, t) && !Ended'(s)
    ensures !Ended'(t)
  {
    if NeverStarts(t) {
      AlikeStarts(s, t);
      assert false;
    }
  }

  lemma AlikeStarts(s: State, t: State)
    requires Alike(s, t) && NeverStarts(t)
    ensures NeverStarts(s)
  {
    forall j | 0 <= j < |s.callers| ensures !PastStopCheck(s.callers[j]) {
      assert !PastStopCheck(t.callers[j]);
    }
  }

  // ---------------------------------------------------------------- one more task

  /** Nobody holds a lock, and the count leaves room for every task that has no wrapper yet. */
  ghost predicate Roomy(c: Config, s: State)
  {
    && Mem(c, s) && s.qlock.Free? && !(s.ring.lock.Some? && s.ring.lock.value.ByProducer?) && !s.sched.NotLaunched?
    && !Ended'(s) && s.workers.active + Left(s) < s.workers.limit + One(s.sched.Launching?)
  }

  function ServeRank(s: State): nat
  {
    match s.sched
    case Launching(_) => 1
    case GotTask(_) => 2
    case Spawning => 10
    case CheckingCapacity => 11
    case Selecting => if s.ch.ready then 12 else 13
    case Scheduling => 14
    case SkippingReserved => 15
    case GotNil => 15
    case Receiving =>
      (match s.req
       case Idle => if s.ch.tasks.Some? && s.ch.tasks.value.Some? then 3 else 16
       case Sending(m) => if m.Some? then 4 else 17
       case Pacing(_) => 5
       case HaveTask(_, _) => 6
       case Returned(t, _) => if t.Some? then 7 else 14
       case Locked(_) => 8
       case Calling => 9
       case PollingQuit(_) => 10
       case PollingDrain(_) => 11
       case Waiting(_) => 12
       case NoTask(_) => 13
       case Reserving(_) => 18)
    case _ => 0
  }

  function NextToServe(sched: Scheduler): SchedulerStep
  {
    match sched
    case Selecting => TakeReady
    case SkippingReserved => ReleaseReservation
    case CheckingCapacity => HasCapacity
    case Spawning => Spawn
    case Receiving => Receive
    case GotNil => LoadDrainAfterNil
    case GotTask(_) => CountBusy
    case _ => Launch
  }

  function NextRequest(req: Request): RequestStep
  {
    match req
    case Calling => LockRing
    case Locked(_) => TakeRing
    case Returned(_, _) => Account
    case HaveTask(_, _) => LoadDrainFlag
    case NoTask(_) => LoadDrainFlag
    case Pacing(_) => Pace(false)
    case Waiting(_) => Pace(false)
    case PollingDrain(_) => PollDrain
    case Reserving(_) => ReserveAgain
    case PollingQuit(_) => PollQuit
    case _ => Send
  }

  /** Tasks left and the rank, in that order, go down. */
  ghost predicate Nearer(s: State, t: State)
  {
    Left(t) < Left(s) || (Left(t) == Left(s) && ServeRank(t) < ServeRank(s))
  }

  /** What the loop's own steps leave alone. */
  ghost predicate LoopFrame(s: State, t: State)
  {
    && t.qlock == s.qlock && t.workers.limit == s.workers.limit && t.stopFlag == s.stopFlag
    && !(t.ring.lock.Some? && t.ring.lock.value.ByProducer?) && !t.sched.NotLaunched?
  }

  ghost predicate SchedServes(s: State, t: State)
  {
    && Nearer(s, t) && LoopFrame(s, t) && !Committed(t) && !LeadsOut(t)
    && t.workers.active + Left(t) - One(t.sched.Launching?) <= s.workers.active + Left(s) - One(s.sched.Launching?)
  }

  lemma AskMoves(c: Config, s: State)
    requires c.inMemory && !Committed(s) && HandOver(s) && s.qlock.Free?
    requires !(s.ring.lock.Some? && s.ring.lock.value.ByProducer?)
    requires s.sched.CheckingCapacity? ==> s.workers.active < s.workers.limit
    requires (s.sched.Selecting? && s.ch.ready) || s.sched.SkippingReserved? || s.sched.CheckingCapacity? ||
             s.sched.Spawning?
    ensures SchedulerEnabled(c, s, NextToServe(s.sched)) && SchedServes(s, AfterSched(c, s, NextToServe(s.sched)))
  {
    match s.sched
    case Selecting =>
    case SkippingReserved =>
    case CheckingCapacity =>
    case Spawning =>
  }

  lemma LaunchMoves(c: Config, s: State)
    requires c.inMemory && !Committed(s) && HandOver(s)
    requires !(s.ring.lock.Some? && s.ring.lock.value.ByProducer?)
    requires (s.sched.Receiving? && s.req.Idle?) || s.sched.GotNil? || s.sched.GotTask? || s.sched.Launching?
    ensures SchedulerEnabled(c, s, NextToServe(s.sched)) && SchedServes(s, AfterSched(c, s, NextToServe(s.sched)))
  {
    match s.sched
    case Receiving =>
    case GotNil =>
    case GotTask(_) =>
    case Launching(_) =>
  }

  ghost predicate RequestServes(s: State, t: State)
  {
    && Left(t) == Left(s) && ServeRank(t) < ServeRank(s) && t.sched == s.sched && t.workers == s.workers
    && LoopFrame(s, t) && !Committed(t) && !LeadsOut(t)
  }

  lemma TakeMoves(c: Config, s: State)
    requires c.inMemory && s.sched.Receiving? && s.ch.tasks.None? && !s.ch.tasksClosed
    requires (s.req.Calling? && s.ring.lock.None?) || (s.req.Locked? && s.ring.fifo.items != [])
    ensures RequestEnabled(c, s, NextRequest(s.req)) && RequestServes(s, AfterRequest(c, s, NextRequest(s.req)))
  {
  }

  lemma HandMoves(c: Config, s: State)
    requires c.inMemory && !c.managed && s.sched.Receiving? && s.ring.lock.None?
    requires s.ch.tasks.None? && !s.ch.tasksClosed
    requires (s.req.Returned? && s.req.task.Some?) || s.req.HaveTask? || s.req.Pacing? || s.req.Sending?
    requires !Committed(s)
    ensures RequestEnabled(c, s, NextRequest(s.req)) && RequestServes(s, AfterRequest(c, s, NextRequest(s.req)))
  {
  }

  ghost predicate Unheard(c: Config, s: State)
  {
    && c.inMemory && !c.managed && !s.ch.drain && s.sched.Receiving?
    && s.ch.tasks.None? && !s.ch.tasksClosed && s.ring.lock.None? && !LeadsOut(s)
  }

  lemma CheckMoves(c: Config, s: State)
    requires Unheard(c, s) && ((s.req.Returned? && s.req.task.None?) || s.req.NoTask?)
    ensures RequestEnabled(c, s, NextRequest(s.req)) && RequestServes(s, AfterRequest(c, s, NextRequest(s.req)))
  {
  }

  lemma WaitMoves(c: Config, s: State)
    requires Unheard(c, s) && (s.req.Waiting? || s.req.PollingDrain?)
    ensures RequestEnabled(c, s, NextRequest(s.req)) && RequestServes(s, AfterRequest(c, s, NextRequest(s.req)))
  {
  }

  lemma AgainMoves(c: Config, s: State)
    requires Unheard(c, s) && s.req.PollingQuit?
    ensures RequestEnabled(c, s, PollQuit) && RequestServes(s, AfterRequest(c, s, PollQuit))
  {
  }

  // ---------------------------------------------------------------- all of them

  /** schedule() has offered a ready token and returned to `who`. */
  function Scheduled(s: State, who: ScheduleBy): State
    requires AtSchedule(s, who)
  {
    s.(ch := s.ch.(ready := true),
       sched := if who.OfScheduler? then Selecting else s.sched,
       wrappers := if who.OfWrapper? then s.wrappers[who.i := s.wrappers[who.i].(pc := Counting)] else s.wrappers,
       callers := if who.OfCaller? then s.callers[who.i := Over] else s.callers)
  }

  lemma EnterIs(c: Config, s: State, who: ScheduleBy)
    requires c.inMemory && s.qlock.Free? && AtSchedule(s, who)
    ensures AfterSchedule(c, s, Enter(who)) == s.(qlock := Checked(who))
  {
  }

  lemma CheckIs(c: Config, s: State, who: ScheduleBy)
    requires s.qlock == Checked(who) && AtSchedule(s, who) && s.workers.active < s.workers.limit
    ensures AfterSchedule(c, s, CheckCapacity) == s.(qlock := Capable(who))
  {
  }

  lemma ReserveIs(c: Config, s: State, who: ScheduleBy)
    requires !c.managed && s.qlock.Free? && AtSchedule(s, who)
    ensures AfterSchedule(c, s.(qlock := Capable(who)), Reserve) == s.(qlock := Reserved(who))
  {
  }

  lemma OfferIs(c: Config, s: State, who: ScheduleBy)
    requires !c.managed && s.qlock.Free? && AtSchedule(s, who)
    ensures AfterSchedule(c, s.(qlock := Reserved(who)), Offer) == Scheduled(s, who)
  {
  }

  lemma Offered(c: Config, s: State, who: ScheduleBy)
    requires Mem(c, s) && s.qlock.Free? && AtSchedule(s, who) && s.workers.active < s.workers.limit
    ensures Leads(c, s, Scheduled(s, who)) && Mem(c, Scheduled(s, who))
  {
    CapableFrom(c, s, who);
    OfferedFrom(c, s, who);
    Join(c, s, s.(qlock := Capable(who)), Scheduled(s, who));
  }

  lemma CapableFrom(c: Config, s: State, who: ScheduleBy)
    requires Mem(c, s) && s.qlock.Free? && AtSchedule(s, who) && s.workers.active < s.workers.limit
    ensures Leads(c, s, s.(qlock := Capable(who))) && Mem(c, s.(qlock := Capable(who)))
  {
    var u := s.(qlock := Checked(who));
    EnterIs(c, s, who);
    MoveM(c, s, OfSchedule(Enter(who)), u);
    CheckIs(c, u, who);
    MoveM(c, u, OfSchedule(CheckCapacity), s.(qlock := Capable(who)));
    Join(c, s, u, s.(qlock := Capable(who)));
  }

  lemma OfferedFrom(c: Config, s: State, who: ScheduleBy)
    requires s.qlock.Free? && AtSchedule(s, who) && Mem(c, s.(qlock := Capable(who)))
    ensures Leads(c, s.(qlock := Capable(who)), Scheduled(s, who)) && Mem(c, Scheduled(s, who))
  {
    var u, v := s.(qlock := Capable(who)), s.(qlock := Reserved(who));
    ReserveIs(c, s, who);
    MoveM(c, u, OfSchedule(Reserve), v);
    OfferIs(c, s, who);
    MoveM(c, v, OfSchedule(Offer), Scheduled(s, who));
    Join(c, u, v, Scheduled(s, who));
  }

  lemma RoomyShows(c: Config, s: State)
    requires Roomy(c, s) && Left(s) > 0
    ensures !c.managed && !s.ch.drain && HandOver(s) && !Committed(s) && !LeadsOut(s)
    ensures s.ring.lock.Some? <==> s.req.Locked?
    ensures InHand(s) == [] ==> s.ring.fifo.items != []
    ensures !s.sched.Launching? ==> s.workers.active < s.workers.limit
  {
    LeftIs(c, s);
  }

  /** Somebody else may schedule as well. */
  lemma CallToSchedule(c: Config, s: State) returns (t: State)
    requires Roomy(c, s) && Left(s) > 0 && s.sched.Selecting? && !s.ch.ready
    ensures Leads(c, s, t) && Roomy(c, t) && Nearer(s, t)
  {
    RoomyShows(c, s);
    var u := AfterCall(s, OpSchedule);
    var who := OfCaller(|s.callers|);
    MoveM(c, s, Call(OpSchedule), u);
    Offered(c, u, who);
    t := Scheduled(u, who);
    Join(c, s, u, t);
  }

  lemma LoopSchedules(c: Config, s: State) returns (t: State)
    requires Roomy(c, s) && Left(s) > 0 && s.sched.Scheduling?
    ensures Leads(c, s, t) && Roomy(c, t) && Nearer(s, t)
  {
    RoomyShows(c, s);
    Offered(c, s, OfScheduler);
    t := Scheduled(s, OfScheduler);
  }

  lemma RequestNearer(c: Config, s: State)
    requires Roomy(c, s) && Left(s) > 0 && s.sched.Receiving? && !s.req.Idle?
    ensures RequestEnabled(c, s, NextRequest(s.req)) && RequestServes(s, AfterRequest(c, s, NextRequest(s.req)))
  {
    RoomyShows(c, s);
    if s.req.Calling? || s.req.Locked? {
      TakeMoves(c, s);
    } else if (s.req.Returned? && s.req.task.None?) || s.req.NoTask? {
      CheckMoves(c, s);
    } else if s.req.Waiting? || s.req.PollingDrain? {
      WaitMoves(c, s);
    } else if s.req.PollingQuit? {
      AgainMoves(c, s);
    } else {
      HandMoves(c, s);
    }
  }

  lemma RequestStep'(c: Config, s: State) returns (t: State)
    requires Roomy(c, s) && Left(s) > 0 && s.sched.Receiving? && !s.req.Idle?
    ensures Leads(c, s, t) && Roomy(c, t) && Nearer(s, t)
  {
    RequestNearer(c, s);
    t := AfterRequest(c, s, NextRequest(s.req));
    MoveM(c, s, OfRequest(NextRequest(s.req)), t);
  }

  lemma SchedNearer(c: Config, s: State)
    requires Roomy(c, s) && Left(s) > 0 && !s.sched.Scheduling? && (s.sched.Selecting? ==> s.ch.ready)
    requires s.sched.Receiving? ==> s.req.Idle?
    ensures SchedulerEnabled(c, s, NextToServe(s.sched)) && SchedServes(s, AfterSched(c, s, NextToServe(s.sched)))
  {
    RoomyShows(c, s);
    if s.sched.Receiving? || s.sched.GotNil? || s.sched.GotTask? || s.sched.Launching? {
      LaunchMoves(c, s);
    } else {
      AskMoves(c, s);
    }
  }

  lemma SchedStep(c: Config, s: State) returns (t: State)
    requires Roomy(c, s) && Left(s) > 0 && !s.sched.Scheduling? && (s.sched.Selecting? ==> s.ch.ready)
    requires s.sched.Receiving? ==> s.req.Idle?
    ensures Leads(c, s, t) && Roomy(c, t) && Nearer(s, t)
  {
    SchedNearer(c, s);
    t := AfterSched(c, s, NextToServe(s.sched));
    MoveM(c, s, OfSched(NextToServe(s.sched)), t);
  }

  /** The loop can take every task that is left, one after the other. */
  lemma {:induction false} TakeAll(c: Config, s: State) returns (t: State)
    requires Roomy(c, s)
    ensures Leads(c, s, t) && Mem(c, t) && t.qlock.Free? && Left(t) == 0
    decreases Left(s), ServeRank(s)
  {
    LeftIs(c, s);
    if Left(s) == 0 {
      Stay(c, s);
      t := s;
    } else {
      var u;
      if s.sched.Scheduling? {
        u := LoopSchedules(c, s);
      } else if s.sched.Selecting? && !s.ch.ready {
        u := CallToSchedule(c, s);
      } else if s.sched.Receiving? && !s.req.Idle? {
        u := RequestStep'(c, s);
      } else {
        u := SchedStep(c, s);
      }
      t := TakeAll(c, u);
      Join(c, s, u, t);
    }
  }

  // ---------------------------------------------------------------- and run them

  function NextOfWrapper(pc: WrapperPc): WrapperStep
  {
    match pc
    case Working => Settle
    case Counting => CountResult(true)
    case EndingJob => FinishJob
    case _ => Exit
  }

  /** Wrapper `k` is nearer its end, those before it are as far as they were, and no task came or went. */
  ghost predicate WrapperNearer(s: State, t: State, k: nat)
  {
    && |t.wrappers| == |s.wrappers| && t.hist.accepted == s.hist.accepted && k < |s.wrappers|
    && WrapperRank(t.wrappers[k].pc) < WrapperRank(s.wrappers[k].pc)
    && forall j :: 0 <= j < k ==> WrapperRank(t.wrappers[j].pc) <= WrapperRank(s.wrappers[j].pc)
  }

  lemma WorkNearer(c: Config, s: State, k: nat, st: WrapperStep)
    requires WrapperEnabled(c, s, k, st)
    ensures WrapperNearer(s, AfterWork(c, s, k, st), k) && AfterWork(c, s, k, st).qlock == s.qlock
  {
  }

  lemma WrapperEnters(c: Config, s: State, k: nat)
    requires c.inMemory && s.qlock.Free? && k < |s.wrappers| && s.wrappers[k].pc.Rescheduling?
    ensures ScheduleEnabled(c, s, Enter(OfWrapper(k)))
    ensures var t := AfterSchedule(c, s, Enter(OfWrapper(k)));
      t.qlock == Checked(OfWrapper(k)) && t.wrappers == s.wrappers && t.hist == s.hist
  {
  }

  lemma WrapperReschedules(c: Config, s: State, k: nat) returns (t: State)
    requires Mem(c, s) && s.qlock.Free? && k < |s.wrappers| && s.wrappers[k].pc.Rescheduling?
    ensures Leads(c, s, t) && Mem(c, t) && t.qlock.Free? && WrapperNearer(s, t, k)
  {
    WrapperEnters(c, s, k);
    var u := AfterSchedule(c, s, Enter(OfWrapper(k)));
    MoveM(c, s, OfSchedule(Enter(OfWrapper(k))), u);
    t := LetGo(c, u);
    Join(c, s, u, t);
  }

  lemma {:induction false} RunAll(c: Config, s: State, n: nat) returns (t: State)
    requires Mem(c, s) && s.qlock.Free? && n <= |s.wrappers|
    requires forall k :: 0 <= k < n ==> s.wrappers[k].pc.Finished?
    ensures Leads(c, s, t) && Mem(c, t) && AllFinished(t.wrappers) && Left(t) == Left(s)
    decreases |s.wrappers| - n, if n < |s.wrappers| then WrapperRank(s.wrappers[n].pc) else 0
  {
    if n == |s.wrappers| {
      Stay(c, s);
      t := s;
    } else if s.wrappers[n].pc.Finished? {
      t := RunAll(c, s, n + 1);
    } else {
      var u;
      if s.wrappers[n].pc.Rescheduling? {
        u := WrapperReschedules(c, s, n);
      } else {
        var st := NextOfWrapper(s.wrappers[n].pc);
        WorkNearer(c, s, n, st);
        u := AfterWork(c, s, n, st);
        MoveM(c, s, OfWork(n, st), u);
      }
      t := RunAll(c, u, n);
      Join(c, s, u, t);
    }
  }

  // ---------------------------------------------------------------- making room

  /** A producer that holds the ring's lock lets go of it. */
  lemma RingFree(c: Config, s: State) returns (t: State)
    requires Mem(c, s) && s.qlock.Free? && !Ended'(s)
    ensures Leads(c, s, t) && Mem(c, t) && t.qlock.Free? && !Ended'(t)
    ensures !(t.ring.lock.Some? && t.ring.lock.value.ByProducer?)
    ensures t.sched == s.sched
  {
    if s.ring.lock.Some? && s.ring.lock.value.ByProducer? {
      var i := s.ring.lock.value.i;
      CommitFrees(c, s, i);
      t := AfterProducer(c, s, i, CommitRing);
      MoveM(c, s, OfProducer(i, CommitRing), t);
    } else {
      Stay(c, s);
      t := s;
    }
  }

  lemma CommitFrees(c: Config, s: State, i: nat)
    requires i < |s.producers| && s.producers[i].InRing? && !Ended'(s)
    ensures ProducerEnabled(c, s, i, CommitRing)
    ensures var t := AfterProducer(c, s, i, CommitRing);
      t.ring.lock.None? && t.qlock == s.qlock && t.sched == s.sched && !Ended'(t)
  {
    var t := AfterProducer(c, s, i, CommitRing);
    assert t.callers == s.callers && t.once == s.once && t.req == s.req;
  }

  lemma UpdateKeeps(s: State, n: int)
    requires s.qlock.Free? && !Ended'(s)
    ensures var t := AfterCall(s, OpUpdate(n));
      && !Ended'(t) && t.workers.limit == n && t.workers.active == s.workers.active && t.qlock == s.qlock
      && t.sched == s.sched && t.ring == s.ring && Left(t) == Left(s) && t.once == s.once
  {
    var t := AfterCall(s, OpUpdate(n));
    if NeverStarts(t) {
      UpdateStarts(s, n);
      assert false;
    }
  }

  lemma UpdateStarts(s: State, n: int)
    requires s.qlock.Free? && NeverStarts(AfterCall(s, OpUpdate(n)))
    ensures NeverStarts(s)
  {
    var t := AfterCall(s, OpUpdate(n));
    forall j | 0 <= j < |s.callers| ensures !PastStopCheck(s.callers[j]) {
      assert t.callers[j] == s.callers[j];
    }
  }

  /** Nobody holds a lock and the count is high enough; the loop may not run yet. */
  ghost predicate Set(c: Config, s: State)
  {
    && Mem(c, s) && s.qlock.Free? && !(s.ring.lock.Some? && s.ring.lock.value.ByProducer?) && !Ended'(s)
    && s.workers.limit > 0 && s.workers.active + Left(s) < s.workers.limit
  }

  lemma MakeRoom(c: Config, s: State) returns (t: State)
    requires Mem(c, s) && !Ended'(s)
    ensures Leads(c, s, t) && Set(c, t)
  {
    var a := LetGo(c, s);
    AlikeNotEnded(s, a);
    var b := RingFree(c, a);
    Join(c, s, a, b);
    LeftIs(c, b);
    WorkIsCounted(c, b);
    var n := b.workers.active + Left(b) + 1;
    UpdateKeeps(b, n);
    t := AfterCall(b, OpUpdate(n));
    MoveM(c, b, Call(OpUpdate(n)), t);
    Join(c, s, b, t);
  }

  lemma WorkIsCounted(c: Config, s: State)
    requires Inv(c, s)
    ensures s.workers.active >= 0
  {
  }

  // ---------------------------------------------------------------- starting the loop

  lemma Unit(u: ())
    ensures u == ()
  {
  }

  lemma Launches(c: Config, s: State, j: nat) returns (t: State)
    requires Set(c, s) && s.sched.NotLaunched? && s.once.start.Running? && s.once.start.who == j
    ensures Leads(c, s, t) && Roomy(c, t)
  {
    assert s.callers[j].Launching'?;
    Unit(s.once.start.at);
    t := AfterStarting(s, j);
    MoveM(c, s, OfStart(j), t);
  }

  lemma Starts(c: Config, s: State, j: nat) returns (t: State)
    requires Set(c, s) && s.sched.NotLaunched? && s.once.start.Fresh? && j < |s.callers|
    requires s.callers[j].Starting? && s.callers[j].start.EnterStart?
    ensures Leads(c, s, t) && Roomy(c, t)
  {
    var u := AfterStarting(s, j);
    MoveM(c, s, OfStart(j), u);
    t := Launches(c, u, j);
    Join(c, s, u, t);
  }

  lemma PassesCount(c: Config, s: State, j: nat)
    requires StartEnabled(s, j) && s.callers[j].Starting? && s.callers[j].start.LoadCount? && s.workers.limit != 0
    ensures var t := AfterStarting(s, j);
      && |t.callers| == |s.callers| && t.callers[j] == Starting(EnterStart, s.callers[j].releasing)
      && t == s.(callers := t.callers)
  {
  }

  lemma StartsPastCheck(c: Config, s: State, j: nat) returns (t: State)
    requires Set(c, s) && s.sched.NotLaunched? && s.once.start.Fresh? && j < |s.callers| && PastStopCheck(s.callers[j])
    ensures Leads(c, s, t) && Roomy(c, t)
  {
    if s.callers[j].start.EnterStart? {
      t := Starts(c, s, j);
    } else {
      PassesCount(c, s, j);
      var u := AfterStarting(s, j);
      MoveM(c, s, OfStart(j), u);
      assert PastStopCheck(u.callers[j]);
      t := Starts(c, u, j);
      Join(c, s, u, t);
    }
  }

  /** A new caller of Start that finds the queue not shut down. */
  lemma StartCalled(c: Config, s: State) returns (t: State)
    requires Set(c, s) && s.sched.NotLaunched? && s.once.start.Fresh? && !s.stopFlag
    ensures Leads(c, s, t) && Set(c, t) && t.sched.NotLaunched? && t.once.start.Fresh?
    ensures |s.callers| < |t.callers| && PastStopCheck(t.callers[|s.callers|])
  {
    var j := |s.callers|;
    var u := AfterCall(s, OpStart);
    MoveM(c, s, Call(OpStart), u);
    t := u.(callers := u.callers[j := Starting(LoadCount, false)]);
    MoveM(c, u, OfStart(j), t);
    Join(c, s, u, t);
    assert PastStopCheck(t.callers[j]);
  }

  /** The loop runs, or can be started. */
  lemma GetRunning(c: Config, s: State) returns (t: State)
    requires Set(c, s)
    ensures Leads(c, s, t) && Roomy(c, t)
  {
    if !s.sched.NotLaunched? {
      Stay(c, s);
      t := s;
    } else if s.once.start.Running? {
      t := Launches(c, s, s.once.start.who);
    } else if s.stopFlag {
      var j: nat :| j < |s.callers| && PastStopCheck(s.callers[j]);
      t := StartsPastCheck(c, s, j);
    } else {
      var u := StartCalled(c, s);
      t := StartsPastCheck(c, u, |s.callers|);
      Join(c, s, u, t);
    }
  }

  // ---------------------------------------------------------------- the theorem

  lemma RunningCanServe(c: Config, s: State)
    requires Mem(c, s) && !Ended'(s)
    ensures CanServe(c, s)
  {
    var a := MakeRoom(c, s);
    var b := GetRunning(c, a);
    Join(c, s, a, b);
    var d := TakeAll(c, b);
    Join(c, s, b, d);
    FinishServing(c, d);
    CanServeVia(c, s, d);
  }

  lemma FinishServing(c: Config, s: State)
    requires Mem(c, s) && s.qlock.Free? && Left(s) == 0
    ensures CanServe(c, s)
  {
    var t := RunAll(c, s, 0);
    LeftIs(c, t);
    assert Served(t);
  }

  lemma CanServeVia(c: Config, s: State, t: State)
    requires Leads(c, s, t) && CanServe(c, t)
    ensures CanServe(c, s)
  {
    var u :| Leads(c, t, u) && Served(u);
    Join(c, s, t, u);
  }

  lemma EmptyCanServe(c: Config, s: State)
    requires Mem(c, s) && Ended'(s) && s.ring.fifo.items == []
    ensures CanServe(c, s)
  {
    EndedIsEmptyHanded(c, s);
    LeftIs(c, s);
    var t := LetGo(c, s);
    FinishServing(c, t);
    CanServeVia(c, s, t);
  }

  lemma {:induction false} NoReservingRun(c: Config, s: State, steps: seq<Step>, t: State)
    requires !c.managed && !s.req.Reserving? && Run(c, s, steps, t)
    ensures !t.req.Reserving?
    decreases |steps|
  {
    if steps == [] {
    } else {
      NeverReserves(c, s, steps[0]);
      NoReservingRun(c, Apply(c, s, steps[0]), steps[1..], t);
    }
  }

  lemma ReachableMem(c: Config, s: State)
    requires ValidConfig(c) && c.inMemory && Reachable(c, s)
    ensures Mem(c, s)
  {
    ReachableGood(c, s);
    ReachableExits(c, s);
    var steps :| Run(c, Initial(c), steps, s);
    NoReservingRun(c, Initial(c), steps, s);
  }

  /**
   From every reachable state of an in-memory queue, all accepted tasks can still be
   given to a wrapper and finish if and only if the ring is empty or the loop can
   still take from it: it is not leaving, the last request does not lead out, and
   it runs or can be started.
   */
  lemma ServesExactly(c: Config, s: State)
    requires ValidConfig(c) && c.inMemory && Reachable(c, s)
    ensures CanServe(c, s) <==>
            s.ring.fifo.items == [] || !(Committed(s) || LeadsOut(s) || NeverStarts(s))
  {
    ReachableMem(c, s);
    if !Ended'(s) {
      RunningCanServe(c, s);
    } else if s.ring.fifo.items == [] {
      EmptyCanServe(c, s);
    } else {
      EndedCannotServe(c, s);
    }
  }
}
