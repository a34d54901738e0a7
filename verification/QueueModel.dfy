/**
 The queue of queue.go as a labelled transition system: producers, the scheduler
 goroutine, one request goroutine at a time, work wrappers and the callers of
 Start, CloseAdmission, ReleaseContext, Shutdown and UpdateWorkerCount, with one
 step per mutex section, atomic access or channel operation.

 Each actor's step is given by what it writes (`...Writes`), row by row; `Apply`
 puts those values into the state and leaves the rest alone.

 Timers and contexts may fire at any moment, so a select with a timer case can
 always proceed. A panic of the runtime (closing a closed channel, sending on a
 closed one) and an ignored counter error both set `fault`.
 */
module QueueModel {
  import opened Wrappers
  import opened RingBuffer
  import RG = RoutineGroup
  import L = Lifecycle

  type Task = nat

  /**
   A Ring cannot report worker status, so a queue with a lifecycle always has an
   external worker (management_lifecycle.go, NewQueue).
   */
  datatype Config = Config(inMemory: bool, managed: bool, capacity: nat, workerCount: int)

  ghost predicate ValidConfig(c: Config) { c.managed ==> !c.inMemory }

  // ---------------------------------------------------------------- program counters

  /** queue(), queue.go:283-306. */
  datatype Producer =
    | Admitted(task: Task)                  // beginAdmission accepted it
    | InRing(task: Task, stopped: bool)     // holds the ring's lock, stop flag loaded
    | InBackend(task: Task)                 // inside an external Worker.Queue
    | Notifying                             // the worker accepted the task
    | Ending                                // endAdmission is next
    | Done(admitted: bool)

  /** start(), queue.go:661-776. */
  datatype Scheduler =
    | NotLaunched
    | Scheduling                            // inside or about to enter schedule()
    | Selecting
    | TookReady                             // external: drainFlag load is next
    | LeavingReserved | SkippingReserved    // holds a reservation it will release
    | CheckingCapacity | Spawning | Receiving
    | GotNil                                // drainFlag load is next
    | GotTask(task: Task) | Launching(task: Task)
    | Leaving                               // group done is next
    | Gone

  datatype RequestError = NoError | NoTaskError | OtherError

  /** The request goroutine of start(), queue.go:697-757. */
  datatype Request =
    | Idle
    | Calling                               // Worker.Request is called or running
    | Locked(stoppedEarly: bool)            // holds the ring's lock
    | Returned(task: Option<Task>, err: RequestError)
    | HaveTask(t: Task, failed: bool)
    | Pacing(t: Task)
    | Sending(msg: Option<Task>)
    | NoTask(err: RequestError)
    | Waiting(err: RequestError)
    | PollingDrain(err: RequestError)
    | Reserving(err: RequestError)
    | PollingQuit(err: RequestError)

  /** work() and workManaged(), queue.go:310-361. */
  datatype WrapperPc = Working | Rescheduling | Counting | EndingJob | Exiting | Finished

  datatype Wrapper = Wrapper(task: Task, pc: WrapperPc)

  /** Start, queue.go:111-127. */
  datatype StartPc = LoadStop | LoadCount | EnterStart

  /** The body of CloseAdmission, queue.go:181-204. */
  datatype ClosePc =
    | FlagSection                              // admissionMu section
    | RingCas | RingSection | WakeRequest      // in memory
    | CloseDrain | TakeReady' | RefundReady    // external

  /** The body of Shutdown, queue.go:133-153. */
  datatype ShutPc = StopSection | LoadDrain' | StopRing | StopRingSection | AwaitExit | StopWorker | CloseQuit

  /** `releasing`: the call is made by ReleaseContext, which goes on afterwards. */
  datatype Caller =
    | Starting(start: StartPc, releasing: bool)
    | Launching'(releasing: bool)                  // runs the body of startOnce
    | CloseEnter(releasing: bool)
    | Closing(releasing: bool)                     // runs the body of drainOnce
    | ShutEnter(releasing: bool)
    | Shutting(releasing: bool)                    // runs the body of stopOnce
    // ReleaseContext and drainContext, queue.go:212-222 and 778-802
    | ReleaseLoad | WaitAdmissions | WaitExit
    | CaptureIdle(first: bool) | WaitIdle(first: bool, generation: nat)
    // UpdateWorkerCount and resume
    | CallSchedule
    | Over                                         // returned from anything else
    | ReleaseFailed                                // ReleaseContext returned an error
    | ReleasedNil                                  // ReleaseContext returned nil

  /** A sync.Once: while it runs, the caller running the body and where that body stands. */
  datatype Once<P> = Fresh | Running(who: nat, at: P) | Completed

  datatype DoneChannel = Absent | Open | Closed

  datatype LockHolder = ByProducer(i: nat) | ByRequest

  datatype ScheduleBy = OfScheduler | OfWrapper(i: nat) | OfCaller(i: nat)

  /** Where the one schedule() call that holds the queue's mutex stands. */
  datatype QueueLock =
    | Free
    | Checked(who: ScheduleBy)       // past the drain check
    | Capable(who: ScheduleBy)       // below the worker count
    | Reserved(who: ScheduleBy)      // holds a reservation if managed
    | Refunding(who: ScheduleBy)     // ready was full, EndAdmission is next

  datatype WorkerShutdown = NotCalled | InShutdown | ShutdownDone

  // ---------------------------------------------------------------- state

  datatype RingPart = RingPart(fifo: Fifo<Task>, stop: bool, lock: Option<LockHolder>)

  datatype Admission = Admission(count: int, done: DoneChannel)

  datatype Channels = Channels(ready: bool, notify: bool, quit: bool, drain: bool,
                               tasks: Option<Option<Task>>, tasksClosed: bool)

  datatype Onces = Onces(start: Once<()>, drain: Once<ClosePc>, stop: Once<ShutPc>)

  datatype Workers = Workers(limit: int, largest: int, active: int)

  /** What happened, for the statements below; no step reads it. */
  datatype History = History(accepted: seq<Task>, requested: seq<Task>, requestCalls: nat,
                             succeeded: nat, failed: nat, leaked: nat,
                             directShutdown: bool)

  datatype State = State(
    ring: RingPart, adm: Admission, ch: Channels, once: Onces,
    drainFlag: bool, stopFlag: bool, started: bool,
    qlock: QueueLock, workers: Workers, group: RG.Group,
    sched: Scheduler, req: Request, finishing: nat,
    producers: seq<Producer>, wrappers: seq<Wrapper>, callers: seq<Caller>,
    life: L.Life, worker: WorkerShutdown, shutdownFailed: bool,
    hist: History, fault: bool)

  function Initial(c: Config): (s: State)
  {
    State(RingPart(Fifo([], false), false, None), Admission(0, Absent),
          Channels(false, false, false, false, None, false), Onces(Fresh, Fresh, Fresh),
          false, false, false,
          Free, Workers(c.workerCount, c.workerCount, 0), RG.Empty,
          NotLaunched, Idle, 0,
          [], [], [],
          L.Fresh, NotCalled, false,
          History([], [], 0, 0, 0, 0, false), false)
  }

  // ---------------------------------------------------------------- shared effects

  /** A lifecycle call whose error the queue ignores. */
  function Counted(c: Config, l: L.Life, r: Option<L.Life>): L.Life
  {
    if c.managed && r.Some? then r.value else l
  }

  predicate CounterError(c: Config, r: Option<L.Life>) { c.managed && r.None? }

  function GroupDone(g: RG.Group): RG.Group { if g.active == 0 then g else RG.Leave(g) }

  /** A negative count, or a second close of the idle channel. */
  predicate GroupFault(g: RG.Group) { g.active == 0 || (g.active == 1 && g.closed) }

  // ---------------------------------------------------------------- producers

  datatype ProducerStep =
    | Invalid | EnterRing | CommitRing | EnterBackend | BackendReturns(ok: bool) | Notify | End

  /** beginAdmission: both flags are written inside the same mutex. */
  predicate Admits(s: State) { !s.stopFlag && !s.drainFlag }

  predicate ProducerEnabled(c: Config, s: State, i: nat, st: ProducerStep)
  {
    && i < |s.producers|
    && match st
       case Invalid => s.producers[i].Admitted?
       case EnterRing => s.producers[i].Admitted? && c.inMemory && s.ring.lock.None?
       case CommitRing => s.producers[i].InRing?
       case EnterBackend => s.producers[i].Admitted? && !c.inMemory
       case BackendReturns(_) => s.producers[i].InBackend? && !c.inMemory
       case Notify => s.producers[i].Notifying?
       case End => s.producers[i].Ending?
  }

  datatype ProducerWrites = ProducerWrites(pc: Producer, ring: RingPart, adm: Admission, notify: bool,
                                           accepted: seq<Task>, fault: bool)

  function ProducerRow(c: Config, s: State, i: nat, st: ProducerStep): ProducerWrites
    requires ProducerEnabled(c, s, i, st)
  {
    var p := s.producers[i];
    var w := ProducerWrites(p, s.ring, s.adm, s.ch.notify, s.hist.accepted, s.fault);
    match st
    case Invalid => w.(pc := Ending)
    case EnterRing => w.(pc := InRing(p.task, s.ring.stop), ring := s.ring.(lock := Some(ByProducer(i))))
    case CommitRing =>
      var (f, outcome) := Put(s.ring.fifo, c.capacity, p.stopped, p.task);
      w.(ring := s.ring.(fifo := f, lock := None),
         pc := if outcome.Accepted? then Notifying else Ending,
         accepted := if outcome.Accepted? then s.hist.accepted + [p.task] else s.hist.accepted)
    case EnterBackend => w.(pc := InBackend(p.task))
    case BackendReturns(ok) =>
      w.(pc := if ok then Notifying else Ending,
         accepted := if ok then s.hist.accepted + [p.task] else s.hist.accepted)
    case Notify => w.(pc := Ending, notify := true)
    case End =>
      var n := s.adm.count - 1;
      var closes := n == 0 && !s.adm.done.Absent?;
      w.(pc := Done(true), adm := Admission(n, if closes then Closed else s.adm.done),
         fault := s.fault || (closes && s.adm.done.Closed?))
  }

  // ---------------------------------------------------------------- schedule()

  datatype ScheduleStep = Enter(who: ScheduleBy) | CheckCapacity | Reserve | Offer | Refund

  predicate AtSchedule(s: State, who: ScheduleBy)
  {
    match who
    case OfScheduler => s.sched.Scheduling?
    case OfWrapper(i) => i < |s.wrappers| && s.wrappers[i].pc.Rescheduling?
    case OfCaller(i) => i < |s.callers| && s.callers[i].CallSchedule?
  }

  predicate ScheduleEnabled(c: Config, s: State, st: ScheduleStep)
  {
    match st
    case Enter(who) => s.qlock.Free? && AtSchedule(s, who)
    case CheckCapacity => s.qlock.Checked? && AtSchedule(s, s.qlock.who)
    case Reserve => s.qlock.Capable? && AtSchedule(s, s.qlock.who)
    case Offer => s.qlock.Reserved? && AtSchedule(s, s.qlock.who)
    case Refund => s.qlock.Refunding? && AtSchedule(s, s.qlock.who)
  }

  function ScheduleCaller(s: State, st: ScheduleStep): ScheduleBy
    requires st.Enter? || !s.qlock.Free?
  {
    if st.Enter? then st.who else s.qlock.who
  }

  /** A free lock afterwards means schedule() returned and its caller goes on. */
  datatype ScheduleWrites = ScheduleWrites(qlock: QueueLock, ready: bool, life: L.Life, fault: bool)

  function ScheduleRow(c: Config, s: State, st: ScheduleStep): ScheduleWrites
    requires ScheduleEnabled(c, s, st)
  {
    var w := ScheduleWrites(Free, s.ch.ready, s.life, s.fault);
    match st
    case Enter(who) => if s.drainFlag && !c.inMemory then w else w.(qlock := Checked(who))
    case CheckCapacity =>
      if s.workers.active >= s.workers.limit then w else w.(qlock := Capable(s.qlock.who))
    case Reserve =>
      if !c.managed then w.(qlock := Reserved(s.qlock.who))
      else (match L.BeginAdmission(s.life)
            case None => w
            case Some(l) => w.(life := l, qlock := Reserved(s.qlock.who)))
    case Offer => if s.ch.ready && c.managed then w.(qlock := Refunding(s.qlock.who)) else w.(ready := true)
    case Refund =>
      var r := L.EndAdmission(s.life);
      w.(life := Counted(c, s.life, r), fault := s.fault || CounterError(c, r))
  }

  // ---------------------------------------------------------------- scheduler

  datatype SchedulerStep =
    | TakeReady | TakeQuit | TakeDrain | LoadDrain | ReleaseReservation | HasCapacity
    | Spawn | Receive | LoadDrainAfterNil | CountBusy | Launch | Leave

  predicate SchedulerEnabled(c: Config, s: State, st: SchedulerStep)
  {
    match st
    case TakeReady => s.sched.Selecting? && s.ch.ready
    case TakeQuit => s.sched.Selecting? && s.ch.quit
    case TakeDrain => s.sched.Selecting? && s.ch.drain
    case LoadDrain => s.sched.TookReady?
    case ReleaseReservation => s.sched.LeavingReserved? || s.sched.SkippingReserved?
    case HasCapacity => s.sched.CheckingCapacity? && s.qlock.Free?
    case Spawn => s.sched.Spawning?
    case Receive => s.sched.Receiving? && (s.ch.tasks.Some? || s.ch.tasksClosed)
    case LoadDrainAfterNil => s.sched.GotNil?
    case CountBusy => s.sched.GotTask?
    case Launch => s.sched.Launching?
    case Leave => s.sched.Leaving?
  }

  datatype SchedulerWrites = SchedulerWrites(sched: Scheduler, req: Request, ready: bool,
                                             tasks: Option<Option<Task>>, group: RG.Group, active: int,
                                             wrappers: seq<Wrapper>, life: L.Life, requestCalls: nat,
                                             fault: bool)

  function SchedulerRow(c: Config, s: State, st: SchedulerStep): SchedulerWrites
    requires SchedulerEnabled(c, s, st)
  {
    var w := SchedulerWrites(s.sched, s.req, s.ch.ready, s.ch.tasks, s.group, s.workers.active,
                             s.wrappers, s.life, s.hist.requestCalls, s.fault);
    match st
    case TakeReady => w.(ready := false, sched := if c.inMemory then CheckingCapacity else TookReady)
    case TakeQuit => w.(sched := Leaving)
    case TakeDrain => w.(sched := Leaving)
    case LoadDrain => w.(sched := if s.drainFlag then LeavingReserved else CheckingCapacity)
    case ReleaseReservation =>
      var r := L.EndAdmission(s.life);
      w.(life := Counted(c, s.life, r), fault := s.fault || CounterError(c, r),
         sched := if s.sched.LeavingReserved? then Leaving else Scheduling)
    case HasCapacity =>
      w.(sched := if s.workers.active < s.workers.limit then Spawning else SkippingReserved)
    case Spawn =>
      w.(group := RG.Register(s.group), sched := Receiving, req := Calling,
         requestCalls := s.hist.requestCalls + 1)
    case Receive =>
      if s.ch.tasks.None? then w.(sched := Leaving)
      else w.(tasks := None,
              sched := match s.ch.tasks.value case None => GotNil case Some(t) => GotTask(t))
    case LoadDrainAfterNil => w.(sched := if s.drainFlag then Leaving else Scheduling)
    case CountBusy => w.(active := s.workers.active + 1, sched := Launching(s.sched.task))
    case Launch =>
      w.(group := RG.Register(s.group),
         wrappers := s.wrappers + [Wrapper(s.sched.task, Working)], sched := Scheduling)
    case Leave => w.(group := GroupDone(s.group), fault := s.fault || GroupFault(s.group), sched := Gone)
  }

  // ---------------------------------------------------------------- request goroutine

  datatype RequestStep =
    | LockRing | TakeRing | RequestReturns(task: Option<Task>, err: RequestError)
    | Account | LoadDrainFlag | Pace(notified: bool) | PollDrain | ReserveAgain | PollQuit
    | Send | Finish

  predicate RequestEnabled(c: Config, s: State, st: RequestStep)
  {
    match st
    case LockRing => s.req.Calling? && c.inMemory && s.ring.lock.None?
    case TakeRing => s.req.Locked?
    case RequestReturns(_, _) => s.req.Calling? && !c.inMemory
    case Account => s.req.Returned?
    case LoadDrainFlag => s.req.HaveTask? || s.req.NoTask?
    case Pace(notified) => (s.req.Pacing? || s.req.Waiting?) && (notified ==> s.ch.notify)
    case PollDrain => s.req.PollingDrain?
    case ReserveAgain => s.req.Reserving?
    case PollQuit => s.req.PollingQuit?
    case Send => s.req.Sending? && s.ch.tasks.None?
    case Finish => s.finishing > 0
  }

  datatype RequestWrites = RequestWrites(req: Request, ring: RingPart, ch: Channels, life: L.Life,
                                         hist: History, finishing: nat, group: RG.Group, fault: bool)

  function Noted(h: History, task: Option<Task>): History
  {
    if task.Some? then h.(requested := h.requested + [task.value]) else h
  }

  /** Once its result is delivered, only the goroutine's group done is left (`finishing`). */
  function RequestRow(c: Config, s: State, st: RequestStep): RequestWrites
    requires RequestEnabled(c, s, st)
  {
    var w := RequestWrites(s.req, s.ring, s.ch, s.life, s.hist, s.finishing, s.group, s.fault);
    match st
    case LockRing => w.(req := Locked(s.ring.stop), ring := s.ring.(lock := Some(ByRequest)))
    case TakeRing =>
      var (f, outcome) := Take(s.ring.fifo, s.req.stoppedEarly, s.ring.stop);
      var task := if outcome.Taken? then Some(outcome.task) else None;
      var err := if outcome.Taken? then NoError
                 else if outcome.NoTaskInQueue? then NoTaskError else OtherError;
      w.(ring := s.ring.(fifo := f, lock := None), req := Returned(task, err), hist := Noted(s.hist, task))
    case RequestReturns(task, err) => w.(req := Returned(task, err), hist := Noted(s.hist, task))
    case Account =>
      var r := if s.req.task.None? then L.EndAdmission(s.life) else L.PromoteAdmissionToJob(s.life);
      w.(life := Counted(c, s.life, r), fault := s.fault || CounterError(c, r),
         req := if s.req.task.None? then NoTask(s.req.err)
                else HaveTask(s.req.task.value, !s.req.err.NoError?))
    case LoadDrainFlag =>
      w.(req :=
        if s.req.HaveTask?
        then if s.req.failed && !s.drainFlag then Pacing(s.req.t) else Sending(Some(s.req.t))
        else if s.drainFlag then Sending(None)
        else if s.req.err.NoError? then PollingDrain(s.req.err) else Waiting(s.req.err))
    case Pace(notified) =>
      w.(ch := s.ch.(notify := s.ch.notify && !notified),
         req := if s.req.Pacing? then Sending(Some(s.req.t)) else PollingDrain(s.req.err))
    case PollDrain =>
      w.(req := if s.ch.drain then Sending(None)
                else if c.managed then Reserving(s.req.err) else PollingQuit(s.req.err))
    case ReserveAgain =>
      (match L.BeginAdmission(s.life)
       case None => w.(req := Sending(None))
       case Some(l) => w.(life := l, req := PollingQuit(s.req.err)))
    case PollQuit =>
      if s.ch.quit && !s.req.err.NoTaskError?
      then w.(req := Idle, finishing := s.finishing + 1,
              ch := s.ch.(tasksClosed := true), fault := s.fault || s.ch.tasksClosed,
              hist := s.hist.(leaked := s.hist.leaked + 1))
      else w.(req := Calling, hist := s.hist.(requestCalls := s.hist.requestCalls + 1))
    case Send =>
      w.(req := Idle, finishing := s.finishing + 1,
         ch := s.ch.(tasks := Some(s.req.msg)), fault := s.fault || s.ch.tasksClosed)
    case Finish =>
      w.(group := GroupDone(s.group), fault := s.fault || GroupFault(s.group), finishing := s.finishing - 1)
  }

  // ---------------------------------------------------------------- work wrappers

  datatype WrapperStep = Settle | CountResult(ok: bool) | FinishJob | Exit

  predicate WrapperEnabled(c: Config, s: State, i: nat, st: WrapperStep)
  {
    && i < |s.wrappers|
    && match st
       case Settle => s.wrappers[i].pc.Working?
       case CountResult(_) => s.wrappers[i].pc.Counting?
       case FinishJob => s.wrappers[i].pc.EndingJob?
       case Exit => s.wrappers[i].pc.Exiting?
  }

  datatype WrapperWrites = WrapperWrites(pc: WrapperPc, active: int, succeeded: nat, failed: nat,
                                         life: L.Life, group: RG.Group, fault: bool)

  function WrapperRow(c: Config, s: State, i: nat, st: WrapperStep): WrapperWrites
    requires WrapperEnabled(c, s, i, st)
  {
    var w := WrapperWrites(s.wrappers[i].pc, s.workers.active, s.hist.succeeded, s.hist.failed,
                           s.life, s.group, s.fault);
    match st
    case Settle => w.(pc := Rescheduling, active := s.workers.active - 1)
    case CountResult(ok) =>
      if ok then w.(pc := EndingJob, succeeded := s.hist.succeeded + 1)
      else w.(pc := EndingJob, failed := s.hist.failed + 1)
    case FinishJob =>
      var r := L.EndJob(s.life);
      w.(pc := Exiting, life := Counted(c, s.life, r), fault := s.fault || CounterError(c, r))
    case Exit =>
      w.(pc := Finished, group := GroupDone(s.group), fault := s.fault || GroupFault(s.group))
  }

  // ---------------------------------------------------------------- callers

  datatype Operation = OpStart | OpClose | OpRelease | OpShutdown | OpUpdate(count: int) | OpSchedule

  predicate OperationEnabled(s: State, op: Operation) { op.OpUpdate? ==> s.qlock.Free? }

  function FirstPc(op: Operation): Caller
  {
    match op
    case OpStart => Starting(LoadStop, false)
    case OpClose => CloseEnter(false)
    case OpRelease => ReleaseLoad
    case OpShutdown => ShutEnter(false)
    case OpUpdate(_) => CallSchedule
    case OpSchedule => CallSchedule
  }

  function AfterStart(releasing: bool): Caller { if releasing then CloseEnter(true) else Over }

  function AfterClose(releasing: bool): Caller { if releasing then WaitAdmissions else Over }

  function AfterShut(releasing: bool): Caller { if releasing then CaptureIdle(false) else Over }

  predicate InRelease(p: Caller)
  {
    p.ReleaseLoad? || p.WaitAdmissions? || p.WaitExit? || p.CaptureIdle? || p.WaitIdle?
  }

  predicate StartEnabled(s: State, i: nat)
  {
    && i < |s.callers|
    && match s.callers[i]
       case Starting(start, _) =>
         (start.LoadCount? ==> s.qlock.Free?) && (start.EnterStart? ==> !s.once.start.Running?)
       case Launching'(_) => s.once.start == Running(i, ())
       case _ => false
  }

  datatype StartWrites = StartWrites(pc: Caller, once: Once<()>, started: bool, group: RG.Group, sched: Scheduler)

  function StartRow(s: State, i: nat): StartWrites
    requires StartEnabled(s, i)
  {
    var r := s.callers[i].releasing;
    var w := StartWrites(AfterStart(r), s.once.start, s.started, s.group, s.sched);
    match s.callers[i]
    case Starting(start, _) =>
      (match start
       case LoadStop => if s.stopFlag then w else w.(pc := Starting(LoadCount, r))
       case LoadCount => if s.workers.limit == 0 then w else w.(pc := Starting(EnterStart, r))
       case EnterStart =>
         if s.once.start.Fresh? then w.(pc := Launching'(r), once := Running(i, ()), started := true) else w)
    case Launching'(_) => w.(once := Completed, group := RG.Register(s.group), sched := Scheduling)
  }

  predicate CloseEnabled(s: State, i: nat)
  {
    && i < |s.callers|
    && match s.callers[i]
       case CloseEnter(_) => !s.once.drain.Running?
       case Closing(_) =>
         && s.once.drain.Running? && s.once.drain.who == i
         && (s.once.drain.at.RingSection? ==> s.ring.lock.None?)
       case _ => false
  }

  datatype CloseWrites = CloseWrites(pc: Caller, once: Once<ClosePc>, drainFlag: bool, done: DoneChannel,
                                     ring: RingPart, ch: Channels, life: L.Life, fault: bool)

  function CloseRow(c: Config, s: State, i: nat): CloseWrites
    requires CloseEnabled(s, i)
  {
    var p := s.callers[i];
    var w := CloseWrites(p, s.once.drain, s.drainFlag, s.adm.done, s.ring, s.ch, s.life, s.fault);
    var done := w.(pc := AfterClose(p.releasing), once := Completed);
    if p.CloseEnter? then
      if s.once.drain.Fresh? then w.(pc := Closing(p.releasing), once := Running(i, FlagSection)) else done
    else match s.once.drain.at
         case FlagSection =>
           w.(once := Running(i, if c.inMemory then RingCas else CloseDrain),
              drainFlag := true, done := if s.adm.count == 0 then Closed else Open)
         case RingCas =>
           w.(once := Running(i, if s.ring.stop then WakeRequest else RingSection), ring := s.ring.(stop := true))
         case RingSection =>
           w.(once := Running(i, WakeRequest), ring := s.ring.(fifo := CloseIfEmpty(s.ring.fifo)))
         case WakeRequest => done.(ch := s.ch.(notify := true))
         case CloseDrain =>
           w.(once := Running(i, TakeReady'), ch := s.ch.(drain := true), fault := s.fault || s.ch.drain)
         case TakeReady' =>
           if s.ch.ready then w.(once := Running(i, RefundReady), ch := s.ch.(ready := false)) else done
         case RefundReady =>
           var e := L.EndAdmission(s.life);
           done.(life := Counted(c, s.life, e), fault := s.fault || CounterError(c, e))
  }

  predicate ShutEnabled(s: State, i: nat)
  {
    && i < |s.callers|
    && match s.callers[i]
       case ShutEnter(_) => !s.once.stop.Running?
       case Shutting(_) =>
         && s.once.stop.Running? && s.once.stop.who == i
         && (s.once.stop.at.StopRingSection? ==> s.ring.lock.None?)
         && (s.once.stop.at.AwaitExit? ==> s.ring.fifo.exitClosed)
       case _ => false
  }

  datatype ShutWrites = ShutWrites(pc: Caller, once: Once<ShutPc>, stopFlag: bool, worker: WorkerShutdown,
                                   ring: RingPart, shutdownFailed: bool, quit: bool, fault: bool)

  /** `failed` is what an external Worker.Shutdown reports when it returns. */
  function ShutRow(c: Config, s: State, i: nat, failed: bool): ShutWrites
    requires ShutEnabled(s, i)
  {
    var p := s.callers[i];
    var w := ShutWrites(p, s.once.stop, s.stopFlag, s.worker, s.ring, s.shutdownFailed, s.ch.quit, s.fault);
    var done := w.(pc := AfterShut(p.releasing), once := Completed);
    if p.ShutEnter? then
      if s.once.stop.Fresh? then w.(pc := Shutting(p.releasing), once := Running(i, StopSection)) else done
    else match s.once.stop.at
         case StopSection => w.(once := Running(i, LoadDrain'), stopFlag := true)
         case LoadDrain' =>
           if !c.inMemory then w.(once := Running(i, StopWorker), worker := InShutdown)
           else w.(once := Running(i, if s.drainFlag then CloseQuit else StopRing))
         case StopRing =>
           w.(once := Running(i, if s.ring.stop then CloseQuit else StopRingSection),
              ring := s.ring.(stop := true), shutdownFailed := s.shutdownFailed || s.ring.stop)
         case StopRingSection =>
           w.(once := Running(i, AwaitExit), ring := s.ring.(fifo := CloseIfEmpty(s.ring.fifo)))
         case AwaitExit => w.(once := Running(i, CloseQuit))
         case StopWorker => w.(once := Running(i, CloseQuit), worker := ShutdownDone, shutdownFailed := failed)
         case CloseQuit => done.(quit := true, fault := s.fault || s.ch.quit)
  }

  /** `expired`: the caller's context ended while it waited. */
  predicate ReleaseEnabled(s: State, i: nat, expired: bool)
  {
    && i < |s.callers| && InRelease(s.callers[i])
    && match s.callers[i]
       case WaitAdmissions => expired || s.adm.done.Closed?
       case WaitExit => expired || s.ring.fifo.exitClosed
       case WaitIdle(_, g) => expired || RG.IdleClosed(s.group, g)
       case _ => !expired
  }

  function ReleaseRow(c: Config, s: State, i: nat, expired: bool): Caller
    requires ReleaseEnabled(s, i, expired)
  {
    if expired then ReleaseFailed
    else match s.callers[i]
         case ReleaseLoad => if c.inMemory && !s.started then Starting(LoadStop, true) else CloseEnter(true)
         case WaitAdmissions => if c.inMemory then WaitExit else CaptureIdle(true)
         case WaitExit => CaptureIdle(true)
         case CaptureIdle(first) => WaitIdle(first, s.group.generation)
         case WaitIdle(first, _) =>
           if first then ShutEnter(true) else if s.shutdownFailed then ReleaseFailed else ReleasedNil
  }

  // ---------------------------------------------------------------- the system

  datatype Step =
    | Submit(task: Task)
    | OfProducer(i: nat, producer: ProducerStep)
    | OfSchedule(schedule: ScheduleStep)
    | OfSched(scheduler: SchedulerStep)
    | OfRequest(request: RequestStep)
    | OfWork(i: nat, wrapper: WrapperStep)
    | Call(op: Operation)
    | OfStart(i: nat)
    | OfClose(i: nat)
    | OfShut(i: nat, failed: bool)
    | OfRelease(i: nat, expired: bool)
    | SetDesired(state: L.DesiredState)   // a management transition's first section

  predicate Enabled(c: Config, s: State, step: Step)
  {
    match step
    case Submit(_) => true
    case OfProducer(i, st) => ProducerEnabled(c, s, i, st)
    case OfSchedule(st) => ScheduleEnabled(c, s, st)
    case OfSched(st) => SchedulerEnabled(c, s, st)
    case OfRequest(st) => RequestEnabled(c, s, st)
    case OfWork(i, st) => WrapperEnabled(c, s, i, st)
    case Call(op) => OperationEnabled(s, op)
    case OfStart(i) => StartEnabled(s, i)
    case OfClose(i) => CloseEnabled(s, i)
    case OfShut(i, _) => ShutEnabled(s, i)
    case OfRelease(i, expired) => ReleaseEnabled(s, i, expired)
    case SetDesired(state) => L.EnterState(s.life, state).Some?
  }

  function AfterSubmit(s: State, task: Task): (t: State)
  {
    s.(producers := s.producers + [if Admits(s) then Admitted(task) else Done(false)],
       adm := s.adm.(count := if Admits(s) then s.adm.count + 1 else s.adm.count))
  }

  function AfterProducer(c: Config, s: State, i: nat, st: ProducerStep): (t: State)
    requires ProducerEnabled(c, s, i, st)
  {
    var w := ProducerRow(c, s, i, st);
    s.(producers := s.producers[i := w.pc], ring := w.ring, adm := w.adm,
       ch := s.ch.(notify := w.notify), hist := s.hist.(accepted := w.accepted), fault := w.fault)
  }

  function AfterSchedule(c: Config, s: State, st: ScheduleStep): (t: State)
    requires ScheduleEnabled(c, s, st)
  {
    var w := ScheduleRow(c, s, st);
    var who := ScheduleCaller(s, st);
    var back := w.qlock.Free?;
    s.(qlock := w.qlock, ch := s.ch.(ready := w.ready), life := w.life, fault := w.fault,
       sched := if back && who.OfScheduler? then Selecting else s.sched,
       wrappers := if back && who.OfWrapper? then s.wrappers[who.i := s.wrappers[who.i].(pc := Counting)]
                   else s.wrappers,
       callers := if back && who.OfCaller? then s.callers[who.i := Over] else s.callers)
  }

  function AfterSched(c: Config, s: State, st: SchedulerStep): (t: State)
    requires SchedulerEnabled(c, s, st)
  {
    var w := SchedulerRow(c, s, st);
    s.(sched := w.sched, req := w.req, ch := s.ch.(ready := w.ready, tasks := w.tasks), group := w.group,
       workers := s.workers.(active := w.active), wrappers := w.wrappers, life := w.life,
       hist := s.hist.(requestCalls := w.requestCalls), fault := w.fault)
  }

  function AfterRequest(c: Config, s: State, st: RequestStep): (t: State)
    requires RequestEnabled(c, s, st)
  {
    var w := RequestRow(c, s, st);
    s.(req := w.req, ring := w.ring, ch := w.ch, life := w.life, hist := w.hist,
       finishing := w.finishing, group := w.group, fault := w.fault)
  }

  function AfterWork(c: Config, s: State, i: nat, st: WrapperStep): (t: State)
    requires WrapperEnabled(c, s, i, st)
  {
    var w := WrapperRow(c, s, i, st);
    s.(wrappers := s.wrappers[i := s.wrappers[i].(pc := w.pc)], workers := s.workers.(active := w.active),
       hist := s.hist.(succeeded := w.succeeded, failed := w.failed),
       life := w.life, group := w.group, fault := w.fault)
  }

  function AfterCall(s: State, op: Operation): (t: State)
    requires OperationEnabled(s, op)
  {
    s.(callers := s.callers + [FirstPc(op)],
       hist := s.hist.(directShutdown := s.hist.directShutdown || op.OpShutdown?),
       workers := if op.OpUpdate?
                  then s.workers.(limit := op.count,
                                  largest := if op.count > s.workers.largest then op.count else s.workers.largest)
                  else s.workers)
  }

  function AfterStarting(s: State, i: nat): (t: State)
    requires StartEnabled(s, i)
  {
    var w := StartRow(s, i);
    s.(callers := s.callers[i := w.pc], once := s.once.(start := w.once), started := w.started,
       group := w.group, sched := w.sched)
  }

  function AfterClosing(c: Config, s: State, i: nat): (t: State)
    requires CloseEnabled(s, i)
  {
    var w := CloseRow(c, s, i);
    s.(callers := s.callers[i := w.pc], once := s.once.(drain := w.once), drainFlag := w.drainFlag,
       adm := s.adm.(done := w.done), ring := w.ring, ch := w.ch, life := w.life, fault := w.fault)
  }

  function AfterShutting(c: Config, s: State, i: nat, failed: bool): (t: State)
    requires ShutEnabled(s, i)
  {
    var w := ShutRow(c, s, i, failed);
    s.(callers := s.callers[i := w.pc], once := s.once.(stop := w.once), stopFlag := w.stopFlag,
       worker := w.worker, ring := w.ring, shutdownFailed := w.shutdownFailed,
       ch := s.ch.(quit := w.quit), fault := w.fault)
  }

  function AfterReleasing(c: Config, s: State, i: nat, expired: bool): (t: State)
    requires ReleaseEnabled(s, i, expired)
  {
    s.(callers := s.callers[i := ReleaseRow(c, s, i, expired)])
  }

  function Apply(c: Config, s: State, step: Step): (t: State)
    requires Enabled(c, s, step)
  {
    match step
    case Submit(task) => AfterSubmit(s, task)
    case OfProducer(i, st) => AfterProducer(c, s, i, st)
    case OfSchedule(st) => AfterSchedule(c, s, st)
    case OfSched(st) => AfterSched(c, s, st)
    case OfRequest(st) => AfterRequest(c, s, st)
    case OfWork(i, st) => AfterWork(c, s, i, st)
    case Call(op) => AfterCall(s, op)
    case OfStart(i) => AfterStarting(s, i)
    case OfClose(i) => AfterClosing(c, s, i)
    case OfShut(i, failed) => AfterShutting(c, s, i, failed)
    case OfRelease(i, expired) => AfterReleasing(c, s, i, expired)
    case SetDesired(state) => s.(life := L.EnterState(s.life, state).value)
  }

  ghost predicate Run(c: Config, s: State, steps: seq<Step>, t: State)
    decreases |steps|
  {
    if steps == [] then t == s
    else Enabled(c, s, steps[0]) && Run(c, Apply(c, s, steps[0]), steps[1..], t)
  }

  ghost predicate Reachable(c: Config, s: State)
  {
    exists steps :: Run(c, Initial(c), steps, s)
  }
}
