/** Leading a queue from one state to another: chosen continuations, and the calls that can always finish. */
module QueueProgress {
  import opened QueueModel
  import opened QueueInvariants
  import opened QueueTheorems

  ghost predicate Leads(c: Config, s: State, t: State) { exists steps :: Run(c, s, steps, t) }

  lemma {:induction false} RunJoin(c: Config, s: State, a: seq<Step>, t: State, b: seq<Step>, u: State)
    requires Run(c, s, a, t) && Run(c, t, b, u)
    ensures Run(c, s, a + b, u)
    decreases |a|
  {
    if a == [] {
      assert a + b == b;
    } else {
      RunJoin(c, Apply(c, s, a[0]), a[1..], t, b, u);
      assert (a + b)[1..] == a[1..] + b;
    }
  }

  lemma Stay(c: Config, s: State)
    ensures Leads(c, s, s)
  {
    assert Run(c, s, [], s);
  }

  lemma Join(c: Config, s: State, t: State, u: State)
    requires Leads(c, s, t) && Leads(c, t, u)
    ensures Leads(c, s, u)
  {
    var a :| Run(c, s, a, t);
    var b :| Run(c, t, b, u);
    RunJoin(c, s, a, t, b, u);
  }

  lemma OneStep(c: Config, s: State, step: Step, t: State)
    requires Enabled(c, s, step) && Apply(c, s, step) == t
    ensures Leads(c, s, t)
  {
    assert Run(c, t, [], t);
    assert [step][1..] == [];
    assert Run(c, s, [step], t);
  }

  // ---------------------------------------------------------------- who runs what

  /** The caller running a once body is there. */
  ghost predicate OwnersOf(callers: seq<Caller>, once: Onces)
  {
    && (once.start.Running? ==> once.start.who < |callers| && callers[once.start.who].Launching'?)
    && (once.drain.Running? ==> once.drain.who < |callers| && callers[once.drain.who].Closing?)
    && (once.stop.Running? ==> once.stop.who < |callers| && callers[once.stop.who].Shutting?)
  }

  /** The schedule() call that holds the queue's mutex is there. */
  ghost predicate HolderOf(s: State) { s.qlock.Free? || AtSchedule(s, s.qlock.who) }

  lemma OwnersBySchedule(c: Config, s: State, st: ScheduleStep)
    requires OwnersOf(s.callers, s.once) && HolderOf(s) && ScheduleEnabled(c, s, st)
    ensures var t := AfterSchedule(c, s, st); OwnersOf(t.callers, t.once) && HolderOf(t)
  {
  }

  lemma OwnersByStart(s: State, i: nat)
    requires OwnersOf(s.callers, s.once) && HolderOf(s) && StartEnabled(s, i)
    ensures var t := AfterStarting(s, i); OwnersOf(t.callers, t.once) && HolderOf(t)
  {
  }

  lemma OwnersByClose(c: Config, s: State, i: nat)
    requires OwnersOf(s.callers, s.once) && HolderOf(s) && CloseEnabled(s, i)
    ensures var t := AfterClosing(c, s, i); OwnersOf(t.callers, t.once) && HolderOf(t)
  {
  }

  lemma OwnersByShut(c: Config, s: State, i: nat, failed: bool)
    requires OwnersOf(s.callers, s.once) && HolderOf(s) && ShutEnabled(s, i)
    ensures var t := AfterShutting(c, s, i, failed); OwnersOf(t.callers, t.once) && HolderOf(t)
  {
    ShutSummary(c, s, i, failed);
  }

  /** What the stop body writes, whichever part of it runs. */
  lemma ShutSummary(c: Config, s: State, i: nat, failed: bool)
    requires ShutEnabled(s, i)
    ensures var w := ShutRow(c, s, i, failed);
      && (w.once.Running? ==> w.once.who == i && w.pc.Shutting?)
      && (!w.once.Running? ==> w.once.Completed? && !w.pc.CallSchedule?)
      && !w.pc.Starting? && !w.pc.Launching'? && (s.stopFlag ==> w.stopFlag) && (s.ch.quit ==> w.quit)
      && w.ring.fifo.items == s.ring.fifo.items
  {
    if s.callers[i].Shutting? {
      match s.once.stop.at
      case StopSection =>
      case LoadDrain' =>
      case StopRing =>
      case StopRingSection =>
      case AwaitExit =>
      case StopWorker =>
      case CloseQuit =>
    }
  }

  lemma OwnersByRelease(c: Config, s: State, i: nat, expired: bool)
    requires OwnersOf(s.callers, s.once) && HolderOf(s) && ReleaseEnabled(s, i, expired)
    ensures var t := AfterReleasing(c, s, i, expired); OwnersOf(t.callers, t.once) && HolderOf(t)
  {
  }

  lemma HolderBySched(c: Config, s: State, st: SchedulerStep)
    requires HolderOf(s) && SchedulerEnabled(c, s, st)
    ensures HolderOf(AfterSched(c, s, st))
  {
  }

  lemma HolderByWork(c: Config, s: State, i: nat, st: WrapperStep)
    requires HolderOf(s) && WrapperEnabled(c, s, i, st)
    ensures HolderOf(AfterWork(c, s, i, st))
  {
  }

  lemma OwnersByCall(s: State, op: Operation)
    requires OwnersOf(s.callers, s.once) && HolderOf(s) && OperationEnabled(s, op)
    ensures var t := AfterCall(s, op); OwnersOf(t.callers, t.once) && HolderOf(t)
  {
  }

  lemma OwnersStep(c: Config, s: State, step: Step)
    requires OwnersOf(s.callers, s.once) && HolderOf(s) && Enabled(c, s, step)
    ensures var t := Apply(c, s, step); OwnersOf(t.callers, t.once) && HolderOf(t)
  {
    match step
    case OfSchedule(st) => OwnersBySchedule(c, s, st);
    case OfSched(st) => HolderBySched(c, s, st);
    case OfWork(i, st) => HolderByWork(c, s, i, st);
    case Call(op) => OwnersByCall(s, op);
    case OfStart(i) => OwnersByStart(s, i);
    case OfClose(i) => OwnersByClose(c, s, i);
    case OfShut(i, failed) => OwnersByShut(c, s, i, failed);
    case OfRelease(i, expired) => OwnersByRelease(c, s, i, expired);
    case _ =>
  }

  ghost predicate Good(c: Config, s: State)
  {
    ValidConfig(c) && Inv(c, s) && OwnersOf(s.callers, s.once) && HolderOf(s)
  }

  lemma GoodStep(c: Config, s: State, step: Step)
    requires Good(c, s) && Enabled(c, s, step)
    ensures Good(c, Apply(c, s, step))
  {
    StepKeeps(c, s, step);
    OwnersStep(c, s, step);
  }

  lemma {:induction false} GoodRun(c: Config, s: State, steps: seq<Step>, t: State)
    requires Good(c, s) && Run(c, s, steps, t)
    ensures Good(c, t)
    decreases |steps|
  {
    if steps == [] {
    } else {
      GoodStep(c, s, steps[0]);
      GoodRun(c, Apply(c, s, steps[0]), steps[1..], t);
    }
  }

  lemma ReachableGood(c: Config, s: State)
    requires ValidConfig(c) && Reachable(c, s)
    ensures Good(c, s)
  {
    assert Run(c, Initial(c), [], Initial(c));
    ReachableInv(c, Initial(c));
    var steps :| Run(c, Initial(c), steps, s);
    GoodRun(c, Initial(c), steps, s);
  }

  /** A step of a good state, for a caller that knows where it leads. */
  lemma Move(c: Config, s: State, step: Step, t: State)
    requires Good(c, s) && Enabled(c, s, step) && Apply(c, s, step) == t
    ensures Good(c, t) && Leads(c, s, t)
  {
    GoodStep(c, s, step);
    OneStep(c, s, step, t);
  }

  // ---------------------------------------------------------------- frames

  /** The flags, the once bodies and the worker's shutdown are as they were, and so is caller `i`. */
  ghost predicate Same(s: State, t: State, i: nat)
  {
    && t.once == s.once && t.drainFlag == s.drainFlag && t.stopFlag == s.stopFlag
    && t.ch.drain == s.ch.drain && t.ch.quit == s.ch.quit
    && t.worker == s.worker && t.shutdownFailed == s.shutdownFailed
    && |t.callers| == |s.callers| && i < |s.callers| && t.callers[i] == s.callers[i]
  }

  // ---------------------------------------------------------------- the queue's mutex

  function LockRank(q: QueueLock): nat
  {
    match q
    case Free => 0
    case Refunding(_) => 1
    case Reserved(_) => 2
    case Capable(_) => 3
    case Checked(_) => 4
  }

  function NextOfLock(q: QueueLock): ScheduleStep
    requires !q.Free?
  {
    match q
    case Checked(_) => CheckCapacity
    case Capable(_) => Reserve
    case Reserved(_) => Offer
    case _ => Refund
  }

  lemma LockMoves(c: Config, s: State, i: nat)
    requires HolderOf(s) && !s.qlock.Free? && i < |s.callers| && !s.callers[i].CallSchedule?
    ensures ScheduleEnabled(c, s, NextOfLock(s.qlock))
    ensures var t := AfterSchedule(c, s, NextOfLock(s.qlock));
      LockRank(t.qlock) < LockRank(s.qlock) && Same(s, t, i) && t.producers == s.producers
  {
    match s.qlock
    case Checked(who) =>
    case Capable(who) =>
    case Reserved(who) =>
    case Refunding(who) =>
  }

  /** Whoever holds the queue's mutex can let go of it. */
  lemma {:induction false} FreeLock(c: Config, s: State, i: nat) returns (t: State)
    requires Good(c, s) && i < |s.callers| && !s.callers[i].CallSchedule?
    ensures Leads(c, s, t) && Good(c, t) && t.qlock.Free? && Same(s, t, i) && t.producers == s.producers
    decreases LockRank(s.qlock)
  {
    if s.qlock.Free? {
      Stay(c, s);
      t := s;
    } else {
      LockMoves(c, s, i);
      var u := AfterSchedule(c, s, NextOfLock(s.qlock));
      Move(c, s, OfSchedule(NextOfLock(s.qlock)), u);
      t := FreeLock(c, u, i);
      Join(c, s, u, t);
    }
  }

  // ---------------------------------------------------------------- producers

  function ProducerRank(p: Producer): nat
  {
    match p
    case InRing(_, _) => 3
    case Ending => 1
    case Done(_) => 0
    case _ => 2
  }

  /** A refused or abandoned enqueue ends soonest. */
  function NextOfProducer(p: Producer): ProducerStep
  {
    match p
    case Admitted(_) => Invalid
    case InRing(_, _) => CommitRing
    case InBackend(_) => BackendReturns(false)
    case Notifying => Notify
    case _ => End
  }

  lemma ProducerMoves(c: Config, s: State, k: nat, i: nat)
    requires k < |s.producers| && !s.producers[k].Done? && (s.producers[k].InBackend? ==> !c.inMemory)
    requires i < |s.callers|
    ensures ProducerEnabled(c, s, k, NextOfProducer(s.producers[k]))
    ensures var t := AfterProducer(c, s, k, NextOfProducer(s.producers[k]));
      && Same(s, t, i) && |t.producers| == |s.producers| && t.qlock == s.qlock && t.sched == s.sched
      && ProducerRank(t.producers[k]) < ProducerRank(s.producers[k])
      && forall j :: 0 <= j < |s.producers| && j != k ==> t.producers[j] == s.producers[j]
  {
  }

  /** For an external worker, every enqueue under way can end. */
  lemma {:induction false} EndProducers(c: Config, s: State, n: nat, i: nat) returns (t: State)
    requires Good(c, s) && !c.inMemory && n <= |s.producers| && i < |s.callers|
    requires forall k :: 0 <= k < n ==> s.producers[k].Done?
    ensures Leads(c, s, t) && Good(c, t) && Same(s, t, i) && t.qlock == s.qlock && t.sched == s.sched
    ensures forall k :: 0 <= k < |t.producers| ==> t.producers[k].Done?
    decreases |s.producers| - n, if n < |s.producers| then ProducerRank(s.producers[n]) else 0
  {
    if n == |s.producers| {
      Stay(c, s);
      t := s;
    } else if s.producers[n].Done? {
      t := EndProducers(c, s, n + 1, i);
    } else {
      ProducerMoves(c, s, n, i);
      var u := AfterProducer(c, s, n, NextOfProducer(s.producers[n]));
      Move(c, s, OfProducer(n, NextOfProducer(s.producers[n])), u);
      t := EndProducers(c, u, n, i);
      Join(c, s, u, t);
    }
  }

  // ---------------------------------------------------------------- wrappers

  function WrapperRank(pc: WrapperPc): nat
  {
    match pc
    case Working => 5
    case Rescheduling => 4
    case Counting => 3
    case EndingJob => 2
    case Exiting => 1
    case Finished => 0
  }

  // ---------------------------------------------------------------- the stop body of an external worker

  /** For an external worker the stop body never looks at the ring. */
  ghost predicate ExternalStop(o: Once<ShutPc>)
  {
    o.Running? ==> o.at.StopSection? || o.at.LoadDrain'? || o.at.StopWorker? || o.at.CloseQuit?
  }

  lemma ExternalStopStep(c: Config, s: State, step: Step)
    requires !c.inMemory && ExternalStop(s.once.stop) && Enabled(c, s, step)
    ensures ExternalStop(Apply(c, s, step).once.stop)
  {
    match step
    case OfShut(i, failed) => ExternalStopByShut(c, s, i, failed);
    case _ =>
  }

  lemma ExternalStopByShut(c: Config, s: State, i: nat, failed: bool)
    requires !c.inMemory && ExternalStop(s.once.stop) && ShutEnabled(s, i)
    ensures ExternalStop(AfterShutting(c, s, i, failed).once.stop)
  {
    if s.callers[i].Shutting? {
      match s.once.stop.at
      case StopSection =>
      case LoadDrain' =>
      case StopWorker =>
      case CloseQuit =>
    }
  }

  lemma {:induction false} ExternalStopRun(c: Config, s: State, steps: seq<Step>, t: State)
    requires !c.inMemory && ExternalStop(s.once.stop) && Run(c, s, steps, t)
    ensures ExternalStop(t.once.stop)
    decreases |steps|
  {
    if steps == [] {
    } else {
      ExternalStopStep(c, s, steps[0]);
      ExternalStopRun(c, Apply(c, s, steps[0]), steps[1..], t);
    }
  }
}
