/**
 Runs that strand a task, from the start: a task added after the scheduler has
 left, a task whose enqueue had returned before CloseAdmission was called, and a
 task nobody ever asked for when Shutdown follows CloseAdmission.
 */
module QueueStrandRuns {
  import opened Wrappers
  import opened RingBuffer
  import opened QueueModel
  import opened QueueStrand
  import RG = RoutineGroup

  lemma {:induction false} RunThen(c: Config, s: State, steps: seq<Step>, t: State, step: Step)
    requires Run(c, s, steps, t) && Enabled(c, t, step)
    ensures Run(c, s, steps + [step], Apply(c, t, step))
    decreases |steps|
  {
    if steps == [] {
      assert [step][1..] == [];
      assert Run(c, Apply(c, t, step), [], Apply(c, t, step));
      assert steps + [step] == [step];
    } else {
      RunThen(c, Apply(c, s, steps[0]), steps[1..], t, step);
      assert (steps + [step])[1..] == steps[1..] + [step];
    }
  }

  lemma Then(c: Config, s: State, step: Step, t: State)
    requires Reachable(c, s) && Enabled(c, s, step) && Apply(c, s, step) == t
    ensures Reachable(c, t)
  {
    var steps :| Run(c, Initial(c), steps, s);
    RunThen(c, Initial(c), steps, s, step);
  }

  /** In memory, unbounded, one worker. */
  const C := Config(true, false, 0, 1)

  function Calls(p: Caller): State { Initial(C).(callers := [p]) }

  /** The scheduler goroutine is up. */
  function Launched(): State
  {
    Calls(Over).(started := true, sched := Scheduling, once := Onces(Completed, Fresh, Fresh),
                 group := RG.Group(1, 1, false))
  }

  lemma ReachStarting()
    ensures Reachable(C, Calls(Starting(EnterStart, false)))
  {
    assert Run(C, Initial(C), [], Initial(C));
    Then(C, Initial(C), Call(OpStart), Calls(Starting(LoadStop, false)));
    Then(C, Calls(Starting(LoadStop, false)), OfStart(0), Calls(Starting(LoadCount, false)));
    Then(C, Calls(Starting(LoadCount, false)), OfStart(0), Calls(Starting(EnterStart, false)));
  }

  lemma ReachLaunched()
    ensures Reachable(C, Launched())
  {
    ReachStarting();
    var s := Calls(Launching'(false)).(started := true, once := Onces(Running(0, ()), Fresh, Fresh));
    Then(C, Calls(Starting(EnterStart, false)), OfStart(0), s);
    Then(C, s, OfStart(0), Launched());
  }

  /** A ready token is offered and taken; the scheduler is about to spawn a request. */
  function Ready(): State { Launched().(sched := Spawning) }

  lemma ReachOffered()
    ensures Reachable(C, Offered())
  {
    ReachLaunched();
    var q := s => Launched().(qlock := s);
    Then(C, Launched(), OfSchedule(Enter(OfScheduler)), q(Checked(OfScheduler)));
    Then(C, q(Checked(OfScheduler)), OfSchedule(CheckCapacity), q(Capable(OfScheduler)));
    Then(C, q(Capable(OfScheduler)), OfSchedule(Reserve), q(Reserved(OfScheduler)));
    Then(C, q(Reserved(OfScheduler)), OfSchedule(Offer), Offered());
  }

  lemma ReachReady()
    ensures Reachable(C, Ready())
  {
    ReachOffered();
    Then(C, Offered(), OfSched(TakeReady), Launched().(sched := CheckingCapacity));
    Then(C, Launched().(sched := CheckingCapacity), OfSched(HasCapacity), Ready());
  }

  /** The request goroutine stands at `r`. */
  function Requesting(r: Request): State
  {
    Launched().(sched := Receiving, req := r, group := RG.Group(2, 1, false),
                hist := Initial(C).hist.(requestCalls := 1))
  }

  /** It found the ring empty and has not looked at drainFlag yet. */
  lemma ReachEmpty()
    ensures Reachable(C, Requesting(NoTask(NoTaskError)))
  {
    ReachReady();
    Then(C, Ready(), OfSched(Spawn), Requesting(Calling));
    var locked := Requesting(Locked(false)).(ring := RingPart(Fifo([], false), false, Some(ByRequest)));
    Then(C, Requesting(Calling), OfRequest(LockRing), locked);
    Then(C, locked, OfRequest(TakeRing), Requesting(Returned(None, NoTaskError)));
    Then(C, Requesting(Returned(None, NoTaskError)), OfRequest(Account), Requesting(NoTask(NoTaskError)));
  }

  /** A producer was admitted, then ReleaseContext raised drainFlag; the ring is not stopped yet. */
  function Raised(r: Request): State
  {
    Requesting(r).(producers := [Admitted(7)], adm := Admission(1, Open), drainFlag := true,
                   callers := [Over, Closing(true)], once := Onces(Completed, Running(1, RingCas), Fresh))
  }

  function Submitted(): State
  {
    Requesting(NoTask(NoTaskError)).(producers := [Admitted(7)], adm := Admission(1, Absent))
  }

  lemma ReachSubmitted()
    ensures Reachable(C, Submitted().(callers := [Over, CloseEnter(true)]))
  {
    ReachEmpty();
    var s1 := Submitted();
    Then(C, Requesting(NoTask(NoTaskError)), Submit(7), s1);
    Then(C, s1, Call(OpRelease), s1.(callers := [Over, ReleaseLoad]));
    Then(C, s1.(callers := [Over, ReleaseLoad]), OfRelease(1, false), s1.(callers := [Over, CloseEnter(true)]));
  }

  lemma ReachRaised()
    ensures Reachable(C, Raised(NoTask(NoTaskError)))
  {
    ReachSubmitted();
    var s1 := Submitted();
    var s2 := s1.(callers := [Over, Closing(true)], once := Onces(Completed, Running(1, FlagSection), Fresh));
    Then(C, s1.(callers := [Over, CloseEnter(true)]), OfClose(1), s2);
    Then(C, s2, OfClose(1), Raised(NoTask(NoTaskError)));
  }

  /** The request goroutine reported nothing and the scheduler stands at `p`. */
  function Quitting(p: Scheduler): State { Raised(Idle).(sched := p, finishing := 1) }

  function Left(): State { Quitting(Gone).(group := RG.Group(1, 1, false)) }

  lemma ReachSent()
    ensures Reachable(C, Quitting(Receiving).(ch := Initial(C).ch.(tasks := Some(None))))
  {
    ReachRaised();
    Then(C, Raised(NoTask(NoTaskError)), OfRequest(LoadDrainFlag), Raised(Sending(None)));
    Then(C, Raised(Sending(None)), OfRequest(Send), Quitting(Receiving).(ch := Initial(C).ch.(tasks := Some(None))));
  }

  lemma ReachLeft()
    ensures Reachable(C, Left())
  {
    ReachSent();
    var sent := Quitting(Receiving).(ch := Initial(C).ch.(tasks := Some(None)));
    Then(C, sent, OfSched(Receive), Quitting(GotNil));
    Then(C, Quitting(GotNil), OfSched(LoadDrainAfterNil), Quitting(Leaving));
    Then(C, Quitting(Leaving), OfSched(Leave), Left());
  }

  function After(): State
  {
    Left().(producers := [Notifying], ring := RingPart(Fifo([7], false), false, None),
            hist := Left().hist.(accepted := [7]))
  }

  /**
   A producer admitted before the drain adds its task after the scheduler has left:
   the request goroutine found the ring empty before the flag was raised.
   */
  lemma DrainCanStrand()
    ensures exists s :: Reachable(C, s) && Stranded(s) && s.hist.accepted == [7] &&
                        |s.callers| == 2 && s.callers[1] == Closing(true)
  {
    ReachLeft();
    var held := Left().(producers := [InRing(7, false)],
                        ring := RingPart(Fifo([], false), false, Some(ByProducer(0))));
    Then(C, Left(), OfProducer(0, EnterRing), held);
    Then(C, held, OfProducer(0, CommitRing), After());
    assert Stranded(After());
  }

  // ---------------------------------------------------------------- a task whose enqueue had returned

  /** Task 7 is in the ring and its enqueue has returned nil. */
  function Filled(s: State): State
  {
    s.(producers := [Done(true)], ring := RingPart(Fifo([7], false), false, None), ch := s.ch.(notify := true),
       hist := s.hist.(accepted := [7]))
  }

  ghost predicate Untouched(s: State)
  {
    && s.producers == [] && s.ring == Initial(C).ring && s.adm == Initial(C).adm && s.hist.accepted == []
    && !s.stopFlag && !s.drainFlag
  }

  lemma One(p: Producer, q: Producer)
    ensures [p][0 := q] == [q] && [] + [p] == [p]
  {
  }

  lemma SubmitSeven(s: State)
    requires Untouched(s)
    ensures AfterSubmit(s, 7) == s.(producers := [Admitted(7)], adm := Admission(1, Absent))
  {
    One(Admitted(7), Admitted(7));
  }

  lemma ProducerMoves(s: State, st: ProducerStep, p: Producer, q: Producer)
    requires s.producers == [p] && ProducerEnabled(C, s, 0, st) && ProducerRow(C, s, 0, st).pc == q
    ensures AfterProducer(C, s, 0, st).producers == [q]
  {
    One(p, q);
  }

  lemma ReachAdding(s: State)
    requires Reachable(C, s) && Untouched(s)
    ensures Reachable(C, s.(producers := [InRing(7, false)], adm := Admission(1, Absent),
                            ring := RingPart(Fifo([], false), false, Some(ByProducer(0)))))
  {
    SubmitSeven(s);
    var s1 := s.(producers := [Admitted(7)], adm := Admission(1, Absent));
    Then(C, s, Submit(7), s1);
    ProducerMoves(s1, EnterRing, Admitted(7), InRing(7, false));
    Then(C, s1, OfProducer(0, EnterRing),
         s1.(producers := [InRing(7, false)], ring := RingPart(Fifo([], false), false, Some(ByProducer(0)))));
  }

  lemma ReachAdded(s: State)
    requires Reachable(C, s) && s.producers == [InRing(7, false)] && s.hist.accepted == []
    requires s.ring == RingPart(Fifo([], false), false, Some(ByProducer(0)))
    ensures Reachable(C, s.(producers := [Ending], ring := RingPart(Fifo([7], false), false, None),
                            ch := s.ch.(notify := true), hist := s.hist.(accepted := [7])))
  {
    assert [] + [7] == [7];
    ProducerMoves(s, CommitRing, InRing(7, false), Notifying);
    var s1 := s.(producers := [Notifying], ring := RingPart(Fifo([7], false), false, None),
                 hist := s.hist.(accepted := [7]));
    Then(C, s, OfProducer(0, CommitRing), s1);
    ProducerMoves(s1, Notify, Notifying, Ending);
    Then(C, s1, OfProducer(0, Notify), s1.(producers := [Ending], ch := s.ch.(notify := true)));
  }

  lemma ReachFilled(s: State)
    requires Reachable(C, s) && Untouched(s)
    ensures Reachable(C, Filled(s))
  {
    ReachAdding(s);
    var s1 := s.(producers := [InRing(7, false)], adm := Admission(1, Absent),
                 ring := RingPart(Fifo([], false), false, Some(ByProducer(0))));
    ReachAdded(s1);
    var s2 := s1.(producers := [Ending], ring := RingPart(Fifo([7], false), false, None),
                  ch := s.ch.(notify := true), hist := s.hist.(accepted := [7]));
    ProducerMoves(s2, End, Ending, Done(true));
    Then(C, s2, OfProducer(0, End), Filled(s));
  }

  /** CloseAdmission has returned: the flag is raised and the ring is stopped, not empty. */
  function ClosedAfter(s: State): State
  {
    s.(callers := [Over, Over], drainFlag := true, adm := Admission(0, Closed),
       ring := RingPart(Fifo([7], false), true, None), once := s.once.(drain := Completed))
  }

  ghost predicate ReadyToClose(s: State)
  {
    && s.callers == [Over] && s.once.drain.Fresh? && s.adm == Admission(0, Absent) && s.ch.notify
    && s.ring == RingPart(Fifo([7], false), false, None)
  }

  lemma Second(p: Caller, q: Caller)
    ensures [Over, p][1 := q] == [Over, q] && [Over] + [p] == [Over, p]
  {
  }

  lemma CloseMoves(s: State, p: Caller)
    requires |s.callers| == 2 && s.callers[0] == Over && CloseEnabled(s, 1) && CloseRow(C, s, 1).pc == p
    ensures AfterClosing(C, s, 1).callers == [Over, p]
  {
    assert s.callers == [Over, s.callers[1]];
    Second(s.callers[1], p);
  }

  lemma ReachFlagging(s: State)
    requires Reachable(C, s) && ReadyToClose(s)
    ensures Reachable(C, s.(callers := [Over, Closing(false)], once := s.once.(drain := Running(1, FlagSection))))
  {
    Second(CloseEnter(false), Closing(false));
    var s1 := s.(callers := [Over, CloseEnter(false)]);
    Then(C, s, Call(OpClose), s1);
    CloseMoves(s1, Closing(false));
    Then(C, s1, OfClose(1), s.(callers := [Over, Closing(false)], once := s.once.(drain := Running(1, FlagSection))));
  }

  lemma ReachCasing(s: State)
    requires Reachable(C, s) && ReadyToClose(s)
    ensures Reachable(C, s.(callers := [Over, Closing(false)], drainFlag := true, adm := Admission(0, Closed),
                            once := s.once.(drain := Running(1, RingCas))))
  {
    ReachFlagging(s);
    var s1 := s.(callers := [Over, Closing(false)], once := s.once.(drain := Running(1, FlagSection)));
    CloseMoves(s1, Closing(false));
    Then(C, s1, OfClose(1), s.(callers := [Over, Closing(false)], drainFlag := true, adm := Admission(0, Closed),
                               once := s.once.(drain := Running(1, RingCas))));
  }

  lemma ReachStopped(s: State)
    requires Reachable(C, s) && s.callers == [Over, Closing(false)] && s.once.drain == Running(1, RingCas)
    requires s.ring == RingPart(Fifo([7], false), false, None)
    ensures Reachable(C, s.(ring := RingPart(Fifo([7], false), true, None),
                            once := s.once.(drain := Running(1, WakeRequest))))
  {
    var s1 := s.(ring := RingPart(Fifo([7], false), true, None), once := s.once.(drain := Running(1, RingSection)));
    CloseMoves(s, Closing(false));
    Then(C, s, OfClose(1), s1);
    CloseMoves(s1, Closing(false));
    Then(C, s1, OfClose(1), s1.(once := s.once.(drain := Running(1, WakeRequest))));
  }

  lemma ReachClosed(s: State)
    requires Reachable(C, s) && ReadyToClose(s)
    ensures Reachable(C, ClosedAfter(s))
  {
    ReachCasing(s);
    var s1 := s.(callers := [Over, Closing(false)], drainFlag := true, adm := Admission(0, Closed),
                 once := s.once.(drain := Running(1, RingCas)));
    ReachStopped(s1);
    var s2 := s1.(ring := RingPart(Fifo([7], false), true, None), once := s.once.(drain := Running(1, WakeRequest)));
    CloseMoves(s2, Over);
    Then(C, s2, OfClose(1), ClosedAfter(s));
  }

  /** The request goroutine found the ring empty; then the enqueue returned; then CloseAdmission did. */
  function Late(r: Request): State { ClosedAfter(Filled(Requesting(r))) }

  lemma ReachLate()
    ensures Reachable(C, Late(NoTask(NoTaskError)))
  {
    ReachEmpty();
    ReachFilled(Requesting(NoTask(NoTaskError)));
    ReachClosed(Filled(Requesting(NoTask(NoTaskError))));
  }

  function LateLeft(p: Scheduler): State { Late(Idle).(sched := p, finishing := 1) }

  lemma ReachLateSent()
    ensures Reachable(C, LateLeft(Receiving).(ch := Late(Idle).ch.(tasks := Some(None))))
  {
    ReachLate();
    Then(C, Late(NoTask(NoTaskError)), OfRequest(LoadDrainFlag), Late(Sending(None)));
    Then(C, Late(Sending(None)), OfRequest(Send), LateLeft(Receiving).(ch := Late(Idle).ch.(tasks := Some(None))));
  }

  /** A task whose enqueue returned before CloseAdmission was called is stranded by CloseAdmission alone. */
  lemma ReturnedTaskCanStrand() returns (s: State)
    ensures Reachable(C, s) && Stranded(s) && s.producers == [Done(true)] && s.ring.stop
    ensures s.once.drain.Completed? && s.once.stop.Fresh? && s.hist.accepted == [7]
  {
    ReachLateSent();
    var sent := LateLeft(Receiving).(ch := Late(Idle).ch.(tasks := Some(None)));
    Then(C, sent, OfSched(Receive), LateLeft(GotNil));
    Then(C, LateLeft(GotNil), OfSched(LoadDrainAfterNil), LateLeft(Leaving));
    s := LateLeft(Gone).(group := RG.Group(1, 1, false));
    Then(C, LateLeft(Leaving), OfSched(Leave), s);
  }

  // ---------------------------------------------------------------- a task nobody asked for

  /** The scheduler waits, a ready token is offered, and no request was ever made. */
  function Offered(): State { Launched().(sched := Selecting, ch := Initial(C).ch.(ready := true)) }

  /** Shutdown, called after CloseAdmission, has closed quit without stopping the ring. */
  function QuitAfter(s: State): State
  {
    s.(callers := [Over, Over, Over], stopFlag := true, once := s.once.(stop := Completed),
       ch := s.ch.(quit := true), hist := s.hist.(directShutdown := true))
  }

  lemma Third(p: Caller, q: Caller)
    ensures [Over, Over, p][2 := q] == [Over, Over, q] && [Over, Over] + [p] == [Over, Over, p]
  {
  }

  /** The state while the third caller runs Shutdown. */
  function Stopping(s: State, p: Caller, at: ShutPc, stop: bool): State
  {
    s.(callers := [Over, Over, p], hist := s.hist.(directShutdown := true), stopFlag := stop,
       once := s.once.(stop := Running(2, at)))
  }

  lemma ReachStopping(s: State)
    requires Reachable(C, s) && s.callers == [Over, Over] && s.once.stop.Fresh?
    ensures Reachable(C, Stopping(s, Shutting(false), StopSection, s.stopFlag))
  {
    Third(ShutEnter(false), Shutting(false));
    var s1 := s.(callers := [Over, Over, ShutEnter(false)], hist := s.hist.(directShutdown := true));
    Then(C, s, Call(OpShutdown), s1);
    Then(C, s1, OfShut(2, false), Stopping(s, Shutting(false), StopSection, s.stopFlag));
  }

  lemma ReachQuitting(s: State)
    requires Reachable(C, Stopping(s, Shutting(false), StopSection, s.stopFlag)) && s.drainFlag
    ensures Reachable(C, Stopping(s, Shutting(false), CloseQuit, true))
  {
    Third(Shutting(false), Shutting(false));
    var s1 := Stopping(s, Shutting(false), StopSection, s.stopFlag);
    Then(C, s1, OfShut(2, false), Stopping(s, Shutting(false), LoadDrain', true));
    Then(C, Stopping(s, Shutting(false), LoadDrain', true), OfShut(2, false),
         Stopping(s, Shutting(false), CloseQuit, true));
  }

  lemma ReachQuit(s: State)
    requires Reachable(C, s) && s.callers == [Over, Over] && s.once.stop.Fresh? && s.drainFlag && !s.ch.quit && !s.fault
    ensures Reachable(C, QuitAfter(s))
  {
    ReachStopping(s);
    ReachQuitting(s);
    Third(Shutting(false), Over);
    Then(C, Stopping(s, Shutting(false), CloseQuit, true), OfShut(2, false), QuitAfter(s));
  }

  /** CloseAdmission and then Shutdown strand a task although no request was ever made. */
  lemma ShutdownCanStrand() returns (s: State)
    ensures Reachable(C, s) && Stranded(s) && s.producers == [Done(true)] && s.hist.requestCalls == 0
    ensures s.once.drain.Completed? && s.once.stop.Completed? && s.hist.accepted == [7]
  {
    ReachOffered();
    ReachFilled(Offered());
    ReachClosed(Filled(Offered()));
    ReachQuit(ClosedAfter(Filled(Offered())));
    var q := QuitAfter(ClosedAfter(Filled(Offered())));
    Then(C, q, OfSched(TakeQuit), q.(sched := Leaving));
    s := q.(sched := Gone, group := RG.Group(0, 1, true));
    Then(C, q.(sched := Leaving), OfSched(Leave), s);
  }
}
