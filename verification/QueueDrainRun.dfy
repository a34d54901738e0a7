/**
 A drain that works, as a run from the start: an accepted task is handed out after
 CloseAdmission, its handler succeeds, the scheduler leaves, and ReleaseContext
 returns nil.
 */
module QueueDrainRun {
  import opened Wrappers
  import opened RingBuffer
  import opened QueueModel
  import opened QueueStrandRuns
  import RG = RoutineGroup
  import L = Lifecycle

  function Hist(requested: seq<Task>, calls: nat, succeeded: nat): History
  {
    History([7], requested, calls, succeeded, 0, 0, false)
  }

  /** The stopped ring, which has closed exit once it is empty. */
  function Ring(items: seq<Task>, lock: Option<LockHolder>): RingPart
  {
    RingPart(Fifo(items, items == []), true, lock)
  }

  /** CloseAdmission has returned with task 7 in the ring; the scheduler is about to ask for a task. */
  function Full(): State
  {
    State(Ring([7], None), Admission(0, Closed), Channels(false, true, false, false, None, false),
          Onces(Completed, Completed, Fresh), true, false, true,
          Free, Workers(1, 1, 0), RG.Group(1, 1, false), Spawning, Idle, 0,
          [Done(true)], [], [Over, Over], L.Fresh, NotCalled, false, Hist([], 0, 0), false)
  }

  lemma ReachFull()
    ensures Reachable(C, Full())
  {
    ReachReady();
    ReachFilled(Ready());
    ReachClosed(Filled(Ready()));
    assert Full() == ClosedAfter(Filled(Ready()));
  }

  function Serving(p: Scheduler, r: Request, ring: RingPart, n: nat, h: History): State
  {
    Full().(sched := p, req := r, ring := ring, group := RG.Group(n, 1, false), hist := h)
  }

  lemma ReachTaken()
    ensures Reachable(C, Serving(Receiving, Returned(Some(7), NoError), Ring([], None), 2, Hist([7], 1, 0)))
  {
    ReachFull();
    var s := Serving(Receiving, Calling, Ring([7], None), 2, Hist([], 1, 0));
    Then(C, Full(), OfSched(Spawn), s);
    var t := Serving(Receiving, Locked(true), Ring([7], Some(ByRequest)), 2, Hist([], 1, 0));
    Then(C, s, OfRequest(LockRing), t);
    assert [7][1..] == [] && [] + [7] == [7];
    Then(C, t, OfRequest(TakeRing), Serving(Receiving, Returned(Some(7), NoError), Ring([], None), 2, Hist([7], 1, 0)));
  }

  lemma ReachSending()
    ensures Reachable(C, Serving(Receiving, Sending(Some(7)), Ring([], None), 2, Hist([7], 1, 0)))
  {
    ReachTaken();
    var h := Hist([7], 1, 0);
    Then(C, Serving(Receiving, Returned(Some(7), NoError), Ring([], None), 2, h), OfRequest(Account),
         Serving(Receiving, HaveTask(7, false), Ring([], None), 2, h));
    Then(C, Serving(Receiving, HaveTask(7, false), Ring([], None), 2, h), OfRequest(LoadDrainFlag),
         Serving(Receiving, Sending(Some(7)), Ring([], None), 2, h));
  }

  function Handed(p: Scheduler): State { Serving(p, Idle, Ring([], None), 1, Hist([7], 1, 0)) }

  lemma ReachGot()
    ensures Reachable(C, Handed(GotTask(7)))
  {
    ReachSending();
    var s := Handed(Receiving).(ch := Full().ch.(tasks := Some(Some(7))));
    var t := s.(finishing := 1, group := RG.Group(2, 1, false));
    Then(C, Serving(Receiving, Sending(Some(7)), Ring([], None), 2, Hist([7], 1, 0)), OfRequest(Send), t);
    Then(C, t, OfRequest(Finish), s);
    Then(C, s, OfSched(Receive), Handed(GotTask(7)));
  }

  /** The wrapper of task 7 stands at `pc`. */
  function Wrapped(p: Scheduler, pc: WrapperPc, active: int, ready: bool): State
  {
    Serving(p, Idle, Ring([], None), 2, Hist([7], 1, 0)).(
      wrappers := [Wrapper(7, pc)], workers := Workers(1, 1, active), ch := Full().ch.(ready := ready))
  }

  lemma ReachWorking()
    ensures Reachable(C, Wrapped(Selecting, Working, 1, false))
  {
    ReachGot();
    var busy := Handed(Launching(7)).(workers := Workers(1, 1, 1));
    Then(C, Handed(GotTask(7)), OfSched(CountBusy), busy);
    assert [] + [Wrapper(7, Working)] == [Wrapper(7, Working)];
    var s := Wrapped(Scheduling, Working, 1, false);
    Then(C, busy, OfSched(Launch), s);
    Then(C, s, OfSchedule(Enter(OfScheduler)), s.(qlock := Checked(OfScheduler)));
    Then(C, s.(qlock := Checked(OfScheduler)), OfSchedule(CheckCapacity), Wrapped(Selecting, Working, 1, false));
  }

  lemma OneWrapper(p: WrapperPc, q: WrapperPc)
    ensures [Wrapper(7, p)][0 := Wrapper(7, q)] == [Wrapper(7, q)]
  {
  }

  lemma ReachRescheduled()
    ensures Reachable(C, Wrapped(Selecting, Counting, 0, true))
  {
    ReachWorking();
    OneWrapper(Working, Rescheduling);
    OneWrapper(Rescheduling, Counting);
    var s := Wrapped(Selecting, Rescheduling, 0, false);
    var w := OfWrapper(0);
    Then(C, Wrapped(Selecting, Working, 1, false), OfWork(0, Settle), s);
    Then(C, s, OfSchedule(Enter(w)), s.(qlock := Checked(w)));
    Then(C, s.(qlock := Checked(w)), OfSchedule(CheckCapacity), s.(qlock := Capable(w)));
    Then(C, s.(qlock := Capable(w)), OfSchedule(Reserve), s.(qlock := Reserved(w)));
    Then(C, s.(qlock := Reserved(w)), OfSchedule(Offer), Wrapped(Selecting, Counting, 0, true));
  }

  /** The task is done; the scheduler and at most one request goroutine are left. */
  function Worked(p: Scheduler, r: Request, ring: RingPart, n: nat, calls: nat): State
  {
    Serving(p, r, ring, n, Hist([7], calls, 1)).(wrappers := [Wrapper(7, Finished)])
  }

  lemma ReachWorked()
    ensures Reachable(C, Worked(CheckingCapacity, Idle, Ring([], None), 1, 1))
  {
    ReachRescheduled();
    OneWrapper(Counting, EndingJob);
    OneWrapper(EndingJob, Exiting);
    OneWrapper(Exiting, Finished);
    var s := Wrapped(Selecting, EndingJob, 0, true).(hist := Hist([7], 1, 1));
    Then(C, Wrapped(Selecting, Counting, 0, true), OfWork(0, CountResult(true)), s);
    var t := Wrapped(Selecting, Exiting, 0, true).(hist := Hist([7], 1, 1));
    Then(C, s, OfWork(0, FinishJob), t);
    var u := Worked(Selecting, Idle, Ring([], None), 1, 1).(ch := Full().ch.(ready := true));
    Then(C, t, OfWork(0, Exit), u);
    Then(C, u, OfSched(TakeReady), Worked(CheckingCapacity, Idle, Ring([], None), 1, 1));
  }

  lemma ReachRefused()
    ensures Reachable(C, Worked(Receiving, Returned(None, OtherError), Ring([], None), 2, 2))
  {
    ReachWorked();
    var s := Worked(Spawning, Idle, Ring([], None), 1, 1);
    Then(C, Worked(CheckingCapacity, Idle, Ring([], None), 1, 1), OfSched(HasCapacity), s);
    var t := Worked(Receiving, Calling, Ring([], None), 2, 2);
    Then(C, s, OfSched(Spawn), t);
    var u := Worked(Receiving, Locked(true), Ring([], Some(ByRequest)), 2, 2);
    Then(C, t, OfRequest(LockRing), u);
    Then(C, u, OfRequest(TakeRing), Worked(Receiving, Returned(None, OtherError), Ring([], None), 2, 2));
  }

  lemma ReachNothing()
    ensures Reachable(C, Worked(Receiving, Sending(None), Ring([], None), 2, 2))
  {
    ReachRefused();
    var s := Worked(Receiving, NoTask(OtherError), Ring([], None), 2, 2);
    Then(C, Worked(Receiving, Returned(None, OtherError), Ring([], None), 2, 2), OfRequest(Account), s);
    Then(C, s, OfRequest(LoadDrainFlag), Worked(Receiving, Sending(None), Ring([], None), 2, 2));
  }

  function Last(p: Scheduler): State { Worked(p, Idle, Ring([], None), 1, 2) }

  lemma ReachLeaving()
    ensures Reachable(C, Last(Leaving))
  {
    ReachNothing();
    var s := Last(Receiving).(ch := Full().ch.(tasks := Some(None)));
    var t := s.(finishing := 1, group := RG.Group(2, 1, false));
    Then(C, Worked(Receiving, Sending(None), Ring([], None), 2, 2), OfRequest(Send), t);
    Then(C, t, OfRequest(Finish), s);
    Then(C, s, OfSched(Receive), Last(GotNil));
    Then(C, Last(GotNil), OfSched(LoadDrainAfterNil), Last(Leaving));
  }

  /** Everything is over and the third caller stands at `p`. */
  function Drained(p: Caller): State
  {
    Last(Gone).(group := RG.Group(0, 1, true), callers := [Over, Over, p])
  }

  lemma ReachReleasing()
    ensures Reachable(C, Drained(CloseEnter(true)))
  {
    ReachLeaving();
    var s := Last(Gone).(group := RG.Group(0, 1, true));
    Then(C, Last(Leaving), OfSched(Leave), s);
    Third(ReleaseLoad, CloseEnter(true));
    Then(C, s, Call(OpRelease), Drained(ReleaseLoad));
    Then(C, Drained(ReleaseLoad), OfRelease(2, false), Drained(CloseEnter(true)));
  }

  lemma ReachWaited()
    ensures Reachable(C, Drained(WaitIdle(true, 1)))
  {
    ReachReleasing();
    Third(CloseEnter(true), WaitAdmissions);
    Then(C, Drained(CloseEnter(true)), OfClose(2), Drained(WaitAdmissions));
    Third(WaitAdmissions, WaitExit);
    Then(C, Drained(WaitAdmissions), OfRelease(2, false), Drained(WaitExit));
    Third(WaitExit, CaptureIdle(true));
    Then(C, Drained(WaitExit), OfRelease(2, false), Drained(CaptureIdle(true)));
    Third(CaptureIdle(true), WaitIdle(true, 1));
    Then(C, Drained(CaptureIdle(true)), OfRelease(2, false), Drained(WaitIdle(true, 1)));
  }

  function Stop(at: ShutPc, stop: bool): State
  {
    Drained(Shutting(true)).(stopFlag := stop, once := Full().once.(stop := Running(2, at)))
  }

  lemma ReachStopSection()
    ensures Reachable(C, Stop(StopSection, false))
  {
    ReachWaited();
    Third(WaitIdle(true, 1), ShutEnter(true));
    Then(C, Drained(WaitIdle(true, 1)), OfRelease(2, false), Drained(ShutEnter(true)));
    Third(ShutEnter(true), Shutting(true));
    Then(C, Drained(ShutEnter(true)), OfShut(2, false), Stop(StopSection, false));
  }

  lemma ReachStop()
    ensures Reachable(C, Stop(CloseQuit, true))
  {
    ReachStopSection();
    Third(Shutting(true), Shutting(true));
    Then(C, Stop(StopSection, false), OfShut(2, false), Stop(LoadDrain', true));
    Then(C, Stop(LoadDrain', true), OfShut(2, false), Stop(CloseQuit, true));
  }

  function Quit(p: Caller): State
  {
    Drained(p).(stopFlag := true, once := Full().once.(stop := Completed), ch := Full().ch.(quit := true))
  }

  /** ReleaseContext returns nil, and the task that was accepted was handed out and succeeded. */
  lemma DrainCanComplete() returns (s: State)
    ensures Reachable(C, s) && |s.callers| == 3 && s.callers[2] == ReleasedNil
    ensures s.hist.accepted == s.hist.requested == [7] && s.hist.succeeded == 1
    ensures s.wrappers == [Wrapper(7, Finished)] && !s.fault
  {
    ReachStop();
    Third(Shutting(true), CaptureIdle(false));
    Then(C, Stop(CloseQuit, true), OfShut(2, false), Quit(CaptureIdle(false)));
    Third(CaptureIdle(false), WaitIdle(false, 1));
    Then(C, Quit(CaptureIdle(false)), OfRelease(2, false), Quit(WaitIdle(false, 1)));
    Third(WaitIdle(false, 1), ReleasedNil);
    s := Quit(ReleasedNil);
    Then(C, Quit(WaitIdle(false, 1)), OfRelease(2, false), s);
  }
}
