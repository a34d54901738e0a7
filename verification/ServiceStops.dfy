/**
 That a stop can always finish: from every reachable state, whatever callbacks are in
 progress, there is a continuation in which it returns without giving up.
 */
module ServiceStops {
  import opened ServiceAdapter

  ghost predicate CanReturn(c: Config, s: State, i: nat)
  {
    exists steps, t :: Run(c, s, steps, t) && StopAt(t, i) && t.t.stops[i].Returned?
  }

  lemma Back(c: Config, s: State, step: Step, i: nat)
    requires Enabled(c, s, step) && CanReturn(c, Apply(c, s, step), i)
    ensures CanReturn(c, s, i)
  {
    var steps, t :| Run(c, Apply(c, s, step), steps, t) && StopAt(t, i) && t.t.stops[i].Returned?;
    assert ([step] + steps)[1..] == steps;
    assert Run(c, s, [step] + steps, t);
  }

  lemma HasReturned(c: Config, s: State, i: nat)
    requires StopAt(s, i) && s.t.stops[i].Returned?
    ensures CanReturn(c, s, i)
  {
    assert Run(c, s, [], s);
  }

  // ---------------------------------------------------------------- in shutdownResource

  lemma FromCallReturned(c: Config, s: State, i: nat)
    requires StopAt(s, i) && s.t.stops[i].CallReturned?
    ensures CanReturn(c, s, i)
  {
    HasReturned(c, Apply(c, s, CloseAttempt(i)), i);
    Back(c, s, CloseAttempt(i), i);
  }

  lemma FromCalling(c: Config, s: State, i: nat)
    requires StopAt(s, i) && s.t.stops[i].Calling?
    ensures CanReturn(c, s, i)
  {
    FromCallReturned(c, Apply(c, s, ShutdownReturns(i)), i);
    Back(c, s, ShutdownReturns(i), i);
  }

  lemma FromClosed(c: Config, s: State, i: nat)
    requires StopAt(s, i) && s.t.stops[i].Waiting? && s.shutdown.closed
    ensures CanReturn(c, s, i)
  {
    HasReturned(c, Apply(c, s, ShutdownWaited(i)), i);
    Back(c, s, ShutdownWaited(i), i);
  }

  /** Caller `j` is between its callback and the close. */
  lemma FromClosing(c: Config, s: State, i: nat, j: nat)
    requires StopAt(s, i) && s.t.stops[i].Waiting? && StopAt(s, j) && s.t.stops[j].CallReturned?
    ensures CanReturn(c, s, i)
  {
    FromClosed(c, Apply(c, s, CloseAttempt(j)), i);
    Back(c, s, CloseAttempt(j), i);
  }

  lemma FromWaiting(c: Config, s: State, i: nat)
    requires Inv(c, s) && StopAt(s, i) && s.t.stops[i].Waiting?
    ensures CanReturn(c, s, i)
  {
    assert AttemptOk(c, s.t.stops[i], i, s.shutdown);
    var j := s.shutdown.maker.value;
    if s.shutdown.closed {
      FromClosed(c, s, i);
    } else if s.t.stops[j].CallReturned? {
      FromClosing(c, s, i, j);
    } else {
      FromClosing(c, Apply(c, s, ShutdownReturns(j)), i, j);
      Back(c, s, ShutdownReturns(j), i);
    }
  }

  lemma FromEntering(c: Config, s: State, i: nat)
    requires ValidConfig(c) && Inv(c, s) && StopAt(s, i) && s.t.stops[i].Entering?
    ensures CanReturn(c, s, i)
  {
    var u := Apply(c, s, ShutsDown(i));
    StepKeeps(c, s, ShutsDown(i));
    if Made(s) {
      FromWaiting(c, u, i);
    } else {
      FromCalling(c, u, i);
    }
    Back(c, s, ShutsDown(i), i);
  }

  // ---------------------------------------------------------------- waiting for what is in flight

  function RunLeft(run: RunPc): nat
  {
    match run
    case InRun => 3
    case RunReturned => 2
    case RunMarked => 1
    case _ => 0
  }

  /** How many steps the callbacks in flight still take. */
  function Ahead(s: State): nat { 2 * s.t.using + s.t.leaving + RunLeft(s.t.run) }

  /** A step of somebody in flight. */
  function NextInFlight(s: State): Step
  {
    if s.t.using > 0 then UseReturns
    else if s.t.leaving > 0 then FinishUse
    else if s.t.run.InRun? then RunReturns
    else if s.t.run.RunReturned? then MarkRun
    else FinishRun
  }

  lemma InFlightMoves(c: Config, s: State)
    requires CountsOf(s.gate, s.t) && s.gate.inflight > 0
    ensures Enabled(c, s, NextInFlight(s))
    ensures var u := Apply(c, s, NextInFlight(s)); Ahead(u) < Ahead(s) && u.t.stops == s.t.stops
  {
  }

  lemma FromDrained(c: Config, s: State, i: nat)
    requires ValidConfig(c) && Inv(c, s) && StopAt(s, i) && s.t.stops[i].AwaitDrain? && s.t.stops[i].d in s.ch.drained
    ensures CanReturn(c, s, i)
  {
    var u := Apply(c, s, DrainWaited(i));
    StepKeeps(c, s, DrainWaited(i));
    if c.hasShutdown {
      FromEntering(c, u, i);
    } else {
      HasReturned(c, u, i);
    }
    Back(c, s, DrainWaited(i), i);
  }

  lemma {:induction false} FromAwaitDrain(c: Config, s: State, i: nat)
    requires ValidConfig(c) && Inv(c, s) && StopAt(s, i) && s.t.stops[i].AwaitDrain?
    ensures CanReturn(c, s, i)
    decreases Ahead(s)
  {
    assert StopOk(s.t.stops[i], s.gate, s.ch);
    if s.t.stops[i].d in s.ch.drained {
      FromDrained(c, s, i);
    } else {
      InFlightMoves(c, s);
      StepKeeps(c, s, NextInFlight(s));
      FromAwaitDrain(c, Apply(c, s, NextInFlight(s)), i);
      Back(c, s, NextInFlight(s), i);
    }
  }

  // ---------------------------------------------------------------- waiting for a startup, and before

  lemma FromStarted(c: Config, s: State, i: nat)
    requires ValidConfig(c) && Inv(c, s) && StopAt(s, i) && s.t.stops[i].AwaitStartup?
    requires s.t.stops[i].attempt.Some? ==> s.t.stops[i].attempt.value in s.ch.done
    ensures CanReturn(c, s, i)
  {
    StepKeeps(c, s, StartupWaited(i));
    FromAwaitDrain(c, Apply(c, s, StartupWaited(i)), i);
    Back(c, s, StartupWaited(i), i);
  }

  lemma FromLeaving(c: Config, s: State, i: nat)
    requires ValidConfig(c) && Inv(c, s) && StopAt(s, i) && s.t.stops[i].AwaitStartup?
    requires s.t.start.StartupFailed? || s.t.start.StartupOk?
    ensures CanReturn(c, s, i)
  {
    assert StopOk(s.t.stops[i], s.gate, s.ch);
    StepKeeps(c, s, LeaveStart);
    FromStarted(c, Apply(c, s, LeaveStart), i);
    Back(c, s, LeaveStart, i);
  }

  lemma FromAwaitStartup(c: Config, s: State, i: nat)
    requires ValidConfig(c) && Inv(c, s) && StopAt(s, i) && s.t.stops[i].AwaitStartup?
    ensures CanReturn(c, s, i)
  {
    assert StopOk(s.t.stops[i], s.gate, s.ch);
    if s.t.stops[i].attempt.None? || s.t.stops[i].attempt.value in s.ch.done {
      FromStarted(c, s, i);
    } else if s.t.start.InStartup? {
      StepKeeps(c, s, StartupReturns(true));
      FromLeaving(c, Apply(c, s, StartupReturns(true)), i);
      Back(c, s, StartupReturns(true), i);
    } else {
      FromLeaving(c, s, i);
    }
  }

  lemma FromSection(c: Config, s: State, i: nat)
    requires ValidConfig(c) && Inv(c, s) && StopAt(s, i) && s.t.stops[i].AtSection?
    ensures CanReturn(c, s, i)
  {
    StepKeeps(c, s, StopSection(i));
    FromAwaitStartup(c, Apply(c, s, StopSection(i)), i);
    Back(c, s, StopSection(i), i);
  }

  lemma FromAdmitted(c: Config, s: State, i: nat)
    requires ValidConfig(c) && Inv(c, s) && StopAt(s, i) && s.t.stops[i].AtAdmission?
    requires c.worker ==> s.once.Completed?
    ensures CanReturn(c, s, i)
  {
    StepKeeps(c, s, PassAdmission(i));
    FromSection(c, Apply(c, s, PassAdmission(i)), i);
    Back(c, s, PassAdmission(i), i);
  }

  lemma FromAdmission(c: Config, s: State, i: nat)
    requires ValidConfig(c) && Inv(c, s) && StopAt(s, i) && s.t.stops[i].AtAdmission?
    ensures CanReturn(c, s, i)
  {
    if !c.worker || s.once.Completed? {
      FromAdmitted(c, s, i);
    } else if s.once.Closing? {
      StepKeeps(c, s, OnceEnds);
      FromAdmitted(c, Apply(c, s, OnceEnds), i);
      Back(c, s, OnceEnds, i);
    } else {
      assert AtAdmission in s.t.stops;
      var u := Apply(c, s, OnceBegins);
      StepKeeps(c, s, OnceBegins);
      StepKeeps(c, u, OnceEnds);
      FromAdmitted(c, Apply(c, u, OnceEnds), i);
      Back(c, u, OnceEnds, i);
      Back(c, s, OnceBegins, i);
    }
  }

  /**
   From every reachable state, every stop that did not give up, and every cleanup
   after a failed startup, can still return without giving up.
   */
  lemma StopCanReturn(c: Config, s: State, i: nat)
    requires ValidConfig(c) && Reachable(c, s) && StopAt(s, i) && !s.t.stops[i].GaveUp?
    ensures CanReturn(c, s, i)
  {
    ReachableInv(c, s);
    match s.t.stops[i]
    case AtAdmission => FromAdmission(c, s, i);
    case AtSection => FromSection(c, s, i);
    case AwaitStartup(_, _) => FromAwaitStartup(c, s, i);
    case AwaitDrain(_) => FromAwaitDrain(c, s, i);
    case Entering(_) => FromEntering(c, s, i);
    case Calling(_) => FromCalling(c, s, i);
    case CallReturned(_) => FromCallReturned(c, s, i);
    case Waiting(_) => FromWaiting(c, s, i);
    case _ => HasReturned(c, s, i);
  }

  // ---------------------------------------------------------------- use

  ghost predicate CanUse(c: Config, s: State)
  {
    exists steps, t :: Run(c, s, steps, t) && t.t.using > s.t.using && t.gate.active
  }

  lemma UseNow(c: Config, s: State)
    requires s.gate.active && !s.gate.stopping
    ensures CanUse(c, s)
  {
    var t := Apply(c, s, BeginUse);
    assert Run(c, t, [], t);
    assert [BeginUse][1..] == [];
    assert Run(c, s, [BeginUse], t);
  }

  lemma UseBack(c: Config, s: State, step: Step)
    requires Enabled(c, s, step) && CanUse(c, Apply(c, s, step)) && Apply(c, s, step).t.using == s.t.using
    ensures CanUse(c, s)
  {
    var u := Apply(c, s, step);
    var steps, t :| Run(c, u, steps, t) && t.t.using > u.t.using && t.gate.active;
    assert ([step] + steps)[1..] == steps;
    assert Run(c, s, [step] + steps, t);
  }

  lemma UseAfterStartup(c: Config, s: State)
    requires !s.gate.stopping && s.t.start.StartupOk?
    ensures CanUse(c, s)
  {
    UseNow(c, Apply(c, s, LeaveStart));
    UseBack(c, s, LeaveStart);
  }

  lemma UseAfterCallback(c: Config, s: State)
    requires !s.gate.stopping && s.t.start.InStartup?
    ensures CanUse(c, s)
  {
    UseAfterStartup(c, Apply(c, s, StartupReturns(true)));
    UseBack(c, s, StartupReturns(true));
  }

  lemma UseAfterPlainStart(c: Config, s: State)
    requires !s.gate.stopping && s.t.plain > 0
    ensures CanUse(c, s)
  {
    UseNow(c, Apply(c, s, LeavePlainStart));
    UseBack(c, s, LeavePlainStart);
  }

  /** Before anybody stops or a startup has failed, a start can still succeed and a use begin. */
  lemma UseCanBegin(c: Config, s: State)
    requires ValidConfig(c) && Reachable(c, s) && !s.gate.stopping && !s.t.start.StartupFailed?
    ensures CanUse(c, s)
  {
    ReachableInv(c, s);
    if s.gate.active {
      UseNow(c, s);
    } else if s.t.start.StartupOk? {
      UseAfterStartup(c, s);
    } else if s.t.start.InStartup? {
      UseAfterCallback(c, s);
    } else if s.t.plain > 0 {
      UseAfterPlainStart(c, s);
    } else {
      var u := Apply(c, s, EnterStart);
      if c.hasStartup {
        UseAfterCallback(c, u);
      } else {
        UseAfterPlainStart(c, u);
      }
      UseBack(c, s, EnterStart);
    }
  }

  // ---------------------------------------------------------------- no use after closing

  /** Somebody closed admission or stops, or the run callback has returned and said so. */
  predicate Closed(s: State) { s.t.closers > 0 || s.t.stops != [] || s.t.run.RunMarked? || s.t.run.RunOver? }

  lemma ClosedStep(c: Config, s: State, step: Step)
    requires Inv(c, s) && Enabled(c, s, step) && (Closed(s) ==> s.gate.stopping)
    ensures Closed(Apply(c, s, step)) ==> Apply(c, s, step).gate.stopping
    ensures s.gate.stopping ==> Apply(c, s, step).gate.stopping
  {
  }

  lemma {:induction false} ClosedRun(c: Config, s: State, steps: seq<Step>, t: State)
    requires ValidConfig(c) && Inv(c, s) && Run(c, s, steps, t) && (Closed(s) ==> s.gate.stopping)
    ensures Inv(c, t) && (Closed(t) ==> t.gate.stopping)
    decreases |steps|
  {
    if steps == [] {
    } else {
      ClosedStep(c, s, steps[0]);
      StepKeeps(c, s, steps[0]);
      ClosedRun(c, Apply(c, s, steps[0]), steps[1..], t);
    }
  }

  lemma NobodyClosed(s: State)
    requires s.t.closers == 0 && s.t.stops == [] && s.t.run.Unstarted?
    ensures !Closed(s)
  {
  }

  lemma ReachableClosed(c: Config, s: State)
    requires ValidConfig(c) && Reachable(c, s)
    ensures Inv(c, s) && (Closed(s) ==> s.gate.stopping)
  {
    var steps :| Run(c, Initial, steps, s);
    InitialInv(c);
    InitiallyOpen();
    ClosedRun(c, Initial, steps, s);
  }

  lemma InitiallyOpen()
    ensures !Closed(Initial)
  {
    NobodyClosed(Initial);
  }

  /** A startup, publish, handler, readiness or run callback begins with the step. */
  predicate Begins(s: State, t: State)
  {
    t.t.using > s.t.using || (t.t.run.InRun? && !s.t.run.InRun?) || (t.t.start.InStartup? && !s.t.start.InStartup?)
  }

  lemma NothingBegins(c: Config, s: State, step: Step)
    requires Inv(c, s) && Enabled(c, s, step) && s.gate.stopping
    ensures !Begins(s, Apply(c, s, step))
  {
  }

  /**
   Once CloseAdmission or stop was called, or the run callback returned and was
   marked, no startup, publish, handler, readiness or run callback ever begins.
   */
  lemma ClosedForGood(c: Config, s: State, steps: seq<Step>, t: State, step: Step)
    requires ValidConfig(c) && Reachable(c, s) && Closed(s) && Run(c, s, steps, t) && Enabled(c, t, step)
    ensures !Begins(t, Apply(c, t, step))
  {
    ReachableClosed(c, s);
    StoppingRun(c, s, steps, t);
    NothingBegins(c, t, step);
  }

  lemma {:induction false} StoppingRun(c: Config, s: State, steps: seq<Step>, t: State)
    requires ValidConfig(c) && Inv(c, s) && s.gate.stopping && Run(c, s, steps, t)
    ensures Inv(c, t) && t.gate.stopping
    decreases |steps|
  {
    if steps == [] {
    } else {
      ClosedStep(c, s, steps[0]);
      StepKeeps(c, s, steps[0]);
      StoppingRun(c, Apply(c, s, steps[0]), steps[1..], t);
    }
  }
}
