/**
 The service adapters of adapters/service/queueservice.go: Producer and
 LifecycleWorker as one transition system, a step for every mutex section,
 callback entry, callback return and channel operation, over any number of
 callers.
 */
module ServiceAdapter {
  import opened Wrappers

  /**
   A worker always has a shutdown callback; a producer has no run and no admission
   callback. A worker's admission callback may be left out; the worker here has one.
   */
  datatype Config = Config(worker: bool, hasStartup: bool, hasShutdown: bool)

  ghost predicate ValidConfig(c: Config) { c.worker ==> c.hasShutdown }

  /** The shutdown attempt: the caller that made it, if any, and whether its channel is closed. */
  datatype Shutdown = Shutdown(maker: Option<nat>, closed: bool)

  datatype OncePc = Fresh | Closing | Completed

  /** The caller inside start that owns the current startup attempt. */
  datatype StartPc = Idle | InStartup(k: nat) | StartupFailed(k: nat) | StartupOk(k: nat)

  datatype RunPc = Unstarted | InRun | RunReturned | RunMarked | RunOver

  /** A caller of stop, or of shutdownResource after a failed startup (`cleanup`). */
  datatype StopPc =
    | AtAdmission
    | AtSection
    | AwaitStartup(attempt: Option<nat>, d: nat)
    | AwaitDrain(d: nat)
    | Entering(cleanup: bool)       // shutdownResource's first section is next
    | Calling(cleanup: bool)        // inside the shutdown callback
    | CallReturned(cleanup: bool)   // the section that closes the attempt is next
    | Waiting(cleanup: bool)        // for the attempt another caller made
    | Returned(cleanup: bool)
    | GaveUp(cleanup: bool)         // its context ended while it waited

  /** The fields under the adapter's mutex. */
  datatype Gate = Gate(active: bool, stopping: bool, inflight: int, drained: Option<nat>, attempt: Option<nat>)

  /** Callers without local data are counted; `using` are inside a publish, handler or readiness callback. */
  datatype Callers = Callers(using: nat, leaving: nat, run: RunPc, plain: nat, start: StartPc, closers: nat,
                             stops: seq<StopPc>)

  /** Channels by number, and which are closed; `fault` is a close of a closed channel. */
  datatype Channels = Channels(drains: nat, drained: set<nat>, attempts: nat, done: set<nat>, fault: bool)

  datatype State = State(gate: Gate, t: Callers, ch: Channels, shutdown: Shutdown, once: OncePc,
                         shutdowns: nat, startupFailed: bool)

  const Initial := State(Gate(false, false, 0, None, None), Callers(0, 0, Unstarted, 0, Idle, 0, []),
                         Channels(0, {}, 0, {}, false), Shutdown(None, false), Fresh, 0, false)

  datatype Step =
    | EnterStart | LeavePlainStart | StartupReturns(ok: bool) | LeaveStart
    | BeginUse | UseReturns | FinishUse
    | BeginRun | RunReturns | MarkRun | FinishRun
    | CloseAdmission | OnceBegins | OnceEnds
    | EnterStop | PassAdmission(i: nat) | StopSection(i: nat) | StartupWaited(i: nat) | DrainWaited(i: nat)
    | GiveUp(i: nat) | ShutsDown(i: nat) | ShutdownReturns(i: nat) | CloseAttempt(i: nat) | ShutdownWaited(i: nat)

  predicate StopAt(s: State, i: nat) { i < |s.t.stops| }

  predicate FromCleanup(p: StopPc)
  {
    (p.Entering? || p.Calling? || p.CallReturned? || p.Waiting? || p.Returned? || p.GaveUp?) && p.cleanup
  }

  predicate Enabled(c: Config, s: State, step: Step)
  {
    match step
    case LeavePlainStart => s.t.plain > 0
    case StartupReturns(_) => s.t.start.InStartup?
    case LeaveStart => s.t.start.StartupFailed? || s.t.start.StartupOk?
    case UseReturns => s.t.using > 0
    case FinishUse => s.t.leaving > 0
    case BeginRun => c.worker && s.t.run.Unstarted?
    case RunReturns => s.t.run.InRun?
    case MarkRun => s.t.run.RunReturned?
    case FinishRun => s.t.run.RunMarked?
    case OnceBegins => c.worker && s.once.Fresh? && (s.t.closers > 0 || AtAdmission in s.t.stops)
    case OnceEnds => s.once.Closing?
    case PassAdmission(i) => StopAt(s, i) && s.t.stops[i].AtAdmission? && (c.worker ==> s.once.Completed?)
    case StopSection(i) => StopAt(s, i) && s.t.stops[i].AtSection?
    case StartupWaited(i) =>
      && StopAt(s, i) && s.t.stops[i].AwaitStartup?
      && (s.t.stops[i].attempt.Some? ==> s.t.stops[i].attempt.value in s.ch.done)
    case DrainWaited(i) => StopAt(s, i) && s.t.stops[i].AwaitDrain? && s.t.stops[i].d in s.ch.drained
    case GiveUp(i) =>
      StopAt(s, i) && (s.t.stops[i].AwaitStartup? || s.t.stops[i].AwaitDrain? || s.t.stops[i].Waiting?)
    case ShutsDown(i) => StopAt(s, i) && s.t.stops[i].Entering?
    case ShutdownReturns(i) => StopAt(s, i) && s.t.stops[i].Calling?
    case CloseAttempt(i) => StopAt(s, i) && s.t.stops[i].CallReturned?
    case ShutdownWaited(i) => StopAt(s, i) && s.t.stops[i].Waiting? && s.shutdown.closed
    case _ => true
  }

  // ---------------------------------------------------------------- sections

  function CloseDrain(ch: Channels, d: nat): Channels
  {
    ch.(drained := ch.drained + {d}, fault := ch.fault || d in ch.drained)
  }

  function CloseStartup(ch: Channels, k: nat): Channels
  {
    ch.(done := ch.done + {k}, fault := ch.fault || k in ch.done)
  }

  /** start's first section, and startup's entry when there is a callback. */
  function Entered(c: Config, s: State): State
  {
    if s.gate.stopping || s.gate.active || s.gate.attempt.Some? then s
    else if !c.hasStartup then s.(t := s.t.(plain := s.t.plain + 1))
    else
      s.(gate := s.gate.(attempt := Some(s.ch.attempts)), t := s.t.(start := InStartup(s.ch.attempts)),
         ch := s.ch.(attempts := s.ch.attempts + 1))
  }

  /** start's last section, after success or failure of the callback. */
  function LeftStart(c: Config, s: State): State
    requires s.t.start.StartupFailed? || s.t.start.StartupOk?
  {
    var ch := CloseStartup(s.ch, s.t.start.k);
    if s.t.start.StartupFailed?
    then s.(gate := s.gate.(attempt := None, stopping := s.gate.stopping || c.hasShutdown),
            t := s.t.(start := Idle, stops := s.t.stops + if c.hasShutdown then [Entering(true)] else []),
            ch := ch, startupFailed := true)
    else s.(gate := s.gate.(attempt := None, active := s.gate.active || !s.gate.stopping),
            t := s.t.(start := Idle), ch := ch)
  }

  /** finishUse for a caller that has become `t`. */
  function Finished(s: State, t: Callers): State
  {
    var n := s.gate.inflight - 1;
    if s.gate.stopping && n == 0 && s.gate.drained.Some?
    then s.(gate := s.gate.(inflight := n, drained := None), t := t, ch := CloseDrain(s.ch, s.gate.drained.value))
    else s.(gate := s.gate.(inflight := n), t := t)
  }

  function Shut(g: Gate): Gate { g.(active := false, stopping := true) }

  function Set(t: Callers, i: nat, p: StopPc): Callers
    requires i < |t.stops|
  {
    t.(stops := t.stops[i := p])
  }

  /** stop's own section: it takes the drained channel, or makes one, closed if nothing is in flight. */
  function Sectioned(s: State, i: nat): State
    requires StopAt(s, i)
  {
    if s.gate.drained.Some? then s.(t := Set(s.t, i, AwaitStartup(s.gate.attempt, s.gate.drained.value)))
    else
      var d := s.ch.drains;
      var ch := s.ch.(drains := d + 1);
      s.(gate := s.gate.(drained := Some(d)), t := Set(s.t, i, AwaitStartup(s.gate.attempt, d)),
         ch := if s.gate.inflight == 0 then CloseDrain(ch, d) else ch)
  }

  predicate Made(s: State) { s.shutdown.maker.Some? }

  /** shutdownResource's first section: the first caller calls, later ones wait for it. */
  function Shutting(s: State, i: nat): State
    requires StopAt(s, i) && s.t.stops[i].Entering?
  {
    var cleanup := s.t.stops[i].cleanup;
    if Made(s) then s.(t := Set(s.t, i, Waiting(cleanup)))
    else s.(t := Set(s.t, i, Calling(cleanup)), shutdown := s.shutdown.(maker := Some(i)), shutdowns := s.shutdowns + 1)
  }

  function Apply(c: Config, s: State, step: Step): State
    requires Enabled(c, s, step)
  {
    match step
    case EnterStart => Entered(c, s)
    case LeavePlainStart =>
      s.(gate := s.gate.(active := s.gate.active || !s.gate.stopping), t := s.t.(plain := s.t.plain - 1))
    case StartupReturns(ok) =>
      s.(t := s.t.(start := if ok then StartupOk(s.t.start.k) else StartupFailed(s.t.start.k)))
    case LeaveStart => LeftStart(c, s)
    case BeginUse =>
      if !s.gate.active || s.gate.stopping then s
      else s.(gate := s.gate.(inflight := s.gate.inflight + 1), t := s.t.(using := s.t.using + 1))
    case UseReturns => s.(t := s.t.(using := s.t.using - 1, leaving := s.t.leaving + 1))
    case FinishUse => Finished(s, s.t.(leaving := s.t.leaving - 1))
    case BeginRun =>
      if !s.gate.active || s.gate.stopping then s
      else s.(gate := s.gate.(inflight := s.gate.inflight + 1), t := s.t.(run := InRun))
    case RunReturns => s.(t := s.t.(run := RunReturned))
    case MarkRun => s.(gate := Shut(s.gate), t := s.t.(run := RunMarked))
    case FinishRun => Finished(s, s.t.(run := RunOver))
    case CloseAdmission => s.(gate := Shut(s.gate), t := s.t.(closers := s.t.closers + 1))
    case OnceBegins => s.(once := Closing)
    case OnceEnds => s.(once := Completed)
    case EnterStop => s.(gate := Shut(s.gate), t := s.t.(stops := s.t.stops + [AtAdmission]))
    case PassAdmission(i) => s.(t := Set(s.t, i, AtSection))
    case StopSection(i) => Sectioned(s, i)
    case StartupWaited(i) => s.(t := Set(s.t, i, AwaitDrain(s.t.stops[i].d)))
    case DrainWaited(i) => s.(t := Set(s.t, i, if c.hasShutdown then Entering(false) else Returned(false)))
    case GiveUp(i) => s.(t := Set(s.t, i, GaveUp(FromCleanup(s.t.stops[i]))))
    case ShutsDown(i) => Shutting(s, i)
    case ShutdownReturns(i) => s.(t := Set(s.t, i, CallReturned(s.t.stops[i].cleanup)))
    case CloseAttempt(i) =>
      s.(t := Set(s.t, i, Returned(s.t.stops[i].cleanup)), shutdown := s.shutdown.(closed := true),
         ch := s.ch.(fault := s.ch.fault || s.shutdown.closed))
    case ShutdownWaited(i) => s.(t := Set(s.t, i, Returned(s.t.stops[i].cleanup)))
  }

  ghost predicate Run(c: Config, s: State, steps: seq<Step>, t: State)
    decreases |steps|
  {
    if steps == [] then t == s else Enabled(c, s, steps[0]) && Run(c, Apply(c, s, steps[0]), steps[1..], t)
  }

  ghost predicate Reachable(c: Config, s: State) { exists steps :: Run(c, Initial, steps, s) }

  // ---------------------------------------------------------------- the invariant

  function Running(run: RunPc): nat { if run.Unstarted? || run.RunOver? then 0 else 1 }

  /** Nothing was ever in flight before activation, and nothing can start again once stopping. */
  ghost predicate CountsOf(g: Gate, t: Callers)
  {
    && g.inflight == t.using + t.leaving + Running(t.run)
    && !(g.active && g.stopping)
    && (!g.active && !g.stopping ==> g.inflight == 0)
  }

  /** The startup attempt belongs to the one caller inside start; its channel is open until that caller leaves. */
  ghost predicate AttemptsOf(g: Gate, start: StartPc, ch: Channels)
  {
    && (g.attempt.None? <==> start.Idle?)
    && (!start.Idle? ==> g.attempt == Some(start.k) && start.k < ch.attempts && start.k !in ch.done && !g.active &&
                         g.inflight == 0)
    && (forall k :: k in ch.done ==> k < ch.attempts)
  }

  /** A closed drained channel means nothing is in flight and nothing will be. */
  ghost predicate DrainsOf(g: Gate, ch: Channels)
  {
    && (g.drained.Some? ==> g.stopping && DrainAhead(g.drained.value, g, ch))
    && (forall d :: d in ch.drained ==> d < ch.drains && g.stopping && g.inflight == 0)
    && !ch.fault
  }

  ghost predicate Quiet(g: Gate) { g.stopping && g.inflight == 0 && g.attempt.None? }

  /** A drained channel that is still open is the gate's, and something is in flight. */
  ghost predicate DrainAhead(d: nat, g: Gate, ch: Channels)
  {
    d < ch.drains && (d in ch.drained || (g.drained == Some(d) && g.inflight > 0))
  }

  ghost predicate StopOk(p: StopPc, g: Gate, ch: Channels)
  {
    g.stopping &&
    match p
    case AwaitStartup(a, d) =>
      && (g.attempt.Some? ==> g.attempt == a) && (a.Some? && a.value !in ch.done ==> g.attempt == a)
      && DrainAhead(d, g, ch)
    case AwaitDrain(d) => g.attempt.None? && DrainAhead(d, g, ch)
    case AtAdmission => true
    case AtSection => true
    case GaveUp(_) => true
    case _ => Quiet(g)
  }

  ghost predicate StopsOf(g: Gate, stops: seq<StopPc>, ch: Channels)
  {
    forall i :: 0 <= i < |stops| ==> StopOk(stops[i], g, ch)
  }

  function One(b: bool): nat { if b then 1 else 0 }

  /** Where caller `i` stands in shutdownResource, and what that says of the one attempt. */
  ghost predicate AttemptOk(c: Config, p: StopPc, i: nat, shutdown: Shutdown)
  {
    && (p.Calling? || p.CallReturned? ==> shutdown == Shutdown(Some(i), false))
    && (p.Waiting? ==> shutdown.maker.Some?)
    && (p.Returned? && c.hasShutdown ==> shutdown.maker.Some? && shutdown.closed)
    && (p.Entering? || FromCleanup(p) ==> c.hasShutdown)
  }

  /** Whoever shuts down finds nothing in flight; the one attempt is called, over, or closed. */
  ghost predicate MakerOf(c: Config, g: Gate, stops: seq<StopPc>, shutdown: Shutdown, shutdowns: nat)
  {
    && (shutdown.maker.Some? ==>
          var i := shutdown.maker.value;
          && Quiet(g) && c.hasShutdown && i < |stops|
          && if shutdown.closed then stops[i].Returned? else stops[i].Calling? || stops[i].CallReturned?)
    && (shutdown.maker.None? ==> !shutdown.closed)
    && shutdowns == One(shutdown.maker.Some?)
  }

  ghost predicate Inv(c: Config, s: State)
  {
    && (if c.hasStartup then s.t.plain == 0 else s.t.start.Idle?)
    && CountsOf(s.gate, s.t)
    && AttemptsOf(s.gate, s.t.start, s.ch)
    && DrainsOf(s.gate, s.ch)
    && StopsOf(s.gate, s.t.stops, s.ch)
    && (forall i :: 0 <= i < |s.t.stops| ==> AttemptOk(c, s.t.stops[i], i, s.shutdown))
    && MakerOf(c, s.gate, s.t.stops, s.shutdown, s.shutdowns)
  }

  lemma CountsStep(c: Config, s: State, step: Step)
    requires Inv(c, s) && Enabled(c, s, step)
    ensures CountsOf(Apply(c, s, step).gate, Apply(c, s, step).t)
  {
  }

  lemma AttemptsStep(c: Config, s: State, step: Step)
    requires Inv(c, s) && Enabled(c, s, step)
    ensures AttemptsOf(Apply(c, s, step).gate, Apply(c, s, step).t.start, Apply(c, s, step).ch)
    ensures if c.hasStartup then Apply(c, s, step).t.plain == 0 else Apply(c, s, step).t.start.Idle?
  {
  }

  lemma DrainsStep(c: Config, s: State, step: Step)
    requires Inv(c, s) && Enabled(c, s, step)
    ensures DrainsOf(Apply(c, s, step).gate, Apply(c, s, step).ch)
  {
  }

  lemma StopsStep(c: Config, s: State, step: Step)
    requires Inv(c, s) && Enabled(c, s, step)
    ensures StopsOf(Apply(c, s, step).gate, Apply(c, s, step).t.stops, Apply(c, s, step).ch)
  {
    var v := Apply(c, s, step);
    forall i | 0 <= i < |v.t.stops| ensures StopOk(v.t.stops[i], v.gate, v.ch) {
      if i < |s.t.stops| && v.t.stops[i] == s.t.stops[i] {
        StopKept(c, s, step, s.t.stops[i]);
      } else {
        StopMoved(c, s, step, i);
      }
    }
  }

  lemma StopKept(c: Config, s: State, step: Step, p: StopPc)
    requires Inv(c, s) && Enabled(c, s, step) && StopOk(p, s.gate, s.ch)
    ensures StopOk(p, Apply(c, s, step).gate, Apply(c, s, step).ch)
  {
  }

  lemma StopMoved(c: Config, s: State, step: Step, i: nat)
    requires Inv(c, s) && Enabled(c, s, step) && i < |Apply(c, s, step).t.stops|
    requires i < |s.t.stops| ==> Apply(c, s, step).t.stops[i] != s.t.stops[i]
    ensures StopOk(Apply(c, s, step).t.stops[i], Apply(c, s, step).gate, Apply(c, s, step).ch)
  {
    if i < |s.t.stops| { assert StopOk(s.t.stops[i], s.gate, s.ch); }
  }

  lemma CallersStep(c: Config, s: State, step: Step)
    requires ValidConfig(c) && Inv(c, s) && Enabled(c, s, step)
    ensures var v := Apply(c, s, step);
      forall i :: 0 <= i < |v.t.stops| ==> AttemptOk(c, v.t.stops[i], i, v.shutdown)
  {
  }

  lemma MakerStep(c: Config, s: State, step: Step)
    requires ValidConfig(c) && Inv(c, s) && Enabled(c, s, step)
    ensures var v := Apply(c, s, step); MakerOf(c, v.gate, v.t.stops, v.shutdown, v.shutdowns)
  {
  }

  lemma StepKeeps(c: Config, s: State, step: Step)
    requires ValidConfig(c) && Inv(c, s) && Enabled(c, s, step)
    ensures Inv(c, Apply(c, s, step))
  {
    CountsStep(c, s, step);
    AttemptsStep(c, s, step);
    DrainsStep(c, s, step);
    StopsStep(c, s, step);
    CallersStep(c, s, step);
    MakerStep(c, s, step);
  }

  lemma {:induction false} RunKeeps(c: Config, s: State, steps: seq<Step>, t: State)
    requires ValidConfig(c) && Inv(c, s) && Run(c, s, steps, t)
    ensures Inv(c, t) && (Made(s) ==> t.shutdown.maker == s.shutdown.maker)
    decreases |steps|
  {
    if steps == [] {
    } else {
      StepKeeps(c, s, steps[0]);
      RunKeeps(c, Apply(c, s, steps[0]), steps[1..], t);
    }
  }

  lemma ReachableInv(c: Config, s: State)
    requires ValidConfig(c) && Reachable(c, s)
    ensures Inv(c, s)
  {
    var steps :| Run(c, Initial, steps, s);
    InitialInv(c);
    RunKeeps(c, Initial, steps, s);
  }

  lemma UntouchedInv(c: Config, s: State)
    requires !s.gate.active && !s.gate.stopping && s.gate.inflight == 0
    requires s.gate.drained.None? && s.gate.attempt.None?
    requires s.t.using == 0 && s.t.leaving == 0 && s.t.run.Unstarted? && s.t.plain == 0 && s.t.start.Idle?
    requires s.t.stops == [] && s.ch.drained == {} && s.ch.done == {} && !s.ch.fault
    requires s.shutdown.maker.None? && !s.shutdown.closed && s.shutdowns == 0
    ensures Inv(c, s) && AdmittedOf(c, s)
  {
  }

  lemma InitialInv(c: Config)
    ensures Inv(c, Initial) && AdmittedOf(c, Initial)
  {
    UntouchedInv(c, Initial);
  }

  /** A startup, publish, handler, readiness or run callback is in progress. */
  ghost predicate Busy(s: State) { s.t.start.InStartup? || s.t.using > 0 || s.t.run.InRun? }

  /**
   From the moment the shutdown callback starts, in every interleaving and for
   ever: no other callback is in progress, so none overlaps it and none begins
   after it; and it is never called again.
   */
  lemma ShutdownIsLast(c: Config, s: State, steps: seq<Step>, t: State)
    requires ValidConfig(c) && Reachable(c, s) && Made(s) && Run(c, s, steps, t)
    ensures !Busy(t) && t.gate.inflight == 0 && t.shutdowns == 1
  {
    ReachableInv(c, s);
    RunKeeps(c, s, steps, t);
  }

  /** The shutdown callback runs at most once and no drained or attempt channel is closed twice. */
  lemma ClosedOnce(c: Config, s: State)
    requires ValidConfig(c) && Reachable(c, s)
    ensures s.shutdowns <= 1 && !s.ch.fault
    ensures s.gate.inflight == s.t.using + s.t.leaving + Running(s.t.run)
  {
    ReachableInv(c, s);
  }

  /** The shutdown callback is in progress. */
  predicate InShutdown(s: State)
  {
    s.shutdown.maker.Some? && s.shutdown.maker.value < |s.t.stops| && s.t.stops[s.shutdown.maker.value].Calling?
  }

  /**
   A stop that returned without giving up leaves nothing in progress, and it
   returned after the shutdown callback, if there is one, was called and returned.
   So did every startup that failed and returned.
   */
  lemma StopReturnsAfterShutdown(c: Config, s: State, i: nat)
    requires ValidConfig(c) && Reachable(c, s) && StopAt(s, i) && s.t.stops[i].Returned?
    ensures s.gate.stopping && s.gate.inflight == 0 && !Busy(s)
    ensures c.hasShutdown ==> Made(s) && s.shutdowns == 1 && s.shutdown.closed && !InShutdown(s)
  {
    ReachableInv(c, s);
    assert StopOk(s.t.stops[i], s.gate, s.ch) && AttemptOk(c, s.t.stops[i], i, s.shutdown);
  }

  /**
   The shutdown callback is called only if there is one, by a stop that saw
   everything drained, or by the cleanup after a startup that failed.
   */
  lemma ShutdownIsAsked(c: Config, s: State)
    requires ValidConfig(c) && Reachable(c, s) && Made(s)
    ensures c.hasShutdown && StopAt(s, s.shutdown.maker.value)
    ensures var p := s.t.stops[s.shutdown.maker.value];
      (p.Calling? || p.CallReturned? || p.Returned?) && (p.cleanup ==> s.startupFailed)
  {
    ReachableInv(c, s);
    var steps :| Run(c, Initial, steps, s);
    AdmissionRun(c, Initial, steps, s);
  }

  // ---------------------------------------------------------------- the admission callback

  /** Whoever shuts down through stop has seen the admission callback complete. */
  ghost predicate AdmittedOf(c: Config, s: State)
  {
    && (forall i :: 0 <= i < |s.t.stops| ==> AdmittedAt(c, s.t.stops[i], s.once, s.startupFailed))
    && (c.worker && !s.once.Completed? && Made(s) ==> s.startupFailed)
  }

  predicate AdmittedAt(c: Config, p: StopPc, once: OncePc, startupFailed: bool)
  {
    && (FromCleanup(p) ==> startupFailed)
    && (c.worker && !once.Completed? ==> p.AtAdmission? || FromCleanup(p))
  }

  lemma AdmissionStep(c: Config, s: State, step: Step)
    requires Enabled(c, s, step) && AdmittedOf(c, s)
    ensures AdmittedOf(c, Apply(c, s, step))
  {
    var v := Apply(c, s, step);
    forall i | 0 <= i < |v.t.stops| ensures AdmittedAt(c, v.t.stops[i], v.once, v.startupFailed) {
      CallerAdmitted(c, s, step, i);
    }
    MakerAdmitted(c, s, step);
  }

  lemma CallerAdmitted(c: Config, s: State, step: Step, i: nat)
    requires Enabled(c, s, step) && AdmittedOf(c, s) && i < |Apply(c, s, step).t.stops|
    ensures var v := Apply(c, s, step); AdmittedAt(c, v.t.stops[i], v.once, v.startupFailed)
  {
    if i < |s.t.stops| { assert AdmittedAt(c, s.t.stops[i], s.once, s.startupFailed); }
  }

  lemma MakerAdmitted(c: Config, s: State, step: Step)
    requires Enabled(c, s, step) && AdmittedOf(c, s)
    ensures var v := Apply(c, s, step); c.worker && !v.once.Completed? && Made(v) ==> v.startupFailed
  {
    if step.ShutsDown? { assert AdmittedAt(c, s.t.stops[step.i], s.once, s.startupFailed); }
  }

  lemma {:induction false} AdmissionRun(c: Config, s: State, steps: seq<Step>, t: State)
    requires AdmittedOf(c, s) && Run(c, s, steps, t)
    ensures AdmittedOf(c, t)
    decreases |steps|
  {
    if steps == [] {
    } else {
      AdmissionStep(c, s, steps[0]);
      AdmissionRun(c, Apply(c, s, steps[0]), steps[1..], t);
    }
  }

  /** Unless startup failed, the worker's admission callback is over before shutdown begins. */
  lemma AdmissionBeforeShutdown(c: Config, s: State)
    requires c.worker && Reachable(c, s) && Made(s) && !s.startupFailed
    ensures s.once.Completed?
  {
    var steps :| Run(c, Initial, steps, s);
    AdmissionRun(c, Initial, steps, s);
  }

  /** The admission and the shutdown callback are in progress at the same time. */
  ghost predicate Overlap(s: State) { InShutdown(s) && s.once.Closing? }

  ghost predicate CanOverlap(c: Config, s: State) { exists steps, t :: Run(c, s, steps, t) && Overlap(t) }

  /** A startup is failing, or one can still begin. */
  predicate StartMayFail(c: Config, s: State)
  {
    && c.hasStartup
    && (s.t.start.InStartup? || s.t.start.StartupFailed? || (s.t.start.Idle? && !s.gate.stopping && !s.gate.active))
  }

  predicate OverlapAhead(c: Config, s: State)
  {
    && !s.once.Completed? && (!Made(s) || InShutdown(s))
    && (s.startupFailed || StartMayFail(c, s))
  }

  lemma NotAheadStep(c: Config, s: State, step: Step)
    requires Inv(c, s) && Enabled(c, s, step) && !OverlapAhead(c, s)
    ensures !OverlapAhead(c, Apply(c, s, step))
  {
  }

  lemma {:induction false} NotAheadRun(c: Config, s: State, steps: seq<Step>, t: State)
    requires c.worker && ValidConfig(c) && Inv(c, s) && AdmittedOf(c, s) && !OverlapAhead(c, s) && Run(c, s, steps, t)
    ensures !Overlap(t)
    decreases |steps|
  {
    if steps == [] {
    } else {
      StepKeeps(c, s, steps[0]);
      AdmissionStep(c, s, steps[0]);
      NotAheadStep(c, s, steps[0]);
      NotAheadRun(c, Apply(c, s, steps[0]), steps[1..], t);
    }
  }

  lemma StepBack(c: Config, s: State, step: Step)
    requires Enabled(c, s, step) && CanOverlap(c, Apply(c, s, step))
    ensures CanOverlap(c, s)
  {
    var steps, t :| Run(c, Apply(c, s, step), steps, t) && Overlap(t);
    assert ([step] + steps)[1..] == steps;
    assert Run(c, s, [step] + steps, t);
  }

  lemma Already(c: Config, s: State)
    requires Overlap(s)
    ensures CanOverlap(c, s)
  {
    assert Run(c, s, [], s);
  }

  /** While shutdown is in progress, anyone can begin the admission callback. */
  lemma AdmitDuringShutdown(c: Config, s: State)
    requires c.worker && InShutdown(s) && !s.once.Completed?
    ensures CanOverlap(c, s)
  {
    if s.once.Closing? {
      Already(c, s);
    } else {
      var u := Apply(c, s, CloseAdmission);
      Already(c, Apply(c, u, OnceBegins));
      StepBack(c, u, OnceBegins);
      StepBack(c, s, CloseAdmission);
    }
  }

  lemma AfterFailure(c: Config, s: State)
    requires c.worker && s.startupFailed && !s.once.Completed?
    requires if Made(s) then InShutdown(s) else CleanupAhead(s)
    ensures CanOverlap(c, s)
  {
    if Made(s) {
      AdmitDuringShutdown(c, s);
    } else {
      var i: nat :| StopAt(s, i) && s.t.stops[i] == Entering(true);
      AdmitDuringShutdown(c, Apply(c, s, ShutsDown(i)));
      StepBack(c, s, ShutsDown(i));
    }
  }

  lemma LeavesFailed(c: Config, s: State)
    requires c.hasShutdown && s.t.start.StartupFailed?
    ensures var u := Apply(c, s, LeaveStart);
      u.startupFailed && CleanupAhead(u) && u.shutdown == s.shutdown && u.once == s.once
  {
    var u := Apply(c, s, LeaveStart);
    assert u.t.stops[|s.t.stops|] == Entering(true);
  }

  lemma AfterFailing(c: Config, s: State)
    requires c.worker && c.hasShutdown && !Made(s) && !s.once.Completed?
    requires s.t.start.InStartup? || s.t.start.StartupFailed?
    ensures CanOverlap(c, s)
  {
    if s.t.start.StartupFailed? {
      LeavesFailed(c, s);
      AfterFailure(c, Apply(c, s, LeaveStart));
      StepBack(c, s, LeaveStart);
    } else {
      var u := Apply(c, s, StartupReturns(false));
      LeavesFailed(c, u);
      AfterFailure(c, Apply(c, u, LeaveStart));
      StepBack(c, u, LeaveStart);
      StepBack(c, s, StartupReturns(false));
    }
  }

  lemma AheadCanOverlap(c: Config, s: State)
    requires c.worker && ValidConfig(c) && Inv(c, s) && AdmittedOf(c, s) && CleanupOf(c, s) && OverlapAhead(c, s)
    ensures CanOverlap(c, s)
  {
    if s.startupFailed {
      AfterFailure(c, s);
    } else if s.t.start.Idle? {
      AfterFailing(c, Apply(c, s, EnterStart));
      StepBack(c, s, EnterStart);
    } else {
      AfterFailing(c, s);
    }
  }

  /** A caller is about to shut down because startup failed. */
  ghost predicate CleanupAhead(s: State) { exists i: nat :: StopAt(s, i) && s.t.stops[i] == Entering(true) }

  /** A failed startup shuts down, or is about to. */
  ghost predicate CleanupOf(c: Config, s: State)
  {
    c.hasShutdown && s.startupFailed ==> Made(s) || CleanupAhead(s)
  }

  lemma CleanupStep(c: Config, s: State, step: Step)
    requires CleanupOf(c, s) && Enabled(c, s, step)
    ensures CleanupOf(c, Apply(c, s, step))
  {
    var v := Apply(c, s, step);
    if step.LeaveStart? && s.t.start.StartupFailed? && c.hasShutdown {
      LeavesFailed(c, s);
    } else if c.hasShutdown && s.startupFailed && !Made(v) {
      var i: nat :| StopAt(s, i) && s.t.stops[i] == Entering(true);
      assert StopAt(v, i) && v.t.stops[i] == Entering(true);
    }
  }

  lemma {:induction false} CleanupRun(c: Config, s: State, steps: seq<Step>, t: State)
    requires CleanupOf(c, s) && Run(c, s, steps, t)
    ensures CleanupOf(c, t)
    decreases |steps|
  {
    if steps == [] {
    } else {
      CleanupStep(c, s, steps[0]);
      CleanupRun(c, Apply(c, s, steps[0]), steps[1..], t);
    }
  }

  /**
   From any reachable state of a worker, some continuation has both callbacks in
   progress exactly when the admission callback has not completed, shutdown has
   not begun or is in progress, and a startup failed or still can.
   */
  lemma AdmissionOverlapsExactly(c: Config, s: State)
    requires c.worker && ValidConfig(c) && Reachable(c, s)
    ensures CanOverlap(c, s) <==>
            && !s.once.Completed? && (!Made(s) || InShutdown(s))
            && (s.startupFailed || StartMayFail(c, s))
  {
    ReachableInv(c, s);
    var steps :| Run(c, Initial, steps, s);
    AdmissionRun(c, Initial, steps, s);
    CleanupRun(c, Initial, steps, s);
    if OverlapAhead(c, s) {
      AheadCanOverlap(c, s);
    } else if CanOverlap(c, s) {
      var more, t :| Run(c, s, more, t) && Overlap(t);
      NotAheadRun(c, s, more, t);
    }
  }

  /** After a failed startup the admission callback can overlap the shutdown callback. */
  lemma AdmissionCanOverlapShutdown() returns (s: State)
    ensures Reachable(Config(true, true, true), s) && Overlap(s) && s.startupFailed
  {
    var c := Config(true, true, true);
    var s1 := Apply(c, Initial, EnterStart);
    var s2 := Apply(c, s1, StartupReturns(false));
    var s3 := Apply(c, s2, LeaveStart);
    var s4 := Apply(c, s3, ShutsDown(0));
    var s5 := Apply(c, s4, CloseAdmission);
    s := Apply(c, s5, OnceBegins);
    OneMore(c, Initial, EnterStart);
    OneMore(c, s1, StartupReturns(false));
    OneMore(c, s2, LeaveStart);
    OneMore(c, s3, ShutsDown(0));
    OneMore(c, s4, CloseAdmission);
    OneMore(c, s5, OnceBegins);
  }

  lemma {:induction false} RunMore(c: Config, s: State, steps: seq<Step>, t: State, step: Step)
    requires Run(c, s, steps, t) && Enabled(c, t, step)
    ensures Run(c, s, steps + [step], Apply(c, t, step))
    decreases |steps|
  {
    if steps == [] {
      assert Run(c, Apply(c, t, step), [], Apply(c, t, step));
    } else {
      RunMore(c, Apply(c, s, steps[0]), steps[1..], t, step);
      assert (steps + [step])[1..] == steps[1..] + [step];
    }
  }

  lemma OneMore(c: Config, t: State, step: Step)
    requires (t == Initial || Reachable(c, t)) && Enabled(c, t, step)
    ensures Reachable(c, Apply(c, t, step))
  {
    if t == Initial { assert Run(c, Initial, [], t); }
    var steps :| Run(c, Initial, steps, t);
    RunMore(c, Initial, steps, t, step);
  }
}
