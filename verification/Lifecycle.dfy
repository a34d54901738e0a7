/**
 The worker lifecycle of management/lifecycle.go: admission and job counters, a
 desired state, and transitions that wait for a safe boundary under applyMu.
 */
module Lifecycle {
  import opened Wrappers

  datatype DesiredState = Active | Paused | Draining | Terminating

  datatype Life = Life(state: DesiredState, admissions: nat, jobs: nat, drainTimedOut: bool)

  const Fresh := Life(Active, 0, 0, false)

  function BeginAdmission(l: Life): (r: Option<Life>)
  {
    if l.state != Active then None else Some(l.(admissions := l.admissions + 1))
  }

  /** None is ErrInvalidLifecycleCounter. */
  function EndAdmission(l: Life): (r: Option<Life>)
  {
    if l.admissions == 0 then None else Some(l.(admissions := l.admissions - 1))
  }

  function PromoteAdmissionToJob(l: Life): (r: Option<Life>)
  {
    if l.admissions == 0 then None
    else Some(l.(admissions := l.admissions - 1, jobs := l.jobs + 1))
  }

  function EndJob(l: Life): (r: Option<Life>)
  {
    if l.jobs == 0 then None else Some(l.(jobs := l.jobs - 1))
  }

  /** The first section of transition. None is ErrInvalidDesiredStateTransition. */
  function EnterState(l: Life, state: DesiredState): (r: Option<Life>)
  {
    if l.state == Terminating && state != Terminating then None
    else Some(l.(state := state, drainTimedOut := false))
  }

  predicate TransitionComplete(l: Life, state: DesiredState)
  {
    match state
    case Active => true
    case Paused => l.admissions == 0
    case _ => l.admissions == 0 && l.jobs == 0
  }

  datatype DrainState = NotRequested | InProgress | Completed | TimedOut

  datatype Snapshot = Snapshot(state: DesiredState, drain: DrainState, jobs: nat, terminating: bool)

  /** WorkerRunning, WorkerPaused and WorkerDraining are written Active, Paused and Draining. */
  function SnapshotOf(l: Life): (s: Snapshot)
  {
    match l.state
    case Paused => Snapshot(Paused, NotRequested, l.jobs, false)
    case Active => Snapshot(Active, NotRequested, l.jobs, false)
    case _ =>
      Snapshot(Draining,
               if l.drainTimedOut then TimedOut
               else if l.admissions == 0 && l.jobs == 0 then Completed else InProgress,
               l.jobs, l.state == Terminating)
  }

  // ---------------------------------------------------------------- runs

  /**
   `waiting` is the state requested by the transition that holds applyMu.
   Counter calls that fail leave the state alone and are ordinary steps here.
   */
  datatype System = System(life: Life, waiting: Option<DesiredState>)

  datatype Step =
    | DoBegin | DoEnd | DoPromote | DoFinish
    | Enter(target: DesiredState)   // takes applyMu and runs the first section
    | Check                         // one pass of the waiting loop
    | Expire(deadline: bool)        // the context ended; releases applyMu

  predicate Enabled(s: System, step: Step)
  {
    match step
    case Enter(_) => s.waiting.None?
    case Check => s.waiting.Some?
    case Expire(_) => s.waiting.Some?
    case _ => true
  }

  function OrElse(o: Option<Life>, l: Life): Life
  {
    match o case Some(x) => x case None => l
  }

  function Apply(s: System, step: Step): System
    requires Enabled(s, step)
  {
    match step
    case DoBegin => s.(life := OrElse(BeginAdmission(s.life), s.life))
    case DoEnd => s.(life := OrElse(EndAdmission(s.life), s.life))
    case DoPromote => s.(life := OrElse(PromoteAdmissionToJob(s.life), s.life))
    case DoFinish => s.(life := OrElse(EndJob(s.life), s.life))
    case Enter(target) =>
      (match EnterState(s.life, target)
       case Some(l) => System(l, Some(target))
       case None => s)
    case Check => if TransitionComplete(s.life, s.waiting.value) then s.(waiting := None) else s
    case Expire(deadline) =>
      System(if deadline then s.life.(drainTimedOut := true) else s.life, None)
  }

  ghost predicate Run(s: System, steps: seq<Step>, t: System)
    decreases |steps|
  {
    if steps == [] then t == s
    else Enabled(s, steps[0]) && Run(Apply(s, steps[0]), steps[1..], t)
  }

  lemma {:induction false} RunThen(s: System, steps: seq<Step>, t: System, step: Step)
    requires Run(s, steps, t) && Enabled(t, step)
    ensures Run(s, steps + [step], Apply(t, step))
    decreases |steps|
  {
    if steps == [] {
      assert [step][1..] == [];
    } else {
      assert (steps + [step])[1..] == steps[1..] + [step];
      RunThen(Apply(s, steps[0]), steps[1..], t, step);
    }
  }

  // ---------------------------------------------------------------- the object

  predicate Counts(call: Step) { call.DoBegin? || call.DoEnd? || call.DoPromote? || call.DoFinish? }

  predicate AllCount(calls: seq<Step>) { forall i :: 0 <= i < |calls| ==> Counts(calls[i]) }

  /** The lifecycle after counter calls. */
  function Counted(l: Life, calls: seq<Step>): Life
    requires AllCount(calls)
  {
    if calls == [] then l
    else
      assert Enabled(System(l, None), calls[|calls| - 1]);
      Apply(System(Counted(l, calls[..|calls| - 1]), None), calls[|calls| - 1]).life
  }

  function Entered(l: Life, target: DesiredState): Life { OrElse(EnterState(l, target), l) }

  /** The first `k` calls each found the boundary not reached. */
  ghost predicate Pending(l: Life, calls: seq<Step>, target: DesiredState, k: nat)
    requires AllCount(calls) && k <= |calls|
  {
    forall j :: 0 <= j < k ==> !TransitionComplete(Counted(l, calls[..j]), target)
  }

  /** Call number `k` is the first that leaves the boundary reached, or none does. */
  ghost predicate StopsAt(l: Life, calls: seq<Step>, target: DesiredState, k: nat, reached: bool)
    requires AllCount(calls) && k <= |calls|
  {
    && Pending(l, calls, target, k)
    && (reached <==> TransitionComplete(Counted(l, calls[..k]), target))
  }

  /** Reservations left after the first `k` calls, with the running jobs if they are waited for. */
  function Left(l: Life, calls: seq<Step>, k: nat, jobsToo: bool): nat
    requires AllCount(calls) && k <= |calls|
  {
    var after := Counted(l, calls[..k]);
    after.admissions + if jobsToo then after.jobs else 0
  }

  /** Call number `k` is the first after which nothing is left, or nothing ever is and all were seen. */
  ghost predicate FirstWithout(l: Life, calls: seq<Step>, k: nat, reached: bool, jobsToo: bool)
    requires AllCount(calls)
  {
    && k <= |calls| && (forall j :: 0 <= j < k ==> Left(l, calls, j, jobsToo) > 0)
    && if reached then Left(l, calls, k, jobsToo) == 0 else k == |calls| && Left(l, calls, k, jobsToo) > 0
  }

  lemma StopsAtFirst(l: Life, calls: seq<Step>, target: DesiredState, k: nat, reached: bool)
    requires AllCount(calls) && k <= |calls| && StopsAt(l, calls, target, k, reached) && (!reached ==> k == |calls|)
    ensures target == Active ==> reached && k == 0
    ensures target == Paused ==> FirstWithout(l, calls, k, reached, false)
    ensures target == Draining || target == Terminating ==> FirstWithout(l, calls, k, reached, true)
  {
    if k > 0 { assert !TransitionComplete(Counted(l, calls[..0]), target); }
    forall j | 0 <= j < k
      ensures target == Paused ==> Left(l, calls, j, false) > 0
      ensures target == Draining || target == Terminating ==> Left(l, calls, j, true) > 0
    {
      assert !TransitionComplete(Counted(l, calls[..j]), target);
    }
  }

  /** Counter calls move neither the state nor the timeout. */
  lemma {:induction false} CountingKeepsState(l: Life, calls: seq<Step>)
    requires AllCount(calls)
    ensures Counted(l, calls).state == l.state && Counted(l, calls).drainTimedOut == l.drainTimedOut
    decreases |calls|
  {
    if calls == [] {
    } else {
      CountingKeepsState(l, calls[..|calls| - 1]);
    }
  }

  lemma CountedThen(l: Life, calls: seq<Step>, k: nat)
    requires AllCount(calls) && k < |calls|
    ensures Counted(l, calls[..k + 1]) == Counted(Counted(l, calls[..k]), [calls[k]])
  {
    assert calls[..k + 1][..k] == calls[..k];
    assert [calls[k]][..0] == [];
  }

  /** A pass of the waiting loop that finds the boundary not reached. */
  lemma NotYet(s: System, steps: seq<Step>, l: Life, target: DesiredState)
    requires Run(s, steps, System(l, Some(target))) && !TransitionComplete(l, target)
    ensures Run(s, steps + [Check], System(l, Some(target)))
  {
    RunThen(s, steps, System(l, Some(target)), Check);
  }

  lemma RunCounts(s: System, steps: seq<Step>, l: Life, calls: seq<Step>, k: nat, target: DesiredState)
    requires AllCount(calls) && k < |calls| && Run(s, steps, System(Counted(l, calls[..k]), Some(target)))
    ensures Counted(l, calls[..k + 1]) == Counted(Counted(l, calls[..k]), [calls[k]])
    ensures Run(s, steps + [calls[k]], System(Counted(l, calls[..k + 1]), Some(target)))
  {
    CountedThen(l, calls, k);
    RunThen(s, steps, System(Counted(l, calls[..k]), Some(target)), calls[k]);
  }

  datatype TransitionResult = Reached | Refused | Interrupted

  /** The object; its methods are the mutex sections, and Transition the loop around them. */
  class WorkerLifecycle {
    var state: DesiredState
    var admissions: nat
    var jobs: nat
    var drainTimedOut: bool

    ghost function Model(): Life
      reads this
    {
      Life(state, admissions, jobs, drainTimedOut)
    }

    constructor ()
      ensures Model() == Fresh
    {
      state, admissions, jobs, drainTimedOut := Active, 0, 0, false;
    }

    method Begin() returns (ok: bool)
      modifies this
      ensures match BeginAdmission(old(Model()))
              case Some(l) => ok && Model() == l
              case None => !ok && Model() == old(Model())
      ensures ok <==> old(state) == Active
      ensures state == old(state) && drainTimedOut == old(drainTimedOut) && jobs == old(jobs)
      ensures admissions == old(admissions) + if ok then 1 else 0
    {
      if state != Active { return false; }
      admissions := admissions + 1;
      return true;
    }

    method End() returns (ok: bool)
      modifies this
      ensures match EndAdmission(old(Model()))
              case Some(l) => ok && Model() == l
              case None => !ok && Model() == old(Model())
      ensures ok <==> old(admissions) > 0
      ensures state == old(state) && drainTimedOut == old(drainTimedOut) && jobs == old(jobs)
      ensures admissions == old(admissions) - if ok then 1 else 0
    {
      if admissions == 0 { return false; }
      admissions := admissions - 1;
      return true;
    }

    method Promote() returns (ok: bool)
      modifies this
      ensures match PromoteAdmissionToJob(old(Model()))
              case Some(l) => ok && Model() == l
              case None => !ok && Model() == old(Model())
      ensures ok <==> old(admissions) > 0
      ensures state == old(state) && drainTimedOut == old(drainTimedOut)
      ensures admissions + jobs == old(admissions + jobs) && jobs == old(jobs) + if ok then 1 else 0
    {
      if admissions == 0 { return false; }
      admissions := admissions - 1;
      jobs := jobs + 1;
      return true;
    }

    method Finish() returns (ok: bool)
      modifies this
      ensures match EndJob(old(Model()))
              case Some(l) => ok && Model() == l
              case None => !ok && Model() == old(Model())
      ensures ok <==> old(jobs) > 0
      ensures state == old(state) && drainTimedOut == old(drainTimedOut) && admissions == old(admissions)
      ensures jobs == old(jobs) - if ok then 1 else 0
    {
      if jobs == 0 { return false; }
      jobs := jobs - 1;
      return true;
    }

    method Enter(target: DesiredState) returns (ok: bool)
      modifies this
      ensures match EnterState(old(Model()), target)
              case Some(l) => ok && Model() == l
              case None => !ok && Model() == old(Model())
      ensures ok <==> old(state) != Terminating || target == Terminating
      ensures admissions == old(admissions) && jobs == old(jobs)
      ensures ok ==> state == target && !drainTimedOut
    {
      if state == Terminating && target != Terminating { return false; }
      state := target;
      drainTimedOut := false;
      return true;
    }

    method Count(call: Step)
      requires Counts(call)
      modifies this
      ensures Model() == Counted(old(Model()), [call])
    {
      assert [call][..0] == [];
      var ok;
      if call.DoBegin? {
        ok := Begin();
      } else if call.DoEnd? {
        ok := End();
      } else if call.DoPromote? {
        ok := Promote();
      } else {
        ok := Finish();
      }
    }

    /**
     `calls` are the counter calls others make while this transition waits, one
     before each wake-up; when they run out the context ends. The transition
     returns nil after the first of them that leaves the boundary reached, and
     what the object goes through is a run of the system above.
     */
    method Transition(target: DesiredState, calls: seq<Step>, deadline: bool)
      returns (r: TransitionResult, seen: nat, ghost steps: seq<Step>)
      requires AllCount(calls)
      modifies this
      ensures Run(System(old(Model()), None), steps, System(Model(), None))
      ensures r.Refused? <==> old(state) == Terminating && target != Terminating
      ensures r.Refused? ==> Model() == old(Model())
      ensures !r.Refused? ==> seen <= |calls| && StopsAt(Entered(old(Model()), target), calls, target, seen, r.Reached?)
      ensures !r.Refused? && target == Active ==> r.Reached? && seen == 0
      ensures !r.Refused? && target == Paused ==>
                FirstWithout(Entered(old(Model()), target), calls, seen, r.Reached?, false)
      ensures !r.Refused? && (target == Draining || target == Terminating) ==>
                FirstWithout(Entered(old(Model()), target), calls, seen, r.Reached?, true)
      ensures r.Reached? ==> Model() == Counted(Entered(old(Model()), target), calls[..seen])
      ensures r.Reached? ==> state == target && !drainTimedOut
      ensures r.Interrupted? ==>
                seen == |calls| &&
                Model() == Counted(Entered(old(Model()), target), calls).(drainTimedOut := deadline)
    {
      ghost var s, l := System(Model(), None), Entered(Model(), target);
      var ok := Enter(target);
      steps, seen := [Step.Enter(target)], 0;
      if !ok { return Refused, 0, steps; }
      assert calls[..0] == [];
      while true
        invariant seen <= |calls| && Model() == Counted(l, calls[..seen])
        invariant Run(s, steps, System(Model(), Some(target)))
        invariant Pending(l, calls, target, seen)
        decreases |calls| - seen
      {
        if target == Active || (admissions == 0 && (target == Paused || jobs == 0)) {
          RunThen(s, steps, System(Model(), Some(target)), Check);
          StopsAtFirst(l, calls, target, seen, true);
          CountingKeepsState(l, calls[..seen]);
          return Reached, seen, steps + [Check];
        }
        NotYet(s, steps, Model(), target);
        steps := steps + [Check];
        if seen == |calls| {
          assert calls[..seen] == calls;
          StopsAtFirst(l, calls, target, seen, false);
          CountingKeepsState(l, calls);
          RunThen(s, steps, System(Model(), Some(target)), Expire(deadline));
          if deadline { drainTimedOut := true; }
          return Interrupted, seen, steps + [Expire(deadline)];
        }
        RunCounts(s, steps, l, calls, seen, target);
        steps := steps + [calls[seen]];
        Count(calls[seen]);
        seen := seen + 1;
      }
    }
  }

  /** What a status report means: each state, each drain status, and the job count. */
  lemma SnapshotTells(l: Life)
    ensures var s := SnapshotOf(l);
      && s.jobs == l.jobs && (s.terminating <==> l.state == Terminating)
      && (s.state == Active <==> l.state == Active) && (s.state == Paused <==> l.state == Paused)
      && (s.state == Draining <==> l.state == Draining || l.state == Terminating) && s.state != Terminating
      && (s.drain == NotRequested <==> l.state == Active || l.state == Paused)
      && (s.drain == TimedOut ==> l.drainTimedOut)
      && (s.drain == Completed ==> !l.drainTimedOut && l.admissions == 0 == l.jobs)
      && (s.drain == InProgress ==> !l.drainTimedOut && l.admissions + l.jobs > 0)
  {
  }

  lemma {:induction false} TimeoutRun(s: System, steps: seq<Step>, t: System)
    requires Run(s, steps, t) && forall i :: 0 <= i < |steps| ==> !steps[i].Enter?
    ensures t.life.drainTimedOut <==> s.life.drainTimedOut || Expire(true) in steps
    ensures t.life.state == s.life.state
    decreases |steps|
  {
    if steps == [] {
    } else {
      TimeoutRun(Apply(s, steps[0]), steps[1..], t);
      assert steps == [steps[0]] + steps[1..];
    }
  }

  /** Until the next transition, a drain is reported as timed out exactly from its deadline on. */
  lemma TimedOutExactly(s: System, target: DesiredState, steps: seq<Step>, t: System)
    requires Enabled(s, Enter(target)) && !(s.life.state == Terminating && target != Terminating)
    requires Run(Apply(s, Enter(target)), steps, t) && forall i :: 0 <= i < |steps| ==> !steps[i].Enter?
    ensures SnapshotOf(t.life).drain == TimedOut <==>
            (target == Draining || target == Terminating) && Expire(true) in steps
  {
    TimeoutRun(Apply(s, Enter(target)), steps, t);
  }

  // ---------------------------------------------------------------- what holds of every run

  ghost predicate Reachable(s: System)
  {
    exists steps :: Run(System(Fresh, None), steps, s)
  }

  /** `step` is the pass at which the waiting transition to `target` returns nil. */
  predicate Succeeds(s: System, step: Step, target: DesiredState)
  {
    step.Check? && s.waiting == Some(target) && TransitionComplete(s.life, target)
  }

  ghost predicate HolderMatches(s: System)
  {
    s.waiting.Some? ==> s.life.state == s.waiting.value
  }

  lemma {:induction false} RunKeepsHolder(s: System, steps: seq<Step>, t: System)
    requires HolderMatches(s) && Run(s, steps, t)
    ensures HolderMatches(t)
    decreases |steps|
  {
    if steps == [] {
    } else {
      RunKeepsHolder(Apply(s, steps[0]), steps[1..], t);
    }
  }

  ghost predicate Quiescent(l: Life) { l.state != Active && l.admissions == 0 && l.jobs == 0 }

  ghost predicate Halted(l: Life) { l.state != Active && l.admissions == 0 }

  lemma {:induction false} HaltedRun(s: System, steps: seq<Step>, t: System)
    requires Halted(s.life) && Run(s, steps, t)
    requires Enter(Active) !in steps || s.life.state == Terminating
    ensures Halted(t.life) && t.life.jobs <= s.life.jobs
    ensures s.life.state == Terminating ==> t.life.state == Terminating
    decreases |steps|
  {
    if steps == [] {
    } else {
      HaltedRun(Apply(s, steps[0]), steps[1..], t);
    }
  }

  /**
   A drain or terminate transition that returns nil leaves nothing admitted and
   nothing running, and that lasts until a later transition to active; after
   termination it lasts for ever, whatever is requested.
   */
  lemma DrainIsQuiescent(s: System, step: Step, target: DesiredState, steps: seq<Step>, t: System)
    requires Reachable(s) && Succeeds(s, step, target)
    requires target == Draining || target == Terminating
    requires Run(Apply(s, step), steps, t)
    requires Enter(Active) !in steps || target == Terminating
    ensures Quiescent(t.life)
    ensures target == Terminating ==> t.life.state == Terminating
  {
    var before :| Run(System(Fresh, None), before, s);
    RunKeepsHolder(System(Fresh, None), before, s);
    HaltedRun(Apply(s, step), steps, t);
  }

  /** After a successful pause no reservation exists and the job count can only fall. */
  lemma PauseHaltsAdmission(s: System, step: Step, steps: seq<Step>, t: System)
    requires Reachable(s) && Succeeds(s, step, Paused)
    requires Run(Apply(s, step), steps, t) && Enter(Active) !in steps
    ensures t.life.admissions == 0 && t.life.state != Active
    ensures t.life.jobs <= s.life.jobs
  {
    var before :| Run(System(Fresh, None), before, s);
    RunKeepsHolder(System(Fresh, None), before, s);
    HaltedRun(Apply(s, step), steps, t);
  }

  lemma {:induction false} TerminatingIsPermanent(s: System, steps: seq<Step>, t: System)
    requires s.life.state == Terminating && Run(s, steps, t)
    ensures t.life.state == Terminating
    ensures t.life.admissions + t.life.jobs <= s.life.admissions + s.life.jobs
    decreases |steps|
  {
    if steps == [] {
    } else {
      TerminatingIsPermanent(Apply(s, steps[0]), steps[1..], t);
    }
  }

  /**
   What the queue acts on before it shuts the worker down: a terminating
   snapshot with a completed drain means nothing is or ever will be in flight.
   */
  lemma CompletedSnapshotIsFinal(s: System, steps: seq<Step>, t: System)
    requires Run(s, steps, t)
    requires SnapshotOf(s.life).terminating && SnapshotOf(s.life).drain == Completed
    ensures Quiescent(t.life) && SnapshotOf(t.life).terminating
  {
    HaltedRun(s, steps, t);
  }
}
