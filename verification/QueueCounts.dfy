/** The worker count: it is the one set last, and what may start is decided by it. */
module QueueCounts {
  import opened QueueModel
  import opened QueueInvariants
  import opened QueueTheorems

  predicate Updates(step: Step) { step.Call? && step.op.OpUpdate? }

  /** The worker count after `steps`, `n` before them. */
  function LastSet(n: int, steps: seq<Step>): int
    decreases |steps|
  {
    if steps == [] then n else LastSet(if Updates(steps[0]) then steps[0].op.count else n, steps[1..])
  }

  lemma CountStep(c: Config, s: State, step: Step)
    requires Enabled(c, s, step)
    ensures Apply(c, s, step).workers.limit == if Updates(step) then step.op.count else s.workers.limit
  {
  }

  lemma {:induction false} CountRun(c: Config, s: State, steps: seq<Step>, t: State)
    requires Run(c, s, steps, t)
    ensures t.workers.limit == LastSet(s.workers.limit, steps)
    decreases |steps|
  {
    if steps == [] {
    } else {
      CountStep(c, s, steps[0]);
      CountRun(c, Apply(c, s, steps[0]), steps[1..], t);
    }
  }

  lemma SchedToSpawning(c: Config, s: State, st: SchedulerStep)
    requires SchedulerEnabled(c, s, st) && !s.sched.Spawning? && AfterSched(c, s, st).sched.Spawning?
    ensures s.workers.active < s.workers.limit
  {
  }

  lemma OnlySchedSpawns(c: Config, s: State, step: Step)
    requires Enabled(c, s, step) && !s.sched.Spawning? && !step.OfSched?
    ensures !Apply(c, s, step).sched.Spawning?
  {
    match step
    case OfSchedule(st) => ScheduleSpawnsNothing(c, s, st);
    case OfStart(i) => StartSpawnsNothing(s, i);
    case _ =>
  }

  lemma ScheduleSpawnsNothing(c: Config, s: State, st: ScheduleStep)
    requires ScheduleEnabled(c, s, st) && !s.sched.Spawning?
    ensures !AfterSchedule(c, s, st).sched.Spawning?
  {
  }

  lemma StartSpawnsNothing(s: State, i: nat)
    requires StartEnabled(s, i) && !s.sched.Spawning?
    ensures !AfterStarting(s, i).sched.Spawning?
  {
  }

  /**
   In every run the worker count in force is the one UpdateWorkerCount set last,
   or the configured one; and the step at which the loop decides to ask for a task
   finds fewer workers busy than that.
   */
  lemma SpawnsBelowLastCount(c: Config, steps: seq<Step>, s: State, step: Step)
    requires Run(c, Initial(c), steps, s) && Enabled(c, s, step)
    ensures s.workers.limit == LastSet(c.workerCount, steps)
    ensures !s.sched.Spawning? && Apply(c, s, step).sched.Spawning? ==>
              s.workers.active < LastSet(c.workerCount, steps)
  {
    CountRun(c, Initial(c), steps, s);
    if !s.sched.Spawning? && Apply(c, s, step).sched.Spawning? {
      if step.OfSched? {
        SchedToSpawning(c, s, step.scheduler);
      } else {
        OnlySchedSpawns(c, s, step);
        assert false;
      }
    }
  }

  // ---------------------------------------------------------------- until the next update

  /** The loop is past its capacity check and has not counted its worker busy. */
  predicate Asking(sched: Scheduler) { sched.Spawning? || sched.Receiving? || sched.GotTask? }

  /** Busy workers, with the one the loop is about to make busy. */
  function Load(s: State): int { s.workers.active + if Asking(s.sched) then 1 else 0 }

  function Larger(a: int, b: int): int { if a < b then b else a }

  lemma LoadBySched(c: Config, s: State, st: SchedulerStep)
    requires SchedulerEnabled(c, s, st)
    ensures Load(AfterSched(c, s, st)) <= Larger(Load(s), s.workers.limit)
  {
  }

  lemma LoadBySchedule(c: Config, s: State, st: ScheduleStep)
    requires ScheduleEnabled(c, s, st)
    ensures Load(AfterSchedule(c, s, st)) <= Load(s)
  {
  }

  lemma LoadByWork(c: Config, s: State, i: nat, st: WrapperStep)
    requires WrapperEnabled(c, s, i, st)
    ensures Load(AfterWork(c, s, i, st)) <= Load(s)
  {
  }

  lemma LoadByStart(s: State, i: nat)
    requires StartEnabled(s, i)
    ensures Load(AfterStarting(s, i)) <= Load(s)
  {
  }

  lemma LoadStep(c: Config, s: State, step: Step)
    requires Enabled(c, s, step)
    ensures Load(Apply(c, s, step)) <= Larger(Load(s), s.workers.limit)
  {
    match step
    case OfSched(st) => LoadBySched(c, s, st);
    case OfSchedule(st) => LoadBySchedule(c, s, st);
    case OfWork(i, st) => LoadByWork(c, s, i, st);
    case OfStart(i) => LoadByStart(s, i);
    case _ =>
  }

  lemma {:induction false} LoadRun(c: Config, s: State, steps: seq<Step>, t: State)
    requires Run(c, s, steps, t) && forall i :: 0 <= i < |steps| ==> !Updates(steps[i])
    ensures Load(t) <= Larger(Load(s), s.workers.limit)
    decreases |steps|
  {
    if steps == [] {
    } else {
      CountStep(c, s, steps[0]);
      LoadStep(c, s, steps[0]);
      LoadRun(c, Apply(c, s, steps[0]), steps[1..], t);
    }
  }

  /**
   From any point of any run until the next update: at most as many workers are
   busy as the count allows, or as were busy or being started then if those are
   more. Lowering the count stops nobody and starts nobody.
   */
  lemma BusyWithinCount(c: Config, before: seq<Step>, s: State, steps: seq<Step>, t: State)
    requires ValidConfig(c) && Run(c, Initial(c), before, s) && Run(c, s, steps, t)
    requires forall i :: 0 <= i < |steps| ==> !Updates(steps[i])
    ensures Count(t.wrappers, Busy) <= t.workers.active <= Larger(Load(s), LastSet(c.workerCount, before))
  {
    CountRun(c, Initial(c), before, s);
    LoadRun(c, s, steps, t);
    ReachableInv(c, s);
    RunKeeps(c, s, steps, t);
    BusyAreActive(c, t);
  }

  lemma BusyAreActive(c: Config, s: State)
    requires Inv(c, s)
    ensures Count(s.wrappers, Busy) <= s.workers.active
  {
  }

  // ---------------------------------------------------------------- zero and negative counts

  lemma IdleLoop(c: Config, s: State)
    requires Inv(c, s) && Load(s) <= 0
    ensures !s.sched.Spawning? && !s.sched.Launching? && s.req.Idle?
  {
  }

  lemma IdleBySched(c: Config, s: State, st: SchedulerStep)
    requires SchedulerEnabled(c, s, st) && !s.sched.Spawning? && !s.sched.Launching?
    ensures |AfterSched(c, s, st).wrappers| == |s.wrappers|
    ensures AfterSched(c, s, st).hist.requestCalls == s.hist.requestCalls
  {
  }

  lemma IdleByRequest(c: Config, s: State, st: RequestStep)
    requires RequestEnabled(c, s, st) && s.req.Idle?
    ensures AfterRequest(c, s, st).hist.requestCalls == s.hist.requestCalls
  {
  }

  lemma IdleBySchedule(c: Config, s: State, st: ScheduleStep)
    requires ScheduleEnabled(c, s, st)
    ensures |AfterSchedule(c, s, st).wrappers| == |s.wrappers| && AfterSchedule(c, s, st).hist == s.hist
  {
  }

  lemma IdleStep(c: Config, s: State, step: Step)
    requires Inv(c, s) && Enabled(c, s, step) && Load(s) <= 0
    ensures |Apply(c, s, step).wrappers| == |s.wrappers| && Apply(c, s, step).hist.requestCalls == s.hist.requestCalls
  {
    IdleLoop(c, s);
    match step
    case OfSched(st) => IdleBySched(c, s, st);
    case OfRequest(st) => IdleByRequest(c, s, st);
    case OfSchedule(st) => IdleBySchedule(c, s, st);
    case _ =>
  }

  lemma {:induction false} IdleRun(c: Config, s: State, steps: seq<Step>, t: State)
    requires Inv(c, s) && Run(c, s, steps, t) && Load(s) <= 0 && s.workers.limit <= 0
    requires forall i :: 0 <= i < |steps| ==> !Updates(steps[i])
    ensures |t.wrappers| == |s.wrappers| && t.hist.requestCalls == s.hist.requestCalls
    decreases |steps|
  {
    if steps == [] {
    } else {
      CountStep(c, s, steps[0]);
      LoadStep(c, s, steps[0]);
      IdleStep(c, s, steps[0]);
      StepKeeps(c, s, steps[0]);
      IdleRun(c, Apply(c, s, steps[0]), steps[1..], t);
    }
  }

  /** With a count of zero or less and nothing busy or being started, no task is asked for and no wrapper starts. */
  lemma NoWorkWithoutCount(c: Config, s: State, steps: seq<Step>, t: State)
    requires ValidConfig(c) && Reachable(c, s) && Run(c, s, steps, t)
    requires Load(s) == 0 && s.workers.limit <= 0 && forall i :: 0 <= i < |steps| ==> !Updates(steps[i])
    ensures |t.wrappers| == |s.wrappers| && t.hist.requestCalls == s.hist.requestCalls
  {
    ReachableInv(c, s);
    IdleRun(c, s, steps, t);
  }
}
