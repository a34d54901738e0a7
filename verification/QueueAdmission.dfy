/** Which enqueues are refused: those made after CloseAdmission or Shutdown took effect, and no others. */
module QueueAdmission {
  import opened QueueModel

  predicate Closed(s: State) { s.stopFlag || s.drainFlag }

  /** The stop body is past its first section. */
  predicate Stopped(o: Once<ShutPc>) { o.Completed? || (o.Running? && !o.at.StopSection?) }

  /** The drain body is past its first section. */
  predicate Draining(o: Once<ClosePc>) { o.Completed? || (o.Running? && !o.at.FlagSection?) }

  ghost predicate FlagsOf(s: State)
  {
    && (s.stopFlag <==> Stopped(s.once.stop))
    && (s.drainFlag <==> Draining(s.once.drain))
  }

  ghost predicate RefusedOf(producers: seq<Producer>, closed: bool)
  {
    forall k :: 0 <= k < |producers| && producers[k] == Done(false) ==> closed
  }

  lemma FlagsByClose(c: Config, s: State, i: nat)
    requires FlagsOf(s) && CloseEnabled(s, i)
    ensures FlagsOf(AfterClosing(c, s, i)) && (s.drainFlag ==> AfterClosing(c, s, i).drainFlag)
  {
  }

  lemma FlagsByShut(c: Config, s: State, i: nat, failed: bool)
    requires FlagsOf(s) && ShutEnabled(s, i)
    ensures FlagsOf(AfterShutting(c, s, i, failed)) && (s.stopFlag ==> AfterShutting(c, s, i, failed).stopFlag)
  {
  }

  lemma FlagsStep(c: Config, s: State, step: Step)
    requires FlagsOf(s) && Enabled(c, s, step)
    ensures FlagsOf(Apply(c, s, step)) && (Closed(s) ==> Closed(Apply(c, s, step)))
  {
    match step
    case OfClose(i) => FlagsByClose(c, s, i);
    case OfShut(i, failed) => FlagsByShut(c, s, i, failed);
    case _ =>
  }

  lemma RefusedByProducer(c: Config, s: State, i: nat, st: ProducerStep)
    requires ProducerEnabled(c, s, i, st)
    ensures var ps := AfterProducer(c, s, i, st).producers;
      |ps| == |s.producers| && forall k :: 0 <= k < |ps| ==> (ps[k] == Done(false) <==> s.producers[k] == Done(false))
  {
  }

  /** Producers only come, and who was refused stays refused. */
  lemma ProducersStep(c: Config, s: State, step: Step)
    requires Enabled(c, s, step)
    ensures var ps := Apply(c, s, step).producers;
      && |s.producers| <= |ps| <= |s.producers| + (if step.Submit? then 1 else 0)
      && (forall k :: 0 <= k < |s.producers| ==> (ps[k] == Done(false) <==> s.producers[k] == Done(false)))
      && (|s.producers| < |ps| ==> (ps[|s.producers|] == Done(false) <==> Closed(s)))
  {
    match step
    case OfProducer(i, st) => RefusedByProducer(c, s, i, st);
    case _ =>
  }

  lemma {:induction false} FlagsRun(c: Config, s: State, steps: seq<Step>, t: State)
    requires FlagsOf(s) && RefusedOf(s.producers, Closed(s)) && Run(c, s, steps, t)
    ensures FlagsOf(t) && RefusedOf(t.producers, Closed(t)) && (Closed(s) ==> Closed(t))
    decreases |steps|
  {
    if steps == [] {
    } else {
      FlagsStep(c, s, steps[0]);
      ProducersStep(c, s, steps[0]);
      FlagsRun(c, Apply(c, s, steps[0]), steps[1..], t);
    }
  }

  lemma {:induction false} ClosedRun(c: Config, s: State, steps: seq<Step>, t: State)
    requires FlagsOf(s) && Closed(s) && Run(c, s, steps, t)
    ensures |s.producers| <= |t.producers|
    ensures forall k :: 0 <= k < |s.producers| ==> (t.producers[k] == Done(false) <==> s.producers[k] == Done(false))
    ensures forall k :: |s.producers| <= k < |t.producers| ==> t.producers[k] == Done(false)
    decreases |steps|
  {
    if steps == [] {
    } else {
      FlagsStep(c, s, steps[0]);
      ProducersStep(c, s, steps[0]);
      ClosedRun(c, Apply(c, s, steps[0]), steps[1..], t);
    }
  }

  /**
   In every run an enqueue is refused at admission only once the first section of
   CloseAdmission or of Shutdown has run; and from then on every one is.
   */
  lemma RefusedExactlyWhenClosed(c: Config, s: State, steps: seq<Step>, t: State)
    requires Reachable(c, s) && Run(c, s, steps, t)
    ensures (exists k :: 0 <= k < |s.producers| && s.producers[k] == Done(false)) ==>
              Draining(s.once.drain) || Stopped(s.once.stop)
    ensures Draining(s.once.drain) || Stopped(s.once.stop) ==>
              |s.producers| <= |t.producers| &&
              forall k :: |s.producers| <= k < |t.producers| ==> t.producers[k] == Done(false)
  {
    var before :| Run(c, Initial(c), before, s);
    FlagsRun(c, Initial(c), before, s);
    if Closed(s) { ClosedRun(c, s, steps, t); }
  }
}
