/** The failure and dead-letter streams: exactly when a record leaves its stream. */
module StreamRecords {
  import opened StreamIds
  import opened StreamServer
  import opened StreamCommands
  import opened StreamWorld
  import opened StreamInvariants
  import opened StreamConservation

  // ---------------------------------------------------------------- one step

  function Logged(sv: Server, dead: bool): Log { if dead then sv.dead else sv.failures }

  predicate Appends(step: Step, dead: bool) { if dead then step.AppendDead? else step.RecordFailure? }

  ghost function NewerThan(entries: map<StreamId, Entry>, r: StreamId): set<StreamId>
  {
    set x | x in entries && Less(r, x)
  }

  /** With one more record, at least `limit` are newer than `r`. */
  ghost predicate Outdated(limit: nat, entries: map<StreamId, Entry>, r: StreamId)
  {
    limit > 0 && |NewerThan(entries, r)| + 1 >= limit
  }

  /** The step takes record `r`: its own retry that succeeds, its deletion, a purge, or retention. */
  ghost predicate Takes(c: Config, w: World, step: Step, dead: bool, r: StreamId)
  {
    || (Appends(step, dead) && Outdated(c.recordLimit, Logged(w.sv, dead).entries, r))
    || (if dead
        then step == DeleteDead(r) || step.PurgeDead? ||
             (step.RetryDeadRecord? && step.rec == r && Requeuable(w.sv, r) && |w.sv.source.entries| < c.maxLength)
        else step == DeleteFailure(r) || step.PurgeFailures? ||
             (step.RetryFailureRecord? && step.rec == r &&
              Retriable(w.sv, step.g, r) && RetryFits(w.sv, step.g, r, c.maxLength)))
  }

  lemma SubsetSize<T>(a: set<T>, b: set<T>)
    requires a <= b
    ensures |a| <= |b|
    decreases |a|
  {
    if a != {} {
      var x :| x in a;
      SubsetSize(a - {x}, b - {x});
    }
  }

  lemma NewerIsKept(entries: map<StreamId, Entry>, limit: nat, kept: set<StreamId>, r: StreamId, x: StreamId)
    requires TrimsTo(entries, limit, kept) && r in kept && x in entries && Less(r, x)
    ensures x in kept
  {
  }

  /** Exact trimming drops a record if and only if the newer ones already fill the limit. */
  lemma TrimsOutdated(entries: map<StreamId, Entry>, id: StreamId, e: Entry, limit: nat, kept: set<StreamId>,
                      r: StreamId)
    requires TrimsTo(entries[id := e], limit, kept) && r in entries && id !in entries && Less(r, id)
    ensures r !in kept <==> Outdated(limit, entries, r)
  {
    var more := entries[id := e];
    var newer := NewerThan(entries, r);
    assert NewerThan(more, r) == newer + {id};
    if r in kept {
      forall x | x in newer + {id} ensures x in kept { NewerIsKept(more, limit, kept, r, x); }
      SubsetSize(newer + {id} + {r}, kept);
      SubsetSize(kept, more.Keys);
    } else {
      forall x | x in kept ensures x in newer + {id} {
        assert Less(r, x);
      }
      SubsetSize(kept, newer + {id});
    }
  }

  lemma AppendStep(c: Config, w: World, step: Step, dead: bool, r: StreamId)
    requires Enabled(c, w, step) && Appends(step, dead) && Ordered(Logged(w.sv, dead))
    requires r in Logged(w.sv, dead).entries
    ensures var log, after := Logged(w.sv, dead), Logged(Apply(c, w, step).sv, dead);
      if Outdated(c.recordLimit, log.entries, r) then r !in after.entries else SameAt(log, after, r)
  {
    TrimsOutdated(Logged(w.sv, dead).entries, step.id, RecordOf(w.slots[step.i]), c.recordLimit, step.kept, r);
  }

  lemma CommandStep(c: Config, w: World, step: Step, dead: bool, r: StreamId)
    requires Enabled(c, w, step) && r in Logged(w.sv, dead).entries
    requires step.RetryFailureRecord? || step.RetryDeadRecord? || step.ReplayRecord?
    ensures var log, after := Logged(w.sv, dead), Logged(Apply(c, w, step).sv, dead);
      if Takes(c, w, step, dead, r) then r !in after.entries else SameAt(log, after, r)
  {
    RecordCommand(c, w, step);
    match step
    case RetryFailureRecord(g, rec, id) => RetryFailureExactly(w.sv, g, rec, c.maxLength, id);
    case RetryDeadRecord(rec, id) => RetryDeadExactly(w.sv, rec, c.maxLength, id);
    case ReplayRecord(key, policy, id, evicted) => ReplayExactly(w.sv, key, policy, c.maxLength, id, evicted);
  }

  /** A record leaves its stream with a step if and only if the step takes it, and otherwise stays as it is. */
  lemma RecordStep(c: Config, w: World, step: Step, dead: bool, r: StreamId)
    requires Enabled(c, w, step) && Ordered(Logged(w.sv, dead)) && r in Logged(w.sv, dead).entries
    ensures var log, after := Logged(w.sv, dead), Logged(Apply(c, w, step).sv, dead);
      if Takes(c, w, step, dead, r) then r !in after.entries else SameAt(log, after, r)
  {
    if Appends(step, dead) {
      AppendStep(c, w, step, dead, r);
    } else if step.RetryFailureRecord? || step.RetryDeadRecord? || step.ReplayRecord? {
      CommandStep(c, w, step, dead, r);
    } else if !Removes(step) {
      UnrelatedStep(c, w, step, dead);
    }
  }

  predicate Removes(step: Step)
  {
    step.DeleteFailure? || step.DeleteDead? || step.PurgeFailures? || step.PurgeDead?
  }

  lemma UnrelatedStep(c: Config, w: World, step: Step, dead: bool)
    requires Enabled(c, w, step) && !Appends(step, dead) && !Removes(step)
    requires !step.RetryFailureRecord? && !step.RetryDeadRecord? && !step.ReplayRecord?
    ensures Logged(Apply(c, w, step).sv, dead) == Logged(w.sv, dead)
  {
  }

  // ---------------------------------------------------------------- runs

  lemma OrderedFailures(c: Config, w: World, step: Step)
    requires Enabled(c, w, step) && Ordered(w.sv.failures)
    ensures Ordered(Apply(c, w, step).sv.failures)
  {
    FailuresChange(c, w, step);
    if step.RetryFailureRecord? || step.RetryDeadRecord? || step.ReplayRecord? {
      RecordCommand(c, w, step);
      CommandKeepsPositions(c, w, step);
    }
  }

  ghost predicate InOrder(w: World) { Ordered(w.sv.failures) && Ordered(w.sv.dead) }

  lemma InOrderStep(c: Config, w: World, step: Step)
    requires InOrder(w) && Enabled(c, w, step)
    ensures InOrder(Apply(c, w, step))
  {
    OrderedFailures(c, w, step);
    OrderedStep(c, w, step);
  }

  lemma {:induction false} InOrderRun(c: Config, w: World, steps: seq<Step>, v: World)
    requires InOrder(w) && Run(c, w, steps, v)
    ensures InOrder(v)
    decreases |steps|
  {
    if steps == [] {
    } else {
      InOrderStep(c, w, steps[0]);
      InOrderRun(c, Apply(c, w, steps[0]), steps[1..], v);
    }
  }

  /** Some step of the run takes record `r`. */
  ghost predicate TakenAlong(c: Config, w: World, steps: seq<Step>, dead: bool, r: StreamId)
    decreases |steps|
  {
    && steps != [] && Enabled(c, w, steps[0])
    && (Takes(c, w, steps[0], dead, r) || TakenAlong(c, Apply(c, w, steps[0]), steps[1..], dead, r))
  }

  lemma {:induction false} RecordRun(c: Config, w: World, steps: seq<Step>, v: World, dead: bool, r: StreamId)
    requires InOrder(w) && Run(c, w, steps, v) && r in Logged(w.sv, dead).entries
    requires !TakenAlong(c, w, steps, dead, r)
    ensures SameAt(Logged(w.sv, dead), Logged(v.sv, dead), r)
    decreases |steps|
  {
    if steps == [] {
    } else {
      RecordStep(c, w, steps[0], dead, r);
      InOrderStep(c, w, steps[0]);
      RecordRun(c, Apply(c, w, steps[0]), steps[1..], v, dead, r);
    }
  }

  lemma ReachableInOrder(c: Config, w: World)
    requires Reachable(c, w)
    ensures InOrder(w)
  {
    var steps :| Run(c, Initial(c), steps, w);
    InOrderRun(c, Initial(c), steps, w);
  }

  /**
   At any point of any run, a step removes a failure record or a dead letter if and
   only if it is the record's own retry and succeeds, its deletion, a purge of its
   stream, or an append for which the newer records fill the retention limit; any
   other step leaves the record as it is.
   */
  lemma RecordLeavesExactly(c: Config, w: World, step: Step, dead: bool, r: StreamId)
    requires Reachable(c, w) && Enabled(c, w, step) && r in Logged(w.sv, dead).entries
    ensures r !in Logged(Apply(c, w, step).sv, dead).entries <==> Takes(c, w, step, dead, r)
    ensures !Takes(c, w, step, dead, r) ==> SameAt(Logged(w.sv, dead), Logged(Apply(c, w, step).sv, dead), r)
  {
    ReachableInOrder(c, w);
    RecordStep(c, w, step, dead, r);
  }

  /** Along any continuation without such a step the record is there, unchanged. */
  lemma RecordStaysUntilTaken(c: Config, w: World, steps: seq<Step>, v: World, dead: bool, r: StreamId)
    requires Reachable(c, w) && Run(c, w, steps, v) && r in Logged(w.sv, dead).entries
    requires !TakenAlong(c, w, steps, dead, r)
    ensures r in Logged(v.sv, dead).entries && Logged(v.sv, dead).entries[r] == Logged(w.sv, dead).entries[r]
  {
    ReachableInOrder(c, w);
    RecordRun(c, w, steps, v, dead, r);
  }
}
