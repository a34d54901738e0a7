/** Runs in which nothing removes dead letters: there, nothing is lost at all. */
module StreamRetention {
  import opened StreamIds
  import opened StreamServer
  import opened StreamWorld
  import opened StreamInvariants
  import opened StreamConservation
  import opened Wrappers

  /** Nobody deletes dead letters or purges a record stream. */
  predicate Gentle(step: Step) { !step.DeleteDead? && !step.PurgeDead? && !step.PurgeFailures? }

  lemma GentleDiscardsNothing(c: Config, w: World, step: Step, g: string, k: nat)
    requires c.recordLimit == 0 && Enabled(c, w, step) && Gentle(step)
    ensures !Discards(c, w, step, g, k)
  {
  }

  // ---------------------------------------------------------------- the replay registry

  function LogOf(sv: Server, key: ReplayKey): Log { if key.dead then sv.dead else sv.failures }

  /** A registration points at a copy of the body its record holds; the record's identifier is not handed out again. */
  ghost predicate RegisteredFor(log: Log, record: StreamId, id: StreamId, store: map<StreamId, Entry>)
  {
    && id in store && !Less(log.lastId, record)
    && (record in log.entries ==> store[id].body == log.entries[record].body)
  }

  ghost predicate Registered(w: World)
  {
    && Ordered(w.sv.failures) && Ordered(w.sv.dead)
    && forall key :: key in w.sv.registry ==>
         RegisteredFor(LogOf(w.sv, key), key.record, w.sv.registry[key], w.hist.store)
  }

  /** The log gained at most one new record, on top, and lost some. */
  ghost predicate Moves(log: Log, after: Log)
  {
    && !Less(after.lastId, log.lastId)
    && forall r :: r in after.entries ==>
         (r in log.entries && after.entries[r] == log.entries[r]) || (Less(log.lastId, r) && !Less(after.lastId, r))
  }

  lemma PositionsKept(c: Config, w: World, step: Step)
    requires Enabled(c, w, step) && Gentle(step)
    ensures !step.RecordFailure? ==> Apply(c, w, step).sv.failures.lastId == w.sv.failures.lastId
    ensures !step.AppendDead? ==> Apply(c, w, step).sv.dead.lastId == w.sv.dead.lastId
  {
    if step.RetryFailureRecord? || step.RetryDeadRecord? || step.ReplayRecord? {
      RecordCommand(c, w, step);
      CommandKeepsPositions(c, w, step);
    }
  }

  lemma LogsMove(c: Config, w: World, step: Step)
    requires Enabled(c, w, step) && Gentle(step)
    ensures Moves(w.sv.failures, Apply(c, w, step).sv.failures) && Moves(w.sv.dead, Apply(c, w, step).sv.dead)
  {
    FailuresChange(c, w, step);
    DeadChange(c, w, step);
    PositionsKept(c, w, step);
  }

  lemma RegistrationMoves(log: Log, after: Log, record: StreamId, id: StreamId, w: World, v: World)
    requires Moves(log, after) && RegisteredFor(log, record, id, w.hist.store) && Grows(w, v)
    ensures RegisteredFor(after, record, id, v.hist.store)
  {
  }

  lemma OnlyReplayRegisters(c: Config, w: World, step: Step)
    requires step.RetryFailureRecord? || step.RetryDeadRecord?
    ensures Server'(c, w, step).registry == w.sv.registry
  {
  }

  lemma ReplayRegisters(sv: Server, key: ReplayKey, policy: ReplayPolicy, max: nat, id: StreamId,
                        evicted: set<ReplayKey>, k: ReplayKey)
    requires k in Replay(sv, key, policy, max, id, evicted).0.registry
    ensures var after := Replay(sv, key, policy, max, id, evicted);
      || (k in sv.registry && after.0.registry[k] == sv.registry[k])
      || (k == key && after.0.registry[k] == id && after.1.ReplayOk?)
  {
  }

  /** A registration of the new state is an old one or the one this replay made. */
  lemma RegistryChange(c: Config, w: World, step: Step, key: ReplayKey)
    requires Enabled(c, w, step) && key in Apply(c, w, step).sv.registry
    ensures var v := Apply(c, w, step);
      || (key in w.sv.registry && v.sv.registry[key] == w.sv.registry[key])
      || (step.ReplayRecord? && step.key == key && v.sv.registry[key] == step.id &&
          Replay(w.sv, key, step.policy, c.maxLength, step.id, step.evicted).1.ReplayOk?)
  {
    if step.RetryFailureRecord? || step.RetryDeadRecord? {
      RecordCommand(c, w, step);
      OnlyReplayRegisters(c, w, step);
    } else if step.ReplayRecord? {
      RecordCommand(c, w, step);
      ReplayRegisters(w.sv, step.key, step.policy, c.maxLength, step.id, step.evicted, key);
    }
  }

  lemma NewRegistration(c: Config, w: World, key: ReplayKey, policy: ReplayPolicy, id: StreamId,
                        evicted: set<ReplayKey>)
    requires Ordered(w.sv.failures) && Ordered(w.sv.dead) && Enabled(c, w, ReplayRecord(key, policy, id, evicted))
    requires Replay(w.sv, key, policy, c.maxLength, id, evicted).1.ReplayOk?
    ensures var v := Apply(c, w, ReplayRecord(key, policy, id, evicted));
      RegisteredFor(LogOf(w.sv, key), key.record, id, v.hist.store) && LogOf(v.sv, key) == LogOf(w.sv, key)
  {
    CopyKeepsBody(w.sv, key, policy, c.maxLength, id, evicted);
  }

  lemma OrderedMoves(log: Log, after: Log)
    requires Ordered(log) && Moves(log, after)
    ensures Ordered(after)
  {
  }

  lemma RegisteredStep(c: Config, w: World, step: Step)
    requires SourceInv(c, w) && Registered(w) && Enabled(c, w, step) && Gentle(step)
    ensures Registered(Apply(c, w, step))
  {
    var v := Apply(c, w, step);
    LogsMove(c, w, step);
    OrderedMoves(w.sv.failures, v.sv.failures);
    OrderedMoves(w.sv.dead, v.sv.dead);
    StepGrows(c, w, step);
    forall key | key in v.sv.registry
      ensures RegisteredFor(LogOf(v.sv, key), key.record, v.sv.registry[key], v.hist.store)
    {
      RegistryChange(c, w, step, key);
      if key in w.sv.registry && v.sv.registry[key] == w.sv.registry[key] {
        RegistrationMoves(LogOf(w.sv, key), LogOf(v.sv, key), key.record, w.sv.registry[key], w, v);
      } else {
        NewRegistration(c, w, key, step.policy, step.id, step.evicted);
      }
    }
  }

  /** A replacement then carries the body it replaces. */
  lemma NothingOverwritten(c: Config, w: World, step: Step, g: string, k: nat)
    requires SourceInv(c, w) && Registered(w) && Enabled(c, w, step)
    ensures !Overwrites(c, w, step, g, k)
  {
    if step.ReplayRecord? { ReplacementCarries(c, w, step.key, step.policy, step.id, step.evicted, k); }
  }

  lemma CopyKeepsBody(sv: Server, key: ReplayKey, policy: ReplayPolicy, max: nat, id: StreamId,
                      evicted: set<ReplayKey>)
    requires Replay(sv, key, policy, max, id, evicted).1.ReplayOk?
    ensures key.record in LogOf(sv, key).entries
    ensures var t := Replay(sv, key, policy, max, id, evicted).0.source;
      id in t.entries && t.entries[id].body == LogOf(sv, key).entries[key.record].body
  {
  }

  lemma ReplacementCarries(c: Config, w: World, key: ReplayKey, policy: ReplayPolicy, id: StreamId,
                           evicted: set<ReplayKey>, k: nat)
    requires SourceInv(c, w) && Registered(w) && Enabled(c, w, ReplayRecord(key, policy, id, evicted))
    ensures var x := EffectOf(c, w, ReplayRecord(key, policy, id, evicted));
      x.Replaces? && x.gone in w.sv.source.entries && Carries(w.sv.source.entries[x.gone], k) ==> Carries(x.e, k)
  {
    if Replay(w.sv, key, policy, c.maxLength, id, evicted).1.ReplayOk? && Replaced(w.sv, key, policy).Some? {
      CopyKeepsBody(w.sv, key, policy, c.maxLength, id, evicted);
      assert RegisteredFor(LogOf(w.sv, key), key.record, w.sv.registry[key], w.hist.store);
    }
  }

  lemma {:induction false} GentleRun(c: Config, w: World, steps: seq<Step>, v: World, g: string, k: nat)
    requires c.recordLimit == 0 && SourceInv(c, w) && Registered(w) && Run(c, w, steps, v)
    requires forall i :: 0 <= i < |steps| ==> Gentle(steps[i])
    ensures !LosesAlong(c, w, steps, g, k)
    decreases |steps|
  {
    if steps == [] {
    } else {
      SourceStep(c, w, steps[0]);
      RegisteredStep(c, w, steps[0]);
      GentleDiscardsNothing(c, w, steps[0], g, k);
      NothingOverwritten(c, w, steps[0], g, k);
      GentleRun(c, Apply(c, w, steps[0]), steps[1..], v, g, k);
    }
  }

  /**
   Without a retention limit, and with nobody deleting dead letters or purging
   record streams, nothing is lost at all, replacing replays and crashes between
   commands included: the source owes the group a copy of the body, a dead letter
   of the group holds it, or the group acknowledged it after its handler succeeded.
   */
  lemma NothingIsLostUnlimited(c: Config, steps: seq<Step>, w: World, g: string, k: nat)
    requires ValidConfig(c) && c.recordLimit == 0 && Run(c, Initial(c), steps, w)
    requires forall i :: 0 <= i < |steps| ==> Gentle(steps[i])
    requires g in c.groups && k < |w.hist.bodies|
    ensures || (exists id :: id in w.sv.source.entries && Holds(w, w.sv.source.entries[id], k) &&
                             g in w.sv.source.groups && Owes(w.sv.source.groups[g], id))
            || (exists r :: r in w.sv.dead.entries && Holds(w, w.sv.dead.entries[r], k) &&
                            w.sv.dead.entries[r].owner == Some(g))
            || ((g, k) in w.hist.acked && (g, k) in w.hist.succeeded)
  {
    assert Initial(c).sv.source.groups.Keys == c.groups;
    GentleRun(c, Initial(c), steps, w, g, k);
    NothingIsLost(c, steps, w, g, k);
    if (g, k) in w.hist.acked { AckedWasHandled(c, w, g, k); }
  }
}
