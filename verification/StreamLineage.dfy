/** Dead-letter lineage along any chain of dead-lettering and re-queueing. */
module StreamLineage {
  import opened Texts
  import opened Wrappers
  import opened StreamIds
  import opened StreamServer
  import opened StreamWorld
  import opened StreamInvariants

  /** The fields that say: re-queued |chain| times, first from chain[0], last from its end. */
  function LineageOf(chain: seq<StreamId>): LineageFields
  {
    if chain == [] then NoFields
    else LineageFields(Some(Format(chain[0])), Some(Format(chain[|chain| - 1])), Some(Decimal(|chain|)))
  }

  ghost predicate Truthful(e: Entry) { |e.chain| <= MaxGeneration && e.fields == LineageOf(e.chain) }

  lemma FormatIsProper(id: StreamId)
    ensures !Blank(Format(id)) && |Format(id)| <= MaxIdentityBytes
  {
    FormatLength(id);
    DecimalValue(id.ms);
    assert Format(id)[0] == Decimal(id.ms)[0];
    assert !Space(Format(id)[0]);
  }

  /** The script extends the chain by the record it re-queues, and refuses at the largest generation. */
  lemma NextLineageExtends(rec: StreamId, chain: seq<StreamId>)
    requires |chain| <= MaxGeneration
    ensures NextLineage(rec, LineageOf(chain)) ==
            if |chain| < MaxGeneration then Some(LineageOf(chain + [rec])) else None
  {
    FormatLength(rec);
    if chain != [] {
      FormatLength(chain[0]);
      DecimalValue(|chain|);
      assert (chain + [rec])[0] == chain[0];
    }
    assert (chain + [rec])[|chain|] == rec;
  }

  function LineageRead(chain: seq<StreamId>): Lineage
  {
    if chain == [] then Lineage("", "", 0)
    else Lineage(Format(chain[0]), Format(chain[|chain| - 1]), |chain|)
  }

  /** Reading the fields back gives the chain's ends and length, and writing them again changes nothing. */
  lemma LineageRoundTrip(chain: seq<StreamId>)
    requires |chain| <= MaxGeneration
    ensures ParseLineage(LineageOf(chain)) == Some(LineageRead(chain))
    ensures WriteLineage(LineageRead(chain)) == LineageOf(chain)
  {
    if chain != [] {
      FormatIsProper(chain[0]);
      FormatIsProper(chain[|chain| - 1]);
      DecimalValue(|chain|);
    }
  }

  ghost predicate AllTruthful(entries: map<StreamId, Entry>)
  {
    forall id :: id in entries ==> Truthful(entries[id])
  }

  ghost predicate Lineages(w: World)
  {
    AllTruthful(w.hist.store) && AllTruthful(w.sv.failures.entries) && AllTruthful(w.sv.dead.entries)
  }

  lemma RecordTruthful(c: Config, w: World, i: nat)
    requires Content(w) && Lineages(w) && i < |w.slots|
    ensures Truthful(RecordOf(w.slots[i]))
  {
    var d := w.slots[i].delivery;
    assert SlotOk(w.slots[i], w.sv.source.groups, w.hist.store);
    LineageRoundTrip(w.hist.store[d.id].chain);
  }

  lemma LogsTruthful(c: Config, w: World, step: Step)
    requires Content(w) && Lineages(w) && Enabled(c, w, step)
    ensures AllTruthful(Apply(c, w, step).sv.failures.entries)
    ensures AllTruthful(Apply(c, w, step).sv.dead.entries)
  {
    FailuresChange(c, w, step);
    DeadChange(c, w, step);
    if step.RecordFailure? || step.AppendDead? { RecordTruthful(c, w, step.i); }
  }

  lemma RetryTruthful(c: Config, w: World, rec: StreamId, id: StreamId)
    requires Lineages(w) && Enabled(c, w, RetryDeadRecord(rec, id))
    ensures var x := EffectOf(c, w, RetryDeadRecord(rec, id)); x.Adds? ==> Truthful(x.e)
  {
    if rec in w.sv.dead.entries { NextLineageExtends(rec, w.sv.dead.entries[rec].chain); }
  }

  lemma ReplayedCopy(sv: Server, key: ReplayKey, policy: ReplayPolicy, max: nat, id: StreamId,
                     evicted: set<ReplayKey>)
    requires Replay(sv, key, policy, max, id, evicted).1.ReplayOk?
    requires AllTruthful(sv.dead.entries) && AllTruthful(sv.failures.entries)
    ensures var t := Replay(sv, key, policy, max, id, evicted).0.source; id in t.entries && Truthful(t.entries[id])
  {
    var log := if key.dead then sv.dead else sv.failures;
    NextLineageExtends(key.record, log.entries[key.record].chain);
  }

  lemma ReplayTruthful(c: Config, w: World, key: ReplayKey, policy: ReplayPolicy, id: StreamId, evicted: set<ReplayKey>)
    requires Lineages(w) && Enabled(c, w, ReplayRecord(key, policy, id, evicted))
    ensures var x := EffectOf(c, w, ReplayRecord(key, policy, id, evicted)); Copies(x) ==> Truthful(x.e)
  {
    if Replay(w.sv, key, policy, c.maxLength, id, evicted).1.ReplayOk? {
      ReplayedCopy(w.sv, key, policy, c.maxLength, id, evicted);
    }
  }

  /** Every copy a step adds to the source carries a truthful lineage. */
  lemma CopyTruthful(c: Config, w: World, step: Step)
    requires Lineages(w) && Enabled(c, w, step)
    ensures var x := EffectOf(c, w, step); Copies(x) ==> Truthful(x.e)
  {
    match step
    case RetryDeadRecord(rec, id) => RetryTruthful(c, w, rec, id);
    case ReplayRecord(key, policy, id, evicted) => ReplayTruthful(c, w, key, policy, id, evicted);
    case _ =>
  }

  lemma LineagesStep(c: Config, w: World, step: Step)
    requires SourceInv(c, w) && Content(w) && Lineages(w) && Enabled(c, w, step)
    ensures Lineages(Apply(c, w, step))
  {
    LogsTruthful(c, w, step);
    CopyTruthful(c, w, step);
    StepEffect(c, w, step);
    StoreTruthful(EffectOf(c, w, step), w, Apply(c, w, step));
  }

  lemma StoreTruthful(x: Effect, w: World, v: World)
    requires Describes(x, w, v) && AllTruthful(w.hist.store)
    requires Copies(x) ==> Truthful(x.e)
    ensures AllTruthful(v.hist.store)
  {
  }

  lemma {:induction false} LineagesRun(c: Config, w: World, steps: seq<Step>, v: World)
    requires SourceInv(c, w) && Content(w) && Lineages(w) && Run(c, w, steps, v)
    ensures SourceInv(c, v) && Content(v) && Lineages(v)
    decreases |steps|
  {
    if steps == [] {
    } else {
      SourceStep(c, w, steps[0]);
      ContentStep(c, w, steps[0]);
      LineagesStep(c, w, steps[0]);
      LineagesRun(c, Apply(c, w, steps[0]), steps[1..], v);
    }
  }

  lemma ReachableLineages(c: Config, w: World)
    requires ValidConfig(c) && Reachable(c, w)
    ensures SourceInv(c, w) && Content(w) && Lineages(w)
  {
    var steps :| Run(c, Initial(c), steps, w);
    assert Initial(c).sv.source.groups.Keys == c.groups;
    LineagesRun(c, Initial(c), steps, w);
  }

  /**
   An entry re-queued for the k-th time reads back generation k, the first
   dead-letter identifier as original and the last as prior; an entry never
   re-queued reads back no lineage.
   */
  lemma LineageTellsTheChain(c: Config, w: World, id: StreamId)
    requires ValidConfig(c) && Reachable(c, w) && id in w.hist.store
    ensures ParseLineage(w.hist.store[id].fields) == Some(LineageRead(w.hist.store[id].chain))
  {
    ReachableLineages(c, w);
    LineageRoundTrip(w.hist.store[id].chain);
  }

  /**
   Retrying a dead letter that was re-queued k times adds a copy re-queued k + 1
   times with this record at the end of its chain, or, at the largest 32-bit
   generation, is refused without effect.
   */
  lemma DeadRetryExtendsChain(c: Config, w: World, rec: StreamId, id: StreamId)
    requires ValidConfig(c) && Reachable(c, w) && rec in w.sv.dead.entries
    ensures RetryDead(w.sv, rec, c.maxLength, id) == RetriedDead(w.sv, rec, c.maxLength, id)
  {
    ReachableLineages(c, w);
    assert RecordOk(w.sv.dead.entries[rec], w.hist.store);
    RetryTruthfulRecord(w.sv, rec, c.maxLength, id);
  }

  function RetriedDead(sv: Server, rec: StreamId, max: nat, id: StreamId): (Server, RetryOutcome)
    requires rec in sv.dead.entries
  {
    var e := sv.dead.entries[rec];
    if |e.chain| >= MaxGeneration then (sv, Malformed)
    else if |sv.source.entries| >= max then (sv, RetryCapacity)
    else
      var copy := Entry(e.body, None, LineageOf(e.chain + [rec]), e.chain + [rec], None);
      (sv.(source := sv.source.(entries := sv.source.entries[id := copy], lastId := id),
           dead := sv.dead.(entries := sv.dead.entries - {rec})), RetryOk)
  }

  lemma RetryTruthfulRecord(sv: Server, rec: StreamId, max: nat, id: StreamId)
    requires rec in sv.dead.entries && Truthful(sv.dead.entries[rec])
    requires sv.dead.entries[rec].body.Some? && sv.dead.entries[rec].original.Some?
    ensures RetryDead(sv, rec, max, id) == RetriedDead(sv, rec, max, id)
  {
    NextLineageExtends(rec, sv.dead.entries[rec].chain);
  }
}
