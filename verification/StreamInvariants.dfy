/** What every command of a run keeps: the source stream, the deliveries in hand and the records. */
module StreamInvariants {
  import opened Wrappers
  import opened StreamIds
  import opened StreamServer
  import opened StreamSource
  import opened StreamWorld

  ghost predicate SourceInv(c: Config, w: World)
  {
    SourceOk(c.groups, c.maxLength, w.sv.source, w.hist.store, w.hist.replaced)
  }

  // ---------------------------------------------------------------- what a step does to the source

  /**
   `Settles`: an entry leaves a group's pending set. `Resubmits`: and a copy of it
   is added. `Replaces`: an entry is deleted and a copy is added.
   */
  datatype Effect =
    | Quiet
    | Adds(id: StreamId, e: Entry)
    | Reads(g: string, upto: StreamId)
    | Settles(g: string, gone: StreamId, how: How)
    | Resubmits(g: string, gone: StreamId, id: StreamId, e: Entry)
    | Replaces(gone: StreamId, id: StreamId, e: Entry)

  predicate Copies(x: Effect) { x.Adds? || x.Resubmits? || x.Replaces? }

  ghost function EffectOf(c: Config, w: World, step: Step): Effect
    requires Enabled(c, w, step)
  {
    match step
    case Submit(bytes, id) =>
      if |bytes| > MaxMessageBytes || |w.sv.source.entries| >= c.maxLength then Quiet
      else Adds(id, Bare(Some(Body(bytes, |w.hist.bodies|))))
    case DoRead(g, upto) => Reads(g, upto)
    case DoClaim(g, id) =>
      if id in w.sv.source.groups[g].pending && id in w.hist.replaced then Settles(g, id, ReclaimDrop) else Quiet
    case Ack(i) => AckEffect(w.sv.source, w.slots[i])
    case RetryFailureRecord(g, rec, id) =>
      if !RetryFailure(w.sv, g, rec, c.maxLength, id).1.RetryOk? then Quiet
      else Resubmits(g, w.sv.failures.entries[rec].original.value, id, Bare(w.sv.failures.entries[rec].body))
    case RetryDeadRecord(rec, id) =>
      var (sv, out) := RetryDead(w.sv, rec, c.maxLength, id);
      if out.RetryOk? then Adds(id, sv.source.entries[id]) else Quiet
    case ReplayRecord(key, policy, id, evicted) => ReplayEffect(c, w, key, policy, id, evicted)
    case _ => Quiet
  }

  ghost function AckEffect(src: Source, s: Slot): Effect
  {
    if Acknowledge(src, s.group, s.delivery.id).1.LeaseLost? then Quiet
    else Settles(s.group, s.delivery.id, if s.phase.Succeeded? then HandlerAck else DeadLetterAck)
  }

  ghost function ReplayEffect(c: Config, w: World, key: ReplayKey, policy: ReplayPolicy, id: StreamId,
                              evicted: set<ReplayKey>): Effect
  {
    var (sv, out) := Replay(w.sv, key, policy, c.maxLength, id, evicted);
    var gone := Replaced(w.sv, key, policy);
    if !out.ReplayOk? then Quiet
    else if gone.Some? then Replaces(gone.value, id, sv.source.entries[id]) else Adds(id, sv.source.entries[id])
  }

  /** The history changes in these four fields only as given. */
  ghost predicate Notes(h: History, k: History, store: map<StreamId, Entry>, departures: seq<Departure>,
                        delivered: set<(string, StreamId)>, replaced: set<StreamId>)
  {
    k.store == store && k.departures == departures && k.delivered == delivered && k.replaced == replaced
  }

  ghost predicate Describes(x: Effect, w: World, v: World)
  {
    var s, t := w.sv.source, v.sv.source;
    var h, k := w.hist, v.hist;
    match x
    case Quiet => t == s && Notes(h, k, h.store, h.departures, h.delivered, h.replaced)
    case Adds(id, e) =>
      && Less(s.lastId, id) && t == Add(s, id, e)
      && Notes(h, k, h.store[id := e], h.departures, h.delivered, h.replaced)
    case Reads(g, upto) =>
      && g in s.groups && upto in s.entries && Less(s.groups[g].last, upto) && t == Read(s, g, upto)
      && Notes(h, k, h.store, h.departures, Delivered(h, g, News(s, g, upto)).delivered, h.replaced)
    case Settles(g, gone, how) =>
      && g in s.groups && gone in s.groups[g].pending && t == Settled(s, g, gone)
      && (how.ReclaimDrop? ==> gone in h.replaced)
      && Notes(h, k, h.store, h.departures + [Departure(g, gone, how)], h.delivered, h.replaced)
    case Resubmits(g, gone, id, e) =>
      && g in s.groups && gone in s.groups[g].pending && Less(s.lastId, id) && t == Add(Settled(s, g, gone), id, e)
      && Notes(h, k, h.store[id := e], h.departures + [Departure(g, gone, RecordRetry)], h.delivered, h.replaced)
    case Replaces(gone, id, e) =>
      && gone in s.entries && Less(s.lastId, id) && t == Add(Without(s, gone), id, e)
      && Notes(h, k, h.store[id := e], h.departures, h.delivered, h.replaced + {gone})
  }

  lemma EffectOfAck(c: Config, w: World, i: nat)
    requires Enabled(c, w, Ack(i))
    ensures Describes(EffectOf(c, w, Ack(i)), w, Apply(c, w, Ack(i)))
  {
  }

  lemma EffectOfClaim(c: Config, w: World, g: string, id: StreamId)
    requires SourceInv(c, w) && Enabled(c, w, DoClaim(g, id))
    ensures Describes(EffectOf(c, w, DoClaim(g, id)), w, Apply(c, w, DoClaim(g, id)))
  {
    ClaimDropsReplaced(c.groups, c.maxLength, w.sv.source, w.hist.store, w.hist.replaced, g, id);
    if id in w.sv.source.groups[g].pending && id in w.hist.replaced {
      assert id !in Settled(w.sv.source, g, id).groups[g].pending;
    }
  }

  lemma EffectOfRetry(c: Config, w: World, g: string, rec: StreamId, id: StreamId)
    requires SourceInv(c, w) && Less(w.sv.source.lastId, id)
    ensures var step := RetryFailureRecord(g, rec, id); Describes(EffectOf(c, w, step), w, Apply(c, w, step))
  {
    if RetryFailure(w.sv, g, rec, c.maxLength, id).1.RetryOk? {
      RetryIsAdmitted(w.sv, g, rec, c.maxLength, id);
      assert GroupOk(w.sv.source.groups[g], w.sv.source, w.hist.store);
      RetryIsSettleThenAdd(w.sv, g, rec, c.maxLength, id);
    }
  }

  lemma EffectOfDeadRetry(c: Config, w: World, rec: StreamId, id: StreamId)
    requires Less(w.sv.source.lastId, id)
    ensures var step := RetryDeadRecord(rec, id); Describes(EffectOf(c, w, step), w, Apply(c, w, step))
  {
  }

  lemma EffectOfReplay(c: Config, w: World, key: ReplayKey, policy: ReplayPolicy, id: StreamId,
                       evicted: set<ReplayKey>)
    requires Enabled(c, w, ReplayRecord(key, policy, id, evicted))
    ensures var step := ReplayRecord(key, policy, id, evicted); Describes(EffectOf(c, w, step), w, Apply(c, w, step))
  {
    if Replay(w.sv, key, policy, c.maxLength, id, evicted).1.ReplayOk? {
      ReplayIsDropThenAdd(w.sv, key, policy, c.maxLength, id, evicted);
    }
  }

  /** Every command does one of these six things. */
  lemma StepEffect(c: Config, w: World, step: Step)
    requires SourceInv(c, w) && Enabled(c, w, step)
    ensures Describes(EffectOf(c, w, step), w, Apply(c, w, step))
  {
    match step
    case Ack(i) => EffectOfAck(c, w, i);
    case DoClaim(g, id) => EffectOfClaim(c, w, g, id);
    case RetryFailureRecord(g, rec, id) => EffectOfRetry(c, w, g, rec, id);
    case RetryDeadRecord(rec, id) => EffectOfDeadRetry(c, w, rec, id);
    case ReplayRecord(key, policy, id, evicted) => EffectOfReplay(c, w, key, policy, id, evicted);
    case _ =>
  }

  // ---------------------------------------------------------------- the source stream

  lemma CopyFits(c: Config, w: World, step: Step)
    requires SourceInv(c, w) && Enabled(c, w, step) && EffectOf(c, w, step).Adds?
    ensures |w.sv.source.entries| < c.maxLength
  {
    match step
    case ReplayRecord(key, policy, id, evicted) =>
      ReplayIsDropThenAdd(w.sv, key, policy, c.maxLength, id, evicted);
    case _ =>
  }

  lemma ResubmitKeeps(c: Config, w: World, step: Step)
    requires SourceInv(c, w) && Enabled(c, w, step) && EffectOf(c, w, step).Resubmits?
    ensures SourceInv(c, Apply(c, w, step))
  {
    match step
    case RetryFailureRecord(g, rec, id) =>
      RetryFailureKeeps(c.groups, c.maxLength, w.sv, w.hist.store, w.hist.replaced, g, rec, id);
      EffectOfRetry(c, w, g, rec, id);
  }

  lemma ReplaceKeeps(c: Config, w: World, step: Step)
    requires SourceInv(c, w) && Enabled(c, w, step) && EffectOf(c, w, step).Replaces?
    ensures SourceInv(c, Apply(c, w, step))
  {
    match step
    case ReplayRecord(key, policy, id, evicted) =>
      ReplayKeeps(c.groups, c.maxLength, w.sv, w.hist.store, w.hist.replaced, key, policy, id, evicted);
  }

  lemma SourceStep(c: Config, w: World, step: Step)
    requires SourceInv(c, w) && Enabled(c, w, step)
    ensures SourceInv(c, Apply(c, w, step))
  {
    StepEffect(c, w, step);
    var src, store, replaced := w.sv.source, w.hist.store, w.hist.replaced;
    match EffectOf(c, w, step)
    case Quiet =>
    case Adds(id, e) =>
      CopyFits(c, w, step);
      AddKeeps(c.groups, c.maxLength, src, store, replaced, id, e);
    case Reads(g, upto) => ReadKeeps(c.groups, c.maxLength, src, store, replaced, g, upto);
    case Settles(g, gone, _) => SettleKeeps(c.groups, c.maxLength, src, store, replaced, g, gone);
    case Resubmits(_, _, _, _) => ResubmitKeeps(c, w, step);
    case Replaces(_, _, _) => ReplaceKeeps(c, w, step);
  }

  lemma {:induction false} SourceRun(c: Config, w: World, steps: seq<Step>, v: World)
    requires SourceInv(c, w) && Run(c, w, steps, v)
    ensures SourceInv(c, v)
    decreases |steps|
  {
    if steps == [] {
    } else {
      SourceStep(c, w, steps[0]);
      SourceRun(c, Apply(c, w, steps[0]), steps[1..], v);
    }
  }

  lemma ReachableSource(c: Config, w: World)
    requires ValidConfig(c) && Reachable(c, w)
    ensures SourceInv(c, w)
  {
    var steps :| Run(c, Initial(c), steps, w);
    assert Initial(c).sv.source.groups.Keys == c.groups;
    SourceRun(c, Initial(c), steps, w);
  }

  /**
   At every point of every run, an entry that was ever added is in the source
   stream exactly when some group has it pending or has not been delivered past
   it, and no replacing replay deleted it.
   */
  lemma PresentExactlyWhileOwed(c: Config, w: World, id: StreamId)
    requires ValidConfig(c) && Reachable(c, w) && id in w.hist.store
    ensures id in w.sv.source.entries <==>
            && id !in w.hist.replaced
            && exists g :: g in w.sv.source.groups &&
                           (id in w.sv.source.groups[g].pending || Less(w.sv.source.groups[g].last, id))
  {
    ReachableSource(c, w);
    var gs := w.sv.source.groups;
    if id in w.sv.source.entries {
      var g :| g in gs && Owes(gs[g], id);
      assert id in gs[g].pending || Less(gs[g].last, id);
    }
    if g :| g in gs && (id in gs[g].pending || Less(gs[g].last, id)) {
      assert Owes(gs[g], id);
    }
  }

  /** The source stream stays within its capacity until a replay replaced an entry, and within one more afterwards. */
  lemma WithinCapacity(c: Config, w: World)
    requires ValidConfig(c) && Reachable(c, w)
    ensures |w.sv.source.entries| <= c.maxLength + if w.hist.replaced == {} then 0 else 1
  {
    ReachableSource(c, w);
  }

  // ---------------------------------------------------------------- nothing known is forgotten

  ghost predicate Grows(w: World, v: World)
  {
    && (forall id :: id in w.hist.store ==> id in v.hist.store && v.hist.store[id] == w.hist.store[id])
    && (forall g :: g in w.sv.source.groups ==>
          g in v.sv.source.groups && !Less(v.sv.source.groups[g].last, w.sv.source.groups[g].last))
  }

  lemma NewId(c: Config, w: World, id: StreamId)
    requires SourceInv(c, w) && Less(w.sv.source.lastId, id)
    ensures id !in w.hist.store && id !in w.sv.source.entries
  {
  }

  lemma StoreGrows(c: Config, x: Effect, w: World, v: World)
    requires SourceInv(c, w) && Describes(x, w, v)
    ensures forall id :: id in w.hist.store ==> id in v.hist.store && v.hist.store[id] == w.hist.store[id]
  {
    if Copies(x) { NewId(c, w, x.id); }
  }

  lemma PositionsGrow(x: Effect, w: World, v: World)
    requires Describes(x, w, v)
    ensures forall g :: g in w.sv.source.groups ==>
              g in v.sv.source.groups && !Less(v.sv.source.groups[g].last, w.sv.source.groups[g].last)
  {
  }

  lemma EffectGrows(c: Config, x: Effect, w: World, v: World)
    requires SourceInv(c, w) && Describes(x, w, v)
    ensures Grows(w, v)
  {
    StoreGrows(c, x, w, v);
    PositionsGrow(x, w, v);
  }

  lemma StepGrows(c: Config, w: World, step: Step)
    requires SourceInv(c, w) && Enabled(c, w, step)
    ensures Grows(w, Apply(c, w, step))
  {
    StepEffect(c, w, step);
    EffectGrows(c, EffectOf(c, w, step), w, Apply(c, w, step));
  }

  // ---------------------------------------------------------------- deliveries and records

  /** A delivery in hand has the content its entry was added with. */
  ghost predicate SlotOk(s: Slot, groups: map<string, Group>, store: map<StreamId, Entry>)
  {
    var d := s.delivery;
    && s.group in groups && d.id in store
    && store[d.id].body == Some(d.body) && store[d.id].chain == d.chain
    && ParseLineage(store[d.id].fields) == Some(d.lineage)
  }

  /** A record names a source entry and carries its body. */
  ghost predicate RecordOk(e: Entry, store: map<StreamId, Entry>)
  {
    && e.body.Some? && e.owner.Some?
    && e.original.Some? && e.original.value in store && store[e.original.value].body == e.body
  }

  /** The bytes are those admitted under the token, and within the limit. */
  predicate Genuine(b: Body, bodies: seq<string>)
  {
    b.token < |bodies| && b.bytes == bodies[b.token] && |b.bytes| <= MaxMessageBytes
  }

  ghost predicate StoreOk(store: map<StreamId, Entry>, bodies: seq<string>)
  {
    forall id :: id in store ==> store[id].body.Some? && Genuine(store[id].body.value, bodies)
  }

  ghost predicate SlotsOk(w: World)
  {
    forall i :: 0 <= i < |w.slots| ==> SlotOk(w.slots[i], w.sv.source.groups, w.hist.store)
  }

  ghost predicate LogOk(log: Log, store: map<StreamId, Entry>)
  {
    forall r :: r in log.entries ==> RecordOk(log.entries[r], store)
  }

  ghost predicate Content(w: World)
  {
    && StoreOk(w.hist.store, w.hist.bodies)
    && SlotsOk(w)
    && LogOk(w.sv.failures, w.hist.store) && LogOk(w.sv.dead, w.hist.store)
  }

  lemma SlotGrows(s: Slot, w: World, v: World)
    requires SlotOk(s, w.sv.source.groups, w.hist.store) && Grows(w, v)
    ensures SlotOk(s, v.sv.source.groups, v.hist.store)
  {
  }

  lemma LogGrows(log: Log, w: World, v: World)
    requires LogOk(log, w.hist.store) && Grows(w, v)
    ensures LogOk(log, v.hist.store)
  {
  }

  lemma SlotsStep(c: Config, w: World, step: Step)
    requires SourceInv(c, w) && SlotsOk(w) && Enabled(c, w, step)
    ensures SlotsOk(Apply(c, w, step))
  {
    var v := Apply(c, w, step);
    StepGrows(c, w, step);
    forall i | 0 <= i < |v.slots| ensures SlotOk(v.slots[i], v.sv.source.groups, v.hist.store) {
      if i < |w.slots| {
        SlotGrows(w.slots[i], w, v);
        SameDelivery(c, w, step, i);
      } else {
        assert step.Deliver?;
      }
    }
  }

  lemma SameDelivery(c: Config, w: World, step: Step, i: nat)
    requires Enabled(c, w, step) && i < |w.slots|
    ensures |w.slots| <= |Apply(c, w, step).slots|
    ensures Apply(c, w, step).slots[i].group == w.slots[i].group
    ensures Apply(c, w, step).slots[i].delivery == w.slots[i].delivery
  {
  }

  lemma AppendOk(log: Log, id: StreamId, e: Entry, kept: set<StreamId>, store: map<StreamId, Entry>)
    requires LogOk(log, store) && RecordOk(e, store)
    ensures LogOk(Append(log, id, e, kept), store)
  {
  }

  /** A log either gains one record, possibly losing old ones to trimming, or only loses some. */
  ghost predicate Thinned(before: map<StreamId, Entry>, after: map<StreamId, Entry>)
  {
    forall r :: r in after ==> r in before && after[r] == before[r]
  }

  /** The server after a record command; the other commands do not touch the records and the source together. */
  ghost function Server'(c: Config, w: World, step: Step): Server
    requires step.RetryFailureRecord? || step.RetryDeadRecord? || step.ReplayRecord?
  {
    match step
    case RetryFailureRecord(g, rec, id) => RetryFailure(w.sv, g, rec, c.maxLength, id).0
    case RetryDeadRecord(rec, id) => RetryDead(w.sv, rec, c.maxLength, id).0
    case ReplayRecord(key, policy, id, evicted) => Replay(w.sv, key, policy, c.maxLength, id, evicted).0
  }

  lemma RecordCommand(c: Config, w: World, step: Step)
    requires Enabled(c, w, step)
    requires step.RetryFailureRecord? || step.RetryDeadRecord? || step.ReplayRecord?
    ensures Apply(c, w, step).sv == Server'(c, w, step)
  {
    match step
    case ReplayRecord(key, policy, id, evicted) =>
      if Replay(w.sv, key, policy, c.maxLength, id, evicted).1.ReplayOk? {
        ReplayIsDropThenAdd(w.sv, key, policy, c.maxLength, id, evicted);
      }
    case _ =>
  }

  lemma RecordCommandThins(c: Config, w: World, step: Step)
    requires step.RetryFailureRecord? || step.RetryDeadRecord? || step.ReplayRecord?
    ensures Thinned(w.sv.failures.entries, Server'(c, w, step).failures.entries)
    ensures Thinned(w.sv.dead.entries, Server'(c, w, step).dead.entries)
  {
  }

  lemma CommandKeepsPositions(c: Config, w: World, step: Step)
    requires step.RetryFailureRecord? || step.RetryDeadRecord? || step.ReplayRecord?
    ensures Server'(c, w, step).failures.lastId == w.sv.failures.lastId
    ensures Server'(c, w, step).dead.lastId == w.sv.dead.lastId
  {
  }

  lemma FailuresChange(c: Config, w: World, step: Step)
    requires Enabled(c, w, step)
    ensures var log := Apply(c, w, step).sv.failures;
      if step.RecordFailure?
      then log == Append(w.sv.failures, step.id, RecordOf(w.slots[step.i]), step.kept)
      else Thinned(w.sv.failures.entries, log.entries)
  {
    if step.RetryFailureRecord? || step.RetryDeadRecord? || step.ReplayRecord? {
      RecordCommand(c, w, step);
      RecordCommandThins(c, w, step);
    }
  }

  lemma DeadChange(c: Config, w: World, step: Step)
    requires Enabled(c, w, step)
    ensures var log := Apply(c, w, step).sv.dead;
      if step.AppendDead?
      then log == Append(w.sv.dead, step.id, RecordOf(w.slots[step.i]), step.kept)
      else Thinned(w.sv.dead.entries, log.entries)
  {
    if step.RetryFailureRecord? || step.RetryDeadRecord? || step.ReplayRecord? {
      RecordCommand(c, w, step);
      RecordCommandThins(c, w, step);
    }
  }

  /** Decoding's limit is admission's, so a record carries the body of its delivery. */
  lemma RecordCarriesBody(w: World, i: nat)
    requires Content(w) && i < |w.slots|
    ensures RecordOf(w.slots[i]).body == Some(w.slots[i].delivery.body)
    ensures RecordOk(RecordOf(w.slots[i]), w.hist.store)
  {
    assert SlotOk(w.slots[i], w.sv.source.groups, w.hist.store);
  }

  lemma LogsStep(c: Config, w: World, step: Step)
    requires Content(w) && Enabled(c, w, step)
    ensures LogOk(Apply(c, w, step).sv.failures, w.hist.store)
    ensures LogOk(Apply(c, w, step).sv.dead, w.hist.store)
  {
    FailuresChange(c, w, step);
    DeadChange(c, w, step);
    if step.RecordFailure? {
      RecordCarriesBody(w, step.i);
      AppendOk(w.sv.failures, step.id, RecordOf(w.slots[step.i]), step.kept, w.hist.store);
    }
    if step.AppendDead? {
      RecordCarriesBody(w, step.i);
      AppendOk(w.sv.dead, step.id, RecordOf(w.slots[step.i]), step.kept, w.hist.store);
    }
  }

  /** A re-queued copy carries the body of the record it comes from. */
  lemma CopyOfRecord(c: Config, w: World, step: Step)
    requires Content(w) && Enabled(c, w, step)
    requires step.RetryFailureRecord? || step.RetryDeadRecord? || step.ReplayRecord?
    ensures var x := EffectOf(c, w, step); Copies(x) ==> exists e :: Recorded(w.sv, e) && e.body == x.e.body
  {
    match step
    case RetryFailureRecord(g, rec, id) =>
      if rec in w.sv.failures.entries { assert Recorded(w.sv, w.sv.failures.entries[rec]); }
    case RetryDeadRecord(rec, id) =>
      if rec in w.sv.dead.entries { assert Recorded(w.sv, w.sv.dead.entries[rec]); }
    case ReplayRecord(key, policy, id, evicted) =>
      var log := if key.dead then w.sv.dead else w.sv.failures;
      if key.record in log.entries { assert Recorded(w.sv, log.entries[key.record]); }
  }

  ghost predicate Recorded(sv: Server, e: Entry) { e in sv.failures.entries.Values || e in sv.dead.entries.Values }

  lemma CopyIsGenuine(c: Config, w: World, step: Step)
    requires Content(w) && Enabled(c, w, step) && !step.Submit?
    ensures var x := EffectOf(c, w, step);
      Copies(x) ==> x.e.body.Some? && Genuine(x.e.body.value, w.hist.bodies)
  {
    if step.RetryFailureRecord? || step.RetryDeadRecord? || step.ReplayRecord? { CopyOfRecord(c, w, step); }
  }

  lemma OnlySubmitAdmits(c: Config, w: World, step: Step)
    requires Enabled(c, w, step)
    ensures Apply(c, w, step).hist.bodies == w.hist.bodies ||
            (step.Submit? && |step.bytes| <= MaxMessageBytes && EffectOf(c, w, step).Adds? &&
             Apply(c, w, step).hist.bodies == w.hist.bodies + [step.bytes])
  {
  }

  lemma BodiesStep(c: Config, w: World, step: Step)
    requires Content(w) && Enabled(c, w, step)
    ensures w.hist.bodies <= Apply(c, w, step).hist.bodies
    ensures var x := EffectOf(c, w, step);
      Copies(x) ==> x.e.body.Some? && Genuine(x.e.body.value, Apply(c, w, step).hist.bodies)
  {
    OnlySubmitAdmits(c, w, step);
    if !step.Submit? { CopyIsGenuine(c, w, step); }
  }

  lemma StoreByEffect(x: Effect, w: World, v: World)
    requires Describes(x, w, v) && StoreOk(w.hist.store, w.hist.bodies) && w.hist.bodies <= v.hist.bodies
    requires Copies(x) ==> x.e.body.Some? && Genuine(x.e.body.value, v.hist.bodies)
    ensures StoreOk(v.hist.store, v.hist.bodies)
  {
  }

  lemma StoreStep(c: Config, w: World, step: Step)
    requires SourceInv(c, w) && Content(w) && Enabled(c, w, step)
    ensures var v := Apply(c, w, step); StoreOk(v.hist.store, v.hist.bodies)
  {
    StepEffect(c, w, step);
    BodiesStep(c, w, step);
    StoreByEffect(EffectOf(c, w, step), w, Apply(c, w, step));
  }

  lemma ContentStep(c: Config, w: World, step: Step)
    requires SourceInv(c, w) && Content(w) && Enabled(c, w, step)
    ensures Content(Apply(c, w, step))
  {
    var v := Apply(c, w, step);
    SlotsStep(c, w, step);
    LogsStep(c, w, step);
    StepGrows(c, w, step);
    LogGrows(v.sv.failures, w, v);
    LogGrows(v.sv.dead, w, v);
    StoreStep(c, w, step);
  }
}
