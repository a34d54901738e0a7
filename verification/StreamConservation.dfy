/**
 At-least-once delivery: every admitted body stays with every group, as a copy the
 source owes it or as a dead letter, until the group acknowledges it after a
 successful handler; the only exceptions are losses, steps that remove a dead letter
 or overwrite a copy when nothing else holds the body.
 */
module StreamConservation {
  import opened Wrappers
  import opened StreamIds
  import opened StreamServer
  import opened StreamSource
  import opened StreamWorld
  import opened StreamInvariants

  /** The source owes group `g` the entry `id`, a copy of body `k`. */
  ghost predicate CopyAt(src: Source, g: string, k: nat, id: StreamId)
  {
    g in src.groups && id in src.entries && Carries(src.entries[id], k) && Owes(src.groups[g], id)
  }

  predicate HoldsFor(e: Entry, g: string, k: nat) { e.owner == Some(g) && Carries(e, k) }

  /** A dead letter of a delivery to `g` holds body `k`. */
  ghost predicate InDead(log: Log, g: string, k: nat) { exists r :: r in log.entries && HoldsFor(log.entries[r], g, k) }

  predicate DepartsAt(slots: seq<Slot>, g: string, id: StreamId, i: int)
  {
    0 <= i < |slots| && slots[i].phase.Appended? && slots[i].group == g && slots[i].delivery.id == id
  }

  /** A process has dead-lettered a delivery of `id` to `g` and is about to acknowledge it. */
  ghost predicate Departing(slots: seq<Slot>, g: string, id: StreamId) { exists i :: DepartsAt(slots, g, id, i) }

  ghost predicate StaysAt(w: World, g: string, k: nat, id: StreamId)
  {
    CopyAt(w.sv.source, g, k, id) && !Departing(w.slots, g, id)
  }

  /** The source owes `g` a copy of body `k` that no acknowledgement on its way takes. */
  ghost predicate Stays(w: World, g: string, k: nat) { exists id :: StaysAt(w, g, k, id) }

  ghost predicate Kept(w: World, g: string, k: nat)
  {
    Stays(w, g, k) || InDead(w.sv.dead, g, k) || (g, k) in w.hist.acked
  }

  // ---------------------------------------------------------------- what a loss is

  /** Retention or an operator removes a dead letter that holds body `k` for `g`. */
  ghost predicate Discards(c: Config, w: World, step: Step, g: string, k: nat)
    requires Enabled(c, w, step)
  {
    match step
    case DeleteDead(rec) => rec in w.sv.dead.entries && HoldsFor(w.sv.dead.entries[rec], g, k)
    case PurgeDead => InDead(w.sv.dead, g, k)
    case AppendDead(i, id, kept) => Trims(w.sv.dead.entries[id := RecordOf(w.slots[i])], kept, g, k)
    case _ => false
  }

  ghost predicate Trims(entries: map<StreamId, Entry>, kept: set<StreamId>, g: string, k: nat)
  {
    exists r :: r in entries && r !in kept && HoldsFor(entries[r], g, k)
  }

  /** A replacing replay deletes a copy of body `k` that `g` is owed and adds another body. */
  ghost predicate Overwrites(c: Config, w: World, step: Step, g: string, k: nat)
    requires Enabled(c, w, step)
  {
    var x := EffectOf(c, w, step);
    x.Replaces? && CopyAt(w.sv.source, g, k, x.gone) && !Carries(x.e, k)
  }

  /** The step removes or overwrites body `k` of `g`, and it was the last that kept it. */
  ghost predicate Loss(c: Config, w: World, step: Step, g: string, k: nat)
    requires Enabled(c, w, step)
  {
    (Discards(c, w, step, g, k) || Overwrites(c, w, step, g, k)) && !Kept(Apply(c, w, step), g, k)
  }

  /** Some step of the run is a loss of body `k` to `g`. */
  ghost predicate LosesAlong(c: Config, w: World, steps: seq<Step>, g: string, k: nat)
    decreases |steps|
  {
    && steps != [] && Enabled(c, w, steps[0])
    && (Loss(c, w, steps[0], g, k) || LosesAlong(c, Apply(c, w, steps[0]), steps[1..], g, k))
  }

  // ---------------------------------------------------------------- the invariants used

  ghost predicate Ordered(log: Log) { forall r :: r in log.entries ==> !Less(log.lastId, r) }

  lemma OrderedStep(c: Config, w: World, step: Step)
    requires Enabled(c, w, step) && Ordered(w.sv.dead)
    ensures Ordered(Apply(c, w, step).sv.dead)
  {
    DeadChange(c, w, step);
    DeadPosition(c, w, step);
  }

  lemma DeadPosition(c: Config, w: World, step: Step)
    requires Enabled(c, w, step)
    ensures var v := Apply(c, w, step).sv.dead;
      v.entries == map[] || (step.AppendDead? && v.lastId == step.id) || v.lastId == w.sv.dead.lastId
  {
    if step.RetryFailureRecord? || step.RetryDeadRecord? || step.ReplayRecord? {
      RecordCommand(c, w, step);
      CommandKeepsPositions(c, w, step);
    }
  }

  ghost predicate Sound(c: Config, w: World) { SourceInv(c, w) && Content(w) && Ordered(w.sv.dead) }

  lemma SoundStep(c: Config, w: World, step: Step)
    requires Sound(c, w) && Enabled(c, w, step)
    ensures Sound(c, Apply(c, w, step))
  {
    SourceStep(c, w, step);
    ContentStep(c, w, step);
    OrderedStep(c, w, step);
  }

  lemma {:induction false} SoundRun(c: Config, w: World, steps: seq<Step>, v: World)
    requires Sound(c, w) && Run(c, w, steps, v)
    ensures Sound(c, v)
    decreases |steps|
  {
    if steps == [] {
    } else {
      SoundStep(c, w, steps[0]);
      SoundRun(c, Apply(c, w, steps[0]), steps[1..], v);
    }
  }

  lemma ReachableSound(c: Config, w: World)
    requires ValidConfig(c) && Reachable(c, w)
    ensures Sound(c, w)
  {
    var steps :| Run(c, Initial(c), steps, w);
    assert Initial(c).sv.source.groups.Keys == c.groups;
    SoundRun(c, Initial(c), steps, w);
  }

  // ---------------------------------------------------------------- a copy in the source

  /** A copy stays owed, is the one settled, is replaced, or a new copy takes its place. */
  lemma CopyStep(c: Config, x: Effect, w: World, v: World, g: string, k: nat, id: StreamId)
    requires SourceInv(c, w) && Describes(x, w, v) && CopyAt(w.sv.source, g, k, id)
    requires x.Resubmits? ==> x.gone in w.hist.store && x.e.body == w.hist.store[x.gone].body
    ensures || CopyAt(v.sv.source, g, k, id)
            || (Copies(x) && CopyAt(v.sv.source, g, k, x.id))
            || (x.Settles? && !x.how.ReclaimDrop? && x.g == g && x.gone == id)
            || (x.Replaces? && !Carries(x.e, k) && x.gone == id)
  {
    match x
    case Quiet =>
    case Adds(n, e) => NewId(c, w, n);
    case Reads(r, upto) => ReadCopy(w.sv.source, r, upto, g, k, id);
    case Settles(r, gone, how) => SettledCopy(w.sv.source, r, gone, g, k, id);
    case Resubmits(r, gone, n, e) => ResubmittedCopy(c, x, w, v, g, k, id);
    case Replaces(gone, n, e) => ReplacedCopy(c, x, w, v, g, k, id);
  }

  lemma ReadCopy(src: Source, r: string, upto: StreamId, g: string, k: nat, id: StreamId)
    requires r in src.groups && CopyAt(src, g, k, id)
    ensures CopyAt(Read(src, r, upto), g, k, id)
  {
  }

  lemma SettledCopy(src: Source, r: string, gone: StreamId, g: string, k: nat, id: StreamId)
    requires r in src.groups && gone in src.groups[r].pending && CopyAt(src, g, k, id)
    ensures CopyAt(Settled(src, r, gone), g, k, id) || (g == r && id == gone)
  {
    var gs := Release(src.groups, r, gone);
    if g != r || id != gone { assert Owes(gs[g], id); }
  }

  lemma ResubmittedCopy(c: Config, x: Effect, w: World, v: World, g: string, k: nat, id: StreamId)
    requires SourceInv(c, w) && x.Resubmits? && Describes(x, w, v) && CopyAt(w.sv.source, g, k, id)
    requires x.gone in w.hist.store && x.e.body == w.hist.store[x.gone].body
    ensures CopyAt(v.sv.source, g, k, id) || CopyAt(v.sv.source, g, k, x.id)
  {
    NewId(c, w, x.id);
    SettledCopy(w.sv.source, x.g, x.gone, g, k, id);
    assert GroupOk(w.sv.source.groups[g], w.sv.source, w.hist.store);
  }

  lemma ReplacedCopy(c: Config, x: Effect, w: World, v: World, g: string, k: nat, id: StreamId)
    requires SourceInv(c, w) && x.Replaces? && Describes(x, w, v) && CopyAt(w.sv.source, g, k, id)
    ensures || CopyAt(v.sv.source, g, k, id) || CopyAt(v.sv.source, g, k, x.id)
            || (!Carries(x.e, k) && x.gone == id)
  {
    NewId(c, w, x.id);
    assert GroupOk(w.sv.source.groups[g], w.sv.source, w.hist.store);
  }

  // ---------------------------------------------------------------- acknowledgements on their way

  lemma BecomesAppended(c: Config, w: World, step: Step, i: nat)
    requires Enabled(c, w, step) && i < |w.slots| && i < |Apply(c, w, step).slots|
    requires Apply(c, w, step).slots[i].phase.Appended? && !w.slots[i].phase.Appended?
    ensures step.AppendDead? && step.i == i
  {
  }

  lemma NewSlotHeld(c: Config, w: World, step: Step, i: nat)
    requires Enabled(c, w, step) && |w.slots| <= i < |Apply(c, w, step).slots|
    ensures Apply(c, w, step).slots[i].phase.Held?
  {
  }

  /** A delivery that departs after the step did before, or this step appended its dead letter. */
  lemma DepartedBefore(c: Config, w: World, step: Step, g: string, id: StreamId, i: int)
    requires Enabled(c, w, step) && DepartsAt(Apply(c, w, step).slots, g, id, i)
    ensures i < |w.slots| && w.slots[i].group == g && w.slots[i].delivery.id == id
    ensures w.slots[i].phase.Appended? || (step.AppendDead? && step.i == i)
  {
    if |w.slots| <= i {
      NewSlotHeld(c, w, step, i);
    } else {
      SameDelivery(c, w, step, i);
      if !w.slots[i].phase.Appended? { BecomesAppended(c, w, step, i); }
    }
  }

  /** A new copy is nobody's delivery yet. */
  lemma NewCopyStays(c: Config, w: World, step: Step, g: string, k: nat, id: StreamId)
    requires Sound(c, w) && Enabled(c, w, step) && Less(w.sv.source.lastId, id)
    requires CopyAt(Apply(c, w, step).sv.source, g, k, id)
    ensures Stays(Apply(c, w, step), g, k)
  {
    var v := Apply(c, w, step);
    NewId(c, w, id);
    if i :| DepartsAt(v.slots, g, id, i) {
      DepartedBefore(c, w, step, g, id, i);
      NotDelivered(w, i, id);
      assert false;
    }
    assert StaysAt(v, g, k, id);
  }

  lemma NotDelivered(w: World, i: nat, id: StreamId)
    requires Content(w) && i < |w.slots| && id !in w.hist.store
    ensures w.slots[i].delivery.id != id
  {
    assert SlotOk(w.slots[i], w.sv.source.groups, w.hist.store);
  }

  lemma AppendedAt(log: Log, id: StreamId, e: Entry, kept: set<StreamId>, r: StreamId, g: string, k: nat)
    requires r in log.entries[id := e] && HoldsFor(log.entries[id := e][r], g, k)
    ensures InDead(Append(log, id, e, kept), g, k) || Trims(log.entries[id := e], kept, g, k)
  {
    if r in kept {
      var v := Append(log, id, e, kept);
      assert r in v.entries && HoldsFor(v.entries[r], g, k);
    }
  }

  /** The dead letter a delivery appends holds its body, unless it is trimmed at once. */
  lemma AppendCovers(c: Config, w: World, i: nat, id: StreamId, kept: set<StreamId>)
    requires Content(w) && Enabled(c, w, AppendDead(i, id, kept))
    ensures var s := w.slots[i]; var step := AppendDead(i, id, kept);
      || InDead(Apply(c, w, step).sv.dead, s.group, s.delivery.body.token)
      || Discards(c, w, step, s.group, s.delivery.body.token)
  {
    RecordCarriesBody(w, i);
    AppendedAt(w.sv.dead, id, RecordOf(w.slots[i]), kept, id, w.slots[i].group, w.slots[i].delivery.body.token);
  }

  lemma DeliversBody(c: Config, w: World, i: nat, k: nat)
    requires Sound(c, w) && i < |w.slots| && w.slots[i].delivery.id in w.sv.source.entries
    requires Carries(w.sv.source.entries[w.slots[i].delivery.id], k)
    ensures w.slots[i].delivery.body.token == k
  {
    assert SlotOk(w.slots[i], w.sv.source.groups, w.hist.store);
  }

  /** A copy that stays and is still owed stays, unless this step appended its dead letter. */
  lemma StaysOn(c: Config, w: World, step: Step, g: string, k: nat, id: StreamId)
    requires Sound(c, w) && Enabled(c, w, step) && StaysAt(w, g, k, id)
    requires CopyAt(Apply(c, w, step).sv.source, g, k, id)
    ensures Kept(Apply(c, w, step), g, k) || Discards(c, w, step, g, k)
  {
    var v := Apply(c, w, step);
    if i :| DepartsAt(v.slots, g, id, i) {
      DepartedBefore(c, w, step, g, id, i);
      assert !DepartsAt(w.slots, g, id, i);
      DeliversBody(c, w, i, k);
      AppendCovers(c, w, i, step.id, step.kept);
    } else {
      assert StaysAt(v, g, k, id);
    }
  }

  // ---------------------------------------------------------------- one step

  lemma AckedKept(c: Config, w: World, step: Step)
    requires Enabled(c, w, step)
    ensures w.hist.acked <= Apply(c, w, step).hist.acked
  {
  }

  /** A retried failure record carries the body of the entry it settles. */
  lemma ResubmitsSame(c: Config, w: World, step: Step)
    requires Content(w) && Enabled(c, w, step)
    ensures var x := EffectOf(c, w, step);
      x.Resubmits? ==> x.gone in w.hist.store && x.e.body == w.hist.store[x.gone].body
  {
    match step
    case RetryFailureRecord(g, rec, id) =>
      if rec in w.sv.failures.entries { assert RecordOk(w.sv.failures.entries[rec], w.hist.store); }
    case _ =>
  }

  /** Only an acknowledgement settles, and a successful handler's one is remembered. */
  lemma SettlesByAck(c: Config, w: World, step: Step)
    requires Content(w) && Enabled(c, w, step) && EffectOf(c, w, step).Settles?
    requires !EffectOf(c, w, step).how.ReclaimDrop?
    ensures step.Ack?
    ensures var x := EffectOf(c, w, step); var s := w.slots[step.i];
      && x.g == s.group && x.gone == s.delivery.id && w.hist.store[x.gone].body == Some(s.delivery.body)
      && (s.phase.Appended? || (s.group, s.delivery.body.token) in Apply(c, w, step).hist.acked)
  {
    assert SlotOk(w.slots[step.i], w.sv.source.groups, w.hist.store);
  }

  lemma CopiesNew(c: Config, w: World, step: Step)
    requires SourceInv(c, w) && Enabled(c, w, step) && Copies(EffectOf(c, w, step))
    ensures Less(w.sv.source.lastId, EffectOf(c, w, step).id)
  {
    StepEffect(c, w, step);
  }

  /** Only a copy whose acknowledgement is on its way is taken by one that follows a dead letter. */
  lemma SettledIsAcked(c: Config, w: World, step: Step, g: string, k: nat, id: StreamId)
    requires Sound(c, w) && Enabled(c, w, step) && StaysAt(w, g, k, id)
    requires var x := EffectOf(c, w, step); x.Settles? && !x.how.ReclaimDrop? && x.g == g && x.gone == id
    ensures (g, k) in Apply(c, w, step).hist.acked
  {
    SettlesByAck(c, w, step);
    assert !DepartsAt(w.slots, g, id, step.i);
    DeliversBody(c, w, step.i, k);
  }

  lemma StaysStep(c: Config, w: World, step: Step, g: string, k: nat)
    requires Sound(c, w) && Enabled(c, w, step) && Stays(w, g, k)
    ensures Kept(Apply(c, w, step), g, k) || Discards(c, w, step, g, k) || Overwrites(c, w, step, g, k)
  {
    var id :| StaysAt(w, g, k, id);
    var x, v := EffectOf(c, w, step), Apply(c, w, step);
    StepEffect(c, w, step);
    ResubmitsSame(c, w, step);
    CopyStep(c, x, w, v, g, k, id);
    if CopyAt(v.sv.source, g, k, id) {
      StaysOn(c, w, step, g, k, id);
    } else if Copies(x) && CopyAt(v.sv.source, g, k, x.id) {
      CopiesNew(c, w, step);
      NewCopyStays(c, w, step, g, k, x.id);
    } else if x.Settles? {
      SettledIsAcked(c, w, step, g, k, id);
    }
  }

  lemma DeadTakenByCommand(c: Config, w: World, step: Step, r: StreamId)
    requires step.RetryFailureRecord? || step.RetryDeadRecord? || step.ReplayRecord?
    requires r in w.sv.dead.entries
    ensures || r in Server'(c, w, step).dead.entries
            || (step.RetryDeadRecord? && step.rec == r && RetryDead(w.sv, r, c.maxLength, step.id).1.RetryOk?)
  {
  }

  lemma DeadTaken(c: Config, w: World, step: Step, r: StreamId, g: string, k: nat)
    requires Enabled(c, w, step) && !step.AppendDead?
    requires r in w.sv.dead.entries && HoldsFor(w.sv.dead.entries[r], g, k)
    ensures var v := Apply(c, w, step);
      || r in v.sv.dead.entries || Discards(c, w, step, g, k)
      || (step.RetryDeadRecord? && step.rec == r && RetryDead(w.sv, r, c.maxLength, step.id).1.RetryOk?)
  {
    if step.RetryFailureRecord? || step.RetryDeadRecord? || step.ReplayRecord? {
      RecordCommand(c, w, step);
      DeadTakenByCommand(c, w, step, r);
    }
  }

  lemma RetriedAt(c: Config, w: World, rec: StreamId, id: StreamId, g: string, k: nat)
    requires SourceInv(c, w) && Less(w.sv.source.lastId, id) && g in w.sv.source.groups
    requires rec in w.sv.dead.entries && Carries(w.sv.dead.entries[rec], k)
    ensures var (sv, out) := RetryDead(w.sv, rec, c.maxLength, id); out.RetryOk? ==> CopyAt(sv.source, g, k, id)
  {
    assert GroupOk(w.sv.source.groups[g], w.sv.source, w.hist.store);
  }

  /** A dead letter stays, becomes a copy in the source, or is discarded. */
  lemma DeadStep(c: Config, w: World, step: Step, g: string, k: nat)
    requires Sound(c, w) && Enabled(c, w, step) && g in w.sv.source.groups && InDead(w.sv.dead, g, k)
    ensures Kept(Apply(c, w, step), g, k) || Discards(c, w, step, g, k)
  {
    if step.AppendDead? {
      DeadAppended(c, w, step.i, step.id, step.kept, g, k);
    } else {
      DeadKept(c, w, step, g, k);
    }
  }

  lemma DeadAppended(c: Config, w: World, i: nat, id: StreamId, kept: set<StreamId>, g: string, k: nat)
    requires Ordered(w.sv.dead) && Enabled(c, w, AppendDead(i, id, kept)) && InDead(w.sv.dead, g, k)
    ensures var step := AppendDead(i, id, kept);
      InDead(Apply(c, w, step).sv.dead, g, k) || Discards(c, w, step, g, k)
  {
    var r :| r in w.sv.dead.entries && HoldsFor(w.sv.dead.entries[r], g, k);
    AppendedAt(w.sv.dead, id, RecordOf(w.slots[i]), kept, r, g, k);
  }

  lemma DeadKept(c: Config, w: World, step: Step, g: string, k: nat)
    requires Sound(c, w) && Enabled(c, w, step) && !step.AppendDead? && g in w.sv.source.groups
    requires InDead(w.sv.dead, g, k)
    ensures Kept(Apply(c, w, step), g, k) || Discards(c, w, step, g, k)
  {
    var r :| r in w.sv.dead.entries && HoldsFor(w.sv.dead.entries[r], g, k);
    DeadTaken(c, w, step, r, g, k);
    DeadChange(c, w, step);
    if step.RetryDeadRecord? && step.rec == r { RetriedStays(c, w, r, step.id, g, k); }
  }

  lemma RetriedStays(c: Config, w: World, rec: StreamId, id: StreamId, g: string, k: nat)
    requires Sound(c, w) && Less(w.sv.source.lastId, id) && g in w.sv.source.groups
    requires rec in w.sv.dead.entries && Carries(w.sv.dead.entries[rec], k)
    ensures RetryDead(w.sv, rec, c.maxLength, id).1.RetryOk? ==> Stays(Apply(c, w, RetryDeadRecord(rec, id)), g, k)
  {
    if RetryDead(w.sv, rec, c.maxLength, id).1.RetryOk? {
      RetriedAt(c, w, rec, id, g, k);
      NewCopyStays(c, w, RetryDeadRecord(rec, id), g, k, id);
    }
  }

  /** A step that admits a body is a submission, and the copy it adds is owed to every group. */
  lemma AdmitsOne(c: Config, w: World, step: Step, g: string)
    requires SourceInv(c, w) && Enabled(c, w, step) && g in w.sv.source.groups
    requires |w.hist.bodies| < |Apply(c, w, step).hist.bodies|
    ensures var v := Apply(c, w, step);
      && step.Submit? && |v.hist.bodies| == |w.hist.bodies| + 1
      && Less(w.sv.source.lastId, step.id) && CopyAt(v.sv.source, g, |w.hist.bodies|, step.id)
  {
    OnlySubmitAdmits(c, w, step);
    assert GroupOk(w.sv.source.groups[g], w.sv.source, w.hist.store);
  }

  lemma AdmittedStays(c: Config, w: World, step: Step, g: string, k: nat)
    requires Sound(c, w) && Enabled(c, w, step) && g in c.groups
    requires |w.hist.bodies| <= k < |Apply(c, w, step).hist.bodies|
    ensures Stays(Apply(c, w, step), g, k)
  {
    AdmitsOne(c, w, step, g);
    NewCopyStays(c, w, step, g, k, step.id);
  }

  lemma KeptStep(c: Config, w: World, step: Step, g: string, k: nat)
    requires Sound(c, w) && Enabled(c, w, step) && g in c.groups && !Loss(c, w, step, g, k)
    requires k < |w.hist.bodies| ==> Kept(w, g, k)
    ensures k < |Apply(c, w, step).hist.bodies| ==> Kept(Apply(c, w, step), g, k)
  {
    if k < |w.hist.bodies| {
      KeptOrRemoved(c, w, step, g, k);
    } else if k < |Apply(c, w, step).hist.bodies| {
      AdmittedStays(c, w, step, g, k);
    }
  }

  lemma KeptOrRemoved(c: Config, w: World, step: Step, g: string, k: nat)
    requires Sound(c, w) && Enabled(c, w, step) && g in c.groups && Kept(w, g, k)
    ensures Kept(Apply(c, w, step), g, k) || Discards(c, w, step, g, k) || Overwrites(c, w, step, g, k)
  {
    AckedKept(c, w, step);
    if Stays(w, g, k) {
      StaysStep(c, w, step, g, k);
    } else if InDead(w.sv.dead, g, k) {
      DeadStep(c, w, step, g, k);
    }
  }

  // ---------------------------------------------------------------- runs

  lemma {:induction false} KeptRun(c: Config, w: World, steps: seq<Step>, v: World, g: string, k: nat)
    requires Sound(c, w) && Run(c, w, steps, v) && g in c.groups && !LosesAlong(c, w, steps, g, k)
    requires k < |w.hist.bodies| ==> Kept(w, g, k)
    ensures k < |v.hist.bodies| ==> Kept(v, g, k)
    decreases |steps|
  {
    if steps == [] {
    } else {
      SoundStep(c, w, steps[0]);
      KeptStep(c, w, steps[0], g, k);
      KeptRun(c, Apply(c, w, steps[0]), steps[1..], v, g, k);
    }
  }

  /** The entry holds admitted body `k`, byte for byte. */
  predicate Holds(w: World, e: Entry, k: nat) { k < |w.hist.bodies| && e.body == Some(Body(w.hist.bodies[k], k)) }

  /** The source owes group `g` a copy of body `k`, or a dead letter of `g` holds it, or `g` acknowledged it. */
  ghost predicate Safe(w: World, g: string, k: nat)
  {
    || (exists id :: id in w.sv.source.entries && Holds(w, w.sv.source.entries[id], k) &&
                     g in w.sv.source.groups && Owes(w.sv.source.groups[g], id))
    || (exists r :: r in w.sv.dead.entries && Holds(w, w.sv.dead.entries[r], k) &&
                    w.sv.dead.entries[r].owner == Some(g))
    || (g, k) in w.hist.acked
  }

  lemma KeptIsSafe(c: Config, w: World, g: string, k: nat)
    requires Sound(c, w) && Kept(w, g, k) && k < |w.hist.bodies|
    ensures Safe(w, g, k)
  {
    if Stays(w, g, k) {
      var id :| StaysAt(w, g, k, id);
      assert w.sv.source.entries[id] == w.hist.store[id] && Holds(w, w.sv.source.entries[id], k);
    } else if InDead(w.sv.dead, g, k) {
      var r :| r in w.sv.dead.entries && HoldsFor(w.sv.dead.entries[r], g, k);
      assert RecordOk(w.sv.dead.entries[r], w.hist.store) && Holds(w, w.sv.dead.entries[r], k);
    }
  }

  /**
   Every admitted body, for every group, at the end of every run: the source owes
   the group a copy, byte for byte, or a dead letter of that group holds it, or the
   group acknowledged it, or some step of the run was a loss: it removed a dead
   letter or overwrote a copy, and it was the last that kept the body.
   */
  lemma NothingIsLost(c: Config, steps: seq<Step>, w: World, g: string, k: nat)
    requires ValidConfig(c) && Run(c, Initial(c), steps, w) && g in c.groups && k < |w.hist.bodies|
    ensures Safe(w, g, k) || LosesAlong(c, Initial(c), steps, g, k)
  {
    if !LosesAlong(c, Initial(c), steps, g, k) {
      assert Run(c, Initial(c), [], Initial(c));
      ReachableSound(c, Initial(c));
      SoundRun(c, Initial(c), steps, w);
      KeptRun(c, Initial(c), steps, w, g, k);
      KeptIsSafe(c, w, g, k);
    }
  }

  // ---------------------------------------------------------------- bodies and acknowledgements

  /** Every copy and every record carries the bytes admitted, and no delivery is too large to decode. */
  lemma BodiesAreUnchanged(c: Config, w: World)
    requires ValidConfig(c) && Reachable(c, w)
    ensures forall id :: id in w.sv.source.entries ==> CarriesAdmitted(w, w.sv.source.entries[id])
    ensures forall r :: r in w.sv.failures.entries ==> CarriesAdmitted(w, w.sv.failures.entries[r])
    ensures forall r :: r in w.sv.dead.entries ==> CarriesAdmitted(w, w.sv.dead.entries[r])
    ensures forall i :: 0 <= i < |w.slots| ==> |w.slots[i].delivery.body.bytes| <= MaxMessageBytes
  {
    ReachableSound(c, w);
    forall i | 0 <= i < |w.slots| ensures |w.slots[i].delivery.body.bytes| <= MaxMessageBytes {
      assert SlotOk(w.slots[i], w.sv.source.groups, w.hist.store);
    }
  }

  predicate CarriesAdmitted(w: World, e: Entry)
  {
    e.body.Some? && Holds(w, e, e.body.value.token)
  }

  ghost predicate AcksFollowSuccess(w: World)
  {
    && w.hist.acked <= w.hist.succeeded
    && forall i :: 0 <= i < |w.slots| && w.slots[i].phase.Succeeded? ==>
         (w.slots[i].group, w.slots[i].delivery.body.token) in w.hist.succeeded
  }

  lemma SuccessStep(c: Config, w: World, step: Step)
    requires Enabled(c, w, step) && AcksFollowSuccess(w)
    ensures AcksFollowSuccess(Apply(c, w, step))
  {
  }

  lemma {:induction false} SuccessRun(c: Config, w: World, steps: seq<Step>, v: World)
    requires Run(c, w, steps, v) && AcksFollowSuccess(w)
    ensures AcksFollowSuccess(v)
    decreases |steps|
  {
    if steps == [] {
    } else {
      SuccessStep(c, w, steps[0]);
      SuccessRun(c, Apply(c, w, steps[0]), steps[1..], v);
    }
  }

  /** A group never acknowledges a body that no handler of that group finished successfully. */
  lemma AckedWasHandled(c: Config, w: World, g: string, k: nat)
    requires Reachable(c, w) && (g, k) in w.hist.acked
    ensures (g, k) in w.hist.succeeded
  {
    var steps :| Run(c, Initial(c), steps, w);
    SuccessRun(c, Initial(c), steps, w);
  }
}
