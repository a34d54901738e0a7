/**
 That a loss is one: a body is kept exactly when it is safe in every continuation
 without a loss. What is not kept any more can be made to disappear by
 acknowledgements that are already on their way.
 */
module StreamLosses {
  import opened StreamIds
  import opened StreamServer
  import opened StreamWorld
  import opened StreamInvariants
  import opened StreamDepartures
  import opened StreamConservation

  /** Every delivery in hand was handed out by a read. */
  ghost predicate HandedOut(w: World)
  {
    forall i :: 0 <= i < |w.slots| ==> (w.slots[i].group, w.slots[i].delivery.id) in w.hist.delivered
  }

  lemma DeliveredGrows(c: Config, w: World, step: Step)
    requires SourceInv(c, w) && Enabled(c, w, step)
    ensures w.hist.delivered <= Apply(c, w, step).hist.delivered
  {
    StepEffect(c, w, step);
  }

  lemma NewSlotHandedOut(c: Config, w: World, step: Step, i: nat)
    requires Enabled(c, w, step) && |w.slots| <= i < |Apply(c, w, step).slots|
    ensures var v := Apply(c, w, step); (v.slots[i].group, v.slots[i].delivery.id) in v.hist.delivered
  {
  }

  lemma HandedOutStep(c: Config, w: World, step: Step)
    requires SourceInv(c, w) && HandedOut(w) && Enabled(c, w, step)
    ensures HandedOut(Apply(c, w, step))
  {
    var v := Apply(c, w, step);
    DeliveredGrows(c, w, step);
    forall i | 0 <= i < |v.slots| ensures (v.slots[i].group, v.slots[i].delivery.id) in v.hist.delivered {
      if i < |w.slots| {
        SameDelivery(c, w, step, i);
      } else {
        NewSlotHandedOut(c, w, step, i);
      }
    }
  }

  lemma {:induction false} HandedOutRun(c: Config, w: World, steps: seq<Step>, v: World)
    requires SourceInv(c, w) && HandedOut(w) && Run(c, w, steps, v)
    ensures HandedOut(v)
    decreases |steps|
  {
    if steps == [] {
    } else {
      SourceStep(c, w, steps[0]);
      HandedOutStep(c, w, steps[0]);
      HandedOutRun(c, Apply(c, w, steps[0]), steps[1..], v);
    }
  }

  /** A group is not about to be delivered what is in a process's hands. */
  ghost predicate Passed(w: World)
  {
    forall i :: 0 <= i < |w.slots| ==> var s := w.slots[i];
      s.group in w.sv.source.groups && !Less(w.sv.source.groups[s.group].last, s.delivery.id)
  }

  lemma ReachablePassed(c: Config, w: World)
    requires ValidConfig(c) && Reachable(c, w)
    ensures Passed(w)
  {
    var steps :| Run(c, Initial(c), steps, w);
    assert Initial(c).sv.source.groups.Keys == c.groups;
    HandedOutRun(c, Initial(c), steps, w);
    ReachableDepartures(c, w);
  }

  // ---------------------------------------------------------------- acknowledging what is about to be

  lemma AckPasses(c: Config, w: World, i: nat)
    requires Passed(w) && Enabled(c, w, Ack(i))
    ensures Passed(Apply(c, w, Ack(i)))
  {
  }

  /** An acknowledgement gives no group a copy, and takes this one from its group. */
  lemma AckCopies(c: Config, w: World, i: nat, g: string, k: nat, id: StreamId)
    requires Passed(w) && Enabled(c, w, Ack(i)) && CopyAt(Apply(c, w, Ack(i)).sv.source, g, k, id)
    ensures CopyAt(w.sv.source, g, k, id) && !(w.slots[i].group == g && w.slots[i].delivery.id == id)
  {
  }

  lemma AckPhases(c: Config, w: World, i: nat, j: nat)
    requires Enabled(c, w, Ack(i)) && j < |w.slots|
    ensures |Apply(c, w, Ack(i)).slots| == |w.slots|
    ensures Apply(c, w, Ack(i)).slots[j] == if i == j then w.slots[j].(phase := Ended) else w.slots[j]
  {
  }

  lemma StillDeparts(c: Config, w: World, i: nat, g: string, id: StreamId)
    requires Enabled(c, w, Ack(i)) && Departing(w.slots, g, id)
    requires !(w.slots[i].group == g && w.slots[i].delivery.id == id)
    ensures Departing(Apply(c, w, Ack(i)).slots, g, id)
  {
    var j :| DepartsAt(w.slots, g, id, j);
    AckPhases(c, w, i, j);
    assert DepartsAt(Apply(c, w, Ack(i)).slots, g, id, j);
  }

  lemma AckKeepsNothing(c: Config, w: World, i: nat, g: string, k: nat)
    requires Passed(w) && Enabled(c, w, Ack(i)) && w.slots[i].phase.Appended? && !Kept(w, g, k)
    ensures !Kept(Apply(c, w, Ack(i)), g, k)
  {
    var v := Apply(c, w, Ack(i));
    if id :| StaysAt(v, g, k, id) {
      AckCopies(c, w, i, g, k, id);
      assert CopyAt(w.sv.source, g, k, id) && !StaysAt(w, g, k, id);
      StillDeparts(c, w, i, g, id);
      assert false;
    }
  }

  lemma AckIsNoLoss(c: Config, w: World, i: nat, g: string, k: nat)
    requires Enabled(c, w, Ack(i))
    ensures !Loss(c, w, Ack(i), g, k)
  {
  }

  lemma NothingLeft(w: World, g: string, k: nat)
    requires !Kept(w, g, k) && forall i :: 0 <= i < |w.slots| ==> !w.slots[i].phase.Appended?
    ensures !Safe(w, g, k)
  {
    if id :| id in w.sv.source.entries && Holds(w, w.sv.source.entries[id], k) &&
             g in w.sv.source.groups && Owes(w.sv.source.groups[g], id) {
      assert StaysAt(w, g, k, id);
    }
  }

  /** Acknowledges every dead-lettered delivery from slot `n` on. */
  lemma {:induction false} AcknowledgeAll(c: Config, w: World, n: nat, g: string, k: nat)
    returns (steps: seq<Step>, v: World)
    requires Passed(w) && !Kept(w, g, k) && n <= |w.slots|
    requires forall i :: 0 <= i < n ==> !w.slots[i].phase.Appended?
    ensures Run(c, w, steps, v) && !LosesAlong(c, w, steps, g, k) && !Safe(v, g, k)
    decreases |w.slots| - n
  {
    if n == |w.slots| {
      NothingLeft(w, g, k);
      steps, v := [], w;
    } else if w.slots[n].phase.Appended? {
      var u := Apply(c, w, Ack(n));
      AckPasses(c, w, n);
      AckKeepsNothing(c, w, n, g, k);
      AckIsNoLoss(c, w, n, g, k);
      forall i | 0 <= i < |w.slots| ensures |u.slots| == |w.slots| && (i <= n ==> !u.slots[i].phase.Appended?) {
        AckPhases(c, w, n, i);
      }
      var rest;
      rest, v := AcknowledgeAll(c, u, n + 1, g, k);
      steps := [Ack(n)] + rest;
      assert steps[1..] == rest;
    } else {
      steps, v := AcknowledgeAll(c, w, n + 1, g, k);
    }
  }

  // ---------------------------------------------------------------- the theorem

  /** Body `k` is safe for `g` at the end of every continuation without a loss, crashes and replays included. */
  ghost predicate SafeUntilLoss(c: Config, w: World, g: string, k: nat)
  {
    forall steps, v :: Run(c, w, steps, v) && !LosesAlong(c, w, steps, g, k) ==> Safe(v, g, k)
  }

  /**
   From any point of any run: a body is kept for a group if and only if it is safe
   along every continuation without a loss.
   */
  lemma KeptExactly(c: Config, w: World, g: string, k: nat)
    requires ValidConfig(c) && Reachable(c, w) && g in c.groups && k < |w.hist.bodies|
    ensures Kept(w, g, k) <==> SafeUntilLoss(c, w, g, k)
  {
    ReachableSound(c, w);
    if Kept(w, g, k) {
      forall steps, v | Run(c, w, steps, v) && !LosesAlong(c, w, steps, g, k) ensures Safe(v, g, k) {
        SafeAlong(c, w, steps, v, g, k);
      }
    } else {
      ReachablePassed(c, w);
      var steps, v := AcknowledgeAll(c, w, 0, g, k);
    }
  }

  lemma SafeAlong(c: Config, w: World, steps: seq<Step>, v: World, g: string, k: nat)
    requires Sound(c, w) && Run(c, w, steps, v) && !LosesAlong(c, w, steps, g, k)
    requires g in c.groups && k < |w.hist.bodies| && Kept(w, g, k)
    ensures Safe(v, g, k)
  {
    SoundRun(c, w, steps, v);
    KeptRun(c, w, steps, v, g, k);
    BodiesGrow(c, w, steps, v);
    KeptIsSafe(c, v, g, k);
  }

  lemma {:induction false} BodiesGrow(c: Config, w: World, steps: seq<Step>, v: World)
    requires Sound(c, w) && Run(c, w, steps, v)
    ensures |w.hist.bodies| <= |v.hist.bodies|
    decreases |steps|
  {
    if steps == [] {
    } else {
      BodiesStep(c, w, steps[0]);
      SoundStep(c, w, steps[0]);
      BodiesGrow(c, Apply(c, w, steps[0]), steps[1..], v);
    }
  }
}
