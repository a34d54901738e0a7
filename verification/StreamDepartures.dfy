/** How a delivered entry leaves a group's pending set: once, and through one of four doors. */
module StreamDepartures {
  import opened StreamIds
  import opened StreamServer
  import opened StreamSource
  import opened StreamWorld
  import opened StreamInvariants
  import opened Wrappers

  ghost predicate LeftAt(ds: seq<Departure>, g: string, id: StreamId, i: int)
  {
    0 <= i < |ds| && ds[i].group == g && ds[i].id == id
  }

  ghost predicate Left(ds: seq<Departure>, g: string, id: StreamId) { exists i :: LeftAt(ds, g, id, i) }

  /** Only what was handed out is pending, and nothing present is skipped. */
  ghost predicate DeliveriesOf(src: Source, h: History)
  {
    && (forall g, id :: (g, id) in h.delivered ==>
          g in src.groups && id in h.store && !Less(src.groups[g].last, id))
    && (forall g, id :: g in src.groups && id in src.groups[g].pending ==> (g, id) in h.delivered)
    && (forall g, id :: g in src.groups && id in h.store && !Less(src.groups[g].last, id) && id !in h.replaced ==>
          (g, id) in h.delivered)
  }

  /** Whoever left was delivered before and is not pending any more; a reclaim drops only what a replay deleted. */
  ghost predicate LeftForGood(src: Source, h: History)
  {
    forall i :: 0 <= i < |h.departures| ==>
      && (h.departures[i].group, h.departures[i].id) in h.delivered && h.departures[i].group in src.groups
      && h.departures[i].id !in src.groups[h.departures[i].group].pending
      && (h.departures[i].how.ReclaimDrop? ==> h.departures[i].id in h.replaced)
  }

  ghost predicate LeftOnce(ds: seq<Departure>)
  {
    forall i, j :: 0 <= i < j < |ds| ==> ds[i].group != ds[j].group || ds[i].id != ds[j].id
  }

  ghost predicate DeliveredIsAccounted(src: Source, h: History)
  {
    forall g, id :: (g, id) in h.delivered && g in src.groups ==>
      id in src.groups[g].pending || Left(h.departures, g, id)
  }

  ghost predicate Departures(w: World)
  {
    && DeliveriesOf(w.sv.source, w.hist)
    && LeftForGood(w.sv.source, w.hist)
    && LeftOnce(w.hist.departures)
    && DeliveredIsAccounted(w.sv.source, w.hist)
  }

  lemma LeftMore(ds: seq<Departure>, d: Departure, g: string, id: StreamId)
    ensures Left(ds + [d], g, id) <==> Left(ds, g, id) || (d.group == g && d.id == id)
  {
    if Left(ds, g, id) {
      var i :| LeftAt(ds, g, id, i);
      assert LeftAt(ds + [d], g, id, i);
    }
    if d.group == g && d.id == id {
      assert LeftAt(ds + [d], g, id, |ds|);
    }
    if i :| LeftAt(ds + [d], g, id, i) && i < |ds| {
      assert LeftAt(ds, g, id, i);
    }
  }

  /** Same groups, deliveries and departures, and one new entry. */
  lemma OnNewEntry(src: Source, t: Source, h: History, k: History, id: StreamId, e: Entry)
    requires DeliveriesOf(src, h) && LeftForGood(src, h) && DeliveredIsAccounted(src, h) && LeftOnce(h.departures)
    requires GroupsOk(src, h.store) && Less(src.lastId, id)
    requires t.groups == src.groups && k.store == h.store[id := e] && k.delivered == h.delivered
    requires k.departures == h.departures && h.replaced <= k.replaced
    ensures DeliveriesOf(t, k) && LeftForGood(t, k) && DeliveredIsAccounted(t, k) && LeftOnce(k.departures)
  {
    forall g, x | g in t.groups && x in k.store && !Less(t.groups[g].last, x) && x !in k.replaced
      ensures (g, x) in k.delivered
    {
      assert GroupOk(src.groups[g], src, h.store);
    }
  }

  lemma OnReadDeliveries(src: Source, h: History, k: History, g: string, upto: StreamId)
    requires DeliveriesOf(src, h) && Known(src, h.store) && PresentIffOwed(src, h.store, h.replaced)
    requires g in src.groups && Less(src.groups[g].last, upto)
    requires Notes(h, k, h.store, h.departures, Delivered(h, g, News(src, g, upto)).delivered, h.replaced)
    ensures DeliveriesOf(Read(src, g, upto), k)
  {
    var t := Read(src, g, upto);
    forall n, id | n in t.groups && id in k.store && !Less(t.groups[n].last, id) && id !in k.replaced
      ensures (n, id) in k.delivered
    {
      if n == g && Less(src.groups[g].last, id) {
        assert Owes(src.groups[g], id);
        assert id in News(src, g, upto);
      }
    }
  }

  lemma OnReadDepartures(src: Source, h: History, k: History, g: string, upto: StreamId)
    requires DeliveriesOf(src, h) && LeftForGood(src, h) && DeliveredIsAccounted(src, h) && LeftOnce(h.departures)
    requires g in src.groups && Less(src.groups[g].last, upto)
    requires Notes(h, k, h.store, h.departures, Delivered(h, g, News(src, g, upto)).delivered, h.replaced)
    ensures LeftForGood(Read(src, g, upto), k) && DeliveredIsAccounted(Read(src, g, upto), k) && LeftOnce(k.departures)
  {
    var t := Read(src, g, upto);
    forall i | 0 <= i < |k.departures|
      ensures k.departures[i].id !in t.groups[k.departures[i].group].pending
    {
      var d := k.departures[i];
      assert (d.group, d.id) in h.delivered && !Less(src.groups[d.group].last, d.id);
    }
  }

  lemma OnSettle(src: Source, h: History, k: History, g: string, gone: StreamId, how: How)
    requires DeliveriesOf(src, h) && LeftForGood(src, h) && DeliveredIsAccounted(src, h) && LeftOnce(h.departures)
    requires g in src.groups && gone in src.groups[g].pending && (how.ReclaimDrop? ==> gone in h.replaced)
    requires Notes(h, k, h.store, h.departures + [Departure(g, gone, how)], h.delivered, h.replaced)
    ensures DeliveriesOf(Settled(src, g, gone), k) && LeftForGood(Settled(src, g, gone), k)
    ensures DeliveredIsAccounted(Settled(src, g, gone), k) && LeftOnce(k.departures)
  {
    var t := Settled(src, g, gone);
    forall n, id | (n, id) in k.delivered && n in t.groups
      ensures id in t.groups[n].pending || Left(k.departures, n, id)
    {
      LeftMore(h.departures, Departure(g, gone, how), n, id);
    }
  }

  lemma EffectKeepsDepartures(c: Config, x: Effect, w: World, v: World)
    requires SourceInv(c, w) && Departures(w) && Describes(x, w, v)
    ensures Departures(v)
  {
    var src, h, k := w.sv.source, w.hist, v.hist;
    match x
    case Quiet =>
    case Adds(id, e) => OnNewEntry(src, v.sv.source, h, k, id, e);
    case Replaces(_, id, e) => OnNewEntry(src, v.sv.source, h, k, id, e);
    case Reads(g, upto) =>
      OnReadDeliveries(src, h, k, g, upto);
      OnReadDepartures(src, h, k, g, upto);
    case Settles(g, gone, how) => OnSettle(src, h, k, g, gone, how);
    case Resubmits(g, gone, id, e) =>
      var mid := h.(departures := k.departures);
      OnSettle(src, h, mid, g, gone, RecordRetry);
      SettleKeeps(c.groups, c.maxLength, src, h.store, h.replaced, g, gone);
      OnNewEntry(Settled(src, g, gone), v.sv.source, mid, k, id, e);
  }

  lemma {:induction false} DeparturesRun(c: Config, w: World, steps: seq<Step>, v: World)
    requires SourceInv(c, w) && Departures(w) && Run(c, w, steps, v)
    ensures SourceInv(c, v) && Departures(v)
    decreases |steps|
  {
    if steps == [] {
    } else {
      var u := Apply(c, w, steps[0]);
      SourceStep(c, w, steps[0]);
      StepEffect(c, w, steps[0]);
      EffectKeepsDepartures(c, EffectOf(c, w, steps[0]), w, u);
      DeparturesRun(c, u, steps[1..], v);
    }
  }

  lemma ReachableDepartures(c: Config, w: World)
    requires ValidConfig(c) && Reachable(c, w)
    ensures SourceInv(c, w) && Departures(w)
  {
    var steps :| Run(c, Initial(c), steps, w);
    assert Initial(c).sv.source.groups.Keys == c.groups;
    DeparturesRun(c, Initial(c), steps, w);
  }

  /**
   Within a group, every delivered entry is either pending or left the pending
   set, never both, and it left exactly once: by a handler acknowledgement, a
   dead-letter acknowledgement, the retry of a failure record or, if a replay
   deleted it, a reclaim that found it gone.
   */
  lemma LeavesExactlyOnce(c: Config, w: World, g: string, id: StreamId)
    requires ValidConfig(c) && Reachable(c, w) && (g, id) in w.hist.delivered
    ensures g in w.sv.source.groups
    ensures id in w.sv.source.groups[g].pending <==> !Left(w.hist.departures, g, id)
    ensures forall i, j :: LeftAt(w.hist.departures, g, id, i) && LeftAt(w.hist.departures, g, id, j) ==> i == j
    ensures forall i :: LeftAt(w.hist.departures, g, id, i) && w.hist.departures[i].how.ReclaimDrop? ==>
              id in w.hist.replaced
  {
    ReachableDepartures(c, w);
  }

  /** A group's position passes no entry without delivering it, unless a replay deleted it. */
  lemma NothingIsSkipped(c: Config, w: World, g: string, id: StreamId)
    requires ValidConfig(c) && Reachable(c, w) && g in w.sv.source.groups && id in w.hist.store
    requires !Less(w.sv.source.groups[g].last, id) && id !in w.hist.replaced
    ensures (g, id) in w.hist.delivered
  {
    ReachableDepartures(c, w);
  }

  /** Whoever comes later finds the lease lost or the record stale, and changes nothing. */
  lemma LateSettlementIsRefused(c: Config, w: World, g: string, id: StreamId, rec: StreamId, max: nat, copy: StreamId)
    requires ValidConfig(c) && Reachable(c, w) && Left(w.hist.departures, g, id)
    ensures Acknowledge(w.sv.source, g, id) == (w.sv.source, LeaseLost)
    ensures rec in w.sv.failures.entries && w.sv.failures.entries[rec].original == Some(id) &&
            w.sv.failures.entries[rec].body.Some? ==>
              RetryFailure(w.sv, g, rec, max, copy) == (w.sv, Stale)
  {
    ReachableDepartures(c, w);
  }
}
