/** The three record commands, in words of their own: when each succeeds and what it leaves alone. */
module StreamCommands {
  import opened Texts
  import opened Wrappers
  import opened StreamIds
  import opened StreamServer

  /** The record is in both logs, the same, or in neither. */
  predicate SameAt(a: Log, b: Log, r: StreamId)
  {
    (r in a.entries <==> r in b.entries) && (r in a.entries ==> a.entries[r] == b.entries[r])
  }

  // ---------------------------------------------------------------- lineage

  /** The generation a record's fields say, zero if it has none of the three. */
  predicate SaysGeneration(f: LineageFields, n: nat)
  {
    if f.original.None? && f.prior.None? && f.generation.None? then n == 0
    else
      && f.original.Some? && f.prior.Some? && f.generation.Some?
      && f.generation.value != "" && Digits(f.generation.value) && Value(f.generation.value) == n > 0
  }

  /**
   For records with any fields, also ones this code never writes: the lineage can be
   extended exactly if all three fields are there or none is, the generation is a
   number below the limit and the original fits; then the original stays, the prior
   is this record, and the generation is one more.
   */
  lemma NextLineageExactly(rec: StreamId, f: LineageFields)
    ensures NextLineage(rec, f).Some? <==>
            && (exists n: nat :: SaysGeneration(f, n) && n < MaxGeneration)
            && (f.original.Some? ==> |f.original.value| <= MaxIdentityBytes)
    ensures NextLineage(rec, f).Some? ==>
              var next := NextLineage(rec, f).value;
              && next.original == Some(if f.original.Some? then f.original.value else Format(rec))
              && next.prior == Some(Format(rec)) && next.generation.Some?
              && exists n: nat :: SaysGeneration(f, n) && SaysGeneration(next, n + 1)
  {
    FormatLength(rec);
    if f.original.None? && f.prior.None? && f.generation.None? {
      assert SaysGeneration(f, 0);
      DecimalValue(1);
    } else if f.generation.Some? && f.generation.value != "" && Digits(f.generation.value) {
      var n := Value(f.generation.value);
      if f.original.Some? && f.prior.Some? && n > 0 { assert SaysGeneration(f, n); }
      DecimalValue(n + 1);
    }
  }

  /** A delivery's fields are read as that lineage, or refused: for fields of any kind. */
  lemma ParseLineageExactly(f: LineageFields, l: Lineage)
    ensures ParseLineage(f) == Some(l) <==>
            && SaysGeneration(f, l.generation) && l.generation <= MaxGeneration
            && if l.generation == 0 then l.original == l.prior == ""
               else f.original == Some(l.original) && f.prior == Some(l.prior) &&
                    !InvalidIdentity(l.original) && !InvalidIdentity(l.prior)
  {
  }

  // ---------------------------------------------------------------- the commands

  /** Somebody other than `g` has the entry pending, or some group has not been delivered past it. */
  ghost predicate OwedToOthers(gs: map<string, Group>, g: string, id: StreamId)
  {
    exists n :: n in gs && ((n != g && id in gs[n].pending) || Less(gs[n].last, id))
  }

  lemma ReleasedIsOwed(gs: map<string, Group>, g: string, id: StreamId)
    requires g in gs
    ensures Owed(Release(gs, g, id), id) <==> OwedToOthers(gs, g, id)
  {
    var after := Release(gs, g, id);
    if n :| n in after && Owes(after[n], id) {
      assert n in gs && ((n != g && id in gs[n].pending) || Less(gs[n].last, id));
    }
    if n :| n in gs && ((n != g && id in gs[n].pending) || Less(gs[n].last, id)) {
      assert n in after && Owes(after[n], id);
    }
  }

  /** The record names an entry that is pending for `g`. */
  predicate Retriable(sv: Server, g: string, rec: StreamId)
  {
    && rec in sv.failures.entries && sv.failures.entries[rec].body.Some? && sv.failures.entries[rec].original.Some?
    && g in sv.source.groups && sv.failures.entries[rec].original.value in sv.source.groups[g].pending
  }

  /** There is room, or retrying makes some because nobody else is owed the entry. */
  ghost predicate RetryFits(sv: Server, g: string, rec: StreamId, max: nat)
    requires Retriable(sv, g, rec)
  {
    || |sv.source.entries| < max
    || (|sv.source.entries| == max && !OwedToOthers(sv.source.groups, g, sv.failures.entries[rec].original.value))
  }

  /**
   When a failure record is retried, and what else the command touches: the source
   and that one record. Every other record, the dead letters and the registry stay.
   */
  lemma RetryFailureExactly(sv: Server, g: string, rec: StreamId, max: nat, id: StreamId)
    ensures var (t, out) := RetryFailure(sv, g, rec, max, id);
      && (out.RetryOk? <==> Retriable(sv, g, rec) && RetryFits(sv, g, rec, max))
      && (out.RetryCapacity? <==> Retriable(sv, g, rec) && !RetryFits(sv, g, rec, max))
      && (out.NotFound? <==> rec !in sv.failures.entries)
      && (out.Stale? ==> !Retriable(sv, g, rec)) && (!out.RetryOk? ==> t == sv)
      && t.dead == sv.dead && t.registry == sv.registry && t.failures.lastId == sv.failures.lastId
      && (out.RetryOk? ==> rec !in t.failures.entries)
      && forall r :: r != rec ==> SameAt(sv.failures, t.failures, r)
  {
    if Retriable(sv, g, rec) {
      ReleasedIsOwed(sv.source.groups, g, sv.failures.entries[rec].original.value);
    }
  }

  /** A dead letter that can be re-queued: it has a body, names its entry, and its lineage can be extended. */
  predicate Requeuable(sv: Server, rec: StreamId)
  {
    && rec in sv.dead.entries && sv.dead.entries[rec].body.Some? && sv.dead.entries[rec].original.Some?
    && NextLineage(rec, sv.dead.entries[rec].fields).Some?
  }

  /** The same for a dead letter; this command leaves the groups alone as well. */
  lemma RetryDeadExactly(sv: Server, rec: StreamId, max: nat, id: StreamId)
    ensures var (t, out) := RetryDead(sv, rec, max, id);
      && (out.RetryOk? <==> Requeuable(sv, rec) && |sv.source.entries| < max)
      && (out.RetryCapacity? <==> Requeuable(sv, rec) && |sv.source.entries| >= max)
      && (out.NotFound? <==> rec !in sv.dead.entries) && (!out.RetryOk? ==> t == sv)
      && t.failures == sv.failures && t.registry == sv.registry && t.dead.lastId == sv.dead.lastId
      && t.source.groups == sv.source.groups && (out.RetryOk? ==> rec !in t.dead.entries)
      && forall r :: r != rec ==> SameAt(sv.dead, t.dead, r)
  {
  }

  /** The record of a replay has a body and its lineage can be extended. */
  predicate Replayable(sv: Server, key: ReplayKey)
  {
    var log := if key.dead then sv.dead else sv.failures;
    key.record in log.entries && log.entries[key.record].body.Some? &&
    NextLineage(key.record, log.entries[key.record].fields).Some?
  }

  /** Nothing was replayed under the key, or replacing is asked for; and there is room, or the old copy makes some. */
  predicate Replays(sv: Server, key: ReplayKey, policy: ReplayPolicy, max: nat)
  {
    && Replayable(sv, key) && (policy.RejectDuplicate? ==> key !in sv.registry)
    && (|sv.source.entries| < max ||
        (|sv.source.entries| == max && key in sv.registry && sv.registry[key] in sv.source.entries))
  }

  /** A replay takes no record from either stream and leaves the groups alone. */
  lemma ReplayExactly(sv: Server, key: ReplayKey, policy: ReplayPolicy, max: nat, id: StreamId, evicted: set<ReplayKey>)
    ensures var (t, out) := Replay(sv, key, policy, max, id, evicted);
      && (out.ReplayOk? <==> Replays(sv, key, policy, max))
      && (out.Duplicate? <==> Replayable(sv, key) && policy.RejectDuplicate? && key in sv.registry)
      && (!out.ReplayOk? ==> t == sv)
      && t.failures == sv.failures && t.dead == sv.dead && t.source.groups == sv.source.groups
  {
  }
}
