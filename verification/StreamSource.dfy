/**
 The source stream on its own: in every state the scripts can produce, an entry
 that was ever added is present exactly when some group is still owed it and no
 replacing replay deleted it; and the stream is within its capacity, or one above
 it after such a deletion.
 */
module StreamSource {
  import opened Wrappers
  import opened StreamIds
  import opened StreamServer

  /** Identifiers are positive and none is above the stream's last one. */
  ghost predicate Known(src: Source, store: map<StreamId, Entry>)
  {
    && (forall id :: id in store ==> Less(ZeroId, id) && !Less(src.lastId, id))
    && (forall id :: id in src.entries ==> id in store && src.entries[id] == store[id])
  }

  ghost predicate GroupOk(g: Group, src: Source, store: map<StreamId, Entry>)
  {
    && !Less(src.lastId, g.last)
    && forall id :: id in g.pending ==> id in store && !Less(g.last, id)
  }

  ghost predicate GroupsOk(src: Source, store: map<StreamId, Entry>)
  {
    forall g :: g in src.groups ==> GroupOk(src.groups[g], src, store)
  }

  /** Nothing but a replacing replay deletes an entry while it is owed, and none is kept once owed to nobody. */
  ghost predicate PresentIffOwed(src: Source, store: map<StreamId, Entry>, replaced: set<StreamId>)
  {
    forall id :: id in store ==> (id in src.entries <==> Owed(src.groups, id) && id !in replaced)
  }

  /** The length the stream can reach: a failure retry miscounts a replaced entry, but only once at a time. */
  ghost function Limit(max: nat, replaced: set<StreamId>): nat { if replaced == {} then max else max + 1 }

  /** `store` is every entry ever added, `replaced` those a replay deleted, `names` the fixed set of groups. */
  ghost predicate SourceOk(names: set<string>, max: nat, src: Source, store: map<StreamId, Entry>,
                           replaced: set<StreamId>)
  {
    && src.groups.Keys == names && names != {} && replaced <= store.Keys
    && Known(src, store) && GroupsOk(src, store) && PresentIffOwed(src, store, replaced)
    && |src.entries| <= Limit(max, replaced)
  }

  // ---------------------------------------------------------------- small facts

  lemma RemoveOne<K, V>(m: map<K, V>, k: K)
    requires k in m
    ensures |m - {k}| == |m| - 1
  {
    assert (m - {k}).Keys == m.Keys - {k};
  }

  lemma RemoveNone<K, V>(m: map<K, V>, k: K)
    requires k !in m
    ensures m - {k} == m
  {
  }

  lemma PendingPresent(names: set<string>, max: nat, src: Source, store: map<StreamId, Entry>,
                       replaced: set<StreamId>, g: string, id: StreamId)
    requires SourceOk(names, max, src, store, replaced) && g in src.groups && id in src.groups[g].pending
    ensures id in src.entries <==> id !in replaced
  {
    assert Owes(src.groups[g], id);
  }

  // ---------------------------------------------------------------- adding

  lemma AddKnown(src: Source, store: map<StreamId, Entry>, id: StreamId, e: Entry)
    requires Known(src, store) && Less(src.lastId, id)
    ensures Known(Add(src, id, e), store[id := e]) && id !in store
  {
  }

  lemma AddGroups(src: Source, store: map<StreamId, Entry>, id: StreamId, e: Entry)
    requires GroupsOk(src, store) && Less(src.lastId, id)
    ensures GroupsOk(Add(src, id, e), store[id := e])
    ensures forall g :: g in src.groups ==> Owes(src.groups[g], id)
  {
  }

  lemma AddPresent(src: Source, store: map<StreamId, Entry>, replaced: set<StreamId>, id: StreamId, e: Entry)
    requires PresentIffOwed(src, store, replaced) && Owed(src.groups, id) && id !in replaced
    ensures PresentIffOwed(Add(src, id, e), store[id := e], replaced)
  {
  }

  /** A new identifier is above every group's position, so everyone is owed the new entry. */
  lemma AddKeeps(names: set<string>, max: nat, src: Source, store: map<StreamId, Entry>, replaced: set<StreamId>,
                 id: StreamId, e: Entry)
    requires SourceOk(names, max, src, store, replaced) && Less(src.lastId, id)
    requires |src.entries| < Limit(max, replaced)
    ensures SourceOk(names, max, Add(src, id, e), store[id := e], replaced)
    ensures forall g :: g in src.groups ==> Owes(src.groups[g], id)
    ensures id !in store
  {
    AddKnown(src, store, id, e);
    AddGroups(src, store, id, e);
    var n :| n in names;
    assert n in src.groups && Owed(src.groups, id);
    AddPresent(src, store, replaced, id, e);
  }

  // ---------------------------------------------------------------- reading

  lemma ReadOwes(src: Source, store: map<StreamId, Entry>, g: string, upto: StreamId, n: string, id: StreamId)
    requires Known(src, store) && GroupsOk(src, store) && g in src.groups && n in src.groups
    requires upto in src.entries && Less(src.groups[g].last, upto)
    ensures id in src.entries ==> (Owes(Read(src, g, upto).groups[n], id) <==> Owes(src.groups[n], id))
    ensures id !in src.entries && Owes(Read(src, g, upto).groups[n], id) ==> Owes(src.groups[n], id)
  {
  }

  lemma ReadGroups(src: Source, store: map<StreamId, Entry>, g: string, upto: StreamId)
    requires Known(src, store) && GroupsOk(src, store) && g in src.groups
    requires upto in src.entries && Less(src.groups[g].last, upto)
    ensures GroupsOk(Read(src, g, upto), store)
  {
    var t := Read(src, g, upto);
    forall n | n in t.groups ensures GroupOk(t.groups[n], t, store) {
      assert GroupOk(src.groups[n], src, store);
    }
  }

  lemma ReadOwed(src: Source, store: map<StreamId, Entry>, g: string, upto: StreamId, id: StreamId)
    requires Known(src, store) && GroupsOk(src, store) && g in src.groups
    requires upto in src.entries && Less(src.groups[g].last, upto)
    ensures id in src.entries ==> (Owed(Read(src, g, upto).groups, id) <==> Owed(src.groups, id))
    ensures id !in src.entries && Owed(Read(src, g, upto).groups, id) ==> Owed(src.groups, id)
  {
    var t := Read(src, g, upto);
    if Owed(src.groups, id) && id in src.entries {
      var n :| n in src.groups && Owes(src.groups[n], id);
      ReadOwes(src, store, g, upto, n, id);
      assert n in t.groups;
    }
    if Owed(t.groups, id) {
      var n :| n in t.groups && Owes(t.groups[n], id);
      ReadOwes(src, store, g, upto, n, id);
    }
  }

  lemma ReadKeeps(names: set<string>, max: nat, src: Source, store: map<StreamId, Entry>, replaced: set<StreamId>,
                  g: string, upto: StreamId)
    requires SourceOk(names, max, src, store, replaced) && g in src.groups
    requires upto in src.entries && Less(src.groups[g].last, upto)
    ensures SourceOk(names, max, Read(src, g, upto), store, replaced)
  {
    var t := Read(src, g, upto);
    ReadGroups(src, store, g, upto);
    forall id | id in store ensures id in t.entries <==> Owed(t.groups, id) && id !in replaced {
      ReadOwed(src, store, g, upto, id);
    }
  }

  // ---------------------------------------------------------------- acknowledging

  lemma ReleaseOwes(gs: map<string, Group>, g: string, id: StreamId, n: string, x: StreamId)
    requires g in gs && n in gs
    ensures Owes(Release(gs, g, id)[n], x) <==> Owes(gs[n], x) && !(n == g && x == id && !Less(gs[g].last, id))
  {
  }

  lemma SettleOwed(gs: map<string, Group>, g: string, id: StreamId, x: StreamId)
    requires g in gs && x != id
    ensures Owed(Release(gs, g, id), x) <==> Owed(gs, x)
  {
    var rs := Release(gs, g, id);
    if Owed(rs, x) {
      var n :| n in rs && Owes(rs[n], x);
      ReleaseOwes(gs, g, id, n, x);
      assert n in gs;
    }
    if Owed(gs, x) {
      var n :| n in gs && Owes(gs[n], x);
      ReleaseOwes(gs, g, id, n, x);
      assert n in rs;
    }
  }

  lemma SettleGroups(src: Source, store: map<StreamId, Entry>, g: string, id: StreamId, t: Source)
    requires GroupsOk(src, store) && g in src.groups
    requires t.groups == Release(src.groups, g, id) && t.lastId == src.lastId
    ensures GroupsOk(t, store)
  {
    forall n | n in t.groups ensures GroupOk(t.groups[n], t, store) {
      assert GroupOk(src.groups[n], src, store);
    }
  }

  /** The source once `id` left the pending set of `g` and was deleted if nobody is owed it. */
  ghost function Settled(src: Source, g: string, id: StreamId): Source
    requires g in src.groups
  {
    var gs := Release(src.groups, g, id);
    Source(if Owed(gs, id) then src.entries else src.entries - {id}, src.lastId, gs)
  }

  lemma SettledLength(src: Source, g: string, id: StreamId)
    requires g in src.groups
    ensures |Settled(src, g, id).entries| ==
            |src.entries| - if id in src.entries && !Owed(Release(src.groups, g, id), id) then 1 else 0
  {
    if id in src.entries { RemoveOne(src.entries, id); } else { RemoveNone(src.entries, id); }
  }

  lemma SettleKeeps(names: set<string>, max: nat, src: Source, store: map<StreamId, Entry>, replaced: set<StreamId>,
                    g: string, id: StreamId)
    requires SourceOk(names, max, src, store, replaced) && g in src.groups && id in src.groups[g].pending
    ensures SourceOk(names, max, Settled(src, g, id), store, replaced)
  {
    PendingPresent(names, max, src, store, replaced, g, id);
    SettledLength(src, g, id);
    SettleGroups(src, store, g, id, Settled(src, g, id));
    SettlePresence(src, store, replaced, g, id);
  }

  lemma SettlePresence(src: Source, store: map<StreamId, Entry>, replaced: set<StreamId>, g: string, id: StreamId)
    requires PresentIffOwed(src, store, replaced) && g in src.groups && id in src.groups[g].pending
    ensures PresentIffOwed(Settled(src, g, id), store, replaced)
  {
    var t := Settled(src, g, id);
    forall x | x in store ensures x in t.entries <==> Owed(t.groups, x) && x !in replaced {
      if x != id {
        SettleOwed(src.groups, g, id, x);
      } else {
        assert Owes(src.groups[g], id);
      }
    }
  }

  // ---------------------------------------------------------------- reclaiming

  /** A reclaim drops a pending entry only if a replacing replay deleted it. */
  lemma ClaimDropsReplaced(names: set<string>, max: nat, src: Source, store: map<StreamId, Entry>,
                           replaced: set<StreamId>, g: string, id: StreamId)
    requires SourceOk(names, max, src, store, replaced) && g in src.groups
    ensures Claim(src, g, id) ==
            if id in src.groups[g].pending && id in replaced then Settled(src, g, id) else src
  {
    if id in src.groups[g].pending {
      PendingPresent(names, max, src, store, replaced, g, id);
      if id in replaced { RemoveNone(src.entries, id); }
    }
  }

  // ---------------------------------------------------------------- retrying a failure record

  lemma AddThenRemove(m: map<StreamId, Entry>, id: StreamId, e: Entry, gone: StreamId)
    requires id != gone
    ensures m[id := e] - {gone} == (m - {gone})[id := e]
  {
  }

  /** A successful failure retry settles the source entry and adds the copy, in that order. */
  lemma RetryIsSettleThenAdd(sv: Server, g: string, rec: StreamId, max: nat, id: StreamId)
    requires RetryFailure(sv, g, rec, max, id).1.RetryOk? && sv.failures.entries[rec].original != Some(id)
    ensures rec in sv.failures.entries && sv.failures.entries[rec].original.Some?
    ensures g in sv.source.groups && sv.failures.entries[rec].original.value in sv.source.groups[g].pending
    ensures RetryFailure(sv, g, rec, max, id).0.source ==
            Add(Settled(sv.source, g, sv.failures.entries[rec].original.value), id, Bare(sv.failures.entries[rec].body))
  {
    var e := sv.failures.entries[rec];
    AddThenRemove(sv.source.entries, id, Bare(e.body), e.original.value);
  }

  /** The length the script admits the copy against. */
  ghost function CountedLength(src: Source, g: string, original: StreamId): int
    requires g in src.groups
  {
    |src.entries| - if Owed(Release(src.groups, g, original), original) then 0 else 1
  }

  lemma RetryIsAdmitted(sv: Server, g: string, rec: StreamId, max: nat, id: StreamId)
    requires RetryFailure(sv, g, rec, max, id).1.RetryOk?
    ensures rec in sv.failures.entries && sv.failures.entries[rec].original.Some? && g in sv.source.groups
    ensures CountedLength(sv.source, g, sv.failures.entries[rec].original.value) < max
  {
  }

  /**
   The script subtracts the source entry before it is deleted. That is right
   while pending entries are present; a replaced one makes it one too many.
   */
  lemma RetryFailureKeeps(names: set<string>, max: nat, sv: Server, store: map<StreamId, Entry>,
                          replaced: set<StreamId>, g: string, rec: StreamId, id: StreamId)
    requires SourceOk(names, max, sv.source, store, replaced) && Less(sv.source.lastId, id)
    requires RetryFailure(sv, g, rec, max, id).1.RetryOk?
    ensures rec in sv.failures.entries
    ensures SourceOk(names, max, RetryFailure(sv, g, rec, max, id).0.source,
                     store[id := Bare(sv.failures.entries[rec].body)], replaced)
  {
    RetryIsAdmitted(sv, g, rec, max, id);
    var original := sv.failures.entries[rec].original.value;
    assert GroupOk(sv.source.groups[g], sv.source, store) && original in store;
    RetryIsSettleThenAdd(sv, g, rec, max, id);
    PendingPresent(names, max, sv.source, store, replaced, g, original);
    SettledLength(sv.source, g, original);
    SettleKeeps(names, max, sv.source, store, replaced, g, original);
    AddKeeps(names, max, Settled(sv.source, g, original), store, replaced, id, Bare(sv.failures.entries[rec].body));
  }

  /** The retry miscounts: it succeeds on a full stream by subtracting an entry that is not there. */
  ghost predicate Miscounts(sv: Server, g: string, rec: StreamId, max: nat, id: StreamId)
  {
    && RetryFailure(sv, g, rec, max, id).1.RetryOk? && |sv.source.entries| == max
    && sv.failures.entries[rec].original.value !in sv.source.entries
    && !Owed(Release(sv.source.groups, g, sv.failures.entries[rec].original.value),
             sv.failures.entries[rec].original.value)
  }

  /** From within the capacity, a failure retry leaves it exactly when it miscounts. */
  lemma RetryOverflowsExactly(sv: Server, g: string, rec: StreamId, max: nat, id: StreamId)
    requires |sv.source.entries| <= max && id !in sv.source.entries
    requires rec in sv.failures.entries ==> sv.failures.entries[rec].original != Some(id)
    ensures |RetryFailure(sv, g, rec, max, id).0.source.entries| <= max <==> !Miscounts(sv, g, rec, max, id)
  {
    if RetryFailure(sv, g, rec, max, id).1.RetryOk? {
      RetryIsAdmitted(sv, g, rec, max, id);
      RetryIsSettleThenAdd(sv, g, rec, max, id);
      SettledLength(sv.source, g, sv.failures.entries[rec].original.value);
    }
  }

  // ---------------------------------------------------------------- replay

  function Without(src: Source, id: StreamId): Source { src.(entries := src.entries - {id}) }

  lemma DropGroups(src: Source, store: map<StreamId, Entry>, prior: StreamId)
    requires GroupsOk(src, store) && Known(src, store)
    ensures GroupsOk(Without(src, prior), store) && Known(Without(src, prior), store)
  {
    forall g | g in src.groups ensures GroupOk(src.groups[g], Without(src, prior), store) {
      assert GroupOk(src.groups[g], src, store);
    }
  }

  lemma DropPresent(src: Source, store: map<StreamId, Entry>, replaced: set<StreamId>, prior: StreamId)
    requires PresentIffOwed(src, store, replaced)
    ensures PresentIffOwed(Without(src, prior), store, replaced + {prior})
  {
  }

  lemma DropKeeps(names: set<string>, max: nat, src: Source, store: map<StreamId, Entry>, replaced: set<StreamId>,
                  prior: StreamId)
    requires SourceOk(names, max, src, store, replaced) && prior in src.entries
    ensures SourceOk(names, max, Without(src, prior), store, replaced + {prior})
    ensures |Without(src, prior).entries| == |src.entries| - 1
  {
    RemoveOne(src.entries, prior);
    DropGroups(src, store, prior);
    DropPresent(src, store, replaced, prior);
  }

  /** A successful replay adds a copy, after deleting the one it replaces. */
  lemma ReplayIsDropThenAdd(sv: Server, key: ReplayKey, policy: ReplayPolicy, max: nat, id: StreamId,
                            evicted: set<ReplayKey>)
    requires Replay(sv, key, policy, max, id, evicted).1.ReplayOk?
    ensures var t := Replay(sv, key, policy, max, id, evicted).0.source; var gone := Replaced(sv, key, policy);
      && id in t.entries
      && t == Add(if gone.Some? then Without(sv.source, gone.value) else sv.source, id, t.entries[id])
      && |sv.source.entries| - (if gone.Some? then 1 else 0) < max
  {
    if key in sv.registry && sv.registry[key] !in sv.source.entries {
      RemoveNone(sv.source.entries, sv.registry[key]);
    }
  }

  lemma ReplayKeeps(names: set<string>, max: nat, sv: Server, store: map<StreamId, Entry>, replaced: set<StreamId>,
                    key: ReplayKey, policy: ReplayPolicy, id: StreamId, evicted: set<ReplayKey>)
    requires SourceOk(names, max, sv.source, store, replaced) && Less(sv.source.lastId, id)
    requires Replay(sv, key, policy, max, id, evicted).1.ReplayOk?
    ensures var t := Replay(sv, key, policy, max, id, evicted).0.source; var gone := Replaced(sv, key, policy);
      && id in t.entries
      && SourceOk(names, max, t, store[id := t.entries[id]], if gone.Some? then replaced + {gone.value} else replaced)
  {
    ReplayIsDropThenAdd(sv, key, policy, max, id, evicted);
    var t := Replay(sv, key, policy, max, id, evicted).0.source;
    var gone := Replaced(sv, key, policy);
    if gone.Some? {
      DropKeeps(names, max, sv.source, store, replaced, gone.value);
      AddKeeps(names, max, Without(sv.source, gone.value), store, replaced + {gone.value}, id, t.entries[id]);
    } else {
      AddKeeps(names, max, sv.source, store, replaced, id, t.entries[id]);
    }
  }

  /**
   A replay keeps every owed entry exactly when it deletes nothing: a registered
   copy that is still in the stream is still owed.
   */
  lemma ReplayKeepsExactly(names: set<string>, max: nat, sv: Server, store: map<StreamId, Entry>, key: ReplayKey,
                           policy: ReplayPolicy, id: StreamId, evicted: set<ReplayKey>)
    requires SourceOk(names, max, sv.source, store, {}) && Less(sv.source.lastId, id)
    requires Replay(sv, key, policy, max, id, evicted).1.ReplayOk?
    ensures var t := Replay(sv, key, policy, max, id, evicted).0.source;
      && id in t.entries
      && (SourceOk(names, max, t, store[id := t.entries[id]], {}) <==> Replaced(sv, key, policy).None?)
  {
    ReplayKeeps(names, max, sv, store, {}, key, policy, id, evicted);
    ReplayIsDropThenAdd(sv, key, policy, max, id, evicted);
    var t := Replay(sv, key, policy, max, id, evicted).0.source;
    var gone := Replaced(sv, key, policy);
    if gone.Some? { DeletedWhileOwed(sv.source, store, gone.value, id, t.entries[id], t); }
  }

  lemma DeletedWhileOwed(src: Source, store: map<StreamId, Entry>, prior: StreamId, id: StreamId, e: Entry, t: Source)
    requires Known(src, store) && PresentIffOwed(src, store, {}) && prior in src.entries && Less(src.lastId, id)
    requires t == Add(Without(src, prior), id, e)
    ensures Owed(t.groups, prior) && prior !in t.entries && !PresentIffOwed(t, store[id := e], {})
  {
    assert prior in store[id := e] && prior != id;
  }

  /** Whatever it deletes, a replay by itself never takes the stream over its capacity. */
  lemma ReplayWithinCapacity(max: nat, sv: Server, key: ReplayKey, policy: ReplayPolicy, id: StreamId,
                             evicted: set<ReplayKey>)
    requires |sv.source.entries| <= max
    ensures |Replay(sv, key, policy, max, id, evicted).0.source.entries| <= max
  {
    if Replay(sv, key, policy, max, id, evicted).1.ReplayOk? {
      ReplayIsDropThenAdd(sv, key, policy, max, id, evicted);
      var gone := Replaced(sv, key, policy);
      if gone.Some? { RemoveOne(sv.source.entries, gone.value); }
    }
  }

  lemma RegistersCopy(sv: Server, key: ReplayKey, policy: ReplayPolicy, max: nat, id: StreamId,
                      evicted: set<ReplayKey>)
    requires Replay(sv, key, policy, max, id, evicted).1.ReplayOk?
    ensures var after := Replay(sv, key, policy, max, id, evicted).0;
      after.registry == sv.registry[key := id] - evicted && after.dead == sv.dead && after.failures == sv.failures
  {
  }

  lemma SecondReplay(sv: Server, key: ReplayKey, policy: ReplayPolicy, max: nat, id: StreamId,
                     evicted: set<ReplayKey>, after: Server, next: StreamId, dropped: set<ReplayKey>)
    requires Replay(sv, key, policy, max, id, evicted).1.ReplayOk? && key in after.registry
    requires after.dead == sv.dead && after.failures == sv.failures
    ensures Replay(after, key, RejectDuplicate, max, next, dropped) == (after, Duplicate)
  {
  }

  /**
   The replay registry: a replayed record is remembered unless it was dropped, a
   second rejecting replay of it changes nothing, and the registry stays bounded.
   */
  lemma ReplayIsRemembered(sv: Server, key: ReplayKey, policy: ReplayPolicy, max: nat, id: StreamId,
                           evicted: set<ReplayKey>, next: StreamId, dropped: set<ReplayKey>)
    requires Replay(sv, key, policy, max, id, evicted).1.ReplayOk?
    requires Evicts(sv.registry[key := id], max, evicted)
    ensures var after := Replay(sv, key, policy, max, id, evicted).0;
      && |after.registry| <= max
      && (key !in evicted ==> key in after.registry && after.registry[key] == id)
      && (key !in evicted ==> Replay(after, key, RejectDuplicate, max, next, dropped) == (after, Duplicate))
      && (forall k :: k in sv.registry && k != key && k !in evicted ==>
            k in after.registry && after.registry[k] == sv.registry[k])
  {
    RegistersCopy(sv, key, policy, max, id, evicted);
    Shrinks(sv.registry[key := id], evicted);
    if key !in evicted {
      SecondReplay(sv, key, policy, max, id, evicted, Replay(sv, key, policy, max, id, evicted).0, next, dropped);
    }
  }

  lemma Shrinks(m: map<ReplayKey, StreamId>, gone: set<ReplayKey>)
    requires gone <= m.Keys
    ensures |m - gone| == |m| - |gone|
  {
    assert (m - gone).Keys == m.Keys - gone;
    assert |m.Keys - gone| == |m.Keys| - |gone|;
  }
}
