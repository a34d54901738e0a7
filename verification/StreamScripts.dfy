/**
 The scripts as they run: over state they update in place, walking the consumer
 groups one by one and comparing identifiers as text. Each one is proved to do
 what its function in StreamServer says.
 */
module StreamScripts {
  import opened StreamIds
  import opened StreamServer
  import opened StreamCommands

  ghost predicate Distinct(keys: seq<ReplayKey>)
  {
    forall i, j :: 0 <= i < j < |keys| ==> keys[i] != keys[j]
  }

  /** `ranked` lists the registered keys as the sorted set orders them: by the time of their replay. */
  ghost predicate Ranked(times: map<ReplayKey, nat>, ranked: seq<ReplayKey>)
  {
    && Distinct(ranked) && (forall i :: 0 <= i < |ranked| ==> ranked[i] in times)
    && (forall k :: k in times ==> k in ranked)
    && (forall i, j :: 0 <= i < j < |ranked| ==> times[ranked[i]] <= times[ranked[j]])
  }

  ghost function Elements(keys: seq<ReplayKey>): set<ReplayKey> { set k | k in keys }

  lemma {:induction false} DistinctSize(keys: seq<ReplayKey>)
    requires Distinct(keys)
    ensures |Elements(keys)| == |keys|
  {
    if keys == [] {
    } else {
      var init, last := keys[..|keys| - 1], keys[|keys| - 1];
      DistinctSize(init);
      assert keys == init + [last];
      assert last !in init;
      assert Elements(keys) == Elements(init) + {last};
    }
  }

  lemma RankedSize(times: map<ReplayKey, nat>, ranked: seq<ReplayKey>)
    requires Ranked(times, ranked)
    ensures |ranked| == |times|
  {
    DistinctSize(ranked);
    assert Elements(ranked) == times.Keys;
  }

  lemma OldestFirst(times: map<ReplayKey, nat>, ranked: seq<ReplayKey>, n: nat, a: ReplayKey, b: ReplayKey)
    requires Ranked(times, ranked) && n <= |ranked| && a in ranked[..n] && b in times && b !in ranked[..n]
    ensures a in times && times[a] <= times[b]
  {
    var i :| 0 <= i < n && ranked[i] == a;
    assert b in ranked;
    var j :| 0 <= j < |ranked| && ranked[j] == b;
  }

  lemma RemoveMore<V>(m: map<ReplayKey, V>, gone: set<ReplayKey>, k: ReplayKey)
    ensures (m - gone) - {k} == m - (gone + {k})
  {
  }

  lemma OneMore(keys: seq<ReplayKey>, i: nat)
    requires i < |keys|
    ensures Elements(keys[..i + 1]) == Elements(keys[..i]) + {keys[i]}
  {
    assert keys[..i + 1] == keys[..i] + [keys[i]];
  }

  lemma PrefixElements(times: map<ReplayKey, nat>, ranked: seq<ReplayKey>, n: nat)
    requires Ranked(times, ranked) && n <= |ranked|
    ensures Elements(ranked[..n]) <= times.Keys && |Elements(ranked[..n])| == n
  {
    DistinctSize(ranked[..n]);
  }

  /** Every dropped key is registered, and no later than any key that stays. */
  ghost predicate DropsOldest(before: map<ReplayKey, nat>, after: map<ReplayKey, nat>, evicted: set<ReplayKey>)
  {
    forall a, b :: a in evicted && b in after ==> a in before && before[a] <= after[b]
  }

  class Scripts {
    var source: Source
    var failures: Log
    var dead: Log
    var registry: map<ReplayKey, StreamId>
    var times: map<ReplayKey, nat>

    /** The hash and the sorted set of the replay registry hold the same keys. */
    ghost predicate Valid()
      reads this
    {
      times.Keys == registry.Keys
    }

    ghost function Model(): Server
      reads this
    {
      Server(source, failures, dead, registry)
    }

    constructor (groups: map<string, Group>)
      ensures Model() == Server(Source(map[], ZeroId, groups), Log(map[], ZeroId), Log(map[], ZeroId), map[]) && Valid()
    {
      source := Source(map[], ZeroId, groups);
      failures, dead, registry, times := Log(map[], ZeroId), Log(map[], ZeroId), map[], map[];
    }

    /** `order` is the order in which XINFO GROUPS lists the groups. */
    method AcknowledgeScript(g: string, id: StreamId, order: seq<string>) returns (r: AckOutcome)
      requires forall n :: n in order <==> n in source.groups
      modifies this`source
      ensures (source, r) == Acknowledge(old(source), g, id)
    {
      if g !in source.groups || id !in source.groups[g].pending { return LeaseLost; }
      source := source.(groups := Release(source.groups, g, id));
      ghost var released := source;
      assert forall n :: n in order <==> n in released.groups;
      for k := 0 to |order|
        invariant source == released
        invariant forall j :: 0 <= j < k ==> !Owes(released.groups[order[j]], id)
      {
        assert order[k] in released.groups;
        var grp := source.groups[order[k]];
        if id in grp.pending { return Retained; }
        var before := IsBefore(Format(grp.last), Format(id));
        IsBeforeOnIds(grp.last, id);
        if before.None? || before.value { return Retained; }
      }
      source := source.(entries := source.entries - {id});
      return Deleted;
    }

    /** The walk of retryRecordScript that decides whether the source entry goes. */
    method Deletable(g: string, id: StreamId, order: seq<string>) returns (deletable: bool)
      requires forall n :: n in order <==> n in source.groups
      requires g in source.groups && id in source.groups[g].pending
      ensures deletable == !Owed(Release(source.groups, g, id), id)
    {
      ghost var gs := Release(source.groups, g, id);
      deletable := true;
      for k := 0 to |order|
        invariant deletable && forall j :: 0 <= j < k ==> !Owes(gs[order[j]], id)
      {
        var grp := source.groups[order[k]];
        if order[k] != g {
          assert gs[order[k]] == grp;
          if id in grp.pending {
            deletable := false;
            break;
          }
        }
        var before := IsBefore(Format(grp.last), Format(id));
        IsBeforeOnIds(grp.last, id);
        if before.None? || before.value {
          deletable := false;
          assert order[k] in gs && Owes(gs[order[k]], id);
          break;
        }
      }
    }

    /** Adds the copy, then releases the source entry and deletes it if nobody else is owed it. */
    method AddThenSettle(g: string, original: StreamId, id: StreamId, copy: Entry, deletable: bool)
      requires g in source.groups
      modifies this`source
      ensures var added := old(source).entries[id := copy];
        source == Source(if deletable then added - {original} else added, id, Release(old(source).groups, g, original))
    {
      source := source.(entries := source.entries[id := copy], lastId := id);
      source := source.(groups := Release(source.groups, g, original));
      if deletable { source := source.(entries := source.entries - {original}); }
    }

    method RetryFailureScript(g: string, rec: StreamId, max: nat, id: StreamId, order: seq<string>)
      returns (r: RetryOutcome)
      requires forall n :: n in order <==> n in source.groups
      modifies this`source, this`failures
      ensures (Model(), r) == RetryFailure(old(Model()), g, rec, max, id)
      ensures r.RetryOk? <==> Retriable(old(Model()), g, rec) && RetryFits(old(Model()), g, rec, max)
      ensures forall x :: x != rec || !r.RetryOk? ==> SameAt(old(failures), failures, x)
    {
      RetryFailureExactly(Model(), g, rec, max, id);
      if rec !in failures.entries { return NotFound; }
      var e := failures.entries[rec];
      if e.body.None? || e.original.None? { return Malformed; }
      var original := e.original.value;
      if g !in source.groups { return NoGroup; }
      if original !in source.groups[g].pending { return Stale; }
      var deletable := Deletable(g, original, order);
      var length := |source.entries|;
      if deletable { length := length - 1; }
      if length >= max { return RetryCapacity; }
      AddThenSettle(g, original, id, Bare(e.body), deletable);
      failures := failures.(entries := failures.entries - {rec});
      return RetryOk;
    }

    method RetryDeadScript(rec: StreamId, max: nat, id: StreamId) returns (r: RetryOutcome)
      modifies this`source, this`dead
      ensures (Model(), r) == RetryDead(old(Model()), rec, max, id)
      ensures r.RetryOk? <==> Requeuable(old(Model()), rec) && |old(source).entries| < max
      ensures forall x :: x != rec || !r.RetryOk? ==> SameAt(old(dead), dead, x)
    {
      RetryDeadExactly(Model(), rec, max, id);
      if rec !in dead.entries { return NotFound; }
      var e := dead.entries[rec];
      if e.body.None? || e.original.None? { return Malformed; }
      var next := NextLineage(rec, e.fields);
      if next.None? { return Malformed; }
      if |source.entries| >= max { return RetryCapacity; }
      source := source.(entries := source.entries[id := Requeued(e, rec, next.value)], lastId := id);
      dead := dead.(entries := dead.entries - {rec});
      return RetryOk;
    }

    /** One script for both logs; the caller says which one the record is in. */
    method RetryRecordScript(inDead: bool, g: string, rec: StreamId, max: nat, id: StreamId, order: seq<string>)
      returns (r: RetryOutcome)
      requires forall n :: n in order <==> n in source.groups
      modifies this`source, this`failures, this`dead
      ensures (Model(), r) == if inDead then RetryDead(old(Model()), rec, max, id)
                              else RetryFailure(old(Model()), g, rec, max, id)
      ensures !r.RetryOk? ==> Model() == old(Model())
      ensures r.RetryOk? ==> source.lastId == id && rec !in (if inDead then dead else failures).entries
      ensures if inDead then failures == old(failures) else dead == old(dead)
      ensures forall x :: x != rec ==> SameAt(old(failures), failures, x) && SameAt(old(dead), dead, x)
    {
      RetryFailureExactly(Model(), g, rec, max, id);
      RetryDeadExactly(Model(), rec, max, id);
      if inDead {
        r := RetryDeadScript(rec, max, id);
      } else {
        r := RetryFailureScript(g, rec, max, id, order);
      }
    }

    /**
     `now` is the server's time and `ranked` the order of the sorted set once this
     key is in it. `evicted` are the registrations the script drops: as many as
     exceed the bound, and none newer than one that stays.
     */
    method ReplayScript(key: ReplayKey, policy: ReplayPolicy, max: nat, id: StreamId, now: nat, ranked: seq<ReplayKey>)
      returns (r: ReplayOutcome, ghost evicted: set<ReplayKey>)
      requires Valid() && Ranked(times[key := now], ranked)
      modifies this`source, this`registry, this`times
      ensures Valid()
      ensures (Model(), r) == Replay(old(Model()), key, policy, max, id, evicted)
      ensures failures == old(failures) && dead == old(dead) && (!r.ReplayOk? ==> Model() == old(Model()))
      ensures r.ReplayOk? <==> Replays(old(Model()), key, policy, max)
      ensures r.ReplayOk? ==> Evicts(old(registry)[key := id], max, evicted)
      ensures r.ReplayOk? ==> DropsOldest(old(times)[key := now], times, evicted)
    {
      evicted := {};
      ReplayExactly(Model(), key, policy, max, id, evicted);
      var log := if key.dead then dead else failures;
      if key.record !in log.entries { return ReplayNotFound, evicted; }
      var e := log.entries[key.record];
      if e.body.None? { return ReplayMalformed, evicted; }
      var next := NextLineage(key.record, e.fields);
      if next.None? { return ReplayMalformed, evicted; }
      if key in registry && policy.RejectDuplicate? { return Duplicate, evicted; }
      var length := |source.entries|;
      if key in registry && registry[key] in source.entries { length := length - 1; }
      if length >= max { return ReplayCapacity, evicted; }
      AddReplacing(key, id, Requeued(e, key.record, next.value));
      evicted := Register(key, id, max, now, ranked);
      return ReplayOk, evicted;
    }

    /** Deletes the registered copy, if any, and adds the new one. */
    method AddReplacing(key: ReplayKey, id: StreamId, copy: Entry)
      modifies this`source
      ensures source == Add(if key in registry then old(source).(entries := old(source).entries - {registry[key]})
                            else old(source), id, copy)
    {
      if key in registry { source := source.(entries := source.entries - {registry[key]}); }
      source := source.(entries := source.entries[id := copy], lastId := id);
    }

    method Register(key: ReplayKey, id: StreamId, max: nat, now: nat, ranked: seq<ReplayKey>)
      returns (ghost evicted: set<ReplayKey>)
      requires Valid() && Ranked(times[key := now], ranked)
      modifies this`registry, this`times
      ensures Valid() && Evicts(old(registry)[key := id], max, evicted)
      ensures registry == old(registry)[key := id] - evicted
      ensures DropsOldest(old(times)[key := now], times, evicted)
    {
      registry := registry[key := id];
      times := times[key := now];
      evicted := Evict(max, ranked);
    }

    /** The last part of the replay script: drops the oldest registrations beyond the bound. */
    method Evict(max: nat, ranked: seq<ReplayKey>) returns (ghost evicted: set<ReplayKey>)
      requires Valid() && Ranked(times, ranked)
      modifies this`registry, this`times
      ensures Valid() && Evicts(old(registry), max, evicted)
      ensures registry == old(registry) - evicted && times == old(times) - evicted
      ensures DropsOldest(old(times), times, evicted)
    {
      RankedSize(times, ranked);
      assert |times| == |times.Keys| && |registry| == |registry.Keys|;
      var excess := |times| - max;
      evicted := {};
      var i := 0;
      assert registry - {} == registry && times - {} == times;
      while i < excess
        invariant 0 <= i && (i <= excess || i == 0)
        invariant evicted == Elements(ranked[..i])
        invariant registry == old(registry) - evicted && times == old(times) - evicted
      {
        OneMore(ranked, i);
        RemoveMore(old(registry), evicted, ranked[i]);
        RemoveMore(old(times), evicted, ranked[i]);
        registry := registry - {ranked[i]};
        times := times - {ranked[i]};
        evicted := evicted + {ranked[i]};
        i := i + 1;
      }
      PrefixElements(old(times), ranked, i);
      forall a, b | a in evicted && b in times ensures a in old(times) && old(times)[a] <= times[b] {
        OldestFirst(old(times), ranked, i, a, b);
      }
    }
  }
}
