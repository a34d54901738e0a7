/**
 What a replacing replay can do, as runs from the start: delete an entry a group
 is still owed, and, through a failure retry that miscounts it, take the source
 stream over its capacity.
 */
module StreamReplacement {
  import opened StreamIds
  import opened StreamServer
  import opened StreamSource
  import opened StreamWorld
  import opened StreamLineage
  import opened Wrappers

  lemma {:induction false} RunThen(c: Config, w: World, steps: seq<Step>, v: World, step: Step)
    requires Run(c, w, steps, v) && Enabled(c, v, step)
    ensures Run(c, w, steps + [step], Apply(c, v, step))
    decreases |steps|
  {
    if steps == [] {
      assert Run(c, Apply(c, v, step), [], Apply(c, v, step));
      assert steps + [step] == [step] && [step][1..] == [];
    } else {
      RunThen(c, Apply(c, w, steps[0]), steps[1..], v, step);
      assert (steps + [step])[1..] == steps[1..] + [step];
    }
  }

  lemma Then(c: Config, w: World, step: Step, v: World)
    requires Reachable(c, w) && Enabled(c, w, step) && Apply(c, w, step) == v
    ensures Reachable(c, v)
  {
    var steps :| Run(c, Initial(c), steps, w);
    RunThen(c, Initial(c), steps, w, step);
  }

  // ---------------------------------------------------------------- the values of the run

  /** One group, room for `m` entries, no retention limit. */
  function C(m: nat): Config { Config({"g"}, m, 0) }

  const I1 := Id(1, 0)

  const I2 := Id(2, 0)

  const I3 := Id(3, 0)

  const I4 := Id(4, 0)

  const B := Body("x", 0)

  const Key := ReplayKey(true, I1)

  /** The first delivery and its dead letter, which is record 1-0. */
  function Slot1(p: Phase): Slot { Slot("g", Delivery(I1, B, Lineage("", "", 0), []), p) }

  function Dead(): Entry { Entry(Some(B), Some(I1), NoFields, [], Some("g")) }

  /** A replayed copy of it. */
  function Copy(): Entry { Entry(Some(B), None, LineageOf([I1]), [I1], None) }

  /** The delivery of the first copy and its failure record. */
  function Slot2(p: Phase): Slot { Slot("g", Delivery(I2, B, LineageRead([I1]), [I1]), p) }

  function Failed(): Entry { Entry(Some(B), Some(I2), LineageOf([I1]), [I1], Some("g")) }

  function Hist(store: map<StreamId, Entry>, delivered: set<(string, StreamId)>, departures: seq<Departure>,
                replaced: set<StreamId>): History
  {
    History(store, ["x"], delivered, {}, {}, departures, replaced)
  }

  const Store1: map<StreamId, Entry> := map[I1 := Bare(Some(B))]

  function Store2(): map<StreamId, Entry> { Store1[I2 := Copy()] }

  const Gone1: seq<Departure> := [Departure("g", I1, DeadLetterAck)]

  const NoLog := Log(map[], ZeroId)

  function DeadLog(): Log { Log(map[I1 := Dead()], I1) }

  function FailedLog(): Log { Log(map[I1 := Failed()], I1) }

  function Src(entries: map<StreamId, Entry>, lastId: StreamId, g: Group): Source
  {
    Source(entries, lastId, map["g" := g])
  }

  lemma ReleasedByAll(id: StreamId)
    ensures var gs := Release(map["g" := Group(id, {id})], "g", id); gs == map["g" := Group(id, {})] && !Owed(gs, id)
  {
    assert {id} - {id} == {};
    var gs := Release(map["g" := Group(id, {id})], "g", id);
    assert gs == map["g" := Group(id, {})];
    forall n | n in gs ensures !Owes(gs[n], id) {
    }
  }

  // ---------------------------------------------------------------- a dead letter, replayed once

  function Submitted(): World
  {
    World(Server(Src(Store1, I1, Group(ZeroId, {})), NoLog, NoLog, map[]), [], Hist(Store1, {}, [], {}))
  }

  lemma ReachSubmitted(m: nat)
    requires m >= 1
    ensures Reachable(C(m), Submitted())
  {
    assert Run(C(m), Initial(C(m)), [], Initial(C(m)));
    assert Initial(C(m)).sv.source.groups == map["g" := Group(ZeroId, {})];
    Then(C(m), Initial(C(m)), Submit("x", I1), Submitted());
  }

  function Taken(slots: seq<Slot>, dead: Log): World
  {
    World(Server(Src(Store1, I1, Group(I1, {I1})), NoLog, dead, map[]), slots, Hist(Store1, {("g", I1)}, [], {}))
  }

  lemma ReachTaken(m: nat)
    requires m >= 1
    ensures Reachable(C(m), Taken([], NoLog))
  {
    ReachSubmitted(m);
    assert News(Submitted().sv.source, "g", I1) == {I1};
    Then(C(m), Submitted(), DoRead("g", I1), Taken([], NoLog));
  }

  lemma ReachHeld(m: nat)
    requires m >= 1
    ensures Reachable(C(m), Taken([Slot1(Recorded)], NoLog))
  {
    ReachTaken(m);
    Then(C(m), Taken([], NoLog), Deliver("g", I1), Taken([Slot1(Held)], NoLog));
    Then(C(m), Taken([Slot1(Held)], NoLog), Undecodable(0), Taken([Slot1(Recorded)], NoLog));
  }

  lemma ReachDead(m: nat)
    requires m >= 1
    ensures Reachable(C(m), Taken([Slot1(Appended)], DeadLog()))
  {
    ReachHeld(m);
    var w := Taken([Slot1(Recorded)], NoLog);
    assert NoLog.entries[I1 := Dead()].Keys == {I1};
    assert Append(NoLog, I1, Dead(), {I1}) == DeadLog();
    Then(C(m), w, AppendDead(0, I1, {I1}), Taken([Slot1(Appended)], DeadLog()));
  }

  /** The first entry left the source; what is left is its dead letter. */
  function Buried(): World
  {
    World(Server(Src(map[], I1, Group(I1, {})), NoLog, DeadLog(), map[]), [Slot1(Ended)],
          Hist(Store1, {("g", I1)}, Gone1, {}))
  }

  lemma ReachBuried(m: nat)
    requires m >= 1
    ensures Reachable(C(m), Buried())
  {
    ReachDead(m);
    var w := Taken([Slot1(Appended)], DeadLog());
    ReleasedByAll(I1);
    assert Store1 - {I1} == map[];
    Then(C(m), w, Ack(0), Buried());
  }

  /** Its first replay is in the source, the group at position `g`. */
  function Replayed(g: Group, slots: seq<Slot>, failures: Log, delivered: set<(string, StreamId)>): World
  {
    World(Server(Src(map[I2 := Copy()], I2, g), failures, DeadLog(), map[Key := I2]), [Slot1(Ended)] + slots,
          Hist(Store2(), delivered, Gone1, {}))
  }

  lemma CopyOfDead(sv: Server, policy: ReplayPolicy, id: StreamId, m: nat)
    requires sv.dead == DeadLog() && Key !in sv.registry && |sv.source.entries| < m
    ensures Replay(sv, Key, policy, m, id, {}) ==
            (sv.(source := sv.source.(entries := sv.source.entries[id := Copy()], lastId := id),
                 registry := sv.registry[Key := id]), ReplayOk)
  {
    NextLineageExtends(I1, []);
    assert [] + [I1] == [I1];
    assert sv.registry[Key := id] - {} == sv.registry[Key := id];
  }

  lemma ReachReplayed(m: nat)
    requires m >= 1
    ensures Reachable(C(m), Replayed(Group(I1, {}), [], NoLog, {("g", I1)}))
  {
    ReachBuried(m);
    CopyOfDead(Buried().sv, RejectDuplicate, I2, m);
    assert |Buried().sv.registry[Key := I2]| == 1;
    Then(C(m), Buried(), ReplayRecord(Key, RejectDuplicate, I2, {}), Replayed(Group(I1, {}), [], NoLog, {("g", I1)}));
  }

  // ---------------------------------------------------------------- replaced

  /** The first copy was replaced by a second one. */
  function ReplacedBy(g: Group, slots: seq<Slot>, failures: Log, delivered: set<(string, StreamId)>): World
  {
    World(Server(Src(map[I3 := Copy()], I3, g), failures, DeadLog(), map[Key := I3]), [Slot1(Ended)] + slots,
          Hist(Store2()[I3 := Copy()], delivered, Gone1, {I2}))
  }

  lemma ReplaceCopy(sv: Server, g: Group, m: nat)
    requires m >= 1
    requires sv.dead == DeadLog() && sv.registry == map[Key := I2] && sv.source == Src(map[I2 := Copy()], I2, g)
    ensures Replay(sv, Key, ReplaceDuplicate, m, I3, {}) ==
            (sv.(source := Src(map[I3 := Copy()], I3, g), registry := map[Key := I3]), ReplayOk)
  {
    NextLineageExtends(I1, []);
    assert [] + [I1] == [I1];
    assert |sv.source.entries| == 1;
    assert sv.source.entries - {I2} == map[];
    assert sv.registry[Key := I3] - {} == map[Key := I3];
  }

  lemma ReplaceIsEnabled(w: World, m: nat)
    requires m >= 1
    requires w.sv.source.lastId == I2 && w.sv.registry == map[Key := I2]
    ensures Enabled(C(m), w, ReplayRecord(Key, ReplaceDuplicate, I3, {}))
  {
    assert w.sv.registry[Key := I3] == map[Key := I3];
    assert |w.sv.registry[Key := I3]| == 1;
  }

  lemma ReachReplaced(g: Group, slots: seq<Slot>, failures: Log, delivered: set<(string, StreamId)>, m: nat)
    requires m >= 1
    requires Reachable(C(m), Replayed(g, slots, failures, delivered))
    ensures Reachable(C(m), ReplacedBy(g, slots, failures, delivered))
  {
    var w := Replayed(g, slots, failures, delivered);
    var v := ReplacedBy(g, slots, failures, delivered);
    var step := ReplayRecord(Key, ReplaceDuplicate, I3, {});
    ReplaceIsEnabled(w, m);
    ReplaceApplied(g, slots, failures, delivered, m);
    Then(C(m), w, step, v);
  }

  lemma ApplyReplay(c: Config, w: World, key: ReplayKey, policy: ReplayPolicy, id: StreamId, evicted: set<ReplayKey>,
                    sv: Server)
    requires Enabled(c, w, ReplayRecord(key, policy, id, evicted)) && id in sv.source.entries
    requires Replay(w.sv, key, policy, c.maxLength, id, evicted) == (sv, ReplayOk)
    ensures var v := Apply(c, w, ReplayRecord(key, policy, id, evicted)); var gone := Replaced(w.sv, key, policy);
      && v.sv == sv && v.slots == w.slots
      && v.hist == w.hist.(store := w.hist.store[id := sv.source.entries[id]],
                           replaced := w.hist.replaced + ReplacedIds(gone))
  {
  }

  lemma ReplaceApplied(g: Group, slots: seq<Slot>, failures: Log, delivered: set<(string, StreamId)>, m: nat)
    requires m >= 1
    requires Enabled(C(m), Replayed(g, slots, failures, delivered), ReplayRecord(Key, ReplaceDuplicate, I3, {}))
    ensures Apply(C(m), Replayed(g, slots, failures, delivered), ReplayRecord(Key, ReplaceDuplicate, I3, {})) ==
            ReplacedBy(g, slots, failures, delivered)
  {
    var w, v := Replayed(g, slots, failures, delivered), ReplacedBy(g, slots, failures, delivered);
    ReplaceCopy(w.sv, g, m);
    ApplyReplay(C(m), w, Key, ReplaceDuplicate, I3, {}, v.sv);
    ReplacesFirst(w.sv);
  }

  lemma ReplacesFirst(sv: Server)
    requires sv.registry == map[Key := I2] && I2 in sv.source.entries
    ensures Replaced(sv, Key, ReplaceDuplicate) == Some(I2) && ReplacedIds(Some(I2)) == {I2} && {} + {I2} == {I2}
  {
  }

  /** A replacing replay deletes an entry that a group is still owed. */
  lemma ReplacingReplayDeletesOwed() returns (w: World)
    ensures Reachable(C(1), w) && I2 in w.hist.store && I2 !in w.sv.source.entries && Owed(w.sv.source.groups, I2)
  {
    ReachReplayed(1);
    ReachReplaced(Group(I1, {}), [], NoLog, {("g", I1)}, 1);
    w := ReplacedBy(Group(I1, {}), [], NoLog, {("g", I1)});
    assert Owes(w.sv.source.groups["g"], I2);
  }

  // ---------------------------------------------------------------- and over capacity

  const Both: set<(string, StreamId)> := {("g", I1), ("g", I2)}

  lemma ReachCopyTaken(m: nat)
    requires m >= 1
    ensures Reachable(C(m), Replayed(Group(I2, {I2}), [], NoLog, Both))
  {
    ReachReplayed(m);
    CopyRead(m);
    Then(C(m), Replayed(Group(I1, {}), [], NoLog, {("g", I1)}), DoRead("g", I2),
         Replayed(Group(I2, {I2}), [], NoLog, Both));
  }

  lemma CopyRead(m: nat)
    requires m >= 1
    ensures var w := Replayed(Group(I1, {}), [], NoLog, {("g", I1)});
      Enabled(C(m), w, DoRead("g", I2)) && Apply(C(m), w, DoRead("g", I2)) == Replayed(Group(I2, {I2}), [], NoLog, Both)
  {
    var w := Replayed(Group(I1, {}), [], NoLog, {("g", I1)});
    assert News(w.sv.source, "g", I2) == {I2};
    assert {} + {I2} == {I2};
    assert {("g", I1)} + {("g", I2)} == Both;
  }

  lemma ReachCopyFailing(m: nat)
    requires m >= 1
    ensures Reachable(C(m), Replayed(Group(I2, {I2}), [Slot2(Failing)], NoLog, Both))
  {
    ReachCopyTaken(m);
    LineageRoundTrip([I1]);
    var w := Replayed(Group(I2, {I2}), [], NoLog, Both);
    assert w.hist.store[I2] == Copy();
    Then(C(m), w, Deliver("g", I2), Replayed(Group(I2, {I2}), [Slot2(Held)], NoLog, Both));
    Then(C(m), Replayed(Group(I2, {I2}), [Slot2(Held)], NoLog, Both), Handle(1, false),
         Replayed(Group(I2, {I2}), [Slot2(Failing)], NoLog, Both));
  }

  lemma ReachCopyFailed(m: nat)
    requires m >= 1
    ensures Reachable(C(m), Replayed(Group(I2, {I2}), [Slot2(Recorded)], FailedLog(), Both))
  {
    ReachCopyFailing(m);
    LineageRoundTrip([I1]);
    var w := Replayed(Group(I2, {I2}), [Slot2(Failing)], NoLog, Both);
    assert RecordOf(w.slots[1]) == Failed();
    assert NoLog.entries[I1 := Failed()].Keys == {I1};
    assert Append(NoLog, I1, Failed(), {I1}) == FailedLog();
    Then(C(m), w, RecordFailure(1, I1, {I1}), Replayed(Group(I2, {I2}), [Slot2(Recorded)], FailedLog(), Both));
  }

  lemma RetryMiscounts(sv: Server)
    requires sv.source == Src(map[I3 := Copy()], I3, Group(I2, {I2})) && sv.failures == FailedLog()
    ensures Miscounts(sv, "g", I1, 1, I4)
    ensures RetryFailure(sv, "g", I1, 1, I4).0.source.entries == map[I3 := Copy(), I4 := Bare(Some(B))]
  {
    ReleasedByAll(I2);
    assert |sv.source.entries| == 1;
    assert sv.source.entries[I4 := Bare(Some(B))] - {I2} == sv.source.entries[I4 := Bare(Some(B))];
  }

  /** With room for one entry, the source holds two. */
  lemma ReplacementOverflows() returns (w: World)
    ensures Reachable(C(1), w) && |w.sv.source.entries| == 2 > C(1).maxLength
  {
    ReachCopyFailed(1);
    ReachReplaced(Group(I2, {I2}), [Slot2(Recorded)], FailedLog(), Both, 1);
    var u := ReplacedBy(Group(I2, {I2}), [Slot2(Recorded)], FailedLog(), Both);
    RetryMiscounts(u.sv);
    w := Apply(C(1), u, RetryFailureRecord("g", I1, I4));
    Then(C(1), u, RetryFailureRecord("g", I1, I4), w);
    assert w.sv.source.entries.Keys == {I3, I4};
  }
}
