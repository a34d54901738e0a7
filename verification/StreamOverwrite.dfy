/**
 A loss by replacement, as a run from the start. A dead letter is replayed and its
 stream purged; a second body is dead-lettered under the same identifier; replaying
 that one with replacement deletes the first body's only copy.
 */
module StreamOverwrite {
  import opened StreamIds
  import opened StreamServer
  import opened StreamWorld
  import opened StreamConservation
  import opened StreamLineage
  import opened StreamReplacement
  import opened Wrappers

  const Y := Body("y", 1)

  /** The second body's delivery, its dead letter, again record 1-0, and the copy replayed from it. */
  function SlotY(p: Phase): Slot { Slot("g", Delivery(I3, Y, Lineage("", "", 0), []), p) }

  function DeadY(): Entry { Entry(Some(Y), Some(I3), NoFields, [], Some("g")) }

  function CopyY(): Entry { Entry(Some(Y), None, LineageOf([I1]), [I1], None) }

  function DeadLogY(): Log { Log(map[I1 := DeadY()], I1) }

  function StoreY(): map<StreamId, Entry> { Store2()[I3 := Bare(Some(Y))] }

  const All: set<(string, StreamId)> := {("g", I1), ("g", I2), ("g", I3)}

  function HistY(delivered: set<(string, StreamId)>, departures: seq<Departure>): History
  {
    History(StoreY(), ["x", "y"], delivered, {}, {}, departures, {})
  }

  /** The record stream is empty again; the first body is only in its replayed copy. */
  function Purged(): World
  {
    World(Server(Src(map[I2 := Copy()], I2, Group(I1, {})), NoLog, NoLog, map[Key := I2]), [Slot1(Ended)],
          Hist(Store2(), {("g", I1)}, Gone1, {}))
  }

  lemma ReachPurged()
    ensures Reachable(C(2), Purged())
  {
    ReachReplayed(2);
    assert [Slot1(Ended)] + [] == [Slot1(Ended)];
    Then(C(2), Replayed(Group(I1, {}), [], NoLog, {("g", I1)}), PurgeDead, Purged());
  }

  /** Both copies are in the source. */
  function Two(g: Group, slots: seq<Slot>, dead: Log, delivered: set<(string, StreamId)>): World
  {
    World(Server(Src(map[I2 := Copy(), I3 := Bare(Some(Y))], I3, g), NoLog, dead, map[Key := I2]), slots,
          HistY(delivered, Gone1))
  }

  lemma ReachTwo()
    ensures Reachable(C(2), Two(Group(I1, {}), [Slot1(Ended)], NoLog, {("g", I1)}))
  {
    ReachPurged();
    assert |Purged().sv.source.entries| == 1;
    assert ["x"] + ["y"] == ["x", "y"];
    Then(C(2), Purged(), Submit("y", I3), Two(Group(I1, {}), [Slot1(Ended)], NoLog, {("g", I1)}));
  }

  lemma BothRead()
    ensures var w := Two(Group(I1, {}), [Slot1(Ended)], NoLog, {("g", I1)});
      && Enabled(C(2), w, DoRead("g", I3))
      && Apply(C(2), w, DoRead("g", I3)) == Two(Group(I3, {I2, I3}), [Slot1(Ended)], NoLog, All)
  {
    var w := Two(Group(I1, {}), [Slot1(Ended)], NoLog, {("g", I1)});
    assert News(w.sv.source, "g", I3) == {I2, I3};
    assert {} + {I2, I3} == {I2, I3};
    assert {("g", I1)} + {("g", I2), ("g", I3)} == All;
  }

  lemma ReachUndecoded()
    ensures Reachable(C(2), Two(Group(I3, {I2, I3}), [Slot1(Ended), SlotY(Recorded)], NoLog, All))
  {
    ReachTwo();
    BothRead();
    var w := Two(Group(I3, {I2, I3}), [Slot1(Ended)], NoLog, All);
    Then(C(2), Two(Group(I1, {}), [Slot1(Ended)], NoLog, {("g", I1)}), DoRead("g", I3), w);
    var v := Two(Group(I3, {I2, I3}), [Slot1(Ended), SlotY(Held)], NoLog, All);
    assert w.hist.store[I3] == Bare(Some(Y));
    Then(C(2), w, Deliver("g", I3), v);
    Then(C(2), v, Undecodable(1), Two(Group(I3, {I2, I3}), [Slot1(Ended), SlotY(Recorded)], NoLog, All));
  }

  lemma ReachSecondDead()
    ensures Reachable(C(2), Two(Group(I3, {I2, I3}), [Slot1(Ended), SlotY(Appended)], DeadLogY(), All))
  {
    ReachUndecoded();
    var w := Two(Group(I3, {I2, I3}), [Slot1(Ended), SlotY(Recorded)], NoLog, All);
    assert NoLog.entries[I1 := DeadY()].Keys == {I1};
    assert Append(NoLog, I1, DeadY(), {I1}) == DeadLogY();
    Then(C(2), w, AppendDead(1, I1, {I1}), Two(Group(I3, {I2, I3}), [Slot1(Ended), SlotY(Appended)], DeadLogY(), All));
  }

  const Gone2: seq<Departure> := [Departure("g", I1, DeadLetterAck), Departure("g", I3, DeadLetterAck)]

  /** The second body is only in its dead letter, the first only in its copy. */
  function Apart(): World
  {
    World(Server(Src(map[I2 := Copy()], I3, Group(I3, {I2})), NoLog, DeadLogY(), map[Key := I2]),
          [Slot1(Ended), SlotY(Ended)], HistY(All, Gone2))
  }

  lemma SecondReleased()
    ensures var gs := Release(map["g" := Group(I3, {I2, I3})], "g", I3);
      gs == map["g" := Group(I3, {I2})] && !Owed(gs, I3)
    ensures map[I2 := Copy(), I3 := Bare(Some(Y))] - {I3} == map[I2 := Copy()]
  {
    assert {I2, I3} - {I3} == {I2};
    var gs := Release(map["g" := Group(I3, {I2, I3})], "g", I3);
    assert gs == map["g" := Group(I3, {I2})];
    forall n | n in gs ensures !Owes(gs[n], I3) {
    }
  }

  lemma ReachApart()
    ensures Reachable(C(2), Apart())
  {
    ReachSecondDead();
    SecondReleased();
    var w := Two(Group(I3, {I2, I3}), [Slot1(Ended), SlotY(Appended)], DeadLogY(), All);
    assert Gone1 + [Departure("g", I3, DeadLetterAck)] == Gone2;
    Then(C(2), w, Ack(1), Apart());
  }

  /** The replacing replay put the second body where the first was. */
  function Overwritten(): World
  {
    World(Server(Src(map[I4 := CopyY()], I4, Group(I3, {I2})), NoLog, DeadLogY(), map[Key := I4]),
          [Slot1(Ended), SlotY(Ended)],
          History(StoreY()[I4 := CopyY()], ["x", "y"], All, {}, {}, Gone2, {I2}))
  }

  lemma ReplaceWithSecond()
    ensures Replay(Apart().sv, Key, ReplaceDuplicate, 2, I4, {}) == (Overwritten().sv, ReplayOk)
  {
    NextLineageExtends(I1, []);
    assert [] + [I1] == [I1];
    var sv := Apart().sv;
    assert |sv.source.entries| == 1;
    assert sv.source.entries - {I2} == map[];
    assert sv.registry[Key := I4] - {} == map[Key := I4];
  }

  lemma ReplaceSecondEnabled()
    ensures Enabled(C(2), Apart(), ReplayRecord(Key, ReplaceDuplicate, I4, {}))
  {
    assert Apart().sv.registry[Key := I4] == map[Key := I4];
    assert |Apart().sv.registry[Key := I4]| == 1;
  }

  lemma SecondReplaces()
    ensures Apply(C(2), Apart(), ReplayRecord(Key, ReplaceDuplicate, I4, {})) == Overwritten()
  {
    ReplaceWithSecond();
    ReplacesFirst(Apart().sv);
    ApplyReplay(C(2), Apart(), Key, ReplaceDuplicate, I4, {}, Overwritten().sv);
  }

  lemma SafeInCopy()
    ensures Safe(Apart(), "g", 0)
  {
    assert Holds(Apart(), Apart().sv.source.entries[I2], 0) && Owes(Apart().sv.source.groups["g"], I2);
  }

  lemma NowhereSafe()
    ensures !Safe(Overwritten(), "g", 0)
  {
    var w := Overwritten();
    assert w.sv.source.entries.Keys == {I4} && w.sv.dead.entries.Keys == {I1};
    assert !Holds(w, w.sv.source.entries[I4], 0) && !Holds(w, w.sv.dead.entries[I1], 0);
  }

  /**
   The first body was safe until the last step and is nowhere after it: in no copy
   of the source, in no dead letter, and not acknowledged.
   */
  lemma ReplacementCanLose()
    ensures Reachable(C(2), Apart()) && Safe(Apart(), "g", 0)
    ensures Enabled(C(2), Apart(), ReplayRecord(Key, ReplaceDuplicate, I4, {}))
    ensures Apply(C(2), Apart(), ReplayRecord(Key, ReplaceDuplicate, I4, {})) == Overwritten()
    ensures Reachable(C(2), Overwritten()) && !Safe(Overwritten(), "g", 0)
  {
    ReachApart();
    SafeInCopy();
    ReplaceSecondEnabled();
    SecondReplaces();
    Then(C(2), Apart(), ReplayRecord(Key, ReplaceDuplicate, I4, {}), Overwritten());
    NowhereSafe();
  }
}
