/**
 Runs of the stream queue: producers, consumers and operators issuing one server
 command at a time, each of which may be the last thing a process ever does.

 A delivery in a process's hands is a slot. Its settlement (worker.go:313-394) is
 one or several commands: acknowledge after success; record the failure, append
 the dead letter, then acknowledge, after failure. A crash, a lost response or a
 delivery dropped on the way all end the slot wherever it stands.
 */
module StreamWorld {
  import opened Wrappers
  import opened StreamIds
  import opened StreamServer

  /** `recordLimit` zero is no retention limit. */
  datatype Config = Config(groups: set<string>, maxLength: nat, recordLimit: nat)

  ghost predicate ValidConfig(c: Config) { c.groups != {} && c.maxLength > 0 }

  datatype Delivery = Delivery(id: StreamId, body: Body, lineage: Lineage, chain: seq<StreamId>)

  datatype Phase =
    | Held          // decoded, its handler not finished
    | Succeeded     // the handler returned nil; Ack is next
    | Failing       // the handler failed; the failure record is next
    | Recorded      // recorded, or undecodable; the dead letter is next if terminal
    | Appended      // the dead letter was appended; the source Ack is next
    | Ended

  datatype Slot = Slot(group: string, delivery: Delivery, phase: Phase)

  /** The last one: a reclaim found the entry gone from the stream. */
  datatype How = HandlerAck | DeadLetterAck | RecordRetry | ReclaimDrop

  datatype Departure = Departure(group: string, id: StreamId, how: How)

  /**
   What happened so far. `store`: every source entry ever added. `bodies`: the
   bytes admitted, by token. `delivered`: (group, entry) handed out by a read.
   `acked`: (group, body) acknowledged after a successful handler. `departures`:
   how entries left a group's pending set. `replaced`: entries deleted by a
   replacing replay.
   */
  datatype History = History(store: map<StreamId, Entry>, bodies: seq<string>, delivered: set<(string, StreamId)>,
                             succeeded: set<(string, nat)>, acked: set<(string, nat)>, departures: seq<Departure>,
                             replaced: set<StreamId>)

  datatype World = World(sv: Server, slots: seq<Slot>, hist: History)

  function Initial(c: Config): World
  {
    World(Server(Source(map[], ZeroId, map g | g in c.groups :: Group(ZeroId, {})),
                 Log(map[], ZeroId), Log(map[], ZeroId), map[]),
          [], History(map[], [], {}, {}, {}, [], {}))
  }

  datatype Step =
    | Submit(bytes: string, id: StreamId)
    | DoRead(g: string, upto: StreamId)
    | DoClaim(g: string, id: StreamId)   // a scan of several entries is several of these
    | Deliver(g: string, id: StreamId)
    | Handle(i: nat, ok: bool)
    | Undecodable(i: nat)
    | RecordFailure(i: nat, id: StreamId, kept: set<StreamId>)
    | AppendDead(i: nat, id: StreamId, kept: set<StreamId>)
    | Ack(i: nat)
    | Crash(i: nat)
    | RetryFailureRecord(g: string, rec: StreamId, id: StreamId)
    | RetryDeadRecord(rec: StreamId, id: StreamId)
    | ReplayRecord(key: ReplayKey, policy: ReplayPolicy, id: StreamId, evicted: set<ReplayKey>)
    | DeleteFailure(rec: StreamId)
    | DeleteDead(rec: StreamId)
    | PurgeFailures
    | PurgeDead

  /** decode drops a body above its limit from the dead letter it writes. */
  function RecordedBody(b: Body): Body { if |b.bytes| > MaxMessageBytes then Body("", b.token) else b }

  function RecordOf(s: Slot): Entry
  {
    Entry(Some(RecordedBody(s.delivery.body)), Some(s.delivery.id), WriteLineage(s.delivery.lineage),
          s.delivery.chain, Some(s.group))
  }

  /**
   A delivery may reach a process at any time after a read handed it out: first
   deliveries, reclaims and responses that linger are all of this form.
   */
  ghost predicate Enabled(c: Config, w: World, step: Step)
  {
    match step
    case Submit(_, id) => Less(w.sv.source.lastId, id)
    case DoRead(g, upto) =>
      g in w.sv.source.groups && upto in w.sv.source.entries && Less(w.sv.source.groups[g].last, upto)
    case DoClaim(g, _) => g in w.sv.source.groups
    case Deliver(g, id) =>
      && (g, id) in w.hist.delivered && g in w.sv.source.groups && id in w.hist.store
      && w.hist.store[id].body.Some? && ParseLineage(w.hist.store[id].fields).Some?
    case Handle(i, _) =>
      i < |w.slots| && w.slots[i].phase.Held? && |w.slots[i].delivery.body.bytes| <= MaxMessageBytes
    case Undecodable(i) => i < |w.slots| && w.slots[i].phase.Held?
    case RecordFailure(i, id, kept) =>
      && i < |w.slots| && w.slots[i].phase.Failing? && Less(w.sv.failures.lastId, id)
      && TrimsTo(w.sv.failures.entries[id := RecordOf(w.slots[i])], c.recordLimit, kept)
    case AppendDead(i, id, kept) =>
      && i < |w.slots| && w.slots[i].phase.Recorded? && Less(w.sv.dead.lastId, id)
      && TrimsTo(w.sv.dead.entries[id := RecordOf(w.slots[i])], c.recordLimit, kept)
    case Ack(i) => i < |w.slots| && (w.slots[i].phase.Succeeded? || w.slots[i].phase.Appended?)
    case Crash(i) => i < |w.slots|
    case RetryFailureRecord(_, _, id) => Less(w.sv.source.lastId, id)
    case RetryDeadRecord(_, id) => Less(w.sv.source.lastId, id)
    case ReplayRecord(key, policy, id, evicted) =>
      && Less(w.sv.source.lastId, id)
      && Evicts(w.sv.registry[key := id], c.maxLength, evicted)
    case _ => true
  }

  function SetPhase(slots: seq<Slot>, i: nat, p: Phase): seq<Slot>
    requires i < |slots|
  {
    slots[i := slots[i].(phase := p)]
  }

  predicate Carries(e: Entry, k: nat) { e.body.Some? && e.body.value.token == k }

  function ReplacedIds(gone: Option<StreamId>): set<StreamId> { if gone.Some? then {gone.value} else {} }

  function Delivered(h: History, g: string, ids: set<StreamId>): History
  {
    h.(delivered := h.delivered + set id | id in ids :: (g, id))
  }

  /** The new source entry `id`, if the command added one, becomes part of the store. */
  function Stored(h: History, sv: Server, id: StreamId): History
  {
    if id in sv.source.entries then h.(store := h.store[id := sv.source.entries[id]]) else h
  }

  ghost function AfterAck(w: World, i: nat): World
    requires i < |w.slots|
  {
    var s := w.slots[i];
    var (src, out) := Acknowledge(w.sv.source, s.group, s.delivery.id);
    var how := if s.phase.Succeeded? then HandlerAck else DeadLetterAck;
    World(w.sv.(source := src), SetPhase(w.slots, i, Ended),
          if out.LeaseLost? then w.hist
          else w.hist.(departures := w.hist.departures + [Departure(s.group, s.delivery.id, how)],
                       acked := if s.phase.Succeeded? then w.hist.acked + {(s.group, s.delivery.body.token)}
                                else w.hist.acked))
  }

  ghost function Apply(c: Config, w: World, step: Step): World
    requires Enabled(c, w, step)
  {
    match step
    case Submit(bytes, id) =>
      var e := Bare(Some(Body(bytes, |w.hist.bodies|)));
      var (src, out) := Enqueue(w.sv.source, c.maxLength, e, id);
      if |bytes| > MaxMessageBytes || !out.Added? then w
      else w.(sv := w.sv.(source := src),
              hist := w.hist.(store := w.hist.store[id := e], bodies := w.hist.bodies + [bytes]))
    case DoRead(g, upto) =>
      w.(sv := w.sv.(source := Read(w.sv.source, g, upto)),
         hist := Delivered(w.hist, g, News(w.sv.source, g, upto)))
    case DoClaim(g, id) =>
      var src := Claim(w.sv.source, g, id);
      w.(sv := w.sv.(source := src),
         hist := if src == w.sv.source then w.hist
                 else w.hist.(departures := w.hist.departures + [Departure(g, id, ReclaimDrop)]))
    case Deliver(g, id) =>
      var e := w.hist.store[id];
      w.(slots := w.slots + [Slot(g, Delivery(id, e.body.value, ParseLineage(e.fields).value, e.chain), Held)])
    case Handle(i, ok) =>
      var s := w.slots[i];
      w.(slots := SetPhase(w.slots, i, if ok then Succeeded else Failing),
         hist := if ok then w.hist.(succeeded := w.hist.succeeded + {(s.group, s.delivery.body.token)}) else w.hist)
    case Undecodable(i) => w.(slots := SetPhase(w.slots, i, Recorded))
    case RecordFailure(i, id, kept) =>
      w.(sv := w.sv.(failures := Append(w.sv.failures, id, RecordOf(w.slots[i]), kept)),
         slots := SetPhase(w.slots, i, Recorded))
    case AppendDead(i, id, kept) =>
      w.(sv := w.sv.(dead := Append(w.sv.dead, id, RecordOf(w.slots[i]), kept)),
         slots := SetPhase(w.slots, i, Appended))
    case Ack(i) => AfterAck(w, i)
    case Crash(i) => w.(slots := SetPhase(w.slots, i, Ended))
    case RetryFailureRecord(g, rec, id) =>
      var (sv, out) := RetryFailure(w.sv, g, rec, c.maxLength, id);
      if out.RetryOk?
      then w.(sv := sv,
              hist := Stored(w.hist, sv, id).(departures := w.hist.departures +
                [Departure(g, w.sv.failures.entries[rec].original.value, RecordRetry)]))
      else w
    case RetryDeadRecord(rec, id) =>
      var (sv, out) := RetryDead(w.sv, rec, c.maxLength, id);
      if out.RetryOk? then w.(sv := sv, hist := Stored(w.hist, sv, id)) else w
    case ReplayRecord(key, policy, id, evicted) =>
      var (sv, out) := Replay(w.sv, key, policy, c.maxLength, id, evicted);
      var gone := Replaced(w.sv, key, policy);
      if out.ReplayOk? && id in sv.source.entries
      then w.(sv := sv,
              hist := w.hist.(store := w.hist.store[id := sv.source.entries[id]],
                              replaced := w.hist.replaced + ReplacedIds(gone)))
      else w
    case DeleteFailure(rec) =>
      w.(sv := w.sv.(failures := w.sv.failures.(entries := w.sv.failures.entries - {rec})))
    case DeleteDead(rec) => w.(sv := w.sv.(dead := w.sv.dead.(entries := w.sv.dead.entries - {rec})))
    case PurgeFailures => w.(sv := w.sv.(failures := Log(map[], ZeroId)))
    case PurgeDead => w.(sv := w.sv.(dead := Log(map[], ZeroId)))
  }

  ghost predicate Run(c: Config, w: World, steps: seq<Step>, v: World)
    decreases |steps|
  {
    if steps == [] then v == w
    else Enabled(c, w, steps[0]) && Run(c, Apply(c, w, steps[0]), steps[1..], v)
  }

  ghost predicate Reachable(c: Config, w: World)
  {
    exists steps :: Run(c, Initial(c), steps, w)
  }
}
