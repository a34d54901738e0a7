/**
 The server side of the stream queue: the source stream with its consumer
 groups, the failure and dead-letter streams, and the four atomic scripts of
 valkeystream/native_transport.go as functions on that state.

 A new identifier is chosen by the server above every earlier one of its stream,
 so it is a parameter of each appending operation.
 */
module StreamServer {
  import opened Texts
  import opened Wrappers
  import opened StreamIds

  /** `token` names the admission a body comes from; no operation looks at it. */
  datatype Body = Body(bytes: string, token: nat)

  /** job.DefaultMaxMessageBytes: what admission accepts, what decoding accepts and what a record may hold. */
  const MaxMessageBytes: nat := 1024 * 1024

  /** The three lineage fields as stored: text, each present or absent. */
  datatype LineageFields = LineageFields(original: Option<string>, prior: Option<string>, generation: Option<string>)

  const NoFields := LineageFields(None, None, None)

  /**
   The fields of an entry or record that some operation reads. A record names
   its source entry and the group whose delivery failed (`owner`). `chain` is
   history: the dead-letter identifiers this copy was re-queued from.
   */
  datatype Entry = Entry(body: Option<Body>, original: Option<StreamId>, fields: LineageFields, chain: seq<StreamId>,
                         owner: Option<string>)

  /** An entry with a body and nothing else, as enqueueing and failure retry add it. */
  function Bare(body: Option<Body>): Entry { Entry(body, None, NoFields, [], None) }

  datatype Group = Group(last: StreamId, pending: set<StreamId>)

  datatype Source = Source(entries: map<StreamId, Entry>, lastId: StreamId, groups: map<string, Group>)

  datatype Log = Log(entries: map<StreamId, Entry>, lastId: StreamId)

  datatype ReplayKey = ReplayKey(dead: bool, record: StreamId)

  datatype Server = Server(source: Source, failures: Log, dead: Log, registry: map<ReplayKey, StreamId>)

  // ---------------------------------------------------------------- who is owed an entry

  predicate Owes(g: Group, id: StreamId) { id in g.pending || Less(g.last, id) }

  /** Some group has the entry pending or has not been delivered past it. */
  ghost predicate Owed(gs: map<string, Group>, id: StreamId) { exists g :: g in gs && Owes(gs[g], id) }

  // ---------------------------------------------------------------- reading

  /** What a read up to `upto` delivers: everything present above the group's position. */
  function News(src: Source, g: string, upto: StreamId): set<StreamId>
    requires g in src.groups
  {
    set id | id in src.entries && Less(src.groups[g].last, id) && !Less(upto, id)
  }

  /** XREADGROUP: the news become pending and the position moves. */
  function Read(src: Source, g: string, upto: StreamId): Source
    requires g in src.groups
  {
    src.(groups := src.groups[g := Group(upto, src.groups[g].pending + News(src, g, upto))])
  }

  /** XAUTOCLAIM drops a pending entry that is no longer in the stream; others stay pending. */
  function Claim(src: Source, g: string, id: StreamId): Source
    requires g in src.groups
  {
    if id in src.groups[g].pending && id !in src.entries then src.(groups := Release(src.groups, g, id)) else src
  }

  // ---------------------------------------------------------------- enqueueScript

  function Add(src: Source, id: StreamId, e: Entry): Source
  {
    src.(entries := src.entries[id := e], lastId := id)
  }

  datatype EnqueueOutcome = Added | AtCapacity

  function Enqueue(src: Source, max: nat, e: Entry, id: StreamId): (r: (Source, EnqueueOutcome))
  {
    if |src.entries| >= max then (src, AtCapacity) else (Add(src, id, e), Added)
  }

  // ---------------------------------------------------------------- acknowledgeScript

  function Release(gs: map<string, Group>, g: string, id: StreamId): map<string, Group>
    requires g in gs
  {
    gs[g := gs[g].(pending := gs[g].pending - {id})]
  }

  datatype AckOutcome = LeaseLost | Retained | Deleted

  ghost function Acknowledge(src: Source, g: string, id: StreamId): (r: (Source, AckOutcome))
  {
    if g !in src.groups || id !in src.groups[g].pending then (src, LeaseLost)
    else
      var gs := Release(src.groups, g, id);
      if Owed(gs, id) then (src.(groups := gs), Retained)
      else (src.(groups := gs, entries := src.entries - {id}), Deleted)
  }

  // ---------------------------------------------------------------- lineage

  const MaxGeneration: nat := 0x1_0000_0000 - 1

  /** Lua's tonumber, on the digit strings these fields hold. */
  function ToNumber(s: string): Option<nat>
  {
    if s != [] && Digits(s) then Some(Value(s)) else None
  }

  predicate AnyLineage(f: LineageFields) { f.original.Some? || f.prior.Some? || f.generation.Some? }

  predicate FullLineage(f: LineageFields) { f.original.Some? && f.prior.Some? && f.generation.Some? }

  /** The lineage a re-queued copy of record `id` carries; None is `malformed`. */
  function NextLineage(id: StreamId, f: LineageFields): Option<LineageFields>
  {
    if AnyLineage(f) && !FullLineage(f) then None
    else
      var original := if AnyLineage(f) then f.original.value else Format(id);
      var generation := if AnyLineage(f) then ToNumber(f.generation.value) else Some(0);
      if generation.None? || (AnyLineage(f) && generation.value < 1) || generation.value >= MaxGeneration then None
      else if |original| > MaxIdentityBytes then None
      else Some(LineageFields(Some(original), Some(Format(id)), Some(Decimal(generation.value + 1))))
  }

  // ---------------------------------------------------------------- retryRecordScript

  datatype RetryOutcome = RetryOk | NotFound | Stale | Malformed | RetryCapacity | NoGroup

  /**
   A failure record: the source entry must still be pending for `g`. The new
   copy is admitted as if the source entry were already gone when it is going to
   be deleted.
   */
  ghost function RetryFailure(sv: Server, g: string, rec: StreamId, max: nat, id: StreamId): (r: (Server, RetryOutcome))
  {
    if rec !in sv.failures.entries then (sv, NotFound)
    else
      var e := sv.failures.entries[rec];
      if e.body.None? || e.original.None? then (sv, Malformed)
      else if g !in sv.source.groups then (sv, NoGroup)
      else if e.original.value !in sv.source.groups[g].pending then (sv, Stale)
      else
        var gs := Release(sv.source.groups, g, e.original.value);
        var deletable := !Owed(gs, e.original.value);
        var length := |sv.source.entries| - if deletable then 1 else 0;
        if length >= max then (sv, RetryCapacity)
        else
          var added := sv.source.entries[id := Bare(e.body)];
          (sv.(source := Source(if deletable then added - {e.original.value} else added, id, gs),
               failures := sv.failures.(entries := sv.failures.entries - {rec})), RetryOk)
  }

  function Requeued(e: Entry, rec: StreamId, f: LineageFields): Entry
  {
    Entry(e.body, None, f, e.chain + [rec], None)
  }

  function RetryDead(sv: Server, rec: StreamId, max: nat, id: StreamId): (r: (Server, RetryOutcome))
  {
    if rec !in sv.dead.entries then (sv, NotFound)
    else
      var e := sv.dead.entries[rec];
      if e.body.None? || e.original.None? then (sv, Malformed)
      else match NextLineage(rec, e.fields)
           case None => (sv, Malformed)
           case Some(f) =>
             if |sv.source.entries| >= max then (sv, RetryCapacity)
             else (sv.(source := Add(sv.source, id, Requeued(e, rec, f)),
                       dead := sv.dead.(entries := sv.dead.entries - {rec})), RetryOk)
  }

  // ---------------------------------------------------------------- replayRecordScript

  datatype ReplayPolicy = RejectDuplicate | ReplaceDuplicate

  datatype ReplayOutcome = ReplayOk | ReplayNotFound | ReplayMalformed | Duplicate | ReplayCapacity

  /** The registry keeps at most `max` keys; `evicted` are the ones it drops. */
  predicate Evicts(registry: map<ReplayKey, StreamId>, max: nat, evicted: set<ReplayKey>)
  {
    evicted <= registry.Keys && |evicted| == if |registry| > max then |registry| - max else 0
  }

  function Replay(sv: Server, key: ReplayKey, policy: ReplayPolicy, max: nat, id: StreamId, evicted: set<ReplayKey>)
    : (r: (Server, ReplayOutcome))
  {
    var log := if key.dead then sv.dead else sv.failures;
    if key.record !in log.entries then (sv, ReplayNotFound)
    else
      var e := log.entries[key.record];
      if e.body.None? then (sv, ReplayMalformed)
      else match NextLineage(key.record, e.fields)
           case None => (sv, ReplayMalformed)
           case Some(f) =>
             var prior := if key in sv.registry then Some(sv.registry[key]) else None;
             if prior.Some? && policy.RejectDuplicate? then (sv, Duplicate)
             else
               var present := prior.Some? && prior.value in sv.source.entries;
               var length := |sv.source.entries| - if present then 1 else 0;
               if length >= max then (sv, ReplayCapacity)
               else
                 var kept := if prior.Some? then sv.source.entries - {prior.value} else sv.source.entries;
                 (sv.(source := sv.source.(entries := kept[id := Requeued(e, key.record, f)], lastId := id),
                      registry := sv.registry[key := id] - evicted), ReplayOk)
  }

  /** The entry a replacing replay would delete. */
  function Replaced(sv: Server, key: ReplayKey, policy: ReplayPolicy): Option<StreamId>
  {
    if policy.ReplaceDuplicate? && key in sv.registry && sv.registry[key] in sv.source.entries
    then Some(sv.registry[key]) else None
  }

  // ---------------------------------------------------------------- records

  /** Exact trimming keeps the newest `limit` records; no limit keeps them all. */
  ghost predicate TrimsTo(entries: map<StreamId, Entry>, limit: nat, kept: set<StreamId>)
  {
    && kept <= entries.Keys
    && (limit == 0 || |entries| <= limit ==> kept == entries.Keys)
    && (limit > 0 && |entries| > limit ==> |kept| == limit)
    && forall a, b :: a in entries && a !in kept && b in kept ==> Less(a, b)
  }

  function Append(log: Log, id: StreamId, e: Entry, kept: set<StreamId>): Log
  {
    Log(map k | k in log.entries[id := e] && k in kept :: log.entries[id := e][k], id)
  }

  // ---------------------------------------------------------------- delivery parsing

  datatype Lineage = Lineage(original: string, prior: string, generation: nat)

  /** parseReplayLineage: generation zero stands for no lineage, None for an error. */
  function ParseLineage(f: LineageFields): Option<Lineage>
  {
    if !AnyLineage(f) then Some(Lineage("", "", 0))
    else if !FullLineage(f) then None
    else if Blank(f.original.value) || Blank(f.prior.value) then None
    else if |f.original.value| > MaxIdentityBytes || |f.prior.value| > MaxIdentityBytes then None
    else match ToNumber(f.generation.value)
         case None => None
         case Some(n) =>
           if n > MaxGeneration || n == 0 then None
           else Some(Lineage(f.original.value, f.prior.value, n))
  }

  /** appendRecord writes the lineage of a delivery only when its generation is positive. */
  function WriteLineage(l: Lineage): LineageFields
  {
    if l.generation > 0 then LineageFields(Some(l.original), Some(l.prior), Some(Decimal(l.generation))) else NoFields
  }
}
