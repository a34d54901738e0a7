/** Desired-state reconciliation (management/desired.go) on top of the lifecycle's revision records. */
module Reconciler {
  import opened Wrappers
  import opened Texts
  import opened Lifecycle

  datatype Kind = QueueKind | WorkerKind | GroupKind | OtherKind(text: string)

  datatype Target = Target(kind: Kind, name: string)

  /** No `state` is an unsupported one; `changedAt` zero is the zero time. */
  datatype Record = Record(target: Target, state: Option<DesiredState>, revision: nat, changedAt: int,
                           commandId: string)

  const MaxTargets: nat := 256

  predicate DesiredTarget(t: Target) { !InvalidIdentity(t.name) && !t.kind.OtherKind? }

  predicate ValidRecord(r: Record)
  {
    DesiredTarget(r.target) && r.state.Some? && r.revision > 0 && r.changedAt != 0 && !InvalidIdentity(r.commandId)
  }

  // ---------------------------------------------------------------- the applier

  datatype ApplyResult = Applied | InvalidOutput | Mismatch | InvalidTransition | Regression | Conflict | ContextEnded

  /** How waiting for the admission boundary ends. */
  datatype Wait = Boundary | Expires(deadline: bool)

  /** The parts of the worker lifecycle that ApplyDesiredState reads and writes, besides the counters it waits on. */
  class Applier {
    const queue: string
    const worker: string
    const group: string
    var state: DesiredState
    var drainTimedOut: bool
    var records: map<Target, Record>

    constructor (queue: string, worker: string, group: string)
      ensures state == Active && !drainTimedOut && records == map[]
    {
      this.queue, this.worker, this.group := queue, worker, group;
      state, drainTimedOut, records := Active, false, map[];
    }

    predicate Matches(t: Target)
    {
      match t.kind
      case QueueKind => t.name == queue
      case WorkerKind => t.name == worker
      case GroupKind => t.name == group
      case OtherKind(_) => false
    }

    predicate ValidTargetState(t: Target, s: DesiredState)
    {
      match t.kind
      case QueueKind => s == Active || s == Paused
      case WorkerKind => s == Draining || s == Terminating
      case GroupKind => true
      case OtherKind(_) => false
    }

    /** A valid record for this queue, worker or group, asking for a state such a target can be put in. */
    ghost predicate Addressed(r: Record)
    {
      ValidRecord(r) &&
      match r.target
      case Target(QueueKind, name) => name == queue && r.state in {Some(Active), Some(Paused)}
      case Target(WorkerKind, name) => name == worker && r.state in {Some(Draining), Some(Terminating)}
      case Target(GroupKind, name) => name == group
      case _ => false
    }

    /** Nothing is recorded for the target, or an older revision. */
    ghost predicate Newer(r: Record)
      reads this
    {
      r.target in records ==> records[r.target].revision < r.revision
    }

    /** The record moves the lifecycle: it is addressed to it, new, and does not leave termination. */
    ghost predicate Moves(r: Record)
      reads this
    {
      Addressed(r) && Newer(r) && (state == Terminating ==> r.state == Some(Terminating))
    }

    /** The wait for the boundary can end early; a return to active does not wait. */
    ghost predicate CutOff(r: Record, wait: Wait) { wait.Expires? && r.state != Some(Active) }

    /** A revision is recorded exactly when applied; older or conflicting ones change nothing. */
    method ApplyDesiredState(r: Record, wait: Wait) returns (out: ApplyResult)
      modifies this
      ensures records == if out.Applied? then old(records)[r.target := r] else old(records)
      ensures out.Applied? && r.target in old(records) ==>
                r == old(records[r.target]) || old(records[r.target]).revision < r.revision
      ensures out.Regression? || out.Conflict? ==>
                r.target in old(records) && r.revision <= old(records[r.target]).revision && r != old(records[r.target])
      ensures old(state) == Terminating ==> state == Terminating
      ensures out.Applied? ==> ValidRecord(r) && Matches(r.target) && ValidTargetState(r.target, r.state.value)
      ensures out.Applied? && records != old(records) ==> Some(state) == r.state
      ensures out.Applied? <==> || (Addressed(r) && r.target in old(records) && old(records[r.target]) == r)
                                || (old(Moves(r)) && !CutOff(r, wait))
      ensures out.ContextEnded? <==> old(Moves(r)) && CutOff(r, wait)
      ensures out.Regression? <==> Addressed(r) && r.target in old(records) &&
                                   r.revision < old(records[r.target]).revision
      ensures out.Conflict? <==> Addressed(r) && r.target in old(records) && r != old(records[r.target]) &&
                                 r.revision == old(records[r.target]).revision
      ensures if old(Moves(r)) then Some(state) == r.state && (drainTimedOut <==> CutOff(r, wait) && wait.deadline)
              else state == old(state) && drainTimedOut == old(drainTimedOut)
    {
      if !ValidRecord(r) { return InvalidOutput; }
      if !Matches(r.target) { return Mismatch; }
      if !ValidTargetState(r.target, r.state.value) { return InvalidTransition; }
      if r.target in records {
        var current := records[r.target];
        if r.revision < current.revision { return Regression; }
        if r.revision == current.revision {
          return if r != current then Conflict else Applied;
        }
      }
      if state == Terminating && r.state.value != Terminating { return InvalidTransition; }
      state, drainTimedOut := r.state.value, false;
      if wait.Expires? && r.state.value != Active {
        if wait.deadline { drainTimedOut := true; }
        return ContextEnded;
      }
      records := records[r.target := r];
      return Applied;
    }
  }

  // ---------------------------------------------------------------- the reconciler

  datatype Reading = Found(record: Record) | Missing | Unreadable

  datatype Outcome = Reconciled | ReadFailed | InvalidReading | Regressed | Conflicting | ApplyFailed(why: ApplyResult)

  /** The target already stands where the reading puts it. */
  predicate Stands(applied: map<Target, Record>, t: Target, reading: Reading)
  {
    reading.Missing? || (reading.Found? && t in applied && applied[t] == reading.record)
  }

  predicate Proper(t: Target, r: Record) { ValidRecord(r) && r.target == t }

  ghost predicate SameAt(a: map<Target, Record>, b: map<Target, Record>, t: Target)
  {
    (t in a <==> t in b) && (t in a ==> a[t] == b[t])
  }

  /** Records are only added, or replaced by records of a higher revision. */
  ghost predicate Advances(a: map<Target, Record>, b: map<Target, Record>)
  {
    forall t :: t in a ==> t in b && (b[t] == a[t] || a[t].revision < b[t].revision)
  }

  ghost predicate Distinct(targets: seq<Target>)
  {
    forall i, j :: 0 <= i < j < |targets| ==> targets[i] != targets[j]
  }

  ghost predicate Usable(targets: seq<Target>)
  {
    0 < |targets| <= MaxTargets && Distinct(targets) && forall i :: 0 <= i < |targets| ==> DesiredTarget(targets[i])
  }

  class DesiredStateReconciler {
    const applier: Applier
    const targets: seq<Target>
    var applied: map<Target, Record>

    constructor (applier: Applier, targets: seq<Target>)
      requires Usable(targets)
      ensures this.applier == applier && this.targets == targets && applied == map[] && Valid()
    {
      this.applier, this.targets, applied := applier, targets, map[];
    }

    ghost predicate Valid()
      reads this
    {
      && Distinct(targets) && (forall i :: 0 <= i < |targets| ==> DesiredTarget(targets[i]))
      && forall t :: t in applied ==> ValidRecord(applied[t]) && applied[t].target == t
    }

    /** While nobody else applies revisions, this holds: nothing is applied that is not remembered, and conversely. */
    ghost predicate Mirrors()
      reads this, applier
    {
      applied == applier.records
    }

    /** The body of the loop, for one target. */
    method ReconcileTarget(target: Target, reading: Reading, wait: Wait) returns (out: Outcome, ghost called: bool)
      requires Valid()
      modifies this, applier
      ensures Valid()
      ensures out.Reconciled? <==> Stands(applied, target, reading)
      ensures !out.Reconciled? ==> applied == old(applied)
      ensures forall t :: t != target ==> SameAt(old(applied), applied, t)
      ensures Advances(old(applied), applied)
      ensures old(Mirrors()) ==> Mirrors()
      ensures old(Mirrors()) && out.ApplyFailed? ==> out.why != Regression && out.why != Conflict
      ensures Stands(old(applied), target, reading) ==>
                !called && applied == old(applied) && applier.records == old(applier.records)
      ensures called && out.Reconciled? ==>
                target !in old(applied) || old(applied[target]).revision < applied[target].revision
      ensures out.ReadFailed? <==> reading.Unreadable?
      ensures out.InvalidReading? <==> reading.Found? && !Proper(target, reading.record)
      ensures reading.Found? && Proper(target, reading.record) ==>
                var r := reading.record;
                && (called <==> target !in old(applied) || old(applied[target]).revision < r.revision)
                && (out.Regressed? <==> target in old(applied) && r.revision < old(applied[target]).revision)
                && (out.Conflicting? <==> target in old(applied) && r != old(applied[target]) &&
                                          r.revision == old(applied[target]).revision)
    {
      called := false;
      if reading.Missing? { return Reconciled, called; }
      if reading.Unreadable? { return ReadFailed, called; }
      var record := reading.record;
      if !Proper(target, record) { return InvalidReading, called; }
      if target in applied && record.revision < applied[target].revision { return Regressed, called; }
      if target in applied && record.revision == applied[target].revision {
        return if record != applied[target] then Conflicting else Reconciled, called;
      }
      called := true;
      var result := applier.ApplyDesiredState(record, wait);
      if result != Applied { return ApplyFailed(result), called; }
      applied := applied[target := record];
      return Reconciled, called;
    }

    /**
     One pass in target order. `upto` is the first target not dealt with, `calls`
     the number of applications attempted. Everything before `upto` stands where
     its reading puts it; everything from `upto` on, and every other target, is
     untouched. A pass over targets that all stand already applies nothing.
     */
    method Reconcile(read: Target -> Reading, wait: Target -> Wait) returns (out: Outcome, upto: nat, ghost calls: nat)
      requires Valid()
      modifies this, applier
      ensures Valid()
      ensures upto <= |targets| && (out.Reconciled? <==> upto == |targets|)
      ensures forall i :: 0 <= i < upto ==> Stands(applied, targets[i], read(targets[i]))
      ensures upto < |targets| ==> !Stands(applied, targets[upto], read(targets[upto]))
      ensures forall t :: t !in targets[..upto] ==> SameAt(old(applied), applied, t)
      ensures Advances(old(applied), applied)
      ensures old(Mirrors()) ==> Mirrors()
      ensures old(Mirrors()) && out.ApplyFailed? ==> out.why != Regression && out.why != Conflict
      ensures AllStand(old(applied), targets, read) ==>
                out.Reconciled? && calls == 0 && applied == old(applied) && applier.records == old(applier.records)
    {
      upto, calls := 0, 0;
      while upto < |targets|
        invariant upto <= |targets| && Valid()
        invariant forall i :: 0 <= i < upto ==> Stands(applied, targets[i], read(targets[i]))
        invariant forall t :: t !in targets[..upto] ==> SameAt(old(applied), applied, t)
        invariant Advances(old(applied), applied)
        invariant old(Mirrors()) ==> Mirrors()
        invariant AllStand(old(applied), targets, read) ==>
                    calls == 0 && applied == old(applied) && applier.records == old(applier.records)
      {
        var target := targets[upto];
        ghost var called;
        ghost var before := applied;
        out, called := ReconcileTarget(target, read(target), wait(target));
        if called { calls := calls + 1; }
        if !out.Reconciled? { return; }
        assert forall i :: 0 <= i < upto ==> targets[i] != target && SameAt(before, applied, targets[i]);
        forall t | t !in targets[..upto + 1] ensures SameAt(old(applied), applied, t) {
          assert targets[..upto + 1] == targets[..upto] + [target];
          assert SameAt(old(applied), before, t) && SameAt(before, applied, t);
        }
        upto := upto + 1;
      }
      out := Reconciled;
    }
  }

  ghost predicate AllStand(applied: map<Target, Record>, targets: seq<Target>, read: Target -> Reading)
  {
    forall i :: 0 <= i < |targets| ==> Stands(applied, targets[i], read(targets[i]))
  }

  /** NewDesiredStateReconciler refuses empty, oversized, unsupported and repeated target lists, and only those. */
  method NewReconciler(applier: Applier, targets: seq<Target>) returns (r: Option<DesiredStateReconciler>)
    ensures r.Some? <==> Usable(targets)
    ensures r.Some? ==> fresh(r.value) && r.value.Valid() && r.value.applied == map[] && r.value.targets == targets &&
                        r.value.applier == applier
  {
    if |targets| == 0 || |targets| > MaxTargets { return None; }
    var seen: set<Target> := {};
    for i := 0 to |targets|
      invariant forall t :: t in seen <==> t in targets[..i]
      invariant Distinct(targets[..i])
      invariant forall j :: 0 <= j < i ==> DesiredTarget(targets[j])
    {
      if !DesiredTarget(targets[i]) { return None; }
      if targets[i] in seen {
        var j :| 0 <= j < i && targets[j] == targets[i];
        return None;
      }
      seen := seen + {targets[i]};
      assert targets[..i + 1] == targets[..i] + [targets[i]];
    }
    assert targets[..|targets|] == targets;
    var created := new DesiredStateReconciler(applier, targets);
    return Some(created);
  }
}
