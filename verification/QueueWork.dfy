/** One task's execution (queue.go:310-547): the retry loop, its failure's normal form and the settlement. */
module QueueWork {
  import opened Texts
  import opened Classifier

  // ---------------------------------------------------------------- normal form of a handler failure

  /** errors.Is for one of the two context errors: the whole tree is searched, without a bound. */
  predicate Has(e: Error, target: Error)
    decreases e
  {
    e == target ||
    match e
    case Failure(_, _, cause) => Has(cause, target)
    case Joined(errs) => exists i :: 0 <= i < |errs| && Has(errs[i], target)
    case Wrapped(err) => Has(err, target)
    case _ => false
  }

  function CodeOf(err: Error): string
  {
    if Has(err, DeadlineExceeded) then "handler_deadline_exceeded"
    else if Has(err, ContextCanceled) then "handler_canceled"
    else if Resolve(err).code == "" then "handler_failed"
    else Resolve(err).code
  }

  function Normalize(err: Error): Error
  {
    if err == NoError then NoError else Failure(Resolve(err).classification, CodeOf(err), err)
  }

  lemma {:induction false} VisitsMore(stack: seq<Error>, budget: nat)
    ensures Visits(stack, budget) <= Visits(stack, budget + 1)
    decreases budget
  {
    if stack == [] || budget == 0 {
    } else {
      var rest, top := stack[..|stack| - 1], stack[|stack| - 1];
      VisitsMore(rest + Children(top), budget - 1);
    }
  }

  lemma CandidatesOfPrefix(a: seq<Error>, b: seq<Error>)
    requires a <= b
    ensures Candidates(a) <= Candidates(b)
  {
    forall x | x in Candidates(a) ensures x in Candidates(b) {
      var i :| 0 <= i < |a| && x == Candidate(a[i]);
      assert x == Candidate(b[i]);
    }
  }

  predicate Usable(code: string) { code == "" || !InvalidIdentity(code) }

  lemma FoundCodeIsUsable(nodes: seq<Error>)
    ensures Usable(Fold(nodes).code)
  {
    FoldIsBest(nodes);
    assert "deadline_exceeded"[0] == 'd' && "context_canceled"[0] == 'c';
  }

  lemma StartsWithLetter(code: string)
    requires code != "" && 'a' <= code[0] <= 'z' && |code| <= MaxIdentityBytes
    ensures !InvalidIdentity(code)
  {
  }

  lemma CodeIsValid(err: Error)
    ensures ValidFailure(Resolve(err).classification, CodeOf(err))
  {
    FoundCodeIsUsable(Visits([err], VisitLimit));
    FoldIsBest(Visits([err], VisitLimit));
    StartsWithLetter("handler_deadline_exceeded");
    StartsWithLetter("handler_canceled");
    StartsWithLetter("handler_failed");
  }

  /** A failure that repeats the best classification, put above part of what was found, is still the best. */
  lemma BestAbove(r: Resolution, s: Resolution, all: set<Resolution>, below: set<Resolution>, code: string)
    requires AllSound(all) && Sound(r) && Sound(s) && code != ""
    requires Best(r, all) && below <= all && Best(s, below + {Resolution(r.classification, code)})
    ensures s.classification == r.classification
    ensures code == r.code || r.code == "" ==> s.code == code
  {
    var top := Resolution(r.classification, code);
    assert !Above(top, s);
    assert s in below ==> !Above(s, r);
    TextTotal(s.code, code);
  }

  /** Classifying `err` again below a failure that says what its walk found changes nothing. */
  lemma WrapKeeps(err: Error, code: string, n: nat)
    requires ValidFailure(Fold(Visits([err], n + 1)).classification, code)
    ensures var r := Fold(Visits([err], n + 1)); var s := Fold(Visits([Failure(r.classification, code, err)], n + 1));
      && s.classification == r.classification
      && (code == r.code || r.code == "" ==> s.code == code)
  {
    var all, below := Visits([err], n + 1), Visits([err], n);
    var f := Failure(Fold(all).classification, code, err);
    assert [f][..0] + Children(f) == [err];
    VisitsMore([err], n);
    CandidatesOfPrefix(below, all);
    CandidatesMore(below, f);
    CandidatesSound(all);
    FoldIsBest(all);
    FoldIsBest([f] + below);
    BestAbove(Fold(all), Fold([f] + below), Candidates(all), Candidates(below), code);
  }

  /** The failure that settlement and observers see keeps the classification, whatever the size of the error. */
  lemma NormalizeKeepsClassification(err: Error)
    requires err != NoError
    ensures Resolve(Normalize(err)).classification == Resolve(err).classification
    ensures Normalize(err).Failure? && Normalize(err).cause == err
    ensures Has(err, DeadlineExceeded) ==> Normalize(err).code == "handler_deadline_exceeded"
    ensures !Has(err, DeadlineExceeded) && Has(err, ContextCanceled) ==> Normalize(err).code == "handler_canceled"
    ensures !Has(err, DeadlineExceeded) && !Has(err, ContextCanceled) ==>
              Resolve(Normalize(err)).code == if Resolve(err).code == "" then "handler_failed" else Resolve(err).code
  {
    CodeIsValid(err);
    WrapKeeps(err, CodeOf(err), 63);
  }

  lemma {:induction false} HasIsFound(e: Error, target: Error)
    requires (target == DeadlineExceeded || target == ContextCanceled) && Has(e, target)
    ensures Candidate(target) in Found(e)
    decreases e
  {
    if e != target {
      match e
      case Failure(_, _, cause) => HasIsFound(cause, target);
      case Wrapped(err) => HasIsFound(err, target);
      case Joined(errs) =>
        var i :| 0 <= i < |errs| && Has(errs[i], target);
        HasIsFound(errs[i], target);
        assert errs[i] in multiset(errs);
        FoundIn(errs, Candidate(target));
    }
  }

  /** A code of the walk itself comes before the code its normal form would add. */
  lemma CodeStands(r: Resolution, leaf: string, code: string)
    requires TextBefore(leaf, code) && !Above(Resolution(r.classification, leaf), r) && leaf != ""
    ensures !Above(Resolution(r.classification, code), r)
  {
    TextTotal(leaf, r.code);
    TextTotal(code, r.code);
    if TextBefore(code, r.code) { TextTransitive(leaf, code, r.code); }
  }

  lemma WholeTree(err: Error, n: nat)
    requires Size(err) <= n
    ensures Candidates(Visits([err], n)) == Found(err)
  {
    Single(err);
    VisitsAll([err], n);
  }

  lemma TopVisit(f: Error, n: nat)
    requires f.Failure?
    ensures Visits([f], n + 1) == [f] + Visits([f.cause], n)
  {
    assert [f][..0] + Children(f) == [f.cause];
  }

  lemma BestWithTop(r: Resolution, s: Resolution, found: set<Resolution>, top: Resolution)
    requires AllSound(found) && Sound(top) && Best(r, found) && !Above(top, r) && Best(s, found + {top})
    ensures s == r
  {
    BestIsUnique(r, s, found + {top});
  }

  lemma WrapKeepsAll(err: Error, r: Resolution, code: string, n: nat)
    requires Size(err) <= n && ValidFailure(r.classification, code) && Best(r, Found(err))
    requires !Above(Resolution(r.classification, code), r)
    ensures Fold(Visits([Failure(r.classification, code, err)], n + 1)) == r
  {
    var f := Failure(r.classification, code, err);
    var below := Visits([err], n);
    TopVisit(f, n);
    WholeTree(err, n);
    CandidatesMore(below, f);
    CandidatesSound(below);
    FoldIsBest([f] + below);
    BestWithTop(r, Fold([f] + below), Found(err), Candidate(f));
  }

  /** A canceled error of fewer than 64 nodes keeps its code as well, whichever context error it holds. */
  lemma NormalizeKeepsCanceled(err: Error)
    requires Size(err) < VisitLimit && Resolve(err).classification == Canceled
    requires Has(err, DeadlineExceeded) || Has(err, ContextCanceled)
    ensures Resolve(Normalize(err)) == Resolve(err)
  {
    ResolveIsBest(err);
    CodeIsValid(err);
    if Has(err, DeadlineExceeded) {
      HasIsFound(err, DeadlineExceeded);
      CodeStands(Resolve(err), "deadline_exceeded", "handler_deadline_exceeded");
    } else {
      HasIsFound(err, ContextCanceled);
      CodeStands(Resolve(err), "context_canceled", "handler_canceled");
    }
    WrapKeepsAll(err, Resolve(err), CodeOf(err), 63);
    assert err != NoError;
  }

  // ---------------------------------------------------------------- settlement

  datatype Settlement = Acknowledged | Rejected | RejectedWith(err: Error)

  /** How the backend answers the settlement call. */
  datatype Reply = Answers(err: Error) | Panicked

  function Answer(reply: Reply): Error { if reply.Panicked? then Wrapped(Plain) else reply.err }

  /** A delivered task; `calls` records the settlement calls made on it. */
  class Delivery {
    const required: bool
    const failureAware: bool
    var calls: seq<Settlement>

    constructor (required: bool, failureAware: bool)
      ensures this.required == required && this.failureAware == failureAware && calls == []
    {
      this.required, this.failureAware, calls := required, failureAware, [];
    }

    /** settle: at most one call, Ack exactly when the handler succeeded. */
    method Settle(handlerErr: Error, reply: Reply) returns (r: Error)
      modifies this
      ensures calls == old(calls) + if required then [Expected(failureAware, handlerErr)] else []
      ensures required ==> (calls[|calls| - 1].Acknowledged? <==> handlerErr == NoError)
      ensures r == if required then Settled(handlerErr, reply) else handlerErr
    {
      if !required {
        return handlerErr;
      }
      if handlerErr == NoError {
        calls := calls + [Acknowledged];
        var err := Answer(reply);
        if err != NoError {
          return Failure(Infrastructure, "acknowledgement_failed", err);
        }
        return NoError;
      }
      calls := calls + [if failureAware then RejectedWith(handlerErr) else Rejected];
      var err := Answer(reply);
      if err != NoError {
        return Joined([handlerErr, Failure(Infrastructure, "failure_settlement_failed", err)]);
      }
      return handlerErr;
    }
  }

  function Expected(failureAware: bool, handlerErr: Error): Settlement
  {
    if handlerErr == NoError then Acknowledged else if failureAware then RejectedWith(handlerErr) else Rejected
  }

  function Settled(handlerErr: Error, reply: Reply): Error
  {
    if Answer(reply) == NoError then handlerErr
    else if handlerErr == NoError then Failure(Infrastructure, "acknowledgement_failed", Answer(reply))
    else Joined([handlerErr, Failure(Infrastructure, "failure_settlement_failed", Answer(reply))])
  }

  /** A settlement that fails is infrastructure, however large the handler's own error; one that works adds nothing. */
  lemma SettledClassification(handlerErr: Error, reply: Reply)
    ensures Resolve(Settled(handlerErr, reply)).classification ==
            if Answer(reply) != NoError then Infrastructure else Resolve(handlerErr).classification
  {
    if Answer(reply) != NoError {
      if handlerErr == NoError {
        assert "acknowledgement_failed"[0] == 'a';
        FirstDecides(Settled(handlerErr, reply));
      } else {
        assert "failure_settlement_failed"[0] == 'f';
        var f := Failure(Infrastructure, "failure_settlement_failed", Answer(reply));
        assert [handlerErr] + [f] == [handlerErr, f];
        VisitedSecond(Settled(handlerErr, reply), [handlerErr], f);
      }
    }
  }

  lemma FirstDecides(f: Error)
    requires f.Failure? && f.classification.Infrastructure? && !InvalidIdentity(f.code)
    ensures Resolve(f).classification == Infrastructure
  {
    var visits := Visits([f], VisitLimit);
    assert visits[0] == f;
    assert Candidate(f) in Candidates(visits);
    FoldIsBest(visits);
  }

  // ---------------------------------------------------------------- the retry loop

  datatype Outcome = Returns(err: Error) | Panics

  /** The delay before the next attempt passed, or the task's context ended first. */
  datatype Pause = Elapsed | Ended(deadline: bool)

  /** ctx.Err() of an ended context. */
  function ContextError(p: Pause): Error { if p.Ended? && p.deadline then DeadlineExceeded else ContextCanceled }

  predicate Retryable?(o: Outcome)
  {
    o.Returns? && o.err != NoError && Resolve(o.err).classification == Retryable
  }

  class Message {
    var retryCount: nat
    constructor (n: nat) ensures retryCount == n { retryCount := n; }
  }

  /** How the runs and delays that could be made would turn out: one more run than there are retries. */
  predicate Plan(run: seq<Outcome>, pause: seq<Pause>) { |run| == |pause| > 0 }

  /** The i-th run (from zero) is the last one. */
  predicate Last(run: seq<Outcome>, pause: seq<Pause>, i: nat)
    requires Plan(run, pause) && i < |run|
  {
    !Retryable?(run[i]) || i == |run| - 1 || pause[i].Ended?
  }

  /** The number of the last run, counting from `i`. */
  function LastRun(run: seq<Outcome>, pause: seq<Pause>, i: nat): (k: nat)
    requires Plan(run, pause) && i < |run|
    ensures i <= k < |run| && Last(run, pause, k)
    ensures forall j :: i <= j < k ==> !Last(run, pause, j)
    decreases |run| - i
  {
    if Last(run, pause, i) then i else LastRun(run, pause, i + 1)
  }

  /** What the loop sends when its last run is number `i`. */
  function ResultOf(run: seq<Outcome>, pause: seq<Pause>, i: nat): Outcome
    requires Plan(run, pause) && i < |run|
  {
    if Retryable?(run[i]) && i != |run| - 1 && pause[i].Ended? then Returns(ContextError(pause[i])) else run[i]
  }

  method MayRetry(o: Outcome) returns (again: bool)
    ensures again <==> Retryable?(o)
  {
    if o.Panics? || o.err == NoError { return false; }
    var resolution := ResolveFailure(o.err);
    return resolution.classification == Retryable;
  }

  /** None of the first `k` runs is the last one. */
  predicate GoesOn(run: seq<Outcome>, pause: seq<Pause>, k: nat)
    requires Plan(run, pause) && k <= |run|
  {
    forall j :: 0 <= j < k ==> !Last(run, pause, j)
  }

  lemma {:induction false} LastRunIs(run: seq<Outcome>, pause: seq<Pause>, i: nat, k: nat)
    requires Plan(run, pause) && i <= k < |run| && Last(run, pause, k) && GoesOn(run, pause, k)
    ensures LastRun(run, pause, i) == k
    decreases k - i
  {
    if i == k {
    } else {
      LastRunIs(run, pause, i + 1, k);
    }
  }

  /** The first `k` runs failed retryably and waited their delay out. */
  predicate Waited(run: seq<Outcome>, pause: seq<Pause>, k: nat)
    requires Plan(run, pause) && k <= |run|
  {
    forall i :: 0 <= i < k ==> Retryable?(run[i]) && pause[i].Elapsed?
  }

  lemma EndsWith(run: seq<Outcome>, pause: seq<Pause>, k: nat)
    requires Plan(run, pause) && k < |run| && Last(run, pause, k) && GoesOn(run, pause, k)
    ensures LastRun(run, pause, 0) == k && Waited(run, pause, k)
  {
    LastRunIs(run, pause, 0, k);
    forall i | 0 <= i < k ensures Retryable?(run[i]) && pause[i].Elapsed? {
      assert !Last(run, pause, i);
    }
  }

  /** Run `k` and, unless it is the last one, the delay after it. */
  method TryOnce(m: Message, run: seq<Outcome>, pause: seq<Pause>, k: nat) returns (o: Outcome, done: bool)
    requires Plan(run, pause) && |run| == k + m.retryCount + 1 && GoesOn(run, pause, k)
    modifies m
    ensures done ==> Last(run, pause, k) && o == ResultOf(run, pause, k)
    ensures done ==> m.retryCount <= old(m.retryCount) <= m.retryCount + 1
    ensures !done ==> m.retryCount + 1 == old(m.retryCount) && GoesOn(run, pause, k + 1)
  {
    o := run[k];
    var again := MayRetry(o);
    if !again || m.retryCount == 0 { return o, true; }
    m.retryCount := m.retryCount - 1;
    done := pause[k].Ended?;
    if done { o := Returns(ContextError(pause[k])); }
  }

  /**
   The attempts of one task: every run but the last failed retryably and waited
   its delay out, and at most one run more than the message's retries is made.
   */
  method Attempt(m: Message, run: seq<Outcome>, pause: seq<Pause>) returns (o: Outcome, runs: nat)
    requires Plan(run, pause) && |run| == m.retryCount + 1
    modifies m
    ensures runs == LastRun(run, pause, 0) + 1 <= old(m.retryCount) + 1
    ensures Waited(run, pause, runs - 1)
    ensures o == ResultOf(run, pause, runs - 1)
    ensures m.retryCount <= old(m.retryCount) - (runs - 1) <= m.retryCount + 1
  {
    runs := 0;
    while true
      invariant m.retryCount + runs == old(m.retryCount) && GoesOn(run, pause, runs)
      decreases m.retryCount
    {
      var done;
      o, done := TryOnce(m, run, pause, runs);
      runs := runs + 1;
      if done {
        EndsWith(run, pause, runs - 1);
        return;
      }
    }
  }

  // ---------------------------------------------------------------- work

  datatype Task = Job(validation: Error) | Unknown

  /**
   What running a task comes to: a refused validation or an unknown type runs
   nothing; otherwise the last attempt's result, or the end of the task's time.
   */
  function TaskOutcome(task: Task, run: seq<Outcome>, pause: seq<Pause>, timedOut: bool): Outcome
    requires Plan(run, pause)
  {
    if task.Unknown? then Returns(Plain)
    else if task.validation != NoError then Returns(task.validation)
    else if timedOut then Returns(DeadlineExceeded)
    else ResultOf(run, pause, LastRun(run, pause, 0))
  }

  /** The handler gets to run, ends in time, and some attempt returns nil after retryable failures only. */
  ghost predicate Succeeds(task: Task, run: seq<Outcome>, pause: seq<Pause>, timedOut: bool)
    requires Plan(run, pause)
  {
    task == Job(NoError) && !timedOut && exists i :: SucceedsAt(run, pause, i)
  }

  predicate SucceedsAt(run: seq<Outcome>, pause: seq<Pause>, i: int)
    requires Plan(run, pause)
  {
    0 <= i < |run| && run[i] == Returns(NoError) && forall j :: 0 <= j < i ==> Retryable?(run[j]) && pause[j].Elapsed?
  }

  lemma OutcomeIsSuccess(task: Task, run: seq<Outcome>, pause: seq<Pause>, timedOut: bool)
    requires Plan(run, pause)
    ensures TaskOutcome(task, run, pause, timedOut) == Returns(NoError) <==> Succeeds(task, run, pause, timedOut)
  {
    var k := LastRun(run, pause, 0);
    if run[k] == Returns(NoError) {
      forall j | 0 <= j < k ensures Retryable?(run[j]) && pause[j].Elapsed? {
        assert !Last(run, pause, j);
      }
      assert SucceedsAt(run, pause, k);
    }
    if i :| SucceedsAt(run, pause, i) {
      assert Last(run, pause, i) && i == k by {
        assert forall j :: 0 <= j < i ==> !Last(run, pause, j);
      }
    }
  }

  /** The last run was cut short: it failed retryably, a retry was left, and the context ended during its delay. */
  predicate CutShort(run: seq<Outcome>, pause: seq<Pause>, k: nat)
    requires Plan(run, pause) && k < |run|
  {
    Retryable?(run[k]) && k < |run| - 1 && pause[k].Ended?
  }

  /** A task whose time ran out, and one whose delay was cut short, end canceled with the context's code. */
  lemma EndedContextIsCanceled(run: seq<Outcome>, pause: seq<Pause>, timedOut: bool)
    requires Plan(run, pause)
    ensures var k := LastRun(run, pause, 0); var o := TaskOutcome(Job(NoError), run, pause, timedOut);
      && (timedOut ==> o.Returns? && Resolve(o.err) == Resolution(Canceled, "deadline_exceeded"))
      && (!timedOut && CutShort(run, pause, k) ==>
            var code := if pause[k].deadline then "deadline_exceeded" else "context_canceled";
            o.Returns? && Resolve(o.err) == Resolution(Canceled, code))
      && (!timedOut && !CutShort(run, pause, k) ==> o == run[k])
  {
    LoneErrors();
  }

  /** A task that is refused before its handler fails: with the validator's error, or without a classification. */
  lemma RefusedTaskFails(task: Task, run: seq<Outcome>, pause: seq<Pause>, timedOut: bool)
    requires Plan(run, pause) && task != Job(NoError)
    ensures var o := TaskOutcome(task, run, pause, timedOut);
      && o.Returns? && o.err != NoError && (task.Job? ==> o.err == task.validation)
      && (task.Unknown? ==> Resolve(o.err) == Resolution(Retryable, ""))
  {
    LoneErrors();
  }

  const HandlerPanic := Failure(Permanent, "handler_panic", Plain)

  /** The error a run's outcome is settled with. */
  function Verdict(o: Outcome): Error { if o.Panics? then HandlerPanic else Normalize(o.err) }

  /** The counters a wrapper touches; every wrapper started is in exactly one of them. */
  class Meters {
    var active: nat
    var succeeded: nat
    var failed: nat

    constructor () ensures active == succeeded == failed == 0 { active, succeeded, failed := 0, 0, 0; }

    function Started(): nat
      reads this
    {
      active + succeeded + failed
    }
  }

  /** run: the validator's verdict, or the handler's attempts. */
  method RunTask(task: Task, m: Message, run: seq<Outcome>, pause: seq<Pause>, timedOut: bool)
    returns (o: Outcome, runs: nat)
    requires Plan(run, pause) && |run| == m.retryCount + 1
    modifies m
    ensures o == TaskOutcome(task, run, pause, timedOut)
    ensures runs == (if task == Job(NoError) then LastRun(run, pause, 0) + 1 else 0) <= old(m.retryCount) + 1
    ensures forall i :: 0 <= i < runs - 1 ==> Retryable?(run[i])
  {
    if task.Unknown? { return Returns(Plain), 0; }
    if task.validation != NoError { return Returns(task.validation), 0; }
    o, runs := Attempt(m, run, pause);
    if timedOut { o := Returns(DeadlineExceeded); }
  }

  /**
   work: a task needing acknowledgement is settled once, and acknowledged exactly
   when its handler succeeded; a panic is settled as a permanent failure; the
   wrapper is counted as one success or one failure. Success also needs the
   settlement to succeed.
   */
  method Work(task: Task, d: Delivery, m: Message, meters: Meters, run: seq<Outcome>, pause: seq<Pause>,
              timedOut: bool, reply: Reply)
    returns (o: Outcome, runs: nat)
    requires meters.active > 0 && Plan(run, pause) && |run| == m.retryCount + 1
    modifies d, m, meters
    ensures o == TaskOutcome(task, run, pause, timedOut)
    ensures runs == (if task == Job(NoError) then LastRun(run, pause, 0) + 1 else 0) <= old(m.retryCount) + 1
    ensures forall i :: 0 <= i < runs - 1 ==> Retryable?(run[i])
    ensures d.calls == old(d.calls) + if d.required then [Expected(d.failureAware, Verdict(o))] else []
    ensures d.required ==> (d.calls[|d.calls| - 1].Acknowledged? <==> Succeeds(task, run, pause, timedOut))
    ensures o.Panics? && d.required && d.failureAware ==>
              d.calls[|d.calls| - 1] == RejectedWith(Failure(Permanent, "handler_panic", Plain))
    ensures meters.Started() == old(meters.Started()) && meters.active == old(meters.active) - 1
    ensures meters.succeeded == old(meters.succeeded) + 1 <==>
              Succeeds(task, run, pause, timedOut) && (d.required ==> Answer(reply) == NoError)
  {
    OutcomeIsSuccess(task, run, pause, timedOut);
    o, runs := RunTask(task, m, run, pause, timedOut);
    var err := d.Settle(Verdict(o), reply);
    meters.active := meters.active - 1;
    if err == NoError && !o.Panics? {
      meters.succeeded := meters.succeeded + 1;
    } else {
      meters.failed := meters.failed + 1;
    }
  }
}
