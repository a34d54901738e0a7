/** How one delivery is settled (valkeystream/worker.go:313-449): once, and in which order of commands. */
module StreamSettlement {
  import opened Texts
  import opened Classifier
  import opened QueueWork

  /** Whether a failed delivery goes to the dead-letter stream. */
  predicate Terminal(err: Error, attempts: int, maximum: int, canceledCodes: set<string>)
  {
    match Resolve(err).classification
    case Permanent => true
    case Malformed => true
    case Retryable => attempts >= maximum
    case Canceled => Resolve(err).code in canceledCodes && attempts >= maximum
    case _ => false
  }

  /** The least code of a canceled failure found is among `codes`. */
  ghost predicate LeastCanceledIn(found: set<Resolution>, codes: set<string>)
  {
    exists x :: x in found && x.classification == Canceled && x.code in codes &&
                forall y :: y in found && y.classification == Canceled ==> !TextBefore(y.code, x.code)
  }

  /**
   The policy, on the failures found and in no order: an infrastructure failure keeps
   the delivery; else a canceled one gives it up once the attempts are used up and
   its least code is configured; else a malformed or permanent one gives it up at
   once; else it is given up once the attempts are used up.
   */
  ghost predicate GivesUp(found: set<Resolution>, attempts: int, maximum: int, codes: set<string>)
  {
    if Holds(found, Infrastructure) then false
    else if Holds(found, Canceled) then LeastCanceledIn(found, codes) && attempts >= maximum
    else if Holds(found, Malformed) || Holds(found, Permanent) then true
    else attempts >= maximum
  }

  /** What the first 64 nodes of the walk contribute. */
  ghost function Seen(err: Error): set<Resolution> { Candidates(Visits([err], VisitLimit)) }

  ghost predicate HaveCodes(found: set<Resolution>)
  {
    forall x :: x in found && x.classification == Canceled ==> x.code != ""
  }

  lemma SeenHaveCodes(nodes: seq<Error>)
    ensures HaveCodes(Candidates(nodes))
  {
  }

  lemma BestCanceled(r: Resolution, found: set<Resolution>, codes: set<string>)
    requires AllSound(found) && HaveCodes(found) && Best(r, found) && r.classification == Canceled
    ensures r.code in codes <==> LeastCanceledIn(found, codes)
  {
    forall y | y in found && y.classification == Canceled ensures !TextBefore(y.code, r.code) {
      assert !Above(y, r);
    }
    if LeastCanceledIn(found, codes) {
      var x :| x in found && x.classification == Canceled && x.code in codes &&
               forall y :: y in found && y.classification == Canceled ==> !TextBefore(y.code, x.code);
      TextTotal(x.code, r.code);
      assert !TextBefore(r.code, x.code) && !TextBefore(x.code, r.code);
    }
  }

  /** For every error the decision is that policy on what the walk sees. */
  lemma TerminalExactly(err: Error, attempts: int, maximum: int, codes: set<string>)
    ensures Terminal(err, attempts, maximum, codes) <==> GivesUp(Seen(err), attempts, maximum, codes)
  {
    var r := Resolve(err);
    ResolveIsBestOfVisited(err);
    CandidatesSound(Visits([err], VisitLimit));
    SeenHaveCodes(Visits([err], VisitLimit));
    BestPrecedence(r, Seen(err));
    if r.classification == Canceled { BestCanceled(r, Seen(err), codes); }
  }

  /** Up to 64 nodes that is the policy on the whole tree. */
  lemma TerminalIsPolicy(err: Error, attempts: int, maximum: int, codes: set<string>)
    requires Size(err) <= VisitLimit
    ensures Terminal(err, attempts, maximum, codes) <==> GivesUp(Found(err), attempts, maximum, codes)
  {
    WholeTree(err, VisitLimit);
    TerminalExactly(err, attempts, maximum, codes);
  }

  /** The queue hands the worker the normal form of the handler's error; the decision is the same for every policy. */
  ghost predicate Survives(err: Error)
  {
    forall attempts: int, maximum: int, codes: set<string> ::
      Terminal(Normalize(err), attempts, maximum, codes) <==> Terminal(err, attempts, maximum, codes)
  }

  /**
   The code of the normal form does not come before the one found, and the one
   found is within the first 63 nodes or is that code itself.
   */
  ghost predicate CodeStays(err: Error)
  {
    && !TextBefore(CodeOf(err), Resolve(err).code)
    && (Resolve(err) in Candidates(Visits([err], 63)) || CodeOf(err) == Resolve(err).code)
  }

  /** `s`, the best of `below` and `top`, has the code of `r`, the best of more than `below`, exactly in these cases. */
  lemma SameCodeExactly(r: Resolution, s: Resolution, all: set<Resolution>, below: set<Resolution>, code: string)
    requires AllSound(all) && Sound(r) && Sound(s) && code != "" && r.code != ""
    requires Best(r, all) && below <= all && Best(s, below + {Resolution(r.classification, code)})
    ensures s.code == r.code <==> !TextBefore(code, r.code) && (r in below || code == r.code)
  {
    var top := Resolution(r.classification, code);
    BestAbove(r, s, all, below, code);
    TextTotal(code, r.code);
    TextTotal(s.code, r.code);
    assert !Above(top, s);
    assert r in below ==> !Above(r, s);
    assert s in below ==> !Above(s, r);
  }

  lemma NormalCode(err: Error)
    requires err != NoError && Resolve(err).classification == Canceled
    ensures Resolve(Normalize(err)).classification == Canceled
    ensures Resolve(Normalize(err)).code == Resolve(err).code <==> CodeStays(err)
  {
    CodeIsValid(err);
    CanceledHasCode(err);
    WrapCode(err, CodeOf(err), 63);
    NormalizeKeepsClassification(err);
  }

  lemma WrapCode(err: Error, code: string, n: nat)
    requires ValidFailure(Fold(Visits([err], n + 1)).classification, code) && Fold(Visits([err], n + 1)).code != ""
    ensures var r := Fold(Visits([err], n + 1)); var s := Fold(Visits([Failure(r.classification, code, err)], n + 1));
      s.code == r.code <==> !TextBefore(code, r.code) && (r in Candidates(Visits([err], n)) || code == r.code)
  {
    var all, below := Visits([err], n + 1), Visits([err], n);
    var f := Failure(Fold(all).classification, code, err);
    TopVisit(f, n);
    VisitsMore([err], n);
    CandidatesOfPrefix(below, all);
    CandidatesMore(below, f);
    CandidatesSound(all);
    FoldIsBest(all);
    FoldIsBest([f] + below);
    SameCodeExactly(Fold(all), Fold([f] + below), Candidates(all), Candidates(below), code);
  }

  /** For every error: the decision survives the normal form exactly when it is not canceled or its code stays. */
  lemma TerminalSurvivesExactly(err: Error)
    ensures Survives(err) <==> err == NoError || Resolve(err).classification != Canceled || CodeStays(err)
  {
    if err != NoError {
      NormalizeKeepsClassification(err);
      if Resolve(err).classification == Canceled {
        NormalCode(err);
        assert Terminal(err, 0, 0, {Resolve(err).code});
        assert Survives(err) ==> Terminal(Normalize(err), 0, 0, {Resolve(err).code});
      }
    }
  }

  /** In particular for every error of fewer than 64 nodes, and for every one without a context error. */
  lemma TerminalSurvivesNormalForm(err: Error)
    requires Size(err) < VisitLimit || (!Has(err, DeadlineExceeded) && !Has(err, ContextCanceled))
    ensures Survives(err)
  {
    TerminalSurvivesExactly(err);
    if err != NoError && Resolve(err).classification == Canceled {
      CanceledHasCode(err);
      NormalCode(err);
      if Has(err, DeadlineExceeded) || Has(err, ContextCanceled) {
        NormalizeKeepsCanceled(err);
      } else {
        TextTotal(CodeOf(err), CodeOf(err));
      }
    }
  }

  lemma CanceledHasCode(err: Error)
    requires Resolve(err).classification == Canceled
    ensures Resolve(err).code != ""
  {
    ResolveIsBestOfVisited(err);
  }

  /** A canceled failure the walk reaches, joined after `n` others that hide a deadline error from it. */
  function LateDeadline(n: nat): Error
  {
    Joined([DeadlineExceeded] + Plains(n) + [Failure(Canceled, "zzz", NoError)])
  }

  lemma VisitNext(rest: seq<Error>, top: Error, budget: nat)
    ensures Visits(rest + [top], budget + 1) == [top] + Visits(rest + Children(top), budget)
  {
    assert (rest + [top])[..|rest|] == rest;
  }

  const Late := Failure(Canceled, "zzz", NoError)

  lemma VisitLate(rest: seq<Error>, budget: nat)
    ensures Visits(rest + [Late], budget + 2) == [Late] + ([NoError] + Visits(rest, budget))
  {
    VisitNext(rest, Late, budget + 1);
    VisitNext(rest, NoError, budget);
    assert rest + Children(NoError) == rest;
  }

  lemma LateDeadlineVisits(n: nat, budget: nat)
    requires budget <= n
    ensures Visits([LateDeadline(n)], budget + 3) == [LateDeadline(n)] + ([Late] + ([NoError] + Plains(budget)))
  {
    var rest := [DeadlineExceeded] + Plains(n);
    assert [] + [LateDeadline(n)] == [LateDeadline(n)] && [] + Children(LateDeadline(n)) == rest + [Late];
    VisitNext([], LateDeadline(n), budget + 2);
    VisitLate(rest, budget);
    VisitsPlains([DeadlineExceeded], n, budget);
  }

  lemma PlainCandidates(n: nat)
    ensures Candidates(Plains(n)) <= {Bottom}
  {
  }

  lemma LateDeadlineCandidates(n: nat, budget: nat)
    requires budget <= n
    ensures Candidates(Visits([LateDeadline(n)], budget + 3)) == {Bottom, Resolution(Canceled, "zzz")}
  {
    StartsWithLetter("zzz");
    LateDeadlineVisits(n, budget);
    CandidatesMore(Plains(budget), NoError);
    CandidatesMore([NoError] + Plains(budget), Failure(Canceled, "zzz", NoError));
    CandidatesMore([Failure(Canceled, "zzz", NoError)] + ([NoError] + Plains(budget)), LateDeadline(n));
    PlainCandidates(budget);
  }

  lemma LateDeadlineFolds(n: nat, budget: nat)
    requires budget <= n
    ensures Fold(Visits([LateDeadline(n)], budget + 3)) == Resolution(Canceled, "zzz")
  {
    LateDeadlineCandidates(n, budget);
    FoldIsBest(Visits([LateDeadline(n)], budget + 3));
    OneOfTwo(Fold(Visits([LateDeadline(n)], budget + 3)), Resolution(Canceled, "zzz"));
  }

  lemma OneOfTwo(s: Resolution, r: Resolution)
    requires Best(s, {Bottom, r}) && r.classification == Canceled
    ensures s == r
  {
    assert r in {Bottom, r};
  }

  lemma LateDeadlineCode(n: nat)
    ensures CodeOf(LateDeadline(n)) == "handler_deadline_exceeded"
  {
    var err := LateDeadline(n);
    assert err.errs[0] == DeadlineExceeded && Has(err.errs[0], DeadlineExceeded);
  }

  lemma TopWins(s: Resolution, below: set<Resolution>, top: Resolution)
    requires Best(s, below + {top}) && Above(top, Bottom) && forall x :: x in below ==> Above(top, x)
    ensures s == top
  {
  }

  lemma WrapTakesOver(err: Error, code: string, below: set<Resolution>, n: nat)
    requires ValidFailure(Canceled, code) && Candidates(Visits([err], n)) == below
    requires forall x :: x in below ==> Above(Resolution(Canceled, code), x)
    ensures Fold(Visits([Failure(Canceled, code, err)], n + 1)) == Resolution(Canceled, code)
  {
    var f := Failure(Canceled, code, err);
    TopVisit(f, n);
    CandidatesMore(Visits([err], n), f);
    FoldIsBest(Visits([f], n + 1));
    TopWins(Fold(Visits([f], n + 1)), below, Candidate(f));
  }

  lemma NormalFormTakesOver(err: Error, r: Resolution)
    requires err != NoError && r.classification == Canceled && Above(Resolution(Canceled, CodeOf(err)), r)
    requires Resolve(err) == r && Candidates(Visits([err], 63)) == {Bottom, r}
    ensures Resolve(Normalize(err)) == Resolution(Canceled, CodeOf(err))
  {
    CodeIsValid(err);
    WrapTakesOver(err, CodeOf(err), {Bottom, r}, 63);
  }

  /** Past the walk's limit the code need not stay, and the decision changes. */
  lemma TerminalCanChangeBeyondLimit()
    ensures Terminal(LateDeadline(62), 1, 1, {"zzz"}) && !Terminal(Normalize(LateDeadline(62)), 1, 1, {"zzz"})
  {
    LateDeadlineFolds(62, 61);
    LateDeadlineCode(62);
    LateDeadlineCandidates(62, 60);
    NormalFormTakesOver(LateDeadline(62), Resolution(Canceled, "zzz"));
  }

  /** A failed settlement leaves the delivery for another attempt, whatever the handler reported. */
  lemma SettlementFailureIsNotTerminal(handlerErr: Error, reply: Reply, attempts: int, maximum: int, codes: set<string>)
    requires Answer(reply) != NoError
    ensures !Terminal(Settled(handlerErr, reply), attempts, maximum, codes)
  {
    SettledClassification(handlerErr, reply);
  }

  // ---------------------------------------------------------------- commands

  datatype Command = SendAck | SendRecord | SendDead

  /** A command and whether its reply was a success. */
  datatype Exchange = Exchange(command: Command, ok: bool)

  /** The commands of a rejection: each is sent only if the one before it succeeded. */
  function Rejection(keepsRecords: bool, terminal: bool, onRecord: bool, onDead: bool, onAck: bool): seq<Exchange>
  {
    (if keepsRecords then [Exchange(SendRecord, onRecord)] else []) +
    if (keepsRecords && !onRecord) || !terminal then []
    else [Exchange(SendDead, onDead)] + if onDead then [Exchange(SendAck, onAck)] else []
  }

  lemma RejectionSends(keepsRecords: bool, terminal: bool, onRecord: bool, onDead: bool, onAck: bool)
    ensures var sent := Rejection(keepsRecords, terminal, onRecord, onDead, onAck);
      var first := if keepsRecords then [Exchange(SendRecord, true)] else [];
      if keepsRecords && !onRecord then sent == [Exchange(SendRecord, false)]
      else if !terminal then sent == first
      else if !onDead then sent == first + [Exchange(SendDead, false)]
      else sent == first + [Exchange(SendDead, true), Exchange(SendAck, onAck)]
  {
  }

  /**
   A rejection acknowledges the source exactly when the failure is terminal and
   its dead letter was appended right before; the failure record comes first, and
   nothing follows a failed command.
   */
  lemma RejectionAcksAfterDead(keepsRecords: bool, terminal: bool, onRecord: bool, onDead: bool, onAck: bool)
    ensures var sent := Rejection(keepsRecords, terminal, onRecord, onDead, onAck);
      && (Exchange(SendAck, onAck) in sent <==> terminal && Exchange(SendDead, true) in sent)
      && Exchange(SendAck, !onAck) !in sent
      && (Exchange(SendAck, onAck) in sent ==> sent[|sent| - 1] == Exchange(SendAck, onAck) &&
                                               sent[|sent| - 2] == Exchange(SendDead, true))
      && (keepsRecords ==> sent[0] == Exchange(SendRecord, onRecord))
      && (forall i :: 0 <= i < |sent| - 1 ==> sent[i].ok)
  {
    var sent := Rejection(keepsRecords, terminal, onRecord, onDead, onAck);
    var n := if keepsRecords then 1 else 0;
    if terminal && (keepsRecords ==> onRecord) {
      assert sent[n] == Exchange(SendDead, onDead);
      if onDead { assert sent[n + 1] == Exchange(SendAck, onAck); }
    }
  }

  /** The closures of decode around one sync.Once; `sent` are the commands issued for the delivery. */
  class Settlement {
    const attempts: int
    const maximum: int
    const canceledCodes: set<string>
    const keepsRecords: bool
    var settled: bool
    var result: Error
    var sent: seq<Exchange>

    ghost predicate Valid()
      reads this
    {
      !settled ==> sent == []
    }

    constructor (attempts: int, maximum: int, canceledCodes: set<string>, keepsRecords: bool)
      ensures Valid() && !settled
    {
      this.attempts, this.maximum, this.canceledCodes := attempts, maximum, canceledCodes;
      this.keepsRecords := keepsRecords;
      settled, result, sent := false, NoError, [];
    }

    /** Called again, or after a rejection, it sends nothing and repeats the first result. */
    method Ack(reply: Error) returns (r: Error)
      requires Valid()
      modifies this
      ensures Valid() && settled && r == result
      ensures old(settled) ==> sent == old(sent) && result == old(result)
      ensures !old(settled) ==> sent == [Exchange(SendAck, reply == NoError)] && r == reply
    {
      if !settled {
        sent := [Exchange(SendAck, reply == NoError)];
        settled, result := true, reply;
      }
      return result;
    }

    /**
     The failure is recorded first; a failure that gives the delivery up is then
     appended to the dead-letter stream; only then is the source acknowledged.
     */
    method NackFailure(handlerErr: Error, onRecord: Error, onDead: Error, onAck: Error) returns (r: Error)
      requires Valid()
      modifies this
      ensures Valid() && settled && r == result
      ensures old(settled) ==> sent == old(sent) && result == old(result)
      ensures !old(settled) ==>
                sent == Rejection(keepsRecords, Terminal(handlerErr, attempts, maximum, canceledCodes),
                                  onRecord == NoError, onDead == NoError, onAck == NoError)
      ensures !old(settled) && keepsRecords && onRecord != NoError ==> sent == [Exchange(SendRecord, false)]
      ensures var first := if keepsRecords then [Exchange(SendRecord, true)] else [];
        !old(settled) && (keepsRecords ==> onRecord == NoError) ==>
          if !GivesUp(Seen(handlerErr), attempts, maximum, canceledCodes) then sent == first
          else if onDead != NoError then sent == first + [Exchange(SendDead, false)]
          else sent == first + [Exchange(SendDead, true), Exchange(SendAck, onAck == NoError)]
      ensures !old(settled) ==> (r == NoError <==> forall i :: 0 <= i < |sent| ==> sent[i].ok)
      ensures !old(settled) ==>
                r == if keepsRecords && onRecord != NoError then onRecord
                     else if !GivesUp(Seen(handlerErr), attempts, maximum, canceledCodes) then NoError
                     else if onDead != NoError then onDead else onAck
    {
      if !settled {
        Reject(handlerErr, onRecord, onDead, onAck);
        TerminalExactly(handlerErr, attempts, maximum, canceledCodes);
        RejectionSends(keepsRecords, Terminal(handlerErr, attempts, maximum, canceledCodes),
                       onRecord == NoError, onDead == NoError, onAck == NoError);
      }
      return result;
    }

    /** The body of the sync.Once. */
    method Reject(handlerErr: Error, onRecord: Error, onDead: Error, onAck: Error)
      requires Valid() && !settled
      modifies this
      ensures settled
      ensures sent == Rejection(keepsRecords, Terminal(handlerErr, attempts, maximum, canceledCodes),
                                onRecord == NoError, onDead == NoError, onAck == NoError)
      ensures result == NoError <==> forall i :: 0 <= i < |sent| ==> sent[i].ok
      ensures result == if keepsRecords && onRecord != NoError then onRecord
                        else if !Terminal(handlerErr, attempts, maximum, canceledCodes) then NoError
                        else if onDead != NoError then onDead else onAck
    {
      settled := true;
      if keepsRecords {
        sent := sent + [Exchange(SendRecord, onRecord == NoError)];
        if onRecord != NoError {
          result := onRecord;
          assert !sent[0].ok;
          return;
        }
      }
      var terminal := TerminalFailure(handlerErr);
      if !terminal {
        result := NoError;
        return;
      }
      ghost var n := |sent|;
      sent := sent + [Exchange(SendDead, onDead == NoError)];
      assert sent[n].ok == (onDead == NoError);
      if onDead != NoError {
        result := onDead;
        return;
      }
      sent := sent + [Exchange(SendAck, onAck == NoError)];
      assert sent[n + 1].ok == (onAck == NoError);
      result := onAck;
    }

    method TerminalFailure(handlerErr: Error) returns (terminal: bool)
      ensures terminal <==> Terminal(handlerErr, attempts, maximum, canceledCodes)
    {
      var resolution := ResolveFailure(handlerErr);
      match resolution.classification
      case Permanent => return true;
      case Malformed => return true;
      case Retryable => return attempts >= maximum;
      case Canceled => return resolution.code in canceledCodes && attempts >= maximum;
      case _ => return false;
    }
  }
}
