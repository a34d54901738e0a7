/** Failure resolution (management/classification.go): a bounded walk over an error tree. */
module Classifier {
  import opened Texts

  datatype Classification = Retryable | Permanent | Malformed | Canceled | Infrastructure | Unsupported(text: string)

  /**
   An error as the walk sees it: nothing, a leaf (with the two context errors told
   apart), a classified failure with its cause, several joined errors, or a wrapper.
   */
  datatype Error =
    | NoError
    | Plain
    | DeadlineExceeded
    | ContextCanceled
    | Failure(classification: Classification, code: string, cause: Error)
    | Joined(errs: seq<Error>)
    | Wrapped(err: Error)

  datatype Resolution = Resolution(classification: Classification, code: string)

  const Bottom := Resolution(Retryable, "")

  const VisitLimit: nat := 64

  function Rank(c: Classification): nat
  {
    match c
    case Infrastructure => 5
    case Canceled => 4
    case Malformed => 3
    case Permanent => 2
    case Retryable => 1
    case Unsupported(_) => 0
  }

  predicate ValidFailure(c: Classification, code: string) { !c.Unsupported? && !InvalidIdentity(code) }

  /** What one node contributes. */
  function Candidate(e: Error): Resolution
  {
    match e
    case Failure(c, code, _) => if ValidFailure(c, code) then Resolution(c, code) else Bottom
    case DeadlineExceeded => Resolution(Canceled, "deadline_exceeded")
    case ContextCanceled => Resolution(Canceled, "context_canceled")
    case _ => Bottom
  }

  /** What one node pushes, the last one to be visited first. */
  function Children(e: Error): seq<Error>
  {
    match e
    case Failure(_, _, cause) => [cause]
    case Joined(errs) => errs
    case Wrapped(err) => [err]
    case _ => []
  }

  /** `x` takes precedence over `r`. */
  predicate Above(x: Resolution, r: Resolution)
  {
    || Rank(x.classification) > Rank(r.classification)
    || (Rank(x.classification) == Rank(r.classification) && x.code != "" &&
        (r.code == "" || TextBefore(x.code, r.code)))
  }

  function Combine(r: Resolution, x: Resolution): Resolution { if Above(x, r) then x else r }

  // ---------------------------------------------------------------- the walk

  /** The nodes a walk from this stack visits, in order. */
  function Visits(stack: seq<Error>, budget: nat): (s: seq<Error>)
    ensures |s| <= budget
    decreases budget, stack
  {
    if stack == [] || budget == 0 then []
    else
      var top := stack[|stack| - 1];
      [top] + Visits(stack[..|stack| - 1] + Children(top), budget - 1)
  }

  function FoldFrom(r: Resolution, nodes: seq<Error>): Resolution
    decreases |nodes|
  {
    if nodes == [] then r else FoldFrom(Combine(r, Candidate(nodes[0])), nodes[1..])
  }

  function Fold(nodes: seq<Error>): Resolution { FoldFrom(Bottom, nodes) }

  function Resolve(err: Error): Resolution { Fold(Visits([err], VisitLimit)) }

  /** The walk with its running resolution, as the loop makes it. */
  function Walk(r: Resolution, stack: seq<Error>, budget: nat): Resolution
    decreases budget, stack
  {
    if stack == [] || budget == 0 then r
    else
      var top := stack[|stack| - 1];
      Walk(Combine(r, Candidate(top)), stack[..|stack| - 1] + Children(top), budget - 1)
  }

  lemma WalkTop(r: Resolution, stack: seq<Error>, budget: nat)
    requires stack != [] && budget > 0 && Sound(r)
    ensures var rest, top := stack[..|stack| - 1], stack[|stack| - 1];
      && Walk(r, stack, budget) == Walk(Combine(r, Candidate(top)), rest + Children(top), budget - 1)
      && (top == NoError ==> Walk(r, stack, budget) == Walk(r, rest, budget - 1))
      && Sound(Combine(r, Candidate(top)))
  {
    var rest, top := stack[..|stack| - 1], stack[|stack| - 1];
    assert top == NoError ==> rest + Children(top) == rest;
  }

  lemma VisitsRest(stack: seq<Error>, budget: nat)
    requires stack != [] && budget > 0
    ensures var rest, top := stack[..|stack| - 1], stack[|stack| - 1];
      && Visits(stack, budget) != [] && Visits(stack, budget)[0] == top
      && Visits(stack, budget)[1..] == Visits(rest + Children(top), budget - 1)
  {
  }

  lemma {:induction false} WalkIsFold(r: Resolution, stack: seq<Error>, budget: nat)
    ensures Walk(r, stack, budget) == FoldFrom(r, Visits(stack, budget))
    decreases budget
  {
    if stack == [] || budget == 0 {
    } else {
      var rest, top := stack[..|stack| - 1], stack[|stack| - 1];
      WalkIsFold(Combine(r, Candidate(top)), rest + Children(top), budget - 1);
      VisitsRest(stack, budget);
    }
  }

  /** ResolveFailure's loop computes that fold. */
  method ResolveFailure(err: Error) returns (resolution: Resolution)
    ensures resolution == Resolve(err)
  {
    resolution := ResolveWithin(err, VisitLimit);
  }

  method ResolveWithin(err: Error, limit: nat) returns (resolution: Resolution)
    ensures resolution == Fold(Visits([err], limit))
  {
    resolution := Bottom;
    var stack := [err];
    var visited := 0;
    while |stack| > 0 && visited < limit
      invariant visited <= limit && Sound(resolution)
      invariant Walk(resolution, stack, limit - visited) == Walk(Bottom, [err], limit)
      decreases limit - visited
    {
      WalkTop(resolution, stack, limit - visited);
      var current := stack[|stack| - 1];
      stack := stack[..|stack| - 1];
      if current != NoError {
        resolution := Combine(resolution, Candidate(current));
        stack := stack + Children(current);
      }
      visited := visited + 1;
    }
    WalkIsFold(Bottom, [err], limit);
  }

  // ---------------------------------------------------------------- the fold is a least upper bound

  ghost predicate Sound(r: Resolution) { !r.classification.Unsupported? }

  lemma AboveTransitive(a: Resolution, b: Resolution, c: Resolution)
    requires Above(a, b) && Above(b, c)
    ensures Above(a, c)
  {
    if TextBefore(a.code, b.code) && TextBefore(b.code, c.code) { TextTransitive(a.code, b.code, c.code); }
  }

  lemma AboveTotal(a: Resolution, b: Resolution)
    requires Sound(a) && Sound(b)
    ensures Above(a, b) || Above(b, a) || a == b
    ensures !(Above(a, b) && Above(b, a)) && !Above(a, a)
  {
    TextTotal(a.code, b.code);
    TextTotal(a.code, a.code);
  }

  /** Resolutions form a semilattice with least element Bottom. */
  lemma CombineIsJoin(a: Resolution, b: Resolution, c: Resolution)
    requires Sound(a) && Sound(b) && Sound(c)
    ensures Combine(a, a) == a && Combine(a, b) == Combine(b, a)
    ensures Combine(Combine(a, b), c) == Combine(a, Combine(b, c))
    ensures Combine(Bottom, a) == a == Combine(a, Bottom)
  {
    AboveTotal(a, b);
    AboveTotal(b, c);
    AboveTotal(a, c);
    if Above(b, a) && Above(c, b) { AboveTransitive(c, b, a); }
    if Above(a, b) && Above(b, c) { AboveTransitive(a, b, c); }
  }

  /** Independent of order: `r` is one of `found`, or Bottom, and nothing found is above it. */
  ghost predicate Best(r: Resolution, found: set<Resolution>)
  {
    (r == Bottom || r in found) && forall x :: x in found ==> !Above(x, r)
  }

  ghost predicate AllSound(found: set<Resolution>) { forall x :: x in found ==> Sound(x) }

  lemma BestIsUnique(r: Resolution, s: Resolution, found: set<Resolution>)
    requires AllSound(found) && Best(r, found) && Best(s, found)
    ensures r == s
  {
    AboveTotal(r, s);
  }

  ghost function Candidates(nodes: seq<Error>): set<Resolution>
  {
    set i | 0 <= i < |nodes| :: Candidate(nodes[i])
  }

  lemma CandidatesSound(nodes: seq<Error>)
    ensures AllSound(Candidates(nodes))
  {
  }

  lemma CandidatesMore(nodes: seq<Error>, e: Error)
    ensures Candidates(nodes + [e]) == Candidates(nodes) + {Candidate(e)}
    ensures Candidates([e] + nodes) == Candidates(nodes) + {Candidate(e)}
  {
    var more, front := nodes + [e], [e] + nodes;
    forall x | x in Candidates(nodes) + {Candidate(e)} ensures x in Candidates(more) && x in Candidates(front) {
      if x == Candidate(e) {
        assert x == Candidate(more[|nodes|]) && x == Candidate(front[0]);
      } else {
        var i :| 0 <= i < |nodes| && x == Candidate(nodes[i]);
        assert x == Candidate(more[i]) && x == Candidate(front[i + 1]);
      }
    }
  }

  lemma CombineIsAbove(r: Resolution, x: Resolution, f: Resolution)
    requires Sound(r) && Sound(x) && Sound(f) && !Above(Combine(r, x), f)
    ensures !Above(r, f) && !Above(x, f)
  {
    AboveTotal(r, x);
    if Above(x, r) && Above(r, f) { AboveTransitive(x, r, f); }
    if Above(r, x) && Above(x, f) { AboveTransitive(r, x, f); }
  }

  lemma BestOfMore(r: Resolution, x: Resolution, f: Resolution, found: set<Resolution>)
    requires Sound(r) && Sound(x) && Sound(f) && !Above(Combine(r, x), f) && (f == Combine(r, x) || f in found)
    requires forall y :: y in found ==> !Above(y, f)
    ensures !Above(r, f) && (f == r || f in found + {x}) && forall y :: y in found + {x} ==> !Above(y, f)
  {
    CombineIsAbove(r, x, f);
  }

  lemma {:induction false} FoldFromIsBest(r: Resolution, nodes: seq<Error>)
    requires Sound(r)
    ensures var f := FoldFrom(r, nodes);
      && Sound(f) && !Above(r, f) && (f == r || f in Candidates(nodes))
      && forall x :: x in Candidates(nodes) ==> !Above(x, f)
    decreases |nodes|
  {
    if nodes == [] {
      AboveTotal(r, r);
    } else {
      var rest, x := nodes[1..], Candidate(nodes[0]);
      FoldFromIsBest(Combine(r, x), rest);
      CandidatesMore(rest, nodes[0]);
      assert nodes == [nodes[0]] + rest;
      BestOfMore(r, x, FoldFrom(r, nodes), Candidates(rest));
    }
  }

  lemma FoldIsBest(nodes: seq<Error>)
    ensures Best(Fold(nodes), Candidates(nodes)) && Sound(Fold(nodes))
  {
    FoldFromIsBest(Bottom, nodes);
  }

  // ---------------------------------------------------------------- the whole tree

  /** Visited nodes, absent errors included. */
  function Size(e: Error): (n: nat)
    decreases e
  {
    1 + match e
        case Failure(_, _, cause) => Size(cause)
        case Joined(errs) => SizeAll(errs)
        case Wrapped(err) => Size(err)
        case _ => 0
  }

  function SizeAll(errs: seq<Error>): nat
    decreases errs
  {
    if errs == [] then 0 else SizeAll(errs[..|errs| - 1]) + Size(errs[|errs| - 1])
  }

  /** What the nodes of the tree contribute, in no order. */
  ghost function Found(e: Error): set<Resolution>
    decreases e
  {
    {Candidate(e)} + match e
                     case Failure(_, _, cause) => Found(cause)
                     case Joined(errs) => FoundAll(errs)
                     case Wrapped(err) => Found(err)
                     case _ => {}
  }

  ghost function FoundAll(errs: seq<Error>): set<Resolution>
    decreases errs
  {
    if errs == [] then {} else FoundAll(errs[..|errs| - 1]) + Found(errs[|errs| - 1])
  }

  lemma {:induction false} StackAppend(a: seq<Error>, b: seq<Error>)
    ensures SizeAll(a + b) == SizeAll(a) + SizeAll(b)
    ensures FoundAll(a + b) == FoundAll(a) + FoundAll(b)
    decreases |b|
  {
    if b == [] {
      assert a + b == a;
    } else {
      var init := b[..|b| - 1];
      StackAppend(a, init);
      assert (a + b)[..|a + b| - 1] == a + init;
    }
  }

  lemma TopOfStack(e: Error)
    ensures Size(e) == 1 + SizeAll(Children(e))
    ensures Found(e) == {Candidate(e)} + FoundAll(Children(e))
  {
    if e.Failure? { Single(e.cause); }
    if e.Wrapped? { Single(e.err); }
  }

  lemma Single(e: Error)
    ensures SizeAll([e]) == Size(e) && FoundAll([e]) == Found(e)
  {
    assert [e][..0] == [];
  }

  /** With enough budget the walk visits every node of every tree on the stack. */
  lemma {:induction false} VisitsAll(stack: seq<Error>, budget: nat)
    requires SizeAll(stack) <= budget
    ensures |Visits(stack, budget)| == SizeAll(stack)
    ensures Candidates(Visits(stack, budget)) == FoundAll(stack)
    decreases budget
  {
    if stack == [] {
    } else {
      var rest, top := stack[..|stack| - 1], stack[|stack| - 1];
      TopOfStack(top);
      StackAppend(rest, Children(top));
      VisitsAll(rest + Children(top), budget - 1);
      CandidatesMore(Visits(rest + Children(top), budget - 1), top);
    }
  }

  /** Trees of at most 64 nodes: the highest classification, then its least code, whatever the order. */
  lemma ResolveIsBest(err: Error)
    requires Size(err) <= VisitLimit
    ensures Best(Resolve(err), Found(err))
  {
    Single(err);
    VisitsAll([err], VisitLimit);
    FoldIsBest(Visits([err], VisitLimit));
  }

  ghost predicate Holds(found: set<Resolution>, c: Classification) { exists x :: x in found && x.classification == c }

  lemma BestPrecedence(r: Resolution, found: set<Resolution>)
    requires AllSound(found) && Best(r, found)
    ensures r.classification ==
            if Holds(found, Infrastructure) then Infrastructure
            else if Holds(found, Canceled) then Canceled
            else if Holds(found, Malformed) then Malformed
            else if Holds(found, Permanent) then Permanent
            else Retryable
    ensures forall x :: x in found && x.classification == r.classification && x.code != "" ==>
              r.code != "" && !TextBefore(x.code, r.code)
    ensures r.code != "" ==> r in found
  {
    assert r in found ==> Holds(found, r.classification);
  }

  /**
   The documented precedence, in its own words: infrastructure, canceled,
   malformed, permanent, retryable; then the least non-empty code of the winner.
   */
  lemma ResolvePrecedence(err: Error)
    requires Size(err) <= VisitLimit
    ensures Resolve(err).classification ==
            if Holds(Found(err), Infrastructure) then Infrastructure
            else if Holds(Found(err), Canceled) then Canceled
            else if Holds(Found(err), Malformed) then Malformed
            else if Holds(Found(err), Permanent) then Permanent
            else Retryable
    ensures forall x :: x in Found(err) && x.classification == Resolve(err).classification && x.code != "" ==>
              Resolve(err).code != "" && !TextBefore(x.code, Resolve(err).code)
    ensures Resolve(err).code != "" ==> Resolve(err) in Found(err)
  {
    ResolveIsBest(err);
    FoundIsSound(err);
    BestPrecedence(Resolve(err), Found(err));
  }

  lemma FoundIsSound(err: Error)
    ensures AllSound(Found(err))
  {
    Single(err);
    VisitsAll([err], Size(err));
    CandidatesSound(Visits([err], Size(err)));
  }

  /** Larger trees: the same over the first 64 nodes visited. */
  lemma ResolveIsBestOfVisited(err: Error)
    ensures Best(Resolve(err), Candidates(Visits([err], VisitLimit)))
  {
    FoldIsBest(Visits([err], VisitLimit));
  }

  lemma {:induction false} FoundIn(errs: seq<Error>, x: Resolution)
    ensures x in FoundAll(errs) <==> exists e :: e in multiset(errs) && x in Found(e)
    decreases |errs|
  {
    if errs == [] {
    } else {
      var init, last := errs[..|errs| - 1], errs[|errs| - 1];
      FoundIn(init, x);
      assert errs == init + [last];
      assert last in multiset(errs);
    }
  }

  lemma SplitAt<T>(q: seq<T>, j: nat)
    requires j < |q|
    ensures q == q[..j] + ([q[j]] + q[j + 1..])
    ensures multiset(q) == multiset(q[..j] + q[j + 1..]) + multiset{q[j]}
  {
    assert q == q[..j] + ([q[j]] + q[j + 1..]);
  }

  lemma SizeAround(a: seq<Error>, e: Error, b: seq<Error>)
    ensures SizeAll(a + ([e] + b)) == SizeAll(a + b) + Size(e)
  {
    StackAppend(a, [e] + b);
    StackAppend([e], b);
    StackAppend(a, b);
    Single(e);
  }

  lemma CancelOne(m: multiset<Error>, n: multiset<Error>, e: Error)
    requires m + multiset{e} == n + multiset{e}
    ensures m == n
  {
    assert m == (m + multiset{e}) - multiset{e};
    assert n == (n + multiset{e}) - multiset{e};
  }

  lemma {:induction false} SizeOfReordered(p: seq<Error>, q: seq<Error>)
    requires multiset(p) == multiset(q)
    ensures SizeAll(p) == SizeAll(q)
    decreases |p|
  {
    assert |p| == |multiset(p)| == |multiset(q)| == |q|;
    if p == [] {
    } else {
      var last := p[|p| - 1];
      assert last in multiset(q);
      var j :| 0 <= j < |q| && q[j] == last;
      var fewer, rest := p[..|p| - 1] + p[|p|..], q[..j] + q[j + 1..];
      SplitAt(q, j);
      SplitAt(p, |p| - 1);
      SizeAround(q[..j], last, q[j + 1..]);
      SizeAround(p[..|p| - 1], last, p[|p|..]);
      CancelOne(multiset(fewer), multiset(rest), last);
      SizeOfReordered(fewer, rest);
    }
  }

  /** Reordering joined errors does not change the resolution, up to 64 nodes. */
  lemma JoinOrderIsIrrelevant(p: seq<Error>, q: seq<Error>)
    requires multiset(p) == multiset(q) && Size(Joined(p)) <= VisitLimit
    ensures Resolve(Joined(p)) == Resolve(Joined(q))
  {
    forall x ensures x in FoundAll(p) <==> x in FoundAll(q) {
      FoundIn(p, x);
      FoundIn(q, x);
    }
    assert FoundAll(p) == FoundAll(q);
    SizeOfReordered(p, q);
    SameFailuresSameResolution(Joined(p), Joined(q));
  }

  /** Only the set of failures in the tree matters, not their arrangement, up to 64 nodes. */
  lemma SameFailuresSameResolution(a: Error, b: Error)
    requires Found(a) == Found(b) && Size(a) <= VisitLimit && Size(b) <= VisitLimit
    ensures Resolve(a) == Resolve(b)
  {
    ResolveIsBest(a);
    ResolveIsBest(b);
    Single(a);
    VisitsAll([a], VisitLimit);
    CandidatesSound(Visits([a], VisitLimit));
    BestIsUnique(Resolve(a), Resolve(b), Found(a));
  }

  /** The two context errors by themselves, and any other leaf. */
  lemma LoneErrors()
    ensures Resolve(DeadlineExceeded) == Resolution(Canceled, "deadline_exceeded")
    ensures Resolve(ContextCanceled) == Resolution(Canceled, "context_canceled")
    ensures Resolve(Plain) == Resolve(NoError) == Resolution(Retryable, "")
  {
    LoneLeaf(DeadlineExceeded);
    LoneLeaf(ContextCanceled);
    LoneLeaf(Plain);
    LoneLeaf(NoError);
  }

  lemma LoneLeaf(e: Error)
    requires Children(e) == []
    ensures Resolve(e) == Combine(Bottom, Candidate(e))
  {
    assert [e][..0] + Children(e) == [];
    assert Visits([e], VisitLimit) == [e];
    assert [e][1..] == [];
  }

  /** A failure with a known classification and a usable code, and no cause, is what it says; any other is ignored. */
  lemma LoneFailure(c: Classification, code: string)
    ensures Resolve(Failure(c, code, NoError)) ==
            if c.Unsupported? || InvalidIdentity(code) then Resolution(Retryable, "") else Resolution(c, code)
  {
    var f := Failure(c, code, NoError);
    ResolveIsBest(f);
    assert Found(f) == {Candidate(f), Bottom};
    if !c.Unsupported? && !InvalidIdentity(code) { assert Above(Resolution(c, code), Bottom); }
  }

  // ---------------------------------------------------------------- beyond 64 nodes

  function Plains(n: nat): seq<Error> { seq(n, i => Plain) }

  lemma {:induction false} VisitsPlains(rest: seq<Error>, n: nat, budget: nat)
    requires budget <= n
    ensures Visits(rest + Plains(n), budget) == Plains(budget)
    decreases budget
  {
    if budget == 0 {
    } else {
      var stack := rest + Plains(n);
      assert stack[..|stack| - 1] + Children(Plain) == rest + Plains(n - 1);
      VisitsPlains(rest, n - 1, budget - 1);
      assert Plains(budget) == [Plain] + Plains(budget - 1);
    }
  }

  /** Past the limit the same failure is seen or not depending on where it stands. */
  lemma OrderMattersBeyondLimit(code: string)
    requires !InvalidIdentity(code)
    ensures var f := Failure(Infrastructure, code, NoError);
      && Resolve(Joined([f] + Plains(63))).classification == Retryable
      && Resolve(Joined(Plains(63) + [f])).classification == Infrastructure
  {
    var f := Failure(Infrastructure, code, NoError);
    var first, last := Joined([f] + Plains(63)), Joined(Plains(63) + [f]);
    assert [first][..0] + Children(first) == [f] + Plains(63);
    VisitsPlains([f], 63, 63);
    assert Visits([first], 64) == [first] + Plains(63);
    JoinedThenPlains(first, 63);
    VisitedSecond(last, Plains(63), f);
  }

  lemma JoinedThenPlains(j: Error, n: nat)
    requires j.Joined?
    ensures Fold([j] + Plains(n)) == Bottom
  {
    FoldIsBest([j] + Plains(n));
  }

  /** The last of joined errors is visited right after the join, so its infrastructure failure always wins. */
  lemma VisitedSecond(j: Error, front: seq<Error>, last: Error)
    requires j == Joined(front + [last])
    requires last.Failure? && last.classification.Infrastructure? && !InvalidIdentity(last.code)
    ensures Resolve(j).classification == Infrastructure
  {
    assert [j][..0] + Children(j) == front + [last];
    var visits := Visits([j], VisitLimit);
    assert visits == [j] + Visits(front + [last], 63);
    assert visits[1] == last;
    assert Candidate(last) in Candidates(visits);
    FoldIsBest(visits);
  }
}
