/**
 What the frontend is told of executions that a cascade ends: whom it names as
 the cause, and that nobody is ended without a word.
 */
module Causes {
  import opened PhenixCore
  import opened Records
  import opened Journal
  import opened BoardInvariants
  import opened Scheduler
  import opened ExecutionTree
  import opened Settling
  import opened Creation
  import opened Cascade

  /** The cause is the failure of something above `y`. */
  ghost predicate BlamedOnAncestor(b: Board, y: ExecutionId, cause: TerminationCause) {
    cause.AncestorFailure? && InState(b, cause.failedAncestor, Failed) && ProperDescendant(b, cause.failedAncestor, y)
  }

  ghost predicate HasCause(b: Board, y: ExecutionId, cause: TerminationCause, given: map<ExecutionId, TerminationCause>) {
    (y in given && given[y] == cause) || BlamedOnAncestor(b, y, cause)
  }

  ghost predicate ToldEnd(d: Durable, e: Durable, y: ExecutionId) {
    exists cause :: Tells(d, e, y, Terminated(cause))
  }

  /**
   Everyone who is told to be terminated between `d` and `e` has the cause
   that was `given` for it, or is below something that failed, which is then
   named; agents and roots end with such a word, except for `own`; and nobody
   is told to have raised an error.
   */
  ghost predicate Explains(d: Durable, e: Durable, given: map<ExecutionId, TerminationCause>, own: set<ExecutionId>) {
    && d.events <= e.events
    && (forall k :: |d.events| <= k < |e.events| && e.events[k].kind.Terminated? ==>
          HasCause(e.board, e.events[k].execution, e.events[k].kind.cause, given))
    && (forall k :: |d.events| <= k < |e.events| ==> !e.events[k].kind.ErrorRaised?)
    && (forall y: ExecutionId :: IsLive(d.board, y) && !IsOrchestration(d.board, y) && !IsLive(e.board, y) && y !in own ==> ToldEnd(d, e, y))
  }

  /** The same cause for all of `ids`. */
  ghost function Given(ids: set<ExecutionId>, cause: TerminationCause): map<ExecutionId, TerminationCause> {
    map id | id in ids :: cause
  }

  lemma ExplainsNothing(d: Durable, given: map<ExecutionId, TerminationCause>, own: set<ExecutionId>)
    ensures Explains(d, d, given, own)
  {
  }

  /** What tells no termination and ends nobody needs no explanation. */
  lemma NothingToExplain(d: Durable, e: Durable)
    requires d.events <= e.events
    requires forall k :: |d.events| <= k < |e.events| ==> !e.events[k].kind.Terminated? && !e.events[k].kind.ErrorRaised?
    requires forall y :: IsLive(d.board, y) && !IsOrchestration(d.board, y) ==> IsLive(e.board, y)
    ensures Explains(d, e, map[], {})
  {
  }

  lemma CauseStays(b: Board, c: Board, y: ExecutionId, cause: TerminationCause, given: map<ExecutionId, TerminationCause>)
    requires Lineage(b) && Evolves(b, c) && HasCause(b, y, cause, given)
    ensures HasCause(c, y, cause, given)
  {
    if BlamedOnAncestor(b, y, cause) { SubtreeStable(b, c, cause.failedAncestor, y); }
  }

  lemma ToldEndStays(d: Durable, e: Durable, f: Durable, y: ExecutionId)
    requires d.events <= e.events && e.events <= f.events
    ensures ToldEnd(d, e, y) || ToldEnd(e, f, y) ==> ToldEnd(d, f, y)
  {
    if ToldEnd(d, e, y) {
      var cause :| Tells(d, e, y, Terminated(cause));
      var i :| |d.events| <= i < |e.events| && e.events[i].execution == y && e.events[i].kind == Terminated(cause);
      assert f.events[i] == e.events[i];
      assert Tells(d, f, y, Terminated(cause));
    } else if ToldEnd(e, f, y) {
      var cause :| Tells(e, f, y, Terminated(cause));
      assert Tells(d, f, y, Terminated(cause));
    }
  }

  lemma ExplainsTransitive(d: Durable, e: Durable, f: Durable, given: map<ExecutionId, TerminationCause>, own: set<ExecutionId>)
    requires Lineage(e.board) && Evolves(d.board, e.board) && Evolves(e.board, f.board)
    requires Explains(d, e, given, own) && Explains(e, f, given, own)
    ensures Explains(d, f, given, own)
  {
    hide HasCause, ToldEnd;
    forall k | |d.events| <= k < |f.events| && f.events[k].kind.Terminated?
      ensures HasCause(f.board, f.events[k].execution, f.events[k].kind.cause, given)
    {
      if k < |e.events| {
        assert f.events[k] == e.events[k];
        CauseStays(e.board, f.board, f.events[k].execution, f.events[k].kind.cause, given);
      }
    }
    forall k | |d.events| <= k < |f.events| ensures !f.events[k].kind.ErrorRaised? {
      if k < |e.events| { assert f.events[k] == e.events[k]; }
    }
    forall y: ExecutionId | IsLive(d.board, y) && !IsOrchestration(d.board, y) && !IsLive(f.board, y) && y !in own ensures ToldEnd(d, f, y) {
      ToldEndStays(d, e, f, y);
    }
  }

  /** Explanations of one cascade after the other. */
  lemma ExplainsThrough(d: Durable, e: Durable, f: Durable, root: ExecutionId, given: map<ExecutionId, TerminationCause>, own: set<ExecutionId>)
    requires Lineage(e.board) && Cascades(d, e, root) && Cascades(e, f, root)
    requires Explains(d, e, given, own) && Explains(e, f, given, own)
    ensures Explains(d, f, given, own)
  {
    CascadeEvolves(d, e, root);
    CascadeEvolves(e, f, root);
    hide *;
    ExplainsTransitive(d, e, f, given, own);
  }

  /** Who is given more causes, or excepts more, explains it too. */
  lemma ExplainsMore(d: Durable, e: Durable, given: map<ExecutionId, TerminationCause>, more: map<ExecutionId, TerminationCause>,
                     own: set<ExecutionId>, others: set<ExecutionId>)
    requires Explains(d, e, given, own) && own <= others && forall y :: y in given ==> y in more && more[y] == given[y]
    ensures Explains(d, e, more, others)
  {
  }

  /** One of `ids` after the others. */
  lemma OneMoreExplained(d: Durable, e: Durable, f: Durable, root: ExecutionId, ids: set<ExecutionId>, cause: TerminationCause, x: ExecutionId)
    requires Lineage(e.board) && Cascades(d, e, root) && Cascades(e, f, root) && x in ids
    requires Explains(d, e, Given(ids, cause), {}) && Explains(e, f, Given({x}, cause), {})
    ensures Explains(d, f, Given(ids, cause), {})
  {
    hide Cascades, Explains, Lineage;
    ExplainsMore(e, f, Given({x}, cause), Given(ids, cause), {}, {});
    ExplainsThrough(d, e, f, root, Given(ids, cause), {});
  }

  /** An orchestration that ends on its own account needs no exception. */
  lemma OrchestrationsAreExempt(d: Durable, e: Durable, given: map<ExecutionId, TerminationCause>, o: ExecutionId)
    requires Explains(d, e, given, {o}) && IsOrchestration(d.board, o)
    ensures Explains(d, e, given, {})
  {
  }

  lemma MoveExplains(d: Durable, x: ExecutionId, s: ExecutionState)
    requires x in d.board.executions
    ensures Explains(d, Moved(d, x, s), map[], {x})
  {
  }

  lemma PushExplains(d: Durable, x: ExecutionId, kind: ExecutionEventKind)
    requires x in d.board.executions && !kind.Terminated? && !kind.ErrorRaised?
    ensures Explains(d, Pushed(d, x, kind), map[], {})
  {
    NothingToExplain(d, Pushed(d, x, kind));
  }

  /** The end of `x` is explained by the word that precedes it. */
  lemma EndIsTold(d: Durable, e: Durable, x: ExecutionId, cause: TerminationCause)
    requires x in d.board.executions
    requires Explains(Pushed(d, x, Terminated(cause)), e, map[], {x})
    ensures Explains(d, e, Given({x}, cause), {})
  {
    var given := Given({x}, cause);
    var told := Pushed(d, x, Terminated(cause));
    ExplainsMore(told, e, map[], given, {x}, {x});
    hide HasCause;
    assert e.events[|d.events|] == told.events[|d.events|];
    forall k | |d.events| <= k < |e.events| && e.events[k].kind.Terminated?
      ensures HasCause(e.board, e.events[k].execution, e.events[k].kind.cause, given)
    {
      if k == |d.events| { GivenIsCause(e.board, x, cause, given); }
    }
    assert Tells(d, e, x, Terminated(cause));
    forall y: ExecutionId | IsLive(d.board, y) && !IsOrchestration(d.board, y) && !IsLive(e.board, y) ensures ToldEnd(d, e, y) {
      if y != x { ToldEndStays(d, told, e, y); }
    }
  }

  lemma GivenIsCause(b: Board, x: ExecutionId, cause: TerminationCause, given: map<ExecutionId, TerminationCause>)
    requires x in given && given[x] == cause
    ensures HasCause(b, x, cause, given)
  {
  }

  /** Where `x` failed, its failure is the cause for what is below it. */
  lemma DescendantsAreBlamed(d: Durable, e: Durable, x: ExecutionId)
    requires Lineage(d.board) && Evolves(d.board, e.board) && InState(d.board, x, Failed)
    requires Explains(d, e, Given(Below(d.board, x), AncestorFailure(x)), {})
    ensures Explains(d, e, map[], {})
  {
    hide ToldEnd;
    var given := Given(Below(d.board, x), AncestorFailure(x));
    forall k | |d.events| <= k < |e.events| && e.events[k].kind.Terminated?
      ensures HasCause(e.board, e.events[k].execution, e.events[k].kind.cause, map[])
    {
      var y, cause := e.events[k].execution, e.events[k].kind.cause;
      if y in given && given[y] == cause { SubtreeStable(d.board, e.board, x, y); }
    }
  }
}
