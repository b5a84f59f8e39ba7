/**
 Orchestrations that have yet to ask an agent about a failure: until they ask,
 or something fails, whatever else happens leaves them that question.
 */
module Asking {
  import opened PhenixCore
  import opened Records
  import opened Journal
  import opened Configuration
  import opened BoardInvariants
  import opened Scheduler
  import opened SchedulerMoves
  import opened ExecutionTree
  import opened Settling
  import IdOrder

  /** The failure that `o` has to deal with first is one that nobody was asked about. */
  ghost predicate HasToAsk(b: Board, o: ExecutionId) {
    LiveOrchestration(b, o) && Undecided(b, o) != {} && IdOrder.First(Undecided(b, o)) !in b.interfaces
  }

  /** Since `b` the orchestration `o` asked an agent about the failure of `f`, and that agent has not ended. */
  ghost predicate AskedAbout(b: Board, c: Board, o: ExecutionId, f: ExecutionId) {
    && f in c.interfaces && f !in b.interfaces
    && var agent := c.interfaces[f];
    agent !in b.executions && IsChild(c, o, agent) && IsLive(c, agent) && !IsOrchestration(c, agent)
  }

  /** `o` or something above it failed between `b` and `c`. */
  ghost predicate FailedAround(b: Board, c: Board, o: ExecutionId) {
    exists q :: IsLive(b, q) && InState(c, q, Failed) && InSubtree(b, q, o)
  }

  /** `o` has asked since `b`, or it or something above it failed. */
  ghost predicate Answered(b: Board, c: Board, o: ExecutionId) {
    (exists f :: AskedAbout(b, c, o, f)) || FailedAround(b, c, o)
  }

  /** Whoever had to ask and is not among `gone` still has to, or the question is answered, as it is for those who were told of an end. */
  ghost predicate Heeds(b: Board, c: Board, gone: set<ExecutionId>, told: set<ExecutionId>) {
    && (forall o :: HasToAsk(b, o) && o !in gone ==> HasToAsk(c, o) || Answered(b, c, o))
    && (forall o :: HasToAsk(b, o) && o in told ==> Answered(b, c, o))
  }

  lemma HeedsReflexive(b: Board, gone: set<ExecutionId>)
    ensures Heeds(b, b, gone, {})
  {
  }

  // ---------------------------------------------------------------------------
  // Later steps
  // ---------------------------------------------------------------------------

  lemma FailureStays(a: Board, b: Board, c: Board, o: ExecutionId)
    requires Evolves(a, b) && Evolves(b, c) && FailedAround(a, b, o)
    ensures FailedAround(a, c, o)
  {
    var q :| IsLive(a, q) && InState(b, q, Failed) && InSubtree(a, q, o);
    assert InState(c, q, Failed);
  }

  lemma FailureWasAround(a: Board, b: Board, c: Board, o: ExecutionId)
    requires Lineage(a) && Lineage(b) && Evolves(a, b) && Evolves(b, c) && o in a.executions && FailedAround(b, c, o)
    ensures FailedAround(a, c, o)
  {
    var q :| IsLive(b, q) && InState(c, q, Failed) && InSubtree(b, q, o);
    SubtreeStable(a, b, q, o);
    SubtreeBounds(a, q, o);
    assert IsLive(a, q);
  }

  /** The agent that was asked stays, unless something above it fails. */
  lemma AskedStays(a: Board, b: Board, c: Board, o: ExecutionId, f: ExecutionId, more: set<ExecutionId>)
    requires Lineage(a) && Lineage(b) && Evolves(a, b) && Evolves(b, c) && o in a.executions
    requires AskedAbout(a, b, o, f) && Spares(b, c, more) && more <= a.executions.Keys
    ensures AskedAbout(a, c, o, f) || FailedAround(a, c, o)
  {
    var agent := b.interfaces[f];
    if !IsLive(c, agent) {
      assert BelowFailure(b, c, agent);
      var q :| IsLive(b, q) && InState(c, q, Failed) && ProperDescendant(b, q, agent);
      assert InSubtree(b, q, o);
      FailureWasAround(a, b, c, o);
    }
  }

  lemma AnswerStays(a: Board, b: Board, c: Board, o: ExecutionId, more: set<ExecutionId>)
    requires Lineage(a) && Lineage(b) && Evolves(a, b) && Evolves(b, c) && o in a.executions
    requires Answered(a, b, o) && Spares(b, c, more) && more <= a.executions.Keys
    ensures Answered(a, c, o)
  {
    hide AskedAbout, Spares, Lineage, Evolves, FailedAround;
    if FailedAround(a, b, o) {
      FailureStays(a, b, c, o);
    } else {
      var f :| AskedAbout(a, b, o, f);
      AskedStays(a, b, c, o, f, more);
    }
  }

  lemma AnswerWasLater(a: Board, b: Board, c: Board, o: ExecutionId)
    requires Lineage(a) && Lineage(b) && Evolves(a, b) && Evolves(b, c) && o in a.executions && Answered(b, c, o)
    ensures Answered(a, c, o)
  {
    if FailedAround(b, c, o) {
      FailureWasAround(a, b, c, o);
    } else {
      var f :| AskedAbout(b, c, o, f);
      assert AskedAbout(a, c, o, f);
    }
  }

  lemma HeedsTransitive(a: Board, b: Board, c: Board, gone: set<ExecutionId>, more: set<ExecutionId>, told: set<ExecutionId>, later: set<ExecutionId>)
    requires Lineage(a) && Lineage(b) && Evolves(a, b) && Evolves(b, c)
    requires Heeds(a, b, gone, told) && Heeds(b, c, more, later) && Spares(b, c, more) && more <= a.executions.Keys
    ensures Heeds(a, c, gone + more, told + (later - gone))
  {
    forall o | HasToAsk(a, o) && Answered(a, b, o) ensures Answered(a, c, o) { AnswerStays(a, b, c, o, more); }
    forall o | HasToAsk(a, o) && Answered(b, c, o) ensures Answered(a, c, o) { AnswerWasLater(a, b, c, o); }
    hide HasToAsk, Answered, Spares, Lineage, Evolves;
  }

  // ---------------------------------------------------------------------------
  // One event at a time
  // ---------------------------------------------------------------------------

  /** A failed agent may join those that await a decision; nobody was asked about it. */
  lemma UndecidedAfterStateChange(b: Board, x: ExecutionId, s: ExecutionState, o: ExecutionId)
    requires Sound(b) && IsLive(b, x)
    ensures Undecided(b, o) <= Undecided(WithState(b, x, s), o) <= Undecided(b, o) + {x}
    ensures x !in b.interfaces
  {
    InterfacesAfterStateChange(b, x, s, o);
    forall f | f in b.interfaces ensures InState(b, f, Failed) { assert InterfaceSound(b, f); }
  }

  /** Whatever state another execution enters leaves the question open. */
  lemma StateChangeKeepsQuestion(b: Board, x: ExecutionId, s: ExecutionState, o: ExecutionId)
    requires BoardInv(b) && IsLive(b, x) && o != x && HasToAsk(b, o)
    ensures HasToAsk(WithState(b, x, s), o)
  {
    hide BoardInv, Undecided, Sound;
    BoardIsSound(b);
    UndecidedAfterStateChange(b, x, s, o);
    var f, g := IdOrder.First(Undecided(b, o)), IdOrder.First(Undecided(WithState(b, x, s), o));
    if g != x { IdOrder.FirstIsUnique(f, g, Undecided(b, o)); }
  }

  lemma StateChangeHeeds(b: Board, x: ExecutionId, s: ExecutionState)
    requires BoardInv(b) && IsLive(b, x)
    ensures Heeds(b, WithState(b, x, s), {x}, {})
  {
    hide HasToAsk, WithState, BoardInv;
    forall o | HasToAsk(b, o) && o != x ensures HasToAsk(WithState(b, x, s), o) { StateChangeKeepsQuestion(b, x, s, o); }
  }

  /** The children that `o` had are the same, and so is what was asked and decided about them. */
  ghost predicate SameFailures(b: Board, c: Board, o: ExecutionId) {
    && (forall x :: x in b.executions ==> x in c.executions && c.executions[x] == b.executions[x])
    && (forall x :: x in c.executions && x !in b.executions ==> !InState(c, x, Failed))
    && (forall f :: IsChild(b, o, f) ==> (f in c.interfaces <==> f in b.interfaces) && (f in c.decisions <==> f in b.decisions))
    && (forall f :: f in b.interfaces ==> f in c.interfaces && c.interfaces[f] == b.interfaces[f])
  }

  lemma SameFailuresAwaitDecisions(b: Board, c: Board, o: ExecutionId)
    requires InterfacesSound(b) && InterfacesSound(c) && SameFailures(b, c, o)
    ensures Undecided(c, o) == Undecided(b, o)
  {
    assert forall f :: IsFailedChildOf(c, o, f) <==> IsFailedChildOf(b, o, f);
    forall f | f in c.interfaces ensures IsChild(c, o, f) <==> IsChild(b, o, f) { assert InterfaceSound(c, f); }
    assert forall i: ExecutionId :: IsInterfaceOf(c, o, i) <==> IsInterfaceOf(b, o, i);
  }

  lemma SameFailuresKeepQuestion(b: Board, c: Board, o: ExecutionId)
    requires InterfacesSound(b) && InterfacesSound(c) && SameFailures(b, c, o) && HasToAsk(b, o)
    ensures HasToAsk(c, o)
  {
    SameFailuresAwaitDecisions(b, c, o);
    assert IsChild(b, o, IdOrder.First(Undecided(b, o))) by { assert IdOrder.First(Undecided(b, o)) in Undecided(b, o); }
    hide Undecided, InterfacesSound;
  }

  // ---------------------------------------------------------------------------
  // Cancelling in the order of ids
  // ---------------------------------------------------------------------------

  /** `y` is an agent that `o` waits for, and of those to be cancelled it comes before `o`. */
  ghost predicate GoesFirst(b: Board, ids: set<ExecutionId>, o: ExecutionId, y: ExecutionId) {
    IsChild(b, o, y) && IsLive(b, y) && !IsOrchestration(b, y) && y in ids && (o in ids ==> IdOrder.IdBefore(y, o))
  }

  /** Whoever had to ask has asked, or failed, once a child that goes first is among those dealt with. */
  ghost predicate AsksInTurn(b: Board, c: Board, ids: set<ExecutionId>, done: set<ExecutionId>) {
    forall o, y :: HasToAsk(b, o) && GoesFirst(b, ids, o, y) && y in done ==> Answered(b, c, o)
  }

  ghost predicate Precede(done: set<ExecutionId>, remaining: set<ExecutionId>) {
    forall x, y :: x in done && y in remaining ==> IdOrder.IdBefore(x, y)
  }

  lemma NothingAsked(b: Board, ids: set<ExecutionId>)
    ensures AsksInTurn(b, b, ids, {}) && Precede({}, ids)
  {
  }

  lemma FirstPrecedes(done: set<ExecutionId>, remaining: set<ExecutionId>, id: ExecutionId)
    requires Precede(done, remaining) && IdOrder.IsFirst(id, remaining)
    ensures Precede(done + {id}, remaining - {id})
  {
    hide IdOrder.IdBefore;
  }

  /** The turn of `id`: those that waited for it have asked before, are told now, or something above them failed. */
  lemma AskInTurn(a: Board, b: Board, c: Board, ids: set<ExecutionId>, done: set<ExecutionId>, remaining: set<ExecutionId>, id: ExecutionId)
    requires Lineage(a) && Lineage(b) && Evolves(a, b) && Evolves(b, c)
    requires Heeds(a, b, done, {}) && Spares(a, b, done) && Spares(b, c, {id}) && Heeds(b, c, {id}, ToldOf(b, id))
    requires AsksInTurn(a, b, ids, done) && Precede(done, remaining) && id in remaining && done + remaining == ids <= a.executions.Keys
    ensures AsksInTurn(a, c, ids, done + {id})
  {
    hide HasToAsk, Heeds, Answered, Lineage, Evolves, IdOrder.IdBefore;
    forall o, y | HasToAsk(a, o) && GoesFirst(a, ids, o, y) && y in done + {id} ensures Answered(a, c, o) {
      OrchestrationIsThere(a, o);
      if y !in done {
        IdOrder.IdOrderIsTotal(id, o, o);
        ToldInTurn(a, b, c, done, o, id);
      }
      if Answered(a, b, o) { AnswerStays(a, b, c, o, {id}); }
    }
  }

  lemma OrchestrationIsThere(b: Board, o: ExecutionId)
    requires HasToAsk(b, o)
    ensures o in b.executions
  {
  }

  lemma ToldInTurn(a: Board, b: Board, c: Board, done: set<ExecutionId>, o: ExecutionId, id: ExecutionId)
    requires Lineage(a) && Lineage(b) && Evolves(a, b) && Evolves(b, c)
    requires Heeds(a, b, done, {}) && Spares(a, b, done) && Heeds(b, c, {id}, ToldOf(b, id))
    requires HasToAsk(a, o) && IsChild(a, o, id) && IsLive(a, id) && !IsOrchestration(a, id) && o !in done && id !in done
    ensures Answered(a, b, o) || Answered(a, c, o)
  {
    hide HasToAsk, Answered, Lineage, Spares;
    OrchestrationIsThere(a, o);
    if !IsLive(b, id) {
      EndedByFailure(a, b, done, o, id);
    } else if HasToAsk(b, o) {
      AnswerWasLater(a, b, c, o);
    }
  }

  lemma EndedByFailure(a: Board, b: Board, done: set<ExecutionId>, o: ExecutionId, id: ExecutionId)
    requires Lineage(a) && Spares(a, b, done) && id !in done
    requires IsChild(a, o, id) && IsLive(a, id) && !IsOrchestration(a, id) && !IsLive(b, id)
    ensures Answered(a, b, o)
  {
    var q :| IsLive(a, q) && InState(b, q, Failed) && ProperDescendant(a, q, id);
    assert InSubtree(a, q, o);
  }

  /** Who is told when `x` ends now. */
  function ToldOf(b: Board, x: ExecutionId): set<ExecutionId> {
    if IsLive(b, x) then ParentOf(b, x) else {}
  }

  /** An orchestration whose next move is to ask about a failure has to ask. */
  lemma AskingIsNext(b: Board, definition: OrchestrationDefinition, o: ExecutionId)
    requires LiveOrchestration(b, o) && NextMove(b, definition, o).StartInterface?
    ensures HasToAsk(b, o)
  {
    hide Undecided, InterfaceFailed;
  }

  /**
   Cancelling a subtree of which an orchestration has yet to ask about a
   failure leaves the agent that it asks, which is not among the cancelled:
   always if one of its agents goes first, unless the orchestration or
   something above it fails meanwhile.
   */
  lemma CancellationLeavesWhoIsAsked(b: Board, c: Board, definition: OrchestrationDefinition, x: ExecutionId, o: ExecutionId, y: ExecutionId)
    requires Lineage(b) && Lineage(c) && Evolves(b, c) && x in b.executions && InSubtree(b, x, o)
    requires AsksInTurn(b, c, {x} + Below(b, x), {x} + Below(b, x)) && !FailedAround(b, c, o)
    requires LiveOrchestration(b, o) && NextMove(b, definition, o).StartInterface?
    requires IsChild(b, o, y) && IsLive(b, y) && !IsOrchestration(b, y) && IdOrder.IdBefore(y, o)
    ensures exists agent :: agent !in b.executions && IsChild(c, o, agent) && IsLive(c, agent) && InSubtree(c, x, agent)
  {
    hide HasToAsk, FailedAround, NextMove, IdOrder.IdBefore;
    AskingIsNext(b, definition, o);
    assert InSubtree(b, x, y) && GoesFirst(b, {x} + Below(b, x), o, y) by { SubtreeIsBelow(b, x); }
    var f :| AskedAbout(b, c, o, f);
    SubtreeStable(b, c, x, o);
    assert InSubtree(c, x, c.interfaces[f]);
  }
}
