/**
 Settled boards: every live orchestration waits.  The lemmas follow one
 recorded event at a time and say which orchestrations may have something to
 do afterwards, how far the change reaches and what it leaves behind.
 */
module Settling {
  import opened PhenixCore
  import opened Records
  import opened Journal
  import opened Configuration
  import opened BoardInvariants
  import opened Scheduler
  import opened SchedulerMoves
  import opened ExecutionTree
  import opened DurableInvariants

  /** The orchestrations that have not ended. */
  ghost function LiveOrchestrations(b: Board): set<ExecutionId> {
    set o | o in b.executions && IsOrchestration(b, o) && IsLive(b, o)
  }

  ghost predicate Settled(b: Board, catalog: Catalog, o: ExecutionId) {
    && DefinitionOf(b, catalog, o).Some?
    && NextMove(b, DefinitionOf(b, catalog, o).value, o).Wait?
  }

  /** Every live orchestration outside `busy` waits for a child. */
  ghost predicate Calm(b: Board, catalog: Catalog, busy: set<ExecutionId>) {
    forall o :: o in LiveOrchestrations(b) && o !in busy ==> Settled(b, catalog, o)
  }

  // ---------------------------------------------------------------------------
  // How far a cascade reaches
  // ---------------------------------------------------------------------------

  /** Created executions are agents that an orchestration started. */
  ghost predicate CreatesAgents(b: Board, c: Board) {
    forall id :: id in c.executions && id !in b.executions ==>
      IsAgent(c, id) && c.executions[id].summary.parent.Some? && IsOrchestration(c, c.executions[id].summary.parent.value)
  }

  ghost predicate LiveStatesKept(b: Board, c: Board) {
    forall o :: o in LiveOrchestrations(c) ==>
      o in LiveOrchestrations(b) && (InState(c, o, Running) || c.executions[o].summary.state == b.executions[o].summary.state)
  }

  /** Agents and roots that are live are as they were, or new and pending. */
  ghost predicate AgentsKept(b: Board, c: Board) {
    forall x :: IsLive(c, x) && !IsOrchestration(c, x) ==>
      c.executions[x].summary.state == if x in b.executions then b.executions[x].summary.state else Pending
  }

  /** `c` follows `b` by changes within the tree of `root` that start no orchestration. */
  ghost predicate Swept(b: Board, c: Board, root: ExecutionId) {
    && Evolves(b, c)
    && OnlyInTree(b, c, root)
    && CreatesAgents(b, c)
    && LiveStatesKept(b, c)
    && AgentsKept(b, c)
  }

  /** `c` is `b` with a new tree, of which no agent or root has started. */
  ghost predicate OpensTree(b: Board, c: Board, x: ExecutionId) {
    && x !in b.executions && Evolves(b, c) && AgentsKept(b, c)
    && (forall y :: y in b.executions ==> y in c.executions && c.executions[y] == b.executions[y])
    && (forall y :: y in c.executions && y !in b.executions ==> RootOf(c, y) == x)
  }

  /** `c` follows `b` by changes within the tree of `root` that start no agent or root. */
  ghost predicate Within(b: Board, c: Board, root: ExecutionId) {
    Evolves(b, c) && OnlyInTree(b, c, root) && AgentsKept(b, c)
  }

  lemma SweptIsWithin(b: Board, c: Board, root: ExecutionId)
    requires Swept(b, c, root)
    ensures Within(b, c, root)
  {
  }

  lemma WithinTransitive(a: Board, b: Board, c: Board, root: ExecutionId)
    requires Lineage(a) && Lineage(b) && Within(a, b, root) && Within(b, c, root)
    ensures Within(a, c, root)
  {
    hide OnlyInTree, Evolves, Lineage, AgentsKept;
    EvolvesTransitive(a, b, c);
    OnlyInTreeTransitive(a, b, c, root);
    AgentsKeptTransitive(a, b, c);
  }

  /** Only the board and the event log differ, and the log has only grown. */
  ghost predicate OnlyBoardAndLog(d: Durable, e: Durable) {
    && e == d.(board := e.board, events := e.events, nextEvent := e.nextEvent)
    && d.events <= e.events
  }

  lemma SweptReflexive(b: Board, root: ExecutionId)
    ensures Swept(b, b, root)
  {
  }

  lemma SweptTransitive(a: Board, b: Board, c: Board, root: ExecutionId)
    requires Lineage(a) && Lineage(b)
    requires Swept(a, b, root) && Swept(b, c, root)
    ensures Swept(a, c, root)
  {
    hide OnlyInTree, LiveStatesKept, Evolves, Lineage, AgentsKept, CreatesAgents;
    EvolvesTransitive(a, b, c);
    OnlyInTreeTransitive(a, b, c, root);
    AgentsKeptTransitive(a, b, c);
    CreatesAgentsTransitive(a, b, c);
    LiveStatesKeptTransitive(a, b, c);
  }

  lemma LiveStatesKeptTransitive(a: Board, b: Board, c: Board)
    requires Evolves(b, c) && LiveStatesKept(a, b) && LiveStatesKept(b, c)
    ensures LiveStatesKept(a, c)
  {
    hide LiveOrchestrations;
  }

  lemma AgentsKeptTransitive(a: Board, b: Board, c: Board)
    requires Evolves(a, b) && Evolves(b, c) && AgentsKept(a, b) && AgentsKept(b, c)
    ensures AgentsKept(a, c)
  {
  }

  lemma CreatesAgentsTransitive(a: Board, b: Board, c: Board)
    requires Evolves(b, c) && CreatesAgents(a, b) && CreatesAgents(b, c)
    ensures CreatesAgents(a, c)
  {
  }

  lemma SweptShrinks(b: Board, c: Board, root: ExecutionId)
    requires Swept(b, c, root)
    ensures LiveOrchestrations(c) <= LiveOrchestrations(b)
  {
    hide LiveOrchestrations;
  }

  predicate LiveOrchestration(b: Board, o: ExecutionId) {
    IsOrchestration(b, o) && IsLive(b, o)
  }

  // ---------------------------------------------------------------------------
  // Who is taken along
  // ---------------------------------------------------------------------------

  /** Something above `y` failed between `b` and `c`. */
  ghost predicate BelowFailure(b: Board, c: Board, y: ExecutionId) {
    exists o :: IsLive(b, o) && InState(c, o, Failed) && ProperDescendant(b, o, y)
  }

  /** Agents and roots that ended between `b` and `c` were cancelled, as members of `gone` or because something above them failed. */
  ghost predicate Spares(b: Board, c: Board, gone: set<ExecutionId>) {
    forall y :: IsLive(b, y) && !IsOrchestration(b, y) && !IsLive(c, y) ==> InState(c, y, Cancelled) && (y in gone || BelowFailure(b, c, y))
  }

  /** Likewise, but for `x`, which may have ended in another way. */
  ghost predicate SparesOthers(b: Board, c: Board, x: ExecutionId) {
    forall y :: y != x && IsLive(b, y) && !IsOrchestration(b, y) && !IsLive(c, y) ==> InState(c, y, Cancelled) && BelowFailure(b, c, y)
  }

  /** What is below `x`. */
  ghost function Below(b: Board, x: ExecutionId): set<ExecutionId> {
    set y | y in b.executions && ProperDescendant(b, x, y)
  }

  lemma SubtreeIsBelow(b: Board, x: ExecutionId)
    requires x in b.executions
    ensures forall y :: y in {x} + Below(b, x) <==> InSubtree(b, x, y)
  {
    assert InSubtree(b, x, x);
  }

  lemma KeptSpares(b: Board, c: Board)
    requires forall x :: x in b.executions ==> x in c.executions && c.executions[x] == b.executions[x]
    ensures Spares(b, c, {})
  {
  }

  lemma SparesReflexive(b: Board, gone: set<ExecutionId>)
    ensures Spares(b, b, gone)
  {
  }

  lemma {:induction false} FailureCarries(a: Board, b: Board, c: Board, y: ExecutionId)
    requires Lineage(a) && Evolves(a, b) && Evolves(b, c) && y in a.executions
    ensures BelowFailure(a, b, y) || BelowFailure(b, c, y) ==> BelowFailure(a, c, y)
  {
    if BelowFailure(b, c, y) {
      var o :| IsLive(b, o) && InState(c, o, Failed) && ProperDescendant(b, o, y);
      SubtreeStable(a, b, o, y);
      SubtreeBounds(a, o, y);
    } else if BelowFailure(a, b, y) {
      var o :| IsLive(a, o) && InState(b, o, Failed) && ProperDescendant(a, o, y);
      assert InState(c, o, Failed);
    }
  }

  lemma SparesTransitive(a: Board, b: Board, c: Board, gone: set<ExecutionId>, more: set<ExecutionId>)
    requires Lineage(a) && Evolves(a, b) && Evolves(b, c) && Spares(a, b, gone) && Spares(b, c, more)
    ensures Spares(a, c, gone + more)
  {
    hide BelowFailure, Lineage;
    forall y | IsLive(a, y) && !IsOrchestration(a, y) && !IsLive(c, y)
      ensures InState(c, y, Cancelled) && (y in gone + more || BelowFailure(a, c, y))
    {
      FailureCarries(a, b, c, y);
    }
  }

  lemma SparesLater(b: Board, c: Board, e: Board)
    requires c.executions == b.executions && Spares(c, e, {})
    ensures Spares(b, e, {})
  {
    forall y | IsLive(b, y) && !IsOrchestration(b, y) && !IsLive(e, y) ensures InState(e, y, Cancelled) && BelowFailure(b, e, y) {
      assert IsLive(c, y) && !IsOrchestration(c, y);
      var o :| IsLive(c, o) && InState(e, o, Failed) && ProperDescendant(c, o, y);
      SameExecutionsSameTree(b, c, o, y);
    }
  }

  // ---------------------------------------------------------------------------
  // Who starts something
  // ---------------------------------------------------------------------------

  /** What is new in `c` was started by one of `parents`. */
  ghost predicate StartsUnder(b: Board, c: Board, parents: set<ExecutionId>) {
    forall id :: id in c.executions && id !in b.executions ==>
      c.executions[id].summary.parent.Some? && c.executions[id].summary.parent.value in parents
  }

  lemma StartsUnderMore(b: Board, c: Board, parents: set<ExecutionId>, more: set<ExecutionId>)
    requires StartsUnder(b, c, parents) && parents <= more
    ensures StartsUnder(b, c, more)
  {
  }

  lemma StartsUnderTransitive(a: Board, b: Board, c: Board, parents: set<ExecutionId>)
    requires Evolves(b, c) && StartsUnder(a, b, parents) && StartsUnder(b, c, parents)
    ensures StartsUnder(a, c, parents)
  {
  }

  /** Nothing is started below `x` unless a busy orchestration is below `x`: what was started is no orchestration. */
  lemma StartsNothingBelow(b: Board, c: Board, parents: set<ExecutionId>, x: ExecutionId, id: ExecutionId)
    requires Lineage(b) && Lineage(c) && Evolves(b, c) && CreatesAgents(b, c) && StartsUnder(b, c, parents)
    requires x in b.executions && forall y :: y in parents ==> !InSubtree(b, x, y)
    requires id in c.executions && id !in b.executions
    ensures !InSubtree(c, x, id)
  {
    var p := c.executions[id].summary.parent.value;
    if InSubtree(c, x, id) {
      assert InSubtree(c, x, p) && p in b.executions;
      SubtreeStable(b, c, x, p);
    }
  }

  // ---------------------------------------------------------------------------
  // One event at a time: how far it reaches
  // ---------------------------------------------------------------------------

  lemma StateChangeSweeps(b: Board, x: ExecutionId, s: ExecutionState)
    requires IsLive(b, x) && (IsTerminal(s) || (IsOrchestration(b, x) && s.Running?))
    ensures Swept(b, WithState(b, x, s), RootOf(b, x))
    ensures IsTerminal(s) ==> LiveOrchestrations(WithState(b, x, s)) == LiveOrchestrations(b) - {x}
  {
  }

  lemma CreationSweeps(b: Board, record: ExecutionRecord, p: ExecutionId)
    requires Sequenced(b) && Lineage(b) && IsOrchestration(b, p)
    requires record.summary.id == b.nextExecution + 1 && record.summary.parent == Some(p) && record.summary.kind.Agent?
    requires record.summary.state.Pending?
    ensures Swept(b, WithExecution(b, record), RootOf(b, p))
    ensures LiveOrchestrations(WithExecution(b, record)) == LiveOrchestrations(b)
    ensures StartsUnder(b, WithExecution(b, record), {p})
  {
    var c := WithExecution(b, record);
    CreationEvolves(b, record);
    SubtreeStable(b, c, p, p);
    assert RootOf(c, record.summary.id) == RootOf(c, p);
  }

  lemma ChildIsWithin(b: Board, record: ExecutionRecord, p: ExecutionId)
    requires Sequenced(b) && Lineage(b) && p in b.executions
    requires record.summary.id == b.nextExecution + 1 && record.summary.parent == Some(p) && record.summary.state.Pending?
    ensures Within(b, WithExecution(b, record), RootOf(b, p))
    ensures RootOf(WithExecution(b, record), record.summary.id) == RootOf(b, p)
  {
    var c := WithExecution(b, record);
    CreationEvolves(b, record);
    SubtreeStable(b, c, p, p);
    assert RootOf(c, record.summary.id) == RootOf(c, p);
  }

  /** `c` is `b` with more bindings. */
  ghost predicate BindsMore(b: Board, c: Board) {
    c.executions == b.executions && c.nextExecution == b.nextExecution && Evolves(b, c)
  }

  lemma BindingSweeps(b: Board, c: Board, root: ExecutionId)
    requires BindsMore(b, c)
    ensures Swept(b, c, root)
    ensures LiveOrchestrations(c) == LiveOrchestrations(b)
  {
  }

  // ---------------------------------------------------------------------------
  // One event at a time: who still waits
  // ---------------------------------------------------------------------------

  lemma BoardIsSound(b: Board)
    requires BoardInv(b)
    ensures Sound(b)
  {
  }

  lemma CalmFrame(b: Board, c: Board, catalog: Catalog, busy: set<ExecutionId>, stay: set<ExecutionId>)
    requires Sound(b) && Sound(c) && Evolves(b, c)
    requires LiveOrchestrations(c) <= LiveOrchestrations(b)
    requires Calm(b, catalog, busy)
    requires forall o :: o in LiveOrchestrations(c) && o !in stay ==> o !in busy && SameView(b, c, o)
    ensures Calm(c, catalog, stay)
  {
    forall o | o in LiveOrchestrations(c) && o !in stay
      ensures Settled(c, catalog, o)
    {
      SettledFrame(b, c, catalog, o);
    }
  }

  lemma SettledFrame(b: Board, c: Board, catalog: Catalog, o: ExecutionId)
    requires Sound(b) && Sound(c) && Evolves(b, c) && o in b.executions
    requires SameView(b, c, o) && Settled(b, catalog, o)
    ensures Settled(c, catalog, o)
  {
    assert DefinitionOf(c, catalog, o) == DefinitionOf(b, catalog, o);
    MoveFrame(b, c, DefinitionOf(b, catalog, o).value, o);
  }

  function ParentOf(b: Board, x: ExecutionId): set<ExecutionId> {
    if x in b.executions && b.executions[x].summary.parent.Some? then {b.executions[x].summary.parent.value} else {}
  }

  /** The orchestrations that may have something to do once `x` changes to `s`. */
  function Stirred(b: Board, x: ExecutionId, s: ExecutionState): set<ExecutionId> {
    if !IsTerminal(s) then {x} else if IsAgent(b, x) then ParentOf(b, x) else {}
  }

  lemma StateChangeKeepsSound(b: Board, x: ExecutionId, s: ExecutionState)
    requires BoardInv(b) && IsLive(b, x)
    ensures BoardInv(WithState(b, x, s)) && Evolves(b, WithState(b, x, s))
  {
    StateChangeEvolves(b, x, s);
    StateChangeKeepsLineage(b, x, s);
    BindingsCarry(b, WithState(b, x, s));
  }

  lemma StateChangeKeepsCalm(b: Board, catalog: Catalog, busy: set<ExecutionId>, x: ExecutionId, s: ExecutionState)
    requires BoardInv(b) && NodesApart(b) && IsLive(b, x) && Calm(b, catalog, busy)
    ensures Calm(WithState(b, x, s), catalog, busy + Stirred(b, x, s))
  {
    var c := WithState(b, x, s);
    StateChangeKeepsSound(b, x, s);
    forall o | o in LiveOrchestrations(c) && o !in busy + Stirred(b, x, s)
      ensures Settled(c, catalog, o)
    {
      assert o in LiveOrchestrations(b);
      StateChangeKeepsSettled(b, catalog, o, x, s);
    }
  }

  lemma StateChangeKeepsSettled(b: Board, catalog: Catalog, o: ExecutionId, x: ExecutionId, s: ExecutionState)
    requires BoardInv(b) && NodesApart(b) && IsLive(b, x) && BoardInv(WithState(b, x, s))
    requires o != x && o in b.executions && Settled(b, catalog, o)
    requires o !in Stirred(b, x, s)
    ensures Settled(WithState(b, x, s), catalog, o)
  {
    var c := WithState(b, x, s);
    assert DefinitionOf(c, catalog, o) == DefinitionOf(b, catalog, o);
    if IsChild(b, o, x) {
      WaitSurvivesStateChange(b, DefinitionOf(b, catalog, o).value, o, x, s);
    } else {
      StateChangeIsLocal(b, x, s, o);
      MoveFrame(b, c, DefinitionOf(b, catalog, o).value, o);
    }
  }

  /** An execution that ended is no longer busy. */
  lemma EndedIsCalm(b: Board, catalog: Catalog, busy: set<ExecutionId>, x: ExecutionId)
    requires Calm(b, catalog, busy) && !IsLive(b, x)
    ensures Calm(b, catalog, busy - {x})
  {
    hide Settled;
  }

  lemma CreationKeepsCalm(b: Board, catalog: Catalog, busy: set<ExecutionId>, record: ExecutionRecord, p: ExecutionId)
    requires BoardInv(b) && BoardInv(WithExecution(b, record)) && Calm(b, catalog, busy)
    requires record.summary.id == b.nextExecution + 1 && record.summary.parent == Some(p) && record.summary.kind.Agent?
    ensures Calm(WithExecution(b, record), catalog, busy + {p})
  {
    var c := WithExecution(b, record);
    CreationEvolves(b, record);
    assert LiveOrchestrations(c) <= LiveOrchestrations(b);
    forall o | o in LiveOrchestrations(c) && o !in busy + {p} ensures SameView(b, c, o) { CreationIsLocal(b, record, o); }
    CalmFrame(b, c, catalog, busy, busy + {p});
  }

  /** Binding something to a child of `p` concerns `p` only. */
  lemma BindingKeepsCalm(b: Board, c: Board, catalog: Catalog, busy: set<ExecutionId>, x: ExecutionId, p: ExecutionId)
    requires BoardInv(b) && BoardInv(c) && BindsMore(b, c) && Calm(b, catalog, busy)
    requires IsChild(b, p, x) && BindsOnly(b, c, x)
    ensures Calm(c, catalog, busy + {p})
  {
    forall o | o in LiveOrchestrations(c) && o !in busy + {p} ensures SameView(b, c, o) { BindingIsLocal(b, c, x, o); }
    assert LiveOrchestrations(c) == LiveOrchestrations(b);
    hide BoardInv, SameView, LiveOrchestrations, BindsOnly, Settled;
    CalmFrame(b, c, catalog, busy, busy + {p}) by { BoardIsSound(b); BoardIsSound(c); }
  }

  /** Cancelling a child leaves its waiting parent with no reason to start anything. */
  lemma CancelledChildStartsNothing(b: Board, catalog: Catalog, x: ExecutionId, p: ExecutionId)
    requires BoardInv(b) && IsLive(b, x) && IsChild(b, p, x) && Settled(b, catalog, p)
    ensures DefinitionOf(WithState(b, x, Cancelled), catalog, p) == DefinitionOf(b, catalog, p)
    ensures !NextMove(WithState(b, x, Cancelled), DefinitionOf(b, catalog, p).value, p).Creates()
  {
    CancellationCreatesNothing(b, DefinitionOf(b, catalog, p).value, p, x);
  }

  // ---------------------------------------------------------------------------
  // One event at a time: the event log
  // ---------------------------------------------------------------------------

  lemma LogAfterStateChange(events: seq<ExecutionEvent>, b: Board, event: ExecutionEvent, x: ExecutionId, s: ExecutionState)
    requires LogAgrees(events, b.executions) && x in b.executions
    requires event.execution == x && event.kind == StateChanged(s)
    ensures LogAgrees(events + [event], WithState(b, x, s).executions)
  {
    assert (events + [event])[..|events|] == events;
  }

  lemma LogAfterOther(events: seq<ExecutionEvent>, executions: Executions, event: ExecutionEvent)
    requires LogAgrees(events, executions) && !event.kind.StateChanged?
    ensures LogAgrees(events + [event], executions)
  {
    assert (events + [event])[..|events|] == events;
  }

  lemma LogAfterCreation(events: seq<ExecutionEvent>, executions: Executions, record: ExecutionRecord, event: ExecutionEvent)
    requires LogAgrees(events, executions)
    requires event.execution == record.summary.id && event.kind == StateChanged(record.summary.state)
    ensures LogAgrees(events + [event], executions[record.summary.id := record])
  {
    assert (events + [event])[..|events|] == events;
  }

  // ---------------------------------------------------------------------------
  // Progress
  // ---------------------------------------------------------------------------

  /** Where everybody waits, every running orchestration has a live child to wait for. */
  lemma CalmMakesProgress(b: Board, catalog: Catalog, o: ExecutionId)
    requires BoardInv(b) && CatalogWellFormed(catalog) && Calm(b, catalog, {})
    requires IsOrchestration(b, o) && InState(b, o, Running)
    ensures exists x :: IsChild(b, o, x) && IsLive(b, x)
  {
    assert o in LiveOrchestrations(b) && Settled(b, catalog, o);
    var callables := catalog[b.executions[o].configRevision].callables;
    assert RegistryWellFormed(callables);
    assert EntryWellFormed(callables, b.executions[o].summary.callable.value);
    WaitingHasALiveChild(b, DefinitionOf(b, catalog, o).value, o);
  }
}
