/**
 Safety of scheduling over whole runs: a journal whose events all satisfy
 `LiveGuard` satisfies `LiveInv` at each of its prefixes.
 */
module SchedulerSafety {
  import opened PhenixCore
  import opened Records
  import opened Journal
  import opened Configuration
  import opened BoardInvariants
  import opened Delegation
  import opened Scheduler

  // ---------------------------------------------------------------------------
  // Done stays done
  // ---------------------------------------------------------------------------

  lemma {:induction false} CompletedIsStable(b: Board, c: Board, id: ExecutionId)
    requires Sequenced(b) && DecisionsSound(b) && Evolves(b, c)
    requires id in b.executions && Effective(b, id).Completed?
    ensures Effective(c, id).Completed?
    decreases b.nextExecution - id
  {
    var next := Successor(b, id);
    if next.Some? {
      assert DecisionSound(b, id);
      CompletedIsStable(b, c, next.value);
    }
  }

  /** A node that is done is done in every later state. */
  lemma NodeDoneIsStable(b: Board, c: Board, o: ExecutionId, node: OrchestrationNodeId)
    requires Sequenced(b) && DecisionsSound(b) && Evolves(b, c)
    requires NodeDone(b, o, node)
    ensures NodeDone(c, o, node)
  {
    var x :| IsNodeChild(b, o, x) && b.nodes[x] == node && Effective(b, x).Completed?;
    CompletedIsStable(b, c, x);
    assert IsNodeChild(c, o, x);
  }

  lemma DependenciesDoneIsStable(b: Board, c: Board, o: ExecutionId, node: OrchestrationNode)
    requires Sequenced(b) && DecisionsSound(b) && Evolves(b, c)
    requires DependenciesDone(b, o, node)
    ensures DependenciesDone(c, o, node)
  {
    forall dep | dep in node.dependsOn ensures NodeDone(c, o, dep) { NodeDoneIsStable(b, c, o, dep); }
  }

  lemma AllDoneIsStable(b: Board, c: Board, definition: OrchestrationDefinition, o: ExecutionId)
    requires Sequenced(b) && DecisionsSound(b) && Evolves(b, c)
    requires AllDone(b, definition, o)
    ensures AllDone(c, definition, o)
  {
    forall i | 0 <= i < |definition.nodes| ensures NodeDone(c, o, definition.nodes[i].id) {
      NodeDoneIsStable(b, c, o, definition.nodes[i].id);
    }
  }

  lemma DefinitionIsStable(b: Board, c: Board, catalog: Catalog, later: Catalog, o: ExecutionId)
    requires Evolves(b, c) && CatalogGrows(catalog, later)
    requires DefinitionOf(b, catalog, o).Some?
    ensures DefinitionOf(c, later, o) == DefinitionOf(b, catalog, o)
  {
  }

  lemma StartIsStable(b: Board, c: Board, catalog: Catalog, later: Catalog, o: ExecutionId, node: OrchestrationNodeId)
    requires Sequenced(b) && DecisionsSound(b) && Evolves(b, c) && CatalogGrows(catalog, later)
    requires StartJustified(b, catalog, o, node)
    ensures StartJustified(c, later, o, node)
  {
    DefinitionIsStable(b, c, catalog, later, o);
    var nodes := DefinitionOf(b, catalog, o).value.nodes;
    var i :| 0 <= i < |nodes| && nodes[i].id == node && DependenciesDone(b, o, nodes[i]);
    DependenciesDoneIsStable(b, c, o, nodes[i]);
  }

  lemma OutcomeIsStable(b: Board, c: Board, catalog: Catalog, later: Catalog, o: ExecutionId, s: ExecutionState)
    requires Sequenced(b) && DecisionsSound(b) && Evolves(b, c) && CatalogGrows(catalog, later)
    requires OutcomeJustified(b, catalog, o, s)
    ensures OutcomeJustified(c, later, o, s)
  {
    if s.Completed? {
      DefinitionIsStable(b, c, catalog, later, o);
      AllDoneIsStable(b, c, DefinitionOf(b, catalog, o).value, o);
    }
    if s.Failed? {
      var f :| f in b.decisions && b.decisions[f].parent == o && b.decisions[f].decision.Fail?;
      assert f in c.decisions && c.decisions[f] == b.decisions[f];
    }
  }

  // ---------------------------------------------------------------------------
  // A live step keeps the live invariant
  // ---------------------------------------------------------------------------

  lemma StepKeepsShape(d: Durable, catalog: Catalog, event: DomainEvent)
    requires Sequenced(d.board) && Lineage(d.board) && Shaped(d.board, catalog)
    requires Accepts(d, event) && LiveGuard(d, catalog, event)
    ensures Shaped(Update(d, event).board, catalog)
  {
    hide Grant, OutcomeJustified, StartJustified, IsInterface, IsRecovery;
    if event.ExecutionCreated? {
      assert event.execution.id !in d.board.executions;
    }
  }

  /** What an execution is granted depends on nothing that changes later. */
  lemma GrantIsStable(b: Board, c: Board, catalog: Catalog, later: Catalog, x: ExecutionSummary, revision: ConfigRevisionId)
    requires Evolves(b, c) && CatalogGrows(catalog, later) && Grant(b, catalog, x, revision).Some?
    ensures Grant(c, later, x, revision) == Grant(b, catalog, x, revision)
    ensures forall s :: Grant(c, later, x.(state := s), revision) == Grant(b, catalog, x, revision)
  {
    hide ConfiguredAuthority;
  }

  lemma StepKeepsGrants(d: Durable, catalog: Catalog, event: DomainEvent)
    requires Sequenced(d.board) && GrantsHeld(d.board, catalog)
    requires Accepts(d, event) && LiveGuard(d, catalog, event) && Evolves(d.board, Update(d, event).board)
    ensures GrantsHeld(Update(d, event).board, catalog) && AllEntrusted(Update(d, event).board, catalog)
  {
    hide Grant, AllEntrusted, Entrusted;
    var b, c := d.board, Update(d, event).board;
    forall id | id in c.executions
      ensures Grant(c, catalog, c.executions[id].summary, c.executions[id].configRevision) == Some(c.executions[id].authority)
    {
      if id in b.executions {
        GrantIsStable(b, c, catalog, catalog, b.executions[id].summary, b.executions[id].configRevision);
        assert c.executions[id].summary == b.executions[id].summary.(state := c.executions[id].summary.state);
      } else {
        GrantIsStable(b, c, catalog, catalog, event.execution, PinnedRevision(d, event.execution));
      }
    }
    GrantsAreEntrusted(c, catalog);
  }

  lemma StepKeepsDag(d: Durable, catalog: Catalog, event: DomainEvent)
    requires BoardInv(d.board) && DagSafe(d.board, catalog)
    requires Accepts(d, event) && LiveGuard(d, catalog, event)
    requires Evolves(d.board, Update(d, event).board)
    ensures DagSafe(Update(d, event).board, catalog)
  {
    var b, c := d.board, Update(d, event).board;
    forall x, o | x in c.nodes && IsChild(c, o, x)
      ensures StartJustified(c, catalog, o, c.nodes[x])
    {
      if x in b.nodes {
        assert x in b.executions && IsChild(b, o, x);
        StartIsStable(b, c, catalog, catalog, o, b.nodes[x]);
      } else {
        StartIsStable(b, c, catalog, catalog, o, event.node);
      }
    }
  }

  lemma StepKeepsOutcomes(d: Durable, catalog: Catalog, event: DomainEvent)
    requires BoardInv(d.board) && OutcomesSound(d.board, catalog)
    requires Accepts(d, event) && LiveGuard(d, catalog, event)
    requires Evolves(d.board, Update(d, event).board)
    ensures OutcomesSound(Update(d, event).board, catalog)
  {
    var b, c := d.board, Update(d, event).board;
    forall o | IsOrchestration(c, o)
      ensures OutcomeJustified(c, catalog, o, c.executions[o].summary.state)
    {
      if o in b.executions {
        OutcomeIsStable(b, c, catalog, catalog, o, c.executions[o].summary.state);
      }
    }
  }

  lemma CreationKeepsRoles(b: Board, record: ExecutionRecord)
    requires Sequenced(b) && RolesApart(b) && record.summary.id == b.nextExecution + 1
    ensures RolesApart(WithExecution(b, record))
  {
    var c := WithExecution(b, record);
    assert forall x :: x in b.executions ==> (IsAgent(c, x) <==> IsAgent(b, x));
    assert forall x :: IsInterface(c, x) <==> IsInterface(b, x);
    assert forall x :: IsRecovery(c, x) <==> IsRecovery(b, x);
  }

  lemma StateChangeKeepsRoles(b: Board, id: ExecutionId, s: ExecutionState)
    requires RolesApart(b) && id in b.executions
    ensures RolesApart(WithState(b, id, s))
  {
    var c := WithState(b, id, s);
    assert forall x :: IsAgent(c, x) <==> IsAgent(b, x);
    assert forall x :: IsInterface(c, x) <==> IsInterface(b, x);
    assert forall x :: IsRecovery(c, x) <==> IsRecovery(b, x);
  }

  lemma InterfaceIsFresh(b: Board, p: ExecutionId, f: ExecutionId, i: ExecutionId)
    requires DecisionsSound(b) && InterfacesSound(b) && AcceptsInterface(b, p, f, i)
    ensures i !in b.interfaces && i !in b.decisions && i !in b.nodes && f != i
  {
    assert i in b.interfaces ==> InterfaceSound(b, i);
    assert i in b.decisions ==> DecisionSound(b, i);
  }

  lemma InterfaceKeepsRoles(b: Board, f: ExecutionId, i: ExecutionId)
    requires RolesApart(b)
    requires f !in b.interfaces && i !in b.interfaces && i !in b.decisions && i !in b.nodes && f != i
    requires !IsInterface(b, f) && !IsInterface(b, i) && !IsRecovery(b, i)
    ensures RolesApart(b.(interfaces := b.interfaces[f := i]))
  {
    var c := b.(interfaces := b.interfaces[f := i]);
    forall x: ExecutionId | IsInterface(c, x)
      ensures x == i || IsInterface(b, x)
    {
      var g :| g in c.interfaces && c.interfaces[g] == x;
      assert g != f ==> g in b.interfaces && b.interfaces[g] == x;
    }
    assert forall x: ExecutionId :: IsRecovery(c, x) <==> IsRecovery(b, x);
    assert NodesApart(c);
    assert InterfacesApart(c);
    assert InterfacesFailFinally(c);
    forall g, h | g in c.interfaces && h in c.interfaces && c.interfaces[g] == c.interfaces[h]
      ensures g == h
    {
      assert g != f ==> IsInterface(b, c.interfaces[g]);
      assert h != f ==> IsInterface(b, c.interfaces[h]);
    }
  }

  lemma DecisionKeepsRoles(b: Board, r: DecisionRecord)
    requires RolesApart(b) && AcceptsDecision(b, r)
    requires IsInterface(b, r.failedChild) ==> r.decision.Fail?
    ensures RolesApart(b.(decisions := b.decisions[r.failedChild := r]))
  {
    var c := b.(decisions := b.decisions[r.failedChild := r]);
    assert forall x: ExecutionId :: IsInterface(c, x) <==> IsInterface(b, x);
    forall x: ExecutionId | IsRecovery(c, x)
      ensures IsRecovery(b, x) || Some(x) == r.decision.RecoveryExecution()
    {
      var g :| g in c.decisions && c.decisions[g].decision.RecoveryExecution() == Some(x);
      assert g != r.failedChild ==> g in b.decisions && b.decisions[g] == c.decisions[g];
    }
    assert NodesApart(c);
    assert InterfacesApart(c);
    assert InterfacesFailFinally(c);
  }

  lemma NodeKeepsRoles(b: Board, node: OrchestrationNodeId, child: ExecutionId)
    requires RolesApart(b) && IsAgent(b, child) && !IsInterface(b, child) && !IsRecovery(b, child)
    ensures RolesApart(b.(nodes := b.nodes[child := node]))
  {
    var c := b.(nodes := b.nodes[child := node]);
    assert forall x :: IsInterface(c, x) <==> IsInterface(b, x);
    assert forall x :: IsRecovery(c, x) <==> IsRecovery(b, x);
    assert forall x :: IsAgent(c, x) <==> IsAgent(b, x);
  }

  lemma StepKeepsRoles(d: Durable, catalog: Catalog, event: DomainEvent)
    requires BoardInv(d.board) && RolesApart(d.board)
    requires Accepts(d, event) && LiveGuard(d, catalog, event)
    ensures RolesApart(Update(d, event).board)
  {
    match event {
      case ExecutionCreated(x, payload) => CreationKeepsRoles(d.board, NewRecord(d, x, payload));
      case ExecutionStateChanged(x, s) => StateChangeKeepsRoles(d.board, x, s);
      case OrchestrationFailureInterfaceStarted(p, f, i) =>
        InterfaceIsFresh(d.board, p, f, i);
        InterfaceKeepsRoles(d.board, f, i);
      case OrchestrationDecisionMade(r) => DecisionKeepsRoles(d.board, r);
      case OrchestrationNodeStarted(_, node, child) => NodeKeepsRoles(d.board, node, child);
      case _ =>
    }
  }

  /** One live step: dependencies stay done, roles stay apart and outcomes stay justified. */
  lemma LiveStep(d: Durable, catalog: Catalog, event: DomainEvent)
    requires BoardInv(d.board) && LiveInv(d.board, catalog)
    requires Accepts(d, event) && LiveGuard(d, catalog, event)
    ensures BoardInv(Update(d, event).board) && Evolves(d.board, Update(d, event).board)
    ensures LiveInv(Update(d, event).board, catalog)
  {
    StepKeepsBoard(d, event);
    StepKeepsShape(d, catalog, event);
    StepKeepsGrants(d, catalog, event);
    StepKeepsRoles(d, catalog, event);
    StepKeepsDag(d, catalog, event);
    StepKeepsOutcomes(d, catalog, event);
  }

  // ---------------------------------------------------------------------------
  // Whole runs
  // ---------------------------------------------------------------------------

  /** Every event of the journal was one a live runtime records in the state it was recorded in. */
  ghost predicate LiveRun(start: Durable, catalog: Catalog, events: seq<DomainEvent>) {
    events != [] ==>
      var before := events[..|events| - 1];
      && LiveRun(start, catalog, before)
      && (Replay(start, before).Ok? ==> LiveGuard(Replay(start, before).value, catalog, events[|events| - 1]))
  }

  lemma LiveIsEntrusted(b: Board, catalog: Catalog)
    requires LiveInv(b, catalog)
    ensures AllEntrusted(b, catalog)
  {
    GrantsAreEntrusted(b, catalog);
    hide AllEntrusted;
  }

  /** DAG safety, separation of roles, sound outcomes and grants hold after every prefix of a live run. */
  lemma {:induction false} LiveRunIsSafe(start: Durable, catalog: Catalog, events: seq<DomainEvent>, k: nat)
    requires BoardInv(start.board) && LiveInv(start.board, catalog)
    requires LiveRun(start, catalog, events) && Replay(start, events).Ok?
    requires k <= |events|
    ensures Replay(start, events[..k]).Ok?
    ensures BoardInv(Replay(start, events[..k]).value.board)
    ensures LiveInv(Replay(start, events[..k]).value.board, catalog) && AllEntrusted(Replay(start, events[..k]).value.board, catalog)
    ensures Evolves(Replay(start, events[..k]).value.board, Replay(start, events).value.board)
    decreases |events|
  {
    hide Accepts, Update, LiveGuard, BoardInv, LiveInv, Evolves, AllEntrusted;
    if events == [] {
      assert events[..k] == [];
      EvolvesReflexive(start.board);
      LiveIsEntrusted(start.board, catalog);
    } else {
      var before := events[..|events| - 1];
      LiveRunIsSafe(start, catalog, before, |before|);
      assert before[..|before|] == before;
      LiveStep(Replay(start, before).value, catalog, events[|events| - 1]);
      if k < |events| {
        LiveRunIsSafe(start, catalog, before, k);
        assert before[..k] == events[..k];
        EvolvesTransitive(Replay(start, events[..k]).value.board, Replay(start, before).value.board, Replay(start, events).value.board);
      } else {
        assert events[..k] == events;
        EvolvesReflexive(Replay(start, events).value.board);
        LiveIsEntrusted(Replay(start, events).value.board, catalog);
      }
    }
  }

  predicate IsFailDecisionFor(event: DomainEvent, o: ExecutionId) {
    event.OrchestrationDecisionMade? && event.decision.parent == o && event.decision.decision.Fail?
  }

  /** Wherever a live run fails an orchestration, a Fail decision for one of its children came before. */
  lemma FailureFollowsADecision(start: Durable, catalog: Catalog, events: seq<DomainEvent>, k: nat)
    requires start.board == EMPTY_BOARD
    requires LiveRun(start, catalog, events) && Replay(start, events).Ok?
    requires k < |events| && events[k].ExecutionStateChanged? && events[k].state.Failed?
    requires IsOrchestration(Replay(start, events).value.board, events[k].changed)
    ensures exists j :: 0 <= j < k && IsFailDecisionFor(events[j], events[k].changed)
  {
    hide Update, LiveGuard, Accepts, LiveRun, Replay, BoardInv, LiveInv, Evolves;
    var o := events[k].changed;
    EmptyBoardIsSafe(catalog);
    LiveRunIsSafe(start, catalog, events, k);
    RunStepAt(start, catalog, events, k);
    var before := Replay(start, events[..k]).value;
    assert FailDecided(before.board, o) by { FailureIsGuarded(before, catalog, Replay(start, events).value.board, events[k]); }
    var f :| f in before.board.decisions && before.board.decisions[f].parent == o && before.board.decisions[f].decision.Fail?;
    DecisionsAreRecorded(start, events[..k], f);
  }

  lemma EmptyBoardIsSafe(catalog: Catalog)
    ensures BoardInv(EMPTY_BOARD) && LiveInv(EMPTY_BOARD, catalog)
  {
  }

  lemma RunStepAt(start: Durable, catalog: Catalog, events: seq<DomainEvent>, k: nat)
    requires LiveRun(start, catalog, events) && Replay(start, events).Ok? && k < |events|
    ensures Replay(start, events[..k]).Ok?
    ensures Accepts(Replay(start, events[..k]).value, events[k])
    ensures LiveGuard(Replay(start, events[..k]).value, catalog, events[k])
  {
    hide Accepts, Update, LiveGuard;
    PrefixReplays(start, events, k + 1);
    PrefixReplays(start, events, k);
    LiveRunPrefix(start, catalog, events, k + 1);
    assert events[..k + 1][..k] == events[..k];
  }

  lemma FailureIsGuarded(d: Durable, catalog: Catalog, later: Board, event: DomainEvent)
    requires Accepts(d, event) && LiveGuard(d, catalog, event) && Evolves(d.board, later)
    requires event.ExecutionStateChanged? && event.state.Failed? && IsOrchestration(later, event.changed)
    ensures FailDecided(d.board, event.changed)
  {
  }

  lemma {:induction false} LiveRunPrefix(start: Durable, catalog: Catalog, events: seq<DomainEvent>, k: nat)
    requires LiveRun(start, catalog, events) && k <= |events|
    ensures LiveRun(start, catalog, events[..k])
  {
    if k < |events| {
      LiveRunPrefix(start, catalog, events[..|events| - 1], k);
      assert events[..|events| - 1][..k] == events[..k];
    } else {
      assert events[..k] == events;
    }
  }

  lemma DecisionComesFromItsEvent(d: Durable, event: DomainEvent, f: ExecutionId)
    requires Accepts(d, event) && f in Update(d, event).board.decisions
    ensures (f in d.board.decisions && Update(d, event).board.decisions[f] == d.board.decisions[f])
      || event == OrchestrationDecisionMade(Update(d, event).board.decisions[f])
  {
  }

  lemma {:induction false} DecisionsAreRecorded(start: Durable, events: seq<DomainEvent>, f: ExecutionId)
    requires start.board == EMPTY_BOARD
    requires Replay(start, events).Ok? && f in Replay(start, events).value.board.decisions
    ensures exists j :: 0 <= j < |events| && events[j] == OrchestrationDecisionMade(Replay(start, events).value.board.decisions[f])
  {
    hide Accepts, Update;
    var n := |events| - 1;
    var before := Replay(start, events[..n]).value;
    DecisionComesFromItsEvent(before, events[n], f);
    if f in before.board.decisions && Replay(start, events).value.board.decisions[f] == before.board.decisions[f] {
      DecisionsAreRecorded(start, events[..n], f);
      var j :| 0 <= j < n && events[..n][j] == OrchestrationDecisionMade(before.board.decisions[f]);
      assert events[j] == OrchestrationDecisionMade(before.board.decisions[f]);
    }
  }

  lemma GuardOutlivesCatalog(d: Durable, catalog: Catalog, later: Catalog, event: DomainEvent)
    requires CatalogGrows(catalog, later)
    requires LiveGuard(d, catalog, event)
    ensures LiveGuard(d, later, event)
  {
  }

  /** Activating further configuration revisions does not invalidate a run. */
  lemma {:induction false} LiveRunOutlivesCatalog(start: Durable, catalog: Catalog, later: Catalog, events: seq<DomainEvent>)
    requires CatalogGrows(catalog, later)
    requires LiveRun(start, catalog, events)
    ensures LiveRun(start, later, events)
  {
    if events != [] {
      var before := events[..|events| - 1];
      LiveRunOutlivesCatalog(start, catalog, later, before);
      if Replay(start, before).Ok? {
        GuardOutlivesCatalog(Replay(start, before).value, catalog, later, events[|events| - 1]);
      }
    }
  }
}
