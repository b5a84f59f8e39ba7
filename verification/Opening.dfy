/**
 Opening new executions from outside: what a fresh root or child means for the
 orchestrations that wait, and why an orchestration that was just started may
 be advanced.
 */
module Opening {
  import opened PhenixCore
  import opened Records
  import opened Journal
  import opened Configuration
  import opened Delegation
  import opened BoardInvariants
  import opened DurableInvariants
  import opened Scheduler
  import opened SchedulerMoves
  import opened ExecutionTree
  import opened Settling
  import opened Creation
  import opened Cascade
  import opened Acting

  // ---------------------------------------------------------------------------
  // A pending child that is bound to nothing changes no move
  // ---------------------------------------------------------------------------

  lemma {:induction false} LeafAfterCreation(b: Board, record: ExecutionRecord, x: ExecutionId)
    requires Sound(b) && record.summary.id == b.nextExecution + 1 && x in b.executions
    ensures Leaf(WithExecution(b, record), x) == Leaf(b, x)
    ensures Effective(WithExecution(b, record), x) == Effective(b, x)
    decreases b.nextExecution - x
  {
    assert record.summary.id !in b.executions;
    var next := Successor(b, x);
    if next.Some? {
      assert DecisionSound(b, x);
      LeafAfterCreation(b, record, next.value);
    }
  }

  lemma NodesAfterCreation(b: Board, record: ExecutionRecord, definition: OrchestrationDefinition, o: ExecutionId)
    requires Sound(b) && NodesSound(b) && record.summary.id == b.nextExecution + 1 && o in b.executions
    ensures MoveByNodes(WithExecution(b, record), definition, o) == MoveByNodes(b, definition, o)
  {
    var c := WithExecution(b, record);
    FreshIsUnbound(b, record.summary.id);
    assert record.summary.id !in b.executions;
    assert forall x :: IsNodeChild(c, o, x) <==> IsNodeChild(b, o, x);
    forall x | IsNodeChild(b, o, x) ensures Effective(c, x) == Effective(b, x) { LeafAfterCreation(b, record, x); }
    assert InState(c, o, Running) <==> InState(b, o, Running);
    SameNodesSameMove(b, c, definition, o);
  }

  lemma SameNodesSameMove(b: Board, c: Board, definition: OrchestrationDefinition, o: ExecutionId)
    requires InState(c, o, Running) <==> InState(b, o, Running)
    requires forall x :: IsNodeChild(c, o, x) <==> IsNodeChild(b, o, x)
    requires forall x :: IsNodeChild(b, o, x) ==> x in c.nodes && c.nodes[x] == b.nodes[x] && Effective(c, x) == Effective(b, x)
    ensures MoveByNodes(c, definition, o) == MoveByNodes(b, definition, o)
  {
    hide Effective, IsChild, InState;
    assert forall s :: SomeNodeIs(b, o, s) <==> SomeNodeIs(c, o, s);
    assert forall n :: NodeStarted(b, o, n) <==> NodeStarted(c, o, n);
    assert forall n :: NodeDone(b, o, n) <==> NodeDone(c, o, n);
    assert forall i :: 0 <= i < |definition.nodes| ==> (IsReady(b, o, definition.nodes[i]) <==> IsReady(c, o, definition.nodes[i]));
  }

  lemma InterfacesAfterCreation(b: Board, record: ExecutionRecord, o: ExecutionId)
    requires Sound(b) && record.summary.id == b.nextExecution + 1 && record.summary.state.Pending?
    ensures InterfaceFailed(WithExecution(b, record), o) <==> InterfaceFailed(b, o)
    ensures Undecided(WithExecution(b, record), o) == Undecided(b, o)
    ensures forall f :: f in b.interfaces ==>
      (IsLive(WithExecution(b, record), b.interfaces[f]) <==> IsLive(b, b.interfaces[f]))
  {
    var c := WithExecution(b, record);
    assert record.summary.id !in b.executions;
    forall f | f in b.interfaces
      ensures f in b.executions && b.interfaces[f] in b.executions
    {
      assert InterfaceSound(b, f);
    }
    assert forall i: ExecutionId :: IsInterfaceOf(c, o, i) <==> IsInterfaceOf(b, o, i);
  }

  lemma UnboundCreationKeepsMove(b: Board, record: ExecutionRecord, definition: OrchestrationDefinition, o: ExecutionId)
    requires Sound(b) && NodesSound(b) && record.summary.id == b.nextExecution + 1 && record.summary.state.Pending? && o in b.executions
    ensures NextMove(WithExecution(b, record), definition, o) == NextMove(b, definition, o)
  {
    InterfacesAfterCreation(b, record, o);
    NodesAfterCreation(b, record, definition, o);
    hide Sound, NodesSound, MoveByNodes, InterfaceFailed, Undecided;
  }

  /** After a creation everybody but the new execution waits as before. */
  lemma UnboundCreationKeepsCalm(b: Board, catalog: Catalog, record: ExecutionRecord)
    requires BoardInv(b) && Calm(b, catalog, {})
    requires record.summary.id == b.nextExecution + 1 && record.summary.state.Pending?
    ensures Calm(WithExecution(b, record), catalog, {record.summary.id})
  {
    var c := WithExecution(b, record);
    assert record.summary.id !in b.executions;
    forall o | o in LiveOrchestrations(c) && o != record.summary.id ensures Settled(c, catalog, o) {
      assert o in LiveOrchestrations(b);
      assert DefinitionOf(c, catalog, o) == DefinitionOf(b, catalog, o);
      UnboundCreationKeepsMove(b, record, DefinitionOf(b, catalog, o).value, o);
    }
  }

  lemma NonOrchestrationIsCalm(b: Board, catalog: Catalog, x: ExecutionId)
    requires Calm(b, catalog, {x}) && !IsOrchestration(b, x)
    ensures Calm(b, catalog, {})
  {
    hide Settled;
  }

  // ---------------------------------------------------------------------------
  // A childless orchestration
  // ---------------------------------------------------------------------------

  ghost predicate Childless(b: Board, x: ExecutionId) {
    forall y :: !IsChild(b, x, y)
  }

  lemma ChildlessIsUnhindered(b: Board, x: ExecutionId)
    requires InterfacesSound(b) && Childless(b, x)
    ensures Unhindered(b, x)
  {
  }

  lemma FreshIsChildless(b: Board, record: ExecutionRecord)
    requires Sequenced(b) && Lineage(b) && record.summary.id == b.nextExecution + 1 && record.summary.parent != Some(record.summary.id)
    ensures Childless(WithExecution(b, record), record.summary.id)
  {
  }

  lemma StateLeavesChildless(b: Board, x: ExecutionId, s: ExecutionState)
    requires x in b.executions && Childless(b, x)
    ensures Childless(WithState(b, x, s), x)
  {
    assert forall y :: IsChild(WithState(b, x, s), x, y) <==> IsChild(b, x, y);
  }

  // ---------------------------------------------------------------------------
  // Roots
  // ---------------------------------------------------------------------------

  /** `e` is `d` with the new parentless execution recorded. */
  ghost predicate RootRecorded(d: Durable, e: Durable, x: ExecutionSummary, payload: JournalPayload) {
    && x.id in e.board.executions && x.session in d.sessions
    && var record := e.board.executions[x.id];
    && record.summary == x
    && record.payload == MaterializedPayload(d.board.executions, x, d.events, payload)
    && record.configRevision == d.sessions[x.session].configRevision
    && e == d.(board := WithExecution(d.board, record))
  }

  lemma RootIsAccepted(d: Durable, configurations: Configurations, catalog: Catalog, x: ExecutionSummary, payload: JournalPayload)
    requires BoardInv(d.board) && x.id == d.board.nextExecution + 1 && x.parent.None? && x.state.Pending? && OpenSession(d, x.session)
    requires x.kind.Orchestration? ==>
      payload.JournalOrchestration? && DefinitionIn(catalog, d.sessions[x.session].configRevision, x.callable).Some?
    requires Stamp(d, configurations, ExecutionCreated(x, payload)).Ok?
    requires forall revision :: revision in configurations ==> revision in catalog && catalog[revision] == configurations[revision]
    ensures var event := Stamp(d, configurations, ExecutionCreated(x, payload)).value;
      Accepts(d, event) && LiveGuard(d, catalog, event) && RootRecorded(d, Update(d, event), x, payload)
  {
    StampIsTheGrant(d, configurations, catalog, x, payload);
    hide EffectiveAuthority, Grant;
  }

  lemma ClosedSessionRejects(d: Durable, configurations: Configurations, x: ExecutionSummary, payload: JournalPayload)
    requires !OpenSession(d, x.session) && Stamp(d, configurations, ExecutionCreated(x, payload)).Ok?
    ensures !Accepts(d, Stamp(d, configurations, ExecutionCreated(x, payload)).value)
  {
    hide EffectiveAuthority;
  }

  /** The frontend learns of what started a root and that it is pending. */
  function RootAnnounced(d: Durable, x: ExecutionId, text: string): Durable
    requires x in d.board.executions
  {
    Pushed(Pushed(d, x, UserInput(text)), x, StateChanged(Pending))
  }

  lemma RootAnnouncedKeepsLog(d: Durable, e: Durable, x: ExecutionSummary, payload: JournalPayload, text: string)
    requires RootRecorded(d, e, x, payload) && LogCurrent(d) && x.state.Pending?
    ensures LogCurrent(RootAnnounced(e, x.id, text))
  {
    LogAfterOther(d.events, d.board.executions, EventFor(e, x.id, UserInput(text)));
    var e1 := Pushed(e, x.id, UserInput(text));
    LogAfterCreation(e1.events, d.board.executions, e.board.executions[x.id], EventFor(e1, x.id, StateChanged(Pending)));
    hide LogAgrees;
  }

  lemma AgentStartedKeepsLog(d: Durable, e: Durable, o: ExecutionId, callable: CallableId, objective: Prompt, record: ExecutionRecord)
    requires AgentStarted(d, e, o, callable, objective, None, record) && LogCurrent(d)
    ensures LogCurrent(e) && e.board == WithExecution(d.board, record)
  {
    AnnouncingKeepsLog(d, WithExecution(d.board, record), o, record);
    AnnouncingOnlyLogs(d, WithExecution(d.board, record), o, record.summary.id);
    hide LogAgrees;
  }

  /** A new parentless execution takes the next id and its session's target. */
  function RootSummary(d: Durable, session: SessionId, kind: ExecutionKind, callable: CallableId): ExecutionSummary
    requires session in d.sessions
  {
    ExecutionSummary(d.board.nextExecution + 1, session, None, kind, Some(callable), d.sessions[session].defaultTarget, Pending)
  }

  /** A new parentless execution is a tree of its own. */
  lemma RootOpensTree(b: Board, record: ExecutionRecord)
    requires Sequenced(b) && record.summary.id == b.nextExecution + 1 && record.summary.parent.None? && record.summary.state.Pending?
    ensures OpensTree(b, WithExecution(b, record), record.summary.id) && OnlyChildrenOf(b, WithExecution(b, record), record.summary.id)
  {
    CreationEvolves(b, record);
  }

  /** What is new in `c` besides `x` are agents that `x` has started. */
  ghost predicate OnlyChildrenOf(b: Board, c: Board, x: ExecutionId) {
    forall y :: y in c.executions && y !in b.executions && y != x ==> IsChild(c, x, y) && IsAgent(c, y)
  }

  lemma ChildrenFollow(b: Board, c: Board, e: Board, x: ExecutionId)
    requires x in c.executions && x !in b.executions && OnlyChildrenOf(b, c, x)
    requires Evolves(c, e) && StartsUnder(c, e, {x}) && CreatesAgents(c, e)
    ensures OnlyChildrenOf(b, e, x)
  {
  }

  /** Nothing known in `b` but `x` has changed. */
  ghost predicate KeepsOthers(b: Board, c: Board, x: ExecutionId) {
    forall y :: y in b.executions && y != x ==> y in c.executions && c.executions[y] == b.executions[y]
  }

  /** `c` is `b` with a new orchestration `o` of `p` and the agents that it has started. */
  ghost predicate AddsPlan(b: Board, c: Board, p: ExecutionId, o: ExecutionId) {
    && o !in b.executions && IsOrchestration(c, o) && IsChild(c, p, o)
    && (forall y :: y in b.executions ==> y in c.executions && c.executions[y] == b.executions[y])
    && OnlyChildrenOf(b, c, o)
  }

  lemma PlanIsAdded(b: Board, c: Board, e: Board, p: ExecutionId, o: ExecutionId)
    requires Sequenced(b) && o == b.nextExecution + 1 && o in c.executions && c == WithExecution(b, c.executions[o])
    requires c.executions[o].summary.id == o && IsOrchestration(c, o) && IsChild(c, p, o)
    requires Evolves(c, e) && KeepsOthers(c, e, o) && StartsUnder(c, e, {o}) && CreatesAgents(c, e)
    ensures AddsPlan(b, e, p, o)
  {
    assert o !in b.executions;
  }

  /** A new tree stays one while it grows by a cascade of its own. */
  lemma TreeGrows(b: Board, c: Board, e: Board, x: ExecutionId)
    requires BoardInv(b) && BoardInv(c) && OpensTree(b, c, x) && x in c.executions && Swept(c, e, x)
    ensures OpensTree(b, e, x)
  {
    hide BoardInv, RootOf, Lineage, Sequenced, AgentsKept, Evolves, CreatesAgents, LiveStatesKept;
    BoardFacts(b);
    BoardFacts(c);
    EvolvesTransitive(b, c, e);
    AgentsKeptTransitive(b, c, e);
    forall y | y in c.executions ensures y in e.executions && RootOf(e, y) == RootOf(c, y) {
      SubtreeStable(c, e, y, y);
      StillThere(c, e, y);
    }
    forall y | y in b.executions ensures RootOf(c, y) != x {
      SubtreeStable(b, c, y, y);
      RootFacts(b, y);
    }
  }

  lemma StillThere(b: Board, c: Board, x: ExecutionId)
    requires Evolves(b, c) && x in b.executions
    ensures x in c.executions
  {
  }

  /** `e` is `d` with a recorded and announced root. */
  ghost predicate RootOpened(d: Durable, e: Durable, x: ExecutionSummary, payload: JournalPayload, text: string, record: ExecutionRecord) {
    && record.summary == x && x.session in d.sessions
    && record.payload == MaterializedPayload(d.board.executions, x, d.events, payload)
    && record.configRevision == d.sessions[x.session].configRevision
    && x.id in WithExecution(d.board, record).executions
    && e == RootAnnounced(d.(board := WithExecution(d.board, record)), x.id, text)
  }

  lemma RootOpenedFacts(d: Durable, e: Durable, catalog: Catalog, x: ExecutionSummary, payload: JournalPayload, text: string, record: ExecutionRecord)
    requires RootOpened(d, e, x, payload, text, record) && BoardInv(d.board)
    requires x.id == d.board.nextExecution + 1 && x.state.Pending? && x.parent.None?
    ensures x.session in d.sessions
    ensures e.board == WithExecution(d.board, record) && record.summary == x && record.configRevision == d.sessions[x.session].configRevision
    ensures LogCurrent(d) ==> LogCurrent(e)
    ensures Calm(d.board, catalog, {}) ==> Calm(e.board, catalog, {x.id})
    ensures Childless(e.board, x.id)
    ensures x.kind.Orchestration? <==> IsOrchestration(e.board, x.id)
    ensures InState(e.board, x.id, Pending)
  {
    var d1 := d.(board := WithExecution(d.board, record));
    if LogCurrent(d) { RootAnnouncedKeepsLog(d, d1, x, payload, text); }
    if Calm(d.board, catalog, {}) { UnboundCreationKeepsCalm(d.board, catalog, record); }
    FreshIsChildless(d.board, record);
    hide LogCurrent, Calm, BoardInv;
  }

  lemma ChildCreatedFacts(d: Durable, e: Durable, catalog: Catalog, parent: ExecutionId, kind: ExecutionKind, callable: CallableId,
                          payload: JournalPayload, child: ExecutionSummary)
    requires BoardInv(d.board) && ChildCreated(d, e, parent, kind, callable, payload, child)
    ensures child.id == d.board.nextExecution + 1 && child.id in e.board.executions && e.board.executions[child.id].summary == child
    ensures e.board == WithExecution(d.board, e.board.executions[child.id])
    ensures LogCurrent(d) ==> LogCurrent(e)
    ensures Calm(d.board, catalog, {}) ==> Calm(e.board, catalog, {child.id})
    ensures Childless(e.board, child.id)
    ensures kind.Orchestration? <==> IsOrchestration(e.board, child.id)
    ensures InState(e.board, child.id, Pending)
  {
    var d1: Durable :| ChildRecorded(d, d1, child, payload) && e == Announced(d1, parent, child.id);
    var record := d1.board.executions[child.id];
    AnnouncingOnlyLogs(d, d1.board, parent, child.id);
    if LogCurrent(d) { AnnouncingKeepsLog(d, d1.board, parent, record); }
    if Calm(d.board, catalog, {}) { UnboundCreationKeepsCalm(d.board, catalog, record); }
    FreshIsChildless(d.board, record);
    hide LogCurrent, Calm, BoardInv;
  }

  /** An orchestration without children has a first node to start. */
  lemma ChildlessHasReady(b: Board, catalog: Catalog, x: ExecutionId, definition: OrchestrationDefinition)
    requires Childless(b, x) && DependenciesFirst(definition.nodes) && definition.nodes != []
    ensures SomeReady(b, definition, x)
  {
    assert IsReady(b, x, definition.nodes[0]);
  }

  lemma StartedStaysRunning(b: Board, c: Board, catalog: Catalog, busy: set<ExecutionId>, x: ExecutionId, definition: OrchestrationDefinition)
    requires Unhindered(b, x) && InState(b, x, Running) && DefinitionOf(b, catalog, x) == Some(definition)
    requires SomeReady(b, definition, x) && Refreshes(b, c, catalog, busy, x)
    ensures InState(c, x, Running)
  {
    UnhinderedMove(b, catalog, x, definition);
    hide SomeReady, AllDone, Notifies;
  }

  /** The children of `x` are pending agents for exactly the nodes that depend on nothing. */
  ghost predicate FirstNodesPend(b: Board, definition: OrchestrationDefinition, x: ExecutionId) {
    && (forall node :: node in definition.nodes && node.dependsOn == [] ==> exists c :: StartedAs(b, x, c, node))
    && (forall c :: IsChild(b, x, c) ==> exists node :: node in definition.nodes && node.dependsOn == [] && StartedAs(b, x, c, node))
  }

  lemma ReadyWhenChildless(b: Board, x: ExecutionId, node: OrchestrationNode)
    requires Childless(b, x)
    ensures IsReady(b, x, node) <==> node.dependsOn == []
  {
    if node.dependsOn != [] { assert !NodeDone(b, x, node.dependsOn[0]); }
  }

  /** A childless orchestration starts exactly the nodes that depend on nothing. */
  lemma FirstNodesStart(b: Board, c: Board, catalog: Catalog, busy: set<ExecutionId>, x: ExecutionId, definition: OrchestrationDefinition)
    requires Sequenced(b) && Sequenced(c) && Childless(b, x)
    requires Unhindered(b, x) && InState(b, x, Running) && DefinitionOf(b, catalog, x) == Some(definition)
    requires SomeReady(b, definition, x) && Refreshes(b, c, catalog, busy, x)
    ensures FirstNodesPend(c, definition, x) && StartsUnder(b, c, {x}) && KeepsOthers(b, c, x)
  {
    hide SomeReady, AllDone, Notifies, Unhindered, IsReady, NodesStartedFrom, Childless, Sequenced, DefinitionOf, FirstNodesPend, KeepsOthers;
    UnhinderedMove(b, catalog, x, definition);
    var started :| NodesStartedFrom(b, c, x, started) && StartsAllReady(b, definition, x, started);
    forall node ensures node in started <==> node in definition.nodes && node.dependsOn == [] {
      ReadyAmongFacts(b, x, definition.nodes);
      ReadyWhenChildless(b, x, node);
    }
    StartedNodesPend(b, c, definition, x, started);
    NodesKeepOthers(b, c, x, started);
  }

  lemma NodesKeepOthers(b: Board, c: Board, x: ExecutionId, started: seq<OrchestrationNode>)
    requires NodesStartedFrom(b, c, x, started)
    ensures KeepsOthers(b, c, x)
  {
  }

  lemma NodesStartUnder(b: Board, c: Board, x: ExecutionId, started: seq<OrchestrationNode>)
    requires Sequenced(b) && Sequenced(c) && NodesStartedFrom(b, c, x, started)
    ensures StartsUnder(b, c, {x})
  {
    forall y | y in c.executions && y !in b.executions ensures IsChild(c, x, y) {
      var j := y - b.nextExecution - 1;
      assert StartedAs(c, x, b.nextExecution + 1 + j, started[j]);
    }
  }

  lemma StartedNodesPend(b: Board, c: Board, definition: OrchestrationDefinition, x: ExecutionId, started: seq<OrchestrationNode>)
    requires Sequenced(b) && Sequenced(c) && Childless(b, x) && NodesStartedFrom(b, c, x, started)
    requires forall node :: node in started <==> node in definition.nodes && node.dependsOn == []
    ensures FirstNodesPend(c, definition, x) && StartsUnder(b, c, {x})
  {
    NodesStartUnder(b, c, x, started);
    hide StartedAs, StartsUnder;
    forall node | node in started ensures exists y :: StartedAs(c, x, y, node) {
      var j :| 0 <= j < |started| && started[j] == node;
      assert StartedAs(c, x, b.nextExecution + 1 + j, started[j]);
    }
    forall y: ExecutionId | IsChild(c, x, y) ensures exists node :: node in definition.nodes && node.dependsOn == [] && StartedAs(c, x, y, node) {
      assert y !in b.executions by { assert !IsChild(b, x, y); }
      var j := y - b.nextExecution - 1;
      assert StartedAs(c, x, b.nextExecution + 1 + j, started[j]) && started[j] in started;
    }
  }

  lemma StartedAgentFacts(d: Durable, e: Durable, catalog: Catalog, parent: ExecutionId, callable: CallableId, objective: Prompt, record: ExecutionRecord)
    requires BoardInv(d.board) && AgentStarted(d, e, parent, callable, objective, None, record)
    ensures parent in d.board.executions
    ensures record.summary == ChildSummary(d.board, parent, Agent, callable) && e.board == WithExecution(d.board, record)
    ensures record.summary.id == d.board.nextExecution + 1 && record.summary.kind.Agent?
    ensures LogCurrent(d) ==> LogCurrent(e)
    ensures Calm(d.board, catalog, {}) ==> Calm(e.board, catalog, {})
    ensures StartsUnder(d.board, e.board, {parent})
  {
    AnnouncingOnlyLogs(d, WithExecution(d.board, record), parent, record.summary.id);
    if LogCurrent(d) { AgentStartedKeepsLog(d, e, parent, callable, objective, record); }
    if Calm(d.board, catalog, {}) {
      UnboundCreationKeepsCalm(d.board, catalog, record);
      NonOrchestrationIsCalm(e.board, catalog, record.summary.id);
    }
    hide LogCurrent, Calm, BoardInv;
  }

  /** A childless orchestration that has just been set running. */
  lemma BeginRuns(d: Durable, x: ExecutionId)
    requires BoardInv(d.board) && IsOrchestration(d.board, x) && InState(d.board, x, Pending) && Childless(d.board, x)
    ensures var b := Moved(d, x, Running).board;
      && Childless(b, x) && Unhindered(b, x) && IsOrchestration(b, x) && InState(b, x, Running)
      && RootOf(b, x) == RootOf(d.board, x)
    ensures Cascades(d, Moved(d, x, Running), RootOf(d.board, x))
  {
    StateLeavesChildless(d.board, x, Running);
    StateChangeKeepsSound(d.board, x, Running);
    ChildlessIsUnhindered(Moved(d, x, Running).board, x);
    MoveCascades(d, x, Running);
    MoveKeepsRoot(d, x, Running);
    hide BoardInv, Unhindered, RootOf, Cascades, Childless;
  }

  lemma RunningIsJustified(b: Board, catalog: Catalog, x: ExecutionId)
    ensures OutcomeJustified(b, catalog, x, Running)
  {
  }

  lemma AdvancedIsCalm(b: Board, c: Board, catalog: Catalog, x: ExecutionId)
    requires Refreshes(b, c, catalog, {}, x)
    ensures Calm(b, catalog, {x} + {x}) ==> Calm(c, catalog, {})
  {
    assert {x} + {x} == {} + {x};
    hide Settled, Acted;
  }

  /** What a caller without busy orchestrations gets from the end of an agent or root. */
  lemma RestAfter(d: Durable, e: Durable, catalog: Catalog, x: ExecutionId, root: ExecutionId)
    requires Cascades(d, e, root) && x in d.board.executions && !IsOrchestration(d.board, x)
    requires Calm(d.board, catalog, {}) ==> Calm(e.board, catalog, {} - {x})
    ensures Calm(d.board, catalog, {}) ==> Calm(e.board, catalog, {})
    ensures LogCurrent(d) ==> LogCurrent(e)
  {
    CascadeKeepsLog(d, e, root);
    CascadeEvolves(d, e, root);
    if Calm(d.board, catalog, {}) { CalmForRefresh(e.board, catalog, {} - {x}, {}); }
    hide Calm, LogCurrent, Cascades;
  }

  /** An agent or root that starts running changes nothing for the orchestrations. */
  lemma RunningRests(d: Durable, catalog: Catalog, configurations: Configurations, x: ExecutionId)
    requires BoardInv(d.board) && NodesApart(d.board) && IsLive(d.board, x) && !IsOrchestration(d.board, x)
    ensures var e := Moved(d, x, Running);
      && (Calm(d.board, catalog, {}) ==> Calm(e.board, catalog, {}))
      && (LogCurrent(d) ==> LogCurrent(e))
      && (AllEquipped(d.board, configurations, catalog) ==> AllEquipped(e.board, configurations, catalog))
  {
    hide Calm, LogCurrent, AllEquipped, BoardInv, NodesApart, Moved, KeepsOrchestrations;
    var e := Moved(d, x, Running);
    AgentMovesAlone(d, x);
    if Calm(d.board, catalog, {}) {
      MoveKeepsCalm(d, catalog, {}, x, Running);
      CalmForRefresh(e.board, catalog, {} + {x}, {x});
      NonOrchestrationIsCalm(e.board, catalog, x);
    }
    if LogCurrent(d) { MoveKeepsLog(d, x, Running); }
    if AllEquipped(d.board, configurations, catalog) { KeptOrchestrationsStayEquipped(d.board, e.board, configurations, catalog); }
  }

  lemma AgentMovesAlone(d: Durable, x: ExecutionId)
    requires x in d.board.executions && !IsOrchestration(d.board, x)
    ensures KeepsOrchestrations(d.board, Moved(d, x, Running).board) && !IsOrchestration(Moved(d, x, Running).board, x)
  {
  }

  // ---------------------------------------------------------------------------
  // Interrupting after a restart
  // ---------------------------------------------------------------------------

  /** A running execution with an input, which a restart cannot resume. */
  predicate NonResumable(b: Board, x: ExecutionId) {
    InState(b, x, Running) && b.executions[x].payload.InvocationPayload? && !IsOrchestration(b, x)
  }

  /** What was running with an input is interrupted, and nothing else has changed. */
  ghost predicate Interrupts(b: Board, c: Board) {
    && c == b.(executions := c.executions)
    && c.executions.Keys == b.executions.Keys
    && forall x :: x in b.executions ==>
         && x in c.executions
         && c.executions[x] == if NonResumable(b, x) then InterruptedRecord(b.executions[x]) else b.executions[x]
  }

  function InterruptedRecord(r: ExecutionRecord): ExecutionRecord {
    r.(summary := r.summary.(state := Interrupted))
  }

  /** Interruptions leave the orchestrations as they were. */
  lemma InterruptsKeepEquipped(b: Board, c: Board, configurations: Configurations, catalog: Catalog)
    requires Interrupts(b, c)
    ensures LiveOrchestrations(c) == LiveOrchestrations(b) && KeepsOrchestrations(b, c)
    ensures AllEquipped(b, configurations, catalog) ==> AllEquipped(c, configurations, catalog)
  {
    assert forall o :: o in LiveOrchestrations(b) ==> !NonResumable(b, o);
    if AllEquipped(b, configurations, catalog) { KeptOrchestrationsStayEquipped(b, c, configurations, catalog); }
    hide AllEquipped;
  }

  /** `c` is `b` with the executions `done` interrupted. */
  ghost predicate InterruptedSoFar(b: Board, c: Board, done: set<ExecutionId>) {
    && c == b.(executions := c.executions)
    && c.executions.Keys == b.executions.Keys
    && (forall x :: x in b.executions && x !in done ==> x in c.executions && c.executions[x] == b.executions[x])
    && (forall x :: x in done ==> x in b.executions && InState(c, x, Interrupted) && SameIdentity(b.executions[x], c.executions[x]))
  }

  lemma AllNonResumable(b: Board, ids: set<ExecutionId>)
    requires forall x :: IsOrchestration(b, x) ==> !b.executions[x].payload.InvocationPayload?
    requires forall x :: x in ids <==> InState(b, x, Running) && b.executions[x].payload.InvocationPayload?
    ensures forall x :: x in ids <==> NonResumable(b, x)
    ensures InterruptedSoFar(b, b, {})
  {
  }

  lemma AllInterrupted(b: Board, c: Board, done: set<ExecutionId>)
    requires InterruptedSoFar(b, c, done) && forall x :: x in done <==> NonResumable(b, x)
    ensures Interrupts(b, c)
  {
  }

  lemma InterruptContext(b: Board, c: Board, configurations: Configurations, done: set<ExecutionId>, x: ExecutionId)
    requires InterruptedSoFar(b, c, done) && x !in done && NonResumable(b, x)
    requires forall y :: y in done ==> NonResumable(b, y)
    requires Lineage(b) && configurations == map[]
    ensures IsLive(c, x) && !IsOrchestration(c, x) && x in c.executions
    ensures Unawaited(b, x) ==> Unawaited(c, x)
    ensures !Unawaited(b, x) ==> AwaitedUnbound(c, configurations, x)
    ensures InterruptedSoFar(b, WithState(c, x, Interrupted), done + {x})
  {
    OneMoreInterrupted(b, c, done, x);
    OrchestrationsKept(b, c, done);
    assert ParentOf(c, x) == ParentOf(b, x) && c.executions[x] == b.executions[x];
    assert forall p :: p in ParentOf(b, x) ==> p in b.executions;
    hide InterruptedSoFar, Lineage, LiveOrchestration;
  }

  lemma OneMoreInterrupted(b: Board, c: Board, done: set<ExecutionId>, x: ExecutionId)
    requires InterruptedSoFar(b, c, done) && x !in done && x in b.executions
    ensures x in c.executions && InterruptedSoFar(b, WithState(c, x, Interrupted), done + {x})
  {
  }

  lemma OrchestrationsKept(b: Board, c: Board, done: set<ExecutionId>)
    requires InterruptedSoFar(b, c, done) && forall y :: y in done ==> NonResumable(b, y)
    ensures forall p :: p in b.executions ==> (LiveOrchestration(c, p) <==> LiveOrchestration(b, p))
  {
    forall p | p in b.executions ensures LiveOrchestration(c, p) <==> LiveOrchestration(b, p) {
      assert p in done ==> NonResumable(b, p);
    }
  }
}
