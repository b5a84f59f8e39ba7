/**
 How a live runtime acts on the next move of an orchestration: creating and
 binding children, deciding failures and concluding.
 */
module Acting {
  import opened PhenixCore
  import opened Records
  import opened Journal
  import opened Configuration
  import opened Delegation
  import opened BoardInvariants
  import opened DurableInvariants
  import opened Scheduler
  import opened SchedulerSafety
  import opened SchedulerMoves
  import opened ExecutionTree
  import opened Settling
  import opened Asking
  import opened Creation
  import opened Cascade
  import opened Causes
  import IdOrder

  // ---------------------------------------------------------------------------
  // New children
  // ---------------------------------------------------------------------------

  /** The frontend learns of a pending child. */
  function Announced(d: Durable, parent: ExecutionId, child: ExecutionId): Durable
    requires parent in d.board.executions && child in d.board.executions
  {
    Pushed(Pushed(d, parent, ChildExecutionStarted(child)), child, StateChanged(Pending))
  }

  /** `e` is `d` with the new child recorded. */
  ghost predicate ChildRecorded(d: Durable, e: Durable, child: ExecutionSummary, payload: JournalPayload) {
    && child.parent.Some? && child.callable.Some?
    && child.id in e.board.executions
    && var record := e.board.executions[child.id];
    && record.summary == child
    && IsNewChild(d.board, record, child.parent.value, child.kind, child.callable.value)
    && (!child.kind.Root? ==> record.payload == payload.Plain())
    && e == d.(board := WithExecution(d.board, record))
  }

  lemma RecordedChild(d: Durable, configurations: Configurations, child: ExecutionSummary, payload: JournalPayload)
    requires child.parent.Some? && child.callable.Some? && child.parent.value in d.board.executions
    requires child == ChildSummary(d.board, child.parent.value, child.kind, child.callable.value)
    requires Stamp(d, configurations, ExecutionCreated(child, payload)).Ok?
    requires var event := Stamp(d, configurations, ExecutionCreated(child, payload)).value;
      && Accepts(d, event)
      && IsNewChild(d.board, NewRecord(d, event.execution, event.payload), child.parent.value, child.kind, child.callable.value)
      && (!child.kind.Root? ==> NewRecord(d, event.execution, event.payload).payload == payload.Plain())
      && Update(d, event) == d.(board := WithExecution(d.board, NewRecord(d, event.execution, event.payload)))
    ensures ChildRecorded(d, Update(d, Stamp(d, configurations, ExecutionCreated(child, payload)).value), child, payload)
  {
    hide Accepts, Update, EffectiveAuthority;
  }

  /** `e` is `d` with the new child recorded and announced. */
  ghost predicate ChildCreated(d: Durable, e: Durable, parent: ExecutionId, kind: ExecutionKind, callable: CallableId,
                               payload: JournalPayload, child: ExecutionSummary) {
    && parent in d.board.executions && child == ChildSummary(d.board, parent, kind, callable)
    && exists d1: Durable :: ChildRecorded(d, d1, child, payload) && e == Announced(d1, parent, child.id)
  }

  // ---------------------------------------------------------------------------
  // Acting on a move
  // ---------------------------------------------------------------------------

  ghost predicate DecidedFail(b: Board, f: ExecutionId) {
    f in b.decisions && b.decisions[f].decision.Fail?
  }

  /** `c` is `b` after the orchestration `o` did `move`. */
  ghost predicate Acted(b: Board, c: Board, definition: OrchestrationDefinition, o: ExecutionId, move: Move) {
    match move
    case FailForInterface =>
      && InState(c, o, Failed)
      && exists f :: f in b.interfaces && IsChild(b, o, f) && InState(b, b.interfaces[f], Failed)
           && f in c.decisions && DecidedFail(c, b.interfaces[f])
    case FailFor(f) => InState(c, o, Failed) && DecidedFail(c, f)
    case StartInterface(f, agent) =>
      && c.nextExecution == b.nextExecution + 1
      && InterfaceStartedFrom(b, c, o, f, c.nextExecution)
      && IsNewChild(b, c.executions[c.nextExecution], o, Agent, agent)
    case Conclude(s) => InState(c, o, s)
    case StartNodes => exists started :: NodesStartedFrom(b, c, o, started) && StartsAllReady(b, definition, o, started)
    case Wait => c == b
  }

  // ---------------------------------------------------------------------------
  // Creating and binding a child
  // ---------------------------------------------------------------------------

  lemma CreationKeepsBoard(b: Board, record: ExecutionRecord, p: ExecutionId, kind: ExecutionKind, callable: CallableId)
    requires BoardInv(b) && IsNewChild(b, record, p, kind, callable)
    ensures BoardInv(WithExecution(b, record)) && Evolves(b, WithExecution(b, record))
  {
    CreationEvolves(b, record);
    CreationKeepsLineage(b, record);
    BindingsCarry(b, WithExecution(b, record));
  }

  /** `c` is `b` with the new agent `record` of `o`, and something bound to `x`. */
  ghost predicate Starts(b: Board, c: Board, o: ExecutionId, record: ExecutionRecord, callable: CallableId, x: ExecutionId) {
    && IsNewChild(b, record, o, Agent, callable)
    && IsOrchestration(b, o)
    && BindsMore(WithExecution(b, record), c)
    && BindsOnly(WithExecution(b, record), c, x)
    && IsChild(c, o, x)
  }

  lemma StartSweeps(b: Board, c: Board, o: ExecutionId, record: ExecutionRecord, callable: CallableId, x: ExecutionId)
    requires Sequenced(b) && Lineage(b) && Lineage(WithExecution(b, record)) && Starts(b, c, o, record, callable, x)
    ensures Swept(b, c, RootOf(b, o)) && StartsUnder(b, c, {o})
  {
    CreationSweeps(b, record, o);
    BindingSweeps(WithExecution(b, record), c, RootOf(b, o));
    SweptTransitive(b, WithExecution(b, record), c, RootOf(b, o));
  }

  lemma StartKeepsCalm(b: Board, c: Board, catalog: Catalog, busy: set<ExecutionId>, o: ExecutionId, record: ExecutionRecord,
                       callable: CallableId, x: ExecutionId)
    requires BoardInv(b) && BoardInv(c) && BoardInv(WithExecution(b, record)) && Starts(b, c, o, record, callable, x)
    requires Calm(b, catalog, busy) && o in busy
    ensures Calm(c, catalog, busy)
  {
    hide BoardInv, BindsOnly, BindsMore, Evolves;
    CreationKeepsCalm(b, catalog, busy, record, o);
    assert busy + {o} == busy;
    assert IsChild(WithExecution(b, record), o, x) by { BindingLeavesChildren(b, c, o, record, callable, x); }
    BindingKeepsCalm(WithExecution(b, record), c, catalog, busy, x, o);
  }

  lemma BindingLeavesChildren(b: Board, c: Board, o: ExecutionId, record: ExecutionRecord, callable: CallableId, x: ExecutionId)
    requires Starts(b, c, o, record, callable, x)
    ensures IsChild(WithExecution(b, record), o, x)
  {
  }

  lemma AnnouncingKeepsLog(d: Durable, c: Board, o: ExecutionId, record: ExecutionRecord)
    requires LogCurrent(d) && o in d.board.executions && record.summary.state.Pending?
    requires c.executions == d.board.executions[record.summary.id := record]
    ensures LogCurrent(Announced(d.(board := c), o, record.summary.id))
  {
    var started := EventFor(d.(board := c), o, ChildExecutionStarted(record.summary.id));
    LogAfterOther(d.events, d.board.executions, started);
    var d1 := Pushed(d.(board := c), o, ChildExecutionStarted(record.summary.id));
    LogAfterCreation(d1.events, d.board.executions, record, EventFor(d1, record.summary.id, StateChanged(Pending)));
  }

  /** Starting and announcing a child is a cascade that starts one child of `o`. */
  lemma StartCascades(d: Durable, c: Board, o: ExecutionId, record: ExecutionRecord, callable: CallableId, x: ExecutionId)
    requires BoardInv(d.board) && BoardInv(WithExecution(d.board, record)) && Starts(d.board, c, o, record, callable, x)
    ensures Cascades(d, Announced(d.(board := c), o, record.summary.id), RootOf(d.board, o))
    ensures Announced(d.(board := c), o, record.summary.id).board == c
    ensures StartsUnder(d.board, c, {o})
  {
    StartFacts(d.board, c, o, record, callable, x);
    hide Starts, LogCurrent, Swept, BoardInv, StartsUnder, RootOf, Evolves, Lineage, Sequenced, IsNewChild, WithExecution;
    StartSweeps(d.board, c, o, record, callable, x) by { BoardFacts(d.board); BoardFacts(WithExecution(d.board, record)); }
    AnnouncingOnlyLogs(d, c, o, record.summary.id);
    hide Announced, OnlyBoardAndLog;
    if LogCurrent(d) { AnnouncingKeepsLog(d, c, o, record); }
  }

  lemma AnnouncingOnlyLogs(d: Durable, c: Board, o: ExecutionId, child: ExecutionId)
    requires o in c.executions && child in c.executions
    ensures OnlyBoardAndLog(d, Announced(d.(board := c), o, child))
    ensures Announced(d.(board := c), o, child).board == c
  {
    var d1 := d.(board := c);
    var e1 := EventFor(d1, o, ChildExecutionStarted(child));
    assert Announced(d1, o, child).events == d.events + [e1] + [EventFor(Pushed(d1, o, ChildExecutionStarted(child)), child, StateChanged(Pending))];
  }

  lemma StartFacts(b: Board, c: Board, o: ExecutionId, record: ExecutionRecord, callable: CallableId, x: ExecutionId)
    requires Starts(b, c, o, record, callable, x)
    ensures o in b.executions && o in c.executions && record.summary.state.Pending?
    ensures record.summary.id in c.executions && c.executions == b.executions[record.summary.id := record]
  {
  }

  // ---------------------------------------------------------------------------
  // Starting a node
  // ---------------------------------------------------------------------------

  function BindNode(b: Board, child: ExecutionId, node: OrchestrationNodeId): Board {
    b.(nodes := b.nodes[child := node])
  }

  /** A fresh child of `o` may be bound to a node that is not started and whose dependencies are done. */
  lemma NodeStartIsAccepted(d: Durable, d1: Durable, catalog: Catalog, o: ExecutionId, record: ExecutionRecord, callable: CallableId,
                            node: OrchestrationNodeId)
    requires BoardInv(d.board) && IsNewChild(d.board, record, o, Agent, callable) && IsOrchestration(d.board, o)
    requires d1.board == WithExecution(d.board, record)
    requires StartJustified(d.board, catalog, o, node) && !NodeStarted(d.board, o, node)
    ensures var event := OrchestrationNodeStarted(o, node, record.summary.id);
      && Accepts(d1, event) && LiveGuard(d1, catalog, event)
      && Update(d1, event) == d1.(board := BindNode(d1.board, record.summary.id, node))
  {
    var child := record.summary.id;
    CreationEvolves(d.board, record);
    StartIsStable(d.board, d1.board, catalog, catalog, o, node);
    FreshIsUnbound(d.board, child);
    FreshTakesNode(d.board, o, record, callable, node);
    hide StartJustified, BoardInv, Evolves, Sequenced, DecisionsSound, InterfacesSound, NodesSound, AcceptsNode, NodeStarted, WithExecution,
      IsInterface, IsRecovery, IsNewChild;
  }

  lemma FreshTakesNode(b: Board, o: ExecutionId, record: ExecutionRecord, callable: CallableId, node: OrchestrationNodeId)
    requires Sequenced(b) && IsNewChild(b, record, o, Agent, callable) && IsOrchestration(b, o)
    requires NodesSound(b) && record.summary.id !in b.nodes && !NodeStarted(b, o, node)
    ensures var c := WithExecution(b, record);
      && AcceptsNode(c, o, node, record.summary.id) && IsAgent(c, record.summary.id)
      && (forall x: ExecutionId :: IsInterface(c, x) <==> IsInterface(b, x)) && (forall x: ExecutionId :: IsRecovery(c, x) <==> IsRecovery(b, x))
  {
    var c := WithExecution(b, record);
    forall other | other in c.nodes && IsChild(c, o, other) ensures c.nodes[other] != node {
      assert IsNodeChild(b, o, other);
    }
  }

  lemma FreshIsUnbound(b: Board, child: ExecutionId)
    requires Sequenced(b) && DecisionsSound(b) && InterfacesSound(b) && NodesSound(b) && child > b.nextExecution
    ensures child !in b.nodes && child !in b.decisions && child !in b.interfaces
    ensures !IsInterface(b, child) && !IsRecovery(b, child) && child !in b.interfaces.Values
  {
    assert child in b.decisions ==> DecisionSound(b, child);
    forall f | f in b.interfaces ensures b.interfaces[f] != child && f != child { assert InterfaceSound(b, f); }
    forall f | f in b.decisions ensures b.decisions[f].decision.RecoveryExecution() != Some(child) { assert DecisionSound(b, f); }
  }

  lemma NodeStarts(b: Board, o: ExecutionId, record: ExecutionRecord, callable: CallableId, node: OrchestrationNodeId)
    requires BoardInv(b) && IsNewChild(b, record, o, Agent, callable) && IsOrchestration(b, o)
    ensures Starts(b, BindNode(WithExecution(b, record), record.summary.id, node), o, record, callable, record.summary.id)
  {
    FreshIsUnbound(b, record.summary.id);
    hide BoardInv, Sequenced, DecisionsSound, InterfacesSound, NodesSound;
  }

  // ---------------------------------------------------------------------------
  // Starting a failure interface
  // ---------------------------------------------------------------------------

  function BindInterface(b: Board, f: ExecutionId, interface: ExecutionId): Board {
    b.(interfaces := b.interfaces[f := interface])
  }

  lemma InterfaceStartIsAccepted(d: Durable, d1: Durable, catalog: Catalog, o: ExecutionId, record: ExecutionRecord, callable: CallableId,
                                 f: ExecutionId)
    requires BoardInv(d.board) && IsNewChild(d.board, record, o, Agent, callable)
    requires IsOrchestration(d.board, o) && InState(d.board, o, Running)
    requires IsFailedChildOf(d.board, o, f) && f !in d.board.interfaces && !IsInterfaceOf(d.board, o, f)
    requires d1.board == WithExecution(d.board, record)
    ensures var event := OrchestrationFailureInterfaceStarted(o, f, record.summary.id);
      && Accepts(d1, event) && LiveGuard(d1, catalog, event)
      && Update(d1, event) == d1.(board := BindInterface(d1.board, f, record.summary.id))
  {
    var b := d.board;
    FreshIsUnbound(b, record.summary.id);
    assert !IsInterface(b, f) by {
      forall g | g in b.interfaces ensures b.interfaces[g] != f {
        assert InterfaceSound(b, g);
        assert b.interfaces[g] == f ==> IsChild(b, o, g);
      }
    }
    assert record.summary.id !in b.executions;
    hide BoardInv;
  }

  lemma InterfaceStarts(b: Board, o: ExecutionId, record: ExecutionRecord, callable: CallableId, f: ExecutionId)
    requires BoardInv(b) && IsNewChild(b, record, o, Agent, callable) && IsOrchestration(b, o)
    requires IsChild(b, o, f) && f !in b.interfaces && AsksAbout(b, record, o, f)
    ensures Starts(b, BindInterface(WithExecution(b, record), f, record.summary.id), o, record, callable, f)
    ensures InterfaceStartedFrom(b, BindInterface(WithExecution(b, record), f, record.summary.id), o, f, record.summary.id)
  {
    hide BoardInv;
    FreshIsUnbound(b, record.summary.id) by { BoardFacts(b); UnboundFacts(b); }
    InterfaceBinds(b, o, record, callable, f) by { BoardFacts(b); }
  }

  lemma UnboundFacts(b: Board)
    requires BoardInv(b)
    ensures DecisionsSound(b) && InterfacesSound(b) && NodesSound(b)
  {
  }

  lemma InterfaceBinds(b: Board, o: ExecutionId, record: ExecutionRecord, callable: CallableId, f: ExecutionId)
    requires Sequenced(b) && IsNewChild(b, record, o, Agent, callable) && IsOrchestration(b, o)
    requires IsChild(b, o, f) && f !in b.interfaces && AsksAbout(b, record, o, f)
    ensures Starts(b, BindInterface(WithExecution(b, record), f, record.summary.id), o, record, callable, f)
    ensures InterfaceStartedFrom(b, BindInterface(WithExecution(b, record), f, record.summary.id), o, f, record.summary.id)
  {
    assert record.summary.id !in b.executions && f in b.executions;
  }

  // ---------------------------------------------------------------------------
  // What the starting methods achieve
  // ---------------------------------------------------------------------------

  /** `e` is `d` with an announced new agent of `o` that may be bound to a node. */
  ghost predicate AgentStarted(d: Durable, e: Durable, o: ExecutionId, callable: CallableId, objective: Prompt,
                               node: Option<OrchestrationNodeId>, record: ExecutionRecord) {
    && IsNewChild(d.board, record, o, Agent, callable)
    && record.payload == InvocationPayload(objective)
    && var b := WithExecution(d.board, record);
    && o in b.executions && record.summary.id in b.executions
    && e == Announced(d.(board := if node.Some? then BindNode(b, record.summary.id, node.value) else b), o, record.summary.id)
  }

  /** The agent of `record` is asked what `o` shall do about the failure of `f`. */
  ghost predicate AsksAbout(b: Board, record: ExecutionRecord, o: ExecutionId, f: ExecutionId) {
    f in b.executions && record.payload == InvocationPayload(FailureInterfacePrompt(o, f, b.executions[f].summary.callable))
  }

  /** `e` is `d` with an announced new agent of `o` that interfaces the failure of `f`. */
  ghost predicate InterfaceStarted(d: Durable, e: Durable, o: ExecutionId, callable: CallableId, f: ExecutionId, record: ExecutionRecord) {
    && IsNewChild(d.board, record, o, Agent, callable) && AsksAbout(d.board, record, o, f)
    && var b := WithExecution(d.board, record);
    && o in b.executions && record.summary.id in b.executions
    && e == Announced(d.(board := BindInterface(b, f, record.summary.id)), o, record.summary.id)
  }

  /** Binding may come before or after the announcement. */
  lemma AnnouncingCommutes(d: Durable, b: Board, c: Board, o: ExecutionId, child: ExecutionId)
    requires o in b.executions && child in b.executions && c.executions == b.executions
    ensures Announced(d.(board := b), o, child).(board := c) == Announced(d.(board := c), o, child)
    ensures Announced(d.(board := b), o, child).board == b
  {
  }

  ghost predicate StartAllowed(d: Durable, o: ExecutionId, callable: CallableId, mayStart: bool) {
    mayStart && o in d.board.executions && callable in d.board.executions[o].authority.callables
    && OpenSession(d, d.board.executions[o].summary.session)
  }

  predicate RecoveryAllowed(b: Board, o: ExecutionId, callable: CallableId, mayStart: bool) {
    mayStart && InState(b, o, Running) && callable in b.executions[o].authority.callables
  }

  lemma CreatedAgent(d: Durable, e: Durable, o: ExecutionId, callable: CallableId, objective: Prompt, child: ExecutionSummary)
    returns (record: ExecutionRecord)
    requires ChildCreated(d, e, o, Agent, callable, JournalInvocation(objective, ExecutionAuthority.READ_ONLY), child)
    ensures record.summary == child
    ensures AgentStarted(d, e, o, callable, objective, None, record)
  {
    var d1: Durable :| ChildRecorded(d, d1, child, JournalInvocation(objective, ExecutionAuthority.READ_ONLY)) && e == Announced(d1, o, child.id);
    record := d1.board.executions[child.id];
  }

  lemma StartedNode(d: Durable, e: Durable, catalog: Catalog, o: ExecutionId, callable: CallableId, objective: Prompt,
                    node: OrchestrationNodeId, record: ExecutionRecord)
    requires BoardInv(d.board) && IsOrchestration(d.board, o) && AgentStarted(d, e, o, callable, objective, None, record)
    requires StartJustified(d.board, catalog, o, node) && !NodeStarted(d.board, o, node)
    ensures var event := OrchestrationNodeStarted(o, node, record.summary.id);
      && Accepts(e, event) && LiveGuard(e, catalog, event)
      && AgentStarted(d, Update(e, event), o, callable, objective, Some(node), record)
  {
    hide BoardInv, StartJustified, NodeStarted, Accepts, LiveGuard, Update, Announced, IsNewChild;
    var b := WithExecution(d.board, record);
    AnnouncingCommutes(d, b, BindNode(b, record.summary.id, node), o, record.summary.id);
    NodeStartIsAccepted(d, e, catalog, o, record, callable, node);
  }

  /** Binding and announcing `child` will make it the interface of `f`. */
  ghost predicate InterfaceReady(d: Durable, e: Durable, catalog: Catalog, o: ExecutionId, callable: CallableId, f: ExecutionId,
                                 child: ExecutionId, record: ExecutionRecord) {
    var event := OrchestrationFailureInterfaceStarted(o, f, child);
    && Accepts(e, event) && LiveGuard(e, catalog, event)
    && o in e.board.executions && child in e.board.executions
    && Update(e, event).board.executions == e.board.executions
    && InterfaceStarted(d, Announced(Update(e, event), o, child), o, callable, f, record)
  }

  /** A recorded child is ready to be bound as the interface of `f`. */
  lemma InterfaceRecorded(d: Durable, e: Durable, catalog: Catalog, o: ExecutionId, callable: CallableId, objective: Prompt,
                          f: ExecutionId, child: ExecutionSummary) returns (record: ExecutionRecord)
    requires BoardInv(d.board) && IsOrchestration(d.board, o) && InState(d.board, o, Running)
    requires IsFailedChildOf(d.board, o, f) && f !in d.board.interfaces && !IsInterfaceOf(d.board, o, f)
    requires child == ChildSummary(d.board, o, Agent, callable)
    requires objective == FailureInterfacePrompt(o, f, d.board.executions[f].summary.callable)
    requires ChildRecorded(d, e, child, JournalInvocation(objective, ExecutionAuthority.READ_ONLY))
    ensures InterfaceReady(d, e, catalog, o, callable, f, child.id, record)
  {
    record := e.board.executions[child.id];
    assert AsksAbout(d.board, record, o, f);
    hide BoardInv, IsNewChild, Accepts, LiveGuard, Update, IsFailedChildOf, IsInterfaceOf, Announced, AsksAbout;
    InterfaceStartIsAccepted(d, e, catalog, o, record, callable, f);
  }

  lemma InterfaceActs(d: Durable, e: Durable, catalog: Catalog, busy: set<ExecutionId>, o: ExecutionId, callable: CallableId,
                      f: ExecutionId, record: ExecutionRecord)
    requires BoardInv(d.board) && BoardInv(e.board) && InterfaceStarted(d, e, o, callable, f, record)
    requires MoveOf(d.board, catalog, o) == StartInterface(f, callable) && LiveOrchestration(d.board, o)
    requires Settled(e.board, catalog, o)
    requires IsChild(d.board, o, f) && f !in d.board.interfaces
    ensures Cascades(d, e, RootOf(d.board, o))
    ensures Notifies(d.board, e.board, catalog, busy, o)
    ensures StartsAs(d.board, e.board, o, callable, f, record)
  {
    hide BoardInv, Starts, Settled, Cascades, Announced, IsNewChild, RootOf, MoveOf, Calm, StartsUnder, InterfaceStartedFrom, Evolves, Swept,
      Notifies;
    var c := BindInterface(WithExecution(d.board, record), f, record.summary.id);
    CreationKeepsBoard(d.board, record, o, Agent, callable);
    InterfaceStarts(d.board, o, record, callable, f);
    StartCascades(d, c, o, record, callable, f);
    if Calm(d.board, catalog, busy + {o}) {
      StartKeepsCalm(d.board, c, catalog, busy + {o}, o, record, callable, f);
      OneSettles(c, catalog, busy, o);
    }
    NewRecordIs(d.board, record, o, callable);
    RestIsKept(d.board, record, f);
    InterfaceHeeds(d.board, c, o, callable, f, record);
    StartNotifies(d.board, c, catalog, busy, o);
  }

  lemma RestIsKept(b: Board, record: ExecutionRecord, f: ExecutionId)
    requires BoardInv(b) && record.summary.id == b.nextExecution + 1
    ensures forall x :: x in b.executions ==>
      x in BindInterface(WithExecution(b, record), f, record.summary.id).executions
      && BindInterface(WithExecution(b, record), f, record.summary.id).executions[x] == b.executions[x]
  {
  }

  /** The question is asked of a new agent, and the others keep theirs. */
  lemma InterfaceHeeds(b: Board, c: Board, o: ExecutionId, callable: CallableId, f: ExecutionId, record: ExecutionRecord)
    requires BoardInv(b) && BoardInv(c) && c == BindInterface(WithExecution(b, record), f, record.summary.id)
    requires IsNewChild(b, record, o, Agent, callable) && IsChild(b, o, f) && f !in b.interfaces
    ensures Heeds(b, c, {}, {o})
  {
    hide BoardInv, InterfacesSound, DecisionsSound, NodesSound, SameFailures, HasToAsk, IsNewChild, BindInterface, WithExecution, AskedAbout;
    UnboundFacts(b);
    UnboundFacts(c);
    InterfaceAsks(b, c, o, callable, f, record) by { BoardFacts(b); }
    forall p | HasToAsk(b, p) && p != o ensures HasToAsk(c, p) { SameFailuresKeepQuestion(b, c, p); }
  }

  lemma InterfaceAsks(b: Board, c: Board, o: ExecutionId, callable: CallableId, f: ExecutionId, record: ExecutionRecord)
    requires Sequenced(b) && c == BindInterface(WithExecution(b, record), f, record.summary.id)
    requires IsNewChild(b, record, o, Agent, callable) && IsChild(b, o, f) && f !in b.interfaces
    ensures AskedAbout(b, c, o, f) && forall p :: p != o ==> SameFailures(b, c, p)
  {
  }

  lemma NewRecordIs(b: Board, record: ExecutionRecord, o: ExecutionId, callable: CallableId)
    requires IsNewChild(b, record, o, Agent, callable)
    ensures record.summary.id == b.nextExecution + 1
  {
  }

  lemma OneSettles(b: Board, catalog: Catalog, busy: set<ExecutionId>, o: ExecutionId)
    requires Calm(b, catalog, busy + {o}) && Settled(b, catalog, o)
    ensures Calm(b, catalog, busy)
  {
    hide Settled;
  }

  lemma StartNotifies(b: Board, c: Board, catalog: Catalog, busy: set<ExecutionId>, o: ExecutionId)
    requires LiveOrchestration(b, o) && StartsUnder(b, c, {o}) && MoveOf(b, catalog, o).Creates()
    requires Calm(b, catalog, busy + {o}) ==> Calm(c, catalog, busy)
    requires forall x :: x in b.executions ==> x in c.executions && c.executions[x] == b.executions[x]
    requires Heeds(b, c, {}, {o})
    ensures Notifies(b, c, catalog, busy, o)
  {
    StartsUnderMore(b, c, {o}, busy + {o});
    hide Calm, Heeds;
  }

  ghost predicate StartsAs(b: Board, c: Board, o: ExecutionId, callable: CallableId, f: ExecutionId, record: ExecutionRecord) {
    && c.nextExecution == b.nextExecution + 1 == record.summary.id
    && InterfaceStartedFrom(b, c, o, f, record.summary.id)
    && record.summary.id in c.executions && c.executions[record.summary.id] == record
  }

  // ---------------------------------------------------------------------------
  // Deciding
  // ---------------------------------------------------------------------------

  function WithDecision(b: Board, r: DecisionRecord): Board {
    b.(decisions := b.decisions[r.failedChild := r])
  }

  /** `d` after the decision `r` was recorded and the frontend was told. */
  function Decided(d: Durable, r: DecisionRecord): Durable
    requires r.parent in d.board.executions
  {
    Pushed(d.(board := WithDecision(d.board, r)), r.parent, DecisionMade(r))
  }

  lemma DecisionIsAccepted(d: Durable, catalog: Catalog, r: DecisionRecord)
    requires AcceptsDecision(d.board, r) && RetryBacked(d, r) && (IsInterface(d.board, r.failedChild) ==> r.decision.Fail?)
    ensures Accepts(d, OrchestrationDecisionMade(r)) && LiveGuard(d, catalog, OrchestrationDecisionMade(r))
    ensures Update(d, OrchestrationDecisionMade(r)) == d.(board := WithDecision(d.board, r))
  {
    hide AcceptsDecision, RetryBacked;
  }

  lemma DecisionBinds(b: Board, r: DecisionRecord)
    requires BoardInv(b) && AcceptsDecision(b, r)
    ensures var c := WithDecision(b, r);
      BindsMore(b, c) && BindsOnly(b, c, r.failedChild) && IsChild(b, r.parent, r.failedChild)
  {
    hide BoardInv, DeciderAccepted, RecoveryAccepted;
  }

  lemma DecisionCascades(d: Durable, r: DecisionRecord, root: ExecutionId)
    requires BoardInv(d.board) && AcceptsDecision(d.board, r)
    ensures Cascades(d, Decided(d, r), root) && Decided(d, r).board == WithDecision(d.board, r)
  {
    hide Swept, BoardInv, LogAgrees, DeciderAccepted, RecoveryAccepted, LiveOrchestrations, BindsOnly, Evolves;
    var c := WithDecision(d.board, r);
    var d1 := d.(board := c);
    DecisionBinds(d.board, r);
    BindingSweeps(d.board, c, root);
    if LogCurrent(d) { LogAfterOther(d.events, d.board.executions, EventFor(d1, r.parent, DecisionMade(r))); }
  }

  lemma DecisionKeepsCalm(b: Board, catalog: Catalog, busy: set<ExecutionId>, r: DecisionRecord)
    requires BoardInv(b) && AcceptsDecision(b, r) && BoardInv(WithDecision(b, r)) && Calm(b, catalog, busy) && r.parent in busy
    ensures Calm(WithDecision(b, r), catalog, busy)
  {
    DecisionBinds(b, r);
    hide BoardInv, AcceptsDecision, BindsMore, BindsOnly, WithDecision;
    BindingKeepsCalm(b, WithDecision(b, r), catalog, busy, r.failedChild, r.parent);
    assert busy + {r.parent} == busy;
  }

  function FallbackFail(o: ExecutionId, f: ExecutionId): DecisionRecord {
    DecisionRecord(o, f, None, Fail)
  }

  lemma FallbackIsAccepted(d: Durable, o: ExecutionId, f: ExecutionId)
    requires IsFailedChildOf(d.board, o, f) && f !in d.board.decisions
    ensures AcceptsDecision(d.board, FallbackFail(o, f)) <==> IsOrchestration(d.board, o) && InState(d.board, o, Running)
    ensures RetryBacked(d, FallbackFail(o, f))
  {
  }

  // ---------------------------------------------------------------------------
  // Concluding
  // ---------------------------------------------------------------------------

  /** The orchestration `o` ended in state `s`, which gave no reason to start anything. */
  ghost predicate Concludes(b: Board, c: Board, catalog: Catalog, busy: set<ExecutionId>, o: ExecutionId, s: ExecutionState) {
    && InState(c, o, s)
    && Spares(b, c, {}) && Heeds(b, c, {o}, {})
    && (Calm(b, catalog, busy + {o}) ==> Calm(c, catalog, busy) && StartsUnder(b, c, busy))
  }

  lemma ConcludesNotifies(b: Board, c: Board, catalog: Catalog, busy: set<ExecutionId>, o: ExecutionId, s: ExecutionState)
    requires LiveOrchestration(b, o) && Concludes(b, c, catalog, busy, o, s) && (s.Failed? || !HasToAsk(b, o))
    ensures Notifies(b, c, catalog, busy, o)
  {
    if StartsUnder(b, c, busy) { StartsUnderMore(b, c, busy, busy + {o}); }
    assert InSubtree(b, o, o);
    hide Calm, HasToAsk, Spares, MoveOf;
  }

  /** Bookkeeping before the conclusion changes nothing about it. */
  lemma ConcludesLater(d: Durable, e: Durable, c: Board, catalog: Catalog, busy: set<ExecutionId>, o: ExecutionId, s: ExecutionState)
    requires e.board.executions == d.board.executions && BoardInv(d.board) && BoardInv(e.board) && Prepared(d, e, catalog, busy, o)
    requires Calm(d.board, catalog, busy + {o}) ==> Calm(e.board, catalog, busy + {o})
    requires Concludes(e.board, c, catalog, busy, o, s)
    ensures Concludes(d.board, c, catalog, busy, o, s)
  {
    SparesLater(d.board, e.board, c);
    HeedsLater(d, e, c, catalog, busy, o);
    hide Calm, Spares, Heeds, Prepared;
  }

  /** Fallback decisions concern only the orchestration that makes them. */
  lemma HeedsLater(d: Durable, e: Durable, c: Board, catalog: Catalog, busy: set<ExecutionId>, o: ExecutionId)
    requires BoardInv(d.board) && BoardInv(e.board) && Prepared(d, e, catalog, busy, o) && Heeds(e.board, c, {o}, {})
    ensures Heeds(d.board, c, {o}, {})
  {
    hide BoardInv, Cascades, Calm, RootOf, InterfacesSound, DecisionsSound, NodesSound, SameFailures, HasToAsk, Answered, Prepared;
    UnboundFacts(d.board);
    UnboundFacts(e.board);
    PreparedLeavesOthers(d, e, catalog, busy, o);
    forall p | HasToAsk(d.board, p) && p != o ensures HasToAsk(c, p) || Answered(d.board, c, p) {
      SameFailuresKeepQuestion(d.board, e.board, p);
      if Answered(e.board, c, p) { AnsweredSince(d.board, e.board, c, p); }
    }
  }

  lemma PreparedLeavesOthers(d: Durable, e: Durable, catalog: Catalog, busy: set<ExecutionId>, o: ExecutionId)
    requires Prepared(d, e, catalog, busy, o)
    ensures e.board.executions == d.board.executions && e.board.interfaces == d.board.interfaces
    ensures forall p :: p != o ==> SameFailures(d.board, e.board, p)
  {
    hide Cascades, Calm, RootOf;
  }

  lemma AnsweredSince(b: Board, c: Board, e: Board, o: ExecutionId)
    requires c.executions == b.executions && c.interfaces == b.interfaces && Answered(c, e, o)
    ensures Answered(b, e, o)
  {
    if FailedAround(c, e, o) {
      var q :| IsLive(c, q) && InState(e, q, Failed) && InSubtree(c, q, o);
      SameExecutionsSameTree(b, c, q, o);
      assert IsLive(b, q);
    } else {
      var f :| AskedAbout(c, e, o, f);
      assert AskedAbout(b, e, o, f);
    }
  }

  lemma ConclusionRests(b: Board, catalog: Catalog, busy: set<ExecutionId>, o: ExecutionId)
    requires IsOrchestration(b, o)
    ensures forall c: Board :: SparesOthers(b, c, o) ==> Spares(b, c, {})
    ensures forall c: Board, told :: Heeds(b, c, {o}, told) ==> Heeds(b, c, {o}, {})
    ensures forall c: Board :: Calm(c, catalog, busy + {o} - {o}) ==> Calm(c, catalog, busy)
    ensures forall c: Board :: StartsUnder(b, c, busy + {o} - {o}) ==> StartsUnder(b, c, busy)
  {
    forall c: Board | Calm(c, catalog, busy + {o} - {o}) ensures Calm(c, catalog, busy) {
      CalmForRefresh(c, catalog, busy + {o} - {o}, busy);
    }
  }

  /** `e` is `d`, perhaps with fallback decisions about children of `o` that only `o` can see. */
  ghost predicate Prepared(d: Durable, e: Durable, catalog: Catalog, busy: set<ExecutionId>, o: ExecutionId) {
    && Cascades(d, e, RootOf(d.board, o))
    && (Calm(d.board, catalog, busy + {o}) ==> Calm(e.board, catalog, busy + {o}))
    && e.board.executions == d.board.executions && e.board.interfaces == d.board.interfaces
    && (forall f :: f in d.board.decisions ==> f in e.board.decisions && e.board.decisions[f] == d.board.decisions[f])
    && (forall f :: f in e.board.decisions && f !in d.board.decisions ==> IsChild(d.board, o, f))
    && Explains(d, e, map[], {})
  }

  lemma PreparedKeeps(d: Durable, e: Durable, catalog: Catalog, busy: set<ExecutionId>, o: ExecutionId)
    requires Prepared(d, e, catalog, busy, o)
    ensures Cascades(d, e, RootOf(d.board, o)) && Explains(d, e, map[], {})
    ensures e.board.executions == d.board.executions && e.board.interfaces == d.board.interfaces
    ensures forall f :: IsFailedChildOf(d.board, o, f) ==> IsFailedChildOf(e.board, o, f)
    ensures forall f :: f in d.board.decisions ==> f in e.board.decisions
    ensures forall f :: DecidedFail(d.board, f) ==> DecidedFail(e.board, f)
    ensures InState(d.board, o, Running) && IsOrchestration(d.board, o) ==> InState(e.board, o, Running) && IsOrchestration(e.board, o)
    ensures forall i :: IsInterface(d.board, i) ==> IsInterface(e.board, i)
  {
  }

  /** A failed interface of `o` and the failure it was to decide. */
  lemma FailedInterfaceFacts(b: Board, o: ExecutionId, i: ExecutionId)
    requires InterfacesSound(b) && InterfacesDistinct(b) && InterfacesFailFinally(b)
    requires IsInterfaceOf(b, o, i) && InState(b, i, Failed) && o in b.executions
    ensures IsFailedChildOf(b, o, i) && IsInterface(b, i) && (i in b.decisions ==> DecidedFail(b, i))
    ensures forall f :: f in b.interfaces && b.interfaces[f] == i ==> IsFailedChildOf(b, o, f) && IsChild(b, o, f)
  {
    InterfaceIsAnAgent(b, o, i);
    forall f | f in b.interfaces && b.interfaces[f] == i ensures IsFailedChildOf(b, o, f) { InterfaceContext(b, o, i, f); }
  }

  lemma PreparedReflexive(d: Durable, catalog: Catalog, busy: set<ExecutionId>, o: ExecutionId)
    ensures Prepared(d, d, catalog, busy, o)
  {
    CascadesReflexive(d, RootOf(d.board, o));
    ExplainsNothing(d, map[], {});
  }

  lemma PreparedTransitive(d: Durable, e: Durable, f: Durable, catalog: Catalog, busy: set<ExecutionId>, o: ExecutionId)
    requires BoardInv(d.board) && BoardInv(e.board) && o in d.board.executions
    requires Prepared(d, e, catalog, busy, o) && Prepared(e, f, catalog, busy, o)
    ensures Prepared(d, f, catalog, busy, o)
  {
    hide BoardInv, Cascades, Calm, RootOf, Explains;
    PreparedRoot(d, e, catalog, busy, o);
    CascadesTransitive(d, e, f, RootOf(d.board, o)) by { BoardFacts(d.board); BoardFacts(e.board); }
    ExplainsThrough(d, e, f, RootOf(d.board, o), map[], {}) by { BoardFacts(e.board); }
  }

  lemma PreparedRoot(d: Durable, e: Durable, catalog: Catalog, busy: set<ExecutionId>, o: ExecutionId)
    requires BoardInv(d.board) && o in d.board.executions && Prepared(d, e, catalog, busy, o)
    ensures RootOf(e.board, o) == RootOf(d.board, o)
  {
    CascadeEvolves(d, e, RootOf(d.board, o));
    SubtreeStable(d.board, e.board, o, o);
  }

  lemma FallbackPrepares(d: Durable, catalog: Catalog, busy: set<ExecutionId>, o: ExecutionId, f: ExecutionId)
    requires BoardInv(d.board) && AcceptsDecision(d.board, FallbackFail(o, f)) && BoardInv(WithDecision(d.board, FallbackFail(o, f)))
    ensures Prepared(d, Decided(d, FallbackFail(o, f)), catalog, busy, o)
    ensures DecidedFail(Decided(d, FallbackFail(o, f)).board, f)
  {
    hide Cascades, Calm, RootOf, BindsOnly, Explains, BoardInv, BindsMore;
    var r := FallbackFail(o, f);
    DecisionExplains(d, r);
    DecisionCascades(d, r, RootOf(d.board, o));
    DecisionBinds(d.board, r);
    if Calm(d.board, catalog, busy + {o}) { DecisionKeepsCalm(d.board, catalog, busy + {o}, r); }
    assert f !in d.board.decisions;
    hide Decided;
  }

  lemma DecisionExplains(d: Durable, r: DecisionRecord)
    requires r.parent in d.board.executions
    ensures Explains(d, Decided(d, r), map[], {})
  {
    NothingToExplain(d, Decided(d, r));
  }

  /** Preparing and then concluding. */
  lemma PreparedConcludes(d: Durable, e: Durable, f: Durable, catalog: Catalog, busy: set<ExecutionId>, o: ExecutionId, s: ExecutionState)
    requires BoardInv(d.board) && BoardInv(e.board) && BoardInv(f.board) && LiveOrchestration(d.board, o)
    requires Prepared(d, e, catalog, busy, o)
    requires Cascades(e, f, RootOf(e.board, o)) && Explains(e, f, map[], {})
    ensures Cascades(d, f, RootOf(d.board, o)) && Explains(d, f, map[], {})
    ensures Concludes(e.board, f.board, catalog, busy, o, s) ==>
      Concludes(d.board, f.board, catalog, busy, o, s) && (s.Failed? ==> Notifies(d.board, f.board, catalog, busy, o))
  {
    hide BoardInv, Cascades, Calm, RootOf, Concludes, Notifies, Explains;
    PreparedRoot(d, e, catalog, busy, o);
    CascadesTransitive(d, e, f, RootOf(d.board, o)) by { BoardFacts(d.board); BoardFacts(e.board); }
    ExplainsThrough(d, e, f, RootOf(d.board, o), map[], {}) by { BoardFacts(e.board); }
    if Concludes(e.board, f.board, catalog, busy, o, s) {
      ConcludesLater(d, e, f.board, catalog, busy, o, s);
      if s.Failed? { ConcludesNotifies(d.board, f.board, catalog, busy, o, s); }
    }
  }

  // ---------------------------------------------------------------------------
  // What refreshing achieves
  // ---------------------------------------------------------------------------

  /** The orchestration did its next move and is no longer busy. */
  ghost predicate Refreshes(b: Board, c: Board, catalog: Catalog, busy: set<ExecutionId>, o: ExecutionId) {
    && DefinitionOf(b, catalog, o).Some?
    && Acted(b, c, DefinitionOf(b, catalog, o).value, o, MoveOf(b, catalog, o))
    && Notifies(b, c, catalog, busy, o)
  }

  lemma FailIsJustified(b: Board, catalog: Catalog, o: ExecutionId, f: ExecutionId)
    requires DecisionsSound(b) && DecidedFail(b, f) && IsChild(b, o, f)
    ensures OutcomeJustified(b, catalog, o, Failed)
  {
    assert DecisionSound(b, f);
  }

  lemma PreparedKeepsContext(d: Durable, e: Durable, catalog: Catalog, busy: set<ExecutionId>, o: ExecutionId)
    requires Prepared(d, e, catalog, busy, o) && LiveOrchestration(d.board, o)
    ensures LiveOrchestration(e.board, o)
  {
  }

  lemma FailForActs(d: Durable, e: Durable, f: Durable, catalog: Catalog, busy: set<ExecutionId>, o: ExecutionId, child: ExecutionId)
    requires BoardInv(d.board) && BoardInv(e.board) && BoardInv(f.board) && LiveOrchestration(d.board, o)
    requires DefinitionOf(d.board, catalog, o).Some? && MoveOf(d.board, catalog, o) == FailFor(child)
    requires Prepared(d, e, catalog, busy, o) && DecidedFail(e.board, child)
    requires Cascades(e, f, RootOf(e.board, o)) && Explains(e, f, map[], {}) && Concludes(e.board, f.board, catalog, busy, o, Failed)
    ensures Refreshes(d.board, f.board, catalog, busy, o)
  {
    hide BoardInv, Cascades, Calm, Notifies, MoveOf, RootOf, Prepared, Spares, Heeds, StartsUnder, DefinitionOf;
    PreparedConcludes(d, e, f, catalog, busy, o, Failed);
    CascadeEvolves(e, f, RootOf(e.board, o));
  }

  lemma FailForInterfaceActs(d: Durable, e: Durable, f: Durable, catalog: Catalog, busy: set<ExecutionId>, o: ExecutionId, child: ExecutionId)
    requires BoardInv(d.board) && BoardInv(e.board) && BoardInv(f.board) && LiveOrchestration(d.board, o)
    requires DefinitionOf(d.board, catalog, o).Some? && MoveOf(d.board, catalog, o) == FailForInterface
    requires child in d.board.interfaces && IsChild(d.board, o, child) && InState(d.board, d.board.interfaces[child], Failed)
    requires Prepared(d, e, catalog, busy, o) && child in e.board.decisions && DecidedFail(e.board, d.board.interfaces[child])
    requires Cascades(e, f, RootOf(e.board, o)) && Explains(e, f, map[], {}) && Concludes(e.board, f.board, catalog, busy, o, Failed)
    ensures Refreshes(d.board, f.board, catalog, busy, o)
  {
    hide BoardInv, Cascades, Calm, Notifies, MoveOf, RootOf, Prepared, Spares, Heeds, StartsUnder, DefinitionOf;
    PreparedConcludes(d, e, f, catalog, busy, o, Failed);
    CascadeEvolves(e, f, RootOf(e.board, o));
  }

  lemma ConcludeActs(b: Board, c: Board, catalog: Catalog, busy: set<ExecutionId>, o: ExecutionId, s: ExecutionState)
    requires BoardInv(b) && BoardInv(c) && LiveOrchestration(b, o) && DefinitionOf(b, catalog, o).Some?
    requires MoveOf(b, catalog, o) == Move.Conclude(s) && Concludes(b, c, catalog, busy, o, s)
    ensures Refreshes(b, c, catalog, busy, o)
  {
    if HasToAsk(b, o) { QuestionMoves(b, catalog, o); }
    ConcludesNotifies(b, c, catalog, busy, o, s);
    hide BoardInv, Calm, Notifies, MoveOf;
  }

  lemma InterfaceContext(b: Board, o: ExecutionId, i: ExecutionId, f: ExecutionId)
    requires InterfacesSound(b) && InterfacesDistinct(b) && IsInterfaceOf(b, o, i)
    requires f in b.interfaces && b.interfaces[f] == i
    ensures IsFailedChildOf(b, o, f) && IsChild(b, o, i) && IsAgent(b, i)
  {
    var g :| g in b.interfaces && b.interfaces[g] == i && IsChild(b, o, g);
    assert f == g;
    assert InterfaceSound(b, f);
  }

  lemma InterfaceIsAnAgent(b: Board, o: ExecutionId, i: ExecutionId)
    requires InterfacesSound(b) && IsInterfaceOf(b, o, i)
    ensures IsChild(b, o, i) && IsAgent(b, i) && IsInterface(b, i)
  {
    var g :| g in b.interfaces && b.interfaces[g] == i && IsChild(b, o, g);
    assert InterfaceSound(b, g);
  }

  /** Whoever has to ask next asks or fails. */
  lemma QuestionMoves(b: Board, catalog: Catalog, o: ExecutionId)
    requires HasToAsk(b, o) && DefinitionOf(b, catalog, o).Some?
    ensures var move := MoveOf(b, catalog, o); move.FailForInterface? || move.FailFor? || move.StartInterface?
  {
    hide Undecided, InterfaceFailed;
  }

  /** A settled orchestration that does nothing is no longer busy. */
  lemma WaitActs(b: Board, catalog: Catalog, busy: set<ExecutionId>, o: ExecutionId)
    requires BoardInv(b) && DefinitionOf(b, catalog, o).Some? && MoveOf(b, catalog, o).Wait?
    ensures Refreshes(b, b, catalog, busy, o)
  {
    if Calm(b, catalog, busy + {o}) { OneSettles(b, catalog, busy, o); }
    if HasToAsk(b, o) { QuestionMoves(b, catalog, o); }
    hide Calm, Settled, HasToAsk, MoveOf;
  }

  /** Nothing to refresh. */
  lemma IdleNotifies(b: Board, catalog: Catalog, busy: set<ExecutionId>, o: ExecutionId)
    requires !LiveOrchestration(b, o)
    ensures Notifies(b, b, catalog, busy, o)
  {
    hide Settled;
  }

  lemma InterfaceRefreshes(d: Durable, e: Durable, catalog: Catalog, busy: set<ExecutionId>, o: ExecutionId, callable: CallableId,
                           f: ExecutionId, record: ExecutionRecord)
    requires BoardInv(d.board) && BoardInv(e.board) && InterfaceStarted(d, e, o, callable, f, record)
    requires LiveOrchestration(d.board, o) && DefinitionOf(d.board, catalog, o).Some?
    requires MoveOf(d.board, catalog, o) == StartInterface(f, callable)
    requires IsChild(d.board, o, f) && f !in d.board.interfaces
    ensures Cascades(d, e, RootOf(d.board, o)) && Refreshes(d.board, e.board, catalog, busy, o)
  {
    hide BoardInv, Cascades, Notifies, RootOf, MoveByNodes, InterfaceFailed, Undecided, IsNewChild, Announced;
    var c := BindInterface(WithExecution(d.board, record), f, record.summary.id);
    InterfaceStarts(d.board, o, record, callable, f);
    InterfaceBoard(d, e, o, callable, f, record);
    InterfaceMakesWait(d.board, c, DefinitionOf(d.board, catalog, o).value, o, f, record.summary.id) by { UnboundFacts(d.board); }
    StartedDefinition(d.board, c, catalog, o, record);
    InterfaceActs(d, e, catalog, busy, o, callable, f, record);
  }

  lemma InterfaceBoard(d: Durable, e: Durable, o: ExecutionId, callable: CallableId, f: ExecutionId, record: ExecutionRecord)
    requires InterfaceStarted(d, e, o, callable, f, record)
    ensures e.board == BindInterface(WithExecution(d.board, record), f, record.summary.id)
  {
  }

  lemma StartedDefinition(b: Board, c: Board, catalog: Catalog, o: ExecutionId, record: ExecutionRecord)
    requires c.executions == b.executions[record.summary.id := record] && o in b.executions && record.summary.id !in b.executions
    ensures DefinitionOf(c, catalog, o) == DefinitionOf(b, catalog, o)
  {
  }

  // ---------------------------------------------------------------------------
  // Node states
  // ---------------------------------------------------------------------------

  type NodeStates = map<OrchestrationNodeId, ExecutionState>

  ghost predicate StatesMatch(b: Board, o: ExecutionId, states: NodeStates) {
    && (forall node :: node in states <==> NodeStarted(b, o, node))
    && (forall c :: IsNodeChild(b, o, c) ==> b.nodes[c] in states && states[b.nodes[c]] == Effective(b, c))
  }

  lemma StatesTell(b: Board, o: ExecutionId, states: NodeStates)
    requires StatesMatch(b, o, states)
    ensures forall node :: node in states && states[node].Completed? <==> NodeDone(b, o, node)
    ensures forall s :: s in states.Values <==> SomeNodeIs(b, o, s)
  {
    hide Effective, IsChild;
    forall node | node in states
      ensures states[node].Completed? ==> NodeDone(b, o, node)
      ensures SomeNodeIs(b, o, states[node])
    {
      var c :| IsNodeChild(b, o, c) && b.nodes[c] == node;
    }
    forall s | SomeNodeIs(b, o, s) ensures s in states.Values {
      var c :| IsNodeChild(b, o, c) && Effective(b, c) == s;
      assert states[b.nodes[c]] == s;
    }
  }

  predicate Ready(states: NodeStates, node: OrchestrationNode) {
    && node.id !in states
    && forall dependency :: dependency in node.dependsOn ==> dependency in states && states[dependency] == Completed
  }

  lemma ReadyTells(b: Board, o: ExecutionId, states: NodeStates, node: OrchestrationNode)
    requires StatesMatch(b, o, states)
    ensures Ready(states, node) <==> IsReady(b, o, node)
  {
    StatesTell(b, o, states);
    hide NodeDone, NodeStarted, SomeNodeIs;
  }

  /** The nodes that the states find ready, in their order. */
  function Selected(states: NodeStates, nodes: seq<OrchestrationNode>): seq<OrchestrationNode> {
    if nodes == [] then []
    else
      var last := |nodes| - 1;
      Selected(states, nodes[..last]) + if Ready(states, nodes[last]) then [nodes[last]] else []
  }

  lemma {:induction false} SelectedTells(b: Board, o: ExecutionId, states: NodeStates, nodes: seq<OrchestrationNode>)
    requires StatesMatch(b, o, states)
    ensures Selected(states, nodes) == ReadyAmong(b, o, nodes)
  {
    if nodes != [] {
      SelectedTells(b, o, states, nodes[..|nodes| - 1]);
      ReadyTells(b, o, states, nodes[|nodes| - 1]);
    }
    hide Ready, IsReady, StatesMatch;
  }

  /** Exactly the ready nodes are selected, none twice. */
  lemma {:induction false} SelectedFacts(states: NodeStates, nodes: seq<OrchestrationNode>)
    ensures forall node :: node in Selected(states, nodes) <==> node in nodes && Ready(states, node)
    ensures (forall i, j :: 0 <= i < j < |nodes| ==> nodes[i].id != nodes[j].id) ==>
      forall j, k :: 0 <= j < k < |Selected(states, nodes)| ==> Selected(states, nodes)[j].id != Selected(states, nodes)[k].id
  {
    hide Ready;
    if nodes != [] {
      var last := |nodes| - 1;
      var before := Selected(states, nodes[..last]);
      SelectedFacts(states, nodes[..last]);
      assert nodes == nodes[..last] + [nodes[last]];
      forall j | 0 <= j < |before| ensures exists i :: 0 <= i < last && nodes[i] == before[j] { assert before[j] in nodes[..last]; }
    }
  }

  function NodeIds(nodes: seq<OrchestrationNode>): set<OrchestrationNodeId> {
    set i | 0 <= i < |nodes| :: nodes[i].id
  }

  lemma {:induction false} NodeIdsAreCounted(nodes: seq<OrchestrationNode>)
    requires forall i, j :: 0 <= i < j < |nodes| ==> nodes[i].id != nodes[j].id
    ensures |NodeIds(nodes)| == |nodes|
  {
    if nodes != [] {
      var n := |nodes| - 1;
      NodeIdsAreCounted(nodes[..n]);
      assert NodeIds(nodes) == NodeIds(nodes[..n]) + {nodes[n].id};
    }
  }

  /** Only nodes of the definition are started. */
  lemma StartedAreListed(b: Board, catalog: Catalog, o: ExecutionId, definition: OrchestrationDefinition, states: NodeStates)
    requires StatesMatch(b, o, states) && DagSafe(b, catalog) && DefinitionOf(b, catalog, o) == Some(definition)
    ensures forall node :: node in states ==> node in NodeIds(definition.nodes)
  {
    forall node | node in states ensures node in NodeIds(definition.nodes) {
      var c :| IsNodeChild(b, o, c) && b.nodes[c] == node;
      assert StartJustified(b, catalog, o, node);
    }
  }

  /** As many started nodes as the definition has, all completed: then every node is done. */
  lemma CountTells(b: Board, catalog: Catalog, o: ExecutionId, definition: OrchestrationDefinition, states: NodeStates)
    requires StatesMatch(b, o, states) && DagSafe(b, catalog) && DefinitionOf(b, catalog, o) == Some(definition)
    requires DependenciesFirst(definition.nodes)
    ensures |states| == |definition.nodes| && (forall node :: node in states ==> states[node].Completed?) <==> AllDone(b, definition, o)
  {
    hide StatesMatch, DagSafe, DefinitionOf;
    StatesTell(b, o, states);
    NodeIdsAreCounted(definition.nodes);
    StartedAreListed(b, catalog, o, definition, states);
    var ids := NodeIds(definition.nodes);
    assert states.Keys <= ids && |states| == |states.Keys|;
    if |states| == |definition.nodes| {
      assert states.Keys == ids by { EqualByCount(states.Keys, ids); }
      forall i | 0 <= i < |definition.nodes| ensures definition.nodes[i].id in states { assert definition.nodes[i].id in ids; }
    }
    if AllDone(b, definition, o) {
      forall node | node in ids ensures node in states && states[node].Completed? {
        var i :| 0 <= i < |definition.nodes| && definition.nodes[i].id == node;
        assert NodeDone(b, o, definition.nodes[i].id);
      }
      assert states.Keys == ids;
    }
  }

  lemma EqualByCount<T>(s: set<T>, t: set<T>)
    requires s <= t && |s| == |t|
    ensures s == t
  {
    var rest := t - s;
    assert t == s + rest;
  }

  // ---------------------------------------------------------------------------
  // Starting all ready nodes
  // ---------------------------------------------------------------------------

  /** Nodes of the definition that are all ready, each listed once. */
  ghost predicate AllReady(b: Board, catalog: Catalog, o: ExecutionId, ready: seq<OrchestrationNode>) {
    && DefinitionOf(b, catalog, o).Some?
    && (forall j :: 0 <= j < |ready| ==> IsReady(b, o, ready[j]) && ready[j] in DefinitionOf(b, catalog, o).value.nodes)
    && (forall j, k :: 0 <= j < k < |ready| ==> ready[j].id != ready[k].id)
  }

  /** After some of the ready nodes were started, the next one may still be. */
  lemma NextIsReady(b: Board, c: Board, catalog: Catalog, o: ExecutionId, ready: seq<OrchestrationNode>, j: nat)
    requires BoardInv(b) && BoardInv(c) && Evolves(b, c) && AllReady(b, catalog, o, ready) && j < |ready|
    requires NodesStartedFrom(b, c, o, ready[..j])
    ensures StartJustified(c, catalog, o, ready[j].id) && !NodeStarted(c, o, ready[j].id)
  {
    assert IsReady(b, o, ready[j]);
    var nodes := DefinitionOf(b, catalog, o).value.nodes;
    var i :| 0 <= i < |nodes| && nodes[i] == ready[j];
    assert StartJustified(b, catalog, o, ready[j].id);
    hide Evolves, DefinitionOf, IsReady;
    StartIsStable(b, c, catalog, catalog, o, ready[j].id);
    NextNotStarted(b, c, o, ready, j) by { BoardFacts(b); BoardFacts(c); assert IsReady(b, o, ready[j]); ReadyIsNotStarted(b, o, ready[j]); }
  }

  lemma ReadyIsNotStarted(b: Board, o: ExecutionId, node: OrchestrationNode)
    requires IsReady(b, o, node)
    ensures !NodeStarted(b, o, node.id)
  {
  }

  lemma NextNotStarted(b: Board, c: Board, o: ExecutionId, ready: seq<OrchestrationNode>, j: nat)
    requires Sequenced(b) && Sequenced(c) && j < |ready| && NodesStartedFrom(b, c, o, ready[..j])
    requires forall i, k :: 0 <= i < k < |ready| ==> ready[i].id != ready[k].id
    requires !NodeStarted(b, o, ready[j].id)
    ensures !NodeStarted(c, o, ready[j].id)
  {
    forall x: ExecutionId | IsNodeChild(c, o, x) ensures c.nodes[x] != ready[j].id {
      if x in b.executions {
        assert IsNodeChild(b, o, x);
      } else {
        var k: nat := x - b.nextExecution - 1;
        assert StartedAs(c, o, b.nextExecution + 1 + k, ready[..j][k]);
      }
    }
  }

  lemma OneMoreStarted(b: Board, d: Durable, e: Durable, o: ExecutionId, ready: seq<OrchestrationNode>, j: nat, callable: CallableId,
                       objective: Prompt, record: ExecutionRecord)
    requires j < |ready| && BoardInv(d.board) && NodesStartedFrom(b, d.board, o, ready[..j]) && Sequenced(b)
    requires callable == ready[j].callable && IsInputOf(d.board, o, ready[j], objective)
    requires AgentStarted(d, e, o, callable, objective, Some(ready[j].id), record)
    ensures NodesStartedFrom(b, e.board, o, ready[..j + 1])
  {
    var c := BindNode(WithExecution(d.board, record), record.summary.id, ready[j].id);
    AgentBoard(d, e, o, callable, objective, ready[j].id, record);
    FreshIsUnbound(d.board, record.summary.id);
    ExtendStarted(b, d.board, c, o, ready, j, callable, objective, record);
  }

  /** `objective` is what `o` asks the agent of `node` to do. */
  ghost predicate IsInputOf(b: Board, o: ExecutionId, node: OrchestrationNode, objective: Prompt) {
    o in b.executions && b.executions[o].payload.OrchestrationPayload? && AsksFor(objective, node, b.executions[o].payload.objective)
  }

  lemma AgentBoard(d: Durable, e: Durable, o: ExecutionId, callable: CallableId, objective: Prompt, node: OrchestrationNodeId, record: ExecutionRecord)
    requires AgentStarted(d, e, o, callable, objective, Some(node), record)
    ensures e.board == BindNode(WithExecution(d.board, record), record.summary.id, node)
    ensures IsNewChild(d.board, record, o, Agent, callable) && record.payload == InvocationPayload(objective)
  {
  }

  lemma ExtendStarted(b: Board, c: Board, e: Board, o: ExecutionId, ready: seq<OrchestrationNode>, j: nat, callable: CallableId,
                      objective: Prompt, record: ExecutionRecord)
    requires j < |ready| && callable == ready[j].callable && Sequenced(b) && Sequenced(c) && NodesStartedFrom(b, c, o, ready[..j])
    requires IsNewChild(c, record, o, Agent, callable) && record.summary.id !in c.nodes
    requires IsInputOf(c, o, ready[j], objective) && record.payload == InvocationPayload(objective)
    requires e == BindNode(WithExecution(c, record), record.summary.id, ready[j].id)
    ensures NodesStartedFrom(b, e, o, ready[..j + 1])
  {
    hide AsksFor;
    var more := ready[..j + 1];
    assert record.summary.id !in c.executions && record.summary.id == b.nextExecution + 1 + j;
    forall k | 0 <= k < |more| ensures StartedAs(e, o, b.nextExecution + 1 + k, more[k]) {
      if k < j {
        assert ready[..j][k] == more[k];
        assert StartedAs(c, o, b.nextExecution + 1 + k, more[k]);
      }
    }
  }

  /** One started node is a cascade that keeps everybody but `o` as settled as before. */
  lemma NodeCascades(d: Durable, e: Durable, catalog: Catalog, busy: set<ExecutionId>, o: ExecutionId, callable: CallableId,
                     objective: Prompt, node: OrchestrationNodeId, record: ExecutionRecord)
    requires BoardInv(d.board) && BoardInv(e.board) && IsOrchestration(d.board, o)
    requires AgentStarted(d, e, o, callable, objective, Some(node), record)
    ensures Cascades(d, e, RootOf(d.board, o)) && StartsUnder(d.board, e.board, {o})
    ensures Calm(d.board, catalog, busy + {o}) ==> Calm(e.board, catalog, busy + {o})
  {
    var c := BindNode(WithExecution(d.board, record), record.summary.id, node);
    AgentBoard(d, e, o, callable, objective, node, record);
    CreationKeepsBoard(d.board, record, o, Agent, callable);
    NodeStarts(d.board, o, record, callable, node);
    hide BoardInv, Starts, Cascades, IsNewChild, Calm, StartsUnder, RootOf, Evolves, Announced;
    StartCascades(d, c, o, record, callable, record.summary.id);
    if Calm(d.board, catalog, busy + {o}) {
      StartKeepsCalm(d.board, c, catalog, busy + {o}, o, record, callable, record.summary.id);
    }
  }

  /** The first `j` of the ready nodes were started. */
  ghost predicate StartedFrom(d: Durable, e: Durable, catalog: Catalog, busy: set<ExecutionId>, o: ExecutionId,
                              ready: seq<OrchestrationNode>, j: nat) {
    && j <= |ready|
    && Cascades(d, e, RootOf(d.board, o))
    && StartsUnder(d.board, e.board, {o})
    && (Calm(d.board, catalog, busy + {o}) ==> Calm(e.board, catalog, busy + {o}))
    && NodesStartedFrom(d.board, e.board, o, ready[..j])
    && Explains(d, e, map[], {})
  }

  lemma NothingStarted(d: Durable, catalog: Catalog, busy: set<ExecutionId>, o: ExecutionId, ready: seq<OrchestrationNode>)
    ensures StartedFrom(d, d, catalog, busy, o, ready, 0)
  {
    CascadesReflexive(d, RootOf(d.board, o));
    ExplainsNothing(d, map[], {});
  }

  /** A new agent is announced, and nobody has ended. */
  lemma AgentExplains(d: Durable, e: Durable, o: ExecutionId, callable: CallableId, objective: Prompt, node: Option<OrchestrationNodeId>,
                      record: ExecutionRecord)
    requires Sequenced(d.board) && AgentStarted(d, e, o, callable, objective, node, record)
    ensures Explains(d, e, map[], {})
  {
    NothingToExplain(d, e);
  }

  lemma InterfaceExplains(d: Durable, e: Durable, o: ExecutionId, callable: CallableId, f: ExecutionId, record: ExecutionRecord)
    requires Sequenced(d.board) && InterfaceStarted(d, e, o, callable, f, record)
    ensures Explains(d, e, map[], {})
  {
    NothingToExplain(d, e);
  }

  lemma OneMoreStep(d: Durable, e: Durable, f: Durable, catalog: Catalog, busy: set<ExecutionId>, o: ExecutionId,
                    ready: seq<OrchestrationNode>, j: nat, objective: Prompt, record: ExecutionRecord)
    requires BoardInv(d.board) && BoardInv(e.board) && BoardInv(f.board) && IsOrchestration(d.board, o) && j < |ready|
    requires StartedFrom(d, e, catalog, busy, o, ready, j)
    requires IsInputOf(d.board, o, ready[j], objective)
    requires AgentStarted(e, f, o, ready[j].callable, objective, Some(ready[j].id), record)
    ensures StartedFrom(d, f, catalog, busy, o, ready, j + 1)
  {
    hide BoardInv, Cascades, Calm, StartsUnder, RootOf, AgentStarted, NodesStartedFrom, Evolves, Explains;
    CascadeEvolves(d, e, RootOf(d.board, o));
    AgentExplains(e, f, o, ready[j].callable, objective, Some(ready[j].id), record) by { BoardFacts(e.board); }
    SameRoot(d.board, e.board, o);
    InputStays(d.board, e.board, o, ready[j], objective);
    NodeCascades(e, f, catalog, busy, o, ready[j].callable, objective, ready[j].id, record);
    CascadesTransitive(d, e, f, RootOf(d.board, o)) by { BoardFacts(d.board); BoardFacts(e.board); }
    ExplainsThrough(d, e, f, RootOf(d.board, o), map[], {}) by { BoardFacts(e.board); }
    CascadeEvolves(e, f, RootOf(d.board, o));
    StartsUnderTransitive(d.board, e.board, f.board, {o});
    OneMoreStarted(d.board, e, f, o, ready, j, ready[j].callable, objective, record) by { BoardFacts(d.board); }
  }

  lemma InputStays(b: Board, c: Board, o: ExecutionId, node: OrchestrationNode, objective: Prompt)
    requires Evolves(b, c) && IsInputOf(b, o, node, objective)
    ensures IsInputOf(c, o, node, objective)
  {
  }

  lemma SameRoot(b: Board, c: Board, o: ExecutionId)
    requires BoardInv(b) && Evolves(b, c) && IsOrchestration(b, o)
    ensures RootOf(c, o) == RootOf(b, o) && IsOrchestration(c, o)
  {
    SubtreeStable(b, c, o, o);
  }

  /** Before the next node is started. */
  lemma StepOpens(d: Durable, e: Durable, catalog: Catalog, busy: set<ExecutionId>, o: ExecutionId, ready: seq<OrchestrationNode>, j: nat)
    requires BoardInv(d.board) && BoardInv(e.board) && IsOrchestration(d.board, o) && AllReady(d.board, catalog, o, ready) && j < |ready|
    requires StartedFrom(d, e, catalog, busy, o, ready, j)
    ensures IsOrchestration(e.board, o) && StartJustified(e.board, catalog, o, ready[j].id) && !NodeStarted(e.board, o, ready[j].id)
    ensures LiveOrchestration(d.board, o) ==> LiveOrchestration(e.board, o)
    ensures DefinitionOf(e.board, catalog, o).Some? && ready[j].callable in NodeCallables(DefinitionOf(e.board, catalog, o).value)
  {
    hide BoardInv, Cascades, Calm, StartsUnder, RootOf, StartJustified, NodeStarted, Evolves;
    CascadeEvolves(d, e, RootOf(d.board, o));
    NextIsReady(d.board, e.board, catalog, o, ready, j);
    SameDefinition(d.board, e.board, catalog, o, ready[..j]);
  }

  lemma RegisteredNode(callables: Callables, id: CallableId, node: CallableId)
    requires RegistryWellFormed(callables) && id in callables && callables[id].OrchestrationEntry?
    requires node in NodeCallables(callables[id].definition)
    ensures IsAgentCallable(callables, node) && callables[node].Descriptor().kind.AgentCallable?
  {
    assert EntryWellFormed(callables, id);
    assert EntryWellFormed(callables, node);
  }

  lemma StartedFromFacts(d: Durable, e: Durable, catalog: Catalog, busy: set<ExecutionId>, o: ExecutionId, ready: seq<OrchestrationNode>, j: nat)
    requires StartedFrom(d, e, catalog, busy, o, ready, j)
    ensures Cascades(d, e, RootOf(d.board, o)) && StartsUnder(d.board, e.board, {o}) && Explains(d, e, map[], {})
    ensures Calm(d.board, catalog, busy + {o}) ==> Calm(e.board, catalog, busy + {o})
    ensures j == |ready| ==> NodesStartedFrom(d.board, e.board, o, ready)
  {
    if j == |ready| { assert ready[..j] == ready; }
  }

  lemma NodesRefresh(d: Durable, e: Durable, catalog: Catalog, busy: set<ExecutionId>, o: ExecutionId, ready: seq<OrchestrationNode>)
    requires BoardInv(d.board) && BoardInv(e.board) && LiveOrchestration(d.board, o) && InState(d.board, o, Running)
    requires DefinitionOf(d.board, catalog, o).Some? && MoveOf(d.board, catalog, o).StartNodes?
    requires StartsAllReady(d.board, DefinitionOf(d.board, catalog, o).value, o, ready)
    requires NodesStartedFrom(d.board, e.board, o, ready) && Evolves(d.board, e.board)
    requires StartsUnder(d.board, e.board, {o})
    requires Calm(d.board, catalog, busy + {o}) ==> Calm(e.board, catalog, busy + {o})
    ensures Refreshes(d.board, e.board, catalog, busy, o)
  {
    var definition := DefinitionOf(d.board, catalog, o).value;
    StartedBoardFacts(d.board, e.board, o, ready);
    StartsMakeWait(d.board, e.board, definition, o, ready) by { BoardIsSound(d.board); BoardIsSound(e.board); }
    hide BoardInv, Calm, Evolves, NodesStartedFrom, StartsAllReady, StartsUnder, Notifies, NextMove;
    NodesHeed(d.board, e.board, catalog, o, ready);
    assert Settled(e.board, catalog, o) by { SameDefinition(d.board, e.board, catalog, o, ready); }
    if Calm(e.board, catalog, busy + {o}) { OneSettles(e.board, catalog, busy, o); }
    StartNotifies(d.board, e.board, catalog, busy, o);
  }

  lemma NodesHeed(b: Board, c: Board, catalog: Catalog, o: ExecutionId, ready: seq<OrchestrationNode>)
    requires BoardInv(b) && BoardInv(c) && NodesStartedFrom(b, c, o, ready) && DefinitionOf(b, catalog, o).Some? && MoveOf(b, catalog, o).StartNodes?
    ensures Heeds(b, c, {}, {o})
  {
    hide BoardInv, InterfacesSound, DecisionsSound, NodesSound, MoveOf, NodesStartedFrom, SameFailures, HasToAsk, DefinitionOf;
    UnboundFacts(b);
    UnboundFacts(c);
    NodesLeaveFailures(b, c, o, ready) by { BoardFacts(b); BoardFacts(c); }
    if HasToAsk(b, o) { QuestionMoves(b, catalog, o); }
    forall p | HasToAsk(b, p) ensures HasToAsk(c, p) { SameFailuresKeepQuestion(b, c, p); }
  }

  lemma NodesLeaveFailures(b: Board, c: Board, o: ExecutionId, ready: seq<OrchestrationNode>)
    requires Sequenced(b) && Sequenced(c) && NodesStartedFrom(b, c, o, ready)
    ensures forall p :: SameFailures(b, c, p)
  {
    hide StartedAs;
    forall x | x in c.executions && x !in b.executions ensures InState(c, x, Pending) {
      var j := x - b.nextExecution - 1;
      StartedIsPending(c, o, x, ready[j]);
    }
  }

  lemma StartedBoardFacts(b: Board, c: Board, o: ExecutionId, ready: seq<OrchestrationNode>)
    requires BoardInv(b) && BoardInv(c) && NodesStartedFrom(b, c, o, ready) && InState(b, o, Running)
    ensures NodesDistinct(c) && InState(c, o, Running)
  {
  }

  lemma SameDefinition(b: Board, c: Board, catalog: Catalog, o: ExecutionId, ready: seq<OrchestrationNode>)
    requires NodesStartedFrom(b, c, o, ready) && o in b.executions
    ensures DefinitionOf(c, catalog, o) == DefinitionOf(b, catalog, o)
  {
  }

  // ---------------------------------------------------------------------------
  // Which move it is
  // ---------------------------------------------------------------------------

  /** No child gives the orchestration cause to fail, wait for a decision or conclude early. */
  ghost predicate Unhindered(b: Board, o: ExecutionId) {
    && !InterfaceFailed(b, o) && Undecided(b, o) == {}
    && !SomeNodeIs(b, o, Failed) && !SomeNodeIs(b, o, Cancelled) && !SomeNodeIs(b, o, Interrupted)
  }

  lemma UnhinderedMove(b: Board, catalog: Catalog, o: ExecutionId, definition: OrchestrationDefinition)
    requires Unhindered(b, o) && DefinitionOf(b, catalog, o) == Some(definition)
    ensures MoveOf(b, catalog, o) ==
      if !InState(b, o, Running) then Wait
      else if SomeReady(b, definition, o) then Move.StartNodes
      else if AllDone(b, definition, o) then Move.Conclude(Completed)
      else Wait
  {
    hide InterfaceFailed, Undecided, SomeNodeIs, SomeReady, AllDone;
  }

  lemma UndecidedMove(b: Board, catalog: Catalog, o: ExecutionId, definition: OrchestrationDefinition, f: ExecutionId)
    requires !InterfaceFailed(b, o) && Undecided(b, o) != {} && f == IdOrder.First(Undecided(b, o))
    requires DefinitionOf(b, catalog, o) == Some(definition)
    ensures MoveOf(b, catalog, o) == MoveForUndecided(b, definition, f)
  {
    hide InterfaceFailed, Undecided, MoveForUndecided;
  }

  lemma HinderedMove(b: Board, catalog: Catalog, o: ExecutionId, states: NodeStates)
    requires !InterfaceFailed(b, o) && Undecided(b, o) == {} && StatesMatch(b, o, states) && DefinitionOf(b, catalog, o).Some?
    ensures Failed in states.Values ==> MoveOf(b, catalog, o) == Move.Conclude(Failed)
    ensures Failed !in states.Values && Cancelled in states.Values ==> MoveOf(b, catalog, o) == Move.Conclude(Cancelled)
    ensures Failed !in states.Values && Cancelled !in states.Values && Interrupted in states.Values ==>
      MoveOf(b, catalog, o) == Move.Conclude(Interrupted)
    ensures Failed !in states.Values && Cancelled !in states.Values && Interrupted !in states.Values ==> Unhindered(b, o)
  {
    StatesTell(b, o, states);
    hide InterfaceFailed, Undecided, SomeNodeIs, NodeDone;
  }

  lemma InterfaceMove(b: Board, catalog: Catalog, o: ExecutionId)
    requires InterfaceFailed(b, o) && DefinitionOf(b, catalog, o).Some?
    ensures MoveOf(b, catalog, o).FailForInterface?
  {
    hide InterfaceFailed;
  }

  /** Concluding `Failed` on a failed node, `Cancelled` or `Interrupted` needs no further reason. */
  lemma HinderedIsJustified(b: Board, catalog: Catalog, o: ExecutionId, states: NodeStates)
    requires BoardInv(b) && RolesApart(b) && Undecided(b, o) == {} && StatesMatch(b, o, states)
    ensures Failed in states.Values ==> OutcomeJustified(b, catalog, o, Failed)
    ensures OutcomeJustified(b, catalog, o, Cancelled) && OutcomeJustified(b, catalog, o, Interrupted)
  {
    if Failed in states.Values {
      StatesTell(b, o, states);
      BoardIsSound(b);
      FailedNodeWasDecided(b, o);
    }
    hide BoardInv, RolesApart, FailDecided;
  }

  lemma CompletedIsJustified(b: Board, catalog: Catalog, o: ExecutionId, definition: OrchestrationDefinition)
    requires DefinitionOf(b, catalog, o) == Some(definition) && AllDone(b, definition, o)
    ensures OutcomeJustified(b, catalog, o, Completed)
  {
  }

  lemma ReadyNodes(b: Board, catalog: Catalog, o: ExecutionId, definition: OrchestrationDefinition, states: NodeStates, ready: seq<OrchestrationNode>)
    requires StatesMatch(b, o, states) && DefinitionOf(b, catalog, o) == Some(definition)
    requires ready == Selected(states, definition.nodes)
    requires forall j, k :: 0 <= j < k < |ready| ==> ready[j].id != ready[k].id
    ensures AllReady(b, catalog, o, ready) && StartsAllReady(b, definition, o, ready)
    ensures ready != [] <==> SomeReady(b, definition, o)
  {
    SelectedTells(b, o, states, definition.nodes);
    ReadyAmongFacts(b, o, definition.nodes);
    hide Ready, IsReady, StatesMatch, DefinitionOf, ReadyAmong, Selected;
    if SomeReady(b, definition, o) {
      var i :| 0 <= i < |definition.nodes| && IsReady(b, o, definition.nodes[i]);
      assert definition.nodes[i] in ready;
    }
    if ready != [] {
      assert ready[0] in definition.nodes;
      var i :| 0 <= i < |definition.nodes| && definition.nodes[i] == ready[0];
      assert IsReady(b, o, definition.nodes[i]);
    }
  }
}
