/**
 The rules of orchestration scheduling, stated on the board: how a node's
 state follows its recoveries, what an orchestration does next, and which
 events a live runtime records.
 */
module Scheduler {
  import opened PhenixCore
  import opened Records
  import opened Journal
  import opened Configuration
  import opened BoardInvariants
  import opened Delegation
  import IdOrder

  // ---------------------------------------------------------------------------
  // Recovery chains
  // ---------------------------------------------------------------------------

  /** The execution that took over from `id`, if `id` failed and was retried or replaced. */
  function Successor(b: Board, id: ExecutionId): Option<ExecutionId> {
    if InState(b, id, Failed) && id in b.decisions then b.decisions[id].decision.RecoveryExecution() else None
  }

  /** The last execution of the recovery chain that starts at `id`. */
  ghost function Leaf(b: Board, id: ExecutionId): ExecutionId
    decreases b.nextExecution - id
  {
    var next := Successor(b, id);
    if next.Some? && id < next.value <= b.nextExecution then Leaf(b, next.value) else id
  }

  /** What an execution counts as once it is the end of its chain. */
  function Outcome(b: Board, id: ExecutionId): ExecutionState
    requires id in b.executions
  {
    var state := b.executions[id].summary.state;
    if state.Failed? && id in b.decisions && b.decisions[id].decision.Continue? then Completed else state
  }

  ghost function Effective(b: Board, id: ExecutionId): ExecutionState {
    var leaf := Leaf(b, id);
    if leaf in b.executions then Outcome(b, leaf) else Failed
  }

  lemma {:induction false} LeafFacts(b: Board, id: ExecutionId)
    requires Sequenced(b) && DecisionsSound(b) && id in b.executions
    ensures Leaf(b, id) in b.executions && id <= Leaf(b, id)
    ensures b.executions[Leaf(b, id)].summary.parent == b.executions[id].summary.parent
    ensures IsAgent(b, id) ==> IsAgent(b, Leaf(b, id))
    ensures Successor(b, Leaf(b, id)).None?
    decreases b.nextExecution - id
  {
    var next := Successor(b, id);
    if next.Some? {
      assert DecisionSound(b, id);
      LeafFacts(b, next.value);
    }
  }

  /** `e` lies on the recovery chain that starts at `id`. */
  ghost predicate OnChain(b: Board, id: ExecutionId, e: ExecutionId)
    decreases b.nextExecution - id
  {
    e == id ||
    var next := Successor(b, id);
    next.Some? && id < next.value <= b.nextExecution && OnChain(b, next.value, e)
  }

  // ---------------------------------------------------------------------------
  // The state of an orchestration's nodes
  // ---------------------------------------------------------------------------

  predicate IsNodeChild(b: Board, o: ExecutionId, c: ExecutionId) {
    IsChild(b, o, c) && c in b.nodes
  }

  ghost predicate NodeStarted(b: Board, o: ExecutionId, node: OrchestrationNodeId) {
    exists c :: IsNodeChild(b, o, c) && b.nodes[c] == node
  }

  ghost predicate NodeDone(b: Board, o: ExecutionId, node: OrchestrationNodeId) {
    exists c :: IsNodeChild(b, o, c) && b.nodes[c] == node && Effective(b, c).Completed?
  }

  ghost predicate SomeNodeIs(b: Board, o: ExecutionId, s: ExecutionState) {
    exists c :: IsNodeChild(b, o, c) && Effective(b, c) == s
  }

  ghost predicate DependenciesDone(b: Board, o: ExecutionId, node: OrchestrationNode) {
    forall dep :: dep in node.dependsOn ==> NodeDone(b, o, dep)
  }

  ghost predicate IsReady(b: Board, o: ExecutionId, node: OrchestrationNode) {
    !NodeStarted(b, o, node.id) && DependenciesDone(b, o, node)
  }

  ghost predicate SomeReady(b: Board, definition: OrchestrationDefinition, o: ExecutionId) {
    exists i :: 0 <= i < |definition.nodes| && IsReady(b, o, definition.nodes[i])
  }

  ghost predicate AllDone(b: Board, definition: OrchestrationDefinition, o: ExecutionId) {
    forall i :: 0 <= i < |definition.nodes| ==> NodeDone(b, o, definition.nodes[i].id)
  }

  // ---------------------------------------------------------------------------
  // The next move of an orchestration
  // ---------------------------------------------------------------------------

  /** `i` interfaces a failed child of `o`. */
  predicate IsInterfaceOf(b: Board, o: ExecutionId, i: ExecutionId) {
    exists f :: f in b.interfaces && b.interfaces[f] == i && IsChild(b, o, f)
  }

  ghost predicate InterfaceFailed(b: Board, o: ExecutionId) {
    exists f :: f in b.interfaces && IsChild(b, o, f) && InState(b, b.interfaces[f], Failed)
  }

  /** The failed agents of `o` that still await a decision. */
  ghost function Undecided(b: Board, o: ExecutionId): set<ExecutionId> {
    set f | f in b.executions && IsFailedChildOf(b, o, f) && !IsInterfaceOf(b, o, f) && f !in b.decisions
  }

  datatype Move =
    | FailForInterface
    | FailFor(child: ExecutionId)
    | StartInterface(failedChild: ExecutionId, agent: CallableId)
    | Conclude(state: ExecutionState)
    | StartNodes
    | Wait
  {
    /** Moves that create executions. */
    predicate Creates() {
      StartInterface? || StartNodes?
    }
  }

  ghost function MoveForUndecided(b: Board, definition: OrchestrationDefinition, f: ExecutionId): Move {
    if definition.interfaceAgent.None? then FailFor(f)
    else if f in b.interfaces then (if IsLive(b, b.interfaces[f]) then Wait else FailFor(f))
    else StartInterface(f, definition.interfaceAgent.value)
  }

  ghost function MoveByNodes(b: Board, definition: OrchestrationDefinition, o: ExecutionId): Move {
    if SomeNodeIs(b, o, Failed) then Conclude(Failed)
    else if SomeNodeIs(b, o, Cancelled) then Conclude(Cancelled)
    else if SomeNodeIs(b, o, Interrupted) then Conclude(Interrupted)
    else if !InState(b, o, Running) then Wait
    else if SomeReady(b, definition, o) then StartNodes
    else if AllDone(b, definition, o) then Conclude(Completed)
    else Wait
  }

  /** What refreshing the live orchestration `o` does. */
  ghost function NextMove(b: Board, definition: OrchestrationDefinition, o: ExecutionId): Move {
    if InterfaceFailed(b, o) then FailForInterface
    else if Undecided(b, o) != {} then MoveForUndecided(b, definition, IdOrder.First(Undecided(b, o)))
    else MoveByNodes(b, definition, o)
  }

  // ---------------------------------------------------------------------------
  // What a live runtime keeps true
  // ---------------------------------------------------------------------------

  function DefinitionIn(catalog: Catalog, revision: ConfigRevisionId, callable: Option<CallableId>): Option<OrchestrationDefinition> {
    if revision in catalog && callable.Some? && callable.value in catalog[revision].callables
      && catalog[revision].callables[callable.value].OrchestrationEntry?
    then Some(catalog[revision].callables[callable.value].definition)
    else None
  }

  /** The pinned definition that execution `o` runs. */
  function DefinitionOf(b: Board, catalog: Catalog, o: ExecutionId): Option<OrchestrationDefinition> {
    if o in b.executions then DefinitionIn(catalog, b.executions[o].configRevision, b.executions[o].summary.callable) else None
  }

  ghost predicate RecordShaped(catalog: Catalog, r: ExecutionRecord) {
    r.summary.kind.Orchestration? ==>
      r.payload.OrchestrationPayload? && DefinitionIn(catalog, r.configRevision, r.summary.callable).Some?
  }

  /** Orchestrations run a registered definition, roots have no parent, and children stay in their parent's session. */
  ghost predicate Shaped(b: Board, catalog: Catalog) {
    forall id :: id in b.executions ==>
      && RecordShaped(catalog, b.executions[id])
      && (b.executions[id].summary.kind.Root? ==> b.executions[id].summary.parent.None?)
      && (b.executions[id].summary.parent.Some? && b.executions[id].summary.parent.value in b.executions ==>
            b.executions[b.executions[id].summary.parent.value].summary.session == b.executions[id].summary.session)
  }

  predicate IsInterface(b: Board, i: ExecutionId) {
    exists f :: f in b.interfaces && b.interfaces[f] == i
  }

  ghost predicate IsRecovery(b: Board, r: ExecutionId) {
    exists f :: f in b.decisions && b.decisions[f].decision.RecoveryExecution() == Some(r)
  }

  ghost predicate NodesApart(b: Board) {
    forall c :: c in b.nodes ==> IsAgent(b, c) && !IsInterface(b, c) && !IsRecovery(b, c)
  }

  ghost predicate InterfacesApart(b: Board) {
    forall f :: f in b.interfaces ==> !IsInterface(b, f) && !IsRecovery(b, b.interfaces[f])
  }

  ghost predicate InterfacesDistinct(b: Board) {
    forall f, g :: f in b.interfaces && g in b.interfaces && b.interfaces[f] == b.interfaces[g] ==> f == g
  }

  ghost predicate InterfacesFailFinally(b: Board) {
    forall f :: f in b.decisions && IsInterface(b, f) ==> b.decisions[f].decision.Fail?
  }

  /** Node starts, recoveries and failure interfaces are different executions. */
  ghost predicate RolesApart(b: Board) {
    && NodesApart(b)
    && InterfacesApart(b)
    && InterfacesDistinct(b)
    && InterfacesFailFinally(b)
  }

  ghost predicate StartJustified(b: Board, catalog: Catalog, o: ExecutionId, node: OrchestrationNodeId) {
    && DefinitionOf(b, catalog, o).Some?
    && var nodes := DefinitionOf(b, catalog, o).value.nodes;
    exists i :: 0 <= i < |nodes| && nodes[i].id == node && DependenciesDone(b, o, nodes[i])
  }

  /** Every started node belongs to the definition and had its dependencies done. */
  ghost predicate DagSafe(b: Board, catalog: Catalog) {
    forall c, o :: c in b.nodes && IsChild(b, o, c) ==> StartJustified(b, catalog, o, b.nodes[c])
  }

  ghost predicate FailDecided(b: Board, o: ExecutionId) {
    exists f :: f in b.decisions && b.decisions[f].parent == o && b.decisions[f].decision.Fail?
  }

  ghost predicate OutcomeJustified(b: Board, catalog: Catalog, o: ExecutionId, s: ExecutionState) {
    && (s.Completed? ==> DefinitionOf(b, catalog, o).Some? && AllDone(b, DefinitionOf(b, catalog, o).value, o))
    && (s.Failed? ==> FailDecided(b, o))
  }

  /** Orchestrations complete when all their nodes are done and fail on a Fail decision. */
  ghost predicate OutcomesSound(b: Board, catalog: Catalog) {
    forall o :: IsOrchestration(b, o) ==> OutcomeJustified(b, catalog, o, b.executions[o].summary.state)
  }

  ghost predicate LiveInv(b: Board, catalog: Catalog) {
    && Shaped(b, catalog)
    && GrantsHeld(b, catalog)
    && RolesApart(b)
    && DagSafe(b, catalog)
    && OutcomesSound(b, catalog)
  }

  /** The events a live runtime records, beyond what the durable state insists on. */
  ghost predicate LiveGuard(d: Durable, catalog: Catalog, event: DomainEvent) {
    match event
    case ExecutionCreated(x, payload) =>
      && (x.session in d.sessions && (x.parent.Some? ==> x.parent.value in d.board.executions) ==>
            RecordShaped(catalog, NewRecord(d, x, payload)) && Grant(d.board, catalog, x, PinnedRevision(d, x)) == Some(payload.authority))
      && (x.parent.Some? && x.parent.value in d.board.executions ==>
            d.board.executions[x.parent.value].summary.session == x.session)
      && x.state.Pending? && (x.kind.Root? ==> x.parent.None?)
    case ExecutionStateChanged(x, s) =>
      IsOrchestration(d.board, x) ==> !s.Pending? && OutcomeJustified(d.board, catalog, x, s)
    case OrchestrationFailureInterfaceStarted(p, f, i) =>
      !IsInterface(d.board, f) && !IsInterface(d.board, i) && !IsRecovery(d.board, i)
    case OrchestrationDecisionMade(r) =>
      && (IsInterface(d.board, r.failedChild) ==> r.decision.Fail?)
    case OrchestrationNodeStarted(o, node, child) =>
      && IsAgent(d.board, child) && !IsInterface(d.board, child) && !IsRecovery(d.board, child)
      && StartJustified(d.board, catalog, o, node)
    case _ => true
  }
}
