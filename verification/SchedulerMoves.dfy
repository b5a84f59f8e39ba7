/**
 How recorded events change what orchestrations do next: an orchestration's
 next move depends only on its own children, ending a child of a waiting
 orchestration never makes it create executions unless an agent failed, and
 acting on a move leaves the orchestration waiting.
 */
module SchedulerMoves {
  import opened PhenixCore
  import opened Records
  import opened Journal
  import opened Configuration
  import opened BoardInvariants
  import opened Scheduler
  import IdOrder

  // ---------------------------------------------------------------------------
  // The next move depends on the orchestration's own children only
  // ---------------------------------------------------------------------------

  /** The boards agree on `o`, on which executions are its children and on what is bound to them. */
  ghost predicate SameView(b: Board, c: Board, o: ExecutionId) {
    && (InState(b, o, Running) <==> InState(c, o, Running))
    && (forall x :: IsChild(b, o, x) <==> IsChild(c, o, x))
    && (forall x :: IsChild(b, o, x) ==>
          && b.executions[x].summary == c.executions[x].summary
          && (x in b.nodes <==> x in c.nodes) && (x in b.nodes ==> b.nodes[x] == c.nodes[x])
          && (x in b.decisions <==> x in c.decisions) && (x in b.decisions ==> b.decisions[x] == c.decisions[x])
          && (x in b.interfaces <==> x in c.interfaces) && (x in b.interfaces ==> b.interfaces[x] == c.interfaces[x]))
  }

  ghost predicate Sound(b: Board) {
    Sequenced(b) && DecisionsSound(b) && InterfacesSound(b)
  }

  lemma {:induction false} LeafFrame(b: Board, c: Board, o: ExecutionId, x: ExecutionId)
    requires Sound(b) && Sound(c) && SameView(b, c, o) && IsChild(b, o, x)
    ensures Leaf(b, x) == Leaf(c, x) && Effective(b, x) == Effective(c, x)
    decreases b.nextExecution - x
  {
    assert IsChild(c, o, x);
    var next := Successor(b, x);
    assert next == Successor(c, x);
    if next.Some? {
      assert DecisionSound(b, x) && DecisionSound(c, x);
      LeafFrame(b, c, o, next.value);
    }
  }

  lemma NodesFrame(b: Board, c: Board, o: ExecutionId)
    requires Sound(b) && Sound(c) && SameView(b, c, o)
    ensures forall x :: IsNodeChild(b, o, x) <==> IsNodeChild(c, o, x)
    ensures forall x :: IsNodeChild(b, o, x) ==> b.nodes[x] == c.nodes[x] && Effective(b, x) == Effective(c, x)
  {
    forall x | IsNodeChild(b, o, x) ensures Effective(b, x) == Effective(c, x) { LeafFrame(b, c, o, x); }
  }

  lemma MoveByNodesFrame(b: Board, c: Board, definition: OrchestrationDefinition, o: ExecutionId)
    requires Sound(b) && Sound(c) && SameView(b, c, o)
    ensures MoveByNodes(b, definition, o) == MoveByNodes(c, definition, o)
  {
    NodesFrame(b, c, o);
    hide Effective, Leaf, Sound, IsChild;
    assert forall s :: SomeNodeIs(b, o, s) <==> SomeNodeIs(c, o, s);
    assert forall n :: NodeStarted(b, o, n) <==> NodeStarted(c, o, n);
    assert forall n :: NodeDone(b, o, n) <==> NodeDone(c, o, n);
    assert SomeReady(b, definition, o) <==> SomeReady(c, definition, o) by {
      assert forall i :: 0 <= i < |definition.nodes| ==>
        (IsReady(b, o, definition.nodes[i]) <==> IsReady(c, o, definition.nodes[i]));
    }
  }

  lemma InterfacesAgree(b: Board, c: Board, o: ExecutionId)
    requires InterfacesSound(b) && SameView(b, c, o)
    ensures forall f :: f in b.interfaces && IsChild(b, o, f) ==>
      f in c.interfaces && c.interfaces[f] == b.interfaces[f] && IsChild(c, o, f) && IsChild(b, o, b.interfaces[f]) && IsChild(c, o, b.interfaces[f])
  {
    forall f | f in b.interfaces && IsChild(b, o, f)
      ensures IsChild(b, o, b.interfaces[f])
    {
      assert InterfaceSound(b, f);
    }
  }

  lemma SameViewIsSymmetric(b: Board, c: Board, o: ExecutionId)
    requires SameView(b, c, o)
    ensures SameView(c, b, o)
  {
  }

  lemma InterfacesFrame(b: Board, c: Board, o: ExecutionId)
    requires Sound(b) && Sound(c) && SameView(b, c, o)
    ensures InterfaceFailed(b, o) <==> InterfaceFailed(c, o)
    ensures Undecided(b, o) == Undecided(c, o)
    ensures forall f :: f in Undecided(b, o) ==>
      (f in b.interfaces <==> f in c.interfaces) && (f in b.interfaces ==> (IsLive(b, b.interfaces[f]) <==> IsLive(c, c.interfaces[f])))
  {
    SameViewIsSymmetric(b, c, o);
    FailedInterfaceStays(b, c, o);
    FailedInterfaceStays(c, b, o);
    InterfacesAgree(b, c, o);
    forall f: ExecutionId ensures f in Undecided(b, o) <==> f in Undecided(c, o) {
      UndecidedStays(b, c, o, f);
      UndecidedStays(c, b, o, f);
    }
    forall f | f in Undecided(b, o)
      ensures f in b.interfaces <==> f in c.interfaces
      ensures f in b.interfaces ==> (IsLive(b, b.interfaces[f]) <==> IsLive(c, c.interfaces[f]))
    {
      assert IsChild(b, o, f);
    }
    hide Undecided, Sound, InterfaceFailed;
  }

  lemma FailedInterfaceStays(b: Board, c: Board, o: ExecutionId)
    requires InterfacesSound(b) && SameView(b, c, o)
    ensures InterfaceFailed(b, o) ==> InterfaceFailed(c, o)
  {
    InterfacesAgree(b, c, o);
    hide InterfacesSound;
  }

  lemma UndecidedStays(b: Board, c: Board, o: ExecutionId, f: ExecutionId)
    requires InterfacesSound(c) && SameView(b, c, o) && SameView(c, b, o)
    ensures f in Undecided(b, o) ==> f in Undecided(c, o)
  {
    SameInterface(c, b, o, f);
    hide InterfacesSound, IsInterfaceOf;
  }

  lemma SameInterface(b: Board, c: Board, o: ExecutionId, i: ExecutionId)
    requires InterfacesSound(b) && SameView(b, c, o)
    ensures IsInterfaceOf(b, o, i) ==> IsInterfaceOf(c, o, i)
  {
    InterfacesAgree(b, c, o);
    hide SameView, InterfacesSound;
  }

  lemma MoveFrame(b: Board, c: Board, definition: OrchestrationDefinition, o: ExecutionId)
    requires Sound(b) && Sound(c) && SameView(b, c, o)
    ensures NextMove(b, definition, o) == NextMove(c, definition, o)
  {
    InterfacesFrame(b, c, o);
    MoveByNodesFrame(b, c, definition, o);
    hide MoveByNodes, Sound, SameView, InterfaceFailed, Undecided;
    if Undecided(b, o) != {} {
      assert IdOrder.First(Undecided(b, o)) in Undecided(b, o);
    }
  }

  // Which orchestrations an event can concern.

  lemma StateChangeIsLocal(b: Board, id: ExecutionId, s: ExecutionState, o: ExecutionId)
    requires id in b.executions && !IsChild(b, o, id) && o != id
    ensures SameView(b, WithState(b, id, s), o)
  {
  }

  lemma CreationIsLocal(b: Board, record: ExecutionRecord, o: ExecutionId)
    requires Sequenced(b) && record.summary.id == b.nextExecution + 1
    requires record.summary.parent != Some(o) && o in b.executions
    ensures SameView(b, WithExecution(b, record), o)
  {
    assert record.summary.id !in b.executions;
  }

  /** The boards bind the same to every execution but `x`. */
  ghost predicate BindsOnly(b: Board, c: Board, x: ExecutionId) {
    && (forall y :: y != x ==> (y in b.nodes <==> y in c.nodes) && (y in b.nodes ==> b.nodes[y] == c.nodes[y]))
    && (forall y :: y != x ==> (y in b.decisions <==> y in c.decisions) && (y in b.decisions ==> b.decisions[y] == c.decisions[y]))
    && (forall y :: y != x ==> (y in b.interfaces <==> y in c.interfaces) && (y in b.interfaces ==> b.interfaces[y] == c.interfaces[y]))
  }

  lemma BindingIsLocal(b: Board, c: Board, x: ExecutionId, o: ExecutionId)
    requires c.executions == b.executions && !IsChild(b, o, x) && BindsOnly(b, c, x)
    ensures SameView(b, c, o)
  {
  }

  // ---------------------------------------------------------------------------
  // State changes of a child
  // ---------------------------------------------------------------------------

  /** Changing the state of a live execution moves no chain and changes the outcome of its own chain only. */
  lemma {:induction false} LeafAfterStateChange(b: Board, id: ExecutionId, s: ExecutionState, x: ExecutionId)
    requires Sound(b) && IsLive(b, id) && x in b.executions
    ensures Leaf(WithState(b, id, s), x) == Leaf(b, x)
    ensures Effective(WithState(b, id, s), x) == if Leaf(b, x) == id then s else Effective(b, x)
    decreases b.nextExecution - x
  {
    var c := WithState(b, id, s);
    assert id !in b.decisions by { assert id in b.decisions ==> DecisionSound(b, id); }
    var next := Successor(b, x);
    assert next == Successor(c, x);
    if next.Some? {
      assert DecisionSound(b, x);
      LeafAfterStateChange(b, id, s, next.value);
    }
  }

  lemma InterfacesAfterStateChange(b: Board, id: ExecutionId, s: ExecutionState, o: ExecutionId)
    requires Sound(b) && IsLive(b, id)
    ensures forall x :: IsInterfaceOf(WithState(b, id, s), o, x) <==> IsInterfaceOf(b, o, x)
    ensures !s.Failed? || !IsAgent(b, id) ==> Undecided(WithState(b, id, s), o) == Undecided(b, o)
    ensures !s.Failed? || !IsAgent(b, id) ==> (InterfaceFailed(WithState(b, id, s), o) <==> InterfaceFailed(b, o))
  {
    var c := WithState(b, id, s);
    assert forall x :: IsChild(c, o, x) <==> IsChild(b, o, x);
    assert forall f :: f in b.interfaces ==> InterfaceSound(b, f);
    assert forall x :: IsInterfaceOf(c, o, x) <==> IsInterfaceOf(b, o, x);
  }

  lemma NodesAfterStateChange(b: Board, id: ExecutionId, s: ExecutionState, o: ExecutionId)
    requires Sound(b) && IsLive(b, id)
    ensures forall x :: IsNodeChild(WithState(b, id, s), o, x) <==> IsNodeChild(b, o, x)
    ensures forall x :: IsNodeChild(b, o, x) ==>
      Effective(WithState(b, id, s), x) == if Leaf(b, x) == id then s else Effective(b, x)
    ensures forall x :: IsNodeChild(b, o, x) && Leaf(b, x) == id ==> Effective(b, x) == b.executions[id].summary.state
  {
    forall x | IsNodeChild(b, o, x)
      ensures Effective(WithState(b, id, s), x) == if Leaf(b, x) == id then s else Effective(b, x)
    {
      LeafAfterStateChange(b, id, s, x);
    }
  }

  /** A waiting orchestration keeps waiting when a live child merely starts running, or a child that is no agent ends. */
  lemma WaitSurvivesStateChange(b: Board, definition: OrchestrationDefinition, o: ExecutionId, id: ExecutionId, s: ExecutionState)
    requires Sound(b) && IsLive(b, id) && o != id
    requires forall x :: IsNodeChild(b, o, x) ==> IsAgent(b, x)
    requires NextMove(b, definition, o).Wait?
    requires !IsTerminal(s) || !IsAgent(b, id)
    ensures NextMove(WithState(b, id, s), definition, o).Wait?
  {
    var c := WithState(b, id, s);
    InterfacesAfterStateChange(b, id, s, o);
    if Undecided(b, o) != {} {
      var f := IdOrder.First(Undecided(b, o));
      assert f in Undecided(b, o);
      if f in b.interfaces { assert InterfaceSound(b, f); }
    } else {
      NodesKeepMoving(b, definition, o, id, s);
    }
  }

  lemma NodesKeepMoving(b: Board, definition: OrchestrationDefinition, o: ExecutionId, id: ExecutionId, s: ExecutionState)
    requires Sound(b) && IsLive(b, id) && o != id
    requires forall x :: IsNodeChild(b, o, x) ==> IsAgent(b, x)
    requires MoveByNodes(b, definition, o).Wait?
    requires !IsTerminal(s) || !IsAgent(b, id)
    ensures MoveByNodes(WithState(b, id, s), definition, o).Wait?
  {
    var c := WithState(b, id, s);
    NodesAfterStateChange(b, id, s, o);
    forall x | IsNodeChild(b, o, x)
      ensures Effective(c, x) == Effective(b, x) || (!IsTerminal(Effective(c, x)) && !IsTerminal(Effective(b, x)))
    {
      LeafFacts(b, x);
    }
    assert InState(c, o, Running) <==> InState(b, o, Running);
    hide Effective, Leaf, Sound, WithState, IsChild;
    assert forall n :: NodeStarted(b, o, n) <==> NodeStarted(c, o, n);
    assert forall n :: NodeDone(b, o, n) <==> NodeDone(c, o, n);
    assert forall i :: 0 <= i < |definition.nodes| ==>
      (IsReady(b, o, definition.nodes[i]) <==> IsReady(c, o, definition.nodes[i]));
  }

  /** Cancelling a live child makes a waiting orchestration conclude, fail or wait on, never create. */
  lemma CancellationCreatesNothing(b: Board, definition: OrchestrationDefinition, o: ExecutionId, id: ExecutionId)
    requires Sound(b) && IsLive(b, id) && o != id
    requires NextMove(b, definition, o).Wait?
    ensures !NextMove(WithState(b, id, Cancelled), definition, o).Creates()
  {
    var c := WithState(b, id, Cancelled);
    InterfacesAfterStateChange(b, id, Cancelled, o);
    if Undecided(b, o) != {} {
      var f := IdOrder.First(Undecided(b, o));
      assert f in Undecided(b, o);
    } else {
      NodesDoNotStart(b, definition, o, id);
    }
  }

  /** An orchestration that is about to start a failure interface still is after a live child was cancelled. */
  lemma CancellationLeavesInterfaceMove(b: Board, definition: OrchestrationDefinition, o: ExecutionId, id: ExecutionId)
    requires Sound(b) && IsLive(b, id) && o != id
    requires NextMove(b, definition, o).StartInterface?
    ensures NextMove(WithState(b, id, Cancelled), definition, o) == NextMove(b, definition, o)
  {
    InterfacesAfterStateChange(b, id, Cancelled, o);
    var f := IdOrder.First(Undecided(b, o));
    assert f in Undecided(b, o);
  }

  lemma NodesDoNotStart(b: Board, definition: OrchestrationDefinition, o: ExecutionId, id: ExecutionId)
    requires Sound(b) && IsLive(b, id) && o != id
    requires MoveByNodes(b, definition, o).Wait?
    ensures !MoveByNodes(WithState(b, id, Cancelled), definition, o).Creates()
  {
    var c := WithState(b, id, Cancelled);
    NodesAfterStateChange(b, id, Cancelled, o);
    assert InState(c, o, Running) <==> InState(b, o, Running);
    hide Effective, Leaf, Sound, WithState, IsChild;
    if !SomeNodeIs(c, o, Cancelled) {
      assert forall x :: IsNodeChild(b, o, x) ==> Effective(c, x) == Effective(b, x);
      assert forall n :: NodeStarted(b, o, n) <==> NodeStarted(c, o, n);
      assert forall n :: NodeDone(b, o, n) <==> NodeDone(c, o, n);
      assert forall i :: 0 <= i < |definition.nodes| ==>
        (IsReady(b, o, definition.nodes[i]) <==> IsReady(c, o, definition.nodes[i]));
    }
  }

  // ---------------------------------------------------------------------------
  // Acting on a move
  // ---------------------------------------------------------------------------

  /** `c` is `b` after a failure interface `i` was created for `f`, a child of `o`. */
  ghost predicate InterfaceStartedFrom(b: Board, c: Board, o: ExecutionId, f: ExecutionId, i: ExecutionId) {
    && i !in b.executions && f in b.executions && f !in b.interfaces
    && IsChild(b, o, f)
    && IsChild(c, o, i) && InState(c, i, Pending)
    && c.executions[i].payload == InvocationPayload(FailureInterfacePrompt(o, f, b.executions[f].summary.callable))
    && c.executions == b.executions[i := c.executions[i]]
    && c.interfaces == b.interfaces[f := i] && c.decisions == b.decisions && c.nodes == b.nodes
  }

  lemma InterfacesAfterStart(b: Board, c: Board, o: ExecutionId, f: ExecutionId, i: ExecutionId)
    requires InterfacesSound(b) && InterfaceStartedFrom(b, c, o, f, i)
    ensures forall x: ExecutionId :: IsInterfaceOf(c, o, x) <==> x == i || IsInterfaceOf(b, o, x)
    ensures !InterfaceFailed(b, o) ==> !InterfaceFailed(c, o)
  {
    assert f in c.interfaces && c.interfaces[f] == i && IsChild(c, o, f);
    forall x: ExecutionId | IsInterfaceOf(b, o, x) ensures IsInterfaceOf(c, o, x) {
      var g :| g in b.interfaces && b.interfaces[g] == x && IsChild(b, o, g);
      assert g != f && g in c.interfaces && c.interfaces[g] == x && IsChild(c, o, g);
    }
    forall g | g in b.interfaces && IsChild(c, o, g)
      ensures IsChild(b, o, g)
      ensures InState(c, b.interfaces[g], Failed) ==> InState(b, b.interfaces[g], Failed)
    {
      assert InterfaceSound(b, g);
    }
    forall x: ExecutionId | IsInterfaceOf(c, o, x) ensures x == i || IsInterfaceOf(b, o, x) {
      var g :| g in c.interfaces && c.interfaces[g] == x && IsChild(c, o, g);
      assert g != f ==> g in b.interfaces;
    }
  }

  lemma UndecidedAfterStart(b: Board, c: Board, o: ExecutionId, f: ExecutionId, i: ExecutionId)
    requires InterfacesSound(b) && InterfaceStartedFrom(b, c, o, f, i)
    ensures Undecided(c, o) == Undecided(b, o)
  {
    InterfacesAfterStart(b, c, o, f, i);
    forall x: ExecutionId
      ensures x in Undecided(c, o) <==> x in Undecided(b, o)
    {
    }
  }

  /** Once its failure interface runs, an orchestration waits for it. */
  lemma InterfaceMakesWait(b: Board, c: Board, definition: OrchestrationDefinition, o: ExecutionId, f: ExecutionId, i: ExecutionId)
    requires InterfacesSound(b) && InterfaceStartedFrom(b, c, o, f, i)
    requires NextMove(b, definition, o).StartInterface? && NextMove(b, definition, o).failedChild == f
    ensures NextMove(c, definition, o).Wait?
  {
    InterfacesAfterStart(b, c, o, f, i);
    UndecidedAfterStart(b, c, o, f, i);
    hide Undecided, InterfaceFailed, MoveByNodes, InterfacesSound;
    assert IdOrder.First(Undecided(b, o)) == f;
    assert IsLive(c, i);
  }

  /** `c` is `b` after the nodes of `started` were started as children `b.nextExecution + 1`, ... of `o`. */
  ghost predicate NodesStartedFrom(b: Board, c: Board, o: ExecutionId, started: seq<OrchestrationNode>) {
    && c.nextExecution == b.nextExecution + |started|
    && (forall x :: x in b.executions ==> x in c.executions && c.executions[x] == b.executions[x])
    && (forall j :: 0 <= j < |started| ==> StartedAs(c, o, b.nextExecution + 1 + j, started[j]))
    && (forall x :: x in b.executions ==> (x in c.nodes <==> x in b.nodes) && (x in b.nodes ==> c.nodes[x] == b.nodes[x]))
    && c.decisions == b.decisions && c.interfaces == b.interfaces
  }

  /** The agent of a node is asked for the objective of the node, if it has one, within that of the orchestration. */
  ghost predicate AsksFor(input: Prompt, node: OrchestrationNode, objective: string) {
    && (node.objective.Some? ==> input == NodePrompt(node.objective.value, objective))
    && (node.objective.None? ==> input == Text(objective))
  }

  ghost predicate StartedAs(c: Board, o: ExecutionId, x: ExecutionId, node: OrchestrationNode) {
    && IsNodeChild(c, o, x) && c.nodes[x] == node.id
    && IsAgent(c, x) && InState(c, x, Pending) && c.executions[x].summary.callable == Some(node.callable)
    && o in c.executions && c.executions[o].payload.OrchestrationPayload?
    && c.executions[x].payload.InvocationPayload?
    && AsksFor(c.executions[x].payload.input, node, c.executions[o].payload.objective)
  }

  lemma StartedIsPending(b: Board, o: ExecutionId, y: ExecutionId, node: OrchestrationNode)
    requires StartedAs(b, o, y, node)
    ensures IsAgent(b, y) && InState(b, y, Pending) && b.executions[y].summary.callable == Some(node.callable)
    ensures IsNodeChild(b, o, y) && b.nodes[y] == node.id
  {
  }

  lemma OldNodesKeep(b: Board, c: Board, o: ExecutionId, started: seq<OrchestrationNode>)
    requires Sound(b) && Sound(c) && NodesStartedFrom(b, c, o, started)
    ensures forall x :: x in b.executions ==> (IsNodeChild(c, o, x) <==> IsNodeChild(b, o, x))
    ensures forall x :: IsNodeChild(b, o, x) ==> Effective(c, x) == Effective(b, x)
  {
    forall x | IsNodeChild(b, o, x) ensures Effective(c, x) == Effective(b, x) { LeafOfOld(b, c, o, started, x); }
  }

  lemma NewNodesPend(b: Board, c: Board, o: ExecutionId, started: seq<OrchestrationNode>, x: ExecutionId)
    requires Sequenced(b) && Sequenced(c) && NodesStartedFrom(b, c, o, started)
    requires IsNodeChild(c, o, x) && x !in b.executions
    ensures Effective(c, x).Pending? && exists j :: 0 <= j < |started| && started[j].id == c.nodes[x]
  {
    var j := x - b.nextExecution - 1;
    assert StartedAs(c, o, b.nextExecution + 1 + j, started[j]);
  }

  lemma {:induction false} LeafOfOld(b: Board, c: Board, o: ExecutionId, started: seq<OrchestrationNode>, x: ExecutionId)
    requires Sound(b) && Sound(c) && NodesStartedFrom(b, c, o, started) && x in b.executions
    ensures Leaf(c, x) == Leaf(b, x) && Effective(c, x) == Effective(b, x)
    decreases b.nextExecution - x
  {
    var next := Successor(b, x);
    assert Successor(c, x) == next;
    if next.Some? {
      assert DecisionSound(b, x);
      LeafOfOld(b, c, o, started, next.value);
    }
  }

  /** The ready ones among `nodes`, in their order. */
  ghost function ReadyAmong(b: Board, o: ExecutionId, nodes: seq<OrchestrationNode>): seq<OrchestrationNode> {
    if nodes == [] then []
    else
      var last := |nodes| - 1;
      ReadyAmong(b, o, nodes[..last]) + if IsReady(b, o, nodes[last]) then [nodes[last]] else []
  }

  lemma {:induction false} ReadyAmongFacts(b: Board, o: ExecutionId, nodes: seq<OrchestrationNode>)
    ensures forall node :: node in ReadyAmong(b, o, nodes) <==> node in nodes && IsReady(b, o, node)
  {
    hide IsReady;
    if nodes != [] {
      var last := |nodes| - 1;
      ReadyAmongFacts(b, o, nodes[..last]);
      assert nodes == nodes[..last] + [nodes[last]];
    }
  }

  /** The nodes in `started` are the ready ones of the definition, in its order. */
  ghost predicate StartsAllReady(b: Board, definition: OrchestrationDefinition, o: ExecutionId, started: seq<OrchestrationNode>) {
    started == ReadyAmong(b, o, definition.nodes)
  }

  /** Once its ready nodes run, an orchestration waits for them. */
  lemma StartsMakeWait(b: Board, c: Board, definition: OrchestrationDefinition, o: ExecutionId, started: seq<OrchestrationNode>)
    requires Sound(b) && Sound(c) && NodesStartedFrom(b, c, o, started)
    requires StartsAllReady(b, definition, o, started)
    requires NextMove(b, definition, o).StartNodes? && InState(c, o, Running)
    requires NodesDistinct(c)
    ensures NextMove(c, definition, o).Wait?
  {
    StartsLeaveBindings(b, c, o, started);
    NodesAfterStarts(b, c, o, started);
    NothingElseReady(b, c, definition, o, started);
  }

  lemma StartsLeaveBindings(b: Board, c: Board, o: ExecutionId, started: seq<OrchestrationNode>)
    requires Sound(b) && Sound(c) && NodesStartedFrom(b, c, o, started)
    requires !InterfaceFailed(b, o) && Undecided(b, o) == {}
    ensures !InterfaceFailed(c, o) && Undecided(c, o) == {}
  {
    forall f | f in c.interfaces && IsChild(c, o, f)
      ensures IsChild(b, o, f)
      ensures InState(c, c.interfaces[f], Failed) ==> InState(b, b.interfaces[f], Failed)
    {
      assert InterfaceSound(b, f);
    }
    assert forall x: ExecutionId :: IsInterfaceOf(b, o, x) ==> IsInterfaceOf(c, o, x);
    forall x: ExecutionId | x in c.executions && x !in b.executions
      ensures InState(c, x, Pending)
    {
      var j := x - b.nextExecution - 1;
      assert StartedAs(c, o, b.nextExecution + 1 + j, started[j]);
    }
    assert forall x: ExecutionId :: x in Undecided(c, o) ==> x in Undecided(b, o);
  }

  lemma NodesAfterStarts(b: Board, c: Board, o: ExecutionId, started: seq<OrchestrationNode>)
    requires Sound(b) && Sound(c) && NodesStartedFrom(b, c, o, started)
    requires !SomeNodeIs(b, o, Failed) && !SomeNodeIs(b, o, Cancelled) && !SomeNodeIs(b, o, Interrupted)
    ensures !SomeNodeIs(c, o, Failed) && !SomeNodeIs(c, o, Cancelled) && !SomeNodeIs(c, o, Interrupted)
  {
    OldNodesKeep(b, c, o, started);
    forall x | IsNodeChild(c, o, x)
      ensures Effective(c, x).Pending? || (IsNodeChild(b, o, x) && Effective(c, x) == Effective(b, x))
    {
      if x !in b.executions { NewNodesPend(b, c, o, started, x); }
    }
  }

  lemma NothingElseReady(b: Board, c: Board, definition: OrchestrationDefinition, o: ExecutionId, started: seq<OrchestrationNode>)
    requires Sound(b) && Sound(c) && NodesStartedFrom(b, c, o, started) && NodesDistinct(c)
    requires StartsAllReady(b, definition, o, started) && SomeReady(b, definition, o)
    ensures !SomeReady(c, definition, o) && !AllDone(c, definition, o)
  {
    hide NodeDone, NodeStarted, Sound, NodesStartedFrom, NodesDistinct, ReadyAmong;
    ReadyAmongFacts(b, o, definition.nodes);
    forall n | NodeDone(c, o, n) ensures NodeDone(b, o, n) { DoneWasDone(b, c, o, started, n); }
    forall n | NodeStarted(b, o, n) ensures NodeStarted(c, o, n) { StartedStays(b, c, o, started, n); }
    forall j | 0 <= j < |started| ensures NodeStarted(c, o, started[j].id) && !NodeDone(c, o, started[j].id) {
      NowStarted(b, c, o, started, j);
      assert started[j] in started;
      assert !NodeStarted(b, o, started[j].id);
      if NodeDone(c, o, started[j].id) { DoneStarted(b, o, started[j].id); }
    }
    forall i | 0 <= i < |definition.nodes| ensures !IsReady(c, o, definition.nodes[i]) {
      if IsReady(b, o, definition.nodes[i]) {
        assert definition.nodes[i] in started;
      } else if !NodeStarted(b, o, definition.nodes[i].id) {
        assert !DependenciesDone(b, o, definition.nodes[i]);
      }
    }
    var i :| 0 <= i < |definition.nodes| && IsReady(b, o, definition.nodes[i]);
    assert definition.nodes[i] in started;
  }

  lemma NowStarted(b: Board, c: Board, o: ExecutionId, started: seq<OrchestrationNode>, j: nat)
    requires NodesStartedFrom(b, c, o, started) && j < |started|
    ensures NodeStarted(c, o, started[j].id)
  {
    assert StartedAs(c, o, b.nextExecution + 1 + j, started[j]);
  }

  lemma DoneStarted(b: Board, o: ExecutionId, n: OrchestrationNodeId)
    requires NodeDone(b, o, n)
    ensures NodeStarted(b, o, n)
  {
  }

  lemma StartedStays(b: Board, c: Board, o: ExecutionId, started: seq<OrchestrationNode>, n: OrchestrationNodeId)
    requires Sound(b) && NodesStartedFrom(b, c, o, started) && NodeStarted(b, o, n)
    ensures NodeStarted(c, o, n)
  {
    var x :| IsNodeChild(b, o, x) && b.nodes[x] == n;
    assert IsNodeChild(c, o, x) && c.nodes[x] == n;
  }

  lemma DoneWasDone(b: Board, c: Board, o: ExecutionId, started: seq<OrchestrationNode>, n: OrchestrationNodeId)
    requires Sound(b) && Sound(c) && NodesStartedFrom(b, c, o, started) && NodeDone(c, o, n)
    ensures NodeDone(b, o, n)
  {
    var x :| IsNodeChild(c, o, x) && c.nodes[x] == n && Effective(c, x).Completed?;
    if x !in b.executions {
      NewNodesPend(b, c, o, started, x);
    } else {
      OldNodesKeep(b, c, o, started);
      assert IsNodeChild(b, o, x);
    }
  }

  // ---------------------------------------------------------------------------
  // Waiting orchestrations make progress
  // ---------------------------------------------------------------------------

  /** A running orchestration that waits has a live child to wait for. */
  lemma WaitingHasALiveChild(b: Board, definition: OrchestrationDefinition, o: ExecutionId)
    requires Sound(b) && InState(b, o, Running)
    requires DependenciesFirst(definition.nodes)
    requires NextMove(b, definition, o).Wait?
    ensures exists x :: IsChild(b, o, x) && IsLive(b, x)
  {
    if Undecided(b, o) != {} {
      var f := IdOrder.First(Undecided(b, o));
      assert f in Undecided(b, o);
      assert InterfaceSound(b, f);
      assert IsChild(b, o, b.interfaces[f]);
    } else {
      var x := PendingNode(b, definition, o);
      LeafFacts(b, x);
      assert IsChild(b, o, Leaf(b, x));
    }
  }

  lemma PendingNode(b: Board, definition: OrchestrationDefinition, o: ExecutionId) returns (x: ExecutionId)
    requires InState(b, o, Running)
    requires DependenciesFirst(definition.nodes)
    requires MoveByNodes(b, definition, o).Wait?
    ensures IsNodeChild(b, o, x) && !IsTerminal(Effective(b, x))
  {
    hide Effective, IsChild;
    if forall i :: 0 <= i < |definition.nodes| ==> NodeStarted(b, o, definition.nodes[i].id) {
      var i :| 0 <= i < |definition.nodes| && !NodeDone(b, o, definition.nodes[i].id);
      x :| IsNodeChild(b, o, x) && b.nodes[x] == definition.nodes[i].id;
    } else {
      var i := FirstUnstarted(b, definition, o, 0);
      var dep :| dep in definition.nodes[i].dependsOn && !NodeDone(b, o, dep);
      var j :| 0 <= j < i && definition.nodes[j].id == dep;
      assert NodeStarted(b, o, definition.nodes[j].id);
      x :| IsNodeChild(b, o, x) && b.nodes[x] == dep;
    }
    assert !Effective(b, x).Completed?;
    assert !SomeNodeIs(b, o, Failed) && !SomeNodeIs(b, o, Cancelled) && !SomeNodeIs(b, o, Interrupted);
  }

  lemma {:induction false} FirstUnstarted(b: Board, definition: OrchestrationDefinition, o: ExecutionId, from: nat) returns (i: nat)
    requires from < |definition.nodes|
    requires forall j :: 0 <= j < from ==> NodeStarted(b, o, definition.nodes[j].id)
    requires exists j :: 0 <= j < |definition.nodes| && !NodeStarted(b, o, definition.nodes[j].id)
    ensures i < |definition.nodes| && !NodeStarted(b, o, definition.nodes[i].id)
    ensures forall j :: 0 <= j < i ==> NodeStarted(b, o, definition.nodes[j].id)
    decreases |definition.nodes| - from
  {
    hide NodeStarted;
    if NodeStarted(b, o, definition.nodes[from].id) {
      i := FirstUnstarted(b, definition, o, from + 1);
    } else {
      i := from;
    }
  }

  // ---------------------------------------------------------------------------
  // A failed node was decided to fail
  // ---------------------------------------------------------------------------

  lemma {:induction false} LeafIsStartOrRecovery(b: Board, x: ExecutionId)
    ensures Leaf(b, x) == x || IsRecovery(b, Leaf(b, x))
    decreases b.nextExecution - x
  {
    var next := Successor(b, x);
    if next.Some? && x < next.value <= b.nextExecution {
      LeafIsStartOrRecovery(b, next.value);
      assert IsRecovery(b, next.value);
    }
  }

  lemma FailedNodeWasDecided(b: Board, o: ExecutionId)
    requires Sound(b) && RolesApart(b)
    requires Undecided(b, o) == {} && SomeNodeIs(b, o, Failed)
    ensures FailDecided(b, o)
  {
    var x :| IsNodeChild(b, o, x) && Effective(b, x).Failed?;
    var e := Leaf(b, x);
    LeafFacts(b, x);
    LeafIsStartOrRecovery(b, x);
    assert !IsInterface(b, e);
    assert !IsInterfaceOf(b, o, e);
    assert e !in Undecided(b, o);
    assert DecisionSound(b, e);
  }

  // ---------------------------------------------------------------------------
  // Recovery chains of different nodes never meet
  // ---------------------------------------------------------------------------

  lemma {:induction false} ChainExtends(b: Board, x: ExecutionId, y: ExecutionId, z: ExecutionId)
    requires OnChain(b, x, y) && Successor(b, y) == Some(z) && y < z <= b.nextExecution
    ensures OnChain(b, x, z)
    decreases b.nextExecution - x
  {
    if x != y {
      ChainExtends(b, Successor(b, x).value, y, z);
    }
  }

  lemma {:induction false} ChainPredecessor(b: Board, x: ExecutionId, z: ExecutionId)
    requires OnChain(b, x, z) && x != z
    ensures IsRecovery(b, z)
    ensures exists y: ExecutionId :: OnChain(b, x, y) && Successor(b, y) == Some(z) && y < z
    decreases b.nextExecution - x
  {
    var next := Successor(b, x).value;
    assert IsRecovery(b, next);
    if next == z {
      assert OnChain(b, x, x);
    } else {
      ChainPredecessor(b, next, z);
      var y: ExecutionId :| OnChain(b, next, y) && Successor(b, y) == Some(z) && y < z;
      assert OnChain(b, x, y);
    }
  }

  lemma {:induction false} MeetingChainsNest(b: Board, x: ExecutionId, y: ExecutionId, e: ExecutionId)
    requires Sequenced(b) && DecisionsSound(b) && RecoveriesDistinct(b)
    requires OnChain(b, x, e) && OnChain(b, y, e)
    ensures OnChain(b, x, y) || OnChain(b, y, x)
    decreases b.nextExecution - x
  {
    if x != e {
      var next := Successor(b, x).value;
      MeetingChainsNest(b, next, y, e);
      if OnChain(b, y, next) && y != next {
        ChainPredecessor(b, y, next);
        var p: ExecutionId :| OnChain(b, y, p) && Successor(b, p) == Some(next) && p < next;
        assert p == x;
      }
    }
  }

  /** Recovery chains grow in creation order and no execution serves two nodes. */
  lemma ChainsAreDisjoint(b: Board, x: ExecutionId, y: ExecutionId, e: ExecutionId)
    requires BoardInv(b) && RolesApart(b)
    requires x in b.nodes && y in b.nodes && OnChain(b, x, e) && OnChain(b, y, e)
    ensures x == y
  {
    MeetingChainsNest(b, x, y, e);
    if x != y {
      if OnChain(b, x, y) { ChainPredecessor(b, x, y); } else { ChainPredecessor(b, y, x); }
    }
  }
}
