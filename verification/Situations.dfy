/**
 Concrete boards of live runtimes: one on which cancelling a subtree starts an
 agent and then ends the orchestration above it, and one whose orchestration
 waits.
 */
module Situations {
  import opened PhenixCore
  import opened Records
  import opened Journal
  import opened Configuration
  import opened Delegation
  import opened BoardInvariants
  import opened Scheduler
  import opened SchedulerMoves
  import opened ExecutionTree
  import opened Settling
  import opened Cascade
  import opened Acting
  import IdOrder

  /** A plan of two independent nodes for one worker, with an agent to decide about failures. */
  const PLAN := OrchestrationDefinition(
    CallableDescriptor("plan", OrchestrationCallable, false, false),
    Some("decider"),
    [OrchestrationNode(0, "worker", [], None), OrchestrationNode(1, "worker", [], None)])

  /** What lets a worker carry out plans of its own. */
  const MAY_PLAN := ExecutionAuthority.READ_ONLY.(callables := {"plan", "worker", "decider"})

  const CALLABLES: Callables := map[
    "plan" := OrchestrationEntry(PLAN),
    "worker" := AgentEntry(CallableDescriptor("worker", AgentCallable, false, false), MAY_PLAN),
    "decider" := AgentEntry(CallableDescriptor("decider", AgentCallable, false, false), ExecutionAuthority.READ_ONLY)]

  const CATALOG: Catalog := map[1 := CompiledConfiguration(CALLABLES, "fingerprint")]

  lemma CatalogIsWellFormed()
    ensures CatalogWellFormed(CATALOG)
  {
    assert DefinitionWellFormed(CALLABLES, PLAN);
  }

  function PlanRecord(id: ExecutionId): ExecutionRecord {
    ExecutionRecord(
      ExecutionSummary(id, 1, None, Orchestration, Some("plan"), Fixed("model"), Running),
      OrchestrationPayload("goal"),
      MAY_PLAN,
      1)
  }

  function WorkerRecord(id: ExecutionId, parent: Option<ExecutionId>, state: ExecutionState): ExecutionRecord {
    ExecutionRecord(
      ExecutionSummary(id, 1, parent, Agent, Some("worker"), Fixed("model"), state),
      InvocationPayload(Text("goal")),
      MAY_PLAN,
      1)
  }

  function PlanExecution(id: ExecutionId, second: ExecutionState): ExecutionRecord {
    if id < 9 then WorkerRecord(id, None, Completed)
    else if id == 9 then PlanRecord(9)
    else WorkerRecord(id, Some(9), if id == 10 then Running else second)
  }

  /** Nine executions, of which the plan is the last, and the workers 10 and 11 of its nodes. */
  function PlanBoard(second: ExecutionState): Board {
    Board(map id: ExecutionId | 1 <= id <= 11 :: PlanExecution(id, second), map[], map[], map[10 := 0, 11 := 1], 11)
  }

  lemma PlanBoardFacts(second: ExecutionState)
    ensures var b := PlanBoard(second);
      && b.nextExecution == 11 && b.decisions == map[] && b.interfaces == map[] && b.nodes == map[10 := 0, 11 := 1]
      && (forall id :: id in b.executions <==> 1 <= id <= 11)
      && (forall id :: id in b.executions ==> b.executions[id] == PlanExecution(id, second))
    ensures forall id :: IsOrchestration(PlanBoard(second), id) <==> id == 9
    ensures forall o, x :: IsChild(PlanBoard(second), o, x) <==> o == 9 && (x == 10 || x == 11)
    ensures InState(PlanBoard(second), 9, Running) && InState(PlanBoard(second), 10, Running) && InState(PlanBoard(second), 11, second)
    ensures IsAgent(PlanBoard(second), 10) && IsAgent(PlanBoard(second), 11)
    ensures DefinitionOf(PlanBoard(second), CATALOG, 9) == Some(PLAN)
  {
  }

  lemma PlanBoardIsSound(second: ExecutionState)
    ensures BoardInv(PlanBoard(second))
  {
    hide PlanBoard, DefinitionOf;
    var b := PlanBoard(second);
    PlanBoardFacts(second);
    PermitsPointwise(MAY_PLAN, MAY_PLAN);
    assert Sequenced(b) && Lineage(b) && Delegated(b);
    assert NodesSound(b) && NodesDistinct(b);
    hide PlanExecution, PlanRecord, WorkerRecord, Sequenced, Lineage, Delegated, NodesSound, NodesDistinct;
  }

  /** The plan, its worker and its decider are registered, and maybe more. */
  predicate RegistersPlan(callables: Callables) {
    forall id :: id in CALLABLES ==> id in callables && callables[id] == CALLABLES[id]
  }

  /** A plan is granted what its workers and its decider may do, which is what a worker may do. */
  lemma PlanIsGranted(callables: Callables)
    requires RegistersPlan(callables)
    ensures ConfiguredAuthority(callables, Orchestration, Some("plan")) == Ok(MAY_PLAN)
    ensures ConfiguredAuthority(callables, Agent, Some("worker")) == Ok(MAY_PLAN)
  {
    hide RegistryWellFormed, DefinitionWellFormed;
    assert "plan" in CALLABLES && "worker" in CALLABLES && "decider" in CALLABLES;
    NodeAuthoritiesAreKnown(callables, PLAN.nodes);
    var nodes := NodeAuthorities(callables, PLAN.nodes).value;
    var all := nodes + {ExecutionAuthority.READ_ONLY};
    assert PLAN.nodes[0].callable == "worker" && nodes == {MAY_PLAN};
    EnvelopeIsTheJoin(all, MAY_PLAN);
    PermitsPointwise(MAY_PLAN, ExecutionAuthority.READ_ONLY);
    PermitsPointwise(MAY_PLAN, MAY_PLAN);
    AttenuateIsTheMeet(MAY_PLAN, Envelope(all), MAY_PLAN);
    assert Envelope(all) == MAY_PLAN && MAY_PLAN.callables + {"worker", "decider"} == MAY_PLAN.callables;
    hide Envelope, NodeAuthorities;
    assert NodeCallables(PLAN) == {"worker", "decider"} by { assert PLAN.nodes[0].callable == PLAN.nodes[1].callable == "worker"; }
  }

  lemma PlanBoardIsGranted(second: ExecutionState)
    ensures GrantsHeld(PlanBoard(second), CATALOG)
  {
    hide PlanBoard, ConfiguredAuthority;
    PlanBoardFacts(second);
    PlanIsGranted(CALLABLES);
    AttenuateIsTheMeet(MAY_PLAN, MAY_PLAN, MAY_PLAN);
  }

  lemma PlanBoardIsLive(second: ExecutionState)
    ensures LiveInv(PlanBoard(second), CATALOG)
  {
    hide PlanBoard;
    var b := PlanBoard(second);
    PlanBoardFacts(second);
    assert PLAN.nodes[0].id == 0 && PLAN.nodes[1].id == 1;
    assert DependenciesDone(b, 9, PLAN.nodes[0]) && DependenciesDone(b, 9, PLAN.nodes[1]);
    assert StartJustified(b, CATALOG, 9, 0) && StartJustified(b, CATALOG, 9, 1);
    PlanBoardIsGranted(second);
    hide StartJustified, GrantsHeld;
  }

  /**
   A live board on which an orchestration has not reacted to a failure yet.
   `execution-10` is cancelled before its parent `execution-9`, which then
   starts an agent that does not belong to the executions being cancelled.
   */
  lemma CancellationMayStartAnAgent()
    ensures var b := PlanBoard(Failed);
      && BoardInv(b) && LiveInv(b, CATALOG) && CatalogWellFormed(CATALOG)
      && IsChild(b, 9, 10) && IsLive(b, 10) && IsLive(b, 9) && IdOrder.IdBefore(10, 9)
      && MoveOf(WithState(b, 10, Cancelled), CATALOG, 9) == StartInterface(11, "decider")
      && !SettledWithin(b, CATALOG, 9)
  {
    hide PlanBoard, PlanRecord, WorkerRecord, PlanExecution;
    var b := PlanBoard(Failed);
    PlanBoardIsSound(Failed);
    PlanBoardIsLive(Failed);
    CatalogIsWellFormed();
    IdOrder.CreationOrderIsNotMapOrder();
    FailureIsUndecided();
    PlanBoardFacts(Failed);
    assert DefinitionOf(WithState(b, 10, Cancelled), CATALOG, 9) == DefinitionOf(b, CATALOG, 9);
    CancellationLeavesInterfaceMove(b, PLAN, 9, 10);
    assert 9 in LiveOrchestrations(b) && InSubtree(b, 9, 9);
    hide BoardInv, LiveInv, CatalogWellFormed, NextMove, IdOrder.IdBefore, DefinitionOf;
  }

  /** The agent that is asked about the failure of 11. */
  const DECIDER := ExecutionRecord(
    ExecutionSummary(12, 1, Some(9), Agent, Some("decider"), Fixed("model"), Pending),
    InvocationPayload(FailureInterfacePrompt(9, 11, Some("worker"))),
    MAY_PLAN.Attenuate(ExecutionAuthority.READ_ONLY),
    1)

  /** The board once 10 was cancelled, 9 has reacted by starting the agent, and 9 was cancelled in turn. */
  function Afterwards(): Board {
    WithState(BindInterface(WithExecution(WithState(PlanBoard(Failed), 10, Cancelled), DECIDER), 11, 12), 9, Cancelled)
  }

  /** The rest of that cancellation: everything that it set out to cancel has ended, and the agent below `execution-9` is live. */
  lemma CancellationLeavesAnAgent()
    ensures var b := PlanBoard(Failed);
      var c := WithState(b, 10, Cancelled);
      var e := BindInterface(WithExecution(c, DECIDER), 11, 12);
      && Acted(c, e, PLAN, 9, MoveOf(c, CATALOG, 9))
      && IdOrder.IdBefore(10, 11) && IdOrder.IdBefore(11, 9) && !IsLive(b, 11) && IsLive(e, 9)
      && (forall id :: InSubtree(b, 9, id) ==> !IsLive(Afterwards(), id))
      && InSubtree(Afterwards(), 9, 12) && IsLive(Afterwards(), 12)
  {
    hide PlanBoard, PlanExecution, IdOrder.IdBefore, Acted, InSubtree, NextMove, BoardInv, LiveInv, CatalogWellFormed, SettledWithin, Afterwards;
    CancellationMayStartAnAgent();
    IdOrder.CreationOrderIsNotMapOrder();
    PlanBoardFacts(Failed);
    DeciderStarts();
    AgentIsLeft();
  }

  lemma DeciderStarts()
    ensures var c := WithState(PlanBoard(Failed), 10, Cancelled);
      && Acted(c, BindInterface(WithExecution(c, DECIDER), 11, 12), PLAN, 9, StartInterface(11, "decider"))
      && IsLive(BindInterface(WithExecution(c, DECIDER), 11, 12), 9)
  {
    hide PlanBoard, DefinitionOf;
    PlanBoardFacts(Failed);
    PermitsPointwise(MAY_PLAN, DECIDER.authority);
    assert MAY_PLAN.callables * {} == {};
  }

  lemma AgentIsLeft()
    ensures forall id :: InSubtree(PlanBoard(Failed), 9, id) ==> !IsLive(Afterwards(), id)
    ensures InSubtree(Afterwards(), 9, 12) && IsLive(Afterwards(), 12)
  {
    hide PlanBoard, DefinitionOf;
    PlanBoardFacts(Failed);
    assert forall id :: 9 <= id <= 11 ==> !IsLive(Afterwards(), id);
    forall id | InSubtree(PlanBoard(Failed), 9, id) ensures 9 <= id <= 11 {
      assert id < 9 ==> PlanExecution(id, Failed).summary.parent == None;
    }
    assert InSubtree(Afterwards(), 9, 9);
  }

  lemma FailureIsUndecided()
    ensures NextMove(PlanBoard(Failed), PLAN, 9) == StartInterface(11, "decider")
  {
    hide PlanBoard;
    var b := PlanBoard(Failed);
    PlanBoardFacts(Failed);
    assert 11 in Undecided(b, 9) && Undecided(b, 9) == {11};
    hide Undecided, IsFailedChildOf;
  }

  /** While both workers run, the orchestration waits, as progress requires. */
  lemma WaitingBoardExists()
    ensures var b := PlanBoard(Running);
      && BoardInv(b) && LiveInv(b, CATALOG) && CatalogWellFormed(CATALOG) && Calm(b, CATALOG, {})
      && InState(b, 9, Running) && DependenciesFirst(PLAN.nodes) && NextMove(b, PLAN, 9).Wait?
  {
    hide PlanBoard, PlanRecord, WorkerRecord, PlanExecution, DefinitionOf, BoardInv, LiveInv, CatalogWellFormed, NextMove;
    var b := PlanBoard(Running);
    PlanBoardIsSound(Running);
    PlanBoardIsLive(Running);
    CatalogIsWellFormed();
    WorkersAreAwaited();
    PlanBoardFacts(Running);
    assert forall o :: o in LiveOrchestrations(b) ==> o == 9;
  }

  lemma WorkersAreAwaited()
    ensures NextMove(PlanBoard(Running), PLAN, 9).Wait?
  {
    hide PlanBoard, PlanRecord, WorkerRecord, PlanExecution, DefinitionOf;
    var b := PlanBoard(Running);
    PlanBoardFacts(Running);
    assert Undecided(b, 9) == {};
    assert forall x :: IsNodeChild(b, 9, x) ==> Effective(b, x).Running?;
    assert IsNodeChild(b, 9, 10) && IsNodeChild(b, 9, 11);
    assert NodeStarted(b, 9, 0) && NodeStarted(b, 9, 1) && !NodeDone(b, 9, 0);
    assert !IsReady(b, 9, PLAN.nodes[0]) && !IsReady(b, 9, PLAN.nodes[1]);
    assert !AllDone(b, PLAN, 9) by { assert PLAN.nodes[0].id == 0; }
  }
}
