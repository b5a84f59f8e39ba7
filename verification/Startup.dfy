/**
 Starting the conductor: a stored journal is replayed, what cannot be resumed
 is interrupted, and the configuration is bound or activated.
 */
module Startup {
  import opened PhenixCore
  import opened Records
  import opened Journal
  import opened Configuration
  import opened BoardInvariants
  import opened DurableInvariants
  import opened Scheduler
  import opened SchedulerMoves
  import opened ExecutionTree
  import opened Settling
  import opened Cascade
  import opened Creation
  import opened Delegation
  import opened Opening
  import opened Runtime
  import Situations

  datatype ServerError =
    | InvalidJournal(journalError: JournalError)
    | Runtime(runtimeError: ConductorError)

  type Policy = (ExecutionId, CallableDescriptor, CallableOperation) -> bool

  ghost predicate WellFormedJournal(journal: RuntimeJournal) {
    journal.formatVersion == JOURNAL_FORMAT_VERSION && Dense(journal.entries) && ReplayJournal(journal).Ok?
  }

  /** Nothing that a restart interrupts is awaited by a live orchestration. */
  ghost predicate Resumable(b: Board) {
    forall x :: NonResumable(b, x) ==> Unawaited(b, x)
  }

  /** A runtime in this workspace can continue from `d`. */
  ghost predicate Continuable(d: Durable, workspace: WorkspaceId) {
    AllIn(d, workspace) && Resumable(d.board)
  }

  /** `e` is `d`, but for the interruptions. */
  ghost predicate Continued(d: Durable, e: Durable) {
    OnlyBoardAndLog(d, e) && Interrupts(d.board, e.board)
  }

  predicate AllIn(d: Durable, workspace: WorkspaceId) {
    forall s :: s in d.sessions ==> d.sessions[s].workspace == workspace
  }

  /**
   Rebuilds the runtime of a stored journal.  `history` stands for the
   configurations that the process that wrote the journal had bound.
   */
  method LoadJournal(source: RuntimeJournal, workspace: WorkspaceId, policy: Policy, ghost history: Catalog)
    returns (r: Result<ConductorRuntime, ServerError>)
    requires LiveJournal(source, history)
    requires ReplayJournal(source).Ok? ==> HistoryOf(history, ReplayJournal(source).value)
    ensures r.Ok? <==> WellFormedJournal(source) && Continuable(ReplayJournal(source).value, workspace)
    ensures r.Ok? ==>
      && fresh(r.value) && r.value.Live() && r.value.workspace == workspace
      && r.value.configurations == map[] && r.value.catalog == history && r.value.policy == policy
      && Continued(ReplayJournal(source).value, r.value.Project())
    ensures r.Ok? && Calm(ReplayJournal(source).value.board, history, {}) && LogCurrent(ReplayJournal(source).value) ==> r.value.AtRest()
    ensures r.Ok? && AllEquipped(ReplayJournal(source).value.board, history, history) ==> r.value.Provisioned()
  {
    hide Calm, LogCurrent, AllEquipped, LiveJournal, HistoryOf, NonResumable, Unawaited, Interrupts, ReplayJournal, Dense, OnlyBoardAndLog,
      ConductorRuntime.Live, ConductorRuntime.Valid;
    var restored := ConductorRuntime.Restore(source, policy, history);
    if restored.Err? {
      return Err(InvalidJournal(restored.error));
    }
    var runtime := restored.value;
    ghost var d := runtime.Project();
    var bound := runtime.BindWorkspace(workspace);
    if bound.Err? {
      return Err(Runtime(bound.error));
    }
    var interrupted := runtime.InterruptNonResumable();
    if interrupted.Err? {
      return Err(Runtime(interrupted.error));
    }
    InterruptsKeepEquipped(d.board, runtime.Project().board, history, history);
    r := Ok(runtime);
  }

  method NewRuntime(workspace: WorkspaceId, fingerprint: ConfigRevisionFingerprint, policy: Policy) returns (runtime: ConductorRuntime)
    ensures fresh(runtime) && runtime.Live() && runtime.workspace == workspace && runtime.policy == policy
    ensures Continued(Initial(1, fingerprint), runtime.Project()) && runtime.AtRest() && runtime.Provisioned()
    ensures runtime.configurations == map[1 := CompiledConfiguration(map[], fingerprint)]
  {
    hide ConductorRuntime.Live, Calm, LogCurrent, AllEquipped, Interrupts;
    runtime := new ConductorRuntime(fingerprint, policy);
    NothingToEquip(runtime.Project().board, runtime.catalog);
    var bound := runtime.BindWorkspace(workspace);
    ghost var b := runtime.Project().board;
    var interrupted := runtime.InterruptNonResumable();
    InterruptsKeepEquipped(b, runtime.Project().board, runtime.catalog, runtime.catalog);
  }

  lemma NothingToEquip(b: Board, catalog: Catalog)
    requires b.executions == map[]
    ensures AllEquipped(b, catalog, catalog)
  {
  }

  /** Continues a stored journal, or starts an empty one. */
  method LoadOrNew(stored: Option<RuntimeJournal>, workspace: WorkspaceId, fingerprint: ConfigRevisionFingerprint, policy: Policy,
                   ghost history: Catalog) returns (r: Result<ConductorRuntime, ServerError>)
    requires stored.Some? ==> LiveJournal(stored.value, history)
    requires stored.Some? && ReplayJournal(stored.value).Ok? ==> HistoryOf(history, ReplayJournal(stored.value).value)
    ensures r.Ok? <==> stored.Some? ==> WellFormedJournal(stored.value) && Continuable(ReplayJournal(stored.value).value, workspace)
    ensures r.Ok? ==> fresh(r.value) && r.value.Live() && r.value.workspace == workspace && r.value.policy == policy
    ensures r.Ok? && stored.Some? ==>
      && r.value.configurations == map[] && r.value.catalog == history
      && Continued(ReplayJournal(stored.value).value, r.value.Project())
    ensures r.Ok? && stored.Some? && Calm(ReplayJournal(stored.value).value.board, history, {}) && LogCurrent(ReplayJournal(stored.value).value)
      ==> r.value.AtRest()
    ensures r.Ok? && stored.Some? && AllEquipped(ReplayJournal(stored.value).value.board, history, history) ==> r.value.Provisioned()
    ensures stored.None? ==> Continued(Initial(1, fingerprint), r.value.Project()) && r.value.AtRest() && r.value.Provisioned()
    ensures stored.None? ==> r.value.configurations == map[1 := CompiledConfiguration(map[], fingerprint)]
  {
    hide *;
    if stored.Some? {
      r := LoadJournal(stored.value, workspace, policy, history);
    } else {
      var runtime := NewRuntime(workspace, fingerprint, policy);
      r := Ok(runtime);
    }
  }

  lemma CurrentFacts(runtime: ConductorRuntime)
    requires runtime.Live()
    ensures var current := BoundConfiguration(runtime.Project(), runtime.configurations, runtime.configRevision);
      && (current.Ok? <==> runtime.configRevision in runtime.configurations)
      && (current.Err? && current.error == UnboundConfigRevision(runtime.configRevision) <==>
            runtime.configRevision in runtime.configRevisions && runtime.configRevision !in runtime.configurations)
  {
    runtime.BoundRevisions();
  }

  /** Binds the configuration to the current revision if that is unbound, and otherwise activates it as a new one. */
  method InstallConfiguration(runtime: ConductorRuntime, configuration: CompiledConfiguration) returns (r: Result<(), ConductorError>)
    requires runtime.Live() && RegistryWellFormed(configuration.callables)
    requires runtime.Bindable(runtime.configRevision, configuration) && runtime.configRevision in runtime.catalog ==>
      runtime.catalog[runtime.configRevision] == configuration
    modifies runtime
    ensures runtime.Live() && runtime.Project().board == old(runtime.Project()).board
    ensures old(runtime.configRevision) in old(runtime.configurations) ==>
      (r.Ok? <==> old(runtime.nextConfigRevision) + 1 !in old(runtime.configRevisions))
    ensures old(runtime.configRevision) !in old(runtime.configurations) ==>
      (r.Ok? <==> old(runtime.Bindable(runtime.configRevision, configuration)))
    ensures r.Ok? ==> runtime.configurations == old(runtime.configurations)[runtime.configRevision := configuration]
    ensures runtime.sessions == old(runtime.sessions) && runtime.workspace == old(runtime.workspace)
    ensures r.Ok? && old(runtime.configurations) == map[] ==> runtime.configRevision == old(runtime.configRevision)
    ensures old(runtime.AtRest()) ==> runtime.AtRest()
    ensures old(runtime.Provisioned()) ==> runtime.Provisioned()
  {
    hide ConductorRuntime.Live, ConductorRuntime.Provisioned, ConductorRuntime.AtRest, ConductorRuntime.Healthy, RegistryWellFormed,
      BoundConfiguration;
    var current := BoundConfiguration(runtime.Project(), runtime.configurations, runtime.configRevision);
    CurrentFacts(runtime);
    if current.Ok? {
      var reloaded := runtime.ReloadConfiguration(configuration);
      r := if reloaded.Ok? then Ok(()) else Err(reloaded.error);
    } else if current.error == UnboundConfigRevision(runtime.configRevision) {
      r := runtime.BindConfigurationRevision(runtime.configRevision, configuration);
    } else {
      r := Err(current.error);
    }
  }

  /** The configuration has the fingerprint of the current revision. */
  predicate IsCurrent(runtime: ConductorRuntime, configuration: CompiledConfiguration)
    reads runtime
  {
    runtime.configRevision in runtime.configRevisions && runtime.configRevisions[runtime.configRevision] == configuration.fingerprint
  }

  /**
   Restarting a runtime that was at rest.  It fails on a configuration other
   than that of the current revision.  Afterwards it is at rest again, and it
   is as healthy as before exactly when the orchestrations that were live
   all run on the revision whose configuration is at hand.
   */
  method Restart(before: ConductorRuntime, workspace: WorkspaceId, configuration: CompiledConfiguration, policy: Policy)
    returns (r: Result<ConductorRuntime, ServerError>)
    requires before.Live() && before.AtRest() && before.Provisioned()
    requires RegistryWellFormed(configuration.callables)
    requires IsCurrent(before, configuration) && before.configRevision in before.catalog ==>
      before.catalog[before.configRevision] == configuration
    ensures r.Ok? <==> AllIn(before.Project(), workspace) && Resumable(before.Project().board) && IsCurrent(before, configuration)
    ensures r.Ok? ==> fresh(r.value) && r.value.Live() && r.value.AtRest() && Interrupts(before.Project().board, r.value.Project().board)
    ensures r.Ok? ==>
      (r.value.Healthy() <==>
        && r.value.AdmitsAll()
        && forall o :: o in LiveOrchestrations(before.Project().board) ==> before.executions[o].configRevision == before.configRevision)
  {
    hide ConductorRuntime.Live, Calm, LogCurrent, AllEquipped, LiveJournal, Interrupts, Resumable, AllIn, RegistryWellFormed, LiveOrchestrations;
    before.LiveParts();
    var loaded := LoadJournal(before.journal, workspace, policy, before.catalog);
    if loaded.Err? {
      return loaded;
    }
    var runtime := loaded.value;
    InterruptsKeepEquipped(before.Project().board, runtime.Project().board, before.catalog, before.catalog);
    var installed := InstallConfiguration(runtime, configuration);
    if installed.Err? {
      return Err(Runtime(installed.error));
    }
    runtime.HealthyExactlyWhenBound();
    r := Ok(runtime);
  }

  // ---------------------------------------------------------------------------
  // A restart that fails
  // ---------------------------------------------------------------------------

  /** `x` is an agent of the running orchestration `o` that has not started. */
  ghost predicate AwaitedAgent(b: Board, o: ExecutionId, x: ExecutionId) {
    && IsOrchestration(b, o) && InState(b, o, Running)
    && IsChild(b, o, x) && IsAgent(b, x) && InState(b, x, Pending) && b.executions[x].payload.InvocationPayload?
  }

  /**
   Once such an agent runs, the journal does not load: its orchestration is to
   be told of the interruption, and no configuration is bound by then.
   */
  method CrashWhileAgentRuns(runtime: ConductorRuntime, o: ExecutionId, x: ExecutionId, policy: Policy)
    returns (r: Result<ConductorRuntime, ServerError>)
    requires runtime.Live() && AllIn(runtime.Project(), runtime.workspace) && AwaitedAgent(runtime.Project().board, o, x)
    modifies runtime
    ensures runtime.Live() && (old(runtime.AtRest()) ==> runtime.AtRest()) && (old(runtime.Healthy()) ==> runtime.Healthy())
    ensures WellFormedJournal(runtime.journal) && AllIn(runtime.Project(), runtime.workspace)
    ensures r.Err?
  {
    hide ConductorRuntime.Live, ConductorRuntime.AtRest, ConductorRuntime.Healthy, LiveJournal, HistoryOf, Calm, LogCurrent, AllEquipped,
      Interrupts;
    ghost var d := runtime.Project();
    var began := runtime.BeginDrive(x);
    runtime.LiveParts();
    AwaitedWhenDriven(d, o, x);
    r := LoadJournal(runtime.journal, runtime.workspace, policy, runtime.catalog);
  }

  lemma AwaitedWhenDriven(d: Durable, o: ExecutionId, x: ExecutionId)
    requires AwaitedAgent(d.board, o, x)
    ensures Moved(d, x, Running).sessions == d.sessions && !Resumable(Moved(d, x, Running).board)
  {
    var b := Moved(d, x, Running).board;
    assert NonResumable(b, x);
    assert o in ParentOf(b, x) && LiveOrchestration(b, o);
  }

  /** A new runtime with a configuration installed is healthy and has no session. */
  method ConfiguredRuntime(workspace: WorkspaceId, configuration: CompiledConfiguration) returns (runtime: ConductorRuntime)
    requires RegistryWellFormed(configuration.callables)
    ensures fresh(runtime) && runtime.Live() && runtime.AtRest() && runtime.Healthy()
    ensures runtime.sessions == map[] && runtime.executions == map[] && runtime.workspace == workspace
    ensures runtime.configRevision in runtime.configurations && runtime.configurations[runtime.configRevision] == configuration
  {
    hide ConductorRuntime.Live, ConductorRuntime.AtRest, ConductorRuntime.Provisioned, RegistryWellFormed, Interrupts, LiveOrchestrations;
    runtime := NewRuntime(workspace, "empty", (x, descriptor, operation) => true);
    ghost var b := runtime.Project().board;
    var installed := InstallConfiguration(runtime, configuration);
    runtime.HealthyExactlyWhenBound();
    NobodyIsUnbound(b);
  }

  lemma NobodyIsUnbound(b: Board)
    requires Interrupts(EMPTY_BOARD, b)
    ensures LiveOrchestrations(b) == {} && b.executions == map[]
  {
  }

  /** The running orchestration `o` has just started the nodes of its plan, and there is nothing else. */
  ghost predicate PlanAlone(runtime: ConductorRuntime, o: ExecutionId)
    reads runtime
  {
    && DefinitionOf(runtime.Project().board, runtime.catalog, o) == Some(Situations.PLAN)
    && IsOrchestration(runtime.Project().board, o) && InState(runtime.Project().board, o, Running)
    && FirstNodesPend(runtime.Project().board, Situations.PLAN, o)
    && forall y :: y in runtime.executions && y != o ==> IsChild(runtime.Project().board, o, y)
  }

  /** From an empty journal to a running orchestration whose first node awaits its agent. */
  method PlanUnderWay(workspace: WorkspaceId) returns (runtime: ConductorRuntime, o: ExecutionId, x: ExecutionId)
    ensures fresh(runtime) && runtime.Live() && runtime.AtRest() && runtime.Healthy()
    ensures runtime.workspace == workspace && AllIn(runtime.Project(), workspace)
    ensures AwaitedAgent(runtime.Project().board, o, x) && PlanAlone(runtime, o)
  {
    hide ConductorRuntime.Live, ConductorRuntime.AtRest, ConductorRuntime.Healthy, FirstNodesPend, RegistryWellFormed;
    PlanIsRegistered();
    runtime := ConfiguredRuntime(workspace, CompiledConfiguration(Situations.CALLABLES, "fingerprint"));
    var session := runtime.CreateSession(None, None, Fixed("model"));
    assert runtime.SessionOffers(session.value.id, "plan");
    var plan := runtime.StartSessionCallable(session.value.id, "plan", "goal");
    o := plan.value.id;
    runtime.BoundCatalog();
    assert DefinitionOf(runtime.Project().board, runtime.catalog, o) == Some(Situations.PLAN);
    x := FirstAgent(runtime, o, Situations.PLAN);
  }

  /** The agent of a node that depends on nothing. */
  method FirstAgent(runtime: ConductorRuntime, o: ExecutionId, definition: OrchestrationDefinition) returns (x: ExecutionId)
    requires DefinitionOf(runtime.Project().board, runtime.catalog, o) == Some(definition) && runtime.FirstNodesRun(o)
    requires IsOrchestration(runtime.Project().board, o) && InState(runtime.Project().board, o, Running)
    requires definition.nodes != [] && definition.nodes[0].dependsOn == []
    ensures AwaitedAgent(runtime.Project().board, o, x)
  {
    ghost var agent: ExecutionId :| StartedAs(runtime.Project().board, o, agent, definition.nodes[0]);
    x :| x in runtime.executions && runtime.executions[x].summary.parent == Some(o);
    assert IsChild(runtime.Project().board, o, x);
  }

  /** From an empty journal to a restart that fails, by way of a healthy runtime at rest. */
  method RestartMayFail(workspace: WorkspaceId, policy: Policy) returns (runtime: ConductorRuntime, r: Result<ConductorRuntime, ServerError>)
    ensures fresh(runtime) && runtime.Live() && runtime.AtRest() && runtime.Healthy()
    ensures WellFormedJournal(runtime.journal) && AllIn(runtime.Project(), runtime.workspace)
    ensures r.Err?
  {
    hide ConductorRuntime.Live, ConductorRuntime.AtRest, ConductorRuntime.Healthy;
    var o, x;
    runtime, o, x := PlanUnderWay(workspace);
    r := CrashWhileAgentRuns(runtime, o, x, policy);
  }

  lemma PlanIsRegistered()
    ensures RegistryWellFormed(Situations.CALLABLES)
    ensures "plan" in Situations.CALLABLES && Situations.CALLABLES["plan"] == OrchestrationEntry(Situations.PLAN) && !IsBlank("goal")
    ensures Situations.PLAN.nodes != [] && Situations.PLAN.nodes[0].dependsOn == []
  {
    Situations.CatalogIsWellFormed();
    assert 1 in Situations.CATALOG;
    assert !IsWhitespace("goal"[0]);
  }

  // ---------------------------------------------------------------------------
  // A failure without reaction
  // ---------------------------------------------------------------------------

  lemma FirstNodesArePending(b: Board, definition: OrchestrationDefinition, o: ExecutionId)
    requires FirstNodesPend(b, definition, o)
    ensures forall y :: IsChild(b, o, y) ==> IsAgent(b, y) && InState(b, y, Pending)
  {
    hide StartedAs;
    forall y | IsChild(b, o, y) ensures IsAgent(b, y) && InState(b, y, Pending) {
      var node :| node in definition.nodes && node.dependsOn == [] && StartedAs(b, o, y, node);
      StartedIsPending(b, o, y, node);
    }
  }

  /** A restart interrupts nothing of it. */
  lemma PlanIsResumable(b: Board, c: Board, o: ExecutionId)
    requires IsOrchestration(b, o) && FirstNodesPend(b, Situations.PLAN, o)
    requires forall y :: y in b.executions && y != o ==> IsChild(b, o, y)
    ensures forall x :: !NonResumable(b, x)
    ensures Interrupts(b, c) ==> c == b
  {
    hide FirstNodesPend;
    FirstNodesArePending(b, Situations.PLAN, o);
    assert Interrupts(b, c) ==> c.executions == b.executions;
  }

  /** With nothing bound, the failure of a node is not heard. */
  lemma FirstFailureIsUnheard(b: Board, catalog: Catalog, definition: OrchestrationDefinition, o: ExecutionId, x: ExecutionId, agent: CallableId)
    requires BoardInv(b) && LiveOrchestration(b, o) && FirstNodesPend(b, definition, o) && IsChild(b, o, x)
    requires forall y :: y in b.executions && y != o ==> IsChild(b, o, y)
    requires DefinitionOf(b, catalog, o) == Some(definition) && definition.interfaceAgent == Some(agent)
    ensures IsLive(b, x) && !IsOrchestration(b, x) && Unheard(b, map[], x, Failed)
    ensures var c := WithState(b, x, Failed);
      IsChild(c, o, x) && InState(c, x, Failed) && LiveOrchestration(c, o) && MoveOf(c, catalog, o) == StartInterface(x, agent)
  {
    FirstFailureIsUndecided(b, definition, o, x, agent);
    FirstNodesArePending(b, definition, o);
    BoardFacts(b);
    NothingBelow(b, o, x);
    assert o in ParentOf(b, x);
    assert DefinitionOf(WithState(b, x, Failed), catalog, o) == DefinitionOf(b, catalog, o);
    hide FirstNodesPend, BoardInv, NextMove, Below;
  }

  lemma NothingBelow(b: Board, o: ExecutionId, x: ExecutionId)
    requires Lineage(b) && IsChild(b, o, x) && forall y :: y in b.executions && y != o ==> IsChild(b, o, y)
    ensures Below(b, x) == {}
  {
    if Below(b, x) != {} {
      var y :| y in Below(b, x);
      SubtreeBounds(b, x, y);
      SubtreeBounds(b, x, o);
    }
  }

  /** The first node to fail leaves its orchestration with an agent to start. */
  lemma FirstFailureIsUndecided(b: Board, definition: OrchestrationDefinition, o: ExecutionId, x: ExecutionId, agent: CallableId)
    requires BoardInv(b) && FirstNodesPend(b, definition, o) && IsChild(b, o, x) && definition.interfaceAgent == Some(agent)
    ensures NextMove(WithState(b, x, Failed), definition, o) == StartInterface(x, agent)
  {
    var c := WithState(b, x, Failed);
    forall y | IsChild(b, o, y) ensures InState(b, y, Pending) && IsAgent(b, y) && y !in b.interfaces && y !in b.decisions {
      PendingIsUnbound(b, o, y);
    }
    assert forall y :: IsChild(c, o, y) <==> IsChild(b, o, y);
    assert Undecided(c, o) == {x};
    hide BoardInv, FirstNodesPend;
  }

  lemma PendingIsUnbound(b: Board, o: ExecutionId, y: ExecutionId)
    requires BoardInv(b) && IsChild(b, o, y)
    ensures InState(b, y, Pending) ==> y !in b.interfaces && y !in b.decisions
  {
    assert y in b.interfaces ==> InterfaceSound(b, y);
    assert y in b.decisions ==> DecisionSound(b, y);
  }

  /**
   An end of which the orchestration above cannot hear leaves a live runtime
   with a failure without reaction: the state change is recorded, and then the
   missing configuration is an error.
   */
  method FailureWithoutReaction(workspace: WorkspaceId, policy: Policy)
    returns (runtime: ConductorRuntime, o: ExecutionId, x: ExecutionId, r: Result<(), ConductorError>)
    ensures fresh(runtime) && runtime.Live() && r.Err?
    ensures IsChild(runtime.Project().board, o, x) && InState(runtime.Project().board, x, Failed)
    ensures LiveOrchestration(runtime.Project().board, o)
    ensures MoveOf(runtime.Project().board, runtime.catalog, o) == StartInterface(x, "decider")
  {
    hide ConductorRuntime.Live, ConductorRuntime.AtRest, ConductorRuntime.Healthy, LiveJournal, HistoryOf, Calm, LogCurrent, AllEquipped, BoardInv,
      DurableInv, LiveInv, NodesApart, Unheard, NextMove, Interrupts, FirstNodesPend, NonResumable, Lineage, Sequenced;
    var before;
    before, o, x := PlanUnderWay(workspace);
    before.LiveParts();
    before.LiveFacts();
    ghost var b := before.Project().board;
    PlanIsResumable(b, b, o);
    FirstFailureIsUnheard(b, before.catalog, Situations.PLAN, o, x, "decider");
    var loaded := LoadJournal(before.journal, workspace, policy, before.catalog);
    runtime := loaded.value;
    PlanIsResumable(b, runtime.Project().board, o);
    hide *;
    r := runtime.FinishDrive(x, false);
  }
}
