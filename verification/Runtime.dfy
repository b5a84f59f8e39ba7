/**
 The conductor runtime: durable fields that change only through recorded
 domain events, executions that start, end and are cancelled, and
 orchestrations that are driven by the ends of their children.
 */
module Runtime {
  import opened PhenixCore
  import opened Records
  import opened Journal
  import opened Opening
  import opened Provisioning
  import opened Retrying
  import opened Configuration
  import opened Creation
  import opened Delegation
  import opened Acting
  import opened BoardInvariants
  import opened Cascade
  import opened Causes
  import opened DurableInvariants
  import opened Scheduler
  import opened SchedulerSafety
  import opened SchedulerMoves
  import opened ExecutionTree
  import opened Settling
  import opened Asking
  import IdOrder

  datatype CallableOperation = StartAgentOperation | StartAgentNodeOperation | StartOrchestrationOperation

  // ---------------------------------------------------------------------------
  // Journals of a runtime
  // ---------------------------------------------------------------------------

  /** The journal replays to exactly `d`. */
  ghost predicate Recorded(journal: RuntimeJournal, d: Durable) {
    && journal.formatVersion == JOURNAL_FORMAT_VERSION
    && Dense(journal.entries)
    && ReplayJournal(journal) == Ok(d)
  }

  ghost predicate LiveJournal(journal: RuntimeJournal, catalog: Catalog) {
    LiveRun(Initial(journal.configRevision, journal.configFingerprint), catalog, Events(journal.entries))
  }

  /** The catalog holds well-formed configurations of known revisions, with the fingerprints on record. */
  ghost predicate HistoryOf(catalog: Catalog, d: Durable) {
    && CatalogWellFormed(catalog)
    && forall revision :: revision in catalog ==>
         revision in d.configRevisions && catalog[revision].fingerprint == d.configRevisions[revision]
  }

  ghost predicate Bound(d: Durable, configurations: Configurations, catalog: Catalog) {
    && HistoryOf(catalog, d)
    && (forall revision :: revision in configurations ==> revision in catalog && catalog[revision] == configurations[revision])
  }

  function Appended(journal: RuntimeJournal, event: DomainEvent): RuntimeJournal {
    journal.(entries := journal.entries + [JournalEntry(|journal.entries| + 1, event)])
  }

  lemma AppendingRecords(journal: RuntimeJournal, d: Durable, event: DomainEvent)
    requires Recorded(journal, d) && Accepts(d, event)
    ensures Recorded(Appended(journal, event), Update(d, event))
  {
    hide Accepts, Update;
    EventsAppends(journal.entries, JournalEntry(|journal.entries| + 1, event));
    ReplayAppends(Initial(journal.configRevision, journal.configFingerprint), Events(journal.entries), event);
  }

  lemma AppendingKeepsLive(journal: RuntimeJournal, d: Durable, catalog: Catalog, event: DomainEvent)
    requires Recorded(journal, d) && Accepts(d, event) && LiveGuard(d, catalog, event)
    requires LiveJournal(journal, catalog) && LiveInv(d.board, catalog) && BoardInv(d.board)
    ensures LiveJournal(Appended(journal, event), catalog) && LiveInv(Update(d, event).board, catalog)
  {
    hide Accepts, Update, LiveGuard, LiveInv, BoardInv;
    EventsAppends(journal.entries, JournalEntry(|journal.entries| + 1, event));
    var before := Events(journal.entries);
    assert (before + [event])[..|before|] == before;
    LiveStep(d, catalog, event);
  }

  lemma RecordingKeepsBound(d: Durable, configurations: Configurations, catalog: Catalog, event: DomainEvent)
    requires Bound(d, configurations, catalog) && Accepts(d, event)
    ensures Bound(Update(d, event), configurations, catalog)
  {
    OthersLeaveSessions(d, event);
    hide Accepts, Update, CatalogWellFormed;
  }

  /** The configuration of `x` knows `callable` as an agent and the policy admits the operation. */
  predicate StartAdmitted(policy: (ExecutionId, CallableDescriptor, CallableOperation) -> bool, configurations: Configurations, d: Durable,
                          x: ExecutionId, callable: CallableId, operation: CallableOperation) {
    && x in d.board.executions
    && var configuration := BoundConfiguration(d, configurations, d.board.executions[x].configRevision);
    && configuration.Ok?
    && var callables := configuration.value.callables;
    && callable in callables && callables[callable].AgentEntry? && callables[callable].Descriptor().kind.AgentCallable?
    && policy(x, callables[callable].Descriptor(), operation)
  }

  /** The first reason why `x` may not start the agent `callable`. */
  ghost predicate NotAdmitted(policy: (ExecutionId, CallableDescriptor, CallableOperation) -> bool, configurations: Configurations, d: Durable,
                              x: ExecutionId, callable: CallableId, operation: CallableOperation, e: ConductorError) {
    if x !in d.board.executions then e == UnknownExecution(x)
    else
      var revision := d.board.executions[x].configRevision;
      if revision !in d.configRevisions then e == UnknownConfigRevision(revision)
      else if revision !in configurations then e == UnboundConfigRevision(revision)
      else
        var callables := configurations[revision].callables;
        if callable !in callables then e == Registry(UnknownCallable(callable))
        else
          var descriptor := callables[callable].Descriptor();
          if descriptor.kind != AgentCallable then e == Registry(WrongKind(callable, AgentCallable, descriptor.kind))
          else if !callables[callable].AgentEntry? then e == Registry(NotExecutable(callable))
          else e == PolicyDenied(x)
  }

  /** Why a child that runs `callable` is not created under `parent`. */
  ghost predicate NotDelegated(d: Durable, parent: ExecutionId, callable: CallableId, e: ConductorError) {
    if parent !in d.board.executions then e == UnknownExecution(parent)
    else if callable !in d.board.executions[parent].authority.callables then e == DelegationDenied(parent, callable)
    else e == ClosedSession(d.board.executions[parent].summary.session)
  }

  /** No bound configuration registers a tool under the id of the tool that starts orchestrations. */
  predicate StartReserved(configurations: Configurations) {
    forall revision :: revision in configurations ==> !RegistersStart(configurations[revision].callables)
  }

  lemma LessRemains(all: set<ExecutionId>, s: set<ExecutionId>, t: set<ExecutionId>)
    requires s <= t <= all && |t| != |s|
    ensures all - t < all - s
  {
    assert (forall x :: x in t ==> x in s) ==> s == t;
    var x :| x in t && x !in s;
    assert x in all - s && x !in all - t;
  }

  class ConductorRuntime {
    var journal: RuntimeJournal
    var workspace: WorkspaceId
    // The configuration slots: fingerprints are durable, compiled configurations are bound per process.
    var configRevisions: map<ConfigRevisionId, ConfigRevisionFingerprint>
    var configurations: Configurations
    var configRevision: ConfigRevisionId
    var sessions: map<SessionId, SessionSummary>
    var executions: Executions
    var attemptGroups: map<AttemptGroupId, AttemptGroup>
    var orchestrationDecisions: map<ExecutionId, DecisionRecord>
    var orchestrationInterfaces: map<ExecutionId, ExecutionId>
    var orchestrationNodes: map<ExecutionId, OrchestrationNodeId>
    var resolvedRoutes: map<ExecutionId, ResolvedRoute>
    var readSets: map<ExecutionId, map<string, FileVersion>>
    var events: seq<ExecutionEvent>
    var nextConfigRevision: nat
    var nextSession: nat
    var nextExecution: nat
    var nextAttemptGroup: nat
    var nextEvent: nat
    var nextToolCall: nat
    // Whether the registered guards admit an operation of an execution on a callable.
    const policy: (ExecutionId, CallableDescriptor, CallableOperation) -> bool
    // Every configuration that was ever bound to a revision of this journal.
    ghost var catalog: Catalog

    /** The durable fields, seen as one value. */
    function Project(): Durable
      reads this
    {
      Durable(configRevisions, configRevision, sessions,
              Board(executions, orchestrationDecisions, orchestrationInterfaces, orchestrationNodes, nextExecution),
              attemptGroups, resolvedRoutes, readSets, events,
              nextConfigRevision, nextSession, nextAttemptGroup, nextEvent, nextToolCall)
    }

    /** The durable fields are exactly what the journal replays to. */
    ghost predicate Valid()
      reads this
    {
      && Recorded(journal, Project())
      && DurableInv(Project())
      && Bound(Project(), configurations, catalog)
    }

    /** Moreover the journal is that of a live runtime. */
    ghost predicate Live()
      reads this
    {
      Valid() && LiveJournal(journal, catalog) && LiveInv(Project().board, catalog)
    }

    /** Recording only extends the journal and leaves bindings of configurations alone. */
    twostate predicate Continues()
      reads this
    {
      && old(journal).entries <= journal.entries
      && journal == old(journal).(entries := journal.entries)
      && workspace == old(workspace) && configurations == old(configurations) && catalog == old(catalog)
    }

    // -------------------------------------------------------------------------
    // Applying one event
    // -------------------------------------------------------------------------

    method ApplyConfigurationEvent(revision: ConfigRevisionId, fingerprint: ConfigRevisionFingerprint)
      returns (r: Result<(), JournalError>)
      modifies `configRevisions, `configRevision, `nextConfigRevision
      ensures var event := ConfigurationRevisionActivated(revision, fingerprint);
        && (r.Ok? <==> Accepts(old(Project()), event))
        && Project() == if r.Ok? then Update(old(Project()), event) else old(Project())
    {
      if revision != nextConfigRevision + 1 || revision in configRevisions {
        return Err(InvalidEvent);
      }
      configRevisions := configRevisions[revision := fingerprint];
      configRevision := revision;
      nextConfigRevision := nextConfigRevision + 1;
      r := Ok(());
    }

    method ApplySessionCreated(session: SessionSummary) returns (r: Result<(), JournalError>)
      modifies `sessions, `nextSession
      ensures r.Ok? <==> Accepts(old(Project()), SessionCreated(session))
      ensures Project() == if r.Ok? then Update(old(Project()), SessionCreated(session)) else old(Project())
    {
      if session.configRevision !in configRevisions {
        return Err(InvalidEvent);
      }
      if session.state != Active {
        return Err(InvalidEvent);
      }
      if session.id != nextSession + 1 {
        return Err(InvalidEvent);
      }
      if session.parentSession.Some? {
        var parent := session.parentSession.value;
        if parent !in sessions {
          return Err(InvalidEvent);
        }
        if sessions[parent].workspace != session.workspace {
          return Err(InvalidEvent);
        }
      } else if sessions.Keys != {} {
        IdOrder.FirstExists(sessions.Keys);
        var existing :| existing in sessions.Keys && IdOrder.IsFirst(existing, sessions.Keys);
        if sessions[existing].workspace != session.workspace {
          return Err(InvalidEvent);
        }
        forall other | other in sessions && IdOrder.IsFirst(other, sessions.Keys) ensures other == existing {
          IdOrder.FirstIsUnique(other, existing, sessions.Keys);
        }
      }
      if session.id in sessions {
        return Err(InvalidEvent);
      }
      sessions := sessions[session.id := session];
      nextSession := nextSession + 1;
      r := Ok(());
    }

    method ApplySessionChange(event: DomainEvent) returns (r: Result<(), JournalError>)
      requires event.SessionConfigRebased? || event.SessionRenamed? || event.SessionTargetChanged? || event.SessionClosed?
      modifies `sessions
      ensures r.Ok? <==> Accepts(old(Project()), event)
      ensures Project() == if r.Ok? then Update(old(Project()), event) else old(Project())
    {
      if event.SessionConfigRebased? && event.rebasedTo !in configRevisions {
        return Err(InvalidEvent);
      }
      var id :=
        if event.SessionConfigRebased? then event.rebased
        else if event.SessionRenamed? then event.renamed
        else if event.SessionTargetChanged? then event.retargeted
        else event.closed;
      if id !in sessions {
        return Err(InvalidEvent);
      }
      var session := sessions[id];
      if session.state == Closed {
        return Err(InvalidEvent);
      }
      match event {
        case SessionConfigRebased(_, revision) => session := session.(configRevision := revision);
        case SessionRenamed(_, name) => session := session.(name := Some(name));
        case SessionTargetChanged(_, target) => session := session.(defaultTarget := target);
        case SessionClosed(_) =>
          if exists x :: x in executions && executions[x].summary.session == id && !IsTerminal(executions[x].summary.state) {
            return Err(InvalidEvent);
          }
          session := session.(state := Closed);
      }
      sessions := sessions[id := session];
      r := Ok(());
    }

    method ApplyExecutionCreated(execution: ExecutionSummary, payload: JournalPayload) returns (r: Result<(), JournalError>)
      modifies `executions, `nextExecution
      ensures r.Ok? <==> Accepts(old(Project()), ExecutionCreated(execution, payload))
      ensures Project() == if r.Ok? then Update(old(Project()), ExecutionCreated(execution, payload)) else old(Project())
    {
      if execution.session !in sessions {
        return Err(InvalidEvent);
      }
      if sessions[execution.session].state == Closed {
        return Err(InvalidEvent);
      }
      if execution.id != nextExecution + 1 {
        return Err(InvalidEvent);
      }
      var revision := sessions[execution.session].configRevision;
      if execution.parent.Some? {
        if execution.parent.value !in executions {
          return Err(InvalidEvent);
        }
        var parent := executions[execution.parent.value];
        revision := parent.configRevision;
        if execution.callable.Some? && execution.callable.value !in parent.authority.callables {
          return Err(InvalidEvent);
        }
        if !parent.authority.Permits(payload.authority) {
          return Err(InvalidEvent);
        }
      }
      var materialized := payload.Plain();
      if payload.JournalInvocation? && execution.kind.Root? && execution.target.Routed? {
        var input := MaterializeRoutedInput(executions, execution, events, payload.input);
        materialized := InvocationPayload(input);
      }
      if execution.id in executions {
        return Err(InvalidEvent);
      }
      executions := executions[execution.id := ExecutionRecord(execution, materialized, payload.authority, revision)];
      nextExecution := nextExecution + 1;
      r := Ok(());
    }

    method ApplyStateChanged(x: ExecutionId, next: ExecutionState) returns (r: Result<(), JournalError>)
      modifies `executions
      ensures r.Ok? <==> Accepts(old(Project()), ExecutionStateChanged(x, next))
      ensures Project() == if r.Ok? then Update(old(Project()), ExecutionStateChanged(x, next)) else old(Project())
    {
      if x !in executions {
        return Err(InvalidEvent);
      }
      var execution := executions[x];
      if IsTerminal(execution.summary.state) {
        return Err(InvalidEvent);
      }
      executions := executions[x := execution.(summary := execution.summary.(state := next))];
      r := Ok(());
    }

    method ApplyGroupCreated(group: AttemptGroup) returns (r: Result<(), JournalError>)
      requires GroupsSound(Project())
      modifies `attemptGroups, `nextAttemptGroup
      ensures r.Ok? <==> Accepts(old(Project()), AttemptGroupCreated(group))
      ensures Project() == if r.Ok? then Update(old(Project()), AttemptGroupCreated(group)) else old(Project())
    {
      if group.id != nextAttemptGroup + 1 {
        return Err(InvalidEvent);
      }
      if |group.attempts| != 1 || |group.failures| != 1 {
        return Err(InvalidEvent);
      }
      var first, failure := group.attempts[0], group.failures[0];
      if failure.execution != first || failure.attempt != 1 {
        return Err(InvalidEvent);
      }
      if first !in executions {
        return Err(InvalidEvent);
      }
      var execution := executions[first].summary;
      if execution.kind != Agent || execution.state != Failed || execution.parent != Some(group.parent)
        || execution.callable != Some(group.callable) {
        return Err(InvalidEvent);
      }
      if exists g :: g in attemptGroups && attemptGroups[g].ContainsExecution(first) {
        return Err(InvalidEvent);
      }
      // The insertion comes before the check for a duplicate, which never fires.
      var duplicate := group.id in attemptGroups;
      attemptGroups := attemptGroups[group.id := group];
      if duplicate {
        return Err(InvalidEvent);
      }
      nextAttemptGroup := nextAttemptGroup + 1;
      r := Ok(());
    }

    method ApplyFailureRecorded(id: AttemptGroupId, failure: FailureAttemptSummary) returns (r: Result<(), JournalError>)
      modifies `attemptGroups
      ensures r.Ok? <==> Accepts(old(Project()), AttemptFailureRecorded(id, failure))
      ensures Project() == if r.Ok? then Update(old(Project()), AttemptFailureRecorded(id, failure)) else old(Project())
    {
      if id !in attemptGroups {
        return Err(InvalidEvent);
      }
      var group := attemptGroups[id];
      if group.LatestExecution() != Some(failure.execution) {
        return Err(InvalidEvent);
      }
      if Some(failure.attempt) != group.AttemptForExecution(failure.execution) {
        return Err(InvalidEvent);
      }
      if group.HasFailureFor(failure.execution) {
        return Err(InvalidEvent);
      }
      if failure.execution !in executions {
        return Err(InvalidEvent);
      }
      if executions[failure.execution].summary.state != Failed {
        return Err(InvalidEvent);
      }
      attemptGroups := attemptGroups[id := group.RecordFailure(failure)];
      r := Ok(());
    }

    method ApplyRetryStarted(id: AttemptGroupId, retry: ExecutionId) returns (r: Result<(), JournalError>)
      modifies `attemptGroups
      ensures r.Ok? <==> Accepts(old(Project()), AttemptRetryStarted(id, retry))
      ensures Project() == if r.Ok? then Update(old(Project()), AttemptRetryStarted(id, retry)) else old(Project())
    {
      if id !in attemptGroups {
        return Err(InvalidEvent);
      }
      var group := attemptGroups[id];
      var previous := group.LatestExecution();
      if previous.None? {
        return Err(InvalidEvent);
      }
      if !group.HasFailureFor(previous.value) {
        return Err(InvalidEvent);
      }
      if exists g :: g in attemptGroups && attemptGroups[g].ContainsExecution(retry) {
        return Err(InvalidEvent);
      }
      if retry !in executions {
        return Err(InvalidEvent);
      }
      var execution := executions[retry].summary;
      if execution.kind != Agent || execution.state != Pending || execution.parent != Some(group.parent)
        || execution.callable != Some(group.callable) {
        return Err(InvalidEvent);
      }
      attemptGroups := attemptGroups[id := group.RecordRetry(retry)];
      r := Ok(());
    }

    method ApplyInterfaceStarted(parentId: ExecutionId, failedId: ExecutionId, interfaceId: ExecutionId)
      returns (r: Result<(), JournalError>)
      modifies `orchestrationInterfaces
      ensures var event := OrchestrationFailureInterfaceStarted(parentId, failedId, interfaceId);
        && (r.Ok? <==> Accepts(old(Project()), event))
        && Project() == if r.Ok? then Update(old(Project()), event) else old(Project())
    {
      if failedId in orchestrationInterfaces {
        return Err(InvalidEvent);
      }
      if parentId !in executions || failedId !in executions || interfaceId !in executions {
        return Err(InvalidEvent);
      }
      var parent, failed, interface := executions[parentId].summary, executions[failedId].summary, executions[interfaceId].summary;
      if parent.kind != Orchestration
        || parent.state != Running
        || failed.parent != Some(parentId)
        || failed.kind != Agent
        || failed.state != Failed
        || interface.parent != Some(parentId)
        || interface.kind != Agent
        || interface.state != Pending
        || interfaceId != nextExecution
        || interfaceId in orchestrationNodes {
        return Err(InvalidEvent);
      }
      orchestrationInterfaces := orchestrationInterfaces[failedId := interfaceId];
      r := Ok(());
    }

    method ApplyDecisionMade(decision: DecisionRecord) returns (r: Result<(), JournalError>)
      requires GroupsSound(Project())
      modifies `orchestrationDecisions
      ensures r.Ok? <==> Accepts(old(Project()), OrchestrationDecisionMade(decision))
      ensures Project() == if r.Ok? then Update(old(Project()), OrchestrationDecisionMade(decision)) else old(Project())
    {
      if decision.failedChild in orchestrationDecisions {
        return Err(InvalidEvent);
      }
      if decision.parent !in executions || decision.failedChild !in executions {
        return Err(InvalidEvent);
      }
      var parent, failed := executions[decision.parent].summary, executions[decision.failedChild].summary;
      if parent.kind != Orchestration || parent.state != Running || failed.parent != Some(decision.parent)
        || failed.kind != Agent || failed.state != Failed {
        return Err(InvalidEvent);
      }
      if decision.decider.Some? {
        var deciderId := decision.decider.value;
        if decision.failedChild !in orchestrationInterfaces || orchestrationInterfaces[decision.failedChild] != deciderId {
          return Err(InvalidEvent);
        }
        if deciderId !in executions {
          return Err(InvalidEvent);
        }
        var decider := executions[deciderId].summary;
        if decider.parent != Some(decision.parent) || decider.kind != Agent || (decider.state != Running && decider.state != Completed) {
          return Err(InvalidEvent);
        }
      } else if !decision.decision.Fail? {
        return Err(InvalidEvent);
      }
      var recoveryId := decision.decision.RecoveryExecution();
      if recoveryId.Some? {
        if recoveryId.value !in executions {
          return Err(InvalidEvent);
        }
        var recovery := executions[recoveryId.value].summary;
        if recoveryId.value != nextExecution
          || recovery.parent != Some(decision.parent)
          || recovery.kind != Agent
          || recovery.state != Pending
          || recoveryId.value in orchestrationNodes
          || recoveryId.value in orchestrationInterfaces.Values
          || exists f :: f in orchestrationDecisions && orchestrationDecisions[f].decision.RecoveryExecution() == recoveryId {
          return Err(InvalidEvent);
        }
      }
      match decision.decision {
        case Retry(retry) =>
          var backed := IsBacked(decision.failedChild, retry);
          if !backed {
            return Err(InvalidEvent);
          }
        case ChooseAnotherChild(replacement) =>
          if executions[replacement].summary.callable == failed.callable {
            return Err(InvalidEvent);
          }
        case Continue =>
        case Fail =>
      }
      orchestrationDecisions := orchestrationDecisions[decision.failedChild := decision];
      r := Ok(());
    }

    /** Whether the attempt group that holds both executions ends with `retry`. */
    method IsBacked(failed: ExecutionId, retry: ExecutionId) returns (backed: bool)
      requires GroupsSound(Project())
      ensures backed <==> exists g ::
        g in attemptGroups && attemptGroups[g].ContainsExecution(failed) && attemptGroups[g].LatestExecution() == Some(retry)
    {
      if !exists g :: g in attemptGroups && attemptGroups[g].ContainsExecution(failed) && attemptGroups[g].ContainsExecution(retry) {
        return false;
      }
      var g :| g in attemptGroups && attemptGroups[g].ContainsExecution(failed) && attemptGroups[g].ContainsExecution(retry);
      backed := attemptGroups[g].LatestExecution() == Some(retry);
    }

    method ApplyNodeStarted(orchestrationId: ExecutionId, node: OrchestrationNodeId, childId: ExecutionId)
      returns (r: Result<(), JournalError>)
      modifies `orchestrationNodes
      ensures var event := OrchestrationNodeStarted(orchestrationId, node, childId);
        && (r.Ok? <==> Accepts(old(Project()), event))
        && Project() == if r.Ok? then Update(old(Project()), event) else old(Project())
    {
      if orchestrationId !in executions {
        return Err(InvalidEvent);
      }
      if executions[orchestrationId].summary.kind != Orchestration {
        return Err(InvalidEvent);
      }
      if childId !in executions {
        return Err(InvalidEvent);
      }
      if executions[childId].summary.parent != Some(orchestrationId) {
        return Err(InvalidEvent);
      }
      if exists other :: other in orchestrationNodes && orchestrationNodes[other] == node
          && other in executions && executions[other].summary.parent == Some(orchestrationId) {
        return Err(InvalidEvent);
      }
      if childId in orchestrationNodes {
        return Err(InvalidEvent);
      }
      orchestrationNodes := orchestrationNodes[childId := node];
      r := Ok(());
    }

    method ApplyInvocationEvent(event: DomainEvent) returns (r: Result<(), JournalError>)
      requires event.InvocationResolved? || event.WorkspaceCheckpointCaptured? || event.WorkspaceFileObserved?
      modifies `resolvedRoutes, `readSets
      ensures r.Ok? <==> Accepts(old(Project()), event)
      ensures Project() == if r.Ok? then Update(old(Project()), event) else old(Project())
    {
      hide AcceptsSession, AcceptsExecution, AcceptsDecision, AcceptsInterface, AcceptsNode, AcceptsGroup, AcceptsRetry, AcceptsFailure,
        AcceptsFrontendEvent, SessionQuiescent, RetryBacked, NewRecord, WithExecution, WithState;
      var id :=
        if event.InvocationResolved? then event.resolved
        else if event.WorkspaceCheckpointCaptured? then event.checkpointed
        else event.observer;
      if id !in executions {
        return Err(InvalidEvent);
      }
      var execution := executions[id];
      match event {
        case InvocationResolved(_, route) =>
          if !execution.payload.InvocationPayload? || route.configRevision != execution.configRevision
            || route.requestedTarget != execution.summary.target
            || (route.requestedTarget.Fixed? && route.model != route.requestedTarget.model)
            || id in resolvedRoutes {
            return Err(InvalidEvent);
          }
          resolvedRoutes := resolvedRoutes[id := route];
        case WorkspaceCheckpointCaptured(_, captured) =>
          if execution.summary.state != Pending || execution.authority.filesystem != Write
            || execution.summary.session !in sessions || sessions[execution.summary.session].workspace != captured {
            return Err(InvalidEvent);
          }
        case WorkspaceFileObserved(_, path, version) =>
          if execution.summary.state != Running {
            return Err(InvalidEvent);
          }
          var files := if id in readSets then readSets[id] else map[];
          if path !in files {
            files := files[path := version];
          }
          readSets := readSets[id := files];
      }
      r := Ok(());
    }

    method ApplyFrontendEvent(event: ExecutionEvent) returns (r: Result<(), JournalError>)
      modifies `events, `nextEvent, `nextToolCall
      ensures r.Ok? <==> Accepts(old(Project()), FrontendEvent(event))
      ensures Project() == if r.Ok? then Update(old(Project()), FrontendEvent(event)) else old(Project())
    {
      hide AcceptsSession, AcceptsExecution, AcceptsDecision, AcceptsInterface, AcceptsNode, AcceptsGroup, AcceptsRetry, AcceptsFailure,
        AcceptsRoute, AcceptsCheckpoint, SessionQuiescent, RetryBacked, NewRecord, WithExecution, WithState;
      if event.sequence != nextEvent + 1 {
        return Err(InvalidEvent);
      }
      if event.execution !in executions {
        return Err(InvalidEvent);
      }
      if executions[event.execution].summary.session != event.session {
        return Err(InvalidEvent);
      }
      if event.kind.ToolCallStarted? {
        if event.kind.toolCall != nextToolCall + 1 {
          return Err(InvalidEvent);
        }
        nextToolCall := nextToolCall + 1;
      }
      events := events + [event];
      nextEvent := event.sequence;
      r := Ok(());
    }

    /** Applies an accepted event and leaves every durable field alone on a rejected one. */
    method ApplyDomainEvent(event: DomainEvent) returns (r: Result<(), JournalError>)
      requires GroupsSound(Project())
      modifies this
      ensures r.Ok? <==> Accepts(old(Project()), event)
      ensures Project() == if r.Ok? then Update(old(Project()), event) else old(Project())
      ensures journal == old(journal) && workspace == old(workspace)
      ensures configurations == old(configurations) && catalog == old(catalog)
    {
      hide *;
      match event {
        case ConfigurationRevisionActivated(revision, fingerprint) => r := ApplyConfigurationEvent(revision, fingerprint);
        case SessionCreated(session) => r := ApplySessionCreated(session);
        case SessionConfigRebased(_, _) => r := ApplySessionChange(event);
        case SessionRenamed(_, _) => r := ApplySessionChange(event);
        case SessionTargetChanged(_, _) => r := ApplySessionChange(event);
        case SessionClosed(_) => r := ApplySessionChange(event);
        case ExecutionCreated(execution, payload) => r := ApplyExecutionCreated(execution, payload);
        case ExecutionStateChanged(x, next) => r := ApplyStateChanged(x, next);
        case AttemptGroupCreated(group) => r := ApplyGroupCreated(group);
        case AttemptFailureRecorded(id, failure) => r := ApplyFailureRecorded(id, failure);
        case AttemptRetryStarted(id, retry) => r := ApplyRetryStarted(id, retry);
        case OrchestrationFailureInterfaceStarted(parent, failed, interface) => r := ApplyInterfaceStarted(parent, failed, interface);
        case OrchestrationDecisionMade(decision) => r := ApplyDecisionMade(decision);
        case OrchestrationNodeStarted(orchestration, node, child) => r := ApplyNodeStarted(orchestration, node, child);
        case InvocationResolved(_, _) => r := ApplyInvocationEvent(event);
        case WorkspaceCheckpointCaptured(_, _) => r := ApplyInvocationEvent(event);
        case WorkspaceFileObserved(_, _, _) => r := ApplyInvocationEvent(event);
        case FrontendEvent(e) => r := ApplyFrontendEvent(e);
      }
    }

    /** Appends an event to the journal and applies it, or else takes it off the journal again. */
    method AppendAndApply(event: DomainEvent) returns (r: Result<(), JournalError>)
      requires Valid()
      modifies this
      ensures Valid() && Continues()
      ensures r.Ok? <==> Accepts(old(Project()), event)
      ensures r.Ok? ==> Project() == Update(old(Project()), event) && journal == Appended(old(journal), event)
      ensures r.Err? ==> Project() == old(Project()) && journal == old(journal)
    {
      ghost var d := Project();
      ghost var before := journal;
      assert GroupsSound(d);
      hide Recorded, DurableInv, Bound, Accepts, Update, GroupsSound;
      journal := journal.(entries := journal.entries + [JournalEntry(|journal.entries| + 1, event)]);
      r := ApplyDomainEvent(event);
      if r.Err? {
        journal := journal.(entries := journal.entries[..|journal.entries| - 1]);
      } else {
        AppendingRecords(before, d, event);
        StepKeepsDurable(d, event);
        RecordingKeepsBound(d, configurations, catalog, event);
      }
    }

    /** Recording an event that a live runtime may record keeps the runtime live. */
    twostate lemma RecordedLive(event: DomainEvent)
      requires Valid() && Continues() && Accepts(old(Project()), event)
      requires Project() == Update(old(Project()), event) && journal == Appended(old(journal), event)
      ensures old(Live()) && LiveGuard(old(Project()), catalog, event) ==> Live()
    {
      if old(Live()) && LiveGuard(old(Project()), catalog, event) {
        AppendingKeepsLive(old(journal), old(Project()), catalog, event);
      }
    }

    twostate lemma RejectedLive()
      requires Continues() && Project() == old(Project()) && journal == old(journal)
      ensures old(Live()) ==> Live()
    {
    }

    /** Records an event; a creation is first stamped with the authority the child receives. */
    method RecordDomainEvent(event: DomainEvent) returns (r: Result<(), ConductorError>)
      requires Valid()
      modifies this
      ensures Valid() && Continues()
      ensures var stamped := Stamp(old(Project()), old(configurations), event);
        && (r.Ok? <==> stamped.Ok? && Accepts(old(Project()), stamped.value))
        && (stamped.Err? ==> r == Err(stamped.error))
        && (r.Ok? ==> Project() == Update(old(Project()), stamped.value) && journal == Appended(old(journal), stamped.value))
      ensures r.Ok? && event.ExecutionCreated? ==>
        CreatesAsAsked(old(Project()), old(configurations), Project(), event.execution, event.payload)
      ensures r.Err? && !r.error.Rejected? ==>
        event.ExecutionCreated? && Entrusts(old(Project()), old(configurations), event.execution, Err(r.error))
      ensures r.Err? ==> Project() == old(Project()) && journal == old(journal)
      ensures old(Live()) && (r.Ok? ==> LiveGuard(old(Project()), catalog, Stamp(old(Project()), old(configurations), event).value))
        ==> Live()
    {
      var stamped := event;
      if event.ExecutionCreated? {
        var authority := EffectiveAuthority(Project(), configurations, event.execution);
        EffectiveAuthorityEntrusts(Project(), configurations, event.execution);
        if authority.Err? {
          return Err(authority.error);
        }
        stamped := event.(payload := event.payload.WithAuthority(authority.value));
      }
      assert Stamp(Project(), configurations, event) == Ok(stamped);
      ghost var d := Project();
      hide *;
      var result := AppendAndApply(stamped);
      if result.Ok? {
        if event.ExecutionCreated? { CreationIsAsAsked(d, configurations, event.execution, event.payload); }
        RecordedLive(stamped);
        r := Ok(());
      } else {
        RejectedLive();
        r := Err(Rejected(result.error));
      }
    }

    /** Records an event that is known to be accepted. */
    method RecordLive(event: DomainEvent)
      requires Live() && !event.ExecutionCreated? && Accepts(Project(), event) && LiveGuard(Project(), catalog, event)
      modifies this
      ensures Live() && Continues() && Project() == Update(old(Project()), event)
    {
      assert Valid() && Stamp(Project(), configurations, event) == Ok(event);
      hide *;
      var recorded := RecordDomainEvent(event);
      assert recorded.Ok?;
    }

    method PushEvent(x: ExecutionId, kind: ExecutionEventKind) returns (r: Result<ExecutionEvent, ConductorError>)
      requires Live()
      modifies this
      ensures Live() && Continues()
      ensures x !in old(executions) ==> r == Err(UnknownExecution(x))
      ensures r.Ok? <==> x in old(executions) && (kind.ToolCallStarted? ==> kind.toolCall == old(nextToolCall) + 1)
      ensures r.Ok? ==> r.value == EventFor(old(Project()), x, kind) && Project() == Pushed(old(Project()), x, kind)
      ensures r.Err? ==> Project() == old(Project()) && journal == old(journal)
      ensures old(AtRest()) && !kind.StateChanged? ==> AtRest()
      ensures old(Healthy()) ==> Healthy()
    {
      hide Valid, DurableInv, BoardInv, LiveInv, NodesApart, Lineage, Sequenced, Accepts, Update, LiveGuard, Pushed, Stamp, LiveJournal, Calm,
        AllEquipped, LogCurrent;
      if x !in executions {
        return Err(UnknownExecution(x));
      }
      var event := ExecutionEvent(nextEvent + 1, executions[x].summary.session, x, kind);
      assert Valid() && event == EventFor(Project(), x, kind) && nextToolCall == Project().nextToolCall;
      PushIsAccepted(Project(), configurations, catalog, x, kind);
      ghost var d := Project();
      assert AtRest() ==> Calm(d.board, catalog, {}) && LogCurrent(d);
      assert Healthy() ==> AdmitsAll() && AllEquipped(d.board, configurations, catalog);
      hide *;
      var recorded := RecordDomainEvent(FrontendEvent(event));
      if recorded.Ok? {
        PushKeepsRest(d, x, kind);
        r := Ok(event);
      } else {
        r := Err(recorded.error);
      }
    }

    /** Only an announced state change could make the log disagree with the states. */
    lemma PushKeepsRest(d: Durable, x: ExecutionId, kind: ExecutionEventKind)
      requires x in d.board.executions && Project() == Pushed(d, x, kind)
      ensures Calm(d.board, catalog, {}) && LogCurrent(d) && !kind.StateChanged? ==> AtRest()
      ensures AdmitsAll() && AllEquipped(d.board, configurations, catalog) ==> Healthy()
    {
      if LogCurrent(d) && !kind.StateChanged? { PushKeepsLog(d, x, kind); }
      hide Calm, AllEquipped, LogCurrent;
    }

    method EnsureSessionActive(session: SessionId) returns (r: Result<(), ConductorError>)
      ensures r.Ok? <==> OpenSession(Project(), session)
      ensures r.Err? ==> r.error == if session in sessions then ClosedSession(session) else UnknownSession(session)
    {
      if session !in sessions {
        return Err(UnknownSession(session));
      }
      r := if sessions[session].state == Closed then Err(ClosedSession(session)) else Ok(());
    }

    /** Records a new pending child of a delegating parent; on an error nothing has changed. */
    method RecordChild(child: ExecutionSummary, payload: JournalPayload) returns (r: Result<(), ConductorError>)
      requires Live()
      requires child.parent.Some? && child.callable.Some? && child.parent.value in executions && !child.kind.Root?
      requires child == ChildSummary(Project().board, child.parent.value, child.kind, child.callable.value)
      requires child.callable.value in executions[child.parent.value].authority.callables
      requires OpenSession(Project(), child.session)
      requires child.kind.Orchestration? ==>
        payload.JournalOrchestration? && DefinitionIn(catalog, executions[child.parent.value].configRevision, child.callable).Some?
      modifies this
      ensures Live() && Continues()
      ensures r.Ok? <==> Stamp(old(Project()), configurations, ExecutionCreated(child, payload)).Ok?
      ensures r.Ok? ==> ChildRecorded(old(Project()), Project(), child, payload) && Granted(old(Project()), configurations, Project(), child)
      ensures r.Err? ==> Project() == old(Project()) && journal == old(journal)
    {
      ghost var d := Project();
      assert Valid() && BoardInv(d.board);
      if Stamp(d, configurations, ExecutionCreated(child, payload)).Ok? {
        BoundCatalog();
        ChildIsAccepted(d, configurations, catalog, child.parent.value, child.kind, child.callable.value, payload);
        RecordedChild(d, configurations, child, payload);
        StampIsGranted(d, configurations, child, payload);
      }
      hide *;
      r := RecordDomainEvent(ExecutionCreated(child, payload));
    }

    /** Tells the frontend of a new child. */
    method AnnounceChild(parentId: ExecutionId, childId: ExecutionId) returns (r: Result<(), ConductorError>)
      requires Live() && parentId in executions && childId in executions
      modifies this
      ensures Live() && Continues()
      ensures r.Ok? && Project() == Announced(old(Project()), parentId, childId)
    {
      ghost var d := Project();
      ghost var d1 := Pushed(d, parentId, ChildExecutionStarted(childId));
      assert childId in d1.board.executions && Announced(d, parentId, childId) == Pushed(d1, childId, StateChanged(Pending));
      hide Valid, Live, Pushed, Announced;
      var started := PushEvent(parentId, ChildExecutionStarted(childId));
      assert started.Ok? && executions == d1.board.executions;
      var pending := PushEvent(childId, StateChanged(Pending));
      assert pending.Ok?;
      r := Ok(());
    }

    lemma SessionIsKnown(x: ExecutionId)
      requires Live() && x in executions
      ensures executions[x].summary.session in sessions
    {
    }

    /** Creates a pending child and announces it; on an error nothing has changed. */
    method CreateChild(parentId: ExecutionId, kind: ExecutionKind, callable: CallableId, payload: JournalPayload)
      returns (r: Result<ExecutionSummary, ConductorError>)
      requires Live() && !kind.Root?
      requires kind.Orchestration? && parentId in executions ==>
        payload.JournalOrchestration? && DefinitionIn(catalog, executions[parentId].configRevision, Some(callable)).Some?
      modifies this
      ensures Live() && Continues()
      ensures r.Ok? ==> ChildCreated(old(Project()), Project(), parentId, kind, callable, payload, r.value)
      ensures r.Ok? ==> Granted(old(Project()), configurations, Project(), r.value)
      ensures StartAllowed(old(Project()), parentId, callable, true) ==>
        (r.Ok? <==> Stamp(old(Project()), old(configurations), ExecutionCreated(ChildSummary(old(Project()).board, parentId, kind, callable), payload)).Ok?)
      ensures r.Ok? ==> StartAllowed(old(Project()), parentId, callable, true)
      ensures !StartAllowed(old(Project()), parentId, callable, true) ==> r.Err? && NotDelegated(old(Project()), parentId, callable, r.error)
      ensures r.Err? ==> Project() == old(Project()) && journal == old(journal)
    {
      hide Valid, Live, Stamp, BoardInv, Announced, IsNewChild, DefinitionIn, Pushed, EventFor, Accepts, Update, EffectiveAuthority, Entrusts;
      if parentId in executions { SessionIsKnown(parentId); }
      if parentId !in executions {
        return Err(UnknownExecution(parentId));
      }
      if callable !in executions[parentId].authority.callables {
        return Err(DelegationDenied(parentId, callable));
      }
      var parent := executions[parentId].summary;
      var _ :- EnsureSessionActive(parent.session);
      var child := ExecutionSummary(nextExecution + 1, parent.session, Some(parentId), kind, Some(callable), parent.target, Pending);
      ghost var d := Project();
      assert child == ChildSummary(d.board, parentId, kind, callable);
      assert !kind.Orchestration? ==> !child.kind.Orchestration?;
      hide ChildSummary, OpenSession;
      var _ :- RecordChild(child, payload);
      ghost var d1 := Project();
      AnnouncedBoard(d1, parentId, child.id);
      var announced := AnnounceChild(parentId, child.id);
      assert announced.Ok?;
      r := Ok(child);
    }

    // -------------------------------------------------------------------------
    // Reading the state of orchestrations
    // -------------------------------------------------------------------------

    function ConfigurationFor(x: ExecutionId): Result<CompiledConfiguration, ConductorError>
      reads this
    {
      if x !in executions then Err(UnknownExecution(x)) else BoundConfiguration(Project(), configurations, executions[x].configRevision)
    }

    /** Follows recoveries to the end of the chain; the test for a cycle never fires. */
    method EffectiveExecutionState(x: ExecutionId) returns (r: Result<ExecutionState, ConductorError>)
      requires Sequenced(Project().board) && DecisionsSound(Project().board)
      ensures r == if x in executions then Ok(Effective(Project().board, x)) else Err(UnknownExecution(x))
    {
      if x !in executions {
        return Err(UnknownExecution(x));
      }
      ghost var b := Project().board;
      LeafFacts(b, x);
      var current := x;
      var visited: set<ExecutionId> := {};
      while true
        invariant current in executions && Leaf(b, current) == Leaf(b, x)
        invariant forall y :: y in visited ==> y < current
        decreases b.nextExecution - current
      {
        if current in visited {
          return Err(InvalidLifecycle(current));
        }
        visited := visited + {current};
        var state := executions[current].summary.state;
        if state != Failed {
          return Ok(state);
        }
        if current !in orchestrationDecisions {
          return Ok(Failed);
        }
        assert DecisionSound(b, current);
        match orchestrationDecisions[current].decision {
          case Retry(recovery) => current := recovery;
          case ChooseAnotherChild(recovery) => current := recovery;
          case Continue => return Ok(Completed);
          case Fail => return Ok(Failed);
        }
      }
    }

    /** The effective state of every started node of an orchestration. */
    method OrchestrationNodeStates(o: ExecutionId) returns (r: Result<map<OrchestrationNodeId, ExecutionState>, ConductorError>)
      requires BoardInv(Project().board)
      ensures r.Ok?
      ensures forall node :: node in r.value <==> NodeStarted(Project().board, o, node)
      ensures forall c :: IsNodeChild(Project().board, o, c) ==>
        orchestrationNodes[c] in r.value && r.value[orchestrationNodes[c]] == Effective(Project().board, c)
    {
      ghost var b := Project().board;
      var states: map<OrchestrationNodeId, ExecutionState> := map[];
      var remaining := executions.Keys;
      while remaining != {}
        invariant remaining <= executions.Keys
        invariant forall node :: node in states ==> NodeStarted(b, o, node)
        invariant forall c :: IsNodeChild(b, o, c) && c !in remaining ==>
          orchestrationNodes[c] in states && states[orchestrationNodes[c]] == Effective(b, c)
        decreases |remaining|
      {
        var c :| c in remaining;
        remaining := remaining - {c};
        if executions[c].summary.parent == Some(o) && c in orchestrationNodes {
          var state := EffectiveExecutionState(c);
          assert IsNodeChild(b, o, c);
          states := states[orchestrationNodes[c] := state.value];
        }
      }
      r := Ok(states);
    }

    // -------------------------------------------------------------------------
    // Starting agents
    // -------------------------------------------------------------------------

    /** `x` may start the agent `callable`. */
    predicate MayStart(x: ExecutionId, callable: CallableId, operation: CallableOperation)
      reads this
    {
      StartAdmitted(policy, configurations, Project(), x, callable, operation)
    }

    method CheckAgent(x: ExecutionId, callable: CallableId, operation: CallableOperation) returns (r: Result<(), ConductorError>)
      ensures r.Ok? <==> MayStart(x, callable, operation)
      ensures r.Err? ==> NotAdmitted(policy, configurations, Project(), x, callable, operation, r.error)
    {
      var configuration :- ConfigurationFor(x);
      var descriptor := DescriptorOf(configuration.callables, callable);
      if descriptor.Err? {
        return Err(Registry(descriptor.error));
      }
      if descriptor.value.kind != AgentCallable {
        return Err(Registry(WrongKind(callable, AgentCallable, descriptor.value.kind)));
      }
      var provider := ExecutionProvider(configuration.callables, callable);
      if provider.Err? {
        return Err(Registry(provider.error));
      }
      r := if policy(x, descriptor.value, operation) then Ok(()) else Err(PolicyDenied(x));
    }

    lemma StartableIsStamped(parentId: ExecutionId, callable: CallableId, operation: CallableOperation, payload: JournalPayload)
      requires parentId in executions && MayStart(parentId, callable, operation)
      ensures Stamp(Project(), configurations, ExecutionCreated(ChildSummary(Project().board, parentId, Agent, callable), payload)).Ok?
    {
      AgentIsStamped(Project(), configurations, parentId, callable, payload);
    }

    lemma LiveSessionIsOpen(x: ExecutionId)
      requires Live() && IsLive(Project().board, x)
      ensures OpenSession(Project(), executions[x].summary.session)
    {
    }

    /** Creates, without announcing it, an agent that recovers or interfaces a failure; on an error nothing has changed. */
    method CreateRecoveryAgent(parentId: ExecutionId, callable: CallableId, objective: Prompt) returns (r: Result<ExecutionSummary, ConductorError>)
      requires Live()
      modifies this
      ensures Live() && Continues()
      ensures r.Ok? <==> RecoveryAllowed(old(Project()).board, parentId, callable, old(MayStart(parentId, callable, StartAgentNodeOperation)))
      ensures r.Ok? ==>
        r.value == ChildSummary(old(Project()).board, parentId, Agent, callable)
        && ChildRecorded(old(Project()), Project(), r.value, JournalInvocation(objective, ExecutionAuthority.READ_ONLY))
      ensures r.Err? ==> Project() == old(Project()) && journal == old(journal)
      ensures r.Err? ==>
        if !old(MayStart(parentId, callable, StartAgentNodeOperation)) then
          NotAdmitted(policy, configurations, old(Project()), parentId, callable, StartAgentNodeOperation, r.error)
        else if !InState(old(Project()).board, parentId, Running) then r.error == InvalidLifecycle(parentId)
        else r.error == DelegationDenied(parentId, callable) && callable !in old(executions)[parentId].authority.callables
    {
      hide Live, Valid, Stamp, OpenSession, DefinitionIn, ChildRecorded, Accepts, Update;
      var _ :- CheckAgent(parentId, callable, StartAgentNodeOperation);
      var parent := executions[parentId];
      if parent.summary.state != Running {
        return Err(InvalidLifecycle(parentId));
      }
      if callable !in parent.authority.callables {
        return Err(DelegationDenied(parentId, callable));
      }
      var child := ExecutionSummary(nextExecution + 1, parent.summary.session, Some(parentId), Agent, Some(callable), parent.summary.target, Pending);
      var payload := JournalInvocation(objective, ExecutionAuthority.READ_ONLY);
      assert child == ChildSummary(Project().board, parentId, Agent, callable);
      LiveSessionIsOpen(parentId);
      StartableIsStamped(parentId, callable, StartAgentNodeOperation, payload);
      hide ChildSummary, MayStart;
      var recorded := RecordChild(child, payload);
      assert recorded.Ok?;
      r := Ok(child);
    }

    /** Starts an agent under `parentId`, as `node` of an orchestration if one is given; on an error nothing has changed. */
    method StartAgentWithNode(parentId: ExecutionId, callable: CallableId, objective: Prompt, node: Option<OrchestrationNodeId>)
      returns (r: Result<ExecutionSummary, ConductorError>)
      requires Live()
      requires node.Some? ==>
        IsOrchestration(Project().board, parentId)
        && StartJustified(Project().board, catalog, parentId, node.value) && !NodeStarted(Project().board, parentId, node.value)
      modifies this
      ensures Live() && Continues()
      ensures r.Ok? ==> exists record: ExecutionRecord ::
        r.value == record.summary && AgentStarted(old(Project()), Project(), parentId, callable, objective, node, record)
      ensures r.Ok? <==> StartAllowed(old(Project()), parentId, callable,
                                      old(MayStart(parentId, callable, if node.Some? then StartAgentNodeOperation else StartAgentOperation)))
      ensures r.Err? ==>
        var operation := if node.Some? then StartAgentNodeOperation else StartAgentOperation;
        if !old(MayStart(parentId, callable, operation)) then NotAdmitted(policy, configurations, old(Project()), parentId, callable, operation, r.error)
        else NotDelegated(old(Project()), parentId, callable, r.error)
      ensures r.Err? ==> Project() == old(Project()) && journal == old(journal)
    {
      hide Live, Valid, BoardInv, DurableInv, LiveInv, ChildSummary, Stamp, OpenSession, StartJustified, NodeStarted, AgentStarted, ChildCreated,
        MayStart, Accepts, LiveGuard, Update, Announced, DefinitionIn, NodesApart, Sequenced, Lineage;
      var operation := if node.Some? then StartAgentNodeOperation else StartAgentOperation;
      var _ :- CheckAgent(parentId, callable, operation);
      ghost var d := Project();
      LiveFacts();
      if parentId in executions { StartableIsStamped(parentId, callable, operation, JournalInvocation(objective, ExecutionAuthority.READ_ONLY)); }
      var child :- CreateChild(parentId, Agent, callable, JournalInvocation(objective, ExecutionAuthority.READ_ONLY));
      ghost var record := CreatedAgent(d, Project(), parentId, callable, objective, child);
      if node.Some? {
        StartedNode(d, Project(), catalog, parentId, callable, objective, node.value, record);
        RecordLive(OrchestrationNodeStarted(parentId, node.value, child.id));
      }
      r := Ok(child);
    }

    // -------------------------------------------------------------------------
    // Ends of executions and their cascade
    // -------------------------------------------------------------------------

    /** No guard objects, and every live orchestration has what it needs. */
    ghost predicate Healthy()
      reads this
    {
      AdmitsAll() && AllEquipped(Project().board, configurations, catalog)
    }

    ghost predicate AdmitsAll() {
      forall x, descriptor, operation :: policy(x, descriptor, operation)
    }

    /** Every live orchestration runs and may start its nodes and interface, whether or not its configuration is bound. */
    ghost predicate Provisioned()
      reads this
    {
      AllEquipped(Project().board, catalog, catalog)
    }

    /** The configuration of every live orchestration is bound. */
    ghost predicate OrchestrationsBound()
      reads this
    {
      forall o :: o in LiveHere() ==> executions[o].configRevision in configurations
    }

    /** What a restart has to restore: a runtime is healthy exactly when it is provisioned and its live orchestrations are bound. */
    lemma HealthyExactlyWhenBound()
      requires Live()
      ensures Healthy() <==> AdmitsAll() && Provisioned() && OrchestrationsBound()
    {
      hide NodeCallables, Valid, LiveInv;
      forall o | o in LiveHere()
        ensures Equipped(Project().board, configurations, catalog, o) <==>
          Equipped(Project().board, catalog, catalog, o) && executions[o].configRevision in configurations
      {
      }
    }

    /** As healthy as possible while the orchestration `x` does not run yet. */
    ghost predicate HealthyExcept(x: ExecutionId)
      reads this
    {
      AdmitsAll() && OthersEquipped(Project().board, configurations, catalog, x)
    }

    lemma LiveFacts()
      requires Live()
      ensures Valid() && DurableInv(Project()) && BoardInv(Project().board) && Lineage(Project().board) && Sequenced(Project().board)
      ensures LiveInv(Project().board, catalog) && NodesApart(Project().board)
    {
    }

    ghost function LiveHere(): set<ExecutionId>
      reads this
    {
      LiveOrchestrations(Project().board)
    }

    /** Children of `parents`, whichever of them the pass meets. */
    predicate ChildOfAny(id: ExecutionId, parents: set<ExecutionId>)
      reads this
    {
      id in executions && executions[id].summary.parent.Some? && executions[id].summary.parent.value in parents
    }

    /** One pass over all executions, adding the children of what is already in. */
    method AddChildren(before: set<ExecutionId>, ghost root: ExecutionId) returns (subtree: set<ExecutionId>)
      requires Lineage(Project().board)
      requires forall id :: id in before ==> InSubtree(Project().board, root, id)
      ensures before <= subtree
      ensures forall id :: id in subtree ==> InSubtree(Project().board, root, id)
      ensures forall id :: ChildOfAny(id, before) ==> id in subtree
    {
      subtree := before;
      var remaining := executions.Keys;
      while remaining != {}
        invariant remaining <= executions.Keys && before <= subtree
        invariant forall id :: id in subtree ==> InSubtree(Project().board, root, id)
        invariant forall id :: ChildOfAny(id, before) && id !in remaining ==> id in subtree
        decreases |remaining|
      {
        var id :| id in remaining;
        remaining := remaining - {id};
        if ChildOfAny(id, subtree) {
          subtree := subtree + {id};
        }
      }
    }

    /** `root` and everything below it. */
    method ExecutionSubtree(root: ExecutionId) returns (r: Result<set<ExecutionId>, ConductorError>)
      requires Lineage(Project().board)
      ensures root !in executions ==> r == Err(UnknownExecution(root))
      ensures root in executions ==> r.Ok? && forall id :: id in r.value <==> InSubtree(Project().board, root, id)
    {
      if root !in executions {
        return Err(UnknownExecution(root));
      }
      ghost var b := Project().board;
      var subtree := {root};
      while true
        invariant root in subtree
        invariant forall id :: id in subtree ==> InSubtree(b, root, id)
        decreases executions.Keys - subtree
      {
        var before := subtree;
        subtree := AddChildren(before, root);
        if |subtree| == |before| {
          EqualByCount(before, subtree);
          break;
        }
        assert subtree <= executions.Keys;
        LessRemains(executions.Keys, before, subtree);
      }
      assert forall id :: ChildOfAny(id, subtree) ==> id in subtree;
      forall id | id in b.executions && b.executions[id].summary.parent.Some? && b.executions[id].summary.parent.value in subtree
        ensures id in subtree
      {
        assert ChildOfAny(id, subtree);
      }
      forall id | InSubtree(b, root, id) ensures id in subtree { ClosedContainsSubtree(b, root, subtree, id); }
      r := Ok(subtree);
    }

    /** Records a state change and tells the frontend. */
    method Transition(x: ExecutionId, s: ExecutionState)
      requires Live() && IsLive(Project().board, x)
      requires IsOrchestration(Project().board, x) ==> !s.Pending? && OutcomeJustified(Project().board, catalog, x, s)
      modifies this
      ensures Live() && Continues()
      ensures Project() == Moved(old(Project()), x, s)
    {
      ghost var d := Project();
      MoveIsAccepted(d, catalog, x, s);
      assert Stamp(d, configurations, ExecutionStateChanged(x, s)) == Ok(ExecutionStateChanged(x, s));
      assert Valid() && x in executions;
      ghost var d1 := d.(board := WithState(d.board, x, s));
      assert x in d1.board.executions && Moved(d, x, s) == Pushed(d1, x, StateChanged(s));
      hide Valid, Live, Stamp, Accepts, Update, LiveGuard, Moved, Pushed, WithState;
      var recorded := RecordDomainEvent(ExecutionStateChanged(x, s));
      assert recorded.Ok? && executions == d1.board.executions;
      var pushed := PushEvent(x, StateChanged(s));
      assert pushed.Ok?;
    }

    /** The state change at the heart of every lifecycle operation. */
    method SetState(x: ExecutionId, s: ExecutionState, ghost busy: set<ExecutionId>) returns (r: Result<(), ConductorError>)
      requires Live()
      requires IsOrchestration(Project().board, x) ==> !s.Pending? && OutcomeJustified(Project().board, catalog, x, s)
      modifies this
      ensures Live() && Continues()
      ensures IsTerminal(s) || IsOrchestration(old(Project()).board, x) || !IsLive(old(Project()).board, x) ==>
        Cascades(old(Project()), Project(), RootOf(old(Project()).board, x))
      ensures x !in old(executions) ==> r == Err(UnknownExecution(x))
      ensures x in old(executions) && !IsLive(old(Project()).board, x) ==> r == Err(InvalidLifecycle(x))
      ensures !IsLive(old(Project()).board, x) ==> Project() == old(Project())
      ensures IsLive(old(Project()).board, x) ==> InState(Project().board, x, s)
      ensures r.Ok? ==> InState(Project().board, x, s) && SparesOthers(old(Project()).board, Project().board, x)
      ensures r.Ok? ==>
        Heeds(old(Project()).board, Project().board, {x}, if IsTerminal(s) then ParentOf(old(Project()).board, x) else {})
      ensures IsLive(old(Project()).board, x) && !IsTerminal(s) ==> r.Ok? && Project() == Moved(old(Project()), x, s)
      ensures r.Ok? && s.Failed? ==> Quelled(old(Project()).board, Project().board, x)
      ensures r.Ok? && Calm(old(Project()).board, catalog, busy) ==>
        && Calm(Project().board, catalog, if IsTerminal(s) then busy - {x} else busy + {x})
        && StartsUnder(old(Project()).board, Project().board, busy - {x} + ParentOf(old(Project()).board, x))
        && (s.Cancelled? || !IsAgent(old(Project()).board, x) ==> StartsUnder(old(Project()).board, Project().board, busy - {x}))
      ensures r.Ok? && s.Failed? && Calm(old(Project()).board, catalog, busy) && NobodyBelow(old(Project()).board, busy, x) ==>
        forall y :: ProperDescendant(Project().board, x, y) ==> !IsLive(Project().board, y)
      ensures IsLive(old(Project()).board, x) && IsTerminal(s) && !s.Failed? && Unawaited(old(Project()).board, x) ==>
        r.Ok? && Project().board == WithState(old(Project()).board, x, s)
      ensures IsLive(old(Project()).board, x) && IsTerminal(s) && Unheard(old(Project()).board, old(configurations), x, s) ==>
        r.Err? && Project().board == WithState(old(Project()).board, x, s)
      ensures IsLive(old(Project()).board, x) ==> NextEventIs(old(Project()), Project(), EventFor(old(Project()), x, StateChanged(s)))
      ensures IsLive(old(Project()).board, x) && IsTerminal(s) && r.Ok? && old(executions)[x].summary.parent.Some? ==>
        Tells(old(Project()), Project(), old(executions)[x].summary.parent.value, ChildExecutionFinished(x, s))
      ensures old(Healthy()) && IsLive(old(Project()).board, x) ==> r.Ok?
      ensures Explains(old(Project()), Project(), map[], {x})
      decreases LiveHere() - (if IsTerminal(s) then {x} else {}), if s.Failed? then 9 else 4
    {
      hide Live, Valid, Cascades, Calm, AllEquipped, Healthy, Moved, DurableInv, BoardInv, LiveInv, NodesApart, Lineage, Sequenced,
        LiveOrchestrations, RootOf, OutcomeJustified, Quelled, Undisturbed, Unawaited, AwaitedUnbound, InSubtree, IsOrchestration, IsChild, IsAgent,
        NextEventIs, Tells, StartsUnder, NobodyBelow, ParentOf, Evolves, OnlyBoardAndLog, Spares, SparesOthers, Below, Unheard, Heeds, Explains;
      ghost var d, root := Project(), RootOf(Project().board, x);
      CascadesReflexive(d, root);
      ExplainsNothing(d, map[], {x});
      if x !in executions {
        return Err(UnknownExecution(x));
      }
      var current, parent := executions[x].summary.state, executions[x].summary.parent;
      if IsTerminal(current) {
        return Err(InvalidLifecycle(x));
      }
      LiveFacts();
      MoveKeepsUnheard(d, configurations, x, s);
      if IsTerminal(s) { MoveOpens(d, catalog, busy, x, s); } else { MoveRuns(d, catalog, busy, x, s); }
      MoveExplains(d, x, s);
      Transition(x, s);
      LiveFacts();
      ghost var e := Project();
      if IsTerminal(s) {
        MoveCascades(d, x, s);
        StaysHealthy(root);
        r := FollowUp(x, s, parent, busy - {x});
        ExplainsMore(e, Project(), map[], map[], {}, {x});
        ExplainsThrough(d, e, Project(), root, map[], {x});
        MoveComesFirst(d, x, s, Project(), root);
        LiveFacts();
        MoveCloses(d, Project(), x, s);
        if r.Ok? { MoveSpares(d, Project(), catalog, busy - {x}, x, s); }
        if s.Failed? && r.Ok? && Calm(d.board, catalog, busy) { FailureEndsAllBelow(d, Project(), busy, x, root); }
      } else {
        CascadesReflexive(Project(), root);
        MoveComesFirst(d, x, s, Project(), root);
        r := Ok(());
      }
    }

    /** A cascade keeps the runtime healthy. */
    twostate lemma StaysHealthy(root: ExecutionId)
      requires Continues() && Cascades(old(Project()), Project(), root)
      ensures old(Healthy()) ==> Healthy()
    {
      if old(Healthy()) { CascadeKeepsEquipped(old(Project()), Project(), configurations, catalog, root); }
    }

    /** Cancels what is below a failed `x` and tells the parent of any ended `x`. */
    method FollowUp(x: ExecutionId, s: ExecutionState, parent: Option<ExecutionId>, ghost busy: set<ExecutionId>)
      returns (r: Result<(), ConductorError>)
      requires Live() && InState(Project().board, x, s) && IsTerminal(s) && Project().board.executions[x].summary.parent == parent
      requires x !in busy
      modifies this
      ensures Live() && Continues() && Cascades(old(Project()), Project(), RootOf(old(Project()).board, x))
      ensures r.Ok? ==> FollowsUp(old(Project()).board, Project().board, catalog, busy, x, s)
      ensures !s.Failed? && Unawaited(old(Project()).board, x) ==> r.Ok? && Project().board == old(Project()).board
      ensures Unheard(old(Project()).board, old(configurations), x, s) ==>
        r.Err? && Project().board == old(Project()).board
      ensures parent.Some? && (r.Ok? || !s.Failed?) ==> Tells(old(Project()), Project(), parent.value, ChildExecutionFinished(x, s))
      ensures old(Healthy()) ==> r.Ok?
      ensures Explains(old(Project()), Project(), map[], {})
      decreases LiveHere(), if s.Failed? then 8 else 3
    {
      hide NextEventIs, Tells, Live, Valid, Cascades, Calm, AllEquipped, Healthy, DurableInv, BoardInv, LiveInv, NodesApart, Lineage, Sequenced,
        LiveOrchestrations, RootOf, IsOrchestration, IsAgent, FollowsUp, CancelsBelow, Notifies, Waiting, Below, Explains;
      ghost var d, root := Project(), RootOf(Project().board, x);
      LiveFacts();
      CascadesReflexive(d, root);
      ExplainsNothing(d, map[], {});
      if s == Failed {
        r := CancelDescendants(x, Waiting(d.board, x, busy, Calm(d.board, catalog, busy)));
        CascadeEvolves(d, Project(), root);
        DescendantsAreBlamed(d, Project(), x);
        if r.Err? {
          return;
        }
      }
      ghost var e := Project();
      LiveFacts();
      if parent.Some? {
        FollowUpOpens(d, e, x, parent.value);
        CascadeEvolves(d, e, root);
        StaysHealthy(root);
        r := NotifyParent(x, s, parent.value, busy);
        ToldLater(d, e, Project(), root, parent.value, ChildExecutionFinished(x, s));
        LiveFacts();
        CascadesTransitive(d, e, Project(), root);
        ExplainsThrough(d, e, Project(), root, map[], {});
        if r.Ok? { FollowUpCloses(d, e, Project(), catalog, busy, x, s, parent.value, root); }
      } else {
        FollowUpOrphan(d.board, e.board, catalog, busy, x, s);
        r := Ok(());
      }
    }

    /** Cancels `x` unless it has ended. */
    method CancelOne(x: ExecutionId, cause: TerminationCause, ghost root: ExecutionId, ghost busy: set<ExecutionId>)
      returns (r: Result<(), ConductorError>)
      requires Live() && x in Project().board.executions && RootOf(Project().board, x) == root
      modifies this
      ensures Live() && Continues() && Cascades(old(Project()), Project(), root)
      ensures Explains(old(Project()), Project(), Given({x}, cause), {})
      ensures r.Ok? ==> Cancels(old(Project()).board, Project().board, catalog, busy, x)
      ensures if IsLive(old(Project()).board, x)
        then NextEventIs(old(Project()), Project(), EventFor(old(Project()), x, Terminated(cause)))
        else Project() == old(Project())
      ensures old(Healthy()) ==> r.Ok?
      decreases LiveHere(), 5
    {
      hide NextEventIs, Tells, Live, Valid, Cascades, Calm, AllEquipped, Healthy, DurableInv, BoardInv, LiveInv, NodesApart, Lineage, Sequenced,
        LiveOrchestrations, RootOf, IsOrchestration, IsAgent, Cancels, OutcomeJustified, Heeds, SparesOthers, NobodyBelow, Unheard, Explains, Given;
      ghost var d := Project();
      LiveFacts();
      CascadesReflexive(d, root);
      ExplainsNothing(d, Given({x}, cause), {});
      if IsTerminal(executions[x].summary.state) {
        EndedNeedsNoCancelling(d.board, catalog, busy, x);
        return Ok(());
      }
      PushCascades(d, x, Terminated(cause), root);
      CancelIsJustified(d.board, catalog, x);
      var pushed := PushEvent(x, Terminated(cause));
      ghost var e := Project();
      StaysHealthy(root);
      r := SetState(x, Cancelled, busy);
      PushedComesFirst(d, x, Terminated(cause), Project(), root);
      EndIsTold(d, Project(), x, cause);
      CancelCloses(d, e, Project(), catalog, busy, x, root);
    }

    /** Cancels the live ones among `ids`, in the order of their ids. */
    method CancelExecutionSet(ids: set<ExecutionId>, cause: TerminationCause, ghost root: ExecutionId, ghost busy: set<ExecutionId>)
      returns (r: Result<(), ConductorError>)
      requires Live() && forall id :: id in ids ==> id in Project().board.executions && RootOf(Project().board, id) == root
      modifies this
      ensures Live() && Continues() && Cascades(old(Project()), Project(), root)
      ensures r.Ok? ==> CancelsSet(old(Project()).board, Project().board, catalog, busy, ids)
      ensures r.Ok? ==> AsksInTurn(old(Project()).board, Project().board, ids, ids)
      ensures ids == {} ==> r.Ok? && Project() == old(Project())
      ensures old(Healthy()) ==> r.Ok?
      ensures Explains(old(Project()), Project(), Given(ids, cause), {})
      decreases LiveHere(), 6
    {
      hide Live, Valid, Cascades, Calm, AllEquipped, Healthy, DurableInv, BoardInv, LiveInv, NodesApart, Lineage, Sequenced, LiveOrchestrations,
        RootOf, IsOrchestration, IsAgent, CancelsSet, Cancels, OutcomeJustified, InSubtree, IdOrder.IsFirst, IsLive, Evolves, AsksInTurn, Precede,
        Heeds, Spares, StartsUnder, Explains, Given;
      ghost var d := Project();
      LiveFacts();
      CascadesReflexive(d, root);
      var remaining := ids;
      ghost var done: set<ExecutionId> := {};
      NothingCancelled(d.board, catalog, busy);
      NothingAsked(d.board, ids);
      ExplainsNothing(d, Given(ids, cause), {});
      while remaining != {}
        invariant done + remaining == ids && Precede(done, remaining)
        invariant Live() && Continues() && Cascades(d, Project(), root)
        invariant CancelsSet(d.board, Project().board, catalog, busy, done) && AsksInTurn(d.board, Project().board, ids, done)
        invariant Explains(d, Project(), Given(ids, cause), {})
        invariant old(Healthy()) ==> Healthy()
        invariant ids == {} ==> Project() == d
        decreases |remaining|
      {
        IdOrder.FirstExists(remaining);
        var id :| id in remaining && IdOrder.IsFirst(id, remaining);
        ghost var e := Project();
        CancelOpens(d, e, id, root);
        CascadeEvolves(d, e, root);
        LiveFacts();
        r := CancelOne(id, cause, root, busy);
        OneMoreExplained(d, e, Project(), root, ids, cause, id);
        CascadesTransitive(d, e, Project(), root);
        if r.Err? {
          return;
        }
        CancelStep(d, e, Project(), catalog, busy, done, id, root);
        CancelAsksInTurn(d, e, Project(), catalog, busy, ids, done, remaining, id, root);
        remaining, done := remaining - {id}, done + {id};
        StaysHealthy(root);
      }
      assert done == ids;
      r := Ok(());
    }

    /** Cancels everything below a failed execution. */
    method CancelDescendants(x: ExecutionId, ghost busy: set<ExecutionId>) returns (r: Result<(), ConductorError>)
      requires Live() && x in Project().board.executions && !IsLive(Project().board, x)
      modifies this
      ensures Live() && Continues() && Cascades(old(Project()), Project(), RootOf(old(Project()).board, x))
      ensures r.Ok? ==> CancelsBelow(old(Project()).board, Project().board, catalog, busy, x)
      ensures Below(old(Project()).board, x) == {} ==> r.Ok? && Project() == old(Project())
      ensures old(Healthy()) ==> r.Ok?
      ensures Explains(old(Project()), Project(), Given(Below(old(Project()).board, x), AncestorFailure(x)), {})
      decreases LiveHere(), 7
    {
      hide Live, Valid, Cascades, Calm, AllEquipped, Healthy, DurableInv, BoardInv, LiveInv, NodesApart, Lineage, Sequenced, LiveOrchestrations,
        RootOf, IsOrchestration, IsAgent, CancelsSet, CancelsBelow, InSubtree, Explains, Given;
      ghost var b := Project().board;
      LiveFacts();
      var subtree := ExecutionSubtree(x);
      var descendants := subtree.value - {x};
      BelowMayBeCancelled(b, x, descendants);
      assert descendants == Below(b, x) by { SubtreeIsBelow(b, x); }
      r := CancelExecutionSet(descendants, AncestorFailure(x), RootOf(b, x), busy);
      if r.Ok? { BelowIsCancelled(b, Project().board, catalog, busy, x, descendants); }
    }

    /**
     Cancels an execution and everything below it.  When the live
     orchestrations below it were waiting, no execution of the subtree is live
     afterwards, whatever the rest of the board was doing; when all were
     waiting, they still are and nothing was started.
     */
    method CancelExecution(x: ExecutionId) returns (r: Result<(), ConductorError>)
      requires Live()
      modifies this
      ensures Live() && Continues() && Cascades(old(Project()), Project(), RootOf(old(Project()).board, x))
      ensures x !in old(Project()).board.executions ==> r == Err(UnknownExecution(x)) && Project() == old(Project())
      ensures r.Ok? ==> forall id :: InSubtree(old(Project()).board, x, id) ==> !IsLive(Project().board, id)
      ensures r.Ok? && SettledWithin(old(Project()).board, catalog, x) ==>
        forall id :: InSubtree(Project().board, x, id) ==> !IsLive(Project().board, id)
      ensures r.Ok? && Calm(old(Project()).board, catalog, {}) ==>
        Calm(Project().board, catalog, {}) && StartsNothing(old(Project()).board, Project().board)
      ensures r.Ok? ==> Spares(old(Project()).board, Project().board, {x} + Below(old(Project()).board, x))
      ensures r.Ok? ==>
        AsksInTurn(old(Project()).board, Project().board, {x} + Below(old(Project()).board, x), {x} + Below(old(Project()).board, x))
      ensures old(Healthy()) ==> Healthy() && (r.Ok? <==> x in old(executions))
      ensures Explains(old(Project()), Project(), Given({x} + Below(old(Project()).board, x), ExplicitCancellation(x)), {})
    {
      hide Live, Valid, Cascades, Calm, AllEquipped, Healthy, DurableInv, BoardInv, LiveInv, NodesApart, Lineage, SettledWithin, Sequenced,
        LiveOrchestrations, RootOf, IsOrchestration, IsAgent, InSubtree, StartsUnder, StartsNothing, BusyOutside, Spares, AsksInTurn, Explains,
        Given;
      ghost var d, root := Project(), RootOf(Project().board, x);
      ghost var busy := BusyOutside(d.board, catalog, x);
      LiveFacts();
      CascadesReflexive(d, root);
      var subtree := ExecutionSubtree(x);
      ExplainsNothing(d, Given({x} + Below(d.board, x), ExplicitCancellation(x)), {});
      if subtree.Err? {
        return Err(subtree.error);
      }
      BusyOutsideIsCalm(d.board, catalog, x);
      BelowMayBeCancelled(d.board, x, subtree.value);
      SubtreeIsBelow(d.board, x);
      assert subtree.value == {x} + Below(d.board, x);
      r := CancelExecutionSet(subtree.value, ExplicitCancellation(x), root, busy);
      StaysHealthy(root);
      LiveFacts();
      CascadeEvolves(d, Project(), root);
      if r.Ok? && SettledWithin(d.board, catalog, x) { WholeSubtreeEnded(d, Project(), busy, x, root); }
      if r.Ok? && Calm(d.board, catalog, {}) { StartsUnderNobody(d.board, Project().board); }
    }

    /** Tells a parent that its child ended and lets it act on that. */
    method NotifyParent(x: ExecutionId, s: ExecutionState, parent: ExecutionId, ghost busy: set<ExecutionId>)
      returns (r: Result<(), ConductorError>)
      requires Live() && parent in Project().board.executions
      modifies this
      ensures Live() && Continues() && Cascades(old(Project()), Project(), RootOf(old(Project()).board, parent))
      ensures r.Ok? ==> Notifies(old(Project()).board, Project().board, catalog, busy, parent)
      ensures LiveOrchestration(old(Project()).board, parent) && old(Project()).board.executions[parent].configRevision !in old(configurations)
        ==> r.Err? && Project().board == old(Project()).board
      ensures !LiveOrchestration(old(Project()).board, parent) ==> r.Ok? && Project().board == old(Project()).board
      ensures NextEventIs(old(Project()), Project(), EventFor(old(Project()), parent, ChildExecutionFinished(x, s)))
      ensures Tells(old(Project()), Project(), parent, ChildExecutionFinished(x, s))
      ensures old(Healthy()) ==> r.Ok?
      ensures Explains(old(Project()), Project(), map[], {})
      decreases LiveHere(), 2
    {
      hide NextEventIs, Tells, Live, Valid, Cascades, Calm, AllEquipped, Healthy, DurableInv, BoardInv, LiveInv, NodesApart, Lineage, Sequenced,
        LiveOrchestrations, RootOf, IsOrchestration, IsAgent, Notifies, Explains;
      ghost var d, root := Project(), RootOf(Project().board, parent);
      LiveFacts();
      PushCascades(d, parent, ChildExecutionFinished(x, s), root);
      var pushed := PushEvent(parent, ChildExecutionFinished(x, s));
      ghost var e := Project();
      StaysHealthy(root);
      r := RefreshOrchestration(parent, busy);
      PushedComesFirst(d, parent, ChildExecutionFinished(x, s), Project(), root);
      CascadesTransitive(d, e, Project(), root);
      PushExplains(d, parent, ChildExecutionFinished(x, s));
      ExplainsThrough(d, e, Project(), root, map[], {});
    }

    // -------------------------------------------------------------------------
    // Decisions and conclusions
    // -------------------------------------------------------------------------

    /** Records a decision and tells the frontend; a rejected one leaves no trace. */
    method RecordDecision(decision: DecisionRecord) returns (r: Result<(), ConductorError>)
      requires Live() && (IsInterface(Project().board, decision.failedChild) ==> decision.decision.Fail?)
      modifies this
      ensures Live() && Continues()
      ensures r.Ok? <==> AcceptsDecision(old(Project()).board, decision) && RetryBacked(old(Project()), decision)
      ensures r.Ok? ==> decision.parent in old(Project()).board.executions && Project() == Decided(old(Project()), decision)
      ensures r.Err? ==> Project() == old(Project()) && journal == old(journal)
    {
      ghost var d := Project();
      assert Valid() && Stamp(d, configurations, OrchestrationDecisionMade(decision)) == Ok(OrchestrationDecisionMade(decision));
      if AcceptsDecision(d.board, decision) && RetryBacked(d, decision) {
        DecisionIsAccepted(d, catalog, decision);
        assert decision.parent in d.board.executions && WithDecision(d.board, decision).executions == d.board.executions;
        assert Decided(d, decision) == Pushed(d.(board := WithDecision(d.board, decision)), decision.parent, DecisionMade(decision));
      }
      assert Accepts(d, OrchestrationDecisionMade(decision)) <==> AcceptsDecision(d.board, decision) && RetryBacked(d, decision);
      hide Valid, Live, Stamp, Accepts, Update, LiveGuard, AcceptsDecision, RetryBacked, Pushed, Decided, WithDecision;
      var _ :- RecordDomainEvent(OrchestrationDecisionMade(decision));
      assert decision.parent in executions;
      var pushed := PushEvent(decision.parent, DecisionMade(decision));
      assert pushed.Ok?;
      r := Ok(());
    }

    /** Decides to fail for `f` unless something was decided already. */
    method RecordFallbackFail(o: ExecutionId, f: ExecutionId, ghost busy: set<ExecutionId>) returns (r: Result<(), ConductorError>)
      requires Live() && IsFailedChildOf(Project().board, o, f) && o in Project().board.executions
      modifies this
      ensures Live() && Continues() && Prepared(old(Project()), Project(), catalog, busy, o)
      ensures r.Ok? ==> f in Project().board.decisions
      ensures f in old(Project()).board.decisions ==> Project() == old(Project())
      ensures r.Ok? && f !in old(Project()).board.decisions ==> DecidedFail(Project().board, f)
      ensures r.Ok? && f !in old(Project()).board.decisions ==>
        Project() == Decided(old(Project()), FallbackFail(o, f)) && Project().board.decisions[f] == DecisionRecord(o, f, None, Fail)
      ensures IsOrchestration(old(Project()).board, o) && InState(old(Project()).board, o, Running) ==> r.Ok?
    {
      hide Live, Valid, Prepared, BoardInv, DurableInv, LiveInv, NodesApart, Lineage, Sequenced, AcceptsDecision, RetryBacked, Decided;
      ghost var d := Project();
      LiveFacts();
      PreparedReflexive(d, catalog, busy, o);
      if f !in orchestrationDecisions {
        FallbackIsAccepted(d, o, f);
        if AcceptsDecision(d.board, FallbackFail(o, f)) {
          DecisionCascades(d, FallbackFail(o, f), o);
        }
        r := RecordDecision(FallbackFail(o, f));
        LiveFacts();
        if r.Ok? { FallbackPrepares(d, catalog, busy, o, f); }
      } else {
        r := Ok(());
      }
    }

    /** Ends an orchestration on its own account. */
    method Conclude(o: ExecutionId, s: ExecutionState, ghost busy: set<ExecutionId>) returns (r: Result<(), ConductorError>)
      requires Live() && LiveOrchestration(Project().board, o)
      requires IsTerminal(s) && OutcomeJustified(Project().board, catalog, o, s)
      modifies this
      ensures Live() && Continues() && Cascades(old(Project()), Project(), RootOf(old(Project()).board, o))
      ensures r.Ok? ==> Concludes(old(Project()).board, Project().board, catalog, busy, o, s)
      ensures old(Healthy()) ==> r.Ok?
      ensures Explains(old(Project()), Project(), map[], {})
      decreases LiveHere(), 0, 0
    {
      hide Live, Valid, Cascades, Calm, AllEquipped, Healthy, DurableInv, BoardInv, LiveInv, NodesApart, Lineage, Sequenced, RootOf,
        OutcomeJustified, Quelled, Heeds, SparesOthers, NextEventIs, Tells, NobodyBelow, Explains;
      ConclusionRests(Project().board, catalog, busy, o);
      assert o in LiveHere();
      ghost var d := Project();
      r := SetState(o, s, busy + {o});
      OrchestrationsAreExempt(d, Project(), map[], o);
    }

    /** Creates the agent that is to decide about the failure of `f`, ready to be bound. */
    method CreateInterfaceAgent(o: ExecutionId, f: ExecutionId, agent: CallableId)
      returns (r: Result<ExecutionSummary, ConductorError>, ghost record: ExecutionRecord)
      requires Live() && IsOrchestration(Project().board, o) && IsFailedChildOf(Project().board, o, f) && !IsInterfaceOf(Project().board, o, f)
      requires f !in Project().board.interfaces
      modifies this
      ensures Live() && Continues()
      ensures r.Ok? <==> RecoveryAllowed(old(Project()).board, o, agent, old(MayStart(o, agent, StartAgentNodeOperation)))
      ensures r.Ok? ==> InterfaceReady(old(Project()), Project(), catalog, o, agent, f, r.value.id, record)
      ensures r.Err? ==> Project() == old(Project()) && journal == old(journal)
    {
      ghost var d := Project();
      var objective := FailureInterfacePrompt(o, f, executions[f].summary.callable);
      record := executions[f];
      LiveFacts();
      assert RecoveryAllowed(d.board, o, agent, MayStart(o, agent, StartAgentNodeOperation)) ==> InState(d.board, o, Running);
      hide Live, Valid, BoardInv, DurableInv, LiveInv, NodesApart, Lineage, Sequenced, InterfaceReady, ChildRecorded, ChildSummary, IsFailedChildOf,
        IsInterfaceOf, IsOrchestration, RecoveryAllowed, MayStart, InState;
      r := CreateRecoveryAgent(o, agent, objective);
      if r.Ok? { record := InterfaceRecorded(d, Project(), catalog, o, agent, objective, f, r.value); }
    }

    /** Starts the agent that decides about the failure of `f`; on an error nothing has changed. */
    method StartFailureInterface(o: ExecutionId, f: ExecutionId, agent: CallableId)
      returns (r: Result<(), ConductorError>, ghost record: ExecutionRecord)
      requires Live() && IsOrchestration(Project().board, o) && IsFailedChildOf(Project().board, o, f) && !IsInterfaceOf(Project().board, o, f)
      modifies this
      ensures Live() && Continues()
      ensures f in old(Project()).board.interfaces ==> r.Ok? && Project() == old(Project())
      ensures f !in old(Project()).board.interfaces ==>
        (r.Ok? <==> RecoveryAllowed(old(Project()).board, o, agent, old(MayStart(o, agent, StartAgentNodeOperation))))
      ensures r.Ok? && f !in old(Project()).board.interfaces ==> InterfaceStarted(old(Project()), Project(), o, agent, f, record)
      ensures r.Err? ==> Project() == old(Project()) && journal == old(journal)
    {
      hide Live, Valid, InterfaceStarted, IsInterfaceOf, IsOrchestration, RecoveryAllowed, MayStart, Accepts, LiveGuard, Update, Announced;
      record := executions[f];
      if f in orchestrationInterfaces {
        return Ok(()), record;
      }
      var interface;
      interface, record := CreateInterfaceAgent(o, f, agent);
      if interface.Err? {
        return Err(interface.error), record;
      }
      r := RecordAndAnnounce(OrchestrationFailureInterfaceStarted(o, f, interface.value.id), o, interface.value.id);
    }

    /** Records a binding and then tells the frontend of the bound child. */
    method RecordAndAnnounce(event: DomainEvent, parentId: ExecutionId, childId: ExecutionId) returns (r: Result<(), ConductorError>)
      requires Live() && !event.ExecutionCreated? && Accepts(Project(), event) && LiveGuard(Project(), catalog, event)
      requires parentId in Project().board.executions && childId in Project().board.executions
      requires Update(Project(), event).board.executions == Project().board.executions
      modifies this
      ensures Live() && Continues() && r.Ok?
      ensures parentId in Update(old(Project()), event).board.executions && childId in Update(old(Project()), event).board.executions
      ensures Project() == Announced(Update(old(Project()), event), parentId, childId)
    {
      hide Live, Valid, Accepts, LiveGuard, Update, Announced;
      RecordLive(event);
      r := AnnounceChild(parentId, childId);
    }

    /** The failed child whose failure `interface` decides. */
    method FailedChildForInterface(interface: ExecutionId) returns (f: Option<ExecutionId>)
      ensures f.Some? ==> f.value in orchestrationInterfaces && orchestrationInterfaces[f.value] == interface
      ensures f.None? ==> !IsInterface(Project().board, interface)
    {
      var candidates := set x | x in orchestrationInterfaces && orchestrationInterfaces[x] == interface;
      if candidates == {} {
        assert forall x :: x in orchestrationInterfaces && orchestrationInterfaces[x] == interface ==> x in candidates;
        return None;
      }
      IdOrder.FirstExists(candidates);
      var first :| first in candidates && IdOrder.IsFirst(first, candidates);
      f := Some(first);
    }

    method FailForChild(o: ExecutionId, f: ExecutionId, ghost busy: set<ExecutionId>) returns (r: Result<(), ConductorError>)
      requires Live() && LiveOrchestration(Project().board, o)
      requires DefinitionOf(Project().board, catalog, o).Some? && MoveOf(Project().board, catalog, o) == FailFor(f)
      requires IsFailedChildOf(Project().board, o, f) && f !in Project().board.decisions
      modifies this
      ensures Live() && Continues() && Cascades(old(Project()), Project(), RootOf(old(Project()).board, o))
      ensures r.Ok? ==> Refreshes(old(Project()).board, Project().board, catalog, busy, o)
      ensures old(Healthy()) ==> r.Ok?
      ensures Explains(old(Project()), Project(), map[], {})
      decreases LiveHere(), 0, 1
    {
      hide Live, Valid, Cascades, Calm, AllEquipped, DurableInv, BoardInv, LiveInv, NodesApart, Lineage, Sequenced, LiveOrchestrations, RootOf,
        IsAgent, OutcomeJustified, Refreshes, MoveOf, Concludes, Healthy, DefinitionOf, Decided, FallbackFail, Explains;
      ghost var d := Project();
      LiveFacts();
      HealthyRuns(o);
      r := RecordFallbackFail(o, f, busy);
      PreparedKeeps(d, Project(), catalog, busy, o);
      if r.Err? {
        return;
      }
      ghost var e := Project();
      LiveFacts();
      UnboundFacts(e.board);
      PreparedKeepsContext(d, e, catalog, busy, o);
      FailIsJustified(e.board, catalog, o, f);
      StaysHealthy(RootOf(d.board, o));
      CascadeEvolves(d, e, RootOf(d.board, o));
      r := Conclude(o, Failed, busy);
      LiveFacts();
      PreparedConcludes(d, e, Project(), catalog, busy, o, Failed);
      if r.Ok? { FailForActs(d, e, Project(), catalog, busy, o, f); }
    }

    /** Fallback decisions for a failed interface and for the failure it was to decide. */
    method DecideForInterface(o: ExecutionId, interface: ExecutionId, ghost busy: set<ExecutionId>)
      returns (r: Result<(), ConductorError>, ghost original: ExecutionId)
      requires Live() && LiveOrchestration(Project().board, o)
      requires IsInterfaceOf(Project().board, o, interface) && InState(Project().board, interface, Failed)
      modifies this
      ensures Live() && Continues() && Prepared(old(Project()), Project(), catalog, busy, o)
      ensures r.Ok? ==> DecidedFail(Project().board, interface) && original in Project().board.decisions
      ensures original in old(Project()).board.interfaces && old(Project()).board.interfaces[original] == interface
        && IsChild(old(Project()).board, o, original)
      ensures old(Healthy()) ==> r.Ok?
    {
      hide Live, Valid, BoardInv, DurableInv, LiveInv, NodesApart, Lineage, Prepared, IsInterfaceOf, Sequenced, Healthy, InterfacesSound,
        InterfacesDistinct, InterfacesFailFinally, DecisionsSound, NodesSound, IsInterface, IsFailedChildOf, IsChild, IsAgent, DecidedFail, Decided,
        FallbackFail, NodesApart, AllEquipped, RootOf, Cascades, Calm;
      ghost var d := Project();
      LiveFacts();
      UnboundFacts(d.board);
      RoleFacts();
      FailedInterfaceFacts(d.board, o, interface);
      HealthyRuns(o);
      r := RecordFallbackFail(o, interface, busy);
      ghost var m := Project();
      LiveFacts();
      PreparedKeeps(d, m, catalog, busy, o);
      var failed := FailedChildForInterface(interface);
      original := failed.value;
      if r.Ok? {
        r := RecordFallbackFail(o, failed.value, busy);
        LiveFacts();
        PreparedTransitive(d, m, Project(), catalog, busy, o);
        PreparedKeeps(m, Project(), catalog, busy, o);
      }
    }

    method FailForInterfaceOf(o: ExecutionId, interface: ExecutionId, ghost busy: set<ExecutionId>) returns (r: Result<(), ConductorError>)
      requires Live() && LiveOrchestration(Project().board, o)
      requires DefinitionOf(Project().board, catalog, o).Some? && MoveOf(Project().board, catalog, o) == FailForInterface
      requires IsInterfaceOf(Project().board, o, interface) && InState(Project().board, interface, Failed)
      modifies this
      ensures Live() && Continues() && Cascades(old(Project()), Project(), RootOf(old(Project()).board, o))
      ensures r.Ok? ==> Refreshes(old(Project()).board, Project().board, catalog, busy, o)
      ensures old(Healthy()) ==> r.Ok?
      ensures Explains(old(Project()), Project(), map[], {})
      decreases LiveHere(), 0, 1
    {
      hide Live, Valid, Cascades, Calm, AllEquipped, DurableInv, BoardInv, LiveInv, NodesApart, Lineage, IsInterfaceOf, Sequenced,
        LiveOrchestrations, RootOf, OutcomeJustified, Refreshes, MoveOf, Concludes, Healthy, DefinitionOf, InterfacesSound, DecisionsSound,
        NodesSound, IsInterface, Prepared, Explains;
      ghost var d := Project();
      LiveFacts();
      UnboundFacts(d.board);
      InterfaceIsAnAgent(d.board, o, interface);
      ghost var original;
      r, original := DecideForInterface(o, interface, busy);
      ghost var e := Project();
      PreparedKeeps(d, e, catalog, busy, o);
      if r.Err? {
        return;
      }
      LiveFacts();
      UnboundFacts(e.board);
      PreparedKeepsContext(d, e, catalog, busy, o);
      FailIsJustified(e.board, catalog, o, interface);
      StaysHealthy(RootOf(d.board, o));
      CascadeEvolves(d, e, RootOf(d.board, o));
      r := Conclude(o, Failed, busy);
      LiveFacts();
      PreparedConcludes(d, e, Project(), catalog, busy, o, Failed);
      if r.Ok? { FailForInterfaceActs(d, e, Project(), catalog, busy, o, original); }
    }

    lemma RoleFacts()
      requires Live()
      ensures InterfacesDistinct(Project().board) && InterfacesFailFinally(Project().board)
    {
    }

    lemma HealthyRuns(o: ExecutionId)
      requires LiveOrchestration(Project().board, o)
      ensures Healthy() ==> InState(Project().board, o, Running)
    {
      if Healthy() {
        assert o in LiveOrchestrations(Project().board);
        assert Equipped(Project().board, configurations, catalog, o);
      }
    }

    /** The failure interfaces of an orchestration's children. */
    function InterfaceIds(o: ExecutionId): (ids: set<ExecutionId>)
      reads this
      ensures forall i :: i in ids <==> IsInterfaceOf(Project().board, o, i)
    {
      set f | f in orchestrationInterfaces && f in executions && executions[f].summary.parent == Some(o) :: orchestrationInterfaces[f]
    }

    /** The first failed interface, if any. */
    method FindFailedInterface(o: ExecutionId) returns (interface: Option<ExecutionId>)
      requires InterfacesSound(Project().board)
      ensures interface.Some? <==> InterfaceFailed(Project().board, o)
      ensures interface.Some? ==> IsInterfaceOf(Project().board, o, interface.value) && InState(Project().board, interface.value, Failed)
    {
      ghost var b := Project().board;
      var remaining := InterfaceIds(o);
      while remaining != {}
        invariant forall i :: i in remaining ==> IsInterfaceOf(b, o, i)
        invariant forall i :: IsInterfaceOf(b, o, i) && i !in remaining ==> !InState(b, i, Failed)
        decreases |remaining|
      {
        IdOrder.FirstExists(remaining);
        var id :| id in remaining && IdOrder.IsFirst(id, remaining);
        InterfaceIsAnAgent(b, o, id);
        if executions[id].summary.state == Failed {
          return Some(id);
        }
        remaining := remaining - {id};
      }
      interface := None;
      assert forall f :: f in b.interfaces && IsChild(b, o, f) ==> IsInterfaceOf(b, o, b.interfaces[f]);
    }

    /** The first failed agent that awaits a decision, if any. */
    method FindUndecided(o: ExecutionId) returns (failed: Option<ExecutionId>)
      ensures failed.None? <==> Undecided(Project().board, o) == {}
      ensures failed.Some? ==> failed.value == IdOrder.First(Undecided(Project().board, o))
      ensures failed.Some? ==>
        IsFailedChildOf(Project().board, o, failed.value) && !IsInterfaceOf(Project().board, o, failed.value)
        && failed.value !in orchestrationDecisions
    {
      ghost var b := Project().board;
      var interfaceIds := InterfaceIds(o);
      var remaining := set x | x in executions && executions[x].summary.parent == Some(o) && executions[x].summary.kind == Agent
        && executions[x].summary.state == Failed && x !in interfaceIds;
      while remaining != {}
        invariant Undecided(b, o) <= remaining
        invariant forall x :: x in remaining ==> IsFailedChildOf(b, o, x) && !IsInterfaceOf(b, o, x)
        decreases |remaining|
      {
        IdOrder.FirstExists(remaining);
        var id :| id in remaining && IdOrder.IsFirst(id, remaining);
        if id !in orchestrationDecisions {
          assert id in Undecided(b, o) && IdOrder.IsFirst(id, Undecided(b, o));
          IdOrder.FirstIsUnique(id, IdOrder.First(Undecided(b, o)), Undecided(b, o));
          return Some(id);
        }
        remaining := remaining - {id};
      }
      failed := None;
    }

    /** A healthy orchestration may start its nodes and its failure interface. */
    lemma HealthyMayStart(o: ExecutionId, callable: CallableId)
      requires Live() && Healthy() && LiveOrchestration(Project().board, o)
      requires DefinitionOf(Project().board, catalog, o).Some? && callable in NodeCallables(DefinitionOf(Project().board, catalog, o).value)
      ensures StartAllowed(Project(), o, callable, MayStart(o, callable, StartAgentNodeOperation))
      ensures RecoveryAllowed(Project().board, o, callable, MayStart(o, callable, StartAgentNodeOperation))
    {
      assert o in LiveOrchestrations(Project().board);
      assert Equipped(Project().board, configurations, catalog, o);
      LiveSessionIsOpen(o);
      BoundFacts(o);
      RegisteredNode(catalog[executions[o].configRevision].callables, executions[o].summary.callable.value, callable);
      hide Live, Valid, AllEquipped, OpenSession, NodeCallables, RegistryWellFormed, CatalogWellFormed;
    }

    lemma BoundFacts(o: ExecutionId)
      requires Live() && o in executions
      ensures CatalogWellFormed(catalog) && executions[o].configRevision in configRevisions
      ensures executions[o].configRevision in configurations ==>
        executions[o].configRevision in catalog && catalog[executions[o].configRevision] == configurations[executions[o].configRevision]
    {
    }

    method StartNode(o: ExecutionId, node: OrchestrationNode, objective: string, ghost d: Durable, ghost ready: seq<OrchestrationNode>,
                     ghost j: nat, ghost busy: set<ExecutionId>) returns (r: Result<(), ConductorError>)
      requires Live() && BoardInv(d.board) && IsOrchestration(d.board, o) && AllReady(d.board, catalog, o, ready)
      requires j < |ready| && node == ready[j] && StartedFrom(d, Project(), catalog, busy, o, ready, j)
      requires d.board.executions[o].payload == OrchestrationPayload(objective)
      modifies this
      ensures Live() && Continues()
      ensures StartedFrom(d, Project(), catalog, busy, o, ready, if r.Ok? then j + 1 else j)
      ensures old(Healthy()) && LiveOrchestration(d.board, o) ==> r.Ok?
    {
      hide Live, Valid, Cascades, Calm, AllEquipped, Healthy, DurableInv, BoardInv, LiveInv, NodesApart, Lineage, Sequenced, RootOf, AllReady,
        NodesStartedFrom, StartsUnder, StartedFrom, StartJustified, NodeStarted, AgentStarted, StartAllowed, MayStart;
      ghost var e := Project();
      LiveFacts();
      StepOpens(d, e, catalog, busy, o, ready, j);
      if Healthy() && LiveOrchestration(d.board, o) { HealthyMayStart(o, node.callable); }
      var text := match node.objective case Some(own) => NodePrompt(own, objective) case None => Text(objective);
      var child := StartAgentWithNode(o, node.callable, text, Some(node.id));
      if child.Ok? {
        LiveFacts();
        ghost var record: ExecutionRecord :| AgentStarted(e, Project(), o, node.callable, text, Some(node.id), record);
        OneMoreStep(d, e, Project(), catalog, busy, o, ready, j, text, record);
        r := Ok(());
      } else {
        r := Err(child.error);
      }
    }

    /** Starts the given ready nodes in order. */
    method StartNodes(o: ExecutionId, ready: seq<OrchestrationNode>, objective: string, ghost busy: set<ExecutionId>)
      returns (r: Result<(), ConductorError>)
      requires Live() && IsOrchestration(Project().board, o) && AllReady(Project().board, catalog, o, ready)
      requires executions[o].payload == OrchestrationPayload(objective)
      modifies this
      ensures Live() && Continues() && Cascades(old(Project()), Project(), RootOf(old(Project()).board, o))
      ensures StartsUnder(old(Project()).board, Project().board, {o})
      ensures Calm(old(Project()).board, catalog, busy + {o}) ==> Calm(Project().board, catalog, busy + {o})
      ensures r.Ok? ==> NodesStartedFrom(old(Project()).board, Project().board, o, ready)
      ensures old(Healthy()) && LiveOrchestration(old(Project()).board, o) ==> r.Ok?
      ensures Explains(old(Project()), Project(), map[], {})
    {
      hide Live, Valid, Cascades, Calm, AllEquipped, Healthy, DurableInv, BoardInv, LiveInv, NodesApart, Lineage, Sequenced, RootOf, AllReady,
        NodesStartedFrom, StartsUnder, StartedFrom, Explains;
      ghost var d := Project();
      LiveFacts();
      NothingStarted(d, catalog, busy, o, ready);
      for j := 0 to |ready|
        invariant Live() && Continues()
        invariant StartedFrom(d, Project(), catalog, busy, o, ready, j)
        invariant old(Healthy()) ==> Healthy()
      {
        r := StartNode(o, ready[j], objective, d, ready, j, busy);
        StartedFromFacts(d, Project(), catalog, busy, o, ready, if r.Ok? then j + 1 else j);
        if r.Err? {
          return;
        }
        StaysHealthy(RootOf(d.board, o));
      }
      r := Ok(());
      StartedFromFacts(d, Project(), catalog, busy, o, ready, |ready|);
    }

    /** The pinned definition of an orchestration, if its configuration is bound. */
    method LookUpDefinition(o: ExecutionId) returns (r: Result<OrchestrationDefinition, ConductorError>)
      requires Live() && IsOrchestration(Project().board, o)
      ensures DefinitionOf(Project().board, catalog, o).Some?
      ensures DependenciesFirst(DefinitionOf(Project().board, catalog, o).value.nodes)
      ensures r.Ok? ==> DefinitionOf(Project().board, catalog, o) == Some(r.value)
      ensures Project().board.executions[o].configRevision in configurations <==> r.Ok?
    {
      ShapeFacts(o);
      BoundFacts(o);
      var callable := executions[o].summary.callable.value;
      var configuration :- ConfigurationFor(o);
      var definition := OrchestrationCalled(configuration.callables, callable);
      hide Live, Valid, CatalogWellFormed, DependenciesFirst;
      assert definition.Ok?;
      r := Ok(definition.value);
    }

    lemma ShapeFacts(o: ExecutionId)
      requires Live() && IsOrchestration(Project().board, o)
      ensures executions[o].summary.callable.Some? && executions[o].payload.OrchestrationPayload?
      ensures DefinitionOf(Project().board, catalog, o).Some?
      ensures DependenciesFirst(DefinitionOf(Project().board, catalog, o).value.nodes)
    {
      ShapedRecord(Project().board, catalog, o);
      BoundFacts(o);
      assert RegistryWellFormed(catalog[executions[o].configRevision].callables);
      assert EntryWellFormed(catalog[executions[o].configRevision].callables, executions[o].summary.callable.value);
      hide Live, Valid;
    }

    lemma ShapedRecord(b: Board, catalog: Catalog, o: ExecutionId)
      requires Shaped(b, catalog) && IsOrchestration(b, o)
      ensures RecordShaped(catalog, b.executions[o])
    {
    }

    /** The nodes that are not started and whose dependencies are all completed, in the definition's order. */
    method SelectReady(nodes: seq<OrchestrationNode>, states: NodeStates) returns (ready: seq<OrchestrationNode>)
      requires forall i, j :: 0 <= i < j < |nodes| ==> nodes[i].id != nodes[j].id
      ensures ready == Selected(states, nodes)
      ensures forall j :: 0 <= j < |ready| ==> Ready(states, ready[j]) && ready[j] in nodes
      ensures forall j, k :: 0 <= j < k < |ready| ==> ready[j].id != ready[k].id
      ensures forall i :: 0 <= i < |nodes| && Ready(states, nodes[i]) ==> nodes[i] in ready
    {
      hide Ready;
      ready := [];
      for i := 0 to |nodes|
        invariant ready == Selected(states, nodes[..i])
      {
        assert nodes[..i + 1][..i] == nodes[..i];
        if Ready(states, nodes[i]) {
          ready := ready + [nodes[i]];
        }
      }
      assert nodes[..|nodes|] == nodes;
      SelectedFacts(states, nodes);
      hide Selected;
    }

    /** Starts every ready node, or completes an orchestration all of whose nodes are done. */
    method AdvanceOrchestration(o: ExecutionId, ghost busy: set<ExecutionId>) returns (r: Result<(), ConductorError>)
      requires Live() && IsOrchestration(Project().board, o)
      modifies this
      ensures Live() && Continues() && Cascades(old(Project()), Project(), RootOf(old(Project()).board, o))
      ensures !InState(old(Project()).board, o, Running) ==> r.Ok? && Project() == old(Project())
      ensures r.Ok? && InState(old(Project()).board, o, Running) && Unhindered(old(Project()).board, o) ==>
        Refreshes(old(Project()).board, Project().board, catalog, busy, o)
      ensures old(Healthy()) && LiveOrchestration(old(Project()).board, o) ==> r.Ok?
      ensures Explains(old(Project()), Project(), map[], {})
      decreases LiveHere(), 0, 3
    {
      hide Live, Valid, Cascades, Calm, AllEquipped, DurableInv, BoardInv, LiveInv, NodesApart, Lineage, Sequenced, LiveOrchestrations, RootOf,
        Refreshes, Healthy, DefinitionOf, Unhindered, DependenciesFirst, Explains;
      CascadesReflexive(Project(), RootOf(Project().board, o));
      ExplainsNothing(Project(), map[], {});
      ShapeFacts(o);
      var objective, state := executions[o].payload.objective, executions[o].summary.state;
      if state != Running {
        return Ok(());
      }
      EquippedFacts(o);
      var definition :- LookUpDefinition(o);
      r := StartOrComplete(o, definition, objective, busy);
    }

    /** A running orchestration starts its ready nodes; if it has none and all are done, it completes. */
    method StartOrComplete(o: ExecutionId, definition: OrchestrationDefinition, objective: string, ghost busy: set<ExecutionId>)
      returns (r: Result<(), ConductorError>)
      requires Live() && LiveOrchestration(Project().board, o) && InState(Project().board, o, Running)
      requires DefinitionOf(Project().board, catalog, o) == Some(definition) && DependenciesFirst(definition.nodes)
      requires executions[o].payload == OrchestrationPayload(objective)
      modifies this
      ensures Live() && Continues() && Cascades(old(Project()), Project(), RootOf(old(Project()).board, o))
      ensures r.Ok? && Unhindered(old(Project()).board, o) ==> Refreshes(old(Project()).board, Project().board, catalog, busy, o)
      ensures old(Healthy()) ==> r.Ok?
      ensures Explains(old(Project()), Project(), map[], {})
      decreases LiveHere(), 0, 2
    {
      hide Live, Valid, Cascades, Calm, AllEquipped, DurableInv, BoardInv, LiveInv, NodesApart, Lineage, Sequenced, LiveOrchestrations, RootOf,
        OutcomeJustified, Refreshes, MoveOf, Concludes, Healthy, DefinitionOf, AllReady, StartsAllReady, NodesStartedFrom, StartsUnder, SomeReady,
        AllDone, StatesMatch, Unhindered, DependenciesFirst, IsReady, DagSafe, Ready, Explains;
      ghost var b := Project().board;
      var states := ReadNodeStates(o);
      var ready := ReadyOf(o, definition, states);
      if Unhindered(b, o) { UnhinderedMove(b, catalog, o, definition); }
      if ready != [] {
        r := StartAllReady(o, definition, ready, objective, busy);
      } else {
        r := CompleteIfDone(o, definition, states, busy);
      }
    }

    method ReadyOf(o: ExecutionId, definition: OrchestrationDefinition, states: NodeStates) returns (ready: seq<OrchestrationNode>)
      requires DefinitionOf(Project().board, catalog, o) == Some(definition) && DependenciesFirst(definition.nodes)
      requires StatesMatch(Project().board, o, states)
      ensures AllReady(Project().board, catalog, o, ready) && StartsAllReady(Project().board, definition, o, ready)
      ensures ready != [] <==> SomeReady(Project().board, definition, o)
    {
      DistinctNodes(definition.nodes);
      hide *;
      ready := SelectReady(definition.nodes, states);
      ReadyNodes(Project().board, catalog, o, definition, states, ready);
    }

    method StartAllReady(o: ExecutionId, definition: OrchestrationDefinition, ready: seq<OrchestrationNode>, objective: string,
                         ghost busy: set<ExecutionId>) returns (r: Result<(), ConductorError>)
      requires Live() && LiveOrchestration(Project().board, o) && InState(Project().board, o, Running)
      requires DefinitionOf(Project().board, catalog, o) == Some(definition)
      requires AllReady(Project().board, catalog, o, ready) && StartsAllReady(Project().board, definition, o, ready)
      requires executions[o].payload == OrchestrationPayload(objective)
      modifies this
      ensures Live() && Continues() && Cascades(old(Project()), Project(), RootOf(old(Project()).board, o))
      ensures r.Ok? && MoveOf(old(Project()).board, catalog, o).StartNodes? ==> Refreshes(old(Project()).board, Project().board, catalog, busy, o)
      ensures old(Healthy()) ==> r.Ok?
      ensures Explains(old(Project()), Project(), map[], {})
    {
      hide Live, Valid, Cascades, Calm, AllEquipped, DurableInv, BoardInv, LiveInv, NodesApart, Lineage, Sequenced, LiveOrchestrations, RootOf,
        OutcomeJustified, Refreshes, MoveOf, Concludes, Healthy, DefinitionOf, AllReady, StartsAllReady, NodesStartedFrom, StartsUnder, SomeReady,
        AllDone, StatesMatch, Unhindered, DependenciesFirst, IsReady, DagSafe, Ready, Explains;
      ghost var d := Project();
      LiveFacts();
      r := StartNodes(o, ready, objective, busy);
      LiveFacts();
      CascadeEvolves(d, Project(), RootOf(d.board, o));
      if r.Ok? && MoveOf(d.board, catalog, o).StartNodes? { NodesRefresh(d, Project(), catalog, busy, o, ready); }
    }

    method CompleteIfDone(o: ExecutionId, definition: OrchestrationDefinition, states: NodeStates, ghost busy: set<ExecutionId>)
      returns (r: Result<(), ConductorError>)
      requires Live() && LiveOrchestration(Project().board, o)
      requires DefinitionOf(Project().board, catalog, o) == Some(definition) && DependenciesFirst(definition.nodes)
      requires StatesMatch(Project().board, o, states)
      modifies this
      ensures Live() && Continues() && Cascades(old(Project()), Project(), RootOf(old(Project()).board, o))
      ensures r.Ok? && MoveOf(old(Project()).board, catalog, o) == (if AllDone(old(Project()).board, definition, o) then Move.Conclude(Completed) else Wait) ==>
        Refreshes(old(Project()).board, Project().board, catalog, busy, o)
      ensures old(Healthy()) ==> r.Ok?
      ensures Explains(old(Project()), Project(), map[], {})
      decreases LiveHere(), 0, 1
    {
      hide Live, Valid, Cascades, Calm, AllEquipped, DurableInv, BoardInv, LiveInv, NodesApart, Lineage, Sequenced, LiveOrchestrations, RootOf,
        OutcomeJustified, Refreshes, MoveOf, Concludes, Healthy, DefinitionOf, AllReady, StartsAllReady, NodesStartedFrom, StartsUnder, SomeReady,
        AllDone, StatesMatch, Unhindered, DependenciesFirst, IsReady, DagSafe, Ready, Explains;
      ghost var b := Project().board;
      LiveFacts();
      CascadesReflexive(Project(), RootOf(b, o));
      ExplainsNothing(Project(), map[], {});
      DagFacts();
      CountTells(b, catalog, o, definition, states);
      if |states| == |definition.nodes| && forall node :: node in states ==> states[node] == Completed {
        CompletedIsJustified(b, catalog, o, definition);
        r := Conclude(o, Completed, busy);
        LiveFacts();
        if r.Ok? && MoveOf(b, catalog, o) == Move.Conclude(Completed) { ConcludeActs(b, Project().board, catalog, busy, o, Completed); }
      } else {
        if MoveOf(b, catalog, o).Wait? { WaitActs(b, catalog, busy, o); }
        r := Ok(());
      }
    }

    lemma EquippedFacts(o: ExecutionId)
      requires IsOrchestration(Project().board, o) && IsLive(Project().board, o)
      ensures Healthy() ==> Project().board.executions[o].configRevision in configurations
    {
      if Healthy() {
        assert o in LiveOrchestrations(Project().board);
        assert Equipped(Project().board, configurations, catalog, o);
      }
    }

    lemma DagFacts()
      requires Live()
      ensures DagSafe(Project().board, catalog) && RolesApart(Project().board)
    {
    }

    lemma DistinctNodes(nodes: seq<OrchestrationNode>)
      requires DependenciesFirst(nodes)
      ensures forall i, j :: 0 <= i < j < |nodes| ==> nodes[i].id != nodes[j].id
    {
    }

    method ReadNodeStates(o: ExecutionId) returns (states: NodeStates)
      requires Live()
      ensures StatesMatch(Project().board, o, states)
    {
      LiveFacts();
      var read := OrchestrationNodeStates(o);
      states := read.value;
    }

    /** Deals with a failed agent that awaits a decision. */
    method HandleUndecided(o: ExecutionId, f: ExecutionId, definition: OrchestrationDefinition, ghost busy: set<ExecutionId>)
      returns (r: Result<(), ConductorError>)
      requires Live() && LiveOrchestration(Project().board, o)
      requires DefinitionOf(Project().board, catalog, o) == Some(definition)
      requires MoveOf(Project().board, catalog, o) == MoveForUndecided(Project().board, definition, f)
      requires IsFailedChildOf(Project().board, o, f) && !IsInterfaceOf(Project().board, o, f) && f !in Project().board.decisions
      modifies this
      ensures Live() && Continues() && Cascades(old(Project()), Project(), RootOf(old(Project()).board, o))
      ensures r.Ok? ==> Refreshes(old(Project()).board, Project().board, catalog, busy, o)
      ensures old(Healthy()) ==> r.Ok?
      ensures Explains(old(Project()), Project(), map[], {})
      decreases LiveHere(), 0, 2
    {
      hide Live, Valid, Cascades, Calm, AllEquipped, DurableInv, BoardInv, LiveInv, NodesApart, Lineage, Sequenced, LiveOrchestrations, RootOf,
        Refreshes, MoveOf, Healthy, DefinitionOf, InterfacesSound, DecisionsSound, NodesSound, InterfaceStarted, RecoveryAllowed, IsInterfaceOf,
        MayStart, StartAllowed, Explains;
      ghost var d := Project();
      LiveFacts();
      UnboundFacts(d.board);
      CascadesReflexive(d, RootOf(d.board, o));
      ExplainsNothing(d, map[], {});
      if definition.interfaceAgent.None? {
        r := FailForChild(o, f, busy);
        return;
      }
      if f in orchestrationInterfaces {
        var interface := orchestrationInterfaces[f];
        BoundInterfaceExists(d.board, f);
        if IsTerminal(executions[interface].summary.state) {
          r := FailForChild(o, f, busy);
        } else {
          WaitActs(d.board, catalog, busy, o);
          r := Ok(());
        }
        return;
      }
      var agent := definition.interfaceAgent.value;
      if Healthy() { HealthyMayStart(o, agent); }
      ghost var record;
      r, record := StartFailureInterface(o, f, agent);
      if r.Ok? {
        LiveFacts();
        InterfaceExplains(d, Project(), o, agent, f, record);
        InterfaceRefreshes(d, Project(), catalog, busy, o, agent, f, record);
      }
    }

    lemma BoundInterfaceExists(b: Board, f: ExecutionId)
      requires InterfacesSound(b) && f in b.interfaces
      ensures b.interfaces[f] in b.executions
    {
      assert InterfaceSound(b, f);
    }

    /**
     Lets a live orchestration do its next move.  What it does is `Acted`
     for `MoveOf`; whoever was waiting before still waits, and so does the
     orchestration itself.
     */
    method RefreshOrchestration(o: ExecutionId, ghost busy: set<ExecutionId>) returns (r: Result<(), ConductorError>)
      requires Live()
      modifies this
      ensures Live() && Continues() && Cascades(old(Project()), Project(), RootOf(old(Project()).board, o))
      ensures o !in old(Project()).board.executions ==> r == Err(UnknownExecution(o))
      ensures !LiveOrchestration(old(Project()).board, o) ==> Project() == old(Project())
      ensures r.Ok? && LiveOrchestration(old(Project()).board, o) ==> Refreshes(old(Project()).board, Project().board, catalog, busy, o)
      ensures r.Ok? ==> Notifies(old(Project()).board, Project().board, catalog, busy, o)
      ensures LiveOrchestration(old(Project()).board, o) && old(Project()).board.executions[o].configRevision !in old(configurations) ==>
        r.Err? && Project() == old(Project())
      ensures o in old(Project()).board.executions && !LiveOrchestration(old(Project()).board, o) ==> r.Ok?
      ensures old(Healthy()) && o in old(Project()).board.executions ==> r.Ok?
      ensures Explains(old(Project()), Project(), map[], {})
      decreases LiveHere(), 1
    {
      hide Live, Valid, Cascades, Calm, AllEquipped, DurableInv, BoardInv, LiveInv, NodesApart, Lineage, Sequenced, LiveOrchestrations, RootOf,
        OutcomeJustified, Healthy, DefinitionOf, StatesMatch, Unhindered, DependenciesFirst, DagSafe, RolesApart, InterfaceFailed, Undecided,
        InterfacesSound, DecisionsSound, NodesSound, IsInterfaceOf, MoveOf, Notifies, Acted, Concludes, MoveForUndecided, StartsUnder, Explains;
      ghost var d := Project();
      LiveFacts();
      UnboundFacts(d.board);
      CascadesReflexive(d, RootOf(d.board, o));
      ExplainsNothing(d, map[], {});
      if o !in executions {
        return Err(UnknownExecution(o));
      }
      var orchestration := executions[o].summary;
      if orchestration.kind != Orchestration || IsTerminal(orchestration.state) {
        IdleNotifies(d.board, catalog, busy, o);
        return Ok(());
      }
      EquippedFacts(o);
      var definition :- LookUpDefinition(o);
      var interface := FindFailedInterface(o);
      if interface.Some? {
        InterfaceMove(d.board, catalog, o);
        r := FailForInterfaceOf(o, interface.value, busy);
        return;
      }
      var failed := FindUndecided(o);
      if failed.Some? {
        assert Undecided(d.board, o) != {};
        UndecidedMove(d.board, catalog, o, definition, failed.value);
        r := HandleUndecided(o, failed.value, definition, busy);
        return;
      }
      r := RefreshByNodes(o, definition, busy);
    }

    /** Concludes on the state of the nodes, or else advances. */
    method RefreshByNodes(o: ExecutionId, definition: OrchestrationDefinition, ghost busy: set<ExecutionId>)
      returns (r: Result<(), ConductorError>)
      requires Live() && LiveOrchestration(Project().board, o)
      requires DefinitionOf(Project().board, catalog, o) == Some(definition)
      requires !InterfaceFailed(Project().board, o) && Undecided(Project().board, o) == {}
      modifies this
      ensures Live() && Continues() && Cascades(old(Project()), Project(), RootOf(old(Project()).board, o))
      ensures r.Ok? ==> Refreshes(old(Project()).board, Project().board, catalog, busy, o)
      ensures old(Healthy()) ==> r.Ok?
      ensures Explains(old(Project()), Project(), map[], {})
      decreases LiveHere(), 0, 4
    {
      hide Live, Valid, Cascades, Calm, AllEquipped, DurableInv, BoardInv, LiveInv, NodesApart, Lineage, Sequenced, LiveOrchestrations, RootOf,
        OutcomeJustified, Refreshes, Healthy, DefinitionOf, StatesMatch, Unhindered, DagSafe, RolesApart, InterfaceFailed, Undecided, MoveOf,
        Concludes, Explains;
      ghost var d := Project();
      LiveFacts();
      DagFacts();
      var states := ReadNodeStates(o);
      HinderedMove(d.board, catalog, o, states);
      HinderedIsJustified(d.board, catalog, o, states);
      if Failed in states.Values || Cancelled in states.Values || Interrupted in states.Values {
        var s := if Failed in states.Values then Failed else if Cancelled in states.Values then Cancelled else Interrupted;
        r := Conclude(o, s, busy);
        LiveFacts();
        if r.Ok? { ConcludeActs(d.board, Project().board, catalog, busy, o, s); }
      } else {
        r := AdvanceOrchestration(o, busy);
        if !InState(d.board, o, Running) {
          UnhinderedMove(d.board, catalog, o, definition);
          WaitActs(d.board, catalog, busy, o);
        }
      }
    }

    // -------------------------------------------------------------------------
    // Between operations
    // -------------------------------------------------------------------------

    /** Every live orchestration waits for a child, and the event log is up to date. */
    ghost predicate AtRest()
      reads this
    {
      Calm(Project().board, catalog, {}) && LogCurrent(Project())
    }

    /** A running orchestration of a runtime at rest has a live child. */
    lemma RunningHasALiveChild(o: ExecutionId)
      requires Live() && AtRest() && IsOrchestration(Project().board, o) && InState(Project().board, o, Running)
      ensures exists x :: IsChild(Project().board, o, x) && IsLive(Project().board, x)
    {
      CalmMakesProgress(Project().board, catalog, o);
      hide Live, Valid, Calm;
    }

    function EventsAfter(cursor: nat): seq<ExecutionEvent>
      reads this
    {
      EventsSince(events, cursor)
    }

    function Snapshot(): map<ExecutionId, ExecutionSummary>
      reads this
    {
      map x | x in executions :: executions[x].summary
    }

    /** A client that has tracked the events up to `cursor` and resumes from there sees the snapshot's states. */
    lemma ResumingClientIsUpToDate(cursor: nat)
      requires Live() && AtRest() && cursor <= nextEvent
      ensures EventsAfter(cursor) == events[cursor..] && |events| == nextEvent
      ensures Track(Track(map[], events[..cursor]), EventsAfter(cursor)) == map x | x in Snapshot() :: Snapshot()[x].state
    {
      LogFacts();
      EventsSinceIsTheSuffix(events, cursor);
      ResumedClientSeesTheSnapshot(Project(), cursor);
      hide Live, Valid;
    }

    lemma LogFacts()
      requires Live()
      ensures EventLogSound(Project())
    {
    }

    // -------------------------------------------------------------------------
    // A new runtime, and one restored from a journal
    // -------------------------------------------------------------------------

    /** A runtime with an empty journal; its first configuration registers nothing. */
    constructor (fingerprint: ConfigRevisionFingerprint, policy: (ExecutionId, CallableDescriptor, CallableOperation) -> bool)
      ensures Live() && AtRest() && Project() == Initial(1, fingerprint)
      ensures journal == RuntimeJournal(JOURNAL_FORMAT_VERSION, 1, fingerprint, [])
      ensures this.policy == policy && workspace == "workspace:in-memory"
      ensures configurations == map[1 := CompiledConfiguration(map[], fingerprint)] && catalog == configurations
      ensures AdmitsAll() ==> Healthy()
    {
      var configuration := CompiledConfiguration(map[], fingerprint);
      journal := RuntimeJournal(JOURNAL_FORMAT_VERSION, 1, fingerprint, []);
      workspace := "workspace:in-memory";
      configRevisions, configurations, configRevision := map[1 := fingerprint], map[1 := configuration], 1;
      sessions, executions, attemptGroups := map[], map[], map[];
      orchestrationDecisions, orchestrationInterfaces, orchestrationNodes := map[], map[], map[];
      resolvedRoutes, readSets, events := map[], map[], [];
      nextConfigRevision, nextSession, nextExecution, nextAttemptGroup, nextEvent, nextToolCall := 1, 0, 0, 0, 0, 0;
      this.policy := policy;
      catalog := map[1 := configuration];
      new;
      InitialIsSound(1, fingerprint);
      EmptyBoardIsSafe(catalog);
      assert Events(journal.entries) == [];
    }

    /**
     Rebuilds a runtime by replaying a journal.  Nothing is bound to the
     configuration revisions yet.  `history` stands for the configurations
     that the process that wrote the journal had bound.
     */
    constructor Restored(source: RuntimeJournal, policy: (ExecutionId, CallableDescriptor, CallableOperation) -> bool, ghost history: Catalog)
      ensures journal == source && configurations == map[] && catalog == history && this.policy == policy
      ensures Project() == Initial(source.configRevision, source.configFingerprint)
    {
      journal := source;
      workspace := "workspace:in-memory";
      configRevisions, configurations, configRevision := map[source.configRevision := source.configFingerprint], map[], source.configRevision;
      sessions, executions, attemptGroups := map[], map[], map[];
      orchestrationDecisions, orchestrationInterfaces, orchestrationNodes := map[], map[], map[];
      resolvedRoutes, readSets, events := map[], map[], [];
      nextConfigRevision, nextSession, nextExecution, nextAttemptGroup, nextEvent, nextToolCall := 1, 0, 0, 0, 0, 0;
      this.policy := policy;
      catalog := history;
    }

    /** Replays a journal; accepts exactly the well-formed journals that the fold accepts and ends in the fold's state. */
    static method Restore(source: RuntimeJournal, policy: (ExecutionId, CallableDescriptor, CallableOperation) -> bool, ghost history: Catalog)
      returns (r: Result<ConductorRuntime, JournalError>)
      requires ReplayJournal(source).Ok? ==> HistoryOf(history, ReplayJournal(source).value)
      ensures r.Ok? <==> source.formatVersion == JOURNAL_FORMAT_VERSION && Dense(source.entries) && ReplayJournal(source).Ok?
      ensures r.Ok? ==> fresh(r.value) && r.value.Valid() && r.value.Project() == ReplayJournal(source).value && r.value.journal == source
      ensures r.Ok? ==> r.value.configurations == map[] && r.value.catalog == history && r.value.policy == policy
      ensures r.Ok? && LiveJournal(source, history) ==> r.value.Live()
      ensures r.Ok? && Calm(r.value.Project().board, history, {}) && LogCurrent(r.value.Project()) ==> r.value.AtRest()
      ensures r.Ok? && AllEquipped(r.value.Project().board, history, history) ==> r.value.Provisioned()
    {
      var structure := ValidateStructure(source);
      if structure.Err? {
        return Err(structure.error);
      }
      var runtime := new ConductorRuntime.Restored(source, policy, history);
      ghost var start := Initial(source.configRevision, source.configFingerprint);
      InitialIsSound(source.configRevision, source.configFingerprint);
      var problem := runtime.ReplayEntries(source.entries);
      if problem.Err? {
        return Err(problem.error);
      }
      runtime.AdoptWorkspace();
      runtime.RestoredIsValid();
      r := Ok(runtime);
    }

    /** Applies entries one by one to a runtime in its initial state, stopping at the first rejected one. */
    method ReplayEntries(entries: seq<JournalEntry>) returns (r: Result<(), JournalError>)
      requires DurableInv(Project())
      modifies this
      ensures journal == old(journal) && configurations == old(configurations) && catalog == old(catalog)
      ensures r.Ok? <==> Replay(old(Project()), Events(entries)).Ok?
      ensures r.Ok? ==> Project() == Replay(old(Project()), Events(entries)).value
    {
      hide Accepts, Update, DurableInv, GroupsSound;
      ghost var start := Project();
      assert Events(entries[..0]) == [];
      for i := 0 to |entries|
        invariant journal == old(journal) && configurations == old(configurations) && catalog == old(catalog)
        invariant DurableInv(Project())
        invariant Replay(start, Events(entries[..i])) == Ok(Project())
      {
        ghost var d := Project();
        GroupFacts(d);
        assert entries[..i + 1] == entries[..i] + [entries[i]];
        EventsAppends(entries[..i], entries[i]);
        ReplayAppends(start, Events(entries[..i]), entries[i].event);
        r := ApplyDomainEvent(entries[i].event);
        if r.Err? {
          assert Events(entries)[..i + 1] == Events(entries[..i + 1]);
          RejectedPrefixRejects(start, Events(entries), i + 1);
          return;
        }
        StepKeepsDurable(d, entries[i].event);
      }
      assert entries[..|entries|] == entries;
      r := Ok(());
    }

    static lemma GroupFacts(d: Durable)
      requires DurableInv(d)
      ensures GroupsSound(d)
    {
    }

    /** The workspace of the first session, if there is one. */
    method AdoptWorkspace()
      modifies `workspace
      ensures sessions.Keys == {} ==> workspace == old(workspace)
      ensures forall first :: first in sessions && IdOrder.IsFirst(first, sessions.Keys) ==> workspace == sessions[first].workspace
    {
      if sessions.Keys != {} {
        IdOrder.FirstExists(sessions.Keys);
        var first :| first in sessions.Keys && IdOrder.IsFirst(first, sessions.Keys);
        workspace := sessions[first].workspace;
        forall other | other in sessions && IdOrder.IsFirst(other, sessions.Keys) ensures other == first {
          IdOrder.FirstIsUnique(other, first, sessions.Keys);
        }
      }
    }

    lemma RestoredIsValid()
      requires Recorded(journal, Project()) && Bound(Project(), configurations, catalog)
      ensures Valid() && (LiveJournal(journal, catalog) ==> Live())
    {
      var start := Initial(journal.configRevision, journal.configFingerprint);
      InitialIsSound(journal.configRevision, journal.configFingerprint);
      ReplayIsSound(start, Events(journal.entries));
      if LiveJournal(journal, catalog) {
        var n := |journal.entries|;
        EmptyBoardIsSafe(catalog);
        LiveRunIsSafe(start, catalog, Events(journal.entries), n);
        assert Events(journal.entries)[..n] == Events(journal.entries);
      }
    }

    /** Moves the runtime to a workspace, unless a session belongs to another one. */
    method BindWorkspace(workspaceId: WorkspaceId) returns (r: Result<(), ConductorError>)
      requires Live()
      modifies `workspace
      ensures Live() && Project() == old(Project())
      ensures (old(AtRest()) ==> AtRest()) && (old(Provisioned()) ==> Provisioned()) && (old(Healthy()) ==> Healthy())
      ensures r.Ok? <==> forall s :: s in sessions ==> sessions[s].workspace == workspaceId
      ensures r.Err? ==> exists s: SessionId ::
        && s in sessions && sessions[s].workspace != workspaceId && r == Err(WorkspaceMismatch(sessions[s].workspace, workspaceId))
        && forall other :: other in sessions && sessions[other].workspace != workspaceId && other != s ==> IdOrder.IdBefore(s, other)
      ensures workspace == if r.Ok? then workspaceId else old(workspace)
    {
      hide DurableInv, LiveInv, Recorded, Bound, LiveJournal, Calm, LogCurrent, AllEquipped;
      var strangers := set s | s in sessions && sessions[s].workspace != workspaceId;
      if strangers != {} {
        IdOrder.FirstExists(strangers);
        var first :| first in strangers && IdOrder.IsFirst(first, strangers);
        return Err(WorkspaceMismatch(sessions[first].workspace, workspaceId));
      }
      assert forall s :: s in sessions ==> s !in strangers;
      workspace := workspaceId;
      r := Ok(());
    }

    /** The sessions of other workspaces. */
    // -------------------------------------------------------------------------
    // Configuration revisions
    // -------------------------------------------------------------------------

    /** A run stays live, and whoever waited still waits, when the catalog grows. */
    lemma GrownCatalogIsLive(before: Catalog)
      requires Recorded(journal, Project()) && LiveJournal(journal, before)
      requires CatalogGrows(before, catalog) && Bound(Project(), configurations, catalog)
      ensures Live()
      ensures Calm(Project().board, before, {}) ==> Calm(Project().board, catalog, {})
    {
      LiveRunOutlivesCatalog(Initial(journal.configRevision, journal.configFingerprint), before, catalog, Events(journal.entries));
      RestoredIsValid();
      if Calm(Project().board, before, {}) { CalmOutlivesCatalog(Project().board, before, catalog); }
    }

    lemma LiveParts()
      requires Live()
      ensures Recorded(journal, Project()) && LiveJournal(journal, catalog) && Bound(Project(), configurations, catalog)
    {
    }

    static lemma BoundMore(d: Durable, configurations: Configurations, catalog: Catalog, revision: ConfigRevisionId, configuration: CompiledConfiguration)
      requires Bound(d, configurations, catalog) && RegistryWellFormed(configuration.callables) && revision in d.configRevisions
      requires configuration.fingerprint == d.configRevisions[revision] && (revision in catalog ==> catalog[revision] == configuration)
      ensures Bound(d, configurations[revision := configuration], catalog[revision := configuration])
      ensures CatalogGrows(catalog, catalog[revision := configuration])
    {
      hide RegistryWellFormed;
    }

    static lemma CalmOutlivesCatalog(b: Board, before: Catalog, after: Catalog)
      requires Calm(b, before, {}) && CatalogGrows(before, after)
      ensures Calm(b, after, {})
    {
      forall o | o in LiveOrchestrations(b) ensures Settled(b, after, o) {
        assert Settled(b, before, o);
        EvolvesReflexive(b);
        DefinitionIsStable(b, b, before, after, o);
      }
    }

    /** The revision is known and unbound, and the configuration has the fingerprint on record for it. */
    predicate Bindable(revision: ConfigRevisionId, configuration: CompiledConfiguration)
      reads this
    {
      revision in configRevisions && revision !in configurations && configuration.fingerprint == configRevisions[revision]
    }

    /**
     Binds a compiled configuration to a known, unbound revision.  Fingerprints
     are assumed to tell configurations apart.
     */
    method BindConfigurationRevision(revision: ConfigRevisionId, configuration: CompiledConfiguration) returns (r: Result<(), ConductorError>)
      requires Live() && RegistryWellFormed(configuration.callables)
      requires Bindable(revision, configuration) && revision in catalog ==> catalog[revision] == configuration
      modifies this
      ensures Live() && Project() == old(Project()) && journal == old(journal)
      ensures old(AtRest()) ==> AtRest()
      ensures r.Ok? <==> old(Bindable(revision, configuration))
      ensures configurations == if r.Ok? then old(configurations)[revision := configuration] else old(configurations)
      ensures workspace == old(workspace)
      ensures old(Healthy()) ==> Healthy()
      ensures old(Provisioned()) ==> Provisioned()
    {
      hide AllEquipped, Live, Valid, Recorded, LiveJournal, Bound, Calm, LogCurrent, CatalogGrows, RegistryWellFormed;
      if revision !in configRevisions {
        return Err(UnknownConfigRevision(revision));
      }
      if revision in configurations {
        return Err(ConfigRevisionAlreadyBound(revision));
      }
      if configuration.fingerprint != configRevisions[revision] {
        return Err(ConfigRevisionFingerprintMismatch(revision));
      }
      LiveParts();
      BoundMore(Project(), configurations, catalog, revision, configuration);
      ghost var before := catalog;
      configurations := configurations[revision := configuration];
      catalog := catalog[revision := configuration];
      GrownCatalogIsLive(before);
      if AllEquipped(Project().board, old(configurations), before) {
        MoreConfigurationsEquip(Project().board, old(configurations), configurations, before, catalog);
      }
      if AllEquipped(Project().board, before, before) { MoreConfigurationsEquip(Project().board, before, catalog, before, catalog); }
      r := Ok(());
    }

    /**
     Activates a new configuration revision; what already runs keeps its own.
     The next revision is free unless the journal started at a later one.
     */
    method ReloadConfiguration(configuration: CompiledConfiguration) returns (r: Result<ConfigRevisionId, ConductorError>)
      requires Live() && RegistryWellFormed(configuration.callables)
      modifies this
      ensures Live() && Project().board == old(Project()).board
      ensures old(AtRest()) ==> AtRest()
      ensures sessions == old(sessions) && nextSession == old(nextSession) && workspace == old(workspace)
      ensures r.Ok? <==> old(nextConfigRevision) + 1 !in old(configRevisions)
      ensures r.Ok? ==>
        configRevision == r.value == old(nextConfigRevision) + 1
        && configRevisions == old(configRevisions)[r.value := configuration.fingerprint]
        && configurations == old(configurations)[r.value := configuration]
      ensures r.Err? ==> Project() == old(Project()) && configurations == old(configurations)
      ensures old(Healthy()) ==> Healthy()
      ensures old(Provisioned()) ==> Provisioned()
    {
      hide AllEquipped, Live, Valid, Recorded, LiveJournal, Bound, Calm, LogAgrees, CatalogGrows, RegistryWellFormed, Accepts, Update, LiveGuard;
      var revision := nextConfigRevision + 1;
      var event := ConfigurationRevisionActivated(revision, configuration.fingerprint);
      LiveParts();
      ActivationEffect(revision, configuration.fingerprint);
      var recorded := RecordDomainEvent(event);
      if recorded.Err? {
        return Err(recorded.error);
      }
      LiveParts();
      BoundMore(Project(), configurations, catalog, revision, configuration);
      ghost var before := catalog;
      configurations := configurations[revision := configuration];
      catalog := catalog[revision := configuration];
      GrownCatalogIsLive(before);
      if AllEquipped(Project().board, old(configurations), before) {
        MoreConfigurationsEquip(Project().board, old(configurations), configurations, before, catalog);
      }
      if AllEquipped(Project().board, before, before) { MoreConfigurationsEquip(Project().board, before, catalog, before, catalog); }
      r := Ok(revision);
    }

    /** The next revision is accepted if it is unknown so far. */
    lemma ActivationEffect(revision: ConfigRevisionId, fingerprint: ConfigRevisionFingerprint)
      requires Live() && revision == nextConfigRevision + 1
      ensures var event := ConfigurationRevisionActivated(revision, fingerprint);
        && Valid() && LiveGuard(Project(), catalog, event) && Stamp(Project(), configurations, event) == Ok(event)
        && (Accepts(Project(), event) <==> revision !in configRevisions)
        && (Accepts(Project(), event) ==>
              && Update(Project(), event).board == Project().board && Update(Project(), event).events == events
              && Update(Project(), event).sessions == sessions && Update(Project(), event).nextSession == nextSession
              && Update(Project(), event).configRevisions == configRevisions[revision := fingerprint]
              && Update(Project(), event).currentConfigRevision == revision
              && revision !in catalog)
    {
    }

    // -------------------------------------------------------------------------
    // Sessions and new executions
    // -------------------------------------------------------------------------

    /** Recording an event that leaves board and log alone keeps a runtime at rest. */
    twostate lemma StaysAtRest()
      requires Continues() && Project().board == old(Project()).board && Project().events == old(Project()).events
      ensures old(AtRest()) ==> AtRest()
    {
    }

    /** Opens a session on the current configuration revision. */
    method CreateSession(parentSession: Option<SessionId>, name: Option<string>, target: ExecutionTarget)
      returns (r: Result<SessionSummary, ConductorError>)
      requires Live()
      modifies this
      ensures Live() && Continues()
      ensures old(AtRest()) ==> AtRest()
      ensures r.Ok? ==>
        r.value.id == old(nextSession) + 1 && r.value.configRevision == configRevision && OpenSession(Project(), r.value.id)
        && r.value.parentSession == parentSession && r.value.name == name && r.value.defaultTarget == target
        && (parentSession.Some? ==> parentSession.value in old(sessions) && r.value.workspace == old(sessions)[parentSession.value].workspace)
        && (parentSession.None? ==> r.value.workspace == workspace)
        && Project() == old(Project()).(sessions := old(sessions)[r.value.id := r.value], nextSession := r.value.id)
      ensures r.Err? ==> Project() == old(Project()) && journal == old(journal)
      ensures r.Ok? <==>
        configRevision in configurations
        && match parentSession
           case Some(parent) => parent in old(sessions)
           case None => forall id :: id in old(sessions) ==> old(sessions)[id].workspace == workspace
      ensures old(Healthy()) ==> Healthy()
    {
      hide Live, Valid, AtRest, Stamp, Accepts, Update, LiveGuard, SessionsSound, AllEquipped;
      BoundRevisions();
      var bound := BoundConfiguration(Project(), configurations, configRevision);
      if bound.Err? {
        return Err(bound.error);
      }
      if parentSession.Some? && parentSession.value !in sessions {
        return Err(UnknownSession(parentSession.value));
      }
      var workspaceId := if parentSession.Some? then sessions[parentSession.value].workspace else workspace;
      var session := SessionSummary(nextSession + 1, parentSession, name, workspaceId, configRevision, target, Active);
      SessionEffect(session);
      var recorded := RecordDomainEvent(SessionCreated(session));
      StaysAtRest();
      r := if recorded.Ok? then Ok(session) else Err(recorded.error);
    }

    lemma BoundRevisions()
      requires Live()
      ensures forall revision :: revision in configurations ==> revision in configRevisions
    {
    }

    /** A session on a known revision that takes the next id and the workspace of its parent, or else of all sessions. */
    predicate FitsIn(session: SessionSummary)
      reads this
    {
      && session.configRevision in configRevisions && session.state.Active? && session.id == nextSession + 1
      && match session.parentSession
         case Some(parent) => parent in sessions && sessions[parent].workspace == session.workspace
         case None => forall id :: id in sessions ==> sessions[id].workspace == session.workspace
    }

    lemma SessionEffect(session: SessionSummary)
      requires Live()
      ensures var event := SessionCreated(session);
        && Valid() && LiveGuard(Project(), catalog, event) && Stamp(Project(), configurations, event) == Ok(event)
        && (Accepts(Project(), event) <==> FitsIn(session))
        && (Accepts(Project(), event) ==>
              && Update(Project(), event).board == Project().board && Update(Project(), event).events == events
              && Update(Project(), event) == Project().(sessions := sessions[session.id := session], nextSession := session.id))
    {
      if sessions.Keys != {} {
        IdOrder.FirstExists(sessions.Keys);
        var first :| first in sessions.Keys && IdOrder.IsFirst(first, sessions.Keys);
      }
      hide IdOrder.IsFirst;
    }

    /** Closes a session unless one of its executions is still live. */
    method CloseSession(id: SessionId) returns (r: Result<SessionSummary, ConductorError>)
      requires Live()
      modifies this
      ensures Live() && Continues()
      ensures old(AtRest()) ==> AtRest()
      ensures r.Ok? <==> id in old(sessions) && (old(sessions)[id].state.Closed? || SessionQuiescent(old(Project()).board, id))
      ensures r.Ok? ==>
        r.value == old(sessions)[id].(state := Closed) && sessions == old(sessions)[id := r.value]
        && Project().board == old(Project()).board && events == old(events)
      ensures old(Healthy()) ==> Healthy()
      ensures (r.Ok? && old(sessions)[id].state.Closed?) || r.Err? ==> Project() == old(Project()) && journal == old(journal)
    {
      hide Live, Valid, AtRest, Stamp, Accepts, Update, LiveGuard, AllEquipped;
      if id !in sessions {
        return Err(UnknownSession(id));
      }
      var session := sessions[id];
      if session.state == Closed {
        return Ok(session);
      }
      if exists x :: x in executions && executions[x].summary.session == id && !IsTerminal(executions[x].summary.state) {
        return Err(SessionHasActiveExecutions(id));
      }
      CloseEffect(id);
      RecordLive(SessionClosed(id));
      StaysAtRest();
      r := Ok(sessions[id]);
    }

    lemma CloseEffect(id: SessionId)
      requires Live() && id in sessions && sessions[id].state.Active? && SessionQuiescent(Project().board, id)
      ensures var event := SessionClosed(id);
        && Accepts(Project(), event) && LiveGuard(Project(), catalog, event)
        && Update(Project(), event).board == Project().board && Update(Project(), event).events == events
        && Update(Project(), event).sessions == sessions[id := sessions[id].(state := Closed)]
    {
    }

    /** Records and announces a parentless execution; on an error nothing has changed. */
    method OpenRoot(x: ExecutionSummary, payload: JournalPayload, text: string)
      returns (r: Result<(), ConductorError>, ghost record: ExecutionRecord)
      requires Live() && x.id == nextExecution + 1 && x.parent.None? && x.state.Pending? && x.session in sessions
      requires x.kind.Orchestration? ==>
        payload.JournalOrchestration? && DefinitionIn(catalog, sessions[x.session].configRevision, x.callable).Some?
      modifies this
      ensures Live() && Continues()
      ensures r.Ok? <==> OpenSession(old(Project()), x.session) && Stamp(old(Project()), configurations, ExecutionCreated(x, payload)).Ok?
      ensures r.Ok? ==> RootOpened(old(Project()), Project(), x, payload, text, record) && Granted(old(Project()), configurations, Project(), x)
      ensures r.Ok? ==> GivesInput(old(Project()), x, payload, Project().board.executions[x.id].payload)
      ensures r.Err? ==> Project() == old(Project()) && journal == old(journal)
    {
      hide Live, Valid, BoardInv, DurableInv, LiveInv, NodesApart, Lineage, Sequenced, Stamp, Accepts, LiveGuard, Update, Pushed, OpenSession,
        DefinitionIn, WithExecution, MaterializedPayload, EffectiveAuthority, Entrusts, GivesInput;
      ghost var d := Project();
      LiveFacts();
      record := ExecutionRecord(x, payload.Plain(), payload.authority, 0);
      BoundCatalog();
      if Stamp(d, configurations, ExecutionCreated(x, payload)).Ok? {
        if OpenSession(d, x.session) {
          RootIsAccepted(d, configurations, catalog, x, payload);
          StampIsGranted(d, configurations, x, payload);
        } else {
          ClosedSessionRejects(d, configurations, x, payload);
        }
      }
      var recorded := RecordDomainEvent(ExecutionCreated(x, payload));
      if recorded.Err? {
        return recorded, record;
      }
      record := Project().board.executions[x.id];
      ghost var e := Project();
      PushLeavesBoard(e, x.id, UserInput(text));
      var started := PushEvent(x.id, UserInput(text));
      PushLeavesBoard(Project(), x.id, StateChanged(Pending));
      var pending := PushEvent(x.id, StateChanged(Pending));
      r := Ok(());
    }

    /** Sessions pin known revisions and share their workspace. */
    lemma SessionFacts()
      requires Live()
      ensures SessionsSound(Project())
      ensures forall id :: id in sessions ==> sessions[id].configRevision in configRevisions
    {
    }

    static lemma PushLeavesBoard(d: Durable, x: ExecutionId, kind: ExecutionEventKind)
      requires x in d.board.executions
      ensures Pushed(d, x, kind).board == d.board
    {
    }

    /** Submits user input as a new root execution. */
    method Submit(session: SessionId, text: string) returns (r: Result<ExecutionSummary, ConductorError>)
      requires Live()
      modifies this
      ensures Live() && Continues()
      ensures old(AtRest()) ==> AtRest()
      ensures r.Ok? <==>
        !IsBlank(text) && OpenSession(old(Project()), session) && old(sessions)[session].configRevision in configurations
      ensures old(Healthy()) ==> Healthy()
      ensures r.Ok? ==> exists record: ExecutionRecord ::
        RootOpened(old(Project()), Project(), r.value, JournalInvocation(Text(text), ExecutionAuthority.READ_ONLY), text, record)
      ensures r.Ok? ==>
        r.value == ExecutionSummary(old(nextExecution) + 1, session, None, Root, None, old(sessions)[session].defaultTarget, Pending)
      ensures r.Ok? ==>
        Granted(old(Project()), configurations, Project(), r.value)
        && GivesInput(old(Project()), r.value, JournalInvocation(Text(text), ExecutionAuthority.READ_ONLY),
                      Project().board.executions[r.value.id].payload)
      ensures r.Err? ==> Project() == old(Project()) && journal == old(journal)
    {
      hide Live, Valid, BoardInv, DurableInv, LiveInv, NodesApart, Lineage, Sequenced, Stamp, RootOpened, Calm, LogCurrent, IsBlank, Childless,
        Granted, AllEquipped, OthersEquipped, WithExecution;
      if IsBlank(text) {
        return Err(EmptyInput);
      }
      var _ :- EnsureSessionActive(session);
      var summary := ExecutionSummary(nextExecution + 1, session, None, Root, None, sessions[session].defaultTarget, Pending);
      var payload := JournalInvocation(Text(text), ExecutionAuthority.READ_ONLY);
      ghost var d := Project();
      LiveFacts();
      SessionFacts();
      RootIsStamped(d, configurations, summary, payload);
      var created;
      ghost var record;
      created, record := OpenRoot(summary, payload, text);
      if created.Err? {
        return Err(created.error);
      }
      RootOpenedFacts(d, Project(), catalog, summary, payload, text, record);
      if AllEquipped(d.board, configurations, catalog) { CreationLeavesEquipped(d.board, record, configurations, catalog); }
      if Calm(Project().board, catalog, {summary.id}) { NonOrchestrationIsCalm(Project().board, catalog, summary.id); }
      r := Ok(summary);
    }

    /** Starts an agent under a parent that delegates it. */
    method StartAgent(parentId: ExecutionId, callable: CallableId, objective: string) returns (r: Result<ExecutionSummary, ConductorError>)
      requires Live()
      modifies this
      ensures Live() && Continues()
      ensures old(AtRest()) ==> AtRest()
      ensures r.Ok? <==> StartAllowed(old(Project()), parentId, callable, old(MayStart(parentId, callable, StartAgentOperation)))
      ensures r.Ok? ==>
        r.value == ChildSummary(old(Project()).board, parentId, Agent, callable)
        && StartsUnder(old(Project()).board, Project().board, {parentId})
        && Within(old(Project()).board, Project().board, RootOf(old(Project()).board, parentId))
      ensures r.Ok? ==> exists record: ExecutionRecord ::
        AgentStarted(old(Project()), Project(), parentId, callable, Text(objective), None, record)
      ensures r.Err? ==>
        if !old(MayStart(parentId, callable, StartAgentOperation)) then
          NotAdmitted(policy, configurations, old(Project()), parentId, callable, StartAgentOperation, r.error)
        else NotDelegated(old(Project()), parentId, callable, r.error)
      ensures old(Healthy()) ==> Healthy()
      ensures r.Err? ==> Project() == old(Project()) && journal == old(journal)
    {
      hide Live, Valid, BoardInv, DurableInv, LiveInv, NodesApart, Lineage, Sequenced, AgentStarted, Calm, LogCurrent, StartAllowed, MayStart,
        ChildSummary, AllEquipped, OthersEquipped, WithExecution;
      ghost var d := Project();
      LiveFacts();
      r := StartAgentWithNode(parentId, callable, Text(objective), None);
      if r.Ok? {
        ghost var record: ExecutionRecord :|
          r.value == record.summary && AgentStarted(d, Project(), parentId, callable, Text(objective), None, record);
        StartedAgentFacts(d, Project(), catalog, parentId, callable, Text(objective), record);
        StartedAgentIsWithin(d.board, parentId, callable, record);
        if AllEquipped(d.board, configurations, catalog) { CreationLeavesEquipped(d.board, record, configurations, catalog); }
      }
    }

    static lemma StartedAgentIsWithin(b: Board, o: ExecutionId, callable: CallableId, record: ExecutionRecord)
      requires BoardInv(b) && o in b.executions && record.summary == ChildSummary(b, o, Agent, callable)
      ensures Within(b, WithExecution(b, record), RootOf(b, o))
    {
      BoardFacts(b);
      ChildIsWithin(b, record, o);
      hide BoardInv, RootOf, Within;
    }

    predicate NodeAdmitted(x: ExecutionId, configuration: CompiledConfiguration, callable: CallableId) {
      && IsAgentCallable(configuration.callables, callable)
      && policy(x, configuration.callables[callable].Descriptor(), StartAgentNodeOperation)
    }

    /** `callable` is an orchestration, and the policy admits that `x` starts it and what it may start. */
    ghost predicate PlanAdmitted(x: ExecutionId, configuration: CompiledConfiguration, callable: CallableId) {
      && callable in configuration.callables && configuration.callables[callable].OrchestrationEntry?
      && var definition := configuration.callables[callable].definition;
      && policy(x, definition.descriptor, StartOrchestrationOperation)
      && forall node :: node in NodeCallables(definition) ==> NodeAdmitted(x, configuration, node)
    }

    lemma PlanIsAdmitted(x: ExecutionId, configuration: CompiledConfiguration, callable: CallableId, definition: OrchestrationDefinition)
      requires callable in configuration.callables && configuration.callables[callable] == OrchestrationEntry(definition)
      requires policy(x, definition.descriptor, StartOrchestrationOperation)
      requires forall node :: node in NodeCallables(definition) ==> NodeAdmitted(x, configuration, node)
      ensures PlanAdmitted(x, configuration, callable)
    {
    }

    /** Checks the policy for every callable that an orchestration may start. */
    method CheckNodes(x: ExecutionId, configuration: CompiledConfiguration, definition: OrchestrationDefinition)
      returns (r: Result<(), ConductorError>)
      ensures r.Ok? <==> forall callable :: callable in NodeCallables(definition) ==> NodeAdmitted(x, configuration, callable)
    {
      for i := 0 to |definition.nodes|
        invariant forall j :: 0 <= j < i ==> NodeAdmitted(x, configuration, definition.nodes[j].callable)
      {
        assert definition.nodes[i].callable in NodeCallables(definition);
        var _ :- CheckNode(x, configuration, definition.nodes[i].callable);
      }
      if definition.interfaceAgent.Some? {
        var _ :- CheckNode(x, configuration, definition.interfaceAgent.value);
      }
      r := Ok(());
    }

    method CheckNode(x: ExecutionId, configuration: CompiledConfiguration, callable: CallableId) returns (r: Result<(), ConductorError>)
      ensures r.Ok? <==> NodeAdmitted(x, configuration, callable)
    {
      var descriptor := DescriptorOf(configuration.callables, callable);
      if descriptor.Err? {
        return Err(Registry(descriptor.error));
      }
      var provider := ExecutionProvider(configuration.callables, callable);
      if provider.Err? {
        return Err(Registry(provider.error));
      }
      r := if policy(x, descriptor.value, StartAgentNodeOperation) then Ok(()) else Err(PolicyDenied(x));
    }

    /** Of the nodes of `x` those that depend on nothing have been started. */
    ghost predicate FirstNodesRun(x: ExecutionId)
      reads this
    {
      && DefinitionOf(Project().board, catalog, x).Some?
      && FirstNodesPend(Project().board, DefinitionOf(Project().board, catalog, x).value, x)
    }

    /** Sets a new orchestration running and starts its first nodes. */
    method BeginOrchestration(x: ExecutionId) returns (r: Result<ExecutionSummary, ConductorError>)
      requires Live() && IsOrchestration(Project().board, x) && InState(Project().board, x, Pending) && Childless(Project().board, x)
      modifies this
      ensures Live() && Continues()
      ensures r.Ok? && Calm(old(Project()).board, catalog, {x}) && LogCurrent(old(Project())) ==> AtRest()
      ensures r.Ok? ==> x in executions && r.value == executions[x].summary && InState(Project().board, x, Running)
      ensures r.Ok? ==> FirstNodesRun(x) && StartsUnder(old(Project()).board, Project().board, {x})
      ensures r.Ok? ==> KeepsOthers(old(Project()).board, Project().board, x)
      ensures Cascades(old(Project()), Project(), RootOf(old(Project()).board, x))
      ensures old(HealthyExcept(x)) && Provided(old(Project()).board, configurations, catalog, x) ==> r.Ok? && Healthy()
    {
      hide Live, Valid, Cascades, Calm, AllEquipped, DurableInv, BoardInv, LiveInv, NodesApart, Lineage, Sequenced, LiveOrchestrations, RootOf,
        Quelled, InSubtree, Childless, Unhindered, Refreshes, LogCurrent, DependenciesFirst, DefinitionOf, SomeReady, AwaitedUnbound, Unawaited,
        OutcomeJustified, OthersEquipped, Provided, FirstNodesPend, Evolves, KeepsOthers, Heeds, SparesOthers, ParentOf, StartsUnder, NobodyBelow,
        Unheard, NextEventIs, Tells, IsAgent, Below, Explains;
      ghost var d, root := Project(), RootOf(Project().board, x);
      LiveFacts();
      RunningIsJustified(d.board, catalog, x);
      BeginRuns(d, x);
      if OthersEquipped(d.board, configurations, catalog, x) && Provided(d.board, configurations, catalog, x) {
        RunningEquips(d.board, x, configurations, catalog);
      }
      var running := SetState(x, Running, {x});
      ghost var e := Project();
      LiveFacts();
      var definition := FirstNodeReady(x);
      var advanced := AdvanceOrchestration(x, {});
      CascadesTransitive(d, e, Project(), root);
      if AllEquipped(e.board, configurations, catalog) { CascadeKeepsEquipped(e, Project(), configurations, catalog, root); }
      if advanced.Err? {
        return Err(advanced.error);
      }
      CascadeKeepsLog(d, Project(), root);
      AdvancedIsCalm(e.board, Project().board, catalog, x);
      StartedStaysRunning(e.board, Project().board, catalog, {}, x, definition);
      LiveFacts();
      FirstNodesStart(e.board, Project().board, catalog, {}, x, definition);
      MoveStartsNothing(d, Project(), x, Running);
      OthersStayAfterMove(d, Project(), x, Running);
      CascadeEvolves(e, Project(), root);
      DefinitionIsStable(e.board, Project().board, catalog, catalog, x);
      r := Ok(executions[x].summary);
    }

    static lemma OthersStayAfterMove(d: Durable, e: Durable, x: ExecutionId, s: ExecutionState)
      requires x in d.board.executions && KeepsOthers(Moved(d, x, s).board, e.board, x)
      ensures KeepsOthers(d.board, e.board, x)
    {
    }

    lemma FirstNodeReady(x: ExecutionId) returns (definition: OrchestrationDefinition)
      requires Live() && IsOrchestration(Project().board, x) && Childless(Project().board, x)
      ensures DefinitionOf(Project().board, catalog, x) == Some(definition) && SomeReady(Project().board, definition, x)
    {
      ShapeFacts(x);
      BoundFacts(x);
      definition := DefinitionOf(Project().board, catalog, x).value;
      assert RegistryWellFormed(catalog[executions[x].configRevision].callables);
      assert EntryWellFormed(catalog[executions[x].configRevision].callables, executions[x].summary.callable.value);
      hide Live, Valid;
      ChildlessHasReady(Project().board, catalog, x, definition);
    }

    /** The bound configuration of `x` registers `callable` as an orchestration. */
    predicate Offers(x: ExecutionId, callable: CallableId)
      reads this
    {
      && ConfigurationFor(x).Ok?
      && callable in ConfigurationFor(x).value.callables && ConfigurationFor(x).value.callables[callable].OrchestrationEntry?
    }

    /** `x` holds whatever an orchestration `callable` would start. */
    ghost predicate HoldsNodesOf(x: ExecutionId, callable: CallableId)
      reads this
    {
      Offers(x, callable) ==>
        x in executions && NodeCallables(ConfigurationFor(x).value.callables[callable].definition) <= executions[x].authority.callables
    }

    /**
     Whether `x` is given the tool that starts orchestrations while it is
     driven: roots are, if there are orchestrations, and others only if their
     configuration registers a tool under its id, which they may use unless it
     writes files and they may not.
     */
    predicate StartProvisioned(x: ExecutionId)
      reads this
    {
      && ConfigurationFor(x).Ok?
      && var callables := ConfigurationFor(x).value.callables;
      || (IsRoot(x) && HasOrchestrations(callables))
      || (&& RegistersStart(callables)
          && (callables[ORCHESTRATION_START].Descriptor().writesFiles ==> executions[x].authority.filesystem.Write?))
    }

    predicate IsRoot(x: ExecutionId)
      reads this
    {
      x in executions && executions[x].summary.kind.Root?
    }

    /** Where the id is reserved just roots start orchestrations, and no root has a parent. */
    lemma ReservedForRoots(x: ExecutionId)
      requires Live() && StartReserved(configurations) && StartProvisioned(x)
      ensures IsRoot(x) && executions[x].summary.parent.None?
    {
      hide RegistersStart;
      assert Shaped(Project().board, catalog);
    }

    /** Who is no root is given the tool only as one that its configuration registers, and one that writes files only if it may. */
    lemma OthersAreProvisioned(x: ExecutionId)
      requires Live() && ConfigurationFor(x).Ok? && !IsRoot(x)
      ensures var callables := ConfigurationFor(x).value.callables;
        StartProvisioned(x) <==>
          && ORCHESTRATION_START in callables && callables[ORCHESTRATION_START].ToolEntry?
          && (callables[ORCHESTRATION_START].descriptor.writesFiles ==> executions[x].authority.filesystem.Write?)
    {
      BoundCatalog();
      var callables := ConfigurationFor(x).value.callables;
      if ORCHESTRATION_START in callables { assert EntryWellFormed(callables, ORCHESTRATION_START); }
      hide RegistryWellFormed, DefinitionWellFormed, Live;
    }

    /** A root is given the tool, may start whatever its configuration offers and holds whatever that starts. */
    lemma RootMayPlan(x: ExecutionId, callable: CallableId)
      requires Live() && IsRoot(x)
      ensures HoldsNodesOf(x, callable)
      ensures Offers(x, callable) ==> StartProvisioned(x)
      ensures StartReserved(configurations) ==> (StartProvisioned(x) <==> exists c :: Offers(x, c))
      ensures Offers(x, callable) && IsLive(Project().board, x) ==> StartAllowed(Project(), x, callable, true)
    {
      assert Shaped(Project().board, catalog) && GrantsHeld(Project().board, catalog);
      BoundCatalog();
      if IsLive(Project().board, x) { LiveSessionIsOpen(x); }
      hide Live, RegistryWellFormed, NodeCallables, ConfiguredAuthority, OpenSession;
      if Offers(x, callable) { RootIsGranted(ConfigurationFor(x).value.callables, callable); }
      if ConfigurationFor(x).Ok? { OrchestrationsAreOffered(x); }
    }

    lemma OrchestrationsAreOffered(x: ExecutionId)
      requires ConfigurationFor(x).Ok? && RegistryWellFormed(ConfigurationFor(x).value.callables)
      ensures HasOrchestrations(ConfigurationFor(x).value.callables) <==> exists c :: Offers(x, c)
    {
      var callables := ConfigurationFor(x).value.callables;
      forall c | c in callables ensures callables[c].OrchestrationEntry? <==> callables[c].Descriptor().kind.OrchestrationCallable? {
        assert EntryWellFormed(callables, c);
      }
      hide RegistryWellFormed, DefinitionWellFormed;
      forall c | c in callables && callables[c].OrchestrationEntry? ensures Offers(x, c) {}
    }

    static lemma RootIsGranted(callables: Callables, id: CallableId)
      requires RegistryWellFormed(callables) && id in callables && callables[id].OrchestrationEntry?
      ensures ConfiguredAuthority(callables, Root, None).Ok? && id in ConfiguredAuthority(callables, Root, None).value.callables
      ensures NodeCallables(callables[id].definition) <= ConfiguredAuthority(callables, Root, None).value.callables
      ensures HasOrchestrations(callables)
    {
      ConfiguredAuthoritySuffices(callables, id);
      assert EntryWellFormed(callables, id);
      PermitsPointwise(ConfiguredAuthority(callables, Root, None).value, ConfiguredAuthority(callables, Orchestration, Some(id)).value);
      hide NodeCallables, ConfiguredAuthority;
    }

    /** Creates and announces an orchestration under a parent that delegates it; on an error nothing has changed. */
    method CreateOrchestration(parentId: ExecutionId, callable: CallableId, objective: string) returns (r: Result<ExecutionSummary, ConductorError>)
      requires Live()
      modifies this
      ensures Live() && Continues()
      ensures r.Ok? && Calm(old(Project()).board, catalog, {}) ==> Calm(Project().board, catalog, {r.value.id})
      ensures r.Ok? && LogCurrent(old(Project())) ==> LogCurrent(Project())
      ensures r.Ok? ==>
        r.value.id == old(nextExecution) + 1 && IsOrchestration(Project().board, r.value.id) && IsChild(Project().board, parentId, r.value.id)
        && InState(Project().board, r.value.id, Pending) && Childless(Project().board, r.value.id) && executions[r.value.id].summary == r.value
        && executions[r.value.id].payload == OrchestrationPayload(objective)
      ensures r.Err? ==> Project() == old(Project()) && journal == old(journal)
      ensures r.Ok? <==>
        && old(ConfigurationFor(parentId)).Ok? && PlanAdmitted(parentId, old(ConfigurationFor(parentId)).value, callable)
        && StartAllowed(old(Project()), parentId, callable, true)
      ensures old(Healthy()) ==> (r.Ok? <==> old(Offers(parentId, callable)) && StartAllowed(old(Project()), parentId, callable, true))
      ensures r.Ok? && old(Healthy()) ==> HealthyExcept(r.value.id)
      ensures r.Ok? ==>
        Within(old(Project()).board, Project().board, RootOf(old(Project()).board, parentId))
        && RootOf(Project().board, r.value.id) == RootOf(old(Project()).board, parentId)
        && OnlyBoardAndLog(old(Project()), Project())
      ensures r.Ok? && old(HoldsNodesOf(parentId, callable)) ==> Provided(Project().board, configurations, catalog, r.value.id)
      ensures r.Ok? ==> Project().board == WithExecution(old(Project()).board, executions[r.value.id])
      ensures r.Ok? ==>
        parentId in old(executions) && r.value == ChildSummary(old(Project()).board, parentId, Orchestration, callable)
        && Granted(old(Project()), configurations, Project(), r.value)
    {
      hide Live, Valid, BoardInv, DurableInv, LiveInv, NodesApart, Lineage, Sequenced, Stamp, Calm, LogCurrent, Childless, ChildCreated,
        DefinitionIn, ChildSummary, Granted, AllEquipped, OthersEquipped, Provided, NodeCallables, RegistryWellFormed, StartAllowed, WithExecution,
        OnlyBoardAndLog;
      var configuration :- ConfigurationFor(parentId);
      var definition := OrchestrationCalled(configuration.callables, callable);
      if definition.Err? {
        return Err(Registry(definition.error));
      }
      if !policy(parentId, definition.value.descriptor, StartOrchestrationOperation) {
        return Err(PolicyDenied(parentId));
      }
      ghost var d := Project();
      LiveFacts();
      BoundFacts(parentId);
      BoundCatalog();
      if Healthy() { AdmittedIfHealthy(parentId, configuration, callable); }
      var _ :- CheckNodes(parentId, configuration, definition.value);
      BoundDefinition(executions[parentId].configRevision, callable);
      var payload := JournalOrchestration(objective, ExecutionAuthority.READ_ONLY);
      NestedIsStamped(d, configurations, parentId, callable, payload);
      var child :- CreateChild(parentId, Orchestration, callable, payload);
      ghost var e := Project();
      ChildCreatedFacts(d, e, catalog, parentId, Orchestration, callable, payload, child);
      ChildOf(d, e, parentId, Orchestration, callable, payload, child);
      OrchestrationIsWithin(d.board, e.board, parentId, callable, child);
      if AllEquipped(d.board, configurations, catalog) { CreationLeavesEquipped(d.board, e.board.executions[child.id], configurations, catalog); }
      if old(HoldsNodesOf(parentId, callable)) { NestedIsProvided(d, e, configurations, catalog, parentId, callable, child); }
      r := Ok(child);
    }

    static lemma OrchestrationIsWithin(b: Board, c: Board, parent: ExecutionId, callable: CallableId, child: ExecutionSummary)
      requires BoardInv(b) && parent in b.executions && child == ChildSummary(b, parent, Orchestration, callable)
      requires child.id in c.executions && c.executions[child.id].summary == child && c == WithExecution(b, c.executions[child.id])
      ensures Within(b, c, RootOf(b, parent)) && RootOf(c, child.id) == RootOf(b, parent)
    {
      BoardFacts(b);
      ChildIsWithin(b, c.executions[child.id], parent);
      hide BoardInv, RootOf, Within, WithExecution;
    }

    /** Starts an orchestration under a parent that delegates it. */
    method StartOrchestration(parentId: ExecutionId, callable: CallableId, objective: string) returns (r: Result<ExecutionSummary, ConductorError>)
      requires Live()
      modifies this
      ensures Live() && Continues()
      ensures r.Ok? && old(AtRest()) ==> AtRest()
      ensures r.Ok? ==> r.value.id == old(nextExecution) + 1 && IsOrchestration(Project().board, r.value.id) && IsChild(Project().board, parentId, r.value.id)
      ensures r.Ok? ==> InState(Project().board, r.value.id, Running) && executions[r.value.id].payload == OrchestrationPayload(objective)
      ensures r.Ok? ==>
        parentId in old(executions) && executions[r.value.id].summary == r.value
        && r.value == ChildSummary(old(Project()).board, parentId, Orchestration, callable).(state := Running)
      ensures r.Ok? ==> FirstNodesRun(r.value.id) && OnlyBoardAndLog(old(Project()), Project())
      ensures r.Ok? ==>
        && old(ConfigurationFor(parentId)).Ok? && PlanAdmitted(parentId, old(ConfigurationFor(parentId)).value, callable)
        && StartAllowed(old(Project()), parentId, callable, true)
      ensures old(Healthy()) && old(HoldsNodesOf(parentId, callable)) ==>
        Healthy() && (r.Ok? <==> old(Offers(parentId, callable)) && StartAllowed(old(Project()), parentId, callable, true))
      ensures r.Ok? ==> Within(old(Project()).board, Project().board, RootOf(old(Project()).board, parentId))
      ensures r.Ok? ==> AddsPlan(old(Project()).board, Project().board, parentId, r.value.id)
      ensures r.Err? ==> Project() == old(Project()) || LeavesPlan(old(Project()), Project(), parentId, old(nextExecution) + 1)
      ensures old(Healthy()) && old(HoldsNodesOf(parentId, callable)) && r.Err? ==> Project() == old(Project()) && journal == old(journal)
    {
      hide Live, Valid, Calm, LogCurrent, Childless, Cascades, AllEquipped, OthersEquipped, Provided, StartAllowed, NodeCallables, Within, RootOf,
        BoardInv, LiveInv, DurableInv, NodesApart, Lineage, Sequenced, AddsPlan, WithExecution, KeepsOthers, StartsUnder, CreatesAgents, Evolves,
        PlanAdmitted, FirstNodesRun, ConfigurationFor;
      ghost var d := Project();
      LiveFacts();
      var child :- CreateOrchestration(parentId, callable, objective);
      ghost var e := Project();
      LiveFacts();
      r := BeginOrchestration(child.id);
      CascadeEvolves(e, Project(), RootOf(e.board, child.id));
      CascadeIsWithin(e, Project(), RootOf(e.board, child.id));
      CascadeOnlyLogs(d, e, Project(), RootOf(e.board, child.id));
      WithinTransitive(d.board, e.board, Project().board, RootOf(e.board, child.id));
      CascadeCreatesAgents(e, Project(), RootOf(e.board, child.id));
      StaysThePlan(e.board, Project().board, parentId, child.id);
      NextIsNew(d.board);
      if r.Ok? { PlanIsAdded(d.board, e.board, Project().board, parentId, child.id); }
    }

    /** The orchestration `x` of `parent` was created, and whatever else has changed is within its tree. */
    static ghost predicate LeavesPlan(d: Durable, e: Durable, parent: ExecutionId, x: ExecutionId) {
      && IsOrchestration(e.board, x) && IsChild(e.board, parent, x) && x !in d.board.executions
      && Within(d.board, e.board, RootOf(d.board, parent)) && OnlyBoardAndLog(d, e)
    }

    static lemma NextIsNew(b: Board)
      requires Sequenced(b)
      ensures b.nextExecution + 1 !in b.executions
    {
    }

    static lemma StaysThePlan(b: Board, c: Board, parent: ExecutionId, x: ExecutionId)
      requires Evolves(b, c) && IsOrchestration(b, x) && IsChild(b, parent, x)
      ensures IsOrchestration(c, x) && IsChild(c, parent, x) && SameIdentity(b.executions[x], c.executions[x])
    {
    }

    lemma BoundDefinition(revision: ConfigRevisionId, callable: CallableId)
      requires revision in configurations ==> revision in catalog && catalog[revision] == configurations[revision]
      requires revision in configurations && callable in configurations[revision].callables
        && configurations[revision].callables[callable].OrchestrationEntry?
      ensures DefinitionIn(catalog, revision, Some(callable)).Some?
    {
    }

    static lemma ChildOf(d: Durable, e: Durable, parent: ExecutionId, kind: ExecutionKind, callable: CallableId, payload: JournalPayload,
                         child: ExecutionSummary)
      requires ChildCreated(d, e, parent, kind, callable, payload, child) && child.id in e.board.executions
      requires e.board.executions[child.id].summary == child
      ensures IsChild(e.board, parent, child.id) && parent in d.board.executions && child == ChildSummary(d.board, parent, kind, callable)
      ensures e.board.executions[child.id].configRevision == d.board.executions[parent].configRevision
      ensures OnlyBoardAndLog(d, e)
      ensures !kind.Root? ==> e.board.executions[child.id].payload == payload.Plain()
    {
    }

    /** The session is open and its bound configuration registers `callable` as an agent or an orchestration. */
    predicate SessionOffers(session: SessionId, callable: CallableId)
      reads this
    {
      && OpenSession(Project(), session) && sessions[session].configRevision in configurations
      && var callables := configurations[sessions[session].configRevision].callables;
      callable in callables && !callables[callable].ToolEntry?
    }

    function OfferedKind(session: SessionId, callable: CallableId): ExecutionKind
      reads this
      requires SessionOffers(session, callable)
    {
      if configurations[sessions[session].configRevision].callables[callable].AgentEntry? then Agent else Orchestration
    }

    /** The execution runs on the revision that the session had. */
    predicate PinnedTo(x: ExecutionId, known: map<SessionId, SessionSummary>, session: SessionId)
      reads this
    {
      x in executions && session in known && executions[x].configRevision == known[session].configRevision
    }

    /** Starts an agent or an orchestration at the top level of a session. */
    method StartSessionCallable(session: SessionId, callable: CallableId, objective: string) returns (r: Result<ExecutionSummary, ConductorError>)
      requires Live()
      modifies this
      ensures Live() && Continues()
      ensures r.Ok? && old(AtRest()) ==> AtRest()
      ensures r.Ok? ==> r.value.id == old(nextExecution) + 1 && r.value.id in executions && executions[r.value.id].summary == r.value
      ensures r.Ok? ==> r.value.state == if r.value.kind.Orchestration? then Running else Pending
      ensures r.Ok? ==> OnlyBoardAndLog(old(Project()), Project()) && PinnedTo(r.value.id, old(sessions), session)
      ensures r.Ok? ==> OpensTree(old(Project()).board, Project().board, r.value.id)
      ensures r.Ok? ==> OnlyChildrenOf(old(Project()).board, Project().board, r.value.id)
      ensures r.Ok? ==> old(SessionOffers(session, callable)) && r.value.kind == old(OfferedKind(session, callable))
      ensures r.Ok? && r.value.kind.Orchestration? ==> FirstNodesRun(r.value.id)
      ensures r.Ok? ==>
        var configuration := configurations[old(sessions)[session].configRevision];
        if r.value.kind.Orchestration? then PlanAdmitted(r.value.id, configuration, callable)
        else policy(r.value.id, configuration.callables[callable].Descriptor(), StartAgentOperation)
      ensures r.Ok? ==>
        executions[r.value.id].payload ==
          if r.value.kind.Orchestration? then OrchestrationPayload(objective) else InvocationPayload(Text(objective))
      ensures old(Healthy()) ==> Healthy() && (r.Ok? <==> !IsBlank(objective) && old(SessionOffers(session, callable)))
      ensures old(Healthy()) && r.Err? ==> Project() == old(Project()) && journal == old(journal)
      ensures r.Ok? ==> !IsBlank(objective) && r.value.parent.None? && r.value.session == session && r.value.callable == Some(callable)
      ensures r.Ok? ==> Tells(old(Project()), Project(), r.value.id, UserInput(objective))
    {
      hide Live, Valid, BoardInv, DurableInv, LiveInv, NodesApart, Lineage, Sequenced, Stamp, Calm, LogCurrent, Childless, Cascades, IsBlank,
        DefinitionIn, RootOpened, AllEquipped, SessionsSound, PlanAdmitted;
      SessionFacts();
      BoundCatalog();
      if IsBlank(objective) {
        return Err(EmptyInput);
      }
      if session !in sessions {
        return Err(UnknownSession(session));
      }
      var revision := sessions[session].configRevision;
      var configuration :- BoundConfiguration(Project(), configurations, revision);
      var descriptor := DescriptorOf(configuration.callables, callable);
      if descriptor.Err? {
        return Err(Registry(descriptor.error));
      }
      assert EntryWellFormed(configuration.callables, callable);
      hide RegistryWellFormed, DefinitionWellFormed;
      match descriptor.value.kind {
        case ToolCallable => r := Err(Registry(NotExecutable(callable)));
        case AgentCallable => r := StartSessionAgent(session, callable, objective, configuration, descriptor.value);
        case OrchestrationCallable => r := StartSessionOrchestration(session, callable, objective, configuration);
      }
    }

    method StartSessionAgent(session: SessionId, callable: CallableId, objective: string, configuration: CompiledConfiguration,
                             descriptor: CallableDescriptor) returns (r: Result<ExecutionSummary, ConductorError>)
      requires Live() && session in sessions
      requires sessions[session].configRevision in configurations && configurations[sessions[session].configRevision] == configuration
      requires callable in configuration.callables && configuration.callables[callable].Descriptor() == descriptor
      modifies this
      ensures Live() && Continues()
      ensures r.Ok? && old(AtRest()) ==> AtRest()
      ensures r.Ok? <==>
        OpenSession(old(Project()), session) && configuration.callables[callable].AgentEntry?
        && policy(old(nextExecution) + 1, descriptor, StartAgentOperation)
      ensures old(Healthy()) ==> Healthy()
      ensures r.Err? ==> Project() == old(Project()) && journal == old(journal)
      ensures r.Ok? ==> r.value == RootSummary(old(Project()), session, Agent, callable)
      ensures r.Ok? ==> OnlyBoardAndLog(old(Project()), Project()) && PinnedTo(r.value.id, old(sessions), session)
      ensures r.Ok? ==> OpensTree(old(Project()).board, Project().board, r.value.id)
      ensures r.Ok? ==> OnlyChildrenOf(old(Project()).board, Project().board, r.value.id)
      ensures r.Ok? ==> r.value.id in executions && executions[r.value.id].summary == r.value
      ensures r.Ok? ==> executions[r.value.id].payload == InvocationPayload(Text(objective))
      ensures r.Ok? ==> Tells(old(Project()), Project(), r.value.id, UserInput(objective))
    {
      hide Live, Valid, BoardInv, DurableInv, LiveInv, NodesApart, Lineage, Sequenced, Stamp, Calm, LogCurrent, Childless, RootOpened, Granted,
        AllEquipped, OthersEquipped, SessionsSound, OpensTree, Tells;
      ghost var d := Project();
      SessionFacts();
      var provider := ExecutionProvider(configuration.callables, callable);
      if provider.Err? {
        return Err(Registry(provider.error));
      }
      if !policy(nextExecution + 1, descriptor, StartAgentOperation) {
        return Err(PolicyDenied(nextExecution + 1));
      }
      ghost var payload := JournalInvocation(Text(objective), ExecutionAuthority.READ_ONLY);
      TopLevelAgentIsStamped(Project(), configurations, RootSummary(Project(), session, Agent, callable), payload);
      r := CreateSessionCallableExecution(session, Agent, callable, JournalInvocation(Text(objective), ExecutionAuthority.READ_ONLY), objective);
      if r.Ok? {
        RootInput(d, Project(), r.value, payload, objective, executions[r.value.id]);
        RootOpenedRecord(d, Project(), r.value, payload, objective, executions[r.value.id]);
      }
      if r.Ok? && Calm(Project().board, catalog, {r.value.id}) { NonOrchestrationIsCalm(Project().board, catalog, r.value.id); }
    }

    method StartSessionOrchestration(session: SessionId, callable: CallableId, objective: string, configuration: CompiledConfiguration)
      returns (r: Result<ExecutionSummary, ConductorError>)
      requires Live() && session in sessions
      requires sessions[session].configRevision in configurations && configurations[sessions[session].configRevision] == configuration
      modifies this
      ensures Live() && Continues()
      ensures r.Ok? && old(AtRest()) ==> AtRest()
      ensures old(Healthy()) ==>
        Healthy()
        && (r.Ok? <==> OpenSession(old(Project()), session) && callable in configuration.callables && configuration.callables[callable].OrchestrationEntry?)
      ensures old(Healthy()) && r.Err? ==> Project() == old(Project()) && journal == old(journal)
      ensures r.Ok? ==> r.value == RootSummary(old(Project()), session, Orchestration, callable).(state := Running)
      ensures r.Ok? ==> OnlyBoardAndLog(old(Project()), Project()) && PinnedTo(r.value.id, old(sessions), session)
      ensures r.Ok? ==> OpensTree(old(Project()).board, Project().board, r.value.id)
      ensures r.Ok? ==> OnlyChildrenOf(old(Project()).board, Project().board, r.value.id)
      ensures r.Ok? ==>
        OpenSession(old(Project()), session) && PlanAdmitted(old(nextExecution) + 1, configuration, callable)
      ensures r.Ok? ==> FirstNodesRun(r.value.id)
      ensures r.Ok? ==> r.value.id in executions && executions[r.value.id].summary == r.value
      ensures r.Ok? ==> executions[r.value.id].payload == OrchestrationPayload(objective)
      ensures r.Ok? ==> Tells(old(Project()), Project(), r.value.id, UserInput(objective))
    {
      hide Tells, Live, Valid, BoardInv, DurableInv, LiveInv, NodesApart, Lineage, Sequenced, Stamp, Calm, LogCurrent, Childless, RootOpened,
        Cascades, DefinitionIn, Granted, AllEquipped, OthersEquipped, SessionsSound, Provided, NodeCallables, RegistryWellFormed, OnlyBoardAndLog,
        Evolves, FirstNodesRun, OpenSession, OpensTree, OnlyChildrenOf, StartsUnder, NodeAdmitted, PlanAdmitted, ConfigurationFor;
      ghost var d := Project();
      LiveFacts();
      SessionFacts();
      var definition := OrchestrationCalled(configuration.callables, callable);
      if definition.Err? {
        return Err(Registry(definition.error));
      }
      if !policy(nextExecution + 1, definition.value.descriptor, StartOrchestrationOperation) {
        return Err(PolicyDenied(nextExecution + 1));
      }
      BoundCatalog();
      if Healthy() { AdmittedIfHealthy(nextExecution + 1, configuration, callable); }
      var _ :- CheckNodes(nextExecution + 1, configuration, definition.value);
      PlanIsAdmitted(nextExecution + 1, configuration, callable, definition.value);
      BoundDefinition(sessions[session].configRevision, callable);
      TopLevelIsStamped(d, configurations, RootSummary(d, session, Orchestration, callable), JournalOrchestration(objective, ExecutionAuthority.READ_ONLY));
      var child :- CreateSessionCallableExecution(session, Orchestration, callable,
                                                  JournalOrchestration(objective, ExecutionAuthority.READ_ONLY), objective);
      ghost var e := Project();
      LiveFacts();
      RootInput(d, e, child, JournalOrchestration(objective, ExecutionAuthority.READ_ONLY), objective, executions[child.id]);
      RootOpenedRecord(d, e, child, JournalOrchestration(objective, ExecutionAuthority.READ_ONLY), objective, executions[child.id]);
      TopLevelIsProvided(d, e, configurations, catalog, child);
      r := BeginOrchestration(child.id);
      KeptThrough(d, e, Project(), RootOf(e.board, child.id), child.id);
      ToldEarlier(d, e, Project(), RootOf(e.board, child.id), child.id, UserInput(objective));
      TreeGrowsFurther(d.board, e, Project(), child.id);
    }

    static lemma KeptThrough(d: Durable, e: Durable, f: Durable, root: ExecutionId, x: ExecutionId)
      requires OnlyBoardAndLog(d, e) && Cascades(e, f, root) && x in e.board.executions
      ensures OnlyBoardAndLog(d, f) && x in f.board.executions && SameIdentity(e.board.executions[x], f.board.executions[x])
    {
      CascadeOnlyLogs(d, e, f, root);
      CascadeEvolves(e, f, root);
      hide Cascades, OnlyBoardAndLog;
    }

    static lemma TreeGrowsFurther(b: Board, d: Durable, e: Durable, x: ExecutionId)
      requires BoardInv(b) && BoardInv(d.board) && OpensTree(b, d.board, x) && x in d.board.executions && Cascades(d, e, RootOf(d.board, x))
      ensures OpensTree(b, e.board, x)
      ensures OnlyChildrenOf(b, d.board, x) && StartsUnder(d.board, e.board, {x}) ==> OnlyChildrenOf(b, e.board, x)
    {
      TreeGrows(b, d.board, e.board, x);
      if OnlyChildrenOf(b, d.board, x) && StartsUnder(d.board, e.board, {x}) {
        CascadeCreatesAgents(d, e, RootOf(d.board, x));
        ChildrenFollow(b, d.board, e.board, x);
      }
    }

    lemma BoundCatalog()
      requires Live()
      ensures forall revision :: revision in configurations ==>
        revision in catalog && catalog[revision] == configurations[revision] && RegistryWellFormed(configurations[revision].callables)
    {
      hide RegistryWellFormed;
    }

    /** Where the policy admits everything, an orchestration's nodes and interface are admitted. */
    lemma AdmittedIfHealthy(x: ExecutionId, configuration: CompiledConfiguration, callable: CallableId)
      requires RegistryWellFormed(configuration.callables)
      requires callable in configuration.callables && configuration.callables[callable].OrchestrationEntry?
      requires forall y, descriptor, operation :: policy(y, descriptor, operation)
      ensures forall node :: node in NodeCallables(configuration.callables[callable].definition) ==> NodeAdmitted(x, configuration, node)
    {
      forall node | node in NodeCallables(configuration.callables[callable].definition) ensures NodeAdmitted(x, configuration, node) {
        RegisteredNode(configuration.callables, callable, node);
      }
      hide NodeCallables;
    }

    method CreateSessionCallableExecution(session: SessionId, kind: ExecutionKind, callable: CallableId, payload: JournalPayload, text: string)
      returns (r: Result<ExecutionSummary, ConductorError>)
      requires Live() && session in sessions
      requires kind.Orchestration? ==>
        payload.JournalOrchestration? && DefinitionIn(catalog, sessions[session].configRevision, Some(callable)).Some?
      modifies this
      ensures Live() && Continues()
      ensures r.Ok? ==> r.value == RootSummary(old(Project()), session, kind, callable)
      ensures r.Ok? ==> r.value.id in executions && executions[r.value.id].summary == r.value && InState(Project().board, r.value.id, Pending)
      ensures r.Ok? <==>
        OpenSession(old(Project()), session) && Stamp(old(Project()), configurations, ExecutionCreated(RootSummary(old(Project()), session, kind, callable), payload)).Ok?
      ensures r.Ok? ==>
        Granted(old(Project()), configurations, Project(), r.value)
        && RootOpened(old(Project()), Project(), r.value, payload, text, executions[r.value.id])
      ensures r.Ok? ==> OpensTree(old(Project()).board, Project().board, r.value.id)
      ensures r.Ok? ==> OnlyChildrenOf(old(Project()).board, Project().board, r.value.id)
      ensures r.Ok? ==> OnlyBoardAndLog(old(Project()), Project()) && PinnedTo(r.value.id, old(sessions), session)
      ensures r.Ok? && old(Healthy()) ==> if kind.Orchestration? then HealthyExcept(r.value.id) else Healthy()
      ensures r.Ok? ==> Childless(Project().board, r.value.id) && (kind.Orchestration? <==> IsOrchestration(Project().board, r.value.id))
      ensures r.Ok? && Calm(old(Project()).board, catalog, {}) ==> Calm(Project().board, catalog, {r.value.id})
      ensures r.Ok? && LogCurrent(old(Project())) ==> LogCurrent(Project())
      ensures r.Err? ==> Project() == old(Project()) && journal == old(journal)
    {
      hide Live, Valid, BoardInv, DurableInv, LiveInv, NodesApart, Lineage, Sequenced, Stamp, Calm, LogCurrent, Childless, RootOpened, DefinitionIn,
        Granted, AllEquipped, OthersEquipped, WithExecution, OpenSession, OpensTree;
      var summary := ExecutionSummary(nextExecution + 1, session, None, kind, Some(callable), sessions[session].defaultTarget, Pending);
      ghost var d := Project();
      LiveFacts();
      var created;
      ghost var record;
      created, record := OpenRoot(summary, payload, text);
      if created.Err? {
        return Err(created.error);
      }
      RootOpenedFacts(d, Project(), catalog, summary, payload, text, record);
      RootOpensTree(d.board, record);
      RootOpenedRecord(d, Project(), summary, payload, text, record);
      if AllEquipped(d.board, configurations, catalog) { CreationLeavesEquipped(d.board, record, configurations, catalog); }
      r := Ok(summary);
    }

    static lemma RootInput(d: Durable, e: Durable, x: ExecutionSummary, payload: JournalPayload, text: string, record: ExecutionRecord)
      requires RootOpened(d, e, x, payload, text, record) && !x.kind.Root?
      ensures record.payload == payload.Plain()
    {
    }

    static lemma RootOpenedRecord(d: Durable, e: Durable, x: ExecutionSummary, payload: JournalPayload, text: string, record: ExecutionRecord)
      requires RootOpened(d, e, x, payload, text, record)
      ensures x.id in e.board.executions && e.board.executions[x.id] == record && OnlyBoardAndLog(d, e)
      ensures Tells(d, e, x.id, UserInput(text))
    {
      hide LogCurrent;
      assert e.events[|d.events|].execution == x.id && e.events[|d.events|].kind == UserInput(text);
    }

    // -------------------------------------------------------------------------
    // Deciding about failures
    // -------------------------------------------------------------------------

    method RuntimeFailureSummary(x: ExecutionId, attempt: nat) returns (r: Result<FailureAttemptSummary, ConductorError>)
      ensures x !in executions ==> r == Err(UnknownExecution(x))
      ensures x in executions && !InState(Project().board, x, Failed) ==> r == Err(InvalidLifecycle(x))
      ensures InState(Project().board, x, Failed) ==>
        r == Ok(FailureSummary(Project(), x, attempt)) && Summarizes(Project(), x, attempt, r.value)
    {
      if x !in executions {
        return Err(UnknownExecution(x));
      }
      if executions[x].summary.state != Failed {
        return Err(InvalidLifecycle(x));
      }
      FailureIsSummarized(Project(), x, attempt);
      hide Summarizes;
      var reason: Option<string>, i := None, |events|;
      assert events[..i] == events;
      while i > 0 && reason.None?
        invariant 0 <= i <= |events|
        invariant LastError(events, x) == if reason.Some? then reason else LastError(events[..i], x)
      {
        i := i - 1;
        assert events[..i + 1][..i] == events[..i];
        if events[i].execution == x && events[i].kind.ErrorRaised? {
          reason := Some(events[i].kind.message);
        }
      }
      r := Ok(FailureAttemptSummary(x, attempt, executions[x].summary.callable,
                                    match reason case Some(message) => message case None => "execution failed"));
    }

    /** Who `deciderId` decides for: its orchestration, the failed child and the orchestration's definition. */
    method CheckDecider(deciderId: ExecutionId) returns (r: Result<(ExecutionId, ExecutionId, OrchestrationDefinition), ConductorError>)
      requires Live()
      ensures r.Ok? ==> MayDecide(Project().board, deciderId, r.value.0, r.value.1)
      ensures r.Ok? ==>
        DefinitionOf(Project().board, catalog, r.value.0) == Some(r.value.2)
        && r.value.2.interfaceAgent == Project().board.executions[deciderId].summary.callable
      ensures r.Ok? ==> DecidesFor(deciderId, r.value.0)
      ensures r.Ok? <==> IsDecider(deciderId)
    {
      hide Live, Valid, DefinitionOf, InterfacesSound, DecisionsSound, NodesSound, BoardInv, DurableInv, LiveInv, InterfacesDistinct,
        InterfacesFailFinally, NodesApart, Lineage, Sequenced, IsInterface;
      RoleFacts();
      LiveFacts();
      UnboundFacts(Project().board);
      OneDecision(Project().board, deciderId);
      if deciderId !in executions {
        return Err(UnknownExecution(deciderId));
      }
      var decider := executions[deciderId].summary;
      if decider.parent.None? {
        return Err(FailureDecisionDenied(deciderId, deciderId));
      }
      var parentId := decider.parent.value;
      var found := FailedChildForInterface(deciderId);
      if found.None? {
        return Err(FailureDecisionDenied(parentId, deciderId));
      }
      var failedId := found.value;
      BindingIsHoused(Project().board, failedId);
      if failedId in orchestrationDecisions || (decider.state != Running && decider.state != Completed) {
        return Err(InvalidFailureDecision(parentId, failedId));
      }
      if executions[failedId].summary.state != Failed {
        return Err(InvalidFailureDecision(parentId, failedId));
      }
      var parent := executions[parentId].summary;
      if parent.kind != Orchestration || parent.state != Running {
        return Err(InvalidFailureDecision(parentId, failedId));
      }
      var definition :- LookUpDefinition(parentId);
      if definition.interfaceAgent != decider.callable {
        return Err(FailureDecisionDenied(parentId, deciderId));
      }
      r := Ok((parentId, failedId, definition));
    }

    /** The orchestration is bound and names the decider's callable as its failure interface. */
    ghost predicate DecidesFor(decider: ExecutionId, o: ExecutionId)
      reads this
    {
      && decider in executions && o in executions && executions[o].configRevision in configurations
      && DefinitionOf(Project().board, catalog, o).Some?
      && DefinitionOf(Project().board, catalog, o).value.interfaceAgent == executions[decider].summary.callable
    }

    /** Some failure awaits the decision of `decider`. */
    ghost predicate IsDecider(decider: ExecutionId)
      reads this
    {
      exists o, f :: MayDecide(Project().board, decider, o, f) && DecidesFor(decider, o)
    }

    /** The decider may decide as requested about the failure of `failed`. */
    ghost predicate Grants(decider: ExecutionId, request: DecisionRequest, o: ExecutionId, failed: ExecutionId)
      reads this
    {
      match request
      case RequestRetry => Retriable(Project(), failed) && MayRecover(decider, o, executions[failed].summary.callable.value)
      case RequestAnotherChild(callable, objective) =>
        && !IsBlank(objective) && decider in executions && failed in executions
        && Some(callable) !in {executions[decider].summary.callable, executions[failed].summary.callable}
        && MayRecover(decider, o, callable)
      case _ => true
    }

    /** Some failure awaits the decision of `decider`, who may decide as requested. */
    ghost predicate DecisionGranted(decider: ExecutionId, request: DecisionRequest)
      reads this
    {
      exists o, failed :: MayDecide(Project().board, decider, o, failed) && DecidesFor(decider, o) && Grants(decider, request, o, failed)
    }

    static lemma OneFailure(b: Board, decider: ExecutionId, o: ExecutionId, f: ExecutionId)
      requires InterfacesDistinct(b) && MayDecide(b, decider, o, f)
      ensures forall p, g :: MayDecide(b, decider, p, g) ==> p == o && g == f
    {
    }

    static lemma OneDecision(b: Board, decider: ExecutionId)
      requires InterfacesDistinct(b)
      ensures forall o, f :: MayDecide(b, decider, o, f) ==>
        IsInterface(b, decider) && forall g :: g in b.interfaces && b.interfaces[g] == decider ==> g == f
    {
    }

    static lemma BindingIsHoused(b: Board, f: ExecutionId)
      requires InterfacesSound(b) && f in b.interfaces
      ensures f in b.executions && InState(b, f, Failed) && b.interfaces[f] in b.executions
      ensures b.executions[b.interfaces[f]].summary.parent.Some? && b.executions[b.interfaces[f]].summary.parent.value in b.executions
    {
      assert InterfaceSound(b, f);
    }

    /** The attempt group that holds an execution. */
    method AttemptGroupFor(x: ExecutionId) returns (id: Option<AttemptGroupId>)
      ensures id.None? <==> !InSomeGroup(attemptGroups, x)
      ensures id.Some? ==> id.value in attemptGroups && attemptGroups[id.value].ContainsExecution(x)
    {
      if exists g :: g in attemptGroups && attemptGroups[g].ContainsExecution(x) {
        var g :| g in attemptGroups && attemptGroups[g].ContainsExecution(x);
        return Some(g);
      }
      id := None;
    }

    /** Makes sure that the failure of `failed` is on record in the attempt group whose latest attempt it is. */
    method PrepareGroup(failed: ExecutionId, parentId: ExecutionId, callable: CallableId, goal: Prompt)
      returns (r: Result<AttemptGroupId, ConductorError>)
      requires Live() && IsFailedChildOf(Project().board, parentId, failed)
      requires Project().board.executions[failed].summary.callable == Some(callable)
      modifies this
      ensures Live() && Continues() && OnlyGroups(old(Project()), Project())
      ensures r.Ok? ==> AwaitsRetry(Project(), r.value, failed)
      ensures r.Ok? <==> forall g :: g in old(attemptGroups) && old(attemptGroups)[g].ContainsExecution(failed) ==>
        old(attemptGroups)[g].LatestExecution() == Some(failed)
      ensures r.Ok? ==> CarriesOn(old(Project()), Project(), r.value, failed, goal, [])
      ensures r.Err? ==> r == Err(InvalidFailureDecision(parentId, failed))
      ensures forall c :: MayStart(parentId, c, StartAgentNodeOperation) == old(MayStart(parentId, c, StartAgentNodeOperation))
      ensures r.Err? ==> Project() == old(Project())
    {
      hide Live, Valid, GroupsSound, GroupsDisjoint, AwaitsRetry, OnlyGroups, MayStart, CarriesOn, FailureSummary;
      ghost var d := Project();
      GroupsLeaveStarts(d, parentId);
      GroupsOfLive();
      GroupsUnchanged(Project());
      var existing := AttemptGroupFor(failed);
      if existing.Some? {
        var id := existing.value;
        UniqueGroup(attemptGroups, id, failed);
        if attemptGroups[id].LatestExecution() != Some(failed) {
          return Err(InvalidFailureDecision(parentId, failed));
        }
        RecordLatestFailure(id, failed, goal);
        GroupsLeaveStarts(d, parentId);
        r := Ok(id);
      } else {
        var id := OpenGroup(failed, parentId, callable, goal);
        GroupsLeaveStarts(d, parentId);
        r := Ok(id);
      }
    }

    /** Attempt groups have no say in what may be started. */
    lemma GroupsLeaveStarts(d: Durable, o: ExecutionId)
      requires OnlyGroups(d, Project())
      ensures forall c :: MayStart(o, c, StartAgentNodeOperation) <==> StartAdmitted(policy, configurations, d, o, c, StartAgentNodeOperation)
    {
    }

    /** Puts the failure of a group's latest attempt on record unless it already is. */
    method RecordLatestFailure(id: AttemptGroupId, failed: ExecutionId, ghost goal: Prompt)
      requires Live() && id in attemptGroups && attemptGroups[id].LatestExecution() == Some(failed) && InState(Project().board, failed, Failed)
      modifies this
      ensures Live() && Continues() && OnlyGroups(old(Project()), Project())
      ensures AwaitsRetry(Project(), id, failed)
      ensures old(attemptGroups)[id].HasFailureFor(failed) ==> attemptGroups == old(attemptGroups)
      ensures !old(attemptGroups)[id].HasFailureFor(failed) ==>
        attemptGroups == old(attemptGroups)[id := old(attemptGroups)[id].(failures := old(attemptGroups)[id].failures +
          [FailureSummary(old(Project()), failed, old(attemptGroups)[id].AttemptForExecution(failed).value)])]
      ensures CarriesOn(old(Project()), Project(), id, failed, goal, [])
    {
      hide Live, Valid, Accepts, Update, LiveGuard, FailureSummary, GroupsSound, GroupsDisjoint, CarriesOn;
      ghost var d := Project();
      GroupsUnchanged(d);
      GroupsOfLive();
      if !attemptGroups[id].HasFailureFor(failed) {
        FailureIsAccepted(d, catalog, id, failed);
        var summary := RuntimeFailureSummary(failed, attemptGroups[id].AttemptForExecution(failed).value);
        GroupEventsTouchGroupsOnly(d, AttemptFailureRecorded(id, summary.value));
        RecordLive(AttemptFailureRecorded(id, summary.value));
      }
      GroupCarriesOn(d, Project(), id, failed, goal);
    }

    /** Opens the attempt group of a first failure. */
    method OpenGroup(failed: ExecutionId, parentId: ExecutionId, callable: CallableId, goal: Prompt) returns (id: AttemptGroupId)
      requires Live() && IsFailedChildOf(Project().board, parentId, failed) && !InSomeGroup(attemptGroups, failed)
      requires Project().board.executions[failed].summary.callable == Some(callable)
      modifies this
      ensures Live() && Continues() && OnlyGroups(old(Project()), Project())
      ensures id == old(nextAttemptGroup) + 1 && AwaitsRetry(Project(), id, failed)
      ensures attemptGroups ==
        old(attemptGroups)[id := AttemptGroup(id, parentId, callable, goal, [failed], [FailureSummary(old(Project()), failed, 1)])]
      ensures CarriesOn(old(Project()), Project(), id, failed, goal, [])
    {
      hide Live, Valid, Accepts, Update, LiveGuard, FailureSummary, GroupsSound, InSomeGroup, GroupsDisjoint, CarriesOn;
      ghost var d := Project();
      GroupsOfLive();
      id := nextAttemptGroup + 1;
      GroupIsAccepted(d, catalog, parentId, failed, callable, goal);
      var summary := RuntimeFailureSummary(failed, 1);
      var group := AttemptGroup.FromFirstFailure(id, parentId, callable, goal, summary.value);
      GroupEventsTouchGroupsOnly(d, AttemptGroupCreated(group));
      RecordLive(AttemptGroupCreated(group));
      FirstFailureCarriesOn(d, Project(), id, parentId, failed, callable, goal);
    }

    lemma GroupsOfLive()
      requires Live()
      ensures GroupsSound(Project()) && GroupsDisjoint(attemptGroups)
    {
    }

    /** Retries a failed child: a new, unannounced attempt directly follows it in its attempt group. */
    method CreateRetryRecovery(failedId: ExecutionId, ghost o: ExecutionId)
      returns (r: Result<ExecutionSummary, ConductorError>, ghost record: ExecutionRecord, ghost group: AttemptGroupId)
      requires Live() && IsFailedChildOf(Project().board, o, failedId) && o in Project().board.executions
      modifies this
      ensures Live() && Continues()
      ensures r.Ok? ==>
        old(Project()).board.executions[failedId].summary.callable.Some?
        && RecoveryCreated(old(Project()), Project(), o, old(Project()).board.executions[failedId].summary.callable.value, record)
        && r.value == record.summary && Retried(Project(), group, failedId, record.summary.id)
        && AskedToRetry(old(Project()), Project(), group, failedId, record)
      ensures r.Ok? <==>
        Retriable(old(Project()), failedId)
        && RecoveryAllowed(old(Project()).board, o, old(executions)[failedId].summary.callable.value,
                           old(MayStart(o, executions[failedId].summary.callable.value, StartAgentNodeOperation)))
      ensures r.Err? && r.error.DelegationDenied? ==>
        old(executions)[failedId].summary.callable.Some?
        && old(executions)[failedId].summary.callable.value !in old(executions)[o].authority.callables
      ensures r.Err? ==> OnlyGroups(old(Project()), Project())
    {
      hide AskedToRetry, Live, Valid, Accepts, Update, LiveGuard, GroupsSound, BoardInv, DurableInv, LiveInv, NodesApart, Lineage, Sequenced,
        ChildRecorded, RecoveryCreated, Retried, AwaitsRetry, ChildSummary, MayStart, CarriesOn;
      ghost var d := Project();
      record, group := executions[failedId], 0;
      GroupsUnchanged(d);
      var failed := executions[failedId];
      var parentId := failed.summary.parent.value;
      if failed.summary.callable.None? {
        return Err(InvalidFailureDecision(parentId, failedId)), record, group;
      }
      if !failed.payload.InvocationPayload? {
        return Err(InvalidFailureDecision(parentId, failedId)), record, group;
      }
      var callable := failed.summary.callable.value;
      var prepared := PrepareGroup(failedId, parentId, callable, failed.payload.input);
      if prepared.Err? {
        return Err(prepared.error), record, group;
      }
      group := prepared.value;
      r, record := CreateRetry(prepared.value, failedId, parentId, callable, d);
    }

    static lemma GroupsUnchanged(d: Durable)
      ensures OnlyGroups(d, d)
    {
    }

    /** Creates the next attempt of a prepared group. */
    method CreateRetry(id: AttemptGroupId, failed: ExecutionId, parentId: ExecutionId, callable: CallableId, ghost d: Durable)
      returns (r: Result<ExecutionSummary, ConductorError>, ghost record: ExecutionRecord)
      requires Live() && AwaitsRetry(Project(), id, failed) && OnlyGroups(d, Project())
      requires IsFailedChildOf(Project().board, parentId, failed) && parentId in Project().board.executions
      requires Project().board.executions[failed].summary.callable == Some(callable)
      requires Project().board.executions[failed].payload.InvocationPayload?
      requires CarriesOn(d, Project(), id, failed, Project().board.executions[failed].payload.input, [])
      modifies this
      ensures Live() && Continues()
      ensures r.Ok? ==>
        RecoveryCreated(d, Project(), parentId, callable, record) && r.value == record.summary
        && Retried(Project(), id, failed, record.summary.id) && AskedToRetry(d, Project(), id, failed, record)
      ensures r.Ok? ==> failed in Project().board.executions && Project().board.executions[failed].summary.callable == Some(callable)
      ensures r.Ok? <==> RecoveryAllowed(old(Project()).board, parentId, callable, old(MayStart(parentId, callable, StartAgentNodeOperation)))
      ensures r.Err? && r.error.DelegationDenied? ==> callable !in old(executions)[parentId].authority.callables
      ensures r.Err? ==> OnlyGroups(d, Project())
    {
      hide Live, Valid, Accepts, Update, LiveGuard, GroupsSound, BoardInv, DurableInv, LiveInv, NodesApart, Lineage, Sequenced, Retried, MayStart,
        CarriesOn;
      ghost var m := Project();
      record := executions[failed];
      LiveFacts();
      GroupsOfLive();
      var retryInput := RetryPrompt(RetryContext(attemptGroups[id].goal, attemptGroups[id].failures));
      r := CreateRecoveryAgent(parentId, callable, retryInput);
      if r.Err? {
        return;
      }
      ghost var e := Project();
      ghost var payload := JournalInvocation(retryInput, ExecutionAuthority.READ_ONLY);
      RetryIsAccepted(m, e, catalog, id, parentId, failed, callable, r.value, payload);
      RetryKeepsContext(e, id, r.value.id);
      GroupEventsTouchGroupsOnly(e, AttemptRetryStarted(id, r.value.id));
      RecordLive(AttemptRetryStarted(id, r.value.id));
      RetryCarriesOn(d, m, Project(), id, failed, d.board.executions[failed].payload.input, r.value.id);
      record := RetryRecoveryCreated(d, m, e, Project(), id, parentId, callable, r.value, payload);
    }

    /** Records the decision for a created recovery and announces the recovery. */
    method CommitRecovery(decision: DecisionRecord, child: ExecutionId, ghost d: Durable, ghost record: ExecutionRecord, ghost callable: CallableId)
      requires Live() && RecoveryCreated(d, Project(), decision.parent, callable, record) && child == record.summary.id && BoardInv(d.board)
      requires AcceptsDecision(Project().board, decision) && RetryBacked(Project(), decision) && !IsInterface(Project().board, decision.failedChild)
      modifies this
      ensures Live() && Continues()
      ensures Project().board == WithDecision(WithExecution(d.board, record), decision)
      ensures Project().attemptGroups == old(Project()).attemptGroups
      ensures decision.parent in old(executions) && child in old(executions)
      ensures Project() == Announced(Decided(old(Project()), decision), decision.parent, child)
      ensures LogCurrent(d) ==> LogCurrent(Project())
    {
      hide Live, Valid, AcceptsDecision, RetryBacked, LogCurrent, BoardInv, IsNewChild, Announced, Decided, IsInterface;
      ghost var m := Project();
      CommitFacts(d, m, decision, record, callable);
      var recorded := RecordDecision(decision);
      var announced := AnnounceChild(decision.parent, child);
    }

    /** Refreshes an orchestration after a decision about one of its children. */
    method RefreshAfterDecision(o: ExecutionId, ghost decision: DecisionRecord) returns (r: Result<(), ConductorError>)
      requires Live() && o in Project().board.executions
      requires decision.failedChild in Project().board.decisions && Project().board.decisions[decision.failedChild] == decision
      modifies this
      ensures Live() && Continues()
      ensures r.Ok? && Calm(old(Project()).board, catalog, {o}) && LogCurrent(old(Project())) ==> AtRest()
      ensures decision.failedChild in Project().board.decisions && Project().board.decisions[decision.failedChild] == decision
      ensures Project().attemptGroups == old(Project()).attemptGroups && Evolves(old(Project()).board, Project().board)
      ensures Swept(old(Project()).board, Project().board, RootOf(old(Project()).board, o))
      ensures r.Ok? ==> Spares(old(Project()).board, Project().board, {})
      ensures old(Healthy()) ==> Healthy() && r.Ok?
    {
      hide Live, Valid, Cascades, Calm, LogCurrent, RootOf, MoveOf, Healthy, Refreshes, LiveOrchestrations, Swept, Spares;
      ghost var d, root := Project(), RootOf(Project().board, o);
      r := RefreshOrchestration(o, {});
      StaysHealthy(root);
      CascadeKeepsLog(d, Project(), root);
      CascadeEvolves(d, Project(), root);
      CascadeKeepsGroups(d, Project(), root);
      CascadeSweeps(d, Project(), root);
      if Calm(d.board, catalog, {o}) { SingletonBusy(d.board, catalog, o); }
    }

    /** The decider holds the callable, and its orchestration may start it. */
    predicate MayRecover(decider: ExecutionId, o: ExecutionId, callable: CallableId)
      reads this
    {
      && decider in executions && callable in executions[decider].authority.callables
      && MayStart(o, callable, StartAgentNodeOperation)
    }

    method EnsureDeciderDelegates(decider: ExecutionId, callable: CallableId) returns (r: Result<(), ConductorError>)
      ensures r.Ok? <==> decider in executions && callable in executions[decider].authority.callables
      ensures r.Err? && decider in executions ==> r == Err(DelegationDenied(decider, callable))
    {
      if decider !in executions {
        return Err(UnknownExecution(decider));
      }
      r := if callable in executions[decider].authority.callables then Ok(()) else Err(DelegationDenied(decider, callable));
    }

    method DecideRetry(decider: ExecutionId, o: ExecutionId, failed: ExecutionId) returns (r: Result<ExecutionSummary, ConductorError>)
      requires Live() && MayDecide(Project().board, decider, o, failed)
      modifies this
      ensures Live() && Continues()
      ensures r.Ok? ==>
        Decides(old(Project()), Project(), decider, RequestRetry, Some(r.value), o, failed) && ReadyToRefresh(old(Project()), Project(), catalog, o)
      ensures r.Ok? <==> Retriable(old(Project()), failed) && old(MayRecover(decider, o, executions[failed].summary.callable.value))
      ensures r.Err? ==> OnlyGroups(old(Project()), Project())
      ensures r.Err? && r.error.DelegationDenied? ==> r.error.parent == decider
    {
      hide AskedToRetry, Live, Valid, BoardInv, DurableInv, LiveInv, NodesApart, Lineage, Sequenced, InterfacesSound, DecisionsSound, NodesSound,
        InterfacesApart, MayDecide, Decides, ReadyToRefresh, RecoveryCreated, Retried, AcceptsDecision, RetryBacked, LogCurrent, IsInterface;
      ghost var d := Project();
      DeciderContext(decider, o, failed);
      if executions[failed].summary.callable.None? {
        return Err(InvalidFailureDecision(o, failed));
      }
      var callable := executions[failed].summary.callable.value;
      var delegates := EnsureDeciderDelegates(decider, callable);
      if delegates.Err? {
        return Err(delegates.error);
      }
      DeciderDelegationSuffices(d.board, decider, o, callable);
      ghost var record, group;
      r, record, group := CreateRetryRecovery(failed, o);
      if r.Err? {
        return;
      }
      var child := r.value.id;
      ghost var m := Project();
      RecoveryBoard(d, m, o, callable, record);
      RecoveryIsAccepted(d.board, decider, o, failed, callable, record, Retry(child));
      RetryIsBacked(m, group, o, failed, decider, child);
      CommitRecovery(DecisionRecord(o, failed, Some(decider), Retry(child)), child, d, record, callable);
      LiveFacts();
      RecoveryDecides(d, m, Project(), catalog, decider, o, failed, callable, record, RequestRetry, Retry(child), group);
    }

    lemma DeciderContext(decider: ExecutionId, o: ExecutionId, failed: ExecutionId)
      requires Live() && MayDecide(Project().board, decider, o, failed)
      ensures BoardInv(Project().board) && IsFailedChildOf(Project().board, o, failed) && !IsInterface(Project().board, failed)
      ensures o in executions && failed in executions && decider in executions && Delegated(Project().board) && IsChild(Project().board, o, decider)
      ensures InState(Project().board, o, Running)
    {
      DeciderFacts(Project().board, decider, o, failed);
      DecidedIsNoInterface(Project().board, decider, o, failed);
    }

    /** Creating a recovery leaves the interfaces as they were. */
    static lemma RecoveryBoard(d: Durable, m: Durable, o: ExecutionId, callable: CallableId, record: ExecutionRecord)
      requires RecoveryCreated(d, m, o, callable, record)
      ensures m.board == WithExecution(d.board, record) && IsNewChild(d.board, record, o, Agent, callable)
      ensures forall f :: IsInterface(m.board, f) <==> IsInterface(d.board, f)
    {
    }

    method DecideAnotherChild(decider: ExecutionId, o: ExecutionId, failed: ExecutionId, callable: CallableId, objective: string,
                              definition: OrchestrationDefinition) returns (r: Result<ExecutionSummary, ConductorError>)
      requires Live() && MayDecide(Project().board, decider, o, failed)
      modifies this
      ensures Live() && Continues()
      ensures r.Ok? ==>
        Decides(old(Project()), Project(), decider, RequestAnotherChild(callable, objective), Some(r.value), o, failed)
        && ReadyToRefresh(old(Project()), Project(), catalog, o)
      ensures r.Ok? <==>
        && !IsBlank(objective) && definition.interfaceAgent != Some(callable)
        && old(executions)[failed].summary.callable != Some(callable)
        && old(MayRecover(decider, o, callable))
      ensures r.Err? ==> Project() == old(Project()) && journal == old(journal)
      ensures r.Err? && r.error.DelegationDenied? ==> r.error.parent == decider
    {
      hide Live, Valid, BoardInv, DurableInv, LiveInv, NodesApart, Lineage, Sequenced, InterfacesSound, DecisionsSound, NodesSound, InterfacesApart,
        MayDecide, Decides, ReadyToRefresh, RecoveryCreated, AcceptsDecision, RetryBacked, LogCurrent, IsInterface, ChildRecorded, MayStart,
        IsBlank;
      ghost var d := Project();
      DeciderContext(decider, o, failed);
      if IsBlank(objective) || executions[failed].summary.callable == Some(callable) || definition.interfaceAgent == Some(callable) {
        return Err(InvalidFailureDecision(o, failed));
      }
      var delegates := EnsureDeciderDelegates(decider, callable);
      if delegates.Err? {
        return Err(delegates.error);
      }
      DeciderDelegationSuffices(d.board, decider, o, callable);
      r := CreateRecoveryAgent(o, callable, Text(objective));
      if r.Err? {
        return;
      }
      var child := r.value.id;
      ghost var m := Project();
      ghost var record := PlainRecoveryCreated(d, m, o, callable, r.value, JournalInvocation(Text(objective), ExecutionAuthority.READ_ONLY));
      RecoveryBoard(d, m, o, callable, record);
      RecoveryIsAccepted(d.board, decider, o, failed, callable, record, ChooseAnotherChild(child));
      NoRetryToBack(m, DecisionRecord(o, failed, Some(decider), ChooseAnotherChild(child)));
      CommitRecovery(DecisionRecord(o, failed, Some(decider), ChooseAnotherChild(child)), child, d, record, callable);
      LiveFacts();
      RecoveryDecides(d, m, Project(), catalog, decider, o, failed, callable, record, RequestAnotherChild(callable, objective),
                      ChooseAnotherChild(child), 0);
    }

    static lemma NoRetryToBack(d: Durable, r: DecisionRecord)
      requires !r.decision.Retry?
      ensures RetryBacked(d, r)
    {
    }

    method DecidePlainly(decider: ExecutionId, o: ExecutionId, failed: ExecutionId, request: DecisionRequest)
      requires Live() && MayDecide(Project().board, decider, o, failed) && (request.RequestContinue? || request.RequestFail?)
      modifies this
      ensures Live() && Continues()
      ensures Decides(old(Project()), Project(), decider, request, None, o, failed) && ReadyToRefresh(old(Project()), Project(), catalog, o)
    {
      hide Live, Valid, BoardInv, DurableInv, LiveInv, NodesApart, Lineage, Sequenced, MayDecide, Decides, ReadyToRefresh, AcceptsDecision,
        RetryBacked, LogCurrent, IsInterface, Decided;
      ghost var d := Project();
      DeciderContext(decider, o, failed);
      var decision: OrchestrationFailureDecision := if request.RequestContinue? then Continue else Fail;
      PlainDecisionIsAccepted(d, decider, o, failed, decision);
      var recorded := RecordDecision(DecisionRecord(o, failed, Some(decider), decision));
      LiveFacts();
      PlainDecides(d, Project(), catalog, decider, o, failed, request, decision);
    }

    /** Records what the decider asks for; a recovery is created first. */
    method MakeDecision(decider: ExecutionId, request: DecisionRequest, o: ExecutionId, failed: ExecutionId, definition: OrchestrationDefinition)
      returns (r: Result<Option<ExecutionSummary>, ConductorError>)
      requires Live() && MayDecide(Project().board, decider, o, failed)
      requires decider in executions && definition.interfaceAgent == executions[decider].summary.callable
      modifies this
      ensures Live() && Continues()
      ensures r.Ok? ==>
        Decides(old(Project()), Project(), decider, request, r.value, o, failed) && ReadyToRefresh(old(Project()), Project(), catalog, o)
      ensures r.Ok? <==> old(Grants(decider, request, o, failed))
      ensures r.Err? ==> OnlyGroups(old(Project()), Project())
    {
      hide Live, Valid, MayDecide, Decides, ReadyToRefresh, Retriable, MayRecover, IsBlank, BoardInv, Delegated, IsFailedChildOf, IsInterface,
        InState;
      DeciderContext(decider, o, failed);
      match request {
        case RequestRetry =>
          var retry :- DecideRetry(decider, o, failed);
          r := Ok(Some(retry));
        case RequestAnotherChild(callable, objective) =>
          var replacement :- DecideAnotherChild(decider, o, failed, callable, objective, definition);
          r := Ok(Some(replacement));
        case _ =>
          DecidePlainly(decider, o, failed, request);
          r := Ok(None);
      }
    }

    /**
     Lets the interface agent of a failed child decide what its orchestration
     does about the failure, and lets the orchestration act on that.
     */
    method DecideOrchestrationFailure(decider: ExecutionId, request: DecisionRequest) returns (r: Result<Option<ExecutionSummary>, ConductorError>)
      requires Live()
      modifies this
      ensures Live() && Continues()
      ensures r.Ok? && old(AtRest()) ==> AtRest()
      ensures r.Ok? ==> exists o, failed :: Decides(old(Project()), Project(), decider, request, r.value, o, failed)
      ensures old(Healthy()) ==> Healthy()
      ensures r.Ok? ==> old(DecisionGranted(decider, request))
      ensures r.Ok? ==>
        Swept(old(Project()).board, Project().board, RootOf(old(Project()).board, decider)) && Spares(old(Project()).board, Project().board, {})
      ensures old(Healthy()) ==> (r.Ok? <==> old(DecisionGranted(decider, request)))
      ensures old(Healthy()) && r.Err? ==> OnlyGroups(old(Project()), Project())
    {
      hide Live, Valid, MayDecide, Decides, LogCurrent, Calm, DefinitionOf, AllEquipped, KeepsOrchestrations, Grants, InterfacesDistinct, BoardInv,
        Delegated, IsFailedChildOf, IsInterface, InState, Evolves, Swept, Spares, RootOf, Lineage, Sequenced, DurableInv, LiveInv, NodesApart,
        IsChild;
      ghost var d := Project();
      LiveFacts();
      RoleFacts();
      var context :- CheckDecider(decider);
      var (o, failed, definition) := context;
      OneFailure(d.board, decider, o, failed);
      DeciderContext(decider, o, failed);
      var recovery :- MakeDecision(decider, request, o, failed, definition);
      ghost var e := Project();
      DecidedRecord(d, e, decider, request, recovery, o, failed);
      LiveFacts();
      DecisionSweeps(d, e, catalog, decider, o);
      if AllEquipped(d.board, configurations, catalog) { KeptOrchestrationsStayEquipped(d.board, e.board, configurations, catalog); }
      var _ :- RefreshAfterDecision(o, e.board.decisions[failed]);
      DecidesStill(d, e, Project(), decider, request, recovery, o, failed);
      SweptFurther(d.board, e.board, Project().board, RootOf(d.board, decider));
      r := Ok(recovery);
    }

    static lemma SweptFurther(b: Board, c: Board, e: Board, root: ExecutionId)
      requires Lineage(b) && Lineage(c) && Swept(b, c, root) && Swept(c, e, root) && Spares(b, c, {}) && Spares(c, e, {})
      ensures Swept(b, e, root) && Spares(b, e, {})
    {
      SweptTransitive(b, c, e, root);
      SparesTransitive(b, c, e, {}, {});
      hide OnlyInTree, AgentsKept, CreatesAgents, LiveStatesKept, Lineage, Spares;
    }

    static lemma DecisionSweeps(d: Durable, e: Durable, catalog: Catalog, decider: ExecutionId, o: ExecutionId)
      requires Lineage(d.board) && ReadyToRefresh(d, e, catalog, o) && IsChild(d.board, o, decider)
      ensures Swept(d.board, e.board, RootOf(d.board, decider)) && Spares(d.board, e.board, {})
      ensures RootOf(e.board, o) == RootOf(d.board, o) == RootOf(d.board, decider)
    {
      hide Calm, LogCurrent, OnlyInTree, AgentsKept;
      SubtreeStable(d.board, e.board, o, o);
    }

    static lemma DecidedRecord(d: Durable, e: Durable, decider: ExecutionId, request: DecisionRequest, recovery: Option<ExecutionSummary>,
                               o: ExecutionId, failed: ExecutionId)
      requires Decides(d, e, decider, request, recovery, o, failed)
      ensures failed in e.board.decisions && e.board.decisions[failed].failedChild == failed
    {
    }

    // -------------------------------------------------------------------------
    // Driving executions
    // -------------------------------------------------------------------------

    /** A pending agent or root starts running. */
    method BeginDrive(x: ExecutionId) returns (r: Result<(), ConductorError>)
      requires Live() && !IsOrchestration(Project().board, x)
      modifies this
      ensures Live() && Continues()
      ensures r.Ok? <==> InState(old(Project()).board, x, Pending)
      ensures r.Ok? ==> Project() == Moved(old(Project()), x, Running)
      ensures r.Err? ==> Project() == old(Project())
      ensures old(AtRest()) ==> AtRest()
      ensures old(Healthy()) ==> Healthy()
    {
      hide Live, Valid, Cascades, Calm, LogCurrent, RootOf, Quelled, InSubtree, AllEquipped, Unawaited, AwaitedUnbound, Moved, NodesApart, BoardInv,
        DurableInv, LiveInv, Heeds, SparesOthers, NobodyBelow, Unheard, NextEventIs, Tells, Below;
      if x !in executions {
        return Err(UnknownExecution(x));
      }
      if executions[x].summary.state != Pending {
        return Err(InvalidLifecycle(x));
      }
      LiveFacts();
      RunningRests(Project(), catalog, configurations, x);
      r := SetState(x, Running, {});
    }

    /**
     A driven agent or root ends.  A failure takes everything below it along;
     a success counts only if the execution is still running.
     */
    method FinishDrive(x: ExecutionId, succeeded: bool) returns (r: Result<(), ConductorError>)
      requires Live() && !IsOrchestration(Project().board, x)
      modifies this
      ensures Live() && Continues() && Cascades(old(Project()), Project(), RootOf(old(Project()).board, x))
      ensures r.Ok? && old(AtRest()) ==> AtRest()
      ensures r.Ok? && !succeeded ==>
        InState(Project().board, x, Failed)
        && forall y :: ProperDescendant(old(Project()).board, x, y) ==> !IsLive(Project().board, y)
      ensures r.Ok? && !succeeded && SettledWithin(old(Project()).board, catalog, x) ==>
        forall y :: ProperDescendant(Project().board, x, y) ==> !IsLive(Project().board, y)
      ensures r.Ok? && succeeded ==>
        if InState(old(Project()).board, x, Running) then InState(Project().board, x, Completed) else Project() == old(Project())
      ensures r.Ok? ==> SparesOthers(old(Project()).board, Project().board, x)
      ensures !succeeded && IsLive(old(Project()).board, x) && Unheard(old(Project()).board, old(configurations), x, Failed) ==>
        r.Err? && Project().board == WithState(old(Project()).board, x, Failed)
      ensures succeeded && InState(old(Project()).board, x, Running) && Unawaited(old(Project()).board, x) ==>
        r.Ok? && Project().board == WithState(old(Project()).board, x, Completed)
      ensures old(Healthy()) ==> Healthy() && (r.Ok? <==> IsLive(old(Project()).board, x) || succeeded)
      ensures Explains(old(Project()), Project(), map[], {x})
    {
      hide Live, Valid, Cascades, Calm, LogCurrent, RootOf, InSubtree, Healthy, Unawaited, AwaitedUnbound, Moved, SettledWithin, StartsUnder,
        LiveOrchestrations, BusyOutside, BelowFailure, Heeds, NextEventIs, Tells, Explains;
      ghost var d, root := Project(), RootOf(Project().board, x);
      ghost var busy := BusyOutside(d.board, catalog, x);
      CascadesReflexive(d, root);
      ExplainsNothing(d, map[], {x});
      BusyOutsideIsCalm(d.board, catalog, x);
      if succeeded {
        if x !in executions || executions[x].summary.state != Running {
          return Ok(());
        }
        r := SetState(x, Completed, busy);
        StaysHealthy(root);
        if r.Ok? { RestAfter(d, Project(), catalog, x, root); }
      } else {
        r := SetState(x, Failed, busy);
        StaysHealthy(root);
        if r.Ok? { RestAfter(d, Project(), catalog, x, root); }
      }
    }

    /** Interrupts one more execution, which works unless a live orchestration waits for it. */
    method InterruptOne(x: ExecutionId, ghost d: Durable, ghost done: set<ExecutionId>) returns (r: Result<(), ConductorError>)
      requires Live() && configurations == map[] && BoardInv(d.board)
      requires InterruptedSoFar(d.board, Project().board, done) && OnlyBoardAndLog(d, Project())
      requires x !in done && NonResumable(d.board, x) && forall y :: y in done ==> NonResumable(d.board, y)
      modifies this
      ensures Live() && Continues() && OnlyBoardAndLog(d, Project())
      ensures r.Ok? <==> Unawaited(d.board, x)
      ensures r.Ok? ==> InterruptedSoFar(d.board, Project().board, done + {x})
      ensures r.Ok? && old(AtRest()) ==> AtRest()
    {
      hide Live, Valid, Cascades, Calm, LogCurrent, RootOf, Quelled, InSubtree, Healthy, Moved, OutcomeJustified, InterruptedSoFar, Unawaited,
        AwaitedUnbound, NonResumable, BoardInv, DurableInv, LiveInv, NodesApart, LiveOrchestrations, AllEquipped, OnlyBoardAndLog, Heeds,
        SparesOthers, NobodyBelow, NextEventIs, Tells, Explains;
      ghost var e := Project();
      InterruptContext(d.board, e.board, configurations, done, x) by { BoardFacts(d.board); }
      r := SetState(x, Interrupted, {});
      CascadeOnlyLogs(d, e, Project(), RootOf(e.board, x));
      if r.Ok? { RestAfter(e, Project(), catalog, x, RootOf(e.board, x)); }
    }

    /**
     Interrupts, at startup, what was running with an input.  No
     configuration is bound to a restored journal at that point, so this
     succeeds exactly when no live orchestration waits for any of the
     interrupted executions.
     */
    method InterruptNonResumable() returns (r: Result<(), ConductorError>)
      requires Live() && (configurations == map[] || executions == map[])
      modifies this
      ensures Live() && Continues() && OnlyBoardAndLog(old(Project()), Project())
      ensures r.Ok? <==> forall x :: NonResumable(old(Project()).board, x) ==> Unawaited(old(Project()).board, x)
      ensures r.Ok? ==> Interrupts(old(Project()).board, Project().board)
      ensures r.Ok? && old(AtRest()) ==> AtRest()
    {
      hide Live, Valid, InterruptedSoFar, Unawaited, NonResumable, BoardInv, DurableInv, LiveInv, NodesApart, Lineage, Sequenced, AtRest,
        OnlyBoardAndLog, Interrupts, IsOrchestration, ParentOf, IdOrder.IsFirst;
      ghost var d := Project();
      NothingLogged(d);
      LiveFacts();
      OrchestrationPayloads();
      var remaining := set x | x in executions && executions[x].summary.state == Running && executions[x].payload.InvocationPayload?;
      AllNonResumable(d.board, remaining);
      ghost var done: set<ExecutionId> := {};
      while remaining != {}
        invariant Live() && Continues() && OnlyBoardAndLog(d, Project())
        invariant forall x :: x in remaining || x in done <==> NonResumable(d.board, x)
        invariant done !! remaining && forall x :: x in done ==> Unawaited(d.board, x)
        invariant InterruptedSoFar(d.board, Project().board, done)
        invariant old(AtRest()) ==> AtRest()
        decreases |remaining|
      {
        IdOrder.FirstExists(remaining);
        var id :| id in remaining && IdOrder.IsFirst(id, remaining);
        r := InterruptOne(id, d, done);
        if r.Err? {
          return;
        }
        remaining, done := remaining - {id}, done + {id};
      }
      AllInterrupted(d.board, Project().board, done);
      r := Ok(());
    }

    lemma OrchestrationPayloads()
      requires Live()
      ensures forall x :: IsOrchestration(Project().board, x) ==> !Project().board.executions[x].payload.InvocationPayload?
    {
      var b := Project().board;
      forall x | IsOrchestration(b, x) ensures !b.executions[x].payload.InvocationPayload? { ShapedRecord(b, catalog, x); }
    }
  }
}
