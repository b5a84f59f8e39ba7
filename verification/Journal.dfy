/**
 The journal of domain events and the durable state it determines.

 `Accepts` says which events the durable state takes, `Update` what a taken
 event makes of it, and `Replay` folds a whole journal.  The part of the state
 that scheduling looks at is grouped in a `Board`.
 */
module Journal {
  import opened PhenixCore
  import opened Records
  import IdOrder

  const JOURNAL_FORMAT_VERSION: nat := 2

  datatype ResolvedRoute = ResolvedRoute(requestedTarget: ExecutionTarget, model: string, configRevision: ConfigRevisionId)

  type FileVersion = string

  datatype DomainEvent =
    | ConfigurationRevisionActivated(revision: ConfigRevisionId, fingerprint: ConfigRevisionFingerprint)
    | SessionCreated(session: SessionSummary)
    | SessionConfigRebased(rebased: SessionId, rebasedTo: ConfigRevisionId)
    | SessionRenamed(renamed: SessionId, name: string)
    | SessionTargetChanged(retargeted: SessionId, target: ExecutionTarget)
    | SessionClosed(closed: SessionId)
    | ExecutionCreated(execution: ExecutionSummary, payload: JournalPayload)
    | ExecutionStateChanged(changed: ExecutionId, state: ExecutionState)
    | AttemptGroupCreated(group: AttemptGroup)
    | AttemptFailureRecorded(failedGroup: AttemptGroupId, failure: FailureAttemptSummary)
    | AttemptRetryStarted(retriedGroup: AttemptGroupId, retry: ExecutionId)
    | OrchestrationFailureInterfaceStarted(interfaceParent: ExecutionId, interfaceFor: ExecutionId, interface: ExecutionId)
    | OrchestrationDecisionMade(decision: DecisionRecord)
    | OrchestrationNodeStarted(orchestration: ExecutionId, node: OrchestrationNodeId, nodeChild: ExecutionId)
    | InvocationResolved(resolved: ExecutionId, route: ResolvedRoute)
    | WorkspaceCheckpointCaptured(checkpointed: ExecutionId, workspace: WorkspaceId)
    | WorkspaceFileObserved(observer: ExecutionId, path: string, version: FileVersion)
    | FrontendEvent(event: ExecutionEvent)

  datatype JournalEntry = JournalEntry(sequence: nat, event: DomainEvent)

  datatype RuntimeJournal = RuntimeJournal(
    formatVersion: nat,
    configRevision: ConfigRevisionId,
    configFingerprint: ConfigRevisionFingerprint,
    entries: seq<JournalEntry>)

  datatype JournalError =
    | InvalidSequence(expected: nat, actual: nat)
    | InvalidFormat
    | InvalidEvent

  /** The executions and the bindings between them. */
  datatype Board = Board(
    executions: Executions,
    decisions: map<ExecutionId, DecisionRecord>,
    interfaces: map<ExecutionId, ExecutionId>,
    nodes: map<ExecutionId, OrchestrationNodeId>,
    nextExecution: nat)

  datatype Durable = Durable(
    configRevisions: map<ConfigRevisionId, ConfigRevisionFingerprint>,
    currentConfigRevision: ConfigRevisionId,
    sessions: map<SessionId, SessionSummary>,
    board: Board,
    attemptGroups: map<AttemptGroupId, AttemptGroup>,
    resolvedRoutes: map<ExecutionId, ResolvedRoute>,
    readSets: map<ExecutionId, map<string, FileVersion>>,
    events: seq<ExecutionEvent>,
    nextConfigRevision: nat,
    nextSession: nat,
    nextAttemptGroup: nat,
    nextEvent: nat,
    nextToolCall: nat)

  const EMPTY_BOARD := Board(map[], map[], map[], map[], 0)

  /** The durable state a journal starts from. */
  function Initial(revision: ConfigRevisionId, fingerprint: ConfigRevisionFingerprint): Durable {
    Durable(map[revision := fingerprint], revision, map[], EMPTY_BOARD, map[], map[], map[], [], 1, 0, 0, 0, 0)
  }

  // ---------------------------------------------------------------------------
  // Events on the board
  // ---------------------------------------------------------------------------

  predicate IsChild(b: Board, parent: ExecutionId, child: ExecutionId) {
    child in b.executions && b.executions[child].summary.parent == Some(parent)
  }

  predicate IsAgent(b: Board, id: ExecutionId) {
    id in b.executions && b.executions[id].summary.kind.Agent?
  }

  predicate InState(b: Board, id: ExecutionId, s: ExecutionState) {
    id in b.executions && b.executions[id].summary.state == s
  }

  predicate IsLive(b: Board, id: ExecutionId) {
    id in b.executions && !IsTerminal(b.executions[id].summary.state)
  }

  predicate IsOrchestration(b: Board, id: ExecutionId) {
    id in b.executions && b.executions[id].summary.kind.Orchestration?
  }

  predicate IsFailedChildOf(b: Board, parent: ExecutionId, child: ExecutionId) {
    IsChild(b, parent, child) && IsAgent(b, child) && InState(b, child, Failed)
  }

  /** The parent's say on a new execution: it is known, delegates the callable and permits the authority. */
  predicate ParentAdmits(b: Board, x: ExecutionSummary, authority: ExecutionAuthority) {
    x.parent.Some? ==>
      && x.parent.value in b.executions
      && (x.callable.Some? ==> x.callable.value in b.executions[x.parent.value].authority.callables)
      && b.executions[x.parent.value].authority.Permits(authority)
  }

  predicate AcceptsInterface(b: Board, parent: ExecutionId, failed: ExecutionId, interface: ExecutionId) {
    && failed !in b.interfaces
    && IsOrchestration(b, parent) && InState(b, parent, Running)
    && IsFailedChildOf(b, parent, failed)
    && IsChild(b, parent, interface) && IsAgent(b, interface) && InState(b, interface, Pending)
    && interface == b.nextExecution
    && interface !in b.nodes
  }

  predicate AcceptsNode(b: Board, orchestration: ExecutionId, node: OrchestrationNodeId, child: ExecutionId) {
    && IsOrchestration(b, orchestration)
    && IsChild(b, orchestration, child)
    && (forall other :: other in b.nodes && IsChild(b, orchestration, other) ==> b.nodes[other] != node)
    && child !in b.nodes
  }

  predicate DeciderAccepted(b: Board, r: DecisionRecord) {
    match r.decider
    case Some(decider) =>
      && r.failedChild in b.interfaces && b.interfaces[r.failedChild] == decider
      && IsChild(b, r.parent, decider) && IsAgent(b, decider)
      && (InState(b, decider, Running) || InState(b, decider, Completed))
    case None => r.decision.Fail?
  }

  predicate RecoveryAccepted(b: Board, r: DecisionRecord) {
    var recovery := r.decision.RecoveryExecution();
    recovery.Some? ==>
      && recovery.value == b.nextExecution
      && IsChild(b, r.parent, recovery.value) && IsAgent(b, recovery.value) && InState(b, recovery.value, Pending)
      && recovery.value !in b.nodes
      && recovery.value !in b.interfaces.Values
      && (forall f :: f in b.decisions ==> b.decisions[f].decision.RecoveryExecution() != recovery)
  }

  predicate AcceptsDecision(b: Board, r: DecisionRecord) {
    && r.failedChild !in b.decisions
    && IsOrchestration(b, r.parent) && InState(b, r.parent, Running)
    && IsFailedChildOf(b, r.parent, r.failedChild)
    && DeciderAccepted(b, r)
    && RecoveryAccepted(b, r)
    && (r.decision.ChooseAnotherChild? ==>
          b.executions[r.decision.execution].summary.callable != b.executions[r.failedChild].summary.callable)
  }

  function WithState(b: Board, id: ExecutionId, s: ExecutionState): Board
    requires id in b.executions
  {
    var record := b.executions[id];
    b.(executions := b.executions[id := record.(summary := record.summary.(state := s))])
  }

  function WithExecution(b: Board, record: ExecutionRecord): Board {
    b.(executions := b.executions[record.summary.id := record], nextExecution := b.nextExecution + 1)
  }

  // ---------------------------------------------------------------------------
  // Attempt groups
  // ---------------------------------------------------------------------------

  predicate InSomeGroup(groups: map<AttemptGroupId, AttemptGroup>, execution: ExecutionId) {
    exists g :: g in groups && groups[g].ContainsExecution(execution)
  }

  predicate AcceptsGroup(d: Durable, group: AttemptGroup) {
    && group.id == d.nextAttemptGroup + 1
    && |group.attempts| == 1 && |group.failures| == 1
    && group.failures[0].execution == group.attempts[0] && group.failures[0].attempt == 1
    && var first := group.attempts[0];
    && IsFailedChildOf(d.board, group.parent, first)
    && d.board.executions[first].summary.callable == Some(group.callable)
    && !InSomeGroup(d.attemptGroups, first)
    && group.id !in d.attemptGroups
  }

  predicate AcceptsFailure(d: Durable, id: AttemptGroupId, failure: FailureAttemptSummary) {
    && id in d.attemptGroups
    && var group := d.attemptGroups[id];
    && group.LatestExecution() == Some(failure.execution)
    && group.AttemptForExecution(failure.execution) == Some(failure.attempt)
    && !group.HasFailureFor(failure.execution)
    && InState(d.board, failure.execution, Failed)
  }

  predicate AcceptsRetry(d: Durable, id: AttemptGroupId, retry: ExecutionId) {
    && id in d.attemptGroups
    && var group := d.attemptGroups[id];
    && group.LatestExecution().Some?
    && group.HasFailureFor(group.LatestExecution().value)
    && !InSomeGroup(d.attemptGroups, retry)
    && IsChild(d.board, group.parent, retry) && IsAgent(d.board, retry) && InState(d.board, retry, Pending)
    && d.board.executions[retry].summary.callable == Some(group.callable)
  }

  /** A retry decision is backed by one group whose latest attempt is the retry. */
  predicate RetryBacked(d: Durable, r: DecisionRecord) {
    r.decision.Retry? ==>
      exists g :: g in d.attemptGroups
        && d.attemptGroups[g].ContainsExecution(r.failedChild)
        && d.attemptGroups[g].LatestExecution() == Some(r.decision.execution)
  }

  // ---------------------------------------------------------------------------
  // Every event
  // ---------------------------------------------------------------------------

  predicate OpenSession(d: Durable, id: SessionId) {
    id in d.sessions && d.sessions[id].state.Active?
  }

  predicate AcceptsSession(d: Durable, s: SessionSummary) {
    && s.configRevision in d.configRevisions
    && s.state.Active?
    && s.id == d.nextSession + 1
    && (match s.parentSession
        case Some(parent) => parent in d.sessions && d.sessions[parent].workspace == s.workspace
        case None =>
          forall first :: first in d.sessions && IdOrder.IsFirst(first, d.sessions.Keys) ==> d.sessions[first].workspace == s.workspace)
    && s.id !in d.sessions
  }

  predicate AcceptsExecution(d: Durable, x: ExecutionSummary, payload: JournalPayload) {
    && OpenSession(d, x.session)
    && x.id == d.board.nextExecution + 1
    && ParentAdmits(d.board, x, payload.authority)
    && x.id !in d.board.executions
  }

  predicate AcceptsRoute(d: Durable, x: ExecutionId, route: ResolvedRoute) {
    && x in d.board.executions
    && var record := d.board.executions[x];
    && record.payload.InvocationPayload?
    && route.configRevision == record.configRevision
    && route.requestedTarget == record.summary.target
    && (route.requestedTarget.Fixed? ==> route.model == route.requestedTarget.model)
    && x !in d.resolvedRoutes
  }

  predicate AcceptsCheckpoint(d: Durable, x: ExecutionId, workspace: WorkspaceId) {
    && InState(d.board, x, Pending)
    && d.board.executions[x].authority.filesystem.Write?
    && d.board.executions[x].summary.session in d.sessions
    && d.sessions[d.board.executions[x].summary.session].workspace == workspace
  }

  predicate AcceptsFrontendEvent(d: Durable, e: ExecutionEvent) {
    && e.sequence == d.nextEvent + 1
    && e.execution in d.board.executions
    && d.board.executions[e.execution].summary.session == e.session
    && (e.kind.ToolCallStarted? ==> e.kind.toolCall == d.nextToolCall + 1)
  }

  predicate Accepts(d: Durable, event: DomainEvent) {
    match event
    case ConfigurationRevisionActivated(revision, _) =>
      revision == d.nextConfigRevision + 1 && revision !in d.configRevisions
    case SessionCreated(session) => AcceptsSession(d, session)
    case SessionConfigRebased(id, revision) => revision in d.configRevisions && OpenSession(d, id)
    case SessionRenamed(id, _) => OpenSession(d, id)
    case SessionTargetChanged(id, _) => OpenSession(d, id)
    case SessionClosed(id) => OpenSession(d, id) && SessionQuiescent(d.board, id)
    case ExecutionCreated(x, payload) => AcceptsExecution(d, x, payload)
    case ExecutionStateChanged(x, _) => IsLive(d.board, x)
    case AttemptGroupCreated(group) => AcceptsGroup(d, group)
    case AttemptFailureRecorded(id, failure) => AcceptsFailure(d, id, failure)
    case AttemptRetryStarted(id, retry) => AcceptsRetry(d, id, retry)
    case OrchestrationFailureInterfaceStarted(p, f, i) => AcceptsInterface(d.board, p, f, i)
    case OrchestrationDecisionMade(r) => AcceptsDecision(d.board, r) && RetryBacked(d, r)
    case OrchestrationNodeStarted(o, node, child) => AcceptsNode(d.board, o, node, child)
    case InvocationResolved(x, route) => AcceptsRoute(d, x, route)
    case WorkspaceCheckpointCaptured(x, workspace) => AcceptsCheckpoint(d, x, workspace)
    case WorkspaceFileObserved(x, _, _) => InState(d.board, x, Running)
    case FrontendEvent(e) => AcceptsFrontendEvent(d, e)
  }

  predicate SessionQuiescent(b: Board, session: SessionId) {
    forall id :: id in b.executions && b.executions[id].summary.session == session ==> !IsLive(b, id)
  }

  /** The pinned revision of a new execution: its parent's, or else its session's. */
  function PinnedRevision(d: Durable, x: ExecutionSummary): ConfigRevisionId
    requires x.session in d.sessions
    requires x.parent.Some? ==> x.parent.value in d.board.executions
  {
    if x.parent.Some? then d.board.executions[x.parent.value].configRevision else d.sessions[x.session].configRevision
  }

  function NewRecord(d: Durable, x: ExecutionSummary, payload: JournalPayload): ExecutionRecord
    requires x.session in d.sessions
    requires x.parent.Some? ==> x.parent.value in d.board.executions
  {
    ExecutionRecord(x, MaterializedPayload(d.board.executions, x, d.events, payload), payload.authority, PinnedRevision(d, x))
  }

  function Observed(files: map<string, FileVersion>, path: string, version: FileVersion): map<string, FileVersion> {
    if path in files then files else files[path := version]
  }

  function ReadSet(d: Durable, x: ExecutionId): map<string, FileVersion> {
    if x in d.readSets then d.readSets[x] else map[]
  }

  function Update(d: Durable, event: DomainEvent): Durable
    requires Accepts(d, event)
  {
    match event
    case ConfigurationRevisionActivated(revision, fingerprint) =>
      d.(configRevisions := d.configRevisions[revision := fingerprint],
         currentConfigRevision := revision,
         nextConfigRevision := d.nextConfigRevision + 1)
    case SessionCreated(session) =>
      d.(sessions := d.sessions[session.id := session], nextSession := d.nextSession + 1)
    case SessionConfigRebased(id, revision) =>
      d.(sessions := d.sessions[id := d.sessions[id].(configRevision := revision)])
    case SessionRenamed(id, name) =>
      d.(sessions := d.sessions[id := d.sessions[id].(name := Some(name))])
    case SessionTargetChanged(id, target) =>
      d.(sessions := d.sessions[id := d.sessions[id].(defaultTarget := target)])
    case SessionClosed(id) =>
      d.(sessions := d.sessions[id := d.sessions[id].(state := Closed)])
    case ExecutionCreated(x, payload) =>
      d.(board := WithExecution(d.board, NewRecord(d, x, payload)))
    case ExecutionStateChanged(x, state) =>
      d.(board := WithState(d.board, x, state))
    case AttemptGroupCreated(group) =>
      d.(attemptGroups := d.attemptGroups[group.id := group], nextAttemptGroup := d.nextAttemptGroup + 1)
    case AttemptFailureRecorded(id, failure) =>
      d.(attemptGroups := d.attemptGroups[id := d.attemptGroups[id].RecordFailure(failure)])
    case AttemptRetryStarted(id, retry) =>
      d.(attemptGroups := d.attemptGroups[id := d.attemptGroups[id].RecordRetry(retry)])
    case OrchestrationFailureInterfaceStarted(_, failed, interface) =>
      d.(board := d.board.(interfaces := d.board.interfaces[failed := interface]))
    case OrchestrationDecisionMade(r) =>
      d.(board := d.board.(decisions := d.board.decisions[r.failedChild := r]))
    case OrchestrationNodeStarted(_, node, child) =>
      d.(board := d.board.(nodes := d.board.nodes[child := node]))
    case InvocationResolved(x, route) =>
      d.(resolvedRoutes := d.resolvedRoutes[x := route])
    case WorkspaceCheckpointCaptured(_, _) => d
    case WorkspaceFileObserved(x, path, version) =>
      d.(readSets := d.readSets[x := Observed(ReadSet(d, x), path, version)])
    case FrontendEvent(e) =>
      d.(events := d.events + [e],
         nextEvent := e.sequence,
         nextToolCall := if e.kind.ToolCallStarted? then d.nextToolCall + 1 else d.nextToolCall)
  }

  function Apply(d: Durable, event: DomainEvent): Result<Durable, JournalError> {
    if Accepts(d, event) then Ok(Update(d, event)) else Err(InvalidEvent)
  }

  /** Folds `events` from `d`, stopping at the first rejected event. */
  function Replay(d: Durable, events: seq<DomainEvent>): Result<Durable, JournalError> {
    if events == [] then Ok(d)
    else match Replay(d, events[..|events| - 1])
      case Ok(before) => Apply(before, events[|events| - 1])
      case Err(e) => Err(e)
  }

  // ---------------------------------------------------------------------------
  // Sessions, routes and observed files
  // ---------------------------------------------------------------------------

  /** `e` is `d` but for the session `id`, which now reads `session`. */
  ghost predicate OnlySession(d: Durable, e: Durable, id: SessionId, session: SessionSummary) {
    && id in d.sessions && id in e.sessions && e.sessions[id] == session
    && e.sessions.Keys == d.sessions.Keys && (forall other :: other in d.sessions && other != id ==> e.sessions[other] == d.sessions[other])
    && e == d.(sessions := e.sessions)
  }

  /** An event about a session changes what it is about in that session, which was open, and nothing else. */
  lemma SessionEventsChangeOneField(d: Durable, event: DomainEvent)
    requires Accepts(d, event)
    ensures match event
      case SessionConfigRebased(id, revision) =>
        && OpenSession(d, id) && revision in d.configRevisions
        && var s := d.sessions[id];
        OnlySession(d, Update(d, event), id,
          SessionSummary(s.id, s.parentSession, s.name, s.workspace, revision, s.defaultTarget, Active))
      case SessionRenamed(id, name) =>
        && OpenSession(d, id)
        && var s := d.sessions[id];
        OnlySession(d, Update(d, event), id,
          SessionSummary(s.id, s.parentSession, Some(name), s.workspace, s.configRevision, s.defaultTarget, Active))
      case SessionTargetChanged(id, target) =>
        && OpenSession(d, id)
        && var s := d.sessions[id];
        OnlySession(d, Update(d, event), id,
          SessionSummary(s.id, s.parentSession, s.name, s.workspace, s.configRevision, target, Active))
      case SessionClosed(id) =>
        && OpenSession(d, id) && (forall x :: x in d.board.executions && d.board.executions[x].summary.session == id ==> !IsLive(d.board, x))
        && var s := d.sessions[id];
        OnlySession(d, Update(d, event), id,
          SessionSummary(s.id, s.parentSession, s.name, s.workspace, s.configRevision, s.defaultTarget, Closed))
      case _ => forall id :: id in d.sessions ==> id in Update(d, event).sessions && Update(d, event).sessions[id] == d.sessions[id]
  {
    hide AcceptsExecution, AcceptsGroup, AcceptsFailure, AcceptsRetry, AcceptsInterface, AcceptsDecision, AcceptsNode, AcceptsRoute, AcceptsCheckpoint,
      AcceptsFrontendEvent, RetryBacked, NewRecord, WithExecution, WithState;
  }

  /** What `x` is known to have read, and how it was routed. */
  ghost predicate RecordStands(d: Durable, e: Durable) {
    && (forall x, path :: x in d.readSets && path in d.readSets[x] ==>
          x in e.readSets && path in e.readSets[x] && e.readSets[x][path] == d.readSets[x][path])
    && (forall x :: x in d.resolvedRoutes ==> x in e.resolvedRoutes && e.resolvedRoutes[x] == d.resolvedRoutes[x])
  }

  /** The first observation of a file is put on record, and a later one is not. */
  lemma FirstObservationIsRecorded(d: Durable, x: ExecutionId, path: string, version: FileVersion)
    requires Accepts(d, WorkspaceFileObserved(x, path, version))
    ensures var e := Update(d, WorkspaceFileObserved(x, path, version));
      && x in e.readSets && path in e.readSets[x]
      && e.readSets[x][path] == (if x in d.readSets && path in d.readSets[x] then d.readSets[x][path] else version)
      && (forall other, p :: (other, p) != (x, path) ==>
            (other in e.readSets && p in e.readSets[other] <==> other in d.readSets && p in d.readSets[other]))
      && e == d.(readSets := e.readSets)
      && RecordStands(d, e)
  {
  }

  lemma StepKeepsRecord(d: Durable, event: DomainEvent)
    requires Accepts(d, event)
    ensures RecordStands(d, Update(d, event))
  {
    hide AcceptsExecution, AcceptsGroup, AcceptsFailure, AcceptsRetry, AcceptsInterface, AcceptsDecision, AcceptsNode, AcceptsCheckpoint,
      AcceptsFrontendEvent, AcceptsSession, RetryBacked, NewRecord, WithExecution, WithState;
  }

  /** Whatever is recorded afterwards, first observations and routes stand. */
  lemma {:induction false} ObservationsStand(d: Durable, events: seq<DomainEvent>, k: nat)
    requires k <= |events| && Replay(d, events).Ok?
    ensures Replay(d, events[..k]).Ok? && RecordStands(Replay(d, events[..k]).value, Replay(d, events).value)
  {
    hide RecordStands, Accepts, Update;
    if k < |events| {
      var before := events[..|events| - 1];
      ObservationsStand(d, before, k);
      assert before[..k] == events[..k];
      StepKeepsRecord(Replay(d, before).value, events[|events| - 1]);
      RecordStandsFurther(Replay(d, events[..k]).value, Replay(d, before).value, Replay(d, events).value);
    } else {
      assert events[..k] == events;
      RecordStandsItself(Replay(d, events).value);
    }
  }

  lemma RecordStandsItself(d: Durable)
    ensures RecordStands(d, d)
  {
  }

  lemma RecordStandsFurther(d: Durable, e: Durable, f: Durable)
    requires RecordStands(d, e) && RecordStands(e, f)
    ensures RecordStands(d, f)
  {
  }

  // ---------------------------------------------------------------------------
  // Journals
  // ---------------------------------------------------------------------------

  predicate Dense(entries: seq<JournalEntry>) {
    forall i :: 0 <= i < |entries| ==> entries[i].sequence == i + 1
  }

  function Events(entries: seq<JournalEntry>): seq<DomainEvent> {
    seq(|entries|, i requires 0 <= i < |entries| => entries[i].event)
  }

  function ReplayJournal(journal: RuntimeJournal): Result<Durable, JournalError> {
    Replay(Initial(journal.configRevision, journal.configFingerprint), Events(journal.entries))
  }

  method ValidateStructure(journal: RuntimeJournal) returns (r: Result<(), JournalError>)
    ensures r.Ok? <==> journal.formatVersion == JOURNAL_FORMAT_VERSION && Dense(journal.entries)
    ensures journal.formatVersion != JOURNAL_FORMAT_VERSION <==> r == Err(InvalidFormat)
    ensures r.Err? && r.error.InvalidSequence? ==>
      var i := r.error.expected - 1;
      0 <= i < |journal.entries| && Dense(journal.entries[..i]) &&
      journal.entries[i].sequence == r.error.actual != r.error.expected
  {
    if journal.formatVersion != JOURNAL_FORMAT_VERSION {
      return Err(InvalidFormat);
    }
    for index := 0 to |journal.entries|
      invariant Dense(journal.entries[..index])
    {
      var expected := index + 1;
      if journal.entries[index].sequence != expected {
        return Err(InvalidSequence(expected, journal.entries[index].sequence));
      }
    }
    r := Ok(());
  }

  lemma {:induction false} ReplayAppends(d: Durable, events: seq<DomainEvent>, event: DomainEvent)
    requires Replay(d, events).Ok?
    ensures Replay(d, events + [event]) == Apply(Replay(d, events).value, event)
  {
    assert (events + [event])[..|events|] == events;
  }

  lemma EventsAppends(entries: seq<JournalEntry>, entry: JournalEntry)
    ensures Events(entries + [entry]) == Events(entries) + [entry.event]
  {
  }

  /** A journal that replays has replayed at each of its prefixes. */
  lemma {:induction false} PrefixReplays(d: Durable, events: seq<DomainEvent>, k: nat)
    requires k <= |events|
    requires Replay(d, events).Ok?
    ensures Replay(d, events[..k]).Ok?
  {
    if k < |events| {
      var before := events[..|events| - 1];
      PrefixReplays(d, before, k);
      assert before[..k] == events[..k];
    } else {
      assert events[..k] == events;
    }
  }

  lemma RejectedPrefixRejects(d: Durable, events: seq<DomainEvent>, k: nat)
    requires k <= |events| && Replay(d, events[..k]).Err?
    ensures Replay(d, events).Err?
  {
    if Replay(d, events).Ok? {
      PrefixReplays(d, events, k);
      assert false;
    }
  }
}
