/**
 Events as a live runtime builds them: frontend events, new children, and why
 the durable state accepts them.
 */
module Creation {
  import opened PhenixCore
  import opened Records
  import opened Journal
  import opened Configuration
  import opened Delegation
  import opened BoardInvariants
  import opened DurableInvariants
  import opened Scheduler
  import opened Settling

  // ---------------------------------------------------------------------------
  // Frontend events
  // ---------------------------------------------------------------------------

  function EventFor(d: Durable, x: ExecutionId, kind: ExecutionEventKind): ExecutionEvent
    requires x in d.board.executions
  {
    ExecutionEvent(d.nextEvent + 1, d.board.executions[x].summary.session, x, kind)
  }

  /** `d` after the frontend event `kind` of execution `x`. */
  function Pushed(d: Durable, x: ExecutionId, kind: ExecutionEventKind): Durable
    requires x in d.board.executions
  {
    d.(events := d.events + [EventFor(d, x, kind)],
       nextEvent := d.nextEvent + 1,
       nextToolCall := if kind.ToolCallStarted? then d.nextToolCall + 1 else d.nextToolCall)
  }

  lemma PushIsAccepted(d: Durable, configurations: Configurations, catalog: Catalog, x: ExecutionId, kind: ExecutionEventKind)
    requires x in d.board.executions
    ensures var event := FrontendEvent(EventFor(d, x, kind));
      && Stamp(d, configurations, event) == Ok(event)
      && LiveGuard(d, catalog, event)
      && (Accepts(d, event) <==> (kind.ToolCallStarted? ==> kind.toolCall == d.nextToolCall + 1))
      && (Accepts(d, event) ==> Update(d, event) == Pushed(d, x, kind))
  {
  }

  /** The event log tells every execution's current state. */
  ghost predicate LogCurrent(d: Durable) {
    LogAgrees(d.events, d.board.executions)
  }

  lemma PushKeepsLog(d: Durable, x: ExecutionId, kind: ExecutionEventKind)
    requires x in d.board.executions && LogCurrent(d) && !kind.StateChanged?
    ensures LogCurrent(Pushed(d, x, kind))
  {
    LogAfterOther(d.events, d.board.executions, EventFor(d, x, kind));
  }

  // ---------------------------------------------------------------------------
  // Children
  // ---------------------------------------------------------------------------

  /** A new child takes the next id and its parent's session and target. */
  function ChildSummary(b: Board, parent: ExecutionId, kind: ExecutionKind, callable: CallableId): ExecutionSummary
    requires parent in b.executions
  {
    ExecutionSummary(b.nextExecution + 1, b.executions[parent].summary.session, Some(parent), kind, Some(callable),
                     b.executions[parent].summary.target, Pending)
  }

  /** `record` is a new child of `parent` that runs `callable`. */
  ghost predicate IsNewChild(b: Board, record: ExecutionRecord, parent: ExecutionId, kind: ExecutionKind, callable: CallableId) {
    && parent in b.executions
    && record.summary == ChildSummary(b, parent, kind, callable)
    && record.configRevision == b.executions[parent].configRevision
    && callable in b.executions[parent].authority.callables
    && b.executions[parent].authority.Permits(record.authority)
  }

  /** A child of a delegating parent in an open session is accepted, and creating it is live. */
  lemma ChildIsAccepted(d: Durable, configurations: Configurations, catalog: Catalog, parent: ExecutionId, kind: ExecutionKind,
                        callable: CallableId, payload: JournalPayload)
    requires BoardInv(d.board) && parent in d.board.executions && !kind.Root?
    requires callable in d.board.executions[parent].authority.callables
    requires OpenSession(d, d.board.executions[parent].summary.session)
    requires kind.Orchestration? ==>
      payload.JournalOrchestration? && DefinitionIn(catalog, d.board.executions[parent].configRevision, Some(callable)).Some?
    requires Stamp(d, configurations, ExecutionCreated(ChildSummary(d.board, parent, kind, callable), payload)).Ok?
    requires forall revision :: revision in configurations ==> revision in catalog && catalog[revision] == configurations[revision]
    ensures var event := Stamp(d, configurations, ExecutionCreated(ChildSummary(d.board, parent, kind, callable), payload)).value;
      && Accepts(d, event) && LiveGuard(d, catalog, event)
      && IsNewChild(d.board, NewRecord(d, event.execution, event.payload), parent, kind, callable)
      && (!kind.Root? ==> NewRecord(d, event.execution, event.payload).payload == payload.Plain())
      && Update(d, event) == d.(board := WithExecution(d.board, NewRecord(d, event.execution, event.payload)))
  {
    StampedChildIsAdmitted(d, configurations, ChildSummary(d.board, parent, kind, callable), payload);
    StampIsTheGrant(d, configurations, catalog, ChildSummary(d.board, parent, kind, callable), payload);
    hide EffectiveAuthority, Grant, DecisionsSound, InterfacesSound, NodesSound, NodesDistinct;
  }

  /** When stamping a new agent cannot fail. */
  lemma AgentIsStamped(d: Durable, configurations: Configurations, parent: ExecutionId, callable: CallableId, payload: JournalPayload)
    requires parent in d.board.executions
    requires BoundConfiguration(d, configurations, d.board.executions[parent].configRevision).Ok?
    requires var callables := BoundConfiguration(d, configurations, d.board.executions[parent].configRevision).value.callables;
      callable in callables && callables[callable].AgentEntry?
    ensures Stamp(d, configurations, ExecutionCreated(ChildSummary(d.board, parent, Agent, callable), payload)).Ok?
  {
  }
}
