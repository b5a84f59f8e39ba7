/**
 The authority of new executions: what the configuration grants, attenuated by
 what the parent holds.
 */
module Delegation {
  import opened PhenixCore
  import opened Records
  import opened Journal
  import opened Configuration
  import opened BoardInvariants

  datatype ConductorError =
    | UnknownSession(session: SessionId)
    | UnknownExecution(execution: ExecutionId)
    | UnknownConfigRevision(revision: ConfigRevisionId)
    | UnboundConfigRevision(revision: ConfigRevisionId)
    | ConfigRevisionAlreadyBound(revision: ConfigRevisionId)
    | ConfigRevisionFingerprintMismatch(revision: ConfigRevisionId)
    | ClosedSession(session: SessionId)
    | SessionHasActiveExecutions(session: SessionId)
    | WorkspaceMismatch(expected: WorkspaceId, actual: WorkspaceId)
    | EmptyInput
    | InvalidLifecycle(execution: ExecutionId)
    | NonModelExecution(execution: ExecutionId)
    | DelegationDenied(parent: ExecutionId, callable: CallableId)
    | PolicyDenied(execution: ExecutionId)
    | FailureDecisionDenied(parent: ExecutionId, decider: ExecutionId)
    | InvalidFailureDecision(parent: ExecutionId, failedChild: ExecutionId)
    | Registry(registryError: CallableRegistryError)
    | Rejected(journalError: JournalError)

  function AgentAuthorities(callables: Callables): set<ExecutionAuthority> {
    set id | id in callables && callables[id].AgentEntry? :: callables[id].authority
  }

  function Startable(callables: Callables): set<CallableId> {
    set id | id in callables && !callables[id].Descriptor().kind.ToolCallable?
  }

  function NodeAuthorities(callables: Callables, nodes: seq<OrchestrationNode>): Result<set<ExecutionAuthority>, CallableRegistryError> {
    if nodes == [] then Ok({})
    else match NodeAuthorities(callables, nodes[..|nodes| - 1])
      case Err(e) => Err(e)
      case Ok(before) =>
        match AgentAuthority(callables, nodes[|nodes| - 1].callable)
        case Err(e) => Err(e)
        case Ok(a) => Ok(before + {a})
  }

  function NodeCallables(definition: OrchestrationDefinition): set<CallableId> {
    (set i | 0 <= i < |definition.nodes| :: definition.nodes[i].callable) +
    if definition.interfaceAgent.Some? then {definition.interfaceAgent.value} else {}
  }

  function OrchestrationAuthority(callables: Callables, definition: OrchestrationDefinition): Result<ExecutionAuthority, CallableRegistryError> {
    match NodeAuthorities(callables, definition.nodes)
    case Err(e) => Err(e)
    case Ok(nodes) =>
      if definition.interfaceAgent.None? then
        var envelope := Envelope(nodes);
        Ok(envelope.(callables := envelope.callables + NodeCallables(definition)))
      else match AgentAuthority(callables, definition.interfaceAgent.value)
        case Err(e) => Err(e)
        case Ok(a) =>
          var envelope := Envelope(nodes + {a});
          Ok(envelope.(callables := envelope.callables + NodeCallables(definition)))
  }

  /** What the configuration grants an execution of this kind and callable. */
  function ConfiguredAuthority(callables: Callables, kind: ExecutionKind, callable: Option<CallableId>)
    : Result<ExecutionAuthority, CallableRegistryError>
  {
    match kind
    case Root =>
      var envelope := Envelope(AgentAuthorities(callables));
      Ok(envelope.(callables := envelope.callables + Startable(callables)))
    case Agent =>
      if callable.None? then Ok(ExecutionAuthority.READ_ONLY) else AgentAuthority(callables, callable.value)
    case Orchestration =>
      if callable.None? then Ok(ExecutionAuthority.READ_ONLY)
      else match OrchestrationCalled(callables, callable.value)
        case Err(e) => Err(e)
        case Ok(definition) => OrchestrationAuthority(callables, definition)
  }

  /** `bound` permits everything that the configuration gives an execution of this kind and callable. */
  ghost predicate Covers(callables: Callables, kind: ExecutionKind, callable: Option<CallableId>, bound: ExecutionAuthority) {
    match kind
    case Root =>
      && (forall id :: id in callables && callables[id].AgentEntry? ==> bound.Permits(callables[id].authority))
      && (forall id :: id in callables && (callables[id].Descriptor().kind.AgentCallable? || callables[id].Descriptor().kind.OrchestrationCallable?)
            ==> id in bound.callables)
    case Agent =>
      callable.Some? ==> CoversAgent(callables, callable.value, bound)
    case Orchestration =>
      callable.Some? && callable.value in callables && callables[callable.value].OrchestrationEntry? ==>
        var definition := callables[callable.value].definition;
        && (forall i :: 0 <= i < |definition.nodes| ==>
              CoversAgent(callables, definition.nodes[i].callable, bound) && definition.nodes[i].callable in bound.callables)
        && (definition.interfaceAgent.Some? ==>
              CoversAgent(callables, definition.interfaceAgent.value, bound) && definition.interfaceAgent.value in bound.callables)
  }

  ghost predicate CoversAgent(callables: Callables, id: CallableId, bound: ExecutionAuthority) {
    IsAgentCallable(callables, id) ==> bound.Permits(callables[id].authority)
  }

  /** The least authority that covers what the configuration gives: what permits it is what covers. */
  ghost predicate LeastCover(callables: Callables, kind: ExecutionKind, callable: Option<CallableId>, grant: ExecutionAuthority) {
    forall bound: ExecutionAuthority :: bound.Permits(grant) <==> Covers(callables, kind, callable, bound)
  }

  /** The callable is not registered, or as something else. */
  ghost predicate IsNot(callables: Callables, id: CallableId, expected: CallableKind, e: CallableRegistryError) {
    if id !in callables then e == UnknownCallable(id) else e == WrongKind(id, expected, callables[id].Descriptor().kind)
  }

  /** Why there is nothing to grant: the first callable that is looked up and not registered as what it should be. */
  ghost predicate Refuses(callables: Callables, kind: ExecutionKind, callable: Option<CallableId>, e: CallableRegistryError) {
    && callable.Some?
    && match kind
      case Root => false
      case Agent => !IsAgentCallable(callables, callable.value) && IsNot(callables, callable.value, AgentCallable, e)
      case Orchestration =>
        if callable.value !in callables || !callables[callable.value].OrchestrationEntry? then
          IsNot(callables, callable.value, OrchestrationCallable, e)
        else
          var definition := callables[callable.value].definition;
          if forall i :: 0 <= i < |definition.nodes| ==> IsAgentCallable(callables, definition.nodes[i].callable) then
            && definition.interfaceAgent.Some? && !IsAgentCallable(callables, definition.interfaceAgent.value)
            && IsNot(callables, definition.interfaceAgent.value, AgentCallable, e)
          else
            StrangerRefused(callables, definition.nodes, e)
  }

  ghost predicate StrangerRefused(callables: Callables, nodes: seq<OrchestrationNode>, e: CallableRegistryError) {
    exists i :: FirstStranger(callables, nodes, i) && IsNot(callables, nodes[i].callable, AgentCallable, e)
  }

  ghost predicate FirstStranger(callables: Callables, nodes: seq<OrchestrationNode>, i: int) {
    && 0 <= i < |nodes| && !IsAgentCallable(callables, nodes[i].callable)
    && forall j :: 0 <= j < i ==> IsAgentCallable(callables, nodes[j].callable)
  }

  type Configurations = map<ConfigRevisionId, CompiledConfiguration>

  function BoundConfiguration(d: Durable, configurations: Configurations, revision: ConfigRevisionId)
    : Result<CompiledConfiguration, ConductorError>
  {
    if revision !in d.configRevisions then Err(UnknownConfigRevision(revision))
    else if revision !in configurations then Err(UnboundConfigRevision(revision))
    else Ok(configurations[revision])
  }

  function GoverningRevision(d: Durable, x: ExecutionSummary): Result<ConfigRevisionId, ConductorError> {
    if x.parent.Some? then
      if x.parent.value in d.board.executions then Ok(d.board.executions[x.parent.value].configRevision)
      else Err(UnknownExecution(x.parent.value))
    else if x.session in d.sessions then Ok(d.sessions[x.session].configRevision)
    else Err(UnknownSession(x.session))
  }

  /** The authority a new execution receives. */
  function EffectiveAuthority(d: Durable, configurations: Configurations, x: ExecutionSummary): Result<ExecutionAuthority, ConductorError> {
    match GoverningRevision(d, x)
    case Err(e) => Err(e)
    case Ok(revision) =>
      match BoundConfiguration(d, configurations, revision)
      case Err(e) => Err(e)
      case Ok(configuration) =>
        match ConfiguredAuthority(configuration.callables, x.kind, x.callable)
        case Err(e) => Err(Registry(e))
        case Ok(configured) =>
          if x.parent.None? then Ok(configured)
          else Ok(d.board.executions[x.parent.value].authority.Attenuate(configured))
  }

  /** Creations are stamped with the effective authority; other events are recorded as they are. */
  function Stamp(d: Durable, configurations: Configurations, event: DomainEvent): Result<DomainEvent, ConductorError> {
    if event.ExecutionCreated? then
      match EffectiveAuthority(d, configurations, event.execution)
      case Err(e) => Err(e)
      case Ok(authority) => Ok(event.(payload := event.payload.WithAuthority(authority)))
    else Ok(event)
  }

  /** What the configuration of `revision` grants `x`, attenuated by what the parent of `x` holds. */
  function Grant(b: Board, catalog: Catalog, x: ExecutionSummary, revision: ConfigRevisionId): Option<ExecutionAuthority> {
    if revision !in catalog then None
    else match ConfiguredAuthority(catalog[revision].callables, x.kind, x.callable)
      case Err(_) => None
      case Ok(configured) =>
        if x.parent.None? then Some(configured)
        else if x.parent.value in b.executions then Some(b.executions[x.parent.value].authority.Attenuate(configured))
        else None
  }

  /** Every execution holds exactly what it was granted. */
  ghost predicate GrantsHeld(b: Board, catalog: Catalog) {
    forall id :: id in b.executions ==>
      Grant(b, catalog, b.executions[id].summary, b.executions[id].configRevision) == Some(b.executions[id].authority)
  }

  /** `x` is given the least cover, as far as its parent permits it. */
  ghost predicate Entrusted(b: Board, callables: Callables, x: ExecutionSummary, authority: ExecutionAuthority) {
    && (forall e :: !Refuses(callables, x.kind, x.callable, e))
    && exists grant ::
        && LeastCover(callables, x.kind, x.callable, grant)
        && authority == if x.parent.Some? && x.parent.value in b.executions
            then b.executions[x.parent.value].authority.Attenuate(grant) else grant
  }

  /** `r` is the authority that a new execution `x` is entrusted with, or why there is none. */
  ghost predicate Entrusts(d: Durable, configurations: Configurations, x: ExecutionSummary, r: Result<ExecutionAuthority, ConductorError>) {
    if x.parent.Some? && x.parent.value !in d.board.executions then r == Err(UnknownExecution(x.parent.value))
    else if x.parent.None? && x.session !in d.sessions then r == Err(UnknownSession(x.session))
    else
      var revision := if x.parent.Some? then d.board.executions[x.parent.value].configRevision else d.sessions[x.session].configRevision;
      if revision !in d.configRevisions then r == Err(UnknownConfigRevision(revision))
      else if revision !in configurations then r == Err(UnboundConfigRevision(revision))
      else match r
        case Ok(authority) => Entrusted(d.board, configurations[revision].callables, x, authority)
        case Err(e) => e.Registry? && Refuses(configurations[revision].callables, x.kind, x.callable, e.registryError)
  }

  lemma EffectiveAuthorityEntrusts(d: Durable, configurations: Configurations, x: ExecutionSummary)
    ensures Entrusts(d, configurations, x, EffectiveAuthority(d, configurations, x))
  {
    if GoverningRevision(d, x).Ok? && BoundConfiguration(d, configurations, GoverningRevision(d, x).value).Ok? {
      ConfiguredAuthorityIsLeastCover(configurations[GoverningRevision(d, x).value].callables, x.kind, x.callable);
    }
    hide ConfiguredAuthority, LeastCover, Refuses, ExecutionAuthority.Attenuate;
  }

  /** What the catalog grants is exactly what `x` may be entrusted with. */
  lemma GrantIsEntrusted(b: Board, catalog: Catalog, x: ExecutionSummary, revision: ConfigRevisionId, authority: ExecutionAuthority)
    ensures Grant(b, catalog, x, revision) == Some(authority) <==>
      revision in catalog && (x.parent.Some? ==> x.parent.value in b.executions) && Entrusted(b, catalog[revision].callables, x, authority)
  {
    if revision in catalog {
      var callables := catalog[revision].callables;
      ConfiguredAuthorityIsLeastCover(callables, x.kind, x.callable);
      if ConfiguredAuthority(callables, x.kind, x.callable).Ok? {
        forall grant | LeastCover(callables, x.kind, x.callable, grant)
          ensures grant == ConfiguredAuthority(callables, x.kind, x.callable).value
        {
          LeastCoverIsUnique(callables, x.kind, x.callable, grant, ConfiguredAuthority(callables, x.kind, x.callable).value);
        }
      }
      hide ConfiguredAuthority, LeastCover, Refuses, ExecutionAuthority.Attenuate;
    }
  }

  /** Every execution holds the least cover of its configuration, as far as its parent permits it. */
  ghost predicate AllEntrusted(b: Board, catalog: Catalog) {
    forall id :: id in b.executions ==>
      && b.executions[id].configRevision in catalog
      && Entrusted(b, catalog[b.executions[id].configRevision].callables, b.executions[id].summary, b.executions[id].authority)
  }

  lemma GrantsAreEntrusted(b: Board, catalog: Catalog)
    requires GrantsHeld(b, catalog)
    ensures AllEntrusted(b, catalog)
  {
    hide Entrusted, Grant;
    forall id | id in b.executions
      ensures b.executions[id].configRevision in catalog
      ensures Entrusted(b, catalog[b.executions[id].configRevision].callables, b.executions[id].summary, b.executions[id].authority)
    {
      GrantIsEntrusted(b, catalog, b.executions[id].summary, b.executions[id].configRevision, b.executions[id].authority);
    }
  }

  /** The input that was asked for, which a routed root is given together with what was said before. */
  ghost predicate GivesInput(d: Durable, x: ExecutionSummary, payload: JournalPayload, given: ExecutionPayload) {
    match payload
    case JournalOrchestration(objective, _) => given == OrchestrationPayload(objective)
    case JournalInvocation(input, _) =>
      && given.InvocationPayload?
      && if x.kind.Root? && x.target.Routed? then IsReplay(d.board.executions, x, d.events, input, given.input) else given.input == input
  }

  /** `e` is `d` with the execution `x` under the next id, entrusted and asked as it should be, and with nothing else. */
  ghost predicate CreatesAsAsked(d: Durable, configurations: Configurations, e: Durable, x: ExecutionSummary, payload: JournalPayload) {
    && x.id == d.board.nextExecution + 1 && x.id !in d.board.executions && x.id in e.board.executions
    && x.session in d.sessions && (x.parent.Some? ==> x.parent.value in d.board.executions)
    && e == d.(board := d.board.(executions := d.board.executions[x.id := e.board.executions[x.id]], nextExecution := x.id))
    && var record := e.board.executions[x.id];
    && record.summary == x
    && GivesInput(d, x, payload, record.payload)
    && Entrusts(d, configurations, x, Ok(record.authority))
    && record.configRevision ==
        (if x.parent.Some? then d.board.executions[x.parent.value].configRevision else d.sessions[x.session].configRevision)
  }

  lemma CreationIsAsAsked(d: Durable, configurations: Configurations, x: ExecutionSummary, payload: JournalPayload)
    requires Stamp(d, configurations, ExecutionCreated(x, payload)).Ok?
    requires Accepts(d, Stamp(d, configurations, ExecutionCreated(x, payload)).value)
    ensures CreatesAsAsked(d, configurations, Update(d, Stamp(d, configurations, ExecutionCreated(x, payload)).value), x, payload)
  {
    EffectiveAuthorityEntrusts(d, configurations, x);
    if payload.JournalInvocation? { RoutedInputReplays(d.board.executions, x, d.events, payload.input); }
    hide EffectiveAuthority, Entrusts, IsReplay, RoutedInput, ParentAdmits;
  }

  lemma StampIsTheGrant(d: Durable, configurations: Configurations, catalog: Catalog, x: ExecutionSummary, payload: JournalPayload)
    requires Stamp(d, configurations, ExecutionCreated(x, payload)).Ok?
    requires x.session in d.sessions && (x.parent.Some? ==> x.parent.value in d.board.executions)
    requires forall revision :: revision in configurations ==> revision in catalog && catalog[revision] == configurations[revision]
    ensures var authority := Stamp(d, configurations, ExecutionCreated(x, payload)).value.payload.authority;
      && Grant(d.board, catalog, x, PinnedRevision(d, x)) == Some(authority)
      && PinnedRevision(d, x) in catalog && Entrusted(d.board, catalog[PinnedRevision(d, x)].callables, x, authority)
  {
    GrantIsEntrusted(d.board, catalog, x, PinnedRevision(d, x), Stamp(d, configurations, ExecutionCreated(x, payload)).value.payload.authority);
    hide ConfiguredAuthority, Entrusted;
  }

  /** A stamped child never exceeds its parent, so the journal's check on its authority cannot fail. */
  lemma StampedChildIsAdmitted(d: Durable, configurations: Configurations, x: ExecutionSummary, payload: JournalPayload)
    requires x.parent.Some? && x.parent.value in d.board.executions
    requires x.callable.Some? ==> x.callable.value in d.board.executions[x.parent.value].authority.callables
    requires Stamp(d, configurations, ExecutionCreated(x, payload)).Ok?
    ensures ParentAdmits(d.board, x, Stamp(d, configurations, ExecutionCreated(x, payload)).value.payload.authority)
  {
    var parent := d.board.executions[x.parent.value].authority;
    var configured :| EffectiveAuthority(d, configurations, x) == Ok(parent.Attenuate(configured));
    AttenuateIsTheMeet(parent, configured, configured);
  }

  /** One least cover only: authorities that permit each other are equal. */
  lemma LeastCoverIsUnique(callables: Callables, kind: ExecutionKind, callable: Option<CallableId>, a: ExecutionAuthority, b: ExecutionAuthority)
    requires LeastCover(callables, kind, callable, a) && LeastCover(callables, kind, callable, b)
    ensures a == b
  {
    AttenuateIsTheMeet(a, b, a);
    AttenuateIsTheMeet(b, a, b);
    hide Covers;
    assert a.Permits(b) && b.Permits(a);
  }

  /** An authority with more callables is permitted by whoever permits it and holds them. */
  lemma MoreCallables(a: ExecutionAuthority, more: set<CallableId>, bound: ExecutionAuthority)
    ensures bound.Permits(a.(callables := a.callables + more)) <==> bound.Permits(a) && more <= bound.callables
  {
    PermitsPointwise(bound, a);
    PermitsPointwise(bound, a.(callables := a.callables + more));
  }

  lemma RootIsLeastCover(callables: Callables)
    ensures ConfiguredAuthority(callables, Root, None).Ok?
    ensures forall callable :: ConfiguredAuthority(callables, Root, callable) == ConfiguredAuthority(callables, Root, None)
    ensures LeastCover(callables, Root, None, ConfiguredAuthority(callables, Root, None).value)
  {
    var grant, envelope := ConfiguredAuthority(callables, Root, None).value, Envelope(AgentAuthorities(callables));
    forall bound: ExecutionAuthority ensures bound.Permits(grant) <==> Covers(callables, Root, None, bound) {
      MoreCallables(envelope, Startable(callables), bound);
      EnvelopeIsTheJoin(AgentAuthorities(callables), bound);
      hide Envelope, ExecutionAuthority.Permits;
      forall id | id in callables && callables[id].AgentEntry? ensures callables[id].authority in AgentAuthorities(callables) {}
    }
  }

  lemma OrchestrationIsLeastCover(callables: Callables, id: CallableId, grant: ExecutionAuthority)
    requires id in callables && callables[id].OrchestrationEntry?
    requires OrchestrationAuthority(callables, callables[id].definition) == Ok(grant)
    requires forall i :: 0 <= i < |callables[id].definition.nodes| ==> IsAgentCallable(callables, callables[id].definition.nodes[i].callable)
    ensures LeastCover(callables, Orchestration, Some(id), grant)
  {
    var definition := callables[id].definition;
    NodeAuthoritiesAreKnown(callables, definition.nodes);
    var nodes := NodeAuthorities(callables, definition.nodes).value;
    var all := nodes + if definition.interfaceAgent.Some? then {callables[definition.interfaceAgent.value].authority} else {};
    assert definition.interfaceAgent.None? ==> all == nodes;
    var envelope := Envelope(all);
    assert grant == envelope.(callables := envelope.callables + NodeCallables(definition));
    forall bound: ExecutionAuthority ensures bound.Permits(grant) <==> Covers(callables, Orchestration, Some(id), bound) {
      MoreCallables(envelope, NodeCallables(definition), bound);
      EnvelopeIsTheJoin(all, bound);
      hide Envelope, ExecutionAuthority.Permits, NodeAuthorities;
      AllOfThem(callables, definition, nodes, all, bound);
    }
  }

  lemma AllOfThem(callables: Callables, definition: OrchestrationDefinition, nodes: set<ExecutionAuthority>, all: set<ExecutionAuthority>,
                  bound: ExecutionAuthority)
    requires forall i :: 0 <= i < |definition.nodes| ==> IsAgentCallable(callables, definition.nodes[i].callable)
    requires definition.interfaceAgent.Some? ==> IsAgentCallable(callables, definition.interfaceAgent.value)
    requires nodes == set i | 0 <= i < |definition.nodes| && IsAgentCallable(callables, definition.nodes[i].callable)
      :: callables[definition.nodes[i].callable].authority
    requires all == nodes + if definition.interfaceAgent.Some? then {callables[definition.interfaceAgent.value].authority} else {}
    ensures (forall a | a in all :: bound.Permits(a)) <==>
      && (forall i :: 0 <= i < |definition.nodes| ==> CoversAgent(callables, definition.nodes[i].callable, bound))
      && (definition.interfaceAgent.Some? ==> CoversAgent(callables, definition.interfaceAgent.value, bound))
    ensures NodeCallables(definition) <= bound.callables <==>
      && (forall i :: 0 <= i < |definition.nodes| ==> definition.nodes[i].callable in bound.callables)
      && (definition.interfaceAgent.Some? ==> definition.interfaceAgent.value in bound.callables)
  {
    hide ExecutionAuthority.Permits;
    forall i | 0 <= i < |definition.nodes|
      ensures callables[definition.nodes[i].callable].authority in all && definition.nodes[i].callable in NodeCallables(definition)
    {
    }
  }

  lemma {:induction false} FirstUnknownNode(callables: Callables, nodes: seq<OrchestrationNode>)
    requires exists i :: 0 <= i < |nodes| && !IsAgentCallable(callables, nodes[i].callable)
    ensures NodeAuthorities(callables, nodes).Err? && StrangerRefused(callables, nodes, NodeAuthorities(callables, nodes).error)
  {
    hide IsNot, StrangerRefused;
    var n := |nodes| - 1;
    var before := nodes[..n];
    if i :| 0 <= i < n && !IsAgentCallable(callables, nodes[i].callable) {
      assert before[i] == nodes[i];
      FirstUnknownNode(callables, before);
      StrangerStays(callables, before, nodes, NodeAuthorities(callables, before).error);
    } else {
      NodeAuthoritiesAreKnown(callables, before);
      LastIsStranger(callables, nodes);
    }
  }

  lemma StrangerStays(callables: Callables, before: seq<OrchestrationNode>, nodes: seq<OrchestrationNode>, e: CallableRegistryError)
    requires before <= nodes && StrangerRefused(callables, before, e)
    ensures StrangerRefused(callables, nodes, e)
  {
    var i :| FirstStranger(callables, before, i) && IsNot(callables, before[i].callable, AgentCallable, e);
    assert FirstStranger(callables, nodes, i);
  }

  lemma LastIsStranger(callables: Callables, nodes: seq<OrchestrationNode>)
    requires nodes != [] && FirstStranger(callables, nodes, |nodes| - 1)
    ensures AgentAuthority(callables, nodes[|nodes| - 1].callable).Err?
    ensures StrangerRefused(callables, nodes, AgentAuthority(callables, nodes[|nodes| - 1].callable).error)
  {
  }

  /** The grant is the least cover; there is none exactly where a callable is not registered as what it should be. */
  lemma ConfiguredAuthorityIsLeastCover(callables: Callables, kind: ExecutionKind, callable: Option<CallableId>)
    ensures match ConfiguredAuthority(callables, kind, callable)
      case Ok(grant) => LeastCover(callables, kind, callable, grant) && forall e :: !Refuses(callables, kind, callable, e)
      case Err(e) => Refuses(callables, kind, callable, e)
  {
    if kind.Root? {
      RootIsLeastCover(callables);
      assert forall bound: ExecutionAuthority :: Covers(callables, Root, callable, bound) == Covers(callables, Root, None, bound);
    } else if callable.None? {
      forall bound: ExecutionAuthority ensures bound.Permits(ExecutionAuthority.READ_ONLY) { PermitsPointwise(bound, ExecutionAuthority.READ_ONLY); }
    } else if kind.Orchestration? && callable.value in callables && callables[callable.value].OrchestrationEntry? {
      var definition := callables[callable.value].definition;
      if forall i :: 0 <= i < |definition.nodes| ==> IsAgentCallable(callables, definition.nodes[i].callable) {
        NodeAuthoritiesAreKnown(callables, definition.nodes);
        if OrchestrationAuthority(callables, definition).Ok? {
          OrchestrationIsLeastCover(callables, callable.value, OrchestrationAuthority(callables, definition).value);
        }
      } else {
        FirstUnknownNode(callables, definition.nodes);
      }
    }
  }

  lemma {:induction false} NodeAuthoritiesAreKnown(callables: Callables, nodes: seq<OrchestrationNode>)
    requires forall i :: 0 <= i < |nodes| ==> IsAgentCallable(callables, nodes[i].callable)
    ensures NodeAuthorities(callables, nodes).Ok?
    ensures NodeAuthorities(callables, nodes).value ==
      set i | 0 <= i < |nodes| && IsAgentCallable(callables, nodes[i].callable) :: callables[nodes[i].callable].authority
  {
    if nodes != [] {
      var n := |nodes| - 1;
      var before := nodes[..n];
      NodeAuthoritiesAreKnown(callables, before);
      assert forall i :: 0 <= i < n ==> before[i] == nodes[i];
    }
  }

  /** A root may start every agent and orchestration, and a registered orchestration may start its nodes and interface. */
  lemma ConfiguredAuthoritySuffices(callables: Callables, id: CallableId)
    requires RegistryWellFormed(callables) && id in callables && callables[id].OrchestrationEntry?
    ensures ConfiguredAuthority(callables, Orchestration, Some(id)).Ok?
    ensures NodeCallables(callables[id].definition) <= ConfiguredAuthority(callables, Orchestration, Some(id)).value.callables
    ensures id in ConfiguredAuthority(callables, Root, None).value.callables
    ensures ConfiguredAuthority(callables, Root, None).value.Permits(ConfiguredAuthority(callables, Orchestration, Some(id)).value)
  {
    assert EntryWellFormed(callables, id);
    var definition := callables[id].definition;
    NodeAuthoritiesAreKnown(callables, definition.nodes);
    var nodes := NodeAuthorities(callables, definition.nodes).value;
    var all := nodes + if definition.interfaceAgent.Some? then {callables[definition.interfaceAgent.value].authority} else {};
    assert definition.interfaceAgent.None? ==> all == nodes;
    EnvelopeIsTheJoin(all, Envelope(AgentAuthorities(callables)));
    EnvelopeIsTheJoin(AgentAuthorities(callables), Envelope(AgentAuthorities(callables)));
    assert all <= AgentAuthorities(callables);
    var small, big := Envelope(all), Envelope(AgentAuthorities(callables));
    PermitsPointwise(big, small);
    var root, orchestration := ConfiguredAuthority(callables, Root, None).value, ConfiguredAuthority(callables, Orchestration, Some(id)).value;
    PermitsPointwise(root, orchestration);
    assert NodeCallables(definition) <= Startable(callables) by {
      forall c | c in NodeCallables(definition) ensures c in Startable(callables) {
        assert IsAgentCallable(callables, c);
        assert EntryWellFormed(callables, c);
      }
    }
  }
}
