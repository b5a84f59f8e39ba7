/**
 Compiled configurations: the callables a configuration revision registers.
 */
module Configuration {
  import opened PhenixCore

  datatype CallableKind = ToolCallable | AgentCallable | OrchestrationCallable

  datatype CallableDescriptor = CallableDescriptor(id: CallableId, kind: CallableKind, requiresPermission: bool, writesFiles: bool)

  datatype OrchestrationNode = OrchestrationNode(
    id: OrchestrationNodeId,
    callable: CallableId,
    dependsOn: seq<OrchestrationNodeId>,
    objective: Option<string>)

  datatype OrchestrationDefinition = OrchestrationDefinition(
    descriptor: CallableDescriptor,
    interfaceAgent: Option<CallableId>,
    nodes: seq<OrchestrationNode>)

  datatype CallableEntry =
    | ToolEntry(descriptor: CallableDescriptor)
    | AgentEntry(descriptor: CallableDescriptor, authority: ExecutionAuthority)
    | OrchestrationEntry(definition: OrchestrationDefinition)
  {
    function Descriptor(): CallableDescriptor {
      match this
      case ToolEntry(d) => d
      case AgentEntry(d, _) => d
      case OrchestrationEntry(definition) => definition.descriptor
    }

    predicate IsExecutable() {
      AgentEntry?
    }
  }

  type Callables = map<CallableId, CallableEntry>

  /** The id of the tool that starts orchestrations. */
  const ORCHESTRATION_START: CallableId := "phenix_orchestration_start"

  /** Some orchestration is registered. */
  predicate HasOrchestrations(callables: Callables) {
    exists id :: id in callables && callables[id].Descriptor().kind.OrchestrationCallable?
  }

  /** A tool is registered under the id of the tool that starts orchestrations. */
  predicate RegistersStart(callables: Callables) {
    ORCHESTRATION_START in callables && callables[ORCHESTRATION_START].Descriptor().kind.ToolCallable?
  }

  datatype CompiledConfiguration = CompiledConfiguration(callables: Callables, fingerprint: ConfigRevisionFingerprint)

  datatype CallableRegistryError =
    | Duplicate(id: CallableId)
    | UnknownCallable(id: CallableId)
    | WrongKind(id: CallableId, expected: CallableKind, actual: CallableKind)
    | NotExecutable(id: CallableId)
    | EmptyOrchestration(orchestration: CallableId)
    | DuplicateOrchestrationNode(orchestration: CallableId, node: OrchestrationNodeId)
    | UnknownOrchestrationDependency(orchestration: CallableId, node: OrchestrationNodeId, dependency: OrchestrationNodeId)
    | CyclicOrchestration(orchestration: CallableId)
    | InvalidOrchestrationInterface(orchestration: CallableId, callable: CallableId)
    | InvalidOrchestrationNode(orchestration: CallableId, node: OrchestrationNodeId, callable: CallableId)

  function DescriptorOf(callables: Callables, id: CallableId): Result<CallableDescriptor, CallableRegistryError> {
    if id in callables then Ok(callables[id].Descriptor()) else Err(UnknownCallable(id))
  }

  function AgentAuthority(callables: Callables, id: CallableId): Result<ExecutionAuthority, CallableRegistryError> {
    if id !in callables then Err(UnknownCallable(id))
    else if callables[id].AgentEntry? then Ok(callables[id].authority)
    else Err(WrongKind(id, AgentCallable, callables[id].Descriptor().kind))
  }

  /** Only agents have an execution provider. */
  function ExecutionProvider(callables: Callables, id: CallableId): Result<(), CallableRegistryError> {
    if id !in callables then Err(UnknownCallable(id))
    else if callables[id].IsExecutable() then Ok(())
    else Err(NotExecutable(id))
  }

  function OrchestrationCalled(callables: Callables, id: CallableId): Result<OrchestrationDefinition, CallableRegistryError> {
    if id !in callables then Err(UnknownCallable(id))
    else if callables[id].OrchestrationEntry? then Ok(callables[id].definition)
    else Err(WrongKind(id, OrchestrationCallable, callables[id].Descriptor().kind))
  }

  predicate IsAgentCallable(callables: Callables, id: CallableId) {
    id in callables && callables[id].AgentEntry?
  }

  /** Distinct node ids, and every node after the nodes it depends on. */
  ghost predicate DependenciesFirst(nodes: seq<OrchestrationNode>) {
    && (forall i, j :: 0 <= i < j < |nodes| ==> nodes[i].id != nodes[j].id)
    && (forall i, dep :: 0 <= i < |nodes| && dep in nodes[i].dependsOn ==>
          exists j :: 0 <= j < i && nodes[j].id == dep)
  }

  ghost predicate DefinitionWellFormed(callables: Callables, definition: OrchestrationDefinition) {
    && definition.descriptor.kind.OrchestrationCallable?
    && definition.nodes != []
    && DependenciesFirst(definition.nodes)
    && (forall i :: 0 <= i < |definition.nodes| ==> IsAgentCallable(callables, definition.nodes[i].callable))
    && (definition.interfaceAgent.Some? ==> IsAgentCallable(callables, definition.interfaceAgent.value))
  }

  ghost predicate EntryWellFormed(callables: Callables, id: CallableId)
    requires id in callables
  {
    var entry := callables[id];
    && entry.Descriptor().id == id
    && (entry.ToolEntry? <==> entry.Descriptor().kind.ToolCallable?)
    && (entry.AgentEntry? <==> entry.Descriptor().kind.AgentCallable?)
    && (entry.OrchestrationEntry? ==> DefinitionWellFormed(callables, entry.definition))
  }

  /** What registration establishes about every registered callable. */
  ghost predicate RegistryWellFormed(callables: Callables) {
    forall id :: id in callables ==> EntryWellFormed(callables, id)
  }

  /** The configurations of a runtime's history, by revision. */
  type Catalog = map<ConfigRevisionId, CompiledConfiguration>

  ghost predicate CatalogWellFormed(catalog: Catalog) {
    forall revision :: revision in catalog ==> RegistryWellFormed(catalog[revision].callables)
  }

  ghost predicate CatalogGrows(before: Catalog, after: Catalog) {
    forall revision :: revision in before ==> revision in after && after[revision] == before[revision]
  }
}
