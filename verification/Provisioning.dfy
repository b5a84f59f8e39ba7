/**
 The authority that new executions are granted, and that a new orchestration
 which is granted enough keeps all orchestrations equipped.
 */
module Provisioning {
  import opened PhenixCore
  import opened Records
  import opened Journal
  import opened Configuration
  import opened BoardInvariants
  import opened Scheduler
  import opened Delegation
  import opened Creation
  import opened Settling
  import opened Cascade

  /** The new execution `x` of `e` holds exactly the effective authority computed in `d`, which is what it may be entrusted with. */
  ghost predicate Granted(d: Durable, configurations: Configurations, e: Durable, x: ExecutionSummary) {
    && x.id in e.board.executions
    && EffectiveAuthority(d, configurations, x) == Ok(e.board.executions[x.id].authority)
    && Entrusts(d, configurations, x, Ok(e.board.executions[x.id].authority))
  }

  lemma StampIsGranted(d: Durable, configurations: Configurations, x: ExecutionSummary, payload: JournalPayload)
    requires Stamp(d, configurations, ExecutionCreated(x, payload)).Ok?
    requires Accepts(d, Stamp(d, configurations, ExecutionCreated(x, payload)).value)
    ensures Granted(d, configurations, Update(d, Stamp(d, configurations, ExecutionCreated(x, payload)).value), x)
  {
    EffectiveAuthorityEntrusts(d, configurations, x);
    hide EffectiveAuthority, ParentAdmits, MaterializedPayload, Entrusts;
  }

  /** A root always has a grant, provided its session's revision is bound. */
  lemma RootIsStamped(d: Durable, configurations: Configurations, x: ExecutionSummary, payload: JournalPayload)
    requires x.kind.Root? && x.parent.None? && x.session in d.sessions && d.sessions[x.session].configRevision in d.configRevisions
    ensures Stamp(d, configurations, ExecutionCreated(x, payload)).Ok? <==> d.sessions[x.session].configRevision in configurations
  {
  }

  // ---------------------------------------------------------------------------
  // Equipped orchestrations
  // ---------------------------------------------------------------------------

  /** All that `x` lacks to be equipped is that it runs. */
  ghost predicate Provided(b: Board, configurations: Configurations, catalog: Catalog, x: ExecutionId) {
    && x in b.executions
    && b.executions[x].configRevision in configurations
    && DefinitionOf(b, catalog, x).Some?
    && NodeCallables(DefinitionOf(b, catalog, x).value) <= b.executions[x].authority.callables
  }

  ghost predicate OthersEquipped(b: Board, configurations: Configurations, catalog: Catalog, x: ExecutionId) {
    forall o :: o in LiveOrchestrations(b) && o != x ==> Equipped(b, configurations, catalog, o)
  }

  lemma EquippedStays(b: Board, c: Board, configurations: Configurations, catalog: Catalog, o: ExecutionId)
    requires Equipped(b, configurations, catalog, o) && o in c.executions && c.executions[o] == b.executions[o]
    ensures Equipped(c, configurations, catalog, o)
  {
    hide NodeCallables;
  }

  /** A new execution leaves the older orchestrations equipped. */
  lemma CreationLeavesEquipped(b: Board, record: ExecutionRecord, configurations: Configurations, catalog: Catalog)
    requires Sequenced(b) && AllEquipped(b, configurations, catalog) && record.summary.id == b.nextExecution + 1
    ensures OthersEquipped(WithExecution(b, record), configurations, catalog, record.summary.id)
    ensures !record.summary.kind.Orchestration? ==> AllEquipped(WithExecution(b, record), configurations, catalog)
  {
    var c := WithExecution(b, record);
    hide Equipped;
    forall o | o in LiveOrchestrations(c) && o != record.summary.id ensures Equipped(c, configurations, catalog, o) {
      assert o in LiveOrchestrations(b);
      EquippedStays(b, c, configurations, catalog, o);
    }
  }

  /** Once the provided orchestration runs, all are equipped. */
  lemma RunningEquips(b: Board, x: ExecutionId, configurations: Configurations, catalog: Catalog)
    requires Sequenced(b) && x in b.executions
    requires Provided(b, configurations, catalog, x) && OthersEquipped(b, configurations, catalog, x)
    ensures AllEquipped(WithState(b, x, Running), configurations, catalog)
  {
    var c := WithState(b, x, Running);
    hide NodeCallables;
    forall o | o in LiveOrchestrations(c) ensures Equipped(c, configurations, catalog, o) {
      if o != x {
        assert o in LiveOrchestrations(b);
        EquippedStays(b, c, configurations, catalog, o);
      }
    }
  }
  /** Binding and activating more configurations takes nothing away. */
  lemma MoreConfigurationsEquip(b: Board, configurations: Configurations, more: Configurations, catalog: Catalog, later: Catalog)
    requires AllEquipped(b, configurations, catalog) && configurations.Keys <= more.Keys && CatalogGrows(catalog, later)
    ensures AllEquipped(b, more, later)
  {
    hide NodeCallables;
    forall o | o in LiveOrchestrations(b) ensures Equipped(b, more, later, o) {
      assert Equipped(b, configurations, catalog, o);
    }
  }

  /** An orchestration opened at the top level of a session is granted its nodes and its interface. */
  lemma TopLevelIsProvided(d: Durable, e: Durable, configurations: Configurations, catalog: Catalog, x: ExecutionSummary)
    requires Granted(d, configurations, e, x) && x.kind.Orchestration? && x.parent.None? && x.callable.Some?
    requires x.session in d.sessions && d.sessions[x.session].configRevision in configurations
    requires var revision := d.sessions[x.session].configRevision;
      && revision in catalog && catalog[revision] == configurations[revision]
      && RegistryWellFormed(configurations[revision].callables)
      && x.callable.value in configurations[revision].callables && configurations[revision].callables[x.callable.value].OrchestrationEntry?
    requires e.board.executions[x.id].summary.callable == x.callable
    requires e.board.executions[x.id].configRevision == d.sessions[x.session].configRevision
    ensures Provided(e.board, configurations, catalog, x.id)
  {
    ConfiguredAuthoritySuffices(configurations[d.sessions[x.session].configRevision].callables, x.callable.value);
    hide NodeCallables, ConfiguredAuthority, RegistryWellFormed;
  }

  lemma TopLevelIsStamped(d: Durable, configurations: Configurations, x: ExecutionSummary, payload: JournalPayload)
    requires x.kind.Orchestration? && x.parent.None? && x.callable.Some?
    requires x.session in d.sessions && d.sessions[x.session].configRevision in configurations
    requires d.sessions[x.session].configRevision in d.configRevisions
    requires var callables := configurations[d.sessions[x.session].configRevision].callables;
      RegistryWellFormed(callables) && x.callable.value in callables && callables[x.callable.value].OrchestrationEntry?
    ensures Stamp(d, configurations, ExecutionCreated(x, payload)).Ok?
  {
    ConfiguredAuthoritySuffices(configurations[d.sessions[x.session].configRevision].callables, x.callable.value);
    hide NodeCallables, ConfiguredAuthority, RegistryWellFormed;
  }

  lemma TopLevelAgentIsStamped(d: Durable, configurations: Configurations, x: ExecutionSummary, payload: JournalPayload)
    requires x.kind.Agent? && x.parent.None? && x.callable.Some?
    requires x.session in d.sessions && d.sessions[x.session].configRevision in configurations
    requires d.sessions[x.session].configRevision in d.configRevisions
    requires var callables := configurations[d.sessions[x.session].configRevision].callables;
      x.callable.value in callables && callables[x.callable.value].AgentEntry?
    ensures Stamp(d, configurations, ExecutionCreated(x, payload)).Ok?
  {
  }

  /** A nested orchestration is granted its nodes and its interface if its parent holds them. */
  lemma NestedIsProvided(d: Durable, e: Durable, configurations: Configurations, catalog: Catalog, parent: ExecutionId, callable: CallableId,
                         x: ExecutionSummary)
    requires parent in d.board.executions && x == ChildSummary(d.board, parent, Orchestration, callable)
    requires Granted(d, configurations, e, x) && d.board.executions[parent].configRevision in configurations
    requires var revision := d.board.executions[parent].configRevision;
      && revision in catalog && catalog[revision] == configurations[revision]
      && RegistryWellFormed(configurations[revision].callables)
      && callable in configurations[revision].callables && configurations[revision].callables[callable].OrchestrationEntry?
      && NodeCallables(configurations[revision].callables[callable].definition) <= d.board.executions[parent].authority.callables
    requires e.board.executions[x.id].summary == x
    requires e.board.executions[x.id].configRevision == d.board.executions[parent].configRevision
    ensures Provided(e.board, configurations, catalog, x.id)
  {
    ConfiguredAuthoritySuffices(configurations[d.board.executions[parent].configRevision].callables, callable);
    hide NodeCallables, ConfiguredAuthority, RegistryWellFormed;
  }

  lemma NestedIsStamped(d: Durable, configurations: Configurations, parent: ExecutionId, callable: CallableId, payload: JournalPayload)
    requires parent in d.board.executions
    requires BoundConfiguration(d, configurations, d.board.executions[parent].configRevision).Ok?
    requires var callables := configurations[d.board.executions[parent].configRevision].callables;
      RegistryWellFormed(callables) && callable in callables && callables[callable].OrchestrationEntry?
    ensures Stamp(d, configurations, ExecutionCreated(ChildSummary(d.board, parent, Orchestration, callable), payload)).Ok?
  {
    ConfiguredAuthoritySuffices(configurations[d.board.executions[parent].configRevision].callables, callable);
    hide NodeCallables, ConfiguredAuthority, RegistryWellFormed;
  }
}
