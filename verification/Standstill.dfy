/**
 How a session comes to stand still: a run of the workers from an empty journal
 to a tree that keeps its session for good, and why.
 */
module Standstill {
  import opened PhenixCore
  import opened Records
  import opened Journal
  import opened Configuration
  import opened BoardInvariants
  import opened DurableInvariants
  import opened Scheduler
  import opened SchedulerMoves
  import opened ExecutionTree
  import opened Settling
  import opened Cascade
  import opened Delegation
  import opened Creation
  import opened Acting
  import opened Opening
  import opened ExecutionQueue
  import opened ExecutionGroups
  import opened WorkerInvariants
  import opened WorkerRuns
  import opened Sheltering
  import opened Runtime
  import opened Startup
  import opened Workers
  import opened Situations

  // ---------------------------------------------------------------------------
  // The plan and its two workers
  // ---------------------------------------------------------------------------

  /**
   The configuration of this run.  Besides the plan and its agents it registers
   a tool under the id of the tool that starts orchestrations.  The server
   gives registered tools to every execution, and what is called by that id
   starts orchestrations.
   */
  const WITH_START: Callables :=
    CALLABLES[ORCHESTRATION_START := ToolEntry(CallableDescriptor(ORCHESTRATION_START, ToolCallable, false, false))]

  lemma WithStartIsRegistered()
    ensures RegistryWellFormed(WITH_START) && RegistersPlan(WITH_START) && RegistersStart(WITH_START)
    ensures !WITH_START[ORCHESTRATION_START].Descriptor().writesFiles && !IsBlank("goal")
    ensures "plan" in WITH_START && WITH_START["plan"] == OrchestrationEntry(PLAN) && "worker" in WITH_START && WITH_START["worker"].AgentEntry?
  {
    assert ORCHESTRATION_START !in CALLABLES;
    PlanIsRegistered();
    assert DefinitionWellFormed(WITH_START, PLAN);
  }

  /** `w` and `v` are the workers of the plan that `o` carries out. */
  ghost predicate WorkersOf(b: Board, o: ExecutionId, w: ExecutionId, v: ExecutionId) {
    && w != v && (forall y :: IsChild(b, o, y) <==> y == w || y == v)
    && IsWorker(b, o, w) && IsWorker(b, o, v) && b.nodes[w] != b.nodes[v]
  }

  ghost predicate IsWorker(b: Board, o: ExecutionId, w: ExecutionId) {
    && IsNodeChild(b, o, w) && IsAgent(b, w) && (b.nodes[w] == 0 || b.nodes[w] == 1)
    && b.executions[w].summary.callable == Some("worker")
  }

  lemma PlanHasWorkers(b: Board, o: ExecutionId, w: ExecutionId)
    requires NodesDistinct(b) && FirstNodesPend(b, PLAN, o) && IsChild(b, o, w)
    ensures exists v :: WorkersOf(b, o, w, v) && InState(b, v, Pending)
  {
    hide StartedAs;
    assert PLAN.nodes[0] in PLAN.nodes && PLAN.nodes[1] in PLAN.nodes;
    var w0 :| StartedAs(b, o, w0, PLAN.nodes[0]);
    var w1 :| StartedAs(b, o, w1, PLAN.nodes[1]);
    StartedIsPending(b, o, w0, PLAN.nodes[0]);
    StartedIsPending(b, o, w1, PLAN.nodes[1]);
    forall y | IsChild(b, o, y) ensures y == w0 || y == w1 {
      var node :| node in PLAN.nodes && StartedAs(b, o, y, node);
      StartedIsPending(b, o, y, node);
    }
    assert if w == w0 then WorkersOf(b, o, w, w1) else WorkersOf(b, o, w, w0);
  }

  /** No decision was made about children that have not failed. */
  lemma NothingFailedNothingDecided(b: Board, o: ExecutionId)
    requires DecisionsSound(b) && InterfacesSound(b) && forall y :: IsChild(b, o, y) ==> !InState(b, y, Failed)
    ensures !FailDecided(b, o) && Undecided(b, o) == {} && !InterfaceFailed(b, o)
    ensures forall y :: IsChild(b, o, y) ==> Effective(b, y) == b.executions[y].summary.state
  {
    forall f | f in b.decisions ensures b.decisions[f].parent != o { assert DecisionSound(b, f); }
  }

  /** A cancelled worker ends the plan, which neither completes nor fails. */
  lemma CancelledWorkerStopsPlan(b: Board, catalog: Catalog, o: ExecutionId, w: ExecutionId, v: ExecutionId)
    requires BoardInv(b) && LiveInv(b, catalog) && Calm(b, catalog, {})
    requires DefinitionOf(b, catalog, o) == Some(PLAN) && IsOrchestration(b, o) && WorkersOf(b, o, w, v)
    requires InState(b, v, Cancelled) && (InState(b, w, Running) || InState(b, w, Cancelled))
    ensures StopsDescendants(b.executions[o].summary.state) && !InState(b, o, Failed)
  {
    NothingFailedNothingDecided(b, o);
    assert IsNodeChild(b, o, v) && Effective(b, v).Cancelled?;
    assert !SomeNodeIs(b, o, Failed) && SomeNodeIs(b, o, Cancelled);
    PlanIsNotDone(b, o, w, v);
    assert OutcomeJustified(b, catalog, o, b.executions[o].summary.state);
    hide BoardInv, LiveInv, Effective, InterfaceFailed, Undecided, AllDone, FailDecided, WorkersOf;
    assert o in LiveOrchestrations(b) ==> Settled(b, catalog, o);
  }

  lemma PlanIsNotDone(b: Board, o: ExecutionId, w: ExecutionId, v: ExecutionId)
    requires WorkersOf(b, o, w, v) && Effective(b, v).Cancelled?
    ensures !AllDone(b, PLAN, o)
  {
    var i := if b.nodes[v] == 0 then 0 else 1;
    assert PLAN.nodes[i].id == b.nodes[v];
    hide Effective;
    assert !NodeDone(b, o, PLAN.nodes[i].id);
  }

  /** Cancelling one worker of a plan stops the plan and leaves the other worker running. */
  lemma CancellingOneSparesTheOther(b: Board, c: Board, catalog: Catalog, o: ExecutionId, w: ExecutionId, v: ExecutionId)
    requires BoardInv(b) && BoardInv(c) && LiveInv(c, catalog) && Calm(c, catalog, {})
    requires Evolves(b, c) && AgentsKept(b, c) && StartsNothing(b, c) && Spares(b, c, {v} + Below(b, v)) && !IsLive(c, v)
    requires DefinitionOf(b, catalog, o) == Some(PLAN) && IsOrchestration(b, o) && b.executions[o].summary.parent.None?
    requires WorkersOf(b, o, w, v) && InState(b, w, Running) && InState(b, v, Pending)
    ensures StopsDescendants(c.executions[o].summary.state) && InState(c, w, Running) && IsChild(c, o, w)
  {
    hide BoardInv, LiveInv, Calm, InSubtree, StopsDescendants, Spares, Below, AgentsKept;
    BoardFacts(b);
    BoardFacts(c);
    WorkersStay(b, c, o, w, v);
    WorkerIsSpared(b, c, o, w, v);
    assert DefinitionOf(c, catalog, o) == Some(PLAN) && IsOrchestration(c, o);
    CancelledWorkerStopsPlan(c, catalog, o, w, v);
  }

  lemma WorkerIsSpared(b: Board, c: Board, o: ExecutionId, w: ExecutionId, v: ExecutionId)
    requires Lineage(b) && o in b.executions && b.executions[o].summary.parent.None?
    requires AgentsKept(b, c) && Spares(b, c, {v} + Below(b, v)) && !IsLive(c, v)
    requires WorkersOf(b, o, w, v) && InState(b, w, Running) && InState(b, v, Pending) && IsAgent(c, w)
    ensures InState(c, v, Cancelled) && (InState(c, w, Running) || (InState(c, w, Cancelled) && InState(c, o, Failed)))
  {
    hide Lineage, InSubtree, Below;
    OnlyParentAbove(b, o, w, v);
  }

  lemma WorkersStay(b: Board, c: Board, o: ExecutionId, w: ExecutionId, v: ExecutionId)
    requires Sequenced(b) && Sequenced(c) && Evolves(b, c) && StartsNothing(b, c) && WorkersOf(b, o, w, v)
    ensures WorkersOf(c, o, w, v)
  {
    assert forall y :: y in c.executions <==> y in b.executions;
    assert forall y :: IsChild(c, o, y) <==> IsChild(b, o, y);
  }

  lemma OnlyParentAbove(b: Board, o: ExecutionId, w: ExecutionId, v: ExecutionId)
    requires Lineage(b) && o in b.executions && b.executions[o].summary.parent.None? && IsChild(b, o, w) && IsChild(b, o, v) && w != v
    ensures forall a :: ProperDescendant(b, a, w) ==> a == o
    ensures w !in {v} + Below(b, v)
  {
    forall a | ProperDescendant(b, a, w) ensures a == o { assert InSubtree(b, a, o); }
  }

  // ---------------------------------------------------------------------------
  // A plan under way in a pool of workers
  // ---------------------------------------------------------------------------

  /** `o` is a top-level plan in the open session `s`, both on a revision that is bound. */
  ghost predicate CarriesPlan(runtime: ConductorRuntime, o: ExecutionId, s: SessionId)
    reads runtime
  {
    && o in runtime.executions && OpenSession(runtime.Project(), s)
    && var record := runtime.executions[o];
    && record.summary.kind.Orchestration? && record.summary.parent.None? && record.summary.session == s && record.summary.callable == Some("plan")
    && record.configRevision == runtime.sessions[s].configRevision
    && record.configRevision in runtime.configurations && runtime.configurations[record.configRevision].callables == WITH_START
  }

  lemma StepEvolves(f: Floor, g: Floor, step: PoolStep)
    requires Orderly(f) && Happens(f, g, step)
    ensures Evolves(f.board, g.board)
  {
    hide Evolves, BoardInv, Awaiting, OneSessionPerTree, Acts, Quiescent, Releases, CanStart, Conserved, OnlyInTree, AgentsKept, OpensTree;
    match step {
      case BeginJob(job) => BeginFacts(f.board, job.execution);
      case DecideJob(job) => ActsEvolves(f, g.board, job);
      case PlanJob(job, _) => ActsEvolves(f, g.board, job);
      case EndJob(job) => ActsEvolves(f, g.board, job);
      case OpenTree(root) => OpeningEvolves(f.board, g.board, root);
      case CancelBranch(x) =>
      case _ => EvolvesReflexive(f.board);
    }
  }

  /** Queue and workers are idle but for the workers of the plan, which wait to be taken. */
  ghost predicate Fed(f: Floor, o: ExecutionId) {
    && f.phases == map[] && f.inFlight == {} && f.completed == {} && f.activeSessions == map[] && f.releasing == {} && f.submitted == {}
    && f.pending != [] && (forall i :: 0 <= i < |f.pending| ==> JobOf(f.board, o, f.pending[i]))
    && IsOrchestration(f.board, o) && InState(f.board, o, Running) && FirstNodesPend(f.board, PLAN, o)
    && f.board.executions[o].summary.parent.None? && (forall y :: y in f.board.executions && y != o ==> IsChild(f.board, o, y))
  }

  lemma FirstWorkerIsRunnable(b: Board, o: ExecutionId) returns (w: ExecutionId)
    requires Lineage(b) && IsOrchestration(b, o) && InState(b, o, Running) && b.executions[o].summary.parent.None? && FirstNodesPend(b, PLAN, o)
    ensures Runnable(b, o, w)
  {
    hide StartedAs, FirstNodesPend, Blocked;
    assert exists x :: IsChild(b, o, x) by { PlanHasAWorker(b, o); }
    w :| IsChild(b, o, w);
    FirstNodesArePending(b, PLAN, o);
    BlockedByParent(b, w);
    BlockedByParent(b, o);
    assert RootOf(b, w) == RootOf(b, o) == o;
  }

  lemma PlanHasAWorker(b: Board, o: ExecutionId)
    requires FirstNodesPend(b, PLAN, o)
    ensures exists x :: IsChild(b, o, x)
  {
    hide StartedAs;
    assert PLAN.nodes[0] in PLAN.nodes;
    var w :| StartedAs(b, o, w, PLAN.nodes[0]);
    StartedIsPending(b, o, w, PLAN.nodes[0]);
  }

  lemma PlanIsFed(f: Floor, g: Floor, o: ExecutionId)
    requires Orderly(f) && Happens(f, g, FeedOpened(o)) && f.submitted == {o} && f.pending == [] && f.inFlight == {} && f.completed == {}
    requires f.phases == map[] && f.activeSessions == map[] && f.releasing == {} && f.scheduled == {}
    requires IsOrchestration(f.board, o) && InState(f.board, o, Running) && f.board.executions[o].summary.parent.None?
    requires FirstNodesPend(f.board, PLAN, o) && forall y :: y in f.board.executions && y != o ==> IsChild(f.board, o, y)
    ensures Fed(g, o)
  {
    hide FirstNodesPend, Runnable, JobOf, Awaiting, OneSessionPerTree, Watched, HeldForAReason, Obstructed, NothingForgotten, Spent;
    BoardFacts(f.board);
    var w := FirstWorkerIsRunnable(f.board, o);
    assert w in g.scheduled && JobIds({}) == {};
    assert w in PendingIds(g.pending);
  }

  /** From an empty journal to a plan whose workers wait to be taken. */
  method OpenPlan(workspace: WorkspaceId) returns (pool: WorkerPool, s: SessionId, o: ExecutionId)
    ensures fresh(pool) && fresh(pool.runtime) && fresh(pool.queue) && pool.Valid()
    ensures CarriesPlan(pool.runtime, o, s) && Fed(pool.View(), o)
  {
    hide ConductorRuntime.Live, ConductorRuntime.AtRest, ConductorRuntime.Healthy, Queue.Valid, Orderly, Owned, Clear, StartReserved,
      FirstNodesPend, RegistryWellFormed, Scheduled;
    WithStartIsRegistered();
    var runtime := ConfiguredRuntime(workspace, CompiledConfiguration(WITH_START, "fingerprint"));
    var session := runtime.CreateSession(None, None, Fixed("model"));
    s := session.value.id;
    pool := new WorkerPool(runtime);
    assert runtime.SessionOffers(s, "plan");
    var plan := pool.StartCallable(s, "plan", "goal");
    o := plan.value.id;
    runtime.BoundCatalog();
    assert DefinitionOf(runtime.Project().board, runtime.catalog, o) == Some(PLAN);
    ghost var f := pool.View();
    pool.FeedSubmitted(o);
    PlanIsFed(f, pool.View(), o);
  }

  // ---------------------------------------------------------------------------
  // One worker is cancelled while the other runs
  // ---------------------------------------------------------------------------

  /** The job is the only one in flight, and it is of the tree `o`, as are those that are pending. */
  ghost predicate Alone(f: Floor, o: ExecutionId, job: Job) {
    && f.inFlight == {job} && f.submitted == {} && f.releasing == {} && f.activeSessions == map[job.session := o]
    && job.group == o && forall i :: 0 <= i < |f.pending| ==> f.pending[i].group == o
  }

  lemma TakenFromPlan(f: Floor, g: Floor, o: ExecutionId, index: nat)
    requires Orderly(f) && Fed(f, o) && Happens(f, g, TakeJob(index))
    ensures Alone(g, o, f.pending[index]) && f.pending[index].session == f.board.executions[o].summary.session
    ensures IsChild(f.board, o, f.pending[index].execution) && InState(f.board, f.pending[index].execution, Pending)
    ensures g.board == f.board && g.phases == map[f.pending[index] := Taken]
  {
    hide FirstNodesPend, JobOf, Orderly;
    JobOfPlan(f, o, f.pending[index]);
    WithoutAt(f.pending, index);
    hide Without;
    forall k | 0 <= k < |g.pending| ensures g.pending[k].group == o {
      JobOfPlan(f, o, f.pending[if k < index then k else k + 1]);
    }
  }

  lemma JobOfPlan(f: Floor, o: ExecutionId, job: Job)
    requires Orderly(f) && Fed(f, o) && job in f.pending
    ensures job.group == o && job.session == f.board.executions[o].summary.session
    ensures IsChild(f.board, o, job.execution) && InState(f.board, job.execution, Pending)
  {
    assert JobOf(f.board, o, job) && JobKnown(f.board, job);
    hide FirstNodesPend, BoardInv, OneSessionPerTree, Blocked, RootOf, Awaiting, Obstructed;
    RootIsKnown(f, job);
  }

  lemma BegunPlan(b: Board, o: ExecutionId, w: ExecutionId, v: ExecutionId)
    requires NodesDistinct(b) && FirstNodesPend(b, PLAN, o) && IsChild(b, o, w)
    requires v != w && IsChild(b, o, v)
    ensures WorkersOf(WithState(b, w, Running), o, w, v) && InState(WithState(b, w, Running), v, Pending)
  {
    PlanHasWorkers(b, o, w);
    hide FirstNodesPend;
    var c := WithState(b, w, Running);
    assert forall y :: IsChild(c, o, y) <==> IsChild(b, o, y);
  }

  lemma OtherWorkerExists(b: Board, o: ExecutionId, w: ExecutionId)
    requires NodesDistinct(b) && FirstNodesPend(b, PLAN, o) && IsChild(b, o, w)
    ensures exists v :: v in b.executions && v != w && b.executions[v].summary.parent == Some(o)
  {
    hide FirstNodesPend;
    PlanHasWorkers(b, o, w);
    var v :| WorkersOf(b, o, w, v) && InState(b, v, Pending);
  }

  lemma PlanFacts(runtime: ConductorRuntime, o: ExecutionId, s: SessionId)
    requires runtime.Live() && CarriesPlan(runtime, o, s)
    ensures DefinitionOf(runtime.Project().board, runtime.catalog, o) == Some(PLAN)
    ensures BoardInv(runtime.Project().board) && LiveInv(runtime.Project().board, runtime.catalog) && NodesDistinct(runtime.Project().board)
    ensures Lineage(runtime.Project().board) && GrantsHeld(runtime.Project().board, runtime.catalog) && OneSessionPerTree(runtime.Project().board)
    ensures runtime.executions[o].configRevision in runtime.catalog
    ensures runtime.catalog[runtime.executions[o].configRevision].callables == WITH_START
  {
    hide ConductorRuntime.Live, RegistryWellFormed;
    runtime.BoundCatalog();
    runtime.LiveFacts();
    hide ConductorRuntime.Valid, DurableInv, NodesApart, Lineage, Sequenced;
    LiveTreesKeepTheirSession(runtime.Project().board, runtime.catalog);
  }

  lemma NodesAreDistinct(runtime: ConductorRuntime)
    requires runtime.Live()
    ensures NodesDistinct(runtime.Project().board)
  {
    hide ConductorRuntime.Live, ConductorRuntime.Valid, DurableInv, LiveInv, NodesApart, Lineage, Sequenced;
    runtime.LiveFacts();
  }

  /** A worker of the pool takes one worker of the plan. */
  method TakeWorker(pool: WorkerPool, o: ExecutionId) returns (job: Job)
    requires pool.Valid() && Fed(pool.View(), o)
    modifies pool`phases, pool.queue
    ensures pool.Valid() && Alone(pool.View(), o, job) && pool.phases == map[job := Taken]
    ensures job.session == pool.runtime.executions[o].summary.session
    ensures IsChild(pool.runtime.Project().board, o, job.execution) && InState(pool.runtime.Project().board, job.execution, Pending)
  {
    hide ConductorRuntime.Live, ConductorRuntime.Healthy, ConductorRuntime.AtRest, Queue.Valid, Orderly, Owned, Clear, StartReserved,
      FirstNodesPend, JobOf, Alone, Happens;
    ghost var f := pool.View();
    var taken := pool.Take();
    assert MayBeTaken(f, f.pending[0]);
    job := taken.value;
    ghost var index: nat :| index < |f.pending| && job == f.pending[index] && Happens(f, pool.View(), TakeJob(index));
    TakenFromPlan(f, pool.View(), o, index);
  }

  /** It drives it, and the plan has another one. */
  method DriveWorker(pool: WorkerPool, o: ExecutionId, s: SessionId) returns (job: Job, v: ExecutionId)
    requires pool.Valid() && CarriesPlan(pool.runtime, o, s) && Fed(pool.View(), o)
    modifies pool`phases, pool`obstructed, pool.runtime, pool.queue
    ensures pool.Valid() && CarriesPlan(pool.runtime, o, s) && Alone(pool.View(), o, job) && job.session == s
    ensures pool.phases == map[job := Driving]
    ensures WorkersOf(pool.runtime.Project().board, o, job.execution, v)
    ensures InState(pool.runtime.Project().board, job.execution, Running) && InState(pool.runtime.Project().board, v, Pending)
  {
    hide ConductorRuntime.Live, ConductorRuntime.Healthy, ConductorRuntime.AtRest, Queue.Valid, Orderly, Owned, Clear, StartReserved,
      FirstNodesPend, RootOf, NodesDistinct, WorkersOf, JobOf, Happens;
    NodesAreDistinct(pool.runtime);
    job := TakeWorker(pool, o);
    ghost var b := pool.runtime.Project().board;
    OtherWorkerExists(b, o, job.execution);
    v :| v in pool.runtime.executions && v != job.execution && pool.runtime.executions[v].summary.parent == Some(o);
    BegunPlan(b, o, job.execution, v);
    pool.Begin(job);
  }

  /** The other worker is cancelled, and that stops the plan. */
  method StopPlan(pool: WorkerPool, o: ExecutionId, s: SessionId, job: Job, v: ExecutionId)
    requires pool.Valid() && CarriesPlan(pool.runtime, o, s) && Alone(pool.View(), o, job) && pool.phases == map[job := Driving]
    requires WorkersOf(pool.runtime.Project().board, o, job.execution, v)
    requires InState(pool.runtime.Project().board, job.execution, Running) && InState(pool.runtime.Project().board, v, Pending)
    modifies pool`obstructed, pool.runtime
    ensures pool.Valid() && CarriesPlan(pool.runtime, o, s) && Alone(pool.View(), o, job)
    ensures StopsDescendants(pool.runtime.executions[o].summary.state) && InState(pool.runtime.Project().board, job.execution, Running)
    ensures IsWorker(pool.runtime.Project().board, o, job.execution)
  {
    hide ConductorRuntime.Live, ConductorRuntime.Healthy, LogCurrent, Calm, Queue.Valid, Orderly, Owned, Clear, StartReserved, FirstNodesPend,
      RegistryWellFormed, RootOf, Spares, Below, AgentsKept, OnlyInTree, BoardInv, LiveInv, NodesDistinct, GrantsHeld, Lineage, OneSessionPerTree,
      Awaiting, Blocked, InSubtree, IsLive;
    PlanFacts(pool.runtime, o, s);
    ghost var b := pool.runtime.Project().board;
    var cancelled := pool.Cancel(v);
    ItselfIn(pool.runtime.Project().board, v);
    PlanFacts(pool.runtime, o, s);
    CancellingOneSparesTheOther(b, pool.runtime.Project().board, pool.runtime.catalog, o, job.execution, v);
  }

  lemma ItselfIn(b: Board, x: ExecutionId)
    ensures InSubtree(b, x, x) <==> x in b.executions
  {
  }

  // ---------------------------------------------------------------------------
  // The running worker leaves a plan of its own behind
  // ---------------------------------------------------------------------------

  /** A worker of the plan holds what the plan itself was granted. */
  lemma WorkerMayPlan(runtime: ConductorRuntime, o: ExecutionId, s: SessionId, w: ExecutionId)
    requires runtime.Live() && CarriesPlan(runtime, o, s) && IsWorker(runtime.Project().board, o, w)
    ensures runtime.HoldsNodesOf(w, "plan") && runtime.Offers(w, "plan") && StartAllowed(runtime.Project(), w, "plan", true)
    ensures runtime.StartProvisioned(w)
  {
    hide ConductorRuntime.Live, RegistryWellFormed, BoardInv, LiveInv, NodesDistinct, GrantsHeld, Lineage, NodeCallables;
    PlanFacts(runtime, o, s);
    WithStartIsRegistered();
    PlanCallables();
    runtime.BoundRevisions();
    WorkerIsGranted(runtime.Project().board, runtime.catalog, o, w);
  }

  lemma PlanCallables()
    ensures NodeCallables(PLAN) == {"worker", "decider"}
  {
    assert PLAN.nodes[0].callable == PLAN.nodes[1].callable == "worker";
  }

  lemma WorkerIsGranted(b: Board, catalog: Catalog, o: ExecutionId, w: ExecutionId)
    requires Lineage(b) && GrantsHeld(b, catalog) && IsWorker(b, o, w) && o in b.executions && b.executions[o].summary.parent.None?
    requires b.executions[o].summary.kind.Orchestration? && b.executions[o].summary.callable == Some("plan")
    requires b.executions[o].configRevision in catalog && catalog[b.executions[o].configRevision].callables == WITH_START
    ensures b.executions[w].authority == MAY_PLAN && b.executions[w].configRevision == b.executions[o].configRevision
  {
    hide ConfiguredAuthority;
    PlanIsGranted(WITH_START);
    AttenuateIsTheMeet(MAY_PLAN, MAY_PLAN, MAY_PLAN);
  }

  /** An orchestration under a worker of a stopped plan is obstructed. */
  lemma LeftBehind(b: Board, o: ExecutionId, w: ExecutionId, p: ExecutionId)
    requires Lineage(b) && o in b.executions && b.executions[o].summary.parent.None?
    requires Nested(b, o, w, p)
    ensures IsStopped(b, o)
  {
    BlockedByParent(b, w);
    BlockedByParent(b, p);
    hide Blocked;
    assert RootOf(b, p) == RootOf(b, w) == RootOf(b, o) == o;
  }

  /** Nothing of a tree whose root was stopped can start. */
  lemma {:induction false} StoppedTreeIsBlocked(b: Board, o: ExecutionId, x: ExecutionId)
    requires Lineage(b) && o in b.executions && b.executions[o].summary.parent.None? && StopsDescendants(b.executions[o].summary.state)
    requires x in b.executions && RootOf(b, x) == o
    ensures x == o || Blocked(b, x)
    decreases x
  {
    BlockedByParent(b, x);
    hide Blocked;
    if b.executions[x].summary.parent.Some? { StoppedTreeIsBlocked(b, o, b.executions[x].summary.parent.value); }
  }

  /** The live plan `p` of a worker `w` of the plan `o`, which was stopped. */
  ghost predicate Nested(b: Board, o: ExecutionId, w: ExecutionId, p: ExecutionId) {
    && o in b.executions && StopsDescendants(b.executions[o].summary.state) && Unawaited(b, w)
    && IsChild(b, o, w) && IsChild(b, w, p) && LiveOrchestration(b, p)
  }

  /** The worker that still runs starts a plan of its own. */
  method StartNested(pool: WorkerPool, o: ExecutionId, s: SessionId, job: Job) returns (p: ExecutionId)
    requires pool.Valid() && CarriesPlan(pool.runtime, o, s) && Alone(pool.View(), o, job) && pool.phases == map[job := Driving]
    requires StopsDescendants(pool.runtime.executions[o].summary.state) && InState(pool.runtime.Project().board, job.execution, Running)
    requires IsWorker(pool.runtime.Project().board, o, job.execution)
    modifies pool`obstructed, pool.runtime
    ensures pool.Valid() && CarriesPlan(pool.runtime, o, s) && Alone(pool.View(), o, job)
    ensures Nested(pool.runtime.Project().board, o, job.execution, p) && InState(pool.runtime.Project().board, job.execution, Running)
  {
    hide ConductorRuntime.Live, ConductorRuntime.Healthy, ConductorRuntime.AtRest, Queue.Valid, Orderly, Owned, Clear, StartReserved,
      ConductorRuntime.HoldsNodesOf, ConductorRuntime.Offers, ConductorRuntime.StartProvisioned, StartAllowed, ConductorRuntime.FirstNodesRun,
      Happens, Evolves, Unawaited, IsBlank;
    WorkerMayPlan(pool.runtime, o, s, job.execution);
    WithStartIsRegistered();
    ghost var f := pool.View();
    var nested := pool.StartOrchestration(job, "plan", "goal");
    p := nested.value.id;
    StepEvolves(f, pool.View(), PlanJob(job, p));
    StaysStopped(f.board, pool.View().board, o, job.execution);
    WorkingAlone(f, pool.View(), o, job, PlanJob(job, p));
    PlannerGoesOn(f, pool.View(), job, p);
  }

  lemma PlannerGoesOn(f: Floor, g: Floor, job: Job, p: ExecutionId)
    requires Happens(f, g, PlanJob(job, p))
    ensures InState(g.board, job.execution, Running)
  {
    hide Acts, OnlyChildrenOf;
  }

  lemma WorkingAlone(f: Floor, g: Floor, o: ExecutionId, job: Job, step: PoolStep)
    requires Alone(f, o, job) && Happens(f, g, step) && (step.PlanJob? || step.EndJob?) && step.job == job
    ensures Alone(g, o, job)
  {
  }

  lemma CompletedUnderPlan(b: Board, o: ExecutionId, w: ExecutionId, p: ExecutionId)
    requires Lineage(b) && Nested(b, o, w, p)
    ensures w in b.executions && w != o && Unawaited(b, w)
    ensures var c := WithState(b, w, Completed); o in c.executions && c.executions[o] == b.executions[o] && Nested(c, o, w, p)
  {
  }

  /** The worker completes; the plan it works for was stopped before and is not told. */
  method CompleteWorker(pool: WorkerPool, o: ExecutionId, s: SessionId, job: Job)
    requires pool.Valid() && CarriesPlan(pool.runtime, o, s) && pool.phases == map[job := Driving] && o != job.execution
    requires InState(pool.runtime.Project().board, job.execution, Running) && Unawaited(pool.runtime.Project().board, job.execution)
    modifies pool`phases, pool`obstructed, pool.runtime
    ensures pool.Valid() && CarriesPlan(pool.runtime, o, s) && pool.phases == map[job := Driven]
    ensures pool.runtime.Project().board == WithState(old(pool.runtime.Project()).board, job.execution, Completed)
    ensures Happens(old(pool.View()), pool.View(), EndJob(job))
  {
    hide WorkerPool.Valid, Happens, Unawaited;
    pool.Finish(job, Ok(()));
  }

  /** It leaves its own plan behind. */
  method LeavePlan(pool: WorkerPool, o: ExecutionId, s: SessionId, job: Job, p: ExecutionId)
    requires pool.Valid() && CarriesPlan(pool.runtime, o, s) && Alone(pool.View(), o, job) && pool.phases == map[job := Driving]
    requires Nested(pool.runtime.Project().board, o, job.execution, p) && InState(pool.runtime.Project().board, job.execution, Running)
    modifies pool`phases, pool`obstructed, pool.runtime
    ensures pool.Valid() && CarriesPlan(pool.runtime, o, s) && Alone(pool.View(), o, job) && pool.phases == map[job := Driven]
    ensures IsStopped(pool.runtime.Project().board, o)
  {
    hide ConductorRuntime.Live, ConductorRuntime.Healthy, ConductorRuntime.AtRest, Queue.Valid, Orderly, Owned, Clear, StartReserved, Happens,
      Nested, WithState, Alone, IsStopped, Unawaited, Lineage;
    ghost var f := pool.View();
    OrderlyBoard(f);
    CompletedUnderPlan(f.board, o, job.execution, p);
    CompleteWorker(pool, o, s, job);
    WorkingAlone(f, pool.View(), o, job, EndJob(job));
    OrderlyBoard(pool.View());
    LeftBehind(pool.runtime.Project().board, o, job.execution, p);
  }

  lemma StaysStopped(b: Board, c: Board, o: ExecutionId, w: ExecutionId)
    requires Evolves(b, c) && o in b.executions && StopsDescendants(b.executions[o].summary.state) && IsChild(b, o, w)
    ensures o in c.executions && c.executions[o] == b.executions[o] && IsChild(c, o, w) && Unawaited(c, w)
  {
  }

  // ---------------------------------------------------------------------------
  // The session is not freed
  // ---------------------------------------------------------------------------

  /** No worker holds a job, and the session is held by the tree `o`, which was stopped and is obstructed. */
  ghost predicate Lingers(f: Floor, o: ExecutionId, s: SessionId) {
    && f.phases == map[] && f.submitted == {} && f.releasing == {} && f.activeSessions == map[s := o]
    && (forall i :: 0 <= i < |f.pending| ==> f.pending[i].group == o)
    && IsStopped(f.board, o)
  }

  ghost predicate IsStopped(b: Board, o: ExecutionId) {
    && o in b.executions && b.executions[o].summary.parent.None? && StopsDescendants(b.executions[o].summary.state)
    && Obstructed(b, o)
  }

  /** A stopped and obstructed tree has no jobs for the queue and is not at rest. */
  lemma StoppedIsUnruly(f: Floor, o: ExecutionId)
    requires Orderly(f) && IsStopped(f.board, o)
    ensures forall x :: !Runnable(f.board, o, x)
    ensures forall job :: JobKnown(f.board, job) && job.group == o ==> !CanStart(f.board, job.execution)
    ensures !Quiescent(f.board, o)
  {
    hide Blocked, RootOf, Obstructed, Quiescent, BoardInv, Awaiting, Lineage, JobsKnown, NothingForgotten, Spent, RunningAreDriven, Watched,
      HeldForAReason, SubmittedAreNew, ObstructionsKnown, SessionsKnown, Conserved, OneSessionPerTree;
    ObstructedIsNeverAtRest(f.board, o);
    BoardFacts(f.board);
    forall x | x in f.board.executions && RootOf(f.board, x) == o ensures x == o || Blocked(f.board, x) {
      StoppedTreeIsBlocked(f.board, o, x);
    }
  }

  /** The worker hands its job back, and the session stays taken. */
  method ReturnJob(pool: WorkerPool, o: ExecutionId, job: Job)
    requires pool.Valid() && Alone(pool.View(), o, job) && pool.phases == map[job := Driven] && IsStopped(pool.runtime.Project().board, o)
    modifies pool`phases, pool.queue
    ensures pool.Valid() && Lingers(pool.View(), o, job.session) && pool.queue.pending == old(pool.queue.pending)
  {
    hide ConductorRuntime.Live, ConductorRuntime.Healthy, ConductorRuntime.AtRest, Queue.Valid, Orderly, Owned, Clear, StartReserved, IsStopped,
      Runnable, Quiescent, Stuck, InGroup, HasPending;
    StoppedIsUnruly(pool.View(), o);
    var released := pool.Return(job);
    NothingFed(pool.runtime.Project().board, o, old(pool.queue.pending), pool.queue.pending);
  }

  lemma NothingFed(b: Board, o: ExecutionId, before: seq<Job>, after: seq<Job>)
    requires before <= after && (forall i :: |before| <= i < |after| ==> JobOf(b, o, after[i])) && forall x :: !Runnable(b, o, x)
    ensures after == before
  {
    hide Runnable;
    assert |before| < |after| ==> JobOf(b, o, after[|before|]);
  }

  /** Further jobs of the tree are taken and handed back undone. */
  method Drain(pool: WorkerPool, o: ExecutionId, s: SessionId)
    requires pool.Valid() && Lingers(pool.View(), o, s)
    modifies pool`phases, pool.queue
    ensures pool.Valid() && Lingers(pool.View(), o, s) && pool.queue.pending == []
  {
    hide ConductorRuntime.Live, ConductorRuntime.Healthy, ConductorRuntime.AtRest, Queue.Valid, Orderly, Owned, Clear, StartReserved, IsStopped,
      Happens, CanStart, JobKnown;
    while pool.queue.pending != []
      invariant pool.Valid() && Lingers(pool.View(), o, s)
      decreases |pool.queue.pending|
    {
      ghost var f := pool.View();
      PendingIsKnown(f, o, s);
      assert MayBeTaken(f, f.pending[0]);
      var taken := pool.Take();
      var job := taken.value;
      ghost var index: nat :| index < |f.pending| && job == f.pending[index] && Happens(f, pool.View(), TakeJob(index));
      TakenFromRest(f, pool.View(), o, s, index);
      StoppedIsUnruly(f, o);
      var go := pool.Look(job);
      ReturnJob(pool, o, job);
    }
  }

  lemma PendingIsKnown(f: Floor, o: ExecutionId, s: SessionId)
    requires Orderly(f) && Lingers(f, o, s)
    ensures forall i :: 0 <= i < |f.pending| ==> JobKnown(f.board, f.pending[i]) && f.pending[i].session == s && MayBeTaken(f, f.pending[i])
  {
    hide IsStopped, BoardInv, OneSessionPerTree, Awaiting, Conserved, JobKnown;
    assert s in f.activeSessions && f.activeSessions[s] == o;
    forall i | 0 <= i < |f.pending| ensures JobKnown(f.board, f.pending[i]) && f.pending[i].session == s {
      assert f.pending[i] in f.pending;
      RootIsKnown(f, f.pending[i]);
    }
  }

  lemma TakenFromRest(f: Floor, g: Floor, o: ExecutionId, s: SessionId, index: nat)
    requires Orderly(f) && Lingers(f, o, s) && Happens(f, g, TakeJob(index))
    ensures Alone(g, o, f.pending[index]) && f.pending[index].session == s && g.phases == map[f.pending[index] := Taken]
    ensures |g.pending| < |f.pending| && g.board == f.board
    ensures JobKnown(f.board, f.pending[index])
  {
    PendingIsKnown(f, o, s);
    assert f.inFlight == {};
    WithoutAt(f.pending, index);
    hide Orderly, IsStopped, JobKnown, Without;
  }

  /** A tree without jobs is idle. */
  lemma LingeringIsStuck(f: Floor, o: ExecutionId, s: SessionId)
    requires Orderly(f) && Lingers(f, o, s) && f.pending == []
    ensures Stuck(f, s) && f.activeSessions[s] == o
  {
    assert f.inFlight == {};
    hide Orderly, IsStopped;
  }

  /** Another tree leaves the obstruction as it is. */
  lemma StaysObstructed(b: Board, c: Board, x: ExecutionId, o: ExecutionId)
    requires BoardInv(b) && BoardInv(c) && OpensTree(b, c, x) && Obstructed(b, o)
    ensures Obstructed(c, o)
  {
    var p :| LiveOrchestration(b, p) && RootOf(b, p) == o && Blocked(b, p);
    BoardFacts(b);
    BoardFacts(c);
    SubtreeStable(b, c, p, p);
    BlockedForGood(b, c, p);
    hide BoardInv, RootOf, Blocked, Lineage, Sequenced;
    assert LiveOrchestration(c, p);
  }

  /** What was opened waits for a session that is stuck. */
  lemma OpenedWaits(f: Floor, g: Floor, x: ExecutionId, s: SessionId)
    requires Orderly(f) && Orderly(g) && Happens(f, g, FeedOpened(x)) && f.pending == [] && f.inFlight == {} && Runnable(f.board, x, x)
    requires f.board.executions[x].summary.session == s
    ensures exists i :: 0 <= i < |g.pending| && g.pending[i] == Job(x, s, x)
  {
    assert x in g.scheduled && g.inFlight == {} && CanStart(g.board, x) && x !in JobIds(g.completed) && JobIds(g.inFlight) == {};
    assert x in PendingIds(g.pending);
    hide BoardInv, Awaiting, OneSessionPerTree, Blocked, RootOf, Watched, HeldForAReason, Obstructed;
    var i :| 0 <= i < |g.pending| && g.pending[i].execution == x;
    assert JobOf(f.board, x, g.pending[i]);
  }

  lemma RootIsRunnable(b: Board, x: ExecutionId)
    requires Lineage(b) && InState(b, x, Pending) && b.executions[x].summary.parent.None?
    ensures Runnable(b, x, x)
  {
    BlockedByParent(b, x);
    hide Blocked;
  }

  /** The reader opens and feeds an agent. */
  method OpenAgent(pool: WorkerPool, o: ExecutionId, s: SessionId) returns (x: ExecutionId)
    requires pool.Valid() && CarriesPlan(pool.runtime, o, s) && Lingers(pool.View(), o, s) && pool.queue.pending == []
    modifies pool`submitted, pool`obstructed, pool.runtime, pool.queue
    ensures pool.Valid() && Stuck(pool.View(), s) && pool.queue.activeSessions[s] == o && Obstructed(pool.runtime.Project().board, o)
    ensures pool.queue.inFlight == {} && pool.submitted == {} && CanStart(pool.runtime.Project().board, x)
    ensures exists i :: 0 <= i < |pool.queue.pending| && pool.queue.pending[i] == Job(x, s, x)
  {
    hide ConductorRuntime.Live, ConductorRuntime.Healthy, ConductorRuntime.AtRest, Queue.Valid, Orderly, Owned, Clear, StartReserved, Happens,
      Stuck, Runnable, Obstructed, IsBlank, ConductorRuntime.FirstNodesRun, CanStart;
    ghost var f := pool.View();
    LingeringIsStuck(f, o, s);
    WithStartIsRegistered();
    assert pool.runtime.SessionOffers(s, "worker");
    var agent := pool.StartCallable(s, "worker", "goal");
    x := agent.value.id;
    ghost var g := pool.View();
    StuckStays(f, g, OpenTree(x), s);
    OpenedFloor(f, g, x, o, s);
    pool.FeedSubmitted(x);
    StuckStays(g, pool.View(), FeedOpened(x), s);
    OpenedWaits(g, pool.View(), x, s);
  }

  lemma OpenedFloor(f: Floor, g: Floor, x: ExecutionId, o: ExecutionId, s: SessionId)
    requires Orderly(f) && Orderly(g) && Happens(f, g, OpenTree(x)) && Lingers(f, o, s)
    requires InState(g.board, x, Pending) && g.board.executions[x].summary.parent.None?
    ensures Obstructed(g.board, o) && Runnable(g.board, x, x) && CanStart(g.board, x)
    ensures g.pending == f.pending && g.inFlight == f.inFlight == {} && g.submitted == {x}
  {
    hide BoardInv, OpensTree, OnlyChildrenOf, Blocked, RootOf, Obstructed, Awaiting, OneSessionPerTree, ObstructedTrees, JobsKnown,
      NothingForgotten, Spent, RunningAreDriven, Watched, HeldForAReason, SubmittedAreNew, ObstructionsKnown, SessionsKnown, Conserved, Exclusive;
    StaysObstructed(f.board, g.board, x, o);
    BoardFacts(g.board);
    RootIsRunnable(g.board, x);
  }

  /**
   A run from an empty journal, with a configuration that registers a tool
   under the id of the tool that starts orchestrations.  One worker of a plan
   is cancelled while the other runs; that stops the plan.  The other, which
   was given that tool, starts a plan of its own and completes.  What its plan
   waits for is blocked, so the tree never comes to rest and keeps the session:
   the agent opened there next waits for good, for `StuckForGood` holds of
   whatever happens next.  Without that tool there is no such run
   (`WorkersNeverStall`).
   */
  method ObstructedTreeKeepsItsSession(workspace: WorkspaceId) returns (pool: WorkerPool, s: SessionId, o: ExecutionId, x: ExecutionId)
    ensures fresh(pool) && pool.Valid() && Stuck(pool.View(), s)
    ensures pool.queue.activeSessions[s] == o && Obstructed(pool.runtime.Project().board, o)
    ensures pool.queue.inFlight == {} && pool.submitted == {}
    ensures CanStart(pool.runtime.Project().board, x)
    ensures exists i :: 0 <= i < |pool.queue.pending| && pool.queue.pending[i] == Job(x, s, x)
    ensures !StartReserved(pool.runtime.configurations)
  {
    hide Stuck, WorkerPool.Valid, Obstructed, StartReserved, CanStart;
    pool, s, o := OpenPlan(workspace);
    var job, v := DriveWorker(pool, o, s);
    StopPlan(pool, o, s, job, v);
    var p := StartNested(pool, o, s, job);
    LeavePlan(pool, o, s, job, p);
    ReturnJob(pool, o, job);
    Drain(pool, o, s);
    x := OpenAgent(pool, o, s);
    StuckIsNotReserved(pool, s);
  }

  lemma StuckIsNotReserved(pool: WorkerPool, s: SessionId)
    requires pool.Valid() && Stuck(pool.View(), s)
    ensures !StartReserved(pool.runtime.configurations)
  {
    hide WorkerPool.Valid, StartReserved, IsIdle;
    if StartReserved(pool.runtime.configurations) { pool.WorkersNeverStall(); }
  }
}
