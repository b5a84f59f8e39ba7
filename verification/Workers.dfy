/**
 The server's workers: threads that take jobs from the execution queue, drive
 them through the runtime, feed what became ready back into the queue and hand
 the job back.  Every step holds one lock, so a run is any interleaving of the
 steps of any number of workers and of the thread that reads requests.
 */
module Workers {
  import opened PhenixCore
  import opened Records
  import opened Journal
  import opened Configuration
  import opened BoardInvariants
  import opened DurableInvariants
  import opened Scheduler
  import opened ExecutionTree
  import opened Settling
  import opened Cascade
  import opened Causes
  import opened Creation
  import opened Delegation
  import opened Opening
  import opened Provisioning
  import opened Acting
  import opened Retrying
  import opened ExecutionQueue
  import opened ExecutionGroups
  import opened WorkerInvariants
  import opened WorkerRuns
  import opened Sheltering
  import opened Runtime

  /**
   Whatever a live runtime has recorded, its runnable executions of a group all
   reach the queue, each in the one session where the group runs.
   */
  method ScheduleGroup(runtime: ConductorRuntime, queue: Queue, group: ExecutionId)
    requires runtime.Live() && queue.Valid()
    modifies queue`scheduled, queue`pending
    ensures queue.Valid() && runtime.Live() && runtime.Project() == old(runtime.Project())
    ensures forall id :: id in queue.scheduled <==> id in old(queue.scheduled) || Runnable(runtime.Project().board, group, id)
    ensures old(queue.pending) <= queue.pending
    ensures forall i :: |old(queue.pending)| <= i < |queue.pending| ==> JobOf(runtime.Project().board, group, queue.pending[i])
    ensures forall id :: Runnable(runtime.Project().board, group, id) ==>
      InSubtree(runtime.Project().board, group, id) && SameSession(runtime.Project().board, group, id)
  {
    ghost var b := runtime.Project().board;
    runtime.LiveFacts();
    LiveTreesKeepTheirSession(b, runtime.catalog);
    assert b.executions == runtime.executions;
    hide *;
    var executions := SnapshotExecutions(runtime.executions, b);
    EnqueuePendingExecutionGroup(queue, executions, b, group);
    forall id | Runnable(b, group, id) ensures InSubtree(b, group, id) && SameSession(b, group, id) { RunnableIsBelow(b, group, id); }
  }

  predicate SameSession(b: Board, x: ExecutionId, y: ExecutionId) {
    x in b.executions && y in b.executions && b.executions[x].summary.session == b.executions[y].summary.session
  }

  lemma RunnableIsBelow(b: Board, group: ExecutionId, id: ExecutionId)
    requires Lineage(b) && OneSessionPerTree(b) && Runnable(b, group, id)
    ensures InSubtree(b, group, id) && SameSession(b, group, id)
  {
    SessionOfTheRoot(b, id);
    RootFacts(b, id);
  }

  /**
   Why a driven execution is refused: it no longer runs, it was not given the
   tool, its arguments are invalid, or the runtime refuses.
   */
  datatype HostError =
    | NotRunning(execution: ExecutionId)
    | NotProvisioned(execution: ExecutionId)
    | InvalidArguments
    | Refused(error: ConductorError)

  /** First of all the frontend is told the error of `x`, and the message is what a retry of `x` will be given as the reason. */
  ghost predicate RaisesError(d: Durable, e: Durable, x: ExecutionId, message: string) {
    && d.events < e.events
    && e.events[|d.events|].execution == x && e.events[|d.events|].kind == ErrorRaised("backend", message)
    && IsReason(e.events, x, message)
  }

  class WorkerPool {
    const runtime: ConductorRuntime
    const queue: Queue
    // How far the workers have come with the jobs they hold.
    var phases: map<Job, Phase>
    // Trees that the reader has opened and not fed yet.
    var submitted: set<ExecutionId>
    // Trees that have ever been found obstructed.
    ghost var obstructed: set<ExecutionId>
    // The executions up to this one are older than the pool.
    ghost const before: nat

    ghost function View(): Floor
      reads this, runtime, queue
    {
      Floor(runtime.Project().board, queue.scheduled, queue.pending, queue.inFlight, queue.completed, queue.activeSessions,
            queue.releasingGroups, phases, submitted, obstructed)
    }

    ghost predicate Valid()
      reads this, runtime, queue
    {
      && runtime.Live() && runtime.Healthy() && runtime.AtRest()
      && queue.Valid()
      && Orderly(View())
      && Owned(View(), before)
      && (StartReserved(runtime.configurations) ==> Clear(View(), before))
    }

    /** The bindings of configurations and the sessions are as before. */
    twostate predicate SameSetting()
      reads runtime
    {
      && runtime.configurations == old(runtime.configurations) && runtime.catalog == old(runtime.catalog)
      && runtime.sessions == old(runtime.sessions)
    }

    /** A runtime of which nothing runs or can start, and an empty queue. */
    constructor (runtime: ConductorRuntime)
      requires runtime.Live() && runtime.Healthy() && runtime.AtRest()
      requires forall x :: !CanStart(runtime.Project().board, x)
      requires forall x :: InState(runtime.Project().board, x, Running) ==> IsOrchestration(runtime.Project().board, x)
      ensures Valid() && this.runtime == runtime && fresh(queue) && phases == map[] && submitted == {}
      ensures obstructed == ObstructedTrees(runtime.Project().board) && before == runtime.nextExecution
      ensures queue.scheduled == {} && queue.pending == [] && queue.inFlight == {} && queue.completed == {}
      ensures queue.activeSessions == map[] && queue.releasingGroups == {}
    {
      var queue := new Queue();
      this.runtime, this.queue, phases, submitted := runtime, queue, map[], {};
      obstructed, before := ObstructedTrees(runtime.Project().board), runtime.nextExecution;
      new;
      hide ConductorRuntime.Live, ConductorRuntime.Healthy, ConductorRuntime.AtRest, BoardInv, OneSessionPerTree, Awaiting, CanStart, Orderly,
        Owned, Clear, StartReserved;
      RuntimeFacts(runtime);
      EmptyFloorIsOrderly(View());
      IdleFloorIsClear(View());
    }

    static lemma RuntimeFacts(runtime: ConductorRuntime)
      requires runtime.Live() && runtime.Healthy() && runtime.AtRest()
      ensures BoardInv(runtime.Project().board) && OneSessionPerTree(runtime.Project().board) && Awaiting(runtime.Project().board)
    {
      runtime.LiveFacts();
      LiveTreesKeepTheirSession(runtime.Project().board, runtime.catalog);
      hide ConductorRuntime.Live, ConductorRuntime.AtRest, BoardInv, OneSessionPerTree, NodesApart;
      forall o | LiveOrchestration(runtime.Project().board, o)
        ensures InState(runtime.Project().board, o, Running) && exists x :: IsChild(runtime.Project().board, o, x) && IsLive(runtime.Project().board, x)
      {
        assert o in LiveOrchestrations(runtime.Project().board);
        runtime.RunningHasALiveChild(o);
      }
    }

    /** A worker takes a job, if there is one that it may take. */
    method Take() returns (job: Option<Job>)
      requires Valid()
      modifies this`phases, queue
      ensures Valid() && submitted == old(submitted) && runtime.Project() == old(runtime.Project())
      ensures job.Some? ==>
        && job.value in old(queue.pending) && job.value !in old(queue.inFlight) && job.value !in old(phases)
        && queue.inFlight == old(queue.inFlight) + {job.value} && phases == old(phases)[job.value := Taken]
      ensures job.Some? ==> exists index: nat ::
        index < |old(queue.pending)| && job.value == old(queue.pending)[index] && Happens(old(View()), View(), TakeJob(index))
      ensures job.None? ==> View() == old(View()) && forall i :: 0 <= i < |queue.pending| ==> !MayBeTaken(View(), queue.pending[i])
    {
      hide ConductorRuntime.Live, ConductorRuntime.Healthy, ConductorRuntime.AtRest, Orderly, Without, Owned, Clear, StartReserved;
      ghost var f := View();
      var next;
      ghost var index;
      next, index := queue.Next();
      job := None;
      if next.Dispatched? {
        TakeKeepsOrder(f, index);
        HeldExactly(f);
        phases := phases[next.job := Taken];
        job := Some(next.job);
        assert View() == AfterTake(f, index);
        assert Happens(f, View(), TakeJob(index));
        StepKeepsTrees(f, View(), TakeJob(index), before);
      }
    }

    lemma KnownJob(job: Job)
      requires Valid() && job in phases
      ensures job in queue.inFlight && job.execution in runtime.executions && !IsOrchestration(runtime.Project().board, job.execution)
      ensures RootOf(runtime.Project().board, job.execution) == job.group
    {
      hide ConductorRuntime.Live, ConductorRuntime.Healthy, ConductorRuntime.AtRest, RootOf, Owned, Clear, StartReserved;
      JobIsKnown(View(), job);
    }

    /** Before driving a job its worker checks that it still waits to run and that nothing above it was stopped. */
    method Look(job: Job) returns (go: bool)
      requires Valid() && job in phases && phases[job].Taken?
      modifies this`phases
      ensures Valid()
      ensures go <==> CanStart(runtime.Project().board, job.execution)
      ensures phases == if go then old(phases) else old(phases)[job := Driven]
      ensures !go ==> Happens(old(View()), View(), GoOn(job, Driven))
    {
      hide ConductorRuntime.Live, ConductorRuntime.Healthy, ConductorRuntime.AtRest, Queue.Valid, Orderly, Blocked, Pictures, Lineage, Sequenced,
        BoardInv, DurableInv, LiveInv, NodesApart, RootOf, Owned, Clear, StartReserved;
      KnownJob(job);
      ghost var f := View();
      HeldJobs(f, job);
      runtime.LiveFacts();
      var executions := SnapshotExecutions(runtime.executions, f.board);
      var blocked := ExecutionHasBlockingAncestor(executions, f.board, job.execution);
      go := runtime.executions[job.execution].summary.state == Pending && !blocked;
      if !go {
        PhaseKeepsOrder(f, job, Driven);
        phases := phases[job := Driven];
        StepKeepsTrees(f, View(), GoOn(job, Driven), before);
      }
    }

    static lemma HeldExactly(f: Floor)
      requires Orderly(f)
      ensures f.phases.Keys == f.inFlight
    {
    }

    static lemma HeldJobs(f: Floor, job: Job)
      requires Orderly(f) && job in f.phases
      ensures job in f.inFlight
    {
    }

    /** A job that still waits starts running; one that was overtaken is done with.  None runs already. */
    method Begin(job: Job)
      requires Valid() && job in phases && phases[job].Taken?
      modifies this`phases, this`obstructed, runtime
      ensures Valid() && !InState(old(runtime.Project()).board, job.execution, Running)
      ensures phases == old(phases)[job := if InState(old(runtime.Project()).board, job.execution, Pending) then Driving else Driven]
      ensures runtime.Project() ==
        if InState(old(runtime.Project()).board, job.execution, Pending) then Moved(old(runtime.Project()), job.execution, Running)
        else old(runtime.Project())
      ensures Happens(old(View()), View(),
                      if InState(old(runtime.Project()).board, job.execution, Pending) then BeginJob(job) else GoOn(job, Driven))
      ensures SameSetting()
    {
      hide ConductorRuntime.Live, ConductorRuntime.Healthy, ConductorRuntime.AtRest, Queue.Valid, Orderly, Blocked, Awaiting, BoardInv,
        OneSessionPerTree, RootOf, Moved, WithState, Owned, Clear, StartReserved;
      KnownJob(job);
      ghost var f, d := View(), runtime.Project();
      HeldJobs(f, job);
      NotRunningYet(f, job);
      if runtime.executions[job.execution].summary.state == Pending {
        var begun := runtime.BeginDrive(job.execution);
        MovedBoard(d, job.execution);
        RuntimeFacts(runtime);
        BeginKeepsOrder(f, job);
        phases, obstructed := phases[job := Driving], obstructed + ObstructedTrees(runtime.Project().board);
        StepKeepsTrees(f, View(), BeginJob(job), before);
      } else {
        PhaseKeepsOrder(f, job, Driven);
        phases := phases[job := Driven];
        StepKeepsTrees(f, View(), GoOn(job, Driven), before);
      }
    }

    /** Nobody else drives the execution of a job in hand. */
    static lemma NotRunningYet(f: Floor, job: Job)
      requires Orderly(f) && job in f.inFlight && f.phases[job].Taken?
      ensures !InState(f.board, job.execution, Running)
    {
      hide BoardInv, RootOf, Awaiting, OneSessionPerTree;
      JobIsKnown(f, job);
      assert IsDriven(f, job.execution) ==> exists j :: j in f.inFlight && j.execution == job.execution && j != job;
    }

    static lemma MovedBoard(d: Durable, x: ExecutionId)
      requires x in d.board.executions
      ensures Moved(d, x, Running).board == WithState(d.board, x, Running) && Moved(d, x, Running).sessions == d.sessions
    {
    }

    /** What a driven execution does through the runtime while it runs: it decides about a failure, if it is the agent to do so. */
    method Decide(job: Job, request: DecisionRequest) returns (r: Result<Option<ExecutionSummary>, HostError>)
      requires Valid() && job in phases && phases[job].Driving?
      modifies this`obstructed, runtime
      ensures Valid() && Happens(old(View()), View(), DecideJob(job))
      ensures r.Ok? <==> InState(old(runtime.Project()).board, job.execution, Running) && old(runtime.DecisionGranted(job.execution, request))
      ensures r.Ok? ==> exists o, failed :: Decides(old(runtime.Project()), runtime.Project(), job.execution, request, r.value, o, failed)
    {
      hide ConductorRuntime.Live, ConductorRuntime.Healthy, Calm, LogCurrent, Queue.Valid, Orderly, Acts, RootOf, BoardInv, Decides,
        ConductorRuntime.DecisionGranted, Awaiting, OneSessionPerTree, Owned, Clear, StartReserved, DecidesOnly, Swept, Spares;
      KnownJob(job);
      ghost var f, d := View(), runtime.Project();
      HeldJobs(f, job);
      RuntimeFacts(runtime);
      if runtime.executions[job.execution].summary.state == Running {
        var decided := runtime.DecideOrchestrationFailure(job.execution, request);
        if decided.Err? { GroupsKeepLog(d, runtime.Project()); }
        r := if decided.Ok? then Ok(decided.value) else Err(Refused(decided.error));
      } else {
        r := Err(NotRunning(job.execution));
      }
      RuntimeFacts(runtime);
      if r.Err? { NothingDone(f, job); } else { DecidedWithin(f, runtime.Project().board, job); }
      ActKeepsOrder(f, runtime.Project().board, job);
      obstructed := obstructed + ObstructedTrees(runtime.Project().board);
      assert phases[job := Driving] == phases;
      StepKeepsTrees(f, View(), DecideJob(job), before);
    }

    static lemma DecidedWithin(f: Floor, c: Board, job: Job)
      requires RootOf(f.board, job.execution) == job.group && Swept(f.board, c, RootOf(f.board, job.execution)) && Spares(f.board, c, {})
      requires BoardInv(c) && OneSessionPerTree(c) && Awaiting(c)
      ensures Acts(f, c, job) && DecidesOnly(f.board, c)
    {
      hide RootOf, Spares, Evolves, OnlyInTree, CreatesAgents, AgentsKept, LiveStatesKept, BoardInv, OneSessionPerTree, Awaiting;
    }

    static lemma GroupsKeepLog(d: Durable, e: Durable)
      requires OnlyGroups(d, e)
      ensures LogCurrent(d) ==> LogCurrent(e)
    {
    }

    static lemma DoneWithin(f: Floor, c: Board, job: Job)
      requires RootOf(f.board, job.execution) == job.group && Within(f.board, c, RootOf(f.board, job.execution))
      requires BoardInv(c) && OneSessionPerTree(c) && Awaiting(c)
      ensures Acts(f, c, job)
    {
      hide RootOf, Within;
    }

    /**
     A driven execution that was given the tool starts an orchestration, as
     long as it runs; otherwise nothing changes.  Roots hold what their
     orchestrations start.
     */
    method StartOrchestration(job: Job, callable: CallableId, objective: string) returns (r: Result<ExecutionSummary, HostError>)
      requires Valid() && job in phases && phases[job].Driving?
      requires runtime.IsRoot(job.execution) || runtime.HoldsNodesOf(job.execution, callable)
      modifies this`obstructed, runtime
      ensures Valid()
      ensures r.Ok? <==>
        && InState(old(runtime.Project()).board, job.execution, Running) && old(runtime.StartProvisioned(job.execution)) && !IsBlank(objective)
        && old(runtime.Offers(job.execution, callable)) && StartAllowed(old(runtime.Project()), job.execution, callable, true)
      ensures old(runtime.IsRoot(job.execution)) ==>
        (r.Ok? <==>
           InState(old(runtime.Project()).board, job.execution, Running) && !IsBlank(objective) && old(runtime.Offers(job.execution, callable)))
      ensures InState(old(runtime.Project()).board, job.execution, Running) && !old(runtime.StartProvisioned(job.execution)) ==>
        r == Err(NotProvisioned(job.execution))
      ensures r.Err? ==> View() == old(View())
      ensures r.Ok? ==> Happens(old(View()), View(), PlanJob(job, r.value.id))
      ensures r.Ok? ==> InState(runtime.Project().board, r.value.id, Running) && IsChild(runtime.Project().board, job.execution, r.value.id)
      ensures r.Ok? ==> IsOrchestration(runtime.Project().board, r.value.id) && runtime.FirstNodesRun(r.value.id)
      ensures r.Ok? ==>
        runtime.executions[r.value.id].summary == r.value && r.value.callable == Some(callable)
        && runtime.executions[r.value.id].payload == OrchestrationPayload(objective)
      ensures SameSetting()
    {
      hide ConductorRuntime.Live, ConductorRuntime.Healthy, Calm, LogCurrent, Queue.Valid, Orderly, Acts, RootOf, Within, BoardInv, Awaiting,
        OneSessionPerTree, ConductorRuntime.HoldsNodesOf, ConductorRuntime.FirstNodesRun, IsBlank, StartAllowed, ConductorRuntime.Offers,
        ConductorRuntime.StartProvisioned, Owned, Clear, StartReserved, AddsPlan;
      KnownJob(job);
      ghost var f := View();
      HeldJobs(f, job);
      RuntimeFacts(runtime);
      if runtime.IsRoot(job.execution) { runtime.RootMayPlan(job.execution, callable); }
      if runtime.executions[job.execution].summary.state != Running {
        return Err(NotRunning(job.execution));
      }
      if !runtime.StartProvisioned(job.execution) {
        return Err(NotProvisioned(job.execution));
      }
      if IsBlank(objective) {
        return Err(InvalidArguments);
      }
      if StartReserved(runtime.configurations) { runtime.ReservedForRoots(job.execution); }
      var started := runtime.StartOrchestration(job.execution, callable, objective);
      if started.Err? {
        return Err(Refused(started.error));
      }
      r := Ok(started.value);
      RuntimeFacts(runtime);
      DoneWithin(f, runtime.Project().board, job);
      ActKeepsOrder(f, runtime.Project().board, job);
      obstructed := obstructed + ObstructedTrees(runtime.Project().board);
      assert phases[job := Driving] == phases;
      StepKeepsTrees(f, View(), PlanJob(job, r.value.id), before);
    }

    /**
     What became of a driven job: if its execution still runs, it completes,
     or fails with an error event; if it ended meanwhile, that stands.
     */
    method Finish(job: Job, outcome: Result<(), string>)
      requires Valid() && job in phases && phases[job].Driving?
      modifies this`phases, this`obstructed, runtime
      ensures Valid() && phases == old(phases)[job := Driven]
      ensures InState(old(runtime.Project()).board, job.execution, Running) ==>
        InState(runtime.Project().board, job.execution, if outcome.Ok? then Completed else Failed)
      ensures !InState(old(runtime.Project()).board, job.execution, Running) ==> runtime.Project() == old(runtime.Project())
      ensures outcome.Err? && InState(old(runtime.Project()).board, job.execution, Running) ==>
        RaisesError(old(runtime.Project()), runtime.Project(), job.execution, outcome.error)
      ensures outcome.Ok? && InState(old(runtime.Project()).board, job.execution, Running) && Unawaited(old(runtime.Project()).board, job.execution) ==>
        runtime.Project().board == WithState(old(runtime.Project()).board, job.execution, Completed)
      ensures Happens(old(View()), View(), EndJob(job)) && SameSetting()
    {
      hide Unawaited, WithState, RaisesError, Explains;
      hide ConductorRuntime.Live, ConductorRuntime.Healthy, Calm, LogCurrent, Queue.Valid, Orderly, Acts, RootOf, Cascades, BoardInv, SettledWithin,
        Owned, Clear, StartReserved, EndsWith, SparesOthers;
      KnownJob(job);
      ghost var f := View();
      HeldJobs(f, job);
      ghost var p := runtime.Project();
      if runtime.executions[job.execution].summary.state == Running {
        if outcome.Err? { var _ := runtime.PushEvent(job.execution, ErrorRaised("backend", outcome.error)); }
        ghost var d := runtime.Project();
        BusyOutsideIsCalm(d.board, runtime.catalog, job.execution);
        var finished := runtime.FinishDrive(job.execution, outcome.Ok?);
        RuntimeFacts(runtime);
        if outcome.Err? { ErrorRaisedFirst(p, d, runtime.Project(), job.execution, outcome.error); }
        DrivenWithin(f, d, runtime.Project(), job);
      } else {
        DrivingHasStarted(f, job);
      }
      EndKeepsOrder(f, runtime.Project().board, job);
      phases, obstructed := phases[job := Driven], obstructed + ObstructedTrees(runtime.Project().board);
      StepKeepsTrees(f, View(), EndJob(job), before);
    }

    static lemma ErrorRaisedFirst(p: Durable, d: Durable, e: Durable, x: ExecutionId, message: string)
      requires x in p.board.executions && d == Pushed(p, x, ErrorRaised("backend", message)) && Explains(d, e, map[], {x})
      ensures RaisesError(p, e, x, message)
    {
      ErrorIsReason(p, d, e, x, "backend", message, {x});
    }

    static lemma DrivenWithin(f: Floor, d: Durable, e: Durable, job: Job)
      requires d.board == f.board && RootOf(d.board, job.execution) == job.group && Cascades(d, e, RootOf(d.board, job.execution))
      requires BoardInv(e.board) && OneSessionPerTree(e.board) && Awaiting(e.board) && SparesOthers(d.board, e.board, job.execution)
      requires InState(e.board, job.execution, Completed) || forall y :: ProperDescendant(e.board, job.execution, y) ==> !IsLive(e.board, y)
      ensures Acts(f, e.board, job) && e.sessions == d.sessions && EndsWith(f.board, e.board, job.execution)
    {
      CascadeIsWithin(d, e, RootOf(d.board, job.execution));
      CascadeCreatesAgents(d, e, RootOf(d.board, job.execution));
      hide RootOf, Cascades, Within, SparesOthers, CreatesAgents;
    }

    /** A driving job whose execution does not run has ended. */
    static lemma DrivingHasStarted(f: Floor, job: Job)
      requires Orderly(f) && job in f.inFlight && f.phases[job].Driving? && !InState(f.board, job.execution, Running)
      ensures Acts(f, f.board, job) && !IsLive(f.board, job.execution) && EndsWith(f.board, f.board, job.execution)
    {
      EvolvesReflexive(f.board);
    }

    /** A job that cannot be driven fails at once, unless its execution has ended. */
    method Fail(job: Job, message: string)
      requires Valid() && job in phases && phases[job].Taken?
      modifies this`phases, this`obstructed, runtime
      ensures Valid() && phases == old(phases)[job := Driven]
      ensures IsLive(old(runtime.Project()).board, job.execution) ==> InState(runtime.Project().board, job.execution, Failed)
      ensures !IsLive(old(runtime.Project()).board, job.execution) ==> runtime.Project() == old(runtime.Project())
      ensures IsLive(old(runtime.Project()).board, job.execution) ==>
        RaisesError(old(runtime.Project()), runtime.Project(), job.execution, message)
      ensures Happens(old(View()), View(), EndJob(job))
    {
      hide RaisesError, Explains;
      hide ConductorRuntime.Live, ConductorRuntime.Healthy, Calm, LogCurrent, Queue.Valid, Orderly, Acts, RootOf, Cascades, BoardInv, SettledWithin,
        Owned, Clear, StartReserved, EndsWith, SparesOthers;
      KnownJob(job);
      ghost var f := View();
      HeldJobs(f, job);
      if IsTerminal(runtime.executions[job.execution].summary.state) {
        NothingDone(f, job);
      } else {
        ghost var p := runtime.Project();
        var _ := runtime.PushEvent(job.execution, ErrorRaised("backend", message));
        ghost var d := runtime.Project();
        BusyOutsideIsCalm(d.board, runtime.catalog, job.execution);
        var failed := runtime.FinishDrive(job.execution, false);
        RuntimeFacts(runtime);
        ErrorRaisedFirst(p, d, runtime.Project(), job.execution, message);
        DrivenWithin(f, d, runtime.Project(), job);
      }
      EndKeepsOrder(f, runtime.Project().board, job);
      phases, obstructed := phases[job := Driven], obstructed + ObstructedTrees(runtime.Project().board);
      StepKeepsTrees(f, View(), EndJob(job), before);
    }

    static lemma NothingDone(f: Floor, job: Job)
      requires Orderly(f)
      ensures Acts(f, f.board, job) && DecidesOnly(f.board, f.board)
      ensures !IsLive(f.board, job.execution) ==> EndsWith(f.board, f.board, job.execution)
    {
      EvolvesReflexive(f.board);
    }

    /** A worker lists exactly what can start in the tree of its job. */
    method List(job: Job) returns (jobs: seq<Job>)
      requires Valid() && job in phases && phases[job].Driven?
      modifies this`phases
      ensures Valid() && phases == old(phases)[job := Listed(jobs)] && Lists(runtime.Project().board, job.group, jobs)
      ensures Happens(old(View()), View(), GoOn(job, Listed(jobs)))
    {
      hide ConductorRuntime.Live, ConductorRuntime.Healthy, ConductorRuntime.AtRest, Queue.Valid, Orderly, Blocked, Pictures, Lineage, Sequenced,
        BoardInv, DurableInv, LiveInv, NodesApart, RootOf, Runnable, JobOf, Remembers, Owned, Clear, StartReserved;
      KnownJob(job);
      ghost var f := View();
      HeldJobs(f, job);
      runtime.LiveFacts();
      var executions := SnapshotExecutions(runtime.executions, f.board);
      jobs := PendingExecutionJobs(executions, f.board, job.group);
      DrivenIsSpent(f, job);
      ListIsComplete(f, job, jobs);
      PhaseKeepsOrder(f, job, Listed(jobs));
      phases := phases[job := Listed(jobs)];
      StepKeepsTrees(f, View(), GoOn(job, Listed(jobs)), before);
    }

    /** It schedules the next job of its list, whatever has become of that job meanwhile. */
    method QueueNext(job: Job)
      requires Valid() && job in phases && phases[job].Listed? && phases[job].jobs != []
      modifies this`phases, queue`scheduled, queue`pending
      ensures Valid() && View() == old(AfterListed(View(), job)) && Happens(old(View()), View(), QueueJob(job))
    {
      hide ConductorRuntime.Live, ConductorRuntime.Healthy, ConductorRuntime.AtRest, Orderly, RootOf, Owned, Clear, StartReserved;
      ghost var f := View();
      HeldJobs(f, job);
      ListedKeepsOrder(f, job);
      var jobs := phases[job].jobs;
      queue.Enqueue(jobs[0]);
      phases := phases[job := Listed(jobs[1..])];
      StepKeepsTrees(f, View(), QueueJob(job), before);
    }

    /** It is done with its list. */
    method EndList(job: Job)
      requires Valid() && job in phases && phases[job] == Listed([])
      modifies this`phases
      ensures Valid() && phases == old(phases)[job := Fed] && Happens(old(View()), View(), GoOn(job, Fed))
    {
      hide ConductorRuntime.Live, ConductorRuntime.Healthy, ConductorRuntime.AtRest, Queue.Valid, Orderly, RootOf, CanStart, Owned, Clear,
        StartReserved;
      ghost var f := View();
      HeldJobs(f, job);
      DrivenIsSpent(f, job);
      PhaseKeepsOrder(f, job, Fed);
      phases := phases[job := Fed];
      StepKeepsTrees(f, View(), GoOn(job, Fed), before);
    }

    /** Undisturbed, a worker schedules whatever its job made ready and nothing else. */
    method Feed(job: Job)
      requires Valid() && job in phases && phases[job].Driven?
      modifies this`phases, queue`scheduled, queue`pending
      ensures Valid() && phases == old(phases)[job := Fed]
      ensures forall x :: x in queue.scheduled <==> x in old(queue.scheduled) || Runnable(runtime.Project().board, job.group, x)
      ensures old(queue.pending) <= queue.pending
      ensures forall i :: |old(queue.pending)| <= i < |queue.pending| ==> JobOf(runtime.Project().board, job.group, queue.pending[i])
    {
      hide Valid, Runnable, JobOf, Lists, Happens;
      var jobs := List(job);
      ListedIds(runtime.Project().board, job.group, jobs);
      for i := 0 to |jobs|
        invariant Valid() && phases == old(phases)[job := Listed(jobs[i..])]
        invariant forall x :: x in queue.scheduled <==> x in old(queue.scheduled) || x in PendingIds(jobs[..i])
        invariant old(queue.pending) <= queue.pending
        invariant forall k :: |old(queue.pending)| <= k < |queue.pending| ==> JobOf(runtime.Project().board, job.group, queue.pending[k])
      {
        EnqueuedIds(jobs[..i], jobs[i]);
        assert jobs[..i + 1] == jobs[..i] + [jobs[i]] && jobs[i..][1..] == jobs[i + 1..];
        assert jobs[i] in jobs;
        QueueNext(job);
      }
      assert jobs[..|jobs|] == jobs;
      EndList(job);
    }

    static lemma ListedIds(b: Board, group: ExecutionId, jobs: seq<Job>)
      requires Lists(b, group, jobs)
      ensures forall k :: k in jobs ==> JobOf(b, group, k)
      ensures forall x :: Runnable(b, group, x) <==> x in PendingIds(jobs)
      ensures PendingIds(jobs[..0]) == {}
    {
      hide Runnable;
      assert forall i :: 0 <= i < |jobs| ==> jobs[i] in jobs;
    }

    /** A worker looks whether its tree has come to rest. */
    method Check(job: Job)
      requires Valid() && job in phases && phases[job].Fed?
      modifies this`phases
      ensures Valid() && phases == old(phases)[job := Checked(Quiescent(runtime.Project().board, job.group))]
      ensures Happens(old(View()), View(), GoOn(job, Checked(Quiescent(runtime.Project().board, job.group))))
    {
      hide ConductorRuntime.Live, ConductorRuntime.Healthy, ConductorRuntime.AtRest, Queue.Valid, Orderly, Blocked, Pictures, Lineage, Sequenced,
        BoardInv, DurableInv, LiveInv, NodesApart, RootOf, Quiescent, Owned, Clear, StartReserved;
      KnownJob(job);
      ghost var f := View();
      HeldJobs(f, job);
      runtime.LiveFacts();
      var executions := SnapshotExecutions(runtime.executions, f.board);
      var quiescent := ExecutionGroupQuiescent(executions, f.board, job.group);
      DrivenIsSpent(f, job);
      PhaseKeepsOrder(f, job, Checked(quiescent));
      phases := phases[job := Checked(quiescent)];
      StepKeepsTrees(f, View(), GoOn(job, Checked(quiescent)), before);
    }

    /** A worker hands its job back, which may free the session of its tree. */
    method HandBack(job: Job) returns (released: bool)
      requires Valid() && job in phases && phases[job].Checked?
      modifies this`phases, queue`activeSessions, queue`activeGroups, queue`releasingGroups, queue`inFlight, queue`completed
      ensures Valid() && phases == old(phases) - {job}
      ensures released <==> old(Releases(View(), job, phases[job].release))
      ensures View() == old(AfterHandBack(View(), job, phases[job].release, Releases(View(), job, phases[job].release)))
      ensures Happens(old(View()), View(), HandBackJob(job))
    {
      hide ConductorRuntime.Live, ConductorRuntime.Healthy, ConductorRuntime.AtRest, Orderly, RootOf, InGroup, HasPending, Owned, Clear,
        StartReserved;
      KnownJob(job);
      ghost var f := View();
      var release := phases[job].release;
      HandBackKeepsOrder(f, job, release);
      released := queue.Complete(job, release);
      phases := phases - {job};
      StepKeepsTrees(f, View(), HandBackJob(job), before);
    }

    /** The reader opens a tree for a callable; it will feed it next. */
    method StartCallable(session: SessionId, callable: CallableId, objective: string) returns (r: Result<ExecutionSummary, ConductorError>)
      requires Valid()
      modifies this`submitted, this`obstructed, runtime
      ensures Valid()
      ensures r.Ok? <==> !IsBlank(objective) && old(runtime.SessionOffers(session, callable))
      ensures r.Err? ==> View() == old(View())
      ensures r.Ok? ==> submitted == old(submitted) + {r.value.id} && Happens(old(View()), View(), OpenTree(r.value.id))
      ensures r.Ok? ==> r.value.id > before && r.value.id in runtime.executions && runtime.executions[r.value.id].summary == r.value
      ensures r.Ok? ==>
        && r.value.session == session && r.value.callable == Some(callable) && r.value.parent.None?
        && r.value.kind == old(runtime.OfferedKind(session, callable))
        && r.value.state == if r.value.kind.Orchestration? then Running else Pending
      ensures r.Ok? && r.value.kind.Orchestration? ==> runtime.FirstNodesRun(r.value.id)
      ensures r.Ok? ==>
        runtime.executions[r.value.id].payload ==
          if r.value.kind.Orchestration? then OrchestrationPayload(objective) else InvocationPayload(Text(objective))
      ensures r.Ok? ==> OnlyChildrenOf(old(runtime.Project()).board, runtime.Project().board, r.value.id)
      ensures r.Ok? ==> runtime.PinnedTo(r.value.id, old(runtime.sessions), session)
      ensures SameSetting()
    {
      hide ConductorRuntime.Live, ConductorRuntime.Healthy, Calm, LogCurrent, Queue.Valid, Orderly, RootOf, BoardInv, OpensTree, OneSessionPerTree,
        Awaiting, IsBlank, ConductorRuntime.FirstNodesRun, OnlyChildrenOf, ConductorRuntime.SessionOffers, Owned, Clear, StartReserved;
      ghost var f := View();
      OwnedIsOlder(f, before);
      RuntimeFacts(runtime);
      r := runtime.StartSessionCallable(session, callable, objective);
      if r.Ok? {
        RuntimeFacts(runtime);
        OpenKeepsOrder(f, runtime.Project().board, r.value.id);
        submitted, obstructed := submitted + {r.value.id}, obstructed + ObstructedTrees(runtime.Project().board);
        StepKeepsTrees(f, View(), OpenTree(r.value.id), before);
      }
    }

    /** The reader opens a tree for a user's text; it will feed it next. */
    method Submit(session: SessionId, text: string) returns (r: Result<ExecutionSummary, ConductorError>)
      requires Valid()
      modifies this`submitted, this`obstructed, runtime
      ensures Valid()
      ensures r.Ok? ==> submitted == old(submitted) + {r.value.id} && Happens(old(View()), View(), OpenTree(r.value.id))
      ensures r.Ok? ==> r.value.id > before
      ensures r.Ok? <==>
        !IsBlank(text) && OpenSession(old(runtime.Project()), session)
        && old(runtime.sessions)[session].configRevision in old(runtime.configurations)
      ensures r.Ok? ==>
        r.value == ExecutionSummary(old(runtime.nextExecution) + 1, session, None, Root, None, old(runtime.sessions)[session].defaultTarget, Pending)
        && Granted(old(runtime.Project()), runtime.configurations, runtime.Project(), r.value)
        && GivesInput(old(runtime.Project()), r.value, JournalInvocation(Text(text), ExecutionAuthority.READ_ONLY),
                      runtime.Project().board.executions[r.value.id].payload)
      ensures r.Err? ==> View() == old(View())
    {
      hide ConductorRuntime.Live, ConductorRuntime.Healthy, ConductorRuntime.AtRest, Queue.Valid, Orderly, RootOf, BoardInv, OpensTree,
        OneSessionPerTree, Awaiting, RootOpened, IsBlank, Owned, Clear, StartReserved, OnlyChildrenOf, GivesInput, Entrusts, EffectiveAuthority;
      ghost var f, d := View(), runtime.Project();
      OwnedIsOlder(f, before);
      RuntimeFacts(runtime);
      r := runtime.Submit(session, text);
      if r.Ok? {
        SubmissionOpensTree(d, runtime.Project(), runtime.catalog, r.value, text);
        RuntimeFacts(runtime);
        OpenKeepsOrder(f, runtime.Project().board, r.value.id);
        submitted, obstructed := submitted + {r.value.id}, obstructed + ObstructedTrees(runtime.Project().board);
        StepKeepsTrees(f, View(), OpenTree(r.value.id), before);
      }
    }

    static lemma SubmissionOpensTree(d: Durable, e: Durable, catalog: Catalog, x: ExecutionSummary, text: string)
      requires BoardInv(d.board) && x.id == d.board.nextExecution + 1 && x.parent.None? && x.state.Pending?
      requires exists record: ExecutionRecord :: RootOpened(d, e, x, JournalInvocation(Text(text), ExecutionAuthority.READ_ONLY), text, record)
      ensures OpensTree(d.board, e.board, x.id) && OnlyChildrenOf(d.board, e.board, x.id)
    {
      var record: ExecutionRecord :| RootOpened(d, e, x, JournalInvocation(Text(text), ExecutionAuthority.READ_ONLY), text, record);
      RootOpenedFacts(d, e, catalog, x, JournalInvocation(Text(text), ExecutionAuthority.READ_ONLY), text, record);
      BoardFacts(d.board);
      RootOpensTree(d.board, record);
    }

    /** The reader schedules what can start in a tree it has opened. */
    method FeedSubmitted(group: ExecutionId)
      requires Valid()
      modifies this`submitted, queue`scheduled, queue`pending
      ensures Valid() && submitted == old(submitted) - {group}
      ensures Happens(old(View()), View(), FeedOpened(group))
      ensures forall x :: Runnable(runtime.Project().board, group, x) ==> x in queue.scheduled
    {
      hide ConductorRuntime.Live, ConductorRuntime.Healthy, ConductorRuntime.AtRest, Orderly, RootOf, Runnable, Owned, Clear, StartReserved;
      ghost var f := View();
      ScheduleGroup(runtime, queue, group);
      FeedKeepsOrder(f, queue.scheduled, queue.pending, group);
      submitted := submitted - {group};
      StepKeepsTrees(f, View(), FeedOpened(group), before);
    }

    /** The reader cancels an execution and what is below it; no worker is disturbed. */
    method Cancel(x: ExecutionId) returns (r: Result<(), ConductorError>)
      requires Valid()
      modifies this`obstructed, runtime
      ensures Valid()
      ensures r.Ok? <==> x in old(runtime.executions)
      ensures r.Ok? ==> forall y :: InSubtree(runtime.Project().board, x, y) ==> !IsLive(runtime.Project().board, y)
      ensures r.Ok? ==> Happens(old(View()), View(), CancelBranch(x))
      ensures r.Ok? ==> Spares(old(runtime.Project()).board, runtime.Project().board, {x} + Below(old(runtime.Project()).board, x))
      ensures Explains(old(runtime.Project()), runtime.Project(),
                       Given({x} + Below(old(runtime.Project()).board, x), ExplicitCancellation(x)), {})
      ensures r.Err? ==> View() == old(View())
      ensures SameSetting()
    {
      hide ConductorRuntime.Live, ConductorRuntime.Healthy, Queue.Valid, Orderly, RootOf, BoardInv, OneSessionPerTree, Awaiting, Cascades, Calm,
        LogCurrent, StartsNothing, SettledWithin, InSubtree, IsLive, Spares, Below, Owned, Clear, StartReserved, CutsOff, Explains, Given;
      ghost var f, d := View(), runtime.Project();
      BusyOutsideIsCalm(d.board, runtime.catalog, x);
      r := runtime.CancelExecution(x);
      if r.Ok? {
        LogKept(d, runtime.Project(), RootOf(d.board, x));
        RuntimeFacts(runtime);
        Cancelled(f, d, runtime.Project(), x);
        obstructed := obstructed + ObstructedTrees(runtime.Project().board);
        StepKeepsTrees(f, View(), CancelBranch(x), before);
      }
    }

    static lemma LogKept(d: Durable, e: Durable, root: ExecutionId)
      requires Cascades(d, e, root)
      ensures (LogCurrent(d) ==> LogCurrent(e)) && e.sessions == d.sessions
    {
    }

    static lemma Cancelled(f: Floor, d: Durable, e: Durable, x: ExecutionId)
      requires Orderly(f) && d.board == f.board && Cascades(d, e, RootOf(d.board, x)) && StartsNothing(d.board, e.board)
      requires BoardInv(e.board) && OneSessionPerTree(e.board) && Awaiting(e.board)
      requires Spares(d.board, e.board, {x} + Below(d.board, x)) && forall y :: InSubtree(e.board, x, y) ==> !IsLive(e.board, y)
      ensures Orderly(OnBoard(f, e.board)) && Happens(f, OnBoard(f, e.board), CancelBranch(x))
    {
      hide Orderly, Spares, Below, InSubtree, IsLive, RootOf;
      CancelKeepsOrder(f, e.board, RootOf(d.board, x));
    }

    /** A worker drives its job if it may. */
    method Drive(job: Job, outcome: Result<(), string>)
      requires Valid() && job in phases && phases[job].Taken?
      modifies this`phases, this`obstructed, runtime
      ensures Valid() && phases == old(phases)[job := Driven]
      ensures CanStart(old(runtime.Project()).board, job.execution) ==>
        InState(runtime.Project().board, job.execution, if outcome.Ok? then Completed else Failed)
    {
      hide Valid, Blocked, Moved;
      assert job.execution in runtime.executions by { KnownJob(job); }
      var go := Look(job);
      if go {
        ghost var d := runtime.Project();
        Begin(job);
        MovedBoard(d, job.execution);
        Finish(job, outcome);
      }
    }

    /**
     A worker feeds its tree, looks whether it has come to rest and hands its
     job back.  If it was the last job of the tree, the session is freed
     exactly when the tree has come to rest or was seen at rest before, and is
     stuck otherwise.
     */
    method Return(job: Job) returns (released: bool)
      requires Valid() && job in phases && phases[job].Driven?
      modifies this`phases, queue
      ensures Valid() && phases == old(phases) - {job}
      ensures queue.inFlight == old(queue.inFlight) - {job} && job in queue.completed
      ensures released ==> job.session !in queue.activeSessions
      ensures !released ==> queue.activeSessions == old(queue.activeSessions)
      ensures released <==>
        && InGroup(queue.inFlight, job.group) == {} && !HasPending(queue.pending, job.group)
        && (Quiescent(runtime.Project().board, job.group) || job.group in old(queue.releasingGroups))
      ensures !released && InGroup(queue.inFlight, job.group) == {} && !HasPending(queue.pending, job.group) ==> Stuck(View(), job.session)
      ensures queue.releasingGroups ==
        old(queue.releasingGroups) + (if Quiescent(runtime.Project().board, job.group) then {job.group} else {}) - (if released then {job.group} else {})
      ensures old(queue.pending) <= queue.pending
      ensures forall i :: |old(queue.pending)| <= i < |queue.pending| ==> JobOf(runtime.Project().board, job.group, queue.pending[i])
      ensures forall x :: Runnable(runtime.Project().board, job.group, x) ==> x in queue.scheduled
    {
      hide Runnable, Quiescent, InGroup, HasPending, ConductorRuntime.Live, ConductorRuntime.Healthy, ConductorRuntime.AtRest, Queue.Valid, Orderly,
        Stuck, JobOf, Conserved;
      Feed(job);
      Check(job);
      ghost var f := View();
      HeldExactly(f);
      if InGroup(f.inFlight - {job}, job.group) == {} && !HasPending(f.pending, job.group) { LastJobFreesOrSticks(f, job); }
      released := HandBack(job);
    }

    /** One round of a worker that finds a job: it drives, feeds, looks and hands back. */
    method RunJob(backend: Job -> Result<(), string>) returns (job: Option<Job>, released: bool)
      requires Valid()
      modifies this`phases, this`obstructed, runtime, queue
      ensures Valid() && phases == old(phases) && submitted == old(submitted)
      ensures job.Some? ==>
        && job.value in old(queue.pending) && job.value in queue.completed && queue.inFlight == old(queue.inFlight)
        && (CanStart(old(runtime.Project()).board, job.value.execution) ==>
              InState(runtime.Project().board, job.value.execution, if backend(job.value).Ok? then Completed else Failed))
        && (forall x :: Runnable(runtime.Project().board, job.value.group, x) ==> x in queue.scheduled)
        && (released ==> job.value.session !in queue.activeSessions)
      ensures job.None? ==> View() == old(View()) && !released
    {
      hide Valid, Runnable, CanStart;
      job := Take();
      released := false;
      if job.Some? {
        Drive(job.value, backend(job.value));
        released := Return(job.value);
        assert phases == old(phases) && queue.inFlight == old(queue.inFlight);
      }
    }

    /**
     Whatever the workers and the reader are doing, as long as no configuration
     registers a tool under the id of the one that starts orchestrations: every
     session with jobs pending goes on, for some worker holds a job of it or
     may take one, no session is held by a tree without jobs, and every tree
     that was opened is done once it has no jobs.
     */
    lemma WorkersNeverStall()
      requires Valid() && StartReserved(runtime.configurations)
      ensures forall i :: 0 <= i < |queue.pending| ==> IsWorkedOn(View(), queue.pending[i].session) || IsOpenTo(View(), queue.pending[i].session)
      ensures forall s :: s in queue.activeSessions ==> !IsIdle(View(), queue.activeSessions[s])
      ensures forall g: ExecutionId :: g > before && IsIdle(View(), g) ==> IsDone(View(), g)
    {
      hide ConductorRuntime.Live, ConductorRuntime.Healthy, ConductorRuntime.AtRest, Queue.Valid, Orderly, Owned, Clear, StartReserved, IsIdle,
        IsWorkedOn, IsOpenTo, IsDone;
      ClearNeverStalls(View(), before);
      forall s | s in queue.activeSessions ensures !IsIdle(View(), queue.activeSessions[s]) { assert !Stuck(View(), s); }
    }

    /**
     Whatever is configured, the only sessions that do not go on are those that
     are stuck, and only trees that were obstructed hold such sessions; a tree
     without jobs that was never obstructed is done.
     */
    lemma OnlyObstructedTreesStall()
      requires Valid()
      ensures forall i :: 0 <= i < |queue.pending| ==>
        var s := queue.pending[i].session;
        IsWorkedOn(View(), s) || IsOpenTo(View(), s) <==> !Stuck(View(), s)
      ensures forall s :: Stuck(View(), s) ==> s in queue.activeSessions && queue.activeSessions[s] in obstructed
      ensures forall g :: IsIdle(View(), g) && g !in obstructed ==> IsDone(View(), g)
    {
      hide ConductorRuntime.Live, ConductorRuntime.Healthy, ConductorRuntime.AtRest, Queue.Valid, Orderly, IsIdle, IsWorkedOn, IsOpenTo, Stuck,
        RootOf, Blocked, Owned, Clear, StartReserved;
      var f := View();
      forall i: nat | i < |f.pending|
        ensures IsWorkedOn(f, f.pending[i].session) || IsOpenTo(f, f.pending[i].session) <==> !Stuck(f, f.pending[i].session)
      {
        SessionGoesOnUnlessStuck(f, i);
      }
      forall s | Stuck(f, s) ensures s in f.activeSessions && f.activeSessions[s] in f.obstructed { StuckStandsStill(f, s); }
      forall g | IsIdle(f, g) && g !in f.obstructed ensures IsDone(f, g) { IdleTreeIsDone(f, g); }
    }
  }
}
