/**
 Why sessions go on in the server: only top-level executions start
 orchestrations of their own, so none is ever left below something that was
 stopped, and no session is kept by a tree without jobs.
 */
module Sheltering {
  import opened PhenixCore
  import opened Records
  import opened Journal
  import opened BoardInvariants
  import opened ExecutionTree
  import opened Settling
  import opened Cascade
  import opened Opening
  import opened ExecutionQueue
  import opened ExecutionGroups
  import opened WorkerInvariants
  import opened WorkerRuns

  /** The live orchestration `o` is under `p`, which is top-level, no orchestration, and was not stopped. */
  ghost predicate Shelters(b: Board, p: ExecutionId, o: ExecutionId) {
    && p in b.executions && !IsOrchestration(b, p) && b.executions[p].summary.parent.None?
    && (IsLive(b, o) ==> !StopsDescendants(b.executions[p].summary.state))
  }

  /** Every orchestration of a tree younger than `t` is top-level or sheltered by a top-level execution. */
  ghost predicate Sheltered(b: Board, t: nat) {
    forall o, p :: IsOrchestration(b, o) && IsChild(b, p, o) && RootOf(b, o) > t ==> Shelters(b, p, o)
  }

  /** Whatever can start, has a job or holds a session belongs to a tree younger than `t`. */
  ghost predicate Owned(f: Floor, t: nat) {
    && t <= f.board.nextExecution
    && (forall x :: CanStart(f.board, x) ==> RootOf(f.board, x) > t)
    && (forall j :: j in f.pending ==> j.group > t)
    && (forall j :: j in f.inFlight ==> j.group > t)
    && (forall s :: s in f.activeSessions ==> f.activeSessions[s] > t)
  }

  /** No tree younger than `t` was ever obstructed. */
  ghost predicate Clear(f: Floor, t: nat) {
    Sheltered(f.board, t) && forall g :: g in f.obstructed ==> g <= t
  }

  /** Sheltered trees are not obstructed. */
  lemma ShelteredIsClear(b: Board, t: nat, g: ExecutionId)
    requires BoardInv(b) && Sheltered(b, t) && g > t
    ensures !Obstructed(b, g)
  {
    BoardFacts(b);
    hide BoardInv, Lineage, Blocked, RootOf;
    forall o | LiveOrchestration(b, o) && RootOf(b, o) == g ensures !Blocked(b, o) {
      BlockedByParent(b, o);
      if b.executions[o].summary.parent.Some? {
        var p := b.executions[o].summary.parent.value;
        assert Shelters(b, p, o);
        BlockedByParent(b, p);
      }
    }
  }

  // ---------------------------------------------------------------------------
  // What the steps do to shelters
  // ---------------------------------------------------------------------------

  /** Where no orchestration is new, what sheltered before shelters unless it was stopped above a live orchestration. */
  lemma StaysSheltered(b: Board, c: Board, t: nat)
    requires Lineage(b) && Evolves(b, c) && Sheltered(b, t)
    requires forall o :: IsOrchestration(c, o) ==> o in b.executions
    requires forall o, p :: LiveOrchestration(c, o) && IsChild(c, p, o) && Shelters(b, p, o) ==> !StopsDescendants(c.executions[p].summary.state)
    ensures Sheltered(c, t)
  {
    forall o, p | IsOrchestration(c, o) && IsChild(c, p, o) && RootOf(c, o) > t ensures Shelters(c, p, o) {
      SubtreeStable(b, c, o, o);
      assert Shelters(b, p, o);
    }
  }

  lemma OnlyOldPlans(b: Board, c: Board)
    requires CreatesAgents(b, c) || (Sequenced(b) && Sequenced(c) && StartsNothing(b, c))
    ensures forall o :: IsOrchestration(c, o) ==> o in b.executions
  {
  }

  lemma DecisionKeepsShelter(b: Board, c: Board, t: nat)
    requires Lineage(b) && Evolves(b, c) && Sheltered(b, t) && DecidesOnly(b, c)
    ensures Sheltered(c, t)
  {
    OnlyOldPlans(b, c);
    forall o, p | LiveOrchestration(c, o) && IsChild(c, p, o) && Shelters(b, p, o) ensures !StopsDescendants(c.executions[p].summary.state) {
      TopIsSpared(b, c, {}, p);
      StillLive(b, c, o);
    }
    StaysSheltered(b, c, t);
  }

  lemma StillLive(b: Board, c: Board, o: ExecutionId)
    requires Evolves(b, c) && o in b.executions && IsLive(c, o)
    ensures IsLive(b, o)
  {
  }

  /** Nothing is above a top-level execution that could take it along. */
  lemma TopIsSpared(b: Board, c: Board, gone: set<ExecutionId>, p: ExecutionId)
    requires Evolves(b, c) && Spares(b, c, gone) && p !in gone
    requires p in b.executions && !IsOrchestration(b, p) && b.executions[p].summary.parent.None?
    ensures StopsDescendants(c.executions[p].summary.state) ==> StopsDescendants(b.executions[p].summary.state)
  {
    assert !BelowFailure(b, c, p);
    hide BelowFailure, Spares;
    assert Spares(b, c, gone);
    if IsLive(b, p) && !IsLive(c, p) { SparedMember(b, c, gone, p); }
  }

  lemma SparedMember(b: Board, c: Board, gone: set<ExecutionId>, p: ExecutionId)
    requires Spares(b, c, gone) && IsLive(b, p) && !IsOrchestration(b, p) && !IsLive(c, p)
    ensures p in gone || BelowFailure(b, c, p)
  {
    hide BelowFailure;
  }

  lemma ChildIsBelow(b: Board, p: ExecutionId, o: ExecutionId)
    requires Lineage(b) && IsChild(b, p, o)
    ensures ProperDescendant(b, p, o)
  {
    assert InSubtree(b, p, p);
  }

  lemma EndKeepsShelter(b: Board, c: Board, x: ExecutionId, t: nat)
    requires Lineage(b) && Lineage(c) && Evolves(b, c) && Sheltered(b, t) && EndsWith(b, c, x)
    ensures Sheltered(c, t)
  {
    OnlyOldPlans(b, c);
    forall o, p | LiveOrchestration(c, o) && IsChild(c, p, o) && Shelters(b, p, o) ensures !StopsDescendants(c.executions[p].summary.state) {
      StillLive(b, c, o);
      ChildIsBelow(c, p, o);
      if p != x { assert !BelowFailure(b, c, p); }
    }
    StaysSheltered(b, c, t);
  }

  lemma CancellationKeepsShelter(b: Board, c: Board, x: ExecutionId, t: nat)
    requires Lineage(b) && Lineage(c) && Sequenced(b) && Sequenced(c) && Evolves(b, c) && StartsNothing(b, c) && Sheltered(b, t) && CutsOff(b, c, x)
    ensures Sheltered(c, t)
  {
    OnlyOldPlans(b, c);
    forall o, p | LiveOrchestration(c, o) && IsChild(c, p, o) && Shelters(b, p, o) ensures !StopsDescendants(c.executions[p].summary.state) {
      StillLive(b, c, o);
      ChildIsBelow(c, p, o);
      if p != x { TopIsSpared(b, c, {x} + Below(b, x), p); }
    }
    StaysSheltered(b, c, t);
  }

  /** A running top-level execution may start orchestrations. */
  lemma PlanKeepsShelter(b: Board, c: Board, x: ExecutionId, plan: ExecutionId, t: nat)
    requires Lineage(b) && Evolves(b, c) && Sheltered(b, t) && AddsPlan(b, c, x, plan)
    requires InState(b, x, Running) && !IsOrchestration(b, x) && b.executions[x].summary.parent.None?
    ensures Sheltered(c, t)
  {
    forall o, p | IsOrchestration(c, o) && IsChild(c, p, o) && RootOf(c, o) > t ensures Shelters(c, p, o) {
      if o in b.executions {
        SubtreeStable(b, c, o, o);
        assert Shelters(b, p, o);
      } else {
        assert o == plan && p == x;
      }
    }
  }

  lemma OpeningKeepsShelter(b: Board, c: Board, x: ExecutionId, t: nat)
    requires Lineage(b) && Lineage(c) && Sheltered(b, t) && OpensTree(b, c, x) && OnlyChildrenOf(b, c, x)
    ensures Sheltered(c, t)
  {
    forall o, p | IsOrchestration(c, o) && IsChild(c, p, o) && RootOf(c, o) > t ensures Shelters(c, p, o) {
      if o in b.executions {
        SubtreeStable(b, c, o, o);
        assert Shelters(b, p, o);
      } else {
        assert o == x;
        RootFacts(c, o);
      }
    }
  }

  lemma BeginningKeepsShelter(b: Board, x: ExecutionId, t: nat)
    requires BoardInv(b) && InState(b, x, Pending) && Sheltered(b, t)
    ensures Sheltered(WithState(b, x, Running), t)
  {
    var c := WithState(b, x, Running);
    StateChangeKeepsSound(b, x, Running);
    BoardFacts(b);
    hide BoardInv, Lineage, RootOf;
    StaysSheltered(b, c, t);
  }

  /** Whether the step starts an orchestration only for a top-level execution. */
  ghost predicate StartedAtTop(f: Floor, step: PoolStep) {
    step.PlanJob? ==> step.job.execution in f.board.executions && f.board.executions[step.job.execution].summary.parent.None?
  }

  /** Steps of the queue leave the board alone. */
  lemma SameBoard(f: Floor, g: Floor, step: PoolStep)
    requires Happens(f, g, step) && (step.TakeJob? || step.GoOn? || step.QueueJob? || step.FeedOpened? || step.HandBackJob?)
    ensures g.board == f.board
  {
    hide Scheduled, MayGoOn, MayBeTaken, Releases, Without;
  }

  lemma OrderlyBoard(f: Floor)
    requires Orderly(f)
    ensures BoardInv(f.board) && Lineage(f.board) && Sequenced(f.board)
  {
    BoardFacts(f.board);
    hide BoardInv;
  }

  lemma JobInHand(f: Floor, job: Job)
    requires Orderly(f) && job in f.inFlight
    ensures !IsOrchestration(f.board, job.execution)
  {
    JobIsKnown(f, job);
    hide RootOf;
  }

  /** What is done for a job keeps what is sheltered. */
  lemma WorkKeepsShelter(f: Floor, g: Floor, step: PoolStep, t: nat)
    requires Orderly(f) && Orderly(g) && Happens(f, g, step) && StartedAtTop(f, step) && Sheltered(f.board, t)
    requires step.DecideJob? || step.PlanJob? || step.EndJob?
    ensures Sheltered(g.board, t)
  {
    hide Orderly, BoardInv, Sheltered, DecidesOnly, AddsPlan, EndsWith, Lineage, Sequenced, Evolves, Acts, AfterStep;
    OrderlyBoard(f);
    OrderlyBoard(g);
    JobInHand(f, step.job);
    ActsEvolves(f, g.board, step.job);
    match step {
      case DecideJob(job) => DecisionKeepsShelter(f.board, g.board, t);
      case PlanJob(job, plan) => PlanKeepsShelter(f.board, g.board, job.execution, plan, t);
      case EndJob(job) => EndKeepsShelter(f.board, g.board, job.execution, t);
    }
  }

  lemma StepKeepsShelter(f: Floor, g: Floor, step: PoolStep, t: nat)
    requires Orderly(f) && Orderly(g) && Happens(f, g, step) && StartedAtTop(f, step) && Sheltered(f.board, t)
    ensures Sheltered(g.board, t)
  {
    hide Orderly, BoardInv, Awaiting, OneSessionPerTree, Sheltered, DecidesOnly, AddsPlan, EndsWith, CutsOff, OpensTree, OnlyChildrenOf, Lineage,
      Sequenced, RootOf, WithState, Evolves, AgentsKept, OnlyInTree, StartsNothing, Conserved, Runnable, JobOf, MayGoOn, MayBeTaken, Releases,
      CanStart, AfterTake, AfterFeed, AfterHandBack, Scheduled, Acts;
    OrderlyBoard(f);
    OrderlyBoard(g);
    match step {
      case BeginJob(job) => BeginningKeepsShelter(f.board, job.execution, t);
      case OpenTree(root) => OpeningKeepsShelter(f.board, g.board, root, t);
      case CancelBranch(x) => CancellationKeepsShelter(f.board, g.board, x, t);
      case DecideJob(_) => WorkKeepsShelter(f, g, step, t);
      case PlanJob(_, _) => WorkKeepsShelter(f, g, step, t);
      case EndJob(_) => WorkKeepsShelter(f, g, step, t);
      case _ => SameBoard(f, g, step);
    }
  }

  /** Only trees that are obstructed on the new board are newly known as such. */
  lemma NewlyObstructed(f: Floor, g: Floor, step: PoolStep, x: ExecutionId)
    requires Happens(f, g, step) && x in g.obstructed && x !in f.obstructed
    ensures Obstructed(g.board, x)
  {
    hide BoardInv, Awaiting, OneSessionPerTree, DecidesOnly, AddsPlan, EndsWith, CutsOff, OpensTree, OnlyChildrenOf, RootOf, WithState, Acts,
      Evolves, AgentsKept, OnlyInTree, StartsNothing, Scheduled, MayGoOn, MayBeTaken, Releases, CanStart, Obstructed;
  }

  /** While only top-level executions start orchestrations, no tree younger than `t` is obstructed. */
  lemma StepKeepsClear(f: Floor, g: Floor, step: PoolStep, t: nat)
    requires Orderly(f) && Orderly(g) && Happens(f, g, step) && StartedAtTop(f, step) && Clear(f, t)
    ensures Clear(g, t)
  {
    assert BoardInv(g.board);
    hide Orderly, Happens, StartedAtTop, Sheltered, Obstructed, BoardInv;
    StepKeepsShelter(f, g, step, t);
    forall x | x in g.obstructed ensures x <= t {
      if x !in f.obstructed {
        NewlyObstructed(f, g, step, x);
        if x > t { ShelteredIsClear(g.board, t, x); }
      }
    }
  }

  // ---------------------------------------------------------------------------
  // Whose trees the workers work on
  // ---------------------------------------------------------------------------

  lemma OwnedIsOlder(f: Floor, t: nat)
    requires Owned(f, t)
    ensures t <= f.board.nextExecution
  {
  }

  lemma ActingKeepsOwned(f: Floor, g: Floor, job: Job, phase: Phase, t: nat)
    requires BoardInv(f.board) && Acts(f, g.board, job) && job in f.inFlight && g == AfterStep(f, g.board, job, phase) && Owned(f, t)
    ensures Owned(g, t)
  {
    StepStarts(f, g.board, job);
    hide BoardInv, CanStart, RootOf, Awaiting, OneSessionPerTree, OnlyInTree, AgentsKept, ObstructedTrees;
    StartableIsThere(g.board);
  }

  lemma BeginningKeepsOwned(f: Floor, job: Job, t: nat)
    requires BoardInv(f.board) && InState(f.board, job.execution, Pending) && Owned(f, t)
    ensures Owned(Begun(f, job), t)
  {
    BeginStarts(f.board, job.execution);
    hide BoardInv, CanStart, RootOf, ObstructedTrees;
  }

  lemma OpeningKeepsOwned(f: Floor, g: Floor, x: ExecutionId, t: nat)
    requires BoardInv(f.board) && BoardInv(g.board) && Awaiting(g.board) && OpensTree(f.board, g.board, x) && g == Opened(f, g.board, x) && Owned(f, t)
    ensures Owned(g, t)
  {
    BoardFacts(f.board);
    BoardFacts(g.board);
    StartableIsThere(g.board);
    assert forall id :: id in f.board.executions <==> 1 <= id <= f.board.nextExecution;
    hide BoardInv, CanStart, RootOf, Awaiting, AgentsKept, ObstructedTrees, Lineage;
    forall y | CanStart(g.board, y) ensures RootOf(g.board, y) > t {
      if y in f.board.executions {
        CouldStartBefore(f.board, g.board, y);
        SubtreeStable(f.board, g.board, y, y);
      } else {
        RootFacts(g.board, y);
      }
    }
  }

  lemma FeedingKeepsOwned(f: Floor, scheduled: set<ExecutionId>, pending: seq<Job>, group: ExecutionId, t: nat)
    requires Owned(f, t) && Scheduled(f, scheduled, pending, group)
    ensures forall j :: j in pending ==> j.group > t
  {
    hide Conserved, Blocked, RootOf;
    forall j | j in pending ensures j.group > t {
      var i :| 0 <= i < |pending| && pending[i] == j;
      if i < |f.pending| {
        assert f.pending[i] in f.pending;
      } else {
        assert JobOf(f.board, group, pending[i]) && CanStart(f.board, j.execution);
      }
    }
  }

  lemma QueueingKeepsOwned(f: Floor, job: Job, t: nat)
    requires ListingsKnown(f) && Owned(f, t) && job in f.inFlight && job in f.phases && f.phases[job].Listed? && f.phases[job].jobs != []
    ensures Owned(AfterListed(f, job), t)
  {
    assert f.phases[job].jobs[0] in f.phases[job].jobs;
    hide CanStart, RootOf, JobKnown;
  }

  lemma TakingKeepsOwned(f: Floor, index: nat, t: nat)
    requires Owned(f, t) && index < |f.pending|
    ensures Owned(AfterTake(f, index), t)
  {
    WithoutAt(f.pending, index);
    assert f.pending[index] in f.pending;
    hide CanStart, RootOf, Without;
    forall j | j in Without(f.pending, index) ensures j in f.pending { var k :| 0 <= k < |Without(f.pending, index)| && Without(f.pending, index)[k] == j; }
  }

  lemma StepKeepsOwned(f: Floor, g: Floor, step: PoolStep, t: nat)
    requires Orderly(f) && Orderly(g) && Happens(f, g, step) && Owned(f, t)
    ensures Owned(g, t)
  {
    hide BoardInv, Awaiting, OneSessionPerTree, DecidesOnly, AddsPlan, EndsWith, CutsOff, OpensTree, OnlyChildrenOf, Acts, RootOf, WithState,
      AgentsKept, OnlyInTree, StartsNothing, Conserved, MayGoOn, MayBeTaken, Releases, JobsKnown, NothingForgotten, Spent, Watched, HeldForAReason,
      RunningAreDriven, SubmittedAreNew, ObstructionsKnown, SessionsKnown, ObstructedTrees, Exclusive, CanStart, AfterTake, Scheduled, Runnable,
      JobOf, Opened;
    match step {
      case TakeJob(index) => TakingKeepsOwned(f, index, t);
      case BeginJob(job) => BeginningKeepsOwned(f, job, t);
      case DecideJob(job) => ActingKeepsOwned(f, g, job, Driving, t);
      case PlanJob(job, plan) => ActingKeepsOwned(f, g, job, Driving, t);
      case EndJob(job) => ActingKeepsOwned(f, g, job, Driven, t);
      case QueueJob(job) => QueueingKeepsOwned(f, job, t);
      case FeedOpened(group) => FeedingKeepsOwned(f, g.scheduled, g.pending, group, t);
      case OpenTree(root) => OpeningKeepsOwned(f, g, root, t);
      case CancelBranch(x) => CancelStarts(f.board, g.board);
      case HandBackJob(job) =>
      case GoOn(job, phase) =>
    }
  }

  /** What a step keeps of both. */
  lemma StepKeepsTrees(f: Floor, g: Floor, step: PoolStep, t: nat)
    requires Orderly(f) && Orderly(g) && Happens(f, g, step)
    ensures Owned(f, t) ==> Owned(g, t)
    ensures Clear(f, t) && (step.PlanJob? ==> StartedAtTop(f, step)) ==> Clear(g, t)
  {
    assert !step.PlanJob? ==> StartedAtTop(f, step);
    hide Orderly, Happens, Owned, Clear, StartedAtTop;
    if Owned(f, t) { StepKeepsOwned(f, g, step, t); }
    if Clear(f, t) && (step.PlanJob? ==> StartedAtTop(f, step)) { StepKeepsClear(f, g, step, t); }
  }

  // ---------------------------------------------------------------------------
  // Sessions go on
  // ---------------------------------------------------------------------------

  /** A pool that starts with nothing to do. */
  lemma IdleFloorIsClear(f: Floor)
    requires BoardInv(f.board) && f.pending == [] && f.inFlight == {} && f.activeSessions == map[] && f.obstructed == ObstructedTrees(f.board)
    requires forall x :: !CanStart(f.board, x)
    ensures Owned(f, f.board.nextExecution) && Clear(f, f.board.nextExecution)
  {
    BoardFacts(f.board);
    hide BoardInv, Lineage, CanStart, Obstructed, RootOf;
    forall o | o in f.board.executions ensures RootOf(f.board, o) <= f.board.nextExecution { RootFacts(f.board, o); }
  }

  /**
   Every session with jobs pending is worked on or has a job that may be taken,
   no session is held by a tree without jobs, and a tree without jobs that is
   younger than `t` is done.
   */
  ghost predicate NeverStalls(f: Floor, t: nat) {
    && (forall i :: 0 <= i < |f.pending| ==> IsWorkedOn(f, f.pending[i].session) || IsOpenTo(f, f.pending[i].session))
    && (forall s :: !Stuck(f, s))
    && (forall g: ExecutionId :: IsIdle(f, g) && g > t ==> IsDone(f, g))
  }

  lemma ClearNeverStalls(f: Floor, t: nat)
    requires Orderly(f) && Owned(f, t) && Clear(f, t)
    ensures NeverStalls(f, t)
  {
    hide Orderly, IsIdle, IsWorkedOn, IsOpenTo, Stuck, RootOf, Blocked, Sheltered, CanStart;
    forall s ensures !Stuck(f, s) { StuckStandsStill(f, s); }
    forall i: nat | i < |f.pending| ensures IsWorkedOn(f, f.pending[i].session) || IsOpenTo(f, f.pending[i].session) { SessionGoesOnUnlessStuck(f, i); }
    forall g: ExecutionId | IsIdle(f, g) && g > t ensures IsDone(f, g) { IdleTreeIsDone(f, g); }
  }

  /**
   A run of the workers in which only top-level executions start
   orchestrations never stalls, whatever is decided, completes, fails or is
   cancelled in whatever order.
   */
  lemma {:induction false} RunsNeverStall(floors: seq<Floor>, steps: seq<PoolStep>, t: nat, n: nat)
    requires PoolRun(floors, steps) && Orderly(floors[0]) && Owned(floors[0], t) && Clear(floors[0], t) && n <= |steps|
    requires forall i :: 0 <= i < |steps| ==> StartedAtTop(floors[i], steps[i])
    ensures Orderly(floors[n]) && Owned(floors[n], t) && Clear(floors[n], t)
    ensures NeverStalls(floors[n], t)
  {
    hide Orderly, Happens, Owned, Clear, StartedAtTop, NeverStalls;
    RunsKeepOrder(floors, steps, n);
    if n > 0 {
      RunsNeverStall(floors, steps, t, n - 1);
      StepKeepsOwned(floors[n - 1], floors[n], steps[n - 1], t);
      StepKeepsClear(floors[n - 1], floors[n], steps[n - 1], t);
    }
    ClearNeverStalls(floors[n], t);
  }
}
