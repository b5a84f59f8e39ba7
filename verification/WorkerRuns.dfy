/**
 Runs of the server's workers: the steps that workers and the reader may take
 in any order, when a session goes on, and when it stands still for good.
 */
module WorkerRuns {
  import opened PhenixCore
  import opened Records
  import opened Journal
  import opened BoardInvariants
  import opened ExecutionTree
  import opened Settling
  import opened Cascade
  import opened Opening
  import opened ExecutionQueue
  import opened ExecutionGroups
  import opened WorkerInvariants

  // ---------------------------------------------------------------------------
  // Steps
  // ---------------------------------------------------------------------------

  datatype PoolStep =
    | TakeJob(index: nat)
    | GoOn(job: Job, phase: Phase)
    | BeginJob(job: Job)
    | DecideJob(job: Job)
    | PlanJob(job: Job, plan: ExecutionId)
    | EndJob(job: Job)
    | QueueJob(job: Job)
    | FeedOpened(group: ExecutionId)
    | HandBackJob(job: Job)
    | OpenTree(root: ExecutionId)
    | CancelBranch(x: ExecutionId)

  /** The list has exactly what can start in the tree. */
  ghost predicate Lists(b: Board, group: ExecutionId, jobs: seq<Job>) {
    && (forall k :: k in jobs ==> JobOf(b, group, k))
    && (forall x :: Runnable(b, group, x) ==> x in PendingIds(jobs))
  }

  /**
   The job reaches a phase in which nothing of it can start.  By then its
   worker has listed what can start in the tree and scheduled all of it, and a
   tree seen busy is busy.
   */
  ghost predicate MayGoOn(f: Floor, job: Job, phase: Phase) {
    && job in f.inFlight && job in f.phases && !f.phases[job].Driving?
    && Remembers(f, job, phase) && (phase.Listed? ==> Lists(f.board, job.group, phase.jobs))
    && !phase.Taken? && !phase.Driving? && !CanStart(f.board, job.execution)
    && (phase == Checked(false) ==> !Quiescent(f.board, job.group))
  }

  /** Exactly what can start in the tree was added to what is scheduled. */
  ghost predicate Scheduled(f: Floor, scheduled: set<ExecutionId>, pending: seq<Job>, group: ExecutionId) {
    && f.pending <= pending && Conserved(scheduled, pending, f.inFlight, f.completed)
    && (forall id :: id in scheduled <==> id in f.scheduled || Runnable(f.board, group, id))
    && (forall i :: |f.pending| <= i < |pending| ==> JobOf(f.board, group, pending[i]))
  }

  /** A decision starts agents at most, and agents end by it only below something that failed. */
  ghost predicate DecidesOnly(b: Board, c: Board) {
    CreatesAgents(b, c) && Spares(b, c, {})
  }

  /** What ends with `x` was below something that failed, and nothing is live below `x` unless it completed. */
  ghost predicate EndsWith(b: Board, c: Board, x: ExecutionId) {
    && CreatesAgents(b, c) && SparesOthers(b, c, x)
    && (IsLive(b, x) && !InState(c, x, Completed) ==> forall y :: ProperDescendant(c, x, y) ==> !IsLive(c, y))
  }

  /** The subtree of `x` has ended, and elsewhere only what was below something that failed. */
  ghost predicate CutsOff(b: Board, c: Board, x: ExecutionId) {
    Spares(b, c, {x} + Below(b, x)) && forall y :: InSubtree(c, x, y) ==> !IsLive(c, y)
  }

  /** The step `step` leads from `f` to `g`. */
  ghost predicate Happens(f: Floor, g: Floor, step: PoolStep) {
    match step
    case TakeJob(index) => index < |f.pending| && MayBeTaken(f, f.pending[index]) && g == AfterTake(f, index)
    case GoOn(job, phase) => MayGoOn(f, job, phase) && g == f.(phases := f.phases[job := phase])
    case BeginJob(job) =>
      && job in f.inFlight && job in f.phases && f.phases[job].Taken? && InState(f.board, job.execution, Pending)
      && g == Begun(f, job) && Awaiting(WithState(f.board, job.execution, Running))
    case DecideJob(job) =>
      && job in f.inFlight && job in f.phases && f.phases[job].Driving?
      && Acts(f, g.board, job) && DecidesOnly(f.board, g.board) && g == AfterStep(f, g.board, job, Driving)
    case PlanJob(job, plan) =>
      && job in f.inFlight && job in f.phases && f.phases[job].Driving? && InState(f.board, job.execution, Running)
      && Acts(f, g.board, job) && AddsPlan(f.board, g.board, job.execution, plan) && g == AfterStep(f, g.board, job, Driving)
    case EndJob(job) =>
      && job in f.inFlight && job in f.phases && (f.phases[job].Taken? || f.phases[job].Driving?)
      && Acts(f, g.board, job) && !IsLive(g.board, job.execution) && EndsWith(f.board, g.board, job.execution)
      && g == AfterStep(f, g.board, job, Driven)
    case QueueJob(job) =>
      && job in f.inFlight && job in f.phases && f.phases[job].Listed? && f.phases[job].jobs != []
      && g == AfterListed(f, job)
    case FeedOpened(group) => Scheduled(f, g.scheduled, g.pending, group) && g == AfterFeed(f, g.scheduled, g.pending, group)
    case HandBackJob(job) =>
      && job in f.inFlight && job in f.phases && f.phases[job].Checked?
      && g == AfterHandBack(f, job, f.phases[job].release, Releases(f, job, f.phases[job].release))
    case OpenTree(root) =>
      && OpensTree(f.board, g.board, root) && OnlyChildrenOf(f.board, g.board, root)
      && BoardInv(g.board) && OneSessionPerTree(g.board) && Awaiting(g.board)
      && g == Opened(f, g.board, root)
    case CancelBranch(x) =>
      && BoardInv(g.board) && OneSessionPerTree(g.board) && Awaiting(g.board)
      && Evolves(f.board, g.board) && OnlyInTree(f.board, g.board, RootOf(f.board, x))
      && AgentsKept(f.board, g.board) && StartsNothing(f.board, g.board) && CutsOff(f.board, g.board, x)
      && g == OnBoard(f, g.board)
  }

  /** Every step, by whomever, keeps what the workers keep true together. */
  lemma StepKeepsOrder(f: Floor, g: Floor, step: PoolStep)
    requires Orderly(f) && Happens(f, g, step)
    ensures Orderly(g)
  {
    hide Orderly, Awaiting, BoardInv, OneSessionPerTree, Acts, Conserved, CanStart, Quiescent, Remembers, Lists, OpensTree, Evolves, OnlyInTree,
      AgentsKept, StartsNothing, Runnable, JobOf, Releases, WithState, OnBoard, MayBeTaken, DecidesOnly, AddsPlan, EndsWith, CutsOff,
      OnlyChildrenOf, RootOf;
    match step {
      case TakeJob(index) => TakingKeepsOrder(f, index);
      case GoOn(job, phase) => PhaseKeepsOrder(f, job, phase);
      case BeginJob(job) => BeginKeepsOrder(f, job);
      case DecideJob(job) => ActKeepsOrder(f, g.board, job);
      case PlanJob(job, _) => ActKeepsOrder(f, g.board, job);
      case EndJob(job) => EndKeepsOrder(f, g.board, job);
      case QueueJob(job) => ListedKeepsOrder(f, job);
      case FeedOpened(group) => FeedKeepsOrder(f, g.scheduled, g.pending, group);
      case HandBackJob(job) => HandBackKeepsOrder(f, job, f.phases[job].release);
      case OpenTree(root) => OpenKeepsOrder(f, g.board, root);
      case CancelBranch(x) => CancelKeepsOrder(f, g.board, RootOf(f.board, x));
    }
  }

  lemma TakingKeepsOrder(f: Floor, index: nat)
    requires Orderly(f) && index < |f.pending| && MayBeTaken(f, f.pending[index])
    ensures Orderly(AfterTake(f, index))
  {
    hide Orderly, AfterTake;
    TakeKeepsOrder(f, index);
  }

  /** What a worker lists is known, and it is all that can start. */
  lemma ListIsComplete(f: Floor, job: Job, jobs: seq<Job>)
    requires Orderly(f) && job in f.inFlight && job in f.phases && f.phases[job].Driven? && Lists(f.board, job.group, jobs)
    ensures Remembers(f, job, Listed(jobs))
  {
    hide RootOf, Blocked, BoardInv, OneSessionPerTree;
    forall k | k in jobs ensures JobKnown(f.board, k) {
      assert JobOf(f.board, job.group, k) && !LiveOrchestration(f.board, k.execution);
    }
    assert forall x :: CanStart(f.board, x) && RootOf(f.board, x) == job.group ==> Runnable(f.board, job.group, x);
  }

  /** What holds of a driven job before its tree is fed. */
  lemma DrivenIsSpent(f: Floor, job: Job)
    requires Orderly(f) && job in f.inFlight && !f.phases[job].Taken?
    ensures !CanStart(f.board, job.execution) && f.submitted - {job.group} == f.submitted
  {
    assert job in InGroup(f.inFlight, job.group);
  }

  // ---------------------------------------------------------------------------
  // When a session goes on
  // ---------------------------------------------------------------------------

  /** A worker holds a job of the session. */
  ghost predicate IsWorkedOn(f: Floor, s: SessionId) {
    exists j :: j in f.inFlight && j.session == s
  }

  /** A pending job of the session may be taken. */
  ghost predicate IsOpenTo(f: Floor, s: SessionId) {
    exists i :: 0 <= i < |f.pending| && f.pending[i].session == s && MayBeTaken(f, f.pending[i])
  }

  /** Nobody is at work in the tree or will be, as far as its own executions go. */
  ghost predicate IsIdle(f: Floor, g: ExecutionId) {
    InGroup(f.inFlight, g) == {} && !HasPending(f.pending, g) && g !in f.submitted
  }

  /** The session is held by a tree without jobs. */
  ghost predicate Stuck(f: Floor, s: SessionId) {
    s in f.activeSessions && IsIdle(f, f.activeSessions[s])
  }

  /** The orchestrations of the tree `g` have ended, nothing of it runs or can start, and it holds no session. */
  ghost predicate IsDone(f: Floor, g: ExecutionId) {
    && (forall o :: LiveOrchestration(f.board, o) ==> RootOf(f.board, o) != g)
    && (forall x :: IsLive(f.board, x) && RootOf(f.board, x) == g ==> InState(f.board, x, Pending) && Blocked(f.board, x))
    && (forall s :: s in f.activeSessions ==> f.activeSessions[s] != g)
  }

  lemma IdleTreeHasNoWork(f: Floor, g: ExecutionId)
    requires Orderly(f) && IsIdle(f, g)
    ensures !HasWork(f.board, g)
  {
    assert forall j :: j in f.inFlight ==> j.group != g by {
      forall j | j in f.inFlight ensures j.group != g { assert j.group == g ==> j in InGroup(f.inFlight, g); }
    }
    hide Orderly, HasWork, HasPending, InGroup;
    if HasWork(f.board, g) { WorkIsPending(f, g); }
  }

  /**
   A session with jobs pending goes on unless it is stuck, and one that is
   stuck is held by a tree that was obstructed.
   */
  lemma SessionGoesOnUnlessStuck(f: Floor, i: nat)
    requires Orderly(f) && i < |f.pending|
    ensures var s := f.pending[i].session; IsWorkedOn(f, s) || IsOpenTo(f, s) <==> !Stuck(f, s)
    ensures Stuck(f, f.pending[i].session) ==> f.activeSessions[f.pending[i].session] in f.obstructed
  {
    var s := f.pending[i].session;
    StuckStandsStill(f, s);
    if s !in f.activeSessions {
      assert MayBeTaken(f, f.pending[i]);
    } else {
      var g := f.activeSessions[s];
      hide HasWork, HasPending, InGroup, BoardInv, OneSessionPerTree, Awaiting, Conserved, NothingForgotten, Spent, RunningAreDriven, Watched,
        ObstructionsKnown, JobsKnown, SessionsKnown, RootOf;
      if InGroup(f.inFlight, g) != {} {
        HolderIsWorkedOn(f, s);
      } else if HasPending(f.pending, g) {
        HolderIsOpen(f, s);
      } else {
        assert g !in f.submitted;
      }
    }
  }

  lemma HolderIsWorkedOn(f: Floor, s: SessionId)
    requires Orderly(f) && s in f.activeSessions && InGroup(f.inFlight, f.activeSessions[s]) != {}
    ensures IsWorkedOn(f, s)
  {
    var j :| j in InGroup(f.inFlight, f.activeSessions[s]);
    JobIsKnown(f, j);
    RootIsKnown(f, j);
    hide BoardInv, OneSessionPerTree;
  }

  lemma HolderIsOpen(f: Floor, s: SessionId)
    requires Orderly(f) && s in f.activeSessions && HasPending(f.pending, f.activeSessions[s])
    ensures IsOpenTo(f, s)
  {
    var k :| 0 <= k < |f.pending| && f.pending[k].group == f.activeSessions[s];
    assert f.pending[k] in f.pending && JobKnown(f.board, f.pending[k]);
    RootIsKnown(f, f.pending[k]);
    hide BoardInv, OneSessionPerTree;
    assert MayBeTaken(f, f.pending[k]);
  }

  lemma StuckStandsStill(f: Floor, s: SessionId)
    requires Orderly(f)
    ensures IsWorkedOn(f, s) || IsOpenTo(f, s) ==> !Stuck(f, s)
    ensures Stuck(f, s) ==> s in f.activeSessions && f.activeSessions[s] in f.obstructed
  {
    hide HasWork, BoardInv, OneSessionPerTree, Awaiting, Conserved, RootOf, Obstructed, Quiescent;
    if s in f.activeSessions {
      var g := f.activeSessions[s];
      if IsWorkedOn(f, s) {
        var j :| j in f.inFlight && j.session == s;
        assert j in InGroup(f.inFlight, g);
      } else if IsOpenTo(f, s) {
        var k :| 0 <= k < |f.pending| && f.pending[k].session == s && MayBeTaken(f, f.pending[k]);
        assert f.pending[k].group == g;
      }
    }
  }

  /** A tree without jobs that was never obstructed is done. */
  lemma IdleTreeIsDone(f: Floor, g: ExecutionId)
    requires Orderly(f) && IsIdle(f, g) && g !in f.obstructed
    ensures IsDone(f, g)
  {
    IdleTreeHasNoWork(f, g);
    hide BoardInv, RootOf, Blocked, Obstructed, Awaiting, JobsKnown, OneSessionPerTree, NothingForgotten, RunningAreDriven, Spent, Watched,
      Conserved, HasPending, InGroup;
    forall o | LiveOrchestration(f.board, o) ensures RootOf(f.board, o) != g {
      if RootOf(f.board, o) == g { OrchestrationHasWork(f.board, o); }
    }
    forall x | IsLive(f.board, x) && RootOf(f.board, x) == g ensures InState(f.board, x, Pending) && Blocked(f.board, x) {
      assert !LiveOrchestration(f.board, x);
      assert !(InState(f.board, x, Running) || CanStart(f.board, x));
    }
  }

  // ---------------------------------------------------------------------------
  // Whether a session is freed
  // ---------------------------------------------------------------------------

  /** A tree that is obstructed is never seen at rest. */
  lemma ObstructedIsNeverAtRest(b: Board, g: ExecutionId)
    requires BoardInv(b) && Awaiting(b) && Obstructed(b, g)
    ensures !Quiescent(b, g)
  {
    var o :| LiveOrchestration(b, o) && RootOf(b, o) == g && Blocked(b, o);
    assert InState(b, o, Running);
    hide BoardInv, RootOf, Blocked;
  }

  /** Where nobody is at work, a tree is at rest exactly when it is not obstructed. */
  lemma AtRestUnlessObstructed(b: Board, g: ExecutionId)
    requires BoardInv(b) && Awaiting(b) && !HasWork(b, g)
    requires exists x :: x in b.executions && RootOf(b, x) == g
    ensures Quiescent(b, g) <==> !Obstructed(b, g)
  {
    hide BoardInv, Awaiting, HasWork, Obstructed, Quiescent, RootOf;
    if Obstructed(b, g) {
      ObstructedIsNeverAtRest(b, g);
    } else if !Quiescent(b, g) {
      UnrestHasWork(b, g);
    }
  }

  /**
   The last completion of a tree without pending jobs frees its session if some
   worker saw the tree at rest, and otherwise leaves the session stuck.
   */
  lemma LastJobFreesOrSticks(f: Floor, job: Job)
    requires Orderly(f) && job in f.inFlight && f.phases[job].Checked?
    requires InGroup(f.inFlight - {job}, job.group) == {} && !HasPending(f.pending, job.group)
    ensures var release := f.phases[job].release;
      var g := AfterHandBack(f, job, release, Releases(f, job, release));
      if release || job.group in f.releasing then job.session !in g.activeSessions
      else Stuck(g, job.session) && g.activeSessions[job.session] == job.group
  {
    var release := f.phases[job].release;
    var g := AfterHandBack(f, job, release, Releases(f, job, release));
    HandBackKeepsOrder(f, job, release);
    SubmittedIsNew(f, job);
    assert job.session in f.activeSessions && f.activeSessions[job.session] == job.group;
    hide Orderly, HasPending, HasWork;
  }

  lemma SubmittedIsNew(f: Floor, job: Job)
    requires SubmittedAreNew(f) && job in f.inFlight
    ensures job.group !in f.submitted
  {
    assert job in InGroup(f.inFlight, job.group);
  }

  // ---------------------------------------------------------------------------
  // A session that stands still does so for good
  // ---------------------------------------------------------------------------

  ghost predicate PoolRun(floors: seq<Floor>, steps: seq<PoolStep>) {
    |floors| == |steps| + 1 && forall i :: 0 <= i < |steps| ==> Happens(floors[i], floors[i + 1], steps[i])
  }

  lemma {:induction false} RunsKeepOrder(floors: seq<Floor>, steps: seq<PoolStep>, n: nat)
    requires PoolRun(floors, steps) && Orderly(floors[0]) && n <= |steps|
    ensures Orderly(floors[n])
  {
    hide Orderly, Happens;
    if n > 0 {
      RunsKeepOrder(floors, steps, n - 1);
      StepKeepsOrder(floors[n - 1], floors[n], steps[n - 1]);
    }
  }

  lemma TakingElsewhere(f: Floor, index: nat, s: SessionId)
    requires Stuck(f, s) && index < |f.pending| && MayBeTaken(f, f.pending[index])
    ensures Stuck(AfterTake(f, index), s) && AfterTake(f, index).activeSessions[s] == f.activeSessions[s]
    ensures f.pending[index].session != s
  {
    var g, t := AfterTake(f, index), f.activeSessions[s];
    assert f.pending[index].group != t;
    WithoutAt(f.pending, index);
    hide Without;
    forall k | 0 <= k < |g.pending| ensures g.pending[k].group != t {
      assert g.pending[k] == f.pending[if k < index then k else k + 1];
    }
    forall j | j in g.inFlight ensures j.group != t { assert j in f.inFlight && j.group == t ==> j in InGroup(f.inFlight, t); }
  }

  lemma FeedingElsewhere(f: Floor, scheduled: set<ExecutionId>, pending: seq<Job>, group: ExecutionId, t: ExecutionId)
    requires Orderly(f) && IsIdle(f, t) && Scheduled(f, scheduled, pending, group)
    ensures !HasPending(pending, t)
  {
    IdleTreeHasNoWork(f, t);
    hide BoardInv, RootOf, Blocked, Conserved, OneSessionPerTree;
    forall i | 0 <= i < |pending| ensures pending[i].group != t {
      if i < |f.pending| {
        assert f.pending[i] == pending[i];
      } else {
        assert JobOf(f.board, group, pending[i]) && !LiveOrchestration(f.board, pending[i].execution);
      }
    }
  }

  lemma QueueingElsewhere(f: Floor, job: Job, s: SessionId)
    requires ListingsKnown(f) && Stuck(f, s) && job in f.inFlight && job in f.phases && f.phases[job].Listed? && f.phases[job].jobs != []
    ensures Stuck(AfterListed(f, job), s) && AfterListed(f, job).activeSessions == f.activeSessions
  {
    assert job in InGroup(f.inFlight, job.group) && f.phases[job].jobs[0] in f.phases[job].jobs;
    hide JobKnown;
  }

  lemma HandingBackElsewhere(f: Floor, job: Job, s: SessionId)
    requires Exclusive(f.activeSessions, f.inFlight) && Stuck(f, s) && job in f.inFlight && job in f.phases && f.phases[job].Checked?
    ensures var g := AfterHandBack(f, job, f.phases[job].release, Releases(f, job, f.phases[job].release));
      Stuck(g, s) && g.activeSessions[s] == f.activeSessions[s]
  {
    assert job in InGroup(f.inFlight, job.group);
    hide HasPending, Releases;
  }

  /** Whoever does whatever elsewhere: the idle tree that holds the session stays idle and keeps it. */
  lemma StuckStays(f: Floor, g: Floor, step: PoolStep, s: SessionId)
    requires Orderly(f) && Happens(f, g, step) && Stuck(f, s)
    ensures Stuck(g, s) && g.activeSessions[s] == f.activeSessions[s]
    ensures step.TakeJob? ==> step.index < |f.pending| && f.pending[step.index].session != s
  {
    var t := f.activeSessions[s];
    assert Exclusive(f.activeSessions, f.inFlight) && t in f.board.executions && ListingsKnown(f);
    hide Orderly, MayGoOn, Conserved, Begun, Awaiting, Acts, AfterStep, WithState, Runnable, Releases, OpensTree, BoardInv, OneSessionPerTree,
      Evolves, OnlyInTree, AgentsKept, StartsNothing, RootOf, Blocked, CanStart, Quiescent, AfterTake, AfterListed, AfterHandBack, Exclusive,
      HasPending, InGroup, Scheduled, MayBeTaken, OnBoard, Opened, DecidesOnly, AddsPlan, EndsWith, CutsOff, OnlyChildrenOf;
    match step {
      case TakeJob(index) => TakingElsewhere(f, index, s);
      case QueueJob(job) => QueueingElsewhere(f, job, s);
      case FeedOpened(group) => FeedingElsewhere(f, g.scheduled, g.pending, group, t);
      case HandBackJob(job) => HandingBackElsewhere(f, job, s);
      case OpenTree(root) => OpensElsewhere(f, g, root, t);
      case CancelBranch(x) => SameQueue(f, g, step);
      case BeginJob(job) => SameQueue(f, g, step);
      case DecideJob(job) => SameQueue(f, g, step);
      case PlanJob(job, _) => SameQueue(f, g, step);
      case EndJob(job) => SameQueue(f, g, step);
      case GoOn(job, phase) =>
    }
  }

  lemma SameQueue(f: Floor, g: Floor, step: PoolStep)
    requires Happens(f, g, step) && (step.BeginJob? || step.DecideJob? || step.PlanJob? || step.EndJob? || step.CancelBranch?)
    ensures g.activeSessions == f.activeSessions && g.inFlight == f.inFlight && g.pending == f.pending && g.submitted == f.submitted
  {
    hide Acts, Awaiting, BoardInv, OneSessionPerTree, Evolves, OnlyInTree, AgentsKept, StartsNothing, WithState, ObstructedTrees, DecidesOnly,
      AddsPlan, EndsWith, CutsOff, RootOf;
  }

  lemma OpensElsewhere(f: Floor, g: Floor, root: ExecutionId, t: ExecutionId)
    requires Happens(f, g, OpenTree(root)) && t in f.board.executions
    ensures g.activeSessions == f.activeSessions && g.inFlight == f.inFlight && g.pending == f.pending
    ensures t in g.submitted <==> t in f.submitted
  {
    hide Awaiting, BoardInv, OneSessionPerTree, Evolves, AgentsKept, ObstructedTrees;
  }

  /** Once a session is stuck it stays so over any run, held by the same tree, and no job of it is taken any more. */
  lemma {:induction false} StuckForGood(floors: seq<Floor>, steps: seq<PoolStep>, s: SessionId, n: nat)
    requires PoolRun(floors, steps) && Orderly(floors[0]) && Stuck(floors[0], s) && n <= |steps|
    ensures Stuck(floors[n], s) && floors[n].activeSessions[s] == floors[0].activeSessions[s]
    ensures forall i :: 0 <= i < n && steps[i].TakeJob? ==> steps[i].index < |floors[i].pending| && floors[i].pending[steps[i].index].session != s
    ensures !IsWorkedOn(floors[n], s) && !IsOpenTo(floors[n], s)
  {
    hide Orderly, Happens, Stuck, IsWorkedOn, IsOpenTo;
    RunsKeepOrder(floors, steps, n);
    if n > 0 {
      StuckForGood(floors, steps, s, n - 1);
      RunsKeepOrder(floors, steps, n - 1);
      StuckStays(floors[n - 1], floors[n], steps[n - 1], s);
    }
    StuckStandsStill(floors[n], s);
  }
}
