/**
 What the server's workers keep true together: nothing that can start is
 forgotten, nothing is driven twice, and no session stays taken by a tree that
 has come to rest.
 */
module WorkerInvariants {
  import opened PhenixCore
  import opened Records
  import opened Journal
  import opened BoardInvariants
  import opened ExecutionTree
  import opened Settling
  import opened Cascade
  import opened ExecutionQueue
  import opened ExecutionGroups

  /** How far a worker has come with its job. */
  datatype Phase = Taken | Driving | Driven | Listed(jobs: seq<Job>) | Fed | Checked(release: bool)
  {
    /** The worker has yet to look for what its job made ready; once `Listed`, it has yet to schedule the jobs that it found. */
    predicate WillFeed() {
      Taken? || Driving? || Driven?
    }
  }

  /**
   What the invariants of the workers speak of.  `submitted` holds the new
   trees that the reader has yet to feed, and `obstructed` the trees that have
   ever been found obstructed.
   */
  datatype Floor = Floor(
    board: Board,
    scheduled: set<ExecutionId>,
    pending: seq<Job>,
    inFlight: set<Job>,
    completed: set<Job>,
    activeSessions: map<SessionId, ExecutionId>,
    releasing: set<ExecutionId>,
    phases: map<Job, Phase>,
    submitted: set<ExecutionId>,
    obstructed: set<ExecutionId>)

  /** `x` waits to run and nothing above it was stopped. */
  ghost predicate CanStart(b: Board, x: ExecutionId) {
    InState(b, x, Pending) && !Blocked(b, x)
  }

  /** An agent or root, the tree it belongs to and the session it runs in. */
  ghost predicate JobKnown(b: Board, j: Job) {
    && j.execution in b.executions && !IsOrchestration(b, j.execution)
    && RootOf(b, j.execution) == j.group && b.executions[j.execution].summary.session == j.session
  }

  ghost predicate JobsKnown(f: Floor) {
    && (forall j :: j in f.pending ==> JobKnown(f.board, j))
    && (forall j :: j in f.inFlight || j in f.completed ==> JobKnown(f.board, j))
  }

  /** Sessions are held by trees that run in them. */
  ghost predicate SessionsKnown(f: Floor) {
    forall s :: s in f.activeSessions ==>
      f.activeSessions[s] in f.board.executions && f.board.executions[f.activeSessions[s]].summary.session == s
  }

  ghost predicate WillBeFed(f: Floor, g: ExecutionId) {
    g in f.submitted || exists j :: j in f.inFlight && j.group == g && j in f.phases && f.phases[j].WillFeed()
  }

  /** A worker has found `x` ready and will schedule it. */
  ghost predicate IsListed(f: Floor, x: ExecutionId) {
    exists j :: j in f.inFlight && j in f.phases && f.phases[j].Listed? && x in PendingIds(f.phases[j].jobs)
  }

  /** `x`, of the tree of `g`, is scheduled, or somebody will still schedule it. */
  ghost predicate Remembered(f: Floor, x: ExecutionId, g: ExecutionId) {
    x in f.scheduled || WillBeFed(f, g) || IsListed(f, x)
  }

  /** Whatever can start is scheduled, or somebody will still schedule it. */
  ghost predicate NothingForgotten(f: Floor) {
    forall x :: CanStart(f.board, x) ==> Remembered(f, x, RootOf(f.board, x))
  }

  /** What a worker has listed are jobs of its tree. */
  ghost predicate ListingsKnown(f: Floor) {
    forall j, k :: j in f.inFlight && j in f.phases && f.phases[j].Listed? && k in f.phases[j].jobs ==> JobKnown(f.board, k) && k.group == j.group
  }

  /** A job that was driven cannot start again. */
  ghost predicate Spent(f: Floor) {
    && (forall j :: j in f.completed ==> !CanStart(f.board, j.execution))
    && (forall j :: j in f.inFlight && j in f.phases && !f.phases[j].Taken? ==> !CanStart(f.board, j.execution))
    && (forall j :: j in f.inFlight && j in f.phases && f.phases[j].Driving? ==> !InState(f.board, j.execution, Pending))
  }

  ghost predicate IsDriven(f: Floor, x: ExecutionId) {
    exists j :: j in f.inFlight && j.execution == x && j in f.phases && f.phases[j].Driving?
  }

  /** Agents and roots that run are being driven. */
  ghost predicate RunningAreDriven(f: Floor) {
    forall x :: InState(f.board, x, Running) && !IsOrchestration(f.board, x) ==> IsDriven(f, x)
  }

  /** Some worker has not looked yet whether the tree has come to rest, or has seen that it has. */
  ghost predicate Watching(f: Floor, g: ExecutionId) {
    exists j :: j in f.inFlight && j.group == g && j in f.phases && f.phases[j] != Checked(false)
  }

  /** The end of a tree whose jobs are still in flight does not go unnoticed. */
  ghost predicate Watched(f: Floor) {
    forall g :: InGroup(f.inFlight, g) != {} && Quiescent(f.board, g) ==> WillBeNoticed(f, g)
  }

  /** The tree is marked for release, or a worker will look at it. */
  ghost predicate WillBeNoticed(f: Floor, g: ExecutionId) {
    g in f.releasing || Watching(f, g) || HasPending(f.pending, g) || g in f.obstructed
  }

  /** A live orchestration below something that was stopped: what it waits for will never start. */
  ghost predicate Obstructed(b: Board, g: ExecutionId) {
    exists o :: LiveOrchestration(b, o) && RootOf(b, o) == g && Blocked(b, o)
  }

  ghost predicate ObstructionsKnown(f: Floor) {
    forall g :: Obstructed(f.board, g) ==> g in f.obstructed
  }

  /** The trees that are obstructed now. */
  ghost function ObstructedTrees(b: Board): set<ExecutionId> {
    set g | g in b.executions && Obstructed(b, g)
  }

  lemma ObstructionsSeen(b: Board)
    requires BoardInv(b)
    ensures forall g :: Obstructed(b, g) ==> g in ObstructedTrees(b)
  {
    forall g | Obstructed(b, g) ensures g in b.executions {
      var o :| LiveOrchestration(b, o) && RootOf(b, o) == g && Blocked(b, o);
      RootFacts(b, o);
    }
    hide Obstructed;
  }

  /** A session is held for a reason: its tree has jobs left, or was obstructed. */
  ghost predicate HeldForAReason(f: Floor) {
    forall s :: s in f.activeSessions ==>
      var g := f.activeSessions[s];
      InGroup(f.inFlight, g) != {} || HasPending(f.pending, g) || g in f.obstructed
  }

  /** No worker has met a tree that the reader has yet to feed. */
  ghost predicate SubmittedAreNew(f: Floor) {
    forall t :: t in f.submitted ==>
      && InGroup(f.inFlight, t) == {} && !HasPending(f.pending, t)
      && forall s :: s in f.activeSessions ==> f.activeSessions[s] != t
  }

  /** Live orchestrations run, and each has a live child. */
  ghost predicate Awaiting(b: Board) {
    forall o :: LiveOrchestration(b, o) ==> InState(b, o, Running) && exists x :: IsChild(b, o, x) && IsLive(b, x)
  }

  ghost predicate Orderly(f: Floor) {
    && BoardInv(f.board) && OneSessionPerTree(f.board) && Awaiting(f.board)
    && f.phases.Keys == f.inFlight
    && Conserved(f.scheduled, f.pending, f.inFlight, f.completed) && Exclusive(f.activeSessions, f.inFlight)
    && JobsKnown(f) && SessionsKnown(f) && ListingsKnown(f)
    && NothingForgotten(f) && Spent(f) && RunningAreDriven(f) && Watched(f) && HeldForAReason(f)
    && SubmittedAreNew(f) && ObstructionsKnown(f)
  }

  // ---------------------------------------------------------------------------
  // What there is to do in a tree that has not come to rest
  // ---------------------------------------------------------------------------

  /** An agent or root of the tree runs, or can start. */
  ghost predicate HasWork(b: Board, g: ExecutionId) {
    exists x :: x in b.executions && !IsOrchestration(b, x) && RootOf(b, x) == g && (InState(b, x, Running) || CanStart(b, x))
  }

  lemma {:induction false} OrchestrationHasWork(b: Board, o: ExecutionId)
    requires BoardInv(b) && Awaiting(b) && LiveOrchestration(b, o) && !Obstructed(b, RootOf(b, o))
    ensures HasWork(b, RootOf(b, o))
    decreases b.nextExecution - o
  {
    var x: ExecutionId :| IsChild(b, o, x) && IsLive(b, x);
    assert o < x <= b.nextExecution && RootOf(b, x) == RootOf(b, o);
    if IsOrchestration(b, x) {
      OrchestrationHasWork(b, x);
    } else {
      BlockedByParent(b, x);
      assert !Blocked(b, o);
      hide BoardInv, RootOf, Blocked;
    }
  }

  /** A tree that has not come to rest has work for a worker, unless it is obstructed. */
  lemma UnrestHasWork(b: Board, g: ExecutionId)
    requires BoardInv(b) && Awaiting(b) && !Quiescent(b, g) && !Obstructed(b, g)
    requires exists x :: x in b.executions && RootOf(b, x) == g
    ensures HasWork(b, g)
  {
    var x :| x in b.executions && RootOf(b, x) == g && (InState(b, x, Running) || Runnable(b, g, x));
    if IsOrchestration(b, x) {
      assert LiveOrchestration(b, x);
      OrchestrationHasWork(b, x);
    }
    hide BoardInv, RootOf, Blocked;
  }

  /** Where nobody is at work and nobody will feed the tree, its work is pending. */
  lemma WorkIsPending(f: Floor, g: ExecutionId)
    requires Orderly(f) && HasWork(f.board, g) && !WillBeFed(f, g)
    requires forall j :: j in f.inFlight && j.group == g ==>
      j in f.phases && !f.phases[j].Taken? && !f.phases[j].Driving? && !f.phases[j].Listed?
    ensures HasPending(f.pending, g)
  {
    hide BoardInv, RootOf, Blocked;
    var b := f.board;
    var x :| x in b.executions && !IsOrchestration(b, x) && RootOf(b, x) == g && (InState(b, x, Running) || CanStart(b, x));
    forall j | j in f.inFlight ensures j.group == RootOf(b, j.execution) { assert JobKnown(b, j); }
    assert !IsDriven(f, x);
    if IsListed(f, x) { ListedIsKnown(f, x); }
    assert x !in JobIds(f.inFlight) && x !in JobIds(f.completed) && x in PendingIds(f.pending);
    var i :| 0 <= i < |f.pending| && f.pending[i].execution == x;
    assert JobKnown(b, f.pending[i]);
  }

  lemma ListedIsKnown(f: Floor, x: ExecutionId)
    requires ListingsKnown(f) && IsListed(f, x)
    ensures exists j :: j in f.inFlight && j in f.phases && f.phases[j].Listed? && j.group == RootOf(f.board, x)
  {
    var j :| j in f.inFlight && j in f.phases && f.phases[j].Listed? && x in PendingIds(f.phases[j].jobs);
    var i :| 0 <= i < |f.phases[j].jobs| && f.phases[j].jobs[i].execution == x;
    assert f.phases[j].jobs[i] in f.phases[j].jobs;
    hide RootOf;
  }

  /** The others are where they were. */
  ghost predicate OthersKept(f: Floor, g: Floor, job: Job) {
    forall j :: j in f.inFlight && j in f.phases && j != job ==> j in g.inFlight && j in g.phases && g.phases[j] == f.phases[j]
  }

  lemma ListedStays(f: Floor, g: Floor, job: Job, x: ExecutionId)
    requires OthersKept(f, g, job) && IsListed(f, x) && (job in f.phases && job in f.inFlight ==> !f.phases[job].Listed?)
    ensures IsListed(g, x)
  {
    var j :| j in f.inFlight && j in f.phases && f.phases[j].Listed? && x in PendingIds(f.phases[j].jobs);
    assert j in g.inFlight && g.phases[j].Listed?;
  }

  /** Before the first job. */
  lemma EmptyFloorIsOrderly(f: Floor)
    requires BoardInv(f.board) && OneSessionPerTree(f.board) && Awaiting(f.board)
    requires f.scheduled == {} && f.pending == [] && f.inFlight == {} && f.completed == {} && f.activeSessions == map[] && f.releasing == {}
    requires f.phases == map[] && f.submitted == {}
    requires forall x :: !CanStart(f.board, x)
    requires forall x :: InState(f.board, x, Running) ==> IsOrchestration(f.board, x)
    requires f.obstructed == ObstructedTrees(f.board)
    ensures Orderly(f)
  {
    ObstructionsSeen(f.board);
    hide BoardInv, OneSessionPerTree, Awaiting, CanStart, Quiescent, Obstructed, ObstructedTrees;
  }

  // ---------------------------------------------------------------------------
  // Steps of the queue
  // ---------------------------------------------------------------------------

  function AfterTake(f: Floor, index: nat): Floor
    requires index < |f.pending|
  {
    var job := f.pending[index];
    f.(pending := Without(f.pending, index),
       inFlight := f.inFlight + {job},
       activeSessions := f.activeSessions[job.session := job.group],
       phases := f.phases[job := Taken])
  }

  lemma TakeKeepsOrder(f: Floor, index: nat)
    requires Orderly(f) && index < |f.pending|
    requires f.pending[index].session in f.activeSessions ==> f.activeSessions[f.pending[index].session] == f.pending[index].group
    ensures Orderly(AfterTake(f, index))
  {
    hide BoardInv, Conserved, Exclusive, Awaiting, OneSessionPerTree, JobsKnown, SessionsKnown, NothingForgotten, Spent, Watched, HeldForAReason,
      RunningAreDriven, SubmittedAreNew, ObstructionsKnown, Without;
    DispatchConserves(f.scheduled, f.pending, f.inFlight, f.completed, index);
    TakeKeepsExclusive(f, index);
    TakeKeepsWork(f, index);
    TakeKeepsKnown(f, index);
    TakeKeepsListings(f, index);
    TakeKeepsReasons(f, index);
    TakeKeepsWatch(f, index);
    TakeKeepsSubmitted(f, index);
  }

  lemma TakeKeepsExclusive(f: Floor, index: nat)
    requires Exclusive(f.activeSessions, f.inFlight) && index < |f.pending|
    requires f.pending[index].session in f.activeSessions ==> f.activeSessions[f.pending[index].session] == f.pending[index].group
    ensures Exclusive(AfterTake(f, index).activeSessions, AfterTake(f, index).inFlight)
  {
    hide Without;
  }

  lemma TakeKeepsWork(f: Floor, index: nat)
    requires NothingForgotten(f) && Spent(f) && RunningAreDriven(f) && ObstructionsKnown(f) && f.phases.Keys == f.inFlight
    requires index < |f.pending| && f.pending[index] !in f.inFlight
    ensures var g := AfterTake(f, index); NothingForgotten(g) && Spent(g) && RunningAreDriven(g) && ObstructionsKnown(g)
  {
    hide Without, RootOf, CanStart, Obstructed;
    var g := AfterTake(f, index);
    forall x | CanStart(f.board, x) ensures Remembered(g, x, RootOf(f.board, x)) {
      TakeKeepsFeeding(f, index, RootOf(f.board, x));
      if IsListed(f, x) { ListedStays(f, g, f.pending[index], x); }
    }
    forall x | IsDriven(f, x) ensures IsDriven(g, x) {
      var j :| j in f.inFlight && j.execution == x && j in f.phases && f.phases[j].Driving?;
      assert j in g.inFlight && g.phases[j].Driving?;
    }
  }

  lemma TakeKeepsListings(f: Floor, index: nat)
    requires ListingsKnown(f) && f.phases.Keys == f.inFlight && index < |f.pending| && f.pending[index] !in f.inFlight
    ensures ListingsKnown(AfterTake(f, index))
  {
    hide Without, JobKnown;
  }

  lemma TakeKeepsSubmitted(f: Floor, index: nat)
    requires SubmittedAreNew(f) && index < |f.pending| && f.pending[index] !in f.inFlight
    ensures SubmittedAreNew(AfterTake(f, index))
  {
    var g := AfterTake(f, index);
    assert HasPending(f.pending, f.pending[index].group);
    WithoutAt(f.pending, index);
    hide Without;
    forall t | t in f.submitted ensures InGroup(g.inFlight, t) == {} && !HasPending(g.pending, t) {
      assert t != f.pending[index].group;
      assert forall k :: 0 <= k < |g.pending| ==> g.pending[k] in f.pending;
      assert InGroup(g.inFlight, t) == InGroup(f.inFlight, t);
    }
    hide InGroup, HasPending;
  }

  lemma TakeKeepsKnown(f: Floor, index: nat)
    requires BoardInv(f.board) && OneSessionPerTree(f.board) && JobsKnown(f) && SessionsKnown(f)
    requires index < |f.pending|
    ensures JobsKnown(AfterTake(f, index)) && SessionsKnown(AfterTake(f, index))
  {
    var g := AfterTake(f, index);
    assert f.pending[index] in f.pending;
    RootIsKnown(f, f.pending[index]);
    WithoutAt(f.pending, index);
    hide BoardInv, Without, OneSessionPerTree, JobKnown;
    forall j | j in g.pending ensures j in f.pending {
      var k :| 0 <= k < |g.pending| && g.pending[k] == j;
    }
  }

  lemma TakeKeepsReasons(f: Floor, index: nat)
    requires HeldForAReason(f) && index < |f.pending|
    ensures HeldForAReason(AfterTake(f, index))
  {
    var job := f.pending[index];
    var g := AfterTake(f, index);
    WithoutAt(f.pending, index);
    hide Without, Obstructed;
    assert job in InGroup(g.inFlight, job.group);
    forall t | HasPending(f.pending, t) && t != job.group ensures HasPending(g.pending, t) { OthersStayPending(f.pending, index, t); }
    forall t | InGroup(f.inFlight, t) != {} ensures InGroup(g.inFlight, t) != {} {
      var j :| j in InGroup(f.inFlight, t);
      assert j in InGroup(g.inFlight, t);
    }
    hide InGroup, HasPending;
  }

  lemma TakeKeepsWatch(f: Floor, index: nat)
    requires Watched(f) && f.phases.Keys == f.inFlight && index < |f.pending| && f.pending[index] !in f.inFlight
    ensures Watched(AfterTake(f, index))
  {
    var job := f.pending[index];
    var g := AfterTake(f, index);
    MoreInGroup(f.inFlight, job);
    hide InGroup, Quiescent, Without;
    forall t | InGroup(g.inFlight, t) != {} && Quiescent(g.board, t) ensures WillBeNoticed(g, t) {
      if t == job.group {
        assert job in g.inFlight && g.phases[job] != Checked(false);
      } else if Watching(f, t) {
        var j :| j in f.inFlight && j.group == t && j in f.phases && f.phases[j] != Checked(false);
        assert j in g.inFlight && g.phases[j] != Checked(false);
      } else if HasPending(f.pending, t) {
        OthersStayPending(f.pending, index, t);
      }
    }
  }

  lemma OthersStayPending(jobs: seq<Job>, index: nat, t: ExecutionId)
    requires index < |jobs| && HasPending(jobs, t) && jobs[index].group != t
    ensures HasPending(Without(jobs, index), t)
  {
    WithoutAt(jobs, index);
    var i :| 0 <= i < |jobs| && jobs[i].group == t;
    assert jobs[i] in Without(jobs, index);
  }

  lemma RootIsKnown(f: Floor, job: Job)
    requires BoardInv(f.board) && OneSessionPerTree(f.board) && JobKnown(f.board, job)
    ensures job.group in f.board.executions && f.board.executions[job.group].summary.session == job.session
  {
    SessionOfTheRoot(f.board, job.execution);
  }

  lemma TakeKeepsFeeding(f: Floor, index: nat, t: ExecutionId)
    requires index < |f.pending| && f.pending[index] !in f.inFlight
    ensures WillBeFed(f, t) ==> WillBeFed(AfterTake(f, index), t)
  {
    var g := AfterTake(f, index);
    if WillBeFed(f, t) && t !in f.submitted {
      var j :| j in f.inFlight && j.group == t && j in f.phases && f.phases[j].WillFeed();
      assert j in g.inFlight && g.phases[j].WillFeed();
    }
  }

  /** The jobs that are left to schedule in a phase. */
  function JobsLeft(phase: Phase): seq<Job> {
    if phase.Listed? then phase.jobs else []
  }

  /** Everything of the tree that can start is scheduled or among `jobs`. */
  ghost predicate AllFound(f: Floor, g: ExecutionId, jobs: seq<Job>) {
    forall x :: CanStart(f.board, x) && RootOf(f.board, x) == g ==> x in f.scheduled || x in PendingIds(jobs)
  }

  /** The worker forgets nothing on its way to another phase: it has found what can start and scheduled what it had found. */
  ghost predicate Remembers(f: Floor, job: Job, phase: Phase) {
    && job in f.phases
    && (f.phases[job].WillFeed() && !phase.WillFeed() ==> AllFound(f, job.group, JobsLeft(phase)))
    && JobsLeft(f.phases[job]) == []
    && (forall k :: k in JobsLeft(phase) ==> JobKnown(f.board, k) && k.group == job.group)
  }

  /** A worker goes on to another phase without touching anything. */
  lemma PhaseKeepsOrder(f: Floor, job: Job, phase: Phase)
    requires Orderly(f) && job in f.inFlight && !f.phases[job].Driving? && Remembers(f, job, phase)
    requires !phase.Taken? && !phase.Driving? && !CanStart(f.board, job.execution)
    requires phase == Checked(false) ==> !Quiescent(f.board, job.group)
    ensures Orderly(f.(phases := f.phases[job := phase]))
  {
    hide BoardInv, Conserved, Exclusive, Awaiting, OneSessionPerTree, JobsKnown, SessionsKnown, NothingForgotten, Spent, Watched, HeldForAReason,
      RunningAreDriven, SubmittedAreNew, ObstructionsKnown, CanStart, Quiescent, RootOf, Remembers, ListingsKnown;
    PhaseKeepsWork(f, job, phase);
    PhaseKeepsListings(f, job, phase);
    PhaseKeepsWatch(f, job, phase);
    PhaseKeepsOthers(f, job, phase);
  }

  lemma PhaseKeepsWork(f: Floor, job: Job, phase: Phase)
    requires NothingForgotten(f) && RunningAreDriven(f) && f.phases.Keys == f.inFlight && job in f.inFlight && !f.phases[job].Driving?
    requires Remembers(f, job, phase)
    ensures var g := f.(phases := f.phases[job := phase]); NothingForgotten(g) && RunningAreDriven(g)
  {
    hide RootOf, CanStart, JobKnown;
    var g := f.(phases := f.phases[job := phase]);
    forall x | CanStart(f.board, x) ensures Remembered(g, x, RootOf(f.board, x)) {
      if IsListed(f, x) {
        var j :| j in f.inFlight && j in f.phases && f.phases[j].Listed? && x in PendingIds(f.phases[j].jobs);
        assert j in g.inFlight && j != job && g.phases[j] == f.phases[j];
      } else if x !in f.scheduled && RootOf(f.board, x) !in f.submitted {
        var j :| j in f.inFlight && j.group == RootOf(f.board, x) && j in f.phases && f.phases[j].WillFeed();
        assert j in g.inFlight && (j == job || g.phases[j].WillFeed());
        if j == job && phase.Listed? { assert job in g.inFlight && g.phases[job].Listed?; }
      }
    }
    forall x | IsDriven(f, x) ensures IsDriven(g, x) {
      var j :| j in f.inFlight && j.execution == x && j in f.phases && f.phases[j].Driving?;
      assert j in g.inFlight && g.phases[j].Driving?;
    }
  }

  lemma PhaseKeepsListings(f: Floor, job: Job, phase: Phase)
    requires ListingsKnown(f) && job in f.inFlight && Remembers(f, job, phase)
    ensures ListingsKnown(f.(phases := f.phases[job := phase]))
  {
    hide JobKnown, AllFound;
  }

  lemma PhaseKeepsWatch(f: Floor, job: Job, phase: Phase)
    requires Watched(f) && f.phases.Keys == f.inFlight && job in f.inFlight
    requires phase == Checked(false) ==> !Quiescent(f.board, job.group)
    ensures Watched(f.(phases := f.phases[job := phase]))
  {
    hide Quiescent, InGroup, HasPending;
    var g := f.(phases := f.phases[job := phase]);
    forall t | InGroup(g.inFlight, t) != {} && Quiescent(g.board, t) ensures WillBeNoticed(g, t) {
      if Watching(f, t) {
        var j :| j in f.inFlight && j.group == t && j in f.phases && f.phases[j] != Checked(false);
        assert j in g.inFlight && g.phases[j] != Checked(false);
      }
    }
  }

  lemma PhaseKeepsOthers(f: Floor, job: Job, phase: Phase)
    requires JobsKnown(f) && SessionsKnown(f) && Spent(f) && HeldForAReason(f) && SubmittedAreNew(f) && ObstructionsKnown(f)
    requires !phase.Taken? && !phase.Driving? && !CanStart(f.board, job.execution)
    ensures var g := f.(phases := f.phases[job := phase]);
      JobsKnown(g) && SessionsKnown(g) && Spent(g) && HeldForAReason(g) && SubmittedAreNew(g) && ObstructionsKnown(g)
  {
    hide CanStart, JobKnown, Obstructed, InGroup, HasPending;
  }

  function AfterFeed(f: Floor, scheduled: set<ExecutionId>, pending: seq<Job>, group: ExecutionId): Floor {
    f.(scheduled := scheduled, pending := pending, submitted := f.submitted - {group})
  }

  /** The reader schedules what can start in a tree. */
  lemma FeedKeepsOrder(f: Floor, scheduled: set<ExecutionId>, pending: seq<Job>, group: ExecutionId)
    requires Orderly(f) && f.pending <= pending && Conserved(scheduled, pending, f.inFlight, f.completed)
    requires forall id :: id in scheduled <==> id in f.scheduled || Runnable(f.board, group, id)
    requires forall i :: |f.pending| <= i < |pending| ==> JobOf(f.board, group, pending[i])
    ensures Orderly(AfterFeed(f, scheduled, pending, group))
  {
    hide BoardInv, Conserved, Exclusive, Awaiting, OneSessionPerTree, NothingForgotten, Spent, Watched, HeldForAReason, RunningAreDriven,
      SubmittedAreNew, ObstructionsKnown, JobsKnown, SessionsKnown, ListingsKnown, Runnable;
    FeedKeepsKnown(f, scheduled, pending, group);
    FeedKeepsWork(f, scheduled, pending, group);
    FeedKeepsWatch(f, scheduled, pending, group);
  }

  lemma FeedKeepsKnown(f: Floor, scheduled: set<ExecutionId>, pending: seq<Job>, group: ExecutionId)
    requires Awaiting(f.board) && JobsKnown(f) && SessionsKnown(f) && ListingsKnown(f) && f.pending <= pending
    requires forall i :: |f.pending| <= i < |pending| ==> JobOf(f.board, group, pending[i])
    ensures var g := AfterFeed(f, scheduled, pending, group); JobsKnown(g) && SessionsKnown(g) && ListingsKnown(g)
  {
    hide RootOf, Blocked;
    forall j | j in pending ensures JobKnown(f.board, j) {
      var i :| 0 <= i < |pending| && pending[i] == j;
      if i < |f.pending| {
        assert f.pending[i] in f.pending;
      } else {
        assert JobOf(f.board, group, pending[i]);
        assert !LiveOrchestration(f.board, j.execution);
      }
    }
    hide JobKnown;
  }

  lemma FeedKeepsWork(f: Floor, scheduled: set<ExecutionId>, pending: seq<Job>, group: ExecutionId)
    requires NothingForgotten(f) && Spent(f) && RunningAreDriven(f) && ObstructionsKnown(f)
    requires forall id :: id in scheduled <==> id in f.scheduled || Runnable(f.board, group, id)
    ensures var g := AfterFeed(f, scheduled, pending, group);
      NothingForgotten(g) && Spent(g) && RunningAreDriven(g) && ObstructionsKnown(g)
  {
    hide RootOf, Blocked, Obstructed;
    var g := AfterFeed(f, scheduled, pending, group);
    forall x | CanStart(f.board, x) ensures Remembered(g, x, RootOf(f.board, x)) {
      assert Remembered(f, x, RootOf(f.board, x));
      assert IsListed(f, x) ==> IsListed(g, x);
    }
    assert forall x :: IsDriven(f, x) <==> IsDriven(g, x);
  }

  lemma FeedKeepsWatch(f: Floor, scheduled: set<ExecutionId>, pending: seq<Job>, group: ExecutionId)
    requires Watched(f) && HeldForAReason(f) && SubmittedAreNew(f) && f.pending <= pending
    requires forall i :: |f.pending| <= i < |pending| ==> pending[i].group == group
    ensures var g := AfterFeed(f, scheduled, pending, group); Watched(g) && HeldForAReason(g) && SubmittedAreNew(g)
  {
    hide InGroup, Quiescent;
    var g := AfterFeed(f, scheduled, pending, group);
    forall t | HasPending(f.pending, t) ensures HasPending(pending, t) {
      var i :| 0 <= i < |f.pending| && f.pending[i].group == t;
      assert pending[i].group == t;
    }
    forall t | HasPending(pending, t) && t != group ensures HasPending(f.pending, t) {
      var i :| 0 <= i < |pending| && pending[i].group == t;
      assert i < |f.pending| && f.pending[i].group == t;
    }
    assert forall t :: Watching(f, t) <==> Watching(g, t);
    hide HasPending;
  }

  /** The queue takes the job unless its execution was scheduled before. */
  function AfterQueue(f: Floor, j: Job): Floor {
    if j.execution in f.scheduled then f else f.(scheduled := f.scheduled + {j.execution}, pending := f.pending + [j])
  }

  /** A worker schedules the first job of its list. */
  function AfterListed(f: Floor, job: Job): Floor
    requires job in f.phases && f.phases[job].Listed? && f.phases[job].jobs != []
  {
    AfterQueue(f, f.phases[job].jobs[0]).(phases := f.phases[job := Listed(f.phases[job].jobs[1..])])
  }

  lemma ListedKeepsOrder(f: Floor, job: Job)
    requires Orderly(f) && job in f.inFlight && f.phases[job].Listed? && f.phases[job].jobs != []
    ensures Orderly(AfterListed(f, job))
  {
    hide BoardInv, Conserved, Exclusive, Awaiting, OneSessionPerTree, NothingForgotten, Spent, Watched, HeldForAReason, RunningAreDriven,
      SubmittedAreNew, ObstructionsKnown, JobsKnown, SessionsKnown, ListingsKnown;
    QueueingConserves(f, f.phases[job].jobs[0]);
    ListedKeepsKnown(f, job);
    ListedKeepsWork(f, job);
    ListedKeepsWatch(f, job);
  }

  lemma ListedKeepsKnown(f: Floor, job: Job)
    requires JobsKnown(f) && SessionsKnown(f) && ListingsKnown(f)
    requires job in f.inFlight && job in f.phases && f.phases[job].Listed? && f.phases[job].jobs != []
    ensures JobsKnown(AfterListed(f, job)) && SessionsKnown(AfterListed(f, job)) && ListingsKnown(AfterListed(f, job))
    ensures f.phases[job].jobs[0].group == job.group
  {
    hide JobKnown;
    assert f.phases[job].jobs[0] in f.phases[job].jobs;
  }

  lemma QueueingConserves(f: Floor, j: Job)
    requires Conserved(f.scheduled, f.pending, f.inFlight, f.completed)
    ensures var g := AfterQueue(f, j); Conserved(g.scheduled, g.pending, g.inFlight, g.completed)
  {
    EnqueuedIds(f.pending, j);
  }

  lemma ListedKeepsWork(f: Floor, job: Job)
    requires NothingForgotten(f) && Spent(f) && RunningAreDriven(f) && f.phases.Keys == f.inFlight
    requires job in f.inFlight && f.phases[job].Listed? && f.phases[job].jobs != []
    ensures NothingForgotten(AfterListed(f, job)) && Spent(AfterListed(f, job)) && RunningAreDriven(AfterListed(f, job))
  {
    hide RootOf, CanStart;
    var g, jobs := AfterListed(f, job), f.phases[job].jobs;
    forall x | CanStart(f.board, x) ensures Remembered(g, x, RootOf(f.board, x)) {
      if x in f.scheduled {
      } else if IsListed(f, x) {
        var j :| j in f.inFlight && j in f.phases && f.phases[j].Listed? && x in PendingIds(f.phases[j].jobs);
        if j == job { ListedOrNext(jobs, x); }
        assert j in g.inFlight && g.phases[j].Listed?;
      } else if RootOf(f.board, x) !in f.submitted {
        var j :| j in f.inFlight && j.group == RootOf(f.board, x) && j in f.phases && f.phases[j].WillFeed();
        assert j in g.inFlight && g.phases[j].WillFeed();
      }
    }
    forall x | IsDriven(f, x) ensures IsDriven(g, x) {
      var j :| j in f.inFlight && j.execution == x && j in f.phases && f.phases[j].Driving?;
      assert j in g.inFlight && g.phases[j].Driving?;
    }
  }

  lemma ListedOrNext(jobs: seq<Job>, x: ExecutionId)
    requires jobs != [] && x in PendingIds(jobs)
    ensures x == jobs[0].execution || x in PendingIds(jobs[1..])
  {
    var i :| 0 <= i < |jobs| && jobs[i].execution == x;
    assert i > 0 ==> jobs[1..][i - 1] == jobs[i];
  }

  lemma ListedKeepsWatch(f: Floor, job: Job)
    requires Watched(f) && HeldForAReason(f) && SubmittedAreNew(f) && ObstructionsKnown(f) && f.phases.Keys == f.inFlight
    requires job in f.inFlight && f.phases[job].Listed? && f.phases[job].jobs != [] && f.phases[job].jobs[0].group == job.group
    ensures var g := AfterListed(f, job); Watched(g) && HeldForAReason(g) && SubmittedAreNew(g) && ObstructionsKnown(g)
  {
    var g := AfterListed(f, job);
    hide Quiescent, Obstructed;
    assert job in InGroup(f.inFlight, job.group);
    forall t | HasPending(f.pending, t) ensures HasPending(g.pending, t) {
      var i :| 0 <= i < |f.pending| && f.pending[i].group == t;
      assert g.pending[i].group == t;
    }
    forall t | HasPending(g.pending, t) && t != job.group ensures HasPending(f.pending, t) {
      var i :| 0 <= i < |g.pending| && g.pending[i].group == t;
      assert i < |f.pending| && f.pending[i].group == t;
    }
    hide InGroup, HasPending;
    forall t | InGroup(g.inFlight, t) != {} && Quiescent(g.board, t) ensures WillBeNoticed(g, t) {
      if Watching(f, t) {
        var j :| j in f.inFlight && j.group == t && j in f.phases && f.phases[j] != Checked(false);
        assert j in g.inFlight && g.phases[j] != Checked(false);
      }
    }
  }

  function AfterHandBack(f: Floor, job: Job, release: bool, released: bool): Floor {
    f.(inFlight := f.inFlight - {job},
       completed := f.completed + {job},
       activeSessions := if released then f.activeSessions - {job.session} else f.activeSessions,
       releasing := f.releasing + (if release then {job.group} else {}) - (if released then {job.group} else {}),
       phases := f.phases - {job})
  }

  /** Whether the completion of a job frees the session of its tree. */
  ghost predicate Releases(f: Floor, job: Job, release: bool) {
    (release || job.group in f.releasing) && InGroup(f.inFlight - {job}, job.group) == {} && !HasPending(f.pending, job.group)
  }

  lemma HandBackKeepsOrder(f: Floor, job: Job, release: bool)
    requires Orderly(f) && job in f.inFlight && f.phases[job] == Checked(release)
    ensures Orderly(AfterHandBack(f, job, release, Releases(f, job, release)))
  {
    hide BoardInv, Conserved, Exclusive, Awaiting, OneSessionPerTree, JobsKnown, SessionsKnown, NothingForgotten, Spent, Watched, HeldForAReason,
      RunningAreDriven, SubmittedAreNew, ObstructionsKnown, Releases;
    CompletionConserves(f.scheduled, f.pending, f.inFlight, f.completed, job);
    HandBackKeepsExclusive(f, job, release);
    HandBackKeepsWork(f, job, release);
    HandBackKeepsWatch(f, job, release);
    HandBackKeepsReasons(f, job, release);
    HandBackKeepsOthers(f, job, release);
  }

  lemma HandBackKeepsExclusive(f: Floor, job: Job, release: bool)
    requires Exclusive(f.activeSessions, f.inFlight) && job in f.inFlight
    ensures var g := AfterHandBack(f, job, release, Releases(f, job, release)); Exclusive(g.activeSessions, g.inFlight)
  {
    CompletionTakesNothing(f.activeSessions, f.inFlight, job);
    hide HasPending;
  }

  lemma HandBackKeepsWork(f: Floor, job: Job, release: bool)
    requires NothingForgotten(f) && RunningAreDriven(f) && f.phases.Keys == f.inFlight && job in f.inFlight && f.phases[job] == Checked(release)
    ensures var g := AfterHandBack(f, job, release, Releases(f, job, release)); NothingForgotten(g) && RunningAreDriven(g)
  {
    hide Releases, RootOf, CanStart;
    var g := AfterHandBack(f, job, release, Releases(f, job, release));
    forall x | CanStart(f.board, x) ensures Remembered(g, x, RootOf(f.board, x)) {
      if IsListed(f, x) {
        ListedStays(f, g, job, x);
      } else if x !in f.scheduled && RootOf(f.board, x) !in f.submitted {
        var j :| j in f.inFlight && j.group == RootOf(f.board, x) && j in f.phases && f.phases[j].WillFeed();
        assert j in g.inFlight && g.phases[j].WillFeed();
      }
    }
    forall x | IsDriven(f, x) ensures IsDriven(g, x) {
      var j :| j in f.inFlight && j.execution == x && j in f.phases && f.phases[j].Driving?;
      assert j in g.inFlight && g.phases[j].Driving?;
    }
  }

  /** The end of a tree is marked for release by the last worker to look. */
  lemma HandBackKeepsWatch(f: Floor, job: Job, release: bool)
    requires Watched(f) && f.phases.Keys == f.inFlight && job in f.inFlight && f.phases[job] == Checked(release)
    ensures Watched(AfterHandBack(f, job, release, Releases(f, job, release)))
  {
    var g := AfterHandBack(f, job, release, Releases(f, job, release));
    hide Quiescent, HasPending;
    forall t | InGroup(g.inFlight, t) != {} && Quiescent(g.board, t) ensures WillBeNoticed(g, t) {
      var k :| k in InGroup(g.inFlight, t);
      assert k in InGroup(f.inFlight, t);
      if t !in g.releasing && !HasPending(f.pending, t) && t !in f.obstructed {
        assert t !in f.releasing && Watching(f, t);
        var j :| j in f.inFlight && j.group == t && j in f.phases && f.phases[j] != Checked(false);
        assert j != job;
        assert j in g.inFlight && g.phases[j] != Checked(false);
      }
    }
  }

  /** Freeing a session leaves no other session to the tree, and a tree that keeps its session has work or is obstructed. */
  lemma HandBackKeepsReasons(f: Floor, job: Job, release: bool)
    requires Orderly(f) && job in f.inFlight && f.phases[job] == Checked(release)
    ensures HeldForAReason(AfterHandBack(f, job, release, Releases(f, job, release)))
  {
    var g := AfterHandBack(f, job, release, Releases(f, job, release));
    hide BoardInv, RootOf, Blocked, Quiescent, Conserved, Awaiting, OneSessionPerTree, Obstructed, HasPending, JobsKnown, NothingForgotten,
      RunningAreDriven;
    assert JobKnown(f.board, job) by { JobIsKnown(f, job); }
    RootIsKnown(f, job);
    forall s | s in g.activeSessions
      ensures var t := g.activeSessions[s]; InGroup(g.inFlight, t) != {} || HasPending(g.pending, t) || t in g.obstructed
    {
      var t := g.activeSessions[s];
      assert s in f.activeSessions && f.activeSessions[s] == t;
      if t != job.group {
        if InGroup(f.inFlight, t) != {} {
          var j :| j in InGroup(f.inFlight, t);
          assert j in InGroup(g.inFlight, t);
        }
      } else if InGroup(g.inFlight, t) == {} && !HasPending(f.pending, t) && t !in f.obstructed {
        assert s == job.session;
        LastJobLeavesWork(f, job);
      }
    }
  }

  lemma JobIsKnown(f: Floor, job: Job)
    requires JobsKnown(f) && (job in f.inFlight || job in f.completed)
    ensures JobKnown(f.board, job)
  {
  }

  lemma LastJobLeavesWork(f: Floor, job: Job)
    requires Orderly(f) && job in f.inFlight && f.phases[job] == Checked(false) && job.group !in f.releasing
    requires InGroup(f.inFlight - {job}, job.group) == {} && job.group !in f.obstructed
    ensures HasPending(f.pending, job.group)
  {
    hide BoardInv, RootOf, Blocked, Quiescent, Conserved, Awaiting, OneSessionPerTree, Obstructed, HasPending, HasWork, Spent, RunningAreDriven,
      NothingForgotten, SessionsKnown;
    JobIsKnown(f, job);
    assert forall j :: j in f.inFlight && j != job ==> j in InGroup(f.inFlight - {job}, j.group);
    assert job in InGroup(f.inFlight, job.group);
    assert !Watching(f, job.group);
    if !HasPending(f.pending, job.group) {
      assert !Quiescent(f.board, job.group) && !Obstructed(f.board, job.group);
      UnrestHasWork(f.board, job.group);
      WorkIsPending(f, job.group);
    }
  }

  lemma HandBackKeepsOthers(f: Floor, job: Job, release: bool)
    requires JobsKnown(f) && SessionsKnown(f) && ListingsKnown(f) && Spent(f) && SubmittedAreNew(f) && ObstructionsKnown(f)
    requires f.phases.Keys == f.inFlight && job in f.inFlight && f.phases[job] == Checked(release)
    ensures var g := AfterHandBack(f, job, release, Releases(f, job, release));
      ListingsKnown(g) && JobsKnown(g) && SessionsKnown(g) && Spent(g) && SubmittedAreNew(g) && ObstructionsKnown(g)
  {
    hide CanStart, Obstructed, HasPending, JobKnown, Releases;
  }

  // ---------------------------------------------------------------------------
  // Steps of the runtime
  // ---------------------------------------------------------------------------

  /** What lies outside the tree of `g` is the same in `c`. */
  ghost predicate SameElsewhere(b: Board, c: Board, g: ExecutionId) {
    && (forall x :: x in c.executions && RootOf(c, x) != g ==> x in b.executions && c.executions[x] == b.executions[x])
    && (forall x :: x in b.executions ==> x in c.executions && RootOf(c, x) == RootOf(b, x) && SameIdentity(b.executions[x], c.executions[x]))
  }

  lemma SweptIsSameElsewhere(b: Board, c: Board, g: ExecutionId)
    requires Lineage(b) && Evolves(b, c) && OnlyInTree(b, c, g)
    ensures SameElsewhere(b, c, g)
  {
    forall x | x in b.executions ensures RootOf(c, x) == RootOf(b, x) { SubtreeStable(b, c, x, x); }
    hide Lineage, RootOf;
  }

  lemma {:induction false} BlockedElsewhere(b: Board, c: Board, g: ExecutionId, x: ExecutionId)
    requires Lineage(b) && Lineage(c) && SameElsewhere(b, c, g) && x in b.executions && RootOf(b, x) != g
    ensures Blocked(c, x) <==> Blocked(b, x)
    decreases x
  {
    BlockedByParent(b, x);
    BlockedByParent(c, x);
    if b.executions[x].summary.parent.Some? { BlockedElsewhere(b, c, g, b.executions[x].summary.parent.value); }
  }

  ghost predicate Belongs(b: Board, t: ExecutionId, x: ExecutionId) {
    x in b.executions && RootOf(b, x) == t
  }

  /** The members of another tree and what is known of them. */
  lemma MembersElsewhere(b: Board, c: Board, g: ExecutionId, t: ExecutionId)
    requires Lineage(b) && Lineage(c) && SameElsewhere(b, c, g) && t != g
    ensures forall x :: Belongs(c, t, x) <==> Belongs(b, t, x)
    ensures forall x :: Belongs(b, t, x) ==> x in b.executions && x in c.executions && c.executions[x] == b.executions[x]
    ensures forall x :: Belongs(b, t, x) ==> (Blocked(c, x) <==> Blocked(b, x))
  {
    forall x | Belongs(b, t, x) ensures Blocked(c, x) <==> Blocked(b, x) { BlockedElsewhere(b, c, g, x); }
    hide RootOf, Blocked, Lineage;
  }

  /** Other trees come to rest as before. */
  lemma RestElsewhere(b: Board, c: Board, g: ExecutionId, t: ExecutionId)
    requires Lineage(b) && Lineage(c) && SameElsewhere(b, c, g) && t != g
    ensures Quiescent(c, t) <==> Quiescent(b, t)
  {
    MembersElsewhere(b, c, g, t);
    RestByMembers(b, t);
    RestByMembers(c, t);
    hide RootOf, Blocked, Lineage, SameElsewhere, Quiescent, Belongs;
  }

  lemma RestByMembers(b: Board, t: ExecutionId)
    ensures Quiescent(b, t) <==>
      && (exists x :: Belongs(b, t, x))
      && (forall x :: Belongs(b, t, x) ==> !InState(b, x, Running) && !CanStart(b, x))
  {
    hide RootOf, Blocked;
    assert forall x :: Belongs(b, t, x) <==> x in b.executions && RootOf(b, x) == t;
    assert forall x :: Belongs(b, t, x) ==> (Runnable(b, t, x) <==> CanStart(b, x));
    if Quiescent(b, t) {
      var x :| x in b.executions && RootOf(b, x) == t;
      assert Belongs(b, t, x);
    }
  }

  /** What is blocked stays blocked. */
  lemma {:induction false} BlockedForGood(b: Board, c: Board, x: ExecutionId)
    requires Lineage(b) && Lineage(c) && Evolves(b, c) && x in b.executions && Blocked(b, x)
    ensures Blocked(c, x)
    decreases x
  {
    BlockedByParent(b, x);
    BlockedByParent(c, x);
    if Blocked(b, b.executions[x].summary.parent.value) { BlockedForGood(b, c, b.executions[x].summary.parent.value); }
  }

  /** A cascade makes no known agent or root ready. */
  lemma CouldStartBefore(b: Board, c: Board, x: ExecutionId)
    requires Lineage(b) && Lineage(c) && Evolves(b, c) && AgentsKept(b, c) && Awaiting(c)
    requires x in b.executions && CanStart(c, x)
    ensures CanStart(b, x)
  {
    if Blocked(b, x) { BlockedForGood(b, c, x); }
    assert !LiveOrchestration(c, x);
    hide Blocked, Lineage;
  }

  lemma JobsStayKnown(f: Floor, c: Board)
    requires Lineage(f.board) && Evolves(f.board, c) && JobsKnown(f) && SessionsKnown(f) && ListingsKnown(f)
    ensures JobsKnown(OnBoard(f, c)) && SessionsKnown(OnBoard(f, c)) && ListingsKnown(OnBoard(f, c))
  {
    forall j | JobKnown(f.board, j) ensures JobKnown(c, j) { SubtreeStable(f.board, c, j.execution, j.execution); }
    hide Lineage, RootOf;
  }

  ghost function OnBoard(f: Floor, board: Board): Floor {
    f.(board := board, obstructed := f.obstructed + ObstructedTrees(board))
  }

  ghost function AfterStep(f: Floor, board: Board, job: Job, phase: Phase): Floor {
    OnBoard(f, board).(phases := f.phases[job := phase])
  }

  /** What was done for the job, within its tree, started no agent or root. */
  ghost predicate Acts(f: Floor, c: Board, job: Job) {
    && BoardInv(c) && OneSessionPerTree(c) && Awaiting(c)
    && Within(f.board, c, job.group)
  }

  lemma ActsEvolves(f: Floor, c: Board, job: Job)
    requires Acts(f, c, job)
    ensures Evolves(f.board, c)
  {
  }

  /** An execution that is being driven may do what it likes within its tree. */
  lemma ActKeepsOrder(f: Floor, c: Board, job: Job)
    requires Orderly(f) && job in f.inFlight && f.phases[job].Driving? && Acts(f, c, job)
    ensures Orderly(AfterStep(f, c, job, Driving))
  {
    hide BoardInv, Conserved, Exclusive, Awaiting, OneSessionPerTree, NothingForgotten, Spent, Watched, HeldForAReason, RunningAreDriven,
      SubmittedAreNew, Evolves, OnlyInTree, AgentsKept, Lineage, Sequenced, RootOf;
    BoardFacts(f.board);
    JobsStayKnown(f, c);
    StepKeepsFeeding(f, c, job, Driving);
    StepKeepsDriving(f, c, job, Driving);
    StepKeepsWatch(f, c, job, Driving);
  }

  /** Driving its execution to an end leaves a worker's tree with what the end made ready, which the worker will feed. */
  lemma EndKeepsOrder(f: Floor, c: Board, job: Job)
    requires Orderly(f) && job in f.inFlight && (f.phases[job].Taken? || f.phases[job].Driving?)
    requires Acts(f, c, job) && !IsLive(c, job.execution)
    ensures Orderly(AfterStep(f, c, job, Driven))
  {
    hide BoardInv, Conserved, Exclusive, Awaiting, OneSessionPerTree, NothingForgotten, Spent, Watched, HeldForAReason, RunningAreDriven,
      SubmittedAreNew, Evolves, OnlyInTree, AgentsKept, IsLive, Lineage, Sequenced, RootOf;
    BoardFacts(f.board);
    JobsStayKnown(f, c);
    StepKeepsFeeding(f, c, job, Driven);
    StepKeepsDriving(f, c, job, Driven);
    StepKeepsWatch(f, c, job, Driven);
  }

  /** The job goes on being driven, or its execution has ended. */
  ghost predicate GoesOn(f: Floor, c: Board, job: Job, phase: Phase) {
    && job in f.inFlight && job in f.phases && (f.phases[job].Taken? || f.phases[job].Driving?)
    && if phase.Driven? then !IsLive(c, job.execution) else phase.Driving? && f.phases[job].Driving?
  }

  lemma StepKeepsDriving(f: Floor, c: Board, job: Job, phase: Phase)
    requires RunningAreDriven(f) && Within(f.board, c, job.group) && GoesOn(f, c, job, phase)
    ensures RunningAreDriven(AfterStep(f, c, job, phase))
  {
    var g := AfterStep(f, c, job, phase);
    hide Evolves, AgentsKept, OnlyInTree;
    forall x | InState(c, x, Running) && !IsOrchestration(c, x) ensures IsDriven(g, x) {
      RunningBefore(f.board, c, x);
      assert IsDriven(f, x);
      var j :| j in f.inFlight && j.execution == x && j in f.phases && f.phases[j].Driving?;
      assert j in g.inFlight && g.phases[j].Driving?;
    }
  }

  lemma RunningBefore(b: Board, c: Board, x: ExecutionId)
    requires Evolves(b, c) && AgentsKept(b, c) && InState(c, x, Running) && !IsOrchestration(c, x)
    ensures InState(b, x, Running) && !IsOrchestration(b, x)
  {
  }

  /** What can start after a step for the job could start before, or is new in its tree. */
  lemma StepStarts(f: Floor, c: Board, job: Job)
    requires BoardInv(f.board) && Acts(f, c, job)
    ensures forall x :: InState(c, x, Pending) && x in f.board.executions && !IsOrchestration(f.board, x) ==> InState(f.board, x, Pending)
    ensures forall x :: CanStart(c, x) && x in f.board.executions ==> CanStart(f.board, x) && RootOf(c, x) == RootOf(f.board, x)
    ensures forall x :: CanStart(c, x) && x !in f.board.executions ==> RootOf(c, x) == job.group
  {
    hide BoardInv, RootOf, Blocked, Evolves, Lineage, Sequenced, OneSessionPerTree, Awaiting;
    BoardFacts(f.board);
    BoardFacts(c);
    forall x | CanStart(c, x) && x in f.board.executions ensures CanStart(f.board, x) && RootOf(c, x) == RootOf(f.board, x) {
      CouldStartBefore(f.board, c, x);
      SubtreeStable(f.board, c, x, x);
    }
    KindsStay(f.board, c);
  }

  lemma KindsStay(b: Board, c: Board)
    requires Evolves(b, c)
    ensures forall x :: x in b.executions ==> (IsOrchestration(c, x) <==> IsOrchestration(b, x))
  {
  }

  lemma StepKeepsFeeding(f: Floor, c: Board, job: Job, phase: Phase)
    requires BoardInv(f.board) && JobsKnown(f) && NothingForgotten(f) && Spent(f) && f.phases.Keys == f.inFlight
    requires Acts(f, c, job) && GoesOn(f, c, job, phase)
    ensures NothingForgotten(AfterStep(f, c, job, phase)) && Spent(AfterStep(f, c, job, phase))
  {
    hide BoardInv, RootOf, Acts, CanStart, JobKnown;
    var g := AfterStep(f, c, job, phase);
    StepStarts(f, c, job);
    forall x | CanStart(c, x) ensures Remembered(g, x, RootOf(c, x)) {
      if RootOf(c, x) == job.group {
        assert job in g.inFlight && g.phases[job].WillFeed();
      } else if IsListed(f, x) {
        ListedStays(f, g, job, x);
      } else if x !in f.scheduled && RootOf(f.board, x) !in f.submitted {
        var j :| j in f.inFlight && j.group == RootOf(f.board, x) && j in f.phases && f.phases[j].WillFeed();
        assert j in g.inFlight && g.phases[j].WillFeed();
      }
    }
    forall j | j in f.inFlight || j in f.completed ensures j.execution in f.board.executions && !IsOrchestration(f.board, j.execution) {
      JobIsKnown(f, j);
      KnownIsThere(f.board, j);
    }
    OnlyLiveCanStart(c, job.execution);
  }

  lemma OnlyLiveCanStart(b: Board, x: ExecutionId)
    ensures CanStart(b, x) ==> IsLive(b, x)
  {
  }

  lemma KnownIsThere(b: Board, j: Job)
    requires JobKnown(b, j)
    ensures j.execution in b.executions && !IsOrchestration(b, j.execution)
  {
  }

  lemma StartableIsThere(b: Board)
    ensures forall x :: CanStart(b, x) ==> x in b.executions
  {
  }

  /** A step that leaves other trees alone, by a worker that has yet to look at its own. */
  lemma StepKeepsWatch(f: Floor, c: Board, job: Job, phase: Phase)
    requires BoardInv(f.board) && Watched(f) && HeldForAReason(f) && SubmittedAreNew(f) && f.phases.Keys == f.inFlight
    requires job in f.inFlight && !phase.Checked? && BoardInv(c) && Evolves(f.board, c) && OnlyInTree(f.board, c, job.group)
    ensures Watched(AfterStep(f, c, job, phase)) && HeldForAReason(AfterStep(f, c, job, phase)) && SubmittedAreNew(AfterStep(f, c, job, phase))
    ensures ObstructionsKnown(AfterStep(f, c, job, phase))
  {
    hide BoardInv, Quiescent, Evolves, OnlyInTree, Lineage, Sequenced, Obstructed, HasPending, SameElsewhere, ObstructedTrees;
    var g := AfterStep(f, c, job, phase);
    BoardFacts(f.board);
    BoardFacts(c);
    SweptIsSameElsewhere(f.board, c, job.group);
    forall t | t != job.group ensures Quiescent(c, t) <==> Quiescent(f.board, t) { RestElsewhere(f.board, c, job.group, t); }
    ObstructionsSeen(c);
    assert job in InGroup(g.inFlight, job.group);
    forall t | InGroup(g.inFlight, t) != {} && Quiescent(g.board, t) ensures WillBeNoticed(g, t) {
      if t == job.group {
        assert job in g.inFlight && g.phases[job] != Checked(false);
      } else if Watching(f, t) {
        var j :| j in f.inFlight && j.group == t && j in f.phases && f.phases[j] != Checked(false);
        assert j in g.inFlight && g.phases[j] != Checked(false);
      }
    }
  }

  /** The board once the execution of the job runs. */
  ghost function Begun(f: Floor, job: Job): Floor
    requires job.execution in f.board.executions
  {
    AfterStep(f, WithState(f.board, job.execution, Running), job, Driving)
  }

  lemma BeginKeepsOrder(f: Floor, job: Job)
    requires Orderly(f) && job in f.inFlight && f.phases[job].Taken? && InState(f.board, job.execution, Pending)
    requires Awaiting(WithState(f.board, job.execution, Running))
    ensures Orderly(Begun(f, job))
  {
    hide BoardInv, Conserved, Exclusive, Awaiting, OneSessionPerTree, NothingForgotten, Spent, Watched, HeldForAReason, SubmittedAreNew, Evolves,
      OnlyInTree, RunningAreDriven, WithState, Lineage, Sequenced, RootOf;
    var c := WithState(f.board, job.execution, Running);
    JobIsKnown(f, job);
    BeginFacts(f.board, job.execution);
    BoardFacts(f.board);
    JobsStayKnown(f, c);
    StepKeepsWatch(f, c, job, Driving);
    BeginKeepsFeeding(f, job);
  }

  lemma BeginFacts(b: Board, x: ExecutionId)
    requires BoardInv(b) && OneSessionPerTree(b) && InState(b, x, Pending)
    ensures var c := WithState(b, x, Running);
      BoardInv(c) && Evolves(b, c) && OnlyInTree(b, c, RootOf(b, x)) && OneSessionPerTree(c)
  {
    StateChangeKeepsSound(b, x, Running);
    hide BoardInv, Evolves, RootOf;
  }

  /** Only the execution that begins changes its mind about starting. */
  lemma BeginStarts(b: Board, x: ExecutionId)
    requires BoardInv(b) && InState(b, x, Pending)
    ensures forall y :: CanStart(WithState(b, x, Running), y) ==> CanStart(b, y) && RootOf(WithState(b, x, Running), y) == RootOf(b, y)
    ensures !CanStart(WithState(b, x, Running), x)
    ensures forall y :: InState(WithState(b, x, Running), y, Pending) ==> InState(b, y, Pending) && y != x
    ensures forall y :: InState(WithState(b, x, Running), y, Running) && y != x ==> InState(b, y, Running)
    ensures forall y :: IsOrchestration(WithState(b, x, Running), y) <==> IsOrchestration(b, y)
  {
    var c := WithState(b, x, Running);
    StateChangeKeepsSound(b, x, Running);
    BoardFacts(b);
    BoardFacts(c);
    hide BoardInv;
    forall y | CanStart(c, y) ensures CanStart(b, y) && RootOf(c, y) == RootOf(b, y) {
      if Blocked(b, y) { BlockedForGood(b, c, y); }
      SubtreeStable(b, c, y, y);
    }
  }

  lemma BeginKeepsFeeding(f: Floor, job: Job)
    requires BoardInv(f.board) && JobsKnown(f) && NothingForgotten(f) && Spent(f) && RunningAreDriven(f) && f.phases.Keys == f.inFlight
    requires job in f.inFlight && f.phases[job].Taken? && InState(f.board, job.execution, Pending)
    ensures NothingForgotten(Begun(f, job)) && Spent(Begun(f, job)) && RunningAreDriven(Begun(f, job))
  {
    hide BoardInv, RootOf, Blocked, JobsKnown, CanStart, WithState;
    var b, c, g := f.board, WithState(f.board, job.execution, Running), Begun(f, job);
    BeginStarts(b, job.execution);
    forall x | CanStart(c, x) ensures Remembered(g, x, RootOf(c, x)) {
      if IsListed(f, x) {
        ListedStays(f, g, job, x);
      } else if x !in f.scheduled && RootOf(b, x) !in f.submitted {
        var j :| j in f.inFlight && j.group == RootOf(b, x) && j in f.phases && f.phases[j].WillFeed();
        assert j in g.inFlight && g.phases[j].WillFeed();
      }
    }
    forall x | InState(c, x, Running) && !IsOrchestration(c, x) ensures IsDriven(g, x) {
      if x == job.execution {
        assert job in g.inFlight && g.phases[job].Driving?;
      } else {
        assert IsDriven(f, x);
        var j :| j in f.inFlight && j.execution == x && j in f.phases && f.phases[j].Driving?;
        assert j in g.inFlight && g.phases[j].Driving?;
      }
    }
  }

  ghost function Opened(f: Floor, c: Board, x: ExecutionId): Floor {
    OnBoard(f, c).(submitted := f.submitted + {x})
  }

  lemma OpeningEvolves(b: Board, c: Board, root: ExecutionId)
    requires OpensTree(b, c, root)
    ensures Evolves(b, c)
  {
  }

  lemma OpenKeepsOrder(f: Floor, c: Board, x: ExecutionId)
    requires Orderly(f) && OpensTree(f.board, c, x) && BoardInv(c) && OneSessionPerTree(c) && Awaiting(c)
    ensures Orderly(Opened(f, c, x))
  {
    hide BoardInv, Conserved, Exclusive, Awaiting, OneSessionPerTree, JobKnown, NothingForgotten, Spent, Watched, HeldForAReason, SubmittedAreNew,
      Evolves, RunningAreDriven, OpensTree, Lineage, Sequenced;
    BoardFacts(f.board);
    BoardFacts(c);
    OpeningEvolves(f.board, c, x);
    JobsStayKnown(f, c);
    OpenKeepsFeeding(f, c, x);
    OpenKeepsWatch(f, c, x);
  }

  lemma OpenKeepsFeeding(f: Floor, c: Board, x: ExecutionId)
    requires BoardInv(f.board) && JobsKnown(f) && NothingForgotten(f) && Spent(f) && RunningAreDriven(f)
    requires OpensTree(f.board, c, x) && BoardInv(c) && Awaiting(c)
    ensures NothingForgotten(Opened(f, c, x)) && Spent(Opened(f, c, x)) && RunningAreDriven(Opened(f, c, x))
  {
    var b, g := f.board, Opened(f, c, x);
    BoardFacts(b);
    BoardFacts(c);
    forall y | y in b.executions ensures RootOf(c, y) == RootOf(b, y) { SubtreeStable(b, c, y, y); }
    hide BoardInv, RootOf, Blocked, CanStart, Lineage, Sequenced, Awaiting;
    forall y | CanStart(c, y) && y in b.executions ensures CanStart(b, y) { CouldStartBefore(b, c, y); }
    StartableIsThere(c);
    forall y | CanStart(c, y) ensures Remembered(g, y, RootOf(c, y)) {
      if y in b.executions {
        assert Remembered(f, y, RootOf(b, y));
        assert IsListed(f, y) ==> IsListed(g, y);
      }
    }
    forall y | InState(c, y, Running) && !IsOrchestration(c, y) ensures IsDriven(g, y) {
      RunningBefore(b, c, y);
      assert IsDriven(f, y);
    }
    forall j | j in f.inFlight || j in f.completed ensures j.execution in b.executions { JobIsKnown(f, j); }
  }

  lemma OpenKeepsWatch(f: Floor, c: Board, x: ExecutionId)
    requires BoardInv(f.board) && OneSessionPerTree(f.board) && JobsKnown(f) && SessionsKnown(f)
    requires Watched(f) && HeldForAReason(f) && SubmittedAreNew(f) && OpensTree(f.board, c, x) && BoardInv(c)
    ensures Watched(Opened(f, c, x)) && HeldForAReason(Opened(f, c, x)) && SubmittedAreNew(Opened(f, c, x)) && ObstructionsKnown(Opened(f, c, x))
  {
    hide BoardInv, RootOf, Blocked, Quiescent, Obstructed, JobsKnown, SameElsewhere, OpensTree, OneSessionPerTree, HasPending, ObstructedTrees;
    var b, g := f.board, Opened(f, c, x);
    OpenElsewhere(b, c, x);
    OpenedIsNew(f, c, x);
    ObstructionsSeen(c);
    forall t | InGroup(g.inFlight, t) != {} && Quiescent(g.board, t) ensures WillBeNoticed(g, t) {
      var k :| k in InGroup(g.inFlight, t);
      assert t != x && WillBeNoticed(f, t);
    }
    assert InGroup(f.inFlight, x) == {};
  }

  lemma OpenElsewhere(b: Board, c: Board, x: ExecutionId)
    requires BoardInv(b) && BoardInv(c) && OpensTree(b, c, x)
    ensures forall t :: t != x ==> (Quiescent(c, t) <==> Quiescent(b, t))
    ensures forall t :: t in b.executions ==> t != x && t in c.executions
  {
    BoardFacts(b);
    BoardFacts(c);
    hide BoardInv, RootOf, Blocked, Quiescent, Obstructed, Lineage, Sequenced, Evolves, AgentsKept, SameElsewhere;
    SweptIsSameElsewhere(b, c, x);
    forall t | t != x ensures Quiescent(c, t) <==> Quiescent(b, t) { RestElsewhere(b, c, x, t); }
  }

  lemma OpenedIsNew(f: Floor, c: Board, x: ExecutionId)
    requires BoardInv(f.board) && OneSessionPerTree(f.board) && JobsKnown(f) && OpensTree(f.board, c, x)
    ensures forall j :: j in f.inFlight ==> j.group != x
    ensures !HasPending(f.pending, x)
  {
    forall j | j in f.inFlight || j in f.pending ensures j.group != x {
      assert JobKnown(f.board, j);
      RootIsKnown(f, j);
    }
    hide BoardInv, OneSessionPerTree, JobKnown, OpensTree;
    forall i | 0 <= i < |f.pending| ensures f.pending[i].group != x { assert f.pending[i] in f.pending; }
  }

  /** While jobs of a tree are in flight, its end will be noticed whenever it comes. */
  lemma EndWillBeNoticed(f: Floor, g: ExecutionId)
    requires Orderly(f) && InGroup(f.inFlight, g) != {}
    ensures WillBeNoticed(f, g)
  {
    hide BoardInv, RootOf, Blocked, Quiescent, Conserved, Awaiting, OneSessionPerTree, Obstructed, HasPending, HasWork, SessionsKnown,
      HeldForAReason, JobKnown;
    if !Quiescent(f.board, g) && g !in f.obstructed {
      var job :| job in InGroup(f.inFlight, g);
      JobIsKnown(f, job);
      assert job.execution in f.board.executions && RootOf(f.board, job.execution) == g by { KnownIsMember(f.board, job); }
      UnrestHasWork(f.board, g);
      WorkIsNoticed(f, g);
    }
  }

  lemma KnownIsMember(b: Board, j: Job)
    requires JobKnown(b, j)
    ensures j.execution in b.executions && RootOf(b, j.execution) == j.group
  {
  }

  lemma WorkIsNoticed(f: Floor, g: ExecutionId)
    requires Orderly(f) && InGroup(f.inFlight, g) != {} && HasWork(f.board, g)
    ensures Watching(f, g) || HasPending(f.pending, g)
  {
    hide BoardInv, RootOf, Blocked, Quiescent, Conserved, Awaiting, OneSessionPerTree, Obstructed, HasPending, HasWork, SessionsKnown,
      HeldForAReason, RunningAreDriven, Spent, NothingForgotten;
    if !Watching(f, g) {
      assert forall j :: j in f.inFlight && j.group == g && j in f.phases ==> f.phases[j] == Checked(false);
      assert !WillBeFed(f, g);
      WorkIsPending(f, g);
    }
  }

  /** Cancelling disturbs nobody: what it ends will be noticed. */
  lemma CancelKeepsOrder(f: Floor, c: Board, root: ExecutionId)
    requires Orderly(f) && BoardInv(c) && OneSessionPerTree(c) && Awaiting(c)
    requires Evolves(f.board, c) && OnlyInTree(f.board, c, root) && AgentsKept(f.board, c) && StartsNothing(f.board, c)
    ensures Orderly(OnBoard(f, c))
  {
    hide BoardInv, Conserved, Exclusive, Awaiting, OneSessionPerTree, NothingForgotten, Spent, Watched, HeldForAReason, RunningAreDriven,
      SubmittedAreNew, Evolves, OnlyInTree, AgentsKept, Lineage, Sequenced, RootOf, StartsNothing, Quiescent, Obstructed;
    BoardFacts(f.board);
    JobsStayKnown(f, c);
    CancelKeepsFeeding(f, c, root);
    CancelKeepsWatch(f, c);
    ObstructionsSeen(c);
  }

  lemma CancelKeepsFeeding(f: Floor, c: Board, root: ExecutionId)
    requires BoardInv(f.board) && JobsKnown(f) && NothingForgotten(f) && Spent(f) && RunningAreDriven(f)
    requires BoardInv(c) && Awaiting(c) && Evolves(f.board, c) && AgentsKept(f.board, c) && StartsNothing(f.board, c)
    ensures NothingForgotten(OnBoard(f, c)) && Spent(OnBoard(f, c)) && RunningAreDriven(OnBoard(f, c))
  {
    hide BoardInv, RootOf, CanStart, JobKnown, ObstructedTrees;
    CancelStarts(f.board, c);
    forall x | CanStart(c, x) ensures Remembered(OnBoard(f, c), x, RootOf(c, x)) {
      assert Remembered(f, x, RootOf(f.board, x));
      assert IsListed(f, x) ==> IsListed(OnBoard(f, c), x);
    }
    assert forall x :: IsDriven(f, x) <==> IsDriven(OnBoard(f, c), x);
    forall j | j in f.inFlight || j in f.completed ensures j.execution in f.board.executions && !IsOrchestration(f.board, j.execution) {
      JobIsKnown(f, j);
      KnownIsThere(f.board, j);
    }
  }

  lemma CancelStarts(b: Board, c: Board)
    requires BoardInv(b) && BoardInv(c) && Awaiting(c) && Evolves(b, c) && AgentsKept(b, c) && StartsNothing(b, c)
    ensures forall x :: CanStart(c, x) ==> CanStart(b, x) && RootOf(c, x) == RootOf(b, x)
    ensures forall x :: InState(c, x, Pending) && !IsOrchestration(b, x) ==> InState(b, x, Pending)
    ensures forall x :: InState(c, x, Running) && !IsOrchestration(c, x) ==> InState(b, x, Running) && !IsOrchestration(b, x)
  {
    BoardFacts(b);
    BoardFacts(c);
    hide BoardInv, RootOf, Blocked, Lineage;
    assert forall x :: x in c.executions ==> x in b.executions;
    forall x | CanStart(c, x) ensures CanStart(b, x) && RootOf(c, x) == RootOf(b, x) {
      CouldStartBefore(b, c, x);
      SubtreeStable(b, c, x, x);
    }
  }

  lemma CancelKeepsWatch(f: Floor, c: Board)
    requires Orderly(f)
    ensures Watched(OnBoard(f, c)) && HeldForAReason(OnBoard(f, c)) && SubmittedAreNew(OnBoard(f, c))
  {
    var g := OnBoard(f, c);
    hide BoardInv, RootOf, Quiescent, Conserved, Awaiting, OneSessionPerTree, Obstructed, ObstructedTrees, HasPending, JobsKnown, SessionsKnown,
      NothingForgotten, Spent, RunningAreDriven;
    forall t | InGroup(g.inFlight, t) != {} ensures WillBeNoticed(g, t) {
      EndWillBeNoticed(f, t);
      assert Watching(f, t) ==> Watching(g, t);
    }
  }

  // ---------------------------------------------------------------------------
  // When no worker is at work
  // ---------------------------------------------------------------------------

  /** Whatever can start is pending, agents and roots do not run, and live orchestrations have jobs pending or were obstructed. */
  lemma NothingIsLost(f: Floor)
    requires Orderly(f) && f.inFlight == {} && f.submitted == {}
    ensures forall x :: CanStart(f.board, x) ==> x in PendingIds(f.pending)
    ensures forall x :: InState(f.board, x, Running) ==> IsOrchestration(f.board, x)
    ensures forall o :: LiveOrchestration(f.board, o) ==> HasPending(f.pending, RootOf(f.board, o)) || RootOf(f.board, o) in f.obstructed
  {
    hide BoardInv, RootOf, Blocked, Awaiting, Obstructed, HasPending, JobsKnown, SessionsKnown, Watched, HeldForAReason, OneSessionPerTree;
    forall x | CanStart(f.board, x) ensures x in PendingIds(f.pending) {
      assert !WillBeFed(f, RootOf(f.board, x)) && !IsListed(f, x);
      assert x !in JobIds(f.completed);
    }
    assert forall x :: !IsDriven(f, x);
    forall o | LiveOrchestration(f.board, o) && RootOf(f.board, o) !in f.obstructed ensures HasPending(f.pending, RootOf(f.board, o)) {
      OrchestrationHasWork(f.board, o);
      WorkIsPending(f, RootOf(f.board, o));
    }
  }

  /** The session of the job is free or held by its tree. */
  predicate MayBeTaken(f: Floor, job: Job) {
    job.session in f.activeSessions ==> f.activeSessions[job.session] == job.group
  }
}
