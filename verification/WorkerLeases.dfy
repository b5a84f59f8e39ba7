/**
 Workers and the leases they hold: a worker takes a lease for the execution of
 its job and drops it before it hands the job back.  Since the queue hands out
 every execution at most once, no execution ever holds two leases.
 */
module WorkerLeases {
  import opened PhenixCore
  import opened ExecutionQueue
  import opened WorkerInvariants
  import opened WorkerRuns
  import opened WorkspaceLeases

  /** The workers' floor, the lease that each job holds, and what the lease manager records and has granted. */
  datatype Station = Station(floor: Floor, holding: map<Job, LeaseRequest>, workspaces: Workspaces, outstanding: Leases)

  datatype LeasingStep = Steps(step: PoolStep) | Acquires(job: Job, request: LeaseRequest) | Drops(job: Job)

  function Holders(holding: map<Job, LeaseRequest>, l: LeaseRequest): set<Job> {
    set j | j in holding && holding[j] == l
  }

  /** Jobs in flight hold leases for their own executions, and these are the leases that were granted. */
  ghost predicate HeldByJobs(s: Station) {
    && (forall j :: j in s.holding ==> j in s.floor.inFlight && s.holding[j].execution == j.execution)
    && (forall l :: s.outstanding[l] == |Holders(s.holding, l)|)
  }

  ghost predicate Leasing(s: Station) {
    Orderly(s.floor) && HeldByJobs(s) && Sound(s.workspaces, s.outstanding)
  }

  ghost predicate Follows(s: Station, t: Station, step: LeasingStep) {
    match step
    case Steps(p) =>
      Happens(s.floor, t.floor, p) && (p.HandBackJob? ==> p.job !in s.holding) && t == s.(floor := t.floor)
    case Acquires(job, request) =>
      && job in s.floor.inFlight && job !in s.holding && request.execution == job.execution
      && HoldersOf(s.workspaces, request.workspace).Permits(request.mode)
      && t == s.(holding := s.holding[job := request], workspaces := Acquired(s.workspaces, request),
                 outstanding := s.outstanding + multiset{request})
    case Drops(job) =>
      && job in s.holding
      && t == s.(holding := s.holding - {job}, workspaces := Released(s.workspaces, s.holding[job]),
                 outstanding := s.outstanding - multiset{s.holding[job]})
  }

  /** A lease is held by one job. */
  lemma HolderIsAlone(s: Station, j: Job)
    requires Orderly(s.floor) && HeldByJobs(s) && j in s.holding
    ensures Holders(s.holding, s.holding[j]) == {j} && s.outstanding[s.holding[j]] == 1
  {
    assert OneJobEach(s.floor.inFlight);
    hide Orderly;
    assert j in Holders(s.holding, s.holding[j]);
    forall k | k in Holders(s.holding, s.holding[j]) ensures k == j { assert k.execution == j.execution; }
    assert Holders(s.holding, s.holding[j]) == {j};
  }

  /** No execution holds two leases. */
  lemma JobsHoldOneLeaseEach(s: Station)
    requires Orderly(s.floor) && HeldByJobs(s)
    ensures OneLeaseEach(s.outstanding)
  {
    assert OneJobEach(s.floor.inFlight);
    hide Orderly;
    forall l, k | l in s.outstanding && k in s.outstanding && l.execution == k.execution ensures l == k && s.outstanding[l] == 1 {
      var i :| i in Holders(s.holding, l);
      var j :| j in Holders(s.holding, k);
      assert i == j;
      HolderIsAlone(s, i);
    }
  }

  lemma AcquiringAdds(holding: map<Job, LeaseRequest>, job: Job, request: LeaseRequest)
    requires job !in holding
    ensures forall l :: Holders(holding[job := request], l) == Holders(holding, l) + if l == request then {job} else {}
  {
  }

  lemma DroppingRemoves(holding: map<Job, LeaseRequest>, job: Job)
    requires job in holding
    ensures forall l :: Holders(holding - {job}, l) == Holders(holding, l) - {job}
    ensures forall l :: job in Holders(holding, l) <==> l == holding[job]
  {
  }

  lemma StepKeepsLeases(s: Station, t: Station, step: LeasingStep)
    requires Leasing(s) && Follows(s, t, step)
    ensures Leasing(t)
  {
    hide Orderly, Happens, Sound, HoldersOf, Acquired, Released, HeldByJobs;
    match step {
      case Steps(p) =>
        StepKeepsOrder(s.floor, t.floor, p);
        StepKeepsHolders(s, t, p);
      case Acquires(job, request) =>
        AcquiringKeepsHolders(s, t, job, request);
        AcquisitionKeepsRecord(s.workspaces, s.outstanding, request);
      case Drops(job) =>
        DroppingKeepsHolders(s, t, job);
        ReleaseIsAccurateForSingleLeases(s.workspaces, s.outstanding, s.holding[job]);
    }
  }

  lemma AcquiringKeepsHolders(s: Station, t: Station, job: Job, request: LeaseRequest)
    requires HeldByJobs(s) && Follows(s, t, Acquires(job, request))
    ensures HeldByJobs(t)
  {
    hide Holders, Acquired, HoldersOf, Orderly;
    AcquiringCounts(s.holding, s.outstanding, job, request);
  }

  lemma AcquiringCounts(holding: map<Job, LeaseRequest>, outstanding: Leases, job: Job, request: LeaseRequest)
    requires job !in holding && forall l :: outstanding[l] == |Holders(holding, l)|
    ensures forall l :: (outstanding + multiset{request})[l] == |Holders(holding[job := request], l)|
  {
    AcquiringAdds(holding, job, request);
    NotHolding(holding, job, request);
    hide Holders;
    forall l ensures (outstanding + multiset{request})[l] == |Holders(holding[job := request], l)| {
      if l != request { assert Holders(holding, l) + {} == Holders(holding, l); }
    }
  }

  lemma DroppingKeepsHolders(s: Station, t: Station, job: Job)
    requires Orderly(s.floor) && HeldByJobs(s) && Follows(s, t, Drops(job))
    ensures HeldByJobs(t) && s.holding[job] in s.outstanding && s.outstanding[s.holding[job]] == 1
  {
    hide Orderly, Holders, Released, Happens, Acquired, HoldersOf;
    HolderIsAlone(s, job);
    DroppingCounts(s.holding, s.outstanding, job);
  }

  lemma DroppingCounts(holding: map<Job, LeaseRequest>, outstanding: Leases, job: Job)
    requires job in holding && Holders(holding, holding[job]) == {job} && forall l :: outstanding[l] == |Holders(holding, l)|
    ensures forall l :: (outstanding - multiset{holding[job]})[l] == |Holders(holding - {job}, l)|
  {
    DroppingRemoves(holding, job);
    hide Holders;
    forall l ensures Holders(holding - {job}, l) == if l == holding[job] then {} else Holders(holding, l) {
      assert job in Holders(holding, l) <==> l == holding[job];
    }
  }

  lemma NotHolding(holding: map<Job, LeaseRequest>, job: Job, l: LeaseRequest)
    requires job !in holding
    ensures job !in Holders(holding, l)
  {
  }

  /** Only handing a job back takes it out of flight. */
  lemma StepKeepsHolders(s: Station, t: Station, p: PoolStep)
    requires HeldByJobs(s) && Follows(s, t, Steps(p))
    ensures HeldByJobs(t)
  {
    assert forall j :: j in s.floor.inFlight && !(p.HandBackJob? && p.job == j) ==> j in t.floor.inFlight;
  }

  ghost predicate LeasingRun(stations: seq<Station>, steps: seq<LeasingStep>) {
    |stations| == |steps| + 1 && forall i :: 0 <= i < |steps| ==> Follows(stations[i], stations[i + 1], steps[i])
  }

  /**
   Over any run of the workers with their leases the recorded holders are the
   leases held, no execution holds two, and a writer is alone.
   */
  lemma {:induction false} WorkersKeepTheRecord(stations: seq<Station>, steps: seq<LeasingStep>, n: nat)
    requires LeasingRun(stations, steps) && Leasing(stations[0]) && n <= |steps|
    ensures Leasing(stations[n]) && OneLeaseEach(stations[n].outstanding)
    ensures var holding := stations[n].holding;
      forall j, k :: j in holding && k in holding && holding[j].workspace == holding[k].workspace && holding[j].mode.WriteLease? ==> j == k
  {
    hide Orderly, Follows, Sound, HeldByJobs;
    if n > 0 {
      WorkersKeepTheRecord(stations, steps, n - 1);
      StepKeepsLeases(stations[n - 1], stations[n], steps[n - 1]);
    }
    JobsHoldOneLeaseEach(stations[n]);
    WriterIsAlone(stations[n]);
  }

  lemma WriterIsAlone(s: Station)
    requires Leasing(s)
    ensures forall j, k :: j in s.holding && k in s.holding && s.holding[j].workspace == s.holding[k].workspace && s.holding[j].mode.WriteLease? ==>
      j == k
  {
    assert WriterAlone(s.outstanding);
    hide Orderly, HeldByJobs, Sound;
    forall j, k | j in s.holding && k in s.holding && s.holding[j].workspace == s.holding[k].workspace && s.holding[j].mode.WriteLease?
      ensures j == k
    {
      HolderIsAlone(s, j);
      HolderIsAlone(s, k);
      assert s.holding[j] in s.outstanding && s.holding[k] in s.outstanding;
    }
  }
}
