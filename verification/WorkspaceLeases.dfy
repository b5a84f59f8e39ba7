/**
 Leases on workspaces.  A worker holds one while it runs an execution and drops
 it afterwards; each operation holds the manager's lock, so a run is a sequence
 of atomic steps.
 */
module WorkspaceLeases {
  import opened PhenixCore

  datatype LeaseMode = ReadLease | WriteLease

  datatype LeaseRequest = LeaseRequest(workspace: WorkspaceId, execution: ExecutionId, mode: LeaseMode)

  datatype Holders = Holders(readers: set<ExecutionId>, writer: Option<ExecutionId>) {
    predicate Permits(mode: LeaseMode) {
      match mode
      case ReadLease => writer.None?
      case WriteLease => writer.None? && readers == {}
    }

    function Acquire(request: LeaseRequest): Holders {
      match request.mode
      case ReadLease => this.(readers := readers + {request.execution})
      case WriteLease => this.(writer := Some(request.execution))
    }

    function Release(request: LeaseRequest): Holders {
      match request.mode
      case ReadLease => this.(readers := readers - {request.execution})
      case WriteLease => if writer == Some(request.execution) then this.(writer := None) else this
    }

    predicate IsEmpty() {
      writer.None? && readers == {}
    }
  }

  const NO_HOLDERS := Holders({}, None)

  type Workspaces = map<WorkspaceId, Holders>

  function HoldersOf(workspaces: Workspaces, w: WorkspaceId): Holders {
    if w in workspaces then workspaces[w] else NO_HOLDERS
  }

  // ---------------------------------------------------------------------------
  // What the recorded holders say about the outstanding leases
  // ---------------------------------------------------------------------------

  /** The leases somebody holds; a request granted twice is held twice. */
  type Leases = multiset<LeaseRequest>

  /** The recorded holders of `w` are the executions that hold a lease on it. */
  ghost predicate AccurateFor(holders: Holders, outstanding: Leases, w: WorkspaceId) {
    && (forall e: ExecutionId :: e in holders.readers <==> LeaseRequest(w, e, ReadLease) in outstanding)
    && (forall e: ExecutionId :: holders.writer == Some(e) <==> LeaseRequest(w, e, WriteLease) in outstanding)
  }

  /** Accurate holders for every workspace, and no entry without holders. */
  ghost predicate Accurate(workspaces: Workspaces, outstanding: Leases) {
    && (forall w :: AccurateFor(HoldersOf(workspaces, w), outstanding, w))
    && (forall w :: w in workspaces ==> !workspaces[w].IsEmpty())
  }

  /** Who holds a workspace for writing holds it alone. */
  ghost predicate WriterAlone(outstanding: Leases) {
    forall r, k :: r in outstanding && k in outstanding && r.workspace == k.workspace && r.mode.WriteLease? ==>
      r == k && outstanding[r] == 1
  }

  /** No outstanding lease stands against `request`. */
  ghost predicate Grantable(outstanding: Leases, request: LeaseRequest) {
    forall l :: l in outstanding && l.workspace == request.workspace ==> l.mode.ReadLease? && request.mode.ReadLease?
  }

  ghost predicate Sound(workspaces: Workspaces, outstanding: Leases) {
    Accurate(workspaces, outstanding) && WriterAlone(outstanding)
  }

  lemma PermitsIsGrantable(workspaces: Workspaces, outstanding: Leases, request: LeaseRequest)
    requires Accurate(workspaces, outstanding)
    ensures HoldersOf(workspaces, request.workspace).Permits(request.mode) <==> Grantable(outstanding, request)
  {
    var holders := HoldersOf(workspaces, request.workspace);
    assert AccurateFor(holders, outstanding, request.workspace);
    if holders.Permits(request.mode) {
      forall l | l in outstanding && l.workspace == request.workspace
        ensures l.mode.ReadLease? && request.mode.ReadLease?
      {
        assert l == LeaseRequest(request.workspace, l.execution, l.mode);
      }
    } else {
      if holders.writer.Some? {
        assert LeaseRequest(request.workspace, holders.writer.value, WriteLease) in outstanding;
      } else {
        var e :| e in holders.readers;
        assert LeaseRequest(request.workspace, e, ReadLease) in outstanding;
      }
    }
  }

  function Acquired(workspaces: Workspaces, request: LeaseRequest): Workspaces {
    workspaces[request.workspace := HoldersOf(workspaces, request.workspace).Acquire(request)]
  }

  function Released(workspaces: Workspaces, request: LeaseRequest): Workspaces {
    if request.workspace !in workspaces then workspaces
    else
      var holders := workspaces[request.workspace].Release(request);
      if holders.IsEmpty() then workspaces - {request.workspace} else workspaces[request.workspace := holders]
  }

  lemma HoldersAfterAcquire(holders: Holders, outstanding: Leases, request: LeaseRequest)
    requires AccurateFor(holders, outstanding, request.workspace) && holders.Permits(request.mode)
    ensures AccurateFor(holders.Acquire(request), outstanding + multiset{request}, request.workspace)
    ensures !holders.Acquire(request).IsEmpty()
  {
    forall e: ExecutionId, mode: LeaseMode
      ensures LeaseRequest(request.workspace, e, mode) in outstanding + multiset{request} <==>
        LeaseRequest(request.workspace, e, mode) in outstanding || (e == request.execution && mode == request.mode)
    {
    }
  }

  lemma HoldersElsewhere(holders: Holders, outstanding: Leases, request: LeaseRequest, w: WorkspaceId)
    requires w != request.workspace
    ensures AccurateFor(holders, outstanding + multiset{request}, w) <==> AccurateFor(holders, outstanding, w)
    ensures AccurateFor(holders, outstanding - multiset{request}, w) <==> AccurateFor(holders, outstanding, w)
  {
    forall e: ExecutionId, mode: LeaseMode
      ensures LeaseRequest(w, e, mode) in outstanding + multiset{request} <==> LeaseRequest(w, e, mode) in outstanding
      ensures LeaseRequest(w, e, mode) in outstanding - multiset{request} <==> LeaseRequest(w, e, mode) in outstanding
    {
    }
  }

  /** Granting a permitted request keeps the record accurate and the writer alone. */
  lemma AcquisitionKeepsRecord(workspaces: Workspaces, outstanding: Leases, request: LeaseRequest)
    requires Sound(workspaces, outstanding) && HoldersOf(workspaces, request.workspace).Permits(request.mode)
    ensures Sound(Acquired(workspaces, request), outstanding + multiset{request})
  {
    PermitsIsGrantable(workspaces, outstanding, request);
    assert WriterAlone(outstanding + multiset{request});
    hide WriterAlone;
    HoldersAfterAcquire(HoldersOf(workspaces, request.workspace), outstanding, request);
    hide AccurateFor;
    var after := Acquired(workspaces, request);
    assert HoldersOf(after, request.workspace) == HoldersOf(workspaces, request.workspace).Acquire(request);
    forall w | w != request.workspace ensures AccurateFor(HoldersOf(after, w), outstanding + multiset{request}, w) {
      assert HoldersOf(after, w) == HoldersOf(workspaces, w);
      HoldersElsewhere(HoldersOf(workspaces, w), outstanding, request, w);
    }
  }

  lemma HeldWorkspaceIsListed(workspaces: Workspaces, outstanding: Leases, request: LeaseRequest)
    requires Accurate(workspaces, outstanding) && request in outstanding
    ensures request.workspace in workspaces
  {
    assert AccurateFor(HoldersOf(workspaces, request.workspace), outstanding, request.workspace);
    match request.mode {
      case ReadLease => assert LeaseRequest(request.workspace, request.execution, ReadLease) in outstanding;
      case WriteLease => assert LeaseRequest(request.workspace, request.execution, WriteLease) in outstanding;
    }
  }

  lemma HoldersAfterRelease(holders: Holders, outstanding: Leases, request: LeaseRequest)
    requires AccurateFor(holders, outstanding, request.workspace) && request in outstanding
    ensures AccurateFor(holders.Release(request), outstanding - multiset{request}, request.workspace) <==> outstanding[request] == 1
  {
    forall e: ExecutionId, mode: LeaseMode
      ensures LeaseRequest(request.workspace, e, mode) in outstanding - multiset{request} <==>
        LeaseRequest(request.workspace, e, mode) in outstanding
        && (e == request.execution && mode == request.mode ==> outstanding[request] > 1)
    {
    }
    assert request == LeaseRequest(request.workspace, request.execution, request.mode);
  }

  /**
   Dropping a lease keeps the record accurate exactly when it was the only lease
   of that kind: a second read lease of the same execution is forgotten with it.
   */
  lemma ReleaseIsAccurateForSingleLeases(workspaces: Workspaces, outstanding: Leases, request: LeaseRequest)
    requires Sound(workspaces, outstanding) && request in outstanding
    ensures Sound(Released(workspaces, request), outstanding - multiset{request}) <==> outstanding[request] == 1
  {
    assert WriterAlone(outstanding - multiset{request});
    hide WriterAlone;
    var before, after := HoldersOf(workspaces, request.workspace), Released(workspaces, request);
    HeldWorkspaceIsListed(workspaces, outstanding, request);
    HoldersAfterRelease(before, outstanding, request);
    hide AccurateFor;
    assert HoldersOf(after, request.workspace) == before.Release(request);
    forall w | w != request.workspace ensures AccurateFor(HoldersOf(after, w), outstanding - multiset{request}, w) {
      assert HoldersOf(after, w) == HoldersOf(workspaces, w);
      HoldersElsewhere(HoldersOf(workspaces, w), outstanding, request, w);
    }
  }

  class WorkspaceLeaseManager {
    var workspaces: Workspaces
    // The leases granted and not yet dropped.
    ghost var outstanding: Leases

    ghost predicate Valid()
      reads this
    {
      Sound(workspaces, outstanding)
    }

    constructor ()
      ensures Valid() && outstanding == multiset{}
    {
      workspaces, outstanding := map[], multiset{};
    }

    /** One look at the state: grants the request unless an outstanding lease conflicts with it. */
    method TryAcquire(request: LeaseRequest) returns (granted: bool)
      requires Valid()
      modifies this
      ensures Valid()
      ensures granted <==> Grantable(old(outstanding), request)
      ensures outstanding == old(outstanding) + (if granted then multiset{request} else multiset{})
      ensures !granted ==> workspaces == old(workspaces)
    {
      PermitsIsGrantable(workspaces, outstanding, request);
      if request.workspace !in workspaces {
        workspaces := workspaces[request.workspace := NO_HOLDERS];
      }
      if workspaces[request.workspace].Permits(request.mode) {
        AcquisitionKeepsRecord(old(workspaces), outstanding, request);
        workspaces := workspaces[request.workspace := workspaces[request.workspace].Acquire(request)];
        assert workspaces == Acquired(old(workspaces), request);
        outstanding := outstanding + multiset{request};
        return true;
      }
      granted := false;
    }

    /** Drops a lease. */
    method Release(request: LeaseRequest)
      requires Valid() && request in outstanding
      modifies this
      ensures outstanding == old(outstanding) - multiset{request}
      ensures Valid() <==> old(outstanding)[request] == 1
    {
      ReleaseIsAccurateForSingleLeases(workspaces, outstanding, request);
      if request.workspace in workspaces {
        var holders := workspaces[request.workspace].Release(request);
        workspaces := workspaces[request.workspace := holders];
        if holders.IsEmpty() {
          workspaces := workspaces - {request.workspace};
        }
      }
      assert workspaces == Released(old(workspaces), request);
      outstanding := outstanding - multiset{request};
    }
  }

  // ---------------------------------------------------------------------------
  // Runs
  // ---------------------------------------------------------------------------

  datatype LeaseStep = TakeLease(request: LeaseRequest) | DropLease(request: LeaseRequest)

  /** Every execution holds at most one lease. */
  ghost predicate OneLeaseEach(outstanding: Leases) {
    forall l, k :: l in outstanding && k in outstanding && l.execution == k.execution ==> l == k && outstanding[l] == 1
  }

  /** A step that workers can take: an execution takes a lease only while it has none, and drops only what it has. */
  ghost predicate Possible(workspaces: Workspaces, outstanding: Leases, step: LeaseStep) {
    match step
    case TakeLease(r) => HoldersOf(workspaces, r.workspace).Permits(r.mode) && forall l :: l in outstanding ==> l.execution != r.execution
    case DropLease(r) => r in outstanding
  }

  function RecordedAfter(workspaces: Workspaces, step: LeaseStep): Workspaces {
    match step
    case TakeLease(r) => Acquired(workspaces, r)
    case DropLease(r) => Released(workspaces, r)
  }

  function HeldAfter(outstanding: Leases, step: LeaseStep): Leases {
    match step
    case TakeLease(r) => outstanding + multiset{r}
    case DropLease(r) => outstanding - multiset{r}
  }

  ghost predicate LeaseRun(workspaces: Workspaces, outstanding: Leases, steps: seq<LeaseStep>)
    decreases |steps|
  {
    steps == [] ||
    (Possible(workspaces, outstanding, steps[0])
     && LeaseRun(RecordedAfter(workspaces, steps[0]), HeldAfter(outstanding, steps[0]), steps[1..]))
  }

  function RecordedAtEnd(workspaces: Workspaces, steps: seq<LeaseStep>): Workspaces
    decreases |steps|
  {
    if steps == [] then workspaces else RecordedAtEnd(RecordedAfter(workspaces, steps[0]), steps[1..])
  }

  function HeldAtEnd(outstanding: Leases, steps: seq<LeaseStep>): Leases
    decreases |steps|
  {
    if steps == [] then outstanding else HeldAtEnd(HeldAfter(outstanding, steps[0]), steps[1..])
  }

  /** However acquisitions and drops interleave, the recorded holders are the outstanding leases and writers are alone. */
  lemma {:induction false} RunsKeepTheRecord(workspaces: Workspaces, outstanding: Leases, steps: seq<LeaseStep>)
    requires Sound(workspaces, outstanding) && OneLeaseEach(outstanding) && LeaseRun(workspaces, outstanding, steps)
    ensures Sound(RecordedAtEnd(workspaces, steps), HeldAtEnd(outstanding, steps)) && OneLeaseEach(HeldAtEnd(outstanding, steps))
    decreases |steps|
  {
    if steps != [] {
      match steps[0] {
        case TakeLease(r) => AcquisitionKeepsRecord(workspaces, outstanding, r);
        case DropLease(r) => ReleaseIsAccurateForSingleLeases(workspaces, outstanding, r);
      }
      hide Sound;
      RunsKeepTheRecord(RecordedAfter(workspaces, steps[0]), HeldAfter(outstanding, steps[0]), steps[1..]);
    }
  }

  /** An execution that reads twice loses its recorded read lease at the first drop: a writer is then let in beside it. */
  lemma DuplicateReaderIsForgotten(w: WorkspaceId, e: ExecutionId, other: ExecutionId)
    requires e != other
    ensures var read := LeaseRequest(w, e, ReadLease);
      var twice := Acquired(Acquired(map[], read), read);
      var after := Released(twice, read);
      && read in multiset{read, read} - multiset{read}
      && HoldersOf(after, w).Permits(WriteLease)
      && !Grantable(multiset{read, read} - multiset{read}, LeaseRequest(w, other, WriteLease))
  {
    var read := LeaseRequest(w, e, ReadLease);
    assert read in multiset{read, read} - multiset{read};
    assert Acquired(Acquired(map[], read), read)[w].readers - {e} == {};
  }
}
