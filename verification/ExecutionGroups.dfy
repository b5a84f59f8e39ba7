/**
 What the server's workers read off a snapshot: the group of an execution,
 whether something above it was stopped, and which executions of a group are
 ready for the queue.
 */
module ExecutionGroups {
  import opened PhenixCore
  import opened Records
  import opened Journal
  import opened BoardInvariants
  import opened Configuration
  import opened Scheduler
  import opened ExecutionTree
  import opened ExecutionQueue
  import IdOrder

  /** The summaries of a board's executions, in the order of their id strings. */
  ghost predicate Pictures(executions: seq<ExecutionSummary>, b: Board) {
    && (forall i :: 0 <= i < |executions| ==>
          executions[i].id in b.executions && executions[i] == b.executions[executions[i].id].summary)
    && (forall id :: id in b.executions ==> exists i :: 0 <= i < |executions| && executions[i].id == id)
    && (forall i, j :: 0 <= i < j < |executions| ==> IdOrder.IdBefore(executions[i].id, executions[j].id))
  }

  predicate StopsDescendants(s: ExecutionState) {
    s.Failed? || s.Cancelled? || s.Interrupted?
  }

  /** Some proper ancestor of `id` failed, was cancelled or was interrupted. */
  ghost predicate Blocked(b: Board, id: ExecutionId) {
    exists a :: ProperDescendant(b, a, id) && (InState(b, a, Failed) || InState(b, a, Cancelled) || InState(b, a, Interrupted))
  }

  /** `id` belongs to the tree of `group`, waits to run, and nothing above it was stopped. */
  ghost predicate Runnable(b: Board, group: ExecutionId, id: ExecutionId) {
    InState(b, id, Pending) && RootOf(b, id) == group && !Blocked(b, id)
  }

  /** The group exists, nothing of it runs and nothing of it could. */
  ghost predicate Quiescent(b: Board, group: ExecutionId) {
    && (exists id :: id in b.executions && RootOf(b, id) == group)
    && (forall id :: id in b.executions && RootOf(b, id) == group ==> !InState(b, id, Running) && !Runnable(b, group, id))
  }

  /** The execution summaries of a snapshot. */
  method SnapshotExecutions(executions: Executions, ghost b: Board) returns (summaries: seq<ExecutionSummary>)
    requires b.executions == executions && Sequenced(b)
    ensures Pictures(summaries, b)
  {
    hide IdOrder.IdBefore, IdOrder.IsFirst;
    summaries := [];
    var remaining := executions.Keys;
    while remaining != {}
      invariant remaining <= executions.Keys
      invariant forall i :: 0 <= i < |summaries| ==>
        summaries[i].id in executions && summaries[i] == executions[summaries[i].id].summary
      invariant forall id :: id in executions ==> id in remaining || exists i :: 0 <= i < |summaries| && summaries[i].id == id
      invariant forall i, id :: 0 <= i < |summaries| && id in remaining ==> IdOrder.IdBefore(summaries[i].id, id)
      invariant forall i, j :: 0 <= i < j < |summaries| ==> IdOrder.IdBefore(summaries[i].id, summaries[j].id)
      decreases |remaining|
    {
      IdOrder.FirstExists(remaining);
      var id :| id in remaining && IdOrder.IsFirst(id, remaining);
      FirstPrecedes(id, remaining);
      ghost var before := summaries;
      summaries, remaining := summaries + [executions[id].summary], remaining - {id};
      assert summaries[|before|].id == id;
      forall other | other in executions && other !in remaining
        ensures exists i :: 0 <= i < |summaries| && summaries[i].id == other
      {
        if other != id {
          var i :| 0 <= i < |before| && before[i].id == other;
          assert summaries[i].id == other;
        }
      }
    }
  }

  lemma FirstPrecedes(id: ExecutionId, remaining: set<ExecutionId>)
    requires IdOrder.IsFirst(id, remaining)
    ensures forall other :: other in remaining - {id} ==> IdOrder.IdBefore(id, other)
  {
  }

  // ---------------------------------------------------------------------------
  // Walks over a snapshot
  // ---------------------------------------------------------------------------

  method Find(executions: seq<ExecutionSummary>, id: ExecutionId) returns (found: Option<ExecutionSummary>)
    ensures found.Some? ==> found.value in executions && found.value.id == id
    ensures found.None? ==> forall i :: 0 <= i < |executions| ==> executions[i].id != id
  {
    for i := 0 to |executions|
      invariant forall k :: 0 <= k < i ==> executions[k].id != id
    {
      if executions[i].id == id {
        return Some(executions[i]);
      }
    }
    found := None;
  }

  /** The upward walk ends at the root of the execution's tree. */
  method ExecutionGroupId(executions: seq<ExecutionSummary>, ghost b: Board, id: ExecutionId)
    returns (group: Option<ExecutionId>)
    requires Pictures(executions, b) && Lineage(b)
    ensures group == if id in b.executions then Some(RootOf(b, id)) else None
  {
    hide IdOrder.IdBefore;
    var current := id;
    while true
      invariant id in b.executions <==> current in b.executions
      invariant RootOf(b, current) == RootOf(b, id)
      decreases current
    {
      var found := Find(executions, current);
      if found.None? {
        return None;
      }
      if found.value.parent.None? {
        return Some(current);
      }
      current := found.value.parent.value;
    }
  }

  lemma {:induction false} AncestorsOfChild(b: Board, a: ExecutionId, id: ExecutionId)
    requires Lineage(b) && id in b.executions
    ensures ProperDescendant(b, a, id) <==>
      b.executions[id].summary.parent.Some? && InSubtree(b, a, b.executions[id].summary.parent.value)
  {
    if b.executions[id].summary.parent.Some? && InSubtree(b, a, b.executions[id].summary.parent.value) {
      SubtreeBounds(b, a, b.executions[id].summary.parent.value);
    }
  }

  /** Everything above `id` that is not above its parent is the parent itself. */
  lemma BlockedByParent(b: Board, id: ExecutionId)
    requires Lineage(b) && id in b.executions
    ensures Blocked(b, id) <==>
      var p := b.executions[id].summary.parent;
      p.Some? && (StopsDescendants(b.executions[p.value].summary.state) || Blocked(b, p.value))
  {
    var p := b.executions[id].summary.parent;
    if Blocked(b, id) {
      var a :| ProperDescendant(b, a, id) && (InState(b, a, Failed) || InState(b, a, Cancelled) || InState(b, a, Interrupted));
      AncestorsOfChild(b, a, id);
      if a != p.value { assert ProperDescendant(b, a, p.value); }
    }
    if p.Some? {
      AncestorsOfChild(b, p.value, id);
      if StopsDescendants(b.executions[p.value].summary.state) {
        assert InSubtree(b, p.value, p.value);
        assert ProperDescendant(b, p.value, id);
      } else if Blocked(b, p.value) {
        var a :| ProperDescendant(b, a, p.value) && (InState(b, a, Failed) || InState(b, a, Cancelled) || InState(b, a, Interrupted));
        AncestorsOfChild(b, a, id);
      }
    }
  }

  /** The upward walk finds a stopped ancestor exactly when there is one. */
  method ExecutionHasBlockingAncestor(executions: seq<ExecutionSummary>, ghost b: Board, id: ExecutionId)
    returns (blocked: bool)
    requires Pictures(executions, b) && Lineage(b) && id in b.executions
    ensures blocked <==> Blocked(b, id)
  {
    hide IdOrder.IdBefore, Blocked;
    var execution := Find(executions, id);
    BlockedByParent(b, id);
    var parent := if execution.Some? then execution.value.parent else None;
    while parent.Some?
      invariant parent.Some? ==> parent.value in b.executions
      invariant Blocked(b, id) <==>
        parent.Some? && (StopsDescendants(b.executions[parent.value].summary.state) || Blocked(b, parent.value))
      decreases if parent.Some? then parent.value + 1 else 0
    {
      var found := Find(executions, parent.value);
      if found.None? {
        return true;
      }
      if StopsDescendants(found.value.state) {
        return true;
      }
      BlockedByParent(b, parent.value);
      parent := found.value.parent;
    }
    blocked := false;
  }

  // ---------------------------------------------------------------------------
  // The jobs of a group
  // ---------------------------------------------------------------------------

  /** Children run in the session of their parent. */
  ghost predicate OneSessionPerTree(b: Board) {
    forall id :: id in b.executions && b.executions[id].summary.parent.Some? && b.executions[id].summary.parent.value in b.executions ==>
      b.executions[b.executions[id].summary.parent.value].summary.session == b.executions[id].summary.session
  }

  lemma {:induction false} SessionOfTheRoot(b: Board, id: ExecutionId)
    requires Lineage(b) && OneSessionPerTree(b) && id in b.executions
    ensures RootOf(b, id) in b.executions && b.executions[id].summary.session == b.executions[RootOf(b, id)].summary.session
    decreases id
  {
    if b.executions[id].summary.parent.Some? {
      SessionOfTheRoot(b, b.executions[id].summary.parent.value);
    }
  }

  /** A live runtime keeps every tree in one session. */
  lemma LiveTreesKeepTheirSession(b: Board, catalog: Catalog)
    requires LiveInv(b, catalog)
    ensures OneSessionPerTree(b)
  {
  }

  ghost predicate JobOf(b: Board, group: ExecutionId, job: Job) {
    && Runnable(b, group, job.execution)
    && job.group == group
    && job.session == b.executions[job.execution].summary.session
  }

  /** Exactly the runnable executions of the group, each once, in snapshot order. */
  method PendingExecutionJobs(executions: seq<ExecutionSummary>, ghost b: Board, group: ExecutionId)
    returns (jobs: seq<Job>)
    requires Pictures(executions, b) && Lineage(b)
    ensures forall i :: 0 <= i < |jobs| ==> JobOf(b, group, jobs[i])
    ensures forall id :: Runnable(b, group, id) ==> id in PendingIds(jobs)
    ensures forall i, j :: 0 <= i < j < |jobs| ==> IdOrder.IdBefore(jobs[i].execution, jobs[j].execution)
  {
    hide IdOrder.IdBefore, Blocked, RootOf, PendingIds, HasPending, Lineage;
    jobs := [];
    ghost var taken: seq<nat> := [];
    for n := 0 to |executions|
      invariant |taken| == |jobs|
      invariant forall i :: 0 <= i < |jobs| ==> taken[i] < n && jobs[i].execution == executions[taken[i]].id
      invariant forall i, j :: 0 <= i < j < |jobs| ==> taken[i] < taken[j]
      invariant forall i :: 0 <= i < |jobs| ==> JobOf(b, group, jobs[i])
      invariant forall k :: 0 <= k < n && Runnable(b, group, executions[k].id) ==> executions[k].id in PendingIds(jobs)
    {
      var execution := executions[n];
      var own := ExecutionGroupId(executions, b, execution.id);
      var blocked := ExecutionHasBlockingAncestor(executions, b, execution.id);
      if execution.state.Pending? && own == Some(group) && !blocked {
        var job := Job(execution.id, execution.session, group);
        EnqueuedIds(jobs, job);
        jobs, taken := jobs + [job], taken + [n];
      }
    }
  }

  method ExecutionGroupQuiescent(executions: seq<ExecutionSummary>, ghost b: Board, group: ExecutionId)
    returns (quiescent: bool)
    requires Pictures(executions, b) && Lineage(b)
    ensures quiescent <==> Quiescent(b, group)
  {
    hide IdOrder.IdBefore, Blocked, RootOf;
    var found := false;
    for n := 0 to |executions|
      invariant found <==> exists k :: 0 <= k < n && RootOf(b, executions[k].id) == group
      invariant forall k :: 0 <= k < n && RootOf(b, executions[k].id) == group ==>
        !InState(b, executions[k].id, Running) && !Runnable(b, group, executions[k].id)
    {
      var execution := executions[n];
      assert execution.id in b.executions;
      var own := ExecutionGroupId(executions, b, execution.id);
      if own != Some(group) {
        continue;
      }
      found := true;
      if execution.state.Running? {
        return false;
      }
      var blocked := ExecutionHasBlockingAncestor(executions, b, execution.id);
      if execution.state.Pending? && !blocked {
        return false;
      }
    }
    quiescent := found;
  }

  /** A group can be let go of exactly when it exists, runs nothing and has no jobs for the queue. */
  lemma QuiescentHasNoJobs(b: Board, group: ExecutionId, jobs: seq<Job>)
    requires Lineage(b) && group in b.executions && b.executions[group].summary.parent.None?
    requires forall i :: 0 <= i < |jobs| ==> JobOf(b, group, jobs[i])
    requires forall id :: Runnable(b, group, id) ==> id in PendingIds(jobs)
    ensures Quiescent(b, group) <==> jobs == [] && forall id :: InSubtree(b, group, id) ==> !InState(b, id, Running)
  {
    hide Blocked;
    forall id | id in b.executions ensures InSubtree(b, group, id) <==> RootOf(b, id) == group {
      SubtreeIsTheGroup(b, group, id);
    }
    assert RootOf(b, group) == group;
    hide RootOf;
    if jobs != [] {
      assert JobOf(b, group, jobs[0]) && Runnable(b, group, jobs[0].execution);
    }
  }

  // ---------------------------------------------------------------------------
  // Feeding the queue
  // ---------------------------------------------------------------------------

  /** Puts every runnable execution of the group into the queue that was not scheduled before, and nothing else. */
  method EnqueuePendingExecutionGroup(queue: Queue, executions: seq<ExecutionSummary>, ghost b: Board, group: ExecutionId)
    requires queue.Valid() && Pictures(executions, b) && Lineage(b)
    modifies queue`scheduled, queue`pending
    ensures queue.Valid()
    ensures forall id :: id in queue.scheduled <==> id in old(queue.scheduled) || Runnable(b, group, id)
    ensures old(queue.pending) <= queue.pending
    ensures forall i :: |old(queue.pending)| <= i < |queue.pending| ==> JobOf(b, group, queue.pending[i])
  {
    hide *;
    var jobs := PendingExecutionJobs(executions, b, group);
    JobsAreRunnable(b, group, jobs);
    for i := 0 to |jobs|
      invariant queue.Valid()
      invariant forall id :: id in queue.scheduled <==> id in old(queue.scheduled) || id in PendingIds(jobs[..i])
      invariant old(queue.pending) <= queue.pending
      invariant forall k :: |old(queue.pending)| <= k < |queue.pending| ==> JobOf(b, group, queue.pending[k])
    {
      EnqueuedIds(jobs[..i], jobs[i]);
      assert jobs[..i + 1] == jobs[..i] + [jobs[i]];
      queue.Enqueue(jobs[i]);
    }
    assert jobs[..|jobs|] == jobs;
  }

  lemma JobsAreRunnable(b: Board, group: ExecutionId, jobs: seq<Job>)
    requires forall i :: 0 <= i < |jobs| ==> JobOf(b, group, jobs[i])
    requires forall id :: Runnable(b, group, id) ==> id in PendingIds(jobs)
    ensures forall id :: Runnable(b, group, id) <==> id in PendingIds(jobs)
    ensures PendingIds(jobs[..0]) == {}
  {
    hide Runnable;
  }
}
