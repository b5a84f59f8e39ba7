/**
 The queue from which worker threads take executions.  Every operation holds
 the queue's lock, so a run is a sequence of atomic steps in any order of
 workers.
 */
module ExecutionQueue {
  import opened PhenixCore

  datatype Job = Job(execution: ExecutionId, session: SessionId, group: ExecutionId)

  datatype NextOutcome = Dispatched(job: Job) | Finished | Waiting

  function JobIds(jobs: set<Job>): set<ExecutionId> {
    set j | j in jobs :: j.execution
  }

  function PendingIds(jobs: seq<Job>): set<ExecutionId> {
    set i | 0 <= i < |jobs| :: jobs[i].execution
  }

  function InGroup(jobs: set<Job>, group: ExecutionId): set<Job> {
    set j | j in jobs && j.group == group
  }

  predicate HasPending(jobs: seq<Job>, group: ExecutionId) {
    exists i :: 0 <= i < |jobs| && jobs[i].group == group
  }

  function Without(jobs: seq<Job>, index: nat): seq<Job>
    requires index < |jobs|
  {
    jobs[..index] + jobs[index + 1..]
  }

  // ---------------------------------------------------------------------------
  // What the queue keeps true
  // ---------------------------------------------------------------------------

  /** No two of the jobs run the same execution. */
  ghost predicate OneJobEach(jobs: set<Job>) {
    forall j, k :: j in jobs && k in jobs && j.execution == k.execution ==> j == k
  }

  ghost predicate DistinctIds(jobs: seq<Job>) {
    forall i, j :: 0 <= i < j < |jobs| ==> jobs[i].execution != jobs[j].execution
  }

  /** Every scheduled execution is pending, in flight or completed, and exactly one of these. */
  ghost predicate Conserved(scheduled: set<ExecutionId>, pending: seq<Job>, inFlight: set<Job>, completed: set<Job>) {
    && scheduled == PendingIds(pending) + JobIds(inFlight) + JobIds(completed)
    && PendingIds(pending) !! JobIds(inFlight) && PendingIds(pending) !! JobIds(completed) && JobIds(inFlight) !! JobIds(completed)
    && DistinctIds(pending) && OneJobEach(inFlight) && OneJobEach(completed)
  }

  /** What was handed out is in flight or completed, and nothing was handed out twice. */
  ghost predicate HandedOutOnce(dispatched: seq<ExecutionId>, inFlight: set<Job>, completed: set<Job>) {
    && (forall i, j :: 0 <= i < j < |dispatched| ==> dispatched[i] != dispatched[j])
    && (forall x :: x in dispatched <==> x in JobIds(inFlight) + JobIds(completed))
  }

  /** A session with jobs in flight belongs to their group. */
  ghost predicate Exclusive(activeSessions: map<SessionId, ExecutionId>, inFlight: set<Job>) {
    forall j :: j in inFlight ==> j.session in activeSessions && activeSessions[j.session] == j.group
  }

  /** The counters count the jobs in flight, and a group without any has no counter. */
  ghost predicate Counted(activeGroups: map<ExecutionId, nat>, inFlight: set<Job>) {
    forall g :: (g in activeGroups <==> InGroup(inFlight, g) != {}) && (g in activeGroups ==> activeGroups[g] == |InGroup(inFlight, g)|)
  }

  /** A group that is to be released still has a job whose completion will release it. */
  ghost predicate Latched(releasingGroups: set<ExecutionId>, pending: seq<Job>, inFlight: set<Job>) {
    forall g :: g in releasingGroups ==> InGroup(inFlight, g) != {} || HasPending(pending, g)
  }

  class Queue {
    var pending: seq<Job>
    var activeSessions: map<SessionId, ExecutionId>
    var activeGroups: map<ExecutionId, nat>
    var scheduled: set<ExecutionId>
    var releasingGroups: set<ExecutionId>
    var closed: bool
    // Jobs that a worker has taken and not completed, and jobs that were completed.
    ghost var inFlight: set<Job>
    ghost var completed: set<Job>
    // Every execution handed to a worker so far, in order.
    ghost var dispatched: seq<ExecutionId>

    ghost predicate Valid()
      reads this
    {
      && Conserved(scheduled, pending, inFlight, completed)
      && HandedOutOnce(dispatched, inFlight, completed)
      && Exclusive(activeSessions, inFlight)
      && Counted(activeGroups, inFlight)
      && Latched(releasingGroups, pending, inFlight)
    }

    constructor ()
      ensures Valid() && !closed
      ensures pending == [] && inFlight == {} && completed == {} && scheduled == {} && dispatched == []
      ensures activeSessions == map[] && activeGroups == map[] && releasingGroups == {}
    {
      pending, activeSessions, activeGroups, scheduled, releasingGroups, closed := [], map[], map[], {}, {}, false;
      inFlight, completed, dispatched := {}, {}, [];
    }

    /** Schedules a job unless its execution was scheduled before. */
    method Enqueue(job: Job)
      requires Valid()
      modifies `scheduled, `pending
      ensures Valid()
      ensures scheduled == old(scheduled) + {job.execution}
      ensures pending == if job.execution in old(scheduled) then old(pending) else old(pending) + [job]
    {
      if job.execution in scheduled {
        return;
      }
      scheduled := scheduled + {job.execution};
      EnqueuedIds(pending, job);
      pending := pending + [job];
    }

    predicate Eligible(job: Job)
      reads this
    {
      job.session !in activeSessions || activeSessions[job.session] == job.group
    }

    /** The position of the first job whose session is free or owned by its group. */
    method FirstEligible() returns (index: nat)
      ensures index <= |pending|
      ensures forall i :: 0 <= i < index ==>
        pending[i].session in activeSessions && activeSessions[pending[i].session] != pending[i].group
      ensures index < |pending| ==>
        pending[index].session !in activeSessions || activeSessions[pending[index].session] == pending[index].group
    {
      index := 0;
      while index < |pending| && !Eligible(pending[index])
        invariant index <= |pending|
        invariant forall i :: 0 <= i < index ==> !Eligible(pending[i])
      {
        index := index + 1;
      }
    }

    /**
     One look at the queue: hands out the first eligible job, or reports that
     everything scheduled has completed, or makes the worker wait.
     */
    method Next() returns (r: NextOutcome, ghost index: nat)
      requires Valid()
      modifies `pending, `activeSessions, `activeGroups, `inFlight, `dispatched
      ensures Valid()
      ensures index <= |old(pending)|
      ensures forall i :: 0 <= i < index ==>
        old(pending)[i].session in old(activeSessions) && old(activeSessions)[old(pending)[i].session] != old(pending)[i].group
      ensures r.Dispatched? ==>
        index < |old(pending)| && r.job == old(pending)[index]
        && (r.job.session !in old(activeSessions) || old(activeSessions)[r.job.session] == r.job.group)
        && pending == Without(old(pending), index)
        && inFlight == old(inFlight) + {r.job} && r.job !in old(inFlight)
        && dispatched == old(dispatched) + [r.job.execution] && r.job.execution !in old(dispatched)
        && activeSessions == old(activeSessions)[r.job.session := r.job.group]
      ensures !r.Dispatched? ==>
        index == |old(pending)| && pending == old(pending) && inFlight == old(inFlight) && dispatched == old(dispatched)
        && activeSessions == old(activeSessions) && activeGroups == old(activeGroups)
      ensures r.Finished? <==> closed && old(pending) == [] && old(inFlight) == {}
      ensures r.Finished? ==> scheduled == JobIds(completed)
    {
      var position := FirstEligible();
      index := position;
      if position < |pending| {
        var job := Dispatch(position);
        return Dispatched(job), index;
      }
      ActiveGroupsTell(activeGroups, inFlight);
      if closed && pending == [] && activeGroups == map[] {
        return Finished, index;
      }
      r := Waiting;
    }

    method Dispatch(index: nat) returns (job: Job)
      requires Valid() && index < |pending| && Eligible(pending[index])
      modifies `pending, `activeSessions, `activeGroups, `inFlight, `dispatched
      ensures Valid()
      ensures job == old(pending)[index] && pending == Without(old(pending), index)
      ensures inFlight == old(inFlight) + {job} && job !in old(inFlight)
      ensures dispatched == old(dispatched) + [job.execution] && job.execution !in old(dispatched)
      ensures activeSessions == old(activeSessions)[job.session := job.group]
    {
      hide Conserved, HandedOutOnce, Counted, Latched, Without;
      job := pending[index];
      DispatchConserves(scheduled, pending, inFlight, completed, index);
      DispatchIsOnce(dispatched, scheduled, pending, inFlight, completed, index);
      DispatchCounts(activeGroups, inFlight, job);
      DispatchKeepsLatch(releasingGroups, pending, inFlight, index);
      pending := pending[..index] + pending[index + 1..];
      assert pending == Without(old(pending), index) by { WithoutIs(old(pending), index); }
      if job.session !in activeSessions {
        activeSessions := activeSessions[job.session := job.group];
      }
      activeGroups := activeGroups[job.group := (if job.group in activeGroups then activeGroups[job.group] else 0) + 1];
      inFlight := inFlight + {job};
      dispatched := dispatched + [job.execution];
    }

    /**
     A worker hands a job back.  Once some completion of a group has asked for
     its release, the completion that leaves it with nothing in flight and
     nothing pending frees its session.
     */
    method Complete(job: Job, releaseGroup: bool) returns (released: bool)
      requires Valid() && job in inFlight
      modifies `activeSessions, `activeGroups, `releasingGroups, `inFlight, `completed
      ensures Valid()
      ensures inFlight == old(inFlight) - {job} && completed == old(completed) + {job}
      ensures released <==>
        (releaseGroup || job.group in old(releasingGroups)) && InGroup(inFlight, job.group) == {} && !HasPending(pending, job.group)
      ensures released <==>
        && (releaseGroup || job.group in old(releasingGroups))
        && (forall other :: other in inFlight ==> other.group != job.group)
        && (forall k :: 0 <= k < |pending| ==> pending[k].group != job.group)
      ensures activeSessions == if released then old(activeSessions) - {job.session} else old(activeSessions)
      ensures releasingGroups ==
        old(releasingGroups) + (if releaseGroup then {job.group} else {}) - (if released then {job.group} else {})
    {
      hide Conserved, HandedOutOnce, Exclusive, Counted, InGroup, Latched, HasPending, Releasing;
      CompletionConserves(scheduled, pending, inFlight, completed, job);
      CompletionIsOnce(dispatched, inFlight, completed, job);
      CompletionCounts(activeGroups, inFlight, job);
      CompletionTakesNothing(activeSessions, inFlight, job);
      CompletionLatches(releasingGroups, pending, inFlight, job, releaseGroup);
      ghost var marked := Releasing(releasingGroups, job.group, releaseGroup);
      MarkedIs(releasingGroups, job.group, releaseGroup);
      if releaseGroup {
        releasingGroups := releasingGroups + {job.group};
      }
      var active := activeGroups[job.group] - 1;
      activeGroups := if active == 0 then activeGroups - {job.group} else activeGroups[job.group := active];
      inFlight, completed := inFlight - {job}, completed + {job};
      released := job.group in releasingGroups && job.group !in activeGroups && !HasPending(pending, job.group)
        && job.session in activeSessions && activeSessions[job.session] == job.group;
      if released {
        activeSessions := activeSessions - {job.session};
        releasingGroups := releasingGroups - {job.group};
      }
      NothingOfGroup(inFlight, pending, job.group);
    }

    method Close()
      requires Valid()
      modifies `closed
      ensures Valid() && closed
    {
      closed := true;
    }

    /** All jobs in flight for a session belong to one group. */
    lemma OneGroupPerSession(j: Job, k: Job)
      requires Valid() && j in inFlight && k in inFlight && j.session == k.session
      ensures j.group == k.group
    {
    }

    /** A group to be released has a job left whose completion can release it, and no two groups share the wait. */
    lemma ReleaseIsComing(g: ExecutionId)
      requires Valid() && g in releasingGroups
      ensures (exists j :: j in inFlight && j.group == g) || HasPending(pending, g)
    {
      if InGroup(inFlight, g) != {} {
        var j :| j in InGroup(inFlight, g);
        assert j in inFlight && j.group == g;
      }
    }
  }

  lemma NothingOfGroup(jobs: set<Job>, pending: seq<Job>, g: ExecutionId)
    ensures InGroup(jobs, g) == {} <==> forall j :: j in jobs ==> j.group != g
    ensures !HasPending(pending, g) <==> forall k :: 0 <= k < |pending| ==> pending[k].group != g
  {
    forall j | j in jobs && j.group == g ensures j in InGroup(jobs, g) {}
  }

  // ---------------------------------------------------------------------------
  // Enqueuing
  // ---------------------------------------------------------------------------

  lemma EnqueuedIds(jobs: seq<Job>, job: Job)
    ensures PendingIds(jobs + [job]) == PendingIds(jobs) + {job.execution}
    ensures forall g :: HasPending(jobs, g) ==> HasPending(jobs + [job], g)
  {
    forall x | x in PendingIds(jobs) + {job.execution} ensures x in PendingIds(jobs + [job]) {
      if x == job.execution {
        assert (jobs + [job])[|jobs|].execution == x;
      } else {
        var i :| 0 <= i < |jobs| && jobs[i].execution == x;
        assert (jobs + [job])[i].execution == x;
      }
    }
    forall g | HasPending(jobs, g) ensures HasPending(jobs + [job], g) {
      var i :| 0 <= i < |jobs| && jobs[i].group == g;
      assert (jobs + [job])[i].group == g;
    }
  }

  // ---------------------------------------------------------------------------
  // Dispatching
  // ---------------------------------------------------------------------------

  lemma WithoutIs(jobs: seq<Job>, index: nat)
    requires index < |jobs|
    ensures Without(jobs, index) == jobs[..index] + jobs[index + 1..]
  {
  }

  lemma WithoutAt(jobs: seq<Job>, index: nat)
    requires index < |jobs|
    ensures |Without(jobs, index)| == |jobs| - 1
    ensures forall k :: 0 <= k < |jobs| - 1 ==> Without(jobs, index)[k] == jobs[if k < index then k else k + 1]
    ensures forall i :: 0 <= i < |jobs| && i != index ==> jobs[i] in Without(jobs, index)
  {
    forall i | 0 <= i < |jobs| && i != index ensures jobs[i] in Without(jobs, index) {
      assert Without(jobs, index)[if i < index then i else i - 1] == jobs[i];
    }
  }

  lemma WithoutIds(jobs: seq<Job>, index: nat)
    requires index < |jobs| && DistinctIds(jobs)
    ensures PendingIds(Without(jobs, index)) == PendingIds(jobs) - {jobs[index].execution} && DistinctIds(Without(jobs, index))
  {
    WithoutAt(jobs, index);
    var rest := Without(jobs, index);
    hide Without;
    forall x | x in PendingIds(rest) ensures x in PendingIds(jobs) - {jobs[index].execution} {
      var k :| 0 <= k < |rest| && rest[k].execution == x;
      assert rest[k] == jobs[if k < index then k else k + 1];
    }
    forall x | x in PendingIds(jobs) - {jobs[index].execution} ensures x in PendingIds(rest) {
      var i :| 0 <= i < |jobs| && jobs[i].execution == x;
      assert jobs[i] in rest;
    }
    forall k, l | 0 <= k < l < |rest| ensures rest[k].execution != rest[l].execution {
      assert rest[k] == jobs[if k < index then k else k + 1] && rest[l] == jobs[if l < index then l else l + 1];
    }
  }

  lemma MoreIds(jobs: set<Job>, job: Job)
    ensures JobIds(jobs + {job}) == JobIds(jobs) + {job.execution}
  {
    forall x | x in JobIds(jobs) + {job.execution} ensures x in JobIds(jobs + {job}) {
      if x == job.execution {
        assert job in jobs + {job};
      } else {
        var j :| j in jobs && j.execution == x;
        assert j in jobs + {job};
      }
    }
  }

  lemma DispatchConserves(scheduled: set<ExecutionId>, pending: seq<Job>, inFlight: set<Job>, completed: set<Job>, index: nat)
    requires Conserved(scheduled, pending, inFlight, completed) && index < |pending|
    ensures Conserved(scheduled, Without(pending, index), inFlight + {pending[index]}, completed)
    ensures pending[index] !in inFlight
  {
    WithoutIds(pending, index);
    MoreIds(inFlight, pending[index]);
    var job := pending[index];
    assert job.execution in PendingIds(pending);
    assert job in inFlight ==> job.execution in JobIds(inFlight);
    hide Without, PendingIds;
    forall j | j in inFlight ensures j.execution != pending[index].execution {
      assert j.execution in JobIds(inFlight);
    }
  }

  lemma DispatchIsOnce(dispatched: seq<ExecutionId>, scheduled: set<ExecutionId>, pending: seq<Job>, inFlight: set<Job>, completed: set<Job>, index: nat)
    requires HandedOutOnce(dispatched, inFlight, completed) && Conserved(scheduled, pending, inFlight, completed) && index < |pending|
    ensures pending[index].execution !in dispatched
    ensures HandedOutOnce(dispatched + [pending[index].execution], inFlight + {pending[index]}, completed)
  {
    assert pending[index].execution in PendingIds(pending);
    MoreIds(inFlight, pending[index]);
    hide PendingIds, JobIds;
  }

  lemma MoreInGroup(jobs: set<Job>, job: Job)
    requires job !in jobs
    ensures forall g :: InGroup(jobs + {job}, g) == if g == job.group then InGroup(jobs, g) + {job} else InGroup(jobs, g)
    ensures |InGroup(jobs, job.group) + {job}| == |InGroup(jobs, job.group)| + 1
  {
  }

  lemma DispatchCounts(activeGroups: map<ExecutionId, nat>, inFlight: set<Job>, job: Job)
    requires Counted(activeGroups, inFlight)
    ensures job !in inFlight ==>
      Counted(activeGroups[job.group := (if job.group in activeGroups then activeGroups[job.group] else 0) + 1], inFlight + {job})
  {
    if job !in inFlight { MoreInGroup(inFlight, job); }
    hide InGroup;
  }

  lemma DispatchKeepsLatch(releasingGroups: set<ExecutionId>, pending: seq<Job>, inFlight: set<Job>, index: nat)
    requires Latched(releasingGroups, pending, inFlight) && index < |pending|
    ensures Latched(releasingGroups, Without(pending, index), inFlight + {pending[index]})
  {
    WithoutAt(pending, index);
    hide Without;
    forall g | g in releasingGroups
      ensures InGroup(inFlight + {pending[index]}, g) != {} || HasPending(Without(pending, index), g)
    {
      if InGroup(inFlight, g) != {} {
        var j :| j in InGroup(inFlight, g);
        assert j in InGroup(inFlight + {pending[index]}, g);
      } else {
        var i :| 0 <= i < |pending| && pending[i].group == g;
        if i == index {
          assert pending[index] in InGroup(inFlight + {pending[index]}, g);
        } else {
          var k :| 0 <= k < |Without(pending, index)| && Without(pending, index)[k] == pending[i];
        }
      }
    }
  }

  lemma ActiveGroupsTell(activeGroups: map<ExecutionId, nat>, inFlight: set<Job>)
    requires Counted(activeGroups, inFlight)
    ensures activeGroups == map[] <==> inFlight == {}
  {
    forall j | j in inFlight ensures j.group in activeGroups {
      assert j in InGroup(inFlight, j.group);
    }
    if inFlight == {} {
      forall g ensures g !in activeGroups { assert InGroup(inFlight, g) == {}; }
    }
  }

  // ---------------------------------------------------------------------------
  // Completing
  // ---------------------------------------------------------------------------

  lemma FewerIds(jobs: set<Job>, job: Job)
    requires OneJobEach(jobs) && job in jobs
    ensures JobIds(jobs - {job}) == JobIds(jobs) - {job.execution}
  {
    forall x | x in JobIds(jobs) - {job.execution} ensures x in JobIds(jobs - {job}) {
      var j :| j in jobs && j.execution == x;
      assert j in jobs - {job};
    }
  }

  lemma CompletionConserves(scheduled: set<ExecutionId>, pending: seq<Job>, inFlight: set<Job>, completed: set<Job>, job: Job)
    requires Conserved(scheduled, pending, inFlight, completed) && job in inFlight
    ensures Conserved(scheduled, pending, inFlight - {job}, completed + {job})
  {
    FewerIds(inFlight, job);
    MoreIds(completed, job);
    assert job.execution in JobIds(inFlight);
    forall j | j in completed ensures j.execution != job.execution { assert j.execution in JobIds(completed); }
    hide PendingIds, JobIds;
  }

  lemma CompletionIsOnce(dispatched: seq<ExecutionId>, inFlight: set<Job>, completed: set<Job>, job: Job)
    requires HandedOutOnce(dispatched, inFlight, completed) && job in inFlight
    ensures HandedOutOnce(dispatched, inFlight - {job}, completed + {job})
  {
    MoreIds(completed, job);
    MoreIds(inFlight - {job}, job);
    assert inFlight - {job} + {job} == inFlight;
    hide JobIds;
  }

  lemma CompletionCounts(activeGroups: map<ExecutionId, nat>, inFlight: set<Job>, job: Job)
    requires Counted(activeGroups, inFlight) && job in inFlight
    ensures job.group in activeGroups && activeGroups[job.group] >= 1
    ensures var active := activeGroups[job.group] - 1;
      Counted(if active == 0 then activeGroups - {job.group} else activeGroups[job.group := active], inFlight - {job})
      && (active == 0 <==> InGroup(inFlight - {job}, job.group) == {})
  {
    MoreInGroup(inFlight - {job}, job);
    assert inFlight - {job} + {job} == inFlight;
    assert job in InGroup(inFlight, job.group);
    assert |InGroup(inFlight - {job}, job.group)| == 0 <==> InGroup(inFlight - {job}, job.group) == {};
    hide InGroup;
  }

  function Releasing(releasingGroups: set<ExecutionId>, group: ExecutionId, releaseGroup: bool): set<ExecutionId> {
    if releaseGroup then releasingGroups + {group} else releasingGroups
  }

  lemma MarkedIs(releasingGroups: set<ExecutionId>, group: ExecutionId, releaseGroup: bool)
    ensures Releasing(releasingGroups, group, releaseGroup) == if releaseGroup then releasingGroups + {group} else releasingGroups
  {
  }

  /** A group stays marked for release as long as, and only as long as, a later completion can release it. */
  lemma CompletionLatches(releasingGroups: set<ExecutionId>, pending: seq<Job>, inFlight: set<Job>, job: Job, releaseGroup: bool)
    requires Latched(releasingGroups, pending, inFlight) && job in inFlight
    ensures var marked := Releasing(releasingGroups, job.group, releaseGroup);
      if job.group in marked && InGroup(inFlight - {job}, job.group) == {} && !HasPending(pending, job.group)
      then Latched(marked - {job.group}, pending, inFlight - {job})
      else Latched(marked, pending, inFlight - {job})
  {
    forall g | g != job.group && InGroup(inFlight, g) != {} ensures InGroup(inFlight - {job}, g) != {} {
      var j :| j in InGroup(inFlight, g);
      assert j in InGroup(inFlight - {job}, g);
    }
    hide InGroup, HasPending;
  }

  /** Freeing the session of a group with nothing in flight takes it from nobody. */
  lemma CompletionTakesNothing(activeSessions: map<SessionId, ExecutionId>, inFlight: set<Job>, job: Job)
    requires Exclusive(activeSessions, inFlight) && job in inFlight
    ensures Exclusive(activeSessions, inFlight - {job})
    ensures job.session in activeSessions && activeSessions[job.session] == job.group
    ensures InGroup(inFlight - {job}, job.group) == {} ==> Exclusive(activeSessions - {job.session}, inFlight - {job})
    ensures forall g :: g != job.group && InGroup(inFlight, g) != {} ==> InGroup(inFlight - {job}, g) != {}
  {
    forall j | j in inFlight - {job} && InGroup(inFlight - {job}, job.group) == {} ensures j.session != job.session {
      assert j.group == job.group ==> j in InGroup(inFlight - {job}, job.group);
    }
    forall g | g != job.group && InGroup(inFlight, g) != {} ensures InGroup(inFlight - {job}, g) != {} {
      var j :| j in InGroup(inFlight, g);
      assert j in InGroup(inFlight - {job}, g);
    }
  }
}
