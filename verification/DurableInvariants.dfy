/**
 What every accepted journal guarantees about sessions, the frontend event log
 and attempt groups, and the invariant of the durable state as a whole.
 */
module DurableInvariants {
  import opened PhenixCore
  import opened Records
  import opened Journal
  import opened BoardInvariants
  import IdOrder

  // ---------------------------------------------------------------------------
  // Sessions
  // ---------------------------------------------------------------------------

  /** Sessions are numbered densely, share one workspace and pin a known revision. */
  ghost predicate SessionsSound(d: Durable) {
    && (forall s :: s in d.sessions <==> 1 <= s <= d.nextSession)
    && (forall s :: s in d.sessions ==> d.sessions[s].id == s && d.sessions[s].configRevision in d.configRevisions)
    && (forall s, t :: s in d.sessions && t in d.sessions ==> d.sessions[s].workspace == d.sessions[t].workspace)
  }

  /** Executions belong to a session, and a closed session has none that is live. */
  ghost predicate ExecutionsHoused(d: Durable) {
    && (forall id :: id in d.board.executions ==>
          && d.board.executions[id].summary.session in d.sessions
          && d.board.executions[id].configRevision in d.configRevisions)
    && (forall id :: IsLive(d.board, id) ==> OpenSession(d, d.board.executions[id].summary.session))
  }

  // ---------------------------------------------------------------------------
  // The frontend event log
  // ---------------------------------------------------------------------------

  /** Frontend sequences are exactly 1, 2, ..., and every event names an execution of its session. */
  ghost predicate EventLogSound(d: Durable) {
    && |d.events| == d.nextEvent
    && (forall i :: 0 <= i < |d.events| ==>
          && d.events[i].sequence == i + 1
          && d.events[i].execution in d.board.executions
          && d.board.executions[d.events[i].execution].summary.session == d.events[i].session)
  }

  // ---------------------------------------------------------------------------
  // Attempt groups
  // ---------------------------------------------------------------------------

  ghost predicate AttemptSound(b: Board, g: AttemptGroup, k: nat)
    requires k < |g.attempts|
  {
    IsChild(b, g.parent, g.attempts[k]) && IsAgent(b, g.attempts[k])
    && b.executions[g.attempts[k]].summary.callable == Some(g.callable)
  }

  ghost predicate FailureSound(b: Board, g: AttemptGroup, k: nat)
    requires k < |g.failures| && k < |g.attempts|
  {
    g.failures[k].execution == g.attempts[k] && g.failures[k].attempt == k + 1 && InState(b, g.attempts[k], Failed)
  }

  /** Attempts are distinct siblings running one callable; the k-th failure is that of the k-th attempt; all but the latest failed. */
  ghost predicate GroupSound(b: Board, g: AttemptGroup) {
    && 1 <= |g.attempts|
    && |g.attempts| - 1 <= |g.failures| <= |g.attempts|
    && (forall j, k :: 0 <= j < k < |g.attempts| ==> g.attempts[j] != g.attempts[k])
    && (forall k :: 0 <= k < |g.attempts| ==> AttemptSound(b, g, k))
    && (forall k :: 0 <= k < |g.failures| ==> FailureSound(b, g, k))
  }

  type Groups = map<AttemptGroupId, AttemptGroup>

  ghost predicate GroupsDisjoint(groups: Groups) {
    forall g, h, x :: g in groups && h in groups && x in groups[g].attempts && x in groups[h].attempts ==> g == h
  }

  ghost predicate GroupsSound(d: Durable) {
    && (forall g :: g in d.attemptGroups <==> 1 <= g <= d.nextAttemptGroup)
    && (forall g :: g in d.attemptGroups ==> d.attemptGroups[g].id == g && GroupSound(d.board, d.attemptGroups[g]))
    && GroupsDisjoint(d.attemptGroups)
  }

  ghost predicate DurableInv(d: Durable) {
    BoardInv(d.board) && SessionsSound(d) && ExecutionsHoused(d) && EventLogSound(d) && GroupsSound(d)
  }

  // ---------------------------------------------------------------------------
  // Every accepted event keeps it
  // ---------------------------------------------------------------------------

  lemma CreationKeepsSessions(d: Durable, s: SessionSummary)
    requires SessionsSound(d) && AcceptsSession(d, s)
    ensures SessionsSound(d.(sessions := d.sessions[s.id := s], nextSession := d.nextSession + 1))
  {
    if s.parentSession.None? && d.sessions.Keys != {} {
      IdOrder.FirstExists(d.sessions.Keys);
      var first :| first in d.sessions.Keys && IdOrder.IsFirst(first, d.sessions.Keys);
      assert first in d.sessions;
    }
  }

  lemma ChangeKeepsSessions(d: Durable, s: SessionSummary)
    requires SessionsSound(d) && s.id in d.sessions
    requires s.workspace == d.sessions[s.id].workspace && s.configRevision in d.configRevisions
    ensures SessionsSound(d.(sessions := d.sessions[s.id := s]))
  {
  }

  predicate TouchesSessions(event: DomainEvent) {
    event.SessionCreated? || event.SessionConfigRebased? || event.SessionRenamed? || event.SessionTargetChanged? || event.SessionClosed?
  }

  predicate TouchesBoard(event: DomainEvent) {
    event.ExecutionCreated? || event.ExecutionStateChanged? || event.OrchestrationFailureInterfaceStarted?
    || event.OrchestrationDecisionMade? || event.OrchestrationNodeStarted?
  }

  lemma OthersLeaveSessions(d: Durable, event: DomainEvent)
    requires Accepts(d, event)
    ensures !TouchesSessions(event) ==> Update(d, event).sessions == d.sessions && Update(d, event).nextSession == d.nextSession
    ensures !TouchesBoard(event) ==> Update(d, event).board == d.board
    ensures d.configRevisions.Keys <= Update(d, event).configRevisions.Keys
  {
    hide AcceptsSession, AcceptsExecution, AcceptsDecision, AcceptsInterface, AcceptsNode, AcceptsGroup, AcceptsRetry, AcceptsFailure, AcceptsRoute,
      AcceptsCheckpoint, AcceptsFrontendEvent, SessionQuiescent, RetryBacked, NewRecord, WithExecution, WithState;
  }

  lemma SessionEventKeepsSessions(d: Durable, event: DomainEvent)
    requires SessionsSound(d) && Accepts(d, event) && TouchesSessions(event)
    ensures SessionsSound(Update(d, event))
  {
    hide AcceptsSession, SessionQuiescent;
    match event {
      case SessionCreated(s) => CreationKeepsSessions(d, s);
      case SessionConfigRebased(id, revision) => ChangeKeepsSessions(d, d.sessions[id].(configRevision := revision));
      case SessionRenamed(id, name) => ChangeKeepsSessions(d, d.sessions[id].(name := Some(name)));
      case SessionTargetChanged(id, target) => ChangeKeepsSessions(d, d.sessions[id].(defaultTarget := target));
      case SessionClosed(id) => ChangeKeepsSessions(d, d.sessions[id].(state := Closed));
    }
  }

  lemma StepKeepsSessions(d: Durable, event: DomainEvent)
    requires SessionsSound(d) && Accepts(d, event)
    ensures SessionsSound(Update(d, event))
  {
    if TouchesSessions(event) {
      SessionEventKeepsSessions(d, event);
    } else {
      OthersLeaveSessions(d, event);
      hide Update, Accepts;
    }
  }

  lemma CreationKeepsHousing(d: Durable, x: ExecutionSummary, payload: JournalPayload)
    requires SessionsSound(d) && ExecutionsHoused(d) && AcceptsExecution(d, x, payload)
    ensures ExecutionsHoused(d.(board := WithExecution(d.board, NewRecord(d, x, payload))))
  {
  }

  lemma StateChangeKeepsHousing(d: Durable, x: ExecutionId, s: ExecutionState)
    requires ExecutionsHoused(d) && IsLive(d.board, x)
    ensures ExecutionsHoused(d.(board := WithState(d.board, x, s)))
  {
    var c := WithState(d.board, x, s);
    assert forall id :: IsLive(c, id) ==> IsLive(d.board, id);
  }

  lemma SessionChangeKeepsHousing(d: Durable, e: Durable, s: SessionSummary)
    requires ExecutionsHoused(d)
    requires e.board == d.board && e.configRevisions == d.configRevisions && e.sessions == d.sessions[s.id := s]
    requires s.id in d.sessions ==> s.state == d.sessions[s.id].state || (s.state.Closed? && SessionQuiescent(d.board, s.id))
    ensures ExecutionsHoused(e)
  {
    forall id | IsLive(d.board, id)
      ensures OpenSession(e, d.board.executions[id].summary.session)
    {
      assert OpenSession(d, d.board.executions[id].summary.session);
    }
  }

  lemma SessionEventKeepsHousing(d: Durable, event: DomainEvent)
    requires SessionsSound(d) && ExecutionsHoused(d) && Accepts(d, event) && TouchesSessions(event)
    ensures ExecutionsHoused(Update(d, event))
  {
    hide ExecutionsHoused, SessionQuiescent, IdOrder.IsFirst;
    match event {
      case SessionCreated(s) => SessionChangeKeepsHousing(d, Update(d, event), s);
      case SessionConfigRebased(id, revision) => SessionChangeKeepsHousing(d, Update(d, event), d.sessions[id].(configRevision := revision));
      case SessionRenamed(id, name) => SessionChangeKeepsHousing(d, Update(d, event), d.sessions[id].(name := Some(name)));
      case SessionTargetChanged(id, target) => SessionChangeKeepsHousing(d, Update(d, event), d.sessions[id].(defaultTarget := target));
      case SessionClosed(id) => SessionChangeKeepsHousing(d, Update(d, event), d.sessions[id].(state := Closed));
    }
  }

  lemma StepKeepsHousing(d: Durable, event: DomainEvent)
    requires SessionsSound(d) && ExecutionsHoused(d) && Accepts(d, event)
    ensures ExecutionsHoused(Update(d, event))
  {
    if TouchesSessions(event) {
      SessionEventKeepsHousing(d, event);
    } else if event.ExecutionCreated? {
      CreationKeepsHousing(d, event.execution, event.payload);
    } else if event.ExecutionStateChanged? {
      StateChangeKeepsHousing(d, event.changed, event.state);
    } else {
      OthersLeaveSessions(d, event);
      BindingLeavesExecutions(d, event);
      hide Update, Accepts;
    }
  }

  lemma BindingLeavesExecutions(d: Durable, event: DomainEvent)
    requires Accepts(d, event) && !event.ExecutionCreated? && !event.ExecutionStateChanged?
    ensures Update(d, event).board.executions == d.board.executions
  {
    hide AcceptsSession, AcceptsDecision, AcceptsInterface, AcceptsNode, AcceptsGroup, AcceptsRetry, AcceptsFailure, AcceptsRoute,
      AcceptsCheckpoint, AcceptsFrontendEvent, SessionQuiescent, RetryBacked;
  }

  lemma StepKeepsEventLog(d: Durable, event: DomainEvent)
    requires EventLogSound(d) && Accepts(d, event)
    requires Evolves(d.board, Update(d, event).board)
    ensures EventLogSound(Update(d, event)) && d.events <= Update(d, event).events
  {
  }

  lemma GroupCarries(b: Board, c: Board, g: AttemptGroup)
    requires Evolves(b, c) && GroupSound(b, g)
    ensures GroupSound(c, g)
  {
    forall k | 0 <= k < |g.attempts| ensures AttemptSound(c, g, k) { assert AttemptSound(b, g, k); }
    forall k | 0 <= k < |g.failures| ensures FailureSound(c, g, k) { assert FailureSound(b, g, k); }
  }

  lemma FailureKeepsGroup(d: Durable, id: AttemptGroupId, failure: FailureAttemptSummary)
    requires AcceptsFailure(d, id, failure) && GroupSound(d.board, d.attemptGroups[id])
    ensures GroupSound(d.board, d.attemptGroups[id].RecordFailure(failure))
  {
    var g := d.attemptGroups[id];
    var n := |g.attempts|;
    assert |g.failures| == n ==> FailureSound(d.board, g, n - 1);
    var h := g.RecordFailure(failure);
    forall k | 0 <= k < |h.attempts| ensures AttemptSound(d.board, h, k) { assert AttemptSound(d.board, g, k); }
    forall k | 0 <= k < |h.failures| ensures FailureSound(d.board, h, k) {
      if k < |g.failures| { assert FailureSound(d.board, g, k); }
    }
  }

  lemma RetryKeepsGroup(d: Durable, id: AttemptGroupId, retry: ExecutionId)
    requires AcceptsRetry(d, id, retry) && GroupSound(d.board, d.attemptGroups[id])
    ensures GroupSound(d.board, d.attemptGroups[id].RecordRetry(retry))
  {
    var g := d.attemptGroups[id];
    var n := |g.attempts|;
    var k :| 0 <= k < |g.failures| && g.failures[k].execution == g.attempts[n - 1];
    assert FailureSound(d.board, g, k);
    assert !g.ContainsExecution(retry);
    var h := g.RecordRetry(retry);
    forall j | 0 <= j < |h.attempts| ensures AttemptSound(d.board, h, j) {
      if j < n { assert AttemptSound(d.board, g, j); }
    }
    forall j | 0 <= j < |h.failures| ensures FailureSound(d.board, h, j) { assert FailureSound(d.board, g, j); }
  }

  lemma NewGroupSound(d: Durable, group: AttemptGroup)
    requires AcceptsGroup(d, group)
    ensures GroupSound(d.board, group)
  {
    assert AttemptSound(d.board, group, 0) && FailureSound(d.board, group, 0);
  }

  lemma NewAttemptKeepsDisjoint(groups: Groups, id: AttemptGroupId, g: AttemptGroup, x: ExecutionId)
    requires GroupsDisjoint(groups) && !InSomeGroup(groups, x)
    requires forall y :: y in g.attempts ==> y == x || (id in groups && y in groups[id].attempts)
    ensures GroupsDisjoint(groups[id := g])
  {
    assert forall h :: h in groups ==> !groups[h].ContainsExecution(x);
  }

  lemma GroupsCarry(d: Durable, e: Durable)
    requires GroupsSound(d) && Evolves(d.board, e.board)
    requires e.attemptGroups == d.attemptGroups && e.nextAttemptGroup == d.nextAttemptGroup
    ensures GroupsSound(e)
  {
    forall g | g in d.attemptGroups ensures GroupSound(e.board, d.attemptGroups[g]) {
      GroupCarries(d.board, e.board, d.attemptGroups[g]);
    }
  }

  lemma GroupChangeKeepsGroups(d: Durable, g: AttemptGroup)
    requires GroupsSound(d) && g.id in d.attemptGroups && GroupSound(d.board, g)
    requires GroupsDisjoint(d.attemptGroups[g.id := g])
    ensures GroupsSound(d.(attemptGroups := d.attemptGroups[g.id := g]))
  {
    hide GroupSound, GroupsDisjoint;
  }

  lemma NewGroupKeepsGroups(d: Durable, group: AttemptGroup)
    requires GroupsSound(d) && AcceptsGroup(d, group)
    ensures GroupsSound(d.(attemptGroups := d.attemptGroups[group.id := group], nextAttemptGroup := d.nextAttemptGroup + 1))
  {
    NewGroupSound(d, group);
    assert group.attempts == [group.attempts[0]];
    NewAttemptKeepsDisjoint(d.attemptGroups, group.id, group, group.attempts[0]);
    hide GroupSound, GroupsDisjoint;
  }

  predicate TouchesGroups(event: DomainEvent) {
    event.AttemptGroupCreated? || event.AttemptFailureRecorded? || event.AttemptRetryStarted?
  }

  lemma OthersLeaveGroups(d: Durable, event: DomainEvent)
    requires Accepts(d, event) && !TouchesGroups(event)
    ensures Update(d, event).attemptGroups == d.attemptGroups && Update(d, event).nextAttemptGroup == d.nextAttemptGroup
  {
    hide AcceptsSession, AcceptsExecution, AcceptsDecision, AcceptsInterface, AcceptsNode, AcceptsRoute, AcceptsCheckpoint, AcceptsFrontendEvent,
      SessionQuiescent, RetryBacked, NewRecord, WithExecution, WithState;
  }

  lemma StepKeepsGroups(d: Durable, event: DomainEvent)
    requires GroupsSound(d) && Accepts(d, event)
    requires Evolves(d.board, Update(d, event).board)
    ensures GroupsSound(Update(d, event))
  {
    if !TouchesGroups(event) {
      OthersLeaveGroups(d, event);
      GroupsCarry(d, Update(d, event));
    } else {
      GroupEventKeepsGroups(d, event);
    }
  }

  lemma GroupEventKeepsGroups(d: Durable, event: DomainEvent)
    requires GroupsSound(d) && Accepts(d, event) && TouchesGroups(event)
    ensures GroupsSound(Update(d, event))
  {
    hide Evolves, InSomeGroup, GroupSound, GroupsDisjoint, IsFailedChildOf;
    match event {
      case AttemptGroupCreated(group) => NewGroupKeepsGroups(d, group);
      case AttemptFailureRecorded(id, failure) =>
        FailureKeepsGroup(d, id, failure);
        SameAttemptsKeepDisjoint(d.attemptGroups, id, d.attemptGroups[id].RecordFailure(failure));
        GroupChangeKeepsGroups(d, d.attemptGroups[id].RecordFailure(failure));
      case AttemptRetryStarted(id, retry) =>
        RetryKeepsGroup(d, id, retry);
        NewAttemptKeepsDisjoint(d.attemptGroups, id, d.attemptGroups[id].RecordRetry(retry), retry);
        GroupChangeKeepsGroups(d, d.attemptGroups[id].RecordRetry(retry));
    }
  }

  lemma SameAttemptsKeepDisjoint(groups: Groups, id: AttemptGroupId, g: AttemptGroup)
    requires GroupsDisjoint(groups) && id in groups && g.attempts == groups[id].attempts
    ensures GroupsDisjoint(groups[id := g])
  {
  }

  lemma StepKeepsDurable(d: Durable, event: DomainEvent)
    requires DurableInv(d) && Accepts(d, event)
    ensures DurableInv(Update(d, event)) && Evolves(d.board, Update(d, event).board)
    ensures d.events <= Update(d, event).events
  {
    StepKeepsBoard(d, event);
    StepKeepsSessions(d, event);
    StepKeepsHousing(d, event);
    StepKeepsEventLog(d, event);
    StepKeepsGroups(d, event);
  }

  lemma InitialIsSound(revision: ConfigRevisionId, fingerprint: ConfigRevisionFingerprint)
    ensures DurableInv(Initial(revision, fingerprint))
  {
  }

  /** Whatever wrote it, a journal that replays leads to a sound durable state. */
  lemma {:induction false} ReplayIsSound(start: Durable, events: seq<DomainEvent>)
    requires DurableInv(start) && Replay(start, events).Ok?
    ensures DurableInv(Replay(start, events).value)
    ensures Evolves(start.board, Replay(start, events).value.board)
    ensures start.events <= Replay(start, events).value.events
  {
    hide Accepts, Update, DurableInv, Evolves;
    if events == [] {
      EvolvesReflexive(start.board);
    } else {
      var before := events[..|events| - 1];
      ReplayIsSound(start, before);
      StepKeepsDurable(Replay(start, before).value, events[|events| - 1]);
      EvolvesTransitive(start.board, Replay(start, before).value.board, Replay(start, events).value.board);
    }
  }

  ghost predicate IsOver(b: Board, x: ExecutionId) {
    InState(b, x, Completed) || InState(b, x, Failed) || InState(b, x, Cancelled) || InState(b, x, Interrupted)
  }

  /** What is pending or running may change its state, and what is over may not. */
  lemma StateChangesUntilItIsOver(d: Durable, x: ExecutionId, s: ExecutionState)
    ensures IsOver(d.board, x) ==> !Accepts(d, ExecutionStateChanged(x, s))
    ensures InState(d.board, x, Pending) || InState(d.board, x, Running) ==>
      Accepts(d, ExecutionStateChanged(x, s)) && InState(Update(d, ExecutionStateChanged(x, s)).board, x, s)
  {
  }

  /**
   What has completed, failed, been cancelled or been interrupted stays exactly
   as it ended, whatever is recorded later.
   */
  lemma EndedForGood(start: Durable, events: seq<DomainEvent>, x: ExecutionId)
    requires DurableInv(start) && Replay(start, events).Ok? && IsOver(start.board, x)
    ensures x in Replay(start, events).value.board.executions
    ensures Replay(start, events).value.board.executions[x] == start.board.executions[x]
    ensures forall s :: !Accepts(start, ExecutionStateChanged(x, s))
  {
    ReplayIsSound(start, events);
    hide DurableInv, Replay, Accepts;
    forall s ensures !Accepts(start, ExecutionStateChanged(x, s)) { StateChangesUntilItIsOver(start, x, s); }
  }

  /** In a sound state at most the latest attempt of a group lacks a failure, and an execution is in one group at most. */
  lemma AttemptsExceptLatestFailed(d: Durable, g: AttemptGroupId, k: nat)
    requires GroupsSound(d) && g in d.attemptGroups && k < |d.attemptGroups[g].attempts| - 1
    ensures InState(d.board, d.attemptGroups[g].attempts[k], Failed)
    ensures d.attemptGroups[g].AttemptForExecution(d.attemptGroups[g].attempts[k]) == Some(k + 1)
    ensures forall h :: h in d.attemptGroups && d.attemptGroups[h].ContainsExecution(d.attemptGroups[g].attempts[k]) ==> h == g
  {
    assert FailureSound(d.board, d.attemptGroups[g], k);
  }

  // ---------------------------------------------------------------------------
  // Clients that resume from a cursor
  // ---------------------------------------------------------------------------

  /** What the runtime hands to a client that has seen the events up to `cursor`. */
  function EventsSince(events: seq<ExecutionEvent>, cursor: nat): seq<ExecutionEvent> {
    if events == [] then []
    else
      EventsSince(events[..|events| - 1], cursor) +
      if events[|events| - 1].sequence > cursor then [events[|events| - 1]] else []
  }

  lemma {:induction false} EventsSinceIsTheSuffix(events: seq<ExecutionEvent>, cursor: nat)
    requires forall i :: 0 <= i < |events| ==> events[i].sequence == i + 1
    ensures EventsSince(events, cursor) == if cursor <= |events| then events[cursor..] else []
  {
    if events != [] {
      var before := events[..|events| - 1];
      EventsSinceIsTheSuffix(before, cursor);
      if cursor <= |before| {
        assert events[cursor..] == before[cursor..] + [events[|events| - 1]];
      }
    }
  }

  type States = map<ExecutionId, ExecutionState>

  /** How a client tracks execution states from the events it receives. */
  function Track(states: States, events: seq<ExecutionEvent>): States {
    if events == [] then states
    else
      var last := events[|events| - 1];
      var before := Track(states, events[..|events| - 1]);
      if last.kind.StateChanged? then before[last.execution := last.kind.state] else before
  }

  /** The event log tells the current state of every execution. */
  ghost predicate LogAgrees(events: seq<ExecutionEvent>, executions: Executions) {
    && Track(map[], events).Keys == executions.Keys
    && (forall id :: id in executions ==> Track(map[], events)[id] == executions[id].summary.state)
  }

  lemma {:induction false} TrackSplits(states: States, events: seq<ExecutionEvent>, k: nat)
    requires k <= |events|
    ensures Track(states, events) == Track(Track(states, events[..k]), events[k..])
  {
    if k == |events| {
      assert events[..k] == events && events[k..] == [];
    } else {
      var before := events[..|events| - 1];
      TrackSplits(states, before, k);
      assert before[..k] == events[..k];
      assert events[k..][..|events[k..]| - 1] == before[k..];
    }
  }

  /**
   A client that tracked the states up to any cursor and resumes with
   `EventsSince` ends up with the states of the current snapshot.
   */
  lemma ResumedClientSeesTheSnapshot(d: Durable, cursor: nat)
    requires EventLogSound(d) && LogAgrees(d.events, d.board.executions) && cursor <= |d.events|
    ensures var states := Track(Track(map[], d.events[..cursor]), EventsSince(d.events, cursor));
      states == map id | id in d.board.executions :: d.board.executions[id].summary.state
  {
    EventsSinceIsTheSuffix(d.events, cursor);
    TrackSplits(map[], d.events, cursor);
  }
}
