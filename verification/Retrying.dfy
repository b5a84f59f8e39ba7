/**
 Deciding about a failed child: attempt groups, recoveries and the decisions
 that bind them.
 */
module Retrying {
  import opened PhenixCore
  import opened Records
  import opened Journal
  import opened Configuration
  import opened Delegation
  import opened BoardInvariants
  import opened DurableInvariants
  import opened Scheduler
  import opened SchedulerMoves
  import opened ExecutionTree
  import opened Settling
  import opened Creation
  import opened Cascade
  import opened Causes
  import opened Acting

  datatype DecisionRequest =
    | RequestRetry
    | RequestAnotherChild(callable: CallableId, objective: string)
    | RequestContinue
    | RequestFail

  /** The message of the latest error that `x` raised. */
  function LastError(events: seq<ExecutionEvent>, x: ExecutionId): Option<string> {
    if events == [] then None
    else
      var last := events[|events| - 1];
      if last.execution == x && last.kind.ErrorRaised? then Some(last.kind.message)
      else LastError(events[..|events| - 1], x)
  }

  /** The compact account of a failed attempt. */
  function FailureSummary(d: Durable, x: ExecutionId, attempt: nat): FailureAttemptSummary
    requires x in d.board.executions
  {
    FailureAttemptSummary(x, attempt, d.board.executions[x].summary.callable,
                          match LastError(d.events, x) case Some(message) => message case None => "execution failed")
  }

  /** Event `i` is the latest error that `x` raised. */
  ghost predicate IsLatestError(events: seq<ExecutionEvent>, x: ExecutionId, i: int) {
    && 0 <= i < |events| && events[i].execution == x && events[i].kind.ErrorRaised?
    && forall j :: i < j < |events| && events[j].execution == x ==> !events[j].kind.ErrorRaised?
  }

  /** The message of the latest error that `x` raised, or a general one if it raised none. */
  ghost predicate IsReason(events: seq<ExecutionEvent>, x: ExecutionId, reason: string) {
    || (exists i :: IsLatestError(events, x, i) && reason == events[i].kind.message)
    || (reason == "execution failed" && forall i :: 0 <= i < |events| && events[i].execution == x ==> !events[i].kind.ErrorRaised?)
  }

  ghost predicate Summarizes(d: Durable, x: ExecutionId, attempt: nat, summary: FailureAttemptSummary) {
    && x in d.board.executions
    && summary.execution == x && summary.attempt == attempt && summary.callable == d.board.executions[x].summary.callable
    && IsReason(d.events, x, summary.reason)
  }

  lemma {:induction false} LastErrorIsLatest(events: seq<ExecutionEvent>, x: ExecutionId)
    ensures match LastError(events, x)
      case Some(message) => exists i :: IsLatestError(events, x, i) && message == events[i].kind.message
      case None => forall i :: 0 <= i < |events| && events[i].execution == x ==> !events[i].kind.ErrorRaised?
  {
    if events != [] {
      var n := |events| - 1;
      var before := events[..n];
      LastErrorIsLatest(before, x);
      if events[n].execution == x && events[n].kind.ErrorRaised? {
        assert IsLatestError(events, x, n);
      } else if LastError(before, x).Some? {
        var i :| IsLatestError(before, x, i) && LastError(before, x).value == before[i].kind.message;
        assert forall j :: 0 <= j < n ==> events[j] == before[j];
        assert IsLatestError(events, x, i);
      } else {
        assert forall j :: 0 <= j < n ==> events[j] == before[j];
      }
    }
  }

  /** An error that was raised last is the reason. */
  lemma ErrorIsReason(d: Durable, e: Durable, f: Durable, x: ExecutionId, code: string, message: string, own: set<ExecutionId>)
    requires x in d.board.executions && e == Pushed(d, x, ErrorRaised(code, message)) && Explains(e, f, map[], own)
    ensures NextEventIs(d, f, EventFor(d, x, ErrorRaised(code, message))) && IsReason(f.events, x, message)
  {
    var i := |d.events|;
    assert f.events[i] == e.events[i];
    assert IsLatestError(f.events, x, i);
  }

  /** The account of a failure gives the latest error as its reason. */
  lemma FailureIsSummarized(d: Durable, x: ExecutionId, attempt: nat)
    requires x in d.board.executions
    ensures Summarizes(d, x, attempt, FailureSummary(d, x, attempt))
  {
    LastErrorIsLatest(d.events, x);
    hide LastError;
  }

  // ---------------------------------------------------------------------------
  // The decider and the failure it decides
  // ---------------------------------------------------------------------------

  /** `decider` may decide about `failed`, a child of the running orchestration `o`. */
  ghost predicate MayDecide(b: Board, decider: ExecutionId, o: ExecutionId, failed: ExecutionId) {
    && failed in b.interfaces && b.interfaces[failed] == decider && failed !in b.decisions
    && (InState(b, decider, Running) || InState(b, decider, Completed))
    && IsChild(b, o, decider)
    && IsOrchestration(b, o) && InState(b, o, Running)
  }

  lemma DeciderFacts(b: Board, decider: ExecutionId, o: ExecutionId, failed: ExecutionId)
    requires InterfacesSound(b) && MayDecide(b, decider, o, failed)
    ensures IsFailedChildOf(b, o, failed) && IsAgent(b, decider)
  {
    assert InterfaceSound(b, failed);
  }

  /** What the decider delegates, its orchestration delegates too. */
  lemma DeciderDelegationSuffices(b: Board, decider: ExecutionId, o: ExecutionId, callable: CallableId)
    requires Delegated(b) && IsChild(b, o, decider) && callable in b.executions[decider].authority.callables
    ensures o in b.executions && callable in b.executions[o].authority.callables
  {
    assert ParentAdmits(b, b.executions[decider].summary, b.executions[decider].authority);
    PermitsPointwise(b.executions[o].authority, b.executions[decider].authority);
  }

  // ---------------------------------------------------------------------------
  // Attempt groups
  // ---------------------------------------------------------------------------

  /** The group `id` is ready for the next attempt: `failed` is its latest attempt and its failure is on record. */
  ghost predicate AwaitsRetry(d: Durable, id: AttemptGroupId, failed: ExecutionId) {
    && id in d.attemptGroups
    && d.attemptGroups[id].LatestExecution() == Some(failed)
    && d.attemptGroups[id].HasFailureFor(failed)
  }

  lemma FailureIsAccepted(d: Durable, catalog: Catalog, id: AttemptGroupId, failed: ExecutionId)
    requires id in d.attemptGroups && d.attemptGroups[id].LatestExecution() == Some(failed)
    requires !d.attemptGroups[id].HasFailureFor(failed) && InState(d.board, failed, Failed)
    ensures d.attemptGroups[id].AttemptForExecution(failed).Some?
    ensures var failure := FailureSummary(d, failed, d.attemptGroups[id].AttemptForExecution(failed).value);
      var event := AttemptFailureRecorded(id, failure);
      && Accepts(d, event) && LiveGuard(d, catalog, event)
      && Update(d, event).board == d.board && Update(d, event).events == d.events
      && Update(d, event).attemptGroups == d.attemptGroups[id := d.attemptGroups[id].RecordFailure(failure)]
      && AwaitsRetry(Update(d, event), id, failed)
  {
    var group := d.attemptGroups[id];
    assert failed in group.attempts;
    var failure := FailureSummary(d, failed, group.AttemptForExecution(failed).value);
    var more := group.RecordFailure(failure);
    assert more.failures[|group.failures|].execution == failed;
  }

  lemma GroupIsAccepted(d: Durable, catalog: Catalog, o: ExecutionId, failed: ExecutionId, callable: CallableId, goal: Prompt)
    requires GroupsSound(d) && IsFailedChildOf(d.board, o, failed) && !InSomeGroup(d.attemptGroups, failed)
    requires d.board.executions[failed].summary.callable == Some(callable)
    ensures var id := d.nextAttemptGroup + 1;
      var group := AttemptGroup.FromFirstFailure(id, o, callable, goal, FailureSummary(d, failed, 1));
      var event := AttemptGroupCreated(group);
      && Accepts(d, event) && LiveGuard(d, catalog, event)
      && Update(d, event).board == d.board && Update(d, event).events == d.events
      && Update(d, event).attemptGroups == d.attemptGroups[id := group]
      && AwaitsRetry(Update(d, event), id, failed)
  {
    var group := AttemptGroup.FromFirstFailure(d.nextAttemptGroup + 1, o, callable, goal, FailureSummary(d, failed, 1));
    assert group.failures[0].execution == failed;
    assert group.attempts == [failed];
  }

  /** `failed` ran a callable on an input, and no later attempt of its group exists. */
  predicate Retriable(d: Durable, failed: ExecutionId) {
    && failed in d.board.executions
    && d.board.executions[failed].summary.callable.Some? && d.board.executions[failed].payload.InvocationPayload?
    && forall g :: g in d.attemptGroups && d.attemptGroups[g].ContainsExecution(failed) ==>
         d.attemptGroups[g].LatestExecution() == Some(failed)
  }

  /** The group's latest attempts are `failed` and, right after it, `retry`. */
  ghost predicate Retried(d: Durable, id: AttemptGroupId, failed: ExecutionId, retry: ExecutionId) {
    && id in d.attemptGroups
    && var attempts := d.attemptGroups[id].attempts;
    |attempts| >= 2 && attempts[|attempts| - 2] == failed && attempts[|attempts| - 1] == retry
  }

  /**
   The group `id` of `e` is the one that `failed` was in before, as its latest
   attempt, or else a new one with the given goal; the failure of `failed` is
   on record, and the attempts in `more` follow.
   */
  ghost predicate CarriesOn(d: Durable, e: Durable, id: AttemptGroupId, failed: ExecutionId, goal: Prompt, more: seq<ExecutionId>) {
    && id in e.attemptGroups && failed in d.board.executions
    && var after := e.attemptGroups[id];
    && Some(after.callable) == d.board.executions[failed].summary.callable
    && Some(after.parent) == d.board.executions[failed].summary.parent
    && if InSomeGroup(d.attemptGroups, failed) then
        && id in d.attemptGroups
        && var before := d.attemptGroups[id];
        && before.attempts != [] && before.attempts[|before.attempts| - 1] == failed
        && after.goal == before.goal && after.attempts == before.attempts + more
        && if exists k :: 0 <= k < |before.failures| && before.failures[k].execution == failed then
            after.failures == before.failures
          else
            && after.failures != [] && after.failures[..|after.failures| - 1] == before.failures
            && Summarizes(d, failed, |before.attempts|, after.failures[|after.failures| - 1])
      else
        && after.goal == goal && after.attempts == [failed] + more
        && |after.failures| == 1 && Summarizes(d, failed, 1, after.failures[0])
  }

  lemma GroupCarriesOn(d: Durable, e: Durable, id: AttemptGroupId, failed: ExecutionId, goal: Prompt)
    requires GroupsSound(d) && id in d.attemptGroups && InState(d.board, failed, Failed) && d.attemptGroups[id].LatestExecution() == Some(failed)
    requires e.attemptGroups == d.attemptGroups[id :=
      if d.attemptGroups[id].HasFailureFor(failed) then d.attemptGroups[id]
      else d.attemptGroups[id].(failures := d.attemptGroups[id].failures +
        [FailureSummary(d, failed, d.attemptGroups[id].AttemptForExecution(failed).value)])]
    ensures CarriesOn(d, e, id, failed, goal, [])
  {
    var group := d.attemptGroups[id];
    assert group.ContainsExecution(failed);
    assert GroupSound(d.board, group);
    assert AttemptSound(d.board, group, |group.attempts| - 1);
    assert group.attempts + [] == group.attempts;
    FailureIsSummarized(d, failed, group.AttemptForExecution(failed).value);
    hide Summarizes, FailureSummary, GroupsDisjoint;
    assert group.AttemptForExecution(failed).value == |group.attempts|;
  }

  lemma FirstFailureCarriesOn(d: Durable, e: Durable, id: AttemptGroupId, o: ExecutionId, failed: ExecutionId, callable: CallableId, goal: Prompt)
    requires !InSomeGroup(d.attemptGroups, failed) && IsChild(d.board, o, failed)
    requires d.board.executions[failed].summary.callable == Some(callable)
    requires e.attemptGroups == d.attemptGroups[id := AttemptGroup(id, o, callable, goal, [failed], [FailureSummary(d, failed, 1)])]
    ensures CarriesOn(d, e, id, failed, goal, [])
  {
    FailureIsSummarized(d, failed, 1);
    hide Summarizes, FailureSummary;
    assert [failed] + [] == [failed];
  }

  lemma RetryCarriesOn(d: Durable, m: Durable, e: Durable, id: AttemptGroupId, failed: ExecutionId, goal: Prompt, retry: ExecutionId)
    requires CarriesOn(d, m, id, failed, goal, []) && id in e.attemptGroups
    requires e.attemptGroups[id] == m.attemptGroups[id].(attempts := m.attemptGroups[id].attempts + [retry])
    ensures CarriesOn(d, e, id, failed, goal, [retry])
  {
    hide Summarizes;
    if InSomeGroup(d.attemptGroups, failed) {
      var before := d.attemptGroups[id].attempts;
      assert before + [] + [retry] == before + [retry];
    } else {
      assert [failed] + [] + [retry] == [failed] + [retry];
    }
  }

  /**
   The agent of `record` is the next attempt of the group of `failed`, and is
   given the goal of the group, which is what its first attempt was asked, and
   all failures so far.
   */
  ghost predicate AskedToRetry(d: Durable, e: Durable, id: AttemptGroupId, failed: ExecutionId, record: ExecutionRecord) {
    && failed in d.board.executions && d.board.executions[failed].payload.InvocationPayload?
    && CarriesOn(d, e, id, failed, d.board.executions[failed].payload.input, [record.summary.id])
    && record.payload == InvocationPayload(RetryPrompt(RetryContext(e.attemptGroups[id].goal, e.attemptGroups[id].failures)))
  }

  lemma AskedStill(d: Durable, e: Durable, f: Durable, id: AttemptGroupId, failed: ExecutionId, record: ExecutionRecord, later: ExecutionRecord)
    requires AskedToRetry(d, e, id, failed, record) && f.attemptGroups == e.attemptGroups
    requires later.summary.id == record.summary.id && later.payload == record.payload
    ensures AskedToRetry(d, f, id, failed, later)
  {
    hide Summarizes;
  }

  lemma RetryIsAccepted(d: Durable, e: Durable, catalog: Catalog, id: AttemptGroupId, o: ExecutionId, failed: ExecutionId,
                        callable: CallableId, child: ExecutionSummary, payload: JournalPayload)
    requires BoardInv(d.board) && GroupsSound(d) && AwaitsRetry(d, id, failed) && IsChild(d.board, o, failed)
    requires d.board.executions[failed].summary.callable == Some(callable)
    requires o in d.board.executions && child == ChildSummary(d.board, o, Agent, callable)
    requires ChildRecorded(d, e, child, payload)
    ensures var event := AttemptRetryStarted(id, child.id);
      && Accepts(e, event) && LiveGuard(e, catalog, event)
      && Update(e, event).board == e.board && Update(e, event).events == d.events
      && Retried(Update(e, event), id, failed, child.id)
  {
    var group := d.attemptGroups[id];
    var n := |group.attempts|;
    assert GroupSound(d.board, group);
    assert AttemptSound(d.board, group, n - 1);
    forall g | g in d.attemptGroups ensures !d.attemptGroups[g].ContainsExecution(child.id) {
      assert GroupSound(d.board, d.attemptGroups[g]);
      forall k | 0 <= k < |d.attemptGroups[g].attempts| ensures d.attemptGroups[g].attempts[k] != child.id {
        assert AttemptSound(d.board, d.attemptGroups[g], k);
      }
    }
    hide BoardInv, GroupSound, GroupsDisjoint, IsNewChild, Accepts;
    RetryAccepted(d, e, catalog, id, o, callable, child, payload) by { BoardFacts(d.board); }
  }

  /** A further attempt changes neither the goal nor the failures of its group. */
  lemma RetryKeepsContext(d: Durable, id: AttemptGroupId, retry: ExecutionId)
    requires Accepts(d, AttemptRetryStarted(id, retry))
    ensures id in d.attemptGroups && id in Update(d, AttemptRetryStarted(id, retry)).attemptGroups
    ensures var before, after := d.attemptGroups[id], Update(d, AttemptRetryStarted(id, retry)).attemptGroups[id];
      && after.goal == before.goal && after.failures == before.failures
      && after == before.(attempts := before.attempts + [retry])
  {
  }

  lemma RetryAccepted(d: Durable, e: Durable, catalog: Catalog, id: AttemptGroupId, o: ExecutionId,
                      callable: CallableId, child: ExecutionSummary, payload: JournalPayload)
    requires id in d.attemptGroups && d.attemptGroups[id].LatestExecution().Some?
    requires d.attemptGroups[id].HasFailureFor(d.attemptGroups[id].LatestExecution().value)
    requires d.attemptGroups[id].parent == o && d.attemptGroups[id].callable == callable
    requires forall g :: g in d.attemptGroups ==> !d.attemptGroups[g].ContainsExecution(child.id)
    requires o in d.board.executions && child == ChildSummary(d.board, o, Agent, callable)
    requires ChildRecorded(d, e, child, payload)
    ensures Accepts(e, AttemptRetryStarted(id, child.id)) && LiveGuard(e, catalog, AttemptRetryStarted(id, child.id))
  {
  }

  // ---------------------------------------------------------------------------
  // Decisions
  // ---------------------------------------------------------------------------

  lemma PlainDecisionIsAccepted(d: Durable, decider: ExecutionId, o: ExecutionId, failed: ExecutionId, decision: OrchestrationFailureDecision)
    requires BoardInv(d.board) && MayDecide(d.board, decider, o, failed) && (decision.Continue? || decision.Fail?)
    ensures var r := DecisionRecord(o, failed, Some(decider), decision);
      AcceptsDecision(d.board, r) && RetryBacked(d, r)
  {
    DeciderFacts(d.board, decider, o, failed);
    hide BoardInv;
  }

  /** `e` is `d` with the unannounced recovery `record`; only attempt groups may differ besides. */
  ghost predicate RecoveryCreated(d: Durable, e: Durable, o: ExecutionId, callable: CallableId, record: ExecutionRecord) {
    && IsNewChild(d.board, record, o, Agent, callable)
    && e.board == WithExecution(d.board, record)
    && e == d.(board := e.board, attemptGroups := e.attemptGroups, nextAttemptGroup := e.nextAttemptGroup)
  }

  lemma RecoveryIsAccepted(b: Board, decider: ExecutionId, o: ExecutionId, failed: ExecutionId, callable: CallableId, record: ExecutionRecord,
                           decision: OrchestrationFailureDecision)
    requires BoardInv(b) && MayDecide(b, decider, o, failed) && IsNewChild(b, record, o, Agent, callable)
    requires decision == Retry(record.summary.id)
      || (decision == ChooseAnotherChild(record.summary.id) && b.executions[failed].summary.callable != Some(callable))
    ensures AcceptsDecision(WithExecution(b, record), DecisionRecord(o, failed, Some(decider), decision))
  {
    DeciderFacts(b, decider, o, failed);
    FreshIsUnbound(b, record.summary.id);
    UnusedRecovery(b, record.summary.id);
    assert record.summary.id !in b.executions;
    hide BoardInv, Sequenced, DecisionsSound, InterfacesSound, NodesSound, IsRecovery, IsInterface;
  }

  lemma UnusedRecovery(b: Board, x: ExecutionId)
    requires !IsRecovery(b, x)
    ensures forall f :: f in b.decisions ==> b.decisions[f].decision.RecoveryExecution() != Some(x)
  {
  }

  lemma RetryIsBacked(d: Durable, id: AttemptGroupId, o: ExecutionId, failed: ExecutionId, decider: ExecutionId, retry: ExecutionId)
    requires Retried(d, id, failed, retry)
    ensures RetryBacked(d, DecisionRecord(o, failed, Some(decider), Retry(retry)))
  {
    assert d.attemptGroups[id].ContainsExecution(failed);
  }

  lemma RecoveryKeepsLog(d: Durable, m: Durable, o: ExecutionId, r: DecisionRecord, record: ExecutionRecord)
    requires m.board == WithExecution(d.board, record) && m.events == d.events && record.summary.state.Pending?
    requires r.parent == o && o in d.board.executions && record.summary.id !in d.board.executions
    requires LogCurrent(d)
    ensures LogCurrent(Announced(Decided(m, r), o, record.summary.id))
  {
    var f := Decided(m, r);
    LogAfterOther(d.events, d.board.executions, EventFor(m.(board := WithDecision(m.board, r)), o, DecisionMade(r)));
    var g := Pushed(f, o, ChildExecutionStarted(record.summary.id));
    LogAfterOther(f.events, d.board.executions, EventFor(f, o, ChildExecutionStarted(record.summary.id)));
    LogAfterCreation(g.events, d.board.executions, record, EventFor(g, record.summary.id, StateChanged(Pending)));
    hide LogAgrees;
  }

  lemma RecoveryKeepsCalm(b: Board, catalog: Catalog, o: ExecutionId, callable: CallableId, r: DecisionRecord, record: ExecutionRecord)
    requires BoardInv(b) && IsNewChild(b, record, o, Agent, callable) && r.parent == o && Calm(b, catalog, {})
    requires AcceptsDecision(WithExecution(b, record), r) && BoardInv(WithDecision(WithExecution(b, record), r))
    ensures Calm(WithDecision(WithExecution(b, record), r), catalog, {o})
  {
    hide BoardInv, AcceptsDecision, Calm;
    CreationKeepsBoard(b, record, o, Agent, callable);
    CreationKeepsCalm(b, catalog, {}, record, o);
    CalmForRefresh(WithExecution(b, record), catalog, {} + {o}, {o});
    DecisionKeepsCalm(WithExecution(b, record), catalog, {o}, r);
  }

  /** `e` differs from `d` in its attempt groups only. */
  ghost predicate OnlyGroups(d: Durable, e: Durable) {
    e == d.(attemptGroups := e.attemptGroups, nextAttemptGroup := e.nextAttemptGroup)
  }

  lemma GroupEventsTouchGroupsOnly(d: Durable, event: DomainEvent)
    requires Accepts(d, event) && TouchesGroups(event)
    ensures OnlyGroups(d, Update(d, event))
  {
    hide AcceptsGroup, AcceptsFailure, AcceptsRetry;
  }

  lemma RetryRecoveryCreated(d: Durable, m: Durable, e: Durable, f: Durable, id: AttemptGroupId, o: ExecutionId, callable: CallableId,
                             child: ExecutionSummary, payload: JournalPayload) returns (record: ExecutionRecord)
    requires OnlyGroups(d, m) && o in d.board.executions && child == ChildSummary(d.board, o, Agent, callable)
    requires ChildRecorded(m, e, child, payload) && OnlyGroups(e, f)
    ensures record.summary == child && record.payload == payload.Plain() && RecoveryCreated(d, f, o, callable, record)
  {
    record := e.board.executions[child.id];
  }

  lemma PlainRecoveryCreated(d: Durable, e: Durable, o: ExecutionId, callable: CallableId,
                             child: ExecutionSummary, payload: JournalPayload) returns (record: ExecutionRecord)
    requires o in d.board.executions && child == ChildSummary(d.board, o, Agent, callable)
    requires ChildRecorded(d, e, child, payload)
    ensures record.summary == child && record.payload == payload.Plain() && RecoveryCreated(d, e, o, callable, record)
  {
    record := e.board.executions[child.id];
  }

  lemma UniqueGroup(groups: Groups, id: AttemptGroupId, x: ExecutionId)
    requires GroupsDisjoint(groups) && id in groups && groups[id].ContainsExecution(x)
    ensures forall g :: g in groups && groups[g].ContainsExecution(x) ==> g == id
  {
  }

  lemma DecidedIsNoInterface(b: Board, decider: ExecutionId, o: ExecutionId, failed: ExecutionId)
    requires InterfacesApart(b) && MayDecide(b, decider, o, failed)
    ensures !IsInterface(b, failed)
  {
  }

  /** What deciding achieves: a decision by `decider`, and for a recovery the execution that takes over. */
  ghost predicate Decides(d: Durable, e: Durable, decider: ExecutionId, request: DecisionRequest, recovery: Option<ExecutionSummary>,
                          o: ExecutionId, failed: ExecutionId) {
    && MayDecide(d.board, decider, o, failed)
    && failed in d.board.executions && failed in e.board.decisions
    && e.board.decisions[failed].parent == o && e.board.decisions[failed].failedChild == failed && e.board.decisions[failed].decider == Some(decider)
    && match request
      case RequestRetry =>
        && recovery.Some? && e.board.decisions[failed].decision == Retry(recovery.value.id)
        && recovery.value.callable == d.board.executions[failed].summary.callable
        && recovery.value.id in e.board.executions
        && e.board.executions[recovery.value.id].summary.id == recovery.value.id
        && exists group ::
            Retried(e, group, failed, recovery.value.id) && AskedToRetry(d, e, group, failed, e.board.executions[recovery.value.id])
      case RequestAnotherChild(callable, objective) =>
        && recovery.Some? && e.board.decisions[failed].decision == ChooseAnotherChild(recovery.value.id)
        && recovery.value.callable == Some(callable) != d.board.executions[failed].summary.callable
        && recovery.value.id in e.board.executions
        && e.board.executions[recovery.value.id].payload == InvocationPayload(Text(objective))
      case RequestContinue => recovery.None? && e.board.decisions[failed].decision.Continue?
      case RequestFail => recovery.None? && e.board.decisions[failed].decision.Fail?
  }

  lemma CommitFacts(d: Durable, m: Durable, r: DecisionRecord, record: ExecutionRecord, callable: CallableId)
    requires RecoveryCreated(d, m, r.parent, callable, record) && BoardInv(d.board)
    ensures r.parent in m.board.executions && record.summary.id in m.board.executions
    ensures Decided(m, r).board == WithDecision(m.board, r) && Decided(m, r).attemptGroups == m.attemptGroups
    ensures r.parent in Decided(m, r).board.executions && record.summary.id in Decided(m, r).board.executions
    ensures Announced(Decided(m, r), r.parent, record.summary.id).board == WithDecision(m.board, r)
    ensures Announced(Decided(m, r), r.parent, record.summary.id).attemptGroups == m.attemptGroups
    ensures LogCurrent(d) ==> LogCurrent(Announced(Decided(m, r), r.parent, record.summary.id))
  {
    hide LogCurrent, BoardInv;
    assert record.summary.id !in d.board.executions by { BoardFacts(d.board); }
    if LogCurrent(d) { RecoveryKeepsLog(d, m, r.parent, r, record); }
    hide IsNewChild, LogCurrent;
    AnnouncedBoard(Decided(m, r), r.parent, record.summary.id);
  }

  lemma AnnouncedBoard(d: Durable, o: ExecutionId, child: ExecutionId)
    requires o in d.board.executions && child in d.board.executions
    ensures Announced(d, o, child).board == d.board && Announced(d, o, child).attemptGroups == d.attemptGroups
  {
  }

  lemma CascadeKeepsGroups(d: Durable, e: Durable, root: ExecutionId)
    requires Cascades(d, e, root)
    ensures e.attemptGroups == d.attemptGroups
  {
  }

  lemma SingletonBusy(b: Board, catalog: Catalog, o: ExecutionId)
    requires Calm(b, catalog, {o})
    ensures Calm(b, catalog, {} + {o})
  {
    hide Settled;
  }

  /** What a decision leaves for the refresh that follows it. */
  ghost predicate ReadyToRefresh(d: Durable, e: Durable, catalog: Catalog, o: ExecutionId) {
    && o in e.board.executions
    && KeepsOrchestrations(d.board, e.board)
    && Swept(d.board, e.board, RootOf(d.board, o)) && Spares(d.board, e.board, {})
    && (Calm(d.board, catalog, {}) ==> Calm(e.board, catalog, {o}))
    && (LogCurrent(d) ==> LogCurrent(e))
  }

  /** A recovery and the decision for it stay within the tree. */
  lemma RecoverySweeps(b: Board, o: ExecutionId, callable: CallableId, record: ExecutionRecord, r: DecisionRecord)
    requires BoardInv(b) && IsNewChild(b, record, o, Agent, callable) && AcceptsDecision(WithExecution(b, record), r) && IsOrchestration(b, o)
    ensures var c := WithDecision(WithExecution(b, record), r); Swept(b, c, RootOf(b, o)) && Spares(b, c, {})
  {
    hide BoardInv, AcceptsDecision, Evolves, Swept, RootOf, Spares;
    BoardFacts(b);
    CreationKeepsBoard(b, record, o, Agent, callable);
    BoardFacts(WithExecution(b, record));
    NewRecordIs(b, record, o, callable);
    CreationSweeps(b, record, o);
    DecisionBinds(WithExecution(b, record), r);
    BindingSweeps(WithExecution(b, record), WithDecision(WithExecution(b, record), r), RootOf(b, o));
    SweptTransitive(b, WithExecution(b, record), WithDecision(WithExecution(b, record), r), RootOf(b, o));
    KeptSpares(b, WithDecision(WithExecution(b, record), r));
  }

  lemma RecoveryDecides(d: Durable, m: Durable, e: Durable, catalog: Catalog, decider: ExecutionId, o: ExecutionId, failed: ExecutionId,
                        callable: CallableId, record: ExecutionRecord, request: DecisionRequest, decision: OrchestrationFailureDecision,
                        group: AttemptGroupId)
    requires BoardInv(d.board) && BoardInv(e.board) && MayDecide(d.board, decider, o, failed)
    requires RecoveryCreated(d, m, o, callable, record)
    requires AcceptsDecision(m.board, DecisionRecord(o, failed, Some(decider), decision))
    requires e.board == WithDecision(WithExecution(d.board, record), DecisionRecord(o, failed, Some(decider), decision))
    requires e.attemptGroups == m.attemptGroups && (LogCurrent(d) ==> LogCurrent(e))
    requires failed in d.board.executions
    requires match request
      case RequestRetry =>
        decision == Retry(record.summary.id) && Some(callable) == d.board.executions[failed].summary.callable
        && Retried(m, group, failed, record.summary.id) && AskedToRetry(d, m, group, failed, record)
      case RequestAnotherChild(chosen, objective) =>
        decision == ChooseAnotherChild(record.summary.id) && chosen == callable && Some(callable) != d.board.executions[failed].summary.callable
        && record.payload == InvocationPayload(Text(objective))
      case _ => false
    ensures Decides(d, e, decider, request, Some(record.summary), o, failed)
    ensures ReadyToRefresh(d, e, catalog, o)
  {
    hide BoardInv, LogCurrent, AcceptsDecision, Calm, MayDecide, AskedToRetry;
    if Calm(d.board, catalog, {}) {
      RecoveryKeepsCalm(d.board, catalog, o, callable, DecisionRecord(o, failed, Some(decider), decision), record);
    }
    if request.RequestRetry? {
      AskedStill(d, m, e, group, failed, record, record);
      assert Retried(e, group, failed, record.summary.id) && e.board.executions[record.summary.id] == record;
    }
    RecoveryKeepsOrchestrations(d, m, e, o, callable, record) by { BoardFacts(d.board); }
    DeciderParent(d.board, decider, o, failed);
    RecoverySweeps(d.board, o, callable, record, DecisionRecord(o, failed, Some(decider), decision));
  }

  lemma DeciderParent(b: Board, decider: ExecutionId, o: ExecutionId, failed: ExecutionId)
    requires MayDecide(b, decider, o, failed)
    ensures IsOrchestration(b, o)
  {
  }

  lemma RecoveryKeepsOrchestrations(d: Durable, m: Durable, e: Durable, o: ExecutionId, callable: CallableId, record: ExecutionRecord)
    requires Sequenced(d.board) && RecoveryCreated(d, m, o, callable, record)
    requires e.board.executions == WithExecution(d.board, record).executions
    ensures KeepsOrchestrations(d.board, e.board)
  {
  }

  lemma DecidedFacts(d: Durable, decider: ExecutionId, o: ExecutionId, failed: ExecutionId, r: DecisionRecord)
    requires InterfacesSound(d.board) && MayDecide(d.board, decider, o, failed) && r.failedChild == failed && r.parent == o
    ensures failed in d.board.executions && o in d.board.executions && WithDecision(d.board, r).executions == d.board.executions
    ensures failed in WithDecision(d.board, r).decisions && WithDecision(d.board, r).decisions[failed] == r
  {
    DeciderFacts(d.board, decider, o, failed);
  }

  lemma PlainDecides(d: Durable, e: Durable, catalog: Catalog, decider: ExecutionId, o: ExecutionId, failed: ExecutionId,
                     request: DecisionRequest, decision: OrchestrationFailureDecision)
    requires BoardInv(d.board) && BoardInv(e.board) && MayDecide(d.board, decider, o, failed)
    requires AcceptsDecision(d.board, DecisionRecord(o, failed, Some(decider), decision))
    requires e == Decided(d, DecisionRecord(o, failed, Some(decider), decision))
    requires (request.RequestContinue? && decision.Continue?) || (request.RequestFail? && decision.Fail?)
    ensures Decides(d, e, decider, request, None, o, failed)
    ensures ReadyToRefresh(d, e, catalog, o)
  {
    hide BoardInv, LogCurrent, AcceptsDecision, Calm, Cascades, MayDecide, Decided, WithDecision;
    var r := DecisionRecord(o, failed, Some(decider), decision);
    DecidedFacts(d, decider, o, failed, r) by { UnboundFacts(d.board); }
    DecisionCascades(d, r, RootOf(d.board, o));
    CascadeKeepsLog(d, e, RootOf(d.board, o));
    assert Swept(d.board, e.board, RootOf(d.board, o)) by { CascadeSweeps(d, e, RootOf(d.board, o)); }
    KeptSpares(d.board, e.board);
    if Calm(d.board, catalog, {}) {
      CalmForRefresh(d.board, catalog, {}, {o});
      DecisionKeepsCalm(d.board, catalog, {o}, r);
    }
  }

  /** A refresh leaves the decision and the attempt groups alone. */
  lemma DecidesStill(d: Durable, e: Durable, f: Durable, decider: ExecutionId, request: DecisionRequest, recovery: Option<ExecutionSummary>,
                     o: ExecutionId, failed: ExecutionId)
    requires Decides(d, e, decider, request, recovery, o, failed)
    requires failed in f.board.decisions && f.board.decisions[failed] == e.board.decisions[failed] && f.attemptGroups == e.attemptGroups
    requires Evolves(e.board, f.board)
    ensures Decides(d, f, decider, request, recovery, o, failed)
  {
    hide MayDecide, AskedToRetry;
    if request.RequestRetry? {
      var retry := recovery.value.id;
      var group :| Retried(e, group, failed, retry) && AskedToRetry(d, e, group, failed, e.board.executions[retry]);
      AskedStill(d, e, f, group, failed, e.board.executions[retry], f.board.executions[retry]);
      assert Retried(f, group, failed, retry);
    }
  }
}
