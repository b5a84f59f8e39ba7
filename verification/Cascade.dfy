/**
 What a cascade of state changes may do to the durable state, and how its
 steps compose.
 */
module Cascade {
  import opened PhenixCore
  import opened Records
  import opened Journal
  import opened Configuration
  import opened BoardInvariants
  import opened DurableInvariants
  import opened Scheduler
  import opened SchedulerMoves
  import opened ExecutionTree
  import opened Settling
  import opened Asking
  import opened Creation
  import opened Delegation
  import IdOrder

  /** `e` follows `d` by changes to the board and the log within the tree of `root`. */
  ghost predicate Cascades(d: Durable, e: Durable, root: ExecutionId) {
    && OnlyBoardAndLog(d, e)
    && Swept(d.board, e.board, root)
    && (LogCurrent(d) ==> LogCurrent(e))
  }

  lemma CascadesReflexive(d: Durable, root: ExecutionId)
    ensures Cascades(d, d, root)
  {
    SweptReflexive(d.board, root);
  }

  lemma CascadesTransitive(d: Durable, e: Durable, f: Durable, root: ExecutionId)
    requires Lineage(d.board) && Lineage(e.board)
    requires Cascades(d, e, root) && Cascades(e, f, root)
    ensures Cascades(d, f, root)
  {
    SweptTransitive(d.board, e.board, f.board, root);
    hide Swept, LogCurrent, Lineage;
  }

  lemma CascadeSweeps(d: Durable, e: Durable, root: ExecutionId)
    requires Cascades(d, e, root)
    ensures Swept(d.board, e.board, root)
  {
  }

  lemma CascadeCreatesAgents(d: Durable, e: Durable, root: ExecutionId)
    requires Cascades(d, e, root)
    ensures CreatesAgents(d.board, e.board) && Evolves(d.board, e.board)
  {
    hide OnlyInTree, LiveStatesKept, AgentsKept, LogCurrent;
  }

  lemma CascadeIsWithin(d: Durable, e: Durable, root: ExecutionId)
    requires Cascades(d, e, root)
    ensures Within(d.board, e.board, root)
  {
    SweptIsWithin(d.board, e.board, root);
    hide Swept, Within, LogCurrent;
  }

  lemma NothingLogged(d: Durable)
    ensures OnlyBoardAndLog(d, d)
  {
  }

  lemma CascadeOnlyLogs(d: Durable, e: Durable, f: Durable, root: ExecutionId)
    requires OnlyBoardAndLog(d, e) && Cascades(e, f, root)
    ensures OnlyBoardAndLog(d, f)
  {
    hide Swept, LogCurrent;
  }

  lemma CascadeEvolves(d: Durable, e: Durable, root: ExecutionId)
    requires Cascades(d, e, root)
    ensures Evolves(d.board, e.board)
    ensures LiveOrchestrations(e.board) <= LiveOrchestrations(d.board)
  {
    SweptShrinks(d.board, e.board, root);
  }

  lemma CascadeKeepsLog(d: Durable, e: Durable, root: ExecutionId)
    requires Cascades(d, e, root)
    ensures LogCurrent(d) ==> LogCurrent(e)
  {
  }

  // ---------------------------------------------------------------------------
  // Frontend events
  // ---------------------------------------------------------------------------

  lemma PushCascades(d: Durable, x: ExecutionId, kind: ExecutionEventKind, root: ExecutionId)
    requires x in d.board.executions && !kind.StateChanged? && !kind.ToolCallStarted?
    ensures Cascades(d, Pushed(d, x, kind), root)
  {
    SweptReflexive(d.board, root);
    if LogCurrent(d) { PushKeepsLog(d, x, kind); }
    hide Swept, LogCurrent;
  }

  /** The first event of the log that is new in `e`. */
  ghost predicate NextEventIs(d: Durable, e: Durable, event: ExecutionEvent) {
    d.events <= e.events && |d.events| < |e.events| && e.events[|d.events|] == event
  }

  /** Since `d` the frontend was told `kind` of `x`. */
  ghost predicate Tells(d: Durable, e: Durable, x: ExecutionId, kind: ExecutionEventKind) {
    exists i :: |d.events| <= i < |e.events| && e.events[i].execution == x && e.events[i].kind == kind
  }

  lemma PushedComesFirst(d: Durable, x: ExecutionId, kind: ExecutionEventKind, e: Durable, root: ExecutionId)
    requires x in d.board.executions && Cascades(Pushed(d, x, kind), e, root)
    ensures NextEventIs(d, e, EventFor(d, x, kind)) && Tells(d, e, x, kind)
  {
    hide Swept, LogCurrent;
    assert e.events[|d.events|] == EventFor(d, x, kind);
  }

  /** What was told in the middle of a cascade was told. */
  lemma ToldLater(d: Durable, e: Durable, f: Durable, root: ExecutionId, x: ExecutionId, kind: ExecutionEventKind)
    requires Cascades(d, e, root) && Tells(e, f, x, kind)
    ensures Tells(d, f, x, kind)
  {
    hide Swept, LogCurrent;
    var i :| |e.events| <= i < |f.events| && f.events[i].execution == x && f.events[i].kind == kind;
  }

  /** What was told before a cascade was told. */
  lemma ToldEarlier(d: Durable, e: Durable, f: Durable, root: ExecutionId, x: ExecutionId, kind: ExecutionEventKind)
    requires Tells(d, e, x, kind) && Cascades(e, f, root)
    ensures Tells(d, f, x, kind)
  {
    hide Swept, LogCurrent;
    var i :| |d.events| <= i < |e.events| && e.events[i].execution == x && e.events[i].kind == kind;
    assert f.events[i] == e.events[i];
  }

  // ---------------------------------------------------------------------------
  // State changes
  // ---------------------------------------------------------------------------

  /** `d` after `x` changed to `s` and the frontend was told. */
  function Moved(d: Durable, x: ExecutionId, s: ExecutionState): Durable
    requires x in d.board.executions
  {
    Pushed(d.(board := WithState(d.board, x, s)), x, StateChanged(s))
  }

  lemma MoveIsAccepted(d: Durable, catalog: Catalog, x: ExecutionId, s: ExecutionState)
    requires IsLive(d.board, x)
    requires IsOrchestration(d.board, x) ==> !s.Pending? && OutcomeJustified(d.board, catalog, x, s)
    ensures Accepts(d, ExecutionStateChanged(x, s)) && LiveGuard(d, catalog, ExecutionStateChanged(x, s))
    ensures Update(d, ExecutionStateChanged(x, s)) == d.(board := WithState(d.board, x, s))
  {
    hide OutcomeJustified;
  }

  lemma MoveKeepsLog(d: Durable, x: ExecutionId, s: ExecutionState)
    requires x in d.board.executions && LogCurrent(d)
    ensures LogCurrent(Moved(d, x, s))
  {
    var d1 := d.(board := WithState(d.board, x, s));
    LogAfterStateChange(d.events, d.board, EventFor(d1, x, StateChanged(s)), x, s);
    hide LogAgrees, WithState;
  }

  lemma MoveCascades(d: Durable, x: ExecutionId, s: ExecutionState)
    requires IsLive(d.board, x) && (IsTerminal(s) || (IsOrchestration(d.board, x) && s.Running?))
    ensures Cascades(d, Moved(d, x, s), RootOf(d.board, x))
    ensures IsTerminal(s) ==> LiveOrchestrations(Moved(d, x, s).board) == LiveOrchestrations(d.board) - {x}
  {
    hide Swept, LiveOrchestrations, LogCurrent, WithState, RootOf, IsOrchestration;
    StateChangeSweeps(d.board, x, s);
    if LogCurrent(d) { MoveKeepsLog(d, x, s); }
  }

  lemma MoveComesFirst(d: Durable, x: ExecutionId, s: ExecutionState, e: Durable, root: ExecutionId)
    requires x in d.board.executions && Cascades(Moved(d, x, s), e, root)
    ensures NextEventIs(d, e, EventFor(d, x, StateChanged(s)))
    ensures forall p, kind :: Tells(Moved(d, x, s), e, p, kind) ==> Tells(d, e, p, kind)
  {
    hide Swept, LogCurrent;
  }

  // ---------------------------------------------------------------------------
  // What a cascade starts
  // ---------------------------------------------------------------------------

  ghost predicate StartsNothing(b: Board, c: Board) {
    c.nextExecution == b.nextExecution
  }

  lemma StartsUnderNobody(b: Board, c: Board)
    requires Sequenced(b) && Sequenced(c) && Evolves(b, c)
    ensures StartsNothing(b, c) <==> StartsUnder(b, c, {})
  {
    assert forall id :: id in b.executions <==> 1 <= id <= b.nextExecution;
    if c.nextExecution != b.nextExecution { assert c.nextExecution in c.executions; }
  }

  /** What was below `x` has ended. */
  ghost predicate Quelled(b: Board, c: Board, x: ExecutionId) {
    forall y :: ProperDescendant(b, x, y) ==> !IsLive(c, y)
  }

  lemma QuelledHolds(b: Board, c: Board, e: Board, x: ExecutionId)
    requires Quelled(b, c, x) && Evolves(c, e) && Evolves(b, c)
    ensures Quelled(b, e, x)
  {
    forall y | ProperDescendant(b, x, y) ensures !IsLive(e, y) {
      assert y in b.executions && y in c.executions;
    }
  }

  /** If nothing was started below `x`, then nothing below `x` is live. */
  lemma QuelledForGood(b: Board, c: Board, x: ExecutionId)
    requires Lineage(b) && Lineage(c) && Evolves(b, c) && Quelled(b, c, x) && x in b.executions
    requires forall id :: id in c.executions && id !in b.executions ==> !InSubtree(c, x, id)
    ensures forall y :: ProperDescendant(c, x, y) ==> !IsLive(c, y)
  {
    forall y | ProperDescendant(c, x, y) ensures !IsLive(c, y) {
      assert y in b.executions;
      SubtreeStable(b, c, x, y);
    }
  }

  /** When nothing below a failed `x` starts anything, nothing below it is live. */
  lemma NothingLiveBelow(d: Durable, e: Durable, x: ExecutionId, parents: set<ExecutionId>, root: ExecutionId)
    requires BoardInv(d.board) && BoardInv(e.board) && Cascades(d, e, root) && x in d.board.executions
    requires Quelled(d.board, e.board, x) && StartsUnder(d.board, e.board, parents)
    requires forall y :: y in parents ==> !InSubtree(d.board, x, y)
    ensures forall y :: ProperDescendant(e.board, x, y) ==> !IsLive(e.board, y)
  {
    forall id | id in e.board.executions && id !in d.board.executions ensures !InSubtree(e.board, x, id) {
      StartsNothingBelow(d.board, e.board, parents, x, id);
    }
    QuelledForGood(d.board, e.board, x);
  }

  ghost predicate NobodyBelow(b: Board, busy: set<ExecutionId>, x: ExecutionId) {
    forall y :: y in busy ==> !ProperDescendant(b, x, y)
  }

  /** When nobody below a failed `x` was busy, what is below it has ended. */
  lemma FailureEndsAllBelow(d: Durable, e: Durable, busy: set<ExecutionId>, x: ExecutionId, root: ExecutionId)
    requires BoardInv(d.board) && BoardInv(e.board) && Cascades(d, e, root) && x in d.board.executions
    requires Quelled(d.board, e.board, x) && StartsUnder(d.board, e.board, busy - {x} + ParentOf(d.board, x))
    ensures NobodyBelow(d.board, busy, x) ==>
      forall y :: ProperDescendant(e.board, x, y) ==> !IsLive(e.board, y)
  {
    if NobodyBelow(d.board, busy, x) {
      forall y | y in ParentOf(d.board, x) ensures !InSubtree(d.board, x, y) {
        if InSubtree(d.board, x, y) { SubtreeBounds(d.board, x, y); }
      }
      NothingLiveBelow(d, e, x, busy - {x} + ParentOf(d.board, x), root);
    }
  }

  // ---------------------------------------------------------------------------
  // The phases of ending an execution
  // ---------------------------------------------------------------------------

  /** The busy executions once `x` has changed state: `x` itself no longer, but its parent if `x` is an agent that ended. */
  function Rest(b: Board, x: ExecutionId, s: ExecutionState, busy: set<ExecutionId>): set<ExecutionId> {
    if !IsTerminal(s) then busy + {x} else busy - {x} + (if IsAgent(b, x) then ParentOf(b, x) else {})
  }

  lemma MoveKeepsCalm(d: Durable, catalog: Catalog, busy: set<ExecutionId>, x: ExecutionId, s: ExecutionState)
    requires BoardInv(d.board) && NodesApart(d.board) && IsLive(d.board, x) && Calm(d.board, catalog, busy)
    ensures Calm(Moved(d, x, s).board, catalog, Rest(d.board, x, s, busy))
  {
    var c := Moved(d, x, s).board;
    StateChangeKeepsCalm(d.board, catalog, busy, x, s);
    if IsTerminal(s) {
      EndedIsCalm(c, catalog, busy + Stirred(d.board, x, s), x);
      assert x !in Stirred(d.board, x, s) by { assert ParentOf(d.board, x) == {} || d.board.executions[x].summary.parent.value < x; }
      assert busy + Stirred(d.board, x, s) - {x} == Rest(d.board, x, s, busy);
    } else {
      assert busy + Stirred(d.board, x, s) == Rest(d.board, x, s, busy);
    }
  }

  lemma MoveKeepsRoot(d: Durable, x: ExecutionId, s: ExecutionState)
    requires BoardInv(d.board) && IsLive(d.board, x)
    ensures RootOf(Moved(d, x, s).board, x) == RootOf(d.board, x)
    ensures InState(Moved(d, x, s).board, x, s)
    ensures forall p :: p in ParentOf(d.board, x) ==> IsChild(Moved(d, x, s).board, p, x) && RootOf(Moved(d, x, s).board, p) == RootOf(d.board, x)
  {
    StateChangeEvolves(d.board, x, s);
    SubtreeStable(d.board, Moved(d, x, s).board, x, x);
  }

  /** The proper descendants of `x` in the state where `x` has just ended are those of the state before. */
  lemma MovedSubtree(d: Durable, e: Durable, x: ExecutionId, s: ExecutionState)
    requires BoardInv(d.board) && IsLive(d.board, x) && Quelled(Moved(d, x, s).board, e.board, x)
    ensures Quelled(d.board, e.board, x)
  {
    StateChangeEvolves(d.board, x, s);
    forall y | ProperDescendant(d.board, x, y) ensures !IsLive(e.board, y) {
      SubtreeStable(d.board, Moved(d, x, s).board, x, y);
      assert ProperDescendant(Moved(d, x, s).board, x, y);
    }
  }

  ghost function MoveOf(b: Board, catalog: Catalog, o: ExecutionId): Move {
    if DefinitionOf(b, catalog, o).Some? then NextMove(b, DefinitionOf(b, catalog, o).value, o) else Wait
  }

  /** After a cancellation, or the end of what is no agent, the parent starts nothing. */
  lemma RefreshStartsNothing(b: Board, c: Board, catalog: Catalog, busy: set<ExecutionId>, x: ExecutionId, s: ExecutionState, p: ExecutionId)
    requires BoardInv(b) && Evolves(b, c) && IsLive(b, x) && IsChild(b, p, x) && LiveOrchestration(c, p)
    requires Calm(b, catalog, busy) && p !in busy
    requires !IsAgent(b, x) ==> Calm(c, catalog, busy - {x})
    requires IsAgent(b, x) ==> s.Cancelled? && c == WithState(b, x, Cancelled)
    ensures !MoveOf(c, catalog, p).Creates()
  {
    assert p < x && LiveOrchestration(b, p);
    if IsAgent(b, x) {
      assert p in LiveOrchestrations(b);
      CancelledChildStartsNothing(b, catalog, x, p);
    } else {
      assert p in LiveOrchestrations(c);
      assert Settled(c, catalog, p);
    }
  }

  lemma CalmForRefresh(b: Board, catalog: Catalog, busy: set<ExecutionId>, more: set<ExecutionId>)
    requires Calm(b, catalog, busy) && busy <= more
    ensures Calm(b, catalog, more)
  {
  }
  // ---------------------------------------------------------------------------
  // Orchestrations that have all they need
  // ---------------------------------------------------------------------------

  ghost predicate Equipped(b: Board, configurations: Configurations, catalog: Catalog, o: ExecutionId) {
    && InState(b, o, Running)
    && b.executions[o].configRevision in configurations
    && DefinitionOf(b, catalog, o).Some?
    && NodeCallables(DefinitionOf(b, catalog, o).value) <= b.executions[o].authority.callables
  }

  /** Live orchestrations run, are bound and may start their nodes and interface. */
  ghost predicate AllEquipped(b: Board, configurations: Configurations, catalog: Catalog) {
    forall o :: o in LiveOrchestrations(b) ==> Equipped(b, configurations, catalog, o)
  }

  lemma CascadeKeepsEquipped(d: Durable, e: Durable, configurations: Configurations, catalog: Catalog, root: ExecutionId)
    requires Cascades(d, e, root) && AllEquipped(d.board, configurations, catalog)
    ensures AllEquipped(e.board, configurations, catalog)
  {
    hide NodeCallables;
    forall o | o in LiveOrchestrations(e.board) ensures Equipped(e.board, configurations, catalog, o) {
      assert o in LiveOrchestrations(d.board);
    }
  }

  /** Whatever orchestration is live in `c` is the same in `b`. */
  ghost predicate KeepsOrchestrations(b: Board, c: Board) {
    forall o :: o in LiveOrchestrations(c) ==> o in LiveOrchestrations(b) && c.executions[o] == b.executions[o]
  }

  lemma KeptOrchestrationsStayEquipped(b: Board, c: Board, configurations: Configurations, catalog: Catalog)
    requires KeepsOrchestrations(b, c) && AllEquipped(b, configurations, catalog)
    ensures AllEquipped(c, configurations, catalog)
  {
    hide NodeCallables;
    forall o | o in LiveOrchestrations(c) ensures Equipped(c, configurations, catalog, o) {
      assert Equipped(b, configurations, catalog, o);
    }
  }

  // ---------------------------------------------------------------------------
  // Following up on the end of `x`
  // ---------------------------------------------------------------------------

  /** The end of `x` gives its parent no reason to start anything, unless the parent is busy anyway. */
  ghost predicate Undisturbed(b: Board, catalog: Catalog, busy: set<ExecutionId>, x: ExecutionId, s: ExecutionState) {
    || Calm(b, catalog, busy)
    || (&& !s.Failed?
        && Calm(b, catalog, busy + ParentOf(b, x))
        && forall p :: p in ParentOf(b, x) && p !in busy && LiveOrchestration(b, p) ==> !MoveOf(b, catalog, p).Creates())
  }

  lemma MoveIsUndisturbed(d: Durable, catalog: Catalog, busy: set<ExecutionId>, x: ExecutionId, s: ExecutionState)
    requires BoardInv(d.board) && NodesApart(d.board) && IsLive(d.board, x) && IsTerminal(s)
    requires Calm(d.board, catalog, busy)
    requires s.Cancelled? || !IsAgent(d.board, x)
    ensures Undisturbed(Moved(d, x, s).board, catalog, busy - {x}, x, s)
  {
    hide Calm, BoardInv, NodesApart, Evolves, LiveOrchestration, MoveOf;
    var c := Moved(d, x, s).board;
    StateChangeEvolves(d.board, x, s);
    MoveKeepsCalm(d, catalog, busy, x, s);
    if !IsAgent(d.board, x) { CalmForRefresh(c, catalog, Rest(d.board, x, s, busy), busy - {x}); }
    forall p | p in ParentOf(c, x) && p !in busy - {x} && LiveOrchestration(c, p)
      ensures !MoveOf(c, catalog, p).Creates()
    {
      assert p != x by { BoardFacts(d.board); }
      RefreshStartsNothing(d.board, c, catalog, busy, x, s, p);
    }
    CalmForRefresh(c, catalog, Rest(d.board, x, s, busy), busy - {x} + ParentOf(c, x));
  }

  lemma MoveStartsNothing(d: Durable, e: Durable, x: ExecutionId, s: ExecutionState)
    requires IsLive(d.board, x)
    ensures ParentOf(Moved(d, x, s).board, x) == ParentOf(d.board, x)
    ensures forall parents :: StartsUnder(d.board, Moved(d, x, s).board, parents)
    ensures forall parents :: StartsUnder(Moved(d, x, s).board, e.board, parents) ==> StartsUnder(d.board, e.board, parents)
  {
    assert forall id :: id in Moved(d, x, s).board.executions <==> id in d.board.executions;
  }

  /** What holds between recording the end of `x` and following up on it. */
  lemma MoveOpens(d: Durable, catalog: Catalog, busy: set<ExecutionId>, x: ExecutionId, s: ExecutionState)
    requires BoardInv(d.board) && NodesApart(d.board) && IsLive(d.board, x) && IsTerminal(s)
    ensures var c := Moved(d, x, s).board;
      && InState(c, x, s) && c.executions[x].summary.parent == d.board.executions[x].summary.parent
      && RootOf(c, x) == RootOf(d.board, x)
      && (Calm(d.board, catalog, busy) ==> Calm(c, catalog, busy - {x} + ParentOf(c, x)))
      && (Calm(d.board, catalog, busy) && (s.Cancelled? || !IsAgent(d.board, x)) ==> Undisturbed(c, catalog, busy - {x}, x, s))
  {
    MoveKeepsRoot(d, x, s);
    if Calm(d.board, catalog, busy) {
      MoveKeepsCalm(d, catalog, busy, x, s);
      CalmForRefresh(Moved(d, x, s).board, catalog, Rest(d.board, x, s, busy), busy - {x} + ParentOf(Moved(d, x, s).board, x));
      if s.Cancelled? || !IsAgent(d.board, x) { MoveIsUndisturbed(d, catalog, busy, x, s); }
    }
    hide Calm, Undisturbed, RootOf, BoardInv, NodesApart;
  }

  lemma MoveEndsOnlyItself(d: Durable, x: ExecutionId, s: ExecutionState)
    requires x in d.board.executions
    ensures SparesOthers(d.board, Moved(d, x, s).board, x)
  {
  }

  /** What it amounts to that `x` merely starts running. */
  lemma MoveRuns(d: Durable, catalog: Catalog, busy: set<ExecutionId>, x: ExecutionId, s: ExecutionState)
    requires BoardInv(d.board) && NodesApart(d.board) && IsLive(d.board, x) && !IsTerminal(s)
    requires IsOrchestration(d.board, x) ==> s.Running?
    ensures var e := Moved(d, x, s);
      && (IsOrchestration(d.board, x) ==> Cascades(d, e, RootOf(d.board, x)))
      && InState(e.board, x, s) && SparesOthers(d.board, e.board, x) && Heeds(d.board, e.board, {x}, {})
      && (Calm(d.board, catalog, busy) ==> Calm(e.board, catalog, busy + {x}))
      && forall parents :: StartsUnder(d.board, e.board, parents)
  {
    if IsOrchestration(d.board, x) { MoveCascades(d, x, s); }
    if Calm(d.board, catalog, busy) { MoveKeepsCalm(d, catalog, busy, x, s); }
    MoveStartsNothing(d, Moved(d, x, s), x, s);
    MoveEndsOnlyItself(d, x, s);
    StateChangeHeeds(d.board, x, s);
    hide Calm, Cascades, BoardInv, NodesApart, SparesOthers, Heeds;
  }

  /** What recording the end of `x` and following up on it amount to. */
  lemma MoveCloses(d: Durable, e: Durable, x: ExecutionId, s: ExecutionState)
    requires IsLive(d.board, x) && IsTerminal(s) && BoardInv(d.board) && BoardInv(Moved(d, x, s).board)
    requires Cascades(Moved(d, x, s), e, RootOf(d.board, x))
    ensures Cascades(d, e, RootOf(d.board, x))
    ensures InState(e.board, x, s)
    ensures Quelled(Moved(d, x, s).board, e.board, x) ==> Quelled(d.board, e.board, x)
    ensures ParentOf(Moved(d, x, s).board, x) == ParentOf(d.board, x)
    ensures forall parents :: StartsUnder(Moved(d, x, s).board, e.board, parents) ==> StartsUnder(d.board, e.board, parents)
  {
    MoveCascades(d, x, s);
    CascadesTransitive(d, Moved(d, x, s), e, RootOf(d.board, x));
    MoveStartsNothing(d, e, x, s);
    if Quelled(Moved(d, x, s).board, e.board, x) { MovedSubtree(d, e, x, s); }
    EndStays(d, e, x, s);
    hide *;
  }

  /** What ends with `x` besides `x` itself ends because something failed. */
  lemma MoveSpares(d: Durable, e: Durable, catalog: Catalog, busy: set<ExecutionId>, x: ExecutionId, s: ExecutionState)
    requires BoardInv(d.board) && IsLive(d.board, x) && IsTerminal(s) && Cascades(Moved(d, x, s), e, RootOf(d.board, x))
    requires FollowsUp(Moved(d, x, s).board, e.board, catalog, busy, x, s)
    ensures SparesOthers(d.board, e.board, x) && Heeds(d.board, e.board, {x}, ParentOf(d.board, x))
  {
    var c := Moved(d, x, s).board;
    StateChangeEvolves(d.board, x, s);
    CascadeEvolves(Moved(d, x, s), e, RootOf(d.board, x));
    assert Spares(c, e.board, if s.Failed? then Below(c, x) else {});
    assert Heeds(c, e.board, if s.Failed? then Below(c, x) else {}, ParentOf(c, x));
    assert c == WithState(d.board, x, s);
    BoardFacts(d.board);
    StateChangeHeeds(d.board, x, s);
    hide *;
    EndSpares(d.board, e.board, x, s);
    EndHeeds(d.board, e.board, x, s);
  }

  /** Whoever is below a failed `x` has something failed above it. */
  lemma EndHeeds(b: Board, e: Board, x: ExecutionId, s: ExecutionState)
    requires Lineage(b) && IsLive(b, x) && InState(e, x, s)
    requires var c := WithState(b, x, s); Evolves(b, c) && Evolves(c, e)
    requires var c := WithState(b, x, s);
      var gone := if s.Failed? then Below(c, x) else {};
      Heeds(b, c, {x}, {}) && Heeds(c, e, gone, ParentOf(c, x)) && Spares(c, e, gone)
    ensures Heeds(b, e, {x}, ParentOf(b, x))
  {
    var c := WithState(b, x, s);
    var gone := if s.Failed? then Below(c, x) else {};
    assert Lineage(c) && c.executions.Keys == b.executions.Keys && ParentOf(c, x) == ParentOf(b, x) - {x};
    forall o | o in gone ensures FailedAround(b, e, o) { SubtreeStable(b, c, x, o); }
    hide Lineage, Evolves, WithState, Spares, HasToAsk, FailedAround;
    HeedsTransitive(b, c, e, {x}, gone, {}, ParentOf(c, x));
  }

  lemma EndSpares(b: Board, e: Board, x: ExecutionId, s: ExecutionState)
    requires Lineage(b) && IsLive(b, x) && Evolves(b, WithState(b, x, s)) && Evolves(WithState(b, x, s), e)
    requires Spares(WithState(b, x, s), e, if s.Failed? then Below(WithState(b, x, s), x) else {})
    ensures SparesOthers(b, e, x)
  {
    var c := WithState(b, x, s);
    hide Lineage, BelowFailure, InSubtree;
    forall y | y != x && IsLive(b, y) && !IsOrchestration(b, y) && !IsLive(e, y) ensures InState(e, y, Cancelled) && BelowFailure(b, e, y) {
      assert IsLive(c, y) && !IsOrchestration(c, y);
      FailureCarries(b, c, e, y);
      if s.Failed? && y in Below(c, x) {
        SubtreeStable(b, c, x, y);
        FailedAbove(b, e, x, y);
      }
    }
  }

  lemma FailedAbove(b: Board, e: Board, x: ExecutionId, y: ExecutionId)
    requires IsLive(b, x) && InState(e, x, Failed) && ProperDescendant(b, x, y)
    ensures BelowFailure(b, e, y)
  {
  }

  lemma EndStays(d: Durable, e: Durable, x: ExecutionId, s: ExecutionState)
    requires x in d.board.executions && IsTerminal(s) && Cascades(Moved(d, x, s), e, RootOf(d.board, x))
    ensures InState(e.board, x, s)
  {
    assert InState(Moved(d, x, s).board, x, s);
  }

  /** The parent's refresh finds a settled parent or the move it had before. */
  lemma RefreshIsUndisturbed(b: Board, c: Board, catalog: Catalog, busy: set<ExecutionId>, x: ExecutionId, s: ExecutionState, p: ExecutionId)
    requires BoardInv(b) && Evolves(b, c) && IsChild(b, p, x) && LiveOrchestration(c, p) && p !in busy
    requires Undisturbed(b, catalog, busy, x, s)
    requires Calm(b, catalog, busy) ==> Calm(c, catalog, busy)
    requires !s.Failed? ==> c == b
    ensures !MoveOf(c, catalog, p).Creates()
  {
    if Calm(b, catalog, busy) {
      assert p in LiveOrchestrations(c);
      assert Settled(c, catalog, p);
    } else {
      assert p in ParentOf(b, x);
    }
  }

  /** What the parent of an ended `x` finds once the descendants of `x` are dealt with. */
  lemma FollowUpOpens(d: Durable, e: Durable, x: ExecutionId, p: ExecutionId)
    requires BoardInv(d.board) && Cascades(d, e, RootOf(d.board, x)) && IsChild(d.board, p, x)
    ensures IsChild(e.board, p, x) && p in e.board.executions
    ensures RootOf(e.board, p) == RootOf(d.board, x)
  {
    SubtreeStable(d.board, e.board, x, x);
  }

  /** What cancelling everything below `x` achieves. */
  ghost predicate CancelsBelow(b: Board, c: Board, catalog: Catalog, busy: set<ExecutionId>, x: ExecutionId) {
    && Quelled(b, c, x)
    && Spares(b, c, Below(b, x)) && Heeds(b, c, Below(b, x), {})
    && (Calm(b, catalog, busy) ==> Calm(c, catalog, busy) && StartsUnder(b, c, busy))
  }

  /** What telling the parent `p` that a child ended achieves: `p` is no longer busy. */
  ghost predicate Notifies(b: Board, c: Board, catalog: Catalog, busy: set<ExecutionId>, p: ExecutionId) {
    && (Calm(b, catalog, busy + {p}) ==> Calm(c, catalog, busy) && StartsUnder(b, c, busy + {p}))
    && (Calm(b, catalog, busy + {p}) && !MoveOf(b, catalog, p).Creates() ==> StartsUnder(b, c, busy))
    && (!LiveOrchestration(b, p) ==> StartsUnder(b, c, {}))
    && Spares(b, c, {}) && Heeds(b, c, {}, {p})
  }

  /** What following up on the end of `x` achieves. */
  ghost predicate FollowsUp(b: Board, c: Board, catalog: Catalog, busy: set<ExecutionId>, x: ExecutionId, s: ExecutionState) {
    && (s.Failed? ==> Quelled(b, c, x))
    && Spares(b, c, if s.Failed? then Below(b, x) else {})
    && Heeds(b, c, if s.Failed? then Below(b, x) else {}, ParentOf(b, x))
    && (Calm(b, catalog, busy + ParentOf(b, x)) ==> Calm(c, catalog, busy) && StartsUnder(b, c, busy + ParentOf(b, x)))
    && (Undisturbed(b, catalog, busy, x, s) ==> StartsUnder(b, c, busy))
  }

  function Waiting(b: Board, x: ExecutionId, busy: set<ExecutionId>, calm: bool): set<ExecutionId> {
    if calm then busy else busy + ParentOf(b, x)
  }

  /** No live orchestration waits for `x`. */
  predicate Unawaited(b: Board, x: ExecutionId) {
    forall p :: p in ParentOf(b, x) ==> !LiveOrchestration(b, p)
  }

  /** A live orchestration waits for `x`, but its configuration revision is not bound. */
  predicate AwaitedUnbound(b: Board, configurations: Configurations, x: ExecutionId) {
    exists p :: p in ParentOf(b, x) && LiveOrchestration(b, p) && b.executions[p].configRevision !in configurations
  }

  /** The orchestration that waits for `x` cannot react to its end, and nothing is below `x` that a failure would take along. */
  ghost predicate Unheard(b: Board, configurations: Configurations, x: ExecutionId, s: ExecutionState) {
    AwaitedUnbound(b, configurations, x) && (s.Failed? ==> Below(b, x) == {})
  }

  lemma MoveKeepsUnheard(d: Durable, configurations: Configurations, x: ExecutionId, s: ExecutionState)
    requires BoardInv(d.board) && IsLive(d.board, x)
    ensures Moved(d, x, s).board == WithState(d.board, x, s)
    ensures Unawaited(d.board, x) ==> Unawaited(Moved(d, x, s).board, x)
    ensures Unheard(d.board, configurations, x, s) ==> Unheard(Moved(d, x, s).board, configurations, x, s)
  {
    MoveKeepsAwaited(d, configurations, x, s);
    MoveKeepsBelow(d, x, s);
    hide AwaitedUnbound, Unawaited, Below, BoardInv, Moved;
  }

  lemma MoveKeepsBelow(d: Durable, x: ExecutionId, s: ExecutionState)
    requires BoardInv(d.board) && IsLive(d.board, x)
    ensures Below(d.board, x) == {} ==> Below(Moved(d, x, s).board, x) == {}
  {
    var c := Moved(d, x, s).board;
    StateChangeEvolves(d.board, x, s);
    forall y | y in Below(c, x) ensures y in Below(d.board, x) { SubtreeStable(d.board, c, x, y); }
  }

  lemma MoveKeepsAwaited(d: Durable, configurations: Configurations, x: ExecutionId, s: ExecutionState)
    requires BoardInv(d.board) && IsLive(d.board, x)
    ensures Moved(d, x, s).board == WithState(d.board, x, s)
    ensures Unawaited(d.board, x) ==> Unawaited(Moved(d, x, s).board, x)
    ensures AwaitedUnbound(d.board, configurations, x) ==> AwaitedUnbound(Moved(d, x, s).board, configurations, x)
  {
    var c := Moved(d, x, s).board;
    assert ParentOf(c, x) == ParentOf(d.board, x);
    assert forall p :: p in ParentOf(d.board, x) ==> p < x;
    assert forall p :: p in ParentOf(d.board, x) ==> (LiveOrchestration(c, p) <==> LiveOrchestration(d.board, p));
  }

  /** Nobody to tell. */
  lemma FollowUpOrphan(b: Board, c: Board, catalog: Catalog, busy: set<ExecutionId>, x: ExecutionId, s: ExecutionState)
    requires ParentOf(b, x) == {}
    requires if s.Failed? then CancelsBelow(b, c, catalog, Waiting(b, x, busy, Calm(b, catalog, busy)), x) else c == b
    ensures FollowsUp(b, c, catalog, busy, x, s)
  {
    assert busy + ParentOf(b, x) == busy;
  }

  /** What the executions below a failed `x` leave to do for its parent `p`. */
  lemma FollowUpWaits(b: Board, c: Board, catalog: Catalog, busy: set<ExecutionId>, x: ExecutionId, s: ExecutionState, p: ExecutionId)
    requires IsChild(b, p, x) && x in b.executions
    requires if s.Failed? then CancelsBelow(b, c, catalog, Waiting(b, x, busy, Calm(b, catalog, busy)), x) else c == b
    requires Calm(b, catalog, busy + {p})
    ensures Calm(c, catalog, busy + {p}) && StartsUnder(b, c, busy + {p})
    ensures Calm(b, catalog, busy) ==> Calm(c, catalog, busy)
    ensures Undisturbed(b, catalog, busy, x, s) ==> StartsUnder(b, c, busy)
  {
    if Calm(b, catalog, busy) && Calm(c, catalog, busy) { CalmForRefresh(c, catalog, busy, busy + {p}); }
  }

  lemma FollowUpCloses(d: Durable, e: Durable, f: Durable, catalog: Catalog, busy: set<ExecutionId>, x: ExecutionId, s: ExecutionState,
                       p: ExecutionId, root: ExecutionId)
    requires BoardInv(d.board) && Lineage(e.board) && IsChild(d.board, p, x) && x !in busy
    requires Cascades(d, e, root) && Cascades(e, f, root)
    requires if s.Failed? then CancelsBelow(d.board, e.board, catalog, Waiting(d.board, x, busy, Calm(d.board, catalog, busy)), x) else e == d
    requires Notifies(e.board, f.board, catalog, busy, p)
    ensures FollowsUp(d.board, f.board, catalog, busy, x, s)
  {
    hide Cascades, Calm, StartsUnder, Quelled, BoardInv, Undisturbed, Evolves, MoveOf, LiveOrchestrations, LiveOrchestration, Spares, Below, Heeds,
      Lineage;
    CascadeEvolves(d, e, root);
    CascadeEvolves(e, f, root);
    if s.Failed? { QuelledHolds(d.board, e.board, f.board, x); }
    FollowUpSpares(d.board, e.board, f.board, x, s);
    FollowUpHeeds(d.board, e.board, f.board, x, s, p);
    assert ParentOf(d.board, x) == {p};
    if Calm(d.board, catalog, busy) { CalmForRefresh(d.board, catalog, busy, busy + {p}); }
    if Calm(d.board, catalog, busy + {p}) {
      FollowUpWaits(d.board, e.board, catalog, busy, x, s, p);
      StartsUnderTransitive(d.board, e.board, f.board, busy + {p});
      if Undisturbed(d.board, catalog, busy, x, s) {
        ParentStartsNothing(d.board, e.board, f.board, catalog, busy, x, s, p);
        StartsUnderTransitive(d.board, e.board, f.board, busy);
      }
    }
    assert Undisturbed(d.board, catalog, busy, x, s) ==> Calm(d.board, catalog, busy + {p}) by { UndisturbedIsCalm(d.board, catalog, busy, x, s); }
  }

  lemma FollowUpSpares(b: Board, c: Board, e: Board, x: ExecutionId, s: ExecutionState)
    requires BoardInv(b) && Evolves(b, c) && Evolves(c, e) && Spares(c, e, {})
    requires if s.Failed? then Spares(b, c, Below(b, x)) else c == b
    ensures Spares(b, e, if s.Failed? then Below(b, x) else {})
  {
    hide BoardInv, Evolves, Spares, Below;
    BoardFacts(b);
    if s.Failed? {
      SparesTransitive(b, c, e, Below(b, x), {});
      assert Below(b, x) + {} == Below(b, x);
    }
  }

  lemma FollowUpHeeds(b: Board, c: Board, e: Board, x: ExecutionId, s: ExecutionState, p: ExecutionId)
    requires BoardInv(b) && Lineage(c) && Evolves(b, c) && Evolves(c, e) && Spares(c, e, {}) && Heeds(c, e, {}, {p}) && IsChild(b, p, x)
    requires if s.Failed? then Heeds(b, c, Below(b, x), {}) else c == b
    ensures Heeds(b, e, if s.Failed? then Below(b, x) else {}, {p})
  {
    BoardFacts(b);
    hide BoardInv, Evolves, Spares, Lineage, Heeds;
    if s.Failed? {
      assert p !in Below(b, x) by { ParentIsNotBelow(b, x, p); }
      HeedsTransitive(b, c, e, Below(b, x), {}, {}, {p});
      assert Below(b, x) + {} == Below(b, x) && {} + ({p} - Below(b, x)) == {p};
    }
  }

  lemma ParentIsNotBelow(b: Board, x: ExecutionId, p: ExecutionId)
    requires Lineage(b) && IsChild(b, p, x)
    ensures p !in Below(b, x)
  {
    if InSubtree(b, x, p) { SubtreeBounds(b, x, p); }
  }

  lemma UndisturbedIsCalm(b: Board, catalog: Catalog, busy: set<ExecutionId>, x: ExecutionId, s: ExecutionState)
    ensures Undisturbed(b, catalog, busy, x, s) ==> Calm(b, catalog, busy + ParentOf(b, x))
  {
  }

  /** An undisturbed parent starts nothing when it is told. */
  lemma ParentStartsNothing(b: Board, c: Board, e: Board, catalog: Catalog, busy: set<ExecutionId>, x: ExecutionId, s: ExecutionState, p: ExecutionId)
    requires BoardInv(b) && Evolves(b, c) && IsChild(b, p, x) && Undisturbed(b, catalog, busy, x, s)
    requires Calm(b, catalog, busy) ==> Calm(c, catalog, busy)
    requires !s.Failed? ==> c == b
    requires Calm(c, catalog, busy + {p}) && Notifies(c, e, catalog, busy, p)
    ensures StartsUnder(c, e, busy)
  {
    if !LiveOrchestration(c, p) {
      StartsUnderMore(c, e, {}, busy);
    } else if p in busy {
      assert busy + {p} == busy;
    } else {
      RefreshIsUndisturbed(b, c, catalog, busy, x, s, p);
    }
    hide Calm, BoardInv, Evolves, Undisturbed, LiveOrchestration, MoveOf, StartsUnder;
  }

  // ---------------------------------------------------------------------------
  // Cancelling a set of executions
  // ---------------------------------------------------------------------------

  /** What has been achieved when the executions `done` have been dealt with. */
  ghost predicate CancelsSet(b: Board, c: Board, catalog: Catalog, busy: set<ExecutionId>, done: set<ExecutionId>) {
    && (forall id :: id in done ==> !IsLive(c, id))
    && Spares(b, c, done) && Heeds(b, c, done, {})
    && (Calm(b, catalog, busy) ==> Calm(c, catalog, busy) && StartsUnder(b, c, busy))
  }

  /** What cancelling `x` achieves. */
  ghost predicate Cancels(b: Board, c: Board, catalog: Catalog, busy: set<ExecutionId>, x: ExecutionId) {
    && !IsLive(c, x)
    && Spares(b, c, {x}) && Heeds(b, c, {x}, ToldOf(b, x))
    && (Calm(b, catalog, busy) ==> Calm(c, catalog, busy) && StartsUnder(b, c, busy))
  }

  lemma CancelStep(d: Durable, e: Durable, f: Durable, catalog: Catalog, busy: set<ExecutionId>,
                   done: set<ExecutionId>, x: ExecutionId, root: ExecutionId)
    requires Lineage(d.board) && Lineage(e.board) && Cascades(d, e, root) && Cascades(e, f, root) && done + {x} <= d.board.executions.Keys
    requires CancelsSet(d.board, e.board, catalog, busy, done)
    requires Cancels(e.board, f.board, catalog, busy, x)
    ensures CancelsSet(d.board, f.board, catalog, busy, done + {x})
  {
    hide Calm, Cascades, StartsUnder, LiveOrchestrations, Spares, Lineage, HasToAsk, Answered;
    CascadeEvolves(d, e, root);
    CascadeEvolves(e, f, root);
    SparesTransitive(d.board, e.board, f.board, done, {x});
    HeedsTransitive(d.board, e.board, f.board, done, {x}, {}, ToldOf(e.board, x));
    forall id | id in done ensures !IsLive(f.board, id) {
      assert id in d.board.executions && !IsLive(e.board, id);
    }
    if Calm(d.board, catalog, busy) { StartsUnderTransitive(d.board, e.board, f.board, busy); }
  }

  /** Whoever waits for `x` and has a question left is told of its end now. */
  lemma CancelAsksInTurn(d: Durable, e: Durable, f: Durable, catalog: Catalog, busy: set<ExecutionId>, ids: set<ExecutionId>,
                         done: set<ExecutionId>, remaining: set<ExecutionId>, x: ExecutionId, root: ExecutionId)
    requires Lineage(d.board) && Lineage(e.board) && Cascades(d, e, root) && Cascades(e, f, root) && ids <= d.board.executions.Keys
    requires CancelsSet(d.board, e.board, catalog, busy, done) && Cancels(e.board, f.board, catalog, busy, x)
    requires AsksInTurn(d.board, e.board, ids, done) && Precede(done, remaining) && IdOrder.IsFirst(x, remaining) && done + remaining == ids
    ensures AsksInTurn(d.board, f.board, ids, done + {x}) && Precede(done + {x}, remaining - {x})
  {
    hide Calm, Cascades, StartsUnder, LiveOrchestrations, Spares, Heeds, Lineage, HasToAsk, Answered, AsksInTurn, Precede, Evolves,
      IdOrder.IdBefore;
    CascadeEvolves(d, e, root);
    CascadeEvolves(e, f, root);
    AskInTurn(d.board, e.board, f.board, ids, done, remaining, x);
    FirstPrecedes(done, remaining, x);
  }

  /** What holds just before `x`, one of the executions to cancel, is dealt with. */
  lemma CancelOpens(d: Durable, e: Durable, x: ExecutionId, root: ExecutionId)
    requires BoardInv(d.board) && Cascades(d, e, root) && x in d.board.executions && RootOf(d.board, x) == root
    ensures x in e.board.executions && RootOf(e.board, x) == root
  {
    SubtreeStable(d.board, e.board, x, x);
  }

  lemma CancelIsJustified(b: Board, catalog: Catalog, x: ExecutionId)
    ensures OutcomeJustified(b, catalog, x, Cancelled)
  {
  }

  lemma NothingCancelled(b: Board, catalog: Catalog, busy: set<ExecutionId>)
    ensures CancelsSet(b, b, catalog, busy, {})
  {
  }

  lemma EndedNeedsNoCancelling(b: Board, catalog: Catalog, busy: set<ExecutionId>, x: ExecutionId)
    requires !IsLive(b, x)
    ensures Cancels(b, b, catalog, busy, x)
  {
  }

  /** Announcing the termination and then cancelling amount to cancelling. */
  lemma CancelCloses(d: Durable, e: Durable, f: Durable, catalog: Catalog, busy: set<ExecutionId>, x: ExecutionId, root: ExecutionId)
    requires Lineage(d.board) && e.board == d.board && Cascades(d, e, root) && Cascades(e, f, root)
    ensures Cascades(d, f, root)
    ensures InState(f.board, x, Cancelled) && SparesOthers(e.board, f.board, x) && Heeds(e.board, f.board, {x}, ParentOf(e.board, x))
      && (Calm(e.board, catalog, busy) ==> Calm(f.board, catalog, busy - {x}) && StartsUnder(e.board, f.board, busy - {x}))
      ==> Cancels(d.board, f.board, catalog, busy, x)
  {
    hide Calm, Cascades, Lineage, BelowFailure, HasToAsk, Answered, StartsUnder;
    CascadesTransitive(d, e, f, root);
    if Calm(f.board, catalog, busy - {x}) { CalmForRefresh(f.board, catalog, busy - {x}, busy); }
    if StartsUnder(e.board, f.board, busy - {x}) { StartsUnderMore(e.board, f.board, busy - {x}, busy); }
  }

  lemma BelowMayBeCancelled(b: Board, x: ExecutionId, ids: set<ExecutionId>)
    requires Lineage(b) && forall id :: id in ids ==> InSubtree(b, x, id)
    ensures forall id :: id in ids ==> id in b.executions && RootOf(b, id) == RootOf(b, x)
  {
    forall id | id in ids ensures RootOf(b, id) == RootOf(b, x) { RootOfSubtree(b, x, id); }
  }

  lemma BelowIsCancelled(b: Board, c: Board, catalog: Catalog, busy: set<ExecutionId>, x: ExecutionId, ids: set<ExecutionId>)
    requires forall id :: id in ids <==> ProperDescendant(b, x, id)
    requires CancelsSet(b, c, catalog, busy, ids)
    ensures CancelsBelow(b, c, catalog, busy, x)
  {
    hide Calm;
  }

  // ---------------------------------------------------------------------------
  // Cancelling a whole subtree
  // ---------------------------------------------------------------------------

  /** The live orchestrations of the subtree of `x` wait. */
  ghost predicate SettledWithin(b: Board, catalog: Catalog, x: ExecutionId) {
    forall o :: o in LiveOrchestrations(b) && InSubtree(b, x, o) ==> Settled(b, catalog, o)
  }

  ghost function Outside(b: Board, x: ExecutionId): set<ExecutionId> {
    set o | o in LiveOrchestrations(b) && !InSubtree(b, x, o)
  }

  /** The executions that may be busy while the subtree of `x` ends: none, or those that do not belong to it. */
  ghost function BusyOutside(b: Board, catalog: Catalog, x: ExecutionId): set<ExecutionId> {
    if Calm(b, catalog, {}) then {} else Outside(b, x)
  }

  lemma BusyOutsideIsCalm(b: Board, catalog: Catalog, x: ExecutionId)
    ensures SettledWithin(b, catalog, x) ==> Calm(b, catalog, BusyOutside(b, catalog, x))
    ensures Calm(b, catalog, {}) ==> SettledWithin(b, catalog, x) && BusyOutside(b, catalog, x) == {}
    ensures forall y :: y in BusyOutside(b, catalog, x) ==> y in LiveOrchestrations(b) && !InSubtree(b, x, y)
  {
    hide Settled;
  }

  /** A cancelled subtree in which nobody was busy has ended altogether. */
  lemma WholeSubtreeEnded(d: Durable, e: Durable, parents: set<ExecutionId>, x: ExecutionId, root: ExecutionId)
    requires BoardInv(d.board) && BoardInv(e.board) && Cascades(d, e, root) && x in d.board.executions
    requires StartsUnder(d.board, e.board, parents) && forall y :: y in parents ==> !InSubtree(d.board, x, y)
    requires forall id :: InSubtree(d.board, x, id) ==> !IsLive(e.board, id)
    ensures forall id :: InSubtree(e.board, x, id) ==> !IsLive(e.board, id)
  {
    forall id | InSubtree(e.board, x, id) ensures !IsLive(e.board, id) {
      if id in d.board.executions {
        SubtreeStable(d.board, e.board, x, id);
      } else {
        StartsNothingBelow(d.board, e.board, parents, x, id);
      }
    }
  }
}
