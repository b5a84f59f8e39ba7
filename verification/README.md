# Verified model of the Phenix conductor

The Phenix conductor keeps sessions and executions of agents and
orchestrations.  All durable fields change only through domain events that are
first appended to a journal and then validated and applied; a restart replays
the journal.  Orchestrations are directed acyclic graphs of agent calls: each
end of a child lets the orchestration start further nodes, hand a failure to
an interface agent for a decision, or conclude.  Worker threads take pending
executions from a queue and hold leases on workspaces while they run.

The project models this in Dafny and proves what it keeps and achieves.

* `PhenixCore`, `Records`, `Configuration`, `IdOrder`: identities, summaries,
  authority, attempt groups, conversation replay, definitions, and the order in
  which maps keyed by id strings are walked.
* `Journal`: the durable state as a value, with the accepted events and their
  effects.  `BoardInvariants` and `DurableInvariants` say what every journal
  that replays guarantees, whoever wrote it.
* `Scheduler`, `SchedulerSafety`, `SchedulerMoves`: the next move of an
  orchestration as a function of its children, safety over whole runs of a
  live runtime, and how moves change with the board.
* `ExecutionTree`, `Settling`, `Asking`, `Cascade`, `Causes`, `Acting`,
  `Opening`, `Retrying`, `Delegation`, `Creation`, `Provisioning`: what each
  step of the runtime does to trees, waiting orchestrations, the event log and
  the causes that it names, and authority.
* `Runtime`: the class `ConductorRuntime` with the runtime's own fields.  Its
  methods follow the source branch by branch.
* `Startup`: loading a stored journal and installing the configuration.
* `TopologicalOrder`, `Registration`: the registry and the deterministic
  ordering of definitions.
* `ExecutionQueue`, `ExecutionGroups`, `WorkspaceLeases`: the queue, the walks
  over snapshots that feed it, and the leases.
* `WorkerInvariants`, `WorkerRuns`, `Sheltering`, `Workers`, `WorkerLeases`: any
  number of workers and the reader of requests around one runtime and one
  queue, as a state machine whose steps each hold one lock, why sessions go on,
  and the leases they hold.
* `Situations`, `Standstill`: concrete states and runs that show where a
  property ends.

Some terms of the model.  A runtime is *valid* if its fields are what its
journal replays to, and *live* if moreover every event of the journal is one
that the runtime's own operations record.  A board is *calm* except for some
*busy* orchestrations if all other live orchestrations have nothing to do but
wait; a runtime *at rest* is calm without exception and its event log tells the
current state of every execution.  A runtime is *healthy* if its policy admits
every operation and every live orchestration runs under a bound configuration
and holds the callables it may start; it is *provisioned* if it would be
healthy with all its configurations bound and a policy that admits everything.
A *cascade* is whatever one state change sets off; it stays within one tree of
executions.  Every operation that returns Ok leads a runtime at rest to a
runtime at rest, so between operations every Running orchestration has a live
child; a healthy runtime stays healthy, and then ends and cancellations cannot
fail.  A new runtime whose policy admits everything is healthy; a restarted one
is again exactly when the revisions of its live orchestrations are bound.  A tree of executions is *obstructed* if it
has a live orchestration below an execution that failed, was cancelled or was
interrupted.  A session is *stuck* if it is held by a tree of which no job is
pending or in flight.  The tool that starts orchestrations has a *reserved* id;
the server gives it to root executions if orchestrations are configured, and
besides gives every execution the tools that its configuration registers, except
those that write files if the execution may not.

Where the code does less than one might expect:

* After a restart no configuration is bound, so interrupting what was running
  fails for every execution that a live orchestration waits for
  (`LoadJournal` and `InterruptNonResumable` state exactly when it succeeds;
  `RestartMayFail` runs into the failing case from an empty journal).
* A cancellation walks the ids in the order of their strings.  An orchestration
  of the subtree that has not reacted to a failure yet may start an agent
  meanwhile, which stays live (`CancellationMayStartAnAgent`,
  `CancellationLeavesAnAgent`, and for all boards
  `CancellationLeavesWhoIsAsked`); a state change that fails because a revision
  is not bound leaves such an orchestration (`FailureWithoutReaction`).  When the
  live orchestrations of the subtree were waiting, as they are between
  operations, the whole subtree ends (`CancelExecution`).
* A configuration may register a tool under the reserved id.  Then agents may be
  given it too, and an agent may leave a live orchestration below a plan that
  was stopped.  Such an obstructed tree is not at rest
  (`ObstructedIsNeverAtRest`), and if it still is obstructed when its last job
  is handed back, the session is stuck (`LastJobFreesOrSticks`) and stays so
  whatever happens later, even if the tree is cancelled (`StuckForGood`).
  `ObstructedTreeKeepsItsSession` runs into this from an empty journal.  With
  any other configuration no interleaving keeps a session, not even a
  cancellation between a look and a completion or between a snapshot and the
  enqueuing of what it showed (`WorkersNeverStall`).
* A second read lease of one execution on one workspace is forgotten when the
  first is dropped (`ReleaseIsAccurateForSingleLeases`, with
  `DuplicateReaderIsForgotten` as the case); the queue's at-most-once dispatch
  keeps this from happening (`WorkersKeepTheRecord`).
* Cancelling or interrupting an orchestration does not end its children; only
  a failure does (`EndSpares`, and the contracts of `SetState` and
  `CancelExecution`).
* A child may be created under a parent that has ended, so "nothing live below
  a failed execution" is a postcondition of the failure and not an invariant.

## Model

| member | source | states |
|---|---|---|
| Runtime.ConductorRuntime.RunningHasALiveChild | rust/crates/phenix-conductor/src/failure_decisions.rs:447-632 | progress: in a live runtime at rest, every Running orchestration has a child that has not ended |
| Settling.CalmMakesProgress | rust/crates/phenix-conductor/src/failure_decisions.rs:447-632 | where every live orchestration waits, a Running one has a live child, whatever failures, decisions and recoveries led there; needs the acyclic order that registration established |
| SchedulerMoves.WaitingHasALiveChild | rust/crates/phenix-conductor/src/failure_decisions.rs:480-632 | the scheduler waits on a Running orchestration only while a live interface, or an unfinished effective execution of a started node, is among its children |
| Runtime.ConductorRuntime.CancelExecution | rust/crates/phenix-conductor/src/lib.rs:1614-1622 | on Ok everything that was in the subtree has ended, for any order of the walk; if the live orchestrations of the subtree were waiting, whatever else was going on, the subtree has ended altogether; from a calm runtime nothing is started and it is calm again; agents outside the subtree end only below something that failed; an orchestration of the tree that had yet to ask about a failure has asked an agent, which is live and was not to be cancelled, if one of the cancelled agents that it waits for goes before it in the order of the walk, unless it or something above it failed; only the tree of the root changed; a healthy runtime succeeds on every known execution; whoever is told to be terminated is in the subtree and has the requested cancellation as its cause, or is below something that failed, which is then named, and no agent or root ends without such a word |
| Runtime.ConductorRuntime.CancelExecutionSet | rust/crates/phenix-conductor/src/lib.rs:1577-1601 | dealing with the ids in the order of their id strings ends each of them and keeps calm; only busy orchestrations start something; an orchestration that had yet to ask about a failure and waits for an agent that goes first asks in that turn, unless it or something above it failed; every termination that is told names the given cause, for one of the ids, or a failed execution above, and agents and roots end with such a word |
| Asking.CancellationLeavesWhoIsAsked | rust/crates/phenix-conductor/src/lib.rs:1577-1622 | where a cancellation does not end its whole subtree, for all boards: an orchestration of the subtree whose next move is to ask an agent about a failure, and which waits for a live agent that goes before it in the order of ids, leaves a live new agent in the subtree, unless it or something above it failed meanwhile |
| Asking.AskInTurn | rust/crates/phenix-conductor/src/lib.rs:1586-1599 | one turn of the walk over the ids: whoever waits for the agent cancelled in this turn has asked before, asks now, or is below something that failed |
| Asking.StateChangeKeepsQuestion | rust/crates/phenix-conductor/src/failure_decisions.rs:497-533 | whatever state another execution enters, an orchestration that has yet to ask about its first undecided failure still has to |
| Asking.HeedsTransitive | rust/crates/phenix-conductor/src/lib.rs:1577-1612 | over nested cascades a question stays open or is answered, and the agent that was asked stays live unless something above it fails |
| Cascade.EndHeeds | rust/crates/phenix-conductor/src/lib.rs:1676-1691 | when the end of one execution has been followed up, the orchestration that waited for it has asked its question or failed, and the others still have theirs or something above them failed |
| Runtime.ConductorRuntime.CancelDescendants | rust/crates/phenix-conductor/src/lib.rs:1603-1612 | on Ok every proper descendant has ended; every termination that is told names the failure of the execution, for one of its descendants, or of another failed execution above the one that ended, and agents and roots end with such a word; only busy orchestrations start something |
| Runtime.ConductorRuntime.CancelOne | rust/crates/phenix-conductor/src/lib.rs:1586-1599 | an ended execution is left alone, another one is announced as terminated with the cause and then cancelled |
| Causes.EndIsTold | rust/crates/phenix-conductor/src/lib.rs:1586-1599 | the end of the execution that is cancelled is explained by the termination that was told first, and all ends that it leads to by failures above them |
| Causes.DescendantsAreBlamed | rust/crates/phenix-conductor/src/lib.rs:1603-1612 | where an execution failed, naming it as the cause of the ends below it is right: it is failed, and a proper ancestor, and stays so |
| Causes.ExplainsTransitive | rust/crates/phenix-conductor/src/lib.rs:1577-1622 | over nested cascades every termination that was told keeps its cause, nobody but the exempted ends unexplained, and no error is told |
| Runtime.ConductorRuntime.SetState | rust/crates/phenix-conductor/src/lib.rs:1648-1693 | unknown and ended executions are rejected unchanged; the frontend is first told of the change and later, through the parent, of the end; the change cascades within one tree; a Failed execution below which nobody was busy has no live proper descendant; calm is kept; only the parent and busy orchestrations start something, and the parent not on a cancellation; other agents end only below something that failed, and then they are cancelled; without a reachable reaction the change itself stays recorded; the mutual recursion terminates because every terminal step shrinks the set of live orchestrations; whoever is told to be terminated is below something that failed, which is named as the cause, never a requested cancellation, and other agents and roots end with such a word |
| Runtime.ConductorRuntime.FollowUp | rust/crates/phenix-conductor/src/lib.rs:1676-1691 | descendants are cancelled only after Failed, and the frontend is told of every end under a parent; without a waiting parent the board is untouched; terminations name a failed execution above as their cause |
| Runtime.ConductorRuntime.NotifyParent | rust/crates/phenix-conductor/src/lib.rs:1683-1691 | the finished child is announced first; a parent that is a live orchestration then acts and is no longer busy; terminations that follow name a failed execution above as their cause |
| Runtime.ConductorRuntime.ExecutionSubtree | rust/crates/phenix-conductor/src/lib.rs:1550-1575 | the fixpoint loop yields exactly the reflexive-transitive closure of the child relation and stops |
| Cascade.NothingLiveBelow | rust/crates/phenix-conductor/src/lib.rs:1676-1682 | after a cascade that started nothing under the subtree of a failed execution nothing below it is live |
| Cascade.QuelledForGood | rust/crates/phenix-conductor/src/lib.rs:1603-1612 | descendants that have ended stay ended, so without new descendants nothing below is live |
| Cascade.CascadesTransitive | rust/crates/phenix-conductor/src/lib.rs:1577-1601 | nested cascades compose: terminal states stay, other trees stay, no orchestration is created |
| Settling.SparesTransitive | rust/crates/phenix-conductor/src/lib.rs:1577-1612 | over nested cascades an agent that was not itself to be cancelled ends only because something above it failed |
| Cascade.EndSpares | rust/crates/phenix-conductor/src/lib.rs:1676-1691 | so it does when the end of one execution has been followed up: cancelling or interrupting takes no child along, only a failure does |
| Cascade.CascadeKeepsEquipped | rust/crates/phenix-conductor/src/failure_decisions.rs:447-632 | a cascade leaves every live orchestration bound and authorised for its nodes |
| Settling.StateChangeKeepsCalm | rust/crates/phenix-conductor/src/lib.rs:1648-1674 | one state change can disturb only the execution itself and its parent |
| Settling.CancelledChildStartsNothing | rust/crates/phenix-conductor/src/failure_decisions.rs:535-557 | cancelling a child gives its waiting parent no reason to start anything |
| Settling.StartsNothingBelow | rust/crates/phenix-conductor/src/lib.rs:1603-1612 | what is started under orchestrations outside a subtree does not belong to the subtree, because only agents are started |
| SchedulerMoves.CancellationLeavesInterfaceMove | rust/crates/phenix-conductor/src/failure_decisions.rs:508-533 | an orchestration about to start a failure interface still is after a live child was cancelled |
| Situations.CancellationMayStartAnAgent | rust/crates/phenix-conductor/src/lib.rs:1577-1622 | the failing case of a cancellation, on a live board: execution-10 is cancelled before its parent execution-9, which has not reacted to a failure yet and whose next move is then to start an agent |
| Situations.CancellationLeavesAnAgent | rust/crates/phenix-conductor/src/lib.rs:1577-1622 | the rest of that cancellation: the agent is started, execution-9 is cancelled in turn, all that was to be cancelled has ended, and the new agent below execution-9 is live |
| Startup.FailureWithoutReaction | rust/crates/phenix-conductor/src/lib.rs:1648-1693 | how a live runtime comes to a failure without reaction, from an empty journal: after a restart a node fails under an orchestration whose revision is not bound, which is an error after the failure was recorded |
| Settling.StateChangeSweeps | rust/crates/phenix-conductor/src/lib.rs:1648-1674 | ending any execution, or running an orchestration, stays within its tree, starts nothing and only shrinks the set of live orchestrations: the termination measure |
| Settling.CreationSweeps | rust/crates/phenix-conductor/src/failure_decisions.rs:390-430 | starting an agent stays within the tree of its orchestration and adds no live orchestration |
| Cascade.MoveCascades | rust/crates/phenix-conductor/src/lib.rs:1664-1674 | recording a state change and telling the frontend keeps a log that tells every current state |
| Cascade.PushCascades | rust/crates/phenix-conductor/src/lib.rs:1624-1646 | so does announcing anything else |
| Situations.WaitingBoardExists | rust/crates/phenix-conductor/src/failure_decisions.rs:480-632 | a live, calm board on which an orchestration waits |
| Runtime.ConductorRuntime.RefreshOrchestration | rust/crates/phenix-conductor/src/failure_decisions.rs:447-558 | a live orchestration does exactly the next move of the scheduler and then waits; ended or other executions are left alone; an unbound revision is an error and changes nothing |
| Runtime.ConductorRuntime.RefreshByNodes | rust/crates/phenix-conductor/src/failure_decisions.rs:535-557 | a failed, cancelled or interrupted node concludes the orchestration in that order of precedence, otherwise it advances |
| Runtime.ConductorRuntime.HandleUndecided | rust/crates/phenix-conductor/src/failure_decisions.rs:508-533 | a failed agent without decision gets an interface agent if the definition names one, otherwise a Fail decision and a failed orchestration |
| Runtime.ConductorRuntime.FailForInterfaceOf | rust/crates/phenix-conductor/src/failure_decisions.rs:480-495 | a failed interface fails itself, the failure it was to decide, and the orchestration |
| Runtime.ConductorRuntime.DecideForInterface | rust/crates/phenix-conductor/src/failure_decisions.rs:487-491 | fallback Fail decisions for the interface and for the original failure, unless already decided |
| Runtime.ConductorRuntime.FailForChild | rust/crates/phenix-conductor/src/failure_decisions.rs:512-516 | a Fail decision is recorded before the orchestration fails |
| Runtime.ConductorRuntime.FindFailedInterface | rust/crates/phenix-conductor/src/failure_decisions.rs:469-487 | finds a failed interface among the children exactly when there is one |
| Runtime.ConductorRuntime.FindUndecided | rust/crates/phenix-conductor/src/failure_decisions.rs:497-511 | finds the first undecided failed agent in map order exactly when there is one |
| Runtime.ConductorRuntime.AdvanceOrchestration | rust/crates/phenix-conductor/src/failure_decisions.rs:560-632 | an orchestration that is not Running is left alone; a Running one without hindrance starts all ready nodes, or completes when all are done, or waits |
| Runtime.ConductorRuntime.StartOrComplete | rust/crates/phenix-conductor/src/failure_decisions.rs:590-631 | starts every ready node in definition order; without ready nodes completes exactly when all nodes are done |
| Runtime.ConductorRuntime.StartNodes | rust/crates/phenix-conductor/src/failure_decisions.rs:602-623 | each ready node is started once, as a pending child agent with the callable of the node; a node with an objective of its own asks for exactly that within the objective of the orchestration, a node without one for the objective of the orchestration |
| Runtime.ConductorRuntime.SelectReady | rust/crates/phenix-conductor/src/failure_decisions.rs:591-601 | exactly the nodes that are not started and whose dependencies are all effectively completed, each once, in definition order |
| Acting.SelectedTells | rust/crates/phenix-conductor/src/failure_decisions.rs:591-601 | the nodes selected by the state map are the ready ones of the board, in the same order |
| Runtime.ConductorRuntime.CompleteIfDone | rust/crates/phenix-conductor/src/failure_decisions.rs:624-631 | the count of started nodes and their states decides completion |
| Acting.CountTells | rust/crates/phenix-conductor/src/failure_decisions.rs:624-630 | as many completed states as the definition has nodes means that every node of the definition is done, and conversely |
| Runtime.ConductorRuntime.OrchestrationNodeStates | rust/crates/phenix-conductor/src/failure_decisions.rs:634-651 | never fails: the map has the started nodes with their effective states |
| Runtime.ConductorRuntime.EffectiveExecutionState | rust/crates/phenix-conductor/src/failure_decisions.rs:653-685 | the walk over recovery decisions ends with the state of the last recovery, Continue counting as Completed; the cycle error is unreachable |
| Scheduler.LeafFacts | rust/crates/phenix-conductor/src/failure_decisions.rs:653-685 | recovery chains go to later executions of the same parent and end |
| SchedulerMoves.ChainsAreDisjoint | rust/crates/phenix-conductor/src/journal.rs:865-931 | the recovery chains of two nodes never share an execution |
| SchedulerMoves.MeetingChainsNest | rust/crates/phenix-conductor/src/journal.rs:865-931 | chains that meet are one inside the other, because no execution recovers two failures |
| SchedulerMoves.StartsMakeWait | rust/crates/phenix-conductor/src/failure_decisions.rs:590-631 | after starting all ready nodes nothing else is ready and the orchestration waits |
| SchedulerMoves.InterfaceMakesWait | rust/crates/phenix-conductor/src/failure_decisions.rs:390-430 | after starting an interface the orchestration waits for it |
| SchedulerMoves.MoveFrame | rust/crates/phenix-conductor/src/failure_decisions.rs:447-558 | the next move depends only on an orchestration, its children and what is bound to them |
| SchedulerMoves.CancellationCreatesNothing | rust/crates/phenix-conductor/src/failure_decisions.rs:535-557 | cancelling anything never makes a waiting orchestration start something |
| SchedulerMoves.FailedNodeWasDecided | rust/crates/phenix-conductor/src/failure_decisions.rs:535-542 | a node counts as failed only after a Fail decision |
| Acting.HinderedIsJustified | rust/crates/phenix-conductor/src/failure_decisions.rs:535-542 | concluding Failed on a failed node is backed by a recorded Fail decision |
| SchedulerSafety.LiveStep | rust/crates/phenix-conductor/src/journal.rs:351-1120 | one recorded event keeps DAG safety, distinct roles and sound outcomes |
| SchedulerSafety.LiveRunIsSafe | rust/crates/phenix-conductor/src/journal.rs:351-1120 | after every prefix of a live run each node was started at most once with its dependencies done, completed orchestrations have all nodes done, failed ones a Fail decision, and nothing is undone later; and every execution holds the least authority that its configuration makes necessary, as far as its parent permits it |
| SchedulerSafety.FailureFollowsADecision | rust/crates/phenix-conductor/src/failure_decisions.rs:480-541 | wherever a run fails an orchestration, a Fail decision for one of its children stands earlier in the journal |
| SchedulerSafety.CompletedIsStable | rust/crates/phenix-conductor/src/failure_decisions.rs:653-685 | an effectively completed execution stays so |
| SchedulerSafety.NodeDoneIsStable | rust/crates/phenix-conductor/src/failure_decisions.rs:591-601 | a done node stays done through retries and replacements |
| SchedulerSafety.StepKeepsDag | rust/crates/phenix-conductor/src/journal.rs:933-984 | no event starts a node before its dependencies are done |
| SchedulerSafety.StepKeepsOutcomes | rust/crates/phenix-conductor/src/journal.rs:569-584 | no event completes or fails an orchestration without justification |
| SchedulerSafety.StepKeepsRoles | rust/crates/phenix-conductor/src/journal.rs:745-791 | nodes, interfaces and recoveries stay different executions, and interface failures are only ever decided Fail |
| SchedulerSafety.StepKeepsGrants | rust/crates/phenix-conductor/src/lib.rs:943-1031 | over a live run every execution holds exactly the least authority that covers what the configuration of its revision gives its kind and callable, attenuated by what its parent holds |
| SchedulerSafety.GrantIsStable | rust/crates/phenix-conductor/src/lib.rs:943-1031 | what an execution is granted depends on nothing that changes later |
| SchedulerSafety.LiveRunOutlivesCatalog | rust/crates/phenix-conductor/src/lib.rs:640-656 | activating further configuration revisions does not invalidate a run |
| BoardInvariants.StepKeepsBoard | rust/crates/phenix-conductor/src/journal.rs:504-984 | any accepted event keeps ids dense, parents older, children delegated, decisions and interfaces sound, recoveries and nodes distinct, and only adds to the board |
| Runtime.ConductorRuntime.ApplyDomainEvent | rust/crates/phenix-conductor/src/journal.rs:351-1120 | applies an event exactly when the pure transition accepts it, with exactly its result, and changes no field otherwise |
| Runtime.ConductorRuntime.ApplyExecutionCreated | rust/crates/phenix-conductor/src/journal.rs:504-568 | the validated creation of an execution with its pinned revision and materialised input |
| Runtime.ConductorRuntime.ApplyGroupCreated | rust/crates/phenix-conductor/src/journal.rs:585-645 | the validated first failure of an attempt group |
| Runtime.ConductorRuntime.ApplyFailureRecorded | rust/crates/phenix-conductor/src/journal.rs:646-694 | the validated failure of the latest attempt |
| Runtime.ConductorRuntime.ApplyRetryStarted | rust/crates/phenix-conductor/src/journal.rs:695-744 | the validated next attempt |
| Runtime.ConductorRuntime.ApplyInterfaceStarted | rust/crates/phenix-conductor/src/journal.rs:745-791 | the validated binding of an interface to a failure |
| Runtime.ConductorRuntime.ApplyDecisionMade | rust/crates/phenix-conductor/src/journal.rs:792-932 | the validated decision, with its decider, recovery and attempt group checks |
| Runtime.ConductorRuntime.ApplyNodeStarted | rust/crates/phenix-conductor/src/journal.rs:933-984 | the validated binding of a child to a node |
| Runtime.ConductorRuntime.ApplyFrontendEvent | rust/crates/phenix-conductor/src/journal.rs:1084-1120 | the validated next frontend event |
| Runtime.ConductorRuntime.RecordDomainEvent | rust/crates/phenix-conductor/src/lib.rs:496-547 | stamps creations with the effective authority, appends and applies; a recorded creation is the next execution, as summarised, given the input asked for, on the revision of its parent or session, with the least authority that covers what the configuration gives it, as far as the parent permits it, and changes nothing else; an unstamped one names the first lookup that failed; a rejected event changes neither a field nor the journal; the fields stay the replay of the journal |
| Runtime.ConductorRuntime.AppendAndApply | rust/crates/phenix-conductor/src/lib.rs:505-537 | the entry is appended with the next dense sequence number and popped again on rejection |
| Runtime.ConductorRuntime.Restore | rust/crates/phenix-conductor/src/persistence.rs:119-173 | accepts exactly the current-format, densely numbered journals that the fold accepts and ends in the state of the fold, with no configuration bound and the given policy; a live journal restores to a live runtime, one left at rest to a runtime at rest |
| Runtime.ConductorRuntime.ReplayEntries | rust/crates/phenix-conductor/src/persistence.rs:139-160 | the loop over entries equals the fold |
| Journal.ValidateStructure | rust/crates/phenix-conductor/src/journal.rs:193-215 | accepts exactly format and dense sequences, and reports the first gap |
| Journal.SessionEventsChangeOneField | rust/crates/phenix-conductor/src/journal.rs:438-503 | rebasing, renaming, retargeting and closing change just the revision, name, target or state of one open session; other events change no session |
| Journal.FirstObservationIsRecorded | rust/crates/phenix-conductor/src/journal.rs:1064-1083 | the first version of a file that an execution observed is recorded, later ones are not |
| Journal.ObservationsStand | rust/crates/phenix-conductor/src/journal.rs:985-1083 | over any replayed journal first observations and resolved routes stand |
| Journal.PrefixReplays | rust/crates/phenix-conductor/src/persistence.rs:139-160 | every prefix of a journal that replays has replayed |
| DurableInvariants.ReplayIsSound | rust/crates/phenix-conductor/src/persistence.rs:119-173 | whoever wrote it, a journal that replays leads to a sound durable state that evolved from each earlier one |
| DurableInvariants.EndedForGood | rust/crates/phenix-conductor/src/journal.rs:569-584 | whatever is recorded later, an execution that completed, failed, was cancelled or was interrupted stays exactly as it ended, and one that is pending or running may change its state |
| DurableInvariants.StepKeepsDurable | rust/crates/phenix-conductor/src/journal.rs:351-1120 | one accepted event keeps sessions, executions, event log and attempt groups sound |
| Runtime.ConductorRuntime.PushEvent | rust/crates/phenix-conductor/src/lib.rs:1624-1646 | unknown executions are rejected, otherwise the event gets the next sequence number; a runtime at rest stays so unless the event announces a state |
| Runtime.ConductorRuntime.ResumingClientIsUpToDate | rust/crates/phenix-conductor/src/lib.rs:1709-1732 | at rest a client that tracked the events up to any cursor and resumes from there has the states of the snapshot |
| DurableInvariants.ResumedClientSeesTheSnapshot | rust/crates/phenix-conductor/src/lib.rs:1709-1732 | tracking the log to a cursor and then the events since it gives the states of all executions |
| DurableInvariants.EventsSinceIsTheSuffix | rust/crates/phenix-conductor/src/lib.rs:1709-1716 | the filter by sequence is exactly the suffix after the cursor |
| DurableInvariants.StepKeepsEventLog | rust/crates/phenix-conductor/src/journal.rs:1084-1120 | sequences are 1, 2, ..., n and the log only grows |
| Settling.LogAfterStateChange | rust/crates/phenix-conductor/src/lib.rs:1664-1674 | the event pushed after a state change makes the log current again |
| Retrying.RecoveryKeepsLog | rust/crates/phenix-conductor/src/failure_decisions.rs:355-373 | announcing the recovery keeps the log current |
| ExecutionTree.SubtreeIsTheGroup | rust/crates/phenix-conductor/src/lib.rs:1550-1575 | the subtree of a parentless execution is exactly what climbs to it |
| ExecutionTree.SubtreeTransitive | rust/crates/phenix-conductor/src/lib.rs:1550-1575 | subtrees nest |
| ExecutionTree.RootFacts | rust/crates/phenix-conductor/src/server.rs:857-871 | every execution climbs to a parentless root |
| ExecutionTree.SubtreeStable | rust/crates/phenix-conductor/src/journal.rs:517-534 | later events move no execution to another tree |
| ExecutionTree.AuthorityShrinks | rust/crates/phenix-conductor/src/journal.rs:526-549 | every ancestor permits the authority, and every proper ancestor delegates the callable, of what runs below it |
| PhenixCore.AttenuateIsTheMeet | rust/crates/phenix-core/src/workspace.rs:69-84 | `permits` is a partial order and `attenuate` its meet |
| PhenixCore.PermitsPointwise | rust/crates/phenix-core/src/workspace.rs:81-84 | permission is component by component |
| PhenixCore.EnvelopeIsTheJoin | rust/crates/phenix-conductor/src/lib.rs:1914-1935 | the envelope is the least authority that permits all members |
| PhenixCore.AuthorityEnvelope | rust/crates/phenix-conductor/src/lib.rs:1914-1935 | the loop computes the envelope |
| Delegation.StampedChildIsAdmitted | rust/crates/phenix-conductor/src/lib.rs:943-956 | a stamped child never trips the authority check of the journal |
| Delegation.StampIsTheGrant | rust/crates/phenix-conductor/src/lib.rs:943-956 | the authority stamped on a creation is the grant of its configuration, attenuated by the parent: the least that permits the authority of every registered agent and holds every agent and orchestration for a root, the authority of the agent for an agent, the least that permits the authorities of its nodes and interface and holds their callables for an orchestration |
| Delegation.ConfiguredAuthorityIsLeastCover | rust/crates/phenix-conductor/src/lib.rs:959-1031 | whatever permits the grant covers what the configuration gives the kind and callable, and conversely; there is no grant exactly where a callable that is looked up is not registered as what it should be, and the first such callable is reported |
| Delegation.LeastCoverIsUnique | rust/crates/phenix-conductor/src/lib.rs:1914-1935 | there is just one least authority that covers what a configuration gives |
| Delegation.EffectiveAuthorityEntrusts | rust/crates/phenix-conductor/src/lib.rs:943-976 | a new execution gets the least cover under the revision of its parent or session, attenuated by the parent, or the first of the errors: unknown parent or session, unknown or unbound revision, or a callable that is registered otherwise |
| Delegation.GrantIsEntrusted | rust/crates/phenix-conductor/src/lib.rs:943-1031 | the grant of the catalog is the attenuated least cover, and nothing else is |
| Delegation.CreationIsAsAsked | rust/crates/phenix-conductor/src/journal.rs:504-568 | a stamped creation that the journal accepts becomes exactly the execution asked for: next id, summary, input, authority and pinned revision |
| Delegation.ConfiguredAuthoritySuffices | rust/crates/phenix-conductor/src/lib.rs:958-1031 | a root may start every agent and orchestration, and an orchestration is granted its nodes and interface |
| Provisioning.StampIsGranted | rust/crates/phenix-conductor/src/lib.rs:943-956 | the new execution holds exactly the computed effective authority, which is the attenuated least cover |
| Provisioning.TopLevelIsProvided | rust/crates/phenix-conductor/src/lib.rs:958-1031 | a top-level orchestration holds all callables it will start |
| Provisioning.NestedIsProvided | rust/crates/phenix-conductor/src/lib.rs:943-956 | a nested orchestration holds them if its parent does |
| Provisioning.RunningEquips | rust/crates/phenix-conductor/src/lib.rs:1284-1286 | once a provided orchestration runs, every live orchestration is equipped |
| Retrying.DeciderDelegationSuffices | rust/crates/phenix-conductor/src/failure_decisions.rs:151-168 | what the decider delegates its parent delegates too |
| Runtime.ConductorRuntime.CreateChild | rust/crates/phenix-conductor/src/lib.rs:1297-1342 | the child copies session and target of its parent, gets the next id and the effective authority; fails exactly on unknown parent, missing delegation, closed session or an authority that cannot be computed, and then changes nothing |
| Runtime.ConductorRuntime.StartAgent | rust/crates/phenix-conductor/src/lib.rs:1199-1206 | succeeds exactly when the parent delegates, its session is open and its configuration and the policy admit the agent; the first check that failed is the error: the configuration, the registration, the policy, the delegation, the session |
| Runtime.ConductorRuntime.StartAgentWithNode | rust/crates/phenix-conductor/src/lib.rs:1208-1251 | binds the child to the node it runs; an error names the first check that failed, and changes nothing |
| Runtime.ConductorRuntime.StartOrchestration | rust/crates/phenix-conductor/src/lib.rs:1253-1295 | ends Running with exactly the nodes that depend on nothing started, within the tree of its parent, and leaves a runtime at rest at rest; a healthy runtime whose parent holds the nodes succeeds exactly on a registered, delegated orchestration, stays healthy, and otherwise changes nothing; nothing but the new orchestration and its agents is new or changed; any other error changes nothing or leaves the created orchestration, with changes only in its tree and the log; the policy was asked about the orchestration and every agent it may start |
| Runtime.ConductorRuntime.CreateOrchestration | rust/crates/phenix-conductor/src/lib.rs:1259-1283 | everything is checked before the child is created, so a failure changes nothing; it succeeds exactly on a registered orchestration that the policy admits together with every agent it may start, a delegating parent and an open session; the child runs it on the given objective |
| Runtime.ConductorRuntime.BeginOrchestration | rust/crates/phenix-conductor/src/lib.rs:1284-1294 | a provided orchestration starts its first nodes without error: exactly those that depend on nothing |
| Opening.FirstNodesStart | rust/crates/phenix-conductor/src/failure_decisions.rs:560-631 | the first refresh of an orchestration starts exactly the nodes that depend on nothing, as pending agents |
| Runtime.ConductorRuntime.StartSessionCallable | rust/crates/phenix-conductor/src/callables.rs:566-654 | agents stay Pending, orchestrations end Running with exactly the nodes that depend on nothing started, both with the given objective on the revision of the session, in a new tree of their own; a healthy runtime stays healthy, succeeds exactly on a non-blank objective, an open session and a registered agent or orchestration, and otherwise changes nothing; what starts was admitted by the policy, and its objective is told as the input |
| Runtime.ConductorRuntime.StartSessionOrchestration | rust/crates/phenix-conductor/src/callables.rs:603-648 | a top-level orchestration of a healthy runtime starts exactly when its session is open and it is registered; what starts was admitted by the policy, with every agent it may start |
| Runtime.ConductorRuntime.StartSessionAgent | rust/crates/phenix-conductor/src/callables.rs:584-602 | starts exactly when the session is open, the callable is an agent and the policy admits it |
| Runtime.ConductorRuntime.CreateSessionCallableExecution | rust/crates/phenix-conductor/src/callables.rs:684-736 | a parentless execution with the target of its session and its effective authority |
| Runtime.ConductorRuntime.Submit | rust/crates/phenix-conductor/src/lib.rs:1156-1197 | succeeds exactly on non-blank text, an open session and a bound configuration; on an error nothing has changed; the new root holds the least authority that permits every registered agent and holds every agent and orchestration, and is given the text after what was said before in its session if it is routed |
| Runtime.ConductorRuntime.CreateSession | rust/crates/phenix-conductor/src/lib.rs:1033-1074 | a session of the given parent, name and target and nothing else; succeeds exactly with a bound current revision and a known parent session, or without parent when all sessions are of this workspace |
| Runtime.ConductorRuntime.CloseSession | rust/crates/phenix-conductor/src/lib.rs:1114-1154 | closes exactly sessions without live executions; closing again changes nothing |
| Runtime.ConductorRuntime.BindConfigurationRevision | rust/crates/phenix-conductor/src/lib.rs:616-638 | binds exactly a known, unbound revision with the same fingerprint and changes no durable field; keeps a runtime at rest, healthy and provisioned |
| Runtime.ConductorRuntime.BindWorkspace | rust/crates/phenix-conductor/src/lib.rs:481-494 | succeeds exactly when no session belongs to another workspace, and reports the first one that does |
| Runtime.ConductorRuntime.ReloadConfiguration | rust/crates/phenix-conductor/src/lib.rs:640-656 | the next revision becomes current and bound, unless the journal already knows it; sessions and workspace stay |
| Runtime.ConductorRuntime.constructor | rust/crates/phenix-conductor/src/lib.rs:443-479 | a new runtime is live, at rest, has an empty journal, the given policy and an empty configuration bound, and is healthy if the policy admits everything |
| Runtime.ConductorRuntime.HealthyExactlyWhenBound | rust/crates/phenix-conductor/src/lib.rs:564-573 | a runtime is healthy if and only if its policy admits everything, every live orchestration runs and holds its nodes, and the revisions of the live orchestrations are bound |
| Startup.LoadJournal | rust/crates/phenix-conductor/src/server.rs:264-285 | a stored journal of a live runtime loads if and only if it is well-formed, its sessions are of this workspace and nothing that has to be interrupted is awaited by a live orchestration; then exactly the running inputs are interrupted |
| Startup.LoadOrNew | rust/crates/phenix-conductor/src/server.rs:260-287 | without a stored journal an empty runtime at rest starts, otherwise the journal is loaded |
| Startup.InstallConfiguration | rust/crates/phenix-conductor/src/main.rs:84-100 | an unbound current revision is bound, a bound one is superseded; sessions and executions stay |
| Startup.Restart | rust/crates/phenix-conductor/src/main.rs:68-100 | restarting a runtime that was at rest succeeds exactly if it can be continued and the configuration is that of the current revision; it gives a runtime at rest, which is healthy if and only if the policy admits everything and the orchestrations that were live all run on the current revision |
| Startup.CrashWhileAgentRuns | rust/crates/phenix-conductor/src/server.rs:264-285 | once a pending agent of a running orchestration is driven, the journal no longer loads |
| Startup.RestartMayFail | rust/crates/phenix-conductor/src/server.rs:264-285 | the failing case from scratch: an empty journal, a registered plan, a session, the started plan, its driven agent, and a journal that does not load; on the way the runtime is healthy and at rest |
| Opening.UnboundCreationKeepsMove | rust/crates/phenix-conductor/src/lib.rs:1297-1342 | a new, unbound execution changes no next move, not even of its parent |
| Opening.ChildlessHasReady | rust/crates/phenix-conductor/src/failure_decisions.rs:591-601 | an orchestration without children has a node to start |
| Runtime.ConductorRuntime.DecideOrchestrationFailure | rust/crates/phenix-conductor/src/failure_decisions.rs:24-149 | on Ok the decision of the interface agent is recorded, its recovery exists, and the orchestration has acted on it, all within its tree, starting agents at most and ending agents only below something that failed; a runtime at rest is at rest again; a healthy runtime succeeds if and only if the agent decides about some failure and may decide as requested, and otherwise only attempt groups may have changed |
| Runtime.ConductorRuntime.MakeDecision | rust/crates/phenix-conductor/src/failure_decisions.rs:85-145 | for a proper decider: Retry succeeds exactly if it holds the callable of the failed child, which the orchestration may start, the child ran on an input and is the latest attempt; another child exactly if objective and callable are sensible and the decider holds it; Continue and Fail always |
| Runtime.ConductorRuntime.CheckDecider | rust/crates/phenix-conductor/src/failure_decisions.rs:29-84 | accepts exactly the running or completed interface agent of an undecided failed child of a running, bound orchestration |
| Runtime.ConductorRuntime.DecideRetry | rust/crates/phenix-conductor/src/failure_decisions.rs:90-104 | the retry directly follows the failed child in its attempt group and is given the goal and all failures of the group; succeeds exactly if the child ran on an input, is the latest attempt, and the decider holds its callable, which the orchestration may start; a group that is opened for it has the input of the failed child as its goal |
| Runtime.ConductorRuntime.DecideAnotherChild | rust/crates/phenix-conductor/src/failure_decisions.rs:105-127 | the replacement runs the chosen, different callable with the given objective; succeeds exactly if its guards hold; the parent delegation check never fails once the decider passed |
| Runtime.ConductorRuntime.DecidePlainly | rust/crates/phenix-conductor/src/failure_decisions.rs:128-145 | Continue and Fail are always accepted |
| Runtime.ConductorRuntime.EnsureDeciderDelegates | rust/crates/phenix-conductor/src/failure_decisions.rs:151-168 | exactly the callables of the decider pass |
| Runtime.ConductorRuntime.CreateRetryRecovery | rust/crates/phenix-conductor/src/failure_decisions.rs:170-263 | a retry directly follows the failed attempt; it is created exactly if the attempt is the latest of its group, ran on an input, and the running parent may start its callable; on an error only attempt groups changed; the retry is given the goal of the group, which is the input of its first attempt, and the failures so far, the last being that of the failed attempt |
| Runtime.ConductorRuntime.PrepareGroup | rust/crates/phenix-conductor/src/failure_decisions.rs:200-242 | the failure is on record in the group whose latest attempt failed; fails exactly on an older attempt; goal, attempts and earlier failures of an existing group stay, a new one has the input as its goal |
| Runtime.ConductorRuntime.RuntimeFailureSummary | rust/crates/phenix-conductor/src/failure_decisions.rs:265-301 | the reason of the failure is the message of the latest error that the execution raised, or a general one if it raised none |
| Retrying.FailureIsSummarized | rust/crates/phenix-conductor/src/failure_decisions.rs:265-301 | the summary names the execution, its callable and its attempt, and the message of the latest error event of the execution, with no later one |
| Retrying.ErrorIsReason | rust/crates/phenix-conductor/src/server.rs:1304-1311 | an error that is raised right before an execution fails is the reason that its failure summary will give: the failure itself raises no other |
| Retrying.GroupCarriesOn | rust/crates/phenix-conductor/src/failure_decisions.rs:200-228 | a group whose latest attempt failed keeps goal, attempts and failures, and has the failure of that attempt on record once, with its number |
| Retrying.RetryCarriesOn | rust/crates/phenix-conductor/src/failure_decisions.rs:243-262 | starting the next attempt appends it to the attempts and leaves goal and failures |
| Runtime.ConductorRuntime.CreateRecoveryAgent | rust/crates/phenix-conductor/src/failure_decisions.rs:303-353 | needs a running parent that delegates, and changes nothing otherwise; the first check that failed is the error |
| Runtime.ConductorRuntime.StartFailureInterface | rust/crates/phenix-conductor/src/failure_decisions.rs:390-430 | each failure gets one interface agent, which is asked about it; a second call changes nothing |
| Runtime.ConductorRuntime.RecordDecision | rust/crates/phenix-conductor/src/failure_decisions.rs:375-388 | recorded and announced exactly when the journal accepts it |
| Runtime.ConductorRuntime.RecordFallbackFail | rust/crates/phenix-conductor/src/failure_decisions.rs:431-445 | an existing decision is kept, otherwise exactly a Fail decision without decider is recorded and announced |
| Runtime.ConductorRuntime.OpenGroup | rust/crates/phenix-conductor/src/failure_decisions.rs:230-242 | the group starts with the failed attempt as number 1, its goal and its failure |
| Runtime.ConductorRuntime.RecordLatestFailure | rust/crates/phenix-conductor/src/failure_decisions.rs:212-228 | the failure of the latest attempt is appended once, with its number |
| Runtime.ConductorRuntime.CommitRecovery | rust/crates/phenix-conductor/src/failure_decisions.rs:94-102 | the decision is recorded and announced before the recovery is announced |
| Retrying.RetryKeepsContext | rust/crates/phenix-core/src/attempts.rs:50-52 | a further attempt is appended and changes nothing else: the goal and the failures stay |
| Retrying.RetryIsAccepted | rust/crates/phenix-conductor/src/journal.rs:695-744 | the journal accepts the retry of a prepared group |
| Retrying.RecoveryIsAccepted | rust/crates/phenix-conductor/src/journal.rs:865-931 | the journal accepts the decision for a new recovery |
| Retrying.GroupIsAccepted | rust/crates/phenix-conductor/src/journal.rs:585-645 | the journal accepts a first failure |
| Retrying.FailureIsAccepted | rust/crates/phenix-conductor/src/journal.rs:646-694 | the journal accepts the failure of the latest attempt |
| DurableInvariants.AttemptsExceptLatestFailed | rust/crates/phenix-conductor/src/journal.rs:585-744 | all attempts but the latest failed, are counted from 1, and are in one group only |
| DurableInvariants.StepKeepsGroups | rust/crates/phenix-conductor/src/journal.rs:585-744 | attempts stay distinct siblings with one callable, failure i names attempt i with number i+1 |
| PhenixCore.AttemptGroup.AttemptForExecution | rust/crates/phenix-core/src/attempts.rs:65-71 | the one-based position of the first such attempt, and none exactly for strangers |
| Runtime.ConductorRuntime.BeginDrive | rust/crates/phenix-conductor/src/lib.rs:1449-1459 | exactly pending executions start running |
| Runtime.ConductorRuntime.FinishDrive | rust/crates/phenix-conductor/src/lib.rs:1470-1481 | a failure leaves nothing of what was below it live, and nothing at all if the live orchestrations below it were waiting; a success counts only while running; other agents end only below something that failed; in a healthy runtime the orchestration above always gets to act; terminations name a failed execution above as their cause |
| Runtime.ConductorRuntime.InterruptNonResumable | rust/crates/phenix-conductor/src/server.rs:1499-1513 | interrupts exactly the running executions with an input and changes nothing else on the board; since no configuration is bound after a restart this succeeds if and only if no live orchestration waits for one of them |
| Records.MaterializeRoutedInput | rust/crates/phenix-conductor/src/journal.rs:289-348 | the prompt is the plain input exactly if nothing was said before; otherwise its history splits the earlier inputs and deltas of the other roots, in order and without leaving out any, into messages in the right role: a user message is one input, an assistant message the joined deltas of one execution, as many as follow each other |
| Records.RoutedInputReplays | rust/crates/phenix-conductor/src/journal.rs:289-348 | so does the merged history that specifies the loop: accumulating, merging and writing out lose, invent, reorder and reassign nothing |
| Records.HistoryIsConservative | rust/crates/phenix-conductor/src/journal.rs:289-348 | one user entry per earlier input in order, assistant entries spell exactly the deltas of their execution, and no two adjacent ones share an execution |
| Records.HistoryIsOfOtherRoots | rust/crates/phenix-conductor/src/journal.rs:300-318 | only other parentless roots of the session contribute |
| IdOrder.IdOrderIsTotal | rust/crates/phenix-conductor/src/lib.rs:1886-1889 | map order of ids is a strict total order |
| IdOrder.CreationOrderIsNotMapOrder | rust/crates/phenix-conductor/src/lib.rs:1886-1889 | execution-10 is walked before execution-9 |
| Registration.CallableRegistry.RegisterOrchestration | rust/crates/phenix-conductor/src/callables.rs:307-426 | accepts exactly sensible definitions under a new id whose listed dependencies have no cycle; what is stored has every listed node once, with its callable, its objective and the same dependencies in ascending order, in the canonical order, and is otherwise the definition; a rejected one changes nothing, and the first failed check is reported: the first repeated id, the first fault of the node with the least id, its least unknown dependency, or the cycle |
| Registration.CollectNodes | rust/crates/phenix-conductor/src/callables.rs:339-350 | collects exactly definitions without repeated ids, each node under its id with its dependencies in ascending order and each once, and reports the first repetition |
| Registration.Tidy | rust/crates/phenix-conductor/src/callables.rs:341-343 | sorting and deduplicating keeps which nodes a node depends on, and everything else about it |
| Registration.GraphOfTheList | rust/crates/phenix-conductor/src/callables.rs:339-350 | the collected nodes have the same dependencies as the listed ones, and are as many |
| Registration.CheckNodes | rust/crates/phenix-conductor/src/callables.rs:352-376 | every listed node runs a registered agent and lists only known dependencies, or the fault of the misfit with the least id is reported, with its least unknown dependency |
| Registration.BuildDependents | rust/crates/phenix-conductor/src/callables.rs:382-393 | the dependents of each node, each once, in ascending order |
| Registration.CountDown | rust/crates/phenix-conductor/src/callables.rs:405-413 | one dependency less for each dependent, without underflow |
| Registration.TakeNext | rust/crates/phenix-conductor/src/callables.rs:399-414 | the counters keep counting the remaining dependencies and the ready set stays exact |
| Registration.Normalize | rust/crates/phenix-conductor/src/callables.rs:378-416 | the loop lays out the least-ready-first order; every ready node is still in the map |
| Registration.LaidOutExactlyWhenAcyclic | rust/crates/phenix-conductor/src/callables.rs:417-419 | all nodes are laid out if and only if the dependencies that the definition lists have no cycle |
| Registration.StoredOrder | rust/crates/phenix-conductor/src/callables.rs:378-420 | the stored nodes are exactly the listed ones, each with its callable, objective and dependencies, every node after those it depends on, and lexicographically least among all such orders |
| Registration.InputOrderDoesNotMatter | rust/crates/phenix-conductor/src/callables.rs:339-420 | what is stored is determined by which nodes are listed: definitions that list the same nodes in another order are stored alike |
| Registration.StoredIsWellFormed | rust/crates/phenix-conductor/src/callables.rs:307-426 | a stored definition satisfies what the scheduler relies on |
| Registration.CallableRegistry.RegisterAgent | rust/crates/phenix-conductor/src/callables.rs:275-286 | accepts exactly agents under a new id |
| Registration.CallableRegistry.RegisterTool | rust/crates/phenix-conductor/src/callables.rs:253-272 | accepts exactly tools under a new id |
| Registration.CallableRegistry.Insert | rust/crates/phenix-conductor/src/callables.rs:428-447 | ids are unique across kinds |
| TopologicalOrder.CoversExactlyAcyclicGraphs | rust/crates/phenix-conductor/src/callables.rs:399-419 | the order covers the graph if and only if no node depends on itself, however indirectly |
| TopologicalOrder.OrderIsLexicographicallyLeast | rust/crates/phenix-conductor/src/callables.rs:399-416 | no topological order precedes it |
| TopologicalOrder.StuckHasCycle | rust/crates/phenix-conductor/src/callables.rs:417-419 | where every remaining node waits for another there is a cycle |
| TopologicalOrder.CyclesHaveNoOrder | rust/crates/phenix-conductor/src/callables.rs:417-419 | a graph with a topological order has no cycle |
| ExecutionQueue.Queue.Enqueue | rust/crates/phenix-conductor/src/server.rs:105-116 | an execution is scheduled at most once |
| ExecutionQueue.Queue.Next | rust/crates/phenix-conductor/src/server.rs:118-148 | hands out the first job whose session is free or owned by its group; ends only when closed and everything scheduled has completed |
| ExecutionQueue.Queue.Dispatch | rust/crates/phenix-conductor/src/server.rs:127-138 | the job moves from pending to in flight and was never dispatched before |
| ExecutionQueue.Queue.Complete | rust/crates/phenix-conductor/src/server.rs:150-182 | frees the session exactly when a release was asked for by this or an earlier completion and the group has nothing in flight and nothing pending; the counter neither underflows nor is missing |
| ExecutionQueue.Queue.OneGroupPerSession | rust/crates/phenix-conductor/src/server.rs:124-138 | jobs in flight for one session share their group |
| ExecutionQueue.Queue.ReleaseIsComing | rust/crates/phenix-conductor/src/server.rs:155-176 | a group marked for release still has a job whose completion can release it |
| ExecutionQueue.DispatchConserves | rust/crates/phenix-conductor/src/server.rs:118-148 | every scheduled execution stays exactly one of pending, in flight or completed |
| ExecutionQueue.DispatchCounts | rust/crates/phenix-conductor/src/server.rs:134-137 | the counters stay the numbers of jobs in flight |
| ExecutionQueue.CompletionConserves | rust/crates/phenix-conductor/src/server.rs:150-182 | a completion moves one execution from in flight to completed |
| ExecutionQueue.CompletionCounts | rust/crates/phenix-conductor/src/server.rs:158-168 | the counter drops by one and disappears with the last job |
| ExecutionQueue.CompletionLatches | rust/crates/phenix-conductor/src/server.rs:155-180 | the release mark stays as long as, and only as long as, a later completion can act on it |
| ExecutionQueue.CompletionTakesNothing | rust/crates/phenix-conductor/src/server.rs:169-179 | freeing the session of a group with nothing in flight takes it from no job in flight |
| ExecutionGroups.ExecutionGroupId | rust/crates/phenix-conductor/src/server.rs:857-871 | the upward walk yields the root of the tree, and nothing exactly for unknown executions |
| ExecutionGroups.ExecutionHasBlockingAncestor | rust/crates/phenix-conductor/src/server.rs:873-897 | true exactly when a proper ancestor failed, was cancelled or was interrupted |
| ExecutionGroups.PendingExecutionJobs | rust/crates/phenix-conductor/src/server.rs:805-828 | exactly the pending, unblocked executions of the group, each once, in snapshot order |
| ExecutionGroups.ExecutionGroupQuiescent | rust/crates/phenix-conductor/src/server.rs:830-855 | true exactly when the group exists, runs nothing and has nothing runnable |
| ExecutionGroups.QuiescentHasNoJobs | rust/crates/phenix-conductor/src/server.rs:769-792 | a group is quiescent exactly when nothing of it runs and it has no jobs for the queue |
| ExecutionGroups.EnqueuePendingExecutionGroup | rust/crates/phenix-conductor/src/server.rs:794-803 | schedules exactly the runnable executions of the group that were not scheduled before, each in the session of its execution |
| ExecutionGroups.SnapshotExecutions | rust/crates/phenix-conductor/src/lib.rs:1718-1732 | every execution once, in the order of id strings |
| ExecutionGroups.SessionOfTheRoot | rust/crates/phenix-conductor/src/lib.rs:1314-1324 | a whole tree runs in the session of its root |
| Workers.ScheduleGroup | rust/crates/phenix-conductor/src/server.rs:794-803 | the runnable executions of a live runtime reach the queue in the one session of their group, and nothing else does |
| Workers.WorkerPool.Take | rust/crates/phenix-conductor/src/server.rs:118-148 | a worker takes a job that may be taken, or there is none |
| Workers.WorkerPool.Look | rust/crates/phenix-conductor/src/server.rs:912-928 | a job is driven only if it still waits to run and nothing above it was stopped |
| Workers.WorkerPool.Begin | rust/crates/phenix-conductor/src/server.rs:1189-1221 | a job that still waits starts running, one that was overtaken does not, and none is driven twice |
| Workers.WorkerPool.Finish | rust/crates/phenix-conductor/src/server.rs:1223-1247 | an execution that still runs completes or fails, one that ended meanwhile is left alone; before a failure the frontend is told the error, which becomes the reason of the failure |
| Workers.WorkerPool.Fail | rust/crates/phenix-conductor/src/server.rs:1292-1311 | an execution that cannot be driven fails, unless it has ended; the error is told first and becomes the reason of the failure |
| Workers.WorkerPool.Decide | rust/crates/phenix-conductor/src/server.rs:1377-1401 | a driven interface agent that still runs may decide in the middle of any interleaving, exactly when the runtime grants it |
| Runtime.ConductorRuntime.RootMayPlan | rust/crates/phenix-conductor/src/semantic_tools.rs:48-62 | a root is given the tool that starts orchestrations if its configuration offers one, may start whatever it offers and holds whatever that starts; with the id reserved it is given the tool just then |
| Runtime.ConductorRuntime.OthersAreProvisioned | rust/crates/phenix-conductor/src/lib.rs:824-840 | an execution that is no root is given the tool exactly if its configuration registers a tool under the id, and may use one that writes files only if it may write |
| Runtime.ConductorRuntime.ReservedForRoots | rust/crates/phenix-conductor/src/semantic_tools.rs:48-105 | unless a configuration registers a tool under the reserved id, only executions of kind Root are given it, and they have no parent |
| Workers.WorkerPool.StartOrchestration | rust/crates/phenix-conductor/src/semantic_tools.rs:48-105 | a driven execution starts an orchestration exactly while it runs, was given the tool, has a sensible objective and the right to do so; a root exactly while it runs, with a sensible objective and an orchestration that its configuration offers; whoever was not given the tool is refused, and a refusal changes nothing |
| Workers.WorkerPool.List | rust/crates/phenix-conductor/src/server.rs:805-828 | a worker lists exactly the runnable executions of its tree, as they are at that moment |
| Workers.WorkerPool.QueueNext | rust/crates/phenix-conductor/src/server.rs:794-803 | one job of the list is scheduled unless its execution was before; whatever has happened since the list was made, the workers keep what they keep true together |
| Workers.WorkerPool.Feed | rust/crates/phenix-conductor/src/server.rs:794-803 | undisturbed, a worker schedules exactly what its job made ready |
| Workers.WorkerPool.Check | rust/crates/phenix-conductor/src/server.rs:777-779 | the release flag tells whether the tree has come to rest |
| Workers.WorkerPool.HandBack | rust/crates/phenix-conductor/src/server.rs:780-780 | the session is freed exactly on the last completion after some worker saw the tree at rest |
| Workers.WorkerPool.StartCallable | rust/crates/phenix-conductor/src/server.rs:595-625 | the reader opens a new tree of an execution and its first nodes, exactly when the session offers the callable, and an error changes nothing, and the execution is given the objective |
| Workers.WorkerPool.Cancel | rust/crates/phenix-conductor/src/server.rs:627-655 | cancelling succeeds on every known execution, ends its subtree, spares agents elsewhere unless something above them fails, and disturbs no worker; requested cancellations are told as such, ends below a failure as caused by it |
| Workers.WorkerPool.Return | rust/crates/phenix-conductor/src/server.rs:772-788 | a worker that feeds, looks and hands back frees the session exactly when its job was the last of its tree and the tree is at rest or was seen at rest before; a last job that does not free the session leaves it stuck |
| Workers.WorkerPool.RunJob | rust/crates/phenix-conductor/src/server.rs:769-792 | one round of a worker: the job is driven to its end if it may be, everything it made ready is scheduled, and a released session is free |
| Workers.WorkerPool.WorkersNeverStall | rust/crates/phenix-conductor/src/server.rs:769-897 | over any interleaving of any number of workers, driven executions and the reader, at every moment, as long as no configuration registers a tool under the id reserved for starting orchestrations: every session with jobs pending is worked on or has a job that may be taken, no session is held by a tree without jobs, and every tree that was opened is done once it has no jobs |
| Workers.WorkerPool.OnlyObstructedTreesStall | rust/crates/phenix-conductor/src/server.rs:769-897 | whatever is configured: a session with jobs pending goes on if and only if it is not stuck, that is, held by a tree without jobs; only trees that were obstructed hold stuck sessions; a tree without jobs that was never obstructed is done |
| Sheltering.RunsNeverStall | rust/crates/phenix-conductor/src/server.rs:769-897 | over any run in which orchestrations are started at the top level or by top-level executions: every session with jobs pending goes on, none is held by a tree without jobs, and trees without jobs are done |
| Sheltering.StepKeepsClear | rust/crates/phenix-conductor/src/server.rs:769-897 | no step obstructs a tree: every live orchestration is top-level or directly below a top-level execution that was not stopped |
| Sheltering.ShelteredIsClear | rust/crates/phenix-conductor/src/server.rs:860-897 | such a tree is not obstructed |
| Sheltering.EndKeepsShelter | rust/crates/phenix-conductor/src/server.rs:1223-1247 | the end of a driven execution leaves no live orchestration below something that was stopped: a failure ends all below it, and nothing above a top-level execution can take it along |
| Sheltering.CancellationKeepsShelter | rust/crates/phenix-conductor/src/server.rs:627-655 | neither does a cancellation, which ends the whole subtree |
| Sheltering.DecisionKeepsShelter | rust/crates/phenix-conductor/src/failure_decisions.rs:24-149 | nor a decision about a failure |
| Sheltering.PlanKeepsShelter | rust/crates/phenix-conductor/src/lib.rs:1253-1295 | nor an orchestration that a running top-level execution starts |
| Sheltering.StepKeepsOwned | rust/crates/phenix-conductor/src/server.rs:769-828 | the workers only ever work on trees that the reader has opened |
| WorkerRuns.StepKeepsOrder | rust/crates/phenix-conductor/src/server.rs:769-828 | every step of a worker, of a driven execution or of the reader keeps what the workers keep true together |
| WorkerRuns.SessionGoesOnUnlessStuck | rust/crates/phenix-conductor/src/server.rs:118-148 | a fact about the queue, whoever may start orchestrations: session by session, some worker holds a job of it or may take one, exactly unless it is held by a tree without jobs |
| WorkerRuns.IdleTreeIsDone | rust/crates/phenix-conductor/src/server.rs:769-792 | tree by tree: without jobs and never obstructed means that all its orchestrations have ended, what is live in it is blocked, and it holds no session |
| WorkerRuns.ObstructedIsNeverAtRest | rust/crates/phenix-conductor/src/server.rs:830-858 | a tree with a live orchestration below something that was stopped is not seen at rest |
| WorkerRuns.AtRestUnlessObstructed | rust/crates/phenix-conductor/src/server.rs:830-858 | where nobody of a tree runs or can start, it is at rest if and only if it is not obstructed |
| WorkerRuns.LastJobFreesOrSticks | rust/crates/phenix-conductor/src/server.rs:150-182 | the last completion of a tree frees its session if some worker saw the tree at rest, and otherwise leaves it stuck |
| WorkerRuns.StuckStays | rust/crates/phenix-conductor/src/server.rs:118-182 | no step frees a stuck session or takes a job of it, not even a cancellation of the tree that holds it |
| WorkerRuns.StuckForGood | rust/crates/phenix-conductor/src/server.rs:118-182 | so over any run the session stays with the tree that holds it, and its pending jobs are never taken |
| WorkerInvariants.TakeKeepsOrder | rust/crates/phenix-conductor/src/server.rs:118-148 | taking a job forgets nothing that can start |
| WorkerInvariants.HandBackKeepsOrder | rust/crates/phenix-conductor/src/server.rs:769-792 | handing a job back leaves no session taken by a tree without jobs |
| WorkerInvariants.HandBackKeepsReasons | rust/crates/phenix-conductor/src/server.rs:150-182 | a tree that keeps its session after a completion has jobs left or was obstructed |
| WorkerInvariants.EndWillBeNoticed | rust/crates/phenix-conductor/src/server.rs:777-779 | while jobs of a tree are in flight its end will be noticed whenever it comes, even if it is cancelled between a look and a completion |
| WorkerInvariants.FeedKeepsOrder | rust/crates/phenix-conductor/src/server.rs:794-803 | feeding a new tree schedules all of it that can start |
| WorkerInvariants.ListedKeepsOrder | rust/crates/phenix-conductor/src/server.rs:794-803 | scheduling one job of an old list forgets nothing and leaves no session taken by a tree without jobs, even if the tree was cancelled since the list was made |
| WorkerRuns.ListIsComplete | rust/crates/phenix-conductor/src/server.rs:805-828 | what a worker has listed is all of its tree that can start and is not scheduled |
| WorkerInvariants.ActKeepsOrder | rust/crates/phenix-conductor/src/server.rs:899-1001 | what is done for a driven execution within its tree leaves other trees and workers alone |
| WorkerInvariants.EndKeepsOrder | rust/crates/phenix-conductor/src/server.rs:1223-1247 | what the end of a job makes ready is not forgotten |
| WorkerInvariants.CancelKeepsOrder | rust/crates/phenix-conductor/src/server.rs:627-655 | a cancellation makes nothing ready and its ends will be noticed |
| WorkerInvariants.OpenKeepsOrder | rust/crates/phenix-conductor/src/server.rs:574-625 | a new tree belongs to the reader until it is fed |
| WorkerInvariants.OrchestrationHasWork | rust/crates/phenix-conductor/src/failure_decisions.rs:447-632 | below a live orchestration of a tree that is not obstructed an agent runs or can start |
| WorkerInvariants.NothingIsLost | rust/crates/phenix-conductor/src/server.rs:769-828 | without jobs in flight whatever can start is pending |
| Standstill.CancellingOneSparesTheOther | rust/crates/phenix-conductor/src/failure_decisions.rs:535-557 | cancelling one worker of a plan stops the plan, which neither completes nor fails, and leaves its other worker running |
| Standstill.WorkerMayPlan | rust/crates/phenix-conductor/src/lib.rs:824-840 | where a tool is registered under the reserved id, a worker that is configured to carry out plans is given it and is granted enough by the plan it works for |
| Standstill.ObstructedTreeKeepsItsSession | rust/crates/phenix-conductor/src/server.rs:769-897 | the failing case of session progress, possible only with a configuration that registers a tool under the id reserved for starting orchestrations, as a run from an empty journal with such a configuration: a plan is started, one of its workers is cancelled while the other runs, the other starts a plan of its own and completes; that plan is obstructed, its tree keeps the session, and the agent opened next can start but waits for good |
| WorkspaceLeases.WorkspaceLeaseManager.TryAcquire | rust/crates/phenix-conductor/src/workspace_lease.rs:61-85 | granted exactly when no outstanding lease conflicts |
| WorkspaceLeases.WorkspaceLeaseManager.Release | rust/crates/phenix-conductor/src/workspace_lease.rs:87-115 | the record stays accurate if and only if the dropped lease was the only one of its kind |
| WorkspaceLeases.PermitsIsGrantable | rust/crates/phenix-conductor/src/workspace_lease.rs:24-29 | the recorded holders permit a mode exactly when no outstanding lease stands against it |
| WorkspaceLeases.AcquisitionKeepsRecord | rust/crates/phenix-conductor/src/workspace_lease.rs:31-40 | granting keeps the recorded holders equal to the outstanding leases and writers alone, and leaves no empty entry |
| WorkspaceLeases.ReleaseIsAccurateForSingleLeases | rust/crates/phenix-conductor/src/workspace_lease.rs:42-53 | a second read lease of one execution is forgotten with the first: accurate if and only if the lease was held once |
| WorkspaceLeases.RunsKeepTheRecord | rust/crates/phenix-conductor/src/workspace_lease.rs:61-115 | over any interleaving in which no execution holds two leases, the record is exact and a writer excludes everybody else |
| WorkerLeases.JobsHoldOneLeaseEach | rust/crates/phenix-conductor/src/server.rs:118-148 | since the queue hands out every execution at most once, no execution holds two leases |
| WorkerLeases.WorkersKeepTheRecord | rust/crates/phenix-conductor/src/server.rs:930-944 | over any run of the workers, each taking a lease for its job and dropping it before it hands the job back, the record is exact and a writer excludes everybody else |
| WorkspaceLeases.DuplicateReaderIsForgotten | rust/crates/phenix-conductor/src/workspace_lease.rs:42-53 | the failing case: a writer would be let in beside a remaining read lease |

## Left out

- Names of the form `execution-N` are represented by N; walks over maps use the order of the decimal numerals.
- Node ids are represented by their position in the order of their strings.
- Integer widths (u32 attempt numbers, u64 sequences) are unbounded.
- Prompt templates and JSON encodings are symbolic values; the texts of returned errors are not modelled.
- Configuration fingerprints are opaque and assumed to tell configurations apart (a precondition of `BindConfigurationRevision`).
- The bound configuration of a revision lives in a map beside the fingerprints instead of in the same slot.
- Invocation guards are one function that does not change; guards that keep state are not modelled.
- The environment of the public state change is restricted: an orchestration is set Completed or Failed only with the justification the scheduler has. An outside caller that fails an orchestration at will is not modelled.
- Runtime.ConductorRuntime.StartOrchestration: outside healthy runtimes its first nodes may fail to start, and the created orchestration remains; how far it came is then left open, within its tree.
- Runtime.ConductorRuntime.CancelExecution: when live orchestrations of the subtree were not waiting, the executions that existed before are stated to have ended and the agents asked about failures to remain; whether an orchestration that was about to start nodes starts them meanwhile is left open.
- Session renaming, target changes, rebasing and forking: their events are part of the journal, the operations would only add easy members.
- Routing lookup, invocation resolution, skills, tool calls and catalogs: only their journal events are kept.
- The event sink for subscribers, persistence to files and the transport.
- Waiting on condition variables, fairness and lock poisoning: each queue and lease operation is one atomic look at the state.
- Workers.WorkerPool.FeedSubmitted: for a tree that the reader has just opened, taking the snapshot and enqueuing the jobs it yields are one step; in the source a worker may take one of these jobs before the reader has queued the next.
- Workers.WorkerPool.HandBack: the release flag that a worker sets when its own step returned an error is not modelled; in a healthy runtime the modelled steps return none. Checkpoints and storage, whose errors would set it, are no part of the pool.
- Workers.WorkerPool.StartOrchestration: an execution that is no root, and is given the tool by a configuration that registers it, is required to hold the callables that the orchestration will start, since otherwise the runtime does not stay healthy; roots hold them. The tool is looked up when it is used; in the source that happens when the execution is about to be driven, and neither its kind, its authority nor a bound configuration changes in between.
- Direct starts of agents by a driven execution (`start_agent`) are operations of the runtime; no tool of the server leads to them, so they are no steps of the workers.
- Re-queuing of pending executions after a restart, and the write phases of a workspace: a pool of workers starts with a runtime in which nothing can start.
- Startup.LoadJournal: stated for journals that a live runtime wrote; for other well-formed journals only `Restore` applies.
- Error branches of the scheduler that the invariants exclude (a decision naming an unknown recovery, a recovery cycle) return nothing because they are not reachable.
