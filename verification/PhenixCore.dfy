/**
 The value types of the `phenix-core` crate: identities, execution summaries,
 frontend events, attempt groups, failure decisions and execution authority.

 Identities of the form `execution-N`, `session-N`, `attempt-group-N`,
 `config-N` and `tool-call-N` are represented by the number N.  Texts whose
 wording does not matter (prompts assembled from templates) are kept symbolic
 in the `Prompt` datatype.
 */
module PhenixCore {
  datatype Option<+T> = None | Some(value: T)

  datatype Result<+T, +E> = Ok(value: T) | Err(error: E) {
    predicate IsFailure() {
      Err?
    }

    function PropagateFailure<U>(): Result<U, E>
      requires Err?
    {
      Err(error)
    }

    function Extract(): T
      requires Ok?
    {
      value
    }
  }

  type ExecutionId = nat
  type SessionId = nat
  type AttemptGroupId = nat
  type ConfigRevisionId = nat
  type ToolCallId = nat
  type WorkspaceId = string
  type CallableId = string
  // The position of a node id in the order of node id strings.
  type OrchestrationNodeId = nat
  // A SHA-256 digest of a compiled configuration, kept as an opaque token.
  type ConfigRevisionFingerprint = string

  /** Characters with the Unicode property `White_Space`. */
  predicate IsWhitespace(c: char) {
    var n := c as int;
    9 <= n <= 13 || n == 32 || n == 0x85 || n == 0xA0 || n == 0x1680 || 0x2000 <= n <= 0x200A
    || n == 0x2028 || n == 0x2029 || n == 0x202F || n == 0x205F || n == 0x3000
  }

  predicate IsBlank(text: string) {
    forall i :: 0 <= i < |text| ==> IsWhitespace(text[i])
  }

  datatype ExecutionTarget = Fixed(model: string) | Routed(profile: string)

  datatype ExecutionKind = Root | Agent | Orchestration

  datatype ExecutionState = Pending | Running | Completed | Failed | Cancelled | Interrupted

  predicate IsTerminal(s: ExecutionState) {
    s.Completed? || s.Failed? || s.Cancelled? || s.Interrupted?
  }

  datatype ExecutionSummary = ExecutionSummary(
    id: ExecutionId,
    session: SessionId,
    parent: Option<ExecutionId>,
    kind: ExecutionKind,
    callable: Option<CallableId>,
    target: ExecutionTarget,
    state: ExecutionState)

  datatype SessionState = Active | Closed

  datatype SessionSummary = SessionSummary(
    id: SessionId,
    parentSession: Option<SessionId>,
    name: Option<string>,
    workspace: WorkspaceId,
    configRevision: ConfigRevisionId,
    defaultTarget: ExecutionTarget,
    state: SessionState)

  datatype FailureAttemptSummary = FailureAttemptSummary(
    execution: ExecutionId,
    attempt: nat,
    callable: Option<CallableId>,
    reason: string)

  datatype RetryContext = RetryContext(goal: Prompt, failures: seq<FailureAttemptSummary>)

  datatype Role = User | Assistant

  datatype Message = Message(role: Role, content: string)

  /** The text handed to an execution; template wording and JSON encoding stay symbolic. */
  datatype Prompt =
    | Text(text: string)
    | RetryPrompt(context: RetryContext)
    | FailureInterfacePrompt(parent: ExecutionId, failedChild: ExecutionId, failedCallable: Option<CallableId>)
    | NodePrompt(nodeObjective: string, orchestrationObjective: string)
    | Continuation(history: seq<Message>, current: Prompt)

  datatype AttemptGroup = AttemptGroup(
    id: AttemptGroupId,
    parent: ExecutionId,
    callable: CallableId,
    goal: Prompt,
    attempts: seq<ExecutionId>,
    failures: seq<FailureAttemptSummary>)
  {
    static function FromFirstFailure(id: AttemptGroupId, parent: ExecutionId, callable: CallableId, goal: Prompt,
                                     first: FailureAttemptSummary): AttemptGroup
    {
      AttemptGroup(id, parent, callable, goal, [first.execution], [first])
    }

    function RecordRetry(execution: ExecutionId): AttemptGroup {
      this.(attempts := attempts + [execution])
    }

    function RecordFailure(failure: FailureAttemptSummary): AttemptGroup {
      this.(failures := failures + [failure])
    }

    predicate ContainsExecution(execution: ExecutionId) {
      execution in attempts
    }

    function LatestExecution(): Option<ExecutionId> {
      if attempts == [] then None else Some(attempts[|attempts| - 1])
    }

    /** The one-based position of the first attempt that is `execution`. */
    function AttemptForExecution(execution: ExecutionId): (r: Option<nat>)
      ensures r.Some? <==> ContainsExecution(execution)
      ensures r.Some? ==> 1 <= r.value <= |attempts| && attempts[r.value - 1] == execution
      ensures r.Some? ==> execution !in attempts[..r.value - 1]
    {
      Position(attempts, execution, 0)
    }

    predicate HasFailureFor(execution: ExecutionId) {
      exists k :: 0 <= k < |failures| && failures[k].execution == execution
    }
  }

  function Position(s: seq<ExecutionId>, x: ExecutionId, from: nat): (r: Option<nat>)
    requires from <= |s|
    requires x !in s[..from]
    ensures r.Some? <==> x in s
    ensures r.Some? ==> 1 <= r.value <= |s| && s[r.value - 1] == x && x !in s[..r.value - 1]
    decreases |s| - from
  {
    if from == |s| then
      assert s[..from] == s;
      None
    else if s[from] == x then Some(from + 1)
    else
      assert s[..from + 1] == s[..from] + [s[from]];
      Position(s, x, from + 1)
  }

  datatype OrchestrationFailureDecision =
    | Retry(execution: ExecutionId)
    | ChooseAnotherChild(execution: ExecutionId)
    | Continue
    | Fail
  {
    function RecoveryExecution(): Option<ExecutionId> {
      match this
      case Retry(e) => Some(e)
      case ChooseAnotherChild(e) => Some(e)
      case Continue => None
      case Fail => None
    }
  }

  datatype DecisionRecord = DecisionRecord(
    parent: ExecutionId,
    failedChild: ExecutionId,
    decider: Option<ExecutionId>,
    decision: OrchestrationFailureDecision)

  datatype TerminationCause =
    | ExplicitCancellation(requested: ExecutionId)
    | AncestorFailure(failedAncestor: ExecutionId)

  datatype ExecutionEventKind =
    | UserInput(text: string)
    | StateChanged(state: ExecutionState)
    | Terminated(cause: TerminationCause)
    | AssistantContentDelta(delta: string)
    | ReasoningDelta(reasoning: string)
    | ToolCallStarted(toolCall: ToolCallId, callable: CallableId)
    | ToolCallArguments(argumentsFor: ToolCallId, arguments: string)
    | ToolCallFinished(finished: ToolCallId, output: string, success: bool)
    | ChildExecutionStarted(started: ExecutionId)
    | ChildExecutionFinished(child: ExecutionId, childState: ExecutionState)
    | DecisionMade(decision: DecisionRecord)
    | ErrorRaised(code: string, message: string)

  datatype ExecutionEvent = ExecutionEvent(
    sequence: nat,
    session: SessionId,
    execution: ExecutionId,
    kind: ExecutionEventKind)

  // ---------------------------------------------------------------------------
  // Execution authority
  // ---------------------------------------------------------------------------

  datatype FilesystemAuthority = ReadOnly | Write
  datatype NetworkAuthority = NoNetwork | Outbound
  datatype RepositoryAuthority = ReadRepository | WriteRepository

  datatype ExecutionAuthority = ExecutionAuthority(
    filesystem: FilesystemAuthority,
    network: NetworkAuthority,
    repository: RepositoryAuthority,
    ipc: set<string>,
    secrets: set<string>,
    callables: set<CallableId>)
  {
    static const READ_ONLY := ExecutionAuthority(ReadOnly, NoNetwork, ReadRepository, {}, {}, {})

    function Attenuate(requested: ExecutionAuthority): ExecutionAuthority {
      ExecutionAuthority(
        if filesystem.ReadOnly? then filesystem else requested.filesystem,
        if network.NoNetwork? then network else requested.network,
        if repository.ReadRepository? then repository else requested.repository,
        ipc * requested.ipc,
        secrets * requested.secrets,
        callables * requested.callables)
    }

    predicate Permits(child: ExecutionAuthority) {
      Attenuate(child) == child
    }
  }

  /** `Permits` is a partial order and `Attenuate` is its meet. */
  lemma AttenuateIsTheMeet(a: ExecutionAuthority, b: ExecutionAuthority, c: ExecutionAuthority)
    ensures a.Permits(a)
    ensures a.Permits(b) && b.Permits(a) ==> a == b
    ensures a.Permits(b) && b.Permits(c) ==> a.Permits(c)
    ensures a.Permits(a.Attenuate(b)) && b.Permits(a.Attenuate(b))
    ensures a.Permits(c) && b.Permits(c) <==> a.Attenuate(b).Permits(c)
  {
    PermitsPointwise(a, b);
    PermitsPointwise(b, a);
    PermitsPointwise(a, c);
    PermitsPointwise(b, c);
    PermitsPointwise(a.Attenuate(b), c);
    PermitsPointwise(a, a.Attenuate(b));
    PermitsPointwise(b, a.Attenuate(b));
  }

  lemma PermitsPointwise(a: ExecutionAuthority, b: ExecutionAuthority)
    ensures a.Permits(b) <==>
              && (a.filesystem.ReadOnly? ==> b.filesystem.ReadOnly?)
              && (a.network.NoNetwork? ==> b.network.NoNetwork?)
              && (a.repository.ReadRepository? ==> b.repository.ReadRepository?)
              && b.ipc <= a.ipc && b.secrets <= a.secrets && b.callables <= a.callables
  {
    assert b.ipc <= a.ipc <==> a.ipc * b.ipc == b.ipc;
    assert b.secrets <= a.secrets <==> a.secrets * b.secrets == b.secrets;
    assert b.callables <= a.callables <==> a.callables * b.callables == b.callables;
  }

  /** The least authority above `READ_ONLY` that permits every member of `authorities`. */
  function Envelope(authorities: set<ExecutionAuthority>): ExecutionAuthority {
    ExecutionAuthority(
      if exists a | a in authorities :: a.filesystem.Write? then Write else ReadOnly,
      if exists a | a in authorities :: a.network.Outbound? then Outbound else NoNetwork,
      if exists a | a in authorities :: a.repository.WriteRepository? then WriteRepository else ReadRepository,
      set a, x | a in authorities && x in a.ipc :: x,
      set a, x | a in authorities && x in a.secrets :: x,
      set a, x | a in authorities && x in a.callables :: x)
  }

  lemma EnvelopeIsTheJoin(authorities: set<ExecutionAuthority>, bound: ExecutionAuthority)
    ensures forall a | a in authorities :: Envelope(authorities).Permits(a)
    ensures (forall a | a in authorities :: bound.Permits(a)) <==> bound.Permits(Envelope(authorities))
  {
    var e := Envelope(authorities);
    forall a | a in authorities
      ensures e.Permits(a)
      ensures bound.Permits(e) ==> bound.Permits(a)
    {
      PermitsPointwise(e, a);
      AttenuateIsTheMeet(bound, e, a);
    }
    if forall a | a in authorities :: bound.Permits(a) {
      forall a | a in authorities
        ensures a.ipc <= bound.ipc && a.secrets <= bound.secrets && a.callables <= bound.callables
        ensures bound.filesystem.ReadOnly? ==> a.filesystem.ReadOnly?
        ensures bound.network.NoNetwork? ==> a.network.NoNetwork?
        ensures bound.repository.ReadRepository? ==> a.repository.ReadRepository?
      {
        PermitsPointwise(bound, a);
      }
      PermitsPointwise(bound, e);
    }
  }

  function Members<T>(s: seq<T>): set<T> {
    set x | x in s
  }

  method AuthorityEnvelope(authorities: seq<ExecutionAuthority>) returns (envelope: ExecutionAuthority)
    ensures envelope == Envelope(Members(authorities))
  {
    envelope := ExecutionAuthority.READ_ONLY;
    for i := 0 to |authorities|
      invariant envelope == Envelope(Members(authorities[..i]))
    {
      var a := authorities[i];
      var done := Members(authorities[..i]);
      assert Members(authorities[..i + 1]) == done + {a} by {
        assert authorities[..i + 1] == authorities[..i] + [a];
      }
      envelope := ExecutionAuthority(
        if a.filesystem.Write? then Write else envelope.filesystem,
        if a.network.Outbound? then Outbound else envelope.network,
        if a.repository.WriteRepository? then WriteRepository else envelope.repository,
        envelope.ipc + a.ipc,
        envelope.secrets + a.secrets,
        envelope.callables + a.callables);
      assert envelope == Envelope(done + {a});
    }
    assert authorities[..|authorities|] == authorities;
  }
}
