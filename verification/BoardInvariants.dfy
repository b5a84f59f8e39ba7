/**
 What every accepted journal guarantees about executions and their bindings,
 whoever wrote it.
 */
module BoardInvariants {
  import opened PhenixCore
  import opened Records
  import opened Journal

  /** Execution ids are exactly the numbers handed out so far. */
  ghost predicate Sequenced(b: Board) {
    && (forall id :: id in b.executions <==> 1 <= id <= b.nextExecution)
    && (forall id :: id in b.executions ==> b.executions[id].summary.id == id)
  }

  /** Parents are created first, and children run under their parent's configuration revision. */
  ghost predicate Lineage(b: Board) {
    forall id :: id in b.executions && b.executions[id].summary.parent.Some? ==>
      var p := b.executions[id].summary.parent.value;
      p in b.executions && p < id && b.executions[p].configRevision == b.executions[id].configRevision
  }

  /** A parent delegates each child's callable and permits each child's authority. */
  ghost predicate Delegated(b: Board) {
    forall id :: id in b.executions && b.executions[id].summary.parent.Some? ==>
      ParentAdmits(b, b.executions[id].summary, b.executions[id].authority)
  }

  ghost predicate DecisionSound(b: Board, f: ExecutionId)
    requires f in b.decisions
  {
    var r := b.decisions[f];
    && r.failedChild == f
    && IsFailedChildOf(b, r.parent, f)
    && IsOrchestration(b, r.parent)
    && (r.decision.RecoveryExecution().Some? ==>
          var recovery := r.decision.RecoveryExecution().value;
          f < recovery && IsChild(b, r.parent, recovery) && IsAgent(b, recovery))
  }

  ghost predicate DecisionsSound(b: Board) {
    forall f :: f in b.decisions ==> DecisionSound(b, f)
  }

  /** No execution recovers two failures. */
  ghost predicate RecoveriesDistinct(b: Board) {
    forall f, g :: f in b.decisions && g in b.decisions
      && b.decisions[f].decision.RecoveryExecution().Some?
      && b.decisions[f].decision.RecoveryExecution() == b.decisions[g].decision.RecoveryExecution()
      ==> f == g
  }

  ghost predicate InterfaceSound(b: Board, f: ExecutionId)
    requires f in b.interfaces
  {
    var i := b.interfaces[f];
    && f in b.executions && b.executions[f].summary.parent.Some?
    && var p := b.executions[f].summary.parent.value;
    && IsOrchestration(b, p) && IsFailedChildOf(b, p, f)
    && IsChild(b, p, i) && IsAgent(b, i) && f < i
  }

  ghost predicate InterfacesSound(b: Board) {
    forall f :: f in b.interfaces ==> InterfaceSound(b, f)
  }

  ghost predicate NodesSound(b: Board) {
    forall c :: c in b.nodes ==>
      c in b.executions && b.executions[c].summary.parent.Some? && IsOrchestration(b, b.executions[c].summary.parent.value)
  }

  /** An orchestration starts no node twice. */
  ghost predicate NodesDistinct(b: Board) {
    forall c, e, o :: c in b.nodes && e in b.nodes && IsChild(b, o, c) && IsChild(b, o, e) && b.nodes[c] == b.nodes[e] ==> c == e
  }

  ghost predicate BoardInv(b: Board) {
    && Sequenced(b)
    && Lineage(b)
    && Delegated(b)
    && DecisionsSound(b)
    && RecoveriesDistinct(b)
    && InterfacesSound(b)
    && NodesSound(b)
    && NodesDistinct(b)
  }

  lemma BoardFacts(b: Board)
    requires BoardInv(b)
    ensures Sequenced(b) && Lineage(b)
  {
  }

  /** Equal but for the state. */
  ghost predicate SameIdentity(r: ExecutionRecord, s: ExecutionRecord) {
    s == r.(summary := r.summary.(state := s.summary.state))
  }

  /** How a board may change over time: nothing is forgotten and no terminal state changes. */
  ghost predicate Evolves(b: Board, c: Board) {
    && b.nextExecution <= c.nextExecution
    && (forall id :: id in b.executions ==>
          && id in c.executions
          && SameIdentity(b.executions[id], c.executions[id])
          && (IsTerminal(b.executions[id].summary.state) ==> c.executions[id] == b.executions[id]))
    && (forall f :: f in b.decisions ==> f in c.decisions && c.decisions[f] == b.decisions[f])
    && (forall f :: f in b.interfaces ==> f in c.interfaces && c.interfaces[f] == b.interfaces[f])
    && (forall n :: n in b.nodes ==> n in c.nodes && c.nodes[n] == b.nodes[n])
  }

  lemma EvolvesReflexive(b: Board)
    ensures Evolves(b, b)
  {
  }

  lemma EvolvesTransitive(a: Board, b: Board, c: Board)
    requires Evolves(a, b) && Evolves(b, c)
    ensures Evolves(a, c)
  {
    forall id | id in a.executions
      ensures id in c.executions && SameIdentity(a.executions[id], c.executions[id])
      ensures IsTerminal(a.executions[id].summary.state) ==> c.executions[id] == a.executions[id]
    {
      assert id in b.executions;
    }
  }

  // Bindings once sound stay sound as the board evolves.

  lemma DecisionCarries(b: Board, c: Board, f: ExecutionId)
    requires Evolves(b, c)
    requires f in b.decisions && DecisionSound(b, f)
    ensures f in c.decisions && DecisionSound(c, f)
  {
  }

  lemma InterfaceCarries(b: Board, c: Board, f: ExecutionId)
    requires Evolves(b, c)
    requires f in b.interfaces && InterfaceSound(b, f)
    ensures f in c.interfaces && InterfaceSound(c, f)
  {
  }

  lemma DecisionsCarry(b: Board, c: Board)
    requires Evolves(b, c) && DecisionsSound(b) && RecoveriesDistinct(b) && c.decisions == b.decisions
    ensures DecisionsSound(c) && RecoveriesDistinct(c)
  {
    forall f | f in c.decisions ensures DecisionSound(c, f) { DecisionCarries(b, c, f); }
  }

  lemma InterfacesCarry(b: Board, c: Board)
    requires Evolves(b, c) && InterfacesSound(b) && c.interfaces == b.interfaces
    ensures InterfacesSound(c)
  {
    forall f | f in c.interfaces ensures InterfaceSound(c, f) { InterfaceCarries(b, c, f); }
  }

  lemma NodesCarry(b: Board, c: Board)
    requires Evolves(b, c) && NodesSound(b) && NodesDistinct(b) && c.nodes == b.nodes
    ensures NodesSound(c) && NodesDistinct(c)
  {
    forall n, e, o | n in c.nodes && e in c.nodes && IsChild(c, o, n) && IsChild(c, o, e) && c.nodes[n] == c.nodes[e]
      ensures n == e
    {
      assert n in b.executions && e in b.executions;
      assert IsChild(b, o, n) && IsChild(b, o, e);
    }
  }

  // One lemma for each way an event changes the board.

  lemma CreationEvolves(b: Board, record: ExecutionRecord)
    requires Sequenced(b)
    requires record.summary.id == b.nextExecution + 1
    ensures Evolves(b, WithExecution(b, record)) && Sequenced(WithExecution(b, record))
  {
    assert record.summary.id !in b.executions;
  }

  lemma CreationKeepsLineage(b: Board, record: ExecutionRecord)
    requires Sequenced(b) && Lineage(b) && Delegated(b)
    requires record.summary.id == b.nextExecution + 1
    requires ParentAdmits(b, record.summary, record.authority)
    requires record.summary.parent.Some? ==> record.configRevision == b.executions[record.summary.parent.value].configRevision
    ensures Lineage(WithExecution(b, record)) && Delegated(WithExecution(b, record))
  {
    var c := WithExecution(b, record);
    assert record.summary.id !in b.executions;
    forall id | id in c.executions && c.executions[id].summary.parent.Some?
      ensures ParentAdmits(c, c.executions[id].summary, c.executions[id].authority)
    {
      if id != record.summary.id {
        assert ParentAdmits(b, b.executions[id].summary, b.executions[id].authority);
      }
    }
  }

  lemma StateChangeEvolves(b: Board, id: ExecutionId, s: ExecutionState)
    requires IsLive(b, id)
    ensures Evolves(b, WithState(b, id, s))
  {
  }

  lemma StateChangeKeepsLineage(b: Board, id: ExecutionId, s: ExecutionState)
    requires Sequenced(b) && Lineage(b) && Delegated(b) && id in b.executions
    ensures Sequenced(WithState(b, id, s)) && Lineage(WithState(b, id, s)) && Delegated(WithState(b, id, s))
  {
    var c := WithState(b, id, s);
    forall e | e in c.executions && c.executions[e].summary.parent.Some?
      ensures ParentAdmits(c, c.executions[e].summary, c.executions[e].authority)
    {
      assert ParentAdmits(b, b.executions[e].summary, b.executions[e].authority);
    }
  }

  lemma BindingKeepsLineage(b: Board, c: Board)
    requires Sequenced(b) && Lineage(b) && Delegated(b)
    requires c.executions == b.executions && c.nextExecution == b.nextExecution
    ensures Sequenced(c) && Lineage(c) && Delegated(c)
  {
    forall e | e in c.executions && c.executions[e].summary.parent.Some?
      ensures ParentAdmits(c, c.executions[e].summary, c.executions[e].authority)
    {
      assert ParentAdmits(b, b.executions[e].summary, b.executions[e].authority);
    }
  }

  lemma InterfaceKeeps(b: Board, p: ExecutionId, f: ExecutionId, i: ExecutionId)
    requires Sequenced(b) && InterfacesSound(b) && AcceptsInterface(b, p, f, i)
    ensures var c := b.(interfaces := b.interfaces[f := i]); InterfacesSound(c) && Evolves(b, c)
  {
    var c := b.(interfaces := b.interfaces[f := i]);
    forall g | g in c.interfaces ensures InterfaceSound(c, g) {
      if g != f { InterfaceCarries(b, c, g); }
    }
  }

  lemma DecisionKeeps(b: Board, r: DecisionRecord)
    requires Sequenced(b) && DecisionsSound(b) && RecoveriesDistinct(b) && AcceptsDecision(b, r)
    ensures var c := b.(decisions := b.decisions[r.failedChild := r]);
      DecisionsSound(c) && RecoveriesDistinct(c) && Evolves(b, c)
  {
    var c := b.(decisions := b.decisions[r.failedChild := r]);
    forall f | f in c.decisions ensures DecisionSound(c, f) {
      if f != r.failedChild { DecisionCarries(b, c, f); }
    }
  }

  lemma NodeKeeps(b: Board, o: ExecutionId, node: OrchestrationNodeId, child: ExecutionId)
    requires NodesSound(b) && NodesDistinct(b) && AcceptsNode(b, o, node, child)
    ensures var c := b.(nodes := b.nodes[child := node]); NodesSound(c) && NodesDistinct(c) && Evolves(b, c)
  {
    var c := b.(nodes := b.nodes[child := node]);
    forall n, e, q | n in c.nodes && e in c.nodes && IsChild(c, q, n) && IsChild(c, q, e) && c.nodes[n] == c.nodes[e]
      ensures n == e
    {
      assert IsChild(b, q, n) && IsChild(b, q, e);
    }
  }

  lemma BindingsCarry(b: Board, c: Board)
    requires BoardInv(b) && Evolves(b, c)
    requires c.decisions == b.decisions && c.interfaces == b.interfaces && c.nodes == b.nodes
    ensures DecisionsSound(c) && RecoveriesDistinct(c) && InterfacesSound(c) && NodesSound(c) && NodesDistinct(c)
  {
    DecisionsCarry(b, c);
    InterfacesCarry(b, c);
    NodesCarry(b, c);
  }

  /** Every accepted event keeps the board's invariant and only adds to the board. */
  lemma StepKeepsBoard(d: Durable, event: DomainEvent)
    requires BoardInv(d.board) && Accepts(d, event)
    ensures BoardInv(Update(d, event).board) && Evolves(d.board, Update(d, event).board)
  {
    var b, c := d.board, Update(d, event).board;
    match event {
      case ExecutionCreated(x, payload) =>
        CreationEvolves(b, NewRecord(d, x, payload));
        CreationKeepsLineage(b, NewRecord(d, x, payload));
        BindingsCarry(b, c);
      case ExecutionStateChanged(x, s) =>
        StateChangeEvolves(b, x, s);
        StateChangeKeepsLineage(b, x, s);
        BindingsCarry(b, c);
      case OrchestrationFailureInterfaceStarted(p, f, i) =>
        InterfaceKeeps(b, p, f, i);
        BindingKeepsLineage(b, c);
        DecisionsCarry(b, c);
        NodesCarry(b, c);
      case OrchestrationDecisionMade(r) =>
        DecisionKeeps(b, r);
        BindingKeepsLineage(b, c);
        InterfacesCarry(b, c);
        NodesCarry(b, c);
      case OrchestrationNodeStarted(o, node, child) =>
        NodeKeeps(b, o, node, child);
        BindingKeepsLineage(b, c);
        DecisionsCarry(b, c);
        InterfacesCarry(b, c);
      case _ =>
    }
  }
}
