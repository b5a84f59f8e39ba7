/**
 The registry of callables, and the validation and ordering of orchestration
 definitions when they are registered.
 */
module Registration {
  import opened PhenixCore
  import opened Configuration
  import opened TopologicalOrder

  type NodeMap = map<OrchestrationNodeId, OrchestrationNode>

  /** `stored` is `node` with its dependencies in ascending order, each once. */
  ghost predicate Tidies(node: OrchestrationNode, stored: OrchestrationNode) {
    && stored.id == node.id && stored.callable == node.callable && stored.objective == node.objective
    && Increasing(stored.dependsOn)
    && forall d :: d in stored.dependsOn <==> d in node.dependsOn
  }

  function Tidy(node: OrchestrationNode): (tidied: OrchestrationNode)
    ensures Tidies(node, tidied)
  {
    var ascending := Ascending(Members(node.dependsOn));
    AscendingListsTheSet(Members(node.dependsOn));
    assert forall d :: d in ascending <==> d in Members(ascending);
    node.(dependsOn := Ascending(Members(node.dependsOn)))
  }

  ghost predicate DistinctNodeIds(nodes: seq<OrchestrationNode>) {
    forall i, j :: 0 <= i < j < |nodes| ==> nodes[i].id != nodes[j].id
  }

  ghost predicate HasId(nodes: seq<OrchestrationNode>, id: OrchestrationNodeId) {
    exists i :: 0 <= i < |nodes| && nodes[i].id == id
  }

  /** What each of the listed nodes depends on. */
  ghost function Dependencies(nodes: seq<OrchestrationNode>): Graph
    requires DistinctNodeIds(nodes)
  {
    map i | 0 <= i < |nodes| :: nodes[i].id := Members(nodes[i].dependsOn)
  }

  /** The map has exactly the listed nodes, tidied, each under its id. */
  ghost predicate Collects(m: NodeMap, nodes: seq<OrchestrationNode>) {
    && (forall id :: id in m <==> HasId(nodes, id))
    && forall i :: 0 <= i < |nodes| ==> nodes[i].id in m && Tidies(nodes[i], m[nodes[i].id])
  }

  function GraphOf(nodes: NodeMap): Graph {
    map id | id in nodes :: Members(nodes[id].dependsOn)
  }

  function Laid(nodes: NodeMap, ids: seq<OrchestrationNodeId>): seq<OrchestrationNode>
    requires forall i :: 0 <= i < |ids| ==> ids[i] in nodes
  {
    seq(|ids|, i requires 0 <= i < |ids| => nodes[ids[i]])
  }

  lemma OrderedNodesExist(nodes: NodeMap, done: set<OrchestrationNodeId>)
    ensures forall i :: 0 <= i < |Order(GraphOf(nodes), done)| ==> Order(GraphOf(nodes), done)[i] in nodes
  {
    OrderIsSound(GraphOf(nodes), done);
  }

  /** The nodes in the order in which registration stores them. */
  function Normalized(nodes: NodeMap): seq<OrchestrationNode> {
    OrderedNodesExist(nodes, {});
    Laid(nodes, Order(GraphOf(nodes), {}))
  }

  lemma CollectedNodes(m: NodeMap, nodes: seq<OrchestrationNode>)
    requires Collects(m, nodes)
    ensures forall id :: id in m ==> m[id].id == id && Increasing(m[id].dependsOn)
  {
    forall id | id in m ensures m[id].id == id && Increasing(m[id].dependsOn) {
      var i :| 0 <= i < |nodes| && nodes[i].id == id;
    }
  }

  lemma DependenciesAre(nodes: seq<OrchestrationNode>)
    requires DistinctNodeIds(nodes)
    ensures forall id :: id in Dependencies(nodes) <==> HasId(nodes, id)
    ensures forall i :: 0 <= i < |nodes| ==> Dependencies(nodes)[nodes[i].id] == Members(nodes[i].dependsOn)
  {
    forall i | 0 <= i < |nodes| ensures nodes[i].id in Dependencies(nodes) && HasId(nodes, nodes[i].id) {
      assert HasId(nodes, nodes[i].id);
    }
  }

  lemma NodesAreCounted(nodes: seq<OrchestrationNode>, g: set<OrchestrationNodeId>)
    requires DistinctNodeIds(nodes) && forall id :: id in g <==> HasId(nodes, id)
    ensures |g| == |nodes|
  {
    var ids := Ids(nodes);
    forall i | 0 <= i < |nodes| ensures ids[i] in g && ids[i] in Members(ids) { assert HasId(nodes, ids[i]); }
    forall id | id in g ensures id in Members(ids) {
      var i :| 0 <= i < |nodes| && nodes[i].id == id;
      assert ids[i] == id;
    }
    assert g == Members(ids);
    DistinctCount(ids);
  }

  lemma GraphOfTheList(m: NodeMap, nodes: seq<OrchestrationNode>)
    requires DistinctNodeIds(nodes) && Collects(m, nodes)
    ensures GraphOf(m) == Dependencies(nodes) && |m| == |nodes|
  {
    hide Collects, Dependencies, DistinctNodeIds, HasId;
    KeysAreIds(m, nodes);
    NodesAreCounted(nodes, m.Keys);
    DependenciesAre(nodes);
    forall id | id in m ensures GraphOf(m)[id] == Dependencies(nodes)[id] { SameDependenciesOf(m, nodes, id); }
    assert GraphOf(m).Keys == m.Keys == Dependencies(nodes).Keys;
    assert |m| == |m.Keys|;
  }

  lemma SameDependenciesOf(m: NodeMap, nodes: seq<OrchestrationNode>, id: OrchestrationNodeId)
    requires DistinctNodeIds(nodes) && Collects(m, nodes) && id in m
    ensures id in Dependencies(nodes) && GraphOf(m)[id] == Dependencies(nodes)[id]
  {
    DependenciesAre(nodes);
    var i :| 0 <= i < |nodes| && nodes[i].id == id;
    hide Increasing, Dependencies, DistinctNodeIds, HasId;
    assert Tidies(nodes[i], m[id]);
    assert Members(m[id].dependsOn) == Members(nodes[i].dependsOn);
  }

  // ---------------------------------------------------------------------------
  // Collecting and checking nodes
  // ---------------------------------------------------------------------------

  /** The definition repeats a node id, for the first time at position `j`. */
  ghost predicate RepeatsAt(nodes: seq<OrchestrationNode>, j: nat) {
    j < |nodes| && DistinctNodeIds(nodes[..j]) && exists i :: 0 <= i < j && nodes[i].id == nodes[j].id
  }

  method CollectNodes(orchestration: CallableId, nodes: seq<OrchestrationNode>) returns (r: Result<NodeMap, CallableRegistryError>)
    ensures r.Ok? <==> DistinctNodeIds(nodes)
    ensures r.Ok? ==> Collects(r.value, nodes)
    ensures r.Err? ==> exists j: nat :: RepeatsAt(nodes, j) && r.error == DuplicateOrchestrationNode(orchestration, nodes[j].id)
  {
    hide Tidies;
    var collected: NodeMap := map[];
    for n := 0 to |nodes|
      invariant Collects(collected, nodes[..n]) && DistinctNodeIds(nodes[..n])
    {
      var node := Tidy(nodes[n]);
      var id := nodes[n].id;
      if id in collected {
        var i :| 0 <= i < n && nodes[..n][i].id == id;
        assert nodes[i].id == nodes[n].id && RepeatsAt(nodes, n);
        return Err(DuplicateOrchestrationNode(orchestration, id));
      }
      CollectOne(collected, nodes, n, node);
      collected := collected[id := node];
    }
    assert nodes[..|nodes|] == nodes;
    r := Ok(collected);
  }

  lemma CollectOne(m: NodeMap, nodes: seq<OrchestrationNode>, n: nat, node: OrchestrationNode)
    requires n < |nodes| && Collects(m, nodes[..n]) && DistinctNodeIds(nodes[..n]) && nodes[n].id !in m && Tidies(nodes[n], node)
    ensures Collects(m[nodes[n].id := node], nodes[..n + 1]) && DistinctNodeIds(nodes[..n + 1])
  {
    hide Tidies;
    var before, after, id := nodes[..n], nodes[..n + 1], nodes[n].id;
    assert after == before + [nodes[n]];
    assert !HasId(before, id);
    forall i | 0 <= i < n ensures nodes[i].id != id && after[i] == before[i] { assert before[i].id == nodes[i].id; }
    forall other ensures HasId(after, other) <==> HasId(before, other) || other == id {
      if HasId(before, other) {
        var i :| 0 <= i < n && before[i].id == other;
        assert after[i].id == other;
      }
      assert after[n].id == id;
    }
  }

  /** The dependency that no listed node has as its id, the least if there are several. */
  ghost predicate FirstUnknown(nodes: seq<OrchestrationNode>, i: nat, d: OrchestrationNodeId)
    requires i < |nodes|
  {
    && d in nodes[i].dependsOn && !HasId(nodes, d)
    && forall c :: c in nodes[i].dependsOn && c < d ==> HasId(nodes, c)
  }

  /** What is wrong with a node: its callable is no agent, or its first unknown dependency. */
  ghost predicate NodeFault(callables: Callables, nodes: seq<OrchestrationNode>, orchestration: CallableId, i: nat, e: CallableRegistryError)
    requires i < |nodes|
  {
    if !IsAgentCallable(callables, nodes[i].callable) then
      e == InvalidOrchestrationNode(orchestration, nodes[i].id, nodes[i].callable)
    else
      exists d :: FirstUnknown(nodes, i, d) && e == UnknownOrchestrationDependency(orchestration, nodes[i].id, d)
  }

  ghost predicate NodeFits(callables: Callables, nodes: seq<OrchestrationNode>, i: nat)
    requires i < |nodes|
  {
    IsAgentCallable(callables, nodes[i].callable) && forall d :: d in nodes[i].dependsOn ==> HasId(nodes, d)
  }

  ghost predicate NodesFit(callables: Callables, nodes: seq<OrchestrationNode>) {
    forall i :: 0 <= i < |nodes| ==> NodeFits(callables, nodes, i)
  }

  /** The node with the least id of those that do not fit. */
  ghost predicate FirstMisfit(callables: Callables, nodes: seq<OrchestrationNode>, i: nat) {
    && i < |nodes| && !NodeFits(callables, nodes, i)
    && forall j :: 0 <= j < |nodes| && nodes[j].id < nodes[i].id ==> NodeFits(callables, nodes, j)
  }

  /** Checks the `listed` nodes in the order of their ids; the first fault is reported. */
  method CheckNodes(callables: Callables, nodes: NodeMap, orchestration: CallableId, ghost listed: seq<OrchestrationNode>)
    returns (r: Result<(), CallableRegistryError>)
    requires DistinctNodeIds(listed) && Collects(nodes, listed)
    ensures r.Ok? <==> NodesFit(callables, listed)
    ensures r.Err? ==> exists i :: FirstMisfit(callables, listed, i) && NodeFault(callables, listed, orchestration, i, r.error)
    ensures r.Err? ==> r.error.InvalidOrchestrationNode? || r.error.UnknownOrchestrationDependency?
  {
    hide FirstUnknown, NodeFits, Collects, Tidies, DistinctNodeIds;
    KeysAreIds(nodes, listed);
    var remaining := nodes.Keys;
    while remaining != {}
      invariant remaining <= nodes.Keys
      invariant forall i :: 0 <= i < |listed| && listed[i].id !in remaining ==> NodeFits(callables, listed, i)
      invariant forall id, other :: id in nodes && id !in remaining && other in remaining ==> id < other
      decreases |remaining|
    {
      var id := Least(remaining);
      var node := nodes[id];
      ghost var i :| 0 <= i < |listed| && listed[i].id == id;
      FitsAsCollected(callables, nodes, listed, i);
      if node.callable !in callables {
        assert FirstMisfit(callables, listed, i);
        return Err(InvalidOrchestrationNode(orchestration, id, node.callable));
      }
      if !callables[node.callable].IsExecutable() {
        assert FirstMisfit(callables, listed, i);
        return Err(InvalidOrchestrationNode(orchestration, id, node.callable));
      }
      for k := 0 to |node.dependsOn|
        invariant forall l :: 0 <= l < k ==> node.dependsOn[l] in nodes
      {
        if node.dependsOn[k] !in nodes {
          UnknownIsFirst(nodes, listed, i, k);
          assert FirstMisfit(callables, listed, i);
          return Err(UnknownOrchestrationDependency(orchestration, id, node.dependsOn[k]));
        }
      }
      remaining := remaining - {id};
    }
    r := Ok(());
  }

  lemma KeysAreIds(m: NodeMap, nodes: seq<OrchestrationNode>)
    requires Collects(m, nodes)
    ensures forall id :: id in m <==> HasId(nodes, id)
    ensures forall i :: 0 <= i < |nodes| ==> nodes[i].id in m
  {
  }

  /** A listed node fits exactly if it does as it was collected. */
  lemma FitsAsCollected(callables: Callables, m: NodeMap, nodes: seq<OrchestrationNode>, i: nat)
    requires DistinctNodeIds(nodes) && Collects(m, nodes) && i < |nodes|
    ensures forall j :: 0 <= j < |nodes| && nodes[j].id == nodes[i].id ==> j == i
    ensures var node := m[nodes[i].id];
      && node.callable == nodes[i].callable
      && (NodeFits(callables, nodes, i) <==> IsAgentCallable(callables, node.callable) && forall k :: 0 <= k < |node.dependsOn| ==> node.dependsOn[k] in m)
  {
    hide HasId, Increasing;
    assert Tidies(nodes[i], m[nodes[i].id]);
  }

  lemma UnknownIsFirst(m: NodeMap, nodes: seq<OrchestrationNode>, i: nat, k: nat)
    requires Collects(m, nodes) && i < |nodes|
    requires var deps := m[nodes[i].id].dependsOn; k < |deps| && deps[k] !in m && forall l :: 0 <= l < k ==> deps[l] in m
    ensures FirstUnknown(nodes, i, m[nodes[i].id].dependsOn[k])
  {
    var deps := m[nodes[i].id].dependsOn;
    forall c | c in nodes[i].dependsOn && c < deps[k] ensures HasId(nodes, c) {
      var l :| 0 <= l < |deps| && deps[l] == c;
    }
  }

  // ---------------------------------------------------------------------------
  // Ordering the nodes
  // ---------------------------------------------------------------------------

  function DependentsOf(dependents: map<OrchestrationNodeId, seq<OrchestrationNodeId>>, id: OrchestrationNodeId): seq<OrchestrationNodeId> {
    if id in dependents then dependents[id] else []
  }

  type Dependents = map<OrchestrationNodeId, seq<OrchestrationNodeId>>

  /** Every listed node has been met, depends on its key and comes once, in ascending order. */
  ghost predicate ListsDependents(dependents: Dependents, nodes: NodeMap, met: set<OrchestrationNodeId>) {
    && (forall d :: Increasing(DependentsOf(dependents, d)))
    && (forall d, c :: c in DependentsOf(dependents, d) <==> c in nodes && c in met && d in nodes[c].dependsOn)
  }

  method AddDependent(dependents: Dependents, id: OrchestrationNodeId, deps: seq<OrchestrationNodeId>) returns (extended: Dependents)
    requires Increasing(deps)
    ensures forall d :: DependentsOf(extended, d) == DependentsOf(dependents, d) + if d in deps then [id] else []
  {
    extended := dependents;
    for k := 0 to |deps|
      invariant forall d :: DependentsOf(extended, d) == DependentsOf(dependents, d) + if d in deps[..k] then [id] else []
    {
      IncreasingAreFresh(deps, k);
      extended := extended[deps[k] := DependentsOf(extended, deps[k]) + [id]];
    }
    assert deps[..|deps|] == deps;
  }

  lemma DependentsGrow(before: Dependents, after: Dependents, nodes: NodeMap, met: set<OrchestrationNodeId>, id: OrchestrationNodeId)
    requires ListsDependents(before, nodes, met) && id in nodes && forall c :: c in met ==> c < id
    requires forall d :: DependentsOf(after, d) == DependentsOf(before, d) + if d in nodes[id].dependsOn then [id] else []
    ensures ListsDependents(after, nodes, met + {id})
  {
    hide Increasing, DependentsOf;
    forall d
      ensures Increasing(DependentsOf(after, d))
      ensures forall c :: c in DependentsOf(after, d) <==> c in DependentsOf(before, d) || (c == id && d in nodes[id].dependsOn)
    {
      forall y | y in DependentsOf(before, d) ensures y < id { assert y in met; }
      OneListGrows(DependentsOf(before, d), id, d in nodes[id].dependsOn);
    }
  }

  lemma OneListGrows(s: seq<nat>, x: nat, listed: bool)
    requires Increasing(s) && forall y :: y in s ==> y < x
    ensures var t := s + if listed then [x] else [];
      Increasing(t) && forall y :: y in t <==> y in s || (listed && y == x)
  {
    var t := s + if listed then [x] else [];
    forall i, j | 0 <= i < j < |t| ensures t[i] < t[j] {
      if j == |s| { assert s[i] in s; }
    }
  }

  /** For every node the nodes that depend on it, in ascending order as they are met. */
  method BuildDependents(nodes: NodeMap) returns (dependents: Dependents)
    requires forall id :: id in nodes ==> Increasing(nodes[id].dependsOn)
    ensures ListsDependents(dependents, nodes, nodes.Keys)
  {
    hide Increasing, DependentsOf;
    dependents := map[];
    var remaining := nodes.Keys;
    NothingListed(nodes);
    hide ListsDependents;
    while remaining != {}
      invariant remaining <= nodes.Keys
      invariant ListsDependents(dependents, nodes, nodes.Keys - remaining)
      invariant forall c, other :: c in nodes && c !in remaining && other in remaining ==> c < other
      decreases |remaining|
    {
      var id := Least(remaining);
      var extended := AddDependent(dependents, id, nodes[id].dependsOn);
      DependentsGrow(dependents, extended, nodes, nodes.Keys - remaining, id);
      assert nodes.Keys - remaining + {id} == nodes.Keys - (remaining - {id});
      dependents, remaining := extended, remaining - {id};
    }
    assert nodes.Keys - remaining == nodes.Keys;
  }

  lemma NothingListed(nodes: NodeMap)
    ensures ListsDependents(map[], nodes, nodes.Keys - nodes.Keys)
  {
  }

  lemma IncreasingAreFresh(s: seq<nat>, k: nat)
    requires Increasing(s) && k < |s|
    ensures s[k] !in s[..k] && s[..k + 1] == s[..k] + [s[k]]
  {
  }

  /** Counts one dependency less for each of `children`; those left with none become ready. */
  method CountDown(indegree: map<OrchestrationNodeId, nat>, ready: set<OrchestrationNodeId>, children: seq<OrchestrationNodeId>)
    returns (counts: map<OrchestrationNodeId, nat>, next: set<OrchestrationNodeId>)
    requires Increasing(children)
    requires forall c :: c in children ==> c in indegree && indegree[c] >= 1
    ensures counts.Keys == indegree.Keys
    ensures forall c :: c in indegree ==> indegree[c] == counts[c] + if c in children then 1 else 0
    ensures forall c :: c in next <==> c in ready || (c in children && counts[c] == 0)
  {
    counts, next := indegree, ready;
    for k := 0 to |children|
      invariant counts.Keys == indegree.Keys
      invariant forall c :: c in indegree ==> indegree[c] == counts[c] + if c in children[..k] then 1 else 0
      invariant forall c :: c in next <==> c in ready || (c in children[..k] && counts[c] == 0)
    {
      var child := children[k];
      IncreasingAreFresh(children, k);
      var count := counts[child] - 1;
      counts := counts[child := count];
      if count == 0 {
        next := next + {child};
      }
    }
    assert children[..|children|] == children;
  }

  lemma RemainingDependencies(g: Graph, done: set<nat>, id: nat, c: nat)
    requires c in g && id !in done
    ensures |g[c] - done| == |g[c] - (done + {id})| + if id in g[c] then 1 else 0
  {
    if id in g[c] {
      assert g[c] - done == g[c] - (done + {id}) + {id};
    } else {
      assert g[c] - done == g[c] - (done + {id});
    }
  }

  lemma ReadyAfter(g: Graph, done: set<nat>, id: nat, c: nat)
    requires id in Ready(g, done)
    ensures c in Ready(g, done + {id}) <==>
      (c in Ready(g, done) && c != id) || (c in g && c !in done && id in g[c] && |g[c] - (done + {id})| == 0)
  {
    if c in g {
      assert |g[c] - (done + {id})| == 0 <==> g[c] - (done + {id}) == {};
      assert g[c] - (done + {id}) == {} <==> g[c] <= done + {id};
    }
  }

  /** The counters and the ready set while `done` are laid out. */
  ghost predicate Counting(g: Graph, done: set<nat>, indegree: map<nat, nat>, ready: set<nat>) {
    && indegree.Keys == g.Keys
    && (forall c :: c in g && c !in done ==> indegree[c] == |g[c] - done|)
    && (forall c :: c in g && c in done ==> g[c] <= done)
    && ready == Ready(g, done)
  }

  lemma NothingDone(g: Graph, c: nat)
    requires c in g
    ensures |g[c] - {}| == |g[c]| && (|g[c]| == 0 <==> g[c] <= {})
  {
    assert g[c] - {} == g[c];
    assert g[c] <= {} <==> g[c] == {};
  }

  lemma CountingStarts(g: Graph, indegree: map<nat, nat>, ready: set<nat>)
    requires indegree.Keys == g.Keys && forall c :: c in g ==> indegree[c] == |g[c]|
    requires forall c :: c in ready <==> c in g && indegree[c] == 0
    ensures Counting(g, {}, indegree, ready)
  {
    forall c | c in g ensures indegree[c] == |g[c] - {}| && (indegree[c] == 0 <==> g[c] <= {}) { NothingDone(g, c); }
    assert forall c :: c in ready <==> c in Ready(g, {});
  }

  lemma CountingGoesOn(g: Graph, done: set<nat>, indegree: map<nat, nat>, ready: set<nat>, id: nat, children: seq<nat>,
                       counts: map<nat, nat>, next: set<nat>)
    requires Counting(g, done, indegree, ready) && id in ready
    requires forall c :: c in children <==> c in g && id in g[c]
    requires counts.Keys == indegree.Keys
    requires forall c :: c in indegree ==> indegree[c] == counts[c] + if c in children then 1 else 0
    requires forall c :: c in next <==> c in ready - {id} || (c in children && counts[c] == 0)
    ensures Counting(g, done + {id}, counts, next)
  {
    forall c | c in g && c !in done + {id} ensures counts[c] == |g[c] - (done + {id})| {
      RemainingDependencies(g, done, id, c);
    }
    forall c ensures c in next <==> c in Ready(g, done + {id}) {
      ReadyAfter(g, done, id, c);
      if c in g && id in g[c] {
        assert c !in done && c != id;
        assert counts[c] == |g[c] - (done + {id})|;
      }
    }
  }

  lemma ChildrenCount(g: Graph, done: set<nat>, indegree: map<nat, nat>, ready: set<nat>, id: nat, children: seq<nat>)
    requires Counting(g, done, indegree, ready) && id in ready
    requires forall c :: c in children <==> c in g && id in g[c]
    ensures forall c :: c in children ==> c in indegree && indegree[c] >= 1
  {
    forall c | c in children ensures c in indegree && indegree[c] >= 1 {
      assert c !in done;
      RemainingDependencies(g, done, id, c);
    }
  }

  lemma GraphFacts(nodes: NodeMap)
    requires forall id :: id in nodes ==> Increasing(nodes[id].dependsOn)
    ensures GraphOf(nodes).Keys == nodes.Keys
    ensures forall id :: id in nodes ==> |GraphOf(nodes)[id]| == |nodes[id].dependsOn| && GraphOf(nodes)[id] == Members(nodes[id].dependsOn)
  {
    forall id | id in nodes ensures |GraphOf(nodes)[id]| == |nodes[id].dependsOn| { DistinctCount(nodes[id].dependsOn); }
  }

  lemma LaidStep(nodes: NodeMap, done: set<nat>)
    requires Ready(GraphOf(nodes), done) != {}
    ensures var id := Least(Ready(GraphOf(nodes), done));
      && id in nodes && id !in done
      && Order(GraphOf(nodes), done) == [id] + Order(GraphOf(nodes), done + {id})
  {
    var id := Least(Ready(GraphOf(nodes), done));
    assert id in Ready(GraphOf(nodes), done);
    assert Order(GraphOf(nodes), done) == [id] + Order(GraphOf(nodes), done + {id});
  }

  /** What has been laid out so far, and that the rest of the order is still ahead. */
  ghost predicate LaidSoFar(nodes: NodeMap, done: set<OrchestrationNodeId>, rest: NodeMap, normalized: seq<OrchestrationNode>) {
    && done <= nodes.Keys && rest == nodes - done
    && (forall i :: 0 <= i < |Order(GraphOf(nodes), done)| ==> Order(GraphOf(nodes), done)[i] in nodes)
    && Normalized(nodes) == normalized + Laid(nodes, Order(GraphOf(nodes), done))
  }

  lemma LayingStarts(nodes: NodeMap)
    ensures LaidSoFar(nodes, {}, nodes, [])
  {
    OrderedNodesExist(nodes, {});
  }

  lemma LayingGoesOn(nodes: NodeMap, done: set<OrchestrationNodeId>, rest: NodeMap, normalized: seq<OrchestrationNode>)
    requires LaidSoFar(nodes, done, rest, normalized) && Ready(GraphOf(nodes), done) != {}
    ensures var id := Least(Ready(GraphOf(nodes), done));
      && id in rest && LaidSoFar(nodes, done + {id}, rest - {id}, normalized + [rest[id]])
  {
    LaidStep(nodes, done);
    var id := Least(Ready(GraphOf(nodes), done));
    OrderedNodesExist(nodes, done + {id});
    hide Order, Ready, Least, GraphOf, Normalized;
    var later := Order(GraphOf(nodes), done + {id});
    assert Laid(nodes, [id] + later) == [nodes[id]] + Laid(nodes, later);
    assert rest - {id} == nodes - (done + {id});
  }

  lemma LayingEnds(nodes: NodeMap, done: set<OrchestrationNodeId>, rest: NodeMap, normalized: seq<OrchestrationNode>)
    requires LaidSoFar(nodes, done, rest, normalized) && Ready(GraphOf(nodes), done) == {}
    ensures normalized == Normalized(nodes)
  {
  }

  /** Takes the least ready node and counts it off for the nodes that depend on it; no counter underflows. */
  method TakeNext(nodes: NodeMap, ghost done: set<OrchestrationNodeId>, dependents: Dependents, indegree: map<nat, nat>, ready: set<nat>)
    returns (id: OrchestrationNodeId, counts: map<nat, nat>, next: set<nat>)
    requires ListsDependents(dependents, nodes, nodes.Keys) && ready != {}
    requires Counting(GraphOf(nodes), done, indegree, ready)
    ensures id == Least(Ready(GraphOf(nodes), done))
    ensures Counting(GraphOf(nodes), done + {id}, counts, next)
  {
    hide *;
    CountingTells(GraphOf(nodes), done, indegree, ready);
    id := Least(ready);
    var children := DependentsOf(dependents, id);
    ChildrenAre(nodes, dependents, id);
    ChildrenCount(GraphOf(nodes), done, indegree, ready, id, children);
    counts, next := CountDown(indegree, ready - {id}, children);
    CountingGoesOn(GraphOf(nodes), done, indegree, ready, id, children, counts, next);
  }

  /** Lays the nodes out, least ready first, until none is ready; every node taken is still there. */
  method Normalize(nodes: NodeMap) returns (normalized: seq<OrchestrationNode>)
    requires forall id :: id in nodes ==> Increasing(nodes[id].dependsOn)
    ensures normalized == Normalized(nodes)
  {
    hide *;
    ghost var g := GraphOf(nodes);
    GraphFacts(nodes);
    var indegree: map<nat, nat> := map id | id in nodes :: |nodes[id].dependsOn|;
    var dependents := BuildDependents(nodes);
    var ready := set id | id in indegree && indegree[id] == 0;
    CountingStarts(g, indegree, ready);
    var rest := nodes;
    normalized := [];
    ghost var done: set<nat> := {};
    LayingStarts(nodes);
    while ready != {}
      invariant Counting(g, done, indegree, ready)
      invariant LaidSoFar(nodes, done, rest, normalized)
      decreases |rest|
    {
      CountingTells(g, done, indegree, ready);
      LayingGoesOn(nodes, done, rest, normalized);
      var id;
      id, indegree, ready := TakeNext(nodes, done, dependents, indegree, ready);
      LessRest(rest, id);
      normalized, rest := normalized + [rest[id]], rest - {id};
      done := done + {id};
    }
    CountingTells(g, done, indegree, ready);
    LayingEnds(nodes, done, rest, normalized);
  }

  lemma LessRest(rest: NodeMap, id: OrchestrationNodeId)
    requires id in rest
    ensures |rest - {id}| < |rest|
  {
    assert (rest - {id}).Keys == rest.Keys - {id};
    assert |rest - {id}| == |(rest - {id}).Keys| && |rest| == |rest.Keys|;
  }

  lemma CountingTells(g: Graph, done: set<nat>, indegree: map<nat, nat>, ready: set<nat>)
    requires Counting(g, done, indegree, ready)
    ensures ready == Ready(g, done) && (ready != {} ==> Least(ready) in ready)
  {
  }

  lemma ChildrenAre(nodes: NodeMap, dependents: Dependents, id: nat)
    requires ListsDependents(dependents, nodes, nodes.Keys)
    ensures Increasing(DependentsOf(dependents, id))
    ensures forall c :: c in DependentsOf(dependents, id) <==> c in GraphOf(nodes) && id in GraphOf(nodes)[c]
  {
  }

  // ---------------------------------------------------------------------------
  // What the stored order is
  // ---------------------------------------------------------------------------

  function Ids(nodes: seq<OrchestrationNode>): seq<OrchestrationNodeId> {
    seq(|nodes|, i requires 0 <= i < |nodes| => nodes[i].id)
  }

  ghost predicate KnownDependencies(nodes: seq<OrchestrationNode>) {
    forall i, d :: 0 <= i < |nodes| && d in nodes[i].dependsOn ==> HasId(nodes, d)
  }

  lemma NormalizedIds(m: NodeMap, nodes: seq<OrchestrationNode>)
    requires Collects(m, nodes)
    ensures Ids(Normalized(m)) == Order(GraphOf(m), {})
  {
    OrderedNodesExist(m, {});
    CollectedNodes(m, nodes);
    hide Order, Collects;
    assert Ids(Normalized(m)) == Order(GraphOf(m), {});
  }

  /** All nodes are laid out exactly when what the definition lists as dependencies has no cycle. */
  lemma LaidOutExactlyWhenAcyclic(m: NodeMap, nodes: seq<OrchestrationNode>)
    requires DistinctNodeIds(nodes) && Collects(m, nodes) && KnownDependencies(nodes)
    ensures |Normalized(m)| == |nodes| <==> Acyclic(Dependencies(nodes))
  {
    hide *;
    GraphOfTheList(m, nodes);
    ClosedGraph(nodes);
    CoversExactlyAcyclicGraphs(GraphOf(m));
    NormalizedIds(m, nodes);
    IdsCount(Normalized(m));
    IdsCount(nodes);
  }

  ghost predicate HasTidied(stored: seq<OrchestrationNode>, node: OrchestrationNode) {
    exists j :: 0 <= j < |stored| && Tidies(node, stored[j])
  }

  /**
   `stored` has every one of the listed nodes once, tidied, puts dependencies
   first, and precedes every other such order lexicographically.
   */
  ghost predicate StoresNodes(nodes: seq<OrchestrationNode>, stored: seq<OrchestrationNode>)
    requires DistinctNodeIds(nodes)
  {
    && |stored| == |nodes|
    && (forall i :: 0 <= i < |nodes| ==> HasTidied(stored, nodes[i]))
    && Topological(Dependencies(nodes), Ids(stored))
    && (forall t :: Topological(Dependencies(nodes), t) ==> NotAfter(Ids(stored), t))
  }

  lemma StoredOrder(m: NodeMap, nodes: seq<OrchestrationNode>)
    requires DistinctNodeIds(nodes) && Collects(m, nodes) && KnownDependencies(nodes) && Acyclic(Dependencies(nodes))
    ensures StoresNodes(nodes, Normalized(m))
  {
    hide *;
    var g, stored := GraphOf(m), Normalized(m);
    GraphOfTheList(m, nodes);
    NormalizedIds(m, nodes);
    ClosedGraph(nodes);
    CoversExactlyAcyclicGraphs(g);
    FullOrderIsTopological(g);
    forall t | Topological(g, t) ensures NotAfter(Ids(stored), t) { OrderIsLexicographicallyLeast(g, t); }
    TopologicalLength(g, Ids(stored));
    IdsCount(stored);
    forall i | 0 <= i < |nodes| ensures HasTidied(stored, nodes[i]) { StoredHas(m, nodes, i); }
    TheyStore(nodes, stored);
  }

  lemma TheyStore(nodes: seq<OrchestrationNode>, stored: seq<OrchestrationNode>)
    requires DistinctNodeIds(nodes) && |stored| == |nodes|
    requires forall i :: 0 <= i < |nodes| ==> HasTidied(stored, nodes[i])
    requires Topological(Dependencies(nodes), Ids(stored))
    requires forall t :: Topological(Dependencies(nodes), t) ==> NotAfter(Ids(stored), t)
    ensures StoresNodes(nodes, stored)
  {
    hide Tidies, Topological, Dependencies, NotAfter;
  }

  lemma ClosedGraph(nodes: seq<OrchestrationNode>)
    requires DistinctNodeIds(nodes) && KnownDependencies(nodes)
    ensures SelfContained(Dependencies(nodes)) && |Dependencies(nodes)| == |nodes|
  {
    DependenciesAre(nodes);
    NodesAreCounted(nodes, Dependencies(nodes).Keys);
    hide Dependencies, DistinctNodeIds;
    assert |Dependencies(nodes)| == |Dependencies(nodes).Keys|;
  }

  lemma IdsCount(nodes: seq<OrchestrationNode>)
    ensures |Ids(nodes)| == |nodes|
  {
  }

  lemma StoredHas(m: NodeMap, nodes: seq<OrchestrationNode>, i: nat)
    requires Topological(GraphOf(m), Order(GraphOf(m), {})) && Collects(m, nodes) && i < |nodes|
    ensures HasTidied(Normalized(m), nodes[i])
  {
    OrderedNodesExist(m, {});
    var order, id := Order(GraphOf(m), {}), nodes[i].id;
    hide Order, Tidies;
    assert id in Members(order);
    var j :| 0 <= j < |order| && order[j] == id;
    assert Normalized(m)[j] == m[id];
  }

  /** Every stored node is one of the listed nodes. */
  lemma StoredIsListed(nodes: seq<OrchestrationNode>, stored: seq<OrchestrationNode>, j: nat) returns (i: nat)
    requires DistinctNodeIds(nodes) && StoresNodes(nodes, stored) && j < |stored|
    ensures i < |nodes| && Tidies(nodes[i], stored[j])
  {
    hide NotAfter, Increasing;
    var ids := Ids(stored);
    assert ids[j] in Members(ids);
    i :| 0 <= i < |nodes| && nodes[i].id == stored[j].id;
    assert HasTidied(stored, nodes[i]);
    var k :| 0 <= k < |stored| && Tidies(nodes[i], stored[k]);
    assert ids[k] == ids[j];
  }

  lemma StoredPutsDependenciesFirst(nodes: seq<OrchestrationNode>, stored: seq<OrchestrationNode>)
    requires DistinctNodeIds(nodes) && StoresNodes(nodes, stored)
    ensures DependenciesFirst(stored)
  {
    var g, ids := Dependencies(nodes), Ids(stored);
    forall j, dep | 0 <= j < |stored| && dep in stored[j].dependsOn
      ensures exists k :: 0 <= k < j && stored[k].id == dep
    {
      var i := StoredIsListed(nodes, stored, j);
      assert dep in g[ids[j]];
      assert dep in Members(ids[..j]);
      var k :| 0 <= k < j && ids[k] == dep;
      assert stored[k].id == dep;
    }
    forall j, k | 0 <= j < k < |stored| ensures stored[j].id != stored[k].id { assert ids[j] != ids[k]; }
  }

  /**
   What is stored depends on nothing but which nodes are listed: definitions
   that list the same nodes in another order are stored alike.
   */
  lemma InputOrderDoesNotMatter(s: seq<OrchestrationNode>, t: seq<OrchestrationNode>, x: seq<OrchestrationNode>, y: seq<OrchestrationNode>)
    requires DistinctNodeIds(s) && DistinctNodeIds(t) && Members(s) == Members(t)
    requires StoresNodes(s, x) && StoresNodes(t, y)
    ensures x == y
  {
    SameDependencies(s, t);
    SameIds(s, t, x, y);
    forall k | 0 <= k < |x| ensures x[k] == y[k] {
      var i := StoredIsListed(s, x, k);
      var j := StoredIsListed(t, y, k);
      assert s[i] in Members(t) && Ids(x)[k] == Ids(y)[k];
      var l :| 0 <= l < |t| && t[l] == s[i];
      assert t[l].id == t[j].id;
      TidiedAlike(s[i], x[k], y[k]);
    }
  }

  lemma SameDependencies(s: seq<OrchestrationNode>, t: seq<OrchestrationNode>)
    requires DistinctNodeIds(s) && DistinctNodeIds(t) && Members(s) == Members(t)
    ensures Dependencies(s) == Dependencies(t)
  {
    DependenciesAgree(s, t);
    DependenciesAgree(t, s);
  }

  lemma DependenciesAgree(s: seq<OrchestrationNode>, t: seq<OrchestrationNode>)
    requires DistinctNodeIds(s) && DistinctNodeIds(t) && Members(s) <= Members(t)
    ensures forall id :: id in Dependencies(s) ==> id in Dependencies(t) && Dependencies(t)[id] == Dependencies(s)[id]
  {
    forall id | id in Dependencies(s) ensures id in Dependencies(t) && Dependencies(t)[id] == Dependencies(s)[id] {
      var i :| 0 <= i < |s| && s[i].id == id;
      assert s[i] in Members(s);
      var j :| 0 <= j < |t| && t[j] == s[i];
    }
  }

  lemma SameIds(s: seq<OrchestrationNode>, t: seq<OrchestrationNode>, x: seq<OrchestrationNode>, y: seq<OrchestrationNode>)
    requires DistinctNodeIds(s) && DistinctNodeIds(t) && Dependencies(s) == Dependencies(t)
    requires StoresNodes(s, x) && StoresNodes(t, y)
    ensures Ids(x) == Ids(y) && |x| == |y|
  {
    hide Topological, Dependencies, Tidies;
    assert NotAfter(Ids(x), Ids(y)) && NotAfter(Ids(y), Ids(x));
    LeastIsUnique(Ids(x), Ids(y));
    IdsCount(x);
    IdsCount(y);
  }

  lemma LeastIsUnique(s: seq<nat>, t: seq<nat>)
    requires NotAfter(s, t) && NotAfter(t, s)
    ensures s == t
  {
    if s != t {
      var i :| 0 <= i < |s| && i < |t| && s[..i] == t[..i] && s[i] < t[i];
      var j :| 0 <= j < |s| && j < |t| && t[..j] == s[..j] && t[j] < s[j];
      AgreeBefore(s, t, i);
      AgreeBefore(s, t, j);
    }
  }

  lemma AgreeBefore(s: seq<nat>, t: seq<nat>, i: nat)
    requires i <= |s| && i <= |t| && s[..i] == t[..i]
    ensures forall k :: 0 <= k < i ==> s[k] == t[k]
  {
    forall k | 0 <= k < i ensures s[k] == t[k] { assert s[..i][k] == t[..i][k]; }
  }

  lemma TidiedAlike(node: OrchestrationNode, x: OrchestrationNode, y: OrchestrationNode)
    requires Tidies(node, x) && Tidies(node, y)
    ensures x == y
  {
    forall d ensures d in x.dependsOn <==> d in y.dependsOn { assert d in node.dependsOn <==> d in x.dependsOn; }
    IncreasingIsUnique(x.dependsOn, y.dependsOn);
  }

  lemma HeadIsMember(s: seq<nat>)
    requires s != []
    ensures s[0] in s
  {
  }

  /** A set has one increasing list. */
  lemma {:induction false} IncreasingIsUnique(s: seq<nat>, t: seq<nat>)
    requires Increasing(s) && Increasing(t) && forall d :: d in s <==> d in t
    ensures s == t
    decreases |s|
  {
    if s == [] {
      if t != [] { HeadIsMember(t); }
    } else {
      assert s[0] in t && t != [];
      assert t[0] in s;
      assert s[0] == t[0];
      forall d ensures d in s[1..] <==> d in t[1..] {
        assert d in s[1..] ==> d in s && d != s[0];
        assert d in t[1..] ==> d in t && d != t[0];
        assert d in s && d != s[0] ==> d in s[1..] by { assert s == [s[0]] + s[1..]; }
        assert d in t && d != t[0] ==> d in t[1..] by { assert t == [t[0]] + t[1..]; }
      }
      IncreasingIsUnique(s[1..], t[1..]);
      assert s == [s[0]] + s[1..] && t == [t[0]] + t[1..];
    }
  }

  // ---------------------------------------------------------------------------
  // The registry
  // ---------------------------------------------------------------------------

  ghost predicate InterfaceFits(callables: Callables, definition: OrchestrationDefinition) {
    definition.interfaceAgent.Some? ==> IsAgentCallable(callables, definition.interfaceAgent.value)
  }

  /** The definition passes every check that precedes the search for cycles. */
  ghost predicate Sensible(callables: Callables, definition: OrchestrationDefinition) {
    && definition.descriptor.kind.OrchestrationCallable?
    && definition.nodes != []
    && InterfaceFits(callables, definition)
    && DistinctNodeIds(definition.nodes)
    && NodesFit(callables, definition.nodes)
  }

  /** `stored` is the definition with its nodes in the canonical order, and otherwise as it was given. */
  ghost predicate Stores(definition: OrchestrationDefinition, stored: OrchestrationDefinition)
    requires DistinctNodeIds(definition.nodes)
  {
    && stored.descriptor == definition.descriptor && stored.interfaceAgent == definition.interfaceAgent
    && StoresNodes(definition.nodes, stored.nodes)
  }

  ghost predicate StoredAs(definition: OrchestrationDefinition, entry: CallableEntry)
    requires DistinctNodeIds(definition.nodes)
  {
    entry.OrchestrationEntry? && Stores(definition, entry.definition)
  }

  lemma FittingNodesKnowDependencies(callables: Callables, nodes: seq<OrchestrationNode>)
    requires NodesFit(callables, nodes)
    ensures KnownDependencies(nodes)
  {
    forall i, d | 0 <= i < |nodes| && d in nodes[i].dependsOn ensures HasId(nodes, d) {
      assert NodeFits(callables, nodes, i);
    }
  }

  /** What registration stores is a well-formed definition. */
  lemma StoredIsWellFormed(callables: Callables, definition: OrchestrationDefinition, stored: OrchestrationDefinition)
    requires Sensible(callables, definition) && Stores(definition, stored)
    ensures DefinitionWellFormed(callables, stored)
  {
    StoredPutsDependenciesFirst(definition.nodes, stored.nodes);
    hide DependenciesFirst, StoresNodes, HasId;
    forall j | 0 <= j < |stored.nodes| ensures IsAgentCallable(callables, stored.nodes[j].callable) {
      var i := StoredIsListed(definition.nodes, stored.nodes, j);
      assert NodeFits(callables, definition.nodes, i);
    }
    assert |stored.nodes| == |definition.nodes| by { Counts(definition.nodes, stored.nodes); }
  }

  lemma Counts(nodes: seq<OrchestrationNode>, stored: seq<OrchestrationNode>)
    requires DistinctNodeIds(nodes) && StoresNodes(nodes, stored)
    ensures |stored| == |nodes|
  {
  }

  lemma RegistryGrows(callables: Callables, id: CallableId, entry: CallableEntry)
    requires RegistryWellFormed(callables) && id !in callables && entry.Descriptor().id == id
    requires entry.ToolEntry? <==> entry.Descriptor().kind.ToolCallable?
    requires entry.AgentEntry? <==> entry.Descriptor().kind.AgentCallable?
    requires entry.OrchestrationEntry? ==> DefinitionWellFormed(callables, entry.definition)
    ensures RegistryWellFormed(callables[id := entry])
  {
    var grown := callables[id := entry];
    hide DependenciesFirst;
    forall other | other in grown ensures EntryWellFormed(grown, other) {
      if other != id { assert EntryWellFormed(callables, other); }
    }
  }

  class CallableRegistry {
    var entries: Callables

    ghost predicate Valid()
      reads this
    {
      RegistryWellFormed(entries)
    }

    constructor ()
      ensures Valid() && entries == map[]
    {
      entries := map[];
    }

    /** Adds an entry of the expected kind under a new id. */
    method Insert(entry: CallableEntry, expected: CallableKind) returns (r: Result<(), CallableRegistryError>)
      modifies this
      ensures var d := entry.Descriptor();
        r == if d.kind != expected then Err(WrongKind(d.id, expected, d.kind))
             else if d.id in old(entries) then Err(Duplicate(d.id))
             else Ok(())
      ensures entries == if r.Ok? then old(entries)[entry.Descriptor().id := entry] else old(entries)
    {
      var descriptor := entry.Descriptor();
      if descriptor.kind != expected {
        return Err(WrongKind(descriptor.id, expected, descriptor.kind));
      }
      if descriptor.id in entries {
        return Err(Duplicate(descriptor.id));
      }
      entries := entries[descriptor.id := entry];
      r := Ok(());
    }

    method RegisterTool(descriptor: CallableDescriptor) returns (r: Result<(), CallableRegistryError>)
      requires Valid()
      modifies this
      ensures Valid()
      ensures r.Ok? <==> descriptor.kind.ToolCallable? && descriptor.id !in old(entries)
      ensures entries == if r.Ok? then old(entries)[descriptor.id := ToolEntry(descriptor)] else old(entries)
    {
      r := Insert(ToolEntry(descriptor), ToolCallable);
      if r.Ok? { RegistryGrows(old(entries), descriptor.id, ToolEntry(descriptor)); }
    }

    method RegisterAgent(descriptor: CallableDescriptor, authority: ExecutionAuthority) returns (r: Result<(), CallableRegistryError>)
      requires Valid()
      modifies this
      ensures Valid()
      ensures r.Ok? <==> descriptor.kind.AgentCallable? && descriptor.id !in old(entries)
      ensures entries == if r.Ok? then old(entries)[descriptor.id := AgentEntry(descriptor, authority)] else old(entries)
    {
      r := Insert(AgentEntry(descriptor, authority), AgentCallable);
      if r.Ok? { RegistryGrows(old(entries), descriptor.id, AgentEntry(descriptor, authority)); }
    }

    /**
     Accepts a definition exactly when it is sensible, its dependencies have no
     cycle and its id is new, and stores its nodes in the canonical order.
     */
    method RegisterOrchestration(definition: OrchestrationDefinition) returns (r: Result<(), CallableRegistryError>)
      requires Valid()
      modifies this
      ensures Valid()
      ensures r.Ok? <==>
        && Sensible(old(entries), definition) && Acyclic(Dependencies(definition.nodes))
        && definition.descriptor.id !in old(entries)
      ensures r.Ok? ==> definition.descriptor.id in entries && StoredAs(definition, entries[definition.descriptor.id])
      ensures r.Ok? ==> entries == old(entries)[definition.descriptor.id := entries[definition.descriptor.id]]
      ensures r.Err? ==> entries == old(entries) && Fault(old(entries), definition, r.error)
      ensures r == Err(CyclicOrchestration(definition.descriptor.id)) <==>
        Sensible(old(entries), definition) && !Acyclic(Dependencies(definition.nodes))
    {
      hide Normalized, Collects, Dependencies, Acyclic, NodesFit, NodeFault, FirstMisfit, DistinctNodeIds, RepeatsAt, RegistryWellFormed,
        DefinitionWellFormed, KnownDependencies, Increasing, StoresNodes;
      var orchestration := definition.descriptor.id;
      if definition.descriptor.kind != OrchestrationCallable {
        return Err(WrongKind(orchestration, OrchestrationCallable, definition.descriptor.kind));
      }
      if definition.nodes == [] {
        return Err(EmptyOrchestration(orchestration));
      }
      if definition.interfaceAgent.Some? {
        var interfaceAgent := definition.interfaceAgent.value;
        if interfaceAgent !in entries {
          return Err(InvalidOrchestrationInterface(orchestration, interfaceAgent));
        }
        if !entries[interfaceAgent].AgentEntry? || !entries[interfaceAgent].IsExecutable() {
          return Err(InvalidOrchestrationInterface(orchestration, interfaceAgent));
        }
      }
      var nodes :- CollectNodes(orchestration, definition.nodes);
      var _ :- CheckNodes(entries, nodes, orchestration, definition.nodes);
      CollectedNodes(nodes, definition.nodes);
      GraphOfTheList(nodes, definition.nodes);
      FittingNodesKnowDependencies(entries, definition.nodes);
      var normalized := Normalize(nodes);
      LaidOutExactlyWhenAcyclic(nodes, definition.nodes);
      if |normalized| != |nodes| {
        return Err(CyclicOrchestration(orchestration));
      }
      StoredOrder(nodes, definition.nodes);
      ghost var stored := definition.(nodes := normalized);
      StoredIsWellFormed(entries, definition, stored);
      r := Insert(OrchestrationEntry(definition.(nodes := normalized)), OrchestrationCallable);
      if r.Ok? { RegistryGrows(old(entries), orchestration, OrchestrationEntry(stored)); }
    }
  }

  /** The first check that a rejected definition failed, in the order of the checks. */
  ghost predicate Fault(callables: Callables, definition: OrchestrationDefinition, e: CallableRegistryError) {
    var id, nodes := definition.descriptor.id, definition.nodes;
    if !definition.descriptor.kind.OrchestrationCallable? then
      e == WrongKind(id, OrchestrationCallable, definition.descriptor.kind)
    else if nodes == [] then
      e == EmptyOrchestration(id)
    else if !InterfaceFits(callables, definition) then
      e == InvalidOrchestrationInterface(id, definition.interfaceAgent.value)
    else if !DistinctNodeIds(nodes) then
      exists j: nat :: RepeatsAt(nodes, j) && e == DuplicateOrchestrationNode(id, nodes[j].id)
    else if !NodesFit(callables, nodes) then
      exists n :: FirstMisfit(callables, nodes, n) && NodeFault(callables, nodes, id, n, e)
    else if !Acyclic(Dependencies(nodes)) then
      e == CyclicOrchestration(id)
    else
      id in callables && e == Duplicate(id)
  }
}
