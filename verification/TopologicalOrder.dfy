/**
 Kahn's ordering of a dependency graph, taking the least ready node first:
 when it covers the graph, and which order it is.
 */
module TopologicalOrder {
  import opened PhenixCore

  /** The dependencies of every node. */
  type Graph = map<nat, set<nat>>

  /** Nodes depend on nodes only. */
  ghost predicate SelfContained(g: Graph) {
    forall id :: id in g ==> g[id] <= g.Keys
  }

  function Ready(g: Graph, done: set<nat>): set<nat> {
    set id | id in g && id !in done && g[id] <= done
  }

  predicate IsLeast(m: nat, s: set<nat>) {
    m in s && forall x :: x in s ==> m <= x
  }

  lemma {:induction false} LeastExists(s: set<nat>)
    requires s != {}
    ensures exists m :: IsLeast(m, s)
    decreases |s|
  {
    var y :| y in s;
    if s == {y} {
      assert IsLeast(y, s);
    } else {
      LeastExists(s - {y});
      var m :| IsLeast(m, s - {y});
      assert forall x :: x in s && x != y ==> x in s - {y};
      assert IsLeast(if y < m then y else m, s);
    }
  }

  function Least(s: set<nat>): (m: nat)
    requires s != {}
    ensures IsLeast(m, s)
  {
    LeastExists(s);
    var m :| IsLeast(m, s);
    m
  }

  /** The members of a set in ascending order. */
  function Ascending(s: set<nat>): seq<nat>
    decreases |s|
  {
    if s == {} then [] else [Least(s)] + Ascending(s - {Least(s)})
  }

  ghost predicate Increasing(s: seq<nat>) {
    forall i, j :: 0 <= i < j < |s| ==> s[i] < s[j]
  }

  lemma {:induction false} AscendingListsTheSet(s: set<nat>)
    ensures Members(Ascending(s)) == s
    ensures Increasing(Ascending(s))
    decreases |s|
  {
    if s != {} {
      var m, rest := Least(s), Ascending(s - {Least(s)});
      assert Ascending(s) == [m] + rest;
      AscendingListsTheSet(s - {m});
      hide Ascending, Increasing;
      IncreasingCons(m, rest);
      MembersOfCons(m, rest);
    }
  }

  lemma IncreasingCons(m: nat, rest: seq<nat>)
    requires Increasing(rest) && forall x :: x in Members(rest) ==> m < x
    ensures Increasing([m] + rest)
  {
    forall i | 0 <= i < |rest| ensures m < rest[i] {
      assert rest[i] in Members(rest);
    }
  }

  lemma MembersOfCons(m: nat, rest: seq<nat>)
    ensures Members([m] + rest) == {m} + Members(rest)
  {
  }

  /** The order in which the nodes outside `done` are taken. */
  function Order(g: Graph, done: set<nat>): seq<nat>
    decreases |g.Keys - done|
  {
    if Ready(g, done) == {} then []
    else
      var next := Least(Ready(g, done));
      assert g.Keys - (done + {next}) == g.Keys - done - {next};
      [next] + Order(g, done + {next})
  }

  ghost predicate Distinct(s: seq<nat>) {
    forall i, j :: 0 <= i < j < |s| ==> s[i] != s[j]
  }

  /** Every node once, after the nodes it depends on. */
  ghost predicate Topological(g: Graph, s: seq<nat>) {
    && Members(s) == g.Keys
    && Distinct(s)
    && forall i :: 0 <= i < |s| ==> g[s[i]] <= Members(s[..i])
  }

  /** Each node of `c` depends on the next, and the last on the first. */
  ghost predicate Cycle(g: Graph, c: seq<nat>) {
    && c != []
    && (forall k :: 0 <= k < |c| ==> c[k] in g)
    && (forall k :: 0 <= k < |c| - 1 ==> c[k + 1] in g[c[k]])
    && c[0] in g[c[|c| - 1]]
  }

  ghost predicate Acyclic(g: Graph) {
    forall c :: !Cycle(g, c)
  }

  // ---------------------------------------------------------------------------
  // What the order takes
  // ---------------------------------------------------------------------------

  /** Distinct nodes outside `done`, each after its dependencies that are outside too. */
  ghost predicate Orderly(g: Graph, done: set<nat>, s: seq<nat>) {
    && Distinct(s)
    && forall i :: 0 <= i < |s| ==> s[i] in g && s[i] !in done && g[s[i]] <= done + Members(s[..i])
  }

  lemma OrderlyCons(g: Graph, done: set<nat>, next: nat, rest: seq<nat>)
    requires next in g && next !in done && g[next] <= done && Orderly(g, done + {next}, rest)
    ensures Orderly(g, done, [next] + rest)
  {
    var s := [next] + rest;
    forall i | 0 < i < |s| ensures s[i] in g && s[i] !in done && s[i] != next && g[s[i]] <= done + Members(s[..i]) {
      assert s[i] == rest[i - 1];
      assert s[..i] == [next] + rest[..i - 1];
      MembersOfCons(next, rest[..i - 1]);
    }
  }

  lemma {:induction false} OrderIsSound(g: Graph, done: set<nat>)
    ensures Orderly(g, done, Order(g, done))
    decreases |g.Keys - done|
  {
    hide Orderly;
    if Ready(g, done) != {} {
      var next := Least(Ready(g, done));
      assert g.Keys - (done + {next}) == g.Keys - done - {next};
      OrderIsSound(g, done + {next});
      assert next in Ready(g, done);
      OrderlyCons(g, done, next, Order(g, done + {next}));
    } else {
      NothingIsOrderly(g, done);
    }
  }

  lemma NothingIsOrderly(g: Graph, done: set<nat>)
    ensures Orderly(g, done, [])
  {
  }

  /** Where it stops, every remaining node waits for another remaining node. */
  lemma {:induction false} OrderStopsWhenStuck(g: Graph, done: set<nat>)
    ensures Ready(g, done + Members(Order(g, done))) == {}
    decreases |g.Keys - done|
  {
    if Ready(g, done) != {} {
      var next := Least(Ready(g, done));
      assert g.Keys - (done + {next}) == g.Keys - done - {next};
      OrderStopsWhenStuck(g, done + {next});
      var rest := Order(g, done + {next});
      assert Members([next] + rest) == {next} + Members(rest);
      assert done + Members(Order(g, done)) == done + {next} + Members(rest);
    } else {
      assert done + Members([]) == done;
    }
  }

  lemma {:induction false} DistinctCount(s: seq<nat>)
    requires Distinct(s)
    ensures |Members(s)| == |s|
  {
    if s != [] {
      var last := s[|s| - 1];
      DistinctCount(s[..|s| - 1]);
      assert last !in Members(s[..|s| - 1]);
      assert Members(s) == Members(s[..|s| - 1]) + {last};
    }
  }

  lemma SubsetCount(s: set<nat>, t: set<nat>)
    requires s <= t
    ensures |s| <= |t| && (|s| == |t| ==> s == t)
  {
    assert t == s + (t - s);
    assert |t| == |s| + |t - s|;
  }

  lemma OrderlyFromNothing(g: Graph, s: seq<nat>)
    requires Orderly(g, {}, s)
    ensures Topological(g, s) <==> Members(s) == g.Keys
    ensures Members(s) <= g.Keys && Distinct(s)
  {
    forall i | 0 <= i < |s| ensures g[s[i]] <= Members(s[..i]) {
      assert {} + Members(s[..i]) == Members(s[..i]);
    }
  }

  /** The order covers the graph exactly when it is a topological order. */
  lemma FullOrderIsTopological(g: Graph)
    ensures |Order(g, {})| == |g| <==> Topological(g, Order(g, {}))
  {
    hide *;
    var s := Order(g, {});
    OrderIsSound(g, {});
    OrderlyFromNothing(g, s);
    DistinctCount(s);
    SubsetCount(Members(s), g.Keys);
    assert |g| == |g.Keys|;
  }

  // ---------------------------------------------------------------------------
  // Cycles
  // ---------------------------------------------------------------------------

  /** A walk of `n` steps that never leaves `rest`. */
  lemma {:induction false} WalkInside(g: Graph, rest: set<nat>, n: nat) returns (p: seq<nat>)
    requires rest != {} && rest <= g.Keys
    requires forall id :: id in rest ==> g[id] * rest != {}
    ensures |p| == n + 1 && Members(p) <= rest
    ensures forall k :: 0 <= k < n ==> p[k + 1] in g[p[k]]
  {
    if n == 0 {
      var id :| id in rest;
      p := [id];
    } else {
      var q := WalkInside(g, rest, n - 1);
      var last := q[n - 1];
      assert last in Members(q);
      var next :| next in g[last] * rest;
      p := q + [next];
    }
  }

  lemma Pigeonhole(p: seq<nat>, s: set<nat>)
    requires Members(p) <= s && |p| > |s|
    ensures exists i, j :: 0 <= i < j < |p| && p[i] == p[j]
  {
    if Distinct(p) {
      DistinctCount(p);
      SubsetCount(Members(p), s);
    }
  }

  lemma StuckHasCycle(g: Graph, rest: set<nat>)
    requires rest != {} && rest <= g.Keys
    requires forall id :: id in rest ==> g[id] * rest != {}
    ensures !Acyclic(g)
  {
    var p := WalkInside(g, rest, |rest|);
    Pigeonhole(p, rest);
    var i, j :| 0 <= i < j < |p| && p[i] == p[j];
    var c := p[i..j];
    forall k | 0 <= k < |c| ensures c[k] in g {
      assert c[k] in Members(p);
    }
    forall k | 0 <= k < |c| - 1 ensures c[k + 1] in g[c[k]] {
      assert c[k] == p[i + k] && c[k + 1] == p[i + k + 1];
    }
    assert p[j - 1 + 1] in g[p[j - 1]];
    assert Cycle(g, c);
  }

  /** The position of a node in an order that has it. */
  ghost function Place(s: seq<nat>, id: nat): (i: nat)
    requires id in s
    ensures i < |s| && s[i] == id
  {
    var i :| 0 <= i < |s| && s[i] == id;
    i
  }

  lemma DependencyComesFirst(g: Graph, s: seq<nat>, id: nat, dependency: nat)
    requires Topological(g, s) && id in g && dependency in g[id]
    ensures id in s && dependency in s && Place(s, dependency) < Place(s, id)
  {
    assert id in Members(s);
    var i := Place(s, id);
    assert dependency in Members(s[..i]);
    var j :| 0 <= j < i && s[j] == dependency;
  }

  /** Along a cycle the places would have to fall for ever. */
  lemma {:induction false} PlacesFall(g: Graph, s: seq<nat>, c: seq<nat>, k: nat)
    requires Topological(g, s) && Cycle(g, c) && k < |c|
    ensures c[0] in s && c[k] in s && Place(s, c[k]) + k <= Place(s, c[0])
  {
    assert c[0] in Members(s) && c[k] in Members(s);
    if k > 0 {
      PlacesFall(g, s, c, k - 1);
      DependencyComesFirst(g, s, c[k - 1], c[k]);
    }
  }

  lemma CyclesHaveNoOrder(g: Graph, s: seq<nat>, c: seq<nat>)
    requires Topological(g, s)
    ensures !Cycle(g, c)
  {
    if Cycle(g, c) {
      DependencyComesFirst(g, s, c[|c| - 1], c[0]);
      PlacesFall(g, s, c, |c| - 1);
    }
  }

  /** The ordering covers the whole graph exactly when nothing depends on itself, however indirectly. */
  lemma CoversExactlyAcyclicGraphs(g: Graph)
    requires SelfContained(g)
    ensures |Order(g, {})| == |g| <==> Acyclic(g)
  {
    var s := Order(g, {});
    FullOrderIsTopological(g);
    if Topological(g, s) {
      forall c ensures !Cycle(g, c) { CyclesHaveNoOrder(g, s, c); }
    } else {
      OrderIsSound(g, {});
      OrderStopsWhenStuck(g, {});
      assert {} + Members(s) == Members(s);
      var rest := g.Keys - Members(s);
      assert Members(s) <= g.Keys;
      if rest == {} {
        assert Members(s) == g.Keys;
        DistinctCount(s);
        assert false;
      }
      forall id | id in rest ensures g[id] * rest != {} {
        assert id !in Ready(g, Members(s));
        var dependency :| dependency in g[id] && dependency !in Members(s);
        assert dependency in g[id] * rest;
      }
      StuckHasCycle(g, rest);
    }
  }

  // ---------------------------------------------------------------------------
  // Which order it is
  // ---------------------------------------------------------------------------

  /** `s` is `t`, or smaller than `t` where they first differ. */
  ghost predicate NotAfter(s: seq<nat>, t: seq<nat>) {
    s == t || exists i :: 0 <= i < |s| && i < |t| && s[..i] == t[..i] && s[i] < t[i]
  }

  lemma {:induction false} OrderAt(g: Graph, done: set<nat>, i: nat)
    requires i < |Order(g, done)|
    ensures var before := done + Members(Order(g, done)[..i]);
      Ready(g, before) != {} && Order(g, done)[i] == Least(Ready(g, before))
    decreases |g.Keys - done|
  {
    var next := Least(Ready(g, done));
    assert g.Keys - (done + {next}) == g.Keys - done - {next};
    var s, rest := Order(g, done), Order(g, done + {next});
    if i == 0 {
      assert done + Members(s[..0]) == done;
    } else {
      OrderAt(g, done + {next}, i - 1);
      assert s[..i] == [next] + rest[..i - 1];
      assert Members(s[..i]) == {next} + Members(rest[..i - 1]);
      assert done + Members(s[..i]) == done + {next} + Members(rest[..i - 1]);
    }
  }

  /** Where a topological order agrees so far, its next node was ready too. */
  lemma NextIsLeast(g: Graph, t: seq<nat>, i: nat)
    requires Topological(g, t) && i < |t| && i < |Order(g, {})| && Order(g, {})[..i] == t[..i]
    ensures Order(g, {})[i] <= t[i]
  {
    OrderAt(g, {}, i);
    var before := {} + Members(t[..i]);
    hide Order;
    assert before == Members(t[..i]);
    assert t[i] in Members(t);
    assert t[i] in Ready(g, before);
  }

  lemma {:induction false} LeastSoFar(s: seq<nat>, t: seq<nat>, i: nat)
    requires i <= |s| && i <= |t|
    requires forall k :: 0 <= k < |s| && k < |t| && s[..k] == t[..k] ==> s[k] <= t[k]
    ensures s[..i] == t[..i] || NotAfter(s, t)
  {
    if i > 0 {
      LeastSoFar(s, t, i - 1);
      if s[..i - 1] == t[..i - 1] {
        assert s[..i] == s[..i - 1] + [s[i - 1]] && t[..i] == t[..i - 1] + [t[i - 1]];
      }
    }
  }

  /** No topological order of the graph is lexicographically smaller. */
  lemma OrderIsLexicographicallyLeast(g: Graph, t: seq<nat>)
    requires Topological(g, t)
    ensures Topological(g, Order(g, {})) && NotAfter(Order(g, {}), t)
  {
    hide *;
    var s := Order(g, {});
    AcyclicIfOrdered(g, t);
    TopologicalGraphsAreClosed(g, t);
    CoversExactlyAcyclicGraphs(g);
    FullOrderIsTopological(g);
    TopologicalLength(g, t);
    forall k | 0 <= k < |s| && k < |t| && s[..k] == t[..k] ensures s[k] <= t[k] { NextIsLeast(g, t, k); }
    LeastSoFar(s, t, |t|);
    EqualOrNotAfter(s, t);
  }

  lemma AcyclicIfOrdered(g: Graph, t: seq<nat>)
    requires Topological(g, t)
    ensures Acyclic(g)
  {
    forall c ensures !Cycle(g, c) { CyclesHaveNoOrder(g, t, c); }
  }

  lemma TopologicalLength(g: Graph, t: seq<nat>)
    requires Topological(g, t)
    ensures |t| == |g|
  {
    DistinctCount(t);
    assert |g| == |g.Keys|;
  }

  lemma EqualOrNotAfter(s: seq<nat>, t: seq<nat>)
    requires |s| == |t| && (s[..|t|] == t[..|t|] || NotAfter(s, t))
    ensures NotAfter(s, t)
  {
    assert s[..|t|] == s && t[..|t|] == t;
  }

  lemma TopologicalGraphsAreClosed(g: Graph, t: seq<nat>)
    requires Topological(g, t)
    ensures SelfContained(g)
  {
    forall id, dependency | id in g && dependency in g[id] ensures dependency in g {
      DependencyComesFirst(g, t, id, dependency);
      assert dependency in Members(t);
    }
  }
}
