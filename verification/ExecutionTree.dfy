/**
 The tree of executions: subtrees, roots, and what holds along every path.
 */
module ExecutionTree {
  import opened PhenixCore
  import opened Records
  import opened Journal
  import opened BoardInvariants

  /** `id` is `root` or descends from it. */
  ghost predicate InSubtree(b: Board, root: ExecutionId, id: ExecutionId)
    decreases id
  {
    id in b.executions &&
    (id == root ||
     var p := b.executions[id].summary.parent;
     p.Some? && p.value < id && InSubtree(b, root, p.value))
  }

  ghost predicate ProperDescendant(b: Board, root: ExecutionId, id: ExecutionId) {
    id != root && InSubtree(b, root, id)
  }

  /** The parentless execution that `id` descends from. */
  ghost function RootOf(b: Board, id: ExecutionId): ExecutionId
    decreases id
  {
    if id in b.executions && b.executions[id].summary.parent.Some? && b.executions[id].summary.parent.value < id
    then RootOf(b, b.executions[id].summary.parent.value)
    else id
  }

  lemma {:induction false} SubtreeBounds(b: Board, root: ExecutionId, id: ExecutionId)
    requires Lineage(b) && InSubtree(b, root, id)
    ensures root in b.executions && root <= id
    decreases id
  {
    if id != root { SubtreeBounds(b, root, b.executions[id].summary.parent.value); }
  }

  lemma {:induction false} SubtreeTransitive(b: Board, a: ExecutionId, m: ExecutionId, id: ExecutionId)
    requires InSubtree(b, a, m) && InSubtree(b, m, id)
    ensures InSubtree(b, a, id)
    decreases id
  {
    if id != m { SubtreeTransitive(b, a, m, b.executions[id].summary.parent.value); }
  }

  /** Two ancestors of one execution are ancestors of each other one way round. */
  lemma {:induction false} AncestorsNest(b: Board, x: ExecutionId, y: ExecutionId, id: ExecutionId)
    requires InSubtree(b, x, id) && InSubtree(b, y, id)
    ensures InSubtree(b, x, y) || InSubtree(b, y, x)
    decreases id
  {
    if id != x && id != y { AncestorsNest(b, x, y, b.executions[id].summary.parent.value); }
  }

  lemma {:induction false} RootFacts(b: Board, id: ExecutionId)
    requires Lineage(b) && id in b.executions
    ensures RootOf(b, id) in b.executions && b.executions[RootOf(b, id)].summary.parent.None?
    ensures InSubtree(b, RootOf(b, id), id)
    decreases id
  {
    if b.executions[id].summary.parent.Some? {
      RootFacts(b, b.executions[id].summary.parent.value);
    }
  }

  lemma {:induction false} RootOfSubtree(b: Board, root: ExecutionId, id: ExecutionId)
    requires Lineage(b) && InSubtree(b, root, id)
    ensures RootOf(b, id) == RootOf(b, root)
    decreases id
  {
    if id != root { RootOfSubtree(b, root, b.executions[id].summary.parent.value); }
  }

  /** The subtree of a parentless execution is exactly what climbs to it. */
  lemma SubtreeIsTheGroup(b: Board, root: ExecutionId, id: ExecutionId)
    requires Lineage(b) && id in b.executions
    requires root in b.executions && b.executions[root].summary.parent.None?
    ensures InSubtree(b, root, id) <==> RootOf(b, id) == root
  {
    RootFacts(b, id);
    if InSubtree(b, root, id) { RootOfSubtree(b, root, id); }
  }

  lemma {:induction false} SubtreeStable(b: Board, c: Board, root: ExecutionId, id: ExecutionId)
    requires Lineage(b) && Evolves(b, c) && id in b.executions
    ensures InSubtree(c, root, id) <==> InSubtree(b, root, id)
    ensures RootOf(c, id) == RootOf(b, id)
    decreases id
  {
    if b.executions[id].summary.parent.Some? {
      SubtreeStable(b, c, root, b.executions[id].summary.parent.value);
    }
  }

  lemma {:induction false} SameExecutionsSameTree(b: Board, c: Board, root: ExecutionId, id: ExecutionId)
    requires c.executions == b.executions
    ensures InSubtree(c, root, id) <==> InSubtree(b, root, id)
    decreases id
  {
    if id in b.executions && b.executions[id].summary.parent.Some? && b.executions[id].summary.parent.value < id {
      SameExecutionsSameTree(b, c, root, b.executions[id].summary.parent.value);
    }
  }

  /** A set that contains `root` and every child of its members contains the subtree. */
  lemma {:induction false} ClosedContainsSubtree(b: Board, root: ExecutionId, s: set<ExecutionId>, id: ExecutionId)
    requires root in s && InSubtree(b, root, id)
    requires forall x :: x in b.executions && b.executions[x].summary.parent.Some? && b.executions[x].summary.parent.value in s ==> x in s
    ensures id in s
    decreases id
  {
    if id != root { ClosedContainsSubtree(b, root, s, b.executions[id].summary.parent.value); }
  }

  /** Authority only shrinks down the tree, and an ancestor delegates all that runs below it. */
  lemma {:induction false} AuthorityShrinks(b: Board, ancestor: ExecutionId, id: ExecutionId)
    requires Lineage(b) && Delegated(b) && InSubtree(b, ancestor, id)
    ensures ancestor in b.executions && b.executions[ancestor].authority.Permits(b.executions[id].authority)
    ensures ancestor != id && b.executions[id].summary.callable.Some? ==>
      b.executions[id].summary.callable.value in b.executions[ancestor].authority.callables
    decreases id
  {
    if id == ancestor {
      AttenuateIsTheMeet(b.executions[id].authority, b.executions[id].authority, b.executions[id].authority);
    } else {
      var p := b.executions[id].summary.parent.value;
      AuthorityShrinks(b, ancestor, p);
      assert ParentAdmits(b, b.executions[id].summary, b.executions[id].authority);
      var top, middle, bottom := b.executions[ancestor].authority, b.executions[p].authority, b.executions[id].authority;
      AttenuateIsTheMeet(top, middle, bottom);
      PermitsPointwise(top, middle);
    }
  }

  // ---------------------------------------------------------------------------
  // Changes confined to one tree
  // ---------------------------------------------------------------------------

  /** From `b` to `c` only executions of the tree of `root` changed or appeared. */
  ghost predicate OnlyInTree(b: Board, c: Board, root: ExecutionId) {
    && (forall id :: id in b.executions && RootOf(b, id) != root ==> id in c.executions && c.executions[id] == b.executions[id])
    && (forall id :: id in c.executions && id !in b.executions ==> RootOf(c, id) == root)
  }

  lemma OnlyInTreeTransitive(a: Board, b: Board, c: Board, root: ExecutionId)
    requires Lineage(a) && Lineage(b) && Evolves(a, b) && Evolves(b, c)
    requires OnlyInTree(a, b, root) && OnlyInTree(b, c, root)
    ensures OnlyInTree(a, c, root)
  {
    forall id | id in a.executions && RootOf(a, id) != root
      ensures id in c.executions && c.executions[id] == a.executions[id]
    {
      SubtreeStable(a, b, root, id);
    }
    forall id | id in c.executions && id !in a.executions
      ensures RootOf(c, id) == root
    {
      if id in b.executions { SubtreeStable(b, c, root, id); }
    }
  }
}
