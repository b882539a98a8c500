/** The DEPENDS_ON edges one plan execution writes, and why they never close a cycle
    (src/graphclaw/agent/main_orchestrator.py, `_tool_execute_plan`, lines 4170-4201). */
module PlanDependencies {
  import opened Sequences
  import opened PlanGraph
  import Jobs
  import T = TopologicalSort

  ghost function Dependencies(g: Graph): set<T.Edge> {
    set l | l in g.links && l.kind == DependsOn :: (l.src, l.tgt)
  }

  /** An edge from the task made in one pass to the one made in an earlier pass. */
  ghost predicate PointsBack(ids: Ids, e: T.Edge) {
    exists i, k :: 0 <= k < i && e == (ids.task(i), ids.task(k))
  }

  /** Beyond what `g` has, `deps` holds only edges that point back. */
  ghost predicate OnlyPointsBack(g: Graph, ids: Ids, deps: set<T.Edge>) {
    forall e :: e in deps ==> e in Dependencies(g) || PointsBack(ids, e)
  }

  /** No list of these dependencies lets a walk run into a cycle. */
  ghost predicate Acyclic(deps: set<T.Edge>) {
    forall edges: seq<T.Edge>, t :: Elements(edges) <= deps ==> !T.ReachesCycle(edges, t)
  }

  // ---------------------------------------------------------------- which edges are written

  lemma LinkDependencies(g: Graph, fails: Faults, op: Op, src: NodeId, tgt: NodeId, kind: Kind)
    ensures var written := kind == DependsOn && !fails(op) && src in g.nodes && tgt in g.nodes;
            Dependencies(TryLink(g, fails, op, src, tgt, kind))
            == Dependencies(g) + (if written then {(src, tgt)} else {})
  {
  }

  /** Where no dependency edge raises, one is written to every target that exists. */
  lemma {:induction false} TryDependenciesMeans(g: Graph, fails: Faults, n: nat, src: NodeId, tgts: seq<NodeId>)
    requires src in g.nodes
    ensures TryDependencies(g, fails, n, src, tgts).nodes == g.nodes
    ensures forall e :: e in Dependencies(TryDependencies(g, fails, n, src, tgts)) ==>
              e in Dependencies(g) || (e.0 == src && e.1 in tgts)
    ensures Dependencies(g) <= Dependencies(TryDependencies(g, fails, n, src, tgts))
    ensures (forall k :: !fails(DependencyLink(n, k))) ==>
              forall t :: t in tgts && t in g.nodes ==> (src, t) in Dependencies(TryDependencies(g, fails, n, src, tgts))
    decreases |tgts|
  {
    if tgts != [] {
      var k := |tgts| - 1;
      TryDependenciesMeans(g, fails, n, src, tgts[..k]);
      LinkDependencies(TryDependencies(g, fails, n, src, tgts[..k]), fails, DependencyLink(n, k), src, tgts[k], DependsOn);
      assert tgts == tgts[..k] + [tgts[k]];
    }
  }

  /** The dependencies one pass adds. */
  lemma PassDependencies(g: Graph, fails: Faults, ids: Ids, owner: NodeId, n: nat, deps: seq<NodeId>)
    ensures TaskWithLinks(g, fails, ids, owner, n, deps).nodes.Keys == g.nodes.Keys + {ids.task(n)}
    ensures var before, after := Dependencies(g), Dependencies(TaskWithLinks(g, fails, ids, owner, n, deps));
            && before <= after
            && (forall e :: e in after ==> e in before || (e.0 == ids.task(n) && e.1 in deps))
            && ((forall k :: !fails(DependencyLink(n, k))) ==>
                  forall t :: t in deps && t in g.nodes ==> (ids.task(n), t) in after)
  {
    var t := ids.task(n);
    var g0 := PutNode(g, t, "task");
    assert Dependencies(g0) == Dependencies(g);
    LinkDependencies(g0, fails, GoalLink(n), t, ids.goal, PartOf);
    var g1 := TryLink(g0, fails, GoalLink(n), t, ids.goal, PartOf);
    TryDependenciesMeans(g1, fails, n, t, deps);
    LinkDependencies(TryDependencies(g1, fails, n, t, deps), fails, OwnerLink(n), t, owner, OwnedBy);
  }

  lemma FollowUpDependencies(g: Graph, fails: Faults, ids: Ids, n: nat)
    ensures Dependencies(FollowUp(g, fails, ids, n)) == Dependencies(g)
    ensures g.nodes.Keys <= FollowUp(g, fails, ids, n).nodes.Keys
  {
  }

  lemma {:induction false} ResolveMeans(byIndex: map<int, NodeId>, deps: seq<int>)
    ensures forall t :: t in Resolve(byIndex, deps) <==> exists d :: d in deps && d in byIndex && byIndex[d] == t
    decreases |deps|
  {
    if deps != [] {
      var n := |deps| - 1;
      ResolveMeans(byIndex, deps[..n]);
      assert deps == deps[..n] + [deps[n]];
    }
  }

  /** `index_to_task_id` after `n` passes: the selected tasks made so far, by their place in the plan. */
  ghost predicate IndexIs(byIndex: map<int, NodeId>, ids: Ids, chosen: seq<Chosen>, n: nat)
    requires n <= |chosen|
  {
    && (forall k :: 0 <= k < n ==> chosen[k].index in byIndex && byIndex[chosen[k].index] == ids.task(k))
    && (forall d :: d in byIndex ==> exists k :: 0 <= k < n && chosen[k].index == d)
  }

  ghost predicate DistinctIndices(chosen: seq<Chosen>) {
    forall i, k :: 0 <= i < k < |chosen| ==> chosen[i].index != chosen[k].index
  }

  lemma {:induction false} IndexAfter(g: Graph, fails: Faults, ids: Ids, owner: NodeId, chosen: seq<Chosen>, n: nat)
    requires n <= |chosen| && DistinctIndices(chosen) && CreateFirst(g, fails, ids, owner, chosen, n).ok
    ensures IndexIs(CreateFirst(g, fails, ids, owner, chosen, n).byIndex, ids, chosen, n)
  {
    if n > 0 {
      IndexAfter(g, fails, ids, owner, chosen, n - 1);
    }
  }

  /** A dependency of the plan: the task selected at `i` names the place of the one selected at `k`, before it. */
  ghost predicate Wanted(chosen: seq<Chosen>, i: nat, k: nat) {
    k < i < |chosen| && chosen[i].spec.deps.Some? && chosen[k].index in chosen[i].spec.deps.value
  }

  ghost predicate IsWanted(ids: Ids, chosen: seq<Chosen>, e: T.Edge, n: nat) {
    exists i, k :: 0 <= k < i < n && Wanted(chosen, i, k) && e == (ids.task(i), ids.task(k))
  }

  ghost predicate WiredSoFar(g: Graph, p: Progress, fails: Faults, ids: Ids, chosen: seq<Chosen>, n: nat) {
    && Dependencies(g) <= Dependencies(p.graph)
    && (forall e :: e in Dependencies(p.graph) ==> e in Dependencies(g) || IsWanted(ids, chosen, e, n))
    && (forall k :: 0 <= k < n ==> ids.task(k) in p.graph.nodes)
    && ((forall m, k :: !fails(DependencyLink(m, k))) ==>
          forall e :: IsWanted(ids, chosen, e, n) ==> e in Dependencies(p.graph))
  }

  /** The dependencies after `n` good passes are the old ones and, unless their writes raise, exactly the wanted ones:
      indices of tasks that come later, are not selected, or do not exist are dropped. */
  lemma {:induction false} ExactlyWantedDependencies(g: Graph, fails: Faults, ids: Ids, owner: NodeId,
                                                     chosen: seq<Chosen>, n: nat)
    requires n <= |chosen| && DistinctIndices(chosen) && CreateFirst(g, fails, ids, owner, chosen, n).ok
    ensures WiredSoFar(g, CreateFirst(g, fails, ids, owner, chosen, n), fails, ids, chosen, n)
  {
    if n == 0 {
      assert Dependencies(PutNode(g, ids.goal, "goal")) == Dependencies(g);
    } else {
      ExactlyWantedDependencies(g, fails, ids, owner, chosen, n - 1);
      IndexAfter(g, fails, ids, owner, chosen, n - 1);
      WantedStep(g, CreateFirst(g, fails, ids, owner, chosen, n - 1), fails, ids, owner, chosen, n - 1);
    }
  }

  lemma WantedStep(g: Graph, p: Progress, fails: Faults, ids: Ids, owner: NodeId, chosen: seq<Chosen>, n: nat)
    requires n < |chosen| && IndexIs(p.byIndex, ids, chosen, n) && WiredSoFar(g, p, fails, ids, chosen, n)
    requires CreateNext(p, fails, ids, owner, chosen[n], n).ok
    ensures WiredSoFar(g, CreateNext(p, fails, ids, owner, chosen[n], n), fails, ids, chosen, n + 1)
  {
    var c, q := chosen[n], CreateNext(p, fails, ids, owner, chosen[n], n);
    var deps := Resolve(p.byIndex, c.spec.deps.value);
    var made := TaskWithLinks(p.graph, fails, ids, owner, n, deps);
    ResolveMeans(p.byIndex, c.spec.deps.value);
    PassDependencies(p.graph, fails, ids, owner, n, deps);
    FollowUpDependencies(made, fails, ids, n);
    assert Dependencies(q.graph) == Dependencies(made);
    forall e | e in Dependencies(made)
      ensures e in Dependencies(g) || IsWanted(ids, chosen, e, n + 1)
    {
      if e !in Dependencies(p.graph) {
        var d :| d in c.spec.deps.value && d in p.byIndex && p.byIndex[d] == e.1;
        var k :| 0 <= k < n && chosen[k].index == d;
        assert Wanted(chosen, n, k);
      }
    }
    if forall m, k :: !fails(DependencyLink(m, k)) {
      forall e | IsWanted(ids, chosen, e, n + 1)
        ensures e in Dependencies(made)
      {
        var i, k :| 0 <= k < i < n + 1 && Wanted(chosen, i, k) && e == (ids.task(i), ids.task(k));
        if i == n {
          assert e.1 in deps;
        } else {
          assert IsWanted(ids, chosen, e, n);
        }
      }
    }
  }

  /** Whether or not something raises, what has been written so far points back. */
  lemma {:induction false} WritesPointBack(g: Graph, fails: Faults, ids: Ids, owner: NodeId, chosen: seq<Chosen>, n: nat)
    requires n <= |chosen| && DistinctIndices(chosen)
    ensures OnlyPointsBack(g, ids, Dependencies(CreateFirst(g, fails, ids, owner, chosen, n).graph))
  {
    if CreateFirst(g, fails, ids, owner, chosen, n).ok {
      ExactlyWantedDependencies(g, fails, ids, owner, chosen, n);
    } else if n > 0 {
      WritesPointBack(g, fails, ids, owner, chosen, n - 1);
    }
  }

  // ---------------------------------------------------------------- no cycles

  /** An existing node, or a task made in a pass before `a`. */
  ghost predicate Lower(g: Graph, ids: Ids, t: NodeId, a: nat) {
    t in g.nodes || exists b :: 0 <= b < a && t == ids.task(b)
  }

  lemma EdgeDescends(g: Graph, ids: Ids, deps: set<T.Edge>, e: T.Edge, a: nat)
    requires Closed(g) && FreshIds(g, ids) && OnlyPointsBack(g, ids, deps) && e in deps
    requires e.0 in g.nodes || e.0 == ids.task(a)
    ensures Lower(g, ids, e.1, a)
    ensures e.0 in g.nodes ==> e in Dependencies(g) && e.1 in g.nodes
  {
  }

  lemma {:induction false} WalkDescends(g: Graph, ids: Ids, deps: set<T.Edge>, edges: seq<T.Edge>, p: seq<NodeId>,
                                        i: nat, j: nat, a: nat)
    requires Closed(g) && FreshIds(g, ids) && OnlyPointsBack(g, ids, deps) && Elements(edges) <= deps
    requires i < j < |p| && T.WalkFrom(edges, p[0], p) && p[i] == ids.task(a)
    ensures Lower(g, ids, p[j], a)
    decreases j
  {
    assert (p[j - 1], p[j]) in edges && (p[j - 1], p[j]) in Elements(edges);
    if j - 1 == i {
      EdgeDescends(g, ids, deps, (p[j - 1], p[j]), a);
    } else {
      WalkDescends(g, ids, deps, edges, p, i, j - 1, a);
      var b := if p[j - 1] in g.nodes then 0 else var b :| 0 <= b < a && p[j - 1] == ids.task(b); b;
      EdgeDescends(g, ids, deps, (p[j - 1], p[j]), b);
    }
  }

  /** A walk from an existing node stays among the existing nodes and their edges. */
  lemma {:induction false} OldWalkStays(g: Graph, ids: Ids, deps: set<T.Edge>, edges: seq<T.Edge>, p: seq<NodeId>,
                                        i: nat, j: nat)
    requires Closed(g) && FreshIds(g, ids) && OnlyPointsBack(g, ids, deps) && Elements(edges) <= deps
    requires i <= j < |p| && T.WalkFrom(edges, p[0], p) && p[i] in g.nodes
    ensures p[j] in g.nodes
    ensures forall m :: i <= m < j ==> (p[m], p[m + 1]) in Dependencies(g)
    decreases j
  {
    if i < j {
      OldWalkStays(g, ids, deps, edges, p, i, j - 1);
      assert (p[j - 1], p[j]) in edges && (p[j - 1], p[j]) in Elements(edges);
      EdgeDescends(g, ids, deps, (p[j - 1], p[j]), 0);
    }
  }

  lemma OldLoopIsOldCycle(g: Graph, p: seq<NodeId>, i: nat, j: nat)
    requires i < j < |p| && p[i] == p[j]
    requires forall m :: i <= m < j ==> (p[m], p[m + 1]) in Dependencies(g)
    ensures !Acyclic(Dependencies(g))
  {
    var loop := p[i..j + 1];
    var steps := seq(j - i, m requires 0 <= m < j - i => (loop[m], loop[m + 1]));
    forall m | 0 <= m < j - i
      ensures steps[m] in Dependencies(g)
    {
      assert loop[m] == p[i + m] && loop[m + 1] == p[(i + m) + 1];
    }
    assert T.WalkFrom(steps, loop[0], loop) by {
      assert forall m :: 0 <= m < |loop| - 1 ==> steps[m] == (loop[m], loop[m + 1]);
    }
    assert loop[0] == loop[j - i];
    assert T.ReachesCycle(steps, loop[0]);
  }

  lemma PointingBackClosesNoCycle(g: Graph, ids: Ids, deps: set<T.Edge>)
    requires Closed(g) && FreshIds(g, ids) && OnlyPointsBack(g, ids, deps)
    requires Acyclic(Dependencies(g))
    ensures Acyclic(deps)
  {
    forall edges: seq<T.Edge>, t | Elements(edges) <= deps && T.ReachesCycle(edges, t)
      ensures false
    {
      var p :| T.WalkFrom(edges, t, p) && T.Revisits(p);
      var i, j :| 0 <= i < j < |p| && p[i] == p[j];
      if p[i] in g.nodes {
        OldWalkStays(g, ids, deps, edges, p, i, j);
        OldLoopIsOldCycle(g, p, i, j);
      } else {
        assert (p[i], p[i + 1]) in edges && (p[i], p[i + 1]) in Elements(edges);
        assert PointsBack(ids, (p[i], p[i + 1]));
        var a, b :| 0 <= b < a && (p[i], p[i + 1]) == (ids.task(a), ids.task(b));
        WalkDescends(g, ids, deps, edges, p, i, j, a);
      }
    }
  }

  /** Executing a plan, whether it succeeds or is rolled back, leaves an acyclic dependency graph acyclic. */
  lemma ExecutionKeepsAcyclic(g: Graph, fails: Faults, ids: Ids, owner: NodeId, chosen: seq<Chosen>)
    requires Closed(g) && FreshIds(g, ids) && DistinctIndices(chosen)
    requires Acyclic(Dependencies(g))
    ensures Acyclic(Dependencies(Executed(g, fails, ids, owner, chosen)))
  {
    var p := CreateFirst(g, fails, ids, owner, chosen, |chosen|);
    WritesPointBack(g, fails, ids, owner, chosen, |chosen|);
    DetachAllMeans(p.graph, p.created);
    PointingBackClosesNoCycle(g, ids, Dependencies(Executed(g, fails, ids, owner, chosen)));
  }

  /** So the dispatch planner, on any dependencies read from that graph, has no remainder tier: every task sits at the
      length of its longest chain. */
  lemma PlannerHasNoRemainder(g: Graph, fails: Faults, ids: Ids, owner: NodeId, chosen: seq<Chosen>,
                              order: seq<Jobs.TaskId>, edges: seq<T.Edge>, tiers: seq<seq<Jobs.TaskId>>, height: nat)
    requires Closed(g) && FreshIds(g, ids) && DistinctIndices(chosen) && Acyclic(Dependencies(g))
    requires Elements(edges) <= Dependencies(Executed(g, fails, ids, owner, chosen))
    requires T.TierMeaning(order, edges, tiers, height)
    ensures |tiers| == height
    ensures forall i, t :: 0 <= i < |tiers| ==> (t in tiers[i] <==> t in order && T.LongestChain(edges, t, i))
  {
    ExecutionKeepsAcyclic(g, fails, ids, owner, chosen);
  }
}
