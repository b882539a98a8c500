/** Which nodes and which links other than dependencies one plan execution leaves behind
    (src/graphclaw/agent/main_orchestrator.py, `_tool_create_goal`, `_tool_create_task`, `_tool_execute_plan`). */
module PlanWiring {
  import opened Options
  import opened PlanGraph

  ghost function Wires(g: Graph): set<Link> {
    set l | l in g.links && l.kind != DependsOn
  }

  /** The owner is no node that this execution is about to make. */
  ghost predicate OwnerIsOld(ids: Ids, owner: NodeId) {
    owner != ids.goal && forall m :: owner != ids.task(m) && owner != ids.follow(m)
  }

  // ---------------------------------------------------------------- what each pass should leave

  predicate GoalWire(l: Link, fails: Faults, ids: Ids, m: nat) {
    l == Link(ids.task(m), ids.goal, PartOf, Some(GoalLink(m))) && !fails(GoalLink(m))
  }

  predicate OwnerWire(l: Link, g: Graph, fails: Faults, ids: Ids, owner: NodeId, m: nat) {
    l == Link(ids.task(m), owner, OwnedBy, Some(OwnerLink(m))) && !fails(OwnerLink(m)) && owner in g.nodes
  }

  predicate FollowWire(l: Link, fails: Faults, ids: Ids, m: nat) {
    l == Link(ids.follow(m), ids.task(m), FollowUpFor, Some(FollowLink(m)))
    && !fails(FollowNode(m)) && !fails(FollowLink(m))
  }

  /** The task of pass `m` is part of the goal and owned by the owner; its follow-up, if it has one, is for the task. */
  predicate WiredIn(l: Link, g: Graph, fails: Faults, ids: Ids, owner: NodeId, c: Chosen, m: nat) {
    || GoalWire(l, fails, ids, m) || OwnerWire(l, g, fails, ids, owner, m)
    || (c.spec.delegated && FollowWire(l, fails, ids, m))
  }

  predicate HasFollowUp(fails: Faults, c: Chosen, m: nat) {
    c.spec.delegated && !fails(FollowNode(m))
  }

  /** The nodes of pass `m`: a task is marked as delegated once its follow-up stands and is linked. */
  ghost predicate NodesOf(nodes: map<NodeId, string>, fails: Faults, ids: Ids, c: Chosen, m: nat) {
    && ids.task(m) in nodes
    && nodes[ids.task(m)] == (if HasFollowUp(fails, c, m) && !fails(FollowLink(m)) && !fails(MetadataUpdate(m))
                              then "delegated task" else "task")
    && (ids.follow(m) in nodes <==> HasFollowUp(fails, c, m))
    && (HasFollowUp(fails, c, m) ==> nodes[ids.follow(m)] == "follow-up")
  }

  /** After `n` good passes: the goal, the nodes of each pass, and nothing else that is new. */
  ghost predicate LeavesNodes(g0: Graph, g: Graph, fails: Faults, ids: Ids, chosen: seq<Chosen>, n: nat)
    requires n <= |chosen|
  {
    && ids.goal in g.nodes && g.nodes[ids.goal] == "goal"
    && (forall id :: id in g0.nodes ==> id in g.nodes && g.nodes[id] == g0.nodes[id])
    && (forall m :: 0 <= m < n ==> NodesOf(g.nodes, fails, ids, chosen[m], m))
    && (forall id :: id in g.nodes ==> id in g0.nodes || MadeBefore(ids, id, n))
  }

  /** After `n` good passes: besides dependencies, exactly the links of each pass are new. */
  ghost predicate LeavesWires(g0: Graph, g: Graph, fails: Faults, ids: Ids, owner: NodeId, chosen: seq<Chosen>, n: nat)
    requires n <= |chosen|
  {
    forall l :: l in Wires(g) <==>
      l in Wires(g0) || exists m :: 0 <= m < n && WiredIn(l, g0, fails, ids, owner, chosen[m], m)
  }

  // ---------------------------------------------------------------- one pass

  lemma {:induction false} DependenciesAreNoWires(g: Graph, fails: Faults, n: nat, src: NodeId, tgts: seq<NodeId>)
    ensures Wires(TryDependencies(g, fails, n, src, tgts)) == Wires(g)
    ensures TryDependencies(g, fails, n, src, tgts).nodes == g.nodes
    decreases |tgts|
  {
    if tgts != [] {
      DependenciesAreNoWires(g, fails, n, src, tgts[..|tgts| - 1]);
    }
  }

  lemma LinkWires(g: Graph, fails: Faults, op: Op, src: NodeId, tgt: NodeId, kind: Kind)
    requires kind != DependsOn && src in g.nodes
    ensures TryLink(g, fails, op, src, tgt, kind).nodes == g.nodes
    ensures forall l :: l in Wires(TryLink(g, fails, op, src, tgt, kind)) <==>
              l in Wires(g) || (l == Link(src, tgt, kind, Some(op)) && !fails(op) && tgt in g.nodes)
  {
  }

  lemma TaskWires(g: Graph, fails: Faults, ids: Ids, owner: NodeId, n: nat, deps: seq<NodeId>)
    requires ids.goal in g.nodes && owner != ids.task(n)
    ensures TaskWithLinks(g, fails, ids, owner, n, deps).nodes == g.nodes[ids.task(n) := "task"]
    ensures forall l :: l in Wires(TaskWithLinks(g, fails, ids, owner, n, deps)) <==>
              l in Wires(g) || GoalWire(l, fails, ids, n) || OwnerWire(l, g, fails, ids, owner, n)
  {
    var t := ids.task(n);
    var g0 := PutNode(g, t, "task");
    assert Wires(g0) == Wires(g);
    LinkWires(g0, fails, GoalLink(n), t, ids.goal, PartOf);
    var g1 := TryLink(g0, fails, GoalLink(n), t, ids.goal, PartOf);
    DependenciesAreNoWires(g1, fails, n, t, deps);
    LinkWires(TryDependencies(g1, fails, n, t, deps), fails, OwnerLink(n), t, owner, OwnedBy);
  }

  lemma FollowUpWires(g: Graph, fails: Faults, ids: Ids, n: nat)
    requires ids.task(n) in g.nodes && ids.task(n) != ids.follow(n)
    ensures var d, f := FollowUp(g, fails, ids, n), !fails(FollowNode(n));
            && d.nodes == (if !f then g.nodes
                           else if fails(FollowLink(n)) || fails(MetadataUpdate(n)) then
                             g.nodes[ids.follow(n) := "follow-up"]
                           else g.nodes[ids.follow(n) := "follow-up"][ids.task(n) := "delegated task"])
            && forall l :: l in Wires(d) <==> l in Wires(g) || FollowWire(l, fails, ids, n)
  {
    if !fails(FollowNode(n)) {
      var g1 := PutNode(g, ids.follow(n), "follow-up");
      assert Wires(g1) == Wires(g);
      LinkWires(g1, fails, FollowLink(n), ids.follow(n), ids.task(n), FollowUpFor);
    }
  }

  /** What one good pass changes. */
  ghost predicate Passed(g: Graph, d: Graph, fails: Faults, ids: Ids, owner: NodeId, c: Chosen, n: nat) {
    && NodesOf(d.nodes, fails, ids, c, n)
    && d.nodes.Keys <= g.nodes.Keys + {ids.task(n), ids.follow(n)}
    && (forall id :: id in g.nodes && id != ids.task(n) ==> id in d.nodes && d.nodes[id] == g.nodes[id])
    && forall l :: l in Wires(d) <==> l in Wires(g) || WiredIn(l, g, fails, ids, owner, c, n)
  }

  lemma PassWires(p: Progress, fails: Faults, ids: Ids, owner: NodeId, c: Chosen, n: nat)
    requires ids.goal in p.graph.nodes && owner != ids.task(n) && ids.task(n) != ids.follow(n)
    requires ids.follow(n) !in p.graph.nodes && CreateNext(p, fails, ids, owner, c, n).ok
    ensures Passed(p.graph, CreateNext(p, fails, ids, owner, c, n).graph, fails, ids, owner, c, n)
  {
    var deps := Resolve(p.byIndex, c.spec.deps.value);
    TaskWires(p.graph, fails, ids, owner, n, deps);
    if c.spec.delegated {
      FollowUpWires(TaskWithLinks(p.graph, fails, ids, owner, n, deps), fails, ids, n);
    }
  }

  // ---------------------------------------------------------------- all passes

  lemma IdsAreNew(g0: Graph, g: Graph, fails: Faults, ids: Ids, owner: NodeId, chosen: seq<Chosen>, n: nat)
    requires FreshIds(g0, ids) && OwnerIsOld(ids, owner) && n <= |chosen| && LeavesNodes(g0, g, fails, ids, chosen, n)
    ensures ids.task(n) !in g.nodes && ids.follow(n) !in g.nodes
    ensures owner in g.nodes <==> owner in g0.nodes
    ensures ids.task(n) != ids.goal && ids.follow(n) != ids.goal
  {
  }

  lemma OtherPassKept(g: Graph, d: Graph, fails: Faults, ids: Ids, owner: NodeId, c: Chosen, n: nat, b: Chosen, m: nat)
    requires Passed(g, d, fails, ids, owner, c, n) && NodesOf(g.nodes, fails, ids, b, m)
    requires ids.task(m) != ids.task(n) && ids.follow(m) != ids.follow(n)
    requires ids.follow(m) != ids.task(n)
    ensures NodesOf(d.nodes, fails, ids, b, m)
  {
  }

  lemma NodesStep(g0: Graph, g: Graph, d: Graph, fails: Faults, ids: Ids, owner: NodeId, chosen: seq<Chosen>, n: nat)
    requires FreshIds(g0, ids) && n < |chosen| && LeavesNodes(g0, g, fails, ids, chosen, n)
    requires Passed(g, d, fails, ids, owner, chosen[n], n)
    requires ids.task(n) !in g.nodes && ids.task(n) != ids.goal
    ensures LeavesNodes(g0, d, fails, ids, chosen, n + 1)
  {
    forall m | 0 <= m < n
      ensures NodesOf(d.nodes, fails, ids, chosen[m], m)
    {
      assert NodesOf(g.nodes, fails, ids, chosen[m], m);
      OtherPassKept(g, d, fails, ids, owner, chosen[n], n, chosen[m], m);
    }
  }

  lemma WiresStep(g0: Graph, g: Graph, d: Graph, fails: Faults, ids: Ids, owner: NodeId, chosen: seq<Chosen>, n: nat)
    requires n < |chosen| && LeavesWires(g0, g, fails, ids, owner, chosen, n)
    requires Passed(g, d, fails, ids, owner, chosen[n], n) && (owner in g.nodes <==> owner in g0.nodes)
    ensures LeavesWires(g0, d, fails, ids, owner, chosen, n + 1)
  {
    forall l
      ensures WiredIn(l, g, fails, ids, owner, chosen[n], n) == WiredIn(l, g0, fails, ids, owner, chosen[n], n)
    {
    }
  }

  lemma StepLeaves(g: Graph, p: Progress, fails: Faults, ids: Ids, owner: NodeId, chosen: seq<Chosen>, n: nat)
    requires FreshIds(g, ids) && OwnerIsOld(ids, owner) && n < |chosen|
    requires LeavesNodes(g, p.graph, fails, ids, chosen, n) && LeavesWires(g, p.graph, fails, ids, owner, chosen, n)
    requires CreateNext(p, fails, ids, owner, chosen[n], n).ok
    ensures LeavesNodes(g, CreateNext(p, fails, ids, owner, chosen[n], n).graph, fails, ids, chosen, n + 1)
    ensures LeavesWires(g, CreateNext(p, fails, ids, owner, chosen[n], n).graph, fails, ids, owner, chosen, n + 1)
  {
    var q := CreateNext(p, fails, ids, owner, chosen[n], n);
    IdsAreNew(g, p.graph, fails, ids, owner, chosen, n);
    PassWires(p, fails, ids, owner, chosen[n], n);
    NodesStep(g, p.graph, q.graph, fails, ids, owner, chosen, n);
    WiresStep(g, p.graph, q.graph, fails, ids, owner, chosen, n);
  }

  lemma {:induction false} PassesLeave(g: Graph, fails: Faults, ids: Ids, owner: NodeId, chosen: seq<Chosen>, n: nat)
    requires FreshIds(g, ids) && OwnerIsOld(ids, owner) && n <= |chosen|
    requires CreateFirst(g, fails, ids, owner, chosen, n).ok
    ensures LeavesNodes(g, CreateFirst(g, fails, ids, owner, chosen, n).graph, fails, ids, chosen, n)
    ensures LeavesWires(g, CreateFirst(g, fails, ids, owner, chosen, n).graph, fails, ids, owner, chosen, n)
    decreases n
  {
    if n == 0 {
      assert Wires(PutNode(g, ids.goal, "goal")) == Wires(g);
    } else {
      PassesLeave(g, fails, ids, owner, chosen, n - 1);
      StepLeaves(g, CreateFirst(g, fails, ids, owner, chosen, n - 1), fails, ids, owner, chosen, n - 1);
    }
  }

  /** A good execution leaves behind the goal, each task as part of it and owned by the owner, the follow-ups of the
      delegated tasks pointing to their tasks, and besides dependencies nothing else; a link is missing exactly when
      its write raised or, for the owner's, there is no owner. */
  lemma ExecutionWires(g: Graph, fails: Faults, ids: Ids, owner: NodeId, chosen: seq<Chosen>)
    requires FreshIds(g, ids) && OwnerIsOld(ids, owner)
    requires !fails(GoalNode) && forall m :: 0 <= m < |chosen| ==> chosen[m].spec.deps.Some? && !fails(TaskNode(m))
    ensures LeavesNodes(g, Executed(g, fails, ids, owner, chosen), fails, ids, chosen, |chosen|)
    ensures LeavesWires(g, Executed(g, fails, ids, owner, chosen), fails, ids, owner, chosen, |chosen|)
  {
    OkMeans(g, fails, ids, owner, chosen, |chosen|);
    PassesLeave(g, fails, ids, owner, chosen, |chosen|);
  }
}
