/** The graph store as plan execution uses it, and what one plan execution does to it
    (src/graphclaw/agent/main_orchestrator.py, `_tool_execute_plan`, `_tool_create_goal`, `_tool_create_task`).

    The store may raise at any write. A raising write has no effect; deletions succeed and take a node's edges along. */
module PlanGraph {
  import opened Options
  import opened Sequences

  type NodeId = string

  datatype Kind = PartOf | DependsOn | OwnedBy | FollowUpFor

  /** The writes of one plan execution, by the position of the task among the selected ones. */
  datatype Op =
    | GoalNode
    | TaskNode(n: nat)
    | GoalLink(n: nat)
    | DependencyLink(n: nat, k: nat)
    | OwnerLink(n: nat)
    | FollowNode(n: nat)
    | FollowLink(n: nat)
    | MetadataUpdate(n: nat)

  /** Which writes raise. */
  type Faults = Op -> bool

  /** An edge, told apart from parallel ones by the write that made it. */
  datatype Link = Link(src: NodeId, tgt: NodeId, kind: Kind, madeBy: Option<Op>)

  datatype Graph = Graph(nodes: map<NodeId, string>, links: set<Link>)

  ghost predicate Closed(g: Graph) {
    forall l :: l in g.links ==> l.src in g.nodes && l.tgt in g.nodes
  }

  // ---------------------------------------------------------------- single writes

  function PutNode(g: Graph, id: NodeId, payload: string): Graph {
    g.(nodes := g.nodes[id := payload])
  }

  /** `create_edge` with a swallowed error; it matches both ends, so a missing end makes no edge. */
  function TryLink(g: Graph, fails: Faults, op: Op, src: NodeId, tgt: NodeId, kind: Kind): Graph {
    if fails(op) || src !in g.nodes || tgt !in g.nodes then g
    else g.(links := g.links + {Link(src, tgt, kind, Some(op))})
  }

  function TryDependencies(g: Graph, fails: Faults, n: nat, src: NodeId, tgts: seq<NodeId>): Graph {
    if tgts == [] then g
    else
      var k := |tgts| - 1;
      TryLink(TryDependencies(g, fails, n, src, tgts[..k]), fails, DependencyLink(n, k), src, tgts[k], DependsOn)
  }

  function Detach(g: Graph, id: NodeId): Graph {
    Graph(g.nodes - {id}, set l | l in g.links && l.src != id && l.tgt != id)
  }

  // ---------------------------------------------------------------- creating one task

  /** The ids the generators will hand out. */
  datatype Ids = Ids(goal: NodeId, task: nat -> NodeId, follow: nat -> NodeId)

  ghost predicate FreshIds(g: Graph, ids: Ids) {
    && ids.goal !in g.nodes
    && (forall n :: ids.task(n) !in g.nodes && ids.task(n) != ids.goal)
    && (forall n :: ids.follow(n) !in g.nodes && ids.follow(n) != ids.goal)
    && (forall n, m :: ids.task(n) != ids.follow(m))
    && (forall n, m :: n != m ==> ids.task(n) != ids.task(m) && ids.follow(n) != ids.follow(m))
  }

  /** The writes of `create_task` before the follow-up: the node, then its edges with errors swallowed. */
  function TaskWithLinks(g: Graph, fails: Faults, ids: Ids, owner: NodeId, n: nat, deps: seq<NodeId>): Graph {
    var t := ids.task(n);
    var g1 := TryLink(PutNode(g, t, "task"), fails, GoalLink(n), t, ids.goal, PartOf);
    TryLink(TryDependencies(g1, fails, n, t, deps), fails, OwnerLink(n), t, owner, OwnedBy)
  }

  /** The follow-up of a DELEGATED task. An error in here is swallowed; before line 2933 it also loses the id. */
  function FollowUp(g: Graph, fails: Faults, ids: Ids, n: nat): Graph {
    var t, f := ids.task(n), ids.follow(n);
    if fails(FollowNode(n)) then g
    else
      var g1 := PutNode(g, f, "follow-up");
      if fails(FollowLink(n)) then g1
      else
        var g2 := TryLink(g1, fails, FollowLink(n), f, t, FollowUpFor);
        if fails(MetadataUpdate(n)) then g2 else PutNode(g2, t, "delegated task")
  }

  function FollowUpTracked(fails: Faults, n: nat): bool {
    !fails(FollowNode(n)) && !fails(FollowLink(n))
  }

  /** The follow-up node exists but its id was lost. */
  function FollowUpLost(fails: Faults, n: nat): bool {
    !fails(FollowNode(n)) && fails(FollowLink(n))
  }

  // ---------------------------------------------------------------- creating the selected tasks

  /** A plan task; `deps` is None where `depends_on_indices` cannot be iterated. */
  datatype TaskSpec = TaskSpec(draftId: string, deps: Option<seq<int>>, delegated: bool)
  datatype Chosen = Chosen(index: int, spec: TaskSpec)

  /** `created_node_ids`, `index_to_task_id`, and whether no exception has been raised so far. */
  datatype Progress = Progress(graph: Graph, ok: bool, created: seq<NodeId>, byIndex: map<int, NodeId>)

  function Resolve(byIndex: map<int, NodeId>, deps: seq<int>): seq<NodeId> {
    if deps == [] then []
    else
      var d := deps[|deps| - 1];
      Resolve(byIndex, deps[..|deps| - 1]) + (if d in byIndex then [byIndex[d]] else [])
  }

  function CreateGoal(g: Graph, fails: Faults, ids: Ids): Progress {
    if fails(GoalNode) then Progress(g, false, [], map[])
    else Progress(PutNode(g, ids.goal, "goal"), true, [ids.goal], map[])
  }

  /** One pass of the task loop, for the selected task at position `n`. */
  function CreateNext(p: Progress, fails: Faults, ids: Ids, owner: NodeId, c: Chosen, n: nat): Progress {
    if !p.ok then p
    else if c.spec.deps.None? || fails(TaskNode(n)) then p.(ok := false)
    else
      var g := TaskWithLinks(p.graph, fails, ids, owner, n, Resolve(p.byIndex, c.spec.deps.value));
      var tracked := c.spec.delegated && FollowUpTracked(fails, n);
      Progress(if c.spec.delegated then FollowUp(g, fails, ids, n) else g, true,
               p.created + [ids.task(n)] + (if tracked then [ids.follow(n)] else []),
               p.byIndex[c.index := ids.task(n)])
  }

  function CreateFirst(g: Graph, fails: Faults, ids: Ids, owner: NodeId, chosen: seq<Chosen>, n: nat): Progress
    requires n <= |chosen|
  {
    if n == 0 then CreateGoal(g, fails, ids)
    else CreateNext(CreateFirst(g, fails, ids, owner, chosen, n - 1), fails, ids, owner, chosen[n - 1], n - 1)
  }

  /** Rollback: delete what was recorded as created, newest first. */
  function DetachAll(g: Graph, created: seq<NodeId>): Graph
    decreases |created|
  {
    if created == [] then g else DetachAll(Detach(g, created[|created| - 1]), created[..|created| - 1])
  }

  /** The graph `execute_plan` leaves behind. */
  function Executed(g: Graph, fails: Faults, ids: Ids, owner: NodeId, chosen: seq<Chosen>): Graph {
    var p := CreateFirst(g, fails, ids, owner, chosen, |chosen|);
    if p.ok then p.graph else DetachAll(p.graph, p.created)
  }

  // ---------------------------------------------------------------- when an execution fails

  /** It goes wrong exactly when the goal's or a selected task's own node cannot be made, or dependencies cannot be read. */
  lemma {:induction false} OkMeans(g: Graph, fails: Faults, ids: Ids, owner: NodeId, chosen: seq<Chosen>, n: nat)
    requires n <= |chosen|
    ensures CreateFirst(g, fails, ids, owner, chosen, n).ok <==>
            !fails(GoalNode) && forall m :: 0 <= m < n ==> chosen[m].spec.deps.Some? && !fails(TaskNode(m))
  {
    if n > 0 {
      OkMeans(g, fails, ids, owner, chosen, n - 1);
    }
  }

  // ---------------------------------------------------------------- what an execution adds

  ghost predicate MadeBefore(ids: Ids, id: NodeId, n: nat) {
    id == ids.goal || exists m :: 0 <= m < n && (id == ids.task(m) || id == ids.follow(m))
  }

  /** `g` is `g0` plus the new nodes `added`, and plus edges that start at new nodes. */
  ghost predicate Grown(g0: Graph, g: Graph, added: set<NodeId>) {
    && Closed(g)
    && added !! g0.nodes.Keys
    && g.nodes.Keys == g0.nodes.Keys + added
    && (forall id :: id in g0.nodes ==> g.nodes[id] == g0.nodes[id])
    && g0.links <= g.links
    && (forall l :: l in g.links && l !in g0.links ==> l.src in added)
  }

  lemma PutGrows(g0: Graph, g: Graph, added: set<NodeId>, id: NodeId, payload: string)
    requires Grown(g0, g, added) && id !in g0.nodes
    ensures Grown(g0, PutNode(g, id, payload), added + {id})
  {
  }

  lemma LinkGrows(g0: Graph, g: Graph, added: set<NodeId>, fails: Faults, op: Op, src: NodeId, tgt: NodeId, kind: Kind)
    requires Grown(g0, g, added) && src in added
    ensures Grown(g0, TryLink(g, fails, op, src, tgt, kind), added)
  {
  }

  lemma {:induction false} DependenciesGrow(g0: Graph, g: Graph, added: set<NodeId>, fails: Faults, n: nat, src: NodeId,
                                            tgts: seq<NodeId>)
    requires Grown(g0, g, added) && src in added
    ensures Grown(g0, TryDependencies(g, fails, n, src, tgts), added)
    decreases |tgts|
  {
    if tgts != [] {
      var k := |tgts| - 1;
      DependenciesGrow(g0, g, added, fails, n, src, tgts[..k]);
      LinkGrows(g0, TryDependencies(g, fails, n, src, tgts[..k]), added, fails, DependencyLink(n, k), src, tgts[k],
                DependsOn);
    }
  }

  lemma TaskGrows(g0: Graph, g: Graph, added: set<NodeId>, fails: Faults, ids: Ids, owner: NodeId, n: nat,
                  deps: seq<NodeId>)
    requires Grown(g0, g, added) && ids.task(n) !in g0.nodes
    ensures Grown(g0, TaskWithLinks(g, fails, ids, owner, n, deps), added + {ids.task(n)})
  {
    var t, more := ids.task(n), added + {ids.task(n)};
    PutGrows(g0, g, added, t, "task");
    LinkGrows(g0, PutNode(g, t, "task"), more, fails, GoalLink(n), t, ids.goal, PartOf);
    var g1 := TryLink(PutNode(g, t, "task"), fails, GoalLink(n), t, ids.goal, PartOf);
    DependenciesGrow(g0, g1, more, fails, n, t, deps);
    LinkGrows(g0, TryDependencies(g1, fails, n, t, deps), more, fails, OwnerLink(n), t, owner, OwnedBy);
  }

  lemma FollowUpGrows(g0: Graph, g: Graph, added: set<NodeId>, fails: Faults, ids: Ids, n: nat)
    requires Grown(g0, g, added) && ids.task(n) in added && ids.follow(n) !in g0.nodes
    ensures Grown(g0, FollowUp(g, fails, ids, n), if fails(FollowNode(n)) then added else added + {ids.follow(n)})
  {
    var t, f, more := ids.task(n), ids.follow(n), added + {ids.follow(n)};
    if !fails(FollowNode(n)) {
      PutGrows(g0, g, added, f, "follow-up");
      var g1 := PutNode(g, f, "follow-up");
      if !fails(FollowLink(n)) {
        LinkGrows(g0, g1, more, fails, FollowLink(n), f, t, FollowUpFor);
        PutGrows(g0, TryLink(g1, fails, FollowLink(n), f, t, FollowUpFor), more, t, "delegated task");
        assert more + {t} == more;
      }
    }
  }

  /** Pass `m` makes a follow-up and loses its id. */
  ghost predicate Loses(g: Graph, fails: Faults, ids: Ids, owner: NodeId, chosen: seq<Chosen>, m: nat)
    requires m < |chosen|
  {
    CreateFirst(g, fails, ids, owner, chosen, m + 1).ok && chosen[m].spec.delegated && FollowUpLost(fails, m)
  }

  /** The follow-ups made by the first `n` passes whose ids were lost. */
  ghost function LostBy(g: Graph, fails: Faults, ids: Ids, owner: NodeId, chosen: seq<Chosen>, n: nat): set<NodeId>
    requires n <= |chosen|
  {
    set m | 0 <= m < n && Loses(g, fails, ids, owner, chosen, m) :: ids.follow(m)
  }

  ghost predicate Accounted(g0: Graph, p: Progress, lost: set<NodeId>, ids: Ids, n: nat) {
    && Grown(g0, p.graph, Elements(p.created) + lost)
    && Elements(p.created) !! lost
    && (forall id :: id in Elements(p.created) + lost ==> MadeBefore(ids, id, n))
  }

  lemma LostByStep(g: Graph, fails: Faults, ids: Ids, owner: NodeId, chosen: seq<Chosen>, n: nat)
    requires n < |chosen|
    ensures LostBy(g, fails, ids, owner, chosen, n + 1) ==
            LostBy(g, fails, ids, owner, chosen, n)
            + (if Loses(g, fails, ids, owner, chosen, n) then {ids.follow(n)} else {})
  {
  }

  /** Every node an execution makes is either recorded for rollback or a lost follow-up, and nothing old is touched. */
  lemma {:induction false} ExecutionIsAccounted(g0: Graph, fails: Faults, ids: Ids, owner: NodeId, chosen: seq<Chosen>,
                                                n: nat)
    requires Closed(g0) && FreshIds(g0, ids) && n <= |chosen|
    ensures Accounted(g0, CreateFirst(g0, fails, ids, owner, chosen, n), LostBy(g0, fails, ids, owner, chosen, n), ids, n)
  {
    if n == 0 {
      assert Grown(g0, g0, {});
      PutGrows(g0, g0, {}, ids.goal, "goal");
    } else {
      ExecutionIsAccounted(g0, fails, ids, owner, chosen, n - 1);
      var lost := LostBy(g0, fails, ids, owner, chosen, n - 1);
      StepIsAccounted(g0, CreateFirst(g0, fails, ids, owner, chosen, n - 1), fails, ids, owner, chosen[n - 1], n - 1, lost);
      LostByStep(g0, fails, ids, owner, chosen, n - 1);
    }
  }

  lemma IdsOfPassAreNew(g0: Graph, ids: Ids, n: nat, made: set<NodeId>)
    requires FreshIds(g0, ids) && forall id :: id in made ==> MadeBefore(ids, id, n)
    ensures ids.task(n) !in made && ids.follow(n) !in made && ids.task(n) != ids.follow(n)
    ensures forall id :: id in made + {ids.task(n), ids.follow(n)} ==> MadeBefore(ids, id, n + 1)
  {
  }

  lemma PassGrows(g0: Graph, p: Progress, added: set<NodeId>, fails: Faults, ids: Ids, owner: NodeId, c: Chosen, n: nat)
    requires FreshIds(g0, ids) && Grown(g0, p.graph, added) && CreateNext(p, fails, ids, owner, c, n).ok
    ensures Grown(g0, CreateNext(p, fails, ids, owner, c, n).graph,
                  added + {ids.task(n)} + (if c.spec.delegated && !fails(FollowNode(n)) then {ids.follow(n)} else {}))
  {
    var deps := Resolve(p.byIndex, c.spec.deps.value);
    var more := added + {ids.task(n)};
    TaskGrows(g0, p.graph, added, fails, ids, owner, n, deps);
    if c.spec.delegated {
      FollowUpGrows(g0, TaskWithLinks(p.graph, fails, ids, owner, n, deps), more, fails, ids, n);
    }
    assert more + {} == more;
  }

  lemma Bookkeeping(g0: Graph, q: Progress, created: set<NodeId>, lost: set<NodeId>, ids: Ids, n: nat,
                    kept: set<NodeId>, gone: set<NodeId>)
    requires created !! lost && ids.task(n) !in created + lost && ids.follow(n) !in created + lost + {ids.task(n)}
    requires kept !! gone && kept + gone <= {ids.follow(n)}
    requires Elements(q.created) == created + {ids.task(n)} + kept
    requires Grown(g0, q.graph, created + lost + {ids.task(n)} + (kept + gone))
    requires forall id :: id in created + lost + {ids.task(n), ids.follow(n)} ==> MadeBefore(ids, id, n + 1)
    ensures Accounted(g0, q, lost + gone, ids, n + 1)
  {
    assert Elements(q.created) + (lost + gone) == created + lost + {ids.task(n)} + (kept + gone);
    assert Elements(q.created) !! (lost + gone);
    assert Elements(q.created) + (lost + gone) <= created + lost + {ids.task(n), ids.follow(n)};
  }

  lemma FailedPassIsAccounted(g0: Graph, p: Progress, lost: set<NodeId>, ids: Ids, n: nat)
    requires Accounted(g0, p, lost, ids, n)
    ensures Accounted(g0, p.(ok := false), lost + {}, ids, n + 1)
  {
  }

  lemma StepIsAccounted(g0: Graph, p: Progress, fails: Faults, ids: Ids, owner: NodeId, c: Chosen, n: nat,
                        lost: set<NodeId>)
    requires FreshIds(g0, ids) && Accounted(g0, p, lost, ids, n)
    ensures var q := CreateNext(p, fails, ids, owner, c, n);
            Accounted(g0, q,
                      lost + (if q.ok && c.spec.delegated && FollowUpLost(fails, n) then {ids.follow(n)} else {}),
                      ids, n + 1)
  {
    var q, created := CreateNext(p, fails, ids, owner, c, n), Elements(p.created);
    if q.ok {
      IdsOfPassAreNew(g0, ids, n, created + lost);
      PassGrows(g0, p, created + lost, fails, ids, owner, c, n);
      var kept := if c.spec.delegated && FollowUpTracked(fails, n) then {ids.follow(n)} else {};
      var gone := if c.spec.delegated && FollowUpLost(fails, n) then {ids.follow(n)} else {};
      assert Elements(q.created) == created + {ids.task(n)} + kept;
      assert kept + gone == if c.spec.delegated && !fails(FollowNode(n)) then {ids.follow(n)} else {};
      Bookkeeping(g0, q, created, lost, ids, n, kept, gone);
    } else {
      assert q == p.(ok := false);
      FailedPassIsAccounted(g0, p, lost, ids, n);
    }
  }

  // ---------------------------------------------------------------- rollback

  lemma {:induction false} DetachAllMeans(g: Graph, created: seq<NodeId>)
    ensures DetachAll(g, created).nodes == g.nodes - Elements(created)
    ensures DetachAll(g, created).links == set l | l in g.links && l.src !in created && l.tgt !in created
    decreases |created|
  {
    if created != [] {
      var last, rest := created[|created| - 1], created[..|created| - 1];
      DetachAllMeans(Detach(g, last), rest);
      assert created == rest + [last];
      assert Elements(created) == Elements(rest) + {last};
    }
  }

  /** After a failed execution the graph is exactly what it was, unless a follow-up was lost; then it is not. */
  lemma RollbackRestoresUnlessLost(g: Graph, fails: Faults, ids: Ids, owner: NodeId, chosen: seq<Chosen>)
    requires Closed(g) && FreshIds(g, ids)
    requires !CreateFirst(g, fails, ids, owner, chosen, |chosen|).ok
    ensures Executed(g, fails, ids, owner, chosen) == g <==> LostBy(g, fails, ids, owner, chosen, |chosen|) == {}
  {
    var p, lost := CreateFirst(g, fails, ids, owner, chosen, |chosen|), LostBy(g, fails, ids, owner, chosen, |chosen|);
    ExecutionIsAccounted(g, fails, ids, owner, chosen, |chosen|);
    DetachAllMeans(p.graph, p.created);
    var after := DetachAll(p.graph, p.created);
    assert after.nodes.Keys == g.nodes.Keys + lost;
    if lost == {} {
      assert after.nodes == g.nodes;
      assert after.links == g.links;
    } else {
      var id :| id in lost;
      assert id in after.nodes && id !in g.nodes;
    }
  }

  /** A DELEGATED task is selected with another task selected after it, and nothing up to it is unreadable. */
  predicate CanLoseFollowUp(chosen: seq<Chosen>) {
    exists n :: 0 <= n < |chosen| - 1 && chosen[n].spec.delegated && forall m :: 0 <= m <= n ==> chosen[m].spec.deps.Some?
  }

  /** Failed executions of a selection restore the graph whatever writes raise, if and only if no DELEGATED task of the
      selection is followed by another selected task. */
  lemma RollbackIsExactExceptAfterDelegation(g: Graph, ids: Ids, owner: NodeId, chosen: seq<Chosen>)
    requires Closed(g) && FreshIds(g, ids)
    ensures (forall fails :: !CreateFirst(g, fails, ids, owner, chosen, |chosen|).ok ==>
               Executed(g, fails, ids, owner, chosen) == g)
            <==> !CanLoseFollowUp(chosen)
  {
    if CanLoseFollowUp(chosen) {
      var fails := RollbackMissesFollowUp(g, ids, owner, chosen);
    } else {
      forall fails | !CreateFirst(g, fails, ids, owner, chosen, |chosen|).ok
        ensures Executed(g, fails, ids, owner, chosen) == g
      {
        RollbackRestoresUnlessLost(g, fails, ids, owner, chosen);
        OkMeans(g, fails, ids, owner, chosen, |chosen|);
        forall m | 0 <= m < |chosen| && Loses(g, fails, ids, owner, chosen, m)
          ensures false
        {
          OkMeans(g, fails, ids, owner, chosen, m + 1);
        }
      }
    }
  }

  /** The run that shows it: the follow-up's edge raises, and then the next task's node does. */
  lemma RollbackMissesFollowUp(g: Graph, ids: Ids, owner: NodeId, chosen: seq<Chosen>) returns (fails: Faults)
    requires Closed(g) && FreshIds(g, ids) && CanLoseFollowUp(chosen)
    ensures !CreateFirst(g, fails, ids, owner, chosen, |chosen|).ok
    ensures Executed(g, fails, ids, owner, chosen) != g
  {
    var n :| 0 <= n < |chosen| - 1 && chosen[n].spec.delegated && forall m :: 0 <= m <= n ==> chosen[m].spec.deps.Some?;
    fails := op => op == FollowLink(n) || op == TaskNode(n + 1);
    LosesAndFails(g, fails, ids, owner, chosen, n);
  }

  lemma LosesAndFails(g: Graph, fails: Faults, ids: Ids, owner: NodeId, chosen: seq<Chosen>, n: nat)
    requires Closed(g) && FreshIds(g, ids) && n < |chosen| - 1 && chosen[n].spec.delegated
    requires !fails(GoalNode) && forall m :: 0 <= m <= n ==> chosen[m].spec.deps.Some? && !fails(TaskNode(m))
    requires FollowUpLost(fails, n) && fails(TaskNode(n + 1))
    ensures !CreateFirst(g, fails, ids, owner, chosen, |chosen|).ok
    ensures Executed(g, fails, ids, owner, chosen) != g
  {
    OkMeans(g, fails, ids, owner, chosen, |chosen|);
    OkMeans(g, fails, ids, owner, chosen, n + 1);
    assert Loses(g, fails, ids, owner, chosen, n);
    assert ids.follow(n) in LostBy(g, fails, ids, owner, chosen, |chosen|);
    RollbackRestoresUnlessLost(g, fails, ids, owner, chosen);
  }
}
