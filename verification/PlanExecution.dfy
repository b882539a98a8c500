/** Plan execution over a store that is written step by step and rolled back by deletions
    (src/graphclaw/agent/main_orchestrator.py, `_tool_execute_plan`, `_tool_create_goal`, `_tool_create_task`). */
module PlanExecution {
  import opened Options
  import opened PlanGraph
  import PlanDependencies

  // ---------------------------------------------------------------- which tasks are selected

  /** An entry of the plan's task list; what is not an object is skipped. */
  datatype Entry = NotAnObject | Object(spec: TaskSpec)

  /** An entry of `approved_task_ids`; what is not a string is ignored. */
  datatype Approval = NotAString | Text(text: string)

  /** `{id.strip() ...}` without the blank ones; `strip` stands for the string method. */
  ghost function ApprovedIds(args: seq<Approval>, strip: string -> string): set<string> {
    set a | a in args && a.Text? && strip(a.text) != "" :: strip(a.text)
  }

  ghost predicate IsSelected(tasks: seq<Entry>, args: seq<Approval>, strip: string -> string, i: nat)
    requires i < |tasks|
  {
    tasks[i].Object? && (ApprovedIds(args, strip) == {} || strip(tasks[i].spec.draftId) in ApprovedIds(args, strip))
  }

  /** The selected tasks of a plan, in plan order and each under its place in the plan. */
  ghost predicate IsSelection(tasks: seq<Entry>, args: seq<Approval>, strip: string -> string, chosen: seq<Chosen>,
                              upTo: nat)
    requires upTo <= |tasks|
  {
    && (forall k :: 0 <= k < |chosen| ==>
          0 <= chosen[k].index < upTo && IsSelected(tasks, args, strip, chosen[k].index)
          && chosen[k].spec == tasks[chosen[k].index].spec)
    && (forall j, k :: 0 <= j < k < |chosen| ==> chosen[j].index < chosen[k].index)
    && (forall i :: 0 <= i < upTo && IsSelected(tasks, args, strip, i) ==>
          exists k :: 0 <= k < |chosen| && chosen[k].index == i)
  }

  /** An argument that names a task: some text other than blanks. */
  predicate Names(a: Approval, strip: string -> string) {
    a.Text? && strip(a.text) != ""
  }

  /** With no argument that names a task every object is asked for, and else those whose draft id one of them is. */
  ghost predicate IsAskedFor(e: Entry, args: seq<Approval>, strip: string -> string) {
    && e.Object?
    && ((forall a :: a in args ==> !Names(a, strip))
        || exists a :: a in args && Names(a, strip) && strip(a.text) == strip(e.spec.draftId))
  }

  lemma SelectedMeansAskedFor(tasks: seq<Entry>, args: seq<Approval>, strip: string -> string, i: nat)
    requires i < |tasks|
    ensures IsSelected(tasks, args, strip, i) <==> IsAskedFor(tasks[i], args, strip)
  {
    var approved := ApprovedIds(args, strip);
    if forall a :: a in args ==> !Names(a, strip) {
      assert approved == {};
    } else {
      var a :| a in args && Names(a, strip);
      assert strip(a.text) in approved;
    }
  }

  ghost predicate IsChosen(chosen: seq<Chosen>, i: nat) {
    exists k :: 0 <= k < |chosen| && chosen[k].index == i
  }

  method SelectTasks(tasks: seq<Entry>, args: seq<Approval>, strip: string -> string) returns (chosen: seq<Chosen>)
    ensures IsSelection(tasks, args, strip, chosen, |tasks|)
    ensures forall i :: 0 <= i < |tasks| ==> (IsAskedFor(tasks[i], args, strip) <==> IsChosen(chosen, i))
    ensures PlanDependencies.DistinctIndices(chosen)
  {
    var approved: set<string> := {};
    for k := 0 to |args|
      invariant approved == ApprovedIds(args[..k], strip)
    {
      assert args[..k + 1] == args[..k] + [args[k]];
      if args[k].Text? && strip(args[k].text) != "" {
        approved := approved + {strip(args[k].text)};
      }
    }
    assert args[..|args|] == args;
    chosen := [];
    for i := 0 to |tasks|
      invariant IsSelection(tasks, args, strip, chosen, i)
    {
      if tasks[i].Object? && (approved == {} || strip(tasks[i].spec.draftId) in approved) {
        ghost var before := chosen;
        chosen := chosen + [Chosen(i, tasks[i].spec)];
        assert forall k :: 0 <= k < |before| ==> chosen[k] == before[k];
        assert chosen[|before|].index == i;
      }
    }
    forall i | 0 <= i < |tasks|
      ensures IsAskedFor(tasks[i], args, strip) <==> IsChosen(chosen, i)
    {
      SelectedMeansAskedFor(tasks, args, strip, i);
    }
  }

  // ---------------------------------------------------------------- the store

  class GraphStore {
    var nodes: map<NodeId, string>
    var links: set<Link>
    const fails: Faults

    constructor (g: Graph, fails: Faults)
      ensures View() == g && this.fails == fails
    {
      nodes, links, this.fails := g.nodes, g.links, fails;
    }

    function View(): Graph
      reads this
    {
      Graph(nodes, links)
    }

    method CreateNode(op: Op, id: NodeId, payload: string) returns (ok: bool)
      modifies this
      ensures ok == !fails(op)
      ensures View() == if ok then PutNode(old(View()), id, payload) else old(View())
    {
      ok := !fails(op);
      if ok {
        nodes := nodes[id := payload];
      }
    }

    method CreateEdge(op: Op, src: NodeId, tgt: NodeId, kind: Kind) returns (ok: bool)
      modifies this
      ensures ok == !fails(op)
      ensures View() == TryLink(old(View()), fails, op, src, tgt, kind)
    {
      ok := !fails(op);
      if ok && src in nodes && tgt in nodes {
        links := links + {Link(src, tgt, kind, Some(op))};
      }
    }

    method DeleteNode(id: NodeId)
      modifies this
      ensures View() == Detach(old(View()), id)
    {
      nodes := nodes - {id};
      links := set l | l in links && l.src != id && l.tgt != id;
    }

    /** The DEPENDS_ON loop of `create_task`; errors are swallowed edge by edge. */
    method WireDependencies(n: nat, src: NodeId, tgts: seq<NodeId>)
      modifies this
      ensures View() == TryDependencies(old(View()), fails, n, src, tgts)
    {
      assert tgts[..0] == [];
      for k := 0 to |tgts|
        invariant View() == TryDependencies(old(View()), fails, n, src, tgts[..k])
      {
        var _ := CreateEdge(DependencyLink(n, k), src, tgts[k], DependsOn);
        assert tgts[..k + 1][..k] == tgts[..k];
      }
      assert tgts[..|tgts|] == tgts;
    }

    /** The follow-up block of `create_task`; answers whether its id is reported back. */
    method SpawnFollowUp(ids: Ids, n: nat) returns (tracked: bool)
      modifies this
      ensures View() == FollowUp(old(View()), fails, ids, n)
      ensures tracked == FollowUpTracked(fails, n)
    {
      tracked := false;
      var ok := CreateNode(FollowNode(n), ids.follow(n), "follow-up");
      if !ok { return; }
      ok := CreateEdge(FollowLink(n), ids.follow(n), ids.task(n), FollowUpFor);
      if !ok { return; }
      tracked := true;
      var _ := CreateNode(MetadataUpdate(n), ids.task(n), "delegated task");
    }

    /** `create_task`, with the ids of the nodes it reports. */
    method CreateTask(ids: Ids, owner: NodeId, spec: TaskSpec, n: nat, deps: seq<NodeId>)
      returns (ok: bool, reported: seq<NodeId>)
      modifies this
      ensures ok == !fails(TaskNode(n))
      ensures !ok ==> View() == old(View())
      ensures ok ==> var g := TaskWithLinks(old(View()), fails, ids, owner, n, deps);
                     && View() == (if spec.delegated then FollowUp(g, fails, ids, n) else g)
                     && reported == [ids.task(n)]
                          + (if spec.delegated && FollowUpTracked(fails, n) then [ids.follow(n)] else [])
    {
      reported := [];
      ok := CreateNode(TaskNode(n), ids.task(n), "task");
      if !ok { return; }
      var _ := CreateEdge(GoalLink(n), ids.task(n), ids.goal, PartOf);
      WireDependencies(n, ids.task(n), deps);
      var _ := CreateEdge(OwnerLink(n), ids.task(n), owner, OwnedBy);
      reported := [ids.task(n)];
      if spec.delegated {
        var tracked := SpawnFollowUp(ids, n);
        if tracked {
          reported := reported + [ids.follow(n)];
        }
      }
    }

    /** The dependency indices of one task, turned into ids of tasks already made. */
    method ResolveDependencies(byIndex: map<int, NodeId>, deps: seq<int>) returns (found: seq<NodeId>)
      ensures found == Resolve(byIndex, deps)
    {
      found := [];
      for k := 0 to |deps|
        invariant found == Resolve(byIndex, deps[..k])
      {
        assert deps[..k + 1][..k] == deps[..k];
        if deps[k] in byIndex {
          found := found + [byIndex[deps[k]]];
        }
      }
      assert deps[..|deps|] == deps;
    }

    /** One pass of the task loop. */
    method CreateOne(ids: Ids, owner: NodeId, c: Chosen, n: nat, created: seq<NodeId>, byIndex: map<int, NodeId>)
      returns (ok: bool, nowCreated: seq<NodeId>, nowByIndex: map<int, NodeId>)
      modifies this
      ensures CreateNext(Progress(old(View()), true, created, byIndex), fails, ids, owner, c, n)
              == Progress(View(), ok, nowCreated, nowByIndex)
    {
      nowCreated, nowByIndex := created, byIndex;
      if c.spec.deps.None? {
        return false, created, byIndex;
      }
      var deps := ResolveDependencies(byIndex, c.spec.deps.value);
      var reported;
      ok, reported := CreateTask(ids, owner, c.spec, n, deps);
      if ok {
        nowByIndex := byIndex[c.index := ids.task(n)];
        nowCreated := created + reported;
      }
    }

    /** The goal and the task loop, up to the first exception. */
    method CreateAll(ids: Ids, owner: NodeId, chosen: seq<Chosen>) returns (ok: bool, created: seq<NodeId>)
      modifies this
      ensures var p := CreateFirst(old(View()), fails, ids, owner, chosen, |chosen|);
              p.ok == ok && p.graph == View() && p.created == created
    {
      ghost var g := View();
      created := [];
      ok := CreateNode(GoalNode, ids.goal, "goal");
      if !ok {
        StaysFailed(g, fails, ids, owner, chosen, 0);
        return;
      }
      created := [ids.goal];
      var byIndex: map<int, NodeId> := map[];
      for n := 0 to |chosen|
        invariant ok && CreateFirst(g, fails, ids, owner, chosen, n) == Progress(View(), true, created, byIndex)
      {
        ok, created, byIndex := CreateOne(ids, owner, chosen[n], n, created, byIndex);
        if !ok {
          StaysFailed(g, fails, ids, owner, chosen, n + 1);
          return;
        }
      }
    }

    method RollBack(created: seq<NodeId>)
      modifies this
      ensures View() == DetachAll(old(View()), created)
    {
      assert created[..|created|] == created;
      for n := |created| downto 0
        invariant DetachAll(View(), created[..n]) == DetachAll(old(View()), created)
      {
        assert created[..n + 1][..n] == created[..n];
        DeleteNode(created[n]);
      }
    }

    /** `execute_plan` on the selected tasks. */
    method Execute(ids: Ids, owner: NodeId, chosen: seq<Chosen>) returns (ok: bool)
      modifies this
      ensures ok == CreateFirst(old(View()), fails, ids, owner, chosen, |chosen|).ok
      ensures View() == Executed(old(View()), fails, ids, owner, chosen)
    {
      var created;
      ok, created := CreateAll(ids, owner, chosen);
      if !ok {
        RollBack(created);
      }
    }
  }

  lemma {:induction false} StaysFailed(g: Graph, fails: Faults, ids: Ids, owner: NodeId, chosen: seq<Chosen>, n: nat)
    requires n <= |chosen| && !CreateFirst(g, fails, ids, owner, chosen, n).ok
    ensures CreateFirst(g, fails, ids, owner, chosen, |chosen|) == CreateFirst(g, fails, ids, owner, chosen, n)
    decreases |chosen| - n
  {
    if n < |chosen| {
      StaysFailed(g, fails, ids, owner, chosen, n + 1);
    }
  }
}
