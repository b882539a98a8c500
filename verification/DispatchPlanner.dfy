/** The dispatch planner around Kahn's algorithm (src/graphclaw/agent/dispatch_planner.py). */
module DispatchPlanner {
  import opened Sequences
  import opened Jobs
  import T = TopologicalSort

  // ---------------------------------------------------------------- the edge query

  /** One row of a `get_edges` answer; a missing field reads as the empty string. */
  datatype EdgeRow = EdgeRow(targetId: string, toId: string, endId: string)
  datatype QueryResult = Rows(rows: seq<EdgeRow>) | Raised

  function Target(row: EdgeRow): string {
    if row.targetId != "" then row.targetId else if row.toId != "" then row.toId else row.endId
  }

  /** The first of the three fields that is given names `u`. */
  predicate Names(row: EdgeRow, u: TaskId) {
    || row.targetId == u
    || (row.targetId == "" && row.toId == u)
    || (row.targetId == "" && row.toId == "" && row.endId == u)
  }

  /** `order[i]` was queried, and one of its rows names `u`, a task of the plan. */
  ghost predicate Reported(order: seq<TaskId>, query: TaskId -> QueryResult, i: nat, u: TaskId)
    requires i < |order|
  {
    && query(order[i]).Rows?
    && u != "" && u in order
    && exists row :: row in query(order[i]).rows && Names(row, u)
  }

  /** The first `n` queries are answered, and the next one, if there is one, raises. */
  ghost predicate AnsweredBefore(order: seq<TaskId>, query: TaskId -> QueryResult, n: nat) {
    && n <= |order| && (n < |order| ==> query(order[n]).Raised?)
    && forall i :: 0 <= i < n ==> query(order[i]).Rows?
  }

  /** The edges are exactly those that the first `n` queries report. */
  ghost predicate ReportedFirst(order: seq<TaskId>, query: TaskId -> QueryResult, n: nat, edges: seq<T.Edge>)
    requires n <= |order|
  {
    forall e :: e in edges <==> exists i :: 0 <= i < n && e.0 == order[i] && Reported(order, query, i, e.1)
  }

  /** The edges are exactly those reported before the first query that raises. */
  ghost predicate AreFetched(order: seq<TaskId>, query: TaskId -> QueryResult, edges: seq<T.Edge>) {
    && T.Within(Elements(order), edges)
    && exists n: nat :: AnsweredBefore(order, query, n) && ReportedFirst(order, query, n, edges)
  }

  /** `_fetch_dependency_edges`. A query that raises ends the fetch. */
  method FetchEdges(order: seq<TaskId>, query: TaskId -> QueryResult) returns (edges: seq<T.Edge>)
    ensures AreFetched(order, query, edges)
  {
    edges := [];
    for n := 0 to |order|
      invariant T.Within(Elements(order), edges)
      invariant (forall i :: 0 <= i < n ==> query(order[i]).Rows?) && ReportedFirst(order, query, n, edges)
    {
      var answer := query(order[n]);
      if answer.Raised? {
        assert AnsweredBefore(order, query, n);
        return;
      }
      edges := AppendTargets(order, query, n, edges);
    }
    assert AnsweredBefore(order, query, |order|);
  }

  /** The inner loop over the rows of one answer. */
  method AppendTargets(order: seq<TaskId>, query: TaskId -> QueryResult, n: nat, sofar: seq<T.Edge>)
    returns (edges: seq<T.Edge>)
    requires n < |order| && query(order[n]).Rows?
    requires T.Within(Elements(order), sofar) && ReportedFirst(order, query, n, sofar)
    ensures T.Within(Elements(order), edges) && ReportedFirst(order, query, n + 1, edges)
  {
    edges := sofar;
    var deps := query(order[n]).rows;
    for k := 0 to |deps|
      invariant T.Within(Elements(order), edges)
      invariant forall e :: e in edges <==> (e in sofar ||
                  (e.0 == order[n] && e.1 != "" && e.1 in order && exists m :: 0 <= m < k && Names(deps[m], e.1)))
    {
      var target := Target(deps[k]);
      if target != "" && target in order {
        edges := edges + [(order[n], target)];
      }
    }
  }

  // ---------------------------------------------------------------- planning

  ghost function TaskIds(jobs: seq<Job>): set<TaskId> {
    set j | j in jobs :: j.taskId
  }

  ghost predicate DistinctIds(jobs: seq<Job>) {
    forall i, j :: 0 <= i < j < |jobs| ==> jobs[i].taskId != jobs[j].taskId
  }

  /** `job` is the last one of task `t`. */
  ghost predicate IsLastOf(jobs: seq<Job>, t: TaskId, job: Job) {
    exists n :: 0 <= n < |jobs| && jobs[n] == job && forall m :: n < m < |jobs| ==> jobs[m].taskId != t
  }

  /** `{j.task_id: j for j in jobs}`: the last job of an id wins. */
  function ById(jobs: seq<Job>): (m: map<TaskId, Job>)
    ensures m.Keys == TaskIds(jobs)
    ensures forall t :: t in m ==> m[t] in jobs && m[t].taskId == t && IsLastOf(jobs, t, m[t])
  {
    if jobs == [] then map[]
    else
      var n := |jobs| - 1;
      assert jobs == jobs[..n] + [jobs[n]];
      ById(jobs[..n])[jobs[n].taskId := jobs[n]]
  }

  /** Tier `i` of a plan carries, in tier order, the job of each task under the tier's own batch id. */
  ghost predicate CarriesTier(tier: seq<Job>, ids: seq<TaskId>, byId: map<TaskId, Job>, batch: BatchId) {
    && |tier| == |ids|
    && forall k :: 0 <= k < |ids| ==> ids[k] in byId && tier[k] == byId[ids[k]].(batch := batch)
  }

  /** What `plan` returns: one flat tier, or the tiers of the topological sort with their jobs. */
  ghost predicate IsPlan(jobs: seq<Job>, prefix: string, order: seq<TaskId>, edges: seq<T.Edge>,
                         tiers: seq<seq<Job>>, ids: seq<seq<TaskId>>, height: nat)
  {
    if |jobs| <= 1 || edges == [] then
      tiers == [Assign(jobs, Tier(prefix, 0))]
    else
      && |tiers| == |ids|
      && T.TierMeaning(order, edges, ids, height)
      && T.IsPartition(order, ids)
      && forall i :: 0 <= i < |ids| ==> CarriesTier(tiers[i], ids[i], ById(jobs), Tier(prefix, i))
  }

  method PickJobs(ids: seq<TaskId>, byId: map<TaskId, Job>) returns (picked: seq<Job>)
    requires Elements(ids) <= byId.Keys
    ensures |picked| == |ids| && forall k :: 0 <= k < |ids| ==> ids[k] in byId && picked[k] == byId[ids[k]]
  {
    picked := [];
    for k := 0 to |ids|
      invariant |picked| == k && forall m :: 0 <= m < k ==> ids[m] in byId && picked[m] == byId[ids[m]]
    {
      assert ids[k] in Elements(ids);
      if ids[k] in byId {
        picked := picked + [byId[ids[k]]];
      }
    }
  }

  /** `plan`. The set of task ids is enumerated in the arbitrary order `order`. */
  method Plan(jobs: seq<Job>, sessionId: string, order: seq<TaskId>, query: TaskId -> QueryResult)
    returns (tiers: seq<seq<Job>>, ghost edges: seq<T.Edge>, ghost ids: seq<seq<TaskId>>, ghost height: nat)
    requires NoDup(order) && Elements(order) == TaskIds(jobs)
    ensures T.Within(Elements(order), edges) && (|jobs| > 1 ==> AreFetched(order, query, edges))
    ensures IsPlan(jobs, Prefix(sessionId), order, edges, tiers, ids, height)
    ensures tiers != [] && forall i, j :: 0 <= i < |tiers| && j in tiers[i] ==> j.batch == Tier(Prefix(sessionId), i)
  {
    edges, ids, height := [], [], 0;
    var prefix := Prefix(sessionId);
    if |jobs| <= 1 {
      return [Assign(jobs, Tier(prefix, 0))], edges, ids, height;
    }
    var byId := ById(jobs);
    var found := FetchEdges(order, query);
    edges := found;
    if found == [] {
      return [Assign(jobs, Tier(prefix, 0))], edges, ids, height;
    }
    var tierIds;
    tierIds, height := T.Kahn(order, found);
    ids := tierIds;
    PartitionIsKnown(jobs, order, tierIds);
    tiers := CarryTiers(tierIds, byId, prefix);
    PlanAssignsBatches(jobs, prefix, order, edges, tiers, ids, height);
    assert tiers != [];  // so the fall-back to one flat tier is never taken
  }

  lemma PartitionIsKnown(jobs: seq<Job>, order: seq<TaskId>, tierIds: seq<seq<TaskId>>)
    requires Elements(order) == TaskIds(jobs) && T.IsPartition(order, tierIds)
    ensures forall i :: 0 <= i < |tierIds| ==> tierIds[i] != [] && Elements(tierIds[i]) <= ById(jobs).Keys
  {
    forall i, t | 0 <= i < |tierIds| && t in Elements(tierIds[i])
      ensures t in ById(jobs).Keys
    {
      assert t in tierIds[i];
      assert t in order && t in Elements(order);
    }
  }

  /** Lines 106-114: the jobs of each tier under the tier's batch id. */
  method CarryTiers(tierIds: seq<seq<TaskId>>, byId: map<TaskId, Job>, prefix: string) returns (tiers: seq<seq<Job>>)
    requires forall i :: 0 <= i < |tierIds| ==> tierIds[i] != [] && Elements(tierIds[i]) <= byId.Keys
    ensures |tiers| == |tierIds|
    ensures forall i :: 0 <= i < |tierIds| ==> CarriesTier(tiers[i], tierIds[i], byId, Tier(prefix, i))
  {
    tiers := [];
    for i := 0 to |tierIds|
      invariant |tiers| == i
      invariant forall n :: 0 <= n < i ==> CarriesTier(tiers[n], tierIds[n], byId, Tier(prefix, n))
    {
      var tierJobs := PickJobs(tierIds[i], byId);
      if tierJobs != [] {
        tiers := tiers + [Assign(tierJobs, Tier(prefix, i))];
      }
    }
  }

  lemma PlanIsNotEmpty(jobs: seq<Job>, order: seq<TaskId>, ids: seq<seq<TaskId>>)
    requires jobs != [] && Elements(order) == TaskIds(jobs) && T.IsPartition(order, ids)
    ensures ids != []
  {
    assert jobs[0].taskId in Elements(order);
    assert jobs[0].taskId in order;
  }

  // ---------------------------------------------------------------- what a plan guarantees

  /** Every job of tier `i` carries the batch id of tier `i`, and no tier is empty unless there is no job at all. */
  lemma PlanAssignsBatches(jobs: seq<Job>, prefix: string, order: seq<TaskId>, edges: seq<T.Edge>,
                           tiers: seq<seq<Job>>, ids: seq<seq<TaskId>>, height: nat)
    requires IsPlan(jobs, prefix, order, edges, tiers, ids, height)
    requires Elements(order) == TaskIds(jobs)
    ensures tiers != []
    ensures forall i, j :: 0 <= i < |tiers| && j in tiers[i] ==> j.batch == Tier(prefix, i)
    ensures forall i :: 0 <= i < |tiers| ==> (tiers[i] == [] <==> jobs == [])
  {
    if !(|jobs| <= 1 || edges == []) {
      PlanIsNotEmpty(jobs, order, ids);
    }
  }

  lemma {:induction false} ConcatLengths<X, Y>(a: seq<seq<X>>, b: seq<seq<Y>>)
    requires |a| == |b| && forall i :: 0 <= i < |a| ==> |a[i]| == |b[i]|
    ensures |Concat(a)| == |Concat(b)|
    decreases |a|
  {
    if a != [] {
      ConcatLengths(a[..|a| - 1], b[..|b| - 1]);
    }
  }

  lemma {:induction false} ConcatNoDup<X>(ss: seq<seq<X>>)
    requires forall i :: 0 <= i < |ss| ==> NoDup(ss[i])
    requires forall i, j :: 0 <= i < j < |ss| ==> Elements(ss[i]) !! Elements(ss[j])
    ensures NoDup(Concat(ss))
    decreases |ss|
  {
    if ss != [] {
      var n := |ss| - 1;
      var init, last := Concat(ss[..n]), ss[n];
      ConcatNoDup(ss[..n]);
      forall i, j | 0 <= i < |init| && 0 <= j < |last|
        ensures init[i] != last[j]
      {
        InConcat(ss[..n], init[i]);
        var m :| 0 <= m < n && init[i] in ss[..n][m];
        assert init[i] in Elements(ss[m]) && last[j] in Elements(ss[n]);
      }
    }
  }

  lemma TaskIdsStep(jobs: seq<Job>, n: nat)
    requires |jobs| == n + 1
    ensures TaskIds(jobs) == TaskIds(jobs[..n]) + {jobs[n].taskId}
    ensures DistinctIds(jobs) <==> DistinctIds(jobs[..n]) && jobs[n].taskId !in TaskIds(jobs[..n])
  {
    assert jobs == jobs[..n] + [jobs[n]];
    if DistinctIds(jobs[..n]) && jobs[n].taskId !in TaskIds(jobs[..n]) {
      forall i | 0 <= i < n
        ensures jobs[i].taskId != jobs[n].taskId
      {
        assert jobs[..n][i] in jobs[..n];
      }
    }
  }

  lemma {:induction false} DistinctIdsByCount(jobs: seq<Job>)
    ensures |TaskIds(jobs)| <= |jobs|
    ensures |TaskIds(jobs)| == |jobs| <==> DistinctIds(jobs)
    decreases |jobs|
  {
    if jobs != [] {
      var n := |jobs| - 1;
      DistinctIdsByCount(jobs[..n]);
      TaskIdsStep(jobs, n);
      if jobs[n].taskId in TaskIds(jobs[..n]) {
        assert TaskIds(jobs) == TaskIds(jobs[..n]);
      }
    }
  }

  /** Planning keeps the number of jobs unless it sorts (two jobs or more, some edge) a list in which a task
      occurs twice; then jobs are lost. */
  lemma PlanKeepsEveryJob(jobs: seq<Job>, prefix: string, order: seq<TaskId>, edges: seq<T.Edge>,
                          tiers: seq<seq<Job>>, ids: seq<seq<TaskId>>, height: nat)
    requires NoDup(order) && Elements(order) == TaskIds(jobs)
    requires IsPlan(jobs, prefix, order, edges, tiers, ids, height)
    ensures |Concat(tiers)| == |jobs| <==> |jobs| <= 1 || edges == [] || DistinctIds(jobs)
    ensures |Concat(tiers)| <= |jobs|
  {
    DistinctIdsByCount(jobs);
    if |jobs| <= 1 || edges == [] {
      var flat := Assign(jobs, Tier(prefix, 0));
      ConcatAppend([], flat);
      assert tiers == [] + [flat] && Concat(tiers) == flat;
    } else {
      ConcatLengths(tiers, ids);
      ConcatNoDup(ids);
      NoDupCardinality(Concat(ids));
      forall t
        ensures t in Concat(ids) <==> t in order
      {
        InConcat(ids, t);
      }
      assert Elements(Concat(ids)) == Elements(order);
    }
  }

  /** With distinct task ids every job is planned, as itself. */
  lemma PlanContainsEveryJob(jobs: seq<Job>, prefix: string, order: seq<TaskId>, edges: seq<T.Edge>,
                             tiers: seq<seq<Job>>, ids: seq<seq<TaskId>>, height: nat, n: nat) returns (i: nat, k: nat)
    requires DistinctIds(jobs) && Elements(order) == TaskIds(jobs)
    requires IsPlan(jobs, prefix, order, edges, tiers, ids, height)
    requires n < |jobs|
    ensures i < |tiers| && k < |tiers[i]| && tiers[i][k] == jobs[n].(batch := Tier(prefix, i))
  {
    if |jobs| <= 1 || edges == [] {
      i, k := 0, n;
    } else {
      var t := jobs[n].taskId;
      assert t in Elements(order);
      i :| 0 <= i < |ids| && t in ids[i];
      k :| 0 <= k < |ids[i]| && ids[i][k] == t;
      assert CarriesTier(tiers[i], ids[i], ById(jobs), Tier(prefix, i));
      var m :| 0 <= m < |jobs| && jobs[m] == ById(jobs)[t];
      assert m == n;
    }
  }

  /** A dependency of a task outside the cycle remainder is planned in a strictly earlier tier. */
  lemma DependencyIsPlannedEarlier(jobs: seq<Job>, prefix: string, order: seq<TaskId>, edges: seq<T.Edge>,
                                   tiers: seq<seq<Job>>, ids: seq<seq<TaskId>>, height: nat,
                                   a: TaskId, b: TaskId, i: nat, k: nat)
    returns (m: nat, l: nat)
    requires T.Within(Elements(order), edges) && |jobs| > 1
    requires IsPlan(jobs, prefix, order, edges, tiers, ids, height)
    requires (a, b) in edges && !T.ReachesCycle(edges, a)
    requires i < |tiers| && k < |tiers[i]| && tiers[i][k].taskId == a
    ensures m < i && l < |tiers[m]| && tiers[m][l].taskId == b
  {
    assert CarriesTier(tiers[i], ids[i], ById(jobs), Tier(prefix, i));
    assert ids[i][k] == a && a in ids[i];
    if i == height {
      assert false;
    }
    assert T.LongestChain(edges, a, i);
    T.DependencyIsEarlier(edges, a, b, i);
    m :| 0 <= m < i && T.LongestChain(edges, b, m);
    assert b in Elements(order);
    assert b in ids[m];
    l :| 0 <= l < |ids[m]| && ids[m][l] == b;
    assert CarriesTier(tiers[m], ids[m], ById(jobs), Tier(prefix, m));
  }

  /** Through fetch and plan: with distinct task ids, if the query for the task of job `x` comes before the first one that
      raises and one of its rows names the task of job `y`, and no cycle is reached from there, then job `y` is planned in
      a strictly earlier tier than job `x`. */
  lemma NamedDependencyIsPlannedEarlier(jobs: seq<Job>, prefix: string, order: seq<TaskId>, query: TaskId -> QueryResult,
                                        edges: seq<T.Edge>, tiers: seq<seq<Job>>, ids: seq<seq<TaskId>>, height: nat,
                                        q: nat, row: EdgeRow, x: nat, y: nat)
    returns (i: nat, k: nat, m: nat, l: nat)
    requires DistinctIds(jobs) && Elements(order) == TaskIds(jobs) && AreFetched(order, query, edges)
    requires IsPlan(jobs, prefix, order, edges, tiers, ids, height) && x < |jobs| && y < |jobs|
    requires q < |order| && order[q] == jobs[x].taskId && forall e :: 0 <= e <= q ==> query(order[e]).Rows?
    requires row in query(order[q]).rows && jobs[y].taskId != ""
    requires row.targetId == jobs[y].taskId || (row.targetId == "" && row.toId == jobs[y].taskId)
             || (row.targetId == "" && row.toId == "" && row.endId == jobs[y].taskId)
    requires |jobs| > 1 && !T.ReachesCycle(edges, jobs[x].taskId)
    ensures m < i < |tiers| && k < |tiers[i]| && l < |tiers[m]|
    ensures tiers[i][k] == jobs[x].(batch := Tier(prefix, i)) && tiers[m][l] == jobs[y].(batch := Tier(prefix, m))
  {
    var a, b := jobs[x].taskId, jobs[y].taskId;
    i, k := PlanContainsEveryJob(jobs, prefix, order, edges, tiers, ids, height, x);
    var n: nat :| AnsweredBefore(order, query, n) && ReportedFirst(order, query, n, edges);
    assert b in order by { assert b in Elements(order); }
    assert Reported(order, query, q, b) && (a, b).0 == order[q];
    assert (a, b) in edges;
    m, l := DependencyIsPlannedEarlier(jobs, prefix, order, edges, tiers, ids, height, a, b, i, k);
    var m2, l2 := PlanContainsEveryJob(jobs, prefix, order, edges, tiers, ids, height, y);
    SamePlace(jobs, prefix, order, edges, tiers, ids, height, m, l, m2, l2);
  }

  /** With edges, a task has one place in the plan. */
  lemma SamePlace(jobs: seq<Job>, prefix: string, order: seq<TaskId>, edges: seq<T.Edge>, tiers: seq<seq<Job>>,
                  ids: seq<seq<TaskId>>, height: nat, m: nat, l: nat, m2: nat, l2: nat)
    requires IsPlan(jobs, prefix, order, edges, tiers, ids, height) && |jobs| > 1 && edges != []
    requires m < |tiers| && l < |tiers[m]| && m2 < |tiers| && l2 < |tiers[m2]|
    requires tiers[m][l].taskId == tiers[m2][l2].taskId
    ensures m == m2 && l == l2
  {
    assert CarriesTier(tiers[m], ids[m], ById(jobs), Tier(prefix, m));
    assert CarriesTier(tiers[m2], ids[m2], ById(jobs), Tier(prefix, m2));
    assert ids[m][l] == ids[m2][l2];
    assert ids[m][l] in Elements(ids[m]) && ids[m2][l2] in Elements(ids[m2]);
    assert NoDup(ids[m]);
  }
}
