/** Kahn's algorithm of the dispatch planner (src/graphclaw/agent/dispatch_planner.py, `_topological_sort`).

    An edge `(a, b)` means that `a` depends on `b`. The tiers are described without the algorithm, by
    walks along dependency edges: how long they can get, and whether one can run into a cycle. */
module TopologicalSort {
  import opened Jobs
  import opened Sequences

  type Edge = (TaskId, TaskId)

  // ---------------------------------------------------------------- walks

  ghost predicate WalkFrom(edges: seq<Edge>, t: TaskId, p: seq<TaskId>) {
    p != [] && p[0] == t && forall i :: 0 <= i < |p| - 1 ==> (p[i], p[i + 1]) in edges
  }

  /** The longest dependency chain of `t` has exactly `n` edges. */
  ghost predicate LongestChain(edges: seq<Edge>, t: TaskId, n: nat) {
    && (exists p :: WalkFrom(edges, t, p) && |p| == n + 1)
    && (forall p :: WalkFrom(edges, t, p) ==> |p| <= n + 1)
  }

  ghost predicate Revisits(p: seq<TaskId>) {
    exists i, j :: 0 <= i < j < |p| && p[i] == p[j]
  }

  /** Some dependency walk from `t` runs into a cycle. */
  ghost predicate ReachesCycle(edges: seq<Edge>, t: TaskId) {
    exists p :: WalkFrom(edges, t, p) && Revisits(p)
  }

  ghost predicate Within(ids: set<TaskId>, edges: seq<Edge>) {
    forall e :: e in edges ==> e.0 in ids && e.1 in ids
  }

  // ---------------------------------------------------------------- stages

  predicate Ready(edges: seq<Edge>, t: TaskId, done: set<TaskId>) {
    forall e :: e in edges && e.0 == t ==> e.1 in done
  }

  /** What is done after `k` tiers, when every tier takes all tasks whose dependencies are done. */
  ghost function Done(ids: set<TaskId>, edges: seq<Edge>, k: nat): set<TaskId> {
    if k == 0 then {} else set t | t in ids && Ready(edges, t, Done(ids, edges, k - 1))
  }

  lemma {:induction false} DoneGrows(ids: set<TaskId>, edges: seq<Edge>, k: nat)
    ensures Done(ids, edges, k) <= Done(ids, edges, k + 1) <= ids
  {
    if k > 0 {
      DoneGrows(ids, edges, k - 1);
    }
  }

  lemma {:induction false} DoneMonotone(ids: set<TaskId>, edges: seq<Edge>, k: nat, m: nat)
    requires k <= m
    ensures Done(ids, edges, k) <= Done(ids, edges, m)
    decreases m - k
  {
    if k < m {
      DoneGrows(ids, edges, k);
      DoneMonotone(ids, edges, k + 1, m);
    }
  }

  /** A task is done after `k` tiers exactly when no dependency walk from it visits more than `k` tasks. */
  lemma {:induction false} DoneMeansShortWalks(ids: set<TaskId>, edges: seq<Edge>, t: TaskId, k: nat)
    requires Within(ids, edges) && t in ids
    ensures t in Done(ids, edges, k) <==> forall p :: WalkFrom(edges, t, p) ==> |p| <= k
    decreases k
  {
    if k == 0 {
      assert WalkFrom(edges, t, [t]);
    } else if t in Done(ids, edges, k) {
      forall p | WalkFrom(edges, t, p)
        ensures |p| <= k
      {
        if |p| > 1 {
          assert (p[0], p[1]) in edges;
          DoneMeansShortWalks(ids, edges, p[1], k - 1);
          assert WalkFrom(edges, p[1], p[1..]);
        }
      }
    } else {
      var e :| e in edges && e.0 == t && e.1 !in Done(ids, edges, k - 1);
      DoneMeansShortWalks(ids, edges, e.1, k - 1);
      var q :| WalkFrom(edges, e.1, q) && |q| > k - 1;
      assert WalkFrom(edges, t, [t] + q);
    }
  }

  lemma StageMeansLongestChain(ids: set<TaskId>, edges: seq<Edge>, t: TaskId, k: nat)
    requires Within(ids, edges) && t in ids
    ensures t in Done(ids, edges, k + 1) - Done(ids, edges, k) <==> LongestChain(edges, t, k)
  {
    DoneMeansShortWalks(ids, edges, t, k);
    DoneMeansShortWalks(ids, edges, t, k + 1);
  }

  /** A task that some walk of `p` revisits, and everything before it on the walk, never gets done. */
  lemma {:induction false} CyclesNeverDone(ids: set<TaskId>, edges: seq<Edge>, p: seq<TaskId>, i: nat, j: nat, k: nat)
    requires p != [] && WalkFrom(edges, p[0], p) && i < j < |p| && p[i] == p[j]
    ensures forall m :: 0 <= m <= j ==> p[m] !in Done(ids, edges, k)
    decreases k
  {
    if k > 0 {
      CyclesNeverDone(ids, edges, p, i, j, k - 1);
      forall m | 0 <= m <= j
        ensures p[m] !in Done(ids, edges, k)
      {
        var n := if m < j then m else i;
        assert (p[n], p[n + 1]) in edges && p[n] == p[m];
      }
    }
  }

  /** Once a tier is empty, every task left over has a dependency that is left over too. */
  lemma {:induction false} WalkAmongStuck(ids: set<TaskId>, edges: seq<Edge>, k: nat, t: TaskId, n: nat)
    returns (p: seq<TaskId>)
    requires Within(ids, edges) && Done(ids, edges, k + 1) == Done(ids, edges, k)
    requires t in ids && t !in Done(ids, edges, k)
    ensures WalkFrom(edges, t, p) && |p| == n + 1 && Elements(p) <= ids
    decreases n
  {
    p := [t];
    if n > 0 {
      var e :| e in edges && e.0 == t && e.1 !in Done(ids, edges, k);
      var q := WalkAmongStuck(ids, edges, k, e.1, n - 1);
      p := [t] + q;
    }
  }

  lemma StuckMeansCycle(ids: set<TaskId>, edges: seq<Edge>, k: nat, t: TaskId)
    requires Within(ids, edges) && Done(ids, edges, k + 1) == Done(ids, edges, k) && t in ids
    ensures t !in Done(ids, edges, k) <==> ReachesCycle(edges, t)
  {
    if t !in Done(ids, edges, k) {
      var p := WalkAmongStuck(ids, edges, k, t, |ids|);
      Pigeonhole(p, ids);
      assert Revisits(p);
    }
    if ReachesCycle(edges, t) {
      var p :| WalkFrom(edges, t, p) && Revisits(p);
      var i, j :| 0 <= i < j < |p| && p[i] == p[j];
      CyclesNeverDone(ids, edges, p, i, j, k);
    }
  }

  // ---------------------------------------------------------------- layerings

  /** Any other way of numbering the tasks so that dependencies come earlier. */
  ghost predicate IsLayering(edges: seq<Edge>, layer: TaskId -> nat) {
    forall e :: e in edges && !ReachesCycle(edges, e.0) ==> layer(e.1) < layer(e.0)
  }

  lemma {:induction false} LayerAtLeastStage(ids: set<TaskId>, edges: seq<Edge>, layer: TaskId -> nat, t: TaskId, k: nat)
    requires Within(ids, edges) && IsLayering(edges, layer)
    requires t in ids && !ReachesCycle(edges, t) && t !in Done(ids, edges, k)
    ensures layer(t) >= k
    decreases k
  {
    if k > 0 {
      var e :| e in edges && e.0 == t && e.1 !in Done(ids, edges, k - 1);
      if ReachesCycle(edges, e.1) {
        CycleIsInherited(edges, t, e.1);
        assert false;
      }
      LayerAtLeastStage(ids, edges, layer, e.1, k - 1);
    }
  }

  lemma CycleIsInherited(edges: seq<Edge>, t: TaskId, u: TaskId)
    requires (t, u) in edges && ReachesCycle(edges, u)
    ensures ReachesCycle(edges, t)
  {
    var q :| WalkFrom(edges, u, q) && Revisits(q);
    var i, j :| 0 <= i < j < |q| && q[i] == q[j];
    var p := [t] + q;
    assert p[i + 1] == p[j + 1];
    assert WalkFrom(edges, t, p) && Revisits(p);
  }

  /** No valid layering puts a task earlier than its longest chain does, so none uses fewer tiers. */
  lemma TiersAreMinimal(ids: set<TaskId>, edges: seq<Edge>, layer: TaskId -> nat, t: TaskId, n: nat)
    requires Within(ids, edges) && IsLayering(edges, layer)
    requires t in ids && !ReachesCycle(edges, t) && LongestChain(edges, t, n)
    ensures layer(t) >= n
  {
    StageMeansLongestChain(ids, edges, t, n);
    LayerAtLeastStage(ids, edges, layer, t, n);
  }

  /** A dependency's longest chain is strictly shorter. */
  lemma DependencyIsEarlier(edges: seq<Edge>, t: TaskId, u: TaskId, n: nat)
    requires (t, u) in edges && LongestChain(edges, t, n)
    ensures exists m :: 0 <= m < n && LongestChain(edges, u, m)
    decreases n
  {
    forall q | WalkFrom(edges, u, q)
      ensures |q| <= n
    {
      assert WalkFrom(edges, t, [t] + q);
    }
    assert WalkFrom(edges, u, [u]);
    var m := LongestUpTo(edges, u, n);
  }

  lemma {:induction false} LongestUpTo(edges: seq<Edge>, u: TaskId, n: nat) returns (m: nat)
    requires forall q :: WalkFrom(edges, u, q) ==> |q| <= n
    requires exists q :: WalkFrom(edges, u, q)
    ensures m < n && LongestChain(edges, u, m)
    decreases n
  {
    var q0 :| WalkFrom(edges, u, q0);
    if exists q :: WalkFrom(edges, u, q) && |q| == n {
      m := n - 1;
    } else {
      m := LongestUpTo(edges, u, n - 1);
    }
  }

  // ---------------------------------------------------------------- counting edges

  /** How many edges of `t` lead outside `done`; duplicate edges count as often as they occur. */
  function Pending(edges: seq<Edge>, t: TaskId, done: set<TaskId>): nat {
    if edges == [] then 0
    else
      var e := edges[|edges| - 1];
      Pending(edges[..|edges| - 1], t, done) + (if e.0 == t && e.1 !in done then 1 else 0)
  }

  /** Who depends on `u`, in edge order and with repetitions. */
  function Dependents(edges: seq<Edge>, u: TaskId): seq<TaskId> {
    if edges == [] then []
    else
      var e := edges[|edges| - 1];
      Dependents(edges[..|edges| - 1], u) + (if e.1 == u then [e.0] else [])
  }

  lemma {:induction false} PendingZero(edges: seq<Edge>, t: TaskId, done: set<TaskId>)
    ensures Pending(edges, t, done) == 0 <==> Ready(edges, t, done)
    decreases |edges|
  {
    if edges != [] {
      var init, e := edges[..|edges| - 1], edges[|edges| - 1];
      PendingZero(init, t, done);
      assert edges == init + [e];
    }
  }

  /** Finishing `u` settles exactly the edges recorded under `u`. */
  lemma {:induction false} PendingStep(edges: seq<Edge>, t: TaskId, done: set<TaskId>, u: TaskId)
    requires u !in done
    ensures Pending(edges, t, done) == Pending(edges, t, done + {u}) + multiset(Dependents(edges, u))[t]
    decreases |edges|
  {
    if edges != [] {
      PendingStep(edges[..|edges| - 1], t, done, u);
    }
  }

  lemma {:induction false} DependentsWithin(ids: set<TaskId>, edges: seq<Edge>, u: TaskId)
    requires Within(ids, edges)
    ensures forall t :: t in Dependents(edges, u) ==> t in ids
    decreases |edges|
  {
    if edges != [] {
      DependentsWithin(ids, edges[..|edges| - 1], u);
    }
  }

  // ---------------------------------------------------------------- the algorithm

  /** In-degrees count the edges not yet settled, plus decrements still to come. */
  ghost predicate Counts(inDegree: map<TaskId, nat>, ids: set<TaskId>, edges: seq<Edge>, done: set<TaskId>,
                         toCome: multiset<TaskId>)
  {
    inDegree.Keys == ids && forall t :: t in ids ==> inDegree[t] == Pending(edges, t, done) + toCome[t]
  }

  /** The queue holds, once each, the unsettled tasks whose in-degree is zero. */
  ghost predicate Queued(queue: seq<TaskId>, inDegree: map<TaskId, nat>, settled: set<TaskId>) {
    && NoDup(queue)
    && (forall t :: t in queue <==> t in inDegree && inDegree[t] == 0 && t !in settled)
    && (forall t :: t in settled ==> t in inDegree && inDegree[t] == 0)
  }

  lemma OpenDependents(inDegree: map<TaskId, nat>, ids: set<TaskId>, edges: seq<Edge>, done: set<TaskId>, u: TaskId)
    requires Counts(inDegree, ids, edges, done, multiset{}) && u !in done
    ensures Counts(inDegree, ids, edges, done + {u}, multiset(Dependents(edges, u)))
  {
    forall t | t in ids
      ensures inDegree[t] == Pending(edges, t, done + {u}) + multiset(Dependents(edges, u))[t]
    {
      PendingStep(edges, t, done, u);
    }
  }

  /** One pass of the innermost loop: decrement, and enqueue on reaching zero. */
  lemma DecrementStep(inDegree: map<TaskId, nat>, ids: set<TaskId>, edges: seq<Edge>, done: set<TaskId>,
                      d: TaskId, toCome: multiset<TaskId>, queue: seq<TaskId>, settled: set<TaskId>)
    requires d in ids && Counts(inDegree, ids, edges, done, toCome + multiset{d})
    requires Queued(queue, inDegree, settled)
    ensures inDegree[d] > 0
    ensures var next := inDegree[d := inDegree[d] - 1];
            && Counts(next, ids, edges, done, toCome)
            && Queued(if next[d] == 0 then queue + [d] else queue, next, settled)
  {
  }

  /** What the main loop knows after `k` tiers. */
  ghost predicate AfterTiers(ids: set<TaskId>, edges: seq<Edge>, tiers: seq<seq<TaskId>>, queue: seq<TaskId>,
                             inDegree: map<TaskId, nat>)
  {
    var done := Done(ids, edges, |tiers|);
    && Counts(inDegree, ids, edges, done, multiset{})
    && Queued(queue, inDegree, done)
    && StageTiers(ids, edges, tiers)
  }

  /** Tier `i` lists, once each, what gets done in stage `i`. */
  ghost predicate StageTiers(ids: set<TaskId>, edges: seq<Edge>, tiers: seq<seq<TaskId>>) {
    forall i :: 0 <= i < |tiers| ==> IsStage(ids, edges, tiers[i], i)
  }

  ghost predicate IsStage(ids: set<TaskId>, edges: seq<Edge>, tier: seq<TaskId>, i: nat) {
    tier != [] && NoDup(tier) && Elements(tier) == Done(ids, edges, i + 1) - Done(ids, edges, i)
  }

  lemma QueueIsNextStage(ids: set<TaskId>, edges: seq<Edge>, k: nat, inDegree: map<TaskId, nat>, queue: seq<TaskId>)
    requires Counts(inDegree, ids, edges, Done(ids, edges, k), multiset{})
    requires Queued(queue, inDegree, Done(ids, edges, k))
    ensures Elements(queue) == Done(ids, edges, k + 1) - Done(ids, edges, k)
    ensures Done(ids, edges, k) + Elements(queue) == Done(ids, edges, k + 1)
  {
    var done := Done(ids, edges, k);
    forall t | t in ids
      ensures inDegree[t] == 0 <==> Ready(edges, t, done)
    {
      PendingZero(edges, t, done);
    }
    DoneGrows(ids, edges, k);
  }

  function Lookup(dependents: map<TaskId, seq<TaskId>>, u: TaskId): seq<TaskId> {
    if u in dependents then dependents[u] else []
  }

  /** Lines 168-173: in-degrees, and who waits for whom. */
  method BuildCounts(order: seq<TaskId>, edges: seq<Edge>)
    returns (inDegree: map<TaskId, nat>, dependents: map<TaskId, seq<TaskId>>)
    requires Within(Elements(order), edges)
    ensures Counts(inDegree, Elements(order), edges, {}, multiset{})
    ensures forall u :: Lookup(dependents, u) == Dependents(edges, u)
  {
    inDegree := map t | t in order :: 0;
    dependents := map[];
    for i := 0 to |edges|
      invariant Counts(inDegree, Elements(order), edges[..i], {}, multiset{})
      invariant forall u :: Lookup(dependents, u) == Dependents(edges[..i], u)
    {
      var (from, to) := edges[i];
      assert edges[..i + 1][..i] == edges[..i];
      assert (from, to) in edges;
      inDegree := inDegree[from := inDegree[from] + 1];
      dependents := dependents[to := Lookup(dependents, to) + [from]];
    }
    assert edges[..|edges|] == edges;
  }

  /** The tasks of `order` whose in-degree is zero, or else those whose in-degree is positive. */
  method Select(order: seq<TaskId>, inDegree: map<TaskId, nat>, zero: bool) returns (chosen: seq<TaskId>)
    requires NoDup(order) && Elements(order) <= inDegree.Keys
    ensures NoDup(chosen)
    ensures forall t :: t in chosen <==> t in order && (inDegree[t] == 0 <==> zero)
  {
    chosen := [];
    for i := 0 to |order|
      invariant NoDup(chosen)
      invariant forall t :: t in chosen <==> t in order[..i] && (inDegree[t] == 0 <==> zero)
    {
      assert order[i] in Elements(order);
      if inDegree[order[i]] == 0 <==> zero {
        chosen := chosen + [order[i]];
      }
    }
  }

  /** Lines 186-189: the innermost loop, over the dependents of one finished task. */
  method ReleaseDependents(ds: seq<TaskId>, inDegree: map<TaskId, nat>, queue: seq<TaskId>, ghost ids: set<TaskId>,
                           ghost edges: seq<Edge>, ghost done: set<TaskId>, ghost settled: set<TaskId>)
    returns (degree: map<TaskId, nat>, next: seq<TaskId>)
    requires Counts(inDegree, ids, edges, done, multiset(ds)) && Queued(queue, inDegree, settled)
    requires forall d :: d in ds ==> d in ids
    ensures Counts(degree, ids, edges, done, multiset{}) && Queued(next, degree, settled)
  {
    degree, next := inDegree, queue;
    assert ds[0..] == ds;
    for j := 0 to |ds|
      invariant Counts(degree, ids, edges, done, multiset(ds[j..]))
      invariant Queued(next, degree, settled)
    {
      var dependent := ds[j];
      assert ds[j..] == [dependent] + ds[j + 1..];
      DecrementStep(degree, ids, edges, done, dependent, multiset(ds[j + 1..]), next, settled);
      degree := degree[dependent := degree[dependent] - 1];
      if degree[dependent] == 0 {
        next := next + [dependent];
      }
    }
  }

  /** Lines 186-189 for one finished task. */
  method FinishTask(node: TaskId, inDegree: map<TaskId, nat>, queue: seq<TaskId>, dependents: map<TaskId, seq<TaskId>>,
                    ghost ids: set<TaskId>, ghost edges: seq<Edge>, ghost done: set<TaskId>, ghost settled: set<TaskId>)
    returns (degree: map<TaskId, nat>, next: seq<TaskId>)
    requires Within(ids, edges) && Counts(inDegree, ids, edges, done, multiset{}) && node !in done
    requires Queued(queue, inDegree, settled)
    requires Lookup(dependents, node) == Dependents(edges, node)
    ensures Counts(degree, ids, edges, done + {node}, multiset{}) && Queued(next, degree, settled)
  {
    OpenDependents(inDegree, ids, edges, done, node);
    DependentsWithin(ids, edges, node);
    degree, next := ReleaseDependents(Lookup(dependents, node), inDegree, queue, ids, edges, done + {node}, settled);
  }

  /** Lines 185-189: finish every task of a tier; what becomes ready is the next queue. */
  method FinishTier(tier: seq<TaskId>, inDegree: map<TaskId, nat>, dependents: map<TaskId, seq<TaskId>>,
                    ghost ids: set<TaskId>, ghost edges: seq<Edge>, ghost done: set<TaskId>)
    returns (degree: map<TaskId, nat>, next: seq<TaskId>)
    requires Within(ids, edges) && Counts(inDegree, ids, edges, done, multiset{})
    requires Queued(tier, inDegree, done)
    requires forall u :: Lookup(dependents, u) == Dependents(edges, u)
    ensures Counts(degree, ids, edges, done + Elements(tier), multiset{})
    ensures Queued(next, degree, done + Elements(tier))
  {
    degree, next := inDegree, [];
    ghost var settled := done + Elements(tier);
    assert done + Elements(tier[..0]) == done;
    for i := 0 to |tier|
      invariant Counts(degree, ids, edges, done + Elements(tier[..i]), multiset{})
      invariant Queued(next, degree, settled)
    {
      assert tier[i] !in tier[..i];
      degree, next := FinishTask(tier[i], degree, next, dependents, ids, edges, done + Elements(tier[..i]), settled);
      assert done + Elements(tier[..i + 1]) == done + Elements(tier[..i]) + {tier[i]};
    }
    assert tier[..|tier|] == tier;
  }

  /** Every task in exactly one place of exactly one tier. */
  ghost predicate IsPartition(order: seq<TaskId>, tiers: seq<seq<TaskId>>) {
    && (forall i :: 0 <= i < |tiers| ==> tiers[i] != [] && NoDup(tiers[i]))
    && (forall i, j :: 0 <= i < j < |tiers| ==> Elements(tiers[i]) !! Elements(tiers[j]))
    && (forall t :: t in order <==> exists i :: 0 <= i < |tiers| && t in tiers[i])
  }

  /** The tiers say of every task how long its longest chain is; a last extra tier holds the tasks
      from which a cycle can be reached, if there are any. */
  ghost predicate TierMeaning(order: seq<TaskId>, edges: seq<Edge>, tiers: seq<seq<TaskId>>, height: nat) {
    && height <= |tiers| <= height + 1
    && (forall i, t :: 0 <= i < height ==> (t in tiers[i] <==> t in order && LongestChain(edges, t, i)))
    && (|tiers| == height + 1 <==> exists t :: t in order && ReachesCycle(edges, t))
    && (|tiers| == height + 1 ==> forall t :: t in tiers[height] <==> t in order && ReachesCycle(edges, t))
  }

  lemma TierStep(ids: set<TaskId>, edges: seq<Edge>, tiers: seq<seq<TaskId>>, tier: seq<TaskId>,
                 inDegree: map<TaskId, nat>, degree: map<TaskId, nat>, next: seq<TaskId>)
    requires AfterTiers(ids, edges, tiers, tier, inDegree) && tier != []
    requires var done := Done(ids, edges, |tiers|) + Elements(tier);
             Counts(degree, ids, edges, done, multiset{}) && Queued(next, degree, done)
    ensures AfterTiers(ids, edges, tiers + [tier], next, degree)
    ensures ids - Done(ids, edges, |tiers| + 1) < ids - Done(ids, edges, |tiers|)
  {
    QueueIsNextStage(ids, edges, |tiers|, inDegree, tier);
    NonEmptyStageGrows(ids, edges, tier, |tiers|);
    AppendStage(ids, edges, tiers, tier);
  }

  lemma AppendStage(ids: set<TaskId>, edges: seq<Edge>, tiers: seq<seq<TaskId>>, tier: seq<TaskId>)
    requires StageTiers(ids, edges, tiers) && IsStage(ids, edges, tier, |tiers|)
    ensures StageTiers(ids, edges, tiers + [tier])
  {
  }

  lemma NonEmptyStageGrows(ids: set<TaskId>, edges: seq<Edge>, tier: seq<TaskId>, k: nat)
    requires IsStage(ids, edges, tier, k)
    ensures ids - Done(ids, edges, k + 1) < ids - Done(ids, edges, k)
  {
    DoneGrows(ids, edges, k);
    DoneGrows(ids, edges, k + 1);
    assert tier[0] in Elements(tier);
  }

  /** Lines 168-176: the counts, and the first queue. */
  method Prepare(order: seq<TaskId>, edges: seq<Edge>)
    returns (inDegree: map<TaskId, nat>, dependents: map<TaskId, seq<TaskId>>, queue: seq<TaskId>)
    requires NoDup(order) && Within(Elements(order), edges)
    ensures AfterTiers(Elements(order), edges, [], queue, inDegree)
    ensures forall u :: Lookup(dependents, u) == Dependents(edges, u)
  {
    inDegree, dependents := BuildCounts(order, edges);
    queue := Select(order, inDegree, true);
    assert forall t :: t in inDegree <==> t in Elements(order);
  }

  /** Lines 178-189: the tiers taken while something is ready, and the in-degrees that are left. */
  method TakeTiers(order: seq<TaskId>, edges: seq<Edge>, degrees: map<TaskId, nat>,
                   dependents: map<TaskId, seq<TaskId>>, ready: seq<TaskId>)
    returns (tiers: seq<seq<TaskId>>, inDegree: map<TaskId, nat>)
    requires Within(Elements(order), edges) && AfterTiers(Elements(order), edges, [], ready, degrees)
    requires forall u :: Lookup(dependents, u) == Dependents(edges, u)
    ensures AfterTiers(Elements(order), edges, tiers, [], inDegree)
  {
    ghost var ids := Elements(order);
    var queue := ready;
    tiers, inDegree := [], degrees;
    while queue != []
      invariant AfterTiers(ids, edges, tiers, queue, inDegree)
      decreases ids - Done(ids, edges, |tiers|)
    {
      var degree, next := FinishTier(queue, inDegree, dependents, ids, edges, Done(ids, edges, |tiers|));
      TierStep(ids, edges, tiers, queue, inDegree, degree, next);
      tiers, inDegree, queue := tiers + [queue], degree, next;
    }
  }

  /** `_topological_sort`. `order` is the arbitrary order in which the set of task ids is enumerated. */
  method Kahn(order: seq<TaskId>, edges: seq<Edge>) returns (tiers: seq<seq<TaskId>>, ghost height: nat)
    requires NoDup(order) && Within(Elements(order), edges)
    ensures TierMeaning(order, edges, tiers, height)
    ensures IsPartition(order, tiers)
  {
    var degrees, dependents, queue := Prepare(order, edges);
    var regular, inDegree := TakeTiers(order, edges, degrees, dependents, queue);
    height := |regular|;
    var remaining := Select(order, inDegree, false);
    FinalTiers(order, edges, regular, inDegree, remaining);
    tiers := if remaining != [] then regular + [remaining] else regular;
  }

  lemma RemainderMeaning(order: seq<TaskId>, edges: seq<Edge>, k: nat, inDegree: map<TaskId, nat>,
                         remaining: seq<TaskId>)
    requires Within(Elements(order), edges)
    requires Counts(inDegree, Elements(order), edges, Done(Elements(order), edges, k), multiset{})
    requires Queued([], inDegree, Done(Elements(order), edges, k))
    requires forall t :: t in remaining <==> t in order && inDegree[t] != 0
    ensures Elements(remaining) == Elements(order) - Done(Elements(order), edges, k)
    ensures forall t :: t in remaining <==> t in order && ReachesCycle(edges, t)
  {
    var ids := Elements(order);
    QueueIsNextStage(ids, edges, k, inDegree, []);
    forall t | t in order
      ensures t in remaining <==> ReachesCycle(edges, t)
    {
      assert t in ids;
      StuckMeansCycle(ids, edges, k, t);
    }
  }

  lemma StagesMeaning(order: seq<TaskId>, edges: seq<Edge>, regular: seq<seq<TaskId>>)
    requires Within(Elements(order), edges)
    requires StageTiers(Elements(order), edges, regular)
    ensures forall i, t :: 0 <= i < |regular| ==> (t in regular[i] <==> t in order && LongestChain(edges, t, i))
  {
    var ids := Elements(order);
    forall i, t | 0 <= i < |regular|
      ensures t in regular[i] <==> t in order && LongestChain(edges, t, i)
    {
      assert IsStage(ids, edges, regular[i], i);
      assert t in regular[i] <==> t in Elements(regular[i]);
      DoneGrows(ids, edges, i);
      if t in ids {
        StageMeansLongestChain(ids, edges, t, i);
      }
    }
  }

  lemma FinalTiers(order: seq<TaskId>, edges: seq<Edge>, regular: seq<seq<TaskId>>, inDegree: map<TaskId, nat>,
                   remaining: seq<TaskId>)
    requires NoDup(order) && Within(Elements(order), edges)
    requires AfterTiers(Elements(order), edges, regular, [], inDegree)
    requires NoDup(remaining) && forall t :: t in remaining <==> t in order && inDegree[t] != 0
    ensures var tiers := if remaining != [] then regular + [remaining] else regular;
            TierMeaning(order, edges, tiers, |regular|) && IsPartition(order, tiers)
  {
    assert forall i :: 0 <= i < |regular| ==> IsStage(Elements(order), edges, regular[i], i);
    StagesMeaning(order, edges, regular);
    RemainderMeaning(order, edges, |regular|, inDegree, remaining);
    StagesPartition(Elements(order), edges, regular, remaining);
    var tiers := if remaining != [] then regular + [remaining] else regular;
    assert remaining != [] ==> remaining[0] in remaining;
    assert TierMeaning(order, edges, tiers, |regular|);
    CoverOrder(order, regular, remaining);
  }

  lemma CoverOrder(order: seq<TaskId>, regular: seq<seq<TaskId>>, remaining: seq<TaskId>)
    requires forall i :: 0 <= i < |regular| ==> regular[i] != [] && NoDup(regular[i])
    requires NoDup(remaining)
    requires forall i, j :: 0 <= i < j < |regular| ==> Elements(regular[i]) !! Elements(regular[j])
    requires forall i :: 0 <= i < |regular| ==> Elements(regular[i]) !! Elements(remaining)
    requires forall t :: t in Elements(order) <==> t in remaining || exists i :: 0 <= i < |regular| && t in regular[i]
    ensures IsPartition(order, if remaining != [] then regular + [remaining] else regular)
  {
    var tiers := if remaining != [] then regular + [remaining] else regular;
    forall t
      ensures t in order <==> exists i :: 0 <= i < |tiers| && t in tiers[i]
    {
      assert t in order <==> t in Elements(order);
      if t in remaining {
        assert t in tiers[|regular|];
      } else if t in order {
        var i :| 0 <= i < |regular| && t in regular[i];
        assert t in tiers[i];
      }
    }
  }

  /** Consecutive stages are disjoint and add up. */
  lemma StagesPartition(ids: set<TaskId>, edges: seq<Edge>, regular: seq<seq<TaskId>>, remaining: seq<TaskId>)
    requires StageTiers(ids, edges, regular)
    requires Elements(remaining) == ids - Done(ids, edges, |regular|)
    ensures forall i, j :: 0 <= i < j < |regular| ==> Elements(regular[i]) !! Elements(regular[j])
    ensures forall i :: 0 <= i < |regular| ==> Elements(regular[i]) !! Elements(remaining)
    ensures forall t :: t in ids <==> t in remaining || exists i :: 0 <= i < |regular| && t in regular[i]
  {
    forall i, j | 0 <= i < j <= |regular|
      ensures Elements(regular[i]) <= Done(ids, edges, j) && Done(ids, edges, j) <= ids
    {
      assert IsStage(ids, edges, regular[i], i);
      DoneMonotone(ids, edges, i + 1, j);
      DoneGrows(ids, edges, j);
    }
    forall i, j | 0 <= i < j < |regular|
      ensures Elements(regular[i]) !! Elements(regular[j])
    {
      assert Elements(regular[i]) <= Done(ids, edges, j);
      assert IsStage(ids, edges, regular[j], j);
    }
    forall t
      ensures t in ids <==> t in remaining || exists i :: 0 <= i < |regular| && t in regular[i]
    {
      assert t in remaining <==> t in Elements(remaining);
      forall i | 0 <= i < |regular| && t in regular[i]
        ensures t in ids
      {
        assert t in Elements(regular[i]) && Elements(regular[i]) <= Done(ids, edges, |regular|);
      }
      if t in ids && t !in remaining {
        var i := FirstStage(ids, edges, t, |regular|);
        assert IsStage(ids, edges, regular[i], i);
        assert t in Elements(regular[i]);
      }
    }
  }

  lemma {:induction false} FirstStage(ids: set<TaskId>, edges: seq<Edge>, t: TaskId, k: nat) returns (i: nat)
    requires t in Done(ids, edges, k)
    ensures i < k && t in Done(ids, edges, i + 1) - Done(ids, edges, i)
    decreases k
  {
    if t in Done(ids, edges, k - 1) {
      i := FirstStage(ids, edges, t, k - 1);
    } else {
      i := k - 1;
    }
  }
}
