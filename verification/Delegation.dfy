/** Planner and pool together: what delegating a list of jobs guarantees
    (src/graphclaw/agent/dispatch_planner.py with sub_agent_pool.py). */
module Delegation {
  import opened Sequences
  import opened Jobs
  import opened PoolProtocol
  import opened PoolSafety
  import opened PoolProgress
  import opened DispatchPlanner
  import T = TopologicalSort
  import Pool

  /** The planner's answer for a list of jobs, with everything its contract promises of it. */
  datatype Answer = Answer(jobs: seq<Job>, prefix: string, order: seq<TaskId>, edges: seq<T.Edge>,
                           tiers: seq<seq<Job>>, ids: seq<seq<TaskId>>, height: nat)

  ghost predicate IsAnswer(p: Answer) {
    && NoDup(p.order) && Elements(p.order) == TaskIds(p.jobs) && T.Within(Elements(p.order), p.edges)
    && p.jobs != []
    && IsPlan(p.jobs, p.prefix, p.order, p.edges, p.tiers, p.ids, p.height)
  }

  lemma AnswerIsTiering(p: Answer)
    requires IsAnswer(p)
    ensures IsTiering(p.prefix, p.tiers)
  {
    PlanAssignsBatches(p.jobs, p.prefix, p.order, p.edges, p.tiers, p.ids, p.height);
  }

  /** Planning a turn's delegations and registering the result with the pool. */
  method PlanAndRegister(pool: Pool.SubAgentPool, jobs: seq<Job>, sessionId: string, order: seq<TaskId>,
                         query: TaskId -> QueryResult)
    returns (ghost p: Answer)
    requires pool.Valid() && jobs != [] && NoDup(order) && Elements(order) == TaskIds(jobs)
    requires Free(pool.registry, Prefix(sessionId))
    modifies pool, pool.coordinator
    ensures IsAnswer(p) && p.jobs == jobs && p.prefix == Prefix(sessionId) && p.order == order
    ensures |jobs| > 1 ==> AreFetched(order, query, p.edges)
    ensures p.tiers != [] && pool.Valid() && pool.View() == Registering(old(pool.View()), p.prefix, p.tiers)
    ensures fresh(pool.coordinator.batches.Values - old(pool.coordinator.batches.Values))
  {
    var tiers;
    ghost var edges, ids, height;
    tiers, edges, ids, height := Plan(jobs, sessionId, order, query);
    p := Answer(jobs, Prefix(sessionId), order, edges, tiers, ids, height);
    AnswerIsTiering(p);
    pool.Register(Prefix(sessionId), tiers);
  }

  /** In every reachable state of the pool: if a job of task `a` has started for this plan and `a` depends on `b`, where
      no cycle can be reached from `a`, then the job planned for task `b` has returned, in an earlier tier. */
  lemma DependencyFinishesFirst(p: Answer, s: State, a: Job, b: TaskId) returns (other: Job)
    requires IsAnswer(p) && |p.jobs| > 1
    requires Reachable(s) && p.prefix in s.registry.plans && s.registry.plans[p.prefix] == p.tiers
    requires OfPrefix(a.batch, p.prefix) && s.started[a] > s.registry.archived[a]
    requires (a.taskId, b) in p.edges && !T.ReachesCycle(p.edges, a.taskId)
    ensures other.taskId == b && OfPrefix(other.batch, p.prefix)
    ensures other.batch.index < a.batch.index < |p.tiers| && other in p.tiers[other.batch.index]
    ensures s.returned[other] == s.registry.archived[other] + multiset(p.tiers[other.batch.index])[other]
  {
    StartedJobIsPlanned(s, a);
    var i := a.batch.index;
    var k :| 0 <= k < |p.tiers[i]| && p.tiers[i][k] == a;
    var m, l := DependencyIsPlannedEarlier(p.jobs, p.prefix, p.order, p.edges, p.tiers, p.ids, p.height,
                                           a.taskId, b, i, k);
    other := p.tiers[m][l];
    AnswerIsTiering(p);
    assert other in p.tiers[m];
    NoJobStartsEarly(s, a, m, other);
  }

  lemma StartedJobIsPlanned(s: State, a: Job)
    requires Reachable(s) && s.started[a] > s.registry.archived[a]
    ensures Registered(s.registry, a.batch) && a in s.registry.plans[a.batch.prefix][a.batch.index]
  {
    ReachableInv(s);
    assert Level(s, ToStart, a) == Due(s.registry, a) + s.registry.archived[a];
  }

  // ---------------------------------------------------------------- every job, exactly once

  /** With distinct task ids, a job occurs once in the tier it is planned for. */
  lemma PlannedOnce(p: Answer, n: nat) returns (i: nat)
    requires IsAnswer(p) && DistinctIds(p.jobs) && n < |p.jobs|
    ensures i < |p.tiers| && multiset(p.tiers[i])[p.jobs[n].(batch := Tier(p.prefix, i))] == 1
  {
    var k;
    i, k := PlanContainsEveryJob(p.jobs, p.prefix, p.order, p.edges, p.tiers, p.ids, p.height, n);
    forall x, y | 0 <= x < y < |p.tiers[i]|
      ensures p.tiers[i][x] != p.tiers[i][y]
    {
      if !(|p.jobs| <= 1 || p.edges == []) {
        assert CarriesTier(p.tiers[i], p.ids[i], ById(p.jobs), Tier(p.prefix, i));
      }
    }
    CountOfDistinct(p.tiers[i], k);
  }

  lemma {:induction false} CountOfDistinct(s: seq<Job>, k: nat)
    requires NoDup(s) && k < |s|
    ensures multiset(s)[s[k]] == 1
  {
    assert s == s[..k] + [s[k]] + s[k + 1..];
    assert s[k] !in s[..k] && s[k] !in s[k + 1..];
    assert multiset(s) == multiset(s[..k]) + multiset{s[k]} + multiset(s[k + 1..]);
  }

  lemma {:induction false} OthersAddNothing(s: State, steps: seq<Step>, t: State, prefix: string, j: Job)
    requires Runs(s, steps, t) && NoneRegisters(steps, prefix) && OfPrefix(j.batch, prefix)
    ensures RegisteredJobs(steps)[j] == 0
    decreases |steps|
  {
    if steps != [] {
      OthersAddNothing(Next(s, steps[0]), steps[1..], t, prefix, j);
      if steps[0].Register? {
        CountInPlan(steps[0].prefix, steps[0].tiers, j);
      }
    }
  }

  /** Registering the plan of any list of jobs with distinct task ids, in any reachable state in which the session's
      prefix is free, has this effect on every run from there that comes to rest, whatever else is registered meanwhile
      under other prefixes: every job of the list runs exactly once. */
  lemma DelegationRunsEveryJobOnce(p: Answer, s: State, steps: seq<Step>, t: State, n: nat) returns (i: nat)
    requires IsAnswer(p) && DistinctIds(p.jobs) && n < |p.jobs|
    requires Reachable(s) && Free(s.registry, p.prefix) && NoneRegisters(steps, p.prefix)
    requires IsTiering(p.prefix, p.tiers)
    requires Runs(Registering(s, p.prefix, p.tiers), steps, t) && Quiescent(t)
    ensures var j := p.jobs[n].(batch := Tier(p.prefix, i));
            t.started[j] == s.started[j] + 1 && t.returned[j] == s.returned[j] + 1
  {
    i := PlannedOnce(p, n);
    var j := p.jobs[n].(batch := Tier(p.prefix, i));
    ReachableInv(s);
    FreeMeansRun(s, p.prefix, j);
    RegisteringKnows(s, p.prefix, p.tiers, Registering(s, p.prefix, p.tiers), j);
    RunsAsKnown(Registering(s, p.prefix, p.tiers), steps, t, p.prefix, j);
  }

  lemma RegisteringKnows(s: State, prefix: string, tiers: seq<seq<Job>>, m: State, j: Job)
    requires Inv(s) && Free(s.registry, prefix) && IsTiering(prefix, tiers) && m == Registering(s, prefix, tiers)
    ensures Inv(m) && Known(m.registry, j) == Known(s.registry, j) + InPlan(prefix, tiers, j)
  {
    StepKeepsInv(s, Register(prefix, tiers));
    StepKnows(s, Register(prefix, tiers), j);
    CountInPlan(prefix, tiers, j);
  }

  lemma RunsAsKnown(m: State, steps: seq<Step>, t: State, prefix: string, j: Job)
    requires Inv(m) && Runs(m, steps, t) && Quiescent(t) && NoneRegisters(steps, prefix) && OfPrefix(j.batch, prefix)
    ensures t.started[j] == t.returned[j] == Known(m.registry, j)
  {
    RunKeepsInv(m, steps, t);
    RunKnows(m, steps, t, j);
    OthersAddNothing(m, steps, t, prefix, j);
    RestMeansExactlyOnce(t, j);
  }

  /** And its completion is announced exactly once more than had been announced, or was being announced, before. */
  lemma DelegationIsAnnouncedOnce(s: State, prefix: string, tiers: seq<seq<Job>>, m: State, steps: seq<Step>, t: State,
                                  b: BatchId)
    requires Reachable(s) && Free(s.registry, prefix) && IsTiering(prefix, tiers) && NoneRegisters(steps, prefix)
    requires m == Registering(s, prefix, tiers) && Runs(m, steps, t) && Quiescent(t)
    requires b == Tier(prefix, |tiers| - 1)
    ensures multiset(t.events)[b] == Heralds(s, b) + 1
  {
    ReachableInv(s);
    FreeMeansAnnounced(s, prefix, b);
    StepKeepsInv(s, Register(prefix, tiers));
    RegisterShape(s.registry, prefix, tiers);
    LastAfterRegister(s.registry, prefix, tiers, m.registry, b);
    AnnouncedLater(m, steps, t, prefix, b);
  }

  lemma AnnouncedLater(m: State, steps: seq<Step>, t: State, prefix: string, b: BatchId)
    requires Inv(m) && Runs(m, steps, t) && Quiescent(t) && NoneRegisters(steps, prefix) && OfPrefix(b, prefix)
    ensures multiset(t.events)[b] == KnownLast(m.registry, b)
  {
    RunKeepsInv(m, steps, t);
    RunKnowsLast(m, steps, t, b);
    OthersAnnounceElsewhere(steps, prefix, b);
    RestMeansAnnouncedOnce(t, b);
  }

  lemma {:induction false} OthersAnnounceElsewhere(steps: seq<Step>, prefix: string, b: BatchId)
    requires NoneRegisters(steps, prefix) && OfPrefix(b, prefix)
    ensures LastBatches(steps)[b] == 0
    decreases |steps|
  {
    if steps != [] {
      OthersAnnounceElsewhere(steps[1..], prefix, b);
    }
  }

  /** The job has run once more in `t` than in `s`, in some tier of the plan of `prefix`. */
  ghost predicate RanOnceMore(s: State, t: State, prefix: string, job: Job) {
    exists i :: RanOnceMoreIn(s, t, prefix, job, i)
  }

  predicate RanOnceMoreIn(s: State, t: State, prefix: string, job: Job, i: nat) {
    var j := job.(batch := Tier(prefix, i));
    t.started[j] == s.started[j] + 1 && t.returned[j] == s.returned[j] + 1
  }

  lemma JobRanOnceMore(p: Answer, s: State, t: State, n: nat)
    requires IsAnswer(p) && DistinctIds(p.jobs) && IsTiering(p.prefix, p.tiers) && n < |p.jobs|
    requires Inv(s) && Free(s.registry, p.prefix)
    requires forall j :: t.started[j] == t.returned[j] == Known(t.registry, j)
    requires forall j :: Known(t.registry, j) == Known(s.registry, j) + multiset(Concat(p.tiers))[j]
    ensures RanOnceMore(s, t, p.prefix, p.jobs[n])
  {
    var i := PlannedOnce(p, n);
    var j := p.jobs[n].(batch := Tier(p.prefix, i));
    FreeMeansRun(s, p.prefix, j);
    CountInPlan(p.prefix, p.tiers, j);
    assert RanOnceMoreIn(s, t, p.prefix, p.jobs[n], i);
  }

  /** A plan that has been registered, `r` being the registry then, and run to rest with nothing else registered. */
  lemma RunMeansOnceMore(p: Answer, s: State, r: Registry, t: State)
    requires IsAnswer(p) && DistinctIds(p.jobs) && IsTiering(p.prefix, p.tiers)
    requires Inv(s) && Free(s.registry, p.prefix) && Registers(s.registry, p.prefix, p.tiers, r)
    requires t.registry.plans == r.plans && t.registry.archived == r.archived
    requires forall j :: t.started[j] == t.returned[j] == Known(t.registry, j)
    ensures forall job :: job in p.jobs ==> RanOnceMore(s, t, p.prefix, job)
  {
    forall j
      ensures Known(t.registry, j) == Known(s.registry, j) + multiset(Concat(p.tiers))[j]
    {
      KnownAfterRegister(s.registry, p.prefix, p.tiers, r, j);
    }
    forall job | job in p.jobs
      ensures RanOnceMore(s, t, p.prefix, job)
    {
      var n :| 0 <= n < |p.jobs| && p.jobs[n] == job;
      JobRanOnceMore(p, s, t, n);
    }
  }

  lemma ReachableRegister(s: State, prefix: string, tiers: seq<seq<Job>>)
    requires Reachable(s) && Free(s.registry, prefix) && IsTiering(prefix, tiers)
    ensures Inv(s) && Reachable(Registering(s, prefix, tiers))
    ensures Registers(s.registry, prefix, tiers, Registering(s, prefix, tiers).registry)
  {
    ReachableInv(s);
    ReachableStep(s, Register(prefix, tiers));
    RegisterShape(s.registry, prefix, tiers);
  }

  /** Planning, registering and running, on the pool itself: it ends at rest, with every job of the list run once more
      than before. */
  method Delegate(pool: Pool.SubAgentPool, jobs: seq<Job>, sessionId: string, order: seq<TaskId>,
                  query: TaskId -> QueryResult)
    requires pool.Valid() && Reachable(pool.View()) && pool.maxSize > 0
    requires jobs != [] && DistinctIds(jobs) && NoDup(order) && Elements(order) == TaskIds(jobs)
    requires Free(pool.registry, Prefix(sessionId))
    modifies pool, pool.coordinator, pool.coordinator.batches.Values
    ensures pool.Valid() && Reachable(pool.View()) && Quiescent(pool.View())
    ensures forall job :: job in jobs ==> RanOnceMore(old(pool.View()), pool.View(), Prefix(sessionId), job)
  {
    ghost var s := pool.View();
    ghost var p := PlanAndRegister(pool, jobs, sessionId, order, query);
    AnswerIsTiering(p);
    ReachableRegister(s, p.prefix, p.tiers);
    ghost var r := pool.registry;
    pool.RunToRest();
    RunMeansOnceMore(p, s, r, pool.View());
  }
}
