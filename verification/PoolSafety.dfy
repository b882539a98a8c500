/** Every step of the pool keeps its invariant, so it holds in every interleaving. */
module PoolSafety {
  import opened Jobs
  import opened PoolProtocol
  import opened Sequences

  // ---------------------------------------------------------------- jobs are neither lost nor made up

  lemma OwedMoves(s: State, i: nat, pc: Pc, a: Aspect, j: Job)
    requires i < |s.tasks|
    ensures Count(Owes(a, j), AtPc(s, i, pc))
            == Count(Owes(a, j), s.tasks) - Owed(a, j, s.tasks[i]) + Owed(a, j, s.tasks[i].(pc := pc))
  {
    CountUpdate(Owes(a, j), s.tasks, i, s.tasks[i].(pc := pc));
  }

  lemma HeadAndTail(q: seq<Job>, j: Job)
    requires q != []
    ensures multiset(q)[j] == multiset(q[1..])[j] + (if q[0] == j then 1 else 0)
  {
    assert q == [q[0]] + q[1..];
  }

  lemma QueueLevel(s: State, step: Step, a: Aspect, j: Job)
    requires Enabled(s, step) && (step.Deliver? || step.Receive?)
    ensures Level(Next(s, step), a, j) == Level(s, a, j)
  {
    HeadAndTail(if step.Deliver? then s.outbox else s.queue, j);
  }

  lemma AcquireLevel(s: State, a: Aspect, j: Job)
    requires s.waiting.Some? && s.permits > 0
    ensures Level(Acquiring(s), a, j) == Level(s, a, j)
  {
    CountAppend(Owes(a, j), s.tasks, Task(s.waiting.value, Spawned));
  }

  lemma StartLevel(s: State, i: nat, a: Aspect, j: Job)
    requires i < |s.tasks| && s.tasks[i].pc.Spawned?
    ensures Level(Starting(s, i), a, j) == Level(s, a, j)
  {
    OwedMoves(s, i, Running(s.runnerCounter), a, j);
  }

  lemma ReturnLevel(s: State, i: nat, a: Aspect, j: Job)
    requires i < |s.tasks| && s.tasks[i].pc.Running?
    ensures Level(Returning(s, i), a, j) == Level(s, a, j)
  {
    OwedMoves(s, i, Returned, a, j);
  }

  lemma AnnounceLevel(s: State, i: nat, a: Aspect, j: Job)
    requires i < |s.tasks| && s.tasks[i].pc.Announcing?
    ensures Level(AnnouncingOne(s, i), a, j) == Level(s, a, j)
  {
    OwedMoves(s, i, Publishing(s.tasks[i].pc.after), a, j);
  }

  lemma PublishLevel(s: State, i: nat, a: Aspect, j: Job)
    requires i < |s.tasks| && s.tasks[i].pc.Publishing? && s.tasks[i].pc.rest != []
    ensures Level(PublishingOne(s, i), a, j) == Level(s, a, j)
  {
    var rest := s.tasks[i].pc.rest;
    HeadAndTail(rest, j);
    OwedMoves(s, i, Publishing(rest[1..]), a, j);
  }

  /** Only registering and recording bring copies of a job into play; all other steps move them on. */
  lemma StepKeepsLevel(s: State, step: Step, a: Aspect, j: Job)
    requires Enabled(s, step) && !step.Register? && !step.Record?
    ensures Level(Next(s, step), a, j) == Level(s, a, j) && Next(s, step).registry == s.registry
  {
    match step
    case Deliver => QueueLevel(s, step, a, j);
    case Receive => QueueLevel(s, step, a, j);
    case Acquire => AcquireLevel(s, a, j);
    case Start(i) => StartLevel(s, i, a, j);
    case Return(i) => ReturnLevel(s, i, a, j);
    case Announce(i) => AnnounceLevel(s, i, a, j);
    case Publish(i) => PublishLevel(s, i, a, j);
  }

  /** Recording brings in what the runner goes on to publish. */
  lemma RecordLevel(s: State, i: nat, a: Aspect, j: Job)
    requires i < |s.tasks| && s.tasks[i].pc.Returned? && s.tasks[i].job.batch in s.registry.batches
    ensures Level(Recording(s, i), a, j)
            == Level(s, a, j) + Owed(a, j, Task(s.tasks[i].job, Continuation(s.registry, s.tasks[i].job.batch)))
  {
    OwedMoves(s, i, Continuation(s.registry, s.tasks[i].job.batch), a, j);
  }

  // ---------------------------------------------------------------- slots, counters, runner ids

  lemma MapSize<K, V>(m: map<K, V>, k: K, v: V)
    ensures k !in m ==> |m[k := v]| == |m| + 1
    ensures k in m ==> |m - {k}| == |m| - 1
  {
  }

  lemma AcquireSlots(s: State)
    requires Slots(s) && s.waiting.Some? && s.permits > 0
    ensures Slots(Acquiring(s))
  {
  }

  lemma StartSlots(s: State, i: nat)
    requires Slots(s) && RunnerIds(s) && i < |s.tasks| && s.tasks[i].pc.Spawned?
    ensures Slots(Starting(s, i))
  {
    CountUpdate(Slot, s.tasks, i, s.tasks[i].(pc := Running(s.runnerCounter)));
    CountUpdate(Active, s.tasks, i, s.tasks[i].(pc := Running(s.runnerCounter)));
    MapSize(s.runners, s.runnerCounter, s.tasks[i].job);
  }

  lemma ReturnSlots(s: State, i: nat)
    requires Slots(s) && RunnerIds(s) && i < |s.tasks| && s.tasks[i].pc.Running?
    ensures Slots(Returning(s, i))
  {
    CountUpdate(Slot, s.tasks, i, s.tasks[i].(pc := Returned));
    CountUpdate(Active, s.tasks, i, s.tasks[i].(pc := Returned));
    MapSize(s.runners, s.tasks[i].pc.runner, s.tasks[i].job);
  }

  /** After `execute`, a coroutine holds no slot and is no active runner. */
  lemma LaterSlots(s: State, i: nat, pc: Pc, n: State)
    requires Slots(s) && i < |s.tasks|
    requires !s.tasks[i].pc.Spawned? && !s.tasks[i].pc.Running? && !pc.Spawned? && !pc.Running?
    requires n == s.(tasks := AtPc(s, i, pc), queue := n.queue, registry := n.registry, events := n.events)
    ensures Slots(n)
  {
    CountUpdate(Slot, s.tasks, i, s.tasks[i].(pc := pc));
    CountUpdate(Active, s.tasks, i, s.tasks[i].(pc := pc));
  }

  lemma AcquireRunnerIds(s: State)
    requires RunnerIds(s) && s.waiting.Some? && s.permits > 0
    ensures RunnerIds(Acquiring(s))
  {
  }

  lemma StartRunnerIds(s: State, i: nat)
    requires RunnerIds(s) && i < |s.tasks| && s.tasks[i].pc.Spawned?
    ensures RunnerIds(Starting(s, i))
  {
  }

  lemma ReturnRunnerIds(s: State, i: nat)
    requires RunnerIds(s) && i < |s.tasks| && s.tasks[i].pc.Running?
    ensures RunnerIds(Returning(s, i))
  {
  }

  lemma LaterRunnerIds(s: State, i: nat, pc: Pc, n: State)
    requires RunnerIds(s) && i < |s.tasks| && !s.tasks[i].pc.Running? && !pc.Running?
    requires n.tasks == AtPc(s, i, pc) && n.runners == s.runners && n.runnerCounter == s.runnerCounter
    ensures RunnerIds(n)
  {
  }

  lemma RunnerIdsKept(s: State, step: Step)
    requires RunnerIds(s) && Enabled(s, step)
    ensures RunnerIds(Next(s, step))
  {
    match step
    case Acquire => AcquireRunnerIds(s);
    case Start(i) => StartRunnerIds(s, i);
    case Return(i) => ReturnRunnerIds(s, i);
    case Record(i) => LaterRunnerIds(s, i, Continuation(s.registry, s.tasks[i].job.batch), Next(s, step));
    case Announce(i) => LaterRunnerIds(s, i, Publishing(s.tasks[i].pc.after), Next(s, step));
    case Publish(i) => LaterRunnerIds(s, i, Publishing(s.tasks[i].pc.rest[1..]), Next(s, step));
    case _ =>
  }

  // ---------------------------------------------------------------- announcements

  lemma HeraldsMove(s: State, i: nat, pc: Pc, n: State, b: BatchId)
    requires i < |s.tasks| && n.tasks == AtPc(s, i, pc)
    ensures Heralds(n, b) + Weight(Announces(b), s.tasks[i]) + multiset(s.events)[b]
            == Heralds(s, b) + Weight(Announces(b), s.tasks[i].(pc := pc)) + multiset(n.events)[b]
  {
    CountUpdate(Announces(b), s.tasks, i, s.tasks[i].(pc := pc));
  }

  lemma AcquireHeralds(s: State, b: BatchId)
    requires s.waiting.Some? && s.permits > 0
    ensures Heralds(Acquiring(s), b) == Heralds(s, b)
  {
    CountAppend(Announces(b), s.tasks, Task(s.waiting.value, Spawned));
  }

  lemma StartHeralds(s: State, i: nat, b: BatchId)
    requires i < |s.tasks| && s.tasks[i].pc.Spawned?
    ensures Heralds(Starting(s, i), b) == Heralds(s, b)
  {
    HeraldsMove(s, i, Running(s.runnerCounter), Starting(s, i), b);
  }

  lemma ReturnHeralds(s: State, i: nat, b: BatchId)
    requires i < |s.tasks| && s.tasks[i].pc.Running?
    ensures Heralds(Returning(s, i), b) == Heralds(s, b)
  {
    HeraldsMove(s, i, Returned, Returning(s, i), b);
  }

  lemma AnnounceHeralds(s: State, i: nat, b: BatchId)
    requires i < |s.tasks| && s.tasks[i].pc.Announcing?
    ensures Heralds(AnnouncingOne(s, i), b) == Heralds(s, b)
  {
    HeraldsMove(s, i, Publishing(s.tasks[i].pc.after), AnnouncingOne(s, i), b);
  }

  lemma PublishHeralds(s: State, i: nat, b: BatchId)
    requires i < |s.tasks| && s.tasks[i].pc.Publishing? && s.tasks[i].pc.rest != []
    ensures Heralds(PublishingOne(s, i), b) == Heralds(s, b)
  {
    HeraldsMove(s, i, Publishing(s.tasks[i].pc.rest[1..]), PublishingOne(s, i), b);
  }

  /** Only recording brings in an announcement. */
  lemma StepKeepsHeralds(s: State, step: Step, b: BatchId)
    requires Enabled(s, step) && !step.Record?
    ensures Heralds(Next(s, step), b) == Heralds(s, b)
  {
    match step
    case Acquire => AcquireHeralds(s, b);
    case Start(i) => StartHeralds(s, i, b);
    case Return(i) => ReturnHeralds(s, i, b);
    case Announce(i) => AnnounceHeralds(s, i, b);
    case Publish(i) => PublishHeralds(s, i, b);
    case _ =>
  }

  lemma RecordHeralds(s: State, i: nat, pc: Pc, n: State, b: BatchId)
    requires i < |s.tasks| && s.tasks[i].pc.Returned? && n.tasks == AtPc(s, i, pc) && n.events == s.events
    ensures Heralds(n, b) == Heralds(s, b) + (if pc.Announcing? && pc.batch == b then 1 else 0)
  {
    HeraldsMove(s, i, pc, n, b);
  }

  // ---------------------------------------------------------------- recording a completion

  /** A job is recorded while its own tier is the frontier, and never more often than the tier contains it. */
  lemma ReturnedJobIsAtFrontier(s: State, i: nat)
    requires i < |s.tasks| && s.tasks[i].pc.Returned?
    requires var r, j := s.registry, s.tasks[i].job;
             && Level(s, ToRecord, j) == Due(r, j) + r.archived[j]
             && (Registered(r, j.batch) ==> PlanOk(r, j.batch.prefix))
    ensures AtFrontier(s.registry, s.tasks[i].job) && PlanOk(s.registry, s.tasks[i].job.batch.prefix)
  {
    var r, j := s.registry, s.tasks[i].job;
    CountAtLeast(Owes(ToRecord, j), s.tasks, i);
    assert j.batch == Tier(j.batch.prefix, j.batch.index);
    assert TierStatus(r, j.batch);
  }

  ghost predicate AtFrontier(r: Registry, j: Job) {
    && Registered(r, j.batch) && j.batch.index == r.front[j.batch.prefix]
    && j.batch in r.recorded && j.batch in r.batches
    && r.recorded[j.batch][j] < multiset(r.plans[j.batch.prefix][j.batch.index])[j]
  }

  lemma SubsetSize(a: multiset<Job>, b: multiset<Job>)
    requires a <= b
    ensures |a| <= |b|
  {
    assert b == a + (b - a);
  }

  lemma FullSubset(a: multiset<Job>, b: multiset<Job>)
    requires a <= b && |a| >= |b|
    ensures a == b
  {
    assert b == a + (b - a);
    assert |b - a| == 0;
  }

  /** What recording `j` does when `j` belongs to its plan's frontier tier: `n` is the registry afterwards, `pc` where
      the runner continues, `last` whether this was the tier's last job. */
  ghost predicate Records(r: Registry, j: Job, n: Registry, pc: Pc, last: bool) {
    && AtFrontier(r, j)
    && var b, tiers, k := j.batch, r.plans[j.batch.prefix], j.batch.index;
       var recorded := r.recorded[b] + multiset{j};
       && last == (|recorded| == |tiers[k]|)
       && recorded <= multiset(tiers[k])
       && (last ==> recorded == multiset(tiers[k]))
       && (!last ==> |recorded| < |tiers[k]|)
       && n.plans == r.plans && n.archived == r.archived && n.closed == r.closed
       && n.batches == r.batches[b := TierBatch(tiers, k).(completed := |recorded|)]
       && n.front == (if last then r.front[b.prefix := k + 1] else r.front)
       && n.recorded == r.recorded[b := recorded]
       && pc == if !last then Publishing([])
                else if k == |tiers| - 1 then Announcing(b, []) else Publishing(tiers[k + 1])
  }

  lemma RecordShape(r: Registry, j: Job) returns (last: bool)
    requires AtFrontier(r, j) && PlanOk(r, j.batch.prefix)
    ensures Records(r, j, AfterRecord(r, j), Continuation(r, j.batch), last)
  {
    assert j.batch == Tier(j.batch.prefix, j.batch.index);
    assert TierStatus(r, j.batch);
    var tier := r.plans[j.batch.prefix][j.batch.index];
    var recorded := r.recorded[j.batch] + multiset{j};
    last := |recorded| == |tier|;
    assert recorded <= multiset(tier);
    if last {
      FullSubset(recorded, multiset(tier));
    }
  }

  lemma RecordStatus(r: Registry, j: Job, n: Registry, pc: Pc, last: bool, b: BatchId)
    requires Records(r, j, n, pc, last) && Registered(r, b) && TierStatus(r, b)
    requires IsTiering(b.prefix, r.plans[b.prefix])
    ensures Registered(n, b) && TierStatus(n, b)
  {
  }

  lemma RecordPlanOk(r: Registry, j: Job, n: Registry, pc: Pc, last: bool, x: string)
    requires Records(r, j, n, pc, last) && x in r.plans && PlanOk(r, x)
    ensures PlanOk(n, x)
  {
    forall i | 0 <= i < |r.plans[x]|
      ensures TierStatus(n, Tier(x, i))
    {
      assert TierStatus(r, Tier(x, i));
      RecordStatus(r, j, n, pc, last, Tier(x, i));
    }
  }

  lemma RecordFrontiers(r: Registry, j: Job, n: Registry, pc: Pc, last: bool)
    requires Frontiers(r) && Records(r, j, n, pc, last)
    ensures Frontiers(n)
  {
    forall x | x in n.plans
      ensures PlanOk(n, x)
    {
      RecordPlanOk(r, j, n, pc, last, x);
    }
  }

  /** Recording releases exactly the jobs the runner goes on to publish. */
  lemma RecordReleases(r: Registry, j: Job, n: Registry, pc: Pc, last: bool, other: Job, a: Aspect)
    requires Records(r, j, n, pc, last) && IsTiering(j.batch.prefix, r.plans[j.batch.prefix])
    ensures Due(n, other) == Due(r, other) + Owed(a, other, Task(j, pc))
  {
  }

  lemma RecordBalanced(s: State, i: nat)
    requires Balanced(s) && Frontiers(s.registry) && i < |s.tasks| && s.tasks[i].pc.Returned?
    ensures Balanced(Recording(s, i))
  {
    var r, j := s.registry, s.tasks[i].job;
    assert Level(s, ToRecord, j) == Due(r, j) + r.archived[j];
    ReturnedJobIsAtFrontier(s, i);
    var last := RecordShape(r, j);
    var n := Recording(s, i);
    forall a, other
      ensures Level(n, a, other) == Due(n.registry, other) + n.registry.archived[other]
    {
      RecordLevel(s, i, a, other);
      RecordReleases(r, j, n.registry, Continuation(r, j.batch), last, other, a);
      assert Level(s, a, other) == Due(r, other) + r.archived[other];
    }
  }

  lemma RecordAnnounced(s: State, i: nat)
    requires Announced(s) && Balanced(s) && Frontiers(s.registry) && i < |s.tasks| && s.tasks[i].pc.Returned?
    ensures Announced(Recording(s, i))
  {
    var r, j := s.registry, s.tasks[i].job;
    assert Level(s, ToRecord, j) == Due(r, j) + r.archived[j];
    ReturnedJobIsAtFrontier(s, i);
    var last := RecordShape(r, j);
    RecordAnnouncedWith(s, i, Recording(s, i), Continuation(r, j.batch), last);
  }

  lemma RecordAnnouncedWith(s: State, i: nat, n: State, pc: Pc, last: bool)
    requires Announced(s) && i < |s.tasks| && s.tasks[i].pc.Returned?
    requires Records(s.registry, s.tasks[i].job, n.registry, pc, last)
    requires n == s.(tasks := AtPc(s, i, pc), registry := n.registry)
    ensures Announced(n)
  {
    forall b
      ensures Heralds(n, b) == n.registry.closed[b] + (if Finished(n.registry, b) then 1 else 0)
    {
      RecordHeralds(s, i, pc, n, b);
      assert Heralds(s, b) == s.registry.closed[b] + (if Finished(s.registry, b) then 1 else 0);
    }
  }

  // ---------------------------------------------------------------- registering a plan

  /** Copies of `j` in a plan: its batch says in which tier to look. */
  function InPlan(prefix: string, tiers: seq<seq<Job>>, j: Job): nat {
    if OfPrefix(j.batch, prefix) && j.batch.index < |tiers| then multiset(tiers[j.batch.index])[j] else 0
  }

  lemma {:induction false} CountInPlan(prefix: string, tiers: seq<seq<Job>>, j: Job)
    requires tiers == [] || IsTiering(prefix, tiers)
    ensures multiset(Concat(tiers))[j] == InPlan(prefix, tiers, j)
    decreases |tiers|
  {
    if tiers != [] {
      var init, last := tiers[..|tiers| - 1], tiers[|tiers| - 1];
      CountInPlan(prefix, init, j);
      assert j in last ==> j.batch == Tier(prefix, |tiers| - 1);
    }
  }

  lemma RegisteredPlanOk(r: Registry, prefix: string, tiers: seq<seq<Job>>)
    requires IsTiering(prefix, tiers)
    ensures PlanOk(AfterRegister(r, prefix, tiers), prefix)
  {
    var n := AfterRegister(r, prefix, tiers);
    forall i | 0 <= i < |tiers|
      ensures TierStatus(n, Tier(prefix, i))
    {
      assert n.recorded[Tier(prefix, i)] == multiset{};
    }
  }

  lemma OtherPlanOk(r: Registry, prefix: string, tiers: seq<seq<Job>>, x: string)
    requires x in r.plans && PlanOk(r, x) && x != prefix
    ensures x in AfterRegister(r, prefix, tiers).plans && PlanOk(AfterRegister(r, prefix, tiers), x)
  {
    var n := AfterRegister(r, prefix, tiers);
    forall i | 0 <= i < |r.plans[x]|
      ensures TierStatus(n, Tier(x, i))
    {
      assert TierStatus(r, Tier(x, i));
    }
  }

  lemma RegisterFrontiers(r: Registry, prefix: string, tiers: seq<seq<Job>>)
    requires Frontiers(r) && IsTiering(prefix, tiers)
    ensures Frontiers(AfterRegister(r, prefix, tiers))
  {
    var n := AfterRegister(r, prefix, tiers);
    RegisterShape(r, prefix, tiers);
    forall x | x in n.plans
      ensures PlanOk(n, x)
    {
      if x == prefix {
        RegisteredPlanOk(r, prefix, tiers);
      } else {
        OtherPlanOk(r, prefix, tiers, x);
      }
    }
  }

  /** A free prefix: everything due of its latest plan has been recorded. */
  lemma FreeMeansRecorded(r: Registry, prefix: string, j: Job)
    requires prefix in r.plans ==> PlanOk(r, prefix)
    requires Free(r, prefix) && OfPrefix(j.batch, prefix)
    ensures Due(r, j) == InPlan(prefix, PlanOf(r, prefix), j)
    ensures RecordedOf(r, j) <= Due(r, j) ==> RecordedOf(r, j) == Due(r, j)
  {
    if Registered(r, j.batch) {
      assert j.batch == Tier(prefix, j.batch.index);
      assert TierStatus(r, j.batch);
    }
  }

  /** What registering does to the history: `n` is the registry afterwards. */
  ghost predicate Registers(r: Registry, prefix: string, tiers: seq<seq<Job>>, n: Registry) {
    && n.plans == r.plans[prefix := tiers]
    && n.front == r.front[prefix := 0]
    && n.archived == r.archived + multiset(Concat(PlanOf(r, prefix)))
    && n.closed == r.closed + (if PlanOf(r, prefix) == [] then multiset{}
                               else multiset{Tier(prefix, |PlanOf(r, prefix)| - 1)})
  }

  lemma RegisterShape(r: Registry, prefix: string, tiers: seq<seq<Job>>)
    ensures Registers(r, prefix, tiers, AfterRegister(r, prefix, tiers))
  {
  }

  lemma DueAfterRegister(r: Registry, prefix: string, tiers: seq<seq<Job>>, n: Registry, j: Job)
    requires r.front.Keys == r.plans.Keys && IsTiering(prefix, tiers) && Registers(r, prefix, tiers, n)
    ensures Due(n, j) == if OfPrefix(j.batch, prefix) then multiset(tiers[0])[j] else Due(r, j)
    ensures !OfPrefix(j.batch, prefix) ==> multiset(tiers[0])[j] == 0
  {
    assert j in tiers[0] ==> j.batch == Tier(prefix, 0);
  }

  lemma RecordedAfterRegister(r: Registry, prefix: string, tiers: seq<seq<Job>>, j: Job)
    ensures RecordedOf(AfterRegister(r, prefix, tiers), j)
            == if OfPrefix(j.batch, prefix) then 0 else RecordedOf(r, j)
  {
  }

  /** Registering releases the first tier; what was known of an earlier plan of the prefix is archived. */
  lemma RegisterReleases(r: Registry, prefix: string, tiers: seq<seq<Job>>, n: Registry, j: Job)
    requires r.front.Keys == r.plans.Keys && (prefix in r.plans ==> PlanOk(r, prefix))
    requires Free(r, prefix) && IsTiering(prefix, tiers) && RecordedOf(r, j) <= Due(r, j)
    requires n == AfterRegister(r, prefix, tiers)
    ensures Due(n, j) + n.archived[j] == Due(r, j) + r.archived[j] + multiset(tiers[0])[j]
    ensures RecordedOf(n, j) + n.archived[j] == RecordedOf(r, j) + r.archived[j]
  {
    RegisterShape(r, prefix, tiers);
    CountInPlan(prefix, PlanOf(r, prefix), j);
    DueAfterRegister(r, prefix, tiers, n, j);
    RecordedAfterRegister(r, prefix, tiers, j);
    if OfPrefix(j.batch, prefix) {
      FreeMeansRecorded(r, prefix, j);
    }
  }

  lemma LevelAfterRegister(s: State, released: seq<Job>, r: Registry, a: Aspect, j: Job)
    requires RecordedOf(r, j) + r.archived[j] == RecordedOf(s.registry, j) + s.registry.archived[j]
    ensures Level(s.(registry := r, outbox := s.outbox + released), a, j) == Level(s, a, j) + multiset(released)[j]
  {
  }

  lemma RegisterBalanced(s: State, prefix: string, tiers: seq<seq<Job>>)
    requires Balanced(s) && Frontiers(s.registry) && Free(s.registry, prefix) && IsTiering(prefix, tiers)
    ensures Balanced(Registering(s, prefix, tiers))
  {
    var r := AfterRegister(s.registry, prefix, tiers);
    var n := s.(registry := r, outbox := s.outbox + tiers[0]);
    forall a, j
      ensures Level(n, a, j) == Due(r, j) + r.archived[j]
    {
      assert Level(s, a, j) == Level(s, ToRecord, j) == Due(s.registry, j) + s.registry.archived[j];
      RegisterReleases(s.registry, prefix, tiers, r, j);
      LevelAfterRegister(s, tiers[0], r, a, j);
    }
  }

  /** The last batch of a free prefix's latest plan, if there is one, is the one that is finished. */
  lemma FreeMeansFinished(r: Registry, prefix: string, b: BatchId)
    requires Frontiers(r) && Free(r, prefix)
    ensures OfPrefix(b, prefix) && Finished(r, b) <==>
            PlanOf(r, prefix) != [] && b == Tier(prefix, |PlanOf(r, prefix)| - 1)
  {
    assert prefix in r.plans ==> IsTiering(prefix, r.plans[prefix]);
  }

  lemma ClosedAfterRegister(r: Registry, prefix: string, tiers: seq<seq<Job>>, n: Registry, b: BatchId)
    requires Frontiers(r) && Free(r, prefix) && Registers(r, prefix, tiers, n)
    ensures n.closed[b] == r.closed[b] + (if OfPrefix(b, prefix) && Finished(r, b) then 1 else 0)
  {
    FreeMeansFinished(r, prefix, b);
  }

  lemma FinishedAfterRegister(r: Registry, prefix: string, tiers: seq<seq<Job>>, n: Registry, b: BatchId)
    requires IsTiering(prefix, tiers) && Registers(r, prefix, tiers, n)
    ensures Finished(n, b) <==> !OfPrefix(b, prefix) && Finished(r, b)
  {
  }

  lemma RegisterAnnouncedWith(s: State, prefix: string, tiers: seq<seq<Job>>, n: State)
    requires Announced(s) && Frontiers(s.registry) && Free(s.registry, prefix) && IsTiering(prefix, tiers)
    requires Registers(s.registry, prefix, tiers, n.registry) && n.events == s.events && n.tasks == s.tasks
    ensures Announced(n)
  {
    forall b
      ensures Heralds(n, b) == n.registry.closed[b] + (if Finished(n.registry, b) then 1 else 0)
    {
      ClosedAfterRegister(s.registry, prefix, tiers, n.registry, b);
      FinishedAfterRegister(s.registry, prefix, tiers, n.registry, b);
      assert Heralds(s, b) == s.registry.closed[b] + (if Finished(s.registry, b) then 1 else 0);
    }
  }

  lemma RegisterAnnounced(s: State, prefix: string, tiers: seq<seq<Job>>)
    requires Announced(s) && Frontiers(s.registry) && Free(s.registry, prefix) && IsTiering(prefix, tiers)
    ensures Announced(Registering(s, prefix, tiers))
  {
    RegisterShape(s.registry, prefix, tiers);
    RegisterAnnouncedWith(s, prefix, tiers, Registering(s, prefix, tiers));
  }

  // ---------------------------------------------------------------- every step, every run

  lemma BalancedKept(s: State, step: Step)
    requires Balanced(s) && Frontiers(s.registry) && Enabled(s, step)
    ensures Balanced(Next(s, step))
  {
    if step.Register? {
      RegisterBalanced(s, step.prefix, step.tiers);
    } else if step.Record? {
      RecordBalanced(s, step.i);
    } else {
      var n := Next(s, step);
      forall a, j
        ensures Level(n, a, j) == Due(n.registry, j) + n.registry.archived[j]
      {
        StepKeepsLevel(s, step, a, j);
        assert Level(s, a, j) == Due(s.registry, j) + s.registry.archived[j];
      }
    }
  }

  lemma FrontiersKept(s: State, step: Step)
    requires Balanced(s) && Frontiers(s.registry) && Enabled(s, step)
    ensures Frontiers(Next(s, step).registry)
  {
    if step.Register? {
      RegisterFrontiers(s.registry, step.prefix, step.tiers);
    } else if step.Record? {
      var j := s.tasks[step.i].job;
      assert Level(s, ToRecord, j) == Due(s.registry, j) + s.registry.archived[j];
      ReturnedJobIsAtFrontier(s, step.i);
      var last := RecordShape(s.registry, j);
      RecordFrontiers(s.registry, j, AfterRecord(s.registry, j), Continuation(s.registry, j.batch), last);
    }
  }

  lemma AnnouncedKept(s: State, step: Step)
    requires Announced(s) && Balanced(s) && Frontiers(s.registry) && Enabled(s, step)
    ensures Announced(Next(s, step))
  {
    if step.Register? {
      RegisterAnnounced(s, step.prefix, step.tiers);
    } else if step.Record? {
      RecordAnnounced(s, step.i);
    } else {
      var n := Next(s, step);
      KeepsRegistry(s, step);
      forall b
        ensures Heralds(n, b) == n.registry.closed[b] + (if Finished(n.registry, b) then 1 else 0)
      {
        StepKeepsHeralds(s, step, b);
        assert Heralds(s, b) == s.registry.closed[b] + (if Finished(s.registry, b) then 1 else 0);
      }
    }
  }

  lemma KeepsRegistry(s: State, step: Step)
    requires Enabled(s, step) && !step.Register? && !step.Record?
    ensures Next(s, step).registry == s.registry
  {
  }

  lemma SlotsKept(s: State, step: Step)
    requires Slots(s) && RunnerIds(s) && Enabled(s, step)
    ensures Slots(Next(s, step))
  {
    match step
    case Acquire => AcquireSlots(s);
    case Start(i) => StartSlots(s, i);
    case Return(i) => ReturnSlots(s, i);
    case Record(i) => LaterSlots(s, i, Continuation(s.registry, s.tasks[i].job.batch), Next(s, step));
    case Announce(i) => LaterSlots(s, i, Publishing(s.tasks[i].pc.after), Next(s, step));
    case Publish(i) => LaterSlots(s, i, Publishing(s.tasks[i].pc.rest[1..]), Next(s, step));
    case _ =>
  }

  lemma StepKeepsInv(s: State, step: Step)
    requires Inv(s) && Enabled(s, step)
    ensures Inv(Next(s, step))
  {
    BalancedKept(s, step);
    FrontiersKept(s, step);
    AnnouncedKept(s, step);
    SlotsKept(s, step);
    RunnerIdsKept(s, step);
  }

  ghost predicate Runs(s: State, steps: seq<Step>, t: State)
    decreases |steps|
  {
    if steps == [] then s == t else Enabled(s, steps[0]) && Runs(Next(s, steps[0]), steps[1..], t)
  }

  lemma {:induction false} RunKeepsInv(s: State, steps: seq<Step>, t: State)
    requires Inv(s) && Runs(s, steps, t)
    ensures Inv(t)
    decreases |steps|
  {
    if steps != [] {
      StepKeepsInv(s, steps[0]);
      RunKeepsInv(Next(s, steps[0]), steps[1..], t);
    }
  }

  ghost predicate Reachable(t: State) {
    exists steps :: Runs(Initial(t.maxSize), steps, t)
  }

  lemma InitialInv(maxSize: nat)
    ensures Inv(Initial(maxSize))
  {
  }

  lemma ReachableInv(t: State)
    requires Reachable(t)
    ensures Inv(t)
  {
    var steps :| Runs(Initial(t.maxSize), steps, t);
    InitialInv(t.maxSize);
    RunKeepsInv(Initial(t.maxSize), steps, t);
  }

  lemma RunsFirst(s: State, step: Step, rest: seq<Step>, t: State)
    requires Enabled(s, step) && Runs(Next(s, step), rest, t)
    ensures Runs(s, [step] + rest, t)
  {
    assert ([step] + rest)[1..] == rest;
  }

  lemma RunsFirstOf(s: State, step: Step, n: State, rest: seq<Step>, two: seq<Step>, t: State)
    requires Enabled(s, step) && n == Next(s, step) && Runs(n, rest + two, t)
    ensures Runs(s, [step] + rest + two, t)
  {
    RunsFirst(s, step, rest + two, t);
    assert [step] + rest + two == [step] + (rest + two);
  }

  lemma {:induction false} RunsConcat(s: State, one: seq<Step>, m: State, two: seq<Step>, t: State)
    requires Runs(s, one, m) && Runs(m, two, t)
    ensures Runs(s, one + two, t)
    decreases |one|
  {
    if one == [] {
      assert one + two == two;
    } else {
      var n := Next(s, one[0]);
      RunsConcat(n, one[1..], m, two, t);
      RunsFirstOf(s, one[0], n, one[1..], two, t);
      assert one == [one[0]] + one[1..];
    }
  }

  lemma OneStepRuns(s: State, step: Step)
    requires Enabled(s, step)
    ensures Runs(s, [step], Next(s, step))
  {
    assert Runs(Next(s, step), [step][1..], Next(s, step));
  }

  lemma ReachableFurther(s: State, steps: seq<Step>, t: State)
    requires Reachable(s) && Runs(s, steps, t)
    ensures Reachable(t)
  {
    var before :| Runs(Initial(s.maxSize), before, s);
    RunsConcat(Initial(s.maxSize), before, s, steps, t);
    SizeStays(s, steps, t);
  }

  lemma {:induction false} SizeStays(s: State, steps: seq<Step>, t: State)
    requires Runs(s, steps, t)
    ensures t.maxSize == s.maxSize
    decreases |steps|
  {
    if steps != [] {
      SizeStays(Next(s, steps[0]), steps[1..], t);
    }
  }

  lemma ReachableStep(s: State, step: Step)
    requires Reachable(s) && Enabled(s, step)
    ensures Reachable(Next(s, step))
  {
    OneStepRuns(s, step);
    ReachableFurther(s, [step], Next(s, step));
  }

  // ---------------------------------------------------------------- what that means

  /** In every interleaving each plan has one frontier tier. Tiers before it are fully counted and nothing of them is
      still under way; of the frontier tier, what is under way and what is recorded make up the tier; of later tiers
      nothing is queued, running, started or recorded. What ran for earlier plans of the same prefix comes on top. */
  lemma OneFrontierTier(s: State, x: string, i: nat, j: Job)
    requires Inv(s) && x in s.registry.plans && i < |s.registry.plans[x]| && j.batch == Tier(x, i)
    ensures x in s.registry.front && j.batch in s.registry.batches
    ensures var k, tier, b := s.registry.front[x], s.registry.plans[x][i], s.registry.batches[j.batch];
            var onTheWay, done, before := Outstanding(s, ToRecord, j), RecordedOf(s.registry, j), s.registry.archived[j];
            && b.total == |tier| && (b.completed == b.total <==> i < k) && (i > k ==> b.completed == 0)
            && (i < k ==> onTheWay == 0 && done == multiset(tier)[j]
                          && s.started[j] == s.returned[j] == before + multiset(tier)[j])
            && (i == k ==> onTheWay + done == multiset(tier)[j])
            && (i > k ==> onTheWay == 0 && done == 0 && s.started[j] == s.returned[j] == before)
  {
    var r := s.registry;
    assert TierStatus(r, j.batch);
    assert Level(s, ToRecord, j) == Level(s, ToReturn, j) == Level(s, ToStart, j) == Due(r, j) + r.archived[j];
    EarlierAspects(s.tasks, j);
    if i < r.front[x] {
      assert r.recorded[j.batch] == multiset(r.plans[x][i]);
    }
  }

  /** What still has to start still has to return; what still has to return still has to be recorded. */
  lemma {:induction false} EarlierAspects(tasks: seq<Task>, j: Job)
    ensures Count(Owes(ToStart, j), tasks) <= Count(Owes(ToReturn, j), tasks) <= Count(Owes(ToRecord, j), tasks)
    decreases |tasks|
  {
    if tasks != [] {
      EarlierAspects(tasks[..|tasks| - 1], j);
    }
  }

  /** The tier gate: once a job has started for the latest plan of its prefix, every job of every earlier tier of that
      plan has returned. */
  lemma NoJobStartsEarly(s: State, j: Job, earlier: nat, other: Job)
    requires Reachable(s) && s.started[j] > s.registry.archived[j] && j.batch.Tier? && earlier < j.batch.index
    ensures j.batch.prefix in s.registry.plans && j.batch.index < |s.registry.plans[j.batch.prefix]|
    ensures other in s.registry.plans[j.batch.prefix][earlier] ==>
              s.returned[other]
              == s.registry.archived[other] + multiset(s.registry.plans[j.batch.prefix][earlier])[other]
  {
    ReachableInv(s);
    assert Level(s, ToStart, j) == Due(s.registry, j) + s.registry.archived[j];
    var x := j.batch.prefix;
    assert IsTiering(x, s.registry.plans[x]);
    if other in s.registry.plans[x][earlier] {
      OneFrontierTier(s, x, earlier, other);
    }
  }

  /** Every job of the latest plan of `x` has started and returned as often as the plan lists it. */
  ghost predicate AllReturned(s: State, x: string)
    requires x in s.registry.plans
  {
    forall i, j :: 0 <= i < |s.registry.plans[x]| && j in s.registry.plans[x][i] ==>
      s.returned[j] == s.started[j] == s.registry.archived[j] + multiset(s.registry.plans[x][i])[j]
  }

  lemma FinishedMeansAllReturned(s: State, b: BatchId)
    requires Inv(s) && Finished(s.registry, b)
    ensures AllReturned(s, b.prefix)
  {
    var x := b.prefix;
    assert IsTiering(x, s.registry.plans[x]);
    forall i, j | 0 <= i < |s.registry.plans[x]| && j in s.registry.plans[x][i]
      ensures s.returned[j] == s.started[j] == s.registry.archived[j] + multiset(s.registry.plans[x][i])[j]
    {
      OneFrontierTier(s, x, i, j);
    }
  }

  /** DELEGATION_COMPLETE goes out at most once for each plan; when it has gone out for the latest plan of a prefix,
      every job of every tier of that plan has returned. */
  lemma CompletionComesLast(s: State, b: BatchId)
    requires Reachable(s)
    ensures multiset(s.events)[b] <= s.registry.closed[b] + 1
    ensures multiset(s.events)[b] > s.registry.closed[b] ==> Finished(s.registry, b) && AllReturned(s, b.prefix)
  {
    ReachableInv(s);
    assert Heralds(s, b) == s.registry.closed[b] + (if Finished(s.registry, b) then 1 else 0);
    if Finished(s.registry, b) {
      FinishedMeansAllReturned(s, b);
    }
  }

  /** Slots are conserved, the counters count, runner ids are new, and neither `max(0, ...)` ever acts. */
  lemma SlotsAreConserved(s: State)
    requires Reachable(s)
    ensures s.permits + Count(Slot, s.tasks) == s.maxSize
    ensures 0 <= s.activeCount == |s.runners| <= Count(Slot, s.tasks) <= s.maxSize
    ensures 0 <= s.queuedCount <= 1
    ensures s.runnerCounter !in s.runners
    ensures Enabled(s, Acquire) ==> s.queuedCount - 1 >= 0
    ensures forall i :: Enabled(s, Return(i)) ==> s.activeCount - 1 >= 0
  {
    ReachableInv(s);
    ActiveHoldSlots(s.tasks);
    forall i | Enabled(s, Return(i))
      ensures s.activeCount - 1 >= 0
    {
      CountAtLeast(Active, s.tasks, i);
    }
  }

  lemma {:induction false} ActiveHoldSlots(tasks: seq<Task>)
    ensures Count(Active, tasks) <= Count(Slot, tasks)
    decreases |tasks|
  {
    if tasks != [] {
      ActiveHoldSlots(tasks[..|tasks| - 1]);
    }
  }
}
