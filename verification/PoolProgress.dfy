/** Progress of the pool: every run is short, only rest stops it, and at rest everything has been done exactly once. */
module PoolProgress {
  import opened Jobs
  import opened PoolProtocol
  import opened PoolSafety
  import opened Sequences

  // ---------------------------------------------------------------- the measure

  /** Jobs of the tiers from `k` on. */
  function Ahead(tiers: seq<seq<Job>>, k: nat): nat {
    if |tiers| <= k then 0 else Ahead(tiers[..|tiers| - 1], k) + |tiers[|tiers| - 1]|
  }

  lemma {:induction false} AheadFirst(tiers: seq<seq<Job>>, k: nat)
    ensures k < |tiers| ==> Ahead(tiers, k) == |tiers[k]| + Ahead(tiers, k + 1)
    ensures Ahead(tiers, 0) == |Concat(tiers)|
    decreases |tiers|
  {
    if tiers != [] {
      AheadFirst(tiers[..|tiers| - 1], k);
    }
  }

  /** Jobs of the plan of `x` in tiers not yet released. */
  function DormantOf(r: Registry, x: string): nat {
    if x in r.plans && x in r.front then Ahead(r.plans[x], r.front[x] + 1) else 0
  }

  ghost function Dormant(r: Registry, xs: set<string>): nat {
    if xs == {} then 0 else var x :| x in xs; DormantOf(r, x) + Dormant(r, xs - {x})
  }

  lemma {:induction false} DormantPick(r: Registry, xs: set<string>, x: string)
    requires x in xs
    ensures Dormant(r, xs) == DormantOf(r, x) + Dormant(r, xs - {x})
    decreases |xs|
  {
    var y :| y in xs && Dormant(r, xs) == DormantOf(r, y) + Dormant(r, xs - {y});
    if y != x {
      DormantPick(r, xs - {y}, x);
      DormantPick(r, xs - {x}, y);
      assert xs - {y} - {x} == xs - {x} - {y};
    }
  }

  lemma {:induction false} DormantSame(r: Registry, n: Registry, xs: set<string>)
    requires forall x :: x in xs ==> DormantOf(n, x) == DormantOf(r, x)
    ensures Dormant(n, xs) == Dormant(r, xs)
    decreases |xs|
  {
    if xs != {} {
      var x :| x in xs;
      DormantPick(r, xs, x);
      DormantPick(n, xs, x);
      DormantSame(r, n, xs - {x});
    }
  }

  /** If only the plan of `x` changes, so does its share. */
  lemma DormantUpdate(r: Registry, n: Registry, xs: set<string>, x: string)
    requires x in xs && forall y :: y in xs && y != x ==> DormantOf(n, y) == DormantOf(r, y)
    ensures Dormant(n, xs) == Dormant(r, xs) - DormantOf(r, x) + DormantOf(n, x)
  {
    DormantPick(r, xs, x);
    DormantPick(n, xs, x);
    DormantSame(r, n, xs - {x});
  }

  /** Steps the released jobs may still take. */
  function Remaining(s: State): nat {
    8 * |s.outbox| + 7 * |s.queue| + (if s.waiting.Some? then 6 else 0) + Count(Effort, s.tasks)
  }

  ghost function Measure(s: State): nat {
    Remaining(s) + 8 * Dormant(s.registry, s.registry.plans.Keys)
  }

  lemma EffortMoves(s: State, i: nat, pc: Pc)
    requires i < |s.tasks|
    ensures Count(Effort, AtPc(s, i, pc)) == Count(Effort, s.tasks) - EffortOf(s.tasks[i].pc) + EffortOf(pc)
  {
    CountUpdate(Effort, s.tasks, i, s.tasks[i].(pc := pc));
  }

  lemma RecordDecreases(s: State, i: nat)
    requires Inv(s) && i < |s.tasks| && s.tasks[i].pc.Returned?
    ensures Measure(Recording(s, i)) < Measure(s)
  {
    var j := s.tasks[i].job;
    assert Level(s, ToRecord, j) == Due(s.registry, j) + s.registry.archived[j];
    ReturnedJobIsAtFrontier(s, i);
    var last := RecordShape(s.registry, j);
    var n, pc := Recording(s, i), Continuation(s.registry, j.batch);
    EffortMoves(s, i, pc);
    RecordWakes(s.registry, j, n.registry, pc, last);
  }

  lemma DormantOfRecorded(r: Registry, j: Job, n: Registry, pc: Pc, last: bool, x: string)
    requires Records(r, j, n, pc, last)
    ensures DormantOf(n, x)
            == if last && x == j.batch.prefix then Ahead(r.plans[x], r.front[x] + 2) else DormantOf(r, x)
  {
  }

  /** A recording moves the frontier of at most one plan, by one tier. */
  lemma DormantAfterRecord(r: Registry, j: Job, n: Registry, pc: Pc, last: bool)
    requires Records(r, j, n, pc, last)
    ensures n.plans == r.plans && j.batch.prefix in r.plans && j.batch.prefix in r.front
    ensures var tiers, k := r.plans[j.batch.prefix], r.front[j.batch.prefix];
            Dormant(n, r.plans.Keys) + Ahead(tiers, k + 1)
            == Dormant(r, r.plans.Keys) + (if last then Ahead(tiers, k + 2) else Ahead(tiers, k + 1))
  {
    var x := j.batch.prefix;
    forall y | y in r.plans.Keys && y != x
      ensures DormantOf(n, y) == DormantOf(r, y)
    {
      DormantOfRecorded(r, j, n, pc, last, y);
    }
    DormantUpdate(r, n, r.plans.Keys, x);
    DormantOfRecorded(r, j, n, pc, last, x);
  }

  lemma FollowingEffort(r: Registry, j: Job, n: Registry, pc: Pc, last: bool)
    requires Records(r, j, n, pc, last)
    ensures var tiers, k := r.plans[j.batch.prefix], r.front[j.batch.prefix];
            EffortOf(pc) <= if last && k + 1 < |tiers| then 8 * |tiers[k + 1]| else 1
  {
  }

  /** What a recording may still cost is paid for: a released tier is no longer dormant. */
  lemma RecordWakes(r: Registry, j: Job, n: Registry, pc: Pc, last: bool)
    requires Records(r, j, n, pc, last)
    ensures n.plans == r.plans
    ensures 8 * Dormant(n, n.plans.Keys) + EffortOf(pc) < 8 * Dormant(r, r.plans.Keys) + EffortOf(Returned)
  {
    DormantAfterRecord(r, j, n, pc, last);
    FollowingEffort(r, j, n, pc, last);
    AheadFirst(r.plans[j.batch.prefix], r.front[j.batch.prefix] + 1);
  }

  lemma QueueStepDecreases(s: State, step: Step)
    requires Enabled(s, step) && (step.Deliver? || step.Receive?)
    ensures Measure(Next(s, step)) < Measure(s)
  {
  }

  lemma AcquireDecreases(s: State)
    requires Enabled(s, Acquire)
    ensures Measure(Acquiring(s)) < Measure(s)
  {
    CountAppend(Effort, s.tasks, Task(s.waiting.value, Spawned));
  }

  lemma CoroutineDecreases(s: State, i: nat, pc: Pc, n: State)
    requires i < |s.tasks| && n.tasks == AtPc(s, i, pc) && n.outbox == s.outbox && n.waiting == s.waiting
    requires n.registry == s.registry
    requires EffortOf(pc) + 7 * |n.queue| < EffortOf(s.tasks[i].pc) + 7 * |s.queue|
    ensures Measure(n) < Measure(s)
  {
    EffortMoves(s, i, pc);
  }

  /** Every step of the pool itself brings the measure down. */
  lemma StepDecreases(s: State, step: Step)
    requires Inv(s) && Enabled(s, step) && !step.Register?
    ensures Measure(Next(s, step)) < Measure(s)
  {
    match step
    case Deliver => QueueStepDecreases(s, step);
    case Receive => QueueStepDecreases(s, step);
    case Acquire => AcquireDecreases(s);
    case Start(i) => CoroutineDecreases(s, i, Running(s.runnerCounter), Starting(s, i));
    case Return(i) => CoroutineDecreases(s, i, Returned, Returning(s, i));
    case Record(i) => RecordDecreases(s, i);
    case Announce(i) => CoroutineDecreases(s, i, Publishing(s.tasks[i].pc.after), AnnouncingOne(s, i));
    case Publish(i) => CoroutineDecreases(s, i, Publishing(s.tasks[i].pc.rest[1..]), PublishingOne(s, i));
  }

  // ---------------------------------------------------------------- runs with registrations

  /** The jobs a step registers. */
  function JobsOf(step: Step): multiset<Job> {
    if step.Register? then multiset(Concat(step.tiers)) else multiset{}
  }

  /** The jobs of all plans registered in a run. */
  function RegisteredJobs(steps: seq<Step>): multiset<Job> {
    if steps == [] then multiset{} else JobsOf(steps[0]) + RegisteredJobs(steps[1..])
  }

  /** The steps of a run that the pool itself takes. */
  function OwnSteps(steps: seq<Step>): nat {
    if steps == [] then 0 else (if steps[0].Register? then 0 else 1) + OwnSteps(steps[1..])
  }

  lemma DormantOfFree(r: Registry, prefix: string)
    requires Free(r, prefix)
    ensures DormantOf(r, prefix) == 0
  {
  }

  lemma DormantOfRegistered(r: Registry, prefix: string, tiers: seq<seq<Job>>, n: Registry, x: string)
    requires Registers(r, prefix, tiers, n)
    ensures DormantOf(n, x) == if x == prefix then Ahead(tiers, 1) else DormantOf(r, x)
  {
  }

  /** Leaving out a plan without dormant jobs changes nothing. */
  lemma DormantWithout(r: Registry, xs: set<string>, x: string)
    requires DormantOf(r, x) == 0
    ensures Dormant(r, xs) == Dormant(r, xs - {x})
  {
    if x in xs {
      DormantPick(r, xs, x);
    } else {
      assert xs - {x} == xs;
    }
  }

  /** A plan just registered is dormant but for its first tier; an earlier plan of the prefix had nothing left. */
  lemma DormantAfterRegister(r: Registry, prefix: string, tiers: seq<seq<Job>>, n: Registry)
    requires Free(r, prefix) && Registers(r, prefix, tiers, n)
    ensures Dormant(n, n.plans.Keys) == Dormant(r, r.plans.Keys) + Ahead(tiers, 1)
  {
    DormantOfFree(r, prefix);
    DormantWithout(r, r.plans.Keys, prefix);
    DormantPick(n, n.plans.Keys, prefix);
    DormantOfRegistered(r, prefix, tiers, n, prefix);
    var others := r.plans.Keys - {prefix};
    assert n.plans.Keys - {prefix} == others;
    forall x | x in others
      ensures DormantOf(n, x) == DormantOf(r, x)
    {
      DormantOfRegistered(r, prefix, tiers, n, x);
    }
    DormantSame(r, n, others);
  }

  /** Registering adds eight steps for every job of the plan. */
  lemma RegisterAdds(s: State, prefix: string, tiers: seq<seq<Job>>, n: State)
    requires Inv(s) && Free(s.registry, prefix) && tiers != [] && Registers(s.registry, prefix, tiers, n.registry)
    requires n == s.(registry := n.registry, outbox := s.outbox + tiers[0])
    ensures Measure(n) == Measure(s) + 8 * |Concat(tiers)|
  {
    AheadFirst(tiers, 0);
    DormantAfterRegister(s.registry, prefix, tiers, n.registry);
  }

  /** What a step costs and brings. */
  lemma StepPays(s: State, step: Step)
    requires Inv(s) && Enabled(s, step)
    ensures Inv(Next(s, step))
    ensures Measure(Next(s, step)) + (if step.Register? then 0 else 1) <= Measure(s) + 8 * |JobsOf(step)|
  {
    StepKeepsInv(s, step);
    if step.Register? {
      RegisterShape(s.registry, step.prefix, step.tiers);
      RegisterAdds(s, step.prefix, step.tiers, Next(s, step));
    } else {
      StepDecreases(s, step);
    }
  }

  /** However steps and registrations interleave: a run takes at most eight steps for every job registered in it, beyond
      what was due at its start. */
  lemma {:induction false} RunsAreShort(s: State, steps: seq<Step>, t: State)
    requires Inv(s) && Runs(s, steps, t)
    ensures OwnSteps(steps) + Measure(t) <= Measure(s) + 8 * |RegisteredJobs(steps)|
    decreases |steps|
  {
    if steps != [] {
      StepPays(s, steps[0]);
      RunsAreShort(Next(s, steps[0]), steps[1..], t);
    }
  }

  /** From the start: at most eight steps for every job ever registered. */
  lemma EightStepsAJob(maxSize: nat, steps: seq<Step>, t: State)
    requires Runs(Initial(maxSize), steps, t)
    ensures OwnSteps(steps) <= 8 * |RegisteredJobs(steps)|
  {
    assert Measure(Initial(maxSize)) == 0;
    RunsAreShort(Initial(maxSize), steps, t);
  }

  // ---------------------------------------------------------------- what has been registered

  /** Copies of `j` in all plans so far. */
  function Known(r: Registry, j: Job): nat {
    r.archived[j] + (if j.batch.Tier? then InPlan(j.batch.prefix, PlanOf(r, j.batch.prefix), j) else 0)
  }

  lemma KnownAfterRegister(r: Registry, prefix: string, tiers: seq<seq<Job>>, n: Registry, j: Job)
    requires Frontiers(r) && IsTiering(prefix, tiers) && Registers(r, prefix, tiers, n)
    ensures Known(n, j) == Known(r, j) + multiset(Concat(tiers))[j]
  {
    CountInPlan(prefix, tiers, j);
    CountInPlan(prefix, PlanOf(r, prefix), j);
  }

  lemma StepKnows(s: State, step: Step, j: Job)
    requires Inv(s) && Enabled(s, step)
    ensures Known(Next(s, step).registry, j) == Known(s.registry, j) + JobsOf(step)[j]
  {
    if step.Register? {
      RegisterShape(s.registry, step.prefix, step.tiers);
      KnownAfterRegister(s.registry, step.prefix, step.tiers, Next(s, step).registry, j);
    } else {
      OnlyRegisterAddsPlans(s, step);
    }
  }

  lemma OnlyRegisterAddsPlans(s: State, step: Step)
    requires Enabled(s, step) && !step.Register?
    ensures var r, n := s.registry, Next(s, step).registry;
            n.plans == r.plans && n.archived == r.archived && n.closed == r.closed
  {
  }

  lemma {:induction false} RunKnows(s: State, steps: seq<Step>, t: State, j: Job)
    requires Inv(s) && Runs(s, steps, t)
    ensures Known(t.registry, j) == Known(s.registry, j) + RegisteredJobs(steps)[j]
    decreases |steps|
  {
    if steps != [] {
      StepKeepsInv(s, steps[0]);
      StepKnows(s, steps[0], j);
      RunKnows(Next(s, steps[0]), steps[1..], t, j);
    }
  }

  /** The last batch of the plan a step registers: what will have to be announced. */
  function LastOf(step: Step): multiset<BatchId> {
    if step.Register? && step.tiers != [] then multiset{Tier(step.prefix, |step.tiers| - 1)} else multiset{}
  }

  function LastBatches(steps: seq<Step>): multiset<BatchId> {
    if steps == [] then multiset{} else LastOf(steps[0]) + LastBatches(steps[1..])
  }

  /** How many plans so far have `b` as their last batch. */
  function KnownLast(r: Registry, b: BatchId): nat {
    r.closed[b] + (if b.Tier? && b.prefix in r.plans && b.index + 1 == |r.plans[b.prefix]| then 1 else 0)
  }

  lemma NothingAtFirst(maxSize: nat, b: BatchId)
    ensures Inv(Initial(maxSize)) && Measure(Initial(maxSize)) == 0
    ensures (forall j :: Known(EMPTY, j) == 0) && KnownLast(EMPTY, b) == 0
  {
  }

  lemma LastAfterRegister(r: Registry, prefix: string, tiers: seq<seq<Job>>, n: Registry, b: BatchId)
    requires IsTiering(prefix, tiers) && Registers(r, prefix, tiers, n)
    ensures KnownLast(n, b) == KnownLast(r, b) + (if b == Tier(prefix, |tiers| - 1) then 1 else 0)
  {
  }

  lemma StepKnowsLast(s: State, step: Step, b: BatchId)
    requires Enabled(s, step)
    ensures KnownLast(Next(s, step).registry, b) == KnownLast(s.registry, b) + LastOf(step)[b]
  {
    if step.Register? {
      RegisterShape(s.registry, step.prefix, step.tiers);
      LastAfterRegister(s.registry, step.prefix, step.tiers, Next(s, step).registry, b);
    } else {
      OnlyRegisterAddsPlans(s, step);
    }
  }

  lemma {:induction false} RunKnowsLast(s: State, steps: seq<Step>, t: State, b: BatchId)
    requires Runs(s, steps, t)
    ensures KnownLast(t.registry, b) == KnownLast(s.registry, b) + LastBatches(steps)[b]
    decreases |steps|
  {
    if steps != [] {
      StepKnowsLast(s, steps[0], b);
      RunKnowsLast(Next(s, steps[0]), steps[1..], t, b);
    }
  }

  // ---------------------------------------------------------------- no deadlock

  predicate Over(t: Task) { t.pc.Publishing? && t.pc.rest == [] }

  predicate Quiescent(s: State) {
    s.outbox == [] && s.queue == [] && s.waiting.None? && forall i :: 0 <= i < |s.tasks| ==> Over(s.tasks[i])
  }

  lemma {:induction false} SlotHolder(tasks: seq<Task>) returns (i: nat)
    requires Count(Slot, tasks) > 0
    ensures i < |tasks| && (tasks[i].pc.Spawned? || tasks[i].pc.Running?)
    decreases |tasks|
  {
    var n := |tasks| - 1;
    if Weight(Slot, tasks[n]) == 1 {
      i := n;
    } else {
      i := SlotHolder(tasks[..n]);
    }
  }

  function OwnStep(t: Task, i: nat): Step {
    match t.pc
    case Spawned => Start(i)
    case Running(_) => Return(i)
    case Returned => Record(i)
    case Announcing(_, _) => Announce(i)
    case Publishing(_) => Publish(i)
  }

  /** With at least one slot, a pool that is not at rest can always move. */
  lemma SomeStepIsEnabled(s: State) returns (step: Step)
    requires Slots(s) && s.maxSize > 0 && !Quiescent(s)
    ensures Enabled(s, step) && !step.Register?
  {
    if s.outbox != [] {
      step := Deliver;
    } else if s.waiting.Some? {
      if s.permits > 0 {
        step := Acquire;
      } else {
        var i := SlotHolder(s.tasks);
        step := OwnStep(s.tasks[i], i);
      }
    } else if s.queue != [] {
      step := Receive;
    } else {
      var i :| 0 <= i < |s.tasks| && !Over(s.tasks[i]);
      step := OwnStep(s.tasks[i], i);
    }
  }

  /** Hence a pool that cannot move is at rest. */
  lemma OnlyRestIsFinal(s: State)
    requires Slots(s) && s.maxSize > 0
    requires forall step :: Enabled(s, step) ==> step.Register?
    ensures Quiescent(s)
  {
    if !Quiescent(s) {
      var step := SomeStepIsEnabled(s);
      assert false;
    }
  }

  /** A scheduler picks some enabled step of the pool as long as there is one; it may look at everything done so far. */
  ghost predicate IsScheduler(pick: (seq<Step>, State) -> Step) {
    forall past, s :: Inv(s) && s.maxSize > 0 && !Quiescent(s) ==> Enabled(s, pick(past, s)) && !pick(past, s).Register?
  }

  /** Under every scheduler, without fairness, the pool comes to rest after finitely many steps of its own. */
  lemma {:induction false} EveryScheduleEnds(s: State, past: seq<Step>, pick: (seq<Step>, State) -> Step)
    returns (steps: seq<Step>, t: State)
    requires Inv(s) && s.maxSize > 0 && IsScheduler(pick)
    ensures Runs(s, steps, t) && Inv(t) && Quiescent(t) && OwnSteps(steps) == |steps|
    decreases Measure(s)
  {
    if Quiescent(s) {
      steps, t := [], s;
    } else {
      var step := pick(past, s);
      StepKeepsInv(s, step);
      StepDecreases(s, step);
      SizeStays(s, [step], Next(s, step)) by { OneStepRuns(s, step); }
      var rest;
      rest, t := EveryScheduleEnds(Next(s, step), past + [step], pick);
      steps := [step] + rest;
      assert steps[1..] == rest;
    }
  }

  // ---------------------------------------------------------------- at rest

  lemma {:induction false} NothingOwed(tasks: seq<Task>, k: Kind)
    requires forall i :: 0 <= i < |tasks| ==> Over(tasks[i])
    ensures Count(k, tasks) == 0
    decreases |tasks|
  {
    if tasks != [] {
      NothingOwed(tasks[..|tasks| - 1], k);
    }
  }

  /** At rest a plan whose jobs are accounted for is complete. */
  lemma RestMeansPlanComplete(s: State, x: string)
    requires Quiescent(s) && x in s.registry.plans && PlanOk(s.registry, x)
    requires forall j: Job :: OfPrefix(j.batch, x) ==> Level(s, ToRecord, j) == Due(s.registry, j) + s.registry.archived[j]
    ensures s.registry.front[x] == |s.registry.plans[x]|
  {
    var r := s.registry;
    var k := r.front[x];
    if k < |r.plans[x]| {
      var b := Tier(x, k);
      assert TierStatus(r, b);
      var tier := multiset(r.plans[x][k]);
      forall j | j in tier
        ensures tier[j] <= r.recorded[b][j]
      {
        assert j in r.plans[x][k] && IsTiering(x, r.plans[x]);
        NothingOwed(s.tasks, Owes(ToRecord, j));
        assert Level(s, ToRecord, j) == Due(r, j) + r.archived[j];
      }
      FullSubset(tier, r.recorded[b]);
      assert false;
    }
  }

  /** At rest every plan is complete. */
  lemma RestMeansComplete(s: State, x: string)
    requires Inv(s) && Quiescent(s) && x in s.registry.plans
    ensures s.registry.front[x] == |s.registry.plans[x]|
  {
    assert PlanOk(s.registry, x);
    RestMeansPlanComplete(s, x);
  }

  /** A complete plan has everything due. */
  lemma CompleteMeansKnown(r: Registry, j: Job)
    requires Registered(r, j.batch) ==> r.front[j.batch.prefix] == |r.plans[j.batch.prefix]|
    requires r.front.Keys == r.plans.Keys
    ensures Due(r, j) + r.archived[j] == Known(r, j)
  {
  }

  /** At rest every job has started, and has returned, exactly as often as the plans so far list it. */
  lemma RestMeansExactlyOnce(s: State, j: Job)
    requires Inv(s) && Quiescent(s)
    ensures s.started[j] == s.returned[j] == Known(s.registry, j)
  {
    NothingOwed(s.tasks, Owes(ToStart, j));
    NothingOwed(s.tasks, Owes(ToReturn, j));
    assert Level(s, ToStart, j) == Level(s, ToReturn, j) == Due(s.registry, j) + s.registry.archived[j];
    if Registered(s.registry, j.batch) {
      RestMeansComplete(s, j.batch.prefix);
    }
    CompleteMeansKnown(s.registry, j);
  }

  /** Every run that ends at rest has started each job, and seen it return, exactly as often as it was registered. */
  lemma RunToRestRunsEachJobOnce(maxSize: nat, steps: seq<Step>, t: State, j: Job)
    requires Runs(Initial(maxSize), steps, t) && Quiescent(t)
    ensures t.started[j] == t.returned[j] == RegisteredJobs(steps)[j]
  {
    var s := Initial(maxSize);
    NothingAtFirst(maxSize, j.batch);
    RunKeepsInv(s, steps, t);
    RunKnows(s, steps, t, j);
    RestMeansExactlyOnce(t, j);
  }

  /** At rest each plan so far has announced its completion exactly once, and nothing else has been announced. */
  lemma RestMeansAnnouncedOnce(s: State, b: BatchId)
    requires Inv(s) && Quiescent(s)
    ensures multiset(s.events)[b] == KnownLast(s.registry, b)
  {
    NothingOwed(s.tasks, Announces(b));
    assert Heralds(s, b) == s.registry.closed[b] + (if Finished(s.registry, b) then 1 else 0);
    if Registered(s.registry, b) {
      RestMeansComplete(s, b.prefix);
    }
  }

  /** Every run that ends at rest has announced each registered plan exactly once. */
  lemma RunToRestAnnouncesEachPlanOnce(maxSize: nat, steps: seq<Step>, t: State, b: BatchId)
    requires Runs(Initial(maxSize), steps, t) && Quiescent(t)
    ensures multiset(t.events)[b] == LastBatches(steps)[b]
  {
    NothingAtFirst(maxSize, b);
    RunKeepsInv(Initial(maxSize), steps, t);
    RunKnowsLast(Initial(maxSize), steps, t, b);
    RestMeansAnnouncedOnce(t, b);
  }

  lemma RestMeansIdle(s: State)
    requires Inv(s) && Quiescent(s)
    ensures s.permits == s.maxSize && s.activeCount == 0 && s.queuedCount == 0 && s.runners == map[]
  {
    NothingOwed(s.tasks, Slot);
    NothingOwed(s.tasks, Active);
  }

  // ---------------------------------------------------------------- a free prefix

  predicate NoneRegisters(steps: seq<Step>, prefix: string) {
    forall step :: step in steps && step.Register? ==> step.prefix != prefix
  }

  /** Where a prefix is free, its jobs have all started and returned. */
  lemma FreeMeansRun(s: State, prefix: string, j: Job)
    requires Inv(s) && Free(s.registry, prefix) && OfPrefix(j.batch, prefix)
    ensures s.started[j] == s.returned[j] == Known(s.registry, j)
  {
    FreeMeansRecorded(s.registry, prefix, j);
    assert Level(s, ToStart, j) == Level(s, ToReturn, j) == Level(s, ToRecord, j) == Known(s.registry, j);
    EarlierAspects(s.tasks, j);
  }

  /** Where a prefix is free, what its plans have to announce has been announced or is being announced. */
  lemma FreeMeansAnnounced(s: State, prefix: string, b: BatchId)
    requires Inv(s) && Free(s.registry, prefix) && OfPrefix(b, prefix)
    ensures Heralds(s, b) == KnownLast(s.registry, b)
  {
    FreeMeansFinished(s.registry, prefix, b);
  }

  // ---------------------------------------------------------------- the bound on the pool size

  /** A pool built with `max_size` 0 never runs anything: progress needs at least one slot. */
  lemma {:induction false} NoSlotsNoProgress(s: State, steps: seq<Step>, t: State)
    requires s.maxSize == s.permits == 0 && s.tasks == [] && Runs(s, steps, t)
    ensures t.maxSize == t.permits == 0 && t.tasks == []
    ensures t.started == s.started && t.events == s.events
    decreases |steps|
  {
    if steps != [] {
      NoSlotsNoProgress(Next(s, steps[0]), steps[1..], t);
    }
  }
}
