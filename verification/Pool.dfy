/** The pool and its batch coordinator as objects (src/graphclaw/agent/sub_agent_pool.py). Every method carries out one
    stretch of code between two suspension points, in place, and is proved to be the step of that name of the protocol,
    so everything proved about the protocol's runs holds of these objects. */
module Pool {
  import opened Options
  import opened Jobs
  import opened PoolProgress
  import opened PoolProtocol
  import opened PoolSafety

  // ---------------------------------------------------------------- _BatchState

  class BatchState {
    const total: nat
    const current: seq<Job>
    const next: seq<Job>
    const final: bool
    var completed: nat

    constructor (total: nat, current: seq<Job>, next: seq<Job>, final: bool)
      ensures View() == Batch(total, current, next, final, 0)
    {
      this.total, this.current, this.next, this.final := total, current, next, final;
      completed := 0;
    }

    function View(): Batch
      reads this
    {
      Batch(total, current, next, final, completed)
    }
  }

  // ---------------------------------------------------------------- BatchCoordinator

  /** The entries `register_dispatch_plan` makes for the first `n` tiers, over what was registered before. */
  function RegisterFirst(batches: map<BatchId, Batch>, tiers: seq<seq<Job>>, n: nat): map<BatchId, Batch>
    requires n <= |tiers|
  {
    if n == 0 then batches
    else if tiers[n - 1] == [] then RegisterFirst(batches, tiers, n - 1)
    else RegisterFirst(batches, tiers, n - 1)[tiers[n - 1][0].batch := TierBatch(tiers, n - 1)]
  }

  class BatchCoordinator {
    var batches: map<BatchId, BatchState>
    ghost var entries: map<BatchId, Batch>  // what the states of `batches` hold

    ghost predicate Valid()
      reads this, batches.Values
    {
      && batches.Keys == entries.Keys
      && (forall b :: b in batches ==> batches[b].View() == entries[b])
      && (forall a, b :: a in batches && b in batches && a != b ==> batches[a] != batches[b])
    }

    ghost function View(): map<BatchId, Batch>
      reads this
    {
      entries
    }

    constructor ()
      ensures Valid() && View() == map[] && batches == map[]
    {
      batches, entries := map[], map[];
    }

    method RegisterBatch(batchId: BatchId, count: nat, current: seq<Job>, next: seq<Job>, final: bool)
      requires Valid()
      modifies this
      ensures Valid() && fresh(batches.Values - old(batches.Values))
      ensures View() == old(View())[batchId := Batch(count, current, next, final, 0)]
    {
      var state := new BatchState(count, current, next, final);
      batches, entries := batches[batchId := state], entries[batchId := state.View()];
    }

    /** `record_completion` up to the point where it may suspend to publish; `pc` is where the runner continues. */
    method RecordCompletion(batchId: BatchId) returns (pc: Pc)
      requires Valid()
      modifies this`entries, batches.Values
      ensures Valid() && View() == Counted(old(View()), batchId) && pc == Following(old(View()), batchId)
    {
      if batchId !in batches {
        return Publishing([]);
      }
      var batch := batches[batchId];
      batch.completed := batch.completed + 1;
      entries := entries[batchId := batch.View()];
      if batch.completed < batch.total {
        return Publishing([]);
      }
      if batch.final {
        return Announcing(batchId, batch.next);
      }
      return Publishing(batch.next);
    }

    /** `register_dispatch_plan` */
    method RegisterDispatchPlan(tiers: seq<seq<Job>>)
      requires Valid()
      modifies this
      ensures Valid() && fresh(batches.Values - old(batches.Values))
      ensures View() == RegisterFirst(old(View()), tiers, |tiers|)
    {
      for i := 0 to |tiers|
        invariant Valid() && fresh(batches.Values - old(batches.Values))
        invariant View() == RegisterFirst(old(View()), tiers, i)
      {
        var tierJobs := tiers[i];
        if tierJobs != [] {
          var isFinal := i == |tiers| - 1;
          var nextTier := if !isFinal then tiers[i + 1] else [];
          RegisterBatch(tierJobs[0].batch, |tierJobs|, tierJobs, nextTier, isFinal);
        }
      }
    }
  }

  lemma TierEntriesGrow(prefix: string, tiers: seq<seq<Job>>, n: nat)
    requires 0 < n <= |tiers|
    ensures TierEntries(prefix, tiers, n)
            == TierEntries(prefix, tiers, n - 1)[Tier(prefix, n - 1) := TierBatch(tiers, n - 1)]
  {
  }

  lemma PlusUpdate<K, V>(m: map<K, V>, a: map<K, V>, k: K, v: V)
    ensures (m + a)[k := v] == m + a[k := v]
  {
  }

  /** A fresh entry of tier `i`: its own jobs, and the next tier's unless it is the last. */
  predicate IsEntryOf(entry: Batch, tiers: seq<seq<Job>>, i: nat)
    requires i < |tiers|
  {
    && entry.current == tiers[i] && entry.total == |tiers[i]| && entry.completed == 0
    && (if i + 1 < |tiers| then !entry.final && entry.next == tiers[i + 1] else entry.final && entry.next == [])
  }

  /** Registering planner output makes exactly the entries of the protocol's registration step. */
  lemma {:induction false} RegisterFirstOfTiering(batches: map<BatchId, Batch>, prefix: string, tiers: seq<seq<Job>>, n: nat)
    requires IsTiering(prefix, tiers) && n <= |tiers|
    ensures RegisterFirst(batches, tiers, n) == batches + TierEntries(prefix, tiers, n)
  {
    if n > 0 {
      RegisterFirstOfTiering(batches, prefix, tiers, n - 1);
      assert tiers[n - 1][0] in tiers[n - 1];
      TierEntriesGrow(prefix, tiers, n);
      PlusUpdate(batches, TierEntries(prefix, tiers, n - 1), Tier(prefix, n - 1), TierBatch(tiers, n - 1));
    } else {
      assert TierEntries(prefix, tiers, 0) == map[];
    }
  }

  /** A registered plan has one entry for each tier, and what was registered before under other ids stays. */
  lemma RegisteredTiers(batches: map<BatchId, Batch>, prefix: string, tiers: seq<seq<Job>>)
    requires IsTiering(prefix, tiers)
    ensures var registered := RegisterFirst(batches, tiers, |tiers|);
            && (forall i :: 0 <= i < |tiers| ==>
                  Tier(prefix, i) in registered && IsEntryOf(registered[Tier(prefix, i)], tiers, i))
            && forall b: BatchId :: !(b.Tier? && b.prefix == prefix && b.index < |tiers|) ==>
                 (b in registered <==> b in batches) && (b in batches ==> registered[b] == batches[b])
  {
    RegisterFirstOfTiering(batches, prefix, tiers, |tiers|);
  }

  lemma RegisteredEntries(r: Registry, prefix: string, tiers: seq<seq<Job>>, n: Registry)
    requires IsTiering(prefix, tiers) && n == AfterRegister(r, prefix, tiers)
    ensures RegisterFirst(r.batches, tiers, |tiers|) == n.batches
  {
    RegisterFirstOfTiering(r.batches, prefix, tiers, |tiers|);
  }

  // ---------------------------------------------------------------- SubAgentPool

  class SubAgentPool {
    const maxSize: nat
    const coordinator: BatchCoordinator
    var permits: nat                // the semaphore's value
    var outbox: seq<Job>            // first-tier jobs the caller of the planner still publishes
    var queue: seq<Job>             // AGENT_JOBS
    var waiting: Option<Job>        // the consumer's local `job` while it waits for a slot
    var tasks: seq<Task>            // the coroutines of `_run_job` and where each is suspended
    var activeRunners: map<nat, Job>
    var runnerCounter: nat
    var queuedCount: int
    var activeCount: int
    var triggerEvents: seq<BatchId>
    ghost var registry: Registry    // the coordinator's batches, with the history the protocol keeps of them
    ghost var started: multiset<Job>
    ghost var returned: multiset<Job>

    ghost predicate Valid()
      reads `registry, coordinator, coordinator.batches.Values
    {
      coordinator.Valid() && registry.batches == coordinator.View()
    }

    /** The state of the protocol this pool is in. */
    ghost function View(): State
      reads this
    {
      State(maxSize, permits, outbox, queue, waiting, tasks, activeRunners, runnerCounter, queuedCount, activeCount,
            registry, triggerEvents, started, returned)
    }

    constructor (maxSize: nat)
      ensures Valid() && View() == Initial(maxSize)
    {
      this.maxSize, permits := maxSize, maxSize;
      coordinator := new BatchCoordinator();
      outbox, queue, waiting, tasks, activeRunners := [], [], None, [], map[];
      runnerCounter, queuedCount, activeCount, triggerEvents := 0, 0, 0, [];
      registry, started, returned := EMPTY, multiset{}, multiset{};
    }

    /** `register_dispatch_plan` for planner output, after which the first tier is left to publish. */
    method Register(ghost prefix: string, tiers: seq<seq<Job>>)
      requires Valid() && Free(registry, prefix) && IsTiering(prefix, tiers)
      modifies `outbox, `registry, coordinator
      ensures Valid() && View() == Registering(old(View()), prefix, tiers)
      ensures fresh(coordinator.batches.Values - old(coordinator.batches.Values))
    {
      RegisterTiers(prefix, tiers);
      outbox := outbox + tiers[0];
    }

    method RegisterTiers(ghost prefix: string, tiers: seq<seq<Job>>)
      requires Valid() && IsTiering(prefix, tiers)
      modifies this`registry, coordinator
      ensures Valid() && registry == AfterRegister(old(registry), prefix, tiers)
      ensures fresh(coordinator.batches.Values - old(coordinator.batches.Values))
    {
      ghost var n := AfterRegister(registry, prefix, tiers);
      RegisteredEntries(registry, prefix, tiers, n);
      Enter(tiers, n);
    }

    /** The coordinator makes its entries; `n` is the registry that has them. */
    method Enter(tiers: seq<seq<Job>>, ghost n: Registry)
      requires Valid() && RegisterFirst(registry.batches, tiers, |tiers|) == n.batches
      modifies this`registry, coordinator
      ensures Valid() && registry == n
      ensures fresh(coordinator.batches.Values - old(coordinator.batches.Values))
    {
      coordinator.RegisterDispatchPlan(tiers);
      registry := n;
    }

    method Deliver()
      requires Valid() && outbox != []
      modifies this
      ensures Valid() && View() == Delivering(old(View()))
    {
      outbox, queue := outbox[1..], queue + [outbox[0]];
    }

    /** `_consume_loop`: a message arrives and the consumer goes to wait for a slot. */
    method Receive()
      requires Valid() && waiting.None? && queue != []
      modifies this
      ensures Valid() && View() == Receiving(old(View()))
    {
      var job := queue[0];
      queue := queue[1..];
      queuedCount := queuedCount + 1;
      waiting := Some(job);
    }

    /** `_consume_loop`: the semaphore is acquired and the runner's coroutine created. */
    method Acquire()
      requires Valid() && waiting.Some? && permits > 0
      modifies this
      ensures Valid() && View() == Acquiring(old(View()))
    {
      permits := permits - 1;
      queuedCount := Floor(queuedCount - 1);
      tasks := tasks + [Task(waiting.value, Spawned)];
      waiting := None;
    }

    /** `_run_job` up to `await runner.execute(job)` */
    method Start(i: nat)
      requires Valid() && i < |tasks| && tasks[i].pc.Spawned?
      modifies this
      ensures Valid() && View() == Starting(old(View()), i)
    {
      var job, runnerId := tasks[i].job, runnerCounter;
      runnerCounter := runnerCounter + 1;
      activeRunners := activeRunners[runnerId := job];
      activeCount := activeCount + 1;
      started := started + multiset{job};
      tasks := tasks[i := tasks[i].(pc := Running(runnerId))];
    }

    /** `_run_job`: `execute` returned or raised; count down, forget the runner, release the slot. */
    method Return(i: nat)
      requires Valid() && i < |tasks| && tasks[i].pc.Running?
      modifies this
      ensures Valid() && View() == Returning(old(View()), i)
    {
      var job, runnerId := tasks[i].job, tasks[i].pc.runner;
      activeCount := Floor(activeCount - 1);
      activeRunners := activeRunners - {runnerId};
      permits := permits + 1;
      returned := returned + multiset{job};
      tasks := tasks[i := tasks[i].(pc := Returned)];
    }

    method MoveTo(i: nat, pc: Pc)
      requires i < |tasks|
      modifies `tasks
      ensures tasks == AtPc(old(View()), i, pc)
    {
      tasks := tasks[i := tasks[i].(pc := pc)];
    }

    method Complete(job: Job) returns (pc: Pc)
      requires Valid()
      modifies this`registry, coordinator`entries, coordinator.batches.Values
      ensures Valid() && registry == AfterRecord(old(registry), job) && pc == Continuation(old(registry), job.batch)
    {
      pc := coordinator.RecordCompletion(job.batch);
      registry := AfterRecord(registry, job);
    }

    /** `_run_job`: `record_completion` of the job's batch. */
    method Record(i: nat)
      requires Valid() && i < |tasks| && tasks[i].pc.Returned?
      modifies `tasks, `registry, coordinator`entries, coordinator.batches.Values
      ensures Valid() && View() == Recording(old(View()), i)
    {
      var pc := Complete(tasks[i].job);
      MoveTo(i, pc);
    }

    /** `_publish_delegation_complete` */
    method Announce(i: nat)
      requires Valid() && i < |tasks| && tasks[i].pc.Announcing?
      modifies this
      ensures Valid() && View() == AnnouncingOne(old(View()), i)
    {
      triggerEvents := triggerEvents + [tasks[i].pc.batch];
      tasks := tasks[i := tasks[i].(pc := Publishing(tasks[i].pc.after))];
    }

    /** `_run_job`: publish one job of the next tier. */
    method Publish(i: nat)
      requires Valid() && i < |tasks| && tasks[i].pc.Publishing? && tasks[i].pc.rest != []
      modifies this
      ensures Valid() && View() == PublishingOne(old(View()), i)
    {
      var rest := tasks[i].pc.rest;
      queue := queue + [rest[0]];
      tasks := tasks[i := tasks[i].(pc := Publishing(rest[1..]))];
    }

    /** The next stretch of the coroutine `i`, wherever it is suspended. */
    method Resume(i: nat)
      requires Valid() && i < |tasks| && !Over(tasks[i])
      modifies this, coordinator`entries, coordinator.batches.Values
      ensures Valid() && View() == Next(old(View()), OwnStep(old(tasks[i]), i))
    {
      match tasks[i].pc
      case Spawned => Start(i);
      case Running(_) => Return(i);
      case Returned => Record(i);
      case Announcing(_, _) => Announce(i);
      case Publishing(_) => Publish(i);
    }

    predicate QueueCanMove()
      reads this
    {
      outbox != [] || (waiting.None? && queue != []) || (waiting.Some? && permits > 0)
    }

    /** A step of the publisher or the consumer. */
    method MoveQueue() returns (ghost step: Step)
      requires Valid() && QueueCanMove()
      modifies this
      ensures step == Step.Deliver || step == Step.Receive || step == Step.Acquire
      ensures Enabled(old(View()), step) && Valid() && View() == Next(old(View()), step)
    {
      if {
        case outbox != [] =>
          step := Step.Deliver;
          Deliver();
        case waiting.None? && queue != [] =>
          step := Step.Receive;
          Receive();
        case waiting.Some? && permits > 0 =>
          step := Step.Acquire;
          Acquire();
      }
    }

    /** Some step, any one that can be taken. */
    method TakeStep() returns (ghost step: Step)
      requires Valid() && (QueueCanMove() || exists i :: 0 <= i < |tasks| && !Over(tasks[i]))
      modifies this, coordinator`entries, coordinator.batches.Values
      ensures !step.Register? && Enabled(old(View()), step)
      ensures Valid() && View() == Next(old(View()), step)
    {
      if {
        case QueueCanMove() =>
          step := MoveQueue();
        case exists i :: 0 <= i < |tasks| && !Over(tasks[i]) =>
          var i :| 0 <= i < |tasks| && !Over(tasks[i]);
          step := OwnStep(tasks[i], i);
          Resume(i);
      }
    }

    /** A pool with a slot that is not at rest has something to do. */
    lemma SomethingToDo()
      requires Slots(View()) && maxSize > 0 && !Quiescent(View())
      ensures QueueCanMove() || exists i :: 0 <= i < |tasks| && !Over(tasks[i])
    {
      if !QueueCanMove() && outbox == [] && waiting.Some? {
        var i := SlotHolder(tasks);
        assert !Over(tasks[i]);
      }
    }

    method AtRest() returns (rest: bool)
      ensures rest == Quiescent(View())
    {
      rest := outbox == [] && queue == [] && waiting.None? && forall i :: 0 <= i < |tasks| ==> Over(tasks[i]);
    }

    /** One step towards rest. */
    method StepOn()
      requires Valid() && Reachable(View()) && maxSize > 0 && !Quiescent(View())
      modifies this, coordinator`entries, coordinator.batches.Values
      ensures Valid() && Reachable(View()) && Measure(View()) < Measure(old(View()))
      ensures registry.plans == old(registry.plans) && registry.archived == old(registry.archived)
    {
      ghost var before := View();
      ReachableInv(before);
      SomethingToDo();
      ghost var step := TakeStep();
      StepTaken(before, step);
    }

    /** Steps in any order, until there is none to take. */
    method RunSteps()
      requires Valid() && Reachable(View()) && maxSize > 0
      modifies this, coordinator`entries, coordinator.batches.Values
      ensures Valid() && Reachable(View()) && Quiescent(View())
      ensures registry.plans == old(registry.plans) && registry.archived == old(registry.archived)
    {
      var rest := AtRest();
      while !rest
        invariant Valid() && Reachable(View()) && rest == Quiescent(View())
        invariant coordinator.batches == old(coordinator.batches)
        invariant registry.plans == old(registry.plans) && registry.archived == old(registry.archived)
        decreases Measure(View())
      {
        StepOn();
        rest := AtRest();
      }
    }

    /** The pool comes to rest, having started every job, and seen it return, as often as the plans so far list it. */
    method RunToRest()
      requires Valid() && Reachable(View()) && maxSize > 0
      modifies this, coordinator`entries, coordinator.batches.Values
      ensures Valid() && Reachable(View()) && Quiescent(View())
      ensures registry.plans == old(registry.plans) && registry.archived == old(registry.archived)
      ensures forall j :: started[j] == returned[j] == Known(registry, j)
    {
      RunSteps();
      ReachableInv(View());
      forall j
        ensures started[j] == returned[j] == Known(registry, j)
      {
        RestMeansExactlyOnce(View(), j);
      }
    }
  }

  lemma StepTaken(s: State, step: Step)
    requires Reachable(s) && Enabled(s, step) && !step.Register?
    ensures Reachable(Next(s, step)) && Inv(Next(s, step)) && Measure(Next(s, step)) < Measure(s)
    ensures Next(s, step).registry.plans == s.registry.plans && Next(s, step).registry.archived == s.registry.archived
  {
    ReachableInv(s);
    StepKeepsInv(s, step);
    StepDecreases(s, step);
    OnlyRegisterAddsPlans(s, step);
    ReachableStep(s, step);
  }
}
