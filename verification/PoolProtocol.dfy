/** The protocol of consumer, runners and batch coordinator (src/graphclaw/agent/sub_agent_pool.py), as a
    state machine whose steps are the stretches of code between two suspension points. Any number of
    delegation plans run at once. */
module PoolProtocol {
  import opened Jobs
  import opened Options
  import opened Sequences

  // ---------------------------------------------------------------- state

  /** The plan registered under each session prefix. */
  type Plans = map<string, seq<seq<Job>>>

  /** `_BatchState` */
  datatype Batch = Batch(total: nat, current: seq<Job>, next: seq<Job>, final: bool, completed: nat)

  /** The coordinator's `_batches`, and as history: the latest plan registered under each session prefix, the number of
      its tiers completed so far, the jobs recorded for each of its batches, and the jobs and last batches of the plans
      that were registered under the same prefixes before. */
  datatype Registry = Registry(
    batches: map<BatchId, Batch>,
    plans: Plans,
    front: map<string, nat>,
    recorded: map<BatchId, multiset<Job>>,
    archived: multiset<Job>,
    closed: multiset<BatchId>)

  const EMPTY := Registry(map[], map[], map[], map[], multiset{}, multiset{})

  /** Where a coroutine of `_run_job` is suspended. */
  datatype Pc =
    | Spawned                                   // created by the consumer, not yet run
    | Running(runner: nat)                      // inside `runner.execute`
    | Returned                                  // slot released, completion not yet recorded
    | Announcing(batch: BatchId, after: seq<Job>) // publishing DELEGATION_COMPLETE
    | Publishing(rest: seq<Job>)                // publishing the next tier; over once `rest` is empty

  datatype Task = Task(job: Job, pc: Pc)

  datatype State = State(
    maxSize: nat,
    permits: nat,                      // free slots of the semaphore
    outbox: seq<Job>,                  // first-tier jobs the environment still has to publish
    queue: seq<Job>,                   // AGENT_JOBS
    waiting: Option<Job>,              // the job the consumer holds while it waits for a slot
    tasks: seq<Task>,
    runners: map<nat, Job>,            // _active_runners
    runnerCounter: nat,
    queuedCount: int,
    activeCount: int,
    registry: Registry,
    events: seq<BatchId>,              // DELEGATION_COMPLETE on TRIGGER_EVENTS
    started: multiset<Job>,            // history: runs begun
    returned: multiset<Job>)           // history: runs returned or raised

  function Initial(maxSize: nat): State {
    State(maxSize, maxSize, [], [], None, [], map[], 0, 0, 0, EMPTY, [],
          multiset{}, multiset{})
  }

  // ---------------------------------------------------------------- the batch coordinator

  /** Planner output: non-empty tiers, each job under the batch id of its own tier. */
  ghost predicate IsTiering(prefix: string, tiers: seq<seq<Job>>) {
    && tiers != []
    && (forall i :: 0 <= i < |tiers| ==> tiers[i] != [])
    && (forall i, j :: 0 <= i < |tiers| && j in tiers[i] ==> j.batch == Tier(prefix, i))
  }

  /** The entry `register_dispatch_plan` makes for tier `i`. */
  function TierBatch(tiers: seq<seq<Job>>, i: nat): Batch
    requires i < |tiers|
  {
    var final := i == |tiers| - 1;
    Batch(|tiers[i]|, tiers[i], if final then [] else tiers[i + 1], final, 0)
  }

  function TierEntries(prefix: string, tiers: seq<seq<Job>>, n: nat): map<BatchId, Batch>
    requires n <= |tiers|
  {
    map i | 0 <= i < n :: Tier(prefix, i) := TierBatch(tiers, i)
  }

  function PlanOf(r: Registry, prefix: string): seq<seq<Job>> {
    if prefix in r.plans then r.plans[prefix] else []
  }

  predicate OfPrefix(b: BatchId, prefix: string) {
    b.Tier? && b.prefix == prefix
  }

  /** A prefix may be used again once every tier of its latest plan is complete. */
  predicate Free(r: Registry, prefix: string) {
    prefix in r.plans ==> prefix in r.front && r.front[prefix] == |r.plans[prefix]|
  }

  /** Entries of the earlier plan are overwritten tier by tier; those of further tiers stay behind. */
  function AfterRegister(r: Registry, prefix: string, tiers: seq<seq<Job>>): Registry {
    var earlier := PlanOf(r, prefix);
    Registry(r.batches + TierEntries(prefix, tiers, |tiers|),
             r.plans[prefix := tiers],
             r.front[prefix := 0],
             (map b | b in r.recorded && !OfPrefix(b, prefix) :: r.recorded[b])
             + (map i | 0 <= i < |tiers| :: Tier(prefix, i) := multiset{}),
             r.archived + multiset(Concat(earlier)),
             r.closed + (if earlier == [] then multiset{} else multiset{Tier(prefix, |earlier| - 1)}))
  }

  /** One completion counted for batch `b`; an unknown batch counts for nothing. */
  function Counted(batches: map<BatchId, Batch>, b: BatchId): map<BatchId, Batch> {
    if b in batches then batches[b := batches[b].(completed := batches[b].completed + 1)] else batches
  }

  /** Where a runner goes from there. */
  function Following(batches: map<BatchId, Batch>, b: BatchId): Pc {
    if b !in batches then Publishing([])
    else if batches[b].completed + 1 < batches[b].total then Publishing([])
    else if batches[b].final then Announcing(b, batches[b].next)
    else Publishing(batches[b].next)
  }

  /** One completion of the batch of `j`: count it, and on the last one move the plan's frontier. */
  function AfterRecord(r: Registry, j: Job): Registry {
    var b := j.batch;
    if b !in r.batches then r
    else
      var counted := r.batches[b].completed + 1;
      r.(batches := Counted(r.batches, b),
         front := if b.Tier? && counted >= r.batches[b].total then r.front[b.prefix := b.index + 1] else r.front,
         recorded := r.recorded[b := (if b in r.recorded then r.recorded[b] else multiset{}) + multiset{j}])
  }

  function Continuation(r: Registry, b: BatchId): Pc { Following(r.batches, b) }

  // ---------------------------------------------------------------- steps

  datatype Step =
    | Register(prefix: string, tiers: seq<seq<Job>>)  // register_dispatch_plan, with tier 0 left to publish
    | Deliver                                         // the environment publishes a first-tier job
    | Receive                                         // the consumer takes a message
    | Acquire                                         // the consumer gets a slot and spawns a runner
    | Start(i: nat)
    | Return(i: nat)                                  // the runner returned or raised
    | Record(i: nat)                                  // record_completion up to its suspension point
    | Announce(i: nat)
    | Publish(i: nat)

  ghost predicate Enabled(s: State, step: Step) {
    match step
    case Register(prefix, tiers) => Free(s.registry, prefix) && IsTiering(prefix, tiers)
    case Deliver => s.outbox != []
    case Receive => s.waiting.None? && s.queue != []
    case Acquire => s.waiting.Some? && s.permits > 0
    case Start(i) => i < |s.tasks| && s.tasks[i].pc.Spawned?
    case Return(i) => i < |s.tasks| && s.tasks[i].pc.Running?
    case Record(i) => i < |s.tasks| && s.tasks[i].pc.Returned?
    case Announce(i) => i < |s.tasks| && s.tasks[i].pc.Announcing?
    case Publish(i) => i < |s.tasks| && s.tasks[i].pc.Publishing? && s.tasks[i].pc.rest != []
  }

  function Floor(n: int): int { if n < 0 then 0 else n }

  function AtPc(s: State, i: nat, pc: Pc): seq<Task>
    requires i < |s.tasks|
  {
    s.tasks[i := s.tasks[i].(pc := pc)]
  }

  ghost function Next(s: State, step: Step): State
    requires Enabled(s, step)
  {
    match step
    case Register(prefix, tiers) => Registering(s, prefix, tiers)
    case Deliver => Delivering(s)
    case Receive => Receiving(s)
    case Acquire => Acquiring(s)
    case Start(i) => Starting(s, i)
    case Return(i) => Returning(s, i)
    case Record(i) => Recording(s, i)
    case Announce(i) => AnnouncingOne(s, i)
    case Publish(i) => PublishingOne(s, i)
  }

  function Registering(s: State, prefix: string, tiers: seq<seq<Job>>): State
    requires tiers != []
  {
    s.(registry := AfterRegister(s.registry, prefix, tiers), outbox := s.outbox + tiers[0])
  }

  function Delivering(s: State): State
    requires s.outbox != []
  {
    s.(outbox := s.outbox[1..], queue := s.queue + [s.outbox[0]])
  }

  function Receiving(s: State): State
    requires s.queue != []
  {
    s.(queue := s.queue[1..], waiting := Some(s.queue[0]), queuedCount := s.queuedCount + 1)
  }

  function Acquiring(s: State): State
    requires s.waiting.Some? && s.permits > 0
  {
    s.(permits := s.permits - 1, queuedCount := Floor(s.queuedCount - 1), waiting := None,
       tasks := s.tasks + [Task(s.waiting.value, Spawned)])
  }

  function Starting(s: State, i: nat): State
    requires i < |s.tasks|
  {
    var j := s.tasks[i].job;
    s.(tasks := AtPc(s, i, Running(s.runnerCounter)), runners := s.runners[s.runnerCounter := j],
       runnerCounter := s.runnerCounter + 1, activeCount := s.activeCount + 1, started := s.started + multiset{j})
  }

  function Returning(s: State, i: nat): State
    requires i < |s.tasks| && s.tasks[i].pc.Running?
  {
    s.(tasks := AtPc(s, i, Returned), runners := s.runners - {s.tasks[i].pc.runner}, permits := s.permits + 1,
       activeCount := Floor(s.activeCount - 1), returned := s.returned + multiset{s.tasks[i].job})
  }

  function Recording(s: State, i: nat): State
    requires i < |s.tasks|
  {
    var j := s.tasks[i].job;
    s.(tasks := AtPc(s, i, Continuation(s.registry, j.batch)), registry := AfterRecord(s.registry, j))
  }

  function AnnouncingOne(s: State, i: nat): State
    requires i < |s.tasks| && s.tasks[i].pc.Announcing?
  {
    s.(tasks := AtPc(s, i, Publishing(s.tasks[i].pc.after)), events := s.events + [s.tasks[i].pc.batch])
  }

  function PublishingOne(s: State, i: nat): State
    requires i < |s.tasks| && s.tasks[i].pc.Publishing? && s.tasks[i].pc.rest != []
  {
    var rest := s.tasks[i].pc.rest;
    s.(tasks := AtPc(s, i, Publishing(rest[1..])), queue := s.queue + [rest[0]])
  }

  // ---------------------------------------------------------------- counting over coroutines

  datatype Aspect = ToStart | ToReturn | ToRecord

  /** What is counted. */
  datatype Kind =
    | Slot                            // holders of a semaphore slot
    | Active                          // runners inside `execute`
    | Announces(batch: BatchId)       // publishers of this DELEGATION_COMPLETE
    | Owes(aspect: Aspect, job: Job)  // copies of a job still to be started, returned from, or recorded
    | Effort                          // steps a coroutine may still take
    | Toil(plans: Plans)  // the same when completions beyond a tier's last release the next again

  /** Copies of `job` the coroutine still has to bring past the point; a tier it publishes counts for all points. */
  function Owed(a: Aspect, job: Job, t: Task): nat {
    match t.pc
    case Spawned => if t.job == job then 1 else 0
    case Running(_) => if t.job == job && !a.ToStart? then 1 else 0
    case Returned => if t.job == job && a.ToRecord? then 1 else 0
    case Announcing(_, after) => multiset(after)[job]
    case Publishing(rest) => multiset(rest)[job]
  }

  function EffortOf(pc: Pc): nat {
    match pc
    case Spawned => 5
    case Running(_) => 4
    case Returned => 3
    case Announcing(_, after) => 1 + 8 * |after|
    case Publishing(rest) => 8 * |rest|
  }

  /** Steps that recording a job of tier `i` may lead to, if every recording releases the next tier. */
  function ReturnedCost(tiers: seq<seq<Job>>, i: nat): nat
    decreases |tiers| - i
  {
    if i + 1 >= |tiers| then 2 else 2 + |tiers[i + 1]| * (ReturnedCost(tiers, i + 1) + 5)
  }

  function JobCost(plans: Plans, j: Job): nat {
    if j.batch.Tier? && j.batch.prefix in plans then ReturnedCost(plans[j.batch.prefix], j.batch.index) else 0
  }

  function Costs(plans: Plans, q: seq<Job>, each: nat): nat {
    if q == [] then 0 else Costs(plans, q[..|q| - 1], each) + JobCost(plans, q[|q| - 1]) + each
  }

  function ToilOf(plans: Plans, t: Task): nat {
    match t.pc
    case Spawned => JobCost(plans, t.job) + 2
    case Running(_) => JobCost(plans, t.job) + 1
    case Returned => JobCost(plans, t.job)
    case Announcing(_, after) => 1 + Costs(plans, after, 5)
    case Publishing(rest) => Costs(plans, rest, 5)
  }

  function Weight(k: Kind, t: Task): nat {
    match k
    case Slot => if t.pc.Spawned? || t.pc.Running? then 1 else 0
    case Active => if t.pc.Running? then 1 else 0
    case Announces(b) => if t.pc.Announcing? && t.pc.batch == b then 1 else 0
    case Owes(a, job) => Owed(a, job, t)
    case Effort => EffortOf(t.pc)
    case Toil(plans) => ToilOf(plans, t)
  }

  function Count(k: Kind, tasks: seq<Task>): nat {
    if tasks == [] then 0 else Count(k, tasks[..|tasks| - 1]) + Weight(k, tasks[|tasks| - 1])
  }

  lemma {:induction false} CountUpdate(k: Kind, tasks: seq<Task>, i: nat, t: Task)
    requires i < |tasks|
    ensures Count(k, tasks[i := t]) == Count(k, tasks) - Weight(k, tasks[i]) + Weight(k, t)
    decreases |tasks|
  {
    var n := |tasks| - 1;
    if i == n {
      assert tasks[i := t][..n] == tasks[..n];
    } else {
      CountUpdate(k, tasks[..n], i, t);
      assert tasks[i := t][..n] == tasks[..n][i := t];
    }
  }

  lemma CountAppend(k: Kind, tasks: seq<Task>, t: Task)
    ensures Count(k, tasks + [t]) == Count(k, tasks) + Weight(k, t)
  {
  }

  lemma {:induction false} CountAtLeast(k: Kind, tasks: seq<Task>, i: nat)
    requires i < |tasks|
    ensures Count(k, tasks) >= Weight(k, tasks[i])
    decreases |tasks|
  {
    if i < |tasks| - 1 {
      CountAtLeast(k, tasks[..|tasks| - 1], i);
    }
  }

  // ---------------------------------------------------------------- the invariant

  function InTransit(s: State, j: Job): nat {
    multiset(s.outbox)[j] + multiset(s.queue)[j] + (if s.waiting == Some(j) then 1 else 0)
  }

  /** The copies of `j`, wherever they are, that have not yet reached the given point. */
  function Outstanding(s: State, a: Aspect, j: Job): nat {
    InTransit(s, j) + Count(Owes(a, j), s.tasks)
  }

  predicate Registered(r: Registry, b: BatchId) {
    b.Tier? && b.prefix in r.plans && b.prefix in r.front && b.index < |r.plans[b.prefix]|
  }

  /** Copies of `j` released so far: all of its tier's once the tier is at or before the frontier, none earlier. */
  function Due(r: Registry, j: Job): nat {
    if Registered(r, j.batch) && j.batch.index <= r.front[j.batch.prefix]
    then multiset(r.plans[j.batch.prefix][j.batch.index])[j] else 0
  }

  function RecordedOf(r: Registry, j: Job): nat {
    if j.batch in r.recorded then r.recorded[j.batch][j] else 0
  }

  /** Copies of `j` that are past the point, over all plans so far. */
  function Past(s: State, a: Aspect, j: Job): nat {
    match a
    case ToStart => s.started[j]
    case ToReturn => s.returned[j]
    case ToRecord => RecordedOf(s.registry, j) + s.registry.archived[j]
  }

  /** All copies of `j` there are: on the way to the point, or past it. */
  function Level(s: State, a: Aspect, j: Job): nat {
    Outstanding(s, a, j) + Past(s, a, j)
  }

  /** Every released copy of a job is either outstanding or past the point, and nothing else is. */
  ghost predicate Balanced(s: State) {
    forall a, j :: Level(s, a, j) == Due(s.registry, j) + s.registry.archived[j]
  }

  ghost predicate TierStatus(r: Registry, b: BatchId)
    requires Registered(r, b)
  {
    var tiers, i, k := r.plans[b.prefix], b.index, r.front[b.prefix];
    && b in r.batches && b in r.recorded
    && r.batches[b] == TierBatch(tiers, i).(completed := |r.recorded[b]|)
    && r.recorded[b] <= multiset(tiers[i])
    && (i < k ==> r.recorded[b] == multiset(tiers[i]))
    && (i == k ==> |r.recorded[b]| < |tiers[i]|)
    && (i > k ==> r.recorded[b] == multiset{})
  }

  /** The latest plan of `x` has one frontier tier: every tier before it is complete, every tier behind it untouched. */
  ghost predicate PlanOk(r: Registry, x: string)
    requires x in r.plans
  {
    && IsTiering(x, r.plans[x])
    && x in r.front && r.front[x] <= |r.plans[x]|
    && forall i :: 0 <= i < |r.plans[x]| ==> TierStatus(r, Tier(x, i))
  }

  /** Every plan has its frontier. Entries of earlier plans may be left over beyond a plan's last tier. */
  ghost predicate Frontiers(r: Registry) {
    r.front.Keys == r.plans.Keys && forall x :: x in r.plans ==> PlanOk(r, x)
  }

  predicate Finished(r: Registry, b: BatchId) {
    Registered(r, b) && b.index == |r.plans[b.prefix]| - 1 && r.front[b.prefix] == |r.plans[b.prefix]|
  }

  /** DELEGATION_COMPLETE messages for `b`, published or about to be. */
  function Heralds(s: State, b: BatchId): nat {
    multiset(s.events)[b] + Count(Announces(b), s.tasks)
  }

  /** Exactly one for each finished plan, none for any other. */
  ghost predicate Announced(s: State) {
    forall b :: Heralds(s, b) == s.registry.closed[b] + (if Finished(s.registry, b) then 1 else 0)
  }

  ghost predicate Slots(s: State) {
    && s.permits + Count(Slot, s.tasks) == s.maxSize
    && s.activeCount == Count(Active, s.tasks) == |s.runners|
    && s.queuedCount == (if s.waiting.Some? then 1 else 0)
  }

  ghost predicate RunnerIds(s: State) {
    && (forall i :: 0 <= i < |s.tasks| && s.tasks[i].pc.Running? ==>
          s.tasks[i].pc.runner in s.runners && s.runners[s.tasks[i].pc.runner] == s.tasks[i].job)
    && (forall i, k :: 0 <= i < k < |s.tasks| && s.tasks[i].pc.Running? && s.tasks[k].pc.Running? ==>
          s.tasks[i].pc.runner != s.tasks[k].pc.runner)
    && (forall r :: r in s.runners ==> r < s.runnerCounter)
  }

  ghost predicate Inv(s: State) {
    Balanced(s) && Frontiers(s.registry) && Announced(s) && Slots(s) && RunnerIds(s)
  }
}
