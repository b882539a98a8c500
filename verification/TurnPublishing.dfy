/** What happens when a plan is registered and then all of its jobs are published at once, as the orchestrator's turn does
    (src/graphclaw/agent/main_orchestrator.py, lines 4485-4560 and 4713-4729), instead of its first tier only. The pool
    may hold other plans, and others may be registered meanwhile. */
module TurnPublishing {
  import opened Jobs
  import opened PoolProgress
  import opened PoolProtocol
  import opened PoolSafety
  import opened Sequences

  /** The plan is registered in pool `s` and its jobs are published. */
  ghost function AfterTurn(s: State, x: string, tiers: seq<seq<Job>>, published: seq<Job>): State
    requires tiers != []
  {
    Registering(s, x, tiers).(outbox := s.outbox + published)
  }

  /** The turn publishes each job of the plan once, in the order of the model's tool calls. */
  ghost predicate IsTurn(x: string, tiers: seq<seq<Job>>, published: seq<Job>) {
    IsTiering(x, tiers) && multiset(published) == multiset(Concat(tiers))
  }

  lemma PublishedCopies(x: string, tiers: seq<seq<Job>>, published: seq<Job>, j: Job)
    requires IsTurn(x, tiers, published)
    ensures multiset(published)[j] == InPlan(x, tiers, j)
    ensures j in published ==> OfPrefix(j.batch, x) && j.batch.index < |tiers| && j in tiers[j.batch.index]
  {
    CountInPlan(x, tiers, j);
  }

  // ---------------------------------------------------------------- copies in play

  /** How often tier `i` has been found complete: at the completion of its last job, and at every one beyond that. */
  function Completions(r: Registry, x: string, tiers: seq<seq<Job>>, i: nat): nat
    requires i < |tiers|
  {
    if Tier(x, i) !in r.recorded then 0
    else
      var done, size := |r.recorded[Tier(x, i)]|, |tiers[i]|;
      if done < size then 0 else done - size + 1
  }

  /** How often tier `i` has been published again: whenever the tier before it was found complete. */
  function Republished(r: Registry, x: string, tiers: seq<seq<Job>>, i: nat): nat
    requires i < |tiers|
  {
    if i == 0 then 0 else Completions(r, x, tiers, i - 1)
  }

  /** Copies of `j`, a job of the turn, brought into play so far: those of the turn, and those published again. */
  function Copies(r: Registry, x: string, tiers: seq<seq<Job>>, j: Job): nat {
    if OfPrefix(j.batch, x) && j.batch.index < |tiers|
    then multiset(tiers[j.batch.index])[j] * (1 + Republished(r, x, tiers, j.batch.index)) else 0
  }

  /** Other plans bring in what is due, as ever. */
  function InPlay(r: Registry, x: string, tiers: seq<seq<Job>>, j: Job): nat {
    if OfPrefix(j.batch, x) then Copies(r, x, tiers, j) else Due(r, j)
  }

  ghost predicate EntryOk(r: Registry, x: string, tiers: seq<seq<Job>>, i: nat)
    requires i < |tiers|
  {
    var b := Tier(x, i);
    && b in r.recorded && b in r.batches && r.batches[b] == TierBatch(tiers, i).(completed := |r.recorded[b]|)
    && forall j :: j in r.recorded[b] ==> j.batch == b
  }

  ghost predicate Entries(r: Registry, x: string, tiers: seq<seq<Job>>) {
    && r.front.Keys == r.plans.Keys && x in r.plans && r.plans[x] == tiers
    && forall i :: 0 <= i < |tiers| ==> EntryOk(r, x, tiers, i)
  }

  ghost predicate OthersOk(r: Registry, x: string) {
    forall y :: y in r.plans && y != x ==> PlanOk(r, y)
  }

  /** What every step keeps, other plans being registered meanwhile or not. */
  ghost predicate InTurn(s: State, x: string, tiers: seq<seq<Job>>) {
    && Slots(s) && RunnerIds(s) && Entries(s.registry, x, tiers) && OthersOk(s.registry, x)
    && forall a, j :: Level(s, a, j) == InPlay(s.registry, x, tiers, j) + s.registry.archived[j]
  }

  // ---------------------------------------------------------------- the turn begins

  lemma EmptyAtFirst(r: Registry, x: string, tiers: seq<seq<Job>>, n: Registry, i: nat)
    requires i < |tiers| && n == AfterRegister(r, x, tiers)
    ensures Tier(x, i) in n.recorded && n.recorded[Tier(x, i)] == multiset{}
    ensures Tier(x, i) in n.batches && n.batches[Tier(x, i)] == TierBatch(tiers, i)
  {
  }

  lemma EntriesAtFirst(r: Registry, x: string, tiers: seq<seq<Job>>, n: Registry)
    requires r.front.Keys == r.plans.Keys && IsTiering(x, tiers) && n == AfterRegister(r, x, tiers)
    ensures Entries(n, x, tiers)
  {
    RegisterShape(r, x, tiers);
    forall i | 0 <= i < |tiers|
      ensures EntryOk(n, x, tiers, i)
    {
      EmptyAtFirst(r, x, tiers, n, i);
    }
  }

  lemma OthersAtFirst(r: Registry, x: string, tiers: seq<seq<Job>>, n: Registry)
    requires Frontiers(r) && n == AfterRegister(r, x, tiers)
    ensures OthersOk(n, x)
  {
    RegisterShape(r, x, tiers);
    forall y | y in n.plans && y != x
      ensures PlanOk(n, y)
    {
      OtherPlanOk(r, x, tiers, y);
    }
  }

  lemma CompletionsOfEmpty(n: Registry, x: string, tiers: seq<seq<Job>>, i: nat)
    requires i < |tiers| && tiers[i] != [] && Tier(x, i) in n.recorded && n.recorded[Tier(x, i)] == multiset{}
    ensures Completions(n, x, tiers, i) == 0
  {
  }

  lemma CopiesOfUnpublished(n: Registry, x: string, tiers: seq<seq<Job>>, j: Job)
    requires OfPrefix(j.batch, x) && j.batch.index < |tiers| && Republished(n, x, tiers, j.batch.index) == 0
    ensures Copies(n, x, tiers, j) == InPlan(x, tiers, j)
  {
  }

  lemma CopiesAtFirst(r: Registry, x: string, tiers: seq<seq<Job>>, n: Registry, j: Job)
    requires IsTiering(x, tiers) && n == AfterRegister(r, x, tiers)
    ensures Copies(n, x, tiers, j) == InPlan(x, tiers, j)
  {
    if OfPrefix(j.batch, x) && j.batch.index < |tiers| {
      var i := j.batch.index;
      if i > 0 {
        EmptyAtFirst(r, x, tiers, n, i - 1);
        CompletionsOfEmpty(n, x, tiers, i - 1);
      }
      CopiesOfUnpublished(n, x, tiers, j);
    }
  }

  /** Registering archives what the earlier plan of the prefix had; nothing changes for other jobs. */
  lemma ArchivedAtFirst(s: State, x: string, tiers: seq<seq<Job>>, n: Registry, j: Job)
    requires Inv(s) && Free(s.registry, x) && IsTiering(x, tiers) && n == AfterRegister(s.registry, x, tiers)
    ensures RecordedOf(n, j) + n.archived[j] == RecordedOf(s.registry, j) + s.registry.archived[j]
    ensures OfPrefix(j.batch, x) ==> n.archived[j] == Due(s.registry, j) + s.registry.archived[j] == Known(s.registry, j)
    ensures !OfPrefix(j.batch, x) ==> Due(n, j) + n.archived[j] == Due(s.registry, j) + s.registry.archived[j]
  {
    assert Level(s, ToRecord, j) == Due(s.registry, j) + s.registry.archived[j];
    assert x in s.registry.plans ==> PlanOk(s.registry, x);
    RegisterReleases(s.registry, x, tiers, n, j);
    RegisterShape(s.registry, x, tiers);
    DueAfterRegister(s.registry, x, tiers, n, j);
    if OfPrefix(j.batch, x) {
      FreeMeansRecorded(s.registry, x, j);
    }
  }

  lemma LevelAtFirst(s: State, x: string, tiers: seq<seq<Job>>, published: seq<Job>, n: Registry, a: Aspect, j: Job)
    requires Inv(s) && Free(s.registry, x) && IsTurn(x, tiers, published) && n == AfterRegister(s.registry, x, tiers)
    ensures Level(s.(registry := n, outbox := s.outbox + published), a, j) == InPlay(n, x, tiers, j) + n.archived[j]
  {
    assert Level(s, a, j) == Due(s.registry, j) + s.registry.archived[j];
    ArchivedAtFirst(s, x, tiers, n, j);
    LevelAfterRegister(s, published, n, a, j);
    PublishedCopies(x, tiers, published, j);
    CopiesAtFirst(s.registry, x, tiers, n, j);
  }

  lemma TurnAssembled(s: State, x: string, tiers: seq<seq<Job>>, m: State)
    requires Slots(s) && RunnerIds(s) && Entries(m.registry, x, tiers) && OthersOk(m.registry, x)
    requires m == s.(registry := m.registry, outbox := m.outbox)
    requires forall a, j :: Level(m, a, j) == InPlay(m.registry, x, tiers, j) + m.registry.archived[j]
    ensures InTurn(m, x, tiers)
  {
  }

  lemma TurnBegins(s: State, x: string, tiers: seq<seq<Job>>, published: seq<Job>, m: State)
    requires Inv(s) && Free(s.registry, x) && IsTurn(x, tiers, published) && m == AfterTurn(s, x, tiers, published)
    ensures InTurn(m, x, tiers)
  {
    var n := AfterRegister(s.registry, x, tiers);
    assert m == s.(registry := n, outbox := s.outbox + published);
    EntriesAtFirst(s.registry, x, tiers, n);
    OthersAtFirst(s.registry, x, tiers, n);
    forall a, j
      ensures Level(m, a, j) == InPlay(n, x, tiers, j) + n.archived[j]
    {
      LevelAtFirst(s, x, tiers, published, n, a, j);
    }
    TurnAssembled(s, x, tiers, m);
  }

  // ---------------------------------------------------------------- recording a job of the turn

  /** A returned job belongs to its plan. */
  lemma ReturnedJobIsInPlay(s: State, x: string, tiers: seq<seq<Job>>, i: nat)
    requires InTurn(s, x, tiers) && i < |s.tasks| && s.tasks[i].pc.Returned?
    ensures InPlay(s.registry, x, tiers, s.tasks[i].job) > 0
  {
    var j := s.tasks[i].job;
    CountAtLeast(Owes(ToRecord, j), s.tasks, i);
    assert Level(s, ToRecord, j) == InPlay(s.registry, x, tiers, j) + s.registry.archived[j];
  }

  lemma ReturnedJobIsPlanned(s: State, x: string, tiers: seq<seq<Job>>, i: nat)
    requires InTurn(s, x, tiers) && i < |s.tasks| && s.tasks[i].pc.Returned? && OfPrefix(s.tasks[i].job.batch, x)
    ensures var j := s.tasks[i].job;
            j.batch.index < |tiers| && j.batch == Tier(x, j.batch.index) && EntryOk(s.registry, x, tiers, j.batch.index)
  {
    ReturnedJobIsInPlay(s, x, tiers, i);
  }

  /** What recording `j`, a job of tier `k`, does: it is counted, and the next tier is published if the tier is complete,
      for the first time or again. */
  ghost predicate Recorded(r: Registry, x: string, tiers: seq<seq<Job>>, k: nat, j: Job, n: Registry, pc: Pc)
    requires k < |tiers| && Tier(x, k) in r.recorded
  {
    var b, done := Tier(x, k), |r.recorded[Tier(x, k)]| + 1;
    && j.batch == b
    && n.plans == r.plans && n.archived == r.archived && n.closed == r.closed
    && n.recorded == r.recorded[b := r.recorded[b] + multiset{j}]
    && n.front == (if done < |tiers[k]| then r.front else r.front[x := k + 1])
    && n.batches == r.batches[b := TierBatch(tiers, k).(completed := done)]
    && pc == if done < |tiers[k]| then Publishing([])
             else if k == |tiers| - 1 then Announcing(b, []) else Publishing(tiers[k + 1])
  }

  lemma RecordedShape(r: Registry, x: string, tiers: seq<seq<Job>>, k: nat, j: Job)
    requires k < |tiers| && j.batch == Tier(x, k) && EntryOk(r, x, tiers, k)
    ensures Recorded(r, x, tiers, k, j, AfterRecord(r, j), Continuation(r, j.batch))
  {
  }

  lemma RecordedEntries(r: Registry, x: string, tiers: seq<seq<Job>>, k: nat, j: Job, n: Registry, pc: Pc)
    requires k < |tiers| && Entries(r, x, tiers) && EntryOk(r, x, tiers, k) && Recorded(r, x, tiers, k, j, n, pc)
    ensures Entries(n, x, tiers)
  {
    forall i | 0 <= i < |tiers|
      ensures EntryOk(n, x, tiers, i)
    {
      assert EntryOk(r, x, tiers, i);
    }
  }

  lemma RecordedOther(r: Registry, x: string, tiers: seq<seq<Job>>, k: nat, j: Job, n: Registry, pc: Pc, y: string)
    requires k < |tiers| && Tier(x, k) in r.recorded && Recorded(r, x, tiers, k, j, n, pc)
    requires y in r.plans && PlanOk(r, y) && y != x
    ensures PlanOk(n, y)
  {
    forall i | 0 <= i < |r.plans[y]|
      ensures TierStatus(n, Tier(y, i))
    {
      assert TierStatus(r, Tier(y, i));
    }
  }

  lemma CompletionsStep(r: Registry, x: string, tiers: seq<seq<Job>>, k: nat, j: Job, n: Registry, pc: Pc, i: nat)
    requires k < |tiers| && i < |tiers| && EntryOk(r, x, tiers, k) && Recorded(r, x, tiers, k, j, n, pc)
    ensures Completions(n, x, tiers, i)
            == Completions(r, x, tiers, i) + (if i == k && |r.recorded[Tier(x, k)]| + 1 >= |tiers[k]| then 1 else 0)
  {
  }

  lemma OneMore(m: nat, c: nat)
    ensures m * (c + 1) == m * c + m
  {
  }

  lemma CopiesStep(r: Registry, x: string, tiers: seq<seq<Job>>, k: nat, j: Job, n: Registry, pc: Pc, other: Job,
                   a: Aspect)
    requires IsTiering(x, tiers) && OfPrefix(other.batch, x)
    requires k < |tiers| && EntryOk(r, x, tiers, k) && Recorded(r, x, tiers, k, j, n, pc)
    ensures Copies(n, x, tiers, other) == Copies(r, x, tiers, other) + Owed(a, other, Task(j, pc))
  {
    assert k + 1 < |tiers| && other in tiers[k + 1] ==> other.batch == Tier(x, k + 1);
    var i := other.batch.index;
    if 0 < i < |tiers| {
      CompletionsStep(r, x, tiers, k, j, n, pc, i - 1);
      OneMore(multiset(tiers[i])[other], 1 + Republished(r, x, tiers, i));
    }
  }

  lemma DueStep(r: Registry, x: string, tiers: seq<seq<Job>>, k: nat, j: Job, n: Registry, pc: Pc, other: Job, a: Aspect)
    requires IsTiering(x, tiers) && !OfPrefix(other.batch, x) && r.front.Keys == r.plans.Keys
    requires k < |tiers| && EntryOk(r, x, tiers, k) && Recorded(r, x, tiers, k, j, n, pc)
    ensures Due(n, other) == Due(r, other) && Owed(a, other, Task(j, pc)) == 0
  {
    assert k + 1 < |tiers| ==> other !in tiers[k + 1];
  }

  lemma TurnRecordsOwn(s: State, x: string, tiers: seq<seq<Job>>, i: nat, n: State, k: nat, pc: Pc)
    requires IsTiering(x, tiers) && InTurn(s, x, tiers) && Enabled(s, Record(i)) && k < |tiers|
    requires EntryOk(s.registry, x, tiers, k) && Recorded(s.registry, x, tiers, k, s.tasks[i].job, n.registry, pc)
    requires n == Recording(s, i) && pc == Continuation(s.registry, s.tasks[i].job.batch)
    ensures InTurn(n, x, tiers)
  {
    var r, j := s.registry, s.tasks[i].job;
    RecordedEntries(r, x, tiers, k, j, n.registry, pc);
    forall y | y in r.plans && y != x
      ensures PlanOk(n.registry, y)
    {
      RecordedOther(r, x, tiers, k, j, n.registry, pc, y);
    }
    forall a, other
      ensures Level(n, a, other) == InPlay(n.registry, x, tiers, other) + n.registry.archived[other]
    {
      RecordLevel(s, i, a, other);
      if OfPrefix(other.batch, x) {
        CopiesStep(r, x, tiers, k, j, n.registry, pc, other, a);
      } else {
        DueStep(r, x, tiers, k, j, n.registry, pc, other, a);
      }
      assert Level(s, a, other) == InPlay(r, x, tiers, other) + r.archived[other];
    }
    SlotsKept(s, Record(i));
    RunnerIdsKept(s, Record(i));
  }

  // ---------------------------------------------------------------- other plans go on

  /** A returned job of another plan is at that plan's frontier. */
  lemma OtherAtFrontier(s: State, x: string, tiers: seq<seq<Job>>, i: nat) returns (last: bool)
    requires InTurn(s, x, tiers) && Enabled(s, Record(i)) && !OfPrefix(s.tasks[i].job.batch, x)
    ensures var r, j := s.registry, s.tasks[i].job;
            && Records(r, j, AfterRecord(r, j), Continuation(r, j.batch), last)
            && IsTiering(j.batch.prefix, r.plans[j.batch.prefix])
  {
    var j := s.tasks[i].job;
    ReturnedJobIsInPlay(s, x, tiers, i);
    assert Level(s, ToRecord, j) == InPlay(s.registry, x, tiers, j) + s.registry.archived[j];
    ReturnedJobIsAtFrontier(s, i);
    last := RecordShape(s.registry, j);
  }

  lemma OtherEntries(r: Registry, x: string, tiers: seq<seq<Job>>, j: Job, n: Registry, pc: Pc, last: bool)
    requires Entries(r, x, tiers) && Records(r, j, n, pc, last) && !OfPrefix(j.batch, x)
    ensures Entries(n, x, tiers)
  {
    forall i | 0 <= i < |tiers|
      ensures EntryOk(n, x, tiers, i)
    {
      assert EntryOk(r, x, tiers, i);
    }
  }

  lemma OtherInPlay(r: Registry, x: string, tiers: seq<seq<Job>>, j: Job, n: Registry, pc: Pc, last: bool, other: Job,
                    a: Aspect)
    requires Records(r, j, n, pc, last) && IsTiering(j.batch.prefix, r.plans[j.batch.prefix]) && !OfPrefix(j.batch, x)
    ensures InPlay(n, x, tiers, other) == InPlay(r, x, tiers, other) + Owed(a, other, Task(j, pc))
  {
    RecordReleases(r, j, n, pc, last, other, a);
  }

  lemma TurnRecordsOther(s: State, x: string, tiers: seq<seq<Job>>, i: nat, n: State, pc: Pc, last: bool)
    requires InTurn(s, x, tiers) && Enabled(s, Record(i)) && !OfPrefix(s.tasks[i].job.batch, x)
    requires n == Recording(s, i) && pc == Continuation(s.registry, s.tasks[i].job.batch)
    requires Records(s.registry, s.tasks[i].job, n.registry, pc, last)
    requires IsTiering(s.tasks[i].job.batch.prefix, s.registry.plans[s.tasks[i].job.batch.prefix])
    ensures InTurn(n, x, tiers)
  {
    var r, j := s.registry, s.tasks[i].job;
    OtherEntries(r, x, tiers, j, n.registry, pc, last);
    forall y | y in r.plans && y != x
      ensures PlanOk(n.registry, y)
    {
      RecordPlanOk(r, j, n.registry, pc, last, y);
    }
    forall a, other
      ensures Level(n, a, other) == InPlay(n.registry, x, tiers, other) + n.registry.archived[other]
    {
      RecordLevel(s, i, a, other);
      OtherInPlay(r, x, tiers, j, n.registry, pc, last, other, a);
      assert Level(s, a, other) == InPlay(r, x, tiers, other) + r.archived[other];
    }
    SlotsKept(s, Record(i));
    RunnerIdsKept(s, Record(i));
  }

  lemma TurnRecords(s: State, x: string, tiers: seq<seq<Job>>, i: nat)
    requires IsTiering(x, tiers) && InTurn(s, x, tiers) && Enabled(s, Record(i))
    ensures InTurn(Recording(s, i), x, tiers)
  {
    var j := s.tasks[i].job;
    var pc := Continuation(s.registry, j.batch);
    if OfPrefix(j.batch, x) {
      ReturnedJobIsPlanned(s, x, tiers, i);
      RecordedShape(s.registry, x, tiers, j.batch.index, j);
      TurnRecordsOwn(s, x, tiers, i, Recording(s, i), j.batch.index, pc);
    } else {
      var last := OtherAtFrontier(s, x, tiers, i);
      TurnRecordsOther(s, x, tiers, i, Recording(s, i), pc, last);
    }
  }

  lemma EntriesBeside(r: Registry, x: string, tiers: seq<seq<Job>>, y: string, more: seq<seq<Job>>, n: Registry)
    requires Entries(r, x, tiers) && y != x && n == AfterRegister(r, y, more)
    ensures Entries(n, x, tiers)
  {
    RegisterShape(r, y, more);
    forall i | 0 <= i < |tiers|
      ensures EntryOk(n, x, tiers, i)
    {
      assert EntryOk(r, x, tiers, i);
    }
  }

  lemma OthersBeside(r: Registry, x: string, y: string, more: seq<seq<Job>>, n: Registry)
    requires OthersOk(r, x) && IsTiering(y, more) && n == AfterRegister(r, y, more)
    ensures OthersOk(n, x)
  {
    RegisterShape(r, y, more);
    forall z | z in n.plans && z != x
      ensures PlanOk(n, z)
    {
      if z == y {
        RegisteredPlanOk(r, y, more);
      } else {
        OtherPlanOk(r, y, more, z);
      }
    }
  }

  /** Another plan is registered: its first tier comes in, and the turn's jobs do not change. */
  lemma InPlayBeside(s: State, x: string, tiers: seq<seq<Job>>, y: string, more: seq<seq<Job>>, n: Registry, j: Job)
    requires InTurn(s, x, tiers) && y != x && Free(s.registry, y) && IsTiering(y, more)
    requires n == AfterRegister(s.registry, y, more)
    ensures RecordedOf(n, j) + n.archived[j] == RecordedOf(s.registry, j) + s.registry.archived[j]
    ensures InPlay(n, x, tiers, j) + n.archived[j]
            == InPlay(s.registry, x, tiers, j) + s.registry.archived[j] + multiset(more[0])[j]
    ensures OfPrefix(j.batch, x) ==> n.archived[j] == s.registry.archived[j]
  {
    var r := s.registry;
    assert Level(s, ToRecord, j) == InPlay(r, x, tiers, j) + r.archived[j];
    assert y in r.plans ==> PlanOk(r, y);
    if OfPrefix(j.batch, x) {
      OwnBeside(r, x, tiers, y, more, n, j);
    } else {
      RegisterReleases(r, y, more, n, j);
    }
  }

  /** The entries of `x` have the same history in both. */
  ghost predicate SameHistory(r: Registry, n: Registry, x: string) {
    forall i: nat :: (Tier(x, i) in n.recorded <==> Tier(x, i) in r.recorded)
                     && (Tier(x, i) in r.recorded ==> n.recorded[Tier(x, i)] == r.recorded[Tier(x, i)])
  }

  lemma HistoryBeside(r: Registry, y: string, more: seq<seq<Job>>, n: Registry, x: string)
    requires n == AfterRegister(r, y, more) && y != x
    ensures SameHistory(r, n, x)
  {
  }

  lemma CopiesBeside(r: Registry, x: string, tiers: seq<seq<Job>>, n: Registry, j: Job)
    requires SameHistory(r, n, x) && OfPrefix(j.batch, x)
    ensures Copies(n, x, tiers, j) == Copies(r, x, tiers, j) && RecordedOf(n, j) == RecordedOf(r, j)
  {
    assert j.batch == Tier(x, j.batch.index);
  }

  lemma OwnBeside(r: Registry, x: string, tiers: seq<seq<Job>>, y: string, more: seq<seq<Job>>, n: Registry, j: Job)
    requires y != x && IsTiering(y, more) && (y in r.plans ==> PlanOk(r, y))
    requires n == AfterRegister(r, y, more) && OfPrefix(j.batch, x)
    ensures RecordedOf(n, j) == RecordedOf(r, j) && n.archived[j] == r.archived[j]
    ensures Copies(n, x, tiers, j) == Copies(r, x, tiers, j) && multiset(more[0])[j] == 0
  {
    HistoryBeside(r, y, more, n, x);
    CopiesBeside(r, x, tiers, n, j);
    ArchivedBeside(r, y, more, n, j);
    assert j !in more[0];
  }

  lemma ArchivedBeside(r: Registry, y: string, more: seq<seq<Job>>, n: Registry, j: Job)
    requires (y in r.plans ==> PlanOk(r, y)) && n == AfterRegister(r, y, more) && !OfPrefix(j.batch, y)
    ensures n.archived[j] == r.archived[j]
  {
    CountInPlan(y, PlanOf(r, y), j);
    RegisterShape(r, y, more);
  }

  lemma TurnRegisters(s: State, x: string, tiers: seq<seq<Job>>, y: string, more: seq<seq<Job>>, n: State)
    requires InTurn(s, x, tiers) && Enabled(s, Register(y, more)) && y != x && n == Registering(s, y, more)
    ensures InTurn(n, x, tiers)
  {
    var r := AfterRegister(s.registry, y, more);
    EntriesBeside(s.registry, x, tiers, y, more, r);
    OthersBeside(s.registry, x, y, more, r);
    forall a, j
      ensures Level(n, a, j) == InPlay(r, x, tiers, j) + r.archived[j]
    {
      InPlayBeside(s, x, tiers, y, more, r, j);
      LevelAfterRegister(s, more[0], r, a, j);
      assert Level(s, a, j) == InPlay(s.registry, x, tiers, j) + s.registry.archived[j];
    }
  }

  // ---------------------------------------------------------------- every step, every run

  lemma TurnGoesOn(s: State, x: string, tiers: seq<seq<Job>>, step: Step)
    requires IsTiering(x, tiers) && InTurn(s, x, tiers) && Enabled(s, step) && (step.Register? ==> step.prefix != x)
    ensures InTurn(Next(s, step), x, tiers)
  {
    if step.Record? {
      TurnRecords(s, x, tiers, step.i);
    } else if step.Register? {
      TurnRegisters(s, x, tiers, step.prefix, step.tiers, Next(s, step));
    } else {
      var n := Next(s, step);
      KeepsRegistry(s, step);
      forall a, j
        ensures Level(n, a, j) == InPlay(s.registry, x, tiers, j) + s.registry.archived[j]
      {
        StepKeepsLevel(s, step, a, j);
        assert Level(s, a, j) == InPlay(s.registry, x, tiers, j) + s.registry.archived[j];
      }
      SlotsKept(s, step);
      RunnerIdsKept(s, step);
    }
  }

  lemma {:induction false} RunStaysInTurn(s: State, x: string, tiers: seq<seq<Job>>, steps: seq<Step>, t: State)
    requires IsTiering(x, tiers) && InTurn(s, x, tiers) && Runs(s, steps, t) && NoneRegisters(steps, x)
    ensures InTurn(t, x, tiers)
    decreases |steps|
  {
    if steps != [] {
      TurnGoesOn(s, x, tiers, steps[0]);
      RunStaysInTurn(Next(s, steps[0]), x, tiers, steps[1..], t);
    }
  }

  /** The archive of the turn's own prefix is left alone. */
  lemma ArchiveStays(s: State, x: string, tiers: seq<seq<Job>>, step: Step, j: Job)
    requires InTurn(s, x, tiers) && Enabled(s, step) && (step.Register? ==> step.prefix != x) && OfPrefix(j.batch, x)
    ensures Next(s, step).registry.archived[j] == s.registry.archived[j]
  {
    if step.Register? {
      InPlayBeside(s, x, tiers, step.prefix, step.tiers, AfterRegister(s.registry, step.prefix, step.tiers), j);
    } else {
      OnlyRegisterAddsPlans(s, step);
    }
  }

  lemma {:induction false} RunKeepsArchive(s: State, x: string, tiers: seq<seq<Job>>, steps: seq<Step>, t: State, j: Job)
    requires IsTiering(x, tiers) && InTurn(s, x, tiers) && Runs(s, steps, t) && NoneRegisters(steps, x)
    requires OfPrefix(j.batch, x)
    ensures t.registry.archived[j] == s.registry.archived[j]
    decreases |steps|
  {
    if steps != [] {
      ArchiveStays(s, x, tiers, steps[0], j);
      TurnGoesOn(s, x, tiers, steps[0]);
      RunKeepsArchive(Next(s, steps[0]), x, tiers, steps[1..], t, j);
    }
  }

  // ---------------------------------------------------------------- at rest

  /** How often tier `i` has been published again when the pool is at rest; for the index behind the last tier: how often
      the plan has been announced. */
  function Again(tiers: seq<seq<Job>>, i: nat): (n: nat)
    requires i <= |tiers|
    ensures n == 0 <==> i == 0
  {
    if i == 0 then 0 else |tiers[i - 1]| * Again(tiers, i - 1) + 1
  }

  function Times(m: multiset<Job>, n: nat): multiset<Job> {
    if n == 0 then multiset{} else Times(m, n - 1) + m
  }

  lemma {:induction false} TimesMeans(m: multiset<Job>, n: nat, j: Job)
    ensures Times(m, n)[j] == m[j] * n && |Times(m, n)| == |m| * n
    decreases n
  {
    if n > 0 {
      TimesMeans(m, n - 1, j);
      OneMore(m[j], n - 1);
      OneMore(|m|, n - 1);
    }
  }

  lemma SizeOfTimes(a: multiset<Job>, m: multiset<Job>, n: nat)
    requires forall j :: a[j] == m[j] * (n + 1)
    ensures |a| == |m| + |m| * n
  {
    forall j
      ensures a[j] == Times(m, n + 1)[j]
    {
      TimesMeans(m, n + 1, j);
    }
    assert a == Times(m, n + 1);
    SizeOfProduct(m, n);
  }

  lemma SizeOfProduct(m: multiset<Job>, n: nat)
    ensures |Times(m, n + 1)| == |m| + |m| * n
  {
    if j :| j in m {
      TimesMeans(m, n + 1, j);
    } else {
      assert m == multiset{};
      NothingTimes(n + 1);
    }
    OneMore(|m|, n);
  }

  lemma {:induction false} NothingTimes(n: nat)
    ensures Times(multiset{}, n) == multiset{}
    decreases n
  {
    if n > 0 {
      NothingTimes(n - 1);
    }
  }

  lemma RestMeansCopies(s: State, x: string, tiers: seq<seq<Job>>, j: Job)
    requires InTurn(s, x, tiers) && Quiescent(s)
    ensures RecordedOf(s.registry, j) == InPlay(s.registry, x, tiers, j)
    ensures s.started[j] == s.returned[j] == InPlay(s.registry, x, tiers, j) + s.registry.archived[j]
  {
    NothingOwed(s.tasks, Owes(ToStart, j));
    NothingOwed(s.tasks, Owes(ToReturn, j));
    NothingOwed(s.tasks, Owes(ToRecord, j));
    assert Level(s, ToStart, j) == Level(s, ToReturn, j) == Level(s, ToRecord, j)
           == InPlay(s.registry, x, tiers, j) + s.registry.archived[j];
  }

  /** At rest every copy of a tier that was brought in has been recorded. */
  lemma RestMeansTierRecorded(s: State, x: string, tiers: seq<seq<Job>>, i: nat, again: nat)
    requires IsTiering(x, tiers) && InTurn(s, x, tiers) && Quiescent(s) && i < |tiers|
    requires again == Republished(s.registry, x, tiers, i)
    ensures EntryOk(s.registry, x, tiers, i)
    ensures |s.registry.recorded[Tier(x, i)]| == |tiers[i]| + |tiers[i]| * again
  {
    var r, b := s.registry, Tier(x, i);
    assert EntryOk(r, x, tiers, i);
    forall j
      ensures r.recorded[b][j] == multiset(tiers[i])[j] * (again + 1)
    {
      assert j in tiers[i] ==> j.batch == b;
      RestMeansCopies(s, x, tiers, j);
    }
    SizeOfTimes(r.recorded[b], multiset(tiers[i]), again);
  }

  lemma CompletionsBeyond(r: Registry, x: string, tiers: seq<seq<Job>>, i: nat, more: nat)
    requires i < |tiers| && Tier(x, i) in r.recorded && |r.recorded[Tier(x, i)]| == |tiers[i]| + more
    ensures Completions(r, x, tiers, i) == more + 1
  {
  }

  lemma {:induction false} CompletionsAtRest(s: State, x: string, tiers: seq<seq<Job>>, i: nat)
    requires IsTiering(x, tiers) && InTurn(s, x, tiers) && Quiescent(s) && i < |tiers|
    ensures Republished(s.registry, x, tiers, i) == Again(tiers, i)
    ensures Completions(s.registry, x, tiers, i) == Again(tiers, i + 1)
    decreases i
  {
    if i > 0 {
      CompletionsAtRest(s, x, tiers, i - 1);
    }
    var again := Republished(s.registry, x, tiers, i);
    RestMeansTierRecorded(s, x, tiers, i, again);
    CompletionsBeyond(s.registry, x, tiers, i, |tiers[i]| * again);
  }

  /** How often `j`, a job of the turn, has run when the pool is at rest. */
  function Ran(tiers: seq<seq<Job>>, j: Job): nat
    requires j.batch.Tier?
  {
    if j.batch.index < |tiers| then multiset(tiers[j.batch.index])[j] * (1 + Again(tiers, j.batch.index)) else 0
  }

  lemma RestMeansRan(t: State, x: string, tiers: seq<seq<Job>>, j: Job)
    requires IsTiering(x, tiers) && InTurn(t, x, tiers) && Quiescent(t) && OfPrefix(j.batch, x)
    ensures t.started[j] == t.returned[j] == t.registry.archived[j] + Ran(tiers, j)
  {
    RestMeansCopies(t, x, tiers, j);
    if j.batch.index < |tiers| {
      CompletionsAtRest(t, x, tiers, j.batch.index);
    }
  }

  lemma RunsFromTurn(m: State, x: string, tiers: seq<seq<Job>>, steps: seq<Step>, t: State, j: Job)
    requires IsTiering(x, tiers) && InTurn(m, x, tiers)
    requires Runs(m, steps, t) && NoneRegisters(steps, x) && Quiescent(t) && OfPrefix(j.batch, x)
    ensures t.started[j] == t.returned[j] == m.registry.archived[j] + Ran(tiers, j)
  {
    RunStaysInTurn(m, x, tiers, steps, t);
    RunKeepsArchive(m, x, tiers, steps, t, j);
    RestMeansRan(t, x, tiers, j);
  }

  /** What has run under the prefix before the turn. */
  lemma RanBefore(s: State, x: string, tiers: seq<seq<Job>>, published: seq<Job>, m: State, j: Job)
    requires Inv(s) && Free(s.registry, x) && IsTurn(x, tiers, published) && m == AfterTurn(s, x, tiers, published)
    requires OfPrefix(j.batch, x)
    ensures InTurn(m, x, tiers) && m.registry.archived[j] == s.started[j] == s.returned[j]
  {
    TurnBegins(s, x, tiers, published, m);
    ArchivedAtFirst(s, x, tiers, m.registry, j);
    FreeMeansRun(s, x, j);
  }

  /** A turn in any reachable pool whose prefix is free, other plans under way or registered meanwhile or not: every run
      to rest has run each job of tier `i` exactly `1 + Again(tiers, i)` times as often as the plan lists it, on top of what
      had run before, and no other job of the prefix. */
  lemma TurnRunsAtRest(s: State, x: string, tiers: seq<seq<Job>>, published: seq<Job>, m: State, steps: seq<Step>,
                       t: State, j: Job)
    requires Reachable(s) && Free(s.registry, x) && IsTurn(x, tiers, published)
    requires m == AfterTurn(s, x, tiers, published)
    requires Runs(m, steps, t) && NoneRegisters(steps, x) && Quiescent(t) && OfPrefix(j.batch, x)
    ensures t.started[j] == s.started[j] + Ran(tiers, j) && t.returned[j] == s.returned[j] + Ran(tiers, j)
  {
    ReachableInv(s);
    RanBefore(s, x, tiers, published, m, j);
    RunsFromTurn(m, x, tiers, steps, t, j);
  }

  /** The turn harms its own plan only: at rest the jobs of all others have run exactly as often as listed. */
  lemma OtherPlansRunOnce(s: State, x: string, tiers: seq<seq<Job>>, published: seq<Job>, m: State, steps: seq<Step>,
                          t: State, j: Job)
    requires Reachable(s) && Free(s.registry, x) && IsTurn(x, tiers, published)
    requires m == AfterTurn(s, x, tiers, published)
    requires Runs(m, steps, t) && NoneRegisters(steps, x) && Quiescent(t) && !OfPrefix(j.batch, x)
    ensures t.started[j] == t.returned[j] == Known(t.registry, j)
  {
    ReachableInv(s);
    TurnBegins(s, x, tiers, published, m);
    RunStaysInTurn(m, x, tiers, steps, t);
    RestMeansCopies(t, x, tiers, j);
    if Registered(t.registry, j.batch) {
      OtherPlanComplete(t, x, tiers, j.batch.prefix);
    }
    CompleteMeansKnown(t.registry, j);
  }

  lemma OtherPlanComplete(s: State, x: string, tiers: seq<seq<Job>>, y: string)
    requires InTurn(s, x, tiers) && Quiescent(s) && y in s.registry.plans && y != x
    ensures s.registry.front[y] == |s.registry.plans[y]|
  {
    assert PlanOk(s.registry, y);
    forall j: Job | OfPrefix(j.batch, y)
      ensures Level(s, ToRecord, j) == Due(s.registry, j) + s.registry.archived[j]
    {
    }
    RestMeansPlanComplete(s, y);
  }

  // ---------------------------------------------------------------- the turn is announced

  /** The plan has been announced, or is about to be, once for each time its last tier was found complete. */
  ghost predicate Heralded(s: State, x: string, tiers: seq<seq<Job>>)
    requires tiers != []
  {
    var last := |tiers| - 1;
    Heralds(s, Tier(x, last)) == s.registry.closed[Tier(x, last)] + Completions(s.registry, x, tiers, last)
  }

  lemma ClosedAtFirst(s: State, x: string, tiers: seq<seq<Job>>, n: Registry, b: BatchId)
    requires Inv(s) && Free(s.registry, x) && IsTiering(x, tiers) && b == Tier(x, |tiers| - 1)
    requires Registers(s.registry, x, tiers, n)
    ensures n.closed[b] == Heralds(s, b)
  {
    FreeMeansAnnounced(s, x, b);
    LastAfterRegister(s.registry, x, tiers, n, b);
  }

  lemma HeraldedAtFirst(s: State, x: string, tiers: seq<seq<Job>>, m: State, b: BatchId)
    requires Inv(s) && Free(s.registry, x) && IsTiering(x, tiers) && b == Tier(x, |tiers| - 1)
    requires Registers(s.registry, x, tiers, m.registry) && m.tasks == s.tasks && m.events == s.events
    requires b in m.registry.recorded && m.registry.recorded[b] == multiset{}
    ensures Heralded(m, x, tiers) && m.registry.closed[b] == Heralds(s, b)
  {
    ClosedAtFirst(s, x, tiers, m.registry, b);
    CompletionsOfEmpty(m.registry, x, tiers, |tiers| - 1);
  }

  lemma TurnIsHeralded(s: State, x: string, tiers: seq<seq<Job>>, published: seq<Job>, m: State, b: BatchId)
    requires Inv(s) && Free(s.registry, x) && IsTiering(x, tiers) && b == Tier(x, |tiers| - 1)
    requires m == AfterTurn(s, x, tiers, published)
    ensures Heralded(m, x, tiers) && m.registry.closed[b] == Heralds(s, b)
  {
    RegisterShape(s.registry, x, tiers);
    EmptyAtFirst(s.registry, x, tiers, m.registry, |tiers| - 1);
    HeraldedAtFirst(s, x, tiers, m, b);
  }

  lemma HeraldsRecorded(s: State, x: string, tiers: seq<seq<Job>>, i: nat, n: State, k: nat, pc: Pc)
    requires tiers != [] && Heralded(s, x, tiers) && i < |s.tasks| && s.tasks[i].pc.Returned? && k < |tiers|
    requires EntryOk(s.registry, x, tiers, k) && Recorded(s.registry, x, tiers, k, s.tasks[i].job, n.registry, pc)
    requires n.tasks == AtPc(s, i, pc) && n.events == s.events
    ensures Heralded(n, x, tiers)
  {
    RecordHeralds(s, i, pc, n, Tier(x, |tiers| - 1));
    CompletionsStep(s.registry, x, tiers, k, s.tasks[i].job, n.registry, pc, |tiers| - 1);
  }

  lemma HeraldsBeside(s: State, x: string, tiers: seq<seq<Job>>, i: nat, n: State, pc: Pc, last: bool)
    requires tiers != [] && Heralded(s, x, tiers) && i < |s.tasks| && s.tasks[i].pc.Returned?
    requires Records(s.registry, s.tasks[i].job, n.registry, pc, last) && !OfPrefix(s.tasks[i].job.batch, x)
    requires n.tasks == AtPc(s, i, pc) && n.events == s.events
    ensures Heralded(n, x, tiers)
  {
    RecordHeralds(s, i, pc, n, Tier(x, |tiers| - 1));
  }

  lemma HeraldsRegistered(s: State, x: string, tiers: seq<seq<Job>>, y: string, more: seq<seq<Job>>, n: State)
    requires tiers != [] && Heralded(s, x, tiers) && y != x && Enabled(s, Register(y, more))
    requires n == Registering(s, y, more)
    ensures Heralded(n, x, tiers)
  {
    RegisterShape(s.registry, y, more);
  }

  lemma HeraldedStays(s: State, x: string, tiers: seq<seq<Job>>, step: Step)
    requires IsTiering(x, tiers) && InTurn(s, x, tiers) && Heralded(s, x, tiers)
    requires Enabled(s, step) && (step.Register? ==> step.prefix != x)
    ensures Heralded(Next(s, step), x, tiers)
    ensures Next(s, step).registry.closed[Tier(x, |tiers| - 1)] == s.registry.closed[Tier(x, |tiers| - 1)]
  {
    if step.Register? {
      RegisterShape(s.registry, step.prefix, step.tiers);
      HeraldsRegistered(s, x, tiers, step.prefix, step.tiers, Next(s, step));
    } else if step.Record? {
      OnlyRegisterAddsPlans(s, step);
      HeraldsAfterRecord(s, x, tiers, step.i, Next(s, step));
    } else {
      KeepsRegistry(s, step);
      StepKeepsHeralds(s, step, Tier(x, |tiers| - 1));
    }
  }

  lemma HeraldsAfterRecord(s: State, x: string, tiers: seq<seq<Job>>, i: nat, n: State)
    requires IsTiering(x, tiers) && InTurn(s, x, tiers) && Heralded(s, x, tiers)
    requires Enabled(s, Record(i)) && n == Recording(s, i)
    ensures Heralded(n, x, tiers)
  {
    var j := s.tasks[i].job;
    var pc := Continuation(s.registry, j.batch);
    if OfPrefix(j.batch, x) {
      ReturnedJobIsPlanned(s, x, tiers, i);
      RecordedShape(s.registry, x, tiers, j.batch.index, j);
      HeraldsRecorded(s, x, tiers, i, n, j.batch.index, pc);
    } else {
      var last := OtherAtFrontier(s, x, tiers, i);
      HeraldsBeside(s, x, tiers, i, n, pc, last);
    }
  }

  lemma {:induction false} RunStaysHeralded(s: State, x: string, tiers: seq<seq<Job>>, steps: seq<Step>, t: State)
    requires IsTiering(x, tiers) && InTurn(s, x, tiers) && Heralded(s, x, tiers)
    requires Runs(s, steps, t) && NoneRegisters(steps, x)
    ensures Heralded(t, x, tiers)
    ensures t.registry.closed[Tier(x, |tiers| - 1)] == s.registry.closed[Tier(x, |tiers| - 1)]
    decreases |steps|
  {
    if steps != [] {
      HeraldedStays(s, x, tiers, steps[0]);
      TurnGoesOn(s, x, tiers, steps[0]);
      RunStaysHeralded(Next(s, steps[0]), x, tiers, steps[1..], t);
    }
  }

  lemma AgainOnce(x: string, tiers: seq<seq<Job>>)
    requires IsTiering(x, tiers)
    ensures Again(tiers, |tiers|) == 1 <==> |tiers| == 1
  {
    ZeroProduct(|tiers[|tiers| - 1]|, Again(tiers, |tiers| - 1));
  }

  lemma RestMeansHeralded(t: State, x: string, tiers: seq<seq<Job>>, b: BatchId)
    requires IsTiering(x, tiers) && InTurn(t, x, tiers) && Heralded(t, x, tiers) && Quiescent(t)
    requires b == Tier(x, |tiers| - 1)
    ensures multiset(t.events)[b] == t.registry.closed[b] + Again(tiers, |tiers|)
  {
    CompletionsAtRest(t, x, tiers, |tiers| - 1);
    NothingOwed(t.tasks, Announces(b));
  }

  lemma AnnouncesFromTurn(m: State, x: string, tiers: seq<seq<Job>>, steps: seq<Step>, t: State, b: BatchId)
    requires IsTiering(x, tiers) && InTurn(m, x, tiers) && Heralded(m, x, tiers) && b == Tier(x, |tiers| - 1)
    requires Runs(m, steps, t) && NoneRegisters(steps, x) && Quiescent(t)
    ensures multiset(t.events)[b] == m.registry.closed[b] + Again(tiers, |tiers|)
  {
    RunStaysInTurn(m, x, tiers, steps, t);
    RunStaysHeralded(m, x, tiers, steps, t);
    RestMeansHeralded(t, x, tiers, b);
  }

  /** Every run of such a turn to rest has announced the plan once for each time its last tier was found complete; just
      once if and only if the plan has one tier. */
  lemma TurnAnnouncesAtRest(s: State, x: string, tiers: seq<seq<Job>>, published: seq<Job>, m: State, steps: seq<Step>,
                            t: State, b: BatchId)
    requires Reachable(s) && Free(s.registry, x) && IsTurn(x, tiers, published) && b == Tier(x, |tiers| - 1)
    requires m == AfterTurn(s, x, tiers, published)
    requires Runs(m, steps, t) && NoneRegisters(steps, x) && Quiescent(t)
    ensures multiset(t.events)[b] == Heralds(s, b) + Again(tiers, |tiers|)
    ensures multiset(t.events)[b] == Heralds(s, b) + 1 <==> |tiers| == 1
  {
    ReachableInv(s);
    TurnBegins(s, x, tiers, published, m);
    TurnIsHeralded(s, x, tiers, published, m, b);
    AnnouncesFromTurn(m, x, tiers, steps, t, b);
    AgainOnce(x, tiers);
  }

  lemma ZeroProduct(m: nat, n: nat)
    requires m > 0
    ensures m * n == 0 <==> n == 0
  {
  }

  // ---------------------------------------------------------------- the turn comes to rest

  lemma {:induction false} CostsTail(plans: Plans, q: seq<Job>, each: nat)
    requires q != []
    ensures Costs(plans, q, each) == JobCost(plans, q[0]) + each + Costs(plans, q[1..], each)
    decreases |q|
  {
    if |q| > 1 {
      CostsTail(plans, q[..|q| - 1], each);
      assert q[..|q| - 1][1..] == q[1..][..|q| - 2];
    } else {
      assert q[..0] == [] && q[1..] == [];
    }
  }

  lemma {:induction false} CostsOfAlike(plans: Plans, q: seq<Job>, each: nat, cost: nat)
    requires forall j :: j in q ==> JobCost(plans, j) + each == cost
    ensures Costs(plans, q, each) == cost * |q|
    decreases |q|
  {
    if q != [] {
      CostsOfAlike(plans, q[..|q| - 1], each, cost);
      assert q[|q| - 1] in q;
      OneMore(cost, |q| - 1);
    }
  }

  function TurnMeasure(s: State, plans: Plans): nat {
    Costs(plans, s.outbox, 5) + Costs(plans, s.queue, 4)
    + (if s.waiting.Some? then JobCost(plans, s.waiting.value) + 3 else 0) + Count(Toil(plans), s.tasks)
  }

  lemma ToilMoves(s: State, plans: Plans, i: nat, pc: Pc, n: State)
    requires i < |s.tasks| && n.tasks == AtPc(s, i, pc) && n.outbox == s.outbox && n.waiting == s.waiting
    ensures TurnMeasure(n, plans)
            == TurnMeasure(s, plans) - ToilOf(plans, s.tasks[i]) + ToilOf(plans, s.tasks[i].(pc := pc))
               - Costs(plans, s.queue, 4) + Costs(plans, n.queue, 4)
  {
    CountUpdate(Toil(plans), s.tasks, i, s.tasks[i].(pc := pc));
  }

  lemma CostsAppend(plans: Plans, q: seq<Job>, j: Job, each: nat)
    ensures Costs(plans, q + [j], each) == Costs(plans, q, each) + JobCost(plans, j) + each
  {
    assert (q + [j])[..|q|] == q;
  }

  lemma QueueToil(s: State, plans: Plans, step: Step)
    requires Enabled(s, step) && (step.Deliver? || step.Receive?)
    ensures TurnMeasure(Next(s, step), plans) < TurnMeasure(s, plans)
  {
    if step.Deliver? {
      CostsTail(plans, s.outbox, 5);
      CostsAppend(plans, s.queue, s.outbox[0], 4);
    } else {
      CostsTail(plans, s.queue, 4);
    }
  }

  lemma AcquireToil(s: State, plans: Plans)
    requires Enabled(s, Acquire)
    ensures TurnMeasure(Acquiring(s), plans) < TurnMeasure(s, plans)
  {
    CountAppend(Toil(plans), s.tasks, Task(s.waiting.value, Spawned));
  }

  lemma PublishToil(s: State, plans: Plans, i: nat)
    requires Enabled(s, Publish(i))
    ensures TurnMeasure(PublishingOne(s, i), plans) < TurnMeasure(s, plans)
  {
    var rest := s.tasks[i].pc.rest;
    CostsTail(plans, rest, 5);
    CostsAppend(plans, s.queue, rest[0], 4);
    ToilMoves(s, plans, i, Publishing(rest[1..]), PublishingOne(s, i));
  }

  /** What publishing the next tier costs is less than what a returned job of this tier may cost. */
  lemma NextTierCosts(plans: Plans, y: string, k: nat)
    requires y in plans && IsTiering(y, plans[y]) && k + 1 < |plans[y]|
    ensures Costs(plans, plans[y][k + 1], 5) < ReturnedCost(plans[y], k)
  {
    CostsOfAlike(plans, plans[y][k + 1], 5, ReturnedCost(plans[y], k + 1) + 5);
  }

  /** What a recording leads to costs less than the returned job did. */
  lemma FollowingCosts(r: Registry, y: string, k: nat, j: Job, pc: Pc)
    requires y in r.plans && IsTiering(y, r.plans[y]) && k < |r.plans[y]| && j.batch == Tier(y, k)
    requires || pc == Publishing([]) || pc == Announcing(j.batch, [])
             || (k + 1 < |r.plans[y]| && pc == Publishing(r.plans[y][k + 1]))
    ensures ToilOf(r.plans, Task(j, pc)) < JobCost(r.plans, j)
  {
    if k + 1 < |r.plans[y]| {
      NextTierCosts(r.plans, y, k);
    }
  }

  lemma OwnToil(s: State, x: string, tiers: seq<seq<Job>>, i: nat)
    requires IsTiering(x, tiers) && InTurn(s, x, tiers) && Enabled(s, Record(i)) && OfPrefix(s.tasks[i].job.batch, x)
    ensures var r, j := s.registry, s.tasks[i].job;
            ToilOf(r.plans, Task(j, Continuation(r, j.batch))) < JobCost(r.plans, j)
  {
    var r, j := s.registry, s.tasks[i].job;
    ReturnedJobIsPlanned(s, x, tiers, i);
    RecordedShape(r, x, tiers, j.batch.index, j);
    FollowingCosts(r, x, j.batch.index, j, Continuation(r, j.batch));
  }

  lemma OtherToil(s: State, x: string, tiers: seq<seq<Job>>, i: nat)
    requires InTurn(s, x, tiers) && Enabled(s, Record(i)) && !OfPrefix(s.tasks[i].job.batch, x)
    ensures var r, j := s.registry, s.tasks[i].job;
            ToilOf(r.plans, Task(j, Continuation(r, j.batch))) < JobCost(r.plans, j)
  {
    var r, j := s.registry, s.tasks[i].job;
    var last := OtherAtFrontier(s, x, tiers, i);
    assert j.batch == Tier(j.batch.prefix, j.batch.index);
    FollowingCosts(r, j.batch.prefix, j.batch.index, j, Continuation(r, j.batch));
  }

  lemma RecordToil(s: State, x: string, tiers: seq<seq<Job>>, i: nat)
    requires IsTiering(x, tiers) && InTurn(s, x, tiers) && Enabled(s, Record(i))
    ensures TurnMeasure(Recording(s, i), s.registry.plans) < TurnMeasure(s, s.registry.plans)
  {
    if OfPrefix(s.tasks[i].job.batch, x) {
      OwnToil(s, x, tiers, i);
    } else {
      OtherToil(s, x, tiers, i);
    }
    ToilMoves(s, s.registry.plans, i, Continuation(s.registry, s.tasks[i].job.batch), Recording(s, i));
  }

  lemma TurnStepDecreases(s: State, x: string, tiers: seq<seq<Job>>, step: Step)
    requires IsTiering(x, tiers) && InTurn(s, x, tiers) && Enabled(s, step) && !step.Register?
    ensures Next(s, step).registry.plans == s.registry.plans
    ensures TurnMeasure(Next(s, step), s.registry.plans) < TurnMeasure(s, s.registry.plans)
  {
    OnlyRegisterAddsPlans(s, step);
    var plans := s.registry.plans;
    match step
    case Deliver => QueueToil(s, plans, step);
    case Receive => QueueToil(s, plans, step);
    case Acquire => AcquireToil(s, plans);
    case Start(i) => ToilMoves(s, plans, i, Running(s.runnerCounter), Starting(s, i));
    case Return(i) => ToilMoves(s, plans, i, PoolProtocol.Returned, Returning(s, i));
    case Record(i) => RecordToil(s, x, tiers, i);
    case Announce(i) => ToilMoves(s, plans, i, Publishing(s.tasks[i].pc.after), AnnouncingOne(s, i));
    case Publish(i) => PublishToil(s, plans, i);
  }

  /** A turn on a pool with a slot can be run to rest; indeed it cannot be run for ever. */
  lemma {:induction false} TurnComesToRest(s: State, x: string, tiers: seq<seq<Job>>)
    returns (steps: seq<Step>, t: State)
    requires IsTiering(x, tiers) && InTurn(s, x, tiers) && s.maxSize > 0
    ensures Runs(s, steps, t) && Quiescent(t) && OwnSteps(steps) == |steps| && NoneRegisters(steps, x)
    decreases TurnMeasure(s, s.registry.plans)
  {
    if Quiescent(s) {
      steps, t := [], s;
    } else {
      var step := SomeStepIsEnabled(s);
      TurnGoesOn(s, x, tiers, step);
      TurnStepDecreases(s, x, tiers, step);
      SizeStays(s, [step], Next(s, step)) by { OneStepRuns(s, step); }
      var rest;
      rest, t := TurnComesToRest(Next(s, step), x, tiers);
      steps := [step] + rest;
      assert steps[1..] == rest;
    }
  }

  // ---------------------------------------------------------------- once, if there is one tier

  /** Every run of the turn to rest has run each of its jobs once more. */
  ghost predicate EachJobRunsOnce(s: State, x: string, tiers: seq<seq<Job>>, published: seq<Job>)
    requires tiers != []
  {
    forall steps, t, j: Job ::
      Runs(AfterTurn(s, x, tiers, published), steps, t) && NoneRegisters(steps, x) && Quiescent(t) && OfPrefix(j.batch, x)
      ==> t.started[j] == s.started[j] + multiset(published)[j]
  }

  /** A job of the second tier is started more often than it was published, in a run that exists. */
  lemma SecondTierRunsTwice(m: State, x: string, tiers: seq<seq<Job>>) returns (steps: seq<Step>, t: State, j: Job)
    requires IsTiering(x, tiers) && InTurn(m, x, tiers) && m.maxSize > 0 && |tiers| > 1
    ensures Runs(m, steps, t) && NoneRegisters(steps, x) && Quiescent(t) && OfPrefix(j.batch, x)
    ensures t.started[j] > m.registry.archived[j] + InPlan(x, tiers, j)
  {
    steps, t := TurnComesToRest(m, x, tiers);
    j := tiers[1][0];
    assert j in tiers[1] && j.batch == Tier(x, 1);
    RunsFromTurn(m, x, tiers, steps, t, j);
    OneMore(multiset(tiers[1])[j], Again(tiers, 1));
    ZeroProduct(multiset(tiers[1])[j], Again(tiers, 1));
  }

  lemma TurnRunsTwice(s: State, x: string, tiers: seq<seq<Job>>, published: seq<Job>, m: State)
    returns (steps: seq<Step>, t: State, j: Job)
    requires Reachable(s) && Free(s.registry, x) && IsTurn(x, tiers, published) && s.maxSize > 0 && |tiers| > 1
    requires m == AfterTurn(s, x, tiers, published)
    ensures Runs(m, steps, t) && NoneRegisters(steps, x) && Quiescent(t) && OfPrefix(j.batch, x)
    ensures t.started[j] > s.started[j] + multiset(published)[j]
  {
    ReachableInv(s);
    TurnBegins(s, x, tiers, published, m);
    steps, t, j := SecondTierRunsTwice(m, x, tiers);
    RanBefore(s, x, tiers, published, m, j);
    PublishedCopies(x, tiers, published, j);
  }

  lemma RanOnce(x: string, tiers: seq<seq<Job>>, j: Job)
    requires |tiers| == 1 && OfPrefix(j.batch, x)
    ensures Ran(tiers, j) == InPlan(x, tiers, j)
  {
  }

  lemma OneTierRunsOnce(s: State, x: string, tiers: seq<seq<Job>>, published: seq<Job>, m: State, steps: seq<Step>,
                        t: State, j: Job)
    requires Reachable(s) && Free(s.registry, x) && IsTurn(x, tiers, published) && |tiers| == 1
    requires m == AfterTurn(s, x, tiers, published)
    requires Runs(m, steps, t) && NoneRegisters(steps, x) && Quiescent(t) && OfPrefix(j.batch, x)
    ensures t.started[j] == s.started[j] + multiset(published)[j]
  {
    TurnRunsAtRest(s, x, tiers, published, m, steps, t, j);
    PublishedCopies(x, tiers, published, j);
    RanOnce(x, tiers, j);
  }

  /** Publishing every job of the turn runs each of them exactly once, in every run, if and only if the plan has just one
      tier; otherwise the later tiers are published again by the pool. */
  lemma JobsRunOnceOnlyForOneTier(s: State, x: string, tiers: seq<seq<Job>>, published: seq<Job>)
    requires Reachable(s) && Free(s.registry, x) && IsTurn(x, tiers, published) && s.maxSize > 0
    ensures EachJobRunsOnce(s, x, tiers, published) <==> |tiers| == 1
  {
    var m := AfterTurn(s, x, tiers, published);
    if |tiers| == 1 {
      forall steps, t, j: Job | Runs(m, steps, t) && NoneRegisters(steps, x) && Quiescent(t) && OfPrefix(j.batch, x)
        ensures t.started[j] == s.started[j] + multiset(published)[j]
      {
        OneTierRunsOnce(s, x, tiers, published, m, steps, t, j);
      }
    } else {
      var steps, t, j := TurnRunsTwice(s, x, tiers, published, m);
    }
  }
}
