/** Every step of such a turn keeps that invariant, so no run of it skips the tier gate. */
module OrderedRuns {
  import opened Jobs
  import opened OneSlot
  import opened OrderedTurn
  import opened PoolProgress
  import opened PoolProtocol
  import opened PoolSafety
  import opened TurnOrder
  import opened TurnPublishing
  import opened TurnServing
  import opened TurnSkips

  // ---------------------------------------------------------------- the second tier

  /** What is known of the second tier is a first part of both orders. */
  ghost predicate EndAt(s: State, x: string, tiers: seq<seq<Job>>, published: seq<Job>, j: nat)
    requires |tiers| > 1
  {
    && j <= |tiers[1]| && |s.outbox| <= |published|
    && SplitBy(Arrived(s), Tier(x, 1), Block(tiers, published, 1), tiers[1],
               SecondOf(tiers, |published| - |s.outbox|), j)
  }

  lemma SplitAssembled(c: Change, s: State, x: string, tiers: seq<seq<Job>>, published: seq<Job>, j: nat, n: State, i: nat)
    requires |tiers| > 1 && SplitAt(s, x, tiers, published, j) && Changes(c, s, n)
    requires EndAt(n, x, tiers, published, i) && RunnersAt(n, x, tiers, i)
    ensures SplitAt(n, x, tiers, published, i)
  {
    ArrivedGrows(c, s, n);
    SplitStays(c, s, n, Tier(x, 1), Block(tiers, published, 1), tiers[1]);
  }

  lemma EndDelivers(s: State, x: string, tiers: seq<seq<Job>>, published: seq<Job>, j: nat, n: State)
    requires IsTurn(x, tiers, published) && InOrder(published) && |tiers| > 1 && DeliveredOk(s, published)
    requires EndAt(s, x, tiers, published, j) && s.outbox != [] && n.outbox == s.outbox[1..]
    requires Changes(Join(s.outbox[0]), s, n)
    ensures EndAt(n, x, tiers, published, j)
  {
    var d := |published| - |s.outbox|;
    ArrivedGrows(Join(s.outbox[0]), s, n);
    SecondInOrder(x, tiers, published, d);
    assert published[d] == s.outbox[0];
    SplitTurn(Arrived(s), Tier(x, 1), Block(tiers, published, 1), tiers[1], SecondOf(tiers, d), j,
              published[d], SecondOf(tiers, d + 1));
  }

  lemma SplitDelivers(s: State, x: string, tiers: seq<seq<Job>>, published: seq<Job>, j: nat, n: State)
    requires IsTurn(x, tiers, published) && InOrder(published) && |tiers| > 1 && DeliveredOk(s, published)
    requires SplitAt(s, x, tiers, published, j) && s.outbox != []
    requires n.outbox == s.outbox[1..] && n.tasks == s.tasks && n.registry == s.registry
    requires Changes(Join(s.outbox[0]), s, n)
    ensures SplitAt(n, x, tiers, published, j)
  {
    EndDelivers(s, x, tiers, published, j, n);
    SplitAssembled(Join(s.outbox[0]), s, x, tiers, published, j, n, j);
  }

  lemma EndPublishes(s: State, x: string, tiers: seq<seq<Job>>, published: seq<Job>, j: nat, job: Job, n: State, next: nat)
    requires |tiers| > 1 && EndAt(s, x, tiers, published, j) && Changes(Join(job), s, n) && n.outbox == s.outbox
    requires next <= |tiers[1]| && if job.batch == Tier(x, 1) then next == j + 1 && job == tiers[1][j] else next == j
    ensures EndAt(n, x, tiers, published, next)
  {
    ArrivedGrows(Join(job), s, n);
    SplitAgain(Arrived(s), Tier(x, 1), Block(tiers, published, 1), tiers[1],
               SecondOf(tiers, |published| - |s.outbox|), j, job, next);
  }

  lemma RunnersGoOn(s: State, x: string, tiers: seq<seq<Job>>, j: nat, i: nat, n: State) returns (next: nat)
    requires |tiers| > 1 && j <= |tiers[1]| && RunnersAt(s, x, tiers, j)
    requires i < |s.tasks| && s.tasks[i].pc.Publishing? && s.tasks[i].pc.rest != []
    requires TaskOk(tiers, s.returned, s.tasks[i])
    requires n.tasks == AtPc(s, i, Publishing(s.tasks[i].pc.rest[1..])) && n.registry == s.registry
    ensures var job := s.tasks[i].pc.rest[0];
            next <= |tiers[1]| && if job.batch == Tier(x, 1) then next == j + 1 && job == tiers[1][j] else next == j
    ensures RunnersAt(n, x, tiers, next)
  {
    var rest := s.tasks[i].pc.rest;
    if PublishesSecond(s.tasks[i], x) {
      next := j + 1;
      RunnersPublish(s, x, tiers, j, i, n);
    } else {
      next := j;
      assert rest[1..] != [] ==> rest[1..][0] in rest;
      RunnersMove(s, x, tiers, j, i, Publishing(rest[1..]), n);
    }
  }

  lemma SplitPublishes(s: State, x: string, tiers: seq<seq<Job>>, published: seq<Job>, j: nat, i: nat, job: Job, n: State)
    returns (next: nat)
    requires |tiers| > 1 && SplitAt(s, x, tiers, published, j) && Enabled(s, Publish(i)) && n == PublishingOne(s, i)
    requires job == s.tasks[i].pc.rest[0] && TaskOk(tiers, s.returned, s.tasks[i]) && Changes(Join(job), s, n)
    ensures SplitAt(n, x, tiers, published, next)
  {
    next := RunnersGoOn(s, x, tiers, j, i, n);
    EndPublishes(s, x, tiers, published, j, job, n, next);
    SplitAssembled(Join(job), s, x, tiers, published, j, n, next);
  }

  /** The other steps publish nothing. */
  lemma EndRests(c: Change, s: State, x: string, tiers: seq<seq<Job>>, published: seq<Job>, j: nat, n: State)
    requires |tiers| > 1 && EndAt(s, x, tiers, published, j) && n.outbox == s.outbox && Changes(c, s, n) && !c.Join?
    ensures EndAt(n, x, tiers, published, j)
  {
    ArrivedGrows(c, s, n);
  }

  lemma RunnersRest(s: State, x: string, tiers: seq<seq<Job>>, j: nat, step: Step)
    requires |tiers| > 1 && j <= |tiers[1]| && TasksOk(tiers, s) && RunnersAt(s, x, tiers, j)
    requires Enabled(s, step) && (step.Receive? || step.Acquire? || step.Start? || step.Return? || step.Announce?)
    ensures RunnersAt(Next(s, step), x, tiers, j)
  {
    var n := Next(s, step);
    match step
    case Acquire => RunnerAdded(s, x, tiers, j, Task(s.waiting.value, Spawned), n);
    case Start(i) => RunnersMove(s, x, tiers, j, i, Running(s.runnerCounter), n);
    case Return(i) => RunnersMove(s, x, tiers, j, i, PoolProtocol.Returned, n);
    case Announce(i) =>
      assert TaskOk(tiers, s.returned, s.tasks[i]);
      RunnersMove(s, x, tiers, j, i, Publishing(s.tasks[i].pc.after), n);
    case _ =>
  }

  lemma SplitRests(s: State, x: string, tiers: seq<seq<Job>>, published: seq<Job>, j: nat, step: Step, n: State)
    requires |tiers| > 1 && TasksOk(tiers, s) && SplitAt(s, x, tiers, published, j)
    requires Enabled(s, step) && (step.Receive? || step.Acquire? || step.Start? || step.Return? || step.Announce?)
    requires n == Next(s, step) && Changes(ChangeOf(s, step), s, n)
    ensures SplitAt(n, x, tiers, published, j)
  {
    RunnersRest(s, x, tiers, j, step);
    EndRests(ChangeOf(s, step), s, x, tiers, published, j, n);
    SplitAssembled(ChangeOf(s, step), s, x, tiers, published, j, n, j);
  }

  /** All jobs are those of the turn. */
  lemma OwnRecorded(s: State, x: string, tiers: seq<seq<Job>>, i: nat, n: State) returns (k: nat, pc: Pc)
    requires InTurn(s, x, tiers) && OnlyPlan(s.registry, x) && Enabled(s, Record(i)) && n == Recording(s, i)
    ensures k < |tiers| && s.tasks[i].job.batch == Tier(x, k) && EntryOk(s.registry, x, tiers, k)
    ensures Recorded(s.registry, x, tiers, k, s.tasks[i].job, n.registry, pc)
    ensures n.tasks == AtPc(s, i, pc) && n.outbox == s.outbox && n.returned == s.returned
  {
    var job := s.tasks[i].job;
    ReturnedJobIsInPlay(s, x, tiers, i);
    ReturnedJobIsPlanned(s, x, tiers, i);
    k, pc := job.batch.index, Continuation(s.registry, job.batch);
    RecordedShape(s.registry, x, tiers, k, job);
  }

  lemma SplitRecords(s: State, x: string, tiers: seq<seq<Job>>, published: seq<Job>, j: nat, i: nat, n: State, k: nat,
                     pc: Pc)
    requires IsTiering(x, tiers) && |tiers| > 1 && SplitAt(s, x, tiers, published, j) && InTurn(n, x, tiers)
    requires i < |s.tasks| && k < |tiers| && EntryOk(s.registry, x, tiers, k) && n.tasks == AtPc(s, i, pc)
    requires Recorded(s.registry, x, tiers, k, s.tasks[i].job, n.registry, pc)
    requires n.outbox == s.outbox && Changes(Same, s, n)
    ensures SplitAt(n, x, tiers, published, j)
  {
    RunnersRecorded(s, x, tiers, j, i, n, k, pc);
    EndRests(Same, s, x, tiers, published, j, n);
    SplitAssembled(Same, s, x, tiers, published, j, n, j);
  }

  lemma ReturnedAreSplit(s: State, x: string, tiers: seq<seq<Job>>, published: seq<Job>, j: nat)
    requires |tiers| > 1 && SplitAt(s, x, tiers, published, j)
    ensures IsSplit(s.returned, Tier(x, 1), Block(tiers, published, 1), tiers[1])
  {
  }

  lemma RecordTasksOk(s: State, x: string, tiers: seq<seq<Job>>, published: seq<Job>, i: nat, n: State, k: nat, pc: Pc)
    requires IsTurn(x, tiers, published) && KeepsGate(tiers, published) && |tiers| > 1 && k < |tiers|
    requires TasksOk(tiers, s) && Enabled(s, Record(i)) && n.tasks == AtPc(s, i, pc) && n.returned == s.returned
    requires InTurn(n, x, tiers) && OnlyPlan(n.registry, x) && s.tasks[i].job.batch == Tier(x, k)
    requires Tier(x, k) in s.registry.recorded
    requires Recorded(s.registry, x, tiers, k, s.tasks[i].job, n.registry, pc)
    requires IsSplit(n.returned, Tier(x, 1), Block(tiers, published, 1), tiers[1])
    ensures TasksOk(tiers, n)
  {
    var r, job := s.registry, s.tasks[i].job;
    assert TaskOk(tiers, s.returned, s.tasks[i]);
    if Releases(r, x, tiers, k) {
      RecordedCovers(n, x, tiers, published, r, k, job, pc);
    }
    RecordedTaskOk(x, tiers, r, k, job, n.registry, pc, n.returned);
    TasksMove(tiers, s, i, pc, n);
  }

  lemma RecordStays(s: State, x: string, tiers: seq<seq<Job>>, published: seq<Job>, j: nat, i: nat, n: State)
    requires IsTurn(x, tiers, published) && KeepsGate(tiers, published) && |tiers| > 1
    requires Lined(s, x, tiers, published) && SplitAt(s, x, tiers, published, j)
    requires Enabled(s, Record(i)) && n == Recording(s, i)
    requires InTurn(n, x, tiers) && OnlyPlan(n.registry, x) && Changes(Same, s, n)
    ensures SplitAt(n, x, tiers, published, j) && TasksOk(tiers, n)
  {
    var k, pc := OwnRecorded(s, x, tiers, i, n);
    SplitRecords(s, x, tiers, published, j, i, n, k, pc);
    ReturnedAreSplit(n, x, tiers, published, j);
    RecordTasksOk(s, x, tiers, published, i, n, k, pc);
  }

  lemma OnlyPlanStays(s: State, x: string, step: Step)
    requires OnlyPlan(s.registry, x) && Enabled(s, step) && !step.Register?
    ensures OnlyPlan(Next(s, step).registry, x) && Next(s, step).maxSize == s.maxSize
  {
    OnlyRegisterAddsPlans(s, step);
  }

  lemma GuardedStays(s: State, x: string, tiers: seq<seq<Job>>, published: seq<Job>, j: nat, step: Step)
    returns (j2: nat)
    requires IsTurn(x, tiers, published) && KeepsGate(tiers, published) && |tiers| > 1
    requires Lined(s, x, tiers, published) && SplitAt(s, x, tiers, published, j)
    requires Enabled(s, step) && !step.Register?
    ensures Lined(Next(s, step), x, tiers, published) && SplitAt(Next(s, step), x, tiers, published, j2)
  {
    var n := Next(s, step);
    LineChanges(s, step);
    TurnGoesOn(s, x, tiers, step);
    OnlyPlanStays(s, x, step);
    j2 := j;
    if step.Record? {
      RecordStays(s, x, tiers, published, j, step.i, n);
    } else {
      TasksStayOk(s, x, tiers, published, step);
      if step.Deliver? {
        SplitDelivers(s, x, tiers, published, j, n);
      } else if step.Publish? {
        assert TaskOk(tiers, s.returned, s.tasks[step.i]);
        j2 := SplitPublishes(s, x, tiers, published, j, step.i, s.tasks[step.i].pc.rest[0], n);
      } else {
        SplitRests(s, x, tiers, published, j, step, n);
      }
    }
    LinedStays(s, x, tiers, published, step, n);
  }

  lemma LinedStays(s: State, x: string, tiers: seq<seq<Job>>, published: seq<Job>, step: Step, n: State)
    requires IsTurn(x, tiers, published) && InOrder(published) && Lined(s, x, tiers, published)
    requires Enabled(s, step) && !step.Register? && n == Next(s, step) && Changes(ChangeOf(s, step), s, n)
    requires InTurn(n, x, tiers) && OnlyPlan(n.registry, x) && n.maxSize == 1 && TasksOk(tiers, n)
    ensures Lined(n, x, tiers, published)
  {
    var c := ChangeOf(s, step);
    ArrivedGrows(c, s, n);
    if c.Join? {
      JoinCovers(s, x, tiers, published, step);
    }
    LineStaysOk(c, s, n, tiers);
    DeliveredStays(s, published, step);
    StartedStays(s, x, tiers, published, step);
  }

  // ---------------------------------------------------------------- no run skips the gate

  lemma {:induction false} RunStaysLined(s: State, x: string, tiers: seq<seq<Job>>, published: seq<Job>, j: nat,
                                         steps: seq<Step>, t: State)
    requires IsTurn(x, tiers, published) && KeepsGate(tiers, published) && |tiers| > 1
    requires Lined(s, x, tiers, published) && SplitAt(s, x, tiers, published, j) && Leads(s, steps, t)
    ensures Lined(t, x, tiers, published)
    decreases |steps|
  {
    if steps != [] {
      var j2 := GuardedStays(s, x, tiers, published, j, steps[0]);
      RunStaysLined(Next(s, steps[0]), x, tiers, published, j2, steps[1..], t);
    }
  }

  lemma LinedKeepsGate(t: State, x: string, tiers: seq<seq<Job>>, published: seq<Job>)
    requires IsTiering(x, tiers) && Lined(t, x, tiers, published)
    ensures !SkipsGate(t, tiers)
  {
    forall i, b, k, a | 0 <= k < i < |tiers|
      ensures !StartedEarly(t, tiers, i, b, k, a)
    {
      if b in tiers[i] && t.started[b] > 0 {
        assert Covers(tiers, TierOf(b), t.returned) && Contains(t.returned, tiers, k);
      }
    }
  }

  lemma StartIsLined(s: State, x: string, tiers: seq<seq<Job>>, published: seq<Job>)
    requires IsStart(s, 1, x, tiers, published) && |tiers| > 1 && InOrder(published)
    ensures Lined(s, x, tiers, published) && SplitAt(s, x, tiers, published, 0)
  {
    StartIsStart(s, 1, x, tiers, published);
    StartIsInTurn(s, 1, x, tiers, published);
    BlockIsTier(x, tiers, published, 1);
    StartIsGuarded(s, x, tiers, published);
  }

  lemma StartIsInTurn(s: State, maxSize: nat, x: string, tiers: seq<seq<Job>>, published: seq<Job>)
    requires IsStart(s, maxSize, x, tiers, published)
    ensures InTurn(s, x, tiers) && OnlyPlan(s.registry, x) && s.started == multiset{}
  {
    InitialInv(maxSize);
    TurnBegins(Initial(maxSize), x, tiers, published, s);
    RegisterShape(EMPTY, x, tiers);
  }

  lemma StartIsGuarded(s: State, x: string, tiers: seq<seq<Job>>, published: seq<Job>)
    requires AtStart(s, x, tiers, published) && InTurn(s, x, tiers) && s.maxSize == 1 && OnlyPlan(s.registry, x)
    requires s.started == multiset{} && |tiers| > 1 && |Block(tiers, published, 1)| == |tiers[1]|
    ensures Lined(s, x, tiers, published) && SplitAt(s, x, tiers, published, 0)
  {
    var l, tier := Block(tiers, published, 1), tiers[1];
    assert Line(s) == [] && published[..0] == [] && published[0..] == published;
    assert Arrived(s) == multiset{};
    forall a
      ensures SplitFor(multiset{}, Tier(x, 1), l, tier, 0, 0, a)
    {
    }
    assert SplitBy(multiset{}, Tier(x, 1), l, tier, 0, 0);
    assert IsEmpty(s.registry, Tier(x, 0));
  }

  /** With one slot, a turn that `KeepsGate` has no run that skips the gate. */
  lemma OrderKeepsGate(s: State, x: string, tiers: seq<seq<Job>>, published: seq<Job>, steps: seq<Step>, t: State)
    requires IsStart(s, 1, x, tiers, published) && KeepsGate(tiers, published) && Leads(s, steps, t)
    ensures !SkipsGate(t, tiers)
  {
    if |tiers| > 1 {
      StartIsLined(s, x, tiers, published);
      RunStaysLined(s, x, tiers, published, 0, steps, t);
      LinedKeepsGate(t, x, tiers, published);
    }
  }
}
