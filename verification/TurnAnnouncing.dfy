/** Exactly when a turn that publishes all of its jobs can be announced while it is still at work. */
module TurnAnnouncing {
  import opened Jobs
  import opened OrderedTurn
  import opened PoolProgress
  import opened PoolProtocol
  import opened PoolSafety
  import opened TurnPublishing
  import opened TurnServing
  import opened TurnSkips

  // ---------------------------------------------------------------- what early means

  /** The plan's completion is announced while copies of its jobs are still to return. */
  ghost predicate AnnouncedEarly(t: State, b: BatchId) {
    b in t.events && exists j :: Outstanding(t, ToReturn, j) > 0
  }

  ghost predicate CanBeAnnouncedEarly(s: State, b: BatchId) {
    exists steps, t :: Leads(s, steps, t) && AnnouncedEarly(t, b)
  }

  /** Or even while a job has not returned as often as the turn published it. */
  ghost predicate AnnouncedBeforeAll(t: State, b: BatchId, published: seq<Job>) {
    b in t.events && exists j :: t.returned[j] < multiset(published)[j]
  }

  ghost predicate CanBeAnnouncedBeforeAll(s: State, b: BatchId, published: seq<Job>) {
    exists steps, t :: Leads(s, steps, t) && AnnouncedBeforeAll(t, b, published)
  }

  /** In a run of the turn. */
  ghost predicate UnderWay(t: State, x: string, tiers: seq<seq<Job>>) {
    && IsTiering(x, tiers) && InTurn(t, x, tiers) && Heralded(t, x, tiers)
    && OnlyPlan(t.registry, x) && t.registry.closed == multiset{}
  }

  lemma StartIsUnderWay(s: State, maxSize: nat, x: string, tiers: seq<seq<Job>>, published: seq<Job>)
    requires IsStart(s, maxSize, x, tiers, published)
    ensures UnderWay(s, x, tiers)
  {
    InitialInv(maxSize);
    TurnBegins(Initial(maxSize), x, tiers, published, s);
    TurnIsHeralded(Initial(maxSize), x, tiers, published, s, Tier(x, |tiers| - 1));
    RegisterShape(EMPTY, x, tiers);
  }

  lemma {:induction false} StaysUnderWay(s: State, x: string, tiers: seq<seq<Job>>, steps: seq<Step>, t: State)
    requires UnderWay(s, x, tiers) && Leads(s, steps, t)
    ensures UnderWay(t, x, tiers)
    decreases |steps|
  {
    if steps != [] {
      TurnGoesOn(s, x, tiers, steps[0]);
      HeraldedStays(s, x, tiers, steps[0]);
      OnlyRegisterAddsPlans(s, steps[0]);
      StaysUnderWay(Next(s, steps[0]), x, tiers, steps[1..], t);
    }
  }

  // ---------------------------------------------------------------- with one tier: never

  lemma OneTierIsFull(t: State, x: string, tiers: seq<seq<Job>>)
    requires UnderWay(t, x, tiers) && |tiers| == 1 && Tier(x, 0) in t.events
    ensures Tier(x, 0) in t.registry.recorded && t.registry.recorded[Tier(x, 0)] == multiset(tiers[0])
  {
    RecordedArePlanned(t, x, tiers, 0);
    assert Heralds(t, Tier(x, 0)) > 0;
    FullSubset(t.registry.recorded[Tier(x, 0)], multiset(tiers[0]));
  }

  /** With one tier: when it has been announced, nothing is under way. */
  lemma OneTierIsAnnouncedLast(t: State, x: string, tiers: seq<seq<Job>>, j: Job)
    requires UnderWay(t, x, tiers) && |tiers| == 1 && Tier(x, 0) in t.events
    ensures Outstanding(t, ToReturn, j) == 0 && t.returned[j] == InPlan(x, tiers, j)
  {
    OneTierIsFull(t, x, tiers);
    assert InPlay(t.registry, x, tiers, j) == InPlan(x, tiers, j);
    assert j.batch.Tier? ==> j.batch == Tier(j.batch.prefix, j.batch.index);
    EarlierAspects(t.tasks, j);
    assert Level(t, ToRecord, j) == Level(t, ToReturn, j) == InPlay(t.registry, x, tiers, j) + t.registry.archived[j];
  }

  // ---------------------------------------------------------------- with several: in some run

  lemma {:induction false} NoneReturned(tasks: seq<Task>, j: Job)
    requires forall i :: 0 <= i < |tasks| ==> !tasks[i].pc.Returned?
    ensures Count(Owes(ToRecord, j), tasks) == Count(Owes(ToReturn, j), tasks)
    decreases |tasks|
  {
    if tasks != [] {
      NoneReturned(tasks[..|tasks| - 1], j);
    }
  }

  lemma {:induction false} SomeCounts(k: Kind, tasks: seq<Task>) returns (i: nat)
    requires Count(k, tasks) > 0
    ensures i < |tasks| && Weight(k, tasks[i]) > 0
    decreases |tasks|
  {
    i := |tasks| - 1;
    if Weight(k, tasks[i]) == 0 {
      i := SomeCounts(k, tasks[..i]);
    }
  }

  /** Where no runner waits to be recorded, what has returned is recorded. */
  lemma ReturnedAreRecorded(t: State, x: string, tiers: seq<seq<Job>>, j: Job)
    requires UnderWay(t, x, tiers) && forall i :: 0 <= i < |t.tasks| ==> !t.tasks[i].pc.Returned?
    ensures RecordedOf(t.registry, j) == t.returned[j]
  {
    NoneReturned(t.tasks, j);
    assert Level(t, ToRecord, j) == Level(t, ToReturn, j) == InPlay(t.registry, x, tiers, j) + t.registry.archived[j];
  }

  lemma TierIsComplete(t: State, x: string, tiers: seq<seq<Job>>, k: nat)
    requires UnderWay(t, x, tiers) && k < |tiers| && forall i :: 0 <= i < |t.tasks| ==> !t.tasks[i].pc.Returned?
    requires forall j :: j in tiers[k] ==> t.returned[j] >= multiset(tiers[k])[j]
    ensures Completions(t.registry, x, tiers, k) > 0
  {
    var recorded := t.registry.recorded[Tier(x, k)];
    assert EntryOk(t.registry, x, tiers, k);
    forall j | j in tiers[k]
      ensures multiset(tiers[k])[j] <= recorded[j]
    {
      ReturnedAreRecorded(t, x, tiers, j);
      assert j.batch == Tier(x, k);
    }
    assert multiset(tiers[k]) <= recorded;
    SubsetSize(multiset(tiers[k]), recorded);
  }

  /** A plan whose last tier is complete has been announced, or can be at once. */
  lemma AnnounceNow(t: State, x: string, tiers: seq<seq<Job>>) returns (steps: seq<Step>, u: State)
    requires UnderWay(t, x, tiers) && Completions(t.registry, x, tiers, |tiers| - 1) > 0
    ensures Leads(t, steps, u) && Tier(x, |tiers| - 1) in u.events
    ensures u.returned == t.returned && u.registry == t.registry
  {
    var b := Tier(x, |tiers| - 1);
    assert Heralds(t, b) > 0;
    if b in t.events {
      steps, u := [], t;
    } else {
      var i := SomeCounts(Announces(b), t.tasks);
      u := Next(t, Announce(i));
      steps := [Announce(i)];
      LeadsOne(t, Announce(i), u);
    }
  }

  /** A job of the second tier is in play twice once the first tier is complete. */
  lemma SecondTierInPlay(t: State, x: string, tiers: seq<seq<Job>>, published: seq<Job>) returns (j: Job)
    requires IsTurn(x, tiers, published) && UnderWay(t, x, tiers) && |tiers| > 1
    requires Completions(t.registry, x, tiers, 0) > 0 && t.returned <= multiset(published)
    ensures Outstanding(t, ToReturn, j) > 0
  {
    j := tiers[1][0];
    assert j in tiers[1] && j.batch == Tier(x, 1);
    var again := Republished(t.registry, x, tiers, 1);
    PublishedCopies(x, tiers, published, j);
    assert Level(t, ToReturn, j) == InPlay(t.registry, x, tiers, j) + t.registry.archived[j];
    assert Copies(t.registry, x, tiers, j) == multiset(tiers[1])[j] * (1 + again);
    AtLeastTwice(multiset(tiers[1])[j], again);
  }

  lemma AtLeastTwice(m: nat, again: nat)
    requires m > 0 && again > 0
    ensures m * (1 + again) > m
  {
  }

  lemma ServedNotReturned(s: State, n: nat, t: State)
    requires Served(s, Turn, n, t) && forall i :: 0 <= i < |s.tasks| ==> !s.tasks[i].pc.Returned?
    ensures forall i :: 0 <= i < |t.tasks| ==> !t.tasks[i].pc.Returned?
  {
    var q := Pending(s, Turn)[..n];
    forall i | 0 <= i < |t.tasks|
      ensures !t.tasks[i].pc.Returned?
    {
      if i >= |s.tasks| {
        assert Continues(s, q, i - |s.tasks|, t);
      }
    }
  }

  lemma AllPublished(x: string, tiers: seq<seq<Job>>, published: seq<Job>, k: nat)
    requires IsTurn(x, tiers, published) && k < |tiers|
    ensures forall j :: j in tiers[k] ==> multiset(published)[j] == multiset(tiers[k])[j]
  {
    forall j | j in tiers[k]
      ensures multiset(published)[j] == multiset(tiers[k])[j]
    {
      PublishedCopies(x, tiers, published, j);
    }
  }

  lemma ServeAll(s: State, x: string, tiers: seq<seq<Job>>, published: seq<Job>) returns (steps: seq<Step>, t: State)
    requires AtStart(s, x, tiers, published) && UnderWay(s, x, tiers) && s.permits > 0
    ensures Leads(s, steps, t) && UnderWay(t, x, tiers) && t.returned == multiset(published)
    ensures forall i :: 0 <= i < |t.tasks| ==> !t.tasks[i].pc.Returned?
  {
    steps, t := ServeFirst(s, Turn, |published|);
    StaysUnderWay(s, x, tiers, steps, t);
    ServedNotReturned(s, |published|, t);
    assert published[..|published|] == published;
  }

  lemma AllComplete(t: State, x: string, tiers: seq<seq<Job>>, published: seq<Job>, k: nat)
    requires IsTurn(x, tiers, published) && UnderWay(t, x, tiers) && k < |tiers| && t.returned == multiset(published)
    requires forall i :: 0 <= i < |t.tasks| ==> !t.tasks[i].pc.Returned?
    ensures Completions(t.registry, x, tiers, k) > 0
  {
    AllPublished(x, tiers, published, k);
    TierIsComplete(t, x, tiers, k);
  }

  /** All jobs of the turn are served; the pool has published the second tier again, and announces the plan. */
  lemma ServeAllAndAnnounce(s: State, x: string, tiers: seq<seq<Job>>, published: seq<Job>, b: BatchId)
    requires AtStart(s, x, tiers, published) && UnderWay(s, x, tiers) && s.permits > 0 && |tiers| > 1
    requires b == Tier(x, |tiers| - 1)
    ensures CanBeAnnouncedEarly(s, b)
  {
    var one, m := ServeAll(s, x, tiers, published);
    AllComplete(m, x, tiers, published, 0);
    AllComplete(m, x, tiers, published, |tiers| - 1);
    var two, t := AnnounceNow(m, x, tiers);
    StaysUnderWay(m, x, tiers, two, t);
    LeadsConcat(s, one, m, two, t);
    var j := SecondTierInPlay(t, x, tiers, published);
    assert AnnouncedEarly(t, b);
  }

  lemma AllButOne(q: seq<Job>, p: nat)
    requires p < |q|
    ensures q[p..][1..] == q[p + 1..] && q[p + 1..][..|q| - p - 1] == q[p + 1..]
    ensures multiset(q[..p]) + multiset(q[p + 1..]) + multiset{q[p]} == multiset(q)
  {
    assert q == q[..p] + [q[p]] + q[p + 1..];
  }

  /** With two slots, one holds a job while the rest of the turn is served. */
  lemma HoldAndServe(s: State, p: nat) returns (steps: seq<Step>, t: State)
    requires Idle(s) && s.tasks == [] && s.permits >= 2 && p < |s.outbox|
    ensures Leads(s, steps, t) && forall i :: 0 <= i < |t.tasks| ==> !t.tasks[i].pc.Returned?
    ensures t.returned + multiset{s.outbox[p]} == s.returned + multiset(s.outbox)
  {
    var n := |s.outbox| - p - 1;
    AllButOne(s.outbox, p);
    var one, m1 := ServeFirst(s, Turn, p);
    ServedNotReturned(s, p, m1);
    var two, m2 := SpawnOne(m1, Turn);
    var three;
    three, t := ServeFirst(m2, Turn, n);
    ServedNotReturned(m2, n, t);
    LeadsConcat(s, one, m1, two, m2);
    LeadsConcat(s, one + two, m2, three, t);
    steps := one + two + three;
  }

  lemma HoldAndAnnounce(s: State, x: string, tiers: seq<seq<Job>>, published: seq<Job>, b: BatchId)
    requires AtStart(s, x, tiers, published) && UnderWay(s, x, tiers) && s.permits >= 2 && |tiers| > 1
    requires b == Tier(x, |tiers| - 1)
    ensures CanBeAnnouncedBeforeAll(s, b, published)
  {
    var p := TierIsPublished(x, tiers, published, 0);
    var a := published[p];
    var one, m := HoldAndServe(s, p);
    StaysUnderWay(s, x, tiers, one, m);
    var last := |tiers| - 1;
    AllPublished(x, tiers, published, last);
    forall j | j in tiers[last]
      ensures m.returned[j] >= multiset(tiers[last])[j]
    {
      assert j.batch == Tier(x, last) && j != a;
      assert (m.returned + multiset{a})[j] == multiset(published)[j];
    }
    TierIsComplete(m, x, tiers, last);
    var two, t := AnnounceNow(m, x, tiers);
    LeadsConcat(s, one, m, two, t);
    assert (t.returned + multiset{a})[a] == multiset(published)[a];
    assert AnnouncedBeforeAll(t, b, published);
  }

  lemma OneTierNeverEarly(s: State, x: string, tiers: seq<seq<Job>>, published: seq<Job>, steps: seq<Step>, t: State,
                          b: BatchId)
    requires IsTurn(x, tiers, published) && UnderWay(s, x, tiers) && |tiers| == 1 && b == Tier(x, 0)
    requires Leads(s, steps, t) && b in t.events
    ensures !AnnouncedEarly(t, b) && !AnnouncedBeforeAll(t, b, published)
  {
    StaysUnderWay(s, x, tiers, steps, t);
    forall j
      ensures Outstanding(t, ToReturn, j) == 0 && t.returned[j] >= multiset(published)[j]
    {
      PublishedCopies(x, tiers, published, j);
      OneTierIsAnnouncedLast(t, x, tiers, j);
    }
  }

  // ---------------------------------------------------------------- exactly when

  /** Some run of the turn announces the plan's completion while copies of its jobs are still to return, if and only if
      there is a slot and more than one tier. */
  lemma AnnouncedEarlyIff(s: State, maxSize: nat, x: string, tiers: seq<seq<Job>>, published: seq<Job>, b: BatchId)
    requires IsStart(s, maxSize, x, tiers, published) && b == Tier(x, |tiers| - 1)
    ensures CanBeAnnouncedEarly(s, b) <==> maxSize > 0 && |tiers| > 1
  {
    StartIsStart(s, maxSize, x, tiers, published);
    StartIsUnderWay(s, maxSize, x, tiers, published);
    if maxSize > 0 && |tiers| > 1 {
      ServeAllAndAnnounce(s, x, tiers, published, b);
    } else {
      forall steps, t | Leads(s, steps, t)
        ensures !AnnouncedEarly(t, b)
      {
        if maxSize == 0 {
          NoSlotsNoProgress(s, steps, t);
        } else if b in t.events {
          OneTierNeverEarly(s, x, tiers, published, steps, t, b);
        }
      }
    }
  }

  /** With two slots or more, some run announces it even before every job has returned as often as it was published, if
      and only if there is more than one tier. */
  lemma AnnouncedBeforeAllIff(s: State, maxSize: nat, x: string, tiers: seq<seq<Job>>, published: seq<Job>, b: BatchId)
    requires IsStart(s, maxSize, x, tiers, published) && b == Tier(x, |tiers| - 1) && maxSize >= 2
    ensures CanBeAnnouncedBeforeAll(s, b, published) <==> |tiers| > 1
  {
    StartIsStart(s, maxSize, x, tiers, published);
    StartIsUnderWay(s, maxSize, x, tiers, published);
    if |tiers| > 1 {
      HoldAndAnnounce(s, x, tiers, published, b);
    } else {
      forall steps, t | Leads(s, steps, t) && b in t.events
        ensures !AnnouncedBeforeAll(t, b, published)
      {
        OneTierNeverEarly(s, x, tiers, published, steps, t, b);
      }
    }
  }
}
