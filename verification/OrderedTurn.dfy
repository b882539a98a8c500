/** The invariant of a turn that `KeepsGate`, on a fresh pool with one slot. */
module OrderedTurn {
  import opened Jobs
  import opened OneSlot
  import opened PoolProtocol
  import opened PoolSafety
  import opened Sequences
  import opened TurnOrder
  import opened TurnPublishing

  // ---------------------------------------------------------------- the invariant

  /** What a runner still has to publish, or to be recorded for, has all earlier tiers behind it. */
  ghost predicate TaskOk(tiers: seq<seq<Job>>, ret: multiset<Job>, t: Task) {
    match t.pc
    case Returned => Covers(tiers, TierOf(t.job), ret)
    case Announcing(_, after) => after == []
    case Publishing(rest) => forall j :: j in rest ==> j.batch == rest[0].batch && Covers(tiers, TierOf(j), ret)
    case _ => true
  }

  ghost predicate TasksOk(tiers: seq<seq<Job>>, s: State) {
    forall i :: 0 <= i < |s.tasks| ==> TaskOk(tiers, s.returned, s.tasks[i])
  }

  ghost predicate StartedOk(tiers: seq<seq<Job>>, s: State) {
    forall b :: s.started[b] > 0 ==> Covers(tiers, TierOf(b), s.returned)
  }

  /** All jobs that have returned or stand in the line. */
  function Arrived(s: State): multiset<Job> {
    s.returned + multiset(Line(s))
  }

  /** What has been delivered is a first part of the turn, and is in `m`. */
  ghost predicate DeliveredIn(outbox: seq<Job>, published: seq<Job>, m: multiset<Job>) {
    && |outbox| <= |published| && outbox == published[|published| - |outbox|..]
    && multiset(published[..|published| - |outbox|]) <= m
  }

  ghost predicate DeliveredOk(s: State, published: seq<Job>) {
    DeliveredIn(s.outbox, published, Arrived(s))
  }

  predicate OnlyPlan(r: Registry, x: string) {
    r.plans.Keys == {x} && r.archived == multiset{}
  }

  ghost predicate Lined(s: State, x: string, tiers: seq<seq<Job>>, published: seq<Job>) {
    && s.maxSize == 1 && InTurn(s, x, tiers) && OnlyPlan(s.registry, x)
    && LineOk(tiers, s.returned, Line(s)) && DeliveredOk(s, published) && TasksOk(tiers, s) && StartedOk(tiers, s)
  }

  predicate PublishesSecond(t: Task, x: string) {
    t.pc.Publishing? && t.pc.rest != [] && t.pc.rest[0].batch == Tier(x, 1)
  }

  predicate NotBoth(tasks: seq<Task>, x: string, p: nat, q: nat)
    requires p < |tasks| && q < |tasks|
  {
    !(PublishesSecond(tasks[p], x) && PublishesSecond(tasks[q], x))
  }

  /** One runner at most publishes the second tier; it has `j` jobs of it behind it, and starts after the first tier. */
  ghost predicate RunnersAt(s: State, x: string, tiers: seq<seq<Job>>, j: nat)
    requires |tiers| > 1 && j <= |tiers[1]|
  {
    && (forall p :: 0 <= p < |s.tasks| && PublishesSecond(s.tasks[p], x) ==> s.tasks[p].pc.rest == tiers[1][j..])
    && (forall p, q :: 0 <= p < q < |s.tasks| ==> NotBoth(s.tasks, x, p, q))
    && (Completions(s.registry, x, tiers, 0) == 0 ==>
          j == 0 && forall p :: 0 <= p < |s.tasks| ==> !PublishesSecond(s.tasks[p], x))
  }

  /** How many jobs of the second tier are among the first `d` of the turn. */
  function SecondOf(tiers: seq<seq<Job>>, d: nat): nat
    requires |tiers| > 1
  {
    var from, n := Size(tiers, 1), |tiers[1]|;
    if d <= from then 0 else if d >= from + n then n else d - from
  }

  ghost predicate SplitAt(s: State, x: string, tiers: seq<seq<Job>>, published: seq<Job>, j: nat)
    requires |tiers| > 1
  {
    var b, l, tier := Tier(x, 1), Block(tiers, published, 1), tiers[1];
    && j <= |tier| && |s.outbox| <= |published|
    && SplitLine(s.returned, Line(s), b, l, tier)
    && SplitBy(Arrived(s), b, l, tier, SecondOf(tiers, |published| - |s.outbox|), j)
    && RunnersAt(s, x, tiers, j)
  }

  // ---------------------------------------------------------------- the line grows and shrinks

  lemma ArrivedGrows(c: Change, s: State, n: State)
    requires Changes(c, s, n)
    ensures Arrived(n) == if c.Join? then Arrived(s) + multiset{c.j} else Arrived(s)
    ensures s.returned <= n.returned
  {
    match c
    case Same =>
    case Join(j) => JoinedSum(s.returned, Line(s), j);
    case Leave(j) => LeftSum(s.returned, j, Line(n));
  }

  lemma LineStaysOk(c: Change, s: State, n: State, tiers: seq<seq<Job>>)
    requires Changes(c, s, n) && LineOk(tiers, s.returned, Line(s))
    requires c.Join? ==> Covers(tiers, TierOf(c.j), Arrived(s))
    ensures LineOk(tiers, n.returned, Line(n))
  {
    match c
    case Same =>
    case Join(j) => JoinOk(tiers, s.returned, Line(s), j);
    case Leave(j) => LeaveOk(tiers, s.returned, j, Line(n));
  }

  lemma SplitStays(c: Change, s: State, n: State, b: BatchId, l: seq<Job>, tier: seq<Job>)
    requires Changes(c, s, n) && SplitLine(s.returned, Line(s), b, l, tier)
    requires c.Join? ==> IsSplit(Arrived(s) + multiset{c.j}, b, l, tier)
    ensures SplitLine(n.returned, Line(n), b, l, tier)
  {
    match c
    case Same =>
    case Join(j) => JoinSplit(s.returned, Line(s), b, l, tier, j);
    case Leave(j) => LeaveSplit(s.returned, j, Line(n), b, l, tier);
  }

  // ---------------------------------------------------------------- deliveries

  lemma {:induction false} ConcatContains(tiers: seq<seq<Job>>, i: nat, k: nat)
    requires k < i <= |tiers|
    ensures multiset(tiers[k]) <= multiset(Concat(tiers[..i]))
    decreases i
  {
    SizeGrows(tiers, i - 1);
    if k < i - 1 {
      ConcatContains(tiers, i - 1, k);
    }
  }

  lemma InFirstTiers(x: string, tiers: seq<seq<Job>>, published: seq<Job>, i: nat, d: nat)
    requires IsTurn(x, tiers, published) && InOrder(published) && i <= |tiers|
    requires d < |published| && d < Size(tiers, i)
    ensures published[d].batch.Tier? && TierOf(published[d]) < i
  {
    TiersComeFirst(x, tiers, published, i);
    FirstTiersAreTiering(x, tiers, i);
    CountInPlan(x, tiers[..i], published[d]);
    assert published[d] in published[..Size(tiers, i)];
  }

  /** A published job has all earlier tiers published before it. */
  lemma OrderCovers(x: string, tiers: seq<seq<Job>>, published: seq<Job>, d: nat)
    requires IsTurn(x, tiers, published) && InOrder(published) && d < |published|
    ensures Covers(tiers, TierOf(published[d]), multiset(published[..d]))
  {
    var i := TierOf(published[d]);
    PublishedCopies(x, tiers, published, published[d]);
    TiersComeFirst(x, tiers, published, i);
    var from := Size(tiers, i);
    if d < from {
      InFirstTiers(x, tiers, published, i, d);
      assert false;
    }
    assert published[..d] == published[..from] + published[from..d];
    forall k | 0 <= k < i && k < |tiers|
      ensures Contains(multiset(published[..d]), tiers, k)
    {
      ConcatContains(tiers, i, k);
    }
  }

  lemma DeliverCovers(s: State, x: string, tiers: seq<seq<Job>>, published: seq<Job>)
    requires IsTurn(x, tiers, published) && InOrder(published) && DeliveredOk(s, published) && s.outbox != []
    ensures Covers(tiers, TierOf(s.outbox[0]), Arrived(s))
  {
    var d := |published| - |s.outbox|;
    OrderCovers(x, tiers, published, d);
    CoversMore(tiers, TierOf(published[d]), multiset(published[..d]), Arrived(s));
  }

  lemma NextOf(q: seq<Job>, d: nat)
    requires d < |q|
    ensures q[d..][0] == q[d] && q[d..][1..] == q[d + 1..]
    ensures multiset(q[..d + 1]) == multiset(q[..d]) + multiset{q[d]}
  {
    assert q[..d + 1] == q[..d] + [q[d]];
  }

  lemma DeliveredMore(outbox: seq<Job>, published: seq<Job>, m: multiset<Job>)
    requires DeliveredIn(outbox, published, m) && outbox != []
    ensures DeliveredIn(outbox[1..], published, m + multiset{outbox[0]})
  {
    NextOf(published, |published| - |outbox|);
  }

  lemma BeyondSecond(x: string, tiers: seq<seq<Job>>, published: seq<Job>, d: nat)
    requires IsTurn(x, tiers, published) && InOrder(published) && |tiers| > 1 && Size(tiers, 2) <= d < |published|
    ensures published[d].batch != Tier(x, 1)
  {
    TiersComeFirst(x, tiers, published, 2);
    var rest := published[Size(tiers, 2)..];
    assert published[d] == rest[d - Size(tiers, 2)];
    Behind(x, tiers, published, 2, rest, published[d]);
  }

  /** Which deliveries are of the second tier. */
  lemma SecondInOrder(x: string, tiers: seq<seq<Job>>, published: seq<Job>, d: nat)
    requires IsTurn(x, tiers, published) && InOrder(published) && |tiers| > 1 && d < |published|
    ensures SecondOf(tiers, d + 1) <= |Block(tiers, published, 1)| == |tiers[1]|
    ensures if published[d].batch == Tier(x, 1)
            then SecondOf(tiers, d + 1) == SecondOf(tiers, d) + 1
                 && published[d] == Block(tiers, published, 1)[SecondOf(tiers, d)]
            else SecondOf(tiers, d + 1) == SecondOf(tiers, d)
  {
    BlockIsTier(x, tiers, published, 1);
    SizeGrows(tiers, 1);
    var from, l := Size(tiers, 1), Block(tiers, published, 1);
    if d < from {
      InFirstTiers(x, tiers, published, 1, d);
    } else if d < from + |l| {
      assert published[d] == l[d - from] && l[d - from] in l;
    } else {
      BeyondSecond(x, tiers, published, d);
    }
  }

  lemma SplitTurn(m: multiset<Job>, b: BatchId, l: seq<Job>, tier: seq<Job>, i: nat, j: nat, job: Job, next: nat)
    requires SplitBy(m, b, l, tier, i, j) && next <= |l|
    requires if job.batch == b then next == i + 1 && job == l[i] else next == i
    ensures SplitBy(m + multiset{job}, b, l, tier, next, j)
  {
    if job.batch == b {
      assert l[..next] == l[..i] + [job];
    }
    forall a
      ensures SplitFor(m + multiset{job}, b, l, tier, next, j, a)
    {
      assert SplitFor(m, b, l, tier, i, j, a);
    }
  }

  lemma SplitAgain(m: multiset<Job>, b: BatchId, l: seq<Job>, tier: seq<Job>, i: nat, j: nat, job: Job, next: nat)
    requires SplitBy(m, b, l, tier, i, j) && next <= |tier|
    requires if job.batch == b then next == j + 1 && job == tier[j] else next == j
    ensures SplitBy(m + multiset{job}, b, l, tier, i, next)
  {
    if job.batch == b {
      assert tier[..next] == tier[..j] + [job];
    }
    forall a
      ensures SplitFor(m + multiset{job}, b, l, tier, i, next, a)
    {
      assert SplitFor(m, b, l, tier, i, j, a);
    }
  }

  // ---------------------------------------------------------------- runners

  lemma TaskOkMore(tiers: seq<seq<Job>>, ret: multiset<Job>, more: multiset<Job>, t: Task)
    requires TaskOk(tiers, ret, t) && ret <= more
    ensures TaskOk(tiers, more, t)
  {
    match t.pc
    case Returned => CoversMore(tiers, TierOf(t.job), ret, more);
    case Publishing(rest) =>
      forall j | j in rest
        ensures Covers(tiers, TierOf(j), more)
      {
        CoversMore(tiers, TierOf(j), ret, more);
      }
    case _ =>
  }

  lemma TasksMove(tiers: seq<seq<Job>>, s: State, i: nat, pc: Pc, n: State)
    requires TasksOk(tiers, s) && s.returned <= n.returned && i < |s.tasks| && n.tasks == AtPc(s, i, pc)
    requires TaskOk(tiers, n.returned, s.tasks[i].(pc := pc))
    ensures TasksOk(tiers, n)
  {
    forall k | 0 <= k < |n.tasks|
      ensures TaskOk(tiers, n.returned, n.tasks[k])
    {
      if k != i {
        TaskOkMore(tiers, s.returned, n.returned, s.tasks[k]);
      }
    }
  }

  lemma RunnersMove(s: State, x: string, tiers: seq<seq<Job>>, j: nat, i: nat, pc: Pc, n: State)
    requires |tiers| > 1 && j <= |tiers[1]| && RunnersAt(s, x, tiers, j)
    requires i < |s.tasks| && n.tasks == AtPc(s, i, pc) && !PublishesSecond(s.tasks[i].(pc := pc), x)
    requires Completions(n.registry, x, tiers, 0) >= Completions(s.registry, x, tiers, 0)
    ensures RunnersAt(n, x, tiers, j)
  {
    forall p, q | 0 <= p < q < |n.tasks|
      ensures NotBoth(n.tasks, x, p, q)
    {
      assert NotBoth(s.tasks, x, p, q);
    }
  }

  /** The only runner of the second tier publishes its next job. */
  lemma RunnersPublish(s: State, x: string, tiers: seq<seq<Job>>, j: nat, i: nat, n: State)
    requires |tiers| > 1 && j <= |tiers[1]| && RunnersAt(s, x, tiers, j)
    requires i < |s.tasks| && PublishesSecond(s.tasks[i], x) && n.registry == s.registry
    requires n.tasks == AtPc(s, i, Publishing(s.tasks[i].pc.rest[1..]))
    ensures j < |tiers[1]| && s.tasks[i].pc.rest[0] == tiers[1][j] && RunnersAt(n, x, tiers, j + 1)
  {
    assert s.tasks[i].pc.rest == tiers[1][j..];
    assert tiers[1][j..][1..] == tiers[1][j + 1..];
    forall p | 0 <= p < |s.tasks| && p != i
      ensures !PublishesSecond(s.tasks[p], x)
    {
      assert NotBoth(s.tasks, x, if p < i then p else i, if p < i then i else p);
    }
  }

  /** The first tier is complete: a runner sets out to publish the second. */
  lemma RunnersSetOut(s: State, x: string, tiers: seq<seq<Job>>, j: nat, i: nat, n: State)
    requires |tiers| > 1 && j <= |tiers[1]| && RunnersAt(s, x, tiers, j)
    requires i < |s.tasks| && n.tasks == AtPc(s, i, Publishing(tiers[1]))
    requires Completions(s.registry, x, tiers, 0) == 0 && Completions(n.registry, x, tiers, 0) > 0
    ensures RunnersAt(n, x, tiers, j)
  {
    assert tiers[1][0..] == tiers[1];
  }

  // ---------------------------------------------------------------- a complete tier has returned

  lemma RecordedHaveReturned(s: State, x: string, tiers: seq<seq<Job>>, k: nat)
    requires InTurn(s, x, tiers) && OnlyPlan(s.registry, x) && k < |tiers|
    ensures EntryOk(s.registry, x, tiers, k) && s.registry.recorded[Tier(x, k)] <= s.returned
  {
    var r := s.registry;
    assert EntryOk(r, x, tiers, k);
    forall j | j in r.recorded[Tier(x, k)]
      ensures r.recorded[Tier(x, k)][j] <= s.returned[j]
    {
      assert Level(s, ToRecord, j) == Level(s, ToReturn, j) == InPlay(r, x, tiers, j) + r.archived[j];
      EarlierAspects(s.tasks, j);
    }
  }

  /** Only jobs of the tier are recorded for it, and of the first tier none twice. */
  lemma RecordedArePlanned(s: State, x: string, tiers: seq<seq<Job>>, k: nat)
    requires InTurn(s, x, tiers) && k < |tiers|
    ensures EntryOk(s.registry, x, tiers, k)
    ensures forall j :: j in s.registry.recorded[Tier(x, k)] ==> j in tiers[k]
    ensures k == 0 ==> s.registry.recorded[Tier(x, k)] <= multiset(tiers[k])
  {
    var r := s.registry;
    assert EntryOk(r, x, tiers, k);
    forall j | j in r.recorded[Tier(x, k)]
      ensures j in tiers[k] && (k == 0 ==> r.recorded[Tier(x, k)][j] <= multiset(tiers[k])[j])
    {
      assert Level(s, ToRecord, j) == InPlay(r, x, tiers, j) + r.archived[j];
    }
  }

  lemma AlikeSize(m: multiset<Job>, a: Job)
    requires forall j :: j in m ==> j == a
    ensures |m| == m[a]
  {
    assert m == multiset{}[a := m[a]];
  }

  lemma AlikeCovers(tier: seq<Job>, m: multiset<Job>)
    requires tier != [] && AllAlike(tier) && |m| >= |tier| && forall j :: j in m ==> j in tier
    ensures multiset(tier) <= m
  {
    AlikeSize(m, tier[0]);
    AlikeSize(multiset(tier), tier[0]);
  }

  /** A tier but the last, once it is complete, has returned. */
  lemma CompleteHasReturned(s: State, x: string, tiers: seq<seq<Job>>, published: seq<Job>, k: nat)
    requires IsTurn(x, tiers, published) && KeepsGate(tiers, published)
    requires InTurn(s, x, tiers) && OnlyPlan(s.registry, x) && k + 1 < |tiers|
    requires Tier(x, k) in s.registry.recorded && |s.registry.recorded[Tier(x, k)]| >= |tiers[k]|
    requires IsSplit(s.returned, Tier(x, 1), Block(tiers, published, 1), tiers[1])
    ensures multiset(tiers[k]) <= s.returned
  {
    var recorded := s.registry.recorded[Tier(x, k)];
    RecordedHaveReturned(s, x, tiers, k);
    RecordedArePlanned(s, x, tiers, k);
    if k == 0 {
      FullSubset(recorded, multiset(tiers[0]));
    } else if k == 1 {
      SecondHasReturned(s.returned, recorded, Tier(x, 1), Block(tiers, published, 1), tiers[1]);
    } else {
      AlikeCovers(tiers[k], recorded);
    }
  }

  lemma SecondHasReturned(ret: multiset<Job>, recorded: multiset<Job>, b: BatchId, l: seq<Job>, tier: seq<Job>)
    requires IsSplit(ret, b, l, tier) && Mirrors(l, tier) && recorded <= ret && |recorded| >= |tier|
    requires forall a :: a in recorded || a in tier ==> a.batch == b
    ensures multiset(tier) <= ret
  {
    var i, j :| SplitBy(ret, b, l, tier, i, j);
    SplitSize(recorded, ret, b, l, tier, i, j);
    SplitCovers(ret, b, l, tier, i, j);
  }

  lemma CoversNext(tiers: seq<seq<Job>>, k: nat, m: multiset<Job>)
    requires k < |tiers| && Covers(tiers, k, m) && multiset(tiers[k]) <= m
    ensures Covers(tiers, k + 1, m)
  {
  }

  lemma PublishingOk(x: string, tiers: seq<seq<Job>>, k: nat, ret: multiset<Job>, j: Job)
    requires IsTiering(x, tiers) && k < |tiers| && Covers(tiers, k, ret)
    ensures TaskOk(tiers, ret, Task(j, Publishing(tiers[k])))
  {
    assert tiers[k][0] in tiers[k];
    forall other | other in tiers[k]
      ensures other.batch == tiers[k][0].batch && Covers(tiers, TierOf(other), ret)
    {
      assert other.batch == Tier(x, k);
    }
  }

  predicate Releases(r: Registry, x: string, tiers: seq<seq<Job>>, k: nat) {
    k + 1 < |tiers| && Tier(x, k) in r.recorded && |r.recorded[Tier(x, k)]| + 1 >= |tiers[k]|
  }

  /** Recording releases a tier only when all tiers before it have returned. */
  lemma RecordedCovers(n: State, x: string, tiers: seq<seq<Job>>, published: seq<Job>, r: Registry, k: nat, j: Job, pc: Pc)
    requires IsTurn(x, tiers, published) && KeepsGate(tiers, published) && |tiers| > 1 && k + 1 < |tiers|
    requires InTurn(n, x, tiers) && OnlyPlan(n.registry, x) && Covers(tiers, k, n.returned)
    requires IsSplit(n.returned, Tier(x, 1), Block(tiers, published, 1), tiers[1])
    requires Tier(x, k) in r.recorded && Recorded(r, x, tiers, k, j, n.registry, pc) && Releases(r, x, tiers, k)
    ensures Covers(tiers, k + 1, n.returned)
  {
    CompleteHasReturned(n, x, tiers, published, k);
    CoversNext(tiers, k, n.returned);
  }

  lemma FollowingPc(r: Registry, x: string, tiers: seq<seq<Job>>, k: nat, j: Job, n: Registry, pc: Pc)
    requires k < |tiers| && Tier(x, k) in r.recorded && Recorded(r, x, tiers, k, j, n, pc)
    ensures if k + 1 < |tiers| && |r.recorded[Tier(x, k)]| + 1 >= |tiers[k]| then pc == Publishing(tiers[k + 1])
            else pc == Publishing([]) || pc == Announcing(Tier(x, k), [])
  {
  }

  /** Where recording a job brings its runner. */
  lemma RecordedTaskOk(x: string, tiers: seq<seq<Job>>, r: Registry, k: nat, j: Job, n: Registry, pc: Pc,
                       ret: multiset<Job>)
    requires IsTiering(x, tiers) && k < |tiers| && Tier(x, k) in r.recorded && Recorded(r, x, tiers, k, j, n, pc)
    requires Releases(r, x, tiers, k) ==> Covers(tiers, k + 1, ret)
    ensures TaskOk(tiers, ret, Task(j, pc))
  {
    FollowingPc(r, x, tiers, k, j, n, pc);
    if Releases(r, x, tiers, k) {
      PublishingOk(x, tiers, k + 1, ret, j);
    }
  }

  /** The first tier is found complete once. */
  lemma FirstCompletes(x: string, tiers: seq<seq<Job>>, r: Registry, j: Job, n: State, pc: Pc)
    requires IsTiering(x, tiers) && |tiers| > 1 && InTurn(n, x, tiers) && EntryOk(r, x, tiers, 0)
    requires Recorded(r, x, tiers, 0, j, n.registry, pc) && pc == Publishing(tiers[1])
    ensures Completions(r, x, tiers, 0) == 0 && Completions(n.registry, x, tiers, 0) > 0
  {
    RecordedArePlanned(n, x, tiers, 0);
    SubsetSize(n.registry.recorded[Tier(x, 0)], multiset(tiers[0]));
    CompletionsStep(r, x, tiers, 0, j, n.registry, pc, 0);
  }

  lemma RunnersRecorded(s: State, x: string, tiers: seq<seq<Job>>, j: nat, i: nat, n: State, k: nat, pc: Pc)
    requires IsTiering(x, tiers) && |tiers| > 1 && j <= |tiers[1]| && RunnersAt(s, x, tiers, j) && InTurn(n, x, tiers)
    requires i < |s.tasks| && n.tasks == AtPc(s, i, pc) && k < |tiers| && EntryOk(s.registry, x, tiers, k)
    requires Recorded(s.registry, x, tiers, k, s.tasks[i].job, n.registry, pc)
    ensures RunnersAt(n, x, tiers, j)
  {
    if k == 0 && pc == Publishing(tiers[1]) {
      FirstCompletes(x, tiers, s.registry, s.tasks[i].job, n, pc);
      RunnersSetOut(s, x, tiers, j, i, n);
    } else {
      NotSecond(x, tiers, k, s.registry, s.tasks[i].job, n.registry, pc);
      CompletionsStep(s.registry, x, tiers, k, s.tasks[i].job, n.registry, pc, 0);
      RunnersMove(s, x, tiers, j, i, pc, n);
    }
  }

  lemma NotSecond(x: string, tiers: seq<seq<Job>>, k: nat, r: Registry, j: Job, n: Registry, pc: Pc)
    requires IsTiering(x, tiers) && |tiers| > 1 && k < |tiers| && !(k == 0 && pc == Publishing(tiers[1]))
    requires Tier(x, k) in r.recorded && Recorded(r, x, tiers, k, j, n, pc)
    ensures !PublishesSecond(Task(j, pc), x)
  {
    assert k + 1 < |tiers| ==> tiers[k + 1][0] in tiers[k + 1];
  }

  // ---------------------------------------------------------------- every step

  lemma TaskAdded(tiers: seq<seq<Job>>, s: State, t: Task, n: State)
    requires TasksOk(tiers, s) && n.returned == s.returned && n.tasks == s.tasks + [t] && t.pc.Spawned?
    ensures TasksOk(tiers, n)
  {
  }

  lemma RunnerAdded(s: State, x: string, tiers: seq<seq<Job>>, j: nat, t: Task, n: State)
    requires |tiers| > 1 && j <= |tiers[1]| && RunnersAt(s, x, tiers, j)
    requires n.tasks == s.tasks + [t] && t.pc.Spawned? && n.registry == s.registry
    ensures RunnersAt(n, x, tiers, j)
  {
    forall p, q | 0 <= p < q < |n.tasks|
      ensures NotBoth(n.tasks, x, p, q)
    {
      assert q < |s.tasks| ==> NotBoth(s.tasks, x, p, q);
    }
  }

  lemma ReturnTasksOk(s: State, x: string, tiers: seq<seq<Job>>, published: seq<Job>, i: nat, n: State)
    requires Lined(s, x, tiers, published) && Enabled(s, Return(i)) && n == Returning(s, i)
    ensures TasksOk(tiers, n)
  {
    SlotIsFirst(s, i);
    CoversMore(tiers, TierOf(s.tasks[i].job), s.returned, n.returned);
    TasksMove(tiers, s, i, PoolProtocol.Returned, n);
  }

  lemma AnnounceTasksOk(s: State, tiers: seq<seq<Job>>, i: nat, n: State)
    requires TasksOk(tiers, s) && Enabled(s, Announce(i)) && n == AnnouncingOne(s, i)
    ensures TasksOk(tiers, n)
  {
    assert TaskOk(tiers, s.returned, s.tasks[i]);
    TasksMove(tiers, s, i, Publishing(s.tasks[i].pc.after), n);
  }

  lemma PublishTasksOk(s: State, tiers: seq<seq<Job>>, i: nat, n: State)
    requires TasksOk(tiers, s) && Enabled(s, Publish(i)) && n == PublishingOne(s, i)
    ensures TasksOk(tiers, n)
  {
    PublishTaskOk(tiers, s.returned, s.tasks[i]);
    TasksMove(tiers, s, i, Publishing(s.tasks[i].pc.rest[1..]), n);
  }

  /** All steps but a recording keep the runners in order. */
  lemma TasksStayOk(s: State, x: string, tiers: seq<seq<Job>>, published: seq<Job>, step: Step)
    requires Lined(s, x, tiers, published) && Enabled(s, step) && !step.Register? && !step.Record?
    ensures TasksOk(tiers, Next(s, step))
  {
    var n := Next(s, step);
    match step
    case Acquire => TaskAdded(tiers, s, Task(s.waiting.value, Spawned), n);
    case Start(i) => TasksMove(tiers, s, i, Running(s.runnerCounter), n);
    case Return(i) => ReturnTasksOk(s, x, tiers, published, i, n);
    case Announce(i) => AnnounceTasksOk(s, tiers, i, n);
    case Publish(i) => PublishTasksOk(s, tiers, i, n);
    case _ =>
  }

  lemma PublishTaskOk(tiers: seq<seq<Job>>, ret: multiset<Job>, t: Task)
    requires t.pc.Publishing? && t.pc.rest != [] && TaskOk(tiers, ret, t)
    ensures TaskOk(tiers, ret, t.(pc := Publishing(t.pc.rest[1..])))
    ensures Covers(tiers, TierOf(t.pc.rest[0]), ret)
  {
    var rest := t.pc.rest;
    assert rest[0] in rest;
    forall j | j in rest[1..]
      ensures j.batch == rest[1..][0].batch && Covers(tiers, TierOf(j), ret)
    {
      assert j in rest && rest[1..][0] in rest;
    }
  }

  lemma StartedStays(s: State, x: string, tiers: seq<seq<Job>>, published: seq<Job>, step: Step)
    requires Lined(s, x, tiers, published) && Enabled(s, step) && !step.Register?
    requires s.returned <= Next(s, step).returned
    ensures StartedOk(tiers, Next(s, step))
  {
    var n := Next(s, step);
    if step.Start? {
      SlotIsFirst(s, step.i);
    }
    forall b | n.started[b] > 0
      ensures Covers(tiers, TierOf(b), n.returned)
    {
      CoversMore(tiers, TierOf(b), s.returned, n.returned);
    }
  }

  lemma JoinCovers(s: State, x: string, tiers: seq<seq<Job>>, published: seq<Job>, step: Step)
    requires IsTurn(x, tiers, published) && InOrder(published) && Lined(s, x, tiers, published)
    requires Enabled(s, step) && ChangeOf(s, step).Join?
    ensures Covers(tiers, TierOf(ChangeOf(s, step).j), Arrived(s))
  {
    if step.Deliver? {
      DeliverCovers(s, x, tiers, published);
    } else {
      assert TaskOk(tiers, s.returned, s.tasks[step.i]);
      PublishTaskOk(tiers, s.returned, s.tasks[step.i]);
      CoversMore(tiers, TierOf(ChangeOf(s, step).j), s.returned, Arrived(s));
    }
  }

  lemma DeliveredStays(s: State, published: seq<Job>, step: Step)
    requires DeliveredOk(s, published) && Enabled(s, step) && !step.Register?
    requires Changes(ChangeOf(s, step), s, Next(s, step))
    ensures DeliveredOk(Next(s, step), published)
  {
    ArrivedGrows(ChangeOf(s, step), s, Next(s, step));
    if step.Deliver? {
      DeliveredMore(s.outbox, published, Arrived(s));
    } else {
      OnlyDeliveriesLeave(s, step);
    }
  }

  lemma OnlyDeliveriesLeave(s: State, step: Step)
    requires Enabled(s, step) && !step.Register? && !step.Deliver?
    ensures Next(s, step).outbox == s.outbox
  {
  }
}
