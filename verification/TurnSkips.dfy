/** Runs of a turn in which a job starts before an earlier tier has returned: out of order, with a second slot, and in
    order with one slot when a tier is completed by copies of its own jobs. */
module TurnSkips {
  import opened Jobs
  import opened PoolProtocol
  import opened TurnOrder
  import opened TurnPublishing
  import opened TurnServing

  /** The turn of a fresh pool. */
  ghost predicate IsStart(s: State, maxSize: nat, x: string, tiers: seq<seq<Job>>, published: seq<Job>) {
    IsTurn(x, tiers, published) && s == AfterTurn(Initial(maxSize), x, tiers, published)
  }

  /** What the runs below need to know of it. */
  ghost predicate AtStart(s: State, x: string, tiers: seq<seq<Job>>, published: seq<Job>) {
    && IsTurn(x, tiers, published) && Idle(s) && s.outbox == published && s.returned == multiset{} && s.tasks == []
    && Entries(s.registry, x, tiers)
    && forall i :: 0 <= i < |tiers| ==> IsEmpty(s.registry, Tier(x, i))
  }

  predicate IsEmpty(r: Registry, b: BatchId) {
    b in r.recorded && r.recorded[b] == multiset{}
  }

  lemma StartIsStart(s: State, maxSize: nat, x: string, tiers: seq<seq<Job>>, published: seq<Job>)
    requires IsStart(s, maxSize, x, tiers, published)
    ensures AtStart(s, x, tiers, published) && s.permits == s.maxSize == maxSize
  {
    EntriesAtFirst(EMPTY, x, tiers, s.registry);
    forall i | 0 <= i < |tiers|
      ensures IsEmpty(s.registry, Tier(x, i))
    {
      EmptyAtFirst(EMPTY, x, tiers, s.registry, i);
    }
    assert [] + published == published;
  }

  // ---------------------------------------------------------------- out of order, or with two slots

  /** What was served behind `k` others has not returned as often as listed. */
  lemma FewerBefore(q: seq<Job>, k: nat, m: nat)
    requires k <= m < |q|
    ensures multiset(q[..k])[q[m]] < multiset(q)[q[m]]
  {
    assert q == q[..k] + q[k..];
    assert q[m] == q[k..][m - k];
  }

  /** A job published behind one of a later tier: with any number of slots, the later tier can start first. */
  lemma OutOfOrderSkips(s: State, x: string, tiers: seq<seq<Job>>, published: seq<Job>, k: nat, m: nat)
    requires AtStart(s, x, tiers, published) && s.permits > 0 && k < m < |published|
    requires TierOf(published[m]) < TierOf(published[k])
    ensures CanSkipGate(s, tiers)
  {
    var a, b := published[m], published[k];
    var one, mid := ServeFirst(s, Turn, k);
    var two, t := StartOne(mid, Turn);
    LeadsConcat(s, one, mid, two, t);
    PublishedCopies(x, tiers, published, a);
    PublishedCopies(x, tiers, published, b);
    FewerBefore(published, k, m);
    assert t.returned == multiset(published[..k]);
    assert StartedEarly(t, tiers, b.batch.index, b, a.batch.index, a);
  }

  /** One job holds a slot while the next one starts in another. */
  lemma HoldAndStart(s: State) returns (steps: seq<Step>, t: State)
    requires Idle(s) && |s.outbox| >= 2 && s.permits >= 2
    ensures Leads(s, steps, t) && t.started == s.started + multiset{s.outbox[1]} && t.returned == s.returned
  {
    var one, mid := SpawnOne(s, Turn);
    var two;
    two, t := StartOne(mid, Turn);
    LeadsConcat(s, one, mid, two, t);
    steps := one + two;
  }

  /** With two slots the order does not help: the job before the first one of a later tier holds a slot. */
  lemma TwoSlotsSkip(s: State, x: string, tiers: seq<seq<Job>>, published: seq<Job>, m: nat)
    requires AtStart(s, x, tiers, published) && s.permits >= 2 && 0 < m < |published|
    requires TierOf(published[m - 1]) < TierOf(published[m])
    ensures CanSkipGate(s, tiers)
  {
    var a, b := published[m - 1], published[m];
    var one, mid := ServeFirst(s, Turn, m - 1);
    assert mid.outbox == published[m - 1..];
    var two, t := HoldAndStart(mid);
    LeadsConcat(s, one, mid, two, t);
    PublishedCopies(x, tiers, published, a);
    PublishedCopies(x, tiers, published, b);
    FewerBefore(published, m - 1, m - 1);
    assert t.returned == multiset(published[..m - 1]);
    assert StartedEarly(t, tiers, b.batch.index, b, a.batch.index, a);
  }

  /** Where the tier rises, somewhere it rises from one job to the next. */
  lemma {:induction false} FirstRise(q: seq<Job>, k: nat, n: nat) returns (m: nat)
    requires k < n < |q| && TierOf(q[k]) < TierOf(q[n])
    ensures k < m <= n && TierOf(q[m - 1]) < TierOf(q[m])
    decreases n
  {
    m := n;
    if TierOf(q[n - 1]) >= TierOf(q[n]) {
      m := FirstRise(q, k, n - 1);
    }
  }

  lemma TierIsPublished(x: string, tiers: seq<seq<Job>>, published: seq<Job>, i: nat) returns (n: nat)
    requires IsTurn(x, tiers, published) && i < |tiers|
    ensures n < |published| && published[n].batch == Tier(x, i)
  {
    var j := tiers[i][0];
    assert j in tiers[i];
    PublishedCopies(x, tiers, published, j);
    assert multiset(published)[j] > 0;
    n :| 0 <= n < |published| && published[n] == j;
  }

  lemma SeveralSlotsSkip(s: State, x: string, tiers: seq<seq<Job>>, published: seq<Job>)
    requires AtStart(s, x, tiers, published) && s.permits >= 2 && |tiers| > 1
    ensures CanSkipGate(s, tiers)
  {
    var first := TierIsPublished(x, tiers, published, 0);
    var later := TierIsPublished(x, tiers, published, 1);
    if first < later {
      var m := FirstRise(published, first, later);
      TwoSlotsSkip(s, x, tiers, published, m);
    } else {
      OutOfOrderSkips(s, x, tiers, published, later, first);
    }
  }

  // ---------------------------------------------------------------- serving a tier

  /** Some runner is about to publish the whole of tier `i`. */
  ghost predicate Released(s: State, tiers: seq<seq<Job>>, i: nat)
    requires i < |tiers|
  {
    exists p :: ReleasedBy(s, tiers, i, p)
  }

  predicate ReleasedBy(s: State, tiers: seq<seq<Job>>, i: nat, p: nat)
    requires i < |tiers|
  {
    p < |s.tasks| && s.tasks[p].pc == Publishing(tiers[i])
  }

  /** Recording jobs of tier `k` adds them to what is recorded for it, and to nothing else. */
  ghost predicate TierRecorded(r: Registry, x: string, tiers: seq<seq<Job>>, k: nat, q: seq<Job>, n: Registry) {
    && Entries(n, x, tiers) && Tier(x, k) in r.recorded
    && n.recorded == r.recorded[Tier(x, k) := r.recorded[Tier(x, k)] + multiset(q)]
  }

  lemma {:induction false} TierIsRecorded(r: Registry, x: string, tiers: seq<seq<Job>>, k: nat, q: seq<Job>)
    requires Entries(r, x, tiers) && k < |tiers| && forall j :: j in q ==> j.batch == Tier(x, k)
    ensures TierRecorded(r, x, tiers, k, q, RecordAll(r, q))
    decreases |q|
  {
    assert EntryOk(r, x, tiers, k);
    if q == [] {
      assert r.recorded[Tier(x, k)] + multiset(q) == r.recorded[Tier(x, k)];
    } else {
      var init, j := q[..|q| - 1], q[|q| - 1];
      TierIsRecorded(r, x, tiers, k, init);
      assert q == init + [j] && j in q;
      OneMoreRecorded(r, x, tiers, k, init, RecordAll(r, init), j);
    }
  }

  lemma OneMoreRecorded(r: Registry, x: string, tiers: seq<seq<Job>>, k: nat, q: seq<Job>, m: Registry, j: Job)
    requires k < |tiers| && TierRecorded(r, x, tiers, k, q, m) && j.batch == Tier(x, k)
    ensures TierRecorded(r, x, tiers, k, q + [j], AfterRecord(m, j))
  {
    assert EntryOk(m, x, tiers, k);
    var before := r.recorded[Tier(x, k)];
    assert before + multiset(q) + multiset{j} == before + multiset(q + [j]);
    RecordedShape(m, x, tiers, k, j);
    RecordedEntries(m, x, tiers, k, j, AfterRecord(m, j), Continuation(m, j.batch));
  }

  /** The job that completes the tier leaves a runner that publishes the next one. */
  lemma CompletingReleases(r: Registry, x: string, tiers: seq<seq<Job>>, k: nat, q: seq<Job>, m: Registry, j: Job)
    requires k + 1 < |tiers| && TierRecorded(r, x, tiers, k, q, m) && j.batch == Tier(x, k)
    requires |r.recorded[Tier(x, k)]| + |q| + 1 >= |tiers[k]|
    ensures Continuation(m, j.batch) == Publishing(tiers[k + 1])
  {
    assert EntryOk(m, x, tiers, k);
    RecordedShape(m, x, tiers, k, j);
  }

  /** `n` jobs of tier `k` have been served from `src`. */
  ghost predicate TierServed(s: State, x: string, tiers: seq<seq<Job>>, k: nat, src: Source, n: nat, t: State)
    requires k < |tiers|
  {
    && Served(s, src, n, t)
    && TierRecorded(s.registry, x, tiers, k, Pending(s, src)[..n], t.registry)
    && (n > 0 && |s.registry.recorded[Tier(x, k)]| + n >= |tiers[k]| && k + 1 < |tiers| ==>
          ReleasedBy(t, tiers, k + 1, |t.tasks| - 1))
  }

  lemma ServedReleases(s: State, x: string, tiers: seq<seq<Job>>, k: nat, src: Source, n: nat, t: State, q: seq<Job>)
    requires n > 0 && k + 1 < |tiers| && Served(s, src, n, t) && q == Pending(s, src)[..n]
    requires Entries(s.registry, x, tiers) && Tier(x, k) in s.registry.recorded
    requires |s.registry.recorded[Tier(x, k)]| + n >= |tiers[k]|
    requires forall j :: j in q ==> j.batch == Tier(x, k)
    ensures ReleasedBy(t, tiers, k + 1, |t.tasks| - 1)
  {
    var init, j := q[..n - 1], q[n - 1];
    assert Continues(s, q, n - 1, t);
    assert j in q && forall other :: other in init ==> other in q;
    TierIsRecorded(s.registry, x, tiers, k, init);
    CompletingReleases(s.registry, x, tiers, k, init, RecordAll(s.registry, init), j);
  }

  lemma ServeTier(s: State, x: string, tiers: seq<seq<Job>>, k: nat, src: Source, n: nat)
    returns (steps: seq<Step>, t: State)
    requires Idle(s) && n <= |Pending(s, src)| && s.permits > 0 && (src.Publisher? ==> src.p < |s.tasks|)
    requires Entries(s.registry, x, tiers) && k < |tiers|
    requires forall j :: j in Pending(s, src)[..n] ==> j.batch == Tier(x, k)
    ensures Leads(s, steps, t) && TierServed(s, x, tiers, k, src, n, t)
  {
    steps, t := ServeFirst(s, src, n);
    var q := Pending(s, src)[..n];
    TierIsRecorded(s.registry, x, tiers, k, q);
    if n > 0 && |s.registry.recorded[Tier(x, k)]| + n >= |tiers[k]| && k + 1 < |tiers| {
      ServedReleases(s, x, tiers, k, src, n, t, q);
    }
  }

  /** Serving from elsewhere leaves a runner alone. */
  lemma StillReleased(s: State, x: string, tiers: seq<seq<Job>>, k: nat, src: Source, n: nat, t: State, i: nat, p: nat)
    requires k < |tiers| && TierServed(s, x, tiers, k, src, n, t) && i < |tiers| && ReleasedBy(s, tiers, i, p)
    requires src != Publisher(p)
    ensures ReleasedBy(t, tiers, i, p)
  {
  }
}
