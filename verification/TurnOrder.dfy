/** Which orders of publishing a turn's jobs keep the tier gate with a single slot, and the runs that skip it for all
    others. */
module TurnOrder {
  import opened Jobs
  import opened PoolProtocol
  import opened PoolSafety
  import opened Sequences
  import opened TurnPublishing
  import opened TurnServing

  // ---------------------------------------------------------------- the gate

  /** A job has started while a job of an earlier tier has not returned as often as its tier lists it. */
  ghost predicate StartedEarly(t: State, tiers: seq<seq<Job>>, i: nat, b: Job, k: nat, a: Job)
    requires k < i < |tiers|
  {
    b in tiers[i] && t.started[b] > 0 && a in tiers[k] && t.returned[a] < multiset(tiers[k])[a]
  }

  ghost predicate SkipsGate(t: State, tiers: seq<seq<Job>>) {
    exists i, b, k, a :: 0 <= k < i < |tiers| && StartedEarly(t, tiers, i, b, k, a)
  }

  ghost predicate CanSkipGate(s: State, tiers: seq<seq<Job>>) {
    exists steps, t :: Leads(s, steps, t) && SkipsGate(t, tiers)
  }

  // ---------------------------------------------------------------- the order of publishing

  function TierOf(j: Job): nat {
    if j.batch.Tier? then j.batch.index else 0
  }

  /** No job is published behind one of a later tier. */
  predicate InOrder(published: seq<Job>) {
    forall k, m :: 0 <= k < m < |published| ==> TierOf(published[k]) <= TierOf(published[m])
  }

  predicate Mirrors(a: seq<Job>, b: seq<Job>) {
    |a| == |b| && forall i :: 0 <= i < |a| ==> a[i] == b[|b| - 1 - i]
  }

  predicate AllAlike(tier: seq<Job>) {
    forall i :: 0 <= i < |tier| ==> tier[i] == tier[0]
  }

  /** Jobs in the first `k` tiers. */
  function Size(tiers: seq<seq<Job>>, k: nat): nat
    requires k <= |tiers|
  {
    |Concat(tiers[..k])|
  }

  /** What is published of tier `k`, if the order is that of the tiers. */
  function Block(tiers: seq<seq<Job>>, published: seq<Job>, k: nat): seq<Job>
    requires k < |tiers|
  {
    var from, to := Size(tiers, k), Size(tiers, k) + |tiers[k]|;
    if to <= |published| then published[from..to] else []
  }

  /** The turn keeps the tier gate with one slot: it publishes tier by tier; the second tier, unless it is the last, in
      the reverse of its listed order; and the tiers between the second and the last are of one job each, or of copies of
      one job. */
  predicate KeepsGate(tiers: seq<seq<Job>>, published: seq<Job>) {
    && InOrder(published)
    && (|tiers| > 2 ==> Mirrors(Block(tiers, published, 1), tiers[1]))
    && forall k :: 2 <= k < |tiers| - 1 ==> AllAlike(tiers[k])
  }

  lemma SizeGrows(tiers: seq<seq<Job>>, k: nat)
    requires k < |tiers|
    ensures Size(tiers, k + 1) == Size(tiers, k) + |tiers[k]|
    ensures multiset(Concat(tiers[..k + 1])) == multiset(Concat(tiers[..k])) + multiset(tiers[k])
  {
    assert tiers[..k + 1] == tiers[..k] + [tiers[k]];
    ConcatAppend(tiers[..k], tiers[k]);
  }

  lemma FirstTiersAreTiering(x: string, tiers: seq<seq<Job>>, k: nat)
    requires IsTiering(x, tiers) && k <= |tiers|
    ensures tiers[..k] == [] || IsTiering(x, tiers[..k])
  {
  }

  /** The first `k` tiers are what comes first in the publishing order. */
  ghost predicate FirstTiers(tiers: seq<seq<Job>>, published: seq<Job>, k: nat)
    requires k <= |tiers|
  {
    Size(tiers, k) <= |published| && multiset(published[..Size(tiers, k)]) == multiset(Concat(tiers[..k]))
  }

  /** What then comes behind belongs to the other tiers. */
  lemma Behind(x: string, tiers: seq<seq<Job>>, published: seq<Job>, k: nat, rest: seq<Job>, j: Job)
    requires IsTurn(x, tiers, published) && k <= |tiers| && FirstTiers(tiers, published, k)
    requires rest == published[Size(tiers, k)..]
    ensures multiset(rest)[j] == if OfPrefix(j.batch, x) && k <= j.batch.index then InPlan(x, tiers, j) else 0
  {
    assert published == published[..Size(tiers, k)] + rest;
    PublishedCopies(x, tiers, published, j);
    FirstTiersAreTiering(x, tiers, k);
    CountInPlan(x, tiers[..k], j);
  }

  lemma BehindInTier(x: string, tiers: seq<seq<Job>>, published: seq<Job>, k: nat, rest: seq<Job>, j: Job)
    requires IsTurn(x, tiers, published) && k < |tiers| && FirstTiers(tiers, published, k)
    requires rest == published[Size(tiers, k)..]
    ensures j in rest ==> j.batch.Tier? && TierOf(j) >= k
    ensures j in tiers[k] ==> j.batch == Tier(x, k) && multiset(rest)[j] == multiset(tiers[k])[j]
    ensures j in rest && TierOf(j) == k ==> multiset(rest)[j] == multiset(tiers[k])[j]
  {
    Behind(x, tiers, published, k, rest, j);
  }

  /** In order, a job of a later tier has all of tier `k` ahead of it. */
  lemma LaterComesBehind(x: string, tiers: seq<seq<Job>>, published: seq<Job>, k: nat, rest: seq<Job>, m: nat)
    requires IsTurn(x, tiers, published) && InOrder(published) && k < |tiers| && FirstTiers(tiers, published, k)
    requires rest == published[Size(tiers, k)..] && m < |rest| && TierOf(rest[m]) > k
    ensures |tiers[k]| <= m
  {
    forall j | j in tiers[k]
      ensures multiset(tiers[k])[j] <= multiset(rest[..m])[j]
    {
      BehindInTier(x, tiers, published, k, rest, j);
      assert rest == rest[..m] + rest[m..];
      forall i | 0 <= i < |rest[m..]|
        ensures rest[m..][i] != j
      {
        assert rest[m] == published[Size(tiers, k) + m] && rest[m + i] == published[Size(tiers, k) + m + i];
        assert i > 0 ==> TierOf(published[Size(tiers, k) + m]) <= TierOf(published[Size(tiers, k) + m + i]);
      }
    }
    assert multiset(tiers[k]) <= multiset(rest[..m]);
    SubsetSize(multiset(tiers[k]), multiset(rest[..m]));
  }

  lemma NextTier(x: string, tiers: seq<seq<Job>>, published: seq<Job>, k: nat, rest: seq<Job>)
    requires IsTurn(x, tiers, published) && InOrder(published) && k < |tiers| && FirstTiers(tiers, published, k)
    requires rest == published[Size(tiers, k)..]
    ensures |tiers[k]| <= |rest| && multiset(rest[..|tiers[k]|]) == multiset(tiers[k])
  {
    var n := |tiers[k]|;
    forall j | j in tiers[k]
      ensures multiset(tiers[k])[j] <= multiset(rest)[j]
    {
      BehindInTier(x, tiers, published, k, rest, j);
    }
    assert multiset(tiers[k]) <= multiset(rest);
    SubsetSize(multiset(tiers[k]), multiset(rest));
    forall j | j in rest[..n]
      ensures multiset(rest[..n])[j] <= multiset(tiers[k])[j]
    {
      assert rest == rest[..n] + rest[n..];
      BehindInTier(x, tiers, published, k, rest, j);
      var m :| 0 <= m < n && rest[m] == j;
      if TierOf(j) > k {
        LaterComesBehind(x, tiers, published, k, rest, m);
      }
    }
    assert multiset(rest[..n]) <= multiset(tiers[k]);
    FullSubset(multiset(rest[..n]), multiset(tiers[k]));
  }

  lemma {:induction false} TiersComeFirst(x: string, tiers: seq<seq<Job>>, published: seq<Job>, k: nat)
    requires IsTurn(x, tiers, published) && InOrder(published) && k <= |tiers|
    ensures FirstTiers(tiers, published, k)
    decreases k
  {
    if k == 0 {
      assert published[..0] == [] && tiers[..0] == [];
    } else {
      TiersComeFirst(x, tiers, published, k - 1);
      var from := Size(tiers, k - 1);
      NextTier(x, tiers, published, k - 1, published[from..]);
      SizeGrows(tiers, k - 1);
      assert published[..Size(tiers, k)] == published[..from] + published[from..][..|tiers[k - 1]|];
    }
  }

  /** In order, the tiers are published in blocks. */
  lemma BlockIsTier(x: string, tiers: seq<seq<Job>>, published: seq<Job>, k: nat)
    requires IsTurn(x, tiers, published) && InOrder(published) && k < |tiers|
    ensures FirstTiers(tiers, published, k) && Size(tiers, k) + |tiers[k]| <= |published|
    ensures |Block(tiers, published, k)| == |tiers[k]| && multiset(Block(tiers, published, k)) == multiset(tiers[k])
    ensures forall j :: j in Block(tiers, published, k) ==> j.batch == Tier(x, k)
  {
    TiersComeFirst(x, tiers, published, k);
    var from, n := Size(tiers, k), |tiers[k]|;
    NextTier(x, tiers, published, k, published[from..]);
    assert published[from..][..n] == Block(tiers, published, k);
    forall j | j in Block(tiers, published, k)
      ensures j.batch == Tier(x, k)
    {
      assert j in multiset(tiers[k]);
    }
  }
}
