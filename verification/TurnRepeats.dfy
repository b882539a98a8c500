/** Turns that publish tier by tier and still skip the gate with one slot: the pool publishes the tiers again, and copies
    of some jobs of a tier complete it while another job of the tier has not run. */
module TurnRepeats {
  import opened Jobs
  import opened PoolProtocol
  import opened PoolSafety
  import opened TurnOrder
  import opened TurnPublishing
  import opened TurnServing
  import opened TurnSkips

  // ---------------------------------------------------------------- up to tier k

  predicate IsFull(r: Registry, x: string, tiers: seq<seq<Job>>, i: nat)
    requires i < |tiers|
  {
    Tier(x, i) in r.recorded && |r.recorded[Tier(x, i)]| == |tiers[i]|
  }

  /** The tiers before `k` have been served in order; each has released the next one. */
  ghost predicate AtTier(t: State, x: string, tiers: seq<seq<Job>>, published: seq<Job>, k: nat)
    requires k < |tiers|
  {
    && Idle(t) && Entries(t.registry, x, tiers) && FirstTiers(tiers, published, k)
    && t.outbox == published[Size(tiers, k)..] && t.returned == multiset(published[..Size(tiers, k)])
    && (forall i :: k <= i < |tiers| ==> IsEmpty(t.registry, Tier(x, i)))
    && (k > 0 ==> IsFull(t.registry, x, tiers, k - 1))
    && forall i :: 1 <= i <= k ==> Released(t, tiers, i)
  }

  lemma ServedKeepsReleased(s: State, x: string, tiers: seq<seq<Job>>, k: nat, n: nat, t: State, i: nat)
    requires k < |tiers| && i < |tiers| && TierServed(s, x, tiers, k, Turn, n, t) && Released(s, tiers, i)
    ensures Released(t, tiers, i)
  {
    var p :| ReleasedBy(s, tiers, i, p);
    StillReleased(s, x, tiers, k, Turn, n, t, i, p);
  }

  lemma TakeMore(q: seq<Job>, a: nat, b: nat)
    requires a + b <= |q|
    ensures q[a..][b..] == q[a + b..] && multiset(q[..a]) + multiset(q[a..][..b]) == multiset(q[..a + b])
  {
    assert q[..a] + q[a..][..b] == q[..a + b];
  }

  lemma OutboxMoves(x: string, tiers: seq<seq<Job>>, published: seq<Job>, k: nat)
    requires IsTurn(x, tiers, published) && InOrder(published) && k + 1 < |tiers| && FirstTiers(tiers, published, k)
    ensures FirstTiers(tiers, published, k + 1) && |tiers[k]| <= |published[Size(tiers, k)..]|
    ensures var rest, n := published[Size(tiers, k)..], |tiers[k]|;
            && rest[n..] == published[Size(tiers, k + 1)..]
            && multiset(published[..Size(tiers, k)]) + multiset(rest[..n]) == multiset(published[..Size(tiers, k + 1)])
  {
    SizeGrows(tiers, k);
    TiersComeFirst(x, tiers, published, k + 1);
    TakeMore(published, Size(tiers, k), |tiers[k]|);
  }

  lemma TierFills(s: State, x: string, tiers: seq<seq<Job>>, published: seq<Job>, k: nat, t: State)
    requires k + 1 < |tiers| && AtTier(s, x, tiers, published, k) && TierServed(s, x, tiers, k, Turn, |tiers[k]|, t)
    ensures IsFull(t.registry, x, tiers, k)
    ensures forall i :: k < i < |tiers| ==> IsEmpty(t.registry, Tier(x, i))
  {
    assert IsEmpty(s.registry, Tier(x, k));
    forall i | k < i < |tiers|
      ensures IsEmpty(t.registry, Tier(x, i))
    {
      assert IsEmpty(s.registry, Tier(x, i));
    }
  }

  lemma TierReleases(s: State, x: string, tiers: seq<seq<Job>>, published: seq<Job>, k: nat, t: State)
    requires IsTiering(x, tiers) && k + 1 < |tiers| && AtTier(s, x, tiers, published, k)
    requires TierServed(s, x, tiers, k, Turn, |tiers[k]|, t)
    ensures forall i :: 1 <= i <= k + 1 ==> Released(t, tiers, i)
  {
    forall i | 1 <= i <= k + 1
      ensures Released(t, tiers, i)
    {
      if i <= k {
        ServedKeepsReleased(s, x, tiers, k, |tiers[k]|, t, i);
      } else {
        assert ReleasedBy(t, tiers, k + 1, |t.tasks| - 1);
      }
    }
  }

  lemma NextTierServed(s: State, x: string, tiers: seq<seq<Job>>, published: seq<Job>, k: nat, t: State)
    requires IsTurn(x, tiers, published) && InOrder(published) && k + 1 < |tiers| && AtTier(s, x, tiers, published, k)
    requires TierServed(s, x, tiers, k, Turn, |tiers[k]|, t)
    ensures AtTier(t, x, tiers, published, k + 1)
  {
    OutboxMoves(x, tiers, published, k);
    TierFills(s, x, tiers, published, k, t);
    TierReleases(s, x, tiers, published, k, t);
  }

  lemma ServeWholeTier(s: State, x: string, tiers: seq<seq<Job>>, published: seq<Job>, k: nat)
    returns (steps: seq<Step>, t: State)
    requires IsTurn(x, tiers, published) && InOrder(published) && k + 1 < |tiers|
    requires AtTier(s, x, tiers, published, k) && s.permits > 0
    ensures Leads(s, steps, t) && AtTier(t, x, tiers, published, k + 1) && t.permits == s.permits
  {
    BlockIsTier(x, tiers, published, k);
    assert s.outbox[..|tiers[k]|] == Block(tiers, published, k);
    steps, t := ServeTier(s, x, tiers, k, Turn, |tiers[k]|);
    NextTierServed(s, x, tiers, published, k, t);
  }

  lemma {:induction false} ReachTier(s: State, x: string, tiers: seq<seq<Job>>, published: seq<Job>, k: nat)
    returns (steps: seq<Step>, t: State)
    requires AtStart(s, x, tiers, published) && InOrder(published) && s.permits > 0 && k < |tiers|
    ensures Leads(s, steps, t) && AtTier(t, x, tiers, published, k) && t.permits == s.permits
    decreases k
  {
    if k == 0 {
      steps, t := [], s;
      assert tiers[..0] == [] && published[..0] == [] && published[0..] == published;
    } else {
      var one, m := ReachTier(s, x, tiers, published, k - 1);
      var two;
      two, t := ServeWholeTier(m, x, tiers, published, k - 1);
      LeadsConcat(s, one, m, two, t);
      steps := one + two;
    }
  }

  /** Of tier `k` nothing has returned yet. */
  lemma NoneReturned(t: State, x: string, tiers: seq<seq<Job>>, published: seq<Job>, k: nat, a: Job)
    requires IsTurn(x, tiers, published) && k < |tiers| && AtTier(t, x, tiers, published, k) && a in tiers[k]
    ensures t.returned[a] == 0
  {
    FirstTiersAreTiering(x, tiers, k);
    CountInPlan(x, tiers[..k], a);
  }

  // ---------------------------------------------------------------- tier k from several sources

  /** How many jobs of a tier come from the turn, from one runner that publishes the tier, and from another. */
  datatype Mix = Mix(turn: nat, one: nat, two: nat)

  /** What they are: `l` is what the turn publishes of the tier, `tier` its listed order. */
  function Mixed(l: seq<Job>, tier: seq<Job>, mix: Mix): multiset<Job>
    requires mix.turn <= |l| && mix.one <= |tier| && mix.two <= |tier|
  {
    multiset(l[..mix.turn]) + multiset(tier[..mix.one]) + multiset(tier[..mix.two])
  }

  predicate IsMix(mix: Mix, n: nat) {
    mix.turn + mix.one + mix.two == n
  }

  /** Once the tier is complete, a runner publishes the next one. */
  ghost predicate ReleasesNext(t: State, x: string, tiers: seq<seq<Job>>, k: nat)
    requires k + 1 < |tiers|
  {
    Tier(x, k) in t.registry.recorded
    && (|t.registry.recorded[Tier(x, k)]| >= |tiers[k]| ==> Released(t, tiers, k + 1))
  }

  lemma ServedReleasesNext(s: State, x: string, tiers: seq<seq<Job>>, k: nat, src: Source, n: nat, t: State)
    requires IsTiering(x, tiers) && k + 1 < |tiers| && TierServed(s, x, tiers, k, src, n, t)
    requires ReleasesNext(s, x, tiers, k)
    ensures ReleasesNext(t, x, tiers, k)
  {
    var b := Tier(x, k);
    assert |t.registry.recorded[b]| == |s.registry.recorded[b]| + n;
    if |t.registry.recorded[b]| >= |tiers[k]| {
      if n > 0 {
        assert ReleasedBy(t, tiers, k + 1, |t.tasks| - 1);
      } else {
        var p :| ReleasedBy(s, tiers, k + 1, p);
        assert src == Publisher(p) ==> Pending(t, src) == tiers[k + 1];
        assert ReleasedBy(t, tiers, k + 1, p);
      }
    }
  }

  lemma FromRunner(s: State, x: string, tiers: seq<seq<Job>>, k: nat, p: nat, n: nat)
    returns (steps: seq<Step>, t: State)
    requires IsTiering(x, tiers) && k + 1 < |tiers| && Idle(s) && s.permits > 0 && Entries(s.registry, x, tiers)
    requires ReleasesNext(s, x, tiers, k) && n <= |tiers[k]| && (n > 0 ==> ReleasedBy(s, tiers, k, p))
    ensures Leads(s, steps, t) && Idle(t) && t.permits == s.permits && Entries(t.registry, x, tiers)
    ensures ReleasesNext(t, x, tiers, k) && t.returned == s.returned + multiset(tiers[k][..n])
    ensures |t.registry.recorded[Tier(x, k)]| == |s.registry.recorded[Tier(x, k)]| + n
    ensures forall q :: q != p && ReleasedBy(s, tiers, k, q) ==> ReleasedBy(t, tiers, k, q)
  {
    if n == 0 {
      steps, t := [], s;
      assert s.returned + multiset(tiers[k][..n]) == s.returned;
    } else {
      assert forall j :: j in tiers[k][..n] ==> j in tiers[k];
      steps, t := ServeTier(s, x, tiers, k, Publisher(p), n);
      ServedReleasesNext(s, x, tiers, k, Publisher(p), n, t);
    }
  }

  lemma ServeMix(s: State, x: string, tiers: seq<seq<Job>>, k: nat, p: nat, p2: nat, mix: Mix)
    returns (steps: seq<Step>, t: State)
    requires IsTiering(x, tiers) && k + 1 < |tiers| && Idle(s) && s.permits > 0 && Entries(s.registry, x, tiers)
    requires IsEmpty(s.registry, Tier(x, k)) && IsMix(mix, |tiers[k]|) && mix.turn <= |s.outbox|
    requires forall j :: j in s.outbox[..mix.turn] ==> j.batch == Tier(x, k)
    requires p != p2 && ReleasedBy(s, tiers, k, p) && (mix.two > 0 ==> ReleasedBy(s, tiers, k, p2))
    ensures Leads(s, steps, t) && Idle(t) && t.permits == s.permits && Released(t, tiers, k + 1)
    ensures t.returned == s.returned + Mixed(s.outbox, tiers[k], mix)
  {
    var one, m1 := ServeTier(s, x, tiers, k, Turn, mix.turn);
    StillReleased(s, x, tiers, k, Turn, mix.turn, m1, k, p);
    if mix.two > 0 {
      StillReleased(s, x, tiers, k, Turn, mix.turn, m1, k, p2);
    }
    ServedReleasesNext(s, x, tiers, k, Turn, mix.turn, m1);
    var two, m2 := FromRunner(m1, x, tiers, k, p, mix.one);
    var three;
    three, t := FromRunner(m2, x, tiers, k, p2, mix.two);
    LeadsConcat(s, one, m1, two, m2);
    LeadsConcat(s, one + two, m2, three, t);
    steps := one + two + three;
  }

  lemma StartNext(s: State, x: string, tiers: seq<seq<Job>>, k: nat, a: Job)
    requires IsTiering(x, tiers) && k + 1 < |tiers| && Idle(s) && s.permits > 0 && Released(s, tiers, k + 1)
    requires a in tiers[k] && s.returned[a] < multiset(tiers[k])[a]
    ensures CanSkipGate(s, tiers)
  {
    var p :| ReleasedBy(s, tiers, k + 1, p);
    var steps, t := StartOne(s, Publisher(p));
    assert StartedEarly(t, tiers, k + 1, tiers[k + 1][0], k, a);
  }

  lemma SkipsLater(s: State, steps: seq<Step>, m: State, tiers: seq<seq<Job>>)
    requires Leads(s, steps, m) && CanSkipGate(m, tiers)
    ensures CanSkipGate(s, tiers)
  {
    var more, t :| Leads(m, more, t) && SkipsGate(t, tiers);
    LeadsConcat(s, steps, m, more, t);
  }

  lemma SomeMissing(a: multiset<Job>, b: multiset<Job>) returns (j: Job)
    requires |a| == |b| && a != b
    ensures a[j] < b[j]
  {
    if forall other :: other in b ==> b[other] <= a[other] {
      assert b <= a;
      FullSubset(b, a);
      assert false;
    }
    j :| j in b && a[j] < b[j];
  }

  /** A mixture that is not the tier completes it all the same, and the next tier starts. */
  lemma MixSkips(s: State, x: string, tiers: seq<seq<Job>>, k: nat, p: nat, p2: nat, mix: Mix)
    requires IsTiering(x, tiers) && k + 1 < |tiers| && Idle(s) && s.permits > 0 && Entries(s.registry, x, tiers)
    requires IsEmpty(s.registry, Tier(x, k)) && IsMix(mix, |tiers[k]|) && mix.turn <= |s.outbox|
    requires forall j :: j in s.outbox[..mix.turn] ==> j.batch == Tier(x, k)
    requires p != p2 && ReleasedBy(s, tiers, k, p) && (mix.two > 0 ==> ReleasedBy(s, tiers, k, p2))
    requires Mixed(s.outbox, tiers[k], mix) != multiset(tiers[k])
    requires forall j :: j in tiers[k] ==> s.returned[j] == 0
    ensures CanSkipGate(s, tiers)
  {
    var a := SomeMissing(Mixed(s.outbox, tiers[k], mix), multiset(tiers[k]));
    var steps, t := ServeMix(s, x, tiers, k, p, p2, mix);
    StartNext(t, x, tiers, k, a);
    SkipsLater(s, steps, t, tiers);
  }

  // ---------------------------------------------------------------- the second tier

  /** Two mixtures that differ in one job; at most one of them is the tier. */
  lemma NotMirrored(l: seq<Job>, tier: seq<Job>, outbox: seq<Job>) returns (mix: Mix)
    requires |l| == |tier| && !Mirrors(l, tier) && l <= outbox
    ensures IsMix(mix, |tier|) && mix.two == 0 && mix.turn <= |tier| && Mixed(outbox, tier, mix) != multiset(tier)
  {
    var n := |tier|;
    var i :| 0 <= i < n && l[i] != tier[n - 1 - i];
    mix := Mix(i, n - i, 0);
    if Mixed(outbox, tier, mix) == multiset(tier) {
      OneExchanged(outbox, tier, i);
      mix := Mix(i + 1, n - i - 1, 0);
    }
  }

  lemma OneExchanged(outbox: seq<Job>, tier: seq<Job>, i: nat)
    requires i < |tier| <= |outbox| && outbox[i] != tier[|tier| - 1 - i]
    ensures Mixed(outbox, tier, Mix(i + 1, |tier| - i - 1, 0))[outbox[i]]
            == Mixed(outbox, tier, Mix(i, |tier| - i, 0))[outbox[i]] + 1
  {
    var m := |tier| - i - 1;
    assert outbox[..i + 1] == outbox[..i] + [outbox[i]];
    assert tier[..m + 1] == tier[..m] + [tier[m]];
  }

  lemma SecondTierSkips(s: State, x: string, tiers: seq<seq<Job>>, published: seq<Job>)
    requires AtStart(s, x, tiers, published) && InOrder(published) && s.permits > 0 && |tiers| > 2
    requires !Mirrors(Block(tiers, published, 1), tiers[1])
    ensures CanSkipGate(s, tiers)
  {
    var steps, t := ReachTier(s, x, tiers, published, 1);
    BlockIsTier(x, tiers, published, 1);
    var l := Block(tiers, published, 1);
    assert t.outbox[..|tiers[1]|] == l;
    var mix := NotMirrored(l, tiers[1], t.outbox);
    assert Released(t, tiers, 1) && IsEmpty(t.registry, Tier(x, 1));
    var p :| ReleasedBy(t, tiers, 1, p);
    forall j | j in tiers[1]
      ensures t.returned[j] == 0
    {
      NoneReturned(t, x, tiers, published, 1, j);
    }
    assert forall j :: j in t.outbox[..mix.turn] ==> j in l;
    MixSkips(t, x, tiers, 1, p, |t.tasks|, mix);
    SkipsLater(s, steps, t, tiers);
  }

  // ---------------------------------------------------------------- a tier further on

  /** With two runners publishing the tier: two mixtures that differ in one job. */
  lemma NotAlike(l: seq<Job>, tier: seq<Job>, outbox: seq<Job>) returns (mix: Mix)
    requires |l| == |tier| && !AllAlike(tier) && l <= outbox
    ensures IsMix(mix, |tier|) && mix.turn <= |tier| && Mixed(outbox, tier, mix) != multiset(tier)
  {
    var n := |tier|;
    var i :| 0 <= i < n && tier[i] != l[0];
    mix := Mix(0, i + 1, n - i - 1);
    if Mixed(outbox, tier, mix) == multiset(tier) {
      mix := Mix(1, i, n - i - 1);
      assert outbox[..1] == [l[0]] && outbox[..0] == [];
      assert tier[..i + 1] == tier[..i] + [tier[i]];
      assert Mixed(outbox, tier, mix)[l[0]] == multiset(tier)[l[0]] + 1;
    }
  }

  /** One job of the tier before is run again: a second runner publishes the tier. */
  lemma SecondRunner(s: State, x: string, tiers: seq<seq<Job>>, published: seq<Job>, k: nat)
    returns (steps: seq<Step>, t: State, p: nat, p2: nat)
    requires IsTurn(x, tiers, published) && 2 <= k < |tiers| - 1 && AtTier(s, x, tiers, published, k) && s.permits > 0
    ensures Leads(s, steps, t) && Idle(t) && t.permits == s.permits && Entries(t.registry, x, tiers)
    ensures t.outbox == s.outbox && IsEmpty(t.registry, Tier(x, k))
    ensures p != p2 && ReleasedBy(t, tiers, k, p) && ReleasedBy(t, tiers, k, p2)
    ensures forall j :: j in tiers[k] ==> t.returned[j] == 0
  {
    assert Released(s, tiers, k) && Released(s, tiers, k - 1) && IsEmpty(s.registry, Tier(x, k));
    var q :| ReleasedBy(s, tiers, k - 1, q);
    p :| ReleasedBy(s, tiers, k, p);
    assert tiers[k - 1][0] in tiers[k - 1] && tiers[k][0] in tiers[k] && tiers[k - 1][..1] == [tiers[k - 1][0]];
    steps, t := ServeTier(s, x, tiers, k - 1, Publisher(q), 1);
    p2 := |t.tasks| - 1;
    StillReleased(s, x, tiers, k - 1, Publisher(q), 1, t, k, p);
    forall j | j in tiers[k]
      ensures t.returned[j] == 0
    {
      NoneReturned(s, x, tiers, published, k, j);
    }
  }

  lemma MiddleTierSkips(s: State, x: string, tiers: seq<seq<Job>>, published: seq<Job>, k: nat)
    requires AtStart(s, x, tiers, published) && InOrder(published) && s.permits > 0 && 2 <= k < |tiers| - 1
    requires !AllAlike(tiers[k])
    ensures CanSkipGate(s, tiers)
  {
    var one, m := ReachTier(s, x, tiers, published, k);
    BlockIsTier(x, tiers, published, k);
    var l := Block(tiers, published, k);
    assert m.outbox[..|tiers[k]|] == l;
    var two, t, p, p2 := SecondRunner(m, x, tiers, published, k);
    var mix := NotAlike(l, tiers[k], t.outbox);
    assert forall j :: j in t.outbox[..mix.turn] ==> j in l;
    MixSkips(t, x, tiers, k, p, p2, mix);
    SkipsLater(m, two, t, tiers);
    SkipsLater(s, one, m, tiers);
  }
}
