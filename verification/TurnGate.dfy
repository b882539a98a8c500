/** Exactly when a turn that publishes all of its jobs can break the tier gate. */
module TurnGate {
  import opened Jobs
  import opened OrderedRuns
  import opened PoolProgress
  import opened PoolProtocol
  import opened TurnOrder
  import opened TurnRepeats
  import opened TurnServing
  import opened TurnSkips

  // ---------------------------------------------------------------- the tier gate

  /** Any order that does not keep the gate with one slot loses it with any number of slots. */
  lemma OtherOrdersSkip(s: State, x: string, tiers: seq<seq<Job>>, published: seq<Job>)
    requires AtStart(s, x, tiers, published) && s.permits > 0 && !KeepsGate(tiers, published)
    ensures CanSkipGate(s, tiers)
  {
    if !InOrder(published) {
      var k, m :| 0 <= k < m < |published| && TierOf(published[k]) > TierOf(published[m]);
      OutOfOrderSkips(s, x, tiers, published, k, m);
    } else if |tiers| > 2 && !Mirrors(Block(tiers, published, 1), tiers[1]) {
      SecondTierSkips(s, x, tiers, published);
    } else {
      var k :| 2 <= k < |tiers| - 1 && !AllAlike(tiers[k]);
      MiddleTierSkips(s, x, tiers, published, k);
    }
  }

  lemma NoSlotsNoGate(s: State, x: string, tiers: seq<seq<Job>>, published: seq<Job>)
    requires IsStart(s, 0, x, tiers, published)
    ensures !CanSkipGate(s, tiers)
  {
    StartIsStart(s, 0, x, tiers, published);
    forall steps, t | Leads(s, steps, t)
      ensures !SkipsGate(t, tiers)
    {
      NoSlotsNoProgress(s, steps, t);
    }
  }

  /** Some run of the turn lets a job start before an earlier tier has returned if and only if: with two slots or more, the
      plan has more than one tier; with one slot, the order of publishing is not one that keeps the gate. */
  lemma GateCanBeSkippedIff(s: State, maxSize: nat, x: string, tiers: seq<seq<Job>>, published: seq<Job>)
    requires IsStart(s, maxSize, x, tiers, published)
    ensures CanSkipGate(s, tiers) <==>
            if maxSize >= 2 then |tiers| > 1 else maxSize == 1 && !KeepsGate(tiers, published)
  {
    StartIsStart(s, maxSize, x, tiers, published);
    if maxSize == 0 {
      NoSlotsNoGate(s, x, tiers, published);
    } else if maxSize == 1 && KeepsGate(tiers, published) {
      forall steps, t | Leads(s, steps, t)
        ensures !SkipsGate(t, tiers)
      {
        OrderKeepsGate(s, x, tiers, published, steps, t);
      }
    } else if maxSize == 1 {
      OtherOrdersSkip(s, x, tiers, published);
    } else if |tiers| > 1 {
      SeveralSlotsSkip(s, x, tiers, published);
    }
  }
}
