/** The owner-offline decision queue (src/graphclaw/agent/escalation.py, lines 400-583): a write-through cache of
    mutable decisions over a table, which together behave as one map. Writes to the table succeed. */
module DecisionQueue {
  import opened Options
  import opened Sequences
  import opened Sorting

  type DecisionId = string
  type UserId = string

  datatype Decision = Decision(user: UserId, createdAt: int, expiresAt: Option<int>, resolvedAt: Option<int>,
                               resolution: Option<string>)

  type Decisions = map<DecisionId, Decision>

  const FALLBACK := "fallback_conservative"

  // ---------------------------------------------------------------- the one map

  predicate Open(d: Decision) { d.resolvedAt.None? }

  predicate OpenFor(d: Decision, user: UserId) { Open(d) && d.user == user }

  /** Unresolved, with a deadline that has passed. */
  predicate Due(d: Decision, now: int) { Open(d) && d.expiresAt.Some? && d.expiresAt.value <= now }

  function Resolved(d: Decision, now: int, verdict: string): Decision {
    d.(resolvedAt := Some(now), resolution := Some(verdict))
  }

  function Swept(ds: Decisions, now: int): Decisions {
    map id | id in ds :: if Due(ds[id], now) then Resolved(ds[id], now, FALLBACK) else ds[id]
  }

  datatype Call =
    | Enqueue(id: DecisionId, user: UserId, now: int, waitHours: int)
    | Resolve(id: DecisionId, verdict: string, now: int)
    | Sweep(now: int)

  function Enqueued(user: UserId, now: int, waitHours: int): Decision {
    Decision(user, now, Some(now + 3600 * waitHours), None, None)
  }

  function Next(ds: Decisions, c: Call): Decisions {
    match c
    case Enqueue(id, user, now, waitHours) => ds[id := Enqueued(user, now, waitHours)]
    case Resolve(id, verdict, now) => if id in ds then ds[id := Resolved(ds[id], now, verdict)] else ds
    case Sweep(now) => Swept(ds, now)
  }

  /** A sweep leaves nothing due at its time or before, so a repeat, even with an earlier clock, resolves none. */
  lemma SweepLeavesNothingDue(ds: Decisions, now: int, again: int)
    requires again <= now
    ensures forall id :: id in Swept(ds, now) ==> !Due(Swept(ds, now)[id], again)
    ensures Swept(Swept(ds, now), again) == Swept(ds, now)
  {
  }

  // ---------------------------------------------------------------- whole runs

  ghost predicate StepAt(dss: seq<Decisions>, cs: seq<Call>, i: nat)
    requires i < |cs| < |dss|
  {
    (cs[i].Enqueue? ==> cs[i].id !in dss[i]) && dss[i + 1] == Next(dss[i], cs[i])
  }

  /** A run from any decisions at all; new ids are fresh. */
  ghost predicate IsRun(dss: seq<Decisions>, cs: seq<Call>) {
    |dss| == |cs| + 1 && forall i :: 0 <= i < |cs| ==> StepAt(dss, cs, i)
  }

  predicate OwnerResolves(ds: Decisions, c: Call, id: DecisionId) {
    c.Resolve? && c.id == id && id in ds
  }

  predicate FallbackFires(ds: Decisions, c: Call, id: DecisionId) {
    c.Sweep? && id in ds && Due(ds[id], c.now)
  }

  lemma StepOfDecision(dss: seq<Decisions>, cs: seq<Call>, id: DecisionId, i: nat)
    requires IsRun(dss, cs) && i < |cs| && id in dss[i]
    ensures id in dss[i + 1]
    ensures if OwnerResolves(dss[i], cs[i], id) then dss[i + 1][id] == Resolved(dss[i][id], cs[i].now, cs[i].verdict)
            else if FallbackFires(dss[i], cs[i], id) then dss[i + 1][id] == Resolved(dss[i][id], cs[i].now, FALLBACK)
            else dss[i + 1][id] == dss[i][id]
  {
    assert StepAt(dss, cs, i);
  }

  /** Since call `i`, up to `n`, the owner has not resolved `id` again. */
  ghost predicate NoOwnerSince(dss: seq<Decisions>, cs: seq<Call>, id: DecisionId, i: int, n: nat)
    requires |cs| < |dss| && n <= |cs|
  {
    forall j :: 0 <= j < n && i < j ==> !OwnerResolves(dss[j], cs[j], id)
  }

  /** Whose decision it is, when it was made and by when it is due are the same. */
  predicate SameQuestion(d: Decision, e: Decision) {
    d.user == e.user && d.createdAt == e.createdAt && d.expiresAt == e.expiresAt
  }

  lemma {:induction false} QuestionsStay(dss: seq<Decisions>, cs: seq<Call>, id: DecisionId, m: nat, n: nat)
    requires IsRun(dss, cs) && m <= n <= |cs| && id in dss[m]
    ensures id in dss[n] && SameQuestion(dss[n][id], dss[m][id])
    decreases n
  {
    if m < n {
      QuestionsStay(dss, cs, id, m, n - 1);
      StepOfDecision(dss, cs, id, n - 1);
    }
  }

  /** A decision that is enqueued is open, belongs to the user it was made for, and falls due `waitHours` hours later;
      whose it is and when it falls due stay so. */
  lemma EnqueuedIsOpen(dss: seq<Decisions>, cs: seq<Call>, i: nat, n: nat)
    requires IsRun(dss, cs) && i < n <= |cs| && cs[i].Enqueue?
    ensures cs[i].id in dss[i + 1] && dss[i + 1][cs[i].id].resolvedAt.None? && dss[i + 1][cs[i].id].resolution.None?
    ensures cs[i].id in dss[n] && dss[n][cs[i].id].user == cs[i].user && dss[n][cs[i].id].createdAt == cs[i].now
    ensures dss[n][cs[i].id].expiresAt == Some(cs[i].now + 3600 * cs[i].waitHours)
  {
    assert StepAt(dss, cs, i);
    QuestionsStay(dss, cs, cs[i].id, i + 1, n);
  }

  /** Once the owner has resolved a decision, it carries the owner's latest word and the time of it, and no later call,
      no sweep in particular, changes it. */
  lemma {:induction false} OwnerHasTheLastWord(dss: seq<Decisions>, cs: seq<Call>, id: DecisionId, i: nat, n: nat)
    requires IsRun(dss, cs) && i < n <= |cs|
    requires OwnerResolves(dss[i], cs[i], id) && NoOwnerSince(dss, cs, id, i, n)
    ensures id in dss[n] && SameQuestion(dss[n][id], dss[i][id])
    ensures dss[n][id].resolution == Some(cs[i].verdict) && dss[n][id].resolvedAt == Some(cs[i].now)
    ensures forall j :: i < j <= n ==> id in dss[j] && dss[j][id] == dss[n][id]
    decreases n
  {
    if n == i + 1 {
      StepOfDecision(dss, cs, id, i);
    } else {
      OwnerHasTheLastWord(dss, cs, id, i, n - 1);
      StepOfDecision(dss, cs, id, n - 1);
    }
  }

  /** The fallback has been applied to `before` at time `now`. */
  predicate FellBack(before: Decision, after: Decision, now: int) {
    SameQuestion(after, before) && after.resolution == Some("fallback_conservative") && after.resolvedAt == Some(now)
  }

  /** A decision the owner never touches: unchanged until the first sweep at or after its deadline, which marks it with
      the fallback label and the time of that sweep. */
  lemma {:induction false} FallbackFiresOnce(dss: seq<Decisions>, cs: seq<Call>, id: DecisionId, k: nat, n: nat)
    requires IsRun(dss, cs) && k <= n <= |cs| && id in dss[k] && dss[k][id].resolvedAt.None?
    requires forall j :: k <= j < n ==> !OwnerResolves(dss[j], cs[j], id)
    ensures id in dss[n]
    ensures if exists i :: k <= i < n && IsFirstDueSweep(cs, dss[k][id], i, k) then
              exists i :: k <= i < n && IsFirstDueSweep(cs, dss[k][id], i, k)
                          && FellBack(dss[k][id], dss[n][id], cs[i].now)
            else dss[n][id] == dss[k][id]
    decreases n
  {
    if n > k {
      var d := dss[k][id];
      FallbackFiresOnce(dss, cs, id, k, n - 1);
      StepOfDecision(dss, cs, id, n - 1);
      if exists i :: k <= i < n - 1 && IsFirstDueSweep(cs, d, i, k) {
        var i :| k <= i < n - 1 && IsFirstDueSweep(cs, d, i, k) && FellBack(d, dss[n - 1][id], cs[i].now);
        assert dss[n][id] == dss[n - 1][id];
      } else if FallbackFires(dss[n - 1], cs[n - 1], id) {
        NoEarlierSweep(cs, d, k, n - 1);
        assert IsFirstDueSweep(cs, d, n - 1, k);
      } else {
        assert !IsFirstDueSweep(cs, d, n - 1, k);
      }
    }
  }

  predicate DueSweep(c: Call, d: Decision) {
    c.Sweep? && d.expiresAt.Some? && d.expiresAt.value <= c.now
  }

  ghost predicate IsFirstDueSweep(cs: seq<Call>, d: Decision, i: nat, k: nat)
    requires i < |cs|
  {
    DueSweep(cs[i], d) && forall j :: k <= j < i ==> !DueSweep(cs[j], d)
  }

  lemma {:induction false} NoEarlierSweep(cs: seq<Call>, d: Decision, k: nat, n: nat)
    requires n <= |cs| && forall i :: k <= i < n ==> !IsFirstDueSweep(cs, d, i, k)
    ensures forall i :: k <= i < n ==> !DueSweep(cs[i], d)
    decreases n
  {
    if n > k {
      NoEarlierSweep(cs, d, k, n - 1);
      assert !IsFirstDueSweep(cs, d, n - 1, k);
    }
  }

  // ---------------------------------------------------------------- the queue

  class PendingDecision {
    const id: DecisionId
    const user: UserId
    const createdAt: int
    const expiresAt: Option<int>
    var resolvedAt: Option<int>
    var resolution: Option<string>

    constructor (id: DecisionId, d: Decision)
      ensures this.id == id && Value() == d
    {
      this.id, user, createdAt, expiresAt := id, d.user, d.createdAt, d.expiresAt;
      resolvedAt, resolution := d.resolvedAt, d.resolution;
    }

    function Value(): Decision
      reads this
    {
      Decision(user, createdAt, expiresAt, resolvedAt, resolution)
    }
  }

  ghost function Ids(ds: seq<PendingDecision>): set<DecisionId> {
    set d | d in ds :: d.id
  }

  /** No id comes twice. */
  ghost predicate Unique(ds: seq<PendingDecision>) {
    NoDup(ds) && forall d, e :: d in ds && e in ds && d.id == e.id ==> d == e
  }

  /** The decisions with these ids, once each. */
  ghost predicate Lists(ds: seq<PendingDecision>, ids: set<DecisionId>) {
    Ids(ds) == ids && Unique(ds)
  }

  class OwnerOfflineEscalationQueue {
    const pooled: bool
    var cache: map<DecisionId, PendingDecision>
    var table: Decisions
    ghost var decisions: Decisions  // the one map

    /** A starting queue: nothing cached, and whatever the table holds if there is one. */
    constructor (pooled: bool, table: Decisions)
      requires !pooled ==> table == map[]
      ensures Valid() && decisions == table
    {
      this.pooled, cache, this.table, decisions := pooled, map[], table, table;
    }

    ghost predicate Valid()
      reads this, cache.Values
    {
      && cache.Keys <= decisions.Keys
      && (pooled ==> table == decisions)
      && (!pooled ==> cache.Keys == decisions.Keys)
      && forall id :: id in cache ==> cache[id].id == id && cache[id].Value() == decisions[id]
    }

    method Enqueue(id: DecisionId, user: UserId, now: int, waitHours: int) returns (d: PendingDecision)
      requires Valid() && id !in decisions
      modifies this
      ensures Valid() && decisions == Next(old(decisions), Call.Enqueue(id, user, now, waitHours))
      ensures d.id == id && d.Value() == decisions[id] && d.resolvedAt.None? && d.resolution.None?
      ensures d.user == user && d.createdAt == now && d.expiresAt == Some(now + 3600 * waitHours)
      ensures decisions.Keys == old(decisions).Keys + {id}
      ensures forall k :: k in old(decisions) ==> decisions[k] == old(decisions)[k]
    {
      d := new PendingDecision(id, Enqueued(user, now, waitHours));
      cache := cache[id := d];
      if pooled && id !in table {
        table := table[id := d.Value()];
      }
      decisions := decisions[id := Enqueued(user, now, waitHours)];
    }

    /** `_persist_update`, on a reliable table. */
    method PersistUpdate(d: PendingDecision)
      modifies this`table
      ensures table == if d.id in old(table) then
                         old(table)[d.id := old(table)[d.id].(resolvedAt := d.resolvedAt, resolution := d.resolution)]
                       else old(table)
    {
      if d.id in table {
        table := table[d.id := table[d.id].(resolvedAt := d.resolvedAt, resolution := d.resolution)];
      }
    }

    /** Marks `d` resolved, in memory and in the table. */
    method Settle(d: PendingDecision, now: int, verdict: string)
      requires Valid() && d.id in decisions && d.Value() == decisions[d.id]
      requires d.id in cache ==> cache[d.id] == d
      requires !pooled ==> d.id in cache
      modifies this`table, this`decisions, d
      ensures Valid() && decisions == old(decisions)[d.id := Resolved(old(decisions[d.id]), now, verdict)]
      ensures d.Value() == decisions[d.id] && d.resolvedAt == Some(now) && d.resolution == Some(verdict)
    {
      d.resolvedAt := Some(now);
      d.resolution := Some(verdict);
      if pooled {
        PersistUpdate(d);
      }
      decisions := decisions[d.id := Resolved(decisions[d.id], now, verdict)];
    }

    method Resolve(id: DecisionId, verdict: string, now: int) returns (found: bool)
      requires Valid()
      modifies this`table, this`decisions, cache.Values
      ensures Valid() && decisions == Next(old(decisions), Call.Resolve(id, verdict, now))
      ensures found <==> id in old(decisions)
      ensures decisions.Keys == old(decisions).Keys
      ensures forall k :: k in decisions && k != id ==> decisions[k] == old(decisions)[k]
      ensures found ==> decisions[id].resolution == Some(verdict) && decisions[id].resolvedAt == Some(now)
      ensures found ==> SameQuestion(decisions[id], old(decisions)[id])
    {
      found := true;
      if id in cache {
        Settle(cache[id], now, verdict);
      } else if pooled && id in table {
        var d := new PendingDecision(id, table[id]);
        Settle(d, now, verdict);
      } else {
        found := false;
      }
    }

    /** `list(self._cache.values())`, in some order. */
    method CachedValues() returns (ds: seq<PendingDecision>)
      requires Valid()
      ensures Lists(ds, cache.Keys) && forall d :: d in ds ==> d.id in cache && cache[d.id] == d
    {
      ds := [];
      var rest := cache.Keys;
      while rest != {}
        invariant rest <= cache.Keys && Lists(ds, cache.Keys - rest)
        invariant forall d :: d in ds ==> d.id in cache && cache[d.id] == d
        decreases rest
      {
        var id :| id in rest;
        ListsMore(ds, cache.Keys - rest, cache[id]);
        assert cache.Keys - (rest - {id}) == cache.Keys - rest + {id};
        ds, rest := ds + [cache[id]], rest - {id};
      }
      assert cache.Keys - rest == cache.Keys;
    }

    ghost function OpenRows(user: Option<UserId>): set<DecisionId>
      reads this
    {
      set id | id in table && Open(table[id]) && (user.Some? ==> table[id].user == user.value)
    }

    /** The unresolved rows, of one user or of all, as new objects. */
    method LoadOpen(user: Option<UserId>) returns (rows: seq<PendingDecision>)
      ensures Lists(rows, OpenRows(user))
      ensures forall d :: d in rows ==> fresh(d) && d.id in table && d.Value() == table[d.id]
    {
      rows := [];
      var rest := set id | id in table && Open(table[id]) && (user.Some? ==> table[id].user == user.value);
      while rest != {}
        invariant rest <= OpenRows(user) && Lists(rows, OpenRows(user) - rest)
        invariant forall d :: d in rows ==> fresh(d) && d.id in table && d.Value() == table[d.id]
        decreases rest
      {
        var id :| id in rest;
        var d := new PendingDecision(id, table[id]);
        ListsMore(rows, OpenRows(user) - rest, d);
        assert OpenRows(user) - (rest - {id}) == OpenRows(user) - rest + {id};
        rows, rest := rows + [d], rest - {id};
      }
      assert OpenRows(user) - rest == OpenRows(user);
    }

    /** Adds the rows that are not among `found` yet, and caches them. */
    method Adopt(found: seq<PendingDecision>, rows: seq<PendingDecision>) returns (all: seq<PendingDecision>)
      requires Valid() && pooled && Unique(found) && Unique(rows)
      requires forall d :: d in rows ==> d.id in decisions && d.Value() == decisions[d.id]
      modifies this`cache
      ensures Valid() && Lists(all, Ids(found) + Ids(rows))
      ensures forall d :: d in all ==> d in found || (d in rows && d.id in cache && cache[d.id] == d)
      ensures forall id :: id in Ids(found) && id in old(cache) ==> id in cache && cache[id] == old(cache)[id]
      ensures forall id :: id in cache ==> cache[id] in old(cache.Values) || cache[id] in rows
    {
      all := found;
      var seen := set d | d in found :: d.id;
      for i := 0 to |rows|
        invariant Valid() && Lists(all, Ids(found) + Ids(rows[..i]))
        invariant forall d :: d in all ==> d in found || (d in rows[..i] && d.id in cache && cache[d.id] == d)
        invariant forall id :: id in seen && id in old(cache) ==> id in cache && cache[id] == old(cache)[id]
        invariant forall id :: id in cache ==> cache[id] in old(cache.Values) || cache[id] in rows
      {
        var d := rows[i];
        NextRow(rows, i);
        if d.id !in seen {
          ListsMore(all, Ids(found) + Ids(rows[..i]), d);
          all := all + [d];
          cache := cache[d.id := d];
        }
        assert Ids(found) + Ids(rows[..i + 1]) == Ids(found) + Ids(rows[..i]) + {d.id};
      }
      assert rows[..|rows|] == rows;
    }

    /** Every unresolved decision of the user, once, in creation order. */
    method ListPending(user: UserId) returns (pending: seq<PendingDecision>)
      requires Valid()
      modifies this`cache
      ensures Valid()
      ensures Lists(pending, OpenAmong(decisions, decisions.Keys, user))
      ensures forall d :: d in pending ==> d.id in decisions && d.Value() == decisions[d.id]
      ensures forall id :: id in Ids(pending) <==>
                id in decisions && decisions[id].user == user && decisions[id].resolvedAt.None?
      ensures forall i, j :: 0 <= i < j < |pending| ==> pending[i].createdAt <= pending[j].createdAt
    {
      var cached := CachedValues();
      var found := FilterOpen(cached, user);
      if pooled {
        var rows := LoadOpen(Some(user));
        found := Adopt(found, rows);
      }
      pending := Sort(found, (d: PendingDecision) => (d.createdAt, 0));
      SameEntries(found, pending);
    }

    method FilterOpen(cached: seq<PendingDecision>, user: UserId) returns (found: seq<PendingDecision>)
      requires Valid() && Lists(cached, cache.Keys) && forall d :: d in cached ==> d.id in cache && cache[d.id] == d
      ensures Lists(found, OpenAmong(decisions, cache.Keys, user))
      ensures forall d :: d in found ==> d.id in cache && cache[d.id] == d
    {
      found := [];
      for i := 0 to |cached|
        invariant Lists(found, OpenAmong(decisions, Ids(cached[..i]), user))
        invariant forall d :: d in found ==> d in cached
      {
        var d := cached[i];
        NextRow(cached, i);
        OpenStep(decisions, Ids(cached[..i]), d.id, user);
        if d.user == user && d.resolvedAt.None? {
          ListsMore(found, OpenAmong(decisions, Ids(cached[..i]), user), d);
          found := found + [d];
        }
      }
      assert cached[..|cached|] == cached;
    }

    /** Everything cached, and every unresolved row. */
    method Candidates() returns (candidates: seq<PendingDecision>)
      requires Valid()
      modifies this`cache
      ensures Valid() && Unique(candidates)
      ensures forall d :: d in candidates ==> d.id in cache && cache[d.id] == d
      ensures forall id :: id in decisions && Open(decisions[id]) ==> id in Ids(candidates)
      ensures forall d :: d in cache.Values ==> d in old(cache.Values) || fresh(d)
    {
      candidates := CachedValues();
      if pooled {
        var rows := LoadOpen(None);
        candidates := Adopt(candidates, rows);
      }
    }

    /** `process_expired` */
    method ProcessExpired(now: int) returns (expired: seq<PendingDecision>)
      requires Valid()
      modifies this, cache.Values
      ensures Valid() && decisions == Next(old(decisions), Sweep(now))
      ensures Lists(expired, DueAmong(old(decisions), old(decisions.Keys), now))
      ensures decisions.Keys == old(decisions).Keys
      ensures forall id :: id in decisions ==>
                var d := old(decisions)[id];
                if d.resolvedAt.None? && d.expiresAt.Some? && d.expiresAt.value <= now
                then id in Ids(expired) && FellBack(d, decisions[id], now)
                else id !in Ids(expired) && decisions[id] == d
      ensures forall d :: d in expired ==>
                d.id in decisions && d.resolution == Some("fallback_conservative") && d.resolvedAt == Some(now)
    {
      var candidates := Candidates();
      expired := FireFallbacks(candidates, now);
      assert decisions == Swept(old(decisions), now);
    }

    /** The loop over the candidates. */
    method FireFallbacks(candidates: seq<PendingDecision>, now: int) returns (expired: seq<PendingDecision>)
      requires Valid() && Unique(candidates) && forall d :: d in candidates ==> d.id in cache && cache[d.id] == d
      modifies this`table, this`decisions, cache.Values
      ensures Valid() && SweptUpTo(old(decisions), decisions, Ids(candidates), now)
      ensures Lists(expired, DueAmong(old(decisions), Ids(candidates), now))
      ensures forall d :: d in expired ==> d in candidates
    {
      expired := [];
      ghost var before := decisions;
      for i := 0 to |candidates|
        invariant Valid() && SweptUpTo(before, decisions, Ids(candidates[..i]), now)
        invariant Lists(expired, DueAmong(before, Ids(candidates[..i]), now))
        invariant forall d :: d in expired ==> d in candidates
      {
        NextRow(candidates, i);
        expired := FireNext(candidates[i], now, expired, before, Ids(candidates[..i]));
      }
      assert candidates[..|candidates|] == candidates;
    }

    method FireNext(d: PendingDecision, now: int, fired: seq<PendingDecision>, ghost before: Decisions,
                    ghost ids: set<DecisionId>)
      returns (expired: seq<PendingDecision>)
      requires Valid() && d.id in cache && cache[d.id] == d && d.id !in ids
      requires SweptUpTo(before, decisions, ids, now) && Lists(fired, DueAmong(before, ids, now))
      modifies this`table, this`decisions, d
      ensures Valid() && SweptUpTo(before, decisions, ids + {d.id}, now)
      ensures Lists(expired, DueAmong(before, ids + {d.id}, now))
      ensures forall e :: e in expired ==> e in fired || e == d
    {
      SweepStep(before, decisions, ids, d.id, now);
      expired := fired;
      var due := FireIfDue(d, now);
      if due {
        ListsMore(fired, DueAmong(before, ids, now), d);
        expired := fired + [d];
      }
    }

    method FireIfDue(d: PendingDecision, now: int) returns (fired: bool)
      requires Valid() && d.id in cache && cache[d.id] == d
      modifies this`table, this`decisions, d
      ensures Valid() && fired == Due(old(decisions[d.id]), now)
      ensures decisions == if fired then old(decisions)[d.id := Resolved(old(decisions[d.id]), now, FALLBACK)]
                           else old(decisions)
    {
      if d.resolvedAt.Some? || d.expiresAt.None? || now < d.expiresAt.value {
        return false;
      }
      Settle(d, now, FALLBACK);
      return true;
    }
  }

  ghost function DueAmong(ds: Decisions, ids: set<DecisionId>, now: int): set<DecisionId> {
    set id | id in ids && id in ds && Due(ds[id], now)
  }

  ghost predicate SweptUpTo(before: Decisions, after: Decisions, ids: set<DecisionId>, now: int) {
    && after.Keys == before.Keys
    && forall id :: id in before ==>
         after[id] == if id in ids && Due(before[id], now) then Resolved(before[id], now, FALLBACK) else before[id]
  }

  lemma SweepStep(before: Decisions, after: Decisions, ids: set<DecisionId>, id: DecisionId, now: int)
    requires id in before && id !in ids && SweptUpTo(before, after, ids, now)
    ensures after[id] == before[id] && id !in DueAmong(before, ids, now)
    ensures DueAmong(before, ids + {id}, now) == DueAmong(before, ids, now) + (if Due(before[id], now) then {id} else {})
    ensures SweptUpTo(before, if Due(before[id], now) then after[id := Resolved(before[id], now, FALLBACK)] else after,
                      ids + {id}, now)
  {
  }

  ghost function OpenAmong(ds: Decisions, ids: set<DecisionId>, user: UserId): set<DecisionId> {
    set id | id in ids && id in ds && OpenFor(ds[id], user)
  }

  lemma OpenStep(ds: Decisions, ids: set<DecisionId>, id: DecisionId, user: UserId)
    requires id in ds && id !in ids
    ensures id !in OpenAmong(ds, ids, user)
    ensures OpenAmong(ds, ids + {id}, user) == OpenAmong(ds, ids, user) + (if OpenFor(ds[id], user) then {id} else {})
  {
  }

  lemma SameEntries(a: seq<PendingDecision>, b: seq<PendingDecision>)
    requires Unique(a) && Rearranged(a, b)
    ensures Lists(b, Ids(a))
    ensures forall d :: d in b <==> d in a
  {
    assert forall d :: d in b <==> d in Elements(b);
    assert forall d :: d in a <==> d in Elements(a);
  }

  lemma NextRow(rows: seq<PendingDecision>, i: nat)
    requires i < |rows| && Unique(rows)
    ensures Ids(rows[..i + 1]) == Ids(rows[..i]) + {rows[i].id}
    ensures rows[i].id !in Ids(rows[..i]) && Unique(rows[..i])
  {
  }

  lemma ListsMore(ds: seq<PendingDecision>, ids: set<DecisionId>, d: PendingDecision)
    requires Lists(ds, ids) && d.id !in ids
    ensures Lists(ds + [d], ids + {d.id})
  {
  }
}
