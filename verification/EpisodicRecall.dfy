/** The two-stage ranking of episodic memory (src/graphclaw/agent/main_orchestrator.py, `_tool_recall_episodic`,
    lines 2457-2501): filename scores first, then a content boost for the five best only.

    Storage keys are represented by their place in the order of names. */
module EpisodicRecall {
  import opened Sequences
  import opened Sorting

  type Key = int

  const SCANNED := 5

  /** A scored entry. */
  datatype Scored = Scored(score: nat, key: Key)

  /** Both sorts are descending, by score and then by key. */
  function Descending(e: Scored): Rank { (0 - e.score, 0 - e.key) }

  // ---------------------------------------------------------------- what the second sort does

  /** Ordered by strictly increasing rank. */
  ghost predicate Strict(s: seq<Scored>) {
    forall i, j :: 0 <= i < j < |s| ==> Less(Descending(s[i]), Descending(s[j]))
  }

  lemma OrderedIsStrict(s: seq<Scored>)
    requires Ordered(s, Descending) && NoDup(s)
    ensures Strict(s)
  {
  }

  /** Strictly ordered lists with the same entries are equal. */
  lemma {:induction false} StrictIsUnique(a: seq<Scored>, b: seq<Scored>)
    requires Strict(a) && Strict(b) && Elements(a) == Elements(b)
    ensures a == b
    decreases |a|
  {
    NoDupCardinality(a);
    NoDupCardinality(b);
    if a != [] {
      assert a[0] in Elements(b) && b[0] in Elements(a);
      var i :| 0 <= i < |b| && b[i] == a[0];
      var j :| 0 <= j < |a| && a[j] == b[0];
      assert a[0] == b[0];
      assert Elements(a[1..]) == Elements(a) - {a[0]} by { TailElements(a); }
      assert Elements(b[1..]) == Elements(b) - {b[0]} by { TailElements(b); }
      StrictIsUnique(a[1..], b[1..]);
    }
  }

  lemma TailElements(a: seq<Scored>)
    requires a != [] && Strict(a)
    ensures Elements(a[1..]) == Elements(a) - {a[0]}
  {
  }

  function Keep(s: seq<Scored>, kept: set<Scored>): seq<Scored> {
    if s == [] then []
    else Keep(s[..|s| - 1], kept) + (if s[|s| - 1] in kept then [s[|s| - 1]] else [])
  }

  lemma {:induction false} KeepMeans(s: seq<Scored>, kept: set<Scored>)
    requires Strict(s)
    ensures Strict(Keep(s, kept)) && forall e :: e in Keep(s, kept) <==> e in s && e in kept
    decreases |s|
  {
    if s != [] {
      var init, last := s[..|s| - 1], s[|s| - 1];
      KeepMeans(init, kept);
      assert s == init + [last];
      forall i | 0 <= i < |Keep(init, kept)|
        ensures Less(Descending(Keep(init, kept)[i]), Descending(last))
      {
        assert Keep(init, kept)[i] in init;
      }
    }
  }

  /** Sorting two groups together, where every entry of `top` comes before every entry of `rest`, leaves them apart. */
  lemma SortsApart(top: set<Scored>, rest: seq<Scored>, final: seq<Scored>)
    requires Strict(rest) && Strict(final) && Elements(final) == top + Elements(rest)
    requires forall x, y :: x in top && y in rest ==> Less(Descending(x), Descending(y))
    ensures |final| >= |rest| && final[|final| - |rest|..] == rest && Elements(final[..|final| - |rest|]) == top
  {
    var first := Keep(final, top);
    KeepMeans(final, top);
    assert Elements(first) == top by {
      assert forall e :: e in final <==> e in Elements(final);
    }
    var both := first + rest;
    forall i, j | 0 <= i < j < |both|
      ensures Less(Descending(both[i]), Descending(both[j]))
    {
      if i < |first| <= j {
        assert both[i] in Elements(first);
        assert both[j] == rest[j - |first|];
      }
    }
    assert Elements(both) == Elements(first) + Elements(rest);
    StrictIsUnique(both, final);
    assert final[..|final| - |rest|] == first;
  }

  // ---------------------------------------------------------------- the ranking

  function Smaller(a: nat, b: nat): nat { if a < b then a else b }

  function Limit(requested: int): nat {
    if requested < 1 then 1 else if requested > 10 then 10 else requested
  }

  /** How many entries the content scan reads. */
  function ScannedCount(n: nat): nat { Smaller(n, SCANNED) }

  ghost predicate HasKeys(s: seq<Scored>, keys: seq<Key>, score: Key -> nat) {
    NoDup(s) && Elements(s) == set k | k in keys :: Scored(score(k), k)
  }

  /** `scored` is the order by file name; `final` the order after the boost. */
  ghost predicate IsRanking(keys: seq<Key>, nameScore: Key -> nat, boost: Key -> nat, scored: seq<Scored>,
                            final: seq<Scored>)
  {
    && HasKeys(scored, keys, nameScore) && Strict(scored)
    && Strict(final) && Elements(final) == Elements(Rescored(scored, boost))
  }

  /** The first five get their content boost. */
  function Rescored(scored: seq<Scored>, boost: Key -> nat): (r: seq<Scored>)
    ensures |r| == |scored|
  {
    seq(|scored|, i requires 0 <= i < |scored| =>
      if i < SCANNED then Scored(scored[i].score + boost(scored[i].key), scored[i].key) else scored[i])
  }

  lemma RescoredOnce(keys: seq<Key>, nameScore: Key -> nat, boost: Key -> nat, scored: seq<Scored>)
    requires HasKeys(scored, keys, nameScore)
    ensures NoDup(Rescored(scored, boost))
  {
    forall i, j | 0 <= i < j < |scored|
      ensures scored[i].key != scored[j].key
    {
      assert scored[i] in Elements(scored) && scored[j] in Elements(scored);
    }
  }

  /** The boost never moves an unscanned entry ahead of a scanned one, and leaves the unscanned ones in name order. */
  lemma BoostKeepsScannedFirst(keys: seq<Key>, nameScore: Key -> nat, boost: Key -> nat, scored: seq<Scored>,
                               final: seq<Scored>)
    requires IsRanking(keys, nameScore, boost, scored, final)
    ensures |final| == |scored|
    ensures var n := ScannedCount(|scored|);
            final[n..] == scored[n..] && Elements(final[..n]) == Elements(Rescored(scored, boost)[..n])
  {
    var n, rescored := ScannedCount(|scored|), Rescored(scored, boost);
    var top, rest := rescored[..n], scored[n..];
    assert rescored == top + rest;
    forall i, j | 0 <= i < n && 0 <= j < |rest|
      ensures Less(Descending(top[i]), Descending(rest[j]))
    {
      assert Less(Descending(scored[i]), Descending(scored[n + j])) && rest[j] == scored[n + j];
    }
    SortsApart(Elements(top), rest, final);
    RescoredOnce(keys, nameScore, boost, scored);
    NoDupCardinality(rescored);
    NoDupCardinality(final);
  }

  // ---------------------------------------------------------------- the tool

  ghost function ScannedKeys(scored: seq<Scored>): set<Key> {
    set i | 0 <= i < ScannedCount(|scored|) :: scored[i].key
  }

  /** Unscanned entries whose file is gone drop out of the matches. */
  function Found(s: seq<Scored>, scanned: set<Key>, present: Key -> bool): seq<Scored> {
    if s == [] then []
    else
      var last := s[|s| - 1];
      Found(s[..|s| - 1], scanned, present) + (if last.key in scanned || present(last.key) then [last] else [])
  }

  lemma {:induction false} AllFound(s: seq<Scored>, scanned: set<Key>, present: Key -> bool)
    requires forall e :: e in s ==> e.key in scanned
    ensures Found(s, scanned, present) == s
    decreases |s|
  {
    if s != [] {
      var init, last := s[..|s| - 1], s[|s| - 1];
      assert last in s && s == init + [last];
      AllFound(init, scanned, present);
    }
  }

  lemma {:induction false} FoundMeans(s: seq<Scored>, scanned: set<Key>, present: Key -> bool)
    ensures |Found(s, scanned, present)| <= |s|
    ensures forall e :: e in Found(s, scanned, present) <==> e in s && (e.key in scanned || present(e.key))
    decreases |s|
  {
    if s != [] {
      FoundMeans(s[..|s| - 1], scanned, present);
      assert s == s[..|s| - 1] + [s[|s| - 1]];
    }
  }

  /** Every ranked entry is one of the listed keys. */
  lemma RankedKeys(keys: seq<Key>, nameScore: Key -> nat, boost: Key -> nat, scored: seq<Scored>, final: seq<Scored>)
    requires IsRanking(keys, nameScore, boost, scored, final)
    ensures forall e :: e in final ==> e.key in keys
  {
    forall e | e in final
      ensures e.key in keys
    {
      assert e in Elements(final) && e in Elements(Rescored(scored, boost));
      var i :| 0 <= i < |scored| && Rescored(scored, boost)[i] == e;
      assert scored[i] in Elements(scored);
    }
  }

  /** With a limit of at most five, every match has been content-scanned, and the matches are the top of the final
      order, whatever files are missing. */
  lemma SmallLimitNeedsNoMoreScans(keys: seq<Key>, nameScore: Key -> nat, boost: Key -> nat, scored: seq<Scored>,
                                   final: seq<Scored>, requested: int, present: Key -> bool)
    requires IsRanking(keys, nameScore, boost, scored, final) && requested <= SCANNED
    ensures var first := final[..Smaller(Limit(requested), |final|)];
            && Found(first, ScannedKeys(scored), present) == first
            && forall e :: e in first ==> e.key in ScannedKeys(scored)
  {
    BoostKeepsScannedFirst(keys, nameScore, boost, scored, final);
    var n := ScannedCount(|scored|);
    var first := final[..Smaller(Limit(requested), |final|)];
    forall e | e in first
      ensures e.key in ScannedKeys(scored)
    {
      assert e in Elements(final[..n]);
      var i :| 0 <= i < n && Rescored(scored, boost)[..n][i] == e;
      assert scored[i].key == e.key;
    }
    AllFound(first, ScannedKeys(scored), present);
  }

  /** Better scores first, and of equal ones the later file name first. */
  ghost predicate Falls(s: seq<Scored>) {
    forall i, j :: 0 <= i < j < |s| ==> s[i].score > s[j].score || (s[i].score == s[j].score && s[i].key > s[j].key)
  }

  lemma StrictFalls(s: seq<Scored>)
    requires Strict(s)
    ensures Falls(s)
  {
  }

  /** Each entry stands in the final order with its name score, plus its boost if it is one of the first five by name. */
  ghost predicate AllBoosted(scored: seq<Scored>, boost: Key -> nat, final: seq<Scored>) {
    |final| == |scored| && forall i :: 0 <= i < |scored| ==>
      Scored(scored[i].score + (if i < 5 then boost(scored[i].key) else 0), scored[i].key) in final
  }

  /** Place `i` of the final order is within the limit, which is at least one and at most ten, and its file was scanned
      as one of the first five by name or can be read. */
  ghost predicate IsMatch(scored: seq<Scored>, final: seq<Scored>, present: Key -> bool, requested: int, i: nat) {
    && i < |final| && i < 10 && (i == 0 || i < requested)
    && ((exists j :: 0 <= j < 5 && j < |scored| && scored[j].key == final[i].key) || present(final[i].key))
  }

  lemma RankingMeans(keys: seq<Key>, nameScore: Key -> nat, boost: Key -> nat, scored: seq<Scored>, final: seq<Scored>)
    requires IsRanking(keys, nameScore, boost, scored, final)
    ensures Falls(scored) && Falls(final) && AllBoosted(scored, boost, final)
  {
    StrictFalls(scored);
    StrictFalls(final);
    BoostKeepsScannedFirst(keys, nameScore, boost, scored, final);
    forall i | 0 <= i < |scored|
      ensures Scored(scored[i].score + (if i < 5 then boost(scored[i].key) else 0), scored[i].key) in final
    {
      assert Rescored(scored, boost)[i] in Elements(final);
    }
  }

  lemma {:induction false} FoundFalls(s: seq<Scored>, scanned: set<Key>, present: Key -> bool)
    requires Falls(s)
    ensures Falls(Found(s, scanned, present))
    decreases |s|
  {
    if s != [] {
      var init := s[..|s| - 1];
      FoundFalls(init, scanned, present);
      FoundMeans(init, scanned, present);
      forall i | 0 <= i < |Found(init, scanned, present)|
        ensures Found(init, scanned, present)[i] in init
      {
      }
    }
  }

  /** The matches are exactly the entries of the final order at such places, in that order. */
  lemma MatchesMeans(scored: seq<Scored>, final: seq<Scored>, present: Key -> bool, requested: int,
                     matches: seq<Scored>)
    requires matches == Found(final[..Smaller(Limit(requested), |final|)], ScannedKeys(scored), present)
    requires Falls(final)
    ensures Falls(matches)
    ensures forall e :: e in matches <==>
              exists i :: 0 <= i < |final| && IsMatch(scored, final, present, requested, i) && final[i] == e
  {
    var top := final[..Smaller(Limit(requested), |final|)];
    FoundFalls(top, ScannedKeys(scored), present);
    FoundMeans(top, ScannedKeys(scored), present);
    forall i | 0 <= i < |final|
      ensures IsMatch(scored, final, present, requested, i)
              <==> i < |top| && (final[i].key in ScannedKeys(scored) || present(final[i].key))
    {
    }
  }

  /** From scoring to the matches. `hits` are the keyword hits in an entry's excerpt (none if the file is missing);
      `present` says whether reading an unscanned entry in full succeeds. */
  method Recall(keys: seq<Key>, nameScore: Key -> nat, hits: Key -> nat, present: Key -> bool, requested: int)
    returns (matches: seq<Scored>, ghost scored: seq<Scored>, ghost final: seq<Scored>)
    requires NoDup(keys)
    ensures IsRanking(keys, nameScore, k => 3 * hits(k), scored, final)
    ensures matches == Found(final[..Smaller(Limit(requested), |final|)], ScannedKeys(scored), present)
    ensures |matches| <= Limit(requested) && forall e :: e in matches ==> e.key in keys
    ensures Falls(scored) && Falls(final) && Falls(matches) && AllBoosted(scored, k => 3 * hits(k), final)
    ensures forall e :: e in matches <==>
              exists i :: 0 <= i < |final| && IsMatch(scored, final, present, requested, i) && final[i] == e
  {
    ghost var boost := k => 3 * hits(k);
    var byName := ScoreByName(keys, nameScore);
    var ranked := Sort(byName, Descending);
    OrderedIsStrict(ranked);
    scored := ranked;
    var boosts: map<Key, nat> := map[];
    for i := 0 to ScannedCount(|ranked|)
      invariant boosts.Keys == set j | 0 <= j < i :: ranked[j].key
      invariant forall k :: k in boosts ==> boosts[k] == 3 * hits(k)
    {
      boosts := boosts[ranked[i].key := 3 * hits(ranked[i].key)];
    }
    var rescored := Rescore(ranked, boosts);
    RescoredOnce(keys, nameScore, boost, ranked);
    assert rescored == Rescored(ranked, boost) by { RescoreMeans(keys, nameScore, boost, ranked, boosts, rescored); }
    var ordered := Sort(rescored, Descending);
    OrderedIsStrict(ordered);
    final := ordered;
    var top := ordered[..Smaller(Limit(requested), |ordered|)];
    matches := Collect(top, boosts, present);
    FoundMeans(top, boosts.Keys, present);
    RankedKeys(keys, nameScore, boost, scored, final);
    RankingMeans(keys, nameScore, boost, scored, final);
    MatchesMeans(scored, final, present, requested, matches);
  }

  method ScoreByName(keys: seq<Key>, nameScore: Key -> nat) returns (byName: seq<Scored>)
    requires NoDup(keys)
    ensures HasKeys(byName, keys, nameScore)
  {
    byName := [];
    for i := 0 to |keys|
      invariant |byName| == i && forall j :: 0 <= j < i ==> byName[j] == Scored(nameScore(keys[j]), keys[j])
    {
      byName := byName + [Scored(nameScore(keys[i]), keys[i])];
    }
    forall e
      ensures e in byName <==> e.key in keys && e == Scored(nameScore(e.key), e.key)
    {
      if e.key in keys && e == Scored(nameScore(e.key), e.key) {
        var i :| 0 <= i < |keys| && keys[i] == e.key;
        assert byName[i] == e;
      }
    }
  }

  function Boosted(e: Scored, boosts: map<Key, nat>): Scored {
    if e.key in boosts then Scored(e.score + boosts[e.key], e.key) else e
  }

  method Rescore(ranked: seq<Scored>, boosts: map<Key, nat>) returns (rescored: seq<Scored>)
    ensures |rescored| == |ranked|
    ensures forall i :: 0 <= i < |ranked| ==> rescored[i] == Boosted(ranked[i], boosts)
  {
    rescored := [];
    for i := 0 to |ranked|
      invariant |rescored| == i
      invariant forall j :: 0 <= j < i ==> rescored[j] == Boosted(ranked[j], boosts)
    {
      rescored := rescored + [Boosted(ranked[i], boosts)];
    }
  }

  /** The boosts are keyed by name, and names are distinct, so exactly the first five entries get theirs. */
  lemma RescoreMeans(keys: seq<Key>, nameScore: Key -> nat, boost: Key -> nat, ranked: seq<Scored>,
                     boosts: map<Key, nat>, rescored: seq<Scored>)
    requires HasKeys(ranked, keys, nameScore) && |rescored| == |ranked|
    requires boosts.Keys == set j | 0 <= j < ScannedCount(|ranked|) :: ranked[j].key
    requires forall k :: k in boosts ==> boosts[k] == boost(k)
    requires forall i :: 0 <= i < |ranked| ==> rescored[i] == Boosted(ranked[i], boosts)
    ensures rescored == Rescored(ranked, boost)
  {
    forall i | 0 <= i < |ranked|
      ensures ranked[i].key in boosts <==> i < SCANNED
    {
      if ranked[i].key in boosts {
        var j :| 0 <= j < ScannedCount(|ranked|) && ranked[j].key == ranked[i].key;
        assert ranked[i] in Elements(ranked) && ranked[j] in Elements(ranked);
        assert ranked[i] == ranked[j];
      }
    }
  }

  method Collect(top: seq<Scored>, scanned: map<Key, nat>, present: Key -> bool) returns (matches: seq<Scored>)
    ensures matches == Found(top, scanned.Keys, present)
  {
    matches := [];
    for i := 0 to |top|
      invariant matches == Found(top[..i], scanned.Keys, present)
    {
      assert top[..i + 1][..i] == top[..i];
      if top[i].key !in scanned && !present(top[i].key) {
        continue;
      }
      matches := matches + [top[i]];
    }
    assert top[..|top|] == top;
  }
}
