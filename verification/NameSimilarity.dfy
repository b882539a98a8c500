/** Name similarity and the duplicate scan of the daily briefing (src/graphclaw/agent/briefing.py).

    `norm` stands for `strip().lower()`; only its idempotence is ever used, and only where stated.
    Scores are exact rationals. */
module NameSimilarity {
  import opened EditDistance

  ghost predicate Idempotent(norm: string -> string) {
    forall s :: norm(norm(s)) == norm(s)
  }

  /** The rational `num / den`. */
  datatype Score = Score(num: int, den: nat)

  const ONE := Score(1, 1)
  const ZERO := Score(0, 1)

  predicate AtLeast(s: Score, t: Score) {
    s.num * t.den >= t.num * s.den
  }

  ghost predicate SameValue(s: Score, t: Score) {
    AtLeast(s, t) && AtLeast(t, s)
  }

  /** `max(0.0, 1.0 - dist / max_len)` */
  function Clamped(distance: nat, maxLen: nat): Score {
    Score(if distance < maxLen then maxLen - distance else 0, maxLen)
  }

  /** `_name_similarity`, branch by branch. */
  function Similarity(norm: string -> string, x: string, y: string): Score {
    var a, b := norm(x), norm(y);
    if a == "" && b == "" then ONE
    else if a == "" || b == "" then ZERO
    else if a == b then ONE
    else Clamped(Distance(a, b), Longer(a, b))
  }

  /** The early returns and the clamp never change the value of `1 - dist / max_len`. */
  lemma SimilarityIsOneFormula(norm: string -> string, x: string, y: string)
    ensures var a, b := norm(x), norm(y);
            SameValue(Similarity(norm, x, y),
                      if a == b == "" then ONE else Score(Longer(a, b) - Distance(a, b), Longer(a, b)))
  {
    DistanceBounds(norm(x), norm(y));
    DistanceZero(norm(x), norm(y));
  }

  lemma SimilarityLaws(norm: string -> string, x: string, y: string)
    ensures Similarity(norm, x, y).den > 0
    ensures AtLeast(Similarity(norm, x, y), ZERO) && AtLeast(ONE, Similarity(norm, x, y))
    ensures Similarity(norm, x, y) == Similarity(norm, y, x)
    ensures SameValue(Similarity(norm, x, y), ONE) <==> norm(x) == norm(y)
    ensures Idempotent(norm) ==> Similarity(norm, norm(x), y) == Similarity(norm, x, y)
  {
    DistanceBounds(norm(x), norm(y));
    DistanceZero(norm(x), norm(y));
    DistanceSymmetric(norm(x), norm(y));
  }

  lemma CrossMultiply(d: nat, l: nat, num: int, den: nat)
    requires d <= l && l > 0 && den > 0
    ensures (l - d) * den >= num * l <==> d * den <= (den - num) * l
    ensures num <= 0 <==> num * l <= 0
    ensures num <= den <==> num * l <= den * l
  {
  }

  /** What a threshold means: at most the share `1 - threshold` of the longer name has to be edited. */
  lemma ThresholdMeansFewEdits(norm: string -> string, x: string, y: string, t: Score)
    requires t.den > 0 && Longer(norm(x), norm(y)) > 0
    ensures AtLeast(Similarity(norm, x, y), t) <==>
            Distance(norm(x), norm(y)) * t.den <= (t.den - t.num) * Longer(norm(x), norm(y))
  {
    var a, b := norm(x), norm(y);
    DistanceBounds(a, b);
    DistanceZero(a, b);
    CrossMultiply(Distance(a, b), Longer(a, b), t.num, t.den);
  }

  method ComputeSimilarity(norm: string -> string, x: string, y: string) returns (s: Score)
    ensures s == Similarity(norm, x, y)
  {
    var a, b := norm(x), norm(y);
    if a == "" && b == "" { return ONE; }
    if a == "" || b == "" { return ZERO; }
    if a == b { return ONE; }
    var maxLen := Longer(a, b);
    var dist := Levenshtein(a, b);
    s := Clamped(dist, maxLen);
  }

  // ---------------------------------------------------------------- the duplicate scan

  /** A resource row; a missing id or name reads as the empty string. */
  datatype Resource = Resource(id: string, name: string)
  datatype Candidate = Candidate(idA: string, nameA: string, idB: string, nameB: string, score: Score)

  predicate Suspicious(norm: string -> string, threshold: Score, a: Resource, b: Resource) {
    && !(a.id != "" && b.id != "" && a.id == b.id)
    && AtLeast(Similarity(norm, a.name, b.name), threshold)
  }

  function Row(norm: string -> string, a: Resource, b: Resource): Candidate {
    Candidate(a.id, a.name, b.id, b.name, Similarity(norm, a.name, b.name))
  }

  /** The double loop reaches `p` before `q`. */
  predicate Before(p: (nat, nat), q: (nat, nat)) {
    p.0 < q.0 || (p.0 == q.0 && p.1 < q.1)
  }

  ghost predicate InLoopOrder(at: seq<(nat, nat)>) {
    forall k, l :: 0 <= k < l < |at| ==> Before(at[k], at[l])
  }

  /** The picked pairs the double loop over `n` rows still meets, starting with the pair `(i, j)`. */
  function PairsFrom(n: nat, pick: (nat, nat) -> bool, i: nat, j: nat): seq<(nat, nat)>
    requires i < j
    decreases n - i, n - j
  {
    if i >= n then []
    else if j >= n then PairsFrom(n, pick, i + 1, i + 2)
    else (if pick(i, j) then [(i, j)] else []) + PairsFrom(n, pick, i, j + 1)
  }

  /** Each picked pair of positions is met exactly once, smaller position first, in loop order. */
  lemma {:induction false} PairsFromIsExact(n: nat, pick: (nat, nat) -> bool, i: nat, j: nat)
    requires i < j
    ensures forall p: (nat, nat) :: p in PairsFrom(n, pick, i, j) <==>
              p.0 < p.1 < n && !Before(p, (i, j)) && pick(p.0, p.1)
    ensures InLoopOrder(PairsFrom(n, pick, i, j))
    decreases n - i, n - j
  {
    if i < n {
      if j >= n {
        PairsFromIsExact(n, pick, i + 1, i + 2);
      } else {
        PairsFromIsExact(n, pick, i, j + 1);
        var rest := PairsFrom(n, pick, i, j + 1);
        forall l | 0 <= l < |rest|
          ensures Before((i, j), rest[l])
        {
          assert rest[l] in rest;
        }
        var at := PairsFrom(n, pick, i, j);
        assert at == if pick(i, j) then [(i, j)] + rest else rest;
      }
    }
  }

  function Picker(norm: string -> string, rs: seq<Resource>, threshold: Score): (nat, nat) -> bool {
    (i: nat, j: nat) => i < |rs| && j < |rs| && Suspicious(norm, threshold, rs[i], rs[j])
  }

  /** One row for every listed pair of positions, in that order. */
  ghost predicate RowsFor(norm: string -> string, rs: seq<Resource>, at: seq<(nat, nat)>, pairs: seq<Candidate>) {
    && |pairs| == |at|
    && forall k :: 0 <= k < |at| ==>
         at[k].0 < |rs| && at[k].1 < |rs| && pairs[k] == Row(norm, rs[at[k].0], rs[at[k].1])
  }

  /** `pairs` holds the rows for `at`, and `at` is what the double loop finds before it gets to `(i, j)`. */
  ghost predicate Scanned(norm: string -> string, rs: seq<Resource>, threshold: Score, at: seq<(nat, nat)>,
                          pairs: seq<Candidate>, i: nat, j: nat)
  {
    && i < j
    && RowsFor(norm, rs, at, pairs)
    && at + PairsFrom(|rs|, Picker(norm, rs, threshold), i, j) == PairsFrom(|rs|, Picker(norm, rs, threshold), 0, 1)
  }

  lemma ScanStep(norm: string -> string, rs: seq<Resource>, threshold: Score, at: seq<(nat, nat)>,
                 pairs: seq<Candidate>, i: nat, j: nat)
    requires Scanned(norm, rs, threshold, at, pairs, i, j) && j < |rs|
    ensures Suspicious(norm, threshold, rs[i], rs[j]) ==>
              Scanned(norm, rs, threshold, at + [(i, j)], pairs + [Row(norm, rs[i], rs[j])], i, j + 1)
    ensures !Suspicious(norm, threshold, rs[i], rs[j]) ==> Scanned(norm, rs, threshold, at, pairs, i, j + 1)
  {
    var pick := Picker(norm, rs, threshold);
    var rest := PairsFrom(|rs|, pick, i, j + 1);
    if pick(i, j) {
      assert (at + [(i, j)]) + rest == at + ([(i, j)] + rest);
    } else {
      assert [] + rest == rest;
    }
  }

  lemma RowEnds(norm: string -> string, rs: seq<Resource>, threshold: Score, at: seq<(nat, nat)>,
                pairs: seq<Candidate>, i: nat, j: nat)
    requires Scanned(norm, rs, threshold, at, pairs, i, j) && i < |rs| <= j
    ensures Scanned(norm, rs, threshold, at, pairs, i + 1, i + 2)
  {
  }

  /** The two rows are not known to be the same, and the score of their names reaches the threshold. */
  predicate LookAlike(norm: string -> string, threshold: Score, a: Resource, b: Resource) {
    var s := Similarity(norm, a.name, b.name);
    (a.id == "" || b.id == "" || a.id != b.id) && s.num * threshold.den >= threshold.num * s.den
  }

  /** The candidate names the two rows in this order, with the score of their names. */
  predicate Reports(c: Candidate, norm: string -> string, a: Resource, b: Resource) {
    && c.idA == a.id && c.nameA == a.name && c.idB == b.id && c.nameB == b.name
    && c.score == Similarity(norm, a.name, b.name)
  }

  /** The rows at a listed pair of positions look alike, and the candidate beside it reports them. */
  predicate IsFinding(c: Candidate, p: (nat, nat), norm: string -> string, rs: seq<Resource>, threshold: Score) {
    && p.0 < p.1 < |rs|
    && LookAlike(norm, threshold, rs[p.0], rs[p.1]) && Reports(c, norm, rs[p.0], rs[p.1])
  }

  /** The body of the double loop. */
  method Compare(norm: string -> string, a: Resource, b: Resource, threshold: Score) returns (row: seq<Candidate>)
    ensures row == if Suspicious(norm, threshold, a, b) then [Row(norm, a, b)] else []
    ensures |row| == if LookAlike(norm, threshold, a, b) then 1 else 0
    ensures row != [] ==> Reports(row[0], norm, a, b)
  {
    row := [];
    if !(a.id != "" && b.id != "" && a.id == b.id) {
      var sim := ComputeSimilarity(norm, a.name, b.name);
      if AtLeast(sim, threshold) {
        row := [Candidate(a.id, a.name, b.id, b.name, sim)];
      }
    }
  }

  /** Listed in loop order: the pairs of rows that look alike, all of them, each with its report beside it. */
  ghost predicate AllFindings(norm: string -> string, rs: seq<Resource>, threshold: Score, at: seq<(nat, nat)>,
                              pairs: seq<Candidate>)
  {
    && |at| == |pairs| && InLoopOrder(at)
    && (forall k :: 0 <= k < |pairs| ==> IsFinding(pairs[k], at[k], norm, rs, threshold))
    && forall i: nat, j: nat :: i < j < |rs| && LookAlike(norm, threshold, rs[i], rs[j]) ==> (i, j) in at
  }

  lemma SuspiciousMeansAlike(norm: string -> string, threshold: Score, a: Resource, b: Resource)
    ensures Suspicious(norm, threshold, a, b) <==> LookAlike(norm, threshold, a, b)
  {
  }

  lemma FindingIs(norm: string -> string, rs: seq<Resource>, threshold: Score, at: seq<(nat, nat)>,
                  pairs: seq<Candidate>, k: nat)
    requires k < |at| && RowsFor(norm, rs, at, pairs)
    requires at[k].0 < at[k].1 && Picker(norm, rs, threshold)(at[k].0, at[k].1)
    ensures IsFinding(pairs[k], at[k], norm, rs, threshold)
  {
    SuspiciousMeansAlike(norm, threshold, rs[at[k].0], rs[at[k].1]);
  }

  lemma FindingsAre(norm: string -> string, rs: seq<Resource>, threshold: Score, at: seq<(nat, nat)>,
                    pairs: seq<Candidate>)
    requires at == PairsFrom(|rs|, Picker(norm, rs, threshold), 0, 1) && RowsFor(norm, rs, at, pairs)
    ensures AllFindings(norm, rs, threshold, at, pairs)
  {
    PairsFromIsExact(|rs|, Picker(norm, rs, threshold), 0, 1);
    forall k | 0 <= k < |pairs|
      ensures IsFinding(pairs[k], at[k], norm, rs, threshold)
    {
      assert at[k] in at;
      FindingIs(norm, rs, threshold, at, pairs, k);
    }
    forall i: nat, j: nat | i < j < |rs| && LookAlike(norm, threshold, rs[i], rs[j])
      ensures (i, j) in at
    {
      SuspiciousMeansAlike(norm, threshold, rs[i], rs[j]);
      assert Picker(norm, rs, threshold)(i, j);
    }
  }

  /** `find_duplicate_resource_candidates` */
  method FindDuplicates(norm: string -> string, rs: seq<Resource>, threshold: Score) returns (pairs: seq<Candidate>)
    ensures AllFindings(norm, rs, threshold, PairsFrom(|rs|, Picker(norm, rs, threshold), 0, 1), pairs)
  {
    ghost var at: seq<(nat, nat)> := [];
    pairs := [];
    assert at + PairsFrom(|rs|, Picker(norm, rs, threshold), 0, 1) == PairsFrom(|rs|, Picker(norm, rs, threshold), 0, 1);
    for i := 0 to |rs|
      invariant Scanned(norm, rs, threshold, at, pairs, i, i + 1)
    {
      for j := i + 1 to |rs|
        invariant Scanned(norm, rs, threshold, at, pairs, i, j)
      {
        ScanStep(norm, rs, threshold, at, pairs, i, j);
        var row := Compare(norm, rs[i], rs[j], threshold);
        if row != [] {
          pairs, at := pairs + row, at + [(i, j)];
        }
      }
      RowEnds(norm, rs, threshold, at, pairs, i, |rs|);
    }
    assert at + [] == at;
    FindingsAre(norm, rs, threshold, at, pairs);
  }
}
