/** Edit distance and name similarity of the daily briefing (src/graphclaw/agent/briefing.py).

    The specification is independent of the dynamic program: a script is any sequence of
    single-character insertions, deletions and substitutions, at any positions, in any order. */
module EditDistance {

  // ---------------------------------------------------------------- edit scripts

  datatype Edit = Insert(at: nat, c: char) | Delete(at: nat) | Substitute(at: nat, c: char)

  predicate Applicable(e: Edit, s: string) {
    if e.Insert? then e.at <= |s| else e.at < |s|
  }

  function ApplyEdit(e: Edit, s: string): string
    requires Applicable(e, s)
  {
    match e
    case Insert(at, c) => s[..at] + [c] + s[at..]
    case Delete(at) => s[..at] + s[at + 1..]
    case Substitute(at, c) => s[..at] + [c] + s[at + 1..]
  }

  /** The script can be carried out on `a`, step by step, and ends in `b`. */
  predicate Transforms(a: string, script: seq<Edit>, b: string)
    decreases |script|
  {
    if script == [] then a == b
    else Applicable(script[0], a) && Transforms(ApplyEdit(script[0], a), script[1..], b)
  }

  // ---------------------------------------------------------------- the recurrence

  function Min3(x: int, y: int, z: int): int {
    if x <= y && x <= z then x else if y <= z then y else z
  }

  function Init(s: string): string
    requires s != ""
  {
    s[..|s| - 1]
  }

  function Last(s: string): char
    requires s != ""
  {
    s[|s| - 1]
  }

  /** The recurrence the two-row loop fills in: on a match only the diagonal cell is looked at. */
  function Distance(a: string, b: string): (d: nat)
    decreases |a| + |b|
  {
    if a == "" then |b|
    else if b == "" then |a|
    else if Last(a) == Last(b) then Distance(Init(a), Init(b))
    else 1 + Min3(Distance(Init(a), b), Distance(a, Init(b)), Distance(Init(a), Init(b)))
  }

  lemma AppendBoth(a: string, x: char, b: string, y: char)
    ensures Distance(a + [x], b + [y]) ==
            if x == y then Distance(a, b)
            else 1 + Min3(Distance(a, b + [y]), Distance(a + [x], b), Distance(a, b))
  {
  }

  /** Neighbouring cells of the table differ by at most one. */
  lemma {:induction false} Neighbours(a: string, b: string)
    ensures a != "" ==> -1 <= Distance(a, b) - Distance(Init(a), b) <= 1
    ensures b != "" ==> -1 <= Distance(a, b) - Distance(a, Init(b)) <= 1
    decreases |a| + |b|
  {
    if a != "" && b != "" {
      Neighbours(Init(a), b);
      Neighbours(a, Init(b));
      Neighbours(Init(a), Init(b));
    } else if a != "" {
      Neighbours(Init(a), b);
    } else if b != "" {
      Neighbours(a, Init(b));
    }
  }

  /** Hence the diagonal shortcut loses nothing: a cell never exceeds any of its three steps. */
  lemma StepBounds(a: string, x: char, b: string, y: char)
    ensures Distance(a + [x], b) <= 1 + Distance(a, b)
    ensures Distance(a, b) <= 1 + Distance(a + [x], b)
    ensures Distance(a, b + [y]) <= 1 + Distance(a, b)
    ensures Distance(a + [x], b + [y]) <= Distance(a, b) + (if x == y then 0 else 1)
  {
    assert Init(a + [x]) == a && Init(b + [y]) == b;
    Neighbours(a + [x], b);
    Neighbours(a, b + [y]);
  }

  // ---------------------------------------------------------------- lower bound

  /** Two strings that differ in their last character at most. */
  lemma {:induction false} LastCharMovesByOne(p: string, x: char, y: char, b: string)
    ensures Distance(p + [x], b) <= 1 + Distance(p + [y], b)
    decreases |b|
  {
    if b != "" {
      var c, z := Init(b), Last(b);
      assert b == c + [z];
      LastCharMovesByOne(p, x, y, c);
      StepBounds(p, x, b, z);
      StepBounds(p, x, c, z);
      StepBounds(p + [x], x, c, z);
      assert Init(p + [y]) == p;
    }
  }

  lemma EditAtEnd(p: string, u: string, v: string, b: string)
    requires |u| <= 1 && |v| <= 1
    ensures Distance(p + u, b) <= 1 + Distance(p + v, b)
  {
    if |u| == 1 && |v| == 1 {
      assert u == [u[0]] && v == [v[0]];
      LastCharMovesByOne(p, u[0], v[0], b);
    } else if |u| == 1 {
      assert u == [u[0]] && p + v == p;
      StepBounds(p, u[0], b, u[0]);
    } else if |v| == 1 {
      assert v == [v[0]] && p + u == p;
      StepBounds(p, v[0], b, v[0]);
    } else {
      assert p + u == p && p + v == p;
    }
  }

  lemma EditsWithSameLast(s: string, t: string, z: char, c: string, y: char)
    requires Distance(s + [z], c) <= 1 + Distance(t + [z], c)
    requires Distance(s, c + [y]) <= 1 + Distance(t, c + [y]) && Distance(s, c) <= 1 + Distance(t, c)
    ensures Distance(s + [z], c + [y]) <= 1 + Distance(t + [z], c + [y])
  {
    AppendBoth(s, z, c, y);
    AppendBoth(t, z, c, y);
  }

  /** Replacing at most one character by at most one, anywhere, moves the distance to any target by at most one. */
  lemma {:induction false} OneEditMovesByOne(p: string, u: string, v: string, q: string, b: string)
    requires |u| <= 1 && |v| <= 1
    ensures Distance(p + u + q, b) <= 1 + Distance(p + v + q, b)
    decreases |q| + |b|
  {
    if q == "" {
      assert p + u + q == p + u && p + v + q == p + v;
      EditAtEnd(p, u, v, b);
    } else if b != "" {
      var s, t, z := p + u + Init(q), p + v + Init(q), Last(q);
      assert p + u + q == s + [z] && p + v + q == t + [z] && b == Init(b) + [Last(b)];
      OneEditMovesByOne(p, u, v, Init(q), b);
      OneEditMovesByOne(p, u, v, q, Init(b));
      OneEditMovesByOne(p, u, v, Init(q), Init(b));
      EditsWithSameLast(s, t, z, Init(b), Last(b));
    }
  }

  lemma EditMovesByOne(e: Edit, s: string, b: string)
    requires Applicable(e, s)
    ensures Distance(s, b) <= 1 + Distance(ApplyEdit(e, s), b)
  {
    var p := s[..e.at];
    match e
    case Insert(at, c) =>
      assert s == p + "" + s[at..];
      OneEditMovesByOne(p, "", [c], s[at..], b);
    case Delete(at) =>
      assert s == p + [s[at]] + s[at + 1..] && ApplyEdit(e, s) == p + "" + s[at + 1..];
      OneEditMovesByOne(p, [s[at]], "", s[at + 1..], b);
    case Substitute(at, c) =>
      assert s == p + [s[at]] + s[at + 1..];
      OneEditMovesByOne(p, [s[at]], [c], s[at + 1..], b);
  }

  lemma {:induction false} NoShorterScript(a: string, script: seq<Edit>, b: string)
    requires Transforms(a, script, b)
    ensures Distance(a, b) <= |script|
    decreases |script|
  {
    if script == [] {
      DistanceZero(a, b);
    } else {
      NoShorterScript(ApplyEdit(script[0], a), script[1..], b);
      EditMovesByOne(script[0], a, b);
    }
  }

  // ---------------------------------------------------------------- upper bound

  /** An optimal script, read off the recurrence; it edits the string from left to right. */
  function Script(a: string, b: string): (script: seq<Edit>)
    decreases |a| + |b|
  {
    if a == "" && b == "" then []
    else if a == "" then Script(a, Init(b)) + [Insert(|b| - 1, Last(b))]
    else if b == "" then Script(Init(a), b) + [Delete(0)]
    else if Last(a) == Last(b) then Script(Init(a), Init(b))
    else if Distance(a, b) == 1 + Distance(Init(a), b) then Script(Init(a), b) + [Delete(|b|)]
    else if Distance(a, b) == 1 + Distance(a, Init(b)) then Script(a, Init(b)) + [Insert(|b| - 1, Last(b))]
    else Script(Init(a), Init(b)) + [Substitute(|b| - 1, Last(b))]
  }

  lemma {:induction false} TransformsConcat(a: string, s1: seq<Edit>, b: string, s2: seq<Edit>, c: string)
    requires Transforms(a, s1, b) && Transforms(b, s2, c)
    ensures Transforms(a, s1 + s2, c)
    decreases |s1|
  {
    if s1 == [] {
      assert s1 + s2 == s2;
    } else {
      TransformsConcat(ApplyEdit(s1[0], a), s1[1..], b, s2, c);
      assert (s1 + s2)[1..] == s1[1..] + s2;
    }
  }

  /** Appending the same text to both ends leaves a script valid. */
  lemma {:induction false} TransformsFrame(a: string, script: seq<Edit>, b: string, tail: string)
    requires Transforms(a, script, b)
    ensures Transforms(a + tail, script, b + tail)
    decreases |script|
  {
    if script != [] {
      var e := script[0];
      assert Applicable(e, a + tail);
      assert ApplyEdit(e, a + tail) == ApplyEdit(e, a) + tail;
      TransformsFrame(ApplyEdit(e, a), script[1..], b, tail);
    }
  }

  lemma ThenOneEdit(a: string, script: seq<Edit>, m: string, e: Edit, b: string)
    requires Transforms(a, script, m) && Applicable(e, m) && ApplyEdit(e, m) == b
    ensures Transforms(a, script + [e], b)
  {
    assert Transforms(b, [e][1..], b);
    assert Transforms(m, [e], b);
    TransformsConcat(a, script, m, [e], b);
  }

  lemma ThenInsert(a: string, script: seq<Edit>, m: string, y: char)
    requires Transforms(a, script, m)
    ensures Transforms(a, script + [Insert(|m|, y)], m + [y])
  {
    assert ApplyEdit(Insert(|m|, y), m) == m + [y];
    ThenOneEdit(a, script, m, Insert(|m|, y), m + [y]);
  }

  lemma ThenDelete(a: string, x: char, script: seq<Edit>, b: string)
    requires Transforms(a, script, b)
    ensures Transforms(a + [x], script + [Delete(|b|)], b)
  {
    TransformsFrame(a, script, b, [x]);
    assert ApplyEdit(Delete(|b|), b + [x]) == b;
    ThenOneEdit(a + [x], script, b + [x], Delete(|b|), b);
  }

  lemma ThenSubstitute(a: string, x: char, script: seq<Edit>, m: string, y: char)
    requires Transforms(a, script, m)
    ensures Transforms(a + [x], script + [Substitute(|m|, y)], m + [y])
  {
    TransformsFrame(a, script, m, [x]);
    assert ApplyEdit(Substitute(|m|, y), m + [x]) == m + [y];
    ThenOneEdit(a + [x], script, m + [x], Substitute(|m|, y), m + [y]);
  }

  lemma {:induction false} ScriptTransforms(a: string, b: string)
    ensures Transforms(a, Script(a, b), b)
    decreases |a| + |b|
  {
    if a != "" { assert a == Init(a) + [Last(a)]; }
    if b != "" { assert b == Init(b) + [Last(b)]; }
    if a == "" && b != "" {
      ScriptTransforms(a, Init(b));
      ThenInsert(a, Script(a, Init(b)), Init(b), Last(b));
    } else if a != "" && b == "" {
      ScriptTransforms(Init(a), b);
      ThenDelete(Init(a), Last(a), Script(Init(a), b), b);
    } else if a != "" && b != "" {
      if Last(a) == Last(b) {
        ScriptTransforms(Init(a), Init(b));
        TransformsFrame(Init(a), Script(Init(a), Init(b)), Init(b), [Last(a)]);
      } else if Distance(a, b) == 1 + Distance(Init(a), b) {
        ScriptTransforms(Init(a), b);
        ThenDelete(Init(a), Last(a), Script(Init(a), b), b);
      } else if Distance(a, b) == 1 + Distance(a, Init(b)) {
        ScriptTransforms(a, Init(b));
        ThenInsert(a, Script(a, Init(b)), Init(b), Last(b));
      } else {
        ScriptTransforms(Init(a), Init(b));
        ThenSubstitute(Init(a), Last(a), Script(Init(a), Init(b)), Init(b), Last(b));
      }
    }
  }

  lemma {:induction false} ScriptLength(a: string, b: string)
    ensures |Script(a, b)| == Distance(a, b)
    decreases |a| + |b|
  {
    if a == "" && b != "" {
      ScriptLength(a, Init(b));
    } else if a != "" && b == "" {
      ScriptLength(Init(a), b);
    } else if a != "" && b != "" {
      ScriptLength(Init(a), b);
      ScriptLength(a, Init(b));
      ScriptLength(Init(a), Init(b));
    }
  }

  lemma ScriptIsOptimal(a: string, b: string)
    ensures Transforms(a, Script(a, b), b) && |Script(a, b)| == Distance(a, b)
  {
    ScriptTransforms(a, b);
    ScriptLength(a, b);
  }

  /** `d` is the least number of single-character edits over every script from `a` to `b`. */
  ghost predicate IsLeastEdits(a: string, b: string, d: int) {
    && (exists script :: Transforms(a, script, b) && |script| == d)
    && (forall script :: Transforms(a, script, b) ==> d <= |script|)
  }

  lemma DistanceIsLeast(a: string, b: string)
    ensures IsLeastEdits(a, b, Distance(a, b))
  {
    ScriptIsOptimal(a, b);
    forall script | Transforms(a, script, b)
      ensures Distance(a, b) <= |script|
    {
      NoShorterScript(a, script, b);
    }
  }

  // ---------------------------------------------------------------- the metric laws

  lemma {:induction false} DistanceZero(a: string, b: string)
    ensures Distance(a, b) == 0 <==> a == b
    decreases |a| + |b|
  {
    if a != "" && b != "" {
      assert a == Init(a) + [Last(a)] && b == Init(b) + [Last(b)];
      if Last(a) == Last(b) {
        DistanceZero(Init(a), Init(b));
      }
    }
  }

  lemma {:induction false} DistanceSymmetric(a: string, b: string)
    ensures Distance(a, b) == Distance(b, a)
    decreases |a| + |b|
  {
    if a != "" && b != "" {
      DistanceSymmetric(Init(a), b);
      DistanceSymmetric(a, Init(b));
      DistanceSymmetric(Init(a), Init(b));
    }
  }

  lemma TriangleInequality(a: string, b: string, c: string)
    ensures Distance(a, c) <= Distance(a, b) + Distance(b, c)
  {
    ScriptIsOptimal(a, b);
    ScriptIsOptimal(b, c);
    TransformsConcat(a, Script(a, b), b, Script(b, c), c);
    NoShorterScript(a, Script(a, b) + Script(b, c), c);
  }

  function Longer(a: string, b: string): (n: nat)
    ensures n >= |a| && n >= |b| && (n == |a| || n == |b|)
  {
    if |a| >= |b| then |a| else |b|
  }

  lemma {:induction false} DistanceBounds(a: string, b: string)
    ensures |a| <= |b| + Distance(a, b) && |b| <= |a| + Distance(a, b)
    ensures Distance(a, b) <= Longer(a, b)
    decreases |a| + |b|
  {
    if a != "" && b != "" {
      DistanceBounds(Init(a), b);
      DistanceBounds(a, Init(b));
      DistanceBounds(Init(a), Init(b));
    }
  }

  // ---------------------------------------------------------------- the two-row loop

  /** The table cell for the first `i` characters of `a` and the first `j` of `b`. */
  ghost function Cell(a: string, b: string, i: nat, j: nat): nat
    requires i <= |a| && j <= |b|
  {
    Distance(a[..i], b[..j])
  }

  lemma CellRecurrence(a: string, b: string, i: nat, j: nat)
    requires 1 <= i <= |a| && 1 <= j <= |b|
    ensures Cell(a, b, i, j) ==
            if a[i - 1] == b[j - 1] then Cell(a, b, i - 1, j - 1)
            else 1 + Min3(Cell(a, b, i - 1, j), Cell(a, b, i, j - 1), Cell(a, b, i - 1, j - 1))
  {
    assert Init(a[..i]) == a[..i - 1] && Init(b[..j]) == b[..j - 1];
  }

  /** The inner loop: the row for the first `i` characters of `a`, from the row before it. */
  method FillRow(a: string, b: string, i: nat, prev: array<nat>, curr: array<nat>)
    requires 0 < i <= |a| && prev.Length == curr.Length == |b| + 1 && prev != curr
    requires forall k :: 0 <= k <= |b| ==> prev[k] == Cell(a, b, i - 1, k)
    modifies curr
    ensures forall k :: 0 <= k <= |b| ==> curr[k] == Cell(a, b, i, k)
  {
    curr[0] := i;
    for j := 1 to |b| + 1
      invariant forall k :: 0 <= k <= |b| ==> prev[k] == Cell(a, b, i - 1, k)
      invariant forall k :: 0 <= k < j ==> curr[k] == Cell(a, b, i, k)
    {
      CellRecurrence(a, b, i, j);
      if a[i - 1] == b[j - 1] {
        curr[j] := prev[j - 1];
      } else {
        curr[j] := 1 + Min3(prev[j], curr[j - 1], prev[j - 1]);
      }
    }
  }

  /** `_levenshtein`: two rows, swapped and refilled after every character of `a`. */
  method Levenshtein(a: string, b: string) returns (d: nat)
    ensures d == Distance(a, b)
    ensures IsLeastEdits(a, b, d)
  {
    var m, n := |a|, |b|;
    var prev := new nat[n + 1](k => k);
    var curr := new nat[n + 1](_ => 0);
    for i := 1 to m + 1
      invariant prev.Length == curr.Length == n + 1 && prev != curr
      invariant fresh(prev) && fresh(curr)
      invariant forall k :: 0 <= k <= n ==> prev[k] == Cell(a, b, i - 1, k)
    {
      FillRow(a, b, i, prev, curr);
      prev := curr;
      curr := new nat[n + 1](_ => 0);
    }
    assert a[..m] == a && b[..n] == b;
    d := prev[n];
    DistanceIsLeast(a, b);
  }
}
