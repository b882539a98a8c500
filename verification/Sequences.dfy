/** Facts about sequences that several components share. */
module Sequences {

  ghost predicate NoDup<T>(s: seq<T>) {
    forall i, j :: 0 <= i < j < |s| ==> s[i] != s[j]
  }

  ghost function Elements<T>(s: seq<T>): set<T> {
    set x | x in s
  }

  lemma {:induction false} NoDupCardinality<T>(s: seq<T>)
    requires NoDup(s)
    ensures |Elements(s)| == |s|
    decreases |s|
  {
    if s != [] {
      var n := |s| - 1;
      NoDupCardinality(s[..n]);
      assert s == s[..n] + [s[n]];
      assert Elements(s) == Elements(s[..n]) + {s[n]};
    }
  }

  lemma SubsetCardinality<T>(a: set<T>, b: set<T>)
    requires a <= b
    ensures |a| <= |b|
    ensures |a| == |b| ==> a == b
  {
    assert |b - a| == |b| - |a| by { assert b == a + (b - a); }
  }

  /** More entries than values: some value is repeated. */
  lemma Pigeonhole<T>(s: seq<T>, pool: set<T>)
    requires Elements(s) <= pool && |s| > |pool|
    ensures exists i, j :: 0 <= i < j < |s| && s[i] == s[j]
  {
    if NoDup(s) {
      NoDupCardinality(s);
      SubsetCardinality(Elements(s), pool);
    }
  }

  function Concat<T>(ss: seq<seq<T>>): seq<T> {
    if ss == [] then [] else Concat(ss[..|ss| - 1]) + ss[|ss| - 1]
  }

  lemma ConcatAppend<T>(ss: seq<seq<T>>, s: seq<T>)
    ensures Concat(ss + [s]) == Concat(ss) + s
  {
  }

  lemma {:induction false} InConcat<T>(ss: seq<seq<T>>, x: T)
    ensures x in Concat(ss) <==> exists i :: 0 <= i < |ss| && x in ss[i]
  {
    if ss != [] {
      InConcat(ss[..|ss| - 1], x);
    }
  }

  /** What `f` gives for the elements of `s`, one behind the other. */
  function Mapped<T, U>(s: seq<T>, f: T -> seq<U>): seq<U> {
    Concat(seq(|s|, i requires 0 <= i < |s| => f(s[i])))
  }

  lemma LastOfMapped<T, U>(s: seq<T>, f: T -> seq<U>)
    requires s != []
    ensures Mapped(s, f) == Mapped(s[..|s| - 1], f) + f(s[|s| - 1])
  {
    var n := |s| - 1;
    var all := seq(|s|, i requires 0 <= i < |s| => f(s[i]));
    assert all[..n] == seq(n, i requires 0 <= i < n => f(s[..n][i]));
  }
}
