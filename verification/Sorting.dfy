/** Sorting a list by a key, as `list.sort(key=...)` and `sorted(...)` do. */
module Sorting {
  import opened Sequences

  /** Keys are pairs, compared first by the first component; a plain number `n` is the key `(n, 0)`. */
  type Rank = (int, int)

  predicate Less(a: Rank, b: Rank) {
    a.0 < b.0 || (a.0 == b.0 && a.1 < b.1)
  }

  ghost predicate Ordered<T>(s: seq<T>, key: T -> Rank) {
    forall i, j :: 0 <= i < j < |s| ==> !Less(key(s[j]), key(s[i]))
  }

  /** The same entries, and no entry twice if none was twice before. */
  ghost predicate Rearranged<T>(s: seq<T>, r: seq<T>) {
    |r| == |s| && Elements(r) == Elements(s) && (NoDup(s) ==> NoDup(r))
  }

  /** Puts `x` after everything whose key is not larger. */
  method Insert<T>(s: seq<T>, x: T, key: T -> Rank) returns (r: seq<T>)
    requires Ordered(s, key)
    ensures Ordered(r, key) && Rearranged(s + [x], r)
  {
    var n := |s|;
    while n > 0 && Less(key(x), key(s[n - 1]))
      invariant 0 <= n <= |s|
      invariant forall j :: n <= j < |s| ==> Less(key(x), key(s[j]))
    {
      n := n - 1;
    }
    r := s[..n] + [x] + s[n..];
    InsertRearranges(s, x, n);
  }

  lemma InsertRearranges<T>(s: seq<T>, x: T, n: nat)
    requires n <= |s|
    ensures Rearranged(s + [x], s[..n] + [x] + s[n..])
  {
    var r := s[..n] + [x] + s[n..];
    forall y
      ensures y in r <==> y in s + [x]
    {
      assert y in s <==> y in s[..n] || y in s[n..] by { assert s == s[..n] + s[n..]; }
    }
    if NoDup(s + [x]) {
      forall i | 0 <= i < |s|
        ensures s[i] != x
      {
        assert (s + [x])[i] == s[i] && (s + [x])[|s|] == x;
      }
      forall i, j | 0 <= i < j < |s|
        ensures s[i] != s[j]
      {
        assert (s + [x])[i] == s[i] && (s + [x])[j] == s[j];
      }
    }
  }

  lemma RearrangedStep<T>(s: seq<T>, r: seq<T>, x: T, q: seq<T>)
    requires Rearranged(s, r) && Rearranged(r + [x], q)
    ensures Rearranged(s + [x], q)
  {
    assert Elements(s + [x]) == Elements(s) + {x} && Elements(r + [x]) == Elements(r) + {x};
    if NoDup(s + [x]) {
      assert s == (s + [x])[..|s|];
      assert x !in s && x !in Elements(s) && x !in Elements(r) && x !in r;
    }
  }

  method Sort<T>(s: seq<T>, key: T -> Rank) returns (r: seq<T>)
    ensures Ordered(r, key) && Rearranged(s, r)
  {
    r := [];
    for i := 0 to |s|
      invariant Ordered(r, key) && Rearranged(s[..i], r)
    {
      var q := Insert(r, s[i], key);
      RearrangedStep(s[..i], r, s[i], q);
      assert s[..i + 1] == s[..i] + [s[i]];
      r := q;
    }
    assert s[..|s|] == s;
  }
}
