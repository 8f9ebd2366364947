/** Small shared definitions: optional values, prefixes and majorities. */
module Basics {

  datatype Option<+T> = None | Some(value: T)

  function Max(a: int, b: int): int {
    if a >= b then a else b
  }

  function Min(a: int, b: int): int {
    if a <= b then a else b
  }

  /** `p` is a prefix of `s`. */
  predicate Prefix<T(==)>(p: seq<T>, s: seq<T>) {
    |p| <= |s| && p == s[..|p|]
  }

  lemma PrefixTransitive<T>(a: seq<T>, b: seq<T>, c: seq<T>)
    requires Prefix(a, b) && Prefix(b, c)
    ensures Prefix(a, c)
  {
    assert a == b[..|a|] == c[..|b|][..|a|] == c[..|a|];
  }

  /** Two prefixes of one sequence are ordered by length. */
  lemma PrefixesNest<T>(a: seq<T>, b: seq<T>, s: seq<T>)
    requires Prefix(a, s) && Prefix(b, s) && |a| <= |b|
    ensures Prefix(a, b)
  {
    assert b[..|a|] == s[..|b|][..|a|] == s[..|a|];
  }

  /** `q` is a strict majority of `all`. */
  ghost predicate Majority<T>(q: set<T>, all: set<T>) {
    q <= all && |q| >= |all| / 2 + 1
  }

  /** Any two strict majorities of the same set share a member. */
  lemma MajoritiesMeet<T>(a: set<T>, b: set<T>, all: set<T>) returns (x: T)
    requires Majority(a, all) && Majority(b, all)
    ensures x in a && x in b
  {
    SubsetSize(a + b, all);
    assert |a + b| == |a| + |b| - |a * b|;
    x :| x in a * b;
  }

  lemma SubsetSize<T>(a: set<T>, b: set<T>)
    requires a <= b
    ensures |a| <= |b|
  {
    assert b == a + (b - a);
  }
}
