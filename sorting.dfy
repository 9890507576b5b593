/** `sorted(...)` on distinct keys, by insertion. */
module Sorting {

  predicate IncreasingInts(s: seq<int>)
  {
    forall i, j :: 0 <= i < j < |s| ==> s[i] < s[j]
  }

  predicate IncreasingReals(s: seq<real>)
  {
    forall i, j :: 0 <= i < j < |s| ==> s[i] < s[j]
  }

  /** In an ascending sequence the head is below everything after it. */
  lemma {:induction false} HeadBelowTailInts(s: seq<int>)
    requires IncreasingInts(s) && s != []
    ensures forall y :: y in s[1..] ==> s[0] < y
  {
    forall y | y in s[1..] ensures s[0] < y {
      var i :| 0 <= i < |s[1..]| && s[1..][i] == y;
      assert s[i + 1] == y;
    }
  }

  lemma {:induction false} ConsIncreasingInts(h: int, rest: seq<int>)
    requires IncreasingInts(rest) && forall y :: y in rest ==> h < y
    ensures IncreasingInts([h] + rest)
  {
    forall a, b | 0 <= a < b < |rest| + 1 ensures ([h] + rest)[a] < ([h] + rest)[b] {
      assert ([h] + rest)[b] == rest[b - 1] && rest[b - 1] in rest;
      if a > 0 { assert ([h] + rest)[a] == rest[a - 1]; }
    }
  }

  function InsertInt(x: int, s: seq<int>): (r: seq<int>)
    requires IncreasingInts(s) && x !in s
    ensures IncreasingInts(r)
    ensures multiset(r) == multiset(s) + multiset{x}
    ensures forall y :: y in r <==> y in s || y == x
  {
    if s == [] then [x]
    else if x < s[0] then
      ConsIncreasingInts(x, s);
      [x] + s
    else
      assert s == [s[0]] + s[1..];
      var rest := InsertInt(x, s[1..]);
      HeadBelowTailInts(s);
      ConsIncreasingInts(s[0], rest);
      assert multiset([s[0]] + rest) == multiset{s[0]} + multiset(rest);
      [s[0]] + rest
  }

  /** The keys in ascending order. */
  function SortInts(s: seq<int>): (r: seq<int>)
    requires forall i, j :: 0 <= i < j < |s| ==> s[i] != s[j]
    ensures IncreasingInts(r)
    ensures multiset(r) == multiset(s)
    ensures |r| == |s|
  {
    if s == [] then []
    else
      var rest := SortInts(s[1..]);
      assert s == [s[0]] + s[1..];
      assert s[0] !in multiset(rest);
      InsertInt(s[0], rest)
  }

  lemma {:induction false} HeadBelowTailReals(s: seq<real>)
    requires IncreasingReals(s) && s != []
    ensures forall y :: y in s[1..] ==> s[0] < y
  {
    forall y | y in s[1..] ensures s[0] < y {
      var i :| 0 <= i < |s[1..]| && s[1..][i] == y;
      assert s[i + 1] == y;
    }
  }

  lemma {:induction false} ConsIncreasingReals(h: real, rest: seq<real>)
    requires IncreasingReals(rest) && forall y :: y in rest ==> h < y
    ensures IncreasingReals([h] + rest)
  {
    forall a, b | 0 <= a < b < |rest| + 1 ensures ([h] + rest)[a] < ([h] + rest)[b] {
      assert ([h] + rest)[b] == rest[b - 1] && rest[b - 1] in rest;
      if a > 0 { assert ([h] + rest)[a] == rest[a - 1]; }
    }
  }

  function InsertReal(x: real, s: seq<real>): (r: seq<real>)
    requires IncreasingReals(s) && x !in s
    ensures IncreasingReals(r)
    ensures multiset(r) == multiset(s) + multiset{x}
    ensures forall y :: y in r <==> y in s || y == x
  {
    if s == [] then [x]
    else if x < s[0] then
      ConsIncreasingReals(x, s);
      [x] + s
    else
      assert s == [s[0]] + s[1..];
      var rest := InsertReal(x, s[1..]);
      HeadBelowTailReals(s);
      ConsIncreasingReals(s[0], rest);
      assert multiset([s[0]] + rest) == multiset{s[0]} + multiset(rest);
      [s[0]] + rest
  }

  function SortReals(s: seq<real>): (r: seq<real>)
    requires forall i, j :: 0 <= i < j < |s| ==> s[i] != s[j]
    ensures IncreasingReals(r)
    ensures multiset(r) == multiset(s)
    ensures |r| == |s|
  {
    if s == [] then []
    else
      var rest := SortReals(s[1..]);
      assert s == [s[0]] + s[1..];
      assert s[0] !in multiset(rest);
      InsertReal(s[0], rest)
  }

  /** An ascending sequence is determined by its elements, so sorting an
      ascending sequence returns it unchanged. */
  lemma {:induction false} IncreasingUnique(a: seq<real>, b: seq<real>)
    requires IncreasingReals(a) && IncreasingReals(b) && multiset(a) == multiset(b)
    ensures a == b
  {
    if a != [] {
      assert |b| == |multiset(b)| == |a|;
      SameLeast(a, b);
      SameRest(a, b);
      IncreasingUnique(a[1..], b[1..]);
      assert a == [a[0]] + a[1..] && b == [b[0]] + b[1..];
    }
  }

  /** Two ascending sequences with the same elements start alike. */
  lemma {:induction false} SameLeast(a: seq<real>, b: seq<real>)
    requires IncreasingReals(a) && IncreasingReals(b) && multiset(a) == multiset(b) && a != [] && b != []
    ensures a[0] == b[0]
  {
    assert a[0] in multiset(b) && b[0] in multiset(a);
    var i :| 0 <= i < |b| && b[i] == a[0];
    var j :| 0 <= j < |a| && a[j] == b[0];
    assert b[0] <= b[i] && a[0] <= a[j];
  }

  /** Removing a common first element keeps the elements equal. */
  lemma {:induction false} SameRest(a: seq<real>, b: seq<real>)
    requires multiset(a) == multiset(b) && a != [] && b != [] && a[0] == b[0]
    ensures multiset(a[1..]) == multiset(b[1..])
  {
    assert a == [a[0]] + a[1..] && b == [b[0]] + b[1..];
    forall z ensures multiset(a[1..])[z] == multiset(b[1..])[z] {
      assert multiset(a)[z] == multiset{a[0]}[z] + multiset(a[1..])[z];
      assert multiset(b)[z] == multiset{b[0]}[z] + multiset(b[1..])[z];
    }
  }
}
