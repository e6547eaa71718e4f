/** Python's `sorted(xs, key=k, reverse=True)` (and SQL `ORDER BY k DESC`) as a
    stable insertion sort on sequences. */
module Sorting {

  ghost predicate SortedDesc<T>(s: seq<T>, key: T -> real)
  {
    forall i, j :: 0 <= i < j < |s| ==> key(s[i]) >= key(s[j])
  }

  /** Inserts `x` in front of the first element whose key is not larger than its own. */
  function InsertDesc<T>(x: T, s: seq<T>, key: T -> real): (r: seq<T>)
    requires SortedDesc(s, key)
    ensures SortedDesc(r, key)
    ensures multiset(r) == multiset{x} + multiset(s)
    ensures |r| == |s| + 1
    ensures r[0] == x || (|s| > 0 && r[0] == s[0])
  {
    if |s| == 0 || key(x) >= key(s[0]) then
      [x] + s
    else
      var rest := InsertDesc(x, s[1..], key);
      assert s == [s[0]] + s[1..];
      assert key(s[0]) >= key(rest[0]);
      [s[0]] + rest
  }

  /** The elements of `s` ordered by decreasing key. */
  function SortDesc<T>(s: seq<T>, key: T -> real): (r: seq<T>)
    ensures SortedDesc(r, key)
    ensures multiset(r) == multiset(s)
    ensures |r| == |s|
  {
    if |s| == 0 then [] else
      assert s == [s[0]] + s[1..];
      InsertDesc(s[0], SortDesc(s[1..], key), key)
  }

  /** The `n` elements of `s` with the largest keys, largest first: Python's
      `sorted(xs, key=k, reverse=True)[:n]`. Every element left out has a key no
      larger than any element kept. */
  function Largest<T>(s: seq<T>, key: T -> real, n: nat): (r: seq<T>)
    requires n <= |s|
    ensures |r| == n && SortedDesc(r, key)
    ensures multiset(r) <= multiset(s)
    ensures n == |s| ==> multiset(r) == multiset(s)
    ensures forall o, p :: o in multiset(s) - multiset(r) && p in r ==> key(o) <= key(p)
  {
    var sorted := SortDesc(s, key);
    SortedPrefix(sorted, key, n);
    assert n == |s| ==> sorted[..n] == sorted;
    sorted[..n]
  }

  /** Cutting a sorted sequence keeps elements whose keys are no smaller than
      those of the elements cut off. */
  lemma SortedPrefix<T>(sorted: seq<T>, key: T -> real, n: nat)
    requires SortedDesc(sorted, key) && n <= |sorted|
    ensures multiset(sorted[..n]) <= multiset(sorted)
    ensures forall o, p :: o in multiset(sorted) - multiset(sorted[..n]) && p in sorted[..n] ==> key(o) <= key(p)
  {
    CutMultiset(sorted, n);
    forall o, p | o in multiset(sorted) - multiset(sorted[..n]) && p in sorted[..n] ensures key(o) <= key(p) {
      assert o in sorted[n..];
      var j :| n <= j < |sorted| && sorted[j] == o;
      var i :| 0 <= i < n && sorted[i] == p;
    }
  }

  lemma CutMultiset<T>(s: seq<T>, n: nat)
    requires n <= |s|
    ensures multiset(s[..n]) <= multiset(s)
    ensures multiset(s) - multiset(s[..n]) == multiset(s[n..])
  {
    assert s == s[..n] + s[n..];
  }

  /** Every element of a sorted result comes from the input and vice versa. */
  lemma SortDescMembers<T>(s: seq<T>, key: T -> real, x: T)
    ensures x in SortDesc(s, key) <==> x in s
  {
    var r := SortDesc(s, key);
    assert x in r <==> x in multiset(r);
    assert x in s <==> x in multiset(s);
  }
}
