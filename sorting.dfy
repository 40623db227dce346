/** Sorting by a string key. Go's `sort.Slice` with a `<` comparison on a name, and
    `sort.Strings`, promise a result that is sorted and a permutation of the input;
    insertion sort is one function with that promise, and the callers' contracts
    state only the promise. */
module Sorting {
  import opened Strings

  ghost predicate SortedBy<T>(s: seq<T>, key: T -> string) {
    forall i, j :: 0 <= i < j < |s| ==> Below(key(s[i]), key(s[j]))
  }

  function Insert<T>(x: T, s: seq<T>, key: T -> string): (r: seq<T>)
    requires SortedBy(s, key)
    ensures multiset(r) == multiset(s) + multiset{x}
    ensures forall y :: y in r ==> y == x || y in s
    ensures SortedBy(r, key)
    decreases |s|
  {
    if s == [] then [x]
    else if Below(key(x), key(s[0])) then
      InsertFrontSorted(x, s, key);
      [x] + s
    else
      BelowTotal(key(x), key(s[0]));
      var tail := Insert(x, s[1..], key);
      assert s == [s[0]] + s[1..];
      SortedCons(s[0], tail, key, s);
      [s[0]] + tail
  }

  lemma InsertFrontSorted<T>(x: T, s: seq<T>, key: T -> string)
    requires SortedBy(s, key) && s != [] && Below(key(x), key(s[0]))
    ensures SortedBy([x] + s, key)
  {
    var r := [x] + s;
    forall i, j | 0 <= i < j < |r| ensures Below(key(r[i]), key(r[j])) {
      if i == 0 && j > 1 { BelowTransitive(key(x), key(s[0]), key(s[j - 1])); }
    }
  }

  lemma SortedCons<T>(h: T, tail: seq<T>, key: T -> string, s: seq<T>)
    requires SortedBy(s, key) && s != [] && s[0] == h
    requires SortedBy(tail, key)
    requires forall y :: y in tail ==> Below(key(h), key(y)) || y in s[1..]
    ensures SortedBy([h] + tail, key)
  {
    var r := [h] + tail;
    forall i, j | 0 <= i < j < |r| ensures Below(key(r[i]), key(r[j])) {
      if i == 0 {
        assert r[j] in tail;
        if r[j] in s[1..] {
          var k :| 0 <= k < |s[1..]| && s[1..][k] == r[j];
          assert s[k + 1] == r[j];
        }
      }
    }
  }

  /** A sorted permutation of `s`. */
  function SortBy<T>(s: seq<T>, key: T -> string): (r: seq<T>)
    ensures multiset(r) == multiset(s)
    ensures SortedBy(r, key)
    decreases |s|
  {
    if s == [] then []
    else
      assert s == [s[0]] + s[1..];
      Insert(s[0], SortBy(s[1..], key), key)
  }

  /** Sorting keeps the length and the elements. */
  lemma SortKeeps<T>(s: seq<T>, key: T -> string)
    ensures |SortBy(s, key)| == |s|
    ensures forall x :: x in SortBy(s, key) <==> x in s
  {
    var r := SortBy(s, key);
    assert |r| == |multiset(r)| == |multiset(s)| == |s|;
    forall x ensures x in r <==> x in s {
      assert x in r <==> x in multiset(r);
      assert x in s <==> x in multiset(s);
    }
  }
}
