/** Sorting by an integer key, the model of a database `sort` stage. Ties keep their input order. */
module Sorting {

  /** `s` is in non-decreasing order of `key`. */
  ghost predicate SortedBy<T>(s: seq<T>, key: T -> int)
  {
    forall i, j :: 0 <= i < j < |s| ==> key(s[i]) <= key(s[j])
  }

  /** Every element of `s` has a key of at least `b`. */
  ghost predicate KeysAtLeast<T>(s: seq<T>, key: T -> int, b: int)
  {
    forall k :: 0 <= k < |s| ==> b <= key(s[k])
  }

  /** A lower bound on the keys carries over to any permutation. */
  lemma KeysAtLeastPermutation<T>(a: seq<T>, c: seq<T>, key: T -> int, b: int)
    requires multiset(a) == multiset(c) && KeysAtLeast(c, key, b)
    ensures KeysAtLeast(a, key, b)
  {
    forall k | 0 <= k < |a| ensures b <= key(a[k]) {
      assert a[k] in multiset(c);
      var m :| 0 <= m < |c| && c[m] == a[k];
    }
  }

  /** Two permutations of each other have the same elements. */
  lemma SameElements<T(!new)>(a: seq<T>, b: seq<T>)
    requires multiset(a) == multiset(b)
    ensures forall x :: x in a <==> x in b
  {
    forall x ensures x in a <==> x in b {
      assert x in a <==> x in multiset(a);
      assert x in b <==> x in multiset(b);
    }
  }

  /** Inserts `x` before the first element whose key is not smaller than its own. */
  function Insert<T>(x: T, s: seq<T>, key: T -> int): (r: seq<T>)
    ensures multiset(r) == multiset(s) + multiset{x}
  {
    if s == [] || key(x) <= key(s[0]) then [x] + s
    else
      assert s == [s[0]] + s[1..];
      [s[0]] + Insert(x, s[1..], key)
  }

  /** Inserting into a sorted sequence keeps it sorted. */
  lemma {:induction false} InsertSorted<T>(x: T, s: seq<T>, key: T -> int)
    requires SortedBy(s, key)
    ensures SortedBy(Insert(x, s, key), key)
  {
    if s != [] && key(x) > key(s[0]) {
      var rest := Insert(x, s[1..], key);
      InsertSorted(x, s[1..], key);
      assert KeysAtLeast(s[1..] + [x], key, key(s[0]));
      assert multiset(s[1..] + [x]) == multiset(s[1..]) + multiset{x};
      KeysAtLeastPermutation(rest, s[1..] + [x], key, key(s[0]));
    }
  }

  /** Insertion sort: a permutation of `s` in non-decreasing order of `key`. */
  function SortBy<T>(s: seq<T>, key: T -> int): (r: seq<T>)
    ensures SortedBy(r, key)
    ensures multiset(r) == multiset(s)
  {
    if s == [] then []
    else
      var rest := SortBy(s[1..], key);
      assert s == [s[0]] + s[1..];
      InsertSorted(s[0], rest, key);
      Insert(s[0], rest, key)
  }

  /** The first `n` entries of `s` (all of them when `s` is shorter), the model of a `$limit` stage. */
  function Take<T>(s: seq<T>, n: nat): (r: seq<T>)
    ensures |r| <= n && |r| <= |s|
    ensures r == s[..|r|]
    ensures |r| < n ==> r == s
  {
    if |s| <= n then s else s[..n]
  }

  /** A prefix of a sorted sequence is sorted and draws only on the sequence's elements. */
  lemma TakeSorted<T>(s: seq<T>, key: T -> int, n: nat)
    requires SortedBy(s, key)
    ensures SortedBy(Take(s, n), key)
    ensures multiset(Take(s, n)) <= multiset(s)
  {
    var r := Take(s, n);
    assert s == r + s[|r|..];
  }
}
