/** Grouping with a sum accumulator, the model of a `$group: { _id: <key>, total: { $sum: <value> } }`
    stage. The input is the sequence of (key, value) pairs the stage reads, one per document; the
    output has one entry per distinct key, in order of first appearance. */
module Grouping {

  /** One output document of the stage: a group key and the sum accumulated for it. */
  datatype Group<K> = Group(key: K, total: int)

  /** The keys present in a grouping. */
  function Keys<K>(gs: seq<Group<K>>): set<K>
  {
    set g | g in gs :: g.key
  }

  /** No key appears twice. */
  ghost predicate DistinctKeys<K>(gs: seq<Group<K>>)
  {
    forall i, j :: 0 <= i < j < |gs| ==> gs[i].key != gs[j].key
  }

  /** The sum of the totals of all entries with key `k`. */
  function TotalOf<K(==)>(gs: seq<Group<K>>, k: K): int
  {
    if gs == [] then 0 else (if gs[0].key == k then gs[0].total else 0) + TotalOf(gs[1..], k)
  }

  /** The sum of all totals. */
  function GrandTotal<K>(gs: seq<Group<K>>): int
  {
    if gs == [] then 0 else gs[0].total + GrandTotal(gs[1..])
  }

  /** Adds `v` to the group of `k`, opening a new group at the end when `k` has none. */
  function Accumulate<K(==)>(gs: seq<Group<K>>, k: K, v: int): (r: seq<Group<K>>)
    ensures Keys(r) == Keys(gs) + {k}
  {
    if gs == [] then [Group(k, v)]
    else if gs[0].key == k then
      assert gs == [gs[0]] + gs[1..];
      [gs[0].(total := gs[0].total + v)] + gs[1..]
    else
      var rest := Accumulate(gs[1..], k, v);
      assert Keys([gs[0]] + rest) == {gs[0].key} + Keys(rest);
      assert Keys(gs) == {gs[0].key} + Keys(gs[1..]);
      [gs[0]] + rest
  }

  /** Accumulating never creates a second group for a key. */
  lemma {:induction false} AccumulateDistinct<K>(gs: seq<Group<K>>, k: K, v: int)
    requires DistinctKeys(gs)
    ensures DistinctKeys(Accumulate(gs, k, v))
  {
    if gs != [] && gs[0].key != k {
      var rest := Accumulate(gs[1..], k, v);
      AccumulateDistinct(gs[1..], k, v);
      HeadKeyNotInTail(gs);
      assert gs[0].key !in Keys(rest);
      ConsDistinct(gs[0], rest);
    }
  }

  /** In a grouping without repeated keys, the first key does not recur in the rest. */
  lemma HeadKeyNotInTail<K>(gs: seq<Group<K>>)
    requires gs != [] && DistinctKeys(gs)
    ensures gs[0].key !in Keys(gs[1..])
  {
    forall g | g in gs[1..] ensures g.key != gs[0].key {
      var j :| 0 <= j < |gs[1..]| && gs[1..][j] == g;
      assert gs[j + 1] == g;
    }
  }

  /** A group whose key is new, followed by a grouping without repeated keys, repeats no key. */
  lemma ConsDistinct<K>(g: Group<K>, rest: seq<Group<K>>)
    requires DistinctKeys(rest) && g.key !in Keys(rest)
    ensures DistinctKeys([g] + rest)
  {
    var r := [g] + rest;
    forall i, j | 0 <= i < j < |r| ensures r[i].key != r[j].key {
      assert r[j] == rest[j - 1];
      if i == 0 {
        assert rest[j - 1] in rest;
      } else {
        assert r[i] == rest[i - 1];
      }
    }
  }

  /** Accumulating adds `v` to the total of `k` and leaves every other key's total alone. */
  lemma {:induction false} AccumulateTotals<K>(gs: seq<Group<K>>, k: K, v: int, k': K)
    ensures TotalOf(Accumulate(gs, k, v), k') == TotalOf(gs, k') + (if k' == k then v else 0)
    ensures GrandTotal(Accumulate(gs, k, v)) == GrandTotal(gs) + v
  {
    if gs != [] && gs[0].key != k {
      AccumulateTotals(gs[1..], k, v, k');
    }
  }

  /** The keys of the input pairs. */
  function PairKeys<K>(pairs: seq<(K, int)>): set<K>
  {
    set p | p in pairs :: p.0
  }

  /** The keys of joined pairs are the keys of either part. */
  lemma PairKeysAppend<K>(a: seq<(K, int)>, b: seq<(K, int)>)
    ensures PairKeys(a + b) == PairKeys(a) + PairKeys(b)
  {
    forall p | p in a + b ensures p in a || p in b {
    }
    assert forall p :: p in a ==> p in a + b;
    assert forall p :: p in b ==> p in a + b;
  }

  /** The sum of the values of the pairs whose key is `k`. */
  function SumFor<K(==)>(pairs: seq<(K, int)>, k: K): int
  {
    if pairs == [] then 0
    else SumFor(pairs[..|pairs| - 1], k) + (if pairs[|pairs| - 1].0 == k then pairs[|pairs| - 1].1 else 0)
  }

  /** The sum of all values. */
  function SumAll<K>(pairs: seq<(K, int)>): int
  {
    if pairs == [] then 0 else SumAll(pairs[..|pairs| - 1]) + pairs[|pairs| - 1].1
  }

  /** The grouping stage: one group per distinct key, whose total is the sum of that key's values. */
  function GroupSum<K(==,!new)>(pairs: seq<(K, int)>): (gs: seq<Group<K>>)
    ensures DistinctKeys(gs)
    ensures Keys(gs) == PairKeys(pairs)
    ensures forall k :: TotalOf(gs, k) == SumFor(pairs, k)
    ensures GrandTotal(gs) == SumAll(pairs)
  {
    if pairs == [] then []
    else
      var init := pairs[..|pairs| - 1];
      var last := pairs[|pairs| - 1];
      assert pairs == init + [last];
      assert PairKeys(pairs) == PairKeys(init) + {last.0};
      var prev := GroupSum(init);
      AccumulateDistinct(prev, last.0, last.1);
      assert forall k :: TotalOf(Accumulate(prev, last.0, last.1), k) == SumFor(pairs, k) by {
        forall k ensures TotalOf(Accumulate(prev, last.0, last.1), k) == SumFor(pairs, k) {
          AccumulateTotals(prev, last.0, last.1, k);
        }
      }
      AccumulateTotals(prev, last.0, last.1, last.0);
      Accumulate(prev, last.0, last.1)
  }

  /** With distinct keys, an entry's total is the total recorded for its key. */
  lemma {:induction false} TotalOfDistinct<K>(gs: seq<Group<K>>, i: nat)
    requires DistinctKeys(gs) && i < |gs|
    ensures gs[i].total == TotalOf(gs, gs[i].key)
  {
    if i == 0 {
      TotalOfAbsent(gs[1..], gs[0].key);
    } else {
      TotalOfDistinct(gs[1..], i - 1);
    }
  }

  /** A key with no entry has total 0. */
  lemma {:induction false} TotalOfAbsent<K>(gs: seq<Group<K>>, k: K)
    requires forall j :: 0 <= j < |gs| ==> gs[j].key != k
    ensures TotalOf(gs, k) == 0
  {
    if gs != [] {
      TotalOfAbsent(gs[1..], k);
    }
  }

  /** Every output group carries exactly the sum of the values of its key. */
  lemma GroupSumTotals<K(!new)>(pairs: seq<(K, int)>, i: nat)
    requires i < |GroupSum(pairs)|
    ensures GroupSum(pairs)[i].total == SumFor(pairs, GroupSum(pairs)[i].key)
  {
    TotalOfDistinct(GroupSum(pairs), i);
  }

  /** Sums over a concatenation of inputs split into the sums over the parts. */
  lemma {:induction false} SumForAppend<K>(a: seq<(K, int)>, b: seq<(K, int)>, k: K)
    ensures SumFor(a + b, k) == SumFor(a, k) + SumFor(b, k)
    decreases |b|
  {
    if b == [] {
      assert a + b == a;
    } else {
      assert (a + b)[..|a + b| - 1] == a + b[..|b| - 1];
      SumForAppend(a, b[..|b| - 1], k);
    }
  }

  lemma {:induction false} SumAllAppend<K>(a: seq<(K, int)>, b: seq<(K, int)>)
    ensures SumAll(a + b) == SumAll(a) + SumAll(b)
    decreases |b|
  {
    if b == [] {
      assert a + b == a;
    } else {
      assert (a + b)[..|a + b| - 1] == a + b[..|b| - 1];
      SumAllAppend(a, b[..|b| - 1]);
    }
  }

  /** With distinct keys there are as many keys as entries. */
  lemma {:induction false} KeysCardinality<K>(gs: seq<Group<K>>)
    requires DistinctKeys(gs)
    ensures |Keys(gs)| == |gs|
  {
    if gs != [] {
      KeysCardinality(gs[1..]);
      assert Keys(gs) == {gs[0].key} + Keys(gs[1..]) by {
        assert gs == [gs[0]] + gs[1..];
      }
      assert gs[0].key !in Keys(gs[1..]);
    }
  }

  /** A stage grouping on a constant (`_id: null`) yields a single document, or none for no input. */
  lemma {:induction false} GroupSumSingleKey<K(!new)>(pairs: seq<(K, int)>, c: K)
    requires forall i :: 0 <= i < |pairs| ==> pairs[i].0 == c
    ensures |GroupSum(pairs)| <= 1
    ensures |GroupSum(pairs)| == 1 <==> pairs != []
    ensures GroupSum(pairs) != [] ==> GroupSum(pairs)[0] == Group(c, SumAll(pairs))
  {
    var gs := GroupSum(pairs);
    assert PairKeys(pairs) <= {c};
    assert forall i :: 0 <= i < |gs| ==> gs[i].key in Keys(gs);
    KeysCardinality(gs);
    assert Keys(gs) == {} || Keys(gs) == {c};
    if pairs != [] {
      assert pairs[0].0 in PairKeys(pairs);
      assert gs != [];
      assert gs == [gs[0]];
      assert GrandTotal(gs[1..]) == 0;
    }
  }

  /** Grand totals add up over a concatenation. */
  lemma {:induction false} GrandTotalAppend<K>(a: seq<Group<K>>, b: seq<Group<K>>)
    ensures GrandTotal(a + b) == GrandTotal(a) + GrandTotal(b)
  {
    if a != [] {
      assert (a + b)[1..] == a[1..] + b;
      GrandTotalAppend(a[1..], b);
    } else {
      assert a + b == b;
    }
  }

  /** Taking one entry out lowers the grand total by that entry's total. */
  lemma GrandTotalRemove<K>(b: seq<Group<K>>, m: nat)
    requires m < |b|
    ensures GrandTotal(b) == b[m].total + GrandTotal(b[..m] + b[m + 1..])
  {
    var front, back := b[..m], b[m + 1..];
    var tail := [b[m]] + back;
    assert b == front + tail;
    GrandTotalAppend(front, tail);
    assert tail[1..] == back;
    assert GrandTotal(tail) == b[m].total + GrandTotal(back);
    GrandTotalAppend(front, back);
  }

  /** Removing one occurrence of an element from both sides of a permutation leaves a permutation. */
  lemma RemovePermutation<K>(a: seq<Group<K>>, b: seq<Group<K>>, m: nat)
    requires a != [] && m < |b| && b[m] == a[0] && multiset(a) == multiset(b)
    ensures multiset(a[1..]) == multiset(b[..m] + b[m + 1..])
  {
    assert b == b[..m] + [b[m]] + b[m + 1..];
    assert multiset(b) == multiset(b[..m]) + multiset{b[m]} + multiset(b[m + 1..]);
    assert a == [a[0]] + a[1..];
    assert multiset(a) == multiset{a[0]} + multiset(a[1..]);
    assert multiset(b[..m] + b[m + 1..]) == multiset(b[..m]) + multiset(b[m + 1..]);
    assert multiset(a[1..]) == multiset(a) - multiset{a[0]};
    assert multiset(b[..m] + b[m + 1..]) == multiset(b) - multiset{b[m]};
  }

  /** Reordering the groups (a `$sort` stage) does not change the grand total. */
  lemma {:induction false} GrandTotalPermutation<K>(a: seq<Group<K>>, b: seq<Group<K>>)
    requires multiset(a) == multiset(b)
    ensures GrandTotal(a) == GrandTotal(b)
    decreases |a|
  {
    if a == [] {
      assert |b| == |multiset(b)| == 0;
    } else {
      assert a[0] in multiset(b);
      var m :| 0 <= m < |b| && b[m] == a[0];
      RemovePermutation(a, b, m);
      GrandTotalPermutation(a[1..], b[..m] + b[m + 1..]);
      GrandTotalRemove(b, m);
    }
  }

  /** There are never more keys than entries. */
  lemma {:induction false} KeysAtMost<K>(gs: seq<Group<K>>)
    ensures |Keys(gs)| <= |gs|
  {
    if gs != [] {
      KeysAtMost(gs[1..]);
      assert Keys(gs) == {gs[0].key} + Keys(gs[1..]) by {
        assert gs == [gs[0]] + gs[1..];
      }
    }
  }

  /** Two entries sharing a key leave fewer keys than entries. */
  lemma KeysShrink<K>(gs: seq<Group<K>>, i: nat, j: nat)
    requires i < j < |gs|
    ensures gs[i].key == gs[j].key ==> |Keys(gs)| < |gs|
  {
    var rest := gs[..j] + gs[j + 1..];
    KeysAtMost(rest);
    if gs[i].key == gs[j].key {
      assert gs == gs[..j] + [gs[j]] + gs[j + 1..];
      assert gs[i] in rest by {
        assert rest[i] == gs[i];
      }
      assert Keys(gs) == Keys(rest);
    }
  }

  /** Reordering the groups keeps their keys distinct. */
  lemma DistinctKeysPermutation<K>(a: seq<Group<K>>, b: seq<Group<K>>)
    requires multiset(a) == multiset(b) && DistinctKeys(b)
    ensures DistinctKeys(a)
  {
    KeysCardinality(b);
    assert |a| == |multiset(a)| == |multiset(b)| == |b|;
    assert forall g :: g in a <==> g in b by {
      forall g ensures g in a <==> g in b {
        assert g in a <==> g in multiset(a);
        assert g in b <==> g in multiset(b);
      }
    }
    assert Keys(a) == Keys(b);
    forall i, j | 0 <= i < j < |a| ensures a[i].key != a[j].key {
      KeysShrink(a, i, j);
    }
  }
}
