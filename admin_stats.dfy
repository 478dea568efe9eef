/** The admin figures computed from the bill collection: the payment breakdown (`topFinance`), the
    best-selling items (`topItems`) and the dashboard (`adminDashboardStats`). Each aggregation
    pipeline is a composition of the `Grouping` and `Sorting` stages. Time buckets (`$week`, `$month`,
    a year-and-month pair) are functions from a timestamp to an integer supplied by the caller. */
module AdminStats {
  import opened Common
  import opened BillModel
  import opened Sorting
  import opened Grouping

  /** Σ `totalAmount` over the bills. */
  function TotalSales(bills: seq<Bill>): int
  {
    if bills == [] then 0 else TotalSales(bills[..|bills| - 1]) + bills[|bills| - 1].totalAmount
  }

  /** The (key, `totalAmount`) pairs a `$group` on a key of the bill reads, one per bill. */
  function SalesPairs<K>(bills: seq<Bill>, keyOf: Bill -> K): (r: seq<(K, int)>)
    ensures |r| == |bills|
    ensures forall k :: 0 <= k < |bills| ==> r[k] == (keyOf(bills[k]), bills[k].totalAmount)
  {
    if bills == [] then []
    else SalesPairs(bills[..|bills| - 1], keyOf) + [(keyOf(bills[|bills| - 1]), bills[|bills| - 1].totalAmount)]
  }

  /** The reference figure: Σ `totalAmount` over the bills whose key is `key`. */
  function SalesFor<K(==)>(bills: seq<Bill>, keyOf: Bill -> K, key: K): int
  {
    if bills == [] then 0
    else SalesFor(bills[..|bills| - 1], keyOf, key)
         + (if keyOf(bills[|bills| - 1]) == key then bills[|bills| - 1].totalAmount else 0)
  }

  lemma {:induction false} SalesPairsSums<K>(bills: seq<Bill>, keyOf: Bill -> K, key: K)
    ensures SumFor(SalesPairs(bills, keyOf), key) == SalesFor(bills, keyOf, key)
    ensures SumAll(SalesPairs(bills, keyOf)) == TotalSales(bills)
  {
    if bills != [] {
      var init := bills[..|bills| - 1];
      SalesPairsSums(init, keyOf, key);
      assert SalesPairs(bills, keyOf)[..|bills| - 1] == SalesPairs(init, keyOf);
    }
  }

  /** `$group: { _id: <key>, total: { $sum: "$totalAmount" } }`: one group per key some bill has, each
      carrying the sales of its key, altogether the sales of the collection. */
  function SalesBy<K(==,!new)>(bills: seq<Bill>, keyOf: Bill -> K): (gs: seq<Group<K>>)
    ensures DistinctKeys(gs)
    ensures forall key :: key in Keys(gs) <==> exists k :: 0 <= k < |bills| && keyOf(bills[k]) == key
    ensures forall i :: 0 <= i < |gs| ==> gs[i].total == SalesFor(bills, keyOf, gs[i].key)
    ensures GrandTotal(gs) == TotalSales(bills)
  {
    var pairs := SalesPairs(bills, keyOf);
    var gs := GroupSum(pairs);
    assert forall key :: key in PairKeys(pairs) <==> exists k :: 0 <= k < |bills| && keyOf(bills[k]) == key by {
      forall key ensures key in PairKeys(pairs) <==> exists k :: 0 <= k < |bills| && keyOf(bills[k]) == key {
        if key in PairKeys(pairs) {
          var p :| p in pairs && p.0 == key;
          var k :| 0 <= k < |pairs| && pairs[k] == p;
          assert keyOf(bills[k]) == key;
        }
        if exists k :: 0 <= k < |bills| && keyOf(bills[k]) == key {
          var k :| 0 <= k < |bills| && keyOf(bills[k]) == key;
          assert pairs[k] in pairs;
        }
      }
    }
    assert forall i :: 0 <= i < |gs| ==> gs[i].total == SalesFor(bills, keyOf, gs[i].key) by {
      forall i | 0 <= i < |gs| ensures gs[i].total == SalesFor(bills, keyOf, gs[i].key) {
        GroupSumTotals(pairs, i);
        SalesPairsSums(bills, keyOf, gs[i].key);
      }
    }
    assert GrandTotal(gs) == TotalSales(bills) by {
      if bills != [] {
        SalesPairsSums(bills, keyOf, keyOf(bills[0]));
      }
    }
    gs
  }

  // ---------------------------------------------------------------------------------------------
  // topFinance and the dashboard's payment split

  function MethodOf(b: Bill): PaymentMethod
  {
    b.paymentMethod
  }

  /** `$group` on `paymentMethod` summing `totalAmount`. */
  function PaymentSplit(bills: seq<Bill>): (gs: seq<Group<PaymentMethod>>)
    ensures DistinctKeys(gs)
    ensures forall m :: m in Keys(gs) <==> exists k :: 0 <= k < |bills| && bills[k].paymentMethod == m
    ensures forall i :: 0 <= i < |gs| ==> gs[i].total == SalesFor(bills, MethodOf, gs[i].key)
    ensures GrandTotal(gs) == TotalSales(bills)
  {
    SalesBy(bills, MethodOf)
  }

  /** The response of `topFinance`. */
  datatype Finance = Finance(totalDeposit: int, paymentBreakdown: seq<Group<PaymentMethod>>)

  /** `topFinance`: one entry per payment method in use, each with that method's sales, and a deposit
      (the sum over the entries) equal to the sales of the whole collection. */
  function TopFinance(bills: seq<Bill>): (r: Finance)
    ensures DistinctKeys(r.paymentBreakdown)
    ensures forall m :: m in Keys(r.paymentBreakdown) <==> exists k :: 0 <= k < |bills| && bills[k].paymentMethod == m
    ensures forall i :: 0 <= i < |r.paymentBreakdown| ==>
      r.paymentBreakdown[i].total == SalesFor(bills, MethodOf, r.paymentBreakdown[i].key)
    ensures r.totalDeposit == TotalSales(bills)
  {
    var split := PaymentSplit(bills);
    Finance(GrandTotal(split), split)
  }

  /** Each method's spelling names only that method. */
  lemma MethodNameInjective(a: PaymentMethod, b: PaymentMethod)
    ensures MethodName(a) == MethodName(b) <==> a == b
  {
  }

  /** `paymentSplit.forEach(p => { paymentMethods[p._id] = p.total; })`: a dictionary from the method's
      spelling to its total. Entries come from distinct methods, so no write overwrites another. */
  method PaymentMethodsMap(split: seq<Group<PaymentMethod>>) returns (m: map<string, int>)
    ensures m.Keys == set g | g in split :: MethodName(g.key)
    ensures DistinctKeys(split) ==> forall i :: 0 <= i < |split| ==> m[MethodName(split[i].key)] == split[i].total
  {
    m := map[];
    var i := 0;
    while i < |split|
      invariant 0 <= i <= |split|
      invariant Written(m, split, i)
    {
      WriteStep(split, i, m);
      m := m[MethodName(split[i].key) := split[i].total];
      i := i + 1;
    }
    assert split[..i] == split;
  }

  /** The spellings of the entries' methods. */
  function Names(split: seq<Group<PaymentMethod>>): set<string>
  {
    set g | g in split :: MethodName(g.key)
  }

  /** The dictionary after the first `i` writes: their spellings as keys and, when the methods are
      distinct, each entry's total under its spelling. */
  ghost predicate Written(m: map<string, int>, split: seq<Group<PaymentMethod>>, i: nat)
    requires i <= |split|
  {
    && m.Keys == Names(split[..i])
    && (DistinctKeys(split) ==>
          forall j :: 0 <= j < i ==> MethodName(split[j].key) in m && m[MethodName(split[j].key)] == split[j].total)
  }

  /** One more write keeps `Written`. */
  lemma WriteStep(split: seq<Group<PaymentMethod>>, i: nat, m: map<string, int>)
    requires i < |split| && Written(m, split, i)
    ensures Written(m[MethodName(split[i].key) := split[i].total], split, i + 1)
  {
    NamesStep(split, i);
    if DistinctKeys(split) {
      NameIsNew(split, i);
      WriteValues(split, i, m);
    }
  }

  /** Writing a spelling no earlier entry has keeps the earlier entries' totals. */
  lemma WriteValues(split: seq<Group<PaymentMethod>>, i: nat, m: map<string, int>)
    requires i < |split|
    requires forall j :: 0 <= j < i ==> MethodName(split[j].key) != MethodName(split[i].key)
    requires forall j :: 0 <= j < i ==> MethodName(split[j].key) in m && m[MethodName(split[j].key)] == split[j].total
    ensures var m' := m[MethodName(split[i].key) := split[i].total];
      forall j :: 0 <= j < i + 1 ==> MethodName(split[j].key) in m' && m'[MethodName(split[j].key)] == split[j].total
  {
  }

  /** One more entry of the split adds its spelling to the written keys. */
  lemma NamesStep(split: seq<Group<PaymentMethod>>, i: nat)
    requires i < |split|
    ensures Names(split[..i + 1]) == Names(split[..i]) + {MethodName(split[i].key)}
  {
    assert split[..i + 1] == split[..i] + [split[i]];
  }

  /** With distinct methods, an entry's spelling differs from every earlier entry's. */
  lemma NameIsNew(split: seq<Group<PaymentMethod>>, i: nat)
    requires DistinctKeys(split) && i < |split|
    ensures forall j :: 0 <= j < i ==> MethodName(split[j].key) != MethodName(split[i].key)
  {
    forall j | 0 <= j < i ensures MethodName(split[j].key) != MethodName(split[i].key) {
      MethodNameInjective(split[j].key, split[i].key);
    }
  }

  // ---------------------------------------------------------------------------------------------
  // topItems, and the dashboard's weekly top 5

  /** The `_id` of an item group: the time bucket when the stage groups on one, and the item name. */
  datatype ItemKey = ItemKey(bucket: Option<int>, itemName: string)

  /** `$unwind: "$items"` of one bill: a (key, `qty`) pair per item, in item order. */
  function ItemPairs(items: seq<Item>, bucket: Option<int>): (r: seq<(ItemKey, int)>)
    ensures |r| == |items|
    ensures forall k :: 0 <= k < |items| ==> r[k] == (ItemKey(bucket, items[k].name), items[k].qty)
  {
    if items == [] then [] else [(ItemKey(bucket, items[0].name), items[0].qty)] + ItemPairs(items[1..], bucket)
  }

  /** `$unwind: "$items"` over the collection, each item keyed by its bill's bucket. */
  function Unwind(bills: seq<Bill>, bucketOf: int -> Option<int>): seq<(ItemKey, int)>
  {
    if bills == [] then []
    else Unwind(bills[..|bills| - 1], bucketOf)
         + ItemPairs(bills[|bills| - 1].items, bucketOf(bills[|bills| - 1].createdAt))
  }

  /** Σ `qty` over the items with the given name. */
  function NameQty(items: seq<Item>, name: string): int
  {
    if items == [] then 0 else (if items[0].name == name then items[0].qty else 0) + NameQty(items[1..], name)
  }

  /** The reference figure: the quantity sold of `key.itemName` over the bills in bucket `key.bucket`. */
  function QtyFor(bills: seq<Bill>, bucketOf: int -> Option<int>, key: ItemKey): int
  {
    if bills == [] then 0
    else QtyFor(bills[..|bills| - 1], bucketOf, key)
         + (if bucketOf(bills[|bills| - 1].createdAt) == key.bucket
            then NameQty(bills[|bills| - 1].items, key.itemName) else 0)
  }

  lemma {:induction false} ItemPairsSum(items: seq<Item>, bucket: Option<int>, key: ItemKey)
    ensures SumFor(ItemPairs(items, bucket), key) == (if bucket == key.bucket then NameQty(items, key.itemName) else 0)
  {
    if items != [] {
      var head := [(ItemKey(bucket, items[0].name), items[0].qty)];
      assert ItemPairs(items, bucket) == head + ItemPairs(items[1..], bucket);
      SumForAppend(head, ItemPairs(items[1..], bucket), key);
      assert head[..0] == [];
      ItemPairsSum(items[1..], bucket, key);
    }
  }

  lemma {:induction false} UnwindSum(bills: seq<Bill>, bucketOf: int -> Option<int>, key: ItemKey)
    ensures SumFor(Unwind(bills, bucketOf), key) == QtyFor(bills, bucketOf, key)
  {
    if bills != [] {
      var init := bills[..|bills| - 1];
      var last := bills[|bills| - 1];
      UnwindSum(init, bucketOf, key);
      SumForAppend(Unwind(init, bucketOf), ItemPairs(last.items, bucketOf(last.createdAt)), key);
      ItemPairsSum(last.items, bucketOf(last.createdAt), key);
    }
  }

  /** Some bill in bucket `key.bucket` has an item named `key.itemName`. */
  ghost predicate Sold(bills: seq<Bill>, bucketOf: int -> Option<int>, key: ItemKey)
  {
    exists k, j :: 0 <= k < |bills| && 0 <= j < |bills[k].items|
      && key == ItemKey(bucketOf(bills[k].createdAt), bills[k].items[j].name)
  }

  /** The (bucket, item name) keys of the items sold. */
  ghost function SoldKeys(bills: seq<Bill>, bucketOf: int -> Option<int>): (r: set<ItemKey>)
    ensures forall key :: key in r <==> Sold(bills, bucketOf, key)
  {
    set k, j | 0 <= k < |bills| && 0 <= j < |bills[k].items| :: ItemKey(bucketOf(bills[k].createdAt), bills[k].items[j].name)
  }

  /** One bill's unwound keys are its items' names in its bucket. */
  lemma ItemPairsKeys(items: seq<Item>, bucket: Option<int>, key: ItemKey)
    ensures key in PairKeys(ItemPairs(items, bucket)) <==>
      exists j :: 0 <= j < |items| && key == ItemKey(bucket, items[j].name)
  {
    var ps := ItemPairs(items, bucket);
    if key in PairKeys(ps) {
      var p :| p in ps && p.0 == key;
      var j :| 0 <= j < |ps| && ps[j] == p;
      assert key == ItemKey(bucket, items[j].name);
    }
    if exists j :: 0 <= j < |items| && key == ItemKey(bucket, items[j].name) {
      var j :| 0 <= j < |items| && key == ItemKey(bucket, items[j].name);
      assert ps[j] in ps;
    }
  }

  /** An item is sold in the collection exactly when it is sold in all but the last bill or in the last. */
  lemma SoldSplit(bills: seq<Bill>, bucketOf: int -> Option<int>, key: ItemKey)
    requires bills != []
    ensures var last := bills[|bills| - 1];
      Sold(bills, bucketOf, key) <==>
        || Sold(bills[..|bills| - 1], bucketOf, key)
        || exists j :: 0 <= j < |last.items| && key == ItemKey(bucketOf(last.createdAt), last.items[j].name)
  {
    var init := bills[..|bills| - 1];
    var last := bills[|bills| - 1];
    if Sold(bills, bucketOf, key) {
      var k, j :| 0 <= k < |bills| && 0 <= j < |bills[k].items|
        && key == ItemKey(bucketOf(bills[k].createdAt), bills[k].items[j].name);
      if k < |init| {
        assert init[k] == bills[k];
      }
    }
    if Sold(init, bucketOf, key) {
      var k, j :| 0 <= k < |init| && 0 <= j < |init[k].items|
        && key == ItemKey(bucketOf(init[k].createdAt), init[k].items[j].name);
      assert bills[k] == init[k];
    }
    if exists j :: 0 <= j < |last.items| && key == ItemKey(bucketOf(last.createdAt), last.items[j].name) {
      var j :| 0 <= j < |last.items| && key == ItemKey(bucketOf(last.createdAt), last.items[j].name);
      assert bills[|bills| - 1] == last;
    }
  }

  /** The unwound keys are exactly the (bucket, name) keys of the items sold. */
  lemma {:induction false} UnwindKeys(bills: seq<Bill>, bucketOf: int -> Option<int>, key: ItemKey)
    ensures key in PairKeys(Unwind(bills, bucketOf)) <==> Sold(bills, bucketOf, key)
  {
    if bills != [] {
      var init := bills[..|bills| - 1];
      var last := bills[|bills| - 1];
      UnwindKeys(init, bucketOf, key);
      PairKeysAppend(Unwind(init, bucketOf), ItemPairs(last.items, bucketOf(last.createdAt)));
      ItemPairsKeys(last.items, bucketOf(last.createdAt), key);
      SoldSplit(bills, bucketOf, key);
    }
  }

  /** `$unwind` then `$group` on (bucket, item name) summing `qty`: one group for each item sold in each
      bucket, holding its quantity. */
  function ItemGroups(bills: seq<Bill>, bucketOf: int -> Option<int>): (gs: seq<Group<ItemKey>>)
    ensures DistinctKeys(gs)
    ensures forall key :: key in Keys(gs) <==> Sold(bills, bucketOf, key)
    ensures |gs| == |SoldKeys(bills, bucketOf)|
    ensures forall i :: 0 <= i < |gs| ==> gs[i].total == QtyFor(bills, bucketOf, gs[i].key)
  {
    var pairs := Unwind(bills, bucketOf);
    var gs := GroupSum(pairs);
    forall key ensures key in Keys(gs) <==> Sold(bills, bucketOf, key) {
      UnwindKeys(bills, bucketOf, key);
    }
    assert Keys(gs) == SoldKeys(bills, bucketOf);
    KeysCardinality(gs);
    assert forall i :: 0 <= i < |gs| ==> gs[i].total == QtyFor(bills, bucketOf, gs[i].key) by {
      forall i | 0 <= i < |gs| ensures gs[i].total == QtyFor(bills, bucketOf, gs[i].key) {
        GroupSumTotals(pairs, i);
        UnwindSum(bills, bucketOf, gs[i].key);
      }
    }
    gs
  }

  function NegTotal<K>(g: Group<K>): int
  {
    -g.total
  }

  /** `{ $sort: { total: -1 } }, { $limit: n }`: the first `n` of the input's groups (all of them when
      there are fewer), largest total first. */
  function TopGroups<K>(gs: seq<Group<K>>, n: nat): (r: seq<Group<K>>)
    ensures |r| == if |gs| < n then |gs| else n
    ensures forall i, j :: 0 <= i < j < |r| ==> r[i].total >= r[j].total
    ensures multiset(r) <= multiset(gs)
  {
    var sorted := SortBy(gs, NegTotal);
    var r := Take(sorted, n);
    TakeSorted(sorted, NegTotal, n);
    assert |sorted| == |multiset(sorted)| == |multiset(gs)| == |gs|;
    assert forall i, j :: 0 <= i < j < |r| ==> NegTotal(r[i]) <= NegTotal(r[j]);
    r
  }

  /** Every group kept is one of the input's. */
  lemma TopGroupsMembers<K(!new)>(gs: seq<Group<K>>, n: nat)
    ensures forall g :: g in TopGroups(gs, n) ==> g in gs
  {
    var r := TopGroups(gs, n);
    forall g | g in r ensures g in gs {
      assert g in multiset(r);
    }
  }

  /** A group whose key no kept group has has no larger total than any group kept. */
  lemma TopGroupsBeatOmittedKey<K(!new)>(gs: seq<Group<K>>, n: nat, g: Group<K>)
    requires g in gs
    requires forall i :: 0 <= i < |TopGroups(gs, n)| ==> TopGroups(gs, n)[i].key != g.key
    ensures forall k :: 0 <= k < |TopGroups(gs, n)| ==> g.total <= TopGroups(gs, n)[k].total
  {
    assert g !in TopGroups(gs, n);
    TopGroupsBeatOmitted(gs, n);
  }

  /** Keeping a prefix of a sorted permutation keeps the keys distinct. */
  lemma TopGroupsDistinct<K>(gs: seq<Group<K>>, n: nat)
    requires DistinctKeys(gs)
    ensures DistinctKeys(TopGroups(gs, n))
  {
    var sorted := SortBy(gs, NegTotal);
    DistinctKeysPermutation(sorted, gs);
    assert TopGroups(gs, n) == sorted[..|TopGroups(gs, n)|];
  }

  /** The limit drops only the smallest: no group left out has a larger total than a group kept. */
  lemma TopGroupsBeatOmitted<K(!new)>(gs: seq<Group<K>>, n: nat)
    ensures forall g :: g in gs && g !in TopGroups(gs, n) ==>
      forall k :: 0 <= k < |TopGroups(gs, n)| ==> g.total <= TopGroups(gs, n)[k].total
  {
    var sorted := SortBy(gs, NegTotal);
    var r := TopGroups(gs, n);
    assert r == sorted[..|r|];
    SameElements(sorted, gs);
    forall g | g in gs && g !in r ensures forall k :: 0 <= k < |r| ==> g.total <= r[k].total {
      var m :| 0 <= m < |sorted| && sorted[m] == g;
      assert g !in sorted[..|r|];
      assert forall k :: 0 <= k < |r| ==> NegTotal(sorted[k]) <= NegTotal(sorted[m]);
    }
  }

  /** `period`, defaulting to "weekly". */
  datatype Period = Weekly | Monthly | OtherPeriod

  function ParsePeriod(period: Option<string>): (p: Period)
    ensures p == Weekly <==> period.None? || period.value == "weekly"
    ensures p == Monthly <==> period == Some("monthly")
  {
    var s := Or(period, "weekly");
    if s == "weekly" then Weekly else if s == "monthly" then Monthly else OtherPeriod
  }

  /** The bucket part of the `_id`: the week, the month, or none (the item name alone, whether or not a
      date range was given). This stage groups on `$week` or `$month` without the year, so here `weekOf`
      stands for `$week` and `monthOf` for `$month` as they are. */
  function ItemBucket(p: Period, weekOf: int -> int, monthOf: int -> int): int -> Option<int>
  {
    match p
    case Weekly => Bucketed(weekOf)
    case Monthly => Bucketed(monthOf)
    case OtherPeriod => (t: int) => None
  }

  function Bucketed(bucketOf: int -> int): int -> Option<int>
  {
    (t: int) => Some(bucketOf(t))
  }

  /** The optional `$match` on `createdAt`, applied only when both ends are given. */
  function InRange(bills: seq<Bill>, startDate: Option<int>, endDate: Option<int>): (r: seq<Bill>)
    ensures startDate.Some? && endDate.Some? ==>
      forall b :: b in r <==> b in bills && startDate.value <= b.createdAt <= endDate.value
    ensures startDate.None? || endDate.None? ==> r == bills
  {
    if startDate.Some? && endDate.Some?
    then Filter(bills, (b: Bill) => startDate.value <= b.createdAt <= endDate.value)
    else bills
  }

  const TopItemsLimit: nat := 10
  const DashboardTopItems: nat := 5

  /** The groups `topItems` ranks: the matched bills' items grouped by the period's bucket and name. */
  function RankedItems(bills: seq<Bill>, period: Option<string>, startDate: Option<int>, endDate: Option<int>,
                       weekOf: int -> int, monthOf: int -> int): seq<Group<ItemKey>>
  {
    ItemGroups(InRange(bills, startDate, endDate), ItemBucket(ParsePeriod(period), weekOf, monthOf))
  }

  /** `topItems`: ten distinct (bucket, item) groups of the matched bills (all of them when fewer items
      were sold), in non-increasing quantity, each an item sold in that bucket. */
  function TopItems(bills: seq<Bill>, period: Option<string>, startDate: Option<int>, endDate: Option<int>,
                    weekOf: int -> int, monthOf: int -> int): (r: seq<Group<ItemKey>>)
    ensures var sold := SoldKeys(InRange(bills, startDate, endDate), ItemBucket(ParsePeriod(period), weekOf, monthOf));
      |r| == if |sold| < TopItemsLimit then |sold| else TopItemsLimit
    ensures forall g :: g in r ==>
      Sold(InRange(bills, startDate, endDate), ItemBucket(ParsePeriod(period), weekOf, monthOf), g.key)
    ensures DistinctKeys(r)
    ensures forall i, j :: 0 <= i < j < |r| ==> r[i].total >= r[j].total
    ensures forall g :: g in r ==> g in RankedItems(bills, period, startDate, endDate, weekOf, monthOf)
  {
    TopSold(InRange(bills, startDate, endDate), ItemBucket(ParsePeriod(period), weekOf, monthOf), TopItemsLimit);
    TopGroups(RankedItems(bills, period, startDate, endDate, weekOf, monthOf), TopItemsLimit)
  }

  /** The `$sort` and `$limit` over the item groups keep `n` of the items sold (all of them when fewer
      were sold), each key once, each with its quantity. */
  lemma TopSold(bills: seq<Bill>, bucketOf: int -> Option<int>, n: nat)
    ensures var r := TopGroups(ItemGroups(bills, bucketOf), n);
      && |r| == (if |SoldKeys(bills, bucketOf)| < n then |SoldKeys(bills, bucketOf)| else n)
      && DistinctKeys(r)
      && forall g :: g in r ==>
           g in ItemGroups(bills, bucketOf) && Sold(bills, bucketOf, g.key) && g.total == QtyFor(bills, bucketOf, g.key)
  {
    var gs := ItemGroups(bills, bucketOf);
    TopGroupsMembers(gs, n);
    TopGroupsDistinct(gs, n);
    var r := TopGroups(gs, n);
    forall g | g in r ensures Sold(bills, bucketOf, g.key) && g.total == QtyFor(bills, bucketOf, g.key) {
      var m :| 0 <= m < |gs| && gs[m] == g;
      assert g.key in Keys(gs);
    }
  }

  /** Each quantity `topItems` reports is the item's sales, in that bucket, over the matched bills. */
  lemma TopItemsTotals(bills: seq<Bill>, period: Option<string>, startDate: Option<int>, endDate: Option<int>,
                       weekOf: int -> int, monthOf: int -> int, i: nat)
    requires i < |TopItems(bills, period, startDate, endDate, weekOf, monthOf)|
    ensures var g := TopItems(bills, period, startDate, endDate, weekOf, monthOf)[i];
      g.total == QtyFor(InRange(bills, startDate, endDate), ItemBucket(ParsePeriod(period), weekOf, monthOf), g.key)
  {
    var g := TopItems(bills, period, startDate, endDate, weekOf, monthOf)[i];
    var gs := RankedItems(bills, period, startDate, endDate, weekOf, monthOf);
    assert g in gs;
    var m :| 0 <= m < |gs| && gs[m] == g;
  }

  /** No item sold in a bucket of the matched bills and left out of `topItems` sold more than an item
      listed. */
  lemma TopItemsBeatOmitted(bills: seq<Bill>, period: Option<string>, startDate: Option<int>, endDate: Option<int>,
                            weekOf: int -> int, monthOf: int -> int, key: ItemKey)
    requires Sold(InRange(bills, startDate, endDate), ItemBucket(ParsePeriod(period), weekOf, monthOf), key)
    requires forall i :: 0 <= i < |TopItems(bills, period, startDate, endDate, weekOf, monthOf)| ==>
      TopItems(bills, period, startDate, endDate, weekOf, monthOf)[i].key != key
    ensures forall k :: 0 <= k < |TopItems(bills, period, startDate, endDate, weekOf, monthOf)| ==>
      QtyFor(InRange(bills, startDate, endDate), ItemBucket(ParsePeriod(period), weekOf, monthOf), key)
        <= TopItems(bills, period, startDate, endDate, weekOf, monthOf)[k].total
  {
    var gs := RankedItems(bills, period, startDate, endDate, weekOf, monthOf);
    assert key in Keys(gs);
    var g :| g in gs && g.key == key;
    var m :| 0 <= m < |gs| && gs[m] == g;
    assert TopItems(bills, period, startDate, endDate, weekOf, monthOf) == TopGroups(gs, TopItemsLimit);
    TopGroupsBeatOmittedKey(gs, TopItemsLimit, g);
  }

  // ---------------------------------------------------------------------------------------------
  // adminDashboardStats

  function NoKey(b: Bill): ()
  {
    ()
  }

  /** `$group: { _id: null, totalSales: { $sum: "$totalAmount" } }` read as `data[0]?.totalSales || 0`. */
  function AllTimeSales(bills: seq<Bill>): (r: int)
    ensures r == TotalSales(bills)
  {
    var gs := SalesBy(bills, NoKey);
    GroupSumSingleKey(SalesPairs(bills, NoKey), ());
    SalesPairsSums(bills, NoKey, ());
    if gs == [] then 0 else gs[0].total
  }

  /** The `$match` on today's `createdAt`. */
  function TodayBills(bills: seq<Bill>, dayStart: int, dayEnd: int): (r: seq<Bill>)
    ensures forall b :: b in r <==> b in bills && dayStart <= b.createdAt <= dayEnd
    ensures |r| <= |bills|
  {
    Filter(bills, (b: Bill) => dayStart <= b.createdAt <= dayEnd)
  }

  /** `$addToSet: "$customerPhone"`. */
  function Phones(bills: seq<Bill>): set<string>
  {
    set b | b in bills :: b.customerPhone
  }

  /** There are never more distinct customers than bills, and some bill means some customer. */
  lemma {:induction false} PhonesAtMostBills(bills: seq<Bill>)
    ensures |Phones(bills)| <= |bills|
    ensures bills != [] ==> |Phones(bills)| >= 1
  {
    if bills != [] {
      var rest := Phones(bills[1..]);
      PhonesAtMostBills(bills[1..]);
      assert Phones(bills) == rest + {bills[0].customerPhone} by {
        assert bills == [bills[0]] + bills[1..];
      }
      if bills[0].customerPhone in rest {
        assert rest + {bills[0].customerPhone} == rest;
      } else {
        assert |rest + {bills[0].customerPhone}| == |rest| + 1;
      }
    }
  }

  /** The dashboard's `today` block. */
  datatype Today = Today(sales: int, bills: nat, customers: nat)

  /** Today's sales, bill count and distinct customer phones; with no bill today, all three are 0. */
  function TodayStats(bills: seq<Bill>, dayStart: int, dayEnd: int): (r: Today)
    ensures var today := TodayBills(bills, dayStart, dayEnd);
      && r.sales == TotalSales(today) && r.bills == |today| && r.customers == |Phones(today)|
    ensures r.customers <= r.bills
    ensures r.bills > 0 ==> r.customers > 0
  {
    var today := TodayBills(bills, dayStart, dayEnd);
    PhonesAtMostBills(today);
    if today == [] then Today(0, 0, 0)
    else Today(AllTimeSales(today), |today|, |Phones(today)|)
  }

  /** The grouping key of `$items.category`: the Bill schema's items declare no category, so every
      unwound item has none and groups under `null`. */
  function ItemAmountPairs(items: seq<Item>): (r: seq<(Option<string>, int)>)
    ensures |r| == |items|
    ensures forall k :: 0 <= k < |r| ==> r[k].0 == None
  {
    if items == [] then []
    else ItemAmountPairs(items[..|items| - 1]) + [(None, items[|items| - 1].price * items[|items| - 1].qty)]
  }

  function CategoryPairs(bills: seq<Bill>): (r: seq<(Option<string>, int)>)
    ensures forall k :: 0 <= k < |r| ==> r[k].0 == None
  {
    if bills == [] then [] else CategoryPairs(bills[..|bills| - 1]) + ItemAmountPairs(bills[|bills| - 1].items)
  }

  /** The reference figure: Σ price × qty over every item of every bill. */
  function ItemSales(bills: seq<Bill>): int
  {
    if bills == [] then 0 else ItemSales(bills[..|bills| - 1]) + Amount(bills[|bills| - 1].items)
  }

  lemma {:induction false} ItemAmountPairsSum(items: seq<Item>)
    ensures SumAll(ItemAmountPairs(items)) == Amount(items)
  {
    if items != [] {
      ItemAmountPairsSum(items[..|items| - 1]);
      var r := ItemAmountPairs(items);
      assert r[..|r| - 1] == ItemAmountPairs(items[..|items| - 1]);
    }
  }

  lemma {:induction false} CategoryPairsSum(bills: seq<Bill>)
    ensures SumAll(CategoryPairs(bills)) == ItemSales(bills)
    ensures CategoryPairs(bills) == [] <==> forall k :: 0 <= k < |bills| ==> bills[k].items == []
  {
    if bills != [] {
      var init := bills[..|bills| - 1];
      var last := bills[|bills| - 1];
      CategoryPairsSum(init);
      SumAllAppend(CategoryPairs(init), ItemAmountPairs(last.items));
      ItemAmountPairsSum(last.items);
      assert forall k :: 0 <= k < |init| ==> init[k] == bills[k];
    }
  }

  /** Category-wise sales: a single `null` group holding Σ price × qty of all sold items, or nothing
      when no bill has an item. */
  function CategorySales(bills: seq<Bill>): (r: seq<Group<Option<string>>>)
    ensures |r| <= 1
    ensures r == [] <==> forall k :: 0 <= k < |bills| ==> bills[k].items == []
    ensures r != [] ==> r[0] == Group(None, ItemSales(bills))
  {
    var pairs := CategoryPairs(bills);
    GroupSumSingleKey(pairs, None);
    CategoryPairsSum(bills);
    var gs := GroupSum(pairs);
    var r := TopGroups(gs, |gs|);
    assert |r| == |gs|;
    assert r != [] ==> r[0] in gs;
    r
  }

  function KeyOf<K>(g: Group<K>): K
  {
    g.key
  }

  /** The bills' bucket, as a key of the bill. */
  function BucketKey(bucketOf: int -> int): Bill -> int
  {
    (b: Bill) => bucketOf(b.createdAt)
  }

  /** A sorted permutation of groups with distinct keys is strictly ascending. */
  lemma SortedDistinctAscending(r: seq<Group<int>>, gs: seq<Group<int>>)
    requires multiset(r) == multiset(gs) && DistinctKeys(gs) && SortedBy(r, KeyOf)
    ensures forall i, j :: 0 <= i < j < |r| ==> r[i].key < r[j].key
  {
    DistinctKeysPermutation(r, gs);
    assert forall i, j :: 0 <= i < j < |r| ==> KeyOf(r[i]) <= KeyOf(r[j]);
  }

  /** Sales per time bucket, in ascending bucket order (`{ $sort: { "_id.year": 1, "_id.month": 1 } }`,
      with `bucketOf` numbering buckets in that order): the bucket groups, each bucket once, and altogether
      the sales of the collection. */
  function PeriodSales(bills: seq<Bill>, bucketOf: int -> int): (r: seq<Group<int>>)
    ensures multiset(r) == multiset(SalesBy(bills, BucketKey(bucketOf)))
    ensures forall i, j :: 0 <= i < j < |r| ==> r[i].key < r[j].key
    ensures GrandTotal(r) == TotalSales(bills)
  {
    var gs := SalesBy(bills, BucketKey(bucketOf));
    var r := SortBy(gs, KeyOf);
    SortedDistinctAscending(r, gs);
    GrandTotalPermutation(r, gs);
    r
  }

  /** Each entry of the period sales carries the sales of its bucket, and a bucket has an entry exactly
      when some bill falls in it. */
  lemma PeriodSalesEntries(bills: seq<Bill>, bucketOf: int -> int, t: int)
    ensures t in Keys(PeriodSales(bills, bucketOf)) <==> exists k :: 0 <= k < |bills| && bucketOf(bills[k].createdAt) == t
    ensures forall i :: 0 <= i < |PeriodSales(bills, bucketOf)| && PeriodSales(bills, bucketOf)[i].key == t ==>
      PeriodSales(bills, bucketOf)[i].total == SalesFor(bills, BucketKey(bucketOf), t)
  {
    PeriodSalesKeys(bills, bucketOf, t);
    PeriodSalesTotals(bills, bucketOf);
  }

  /** The buckets listed are the buckets some bill fell in. */
  lemma PeriodSalesKeys(bills: seq<Bill>, bucketOf: int -> int, t: int)
    ensures t in Keys(PeriodSales(bills, bucketOf)) <==> exists k :: 0 <= k < |bills| && bucketOf(bills[k].createdAt) == t
  {
    var keyOf := BucketKey(bucketOf);
    var r := PeriodSales(bills, bucketOf);
    SameElements(r, SalesBy(bills, keyOf));
    assert Keys(r) == Keys(SalesBy(bills, keyOf));
    assert (exists k :: 0 <= k < |bills| && keyOf(bills[k]) == t)
       <==> (exists k :: 0 <= k < |bills| && bucketOf(bills[k].createdAt) == t);
  }

  /** Each listed bucket carries its sales. */
  lemma PeriodSalesTotals(bills: seq<Bill>, bucketOf: int -> int)
    ensures forall i :: 0 <= i < |PeriodSales(bills, bucketOf)| ==>
      PeriodSales(bills, bucketOf)[i].total == SalesFor(bills, BucketKey(bucketOf), PeriodSales(bills, bucketOf)[i].key)
  {
    var keyOf := BucketKey(bucketOf);
    var r := PeriodSales(bills, bucketOf);
    SameElements(r, SalesBy(bills, keyOf));
    forall i | 0 <= i < |r| ensures r[i].total == SalesFor(bills, keyOf, r[i].key) {
      GroupOfSalesBy(bills, keyOf, r[i]);
    }
  }

  /** A group of `SalesBy` holds the sales of its key. */
  lemma GroupOfSalesBy<K(!new)>(bills: seq<Bill>, keyOf: Bill -> K, g: Group<K>)
    requires g in SalesBy(bills, keyOf)
    ensures g.total == SalesFor(bills, keyOf, g.key)
  {
    var gs := SalesBy(bills, keyOf);
    var m :| 0 <= m < |gs| && gs[m] == g;
  }

  /** `getStats`'s grouping: the week when `period` is absent or "weekly", the month for any other value.
      The stage groups on (year, week) or (year, month) and sorts by year first, so `weekOf` and `monthOf`
      here number those pairs in that order. */
  function StatsBucket(period: Option<string>, weekOf: int -> int, monthOf: int -> int): (bucketOf: int -> int)
    ensures period.None? || period.value == "weekly" ==> bucketOf == weekOf
    ensures period.Some? && period.value != "weekly" ==> bucketOf == monthOf
  {
    if ParsePeriod(period) == Weekly then weekOf else monthOf
  }

  /** `getStats`: the sales of each week (or month) in which some bill fell, in ascending bucket order,
      adding up to the sales of the collection. `weekOf` numbers the (year, week) pairs and `monthOf` the
      (year, month) pairs in order, so the ascending order is the stage's sort by year, then week or month. */
  function GetStats(bills: seq<Bill>, period: Option<string>, weekOf: int -> int, monthOf: int -> int)
    : (r: seq<Group<int>>)
    ensures forall i, j :: 0 <= i < j < |r| ==> r[i].key < r[j].key
    ensures GrandTotal(r) == TotalSales(bills)
  {
    PeriodSales(bills, StatsBucket(period, weekOf, monthOf))
  }

  /** A bucket is listed by `getStats` exactly when some bill fell in it, and with that bucket's sales. */
  lemma GetStatsEntries(bills: seq<Bill>, period: Option<string>, weekOf: int -> int, monthOf: int -> int, t: int)
    ensures var bucketOf := StatsBucket(period, weekOf, monthOf);
      && (t in Keys(GetStats(bills, period, weekOf, monthOf))
          <==> exists k :: 0 <= k < |bills| && bucketOf(bills[k].createdAt) == t)
      && forall i :: 0 <= i < |GetStats(bills, period, weekOf, monthOf)| ==>
           GetStats(bills, period, weekOf, monthOf)[i].key == t ==>
           GetStats(bills, period, weekOf, monthOf)[i].total == SalesFor(bills, BucketKey(bucketOf), t)
  {
    PeriodSalesEntries(bills, StatsBucket(period, weekOf, monthOf), t);
  }

  /** The dashboard's five best-selling (week, item) groups, in non-increasing quantity. */
  function WeeklyTopItems(bills: seq<Bill>, weekOf: int -> int): (r: seq<Group<ItemKey>>)
    ensures |r| == if |SoldKeys(bills, Bucketed(weekOf))| < DashboardTopItems
                   then |SoldKeys(bills, Bucketed(weekOf))| else DashboardTopItems
    ensures forall g :: g in r ==> Sold(bills, Bucketed(weekOf), g.key) && g.total == QtyFor(bills, Bucketed(weekOf), g.key)
    ensures DistinctKeys(r)
    ensures forall i, j :: 0 <= i < j < |r| ==> r[i].total >= r[j].total
    ensures forall g :: g in r ==> g in ItemGroups(bills, Bucketed(weekOf))
  {
    TopSold(bills, Bucketed(weekOf), DashboardTopItems);
    TopGroups(ItemGroups(bills, Bucketed(weekOf)), DashboardTopItems)
  }

  /** `m` is the payment dictionary of the bills: a key per method in use, holding that method's total. */
  ghost predicate PaymentMethodsOf(bills: seq<Bill>, m: map<string, int>)
  {
    var split := PaymentSplit(bills);
    && m.Keys == (set g | g in split :: MethodName(g.key))
    && forall i :: 0 <= i < |split| ==> MethodName(split[i].key) in m && m[MethodName(split[i].key)] == split[i].total
  }

  /** The dictionary built from the payment split is the bills' payment dictionary. */
  lemma MapIsPaymentMethods(bills: seq<Bill>, m: map<string, int>)
    requires m.Keys == set g | g in PaymentSplit(bills) :: MethodName(g.key)
    requires DistinctKeys(PaymentSplit(bills)) ==>
      forall i :: 0 <= i < |PaymentSplit(bills)| ==> m[MethodName(PaymentSplit(bills)[i].key)] == PaymentSplit(bills)[i].total
    ensures PaymentMethodsOf(bills, m)
  {
    var split := PaymentSplit(bills);
    forall i | 0 <= i < |split| ensures MethodName(split[i].key) in m {
      assert split[i] in split;
    }
  }

  /** The dashboard response. */
  datatype Dashboard = Dashboard(
    totalSales: int,
    today: Today,
    paymentMethods: map<string, int>,
    topItems: seq<Group<ItemKey>>,
    monthlySales: seq<Group<int>>,
    categorySales: seq<Group<Option<string>>>)

  /** `adminDashboardStats` for the day `[dayStart, dayEnd]`. `weekOf` stands for `$week` and `monthOf`
      numbers the (year, month) pairs in order. The payment dictionary has a key for each method in use,
      holding that method's sales. */
  method AdminDashboardStats(bills: seq<Bill>, dayStart: int, dayEnd: int, weekOf: int -> int, monthOf: int -> int)
    returns (d: Dashboard)
    ensures d.totalSales == TotalSales(bills)
    ensures d.today == TodayStats(bills, dayStart, dayEnd)
    ensures PaymentMethodsOf(bills, d.paymentMethods)
    ensures d.topItems == WeeklyTopItems(bills, weekOf)
    ensures d.monthlySales == PeriodSales(bills, monthOf)
    ensures d.categorySales == CategorySales(bills)
  {
    var split := PaymentSplit(bills);
    var methods := PaymentMethodsMap(split);
    MapIsPaymentMethods(bills, methods);
    d := Dashboard(AllTimeSales(bills), TodayStats(bills, dayStart, dayEnd), methods,
                   WeeklyTopItems(bills, weekOf), PeriodSales(bills, monthOf), CategorySales(bills));
  }

  /** A method is a key of the dashboard's dictionary exactly when some bill was paid with it. */
  lemma DashboardMethodKeys(bills: seq<Bill>, m: PaymentMethod)
    ensures MethodName(m) in (set g | g in PaymentSplit(bills) :: MethodName(g.key))
      <==> exists k :: 0 <= k < |bills| && bills[k].paymentMethod == m
  {
    var split := PaymentSplit(bills);
    if MethodName(m) in (set g | g in split :: MethodName(g.key)) {
      var g :| g in split && MethodName(g.key) == MethodName(m);
      MethodNameInjective(g.key, m);
      assert m in Keys(split);
    }
    if exists k :: 0 <= k < |bills| && bills[k].paymentMethod == m {
      assert m in Keys(split);
      var g :| g in split && g.key == m;
    }
  }
}
