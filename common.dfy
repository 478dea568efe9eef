/** Shared value types: an optional value and the line item that orders and bills store. */
module Common {

  /** A value that may be absent (an omitted request field, a `null` column). */
  datatype Option<T> = None | Some(value: T)

  /** The value if present, otherwise the default: a destructuring default such as `role = "admin"`,
      or a schema `default`. */
  function Or<T>(x: Option<T>, default: T): T
  {
    if x.Some? then x.value else default
  }

  /** A line item as orders and bills keep it: a copy of the product's name and unit price,
      and a quantity. Prices are integers in the currency unit the application uses. */
  datatype Item = Item(name: string, price: int, qty: int)

  /** The left fold `items.reduce((sum, item) => sum + item.price * item.qty, 0)`. */
  function Amount(items: seq<Item>): int
  {
    if items == [] then 0
    else Amount(items[..|items| - 1]) + items[|items| - 1].price * items[|items| - 1].qty
  }

  /** The amount of a concatenation is the sum of the amounts of its parts. */
  lemma {:induction false} AmountAppend(a: seq<Item>, b: seq<Item>)
    ensures Amount(a + b) == Amount(a) + Amount(b)
    decreases |b|
  {
    if b == [] {
      assert a + b == a;
    } else {
      var b' := b[..|b| - 1];
      assert (a + b)[..|a + b| - 1] == a + b';
      AmountAppend(a, b');
    }
  }

  /** An amount over one item is that item's price times its quantity. */
  lemma AmountSingle(x: Item)
    ensures Amount([x]) == x.price * x.qty
  {
    assert [x][..0] == [];
  }

  /** Items with non-negative prices and quantities never sum to a negative amount. */
  lemma {:induction false} AmountNonNegative(items: seq<Item>)
    requires forall k :: 0 <= k < |items| ==> items[k].price >= 0 && items[k].qty >= 0
    ensures Amount(items) >= 0
    decreases |items|
  {
    if items != [] {
      var last := items[|items| - 1];
      assert last.price * last.qty >= 0 by {
        assert last.price >= 0 && last.qty >= 0;
      }
      AmountNonNegative(items[..|items| - 1]);
    }
  }

  /** `s.filter(keep)`: the elements that pass, in their original order. */
  function Filter<T(!new)>(s: seq<T>, keep: T -> bool): (r: seq<T>)
    ensures |r| <= |s|
    ensures forall x :: x in r <==> x in s && keep(x)
    ensures forall k :: 0 <= k < |r| ==> keep(r[k])
  {
    if s == [] then [] else (if keep(s[0]) then [s[0]] else []) + Filter(s[1..], keep)
  }

  /** Filtering distributes over concatenation, so it never reorders what it keeps. */
  lemma {:induction false} FilterAppend<T(!new)>(a: seq<T>, b: seq<T>, keep: T -> bool)
    ensures Filter(a + b, keep) == Filter(a, keep) + Filter(b, keep)
  {
    if a != [] {
      assert (a + b)[1..] == a[1..] + b;
      FilterAppend(a[1..], b, keep);
    } else {
      assert a + b == b;
    }
  }

  /** A filter that keeps every element is the identity. */
  lemma {:induction false} FilterKeepsAll<T(!new)>(s: seq<T>, keep: T -> bool)
    requires forall k :: 0 <= k < |s| ==> keep(s[k])
    ensures Filter(s, keep) == s
  {
    if s != [] {
      FilterKeepsAll(s[1..], keep);
    }
  }

  /** A filter that keeps no element is empty. */
  lemma {:induction false} FilterKeepsNone<T(!new)>(s: seq<T>, keep: T -> bool)
    requires forall k :: 0 <= k < |s| ==> !keep(s[k])
    ensures Filter(s, keep) == []
  {
    if s != [] {
      FilterKeepsNone(s[1..], keep);
    }
  }

  /** The position of the first element satisfying `p`, the model of a `findOne` on a collection. */
  function FirstWhere<T>(s: seq<T>, p: T -> bool): (r: Option<nat>)
    ensures r.Some? ==> r.value < |s| && p(s[r.value])
    ensures r.Some? ==> forall j :: 0 <= j < r.value ==> !p(s[j])
    ensures r.None? ==> forall j :: 0 <= j < |s| ==> !p(s[j])
  {
    if s == [] then None
    else if p(s[0]) then Some(0)
    else
      var rest := FirstWhere(s[1..], p);
      if rest.None? then None else Some(rest.value + 1)
  }

  /** The scan a database performs for `findOne`: front to back, stopping at the first match. */
  method Find<T>(s: seq<T>, p: T -> bool) returns (r: Option<nat>)
    ensures r == FirstWhere(s, p)
  {
    var i := 0;
    while i < |s|
      invariant 0 <= i <= |s|
      invariant forall j :: 0 <= j < i ==> !p(s[j])
    {
      if p(s[i]) {
        return Some(i);
      }
      i := i + 1;
    }
    return None;
  }
}
