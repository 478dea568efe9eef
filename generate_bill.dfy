/** The counter's bill form: picking products into a selection, editing quantities, the search box,
    and the bill it posts. */
module GenerateBill {
  import opened Common
  import opened Text
  import opened ProductModel
  import opened BillModel
  import AdminControllers

  /** A selected line, `{ ...product, qty }`: the product as it was listed, and the quantity. */
  datatype Line = Line(product: Product, qty: int)

  predicate IdsUnique(s: seq<Line>)
  {
    forall i, j :: 0 <= i < j < |s| ==> s[i].product.id != s[j].product.id
  }

  /** Every line has a quantity of at least one; every update below keeps this. */
  predicate QtysPositive(s: seq<Line>)
  {
    forall k :: 0 <= k < |s| ==> s[k].qty >= 1
  }

  function HasId(id: nat): Product -> bool
  {
    (p: Product) => p.id == id
  }

  predicate Selected(s: seq<Line>, id: nat)
  {
    exists k :: 0 <= k < |s| && s[k].product.id == id
  }

  // ---------------------------------------------------------------------------------------------
  // filteredProducts

  function NameMatches(term: string): Product -> bool
  {
    (p: Product) => Includes(Lower(p.name), Lower(term))
  }

  /** The products whose lower-cased name contains the lower-cased search term, in listing order. */
  function FilteredProducts(products: seq<Product>, term: string): (r: seq<Product>)
    ensures |r| <= |products|
  {
    Filter(products, NameMatches(term))
  }

  /** A product is offered exactly when the term occurs in its name, ignoring ASCII case. */
  lemma FilteredIff(products: seq<Product>, term: string, p: Product)
    ensures p in FilteredProducts(products, term) <==>
      p in products && exists i :: OccursAt(Lower(term), Lower(p.name), i)
  {
    assert NameMatches(term)(p) == Includes(Lower(p.name), Lower(term));
    IncludesIff(Lower(p.name), Lower(term));
  }

  /** An empty search offers every product. */
  lemma EmptySearchOffersAll(products: seq<Product>)
    ensures FilteredProducts(products, "") == products
  {
    forall k | 0 <= k < |products|
      ensures NameMatches("")(products[k])
    {
      assert Lower("") == "";
      IncludesIff(Lower(products[k].name), "");
      assert OccursAt("", Lower(products[k].name), 0);
    }
    FilterKeepsAll(products, NameMatches(""));
  }

  // ---------------------------------------------------------------------------------------------
  // handleAddItem

  /** The `map` that adds one to the quantity of the lines with the id. */
  function Increment(s: seq<Line>, id: nat): (r: seq<Line>)
    ensures |r| == |s|
    ensures forall k :: 0 <= k < |s| ==>
      r[k] == (if s[k].product.id == id then s[k].(qty := s[k].qty + 1) else s[k])
  {
    if s == [] then [] else
      [if s[0].product.id == id then s[0].(qty := s[0].qty + 1) else s[0]] + Increment(s[1..], id)
  }

  /** `handleAddItem(productId)`: an unknown id changes nothing; a selected product gets one more; any
      other listed product is appended with quantity one. */
  function AddItem(products: seq<Product>, s: seq<Line>, productId: nat): (r: seq<Line>)
    ensures FirstWhere(products, HasId(productId)).None? ==> r == s
    ensures FirstWhere(products, HasId(productId)).Some? && Selected(s, productId) ==> r == Increment(s, productId)
    ensures FirstWhere(products, HasId(productId)).Some? && !Selected(s, productId) ==>
      r == s + [Line(products[FirstWhere(products, HasId(productId)).value], 1)]
    ensures IdsUnique(s) ==> IdsUnique(r)
    ensures QtysPositive(s) ==> QtysPositive(r)
  {
    var found := FirstWhere(products, HasId(productId));
    if found.None? then s
    else if Selected(s, productId) then Increment(s, productId)
    else s + [Line(products[found.value], 1)]
  }

  function LineTotal(s: seq<Line>): int
  {
    if s == [] then 0
    else LineTotal(s[..|s| - 1]) + s[|s| - 1].product.price * s[|s| - 1].qty
  }

  /** With unique ids, incrementing the id of line `i` changes that line alone. */
  lemma IncrementOneLine(s: seq<Line>, i: nat)
    requires IdsUnique(s) && i < |s|
    ensures Increment(s, s[i].product.id) == s[i := s[i].(qty := s[i].qty + 1)]
  {
  }

  /** The amount of a sequence split around position `i`. */
  lemma AmountAround(xs: seq<Item>, i: nat)
    requires i < |xs|
    ensures Amount(xs) == Amount(xs[..i]) + xs[i].price * xs[i].qty + Amount(xs[i + 1..])
  {
    assert xs == xs[..i] + [xs[i]] + xs[i + 1..];
    AmountAppend(xs[..i] + [xs[i]], xs[i + 1..]);
    AmountAppend(xs[..i], [xs[i]]);
    AmountSingle(xs[i]);
  }

  lemma OneMore(price: int, qty: int)
    ensures price * (qty + 1) == price * qty + price
  {
  }

  /** One more of item `i` adds its price to the amount. */
  lemma AmountOneMore(xs: seq<Item>, ys: seq<Item>, i: nat)
    requires i < |xs| == |ys|
    requires ys[..i] == xs[..i] && ys[i + 1..] == xs[i + 1..]
    requires ys[i] == xs[i].(qty := xs[i].qty + 1)
    ensures Amount(ys) == Amount(xs) + xs[i].price
  {
    AmountAround(xs, i);
    AmountAround(ys, i);
    OneMore(xs[i].price, xs[i].qty);
  }

  /** The projection of a selection with one more of line `i`. */
  lemma AsItemsOneMore(s: seq<Line>, i: nat)
    requires i < |s|
    ensures var xs, ys := AsItems(s), AsItems(s[i := s[i].(qty := s[i].qty + 1)]);
      ys[..i] == xs[..i] && ys[i + 1..] == xs[i + 1..] && ys[i] == xs[i].(qty := xs[i].qty + 1)
  {
    var xs, ys := AsItems(s), AsItems(s[i := s[i].(qty := s[i].qty + 1)]);
    assert ys[..i] == xs[..i];
    assert ys[i + 1..] == xs[i + 1..];
  }

  /** Adding a selected product raises the total by that line's price once, since the ids are unique. */
  lemma IncrementTotal(s: seq<Line>, i: nat)
    requires IdsUnique(s) && i < |s|
    ensures LineTotal(Increment(s, s[i].product.id)) == LineTotal(s) + s[i].product.price
  {
    IncrementOneLine(s, i);
    OneMoreTotal(s, i);
  }

  /** One more of line `i` adds that line's price to the total. */
  lemma OneMoreTotal(s: seq<Line>, i: nat)
    requires i < |s|
    ensures LineTotal(s[i := s[i].(qty := s[i].qty + 1)]) == LineTotal(s) + s[i].product.price
  {
    var t := s[i := s[i].(qty := s[i].qty + 1)];
    var xs, ys := AsItems(s), AsItems(t);
    AsItemsOneMore(s, i);
    AmountOneMore(xs, ys, i);
    LineTotalIsAmount(s);
    LineTotalIsAmount(t);
  }

  /** One more of a product costs its price: appended at quantity one at the listed price, or one more
      of its line at the price that line carries. */
  lemma AddItemTotal(products: seq<Product>, s: seq<Line>, productId: nat)
    requires IdsUnique(s)
    requires FirstWhere(products, HasId(productId)).Some?
    ensures !Selected(s, productId) ==>
      LineTotal(AddItem(products, s, productId))
      == LineTotal(s) + products[FirstWhere(products, HasId(productId)).value].price
    ensures forall k :: 0 <= k < |s| && s[k].product.id == productId ==>
      LineTotal(AddItem(products, s, productId)) == LineTotal(s) + s[k].product.price
  {
    var r := AddItem(products, s, productId);
    if Selected(s, productId) {
      forall k | 0 <= k < |s| && s[k].product.id == productId
        ensures LineTotal(r) == LineTotal(s) + s[k].product.price
      {
        IncrementTotal(s, k);
      }
    } else {
      assert r[..|r| - 1] == s;
    }
  }

  // ---------------------------------------------------------------------------------------------
  // handleQtyChange

  /** The longest prefix of decimal digits. */
  function DigitPrefix(s: string): (r: string)
    ensures |r| <= |s| && r == s[..|r|] && AllDigits(r)
    ensures |r| < |s| ==> !IsDigit(s[|r|])
  {
    if s != [] && IsDigit(s[0]) then [s[0]] + DigitPrefix(s[1..]) else []
  }

  /** `parseInt(v)` on what a number field holds: leading white space, an optional sign, and the digits
      up to the first other character; `None` for `NaN`. */
  function ParseLeadingInt(v: string): Option<int>
  {
    var t := TrimStart(v);
    var negative := t != [] && t[0] == '-';
    var body := if t != [] && (t[0] == '-' || t[0] == '+') then t[1..] else t;
    var d := DigitPrefix(body);
    if d == [] then None else Some(if negative then -(DigitsValue(d) as int) else DigitsValue(d) as int)
  }

  /** `parseInt` reads back every number `String(n)` renders. */
  lemma ParseLeadingIntRoundTrip(n: int)
    ensures ParseLeadingInt(IntToString(n)) == Some(n)
  {
    if n < 0 {
      var d := NatToString(-n);
      assert IntToString(n) == "-" + d;
      ParseNegative(d);
      NatToStringRoundTrip(-n);
      assert DigitsValue(d) as int == -n;
    } else {
      var d := NatToString(n);
      assert IntToString(n) == d;
      ParseUnsigned(d);
      NatToStringRoundTrip(n);
    }
  }

  /** A minus sign followed by digits parses to the negated digits' value. */
  lemma ParseNegative(d: string)
    requires d != [] && AllDigits(d)
    ensures ParseLeadingInt("-" + d) == Some(-(DigitsValue(d) as int))
  {
    var s := "-" + d;
    TrimStartKeeps(s);
    assert s[1..] == d;
    DigitPrefixAll(d);
  }

  /** Digits alone parse to their value. */
  lemma ParseUnsigned(d: string)
    requires d != [] && AllDigits(d)
    ensures ParseLeadingInt(d) == Some(DigitsValue(d) as int)
  {
    assert IsDigit(d[0]);
    TrimStartKeeps(d);
    DigitPrefixAll(d);
  }

  lemma TrimStartKeeps(s: string)
    requires s != [] && !IsSpace(s[0])
    ensures TrimStart(s) == s
  {
  }

  lemma {:induction false} DigitPrefixAll(s: string)
    requires AllDigits(s)
    ensures DigitPrefix(s) == s
  {
    if s != [] {
      DigitPrefixAll(s[1..]);
    }
  }

  /** `Math.max(1, parseInt(v) || 1)`: a positive number is taken as it is; `NaN`, zero and negatives
      become one. */
  function QtyFrom(v: string): (n: int)
    ensures n >= 1
    ensures ParseLeadingInt(v).Some? && ParseLeadingInt(v).value >= 1 ==> n == ParseLeadingInt(v).value
    ensures ParseLeadingInt(v).None? || ParseLeadingInt(v).value < 1 ==> n == 1
  {
    var p := ParseLeadingInt(v);
    var q := if p.None? || p.value == 0 then 1 else p.value;
    if q < 1 then 1 else q
  }

  /** `handleQtyChange(index, v)`: copies the selection, sets the quantity at `index`, and hands the copy
      back as the new selection. Every other line is unchanged. */
  method HandleQtyChange(s: seq<Line>, index: nat, v: string) returns (r: seq<Line>)
    requires index < |s|
    ensures |r| == |s|
    ensures r[index] == s[index].(qty := QtyFrom(v)) && r[index].qty >= 1
    ensures forall k :: 0 <= k < |s| && k != index ==> r[k] == s[k]
    ensures IdsUnique(s) ==> IdsUnique(r)
    ensures QtysPositive(s) ==> QtysPositive(r)
  {
    var updated := new Line[|s|](k requires 0 <= k < |s| => s[k]);
    updated[index] := updated[index].(qty := QtyFrom(v));
    r := updated[..];
  }

  // ---------------------------------------------------------------------------------------------
  // handleRemoveItem

  /** `prev.filter((_, i) => i !== index)`: the lines at every other position. */
  function RemoveAt(s: seq<Line>, index: int): (r: seq<Line>)
  {
    if s == [] then [] else (if index == 0 then [] else [s[0]]) + RemoveAt(s[1..], index - 1)
  }

  /** Removing a position drops exactly that line and keeps the others in order; a position past the end
      changes nothing. */
  lemma {:induction false} RemoveAtSlices(s: seq<Line>, index: int)
    ensures 0 <= index < |s| ==> RemoveAt(s, index) == s[..index] + s[index + 1..]
    ensures !(0 <= index < |s|) ==> RemoveAt(s, index) == s
  {
    if 0 <= index < |s| {
      RemoveAtInside(s, index);
    } else {
      RemoveAtOutside(s, index);
    }
  }

  lemma {:induction false} RemoveAtInside(s: seq<Line>, index: nat)
    requires index < |s|
    ensures RemoveAt(s, index) == s[..index] + s[index + 1..]
  {
    if index > 0 {
      RemoveAtInside(s[1..], index - 1);
      assert s[..index] == [s[0]] + s[1..][..index - 1];
      assert s[index + 1..] == s[1..][index..];
    } else {
      RemoveAtOutside(s[1..], -1);
    }
  }

  lemma {:induction false} RemoveAtOutside(s: seq<Line>, index: int)
    requires !(0 <= index < |s|)
    ensures RemoveAt(s, index) == s
  {
    if s != [] {
      RemoveAtOutside(s[1..], index - 1);
      assert s == [s[0]] + s[1..];
    }
  }

  /** Removing a line keeps the ids unique and the quantities positive. */
  lemma RemoveAtKeeps(s: seq<Line>, index: int)
    ensures IdsUnique(s) ==> IdsUnique(RemoveAt(s, index))
    ensures QtysPositive(s) ==> QtysPositive(RemoveAt(s, index))
  {
    RemoveAtSlices(s, index);
    if 0 <= index < |s| {
      var r := RemoveAt(s, index);
      assert forall k :: 0 <= k < |r| ==> r[k] == (if k < index then s[k] else s[k + 1]);
    }
  }

  // ---------------------------------------------------------------------------------------------
  // totalAmount, handleGenerateBill

  /** The `{ name, price, qty }` projection the form posts. */
  function AsItems(s: seq<Line>): (r: seq<Item>)
    ensures |r| == |s|
    ensures forall k :: 0 <= k < |s| ==> r[k] == Item(s[k].product.name, s[k].product.price, s[k].qty)
  {
    seq(|s|, k requires 0 <= k < |s| => Item(s[k].product.name, s[k].product.price, s[k].qty))
  }

  /** The form's total is the amount of the items it posts. */
  lemma {:induction false} LineTotalIsAmount(s: seq<Line>)
    ensures LineTotal(s) == Amount(AsItems(s))
    decreases |s|
  {
    if s != [] {
      assert AsItems(s)[..|s| - 1] == AsItems(s[..|s| - 1]);
      LineTotalIsAmount(s[..|s| - 1]);
    }
  }

  /** The posted body's items, in the server's terms. */
  function RawItems(items: seq<Item>): (r: seq<AdminControllers.RawItem>)
    ensures |r| == |items|
    ensures forall k :: 0 <= k < |items| ==>
      r[k] == AdminControllers.RawItem(items[k].name, items[k].price, Some(items[k].qty))
  {
    seq(|items|, k requires 0 <= k < |items| => AdminControllers.RawItem(items[k].name, items[k].price, Some(items[k].qty)))
  }

  /** What `handleGenerateBill` does: nothing without a name or a selection, otherwise it posts. */
  datatype Submit = NothingSent | Post(body: AdminControllers.BillRequest)

  /** `handleGenerateBill`: the name is checked as typed, not trimmed. */
  function HandleGenerateBill(s: seq<Line>, customerName: string, customerPhone: string, paymentMethod: string)
    : (r: Submit)
    ensures r == NothingSent <==> customerName == "" || s == []
    ensures r.Post? ==>
      && r.body.customerName == customerName && r.body.customerPhone == Some(customerPhone)
      && r.body.items == Some(RawItems(AsItems(s)))
      && r.body.paymentMethod == paymentMethod
      && r.body.totalAmount == Some(LineTotal(s))
  {
    if customerName == "" || s == [] then NothingSent
    else Post(AdminControllers.BillRequest(customerName, Some(customerPhone), Some(RawItems(AsItems(s))),
                                           paymentMethod, Some(LineTotal(s))))
  }

  /** A bill the server creates from the form holds the selected lines with their quantities, and its
      total is the total the form showed. */
  lemma PostedBillMatchesForm(s: seq<Line>, customerName: string, customerPhone: string, paymentMethod: string, now: int)
    requires QtysPositive(s)
    requires HandleGenerateBill(s, customerName, customerPhone, paymentMethod).Post?
    requires AdminControllers.BuildBill(HandleGenerateBill(s, customerName, customerPhone, paymentMethod).body, now).Created?
    ensures var bill := AdminControllers.BuildBill(HandleGenerateBill(s, customerName, customerPhone, paymentMethod).body, now).bill;
      bill.items == AsItems(s) && bill.totalAmount == LineTotal(s)
  {
    var req := HandleGenerateBill(s, customerName, customerPhone, paymentMethod).body;
    var bill := AdminControllers.BuildBill(req, now).bill;
    BuiltItemsAreLines(s, req.items.value, bill.items);
    LineTotalIsAmount(s);
  }

  /** The server's reading of the posted items, a quantity defaulting to one, gives back the selected
      lines when every quantity is positive. */
  lemma BuiltItemsAreLines(s: seq<Line>, raw: seq<AdminControllers.RawItem>, built: seq<Item>)
    requires QtysPositive(s)
    requires raw == RawItems(AsItems(s))
    requires |built| == |raw|
    requires forall k :: 0 <= k < |built| ==>
      built[k] == Item(raw[k].name, raw[k].price, AdminControllers.QtyOrOne(raw[k].qty))
    ensures built == AsItems(s)
  {
    assert forall k :: 0 <= k < |built| ==> built[k] == AsItems(s)[k];
  }

  /** The form's state. */
  datatype Form = Form(selected: seq<Line>, customerName: string, customerPhone: string, paymentMethod: string)

  /** A response carrying a bill clears the selection, the name and the phone; the method stays. */
  function AfterResponse(f: Form, billReturned: bool): (r: Form)
    ensures billReturned ==> r.selected == [] && r.customerName == "" && r.customerPhone == ""
    ensures !billReturned ==> r == f
    ensures r.paymentMethod == f.paymentMethod
  {
    if billReturned then Form([], "", "", f.paymentMethod) else f
  }
}
