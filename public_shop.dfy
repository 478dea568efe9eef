/** The customer's shop page: the cart and its updates, the totals, the phone check, and the checkout
    that sends the order. Each cart update is a function from the previous cart to the next. */
module PublicShop {
  import opened Common
  import opened Text
  import PublicRoutes

  /** A listed product as the page receives it; `stock` is `None` when the field is absent. */
  datatype ShopProduct = ShopProduct(id: nat, name: string, price: int, stock: Option<int>)

  /** A cart line: the product's fields and the chosen quantity. */
  datatype CartLine = CartLine(id: nat, name: string, price: int, stock: Option<int>, qty: int)

  /** Every line has a quantity of at least one; every update below keeps this. */
  predicate CartOk(cart: seq<CartLine>)
  {
    forall k :: 0 <= k < |cart| ==> cart[k].qty >= 1
  }

  predicate InCart(cart: seq<CartLine>, id: nat)
  {
    exists k :: 0 <= k < |cart| && cart[k].id == id
  }

  function WithoutId(id: nat): CartLine -> bool
  {
    (l: CartLine) => l.id != id
  }

  // ---------------------------------------------------------------------------------------------
  // removeLine, clearCart, toggleCart

  /** `removeLine(id)`: the lines with another id, in their order. */
  function RemoveLine(cart: seq<CartLine>, id: nat): (r: seq<CartLine>)
    ensures forall l :: l in r <==> l in cart && l.id != id
    ensures !InCart(r, id)
  {
    Filter(cart, WithoutId(id))
  }

  /** Removing an id that is not in the cart changes nothing. */
  lemma RemoveAbsent(cart: seq<CartLine>, id: nat)
    requires !InCart(cart, id)
    ensures RemoveLine(cart, id) == cart
  {
    FilterKeepsAll(cart, WithoutId(id));
  }

  /** `clearCart`: the empty cart, which totals nothing. */
  function ClearCart(): (r: seq<CartLine>)
    ensures CartTotal(r) == 0 && TotalItems(r) == 0 && CartOk(r)
  {
    []
  }

  /** `toggleCart(product)`: a product in the cart is removed, any other is appended with quantity one. */
  function Toggle(cart: seq<CartLine>, p: ShopProduct): (r: seq<CartLine>)
    ensures InCart(cart, p.id) ==> r == RemoveLine(cart, p.id)
    ensures !InCart(cart, p.id) ==> r == cart + [CartLine(p.id, p.name, p.price, p.stock, 1)]
    ensures InCart(r, p.id) <==> !InCart(cart, p.id)
    ensures CartOk(cart) ==> CartOk(r)
  {
    if InCart(cart, p.id) then RemoveLine(cart, p.id)
    else
      var r := cart + [CartLine(p.id, p.name, p.price, p.stock, 1)];
      assert r[|cart|].id == p.id;
      r
  }

  /** Toggling a product that is not in the cart twice gives back the cart. */
  lemma ToggleTwice(cart: seq<CartLine>, p: ShopProduct)
    requires !InCart(cart, p.id)
    ensures Toggle(Toggle(cart, p), p) == cart
  {
    var line := CartLine(p.id, p.name, p.price, p.stock, 1);
    FilterAppend(cart, [line], WithoutId(p.id));
    FilterKeepsAll(cart, WithoutId(p.id));
    assert Filter([line], WithoutId(p.id)) == [];
  }

  /** Adding a product raises the total by its price and the item count by one. */
  lemma ToggleAddsOne(cart: seq<CartLine>, p: ShopProduct)
    requires !InCart(cart, p.id)
    ensures CartTotal(Toggle(cart, p)) == CartTotal(cart) + p.price
    ensures TotalItems(Toggle(cart, p)) == TotalItems(cart) + 1
  {
    var r := cart + [CartLine(p.id, p.name, p.price, p.stock, 1)];
    assert r[..|r| - 1] == cart;
  }

  // ---------------------------------------------------------------------------------------------
  // changeQty

  /** `Math.max(1, Math.min(qty + delta, stock ?? Infinity))`. */
  function Clamp(qty: int, delta: int, stock: Option<int>): (n: int)
    ensures n >= 1
    ensures stock.Some? && stock.value >= 1 ==> n <= stock.value
    ensures stock.None? || qty + delta <= stock.value ==> n == (if qty + delta >= 1 then qty + delta else 1)
    ensures stock.Some? && stock.value < qty + delta ==> n == (if stock.value >= 1 then stock.value else 1)
  {
    var capped := if stock.Some? && stock.value < qty + delta then stock.value else qty + delta;
    if capped < 1 then 1 else capped
  }

  /** The `map` step: the line with the id gets the clamped quantity, the others are kept. */
  function ClampLines(cart: seq<CartLine>, id: nat, delta: int): (r: seq<CartLine>)
    ensures |r| == |cart|
    ensures forall k :: 0 <= k < |cart| ==>
      r[k] == (if cart[k].id == id then cart[k].(qty := Clamp(cart[k].qty, delta, cart[k].stock)) else cart[k])
  {
    if cart == [] then []
    else
      var l := cart[0];
      [if l.id == id then l.(qty := Clamp(l.qty, delta, l.stock)) else l] + ClampLines(cart[1..], id, delta)
  }

  function Positive(l: CartLine): bool
  {
    l.qty > 0
  }

  /** `changeQty(id, delta)`: the clamp, then `filter(x => x.qty > 0)`. */
  function ChangeQty(cart: seq<CartLine>, id: nat, delta: int): (r: seq<CartLine>)
    ensures CartOk(r)
  {
    Filter(ClampLines(cart, id, delta), Positive)
  }

  /** On a cart whose lines all have a quantity, `changeQty` removes no line and touches only the line
      with the id, which ends with a quantity of at least one and, given a positive stock, at most the
      stock. */
  lemma ChangeQtyOnlyThatLine(cart: seq<CartLine>, id: nat, delta: int)
    requires CartOk(cart)
    ensures var r := ChangeQty(cart, id, delta);
      && |r| == |cart|
      && forall k :: 0 <= k < |cart| ==>
        && r[k].qty >= 1
        && (cart[k].id != id ==> r[k] == cart[k])
        && (cart[k].id == id ==> r[k] == cart[k].(qty := Clamp(cart[k].qty, delta, cart[k].stock)))
        && (cart[k].id == id && cart[k].stock.Some? && cart[k].stock.value >= 1 ==> r[k].qty <= cart[k].stock.value)
  {
    FilterKeepsAll(ClampLines(cart, id, delta), Positive);
  }

  // ---------------------------------------------------------------------------------------------
  // totalAmount, totalItems

  /** `cart.reduce((sum, item) => sum + item.price * item.qty, 0)`. */
  function CartTotal(cart: seq<CartLine>): int
  {
    if cart == [] then 0
    else CartTotal(cart[..|cart| - 1]) + cart[|cart| - 1].price * cart[|cart| - 1].qty
  }

  /** `cart.reduce((n, i) => n + i.qty, 0)`. */
  function TotalItems(cart: seq<CartLine>): int
  {
    if cart == [] then 0 else TotalItems(cart[..|cart| - 1]) + cart[|cart| - 1].qty
  }

  /** The `{ name, price, qty }` projection the checkout sends. */
  function AsItems(cart: seq<CartLine>): (r: seq<Item>)
    ensures |r| == |cart|
    ensures forall k :: 0 <= k < |cart| ==> r[k] == Item(cart[k].name, cart[k].price, cart[k].qty)
  {
    seq(|cart|, k requires 0 <= k < |cart| => Item(cart[k].name, cart[k].price, cart[k].qty))
  }

  /** The page's total is the amount the server computes from the items it is sent. */
  lemma {:induction false} CartTotalIsAmount(cart: seq<CartLine>)
    ensures CartTotal(cart) == Amount(AsItems(cart))
    decreases |cart|
  {
    if cart != [] {
      var front := cart[..|cart| - 1];
      assert AsItems(cart)[..|cart| - 1] == AsItems(front);
      CartTotalIsAmount(front);
    }
  }

  /** A cart whose lines all have a quantity counts at least one item per line. */
  lemma {:induction false} TotalItemsAtLeastLines(cart: seq<CartLine>)
    requires CartOk(cart)
    ensures TotalItems(cart) >= |cart|
    decreases |cart|
  {
    if cart != [] {
      TotalItemsAtLeastLines(cart[..|cart| - 1]);
    }
  }

  // ---------------------------------------------------------------------------------------------
  // phoneLooksOk

  /** `/^\d{10}$/` anchored at both ends: exactly `n` more ASCII digits and then the end. */
  function DigitsThenEnd(s: string, n: nat): (r: bool)
    ensures r <==> |s| == n && forall k :: 0 <= k < |s| ==> IsDigit(s[k])
  {
    if n == 0 then s == []
    else s != [] && IsDigit(s[0]) && DigitsThenEnd(s[1..], n - 1)
  }

  /** `phoneLooksOk`: the trimmed phone is ten decimal digits. */
  function PhoneLooksOk(phone: string): (r: bool)
    ensures r <==> |Trim(phone)| == 10 && AllDigits(Trim(phone))
  {
    DigitsThenEnd(Trim(phone), 10)
  }

  // ---------------------------------------------------------------------------------------------
  // handlePayment

  /** The body posted to `/create-order`. */
  datatype ShopOrder = ShopOrder(items: seq<Item>, customerName: string, phone: string, tableNumber: string)

  /** What `handlePayment` does: stop with a message, or send. The contact and phone failures also open
      the checkout form. */
  datatype PaymentStep =
    | EmptyCart
    | MissingContact
    | BadPhone
    | Send(order: ShopOrder)

  /** `handlePayment`'s checks in order, then the order it posts. */
  function HandlePayment(cart: seq<CartLine>, customerName: string, phone: string, tableNumber: string)
    : (r: PaymentStep)
    ensures r == EmptyCart <==> cart == []
    ensures r == MissingContact <==> cart != [] && (Trim(customerName) == "" || Trim(phone) == "")
    ensures r == BadPhone <==>
      cart != [] && Trim(customerName) != "" && Trim(phone) != "" && !PhoneLooksOk(phone)
    ensures r.Send? ==>
      && r.order.items == AsItems(cart)
      && r.order.customerName == Trim(customerName) && r.order.phone == Trim(phone)
      && r.order.tableNumber == tableNumber
  {
    if cart == [] then EmptyCart
    else if Trim(customerName) == "" || Trim(phone) == "" then MissingContact
    else if !PhoneLooksOk(phone) then BadPhone
    else Send(ShopOrder(AsItems(cart), Trim(customerName), Trim(phone), tableNumber))
  }

  /** The cart after the request: emptied once the server answered with success, kept otherwise. */
  function CartAfter(cart: seq<CartLine>, step: PaymentStep, created: bool): (r: seq<CartLine>)
    ensures step.Send? && created ==> r == []
    ensures !(step.Send? && created) ==> r == cart
    ensures r == [] <==> (step.Send? && created) || cart == []
  {
    if step.Send? && created then ClearCart() else cart
  }

  /** A sent order passes the server's schema: the order is stored under the timestamp's id, with the
      cart's lines, for the amount the page showed, and the phone is ten digits. */
  lemma SentOrderAccepted(cart: seq<CartLine>, customerName: string, phone: string, tableNumber: string,
                          now: nat, qrCodeUrl: string, table: Option<int>)
    requires HandlePayment(cart, customerName, phone, tableNumber).Send?
    ensures var o := HandlePayment(cart, customerName, phone, tableNumber).order;
      var req := PublicRoutes.OrderRequest(Some(PublicRoutes.Sent(o.items)), o.customerName, o.phone, table);
      && |o.phone| == 10
      && PublicRoutes.NewOrder(req, now, qrCodeUrl).Some?
      && PublicRoutes.NewOrder(req, now, qrCodeUrl).value.payment.amount == CartTotal(cart)
  {
    var o := HandlePayment(cart, customerName, phone, tableNumber).order;
    var req := PublicRoutes.OrderRequest(Some(PublicRoutes.Sent(o.items)), o.customerName, o.phone, table);
    PublicRoutes.PricedSent(o.items);
    PublicRoutes.NewOrderShape(req, now, qrCodeUrl);
    CartTotalIsAmount(cart);
  }
}
