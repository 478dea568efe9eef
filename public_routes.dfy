/** The public ordering route: the order id, the amount, the UPI payment link, and the order it stores. */
module PublicRoutes {
  import opened Common
  import opened Text
  import opened OrderModel
  import Store

  const OrderIdPrefix: string := "ORD"

  /** `ORD${Date.now()}`: the prefix followed by the decimal timestamp. */
  function OrderIdFor(now: nat): (id: string)
    ensures |id| > |OrderIdPrefix| && id[..|OrderIdPrefix|] == OrderIdPrefix
    ensures AllDigits(id[|OrderIdPrefix|..])
  {
    var id := OrderIdPrefix + NatToString(now);
    assert id[|OrderIdPrefix|..] == NatToString(now);
    id
  }

  /** The timestamp an order id was built from, when it has the `ORD<digits>` shape. */
  function OrderIdTimestamp(id: string): Option<nat>
  {
    if |id| > |OrderIdPrefix| && id[..|OrderIdPrefix|] == OrderIdPrefix && AllDigits(id[|OrderIdPrefix|..])
    then Some(DigitsValue(id[|OrderIdPrefix|..]))
    else None
  }

  /** The timestamp can be read back from the id. */
  lemma OrderIdRoundTrip(now: nat)
    ensures OrderIdTimestamp(OrderIdFor(now)) == Some(now)
  {
    assert OrderIdFor(now)[|OrderIdPrefix|..] == NatToString(now);
    NatToStringRoundTrip(now);
  }

  /** Two orders placed at different milliseconds get different ids; two in the same one collide. */
  lemma OrderIdInjective(a: nat, b: nat)
    ensures OrderIdFor(a) == OrderIdFor(b) <==> a == b
  {
    if OrderIdFor(a) == OrderIdFor(b) {
      OrderIdRoundTrip(a);
      OrderIdRoundTrip(b);
    }
  }

  const UpiPayee: string := "upi://pay?pa=zeeshanrazakhan78-3@okaxis&pn=MerchantName&"
  const UpiHead: string := UpiPayee + "am="
  const UpiMiddle: string := "&cu=INR&tn="

  /** The UPI deep link: fixed payee and name, the amount, currency INR, the order id as the note. */
  function UpiLink(amount: int, orderId: string): string
  {
    UpiHead + IntToString(amount) + UpiMiddle + orderId
  }

  /** The first position of `c` in `s`, or `|s|` when there is none. */
  function IndexOf(s: string, c: char): (n: nat)
    ensures n <= |s| && (n < |s| ==> s[n] == c)
    ensures forall k :: 0 <= k < n ==> s[k] != c
  {
    if s == [] then 0 else if s[0] == c then 0 else 1 + IndexOf(s[1..], c)
  }

  /** Reads the amount (`am`) and the note (`tn`) back out of a link of the shape `UpiLink` builds. */
  function ParseUpiLink(link: string): Option<(int, string)>
  {
    if |link| < |UpiHead| || link[..|UpiHead|] != UpiHead then None
    else
      var rest := link[|UpiHead|..];
      var n := IndexOf(rest, '&');
      var am := ParseInt(rest[..n]);
      if am.None? then None
      else if |rest| - n < |UpiMiddle| || rest[n..n + |UpiMiddle|] != UpiMiddle then None
      else Some((am.value, rest[n + |UpiMiddle|..]))
  }

  /** The rendering of a number never contains `&`. */
  lemma NoAmpersandInNumber(i: int)
    ensures forall k :: 0 <= k < |IntToString(i)| ==> IntToString(i)[k] != '&'
  {
    if i < 0 {
      var d := NatToString(-i);
      assert forall k :: 0 < k < |"-" + d| ==> ("-" + d)[k] == d[k - 1];
    }
  }

  /** The link carries exactly the amount and the order id it was built from. */
  lemma UpiLinkRoundTrip(amount: int, orderId: string)
    ensures ParseUpiLink(UpiLink(amount, orderId)) == Some((amount, orderId))
  {
    var a := IntToString(amount);
    var link := UpiLink(amount, orderId);
    assert link[..|UpiHead|] == UpiHead;
    var rest := link[|UpiHead|..];
    assert rest == a + UpiMiddle + orderId;
    NoAmpersandInNumber(amount);
    assert rest[|a|] == '&';
    assert IndexOf(rest, '&') == |a|;
    assert rest[..|a|] == a;
    IntToStringRoundTrip(amount);
    assert rest[|a|..|a| + |UpiMiddle|] == UpiMiddle;
    assert rest[|a| + |UpiMiddle|..] == orderId;
  }

  /** The link names the amount (`am=`), the currency (`cu=INR`) and the order id (`tn=`). */
  lemma UpiLinkFields(amount: int, orderId: string)
    ensures Includes(UpiLink(amount, orderId), "am=" + IntToString(amount))
    ensures Includes(UpiLink(amount, orderId), "cu=INR")
    ensures Includes(UpiLink(amount, orderId), "tn=" + orderId)
  {
    UpiLinkAmount(amount, orderId);
    UpiLinkCurrency(amount, orderId);
    UpiLinkNote(amount, orderId);
  }

  /** The link carries the amount after `am=`. */
  lemma UpiLinkAmount(amount: int, orderId: string)
    ensures Includes(UpiLink(amount, orderId), "am=" + IntToString(amount))
  {
    var a := IntToString(amount);
    assert UpiLink(amount, orderId) == UpiPayee + ("am=" + a) + (UpiMiddle + orderId);
    IncludesMiddle(UpiPayee, "am=" + a, UpiMiddle + orderId);
  }

  /** The link carries the currency `cu=INR`. */
  lemma UpiLinkCurrency(amount: int, orderId: string)
    ensures Includes(UpiLink(amount, orderId), "cu=INR")
  {
    var a := IntToString(amount);
    assert UpiMiddle == "&" + "cu=INR" + "&tn=";
    assert UpiLink(amount, orderId) == (UpiHead + a + "&") + "cu=INR" + ("&tn=" + orderId);
    IncludesMiddle(UpiHead + a + "&", "cu=INR", "&tn=" + orderId);
  }

  /** The link carries the order id after `tn=`. */
  lemma UpiLinkNote(amount: int, orderId: string)
    ensures Includes(UpiLink(amount, orderId), "tn=" + orderId)
  {
    var a := IntToString(amount);
    assert UpiMiddle == "&cu=INR&" + "tn=";
    assert UpiLink(amount, orderId) == (UpiHead + a + "&cu=INR&") + ("tn=" + orderId) + "";
    IncludesMiddle(UpiHead + a + "&cu=INR&", "tn=" + orderId, "");
  }

  /** An item of the request body. `price` or `qty` is `None` when the item omits it. */
  datatype OrderItem = OrderItem(name: string, price: Option<int>, qty: Option<int>)

  /** The request body of `/create-order`. `items` is `None` when the body has none; `tableNumber` is
      read from the body but not used. */
  datatype OrderRequest = OrderRequest(items: Option<seq<OrderItem>>, customerName: string, phone: string,
                                       tableNumber: Option<int>)

  /** The items as stored, when every one has a price and a quantity. An omitted one makes
      `item.price * item.qty` NaN, and the Number cast of `payment.amount` refuses NaN. */
  function Priced(xs: seq<OrderItem>): (r: Option<seq<Item>>)
    ensures r.Some? <==> forall k :: 0 <= k < |xs| ==> xs[k].price.Some? && xs[k].qty.Some?
    ensures r.Some? ==> |r.value| == |xs|
    ensures r.Some? ==>
      forall k :: 0 <= k < |xs| ==> r.value[k] == Item(xs[k].name, xs[k].price.value, xs[k].qty.value)
  {
    if xs == [] then Some([])
    else if xs[0].price.None? || xs[0].qty.None? then None
    else
      match Priced(xs[1..])
      case None => None
      case Some(rest) => Some([Item(xs[0].name, xs[0].price.value, xs[0].qty.value)] + rest)
  }

  /** The request's items, when the body has them and `reduce` yields a number. A body without `items`
      makes `items.reduce` throw. */
  function RequestItems(req: OrderRequest): Option<seq<Item>>
  {
    if req.items.None? then None else Priced(req.items.value)
  }

  /** The body items of a client that sends each item with its price and quantity. */
  function Sent(items: seq<Item>): (r: seq<OrderItem>)
    ensures |r| == |items|
    ensures forall k :: 0 <= k < |r| ==> r[k] == OrderItem(items[k].name, Some(items[k].price), Some(items[k].qty))
  {
    seq(|items|, k requires 0 <= k < |items| => OrderItem(items[k].name, Some(items[k].price), Some(items[k].qty)))
  }

  /** Sending every price and quantity gives back the items themselves. */
  lemma PricedSent(items: seq<Item>)
    ensures Priced(Sent(items)) == Some(items)
  {
    var r := Priced(Sent(items));
    assert r.Some?;
    assert r.value == items;
  }

  /** The document handed to `Order.create`: no `table_number`, and no payment status. */
  function OrderDocument(req: OrderRequest, items: seq<Item>, now: nat, qrCodeUrl: string): OrderInput
  {
    OrderInput(
      OrderIdFor(now), items, req.customerName, req.phone,
      PaymentInput(Some("QR"), Amount(items), qrCodeUrl, None),
      Some(PendingPayment),
      None)
  }

  /** The order the route stores, when the items are priced and the schema accepts the document. */
  function NewOrder(req: OrderRequest, now: nat, qrCodeUrl: string): Option<Order>
  {
    var items := RequestItems(req);
    if items.None? then None else OrderModel.Create(OrderDocument(req, items.value, now, qrCodeUrl), now)
  }

  /** An order is stored exactly when the body has items, each with a price and a quantity, and a name
      and a phone. It is `pending_payment`, paid by "QR" with status `pending`, for Σ price × qty of
      the submitted items, under the id built from the timestamp, and at table `null` whatever table
      the request named. */
  lemma NewOrderShape(req: OrderRequest, now: nat, qrCodeUrl: string)
    ensures NewOrder(req, now, qrCodeUrl).Some? <==>
      RequestItems(req).Some? && req.customerName != "" && req.phone != ""
    ensures NewOrder(req, now, qrCodeUrl).Some? ==>
      var o := NewOrder(req, now, qrCodeUrl).value;
      var items := RequestItems(req).value;
      && o.orderId == OrderIdFor(now)
      && o.items == items && o.customerName == req.customerName && o.phone == req.phone
      && o.status == PendingPayment
      && o.payment == Payment("QR", Amount(items), qrCodeUrl, Pending)
      && o.tableNumber == None
      && o.createdAt == now
  {
  }

  /** A body without `items`, or with an item missing its price or quantity, stores nothing. */
  lemma UnpricedRefused(req: OrderRequest, now: nat, qrCodeUrl: string)
    requires req.items.None? || exists k :: 0 <= k < |req.items.value| && (req.items.value[k].price.None? || req.items.value[k].qty.None?)
    ensures NewOrder(req, now, qrCodeUrl).None?
  {
  }

  datatype PlaceResult = Placed(orderId: string, qrCodeUrl: string) | ServerError

  /** `/create-order`. `toDataUrl` stands for the QR image encoder. A body without items or with an
      unpriced item fails, the schema refuses an empty name or phone, and the unique index refuses a
      second order in the same millisecond; each way the answer is a 500 and nothing is stored. */
  method CreateOrder(db: Store.Db, req: OrderRequest, now: nat, toDataUrl: string -> string)
    returns (r: PlaceResult)
    requires db.Valid()
    modifies db
    ensures db.Valid()
    ensures db.bills == old(db.bills) && db.products == old(db.products)
    ensures db.bookings == old(db.bookings) && db.users == old(db.users) && db.nextId == old(db.nextId)
    ensures r.Placed? <==>
      RequestItems(req).Some? && req.customerName != "" && req.phone != ""
      && forall i :: 0 <= i < |old(db.orders)| ==> old(db.orders)[i].orderId != OrderIdFor(now)
    ensures r.Placed? ==>
      && r.orderId == OrderIdFor(now)
      && r.qrCodeUrl == toDataUrl(UpiLink(Amount(RequestItems(req).value), OrderIdFor(now)))
      && NewOrder(req, now, r.qrCodeUrl).Some?
      && db.orders == old(db.orders) + [NewOrder(req, now, r.qrCodeUrl).value]
      && db.orders[|db.orders| - 1].orderId == r.orderId
    ensures r.ServerError? ==> db.orders == old(db.orders)
  {
    var items := RequestItems(req);
    if items.None? {
      return ServerError;
    }
    var orderId := OrderIdFor(now);
    var amount := Amount(items.value);
    var qrCodeUrl := toDataUrl(UpiLink(amount, orderId));
    var created := NewOrder(req, now, qrCodeUrl);
    if created.None? {
      return ServerError;
    }
    if exists i :: 0 <= i < |db.orders| && db.orders[i].orderId == orderId {
      return ServerError;
    }
    db.orders := db.orders + [created.value];
    r := Placed(orderId, qrCodeUrl);
  }
}
