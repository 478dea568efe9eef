/** The admin controllers that change the stores: the pending-order state machine, bill generation at
    the counter, and account creation; and the two order listings. */
module AdminControllers {
  import opened Common
  import opened OrderModel
  import opened BillModel
  import opened UserModel
  import Store

  // ---------------------------------------------------------------------------------------------
  // update_PendingOrders

  /** The two statuses an admin may move a pending order to. */
  datatype Target = ToCompleted | ToCancelled

  /** `["completed", "cancelled"].includes(status)`. */
  function ParseTarget(status: string): (r: Option<Target>)
    ensures r == Some(ToCompleted) <==> status == "completed"
    ensures r == Some(ToCancelled) <==> status == "cancelled"
  {
    if status == "completed" then Some(ToCompleted)
    else if status == "cancelled" then Some(ToCancelled)
    else None
  }

  /** The responses: 400 for missing fields, 400 for an unknown status, 404, 400 for an order that is not
      pending, 200 for each transition, and 500 when the bill cannot be created. */
  datatype UpdateResult = MissingFields | InvalidStatus | OrderNotFound | NotPending
                        | MarkedCompleted | MarkedCancelled | ServerError

  /** The order as the handler saves it: completion verifies the payment, cancellation fails it, and no
      other field changes. */
  function Settle(o: Order, t: Target): (o': Order)
    ensures t == ToCompleted ==> o'.status == Completed && o'.payment.status == Verified
    ensures t == ToCancelled ==> o'.status == Cancelled && o'.payment.status == Failed
    ensures o'.orderId == o.orderId && o'.items == o.items
    ensures o'.customerName == o.customerName && o'.phone == o.phone
    ensures o'.payment.methodName == o.payment.methodName && o'.payment.amount == o.payment.amount
    ensures o'.payment.qrCodeUrl == o.payment.qrCodeUrl
    ensures o'.tableNumber == o.tableNumber && o'.createdAt == o.createdAt
  {
    match t
    case ToCompleted => o.(status := Completed, payment := o.payment.(status := Verified))
    case ToCancelled => o.(status := Cancelled, payment := o.payment.(status := Failed))
  }

  /** An order's items as entries of a bill document; every entry carries its `qty`. */
  function AsBillItems(items: seq<Item>): (r: seq<ItemInput>)
    ensures |r| == |items|
    ensures forall k :: 0 <= k < |items| ==> r[k] == ItemInput(items[k].name, items[k].price, Some(items[k].qty))
  {
    if items == [] then [] else [ItemInput(items[0].name, items[0].price, Some(items[0].qty))] + AsBillItems(items[1..])
  }

  /** The document the handler hands to `Bill.create`. The method is `order.payment.method` itself: the
      "QR" to "UPI" rewrite goes to a variable nothing reads. */
  function BillDocument(o: Order): BillInput
  {
    BillInput(o.customerName, o.phone, AsBillItems(o.items), o.payment.amount, o.payment.methodName)
  }

  /** The bill a completed order produces, if the Bill schema accepts it. */
  function BillForOrder(o: Order, now: int): (r: Option<Bill>)
    ensures r.Some? <==>
      o.customerName != "" && ParseMethod(o.payment.methodName).Some?
      && forall k :: 0 <= k < |o.items| ==> o.items[k].name != ""
    ensures r.Some? ==>
      && r.value.customerName == o.customerName && r.value.customerPhone == o.phone
      && r.value.items == o.items
      && r.value.totalAmount == o.payment.amount
      && Some(r.value.paymentMethod) == ParseMethod(o.payment.methodName)
      && r.value.createdAt == now
  {
    var doc := BillDocument(o);
    assert forall k :: 0 <= k < |doc.items| ==> doc.items[k].name == o.items[k].name;
    var r := BillModel.Create(doc, now);
    if r.Some? then
      assert r.value.items == o.items by {
        assert forall k :: 0 <= k < |o.items| ==> ItemWithDefault(doc.items[k]) == o.items[k];
      }
      ParseMethodIff(o.payment.methodName, r.value.paymentMethod);
      r
    else r
  }

  /** An order placed through the public route is paid by "QR", and its bill records "QR", not "UPI". */
  lemma QrOrderBilledAsQr(o: Order, now: int)
    requires o.payment.methodName == "QR"
    requires BillForOrder(o, now).Some?
    ensures BillForOrder(o, now).value.paymentMethod == QR
  {
  }

  /** `{ orderId }` as a filter. */
  function WithOrderId(orderId: string): Order -> bool
  {
    (o: Order) => o.orderId == orderId
  }

  /** The position of the first order with the given id (`Order.findOne({ orderId })`). */
  function FirstIndex(orders: seq<Order>, orderId: string): (r: Option<nat>)
    ensures r.Some? ==> r.value < |orders| && orders[r.value].orderId == orderId
    ensures r.Some? ==> forall j :: 0 <= j < r.value ==> orders[j].orderId != orderId
    ensures r.None? ==> forall j :: 0 <= j < |orders| ==> orders[j].orderId != orderId
  {
    FirstWhere(orders, WithOrderId(orderId))
  }

  /** The collections after a request, and the response. */
  datatype Outcome = Outcome(result: UpdateResult, orders: seq<Order>, bills: seq<Bill>)

  /** `update_PendingOrders` on the two collections: the checks in the handler's order, the save of the
      settled order, then, on completion, `Bill.create`. The order is saved before the bill is
      attempted, so a bill the schema refuses leaves the order completed and answers 500. */
  function Update(orders: seq<Order>, bills: seq<Bill>, orderId: string, status: string, now: int): Outcome
  {
    if orderId == "" || status == "" then Outcome(MissingFields, orders, bills)
    else if ParseTarget(status).None? then Outcome(InvalidStatus, orders, bills)
    else
      var found := FirstIndex(orders, orderId);
      if found.None? then Outcome(OrderNotFound, orders, bills)
      else
        var i := found.value;
        if orders[i].status != PendingPayment then Outcome(NotPending, orders, bills)
        else
          var settled := Settle(orders[i], ParseTarget(status).value);
          var orders' := orders[i := settled];
          if ParseTarget(status).value == ToCancelled then Outcome(MarkedCancelled, orders', bills)
          else
            var bill := BillForOrder(settled, now);
            if bill.None? then Outcome(ServerError, orders', bills)
            else Outcome(MarkedCompleted, orders', bills + [bill.value])
  }

  /** Missing fields and unknown statuses are refused before the lookup, and nothing changes. */
  lemma UpdateRejectsBadRequest(orders: seq<Order>, bills: seq<Bill>, orderId: string, status: string, now: int)
    requires orderId == "" || status == "" || (status != "completed" && status != "cancelled")
    ensures var out := Update(orders, bills, orderId, status, now);
      && out.result == (if orderId == "" || status == "" then MissingFields else InvalidStatus)
      && out.orders == orders && out.bills == bills
  {
  }

  /** An id no order carries answers 404, and nothing changes. */
  lemma UpdateUnknownOrder(orders: seq<Order>, bills: seq<Bill>, orderId: string, status: string, now: int)
    requires orderId != "" && ParseTarget(status).Some?
    requires forall j :: 0 <= j < |orders| ==> orders[j].orderId != orderId
    ensures Update(orders, bills, orderId, status, now) == Outcome(OrderNotFound, orders, bills)
  {
  }

  /** Only a `pending_payment` order moves; any other answers "not pending" and nothing changes. */
  lemma UpdateRequiresPending(orders: seq<Order>, bills: seq<Bill>, orderId: string, status: string, now: int, i: nat)
    requires orderId != "" && ParseTarget(status).Some?
    requires i < |orders| && orders[i].orderId == orderId && orders[i].status != PendingPayment
    requires forall j :: 0 <= j < |orders| && j != i ==> orders[j].orderId != orderId
    ensures Update(orders, bills, orderId, status, now) == Outcome(NotPending, orders, bills)
  {
    assert FirstIndex(orders, orderId) == Some(i);
  }

  /** Completing the pending order with the id settles exactly that order and appends exactly one bill,
      with the order's customer, phone, items and amount, when the Bill schema accepts it. */
  lemma UpdateCompletes(orders: seq<Order>, bills: seq<Bill>, orderId: string, now: int, i: nat)
    requires orderId != ""
    requires i < |orders| && orders[i].orderId == orderId && orders[i].status == PendingPayment
    requires forall j :: 0 <= j < |orders| && j != i ==> orders[j].orderId != orderId
    ensures var out := Update(orders, bills, orderId, "completed", now);
      && out.orders == orders[i := Settle(orders[i], ToCompleted)]
      && out.orders[i].status == Completed && out.orders[i].payment.status == Verified
      && (BillForOrder(orders[i], now).Some? ==>
            out.result == MarkedCompleted && out.bills == bills + [BillForOrder(orders[i], now).value])
      && (BillForOrder(orders[i], now).None? ==> out.result == ServerError && out.bills == bills)
  {
    assert FirstIndex(orders, orderId) == Some(i);
    assert BillForOrder(Settle(orders[i], ToCompleted), now) == BillForOrder(orders[i], now);
  }

  /** Cancelling the pending order with the id settles exactly that order and creates no bill. */
  lemma UpdateCancels(orders: seq<Order>, bills: seq<Bill>, orderId: string, now: int, i: nat)
    requires orderId != ""
    requires i < |orders| && orders[i].orderId == orderId && orders[i].status == PendingPayment
    requires forall j :: 0 <= j < |orders| && j != i ==> orders[j].orderId != orderId
    ensures var out := Update(orders, bills, orderId, "cancelled", now);
      && out == Outcome(MarkedCancelled, orders[i := Settle(orders[i], ToCancelled)], bills)
      && out.orders[i].status == Cancelled && out.orders[i].payment.status == Failed
  {
    assert FirstIndex(orders, orderId) == Some(i);
  }

  /** Whatever the request, the order collection keeps its length and its ids, and the bill collection
      gains at most one bill at its end. */
  lemma UpdateFrame(orders: seq<Order>, bills: seq<Bill>, orderId: string, status: string, now: int)
    ensures var out := Update(orders, bills, orderId, status, now);
      && |out.orders| == |orders|
      && (forall j :: 0 <= j < |orders| ==> out.orders[j].orderId == orders[j].orderId)
      && (out.bills == bills || (|out.bills| == |bills| + 1 && out.bills[..|bills|] == bills))
      && (|out.bills| == |bills| + 1 <==> out.result == MarkedCompleted)
  {
    var out := Update(orders, bills, orderId, status, now);
    if orderId != "" && status != "" && ParseTarget(status).Some? {
      var found := FirstIndex(orders, orderId);
      if found.Some? && orders[found.value].status == PendingPayment {
        var i := found.value;
        var settled := Settle(orders[i], ParseTarget(status).value);
        assert settled.orderId == orders[i].orderId;
        assert out.orders == orders[i := settled];
        if out.result == MarkedCompleted {
          assert out.bills[..|bills|] == bills;
        }
      }
    }
  }

  /** An order moves at most once: after any transition, a second request on the same id, with either
      valid status, answers "not pending" and changes nothing. */
  lemma {:induction false} SecondTransitionFails(orders: seq<Order>, bills: seq<Bill>, orderId: string,
                                                 s1: string, s2: string, now1: int, now2: int)
    requires ParseTarget(s2).Some?
    requires Update(orders, bills, orderId, s1, now1).result in {MarkedCompleted, MarkedCancelled, ServerError}
    ensures var out := Update(orders, bills, orderId, s1, now1);
      Update(out.orders, out.bills, orderId, s2, now2) == Outcome(NotPending, out.orders, out.bills)
  {
    var out := Update(orders, bills, orderId, s1, now1);
    var i := FirstIndex(orders, orderId).value;
    assert out.orders == orders[i := Settle(orders[i], ParseTarget(s1).value)];
    assert out.orders[i].orderId == orderId;
    assert forall j :: 0 <= j < i ==> out.orders[j].orderId != orderId;
    assert FirstIndex(out.orders, orderId) == Some(i);
  }

  /** `update_PendingOrders`: the saved order is changed in place, then the bill is appended. */
  method UpdatePendingOrders(db: Store.Db, orderId: string, status: string, now: int) returns (r: UpdateResult)
    requires db.Valid()
    modifies db
    ensures db.Valid()
    ensures Update(old(db.orders), old(db.bills), orderId, status, now) == Outcome(r, db.orders, db.bills)
    ensures db.products == old(db.products) && db.bookings == old(db.bookings)
    ensures db.users == old(db.users) && db.nextId == old(db.nextId)
  {
    if orderId == "" || status == "" {
      return MissingFields;
    }
    var target := ParseTarget(status);
    if target.None? {
      return InvalidStatus;
    }
    var found := Find(db.orders, WithOrderId(orderId));
    if found.None? {
      return OrderNotFound;
    }
    var i := found.value;
    var order := db.orders[i];
    if order.status != PendingPayment {
      return NotPending;
    }
    var settled := Settle(order, target.value);
    db.ReplaceOrderAt(i, settled);
    if target.value == ToCancelled {
      return MarkedCancelled;
    }
    var bill := BillForOrder(settled, now);
    if bill.None? {
      return ServerError;
    }
    db.AppendBill(bill.value);
    r := MarkedCompleted;
  }

  // ---------------------------------------------------------------------------------------------
  // createBill

  /** One entry of the request's `items`; `qty` is `None` when it is absent or not a number. */
  datatype RawItem = RawItem(name: string, price: int, qty: Option<int>)

  /** The request body. `items` is `None` when it is absent or not an array; `totalAmount` is what a
      client may send, and the handler never reads it. */
  datatype BillRequest = BillRequest(
    customerName: string,
    customerPhone: Option<string>,
    items: Option<seq<RawItem>>,
    paymentMethod: string,
    totalAmount: Option<int>)

  /** `Number(qty) || 1`: a missing, non-numeric or zero quantity becomes 1. */
  function QtyOrOne(q: Option<int>): (n: int)
    ensures n != 0
    ensures q.Some? && q.value != 0 ==> n == q.value
    ensures q.None? || q.value == 0 ==> n == 1
  {
    if q.Some? && q.value != 0 then q.value else 1
  }

  /** `items.map(itm => ({ name, price: Number(price), qty: Number(qty) || 1 }))`. */
  function Normalize(xs: seq<RawItem>): (r: seq<ItemInput>)
    ensures |r| == |xs|
    ensures forall k :: 0 <= k < |xs| ==> r[k] == ItemInput(xs[k].name, xs[k].price, Some(QtyOrOne(xs[k].qty)))
  {
    if xs == [] then [] else [ItemInput(xs[0].name, xs[0].price, Some(QtyOrOne(xs[0].qty)))] + Normalize(xs[1..])
  }

  /** The server-side total, `items.reduce((sum, item) => sum + price * (Number(qty) || 1), 0)`. */
  function RequestTotal(xs: seq<RawItem>): int
  {
    if xs == [] then 0
    else RequestTotal(xs[..|xs| - 1]) + xs[|xs| - 1].price * QtyOrOne(xs[|xs| - 1].qty)
  }

  /** The total the handler computes is the amount of the items it stores. */
  lemma {:induction false} RequestTotalIsAmount(xs: seq<RawItem>)
    ensures RequestTotal(xs) == Amount(ItemsWithDefault(Normalize(xs)))
    decreases |xs|
  {
    var stored := ItemsWithDefault(Normalize(xs));
    if xs != [] {
      var init := xs[..|xs| - 1];
      RequestTotalIsAmount(init);
      assert stored[..|stored| - 1] == ItemsWithDefault(Normalize(init)) by {
        var a := stored[..|stored| - 1];
        var b := ItemsWithDefault(Normalize(init));
        assert |a| == |b|;
        assert forall k :: 0 <= k < |a| ==> a[k] == b[k];
      }
      assert stored[|stored| - 1] == Item(xs[|xs| - 1].name, xs[|xs| - 1].price, QtyOrOne(xs[|xs| - 1].qty));
    }
  }

  datatype BillError = MissingNameOrMethod | NoItems | Invalid

  /** 201 with the created bill, 400 for either failed check, 500 when the schema refuses the document. */
  datatype BillOutcome = Created(bill: Bill) | Rejected(error: BillError)

  /** The document `createBill` hands to `Bill.create`. */
  function RequestDocument(req: BillRequest, xs: seq<RawItem>): BillInput
  {
    BillInput(req.customerName,
              if req.customerPhone.Some? then req.customerPhone.value else "",
              Normalize(xs), RequestTotal(xs), req.paymentMethod)
  }

  /** `createBill` without the store: the two checks, in order, then the schema. */
  function BuildBill(req: BillRequest, now: int): (r: BillOutcome)
    ensures req.customerName == "" || req.paymentMethod == "" ==> r == Rejected(MissingNameOrMethod)
    ensures req.customerName != "" && req.paymentMethod != "" && (req.items.None? || req.items.value == [])
            ==> r == Rejected(NoItems)
    ensures r.Created? <==>
      && req.customerName != "" && req.items.Some? && req.items.value != []
      && ParseMethod(req.paymentMethod).Some?
      && forall k :: 0 <= k < |req.items.value| ==> req.items.value[k].name != ""
    ensures r.Created? ==>
      && |r.bill.items| == |req.items.value|
      && (forall k :: 0 <= k < |r.bill.items| ==>
            r.bill.items[k] == Item(req.items.value[k].name, req.items.value[k].price, QtyOrOne(req.items.value[k].qty)))
      && r.bill.totalAmount == Amount(r.bill.items)
    ensures r.Created? ==>
      && r.bill.customerName == req.customerName
      && r.bill.customerPhone == (if req.customerPhone.Some? then req.customerPhone.value else "")
      && MethodName(r.bill.paymentMethod) == req.paymentMethod
      && r.bill.createdAt == now
  {
    if req.customerName == "" || req.paymentMethod == "" then Rejected(MissingNameOrMethod)
    else if req.items.None? || req.items.value == [] then Rejected(NoItems)
    else
      var xs := req.items.value;
      var doc := RequestDocument(req, xs);
      var created := BillModel.Create(doc, now);
      if created.None? then Rejected(Invalid)
      else
        RequestTotalIsAmount(xs);
        Created(created.value)
  }

  /** The bill does not depend on any total the client sent. */
  lemma ClientTotalIgnored(req: BillRequest, claimed: Option<int>, now: int)
    ensures BuildBill(req.(totalAmount := claimed), now) == BuildBill(req, now)
  {
  }

  /** Every stored quantity is non-zero, and with non-negative prices and quantities sent the total is
      non-negative. */
  lemma BuildBillTotalNonNegative(req: BillRequest, now: int)
    requires BuildBill(req, now).Created?
    requires forall k :: 0 <= k < |req.items.value| ==>
      req.items.value[k].price >= 0 && (req.items.value[k].qty.None? || req.items.value[k].qty.value >= 0)
    ensures BuildBill(req, now).bill.totalAmount >= 0
    ensures forall k :: 0 <= k < |BuildBill(req, now).bill.items| ==> BuildBill(req, now).bill.items[k].qty >= 1
  {
    var b := BuildBill(req, now).bill;
    AmountNonNegative(b.items);
  }

  /** `createBill`: a created bill is appended; a refused request stores nothing. */
  method CreateBill(db: Store.Db, req: BillRequest, now: int) returns (r: BillOutcome)
    requires db.Valid()
    modifies db
    ensures db.Valid()
    ensures r == BuildBill(req, now)
    ensures db.bills == old(db.bills) + (if r.Created? then [r.bill] else [])
    ensures db.orders == old(db.orders) && db.products == old(db.products)
    ensures db.bookings == old(db.bookings) && db.users == old(db.users) && db.nextId == old(db.nextId)
  {
    r := BuildBill(req, now);
    if r.Created? {
      db.AppendBill(r.bill);
    }
  }

  // ---------------------------------------------------------------------------------------------
  // createAccount

  /** The request body; `password` arrives in clear. */
  datatype AccountRequest = AccountRequest(email: string, username: Option<string>, password: string, role: Option<string>)

  /** 201, or the 500 the thrown "Email already exists" produces, or the 500 of a refused document. */
  datatype AccountResult = Registered | EmailExists | AccountRefused

  /** The document handed to `User.create`: the role defaults to "admin" in the handler, so the
      schema's "user" default never applies on this path; `hash` stands for `bcrypt.hash`. */
  function AccountDocument(req: AccountRequest, hash: string -> string): UserInput
  {
    UserInput(req.email, req.username, hash(req.password), Some(Or(req.role, "admin")))
  }

  /** An account created without a role is an admin account. */
  lemma AccountDefaultsToAdmin(req: AccountRequest, hash: string -> string, id: nat)
    requires req.role.None?
    requires UserModel.Create(AccountDocument(req, hash), id).Some?
    ensures UserModel.Create(AccountDocument(req, hash), id).value.role == AdminRole
  {
  }

  /** `createAccount`. The lookup applies the email's setters to the filter, so it finds an account
      whose stored email is the normalised request email. */
  method CreateAccount(db: Store.Db, req: AccountRequest, hash: string -> string) returns (r: AccountResult)
    requires db.Valid()
    modifies db
    ensures db.Valid()
    ensures r == EmailExists <==>
      exists i :: 0 <= i < |old(db.users)| && old(db.users)[i].email == NormalizeEmail(req.email)
    ensures r == Registered ==>
      && UserModel.Create(AccountDocument(req, hash), old(db.nextId)).Some?
      && db.users == old(db.users) + [UserModel.Create(AccountDocument(req, hash), old(db.nextId)).value]
      && db.nextId == old(db.nextId) + 1
    ensures r == AccountRefused ==> UserModel.Create(AccountDocument(req, hash), old(db.nextId)).None?
    ensures r != Registered ==> db.users == old(db.users) && db.nextId == old(db.nextId)
    ensures db.orders == old(db.orders) && db.bills == old(db.bills)
    ensures db.products == old(db.products) && db.bookings == old(db.bookings)
  {
    var email := NormalizeEmail(req.email);
    if exists i :: 0 <= i < |db.users| && db.users[i].email == email {
      return EmailExists;
    }
    var created := UserModel.Create(AccountDocument(req, hash), db.nextId);
    if created.None? {
      return AccountRefused;
    }
    db.AppendUser(created.value);
    r := Registered;
  }

  // ---------------------------------------------------------------------------------------------
  // getPendingOrders, showTodayOrders

  /** `Order.find({ status: "pending_payment" })`, in collection order. */
  function PendingOrders(orders: seq<Order>): (r: seq<Order>)
    ensures forall o :: o in r <==> o in orders && o.status == PendingPayment
    ensures |r| <= |orders|
  {
    Filter(orders, (o: Order) => o.status == PendingPayment)
  }

  /** The completed orders created within the day `[dayStart, dayEnd]`, in collection order. */
  function TodayOrders(orders: seq<Order>, dayStart: int, dayEnd: int): (r: seq<Order>)
    ensures forall o :: o in r <==> o in orders && o.status == Completed && dayStart <= o.createdAt <= dayEnd
    ensures |r| <= |orders|
  {
    Filter(orders, (o: Order) => o.status == Completed && dayStart <= o.createdAt <= dayEnd)
  }

  /** A settled order is no longer on the pending list. */
  lemma SettledLeavesPending(orders: seq<Order>, bills: seq<Bill>, orderId: string, status: string, now: int)
    requires Update(orders, bills, orderId, status, now).result in {MarkedCompleted, MarkedCancelled, ServerError}
    ensures Update(orders, bills, orderId, status, now).orders[FirstIndex(orders, orderId).value] !in
      PendingOrders(Update(orders, bills, orderId, status, now).orders)
  {
  }
}
