/** The Order collection's schema: fields, the two status enums and their defaults. */
module OrderModel {
  import opened Common

  /** `status`: enum ["pending_payment", "processing", "completed", "cancelled"]. */
  datatype OrderStatus = PendingPayment | Processing | Completed | Cancelled

  /** `payment.status`: enum ["pending", "verified", "failed"]. */
  datatype PaymentStatus = Pending | Verified | Failed

  /** The nested payment record. `method` (here `methodName`) is a free string in the schema (default "QR"). */
  datatype Payment = Payment(methodName: string, amount: int, qrCodeUrl: string, status: PaymentStatus)

  /** A stored order. `tableNumber` is `None` for the schema's `null`. */
  datatype Order = Order(
    orderId: string,
    items: seq<Item>,
    customerName: string,
    phone: string,
    payment: Payment,
    status: OrderStatus,
    tableNumber: Option<int>,
    createdAt: int)

  /** The payment part of a document handed to `Order.create`; `None` marks an omitted field. */
  datatype PaymentInput = PaymentInput(methodName: Option<string>, amount: int, qrCodeUrl: string, status: Option<PaymentStatus>)

  /** A document handed to `Order.create`; `None` marks an omitted field. */
  datatype OrderInput = OrderInput(
    orderId: string,
    items: seq<Item>,
    customerName: string,
    phone: string,
    payment: PaymentInput,
    status: Option<OrderStatus>,
    tableNumber: Option<int>)

  const DefaultMethod: string := "QR"

  /** The `required: true` fields. A required string is missing when it is empty. */
  predicate HasRequired(doc: OrderInput)
  {
    doc.orderId != "" && doc.customerName != "" && doc.phone != ""
  }

  /** What every stored order satisfies at the level of its own document. */
  ghost predicate WellFormed(o: Order)
  {
    o.orderId != "" && o.customerName != "" && o.phone != ""
  }

  /** `Order.create(doc)` before the unique-index check: schema validation, then the defaults. */
  function Create(doc: OrderInput, now: int): (r: Option<Order>)
    ensures r.Some? <==> HasRequired(doc)
    ensures r.Some? ==> WellFormed(r.value)
    ensures r.Some? ==> r.value.orderId == doc.orderId && r.value.items == doc.items
    ensures r.Some? ==> r.value.customerName == doc.customerName && r.value.phone == doc.phone
    ensures r.Some? ==> r.value.payment.amount == doc.payment.amount
    ensures r.Some? ==> r.value.payment.qrCodeUrl == doc.payment.qrCodeUrl && r.value.createdAt == now
  {
    if !HasRequired(doc) then None
    else Some(Order(
      doc.orderId, doc.items, doc.customerName, doc.phone,
      Payment(Or(doc.payment.methodName, DefaultMethod), doc.payment.amount, doc.payment.qrCodeUrl,
              Or(doc.payment.status, Pending)),
      Or(doc.status, PendingPayment),
      doc.tableNumber,
      now))
  }

  /** The schema defaults: an order created without status, payment method, payment status and table
      number is `pending_payment`, paid by "QR", payment `pending`, at table `null`. */
  lemma CreateDefaults(doc: OrderInput, now: int)
    requires HasRequired(doc)
    requires doc.status == None && doc.payment.methodName == None && doc.payment.status == None
    requires doc.tableNumber == None
    ensures Create(doc, now).Some?
    ensures Create(doc, now).value.status == PendingPayment
    ensures Create(doc, now).value.payment.methodName == "QR"
    ensures Create(doc, now).value.payment.status == Pending
    ensures Create(doc, now).value.tableNumber == None
  {
  }

  /** Explicit values override the defaults. */
  lemma CreateOverrides(doc: OrderInput, now: int, s: OrderStatus, m: string, ps: PaymentStatus)
    requires HasRequired(doc)
    requires doc.status == Some(s) && doc.payment.methodName == Some(m) && doc.payment.status == Some(ps)
    ensures Create(doc, now).Some?
    ensures Create(doc, now).value.status == s
    ensures Create(doc, now).value.payment.methodName == m
    ensures Create(doc, now).value.payment.status == ps
    ensures Create(doc, now).value.tableNumber == doc.tableNumber
  {
  }
}
