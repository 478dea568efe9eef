/** The Bill collection's schema. It declares no bill identifier of its own: a bill is its customer,
    items, total, payment method and creation time. */
module BillModel {
  import opened Common

  /** `paymentMethod`: enum ["Cash", "UPI", "Card", "QR"], required. */
  datatype PaymentMethod = Cash | UPI | Card | QR

  /** A stored bill. `customerPhone` is optional in the schema; both creation paths store a string. */
  datatype Bill = Bill(
    customerName: string,
    customerPhone: string,
    items: seq<Item>,
    totalAmount: int,
    paymentMethod: PaymentMethod,
    createdAt: int)

  /** The spelling of each enum member. */
  function MethodName(m: PaymentMethod): string
  {
    match m
    case Cash => "Cash"
    case UPI => "UPI"
    case Card => "Card"
    case QR => "QR"
  }

  /** The enum validator: the member a string names, if any. */
  function ParseMethod(s: string): (r: Option<PaymentMethod>)
  {
    if s == "Cash" then Some(Cash)
    else if s == "UPI" then Some(UPI)
    else if s == "Card" then Some(Card)
    else if s == "QR" then Some(QR)
    else None
  }

  /** The validator accepts exactly the four spellings, each naming its own member. */
  lemma ParseMethodIff(s: string, m: PaymentMethod)
    ensures ParseMethod(s) == Some(m) <==> s == MethodName(m)
  {
  }

  /** One entry of a document's `items` array; an omitted `qty` is `None`. */
  datatype ItemInput = ItemInput(name: string, price: int, qty: Option<int>)

  /** A document handed to `Bill.create`. */
  datatype BillInput = BillInput(
    customerName: string,
    customerPhone: string,
    items: seq<ItemInput>,
    totalAmount: int,
    paymentMethod: string)

  /** An item entry with its `qty` default of 1 applied. */
  function ItemWithDefault(x: ItemInput): Item
  {
    Item(x.name, x.price, if x.qty.Some? then x.qty.value else 1)
  }

  function ItemsWithDefault(xs: seq<ItemInput>): (r: seq<Item>)
    ensures |r| == |xs|
    ensures forall k :: 0 <= k < |xs| ==> r[k] == ItemWithDefault(xs[k])
  {
    if xs == [] then [] else [ItemWithDefault(xs[0])] + ItemsWithDefault(xs[1..])
  }

  /** The schema's validators: required customer name, required item names, the method enum. */
  predicate Validates(doc: BillInput)
  {
    && doc.customerName != ""
    && (forall k :: 0 <= k < |doc.items| ==> doc.items[k].name != "")
    && ParseMethod(doc.paymentMethod).Some?
  }

  /** What every stored bill satisfies at the level of its own document. */
  ghost predicate WellFormed(b: Bill)
  {
    b.customerName != "" && forall k :: 0 <= k < |b.items| ==> b.items[k].name != ""
  }

  /** `Bill.create(doc)`: validation, then the defaults (`qty` 1, `createdAt` now). */
  function Create(doc: BillInput, now: int): (r: Option<Bill>)
    ensures r.Some? <==> Validates(doc)
    ensures r.Some? ==> WellFormed(r.value)
    ensures r.Some? ==> r.value.customerName == doc.customerName && r.value.customerPhone == doc.customerPhone
    ensures r.Some? ==> r.value.totalAmount == doc.totalAmount && r.value.createdAt == now
    ensures r.Some? ==> MethodName(r.value.paymentMethod) == doc.paymentMethod
    ensures r.Some? ==> r.value.items == ItemsWithDefault(doc.items)
  {
    if !Validates(doc) then None
    else Some(Bill(doc.customerName, doc.customerPhone, ItemsWithDefault(doc.items), doc.totalAmount,
                   ParseMethod(doc.paymentMethod).value, now))
  }
}
