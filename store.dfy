/** The database: one in-memory sequence per collection, and the allocator of storage keys (`_id`).
    The controllers are methods that take the database and say exactly how each collection changes. */
module Store {
  import opened OrderModel
  import opened BillModel
  import opened ProductModel
  import opened TableModel
  import opened UserModel

  /** `orderId` carries a unique index. */
  ghost predicate OrderIdsUnique(orders: seq<Order>)
  {
    forall i, j :: 0 <= i < j < |orders| ==> orders[i].orderId != orders[j].orderId
  }

  /** `email` carries a unique index. */
  ghost predicate EmailsUnique(users: seq<User>)
  {
    forall i, j :: 0 <= i < j < |users| ==> users[i].email != users[j].email
  }

  ghost predicate ProductKeysBelow(products: seq<Product>, bound: nat)
  {
    (forall i :: 0 <= i < |products| ==> products[i].id < bound)
    && forall i, j :: 0 <= i < j < |products| ==> products[i].id != products[j].id
  }

  ghost predicate BookingKeysBelow(bookings: seq<Booking>, bound: nat)
  {
    (forall i :: 0 <= i < |bookings| ==> bookings[i].id < bound)
    && forall i, j :: 0 <= i < j < |bookings| ==> bookings[i].id != bookings[j].id
  }

  ghost predicate UserKeysBelow(users: seq<User>, bound: nat)
  {
    (forall i :: 0 <= i < |users| ==> users[i].id < bound)
    && forall i, j :: 0 <= i < j < |users| ==> users[i].id != users[j].id
  }

  /** A record stored under the allocator's key keeps the product keys distinct and below the next one. */
  lemma ProductAppended(products: seq<Product>, p: Product, bound: nat)
    requires ProductKeysBelow(products, bound) && p.id == bound
    ensures ProductKeysBelow(products + [p], bound + 1)
  {
  }

  lemma BookingAppended(bookings: seq<Booking>, b: Booking, bound: nat)
    requires BookingKeysBelow(bookings, bound) && b.id == bound
    ensures BookingKeysBelow(bookings + [b], bound + 1)
  {
  }

  lemma UserAppended(users: seq<User>, u: User, bound: nat)
    requires UserKeysBelow(users, bound) && u.id == bound
    ensures UserKeysBelow(users + [u], bound + 1)
  {
  }

  /** Raising the allocator keeps every key below it. */
  lemma ProductBoundGrows(products: seq<Product>, bound: nat)
    requires ProductKeysBelow(products, bound)
    ensures ProductKeysBelow(products, bound + 1)
  {
  }

  lemma BookingBoundGrows(bookings: seq<Booking>, bound: nat)
    requires BookingKeysBelow(bookings, bound)
    ensures BookingKeysBelow(bookings, bound + 1)
  {
  }

  lemma UserBoundGrows(users: seq<User>, bound: nat)
    requires UserKeysBelow(users, bound)
    ensures UserKeysBelow(users, bound + 1)
  {
  }

  class Db {
    var orders: seq<Order>
    var bills: seq<Bill>
    var products: seq<Product>
    var bookings: seq<Booking>
    var users: seq<User>
    /** The next storage key to hand out. */
    var nextId: nat

    /** The unique indexes hold, every key is below the allocator, and every stored order and bill
        passed its schema's validators. */
    ghost predicate Valid()
      reads this
    {
      && OrderIdsUnique(orders)
      && EmailsUnique(users)
      && ProductKeysBelow(products, nextId)
      && BookingKeysBelow(bookings, nextId)
      && UserKeysBelow(users, nextId)
      && (forall i :: 0 <= i < |orders| ==> OrderModel.WellFormed(orders[i]))
      && (forall i :: 0 <= i < |bills| ==> BillModel.WellFormed(bills[i]))
    }

    /** Stores a new product under the allocator's key and advances the allocator. */
    method AppendProduct(p: Product)
      requires Valid() && p.id == nextId
      modifies this
      ensures Valid()
      ensures products == old(products) + [p] && nextId == old(nextId) + 1
      ensures orders == old(orders) && bills == old(bills) && bookings == old(bookings) && users == old(users)
    {
      ProductAppended(products, p, nextId);
      BookingBoundGrows(bookings, nextId);
      UserBoundGrows(users, nextId);
      products := products + [p];
      nextId := nextId + 1;
    }

    /** Stores a new booking under the allocator's key and advances the allocator. */
    method AppendBooking(b: Booking)
      requires Valid() && b.id == nextId
      modifies this
      ensures Valid()
      ensures bookings == old(bookings) + [b] && nextId == old(nextId) + 1
      ensures orders == old(orders) && bills == old(bills) && products == old(products) && users == old(users)
    {
      BookingAppended(bookings, b, nextId);
      ProductBoundGrows(products, nextId);
      UserBoundGrows(users, nextId);
      bookings := bookings + [b];
      nextId := nextId + 1;
    }

    /** Stores a new account under the allocator's key; its email is not yet taken. */
    method AppendUser(u: User)
      requires Valid() && u.id == nextId
      requires forall j :: 0 <= j < |users| ==> users[j].email != u.email
      modifies this
      ensures Valid()
      ensures users == old(users) + [u] && nextId == old(nextId) + 1
      ensures orders == old(orders) && bills == old(bills) && products == old(products) && bookings == old(bookings)
    {
      UserAppended(users, u, nextId);
      ProductBoundGrows(products, nextId);
      BookingBoundGrows(bookings, nextId);
      users := users + [u];
      nextId := nextId + 1;
    }

    /** Saves a changed order in place; its `orderId` stays the same. */
    method ReplaceOrderAt(i: nat, o: Order)
      requires Valid() && i < |orders|
      requires o.orderId == orders[i].orderId && OrderModel.WellFormed(o)
      modifies this
      ensures Valid()
      ensures orders == old(orders)[i := o]
      ensures bills == old(bills) && products == old(products) && bookings == old(bookings)
      ensures users == old(users) && nextId == old(nextId)
    {
      ghost var before := orders;
      orders := orders[i := o];
      assert forall j :: 0 <= j < |orders| ==> orders[j].orderId == before[j].orderId;
    }

    /** Stores a bill that passed its schema's validators. */
    method AppendBill(b: Bill)
      requires Valid() && BillModel.WellFormed(b)
      modifies this
      ensures Valid()
      ensures bills == old(bills) + [b]
      ensures orders == old(orders) && products == old(products) && bookings == old(bookings)
      ensures users == old(users) && nextId == old(nextId)
    {
      bills := bills + [b];
    }

    /** Removes the product at position `i`; the others keep their order. */
    method RemoveProductAt(i: nat)
      requires Valid() && i < |products|
      modifies this
      ensures Valid()
      ensures products == old(products)[..i] + old(products)[i + 1..]
      ensures forall p :: p in old(products) && p != old(products)[i] ==> p in products
      ensures forall j :: 0 <= j < |products| ==> products[j].id != old(products)[i].id
      ensures orders == old(orders) && bills == old(bills) && bookings == old(bookings)
      ensures users == old(users) && nextId == old(nextId)
    {
      ghost var before := products;
      products := products[..i] + products[i + 1..];
      assert forall j :: 0 <= j < |products| ==> products[j] == (if j < i then before[j] else before[j + 1]);
      forall p | p in before && p != before[i]
        ensures p in products
      {
        var j :| 0 <= j < |before| && before[j] == p;
        if j < i {
          assert products[j] == p;
        } else {
          assert products[j - 1] == p;
        }
      }
    }

    constructor ()
      ensures Valid()
      ensures orders == [] && bills == [] && products == [] && bookings == [] && users == []
    {
      orders, bills, products, bookings, users := [], [], [], [], [];
      nextId := 0;
    }
  }
}
