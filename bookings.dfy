/** The table-booking routes: `/book` stores a booking, `/upcoming-bookings` lists the next seven days'
    bookings in time order. Times are milliseconds since the epoch. */
module Bookings {
  import opened Common
  import opened Sorting
  import opened TableModel
  import Store

  /** The body of `/book`. A missing name or phone is "", a missing guest count `None`. */
  datatype BookRequest = BookRequest(name: string, phone: string, guests: Option<int>, time: Option<int>)

  /** `!name || !phone || !guests`: an empty name or phone, or a missing or zero guest count. */
  predicate Refused(req: BookRequest)
  {
    req.name == "" || req.phone == "" || req.guests.None? || req.guests.value == 0
  }

  /** `time ? new Date(time) : null`: a missing or zero time is stored as `null`. */
  function BookedTime(time: Option<int>): (r: Option<int>)
    ensures r.Some? <==> time.Some? && time.value != 0
    ensures r.Some? ==> r == time
  {
    if time.Some? && time.value != 0 then time else None
  }

  /** 201 with the stored booking, or 400. */
  datatype BookResult = Booked(booking: Booking) | MissingDetails

  /** `/book`: a refused request stores nothing; otherwise the booking is stored under a fresh key with
      the request's fields and `createdAt` now, and echoed back. The schema's `required` validators always
      pass once the handler's own check has. */
  method Book(db: Store.Db, req: BookRequest, now: int) returns (r: BookResult)
    requires db.Valid()
    modifies db
    ensures db.Valid()
    ensures r == MissingDetails <==> Refused(req)
    ensures r.Booked? ==>
      && r.booking == Booking(old(db.nextId), req.name, req.phone, req.guests.value, BookedTime(req.time), now)
      && HasRequired(r.booking.name, r.booking.phone, Some(r.booking.guests))
      && db.bookings == old(db.bookings) + [r.booking]
      && db.nextId == old(db.nextId) + 1
    ensures r == MissingDetails ==> db.bookings == old(db.bookings) && db.nextId == old(db.nextId)
    ensures db.orders == old(db.orders) && db.bills == old(db.bills)
    ensures db.products == old(db.products) && db.users == old(db.users)
  {
    if Refused(req) {
      return MissingDetails;
    }
    var booking := Booking(db.nextId, req.name, req.phone, req.guests.value, BookedTime(req.time), now);
    db.AppendBooking(booking);
    r := Booked(booking);
  }

  /** `sevenDaysLater.setDate(now.getDate() + 7)`, taken as seven days of milliseconds. */
  const Week: int := 7 * 24 * 60 * 60 * 1000

  /** `time: { $gte: now, $lte: sevenDaysLater }`; a `null` time matches neither bound. */
  function InWindow(now: int): Booking -> bool
  {
    (b: Booking) => b.time.Some? && now <= b.time.value <= now + Week
  }

  /** `sort({ time: 1 })` on bookings that all have a time. */
  function TimeKey(b: Booking): int
  {
    if b.time.Some? then b.time.value else 0
  }

  /** `/upcoming-bookings` at time `now`. */
  function Upcoming(bookings: seq<Booking>, now: int): (r: seq<Booking>)
    ensures multiset(r) == multiset(Filter(bookings, InWindow(now)))
    ensures SortedBy(r, TimeKey)
  {
    SortBy(Filter(bookings, InWindow(now)), TimeKey)
  }

  /** A booking is listed exactly when it has a time within the next seven days. */
  lemma UpcomingIff(bookings: seq<Booking>, now: int, b: Booking)
    ensures b in Upcoming(bookings, now) <==>
      b in bookings && b.time.Some? && now <= b.time.value <= now + Week
  {
    SameElements(Upcoming(bookings, now), Filter(bookings, InWindow(now)));
  }

  /** The listing is in ascending order of time, and every listed booking has a time. */
  lemma UpcomingInTimeOrder(bookings: seq<Booking>, now: int)
    ensures forall k :: 0 <= k < |Upcoming(bookings, now)| ==> Upcoming(bookings, now)[k].time.Some?
    ensures forall i, j :: 0 <= i < j < |Upcoming(bookings, now)| ==>
      Upcoming(bookings, now)[i].time.value <= Upcoming(bookings, now)[j].time.value
  {
    var r := Upcoming(bookings, now);
    var f := Filter(bookings, InWindow(now));
    SameElements(r, f);
    assert forall k :: 0 <= k < |r| ==> r[k] in f;
    assert forall k :: 0 <= k < |r| ==> r[k].time.Some?;
    assert forall i, j :: 0 <= i < j < |r| ==> TimeKey(r[i]) <= TimeKey(r[j]);
  }

  /** A booking made without a time never appears in the listing. */
  lemma UntimedNeverUpcoming(bookings: seq<Booking>, now: int, b: Booking)
    requires b.time.None?
    ensures b !in Upcoming(bookings, now)
  {
    UpcomingIff(bookings, now, b);
  }
}
