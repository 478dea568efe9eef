/** The TableBooking collection's schema. */
module TableModel {
  import opened Common

  /** A stored booking; `time` is `None` for the `null` a booking without a requested time gets. */
  datatype Booking = Booking(id: nat, name: string, phone: string, guests: int, time: Option<int>, createdAt: int)

  /** `name`, `phone` and `guests` are required. */
  predicate HasRequired(name: string, phone: string, guests: Option<int>)
  {
    name != "" && phone != "" && guests.Some?
  }
}
