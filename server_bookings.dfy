/** The booking routes: create, list the caller's bookings, and read, update
    or delete one booking, owner only. */
module ServerBookings {

  import opened Common
  import opened Crypto

  /** A stored booking. The route checks neither that the listing exists nor
      that check-out follows check-in. */
  datatype Booking = Booking(listingId: ListingId, userId: UserId, checkIn: Day, checkOut: Day)

  /** The body of `POST /`, including any `userId` the client might send. */
  datatype BookingBody = BookingBody(listingId: ListingId, userId: Option<UserId>, checkIn: Day, checkOut: Day)

  /** The dates of a `PUT /:id` body; `None` for a missing or falsy value. */
  datatype DatesPatch = DatesPatch(checkIn: Option<Day>, checkOut: Option<Day>)

  /** The gate in front of every `/:id` route: 404 when the booking does not
      exist, checked before 403 when it belongs to someone else. */
  function Gate(bookings: map<BookingId, Booking>, caller: UserId, id: BookingId): (s: Status)
    ensures s == OK <==> id in bookings && bookings[id].userId == caller
    ensures id !in bookings ==> s == NOT_FOUND
    ensures id in bookings && bookings[id].userId != caller ==> s == FORBIDDEN
  {
    if id !in bookings then NOT_FOUND
    else if bookings[id].userId != caller then FORBIDDEN
    else OK
  }

  /** `checkIn || booking.checkIn`, `checkOut || booking.checkOut`: only the
      dates change, and only those given. */
  function Reschedule(b: Booking, p: DatesPatch): (r: Booking)
    ensures r.listingId == b.listingId && r.userId == b.userId
    ensures r.checkIn == (if p.checkIn.Some? then p.checkIn.value else b.checkIn)
    ensures r.checkOut == (if p.checkOut.Some? then p.checkOut.value else b.checkOut)
  {
    b.(checkIn := p.checkIn.GetOr(b.checkIn), checkOut := p.checkOut.GetOr(b.checkOut))
  }

  /** Sending the same update twice is sending it once, and a body without
      dates leaves the booking as it was. */
  lemma RescheduleIdempotent(b: Booking, p: DatesPatch)
    ensures Reschedule(Reschedule(b, p), p) == Reschedule(b, p)
    ensures Reschedule(b, DatesPatch(None, None)) == b
  {
  }

  class BookingTable {
    var bookings: map<BookingId, Booking>
    var nextId: BookingId

    ghost predicate Valid()
      reads this
    {
      forall id :: id in bookings ==> id < nextId
    }

    constructor ()
      ensures Valid() && bookings == map[]
    {
      bookings := map[];
      nextId := 0;
    }

    /** `POST /`: stores the listing and the dates as given, for the caller. */
    method Create(caller: Claims, body: BookingBody) returns (status: Status, id: BookingId)
      requires Valid()
      modifies this
      ensures Valid()
      ensures status == CREATED && id !in old(bookings)
      ensures bookings == old(bookings)[id := Booking(body.listingId, caller.id, body.checkIn, body.checkOut)]
    {
      id := nextId;
      bookings := bookings[id := Booking(body.listingId, caller.id, body.checkIn, body.checkOut)];
      nextId := nextId + 1;
      status := CREATED;
    }

    /** `GET /my-bookings`: exactly the caller's bookings. */
    method MyBookings(caller: Claims) returns (mine: map<BookingId, Booking>)
      ensures forall id :: id in mine <==> id in bookings && bookings[id].userId == caller.id
      ensures forall id :: id in mine ==> mine[id] == bookings[id]
    {
      mine := map id | id in bookings && bookings[id].userId == caller.id :: bookings[id];
    }

    /** `GET /:id` */
    method Get(caller: Claims, id: BookingId) returns (status: Status, found: Option<Booking>)
      ensures status == Gate(bookings, caller.id, id)
      ensures found.Some? <==> status == OK
      ensures found.Some? ==> found.value == bookings[id] && found.value.userId == caller.id
    {
      status := Gate(bookings, caller.id, id);
      found := if status == OK then Some(bookings[id]) else None;
    }

    /** `PUT /:id`: the owner may change the dates; a 404 or 403 changes nothing. */
    method Update(caller: Claims, id: BookingId, patch: DatesPatch) returns (status: Status, updated: Option<Booking>)
      requires Valid()
      modifies this
      ensures Valid() && nextId == old(nextId)
      ensures status == Gate(old(bookings), caller.id, id)
      ensures status != OK ==> updated == None && bookings == old(bookings)
      ensures status == OK ==>
                && updated == Some(Reschedule(old(bookings)[id], patch))
                && bookings == old(bookings)[id := updated.value]
    {
      status := Gate(bookings, caller.id, id);
      if status != OK {
        return status, None;
      }
      var b := Reschedule(bookings[id], patch);
      bookings := bookings[id := b];
      updated := Some(b);
    }

    /** `DELETE /:id`: the owner removes exactly that booking. */
    method Delete(caller: Claims, id: BookingId) returns (status: Status)
      requires Valid()
      modifies this
      ensures Valid() && nextId == old(nextId)
      ensures status == Gate(old(bookings), caller.id, id)
      ensures status != OK ==> bookings == old(bookings)
      ensures status == OK ==> bookings == old(bookings) - {id}
    {
      status := Gate(bookings, caller.id, id);
      if status == OK {
        bookings := bookings - {id};
      }
    }
  }
}
