/** The `/api/bookings` router, both routes behind `protect`: booking an
    event for the caller, and listing the caller's bookings. */
module BookingRoutes {
  import opened Js
  import opened Http
  import opened Tokens
  import opened EventSchema
  import opened Database

  /** The `summary` of a booking reply. */
  datatype Summary = Summary(eventName: string, pricePerTicket: int)

  datatype BookingReply = BookingReply(booking: Booking, summary: Summary)

  /** POST /. The caller's id comes from the token; the route does not look
      the user up, so a booking can name a user that no longer exists. */
  method CreateBooking(db: Db, svc: Services, bearer: Option<Token>, now: int, body: Body, newId: Id)
    returns (r: Response<BookingReply>)
    modifies db`bookings
    ensures r.Fail? ==> db.bookings == old(db.bookings)
    ensures Protect(svc.signer, bearer, now).Fail? ==> r == Fail(Unauthenticated)
    ensures Protect(svc.signer, bearer, now).Ok? && !Truthy(Get(body, "eventId")) ==> r == Fail(EventIdRequired)
    ensures (&& Protect(svc.signer, bearer, now).Ok? && Truthy(Get(body, "eventId"))
             && !body["eventId"].Str?) ==> r == Fail(ServerError)
    ensures (&& Protect(svc.signer, bearer, now).Ok? && Truthy(Get(body, "eventId"))
             && body["eventId"].Str? && body["eventId"].s !in db.events) ==> r == Fail(EventNotFound)
    ensures r.Ok? <==>
              && Protect(svc.signer, bearer, now).Ok? && Truthy(Get(body, "eventId"))
              && body["eventId"].Str? && body["eventId"].s in db.events
    ensures r.Ok? ==>
              var b := Booking(newId, Protect(svc.signer, bearer, now).value.id, body["eventId"].s);
              var e := db.events[b.eventId];
              && r.value == BookingReply(b, Summary(e.name, e.price))
              && db.bookings == old(db.bookings) + [b]
  {
    var auth := Protect(svc.signer, bearer, now);
    if auth.Fail? {
      return Fail(auth.error);
    }
    if !Truthy(Get(body, "eventId")) {
      return Fail(EventIdRequired);
    }
    var eventId := body["eventId"];
    if !eventId.Str? {
      // `findById` cannot cast the value to an id
      return Fail(ServerError);
    }
    if eventId.s !in db.events {
      return Fail(EventNotFound);
    }
    var event := db.events[eventId.s];
    var booking := Booking(newId, auth.value.id, eventId.s);
    db.bookings := db.bookings + [booking];
    r := Ok(BookingReply(booking, Summary(event.name, event.price)));
  }

  /** `{ userId: id }` as a query filter. */
  function OwnedBy(id: Id): Booking -> bool
  {
    (b: Booking) => b.userId == id
  }

  /** `Booking.find({ userId: id })`, in the order the bookings were made. */
  function BookingsOf(bookings: seq<Booking>, id: Id): (r: seq<Booking>)
    ensures forall b :: b in r <==> b in bookings && b.userId == id
    ensures forall b :: multiset(r)[b] == if b.userId == id then multiset(bookings)[b] else 0
    ensures IsSubsequence(r, bookings)
  {
    FilterCount(bookings, OwnedBy(id));
    Filter(bookings, OwnedBy(id))
  }

  /** GET /user */
  method UserBookings(db: Db, svc: Services, bearer: Option<Token>, now: int) returns (r: Response<seq<Booking>>)
    ensures Protect(svc.signer, bearer, now).Fail? ==> r == Fail(Unauthenticated)
    ensures r.Ok? <==> Protect(svc.signer, bearer, now).Ok?
    ensures r.Ok? ==> r.value == BookingsOf(db.bookings, Protect(svc.signer, bearer, now).value.id)
  {
    var auth := Protect(svc.signer, bearer, now);
    if auth.Fail? {
      return Fail(auth.error);
    }
    r := Ok(BookingsOf(db.bookings, auth.value.id));
  }

  /** A new booking appears last in its owner's list and in no one else's. */
  lemma NewBookingListed(bookings: seq<Booking>, b: Booking, id: Id)
    ensures id == b.userId ==> BookingsOf(bookings + [b], id) == BookingsOf(bookings, id) + [b]
    ensures id != b.userId ==> BookingsOf(bookings + [b], id) == BookingsOf(bookings, id)
  {
    FilterAppend(bookings, b, OwnedBy(id));
  }

  /** Booking and then listing with the same token shows the new booking
      after the caller's earlier ones. */
  method BookThenList(db: Db, svc: Services, bearer: Option<Token>, now: int, body: Body, newId: Id)
    returns (booked: Response<BookingReply>, listed: Response<seq<Booking>>)
    modifies db`bookings
    ensures booked.Ok? ==>
              && listed.Ok?
              && listed.value == BookingsOf(old(db.bookings), booked.value.booking.userId) + [booked.value.booking]
  {
    booked := CreateBooking(db, svc, bearer, now, body, newId);
    if booked.Ok? {
      NewBookingListed(old(db.bookings), booked.value.booking, booked.value.booking.userId);
      assert booked.value.booking.userId == Protect(svc.signer, bearer, now).value.id;
    }
    listed := UserBookings(db, svc, bearer, now);
  }
}
