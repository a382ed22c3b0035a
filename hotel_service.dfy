/** The hotel service (src/services/hotel-service/index.ts): a booking check, a helper that
    re-checks part of the gate, the hotel listing, and the per-hotel room query. */
module HotelService {
  import opened Outcomes
  import opened Records
  import ValidateHotels

  /** `checkForUserBooking`: whether the booking repository finds a booking for the user. */
  function CheckForUserBooking(s: Store, userId: int): (r: Traced<bool>)
    ensures r.value <==> userId in s.bookings
    ensures r.queries == [BookingByUser(userId)]
  {
    match FindBooking(s, userId)
    case None => Traced(false, [BookingByUser(userId)])
    case Some(_) => Traced(true, [BookingByUser(userId)])
  }

  /** `checkForuserTicketPayment`: a missing enrollment is dereferenced (`enrollmentInfo.id` on
      `null`), a TypeError; a missing ticket throws NotFound before any payment lookup; otherwise
      the answer is whether a payment exists for the ticket. The ticket type is not looked at. */
  function CheckForUserTicketPayment(s: Store, userId: int): (r: Traced<Outcome<bool>>)
    ensures FindEnrollment(s, userId).None? ==> r == Traced(Fail(Internal), [EnrollmentByUser(userId)])
    ensures FindEnrollment(s, userId).Some? && TicketOf(s, userId).None? ==>
      r.value == Fail(NotFound) && !QueriesPayment(r.queries)
    ensures r.value == Ok(false) <==> TicketOf(s, userId).Some? && FindPayment(s, TicketOf(s, userId).value.id).None?
    ensures r.value == Ok(true) <==> TicketOf(s, userId).Some? && FindPayment(s, TicketOf(s, userId).value.id).Some?
  {
    var q0 := [EnrollmentByUser(userId)];
    match FindEnrollment(s, userId)
    case None => Traced(Fail(Internal), q0)
    case Some(e) =>
      var q1 := q0 + [TicketByEnrollment(e.id)];
      match FindTicket(s, e.id)
      case None => Traced(Fail(NotFound), q1)
      case Some(t) =>
        var q2 := q1 + [PaymentByTicket(t.id)];
        match FindPayment(s, t.id)
        case None => Traced(Ok(false), q2)
        case Some(_) => Traced(Ok(true), q2)
  }

  /** `getAllHotels` with its two helpers awaited: no booking is NotFound, then the payment
      helper's errors propagate and a missing payment is PaymentRequired; otherwise the
      repository's hotel list. */
  function GetAllHotels(s: Store, userId: int): (r: Traced<Outcome<seq<Hotel>>>)
    ensures userId !in s.bookings ==> r == Traced(Fail(NotFound), [BookingByUser(userId)])
    ensures userId in s.bookings ==> |r.queries| > 1 && r.queries[..2] == [BookingByUser(userId), EnrollmentByUser(userId)]
    ensures userId in s.bookings && CheckForUserTicketPayment(s, userId).value.Fail? ==>
      r.value == Fail(CheckForUserTicketPayment(s, userId).value.reason)
    ensures userId in s.bookings && CheckForUserTicketPayment(s, userId).value == Ok(false) ==>
      r.value == Fail(PaymentRequired)
    ensures r.value.Ok? <==> userId in s.bookings && CheckForUserTicketPayment(s, userId).value == Ok(true)
    ensures r.value.Ok? ==> r.value.value == s.hotels && r.queries[|r.queries| - 1] == AllHotels
  {
    var booked := CheckForUserBooking(s, userId);
    if !booked.value then Traced(Fail(NotFound), booked.queries)
    else
      var paid := CheckForUserTicketPayment(s, userId);
      var q := booked.queries + paid.queries;
      match paid.value
      case Fail(f) => Traced(Fail(f), q)
      case Ok(false) => Traced(Fail(PaymentRequired), q)
      case Ok(true) => Traced(Ok(s.hotels), q + [AllHotels])
  }

  /** `getAllHotels` as written: the helpers' promises are not awaited, and a promise is always
      truthy, so neither gate can throw and the hotel list is always returned. The helpers'
      own queries run detached from the request and are not part of this trace. */
  function GetAllHotelsAsWritten(s: Store, userId: int): (r: Traced<Outcome<seq<Hotel>>>)
    ensures r.value == Ok(s.hotels)
    ensures r.queries == [AllHotels]
  {
    Traced(Ok(s.hotels), [AllHotels])
  }

  /** The code as written and the awaited version agree exactly on the users the awaited gates
      let through; every user they refuse still gets the list as written. */
  lemma AsWrittenAgreesOnlyWhenGatesPass(s: Store, userId: int)
    ensures GetAllHotelsAsWritten(s, userId).value == GetAllHotels(s, userId).value
            <==> GetAllHotels(s, userId).value.Ok?
  {
    if GetAllHotels(s, userId).value.Ok? {
      assert GetAllHotels(s, userId).value.value == s.hotels;
    }
  }

  /** The data of the integration test that lists hotels: an enrolled user with a paid,
      in-person ticket that includes a hotel, and no booking. The code as written returns the
      list; awaiting the booking helper would refuse the user with NotFound. */
  lemma PaidUserWithoutBookingGetsList()
    ensures
      var s := Store(
        map[1 := Enrollment(10, 1)],
        map[10 := Ticket(20, 10, Reserved, TicketType(false, true))],
        map[20 := Payment(30, 20)],
        map[], [Hotel(1, "Resort", "img", "", "")], map[]);
      CheckForUserTicketPayment(s, 1).value == Ok(true)
      && GetAllHotelsAsWritten(s, 1).value == Ok(s.hotels)
      && GetAllHotels(s, 1).value == Fail(NotFound)
  {
  }

  /** `getHotelRooms`: NotFound when the hotel does not exist; otherwise the response object is
      never filled in and `undefined` (`None`) is returned. The user id is not used. */
  function GetHotelRooms(s: Store, hotelId: int, userId: int): (r: Traced<Outcome<Option<HotelWithRooms>>>)
    ensures r.queries == [HotelRoomsById(hotelId)]
    ensures hotelId !in s.hotelDetails ==> r.value == Fail(NotFound)
    ensures hotelId in s.hotelDetails ==> r.value == Ok(None)
  {
    match FindHotelRooms(s, hotelId)
    case None => Traced(Fail(NotFound), [HotelRoomsById(hotelId)])
    case Some(_) => Traced(Ok(None), [HotelRoomsById(hotelId)])
  }

  /** Where the user has an enrollment, the payment helper is the gate without its two
      ticket-type guards: both refuse a missing ticket with NotFound, and when the ticket type is
      in person with a hotel, the helper answers true exactly when the gate passes. */
  lemma PaymentHelperIsPartialGate(s: Store, userId: int)
    requires FindEnrollment(s, userId).Some?
    ensures TicketOf(s, userId).None? ==>
      CheckForUserTicketPayment(s, userId).value == Fail(NotFound) && ValidateHotels.Gate(s, userId).value == Fail(NotFound)
    ensures (TicketOf(s, userId).Some? && !TicketOf(s, userId).value.ticketType.isRemote
             && TicketOf(s, userId).value.ticketType.includesHotel) ==>
      (CheckForUserTicketPayment(s, userId).value == Ok(true) <==> ValidateHotels.Gate(s, userId).value == Ok(()))
    ensures ValidateHotels.Gate(s, userId).value == Ok(()) ==> CheckForUserTicketPayment(s, userId).value == Ok(true)
  {
  }

  /** The helper accepts a paid remote ticket, which the gate refuses. */
  lemma PaymentHelperAcceptsRemoteTicket(s: Store, userId: int)
    requires TicketOf(s, userId).Some? && TicketOf(s, userId).value.ticketType.isRemote
    requires FindPayment(s, TicketOf(s, userId).value.id).Some?
    ensures CheckForUserTicketPayment(s, userId).value == Ok(true)
    ensures ValidateHotels.Gate(s, userId).value == Fail(PaymentRequired)
  {
  }
}
