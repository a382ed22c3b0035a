/** The records the hotel routes read, the store that holds them, and the repository lookups. */
module Records {
  import opened Outcomes

  datatype TicketStatus = Reserved | Paid

  datatype TicketType = TicketType(isRemote: bool, includesHotel: bool)

  datatype Enrollment = Enrollment(id: int, userId: int)

  /** A ticket as the ticket repository returns it: joined with its ticket type. */
  datatype Ticket = Ticket(id: int, enrollmentId: int, status: TicketStatus, ticketType: TicketType)

  datatype Payment = Payment(id: int, ticketId: int)

  datatype Booking = Booking(id: int, userId: int, roomId: int)

  datatype Hotel = Hotel(id: int, name: string, image: string, createdAt: string, updatedAt: string)

  datatype Room = Room(id: int, name: string, capacity: int, hotelId: int)

  /** A hotel together with its rooms, as the hotel repository's room query returns it. */
  datatype HotelWithRooms = HotelWithRooms(hotel: Hotel, rooms: seq<Room>)

  /** The database, as far as the hotel routes read it; each map is keyed by what its query filters on. */
  datatype Store = Store(
    enrollments: map<int, Enrollment>,      // by user id
    tickets: map<int, Ticket>,              // by enrollment id
    payments: map<int, Payment>,            // by ticket id
    bookings: map<int, Booking>,            // by user id
    hotels: seq<Hotel>,                     // every hotel, in the order the database lists them
    hotelDetails: map<int, HotelWithRooms>) // by hotel id

  /** One call into a repository. */
  datatype Query =
    | EnrollmentByUser(userId: int)
    | TicketByEnrollment(enrollmentId: int)
    | PaymentByTicket(ticketId: int)
    | BookingByUser(userId: int)
    | AllHotels
    | HotelRoomsById(hotelId: int)

  /** What an operation produced, with the repository calls it made, in order. */
  datatype Traced<+T> = Traced(value: T, queries: seq<Query>)

  function Lookup<K, V>(m: map<K, V>, k: K): (r: Option<V>)
    ensures r.Some? <==> k in m
    ensures r.Some? ==> r.value == m[k]
  {
    if k in m then Some(m[k]) else None
  }

  function FindEnrollment(s: Store, userId: int): (r: Option<Enrollment>) { Lookup(s.enrollments, userId) }

  function FindTicket(s: Store, enrollmentId: int): (r: Option<Ticket>) { Lookup(s.tickets, enrollmentId) }

  function FindPayment(s: Store, ticketId: int): (r: Option<Payment>) { Lookup(s.payments, ticketId) }

  function FindBooking(s: Store, userId: int): (r: Option<Booking>) { Lookup(s.bookings, userId) }

  function FindHotelRooms(s: Store, hotelId: int): (r: Option<HotelWithRooms>) { Lookup(s.hotelDetails, hotelId) }

  /** The ticket of the user's enrollment, if the user has both. */
  function TicketOf(s: Store, userId: int): (r: Option<Ticket>)
  {
    match FindEnrollment(s, userId)
    case None => None
    case Some(e) => FindTicket(s, e.id)
  }

  predicate QueriesPayment(qs: seq<Query>)
  {
    exists i :: 0 <= i < |qs| && qs[i].PaymentByTicket?
  }
}
