/** The hotel-access gate (`authenticateToken` in
    src/middlewares/validate-hotels-middleware.ts): a chain of lookups and guards whose first
    failing guard decides the error thrown; passing every guard means `next()`. */
module ValidateHotels {
  import opened Outcomes
  import opened Records

  /** Everything the chain demands: an enrollment, its ticket, an in-person ticket type that
      includes a hotel, and a payment for the ticket. The ticket's status is not part of it. */
  predicate EntitledToHotels(s: Store, userId: int)
  {
    match TicketOf(s, userId)
    case None => false
    case Some(t) => !t.ticketType.isRemote && t.ticketType.includesHotel && FindPayment(s, t.id).Some?
  }

  /** The gate. `Ok(())` stands for `next()`, `Fail(r)` for the error thrown. */
  function Gate(s: Store, userId: int): (r: Traced<Outcome<()>>)
    ensures FindEnrollment(s, userId).None? ==>
      r == Traced(Fail(NotFound), [EnrollmentByUser(userId)])
    ensures FindEnrollment(s, userId).Some? && TicketOf(s, userId).None? ==>
      r == Traced(Fail(NotFound), [EnrollmentByUser(userId), TicketByEnrollment(FindEnrollment(s, userId).value.id)])
    ensures TicketOf(s, userId).Some? && TicketOf(s, userId).value.ticketType.isRemote ==>
      r.value == Fail(PaymentRequired) && !QueriesPayment(r.queries)
    ensures TicketOf(s, userId).Some? && !TicketOf(s, userId).value.ticketType.includesHotel ==>
      r.value == Fail(PaymentRequired) && !QueriesPayment(r.queries)
    ensures TicketOf(s, userId).Some? && FindPayment(s, TicketOf(s, userId).value.id).None? ==>
      r.value == Fail(PaymentRequired)
    ensures r.value == Ok(()) <==> EntitledToHotels(s, userId)
    ensures r.value.Fail? ==> r.value.reason in {NotFound, PaymentRequired}
    ensures QueriesPayment(r.queries) <==>
      TicketOf(s, userId).Some? && !TicketOf(s, userId).value.ticketType.isRemote
      && TicketOf(s, userId).value.ticketType.includesHotel
  {
    var q0 := [EnrollmentByUser(userId)];
    match FindEnrollment(s, userId)
    case None => Traced(Fail(NotFound), q0)
    case Some(e) =>
      var q1 := q0 + [TicketByEnrollment(e.id)];
      match FindTicket(s, e.id)
      case None => Traced(Fail(NotFound), q1)
      case Some(t) =>
        if t.ticketType.isRemote then Traced(Fail(PaymentRequired), q1)
        else if !t.ticketType.includesHotel then Traced(Fail(PaymentRequired), q1)
        else
          var q2 := q1 + [PaymentByTicket(t.id)];
          assert q2[2].PaymentByTicket?;
          match FindPayment(s, t.id)
          case None => Traced(Fail(PaymentRequired), q2)
          case Some(_) => Traced(Ok(()), q2)
  }

  /** One guard of an ordered chain: whether it passes and what it throws if it does not. */
  datatype Guard = Guard(passes: bool, reason: Failure)

  /** The position of the first guard that does not pass, if any. */
  function FirstFailing(gs: seq<Guard>): (r: Option<nat>)
    ensures r.Some? ==> r.value < |gs| && !gs[r.value].passes
    ensures r.Some? ==> forall j :: 0 <= j < r.value ==> gs[j].passes
    ensures r.None? <==> forall j :: 0 <= j < |gs| ==> gs[j].passes
  {
    if gs == [] then None
    else if !gs[0].passes then Some(0)
    else match FirstFailing(gs[1..])
      case None => None
      case Some(i) => Some(i + 1)
  }

  /** The five guards of the gate, in source order, each read on the user's data. */
  function Guards(s: Store, userId: int): (gs: seq<Guard>)
    ensures |gs| == 5
  {
    var t := TicketOf(s, userId);
    [ Guard(FindEnrollment(s, userId).Some?, NotFound),
      Guard(t.Some?, NotFound),
      Guard(!(t.Some? && t.value.ticketType.isRemote), PaymentRequired),
      Guard(!(t.Some? && !t.value.ticketType.includesHotel), PaymentRequired),
      Guard(!(t.Some? && FindPayment(s, t.value.id).None?), PaymentRequired) ]
  }

  /** The gate's outcome is the reason of the first failing guard, or `next()` when none fails. */
  lemma GateIsFirstFailingGuard(s: Store, userId: int)
    ensures Gate(s, userId).value ==
      match FirstFailing(Guards(s, userId))
      case None => Ok(())
      case Some(i) => Fail(Guards(s, userId)[i].reason)
  {
    var gs := Guards(s, userId);
    match FirstFailing(gs)
    case None =>
      assert gs[0].passes && gs[1].passes && gs[2].passes && gs[3].passes && gs[4].passes;
    case Some(i) =>
      assert i < 5;
  }

  /** Every remote ticket, with or without a hotel, is refused by the third guard, the remote
      check; so a remote ticket that also lacks a hotel never reaches the hotel check. */
  lemma RemoteTicketStopsAtThirdGuard(s: Store, userId: int)
    requires TicketOf(s, userId).Some?
    requires TicketOf(s, userId).value.ticketType.isRemote
    ensures FirstFailing(Guards(s, userId)) == Some(2)
  {
    var gs := Guards(s, userId);
    assert gs[0].passes && gs[1].passes && !gs[2].passes;
  }

  /** An in-person ticket without a hotel is refused by the fourth guard, the hotel check; with
      the lemma above this pins the payment check last. */
  lemma NoHotelTicketStopsAtFourthGuard(s: Store, userId: int)
    requires TicketOf(s, userId).Some?
    requires !TicketOf(s, userId).value.ticketType.isRemote
    requires !TicketOf(s, userId).value.ticketType.includesHotel
    ensures FirstFailing(Guards(s, userId)) == Some(3)
  {
    var gs := Guards(s, userId);
    assert gs[0].passes && gs[1].passes && gs[2].passes && !gs[3].passes;
  }

  /** Every ticket of the store set to the given status. */
  function WithTicketStatus(s: Store, status: TicketStatus): (s': Store)
    ensures s'.tickets.Keys == s.tickets.Keys
    ensures forall k :: k in s.tickets ==> s'.tickets[k] == s.tickets[k].(status := status)
  {
    s.(tickets := map k | k in s.tickets :: s.tickets[k].(status := status))
  }

  /** The gate never reads `Ticket.status`: whatever status the tickets have, the trace and
      the outcome are the same. */
  lemma GateIgnoresTicketStatus(s: Store, userId: int, status: TicketStatus)
    ensures Gate(WithTicketStatus(s, status), userId) == Gate(s, userId)
  {
  }

  /** The integration test that lists hotels: an in-person ticket with a hotel, still RESERVED,
      and a payment for it passes the gate. */
  lemma ReservedTicketWithPaymentPasses()
    ensures
      var s := Store(
        map[1 := Enrollment(10, 1)],
        map[10 := Ticket(20, 10, Reserved, TicketType(false, true))],
        map[20 := Payment(30, 20)],
        map[], [], map[]);
      Gate(s, 1) == Traced(Ok(()), [EnrollmentByUser(1), TicketByEnrollment(10), PaymentByTicket(20)])
  {
  }
}
