/** The hotel controller (src/controllers/hotel-controller.ts). A handler's `Outcome` is its
    response: `Ok(body)` is status 200 with that body, `Fail(f)` the status `HttpStatus(f)`. */
module HotelController {
  import opened Outcomes
  import opened Records
  import opened JsParseInt
  import HotelService

  /** `getAllHotels`: answers 200 with whatever the service as written returns, which is the
      repository's hotel list for every user. */
  function GetAllHotels(s: Store, userId: int): (r: Traced<Outcome<seq<Hotel>>>)
    ensures r.value == Ok(s.hotels)
    ensures r.queries == HotelService.GetAllHotelsAsWritten(s, userId).queries
  {
    HotelService.GetAllHotelsAsWritten(s, userId)
  }

  /** The `hotelId` guard: the raw route parameter is read with `parseInt` and refused with
      BadRequest only when the number is falsy, that is NaN or zero. */
  function HotelIdGuard(raw: string): (r: Outcome<int>)
    ensures r.Fail? <==> Falsy(ParseInt(raw))
    ensures r.Fail? ==> r.reason == BadRequest
    ensures r.Ok? ==> ParseInt(raw) == Int(r.value) && r.value != 0
  {
    match ParseInt(raw)
    case NaN => Fail(BadRequest)
    case Int(n) => if n == 0 then Fail(BadRequest) else Ok(n)
  }

  /** How the handler answers the service's result: its errors propagate, a falsy result
      (`undefined`) throws PaymentRequired, and a hotel is sent back unchanged. */
  function RoomsReply(service: Outcome<Option<HotelWithRooms>>): (r: Outcome<HotelWithRooms>)
    ensures service.Fail? ==> r == Fail(service.reason)
    ensures service == Ok(None) ==> r == Fail(PaymentRequired)
    ensures service.Ok? && service.value.Some? ==> r == Ok(service.value.value)
  {
    match service
    case Fail(f) => Fail(f)
    case Ok(None) => Fail(PaymentRequired)
    case Ok(Some(h)) => Ok(h)
  }

  /** `getHotelRooms`: a falsy id is BadRequest and the service is not called; otherwise the
      service is asked for the parsed id. Because the service never returns a hotel, a hotel
      that exists ends in PaymentRequired and one that does not in NotFound. */
  function GetHotelRooms(s: Store, userId: int, raw: string): (r: Traced<Outcome<HotelWithRooms>>)
    ensures Falsy(ParseInt(raw)) ==> r == Traced(Fail(BadRequest), [])
    ensures !Falsy(ParseInt(raw)) ==> r.queries == [HotelRoomsById(ParseInt(raw).value)]
    ensures !Falsy(ParseInt(raw)) ==>
      r.value == if ParseInt(raw).value in s.hotelDetails then Fail(PaymentRequired) else Fail(NotFound)
    ensures !r.value.Ok?
  {
    match HotelIdGuard(raw)
    case Fail(f) => Traced(Fail(f), [])
    case Ok(hotelId) =>
      var payment := HotelService.GetHotelRooms(s, hotelId, userId);
      Traced(RoomsReply(payment.value), payment.queries)
  }

  /** On an id written in decimal, only zero is refused; negative ids get through. */
  lemma DecimalHotelIdGuard(n: int)
    ensures HotelIdGuard(ShowInt(n)) == if n == 0 then Fail(BadRequest) else Ok(n)
  {
    assert ShowInt(n) + "" == ShowInt(n);
    ParseShowInt(n, "");
  }

  /** A route parameter with trailing text is read up to it. */
  lemma HotelIdGuardIgnoresTrailingText()
    ensures HotelIdGuard("5abc") == Ok(5)
  {
    ParseIntStopsAtNonDigit();
  }

  /** Text without digits and minus zero are refused. */
  lemma HotelIdGuardRefusals()
    ensures HotelIdGuard("abc") == Fail(BadRequest)
    ensures HotelIdGuard("-0") == Fail(BadRequest)
  {
    ParseIntWithoutDigits();
    ParseIntMinusZero();
  }

  /** For every id the guard lets through, an existing hotel is answered with PaymentRequired. */
  lemma ExistingHotelIsPaymentRequired(s: Store, userId: int, hotelId: int)
    requires hotelId != 0 && hotelId in s.hotelDetails
    ensures GetHotelRooms(s, userId, ShowInt(hotelId)) == Traced(Fail(PaymentRequired), [HotelRoomsById(hotelId)])
  {
    DecimalHotelIdGuard(hotelId);
  }

  /** The integration test asking for `/hotels/5` when there is no hotel 5 gets NotFound. */
  lemma MissingHotelIsNotFound(s: Store, userId: int)
    requires 5 !in s.hotelDetails
    ensures GetHotelRooms(s, userId, "5").value == Fail(NotFound)
  {
    assert ShowInt(5) == "5";
    DecimalHotelIdGuard(5);
  }
}
