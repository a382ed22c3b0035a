# Hotel access gate: a Dafny model

This project models the part of the conference back end that decides whether a user may see
the hotel catalogue and a hotel's rooms. It covers three pieces of TypeScript:

- the **hotel-access middleware** (`authenticateToken` in
  `src/middlewares/validate-hotels-middleware.ts`). It checks, in this order: the user has an
  enrollment, the enrollment has a ticket, the ticket type is not remote, the ticket type includes
  a hotel, and a payment exists for the ticket. The first failing check throws NotFound (the first
  two) or PaymentRequired (the other three). Passing all five means `next()`;
- the **hotel service** (`src/services/hotel-service/index.ts`). It has a booking check
  (`checkForUserBooking`), a helper that re-checks part of that chain
  (`checkForuserTicketPayment`), the listing `getAllHotels`, and `getHotelRooms`;
- the **hotel controller** (`src/controllers/hotel-controller.ts`). It reads the `hotelId`
  route parameter with JavaScript's `parseInt`, refuses a falsy id with 400, calls the service,
  and maps the service's result to a response.

All three are pure in the model, so it is written as datatypes, functions and lemmas:

- `outcomes.dfy` holds `Outcome<T> = Ok(value) | Fail(reason)`, with the closed reason set
  `NotFound | PaymentRequired | BadRequest | Internal`. It replaces the source's thrown
  `{name, message}` objects, including `paymentRequiredError`.
- `records.dfy` holds the records and a `Store`. The store holds one map or list per
  repository query: enrollment by user, ticket (with its type) by enrollment, payment by ticket, booking
  by user, the hotel list, and hotel-with-rooms by hotel id.
- Every operation returns `Traced(value, queries)`. The second part lists the repository calls
  the operation made, in order. This is how the model states facts such as "no payment lookup
  is made" or "the service is not called".
- `js_parse_int.dfy` models `parseInt(string)` with no radix, as section 19.2.5 of ECMA-262
  defines it:
  - leading white space is skipped (every ECMAScript white-space and line-terminator code point);
  - one `+` or `-` is read;
  - `0x` or `0X` selects base 16;
  - the value is that of the longest run of digits that follows;
  - no digits at all gives NaN.

  Its lemmas are proved against decimal notation (`ShowInt`): a numeral followed by text that
  does not continue it parses back to its number. That text is a non-digit, and not `x`/`X`
  after a lone `0`, which would select base 16.

## Model

| member | source | states |
|---|---|---|
| `Outcomes.HttpStatus` | src/middlewares/validate-hotels-middleware.ts:26-38 | each failure has its own status: NotFound 404, PaymentRequired 402, BadRequest 400 (as `getHotelRooms` sends it), and a TypeError 500, which is assumed |
| `ValidateHotels.Gate` | src/middlewares/validate-hotels-middleware.ts:13-24 | no enrollment: NotFound after the enrollment query only. No ticket: NotFound, with no payment query. Remote type, or type without a hotel: PaymentRequired, with no payment query. No payment: PaymentRequired. `next()` exactly when the user is entitled (enrollment, ticket, not remote, includes hotel, payment). The payment is queried exactly when both ticket-type guards passed. Only NotFound and PaymentRequired are thrown |
| `ValidateHotels.FirstFailing` | src/middlewares/validate-hotels-middleware.ts:14-22 | the position found is a failing guard with every guard before it passing; no position exactly when every guard passes |
| `ValidateHotels.Guards` | src/middlewares/validate-hotels-middleware.ts:13-22 | the chain has five guards in source order |
| `ValidateHotels.GateIsFirstFailingGuard` | src/middlewares/validate-hotels-middleware.ts:13-24 | the gate's outcome is the reason of the first failing guard, or `next()` when none fails |
| `ValidateHotels.RemoteTicketStopsAtThirdGuard` | src/middlewares/validate-hotels-middleware.ts:18 | every remote ticket, with or without a hotel, is refused by the third guard, the remote check. Lines 18 and 19 throw the same `paymentRequiredError()`, so which of them fires shows only in the guard list, not in the gate's outcome or queries |
| `ValidateHotels.NoHotelTicketStopsAtFourthGuard` | src/middlewares/validate-hotels-middleware.ts:19 | an in-person ticket without a hotel is refused by the fourth guard, the hotel check. With the row above, this fixes the order remote, hotel, payment |
| `ValidateHotels.GateIgnoresTicketStatus` | src/middlewares/validate-hotels-middleware.ts:16-24 | setting every ticket to any status changes neither the outcome nor the queries |
| `ValidateHotels.ReservedTicketWithPaymentPasses` | tests/integration/hotel.test.ts:88-105 | a RESERVED in-person ticket with a hotel and a payment passes, after exactly the three queries |
| `HotelService.CheckForUserBooking` | src/services/hotel-service/index.ts:34-39 | true iff the booking lookup finds one; one booking query |
| `HotelService.CheckForUserTicketPayment` | src/services/hotel-service/index.ts:41-50 | no enrollment: TypeError after the enrollment query. No ticket: NotFound, with no payment query. `false` iff the ticket exists and no payment does. `true` iff both exist |
| `HotelService.GetAllHotels` | src/services/hotel-service/index.ts:12-20 | awaited gates. No booking: NotFound after the booking query alone. Otherwise the booking query comes before the payment helper's first query. Helper error: that error, unchanged. Helper `false`: PaymentRequired. Succeeds iff booked and paid, and then returns exactly the repository's list after a final hotel query |
| `HotelService.GetAllHotelsAsWritten` | src/services/hotel-service/index.ts:12-20 | the code as written always returns the repository's hotel list |
| `HotelService.AsWrittenAgreesOnlyWhenGatesPass` | src/services/hotel-service/index.ts:12-20 | for every store and user, the code as written and the awaited version give the same result iff the awaited version succeeds |
| `HotelService.PaidUserWithoutBookingGetsList` | tests/integration/hotel.test.ts:88-105 | an enrolled user with a paid in-person ticket that includes a hotel, and no booking: the payment helper says true, the code as written returns the list, the awaited version gives NotFound |
| `HotelService.GetHotelRooms` | src/services/hotel-service/index.ts:22-32 | one hotel query for the given id. Missing hotel: NotFound. Existing hotel: `undefined`, whatever the user |
| `HotelService.PaymentHelperIsPartialGate` | src/services/hotel-service/index.ts:41-50 | for an enrolled user, the helper and the gate both give NotFound when there is no ticket. For an in-person ticket with a hotel, the helper says true iff the gate passes. The gate passing implies the helper says true |
| `HotelService.PaymentHelperAcceptsRemoteTicket` | src/services/hotel-service/index.ts:41-50 | a paid remote ticket: the helper says true, the gate says PaymentRequired |
| `JsParseInt.TrimStart` | src/controllers/hotel-controller.ts:18 | the result is a suffix of the input and does not start with white space |
| `JsParseInt.TrimStartRemovesWhiteSpace` | src/controllers/hotel-controller.ts:18 | everything `TrimStart` removes is white space |
| `JsParseInt.DigitValue` | src/controllers/hotel-controller.ts:18 | below 10 exactly for `0`-`9`, and then the digit's value |
| `JsParseInt.DigitPrefix` | src/controllers/hotel-controller.ts:18 | the longest prefix of digits of the base: a prefix, all digits, and the next character is not one |
| `JsParseInt.ParseShowInt` | src/controllers/hotel-controller.ts:18 | a decimal numeral followed by text that does not continue it parses to its number, negative numbers included |
| `JsParseInt.NoDecimalDigitIsNaN` | src/controllers/hotel-controller.ts:18 | text with no decimal digit parses to NaN |
| `JsParseInt.ParseIntSkipsWhiteSpace` | src/controllers/hotel-controller.ts:18 | leading white space does not change the result |
| `JsParseInt.ParseIntStopsAtNonDigit` | src/controllers/hotel-controller.ts:18 | `"5abc"` is 5 |
| `JsParseInt.ParseIntWithoutDigits` | src/controllers/hotel-controller.ts:18 | `"abc"` is NaN |
| `JsParseInt.ParseIntOneSign` | src/controllers/hotel-controller.ts:18 | only one sign is read: `"+-3"` is NaN |
| `JsParseInt.ParseIntMinusZero` | src/controllers/hotel-controller.ts:18 | `"-0"` is (minus) zero, which is falsy |
| `JsParseInt.ParseIntHexPrefix` | src/controllers/hotel-controller.ts:18 | `"0x1F"` is 31 |
| `JsParseInt.ParseIntEmptyHex` | src/controllers/hotel-controller.ts:18 | `"0x"` is NaN |
| `HotelController.GetAllHotels` | src/controllers/hotel-controller.ts:8-14 | answers every user with 200 and exactly the store's hotel list, with the queries of the service as written |
| `HotelController.HotelIdGuard` | src/controllers/hotel-controller.ts:18-20 | BadRequest iff the parsed id is NaN or zero; otherwise the parsed, non-zero id |
| `HotelController.RoomsReply` | src/controllers/hotel-controller.ts:22-25 | service errors propagate. A falsy result gives PaymentRequired. A hotel is answered unchanged with 200 |
| `HotelController.GetHotelRooms` | src/controllers/hotel-controller.ts:16-26 | falsy id: BadRequest with no query at all. Otherwise exactly one service query, for the parsed id. Then PaymentRequired if the hotel exists, NotFound if not. Never 200 |
| `HotelController.DecimalHotelIdGuard` | src/controllers/hotel-controller.ts:18-20 | a decimal id is refused iff it is zero; negative ids pass |
| `HotelController.HotelIdGuardIgnoresTrailingText` | src/controllers/hotel-controller.ts:18-20 | `"5abc"` passes as 5 |
| `HotelController.HotelIdGuardRefusals` | src/controllers/hotel-controller.ts:18-20 | `"abc"` and `"-0"` are BadRequest |
| `HotelController.ExistingHotelIsPaymentRequired` | src/controllers/hotel-controller.ts:16-26 | every non-zero id of an existing hotel ends in PaymentRequired after one hotel query |
| `HotelController.MissingHotelIsNotFound` | tests/integration/hotel.test.ts:134-150 | `/hotels/5` with no hotel 5 gets NotFound |

## Behaviour worth knowing

- **Payment signal.** Eligibility is decided by whether a Payment record exists. `Ticket.status`
  is never read, so a RESERVED ticket with a payment passes.
- **Falsy ids only.** The `hotelId` guard refuses only falsy numbers (NaN and zero). Negative ids
  and text such as `"5abc"` get through.
- **Empty hotel list.** `getAllHotels` answers an empty list with 200 and that empty list.
- **Room listing.** `getHotelRooms` never builds its result and returns `undefined`. So an
  existing hotel is answered with PaymentRequired and never with its rooms.
- **Order of the BadRequest check.** In the controller it comes before any service call.
- **Missing enrollment in the payment helper.** `checkForuserTicketPayment` reads the id of a
  missing enrollment, a TypeError. The model reports it as `Internal`.

## Findings

| source | as written | input that shows it | evidently intended | confidence | as-written member | corrected member |
|---|---|---|---|---|---|---|
| src/services/hotel-service/index.ts:13-17 | The two helper calls are not awaited. So `!isBooked` and `!isPaid` test a Promise, which is always truthy, and neither gate can throw. Line 14 also throws the `notFoundError` function itself rather than calling it | an enrolled user with a paid in-person ticket that includes a hotel, and no booking: the payment helper resolves to true, and the hotel list is returned although the booking check was meant to refuse the user | await both helpers: no booking gives NotFound, before the payment helper runs; a helper error propagates; an unpaid ticket gives PaymentRequired; the list is returned only to a booked, paid user. The integration test at tests/integration/hotel.test.ts:88-105 expects exactly this user to get the list with status 200. So the test agrees with the code as written on the booking check, and only the payment check's intent is unambiguous | not executed; medium | `HotelService.GetAllHotelsAsWritten` (with `HotelService.PaidUserWithoutBookingGetsList` and `HotelService.AsWrittenAgreesOnlyWhenGatesPass`) | `HotelService.GetAllHotels` |

`HotelController.GetAllHotels` is built on the code as written, which is what the program does
and what the integration test expects. The corrected `HotelService.GetAllHotels` stands on its
own. The thrown function object on line 14 is modelled as NotFound.

## Left out

- Database access: the Prisma repositories are foreign calls. Each is modelled as a lookup in
  a map of the `Store`. The booking query filters on the booking's own id with the user id
  (src/repositories/bookinig-repositorie/index.ts:5); the model keys bookings by user, as the
  service expects.
- Express routing and response objects (`src/routers/hotel-router.ts`, `res.status`,
  `res.send`). A response is modelled as an `Outcome`, with statuses given by `HttpStatus`.
- Authentication and sessions (the 401 cases). They are decided upstream of this code.
- Which `authenticateToken` the router mounts on every hotel route. src/routers/hotel-router.ts:2
  imports it from `@/middlewares`, whose index is not part of this model. So the model does not
  compose the hotel-access gate with the controller.
- Outcomes.HttpStatus: answering the TypeError (`Internal`) with 500 is assumed. No error handler
  is part of this model, and the commented-out mapping in
  src/middlewares/validate-hotels-middleware.ts:39 would answer it with 400. That mapping sits in the
  middleware's own `catch`, so the statuses of errors thrown by the controller and the service
  are also assumed.
- HotelController.GetAllHotels: it does not run the corrected `HotelService.GetAllHotels`. It
  models the code as written, where neither service gate can refuse.
- Promise and event-loop semantics. This includes the helpers' detached queries and
  unhandled rejections in the code as written.
- HotelService.GetAllHotelsAsWritten: its trace holds only the hotel query. The queries the
  un-awaited helpers still start run detached from the request and are not modelled.
- The middleware's `catch` block. It swallows the error and sends no response at all, so the
  request is left hanging. The model states the thrown error as the gate's outcome; the
  commented-out status mapping serves only as documentation for `HttpStatus`.
- Infrastructure failures (an unreachable database and the like). They are not modelled.
- Building the hotel-with-rooms result and serialising timestamps. The source's body is
  empty, and timestamps are kept as opaque text.
- `parseInt` over JavaScript numbers. The model reads digits into an exact integer. JavaScript
  rounds very long numerals to a double, or to Infinity. This never turns a non-zero value into
  zero, so the guard's verdict is the same. Above 2^53, though, the id JavaScript passes to the
  hotel query is the rounded number, so the query in `HotelController.GetHotelRooms`'s trace
  matches the program only up to that rounding.
- `parseInt`'s radix argument. The code never passes one; base 16 through the `0x` prefix is
  modelled.
- The test factories and the integration-test harness. They only serve as evidence for the
  example lemmas.
