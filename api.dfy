/**
 * The API client of hooks/useApi.tsx: the bearer header, the interceptor-free
 * client that `createBooking` uses, the client of `useApi()` whose response
 * interceptor forces a logout on 401, the booking-then-payment sequence with
 * its compensating DELETE, and the bookings and contracts calls that read the
 * separate `token` key.
 */
module Api {
  import opened Options
  import opened Text
  import opened Json
  import opened Device
  import opened Http
  import Session

  const ApiUrl: string := "https://car-rental-api-aeh4.onrender.com"
  const BookingCreateUrl: string := ApiUrl + "/api/v1/cars/api/v1/bookings/create/"
  const PaymentCreateUrl: string := ApiUrl + "/api/v1/cars/api/v1/payments/create/"
  const BookingsUrl: string := ApiUrl + "/api/v1/cars/api/v1/bookings/"
  const ContractsUrl: string := ApiUrl + "/api/v1/cars/api/v1/contracts/"
  const CardType: string := "uzcard"
  const BookingCreatedMessage: string := "Buyurtma muvaffaqiyatli yaratildi"
  const BookingFallbackMessage: string := "Buyurtma yaratishda xatolik yuz berdi"
  const ServerUnreachableMessage: string := "Server bilan bog'lanishda xatolik yuz berdi"

  /** The `Authorization` header for the stored `userToken`: present exactly when the token is truthy. */
  function BearerHeader(storage: Storage): (r: Option<string>)
    ensures r.Some? <==> Has(storage, UserTokenKey)
    ensures r.Some? ==> r.value == "Bearer " + storage[UserTokenKey]
  {
    if Has(storage, UserTokenKey) then Some("Bearer " + storage[UserTokenKey]) else None
  }

  /** An axios instance as far as the model needs it: its default Authorization header and whether it has the 401 interceptor. */
  datatype ApiClient = ApiClient(authorization: Option<string>, interceptsUnauthorized: bool)

  /** The exported `getAuthenticatedApi`: the bearer header when a token is stored, and no interceptor. */
  function GetAuthenticatedApi(storage: Storage): (c: ApiClient)
    ensures c.authorization == BearerHeader(storage) && !c.interceptsUnauthorized
  {
    ApiClient(BearerHeader(storage), false)
  }

  /** The copy of `getAuthenticatedApi` inside `useApi()`: the same header, plus the 401 interceptor. */
  function HookAuthenticatedApi(storage: Storage): (c: ApiClient)
    ensures c.authorization == BearerHeader(storage) && c.interceptsUnauthorized
  {
    ApiClient(BearerHeader(storage), true)
  }

  datatype PaymentDetails = PaymentDetails(cardNumber: string, expiryDate: string, cvv: string, cardHolderName: string)

  /** The argument of `createBooking`; `car` is what `parseInt` gave, so a number or (for NaN) null. */
  datatype BookingData = BookingData(
    car: Json,
    startDate: string,
    endDate: string,
    phoneNumber: string,
    note: Option<string>,
    payment: PaymentDetails)

  /** `bookingData.note || ''`. */
  function NoteOrEmpty(note: Option<string>): (r: string)
    ensures note.None? ==> r == ""
    ensures note.Some? ==> r == note.value
  {
    match note
    case None => ""
    case Some(n) => n
  }

  function BookingPost(client: ApiClient, d: BookingData): Request
  {
    Request(POST, BookingCreateUrl, client.authorization,
      Obj([("car", d.car), ("start_date", Str(d.startDate)), ("end_date", Str(d.endDate)),
           ("phone_number", Str(d.phoneNumber)), ("note", Str(NoteOrEmpty(d.note)))]))
  }

  function PaymentPost(client: ApiClient, bookingId: Json, d: BookingData): Request
  {
    Request(POST, PaymentCreateUrl, client.authorization,
      Obj([("booking", bookingId), ("card_type", Str(CardType)),
           ("card_number", Str(Digits(d.payment.cardNumber))), ("card_expire", Str(d.payment.expiryDate))]))
  }

  /** The compensating DELETE, addressed by the interpolated value of `bookingResponse.data.id`. */
  function CancelDelete(client: ApiClient, id: Json): Request
  {
    Request(DELETE, BookingsUrl + ToText(id) + "/", client.authorization, Undefined)
  }

  /**
   * What `createBooking` ends with: the success envelope it returns, or the
   * object `{success: false, error, message}` it throws, which comes from the
   * AxiosError branch or from the branch for every other error. The thrown
   * `message` (here `reason`) is whatever value the response carried, not necessarily a string.
   */
  datatype BookingOutcome = Returned(data: Json, message: string) | Thrown(viaAxios: bool, reason: Json)

  /** The outcome together with every request sent, in order. */
  datatype BookingRun = BookingRun(outcome: BookingOutcome, requests: seq<Request>)

  /** The AxiosError branch: `error.response?.data?.message || 'Buyurtma yaratishda xatolik yuz berdi'`. */
  function AxiosFailure(e: Option<AxiosResponse>): (r: BookingOutcome)
    ensures r.Thrown? && r.viaAxios && Truthy(r.reason)
    ensures e.Some? && Truthy(Member(e.value.data, "message")) ==> r.reason == Member(e.value.data, "message")
    ensures (e.None? || !Truthy(Member(e.value.data, "message"))) ==> r.reason == Str(BookingFallbackMessage)
  {
    if e.Some? && Truthy(Member(e.value.data, "message")) then Thrown(true, Member(e.value.data, "message"))
    else Thrown(true, Str(BookingFallbackMessage))
  }

  /** The branch for everything that is not an AxiosError, including the plain Errors the code throws itself. */
  const GenericFailure: BookingOutcome := Thrown(false, Str(ServerUnreachableMessage))

  /** The server accepted the booking: resolved, with a truthy `success` and an object `data.data` to read the id from. */
  predicate BookingAccepted(o: AxiosOutcome) {
    && o.Resolved?
    && !Nullish(o.response.data)
    && Truthy(Member(o.response.data, "success"))
    && !Nullish(Member(o.response.data, "data"))
  }

  /** `bookingResponse.data.data.booking_id`. */
  function BookingIdOf(o: AxiosOutcome): Json
    requires o.Resolved?
  {
    Member(Member(o.response.data, "data"), "booking_id")
  }

  /**
   * `createBooking(d)` against a server that answers its requests with the
   * results of `script` in order; `readFails` says whether reading the
   * token in `getAuthenticatedApi` fails.
   */
  function CreateBookingRun(storage: Storage, readFails: bool, d: BookingData, script: seq<HttpResult>): (run: BookingRun)
  {
    if readFails then BookingRun(GenericFailure, [])
    else
      var client := GetAuthenticatedApi(storage);
      var bookingReq := BookingPost(client, d);
      var booking := AxiosCall(Nth(script, 0));
      if booking.Rejected? then BookingRun(AxiosFailure(booking.errorResponse), [bookingReq])
      else if !BookingAccepted(booking) then BookingRun(GenericFailure, [bookingReq])
      else
        var data := booking.response.data;
        var paymentReq := PaymentPost(client, BookingIdOf(booking), d);
        var payment := AxiosCall(Nth(script, 1));
        if payment.Rejected? then BookingRun(AxiosFailure(payment.errorResponse), [bookingReq, paymentReq])
        else if Nullish(payment.response.data) then BookingRun(GenericFailure, [bookingReq, paymentReq])
        else if Truthy(Member(payment.response.data, "success")) then
          BookingRun(Returned(data, BookingCreatedMessage), [bookingReq, paymentReq])
        else
          var cancelReq := CancelDelete(client, Member(data, "id"));
          var cancel := AxiosCall(Nth(script, 2));
          if cancel.Rejected? then BookingRun(AxiosFailure(cancel.errorResponse), [bookingReq, paymentReq, cancelReq])
          else BookingRun(GenericFailure, [bookingReq, paymentReq, cancelReq])
  }

  /**
   * `createBooking`: sends through the interceptor-free client, so it never
   * touches the device (a 401 here does not clear the token), and ends as
   * `CreateBookingRun` says, having sent exactly its requests.
   */
  method CreateBooking(device: Device, server: Server, d: BookingData, readFails: bool) returns (r: BookingOutcome)
    modifies server
    ensures var run := CreateBookingRun(device.storage, readFails, d, old(server.script));
      && r == run.outcome
      && server.log == old(server.log) + run.requests
      && server.script == Drop(old(server.script), |run.requests|)
  {
    ghost var script := server.script;
    if readFails {
      return GenericFailure;
    }
    var client := GetAuthenticatedApi(device.storage);
    var res := server.Send(BookingPost(client, d));
    var booking := AxiosCall(res);
    if booking.Rejected? {
      return AxiosFailure(booking.errorResponse);
    }
    if !BookingAccepted(booking) {
      return GenericFailure;
    }
    var data := booking.response.data;
    res := server.Send(PaymentPost(client, BookingIdOf(booking), d));
    DropDrop(script, 1);
    assert res == Nth(script, 1);
    var payment := AxiosCall(res);
    if payment.Rejected? {
      return AxiosFailure(payment.errorResponse);
    }
    if Nullish(payment.response.data) {
      return GenericFailure;
    }
    if Truthy(Member(payment.response.data, "success")) {
      return Returned(data, BookingCreatedMessage);
    }
    res := server.Send(CancelDelete(client, Member(data, "id")));
    DropDrop(script, 2);
    assert res == Nth(script, 2);
    var cancel := AxiosCall(res);
    if cancel.Rejected? {
      return AxiosFailure(cancel.errorResponse);
    }
    return GenericFailure;
  }

  /** Without a token read, nothing is sent; otherwise the booking POST goes first, with `note` defaulted to ''. */
  lemma BookingPostFirst(storage: Storage, readFails: bool, d: BookingData, script: seq<HttpResult>)
    ensures var run := CreateBookingRun(storage, readFails, d, script);
      && (readFails <==> run.requests == [])
      && (readFails ==> run.outcome == GenericFailure)
      && (!readFails ==>
            && run.requests[0].verb == POST && run.requests[0].url == BookingCreateUrl
            && run.requests[0].authorization == BearerHeader(storage)
            && Member(run.requests[0].body, "note") == Str(NoteOrEmpty(d.note)))
  {
  }

  /** A payment is requested only after the server accepted the booking; a rejected booking leaves one request. */
  lemma NoPaymentWithoutBooking(storage: Storage, readFails: bool, d: BookingData, script: seq<HttpResult>)
    ensures var run := CreateBookingRun(storage, readFails, d, script);
      && (|run.requests| >= 2 <==> !readFails && BookingAccepted(AxiosCall(Nth(script, 0))))
      && (forall i :: 0 <= i < |run.requests| && run.requests[i].url == PaymentCreateUrl ==> i == 1)
  {
    var run := CreateBookingRun(storage, readFails, d, script);
    if |run.requests| == 3 {
      PaymentUrlDistinct(Member(AxiosCall(Nth(script, 0)).response.data, "id"));
    } else {
      PaymentUrlDistinct(Undefined);
    }
  }

  /** The booking, payment and cancellation URLs differ (at the first letter after `/api/v1/cars/api/v1/`). */
  lemma PaymentUrlDistinct(id: Json)
    ensures BookingCreateUrl != PaymentCreateUrl
    ensures BookingsUrl + ToText(id) + "/" != PaymentCreateUrl
  {
    var k := |ApiUrl| + 20;
    assert PaymentCreateUrl[k] == 'p';
    assert BookingCreateUrl[k] == 'b';
    assert (BookingsUrl + ToText(id) + "/")[k] == 'b';
  }

  /**
   * The payment request carries the booking id of the booking response, the
   * card type 'uzcard' and the card number reduced to its digits.
   */
  lemma PaymentRequestShape(storage: Storage, readFails: bool, d: BookingData, script: seq<HttpResult>)
    ensures var run := CreateBookingRun(storage, readFails, d, script);
      |run.requests| >= 2 ==>
        var p := run.requests[1];
        && p.verb == POST && p.url == PaymentCreateUrl
        && Member(p.body, "booking") == BookingIdOf(AxiosCall(Nth(script, 0)))
        && Member(p.body, "card_type") == Str("uzcard")
        && Member(p.body, "card_number") == Str(Digits(d.payment.cardNumber))
        && AllDigits(Digits(d.payment.cardNumber))
        && Member(p.body, "card_expire") == Str(d.payment.expiryDate)
  {
    var run := CreateBookingRun(storage, readFails, d, script);
    if |run.requests| >= 2 {
      var booking := AxiosCall(Nth(script, 0));
      var client := GetAuthenticatedApi(storage);
      assert run.requests[1] == PaymentPost(client, BookingIdOf(booking), d);
      PaymentPostFields(client, BookingIdOf(booking), d);
    }
  }

  /** The fields of the payment body. */
  lemma PaymentPostFields(client: ApiClient, bookingId: Json, d: BookingData)
    ensures var p := PaymentPost(client, bookingId, d);
      && Member(p.body, "booking") == bookingId
      && Member(p.body, "card_type") == Str("uzcard")
      && Member(p.body, "card_number") == Str(Digits(d.payment.cardNumber))
      && Member(p.body, "card_expire") == Str(d.payment.expiryDate)
  {
    var f := PaymentPost(client, bookingId, d).body.fields;
    LookupAt(f, "booking", 0);
    LookupAt(f, "card_type", 1);
    LookupAt(f, "card_number", 2);
  }

  /** The server rejected the payment after accepting the booking (its `success` is falsy). */
  predicate PaymentDeclined(o: AxiosOutcome) {
    o.Resolved? && !Nullish(o.response.data) && !Truthy(Member(o.response.data, "success"))
  }

  predicate PaymentAccepted(o: AxiosOutcome) {
    o.Resolved? && !Nullish(o.response.data) && Truthy(Member(o.response.data, "success"))
  }

  /**
   * A DELETE is sent exactly when the booking was accepted and the payment
   * declined: one DELETE, as the third and last request, to
   * `bookings/{bookingResponse.data.id}/`, and the call then throws.
   */
  lemma CompensatingDelete(storage: Storage, readFails: bool, d: BookingData, script: seq<HttpResult>)
    ensures var run := CreateBookingRun(storage, readFails, d, script);
      var booking := AxiosCall(Nth(script, 0));
      var declined := !readFails && BookingAccepted(booking) && PaymentDeclined(AxiosCall(Nth(script, 1)));
      && ((exists i :: 0 <= i < |run.requests| && run.requests[i].verb == DELETE) <==> declined)
      && (declined ==>
            && |run.requests| == 3
            && run.requests[2] == Request(DELETE, BookingsUrl + ToText(Member(booking.response.data, "id")) + "/",
                                          BearerHeader(storage), Undefined)
            && run.outcome.Thrown?)
  {
    var run := CreateBookingRun(storage, readFails, d, script);
    assert forall i :: 0 <= i < |run.requests| && run.requests[i].verb == DELETE ==> i == 2;
    if !readFails && BookingAccepted(AxiosCall(Nth(script, 0))) && PaymentDeclined(AxiosCall(Nth(script, 1))) {
      assert run.requests[2].verb == DELETE;
    }
  }

  /**
   * `createBooking` returns only on full success, and then returns the
   * booking response's data after exactly the two POSTs; every failure throws.
   */
  lemma SuccessEnvelope(storage: Storage, readFails: bool, d: BookingData, script: seq<HttpResult>)
    ensures var run := CreateBookingRun(storage, readFails, d, script);
      var booking := AxiosCall(Nth(script, 0));
      && (run.outcome.Returned? <==>
            !readFails && BookingAccepted(booking) && PaymentAccepted(AxiosCall(Nth(script, 1))))
      && (run.outcome.Returned? ==>
            && run.outcome == Returned(booking.response.data, BookingCreatedMessage)
            && |run.requests| == 2
            && run.requests[0].verb == POST && run.requests[1].verb == POST)
  {
  }

  /**
   * The thrown message: from the AxiosError branch it is the response's
   * `message` or the booking fallback; from every other branch, including the
   * plain Errors thrown for a rejected booking or payment, it is the generic
   * message.
   */
  lemma ThrownMessages(storage: Storage, readFails: bool, d: BookingData, script: seq<HttpResult>)
    ensures var o := CreateBookingRun(storage, readFails, d, script).outcome;
      && (o.Thrown? && !o.viaAxios ==> o.reason == Str(ServerUnreachableMessage))
      && (o.Thrown? && o.viaAxios ==>
            o.reason == Str(BookingFallbackMessage)
            || exists i :: 0 <= i < 3 && Nth(script, i).Response? && o.reason == Member(AxiosData(Nth(script, i).body), "message"))
      && (o.Thrown? ==> Truthy(o.reason))
  {
  }

  /** A booking the server rejects with a 2xx body never surfaces the server's message: it becomes the generic one. */
  lemma RejectedBookingMessageLost(storage: Storage, d: BookingData, reason: string, rest: seq<HttpResult>)
    ensures var script := [Response(200, Parsed(Obj([("success", Bool(false)), ("message", Str(reason))])))] + rest;
      var run := CreateBookingRun(storage, false, d, script);
      run.outcome == GenericFailure && |run.requests| == 1
  {
    var script := [Response(200, Parsed(Obj([("success", Bool(false)), ("message", Str(reason))])))] + rest;
    assert Nth(script, 0) == script[0];
  }

  /**
   * A booking answered `{success: true, data: {booking_id: 42}}` and a
   * payment answered
   * `{success: false, message: "card declined"}`: the code sends its
   * DELETE to `bookings/undefined/` (the top-level `id` is absent) and throws
   * the generic message, not "card declined".
   */
  lemma DeclinedPaymentScenario(storage: Storage, d: BookingData)
    ensures var script := [
        Response(201, Parsed(Obj([("success", Bool(true)), ("data", Obj([("booking_id", Num(42))]))]))),
        Response(200, Parsed(Obj([("success", Bool(false)), ("message", Str("card declined"))]))),
        Response(204, Parsed(Null))];
      var run := CreateBookingRun(storage, false, d, script);
      && |run.requests| == 3
      && Member(run.requests[1].body, "booking") == Num(42)
      && run.requests[2].url == BookingsUrl + "undefined/"
      && run.outcome == GenericFailure
  {
    var inner := [("booking_id", Num(42))];
    var bookingFields := [("success", Bool(true)), ("data", Obj(inner))];
    var paymentFields := [("success", Bool(false)), ("message", Str("card declined"))];
    LookupAt(bookingFields, "success", 0);
    LookupAt(bookingFields, "data", 1);
    LookupAt(inner, "booking_id", 0);
    LookupAt(paymentFields, "success", 0);
    assert Member(Obj(bookingFields), "id") == Undefined;
    DeclinedPaymentWithoutTopLevelId(storage, d, Obj(bookingFields), Obj(paymentFields), Response(204, Parsed(Null)));
  }

  /**
   * For any accepted booking whose body has no top-level `id` and any
   * declined payment, the DELETE goes to `bookings/undefined/`, and after a
   * successful DELETE the generic message is thrown.
   */
  lemma DeclinedPaymentWithoutTopLevelId(storage: Storage, d: BookingData, booking: Json, payment: Json, cancel: HttpResult)
    requires !Nullish(booking) && Truthy(Member(booking, "success")) && !Nullish(Member(booking, "data"))
    requires Member(booking, "id") == Undefined
    requires !Nullish(payment) && !Truthy(Member(payment, "success"))
    requires cancel.Response? && IsOk(cancel.status)
    ensures var script := [Response(201, Parsed(booking)), Response(200, Parsed(payment)), cancel];
      var run := CreateBookingRun(storage, false, d, script);
      && |run.requests| == 3
      && Member(run.requests[1].body, "booking") == Member(Member(booking, "data"), "booking_id")
      && run.requests[2].url == BookingsUrl + "undefined/"
      && run.outcome == GenericFailure
  {
    var script := [Response(201, Parsed(booking)), Response(200, Parsed(payment)), cancel];
    var client := GetAuthenticatedApi(storage);
    var id := Member(Member(booking, "data"), "booking_id");
    assert AxiosCall(Nth(script, 0)) == Resolved(AxiosResponse(201, booking));
    assert AxiosCall(Nth(script, 1)) == Resolved(AxiosResponse(200, payment));
    assert AxiosCall(Nth(script, 2)).Resolved?;
    var run := CreateBookingRun(storage, false, d, script);
    assert run == BookingRun(GenericFailure, [BookingPost(client, d), PaymentPost(client, id, d), CancelDelete(client, Undefined)]);
    PaymentPostFields(client, id, d);
    assert BookingsUrl + ToText(Undefined) + "/" == BookingsUrl + "undefined/";
  }

  /**
   * Every request `createBooking` sends (booking, payment and cancellation)
   * carries `Bearer <userToken>` when a truthy `userToken` is stored, and no
   * Authorization header otherwise.
   */
  lemma BookingRequestsAuthorized(storage: Storage, readFails: bool, d: BookingData, script: seq<HttpResult>)
    ensures var run := CreateBookingRun(storage, readFails, d, script);
      forall i :: 0 <= i < |run.requests| ==>
        && (run.requests[i].authorization.Some? <==> Has(storage, UserTokenKey))
        && (Has(storage, UserTokenKey) ==> run.requests[i].authorization == Some("Bearer " + storage[UserTokenKey]))
  {
  }

  /** The error that reaches the caller of a call made through the client of `useApi()`. */
  predicate Unauthorized(o: AxiosOutcome) {
    o.Rejected? && o.errorResponse.Some? && o.errorResponse.value.status == 401
  }

  /**
   * One request through the client of `useApi()`: the response interceptor
   * removes `userToken` and goes to '/login' on a 401 and passes every
   * outcome on unchanged (a 401 still rejects). The removal is not awaited by
   * the code; it is taken to succeed.
   */
  method HookSend(device: Device, server: Server, client: ApiClient, verb: Verb, path: string, body: Json)
    returns (r: AxiosOutcome)
    modifies device, server
    ensures r == AxiosCall(Nth(old(server.script), 0))
    ensures server.log == old(server.log) + [Request(verb, ApiUrl + path, client.authorization, body)]
    ensures server.script == Drop(old(server.script), 1)
    ensures client.interceptsUnauthorized && Unauthorized(r) ==>
      device.storage == Session.RemoveItem(old(device.storage), UserTokenKey) && device.route == LoginRoute
    ensures !(client.interceptsUnauthorized && Unauthorized(r)) ==>
      device.storage == old(device.storage) && device.route == old(device.route)
    ensures device.alerts == old(device.alerts)
  {
    var res := server.Send(Request(verb, ApiUrl + path, client.authorization, body));
    r := AxiosCall(res);
    if client.interceptsUnauthorized && Unauthorized(r) {
      device.storage := Session.RemoveItem(device.storage, UserTokenKey);
      device.Navigate(LoginRoute);
    }
  }

  /** After the interceptor has handled a 401, `checkAuth` finds no session. */
  lemma UnauthorizedEndsSession(storage: Storage)
    ensures !Session.SessionPresent(Session.RemoveItem(storage, UserTokenKey))
    ensures BearerHeader(Session.RemoveItem(storage, UserTokenKey)) == None
  {
  }

  /** What the thin wrappers of `useApi()` (`register`, `getCars`, ...) end with. */
  datatype HookResult = HookData(data: Json) | HookAxiosError(errorResponse: Option<AxiosResponse>) | HookUnexpected

  /**
   * A wrapper of `useApi()` such as `getCars`: builds the intercepting client,
   * sends one request, returns `response.data`, rethrows an AxiosError and
   * turns any other error (a failed token read) into 'An unexpected error occurred'.
   */
  method HookCall(device: Device, server: Server, readFails: bool, verb: Verb, path: string, body: Json)
    returns (r: HookResult)
    modifies device, server
    ensures device.alerts == old(device.alerts)
    ensures readFails ==>
      && r == HookUnexpected && server.log == old(server.log) && server.script == old(server.script)
      && device.storage == old(device.storage) && device.route == old(device.route)
    ensures !readFails ==>
      && server.log == old(server.log) + [Request(verb, ApiUrl + path, BearerHeader(old(device.storage)), body)]
      && server.script == Drop(old(server.script), 1)
    ensures !readFails ==> match AxiosCall(Nth(old(server.script), 0))
      case Resolved(resp) => r == HookData(resp.data)
      case Rejected(e) => r == HookAxiosError(e)
    ensures !readFails && Unauthorized(AxiosCall(Nth(old(server.script), 0))) ==>
      device.storage == Session.RemoveItem(old(device.storage), UserTokenKey) && device.route == LoginRoute
    ensures !(!readFails && Unauthorized(AxiosCall(Nth(old(server.script), 0)))) ==>
      device.storage == old(device.storage) && device.route == old(device.route)
  {
    if readFails {
      return HookUnexpected;
    }
    var client := HookAuthenticatedApi(device.storage);
    var o := HookSend(device, server, client, verb, path, body);
    match o
    case Resolved(resp) => r := HookData(resp.data);
    case Rejected(e) => r := HookAxiosError(e);
  }

  const LoginPath: string := "/api/auth/login/"

  /**
   * `useApi().login`: it builds the intercepting client, so a failing token
   * read ends in 'An unexpected error occurred', but it posts through bare
   * axios, without the client's header or interceptor: no Authorization
   * header is sent and even a 401 leaves the device as it was.
   */
  method HookLogin(device: Device, server: Server, readFails: bool, username: string, password: string)
    returns (r: HookResult)
    modifies server
    ensures readFails ==> r == HookUnexpected && server.log == old(server.log) && server.script == old(server.script)
    ensures !readFails ==>
      && server.log == old(server.log)
           + [Request(POST, ApiUrl + LoginPath, None, StrObj([("username", username), ("password", password)]))]
      && server.script == Drop(old(server.script), 1)
    ensures !readFails ==> match AxiosCall(Nth(old(server.script), 0))
      case Resolved(resp) => r == HookData(resp.data)
      case Rejected(e) => r == HookAxiosError(e)
  {
    if readFails {
      return HookUnexpected;
    }
    var res := server.Send(Request(POST, ApiUrl + LoginPath, None, StrObj([("username", username), ("password", password)])));
    match AxiosCall(res)
    case Resolved(resp) => r := HookData(resp.data);
    case Rejected(e) => r := HookAxiosError(e);
  }

  /** `getToken()`: the value stored under `token`, or null when it is absent or the read fails. */
  function GetToken(storage: Storage, readFails: bool): (r: Option<string>)
    ensures readFails ==> r == None
    ensures !readFails ==> r == GetItem(storage, TokenKey)
  {
    if readFails then None else GetItem(storage, TokenKey)
  }

  /** `getBookings` and `getContracts` never throw: they resolve to success with data, or to failure. */
  datatype ListResult = ListOk(data: Json) | ListFailed

  datatype ListRun = ListRun(result: ListResult, requests: seq<Request>)

  /** A list call on `url` with the bearer token read from `token` (not `userToken`). */
  function ListCallRun(storage: Storage, readFails: bool, url: string, script: seq<HttpResult>): ListRun
  {
    var token := GetToken(storage, readFails);
    if token.None? || token.value == "" then ListRun(ListFailed, [])
    else
      var req := Request(GET, url, Some("Bearer " + token.value), Undefined);
      match AxiosCall(Nth(script, 0))
      case Resolved(resp) => ListRun(ListOk(resp.data), [req])
      case Rejected(_) => ListRun(ListFailed, [req])
  }

  method ListCall(device: Device, server: Server, readFails: bool, url: string) returns (r: ListResult)
    modifies server
    ensures var run := ListCallRun(device.storage, readFails, url, old(server.script));
      r == run.result && server.log == old(server.log) + run.requests
      && server.script == Drop(old(server.script), |run.requests|)
  {
    var token := GetToken(device.storage, readFails);
    if token.None? || token.value == "" {
      return ListFailed;
    }
    var res := server.Send(Request(GET, url, Some("Bearer " + token.value), Undefined));
    match AxiosCall(res)
    case Resolved(resp) => r := ListOk(resp.data);
    case Rejected(_) => r := ListFailed;
  }

  /** `getBookings()`, through the plain axios instance: no interceptor, so storage is never touched. */
  method GetBookings(device: Device, server: Server, readFails: bool) returns (r: ListResult)
    modifies server
    ensures var run := ListCallRun(device.storage, readFails, BookingsUrl, old(server.script));
      r == run.result && server.log == old(server.log) + run.requests
    ensures device.storage == old(device.storage) && device.route == old(device.route)
  {
    r := ListCall(device, server, readFails, BookingsUrl);
  }

  /**
   * A 401 on the bookings list only makes the call fail: the client has no
   * interceptor, so nothing is removed from storage (and `GetBookings`
   * leaves the route alone).
   */
  lemma BookingsUnauthorizedOnlyFails(storage: Storage, body: Body, rest: seq<HttpResult>)
    requires Has(storage, TokenKey)
    ensures var run := ListCallRun(storage, false, BookingsUrl, [Response(401, body)] + rest);
      run.result == ListFailed && |run.requests| == 1
  {
    assert Nth([Response(401, body)] + rest, 0) == Response(401, body);
  }

  /** `getContracts()`, the same call on the contracts endpoint. */
  method GetContracts(device: Device, server: Server, readFails: bool) returns (r: ListResult)
    modifies server
    ensures var run := ListCallRun(device.storage, readFails, ContractsUrl, old(server.script));
      r == run.result && server.log == old(server.log) + run.requests
  {
    r := ListCall(device, server, readFails, ContractsUrl);
  }

  /**
   * Without a truthy `token` (or when reading it fails) nothing is sent and the
   * result is a failure; with one, exactly one GET carries it as bearer token,
   * and the result is success exactly when that GET resolves.
   */
  lemma ListCallContract(storage: Storage, readFails: bool, url: string, script: seq<HttpResult>)
    ensures var run := ListCallRun(storage, readFails, url, script);
      && (readFails || !Has(storage, TokenKey) ==> run == ListRun(ListFailed, []))
      && (!readFails && Has(storage, TokenKey) ==>
            && run.requests == [Request(GET, url, Some("Bearer " + storage[TokenKey]), Undefined)]
            && (run.result.ListOk? <==> AxiosCall(Nth(script, 0)).Resolved?))
  {
  }

  /** A stored `userToken` does not help: without `token` the bookings call fails without a request. */
  lemma ListCallIgnoresUserToken(storage: Storage, url: string, script: seq<HttpResult>)
    requires Has(storage, UserTokenKey) && TokenKey !in storage
    ensures ListCallRun(storage, false, url, script) == ListRun(ListFailed, [])
  {
  }

  /**
   * `logout` removes `userToken` and `userData` but not `token`, so after it
   * the bookings and contracts calls still send the old bearer token.
   */
  lemma StaleTokenAfterLogout(storage: Storage, url: string, script: seq<HttpResult>)
    requires Has(storage, TokenKey)
    ensures var after := Session.RemoveItem(Session.RemoveItem(storage, UserTokenKey), UserDataKey);
      && !Session.SessionPresent(after)
      && ListCallRun(after, false, url, script).requests == [Request(GET, url, Some("Bearer " + storage[TokenKey]), Undefined)]
  {
    var after := Session.RemoveItem(Session.RemoveItem(storage, UserTokenKey), UserDataKey);
    assert after[TokenKey] == storage[TokenKey];
  }
}
