# Car-rental client: session, API client and booking screens

This project models the client side of a car-rental mobile app (React
Native). It covers:

- **The session store.** It holds the `isAuthenticated` flag over the device's
  AsyncStorage and has three operations: `checkAuth`, `login` and `logout`.
- **The API client.** It consists of:
  - the bearer-header client used by `createBooking`;
  - the copy inside `useApi()`, whose interceptor forces a logout on HTTP 401;
  - the booking → payment → compensating-DELETE sequence;
  - the bookings and contracts calls, which read a separate `token` key.
- **Five screens:**
  - payment: card and expiry formatting, `validateInputs`, `handlePayment`;
  - sign-up: phone formatting and validation, the input filter,
    `handleSignup`;
  - rent: the phone pattern, the date handlers, the day count,
    `handleSubmit`;
  - register: validation, the e-mail pattern, the request body, error
    aggregation, `handleRegister`;
  - booking: field updates and the required-fields check.

## How effects are modelled

- **Device state.** The `Device.Device` class holds the storage map, the
  current route and the alerts shown so far. Every screen is a class whose
  fields are the screen's React state. Its handlers are methods that say
  exactly how the state, the device and the server log change.
- **The network.** The server is the `Http.Server` class. It takes the next
  result from a script of responses and logs every request.
- **Specification functions.** Each multi-request operation has a pure
  function that gives the requests the operation sends and how it ends, for
  any script. Examples are `Api.CreateBookingRun`, `Signup.SignupRunOf`,
  `Register.RegisterRunOf` and `Rent.RentRunOf`. The operation's method is
  proved against that function, and the lemmas about the function state what
  the code promises.
- **Axios and fetch.** A non-2xx response makes axios reject; fetch resolves
  on any status. A non-JSON body given to `.json()`, and a property read on
  `null` or `undefined`, raise errors that the surrounding `catch` handles.
- **JavaScript values.** Server values are `Json.Json` values. The code's
  JavaScript idioms are modelled exactly: truthiness, `x || y`, `x?.key`,
  `String(x)`, and `JSON.stringify` with its own-key order (array-index keys
  first, ascending). Parsed objects are taken to hold each key once.
- **Time.** Time is UTC milliseconds since 1970. `setHours(0,0,0,0)` and
  `setHours(23,59,59,999)` snap to the first and last millisecond of the day.
  `new Date(y, m)` is the first millisecond of that month.

Some behaviours of the code are easy to miss. The model states each of them
as a lemma:

- **Payment DELETE.** A declined payment sends its DELETE to
  `bookings/undefined/`. The code reads `bookingResponse.data.id`, but the
  booking id is at `data.data.booking_id`. The server's "card declined"
  message is replaced by the generic one. See `Api.DeclinedPaymentScenario`.
- **Rejected booking.** A booking the server rejects with a 2xx status also
  loses its message, because the plain `Error` thrown inside the `try`
  becomes the generic text. See `Api.RejectedBookingMessageLost`.
- **401 interceptor.** The interceptor removes only `userToken`. It does not
  clear `isAuthenticated`, so the flag stays true until the next
  `checkAuth`. See `Api.HookSend` and `Api.UnauthorizedEndsSession`.
- **Stale `token` key.** `getBookings` and `getContracts` read `token`, which
  only the register screen writes and `logout` never removes. See
  `Api.StaleTokenAfterLogout` and `Api.ListCallIgnoresUserToken`.
- **`checkAuth`.** It needs both `userToken` and `userData`, so a `login`
  without a stored profile is undone by the next check. See
  `Session.LoginThenCheckAuth`.
- **Card-number check.** The card-number error of `validateInputs` can never
  show after the earlier check of `handlePayment` has passed. See
  `Payment.CardErrorNeverShown`.
- **Card expiry.** A card is accepted up to and including the first
  millisecond of its expiry month, and refused from the next millisecond
  on. See `Payment.ExpiredByCalendarMonth`.
- **Non-string failure messages.** A booking refused with a `message` that
  is a number, a boolean or an object makes `includes` throw inside the
  payment screen's `catch`, so no alert is shown. An array message is
  searched element by element, so `["Token"]` still leads to '/login'. See
  `Payment.OneAlertPerOutcome` and `Payment.TokenArrayGoesToLogin`.
- **Field-error order.** `Object.entries` lists numeric field names before
  the others, so the register screen's lines do not always follow the
  reply's order. See `ObjectKeys.OwnKeyOrderLaws`.
- **Equal rental dates.** Equal dates give a day count of 0, so they are
  refused. A rental from one day's midnight to another day's 23:59:59.999
  counts both days. See `Rent.EqualDatesGiveNoDays` and `Rent.InclusiveDays`.

The app's design description differs from its code in five places. The
model follows the code in each of them:

- **Session after login.** The description says every `login(T)` is seen as
  a session by the next `checkAuth`. The code also needs `userData`, and an
  empty T is not truthy. See `Session.LoginThenCheckAuth`.
- **401 answers.** The description says a 401 leaves the client
  unauthenticated. The code removes the token and navigates, but keeps the
  flag. See `Api.HookSend`.
- **Declined payment.** The description says a declined payment deletes
  `bookings/42/` and returns the server's message. The code deletes
  `bookings/undefined/` and throws the generic message. See
  `Api.DeclinedPaymentScenario`.
- **Failed success flag.** The description says a body with
  `success: false` surfaces the server's message. In `createBooking` the
  message is lost. See `Api.RejectedBookingMessageLost`.
- **401 on the bookings list.** The description says a 401 on the bookings
  call clears the token and sends the user to '/login'. `getBookings` goes
  through a client without the interceptor, so a 401 there only makes the
  call fail; storage and route are untouched. See
  `Api.BookingsUnauthorizedOnlyFails` and `Api.GetBookings`.

## Model

| member | source | states |
|---|---|---|
| Session.AuthProvider.constructor | hooks/useAuth.tsx:13-18 | mounting runs `checkAuth`: the flag is true iff no read fails and both `userToken` and `userData` are non-empty, otherwise the route is '/login'; storage and alerts unchanged |
| Session.AuthProvider.CheckAuth | hooks/useAuth.tsx:20-37 | authenticated iff no read fails and both `userToken` and `userData` are non-empty; otherwise the flag is false and the route '/login'; storage and alerts unchanged |
| Session.AuthProvider.Login | hooks/useAuth.tsx:39-48 | on success `userToken` maps to the token, no other key changes, the flag is true and the route '/(tabs)'; a failed write only adds the login alert |
| Session.AuthProvider.Logout | hooks/useAuth.tsx:50-60 | the two keys are removed in order; a failure at the first or second removal keeps what was already done, keeps flag and route and adds the logout alert; otherwise flag false and '/login' |
| Session.SetItem | hooks/useAuth.tsx:41 | the key maps to the value and every other key keeps its presence and value |
| Session.RemoveItem | hooks/useAuth.tsx:52-53 | the key is absent and every other key keeps its presence and value |
| Session.LoginThenCheckAuth | hooks/useAuth.tsx:20-43 | after `login(T)` a check finds a session iff T is non-empty and a profile is stored |
| Session.LogoutThenCheckAuth | hooks/useAuth.tsx:20-55 | after a complete logout no session is found |
| Session.LoginStoresToken | hooks/useAuth.tsx:39-43 | reading `userToken` back after `login(T)` gives T |
| Session.LoginThenCheck | hooks/useAuth.tsx:20-43 | a login followed by a check leaves the flag true iff the token is non-empty and a profile was stored, and the token readable |
| Session.UseAuthRoundTrip | hooks/useAuth.tsx:69-75 | `useAuth` hands back exactly the provider it runs under, and throws the provider message exactly when there is none |
| Session.ReadAfterWrite | hooks/useAuth.tsx:22-53 | reading a key after writing it gives the written value, after removing it gives null, and every other key reads as before |
| Api.BookingRequestsAuthorized | hooks/useApi.tsx:22-53 | every request `createBooking` sends carries an `Authorization` header iff a truthy `userToken` is stored, and then it is "Bearer " followed by that token |
| Api.AxiosFailure | hooks/useApi.tsx:88-94 | the AxiosError branch throws a truthy message: the response's `message` when truthy, else the booking fallback text |
| Api.CreateBooking | hooks/useApi.tsx:40-101 | the result and the requests sent are those of `CreateBookingRun` for the server's script, and the script advances by that many answers |
| Api.BookingPostFirst | hooks/useApi.tsx:41-53 | nothing is sent iff the token read fails; otherwise the first request is the booking POST with the bearer header and the note defaulted to '' |
| Api.NoPaymentWithoutBooking | hooks/useApi.tsx:57-73 | a second request exists iff the booking answer was accepted, and the payment URL only ever appears as the second request |
| Api.PaymentUrlDistinct | hooks/useApi.tsx:47-77 | the payment URL is neither the booking URL nor any cancellation URL, so the payment POST is recognisable in the log |
| Api.PaymentRequestShape | hooks/useApi.tsx:62-73 | the payment POST carries `data.data.booking_id`, card type 'uzcard', the card number's digits only, and the expiry as given |
| Api.PaymentPostFields | hooks/useApi.tsx:62-67 | the four members of the payment body |
| Api.CompensatingDelete | hooks/useApi.tsx:75-79 | a DELETE is sent iff the booking was accepted and the payment declined; it is the third request, addressed by `bookingResponse.data.id`, and the call then throws |
| Api.SuccessEnvelope | hooks/useApi.tsx:81-85 | the call returns iff booking and payment both succeed, and then returns the booking response's data after exactly two POSTs |
| Api.ThrownMessages | hooks/useApi.tsx:86-99 | a non-Axios failure throws the generic message, an Axios one a response `message` or the fallback; every thrown message is truthy |
| Api.RejectedBookingMessageLost | hooks/useApi.tsx:57-59 | a booking refused with a 2xx body ends with the generic message after one request, whatever the server's message |
| Api.DeclinedPaymentScenario | hooks/useApi.tsx:75-78 | booking id 42 then "card declined": three requests, payment for booking 42, DELETE to `bookings/undefined/`, generic message |
| Api.DeclinedPaymentWithoutTopLevelId | hooks/useApi.tsx:63-78 | for any accepted booking without a top-level `id` and any declined payment, the DELETE goes to `bookings/undefined/` and the generic message is thrown |
| Api.HookSend | hooks/useApi.tsx:136-146 | a 401 through the intercepting client removes `userToken` and routes to '/login' and still rejects; every other outcome leaves the device as it was |
| Api.UnauthorizedEndsSession | hooks/useApi.tsx:139-142 | after the interceptor ran, no session is found and no bearer header is built |
| Api.HookCall | hooks/useApi.tsx:174-241 | a wrapper sends one request with the bearer header of the stored `userToken`, returns `response.data` or rethrows the Axios error; a 401 removes `userToken` and routes to '/login', any other answer leaves storage and route alone; a failing token read sends nothing and reports an unexpected error; no alert is shown |
| Api.HookLogin | hooks/useApi.tsx:151-162 | `login` posts the username and password to the login URL with no `Authorization` header and no interceptor, so storage and route never change; it returns `response.data` or rethrows the Axios error, and a failing token read sends nothing |
| Api.ListCall | hooks/useApi.tsx:243-265 | the result and requests are those of `ListCallRun` |
| Api.GetBookings | hooks/useApi.tsx:243-265 | the bookings call ends as `ListCallRun` on the bookings URL says, and leaves storage and route as they were |
| Api.BookingsUnauthorizedOnlyFails | hooks/useApi.tsx:243-264 | with a stored `token`, a 401 answer to the bookings GET makes the call fail after that one request; no interceptor runs |
| Api.GetContracts | hooks/useApi.tsx:267-289 | the contracts call ends as `ListCallRun` on the contracts URL says |
| Api.ListCallContract | hooks/useApi.tsx:243-265 | without a truthy `token` nothing is sent and the result is a failure; with one, exactly one GET carries it and the result is success iff that GET resolves |
| Api.ListCallIgnoresUserToken | hooks/useApi.tsx:245-248 | a stored `userToken` without `token` still fails without a request |
| Api.StaleTokenAfterLogout | hooks/useApi.tsx:243-252 | after a logout no session exists, yet the list calls still send the old `token` |
| Http.AxiosCall | hooks/useApi.tsx:47-53 | axios resolves iff the response came with a 2xx status, and a rejection carries the response iff there was one |
| Text.Digits | app/payment.tsx:212 | every character kept is a digit, and the result is no longer than the input |
| Text.UpperCaseLaws | app/payment.tsx:281 | after upper-casing no letter 'a'..'z' remains, upper-casing again changes nothing, and digits and white space stay where they were |
| Text.DigitsIdempotent | app/payment.tsx:212 | removing non-digits twice equals removing them once |
| Text.DigitsOfGroupedCard | app/payment.tsx:212-219 | the grouped text `4111 1111 1111 1111` has the digits `4111111111111111` |
| Text.RemoveWhitespace | app/payment.tsx:48 | no white space remains |
| Text.Filter | app/signup.tsx:169 | every character kept satisfies the test |
| Text.FilterNarrows | app/signup.tsx:169 | filtering with a looser test and then a stricter one is filtering with the stricter one |
| Text.Trim | app/rent.tsx:140 | the result is no longer than the input and has white space at neither end |
| Text.TrimIsSlice | app/rent.tsx:140 | the result is a slice of the input, and everything cut off before and after it is white space |
| Text.TrimDropsOnlyWhitespace | app/rent.tsx:140-144 | trimming removes only white space: the rest of the input, in order |
| Text.TrimEmptyIff | app/rent.tsx:140 | the trimmed phone is empty iff the input is all white space |
| Text.TrimIdempotent | app/rent.tsx:184-185 | trimming the passed phone and note again changes nothing |
| Text.Contains | app/payment.tsx:95 | `includes` is true iff the part occurs at some index |
| Text.NatToStringRoundTrip | app/rent.tsx:182 | the decimal digits of `String(n)` read back as n |
| Text.ParseIntOfNatToString | app/payment.tsx:141 | `parseInt` reads back what `String(n)` writes, and `parseInt('')` is NaN |
| Text.JoinCount | app/register.tsx:83-85 | joining n parts that do not contain the character c, with c as the separator, gives exactly n-1 occurrences of c |
| Json.Lookup | app/register.tsx:80-89 | a missing key reads undefined, and a key in the last field reads that field's value |
| Json.MemberAt | app/rent.tsx:173 | a read of a key an object has gives the value at its last occurrence; a read of a missing key gives undefined |
| Json.OrLaws | app/register.tsx:89 | `x \|\| y` is truthy iff x or y is, it is always x or y, and it is associative |
| Json.StrObjMember | app/register.tsx:55-63 | every field of a body built from distinct string fields reads back as that string |
| Json.Stringify | app/signup.tsx:111-115 | the document is non-empty and an object's text starts with '{' |
| Json.StringifyIndexKeyFirst | app/signup.tsx:111-115 | `JSON.stringify` of the object parsed from `{"b":1,"0":2}` is `{"0":2,"b":1}`: members are written in own-key order |
| Calendar.DayStart | app/rent.tsx:96 | the first millisecond of the day: a multiple of a day, at most t, less than a day before it |
| Calendar.DayEnd | app/rent.tsx:113 | the last millisecond of the same day |
| Calendar.DayBoundsStable | app/rent.tsx:94-120 | both ends of a day lie in that day, and snapping again changes nothing |
| Calendar.MonthLength | app/payment.tsx:59 | every month has 28 to 31 days |
| Calendar.MonthStartIncreasing | app/payment.tsx:59-61 | later calendar months start strictly later |
| Calendar.CivilOfSameDay | app/payment.tsx:130-133 | two instants print the same date iff they fall in the same day |
| Calendar.InstantInMonth | app/payment.tsx:59-61 | an instant lies between its month's start and the next month's start |
| Calendar.IsoDate | app/payment.tsx:130-133 | for years 0..9999 the `toISOString` date part is ten characters with '-' at positions 4 and 7 |
| Calendar.CivilText | app/payment.tsx:130-133 | a civil date's `YYYY-MM-DD` text is ten characters with '-' at positions 4 and 7 for years 0..9999 |
| Calendar.MonthStartMonotone | app/payment.tsx:59-61 | one month starts no later than another iff it comes no later in the calendar |
| Payment.FormatCardNumber | app/payment.tsx:209-223 | the loop builds the card display: the digits of the text, their first sixteen shown in groups of four, at most 19 characters, a space exactly at every fifth position, empty iff no digit |
| Payment.CardDisplayShape | app/payment.tsx:212-219 | the displayed text holds exactly the first sixteen digits, spaced every fifth character, at most 19 long, empty iff no digit was typed |
| Payment.GroupedDigits | app/payment.tsx:215-219 | grouping only inserts spaces: removing them gives the digits back |
| Payment.GroupedSpaces | app/payment.tsx:215-219 | spaces stand exactly at every fifth position and a digit ends the text |
| Payment.CardDisplayIdempotent | app/payment.tsx:209-222 | formatting the displayed text again changes nothing |
| Payment.LongCardNumberStoredInFull | app/payment.tsx:216-222 | with more than sixteen digits the stored number differs from the digits shown, and it then fails the first card check of `handlePayment` |
| Payment.ExpiryShape | app/payment.tsx:240-243 | the field holds the typed digits, with '/' after the first two once there are two; removing non-digits gives the typed digits back |
| Payment.ExpiryIdempotent | app/payment.tsx:238-245 | re-running the handler on its output changes nothing |
| Payment.SlashComesBack | app/payment.tsx:240-243 | erasing the slash of `MM/` gives `MM/` again |
| Payment.ExpiryFormatRoundTrip | app/payment.tsx:54-59 | the pattern accepts `MM/YY` for every month 1..12 and year 0..99, and `parseInt` reads both back |
| Payment.TypedExpiryAccepted | app/payment.tsx:238-245 | four typed digits with a month 01..12 become an expiry the pattern accepts |
| Payment.ExpiredByCalendarMonth | app/payment.tsx:58-64 | a card is accepted before its expiry month, refused after it, and within it refused at every instant but the first |
| Payment.ExpiredMonotone | app/payment.tsx:58-64 | when a later expiry is refused, every earlier one is refused too |
| Payment.CheckInputsContract | app/payment.tsx:38-80 | all errors are clear iff every field passes its check, an "expired" error only for a well-formed date, and the card error is clear iff the card check passes |
| Payment.ProceedIffValid | app/payment.tsx:89-138 | `createBooking` is reached iff the card is sixteen digits, the expiry well-formed and not expired, the CVV three digits, the holder at least three characters and a `userToken` stored |
| Payment.CardErrorNeverShown | app/payment.tsx:47-93 | once the first card check passes, `validateInputs` never reports a card error |
| Payment.QuickChecksFirst | app/payment.tsx:89-111 | a card number that is not sixteen digits, a CVV not three characters long or an empty holder name is refused by an alert before the token check |
| Payment.CarIdJson | app/payment.tsx:141 | `parseInt(carId)` sends a number, or null for NaN |
| Payment.BookingForContents | app/payment.tsx:140-152 | a numeric car id arrives as that number, dates on the same calendar day give the same date text, and the note is passed through |
| Payment.CatchMessage | app/payment.tsx:176-184 | the chosen value is always truthy: a truthy `detail`, else a truthy response `message`, else a truthy error `message`, else the generic text |
| Payment.FailureMessage | app/payment.tsx:174-184 | for what `createBooking` throws, the chosen value is its own `message` whenever that is truthy |
| Payment.OutcomeAlerts | app/payment.tsx:162-190 | success shows the success dialog whose OK goes to '/(tabs)'; a failure whose chosen value is a string or an array shows its text under 'Xatolik'; any other value makes `includes` throw and nothing is shown |
| Payment.OutcomeRoute | app/payment.tsx:186-188 | the route becomes '/login' iff the failure's chosen value `includes` 'Token' or 'avtorizatsiya' (substring for a string, element for an array), else it stays |
| Payment.StringFailureShown | app/payment.tsx:174-190 | a booking failure with a string message shows exactly that string under 'Xatolik', and goes to '/login' iff it contains 'Token' or 'avtorizatsiya' |
| Payment.OneAlertPerOutcome | app/payment.tsx:162-190 | every `createBooking` outcome shows exactly one alert, except a failure whose message is a number, boolean or object, which shows none |
| Payment.TokenRejectionGoesToLogin | app/payment.tsx:174-190 | a booking refused with a non-2xx status and a `message` containing 'Token' ends at '/login' with that message under 'Xatolik' |
| Payment.TokenArrayGoesToLogin | app/payment.tsx:186-190 | a refusal whose `message` is the array `["Token"]` also ends at '/login', showing "Token" |
| Payment.ShowOutcome | app/payment.tsx:162-190 | adds exactly `OutcomeAlerts` and sets the route to `OutcomeRoute`; storage unchanged |
| Payment.PaymentScreen.constructor | app/payment.tsx:23-34 | every field and error starts empty and nothing is submitting |
| Payment.PaymentScreen.OnCardNumberText | app/payment.tsx:209-223 | stores the digits and the display, clears the card error only, leaves the other fields |
| Payment.PaymentScreen.OnExpiryText | app/payment.tsx:238-245 | stores the formatted expiry, clears its error only |
| Payment.PaymentScreen.OnCvvText | app/payment.tsx:260-263 | stores the CVV as typed, clears its error only |
| Payment.PaymentScreen.OnHolderText | app/payment.tsx:279-282 | stores the upper-cased name, clears its error only |
| Payment.PaymentScreen.ValidateInputs | app/payment.tsx:38-80 | sets every error text to that field's check and returns true iff all are clear; fields unchanged |
| Payment.PaymentScreen.HandlePayment | app/payment.tsx:82-196 | ignored while submitting; otherwise a quick-check alert, or the token alert and '/login', or only the field errors, or exactly createBooking's requests followed by its alert and route; submitting ends false |
| Signup.UzbekPhoneExactly | app/signup.tsx:17-20 | the pattern accepts exactly "+998" followed by nine digits |
| Signup.FormatPhoneNumber | app/signup.tsx:22-31 | the result starts with "+998" and is digits after the '+' |
| Signup.FormattedPhoneDigits | app/signup.tsx:22-31 | the formatted number's digits are the input's, with 998 added exactly when they did not start with it |
| Signup.FormatPhoneIdempotent | app/signup.tsx:22-31 | formatting a formatted number changes nothing |
| Signup.FormattedPhoneValid | app/signup.tsx:39-43 | the formatted number passes iff the input had 12 digits starting with 998, or 9 digits not starting with it |
| Signup.PhoneInput | app/signup.tsx:167-171 | only digits and '+' remain |
| Signup.PhoneInputKeepsExactly | app/signup.tsx:169 | typed text is kept unchanged iff it holds only digits and '+' |
| Signup.PhoneInputKeepsDigits | app/signup.tsx:167-171 | the filter keeps every digit, so the formatted number is the same with or without it |
| Signup.RegistrationFailure | app/signup.tsx:63-77 | the username message iff a parsed `username` is truthy, then the email message, else the generic one (also for an unreadable body) |
| Signup.ProfileDocument | app/signup.tsx:111-115 | the stored profile is a non-empty document |
| Signup.MismatchReportedFirst | app/signup.tsx:34-37 | a password mismatch is reported first and nothing is sent |
| Signup.RequestsOnlyForValidForm | app/signup.tsx:33-57 | nothing is sent iff the passwords differ or the formatted phone fails, and the phone alert is shown for the latter |
| Signup.RegisterRequestShape | app/signup.tsx:46-57 | the registration POST carries the formatted phone, which is valid |
| Signup.SignedInAfterThreeAnswers | app/signup.tsx:80-117 | a sign-in needs exactly three requests, each answered with a 2xx status, and a `userData` write that works; the second request is the token request, and the profile GET carries the token that is then stored |
| Signup.SignupLeavesSession | app/signup.tsx:111-117 | after the profile write and login, a check finds a session iff the token is non-empty |
| Signup.SignupScreen.constructor | app/signup.tsx:10-14 | every field starts empty |
| Signup.SignupScreen.OnPhoneText | app/signup.tsx:167-171 | stores the filtered phone, other fields unchanged |
| Signup.SignupScreen.HandleSignup | app/signup.tsx:33-126 | sends exactly `SignupRunOf`'s requests and ends with its one alert, or with the profile stored and `login(token)` applied |
| Signup.SignupScreen.AfterRegistration | app/signup.tsx:59-121 | the rest of the run after the registration answer, as `RegisteredRun` says |
| Signup.SignupScreen.AfterTokenRequest | app/signup.tsx:91-121 | the rest of the run after the token answer, as `LoggedInRun` says |
| Register.ValidEmailIsPattern | app/register.tsx:41-42 | the computed e-mail test accepts exactly what `/^[^\s@]+@[^\s@]+\.[^\s@]+$/` matches |
| Register.Precheck | app/register.tsx:22-46 | the missing-field message iff a required field is empty, then the password message, and no message iff all checks pass (e-mail only when given) |
| Register.RegisterBodyFields | app/register.tsx:55-63 | `password2` repeats the password; phone and e-mail are sent as typed |
| ObjectKeys.InsertByIndex | app/register.tsx:83 | inserting an index-keyed member into an ascending run keeps it ascending and adds exactly that member |
| ObjectKeys.SortByIndex | app/register.tsx:83 | the index-keyed members come out in ascending numeric order, each exactly once |
| ObjectKeys.OwnKeyOrderLaws | app/register.tsx:83 | `Object.entries` lists every member once: the array-index keys first in ascending order, then the other keys in reply order |
| Register.IndexKeyListedFirst | app/register.tsx:83 | for `{"username": ["taken"], "0": ["bad"]}` the entries are "0" and then "username" |
| Register.EntryLines | app/register.tsx:83-85 | one line per entry iff every value is an array, each line being that entry's `field: errors` |
| Register.FieldErrorsOnePerLine | app/register.tsx:80-86 | n field lines without line breaks give an alert text with exactly n line breaks: the header's and one between each pair of lines |
| Register.FieldLineAvoidsBreaks | app/register.tsx:84 | a field line has no break when its name and messages have none |
| Register.DetailBeforeMessage | app/register.tsx:87-90 | without `errors`, an object reply shows `detail` when truthy, else `message` |
| Register.ChecksSendNothing | app/register.tsx:22-46 | nothing is sent iff a check fails, and then its message is the alert |
| Register.UnreadableReplyStops | app/register.tsx:70-77 | an unparseable reply stops the run, whatever its status, after one request |
| Register.RegisteredAfterTwoAnswers | app/register.tsx:50-126 | registration completes only after two readable 2xx answers, and the token is the second answer's `access` |
| Register.RegistrationLeavesSession | app/register.tsx:124-126 | after the writes and login, a session and the `token` key exist iff the token is non-empty |
| Register.RegisterScreen.constructor | app/register.tsx:10-17 | every field starts empty |
| Register.RegisterScreen.HandleRegister | app/register.tsx:19-133 | sends exactly `RegisterRunOf`'s requests and ends with its one alert, or with `userData` and `token` written and `login` applied |
| Register.RegisterScreen.AfterRegistration | app/register.tsx:66-133 | the rest of the run after the registration answer, as `RepliedRun` says |
| Rent.RentPhoneIsUzbekPhone | app/rent.tsx:129-132 | the rent pattern accepts the sign-up format and that number without its '+' |
| Rent.FormattedPhonePassesRentCheck | app/rent.tsx:129-132 | a number the sign-up screen formatted and accepted passes the rent check |
| Rent.TotalDaysCeiling | app/rent.tsx:157-158 | the count is the ceiling: (n-1) days < span ≤ n days |
| Rent.TotalDaysUnique | app/rent.tsx:157-158 | any count meeting the ceiling bounds is the count |
| Rent.EqualDatesGiveNoDays | app/rent.tsx:157-162 | equal start and end give 0 days |
| Rent.InclusiveDays | app/rent.tsx:157-158 | from one day's midnight to a day k days later at 23:59:59.999 counts k+1 |
| Rent.SameDayIsOneDay | app/rent.tsx:157-161 | a single picked day counts as one |
| Rent.OrderedPeriodCount | app/rent.tsx:157-158 | for an ordered period the count is the ceiling of end minus start |
| Rent.Precheck | app/rent.tsx:139-166 | each message iff its check is the first to fail (empty phone, pattern, start before today, under one day, no car); none iff all pass |
| Rent.PrecheckStopsEverything | app/rent.tsx:139-166 | a failed check sends nothing and shows its message |
| Rent.ProceedsOnlyWhenAvailable | app/rent.tsx:168-189 | '/payment' is reached only after all checks and one GET whose answer says available with a non-zero count; the parameters carry the trimmed phone and note and the count |
| Rent.AvailableParams | app/rent.tsx:173-189 | a proceeding availability answer was resolved and available, and the parameters are those of the form |
| Rent.ZeroCountIsBusy | app/rent.tsx:173-175 | `available_count: 0` is refused even when `is_available` is true |
| Rent.RentScreen.constructor | app/rent.tsx:25-36 | both dates start at now, no car, empty phone and note, no error |
| Rent.RentScreen.CarLoaded | app/rent.tsx:78 | the car is set and the form fields are unchanged |
| Rent.RentScreen.OpenStartPicker | app/rent.tsx:302 | the start picker opens |
| Rent.RentScreen.OpenEndPicker | app/rent.tsx:312 | the end picker opens |
| Rent.RentScreen.ConfirmPickers | app/rent.tsx:124-127 | both pickers close |
| Rent.RentScreen.OnStartDate | app/rent.tsx:89-104 | a chosen day's midnight becomes the start and pushes the end up to it; Android closes the picker; the period stays ordered |
| Rent.RentScreen.OnWebStartDate | app/rent.tsx:258-265 | the same for the web date input |
| Rent.RentScreen.SetStart | app/rent.tsx:94-103 | the start is the day's midnight, the end the later of it and the old end |
| Rent.RentScreen.OnEndDate | app/rent.tsx:106-122 | the chosen day's last millisecond becomes the end unless that is before the start, which then becomes the end; the period stays ordered |
| Rent.RentScreen.OnWebEndDate | app/rent.tsx:285-293 | the same for the web date input |
| Rent.RentScreen.SetEnd | app/rent.tsx:111-121 | the end is the day's last millisecond, or the start when that is earlier |
| Rent.RentScreen.HandleSubmit | app/rent.tsx:134-195 | on an ordered period, sends exactly `RentRunOf`'s requests; a blocked run sets its message as the error, a passing one pushes '/payment' with its parameters, whose day count n is at least 1 with (n-1) days < end - start <= n days; the period stays ordered and submitting ends false |
| Booking.Update | app/booking.tsx:60 | the updated field reads the text and every other field is unchanged |
| Booking.FieldsDetermineForm | app/booking.tsx:15-22 | two forms whose six fields read the same are the same form |
| Booking.UpdateLaws | app/booking.tsx:60-119 | typing a field's own text changes nothing, and typing twice keeps the last text |
| Booking.CompleteMeansEveryField | app/booking.tsx:26-27 | the required-fields test passes iff every one of the six fields is non-empty |
| Booking.SubmitAlert | app/booking.tsx:24-46 | the success dialog, whose OK goes to '/(tabs)', iff the form is complete; otherwise the fill-in dialog |
| Booking.EmptyFormRefused | app/booking.tsx:15-30 | submitting the initial form asks for the fields |
| Booking.ClearedFieldRefused | app/booking.tsx:26-30 | clearing any one field makes the form incomplete |
| Booking.BookingScreen.constructor | app/booking.tsx:15-22 | the form starts empty |
| Booking.BookingScreen.OnChangeText | app/booking.tsx:60-119 | the field reads the text and the others are unchanged |
| Booking.BookingScreen.HandleSubmit | app/booking.tsx:24-46 | exactly one alert, `SubmitAlert` of the form; storage and route unchanged |
| Booking.FillAll | app/booking.tsx:26-120 | typing the six fields in turn, from any form, leaves each field with its own text, so the form is complete iff every text is non-empty |

## Left out

- Time zones: dates are UTC. The device's local time zone, which `setHours`, `new Date(y, m)` and `toLocaleDateString` use, is not modelled.
- Calendar.IsoDate: the years outside 0..9999 are written with a sign, as `toISOString` does. The `RangeError` for instants beyond ±8.64e15 ms is not modelled.
- Rent.RentScreen.OnWebStartDate and OnWebEndDate take the instant the input's text parses to. A text that parses to an invalid date is not modelled.
- Floating point is not modelled. Numbers are integers, and `Math.ceil(span / 86400000)` is computed exactly. `total_amount`, `price_per_day.toLocaleString()` and `Number(...)` of the route parameters are left out because they only feed the display.
- `maxLength` of the text inputs is not modelled, because the platform enforces it. The card loop's own limit of sixteen digits is modelled.
- Payment.PaymentScreen.HandlePayment: both `userToken` reads are assumed to succeed: the screen's own check and the one inside `createBooking`'s `getAuthenticatedApi`. A throwing `getItem` at either is not modelled; at the second the screen would show the generic failure text.
- Rent.RentScreen.HandleSubmit: `getAuthenticatedApi`'s token read is assumed to succeed.
- Signup and register storage writes:
  - Signup.SignupScreen.HandleSignup: only the `userData` write (`userDataWriteFails`) and the write inside `login` can fail.
  - Register.RegisterScreen.HandleRegister: only the write inside `login` can fail; the `userData` and `token` writes are taken to succeed.
- Api.HookSend: the interceptor's `removeItem` is not awaited. The model applies it at once and takes it to succeed.
- `fetchCarDetails` of the rent screen (its GET and its error handling) is not modelled. Only its result, a loaded car, is modelled, as Rent.RentScreen.CarLoaded.
- `useApi().register`, `getCars`, `getCarDetails`, `createRental` and `getUserRentals` are not modelled one by one. They share one shape, which Api.HookCall models with the verb, path and body as parameters. `login` has its own shape (a bare `axios.post`) and is Api.HookLogin.
- Register.FaultText: the engine's own wording of a `SyntaxError` and of a `TypeError` is replaced by the error's name. fetch's network failure keeps its wording. Rent.PropertyReadError uses React Native's wording for a property read on null or undefined.
- Payment.CatchMessage: an array message is shown as its `String()` text (items joined with ","); how `Alert.alert` itself renders a non-string message is not modelled.
- Text.ParseInt: `parseInt`'s `0x` prefix and its other radix rules are not modelled. Only optional white space, a sign and decimal digits are.
- Text.ToUpperAscii upper-cases ASCII letters only; Unicode case mapping is not modelled. Lengths are counted in characters, not UTF-16 code units.
- Register.RegisterScreen.AfterRegistration and Signup.SignupScreen.AfterTokenRequest: a token that is not a string is stored as its `String()` text, because the device store in the model holds strings.
- Register.Entries and Json.Stringify: a parsed object is assumed to have distinct keys. A key repeated in the reply text is not collapsed into one member at its first position, so `Object.entries` and `JSON.stringify` would list it twice.
- Device.Device.Navigate: `router.replace` and `router.push` both just set the current route. The history stack is not modelled.
- Rent: the picker's `minimumDate` and the web input's `min` are UI limits and are not modelled. `handleSubmit` does check the start date, and that check is modelled.
- Logging (`console.log` and `console.error`) and the rendering of the screens are not modelled.
