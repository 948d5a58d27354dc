/**
 * The rent screen of app/rent.tsx: its rental period (start and end
 * instants kept in order by the date handlers), the phone check, the day
 * count, and `handleSubmit`, whose checks run in a fixed order before a
 * final availability request and the move to the payment screen.
 */
module Rent {
  import opened Options
  import opened Text
  import opened Json
  import opened Calendar
  import opened Device
  import opened Http
  import opened Api
  import Signup

  const EmptyPhoneMessage: string := "Telefon raqamingizni kiriting"
  const PhoneFormatMessage: string := "Telefon raqamini to'g'ri formatda kiriting (+998XXXXXXXXX)"
  const StartInPastMessage: string := "Boshlanish sanasi bugundan oldin bo'lishi mumkin emas"
  const MinimumDaysMessage: string := "Ijara muddati kamida 1 kun bo'lishi kerak"
  const CarMissingMessage: string := "Avtomobil ma'lumotlari yuklanmagan"
  const CarBusyMessage: string := "Kechirasiz, bu mashina hozirda band"

  /** `/^\+?998[0-9]{9}$/`: an optional plus sign, 998, and nine digits. */
  predicate RentPhone(p: string) {
    || (|p| == 13 && p[0] == '+' && p[1..4] == "998" && AllDigits(p[4..]))
    || (|p| == 12 && p[..3] == "998" && AllDigits(p[3..]))
  }

  /** The rent check accepts the sign-up format, and the same number written without its plus sign. */
  lemma RentPhoneIsUzbekPhone(p: string)
    ensures RentPhone(p) <==> Signup.UzbekPhone(p) || Signup.UzbekPhone("+" + p)
  {
    if |p| == 13 && p[0] == '+' {
      assert p[..4] == "+" + p[1..4];
    }
    var q := "+" + p;
    if |p| == 12 {
      assert q[..4] == "+" + p[..3];
      assert q[4..] == p[3..];
      assert q[1..4] == p[..3];
    }
  }

  /** A number the sign-up screen formatted and accepted also passes the rent check. */
  lemma FormattedPhonePassesRentCheck(phone: string)
    requires Signup.UzbekPhone(Signup.FormatPhoneNumber(phone))
    ensures RentPhone(Signup.FormatPhoneNumber(phone))
  {
    RentPhoneIsUzbekPhone(Signup.FormatPhoneNumber(phone));
  }

  /** `Math.ceil(Math.abs(end - start) / 86400000)`. */
  function TotalDays(start: int, end: int): nat
  {
    var span := if end >= start then end - start else start - end;
    (span + DayMs - 1) / DayMs
  }

  /** `TotalDays` is the ceiling: the fewest whole days that cover the span. */
  lemma TotalDaysCeiling(start: int, end: int)
    ensures var n, span := TotalDays(start, end), if end >= start then end - start else start - end;
      (n - 1) * DayMs < span <= n * DayMs
  {
  }

  /** The ceiling is unique: a count that covers the span but not with one day less is `TotalDays`. */
  lemma TotalDaysUnique(start: int, end: int, n: int)
    requires var span := if end >= start then end - start else start - end;
      (n - 1) * DayMs < span <= n * DayMs
    ensures n == TotalDays(start, end)
  {
    TotalDaysCeiling(start, end);
  }

  /** Equal start and end give no days, so that rental is refused. */
  lemma EqualDatesGiveNoDays(t: int)
    ensures TotalDays(t, t) == 0
  {
  }

  /**
   * From the first millisecond of one day to the last of a day `k` days
   * later the count is `k + 1`; in particular a single day counts as 1.
   */
  lemma InclusiveDays(a: int, b: int)
    requires DayStart(a) <= DayStart(b)
    ensures (DayStart(b) - DayStart(a)) % DayMs == 0
    ensures TotalDays(DayStart(a), DayEnd(b)) == (DayStart(b) - DayStart(a)) / DayMs + 1
  {
    var k := (DayStart(b) - DayStart(a)) / DayMs;
    assert DayStart(b) - DayStart(a) == k * DayMs;
    TotalDaysUnique(DayStart(a), DayEnd(b), k + 1);
  }

  /** `Math.ceil` of a single day from 00:00 to 23:59:59.999. */
  lemma SameDayIsOneDay(t: int)
    ensures TotalDays(DayStart(t), DayEnd(t)) == 1
  {
    InclusiveDays(t, t);
  }

  /** The text of a TypeError from reading `property` of null or undefined, in React Native's wording. */
  function PropertyReadError(property: string, v: Json): string
  {
    "Cannot read property '" + property + "' of " + ToText(v)
  }

  /**
   * The checks of `handleSubmit` before any request, in the code's order;
   * the result is the first failing check's message, or None.
   */
  function Precheck(phone: string, start: int, end: int, now: int, car: Json): (r: Option<string>)
    ensures r == Some(EmptyPhoneMessage) <==> Trim(phone) == ""
    ensures r == Some(PhoneFormatMessage) <==> Trim(phone) != "" && !RentPhone(Trim(phone))
    ensures r == Some(StartInPastMessage) <==> RentPhone(Trim(phone)) && start < DayStart(now)
    ensures r == Some(MinimumDaysMessage) <==>
      RentPhone(Trim(phone)) && start >= DayStart(now) && TotalDays(start, end) < 1
    ensures r == Some(CarMissingMessage) <==>
      RentPhone(Trim(phone)) && start >= DayStart(now) && TotalDays(start, end) >= 1 && !Truthy(car)
    ensures r.None? <==>
      RentPhone(Trim(phone)) && start >= DayStart(now) && TotalDays(start, end) >= 1 && Truthy(car)
  {
    var trimmed := Trim(phone);
    if trimmed == "" then Some(EmptyPhoneMessage)
    else if !RentPhone(trimmed) then Some(PhoneFormatMessage)
    else if start < DayStart(now) then Some(StartInPastMessage)
    else if TotalDays(start, end) < 1 then Some(MinimumDaysMessage)
    else if !Truthy(car) then Some(CarMissingMessage)
    else None
  }

  /** The availability request: a GET on the car through the client without the interceptor. */
  function CarRequest(storage: Storage, car: Json): Request
  {
    Request(GET, ApiUrl + "/api/v1/cars/api/v1/cars/" + ToText(Member(car, "id")) + "/",
            GetAuthenticatedApi(storage).authorization, Undefined)
  }

  /** How `handleSubmit` ends: an error message on the screen, or a push to '/payment' with these parameters. */
  datatype SubmitOutcome = Blocked(message: string) | Proceeds(params: PaymentParams)

  datatype RentRun = RentRun(requests: seq<Request>, outcome: SubmitOutcome)

  /** The form as `handleSubmit` reads it. */
  datatype RentForm = RentForm(carId: string, car: Json, phone: string, note: string, start: int, end: int)

  /** `handleSubmit` against a server that answers with `script`. */
  function RentRunOf(storage: Storage, f: RentForm, now: int, script: seq<HttpResult>): RentRun
  {
    var check := Precheck(f.phone, f.start, f.end, now, f.car);
    if check.Some? then RentRun([], Blocked(check.value))
    else
      var request := CarRequest(storage, f.car);
      RentRun([request], AvailabilityOutcome(f, AxiosCall(Nth(script, 0))))
  }

  /** What follows the availability request, given how axios settled it. */
  function AvailabilityOutcome(f: RentForm, answer: AxiosOutcome): SubmitOutcome
  {
    if answer.Rejected? then Blocked(AxiosErrorMessage(answer.errorResponse))
    else
      var carDetails := answer.response.data;
      if Nullish(carDetails) then Blocked(PropertyReadError("is_available", carDetails))
      else if !Truthy(Member(carDetails, "is_available")) || Member(carDetails, "available_count") == Num(0) then
        Blocked(CarBusyMessage)
      else
        var price := Member(f.car, "price_per_day");
        if Nullish(price) then Blocked(PropertyReadError("toString", price))
        else Proceeds(PaymentParams(f.carId, NatToString(TotalDays(f.start, f.end)), ToText(price),
                                    Trim(f.phone), Trim(f.note), f.start, f.end))
  }

  /** A failed pre-check sends nothing and shows that check's message. */
  lemma PrecheckStopsEverything(storage: Storage, f: RentForm, now: int, script: seq<HttpResult>)
    requires Precheck(f.phone, f.start, f.end, now, f.car).Some?
    ensures RentRunOf(storage, f, now, script) ==
      RentRun([], Blocked(Precheck(f.phone, f.start, f.end, now, f.car).value))
  {
  }

  /**
   * The screen moves to '/payment' only after every check passed and the
   * server said the car is available; the parameters carry the trimmed phone
   * and note and the day count as text.
   */
  lemma ProceedsOnlyWhenAvailable(storage: Storage, f: RentForm, now: int, script: seq<HttpResult>)
    ensures var run := RentRunOf(storage, f, now, script);
      run.outcome.Proceeds? ==>
        var answer := AxiosCall(Nth(script, 0));
        && run.requests == [CarRequest(storage, f.car)]
        && answer.Resolved?
        && Truthy(Member(answer.response.data, "is_available"))
        && Member(answer.response.data, "available_count") != Num(0)
        && RentPhone(Trim(f.phone)) && f.start >= DayStart(now) && TotalDays(f.start, f.end) >= 1
        && run.outcome.params.phoneNumber == Trim(f.phone)
        && run.outcome.params.note == Trim(f.note)
        && ParseInt(run.outcome.params.totalDays) == Some(TotalDays(f.start, f.end))
  {
    var run := RentRunOf(storage, f, now, script);
    if run.outcome.Proceeds? {
      var check := Precheck(f.phone, f.start, f.end, now, f.car);
      assert check.None?;
      var answer := AxiosCall(Nth(script, 0));
      assert run == RentRun([CarRequest(storage, f.car)], AvailabilityOutcome(f, answer));
      AvailableParams(f, answer);
    }
  }

  /** What a successful availability answer leads to. */
  lemma AvailableParams(f: RentForm, answer: AxiosOutcome)
    ensures var outcome := AvailabilityOutcome(f, answer);
      outcome.Proceeds? ==>
        && answer.Resolved?
        && Truthy(Member(answer.response.data, "is_available"))
        && Member(answer.response.data, "available_count") != Num(0)
        && outcome.params.phoneNumber == Trim(f.phone)
        && outcome.params.note == Trim(f.note)
        && ParseInt(outcome.params.totalDays) == Some(TotalDays(f.start, f.end))
  {
    if AvailabilityOutcome(f, answer).Proceeds? {
      ParseIntOfNatToString(TotalDays(f.start, f.end));
    }
  }

  /** A car the server reports with `available_count: 0` is refused even when `is_available` is true. */
  lemma ZeroCountIsBusy(f: RentForm, status: int, fields: seq<(string, Json)>)
    requires IsOk(status)
    requires Lookup(fields, "available_count") == Num(0)
    ensures AvailabilityOutcome(f, AxiosCall(Response(status, Parsed(Obj(fields))))) == Blocked(CarBusyMessage)
  {
  }

  class RentScreen {
    const device: Device
    /** The `id` route parameter. */
    const carId: string
    /** The car loaded by `fetchCarDetails`; `Null` until then. */
    var car: Json
    var startDate: int
    var endDate: int
    var showStartPicker: bool
    var showEndPicker: bool
    var phoneNumber: string
    var note: string
    var error: Option<string>
    var submitting: bool

    /** The rental period is never reversed. */
    predicate Valid()
      reads this
    {
      startDate <= endDate
    }

    function Form(): RentForm
      reads this
    {
      RentForm(carId, car, phoneNumber, note, startDate, endDate)
    }

    /** Both dates start at the moment the screen opens. */
    constructor (device: Device, carId: string, now: int)
      ensures Valid()
      ensures this.device == device && this.carId == carId
      ensures car == Null && startDate == now && endDate == now
      ensures !showStartPicker && !showEndPicker && phoneNumber == "" && note == ""
      ensures error.None? && !submitting
    {
      this.device := device;
      this.carId := carId;
      car := Null;
      startDate, endDate := now, now;
      showStartPicker, showEndPicker := false, false;
      phoneNumber, note := "", "";
      error := None;
      submitting := false;
    }

    /** `setCar(data)` at the end of a successful `fetchCarDetails`. */
    method CarLoaded(data: Json)
      requires Truthy(data)
      modifies this
      ensures car == data
      ensures startDate == old(startDate) && endDate == old(endDate)
      ensures phoneNumber == old(phoneNumber) && note == old(note)
    {
      car := data;
    }

    method OpenStartPicker()
      modifies this
      ensures showStartPicker && showEndPicker == old(showEndPicker)
      ensures startDate == old(startDate) && endDate == old(endDate)
    {
      showStartPicker := true;
    }

    method OpenEndPicker()
      modifies this
      ensures showEndPicker && showStartPicker == old(showStartPicker)
      ensures startDate == old(startDate) && endDate == old(endDate)
    {
      showEndPicker := true;
    }

    /** `handleDatePickerConfirm`: both pickers close. */
    method ConfirmPickers()
      modifies this
      ensures !showStartPicker && !showEndPicker
      ensures startDate == old(startDate) && endDate == old(endDate)
    {
      showStartPicker, showEndPicker := false, false;
    }

    /**
     * `handleStartDateChange`: the chosen day's midnight becomes the start,
     * and the end moves up to it when it was earlier. Android closes the picker.
     */
    method OnStartDate(selected: Option<int>, android: bool)
      requires Valid()
      modifies this
      ensures Valid()
      ensures showStartPicker == (old(showStartPicker) && !android) && showEndPicker == old(showEndPicker)
      ensures selected.None? ==> startDate == old(startDate) && endDate == old(endDate)
      ensures selected.Some? ==>
        && startDate == DayStart(selected.value) && startDate % DayMs == 0
        && endDate == (if startDate > old(endDate) then startDate else old(endDate))
      ensures car == old(car) && phoneNumber == old(phoneNumber) && note == old(note)
    {
      if android {
        showStartPicker := false;
      }
      if selected.Some? {
        SetStart(selected.value);
      }
    }

    /** The web date input's change handler for the start; its value is the instant the input parses to. */
    method OnWebStartDate(value: int)
      requires Valid()
      modifies this
      ensures Valid()
      ensures startDate == DayStart(value) && startDate % DayMs == 0
      ensures endDate == (if startDate > old(endDate) then startDate else old(endDate))
      ensures showStartPicker == old(showStartPicker) && showEndPicker == old(showEndPicker)
      ensures car == old(car) && phoneNumber == old(phoneNumber) && note == old(note)
    {
      SetStart(value);
    }

    /** The body both start handlers share. */
    method SetStart(selected: int)
      requires Valid()
      modifies this
      ensures Valid()
      ensures startDate == DayStart(selected)
      ensures endDate == (if startDate > old(endDate) then startDate else old(endDate))
      ensures showStartPicker == old(showStartPicker) && showEndPicker == old(showEndPicker)
      ensures car == old(car) && phoneNumber == old(phoneNumber) && note == old(note)
    {
      var newDate := DayStart(selected);
      startDate := newDate;
      if newDate > endDate {
        endDate := newDate;
      }
    }

    /**
     * `handleEndDateChange`: the chosen day's last millisecond becomes the
     * end, unless that is before the start, in which case the end is the start.
     */
    method OnEndDate(selected: Option<int>, android: bool)
      requires Valid()
      modifies this
      ensures Valid()
      ensures showEndPicker == (old(showEndPicker) && !android) && showStartPicker == old(showStartPicker)
      ensures startDate == old(startDate)
      ensures selected.None? ==> endDate == old(endDate)
      ensures selected.Some? ==>
        endDate == (if DayEnd(selected.value) < startDate then startDate else DayEnd(selected.value))
      ensures car == old(car) && phoneNumber == old(phoneNumber) && note == old(note)
    {
      if android {
        showEndPicker := false;
      }
      if selected.Some? {
        SetEnd(selected.value);
      }
    }

    /** The web date input's change handler for the end. */
    method OnWebEndDate(value: int)
      requires Valid()
      modifies this
      ensures Valid()
      ensures startDate == old(startDate)
      ensures endDate == (if DayEnd(value) < startDate then startDate else DayEnd(value))
      ensures showStartPicker == old(showStartPicker) && showEndPicker == old(showEndPicker)
      ensures car == old(car) && phoneNumber == old(phoneNumber) && note == old(note)
    {
      SetEnd(value);
    }

    /** The body both end handlers share. */
    method SetEnd(selected: int)
      requires Valid()
      modifies this
      ensures Valid()
      ensures startDate == old(startDate)
      ensures endDate == (if DayEnd(selected) < startDate then startDate else DayEnd(selected))
      ensures showStartPicker == old(showStartPicker) && showEndPicker == old(showEndPicker)
      ensures car == old(car) && phoneNumber == old(phoneNumber) && note == old(note)
    {
      var newDate := DayEnd(selected);
      if newDate < startDate {
        endDate := startDate;
      } else {
        endDate := newDate;
      }
    }

    /**
     * `handleSubmit`. The first failing check becomes `error`; only a passed
     * availability check pushes '/payment'. `submitting` ends false either way.
     */
    method HandleSubmit(server: Server, now: int)
      requires Valid()
      modifies this, device, server
      ensures var run := RentRunOf(old(device.storage), old(Form()), now, old(server.script));
        && server.log == old(server.log) + run.requests
        && server.script == Drop(old(server.script), |run.requests|)
        && (run.outcome.Blocked? ==> error == Some(run.outcome.message) && device.route == old(device.route))
        && (run.outcome.Proceeds? ==> error.None? && device.route == PaymentRoute(run.outcome.params))
      ensures !submitting
      ensures car == old(car) && phoneNumber == old(phoneNumber) && note == old(note)
      ensures startDate == old(startDate) && endDate == old(endDate)
      ensures device.storage == old(device.storage) && device.alerts == old(device.alerts)
      ensures Valid()
      ensures var run := RentRunOf(old(device.storage), old(Form()), now, old(server.script));
        run.outcome.Proceeds? ==>
          var n := TotalDays(startDate, endDate);
          && n >= 1 && (n - 1) * DayMs < endDate - startDate <= n * DayMs
          && ParseInt(run.outcome.params.totalDays) == Some(n)
    {
      ProceedsOnlyWhenAvailable(device.storage, Form(), now, server.script);
      OrderedPeriodCount(startDate, endDate);
      submitting := true;
      error := None;
      ghost var run := RentRunOf(device.storage, Form(), now, server.script);
      var check := Precheck(phoneNumber, startDate, endDate, now, car);
      if check.Some? {
        assert run == RentRun([], Blocked(check.value));
        error := check;
        submitting := false;
        return;
      }
      var response := server.Send(CarRequest(device.storage, car));
      var outcome := AvailabilityOutcome(Form(), AxiosCall(response));
      assert run == RentRun([CarRequest(old(device.storage), car)], outcome);
      match outcome {
        case Blocked(message) =>
          error := Some(message);
        case Proceeds(params) =>
          device.Navigate(PaymentRoute(params));
      }
      submitting := false;
    }
  }

  /** Whatever the handlers are given, the period stays ordered, so the day count is the plain ceiling of end minus start. */
  lemma OrderedPeriodCount(start: int, end: int)
    requires start <= end
    ensures (TotalDays(start, end) - 1) * DayMs < end - start <= TotalDays(start, end) * DayMs
  {
    TotalDaysCeiling(start, end);
  }
}
