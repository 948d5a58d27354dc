/**
 * The payment screen of app/payment.tsx: the card-number and expiry
 * formatters that run on every keystroke, `validateInputs`, and
 * `handlePayment` with its checks, its call to `createBooking` and the alert
 * it chooses afterwards.
 */
module Payment {
  import opened Options
  import opened Text
  import opened Json
  import opened Calendar
  import opened Device
  import opened Http
  import opened Api

  const MaxCardDigits: nat := 16

  function Min(a: int, b: int): int { if a <= b then a else b }

  // ---------------------------------------------------------------- card number

  /**
   * The digits `s` in groups of four separated by single spaces, the last
   * group possibly shorter: what joining the slices `s[i..i+4]` with ' ' gives.
   */
  function Grouped(s: string): string
    decreases |s|
  {
    if |s| <= 4 then s
    else
      var k := ((|s| - 1) / 4) * 4;
      Grouped(s[..k]) + " " + s[k..]
  }

  /** Every fifth character, and only it, is a space: `dddd dddd dddd dddd`. */
  predicate SpacedEveryFifth(r: string) {
    forall j :: 0 <= j < |r| ==> (r[j] == ' ' <==> j % 5 == 4)
  }

  /** Adding a group of at most four characters after a multiple of four adds one space and the group. */
  lemma GroupedStep(s: string, i: nat)
    requires i % 4 == 0 && 4 <= i < |s| <= i + 4
    ensures Grouped(s) == Grouped(s[..i]) + " " + s[i..]
  {
    assert ((|s| - 1) / 4) * 4 == i;
  }

  /** One space per four digits, except after the last group. */
  lemma {:induction false} GroupedLength(s: string)
    requires s != []
    ensures |Grouped(s)| == |s| + (|s| - 1) / 4
    decreases |s|
  {
    if |s| > 4 {
      var q := (|s| - 1) / 4;
      GroupedLength(s[..4 * q]);
      assert (4 * q - 1) / 4 == q - 1;
    }
  }

  /** Grouping only inserts spaces: taking the digits back out gives the input. */
  lemma {:induction false} GroupedDigits(s: string)
    requires AllDigits(s)
    ensures Digits(Grouped(s)) == s
    decreases |s|
  {
    if |s| <= 4 {
      DigitsOfDigits(s);
    } else {
      var k := ((|s| - 1) / 4) * 4;
      GroupedDigits(s[..k]);
      DigitsOfDigits(s[k..]);
      SpaceHasNoDigits();
      DigitsConcat(Grouped(s[..k]) + " ", s[k..]);
      DigitsConcat(Grouped(s[..k]), " ");
      assert s == s[..k] + s[k..];
    }
  }

  /** A grouped number of digits has its spaces exactly at every fifth position and ends in a digit. */
  lemma {:induction false} GroupedSpaces(s: string)
    requires AllDigits(s)
    ensures SpacedEveryFifth(Grouped(s))
    ensures s != [] ==> IsDigit(Grouped(s)[|Grouped(s)| - 1])
    decreases |s|
  {
    if |s| > 4 {
      var q := (|s| - 1) / 4;
      var k := 4 * q;
      var g := Grouped(s[..k]);
      GroupedSpaces(s[..k]);
      GroupedLength(s[..k]);
      assert (k - 1) / 4 == q - 1;
      assert |g| == 5 * q - 1;
      SpacedAppend(g, s[k..], q);
    }
  }

  /** Appending a space and a group of at most four digits to a spaced text keeps it spaced. */
  lemma SpacedAppend(g: string, t: string, q: nat)
    requires SpacedEveryFifth(g) && |g| == 5 * q - 1
    requires 0 < |t| <= 4 && AllDigits(t)
    ensures SpacedEveryFifth(g + " " + t)
  {
    var r := g + " " + t;
    forall j | 0 <= j < |r|
      ensures r[j] == ' ' <==> j % 5 == 4
    {
      if j < |g| {
        assert r[j] == g[j];
      } else if j > |g| {
        var i := j - 5 * q;
        assert 0 <= i < 4 && r[j] == t[i];
        assert j % 5 == i;
      }
    }
  }

  /** The field's text after the user types `text`: the first sixteen digits, grouped. */
  function CardDisplay(text: string): string {
    var clean := Digits(text);
    Grouped(clean[..Min(|clean|, MaxCardDigits)])
  }

  /**
   * The `onChangeText` handler of the card-number field: the digits of
   * `text` become the stored card number, and the first sixteen of them, in
   * groups of four, become the displayed text.
   */
  method FormatCardNumber(text: string) returns (formatted: string, cleanNumber: string)
    ensures cleanNumber == Digits(text)
    ensures formatted == CardDisplay(text)
    ensures Digits(formatted) == cleanNumber[..Min(|cleanNumber|, MaxCardDigits)]
    ensures |formatted| <= 19
    ensures SpacedEveryFifth(formatted)
    ensures formatted == [] <==> cleanNumber == []
  {
    cleanNumber := Digits(text);
    ghost var n := Min(|cleanNumber|, MaxCardDigits);
    var parts: seq<string> := [];
    var i := 0;
    while i < |cleanNumber| && i < 16
      invariant i % 4 == 0 && i <= 16
      invariant i > 0 ==> i < n + 4
      invariant |parts| == i / 4
      invariant Join(parts, " ") == Grouped(cleanNumber[..Min(i, n)])
      decreases 16 - i
    {
      var part := cleanNumber[i..Min(i + 4, |cleanNumber|)];
      var m := Min(i + 4, n);
      assert cleanNumber[..m][i..] == part;
      if i >= 4 {
        GroupedStep(cleanNumber[..m], i);
        assert cleanNumber[..m][..i] == cleanNumber[..Min(i, n)];
        assert (parts + [part])[..|parts|] == parts;
      }
      parts := parts + [part];
      i := i + 4;
    }
    formatted := Join(parts, " ");
    assert Min(i, n) == n;
    CardDisplayShape(text);
  }

  /** The displayed card number holds the first sixteen digits typed, a space after every four. */
  lemma CardDisplayShape(text: string)
    ensures var clean := Digits(text);
      && Digits(CardDisplay(text)) == clean[..Min(|clean|, MaxCardDigits)]
      && |CardDisplay(text)| <= 19
      && SpacedEveryFifth(CardDisplay(text))
      && (CardDisplay(text) == [] <==> clean == [])
  {
    var clean := Digits(text);
    var shown := clean[..Min(|clean|, MaxCardDigits)];
    GroupedDigits(shown);
    GroupedSpaces(shown);
    if shown != [] {
      GroupedLength(shown);
    }
  }

  /** Formatting the displayed text again changes nothing, and shows the same digits. */
  lemma CardDisplayIdempotent(text: string)
    ensures CardDisplay(CardDisplay(text)) == CardDisplay(text)
    ensures Digits(CardDisplay(text)) == Digits(text)[..Min(|Digits(text)|, MaxCardDigits)]
  {
    var clean := Digits(text);
    var shown := clean[..Min(|clean|, MaxCardDigits)];
    GroupedDigits(shown);
    assert shown[..Min(|shown|, MaxCardDigits)] == shown;
  }

  /**
   * More than sixteen digits (a paste) are stored in full while only sixteen
   * are shown, so the stored number then fails the sixteen-digit check.
   */
  lemma LongCardNumberStoredInFull(text: string)
    requires |Digits(text)| > MaxCardDigits
    ensures Digits(CardDisplay(text)) != Digits(text)
    ensures !CardPrecheckOk(Digits(text))
  {
    CardDisplayIdempotent(text);
  }

  // ---------------------------------------------------------------- expiry date

  /** `replace(/^([0-9]{2})/, '$1/')` on a string of digits. */
  function Slashed(d: string): string {
    if |d| >= 2 then d[..2] + "/" + d[2..] else d
  }

  /** The `onChangeText` handler of the expiry field: digits only, with '/' after the first two. */
  function FormatExpiry(text: string): string {
    Trim(Slashed(Digits(text)))
  }

  lemma NotWhitespace(c: char)
    requires IsDigit(c) || c == '/'
    ensures !IsWhitespace(c)
  {
  }

  lemma SlashedDigits(d: string)
    requires AllDigits(d)
    ensures Digits(Slashed(d)) == d
  {
    if |d| >= 2 {
      assert Digits("/") == [] by { assert !IsDigit("/"[0]); assert "/"[1..] == []; }
      DigitsConcat(d[..2] + "/", d[2..]);
      DigitsConcat(d[..2], "/");
      DigitsOfDigits(d[..2]);
      DigitsOfDigits(d[2..]);
      assert d == d[..2] + d[2..];
    } else {
      DigitsOfDigits(d);
    }
  }

  /** What the expiry handler produces, stated without the regular expressions: `trim` has nothing to remove. */
  lemma ExpiryShape(text: string)
    ensures var d := Digits(text);
      && (|d| >= 2 ==> FormatExpiry(text) == d[..2] + "/" + d[2..])
      && (|d| < 2 ==> FormatExpiry(text) == d)
      && Digits(FormatExpiry(text)) == d
  {
    var d := Digits(text);
    var r := Slashed(d);
    if r != [] {
      NotWhitespace(r[0]);
      NotWhitespace(r[|r| - 1]);
    }
    TrimOfTrimmed(r);
    SlashedDigits(d);
  }

  /** Re-running the expiry handler on its own output changes nothing. */
  lemma ExpiryIdempotent(text: string)
    ensures FormatExpiry(FormatExpiry(text)) == FormatExpiry(text)
  {
    ExpiryShape(text);
    ExpiryShape(FormatExpiry(text));
  }

  /** Erasing the slash of `MM/` gives `MM`, which the handler turns back into `MM/`. */
  lemma SlashComesBack(mm: string)
    requires |mm| == 2 && AllDigits(mm)
    ensures FormatExpiry(mm) == mm + "/"
  {
    DigitsOfDigits(mm);
    ExpiryShape(mm);
    assert mm[..2] == mm && mm[2..] == [];
  }

  /** `/^(0[1-9]|1[0-2])\/([0-9]{2})$/`: a month from 01 to 12, a slash, two digits. */
  predicate ExpiryFormatOk(e: string) {
    && |e| == 5 && e[2] == '/' && IsDigit(e[3]) && IsDigit(e[4])
    && ((e[0] == '0' && '1' <= e[1] <= '9') || (e[0] == '1' && '0' <= e[1] <= '2'))
  }

  function TwoDigits(n: nat): string
    requires n < 100
  {
    [DigitChar(n / 10), DigitChar(n % 10)]
  }

  function DigitValue(c: char): int { c as int - '0' as int }

  /** `parseInt(month)` of an accepted expiry. */
  function ExpiryMonth(e: string): int
    requires ExpiryFormatOk(e)
  {
    10 * DigitValue(e[0]) + DigitValue(e[1])
  }

  /** `parseInt(year)` of an accepted expiry. */
  function ExpiryYear(e: string): int
    requires ExpiryFormatOk(e)
  {
    10 * DigitValue(e[3]) + DigitValue(e[4])
  }

  lemma DigitCharValue(d: nat)
    requires d < 10
    ensures IsDigit(DigitChar(d)) && DigitValue(DigitChar(d)) == d
  {
  }

  lemma ValueDigitChar(c: char)
    requires IsDigit(c)
    ensures 0 <= DigitValue(c) < 10 && DigitChar(DigitValue(c)) == c
  {
  }

  lemma TwoDigitsParts(n: nat)
    requires n < 100
    ensures IsDigit(TwoDigits(n)[0]) && IsDigit(TwoDigits(n)[1])
    ensures 10 * DigitValue(TwoDigits(n)[0]) + DigitValue(TwoDigits(n)[1]) == n
  {
    DigitCharValue(n / 10);
    DigitCharValue(n % 10);
  }

  /** The accepted expiries are exactly `MM/YY` for a month 1..12 and a year 0..99, read back as written. */
  lemma ExpiryFormatRoundTrip(month: nat, year: nat)
    requires 1 <= month <= 12 && year < 100
    ensures var e := TwoDigits(month) + "/" + TwoDigits(year);
      ExpiryFormatOk(e) && ExpiryMonth(e) == month && ExpiryYear(e) == year
  {
    var e := TwoDigits(month) + "/" + TwoDigits(year);
    TwoDigitsParts(month);
    TwoDigitsParts(year);
    assert e[0] == TwoDigits(month)[0] && e[1] == TwoDigits(month)[1];
    assert e[3] == TwoDigits(year)[0] && e[4] == TwoDigits(year)[1];
    var m0, m1 := DigitValue(e[0]), DigitValue(e[1]);
    assert 10 * m0 + m1 == month && 0 <= m1 < 10;
    assert m0 == 0 || m0 == 1;
  }

  lemma ExpiryFormatOkParts(e: string)
    requires ExpiryFormatOk(e)
    ensures 1 <= ExpiryMonth(e) <= 12 && 0 <= ExpiryYear(e) < 100
    ensures e == TwoDigits(ExpiryMonth(e)) + "/" + TwoDigits(ExpiryYear(e))
  {
    ValueDigitChar(e[0]);
    ValueDigitChar(e[1]);
    ValueDigitChar(e[3]);
    ValueDigitChar(e[4]);
    var m, y := ExpiryMonth(e), ExpiryYear(e);
    assert m / 10 == DigitValue(e[0]) && m % 10 == DigitValue(e[1]);
    assert y / 10 == DigitValue(e[3]) && y % 10 == DigitValue(e[4]);
  }

  /** Four typed digits whose first two are a month give an expiry that passes the format check. */
  lemma TypedExpiryAccepted(text: string)
    requires var d := Digits(text); |d| == 4 && 1 <= 10 * DigitValue(d[0]) + DigitValue(d[1]) <= 12
    ensures ExpiryFormatOk(FormatExpiry(text))
  {
    ExpiryShape(text);
  }

  /** `new Date(2000 + year, month - 1)`: the first instant of the expiry month. */
  function ExpiryStart(e: string): int
    requires ExpiryFormatOk(e)
  {
    ExpiryFormatOkParts(e);
    MonthStart(2000 + ExpiryYear(e), ExpiryMonth(e) - 1)
  }

  /** `expiry < now`. */
  predicate Expired(e: string, now: int)
    requires ExpiryFormatOk(e)
  {
    ExpiryStart(e) < now
  }

  /** The calendar month of `now`, counted as `MonthNumber` counts. */
  function MonthOfInstant(now: int): int {
    var c := CivilOf(now);
    MonthNumber(c.year, c.month - 1)
  }

  /**
   * A card counts as expired from the first millisecond after its expiry
   * month begins: before that month it is accepted, after it it is refused,
   * and within it it is refused at every instant but the first.
   */
  lemma ExpiredByCalendarMonth(e: string, now: int)
    requires ExpiryFormatOk(e)
    ensures var expiryMonth := MonthNumber(2000 + ExpiryYear(e), ExpiryMonth(e) - 1);
      && (MonthOfInstant(now) < expiryMonth ==> !Expired(e, now))
      && (MonthOfInstant(now) > expiryMonth ==> Expired(e, now))
      && (MonthOfInstant(now) == expiryMonth ==> (Expired(e, now) <==> now != ExpiryStart(e)))
  {
    ExpiryFormatOkParts(e);
    var y, m := 2000 + ExpiryYear(e), ExpiryMonth(e) - 1;
    assert ExpiryStart(e) == MonthStart(y, m);
    var c := CivilOf(now);
    InstantInMonth(now);
    MonthOrder(c.year, c.month - 1, y, m, now);
  }

  /** An instant of month (cy, cm) lies before month (y, m) starts if that month is later, after it if earlier. */
  lemma MonthOrder(cy: int, cm: int, y: int, m: int, now: int)
    requires 0 <= cm < 12 && 0 <= m < 12
    requires MonthStart(cy, cm) <= now
    requires now < (if cm == 11 then MonthStart(cy + 1, 0) else MonthStart(cy, cm + 1))
    ensures MonthNumber(cy, cm) < MonthNumber(y, m) ==> now < MonthStart(y, m)
    ensures MonthNumber(cy, cm) > MonthNumber(y, m) ==> MonthStart(y, m) < now
    ensures MonthNumber(cy, cm) == MonthNumber(y, m) ==> MonthStart(y, m) <= now
  {
    if MonthNumber(cy, cm) < MonthNumber(y, m) {
      var (ny, nm) := if cm == 11 then (cy + 1, 0) else (cy, cm + 1);
      MonthStartMonotone(ny, nm, y, m);
    } else if MonthNumber(cy, cm) > MonthNumber(y, m) {
      MonthStartIncreasing(y, m, cy, cm);
    } else {
      assert cy == y && cm == m;
    }
  }

  /** A later expiry is refused only if every earlier one is. */
  lemma ExpiredMonotone(e1: string, e2: string, now: int)
    requires ExpiryFormatOk(e1) && ExpiryFormatOk(e2)
    requires MonthNumber(ExpiryYear(e1), ExpiryMonth(e1)) <= MonthNumber(ExpiryYear(e2), ExpiryMonth(e2))
    requires Expired(e2, now)
    ensures Expired(e1, now)
  {
    ExpiryFormatOkParts(e1);
    ExpiryFormatOkParts(e2);
    MonthStartMonotone(2000 + ExpiryYear(e1), ExpiryMonth(e1) - 1, 2000 + ExpiryYear(e2), ExpiryMonth(e2) - 1);
  }

  // ---------------------------------------------------------------- validateInputs

  const CardNumberMessage: string := "Karta raqami 16 ta raqamdan iborat bo'lishi kerak"
  const ExpiryFormatMessage: string := "Yaroqlilik muddati MM/YY formatida bo'lishi kerak"
  const ExpiredMessage: string := "Karta muddati tugagan"
  const CvvMessage: string := "CVV 3 ta raqamdan iborat bo'lishi kerak"
  const HolderMessage: string := "Karta egasining ismini kiriting"

  /** The card-number check of `validateInputs`: sixteen characters once white space is removed. */
  predicate CardNumberOk(cardNumber: string) {
    cardNumber != "" && |RemoveWhitespace(cardNumber)| == 16
  }

  /** `/^[0-9]{3}$/`. */
  predicate CvvOk(cvv: string) {
    |cvv| == 3 && AllDigits(cvv)
  }

  predicate HolderOk(name: string) {
    |name| >= 3
  }

  /** The four error texts; an empty one hides the field's error line. */
  datatype InputErrors = InputErrors(card: string, expiry: string, cvv: string, holder: string) {
    predicate AllClear() { card == "" && expiry == "" && cvv == "" && holder == "" }
  }

  /** The error texts `validateInputs` sets for the given field values at instant `now`. */
  function CheckInputs(cardNumber: string, expiryDate: string, cvv: string, holder: string, now: int): InputErrors
  {
    InputErrors(
      if CardNumberOk(cardNumber) then "" else CardNumberMessage,
      if !ExpiryFormatOk(expiryDate) then ExpiryFormatMessage
      else if Expired(expiryDate, now) then ExpiredMessage
      else "",
      if CvvOk(cvv) then "" else CvvMessage,
      if HolderOk(holder) then "" else HolderMessage)
  }

  /**
   * `validateInputs` is true exactly when every field passes its check, and
   * the expiry error says "expired" only for a well-formed date.
   */
  lemma CheckInputsContract(cardNumber: string, expiryDate: string, cvv: string, holder: string, now: int)
    ensures var r := CheckInputs(cardNumber, expiryDate, cvv, holder, now);
      && (r.AllClear() <==>
            CardNumberOk(cardNumber) && ExpiryFormatOk(expiryDate) && !Expired(expiryDate, now)
            && CvvOk(cvv) && HolderOk(holder))
      && (r.expiry == ExpiredMessage ==> ExpiryFormatOk(expiryDate))
      && (r.card == "" <==> CardNumberOk(cardNumber))
  {
  }

  // ---------------------------------------------------------------- handlePayment

  const FailureTitle: string := "Xatolik"
  const CardPrecheckMessage: string := "Karta raqamini to'g'ri kiriting"
  const ExpiryPrecheckMessage: string := "Amal qilish muddatini to'g'ri kiriting (MM/YY)"
  const CvvPrecheckMessage: string := "CVV kodni to'g'ri kiriting"
  const NotAuthorizedMessage: string := "Avtorizatsiyadan o'tilmagan"
  const SuccessTitle: string := "Muvaffaqiyatli"
  const SuccessMessage: string :=
    "To'lov amalga oshirildi va buyurtmangiz qabul qilindi. Buyurtmangiz admin tomonidan ko'rib chiqiladi."

  /** The first check of `handlePayment`: exactly sixteen characters, all digits. */
  predicate CardPrecheckOk(cardNumber: string) {
    |cardNumber| == 16 && AllDigits(cardNumber)
  }

  /** Where the checks of `handlePayment` stop. */
  datatype PaymentStep =
    | Refused(message: string)       // one of the quick checks failed: an alert, nothing else
    | LoginRequired                  // no `userToken`: an alert and '/login'
    | InputsInvalid(errors: InputErrors) // `validateInputs` failed: only the field errors
    | Proceed                        // `createBooking` is called

  /** The checks of `handlePayment`, in their order. */
  function PaymentStepOf(cardNumber: string, expiryDate: string, cvv: string, holder: string,
                         storage: Storage, now: int): PaymentStep
  {
    if !CardPrecheckOk(cardNumber) then Refused(CardPrecheckMessage)
    else if !Contains(expiryDate, "/") then Refused(ExpiryPrecheckMessage)
    else if |cvv| != 3 then Refused(CvvPrecheckMessage)
    else if holder == "" then Refused(HolderMessage)
    else if !Has(storage, UserTokenKey) then LoginRequired
    else if !CheckInputs(cardNumber, expiryDate, cvv, holder, now).AllClear() then
      InputsInvalid(CheckInputs(cardNumber, expiryDate, cvv, holder, now))
    else Proceed
  }

  lemma ExpiryHasSlash(e: string)
    requires ExpiryFormatOk(e)
    ensures Contains(e, "/")
  {
    assert OccursAt(e, "/", 2);
  }

  /**
   * `createBooking` is reached exactly when every field is valid and a
   * `userToken` is stored.
   */
  lemma ProceedIffValid(cardNumber: string, expiryDate: string, cvv: string, holder: string,
                        storage: Storage, now: int)
    ensures PaymentStepOf(cardNumber, expiryDate, cvv, holder, storage, now) == Proceed <==>
      && CardPrecheckOk(cardNumber) && ExpiryFormatOk(expiryDate) && !Expired(expiryDate, now)
      && CvvOk(cvv) && HolderOk(holder) && Has(storage, UserTokenKey)
  {
    if CardPrecheckOk(cardNumber) {
      DigitsAreNotWhitespace(cardNumber);
    }
    if ExpiryFormatOk(expiryDate) {
      ExpiryHasSlash(expiryDate);
    }
  }

  lemma DigitsAreNotWhitespace(s: string)
    requires AllDigits(s)
    ensures RemoveWhitespace(s) == s
  {
    assert forall i :: 0 <= i < |s| ==> !IsWhitespace(s[i]);
    RemoveWhitespaceOfNone(s);
  }

  /**
   * Once the quick checks pass, the card-number error of `validateInputs`
   * can never appear: it rejects only what the first check already rejected.
   */
  lemma CardErrorNeverShown(cardNumber: string, expiryDate: string, cvv: string, holder: string,
                            storage: Storage, now: int)
    ensures var step := PaymentStepOf(cardNumber, expiryDate, cvv, holder, storage, now);
      step.InputsInvalid? ==> step.errors.card == ""
  {
    if CardPrecheckOk(cardNumber) {
      DigitsAreNotWhitespace(cardNumber);
    }
  }

  /** The quick checks come before the token check: an invalid card is refused without a redirect. */
  lemma QuickChecksFirst(cardNumber: string, expiryDate: string, cvv: string, holder: string,
                         storage: Storage, now: int)
    requires !CardPrecheckOk(cardNumber) || |cvv| != 3 || holder == ""
    ensures PaymentStepOf(cardNumber, expiryDate, cvv, holder, storage, now).Refused?
  {
  }

  /** `parseInt(carId)`, as `JSON.stringify` then sends it: a number, or null for NaN. */
  function CarIdJson(carId: string): (r: Json)
    ensures r.Num? || r == Null
  {
    match ParseInt(carId)
    case Some(n) => Num(n)
    case None => Null
  }

  /** The `bookingData` that `handlePayment` passes to `createBooking`. */
  function BookingFor(params: PaymentParams, cardNumber: string, expiryDate: string, cvv: string,
                      holder: string): BookingData
  {
    BookingData(CarIdJson(params.carId), IsoDate(params.startDate), IsoDate(params.endDate),
      params.phoneNumber, Some(params.note), PaymentDetails(cardNumber, expiryDate, cvv, holder))
  }

  /** A numeric car id reaches the server as that number, and the dates as their calendar days. */
  lemma BookingForContents(params: PaymentParams, cardNumber: string, expiryDate: string, cvv: string,
                           holder: string, id: nat)
    requires params.carId == NatToString(id)
    ensures var d := BookingFor(params, cardNumber, expiryDate, cvv, holder);
      && d.car == Num(id)
      && (CivilOf(params.startDate) == CivilOf(params.endDate) ==> d.startDate == d.endDate)
      && NoteOrEmpty(d.note) == params.note
  {
    ParseIntOfNatToString(id);
  }

  /**
   * The value the catch block of `handlePayment` settles on, for an error
   * whose `response.data` is `responseData` (undefined when it has no
   * response) and whose `message` is `errorMessage`: a truthy `detail`, else
   * a truthy response `message`, else a truthy error `message`, else the
   * generic text. It is a server value, not necessarily a string.
   */
  function CatchMessage(responseData: Json, errorMessage: Json): (r: Json)
    ensures Truthy(r)
    ensures var detail, message := Member(responseData, "detail"), Member(responseData, "message");
      && (Truthy(detail) ==> r == detail)
      && (!Truthy(detail) && Truthy(message) ==> r == message)
      && (!Truthy(detail) && !Truthy(message) && Truthy(errorMessage) ==> r == errorMessage)
      && (!Truthy(detail) && !Truthy(message) && !Truthy(errorMessage) ==> r == Str(ServerUnreachableMessage))
  {
    if Truthy(Member(responseData, "detail")) then Member(responseData, "detail")
    else if Truthy(Member(responseData, "message")) then Member(responseData, "message")
    else if Truthy(errorMessage) then errorMessage
    else Str(ServerUnreachableMessage)
  }

  /**
   * `v.includes(part)`: a substring test on a string, an element test on an
   * array, and `None` on any other value, which has no `includes` and throws.
   */
  function Includes(v: Json, part: string): Option<bool> {
    match v
    case Str(s) => Some(Contains(s, part))
    case Arr(items) => Some(Str(part) in items)
    case _ => None
  }

  /** The catch block reaches its alert only when the chosen value has `includes`. */
  predicate Alertable(v: Json) { v.Str? || v.Arr? }

  /** `errorMessage.includes('Token') || errorMessage.includes('avtorizatsiya')`. */
  predicate SendsToLogin(v: Json) {
    Includes(v, "Token") == Some(true) || Includes(v, "avtorizatsiya") == Some(true)
  }

  /**
   * What `createBooking` throws is a plain object without `response`, so only
   * its `message` (here `reason`) takes part in the choice.
   */
  function FailureMessage(o: BookingOutcome): (r: Json)
    requires o.Thrown?
    ensures Truthy(r)
    ensures Truthy(o.reason) ==> r == o.reason
  {
    CatchMessage(Undefined, o.reason)
  }

  /** The alerts shown once `createBooking` has settled; a failure shows its message as `String()` gives it. */
  function OutcomeAlerts(o: BookingOutcome): (r: seq<Alert>)
    ensures o.Returned? ==> r == [Dialog(SuccessTitle, SuccessMessage, Some(TabsRoute))]
    ensures o.Thrown? && Alertable(FailureMessage(o)) ==> r == [Dialog(FailureTitle, ToText(FailureMessage(o)), None)]
    ensures o.Thrown? && !Alertable(FailureMessage(o)) ==> r == []
  {
    if o.Returned? then [Dialog(SuccessTitle, SuccessMessage, Some(TabsRoute))]
    else if Alertable(FailureMessage(o)) then [Dialog(FailureTitle, ToText(FailureMessage(o)), None)]
    else []
  }

  /** The route once `createBooking` has settled: '/login' exactly when the failure message mentions the token. */
  function OutcomeRoute(o: BookingOutcome, route: Route): (r: Route)
    ensures o.Thrown? && SendsToLogin(FailureMessage(o)) ==> r == LoginRoute
    ensures r != route ==> r == LoginRoute && o.Thrown? && SendsToLogin(FailureMessage(o))
  {
    if o.Thrown? && SendsToLogin(FailureMessage(o)) then LoginRoute else route
  }

  /**
   * A failure of `createBooking` whose message is a string is shown as that
   * string under 'Xatolik', and it sends the user to '/login' exactly when
   * the string mentions 'Token' or 'avtorizatsiya'.
   */
  lemma StringFailureShown(storage: Storage, readFails: bool, d: BookingData, script: seq<HttpResult>, route: Route)
    ensures var o := CreateBookingRun(storage, readFails, d, script).outcome;
      o.Thrown? && o.reason.Str? ==>
        && OutcomeAlerts(o) == [Dialog(FailureTitle, o.reason.s, None)]
        && OutcomeRoute(o, route) ==
             (if Contains(o.reason.s, "Token") || Contains(o.reason.s, "avtorizatsiya") then LoginRoute else route)
  {
    var o := CreateBookingRun(storage, readFails, d, script).outcome;
    if o.Thrown? && o.reason.Str? {
      ThrownMessages(storage, readFails, d, script);
      StringReasonShown(o, route);
    }
  }

  /** The step of `StringFailureShown` about one outcome, once its message is known to be truthy. */
  lemma StringReasonShown(o: BookingOutcome, route: Route)
    requires o.Thrown? && o.reason.Str? && Truthy(o.reason)
    ensures OutcomeAlerts(o) == [Dialog(FailureTitle, o.reason.s, None)]
    ensures OutcomeRoute(o, route) ==
              (if Contains(o.reason.s, "Token") || Contains(o.reason.s, "avtorizatsiya") then LoginRoute else route)
  {
    assert FailureMessage(o) == o.reason;
  }

  /**
   * Every outcome of `createBooking` ends in exactly one alert, except a
   * failure whose message is a number, a boolean or an object: `includes`
   * then throws inside the catch block and nothing is shown.
   */
  lemma OneAlertPerOutcome(storage: Storage, readFails: bool, d: BookingData, script: seq<HttpResult>)
    ensures var o := CreateBookingRun(storage, readFails, d, script).outcome;
      |OutcomeAlerts(o)| == (if o.Returned? || o.reason.Str? || o.reason.Arr? then 1 else 0)
  {
    ThrownMessages(storage, readFails, d, script);
  }

  /**
   * A booking POST that the server refuses with a non-2xx status and a
   * `message` that mentions 'Token' sends the user to '/login' and shows
   * that message.
   */
  lemma TokenRejectionGoesToLogin(storage: Storage, d: BookingData, status: int, fields: seq<(string, Json)>,
                                  m: string, rest: seq<HttpResult>, route: Route)
    requires !IsOk(status)
    requires Lookup(fields, "message") == Str(m) && Contains(m, "Token")
    ensures var o := CreateBookingRun(storage, false, d, [Response(status, Parsed(Obj(fields)))] + rest).outcome;
      OutcomeRoute(o, route) == LoginRoute && OutcomeAlerts(o) == [Dialog(FailureTitle, m, None)]
  {
    var script := [Response(status, Parsed(Obj(fields)))] + rest;
    assert Nth(script, 0) == Response(status, Parsed(Obj(fields)));
    var o := CreateBookingRun(storage, false, d, script).outcome;
    assert m != [];
    assert o == Thrown(true, Str(m));
  }

  /** The same with the message `["Token"]`: the array's `includes` finds the element, and its text is shown. */
  lemma TokenArrayGoesToLogin(storage: Storage, d: BookingData, status: int, rest: seq<HttpResult>, route: Route)
    requires !IsOk(status)
    ensures var body := Obj([("message", Arr([Str("Token")]))]);
      var o := CreateBookingRun(storage, false, d, [Response(status, Parsed(body))] + rest).outcome;
      OutcomeRoute(o, route) == LoginRoute && OutcomeAlerts(o) == [Dialog(FailureTitle, "Token", None)]
  {
    var body := Obj([("message", Arr([Str("Token")]))]);
    var script := [Response(status, Parsed(body))] + rest;
    assert Nth(script, 0) == Response(status, Parsed(body));
    var o := CreateBookingRun(storage, false, d, script).outcome;
    assert o == Thrown(true, Arr([Str("Token")]));
    assert ToText(Arr([Str("Token")])) == Join(["Token"], ",");
  }

  /** The end of `handlePayment`'s `try` and its `catch`: the alert, and '/login' when the message asks for it. */
  method ShowOutcome(device: Device, outcome: BookingOutcome)
    modifies device
    ensures device.alerts == old(device.alerts) + OutcomeAlerts(outcome)
    ensures device.route == OutcomeRoute(outcome, old(device.route))
    ensures device.storage == old(device.storage)
  {
    if outcome.Returned? {
      device.Show(Dialog(SuccessTitle, SuccessMessage, Some(TabsRoute)));
    } else {
      var message := FailureMessage(outcome);
      if Alertable(message) {
        if SendsToLogin(message) {
          device.Navigate(LoginRoute);
        }
        device.Show(Dialog(FailureTitle, ToText(message), None));
      }
    }
  }

  /** The screen's state: the field values, their error texts and the submitting flag. */
  class PaymentScreen {
    const device: Device
    const params: PaymentParams
    var cardNumber: string
    var formattedCardNumber: string
    var expiryDate: string
    var cvv: string
    var cardHolderName: string
    var cardNumberError: string
    var expiryDateError: string
    var cvvError: string
    var cardHolderNameError: string
    var isSubmitting: bool

    constructor (device: Device, params: PaymentParams)
      ensures this.device == device && this.params == params
      ensures cardNumber == "" && formattedCardNumber == "" && expiryDate == "" && cvv == "" && cardHolderName == ""
      ensures Errors() == InputErrors("", "", "", "") && !isSubmitting
    {
      this.device := device;
      this.params := params;
      cardNumber, formattedCardNumber, expiryDate, cvv, cardHolderName := "", "", "", "", "";
      cardNumberError, expiryDateError, cvvError, cardHolderNameError := "", "", "", "";
      isSubmitting := false;
    }

    function Errors(): InputErrors
      reads this
    {
      InputErrors(cardNumberError, expiryDateError, cvvError, cardHolderNameError)
    }

    /** Typing in the card-number field. */
    method OnCardNumberText(text: string)
      modifies this
      ensures cardNumber == Digits(text) && formattedCardNumber == CardDisplay(text)
      ensures Errors() == old(Errors()).(card := "")
      ensures expiryDate == old(expiryDate) && cvv == old(cvv) && cardHolderName == old(cardHolderName)
      ensures isSubmitting == old(isSubmitting)
    {
      cardNumberError := "";
      var formatted, clean := FormatCardNumber(text);
      formattedCardNumber := formatted;
      cardNumber := clean;
    }

    /** Typing in the expiry field. */
    method OnExpiryText(text: string)
      modifies this
      ensures expiryDate == FormatExpiry(text)
      ensures Errors() == old(Errors()).(expiry := "")
      ensures cardNumber == old(cardNumber) && formattedCardNumber == old(formattedCardNumber)
      ensures cvv == old(cvv) && cardHolderName == old(cardHolderName) && isSubmitting == old(isSubmitting)
    {
      expiryDateError := "";
      expiryDate := FormatExpiry(text);
    }

    /** Typing in the CVV field: the text is kept as typed. */
    method OnCvvText(text: string)
      modifies this
      ensures cvv == text
      ensures Errors() == old(Errors()).(cvv := "")
      ensures cardNumber == old(cardNumber) && formattedCardNumber == old(formattedCardNumber)
      ensures expiryDate == old(expiryDate) && cardHolderName == old(cardHolderName) && isSubmitting == old(isSubmitting)
    {
      cvvError := "";
      cvv := text;
    }

    /** Typing in the card-holder field: the text is upper-cased. */
    method OnHolderText(text: string)
      modifies this
      ensures cardHolderName == ToUpperAscii(text)
      ensures Errors() == old(Errors()).(holder := "")
      ensures cardNumber == old(cardNumber) && formattedCardNumber == old(formattedCardNumber)
      ensures expiryDate == old(expiryDate) && cvv == old(cvv) && isSubmitting == old(isSubmitting)
    {
      cardHolderNameError := "";
      cardHolderName := ToUpperAscii(text);
    }

    /** `validateInputs`: sets every error text and says whether all are clear. */
    method ValidateInputs(now: int) returns (isValid: bool)
      modifies this
      ensures Errors() == CheckInputs(cardNumber, expiryDate, cvv, cardHolderName, now)
      ensures isValid <==> Errors().AllClear()
      ensures cardNumber == old(cardNumber) && formattedCardNumber == old(formattedCardNumber)
      ensures expiryDate == old(expiryDate) && cvv == old(cvv) && cardHolderName == old(cardHolderName)
      ensures isSubmitting == old(isSubmitting)
    {
      isValid := true;
      var card, expiry, code, holder := "", "", "", "";
      if !CardNumberOk(cardNumber) {
        card := CardNumberMessage;
        isValid := false;
      }
      if !ExpiryFormatOk(expiryDate) {
        expiry := ExpiryFormatMessage;
        isValid := false;
      } else if Expired(expiryDate, now) {
        expiry := ExpiredMessage;
        isValid := false;
      }
      if !CvvOk(cvv) {
        code := CvvMessage;
        isValid := false;
      }
      if !HolderOk(cardHolderName) {
        holder := HolderMessage;
        isValid := false;
      }
      cardNumberError, expiryDateError, cvvError, cardHolderNameError := card, expiry, code, holder;
    }

    /**
     * `handlePayment` at instant `now`, sending through `server`: ignored
     * while a submission runs; otherwise the checks of `PaymentStepOf`
     * decide, and a booking ends in the alert and route of its outcome.
     */
    method HandlePayment(server: Server, now: int)
      modifies this, device, server
      ensures cardNumber == old(cardNumber) && formattedCardNumber == old(formattedCardNumber)
      ensures expiryDate == old(expiryDate) && cvv == old(cvv) && cardHolderName == old(cardHolderName)
      ensures device.storage == old(device.storage)
      ensures old(isSubmitting) ==>
        && isSubmitting && Errors() == old(Errors())
        && device.alerts == old(device.alerts) && device.route == old(device.route)
        && server.log == old(server.log)
      ensures !old(isSubmitting) ==> !isSubmitting
      ensures !old(isSubmitting) ==>
        match PaymentStepOf(cardNumber, expiryDate, cvv, cardHolderName, old(device.storage), now)
        case Refused(message) =>
          && device.alerts == old(device.alerts) + [Dialog(FailureTitle, message, None)]
          && device.route == old(device.route) && server.log == old(server.log) && Errors() == old(Errors())
        case LoginRequired =>
          && device.alerts == old(device.alerts) + [Dialog(FailureTitle, NotAuthorizedMessage, None)]
          && device.route == LoginRoute && server.log == old(server.log) && Errors() == old(Errors())
        case InputsInvalid(errors) =>
          && Errors() == errors
          && device.alerts == old(device.alerts) && device.route == old(device.route) && server.log == old(server.log)
        case Proceed =>
          var run := CreateBookingRun(old(device.storage), false,
            BookingFor(params, cardNumber, expiryDate, cvv, cardHolderName), old(server.script));
          && Errors().AllClear()
          && server.log == old(server.log) + run.requests
          && device.alerts == old(device.alerts) + OutcomeAlerts(run.outcome)
          && device.route == OutcomeRoute(run.outcome, old(device.route))
    {
      if isSubmitting {
        return;
      }
      isSubmitting := true;
      var step := PaymentStepOf(cardNumber, expiryDate, cvv, cardHolderName, device.storage, now);
      if step.Refused? {
        isSubmitting := false;
        device.Show(Dialog(FailureTitle, step.message, None));
        return;
      }
      if step.LoginRequired? {
        isSubmitting := false;
        device.Show(Dialog(FailureTitle, NotAuthorizedMessage, None));
        device.Navigate(LoginRoute);
        return;
      }
      var valid := ValidateInputs(now);
      if !valid {
        isSubmitting := false;
        return;
      }
      var data := BookingFor(params, cardNumber, expiryDate, cvv, cardHolderName);
      var outcome := CreateBooking(device, server, data, false);
      ShowOutcome(device, outcome);
      isSubmitting := false;
    }
  }
}
