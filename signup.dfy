/**
 * The sign-up screen of app/signup.tsx: the Uzbek phone formatter and
 * validator, the phone field's input filter, and `handleSignup`, which
 * registers the account, requests a token, fetches the profile, stores it
 * and logs in, showing one alert for the first step that fails.
 */
module Signup {
  import opened Options
  import opened Text
  import opened Json
  import opened Device
  import opened Http
  import opened Session

  /** The account endpoints are on a different host from the booking API. */
  const AuthUrl: string := "https://car-rental-api-gyfw.onrender.com"
  const RegisterUrl: string := AuthUrl + "/api/v1/users/register/"
  const TokenUrl: string := AuthUrl + "/api/v1/users/token/"
  const ProfileUrl: string := AuthUrl + "/api/v1/users/me/"

  const FailureTitle: string := "Xatolik"
  const PasswordMismatchMessage: string := "Parollar bir xil emas"
  const PhoneFormatMessage: string := "Telefon raqamni to'g'ri formatda kiriting\n(Masalan: +998901234567)"
  const UsernameTakenMessage: string := "Bu username allaqachon mavjud"
  const EmailTakenMessage: string := "Bu email allaqachon ro'yxatdan o'tgan"
  const RegistrationFailedMessage: string := "Ro'yxatdan o'tishda xatolik yuz berdi"
  const ProfileFailedMessage: string := "Foydalanuvchi ma'lumotlarini olishda xatolik"
  const LoginAfterSignupFailedMessage: string :=
    "Ro'yxatdan o'tish muvaffaqiyatli, lekin tizimga kirishda xatolik yuz berdi"
  const UnexpectedMessage: string := "Xatolik yuz berdi. Iltimos qaytadan urinib ko'ring"

  const CountryCode: string := "998"

  /** `/^\+998[0-9]{9}$/`: a plus sign, 998, and nine further digits. */
  predicate UzbekPhone(p: string) {
    |p| == 13 && StartsWith(p, "+998") && AllDigits(p[4..])
  }

  /** The strings the regular expression accepts are exactly "+998" followed by nine digits. */
  lemma UzbekPhoneExactly(p: string)
    ensures UzbekPhone(p) <==> exists d :: |d| == 9 && AllDigits(d) && p == "+998" + d
  {
    if UzbekPhone(p) {
      assert p == "+998" + p[4..];
    }
  }

  /**
   * `formatPhoneNumber`: the digits of the input, with 998 put in front
   * unless they already start with it, after a plus sign.
   */
  function FormatPhoneNumber(phone: string): (r: string)
    ensures StartsWith(r, "+998") && AllDigits(r[1..])
  {
    var cleaned := Digits(phone);
    var withPrefix := if StartsWith(cleaned, CountryCode) then cleaned else CountryCode + cleaned;
    assert withPrefix[..3] == CountryCode;
    "+" + withPrefix
  }

  /** The digits of the formatted number: the input's digits, with 998 added exactly when they lacked it. */
  lemma FormattedPhoneDigits(phone: string)
    ensures var d := Digits(phone);
      && (StartsWith(d, CountryCode) ==> Digits(FormatPhoneNumber(phone)) == d)
      && (!StartsWith(d, CountryCode) ==> Digits(FormatPhoneNumber(phone)) == CountryCode + d)
      && (Digits(FormatPhoneNumber(phone)) == d <==> StartsWith(d, CountryCode))
  {
    var r := FormatPhoneNumber(phone);
    PlusDigits(r[1..]);
    assert r == "+" + r[1..];
  }

  /** A plus sign followed by digits has exactly those digits. */
  lemma PlusDigits(w: string)
    requires AllDigits(w)
    ensures Digits("+" + w) == w
  {
    DigitsConcat("+", w);
    FilterDropsAll("+", IsDigit);
    DigitsOfDigits(w);
  }

  /** Formatting an already formatted number changes nothing. */
  lemma FormatPhoneIdempotent(phone: string)
    ensures FormatPhoneNumber(FormatPhoneNumber(phone)) == FormatPhoneNumber(phone)
  {
    var r := FormatPhoneNumber(phone);
    PlusDigits(r[1..]);
    assert r == "+" + r[1..];
    assert StartsWith(r[1..], CountryCode);
  }

  /** The formatted number passes the check exactly when the input had 12 digits starting with 998, or 9 digits not starting with it. */
  lemma FormattedPhoneValid(phone: string)
    ensures var d := Digits(phone);
      UzbekPhone(FormatPhoneNumber(phone)) <==>
        (if StartsWith(d, CountryCode) then |d| == 12 else |d| == 9)
  {
  }

  /** `text.replace(/[^0-9+]/g, '')`, the phone field's change handler. */
  function PhoneInput(text: string): (r: string)
    ensures forall i :: 0 <= i < |r| ==> IsPhoneChar(r[i])
  {
    Filter(text, IsPhoneChar)
  }

  /** Typed text is kept as it is exactly when it holds only digits and plus signs. */
  lemma PhoneInputKeepsExactly(text: string)
    ensures PhoneInput(text) == text <==> forall i :: 0 <= i < |text| ==> IsPhoneChar(text[i])
  {
    if forall i :: 0 <= i < |text| ==> IsPhoneChar(text[i]) {
      FilterKeepsAll(text, IsPhoneChar);
    }
  }

  /** The input filter loses no digit, so the formatted number is the same with or without it. */
  lemma PhoneInputKeepsDigits(text: string)
    ensures Digits(PhoneInput(text)) == Digits(text)
    ensures FormatPhoneNumber(PhoneInput(text)) == FormatPhoneNumber(text)
  {
    FilterNarrows(text, IsPhoneChar, IsDigit);
  }

  datatype SignupForm = SignupForm(
    username: string, email: string, phoneNumber: string, password: string, confirmPassword: string)

  /** The registration POST; its phone number is the formatted one. */
  function RegisterRequest(f: SignupForm): Request {
    Request(POST, RegisterUrl, None, StrObj([
      ("username", f.username), ("email", f.email), ("password", f.password),
      ("phone_number", FormatPhoneNumber(f.phoneNumber))]))
  }

  function TokenRequest(f: SignupForm): Request {
    Request(POST, TokenUrl, None, StrObj([("username", f.username), ("password", f.password)]))
  }

  /** The profile GET carries `Bearer ${token}`, whatever `data.access` was. */
  function ProfileRequest(token: Json): Request {
    Request(GET, ProfileUrl, Some("Bearer " + ToText(token)), Undefined)
  }

  /**
   * The alert for a registration the server refused: a username error, then
   * an email error, then the generic text; a body that does not parse, or
   * parses to null, gets the generic text too.
   */
  function RegistrationFailure(body: Body): (r: string)
    ensures r == UsernameTakenMessage <==> body.Parsed? && Truthy(Member(body.value, "username"))
    ensures r == EmailTakenMessage <==>
      body.Parsed? && !Truthy(Member(body.value, "username")) && Truthy(Member(body.value, "email"))
    ensures r in {UsernameTakenMessage, EmailTakenMessage, RegistrationFailedMessage}
  {
    match body
    case Unparseable(_) => RegistrationFailedMessage
    case Parsed(errorData) =>
      if Truthy(Member(errorData, "username")) then UsernameTakenMessage
      else if Truthy(Member(errorData, "email")) then EmailTakenMessage
      else RegistrationFailedMessage
  }

  /** The profile document saved under `userData`: three fields copied from the server's answer. */
  function ProfileDocument(userData: Json): (r: string)
    ensures r != ""
  {
    Stringify(Obj([
      ("username", Member(userData, "username")),
      ("email", Member(userData, "email")),
      ("phone_number", Member(userData, "phone_number"))]))
  }

  /** How `handleSignup` ends: one alert, or the profile is stored and `login` is called with the token. */
  datatype SignupEffect = Shown(alert: Alert) | SignedIn(userData: string, token: string)

  datatype SignupRun = SignupRun(requests: seq<Request>, effect: SignupEffect)

  /**
   * `handleSignup` against a server that answers with `script`. A request
   * that gets no response, a body that is not JSON where `.json()` is used,
   * a null body read for a property, and a failing `userData` write all end
   * in the outer catch.
   */
  function SignupRunOf(f: SignupForm, script: seq<HttpResult>, userDataWriteFails: bool): SignupRun
  {
    if f.password != f.confirmPassword then
      SignupRun([], Shown(Dialog(FailureTitle, PasswordMismatchMessage, None)))
    else if !UzbekPhone(FormatPhoneNumber(f.phoneNumber)) then
      SignupRun([], Shown(Dialog(FailureTitle, PhoneFormatMessage, None)))
    else
      var registered := Nth(script, 0);
      var rest := RegisteredRun(f, registered, Drop(script, 1), userDataWriteFails);
      SignupRun([RegisterRequest(f)] + rest.requests, rest.effect)
  }

  /** What follows the registration request, given its result; `script` holds the later results. */
  function RegisteredRun(f: SignupForm, registered: HttpResult, script: seq<HttpResult>, userDataWriteFails: bool): SignupRun
  {
    if registered.NoResponse? then SignupRun([], Shown(Notice(UnexpectedMessage)))
    else if !IsOk(registered.status) then SignupRun([], Shown(Notice(RegistrationFailure(registered.body))))
    else
      var loggedIn := Nth(script, 0);
      var rest := LoggedInRun(loggedIn, Drop(script, 1), userDataWriteFails);
      SignupRun([TokenRequest(f)] + rest.requests, rest.effect)
  }

  /** What follows the token request, given its result. */
  function LoggedInRun(loggedIn: HttpResult, script: seq<HttpResult>, userDataWriteFails: bool): SignupRun
  {
    if loggedIn.NoResponse? then SignupRun([], Shown(Notice(UnexpectedMessage)))
    else if !IsOk(loggedIn.status) then SignupRun([], Shown(Notice(LoginAfterSignupFailedMessage)))
    else if loggedIn.body.Unparseable? || Nullish(loggedIn.body.value) then
      SignupRun([], Shown(Notice(UnexpectedMessage)))
    else
      var token := Member(loggedIn.body.value, "access");
      SignupRun([ProfileRequest(token)], ProfileEffect(token, Nth(script, 0), userDataWriteFails))
  }

  /** The end of the run, given the token and the profile request's result. */
  function ProfileEffect(token: Json, me: HttpResult, userDataWriteFails: bool): SignupEffect
  {
    if me.NoResponse? then Shown(Notice(UnexpectedMessage))
    else if !IsOk(me.status) then Shown(Notice(ProfileFailedMessage))
    else if me.body.Unparseable? || Nullish(me.body.value) || userDataWriteFails then Shown(Notice(UnexpectedMessage))
    else SignedIn(ProfileDocument(me.body.value), ToText(token))
  }

  /** A password mismatch is reported first, whatever the phone number, and sends nothing. */
  lemma MismatchReportedFirst(f: SignupForm, script: seq<HttpResult>, writeFails: bool)
    requires f.password != f.confirmPassword
    ensures SignupRunOf(f, script, writeFails) ==
      SignupRun([], Shown(Dialog(FailureTitle, PasswordMismatchMessage, None)))
  {
  }

  /** Nothing is sent unless the passwords agree and the formatted phone passes the check. */
  lemma RequestsOnlyForValidForm(f: SignupForm, script: seq<HttpResult>, writeFails: bool)
    ensures var run := SignupRunOf(f, script, writeFails);
      run.requests == [] <==> f.password != f.confirmPassword || !UzbekPhone(FormatPhoneNumber(f.phoneNumber))
    ensures var run := SignupRunOf(f, script, writeFails);
      f.password == f.confirmPassword && !UzbekPhone(FormatPhoneNumber(f.phoneNumber)) ==>
        run.effect == Shown(Dialog(FailureTitle, PhoneFormatMessage, None))
  {
  }

  /** The registration request carries the formatted phone, which is a valid Uzbek number. */
  lemma RegisterRequestShape(f: SignupForm, script: seq<HttpResult>, writeFails: bool)
    ensures var run := SignupRunOf(f, script, writeFails);
      run.requests != [] ==>
        && run.requests[0].verb == POST && run.requests[0].url == RegisterUrl
        && Member(run.requests[0].body, "phone_number") == Str(FormatPhoneNumber(f.phoneNumber))
        && UzbekPhone(FormatPhoneNumber(f.phoneNumber))
  {
    var fields := RegisterRequest(f).body.fields;
    LookupAt(fields, "phone_number", 3);
  }

  /**
   * A sign-in happens only after all three requests succeed, and the stored
   * token is the one the profile request was authorized with.
   */
  lemma SignedInAfterThreeAnswers(f: SignupForm, script: seq<HttpResult>, writeFails: bool)
    ensures var run := SignupRunOf(f, script, writeFails);
      run.effect.SignedIn? ==>
        && |run.requests| == 3 && |script| >= 3 && !writeFails
        && Answered(script[0]) && Answered(script[1]) && Answered(script[2])
        && run.requests[1] == TokenRequest(f)
        && run.requests[2].authorization == Some("Bearer " + run.effect.token)
  {
    var run := SignupRunOf(f, script, writeFails);
    if run.effect.SignedIn? {
      DropDrop(script, 1);
      var rest := RegisteredRun(f, Nth(script, 0), Drop(script, 1), writeFails);
      var last := LoggedInRun(Nth(script, 1), Drop(script, 2), writeFails);
      assert rest.requests == [TokenRequest(f)] + last.requests;
      DropDrop(script, 2);
      assert Nth(Drop(script, 2), 0) == Nth(script, 2);
    }
  }

  /** A response with a 2xx status. */
  predicate Answered(r: HttpResult) { r.Response? && IsOk(r.status) }

  /** Once signed in and logged in, `checkAuth` finds a session exactly when the token text is not empty. */
  lemma SignupLeavesSession(s: Storage, userData: string, token: string)
    requires userData != ""
    ensures SessionPresent(SetItem(SetItem(s, UserDataKey, userData), UserTokenKey, token)) <==> token != ""
  {
    LoginThenCheckAuth(SetItem(s, UserDataKey, userData), token);
  }

  class SignupScreen {
    const auth: AuthProvider
    var username: string
    var email: string
    var phoneNumber: string
    var password: string
    var confirmPassword: string

    /** Every field starts empty. */
    constructor (auth: AuthProvider)
      ensures this.auth == auth
      ensures Form() == SignupForm("", "", "", "", "")
    {
      this.auth := auth;
      username, email, phoneNumber, password, confirmPassword := "", "", "", "", "";
    }

    function Form(): SignupForm
      reads this
    {
      SignupForm(username, email, phoneNumber, password, confirmPassword)
    }

    /** The phone field keeps only the digits and plus signs of what was typed. */
    method OnPhoneText(text: string)
      modifies this
      ensures phoneNumber == PhoneInput(text)
      ensures username == old(username) && email == old(email)
      ensures password == old(password) && confirmPassword == old(confirmPassword)
    {
      phoneNumber := PhoneInput(text);
    }

    /**
     * `handleSignup`. `userDataWriteFails` says whether saving the profile
     * fails, `tokenWriteFails` whether `login`'s write does.
     */
    method HandleSignup(server: Server, userDataWriteFails: bool, tokenWriteFails: bool)
      modifies server, auth, auth.device
      ensures var run := SignupRunOf(Form(), old(server.script), userDataWriteFails);
        && server.log == old(server.log) + run.requests
        && server.script == Drop(old(server.script), |run.requests|)
        && Applied(auth, run.effect, tokenWriteFails)
    {
      if password != confirmPassword {
        auth.device.Show(Dialog(FailureTitle, PasswordMismatchMessage, None));
        return;
      }
      var formattedPhone := FormatPhoneNumber(phoneNumber);
      if !UzbekPhone(formattedPhone) {
        auth.device.Show(Dialog(FailureTitle, PhoneFormatMessage, None));
        return;
      }
      var response := server.Send(RegisterRequest(Form()));
      AfterRegistration(server, response, userDataWriteFails, tokenWriteFails);
    }

    /** The rest of `handleSignup` once the registration request has `registered` as its result. */
    method AfterRegistration(server: Server, registered: HttpResult, userDataWriteFails: bool, tokenWriteFails: bool)
      modifies server, auth, auth.device
      ensures var run := RegisteredRun(Form(), registered, old(server.script), userDataWriteFails);
        && server.log == old(server.log) + run.requests
        && server.script == Drop(old(server.script), |run.requests|)
        && Applied(auth, run.effect, tokenWriteFails)
    {
      if registered.NoResponse? {
        auth.device.Show(Notice(UnexpectedMessage));
        return;
      }
      if !IsOk(registered.status) {
        auth.device.Show(Notice(RegistrationFailure(registered.body)));
        return;
      }
      ghost var script := server.script;
      var loginResponse := server.Send(TokenRequest(Form()));
      AfterTokenRequest(server, loginResponse, userDataWriteFails, tokenWriteFails);
      DropDrop(Drop(script, 1), 0);
      assert Drop(Drop(script, 1), |LoggedInRun(loginResponse, Drop(script, 1), userDataWriteFails).requests|) ==
        Drop(script, 1 + |LoggedInRun(loginResponse, Drop(script, 1), userDataWriteFails).requests|);
    }

    /** The rest of `handleSignup` once the token request has `loggedIn` as its result. */
    method AfterTokenRequest(server: Server, loggedIn: HttpResult, userDataWriteFails: bool, tokenWriteFails: bool)
      modifies server, auth, auth.device
      ensures var run := LoggedInRun(loggedIn, old(server.script), userDataWriteFails);
        && server.log == old(server.log) + run.requests
        && server.script == Drop(old(server.script), |run.requests|)
        && Applied(auth, run.effect, tokenWriteFails)
    {
      if loggedIn.NoResponse? {
        auth.device.Show(Notice(UnexpectedMessage));
        return;
      }
      if !IsOk(loggedIn.status) {
        auth.device.Show(Notice(LoginAfterSignupFailedMessage));
        return;
      }
      if loggedIn.body.Unparseable? || Nullish(loggedIn.body.value) {
        auth.device.Show(Notice(UnexpectedMessage));
        return;
      }
      var token := Member(loggedIn.body.value, "access");
      var userResponse := server.Send(ProfileRequest(token));
      if userResponse.NoResponse? {
        auth.device.Show(Notice(UnexpectedMessage));
        return;
      }
      if !IsOk(userResponse.status) {
        auth.device.Show(Notice(ProfileFailedMessage));
        return;
      }
      if userResponse.body.Unparseable? || Nullish(userResponse.body.value) || userDataWriteFails {
        auth.device.Show(Notice(UnexpectedMessage));
        return;
      }
      auth.device.storage := SetItem(auth.device.storage, UserDataKey, ProfileDocument(userResponse.body.value));
      auth.Login(ToText(token), tokenWriteFails);
    }
  }

  /**
   * The device and session after a run with `effect`: an alert and nothing
   * else, or the profile saved under `userData` followed by `login(token)`.
   */
  twostate predicate Applied(auth: AuthProvider, effect: SignupEffect, tokenWriteFails: bool)
    reads auth, auth.device
  {
    match effect
    case Shown(a) =>
      && auth.device.alerts == old(auth.device.alerts) + [a]
      && auth.device.storage == old(auth.device.storage) && auth.device.route == old(auth.device.route)
      && auth.isAuthenticated == old(auth.isAuthenticated)
    case SignedIn(userData, token) =>
      var saved := SetItem(old(auth.device.storage), UserDataKey, userData);
      && (tokenWriteFails ==>
            && auth.device.storage == saved
            && auth.device.alerts == old(auth.device.alerts) + [Notice(LoginFailedMessage)]
            && auth.device.route == old(auth.device.route) && auth.isAuthenticated == old(auth.isAuthenticated))
      && (!tokenWriteFails ==>
            && auth.device.storage == SetItem(saved, UserTokenKey, token)
            && auth.device.alerts == old(auth.device.alerts)
            && auth.device.route == TabsRoute && auth.isAuthenticated)
  }
}
