/**
 * The registration screen of app/register.tsx: the validation chain, the
 * e-mail pattern, the registration body, how a refusal is worded (field
 * errors one per line, else `detail` or `message`), and the token request
 * followed by the writes of `userData` and `token` and the call to `login`.
 */
module Register {
  import opened Options
  import opened Text
  import opened Json
  import opened Device
  import opened Http
  import opened Session
  import Signup
  import opened ObjectKeys

  const RegisterUrl: string := Signup.AuthUrl + "/api/v1/users/api/v1/register/"
  const TokenUrl: string := Signup.AuthUrl + "/api/v1/users/api/v1/token/"

  const MissingFieldMessage: string := "Iltimos, barcha maydonlarni to'ldiring"
  const PasswordMismatchMessage: string := "Parollar mos kelmadi"
  const PhoneFormatMessage: string := "Telefon raqamni to'g'ri formatda kiriting: +998901234567"
  const EmailFormatMessage: string := "Email formatini to'g'ri kiriting"
  const UnreadableReplyMessage: string := "Server javobini qayta ishlashda xatolik"
  const FieldErrorsHeader: string := "Xatoliklar:\n"
  const RefusedMessage: string := "Ro'yxatdan o'tishda xatolik yuz berdi"
  const LoginFailedFallback: string := "Login qilishda xatolik"
  const CaughtPrefix: string := "Ro'yxatdan o'tishda xatolik: "

  /** A character the e-mail pattern's `[^\s@]` accepts. */
  predicate Plain(c: char) { !IsWhitespace(c) && c != '@' }

  /**
   * What `/^[^\s@]+@[^\s@]+\.[^\s@]+$/` matches: an '@' at `i` and a '.' at
   * `j` with something before the '@', between them and after the '.', and
   * every other character plain.
   */
  predicate EmailMatch(s: string, i: int, j: int) {
    && 0 < i && i + 1 < j && j + 1 < |s|
    && s[i] == '@' && s[j] == '.'
    && forall k :: 0 <= k < |s| && k != i ==> Plain(s[k])
  }

  /** The position of the first '@' of `s`. */
  function AtIndex(s: string): (r: Option<nat>)
    ensures r.Some? ==> r.value < |s| && s[r.value] == '@' && forall k :: 0 <= k < r.value ==> s[k] != '@'
    ensures r.None? ==> forall k :: 0 <= k < |s| ==> s[k] != '@'
  {
    if s == [] then None
    else if s[0] == '@' then Some(0)
    else match AtIndex(s[1..])
      case None => None
      case Some(i) => Some(i + 1)
  }

  /** The e-mail test, computed: one '@' after something, only plain characters otherwise, and a dot strictly inside the domain. */
  predicate ValidEmail(s: string) {
    match AtIndex(s)
    case None => false
    case Some(i) =>
      && 0 < i && i + 4 <= |s|
      && (forall k :: 0 <= k < |s| && k != i ==> Plain(s[k]))
      && Contains(s[i + 2..|s| - 1], ".")
  }

  /** The computed test accepts exactly the strings the pattern matches. */
  lemma ValidEmailIsPattern(s: string)
    ensures ValidEmail(s) <==> exists i, j :: EmailMatch(s, i, j)
  {
    if ValidEmail(s) {
      ValidEmailMatches(s);
    }
    if exists i, j :: EmailMatch(s, i, j) {
      var i, j :| EmailMatch(s, i, j);
      assert AtIndex(s) == Some(i);
      var inner := s[i + 2..|s| - 1];
      assert inner[j - i - 2] == s[j];
      assert OccursAt(inner, ".", j - i - 2);
    }
  }

  /** The computed test's '@' and inner dot are a match of the pattern. */
  lemma ValidEmailMatches(s: string)
    requires ValidEmail(s)
    ensures exists i, j :: EmailMatch(s, i, j)
  {
    var i := AtIndex(s).value;
    var inner := s[i + 2..|s| - 1];
    var m :| OccursAt(inner, ".", m);
    assert inner[m..m + 1] == ".";
    assert inner[m] == '.';
    assert s[i + 2 + m] == inner[m];
    assert EmailMatch(s, i, i + 2 + m);
  }

  datatype RegisterForm = RegisterForm(
    username: string, password: string, confirmPassword: string,
    firstName: string, lastName: string, phoneNumber: string, email: string)

  /**
   * The checks before any request, in the code's order: a missing required
   * field, mismatched passwords, the phone pattern, and a non-empty e-mail
   * that does not match.
   */
  function Precheck(f: RegisterForm): (r: Option<string>)
    ensures r == Some(MissingFieldMessage) <==>
      "" in [f.username, f.password, f.confirmPassword, f.firstName, f.lastName, f.phoneNumber]
    ensures r == Some(PasswordMismatchMessage) <==>
      "" !in [f.username, f.password, f.confirmPassword, f.firstName, f.lastName, f.phoneNumber]
      && f.password != f.confirmPassword
    ensures r.None? <==>
      && "" !in [f.username, f.password, f.confirmPassword, f.firstName, f.lastName, f.phoneNumber]
      && f.password == f.confirmPassword && Signup.UzbekPhone(f.phoneNumber)
      && (f.email == "" || ValidEmail(f.email))
    ensures r.Some? ==> r.value in {MissingFieldMessage, PasswordMismatchMessage, PhoneFormatMessage, EmailFormatMessage}
  {
    if f.username == "" || f.password == "" || f.confirmPassword == "" || f.firstName == ""
       || f.lastName == "" || f.phoneNumber == "" then Some(MissingFieldMessage)
    else if f.password != f.confirmPassword then Some(PasswordMismatchMessage)
    else if !Signup.UzbekPhone(f.phoneNumber) then Some(PhoneFormatMessage)
    else if f.email != "" && !ValidEmail(f.email) then Some(EmailFormatMessage)
    else None
  }

  /** The registration body; `password2` repeats the password and a blank e-mail is sent as ''. */
  function RegisterBody(f: RegisterForm): Json {
    StrObj([
      ("username", f.username), ("password", f.password), ("password2", f.password),
      ("first_name", f.firstName), ("last_name", f.lastName),
      ("phone_number", f.phoneNumber), ("email", f.email)])
  }

  lemma RegisterBodyFields(f: RegisterForm)
    ensures Member(RegisterBody(f), "password2") == Member(RegisterBody(f), "password") == Str(f.password)
    ensures Member(RegisterBody(f), "email") == Str(f.email)
    ensures Member(RegisterBody(f), "phone_number") == Str(f.phoneNumber)
  {
    var fields := RegisterBody(f).fields;
    LookupAt(fields, "password", 1);
    LookupAt(fields, "password2", 2);
    LookupAt(fields, "phone_number", 5);
    LookupAt(fields, "email", 6);
  }

  function RegisterRequest(f: RegisterForm): Request {
    Request(POST, RegisterUrl, None, RegisterBody(f))
  }

  function TokenRequest(f: RegisterForm): Request {
    Request(POST, TokenUrl, None, StrObj([("username", f.username), ("password", f.password)]))
  }

  /**
   * Why the outer catch ran: a request that got no response, a reply that
   * `.json()` could not parse, or a TypeError from the code itself. The text
   * shown after the prefix is the error's `message`; fetch words a network
   * failure "Network request failed", the engine's own wording of the other
   * two is not modelled and they are shown by their names.
   */
  datatype Fault = NetworkFault | SyntaxFault | TypeFault

  function FaultText(fault: Fault): string {
    match fault
    case NetworkFault => "Network request failed"
    case SyntaxFault => "SyntaxError"
    case TypeFault => "TypeError"
  }

  function Caught(fault: Fault): Alert {
    Notice(CaughtPrefix + FaultText(fault))
  }

  /** `'key' in obj` for a parsed value. */
  predicate HasKey(v: Json, key: string) {
    v.Obj? && exists k :: 0 <= k < |v.fields| && v.fields[k].0 == key
  }

  /** `items.join(sep)`: null and undefined items give empty text. */
  function JoinItems(items: seq<Json>, sep: string): string {
    Join(seq(|items|, k requires 0 <= k < |items| => if Nullish(items[k]) then "" else ToText(items[k])), sep)
  }

  /** One line of the aggregated message, or None when the value has no `join` (a TypeError). */
  function FieldLine(field: string, fieldErrors: Json): Option<string> {
    if fieldErrors.Arr? then Some(field + ": " + JoinItems(fieldErrors.items, ", ")) else None
  }

  /** The lines for a run of entries, or None when any value has no `join`. */
  function EntryLines(entries: seq<(string, Json)>): (r: Option<seq<string>>)
    ensures r.Some? ==> |r.value| == |entries|
    ensures r.Some? <==> forall k :: 0 <= k < |entries| ==> entries[k].1.Arr?
    ensures r.Some? ==> forall k :: 0 <= k < |entries| ==> FieldLine(entries[k].0, entries[k].1) == Some(r.value[k])
    decreases |entries|
  {
    if entries == [] then Some([])
    else
      var last := entries[|entries| - 1];
      match (EntryLines(entries[..|entries| - 1]), FieldLine(last.0, last.1))
      case (Some(init), Some(line)) =>
        assert forall k :: 0 <= k < |entries| - 1 ==> entries[..|entries| - 1][k] == entries[k];
        Some(init + [line])
      case (_, _) =>
        None
  }

  /**
   * `Object.entries(errors)` for a parsed value: an object's members in own
   * key order, an array's items under their indexes; a number, a boolean or
   * an empty string has none; null throws, and so, at the `join`, does any
   * other string.
   */
  function Entries(errors: Json): Option<seq<(string, Json)>> {
    match errors
    case Obj(fields) => Some(OwnKeyOrder(fields))
    case Arr(items) => Some(seq(|items|, k requires 0 <= k < |items| => (NatToString(k), items[k])))
    case Num(_) => Some([])
    case Bool(_) => Some([])
    case Str(s) => if s == "" then Some([]) else None
    case _ => None
  }

  /** The alert for a refused registration whose reply parsed to `v`. */
  function RefusalAlert(v: Json): Alert {
    if Truthy(v) && (v.Obj? || v.Arr?) && HasKey(v, "errors") then
      var entries := Entries(Member(v, "errors"));
      if entries.None? then Caught(TypeFault)
      else
        var lines := EntryLines(entries.value);
        if lines.None? then Caught(TypeFault) else Notice(FieldErrorsHeader + Join(lines.value, "\n"))
    else if Truthy(v) && (v.Obj? || v.Arr?) then Notice(ToText(Or(Member(v, "detail"), Member(v, "message"))))
    else Notice(RefusedMessage)
  }

  /** A numeric field name is listed before a named one, whatever order the reply gave them in. */
  lemma IndexKeyListedFirst(username: (string, Json), zero: (string, Json))
    requires username == ("username", Arr([Str("taken")])) && zero == ("0", Arr([Str("bad")]))
    ensures Entries(Obj([username, zero])) == Some([zero, username])
  {
    ExampleKeys(username.0, zero.0);
    var both: seq<(string, Json)>, one: seq<(string, Json)> := [username, zero], [zero];
    assert both[1..] == one;
    assert IndexFields(one) == one && NamedFields(one) == [];
    assert IndexFields(both) == one && NamedFields(both) == [username];
    assert SortByIndex(one) == one;
    assert OwnKeyOrder(both) == [zero, username];
  }

  lemma ExampleKeys(name: string, index: string)
    requires name == "username" && index == "0"
    ensures !IsIndexKey(name) && IsIndexKey(index)
  {
    assert !IsDigit(name[0]);
    assert index[..0] == [];
    assert DigitsValue(index) == 0;
  }





  /**
   * Field errors are shown one field per line: with n fields whose names and
   * messages hold no line break, the alert has exactly n line breaks (one
   * after the header, one between neighbouring fields).
   */
  lemma FieldErrorsOnePerLine(fields: seq<(string, Json)>)
    requires fields != []
    requires forall k :: 0 <= k < |fields| ==> fields[k].1.Arr?
    requires forall k :: 0 <= k < |fields| ==> Count(FieldLine(fields[k].0, fields[k].1).value, '\n') == 0
    ensures var lines := EntryLines(fields);
      lines.Some? && Count(FieldErrorsHeader + Join(lines.value, "\n"), '\n') == |fields|
  {
    var lines := EntryLines(fields).value;
    forall k | 0 <= k < |lines|
      ensures Count(lines[k], '\n') == 0
    {
      assert FieldLine(fields[k].0, fields[k].1) == Some(lines[k]);
    }
    MessageLines(lines);
  }

  /** The header followed by `lines` joined with line breaks has one break per line. */
  lemma MessageLines(lines: seq<string>)
    requires lines != []
    requires forall k :: 0 <= k < |lines| ==> Count(lines[k], '\n') == 0
    ensures Count(FieldErrorsHeader + Join(lines, "\n"), '\n') == |lines|
  {
    JoinCount(lines, '\n');
    CountConcat(FieldErrorsHeader, Join(lines, "\n"), '\n');
    HeaderHasOneBreak();
  }

  lemma HeaderHasOneBreak()
    ensures Count(FieldErrorsHeader, '\n') == 1
  {
  }

  /** A line has no line break when its field name and its messages have none. */
  lemma FieldLineAvoidsBreaks(field: string, items: seq<Json>)
    requires Count(field, '\n') == 0
    requires forall k :: 0 <= k < |items| ==> Nullish(items[k]) || Count(ToText(items[k]), '\n') == 0
    ensures Count(FieldLine(field, Arr(items)).value, '\n') == 0
  {
    var texts := seq(|items|, k requires 0 <= k < |items| => if Nullish(items[k]) then "" else ToText(items[k]));
    assert forall k :: 0 <= k < |texts| ==> Count(texts[k], '\n') == 0;
    JoinAvoids(texts, ", ", '\n');
    CountConcat(field, ": ", '\n');
    CountConcat(field + ": ", JoinItems(items, ", "), '\n');
  }

  /** Without field errors the alert is `detail`, else `message`, for an object reply. */
  lemma DetailBeforeMessage(fields: seq<(string, Json)>)
    requires forall k :: 0 <= k < |fields| ==> fields[k].0 != "errors"
    ensures Truthy(Lookup(fields, "detail")) ==> RefusalAlert(Obj(fields)) == Notice(ToText(Lookup(fields, "detail")))
    ensures !Truthy(Lookup(fields, "detail")) ==> RefusalAlert(Obj(fields)) == Notice(ToText(Lookup(fields, "message")))
  {
    var v := Obj(fields);
    assert !HasKey(v, "errors");
    assert RefusalAlert(v) == Notice(ToText(Or(Member(v, "detail"), Member(v, "message"))));
  }

  /** What the last steps store, once the token request succeeded. */
  function UserDocument(f: RegisterForm): string {
    Stringify(StrObj([
      ("username", f.username), ("email", f.email), ("phone_number", f.phoneNumber),
      ("first_name", f.firstName), ("last_name", f.lastName)]))
  }

  /** How `handleRegister` ends: one alert, or `userData` and `token` written and `login(token)` called. */
  datatype Effect = Shown(alert: Alert) | Registered(userData: string, token: string)

  datatype RegisterRun = RegisterRun(requests: seq<Request>, effect: Effect)

  /** `handleRegister` against a server that answers with `script`. */
  function RegisterRunOf(f: RegisterForm, script: seq<HttpResult>): RegisterRun
  {
    var check := Precheck(f);
    if check.Some? then RegisterRun([], Shown(Notice(check.value)))
    else
      var rest := RepliedRun(f, Nth(script, 0), Drop(script, 1));
      RegisterRun([RegisterRequest(f)] + rest.requests, rest.effect)
  }

  /** What follows the registration request, given its result. The reply is parsed before its status is looked at. */
  function RepliedRun(f: RegisterForm, reply: HttpResult, script: seq<HttpResult>): RegisterRun
  {
    if reply.NoResponse? then RegisterRun([], Shown(Caught(NetworkFault)))
    else if reply.body.Unparseable? then RegisterRun([], Shown(Notice(UnreadableReplyMessage)))
    else if !IsOk(reply.status) then RegisterRun([], Shown(RefusalAlert(reply.body.value)))
    else RegisterRun([TokenRequest(f)], LoginEffect(f, Nth(script, 0)))
  }

  /** The end of the run, given the token request's result. */
  function LoginEffect(f: RegisterForm, reply: HttpResult): Effect
  {
    if reply.NoResponse? then Shown(Caught(NetworkFault))
    else if reply.body.Unparseable? then Shown(Caught(SyntaxFault))
    else if Nullish(reply.body.value) then Shown(Caught(TypeFault))
    else if !IsOk(reply.status) then Shown(Notice(ToText(Or(Member(reply.body.value, "detail"), Str(LoginFailedFallback)))))
    else Registered(UserDocument(f), ToText(Member(reply.body.value, "access")))
  }

  /** Every failed check sends nothing and shows its own message. */
  lemma ChecksSendNothing(f: RegisterForm, script: seq<HttpResult>)
    ensures var run := RegisterRunOf(f, script);
      (run.requests == [] <==> Precheck(f).Some?)
      && (Precheck(f).Some? ==> run.effect == Shown(Notice(Precheck(f).value)))
  {
  }

  /** An unreadable reply stops the run whatever its status, even a success. */
  lemma UnreadableReplyStops(f: RegisterForm, status: int, text: string, script: seq<HttpResult>)
    requires Precheck(f).None?
    ensures RegisterRunOf(f, [Response(status, Unparseable(text))] + script) ==
      RegisterRun([RegisterRequest(f)], Shown(Notice(UnreadableReplyMessage)))
  {
    assert Nth([Response(status, Unparseable(text))] + script, 0) == Response(status, Unparseable(text));
  }

  /** Registration completes only after both requests succeed with readable replies. */
  lemma RegisteredAfterTwoAnswers(f: RegisterForm, script: seq<HttpResult>)
    ensures var run := RegisterRunOf(f, script);
      run.effect.Registered? ==>
        && Precheck(f).None? && |script| >= 2
        && run.requests == [RegisterRequest(f), TokenRequest(f)]
        && script[0].Response? && IsOk(script[0].status) && script[0].body.Parsed?
        && script[1].Response? && IsOk(script[1].status) && script[1].body.Parsed?
        && run.effect.token == ToText(Member(script[1].body.value, "access"))
  {
    var run := RegisterRunOf(f, script);
    if run.effect.Registered? {
      DropDrop(script, 0);
      assert Nth(Drop(script, 1), 0) == Nth(script, 1);
    }
  }

  /**
   * After a completed registration and login the session is present and the
   * list calls find their `token` exactly when the token text is not empty.
   */
  lemma RegistrationLeavesSession(s: Storage, userData: string, token: string)
    requires userData != ""
    ensures var after := SetItem(SetItem(SetItem(s, UserDataKey, userData), TokenKey, token), UserTokenKey, token);
      && (SessionPresent(after) <==> token != "")
      && (Has(after, TokenKey) <==> token != "")
  {
  }

  class RegisterScreen {
    const auth: AuthProvider
    var username: string
    var password: string
    var confirmPassword: string
    var firstName: string
    var lastName: string
    var phoneNumber: string
    var email: string

    /** Every field starts empty. */
    constructor (auth: AuthProvider)
      ensures this.auth == auth
      ensures Form() == RegisterForm("", "", "", "", "", "", "")
    {
      this.auth := auth;
      username, password, confirmPassword := "", "", "";
      firstName, lastName, phoneNumber, email := "", "", "", "";
    }

    function Form(): RegisterForm
      reads this
    {
      RegisterForm(username, password, confirmPassword, firstName, lastName, phoneNumber, email)
    }

    /** `handleRegister`; `tokenWriteFails` says whether the write inside `login` fails. */
    method HandleRegister(server: Server, tokenWriteFails: bool)
      modifies server, auth, auth.device
      ensures var run := RegisterRunOf(Form(), old(server.script));
        && server.log == old(server.log) + run.requests
        && server.script == Drop(old(server.script), |run.requests|)
        && Applied(auth, run.effect, tokenWriteFails)
    {
      var check := Precheck(Form());
      if check.Some? {
        auth.device.Show(Notice(check.value));
        return;
      }
      var reply := server.Send(RegisterRequest(Form()));
      AfterRegistration(server, reply, tokenWriteFails);
    }

    /** The rest of `handleRegister` once the registration request has `reply` as its result. */
    method AfterRegistration(server: Server, reply: HttpResult, tokenWriteFails: bool)
      modifies server, auth, auth.device
      ensures var run := RepliedRun(Form(), reply, old(server.script));
        && server.log == old(server.log) + run.requests
        && server.script == Drop(old(server.script), |run.requests|)
        && Applied(auth, run.effect, tokenWriteFails)
    {
      if reply.NoResponse? {
        auth.device.Show(Caught(NetworkFault));
        return;
      }
      if reply.body.Unparseable? {
        auth.device.Show(Notice(UnreadableReplyMessage));
        return;
      }
      if !IsOk(reply.status) {
        auth.device.Show(RefusalAlert(reply.body.value));
        return;
      }
      var loginReply := server.Send(TokenRequest(Form()));
      if loginReply.NoResponse? {
        auth.device.Show(Caught(NetworkFault));
        return;
      }
      if loginReply.body.Unparseable? {
        auth.device.Show(Caught(SyntaxFault));
        return;
      }
      var loginData := loginReply.body.value;
      if Nullish(loginData) {
        auth.device.Show(Caught(TypeFault));
        return;
      }
      if !IsOk(loginReply.status) {
        auth.device.Show(Notice(ToText(Or(Member(loginData, "detail"), Str(LoginFailedFallback)))));
        return;
      }
      var token := ToText(Member(loginData, "access"));
      auth.device.storage := SetItem(auth.device.storage, UserDataKey, UserDocument(Form()));
      auth.device.storage := SetItem(auth.device.storage, TokenKey, token);
      auth.Login(token, tokenWriteFails);
    }
  }

  /**
   * The device and session after a run with `effect`: an alert and nothing
   * else, or `userData` and `token` written followed by `login(token)`.
   */
  twostate predicate Applied(auth: AuthProvider, effect: Effect, tokenWriteFails: bool)
    reads auth, auth.device
  {
    match effect
    case Shown(a) =>
      && auth.device.alerts == old(auth.device.alerts) + [a]
      && auth.device.storage == old(auth.device.storage) && auth.device.route == old(auth.device.route)
      && auth.isAuthenticated == old(auth.isAuthenticated)
    case Registered(userData, token) =>
      var saved := SetItem(SetItem(old(auth.device.storage), UserDataKey, userData), TokenKey, token);
      && (tokenWriteFails ==>
            && auth.device.storage == saved
            && auth.device.alerts == old(auth.device.alerts) + [Notice(LoginFailedMessage)]
            && auth.device.route == old(auth.device.route) && auth.isAuthenticated == old(auth.isAuthenticated))
      && (!tokenWriteFails ==>
            && auth.device.storage == SetItem(saved, UserTokenKey, token)
            && auth.device.alerts == old(auth.device.alerts)
            && auth.device.route == TabsRoute && auth.isAuthenticated)
  }
}
