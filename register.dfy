/**
 * The registration page: its form schema and default values, the mapping of
 * the form record to the sign-up request body, the choice of the error text
 * shown after a failed sign-up, and the submission lifecycle (busy flag,
 * error value, storage writes, navigation).
 */
module Register {
  import opened Js
  import opened Schema

  /** The form record. `userType` is `None` until a value is picked in the
      user-type select, which has no default value. */
  datatype RegisterForm = RegisterForm(
    name: string,
    email: string,
    phone: string,
    location: string,
    userType: Option<string>,
    password: string,
    confirmPassword: string,
    terms: bool)

  const NameMessage := "Name must be at least 2 characters"
  const EmailMessage := "Please enter a valid email address"
  const PhoneMessage := "Please enter a valid phone number"
  const LocationMessage := "Location is required"
  const PasswordMessage := "Password must be at least 6 characters"
  const TermsMessage := "You must agree to the terms and conditions"
  const MismatchMessage := "Passwords don't match"
  const FallbackMessage := "Something went wrong. Please try again."
  const NetworkMessage := "Network error. Please try again."

  /** The fields of the form, as named in the schema. */
  datatype Field = Name | Email | Phone | Location | UserType | Password | ConfirmPassword | Terms

  /** The values the form starts with. */
  const DefaultForm := RegisterForm("", "", "", "Enugu", None, "", "", false)

  /** The values the user-type select offers: the "Select" entry, whose
      value is the empty string, then the three listed options. */
  const UserTypeOptions: seq<string> := ["", "regular", "company_user", "admin"]

  // ---------------------------------------------------------------------
  // Validation

  /** The object schema's own issues, field by field in declaration order. */
  function FieldViolations(f: RegisterForm, isEmail: string -> bool): seq<Violation<Field>> {
    MinLength(Name, f.name, 2, NameMessage)
    + EmailFormat(Email, f.email, isEmail, EmailMessage)
    + MinLength(Phone, f.phone, 11, PhoneMessage)
    + MinLength(Location, f.location, 2, LocationMessage)
    + RequiredString(UserType, f.userType)
    + MinLength(Password, f.password, 6, PasswordMessage)
    + MinLength(ConfirmPassword, f.confirmPassword, 6, PasswordMessage)
    + MustBeTrue(Terms, f.terms, TermsMessage)
  }

  /** A field of the wrong type aborts the object parse, and the object-level
      refinement then does not run; failed length, format and `terms` checks
      do not abort it. In this form only `user_type` can have the wrong type. */
  predicate ParseAborted(f: RegisterForm) {
    f.userType.None?
  }

  /** Every violation the schema reports for `f`. The form is submitted only
      when this is empty. */
  function Validate(f: RegisterForm, isEmail: string -> bool): seq<Violation<Field>> {
    FieldViolations(f, isEmail)
    + if !ParseAborted(f) && f.password != f.confirmPassword
      then [Violation(ConfirmPassword, MismatchMessage)]
      else []
  }

  /** A record is accepted exactly when every rule holds. */
  lemma ValidateAccepts(f: RegisterForm, isEmail: string -> bool)
    ensures Validate(f, isEmail) == [] <==>
      2 <= |f.name| && isEmail(f.email) && 11 <= |f.phone| && 2 <= |f.location|
      && f.userType.Some? && 6 <= |f.password| && 6 <= |f.confirmPassword|
      && f.terms && f.password == f.confirmPassword
  {
  }

  /** Each failed rule contributes its own message, on its own field. */
  lemma ValidateMessages(f: RegisterForm, isEmail: string -> bool)
    ensures var vs := Validate(f, isEmail);
      && (Violation(Name, NameMessage) in vs <==> |f.name| < 2)
      && (Violation(Email, EmailMessage) in vs <==> !isEmail(f.email))
      && (Violation(Phone, PhoneMessage) in vs <==> |f.phone| < 11)
      && (Violation(Location, LocationMessage) in vs <==> |f.location| < 2)
      && (Violation(UserType, RequiredMessage) in vs <==> f.userType.None?)
      && (Violation(Password, PasswordMessage) in vs <==> |f.password| < 6)
      && (Violation(ConfirmPassword, PasswordMessage) in vs <==> |f.confirmPassword| < 6)
      && (Violation(Terms, TermsMessage) in vs <==> !f.terms)
      && (Violation(ConfirmPassword, MismatchMessage) in vs <==> (f.userType.Some? && f.password != f.confirmPassword))
  {
  }

  /** Differing passwords always fail validation; once the record is well
      typed, the failure is "Passwords don't match" on `confirmPassword`. */
  lemma MismatchRejected(f: RegisterForm, isEmail: string -> bool)
    requires f.password != f.confirmPassword
    ensures Validate(f, isEmail) != []
    ensures f.userType.Some? ==> Violation(ConfirmPassword, MismatchMessage) in Validate(f, isEmail)
  {
  }

  /** The untouched form never validates, whatever the email grammar. */
  lemma DefaultFormRejected(isEmail: string -> bool)
    ensures Validate(DefaultForm, isEmail) != []
    ensures Violation(Terms, TermsMessage) in Validate(DefaultForm, isEmail)
    ensures Violation(UserType, RequiredMessage) in Validate(DefaultForm, isEmail)
  {
  }

  /** Picking any entry of the select keeps a valid record valid, the
      "Select" entry included: `z.string()` accepts the empty string, which
      is then sent as `user_type`. */
  lemma OfferedUserTypesAccepted(f: RegisterForm, isEmail: string -> bool, choice: string)
    requires Validate(f, isEmail) == [] && choice in UserTypeOptions
    ensures Validate(f.(userType := Some(choice)), isEmail) == []
    ensures Prop(Payload(f.(userType := Some(choice))), "user_type") == Some(JStr(choice))
  {
    ValidateAccepts(f, isEmail);
    ValidateAccepts(f.(userType := Some(choice)), isEmail);
    PayloadValues(f.(userType := Some(choice)));
  }

  // ---------------------------------------------------------------------
  // Request body

  /** The sign-up request body: the form renamed to the wire names, without
      `terms`. `JSON.stringify` leaves out a key whose value is `undefined`. */
  function Payload(f: RegisterForm): JsonValue {
    if f.userType.Some? then
      JObj([("name", JStr(f.name)),
            ("email", JStr(f.email)),
            ("password", JStr(f.password)),
            ("confirm_password", JStr(f.confirmPassword)),
            ("user_type", JStr(f.userType.value)),
            ("phone_number", JStr(f.phone)),
            ("location", JStr(f.location))])
    else
      JObj([("name", JStr(f.name)),
            ("email", JStr(f.email)),
            ("password", JStr(f.password)),
            ("confirm_password", JStr(f.confirmPassword)),
            ("phone_number", JStr(f.phone)),
            ("location", JStr(f.location))])
  }

  /** A well-typed record is sent under exactly the seven wire keys, and
      `terms` is never sent. */
  lemma PayloadKeys(f: RegisterForm)
    requires f.userType.Some?
    ensures Keys(Payload(f)) == ["name", "email", "password", "confirm_password", "user_type", "phone_number", "location"]
    ensures "terms" !in Keys(Payload(f))
  {
  }

  /** Each wire key carries its form value (`confirm_password` the
      confirmation, `phone_number` the phone). */
  lemma PayloadValues(f: RegisterForm)
    requires f.userType.Some?
    ensures Prop(Payload(f), "name") == Some(JStr(f.name))
    ensures Prop(Payload(f), "email") == Some(JStr(f.email))
    ensures Prop(Payload(f), "password") == Some(JStr(f.password))
    ensures Prop(Payload(f), "confirm_password") == Some(JStr(f.confirmPassword))
    ensures Prop(Payload(f), "user_type") == Some(JStr(f.userType.value))
    ensures Prop(Payload(f), "phone_number") == Some(JStr(f.phone))
    ensures Prop(Payload(f), "location") == Some(JStr(f.location))
  {
    var es := Payload(f).entries;
    assert DistinctKeys(es);
    PropOfDistinct(es, 0);
    PropOfDistinct(es, 1);
    PropOfDistinct(es, 2);
    PropOfDistinct(es, 3);
    PropOfDistinct(es, 4);
    PropOfDistinct(es, 5);
    PropOfDistinct(es, 6);
  }

  // ---------------------------------------------------------------------
  // Outcome of the request

  /** The error value picked from a rejected sign-up's body:
      `detail || message || Object.values(body || {})[0] || fallback`. */
  function RejectionValue(body: JsonValue): JsonValue {
    FirstTruthy([Prop(body, "detail"), Prop(body, "message"), FirstValue(body)], JStr(FallbackMessage))
  }

  /** `err?.message || "Network error. Please try again."`. */
  function FriendlyError(message: string): (r: string)
    ensures r != ""
    ensures message != "" ==> r == message
  {
    if message != "" then message else NetworkMessage
  }

  /** The session artifacts a successful sign-up stores. */
  datatype Session = Session(token: string, userType: string)

  /** What the rest of `onSubmit` does once the request has settled. */
  datatype SignupEffect =
    | Registered(saved: Option<Session>)
    | SignupFailed(message: string)

  /** The effect of a settled sign-up request. A rejected status throws an
      `Error` whose message is the rejection value as a string; setItem
      stores `String(value)`, so a missing `user_type` is stored as "undefined". */
  function SignupResult(outcome: FetchOutcome): SignupEffect {
    match outcome
    case Threw(m) => SignupFailed(FriendlyError(m))
    case Responded(ok, body) =>
      if !ok then SignupFailed(FriendlyError(Text(RejectionValue(body))))
      else if Truthy(Prop(body, "token"))
      then Registered(Some(Session(Text(Prop(body, "token").value), TextOrUndefined(Prop(body, "user_type")))))
      else Registered(None)
  }

  /** The rejection value follows the priority detail, message, first value, fallback. */
  lemma RejectionPriority(body: JsonValue)
    ensures Truthy(Prop(body, "detail")) ==> RejectionValue(body) == Prop(body, "detail").value
    ensures (!Truthy(Prop(body, "detail")) && Truthy(Prop(body, "message")))
      ==> RejectionValue(body) == Prop(body, "message").value
    ensures (!Truthy(Prop(body, "detail")) && !Truthy(Prop(body, "message")) && Truthy(FirstValue(body)))
      ==> RejectionValue(body) == FirstValue(body).value
    ensures (!Truthy(Prop(body, "detail")) && !Truthy(Prop(body, "message")) && !Truthy(FirstValue(body)))
      ==> RejectionValue(body) == JStr(FallbackMessage)
  {
    var cands := [Prop(body, "detail"), Prop(body, "message"), FirstValue(body)];
    assert cands[0] == Prop(body, "detail") && cands[1] == Prop(body, "message") && cands[2] == FirstValue(body);
  }

  /** The rejection value is always truthy: a truthy candidate or the fallback text. */
  lemma RejectionValueTruthy(body: JsonValue)
    ensures IsTruthy(RejectionValue(body))
  {
    RejectionPriority(body);
  }

  /** A rejection shows `String(value)` of its rejection value unless that
      value is an array, the one kind of truthy value that may print as nothing. */
  lemma RejectionTextShown(body: JsonValue)
    requires !RejectionValue(body).JArr?
    ensures SignupResult(Responded(false, body)) == SignupFailed(Text(RejectionValue(body)))
  {
    RejectionValueTruthy(body);
    TruthyTextNonEmpty(RejectionValue(body));
  }

  /** A sign-up fails exactly when the status is not ok or no response was
      obtained, and a failure always carries a non-empty message. */
  lemma SignupFailsIff(outcome: FetchOutcome)
    ensures SignupResult(outcome).SignupFailed? <==> outcome.Threw? || !outcome.ok
    ensures SignupResult(outcome).SignupFailed? ==> SignupResult(outcome).message != ""
  {
  }

  /** A rejection whose `detail` is a string shows that string. */
  lemma DetailShown(body: JsonValue, detail: string)
    requires detail != "" && Prop(body, "detail") == Some(JStr(detail))
    ensures SignupResult(Responded(false, body)) == SignupFailed(detail)
  {
  }

  /** A rejection carrying only a per-field error list shows the field's first list. */
  lemma FieldErrorShown(field: string, message: string)
    requires field != "detail" && field != "message" && message != ""
    ensures SignupResult(Responded(false, JObj([(field, JArr([JStr(message)]))]))) == SignupFailed(message)
  {
    var body := JObj([(field, JArr([JStr(message)]))]);
    RejectionPriority(body);
    assert ObjectValues(body)[0] == JArr([JStr(message)]);
    assert JoinText(JArr([JStr(message)]), 0) == message;
  }

  /** A rejection with no usable field shows the generic fallback. */
  lemma EmptyRejectionFallback()
    ensures SignupResult(Responded(false, JObj([]))) == SignupFailed(FallbackMessage)
    ensures SignupResult(Responded(false, JNull)) == SignupFailed(FallbackMessage)
  {
  }

  /** A truthy value that prints as nothing (an empty `detail` list) ends as
      the network error text. */
  lemma EmptyListDetailShowsNetworkError()
    ensures SignupResult(Responded(false, JObj([("detail", JArr([]))]))) == SignupFailed(NetworkMessage)
  {
  }

  /** A failure to obtain a response shows the thrown message, or the
      network error text when it has none. */
  lemma TransportFailureShown(message: string)
    ensures SignupResult(Threw(message)) == SignupFailed(if message == "" then NetworkMessage else message)
  {
  }

  /** Session artifacts are stored exactly when an ok response carries a truthy token. */
  lemma TokenStoredIff(outcome: FetchOutcome)
    ensures SignupResult(outcome).Registered? && SignupResult(outcome).saved.Some?
      <==> outcome.Responded? && outcome.ok && Truthy(Prop(outcome.body, "token"))
    ensures (outcome.Responded? && outcome.ok && Prop(outcome.body, "token") == Some(JStr("abc"))
             && Prop(outcome.body, "user_type").None?)
      ==> SignupResult(outcome) == Registered(Some(Session("abc", "undefined")))
  {
  }

  // ---------------------------------------------------------------------
  // The page

  /** The registration page's state: `local` is the browser's localStorage,
      `violations` the field errors on display, `requests` the bodies sent
      so far and `navigations` the paths navigated to so far. `error` is
      `None` where the page keeps `false`. */
  class RegisterPage {
    var local: map<string, string>
    var loading: bool
    var error: Option<string>
    var violations: seq<Violation<Field>>
    var requests: seq<JsonValue>
    var navigations: seq<string>

    /** A displayed error is never empty (so the error banner shows it),
        no error is kept while a request is in flight, every navigation
        goes to the login page, and each navigation follows its own request. */
    ghost predicate Valid()
      reads this
    {
      && (error.Some? ==> error.value != "")
      && (loading ==> error.None?)
      && (forall i :: 0 <= i < |navigations| ==> navigations[i] == "/login")
      && |navigations| + (if loading then 1 else 0) <= |requests|
    }

    /** The page as first rendered, over the given localStorage contents. */
    constructor (stored: map<string, string>)
      ensures Valid()
      ensures local == stored && !loading && error.None?
      ensures violations == [] && requests == [] && navigations == []
    {
      local := stored;
      loading := false;
      error := None;
      violations := [];
      requests := [];
      navigations := [];
    }

    /** Pressing submit: the schema runs first; only a valid record reaches
        `onSubmit`, which sets the busy flag, clears the error and sends one
        request. The submit control is not offered while busy. */
    method Submit(f: RegisterForm, isEmail: string -> bool)
      requires Valid() && !loading
      modifies this
      ensures Valid()
      ensures violations == Validate(f, isEmail)
      ensures violations == [] ==> loading && error.None? && requests == old(requests) + [Payload(f)]
      ensures violations != [] ==> !loading && error == old(error) && requests == old(requests)
      ensures local == old(local) && navigations == old(navigations)
    {
      violations := Validate(f, isEmail);
      if violations == [] {
        loading := true;
        error := None;
        requests := requests + [Payload(f)];
      }
    }

    /** The awaited request settles: on success the session artifacts (if
        any) are stored and the page navigates to the login page; on failure
        the error is set and nothing is stored or navigated. The busy flag
        is cleared in every case. */
    method Receive(outcome: FetchOutcome)
      requires Valid() && loading
      modifies this
      ensures Valid() && !loading
      ensures requests == old(requests) && violations == old(violations)
      ensures match SignupResult(outcome)
        case Registered(saved) =>
          && error.None?
          && navigations == old(navigations) + ["/login"]
          && local == (if saved.Some?
                       then old(local)["token" := saved.value.token]["user_type" := saved.value.userType]
                       else old(local))
        case SignupFailed(message) =>
          error == Some(message) && navigations == old(navigations) && local == old(local)
    {
      var effect := SignupResult(outcome);
      match effect {
        case Registered(saved) =>
          if saved.Some? {
            local := local["token" := saved.value.token];
            local := local["user_type" := saved.value.userType];
          }
          navigations := navigations + ["/login"];
        case SignupFailed(message) =>
          SignupFailsIff(outcome);
          error := Some(message);
      }
      loading := false;
    }
  }

  /** The untouched form sends nothing; a complete form rejected with
      "Email already exists" shows that text, stores nothing and stays put. */
  method RejectedSignupFlow()
  {
    var page := new RegisterPage(map[]);
    page.Submit(DefaultForm, s => '@' in s);
    DefaultFormRejected(s => '@' in s);
    assert page.requests == [] && !page.loading;
    var f := RegisterForm("Ada", "ada@example.com", "08012345678", "Enugu", Some("regular"), "secret1", "secret1", true);
    ValidateAccepts(f, s => '@' in s);
    page.Submit(f, s => '@' in s);
    assert page.requests == [Payload(f)] && page.loading;
    var body := JObj([("detail", JStr("Email already exists"))]);
    assert Prop(body, "detail") == Some(JStr("Email already exists"));
    DetailShown(body, "Email already exists");
    page.Receive(Responded(false, body));
    assert page.error == Some("Email already exists");
    assert page.navigations == [] && page.local == map[] && !page.loading;
  }
}
