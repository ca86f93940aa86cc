/**
 * The login page: its form schema, the role resolver run when the page
 * mounts, the request body, the notification shown once the request settles,
 * the role-dependent landing page reached after a delay, and the
 * role-dependent page title.
 */
module Login {
  import opened Js
  import opened Schema

  /** The roles a user signs in under. */
  datatype Role = Regular | Company | Admin {
    /** The role's string form, as stored and sent. */
    function Name(): string {
      match this
      case Regular => "regular"
      case Company => "company"
      case Admin => "admin"
    }
  }

  /** The role the page holds before the resolver runs. */
  const DefaultRole := Regular

  const EmailMessage := "Please enter a valid email address"
  const PasswordMessage := "Password must be at least 6 characters"
  const InvalidCredentials := "Invalid credentials"
  const LoginErrorText := "An error occurred while logging in. Please try again."

  // ---------------------------------------------------------------------
  // Role resolution

  /** The allow-list check: exactly "admin", "company" or "regular". */
  function ParseRole(candidate: Option<string>): Option<Role> {
    if candidate == Some("admin") then Some(Admin)
    else if candidate == Some("company") then Some(Company)
    else if candidate == Some("regular") then Some(Regular)
    else None
  }

  /** A candidate is accepted as `r` exactly when it is `r`'s string form. */
  lemma ParseRoleIff(candidate: Option<string>, r: Role)
    ensures ParseRole(candidate) == Some(r) <==> candidate == Some(r.Name())
  {
  }

  /** `sessionStorage.getItem("selectedRole") || localStorage.getItem("user_type")`. */
  function RoleCandidate(session: map<string, string>, local: map<string, string>): Option<string> {
    OrItem(GetItem(session, "selectedRole"), GetItem(local, "user_type"))
  }

  /** The role the mount effect settles on, if any. */
  function ResolveRole(session: map<string, string>, local: map<string, string>): Option<Role> {
    ParseRole(RoleCandidate(session, local))
  }

  /** A non-empty session value decides alone, even when it is not a role:
      it is never combined with the stored `user_type`. */
  lemma SessionRoleDecides(session: map<string, string>, local: map<string, string>)
    requires "selectedRole" in session && session["selectedRole"] != ""
    ensures ResolveRole(session, local) == ParseRole(Some(session["selectedRole"]))
  {
  }

  /** With no session value, or an empty one, the stored `user_type` decides. */
  lemma LocalRoleFallback(session: map<string, string>, local: map<string, string>)
    requires "selectedRole" !in session || session["selectedRole"] == ""
    ensures ResolveRole(session, local) == ParseRole(GetItem(local, "user_type"))
  {
  }

  /** The resolver yields `r` exactly when the session holds `r`'s name, or
      holds nothing usable while the stored `user_type` is `r`'s name. */
  lemma ResolveRoleIff(session: map<string, string>, local: map<string, string>, r: Role)
    ensures ResolveRole(session, local) == Some(r) <==>
      || GetItem(session, "selectedRole") == Some(r.Name())
      || (GetItem(session, "selectedRole") in {None, Some("")} && GetItem(local, "user_type") == Some(r.Name()))
  {
  }

  /** Writing the resolved role back to the session makes a later resolution
      give the same role, whatever is stored locally. */
  lemma WriteBackStable(session: map<string, string>, local: map<string, string>, r: Role)
    ensures ResolveRole(session["selectedRole" := r.Name()], local) == Some(r)
  {
  }

  /** With neither store holding a role there is nothing to resolve. */
  lemma NoStoredRole(session: map<string, string>, local: map<string, string>)
    requires "selectedRole" !in session && "user_type" !in local
    ensures ResolveRole(session, local).None?
  {
  }

  // ---------------------------------------------------------------------
  // Validation and request body

  /** The fields of the login form. */
  datatype Field = Email | Password

  datatype LoginForm = LoginForm(email: string, password: string)

  /** Every violation the login schema reports. */
  function Validate(f: LoginForm, isEmail: string -> bool): seq<Violation<Field>> {
    EmailFormat(Email, f.email, isEmail, EmailMessage) + MinLength(Password, f.password, 6, PasswordMessage)
  }

  /** A login record is accepted exactly when the email is well formed and
      the password has at least six characters; each failure is reported on
      its own field. */
  lemma ValidateAccepts(f: LoginForm, isEmail: string -> bool)
    ensures Validate(f, isEmail) == [] <==> isEmail(f.email) && 6 <= |f.password|
    ensures Violation(Email, EmailMessage) in Validate(f, isEmail) <==> !isEmail(f.email)
    ensures Violation(Password, PasswordMessage) in Validate(f, isEmail) <==> |f.password| < 6
  {
  }

  /** The login request body. */
  function Payload(f: LoginForm, role: Role): JsonValue {
    JObj([("email", JStr(f.email)), ("password", JStr(f.password)), ("role", JStr(role.Name()))])
  }

  /** The body carries exactly the credentials and the role. */
  lemma PayloadFields(f: LoginForm, role: Role)
    ensures Keys(Payload(f, role)) == ["email", "password", "role"]
    ensures Prop(Payload(f, role), "email") == Some(JStr(f.email))
    ensures Prop(Payload(f, role), "password") == Some(JStr(f.password))
    ensures Prop(Payload(f, role), "role") == Some(JStr(role.Name()))
  {
    var es := Payload(f, role).entries;
    assert DistinctKeys(es);
    PropOfDistinct(es, 0);
    PropOfDistinct(es, 1);
    PropOfDistinct(es, 2);
  }

  // ---------------------------------------------------------------------
  // Titles and routes

  function UpperAscii(c: char): char {
    if 'a' <= c <= 'z' then (c as int - 32) as char else c
  }

  predicate IsLowerAscii(c: char) {
    'a' <= c <= 'z'
  }

  /** `s.charAt(0).toUpperCase() + s.slice(1)`: only the first character may
      change, it never stays a lower-case letter, and a string that does not
      start with one is returned as is. */
  function Capitalize(s: string): (r: string)
    ensures |r| == |s| && (s != [] ==> r[1..] == s[1..])
    ensures r != [] ==> !IsLowerAscii(r[0])
    ensures s != [] && !IsLowerAscii(s[0]) ==> r == s
    ensures s != [] && IsLowerAscii(s[0]) ==> 'A' <= r[0] <= 'Z' && r[0] as int - 'A' as int == s[0] as int - 'a' as int
  {
    if s == [] then [] else [UpperAscii(s[0])] + s[1..]
  }

  /** The title of the notification after a successful login. */
  function SuccessTitle(role: Role): string {
    Capitalize(role.Name()) + " login successful"
  }

  /** The role's name as a heading word. */
  function DisplayName(role: Role): string {
    match role
    case Admin => "Admin"
    case Company => "Company"
    case Regular => "Regular"
  }

  /** The success title is the role's name with its first letter upper-cased,
      followed by " login successful". */
  lemma SuccessTitleNamesRole(role: Role)
    ensures SuccessTitle(role) == DisplayName(role) + " login successful"
  {
  }

  /** Where a successful login leads. */
  function Landing(role: Role): string {
    match role
    case Admin => "/admin/dashboard"
    case Company => "/company/dashboard"
    case Regular => "/"
  }

  /** The paths a successful login may lead to. */
  predicate IsLanding(path: string) {
    path == "/admin/dashboard" || path == "/company/dashboard" || path == "/"
  }

  /** Each role has its own landing page. */
  lemma LandingIff(role: Role)
    ensures Landing(role) == "/admin/dashboard" <==> role == Admin
    ensures Landing(role) == "/company/dashboard" <==> role == Company
    ensures Landing(role) == "/" <==> role == Regular
  {
  }

  /** The page heading and its description. */
  datatype RoleCopy = RoleCopy(title: string, description: string)

  /** `getRoleSpecificContent`: the heading for the page's role. */
  function RoleContent(role: Role): RoleCopy {
    match role
    case Admin => RoleCopy("Admin Login", "Access the administration portal for Go Fare")
    case Company => RoleCopy("Company Login", "Manage your transportation company on Go Fare")
    case _ => RoleCopy("User Login", "Sign in to access transport fare updates across Enugu")
  }

  /** The heading names the admin and company roles and calls anyone else a user. */
  lemma RoleTitles(role: Role)
    ensures RoleContent(role).title == "Admin Login" <==> role == Admin
    ensures RoleContent(role).title == "Company Login" <==> role == Company
    ensures RoleContent(role).title == "User Login" <==> role != Admin && role != Company
  {
  }

  // ---------------------------------------------------------------------
  // Outcome of the request

  /** A notification: title, description (any JSON value the body supplied)
      and whether it uses the destructive variant. */
  datatype Toast = Toast(title: string, description: JsonValue, destructive: bool)

  /** What the rest of `onSubmit` does once the request has settled. */
  datatype LoginEffect =
    | SignedIn(token: string)
    | Rejected(description: JsonValue)
    | Errored

  /** The effect of a settled login request. Reading `token` or `message`
      from a `null` body throws, which lands in the error branch; setItem
      stores `String(token)`, so a missing token is stored as "undefined". */
  function LoginResult(outcome: FetchOutcome): LoginEffect {
    match outcome
    case Threw(_) => Errored
    case Responded(ok, body) =>
      if body.JNull? then Errored
      else if ok then SignedIn(TextOrUndefined(Prop(body, "token")))
      else Rejected(FirstTruthy([Prop(body, "message")], JStr(InvalidCredentials)))
  }

  /** The notification each effect shows. */
  function ResultToast(effect: LoginEffect, role: Role): Toast {
    match effect
    case SignedIn(_) => Toast(SuccessTitle(role), JStr("Welcome to Go Fare " + role.Name() + " portal"), false)
    case Rejected(d) => Toast("Login failed", d, true)
    case Errored => Toast("Login error", JStr(LoginErrorText), true)
  }

  /** A login succeeds exactly on an ok status with a non-null body; the
      token stored is the body's `token` as a string. */
  lemma SignedInIff(outcome: FetchOutcome)
    ensures LoginResult(outcome).SignedIn? <==> outcome.Responded? && outcome.ok && !outcome.body.JNull?
    ensures LoginResult(outcome).SignedIn? ==> LoginResult(outcome).token == TextOrUndefined(Prop(outcome.body, "token"))
  {
  }

  /** A rejection shows the body's `message` when it is truthy, else "Invalid credentials". */
  lemma RejectedDescription(body: JsonValue)
    requires !body.JNull?
    ensures Truthy(Prop(body, "message")) ==> LoginResult(Responded(false, body)) == Rejected(Prop(body, "message").value)
    ensures !Truthy(Prop(body, "message")) ==> LoginResult(Responded(false, body)) == Rejected(JStr(InvalidCredentials))
  {
  }

  /** A rejected login with a non-null body is announced as "Login failed",
      in the destructive variant, with `message || "Invalid credentials"`. */
  lemma RejectionToast(body: JsonValue, role: Role)
    requires !body.JNull?
    ensures ResultToast(LoginResult(Responded(false, body)), role)
      == Toast("Login failed", FirstTruthy([Prop(body, "message")], JStr(InvalidCredentials)), true)
  {
  }

  /** A failure to obtain a response shows the fixed error text. */
  lemma TransportErrorToast(message: string, role: Role)
    ensures ResultToast(LoginResult(Threw(message)), role) == Toast("Login error", JStr(LoginErrorText), true)
  {
  }

  /** Token "abc" on an ok status is stored as "abc" and announced under the role's name. */
  lemma AdminSignInExample()
    ensures LoginResult(Responded(true, JObj([("token", JStr("abc"))]))) == SignedIn("abc")
    ensures ResultToast(SignedIn("abc"), Admin).title == "Admin login successful"
  {
  }

  // ---------------------------------------------------------------------
  // The page

  /** The login page's state: the two browser stores, the role, the busy
      flag, the field errors on display, the bodies sent, the notifications
      shown, the paths navigated to, and the navigations scheduled by the
      post-login timer (oldest first). */
  class LoginPage {
    var session: map<string, string>
    var local: map<string, string>
    var role: Role
    var loading: bool
    var violations: seq<Violation<Field>>
    var requests: seq<JsonValue>
    var toasts: seq<Toast>
    var navigations: seq<string>
    var timers: seq<string>

    /** Every settled request has shown exactly one notification, while a
        request is in flight the stored `user_type` is the page's role, every
        scheduled navigation leads to a landing page, and every navigation
        goes to the login page or to a landing page. */
    ghost predicate Valid()
      reads this
    {
      && |toasts| + (if loading then 1 else 0) == |requests|
      && (loading ==> GetItem(local, "user_type") == Some(role.Name()))
      && (forall i :: 0 <= i < |timers| ==> IsLanding(timers[i]))
      && (forall i :: 0 <= i < |navigations| ==> navigations[i] == "/login" || IsLanding(navigations[i]))
    }

    /** The page as first rendered, over the given store contents. */
    constructor (sessionStored: map<string, string>, localStored: map<string, string>)
      ensures Valid()
      ensures session == sessionStored && local == localStored && role == DefaultRole && !loading
      ensures violations == [] && requests == [] && toasts == [] && navigations == [] && timers == []
    {
      session := sessionStored;
      local := localStored;
      role := DefaultRole;
      loading := false;
      violations := [];
      requests := [];
      toasts := [];
      navigations := [];
      timers := [];
    }

    /** The mount effect: adopt and write back a resolved role, or navigate
        to "/login" and keep the default role. */
    method Mount()
      requires Valid() && !loading
      modifies this
      ensures Valid()
      ensures match ResolveRole(old(session), old(local))
        case Some(r) =>
          role == r && session == old(session)["selectedRole" := r.Name()] && navigations == old(navigations)
        case None =>
          role == old(role) && session == old(session) && navigations == old(navigations) + ["/login"]
      ensures local == old(local) && loading == old(loading) && violations == old(violations)
      ensures requests == old(requests) && toasts == old(toasts) && timers == old(timers)
    {
      var resolved := ResolveRole(session, local);
      match resolved {
        case Some(r) =>
          role := r;
          session := session["selectedRole" := r.Name()];
        case None =>
          navigations := navigations + ["/login"];
      }
    }

    /** Pressing submit: the schema runs first; a valid record stores the
        role as `user_type`, sets the busy flag and sends one request. The
        submit control is not offered while busy. */
    method Submit(f: LoginForm, isEmail: string -> bool)
      requires Valid() && !loading
      modifies this
      ensures Valid()
      ensures violations == Validate(f, isEmail)
      ensures violations == [] ==>
        && local == old(local)["user_type" := role.Name()]
        && loading
        && requests == old(requests) + [Payload(f, role)]
      ensures violations != [] ==> local == old(local) && !loading && requests == old(requests)
      ensures session == old(session) && role == old(role) && toasts == old(toasts)
      ensures navigations == old(navigations) && timers == old(timers)
    {
      violations := Validate(f, isEmail);
      if violations == [] {
        local := local["user_type" := role.Name()];
        loading := true;
        requests := requests + [Payload(f, role)];
      }
    }

    /** The awaited request settles: one notification is shown and the busy
        flag is cleared; only a successful login stores the token and
        schedules the navigation to the role's landing page. */
    method Receive(outcome: FetchOutcome)
      requires Valid() && loading
      modifies this
      ensures Valid() && !loading
      ensures GetItem(local, "user_type") == Some(role.Name())
      ensures toasts == old(toasts) + [ResultToast(LoginResult(outcome), role)]
      ensures match LoginResult(outcome)
        case SignedIn(token) =>
          local == old(local)["token" := token] && timers == old(timers) + [Landing(role)]
        case _ =>
          local == old(local) && timers == old(timers)
      ensures session == old(session) && role == old(role) && requests == old(requests)
      ensures violations == old(violations) && navigations == old(navigations)
    {
      var effect := LoginResult(outcome);
      match effect {
        case SignedIn(token) =>
          local := local["token" := token];
          toasts := toasts + [ResultToast(effect, role)];
          loading := false;
          timers := timers + [Landing(role)];
        case Rejected(_) =>
          toasts := toasts + [ResultToast(effect, role)];
          loading := false;
        case Errored =>
          toasts := toasts + [ResultToast(effect, role)];
          loading := false;
      }
    }

    /** The oldest scheduled navigation fires. */
    method FireTimer()
      requires Valid() && timers != []
      modifies this
      ensures Valid()
      ensures navigations == old(navigations) + [old(timers)[0]] && timers == old(timers)[1..]
      ensures IsLanding(navigations[|navigations| - 1])
      ensures session == old(session) && local == old(local) && role == old(role) && loading == old(loading)
      ensures violations == old(violations) && requests == old(requests) && toasts == old(toasts)
    {
      navigations := navigations + [timers[0]];
      timers := timers[1..];
    }
  }

  /** An admin selected on the previous screen signs in with token "abc":
      the token and role are stored, the admin notification is shown, and
      the delayed navigation reaches the admin dashboard. */
  method AdminSignInFlow()
  {
    var page := new LoginPage(map["selectedRole" := "admin"], map[]);
    page.Mount();
    assert page.role == Admin;
    page.Submit(LoginForm("ada@example.com", "secret1"), s => '@' in s);
    assert page.requests == [Payload(LoginForm("ada@example.com", "secret1"), Admin)];
    page.Receive(Responded(true, JObj([("token", JStr("abc"))])));
    AdminSignInExample();
    assert page.local == map["user_type" := "admin", "token" := "abc"];
    assert page.toasts[0].title == "Admin login successful";
    assert page.navigations == [];
    page.FireTimer();
    assert page.navigations == ["/admin/dashboard"];
  }

  /** With no role in either store, mounting redirects and sends nothing. */
  method NoRoleFlow()
  {
    var page := new LoginPage(map[], map[]);
    page.Mount();
    assert page.navigations == ["/login"] && page.requests == [] && page.role == Regular;
  }

  /** A rejected login shows the server's message, stores no token and
      leaves the form submittable again. */
  method RejectedFlow()
  {
    var page := new LoginPage(map["selectedRole" := "regular"], map[]);
    page.Mount();
    page.Submit(LoginForm("ada@example.com", "secret1"), s => '@' in s);
    var body := JObj([("message", JStr("Invalid credentials"))]);
    RejectedDescription(body);
    assert Prop(body, "message") == Some(JStr("Invalid credentials"));
    page.Receive(Responded(false, body));
    assert page.toasts == [Toast("Login failed", JStr("Invalid credentials"), true)];
    assert "token" !in page.local && !page.loading && page.timers == [];
  }
}
