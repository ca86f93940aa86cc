# Go Fare sign-in and sign-up pages, modelled in Dafny

This project models the client-side authentication pages of the Go Fare
fare-tracking web application: the registration page
(`src/pages/Register.tsx`) and the login page (`src/pages/Login.tsx`).

- **Validation.** Each page has a declarative form schema. In the model a
  schema is a function from a form record to the list of every
  `(field, message)` violation it reports. The form is submitted only when
  that list is empty.
- **Role resolution.** When the login page mounts, it reads the role from
  `sessionStorage.selectedRole` and falls back to `localStorage.user_type`.
  It accepts only "admin", "company" or "regular". An accepted role is
  adopted and written back to the session. Otherwise the page navigates to
  `/login`.
- **Submission.** Submitting sends one request built from the form
  (registration renames fields to their wire names and drops `terms`; login
  sends `{email, password, role}`). The model follows the busy flag, the
  error value or notification, the browser-storage writes and the
  navigation, including the login page's delayed, role-dependent navigation.

Files:

- `js.dfy` (module `Js`): the JavaScript behaviour the pages depend on.
  This covers parsed JSON values, truthiness, `||` chains, property
  access, `Object.values`, `String(value)`, `Storage.getItem`, and the
  result of `fetch` plus `response.json()`. That result is a
  `FetchOutcome`: `Responded(ok, body)` or `Threw(message)`.
- `schema.dfy` (module `Schema`): the field rules (minimum length, email
  format, required string, must be true), each returning its violations.
- `register.dfy` (module `Register`): the registration schema, default
  values, request body, error-text choice, the `RegisterPage` class and a
  client flow.
- `login.dfy` (module `Login`): the login schema, role resolver, request
  body, notification texts, landing routes, page headings, the `LoginPage`
  class and client flows.

Each page is a class. Its fields are the React state (`loading`, `error` or
`role`), the browser stores as `map<string, string>`, and histories of what
the page did: violations shown, request bodies sent, notifications,
navigations and scheduled navigations. The async `onSubmit` is split at its
`await`:

- `Submit` does everything up to the request. It includes
  react-hook-form's validation gate, which calls `onSubmit` only for a
  valid record.
- `Receive(outcome)` does everything after the request settles.

`Submit` requires `!loading`, because the submit button is replaced by a
disabled one while busy. `Receive` requires `loading`, because a request is
in flight.

Points where the code's behaviour is easy to misread:

- An unresolved role navigates to `/login` (Login.tsx:67), although the
  comment at Login.tsx:66 speaks of a view-selection page.
- Login stores `user_type` before it sends the request, whatever the
  outcome (Login.tsx:86).
- On a successful login the busy flag is cleared before the delayed
  navigation (Login.tsx:121).
- The registration select offers the values `""` (its "Select" entry,
  select-Input.tsx:10), `regular`, `company_user` and `admin`
  (Register.tsx:272-276), kept as `Register.UserTypeOptions`. The schema
  accepts any string for `user_type` (Register.tsx:41), the empty one
  included. The login page's allow-list (Login.tsx:58-62) accepts
  `company`, so a stored `company_user` does not resolve to a role there.
- A failed request with a non-empty thrown message shows that message.
  The network text appears only when the message is empty
  (Register.tsx:139).
- A successful registration stores `token` and `user_type` when the
  response has a truthy token (Register.tsx:130-133).

Behaviour of the libraries the pages use, as the model takes it:

- zod reports every field issue. The object-level password-match
  refinement is skipped when the object parse is aborted. A field of the
  wrong type aborts it; in this form that can only be a missing
  `user_type`, reported as "Required". Failed length, format and `terms`
  checks do not abort it.
- `new Error(v)` and `setItem(k, v)` apply `String(v)`. So a
  `["msg"]` field-error list shows as "msg", and a missing `user_type` is
  stored as "undefined".
- Reading `.token` or `.message` from a `null` login body throws. The
  login page then shows its "Login error" notification and stores no
  token.

## Model

| member | source | states |
|---|---|---|
| `Js.FirstTruthy` | src/pages/Register.tsx:120-124 | a JavaScript or-chain yields the first truthy candidate, and the fallback when none is truthy |
| `Js.Lookup` | src/pages/Register.tsx:121-122 | a property read is `undefined` exactly when no entry has the key; otherwise it yields an entry's value |
| `Js.LookupAt` | src/pages/Login.tsx:137 | when the body text repeats a key, its last occurrence decides what a property read returns, as `JSON.parse` keeps the last duplicate |
| `Js.PropOfDistinct` | src/pages/Login.tsx:114 | in a parsed object each key reads back its own value |
| `Js.ObjectValues` | src/pages/Register.tsx:123 | `Object.values` gives, for an object with distinct keys, the value each key reads back, in entry order; an array's elements; the i-th one-character string for the i-th character of a string; and nothing for numbers and booleans |
| `Js.Keys` | src/pages/Register.tsx:94-102 | an object lists one key per entry, and a key is listed exactly when reading it gives a value (so a key absent from the body is never read back) |
| `Js.DecimalText` | src/pages/Register.tsx:126 | `String(n)` of a number is a non-empty digit string without leading zeros (zero is exactly "0") |
| `Js.DecimalRoundTrip` | src/pages/Register.tsx:126 | reading the digits of `String(n)` back gives `n` |
| `Js.TruthyTextNonEmpty` | src/pages/Register.tsx:126 | a truthy non-array value never becomes an empty error message |
| `Js.Text` | src/pages/Register.tsx:126 | `String(v)` as `new Error(v)` applies it; specified by `Js.DecimalRoundTrip` for numbers, `Js.TruthyTextNonEmpty`, `Register.FieldErrorShown` for one-element lists and `Register.EmptyListDetailShowsNetworkError` for `[]` |
| `Js.Prop` | src/pages/Register.tsx:121-122 | optional property access; specified by `Js.Lookup`, `Js.LookupAt` and `Js.PropOfDistinct` |
| `Js.FirstValue` | src/pages/Register.tsx:123 | `Object.values(body or {})[0]`; specified by `Js.ObjectValues` and, inside the error choice, by `Register.RejectionPriority` and `Register.FieldErrorShown` |
| `Schema.MinLength` | src/pages/Register.tsx:37 | a minimum-length rule reports its own message on its own field exactly when the value is too short |
| `Schema.EmailFormat` | src/pages/Register.tsx:38 | the email rule reports its message exactly when the email grammar rejects the value |
| `Schema.RequiredString` | src/pages/Register.tsx:41 | a string field reports "Required" exactly when its value is missing |
| `Schema.MustBeTrue` | src/pages/Register.tsx:48-50 | the terms rule reports its message exactly when the box is unticked |
| `Register.Validate` | src/pages/Register.tsx:35-55 | the registration schema; specified by `Register.ValidateAccepts`, `Register.ValidateMessages` and `Register.MismatchRejected` |
| `Register.ValidateAccepts` | src/pages/Register.tsx:35-55 | a registration record validates iff name ≥ 2, email well formed, phone ≥ 11, location ≥ 2, user type present, both passwords ≥ 6, terms ticked and passwords equal |
| `Register.ValidateMessages` | src/pages/Register.tsx:35-55 | each rule's message is reported on its field iff that rule fails; "Passwords don't match" is on `confirmPassword` iff the record is well typed and the passwords differ |
| `Register.MismatchRejected` | src/pages/Register.tsx:52-55 | differing passwords always fail validation, and with a user type present the failure is "Passwords don't match" on `confirmPassword` |
| `Register.DefaultFormRejected` | src/pages/Register.tsx:71-79 | the default form never validates: terms unticked and user type missing are both reported |
| `Register.OfferedUserTypesAccepted` | src/pages/Register.tsx:272-276 | picking any entry of the user-type select, the empty "Select" entry included, keeps a valid record valid and sends the chosen value as `user_type` |
| `Register.Payload` | src/pages/Register.tsx:94-102 | the sign-up request body; specified by `Register.PayloadKeys` and `Register.PayloadValues` |
| `Register.PayloadKeys` | src/pages/Register.tsx:94-102 | the sign-up body has exactly the keys name, email, password, confirm_password, user_type, phone_number, location, and never `terms` |
| `Register.PayloadValues` | src/pages/Register.tsx:94-102 | each wire key carries its form value (`confirm_password` the confirmation, `phone_number` the phone) |
| `Register.RejectionValue` | src/pages/Register.tsx:120-124 | the error value of a rejected sign-up; specified by `Register.RejectionPriority` and `Register.RejectionValueTruthy` |
| `Register.RejectionValueTruthy` | src/pages/Register.tsx:120-124 | the chosen error value is always truthy, because the or-chain ends in a non-empty fallback text |
| `Register.RejectionTextShown` | src/pages/Register.tsx:126-139 | a rejection shows exactly `String(value)` of its error value whenever that value is not an array |
| `Register.SignupResult` | src/pages/Register.tsx:116-140 | the effect of a settled sign-up; specified by `Register.SignupFailsIff`, `Register.TokenStoredIff`, `Register.RejectionTextShown` and `Register.TransportFailureShown` |
| `Register.RejectionPriority` | src/pages/Register.tsx:118-126 | a rejected sign-up's error value is `detail`, else `message`, else the body's first value, else "Something went wrong. Please try again." |
| `Register.FriendlyError` | src/pages/Register.tsx:138-140 | the displayed error is never empty, and it is the thrown message whenever that message is non-empty |
| `Register.SignupFailsIff` | src/pages/Register.tsx:104-143 | a sign-up fails iff the status is not ok or no response was obtained, and a failure always carries a non-empty message |
| `Register.DetailShown` | src/pages/Register.tsx:120-126 | a rejection whose `detail` is a non-empty string shows exactly that string |
| `Register.FieldErrorShown` | src/pages/Register.tsx:123 | a rejection that carries only a per-field list `{field: [msg]}` shows `msg` |
| `Register.EmptyRejectionFallback` | src/pages/Register.tsx:124 | an empty or `null` rejection body shows "Something went wrong. Please try again." |
| `Register.EmptyListDetailShowsNetworkError` | src/pages/Register.tsx:126-139 | a `detail` of `[]` is truthy but prints as nothing, so the network error text is shown |
| `Register.TransportFailureShown` | src/pages/Register.tsx:138-140 | no response shows the thrown message, or "Network error. Please try again." when it is empty |
| `Register.TokenStoredIff` | src/pages/Register.tsx:129-134 | `token` and `user_type` are stored iff an ok response has a truthy token; a missing `user_type` is stored as "undefined" |
| `Register.RegisterPage.constructor` | src/pages/Register.tsx:64-65 | the page starts idle, with no error, and with nothing sent or navigated |
| `Register.RegisterPage.Submit` | src/pages/Register.tsx:90-102 | the schema runs first; only a valid record sets loading, clears the error and sends its body, and nothing is stored or navigated |
| `Register.RegisterPage.Receive` | src/pages/Register.tsx:104-143 | on success the artifacts are stored when the token is truthy and the page goes to `/login`; on failure the error is set and nothing is stored or navigated; loading always ends false |
| `Login.ParseRole` | src/pages/Login.tsx:58-62 | the role allow-list; specified by `Login.ParseRoleIff` |
| `Login.ResolveRole` | src/pages/Login.tsx:53-62 | the mount-time role resolver; specified by `Login.ResolveRoleIff`, `Login.SessionRoleDecides`, `Login.LocalRoleFallback`, `Login.WriteBackStable` and `Login.NoStoredRole` |
| `Login.ParseRoleIff` | src/pages/Login.tsx:58-62 | a candidate is accepted as a role iff it is exactly that role's name |
| `Login.SessionRoleDecides` | src/pages/Login.tsx:53-57 | a non-empty session value decides alone, even when it is not a valid role |
| `Login.LocalRoleFallback` | src/pages/Login.tsx:53-57 | when the session value is absent or empty, the stored `user_type` decides |
| `Login.ResolveRoleIff` | src/pages/Login.tsx:52-64 | the resolver yields `r` iff the session holds `r`'s name, or holds nothing usable while local `user_type` is `r`'s name |
| `Login.WriteBackStable` | src/pages/Login.tsx:63-64 | after the resolved role is written back to the session, resolving again gives the same role |
| `Login.NoStoredRole` | src/pages/Login.tsx:65-69 | with neither store holding a role, nothing is resolved |
| `Login.Validate` | src/pages/Login.tsx:33-38 | the login schema; specified by `Login.ValidateAccepts` |
| `Login.ValidateAccepts` | src/pages/Login.tsx:33-38 | a login record validates iff the email is well formed and the password has ≥ 6 characters, and each failure is on its own field |
| `Login.Payload` | src/pages/Login.tsx:91-95 | the login request body; specified by `Login.PayloadFields` |
| `Login.PayloadFields` | src/pages/Login.tsx:91-95 | the login body has exactly the keys email, password and role, carrying the credentials and the role's name |
| `Login.Capitalize` | src/pages/Login.tsx:116-118 | only the first character may change: a lower-case ASCII letter becomes the same letter in upper case, and a string not starting with one is unchanged |
| `Login.SuccessTitle` | src/pages/Login.tsx:116-118 | the success notification's title; specified by `Login.SuccessTitleNamesRole` |
| `Login.SuccessTitleNamesRole` | src/pages/Login.tsx:115-118 | the success title is the role's name with its first letter upper-cased, followed by " login successful" |
| `Login.Landing` | src/pages/Login.tsx:124-132 | the delayed navigation's target; specified by `Login.LandingIff` |
| `Login.LandingIff` | src/pages/Login.tsx:124-131 | the landing page is `/admin/dashboard` iff admin, `/company/dashboard` iff company, and `/` iff regular |
| `Login.RoleContent` | src/pages/Login.tsx:154-172 | `getRoleSpecificContent`; specified by `Login.RoleTitles` |
| `Login.RoleTitles` | src/pages/Login.tsx:154-172 | the heading is "Admin Login" iff admin, "Company Login" iff company, and "User Login" for any other role |
| `Login.LoginResult` | src/pages/Login.tsx:110-150 | the effect of a settled login; specified by `Login.SignedInIff`, `Login.RejectedDescription` and `Login.TransportErrorToast` |
| `Login.ResultToast` | src/pages/Login.tsx:115-148 | the notification of each effect; specified by `Login.RejectionToast`, `Login.TransportErrorToast`, `Login.AdminSignInExample` and `Login.SuccessTitleNamesRole` |
| `Login.SignedInIff` | src/pages/Login.tsx:110-114 | a login succeeds iff the status is ok and the body is not `null`, and the stored token is the body's `token` as a string |
| `Login.RejectedDescription` | src/pages/Login.tsx:133-139 | a rejection's description is the body's `message` when truthy, else "Invalid credentials" |
| `Login.RejectionToast` | src/pages/Login.tsx:133-139 | a rejected login with a non-null body shows "Login failed" in the destructive variant, described by the body's `message` when truthy, else "Invalid credentials" |
| `Login.TransportErrorToast` | src/pages/Login.tsx:142-149 | no response gives the "Login error" notification with its fixed text, in the destructive variant |
| `Login.AdminSignInExample` | src/pages/Login.tsx:112-120 | token "abc" on an ok status is stored as "abc", and an admin sees "Admin login successful" |
| `Login.LoginPage.constructor` | src/pages/Login.tsx:46-48 | the page starts with role "regular", not loading, and with nothing shown, sent or navigated |
| `Login.LoginPage.Mount` | src/pages/Login.tsx:52-70 | a resolved role is adopted and written back to the session; otherwise the page navigates to `/login` and keeps its role; nothing else changes |
| `Login.LoginPage.Submit` | src/pages/Login.tsx:84-95 | the schema runs first; a valid record stores `user_type := role` before the request, sets loading and sends `{email, password, role}` |
| `Login.LoginPage.Receive` | src/pages/Login.tsx:110-150 | exactly one notification is shown and loading ends false; the stored `user_type` is the page's role; only a success stores the token and schedules that role's landing page; nothing is navigated yet |
| `Login.LoginPage.FireTimer` | src/pages/Login.tsx:124-132 | the oldest scheduled navigation happens and leads to a landing page, the page invariant is kept, and nothing else changes |

## Left out

- All JSX markup, icons, colour constants, the loading overlay and button rendering: presentational. The hidden submit button during loading appears only as the `!loading` precondition of `Submit`.
- `src/components/ui/select-Input.tsx`: a stateless `<select>` renderer with no logic of its own.
- `fetch`, HTTP, the remote API and `response.json()` parsing: replaced by the `FetchOutcome` input.
- zod's email regular expression and the react-hook-form machinery: the email grammar is the parameter `isEmail`, and the resolver's choice of one message per field is not modelled. The model returns every violation.
- Toast rendering and `setTimeout` timing: notifications are recorded as `Toast` values. The 1000 ms delay becomes a queue of scheduled navigations that `FireTimer` fires oldest first. Rendering a non-string `message` value as a toast description is not modelled.
- The password visibility toggles: view-only flags with no other effect.
- `console.log` and `console.error`: logging only.
- JSON numbers are integers. Fractional and exponent forms of `String(number)` are not modelled.
- `Object.values` on a body whose text repeats a key lists one value per occurrence; JavaScript lists the key once, at its first position, with its last value. Property reads follow JavaScript.
- Object property order is taken as given. JavaScript lists integer-like keys first, and the model does not reorder them.
- String lengths are counted in Unicode characters, not UTF-16 code units. `toUpperCase` is modelled for ASCII letters only, which covers the three role names.
- Exceptions thrown by `Storage.setItem` (quota) and state updates made after the page has navigated away are not modelled.
- The mount effect is modelled as running once, with no request in flight (`Mount` requires `!loading`), as it does on a page's first render.
- Register.MismatchRejected: guarantees "Passwords don't match" on `confirmPassword` only when a user type is present. Without one, zod aborts the object parse and skips the refinement, and validation fails with "Required" instead.
