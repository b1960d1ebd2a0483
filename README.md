# Event booking: a verified model of the routes, schemas and client gates

The application is a small event-booking service:
- An Express backend keeps three collections: users, events and bookings. It exposes:
  - `/api/events` to list, read, create, update and delete events;
  - `/api/auth` for registration, login, the current user, the user list and role changes;
  - `/api/bookings` to book an event and to list one's own bookings.
- The React client has:
  - an authentication context that holds the session and the stored token;
  - a route guard;
  - login and registration pages with their own validation;
  - an admin panel for events and user roles.

The model has one Dafny module per part of the system:

| module | file | what it holds |
|---|---|---|
| `Js` | js.dfy | The JavaScript semantics the handlers rely on: JSON values, truthiness, `\s` whitespace, `replace(/^\s+/,'')`, `trim`, `toLowerCase`, `filter`, `join`, `Number` on everything but non-blank strings, and the abstract reading of such a string and `new Date` |
| `Http` | http.dfy | Error replies, their status codes and messages |
| `Tokens` | tokens.dfy | JSON Web Token claims, an abstract signer, and the `protect` and `admin` guards |
| `UserSchema`, `EventSchema` | user_model.dfy, event_model.dfy | The Mongoose schemas: setters, casts, `required`, the role enum and its default, and the update merge |
| `Database` | database.dfy | The store, a `class Db` with one map or sequence per collection. Its invariant `Valid` (unique emails, well-formed records) is kept by every route; the role enum `RolesValid` is kept by every route except the role update as written; the abstract services (bcrypt, express-validator's email rules) |
| `EventRoutes`, `AuthRoutes`, `BookingRoutes` | events_routes.dfy, auth_routes.dfy, booking_routes.dfy | Each route handler is a method over `Db`. It runs the route's checks in order, then either answers with an error and leaves the store as it was, or makes exactly one change |
| `AuthContext` | auth_context.dfy | `class AuthProvider`, with state `user`, `loading` and the `localStorage` map; the HTTP calls are an `Api` parameter |
| `ProtectedRoute` | protected_route.dfy | The guard's decision |
| `AuthPages` | auth_pages.dfy | The e-mail pattern, the redirect target, and `class LoginPage` and `class RegisterPage` with their change and submit handlers |
| `AdminPanel` | admin_panel.dfy | The role toggle request, the image check, the form checks, and `class Panel` with the dialog, image and delete handlers |

Values that do not change are datatypes; state that a handler updates in place is a class field.

These are parameters that the model does not define:
- bcrypt, in `Database.Hasher`: a hash function and a compare function.
- Token signing and checking, in `Tokens.Signer`.
- express-validator's `isEmail()` and `normalizeEmail()`, in `Database.EmailRules`.
- How `Number(v)` reads a non-blank string, and `new Date(v)`, in the backend, in `Js.Coercions`.
- `Number(...)` and `toISOString()` in the client, as function parameters of `AdminPanel.Panel.Submit`.
- The current time, in seconds.
- The id the database assigns to a new document.

Where a property needs the signer or the hasher to behave, it is assumed as `Sound()` in the property's `requires`:
- the signer gives back the signed claims;
- a password matches its own hash.

The model follows what the code does where that departs from what the schemas declare:
- The update routes run no schema validators. So a `PUT` can blank a required field (`EventSchema.UpdateCanBlankName`), and the role update can store any role (see "## Findings").
- The `protect` middleware's source is not part of this model. `Tokens.Protect` accepts a bearer token with a valid signature that is not expired, and answers 401 otherwise. The expiry rule is section 4.1.4 of RFC 7519: a token is refused on or after its "exp" time.

## Model

| member | source | states |
|---|---|---|
| Js.TrimStart | backend/models/User.js:8 | The `replace(/^\s+/, '')` setter returns a suffix of its input with no leading whitespace, and everything it drops is whitespace |
| Js.TrimStartIdempotent | backend/models/User.js:8 | Applying the leading-whitespace setter twice gives the same result as applying it once |
| Js.TrimEnd | backend/models/User.js:15 | The trailing half of `trim`: a prefix of the input with no trailing whitespace, and only whitespace dropped |
| Js.ToLower | backend/models/User.js:14 | `lowercase: true` keeps the length, maps each character to its lower case, and leaves no upper-case letter |
| Js.ToLowerOfLower | backend/models/User.js:14 | Lower-casing text that has no upper-case letters changes nothing |
| Js.TrimOfTrimmed | backend/models/User.js:15 | `trim` (`Js.Trim`, the leading strip followed by the trailing one) changes nothing on text with no surrounding whitespace |
| Js.FalsyValues | backend/routes/events.js:28 | `!v` holds for exactly five values: undefined, null, false, 0 and "" |
| Js.Digits | backend/models/User.js:6 | The decimal text of a natural number, used when a number is read as text, consists of digits that denote exactly that number, with no leading zero |
| Js.Decimal | backend/models/User.js:6 | `String(n)` starts with a minus sign iff n is negative, and the digits after it denote the magnitude of n |
| Js.CastText | backend/models/User.js:6 | A String path, or a validator, reads a string as itself, a boolean as "true" or "false", and a number as its decimal text; null has no text |
| Js.Coercions.Number | backend/routes/events.js:45-46 | `Number(v)` keeps a number, makes true and false 1 and 0, and can be NaN only for a string that is not all whitespace |
| Js.Coercions.CastNumber | backend/models/Event.js:26-29 | A Number path stores a number unchanged, and any value it accepts as `Number` reads it |
| Js.Filter | backend/routes/events.js:28 | `filter` keeps an element iff the predicate accepts it, and the result lists the kept elements in their original order |
| Js.FilterCount | backend/routes/events.js:28 | Each kept element occurs in the result exactly as often as in the input, and a dropped one does not occur |
| Js.FilterKeepsAll | backend/routes/events.js:28 | A filter whose predicate accepts every element returns the whole list |
| Js.FilterAppend | backend/routes/bookings.js:44 | Filtering a list with one element appended gives the filtered list, plus that element when it is kept |
| Js.FilterCongruent | backend/routes/events.js:28 | Two predicates that agree on every element filter a list the same way |
| Http.Status | backend/routes/auth.js:126-142 | Every error reply has status 400, 401, 403, 404 or 500. 403 is exactly the two role refusals; 404 is exactly the two not-found replies |
| Tokens.Protect | backend/routes/bookings.js:7 | `protect` lets a request through iff it has a bearer token whose signature checks and which is not yet expired, and hands on that token's claims; every refusal is 401 |
| Tokens.AdminGate | backend/routes/events.js:17 | `admin` lets the claims through iff their role is "admin"; otherwise it answers 403 |
| Tokens.ProtectAdmin | backend/routes/events.js:17 | `protect, admin` together pass iff the token is accepted and its role is "admin", and refuse with 401 or 403 otherwise |
| Tokens.IssuedTokenAccepted | backend/routes/auth.js:57-61 | A token signed at login or register carries the claims `IssueClaims` builds: the id, the role and an expiry 24 hours after issue. It is accepted, with exactly those claims, until then |
| Tokens.IssuedTokenExpires | backend/routes/auth.js:57-61 | The same token is refused 24 hours after it was issued, and at any later time |
| Tokens.RoleClaimIsStale | backend/routes/auth.js:99-103 | An admin route accepts a live token iff the role signed into it is "admin", whatever the stored role is now |
| UserSchema.SchemaRole | backend/models/User.js:22-26 | The role path takes "user" when no role is given, and accepts a given role iff it is "user" or "admin" |
| UserSchema.SchemaEmail | backend/models/User.js:10-16 | The stored email is lower-case and has no leading or trailing whitespace |
| UserSchema.NormalisedIsFixed | backend/models/User.js:14-15 | The email setters leave an email unchanged iff it is already lower-case and trimmed |
| UserSchema.SchemaEmailIdempotent | backend/models/User.js:14-15 | Running the email setters twice gives the same result as running them once |
| UserSchema.SetterOrderIrrelevant | backend/models/User.js:14-15 | Lower-casing then trimming gives the same result as trimming then lower-casing |
| UserSchema.TrimStartOfLower | backend/models/User.js:14-15 | Stripping leading whitespace commutes with lower-casing |
| UserSchema.TrimEndOfLower | backend/models/User.js:14-15 | Stripping trailing whitespace commutes with lower-casing |
| UserSchema.TrimKeepsLower | backend/models/User.js:14-15 | Trimming lower-case text leaves it lower-case and trimmed |
| UserSchema.NewUser | backend/models/User.js:4-27 | `User.create` succeeds iff all of these hold: the stripped name is non-empty, the normalised email is non-empty, the password has at least 8 characters and the role is in the enum. The record it stores has the setters applied |
| UserSchema.AddKeepsEmailsUnique | backend/models/User.js:13 | Adding a user whose email is not yet taken keeps emails unique across the store |
| UserSchema.Public | backend/routes/auth.js:24 | `select('-password')`: the listed user has the id, name, email and role, and no password |
| UserSchema.View | backend/routes/auth.js:64-68 | The `user` part of an auth reply has exactly the email, name and role |
| EventSchema.NewEvent | backend/models/Event.js:3-34 | `Event.create` succeeds iff name and description are strings that are non-empty after stripping, category and venue cast to non-empty text, the date casts and the image is non-empty. The record keeps category, venue, image, price and date as given, and its name and description are stripped |
| EventSchema.SetText | backend/models/Event.js:7 | The name and description setter accepts exactly the string values. It returns a suffix of the string with no leading whitespace, having dropped only whitespace |
| EventSchema.Merge | backend/routes/events.js:141-145 | `findByIdAndUpdate` sets every schema path present in the update, through its setter or cast, and keeps every other path. It fails iff some present path fails its cast, and it keeps the setter invariant |
| EventSchema.MergeWithoutPaths | backend/routes/events.js:141-145 | An update with none of the schema's paths leaves the event as it was |
| EventSchema.UnknownKeyDropped | backend/routes/events.js:120 | A key that is not a schema path has no effect on an update |
| EventSchema.SetTextKeepsTrailing | backend/models/Event.js:7 | The name and description setters keep trailing whitespace and anything after the first non-space character |
| EventSchema.SetTextIdempotent | backend/models/Event.js:12 | A setter applied to its own output changes nothing |
| EventSchema.UpdateCanBlankName | backend/routes/events.js:141-145 | An update of the name to spaces stores an empty name, which breaks `required`, because update validators are off |
| Database.AddKeepsUsersValid | backend/routes/auth.js:53 | Creating a well-formed user with a fresh email keeps the user store's invariant: unique emails and well-formed records. A user with a role from the enum also keeps every role in the enum |
| Database.RoleChangeKeepsUsersValid | backend/routes/auth.js:140 | Changing one user's role to a role in the enum keeps the user store's invariant and keeps every role in the enum |
| Database.RoleChangeKeepsRecords | backend/routes/auth.js:140 | Changing one user's role to any text keeps the unique email index and every record's schema guarantees; only the role enum can be broken |
| Database.PutKeepsEventsValid | backend/routes/events.js:67 | Storing an event whose setters have run keeps the event store's invariant |
| EventRoutes.MissingIff | backend/routes/events.js:27-28 | The report `Missing` (the filter of line 28) names a field iff it is one of the seven required fields and is falsy in the body. It keeps the order name, description, date, price, category, venue, image |
| EventRoutes.NothingGivenMissesAll | backend/routes/events.js:27-36 | A body with no truthy required field is refused with all seven fields, in order |
| EventRoutes.ImageCheck | backend/routes/events.js:39-42 | A truthy image passes iff it is a string starting with "data:image/". A non-string image makes `startsWith` throw, which is a 500 |
| EventRoutes.Draft | backend/routes/events.js:52-60 | The event built from a complete body meets `required` and the setter invariant, and carries the converted price |
| EventRoutes.CreateCheck | backend/routes/events.js:27-67 | The POST checks in order: missing fields (400, with the list), image (400 or 500), price (400), then `Event.create` (500 on failure). The result is the event built from the seven fields. A numeric price is never refused and is stored as given |
| EventRoutes.ExtraKeysIgnored | backend/routes/events.js:52-60 | Keys outside the seven fields change neither the outcome nor the event created |
| EventRoutes.MissingIgnoresExtraKeys | backend/routes/events.js:28 | Keys outside the seven fields do not change the missing-fields report |
| EventRoutes.DraftIgnoresExtraKeys | backend/routes/events.js:52-60 | Keys outside the seven fields do not change the event built |
| EventRoutes.ListEvents | backend/routes/events.js:6-15 | GET / needs no token and returns the whole event store |
| EventRoutes.GetEvent | backend/routes/events.js:98-109 | GET /:id needs no token. It returns the stored event, or 404 when the id is unknown |
| EventRoutes.CreateEvent | backend/routes/events.js:17-96 | POST /: refused by the guards or by the checks with the store unchanged. Otherwise it adds exactly one event under the new id, keeps the store's invariant and touches no other collection |
| EventRoutes.Converted | backend/routes/events.js:119-138 | The update data keeps every key. A truthy price becomes `Number(price)`, or 400 when that is NaN. A truthy date becomes the date's time value, or 500 when it is invalid. Every other value is kept. A numeric price is never refused and stays as it was |
| EventRoutes.UpdateEvent | backend/routes/events.js:111-169 | PUT /:id: guards, 404 for an unknown id, the image check only when an image is given, then the conversions. On success only the targeted event changes, to the merge of the update data, and a numeric price is stored as given |
| EventRoutes.NumericPriceStored | backend/routes/events.js:128-134 | A numeric price in an update, as the admin page sends it, is the price of the merged event |
| EventRoutes.UpdateWithoutImageKeepsImage | backend/routes/events.js:123-125 | An update without an image passes the image check and leaves the stored image unchanged |
| EventRoutes.UpdateRefusesForeignImage | backend/routes/events.js:123-125 | A non-empty string image that is not a data URL is refused with 400 |
| EventRoutes.DeleteEvent | backend/routes/events.js:171-191 | DELETE /:id: guards, 404 for an unknown id. On success exactly that event is removed and the reply is the removal message |
| AuthRoutes.FieldText | backend/routes/auth.js:9-17 | A validator reads a string field as it is, and a missing field as empty |
| AuthRoutes.RegisterInputPassesLogin | backend/routes/auth.js:9-17 | Every body that passes `registerValidation` (`RegisterInputOk`) also passes `loginValidation` (`LoginInputOk`). A 5-character password passes only the login check |
| AuthRoutes.LookupKey | backend/routes/auth.js:46 | The key `findOne({ email })` looks for is the email after the `normalizeEmail()` sanitizer (`NormalizedEmail`) and the schema's setters. It is lower-case and trimmed, and the setters leave it unchanged, so the query runs with that key itself |
| AuthRoutes.Registrant | backend/routes/auth.js:51-53 | The created user is well-formed, has role "user" and the looked-up email, and stores `hash(password)`, never the plaintext |
| AuthRoutes.RegisterCheck | backend/routes/auth.js:35-82 | The POST /register checks in order: 400 on invalid input, 400 when the normalised email is taken, 500 when creation fails. A body that passes them gives the created user: well-formed, with role "user" and an email no stored user has |
| AuthRoutes.Register | backend/routes/auth.js:35-82 | POST /register: 400 on invalid input, then 400 when the email exists, then 500 when creation fails, each with the store unchanged. On success it adds exactly one user and answers with the token for its id and role, plus its email, name and role. It keeps the store's invariant, and the role enum when that held |
| AuthRoutes.Login | backend/routes/auth.js:84-124 | POST /login, needing only the unique email index: 400 on invalid input, 400 for an unknown email, 500 for a non-string password. For the user with that email it succeeds iff the password matches, answering with the token for the stored id and role; every failure is an error without a token |
| AuthRoutes.Me | backend/routes/auth.js:22-33 | GET /me: 401 without a valid token, 404 when the token's subject is gone, otherwise that user without the password |
| AuthRoutes.Directory | backend/routes/auth.js:130 | The user list has every user, each without the password |
| AuthRoutes.AllUsers | backend/routes/auth.js:126-132 | GET /allusers: 401, then 403 unless the token's role is "admin", otherwise every user without the password |
| AuthRoutes.RoleUpdateAsWritten | backend/routes/auth.js:138-140 | The role update as written stores whatever text the body's role casts to. An absent role changes nothing; null fails the cast |
| AuthRoutes.RoleUpdate | backend/routes/auth.js:138-140 | The corrected role update changes only the role, accepts exactly "user" and "admin", and so keeps roles in the enum |
| AuthRoutes.RoleEnumBypassed | backend/routes/auth.js:140 | The update as written stores the role "owner", which is outside the enum of backend/models/User.js |
| AuthRoutes.RoleUpdateRefinesAsWritten | backend/routes/auth.js:140 | The corrected update agrees with the update as written whenever the resulting role is valid |
| AuthRoutes.UpdateRoleAsWritten | backend/routes/auth.js:134-142 | PUT /users/:id/role as written: 401, then 403 for a non-admin, with the store unchanged. For an unknown id the reply is null, and a null role gives 500. Otherwise only that user's role changes, and the reply is the whole stored record, its password digest included. Unique emails and well-formed records survive, so only the role enum is exposed |
| AuthRoutes.UpdateRole | backend/routes/auth.js:134-142 | The corrected route keeps the user store's invariant and the role enum, changes at most the role of the one user named, and replies without the password |
| AuthRoutes.RegisterLoginMe | backend/routes/auth.js:35-124 | After a successful register: login with the same body succeeds with the same reply, and /me with the token shows the new user with role "user" |
| BookingRoutes.CreateBooking | backend/routes/bookings.js:7-39 | POST /: 401, then 400 without an eventId, then 404 for an unknown event, with no booking made. On success it appends exactly one booking of the caller for that event, and the summary has the event's name and price. The event store is not touched |
| BookingRoutes.BookingsOf | backend/routes/bookings.js:44-45 | The listed bookings are exactly the caller's, each as often as it is stored, in store order |
| BookingRoutes.UserBookings | backend/routes/bookings.js:42-51 | GET /user: 401 without a valid token, otherwise exactly the caller's bookings |
| BookingRoutes.NewBookingListed | backend/routes/bookings.js:19-22 | A new booking appears at the end of its owner's list and in no other user's list |
| BookingRoutes.BookThenList | backend/routes/bookings.js:7-51 | After a successful booking, the caller's list is the old list plus the new booking |
| AuthContext.Refusal | frontend/src/context/AuthContext.tsx:57-69 | A login reply is accepted iff it has data, a token and a user with an email; otherwise the failures are checked in that order |
| AuthContext.LoginFailure | frontend/src/context/AuthContext.tsx:51-86 | `login` throws the request error for a rejected call, and otherwise the refusal of the reply |
| AuthContext.RegisterFailure | frontend/src/context/AuthContext.tsx:88-135 | `register` throws the request error, or "no data" for an empty reply. A non-empty text reply is handed to login with the same email and password; an object reply is checked as a login reply is |
| AuthContext.RegisteredSession | frontend/src/context/AuthContext.tsx:88-135 | `register` keeps a session iff it does not throw. The session then has a token and a user with an email: those of the login it hands over to after a text reply, or those of the object reply |
| AuthContext.FromMe | frontend/src/context/AuthContext.tsx:32-36 | The user kept from /me has the server's email, and its role, or "user" when there is none |
| AuthContext.AuthProvider.constructor | frontend/src/context/AuthContext.tsx:17-18 | A fresh provider has no user and is loading |
| AuthContext.AuthProvider.State | frontend/src/context/AuthContext.tsx:149 | `isAuthenticated` holds iff there is a user |
| AuthContext.AuthProvider.StoredToken | frontend/src/context/AuthContext.tsx:23 | A token is present iff local storage holds a non-empty "token" |
| AuthContext.AuthProvider.InitAuth | frontend/src/context/AuthContext.tsx:21-49 | Loading is over after every outcome. With no token nothing else changes. A refused check drops the token and the user. A resolved check sets the user from /me |
| AuthContext.AuthProvider.Login | frontend/src/context/AuthContext.tsx:51-86 | On success it stores the returned token and sets the returned user. On any failure it leaves token and user as they were |
| AuthContext.AuthProvider.Register | frontend/src/context/AuthContext.tsx:88-135 | Fails as `RegisterFailure` says, leaving the state unchanged on failure. On success it stores the `RegisteredSession` token and user, and the session is authenticated. A text reply has exactly the effect of `login` with the same email and password |
| AuthContext.AuthProvider.Logout | frontend/src/context/AuthContext.tsx:137-141 | Logout removes the stored token and the user, so the session is no longer authenticated |
| AuthContext.Mount | frontend/src/context/AuthContext.tsx:16-49 | After mount loading is false. With no stored token there is no user. A refused token is removed and there is no user |
| ProtectedRoute.Decide | frontend/src/components/ProtectedRoute.tsx:11-32 | The spinner while loading. Otherwise a redirect to /login with the attempted location when unauthenticated, then a redirect home for a non-admin on an admin page. The children render iff every check passes; `requireAdmin` defaults to false |
| ProtectedRoute.AdminPagesAreNarrower | frontend/src/components/ProtectedRoute.tsx:27-29 | A page that rendered as an admin page also renders as a plain page, and for an admin the two decisions agree |
| AuthPages.PlainSlice | frontend/src/pages/auth/LoginPage.tsx:39 | A slice is free of whitespace and '@' iff each of its characters is |
| AuthPages.PatternIsWellShaped | frontend/src/pages/auth/LoginPage.tsx:39 | A string that matches the e-mail pattern (`MatchesEmailPattern`, the regular expression read literally) has no whitespace and exactly one '@', with text before it. After the '@' comes a '.' that is neither the first nor the last character of that part |
| AuthPages.WellShapedIsPattern | frontend/src/pages/auth/LoginPage.tsx:39 | Every string of that shape matches the e-mail pattern |
| AuthPages.EmailPatternIff | frontend/src/pages/auth/LoginPage.tsx:39 | The pattern and the shape describe the same strings |
| AuthPages.ValidateEmail | frontend/src/pages/auth/LoginPage.tsx:38-47 | "Email is required" for "". Otherwise the answer is empty iff the address is well-shaped, and "Please enter a valid email address" if not. The registration page's check is the same function |
| AuthPages.PlainAddressAccepted | frontend/src/pages/auth/RegisterPage.tsx:38-47 | "ann@x.com" is accepted |
| AuthPages.SecondAtRefused | frontend/src/pages/auth/RegisterPage.tsx:38-47 | "a@b@c.d" is refused |
| AuthPages.RedirectTarget | frontend/src/pages/auth/LoginPage.tsx:28 | The target is the saved path, or "/events" when there is none |
| AuthPages.AfterAuth | frontend/src/pages/auth/LoginPage.tsx:31-36 | An authenticated session is sent to the redirect target, and only an authenticated one |
| AuthPages.LoginErrorMessage | frontend/src/pages/auth/LoginPage.tsx:81-87 | Status 400 gives the wrong-credentials text, 404 the account-not-found text, anything else the generic text |
| AuthPages.RegisterErrorMessage | frontend/src/pages/auth/RegisterPage.tsx:84 | The server's `msg` when present, otherwise the default registration error |
| AuthPages.LoginPage.constructor | frontend/src/pages/auth/LoginPage.tsx:16-22 | The form starts empty, with no errors and not loading |
| AuthPages.LoginPage.Change | frontend/src/pages/auth/LoginPage.tsx:49-56 | Typing sets the field and the email is validated as it is typed. The submit button (`CanSubmit`, `disabled=` at line 145) is enabled after an email change iff the form is not loading and the address is well-shaped |
| AuthPages.LoginPage.Submit | frontend/src/pages/auth/LoginPage.tsx:58-91 | `login` is called iff the email is valid and the password is non-empty, checked in that order, and the failing check sets its error. After the call loading is over. On success the token and user are stored. On failure the error is the message for the reply's status (`StatusOf`), and the stored token and user are kept |
| AuthPages.RegisterPage.constructor | frontend/src/pages/auth/RegisterPage.tsx:16-23 | The form starts empty, with no errors and not loading |
| AuthPages.RegisterPage.Change | frontend/src/pages/auth/RegisterPage.tsx:49-56 | Typing sets the field and the email is validated as it is typed. The submit button (`CanSubmit`, `disabled=` at line 152) is enabled after an email change iff the form is not loading and the address is well-shaped; other fields leave it as it was |
| AuthPages.RegisterPage.Submit | frontend/src/pages/auth/RegisterPage.tsx:58-88 | Name, then email, then password: the first failing check sets its error and `register` is not called. After the call loading is over. On failure the error is the server's message or the default, with token and user kept. On success the error is cleared and the `RegisteredSession` token and user are stored |
| AdminPanel.FormMissingIff | frontend/src/pages/admin/AdminPanel.tsx:189-190 | The report `FormMissing` (the filter of line 190) names a form field iff it is blank. It keeps the order name, description, date, category, venue, price |
| AdminPanel.ImageProblem | frontend/src/pages/admin/AdminPanel.tsx:159-169 | A file over 5 MiB is refused before its type is looked at. A file is accepted iff it is at most 5 MiB and is JPEG, JPG, PNG or GIF |
| AdminPanel.ToggledRole | frontend/src/pages/admin/AdminPanel.tsx:240 | An admin is switched to "user"; anyone else to "admin" |
| AdminPanel.ToggleTwice | frontend/src/pages/admin/AdminPanel.tsx:239-242 | Toggling twice restores "user" or "admin" |
| AdminPanel.RoleToggle | frontend/src/pages/admin/AdminPanel.tsx:239-242 | The role request names the user shown and asks for a different role of the enum |
| AdminPanel.Panel.constructor | frontend/src/pages/admin/AdminPanel.tsx:34-43 | The panel starts with every dialog closed and nothing selected |
| AdminPanel.Panel.OpenDialog | frontend/src/pages/admin/AdminPanel.tsx:99-103 | Opening selects the event, or a blank one, and clears the picked image |
| AdminPanel.Panel.CloseDialog | frontend/src/pages/admin/AdminPanel.tsx:105-110 | Closing clears the selection, the image and the error |
| AdminPanel.Panel.DeleteClick | frontend/src/pages/admin/AdminPanel.tsx:112-121 | An event without an id sets the error and leaves the confirmation closed; one with an id opens the confirmation for it |
| AdminPanel.Panel.DeleteConfirm | frontend/src/pages/admin/AdminPanel.tsx:123-137 | Confirming sends the delete request for the pending event's id, or sets the error when there is none |
| AdminPanel.Panel.DeleteSucceeded | frontend/src/pages/admin/AdminPanel.tsx:77-81 | A successful delete closes the confirmation and clears the pending event |
| AdminPanel.Panel.DeleteFailed | frontend/src/pages/admin/AdminPanel.tsx:82-85 | A failed delete shows the error's message, or the default text |
| AdminPanel.Panel.DeleteCancel | frontend/src/pages/admin/AdminPanel.tsx:139-143 | Cancelling clears the pending event and the error |
| AdminPanel.Panel.ImageChange | frontend/src/pages/admin/AdminPanel.tsx:154-179 | A refused file sets its error and keeps the old image. An unreadable file sets the processing error. Otherwise the data URL becomes the image and the error is cleared |
| AdminPanel.Panel.Submit | frontend/src/pages/admin/AdminPanel.tsx:181-237 | Missing fields (the message joins them with ", " via `Js.Join`), an invalid price, an invalid date, then a create without an image: each sets its error and sends nothing. An update includes the image only when one was picked; a create always does |
| AdminPanel.Panel.RoleUpdateFailed | frontend/src/pages/admin/AdminPanel.tsx:94-96 | A failed role update shows the error's message, or the default text |

## Left out

- The `protect` and `admin` middleware source is not part of this model. The guards are modelled from how the routes use them, with RFC 7519's expiry rule.
- The wording of the middleware's refusals is not modelled (`Http.Message` gives ""). Nor are express-validator's error list and the `errors`/`msg`/`error` shapes of the reply bodies.
- Token format, signing and the secret are abstract (`Tokens.Signer`); so are bcrypt and its random salt (`Database.Hasher`).
- express-validator's `isEmail()` and `normalizeEmail()` are abstract (`Database.EmailRules`).
- JSON arrays and nested objects in request bodies are not modelled: a body field is null, a boolean, an integer or a string. So the model has no image `{}` (where `startsWith` throws) and no array `email` (which reaches `findOne` as an array filter).
- Floating point is not modelled: the reading of a non-blank string by `Number` and `new Date(v)` are abstract functions to integers (`Js.Coercions`); prices are integers. `Number` of a number, a boolean, null or a blank string is defined as JavaScript defines it.
- `Js.ToLower`: only ASCII letters are lower-cased, not the full Unicode case mapping of `toLowerCase`.
- String lengths, such as the 8-character password minimum, count Dafny characters, not UTF-16 code units.
- Mongoose casting is simplified:
  - Strings, numbers and booleans cast to text.
  - null on an update path, and "" on the price path, count as a cast failure (500), where Mongoose would store null.
  - A non-string id is a cast failure (500), and any string id that is not stored is "not found". The 500 that Mongoose gives for a malformed ObjectId string is not modelled.
- `EventRoutes.UpdateEvent`: an Invalid Date stops the update at once with 500. The code reaches the same status through the cast error of `findByIdAndUpdate`.
- The `/allusers` and role routes have no `try`/`catch`. The unhandled rejection a database failure would cause there is not modelled, and neither is any other database failure.
- `populate` on bookings is not modelled: a booking reply holds the booking's ids, and the summary holds the event's name and price.
- The booking schema file is not part of this model; a booking is its id, its user and its event.
- Asynchronous ordering is left out: each route, each context call and each UI handler is one atomic step. Concurrent requests and React's batching of state updates are not modelled.
- The client's calls to the server are an `Api` parameter; axios and its interceptors are not modelled.
- `FileReader` is not modelled: `AdminPanel.Panel.ImageChange` takes the data URL it would produce, or none when it fails.
- The create and update mutations are not modelled beyond the request `AdminPanel.Panel.Submit` returns; their success callback is `AdminPanel.Panel.CloseDialog`, and the query refetches are left out.
- Rendering, styling and navigation side effects are left out; `AuthPages.AfterAuth` gives the target of the redirect effect.

## Findings

| source | as written | input that shows it | evidently intended | confidence | as-written member | corrected member |
|---|---|---|---|---|---|---|
| backend/routes/auth.js:140 | `findByIdAndUpdate(id, { role })` runs without update validators, so the role enum of backend/models/User.js:24 is not enforced | an admin's PUT /users/:id/role with body `{ "role": "owner" }` stores the role "owner" | only "user" or "admin" can be stored, as the schema's enum says | not executed | AuthRoutes.RoleEnumBypassed (about AuthRoutes.RoleUpdateAsWritten and AuthRoutes.UpdateRoleAsWritten) | AuthRoutes.RoleUpdate and AuthRoutes.UpdateRole, with AuthRoutes.RoleUpdateRefinesAsWritten |
| backend/routes/auth.js:141 | `res.json(user)` sends the document `findByIdAndUpdate` returns, and the password path of backend/models/User.js:17-21 is not excluded from queries | an admin's PUT /users/:id/role with body `{ "role": "admin" }` for a stored user replies with that user's bcrypt digest in `password` | the user without the password, as `/me` and `/allusers` reply with `.select('-password')` | not executed | AuthRoutes.UpdateRoleAsWritten | AuthRoutes.UpdateRole |
