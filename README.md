# Community Health Plan client — a Dafny model

This project models the browser client of a small clinic-booking system. Patients search providers, book appointments and read their appointment history. Providers see their upcoming appointments and cancel or complete bookings. A session store keeps the logged-in user in memory and in the browser's local storage, and a route guard decides from that session which pages may render.

The model follows the client's own structure, one module per source file:

| module | models |
|---|---|
| `RouteGuard` | the protected-route wrapper (a pure decision) |
| `AuthContext` | the session store: pure step functions on a `Session` value, and the class `AuthStore` whose methods update the same state in place and are proved to agree with the steps |
| `ManageBookings`, `SearchProviders`, `BookAppointment`, `Register`, `ProviderDashboard`, `AppointmentHistory` | one page each: a class whose fields are the page's React state, with its load, submit and action handlers as methods |
| `JsValues`, `JsString`, `JsArray`, `Entities` | the JavaScript values, string and array operations, and backend records these pages rely on |

The outcome of each HTTP request is a parameter of type `Fetched<B>`: the request failed, or the server answered with `res.ok`, a status and a body that may be unreadable. Each handler is proved for every outcome, including the error paths, except an "ok" list body without an items array (see "Left out"). The JSON text of the stored user is an abstract `Codec`, a pair of encode and parse functions. The model relies only on what JSON guarantees about them: a round trip for objects and for the falsy values `false`, `0` and `""`, and how `null` and `undefined` behave.

## Model

| member | source | states |
|---|---|---|
| RouteGuard.Decide | src/components/common/protectedRoute.jsx:11-24 | the login page is the answer if and only if the flag or the user object is missing; every redirect goes to the login page or one of the two dashboards |
| RouteGuard.UnauthenticatedGoesToLogin | src/components/common/protectedRoute.jsx:11-13 | without the authentication flag or without a user object, the guard redirects to the login page and never renders the page |
| RouteGuard.UnrestrictedRendersChildren | src/components/common/protectedRoute.jsx:16-24 | a route with no role list renders for every signed-in user |
| RouteGuard.AllowedRoleRendersChildren | src/components/common/protectedRoute.jsx:16-24 | a signed-in user whose role is in the list gets the page |
| RouteGuard.RefusedProviderGoesToProviderDashboard | src/components/common/protectedRoute.jsx:16-20 | a provider refused by a route is sent to the provider dashboard |
| RouteGuard.RefusedOtherRoleGoesToPatientDashboard | src/components/common/protectedRoute.jsx:16-21 | any other refused role, or a missing role, is sent to the patient dashboard |
| RouteGuard.EmptyRoleListRestricts | src/components/common/protectedRoute.jsx:16 | an empty role list is truthy, so it refuses everybody and redirects to their dashboard |
| RouteGuard.RendersExactlyWhenAuthorised | src/components/common/protectedRoute.jsx:11-24 | the page renders if and only if the user is signed in, has a user object, and has a listed role when a list is given |
| RouteGuard.DashboardRedirectSettles | src/components/common/protectedRoute.jsx:16-21 | a refused provider or patient is sent to the dashboard for their role; if that dashboard's route lists the role, the guard renders there |
| RouteGuard.UnlistedRoleRedirectRepeats | src/components/common/protectedRoute.jsx:16-21 | a role that is neither listed nor "provider" is sent to the patient dashboard; if that dashboard also refuses the role, the guard sends it there again |
| AuthContext.RehydrateStep | src/contexts/AuthContext.jsx:16-23 | the mount never writes the entry; nothing is done if and only if the entry is absent or empty; only a restored entry changes the state |
| AuthContext.RehydrateEffect | src/contexts/AuthContext.jsx:16-23 | the parse throws if and only if the entry is non-empty and not JSON; a restored entry sets the parsed user and the flag together |
| AuthContext.Consistent | src/contexts/AuthContext.jsx:10-11 | (definition) the session is authenticated if and only if the storage entry is non-empty, and a signed-out session holds the `null` user |
| AuthContext.RehydrateEstablishesInvariant | src/contexts/AuthContext.jsx:16-23 | after a mount whose parse did not throw, the session is consistent (flag set exactly when the entry is non-empty, user `null` when signed out) and its entry parses back to its user |
| AuthContext.LoginStep | src/contexts/AuthContext.jsx:28-53 | login succeeds if and only if the reply has an "ok" body; then the session holds the reported user, signed in, with that user's JSON text as the entry; a failure leaves the session unchanged and reports one of the two failure messages |
| AuthContext.LoginFailureChangesNothing | src/contexts/AuthContext.jsx:28-53 | a refused or failed login leaves the session untouched; the message is "Network error" exactly when the request or the body failed, else "Invalid credentials" |
| AuthContext.LoginSuccessStoresUser | src/contexts/AuthContext.jsx:38-47 | an "ok" body, whatever the HTTP status, sets the returned user, the flag and the storage entry together, and reports that user |
| AuthContext.LoginPreservesConsistency | src/contexts/AuthContext.jsx:28-53 | every login outcome keeps a consistent session consistent |
| AuthContext.LoginThenReloadRestoresSession | src/contexts/AuthContext.jsx:16-47 | when an accepted login returns a user, a page reload rehydrates exactly the logged-in session |
| AuthContext.FalsyUserIsSignedInButRefused | src/contexts/AuthContext.jsx:43-47 | an "ok" reply whose `user` is `false`, `0` or `""` signs the session in consistently and a reload restores it, yet the route guard sends it to the login page |
| AuthContext.LoginWithoutUserBreaksReload | src/contexts/AuthContext.jsx:43-47 | an "ok" reply without `user` authenticates an `undefined` user and stores "undefined", so the next mount's parse throws |
| AuthContext.RegisterOutcome | src/contexts/AuthContext.jsx:58-76 | success if and only if the body's status is "created"; a failed request or body gives "Network error"; otherwise the server's error or "Registration failed", never empty |
| AuthContext.LogoutStep | src/contexts/AuthContext.jsx:81-85 | from any session, logout reaches the state of a fresh mount with nothing stored |
| AuthContext.LogoutIdempotent | src/contexts/AuthContext.jsx:81-85 | logging out twice is logging out once |
| AuthContext.LogoutEstablishesConsistency | src/contexts/AuthContext.jsx:81-85 | logout makes any session consistent |
| AuthContext.AuthStore.constructor | src/contexts/AuthContext.jsx:10-11 | a new store holds the `null` user, is signed out and keeps whatever the storage entry holds |
| AuthContext.AuthStore.RehydrateOnMount | src/contexts/AuthContext.jsx:16-23 | the in-place mount effect reaches the state and outcome of the rehydrate step |
| AuthContext.AuthStore.Login | src/contexts/AuthContext.jsx:28-53 | the in-place login reaches the state and result of the login step |
| AuthContext.AuthStore.Register | src/contexts/AuthContext.jsx:58-76 | register changes no state and returns the outcome of the reply |
| AuthContext.AuthStore.Logout | src/contexts/AuthContext.jsx:81-85 | the in-place logout reaches the state of the logout step |
| ManageBookings.SetStatus | src/pages/provider/ManageBookings.jsx:48-50 | same length; every appointment with the target id gets the new status and every other one is unchanged |
| ManageBookings.SetStatusKeepsIds | src/pages/provider/ManageBookings.jsx:48-50 | the patch keeps every id in place and gives each targeted appointment the new status |
| ManageBookings.SetStatusOnlyTouchesStatus | src/pages/provider/ManageBookings.jsx:48-50 | every field other than the status is kept |
| ManageBookings.SetStatusIdempotent | src/pages/provider/ManageBookings.jsx:69-71 | applying the same patch twice equals applying it once |
| ManageBookings.SetStatusUnknownId | src/pages/provider/ManageBookings.jsx:48-50 | an id that no appointment has leaves the list unchanged |
| ManageBookings.ActionsOffered | src/pages/provider/ManageBookings.jsx:115 | (definition) the Cancel and Complete buttons show exactly for a "confirmed" appointment |
| ManageBookings.NoActionsAfterPatch | src/pages/provider/ManageBookings.jsx:115-131 | after a cancel or complete, the targeted appointments no longer offer the buttons; the others keep whatever they offered |
| ManageBookings.BookingsView.constructor | src/pages/provider/ManageBookings.jsx:7-9 | empty list, loading, no message |
| ManageBookings.BookingsView.Load | src/pages/provider/ManageBookings.jsx:14-34 | without a provider id nothing is requested and the view keeps loading; otherwise the list is replaced only by an "ok" body, and loading ends |
| ManageBookings.BookingsView.Cancel | src/pages/provider/ManageBookings.jsx:39-55 | an accepted request marks the target "cancelled" with the success message; any failure only sets "Failed to cancel appointment." |
| ManageBookings.BookingsView.Complete | src/pages/provider/ManageBookings.jsx:60-76 | an accepted request marks the target "completed" with the success message; any failure only sets "Failed to update appointment." |
| SearchProviders.MatchesLocation | src/pages/patient/SearchProviders.jsx:42-46 | (definition) an empty filter accepts every provider; otherwise the lower-cased location, or "" when missing, must contain the lower-cased filter |
| SearchProviders.Filtered | src/pages/patient/SearchProviders.jsx:41-47 | the shown providers are a subsequence of the loaded ones; each one matches; each matching provider is kept with its multiplicity |
| SearchProviders.FilteredMembership | src/pages/patient/SearchProviders.jsx:41-47 | a provider is shown if and only if it is loaded and matches the filter |
| SearchProviders.EmptyFilterKeepsAll | src/pages/patient/SearchProviders.jsx:42-46 | an empty filter shows every provider, in order |
| SearchProviders.MissingLocationDropped | src/pages/patient/SearchProviders.jsx:43-45 | with a non-empty filter, a provider without a location is never shown |
| SearchProviders.FilterIgnoresCase | src/pages/patient/SearchProviders.jsx:43-45 | for every filter, lower-casing it first shows the same providers |
| SearchProviders.ProviderSearch.constructor | src/pages/patient/SearchProviders.jsx:7-10 | no providers, loading, no error, empty filter |
| SearchProviders.ProviderSearch.SetLocationFilter | src/pages/patient/SearchProviders.jsx:76 | only the filter text changes |
| SearchProviders.ProviderSearch.LoadProviders | src/pages/patient/SearchProviders.jsx:12-38 | a good reply replaces the list with its items (or none) and clears the error; any failure keeps the list and sets the error; the empty-state notice shows if and only if the load succeeded and nothing passes the filter |
| BookAppointment.BookingPatientId | src/pages/patient/BookAppointment.jsx:12 | an id is sent exactly when the user object has a truthy id, and then it is that id |
| BookAppointment.ValidateBooking | src/pages/patient/BookAppointment.jsx:63-70 | missing date or times is reported first; then a blank trimmed name; the form passes if and only if all are present |
| BookAppointment.TimesCheckedOnlyForPresence | src/pages/patient/BookAppointment.jsx:63-70 | for every form, swapping the start and end times, or replacing either by any other non-empty text, gives the same verdict, so an end earlier than the start passes |
| BookAppointment.BuildPayload | src/pages/patient/BookAppointment.jsx:75-85 | (definition) `Number` of the route's provider id, the patient id, the trimmed name, service and notes, the provider's `user_name` or "", the two local date-time texts and the status "confirmed" |
| BookAppointment.PayloadOfValidForm | src/pages/patient/BookAppointment.jsx:75-85 | a payload from a valid form is "confirmed", carries the patient id and a non-empty name, has no surrounding white space in its text fields, and names no provider when none is loaded |
| BookAppointment.SubmitError | src/pages/patient/BookAppointment.jsx:96-108 | the error after a refused request is the server's error or the HTTP-status sentence; after a failed request it is the runtime's message or the fallback; never empty |
| BookAppointment.HttpErrorMessageNamesStatus | src/pages/patient/BookAppointment.jsx:98 | the fallback error carries the HTTP status as decimal text that reads back as that status |
| BookAppointment.BookingForm.constructor | src/pages/patient/BookAppointment.jsx:11-30 | the form starts empty with service "Physical", the provider still loading and the patient id taken from the user |
| BookAppointment.BookingForm.LoadProvider | src/pages/patient/BookAppointment.jsx:33-55 | without a provider id nothing happens; a good reply sets the provider (or none) and any failure sets the provider error; loading ends |
| BookAppointment.BookingForm.Submit | src/pages/patient/BookAppointment.jsx:58-111 | a payload is posted if and only if the form validates; an invalid form shows its validation message; an accepted post shows the success message and moves to the history; a refused or failed one shows the submit error |
| Register.ValidateRegistration | src/pages/auth/Register.jsx:20-27 | missing username or password is reported first, then mismatched passwords; the form passes if and only if neither applies |
| Register.RegisterError | src/pages/auth/Register.jsx:43-52 | the error is the server's error, else "HTTP" and the status; after a failed request it is the runtime's message or the fallback; never empty |
| Register.RegisterForm.constructor | src/pages/auth/Register.jsx:9-14 | all fields empty, no error, not submitting |
| Register.RegisterForm.Submit | src/pages/auth/Register.jsx:16-56 | a request is sent if and only if the form validates; the page moves to login if and only if it was sent and accepted; otherwise the validation message or the request error is shown |
| ProviderDashboard.Upcoming | src/pages/provider/ProviderDashboard.jsx:31-32 | upcoming appointments are a subsequence of the loaded ones; each starts after `now`; every such appointment is kept with its multiplicity |
| ProviderDashboard.UpcomingMembership | src/pages/provider/ProviderDashboard.jsx:32 | an appointment is upcoming if and only if it is loaded and has a valid start after `now` |
| ProviderDashboard.UpcomingShrinksOverTime | src/pages/provider/ProviderDashboard.jsx:31-32 | a later instant never adds an upcoming appointment |
| ProviderDashboard.AccessDenied | src/pages/provider/ProviderDashboard.jsx:47 | (definition) access is denied exactly when there is no user object or its role is not "provider" |
| ProviderDashboard.GuardAndDashboardAgree | src/pages/provider/ProviderDashboard.jsx:47-54 | behind a guard admitting only providers, the page never shows "Access Denied", and a signed-in provider passes both checks |
| ProviderDashboard.DashboardView.constructor | src/pages/provider/ProviderDashboard.jsx:10-12 | both lists empty, loading |
| ProviderDashboard.DashboardView.Load | src/pages/provider/ProviderDashboard.jsx:17-42 | without a provider id nothing is requested; an "ok" body replaces both lists, with upcoming computed from the new list; loading ends |
| AppointmentHistory.HistoryPatientId | src/pages/patient/AppointmentHistory.jsx:16-17 | the user's id wins whenever present (even 0); otherwise a truthy parameter is read as a number; otherwise no id |
| AppointmentHistory.QueryFor | src/pages/patient/AppointmentHistory.jsx:29-31 | the patient filter is used if and only if the id is truthy, and then it names that non-zero id |
| AppointmentHistory.ZeroIdFetchesAll | src/pages/patient/AppointmentHistory.jsx:16-31 | a user whose id is 0 gets the unfiltered list, whatever the URL says |
| AppointmentHistory.BlankParameterFetchesAll | src/pages/patient/AppointmentHistory.jsx:16-31 | without a user id, a white-space parameter reads as 0 and fetches the unfiltered list |
| AppointmentHistory.ParameterSelectsPatient | src/pages/patient/AppointmentHistory.jsx:16-31 | without a user id, the decimal text of a positive id selects that patient's list |
| AppointmentHistory.BookingAndHistoryAgreeOnPatient | src/pages/patient/AppointmentHistory.jsx:16-17 | for a non-zero user id, booking and history use the same patient; for id 0, booking sends no patient and history lists everything |
| AppointmentHistory.HistoryView.constructor | src/pages/patient/AppointmentHistory.jsx:19-21 | no items, loading, no error |
| AppointmentHistory.HistoryView.Load | src/pages/patient/AppointmentHistory.jsx:23-47 | queries by the chosen id; a good reply stores its items (or none); any failure keeps the list and sets the error; "No appointments found." shows if and only if the load succeeded with no items |
| JsString.Trim | src/pages/patient/BookAppointment.jsx:67 | the trimmed text is the slice of the input between a white prefix and a white suffix; it is empty if and only if the input is all white space, and otherwise neither starts nor ends with white space |
| JsString.TrimIdempotent | src/pages/patient/BookAppointment.jsx:78-84 | trimming twice is trimming once |
| JsString.ToLower | src/pages/patient/SearchProviders.jsx:43-45 | same length, each character lower-cased |
| JsString.Includes | src/pages/patient/SearchProviders.jsx:43-45 | true if and only if the needle occurs at some index of the text |
| JsString.NatToString | src/pages/patient/BookAppointment.jsx:98 | non-empty decimal digits without a leading zero |
| JsString.DigitsRoundTrip | src/pages/patient/BookAppointment.jsx:98 | reading the printed digits of `n` gives back `n` |
| JsString.ToNumber | src/pages/patient/AppointmentHistory.jsx:17 | a blank or all-white text is 0; any number read from a non-blank text ends, after trimming, in a digit |
| JsString.NumberOfDecimalText | src/pages/patient/AppointmentHistory.jsx:17 | `Number` of the decimal text of `n` is `n` |
| JsArray.Filter | src/pages/patient/SearchProviders.jsx:41-47 | the result keeps the input's order, holds only accepted elements, and keeps every accepted element with its multiplicity |
| JsArray.FilterMembership | src/pages/provider/ProviderDashboard.jsx:32 | an element is in the result if and only if it is in the input and accepted |

## Left out

- Requests, `res.json()`, `JSON.stringify` and the API base URL are not modelled. Each request is a `Fetched` outcome parameter, and the stored user's JSON text is the abstract `Codec`.
- React rendering, effect scheduling and the ordering of concurrent requests are not modelled. Each handler runs to completion on the state it starts from.
- Dates are not modelled. An appointment's `start` is an integer instant (None when the text is not a date), `now` is a parameter, and the form's `toISOString()` conversion is kept as the local date-time text. `toLocaleString` formatting is not modelled.
- BookAppointment.BookingForm.Submit: does not model that `toISOString()` throws on an invalid date or time before the request; every validated form is posted here.
- JsString.ToLower: lower-cases ASCII letters only, because the other Unicode case mappings matter only for non-ASCII location text.
- JsString.ToNumber: reads only white space, an optional sign and decimal digits; other numeric forms (decimals, exponents, hexadecimal, "Infinity") are read as NaN. Integers are unbounded here, whereas `Number` rounds digit strings beyond 2^53 to the nearest double.
- ManageBookings.BookingsView.Load: requires an "ok" body to carry an items array. The page would store `undefined` and fail while rendering, which the model does not represent.
- ProviderDashboard.DashboardView.Load: requires an "ok" body to carry an items array. The page would store `undefined` and then throw in `filter`, which the model does not represent.
- Register.RegisterError: a JSON `null` error body is read like an unreadable one (`HTTP <status>`). The page reads `error` of `null` and shows the runtime's TypeError message instead.
- AuthContext.AuthStore.RehydrateOnMount: a parse that throws is reported as ParseThrew with the state unchanged. The page does not catch it, and the crash of the tree is not modelled.
- A truthy JSON value that is not an object (`true`, a non-zero number, a non-empty string, an array) is treated as an object with no fields. The falsy values `false`, `0` and `""` are a variant of their own, which the guard refuses.
- The login page, the patient dashboard, the back button and the test appointments page are not part of this model.
- The `navigate` call on the provider dashboard's logout button is not modelled; `AuthStore.Logout` covers its effect on the session.
