# Salon booking: session and appointment store, in Dafny

This project models the logic of a small salon-booking web client. That logic has three parts:

- **The client-side store** (`src/store/auth.ts`). The store holds an authentication flag, the signed-in user (email, optional name and phone, role `user` or `admin`) and an ordered list of appointments. Each appointment has status `pending`, `accepted` or `rejected`. The store has six actions: `login`, `signup`, `logout`, `updateProfile`, `addAppointment` and `updateAppointmentStatus`.
- **The booking form** (`src/pages/Book.tsx`). On submission the form either opens the sign-in modal, raises one of two alerts or shows the confirmation. It also maps service codes to labels. Closing the confirmation records the booking through `addAppointment` (`src/components/ConfirmationModal.tsx`).
- **The admin dashboard** (`src/pages/Dashboard.tsx`). An admin guard protects it. It splits the appointment list into pending and processed records and counts them. Its Accept and Reject buttons forward status updates to the store.

Layout:

- `wrappers.dfy` (module `Wrappers`): `Option`, which stands for optional keys, `undefined` and `null`.
- `text.dfy` (module `Text`): JavaScript's `String.prototype.includes`. It is written as a scan and proved equal to "occurs at some index".
- `store.dfy` (module `AuthStore`): the data types, one pure function per action giving the new state from the old one, and the properties of those functions. The class `Store` has the three mutable fields. Its methods assign them as `set()` does, and each method's `ensures` ties the new state to the matching function.
- `booking.dfy` (module `Booking`): `handleSubmit` as a function returning the outcome, and `getServiceName`.
- `dashboard.dfy` (module `Dashboard`): the filters, the counts, the guard, the two buttons and `handleStatusUpdate`.

The store also keeps an invariant that the source never states: the flag is set exactly when a user is present (`AuthStore.Consistent`). Every action preserves it.

## Model

| member | source | states |
|---|---|---|
| `AuthStore.RoleFor` | src/store/auth.ts:41 | the role is `admin` exactly when "admin" occurs somewhere in the email, otherwise `user` |
| `Text.IncludesIff` | src/store/auth.ts:41 | `Text.Includes`, the scan that models `email.includes('admin')`, returns true exactly when the substring occurs at some index |
| `AuthStore.LoggedIn` | src/store/auth.ts:39-46 | after `login` the flag is on, the user has the given email, no name or phone and the admin role exactly when the email contains "admin"; the appointments are unchanged |
| `AuthStore.LoginIgnoresPassword` | src/store/auth.ts:39-46 | the result of `login` does not depend on the password |
| `AuthStore.LoginMatchesSignupIff` | src/store/auth.ts:39-52 | `login` and `signup` give the same state exactly when the email does not contain "admin" |
| `AuthStore.SignedUp` | src/store/auth.ts:47-52 | after `signup` the flag is on and the user has the given email and role `user` whatever the email contains; the appointments are unchanged |
| `AuthStore.LoggedOut` | src/store/auth.ts:53-55 | `logout` returns `AuthStore.Initial()`, the initial state of lines 36-38: no flag, no user, no appointments |
| `AuthStore.ApplyPatch` | src/store/auth.ts:58 | the spread `{ ...user, ...data }`: each field present in the patch is overwritten and each absent field is kept |
| `AuthStore.EmptyPatchIdentity` | src/store/auth.ts:58 | a patch with no keys leaves the user as it was |
| `AuthStore.PatchesCompose` | src/store/auth.ts:58 | patching with `p` and then `q` is the same as patching once with `{ ...p, ...q }`; the same patch twice is the same as once |
| `AuthStore.ProfileUpdated` | src/store/auth.ts:56-60 | with no user, `updateProfile` leaves the user absent; otherwise the user becomes the patched user; the flag and the appointments are untouched |
| `AuthStore.AppointmentAdded` | src/store/auth.ts:61-73 | `addAppointment` grows the list by exactly one record at the end and keeps all earlier records; the new record has the given service, date, time and reason, the supplied id, status `pending`, and the user's email or `""` when there is no user (`AuthStore.ClientEmail`, line 69) |
| `AuthStore.MarkAll` | src/store/auth.ts:76-80 | the `.map` keeps the length; each record with the id gets the new status and reason, and every other record is unchanged |
| `AuthStore.StatusUpdated` | src/store/auth.ts:74-82 | `updateAppointmentStatus` keeps length and order and each record's id, service, date, time and client; matching records take the new status, never `pending`, and their reason is replaced by the argument; other records, the flag and the user are unchanged |
| `AuthStore.StatusUpdateNoMatch` | src/store/auth.ts:76-80 | an update for an id that no record has leaves the state unchanged |
| `AuthStore.StatusUpdateLastWins` | src/store/auth.ts:74-82 | a second update for the same id overrides the first |
| `AuthStore.StatusUpdateIdempotent` | src/store/auth.ts:74-82 | applying the same update twice gives the same state as applying it once |
| `AuthStore.StatusUpdatesCommute` | src/store/auth.ts:74-82 | updates for two different ids give the same state in either order |
| `AuthStore.DecisionsReversible` | src/store/auth.ts:74-81 | the previous status is not restricted: an accepted record can be re-marked rejected, and a rejected one accepted |
| `AuthStore.ActionsKeepConsistent` | src/store/auth.ts:36-82 | the initial state, `login`, `signup` and `logout` have the flag set exactly when a user is present; the other three actions preserve this |
| `AuthStore.Store.constructor` | src/store/auth.ts:36-38 | a new store is in the initial state `AuthStore.Initial()` |
| `AuthStore.Store.Login` | src/store/auth.ts:39-46 | the fields become the state `LoggedIn` gives |
| `AuthStore.Store.Signup` | src/store/auth.ts:47-52 | the fields become the state `SignedUp` gives |
| `AuthStore.Store.Logout` | src/store/auth.ts:53-55 | the fields become the initial state |
| `AuthStore.Store.UpdateProfile` | src/store/auth.ts:56-60 | the fields become the state `ProfileUpdated` gives; the invariant is kept |
| `AuthStore.Store.AddAppointment` | src/store/auth.ts:61-73 | the fields become the state `AppointmentAdded` gives; the invariant is kept |
| `AuthStore.Store.UpdateAppointmentStatus` | src/store/auth.ts:74-82 | the fields become the state `StatusUpdated` gives; the invariant is kept |
| `Booking.HandleSubmit` | src/pages/Book.tsx:32-53 | unauthenticated gives the auth modal; authenticated with an empty service, date or time gives the required-fields alert; card payment with an empty card field gives the payment alert; confirmation happens exactly when authenticated, all three selections are made, and the method is cash or all four card fields are filled |
| `Booking.CashIgnoresCardFields` | src/pages/Book.tsx:45-47 | with cash payment the outcome is the same whatever the card fields hold |
| `Booking.RequiredCheckedBeforePayment` | src/pages/Book.tsx:40-50 | a missing selection gives the required-fields alert whatever the payment details are |
| `Booking.InitialFormNeedsFields` | src/pages/Book.tsx:19-28 | `handleSubmit` on its own, applied to the untouched form, gives the required-fields alert when signed in and the auth modal otherwise |
| `Booking.ServiceName` | src/pages/Book.tsx:55-66 | the label is non-empty exactly for the three service codes the menu offers (lines 85-87) |
| `Booking.ServiceNameInjective` | src/pages/Book.tsx:55-66 | different offered services have different labels |
| `Booking.ConfirmedBookingRecorded` | src/components/ConfirmationModal.tsx:20-23 | after a confirmed submission, closing the confirmation hands `addAppointment` the details of Book.tsx lines 249-253 (`Booking.BookingDetails`); this appends one pending record with no reason, the given id, the user's email, the service's label (non-empty for an offered service) and the chosen date and time, and keeps the earlier records |
| `Dashboard.WithStatus` | src/pages/Dashboard.tsx:25 | the filter's result is no longer than the list, and every record in it has the status |
| `Dashboard.WithoutStatus` | src/pages/Dashboard.tsx:26 | the filter's result is no longer than the list, and no record in it has the status |
| `Dashboard.FiltersSelect` | src/pages/Dashboard.tsx:25-26 | each filter keeps every selected record as many times as the list holds it, and no other record |
| `Dashboard.WithStatusKeepsOrder` | src/pages/Dashboard.tsx:25 | the `===` filter of a concatenation is the concatenation of the filters, so store order is kept |
| `Dashboard.WithoutStatusKeepsOrder` | src/pages/Dashboard.tsx:26 | the `!==` filter of a concatenation is the concatenation of the filters, so store order is kept |
| `Dashboard.PartitionCovers` | src/pages/Dashboard.tsx:25-26 | `Dashboard.PendingAppointments` and `Dashboard.ProcessedAppointments` together are a permutation of the list, and their sizes add up to its length |
| `Dashboard.ProcessedSplitsByDecision` | src/pages/Dashboard.tsx:55-66 | the accepted count plus the rejected count equals the processed count |
| `Dashboard.DashboardView` | src/pages/Dashboard.tsx:11-28 | the view is the redirect, with nothing rendered, exactly when the guard `Dashboard.IsAdmin` fails (no user, or a non-admin one); an admin sees the pending and processed lists, the pending count, the number of accepted and the number of rejected records (lines 55 and 66), and the three counts add up to the total |
| `Dashboard.RejectFromDashboard` | src/pages/Dashboard.tsx:99-104 | the Reject button (`Dashboard.RejectClicked`) changes nothing when the prompt is cancelled or empty; otherwise every matching record becomes rejected with the prompted reason, and every other record and the user are unchanged |
| `Dashboard.AcceptFromDashboard` | src/pages/Dashboard.tsx:93 | the Accept button (`Dashboard.AcceptClicked`) makes every matching record accepted with its reason cleared, and leaves every other record and the user unchanged |
| `Dashboard.RouteGuardAgrees` | src/App.tsx:49 | on a state where the flag is set exactly when a user is present, the route guard `isAuthenticated && user?.role === 'admin'` agrees with `Dashboard.IsAdmin` |
| `Dashboard.UpdateNeverAddsPending` | src/pages/Dashboard.tsx:25 | a status update never lengthens the pending list, because the new status is never `pending` |
| `Dashboard.HandleStatusUpdate` | src/pages/Dashboard.tsx:17-23 | id, status and reason reach the store unchanged: the new state is `StatusUpdated` of the old one with those arguments |
| `Dashboard.AcceptClick` | src/pages/Dashboard.tsx:93 | the store's new state is `AcceptClicked` of the old one |
| `Dashboard.RejectClick` | src/pages/Dashboard.tsx:99-104 | the store's new state is `RejectClicked` of the old one, so the store is called only with a non-empty reason |

## Left out

- zustand's `create` and the `persist` middleware (localStorage under the key `auth-storage`) are library plumbing. The store is a plain class, and a state restored from storage is not modelled.
- `login` and `signup` are `async` in the source but await nothing. They are modelled as synchronous.
- `Date.now()` as the id source is a clock read. The id is a parameter of `AddAppointment`. Ids are not claimed to be unique, and with duplicate ids an update changes every match.
- `AuthStore.ApplyPatch`: a `Partial<User>` key that is present with the value `undefined` is not modelled. A patch field is either absent (`None`) or holds a value.
- Browser and router effects are not modelled: `alert`, `window.prompt` (its result is the `prompted` parameter of `Dashboard.RejectClicked` and `Dashboard.RejectClick`), `navigate`, `setTimeout`, and the `format(new Date())` minimum date of the date input.
- Every text, date and select control of the booking page carries the HTML `required` attribute (Book.tsx lines 82, 101 and 113, and the card inputs at 171, 193, 208 and 222, which the page shows only for card payment). With the browser's own form validation, the submit event, and with it `handleSubmit`, does not fire while one of them is empty. The model describes `handleSubmit` on its own. So its two alerts, and the outcomes `Booking.InitialFormNeedsFields` states for the untouched form, are what `handleSubmit` decides, not what a browser that validates forms shows.
- The date and time inputs are plain strings. The `min` date and the fixed time menu are enforced by the browser, not by `handleSubmit`, so they are not modelled.
- JSX rendering, styling and animation are not modelled. This covers Home, Footer, Navbar, AuthModal, Profile (including its CSS-class lookup `getStatusColor`) and the routing in App.tsx. App.tsx's route guard also checks the flag, so it differs from `Dashboard.IsAdmin` on a state with an admin user and the flag off. On every consistent state the two agree (`Dashboard.RouteGuardAgrees`). Such a state cannot arise through the six actions, but one restored from storage could be like that.
- JavaScript strings are UTF-16. Here they are Dafny's `string`, and `includes` compares them character by character, which matches the source for every input it can receive.
