# GatiYaan session core in Dafny

GatiYaan is a mobile web app that books mobile EV-charging vans. Customers
pick a van and book it. Providers accept the resulting jobs. An administrator
manages the van roster. All of this runs against one in-memory store.

This project models four parts of the app:

- **The store** (`src/context/AppContext.tsx`). Module `Session` holds the
  whole session state as one record (`Session.State`). Every store action
  is a total function from the state before to the state after. The
  invariant `Session.Inv` says what every action keeps. Class
  `Store.AppStore` has the same twelve fields and does the actions field
  by field. Each of its action methods is proved to stay valid and to
  leave exactly the state that the matching `Session` function computes.
  The helper method `StartSession` is the shared tail of `login`: it logs
  the identity found in and restarts the history at its home screen.
- **The sign-in form** (`components/screens/SignInScreen.tsx`). The digit
  filter on its inputs is in module `InputFilter`. The phone gate and the
  code decision are pure functions. Class `SignInScreen.SignInForm` holds
  the form state (step, phone, code, error) and logs in through the store.
  Its invariant says both fields hold only what their filters let through.
- **The sign-up form** (`components/screens/SignUpScreen.tsx`). The
  ordered name/phone validation is a function. Class
  `SignUpScreen.SignUpForm` holds the form state, including the chosen
  role.
- **The arrival countdown** (`components/screens/BookingScreen.tsx`). Class
  `BookingCountdown.ArrivalCountdown` is the countdown, ticked one second
  at a time. The "mm:ss" text it shows comes from pure functions, and a
  round-trip lemma reads that text back to the seconds left.

Two support modules are used throughout. `Domain` gives the entities of
`src/types.ts` as closed datatypes. `Numerals` prints and reads decimal
numerals, which the ids built from the clock and the countdown text need.

Inputs from the environment are parameters:

- `now: nat` is the clock reading behind `Date.now()`.
- `kWhCents` is the energy drawn at completion, in hundredths of a kWh,
  between 500 and 1500.
- `latDraw` and `lngDraw` are the two `Math.random()` results, in [0, 1),
  that place a new van.

### Behaviour of the code worth knowing

- A later `rateBooking` replaces an earlier rating of the same booking
  (`Session.RatedOverwrites`). The store does not check the 1–5 range.
- `login` looks a phone up in the fixed roster `MOCK_USERS`; it never
  looks in the growing `allUsers`. So logging out and back in with an unknown phone
  creates and appends a second identity (`Session.ReloginUnknownPhone`).
  A phone of the roster does get back the same identity
  (`Session.ReloginKnownPhone`).
- `login` never returns null, so the sign-in form's "user not found"
  message can never appear (`SignInScreen.SignInForm.SubmitOtp`).
- The sign-in admin shortcut needs the code `admin123`. The code field
  keeps digits only, at most six of them, so that branch cannot be reached
  (`SignInScreen.AdminShortcutUnreachable`, and for the form itself
  `SignInScreen.SignInForm.SubmitOtp`). The administrator still gets
  in with the mock code `123456` (`SignInScreen.AdminViaMockOtp`).
- The phone gate's `phone === "0000000000"` alternative adds nothing,
  because that number already has ten characters
  (`SignInScreen.PhoneGateIsLength`).
- The name typed at sign-up is never passed to `login`. A new identity is
  always named "New User" (`Session.ResolveLogin`).

## Model

| member | source | states |
|---|---|---|
| Navigation.Push | src/context/AppContext.tsx:107 | the new history is one longer, has the old one as a strict prefix, and shows the pushed screen |
| Navigation.Pop | src/context/AppContext.tsx:108-110 | the result is a prefix of the history and is never empty when the history was not; it is one shorter exactly when going back is possible, and unchanged otherwise |
| Navigation.PopPush | src/context/AppContext.tsx:107-110 | going back after going forward restores the history |
| Navigation.CurrentAfterPop | src/context/AppContext.tsx:108-110 | after going back, the screen shown is the one that was beneath the top |
| Navigation.BackTimesKeepsRoot | src/context/AppContext.tsx:108-110 | any number n of back presses leaves the first max(1, length − n) screens, so the first screen always stays |
| Store.AppStore.CurrentScreen | src/context/AppContext.tsx:93 | the current screen is the last entry of the history; the invariant keeps the history non-empty |
| Store.AppStore.CanGoBack | src/context/AppContext.tsx:94 | true exactly when the history holds more than one screen |
| Session.FindByPhone | src/context/AppContext.tsx:121 | a hit is a roster member with that phone; no hit happens exactly when no member has that phone |
| Session.ResolveLogin | src/context/AppContext.tsx:113-127 | the identity has the phone given; the admin phone gives the administrator whatever the role; a roster phone gives that roster entry; an unknown phone gives a new identity "user-" + clock, "New User", with that phone and the role asked for |
| Session.AdminCaseRedundant | src/context/AppContext.tsx:117-121 | the roster lookup alone already maps the admin phone to the administrator |
| Session.Initial | src/context/AppContext.tsx:59-76 | the start state satisfies the invariant: history [Welcome], nobody logged in or authenticated, the user list is the fixed roster, no vans, bookings or jobs, nothing selected or active, not available, the given theme |
| Session.ProvidersLoaded | src/context/AppContext.tsx:89 | the fetched vans replace the roster of vans and nothing else changes; the invariant is kept |
| Session.FallbackIdsDistinct | src/services/geminiService.ts:31-35 | the three built-in vans have distinct ids |
| Session.FallbackRosterUpdate | src/services/geminiService.ts:31-35 | with the built-in list loaded, editing one of its vans leaves distinct ids, and the edit is the one entry with that id |
| Session.ToggleTheme | src/context/AppContext.tsx:97-104 | the theme flips and nothing else changes; the invariant is kept |
| Session.ToggleThemeTwice | src/context/AppContext.tsx:97-104 | flipping the theme twice gives back the same state |
| Session.NavigateTo | src/context/AppContext.tsx:107 | the history grows by exactly one entry, with the old one as a prefix and the new screen on top; nothing else changes |
| Session.NavigateBack | src/context/AppContext.tsx:108-110 | the history shrinks to a prefix; it loses exactly one entry when going back is possible and keeps its length exactly when it is not; nothing else changes |
| Session.Login | src/context/AppContext.tsx:113-140 | afterwards someone with the given phone is logged in and authenticated, and it is the identity the roster lookup resolves to (the administrator, a roster entry, or a new identity); the history is that identity's home screen alone; the user list gains that identity at its end exactly when it is new, and is unchanged otherwise; nothing else changes; the invariant is kept |
| Session.LoginResult | src/context/AppContext.tsx:129-139 | login never returns null, and the identity it returns has the phone given |
| Session.AdminLoginIgnoresRole | src/context/AppContext.tsx:117-136 | the admin phone with any role logs in the administrator on the admin dashboard and adds nobody |
| Session.KnownPhoneLogin | src/context/AppContext.tsx:121 | a roster phone logs in a roster entry and adds nobody |
| Session.ReloginKnownPhone | src/context/AppContext.tsx:113-149 | logout then login with a roster phone gives back the same identity, whatever roles and clock readings are used |
| Session.ReloginUnknownPhone | src/context/AppContext.tsx:121-126 | logout then login with an unknown phone appends a second identity with that phone; at different clock readings the two identities differ |
| Session.Logout | src/context/AppContext.tsx:142-149 | the user, active booking, selected van and active job are cleared, authentication is off and the history is [Welcome]; booking history, job queue, availability, theme and both rosters are untouched |
| Session.SelectVan | src/context/AppContext.tsx:152-155 | the van is selected and the van detail screen pushed; nothing else changes |
| Session.CreateBooking | src/context/AppContext.tsx:157-173 | with nobody logged in nothing changes; otherwise an open booking of that van by that user, with id "booking-" followed by the clock reading and that reading as its booking time, becomes active, its pending job goes to the front of the queue and the tracking screen is pushed; nothing else changes |
| Session.CompleteBooking | src/context/AppContext.tsx:175-184 | the active slot is emptied and Home pushed in every case; an active booking goes to the front of the history as completed, with the energy reading and a cost of that reading times the van's price, and otherwise as it was |
| Session.CancelBooking | src/context/AppContext.tsx:186-195 | the active slot is emptied and Home pushed in every case; an active booking goes to the front of the history as cancelled, otherwise unchanged, and the queued jobs of that booking are withdrawn |
| Session.RemoveJobsOf | src/context/AppContext.tsx:191 | exactly the jobs of the booking are dropped: the length falls by their count, and a job stays exactly when it was there and belongs to another booking |
| Session.RemoveJobsOfAppend | src/context/AppContext.tsx:191 | the filter distributes over concatenation, so the jobs that stay keep their order |
| Session.RemoveJobsOfNone | src/context/AppContext.tsx:191 | a queue with no job of the booking passes unchanged |
| Session.CreateThenCancel | src/context/AppContext.tsx:157-195 | cancelling a booking just made restores the job queue and leaves its cancelled copy at the front of the history |
| Session.CancelRemovesOneJob | src/context/AppContext.tsx:186-195 | with one queued job of the active booking, cancelling removes exactly one job and adds exactly one cancelled entry |
| Session.CustomerScenario | src/context/AppContext.tsx:113-184 | a roster customer logs in, books and completes; the history then holds one completed booking costing the reading times the van's price |
| Session.Rated | src/context/AppContext.tsx:197-201 | same length; entries with the id carry the new rating, all others are unchanged; entries stay settled |
| Session.RatedOverwrites | src/context/AppContext.tsx:197-201 | a second rating of a booking replaces the first |
| Session.RateBooking | src/context/AppContext.tsx:197-201 | the history keeps its length; each entry with the id differs only in carrying the new rating; all other entries and fields are unchanged; the invariant is kept |
| Session.ToggleAvailability | src/context/AppContext.tsx:204 | availability flips and nothing else changes |
| Session.AcceptJob | src/context/AppContext.tsx:206-210 | the job becomes the active job with status accepted and every queued job of its booking leaves the queue; nothing else changes |
| Session.ArriveAtJob | src/context/AppContext.tsx:212-214 | without an active job nothing changes; otherwise only the active job's status becomes arrived |
| Session.CompleteJobForProvider | src/context/AppContext.tsx:216-222 | without an active job nothing changes; otherwise the result is the completion of the active booking with the job slot emptied |
| Session.JobLifecycle | src/context/AppContext.tsx:206-222 | a job goes accepted, then arrived, then is gone from both the active slot and the queue |
| Session.NewProvider | src/context/AppContext.tsx:225-233 | the van keeps the typed-in fields, gets id "van-" + clock, rating 5.0, status approved, and a position within 0.05 degrees of 12.9716, 77.5946 |
| Session.AddProvider | src/context/AppContext.tsx:225-235 | the new van is put at the front of the roster and nothing else changes |
| Session.ReplaceVan | src/context/AppContext.tsx:238 | same length; every entry with the van's id becomes the van, the others are unchanged |
| Session.ReplaceVanKeepsIds | src/context/AppContext.tsx:238 | replacing keeps every id in its place |
| Session.ReplaceVanAbsent | src/context/AppContext.tsx:238 | an id that is not on the roster changes nothing |
| Session.ReplaceVanPresent | src/context/AppContext.tsx:238 | with distinct ids, the updated id stays unique and its one entry is the update |
| Session.UpdateProvider | src/context/AppContext.tsx:237-239 | ids and length are kept, the same-id entry is replaced, an absent id is a no-op, and nothing else changes |
| Session.AddThenUpdate | src/context/AppContext.tsx:225-239 | editing a van just added, under its new id, leaves the edited van in front of the old roster |
| Store.AppStore.constructor | src/context/AppContext.tsx:59-76 | the fields start as the initial state, which satisfies the invariant |
| Store.AppStore.ProvidersLoaded | src/context/AppContext.tsx:89 | keeps the invariant and ends in Session.ProvidersLoaded of the old state |
| Store.AppStore.ToggleTheme | src/context/AppContext.tsx:97-104 | keeps the invariant and ends in Session.ToggleTheme of the old state |
| Store.AppStore.NavigateTo | src/context/AppContext.tsx:107 | keeps the invariant and ends in Session.NavigateTo of the old state |
| Store.AppStore.NavigateBack | src/context/AppContext.tsx:108-110 | keeps the invariant and ends in Session.NavigateBack of the old state |
| Store.AppStore.Login | src/context/AppContext.tsx:113-140 | keeps the invariant, ends in Session.Login of the old state, and returns the new user |
| Store.AppStore.Logout | src/context/AppContext.tsx:142-149 | keeps the invariant and ends in Session.Logout of the old state |
| Store.AppStore.SelectVan | src/context/AppContext.tsx:152-155 | keeps the invariant and ends in Session.SelectVan of the old state |
| Store.AppStore.CreateBooking | src/context/AppContext.tsx:157-173 | keeps the invariant and ends in Session.CreateBooking of the old state |
| Store.AppStore.CompleteBooking | src/context/AppContext.tsx:175-184 | keeps the invariant and ends in Session.CompleteBooking of the old state |
| Store.AppStore.CancelBooking | src/context/AppContext.tsx:186-195 | keeps the invariant and ends in Session.CancelBooking of the old state |
| Store.AppStore.RateBooking | src/context/AppContext.tsx:197-201 | keeps the invariant and ends in Session.RateBooking of the old state |
| Store.AppStore.ToggleAvailability | src/context/AppContext.tsx:204 | keeps the invariant and ends in Session.ToggleAvailability of the old state |
| Store.AppStore.AcceptJob | src/context/AppContext.tsx:206-210 | keeps the invariant and ends in Session.AcceptJob of the old state |
| Store.AppStore.ArriveAtJob | src/context/AppContext.tsx:212-214 | keeps the invariant and ends in Session.ArriveAtJob of the old state |
| Store.AppStore.CompleteJobForProvider | src/context/AppContext.tsx:216-222 | keeps the invariant and ends in Session.CompleteJobForProvider of the old state |
| Store.AppStore.AddProvider | src/context/AppContext.tsx:225-235 | keeps the invariant and ends in Session.AddProvider of the old state |
| Store.AppStore.UpdateProvider | src/context/AppContext.tsx:237-239 | keeps the invariant and ends in Session.UpdateProvider of the old state |
| Numerals.Show | src/context/AppContext.tsx:124 | the decimal numeral of a clock reading is non-empty, all digits, has no leading zero, and reads back as the number |
| Numerals.LabelsInjective | src/context/AppContext.tsx:124 | ids built as a prefix plus the clock reading are equal only for equal readings |
| InputFilter.DigitsOnly | components/screens/SignInScreen.tsx:75 | the result is all digits, no longer than the input, and equal to the input when that is already all digits |
| InputFilter.DigitsOnlyAppend | components/screens/SignInScreen.tsx:75 | the digit filter distributes over concatenation, so it keeps the digits in order |
| InputFilter.Sanitize | components/screens/SignInScreen.tsx:75 | the result is all digits, a prefix of the input's digits, of length min(limit, number of digits) |
| InputFilter.SanitizeIdempotent | components/screens/SignInScreen.tsx:75 | filtering twice is the same as filtering once |
| InputFilter.SanitizeKeepsFiltered | components/screens/SignInScreen.tsx:101 | input that already passes the filter is left unchanged |
| InputFilter.PhoneInput | components/screens/SignInScreen.tsx:75 | the phone field holds at most ten digits |
| InputFilter.OtpInput | components/screens/SignInScreen.tsx:101 | the code field holds at most six digits |
| SignInScreen.PhoneGateIsLength | components/screens/SignInScreen.tsx:17 | the phone gate lets a number through exactly when it has at least ten characters |
| SignInScreen.DecideOtp | components/screens/SignInScreen.tsx:29-46 | the shortcut is taken exactly for the admin phone with "admin123"; a login happens exactly for "123456", as provider exactly for 8765432109 and never as admin; otherwise the code is refused |
| SignInScreen.DigitCodeNeverAdmin | components/screens/SignInScreen.tsx:29 | a code of digits only never takes the admin shortcut |
| SignInScreen.AdminShortcutUnreachable | components/screens/SignInScreen.tsx:29-32 | no code typed into the filtered field takes the admin shortcut |
| SignInScreen.AdminViaMockOtp | components/screens/SignInScreen.tsx:34-39 | the admin phone with "123456" asks for a customer login, yet the administrator logs in on the admin dashboard |
| SignInScreen.SignInForm.constructor | components/screens/SignInScreen.tsx:10-13 | the form starts on the phone step with empty fields and no error, and satisfies its invariant |
| SignInScreen.SignInForm.ChangePhone | components/screens/SignInScreen.tsx:75 | the phone becomes the filtered input; nothing else changes; the invariant is kept |
| SignInScreen.SignInForm.ChangeOtp | components/screens/SignInScreen.tsx:101 | the code becomes the filtered input; nothing else changes; the invariant is kept |
| SignInScreen.SignInForm.SubmitPhone | components/screens/SignInScreen.tsx:15-23 | an accepted number moves to the code step and clears the error; otherwise the phone error shows and the step stays; the invariant is kept |
| SignInScreen.SignInForm.SubmitOtp | components/screens/SignInScreen.tsx:25-47 | on a form satisfying its invariant the shortcut is never taken and the invariant is kept; by the decision: the shortcut logs in with the default role; the mock code clears the error and logs in with the decided role, so "user not found" never shows; any other code shows the code error and leaves the store unchanged |
| SignUpScreen.DetailsError | components/screens/SignUpScreen.tsx:47-59 | the name is checked first, then the phone; no error exactly when both pass |
| SignUpScreen.FilteredPhonePasses | components/screens/SignUpScreen.tsx:53 | with a valid name, a filtered phone passes exactly when the input had at least ten digits |
| SignUpScreen.ChosenRoleTakesEffect | components/screens/SignUpScreen.tsx:65 | for a phone not on the roster, the chosen role becomes the new identity's role and picks its home screen; a roster phone logs in its roster entry |
| SignUpScreen.SignUpForm.constructor | components/screens/SignUpScreen.tsx:40-45 | the form starts on the details step, with empty fields and the customer role |
| SignUpScreen.SignUpForm.SelectRole | components/screens/SignUpScreen.tsx:91 | the role becomes the selected one; nothing else changes |
| SignUpScreen.SignUpForm.ChangeName | components/screens/SignUpScreen.tsx:97 | the name is taken as typed; nothing else changes, the role included |
| SignUpScreen.SignUpForm.ChangePhone | components/screens/SignUpScreen.tsx:104 | the phone becomes the filtered input; nothing else changes, the role included |
| SignUpScreen.SignUpForm.ChangeOtp | components/screens/SignUpScreen.tsx:122 | the code becomes the filtered input; nothing else changes, the role included |
| SignUpScreen.SignUpForm.SubmitDetails | components/screens/SignUpScreen.tsx:47-59 | a failed check shows its message and keeps the step; passing both checks clears the error and moves to the code step |
| SignUpScreen.SignUpForm.SubmitOtp | components/screens/SignUpScreen.tsx:61-69 | "123456" clears the error and logs in with the chosen role; any other code shows the code error and leaves the store unchanged |
| BookingCountdown.ArrivalCountdown.constructor | components/screens/BookingScreen.tsx:83-85 | the countdown starts at the estimate times 60, with no completion scheduled |
| BookingCountdown.ArrivalCountdown.Tick | components/screens/BookingScreen.tsx:87-94 | while positive, a tick takes off exactly one second and schedules nothing; once the countdown is not positive, it schedules completion and stays put; it never goes below zero from a positive start |
| BookingCountdown.RunToArrival | components/screens/BookingScreen.tsx:83-94 | a positive estimate of m minutes reaches zero after exactly 60·m ticks, a non-positive one after none, and completion is then scheduled once |
| BookingCountdown.Split | components/screens/BookingScreen.tsx:96-97 | for non-negative seconds, minutes·60 + seconds equals the input and 0 ≤ seconds < 60; for negative input the remainder takes the dividend's sign |
| BookingCountdown.Pad2 | components/screens/BookingScreen.tsx:141 | the result is at least two digits long, ends with the input, and has the same value |
| BookingCountdown.Clock | components/screens/BookingScreen.tsx:141 | the text is at least five characters long, with the colon three from the end |
| BookingCountdown.ClockRoundTrip | components/screens/BookingScreen.tsx:141 | reading the mm:ss text back gives exactly the seconds left |
| BookingCountdown.Display | components/screens/BookingScreen.tsx:131-153 | the timer shows exactly while seconds are left, and its text reads back as those seconds; otherwise the arrived state shows |
| Numerals.ShowBelowHundred | components/screens/BookingScreen.tsx:141 | a number below 100 prints in at most two digits, so the seconds field is exactly two characters |
| Numerals.ValueZeroPadded | components/screens/BookingScreen.tsx:141 | a leading zero does not change a numeral's value |

## Left out

- Rendering: JSX, styling, animations, modals, alerts and the map view.
- The generative van fetch (`src/services/geminiService.ts`) is an external call. Its result is a parameter of `ProvidersLoaded`. Only the built-in three-van fallback list is modelled, as `Session.FallbackVans`.
- Theme persistence and DOM effects (`localStorage`, `matchMedia`, the document class list). The start theme is a constructor parameter, and only the light/dark flip is modelled.
- `Date.now()` is the parameter `now`. Ids are "prefix-" plus its decimal numeral. `bookingTime` is that same number, not a `Date`.
- `Math.random()` draws are parameters. The energy reading is hundredths of a kWh in 500..1500, which is what the source's rounding to two decimals produces.
- Floating point: prices, costs, ratings and positions are exact reals. Binary rounding of `kWhCharged * pricePerKWh` and of the position arithmetic is not modelled.
- The progress fraction of the tracking screen is a float used only for animation.
- Timers and React scheduling: `setTimeout`, batched state updates and stale closures. Each store action is one atomic step on the current state. So the model does not capture a completion that fires late after a cancel, or one that reads an old `activeBooking` through `completeJobForProvider`. The countdown is discrete ticks. The scheduled completion is counted, not run; the store's completion is `Store.AppStore.CompleteBooking`.
- BookingCountdown.ArrivalCountdown.Tick: re-runs of the effect caused by other re-renders are not modelled. Each further tick at zero counts one more scheduled completion.
- The estimate is an integer number of minutes. A fractional or NaN value from the admin form's number parsing is not modelled.
- String length is a count of characters, not of UTF-16 code units. Only ASCII digits count as digits, as the source's `\D` does.
- Display-only filters over store state: the loading flag, bottom-navigation highlighting, list filters and dashboard counts.
- Session.FindByPhone: the contract does not say that the first match is returned. This makes no difference here, because the roster's phones are distinct.
- Form navigation: the back buttons and links to the other form call `navigateBack` or `navigateTo`, which are modelled in the store.
