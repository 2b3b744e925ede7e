# School fee payment client: a Dafny model

This project models the logic of a React client that students use to pay their school fees. Most of the client is markup. The logic that remains is what this model covers.

- **Session derivation and the pay guard.** From the payment history, the dashboard keeps the "School Fees" payments. It reads the start year before the `/` of each session label with `parseInt` and takes their maximum with `Math.max`. It then moves the active session to `(max+1)/(max+2)`. The pay button is disabled while the start year of the active session is at least the current year. These are pure functions in module `Session`, built on a small model of the JavaScript values involved, in module `Js`:
  - truthiness of possibly missing strings;
  - `parseInt` without a radix;
  - template-literal printing of numbers;
  - `Math.max` with NaN.
- **The payment workflow.** The dashboard page is a class, `Dashboard.DashboardPage`. Its fields are the active session, the history, the fee structure, `showModal`, `initiating`, the verification state, the pending continuation of a payment (`flow`) and the number of armed reset timers (`pendingResets`).
  - Every await of `confirmPayment` and `verifyTransaction` is split in two: an event that issues the request, and an event that delivers the answer.
  - The payment widget becomes two events, close and success callback.
  - The three-second reset becomes a "timer fires" event.
  - The invariant `Valid` states that `initiating` is set exactly while a payment is in progress. Every step keeps it.
- **Sign-in pages.**
  - `Signup.SignupPage` and `Login.LoginPage` post their form.
  - On success they write "token" and the serialised "user" to the browser store (`Storage.LocalStorage`, a map updated in place) and hand the user to the shell.
  - On failure they compute one message from the error body. Signup takes the value under the first key: its first element if it is a list, the value itself otherwise. Login takes the `error` field, falling back to a fixed message.
- **Application shell.** `AppShell.App` does the following:
  - restores the user at startup when both store entries are set;
  - blanks the screen while loading;
  - handles login and logout.
  
  `AppShell.Route` is the route table with its guards.
- **Data types.** The records of `src/types.ts` are datatypes in `Types`. `UserCodec` stands for `JSON.stringify`/`JSON.parse` of a user. It has two properties: a serialised user is never the empty string, so the stored entry is truthy, and parsing a serialised user gives it back. `AppShell.RestoreAfterSignIn` relies on both. The paths shared by the route table and the login page's redirect are constants in `Routes`.

The world outside the client becomes inputs:

- HTTP answers are `Http.Response` values.
- `Date.now()`, today's date and the current year are parameters.
- The payment widget and the timer are events.

The startup effect does not guard `JSON.parse` of the stored user (src/App.tsx:19). A malformed stored user makes it throw before `setLoading(false)`, so nothing is rendered. `AppShell.App.Startup` models this: it reports `aborted` and leaves the shell loading.

## Model

| member | source | states |
|---|---|---|
| Types.StatusFromText | src/types.ts:15 | a wire string is a payment status exactly when it is "pending", "success" or "failed", and the status spells back to it |
| Types.StatusTextRoundTrip | src/types.ts:15 | the three status spellings are distinct: each status reads back from its own spelling |
| Types.AmountNotTiedToBreakdown | src/types.ts:27-31 | a fee structure whose amount differs from the sum of its breakdown prices is a legal value |
| Js.Truthy | src/App.tsx:18 | JavaScript truthiness of a possibly missing string; `AppShell.StartupDecision` states that startup stays anonymous exactly when an entry is missing or "", and `Dashboard.NewPayment` that a missing or empty field of a verify answer falls back |
| Js.OrElse | src/pages/dashboard.tsx:294-300 | `s \|\| fallback`; `Dashboard.RecordFieldsNeverEmpty` and `Dashboard.CompleteAnswerRecordedAsIs` state its consequences: a record field is never empty when its fallback is not, and a filled-in field is kept as sent |
| Js.NatToDigits | src/pages/dashboard.tsx:203 | a natural number prints as a non-empty run of decimal digits |
| Js.DigitsRoundTrip | src/pages/dashboard.tsx:196 | reading back the digits of a printed natural number gives the number |
| Js.ReadDigits | src/pages/dashboard.tsx:196 | the digit reader gives a non-negative number exactly when the text starts with a digit, NaN otherwise |
| Js.ParseInt | src/pages/dashboard.tsx:196 | `parseInt` without a radix; its partner lemmas `Js.ParseIntIsNumber`, `Js.ParseIntOfNonNumeric`, `Js.ParseIntUnsigned`, `Js.ParseIntNegative` and `Js.ParseIntOfIntToString` state when it yields a number, which number, and that it reads back every printed integer |
| Js.Negate | src/pages/dashboard.tsx:196 | the sign step of `parseInt`; `Js.ParseIntNegative` and `Js.ParseIntOfNegative` state that a minus before digits reads as the negated value, so every printed negative integer reads back |
| Js.ParseIntIsNumber | src/pages/dashboard.tsx:196 | `parseInt` yields a number exactly when a decimal digit follows the leading white space and an optional sign, NaN otherwise |
| Js.ParseIntOfNonNumeric | src/pages/dashboard.tsx:196 | text starting with neither white space, a sign nor a digit (such as "NaN") reads as NaN |
| Js.ParseIntUnsigned | src/pages/dashboard.tsx:196 | digits followed by a non-digit read as their decimal value |
| Js.ParseIntNegative | src/pages/dashboard.tsx:196 | a minus, digits and a non-digit read as the negated decimal value |
| Js.IntToString | src/pages/dashboard.tsx:203 | a printed integer is non-empty and starts with a digit or '-' |
| Js.IntToStringHasNoSlash | src/pages/dashboard.tsx:203 | a printed integer never contains '/', so the derived label splits at its own slash |
| Js.NumberToString | src/pages/dashboard.tsx:203 | `${x}` of a number; `Js.IntToString` and `Js.ParseIntOfIntToString` state that an integer is spelled with a leading digit or '-' and reads back, and `Session.NaNSessionEnablesPay` that NaN is spelled "NaN" |
| Js.ParseIntOfNegative | src/pages/dashboard.tsx:196 | `parseInt` of a printed negative integer followed by a non-digit gives back that integer |
| Js.ParseIntOfIntToString | src/pages/dashboard.tsx:196 | `parseInt` of a printed integer followed by a non-digit gives back that integer |
| Js.Add | src/pages/dashboard.tsx:203 | `maxYear + k`; `Session.StartYearOfNextSession` states that the label built from m reads back as starting in m+1, and `Session.NaNSessionEnablesPay` that NaN stays NaN and is spelled "NaN/NaN" |
| Js.Max | src/pages/dashboard.tsx:200 | `Math.max` is NaN exactly when some element is NaN, otherwise an element that bounds all others |
| Js.MaxIsBound | src/pages/dashboard.tsx:200 | an element that bounds all the others is the maximum |
| Js.MaxOfNumbers | src/pages/dashboard.tsx:200 | over numbers only, `Math.max` is a number found at some index |
| Js.MaxBounds | src/pages/dashboard.tsx:200 | a numeric maximum bounds every element, each of which is then a number |
| Http.Lookup | src/components/login.tsx:39 | reading a key of an error object is missing exactly when no field has that key, and a found value is that key's field |
| Storage.LocalStorage.GetItem | src/App.tsx:15-16 | `getItem`; `AppShell.SignInSurvivesReload` and `AppShell.LogoutSurvivesReload` state that reading back after a sign-in's `setItem` calls finds the same user, and after logout's `removeItem` calls finds nothing |
| Storage.LocalStorage.SetItem | src/components/signup.tsx:30-31 | `setItem` maps the key to the value and keeps every other entry |
| Storage.LocalStorage.RemoveItem | src/App.tsx:30-31 | `removeItem` drops the key and keeps every other entry |
| UserCodec.Serialize | src/components/signup.tsx:31 | a serialised user is never the empty string, so a stored user is truthy |
| UserCodec.Deserialize | src/App.tsx:19 | `JSON.parse` of a stored user, failing on malformed text; `UserCodec.DeserializeSerialize` states that it inverts `UserCodec.Serialize`, optional fields included |
| UserCodec.DeserializeSerialize | src/App.tsx:19 | parsing a serialised user gives back the same user, optional fields included |
| Session.BeforeFirstSlash | src/pages/dashboard.tsx:196 | `split("/")[0]` is the longest slash-free prefix, followed by '/' when shorter than the label |
| Session.BeforeSlashOfJoined | src/pages/dashboard.tsx:203 | the part before the first slash of "a/b" is a, when a has no slash |
| Session.StartYear | src/pages/dashboard.tsx:196 | `parseInt` of the label before its first slash; `Js.ParseIntIsNumber` on `Session.BeforeFirstSlash(text)` states when a label reads as NaN, `Session.MaxIsNaN` that one such label makes the maximum NaN, and `Session.StartYearOfNextSession` that the label derived from m reads back as m+1 |
| Session.SchoolFeePayments | src/pages/dashboard.tsx:190-192 | a payment is kept exactly when it is in the history with purpose "School Fees" |
| Session.StartYears | src/pages/dashboard.tsx:195-197 | the start years of the school fees payments; `Session.MaxIsLatestYear` and `Session.LatestSchoolFeesYearExists` state that their `Math.max` is the latest year paid, carried by some payment, when every label reads |
| Session.MaxIsLatestYear | src/pages/dashboard.tsx:189-200 | when m is the largest start year among the school fees payments, `Math.max` over them is m |
| Session.NextSessionLabel | src/pages/dashboard.tsx:203 | `${maxYear + 1}/${maxYear + 2}`; `Session.NextSessionSpelling` states that for a number m it is "(m+1)/(m+2)", and `Session.NaNSessionEnablesPay` that for NaN it is "NaN/NaN" |
| Session.ActiveSessionAfter | src/pages/dashboard.tsx:189-204 | the session derivation; `Session.ActiveSessionFollowsLatest` states that with latest school fees year m it is "(m+1)/(m+2)", and `Session.NoSchoolFeesKeepsSession` that without school fees the session is kept |
| Session.PayDisabled | src/pages/dashboard.tsx:398 | the pay guard `parseInt(start) >= currentYear`, false for NaN; `Session.PayGuardAfterHistory` and `Session.InitialPayGuard` state when it holds after a history and on the initial session |
| Session.SessionAfterLatest | src/pages/dashboard.tsx:189-203 | with m the latest school fees start year, the active session becomes the label that follows m |
| Session.NextSessionSpelling | src/pages/dashboard.tsx:203 | the label that follows m is spelled "(m+1)/(m+2)" |
| Session.LatestBoundsEach | src/pages/dashboard.tsx:195-200 | the latest year bounds the parsed start year of every school fees payment |
| Session.ActiveSessionFollowsLatest | src/pages/dashboard.tsx:189-203 | with m the latest school fees start year, the active session becomes "(m+1)/(m+2)" |
| Session.StartYearOfNextSession | src/pages/dashboard.tsx:203 | the start year read back from the derived label "(m+1)/(m+2)" is m+1 |
| Session.LatestSchoolFeesYearExists | src/pages/dashboard.tsx:194-200 | when some school fees payment exists and every label parses, a latest start year exists |
| Session.BoundedByMax | src/pages/dashboard.tsx:200 | when the maximum is a number, every school fees start year is a number no larger than it |
| Session.NoSchoolFeesKeepsSession | src/pages/dashboard.tsx:189-194 | a history without school fees, the empty one included, leaves the active session as it was |
| Session.SchoolFeePaymentsIdempotent | src/pages/dashboard.tsx:190-192 | filtering the school fees payments twice is filtering once |
| Session.OtherPurposesIgnored | src/pages/dashboard.tsx:190-192 | payments with any other purpose never affect the derived session |
| Session.MaxIsNaN | src/pages/dashboard.tsx:196-200 | one school fees label without a leading number makes the maximum NaN |
| Session.UnreadableSessionEnablesPay | src/pages/dashboard.tsx:196-203 | then the active session becomes "NaN/NaN" and the pay button is enabled |
| Session.NaNSessionEnablesPay | src/pages/dashboard.tsx:398 | the label printed from NaN is "NaN/NaN", and it never disables the pay button |
| Session.PayGuardAfterHistory | src/pages/dashboard.tsx:398 | after a history with latest school fees year m, the pay button is disabled exactly when m+1 is at least the current year |
| Session.InitialPayGuard | src/pages/dashboard.tsx:398 | with the initial session "2025/2026", the pay button is disabled exactly when 2025 is at least the current year |
| Dashboard.NewPayment | src/pages/dashboard.tsx:290-301 | the record built from a verify answer; `Dashboard.CompleteAnswerRecordedAsIs` states that a complete answer is recorded unchanged, `Dashboard.MissingStatusRecordedAsSuccess` that a missing status records as success, and `Dashboard.RecordFieldsNeverEmpty` that no text field is empty |
| Dashboard.CompleteAnswerRecordedAsIs | src/pages/dashboard.tsx:290-301 | a verify answer with every field filled in is recorded unchanged |
| Dashboard.MissingStatusRecordedAsSuccess | src/pages/dashboard.tsx:297 | an answer without a status is recorded as a successful payment |
| Dashboard.RecordFieldsNeverEmpty | src/pages/dashboard.tsx:294-300 | no text field of a new record is empty when the clock-derived fallbacks are not |
| Dashboard.DashboardPage.constructor | src/pages/dashboard.tsx:10-21 | the page starts in session "2025/2026" with no history, no fee structure, the modal closed, not initiating, idle |
| Dashboard.DashboardPage.FetchHistory | src/pages/dashboard.tsx:174-211 | only with a stored token is the history requested; an answer replaces it and derives the session, a failure changes nothing |
| Dashboard.DashboardPage.FetchFeeStructure | src/pages/dashboard.tsx:213-225 | only with a stored token is the fee structure requested; an answer loads it, a failure leaves it as it was |
| Dashboard.DashboardPage.PayButtonDisabled | src/pages/dashboard.tsx:398 | the pay button's `disabled`; `Dashboard.DashboardPage.OpenInvoice` states that a click opens the invoice exactly when it is false, and `Session.PayGuardAfterHistory` and `Session.InitialPayGuard` when it holds after a history and on the initial session |
| Dashboard.DashboardPage.OpenInvoice | src/pages/dashboard.tsx:395-398 | a click on the pay button opens the invoice exactly when the button is not disabled |
| Dashboard.DashboardPage.CloseInvoice | src/pages/dashboard.tsx:571 | closing the invoice clears `showModal` |
| Dashboard.DashboardPage.InvoiceVisible | src/pages/dashboard.tsx:567 | the invoice's render condition; `Dashboard.DashboardPage.ConfirmPayment` states that a confirm from a visible invoice never reports a missing fee structure |
| Dashboard.DashboardPage.ConfirmPayment | src/pages/dashboard.tsx:231-257 | without a token or without a fee structure: an error toast, no request, not initiating, history untouched; otherwise a request with exactly the fee amount and the active session |
| Dashboard.DashboardPage.InitiateResolved | src/pages/dashboard.tsx:258-327 | a successful answer opens the widget with its key, email, amount and reference; a failure toasts, ends initiating and never opens the widget |
| Dashboard.DashboardPage.WidgetClosed | src/pages/dashboard.tsx:270-273 | closing the widget toasts the cancellation and ends initiating; history and verification state are untouched |
| Dashboard.DashboardPage.WidgetCallback | src/pages/dashboard.tsx:275-287 | the widget's callback closes the invoice, sets verifying and requests verification of the captured reference |
| Dashboard.DashboardPage.VerifyResolved | src/pages/dashboard.tsx:288-316 | success prepends exactly one record and sets success with a reset armed; failure keeps the history and sets idle; initiating ends either way |
| Dashboard.DashboardPage.ResetTimerFires | src/pages/dashboard.tsx:307 | the reset timer sets the verification state back to idle |
| Dashboard.SuccessfulPayment | src/pages/dashboard.tsx:231-316 | a payment on a fresh dashboard sends the fee amount with the initial session, records exactly one payment and passes verifying, success, idle |
| Auth.WithSession | src/components/signup.tsx:27-31 | after a sign-in the store maps "token" to the token and holds a "user" entry; other entries are kept |
| Auth.StoredUserParses | src/components/signup.tsx:31 | the "user" entry a sign-in writes parses back to the signed-in user |
| Signup.MessageOf | src/components/signup.tsx:47-49 | the message of one error value; `Signup.MessageFromFirstField` states that the page's message is the generic one or the first field's, and is undefined exactly for an empty list under a non-empty first key |
| Signup.FirstErrorMessage | src/components/signup.tsx:39-52 | no body, an object without keys, or an object whose first key is empty gives "Signup failed. Please try again."; otherwise the message of the value under the first key |
| Signup.SignupPage.ShowsError | src/components/signup.tsx:68 | whether the error banner shows; `Signup.SignupPage.Submit` states that a submission that is sent always hides it |
| Signup.OnlyFirstFieldMatters | src/components/signup.tsx:45-49 | fields after the first never change the message |
| Signup.MessageFromFirstField | src/components/signup.tsx:39-51 | the message is the generic one or comes from the first field, and it is undefined only for an empty list under a non-empty first key |
| Signup.SignupPage.constructor | src/components/signup.tsx:7-15 | the form starts empty, not loading, with an empty error |
| Signup.SignupPage.Edit | src/components/signup.tsx:84-128 | typing in one input replaces that field of the form and no other |
| Signup.SignupPage.Submit | src/components/signup.tsx:17-124 | with every input `required` and the email typed: a form with an empty field or an email the browser rejects is never submitted and nothing changes; otherwise the error is cleared, loading is set and exactly the four form fields are posted; while loading it does nothing |
| Signup.SignupPage.Settle | src/components/signup.tsx:26-55 | success writes token and user to the store and hands the user to the shell; failure sets the message and writes nothing; loading ends false |
| Login.LoginErrorMessage | src/components/login.tsx:39 | the message is the non-empty `error` text of the body when there is one, else "Invalid Username or Password"; it is never empty |
| Login.OtherKeysIgnored | src/components/login.tsx:39 | fields with any other key, before or after, never change the message |
| Login.LookupAppend | src/components/login.tsx:39 | a field with another key appended to a body does not change a lookup |
| Login.LoginPage.constructor | src/components/login.tsx:9-12 | the page starts with empty credentials, not loading, with an empty error |
| Login.LoginPage.EditUsername | src/components/login.tsx:73 | typing replaces the username |
| Login.LoginPage.EditPassword | src/components/login.tsx:86 | typing replaces the password |
| Login.LoginPage.Submit | src/components/login.tsx:14-82 | with both inputs `required`: an empty username or password is never submitted and nothing changes; otherwise the error is cleared, loading is set and exactly username and password are posted; while loading it does nothing |
| Login.LoginPage.Settle | src/components/login.tsx:26-42 | success writes the session, hands the user to the shell and navigates to "/dashboard"; failure sets the message, writes nothing, calls no one; loading ends false |
| AppShell.StartupDecision | src/App.tsx:15-20 | the startup decision; `AppShell.RestoreAfterSignIn` states that a sign-in's store restores the same user, and `AppShell.AnonymousAfterLogout` that a store after logout starts anonymous |
| AppShell.RestoreAfterSignIn | src/App.tsx:15-20 | a session written by a sign-in with a non-empty token is restored as the same user at the next start |
| AppShell.AnonymousAfterLogout | src/App.tsx:29-33 | after logout's removals the next start stays anonymous |
| AppShell.Route | src/App.tsx:42-65 | "/login" and "/signup" show their page only without a user, else redirect to "/dashboard"; "/" and "/dashboard" show the dashboard only with a user, else redirect to "/login"; other paths show nothing |
| AppShell.RedirectSettles | src/App.tsx:42-65 | a redirect's target always renders a page: redirects never chain |
| AppShell.App.constructor | src/App.tsx:10-11 | the shell starts with no user and loading |
| AppShell.App.Startup | src/App.tsx:14-22 | restores the user exactly when both entries are set, then ends loading; an unparsable stored user aborts before loading ends |
| AppShell.App.HandleLogin | src/App.tsx:24-27 | login sets the user and touches nothing else |
| AppShell.App.HandleLogout | src/App.tsx:29-33 | logout removes "token" and "user" from the store and forgets the user |
| AppShell.App.View | src/App.tsx:36-68 | what the shell renders; `AppShell.SignInSurvivesReload` and `AppShell.LogoutSurvivesReload` state that after a sign-in and a reload the dashboard shows that user, and after a logout and a reload it redirects to "/login" |
| AppShell.SignInSurvivesReload | src/App.tsx:14-65 | whatever the store held, after a sign-in's two writes and a reload the dashboard shows the same user |
| AppShell.LogoutSurvivesReload | src/App.tsx:14-65 | whatever the store held, after a logout and a reload the dashboard redirects to "/login" |

## Left out

- The PDF receipt (`downloadReceipt`, src/pages/dashboard.tsx:23-171) is jsPDF drawing with locale formatting and wall-clock times, so nothing in it can be verified.
- Markup, styling, `src/pages/modals/invoice.tsx` and `src/components/layout.tsx` are presentation. One thing is kept from the invoice: its confirm button is disabled while `initiating`. That is why `ConfirmPayment` requires that no payment is in progress.
- HTTP is left out: URLs, headers and axios. A request is an out-parameter and its answer an input `Http.Response`. Logging to the console is dropped.
- The payment widget's internals are left out. After it opens, exactly one of its close or callback events is modelled. A callback that fires twice, or a close that follows a callback, is not.
- Timers and clocks become events and parameters. The three-second delay is not modelled, only that a reset timer fires.
- React's render scheduling and closure capture are not modelled. The history captured by `verifyTransaction` is taken to be the current history, so the record is prepended to it.
- Dashboard.DashboardPage.VerifyResolved: two payments whose verifications overlap are not modelled, because the page allows one payment at a time while `initiating` is set.
- UserCodec.Deserialize: JSON syntax is not modelled. A length-prefixed codec stands for `JSON.stringify`/`JSON.parse`, and only its round trip and its rejection of other text are used.
- AppShell.StartupDecision and AppShell.App.Startup: a stored "user" text the codec did not write reads as a parse failure, so startup aborts with loading still set and the screen stays blank. This differs from the source for text that is valid JSON. `JSON.parse("null")` returns null (src/App.tsx:19), after which the user is null, loading ends and the login page is routed. A real `JSON.stringify` text would be restored as a user.
- Js.ParseInt: radix prefixes such as "0x", and numbers beyond 2^53, are not modelled. Start years are small decimal integers.
- Js.NumberToString: exponent notation, used by `${x}` for magnitudes of 10^21 and more, is not modelled. Start years are small decimal integers, so it never arises.
- Dashboard.NewPayment: a status string other than the three statuses cannot appear in `VerifyData`. Neither can a numeric id, where 0 would be falsy.
- Signup.FirstErrorMessage: an error body must be an object whose values are strings or lists of strings. A body that is a bare string, or values of other types, are not modelled. The field order is the order `Object.keys` lists them in.
- Login.LoginErrorMessage: a list under the `error` key is treated as if the key were absent. The page would instead show the list's elements joined.
- Login.LoginPage.Settle: a success answer that lacks `token` or `user` (which would store the text "undefined") is not modelled.
- Signup.SignupPage.Settle: a success answer that lacks `token` or `user` (which would store the text "undefined") is not modelled.
- AppShell.Route: react-router matches paths case-insensitively and ignores a trailing slash. That normalisation is not modelled, so the path is taken as written.
- Dashboard.SuccessfulPayment: the pay-button click is not part of the scenario. That the button is enabled at the start in a year after 2025 is stated on its own by `Session.InitialPayGuard`.
