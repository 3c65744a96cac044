# Sensor dashboard: authentication flow and dashboard derivations

This project models two pages of a Next.js sensor-monitoring front end.

- **The login page** (`src/app/login/page.js`) is modelled as a state machine.
  - It covers signup with an e-mailed one-time code, login, the resend-verification action, and the three-step password reset.
  - It also covers the two 60-second resend cooldowns and the session check on mount.
  - Each `async` handler is split at its `await fetch`. A `Submit…` method models the synchronous prefix: the guards, the validation, and the request it sends, if any. A `…Replied` method models the rest of the `try`, the `catch` and the `finally`, given the server's reply.
  - The double-submit guards therefore show up as "returns no request and changes nothing".
  - Interval callbacks and `setTimeout` callbacks are separate events.
- **The dashboard page** (`src/app/dashboard/page.js`) is modelled as functions over values, plus a small class for the page state.
  - It covers the normalisation of sensor rows, the type/role/preference filter, the KPI counts and the notification list with dismissal and severity filter.
  - It also covers the unique-user count, the chart axis ticks, the avatar initials and the session guard.

Modules:

| module | contents |
|---|---|
| `Wrappers` | `Option` and JavaScript's `||` on strings |
| `Text` | UTF-16 length, `trim`, `\s`, ASCII case mapping, `includes` |
| `Seqs` | `Array.prototype.filter` |
| `Http` | what a handler learns from a reply |
| `Validation` | form rules, e-mail and code patterns, the code sanitiser |
| `ErrorMapping` | login and signup error texts |
| `Cooldown` | the countdown |
| `Session` | the `auth-token` slot and `checkAuth` |
| `LoginPage` | class `AuthPage` |
| `Dashboard` | the derivations |
| `DashboardPage` | class `DashboardView` |

Inputs the model receives as parameters:

- **The network.** A `Reply` is either `FetchFailed(reason)` or `Responded(ok, parsed)`, where `parsed` is `Unreadable(reason)` when `response.json()` throws, or else a `Json` body with the fields the pages read.
- **Local storage.** It is the `TokenStore` object.
- **The router.** Each page has a `navigations` sequence of pushed paths.
- **The clock.** Pending timeouts are a sequence of `Timeout` values, and countdown intervals are a count per cooldown.
- **`isAlertStatus`.** This is an uninterpreted `string -> bool` parameter.

## Model

| member | source | states |
|---|---|---|
| Wrappers.OrElse | src/app/login/page.js:251 | `field \|\| fallback`: the field when it is present and non-empty, otherwise the fallback |
| Wrappers.StrOr | src/app/login/page.js:478 | `s \|\| fallback` on a string: `s` unless it is empty |
| Text.JsLength | src/app/login/page.js:200 | `.length` counts UTF-16 code units: between the character count and twice it |
| Text.JsLengthBmp | src/app/login/page.js:200 | on Basic Multilingual Plane text `.length` is the character count |
| Text.TrimStartShape | src/app/login/page.js:200 | `trimStart` leaves a suffix, strips only white space, and does not start with white space |
| Text.TrimEndShape | src/app/login/page.js:200 | `trimEnd` leaves a prefix, strips only white space, and does not end with white space |
| Text.TrimShape | src/app/login/page.js:200 | `trim` leaves a slice whose surroundings are all white space and whose ends are not |
| Text.TrimEmptyIffBlank | src/app/login/page.js:200 | a string trims to empty exactly when it is all white space |
| Text.ToLowerIdempotent | src/app/dashboard/page.js:212 | lower-casing twice is lower-casing once |
| Text.Contains | src/app/login/page.js:482-498 | `includes(t)` holds exactly when `t` occurs at some index |
| Seqs.Filter | src/app/dashboard/page.js:36-60 | the filter keeps at most its input, and only elements that pass the test |
| Seqs.FilterIsSubsequence | src/app/dashboard/page.js:36-60 | the filter keeps elements in their input order |
| Seqs.FilterMultiset | src/app/dashboard/page.js:36-60 | the filter keeps every occurrence of a passing element and none of a failing one |
| Seqs.FilterPermutation | src/app/dashboard/page.js:278-283 | filtering a reordered input gives a reordering of the result, of the same length |
| Seqs.FilterMembership | src/app/dashboard/page.js:36-60 | an element is kept exactly when it is in the input and passes |
| Seqs.FilterAll | src/app/dashboard/page.js:36-60 | a test every element passes returns the input unchanged |
| Seqs.FilterNone | src/app/dashboard/page.js:36-60 | a test no element passes returns the empty list |
| Seqs.FilterCongruent | src/app/dashboard/page.js:50-59 | two tests that agree on the input keep the same elements |
| Seqs.FilterIdempotent | src/app/dashboard/page.js:628 | filtering twice with one test is filtering once |
| Seqs.FilterSnoc | src/app/dashboard/page.js:36-60 | one more input element at the end adds itself or nothing to the result |
| Seqs.FilterCons | src/app/dashboard/page.js:376 | one more input element at the front puts itself or nothing at the front of the result |
| Validation.ValidEmailFromParts | src/app/login/page.js:206 | a local part, a host and a suffix made of non-space, non-`@` characters always form a valid address |
| Validation.ValidEmailShape | src/app/login/page.js:206 | a valid address has exactly one `@`, no white space, and a `.` after the `@` |
| Validation.EmailExampleAccepted | src/app/login/page.js:206 | `user@example.com` passes the pattern |
| Validation.EmailWithSpaceRefused | src/app/login/page.js:206 | any address with a white-space character anywhere in it fails the pattern |
| Validation.EmailWithTwoAtsRefused | src/app/login/page.js:543 | any address with two or more `@` fails the pattern |
| Validation.MalformedEmailExamples | src/app/login/page.js:206 | `a b@c.d` and `a@b@c.d` fail the pattern |
| Validation.CheckNewPassword | src/app/login/page.js:622-640 | the reset password checks: None exactly when all rules hold; otherwise the returned rule fails and every earlier rule (length ≥ 8, then equality, then upper/lower/digit) holds |
| Validation.CheckSignup | src/app/login/page.js:200-233 | the signup checks in short-circuit order (trimmed name ≥ 2, e-mail pattern, then the password rules): None exactly when every rule holds; otherwise the first failing rule |
| Validation.BlankNameRefusedFirst | src/app/login/page.js:200-203 | a name of white space only is refused by the name rule before anything else is checked |
| Validation.SignupPasswordAsReset | src/app/login/page.js:215-233 | once name and e-mail pass, signup judges the password exactly as the reset does |
| Validation.SanitizeCode | src/app/login/page.js:924 | the code input keeps only ASCII digits and at most six of them, namely the first digits typed |
| Validation.SanitizeFixedPoints | src/app/login/page.js:1054 | the sanitiser returns its input exactly when the input is already sanitised, so it is idempotent |
| Validation.SanitizedCodeComplete | src/app/login/page.js:297 | the sanitised input is a 6-digit code exactly when at least six digits were typed |
| Validation.SixDigitExamples | src/app/login/page.js:600 | six digits pass the code pattern; five, seven, or a letter fail |
| ErrorMapping.ClassifyLoginError | src/app/login/page.js:492-501 | the class of a failed login is the first in priority whose evidence is present: `Failed to fetch` or `DATABASE_ERROR`, then `Invalid` or `credentials`, then `database`, `server` or `Can't reach`, else the raw message |
| ErrorMapping.LoginTextIdentifiesClass | src/app/login/page.js:492-501 | the shown login error text determines its class, and for an unclassified error the raw message |
| ErrorMapping.VerificationCodeOffersResend | src/app/login/page.js:482-484 | a failure with code `VERIFICATION_REQUIRED` always offers the resend action |
| ErrorMapping.VerificationWordingOffersResend | src/app/login/page.js:482-484 | any message containing "verify your email" or "email before logging in" offers the resend action, whatever its code |
| ErrorMapping.InvalidCredentialsNoResend | src/app/login/page.js:482-495 | "Invalid credentials" does not offer the resend action and is shown as the invalid-credentials message |
| ErrorMapping.ClassifySignupError | src/app/login/page.js:277-283 | a signup error is "no server" exactly for `Failed to fetch`; otherwise it is a duplicate account exactly when the message contains `already exists` or `User already`; otherwise it is the raw message |
| ErrorMapping.SignupTextIdentifiesClass | src/app/login/page.js:277-283 | the shown signup error text determines its class |
| ErrorMapping.ResetRequestErrorMessage | src/app/login/page.js:586-590 | a reset-request failure shows the server's message, except that `Failed to fetch` becomes the connectivity message |
| Http.PlainOutcome | src/app/login/page.js:248-252 | a handler succeeds exactly when the reply is `ok` and parsed; a parse failure throws its reason; a refusal throws the body's message or the fallback |
| Http.LoginOutcome | src/app/login/page.js:452-463 | login succeeds exactly on an `ok`, parsed reply; a parse failure becomes a fixed message; a refusal keeps the body's `code` |
| Http.ResetOutcome | src/app/login/page.js:657-666 | reset succeeds exactly on an `ok`, parsed reply; a refusal reports `message`, else `error`, else a fixed text |
| Cooldown.Tick | src/app/login/page.js:263-271 | one tick never goes below zero, strictly decreases a positive counter, gives zero exactly when `prev <= 1`, and otherwise gives `prev - 1` |
| Cooldown.AfterTicksValue | src/app/login/page.js:380-388 | after `k` ticks a counter stands at `start - k`, or at zero once that is used up |
| Cooldown.ZeroIsStable | src/app/login/page.js:575-583 | a counter at zero stays at zero, any number of ticks later |
| Cooldown.FullCooldown | src/app/login/page.js:720-728 | from 60 the counter stays positive for 59 ticks, and the 60th tick reaches zero and clears the interval |
| Session.TokenStore.Save | src/app/login/page.js:326 | the slot holds the saved token |
| Session.TokenStore.Remove | src/app/dashboard/page.js:133 | the slot is empty |
| Session.CheckAuth | src/app/login/page.js:10-30 | a user is returned exactly when a non-empty token is stored and the verification reply is `ok`, parsed and carries a user; the token is never touched |
| LoginPage.AuthPage.constructor | src/app/login/page.js:34-73 | every field starts at its `useState` default |
| LoginPage.AuthPage.SubmitSignup | src/app/login/page.js:187-246 | while a signup is in flight nothing changes and no request is sent; otherwise only the first failing rule's message is set and the loading flag ends false, or, when all rules pass, the signup request is sent with the flag set |
| LoginPage.AuthPage.SignupReplied | src/app/login/page.js:248-287 | a signup token moves to the code step and starts a new 60 s cooldown with one more interval; otherwise only the (rewritten) message is set; the loading flag ends false |
| LoginPage.AuthPage.OtpInput | src/app/login/page.js:923-926 | the code field holds the sanitised input |
| LoginPage.AuthPage.SubmitVerifyOtp | src/app/login/page.js:290-314 | ignored while a verification is in flight; a code that is not six digits only sets the message; otherwise the code and the signup token are sent; a sent code is always digits only, at most six (the page invariant on the field) |
| LoginPage.AuthPage.VerifyOtpReplied | src/app/login/page.js:316-347 | a token is stored and the dashboard is scheduled; a success without a token schedules the return to login; a failure shows the message and clears the code |
| LoginPage.AuthPage.SubmitResendOtp | src/app/login/page.js:350-368 | does nothing while the cooldown is positive; otherwise resends the signup request |
| LoginPage.AuthPage.ResendOtpReplied | src/app/login/page.js:370-395 | a new signup token replaces the old one and resets the cooldown to 60; an error is shown without touching the token or the cooldown |
| LoginPage.AuthPage.OtpCountdownTick | src/app/login/page.js:380-388 | the cooldown becomes `Tick(prev)`, and the interval stops exactly when `prev <= 1` |
| LoginPage.AuthPage.SubmitLogin | src/app/login/page.js:430-450 | a missing e-mail or password sets a message and sends nothing; otherwise the login request is sent |
| LoginPage.AuthPage.LoginReplied | src/app/login/page.js:452-503 | a token is stored and the dashboard scheduled; on failure the resend action is offered exactly when the message asks for verification, and the message follows the classification |
| LoginPage.AuthPage.LoginAccepted | src/app/login/page.js:467-474 | a token from the reply is stored and the dashboard scheduled; without one only the message is set and nothing is stored |
| LoginPage.AuthPage.ShowLoginFailure | src/app/login/page.js:476-501 | the resend action is offered exactly when `error.message \|\| "Login failed"` asks for verification, and the message follows the classification of that text |
| LoginPage.AuthPage.FingerprintReady | src/app/login/page.js:398-427 | the fingerprint field holds the value produced |
| LoginPage.AuthPage.SubmitResendVerification | src/app/login/page.js:506-520 | without an e-mail only a message is set; otherwise the flag is raised and the request sent |
| LoginPage.AuthPage.ResendVerificationReplied | src/app/login/page.js:522-536 | success shows the sent message and hides the resend action; a failure shows the prefixed error; the flag ends false |
| LoginPage.AuthPage.SubmitSessionCheck | src/app/login/page.js:10-19 | the stored token is read before the request: without a token nothing is sent, otherwise exactly that token is sent |
| LoginPage.AuthPage.SessionChecked | src/app/login/page.js:95-114 | given the token that was sent, the dashboard is opened exactly when `checkAuth` returns a user for it |
| LoginPage.AuthPage.SubmitForgotPassword | src/app/login/page.js:539-561 | an invalid e-mail sets the error before the in-flight guard is consulted; a request in flight then sends nothing; otherwise the request is sent with the flag raised |
| LoginPage.AuthPage.ForgotPasswordReplied | src/app/login/page.js:563-594 | success moves to the code step and starts the reset cooldown; failure sets the rewritten error; the flag ends false |
| LoginPage.AuthPage.ResetOtpInput | src/app/login/page.js:1053-1056 | the reset code field holds the sanitised input |
| LoginPage.AuthPage.VerifyResetOtp | src/app/login/page.js:597-609 | a six-digit code moves from the code step to the new-password step with no request; anything else only sets the error |
| LoginPage.AuthPage.SubmitResetPassword | src/app/login/page.js:612-655 | ignored while a reset is in flight; the first failing password rule sets the error and leaves both password fields as typed; otherwise the request is sent, and the code in it is always a sanitised one (digits only, at most six) |
| LoginPage.AuthPage.ResetPasswordReplied | src/app/login/page.js:657-694 | success closes all three reset steps, empties the e-mail, code and both passwords, zeroes the cooldown and shows the banner; failure only sets the error |
| LoginPage.AuthPage.ClearResetDialog | src/app/login/page.js:668-677 | every step of the reset dialog closes, the e-mail, code and both password fields empty, and the reset cooldown is zero |
| LoginPage.AuthPage.SubmitResendResetOtp | src/app/login/page.js:697-710 | does nothing while the reset cooldown is positive; otherwise requests a new code |
| LoginPage.AuthPage.ResendResetOtpReplied | src/app/login/page.js:712-734 | success restarts the reset cooldown at 60; failure shows the error without touching it |
| LoginPage.AuthPage.ResetCountdownTick | src/app/login/page.js:720-728 | the reset cooldown becomes `Tick(prev)`, and the interval stops exactly when `prev <= 1` |
| LoginPage.AuthPage.TimeoutFires | src/app/login/page.js:328-338 | a pending timeout runs once: it opens the dashboard, or returns from the code step to the login form, or hides the reset banner |
| Dashboard.KindIgnoresCase | src/app/dashboard/page.js:212-214 | the sensor type is compared without regard to case |
| Dashboard.KindExamples | src/app/dashboard/page.js:212-214 | a missing, empty or other type is temperature, and `humidity` is humidity |
| Dashboard.ColorBuckets | src/app/dashboard/page.js:253-257 | red exactly for `alert`, orange exactly for `warning`, gray exactly for `offline`/`unknown`, green for everything else |
| Dashboard.Normalize | src/app/dashboard/page.js:209-277 | an item keeps the row's id, takes its kind from the type and its name from the name or else the id; status defaults to `unknown` and role to `owner`; the colour follows the final status; and a value exists exactly when there is a reading |
| Dashboard.MissingStatusIsGray | src/app/dashboard/page.js:232 | a row without a status is shown gray as `unknown` |
| Dashboard.NormalizeRows | src/app/dashboard/page.js:209 | one item per row, in row order, every one coloured by its status |
| Dashboard.VisibleItems | src/app/dashboard/page.js:36-60 | every visible item passes both the type test and the role test |
| Dashboard.VisibleItemsOrdered | src/app/dashboard/page.js:36-60 | the visible items are an order-preserving subsequence of the input |
| Dashboard.VisibleItemsMembership | src/app/dashboard/page.js:36-60 | an item is visible exactly when it is in the input and passes both tests |
| Dashboard.TemperatureView | src/app/dashboard/page.js:39-40 | the temperature view holds temperature items only, and nothing when `showTemp` is off |
| Dashboard.HumidityView | src/app/dashboard/page.js:41-42 | the humidity view holds humidity items only, and nothing when `showHumidity` is off |
| Dashboard.AllTypesView | src/app/dashboard/page.js:43-46 | under any other type, an item is dropped exactly when the flag for its kind is off |
| Dashboard.EverythingShown | src/app/dashboard/page.js:36-60 | with both flags on and role "all", nothing is dropped |
| Dashboard.RoleView | src/app/dashboard/page.js:50-56 | `owned`, `admin` and `viewer` keep only `owner`, `admin` and `viewer` roles respectively |
| Dashboard.OtherRoleUnrestricted | src/app/dashboard/page.js:57-59 | any other role selection gives the same result as "all" |
| Dashboard.CountStatus | src/app/dashboard/page.js:285-288 | a status count is at most the number of items |
| Dashboard.SensorsKpi | src/app/dashboard/page.js:283-290 | total is the filtered length; error, warning, success and unconfigured count the items whose status is alert, warning, ok, and offline or unknown; disconnected counts the items without a value; every count is at most the total |
| Dashboard.CountsIgnoreOrder | src/app/dashboard/page.js:278-290 | reordering the items (as the sort by name does) changes neither the KPIs nor the number of alerting items |
| Dashboard.CountStatusUnion | src/app/dashboard/page.js:285-288 | counts over disjoint status sets add up to the count over their union |
| Dashboard.KpiDisjointSum | src/app/dashboard/page.js:283-290 | alert + warning + ok + offline/unknown counts are at most the total |
| Dashboard.ColorsMatchKpi | src/app/dashboard/page.js:253-257 | on normalised items the red, orange and gray tiles number exactly the error, warning and unconfigured KPIs |
| Dashboard.NoticeFor | src/app/dashboard/page.js:176-185 | an entry carries the item's id, name, kind and status; its type is `error` exactly when the status is `alert`, else `warning` |
| Dashboard.Alerting | src/app/dashboard/page.js:175 | the items notifications are built for all satisfy `isAlertStatus` |
| Dashboard.BuildNotifications | src/app/dashboard/page.js:172-189 | one entry per item accepted by `isAlertStatus`, in input order, with ids 1..n |
| Dashboard.AlertingOrdered | src/app/dashboard/page.js:174-175 | the alerting items are an ordered subsequence of the input, containing every alerting input item |
| Dashboard.BuiltAreErrorsAndWarnings | src/app/dashboard/page.js:183 | a built list holds only `error` and `warning` entries |
| Dashboard.FilterBySeverity | src/app/dashboard/page.js:603-605 | "all" returns the list unchanged; any other key keeps only entries of that type |
| Dashboard.SeverityMembership | src/app/dashboard/page.js:603-605 | any key other than "all" keeps exactly the entries of that type, in order |
| Dashboard.SeverityCounts | src/app/dashboard/page.js:590-594 | on a built list the Critical and Warning counts add up to the length, and Info is empty |
| Dashboard.Dismiss | src/app/dashboard/page.js:628-629 | no entry with the id remains, `notifications` is the remaining length, and the other fields are unchanged |
| Dashboard.DismissKeepsOthers | src/app/dashboard/page.js:628-629 | every other entry is kept, in order, and dismissing the same id twice is dismissing once |
| Dashboard.DismissRemovesOne | src/app/dashboard/page.js:628-629 | in a list with ids 1..n, dismissing an existing id removes exactly one entry |
| Dashboard.KeyOf | src/app/dashboard/page.js:301 | the key is `user_id` when present, else the lower-cased e-mail, and none when both are missing |
| Dashboard.KeysInMembership | src/app/dashboard/page.js:300-303 | a key is collected exactly when some entry of the list has it |
| Dashboard.CountUsers | src/app/dashboard/page.js:292-309 | the count is the number of distinct keys over all access lists, less the current user's lower-cased e-mail |
| Dashboard.CurrentEmailNotCounted | src/app/dashboard/page.js:307 | the current user's lower-cased e-mail is never counted |
| Dashboard.EmailCaseMerged | src/app/dashboard/page.js:301 | e-mails that differ only in case count as one user |
| Dashboard.CurrentUserWithIdCounted | src/app/dashboard/page.js:301-307 | an entry with a user id is keyed by the id, so the current user's own entry is then still counted |
| Dashboard.Split | src/app/dashboard/page.js:376 | `split` gives at least one piece, and no piece contains the separator |
| Dashboard.SplitJoin | src/app/dashboard/page.js:376 | joining the pieces with the separator gives back the original string |
| Dashboard.FirstPiece | src/app/dashboard/page.js:139 | the first piece is the text before the first separator, or the whole string |
| Dashboard.LocalPart | src/app/dashboard/page.js:139 | `email.split("@")[0]` is a prefix without `@`, followed by `@` when shorter than the address |
| Dashboard.NonEmpty | src/app/dashboard/page.js:376 | the test holds exactly for the pieces that have a first character |
| Dashboard.FirstLetters | src/app/dashboard/page.js:376 | one letter per non-empty word, in order: the k-th letter is the first character of the k-th non-empty word |
| Dashboard.Initials | src/app/dashboard/page.js:376 | as many characters as there are non-empty words, at most two; the k-th is the upper-cased first character of the k-th non-empty space-separated word |
| Dashboard.InitialsHaveNoSpace | src/app/dashboard/page.js:376 | the initials never contain a space |
| Dashboard.InitialsOfTwoWords | src/app/dashboard/page.js:376 | any two non-empty words one space apart give their two upper-cased first letters |
| Dashboard.SplitPair | src/app/dashboard/page.js:376 | two separator-free pieces joined by the separator split back into exactly those pieces |
| Dashboard.NoSeparatorOnePiece | src/app/dashboard/page.js:376 | a string without the separator is one piece |
| Dashboard.SplitAtFirst | src/app/dashboard/page.js:376 | the first separator ends the first piece |
| Dashboard.SplitTwoWords | src/app/dashboard/page.js:376 | `ann lee` splits into its two words |
| Dashboard.InitialsExamples | src/app/dashboard/page.js:376 | `ann lee` gives `AL`; an empty name gives nothing |
| Dashboard.TickValuesShape | src/app/dashboard/page.js:390-394 | the ticks are `max`, `max - step`, …, each at least `min`, and the next step would fall below `min` |
| Dashboard.Ticks | src/app/dashboard/page.js:390-394 | the loop produces exactly the tick values from `max` down to `min` |
| Dashboard.AxisTicks | src/app/dashboard/page.js:18-22 | the Fahrenheit and humidity axes tick 100..-25 by 25; the Celsius axis ticks 40..-30 by 10 |
| DashboardPage.RowsOrEmpty | src/app/dashboard/page.js:209 | `sensorRows \|\| []` |
| DashboardPage.DisplayName | src/app/dashboard/page.js:139 | the header name is never empty: it is the e-mail's local part when that is non-empty, and "User" in every other case (no user, no e-mail, or an empty local part as in `@x.io`) |
| DashboardPage.DisplayNameIsLocalPart | src/app/dashboard/page.js:139 | `local@domain` is shown as `local` |
| DashboardPage.EmailOf | src/app/dashboard/page.js:140 | the current e-mail is the user's e-mail when it is present and non-empty, else none |
| DashboardPage.DashboardView.constructor | src/app/dashboard/page.js:66-104 | every field starts at its `useState` default |
| DashboardPage.DashboardView.StartSessionCheck | src/app/dashboard/page.js:119-124 | without a token the page redirects to `/login` and sends nothing; otherwise it sends the stored token |
| DashboardPage.DashboardView.SessionVerified | src/app/dashboard/page.js:126-168 | a refused token is removed before the redirect; a network or parse failure reports the error and redirects but keeps the token; acceptance sets the name and the e-mail |
| DashboardPage.DashboardView.LoadDashboardData | src/app/dashboard/page.js:203-325 | keeps the name-sorted items (any reordering of the normalised rows); builds KPIs and numbered notifications over the visible sorted items, so ids follow the sorted order; the KPIs and the notification count equal those over the rows in their original order; counts users from one access list per row; on failure only sets the error; the page invariant is kept |
| DashboardPage.DashboardView.DismissNotice | src/app/dashboard/page.js:628-629 | the data becomes `Dismiss(old data, id)` and the page invariant is kept |
| DashboardPage.DashboardView.ShownNotifications | src/app/dashboard/page.js:603-605 | under "all" the whole list is shown, and every shown entry is a stored one |
| DashboardPage.DashboardView.SelectSeverity | src/app/dashboard/page.js:578 | the selected severity is the button's key |
| DashboardPage.ShownAreStored | src/app/dashboard/page.js:603-605 | every entry shown under a severity is a stored entry |
| DashboardPage.DismissKeepsErrorsAndWarnings | src/app/dashboard/page.js:628-629 | after dismissal the list still holds only errors and warnings |
| DashboardPage.BadgeAddsUp | src/app/dashboard/page.js:590-594 | with the page invariant, the Critical and Warning counts add up to the badge count and Info shows nothing |

Notes on the code as written, which the model follows:

- **The dashboard guard keeps the token on a network or parse failure.** It removes the stored token only on a refused (non-`ok`) reply. When the fetch or `response.json()` throws, the `catch` redirects to `/login` and the token stays (`src/app/dashboard/page.js:164-167`).
- **A new cooldown never stops the old interval.** Starting a new cooldown starts a new interval and leaves the old ones running. The model therefore counts intervals, and `Valid` only promises that some interval is left while a cooldown is positive.
- **The resend handlers check only the cooldown.** While a resend is in flight, only the disabled button prevents a second one, and the rendering is not modelled.
- **The current user is excluded by e-mail only.** An access entry that carries a `user_id` is keyed by that id, so the current user's own entry is still counted (`Dashboard.CurrentUserWithIdCounted`).
- **A successful login reply without a token** shows "Login successful! Please try again." and stores nothing.

## Left out

- `fetch`, `localStorage` and `router.push` are replaced by the reply parameters, the `TokenStore` and the `navigations` sequence. The request bodies appear only as `Request` values.
- The Google Sign-In script loading and callback (`src/app/login/page.js:116-185`) are foreign APIs.
- The wall-clock delays of `setTimeout`/`setInterval` (1 s, 2 s, 5 s, 15 s polling, 60 s) are not modelled. Intervals and timeouts are events that the environment may fire in any order.
- Device fingerprint generation (`crypto.subtle`, canvas, `btoa`) is replaced by `FingerprintReady` with the resulting value.
- `Promise.all` over the share requests is modelled as a sequential fold. A request that fails contributes an empty access list.
- `DashboardPage.DashboardView.LoadDashboardData`: the `localeCompare` comparator of the sort by name (`src/app/dashboard/page.js:278`) is locale-dependent and is not modelled. The sorted items are a parameter, and the only requirement on them is that they reorder the normalised rows. So the model does not pin which permutation the sort picks. The sorts in the charts are not modelled either.
- Temperature conversion, `Math.round`, `toFixed`, `toHeight`, `fmtDate` and the display strings are floating point and locale formatting. Items carry only whether they have a value, and `Ticks` returns the values without `tickFmt`.
- Notification titles, descriptions and dates are left out. `getStatusDisplay` and `isAlertStatus` come from a module outside this model; `isAlertStatus` is a parameter.
- Loading the user preferences after the session check (`src/app/dashboard/page.js:143-163`) is left out, as is the 15 s reload that rebuilds the notification list.
- JSX rendering, styling, dark mode, outside-click handlers, the form field setters, and the back/cancel buttons (`src/app/login/page.js:965-969, 1018-1027`).
- `Text.ToLower`/`Text.ToUpper` map ASCII letters only. JavaScript also case-maps other scripts, and `toUpperCase` can change a string's length.
- `Dashboard.Initials`: `w[0]` and `slice(0, 2)` count UTF-16 code units. The model takes whole characters, so a name starting with a supplementary-plane character differs.
- `err?.message || String(err)`: an error whose message is empty would show `String(err)`. The model shows the message itself.
- React's render batching and stale closures are not modelled. Each handler reads the state the previous event left. The dismiss button's filter of the rendered list is modelled as a filter of the current list.
