# EMGS portal — a verified model of its accounts, access gate and reports

The EMGS portal is a Next.js application with two kinds of staff accounts,
workers and leaders. A visitor signs up with name, email, password and role.
The portal mails a six-digit one-time code (OTP). The visitor confirms the
code on the OTP page and then signs in. The session is a JWT kept in an
`httpOnly` cookie named `token`. An edge middleware lets workers into
`/workers/...` and leaders into `/leaders/...` and nobody else.

Workers pick a department card from a searchable list and fill in a daily
report: five Yes/No answers and four free-text answers. Reports are stored in
MongoDB. A leader lists the reports of their first department, newest first,
and sees each rating as a word and five stars. Leaders can also mail a
summary report. A weekly attendance grid (`Fillinform`) keeps its state in
React.

This project models those parts in Dafny, one module per source file:

| module | source |
|---|---|
| `Text` | string built-ins the routes and pages rely on (`trim`, `toLowerCase`, `includes`, `replace`, number to decimal string) |
| `Otp` | `generateOTP` / `generateOTPWithExpiry` |
| `UserModel` | the `User` schema: setters, validators, defaults, pre-save hashing, `comparePassword` |
| `Session` | the JWT claims and the session cookie |
| `Auth` | the signup, verify-otp and resend-otp routes over a user store (`class UserStore`) |
| `SignIn` | the signin route and its department landing pages |
| `AccessGate` | `middleware.js` and its matcher |
| `ReportModel` | the `WorkerReport` schema |
| `ReportRoutes` | `api/workerReport` (POST and GET) and `api/workerReports` (POST) over a report store (`class ReportStore`) |
| `LeaderReport` | `api/leader-report`, the leader summary mail |
| `SignupPage`, `OtpPage` | the signup form and the OTP page |
| `WorkerForms` | the parcel-worker and customer-care report forms |
| `DepartmentSearch` | the worker and leader department pickers |
| `Ratings` | rating labels, stars and fallbacks on the leader pages |
| `Fillinform` | the weekly attendance grid |

Modelling conventions:
- Time is an `int` of milliseconds passed in by the caller.
- `Math.random()` becomes a parameter `n < 900000`, so the code is `100000 + n`.
- bcrypt becomes two parameters, `hash` and `matches`.
- JWT verification is a parameter `verify: string -> Option<Claims>`.
- Sending a mail is a parameter `mailOk` that says whether it succeeded.
- The user collection is a map keyed by the stored email. A lookup by email
  normalises the query (lower-case, trimmed), because Mongoose applies the
  schema's setters to query filters.
- The report collection is a sequence in insertion order.
- A report's `reportDate` is `Option<int>`: `None` stands for a missing,
  empty or unparsable date.
- `rating` is `Option<real>`.

`departments` and `lastOtpSentAt` are read and written by the routes but are
not declared in the `User` schema (`src/models/User.js:4-59`). The model
keeps both as optional fields of `User`. `None` is the value a record created
by signup has. `None` is also what the routes read back from a document under
Mongoose's strict schema.

## Model

| member | source | states |
|---|---|---|
| Otp.GenerateOtp | src/app/api/signup/route.js:8-9 | the code is six decimal digits, first digit non-zero, with value 100000 + n |
| Otp.GenerateOtpInjective | src/app/api/generate-otp/route.js:7-11 | distinct random draws give distinct codes, and equal codes come from equal draws |
| Otp.GenerateOtpWithExpiry | src/app/api/generate-otp/route.js:18-22 | the code is well formed and expires exactly `minutes` minutes after `now`, so in the future for a positive duration |
| Otp.DefaultExpiryIsTenMinutes | src/app/api/generate-otp/route.js:18-22 | the default expiry is now + 600000 ms, the same lifetime the routes use |
| Text.Lower | src/app/workers/page.js:98-100 | same length; each character is lower-cased (ASCII) |
| Text.LowerIdempotent | src/app/workers/page.js:98-100 | lower-casing twice is lower-casing once |
| Text.IsSpace | src/models/User.js:6-17 | the characters `trim` removes: the ECMAScript WhiteSpace characters (tab, vertical tab, form feed, space, no-break space, byte-order mark and every space separator) and the four LineTerminator characters |
| Text.Trim | src/models/User.js:6-17 | the result is a contiguous slice of the input without whitespace at either end; it is empty iff the input is all whitespace |
| Text.TrimmedSliceUnique | src/models/User.js:6-17 | any slice with only whitespace before and after it and none at its ends is exactly the trimmed string, so trimming removes exactly the surrounding whitespace |
| Text.TrimIdempotent | src/models/User.js:6-17 | trimming twice is trimming once |
| Text.LeadingSpaces | src/models/User.js:6-17 | counts exactly the maximal run of whitespace at the start |
| Text.TrailingSpaces | src/models/User.js:6-17 | counts exactly the maximal run of whitespace at the end |
| Text.ReplaceFirst | middleware.js:7-9 | a string that starts with the pattern has that prefix replaced; a string without the pattern is unchanged |
| Text.ReplaceFirstAtFirstOccurrence | middleware.js:7-9 | when the first occurrence of the pattern is at index i, the result is the text before i, the replacement, then the text after that occurrence |
| Text.EveryStringContainsEmpty | src/app/workers/page.js:98-100 | `includes("")` holds for every string |
| Text.DecimalString | src/app/components/workersform/Fillinform.js:16-20 | a number's decimal form is a non-empty digit string |
| Text.DecimalRoundTrip | src/app/api/generate-otp/route.js:7-11 | reading back the decimal form of n gives n |
| Text.DecimalLength | src/app/api/generate-otp/route.js:7-11 | a number in [10^k, 10^(k+1)) has k+1 digits |
| Text.DecimalNoLeadingZero | src/app/api/generate-otp/route.js:7-11 | a positive number's decimal form has no leading zero |
| Text.DigitValue | src/app/api/generate-otp/route.js:7-11 | digit value and digit character are inverse |
| Text.PrefixOfSubsequence | src/app/otp-page/page.js:99-101 | a prefix of a subsequence is a subsequence |
| UserModel.NormalizeEmail | src/models/User.js:11-17 | the stored email has no upper-case letter, no whitespace at either end and is no longer than the input; it is empty iff the input is blank |
| UserModel.NormalizeEmailTrimsLowered | src/models/User.js:11-17 | the stored email is the lower-cased input with exactly its surrounding whitespace removed: any slice of the lower-cased input with only whitespace around it and none at its ends is the stored email |
| UserModel.NormalizeEmailIdempotent | src/models/User.js:11-17 | normalising a stored email again changes nothing, so lookups by stored email find the record |
| UserModel.ValidRole | src/models/User.js:18-22 | the role enum: exactly "worker" or "leader" |
| UserModel.PasswordPattern | src/models/User.js:28-35 | the regex validator: a lower-case letter, an upper-case letter, a digit and one of `@$!%*?&` each occur before the first line terminator |
| UserModel.PasswordPolicy | src/models/User.js:23-35 | `minlength` 8 and `maxlength` 12 together with the regex validator |
| UserModel.PasswordPolicyNeedsEveryClass | src/models/User.js:23-35 | an accepted password contains a lower-case letter, an upper-case letter, a digit and a special character |
| UserModel.PasswordPolicyOnSingleLine | src/models/User.js:23-35 | for a password without line breaks: accepted iff 8 to 12 characters long with all four character classes |
| UserModel.FirstLine | src/models/User.js:28-31 | the part of the password the regex lookaheads scan: a prefix up to the first line terminator |
| UserModel.FirstLineOfSingleLine | src/models/User.js:28-31 | a password without line terminators is scanned whole |
| UserModel.ScenarioPasswordAccepted | src/models/User.js:23-36 | "Abc12345!" satisfies length 8-12 and all four character classes |
| UserModel.ClassesAfterLineBreakRejected | src/models/User.js:28-31 | character classes that appear only after a line break do not count, so "ab\nC1234!" is rejected |
| UserModel.ValidDocument | src/models/User.js:4-36 | what `save()` validates: name, email and password non-empty after the setters, the role in the enum, and the password policy |
| UserModel.NewUserDocument | src/app/api/signup/route.js:36-51 | the new document has a trimmed name, a normalised email, the given OTP and expiry, is unverified and has no reset token |
| UserModel.DefaultDocument | src/models/User.js:37-56 | the defaults: no OTP, no expiry, unverified, no reset token |
| UserModel.NewUserDocumentIsDefaultWithOtp | src/models/User.js:37-56 | the document signup creates equals the schema defaults with only the code and its expiry set |
| UserModel.PreSave | src/models/User.js:62-73 | a modified password is replaced by its hash and nothing else changes; an unmodified document is saved as is |
| UserModel.ComparePassword | src/models/User.js:76-78 | the comparison succeeds iff bcrypt matches the entered password against the stored hash |
| UserModel.HashedPasswordCompares | src/models/User.js:62-78 | after pre-save hashing, the original password compares true |
| Session.SessionCookie | src/app/api/signin/route.js:73-92 | the cookie is `token`, `httpOnly`, `sameSite=strict`, path `/`, and `secure` only in production |
| Auth.CheckOtp | src/app/api/verify-otp/route.js:26-33 | wrong code iff the stored code differs; expired iff it matches and the expiry lies before now; accepted otherwise |
| Auth.MarkVerified | src/app/api/verify-otp/route.js:36-41 | sets verified and clears code and expiry, leaving every other field unchanged |
| Auth.VerifiedRejectsEveryCode | src/app/api/verify-otp/route.js:26-41 | once verified, no code is accepted again |
| Auth.IssuedCodeAcceptedUntilExpiry | src/app/api/verify-otp/route.js:26-33 | a freshly issued code is accepted up to and including 600000 ms later and expired after that |
| Auth.MarkVerifiedKeepsInvariant | src/app/api/verify-otp/route.js:36-41 | marking verified keeps "a code is pending iff an expiry is set" |
| Auth.InsertKeepsInvariant | src/app/api/signup/route.js:28-51 | inserting a fresh user under a new email with the next id keeps the store invariant: keys are stored emails, ids are unique and below the counter |
| Auth.RemoveInserted | src/app/api/signup/route.js:88-97 | deleting the just-inserted user restores the earlier store |
| Auth.ReplaceKeepsInvariant | src/app/api/verify-otp/route.js:36-41 | replacing a record in place under the same email and id keeps the store invariant |
| Auth.Reissue | src/app/api/resend-otp/route.js:34-41 | new code, expiry now + 10 min and a send time of now; every other field is unchanged |
| Auth.ReissueRestartsCooldown | src/app/api/resend-otp/route.js:25-41 | after a resend, the next resend is refused iff it comes within 60000 ms |
| Auth.CooldownActive | src/app/api/resend-otp/route.js:24-32 | the 429 test: a send time is recorded and less than 60000 ms have passed since it |
| Auth.NoPreviousSendNeverLimited | src/app/api/resend-otp/route.js:25-32 | a user with no recorded send time is never refused with 429 |
| Auth.ReissueAsWritten | src/app/api/resend-otp/route.js:34-41 | the resend as written: the new code and expiry are saved and the send time is not |
| Auth.AsWrittenResendNeverLimited | src/app/api/resend-otp/route.js:25-41 | as written, a user who signed up is never rate-limited, even right after a resend; the intended update would limit them |
| Auth.SignupDocument | src/app/api/signup/route.js:36-51 | the signup document holds a six-digit code expiring in 10 min, is unverified, has no departments, and satisfies the OTP invariant |
| Auth.SignupCookie | src/app/api/signup/route.js:99-104 | the signup token carries id and role (no email), and the cookie lasts 604800 s |
| Auth.UserStore.constructor | src/app/api/signup/route.js:28-51 | an empty store satisfies the invariant |
| Auth.UserStore.Signup | src/app/api/signup/route.js:18-135 | 400 for a missing field or a taken email; 500 when validation fails; when the mail fails the user is removed again (500); otherwise the hashed document is stored and 201 returns profile and cookie |
| Auth.UserStore.VerifyOtp | src/app/api/verify-otp/route.js:12-55 | 400 when fields are missing, 404 for an unknown email, 400 for a wrong or expired code; otherwise the user is marked verified and the profile returned |
| Auth.UserStore.ResendOtp | src/app/api/resend-otp/route.js:14-51 | the corrected route: 400 without email; 404 for an unknown user; "already verified"; 429 within 60 s of the recorded send; otherwise a new code is saved through the corrected Auth.Reissue, which also records the send time, whether or not the mail succeeds |
| SignIn.RedirectFor | src/app/api/signin/route.js:8-21 | one department known to `DepartmentRoutes` leads to its page; anything else leads to `/workers` |
| SignIn.RedirectTargetsAreWorkerPaths | src/app/api/signin/route.js:8-21 | every sign-in landing page lies under `/workers` |
| SignIn.SignIn | src/app/api/signin/route.js:27-92 | 400 for a missing field, 401 for an unknown email, 403 for an unverified account before any password check, 401 for a wrong password; otherwise a seven-day token with id, email and role in a session cookie |
| SignIn.UnknownEmailIndistinguishableFromWrongPassword | src/app/api/signin/route.js:37-56 | an unknown email and a wrong password give identical responses |
| SignIn.UnverifiedRefusedRegardlessOfPassword | src/app/api/signin/route.js:44-49 | an unverified account gets the same 403 whatever password is tried |
| SignIn.SignupThenVerifyThenSignIn | src/app/api/signin/route.js:35-71 | signup, then the mailed code within 10 min, then sign-in with the signup password succeeds and lands on `/workers` |
| AccessGate.IsProtected | middleware.js:14-22 | some prefix of the flattened `protectedPaths` starts the path |
| AccessGate.ProtectedIff | middleware.js:14-22 | a path is protected iff it starts with `/workers` or `/leaders` |
| AccessGate.PresentedToken | middleware.js:7-9 | the cookie token wins when non-empty; otherwise the header with its first `Bearer ` removed, when non-empty |
| AccessGate.BearerHeaderYieldsCredential | middleware.js:7-9 | `Authorization: Bearer c` without a cookie presents exactly `c` |
| AccessGate.AreaRole | middleware.js:38-44 | a path has an owning role iff it is protected |
| AccessGate.AreasDisjoint | middleware.js:38-44 | no path lies in both areas |
| AccessGate.Middleware | middleware.js:6-54 | no token on a protected path goes to `/signin` with the path as its `redirect` parameter; a bad token goes to `/signin`; the wrong role goes to the other area; it passes iff there is no token on an open path or a valid token whose role owns the area |
| AccessGate.RedirectTargets | middleware.js:25-49 | every redirect goes to `/signin`, `/workers` or `/leaders` |
| AccessGate.MatcherApplies | middleware.js:56-58 | `/workers/:path*` and `/leaders/:path*`: the area root itself or anything below it after a `/` |
| AccessGate.MatchedPathsAreProtected | middleware.js:56-58 | every path the matcher sends through the middleware is protected |
| AccessGate.Gate | middleware.js:56-58 | paths outside the matcher pass untouched; matched paths get the middleware's decision |
| AccessGate.GatePassesOnlyOwners | middleware.js:6-58 | a matched path passes iff a valid token is presented whose role owns the area |
| ReportModel.IsAnswer | src/models/WorkerReport.js:23-27 | an answer is "Yes" or "No" |
| ReportModel.Declared | src/models/WorkerReport.js:21-34 | the declared response keys are q1-q5 and text1-text4 |
| ReportModel.AnswersValid | src/models/WorkerReport.js:22-27 | each of q1-q5 is present and is "Yes" or "No" |
| ReportModel.ValidReport | src/models/WorkerReport.js:4-42 | what the schema accepts: a user, a non-empty department, a date, five valid answers, and a rating unset or within 1..5 |
| ReportModel.CastResponses | src/models/WorkerReport.js:21-34 | undeclared keys are dropped, declared keys kept, and missing texts default to "" |
| ReportModel.NewReport | src/models/WorkerReport.js:3-52 | a new report has no rating, an empty comment and createdAt now; it passes validation iff user, department, date and all five Yes/No answers are present |
| ReportRoutes.FindById | src/app/api/workerReport/route.js:70-74 | finds a user iff one has the id, and returns that user |
| ReportRoutes.Authenticate | src/app/api/workerReport/route.js:15-26 | classifies the caller: no token, a bad token, an unknown user, or the user the token names |
| ReportRoutes.AppendKeepsInvariant | src/app/api/workerReport/route.js:38-43 | appending a valid report with the next id keeps ids unique and every stored report valid |
| ReportRoutes.AutoDepartment | src/app/api/workerReports/route.js:30-31 | one department is used as is; otherwise "Multiple Choice"; no list gives none |
| ReportRoutes.AutoDepartmentNonEmpty | src/app/api/workerReports/route.js:30-31 | a list of non-empty names always yields a non-empty department |
| ReportRoutes.AutoReportAsWritten | src/app/api/workerReports/route.js:34-39 | the create as written: the `user` reference is not stored |
| ReportRoutes.AutoReportAsWrittenNeverValid | src/app/api/workerReports/route.js:34-39 | as written, no report created by this route passes validation |
| ReportRoutes.AutoReport | src/app/api/workerReports/route.js:34-39 | the corrected create stores the user; it passes validation iff department, date and answers are present |
| ReportRoutes.AutoReportValidWhenComplete | src/app/api/workerReports/route.js:27-39 | with departments recorded and a complete form, the corrected create passes validation |
| ReportRoutes.Matches | src/app/api/workerReport/route.js:84-86 | `{ department: dept }`: the report's department equals `dept`, and every report matches when `dept` is undefined |
| ReportRoutes.Select | src/app/api/workerReport/route.js:85-89 | the selection holds exactly the reports of the department, each as many times as stored |
| ReportRoutes.InsertNewestFirst | src/app/api/workerReport/route.js:87-89 | inserting into a newest-first list keeps it newest first and adds exactly one element |
| ReportRoutes.SortNewestFirst | src/app/api/workerReport/route.js:87-89 | the result is ordered by createdAt descending and is a permutation of the input |
| ReportRoutes.FirstDepartment | src/app/api/workerReport/route.js:85 | the first department iff the list is non-empty |
| ReportRoutes.LeaderReports | src/app/api/workerReport/route.js:59-99 | 401 without a token, 500 for a bad token, 404 for an unknown user, 403 for non-leaders, 500 without departments; otherwise exactly the first department's reports, newest first |
| ReportRoutes.SelectIgnoresOtherDepartment | src/app/api/workerReport/route.js:85-89 | a report of another department does not change the selection |
| ReportRoutes.ListingIgnoresOtherDepartments | src/app/api/workerReport/route.js:59-99 | adding a report of another department leaves a leader's listing unchanged |
| ReportRoutes.ReportListedForItsLeader | src/app/api/workerReport/route.js:59-99 | every stored report of a leader's first department appears in that leader's listing |
| ReportRoutes.ReportStore.constructor | src/app/api/workerReport/route.js:38-43 | an empty store satisfies the invariant |
| ReportRoutes.ReportStore.Submit | src/app/api/workerReport/route.js:11-56 | 401, 500 for a bad token, 404, 400 "Department is required", 500 when validation fails; otherwise the report is appended and returned with 201 |
| ReportRoutes.ReportStore.SubmitAuto | src/app/api/workerReports/route.js:11-51 | 401, 500 for a bad token, 404, 500 without departments or when validation fails; otherwise the corrected report is appended |
| LeaderReport.Subject | src/app/api/leader-report/route.js:52 | the subject starts with "New Leader Report – " |
| LeaderReport.SubjectNamesDepartment | src/app/api/leader-report/route.js:52 | the rest of the subject is exactly the department |
| LeaderReport.ReportMail | src/app/api/leader-report/route.js:30-52 | the mail has six labelled lines in order, and a summary that falls back to a stand-in |
| LeaderReport.SubmitLeaderReport | src/app/api/leader-report/route.js:7-63 | 400 iff one of the six required fields is empty; otherwise the mail is sent (200) or sending fails (500) |
| LeaderReport.SentMailHasNoBlankLine | src/app/api/leader-report/route.js:9-47 | every line of a sent mail has a non-empty value |
| LeaderReport.SummaryIsOptional | src/app/api/leader-report/route.js:7-47 | dropping the summary neither rejects the request nor changes anything but the summary line |
| SignupPage.SubmitSignup | src/app/page.js:31-52 | no role alerts first, then mismatched passwords alert; it posts iff both checks pass, with the form's fields and no departments |
| SignupPage.PostedBodyHasRole | src/app/page.js:43-52 | a posted form fails the route's field check iff name, email or password is empty |
| SignupPage.AfterSignup | src/app/page.js:57-69 | success stores email and role and keeps every other key; failure shows the route's message or "Signup failed" |
| OtpPage.Digits | src/app/otp-page/page.js:99-101 | keeps exactly the digits of the input, with multiplicity |
| OtpPage.DigitsIsSubsequence | src/app/otp-page/page.js:99-101 | the digits keep their order |
| OtpPage.DigitsOfDigits | src/app/otp-page/page.js:99-101 | a digit string is left as it is |
| OtpPage.Sanitize | src/app/otp-page/page.js:99-101 | at most six digits: the first six digits of the input, or all of them if fewer |
| OtpPage.SanitizeIsSubsequence | src/app/otp-page/page.js:99-101 | the sanitised input is a subsequence of what was typed |
| OtpPage.SanitizeIdempotent | src/app/otp-page/page.js:99-101 | sanitising twice is sanitising once |
| OtpPage.SubmitOtp | src/app/otp-page/page.js:15-34 | refused iff the code is not six characters; otherwise posts the stored email (or "") with the code |
| OtpPage.PostedCodeIsWellFormed | src/app/otp-page/page.js:22-34 | every code the page posts is six decimal digits |
| OtpPage.AfterVerify | src/app/otp-page/page.js:39-48 | success removes the stored email and role and keeps the rest; failure shows the message or "Invalid OTP" |
| OtpPage.SignupThenVerifyRestoresStorage | src/app/otp-page/page.js:44-48 | signup followed by verification leaves local storage as before, minus the two keys |
| WorkerForms.AllDepartmentsDistinct | src/app/workers/parcelworker/page.js:14-27 | `AllDepartments`, the fallback list, holds twelve distinct department names |
| WorkerForms.FormNamesHaveNoLandingPage | src/app/workers/parcelworker/page.js:14-27 | none of the form's department names is a sign-in route key, so a user with one of them lands on `/workers` |
| WorkerForms.BlankResponses | src/app/workers/parcelworker/page.js:31-44 | the blank form has exactly the nine answer keys, all empty |
| WorkerForms.InitialForm | src/app/workers/parcelworker/page.js:31-49 | empty date, department and submitter, blank answers, all departments offered |
| WorkerForms.ChooseOptions | src/app/workers/parcelworker/page.js:57-71 | a non-empty department list is offered and preselects its first entry; otherwise all departments are offered; the submitter is the name, else the full name |
| WorkerForms.ParcelMount | src/app/workers/parcelworker/page.js:57-78 | no stored user changes nothing; a parse failure offers all departments and clears the submitter |
| WorkerForms.CustomerCareMount | src/app/workers/customer-care/page.js:49-67 | as the parcel page, except that a parse failure keeps the submitter |
| WorkerForms.MountsAgreeOnFreshForm | src/app/workers/customer-care/page.js:49-67 | on a fresh form both pages mount to the same state |
| WorkerForms.FallbackOffersEveryDepartment | src/app/workers/parcelworker/page.js:62-77 | without a stored department list every department is offered and none is preselected |
| WorkerForms.UpdateResponse | src/app/workers/parcelworker/page.js:87-92 | sets one answer and changes nothing else |
| WorkerForms.SubmitForm | src/app/workers/parcelworker/page.js:98-118 | refused iff no department is chosen; otherwise posts date, answers and department |
| WorkerForms.AfterSubmit | src/app/workers/parcelworker/page.js:123-151 | success clears date and answers, keeps the department and names it in the message; failure keeps the form and shows the message or "Failed to submit report." |
| WorkerForms.AnsweredFormMakesValidReport | src/app/workers/parcelworker/page.js:98-118 | a form with a department, a date and five Yes/No answers yields a report that passes validation |
| WorkerForms.ResetFormFailsValidation | src/app/workers/parcelworker/page.js:138-151 | resubmitting the reset form is rejected by the schema |
| DepartmentSearch.MatchesSearch | src/app/workers/page.js:98-100 | the lower-cased card name contains the lower-cased search text |
| DepartmentSearch.SearchCards | src/app/workers/page.js:98-100 | exactly the matching cards, in their original order and multiplicity |
| DepartmentSearch.ShownIffMatches | src/app/workers/page.js:98-100 | a card is shown iff its name contains the search text, ignoring case |
| DepartmentSearch.EmptySearchShowsAll | src/app/workers/page.js:98-100 | an empty search shows every card |
| DepartmentSearch.SearchIgnoresCase | src/app/leaders/page.js:91-93 | the search text's case does not matter |
| DepartmentSearch.SameMatchesSameResult | src/app/leaders/page.js:91-93 | two searches matching the same cards show the same list |
| DepartmentSearch.WorkerPicker | src/app/workers/page.js:98-158 | the filtered worker cards, with "No departments found." iff none match |
| DepartmentSearch.LeaderPicker | src/app/leaders/page.js:91-122 | the filtered leader cards, with "No leader departments found." iff none match |
| DepartmentSearch.EmptySearchShowsEveryWorkerCard | src/app/workers/page.js:7-100 | with no search, all twelve cards of `WorkerCards` show and no message |
| DepartmentSearch.EmptySearchShowsEveryLeaderCard | src/app/leaders/page.js:6-93 | with no search, all twelve cards of `LeaderCards` show and no message |
| DepartmentSearch.WorkerCardsMatchLandingPages | src/app/workers/page.js:7-92 | each worker card links to the page sign-in uses for that department |
| Ratings.RatingLabel | src/app/leaders/customerserviceLeader/page.js:8-23 | ratings 1-5 get Poor, Fair, Average, Good, Excellent; anything else gets no label |
| Ratings.LabelsDistinguishRatings | src/app/components/leadersform/leaderDashboard.js:33-48 | two ratings with the same non-empty label are equal |
| Ratings.RatingText | src/app/leaders/customerserviceLeader/page.js:141 | "Not rated" for a missing or zero rating; otherwise the label |
| Ratings.StoredRatingTextNeverBlank | src/app/leaders/customerserviceLeader/page.js:141 | a stored whole rating always shows a non-empty text |
| Ratings.Stars | src/app/leaders/customerserviceLeader/page.js:127-136 | five stars, star i filled iff the rating is at least i |
| Ratings.CountFilled | src/app/leaders/customerserviceLeader/page.js:127-136 | never more filled stars than stars |
| Ratings.CountFilledOfFive | src/app/leaders/customerserviceLeader/page.js:127-136 | five stars count as the sum of their fills |
| Ratings.FilledStarsArePrefix | src/app/leaders/customerserviceLeader/page.js:127-136 | filled stars come before empty ones |
| Ratings.FilledCountIsRating | src/app/leaders/customerserviceLeader/page.js:127-136 | a rating of k shows k filled stars; no rating shows none |
| Ratings.FillRulesAgreeOnWholeRatings | src/app/components/leadersform/leaderDashboard.js:91-100 | the dashboard's `i < rating` and the leader page's `rating >= i+1` fill the same stars for whole ratings |
| Ratings.FillRulesDifferOnFractions | src/app/components/leadersform/leaderDashboard.js:91-100 | for 2.5 the two rules differ on the third star |
| Ratings.SubmitterLabel | src/app/leaders/customerserviceLeader/page.js:96-100 | name, else full name, else email, else "Worker"; never empty |
| Ratings.SummaryText | src/app/leaders/customerserviceLeader/page.js:119-121 | the first non-empty of text1 and text2, else a stand-in; never empty |
| Ratings.BlankAnswersShowStandIn | src/app/leaders/customerserviceLeader/page.js:119-121 | a report without text answers shows "No summary provided." |
| Ratings.SampleRatingsLabelled | src/app/components/leadersform/leaderDashboard.js:9-31 | every sample rating lies in 1-5 and has a label |
| Fillinform.InitialDays | src/app/components/workersform/Fillinform.js:6-14 | five weekdays with consecutive ids and the default fields |
| Fillinform.InitialWeeks | src/app/components/workersform/Fillinform.js:16-20 | four weeks "WEEK 1".."WEEK 4", week i starting at day id 5i+1 |
| Fillinform.InitialDayIds | src/app/components/workersform/Fillinform.js:6-20 | the twenty day ids are 1..20 and distinct across weeks |
| Fillinform.SlotNumberInjective | src/app/components/workersform/Fillinform.js:16-20 | the week and day position are recoverable from a day id |
| Fillinform.FindFirst | src/app/components/workersform/Fillinform.js:106-124 | the index of the first week (or day) with the id, or none iff none has it |
| Fillinform.DayAt | src/app/components/workersform/Fillinform.js:106-124 | the day found has the requested id |
| Fillinform.SameIdsSameLookups | src/app/components/workersform/Fillinform.js:91-124 | grids with the same ids answer every lookup alike |
| Fillinform.InitialState | src/app/components/workersform/Fillinform.js:31-34 | the initial state satisfies the grid invariant, with no custom names and no open prompt |
| Fillinform.Merge | src/app/components/workersform/Fillinform.js:91-104 | each field is the change where one is given, the old value otherwise; id and name are kept |
| Fillinform.UpdateDay | src/app/components/workersform/Fillinform.js:91-104 | exactly the days with the given week and day id are merged; ids are unchanged |
| Fillinform.UpdateDayKeepsSevenSlots | src/app/components/workersform/Fillinform.js:91-104 | seven-slot dropdown rows stay seven slots |
| Fillinform.SetSlot | src/app/components/workersform/Fillinform.js:106-124 | one slot replaced, length kept |
| Fillinform.SetDaySlot | src/app/components/workersform/Fillinform.js:106-124 | setting one slot keeps ids and the seven-slot shape |
| Fillinform.HandleDropdownChange | src/app/components/workersform/Fillinform.js:106-124 | choosing "add-name" in the first slot opens the prompt and blanks that slot; any other choice closes it and stores the value |
| Fillinform.DropdownChangeFrame | src/app/components/workersform/Fillinform.js:106-124 | only the chosen slot of the chosen day changes |
| Fillinform.AddNewName | src/app/components/workersform/Fillinform.js:126-140 | a blank or known name changes nothing; a new trimmed name is appended, the prompt is closed, and the prompting day's first slot gets it |
| Fillinform.RemoveName | src/app/components/workersform/Fillinform.js:142-145 | exactly the other names remain, in order, and stay duplicate-free |
| Fillinform.ClearName | src/app/components/workersform/Fillinform.js:146-154 | first slots holding the name are blanked; nothing else changes |
| Fillinform.DeleteCustomName | src/app/components/workersform/Fillinform.js:142-155 | the name leaves the list and every first slot holding it is blanked; all else is unchanged |
| Fillinform.AddThenDeleteRestoresNames | src/app/components/workersform/Fillinform.js:126-155 | adding a new name and deleting it restores the name list |
| Fillinform.RemoveAbsentAppended | src/app/components/workersform/Fillinform.js:142-145 | removing a name just appended restores the list |

## Left out

- JWT signing and verification, the secret, and bcrypt: these are parameters (`verify`, `hash`, `matches`).
- Mail transport, its credentials, sender and recipient addresses and HTML markup: only the subject, the labelled lines and whether sending succeeded are modelled.
- The MongoDB connection, `api/database`, `api/logout` and `api/leaderRate/[id]`: they are not part of this model.
- The concurrency of simultaneous requests: two signups with the same email could race past the duplicate check; the model runs one request at a time.
- Catch-all 500 responses for malformed JSON, database failures and non-string JSON fields: the request bodies are typed.
- Date parsing and `toLocaleString`: a report date is `Option<int>` and display formatting is not modelled.
- JSX rendering, animations, dark mode, timers and click-outside listeners of the pages.
- The leader dashboard's fetch of live reports: it shows fixed samples, and only those are modelled.
- Text.Lower: folds ASCII letters only, because case mapping of other scripts is not modelled; string lengths count code points, not UTF-16 units.
- ReportRoutes.SortNewestFirst: the order among reports with equal `createdAt` is not specified, since MongoDB does not fix it either.
- ReportRoutes.LeaderReports: as written, `departments` is not a path of the `User` schema, so it reads back undefined, `leader.departments[0]` throws (src/app/api/workerReport/route.js:84) and the route answers 500; the model's missing-department case gives that 500. The model also covers a readable department list: an empty one gives `department: undefined`, and the model then lists every report, because Mongoose drops a filter condition whose value is `undefined`; this case cannot arise while `departments` is not stored.
- Auth.UserStore.ResendOtp: models the corrected route, which saves the send time through Auth.Reissue and so answers 429 within 60 s of a resend; as written the send time is never saved and no 429 follows a resend (Auth.ReissueAsWritten, Auth.AsWrittenResendNeverLimited).
- Ratings.FillRulesAgreeOnWholeRatings: the two star-fill rules agree only on whole ratings, because the schema admits any number from 1 to 5; for 2.5 they differ (Ratings.FillRulesDifferOnFractions).

## Findings

| source | as written | input that shows it | evidently intended | confidence | as-written member | corrected member |
|---|---|---|---|---|---|---|
| src/app/api/workerReports/route.js:34-39 | creates the report with `userId`, a path the `WorkerReport` schema does not declare; the schema requires `user` (src/models/WorkerReport.js:5-9) | reachable only once `departments` is readable: a worker whose record has departments posting a complete form still gets 500, because `user` is missing and validation fails; as written, `departments` reads back undefined and line 31 already throws, also answering 500 | store the reference in `user`, so complete reports are saved | high (not executed) | ReportRoutes.AutoReportAsWritten, ReportRoutes.AutoReportAsWrittenNeverValid | ReportRoutes.AutoReport, ReportRoutes.AutoReportValidWhenComplete |
| src/app/api/resend-otp/route.js:25-41 | sets `user.lastOtpSentAt`, a path the `User` schema does not declare (src/models/User.js:4-59), so strict mode does not save it | an unverified user requesting two resends in the same second: both are accepted, no 429 | record the send time so that a second request within 60 s is refused | medium (not executed) | Auth.ReissueAsWritten, Auth.AsWrittenResendNeverLimited | Auth.Reissue, Auth.ReissueRestartsCooldown |
