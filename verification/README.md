# claimease-flow, modelled in Dafny

claimease-flow is the front end of an insurance claims service. Customers
pick a claim document and fill in a form. The upload is simulated: a progress
bar runs, and the view then moves to a fixed claim. The claims, their
extracted fields, their agent messages and their suggested corrections are
fixed mock data. The messages and corrections are attributed to four agents
(claims, verifier, CAG and supervisor). Adjusters and admins review that data
on a human-in-the-loop (HITL) screen. This project models the logic under
that interface and proves properties of it. The modelled parts are:

- the claim records and their closed enumerations (`ClaimTypes`);
- the session: a mutable current user with login and logout (`Auth`);
- the route table, the route guard, the root redirect and the index page (`Routing`);
- the login form (`Login`) and the dashboard frame: navigation by role,
  the active entry, badge fallbacks and logout (`Layout`);
- the adjuster dashboard: review queue, stats, rounded average confidence,
  low-confidence and high-flag panels (`AdjusterDashboard`);
- the customer dashboard: status counts and recent claims (`CustomerDashboard`);
- the upload form: drag state, PDF-only drop, validation and the progress
  bar step (`UploadClaim`);
- the claim review workspace: claim lookup, reviewer capability, field
  edits, correction actions, agent panels and message grouping (`ClaimReview`);
- confidence banding and the indicator's label (`Confidence`).

Some state is mutated in place: the session user, the login form, the upload
form and the review workspace. Each of these is a class whose methods update
fields. Every method's ensures give its whole new state. The correction
actions, field edits, agent toggles, progress ticks and logins give it
through a specification function, and the properties are proved about that
function. The other methods (the setters, logout, the drag, drop, file-pick,
remove, submit and completion handlers) state each field's new value
directly in their ensures. The rest is pure functions and
lemmas. `Wrappers` (Option, Result) and `Seqs` (filter, count, take) are
shared helpers.

Scores and flag counts are integers. `Math.round` of the mean is integer
round-half-up: `RoundHalfUp(n, d)` is the `r` with `2dr <= 2n + d < 2dr + 2d`.
The claim fixture is a parameter. Where the code depends on it being
non-empty, it is a precondition: the lookup fallback and the average.

## Model

| member | source | states |
|---|---|---|
| ClaimTypes.ParseRole | src/types/claims.ts:1 | a role name parses back to exactly the role it names, and nothing else parses |
| ClaimTypes.ParseStatus | src/types/claims.ts:3 | the five claim status names parse back to their status and nothing else parses |
| ClaimTypes.ParseClaimType | src/types/claims.ts:5 | the six claim kinds parse back to their kind and nothing else parses |
| ClaimTypes.ParseAgent | src/types/claims.ts:23 | the four pipeline stages parse back to their stage and nothing else parses |
| ClaimTypes.ParseSeverity | src/types/claims.ts:26 | the four message severities parse back to their severity and nothing else parses |
| ClaimTypes.ParseCorrectionStatus | src/types/claims.ts:35 | the four correction statuses parse back to their status and nothing else parses |
| ClaimTypes.FieldsOf | src/types/claims.ts:50 | an absent extracted-field list reads as empty, a present one as itself |
| ClaimTypes.MessagesOf | src/types/claims.ts:51 | an absent message list reads as empty, a present one as itself |
| ClaimTypes.CorrectionsOf | src/types/claims.ts:52 | an absent correction list reads as empty, a present one as itself |
| Confidence.BandOf | src/components/shared/ConfidenceIndicator.tsx:10-14 | high iff the score is at least 80, medium iff 60 to 79, low iff below 60, so the bands partition the scores |
| Confidence.BandMonotone | src/components/shared/ConfidenceIndicator.tsx:10-14 | a higher score never gets a lower band |
| Confidence.BandBoundaries | src/components/shared/ConfidenceIndicator.tsx:11-13 | 80 is high, 79 and 60 are medium, 59 is low |
| Confidence.SizeClass | src/components/shared/ConfidenceIndicator.tsx:9-20 | every size has a text class, and the default size (md) gives text-sm |
| Confidence.SizeClassInjective | src/components/shared/ConfidenceIndicator.tsx:16-20 | different sizes get different classes |
| Confidence.Label | src/components/shared/ConfidenceIndicator.tsx:24 | the label is exactly the value, a percent sign and, when the label flag is set (as by default), " confidence"; it ends in that suffix iff the flag is set |
| Auth.MockUser | src/context/AuthContext.tsx:13-32 | the mock user for a role has that role and that role's fixed id |
| Auth.MockUserIdsDistinct | src/context/AuthContext.tsx:13-32 | two mock users share an id only if they are the same role's user |
| Auth.AuthSession.constructor | src/context/AuthContext.tsx:35-46 | the session starts with no user and is not authenticated |
| Auth.AuthSession.Login | src/context/AuthContext.tsx:37-39 | the user becomes the mock user of the role, and the session is authenticated with that role |
| Auth.AuthSession.Logout | src/context/AuthContext.tsx:41-43 | no user remains and the session is not authenticated |
| Auth.LoginTwice | src/context/AuthContext.tsx:37-39 | a later login overwrites an earlier one; logging in twice with one role equals logging in once |
| Auth.UseAuth | src/context/AuthContext.tsx:52-57 | succeeds with the provider's session iff there is a provider, otherwise fails with the provider error |
| Routing.DashboardPath | src/App.tsx:29-33 | each role's home is "/" followed by the role's name: customer to /customer, adjuster to /adjuster, admin to /admin; never the login page |
| Routing.DashboardPathInjective | src/pages/Index.tsx:11-15 | the three roles have three distinct home paths |
| Routing.Lookup | src/App.tsx:61-150 | a path found in the table is some entry's path with that entry; a missing path is no entry's path |
| Routing.LookupFinds | src/App.tsx:61-150 | the first entry with a path is the one the lookup returns |
| Routing.RouteFor | src/App.tsx:61-163 | the guard with no role list is exactly the /claim/:id route; every other guard lists one role; a path that is neither /claim/:id nor in the table gets the public not-found page |
| Routing.ProtectedRoute | src/App.tsx:20-38 | no session goes to /login; a session renders iff the route lists no roles or lists the user's role; otherwise it goes to the user's home |
| Routing.AuthRedirect | src/App.tsx:41-55 | no session goes to /login, a session to the user's home |
| Routing.Resolve | src/App.tsx:41-163 | public routes render their page and the root redirects as the root redirect says; a guarded route renders its page when the guard allows it, and otherwise redirects to the guard's target |
| Routing.StaticPathsDistinct | src/App.tsx:61-150 | no two routes in the table share a path |
| Routing.StaticRouteAt | src/App.tsx:61-150 | resolving a table path gives that path's entry |
| Routing.HomeRoute | src/App.tsx:67-150 | each role's home is guarded for that role alone |
| Routing.DashboardAdmitsOwnRole | src/App.tsx:67-150 | a signed-in user's home renders their dashboard |
| Routing.NoRedirectLoop | src/App.tsx:20-55 | whenever a path redirects, its target renders for the same visitor |
| Routing.GuardedRouteNeedsSession | src/App.tsx:23-25 | every guarded route sends a visitor with no session to /login |
| Routing.WrongRoleGoesHome | src/App.tsx:27-35 | a user whose role is not listed is sent to their own home |
| Routing.ClaimRouteAdmitsEveryRole | src/App.tsx:153-160 | /claim/:id renders the review page for every signed-in role |
| Routing.StaticNamesakeRoutes | src/App.tsx:67-150 | a guarded table route under a role's home admits only that role |
| Routing.NamesakeRoutes | src/App.tsx:67-150 | every guarded /customer*, /adjuster* and /admin* path admits only its namesake role |
| Routing.IndexRedirect | src/pages/Index.tsx:7-17 | the index page always redirects and agrees with the root redirect of the route table |
| Login.LoginForm.constructor | src/pages/Login.tsx:13-15 | the form starts on the customer role with empty credentials |
| Login.LoginForm.SelectRole | src/pages/Login.tsx:62 | only the selected role changes |
| Login.LoginForm.SetUsername | src/pages/Login.tsx:14 | only the username changes |
| Login.LoginForm.SetPassword | src/pages/Login.tsx:15 | only the password changes |
| Login.LoginForm.HandleLogin | src/pages/Login.tsx:19-30 | logs in with exactly the selected role and goes to that role's home, which then renders its dashboard |
| Login.SubmitDefaultForm | src/pages/Login.tsx:13-30 | an untouched form with empty credentials logs in as the customer and goes to /customer |
| Layout.NavItems | src/components/layout/DashboardLayout.tsx:33-56 | customers and adjusters get their three entries; everyone else, including no user, gets the four admin entries |
| Layout.AtMostOneActive | src/components/layout/DashboardLayout.tsx:33-50 | paths in each list are distinct, so at most one entry is active |
| Layout.PrefixIsNotActive | src/components/layout/DashboardLayout.tsx:82 | a longer path below an entry's path does not make it active |
| Layout.NavItemsOpen | src/components/layout/DashboardLayout.tsx:33-56 | every entry a signed-in user is shown renders without a redirect |
| Layout.RoleCaption | src/components/layout/DashboardLayout.tsx:106 | no user reads "Customer" while the admin entries are shown; a user reads their role's label |
| Layout.AvatarInitial | src/components/layout/DashboardLayout.tsx:98 | the first letter of the name, or 'U' with no user or an empty name |
| Layout.DisplayName | src/components/layout/DashboardLayout.tsx:103 | never empty: the user's name when there is one, otherwise "User" |
| Layout.IsActive | src/components/layout/DashboardLayout.tsx:82 | an entry is active exactly when the current path matches its path character for character, with equal length |
| Layout.HandleLogout | src/components/layout/DashboardLayout.tsx:28-31 | the session is cleared and the target is /login, which then renders |
| AdjusterDashboard.PendingReviewClaims | src/pages/adjuster/AdjusterDashboard.tsx:16-18 | a claim is in the queue iff its status is hitl_review or processing |
| AdjusterDashboard.PendingReviewKeepsOrder | src/pages/adjuster/AdjusterDashboard.tsx:16-18 | the queue of a concatenation is the concatenation of the queues, so fixture order is kept |
| AdjusterDashboard.RoundHalfUp | src/pages/adjuster/AdjusterDashboard.tsx:23 | the result is the nearest integer to the quotient, halves rounded up |
| AdjusterDashboard.AverageConfidence | src/pages/adjuster/AdjusterDashboard.tsx:23 | the average is the integer nearest to the summed scores over the claim count, halves rounded up |
| AdjusterDashboard.DashboardStats | src/pages/adjuster/AdjusterDashboard.tsx:20-25 | pending is the queue length; flagged counts claims with flags and is zero iff none have any; the average is the rounded mean; reviewed-today is 12 |
| AdjusterDashboard.SumWithin | src/pages/adjuster/AdjusterDashboard.tsx:23 | scores within bounds sum to between count times each bound |
| AdjusterDashboard.RoundedMeanWithin | src/pages/adjuster/AdjusterDashboard.tsx:23 | the rounded mean of bounded values stays within the bounds |
| AdjusterDashboard.AverageWithin | src/pages/adjuster/AdjusterDashboard.tsx:23 | the average confidence lies within any bounds of the scores |
| AdjusterDashboard.MinConfidence | src/pages/adjuster/AdjusterDashboard.tsx:23 | the least score: attained by a claim and below all others |
| AdjusterDashboard.MaxConfidence | src/pages/adjuster/AdjusterDashboard.tsx:23 | the greatest score: attained by a claim and above all others |
| AdjusterDashboard.AverageBetweenExtremes | src/pages/adjuster/AdjusterDashboard.tsx:23 | the average confidence lies between the least and greatest score |
| AdjusterDashboard.LowConfidencePanel | src/pages/adjuster/AdjusterDashboard.tsx:136-138 | at most three claims, all below 70, the first such claims in fixture order |
| AdjusterDashboard.InsertByFlags | src/pages/adjuster/AdjusterDashboard.tsx:168 | inserting adds exactly the one claim to the multiset |
| AdjusterDashboard.InsertByFlagsBounded | src/pages/adjuster/AdjusterDashboard.tsx:168 | inserting keeps every flag count under a common bound |
| AdjusterDashboard.InsertByFlagsSorted | src/pages/adjuster/AdjusterDashboard.tsx:168 | inserting into a list sorted by descending flags keeps it sorted |
| AdjusterDashboard.SortByFlagsDesc | src/pages/adjuster/AdjusterDashboard.tsx:168 | the result is sorted by descending flag count and a permutation of the input |
| AdjusterDashboard.InsertByFlagsStable | src/pages/adjuster/AdjusterDashboard.tsx:168 | among claims with equal flag counts, an insertion puts the new claim first and keeps the rest in order |
| AdjusterDashboard.SortByFlagsStable | src/pages/adjuster/AdjusterDashboard.tsx:168 | claims with equal flag counts keep their fixture order |
| AdjusterDashboard.HighFlagPanel | src/pages/adjuster/AdjusterDashboard.tsx:166-169 | at most three claims, all with at least two flags, in descending flag order; they are the first entries of the stable sort of the qualifying claims, so ties keep fixture order |
| AdjusterDashboard.HighFlagPanelIsTop | src/pages/adjuster/AdjusterDashboard.tsx:166-169 | a qualifying claim left out has no more flags than any claim shown |
| CustomerDashboard.DashboardStats | src/pages/customer/CustomerDashboard.tsx:20-25 | total is the claim count; pending, approved and rejected count their statuses; the three never exceed the total |
| CustomerDashboard.StatusBuckets | src/pages/customer/CustomerDashboard.tsx:21-24 | the three buckets plus the pending-status claims add up to the total |
| CustomerDashboard.CardsMissOnlyPending | src/pages/customer/CustomerDashboard.tsx:21-24 | the cards add up to the total iff no claim has status pending |
| CustomerDashboard.PendingMatchesAdjusterQueue | src/pages/customer/CustomerDashboard.tsx:22 | the pending card counts the same claims as the adjuster's review queue |
| CustomerDashboard.RecentClaims | src/pages/customer/CustomerDashboard.tsx:112 | the first min(5, n) claims in order |
| UploadClaim.ProgressStep | src/pages/customer/UploadClaim.tsx:86-92 | a full or overfull bar becomes 100; otherwise it grows by 10 |
| UploadClaim.ProgressClosedForm | src/pages/customer/UploadClaim.tsx:86-92 | from a multiple of ten up to 100, after t ticks the bar is min(start + 10t, 100) |
| UploadClaim.ProgressFromZero | src/pages/customer/UploadClaim.tsx:86-92 | from 0 the bar rises monotonically in multiples of ten, never past 100, and stays at 100 |
| UploadClaim.ProgressStaysFull | src/pages/customer/UploadClaim.tsx:86-92 | once the bar reads 100, later ticks keep it at 100 |
| UploadClaim.UploadForm.constructor | src/pages/customer/UploadClaim.tsx:23-29 | the form starts with no file, empty fields, no upload, zero progress and no drag |
| UploadClaim.UploadForm.SetPolicyNumber | src/pages/customer/UploadClaim.tsx:195 | only the policy number changes |
| UploadClaim.UploadForm.SetIncidentDate | src/pages/customer/UploadClaim.tsx:206 | only the incident date changes |
| UploadClaim.UploadForm.SetClaimType | src/pages/customer/UploadClaim.tsx:213 | only the claim type changes |
| UploadClaim.UploadForm.HandleDrag | src/pages/customer/UploadClaim.tsx:31-39 | enter and over set the drag flag, leave clears it, other events keep it, nothing else changes |
| UploadClaim.UploadForm.HandleDrop | src/pages/customer/UploadClaim.tsx:41-58 | the drag flag clears; a PDF becomes the file; any other type is reported and keeps the current file |
| UploadClaim.UploadForm.HandleFileChange | src/pages/customer/UploadClaim.tsx:60-64 | the first picked file becomes the file, with no type check; no pick keeps the current file |
| UploadClaim.UploadForm.RemoveFile | src/pages/customer/UploadClaim.tsx:66-68 | the file is removed and nothing else changes |
| UploadClaim.UploadForm.HasRequiredFields | src/pages/customer/UploadClaim.tsx:73 | the form is complete iff a file and a claim type are chosen and the policy number and incident date are non-empty |
| UploadClaim.UploadForm.HandleSubmit | src/pages/customer/UploadClaim.tsx:70-82 | accepted iff a file and all three fields are present; a rejection leaves the upload flag alone; acceptance starts the upload and disables the button |
| UploadClaim.UploadForm.Tick | src/pages/customer/UploadClaim.tsx:85-93 | the bar takes one step, and the interval stops iff it was already at least 100 |
| UploadClaim.UploadForm.RunInterval | src/pages/customer/UploadClaim.tsx:85-93 | after some ticks the bar equals the progress function's value, and a stopped interval leaves it at 100 |
| UploadClaim.UploadForm.CompleteUpload | src/pages/customer/UploadClaim.tsx:96-106 | the bar is forced to 100 and the target is /claim/0001 |
| UploadClaim.SubmitBlankForm | src/pages/customer/UploadClaim.tsx:73-80 | a fresh form is rejected and does not start uploading |
| UploadClaim.SubmitWithBlankPolicyNumber | src/pages/customer/UploadClaim.tsx:73 | a policy number of blanks counts as present, so the submission is accepted |
| ClaimReview.FindClaimIndex | src/pages/ClaimProcessing.tsx:38 | the position of the first claim with the id, or none when no claim has it |
| ClaimReview.ClaimToReview | src/pages/ClaimProcessing.tsx:38 | a claim of the list: the first claim with the id when there is one, otherwise the first claim |
| ClaimReview.IsReviewer | src/pages/ClaimProcessing.tsx:43 | true iff someone is signed in who is not a customer |
| ClaimReview.ResultingStatus | src/pages/ClaimProcessing.tsx:53 | approve gives approved, reject gives rejected, edit gives pending, and nothing gives edited |
| ClaimReview.ApplyCorrectionAction | src/pages/ClaimProcessing.tsx:52-54 | same length; every correction with the id takes the action's status and keeps all else; every other correction is unchanged |
| ClaimReview.CorrectionActionKeepsContent | src/pages/ClaimProcessing.tsx:53 | ids, fields, issues and both values survive any action |
| ClaimReview.UnknownCorrectionIdIsNoOp | src/pages/ClaimProcessing.tsx:52-54 | an id no correction has leaves the list unchanged |
| ClaimReview.LaterCorrectionActionWins | src/pages/ClaimProcessing.tsx:52-54 | two actions on one id equal the later one alone |
| ClaimReview.CorrectionActionIdempotent | src/pages/ClaimProcessing.tsx:52-54 | repeating an action changes nothing further |
| ClaimReview.CanActOn | src/pages/ClaimProcessing.tsx:220 | the buttons of a correction are offered iff an adjuster or admin is signed in and the correction is pending |
| ClaimReview.DecidedCorrectionsStay | src/pages/ClaimProcessing.tsx:220 | with distinct ids, acting on a pending correction leaves every approved or rejected one as it was |
| ClaimReview.EditField | src/pages/ClaimProcessing.tsx:45-49 | only the chosen field's value changes; its name, confidence and editable flag stay, other fields are untouched |
| ClaimReview.EditFieldLastWins | src/pages/ClaimProcessing.tsx:45-49 | two edits of one field equal the later one; re-entering the current value changes nothing |
| ClaimReview.CanEditField | src/pages/ClaimProcessing.tsx:272 | a field is editable in the view iff an adjuster or admin is signed in and the field is marked editable; an absent flag counts as not editable |
| ClaimReview.ToggleAgent | src/pages/ClaimProcessing.tsx:74-78 | the agent's membership flips and every other agent's membership stays |
| ClaimReview.ToggleAgentNoDuplicates | src/pages/ClaimProcessing.tsx:74-78 | toggling keeps the expanded list free of repeats |
| ClaimReview.ToggleAgentTwice | src/pages/ClaimProcessing.tsx:74-78 | toggling twice restores every agent's membership |
| ClaimReview.FromAgent | src/pages/ClaimProcessing.tsx:96-100 | one agent's group holds every message of that agent and only such messages |
| ClaimReview.GroupSizesSum | src/pages/ClaimProcessing.tsx:96-100 | the four group sizes add up to the message count |
| ClaimReview.FromAgentAppend | src/pages/ClaimProcessing.tsx:96-100 | the group of a concatenation is the concatenation of the groups, so relative order is kept |
| ClaimReview.GroupMessages | src/pages/ClaimProcessing.tsx:96-100 | an agent has a group iff it sent a message, and its group is its messages in order |
| ClaimReview.CorrectionToastAsWritten | src/pages/ClaimProcessing.tsx:55-58 | the notice title is "Correction " followed by the action word and "ed" |
| ClaimReview.ApproveToastMisspelled | src/pages/ClaimProcessing.tsx:55-58 | for approve that title is "Correction approveed", which does not name the new status |
| ClaimReview.CorrectionToast | src/pages/ClaimProcessing.tsx:55-58 | the title states the action in the past tense, and for approve and reject it names the correction's new status |
| ClaimReview.FinalActionToast | src/pages/ClaimProcessing.tsx:61-72 | each closing decision picks its own title and message |
| ClaimReview.FinalActionToastsDistinct | src/pages/ClaimProcessing.tsx:61-72 | different decisions show different titles |
| ClaimReview.ReviewWorkspace.constructor | src/pages/ClaimProcessing.tsx:38-41 | the workspace holds the looked-up claim, its lists (absent read as empty) and all four agents expanded |
| ClaimReview.ReviewWorkspace.HandleFieldEdit | src/pages/ClaimProcessing.tsx:45-49 | the fields become the edited list; corrections and panels are unchanged |
| ClaimReview.ReviewWorkspace.HandleCorrectionAction | src/pages/ClaimProcessing.tsx:51-59 | the corrections become the acted-on list and the corrected notice names the action; the rest is unchanged |
| ClaimReview.ReviewWorkspace.ToggleAgentPanel | src/pages/ClaimProcessing.tsx:74-78 | the expanded list becomes the toggled list; the rest is unchanged |
| ClaimReview.ReviewWorkspace.EditFieldAs | src/pages/ClaimProcessing.tsx:272 | the edit applies iff the user is a reviewer and the field is editable, otherwise nothing changes |
| ClaimReview.ReviewWorkspace.ActOnCorrectionAs | src/pages/ClaimProcessing.tsx:220 | the action applies iff the user is a reviewer and the correction is pending, otherwise nothing changes |

## Left out

- Rendering, CSS classes other than the size map, icons, agent colours and display labels are presentation only.
- Toast delivery is left out. The claim review page's notice titles and messages are modelled. The upload form's notices (wrong file type, missing fields, submitted) are modelled only as the accepted or rejected outcome. Navigation is modelled as a returned path; `navigate(-1)` after a closing decision is not modelled.
- The interval and timeout of the upload are wall-clock concurrency. Only the step function, a number of ticks, and the completion are modelled; the race between them is not.
- `File` objects are reduced to a name and a MIME type. The megabyte size display is floating point and is left out.
- Date and time formatting is left out.
- The admin dashboard's charts and fixed figures, and the stats card, status badge and data table components, contain no logic and are not modelled.
- The mock claim data file is not part of this model. The claim list is a parameter.
- Confidence scores and flag counts are integers, not JavaScript numbers. `Math.round` of the mean is integer round-half-up.
- ClaimReview.ClaimToReview: assumes a non-empty claim list; with none, the code would read `undefined`.
- AdjusterDashboard.DashboardStats: assumes a non-empty claim list; the average of none would be NaN.
- ClaimReview.EditField: takes an index within the list. JavaScript would grow the array for an index past the end.
- Routing.RouteFor: matches exact paths and the one `/claim/:id` pattern. Router case-folding, trailing slashes and query strings are not modelled.
- ClaimReview.ReviewWorkspace.HandleCorrectionAction: shows the corrected notice ("Correction approved"), not the misspelled "Correction approveed" of the code; the as-written title is CorrectionToastAsWritten (see Findings).
- React hooks, context plumbing and re-rendering are not modelled. The provider is an optional session.

## Findings

| source | as written | input that shows it | evidently intended | confidence | as-written member | corrected member |
|---|---|---|---|---|---|---|
| src/pages/ClaimProcessing.tsx:55-58 | the notice appends "ed" to the action word | approving a correction titles the notice "Correction approveed" | "Correction approved", naming the status the correction now has | not executed; follows from the template string | ClaimReview.ApproveToastMisspelled | ClaimReview.CorrectionToast |
