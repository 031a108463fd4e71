# FlawFinder in Dafny

FlawFinder AI lets a user upload a business workflow as a CSV or JSON file and have it
analysed for flaws. An analysis records the flaws it finds (bottlenecks, redundancies,
security gaps) with a severity. It also records fix suggestions with a priority, and a
"brutality score": the mean severity weight, on a scale of 0 to 10. The user then reads
the results as a dashboard, a prioritised fix plan and an executive (CEO) report.

This project models the decision logic of both halves of the system and proves what it
promises.

- **Client (React).** Modelled:
  - the session gate in `App.jsx`: the stored `authToken`, the route table, when the navigation chrome shows;
  - the active-item rule and the logout modal in `Navigation.jsx`;
  - the form validator and the mock sign-in of `Login.jsx`;
  - the tab selection in `CEOReport.jsx` and the expand toggle in `FixPlan.jsx`;
  - the progress interval in `Upload.jsx` and the score counter in `Dashboard.jsx`.

  Stateful components are classes whose methods are the event handlers. The browser is a
  `BrowserContext` object: the stored token, the current path and a log of effects (toast,
  navigation, reload). An interval is a `Tick` method plus a `RunInterval` loop that ticks
  until the interval clears itself.
- **Backend (FastAPI).** Modelled:
  - the analysis service (`ai_service.py`): graph building, the mock analysis and its score, the executive report;
  - the four routers `analyze`, `fix_plan`, `dashboard` and `upload`;
  - the request-model constraints of `schemas.py` and the response envelopes of `responses.py`.

  The SQL database is a `Database` object holding three tables as sequences. Rows get
  auto-increment ids from 1, so row `i` has id `i + 1`. Route handlers are methods or
  functions that return either a response envelope or an `HttpError(status, detail)`.

Shared modules:

| module | what it holds |
|---|---|
| `Severity` | weights 10/7/5/2 (0 for an unknown severity), the four-way tally, the mean weight |
| `Histogram` | Python's insertion-ordered count dictionaries |
| `StableSort` | Python's stable `sorted` / `list.sort` with a tuple key |
| `Priority` | the three priority buckets (≤ 2, = 3, ≥ 4) |
| `Text` | `lower()`, `in` on strings, `split()[0]`, `int()` and `str()` on integers |

## Model

| member | source | states |
|---|---|---|
| App.LookupRoute | client/src/App.jsx:62-94 | a path finds a route only when it matches that route's path under React Router's default rule (letter case ignored, trailing slashes allowed), and finds none when it matches none of the seven |
| App.RouteElement | client/src/App.jsx:64-93 | a path that matches no route renders no view; a path that matches a route renders that route's gated view |
| App.AtMostOneRouteMatches | client/src/App.jsx:64-93 | no path matches two routes of the table, so the first route that matches is the only one |
| App.SelfMatch | client/src/App.jsx:64-93 | each declared path finds its own route |
| App.VariantRendersAlike | client/src/App.jsx:64-93 | a declared path in another letter case, followed by any number of slashes, renders exactly what the declared path renders |
| App.CaseAndSlashVariants | client/src/App.jsx:78-81 | "/Dashboard" and "/dashboard/" render the dashboard to a session and Landing to anyone else |
| App.ProtectedViewsNeedSession | client/src/App.jsx:64-93 | without a session no protected view is ever rendered; with one, each protected path renders its own view; without one, each protected path renders Landing |
| App.AppState.CheckStoredToken | client/src/App.jsx:19-26 | the session becomes authenticated when a truthy token is stored and otherwise keeps its flag; loading ends |
| App.AppState.SetIsAuthenticated | client/src/App.jsx:16 | the setter changes the session flag and leaves loading alone |
| App.AppState.Render | client/src/App.jsx:28-93 | the loading screen shows exactly while loading; afterwards the navigation chrome shows iff authenticated, and the view is the route's gated view |
| App.Startup | client/src/App.jsx:17-26 | a freshly mounted app is authenticated iff the stored token is truthy, and is no longer loading |
| Browser.BrowserContext.SetToken | client/src/pages/Login.jsx:47 | storing a token replaces the stored token, keeps the path and logs one store effect |
| Browser.BrowserContext.RemoveToken | client/src/components/Navigation.jsx:177 | removing the token leaves no token whether or not one was stored, and logs one removal |
| Browser.BrowserContext.ShowToast | client/src/pages/Login.jsx:49 | a toast changes neither token nor path and is appended to the effect log |
| Browser.BrowserContext.Navigate | client/src/pages/Login.jsx:50 | navigation changes only the path, keeps the token, and is logged |
| Browser.BrowserContext.ReloadPage | client/src/components/Navigation.jsx:180 | a reload keeps token and path and is logged |
| Navigation.ActiveItems | client/src/components/Navigation.jsx:65 | an item is active exactly when its path equals the current path |
| Navigation.IsActive | client/src/components/Navigation.jsx:65 | an item is highlighted when the pathname equals its path exactly |
| Navigation.AtMostOneActive | client/src/components/Navigation.jsx:65 | over items with distinct paths, at most one item is active at any path |
| Navigation.MenuHighlighting | client/src/components/Navigation.jsx:19-24 | for the four menu items, at most one is active, none is active at "/", and each item's own path activates exactly that item |
| Navigation.CaseVariantUnhighlighted | client/src/components/Navigation.jsx:65 | at "/Dashboard" a session sees the dashboard, yet no menu item is highlighted, because highlighting compares case-sensitively |
| Navigation.HandleLogout | client/src/components/Navigation.jsx:176-181 | logging out leaves no token and the path "/", and logs removal, toast, navigation and reload in that order |
| Navigation.NavigationWithModal.constructor | client/src/components/Navigation.jsx:174 | the logout modal starts hidden |
| Navigation.NavigationWithModal.RequestLogout | client/src/components/Navigation.jsx:131 | the logout button only shows the modal (the browser is not in its frame, so the token is untouched) |
| Navigation.NavigationWithModal.Cancel | client/src/components/Navigation.jsx:196 | cancelling hides the modal without touching the browser |
| Navigation.NavigationWithModal.Confirm | client/src/components/Navigation.jsx:197 | confirming hides the modal and performs the whole logout |
| Login.LooksLikeEmailIsRegex | client/src/pages/Login.jsx:20 | the executable e-mail check accepts exactly the strings the unanchored pattern `\S+@\S+\.\S+` matches somewhere |
| Login.Utf16Length | client/src/pages/Login.jsx:26 | a JavaScript string length counts UTF-16 units: between one and two per code point |
| Login.FormErrors | client/src/pages/Login.jsx:15-28 | the error record `validateForm` builds: the email error for an empty or unmatched email, the password error for an empty or short password |
| Login.FormErrorsMeaning | client/src/pages/Login.jsx:15-28 | only email and password errors occur; the email error is present iff the email is empty or unmatched, with "required" for the empty one; the password error is present iff the length is under 6, with "required" for the empty one; the two can coexist |
| Login.FormValidIff | client/src/pages/Login.jsx:30-31 | the form is valid iff the email matches the pattern and the password has at least 6 units |
| Login.LoginForm.constructor | client/src/pages/Login.jsx:8-12 | the form starts empty, idle and error-free |
| Login.LoginForm.SetEmail | client/src/pages/Login.jsx:311 | typing in the email field changes only the email |
| Login.LoginForm.SetPassword | client/src/pages/Login.jsx:337 | typing in the password field changes only the password |
| Login.LoginForm.ValidateForm | client/src/pages/Login.jsx:15-32 | the stored errors become the form's errors and the result is true iff there are none |
| Login.LoginForm.BeginSubmit | client/src/pages/Login.jsx:34-40 | an invalid form stops with its errors shown and loading unchanged; a valid one starts loading with errors cleared |
| Login.LoginForm.FinishSubmit | client/src/pages/Login.jsx:43-55 | exactly the admin pair stores token "12345", authenticates and goes to /dashboard; any other pair changes no token, session or path and sets the submit error; loading ends either way |
| Login.LoginForm.BeginGoogleLogin | client/src/pages/Login.jsx:58-59 | Google sign-in starts loading and changes nothing else |
| Login.LoginForm.FinishGoogleLogin | client/src/pages/Login.jsx:61-67 | Google sign-in always stores "google12345", authenticates, goes to /dashboard and ends loading |
| CeoReport.CurrentTab | client/src/pages/CEOReport.jsx:37 | the current tab is the first flagged one, and there is none iff no tab is flagged |
| CeoReport.ToggleTab | client/src/pages/CEOReport.jsx:18-27 | every tab is copied and flagged current exactly when its position is the clicked index |
| CeoReport.ToggleTabSelects | client/src/pages/CEOReport.jsx:18-27 | selecting an in-range tab leaves exactly that tab current, keeps every name and order, and is idempotent |
| CeoReport.ToggleDependsOnNames | client/src/pages/CEOReport.jsx:20-25 | the tab list after a selection depends only on the names, not on the previous flags |
| CeoReport.ToggleOutOfRangeClears | client/src/pages/CEOReport.jsx:20-25 | an out-of-range index clears every flag, so no tab is current |
| CeoReport.ClicksKeepOneCurrent | client/src/pages/CEOReport.jsx:6-13 | from the initial tabs, any sequence of in-range clicks keeps exactly one tab current and the same names |
| CeoReport.DepartmentSectionShown | client/src/pages/CEOReport.jsx:201 | the department section's condition is defined exactly when some tab is current |
| CeoReport.DepartmentSectionFollowsTab | client/src/pages/CEOReport.jsx:201 | the department section is hidden on Overview and shown on every other selected tab |
| FixPlanPage.NothingExpandedInitially | client/src/pages/FixPlan.jsx:91 | initially no plan shows its details |
| FixPlanPage.ToggleExpanded | client/src/pages/FixPlan.jsx:93-98 | a copy of the expanded map with the plan's entry set to the negation of its old value, absent read as false |
| FixPlanPage.ToggleFlipsOnlyItsPlan | client/src/pages/FixPlan.jsx:93-98 | toggling negates that plan's shown state (absent counts as collapsed) and leaves every other entry as it was |
| FixPlanPage.ToggleTwiceRestores | client/src/pages/FixPlan.jsx:93-98 | toggling a plan twice restores every plan's shown state |
| FixPlanPage.NumberedSteps | client/src/pages/FixPlan.jsx:237-247 | implementation steps keep their order and are numbered consecutively from 1 |
| UploadPage.TickBoundedMonotone | client/src/pages/Upload.jsx:38 | a tick never lowers progress and keeps it within 0..100 |
| UploadPage.NextProgress | client/src/pages/Upload.jsx:32-39 | a tick keeps 100 at 100 and otherwise adds 10, capped at 100 |
| UploadPage.ProgressAfterTicks | client/src/pages/Upload.jsx:31-40 | after n ticks from 0 the progress is min(10n, 100) |
| UploadPage.UploadStopsOnEleventhTick | client/src/pages/Upload.jsx:31-40 | the interval keeps running for ten ticks and stops on the eleventh |
| UploadPage.UploadPageState.constructor | client/src/pages/Upload.jsx:8-10 | the page starts with no files, not uploading, at 0 |
| UploadPage.UploadPageState.OnDrop | client/src/pages/Upload.jsx:14-22 | a drop replaces the file list with exactly the accepted files, in order |
| UploadPage.UploadPageState.HandleUpload | client/src/pages/Upload.jsx:25-41 | starting an upload sets uploading, resets progress to 0, starts the interval and shows one toast |
| UploadPage.UploadPageState.Tick | client/src/pages/Upload.jsx:31-40 | a tick advances progress by the step function; at 100 it clears the interval and uploading |
| UploadPage.UploadPageState.RunInterval | client/src/pages/Upload.jsx:31-40 | run from 0, the interval ticks exactly 11 times and ends at 100, not uploading |
| DashboardPage.ScoreAfterTicks | client/src/pages/Dashboard.jsx:60-68 | after n ticks the counter shows min(n, 73) |
| DashboardPage.NextScore | client/src/pages/Dashboard.jsx:61-67 | a tick adds 1 below the target 73 and otherwise keeps the value |
| DashboardPage.ScoreMonotoneBounded | client/src/pages/Dashboard.jsx:60-68 | the counter never decreases and never exceeds 73 |
| DashboardPage.DashboardState.constructor | client/src/pages/Dashboard.jsx:51-52 | both scores start at 0 |
| DashboardPage.DashboardState.Mount | client/src/pages/Dashboard.jsx:54-58 | mounting sets the target score 73 and starts the interval |
| DashboardPage.DashboardState.Tick | client/src/pages/Dashboard.jsx:60-68 | below the target a tick adds 1; at the target it keeps the value and clears the interval |
| DashboardPage.DashboardState.RunInterval | client/src/pages/Dashboard.jsx:54-71 | run from 0, the interval ticks 74 times and ends at 73, cleared |
| Text.Lower | backend/routers/fix_plan.py:255 | lowering keeps the length and maps each character through the ASCII lowering |
| Text.ContainsIsOccurrence | backend/routers/fix_plan.py:255 | `sub in s` holds iff sub occurs at some position of s |
| Text.FirstToken | backend/routers/fix_plan.py:257 | `split()[0]` is a non-empty run without whitespace, and there is none iff the string is all whitespace |
| Text.TokenPrefix | backend/routers/fix_plan.py:257 | the leading token is a whitespace-free prefix ending at whitespace or the end |
| Text.DigitsValueOfNatToString | backend/routers/fix_plan.py:276 | printing a natural number and reading its digits back gives the number |
| Text.IntToStringRoundTrip | backend/routers/fix_plan.py:276 | `int(str(n)) == n` for every integer |
| Text.FirstTokenOfWord | backend/routers/fix_plan.py:257 | a word followed by whitespace is the first token |
| Severity.Weight | backend/routers/dashboard.py:47-48 | weights are at most 10, and a weight is positive iff the severity is one of the four known ones |
| Severity.Rank | backend/routers/fix_plan.py:194-197 | a severity rank lies in 1..5, and 5 is exactly the unknown rank |
| Severity.TallyCountsOccurrences | backend/routers/dashboard.py:71-75 | the severity tally counts each of the four severities exactly |
| Severity.TallyTotal | backend/routers/dashboard.py:71-75 | the tally total counts the known severities, so it is at most the number of flaws |
| Severity.TallyWeightedSum | backend/services/ai_service.py:215-216 | weighting the tally gives the sum of the per-flaw weights |
| Severity.TallySeverities | backend/services/ai_service.py:209-212 | the counting loop computes the tally |
| Severity.MeanWeight | backend/routers/dashboard.py:44-49 | the mean weight lies in [0, 10] and is 0 for no flaws |
| Severity.MeanWeightExtremes | backend/routers/dashboard.py:44-49 | the mean is 0 iff no severity is known, and 10 iff every flaw is critical |
| Histogram.CountMapMeaning | backend/routers/dashboard.py:65-68 | a count dictionary has exactly the seen keys, each once, mapped to its number of occurrences |
| Histogram.DistinctInFirstOccurrenceOrder | backend/routers/dashboard.py:65-68 | the keys are listed in the order of their first occurrence, as a Python dict keeps them |
| Histogram.CountsSumToLength | backend/routers/dashboard.py:65-68 | the counts of a count dictionary add up to the number of items |
| Histogram.SumCountsPermutation | backend/routers/dashboard.py:65-68 | the count total does not depend on the order of the keys |
| Histogram.CountByKey | backend/routers/dashboard.py:140-143 | the counting loop builds the insertion-ordered keys and the count dictionary |
| Histogram.SumOfValues | backend/routers/dashboard.py:147 | `list(counts.values())` adds up to the count total |
| Histogram.NoDupPermutation | backend/routers/dashboard.py:198 | reordering distinct keys keeps them distinct |
| StableSort.Insert | backend/routers/fix_plan.py:195-198 | inserting adds exactly that element |
| StableSort.SortBy | backend/routers/fix_plan.py:195-198 | sorting is a permutation |
| StableSort.SortBySorted | backend/routers/fix_plan.py:195-198 | the result is ordered by the key |
| StableSort.SortByStable | backend/routers/fix_plan.py:195-198 | elements with equal keys keep their input order |
| Priority.BucketOf | backend/services/ai_service.py:266-268 | priority ≤ 2 is immediate, = 3 short-term and ≥ 4 long-term |
| Priority.BucketsPartition | backend/routers/fix_plan.py:222-227 | the three buckets together hold exactly the input elements |
| Priority.InBucketSorted | backend/routers/fix_plan.py:205-227 | each bucket of a sorted list is itself sorted |
| Priority.InBucketAppend | backend/routers/fix_plan.py:222-227 | appending an element appends it to its own bucket only |
| Responses.CreateResponse | backend/utils/responses.py:4-16 | the envelope carries exactly the four given fields |
| Responses.SuccessResponse | backend/utils/responses.py:18-20 | success is true and no error is attached |
| Responses.ErrorResponse | backend/utils/responses.py:22-24 | success is false and no data is attached |
| Responses.ValidationErrorResponse | backend/utils/responses.py:26-32 | message "Validation failed" with the given list as the error |
| Responses.NotFoundResponse | backend/utils/responses.py:34-40 | message is the resource (default "Resource") followed by " not found", error NOT_FOUND |
| Responses.UnauthorizedResponse | backend/utils/responses.py:42-48 | a failure with code UNAUTHORIZED |
| Responses.ForbiddenResponse | backend/utils/responses.py:50-56 | a failure with code FORBIDDEN |
| Responses.InternalServerErrorResponse | backend/utils/responses.py:58-64 | a failure with code INTERNAL_SERVER_ERROR and the given or default message |
| Responses.ErrorCodesDistinct | backend/utils/responses.py:34-64 | the four fixed error codes are pairwise different |
| Schemas.ValidUserCreate | backend/models/schemas.py:6-9 | a name of 2 to 100 characters and a password of at least 6 |
| Schemas.ValidWorkflowCreate | backend/models/schemas.py:36-39 | a name of 1 to 255 characters, a dict as raw data and the file type "csv" or "json" |
| Schemas.ValidFlawCreate | backend/models/schemas.py:55-62 | one of the four severities and an impact score in [0, 10] |
| Schemas.ValidSuggestionCreate | backend/models/schemas.py:79-86 | effort and impact each low, medium or high, and a priority in 1..5 |
| Schemas.ValidReportCreate | backend/models/schemas.py:103-113 | a brutality score in [0, 10] and an improvement percentage in [0, 100] |
| Schemas.PatternFields | backend/models/schemas.py:58-84 | the enumerated fields accept exactly their listed words, and every level is also a severity |
| Schemas.PatternsAreCaseSensitive | backend/models/schemas.py:39-84 | any string that lowering changes is refused as a level, a severity and a file type; "critical" is the only severity that is not a level |
| Schemas.LengthBounds | backend/models/schemas.py:7-39 | a longer password never invalidates a user, a valid user name is also a valid workflow name, and only a dict with a 1..255-character name passes as a workflow |
| Schemas.DefaultsValid | backend/models/schemas.py:62-112 | the default impact score, priority and report scores meet their own bounds, and every score outside [0, 10] and priority outside 1..5 is refused |
| Store.GetWorkflow | backend/services/workflow_service.py:22-27 | a workflow is found iff a row has that id, else 404 "Workflow not found" |
| Store.FindFlaw | backend/routers/fix_plan.py:119-124 | a flaw is found iff a row has that id |
| Store.WorkflowsOf | backend/services/workflow_service.py:53-55 | exactly the user's workflows |
| Store.FlawsOf | backend/services/workflow_service.py:57-59 | exactly the workflow's flaws |
| Store.SuggestionsOf | backend/services/workflow_service.py:61-63 | exactly the flaw's suggestions |
| Store.FlawsOfAny | backend/routers/dashboard.py:35-38 | exactly the flaws whose workflow id is among the given ones |
| Store.OwnedWorkflow | backend/routers/fix_plan.py:23-31 | 404 for a missing workflow, then the router's 403 when another user owns it, otherwise the workflow itself |
| Store.OwnedAtPosition | backend/routers/analyze.py:25-33 | the user's own workflow with id i is row i - 1 and passes the ownership check |
| Store.WorkflowAtPosition | backend/services/workflow_service.py:22-27 | a workflow found by id sits at row id - 1 |
| Store.Database.CreateWorkflow | backend/services/workflow_service.py:8-20 | appends one workflow with the next id, empty processed data and status "uploaded"; the other tables are untouched |
| Store.Database.CreateFlaw | backend/services/workflow_service.py:29-35 | appends one flaw with the next id; the other tables are untouched |
| Store.Database.CreateSuggestion | backend/services/workflow_service.py:37-43 | appends one suggestion with the next id; the other tables are untouched |
| Store.Database.UpdateWorkflow | backend/routers/analyze.py:75-82 | updates one workflow's status, processed data and timestamp and nothing else |
| AiService.BuildWorkflowGraph | backend/services/ai_service.py:45-60 | the graph exists iff the data can be walked; it is then the chain over the steps; a step holding the key `self` or `node_for_adding` raises a TypeError |
| AiService.NodeAttributes | backend/services/ai_service.py:56 | a step can be spread into `add_node` when it is a dict without the keys `self` and `node_for_adding` |
| AiService.GraphBuildable | backend/services/ai_service.py:53-58 | the data can be walked when it has no "steps" key, or its steps are a list of such dicts, an empty string or an empty dict |
| AiService.ChainIsPath | backend/services/ai_service.py:55-58 | the chain has nodes 0..n-1 and exactly the edges (i-1, i) for 1 ≤ i < n |
| AiService.MockBrutalityIsSix | backend/services/ai_service.py:190-194 | the mock analysis scores 6.0 |
| AiService.AnalyzeWorkflow | backend/services/ai_service.py:22-43 | the analysis succeeds iff the graph can be built, then returns the mock flaws and suggestions, their count as total, their mean weight as score and the given processing time |
| AiService.Closing | backend/services/ai_service.py:254-259 | the closing sentence is chosen by score ≥ 8, ≥ 5 or neither |
| AiService.ExecutiveSummary | backend/services/ai_service.py:240-261 | zero flaws give only the congratulation; otherwise exactly, in this order: the headline, the critical sentence iff critical > 0, the high sentence iff high > 0, and the closing for the score |
| AiService.GenerateRecommendations | backend/services/ai_service.py:263-276 | each bucket holds input suggestions of its priority band (missing priority counts as 5), and the fixed time and ROI texts |
| AiService.RecommendationsPartition | backend/services/ai_service.py:266-268 | the three buckets together hold exactly the input suggestions |
| AiService.RecommendationsKeepOrder | backend/services/ai_service.py:266-268 | one more suggestion is appended to the end of its own priority bucket and to no other, so each bucket keeps input order |
| AiService.ReportSeverities | backend/services/ai_service.py:210 | a missing severity reads as "low" |
| AiService.BuildReportCounts | backend/services/ai_service.py:206-212 | the report counts each known severity exactly, and the counts add up to at most the number of flaws |
| AiService.BuildReportScores | backend/services/ai_service.py:215-225 | the report score is the weighted mean in [0, 10] (0 without flaws), and the improvement is min(100 - 10 × score, 100), within 0..100, so the report meets `ReportCreate` |
| AiService.Improvement | backend/services/ai_service.py:225 | the improvement percentage is `min(100 - 10 × score, 100)` |
| AiService.GenerateReport | backend/services/ai_service.py:202-238 | the report has the exact counts and score, the summary for them and the recommendations |
| FixPlanRouter.CalculateTotalTime | backend/routers/fix_plan.py:241-280 | the loop computes the text of the days and hours the estimates add up to |
| FixPlanRouter.EstimateEffort | backend/routers/fix_plan.py:250-272 | one estimate adds its leading integer as days if it mentions "day", five times that if "week", as hours if "hour", checked in that order; nothing otherwise |
| FixPlanRouter.TimeText | backend/routers/fix_plan.py:275-280 | days win over hours, hours are reported only without days, and "Time not specified" without either |
| FixPlanRouter.TimeTextReadsBack | backend/routers/fix_plan.py:275-280 | the result, read back as an estimate, is the days if any, else the hours if any, else nothing |
| FixPlanRouter.DayEffort | backend/routers/fix_plan.py:255-260 | an estimate mentioning "day" adds its leading integer as days |
| FixPlanRouter.WeekEffort | backend/routers/fix_plan.py:261-266 | otherwise one mentioning "week" adds five days per week |
| FixPlanRouter.HourEffort | backend/routers/fix_plan.py:267-272 | otherwise one mentioning "hour" adds its leading integer as hours |
| FixPlanRouter.DaysReadBack | backend/routers/fix_plan.py:276 | "n days" reads back as n days |
| FixPlanRouter.HoursReadBack | backend/routers/fix_plan.py:278 | "n hours" reads back as n hours |
| FixPlanRouter.NothingReadsBack | backend/routers/fix_plan.py:280 | "Time not specified" adds nothing |
| FixPlanRouter.UnparsableAddsNothing | backend/routers/fix_plan.py:256-272 | an estimate whose first token `int()` rejects adds nothing |
| FixPlanRouter.RangeAddsNothing | backend/routers/fix_plan.py:256-272 | a range such as "2-3 days" adds nothing |
| FixPlanRouter.WeeksAreFiveDays | backend/routers/fix_plan.py:264 | "n weeks" counts as 5n days |
| FixPlanRouter.Estimates | backend/routers/fix_plan.py:250 | one estimate per suggestion, in order |
| FixPlanRouter.BuildPlan | backend/routers/fix_plan.py:54-85 | one plan entry per flaw, in order, holding exactly that flaw's suggestions |
| FixPlanRouter.AllSuggestions | backend/routers/fix_plan.py:88-90 | the suggestions of every entry, entry by entry, in order |
| FixPlanRouter.GetFixPlan | backend/routers/fix_plan.py:15-108 | 404/403 first; then one entry per flaw with exactly its suggestions; no flaws give "0 hours" and zero counts; otherwise bucket counts that add up to the total, and the total time |
| FixPlanRouter.GetFlawSuggestions | backend/routers/fix_plan.py:110-157 | 404 for a missing flaw, then the workflow's 404/403; otherwise exactly that flaw's suggestions with its title and severity |
| FixPlanRouter.Paired | backend/routers/fix_plan.py:187-191 | each suggestion is paired with its flaw, in order |
| FixPlanRouter.PairWith | backend/routers/fix_plan.py:187-191 | the inner loop pairs each suggestion of one flaw with that flaw, in order |
| FixPlanRouter.CollectItems | backend/routers/fix_plan.py:180-191 | the outer loop collects, flaw by flaw in table order, every suggestion of each flaw paired with it |
| FixPlanRouter.GroupByPriority | backend/routers/fix_plan.py:201-227 | the grouping loop computes the three priority buckets |
| FixPlanRouter.GetPrioritizedFixPlan | backend/routers/fix_plan.py:159-239 | 404/403 first; otherwise the buckets of the list sorted by (priority, severity rank) and the total count |
| FixPlanRouter.PrioritizedPlanOrdered | backend/routers/fix_plan.py:193-237 | each bucket is sorted, the buckets together are the items, and equal keys keep their order |
| DashboardRouter.UserFlaws | backend/routers/dashboard.py:35-38 | exactly the flaws of the given workflows |
| DashboardRouter.RecentMeaning | backend/routers/dashboard.py:52 | at most five workflows, newest first, all from the input, and none newer than any left out |
| DashboardRouter.GetDashboardStats | backend/routers/dashboard.py:16-90 | 403 for another user's id; otherwise the user's counts, mean weight, recent five and both distributions |
| DashboardRouter.GetCurrentUserDashboard | backend/routers/dashboard.py:92-98 | the current user always gets their own statistics |
| DashboardRouter.StatsConsistent | backend/routers/dashboard.py:41-75 | the type counts add up to the flaw total, the severity counts to at most it, the average is the weighted mean in [0, 10] (0 without flaws), and at most five recent workflows are listed |
| DashboardRouter.Colors | backend/routers/dashboard.py:148-151 | the colours are the first min(k, palette size) palette entries |
| DashboardRouter.PieChart | backend/routers/dashboard.py:138-152 | the chart loop computes the pie chart |
| DashboardRouter.PieOfMeaning | backend/routers/dashboard.py:173-187 | distinct labels, exactly the seen keys; one positive count per label, adding up to the item count; colours from the palette's head |
| DashboardRouter.PieFollowsFirstOccurrence | backend/routers/dashboard.py:138-152 | the slices, and so their palette colours, follow the order in which their keys first occur |
| DashboardRouter.SeverityChart | backend/routers/dashboard.py:154-171 | the chart loop computes the severity chart |
| DashboardRouter.SeverityChartMeaning | backend/routers/dashboard.py:156-160 | four bars counting critical, high, medium and low exactly, adding up to the known severities |
| DashboardRouter.SortedDays | backend/routers/dashboard.py:198 | sorting distinct dates gives them in strictly ascending order |
| DashboardRouter.FlawsOverTime | backend/routers/dashboard.py:189-204 | the chart loop computes the flaws-over-time chart |
| DashboardRouter.FlawsOverTimeMeaning | backend/routers/dashboard.py:192-203 | the labels are exactly the flaw dates, strictly ascending, each with its positive flaw count, and the counts add up to the number of flaws |
| DashboardRouter.TrendScores | backend/routers/dashboard.py:212-217 | the score dictionary's keys are each listed once |
| DashboardRouter.LastScored | backend/routers/dashboard.py:212-217 | the last workflow of a date that has flaws |
| DashboardRouter.TrendLastWins | backend/routers/dashboard.py:212-217 | a date is scored iff one of its workflows has flaws, and its score is that of the last such workflow |
| DashboardRouter.BrutalityTrend | backend/routers/dashboard.py:206-226 | the chart loop computes the brutality trend |
| DashboardRouter.TrendMeaning | backend/routers/dashboard.py:206-226 | the labels are the scored dates in ascending order, each with the score of its last flawed workflow, within [0, 10] |
| DashboardRouter.GetDashboardCharts | backend/routers/dashboard.py:100-136 | 403 for another user's id; otherwise the five charts over the user's workflows and their flaws |
| UploadRouter.Pick | backend/routers/upload.py:103-111 | a field falls back to its alternative or default only when the key is absent |
| UploadRouter.RowDict | backend/routers/upload.py:88-89 | a row has exactly the header's keys |
| UploadRouter.ParseCsvFile | backend/routers/upload.py:81-121 | the loop builds the CSV structure |
| UploadRouter.CsvStepsMeaning | backend/routers/upload.py:100-113 | one step per row, step i has id i + 1 and keeps its row, and is named "Step i+1" when the header has no name column |
| UploadRouter.ParseJsonFile | backend/routers/upload.py:123-183 | the loop builds the JSON structure |
| UploadRouter.JsonStepsMeaning | backend/routers/upload.py:135-158 | steps come only from dict items, ids are original positions plus 1 in increasing order, and every dict item yields a step |
| UploadRouter.ParsedIsWorkflowData | backend/models/schemas.py:36-39 | parsed data is always a dict with file type csv or json, so the upload is a valid `WorkflowCreate` iff the name has 1..255 characters |
| UploadRouter.ConvertedIsAnalysable | backend/routers/upload.py:40-172 | a JSON dict already holding "steps" is stored as it came; any other upload can be analysed unless it is a single JSON dict holding the key `self` or `node_for_adding`; a CSV's step count is its row count |
| UploadRouter.SelfKeyNotAnalysable | backend/routers/upload.py:161-166 | a JSON upload of the single dict {"self": 1} is accepted and wrapped as the only step, yet its data cannot be analysed, because `add_node` refuses the key |
| UploadRouter.ParseUploadFile | backend/routers/upload.py:40-53 | dispatch: CSV by name or type, else JSON by name or type, else JSON with CSV as the fallback |
| UploadRouter.UploadWorkflowFile | backend/routers/upload.py:19-79 | 400 for any other content type; 500 when parsing or validation fails, with nothing stored; otherwise one new "uploaded" workflow with the next id |
| UploadRouter.GetUserWorkflows | backend/routers/upload.py:185-204 | one listing per workflow of the user, and only those |
| AnalyzeRouter.ValidPrefix | backend/routers/analyze.py:45-73 | the length of the leading run of elements that pass the check |
| AnalyzeRouter.FlawRows | backend/routers/analyze.py:45-56 | one flaw row per analysed flaw, in order, with consecutive ids |
| AnalyzeRouter.SuggestionRows | backend/routers/analyze.py:60-73 | suggestion i is linked to flaw i |
| AnalyzeRouter.StoreFlaws | backend/routers/analyze.py:44-56 | flaws are stored in order, with consecutive ids, up to the first one `FlawCreate` rejects; nothing else changes |
| AnalyzeRouter.StoreSuggestions | backend/routers/analyze.py:59-73 | suggestion i is stored against flaw i while there is one, up to the first one `FixSuggestionCreate` rejects; nothing else changes |
| AnalyzeRouter.SaveAnalysis | backend/routers/analyze.py:39-82 | rows are saved up to the first one `FlawCreate` or `FixSuggestionCreate` rejects, which marks the workflow "failed" with a 500; otherwise all flaws and min(#suggestions, #flaws) suggestions are saved and the workflow is "analyzed" with the flaw count and score |
| AnalyzeRouter.MockIsStorable | backend/routers/analyze.py:45-73 | the four mock flaws and suggestions all meet the request-model constraints, and each suggestion has a flaw |
| AnalyzeRouter.GetAnalysisStatus | backend/routers/analyze.py:209-234 | 404/403 first; otherwise the workflow's status and update time |
| AnalyzeRouter.RunAnalysis | backend/routers/analyze.py:39-131 | data that cannot be walked marks the workflow "failed" with a 500 and saves nothing; otherwise four flaws and suggestions are saved, it is "analyzed", and the response is the "Workflow analysis completed successfully" envelope carrying the workflow id, exactly the saved flaw and suggestion rows, score 6.0, four flaws and the processing time |
| AnalyzeRouter.AnalyzeWorkflow | backend/routers/analyze.py:17-131 | 404/403 before any change; then the analysis of that row, with the full success envelope on success, after which the status endpoint reports "analyzed" on success and "failed" on error |
| AnalyzeRouter.SuggestionsOfFlawsMeaning | backend/routers/analyze.py:154-157 | exactly the suggestions of the listed flaws |
| AnalyzeRouter.GetAnalysisResults | backend/routers/analyze.py:133-207 | 404/403 first; 404 when no flaws are stored; otherwise the flaws, their suggestions, the mean weight and processing time 0.0 |
| AnalyzeRouter.FlawsOfAppend | backend/services/workflow_service.py:57-59 | the flaws of a workflow in two tables are the flaws in each, in order |
| AnalyzeRouter.ResultsAfterAnalysis | backend/routers/analyze.py:133-207 | after a first analysis the stored results are exactly the four mock flaws, scoring 6.0 |

## Left out

- Timers are explicit `Tick` calls and `RunInterval` loops. Real time, the 200 ms and 30 ms periods and interval clean-up on unmount are not modelled.
- The `await` delays in `Login.jsx` are modelled by splitting each handler at its await. Edits made during the delay are not modelled.
- Login.LoginForm.FinishSubmit: the credential check uses the email and password captured when the submit began; the model reads the form fields, which is the same as long as no edit comes between the two halves.
- Toast styling, motion, chart configuration and all markup other than the conditions listed above are not modelled. `Landing.jsx`, the sign-up page and the theme context are not part of this model.
- The browser's HTML5 `type="email"` check, which runs before `validateForm`, is not modelled.
- The LLM chain in `_analyze_with_ai` is not modelled. Every path through `analyze_workflow` yields the mock analysis, so the model always returns it.
- Percent-decoding of the pathname, which React Router applies before matching, is not modelled: paths are matched as given.
- The node attributes networkx copies from each step are not modelled. The graph is its node and edge sets.
- JWT authentication and password hashing are not modelled. The current user is a parameter. `EmailStr` validation is not modelled.
- Floats are exact reals. The `:.1f` formatting and the exact summary wording are not modelled: the summary is a sequence of sentence values.
- Python `int()` is modelled on an optional sign plus ASCII digits only. Underscores, surrounding whitespace in the token and non-ASCII digits are not accepted. `lower()` is ASCII only.
- File decoding, `csv.DictReader` and `json.loads` are not modelled. An upload carries their results (a header and rows, or a JSON value) as parameters, and a parse failure is their absence. DictReader's extra-field key and its skipping of blank lines are not modelled.
- UploadRouter.UploadWorkflowFile: the 500 detail is the fixed prefix "Failed to process file: ". The exception text appended to it is not modelled.
- AnalyzeRouter.SaveAnalysis: the 500 detail is the fixed prefix "Analysis failed: ". The exception text appended to it is not modelled.
- AnalyzeRouter.AnalyzeWorkflow: the "processing" status is committed before the analysis runs, but the contract states only the final status. That final status is all a caller sees once the request returns.
- The copy of the analysis results inside `processed_data` is reduced to the flaw count and the score.
- Dates are day numbers and times within the day, compared as ISO strings compare.
- Database queries return rows in insertion order, and ids are assigned from 1 with no deletions.
- Suggestion priorities are integers. A non-integer priority cannot reach the buckets.
- `Schemas.ValidUserCreate` states the `UserCreate` constraints, but no modelled operation creates users. Sign-up belongs to the authentication router, which is not part of this model.
- `report.py`, `main.py`, `workflow_service.create_report` and the duplicate application at the repository root are not part of this model.
