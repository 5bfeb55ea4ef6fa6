# Student portal: grade statistics, forecast scores, attendance log, sign-in and LMS views

This project models the deterministic core of a student/teacher portal written
as React components over a hosted database and a generative-AI text service.
The modelled parts are:

- **Grade report** (`grades.dfy`, module `Grades`). `calculateStats` makes one
  pass over the grade rows. It accumulates per-semester and grand totals of
  credits and credit-weighted grade points. It then makes a second pass setting
  each semester's SGPA, and it derives the CGPA. Each average is the
  credit-weighted mean read back from `toFixed(2)`, or 0 when the credit
  total is not positive. The report also decides after which rows a semester summary row is
  shown.
- **Forecast panel** (`forecast.dfy`, module `Forecast`). It covers:
  - the mean attendance;
  - the success, arrear-risk and improvement scores, rounded with `Math.round`;
  - the placement verdict;
  - the insight fallback;
  - the panel state left by one forecast run, including a run that throws.
- **Attendance view** (`attendance.dfy`, module `Attendance`). The course list
  is loaded on mount. `toggleExpand` keeps at most one course's daily log open
  and replaces the log with the rows fetched for it.
- **Portal shell** (`portal.dfy`, module `Portal`). It covers:
  - `handleLogin`: the student match is tried first, then the teacher match, otherwise an error message;
  - `handleLogout`;
  - the screen chosen for the signed-in role and the active tab, including the "logout" tab and the placeholder page with its Return Home button.
- **LMS pages** (`lms.dfy`, module `Lms`). It covers:
  - the enrolled-course list with course selection and Back;
  - the course view with its three tabs;
  - the grouping of materials into weeks 1 to 4, where empty weeks are skipped.

`types.dfy` holds the record shapes and the `{ data, error }` query result.
`numbers.dfy` holds `Math.round` (`HalfUp`) and `toFixed(2)` (`ToFixed2`) over
exact reals.

Every database query and the AI request are replaced by the value they resolve
to. That value is a parameter of the method that awaits it: a `QueryResult`,
a `Lookup` (thrown, or the matching row if any) or an `AiReply` (thrown, or the
reply text). JavaScript numbers are modelled as exact `real`s. Component state
is modelled as classes whose methods are the handlers and effects. Each class
has constructors for the initial `useState` values. Small client methods
(`FailedLogin`, `ToggleTwice`, `SelectThenBack`, …) run a fresh component
through a sequence of events and state the outcome.

`Object.keys(semStats).forEach` visits the semester entries in an order the
model leaves open (`SetSgpas` picks any pending key). The proved result holds
for every visiting order.

## Model

| member | source | states |
|---|---|---|
| Numbers.HalfUp | components/MLForecasting.tsx:56-60 | `Math.round`: the result is the integer within half of its argument, with ties going up |
| Numbers.ToFixed2 | components/GradeDetails.tsx:48 | `Number(x.toFixed(2))` is a whole number of hundredths within 0.005 of x and keeps the sign of x; a tie goes away from zero (up for x ≥ 0, down for x ≤ 0), so the value is fixed for every x |
| Grades.CalculateStats | components/GradeDetails.tsx:29-54 | the semester entries exist exactly for the semesters that have rows; each entry is the point and credit totals over exactly that semester's rows with the SGPA derived from them; grandTotalCredits is the sum of all credits; cgpa is the guarded, rounded mean of the grand totals |
| Grades.AccumulateTotals | components/GradeDetails.tsx:34-44 | the first loop leaves the entry map of the accumulation over all rows; grand points are the sum of credits×grade points; grand credits are the sum of credits (loop invariants over the processed prefix) |
| Grades.SetSgpas | components/GradeDetails.tsx:46-49 | the second loop keeps the same semesters and gives each entry the SGPA of its own totals, in whatever order the keys are visited |
| Grades.AccumulationEntries | components/GradeDetails.tsx:35-43 | after the first pass there is an entry for each semester that has rows, and each entry holds that semester's point and credit sums |
| Grades.SemesterIffRow | components/GradeDetails.tsx:35-37 | a semester has an entry if and only if some row carries that semester number |
| Grades.InSemesterMembers | components/GradeDetails.tsx:35-40 | the rows added into a semester's entry are exactly the rows that carry that semester |
| Grades.NoRowsOutsideSemesters | components/GradeDetails.tsx:35-37 | a semester without an entry has no rows |
| Grades.InSemesterAppend | components/GradeDetails.tsx:34-40 | selecting a semester's rows keeps their order: it commutes with concatenation |
| Grades.TotalAppend | components/GradeDetails.tsx:34-44 | the accumulated sum over two lists joined is the sum of the two sums |
| Grades.TotalRemove | components/GradeDetails.tsx:34-44 | removing one row from the list removes exactly its weight from the accumulated sum |
| Grades.PermutationWithout | components/GradeDetails.tsx:34-44 | the inductive step of `TotalPermutation`: removing the last row of one reordering, and one copy of that row from the other, leaves two reorderings of each other |
| Grades.Gpa | components/GradeDetails.tsx:48-51 | SGPA/CGPA is 0 when the credit total is not positive; otherwise it is within 0.005 of points/credits and is a whole number of hundredths |
| Grades.TotalPermutation | components/GradeDetails.tsx:34-44 | a sum accumulated in the forEach is the same for every reordering of the rows |
| Grades.InSemesterCount | components/GradeDetails.tsx:35-40 | a semester's rows hold each row of that semester as often as the list does, and no other rows |
| Grades.StatsOrderIndependent | components/GradeDetails.tsx:34-51 | reordering the grade rows leaves the semester set, every semester's entry, the grand totals and the CGPA unchanged |
| Grades.SumOverSemestersSnoc | components/GradeDetails.tsx:39-43 | adding a row adds its weight to the per-semester sum exactly when its semester is listed |
| Grades.ZeroOverSemesters | components/GradeDetails.tsx:31-32 | with no rows, the semester totals summed over any list of semesters come to 0 |
| Grades.SemesterTotalsAddUp | components/GradeDetails.tsx:38-43 | summed over a list of all semesters, each named once, the per-semester totals (points or credits) equal the grand totals |
| Grades.WeightedBounds | components/GradeDetails.tsx:38-43 | with non-negative credits and grade points in [lo, hi], the point total lies between lo×credits and hi×credits |
| Grades.MeanBetween | components/GradeDetails.tsx:51 | the division step of `GpaWithinGradeRange`: a point total between lo×credits and hi×credits, divided by positive credits, lies in [lo, hi] |
| Grades.GpaWithinGradeRange | components/GradeDetails.tsx:51 | with positive total credits and every grade point in [lo, hi], the unrounded CGPA lies in [lo, hi] |
| Grades.SgpaWithinGradeRange | components/GradeDetails.tsx:48 | when that semester's rows have non-negative credits, some credit in all, and grade points in [lo, hi], the semester's unrounded SGPA lies in [lo, hi]; rows of other semesters are unconstrained |
| Grades.CgpaExample | components/GradeDetails.tsx:51 | credits [3, 4] with grade points [8, 9] give a CGPA of 8.57; no rows give 0 |
| Grades.IsLastInSem | components/GradeDetails.tsx:126 | the final row is always followed by a summary; a row that is not has a later row of its own semester |
| Grades.LastInSemIsLastOfSemester | components/GradeDetails.tsx:126 | on rows sorted by semester, a row gets a summary if and only if no later row is in its semester |
| Grades.OneSummaryPerSemester | components/GradeDetails.tsx:126 | on rows sorted by semester (the query orders them so), every semester with rows gets exactly one summary row |
| Forecast.AvgAttendance | components/MLForecasting.tsx:28-30 | mean attendance is 0 for no records; otherwise, times the number of records, it equals the sum of the percentages, with missing ones counted as 0 |
| Forecast.SumPercentBounds | components/MLForecasting.tsx:29 | if every percentage is in [lo, hi], the sum lies between n×lo and n×hi |
| Forecast.AvgAttendanceBounds | components/MLForecasting.tsx:28-30 | if every percentage is in [lo, hi], the mean attendance is in [lo, hi] |
| Forecast.SuccessScore | components/MLForecasting.tsx:53 | the raw success score is the smaller of 95 and cgpa×10 + attendance/10, so it never exceeds 95 |
| Forecast.RiskScore | components/MLForecasting.tsx:54 | with arrears > 0 the risk is 40 + 10×arrears, whatever the success score, with no upper clamp; otherwise it is the larger of 5 and 100 − success, which is 100 − success whenever success ≤ 95 |
| Forecast.ImprovementScore | components/MLForecasting.tsx:59 | the improvement score is 15 if and only if mean attendance is strictly above 85; otherwise it is 30 |
| Forecast.Scores | components/MLForecasting.tsx:53-60 | each displayed score is its raw score rounded half-up; success ≤ 95; with arrears the risk is 40 + 10×arrears; without arrears the risk is ≥ 5 and success + risk is 100, or 101 on a .5 tie; the improvement score is 15 if attendance > 85 and 30 otherwise |
| Forecast.PlacementOf | components/MLForecasting.tsx:185-188 | 'Qualified'/'Likely' if and only if cgpa > 7.5 strictly; otherwise 'Requires Effort'/'Moderate' |
| Forecast.InsightText | components/MLForecasting.tsx:50 | the insight is never empty: it is the reply text when that is nonempty, else the fallback sentence |
| Forecast.ForecastPanel.constructor | components/MLForecasting.tsx:9-15 | the panel starts loading, with an empty insight and all three scores 0 |
| Forecast.ForecastPanel.GenerateForecast | components/MLForecasting.tsx:18-67 | on a reply, the insight and the rounded scores of the student and the fetched attendance are set; on an exception, the insight and scores stay as they were; loading is false at the end either way |
| Forecast.FirstForecastAfterFailure | components/MLForecasting.tsx:45-66 | when the first run throws, all three scores stay 0, the insight stays empty and loading ends false |
| Forecast.FirstForecastAfterReply | components/MLForecasting.tsx:50-60 | a first run with a reply shows the reply's insight (never empty) and exactly the rounded scores of the student and the fetched attendance: success ≤ 95, and improvement 15 if and only if attendance > 85 |
| Attendance.AttendanceView.constructor | components/AttendanceDetails.tsx:8-12 | the view starts loading, with no rows, no expanded course, no daily rows, and the daily log not loading |
| Attendance.AttendanceView.FetchData | components/AttendanceDetails.tsx:14-26 | the rows replace the data only when the query has no error and non-null rows; otherwise the data is kept; loading ends false |
| Attendance.AttendanceView.StartToggle | components/AttendanceDetails.tsx:31-38 | toggling the open course closes it, with no fetch and the daily rows untouched; toggling any other course makes it the single expanded course, with the daily log loading |
| Attendance.AttendanceView.FinishDailyFetch | components/AttendanceDetails.tsx:47-52 | the daily rows become the fetched rows on success, and [] on an error or null data; the daily log stops loading |
| Attendance.AttendanceView.ToggleExpand | components/AttendanceDetails.tsx:31-53 | the whole toggle: close the open course and keep its rows, or open another course alone with its fetched rows (or []) and the daily log not loading; at most one course is expanded |
| Attendance.ToggleTwice | components/AttendanceDetails.tsx:31-37 | from collapsed, the first toggle of a course opens it with its fetched log, and the second toggle closes it again |
| Attendance.FailedLoad | components/AttendanceDetails.tsx:22-24 | a load with an error leaves the fresh view's data [] and loading false |
| Portal.HomeTab | App.tsx:121 | the Return Home target of each role is a tab with a screen of that role's own |
| Portal.Route | App.tsx:85-127 | students get a screen only for dashboard/attendance/marks/lms-dashboard; teachers get one only for teacher-dashboard; any other tab gives the placeholder leading to the role's home tab; students never get the teacher screen |
| Portal.RouteInjective | App.tsx:85-114 | different tabs of a role show different screens |
| Portal.App.constructor | App.tsx:13-16 | the shell starts on 'dashboard', signed out, with no error and not loading |
| Portal.App.HandleLogin | App.tsx:18-56 | a student match wins: role student, tab unchanged, teacher lookup never consulted; otherwise a teacher match gives role teacher and tab 'teacher-dashboard'; no match keeps the user and sets the invalid-credentials message; a throw sets the connection-error message; the error is cleared on success; isLoading always ends false |
| Portal.App.HandleLogout | App.tsx:58-61 | signs out: user null and tab 'dashboard' |
| Portal.App.SelectTab | App.tsx:131 | the navigation sets the active tab and nothing else |
| Portal.App.Render | App.tsx:63-128 | shows the loading screen while loading and the login form with the error when signed out; the 'logout' tab signs out and shows nothing; any other tab shows the routed screen of the user's role |
| Portal.App.ReturnHome | App.tsx:121 | Return Home selects the signed-in role's home tab |
| Portal.FailedLogin | App.tsx:48-49 | credentials matching no row show the login form with 'Invalid Credentials. Check ID or Password.' |
| Portal.StudentLogin | App.tsx:31-35 | a student match shows the student dashboard and never queries the teacher table |
| Portal.TeacherLogin | App.tsx:45-47 | a teacher match shows the teacher dashboard |
| Portal.LogoutThroughTab | App.tsx:80-83 | selecting 'logout' renders nothing once, and then the login form with no error |
| Portal.UnknownTabThenHome | App.tsx:116-127 | a tab of neither role shows the placeholder, and Return Home leads to a screen of the role's own |
| Lms.MaterialsOfWeek | components/LMSModule.tsx:125 | every material of a week's group has that week number |
| Lms.MaterialsOfWeekCount | components/LMSModule.tsx:125 | a week's group holds each material of that week as often as it was fetched, and nothing else |
| Lms.MaterialsOfWeekAppend | components/LMSModule.tsx:125 | a week's group keeps the fetched order: the filter commutes with concatenation |
| Lms.GroupWeeks | components/LMSModule.tsx:124-126 | each group holds exactly its week's materials and is nonempty; a week has a group if and only if it is listed and has materials |
| Lms.GroupWeeksAscending | components/LMSModule.tsx:124-126 | groups built along ascending weeks come out in ascending week order |
| Lms.WeekGroups | components/LMSModule.tsx:124-126 | the materials tab shows groups in ascending week order; a group exists for week w if and only if 1 ≤ w ≤ 4 and week w has materials; each group holds exactly its week's materials |
| Lms.DisplayedCounts | components/LMSModule.tsx:124-126 | along distinct weeks, a material is displayed as often as it was fetched if its week is listed, and never otherwise |
| Lms.WeeksOfIndex | components/LMSModule.tsx:124-126 | each group's heading is its own week number, one heading per group, at the same position |
| Lms.DisplayedMaterials | components/LMSModule.tsx:124-125 | materials outside weeks 1 to 4 are never displayed; every other material appears exactly as often as it was fetched; no material appears in two different groups |
| Lms.LmsDashboard.constructor | components/LMSModule.tsx:11-13 | the course list starts loading, empty, with nothing selected |
| Lms.LmsDashboard.FetchCourses | components/LMSModule.tsx:15-27 | the courses become the joined course of each enrollment, in order, only when the query has no error and data; otherwise they are kept; loading ends false |
| Lms.LmsDashboard.SelectCourse | components/LMSModule.tsx:43 | a card click selects that course |
| Lms.LmsDashboard.Back | components/LMSModule.tsx:34 | Back clears the selection |
| Lms.LmsDashboard.Screen | components/LMSModule.tsx:31-35 | the spinner while loading; otherwise the selected course's view if a course is selected, else the list of the loaded courses |
| Lms.SelectThenBack | components/LMSModule.tsx:33-35 | after loading, a selected course shows its course view, and Back returns to the loaded list |
| Lms.CourseView.constructor | components/LMSModule.tsx:72-76 | the course view starts on the materials tab, loading, with empty lists |
| Lms.CourseView.FetchData | components/LMSModule.tsx:78-90 | each list takes its query's rows, or [] when the data is missing, whatever the error; loading ends false |
| Lms.CourseView.SetTab | components/LMSModule.tsx:105-108 | a tab button selects its tab and nothing else |
| Lms.CourseView.Panel | components/LMSModule.tsx:120-196 | the spinner while loading; otherwise the materials tab shows the week groups, one for each week from 1 to 4 that has materials, and the assignments and quizzes tabs show the fetched lists |
| Lms.OpenCourse | components/LMSModule.tsx:119-126 | once loaded, the materials tab shows ascending week groups, one for each week from 1 to 4 that has materials |

## Left out

- Every database query is modelled by the result it resolves to: a `QueryResult`, a `Lookup` or the rows. This covers the filters, the ordering (`order('semester')`, `order('date')`, `order('week_number')`) and `maybeSingle`. The ordering by semester appears only as the `SortedBySemester` premise of the summary-row lemmas.
- The generative-AI request and its prompt are left out, including the `toFixed(2)` of the attendance inside the prompt. Only the reply text, or a failure, enters the model.
- Forecast.ForecastPanel.GenerateForecast: an exception is modelled as one `Failed` outcome before any state is set. This covers both the AI call and the `Promise.all` of the two queries. The grades query result is not used by the source and is not modelled.
- JavaScript number details are left out: `parseFloat` of a non-numeric percentage (NaN), `Number(...)` coercion of string columns, and binary floating-point rounding. Percentages, credits and grade points are exact reals. `toFixed(2)` and `Math.round` are computed on exact values, so a tie that a binary double would break differently is not captured.
- Async interleavings are left out: stale responses after quick toggles, and effects re-running when a prop changes. `toggleExpand` is split at its await into `StartToggle` and `FinishDailyFetch`. `ToggleExpand` runs both halves together.
- Portal.App.HandleLogin: runs atomically, so the loading screen shown while the lookups are pending is not observable. The same holds for `loading` in `GenerateForecast`, `FetchData`, `FetchCourses` and `CourseView.FetchData`. Each of these sets it at the start and clears it at the end.
- Portal.App.HandleLogin: the credential filters (`reg_no`/`staff_id` and `password`) and the lookup errors `sError`/`tError` are left out. The source ignores those errors. Only whether a row matched, or the lookup threw, is modelled.
- Signed-in users keep only an id and a name. The other student and teacher columns are not modelled.
- JSX rendering, CSS, icons, and the hard-coded tables and numbers are left out. This includes the forecast outcome matrix apart from the placement row, the teacher statistic cards and the grade table cells. The screens are reduced to the `Screen`, `DashboardScreen` and `CoursePanel` values.
- The grade report's own data load, the credit-requirements table, the other components (dashboard, login form, layout, teacher LMS, stored grade forecast), `constants.tsx`, and the assignment submission and quiz details are not part of this model.
