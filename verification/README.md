# Complaint Compass portal — a Dafny model of its core

Complaint Compass is a tax-complaint portal. Citizens submit and track
complaints on a public page. Staff log in and see a role-dependent
sidebar. They work complaints through a fixed status flow, shown as a
progress bar. They fill three work queues, search lists, read four reports
and edit complaints, assessments and responses in detail sheets.

This project models that behaviour as pure Dafny functions over immutable
records, and proves what the pages promise about it:

- **Status flow.** The nine statuses and the eight-step happy path
  (`Types`, `StatusFlow`). The progress bar that draws the flow (`ProgressBar`).
- **Seed data.** The seed records and their well-formedness (`MockData`).
- **Work queues.** Assign, unassigned and closed (`Queues`).
- **Search.** The search filters of the complaint and assessment lists (`Search`).
- **Figures.** The dashboard's stat cards (`Dashboard`) and the four reports
  (`ComplaintsReport`, `PerformanceReport`, `FeedbackReport`,
  `AssessmentReport`). They all round with `Math.round` (`Percent`).
- **Detail sheets.**
  - The edit/delete state machine shared by the complaint and assessment
    sheets (`EditSession`).
  - The complaint sheet's text download (`ComplaintSheet`).
  - The add-assessment dialog (`AssessmentSheet`).
  - The response sheet's detail/edit/send modes and its response document
    (`ResponseSheet`).
- **Staff side.** Login and logout (`Auth`). The role → navigation table of
  the sidebar (`Sidebar`).
- **Citizen page.** TIN verification, submission and tracking (`CitizenPortal`).
- **Text and language.**
  - The translation lookup with its two fallbacks (`Translations`).
  - The language context (`LanguageContext`).
  - The heading of a page that is not built yet (`PageTitle`).

Shared vocabulary lives in small modules:

- `JsValues` holds JavaScript's `||`, `??` and truthiness on optional
  strings, the em-dash placeholder and its mojibake.
- `Seqs` holds order-preserving filters and counts.
- `Text` holds ASCII lower-casing, substring search, decimal printing and
  parsing, `padStart`, `split` and `join`.
- `Lookup` holds `Object.fromEntries` lookups, where the last key wins.
- `Records` holds the record shapes the sheets actually read.

The model treats these as parameters:

- The clock: `year`, `nowIso`, `nowMillis`, and the created/generated date
  texts.
- `Math.random()`: `draw`.
- `localStorage`: a `stored` field kept next to the state it mirrors.
- The translation table: a `map` from key to the three texts.
- Seed data: the seed arrays are constants, and most operations take the
  arrays as arguments.

## Model

| member | source | states |
|---|---|---|
| Types.ParseRole | src/lib/types.ts:1 | A stored role string names a role only when it is one of the five role names. |
| Types.RolesComplete | src/lib/types.ts:1 | There are exactly five roles, each listed once, and each role's name reads back as that role. |
| Types.ParseStatus | src/lib/types.ts:3-12 | A status string names a status only when it is one of the nine status names. |
| Types.StatusNamesRoundTrip | src/lib/types.ts:3-12 | Every status's display name reads back as that status. |
| StatusFlow.IndexOf | src/components/ComplaintProgressBar.tsx:11 | `indexOf` gives the first position holding the value, or -1 exactly when the value is absent. |
| StatusFlow.FlowIsStatusesWithoutRejected | src/lib/mockData.ts:3-11 | The happy path is the full status list with Rejected removed, in the same order. |
| StatusFlow.StatusesListEveryStatusOnce | src/lib/mockData.ts:3-6 | The status list names all nine statuses, each exactly once. |
| StatusFlow.FlowShape | src/lib/mockData.ts:8-11 | The flow has eight distinct steps from New to Closed and never contains Rejected. |
| StatusFlow.FlowIndexRange | src/components/ComplaintProgressBar.tsx:11 | Only Rejected is off the flow (index -1). Every other status has a position 0..7 that holds it. |
| MockData.SeedStaffWellFormed | src/lib/mockData.ts:24-31 | Seeded staff have distinct ids and distinct emails. Exactly the officer and directorate users carry a directorate. |
| MockData.SeedReferencesResolve | src/lib/mockData.ts:70-78 | Every seeded assessment and response names a seeded complaint and a seeded staff author. |
| MockData.SeedAssignmentConsistent | src/lib/mockData.ts:33-68 | A seeded complaint has an assigned officer exactly when it is past New/Categorized, and that officer is an officer. |
| MockData.SeedCategoriesWellFormed | src/lib/mockData.ts:13-18 | Category names are distinct and each category has subcategories. |
| ProgressBar.Render | src/components/ComplaintProgressBar.tsx:10-57 | Rejected, and only Rejected, draws the banner. Any other status draws the eight flow steps, with the fill at its own flow position out of 7. |
| ProgressBar.StepsClassified | src/components/ComplaintProgressBar.tsx:26-38 | A step is completed iff it is at or before the current status. It shows a check iff it is strictly before. It is current iff it holds the status. |
| ProgressBar.StepPosition | src/components/ComplaintProgressBar.tsx:27-28 | Reached, passed and current steps are positioned relative to the status's flow index, in both directions. |
| ProgressBar.CompletedStepsFormPrefix | src/components/ComplaintProgressBar.tsx:26-38 | Exactly index+1 steps are completed and they form a prefix. Exactly one step is current. |
| ProgressBar.FlowPositionUnique | src/lib/mockData.ts:8-11 | Two flow positions holding the same status are the same position, so a step's key is unique. |
| ProgressBar.FillIncreasing | src/components/ComplaintProgressBar.tsx:53 | A later status on the flow draws a strictly longer fill. |
| ProgressBar.FillEnds | src/components/ComplaintProgressBar.tsx:53 | New draws an empty fill and Closed a full one. |
| Queues.DrawTable | src/pages/dashboard/AssignComplaintsPage.tsx:40-72 | A queue shows its message exactly when it has no entries; otherwise it shows the entries unchanged. |
| Queues.Officers | src/pages/dashboard/AssignComplaintsPage.tsx:10 | The officers on offer are the staff with the officer role, in staff order, each as often as in the staff list and nobody else. |
| Queues.Assignable | src/pages/dashboard/AssignComplaintsPage.tsx:11 | The assign queue is the New and Categorized complaints, in order, each as often as in the list and nothing else. |
| Queues.AssignableEarlyInFlow | src/pages/dashboard/AssignComplaintsPage.tsx:11 | Every complaint in the assign queue sits at flow position 0 or 1. |
| Queues.AssignTable | src/pages/dashboard/AssignComplaintsPage.tsx:40-72 | The assign page has one row per assignable complaint, and each row offers every officer, in staff order, and nobody else. When there is none it shows "No complaints to assign". |
| Queues.Unassigned | src/pages/dashboard/UnassignedComplaintsPage.tsx:7 | The unassigned queue is the complaints whose assignee is absent or empty, in order, each as often as in the list and nothing else. |
| Queues.UnassignedIdempotent | src/pages/dashboard/UnassignedComplaintsPage.tsx:7 | Filtering the unassigned queue again changes nothing. |
| Queues.UnassignedCategoryAsWritten | src/pages/dashboard/UnassignedComplaintsPage.tsx:32 | As written, a missing category shows the mojibake text in place of the em dash. |
| Queues.UnassignedCategoryGarbled | src/pages/dashboard/UnassignedComplaintsPage.tsx:32 | For a complaint without a category, the cell as written is not the em dash. |
| Queues.UnassignedCategory | src/pages/dashboard/UnassignedComplaintsPage.tsx:32 | Corrected: the category, or the em dash when it is missing. |
| Queues.UnassignedTable | src/pages/dashboard/UnassignedComplaintsPage.tsx:28-39 | One row per unassigned complaint, in order, with its id and name. The category cell is the category or, when it is missing, the em dash (the corrected cell; see Findings). When there is none it shows "All complaints are assigned". |
| Queues.ClosedQueue | src/pages/dashboard/ClosedComplaintsPage.tsx:8 | The closed queue is the Closed and Rejected complaints, in order, each as often as in the list and nothing else. |
| Queues.ClosedTable | src/pages/dashboard/ClosedComplaintsPage.tsx:36-56 | One row per closed complaint, or "No closed complaints". |
| Queues.ClosedDisjointFromAssignable | src/pages/dashboard/ClosedComplaintsPage.tsx:8 | No complaint is both in the closed queue and in the assign queue. |
| Search.SearchComplaints | src/pages/dashboard/ComplaintsList.tsx:13-17 | The list keeps the complaints whose id or name contains the query ignoring case, or whose TIN contains it as typed. Order is kept, and each match appears as often as in the input while a non-match never appears. |
| Search.SearchComplaintsEmptyQuery | src/pages/dashboard/ComplaintsList.tsx:13-17 | An empty query lists every complaint. |
| Search.SearchComplaintsNarrows | src/pages/dashboard/ComplaintsList.tsx:13-17 | Extending the query never adds a complaint: the new list is a subsequence of the old. |
| Search.LowerNarrow | src/pages/dashboard/ComplaintsList.tsx:14-15 | A case-insensitive match of a longer query implies a match of any query it contains. |
| Search.IdAndNameIgnoreCase | src/pages/dashboard/ComplaintsList.tsx:14-15 | Queries that differ only in case match the same id or name. |
| Search.TinKeepsCase | src/pages/dashboard/ComplaintsList.tsx:16 | The TIN comparison is case-sensitive: "AB" finds TIN "AB12" and "ab" does not. |
| Search.SearchAssessments | src/pages/dashboard/AssessmentsList.tsx:18-24 | The list keeps the records whose assess number, complaint id, topic, recipient or sender contains the query, ignoring case. Order is kept, and each match appears as often as in the input while a non-match never appears. |
| Search.SearchAssessmentsEmptyQuery | src/pages/dashboard/AssessmentsList.tsx:18-24 | An empty query lists every assessment. |
| Search.SearchAssessmentsNarrows | src/pages/dashboard/AssessmentsList.tsx:18-24 | Extending the query never adds an assessment. |
| Search.ExplanationDateCellAsWritten | src/pages/dashboard/AssessmentsList.tsx:75 | As written, a missing explanation date shows the mojibake text. |
| Search.ExplanationDateGarbled | src/pages/dashboard/AssessmentsList.tsx:75 | For a record without an explanation date, the cell as written is not the em dash. |
| Search.ExplanationDateCell | src/pages/dashboard/AssessmentsList.tsx:75 | Corrected: the date, or the em dash when it is missing. |
| Percent.RoundPercent | src/pages/dashboard/reports/PerformanceReportPage.tsx:19 | `Math.round(part / whole * 100)` is the nearest integer, with halves rounded up. |
| Percent.RoundPercentRange | src/pages/dashboard/reports/PerformanceReportPage.tsx:19 | For a part of the whole the percentage is in 0..100. All of it is 100 and none is 0. |
| Percent.RoundPercentMonotone | src/pages/dashboard/reports/PerformanceReportPage.tsx:19 | A larger part never rounds to a smaller percentage. |
| Dashboard.Cards | src/pages/dashboard/DashboardHome.tsx:23-26 | Total is the number of complaints. New counts the New ones, In Progress the In Progress, Assigned and Sent to Directorate ones, and Responded the Responded ones. With the complaints in no card they add up to the total. |
| Dashboard.CardsPartition | src/pages/dashboard/DashboardHome.tsx:23-26 | The three cards plus the complaints in no card add up to the total. |
| Dashboard.Recent | src/pages/dashboard/DashboardHome.tsx:51 | The recent list is the first five complaints, or all when fewer. |
| Dashboard.Preview | src/pages/dashboard/DashboardHome.tsx:55 | The preview is the first 60 characters of the details followed by "...". |
| Dashboard.ResolutionRate | src/pages/dashboard/DashboardHome.tsx:82 | The rate is defined exactly when there are complaints. It is the share of Responded complaints as a percentage rounded half up, so it lies in 0..100: 100 when all have responded and 0 when none has. |
| ComplaintsReport.CountsFor | src/pages/dashboard/reports/ComplaintsReportPage.tsx:8-11 | One entry per listed status, in list order, each counting at most all complaints. |
| ComplaintsReport.StatusCounts | src/pages/dashboard/reports/ComplaintsReportPage.tsx:8-11 | The report has nine entries, in status-list order. |
| ComplaintsReport.CountsForEntry | src/pages/dashboard/reports/ComplaintsReportPage.tsx:10 | Each entry counts exactly the complaints holding its status. |
| ComplaintsReport.CountsForNoComplaints | src/pages/dashboard/reports/ComplaintsReportPage.tsx:8-11 | With no complaints every count is zero. |
| ComplaintsReport.CountsForCons | src/pages/dashboard/reports/ComplaintsReportPage.tsx:8-11 | One more complaint raises the summed counts by the number of entries for its status. |
| ComplaintsReport.CountsForSumToTotal | src/pages/dashboard/reports/ComplaintsReportPage.tsx:8-11 | Over a list naming each status once, the counts sum to the number of complaints. |
| ComplaintsReport.StatusCountsSumToTotal | src/pages/dashboard/reports/ComplaintsReportPage.tsx:8-11 | The per-status cards add up to Total Complaints. |
| ComplaintsReport.MakeSummary | src/pages/dashboard/reports/ComplaintsReportPage.tsx:41-53 | The summary's Total is the number of complaints. |
| ComplaintsReport.SummaryAddsUp | src/pages/dashboard/reports/ComplaintsReportPage.tsx:41-53 | Open, Closed and Rejected add up to Total. Closed and Rejected agree with their status cards. |
| ComplaintsReport.ClosedQueueMatchesReport | src/pages/dashboard/ClosedComplaintsPage.tsx:8 | The closed queue is as long as the report's Closed plus Rejected. |
| PerformanceReport.Metric | src/pages/dashboard/reports/PerformanceReportPage.tsx:10-21 | Assigned counts the complaints assigned to the officer. Resolved counts those that are also Responded or Closed. Assessments counts the officer's assessments. With any assigned, the rate is the resolved share as a percentage rounded half up, otherwise 0; it lies in 0..100. |
| PerformanceReport.OfficerMetrics | src/pages/dashboard/reports/PerformanceReportPage.tsx:8-21 | One row per officer, in staff order, and for nobody else. |
| PerformanceReport.DirectorateCellAsWritten | src/pages/dashboard/reports/PerformanceReportPage.tsx:52 | As written, an officer without a directorate shows the mojibake text. |
| PerformanceReport.DirectorateCellGarbled | src/pages/dashboard/reports/PerformanceReportPage.tsx:52 | For an officer without a directorate, the cell as written is not the em dash. |
| PerformanceReport.DirectorateCell | src/pages/dashboard/reports/PerformanceReportPage.tsx:52 | Corrected: the directorate, or the em dash. |
| FeedbackReport.Stars | src/pages/dashboard/reports/FeedbackReportPage.tsx:49-50 | Five stars, star i filled iff i < rating. |
| FeedbackReport.FilledStars | src/pages/dashboard/reports/FeedbackReportPage.tsx:49-50 | A rating of 0..5 fills exactly that many stars. |
| FeedbackReport.Satisfied | src/pages/dashboard/reports/FeedbackReportPage.tsx:25 | The satisfied figure counts the feedback rated 4 or more. With the feedback rated below 4 it makes up all feedback. |
| FeedbackReport.SatisfiedPercent | src/pages/dashboard/reports/FeedbackReportPage.tsx:25 | The share is defined exactly when there is feedback. It is the satisfied count as a percentage of the rows, rounded half up, so it lies in 0..100: 100 when all are satisfied and 0 when none is. |
| FeedbackReport.SeedFigures | src/pages/dashboard/reports/FeedbackReportPage.tsx:23-25 | On the page's two rows: total 2, one satisfied, 50%. |
| AssessmentReport.MakeFigures | src/pages/dashboard/reports/AssessmentReportPage.tsx:19-21 | Total is the number of assessments. Officer and Directorate count the assessments of each type. |
| AssessmentReport.FiguresAddUp | src/pages/dashboard/reports/AssessmentReportPage.tsx:19-21 | Officer plus Directorate equals Total. |
| AssessmentReport.Rows | src/pages/dashboard/reports/AssessmentReportPage.tsx:37-45 | One row per assessment, in order. Each row shows "officer" or "directorate" exactly for that type. |
| EditSession.Initial | src/components/ComplaintDetailSheet.tsx:38-40 | A sheet opens not editing, with no form and no delete dialog. |
| EditSession.StartEdit | src/components/ComplaintDetailSheet.tsx:42-45 | Editing starts with a copy of the shown record, and the delete dialog is untouched. |
| EditSession.Revise | src/components/ComplaintDetailSheet.tsx:190-238 | Typing changes the form only while editing with a form. |
| EditSession.CancelEdit | src/components/ComplaintDetailSheet.tsx:47-50 | Cancel leaves editing, drops the form and reports nothing. |
| EditSession.SaveEdit | src/components/ComplaintDetailSheet.tsx:52-58 | Save reports the form once and leaves editing. Without a form it does nothing. |
| EditSession.AskDelete | src/components/ComplaintDetailSheet.tsx:150 | Delete opens the confirmation dialog and leaves the edit state alone. |
| EditSession.ConfirmDelete | src/components/ComplaintDetailSheet.tsx:359 | Confirming reports the deletion of the id, then closes the dialog and the sheet. |
| EditSession.CancelDelete | src/components/ComplaintDetailSheet.tsx:347-356 | Cancel or dismissing the dialog shuts it and reports nothing; the edit state stays. |
| EditSession.AskThenCancel | src/components/AssessmentDetailSheet.tsx:339-348 | Opening the delete dialog and cancelling it gives back the session unchanged with no event. |
| EditSession.EditReviseSave | src/components/AssessmentDetailSheet.tsx:141-161 | Edit, revise, save reports exactly the revised record. |
| EditSession.EditSaveUnchanged | src/components/AssessmentDetailSheet.tsx:141-161 | Edit then save without typing reports the shown record unchanged. |
| EditSession.EditReviseCancel | src/components/AssessmentDetailSheet.tsx:141-161 | Edit, revise, cancel reports nothing and discards the form. |
| EditSession.SaveTwiceReportsOnce | src/components/ComplaintDetailSheet.tsx:52-58 | A second save after a save reports nothing. |
| Lookup.LastWith | src/components/ComplaintDetailSheet.tsx:23 | `Object.fromEntries` lookup: absent exactly when no entry has the key, otherwise the last entry with it. |
| Lookup.LastWithDistinct | src/components/ComplaintDetailSheet.tsx:23 | With distinct keys, each entry is found by its own key. |
| Lookup.LastWithPrefersLater | src/components/ResponseDetailSheet.tsx:26-27 | With a repeated key the later entry wins and the earlier one is never found. |
| ComplaintSheet.StaffName | src/components/ComplaintDetailSheet.tsx:23 | A staff id has a name exactly when some staff user has that id. The name is that of the last staff user with the id, as building the map keeps the last entry. |
| ComplaintSheet.AssignedToText | src/components/ComplaintDetailSheet.tsx:89 | No assignee shows the em dash. A known assignee shows the staff name, and an unknown one shows the raw id. |
| ComplaintSheet.AssignedToShowsName | src/components/ComplaintDetailSheet.tsx:89 | With distinct staff ids, a complaint assigned to a staff user's id shows that user's name. |
| ComplaintSheet.EitherText | src/components/ComplaintDetailSheet.tsx:83-84 | `a || b` in a template: a when truthy, else b, else the text "undefined". |
| ComplaintSheet.DownloadLines | src/components/ComplaintDetailSheet.tsx:62-96 | The record has 33 lines, in the page's order. |
| ComplaintSheet.DownloadIdentifies | src/components/ComplaintDetailSheet.tsx:66-95 | The record carries the complaint code, the TIN, the details and the generation time on their fixed lines. |
| ComplaintSheet.DownloadFallbacks | src/components/ComplaintDetailSheet.tsx:83-88 | Category and sub-category fall back to their ids, then to `undefined`. Tax center, reference and machine code fall back to the em dash, and a present value is printed after its label. |
| ComplaintSheet.DownloadAssignee | src/components/ComplaintDetailSheet.tsx:89 | The Assigned To line shows the assignee's text. |
| ComplaintSheet.Download | src/components/ComplaintDetailSheet.tsx:60-62 | Nothing is produced without a complaint; with one, the 33-line record. |
| ComplaintSheet.AssigneeChoices | src/components/ComplaintDetailSheet.tsx:238 | The assignee picker offers every staff user, whatever the role, in staff order: the id is stored and the name is shown. |
| ComplaintSheet.ChosenAssigneeShown | src/components/ComplaintDetailSheet.tsx:235-238 | With distinct, non-empty staff ids, the assignee picked in the select is shown by the very name the option displayed. |
| AssessmentSheet.AssessNo | src/components/AssessmentDetailSheet.tsx:50 | The number is "ASN-", the year, "-" and a three-digit number from 100 to 999. |
| AssessmentSheet.EmptyForm | src/components/AssessmentDetailSheet.tsx:47-56 | A fresh form is blank except status Pending, a new assess number and today's date (the first ten characters of the ISO time). |
| AssessmentSheet.EmptyFormDisablesAdd | src/components/AssessmentDetailSheet.tsx:131 | Add is disabled on a fresh form. |
| AssessmentSheet.RecordOf | src/components/AssessmentDetailSheet.tsx:62-66 | The new record's id is "ASS-" and the time. Its explanation date is absent exactly when the form's is empty. |
| AssessmentSheet.RecordOfKeepsForm | src/components/AssessmentDetailSheet.tsx:62-66 | The record keeps every field the form held. |
| AssessmentSheet.HandleAdd | src/components/AssessmentDetailSheet.tsx:61-70 | Adding reports the record built from the form, then closes the dialog and resets the form. |
| AssessmentSheet.ClickAdd | src/components/AssessmentDetailSheet.tsx:131 | The button does nothing unless complaint, topic, recipient and sender are all filled in. |
| AssessmentSheet.AddedRecordsAreFilledIn | src/components/AssessmentDetailSheet.tsx:131 | Every record the dialog reports has those four fields non-empty. |
| AssessmentSheet.Cancel | src/components/AssessmentDetailSheet.tsx:130 | Cancel only closes the dialog; the form keeps what was typed. |
| ResponseSheet.Initial | src/components/ResponseDetailSheet.tsx:49-52 | A sheet starts in the requested mode with no form, no dialog and an empty send form. |
| ResponseSheet.SeedSendForm | src/components/ResponseDetailSheet.tsx:58-63 | The send form copies recipient name, email, subject and notes, with empty text for missing ones. |
| ResponseSheet.OnOpenChange | src/components/ResponseDetailSheet.tsx:54-68 | Opening with a response sets the mode, a copy of the response and the seeded send form. Closing returns to detail, drops the form and keeps the send form. Opening with no response changes nothing. |
| ResponseSheet.ChooseMode | src/components/ResponseDetailSheet.tsx:204 | Choosing a mode changes only the mode. |
| ResponseSheet.CancelPanel | src/components/ResponseDetailSheet.tsx:383 | Cancel returns to detail and keeps both forms. |
| ResponseSheet.Revise | src/components/ResponseDetailSheet.tsx:331-378 | Typing changes the form only in edit mode with a form. |
| ResponseSheet.ReviseSend | src/components/ResponseDetailSheet.tsx:408-434 | Typing changes the send form only in send mode. |
| ResponseSheet.SaveEdit | src/components/ResponseDetailSheet.tsx:74-76 | Save reports the form and returns to detail, keeping the form. Without a form it does nothing. |
| ResponseSheet.ConfirmSend | src/components/ResponseDetailSheet.tsx:78-89 | Sending reports the response overlaid with the send form: marked sent, status Sent, and the sent date equal to the first `T`-separated part of the ISO time. The other fields are kept. It returns to detail; there is nothing to send without a response. |
| ResponseSheet.ResendAllowed | src/components/ResponseDetailSheet.tsx:78-89 | Nothing stops a second send: it reports the same update again. |
| ResponseSheet.OpenThenCancel | src/components/ResponseDetailSheet.tsx:54-68 | Opening in any mode and cancelling leaves the detail view with the response's copy as form. |
| ResponseSheet.OpenSaveUnchanged | src/components/ResponseDetailSheet.tsx:54-76 | Opening and saving without edits reports the response unchanged. |
| ResponseSheet.AskDelete | src/components/ResponseDetailSheet.tsx:194 | Delete only opens the dialog. |
| ResponseSheet.ConfirmDelete | src/components/ResponseDetailSheet.tsx:464 | Confirming reports the deletion, then closes the dialog and the sheet. |
| ResponseSheet.CancelDelete | src/components/ResponseDetailSheet.tsx:452-461 | Cancel or dismissing the dialog shuts it and reports nothing; mode, edit copy and send form stay. |
| ResponseSheet.AskThenCancel | src/components/ResponseDetailSheet.tsx:452-461 | Opening the delete dialog and cancelling it gives back the sheet unchanged with no event. |
| ResponseSheet.Fallback3 | src/components/ResponseDetailSheet.tsx:105-106 | The response's own value, else the complaint's, else the em dash; never empty. |
| ResponseSheet.OptionalLine | src/components/ResponseDetailSheet.tsx:113-115 | An approval line is the caption and value when the value is truthy, else the empty line. |
| ResponseSheet.DocumentLines | src/components/ResponseDetailSheet.tsx:94-119 | The document has 24 lines: the filter of undefined lines drops nothing. |
| ResponseSheet.DocumentRecipientMissing | src/components/ResponseDetailSheet.tsx:105-106 | With no recipient on the response and no complaint with its id, both recipient lines end in the em dash. |
| ResponseSheet.DocumentRecipient | src/components/ResponseDetailSheet.tsx:105-106 | The recipient lines show the response's own name and email when present, else the linked complaint's taxpayer name and email, else the em dash. |
| ResponseSheet.DocumentKeepsEmptyApprovalLines | src/components/ResponseDetailSheet.tsx:113-119 | Missing approvals leave empty lines in place; the line count stays 24. |
| ResponseSheet.DocumentShowsSentDate | src/components/ResponseDetailSheet.tsx:85 | After sending, the document shows a Sent Date line with the date part of the send time. |
| ResponseSheet.ApproverChoices | src/components/ResponseDetailSheet.tsx:358 | The approver picker offers the names of the team leaders and directors, in staff order and as many times as they occur, and no other name. |
| Auth.FindByEmail | src/contexts/AuthContext.tsx:21 | Finds the first staff user with the email, or nothing exactly when no user has it. |
| Auth.Initial | src/contexts/AuthContext.tsx:15-18 | The session starts as the stored user. |
| Auth.Login | src/contexts/AuthContext.tsx:20-28 | Login succeeds iff some staff user has the email. On success the user and the stored value become the first match. On failure nothing changes. |
| Auth.Logout | src/contexts/AuthContext.tsx:30-33 | Logout clears the user and the stored value. |
| Auth.LoginIgnoresPassword | src/contexts/AuthContext.tsx:20 | The password has no effect on the outcome. |
| Auth.LoginAuthenticates | src/contexts/AuthContext.tsx:36 | A successful login authenticates. A failed one leaves authentication as it was. |
| Auth.LoginFindsOwner | src/contexts/AuthContext.tsx:20-28 | With distinct emails, logging in with a user's email logs in that user. |
| Auth.FailedLoginAfterLogout | src/contexts/AuthContext.tsx:30-36 | After logout, an unknown email leaves the session unauthenticated. |
| Sidebar.MenuFor | src/components/AppSidebar.tsx:140 | A known role gets its menu; any other role string gets an empty one. |
| Sidebar.MenuForRoleName | src/components/AppSidebar.tsx:27-140 | Each role's stored name selects that role's menu. |
| Sidebar.Routes | src/components/AppSidebar.tsx:27-130 | A link offers its route; a group offers its children's routes, in order. |
| Sidebar.DashboardFirst | src/components/AppSidebar.tsx:27-130 | Every role's menu starts with the Dashboard link. |
| Sidebar.MenuOffersPages | src/components/AppSidebar.tsx:27-130 | A role's menu offers a page iff the page is in that role's page set. |
| Sidebar.AdminPages | src/components/AppSidebar.tsx:28-33 | The admin menu offers exactly the admin pages. |
| Sidebar.DirectorPages | src/components/AppSidebar.tsx:34-66 | The director menu offers exactly the director pages. |
| Sidebar.TeamLeaderPages | src/components/AppSidebar.tsx:67-96 | The team-leader menu offers exactly the team-leader pages. |
| Sidebar.OfficerPages | src/components/AppSidebar.tsx:97-123 | The officer menu offers exactly the officer pages. |
| Sidebar.DirectoratePages | src/components/AppSidebar.tsx:124-129 | The directorate menu offers exactly the directorate pages. |
| Sidebar.AdminMenuOnlyAdministers | src/components/AppSidebar.tsx:28-33 | The admin menu is flat and offers only Dashboard, Users, Roles and User Status. |
| Sidebar.ApprovalsOnlyForTeamLeader | src/components/AppSidebar.tsx:67-96 | Only the team leader is offered the approvals page. |
| Sidebar.WorkQueuesOnlyForTeamLeaderAndOfficer | src/components/AppSidebar.tsx:67-123 | Only team leaders and officers are offered the assign, unassigned and closed queues. |
| Sidebar.ReopenedOnlyForDirector | src/components/AppSidebar.tsx:34-66 | Only the director is offered reopened complaints; the directorate menu is flat. |
| Sidebar.GroupsNonEmpty | src/components/AppSidebar.tsx:27-130 | Every group in every menu has at least one child. |
| Sidebar.DefaultOpen | src/components/AppSidebar.tsx:181 | A group starts open iff one of its children's paths is the current path. |
| Sidebar.CollapsedTarget | src/components/AppSidebar.tsx:166-178 | When collapsed, a link goes to its route and a group to its first child's. It has nowhere to go only when the group is empty. |
| Sidebar.CollapsedTargetsExist | src/components/AppSidebar.tsx:173 | In every role's menu the collapsed target exists and is one of the item's own routes. |
| CitizenPortal.Initial | src/pages/Index.tsx:16-23 | The page opens with no tab, nothing typed, verified or tracked. |
| CitizenPortal.VerifyTin | src/pages/Index.tsx:25-32 | A TIN of five or more characters is verified and copied into the form; a shorter one changes nothing. |
| CitizenPortal.VerifyTinOutcome | src/pages/Index.tsx:25-32 | Verification succeeds iff the TIN has at least five characters, and then the form carries it. |
| CitizenPortal.FindByCode | src/pages/Index.tsx:45 | Finds the first complaint whose id or TIN equals the code, or nothing exactly when none does. |
| CitizenPortal.Track | src/pages/Index.tsx:44-52 | Tracking shows a matching complaint, or clears the result exactly when nothing matches. |
| CitizenPortal.TrackById | src/pages/Index.tsx:44-52 | When no other complaint's id or TIN equals a complaint's id, tracking that id shows that complaint. |
| CitizenPortal.TrackingId | src/pages/Index.tsx:36 | The tracking id is 12 characters: "CMP-2026-" and three digits that read back as the draw. |
| CitizenPortal.TrackingIdInjective | src/pages/Index.tsx:36 | Different draws give different tracking ids. |
| CitizenPortal.ClickSubmit | src/pages/Index.tsx:118-158 | A click on Submit submits exactly when the submit tab is open, the TIN is verified and full name, contact and details are non-empty, and then does what `handleSubmit` does; otherwise nothing happens. |
| CitizenPortal.SubmitNeedsFreshVerification | src/pages/Index.tsx:34-42 | After a submission a second click does nothing: the page must be reopened and the TIN verified again. |
| CitizenPortal.Submit | src/pages/Index.tsx:34-42 | `handleSubmit` issues the tracking id for the draw and resets the tab, verification, TIN input and form. Tracking is untouched, and the complaint is not stored. |
| CitizenPortal.IssuedIdCanNameAnotherComplaint | src/pages/Index.tsx:36-45 | The id issued for a draw of 1 is a seeded complaint's id, and tracking it shows that other complaint. |
| CitizenPortal.OpenSubmit | src/pages/Index.tsx:99 | Opening the submit tab clears the tracked complaint and keeps the form and verification. |
| CitizenPortal.OpenTrack | src/pages/Index.tsx:107 | Opening the track tab clears verification and the TIN input and keeps the form. |
| CitizenPortal.TrackThenSubmitNeedsVerification | src/pages/Index.tsx:99-107 | After visiting tracking, a click on Submit does nothing until the TIN is verified again, while the form keeps what was typed. |
| Translations.ParseCode | src/lib/translations.ts:1 | A string names a language only when it is one of the three codes. |
| Translations.LanguagesComplete | src/lib/translations.ts:1 | Exactly three languages, each once, and each code reads back as its language. |
| Translations.TextIn | src/lib/translations.ts:612 | `entry[lang]` picks the language's text; an unknown code reads as absent. |
| Translations.T | src/lib/translations.ts:610-613 | The lookup returns the text in the language, else the English text, else the key. It is never empty for a non-empty key. |
| Translations.CompleteTableTranslates | src/lib/translations.ts:610-613 | In a table with all texts present, every known key reads its own text in each language. |
| Translations.UnknownLanguageReadsEnglish | src/lib/translations.ts:612 | An unknown language code reads the same as English. |
| Translations.ResultComesFromEntry | src/lib/translations.ts:610-613 | A result other than the key is one of the entry's texts. |
| LanguageContext.Initial | src/contexts/LanguageContext.tsx:13-16 | Start-up uses the stored code when it is non-empty, else "en". |
| LanguageContext.SetLanguage | src/contexts/LanguageContext.tsx:18-21 | Choosing a language sets both the language and the stored value. |
| LanguageContext.Translate | src/contexts/LanguageContext.tsx:23 | The context's `t` is the table lookup in the current language. |
| LanguageContext.ChoiceSurvivesReload | src/contexts/LanguageContext.tsx:13-21 | After choosing a language, a restart from storage uses the same language. |
| LanguageContext.UnknownStoredCodeReadsEnglish | src/contexts/LanguageContext.tsx:13-23 | A stored value that is no language code is adopted as is, and every lookup then reads English. |
| LanguageContext.ChosenLanguageIsShown | src/contexts/LanguageContext.tsx:18-23 | With a complete table, after choosing a language every key reads its text in that language. |
| Text.BeforeIsFirstPart | src/components/ResponseDetailSheet.tsx:85 | Cutting a string at the first separator gives the first part of `split`. |
| Text.Split | src/pages/dashboard/PlaceholderPage.tsx:7 | `split` returns at least one piece, no piece holds the separator, and joining the pieces gives back the input. |
| PageTitle.Segments | src/pages/dashboard/PlaceholderPage.tsx:7 | The segments are non-empty and hold no slash. |
| PageTitle.PageName | src/pages/dashboard/PlaceholderPage.tsx:7 | The heading is the last segment with hyphens as spaces, or "Page" when there is no segment. It is never empty. |
| PageTitle.DefaultOnlyWithoutSegments | src/pages/dashboard/PlaceholderPage.tsx:7 | "Page" is shown only for a path with no segment, or one whose last segment is "Page" itself. |
| PageTitle.TrailingSlashIgnored | src/pages/dashboard/PlaceholderPage.tsx:7 | A trailing slash does not change the heading. |
| PageTitle.RepeatedSlashIgnored | src/pages/dashboard/PlaceholderPage.tsx:7 | A doubled slash does not change the heading. |
| PageTitle.PageNameIdempotent | src/pages/dashboard/PlaceholderPage.tsx:7 | A heading read as a path gives itself. |
| JsValues.Or | src/components/ResponseDetailSheet.tsx:105 | `a \|\| b` on optional strings: a when truthy, else b. |
| JsValues.OrElse | src/components/ComplaintDetailSheet.tsx:86 | `a \|\| "x"`: a when truthy, else the fallback; never empty when the fallback is not. |
| JsValues.Coalesce | src/pages/dashboard/AssessmentsList.tsx:75 | `a ?? "x"`: a when present, even if empty, else the fallback. |
| JsValues.GarbledIsNotPlaceholder | src/pages/dashboard/UnassignedComplaintsPage.tsx:32 | The mojibake text is three characters and differs from the one-character em dash. |

## Left out

- Rendering: markup, CSS classes, icons, toasts, navigation after login and the PDF/Excel/CSV buttons (which have no handlers).
- The Assign buttons on the assign page and the Approve buttons on the approvals page have no handlers, so nothing is modelled for them.
- The data operations: saving and deleting only report to the parent, and the parent pages that hold the lists are not part of this model. The sheets' reported events stand in for them.
- Browser I/O: `Blob` downloads, `document.createElement` and `URL.createObjectURL`. The download models only the text lines.
- The stored user is a `StaffUser` value, not JSON text: `JSON.stringify`/`JSON.parse` and what a tampered value would parse to are not modelled.
- The `Created` and `Generated` lines use `toLocaleDateString`/`toLocaleString`, which depend on the browser locale; they are parameters.
- React effect scheduling: `OnOpenChange` fires on changes of `open`, `initialMode` or the response id, and the model applies it when the caller says so.
- Text.Lower: lower-cases ASCII letters only. `toLowerCase` also folds non-ASCII letters, which no seed value contains.
- Text.Split: string lengths count characters, not UTF-16 code units.
- Percent.RoundPercent: is exact round-half-up on integers. The page's floating-point `part / whole * 100` could differ at a .5 boundary by one rounding error.
- FeedbackReport: the average rating (`toFixed(1)` of a float mean) is left out, because formatting a float is outside the model.
- Dashboard: the "3.2 days" average resolution time and the "2" active officers are constants in the page, not computed, so they are left out.
- Dashboard.ResolutionRate: with no complaints the page prints `NaN%`; the model gives no value instead.
- FeedbackReport.SatisfiedPercent: with no feedback the page prints `NaN%`; the model gives no value instead.
- Translations: the 600-line table is a parameter rather than transcribed. The properties hold for every table and, where stated, for complete ones.
- Sidebar: the title keys are kept as keys. Their translation is `Translations.T`.
- Sidebar.MenuFor: the `if (!user) return null` case is modelled only as "no menu" through the caller.
- PageTitle.DefaultOnlyWithoutSegments: a path whose last segment is literally "Page" also shows "Page", so the heading does not tell the two cases apart.
- Records: `types.ts` declares camelCase complaint, assessment and response fields. The detail sheets and the assessment list read undeclared snake_case fields instead. `Records` models what the components read, with every undeclared field optional.
- Search.SearchAssessments: on the seed assessments, which lack `assess_no` and `explanation_topic`, the page's `.toLowerCase()` would throw. The model works on the record shape the page reads, where these fields are present.
- CitizenPortal.Submit: the submitted complaint is not stored anywhere, so tracking never finds a newly submitted complaint; the model keeps that behaviour.
- AssessmentSheet.AssessNo: `getFullYear` and `Math.random` are parameters (`year`, `draw`).
- Translations.TextIn: a language code that names a property every JavaScript object inherits (`toString`, `constructor`, `__proto__`) reads a function or an object, not an absent text, and the page would print that value. The model treats every code outside en/am/om as absent.
- Lookup.LastWith: models the `Object.fromEntries` staff map as holding only its entries. A key that names an inherited object property (`constructor`, `toString`, `__proto__`) finds a function or an object in the page, where the model reports the key as absent.
- ComplaintSheet.StaffName: an id such as `constructor`, `toString` or `__proto__` reads an inherited value from the staff map, not an absent name. The model treats such ids as absent, for the reason given under Lookup.LastWith.
- ComplaintSheet.AssignedToText: for an assignee id that names an inherited object property, the page prints a function's source text (`function Object() { [native code] }`) or `[object Object]`; the model prints the raw id. The Responded By line of `ResponseSheet.DocumentLines` has the same gap.
- Translations.UnknownLanguageReadsEnglish: holds only for codes that are not inherited object property names, for the reason given under Translations.TextIn.
- LanguageContext.UnknownStoredCodeReadsEnglish: holds only for stored values that are not inherited object property names, for the reason given under Translations.TextIn.
- Sidebar.MenuFor: a role string such as `constructor` finds an inherited function in `roleNavItems`, and `items.map` then throws. The model gives such a role the empty menu.
- Queues.UnassignedTable: draws the corrected em-dash cell. The page as written prints the garbled `â€”` text for a missing category; `Queues.UnassignedCategoryAsWritten` models that cell.
- CitizenPortal.VerifyTin: counts characters. `tinSearch.length` counts UTF-16 code units, so a TIN containing characters outside the Basic Multilingual Plane could pass with fewer than five characters.
- CitizenPortal.VerifyTinOutcome: same character-versus-UTF-16 difference as CitizenPortal.VerifyTin.
- Dashboard.Preview: takes 60 characters. `slice(0, 60)` takes 60 UTF-16 code units and may cut a surrogate pair in half.
- ComplaintSheet: `src/components/ComplaintDetailSheet.tsx:12` imports `TAX_CENTERS` from `src/lib/mockData.ts`, which exports no such name (its exports are `STATUSES`, `STATUS_FLOW`, `CATEGORIES`, `DIRECTORATES`, `mockStaffUsers`, `mockComplaints`, `mockAssessments` and `mockResponses`). A type check or a production build rejects the import. In the browser's module loader the sheet's module, and the pages that import it, would fail to load. The model assumes the sheet loads. It leaves out the Tax Center select's options at line 217, because their list does not exist in the source.

## Findings

| source | as written | input that shows it | evidently intended | confidence | as-written member | corrected member |
|---|---|---|---|---|---|---|
| src/pages/dashboard/UnassignedComplaintsPage.tsx:32 | a missing category shows `â€”`, the em dash's UTF-8 bytes read as Windows-1252 | a complaint with no category | the em dash `—`, as every other page shows | high (not executed) | Queues.UnassignedCategoryAsWritten | Queues.UnassignedCategory |
| src/pages/dashboard/AssessmentsList.tsx:75 | a missing explanation date shows `â€”` | an assessment record with no explanation date | the em dash `—` | high (not executed) | Search.ExplanationDateCellAsWritten | Search.ExplanationDateCell |
| src/pages/dashboard/reports/PerformanceReportPage.tsx:52 | an officer without a directorate shows `â€”` | an officer record with no directorate | the em dash `—` | high (not executed) | PerformanceReport.DirectorateCellAsWritten | PerformanceReport.DirectorateCell |

In each row the lemma `Queues.UnassignedCategoryGarbled`,
`Search.ExplanationDateGarbled` or `PerformanceReport.DirectorateCellGarbled`
shows that the as-written cell differs from the em dash on that input. The
unassigned table of the model (`Queues.UnassignedTable`) is drawn with the
corrected cell.
