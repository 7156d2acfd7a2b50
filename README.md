# Novapress client rules in Dafny

Novapress is a civic issue reporting web client written in React. Citizens report
issues (title, description, category, location, image). They upvote other people's
issues and comment on them. Staff members move the issues assigned to them towards
"resolved" and "closed". Admins assign staff, set priorities, change staff roles and
delete issues. The free tier allows three issues, and premium users have no limit.

This project models the rules the client applies before it draws a page or sends a
request:

- the public list's sort, filters and 9-per-page paging;
- the optimistic upvote written into the react-query cache and rolled back on failure;
- who is offered which button on the details page;
- the submission gates and the record each submission form posts;
- the admin table's query string, response normalisation and clamped paging;
- the dialog-driven decisions of the admin and staff pages;
- the two route guards.

The module layout follows the source:

- One module per page or route, named after it: `AllIssues`, `IssueDetails`,
  `SubmitIssue` (dashboard form), `CitizenSubmitIssue` (citizen dashboard form),
  `ManageIssues`, `StaffAssignedIssues`, `AdminAssignStaff`, `ResolvedIssues`,
  `AdminStaffList`, `AdminRoute` and `StaffRoute`.
- `StaffOptions` holds the staff picker's `reduce`, which two admin pages share.
- `Model` holds the records the backend returns.
- `Js` states the JavaScript semantics the pages rely on. These are truthiness, `||`
  defaults, `trim`, `toLowerCase`, `includes`, `slice`, `filter`, `Math.ceil` of a
  quotient and `String(n)`.

How the model stands in for what it cannot see:

- Network responses, dialog answers and clock values are parameters. A request's
  outcome is `Fetch` (`Ok(data)`, or `Failed` with the HTTP status when there is one).
- State that a handler updates step by step is a class with `modifies` clauses:
  - the upvote cache;
  - the details page's comment box and edit modal;
  - the limit-check and blocked-user effects;
  - `URLSearchParams`;
  - the admin table's page and filters;
  - the admin guard's three-valued `isAdmin`.
- Where the code handles a missing value, the model keeps the error path. `undefined`
  and `null` become `None`, except where the code compares with `===`: a comment's
  author email is `Js.Field` (absent, `null` or a value), because strict equality tells
  those apart.
- One concept is defined once in `Model`, whatever pages use it: `HasRole` (both route
  guards), `NameOrEmail` (the staff picker and the role dialog) and `ConfirmedSend`
  (every delete that waits for a confirmation dialog).

Two behaviours are modelled as the code has them, because each may be deliberate:

- An admin who reported an issue that is no longer pending is shown the Delete button.
  Pressing it gets the "only pending issues" warning (`IssueDetails.AdminReporterRefused`).
- The admin guard keeps its last decision when the user's email goes away
  (`AdminRoute.SignOutKeepsDecision`).

The admin table's cancel test reads `Swal.isConfirmed`, a property of the dialog
library and not of the dialog's answer. The model takes it as a parameter, so both
outcomes are covered.

## Model

| member | source | states |
|---|---|---|
| AllIssues.UpvoteIssue | src/Pages/AllIssuesPage/AllIssues.jsx:46-51 | another issue, or one the voter already upvoted, is returned unchanged; otherwise only the votes change: `upvotes` becomes the old count (missing = 0) + 1 and the voter is appended to `upvoters` |
| AllIssues.OptimisticUpvote | src/Pages/AllIssuesPage/AllIssues.jsx:44-55 | the list keeps its length; every issue with another id, or already upvoted by the voter, is unchanged; a target not yet upvoted gains exactly one vote and the voter; afterwards every issue with the id counts the voter |
| AllIssues.OptimisticUpvoteIdempotent | src/Pages/AllIssuesPage/AllIssues.jsx:46 | applying the optimistic write twice with the same id and voter equals applying it once |
| AllIssues.TotalVotesAfterUpvote | src/Pages/AllIssuesPage/AllIssues.jsx:44-55 | the list's total vote count rises by exactly the number of issues the write changes |
| AllIssues.UpvoteAddsExactlyOne | src/Pages/AllIssuesPage/AllIssues.jsx:44-55 | with distinct ids, upvoting an issue that is present and not yet upvoted raises the list's total by exactly 1 |
| AllIssues.EligibleOnlyAt | src/Pages/AllIssuesPage/AllIssues.jsx:46 | with distinct ids, exactly one issue of the list is changed by a vote for a present, not yet upvoted issue |
| AllIssues.NoneEligible | src/Pages/AllIssuesPage/AllIssues.jsx:46 | a vote for an id that is not in the list changes no issue |
| AllIssues.UpdateCache | src/Pages/AllIssuesPage/AllIssues.jsx:44 | the updater leaves an empty cache empty and a filled one filled |
| AllIssues.UpvoteGuard | src/Pages/AllIssuesPage/AllIssues.jsx:70-94 | a login prompt exactly when there is no email, which leads to login exactly when confirmed; the mutation is dispatched exactly when the user has an email, is not the reporter and is not among the upvoters, and then carries the issue's id and the user's email |
| AllIssues.GuardedUpvoteTakesEffect | src/Pages/AllIssuesPage/AllIssues.jsx:70-94 | a dispatched upvote raises the clicked issue's count in the cached list by one |
| AllIssues.IssueCache.constructor | src/Pages/AllIssuesPage/AllIssues.jsx:27-34 | the cache holds the fetched list |
| AllIssues.IssueCache.OnMutate | src/Pages/AllIssuesPage/AllIssues.jsx:40-58 | the returned snapshot is the cache before the write, and the cache becomes the optimistic list |
| AllIssues.IssueCache.OnError | src/Pages/AllIssuesPage/AllIssues.jsx:60-63 | the cache is restored to the snapshot; a missing snapshot (`undefined`) leaves the entry as it is |
| AllIssues.IssueCache.HandleUpvote | src/Pages/AllIssuesPage/AllIssues.jsx:36-94 | the decision is the guard's; without a dispatch, or when the request fails, the cache is exactly as before the click; on success it is the optimistic list |
| AllIssues.IssueCache.OverlappingUpvotes | src/Pages/AllIssuesPage/AllIssues.jsx:40-63 | two overlapping upvotes where the first fails leave the cache as before both, so the second pending vote is lost |
| AllIssues.CompareIsFeedOrder | src/Pages/AllIssuesPage/AllIssues.jsx:99-104 | the comparator says "not after" exactly when boosted or high-priority issues come first and, within a group, the later report comes first |
| AllIssues.Insert | src/Pages/AllIssuesPage/AllIssues.jsx:99-104 | inserting into a list in feed order keeps it in feed order and adds exactly that issue |
| AllIssues.SortIssues | src/Pages/AllIssuesPage/AllIssues.jsx:97-104 | the result is a permutation of the list in which every pair is in feed order |
| AllIssues.SubsequenceKeepsFeedOrder | src/Pages/AllIssuesPage/AllIssues.jsx:99-117 | any selection that keeps order from a list in feed order is still in feed order |
| AllIssues.SubsequenceMember | src/Pages/AllIssuesPage/AllIssues.jsx:106-117 | every issue of a filtered list occurs in the list it was taken from |
| AllIssues.FilterIfSpec | src/Pages/AllIssuesPage/AllIssues.jsx:106-109 | one filter step keeps order, and keeps all copies of an issue when the step is off or the issue passes, none otherwise |
| AllIssues.FilterStepsKeepOrder | src/Pages/AllIssuesPage/AllIssues.jsx:106-117 | the four filter steps never reorder the sorted list |
| AllIssues.FilterStepsCounts | src/Pages/AllIssuesPage/AllIssues.jsx:106-117 | the four steps keep every copy of an issue that passes every active filter and no copy of any other |
| AllIssues.FilteredIssuesSpec | src/Pages/AllIssuesPage/AllIssues.jsx:96-120 | the filtered list is a subsequence of the sorted list and in feed order; it holds exactly the issues passing every non-default filter, with their multiplicities; the search applies only when the trimmed text is non-empty and then matches the untrimmed lowercased text |
| AllIssues.PageCount | src/Pages/AllIssuesPage/AllIssues.jsx:123 | `pages` is the least number of 9-issue pages that holds the list |
| AllIssues.PageItemsSpec | src/Pages/AllIssuesPage/AllIssues.jsx:124 | a page holds at most 9 issues, exactly positions (page-1)*9 to page*9 of the list cut at its end, and none past the end |
| AllIssues.PagesCoverList | src/Pages/AllIssuesPage/AllIssues.jsx:122-124 | pages 1 to `pages` laid end to end are exactly the filtered list: nothing skipped or repeated |
| AllIssues.PagesFromSuffix | src/Pages/AllIssuesPage/AllIssues.jsx:124 | enough pages from page `from` on give the list from position (from-1)*9 on |
| AllIssues.PagesFromEmpty | src/Pages/AllIssuesPage/AllIssues.jsx:124 | pages that start past the end of the list are empty |
| AllIssues.ShowingRangeCountsPage | src/Pages/AllIssuesPage/AllIssues.jsx:226 | on a page that has issues, the "Showing a - b" range counts exactly the issues on it |
| AllIssues.NextEnabledOnEmptyList | src/Pages/AllIssuesPage/AllIssues.jsx:123-233 | as written, with no matching issue `pages` is 0 and Next is enabled on page 1, leading to an empty page 2 |
| AllIssues.NextEnabledIffNextPageHasIssues | src/Pages/AllIssuesPage/AllIssues.jsx:123-233 | corrected test, see ## Findings (the code as written is `NextEnabledAsWritten`): Next is enabled on a page exactly when the following page has issues to show |
| AllIssues.Pager.constructor | src/Pages/AllIssuesPage/AllIssues.jsx:24 | the list starts on page 1 |
| AllIssues.Pager.Reset | src/Pages/AllIssuesPage/AllIssues.jsx:148-162 | every filter or search change sets the page to 1 |
| AllIssues.Pager.Prev | src/Pages/AllIssuesPage/AllIssues.jsx:230-231 | Prev is disabled on page 1 and otherwise moves one page back |
| AllIssues.Pager.Next | src/Pages/AllIssuesPage/AllIssues.jsx:233-234 | corrected test, see ## Findings (the code as written is `Pager.NextAsWritten`): Next moves one page on only while a later page exists, so a page within range stays within range |
| AllIssues.Pager.NextAsWritten | src/Pages/AllIssuesPage/AllIssues.jsx:233-234 | as written: Next moves one page on whenever the page is not `pages` |
| AllIssues.EmptyListNextAsWritten | src/Pages/AllIssuesPage/AllIssues.jsx:123-234 | as written, a click on Next from page 1 of an empty list reaches page 2, outside the range of a list with 0 pages |
| IssueDetails.IsDashboard | src/Pages/Dashboard/IssueDetails/IssueDetails.jsx:24 | dashboard actions apply exactly in dashboard mode or when "/dashboard" occurs somewhere in the path |
| IssueDetails.IsReporter | src/Pages/Dashboard/IssueDetails/IssueDetails.jsx:90 | true exactly when an issue is loaded, the user has an email, and that email is the reporter's |
| IssueDetails.IsAdmin | src/Pages/Dashboard/IssueDetails/IssueDetails.jsx:91 | true exactly when the session's role is "admin" |
| IssueDetails.EditOffered | src/Pages/Dashboard/IssueDetails/IssueDetails.jsx:169-173 | Edit is offered exactly in dashboard mode, to the reporter, while the issue is pending |
| IssueDetails.DeleteOffered | src/Pages/Dashboard/IssueDetails/IssueDetails.jsx:169-177 | in dashboard mode, Delete is offered to every admin; to anyone else, exactly when Edit is |
| IssueDetails.EditOfferedImpliesDeleteOffered | src/Pages/Dashboard/IssueDetails/IssueDetails.jsx:169-177 | whoever is offered Edit is offered Delete |
| IssueDetails.CommentDeleteOffered | src/Pages/Dashboard/IssueDetails/IssueDetails.jsx:219 | admins always see the button; others see it exactly when their email strictly equals the comment author's: with no session exactly on comments whose author email is absent, and for a user whose email is `null` exactly on comments whose author email is `null` |
| Model.UserEmailField | src/Pages/Dashboard/IssueDetails/IssueDetails.jsx:219 | `user?.email` is absent exactly without a session, `null` exactly for a user without an email, and otherwise the user's email |
| IssueDetails.HandleDeleteIssue | src/Pages/Dashboard/IssueDetails/IssueDetails.jsx:124-135 | an error exactly when signed out; a refusal exactly when the user is the reporter and the issue is not pending; otherwise the request is sent exactly on confirmation |
| IssueDetails.DeleteSentOnlyWhenOffered | src/Pages/Dashboard/IssueDetails/IssueDetails.jsx:124-135 | a sent delete was confirmed by a signed-in user, and a reporter can only delete a pending issue |
| IssueDetails.AdminReporterRefused | src/Pages/Dashboard/IssueDetails/IssueDetails.jsx:126-177 | an admin who reported a non-pending issue is offered Delete but always gets the warning |
| IssueDetails.AddComment | src/Pages/Dashboard/IssueDetails/IssueDetails.jsx:94-105 | a login prompt exactly without an email; the comment is sent exactly when there is an email and the text is not all white space, and it carries the text untrimmed |
| IssueDetails.EditFormFor | src/Pages/Dashboard/IssueDetails/IssueDetails.jsx:113-116 | the payload holds title, description and location, each the issue's value when truthy and "" otherwise |
| IssueDetails.DetailsView.constructor | src/Pages/Dashboard/IssueDetails/IssueDetails.jsx:27-31 | the page starts with an empty comment box, the modal closed and an empty payload |
| IssueDetails.DetailsView.SetCommentText | src/Pages/Dashboard/IssueDetails/IssueDetails.jsx:31 | typing sets the comment text and nothing else |
| IssueDetails.DetailsView.HandleAddComment | src/Pages/Dashboard/IssueDetails/IssueDetails.jsx:94-105 | the outcome is `AddComment` of the box's text, and the box is cleared exactly when the comment was sent |
| IssueDetails.DetailsView.OpenEdit | src/Pages/Dashboard/IssueDetails/IssueDetails.jsx:113-116 | the form is filled from the issue and the modal opens |
| IssueDetails.DetailsView.SetEditTitle | src/Pages/Dashboard/IssueDetails/IssueDetails.jsx:257 | only the form's title changes |
| IssueDetails.DetailsView.SetEditDescription | src/Pages/Dashboard/IssueDetails/IssueDetails.jsx:260 | only the form's description changes |
| IssueDetails.DetailsView.SetEditLocation | src/Pages/Dashboard/IssueDetails/IssueDetails.jsx:263 | only the form's location changes |
| IssueDetails.EditSubmitAfterOpen | src/Pages/Dashboard/IssueDetails/IssueDetails.jsx:113-122 | after the modal opens on an issue and a title is typed, the payload sent holds exactly title, description and location: the new title and the issue's own description and location, each defaulting to "" |
| IssueDetails.EditSubmitUnchanged | src/Pages/Dashboard/IssueDetails/IssueDetails.jsx:113-122 | submitting the opened form untouched sends the issue's three editable fields, each defaulting to "" |
| IssueDetails.DetailsView.CloseEdit | src/Pages/Dashboard/IssueDetails/IssueDetails.jsx:266 | the modal closes and the form keeps its values |
| IssueDetails.ReverseInPlace | src/Pages/Dashboard/IssueDetails/IssueDetails.jsx:190 | `reverse()` leaves the array holding its old contents in reverse order |
| IssueDetails.NewestFirst | src/Pages/Dashboard/IssueDetails/IssueDetails.jsx:189-190 | the displayed timeline is the stored one reversed, so the newest entry is first, and the stored one is not changed |
| SubmitIssue.PremiumFlag | src/Pages/Dashboard/SubmitIssue/SubmitIssue.jsx:39 | premium exactly when the fetched user has `premium` or `isPremium` |
| SubmitIssue.CanSubmit | src/Pages/Dashboard/SubmitIssue/SubmitIssue.jsx:56-59 | true exactly for premium users or a count below 3 |
| SubmitIssue.LimitCheck.constructor | src/Pages/Dashboard/SubmitIssue/SubmitIssue.jsx:13-15 | count 0, not premium, checking |
| SubmitIssue.LimitCheck.FetchInfo | src/Pages/Dashboard/SubmitIssue/SubmitIssue.jsx:28-53 | the check always ends; premium is set from a successful user request, then the count from a successful issues request, and a failure leaves what follows unchanged |
| SubmitIssue.LimitCheck.SubmitDisabled | src/Pages/Dashboard/SubmitIssue/SubmitIssue.jsx:211 | the button is disabled exactly while submitting or when a non-premium user has 3 or more issues |
| SubmitIssue.UploadImage | src/Pages/Dashboard/SubmitIssue/SubmitIssue.jsx:62-78 | no upload without a file; failure without a host key or a returned URL; else the returned URL |
| SubmitIssue.ImageChoice | src/Pages/Dashboard/SubmitIssue/SubmitIssue.jsx:62-111 | with a file, the upload helper's URL, and an abort exactly when the host key is empty or no URL comes back; without a file, `imageURL` when present, else "" |
| SubmitIssue.PayloadShape | src/Pages/Dashboard/SubmitIssue/SubmitIssue.jsx:114-137 | the record is pending, normal priority, no votes, names the reporter, copies the form fields, and has one pending timeline entry by the reporter |
| SubmitIssue.OnSubmit | src/Pages/Dashboard/SubmitIssue/SubmitIssue.jsx:80-153 | a warning exactly without an email; the limit dialog exactly when the limit applies; a post exactly otherwise when an image is available, carrying the built record; success leads to "/dashboard/my-issues" |
| SubmitIssue.BlockedSubmitPostsNothing | src/Pages/Dashboard/SubmitIssue/SubmitIssue.jsx:81-100 | nothing is posted when signed out or when a non-premium user has 3 or more issues |
| CitizenSubmitIssue.IsLimited | src/Pages/Dashboard/CitizenDashboard/SubmitIssue.jsx:88-92 | limited exactly for a citizen profile without premium and with at least 3 issues |
| CitizenSubmitIssue.StaffAndAdminsNeverLimited | src/Pages/Dashboard/CitizenDashboard/SubmitIssue.jsx:88-92 | staff and admins are never limited |
| CitizenSubmitIssue.ImageFor | src/Pages/Dashboard/CitizenDashboard/SubmitIssue.jsx:113-116 | "" without a file; with a file, the uploaded URL, or an abort when there is none |
| CitizenSubmitIssue.PayloadFor | src/Pages/Dashboard/CitizenDashboard/SubmitIssue.jsx:118-124 | the record is exactly the four form fields and the image |
| CitizenSubmitIssue.EnabledButtonPassesLimit | src/Pages/Dashboard/CitizenDashboard/SubmitIssue.jsx:85-212 | a click on the enabled button (labelled "Submit Issue") never meets the limit dialog, and without a file a successful post submits the form with image "" |
| CitizenSubmitIssue.OnSubmit | src/Pages/Dashboard/CitizenDashboard/SubmitIssue.jsx:85-144 | the limit dialog exactly when limited; otherwise the record is posted when an image is available; a 403 leads to the premium page, success to "/dashboard/my-issues", any other error nowhere |
| CitizenSubmitIssue.ButtonLabel | src/Pages/Dashboard/CitizenDashboard/SubmitIssue.jsx:214-220 | "Upgrade to Premium" exactly when limited; otherwise "Submitting..." exactly while submitting |
| CitizenSubmitIssue.LimitedMeansNoPost | src/Pages/Dashboard/CitizenDashboard/SubmitIssue.jsx:88-220 | a limited user gets a disabled upgrade button, and a submission posts nothing |
| CitizenSubmitIssue.AccountCheck.constructor | src/Pages/Dashboard/CitizenDashboard/SubmitIssue.jsx:13 | the page starts checking |
| CitizenSubmitIssue.AccountCheck.CheckUserStatus | src/Pages/Dashboard/CitizenDashboard/SubmitIssue.jsx:47-66 | the check always ends; a blocked account, and only that, is sent to "/" |
| StaffOptions.BuildOptions | src/Pages/Dashboard/AdminDashboard/ManageIssues.jsx:123-126 | the `reduce` yields the object `OptionsOf` describes |
| StaffOptions.OptionsKeys | src/Pages/Dashboard/AdminDashboard/ManageIssues.jsx:123-126 | the options are keyed by exactly the staff emails |
| StaffOptions.OptionsLabel | src/Pages/Dashboard/AdminDashboard/AdminAssignStaff.jsx:59-62 | an email's label is that of the last staff member with the email |
| ManageIssues.RemoveAll | src/Pages/Dashboard/AdminDashboard/ManageIssues.jsx:31-36 | the name is gone and every other name keeps its value and count |
| ManageIssues.Set | src/Pages/Dashboard/AdminDashboard/ManageIssues.jsx:31-36 | after `set`, the name occurs once with the value, and every other name keeps its value and count |
| ManageIssues.SetHolds | src/Pages/Dashboard/AdminDashboard/ManageIssues.jsx:31-36 | `set` on a list that holds a map of names holds the map updated at that name |
| ManageIssues.SearchParams.constructor | src/Pages/Dashboard/AdminDashboard/ManageIssues.jsx:31 | a new object has no pairs |
| ManageIssues.SearchParams.SetParam | src/Pages/Dashboard/AdminDashboard/ManageIssues.jsx:32-36 | the list becomes `Set` of the old list |
| ManageIssues.BuildQuery | src/Pages/Dashboard/AdminDashboard/ManageIssues.jsx:31-36 | the built list holds exactly the pairs `QueryFor` names, each once |
| ManageIssues.QueryForSpec | src/Pages/Dashboard/AdminDashboard/ManageIssues.jsx:31-36 | status and priority are sent exactly when set and not "All", search exactly when non-empty, with their values; no other names |
| ManageIssues.Normalise | src/Pages/Dashboard/AdminDashboard/ManageIssues.jsx:40-42 | a paged body is kept; a bare array becomes `{total: length, items}`; the items are always the response's issues |
| ManageIssues.NormaliseIdempotent | src/Pages/Dashboard/AdminDashboard/ManageIssues.jsx:40-42 | normalising twice equals normalising once |
| ManageIssues.ArrayTotalIsLength | src/Pages/Dashboard/AdminDashboard/ManageIssues.jsx:40-101 | for a bare-array response the total shown is the number of items |
| ManageIssues.Pages | src/Pages/Dashboard/AdminDashboard/ManageIssues.jsx:102 | at least one page, and for a positive total the fewest pages of 12 that hold it |
| ManageIssues.ShowingRangeSpec | src/Pages/Dashboard/AdminDashboard/ManageIssues.jsx:266 | on any page within range, the range is a run of positions counting as many issues as that page holds; with no issues it reads 0 - 0 |
| ManageIssues.Table.constructor | src/Pages/Dashboard/AdminDashboard/ManageIssues.jsx:16-20 | page 1, no search, both filters "All" |
| ManageIssues.Table.SetSearch | src/Pages/Dashboard/AdminDashboard/ManageIssues.jsx:176 | the search changes and the page resets to 1 |
| ManageIssues.Table.SetStatusFilter | src/Pages/Dashboard/AdminDashboard/ManageIssues.jsx:181 | the status filter changes and the page resets to 1 |
| ManageIssues.Table.SetPriorityFilter | src/Pages/Dashboard/AdminDashboard/ManageIssues.jsx:191 | the priority filter changes and the page resets to 1 |
| ManageIssues.Table.Prev | src/Pages/Dashboard/AdminDashboard/ManageIssues.jsx:269 | the page never drops below 1 and a page within range stays within range |
| ManageIssues.Table.Next | src/Pages/Dashboard/AdminDashboard/ManageIssues.jsx:271 | the page never rises above `pages` and a page within range stays within range |
| ManageIssues.OnStatusChange | src/Pages/Dashboard/AdminDashboard/ManageIssues.jsx:105-116 | the change is dropped exactly when the dialog returns no value and `Swal.isConfirmed` is not truthy; otherwise it carries the id, status and note |
| ManageIssues.StatusRequestBody | src/Pages/Dashboard/AdminDashboard/ManageIssues.jsx:58-60 | the body carries the new status |
| ManageIssues.NoteIsDropped | src/Pages/Dashboard/AdminDashboard/ManageIssues.jsx:59-115 | two changes differing only in their note send the same body |
| ManageIssues.OnAssign | src/Pages/Dashboard/AdminDashboard/ManageIssues.jsx:118-138 | no dialog and nothing sent without staff; otherwise the picker has one option per email; the request is sent exactly for a truthy choice |
| ManageIssues.PriorityInitial | src/Pages/Dashboard/AdminDashboard/ManageIssues.jsx:145 | the picker opens on the current priority, or "normal" |
| ManageIssues.OnSetPriority | src/Pages/Dashboard/AdminDashboard/ManageIssues.jsx:140-151 | the request is sent exactly for a truthy choice and carries it |
| ManageIssues.PriorityIsNormalOrHigh | src/Pages/Dashboard/AdminDashboard/ManageIssues.jsx:144 | the picker offers exactly "normal" and "high", so a request from it carries one of the two |
| ManageIssues.PreselectedPriorityStillSent | src/Pages/Dashboard/AdminDashboard/ManageIssues.jsx:145-150 | confirming the preselected value sends a request for the priority the issue already has ("normal" when it has none); only a dismissed picker sends nothing |
| StaffAssignedIssues.AssignedItems | src/Pages/Dashboard/StaffDashboard/StaffAssignedIssues.jsx:26 | a body without `items` yields no issues |
| StaffAssignedIssues.OfferedStep | src/Pages/Dashboard/StaffDashboard/StaffAssignedIssues.jsx:116-137 | "Mark Resolved" is offered exactly for "in-progress", "Close Issue" exactly for "resolved", nothing otherwise |
| StaffAssignedIssues.OfferedStepMovesForward | src/Pages/Dashboard/StaffDashboard/StaffAssignedIssues.jsx:116-137 | an offered step moves the issue exactly one stage on, and none is offered for pending, assigned or closed issues |
| StaffAssignedIssues.OfferedStepsEnd | src/Pages/Dashboard/StaffDashboard/StaffAssignedIssues.jsx:116-137 | in-progress leads to resolved, resolved to closed, and closed to nothing |
| StaffAssignedIssues.UpdateStatus | src/Pages/Dashboard/StaffDashboard/StaffAssignedIssues.jsx:31-66 | no request for a cancelled dialog; otherwise the issue's id and the new status, with the note or "" |
| AdminAssignStaff.IssueList | src/Pages/Dashboard/AdminDashboard/AdminAssignStaff.jsx:14-19 | `items` when present, else the array, else empty |
| AdminAssignStaff.Unassigned | src/Pages/Dashboard/AdminDashboard/AdminAssignStaff.jsx:50 | exactly the issues without a staff member, in their original order and multiplicity |
| AdminAssignStaff.UnassignedIdempotent | src/Pages/Dashboard/AdminDashboard/AdminAssignStaff.jsx:50 | selecting twice equals selecting once |
| Model.NameOrEmail | src/Pages/Dashboard/AdminDashboard/ManageIssues.jsx:124 | a staff member is named by name when it is truthy, else by email; the same `name || email` titles the role dialog at AdminStaffList.jsx:55 |
| Model.ConfirmedSend | src/Pages/Dashboard/IssueDetails/IssueDetails.jsx:107-111 | a delete request is sent exactly on confirmation, carrying the given key: the comment id here, and likewise the issue id at ManageIssues.jsx:153-163 and the staff email at AdminStaffList.jsx:70-81 |
| AdminAssignStaff.StaffLabel | src/Pages/Dashboard/AdminDashboard/AdminAssignStaff.jsx:60 | "name (email)" when the name is truthy, else the email |
| AdminAssignStaff.LabelShowsEmail | src/Pages/Dashboard/AdminDashboard/AdminAssignStaff.jsx:60 | every label contains the staff member's email |
| AdminAssignStaff.HandleAssign | src/Pages/Dashboard/AdminDashboard/AdminAssignStaff.jsx:52-86 | no picker and nothing sent without staff; the picker has one option per email; the request is sent exactly for a truthy choice that is then confirmed, and carries the issue and the chosen email |
| ResolvedIssues.ResolvedStrip | src/Pages/HomePage/ResolvedIssues/ResolvedIssues.jsx:18-22 | at most 6 issues, all resolved, forming the first resolved issues in input order |
| ResolvedIssues.StripIsSubsequence | src/Pages/HomePage/ResolvedIssues/ResolvedIssues.jsx:18-22 | the strip is an order-preserving selection from the list |
| ResolvedIssues.PrefixIsSubsequence | src/Pages/HomePage/ResolvedIssues/ResolvedIssues.jsx:21 | the first n items of a list are a subsequence of it |
| ResolvedIssues.FewResolvedAllShown | src/Pages/HomePage/ResolvedIssues/ResolvedIssues.jsx:18-22 | with at most 6 resolved issues, all of them are shown |
| ResolvedIssues.EmptyStateIffNoneResolved | src/Pages/HomePage/ResolvedIssues/ResolvedIssues.jsx:108-112 | the empty message shows exactly when no issue is resolved |
| AdminStaffList.HandleRoleChange | src/Pages/Dashboard/AdminDashboard/AdminStaffList.jsx:51-68 | nothing is sent for a cancelled choice or the current role; otherwise the request carries exactly the email and the chosen role |
| AdminStaffList.RoleChangeSpec | src/Pages/Dashboard/AdminDashboard/AdminStaffList.jsx:57-65 | the picker offers exactly "staff" and "admin"; keeping the preselected role sends nothing, and a sent role is one of the two and differs from the current one |
| AdminRoute.AdminGuard.constructor | src/Routes/AdminRoute.jsx:8 | the guard starts undecided |
| AdminRoute.AdminGuard.CheckRole | src/Routes/AdminRoute.jsx:10-21 | without an email nothing changes; a successful request decides "admin or not", a failed one decides no |
| AdminRoute.AdminGuard.View | src/Routes/AdminRoute.jsx:23-29 | checking exactly while auth loads or undecided; a redirect to "/" exactly for a no; the page exactly for a yes once auth has loaded |
| AdminRoute.NoEmailStaysChecking | src/Routes/AdminRoute.jsx:11-25 | over any run of effects for users none of whom has an email, whatever the role responses, the guard still shows the checking message |
| AdminRoute.DecidedView | src/Routes/AdminRoute.jsx:13-29 | once auth has loaded, the page is rendered exactly for a fetched admin role, and otherwise the guard redirects to "/" |
| AdminRoute.SignOutKeepsDecision | src/Routes/AdminRoute.jsx:10-29 | a yes decision survives the email going away, and the page still renders |
| StaffRoute.View | src/Routes/StaffRoute.jsx:10-18 | checking whenever either source loads; a replacing redirect to "/" exactly for a non-staff user; else the page |
| StaffRoute.ChildrenOnlyForStaff | src/Routes/StaffRoute.jsx:10-18 | the page is rendered only for a user whose fetched role is "staff" |
| StaffRoute.NoDataRedirects | src/Hooks/useStaff.jsx:20 | a finished load with no data redirects |

## Left out

- Network, the identity provider and payments. The backend, Firebase authentication and
  Stripe are not part of this model. Their answers enter as `Fetch` values or booleans.
- The image host upload. It is reduced to its outcome: the host key and the URL the
  host returns are parameters.
- The session. `AuthProvider.jsx` in this snapshot puts only `registerUser`,
  `signInUser`, `googleSignIn` and `signOutUser` in the context (lines 26-32), so every
  page that reads `user` or `loading` from it gets `undefined`. The model takes the
  signed-in user and the loading flag as free parameters, which covers that case
  (`None`, not loading) as well as the intended one.
- Rendering, styling and the display-only pages (statistics, profile, dashboards, home
  sections). They have no decision logic.
- The role dispatch in `RoleDashboardRedirect`. The code reads the role from the wrong
  shape of `useRole`'s result, so it performs no dispatch to model.
- react-query itself: cancellation, invalidation, refetching, staleness and retries. The
  cache is one stored value.
- Concurrency. The mutation lifecycle runs as one sequence per click; the only overlap
  modelled is `AllIssues.IssueCache.OverlappingUpvotes`.
- Dates. `reportedAt` is an abstract integer timestamp, and `toISOString` and
  `toLocaleString` results are string parameters.
- `toLowerCase` is modelled for ASCII letters only. Other characters are left as they
  are.
- Form validation by react-hook-form. The model takes the submitted values as given.
- `URLSearchParams.toString()`. The model states which pairs the list holds but not the
  text it is encoded to.
- AllIssues.SortIssues: the model is a stable insertion sort. Its result is a permutation
  in feed order; that ties are kept in input order is not stated.
- ManageIssues.OnStatusChange: `Swal.isConfirmed` is taken as a parameter because its
  value comes from the dialog library, which is not part of this model.

## Findings

| source | as written | input that shows it | evidently intended | confidence | as-written member | corrected member |
|---|---|---|---|---|---|---|
| src/Pages/AllIssuesPage/AllIssues.jsx:233 | Next is disabled only when `page === pages` | no issue matches the filters: `pages` is `Math.ceil(0 / 9)` = 0 and page is 1, so Next stays enabled and leads to an empty page 2 | disabled when no later page exists (`page >= pages`) | medium, not executed | AllIssues.EmptyListNextAsWritten | AllIssues.NextEnabledIffNextPageHasIssues |
