# Municipal complaint dashboard: a Dafny model of its client-side logic

The dashboard is a single-page application for municipal employees and
advocates. They use it to browse and filter citizen complaints, open a complaint,
add updates to its history, assign it to themselves, and browse a user
directory. All persistence and authentication live in a remote
backend. The client holds the following logic:

- two state containers: the complaint store and the user store;
- the payload shaping of the three asynchronous complaint actions;
- the list view's filters and page strip;
- the complaint detail modal's add-update form;
- the user directory's add-to-team form and display fallbacks.

This project models that logic and proves its properties.

| file | module | what it holds |
|---|---|---|
| `js_values.dfy` | `JsValues` | JavaScript scalars (`undefined`, `null`, booleans, numbers, strings), truthiness, `a \|\| b`, property lookup, `String.prototype.trim` |
| `complaints_slice.dfy` | `ComplaintsSlice` | the complaint record, the filter payload builder, the three actions as functions of their inputs and the remote call's outcome, and `class ComplaintStore`, whose methods are the reducer cases |
| `users_slice.dfy` | `UsersSlice` | the user record and `class UserStore` |
| `badges.dfy` | `Badges` | the badge colours, as opaque tags |
| `complaint_modal.dfy` | `ComplaintModal` | the badge classifiers and `class Modal`: tabs, and the add-update form, which dispatches into the store |
| `complaints_page.dfy` | `ComplaintsPage` | the page strip, total pages, staged and applied filters, `class Page` with the filter and page handlers, the filter choices, the row badge, and flattening of the problem-type table |
| `users_page.dfy` | `UsersPage` | the display fallbacks, the add-to-team form, and `class Page` |

Stateful code is modelled as classes whose methods assign fields. Each
reducer case is a method of `ComplaintStore` or `UserStore`. Each of these
methods states its whole new state as the old state with the case's fields
replaced. `ComplaintStore.Valid()` is the invariant that every method keeps:
the page size is 10, and the item count equals the length of the loaded list.

The source's step-by-step builders are methods, each proved against an
independent specification:

- the page-strip loops, proved equal to the function `PageStrip`;
- the filter-collecting `forEach`, proved to meet the predicate `AppliedFrom`;
- the payload builder's chain of conditional assignments, proved equal to the function `FilterPayload`;
- `Array.prototype.find`, proved equal to the function `FirstMatch`;
- the nested flattening loop, proved equal to the function `Flatten`.

Remote calls are not modelled as calls. Each action takes the call's outcome
as an input: `Returned(value)` or `Threw(message)`. It also takes whether a
session exists. It returns `Fulfilled(payload)` or `Rejected(reason)`.

The code behaves as follows:

- The fetch payload never carries `strCode`, `page` or `limit`. Only eight
  filter keys are copied. `isAssigned` is copied whenever it is not
  `undefined`, even as `''`.
- A fulfilled fetch sets `totalItems` to the length of the returned list, and
  `totalPages` is never stored. The page count shown is therefore always the
  `ceil` fallback. A fulfilled fetch does not clear `error`.
- Removing one filter does not reset the current page.
- Removing one filter rebuilds the applied set from the whole staged form.
  Another applied value therefore stays as it was only while staged and
  applied agree: `RemoveInSyncDropsOnlyKey` proves that case.
  `RemovePicksUpStagedEdits` shows a staged but unapplied edit taking effect.
- Resetting leaves the staged form with all nine keys present and blank, not
  as an empty map.
- Adding an update without a session skips the remote call through optional
  chaining, and the action still fulfills.
- This version of the detail modal has no permission gates, no
  delete-request dialog, and no self-assign button.

## Model

| member | source | states |
|---|---|---|
| JsValues.TrimStart | src/ComplaintModal.jsx:58 | the result is a suffix of the input; what was dropped is all white space; the result does not start with white space |
| JsValues.TrimEnd | src/ComplaintModal.jsx:58 | the result is a prefix of the input; what was dropped is all white space; the result does not end with white space |
| JsValues.Trim | src/ComplaintModal.jsx:63 | the trimmed message is the input with only a white-space prefix and a white-space suffix removed, and it has no white space at either end |
| JsValues.BlankIffTrimStartEmpty | src/ComplaintModal.jsx:58 | trimming the start leaves nothing exactly when the string is all white space |
| JsValues.BlankIffTrimEndEmpty | src/ComplaintModal.jsx:58 | trimming the end leaves nothing exactly when the string is all white space |
| JsValues.TrimBlankIff | src/ComplaintModal.jsx:58 | `!s.trim()` holds exactly when every character of s is white space |
| JsValues.TrimIdempotent | src/ComplaintModal.jsx:63 | trimming the trimmed message changes nothing |
| ComplaintsSlice.FilterPayload | src/store/complaintsSlice.js:10-36 | the payload's keys are among the eight payload keys and never include strCode; each key other than isAssigned is present exactly when its filter is truthy; isAssigned is present exactly when it is not undefined; present values are copied unchanged |
| ComplaintsSlice.BuildFilterPayload | src/store/complaintsSlice.js:10-36 | the chain of conditional assignments builds exactly the payload FilterPayload describes |
| ComplaintsSlice.FetchErrorReason | src/store/complaintsSlice.js:53 | the rejection value is the error message when it is non-empty, and 'Failed to fetch complaints' when it is empty; it is never empty |
| ComplaintsSlice.FetchComplaints | src/store/complaintsSlice.js:5-56 | fulfills exactly when a session exists and the call returns a response with data; the result is that data together with the payload sent; without a session, or with a missing response or data, it rejects with 'No data received from API'; a thrown error rejects with its message, or with 'Failed to fetch complaints' when the message is empty |
| ComplaintsSlice.AddComplaintUpdate | src/store/complaintsSlice.js:59-86 | rejects exactly when the remote call throws, with its message; otherwise returns the complaint id and the update's message and date |
| ComplaintsSlice.AssigneeName | src/store/complaintsSlice.js:101 | the recorded name is the user's name when truthy, otherwise the e-mail |
| ComplaintsSlice.AssignComplaintToMe | src/store/complaintsSlice.js:89-119 | with no current user, rejects with 'User not authenticated'; a throwing call rejects with its message; otherwise fulfills with the user's id and display name |
| ComplaintsSlice.FirstMatch | src/store/complaintsSlice.js:180 | the index found is the first complaint whose id matches; none means no complaint matches |
| ComplaintsSlice.FindComplaint | src/store/complaintsSlice.js:180 | the linear search returns exactly the first match |
| ComplaintsSlice.WithUpdate | src/store/complaintsSlice.js:182-185 | the history becomes the old history (empty when absent) followed by the update; no other field changes |
| ComplaintsSlice.WithAssignee | src/store/complaintsSlice.js:202-203 | assignedTo and assignedToName are set; no other field changes |
| ComplaintsSlice.AppendUpdate | src/store/complaintsSlice.js:177-187 | same length; only the first matching complaint receives the update, all others are unchanged; the list is unchanged when nothing matches |
| ComplaintsSlice.AssignFirst | src/store/complaintsSlice.js:197-205 | same length; only the first matching complaint is assigned, all others are unchanged; the list is unchanged when nothing matches |
| ComplaintsSlice.ComplaintStore.constructor | src/store/complaintsSlice.js:121-132 | initial state: empty list, not loading, no error, empty filter sets, page 1, 10 per page, 0 items |
| ComplaintsSlice.ComplaintStore.SetFilters | src/store/complaintsSlice.js:138-140 | replaces the filters and nothing else |
| ComplaintsSlice.ComplaintStore.SetAppliedFilters | src/store/complaintsSlice.js:141-143 | replaces the whole applied map and nothing else |
| ComplaintsSlice.ComplaintStore.SetCurrentPage | src/store/complaintsSlice.js:144-146 | changes only the current page |
| ComplaintsSlice.ComplaintStore.ClearFilters | src/store/complaintsSlice.js:147-150 | empties both filter maps and keeps the page |
| ComplaintsSlice.ComplaintStore.ClearError | src/store/complaintsSlice.js:151-153 | changes only the error |
| ComplaintsSlice.ComplaintStore.FetchPending | src/store/complaintsSlice.js:158-161 | sets loading, clears the error, changes nothing else |
| ComplaintsSlice.ComplaintStore.FetchFulfilled | src/store/complaintsSlice.js:162-167 | replaces the list, sets the item count to its length, sets the filters to the payload sent, clears loading; the page, the page size and the applied filters stay |
| ComplaintsSlice.ComplaintStore.FetchRejected | src/store/complaintsSlice.js:168-171 | clears loading, records the reason, and keeps the list |
| ComplaintsSlice.ComplaintStore.AddUpdatePending | src/store/complaintsSlice.js:173-176 | sets loading, clears the error, changes nothing else |
| ComplaintsSlice.ComplaintStore.AddUpdateFulfilled | src/store/complaintsSlice.js:177-187 | clears loading; the list becomes AppendUpdate of the old list |
| ComplaintsSlice.ComplaintStore.AddUpdateRejected | src/store/complaintsSlice.js:188-191 | clears loading, records the reason, and keeps the list |
| ComplaintsSlice.ComplaintStore.AssignPending | src/store/complaintsSlice.js:193-196 | sets loading, clears the error, changes nothing else |
| ComplaintsSlice.ComplaintStore.AssignFulfilled | src/store/complaintsSlice.js:197-205 | clears loading; the list becomes AssignFirst of the old list |
| ComplaintsSlice.ComplaintStore.AssignRejected | src/store/complaintsSlice.js:206-209 | clears loading, records the reason, and keeps the list |
| ComplaintsSlice.AppendUpdateKeepsIds | src/store/complaintsSlice.js:177-187 | after an update, the same complaint is still the first match for its id |
| ComplaintsSlice.TwoUpdatesKeepOrder | src/store/complaintsSlice.js:182-185 | two updates pushed in turn follow the earlier history in the order they were added |
| ComplaintsSlice.FirstUpdateStartsHistory | src/store/complaintsSlice.js:182-185 | the first update on a complaint without a history makes a one-element history |
| ComplaintsSlice.AssignOnlyTouchesTarget | src/store/complaintsSlice.js:93-113 | self-assignment sets the user's id and display name on the first matching complaint only; every other complaint is untouched |
| UsersSlice.UserStore.constructor | src/store/usersSlice.js:118-122 | initial state: no users, not loading, no error |
| UsersSlice.UserStore.ClearError | src/store/usersSlice.js:128-130 | changes only the error |
| UsersSlice.UserStore.FetchPending | src/store/usersSlice.js:134-137 | sets loading, clears the error, keeps the users |
| UsersSlice.UserStore.FetchFulfilled | src/store/usersSlice.js:138-141 | replaces the users and clears loading |
| UsersSlice.UserStore.FetchRejected | src/store/usersSlice.js:142-145 | clears loading, records the reason, keeps the previous users |
| ComplaintModal.StatusColor | src/ComplaintModal.jsx:31-40 | green exactly for 'resolved', yellow exactly for 'in process', gray otherwise |
| ComplaintModal.StatusText | src/ComplaintModal.jsx:42-44 | the status when truthy, otherwise 'Pending'; never blank |
| ComplaintModal.PlanColor | src/ComplaintModal.jsx:46-55 | purple exactly for 'pro+', blue exactly for 'pro', gray otherwise |
| ComplaintModal.UpdatesCount | src/ComplaintModal.jsx:121 | the length of the history, 0 when it is absent |
| ComplaintModal.UpdatesCountAfterAppend | src/ComplaintModal.jsx:121 | a pushed update raises the update count of the store's copy of the target complaint by one |
| ComplaintModal.SubmitDisabled | src/ComplaintModal.jsx:228 | disabled exactly when the message is all white space or an action is in flight |
| ComplaintModal.Modal.constructor | src/ComplaintModal.jsx:9-11 | opens on the details tab with the form hidden and empty |
| ComplaintModal.Modal.SelectTab | src/ComplaintModal.jsx:104-126 | the active tab becomes exactly the one clicked; the form stays |
| ComplaintModal.Modal.ToggleAddUpdate | src/ComplaintModal.jsx:207 | flips whether the form is shown; nothing else changes |
| ComplaintModal.Modal.EditUpdate | src/ComplaintModal.jsx:219 | the text becomes what was typed |
| ComplaintModal.Modal.HandleCancelUpdate | src/ComplaintModal.jsx:81-84 | clears the text and hides the form |
| ComplaintModal.Modal.HandleAddUpdate | src/ComplaintModal.jsx:57-79 | a blank message sends nothing and changes nothing; otherwise the trimmed message is sent for the complaint's id, and the pending case runs; on success the update is appended in the store and the form is cleared and hidden; on failure the error is recorded and the form is kept |
| ComplaintsPage.BuildPageStrip | src/ComplaintsPage.jsx:451-487 | the loops build exactly PageStrip |
| ComplaintsPage.PageStrip | src/ComplaintsPage.jsx:451-487 | computes the strip: every page when there are at most 7; otherwise 1-5, a gap and the last page near the start, the first page, a gap and the last five near the end, and in between the first page, a gap, the current page with its two neighbours, a gap and the last page |
| ComplaintsPage.SmallStripListsEveryPage | src/ComplaintsPage.jsx:456-460 | with at most seven pages, the strip is 1, 2, …, totalPages |
| ComplaintsPage.SmallStripWellFormed | src/ComplaintsPage.jsx:456-460 | the small strip is well formed |
| ComplaintsPage.HeadStripWellFormed | src/ComplaintsPage.jsx:463-469 | near the start, the strip is 1 2 3 4 5 … N, and it is well formed |
| ComplaintsPage.TailStripWellFormed | src/ComplaintsPage.jsx:470-476 | near the end, the strip is 1 … N-4 N-3 N-2 N-1 N, and it is well formed |
| ComplaintsPage.MiddleStripWellFormed | src/ComplaintsPage.jsx:477-486 | in between, the strip is 1 … c-1 c c+1 … N, and it is well formed |
| ComplaintsPage.PageStripWellFormed | src/ComplaintsPage.jsx:454-487 | every strip for N ≥ 1 starts with 1 and ends with N; its page numbers strictly increase within [1, N]; adjacent numbers are consecutive, and every ellipsis hides at least one page; it has at most 7 items, exactly 7 when N > 7 |
| ComplaintsPage.PageStripShowsCurrent | src/ComplaintsPage.jsx:454-487 | the current page has a button whenever 1 ≤ c ≤ N |
| ComplaintsPage.PageStripExamples | src/ComplaintsPage.jsx:451-487 | the strips for (1, 10), (10, 10), (5, 10) and (3, 5) |
| ComplaintsPage.TotalPages | src/ComplaintsPage.jsx:144 | the ceiling: the fewest pages of the given size that hold every item |
| ComplaintsPage.Page.ShownTotalPages | src/ComplaintsPage.jsx:144 | under the store invariant, the page count shown is the fewest pages of 10 that hold every loaded complaint |
| ComplaintsPage.CollectFiltersToApply | src/ComplaintsPage.jsx:79-85 | the applied map is exactly the staged entries that are neither '' nor undefined, with the same values |
| ComplaintsPage.BlankFilters | src/ComplaintsPage.jsx:16-26 | computes the filter form with each of the nine fields set to '' (also what reset writes, lines 92-102) |
| ComplaintsPage.Kept | src/ComplaintsPage.jsx:82 | holds for a staged value exactly when it is neither '' nor undefined (the same test at line 117) |
| ComplaintsPage.AppliedFromUnique | src/ComplaintsPage.jsx:79-85 | the applied set is determined by the staged set |
| ComplaintsPage.ApplyIsIdempotent | src/ComplaintsPage.jsx:79-85 | applying an applied set again gives it back |
| ComplaintsPage.ResetAppliesNothing | src/ComplaintsPage.jsx:91-102 | applying the blank form gives the empty set |
| ComplaintsPage.RemoveInSyncDropsOnlyKey | src/ComplaintsPage.jsx:107-123 | when the applied set came from the current form, removing k gives the applied set without k |
| ComplaintsPage.RemovePicksUpStagedEdits | src/ComplaintsPage.jsx:107-123 | removing one filter also applies a pending edit to another |
| ComplaintsPage.AppliedFiltersSent | src/store/complaintsSlice.js:10-36 | of an applied set of form strings, the fetch sends every entry except strCode |
| ComplaintsPage.RefetchOnApplied | src/ComplaintsPage.jsx:65-69 | refetches with the applied set exactly when it is non-empty and the view is not the assigned-to-me view |
| ComplaintsPage.EmptyAppliedStartsNoFetch | src/ComplaintsPage.jsx:65-69 | an applied set built from a form with nothing kept starts no fetch |
| ComplaintsPage.Page.constructor | src/ComplaintsPage.jsx:17-27 | the staged form starts with all nine fields blank |
| ComplaintsPage.Page.MountRequest | src/ComplaintsPage.jsx:48-58 | the mount fetch is the assigned list in the assigned-to-me view, and otherwise the unfiltered list |
| ComplaintsPage.Page.HandlePageChange | src/ComplaintsPage.jsx:125-133 | records the page and asks for the list again, with the applied filters outside the assigned-to-me view |
| ComplaintsPage.Page.HandleFilterChange | src/ComplaintsPage.jsx:71-76 | sets only the given key of the staged form |
| ComplaintsPage.Page.HandleApplyFilters | src/ComplaintsPage.jsx:78-89 | the applied set becomes the kept staged entries and the page becomes 1; nothing else changes |
| ComplaintsPage.Page.HandleResetFilters | src/ComplaintsPage.jsx:91-105 | the form is blank, both filter sets are empty and the page is 1; nothing else changes |
| ComplaintsPage.Page.HandleRemoveFilter | src/ComplaintsPage.jsx:107-123 | the staged key becomes ''; the applied set becomes the kept entries of the new form, so it lacks the key; the page stays |
| ComplaintsPage.PreviousTarget | src/ComplaintsPage.jsx:444-445 | Previous is enabled exactly off page 1 and leads one page back |
| ComplaintsPage.NextTarget | src/ComplaintsPage.jsx:510-511 | Next is enabled exactly off the last page and leads one page on |
| ComplaintsPage.PrevNextStayInRange | src/ComplaintsPage.jsx:444-511 | from a page in range, the enabled buttons stay in range |
| ComplaintsPage.Distinct | src/ComplaintsPage.jsx:148-149 | each value once, the same values as the input, in order of first occurrence |
| ComplaintsPage.Cities | src/ComplaintsPage.jsx:148 | `complaints.map(c => c.city)`: one city per complaint, in list order |
| ComplaintsPage.Corporations | src/ComplaintsPage.jsx:149 | `complaints.map(c => c.municipalCorporation)`: one corporation per complaint, in list order |
| ComplaintsPage.UniqueCities | src/ComplaintsPage.jsx:148 | the city choices are exactly the cities of the listed complaints, without repeats, in the order each city first appears |
| ComplaintsPage.UniqueCorporations | src/ComplaintsPage.jsx:149 | the corporation choices are exactly the corporations of the listed complaints, without repeats, in the order each first appears |
| ComplaintsPage.RowStatusColor | src/ComplaintsPage.jsx:411-414 | computes the row badge colour: green for 'resolved', yellow for 'in process', grey otherwise |
| ComplaintsPage.RowStatusMatchesModal | src/ComplaintsPage.jsx:411-416 | a list row shows the same status colour and text as the detail modal |
| ComplaintsPage.Entries | src/ComplaintsPage.jsx:35-41 | computes one category's entries, one per (name, code) pair, in order, each with its code, name and category |
| ComplaintsPage.Flatten | src/ComplaintsPage.jsx:30-46 | computes the whole table's entries, category after category |
| ComplaintsPage.ProcessProblemTypes | src/ComplaintsPage.jsx:30-46 | the nested loops build exactly the flattened table |
| ComplaintsPage.EntriesAt | src/ComplaintsPage.jsx:35-41 | entry j of a category is its j-th problem, with code, name and category in place |
| ComplaintsPage.FlattenLength | src/ComplaintsPage.jsx:30-46 | the flat list has one entry per (category, problem) pair |
| ComplaintsPage.FlattenPrefix | src/ComplaintsPage.jsx:34 | flattening the first categories gives a prefix of the whole |
| ComplaintsPage.FlattenAt | src/ComplaintsPage.jsx:30-46 | problem j of category i sits at the count of earlier problems plus j |
| ComplaintsPage.OptionsListEveryProblem | options.js:1-49 | the shipped table has eight categories and twenty-four problems, and the flattened list has all twenty-four entries |
| ComplaintsPage.OptionsKeepDuplicateCode | options.js:5-11 | both 'Dust problem' and 'Dust problem ' are listed with code 0011 |
| UsersPage.DisplayName | src/UsersPage.jsx:153 | the account name when truthy, otherwise the custom-data name |
| UsersPage.CustomOr | src/UsersPage.jsx:168-182 | the custom field exactly when it is truthy, otherwise the fallback; the fallback when there is no custom data; never falsy |
| UsersPage.UserTypeLabel | src/UsersPage.jsx:168 | the user type when truthy, otherwise 'Unknown' (also when custom data is absent) |
| UsersPage.EmployerLabel | src/UsersPage.jsx:172 | the employer when truthy, otherwise 'N/A' (also when custom data is absent) |
| UsersPage.PhoneLabel | src/UsersPage.jsx:227 | the phone when truthy, otherwise 'N/A' (also when custom data is absent) |
| UsersPage.CountryLabel | src/UsersPage.jsx:232 | the country when truthy, otherwise 'N/A' (also when custom data is absent) |
| UsersPage.ScoreLabel | src/UsersPage.jsx:182 | the score when truthy, otherwise 'N/A', so a score of 0 shows 'N/A' |
| UsersPage.ZeroScoreShowsNotAvailable | src/UsersPage.jsx:182 | a score of 0 shows 'N/A' |
| UsersPage.PositiveScoreShown | src/UsersPage.jsx:182 | a positive score is shown as it is |
| UsersPage.UserTypeColor | src/UsersPage.jsx:163-167 | blue exactly for 'Advocate', green exactly for 'mcEmployee', gray otherwise |
| UsersPage.StatusBadge | src/UsersPage.jsx:175-179 | green 'Active' exactly when the status is truthy, red 'Inactive' otherwise |
| UsersPage.VerificationLabel | src/UsersPage.jsx:256-258 | 'Verified' exactly when isVerified is truthy, 'Not Verified' otherwise |
| UsersPage.NoCustomDataShowsFallbacks | src/UsersPage.jsx:163-182 | a user without custom data shows every fallback and a gray type badge |
| UsersPage.WithField | src/UsersPage.jsx:44-49 | the field is set; the other three keep their values |
| UsersPage.Complete | src/UsersPage.jsx:55 | holds exactly when none of name, e-mail, organisation and role is the empty string |
| UsersPage.CompleteIffNoEmptyField | src/UsersPage.jsx:55 | validation passes exactly when no field is the empty string |
| UsersPage.FillingEveryFieldCompletes | src/UsersPage.jsx:44-58 | filling in all four fields passes validation |
| UsersPage.Page.constructor | src/UsersPage.jsx:9-16 | no user selected, the team modal hidden, the form blank |
| UsersPage.Page.HandleRowClick | src/UsersPage.jsx:22-24 | selects the clicked user |
| UsersPage.Page.CloseModal | src/UsersPage.jsx:26-28 | clears the selection |
| UsersPage.Page.HandleAddToTeam | src/UsersPage.jsx:30-32 | shows the team modal and keeps the form |
| UsersPage.Page.CloseAddToTeam | src/UsersPage.jsx:34-42 | hides the team modal and blanks the form |
| UsersPage.Page.HandleFormChange | src/UsersPage.jsx:44-49 | sets one field of the form |
| UsersPage.Page.HandleSubmit | src/UsersPage.jsx:51-66 | accepts exactly a complete form; an accepted form hides the modal and blanks the form; a rejected one leaves the form and the modal as they were |

## Left out

- Remote calls through the backend SDK. Their outcome and whether a session exists are inputs to the action functions.
- Asynchronous ordering: interleaved actions sharing the one loading flag, and stale responses overwriting newer ones. Each lifecycle phase is an independent step, and `HandleAddUpdate` runs pending, then the outcome, in sequence.
- `fetchAssignedComplaints`: it is imported and dispatched but defined nowhere. Only the fact that it is requested (`FetchAssigned`) is modelled.
- `fetchUsers`'s timer and its fixed two-user list. The fetched list is an input to `UserStore.FetchFulfilled`.
- Date formatting with `toLocaleDateString`. The date of a new update is an input (`today`).
- `alert` and `console` output.
- Controls disabled while `loading` is set: the modal's message textarea and Cancel button (src/ComplaintModal.jsx:223, 235) and the Apply Filters button (src/ComplaintsPage.jsx:321). `Modal.EditUpdate`, `Modal.HandleCancelUpdate` and `Page.HandleApplyFilters` may run in any state. Only the submit button's gate is modelled, as `SubmitDisabled`.
- A thrown value without a message: `Call.Threw` always carries a string, while the source passes `undefined` to `rejectWithValue` for such an error (src/store/complaintsSlice.js:83, 116).
- UsersPage.Page.HandleSubmit: the browser's own form checks run before the submit handler and are not modelled. The inputs are `required` and the e-mail input has `type="email"`, so a malformed address can be blocked before `handleSubmit` runs. The model accepts any complete form.
- Rendering, markup and CSS classes. Badge colours are opaque tags, and the description preview is not modelled.
- The row click that opens the detail modal on the list view, and the advanced-filter toggle.
- Routing, login, the static dashboard page and store configuration.
- The modal's `complaint` is the snapshot it was opened on. Store updates do not flow back into it, just as the prop in the source is a snapshot taken on the row click.
- The order of keys in JavaScript objects: filter sets are maps. The problem table keeps its order as a sequence of entries.
- NaN is not a modelled number, and `Math.ceil` is modelled on natural numbers only: `totalItems` is a list length and the page size is 10.
- ComplaintsPage.TotalPages: models only the fallback `ceil(totalItems / itemsPerPage)`, because `pagination.totalPages` is never set in the store.
