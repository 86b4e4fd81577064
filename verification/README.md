# OpenSearch Serverless console prototype — client-side logic

This project models the client-side logic of a React prototype of the Amazon
OpenSearch Serverless console in Dafny, and proves properties about it. Five
screens and components carry logic beyond rendering constants:

- **Collections list** (`CollectionList.dfy`). A case-insensitive search over
  collection names and descriptions, then pagination with a page count and a
  page slice. The pager goes back to page 1 when the search text changes. The
  screen also shows a "N match(es)" count text and a header counter, and
  disables Delete while nothing is selected. The pure parts are functions.
  The screen's state (search text, page, selection, page size) is the class
  `CollectionListView`, whose handlers are methods.
- **Comments panel** (`CommentsPanel.dfy`). It lists one screen's comments
  newest first and adds and deletes comments through a remote store. When a
  remote call fails, it falls back to a per-screen local-storage entry keyed
  `comments-<screen>`. The panel is the class `Panel`. Local storage is the
  class `LocalStorage`, holding a map from key to list. Each remote call's
  outcome is an input of the handler that awaits it.
- **Day-1 "Create collection"** (`CreateCollectionDay1.dfy`).
  - The simulated creation workflow: submit always fails after a delay, retry
    always succeeds and then hands the collection name to the screen's owner.
  - The Submit and Cancel buttons it disables.
  - The VPC-endpoint and AWS-service token lists.
  - The easy-create summary rows.
  
  The screen is the class `CreateCollectionForm`. Each pending `setTimeout`
  callback is a `Timer` in a queue, and `FireTimer` runs the oldest one. The
  function `PhaseOf` names the six stages the flags, the step list and the
  queue can be in.
- **Collection groups list** (`CollectionGroup.dfy`). A case-insensitive
  search over group names only, the header counter, and Delete in a
  single-selection table.
- **Create index** (`CreateIndex.dfy`). The record `handleCreate` builds from
  the form, with the retention text depending on the chosen data lifecycle.

`Text.dfy` models the JavaScript string operations these rely on:
- `toLowerCase`, restricted to ASCII;
- `includes`;
- `trim`, with the ECMAScript white-space and line-terminator set;
- the decimal text of a count inside a template literal.

`Seqs.dfy` holds `Array.prototype.filter`, `Array.prototype.slice` (with
clamping and negative indices) and removal by index. `Wrappers.dfy` holds
`Option`.

## Model

| member | source | states |
|---|---|---|
| CollectionList.FilterItems | src/CollectionList.jsx:323-330 | empty search text keeps every item in order; otherwise an item is kept iff its lower-cased name or description includes the lower-cased text; nothing outside the list appears, and the result is no longer than the list |
| CollectionList.FilterItemsKeepsOrder | src/CollectionList.jsx:323-330 | filtering a concatenation is concatenating the filtered parts, so relative order is preserved |
| CollectionList.TotalPages | src/CollectionList.jsx:333 | `ceil(n / pageSize)`: zero pages for no items, otherwise the fewest pages that hold n items: (t-1)·pageSize < n ≤ t·pageSize |
| CollectionList.PageIsSlice | src/CollectionList.jsx:334-336 | for page ≥ 1 the page (`PageOf`, `paginatedItems`) is the contiguous run starting at (page-1)·pageSize, clamped to the list; at most pageSize items; empty past the end; non-empty for every page up to the page count |
| CollectionList.StartIndexAfterEarlierPages | src/CollectionList.jsx:334 | `startIndex` (`StartIndex`) is the number of items pages 1 to page-1 show, clamped to the list: each page begins where the earlier pages end |
| CollectionList.PagesUpToIsPrefix | src/CollectionList.jsx:334-336 | pages 1..k concatenated are the first min(k·pageSize, n) items |
| CollectionList.PagesReassemble | src/CollectionList.jsx:333-336 | pages 1..totalPages concatenated give back exactly the filtered list |
| CollectionList.StaleStartPastEnd | src/CollectionList.jsx:333-334 | a page number beyond the page count starts at or past the end of the list |
| CollectionList.MatchCountTextMeaning | src/CollectionList.jsx:447 | the count text (`MatchCountText`) begins with the decimal count, and the word is "match" exactly when the count is 1, otherwise "matches" |
| CollectionList.CountersAgree | src/CollectionList.jsx:447-463 | the view's header counter (`HeaderCounter`) holds the filtered count's digits, and the count text (`CountText`) begins with the same digits |
| CollectionList.CollectionListView.DeleteDisabled | src/CollectionList.jsx:455 | Delete is disabled exactly while the selection is empty |
| CollectionList.SeededListHasTwoPages | src/CollectionList.jsx:21-247 | the seeded list has 25 collections, which fill two pages at the initial page size of 20 |
| CollectionList.CollectionListView.constructor | src/CollectionList.jsx:308-317 | mounts with empty search text, page 1, no selection and page size 20 |
| CollectionList.CollectionListView.ChangeFilteringText | src/CollectionList.jsx:339-341 | the search text becomes the new text; the page becomes 1 whenever the text differs from before, and nothing else changes |
| CollectionList.CollectionListView.ChangePage | src/CollectionList.jsx:474 | only the current page changes |
| CollectionList.CollectionListView.ChangeSelection | src/CollectionList.jsx:422 | the selection is replaced; Delete is disabled exactly when the selection is empty |
| CollectionList.CollectionListView.ConfirmPageSize | src/CollectionList.jsx:488-496 | only the page size changes; the current page is kept, and a page beyond the new page count shows no items |
| Text.ParenthesizedCountMeaning | src/CollectionList.jsx:463 | the header counter is the count's decimal digits in parentheses, and the digits read back as the count |
| Text.NatToStringRoundTrip | src/CollectionList.jsx:447 | the decimal text of a count reads back as the count |
| Text.NatToStringInjective | src/CollectionList.jsx:447 | different counts never print the same |
| Text.NatToString | src/CollectionList.jsx:447 | the decimal text of a count is non-empty and all digits; zero is "0" and any other count has no leading zero |
| Text.LowerChar | src/CollectionList.jsx:325 | an ASCII capital becomes the letter 32 code points on, which is no capital; any other character is unchanged |
| Text.Lower | src/CollectionList.jsx:325-328 | `toLowerCase` keeps the length and folds each character, leaving no ASCII capital |
| Text.MatchIgnoresCase | src/CollectionGroup.jsx:38 | the match (`MatchesIgnoringCase`) gives the same answer when either side is lower-cased beforehand, and the empty text matches every field |
| Text.ContainsIffOccurs | src/CollectionList.jsx:327-328 | `includes` (`Contains`) holds exactly when the needle occupies some contiguous run of positions in the text |
| Text.ContainsAppended | src/CreateCollectionDay1.jsx:845-848 | a text always includes what was appended to it |
| Text.ContainsInAppended | src/CreateCollectionDay1.jsx:845-848 | what a text includes, it still includes after a prefix is put in front |
| Text.TrimStart | src/components/CommentsPanel.jsx:89 | removing leading white space leaves a suffix of the text that is empty or starts with a non-blank, and the part removed is all white space |
| Text.TrimEnd | src/components/CommentsPanel.jsx:89 | removing trailing white space leaves a prefix of the text that is empty or ends with a non-blank, and the part removed is all white space |
| Text.Trim | src/components/CommentsPanel.jsx:89 | `trim()` is no longer than the text and neither starts nor ends with white space |
| Text.TrimIsRun | src/components/CommentsPanel.jsx:89 | `trim()` is the contiguous run of the text that starts after the leading blanks |
| Text.TrimCutsOnlyBlanks | src/components/CommentsPanel.jsx:89 | what `trim()` drops before and after that run is white space only |
| Text.TrimEmptyIffBlank | src/components/CommentsPanel.jsx:89 | `trim()` gives the empty string exactly when every character is white space or a line terminator |
| Seqs.Filter | src/CollectionList.jsx:323 | `filter` returns no more elements than it was given, each from the input and satisfying the predicate, and keeps every input element that satisfies it |
| Seqs.FilterConcat | src/components/CommentsPanel.jsx:129 | `filter` distributes over concatenation (order is kept) |
| Seqs.FilterKeepsAll | src/CollectionList.jsx:324 | a filter whose predicate holds everywhere returns its input unchanged |
| Seqs.FilterIdempotent | src/components/CommentsPanel.jsx:133 | filtering twice by the same predicate is filtering once |
| Seqs.SliceIndex | src/CollectionList.jsx:336 | `slice` clamps an index to the list length and keeps an index already in range |
| Seqs.JsSlice | src/CollectionList.jsx:336 | `slice(start, end)` holds end-start elements after clamping (none when start is not before end), the i-th being the element at start+i |
| Seqs.RemoveAt | src/CreateCollectionDay1.jsx:815-819 | removal by index shortens the list by one exactly when the index is a position of it |
| Seqs.RemoveAtSplices | src/CreateCollectionDay1.jsx:815-819 | `filter((_, index) => index !== i)` removes exactly the element at i and keeps the rest in order; out of range it changes nothing |
| CommentsPanel.StorageKey | src/components/CommentsPanel.jsx:25 | the key is "comments-" followed by the screen name |
| CommentsPanel.StorageKeyInjective | src/components/CommentsPanel.jsx:25 | two screens never share a storage entry |
| CommentsPanel.InsertNewestFirst | src/components/CommentsPanel.jsx:62 | inserting into a newest-first list keeps it newest first and adds exactly that comment |
| CommentsPanel.SortNewestFirst | src/components/CommentsPanel.jsx:62 | the sorted list is newest first and a permutation of the input |
| CommentsPanel.InsertKeepsTies | src/components/CommentsPanel.jsx:62 | an insertion puts the new comment before the comments with its timestamp and keeps their order |
| CommentsPanel.SortIsStable | src/components/CommentsPanel.jsx:62 | comments with equal timestamps keep their relative order through the sort |
| CommentsPanel.SortKeepsSortedList | src/components/CommentsPanel.jsx:62 | an already newest-first list is unchanged by the sort |
| CommentsPanel.RemoveByTimestamp | src/components/CommentsPanel.jsx:129 | the result holds no comment with the target's timestamp, and every other comment of the list; it is no longer than the list |
| CommentsPanel.RemoveKeepsOrder | src/components/CommentsPanel.jsx:129 | the surviving comments keep their relative order |
| CommentsPanel.RemoveAbsentIsNoOp | src/components/CommentsPanel.jsx:133 | deleting a timestamp no comment carries leaves the list unchanged |
| CommentsPanel.RemoveIdempotent | src/components/CommentsPanel.jsx:133 | deleting the same comment twice is deleting it once |
| CommentsPanel.LoadErrorText | src/components/CommentsPanel.jsx:69 | the error reads "Failed to load comments: " followed by the message, or "Unknown error" when the message is empty |
| CommentsPanel.NewComment | src/components/CommentsPanel.jsx:91-96 | a new comment carries the screen name, the untrimmed text, author "User", the current time and no id |
| CommentsPanel.LocalStorage.constructor | src/components/CommentsPanel.jsx:79 | local storage starts with the given entries |
| CommentsPanel.Panel.constructor | src/components/CommentsPanel.jsx:19-23 | the panel mounts with no comments, an empty text box, loading set and no error |
| CommentsPanel.Panel.AddEnabled | src/components/CommentsPanel.jsx:189 | Add is enabled exactly when the text box holds something other than white space |
| CommentsPanel.Panel.ChangeNewComment | src/components/CommentsPanel.jsx:182 | only the text box changes |
| CommentsPanel.Panel.FetchComments | src/components/CommentsPanel.jsx:46-75 | on success the list is the returned items (none if null) sorted newest first and the error is cleared; on failure the error is set, and the list is the stored list if one exists, else unchanged; loading ends cleared; a failed load renders the error box, and a successful one renders the empty-list notice exactly when no items came back |
| CommentsPanel.Panel.View | src/components/CommentsPanel.jsx:198-214 | the list area shows the spinner exactly while loading, the error box exactly when not loading and an error is set, the empty-list notice when neither holds and the list is empty, and the comments themselves only otherwise |
| CommentsPanel.Panel.LoadFromLocalStorage | src/components/CommentsPanel.jsx:77-86 | the list becomes the stored list when the screen has an entry and is left alone otherwise |
| CommentsPanel.Panel.AddComment | src/components/CommentsPanel.jsx:88-116 | blank text changes nothing; otherwise the built comment is sent and the text box cleared; on remote failure the comment, with its local id, is prepended and storage holds the same new list; on success list and storage are unchanged |
| CommentsPanel.Panel.DeleteComment | src/components/CommentsPanel.jsx:118-137 | the list loses exactly the comments with the target's timestamp; on remote failure storage holds the same filtered list, on success storage is unchanged |
| CommentsPanel.Panel.ReceiveCreated | src/components/CommentsPanel.jsx:36-39 | a subscription event prepends the incoming comment and changes nothing else |
| CommentsPanel.OfflineRoundTrip | src/components/CommentsPanel.jsx:77-116 | a comment added while the remote store is down is the first comment a later panel for the same screen holds in its list when its load falls back to storage; that panel renders the load error box, which hides the list |
| CreateCollectionDay1.PhaseShape | src/CreateCollectionDay1.jsx:140-178 | in every stage of the workflow there is exactly one step and at most one pending timer, the flags are never both set, the step shows an error iff `hasError`, and a success step implies `isCreating` |
| CreateCollectionDay1.CreatedName | src/CreateCollectionDay1.jsx:175 | the name given to the owner is never empty: the entered name when there is one, otherwise "new-collection" |
| CreateCollectionDay1.CreateCollectionForm.constructor | src/CreateCollectionDay1.jsx:32-63 | mounts idle, on easy create with the first existing group selected, with both buttons enabled and empty token lists |
| CreateCollectionDay1.CreateCollectionForm.Submit | src/CreateCollectionDay1.jsx:140-160 | when enabled: creating set, error cleared, the single in-progress "Creating collection" step, the failure timer queued, Idle to Creating; when disabled nothing changes |
| CreateCollectionDay1.CreateCollectionForm.Retry | src/CreateCollectionDay1.jsx:162-178 | from the error state: error cleared, creating set, the single in-progress step, the success timer queued with the current name, Failed to Retrying |
| CreateCollectionDay1.CreateCollectionForm.FireTimer | src/CreateCollectionDay1.jsx:153-176 | the oldest timer runs and the stage advances one step: failure sets the single error step, clears creating and sets the error; success sets the single success step and queues the notification with creating still set; the notification reports the name or "new-collection" |
| CreateCollectionDay1.CreateCollectionForm.Cancel | src/CreateCollectionDay1.jsx:1108 | the Cancel button reaches the owner exactly when not creating |
| CreateCollectionDay1.EnablementByPhase | src/CreateCollectionDay1.jsx:1108-1111 | Submit (`SubmitEnabled`) can be enabled only before the first attempt, and then is enabled exactly when standard create is chosen or a group is selected; Cancel (`CancelEnabled`) is enabled exactly before it and after the failure; neither is enabled while a timer runs or after success |
| CreateCollectionDay1.SubmitFailRetrySucceed | src/CreateCollectionDay1.jsx:140-178 | submit, failure, retry, success and notification in turn report the entered name (or "new-collection"), with Submit disabled after the failure and at the end, Cancel enabled after the failure and disabled at the end |
| CreateCollectionDay1.CreateCollectionForm.ChangeCollectionName | src/CreateCollectionDay1.jsx:258-263 | the name changes unless creating (the input is then disabled); nothing else changes |
| CreateCollectionDay1.CreateCollectionForm.ChangeCreationMethod | src/CreateCollectionDay1.jsx:339 | only the creation method changes |
| CreateCollectionDay1.CreateCollectionForm.SelectGroup | src/CreateCollectionDay1.jsx:392 | only the easy-create group changes |
| CreateCollectionDay1.CreateCollectionForm.ChangeVpcInput | src/CreateCollectionDay1.jsx:790 | only the VPC input text changes |
| CreateCollectionDay1.CreateCollectionForm.SelectVpcEndpoint | src/CreateCollectionDay1.jsx:791-798 | a non-empty value that no token caption equals is appended as "VPCe id = v" and the input cleared; otherwise nothing changes |
| CreateCollectionDay1.AddVpcEndpoint | src/CreateCollectionDay1.jsx:792-795 | the VPC list keeps its tokens and gains at most one, at the end, exactly when the guard accepts; the new token is "VPCe id = v" |
| CreateCollectionDay1.VpcRepeatIsAdded | src/CreateCollectionDay1.jsx:792-795 | selecting the same plain VPC value twice appends it twice: the equality guard compares against prefixed captions and never fires |
| CreateCollectionDay1.VpcRejectsOnlyPrefixed | src/CreateCollectionDay1.jsx:792 | on a handler-built list the VPC guard rejects only values that themselves start with "VPCe id = " |
| CreateCollectionDay1.CreateCollectionForm.DismissVpcEndpoint | src/CreateCollectionDay1.jsx:815-819 | the token at the index leaves and the others stay in order; an index out of range changes nothing |
| CreateCollectionDay1.CreateCollectionForm.ChangeServiceInput | src/CreateCollectionDay1.jsx:843 | only the service input text changes |
| CreateCollectionDay1.CreateCollectionForm.SelectAwsService | src/CreateCollectionDay1.jsx:844-851 | a non-empty value that no token caption includes is appended as "Service = v" and the input cleared; otherwise nothing changes |
| CreateCollectionDay1.AddAwsService | src/CreateCollectionDay1.jsx:845-848 | the service list keeps its tokens and gains at most one, at the end, exactly when the guard accepts; the new token is "Service = v" |
| CreateCollectionDay1.ServiceRepeatIsRejected | src/CreateCollectionDay1.jsx:845 | once a service is in the list, selecting it again changes nothing |
| CreateCollectionDay1.ServicePartIsRejected | src/CreateCollectionDay1.jsx:845 | after a service is added, any non-empty part of its name is rejected too |
| CreateCollectionDay1.CreateCollectionForm.DismissAwsService | src/CreateCollectionDay1.jsx:866-870 | the token at the index leaves and the others stay in order; an index out of range changes nothing |
| CreateCollectionDay1.FindIndex | src/CreateCollectionDay1.jsx:189 | `find` stops at the first group with the value, or past the end when no group has it |
| CreateCollectionDay1.FindGroup | src/CreateCollectionDay1.jsx:189 | `find` returns nothing exactly when no group has the value, and otherwise the first group of the list with that value |
| CreateCollectionDay1.SelectedGroupDetails | src/CreateCollectionDay1.jsx:187-190 | no selection gives no details; a selection whose value an existing group has gives details; details found are an existing group with the selected group's value |
| CreateCollectionDay1.GroupNameRow | src/CreateCollectionDay1.jsx:196-202 | the group-name row shows the selected group's label, or "Select a collection group" when none is selected |
| CreateCollectionDay1.CapacityText | src/CreateCollectionDay1.jsx:205 | the capacity text is "min - max OCUs" when there is no RAM text, and otherwise that text followed by " (ram)"; it ends in a closing parenthesis exactly when there is a RAM text |
| CreateCollectionDay1.CapacityRowsShowFoundGroup | src/CreateCollectionDay1.jsx:203-216 | when a group is found, the indexing row is the capacity text of its indexing figures and the search row that of its search figures |
| CreateCollectionDay1.CapacityRowsDashIffNoGroup | src/CreateCollectionDay1.jsx:187-217 | both capacity rows (`IndexingCapacityRow`, `SearchCapacityRow`) are "-" exactly when no group is selected or no existing group has the selected value |
| CreateCollectionDay1.DefaultSummaryRows | src/CreateCollectionDay1.jsx:196-217 | on mount the rows read "serverlessV2_27121" and "0 - 96 OCUs (576 GB RAM)" twice |
| CollectionGroup.FilterGroups | src/CollectionGroup.jsx:36-39 | empty text keeps every group in order; otherwise a group is kept iff its lower-cased name includes the lower-cased text; nothing outside the list appears, and the result is no longer than the list |
| CollectionGroup.FilterGroupsKeepsOrder | src/CollectionGroup.jsx:36-39 | filtering a concatenation is concatenating the filtered parts |
| CollectionGroup.FilterGroupsSearchesNameOnly | src/CollectionGroup.jsx:38 | lists whose groups agree on names position by position filter to lists that agree on names: no other field is searched |
| CollectionGroup.HeaderCounterCountsFiltered | src/CollectionGroup.jsx:152 | the header counter's (`HeaderCounter`) digits read back as the number of filtered groups |
| CollectionGroup.DeleteDisabled | src/CollectionGroup.jsx:130-161 | in the single-selection table Delete is disabled exactly when nothing is selected, and otherwise acts on exactly one group |
| CreateIndex.BuildIndexRecord | src/CreateIndex.jsx:37-56 | the record's name is the entered name unchanged; the data retention is the indefinite text for an indefinite lifecycle and "value unit" for a custom one; the hot-storage retention is "value unit" whatever the lifecycle; the four counts are "0"; the creation date is the one supplied |
| CreateIndex.RecordDurationsReadBack | src/CreateIndex.jsx:40-43 | the record's hot-storage text, and for a custom lifecycle its retention text, split back into the value and the unit chosen on the form |
| CreateIndex.RetentionShowsLifecycle | src/CreateIndex.jsx:40-42 | the retention text is "Keep data indefinitely (Never delete)" exactly when the lifecycle is indefinite |
| CreateIndex.DurationRoundTrip | src/CreateIndex.jsx:42-43 | a duration text (`DurationText`, "value unit") splits back at its first space into the value and the unit it was built from |
| CreateIndex.HandleCreate | src/CreateIndex.jsx:58-60 | a record reaches the owner exactly when a callback was given; it is the record built from the form and the creation date, carrying the entered name |
| CreateIndex.InitialRecord | src/CreateIndex.jsx:23-28 | creating from the initial form records indefinite retention, "24 hours" hot storage and an empty name |

## Left out

- The GraphQL client, its queries and the subscription's set-up and
  teardown are network I/O. Each call's outcome is a parameter of the
  handler that awaits it. A handler runs atomically: the model does not
  interleave another event between a call and its answer.
- CommentsPanel.Panel.AddComment and CommentsPanel.Panel.DeleteComment: the
  model's local-storage write always succeeds. In the source,
  `localStorage.setItem` can throw (quota, private browsing). In
  `handleAddComment`'s fallback that would leave the comment prepended, the
  stored list unwritten and the text box not cleared. In `handleDeleteComment`
  it would leave the comment filtered out and the storage unwritten.
- JSON serialisation of local storage, and parse errors on reading it, are
  left out. The storage holds the lists themselves.
- Timestamps are integers standing for the instants that the ISO strings
  denote. `toISOString`, `Date.now` and the `toLocaleString` of an index's
  creation date are clock reads and formatting; they are parameters.
- `toLowerCase` folds only ASCII capitals.
- `setTimeout` delays become queue order. The 100 ms scroll timer of
  `handleSubmit` is left out, as are `scrollTo` and `console` output.
- CommentsPanel.SortNewestFirst: `items.sort` sorts in place. The model
  returns a new sorted list and does not capture the aliasing of the
  returned array.
- CreateCollectionDay1.CreateCollectionForm: the form controls other than
  the name input lie in a block with `pointer-events: none` while creating.
  That blocks the mouse but not the keyboard, so their handlers are not
  gated. The token controls' visibility, which depends on the access-type
  choice, is rendering and is left out.
- CreateCollectionDay1.CreateCollectionForm.SelectGroup: clearing the
  selection is not modelled, because the selector only ever offers a group.
  The Submit guard still handles a missing group.
- CollectionList.CollectionListView.ConfirmPageSize: the other preferences
  (density, striped rows, wrapped lines) only affect rendering.
- CollectionGroup.DeleteDisabled: the table is in single-selection mode,
  so the selection is at most one group; this is a precondition.
- The seeded list has 25 entries and fills two pages of 20
  (CollectionList.jsx ALL_ITEMS).
- The capacity rows are one string, "min - max OCUs (ram)"
  (CreateCollectionDay1.jsx:205-215).
- CreateCollectionDay1.CreateCollectionForm.Cancel: only the Cancel button is
  modelled. The breadcrumb handler (CreateCollectionDay1.jsx:231-235) also calls
  `onCancel()` for the collections link, and it has no creating guard.
- Rendering other than the comment panel's list area, layout, navigation between screens, and the screens that only
  show constants or forward form values are not part of this model.
