# Task management core of laravel-react-admin, in Dafny

This project models the task-management part of the laravel-react-admin
back office and proves properties about it:

- **The kanban board** (`kanban.js`). A fetched page of tasks is split into
  the `pending`, `in_progress` and `completed` columns. When a drag ends, the
  dragged card is moved. A drag to another column also sends a request to
  change that task's status.
- **The daily sweep** (`DailyTaskCheckup.php`). Once a day, every pending
  task whose start date is today is set to `in_progress`.
- **The task API** (`TasksController.php`). This covers:
  - request validation;
  - the writes made by `store`, `update`, `updateStatus` and `destroy`;
  - the listing query, with its sort, page-size and filter defaults.
- **The task list page** (`List.js`). This covers:
  - the status labels;
  - the filter map and its `column[operator]` keys;
  - the sort state and the asc/desc toggle on a header click;
  - the URL the page pushes after each fetch, and the filters it restores from
    the URL on first render.
- **The back-office router table** (`backoffice.js`). Two passes rewrite the
  route objects in place: one prefixes the resource routes, the other renames
  every route into the `backoffice.` namespace and marks it as authenticated.

Modules:

- `TaskRecords` (task_records.dfy): a task is an identifier plus a bag of
  attribute values. `TaskTable` is the `tasks` table, a class holding a map
  from identifier to record.
- `Splice` (splice.dfy): the two ways the board uses `Array.prototype.splice`.
- `Kanban` (kanban.dfy):
  - the column partition;
  - the drag specification and the intended reorder;
  - the `Board` class, whose `columns` and `effects` fields are updated by its
    methods.
- `DailyTaskCheckup` (daily_task_checkup.dfy): the sweep. It is a loop over
  the pending rows, proved against a function giving the swept table.
- `TasksController` (tasks_controller.dfy):
  - validation predicates and the fill semantics;
  - one method per controller action, acting on a `TaskTable`;
  - `PaginatedQuery`, which builds the listing query step by step.
- `TaskList` (task_list.dfy):
  - pure helpers;
  - the `ListView` class, which holds the page's state hooks and records every
    listing request and every URL push;
  - the `RestoreFilters` loop.
- `BackofficeRoutes` (backoffice_routes.dfy): the `Route` class and the two
  in-place passes over the route objects.

How things outside the model are represented:

- **Dates.** Dates are day numbers, and "today" is a parameter.
- **Network calls.** The outcome of a network call is a parameter: `remoteOk`,
  or an `Option` response where `None` means the request failed.
- **Requests to the API.** A request is its map of inputs after Laravel's
  global middleware, so an empty string arrives as null.

### Where the code does less than a reader would expect

The front end treats three status tokens as the whole vocabulary: the board
has one column for each (kanban.js:30-32) and the list page has one label for
each (List.js:376-380). The model follows the code, which does not hold the
rest of the system to that vocabulary:

- **No check on status tokens.** The status endpoint only applies `required`
  (TasksController.php:123-125), and `store` and `update` do the same, so any
  non-blank status is accepted (`AnyStatusIsAccepted`).
- **`updateStatus` writes more than the status.** The method is named for the
  status, but it fills every attribute the request carries
  (TasksController.php:127-129), so a title sent with the status is written
  too (`StatusUpdateCanRewriteTitle`).
- **Unrecognised statuses drop out of the board.** The board's three filters
  (kanban.js:30-32) are its only placement rule, so a task whose status is
  none of the three tokens appears in no column (`PartitionAccountsForEveryTask`,
  `ColumnsAreDisjoint`). The status select in the task form
  (Forms/Profile.js:220-222) offers `female` and `male`, so such tasks can
  exist.
- **Same-column drags duplicate the card.** A drag within a column reads as a
  reorder, but the code duplicates the card (see Findings).
- **One sweep can miss due tasks.** The daily command reads as "start every
  pending task due today", but Eloquent's `each` pages by offset over a query
  whose rows the callback removes, so with more than 1000 pending rows some
  due tasks can be skipped (see Findings).

Context for the status requests: the client model `Task.js` defines no
`updateStatus`. So in this repository every status request the board makes
throws, and the error is logged. The model keeps the outcome as the
`remoteOk` parameter.

## Model

| member | source | states |
|---|---|---|
| Splice.RemoveAt | resources/js/views/__backoffice/kanbanDashboard/kanban.js:55 | removing the card at the source index shortens the list by one and shifts every later card down one place |
| Splice.InsertAt | resources/js/views/__backoffice/kanbanDashboard/kanban.js:58 | inserting lengthens the list by one, puts the card at the index (at the end when the index is past it), and keeps the cards before and after in order |
| Splice.InsertionPoint | resources/js/views/__backoffice/kanbanDashboard/kanban.js:58 | the insertion index is the requested index when that is within the list, and the list length when it is past the end |
| Splice.MultisetRemoveAt | resources/js/views/__backoffice/kanbanDashboard/kanban.js:55 | the removal takes exactly one copy of the removed card out of the list's multiset |
| Splice.MultisetInsertAt | resources/js/views/__backoffice/kanbanDashboard/kanban.js:58 | the insertion adds exactly one copy of the card to the list's multiset |
| Kanban.Columns.With | resources/js/views/__backoffice/kanbanDashboard/kanban.js:60-64 | spreading the state and setting one column replaces that column and keeps the other two |
| Kanban.WithStatus | resources/js/views/__backoffice/kanbanDashboard/kanban.js:30-32 | a column filter returns exactly the page's tasks with that status, and is no longer than the page |
| Kanban.Partitioned | resources/js/views/__backoffice/kanbanDashboard/kanban.js:30-38 | every card in a column is a task of the page with that column's status, and no column is longer than the page |
| Kanban.Unrecognized | resources/js/views/__backoffice/kanbanDashboard/kanban.js:30-32 | the tasks that no filter keeps are exactly those whose status is none of the three tokens |
| Kanban.PartitionedByStatus | resources/js/views/__backoffice/kanbanDashboard/kanban.js:30-38 | a task is in a column iff it is on the page with that column's status |
| Kanban.WithStatusKeepsOrder | resources/js/views/__backoffice/kanbanDashboard/kanban.js:30-32 | filtering keeps the page's order: each column is a subsequence of the page |
| Kanban.ColumnsKeepPageOrder | resources/js/views/__backoffice/kanbanDashboard/kanban.js:30-38 | each of the three columns is a subsequence of the fetched page |
| Kanban.PartitionAccountsForEveryTask | resources/js/views/__backoffice/kanbanDashboard/kanban.js:30-38 | the columns plus the unrecognised tasks are a permutation of the page, so each recognised task is on the board as often as on the page |
| Kanban.ColumnsAreDisjoint | resources/js/views/__backoffice/kanbanDashboard/kanban.js:30-32 | no task is in two columns, and a task with an unrecognised status is in none |
| Kanban.DragRequests | resources/js/views/__backoffice/kanbanDashboard/kanban.js:65-68 | a drag requests at most one status change: exactly one iff it crosses columns, for the dragged card's id, with the destination column's token |
| Kanban.CancelledDragChangesNothing | resources/js/views/__backoffice/kanbanDashboard/kanban.js:52 | a drag with no destination leaves the columns unchanged and requests nothing |
| Kanban.Dragged | resources/js/views/__backoffice/kanbanDashboard/kanban.js:50-64 | with no destination the columns are kept; otherwise the destination column is its old contents with the card inserted at the clamped index, and every column that is neither source nor destination is kept |
| Kanban.CrossColumnDrag | resources/js/views/__backoffice/kanbanDashboard/kanban.js:54-64 | a cross-column drag removes exactly the card at the source index, inserts it at the destination index, leaves the third column alone, and keeps the board's size and its multiset of cards |
| Kanban.SameColumnDrag | resources/js/views/__backoffice/kanbanDashboard/kanban.js:54-64 | a same-column drag gives the original column with the card inserted again: one card longer, the card there at least twice, the board's cards plus one copy |
| Kanban.ReorderedIsPermutation | resources/js/views/__backoffice/kanbanDashboard/kanban.js:54-64 | the intended handler agrees with the written one across columns; within a column it only permutes the cards and puts the dragged card at the destination index; overall it keeps the board's cards and size |
| Kanban.Reordered | resources/js/views/__backoffice/kanbanDashboard/kanban.js:54-64 | with no destination the columns are kept; otherwise the destination gains one card, the dragged one at the clamped index (counted after the removal on a same-column drag), and every other column but the source is kept |
| Kanban.SameColumnReorder | resources/js/views/__backoffice/kanbanDashboard/kanban.js:54-64 | within one column, the intended handler keeps the column's length and its multiset and places the card at the destination |
| Kanban.SameColumnDragDuplicatesCard | resources/js/views/__backoffice/kanbanDashboard/kanban.js:60-64 | dragging the first of two pending cards one place down gives `[a, a, b]` as written, and `[b, a]` with the intended reorder |
| Kanban.Board.constructor | resources/js/views/__backoffice/kanbanDashboard/kanban.js:7-11 | the board starts with three empty columns and no effects |
| Kanban.Board.ApplyPage | resources/js/views/__backoffice/kanbanDashboard/kanban.js:28-40 | a non-empty page replaces the columns with its partition; a missing or empty page leaves them as they were |
| Kanban.Board.UpdateTaskStatus | resources/js/views/__backoffice/kanbanDashboard/kanban.js:42-48 | the status request is issued; on failure the error message is logged and nothing else changes |
| Kanban.Board.OnDragEnd | resources/js/views/__backoffice/kanbanDashboard/kanban.js:50-69 | the new columns are the drag specification applied to the old ones; the effects gain the drag's status requests and, when a cross-column request fails, the logged error; there is no rollback |
| DailyTaskCheckup.Handle | app/Console/Commands/DailyTaskCheckup.php:40-50 | after the loop over the pending rows, the table is the swept table of the old one, and the command returns true |
| DailyTaskCheckup.Advanced | app/Console/Commands/DailyTaskCheckup.php:43-46 | a pending task starting today becomes in progress; any other task is kept; identifier and every other attribute are kept, and the result is never due again that day |
| DailyTaskCheckup.Swept | app/Console/Commands/DailyTaskCheckup.php:42-47 | the swept table has the same rows with the same identifiers, and no row is left pending and due that day |
| DailyTaskCheckup.DueTasksStart | app/Console/Commands/DailyTaskCheckup.php:42-46 | every pending task whose start date is today is in progress after the sweep |
| DailyTaskCheckup.OtherTasksUntouched | app/Console/Commands/DailyTaskCheckup.php:42-43 | a task that is not pending, or does not start today, is left exactly as it was |
| DailyTaskCheckup.OnlyStatusChanges | app/Console/Commands/DailyTaskCheckup.php:42-46 | the sweep adds and removes no row and changes no attribute except the status |
| DailyTaskCheckup.SweepIsIdempotent | app/Console/Commands/DailyTaskCheckup.php:42-46 | a second sweep on the same day changes nothing |
| DailyTaskCheckup.SweepScenario | app/Console/Commands/DailyTaskCheckup.php:42-46 | a pending task starting on the sweep day is in progress after one sweep and stays so after another |
| DailyTaskCheckup.ChunkedSweepFrom | app/Console/Commands/DailyTaskCheckup.php:42-47 | the command as written, paging by offset: the table keeps its length, and every row ends either as it was or as the callback makes it |
| DailyTaskCheckup.PendingRows | app/Console/Commands/DailyTaskCheckup.php:42 | the pending query returns only pending rows, every pending row of the table, and no more rows than the table |
| DailyTaskCheckup.AdvanceAll | app/Console/Commands/DailyTaskCheckup.php:44-46 | one page's callbacks: the table keeps its length, rows of the page end as `Advanced` makes them and every other row is kept |
| DailyTaskCheckup.ChunkedSweep | app/Console/Commands/DailyTaskCheckup.php:42-47 | the command as written keeps every identifier and every attribute but the status, leaves rows that are not both pending and due unchanged, and puts a row in progress only if it was already or starts today |
| DailyTaskCheckup.ChunkedSweepAgreesBelowChunkSize | app/Console/Commands/DailyTaskCheckup.php:42-47 | with fewer than 1000 pending rows, the command as written ends every row as `Advanced` makes it, i.e. as the intended sweep does |
| DailyTaskCheckup.FirstRunStopsShort | app/Console/Commands/DailyTaskCheckup.php:42-47 | with chunks of n rows and n + 1 pending tasks due today, one run starts the first n and leaves the last exactly as it was |
| DailyTaskCheckup.SecondRunStartsLast | app/Console/Commands/DailyTaskCheckup.php:42-47 | a run over a table whose only pending row is the last, due today, starts it |
| DailyTaskCheckup.ChunkingMissesDueTask | app/Console/Commands/DailyTaskCheckup.php:42-47 | with chunks of n rows and n + 1 pending tasks due today, the last is still pending after one run and in progress after a second |
| DailyTaskCheckup.ThousandAndFirstDueTaskIsSkipped | app/Console/Commands/DailyTaskCheckup.php:42-47 | with Eloquent's 1000-row chunks and 1001 pending tasks due today, the 1001st stays pending after one run |
| TasksController.TaskErrors | app/Http/Controllers/Api/V1/TasksController.php:35-42 | a field fails iff it is missing or blank; the start date must also be a date after today; the end date must be a date, and after the start date only when the start date is itself a date |
| TasksController.FieldPasses | app/Http/Controllers/Api/V1/TasksController.php:35-42 | a passing field is present; fields other than the dates pass iff present; a passing start date is a date after today, and a passing end date is a date after the start date when that is a date |
| TasksController.EndDatePassesWithoutStartDate | app/Http/Controllers/Api/V1/TasksController.php:38-39 | when the start date is missing or not a date, any end date passes its own rule, while the start date fails |
| TasksController.StatusErrors | app/Http/Controllers/Api/V1/TasksController.php:123-125 | the status endpoint's only rule: the request fails iff its status is missing or blank |
| TasksController.TaskRulesAcceptExactly | app/Http/Controllers/Api/V1/TasksController.php:80-87 | `store` and `update` accept a request iff all six rules hold (both directions) |
| TasksController.StartTodayIsRejected | app/Http/Controllers/Api/V1/TasksController.php:38 | a start date equal to today is rejected |
| TasksController.EndNotAfterStartIsRejected | app/Http/Controllers/Api/V1/TasksController.php:39 | an end date on or before the start date is rejected |
| TasksController.AnyStatusIsAccepted | app/Http/Controllers/Api/V1/TasksController.php:41 | any non-blank status passes both rule sets, whether or not it is one of the three tokens |
| TasksController.NewTask | app/Http/Controllers/Api/V1/TasksController.php:44-52 | the created record has exactly the seven stored columns, each holding the request's input (null when absent) |
| TasksController.Fill | app/Http/Controllers/Api/V1/TasksController.php:89-90 | every fillable attribute present in the request overwrites the task's; all other attributes keep their presence and value; the id is kept |
| TasksController.FillIsIdempotent | app/Http/Controllers/Api/V1/TasksController.php:89-91 | filling twice with the same request gives the same record as filling once |
| TasksController.StatusOnlyRequestWritesStatus | app/Http/Controllers/Api/V1/TasksController.php:127-129 | a request carrying only a status changes only the status |
| TasksController.StatusUpdateCanRewriteTitle | app/Http/Controllers/Api/V1/TasksController.php:121-132 | a status request that also carries a title passes validation and rewrites the title |
| TasksController.Store | app/Http/Controllers/Api/V1/TasksController.php:33-55 | an invalid request gives the failing fields and leaves the table alone; a valid one inserts the new record and answers 201 with it |
| TasksController.Show | app/Http/Controllers/Api/V1/TasksController.php:65-68 | an unknown id gives 404; otherwise the answer is the stored record with 200 |
| TasksController.Update | app/Http/Controllers/Api/V1/TasksController.php:78-94 | 404 for an unknown id; the failing fields for an invalid request; otherwise the record is replaced by the request filled into it, answered with 200 |
| TasksController.UpdateStatus | app/Http/Controllers/Api/V1/TasksController.php:121-132 | as `update`, but only the status is required; the whole request is filled in |
| TasksController.Destroy | app/Http/Controllers/Api/V1/TasksController.php:105-110 | 404 for an unknown id; otherwise that row is removed and the answer is the listing for the request |
| TasksController.Index | app/Http/Controllers/Api/V1/TasksController.php:21-24 | the answer is the listing query for the request |
| TasksController.Coalesce | app/Http/Controllers/Api/V1/TasksController.php:144-145 | `??` gives the value unless it is null, in which case it gives the default |
| TasksController.Truthy | app/Http/Controllers/Api/V1/TasksController.php:148-166 | an input is falsy exactly when it is null, "", "0" or 0, as in PHP |
| TasksController.FilterIf | app/Http/Controllers/Api/V1/TasksController.php:148-166 | one column's step adds at most one filter, and a filter on that column's input exactly when the input is truthy |
| TasksController.AppliedFiltersExactly | app/Http/Controllers/Api/V1/TasksController.php:148-166 | a filter is added for one of the five columns iff its input is truthy in PHP; it filters on that input; no other filter is added |
| TasksController.AppliedFiltersOnePerColumn | app/Http/Controllers/Api/V1/TasksController.php:148-166 | the five steps filter each column at most once |
| TasksController.PaginatedQuery | app/Http/Controllers/Api/V1/TasksController.php:141-169 | the query built one step at a time equals the listing the request asks for |
| TasksController.ListingQuery | app/Http/Controllers/Api/V1/TasksController.php:141-168 | the listing always has a sort column, direction and page size; it filters only on the five columns, each on its own truthy input, at most one filter per column, and every column whose input is truthy is filtered |
| TasksController.ListingDefaults | app/Http/Controllers/Api/V1/TasksController.php:143-168 | with no sort or size inputs the listing sorts by title ascending, ten per page |
| TasksController.ListingUsesGivenInputs | app/Http/Controllers/Api/V1/TasksController.php:143-146 | the sort column, direction and page size given in the request are used as they are |
| TasksController.ZeroTitleIsNotFiltered | app/Http/Controllers/Api/V1/TasksController.php:148-150 | a title filter of "0" is falsy and adds no filter |
| TaskList.ReadableStatus | resources/js/views/__backoffice/tasks/List.js:375-382 | the three tokens map to Pending, In Progress and Completed; any other status is shown unchanged |
| TaskList.ReadableStatusConflatesLabels | resources/js/views/__backoffice/tasks/List.js:375-382 | the labels are not unique: a status spelled "Pending" reads the same as `pending` |
| TaskList.WithFilter | resources/js/views/__backoffice/tasks/List.js:85-88 | filtering adds or overwrites exactly the key `column[operator]` with the value, and keeps every other filter |
| TaskList.WithoutFilter | resources/js/views/__backoffice/tasks/List.js:64-65 | removing a filter deletes exactly that key and keeps every other filter's value |
| TaskList.FilterKey | resources/js/views/__backoffice/tasks/List.js:87 | the key is the column, `[`, the operator and `]`, so both parts can be read back from it |
| TaskList.RemoveUndoesAdd | resources/js/views/__backoffice/tasks/List.js:63-94 | removing a filter just added under a new key restores the filters from before |
| TaskList.ToggleFlips | resources/js/views/__backoffice/tasks/List.js:455 | a header click turns asc into desc and desc into asc, and any other direction into asc |
| TaskList.Toggled | resources/js/views/__backoffice/tasks/List.js:455 | a header click always asks for asc or desc, and never for the direction already in use when that is asc or desc |
| TaskList.NextSorting | resources/js/views/__backoffice/tasks/List.js:252-255 | after a fetch, the sort column and direction are those requested when truthy, and otherwise the previous ones |
| TaskList.DefaultQuery | resources/js/views/__backoffice/tasks/List.js:269-280 | the default query, as written, carries the filters and the current page and page size (none before a page is loaded), but no sort column and no direction |
| TaskList.IntendedDefaultQuery | resources/js/views/__backoffice/tasks/List.js:269-280 | the corrected default query carries the current sort column and direction, the filters, and the current page and page size |
| TaskList.PageChangeDropsSorting | resources/js/views/__backoffice/tasks/List.js:120-125 | after sorting by description descending, a page change sends no sort while the page keeps showing description descending |
| TaskList.IntendedPageChangeKeepsSorting | resources/js/views/__backoffice/tasks/List.js:269-280 | with the corrected query, a page change requests exactly the sort the page shows, and the shown sort stays the same |
| TaskList.RestoreFilters | resources/js/views/__backoffice/tasks/List.js:318-325 | the loop keeps exactly the URL parameters whose name contains `]` and no `_`, each with its value; the result is `Restorable` of the parsed URL |
| TaskList.FilterKeyRestoredIff | resources/js/views/__backoffice/tasks/List.js:321-325 | a filter set from the form is restored from the URL iff neither its column nor its operator contains `_` |
| TaskList.DateFiltersAreNotRestored | resources/js/views/__backoffice/tasks/List.js:321-325 | filters on `start_date` and `end_date` are never restored |
| TaskList.QueryString | resources/js/views/__backoffice/tasks/List.js:287-298 | the pushed URL has the sort, the page and page size once a page is loaded, and every filter with its value; a filter with the same name as a sort or page parameter overrides it |
| TaskList.Restorable | resources/js/views/__backoffice/tasks/List.js:321-325 | the restorable filters of a parameter map are exactly its parameters that pass the restoration test, each with its value from the map |
| TaskList.ReloadRestoresFilters | resources/js/views/__backoffice/tasks/List.js:287-301 | the URL pushed after a fetch brings back, on reload, exactly the shown filters whose key has no `_`, and carries the shown sort |
| TaskList.Lookup | resources/js/views/__backoffice/tasks/List.js:313-316 | a URL parameter's value, when present, is one of the URL's entries for that name; it is absent iff no entry has that name |
| TaskList.ListView.constructor | resources/js/views/__backoffice/tasks/List.js:22-28 | the page starts sorted by title ascending, with no filters, no page and nothing sent |
| TaskList.ListView.FetchUsers | resources/js/views/__backoffice/tasks/List.js:229-262 | the request is recorded; on success the sort and filters are taken from the parameters where given and kept otherwise, and the page is replaced; on failure the state is unchanged |
| TaskList.ListView.HandleFiltering | resources/js/views/__backoffice/tasks/List.js:82-94 | the default query is sent with the filter added; on success that becomes the filters and the response the pagination, on failure both stay; the sort stays |
| TaskList.ListView.HandleFilterRemove | resources/js/views/__backoffice/tasks/List.js:63-71 | the default query is sent with the filter removed; on success that becomes the filters and the response the pagination, on failure both stay; the sort stays |
| TaskList.ListView.HandleSorting | resources/js/views/__backoffice/tasks/List.js:104-110 | the default query is sent with the given column and direction; on success they become the sort and the response the pagination, on failure both stay; the filters stay |
| TaskList.ListView.HeaderCellClicked | resources/js/views/__backoffice/tasks/List.js:452-457 | a header click sends the default query with that column and the opposite of the current direction; on success these become the sort and the response the pagination, on failure both stay; the filters stay |
| TaskList.ListView.HandlePageChange | resources/js/views/__backoffice/tasks/List.js:120-125 | the default query is sent with the new page; the response becomes the pagination on success; sort and filters are unchanged |
| TaskList.ListView.HandlePerPageChange | resources/js/views/__backoffice/tasks/List.js:136-142 | the default query is sent with the new page size and page; the response becomes the pagination on success; sort and filters are unchanged |
| TaskList.ListView.UpdateQueryString | resources/js/views/__backoffice/tasks/List.js:287-301 | the URL for the current sort, filters and page is pushed onto the history |
| TaskList.ListView.OnPaginationChange | resources/js/views/__backoffice/tasks/List.js:306-331 | once a page is loaded, the URL is pushed and nothing else changes; before that, one request is appended to those already sent, carrying the URL's page, size and sort, with exactly the restorable URL parameters, at their URL values, as filters; on success those become the filters, the URL's sort the sort and the response the pagination, on failure the state stays |
| TaskList.ListView.DeleteTask | resources/js/views/__backoffice/tasks/List.js:189-220 | the delete request for the task is recorded; on success the listing returned by the delete becomes the page, on failure the page is unchanged |
| BackofficeRoutes.Declare | resources/js/routers/backoffice.js:6-40 | the declared routes become distinct new route objects with the declared names and paths, in order, with no auth flag |
| BackofficeRoutes.PrefixResources | resources/js/routers/backoffice.js:41-46 | every resource route's name gets `resources.` in front and its path `/resources`, in place; nothing else changes |
| BackofficeRoutes.MarkBackoffice | resources/js/routers/backoffice.js:68-73 | every route's name gets `backoffice.` in front, its path is kept, and it requires authentication |
| BackofficeRoutes.BuildRoutes | resources/js/routers/backoffice.js:6-73 | the table is 9 distinct routes: the three pages named `backoffice.<name>` with unchanged paths, then the six resource routes named `backoffice.resources.<name>` under `/resources<path>`, in declared order, all authenticated |
| BackofficeRoutes.RouteTable | resources/js/routers/backoffice.js:48-73 | the final names and paths, in order: pages first, then the prefixed resources |
| BackofficeRoutes.RouteNamesAreDistinct | resources/js/routers/backoffice.js:6-73 | no two routes end up with the same name |

## Left out

- Rendering, styling and the drag-and-drop library's wiring (kanban.js:70-159), and all JSX in List.js: these are user interface.
- The network requests and their timing. Each request's outcome is a parameter. Races between in-flight status requests, and between the sweep and manual edits, are not modelled (concurrency).
- The kanban board's own fetch (kanban.js:13-26): it only sets the page that `ApplyPage` receives.
- The client model `Task.js`: it is I/O. How axios serialises query parameters (including a filter key such as `title[like]` becoming a nested input on the server) is not part of this model.
- `UrlUtils`, which builds and parses query strings: it is not part of this model. `QueryString` takes the pushed URL to be the map of its parameters, and the URL read on first render is taken to be a list of distinct name/value pairs.
- The list page's loading flag, messages, alerts and delete-confirmation dialog, and `restoreUser`, which calls a `User` model the task page does not use: these are user-interface state.
- Create.js, Edit.js and Forms/Profile.js: form pages built on Formik, Yup and moment, which are foreign libraries.
- kanbanDashboard/index.js: it only re-exports the board for lazy loading.
- Eloquent persistence, `orderBy`, `paginate`, the eager-loaded `user` relation and the controller's `filter` helper, whose source is not part of this model. The listing is the `Query` value the controller builds, not the rows it returns.
- The `App\Task` model class is not part of this model. Its fillable list is taken to be the seven columns `store` writes.
- Laravel's route-model binding is reduced to a 404 for an unknown id.
- Carbon and time zones. Dates are day numbers and "today" is a parameter. Carbon's parsing of a null start date as now, and its exception on unparseable text, are not modelled.
- Laravel's `date:Y-m-d` and `after:` rules are reduced to "the input is a day number" and "strictly later day". Laravel's parsing of date strings is not modelled.
- DailyTaskCheckup.Handle: the method reads the pending rows as one snapshot taken before the loop, which is the intended sweep. Eloquent's `each` instead pages by offset through a query whose rows the callback removes, so with more than 1000 pending rows due tasks can be left pending and a second run on the same day can change the table. That behaviour is modelled separately by `ChunkedSweepFrom` (see Findings), and the idempotence and "every due task starts" properties hold for `Swept` only.
- DailyTaskCheckup.Handle: the status filter is a database comparison, which under MySQL's default collation ignores case and trailing spaces (so a `Pending` row is matched); `HasStatus` is exact string equality.
- DailyTaskCheckup.OnlyStatusChanges: `save()` also writes the `updated_at` timestamp, which the model does not hold; the same applies to `update()` in `TasksController.StatusOnlyRequestWritesStatus` and the other controller writes.
- TasksController.TaskErrors: when the start date is not a date, Laravel compares the end date's timestamp with PHP `false`, which fails for a timestamp of 0; the model lets every end date pass in that case, so an end date whose timestamp is 0 (1970-01-01 in a UTC application) is treated as passing.
- TaskList.ReadableStatus: in JavaScript, a status equal to a property of `Object.prototype` (such as `constructor`) yields that inherited function instead of the status text; the model states the plain-string behaviour only.
- TaskList.ListView.FetchUsers: the page size and current page are kept as the strings the server sends; the `parseInt` used when rendering is not modelled.

## Findings

| source | as written | input that shows it | evidently intended | confidence | as-written member | corrected member |
|---|---|---|---|---|---|---|
| resources/js/views/__backoffice/kanbanDashboard/kanban.js:54-64 | the destination list is copied from the column before the removal, and its key is written after the source key, so on a same-column drag the removal is lost | pending column `[a, b]`, drag from index 0 to index 1 of the same column: the column becomes `[a, a, b]` | the card is moved within the column, giving `[b, a]` | high; not executed | Kanban.SameColumnDragDuplicatesCard | Kanban.ReorderedIsPermutation |
| resources/js/views/__backoffice/tasks/List.js:269-280 | `defaultQueryString` reads `sortBy` and `sortType` from a sort state whose fields are `by` and `type`, so both are undefined | sort by description descending, then change page: the request carries no sort, so the server falls back to title ascending (TasksController.php:143-146), while the page keeps showing description descending | the default query carries the current sort column and direction | high; not executed | TaskList.PageChangeDropsSorting | TaskList.IntendedPageChangeKeepsSorting |
| app/Console/Commands/DailyTaskCheckup.php:42-47 | `each` fetches the pending rows 1000 at a time, by offset, re-running the `status = pending` query for each page after the previous page's rows were set to `in_progress`, so each later page's offset overshoots the shrunken result by the number of rows the earlier pages advanced | 1001 pending tasks all starting today: the second page, at offset 1000, runs over the one row still pending and is empty, so the 1001st task stays pending until the next run | every pending task starting today is started in one run (`lazyById` or `chunkById` pages by key instead) | high; not executed | DailyTaskCheckup.ThousandAndFirstDueTaskIsSkipped | DailyTaskCheckup.DueTasksStart |
