# LibrePlan planning screens: a Dafny model

LibrePlan is a web application for project planning. This project models the user-interface logic behind several of its screens. It covers:

- the advanced allocation screen. This includes the restriction that limits which cells can be edited, the horizontal and vertical paginators, the assignment-function combo box of each row, and the stretches configuration window;
- the adapter that turns planning task elements into Gantt tasks. It covers constraints, the day-fraction duration, dependency types, and the labels and resources texts;
- the configuration page. It covers entity sequences, connector property checks and the LDAP role strategy and role lists;
- the company planning model. It covers the order query of a filter, the top-level task groups, the default date range, and the earned-value legend;
- the project element tree. It covers filter translation, the date-range constraints, the JIRA hyperlink, removal guards, hours and budget, and the tooltip;
- the resource load panel. It covers the name-filter pages and the tree model;
- the user settings page. It covers the language order and saving;
- the timesheet template editor. It covers positions, ordering by position number, the validations, and moving entries.

Each Java file is a Dafny module, except `AdvancedAllocationController`. Its nested classes and concerns are split into the modules `Restrictions`, `HorizontalPagination`, `VerticalPagination`, `AllocationInput`, `AllocationEngine`, `FunctionConfigurations` and `AllocationRow`. Code that updates fields becomes a `class` whose methods carry `modifies` clauses. A loop becomes a `method` whose `while` loop is proved against a specification function. Calculations become functions. The allocation engine is not part of this model. A `ResourceAllocation` records, in order, the requests the screen makes of the engine. The contracts state what the screen asks for.

Dates are integer day numbers. Instants inside a day are a day plus an effort. Dialog answers, selections and DAO lookups become parameters. A Java exception becomes the `Err` case of a `Result`, except where a precondition excludes it; "## Left out" lists those preconditions. A Java `null` becomes `None`.

Two modules stand in for library code:

- `Collections` holds `Option`, `Result` and the null-dereference error, an insertion sort over a total preorder (`Collections.sort`), `String.compareTo`, and `StringUtils.join` and `split`.
- `Numbers` holds `Integer.parseInt`, the decimal printing of integers, Java's truncating division, and the 32-bit `intValue` wrap-around.

## Model

| member | source | states |
|---|---|---|
| Restrictions.Build | libreplan-webapp/src/main/java/org/libreplan/web/planner/allocation/AdvancedAllocationController.java:228-241 | Building succeeds exactly when a calculated value is given. It restricts to the interval, keeping both dates, exactly for NUMBER_OF_HOURS. Otherwise nothing is restricted. |
| Restrictions.LimitStartDate | libreplan-webapp/src/main/java/org/libreplan/web/planner/allocation/AdvancedAllocationController.java:295-303 | With no restriction the date is unchanged. Otherwise the result is the later of the window start and the date, and is one of the two. |
| Restrictions.LimitEndDate | libreplan-webapp/src/main/java/org/libreplan/web/planner/allocation/AdvancedAllocationController.java:295-298 | With no restriction the date is unchanged. Otherwise the result is the earlier of the window end and the date, and is one of the two. |
| Restrictions.IsDisabledEditionOn | libreplan-webapp/src/main/java/org/libreplan/web/planner/allocation/AdvancedAllocationController.java:278-288 | With no restriction no cell is disabled. With a window, the check fails exactly when either interval ends before it starts. Otherwise a cell is disabled exactly when the window ends at or before the cell's start, or starts at or after the cell's end. |
| Restrictions.IsInvalidTotalEffort | libreplan-webapp/src/main/java/org/libreplan/web/planner/allocation/AdvancedAllocationController.java:290-293 | No total effort is ever invalid, for either kind of restriction. |
| Restrictions.LimitsAreIdempotent | libreplan-webapp/src/main/java/org/libreplan/web/planner/allocation/AdvancedAllocationController.java:295-303 | Limiting a date twice gives the same date as limiting it once. |
| Restrictions.DisabledIffNoCommonDay | libreplan-webapp/src/main/java/org/libreplan/web/planner/allocation/AdvancedAllocationController.java:278-288 | For non-empty window and cell, the cell is disabled exactly when no day lies in both. |
| Restrictions.EmptyWindowInsideCellIsEditable | libreplan-webapp/src/main/java/org/libreplan/web/planner/allocation/AdvancedAllocationController.java:278-288 | An empty window (5, 5) inside the cell (3, 8) leaves the cell editable. Joda's overlap test says so although they share no day. |
| Restrictions.LimitedCellStaysInWindow | libreplan-webapp/src/main/java/org/libreplan/web/planner/allocation/AdvancedAllocationController.java:1663-1666 | A cell edit sends dates that lie inside both the window and the cell. |
| AllocationInput.DescendingRunStart | libreplan-webapp/src/main/java/org/libreplan/web/planner/allocation/AdvancedAllocationController.java:169-183 | The index where the last non-increasing run of end dates begins. The run is non-increasing up to the end, and the end before it is smaller. |
| AllocationInput.GetEnd | libreplan-webapp/src/main/java/org/libreplan/web/planner/allocation/AdvancedAllocationController.java:169-183 | `getEnd` scans back from the last allocation while the end does not fall. It returns the end at the start of the final non-increasing run. |
| AllocationInput.CalculateInterval | libreplan-webapp/src/main/java/org/libreplan/web/planner/allocation/AdvancedAllocationController.java:145-159 | With no allocations the interval is the task's own. Otherwise it starts at the earlier of the first allocation's two start dates. It ends at the later of `getEnd` and the task end. |
| AllocationInput.GetEndBounds | libreplan-webapp/src/main/java/org/libreplan/web/planner/allocation/AdvancedAllocationController.java:169-183 | The end found is no earlier than the last allocation's end. It is no earlier than any end in the final run. |
| AllocationInput.GetEndIsNotTheMaximum | libreplan-webapp/src/main/java/org/libreplan/web/planner/allocation/AdvancedAllocationController.java:169-183 | For ends 10, 5 and 7 the end found is 7, not the latest end 10. |
| HorizontalPagination.IntervalIncrease | libreplan-webapp/src/main/java/org/libreplan/web/planner/allocation/AdvancedAllocationController.java:449-463 | Every zoom level pages by a positive number of days. |
| HorizontalPagination.ItemsTileInterval | libreplan-webapp/src/main/java/org/libreplan/web/planner/allocation/AdvancedAllocationController.java:465-487 | The listbox items cover the interval without gap or overlap. The first starts at the interval start and the last ends at the interval end. Item k starts k increments in. Each item is shorter than two increments, and when there are several items each is at least one increment long. |
| HorizontalPagination.ItemAt | libreplan-webapp/src/main/java/org/libreplan/web/planner/allocation/AdvancedAllocationController.java:465-487 | Gives the start and end of item k. Every item but the last is exactly one increment long and ends before the interval end. |
| HorizontalPagination.GoToPageIntended | libreplan-webapp/src/main/java/org/libreplan/web/planner/allocation/AdvancedAllocationController.java:489-502 | The page for item `index` starts `index` increments in, and ends as that listbox item ends. |
| HorizontalPagination.GoToIntendedShowsItem | libreplan-webapp/src/main/java/org/libreplan/web/planner/allocation/AdvancedAllocationController.java:489-502 | With the strict end test, going to item `index` shows exactly that listbox item. |
| HorizontalPagination.GoToAsWrittenMergesLastItems | libreplan-webapp/src/main/java/org/libreplan/web/planner/allocation/AdvancedAllocationController.java:489-502 | Take the interval 0 to 84 with increment 42. The listbox shows pages (0, 42) and (42, 84). Going to item 0 as written shows (0, 84); the strict test shows (0, 42). |
| HorizontalPagination.FilterKeepsSelected | libreplan-webapp/src/main/java/org/libreplan/web/planner/allocation/AdvancedAllocationController.java:505-530 | The filter keeps a column exactly when the column has no date or its date is on the page. It adds no column. |
| HorizontalPagination.PaginatorFilter.Increase | libreplan-webapp/src/main/java/org/libreplan/web/planner/allocation/AdvancedAllocationController.java:449-463 | The paginator's increment is positive. |
| HorizontalPagination.PaginatorFilter.constructor | libreplan-webapp/src/main/java/org/libreplan/web/planner/allocation/AdvancedAllocationController.java:566-575 | A new paginator keeps the zoom level and the interval. It shows the first page and has no listbox items. |
| HorizontalPagination.PaginatorFilter.SetZoomLevel | libreplan-webapp/src/main/java/org/libreplan/web/planner/allocation/AdvancedAllocationController.java:562-564 | The zoom level becomes the one given. |
| HorizontalPagination.PaginatorFilter.SetInterval | libreplan-webapp/src/main/java/org/libreplan/web/planner/allocation/AdvancedAllocationController.java:566-575 | Stores the interval and moves to its first page. For a non-empty interval that page is the first listbox item. |
| HorizontalPagination.PaginatorFilter.PopulateHorizontalListbox | libreplan-webapp/src/main/java/org/libreplan/web/planner/allocation/AdvancedAllocationController.java:465-487 | The loop builds exactly the items that tile the interval. |
| HorizontalPagination.PaginatorFilter.GoToHorizontalPage | libreplan-webapp/src/main/java/org/libreplan/web/planner/allocation/AdvancedAllocationController.java:489-502 | A negative index changes nothing. Otherwise the page is the one the source computes with its non-strict end test. |
| HorizontalPagination.GoToPageAsWritten | libreplan-webapp/src/main/java/org/libreplan/web/planner/allocation/AdvancedAllocationController.java:489-502 | The page as written starts where the listbox item starts. It differs from that item exactly when the interval ends two increments after the page start. |
| HorizontalPagination.PaginatorFilter.GoToHorizontalPageIntended | libreplan-webapp/src/main/java/org/libreplan/web/planner/allocation/AdvancedAllocationController.java:489-502 | With the strict end test, going to a listed item shows exactly that item. A negative index changes nothing. |
| HorizontalPagination.PaginatorFilter.Next | libreplan-webapp/src/main/java/org/libreplan/web/planner/allocation/AdvancedAllocationController.java:532-540 | Moves the page one increment forward. When the next page would reach within two increments of the interval end, the end moves one more increment. |
| HorizontalPagination.PaginatorFilter.Previous | libreplan-webapp/src/main/java/org/libreplan/web/planner/allocation/AdvancedAllocationController.java:542-546 | Moves both ends of the page one increment back. |
| HorizontalPagination.PaginatorFilter.Selects | libreplan-webapp/src/main/java/org/libreplan/web/planner/allocation/AdvancedAllocationController.java:505-530 | The loop returns the columns the page selects, in their order. |
| HorizontalPagination.PageTestsOnItems | libreplan-webapp/src/main/java/org/libreplan/web/planner/allocation/AdvancedAllocationController.java:553-560 | On a listbox item, the first-page test holds exactly for the first item and the last-page test exactly for the last. |
| HorizontalPagination.LastItemEnds | libreplan-webapp/src/main/java/org/libreplan/web/planner/allocation/AdvancedAllocationController.java:465-487 | The last listbox item ends at the interval end. |
| HorizontalPagination.NextFromItem | libreplan-webapp/src/main/java/org/libreplan/web/planner/allocation/AdvancedAllocationController.java:532-540 | Take the page of a listbox item that is not the last. `next` moves it to the start of the following item and covers that item. The new page reaches the interval end exactly when the source's end test says so. |
| VerticalPagination.GroupingAtOrBefore | libreplan-webapp/src/main/java/org/libreplan/web/planner/allocation/AdvancedAllocationController.java:852-861 | The corrected position is never after the position, and stays non-negative from a non-negative one. |
| VerticalPagination.GroupingAtOrBeforeIsLargest | libreplan-webapp/src/main/java/org/libreplan/web/planner/allocation/AdvancedAllocationController.java:852-861 | Paging up lands on the last grouping row at or before the position, or on row 0 when there is none. |
| VerticalPagination.GroupingAtOrAfterIsSmallest | libreplan-webapp/src/main/java/org/libreplan/web/planner/allocation/AdvancedAllocationController.java:863-872 | Paging down lands on the first grouping row at or after the position, or just past the rows. |
| VerticalPagination.VerticalPaginator.constructor | libreplan-webapp/src/main/java/org/libreplan/web/planner/allocation/AdvancedAllocationController.java:789-806 | A new paginator holds the cached rows on page 0 at row 0, with no page starts and no labels. |
| VerticalPagination.VerticalPaginator.CorrectVerticalPageUpPosition | libreplan-webapp/src/main/java/org/libreplan/web/planner/allocation/AdvancedAllocationController.java:852-861 | The loop returns the last grouping row at or before the position. |
| VerticalPagination.VerticalPaginator.CorrectVerticalPageDownPosition | libreplan-webapp/src/main/java/org/libreplan/web/planner/allocation/AdvancedAllocationController.java:863-872 | The loop returns the first grouping row at or after the position. |
| VerticalPagination.VerticalPaginator.PopulateVerticalListbox | libreplan-webapp/src/main/java/org/libreplan/web/planner/allocation/AdvancedAllocationController.java:831-850 | The page starts begin at row 0. Each later start is the first grouping row at least a page's worth of rows after the previous start. Each page's label names its first row. With some rows, a paginator on page 0 at row 0 is then valid. |
| VerticalPagination.VerticalPaginator.PageEnd | libreplan-webapp/src/main/java/org/libreplan/web/planner/allocation/AdvancedAllocationController.java:789-806 | With rows, the current page ends after its first row and no later than the last row. With no rows (every allocation input without allocations), it ends at 0. |
| VerticalPagination.VerticalPaginator.FilterRows | libreplan-webapp/src/main/java/org/libreplan/web/planner/allocation/AdvancedAllocationController.java:789-806 | With no rows, nothing is shown. Otherwise the shown rows start at the page's first row, which is a grouping row unless it is row 0. There are at least a page's worth of rows unless the page reaches the end. |
| VerticalPagination.VerticalPaginator.UpButtonDisabled | libreplan-webapp/src/main/java/org/libreplan/web/planner/allocation/AdvancedAllocationController.java:790 | On a valid paginator the up button is disabled exactly on the first page. |
| VerticalPagination.VerticalPaginator.DownButtonDisabled | libreplan-webapp/src/main/java/org/libreplan/web/planner/allocation/AdvancedAllocationController.java:791-793 | On a valid paginator the down button, as written, is disabled only on the last page. |
| VerticalPagination.VerticalPaginator.DownButtonDisabledIntended | libreplan-webapp/src/main/java/org/libreplan/web/planner/allocation/AdvancedAllocationController.java:789-812 | The intended down button is disabled exactly when the page runs to the end of the rows, and whenever the button as written is disabled. |
| VerticalPagination.VerticalPaginator.VerticalPagedown | libreplan-webapp/src/main/java/org/libreplan/web/planner/allocation/AdvancedAllocationController.java:808-812 | The page number always goes up by one. With a next page, the view moves to it, starting where the current page ended. On the last page the lookup fails and the first row shown stays. |
| VerticalPagination.VerticalPaginator.VerticalPageup | libreplan-webapp/src/main/java/org/libreplan/web/planner/allocation/AdvancedAllocationController.java:818-822 | The page number always goes down by one. The move succeeds exactly when the up button is enabled; the view then moves to the previous page, which ends where the current page started. On the first page the lookup fails and the first row shown stays. |
| VerticalPagination.VerticalPaginator.GoToSelectedVerticalPage | libreplan-webapp/src/main/java/org/libreplan/web/planner/allocation/AdvancedAllocationController.java:824-829 | The page number becomes the selection. A selection that names a page moves there and starts at its first row. Any other selection, such as none (-1), fails, and the first row shown stays. |
| VerticalPagination.PageStartsIncrease | libreplan-webapp/src/main/java/org/libreplan/web/planner/allocation/AdvancedAllocationController.java:835-836 | Page starts strictly increase, so pages never overlap. |
| VerticalPagination.LaterPagesStartAfterFirstRow | libreplan-webapp/src/main/java/org/libreplan/web/planner/allocation/AdvancedAllocationController.java:831-850 | Every page after the first starts after row 0. |
| VerticalPagination.PagesBeforeLastAreFull | libreplan-webapp/src/main/java/org/libreplan/web/planner/allocation/AdvancedAllocationController.java:831-850 | Every page before the last holds more than 25 rows beyond its start, so the down button is enabled there. |
| VerticalPagination.SecondPageStartsAtGroupingRow | libreplan-webapp/src/main/java/org/libreplan/web/planner/allocation/AdvancedAllocationController.java:831-850 | A second page starts at a grouping row at least 25 rows down. |
| VerticalPagination.OneGroupingRowOnePage | libreplan-webapp/src/main/java/org/libreplan/web/planner/allocation/AdvancedAllocationController.java:831-850 | Rows in which only the first is a grouping row form a single page. |
| VerticalPagination.DownButtonEnabledOnLastPage | libreplan-webapp/src/main/java/org/libreplan/web/planner/allocation/AdvancedAllocationController.java:789-812 | With 31 rows under one grouping row, the down button as written is enabled on the only page, and clicking it fails. |
| AllocationEngine.ResourceAllocation.constructor | libreplan-webapp/src/main/java/org/libreplan/web/planner/allocation/AdvancedAllocationController.java:1160-1169 | A new allocation has its dates, its consolidation flag and its function, and no requests yet. |
| AllocationEngine.ResourceAllocation.SetAssignmentFunctionAndApplyIfNotFlat | libreplan-webapp/src/main/java/org/libreplan/web/planner/allocation/AdvancedAllocationController.java:1415 | Installs the function and records the request. |
| AllocationEngine.ResourceAllocation.SetAssignmentFunctionWithoutApply | libreplan-webapp/src/main/java/org/libreplan/web/planner/allocation/AdvancedAllocationController.java:1368 | Installs the function and records that it is not applied. |
| AllocationEngine.ResourceAllocation.AllocateOnInterval | libreplan-webapp/src/main/java/org/libreplan/web/planner/allocation/AdvancedAllocationController.java:1160-1165 | Records one allocation request over the given days with the given effort. |
| AllocationEngine.ResourceAllocation.ApplyAssignmentFunction | libreplan-webapp/src/main/java/org/libreplan/web/planner/allocation/AdvancedAllocationController.java:1166-1169 | Records that the installed function is applied. |
| AllocationEngine.ResourceAllocation.RefreshEfforts | libreplan-webapp/src/main/java/org/libreplan/web/planner/allocation/AdvancedAllocationController.java:1377-1381 | Records that the efforts are refreshed. |
| FunctionConfigurations.TargetIndex | libreplan-webapp/src/main/java/org/libreplan/web/planner/allocation/AdvancedAllocationController.java:1539-1545 | Every assignment function is targeted by exactly one entry of the combo box. |
| FunctionConfigurations.NamesAreDistinct | libreplan-webapp/src/main/java/org/libreplan/web/planner/allocation/AdvancedAllocationController.java:1356-1358 | No two entries of the combo box share a name. |
| FunctionConfigurations.AppliedConfigurationTargetsInstalled | libreplan-webapp/src/main/java/org/libreplan/web/planner/allocation/streches/StrechesFunctionConfiguration.java:86-109 | The configuration applied targets the function it installs exactly when it is not a stretches configuration of a type other than the new function's. The sigmoid and configurable flags agree with the function installed. |
| FunctionConfigurations.OneStretchesItemMissesFreshFunction | libreplan-webapp/src/main/java/org/libreplan/web/planner/allocation/streches/StrechesFunctionConfiguration.java:95-99 | Whatever type the new stretches function reports, some entry of the combo box does not target what it installs. |
| FunctionConfigurations.IntendedKind | libreplan-webapp/src/main/java/org/libreplan/web/planner/allocation/streches/StrechesFunctionConfiguration.java:95-99 | The intended type of the new function is the configuration's own, so the configuration targets what it installs. |
| FunctionConfigurations.IntendedInstallIsTargeted | libreplan-webapp/src/main/java/org/libreplan/web/planner/allocation/streches/StrechesFunctionConfiguration.java:95-99 | With the intended type, every entry of the combo box is the one that targets what it installs. |
| FunctionConfigurations.ApplyOn | libreplan-webapp/src/main/java/org/libreplan/web/planner/allocation/AdvancedAllocationController.java:1366-1375 | Flat installs the flat function without applying it, then allocates all the effort over the allocation's dates and refreshes. Manual installs the manual function with the apply-if-not-flat request. Stretches and sigmoid install a fresh function with that request and then refresh. The function installed is the one the entry targets. |
| FunctionConfigurations.GoToConfigure | libreplan-webapp/src/main/java/org/libreplan/web/planner/allocation/streches/StrechesFunctionConfiguration.java:44-66 | Only stretches configurations can be configured. Accepting the window installs the edited function, applies it and refreshes. Cancelling leaves the allocation as it was. |
| AllocationRow.EditableCells | libreplan-webapp/src/main/java/org/libreplan/web/planner/allocation/AdvancedAllocationController.java:1715-1738 | A cell can be edited exactly when all of these hold: the row is not a grouping row; the task is not fed from timesheets; the task starts before the cell ends; the task's work reaches into the cell; and the cell is not before the first day not consolidated. |
| AllocationRow.LabelClassFor | libreplan-webapp/src/main/java/org/libreplan/web/planner/allocation/AdvancedAllocationController.java:1702-1713 | Calculated hours are shown exactly on grouping rows, and an editable cell has no style class. A read-only cell without a class is one fed from timesheets. Consolidated hours mark a cell inside the task before the first unconsolidated day. |
| AllocationRow.Row.constructor | libreplan-webapp/src/main/java/org/libreplan/web/planner/allocation/AdvancedAllocationController.java:1593-1606 | A row keeps its level, limiting flag, task, restriction and allocation, with nothing selected yet. |
| AllocationRow.Row.InitializeAssignmentFunctionsCombo | libreplan-webapp/src/main/java/org/libreplan/web/planner/allocation/AdvancedAllocationController.java:1223-1265 | The combo box shows the entry that targets the allocation's function, and remembers it as the previous one. It is disabled exactly when the task is fed from timesheets. The configure button is enabled exactly for a configurable entry on a task not fed from timesheets. |
| AllocationRow.Row.OnSelect | libreplan-webapp/src/main/java/org/libreplan/web/planner/allocation/AdvancedAllocationController.java:1274-1306 | The outcome is one of three. Sigmoid is refused on consolidated allocations. A declined change restores the previous entry and leaves the allocation untouched. An accepted change installs the chosen function, appends the engine requests and remembers the entry. |
| AllocationRow.Row.SetSelectedFunction | libreplan-webapp/src/main/java/org/libreplan/web/planner/allocation/AdvancedAllocationController.java:1334-1343 | Selects the entry with the given name when there is one, and otherwise leaves the selection alone. |
| AllocationRow.Row.ChangeAssignmentFunctionToManual | libreplan-webapp/src/main/java/org/libreplan/web/planner/allocation/AdvancedAllocationController.java:1678-1685 | Selects Manual and installs the manual function, requesting it only if another was installed. The previous entry is left unchanged. |
| AllocationRow.Row.OnCellChange | libreplan-webapp/src/main/java/org/libreplan/web/planner/allocation/AdvancedAllocationController.java:1652-1676 | Editing a cell switches to Manual. It then asks the engine to allocate the value over the cell's days, limited to the window, and refreshes. |
| AllocationRow.Row.ChangeAssignmentFunctionToManualIntended | libreplan-webapp/src/main/java/org/libreplan/web/planner/allocation/AdvancedAllocationController.java:1678-1685 | Does what the source does, and also remembers Manual as the previous entry. The combo box then shows the installed function. |
| AllocationRow.Row.OnCellChangeIntended | libreplan-webapp/src/main/java/org/libreplan/web/planner/allocation/AdvancedAllocationController.java:1652-1676 | Sends the same requests as the cell edit. The combo box then shows the installed function. |
| AllocationRow.Row.OnTotalEffortChange | libreplan-webapp/src/main/java/org/libreplan/web/planner/allocation/AdvancedAllocationController.java:1146-1180 | Only an enabled box accepts a total: the row is not a grouping row and not limiting, and its task is not fed from timesheets. The total is allocated over the allocation. If the function is not flat it is applied again. |
| AllocationRow.Row.OnConfigure | libreplan-webapp/src/main/java/org/libreplan/web/planner/allocation/AdvancedAllocationController.java:1549-1558 | Only a configurable entry opens the window. Accepting installs the edited function; otherwise nothing changes. |
| AllocationRow.SelectKeepsComboConsistent | libreplan-webapp/src/main/java/org/libreplan/web/planner/allocation/AdvancedAllocationController.java:1274-1306 | From a combo box that shows the installed function, a refused or declined choice keeps it so. A completed choice keeps it so exactly when the chosen entry is not a stretches entry of a type other than the new function's. |
| AllocationRow.SelectIntendedKeepsComboConsistent | libreplan-webapp/src/main/java/org/libreplan/web/planner/allocation/streches/StrechesFunctionConfiguration.java:95-99 | When the new stretches function reports the chosen entry's own type, every choice keeps the combo box showing the installed function. |
| AllocationRow.StretchesItemMissesInstalledFunction | libreplan-webapp/src/main/java/org/libreplan/web/planner/allocation/streches/StrechesFunctionConfiguration.java:95-99 | Whatever type the new stretches function reports, choosing the other stretches entry shows that entry while a different entry targets the installed function. |
| AllocationRow.StalePreviousItemAfterCellEdit | libreplan-webapp/src/main/java/org/libreplan/web/planner/allocation/AdvancedAllocationController.java:1678-1685 | Start from a flat allocation, edit a cell, then decline a change. The combo box shows Flat while Manual is installed. |
| TaskElementAdapter.StartConstraintsFor | libreplan-webapp/src/main/java/org/libreplan/web/planner/TaskElementAdapter.java:114-140 | There is at most one start constraint, and it is never an upper bound. There is one only for "as soon as possible", a fixed start or "start not earlier than". |
| TaskElementAdapter.EndConstraintsFor | libreplan-webapp/src/main/java/org/libreplan/web/planner/TaskElementAdapter.java:142-160 | There is at most one end constraint, and it is an upper bound. There is one only for "as late as possible" or "finish not later than". |
| TaskElementAdapter.ConstraintsBoundOneSide | libreplan-webapp/src/main/java/org/libreplan/web/planner/TaskElementAdapter.java:114-160 | A task never gets both a start constraint and an end constraint. |
| TaskElementAdapter.AsLateAsPossibleFallsThrough | libreplan-webapp/src/main/java/org/libreplan/web/planner/TaskElementAdapter.java:148-156 | Without a deadline, "as late as possible" falls through to the "finish not later than" case and bounds the end by the task's own date. With a deadline it bounds the end by the deadline. |
| TaskElementAdapter.AsSoonAsPossibleNeedsInitDate | libreplan-webapp/src/main/java/org/libreplan/web/planner/TaskElementAdapter.java:123-128 | "As soon as possible" constrains the start exactly when the order has an init date. |
| TaskElementAdapter.Gcd | libreplan-webapp/src/main/java/org/libreplan/web/planner/TaskElementAdapter.java:327-328 | The result is positive and divides both numbers, and every common divisor divides it and is no larger, so it is the greatest. |
| TaskElementAdapter.Reduced | libreplan-webapp/src/main/java/org/libreplan/web/planner/TaskElementAdapter.java:327-328 | A reduced fraction has a positive denominator and the same value, and is in lowest terms: the greatest common divisor of its parts is 1, and zero becomes 0/1. |
| TaskElementAdapter.MultiplyBy | libreplan-webapp/src/main/java/org/libreplan/web/planner/TaskElementAdapter.java:327-328 | It overflows exactly when both factors are non-zero and the cross-reduced numerator or denominator exceeds the `int` range, as `mulAndCheck` and `mulPosAndCheck` test. Otherwise the product has a positive denominator, equals the product of the two values and is in lowest terms. |
| TaskElementAdapter.CrossReduced | libreplan-webapp/src/main/java/org/libreplan/web/planner/TaskElementAdapter.java:327-328 | The cross-reduced product of two positive fractions has positive parts and the value of the plain product. |
| TaskElementAdapter.CrossReducedProduct | libreplan-webapp/src/main/java/org/libreplan/web/planner/TaskElementAdapter.java:327-328 | Reducing across before multiplying does not change the product. |
| TaskElementAdapter.FractionOfWorkingDayFor | libreplan-webapp/src/main/java/org/libreplan/web/planner/TaskElementAdapter.java:337-347 | The fraction lies between zero and one. It equals the effort, capped at the working day, over the working day. |
| TaskElementAdapter.CalculateDurationInDayFor | libreplan-webapp/src/main/java/org/libreplan/web/planner/TaskElementAdapter.java:321-334 | With no working day the duration is 0. Otherwise, when the exact path succeeds, the duration is the capped fraction of a day in milliseconds, truncated, and never more than a day. |
| TaskElementAdapter.DayFractionBounds | libreplan-webapp/src/main/java/org/libreplan/web/planner/TaskElementAdapter.java:321-334 | A fraction of the day in milliseconds lies between zero and a full day, and is a full day for a whole day. |
| TaskElementAdapter.ExactPathOverflows | libreplan-webapp/src/main/java/org/libreplan/web/planner/TaskElementAdapter.java:321-334 | An effort of 50000000 s in a working day of 100000001 s overflows the exact path. |
| TaskElementAdapter.ToGanttType | libreplan-webapp/src/main/java/org/libreplan/web/planner/TaskElementAdapter.java:1113-1126 | Each domain dependency type maps to a Gantt type other than VOID. |
| TaskElementAdapter.ToDomainType | libreplan-webapp/src/main/java/org/libreplan/web/planner/TaskElementAdapter.java:1128-1141 | Only the VOID Gantt type fails to translate. |
| TaskElementAdapter.DependencyTypesRoundTrip | libreplan-webapp/src/main/java/org/libreplan/web/planner/TaskElementAdapter.java:1113-1141 | The two translations are inverse: a domain type comes back unchanged, and a Gantt type translates to t exactly when it is t's image. |
| TaskElementAdapter.LabelsOfElementAndAncestors | libreplan-webapp/src/main/java/org/libreplan/web/planner/TaskElementAdapter.java:770-784 | The labels are exactly those of the element and of its ancestors. |
| TaskElementAdapter.Names | libreplan-webapp/src/main/java/org/libreplan/web/planner/TaskElementAdapter.java:793-798 | Maps each label to its name, in order. |
| TaskElementAdapter.BuildLabelsText | libreplan-webapp/src/main/java/org/libreplan/web/planner/TaskElementAdapter.java:786-803 | Without an order element the text is empty. Otherwise it is the label names, without duplicates and in ascending order, joined by ", ". |
| TaskElementAdapter.LabelsTextItems | libreplan-webapp/src/main/java/org/libreplan/web/planner/TaskElementAdapter.java:786-803 | The listed names are exactly the names of the element's and ancestors' labels. They do not depend on the order in which the set is visited. |
| TaskElementAdapter.NamesOfElements | libreplan-webapp/src/main/java/org/libreplan/web/planner/TaskElementAdapter.java:793-798 | The names of a list of labels are the names of its set of labels. |
| TaskElementAdapter.GenericRepresentation | libreplan-webapp/src/main/java/org/libreplan/web/planner/TaskElementAdapter.java:830-848 | A generic allocation is shown in brackets, and with no criteria it reads "[All workers]". |
| TaskElementAdapter.AllRepresentations | libreplan-webapp/src/main/java/org/libreplan/web/planner/TaskElementAdapter.java:805-822 | The representations are collected allocation by allocation, in order: those of a list are those of all but its last allocation followed by those of the last. |
| TaskElementAdapter.ResourcesItems | libreplan-webapp/src/main/java/org/libreplan/web/planner/TaskElementAdapter.java:805-828 | The items are in ascending order. They are exactly the resource names and generic representations, plus the subcontractor when subcontracted. Without a subcontractor they have no duplicates. |
| TaskElementAdapter.UnsortedResourcesItems | libreplan-webapp/src/main/java/org/libreplan/web/planner/TaskElementAdapter.java:805-825 | Before sorting, the list holds the same items. Without a subcontractor it has no duplicates. |
| TaskElementAdapter.AddEachIfAbsent | libreplan-webapp/src/main/java/org/libreplan/web/planner/TaskElementAdapter.java:810-815 | The loop appends each name not already present, in order. |
| TaskElementAdapter.BuildResourcesText | libreplan-webapp/src/main/java/org/libreplan/web/planner/TaskElementAdapter.java:805-828 | The text is the sorted items joined by "; ". |
| TaskElementAdapter.CurrentLengthConstraint | libreplan-webapp/src/main/java/org/libreplan/web/planner/TaskElementAdapter.java:957-967 | Only a forward task gets a constraint, and that constraint bounds the end from below by the current end. |
| TaskElementAdapter.Adapter.ForCompany | libreplan-webapp/src/main/java/org/libreplan/web/planner/TaskElementAdapter.java:204-210 | The company adapter has no order dates and does not compute resources texts. |
| TaskElementAdapter.Adapter.ForOrder | libreplan-webapp/src/main/java/org/libreplan/web/planner/TaskElementAdapter.java:212-219 | The order adapter has the order's init date and deadline, and computes resources texts. |
| TaskElementAdapter.Adapter.SetPreventCalculateResourcesText | libreplan-webapp/src/main/java/org/libreplan/web/planner/TaskElementAdapter.java:388-391 | Sets whether resources texts are computed. |
| TaskElementAdapter.Adapter.GetConstraints | libreplan-webapp/src/main/java/org/libreplan/web/planner/TaskElementAdapter.java:947-955 | The start and end constraints are those of the task's position against the order dates, and at most one side is constrained. |
| TaskElementAdapter.Adapter.GetLabelsText | libreplan-webapp/src/main/java/org/libreplan/web/planner/TaskElementAdapter.java:725-741 | Milestones and tasks without an order element show no labels. Other tasks show the labels text. |
| TaskElementAdapter.Adapter.GetResourcesText | libreplan-webapp/src/main/java/org/libreplan/web/planner/TaskElementAdapter.java:743-768 | The text is empty when resources texts are off or there is no order element. Otherwise it is the resources text. |
| ConfigurationController.SequencesOf | libreplan-webapp/src/main/java/org/libreplan/web/common/ConfigurationController.java:824-826 | Returns the sequences of one entity, all of them and nothing else. |
| ConfigurationController.AllEntitySequencesOrdered | libreplan-webapp/src/main/java/org/libreplan/web/common/ConfigurationController.java:856-862 | The sequences, grouped entity by entity, are ordered by entity. They hold the same sequences as the stored ones for those entities, and all of them when every entity is counted. |
| ConfigurationController.CheckPropertyValue | libreplan-webapp/src/main/java/org/libreplan/web/common/ConfigurationController.java:1107-1145 | The activation flag accepts only Y or N in either case. The Tim day counts accept exactly what `Integer.parseInt` accepts (`isNumeric`). The URL, user name, password and hours type get the "no empty" constraint instead of a check. Any other property accepts anything. |
| ConfigurationController.AddNewEntitySequence | libreplan-webapp/src/main/java/org/libreplan/web/common/ConfigurationController.java:864-884 | With no entity it asks for one. With an empty prefix it says so. Then, if the configuration model refuses the sequence, its message is reported on the digits box and nothing is added. Otherwise it adds a sequence with the entity, the prefix and the digits. |
| ConfigurationController.ConfigurationController.constructor | libreplan-webapp/src/main/java/org/libreplan/web/common/ConfigurationController.java:168-176 | A new page holds the sequences and role lists, no connector, and the strategy rows for the stored strategy. |
| ConfigurationController.ConfigurationController.UpdateOtherSequences | libreplan-webapp/src/main/java/org/libreplan/web/common/ConfigurationController.java:656-661 | Deactivates every sequence of the entity and changes no other. |
| ConfigurationController.ConfigurationController.SetActive | libreplan-webapp/src/main/java/org/libreplan/web/common/ConfigurationController.java:642-651 | Activating a sequence deactivates the others of its entity. Sequences of other entities are left alone. At most one sequence per entity stays active. |
| ConfigurationController.ConfigurationController.OnRemove | libreplan-webapp/src/main/java/org/libreplan/web/common/ConfigurationController.java:742-755 | The last sequence of an entity is never removed. A removal the model refuses changes nothing. Otherwise exactly that sequence goes. Every entity keeps a sequence. |
| ConfigurationController.ConfigurationController.IsLastOne | libreplan-webapp/src/main/java/org/libreplan/web/common/ConfigurationController.java:828-830 | A sequence is the last one exactly when no other sequence belongs to its entity. |
| ConfigurationController.SequencesOfEmpty | libreplan-webapp/src/main/java/org/libreplan/web/common/ConfigurationController.java:824-826 | An entity has no sequences listed exactly when no sequence belongs to it. |
| ConfigurationController.SequencesOfOnlyOne | libreplan-webapp/src/main/java/org/libreplan/web/common/ConfigurationController.java:828-830 | An entity has exactly one sequence listed exactly when no other sequence belongs to it. |
| ConfigurationController.ConfigurationController.GetAllEntitySequences | libreplan-webapp/src/main/java/org/libreplan/web/common/ConfigurationController.java:856-862 | The loop returns the sequences entity by entity, ordered by entity, and all of them when every entity is counted. |
| ConfigurationController.ConfigurationController.SetSelectedConnector | libreplan-webapp/src/main/java/org/libreplan/web/common/ConfigurationController.java:1057-1060 | Selects the connector given. |
| ConfigurationController.ConfigurationController.GetConnectorProperties | libreplan-webapp/src/main/java/org/libreplan/web/common/ConfigurationController.java:1062-1067 | Without a connector there are no properties. Otherwise they are the connector's. |
| ConfigurationController.ConfigurationController.LoadRoleStrategyRows | libreplan-webapp/src/main/java/org/libreplan/web/common/ConfigurationController.java:168-176 | Row 0 is selected exactly for the group strategy, and the group path is disabled exactly for the property strategy. |
| ConfigurationController.ConfigurationController.ChangeRoleStrategy | libreplan-webapp/src/main/java/org/libreplan/web/common/ConfigurationController.java:162-166 | The group strategy is chosen exactly when "group" is selected, and the rows follow. |
| ConfigurationController.ConfigurationController.SetRolesText | libreplan-webapp/src/main/java/org/libreplan/web/common/ConfigurationController.java:916-926 | Stores the distinct roles of the text, split at ';', for the role. |
| ConfigurationController.ConfigurationController.GetRolesText | libreplan-webapp/src/main/java/org/libreplan/web/common/ConfigurationController.java:908-915 | For a role without a list the source fails. Otherwise it sorts the stored list in place and returns it joined by ';'. |
| ConfigurationController.RolesTextShown | libreplan-webapp/src/main/java/org/libreplan/web/common/ConfigurationController.java:907-927 | After setting a text, the list shown is the distinct roles of the text in ascending order, and it reads back unchanged. |
| ConfigurationController.RolesTextRoundTrip | libreplan-webapp/src/main/java/org/libreplan/web/common/ConfigurationController.java:907-927 | Setting the text that is shown shows the same text again. |
| CompanyPlanningModel.ValuesOf | libreplan-webapp/src/main/java/org/libreplan/web/planner/company/CompanyPlanningModel.java:768-796 | The values are exactly those of the filters of the given kind, and there are no more of them than filters. |
| CompanyPlanningModel.GetOrders | libreplan-webapp/src/main/java/org/libreplan/web/planner/company/CompanyPlanningModel.java:754-802 | With children included, the query is for all readable orders. Otherwise no order matches exactly when there are two customers or two states. The query carries the labels, criteria, customer and state of the filters. |
| CompanyPlanningModel.ByStartDateIsTotalPreorder | libreplan-webapp/src/main/java/org/libreplan/web/planner/company/CompanyPlanningModel.java:745-750 | Comparing task groups by start date is a valid comparator. |
| CompanyPlanningModel.RetainOnlyTopLevel | libreplan-webapp/src/main/java/org/libreplan/web/planner/company/CompanyPlanningModel.java:717-752 | Returns the task groups of the orders that have one, sorted by start date. With children included it leaves out those the predicate rejects. |
| CompanyPlanningModel.KeptAreAccepted | libreplan-webapp/src/main/java/org/libreplan/web/planner/company/CompanyPlanningModel.java:717-752 | With children included every kept task group is accepted. |
| CompanyPlanningModel.NotNull | libreplan-webapp/src/main/java/org/libreplan/web/planner/company/CompanyPlanningModel.java:848-856 | Keeps exactly the present dates. |
| CompanyPlanningModel.MinOf | libreplan-webapp/src/main/java/org/libreplan/web/planner/company/CompanyPlanningModel.java:828-835 | The least of the dates, and one of them. |
| CompanyPlanningModel.MaxOf | libreplan-webapp/src/main/java/org/libreplan/web/planner/company/CompanyPlanningModel.java:828-835 | The greatest of the dates, and one of them. |
| CompanyPlanningModel.LabelTextEarnedValueType | libreplan-webapp/src/main/java/org/libreplan/web/planner/company/CompanyPlanningModel.java:538-550 | The label is a 32-bit integer followed by the indicator's unit. A missing indicator reads "0". |
| CompanyPlanningModel.LabelTextNumberParses | libreplan-webapp/src/main/java/org/libreplan/web/planner/company/CompanyPlanningModel.java:538-550 | Hours show the indicator's int value and percentages a hundred times it. The number printed reads back as that int. |
| CompanyPlanningModel.CompanyPlanningModel.constructor | libreplan-webapp/src/main/java/org/libreplan/web/planner/company/CompanyPlanningModel.java:552-568 | A new model holds the legend check boxes and no filter dates. |
| CompanyPlanningModel.CompanyPlanningModel.GetDefaultPredicate | libreplan-webapp/src/main/java/org/libreplan/web/planner/company/CompanyPlanningModel.java:804-846 | The predicate has no filters, includes children as asked, and has the default dates. The filter dates are set to them. |
| CompanyPlanningModel.CompanyPlanningModel.GetFilterFinishDateAsWritten | libreplan-webapp/src/main/java/org/libreplan/web/planner/company/CompanyPlanningModel.java:863-867 | With no start date it answers nothing, whatever the finish. With a start and no finish it fails. Otherwise it returns the finish. |
| CompanyPlanningModel.CompanyPlanningModel.GetFilterFinishDate | libreplan-webapp/src/main/java/org/libreplan/web/planner/company/CompanyPlanningModel.java:863-867 | Returns the stored finish date, and never fails. |
| CompanyPlanningModel.CompanyPlanningModel.MarkAsSelectedDefaultIndicators | libreplan-webapp/src/main/java/org/libreplan/web/planner/company/CompanyPlanningModel.java:552-568 | Checks exactly the default indicators' boxes and keeps every box's indicator. |
| CompanyPlanningModel.CompanyPlanningModel.GetEarnedValueSelectedIndicators | libreplan-webapp/src/main/java/org/libreplan/web/planner/company/CompanyPlanningModel.java:570-580 | Returns exactly the indicators whose boxes are checked. |
| CompanyPlanningModel.CompanyPlanningModel.SelectDefaultIndicators | libreplan-webapp/src/main/java/org/libreplan/web/planner/company/CompanyPlanningModel.java:552-580 | After marking the defaults, the selected indicators are exactly the default ones that have a box. |
| CompanyPlanningModel.ComputeDefaultDates | libreplan-webapp/src/main/java/org/libreplan/web/planner/company/CompanyPlanningModel.java:808-839 | A stored date is kept. A missing start is the least init date or task group start of the shown orders, and a missing end the greatest deadline or end. Each stays missing when there is no candidate. |
| CompanyPlanningModel.LeastStartIsMinOf | libreplan-webapp/src/main/java/org/libreplan/web/planner/company/CompanyPlanningModel.java:808-839 | The start the loop finds is missing exactly when there are no candidates, and otherwise is the least candidate. |
| CompanyPlanningModel.GreatestEndIsMaxOf | libreplan-webapp/src/main/java/org/libreplan/web/planner/company/CompanyPlanningModel.java:808-839 | The end the loop finds is missing exactly when there are no candidates, and otherwise is the greatest candidate. |
| CompanyPlanningModel.FilterFinishDateAsWrittenFails | libreplan-webapp/src/main/java/org/libreplan/web/planner/company/CompanyPlanningModel.java:863-867 | A start with no finish fails, and a finish with no start reads as missing. |
| CompanyPlanningModel.FilterFinishDateAsWrittenAgreesExactly | libreplan-webapp/src/main/java/org/libreplan/web/planner/company/CompanyPlanningModel.java:863-867 | The finish date as written agrees with the corrected one exactly when both filter dates are stored or neither is. |
| OrderElementTree.ToOrderFilter | libreplan-webapp/src/main/java/org/libreplan/web/orders/OrderElementTreeController.java:314-326 | Resource filters are dropped. Labels and criteria keep their kind, pattern and value. |
| OrderElementTree.ToTaskFilter | libreplan-webapp/src/main/java/org/libreplan/web/orders/OrderElementTreeController.java:648-658 | Maps back to a label or criterion filter with the same pattern and value. |
| OrderElementTree.FilterTranslationsRoundTrip | libreplan-webapp/src/main/java/org/libreplan/web/orders/OrderElementTreeController.java:314-326 | Translating a tree filter and back gives it again. A kept planning filter comes back unchanged. |
| OrderElementTree.TreeFilters | libreplan-webapp/src/main/java/org/libreplan/web/orders/OrderElementTreeController.java:299-306 | The tree filters are no more than the stored ones. |
| OrderElementTree.NonResource | libreplan-webapp/src/main/java/org/libreplan/web/orders/OrderElementTreeController.java:299-306 | Keeps only stored filters that are not resource filters. |
| OrderElementTree.PlanningFilters | libreplan-webapp/src/main/java/org/libreplan/web/orders/OrderElementTreeController.java:639-643 | Translates each selected filter, in order. |
| OrderElementTree.ImportOrderFilters | libreplan-webapp/src/main/java/org/libreplan/web/orders/OrderElementTreeController.java:299-306 | The loop selects the translation of each stored filter that is not a resource filter. |
| OrderElementTree.WriteFilterParameters | libreplan-webapp/src/main/java/org/libreplan/web/orders/OrderElementTreeController.java:639-644 | The loop writes the translation of each selected filter. |
| OrderElementTree.ImportThenWriteDropsResources | libreplan-webapp/src/main/java/org/libreplan/web/orders/OrderElementTreeController.java:299-306 | Importing and then writing back gives the stored filters without the resource filters. |
| OrderElementTree.WriteThenImportIsIdentity | libreplan-webapp/src/main/java/org/libreplan/web/orders/OrderElementTreeController.java:639-644 | Writing and then importing gives the selected filters back. |
| OrderElementTree.CreatePredicate | libreplan-webapp/src/main/java/org/libreplan/web/orders/OrderElementTreeController.java:660-675 | There is no predicate exactly when no filter, no dates and no name are given. Otherwise the predicate carries them all. |
| OrderElementTree.FilterDates.constructor | libreplan-webapp/src/main/java/org/libreplan/web/orders/OrderElementTreeController.java:805-839 | The date boxes start empty. |
| OrderElementTree.FilterDates.CheckConstraintFinishDate | libreplan-webapp/src/main/java/org/libreplan/web/orders/OrderElementTreeController.java:805-821 | A finish strictly before the start is refused and the finish box emptied. Anything else is accepted and changes nothing. |
| OrderElementTree.FilterDates.CheckConstraintStartDate | libreplan-webapp/src/main/java/org/libreplan/web/orders/OrderElementTreeController.java:823-839 | A start strictly after the finish is refused and the start box emptied. Anything else is accepted and changes nothing. |
| OrderElementTree.FilterDates.EnterFinishDate | libreplan-webapp/src/main/java/org/libreplan/web/orders/OrderElementTreeController.java:805-821 | Entering a finish keeps it when accepted and empties it otherwise. The start never ends up after the finish. |
| OrderElementTree.FilterDates.EnterStartDate | libreplan-webapp/src/main/java/org/libreplan/web/orders/OrderElementTreeController.java:823-839 | Entering a start keeps it when accepted and empties it otherwise. The start never ends up after the finish. |
| OrderElementTree.EqualDatesAccepted | libreplan-webapp/src/main/java/org/libreplan/web/orders/OrderElementTreeController.java:805-839 | Equal start and finish dates are accepted in either order. |
| OrderElementTree.RemoveStart | libreplan-webapp/src/main/java/org/libreplan/web/orders/OrderElementTreeController.java:518-522 | A non-empty prefix that starts the string is removed; otherwise the string is unchanged. The result is always a suffix. |
| OrderElementTree.JiraHyperlink | libreplan-webapp/src/main/java/org/libreplan/web/orders/OrderElementTreeController.java:505-531 | There is no link without a JIRA connector. Otherwise the link shows the code and points at the server's browse page for a suffix of the code. A missing server URL is written as "null". |
| OrderElementTree.JiraHyperlinkOfChildCode | libreplan-webapp/src/main/java/org/libreplan/web/orders/OrderElementTreeController.java:505-531 | Take a code made of the JIRA prefix, the project code, the separator and a key. Its link points at the browse page of the key. |
| OrderElementTree.JiraHyperlinkOfForeignCode | libreplan-webapp/src/main/java/org/libreplan/web/orders/OrderElementTreeController.java:505-531 | A code that starts with neither prefix links to the browse page of the whole code. |
| OrderElementTree.OrderElement.constructor | libreplan-webapp/src/main/java/org/libreplan/web/orders/OrderElementTreeController.java:879-927 | An element holds its kind, hours, budget and hours groups. |
| OrderElementTree.SetWorkHours | libreplan-webapp/src/main/java/org/libreplan/web/orders/OrderElementTreeController.java:898-904 | Only an order line takes the new hours; other elements are unchanged. |
| OrderElementTree.SetBudgetHours | libreplan-webapp/src/main/java/org/libreplan/web/orders/OrderElementTreeController.java:917-924 | Only an order line takes the new budget; other elements are unchanged. |
| OrderElementTree.OrderElementTreeController.constructor | libreplan-webapp/src/main/java/org/libreplan/web/orders/OrderElementTreeController.java:841-877 | The tree holds its elements and their code boxes. |
| OrderElementTree.OrderElementTreeController.Remove | libreplan-webapp/src/main/java/org/libreplan/web/orders/OrderElementTreeController.java:841-877 | The guards are checked in the source's order, and the first that holds names the outcome and removes nothing. With no guard, the element and its code box go. |
| OrderElementTree.ValidCriterionNames | libreplan-webapp/src/main/java/org/libreplan/web/orders/OrderElementTreeController.java:750-757 | The names listed are exactly those of valid requirements. |
| OrderElementTree.DescriptionSection | libreplan-webapp/src/main/java/org/libreplan/web/orders/OrderElementTreeController.java:740-744 | The description appears, followed by ". ", exactly when it is given and not empty. |
| OrderElementTree.CollectValidCriterionNames | libreplan-webapp/src/main/java/org/libreplan/web/orders/OrderElementTreeController.java:752-757 | The loop collects the names of the valid requirements, in order. |
| OrderElementTree.CriteriaText | libreplan-webapp/src/main/java/org/libreplan/web/orders/OrderElementTreeController.java:750-763 | The criteria section lists the valid requirements' names, or is empty. |
| OrderElementTree.CreateTooltipText | libreplan-webapp/src/main/java/org/libreplan/web/orders/OrderElementTreeController.java:736-771 | The text is the name, the description, labels and criteria sections, and the progress. |
| OrderElementTree.TooltipFrame | libreplan-webapp/src/main/java/org/libreplan/web/orders/OrderElementTreeController.java:736-771 | The tooltip always starts with the name and ". ", and always ends with the progress section. |
| OrderElementTree.CriteriaShownIffSomeValid | libreplan-webapp/src/main/java/org/libreplan/web/orders/OrderElementTreeController.java:750-763 | The criteria section appears exactly when some requirement is valid. |
| ResourcesLoadPanel.PageEnd | ganttzk/src/main/java/org/zkoss/ganttz/resourceload/ResourcesLoadPanel.java:446-454 | The last line of a page lies within ten lines of its first. It is either the tenth line or the last line of all. |
| ResourcesLoadPanel.PageItem | ganttzk/src/main/java/org/zkoss/ganttz/resourceload/ResourcesLoadPanel.java:443-460 | The item's value is the page's first position. Its label joins the first letters of the page's first and last names; its description joins the full names. |
| ResourcesLoadPanel.Page | ganttzk/src/main/java/org/zkoss/ganttz/resourceload/ResourcesLoadPanel.java:485-489 | A page is the contiguous slice from its position. It holds ten lines or runs to the end, and is not empty when the position is inside. |
| ResourcesLoadPanel.PagesCoverGroups | ganttzk/src/main/java/org/zkoss/ganttz/resourceload/ResourcesLoadPanel.java:480-490 | Pages of ten, one after another, cover the lines from a position exactly. |
| ResourcesLoadPanel.AddNodesReachesDescendants | ganttzk/src/main/java/org/zkoss/ganttz/resourceload/ResourcesLoadPanel.java:297-306 | Every descendant that has children has them added under it. |
| ResourcesLoadPanel.ModelForTreeHoldsShownLines | ganttzk/src/main/java/org/zkoss/ganttz/resourceload/ResourcesLoadPanel.java:286-306 | Every shown line is added at the root, and every line below it that has children has them added. |
| ResourcesLoadPanel.Combobox.constructor | ganttzk/src/main/java/org/zkoss/ganttz/resourceload/ResourcesLoadPanel.java:436-473 | A combo box holds its items, selection and disabled flag. |
| ResourcesLoadPanel.ResourcesLoadPanel.constructor | ganttzk/src/main/java/org/zkoss/ganttz/resourceload/ResourcesLoadPanel.java:116-133 | A new panel shows the first page under internal pagination and all lines otherwise. Its tree holds them. |
| ResourcesLoadPanel.ResourcesLoadPanel.GetGroupsToShow | ganttzk/src/main/java/org/zkoss/ganttz/resourceload/ResourcesLoadPanel.java:480-490 | All lines are shown unless pagination is internal and a page is chosen. Then the page from that position is shown. Taking a slice past the end fails. |
| ResourcesLoadPanel.ResourcesLoadPanel.CreateModelForTree | ganttzk/src/main/java/org/zkoss/ganttz/resourceload/ResourcesLoadPanel.java:286-295 | The loop builds the tree of the shown lines. |
| ResourcesLoadPanel.ResourcesLoadPanel.Init | ganttzk/src/main/java/org/zkoss/ganttz/resourceload/ResourcesLoadPanel.java:125-133 | Stores the lines, asks for the name filter to be rebuilt, and builds the tree of the lines to show. |
| ResourcesLoadPanel.ResourcesLoadPanel.SetFilter | ganttzk/src/main/java/org/zkoss/ganttz/resourceload/ResourcesLoadPanel.java:144-155 | Filters by resources exactly when the resources entry is chosen. The name filter goes back to the first page and is rebuilt. |
| ResourcesLoadPanel.ResourcesLoadPanel.GetFilter | ganttzk/src/main/java/org/zkoss/ganttz/resourceload/ResourcesLoadPanel.java:157-159 | Filters by resources until a filter is chosen. |
| ResourcesLoadPanel.ResourcesLoadPanel.SetupNameFilter | ganttzk/src/main/java/org/zkoss/ganttz/resourceload/ResourcesLoadPanel.java:436-473 | With ten lines or fewer only "All" is offered. Otherwise there is one item per page of ten: its text is the first letters of the page's first and last names, its description is the two names, and its value is the page's position. "All" comes last, and the first item is selected. |
| ResourcesLoadPanel.ResourcesLoadPanel.OnSelectFilterByName | ganttzk/src/main/java/org/zkoss/ganttz/resourceload/ResourcesLoadPanel.java:492-514 | With no selection the last selected index comes back, or index 0 if none was recorded (-1). Otherwise, unless there is no pagination, the chosen page is recorded. Under internal pagination the tree is redrawn. |
| ResourcesLoadPanel.ResourcesLoadPanel.SetInternalPaginationDisabled | ganttzk/src/main/java/org/zkoss/ganttz/resourceload/ResourcesLoadPanel.java:545-552 | Nothing happens unless the disabled state changes. Disabling shows all lines. Enabling takes the selected item's position and fails when nothing is selected. |
| ResourcesLoadPanel.NameFilterPagesExist | ganttzk/src/main/java/org/zkoss/ganttz/resourceload/ResourcesLoadPanel.java:441-469 | Every name-filter item's value is "All" or a position inside the lines. |
| SettingsController.LanguageLeIsTotalPreorder | libreplan-webapp/src/main/java/org/libreplan/web/users/settings/SettingsController.java:115-126 | The language comparator is a valid comparator. |
| SettingsController.GetLanguages | libreplan-webapp/src/main/java/org/libreplan/web/users/settings/SettingsController.java:113-128 | The languages are a permutation of all of them. The browser language comes first, and the others follow in ascending display-name order. |
| SettingsController.BrowserLanguageFirst | libreplan-webapp/src/main/java/org/libreplan/web/users/settings/SettingsController.java:117-122 | In a sorted permutation, the browser language comes first and only there. |
| SettingsController.SettingsModel.constructor | libreplan-webapp/src/main/java/org/libreplan/web/users/settings/SettingsController.java:65-71 | New settings hold the filters, with nothing saved or cleared and no messages. |
| SettingsController.SettingsModel.CheckEmptyBandboxes | libreplan-webapp/src/main/java/org/libreplan/web/users/settings/SettingsController.java:148-155 | A filter whose box has no selection is cleared. A filter with a selection is unchanged. |
| SettingsController.SettingsModel.Save | libreplan-webapp/src/main/java/org/libreplan/web/users/settings/SettingsController.java:130-146 | Saving succeeds exactly when validation passes and shows one matching message. Empty filters are cleared and the session filters are forgotten either way. |
| WorkReportTypeModel.GetPosition | libreplan-webapp/src/main/java/org/libreplan/web/workreports/WorkReportTypeModel.java:372-378 | Heading exactly when shared by lines. |
| WorkReportTypeModel.IsSharedByLines | libreplan-webapp/src/main/java/org/libreplan/web/workreports/WorkReportTypeModel.java:397-399 | Shared by lines exactly for heading. |
| WorkReportTypeModel.PositionRoundTrip | libreplan-webapp/src/main/java/org/libreplan/web/workreports/WorkReportTypeModel.java:372-399 | The two translations are inverse both ways. |
| WorkReportTypeModel.LastPlacedAt | libreplan-webapp/src/main/java/org/libreplan/web/workreports/WorkReportTypeModel.java:498-506 | An entry found for a slot has that position number and is among the entries looked at. |
| WorkReportTypeModel.Placement | libreplan-webapp/src/main/java/org/libreplan/web/workreports/WorkReportTypeModel.java:498-506 | The result of `sort` has as many entries as the list. |
| WorkReportTypeModel.PlacedAfterStep | libreplan-webapp/src/main/java/org/libreplan/web/workreports/WorkReportTypeModel.java:500-504 | One step of the loop puts the entry in the slot of its number when that number is in range, and otherwise changes nothing. |
| WorkReportTypeModel.SortFieldsAndLabels | libreplan-webapp/src/main/java/org/libreplan/web/workreports/WorkReportTypeModel.java:498-514 | The loop computes the placement: each entry goes to the slot of its position number (`getIndex`). |
| WorkReportTypeModel.PlacementOrdersByPosition | libreplan-webapp/src/main/java/org/libreplan/web/workreports/WorkReportTypeModel.java:498-514 | When the position numbers number the entries, slot k holds the entry numbered k, and every entry is in its slot. |
| WorkReportTypeModel.NumbersAreDistinct | libreplan-webapp/src/main/java/org/libreplan/web/workreports/WorkReportTypeModel.java:498-514 | Distinct position numbers of n entries form a set of n numbers. |
| WorkReportTypeModel.FirstOffender | libreplan-webapp/src/main/java/org/libreplan/web/workreports/WorkReportTypeModel.java:437-475 | Finds the first item that offends, or none when no item does. |
| WorkReportTypeModel.WorkReportType.constructor | libreplan-webapp/src/main/java/org/libreplan/web/workreports/WorkReportTypeModel.java:156-174 | A template holds its kind, name, code, fields and label assignments. |
| WorkReportTypeModel.WorkReportTypeModel.constructor | libreplan-webapp/src/main/java/org/libreplan/web/workreports/WorkReportTypeModel.java:83-87 | A new editor is listing and edits nothing. |
| WorkReportTypeModel.WorkReportTypeModel.InitEdit | libreplan-webapp/src/main/java/org/libreplan/web/workreports/WorkReportTypeModel.java:156-174 | Personal and JIRA timesheet templates are refused before any change. Any other template is edited. |
| WorkReportTypeModel.WorkReportTypeModel.ConfirmRemove | libreplan-webapp/src/main/java/org/libreplan/web/workreports/WorkReportTypeModel.java:229-244 | Personal and JIRA timesheet templates are refused. Any other template is removed. |
| WorkReportTypeModel.WorkReportTypeModel.GetDescriptionFields | libreplan-webapp/src/main/java/org/libreplan/web/workreports/WorkReportTypeModel.java:258-265 | The line fields followed by the heading fields, or none without a template. |
| WorkReportTypeModel.WorkReportTypeModel.GetFieldPosition | libreplan-webapp/src/main/java/org/libreplan/web/workreports/WorkReportTypeModel.java:287-294 | Heading exactly for heading fields. |
| WorkReportTypeModel.WorkReportTypeModel.ValidateWorkReportTypeName | libreplan-webapp/src/main/java/org/libreplan/web/workreports/WorkReportTypeModel.java:404-416 | A missing or empty name is refused before anything is set. Otherwise the name is set, and refused when it is not unique. |
| WorkReportTypeModel.WorkReportTypeModel.ValidateWorkReportTypeCode | libreplan-webapp/src/main/java/org/libreplan/web/workreports/WorkReportTypeModel.java:419-435 | A missing or empty code is refused first, then a code with '_'. Otherwise the code is set, and refused when it is not unique. |
| WorkReportTypeModel.WorkReportTypeModel.ValidateLengthLineFields | libreplan-webapp/src/main/java/org/libreplan/web/workreports/WorkReportTypeModel.java:437-444 | Returns the first line field without a positive length, or none when every line field has one. |
| WorkReportTypeModel.WorkReportTypeModel.ValidateFieldNameLineFields | libreplan-webapp/src/main/java/org/libreplan/web/workreports/WorkReportTypeModel.java:446-455 | Returns the first description field with a missing, empty or repeated name, or none when there is no such field. Without a template there are no fields and none is returned. |
| WorkReportTypeModel.WorkReportTypeModel.ValidateLabelTypes | libreplan-webapp/src/main/java/org/libreplan/web/workreports/WorkReportTypeModel.java:457-466 | Returns the first assignment with no label type or a repeated one, or none when there is no such assignment. Without a template none is returned. |
| WorkReportTypeModel.WorkReportTypeModel.ValidateLabels | libreplan-webapp/src/main/java/org/libreplan/web/workreports/WorkReportTypeModel.java:468-475 | Returns the first assignment without a default label, or none when there is no such assignment. Without a template none is returned. |
| WorkReportTypeModel.WorkReportTypeModel.GetOrderedList | libreplan-webapp/src/main/java/org/libreplan/web/workreports/WorkReportTypeModel.java:484-496 | Without a template the list is empty. Otherwise it is the placement of the entries. |
| WorkReportTypeModel.WorkReportTypeModel.UpFieldOrLabel | libreplan-webapp/src/main/java/org/libreplan/web/workreports/WorkReportTypeModel.java:516-528 | Asks to move the entry to its position number minus one, in the list chosen. |
| WorkReportTypeModel.WorkReportTypeModel.DownFieldOrLabel | libreplan-webapp/src/main/java/org/libreplan/web/workreports/WorkReportTypeModel.java:530-543 | Asks to move the entry to its position number plus one, in the list chosen. |
| Collections.Sort | libreplan-webapp/src/main/java/org/libreplan/web/users/settings/SettingsController.java:115 | `Collections.sort` with a valid comparator returns a sorted permutation. |
| Collections.SortStrings | libreplan-webapp/src/main/java/org/libreplan/web/common/ConfigurationController.java:913 | Sorting strings gives them in ascending order, as a permutation. |
| Collections.LexLeIsTotalPreorder | libreplan-webapp/src/main/java/org/libreplan/web/common/ConfigurationController.java:913 | `String.compareTo` orders strings totally and transitively. |
| Collections.AddIfAbsent | libreplan-webapp/src/main/java/org/libreplan/web/planner/TaskElementAdapter.java:795-797 | Appends a value only if it is absent. This keeps the list free of duplicates and adds the value to its elements. |
| Collections.AddAllIfAbsentContents | libreplan-webapp/src/main/java/org/libreplan/web/planner/TaskElementAdapter.java:810-821 | Adding each value if absent gives a list without duplicates that holds every value. |
| Collections.SortedDistinct | libreplan-webapp/src/main/java/org/libreplan/web/planner/TaskElementAdapter.java:793-801 | The distinct values in ascending order. |
| Collections.SortedDistinctDependsOnElements | libreplan-webapp/src/main/java/org/libreplan/web/planner/TaskElementAdapter.java:790-801 | The sorted distinct values depend only on which values there are. |
| Collections.StrictlySortedUnique | libreplan-webapp/src/main/java/org/libreplan/web/planner/TaskElementAdapter.java:801 | Two ascending lists without duplicates that hold the same values are equal. |
| Collections.Join | libreplan-webapp/src/main/java/org/libreplan/web/planner/TaskElementAdapter.java:802 | Joining no items gives the empty string, and joining one item gives that item. |
| Collections.Split | libreplan-webapp/src/main/java/org/libreplan/web/common/ConfigurationController.java:920-922 | `StringUtils.split` gives non-empty tokens without the separator. |
| Collections.SplitJoin | libreplan-webapp/src/main/java/org/libreplan/web/common/ConfigurationController.java:914-922 | Splitting a joined list of non-empty tokens without the separator gives the tokens back. |
| Numbers.ParseInt | libreplan-webapp/src/main/java/org/libreplan/web/common/ConfigurationController.java:1138-1145 | `Integer.parseInt` accepts only an optionally signed string of digits, and gives a 32-bit value. |
| Numbers.ParseIntRoundTrip | libreplan-webapp/src/main/java/org/libreplan/web/common/ConfigurationController.java:1138-1145 | Every 32-bit integer printed in decimal reads back. |
| Numbers.IntToStringParses | libreplan-webapp/src/main/java/org/libreplan/web/planner/company/CompanyPlanningModel.java:549 | The printed form of a 32-bit integer reads back as that integer. |
| Numbers.TruncatedDiv | libreplan-webapp/src/main/java/org/libreplan/web/planner/company/CompanyPlanningModel.java:549 | Division rounds toward zero, as `BigDecimal.intValue` does. |
| Numbers.ToInt32 | libreplan-webapp/src/main/java/org/libreplan/web/planner/company/CompanyPlanningModel.java:549 | Wraps into the 32-bit range, keeping the value modulo 2^32 and leaving values already in range alone. |

## Left out

- The allocation engine: `ResourceAllocation.allocate`, applying an assignment function, intra-day effort arithmetic and the aggregate of allocations. Their code is not part of this model. The model records the requests the screen makes and does not say what the engine then does.
- ZK widgets, renderers, listeners, JavaScript calls, message boxes and long-operation feedback. Dialog answers and selections are parameters.
- DAOs, transactions, re-attachment and Spring wiring. Lookups such as "already in use", "unique name" or "repeated label type" are parameters. `doPositionModifications` guards transactional re-entrance and is not modelled.
- The connection tests for LDAP, JIRA and Tim, because they are network I/O.
- Floating point: the `double` fallback of `calculateDurationInDayFor`, the hours advance bar percentage and pixel mapping.
- Money and earned-value calculators, charts, timeplots and printing.
- Joda `Period` arithmetic. Each zoom level pages by a fixed number of days. Dates are day numbers, and the conversion from `Date` or `DateTime` is not modelled.
- Translated strings are fixed constants.
- The tab creator for limiting resources, the customer communication list and the database test example. They hold no logic beyond delegation and rendering.
- TaskElementAdapter.CalculateDurationInDayFor: requires its inputs to fit in a Java `int`. It returns `None` where the source falls back to floating point after an overflow of the exact fraction, and does not give that value.
- ResourcesLoadPanel.ResourcesLoadPanel.SetupNameFilter: when there are more than ten lines, requires the first and the last name of every page to be non-empty. With an empty one the source's `substring(0, 1)` throws, and that exception is not modelled.
- OrderElementTree.OrderElementTreeController.Remove: the tree of project elements is a flat set. The removal the base tree controller performs takes the element's whole subtree, but the model removes only the element and its code box, because the tree structure and its subtree removal are not modelled.
- WorkReportTypeModel.WorkReportTypeModel.ValidateLengthLineFields: requires a template, because the source dereferences it unchecked.
- WorkReportTypeModel.WorkReportTypeModel.ValidateWorkReportTypeName: requires a template. With none, the source's `setName` on it throws a null dereference for a non-empty name, and that exception is not modelled.
- WorkReportTypeModel.WorkReportTypeModel.ValidateWorkReportTypeCode: requires a template. With none, the source's `setCode` on it throws a null dereference for a valid code, and that exception is not modelled.
- WorkReportTypeModel.WorkReportTypeModel.GetFieldPosition: requires a template. With none, the source's read of its heading fields throws a null dereference, and that exception is not modelled.
- Collections.LexLe: compares strings by Unicode scalar values, where Java's `compareTo` compares UTF-16 code units. The two orders differ only when a character outside the Basic Multilingual Plane meets one from U+E000 to U+FFFF. Likewise `[..1]` takes the first scalar value where `substring(0, 1)` takes the first code unit.
- Collections.Sort: states sortedness and permutation, but not that equal elements keep their order as in the stable `Collections.sort`.
- `getFilterStartDate` only returns the stored start date, which the model reads directly.
- Numbers.ParseInt: accepts ASCII digits only. Java also accepts other Unicode digits.
- ConfigurationController.CheckPropertyValue: compares Y and N without Unicode case folding.
- ConfigurationController.AllEntitySequencesOrdered: entity names are ordinals `0 .. count - 1`, since the `EntityNameEnum` constants are not part of this model.
- ConfigurationController.ConfigurationController.SetRolesText: takes the hash-set iteration order as a parameter.
- TaskElementAdapter.BuildLabelsText: takes the hash-set iteration order as a parameter.
- FunctionConfigurations.ApplyOn: takes the type the fresh stretches function reports as a parameter.
- AllocationRow.Row.OnSelect: states only that the engine requests extend the log. Which requests are sent is stated by FunctionConfigurations.ApplyOn.
- AllocationRow.Row.OnConfigure: does not repeat the requests sent on acceptance, which FunctionConfigurations.GoToConfigure states.
- CompanyPlanningModel.LabelTextEarnedValueType: a `BigDecimal` has a non-negative scale.
- OrderElementTree.ToOrderFilter: the order element filter kinds are taken to be only Label and Criterion.
- OrderElementTree.JiraHyperlink: the JIRA prefix, the child separator and the server URL key are parameters. The enabled state of the link is not modelled.
- The hours-group test, the first-page and last-page tests and the "is fixed" test are predicates whose definitions state them: HorizontalPagination.PaginatorFilter.IsFirstPage, HorizontalPagination.PaginatorFilter.IsLastPage, TaskElementAdapter.IsFixed and OrderElementTree.OrderElement.HasMoreThanOneHoursGroup.

## Findings

| source | as written | input that shows it | evidently intended | confidence | as-written member | corrected member |
|---|---|---|---|---|---|---|
| libreplan-webapp/src/main/java/org/libreplan/web/planner/allocation/AdvancedAllocationController.java:489-502 | `goToHorizontalPage` ends a page at the interval end when the next page would reach it or beyond (`!(end > start + 2·inc)`). | Interval 0 to 84 at 42 days. The listbox offers (0, 42) and (42, 84), but choosing item 0 shows (0, 84). | The strict test of `setInterval` and the listbox, so that the page shown is the item chosen. | not executed | HorizontalPagination.GoToAsWrittenMergesLastItems | HorizontalPagination.GoToIntendedShowsItem |
| libreplan-webapp/src/main/java/org/libreplan/web/planner/allocation/AdvancedAllocationController.java:1678-1685 | `changeAssignmentFunctionToManual` selects Manual but leaves the remembered previous item unchanged. | A flat allocation: edit a cell, then pick another function and decline. The combo box reverts to Flat while Manual is installed. | Remember Manual as the previous item too, so that a declined change shows the installed function. | not executed | AllocationRow.StalePreviousItemAfterCellEdit | AllocationRow.Row.OnCellChangeIntended |
| libreplan-webapp/src/main/java/org/libreplan/web/planner/company/CompanyPlanningModel.java:863-867 | `getFilterFinishDate` tests `filterStartDate` for null and then converts `filterFinishDate`. | A start date with no finish date throws a null dereference. No start date with finish day 20 returns null. | Test `filterFinishDate`, as `getFilterStartDate` tests its own field. | not executed | CompanyPlanningModel.FilterFinishDateAsWrittenFails | CompanyPlanningModel.CompanyPlanningModel.GetFilterFinishDate |
| libreplan-webapp/src/main/java/org/libreplan/web/planner/allocation/AdvancedAllocationController.java:789-812 | The down button is disabled only when fewer than 25 rows follow the page start, but `verticalPagedown` reads the next page start unchecked. | 31 rows of which only the first is a grouping row form one page. The down button is enabled, and clicking it makes `get(1)` throw. | Disable the down button exactly on the last page (`verticalPage + 1` not below the number of page starts). | not executed | VerticalPagination.DownButtonEnabledOnLastPage | VerticalPagination.VerticalPaginator.DownButtonDisabledIntended |
| libreplan-webapp/src/main/java/org/libreplan/web/planner/allocation/streches/StrechesFunctionConfiguration.java:95-99 | `applyOn` installs `StretchesFunction.create()` for both stretches entries, whatever type the entry targets. | Whatever type the new function reports, choosing the other stretches entry shows that entry, while the combo box entry that targets the new function is a different one. | Create a stretches function of the entry's own type (`getType()`). | not executed | AllocationRow.StretchesItemMissesInstalledFunction | AllocationRow.SelectIntendedKeepsComboConsistent |

`AllocationInput.GetEndIsNotTheMaximum` also records that `getEnd` stops at the first fall in the end dates when scanning back. It does not return the latest end. The model keeps this behaviour, since whether it is intended cannot be told from the code.
