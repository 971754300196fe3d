# Plating production manager — a verified model

The system is a browser application for a plating workshop. It records production
jobs (product, client, plating type, jig, quantity, unit price, start and delivery
dates, process stage) and derives each job's price, cost, lot count and delivery date
from the master data. It lists the jobs with filters and pages, shows them on a kanban
board and a monthly Gantt chart, and sums sales and profit on a dashboard and in a
fiscal-year/month/day report. Users edit the master tables, back up and restore all
data, and configure a cloud connection. It also keeps a correspondence log per client.

This project models that core in Dafny, one module per component:

- `Types`: jobs, masters, stages, users and logs.
- `CivilDate`: the calendar and JavaScript's `new Date(y, m, d)` roll-over.
- `Seqs`, `Strings` and `Wrappers`: generic helpers.
- `JobDetail`: the job form and its recalculation.
- `JobList`: the application shell, `App.tsx`.
- `Report`, `Gantt`, `Kanban` and `Dashboard`: the views.
- `Settings`, `FilterControls`, `BulkEdit`, `Correspondence` and `CloudConfig`: the dialogs and pages.

Event handlers that change component state are methods of classes. The classes are
`JobList.App`, `JobDetail.JobEditor`, `Settings.SettingsDialog`,
`Settings.EditableRow`, `BulkEdit.BulkEditForm`, `Correspondence.LogForm`,
`CloudConfig.ConfigForm`, `Report.ReportView` and `Gantt.GanttView`.

Each method states its whole new state. The fields it changes are given as functions of
the old state, and every other field is stated unchanged. In `JobList.App` and
`Settings.SettingsDialog` this is done by updating a snapshot of all fields, `State()`.
`JobList.App` also requires and keeps its invariant `Valid()`: the page number is at
least one and the page size is positive. The properties the application promises are lemmas about those functions:

- pages cover the filtered list exactly;
- grouped sales add up to the total;
- delivery dates never come before the start date;
- a save, import or toggle undone or repeated gives back the state it should.

## Model

| member | source | states |
|---|---|---|
| Types.LabelInjective | types.ts:1-8 | two stages have the same stored label exactly when they are the same stage |
| Types.ProcessStatusOrderComplete | constants.ts:4-11 | every stage appears in the processing order |
| Types.NameOr | components/KanbanBoard.tsx:77-78 | a `Map.get(id) \|\| fallback` lookup yields the fallback or the name of an entry with that id, and the fallback whenever no entry has the id |
| CivilDate.JsNewDate | components/GanttChart.tsx:10 | `new Date(y, m, d)` is always a valid calendar day, the roll-over of month index and day offset |
| CivilDate.MakeDayZero | components/GanttChart.tsx:10 | day 0 of the next month is the last day of the month, so `getDaysInMonth` is the month's length |
| CivilDate.AddDays | components/JobDetailModal.tsx:119-120 | `setDate(getDate() + n)` lands on a valid day |
| CivilDate.AddDaysAdd | components/JobDetailModal.tsx:119-120 | moving by `a` then `b` days is moving by `a + b` days |
| CivilDate.AddDaysOrder | components/JobDetailModal.tsx:119-120 | a positive day offset lands strictly later and a negative one strictly earlier |
| CivilDate.ParseFormat | components/JobDetailModal.tsx:119-121 | for years 0 to 9999, reading back the date part of `toISOString()` gives the same day |
| CivilDate.FormatParse | components/JobDetailModal.tsx:119-121 | a string that reads as a date is the formatted form of that date |
| CivilDate.FormatInjective | components/JobDetailModal.tsx:121 | for years 0 to 9999, two days format to the same `YYYY-MM-DD` string exactly when they are equal |
| CivilDate.FormatOrder | App.tsx:280-281 | for years 0 to 9999, the string order of `YYYY-MM-DD` dates is their chronological order |
| CivilDate.ParseLocalDate | components/GanttChart.tsx:19-23 | `parseLocalDate` splits at every `-` and yields a date exactly when there are at least three pieces and each of the first three reads as a number; the date is valid, rolling over out-of-range fields |
| CivilDate.SplitFullDate | components/GanttChart.tsx:19-23 | a `YYYY-MM-DD` string splits into its year, month and day fields |
| CivilDate.ParseLocalDateShortFields | components/GanttChart.tsx:19-23 | unpadded fields read too: "2024-8-1" is 1 August 2024 |
| CivilDate.ParseLocalDateMissingDay | components/GanttChart.tsx:19-23 | "2024-08" has no day piece and gives no date |
| CivilDate.ParseLocalDateAgrees | components/ReportPage.tsx:15-18 | on a well-formed date string with a year from 100 on, the local parse and the ISO parse agree; below 100 `new Date` reads the year as 1900 plus it, so "0050-01-01" is 1950 locally |
| CivilDate.MomentDays | components/GanttChart.tsx:43-51 | comparing midnights and 23:59:59 instants is comparing calendar days |
| CivilDate.DayKeyOrder | components/JobDetailModal.tsx:193 | the `getTime()` sort key orders days chronologically and is one-to-one |
| Strings.NumberValue | components/GanttChart.tsx:21 | `Number(text)` on whole numbers: blank text is 0 and digits are their value; other text is `NaN` |
| Strings.Split | components/GanttChart.tsx:21 | `split` gives at least one piece and no piece holds the separator |
| Strings.JoinSplit | components/GanttChart.tsx:21 | joining the pieces of a split with the separator gives the string back |
| Strings.SplitJoin | components/GanttChart.tsx:21 | splitting pieces joined with a separator they do not hold gives the pieces back |
| Seqs.Toggled | App.tsx:300-302 | a present id is removed everywhere and the rest kept; an absent id is appended |
| Seqs.ToggledTwice | App.tsx:300-302 | toggling the same id twice restores membership of every id |
| Seqs.ToggledNoDuplicates | App.tsx:300-302 | toggling keeps a list without repeats without repeats |
| JobDetail.LotCount | components/JobDetailModal.tsx:97-103 | lots are `ceil(quantity / jig size)` when plating type, jig, quantity and jig size are all present and positive, else 0; they are exactly enough jigs |
| JobDetail.Cost | components/JobDetailModal.tsx:97-103 | cost is lots times the cost per lot, and 0 without lots |
| JobDetail.Price | components/JobDetailModal.tsx:90-95 | price is quantity times the job's unit price when positive, else the master's; 0 without a plating type or with a negative quantity; never negative for non-negative inputs |
| JobDetail.ExtraPlatingDays | components/JobDetailModal.tsx:110 | extra plating days are never negative |
| JobDetail.ExtraPlatingDaysSteps | components/JobDetailModal.tsx:110 | one to five lots add no day, six to ten add one, more lots never add fewer, five more lots add one |
| JobDetail.TotalLeadTimeStages | components/JobDetailModal.tsx:108-117 | only the four working stages count; a missing stage counts 0; the default durations give 7 days plus the extra days |
| JobDetail.DeliveryDate | components/JobDetailModal.tsx:105-124 | no start date gives an empty delivery date, an unreadable one a `RangeError`, otherwise the start moved by the lead time |
| JobDetail.DeliveryDateAfterStart | components/JobDetailModal.tsx:105-124 | with non-negative durations the delivery date is never before the start date |
| JobDetail.Recalculated | components/JobDetailModal.tsx:86-140 | the effect changes only price, cost and delivery date, and fails exactly when the delivery date does |
| JobDetail.RecalculatedFixpoint | components/JobDetailModal.tsx:126-140 | the recalculated fields get their formulas, and recalculating again changes nothing |
| JobDetail.RecalculatedKeeps | components/JobDetailModal.tsx:127-139 | a job whose fields already equal their formulas is returned unchanged |
| JobDetail.SampleJobCosts | constants.ts:72-109 | the three sample jobs' stored costs are what the cost formula gives |
| JobDetail.ValidateForSave | components/JobDetailModal.tsx:214-220 | a job is handed on unchanged exactly when product, client, plating type and jig are set and quantity is positive |
| JobDetail.ProductSuggestions | components/JobDetailModal.tsx:161-173 | the first `min(10, n)` of the n candidates, in order: distinct product names of jobs that contain the typed text and differ from it |
| JobDetail.SuggestionCandidates | components/JobDetailModal.tsx:164-167 | exactly the distinct matching product names, without repeats, in the order of their first occurrence among the jobs |
| Seqs.DistinctFilterOrder | components/JobDetailModal.tsx:164-167 | `[...new Set(names.filter(p))]` keeps the first occurrences in the order of the names |
| JobDetail.NamesOfJobs | components/JobDetailModal.tsx:165-166 | the mapped names are exactly the product names of the jobs |
| JobDetail.SortedClientJobs | components/JobDetailModal.tsx:222-228 | empty for an existing job or no client; otherwise `min(10, n)` of the client's n jobs, latest start first, and no job left out starts later than one shown |
| JobDetail.ClientJobs | components/JobDetailModal.tsx:225 | exactly the jobs of that client |
| Seqs.TakeSortedDropped | components/JobDetailModal.tsx:226-227 | the first n of a list sorted by a key, largest first, are part of it, and no element left out has a larger key than one kept |
| JobDetail.WithInputOnlyField | components/JobDetailModal.tsx:153-159 | an input event writes only the field it names, and an empty number input reads as 0 |
| JobDetail.JobEditor.constructor | components/JobDetailModal.tsx:64-83 | the form opens on the given job with no suggestions and the picker closed |
| JobDetail.JobEditor.HandleChange | components/JobDetailModal.tsx:153-186 | a known plating type also sets the unit price from the master; typing a product name refreshes the suggestions; other fields change alone |
| JobDetail.JobEditor.Recalculate | components/JobDetailModal.tsx:86-150 | the form becomes the recalculated job, or stays as it was on an error |
| JobDetail.JobEditor.SelectSuggestion | components/JobDetailModal.tsx:188-212 | a new job takes client, plating type, jig, unit price and quantity from the latest past job of that product; otherwise only the name changes; suggestions close |
| JobDetail.JobEditor.CopyFromPast | components/JobDetailModal.tsx:230-244 | an unknown id changes nothing; a known one copies the six fields and closes picker and suggestions |
| JobDetail.SuggestionSourceIsLatest | components/JobDetailModal.tsx:191-193 | the job taken over has that product name and no later start date than any other |
| JobList.FilteredJobs | App.tsx:275-285 | a job is listed exactly when it is in the list and meets all five filter conditions |
| JobList.DeliveryBoundsAreChronological | App.tsx:280-281 | for well-formed dates the string bounds are the chronological bounds |
| JobList.DefaultFilters | App.tsx:140-146 | the initial filters check every stage but shipped and set nothing else |
| JobList.DefaultFiltersSelectUnshipped | App.tsx:140-146 | with the initial filters exactly the jobs at a stage other than shipped are listed |
| JobList.Page | App.tsx:287-290 | a page holds at most `itemsPerPage` jobs, and a full page is the matching slice |
| JobList.TotalPages | App.tsx:292 | the page count is the least number of pages that holds all filtered jobs |
| JobList.PagesCover | App.tsx:287-290 | pages one to n are the first n full pages of the list, in order |
| JobList.AllPagesShowAll | App.tsx:287-292 | the pages up to the page count show every filtered job once, in order |
| JobList.PagesUpToLast | App.tsx:287-292 | any page count that holds the list shows all of it |
| JobList.LastPage | App.tsx:287-292 | the last page holds the remaining jobs |
| JobList.ApplyChange | App.tsx:198-204 | an insert appends the row, an update replaces every row with its key, a delete drops every row with its key, other events change nothing |
| JobList.UpdateThenDelete | App.tsx:198-204 | an update then a delete of the same key equals the delete alone |
| JobList.FilterMapped | App.tsx:198-204 | replacing rows of a key does not change the rows of other keys |
| JobList.Stamped | App.tsx:355-362 | a saved job carries the user and time as updater; a new job also as creator; an existing job keeps a set creator and creation time |
| JobList.ReplaceById | App.tsx:370 | each job with the saved id is replaced by it, every other job is kept in place |
| JobList.Duplicated | App.tsx:328-345 | the copy keeps product, client, plating type, jig, quantity, prices and memo, has a fresh id, today as start, no delivery date, stage received and no audit fields |
| JobList.LoginUser | App.tsx:461-469 | a user is found exactly when some account has that username and password, and the one found is the first such account |
| JobList.Opened | App.tsx:294-345 | corrected, opening the job dialog selects the job, sets `isNewJob` and opens the dialog, and changes nothing else |
| JobList.OpenedAsWritten | App.tsx:294-345 | as written, the handlers stop at the undeclared `setIsNewJob`: only the selected job changes and the dialog's open flag stays as it was |
| JobList.OpenedAsWrittenStaysClosed | App.tsx:294-345 | as written a closed job dialog stays closed, while the corrected handlers open it |
| JobList.App.constructor | App.tsx:77-97 | the application opens on the stored data, page one of twenty, the initial filters and the Gantt view |
| JobList.App.PaginatedJobs | App.tsx:287-290 | the shown jobs are the current page of the filtered list, at most a page of them, all passing the filters |
| JobList.App.ToggleSelectJob | App.tsx:300-302 | the selection is the toggled selection and nothing else changes |
| JobList.App.SelectAllJobs | App.tsx:304-306 | the selection becomes the given ids; every other field is unchanged |
| JobList.App.BulkDelete | App.tsx:101-119 | once confirmed exactly the selected jobs are gone and the rest stay in order; declined, nothing changes; every other field is unchanged |
| JobList.App.BulkUpdate | App.tsx:121-137 | the updates are merged into exactly the selected jobs and the selection is cleared; every other field is unchanged |
| JobList.App.SelectJob | App.tsx:294-298 | as evidently intended, the job is opened as an existing job (`Opened(old state, job, false)`); every other field is unchanged |
| JobList.App.NewJob | App.tsx:308-326 | as evidently intended, the new-job template is opened as a new job (`Opened(old state, template, true)`); every other field is unchanged |
| JobList.App.DuplicateJob | App.tsx:328-345 | as evidently intended, the copy is opened as a new job (`Opened(old state, copy, true)`); every other field is unchanged |
| JobList.App.CloseModal | App.tsx:347-350 | the form closes and no job is selected; every other field is unchanged |
| JobList.App.SaveJob | App.tsx:352-374 | without a user nothing is saved; otherwise the stamped job is appended when new or replaces its id, and the form closes; every other field is unchanged |
| JobList.App.DeleteJob | App.tsx:376-385 | once confirmed every job with the id goes, the form closes and no job stays selected, and every other field is unchanged; declined, nothing changes |
| JobList.App.SaveCorrespondenceLog | App.tsx:387-401 | with a user the stamped log goes first in the list; without one nothing changes; every other field is unchanged |
| JobList.App.DeleteCorrespondenceLog | App.tsx:403-411 | once confirmed every log with the id goes; every other field is unchanged |
| JobList.App.SetFilters | App.tsx:149-151 | new filters take effect and the list goes back to page one; every other field is unchanged |
| JobList.App.ResetFilters | App.tsx:451-459 | the initial filters return and the list goes back to page one; every other field is unchanged |
| JobList.App.SetItemsPerPage | App.tsx:508 | a different page size returns to page one; the same one keeps the page; every other field is unchanged |
| JobList.App.SetViewMode | App.tsx:541-553 | a different view returns to page one; the same one keeps the page; every other field is unchanged |
| JobList.App.PrevPage | App.tsx:519 | one page back, never below page one; every other field is unchanged |
| JobList.App.NextPage | App.tsx:529-530 | one page on, never past the last page; every other field is unchanged |
| JobList.App.Login | App.tsx:461-469 | success exactly when an account matches; the matching account is stored without its password; a failure changes nothing; every other field is unchanged |
| JobList.App.Logout | App.tsx:471-473 | no user is logged in; every other field is unchanged |
| JobList.App.ApplyJobChange | App.tsx:195-210 | the jobs list becomes the change applied to it; every other field is unchanged |
| Report.IntString | components/ReportPage.tsx:118-121 | a number prints as a non-empty string |
| Report.YearPeriodBounds | components/ReportPage.tsx:41-45 | for fiscal years from 100 on, the year view runs from day 1 of the month after the settlement month to the last day of the settlement month a year later |
| Report.YearPeriodIsFiscalYear | components/ReportPage.tsx:32-45 | a day is in the year view exactly when it lies in the twelve months of the current fiscal year |
| Report.MonthPeriodIsMonth | components/ReportPage.tsx:46-49 | a day is in the month view exactly when it has the current year and month |
| Report.DayPeriodIsDay | components/ReportPage.tsx:50-53 | a day is in the day view exactly when it is the current day |
| Report.ShippedJobs | components/ReportPage.tsx:30 | exactly the shipped jobs |
| Report.ReportJobs | components/ReportPage.tsx:69-74 | exactly the shipped jobs whose delivery date lies in the period |
| Report.MonthReportJobs | components/ReportPage.tsx:46-49 | for years from 100 on, the month report holds exactly the shipped jobs delivered in that calendar month |
| Report.Totals | components/ReportPage.tsx:77-79 | count, sales and profit are the count and sums over the reported jobs |
| Report.AddSale | components/ReportPage.tsx:81-85 | adding a sale grows the groups by at most one entry |
| Report.AddSaleKeys | components/ReportPage.tsx:81-85 | adding a sale keeps the group names distinct, adds the new name and keeps the other groups |
| Report.GroupedKeys | components/ReportPage.tsx:81-91 | the groups are distinct and are exactly the names of the reported jobs |
| Report.GroupedAmounts | components/ReportPage.tsx:81-91 | each group's amount is the sum of the prices of the jobs under that name |
| Report.AddSaleTotal | components/ReportPage.tsx:83 | adding a sale adds its price to the grand total |
| Report.GroupedTotal | components/ReportPage.tsx:81-91 | the group amounts add up to the total sales |
| Report.SalesBy | components/ReportPage.tsx:81-91 | the loop builds the grouping function's groups |
| Report.Ranked | components/ReportPage.tsx:196 | the tables are sorted by amount, largest first, and hold the same entries |
| Report.ChartMonths | components/ReportPage.tsx:100-103 | twelve months, the i-th one `new Date(fy, settlementMonth + i + offset, 1)` |
| Report.EmptyBuckets | components/ReportPage.tsx:105-109 | one zero bucket per month, keyed `YYYY-MM` |
| Report.AddToBucket | components/ReportPage.tsx:111-116 | adding a job keeps the bucket keys |
| Report.Bucketed | components/ReportPage.tsx:111-116 | bucketing keeps the bucket keys |
| Report.FillBuckets | components/ReportPage.tsx:111-116 | the loop computes the bucketing function |
| Report.AddToBucketTotal | components/ReportPage.tsx:111-116 | a job adds its price to the buckets' total exactly when its month has a bucket |
| Report.BucketedTotal | components/ReportPage.tsx:111-116 | the buckets' total grows by the prices of the jobs whose month has a bucket |
| Report.ChartAsWritten | components/ReportPage.tsx:96-116 | the chart as written buckets the months from one after the settlement month |
| Report.Chart | components/ReportPage.tsx:96-116 | the corrected chart buckets the twelve fiscal months |
| Report.MonthKeyIsPrefix | components/ReportPage.tsx:113 | for delivery years from 1000 on, the first seven characters of a delivery date are its month key |
| Report.MonthKeyInjective | components/ReportPage.tsx:107 | for years 1000 to 9999, two days share a month key exactly when they share year and month |
| Report.ChartMonthNumbers | components/ReportPage.tsx:100-103 | for fiscal years from 100 on, the chart's i-th month is month `settlementMonth + i + offset` of the fiscal year |
| Report.CountedMonthInFiscalYear | components/ReportPage.tsx:41-45 | for years 1001 to 9997, a job counted in the year view is delivered in one of the fiscal year's twelve months |
| Report.CountedJobIsBucketed | components/ReportPage.tsx:100-116 | for years 1001 to 9997, every job the year view counts has a bucket in the corrected chart |
| Report.ChartSumsToTotalSales | components/ReportPage.tsx:77-116 | for years 1001 to 9997 and well-formed delivery dates, the corrected chart's bars add up to the report's total sales |
| Report.FirstMonthHasNoBucket | components/ReportPage.tsx:101 | as written, for fiscal years 1000 to 9997, the first month of the fiscal year has no bucket |
| Report.PeriodStartCounted | components/ReportPage.tsx:41-45 | for years 1001 to 9997, day 1 of the month after the settlement month, the first day of the fiscal year, is inside the year view |
| Report.PeriodStartJobReported | components/ReportPage.tsx:69-74 | for the same years, a shipped job delivered on that day is reported |
| Report.PeriodStartJobUnbucketed | components/ReportPage.tsx:101-116 | as written, for fiscal years 1000 to 9997, that job adds nothing to the chart |
| Report.ChartAsWrittenDropsFirstMonth | components/ReportPage.tsx:101 | as written, for years 1001 to 9997, a job counted in the totals is missing from the chart |
| Report.Maximum | components/ReportPage.tsx:123 | the maximum is at least every element and is one of them |
| Report.ChartMax | components/ReportPage.tsx:123-124 | the chart scale is at least 1 and every bar, and is 1 or one of the bars |
| Report.Navigated | components/ReportPage.tsx:57-67 | navigating always lands on a valid day |
| Report.NavigateDays | components/ReportPage.tsx:57-67 | the day view moves by whole days, and moving back returns |
| Report.NavigateMonths | components/ReportPage.tsx:57-67 | the month view moves by whole months and keeps the day |
| Report.NavigateYears | components/ReportPage.tsx:57-67 | the year view moves by whole years and keeps month and day |
| Report.ReportView.constructor | components/ReportPage.tsx:25-26 | the page opens on the day view of today |
| Report.ReportView.SetViewMode | components/ReportPage.tsx:128 | the mode changes and the date stays |
| Report.ReportView.Navigate | components/ReportPage.tsx:57-67 | the date becomes the navigated date and the mode stays |
| Gantt.GetDaysInMonth | components/GanttChart.tsx:10 | a month has 28 to 31 days |
| Gantt.GetDaysInMonthGregorian | components/GanttChart.tsx:10 | for years from 100 on, `getDaysInMonth` is the calendar length of the month |
| Gantt.VisibleJobs | components/GanttChart.tsx:46-53 | exactly the jobs with both dates whose span meets the month |
| Gantt.VisibleIsOverlap | components/GanttChart.tsx:46-53 | a job is visible exactly when it starts by the month's last day and ends on or after its first |
| Gantt.ShownMonth | components/GanttChart.tsx:43-44 | for years from 100 on, the month runs from its first day to its last |
| Gantt.BarCoversJobDays | components/GanttChart.tsx:83-93 | the bar covers exactly the job's days that fall in the month |
| Gantt.BarDrawnIffOrdered | components/GanttChart.tsx:86-91 | a visible job's bar is drawn exactly when it ends no earlier than it starts, and stays within the month |
| Gantt.TodayPosition | components/GanttChart.tsx:55-57 | in today's month the marker's column is today's day, a day of that month; in any other month it is -1 |
| Gantt.GanttView.constructor | components/GanttChart.tsx:27 | the chart opens on today |
| Gantt.GanttView.SetMonth | components/GanttChart.tsx:32-34 | the date becomes day 1 of the month `offset` months on |
| Gantt.GanttView.ThisMonth | components/GanttChart.tsx:36-38 | the date becomes today |
| Gantt.SetMonthMoves | components/GanttChart.tsx:32-34 | the month number moves by exactly the offset |
| Gantt.SetMonthBackAndForth | components/GanttChart.tsx:62-65 | next month then previous month returns to day 1 of the month shown |
| Kanban.Column | components/KanbanBoard.tsx:38-49 | a column holds exactly the jobs at its stage |
| Kanban.GroupedColumns | components/KanbanBoard.tsx:38-42 | the board is keyed by exactly the six stage labels, and each stage's column holds exactly the jobs at that stage, in list order (order by Seqs.FilterOrder) |
| Kanban.GroupedStep | components/KanbanBoard.tsx:43-47 | one more job is appended to the column of its status when that status is a stage label and changes nothing otherwise |
| Kanban.GroupByStatus | components/KanbanBoard.tsx:38-49 | the loop builds exactly the board described above: six label keys, every stage's column holding its jobs in list order (order by Seqs.FilterOrder) |
| Seqs.FilterOrder | App.tsx:275-285 | `filter` keeps the relative order of the elements it keeps, which makes each filtered list and each kanban column follow list order |
| Kanban.ColumnCountsSum | components/KanbanBoard.tsx:55-56 | the column counts add up to the number of jobs at a known stage |
| Kanban.CardName | components/KanbanBoard.tsx:77-78 | a card never shows an empty name |
| Kanban.CardPlatingTypeName | components/KanbanBoard.tsx:77 | the plating-type name shown is 未設定 or the name of a plating type with that id, and 未設定 for an unknown id |
| Kanban.CardClientName | components/KanbanBoard.tsx:78 | the client name shown is 未設定 or the name of a client with that id, and 未設定 for an unknown id |
| Dashboard.ActiveJobs | components/Dashboard.tsx:15 | exactly the jobs not shipped |
| Dashboard.Summarize | components/Dashboard.tsx:17-19 | the active count, their sales, and their profit as sales less costs |
| Dashboard.ActiveSales | components/Dashboard.tsx:18 | active sales are the sum over all jobs with shipped ones counted as zero |
| Dashboard.ShippingRemovesJob | components/Dashboard.tsx:15-19 | shipping a job takes one job off the count, its price off the sales and its price less its cost off the profit |
| Dashboard.Margin | components/Dashboard.tsx:44 | a margin is shown exactly when sales are positive, and is profit over sales in percent |
| Settings.FieldKeys | components/SettingsModal.tsx:215-233 | no table edits the id, and only the user table has a username |
| Settings.NewRow | components/SettingsModal.tsx:275 | a new row has a `new-` id and exactly the table's fields |
| Settings.NumberOf | components/SettingsModal.tsx:47-52 | blank text reads as 0, and digits as their value |
| Settings.Merge | components/SettingsModal.tsx:149-152 | the updated fields win and the others are kept |
| Settings.MergeIdempotent | components/SettingsModal.tsx:149-152 | merging the same fields twice is merging them once |
| Settings.Updated | components/SettingsModal.tsx:149-152 | rows with the id get the merge, the others stay, in place |
| Settings.Removed | components/SettingsModal.tsx:154-158 | exactly the rows without that id remain |
| Settings.UpdatedIdempotent | components/SettingsModal.tsx:149-152 | saving the same edit twice equals saving it once |
| Settings.RemovedAfterUpdated | components/SettingsModal.tsx:149-158 | deleting after an update equals deleting |
| Settings.RemovedAfterAdd | components/SettingsModal.tsx:144-158 | deleting a row just added gives back the list |
| Settings.Edited | components/SettingsModal.tsx:47-52 | only the named field changes, to the text or its number |
| Settings.WithoutBlankPassword | components/SettingsModal.tsx:62-66 | a blank password key is dropped and every other field kept |
| Settings.SaveClickAsWritten | components/SettingsModal.tsx:54-68 | as written, a new row of any table without a text username or password throws, a blank one is refused, and a complete one saves as typed; existing rows save without a blank password |
| Settings.SaveClick | components/SettingsModal.tsx:54-68 | corrected, only a new user row can be refused, exactly when username or password is blank; new rows save as typed; existing rows save without a blank password |
| Settings.EditedAll | components/SettingsModal.tsx:47-52 | edits keep the row's id |
| Settings.EditedAllKeys | components/SettingsModal.tsx:47-52 | edits add no key outside the table's fields |
| Settings.NewMasterRowThrows | components/SettingsModal.tsx:55-60 | as written, saving a new plating-type, jig or client row throws |
| Settings.NewMasterRowSaves | components/SettingsModal.tsx:55-60 | corrected, the same row saves as typed |
| Settings.SaveClickAgrees | components/SettingsModal.tsx:54-68 | the corrected handler differs from the handler as written only on new rows outside the users table |
| Settings.EditKeepsPassword | components/SettingsModal.tsx:261 | editing a user without typing a password keeps the stored one |
| Settings.PasswordUntouched | components/SettingsModal.tsx:47-52 | edits of other fields leave the password as it was |
| Settings.SettingsDialog.constructor | components/SettingsModal.tsx:112-132 | the dialog opens on the saved masters on the plating tab with no row in editing |
| Settings.SettingsDialog.SelectTab | components/SettingsModal.tsx:239 | the tab changes and no row stays in editing; every other field is unchanged |
| Settings.SettingsDialog.SetEditing | components/SettingsModal.tsx:270 | the row in editing changes; every other field is unchanged |
| Settings.SettingsDialog.AddItem | components/SettingsModal.tsx:144-147 | the row goes last in its table and is in editing; other tables stay |
| Settings.SettingsDialog.UpdateItem | components/SettingsModal.tsx:149-152 | the table becomes the updated table and editing ends |
| Settings.SettingsDialog.DeleteItem | components/SettingsModal.tsx:154-158 | once confirmed the rows with the id go; declined, nothing changes |
| Settings.SettingsDialog.Save | components/SettingsModal.tsx:134-142 | every local list and setting is handed on |
| Settings.EditableRow.constructor | components/SettingsModal.tsx:261 | a row is new exactly when its id starts with `new-` |
| Settings.EditableRow.HandleChange | components/SettingsModal.tsx:47-52 | the row becomes the edited row |
| Settings.EditableRow.SaveClickHandler | components/SettingsModal.tsx:54-68 | the save outcome of the row, as written |
| Settings.Imported | components/SettingsModal.tsx:185-213 | nothing changes unless the file parsed and was confirmed; then each present section replaces the stored one, and a present non-zero settlement month replaces the stored month while 0 is skipped |
| Settings.ImportIdempotent | components/SettingsModal.tsx:185-213 | restoring a backup twice equals restoring it once |
| Settings.ImportFullBackup | components/SettingsModal.tsx:185-213 | restoring a full backup gives back exactly the backed-up data |
| FilterControls.InputChanged | components/FilterControls.tsx:16-18 | only the named criterion changes |
| FilterControls.InputChangedSame | components/FilterControls.tsx:16-18 | typing the current value changes nothing |
| FilterControls.StatusChanged | components/FilterControls.tsx:20-25 | a checked stage is unchecked, an unchecked one appended, the rest kept |
| FilterControls.StatusChangedTwice | components/FilterControls.tsx:20-25 | clicking a stage twice restores the checked stages |
| FilterControls.StatusChangedNoDuplicates | components/FilterControls.tsx:20-25 | clicking keeps the checked stages without repeats |
| BulkEdit.ApplyUpdates | App.tsx:126-130 | each field in the update map takes its value and every other field is kept |
| BulkEdit.ApplyNoUpdates | App.tsx:126-130 | an empty update changes nothing |
| BulkEdit.ChangedAsWritten | components/BulkEditModal.tsx:32-34 | as written, the chosen value is stored under the field, even the empty value, and the other fields are kept |
| BulkEdit.NoChangeOptionBlanksField | components/BulkEditModal.tsx:32-34 | as written, choosing 変更なし blanks the field in every selected job |
| BulkEdit.Changed | components/BulkEditModal.tsx:32-34 | corrected, the empty choice takes the field out of the map and any other sets that key alone |
| BulkEdit.NoChangeOptionKeepsField | components/BulkEditModal.tsx:73 | corrected, choosing 変更なし leaves the field as it was |
| BulkEdit.BulkEditForm.constructor | components/BulkEditModal.tsx:15-16 | no updates and no field enabled |
| BulkEdit.BulkEditForm.ToggleField | components/BulkEditModal.tsx:20-30 | the check box flips and disabling drops the field's pending value |
| BulkEdit.BulkEditForm.Change | components/BulkEditModal.tsx:32-34 | as written, the map takes the chosen value, empty or not, whether or not the field is enabled; the check boxes stay |
| BulkEdit.BulkEditForm.Save | components/BulkEditModal.tsx:36-45 | an empty map closes; a confirmed save hands the map on and closes; a declined one stays open |
| BulkEdit.ToggleTwice | components/BulkEditModal.tsx:20-30 | toggling twice restores the check box and leaves no pending value |
| Correspondence.JobsForClient | components/CorrespondencePage.tsx:60-63 | no choices without a client, else exactly that client's jobs |
| Correspondence.SortedLogs | components/CorrespondencePage.tsx:65-67 | the logs latest first, the same logs |
| Correspondence.SortedLogsLatestFirst | components/CorrespondencePage.tsx:65-67 | the first listed log is the latest written |
| Correspondence.LogForm.constructor | components/CorrespondencePage.tsx:54 | the empty form with three stars |
| Correspondence.LogForm.ChangeClient | components/CorrespondencePage.tsx:95 | choosing a client clears the job |
| Correspondence.LogForm.ChangeJob | components/CorrespondencePage.tsx:107 | only the job changes |
| Correspondence.LogForm.SetRating | components/CorrespondencePage.tsx:15-22 | the rating becomes the star clicked, one to five |
| Correspondence.LogForm.ChangeMemo | components/CorrespondencePage.tsx:123 | only the memo changes |
| Correspondence.LogForm.Submit | components/CorrespondencePage.tsx:69-82 | the submitted log; on success the form resets, otherwise it is kept |
| Correspondence.Submitted | components/CorrespondencePage.tsx:69-82 | nothing is submitted exactly when client or memo is empty; a blank job is none |
| Correspondence.SubmittedJobOfClient | components/CorrespondencePage.tsx:60-82 | a submitted job is one of the log client's jobs |
| CloudConfig.FromFile | components/CloudConfigModal.tsx:51-56 | an accepted file fills the three fields from its three keys |
| CloudConfig.FromFileIgnoresOtherKeys | components/CloudConfigModal.tsx:52-56 | other keys of the file make no difference |
| CloudConfig.ConfigForm.constructor | components/CloudConfigModal.tsx:15 | the form opens on the saved configuration or empty |
| CloudConfig.ConfigForm.HandleChange | components/CloudConfigModal.tsx:18-20 | only the named field changes |
| CloudConfig.ConfigForm.Save | components/CloudConfigModal.tsx:22-28 | the save result of the form |
| CloudConfig.ConfigForm.ImportConfig | components/CloudConfigModal.tsx:43-69 | the form becomes the imported form |
| CloudConfig.SaveResult | components/CloudConfigModal.tsx:22-28 | the form is saved exactly when all three fields are filled, and unchanged |
| CloudConfig.Imported | components/CloudConfigModal.tsx:43-69 | an unreadable or incomplete file leaves the form; an accepted one replaces it with its three keys |
| CloudConfig.ImportThenSave | components/CloudConfigModal.tsx:22-69 | an import that changes the form leaves it saveable with the imported values |
| CloudConfig.ExportImportRoundTrip | components/CloudConfigModal.tsx:30-69 | a complete configuration exported and imported back is the same configuration |

## Left out

- Cloud mode is left out: Supabase reads, upserts, deletes and realtime subscriptions. Only the local branch of each `App.tsx` handler is modelled; the realtime reducer is modelled as `JobList.ApplyChange`.
- The browser is left out: `localStorage` persistence, file download and upload (`Blob`, `FileReader`), `window.confirm` and `alert`. Dialog answers are boolean parameters and a read file is an `Option`.
- The clock is a parameter: `Date.now()` is a natural number and `new Date()` a calendar day. Time zones are taken as UTC; a local offset would shift the `toISOString()` date.
- Rendering is left out: JSX, CSS classes, chart bar heights, `Intl` currency formatting, and the kanban's updater names.
- Log dates are `int` timestamps: a correspondence log's `correspondenceDate` is only written by `toISOString()` and read through `getTime()`.
- `STATUS_LABELS` is imported at `components/BulkEditModal.tsx:3` and read at line 74, but `constants.ts` exports no such name. As written the module either fails to link or, if bundled with the import left undefined, throws on `Object.entries(undefined)` when the dialog renders. The model of the bulk edit dialog (`BulkEdit`) and the third finding below assume the import resolves to some map of labels. The status options themselves are left out; the stored value is whatever string is chosen.
- `isNewJob` and `setIsNewJob` are used in `App.tsx` (lines 296, 324, 343, 360-367 and 648) but no `useState` declares them. As written, `handleSelectJob`, `handleNewJob` and `handleDuplicateJob` throw a `ReferenceError` after `setSelectedJob` and before `setIsDetailModalOpen(true)`, so the job dialog never opens and `handleSaveJob`'s reads of `isNewJob` are never reached. `JobList.OpenedAsWritten` models the handlers as written; `JobList.App.SelectJob`, `NewJob`, `DuplicateJob` and `SaveJob` model the evident intent, a `useState<boolean>` pair kept as the field `isNewJob` of `JobList.App` (see the fourth finding below).
- JobList.OpenedAsWritten: applies the `setSelectedJob` update queued before the throw. Whether React commits it after an uncaught error in an event handler is not modelled; the dialog stays closed either way, since it is drawn only while `isDetailModalOpen` holds.
- The settings dialog's process-duration and settlement-month inputs are left out: they are plain setters of two numbers.
- Settings.NumberOf: only blank, whole-number and signed whole-number text is read, through `Strings.NumberValue`. Fractions, exponents and hexadecimal read as `NaN`.
- Strings.NumberValue: `Number` also reads fractions, exponents, `0x`/`0b`/`0o` prefixes, `Infinity` and Unicode white space; the model reads only blank text and optionally signed decimal digits, and takes every other text as `NaN`.
- CivilDate.ParseLocalDate: reads pieces through `Strings.NumberValue`, so a piece such as `1e1` or `0x8` is taken as `NaN` where `Number` reads it. The `Date` range limit of 8.64e15 ms is not modelled: a huge year still gives a date.
- CivilDate.Parse: reads `YYYY-MM-DDT00:00:00` strictly and takes a day past the end of its month (`2024-02-30`) as an invalid date. V8's legacy date parser rolls days up to 31 over into the next month instead. Other engines differ, so the strict reading is kept.
- JobDetail.StartKey: an unparseable start date gets key 0, so it sorts after every real date. In the source `getTime()` is `NaN`, the comparator returns `NaN`, and the order of such jobs is left to the engine's sort.
- Report.AddSale: groups are kept in order of first appearance. A JavaScript object lists integer-like keys (a client or plating-type id such as `"12"`) first in numeric order. A name that is an inherited key such as `toString` starts from that inherited value instead of 0. Neither is modelled.
- Report.Ranked: the ties of the descending sort are in the order `AddSale` gives, which for integer-like keys differs from the object's key order, as above.
- Dashboard.Summarize: `job.price || 0` is taken as `job.price`, because prices in the model are always numbers.
- Dashboard.Margin: the percentage is an exact real, not `toFixed(1)` of a float.
- Report.YearPeriodIsFiscalYear: stated for years from 101 on. `new Date` reads years 0 to 99 as 1900 to 1999.
- Report.ChartSumsToTotalSales: stated for fiscal years 1001 to 9997 and well-formed delivery dates. Outside that range `toISOString` and the `YYYY-MM` keys change shape.
- CivilDate.ParseLocalDateAgrees: stated for years from 100 on. Below that the two parses differ: `new Date(50, 0, 1)` is in 1950, while the ISO parse of "0050-01-01" is year 50.
- CivilDate.ParseFormat, CivilDate.FormatInjective, CivilDate.FormatOrder: stated for years 0 to 9999, where `toISOString` writes four year digits; other years get a sign and six digits.
- Report.YearPeriodBounds, Report.MonthReportJobs, Report.ChartMonthNumbers: stated for years from 100 on, because `new Date` reads years 0 to 99 as 1900 to 1999.
- Report.MonthKeyIsPrefix, Report.MonthKeyInjective: stated for four-digit years, the only ones whose `YYYY-MM` prefix has that shape.
- Report.CountedMonthInFiscalYear, Report.CountedJobIsBucketed, Report.PeriodStartCounted, Report.PeriodStartJobReported, Report.ChartAsWrittenDropsFirstMonth: stated for years 1001 to 9997, the same range as Report.ChartSumsToTotalSales.
- Report.FirstMonthHasNoBucket, Report.PeriodStartJobUnbucketed: stated for fiscal years 1000 to 9997, for the same reason.
- Gantt.GetDaysInMonthGregorian, Gantt.ShownMonth: stated for years from 100 on, because `new Date` reads years 0 to 99 as 1900 to 1999.
- Seqs.SortDesc: the stability of `Array.prototype.sort` is not stated. The contract fixes the key order and the multiset, not the order of equal keys; this applies to Correspondence.SortedLogs and Report.Ranked.
- Gantt.VisibleIsOverlap: stated for years from 100 on. `new Date` reads years 0 to 99 as 1900 to 1999.
- Gantt.BarCoversJobDays: stated for years from 100 on, for the same reason.
- Gantt.BarDrawnIffOrdered: stated for years from 100 on, for the same reason.
- Gantt.SetMonthMoves: stated for years from 100 on, for the same reason.
- Gantt.SetMonthBackAndForth: stated for years from 101 on, for the same reason.
- Report.MonthPeriodIsMonth: stated for years from 100 on, for the same reason.
- Report.DayPeriodIsDay: stated for years from 100 on, for the same reason.
- Report.NavigateMonths: stated for days up to the 28th. Later days roll into the next month, as `setMonth` does.
- Report.NavigateYears: stated for days other than 29 February.
- Report.ChartMonths: month labels such as `NaN月` for an unparseable settlement month are not modelled.
- JobList.TotalPages: the `|| 1` fallback the page indicator adds for an empty list is not modelled. The next-page button stops at the last page, or stays on the page for an empty list.
- Kanban.GroupByStatus: a job whose status is a built-in object key such as `toString` is treated as an unknown stage.
- Settings.Imported: the backup's values are taken to have the right shapes. A non-number settlement month or a non-array section is not modelled.
- CloudConfig.Imported: the file's values are taken to be strings; other JSON values are not modelled.
- JobList.FilteredJobs: product names are lower-cased only in ASCII; other case folding is not modelled.

## Findings

| source | as written | input that shows it | evidently intended | confidence | as-written member | corrected member |
|---|---|---|---|---|---|---|
| components/ReportPage.tsx:101 | the chart's months are `new Date(fy, settlementMonth + i + 1, 1)`, while the year period starts at `new Date(fy, settlementMonth, 1)`: the bars start one month late | settlement month 3 (a March year end), viewing fiscal 2024 (April 2024 to March 2025), a shipped job of 1000 delivered 2024-04-01: it is in the report total but in no bar, since the first bar is May 2024 | the twelve months of the fiscal year, from its first month, so the bars add up to the total | high (not executed) | Report.ChartAsWrittenDropsFirstMonth | Report.ChartSumsToTotalSales |
| components/SettingsModal.tsx:55-60 | a new row of any table must pass `username.trim()` and `password.trim()` | a new plating-type row (added at line 296) has no `username`, so `item.username.trim()` throws a TypeError and the row is never saved | the credential check applies to new user rows only | high (not executed) | Settings.NewMasterRowThrows | Settings.NewMasterRowSaves |
| components/BulkEditModal.tsx:32-34 | choosing "(変更なし)" (no change) stores the empty string for that field | enable the plating type, pick a plating type, then pick "(変更なし)": every selected job's plating type becomes empty | "no change" takes the field out of the update | medium, assuming the `STATUS_LABELS` import resolves (not executed) | BulkEdit.NoChangeOptionBlanksField | BulkEdit.NoChangeOptionKeepsField |
| App.tsx:294-345 | `setIsNewJob(...)` is called, but no `useState` in `App` declares `isNewJob` or `setIsNewJob` | click a job in the list, or the header's 新規案件 (new job) button: a `ReferenceError` is thrown before `setIsDetailModalOpen(true)`, so the job dialog does not open, and its 複製して新規作成 (duplicate) button is never shown | a `const [isNewJob, setIsNewJob] = useState(false)` pair, so the dialog opens and saving knows whether the job is new | high (not executed) | JobList.OpenedAsWrittenStaysClosed | JobList.Opened |
