# TaskMind in Dafny

TaskMind is a React productivity app. It has a task list with tabs, filters, sorting and bulk actions. It has a task-detail page with subtasks, comments, attachments, a time tracker and AI insights. It also has two assistant chats, a login form, profile settings, dashboard widgets and the primary navigation. This project models the client-side logic of those screens and proves what each one guarantees.

Layout:

- One module per source component, plus `Common` for shared value helpers: Option/Result, JavaScript's whitespace and `trim`, ASCII lower-casing, `includes`, and decimal rendering.
- A component whose state changes becomes a `class`. Its `useState` variables become fields, and each handler becomes a `method` whose `ensures` gives the whole new state.
- The list edits, label maps, comparators and service calls that the handlers use are functions. Lemmas state their properties.
- A handler that awaits a simulated delay is split in two methods, one for the state before the delay and one for after it. A composite method runs both.
- Dates are integer millisecond timestamps. The clock (`now`) is a parameter.
- The language-model provider is a function parameter `Request -> Outcome`. `JSON.parse` is a parser parameter.
- `localeCompare` is a collation parameter; it is only assumed antisymmetric in sign.

## Model

| member | source | states |
|---|---|---|
| Tasks.SameDayWindow | src/pages/task-management/index.jsx:132-135 | two timestamps are on the same calendar day exactly when one lies in the other's day window |
| Tasks.UpcomingOverdueDisjoint | src/pages/task-management/index.jsx:136-147 | no task is both upcoming and overdue, and neither kind is completed by status |
| Tasks.SearchIgnoresCase | src/pages/task-management/index.jsx:177-183 | the search gives the same answer for a query and its lower-cased form |
| Tasks.SearchFindsTitle | src/pages/task-management/index.jsx:177-183 | a title that contains the query, in any letter case, is found |
| TaskManagement.Keep | src/pages/task-management/index.jsx:155-211 | one filter stage keeps exactly the tasks meeting its criterion and invents none |
| TaskManagement.Stage | src/pages/task-management/index.jsx:155-211 | a stage that is switched off keeps everything; one that is on keeps exactly the matching tasks |
| TaskManagement.Steps | src/pages/task-management/index.jsx:155-211 | the page's eight filter stages, in source order |
| TaskManagement.ChainKeeps | src/pages/task-management/index.jsx:151-211 | the filter chain is a sub-multiset of the list, holding exactly the tasks that meet every active stage |
| TaskManagement.ChainOff | src/pages/task-management/index.jsx:185-211 | with every stage off, the chain returns the list unchanged |
| TaskManagement.StepsSelect | src/pages/task-management/index.jsx:151-211 | meeting all eight stages is the same as meeting the page's selection predicate (tab, search, four selects, overdue, completed) |
| TaskManagement.MeetsAllSelected | src/pages/task-management/index.jsx:151-211 | a task meeting every stage is selected |
| TaskManagement.SelectedMeetsAll | src/pages/task-management/index.jsx:151-211 | a selected task meets every stage |
| TaskManagement.CountsFor | src/pages/task-management/index.jsx:130-148 | each badge count is the number of tasks its tab or banner would show |
| TaskManagement.CountsPartition | src/pages/task-management/index.jsx:130-148 | upcoming plus overdue never exceeds all, and completed plus open tasks is all |
| TaskManagement.ApplyFiltersSelects | src/pages/task-management/index.jsx:151-211 | the filtered list holds exactly the selected tasks, none invented or repeated beyond the input |
| TaskManagement.FilteredTasks | src/pages/task-management/index.jsx:151-240 | `getFilteredTasks()`: the filter chain, then the selected sort; a result is a permutation of the filtered list, and an error stands for the comparator's ReferenceError |
| TaskManagement.FilteredTasksSpec | src/pages/task-management/index.jsx:151-240 | the shown list is a permutation of the filtered tasks and holds exactly the selected ones; every sort except "ai-suggested" succeeds and orders it; "ai-suggested" succeeds and orders it when no pair throws, and fails only when some pair of shown tasks throws |
| TaskManagement.PageThrowsOnAiSuggested | src/pages/task-management/index.jsx:216-244 | as written, two open high-priority tasks, one undated, make the whole list fail to compute under "ai-suggested" (see Findings) |
| TaskManagement.TabShowsItsCount | src/pages/task-management/index.jsx:130-174 | without filters, each tab lists as many tasks as its badge counts |
| TaskManagement.ToggledComplete | src/pages/task-management/index.jsx:274-280 | the matching tasks get the flag and its status ("completed" or "todo"); all other tasks are untouched |
| TaskManagement.ToggleSetsDone | src/pages/task-management/index.jsx:274-280 | after a toggle the matching tasks are done exactly when the flag is set, and repeating the toggle changes nothing |
| TaskManagement.CompletingRaisesCount | src/pages/task-management/index.jsx:274-280 | marking a task complete never lowers the completed count |
| TaskManagement.WithoutTask | src/pages/task-management/index.jsx:267-272 | deletion keeps exactly the tasks with another id |
| TaskManagement.WithoutTaskDistributes | src/pages/task-management/index.jsx:267-272 | deletion works piece by piece over a split list and a single task stays exactly when its id differs, so the remaining tasks keep their order and number |
| TaskManagement.Duplicate | src/pages/task-management/index.jsx:282-292 | the copy has a " (Copy)" title, a clock id and creation time, is not completed and has status "todo", and equals the original in every other field |
| TaskManagement.SavedTasksAsWritten | src/pages/task-management/index.jsx:300-304 | as written, save only replaces tasks whose id matches the draft's, and it keeps the list length |
| TaskManagement.CreateThroughDialogIsLost | src/pages/task-management/index.jsx:300-304 | saving a "New Task" draft leaves the list unchanged (see Findings) |
| TaskManagement.NewFromForm | src/components/ui/TaskDetailModal.jsx:54-67 | a created task carries the form's fields and a clock id and creation time |
| TaskManagement.SavedTasks | src/pages/task-management/index.jsx:300-304 | an edit behaves as written; a create puts the new task in front |
| TaskManagement.SaveTaskEffect | src/pages/task-management/index.jsx:300-304 | an edit replaces each task carrying the edited id with the merged task; a create adds exactly one task in front of the old list |
| TaskManagement.BulkApplied | src/pages/task-management/index.jsx:322-351 | a confirmed delete keeps exactly the unselected tasks, in order by BulkDeleteDistributes; an unconfirmed delete and unknown actions change nothing; the three edits keep order, ids and unselected tasks, and on each selected task set completed with status "completed", clear it with status "todo", or set priority "high", changing no other field |
| TaskManagement.BulkDeleteDistributes | src/pages/task-management/index.jsx:345-349 | the confirmed delete works piece by piece over a split list and a single task stays exactly when it is not selected, so the remaining tasks keep their order and number |
| TaskManagement.BulkActionEffect | src/pages/task-management/index.jsx:324-343 | after the action every selected task is complete, incomplete or high priority, as the action says, and on every marked task the status is "completed" exactly when the flag is set |
| TaskManagement.SelectTask | src/pages/task-management/index.jsx:306-312 | selecting appends the id; deselecting removes every occurrence and nothing else |
| TaskManagement.SelectKeepsDistinct | src/pages/task-management/index.jsx:306-312 | the checkbox toggles never select an id twice |
| TaskManagement.Ids | src/pages/task-management/index.jsx:314-320 | the ids of the shown tasks, in order |
| TaskManagement.AllSelected | src/pages/task-management/index.jsx:314-320 | the select-all box is ticked only when some task is shown |
| TaskManagement.AllSelectedMeansEveryShown | src/pages/task-management/index.jsx:314-320 | for a duplicate-free selection of shown tasks, the count test is ticked exactly when every shown task is selected |
| TaskManagement.SubsetCount | src/pages/task-management/index.jsx:314-320 | a duplicate-free id list drawn from another is no longer, and equally long only when it holds every id |
| TaskManagement.TaskManagementPage.constructor | src/pages/task-management/index.jsx:18-36 | the page starts on "all" with the initial filters, an empty selection and the dialog closed |
| TaskManagement.TaskManagementPage.ChangeTab | src/pages/task-management/index.jsx:405 | only the active tab changes |
| TaskManagement.TaskManagementPage.ChangeFilters | src/pages/task-management/index.jsx:415 | only the filters change |
| TaskManagement.TaskManagementPage.AddTask | src/pages/task-management/index.jsx:258-260 | the new task goes in front; nothing else changes |
| TaskManagement.TaskManagementPage.EditTask | src/pages/task-management/index.jsx:262-265 | the dialog opens on that task |
| TaskManagement.TaskManagementPage.NewTask | src/pages/task-management/index.jsx:391-392 | the dialog opens on no task |
| TaskManagement.TaskManagementPage.CloseTaskModal | src/pages/task-management/index.jsx:551-552 | the dialog closes and forgets its task |
| TaskManagement.TaskManagementPage.DeleteTask | src/pages/task-management/index.jsx:267-272 | only on confirmation does the task leave both the list and the selection |
| TaskManagement.TaskManagementPage.ToggleComplete | src/pages/task-management/index.jsx:274-280 | the list becomes the toggled list; nothing else changes |
| TaskManagement.TaskManagementPage.DuplicateTask | src/pages/task-management/index.jsx:282-292 | the duplicate goes in front |
| TaskManagement.TaskManagementPage.SaveTask | src/pages/task-management/index.jsx:300-304 | the list becomes the as-written save: tasks with the draft's id are replaced, and a draft without an id changes nothing |
| TaskManagement.TaskManagementPage.TaskSelection | src/pages/task-management/index.jsx:306-312 | only the selection changes, as SelectTask says |
| TaskManagement.TaskManagementPage.SelectAllTasks | src/pages/task-management/index.jsx:314-320 | select-all takes the ids of the currently shown list; when that list fails to compute the selection stays; deselect-all empties it |
| TaskManagement.TaskManagementPage.BulkAction | src/pages/task-management/index.jsx:322-353 | the list becomes BulkApplied's, so only the named fields of the selected tasks change, and the selection is always cleared |
| TaskManagement.TaskManagementPage.ClearSelection | src/pages/task-management/index.jsx:431 | only the selection is emptied |
| TaskSort.Insert | src/pages/task-management/index.jsx:214-237 | an insertion step that succeeds is a permutation of its input plus the new element |
| TaskSort.Sort | src/pages/task-management/index.jsx:214-237 | a sort that succeeds is a permutation of its input |
| TaskSort.SortSorted | src/pages/task-management/index.jsx:214-237 | with a consistent comparator, the sort never throws and returns a sorted permutation |
| TaskSort.SortFailsOnlyOnThrow | src/pages/task-management/index.jsx:214-237 | a sort fails only when the comparator threw on two of the elements |
| TaskSort.SortedPairwise | src/pages/task-management/index.jsx:214-237 | for a transitive order, a sorted list is in order at every pair, not only at neighbours |
| TaskSort.PriorityRank | src/pages/task-management/index.jsx:216-218 | the four known priorities rank from 1 to 4; any other priority has no rank |
| TaskSort.AiSuggestedCompare | src/pages/task-management/index.jsx:225-232 | the as-written "ai-suggested" comparator: wherever it does not throw it agrees with the intended order |
| TaskSort.AiSuggestedCompareIntended | src/pages/task-management/index.jsx:225-232 | the intended "ai-suggested" comparator: never throws, and an urgent task goes before a non-urgent one |
| TaskSort.Comparator | src/pages/task-management/index.jsx:214-237 | the comparator `sortBy` selects, due date for unknown values; only "ai-suggested" can throw, and where it does not it agrees with the intended order |
| TaskSort.NoAiSuggestedThrow | src/pages/task-management/index.jsx:225-232 | no two tasks of the list reach the throwing line of the as-written comparator |
| TaskSort.AiSuggestedThrows | src/pages/task-management/index.jsx:216-232 | as written, two high-priority tasks, one of them undated, make the sort throw (see Findings) |
| TaskSort.AiSuggestedThrowsIff | src/pages/task-management/index.jsx:225-232 | the as-written comparator throws exactly on the pairs that reach its last line; on the other pairs it agrees with the intended order |
| TaskSort.ComparatorConsistent | src/pages/task-management/index.jsx:214-237 | every comparator but "ai-suggested" is total and antisymmetric in sign on any list; "ai-suggested" is so exactly on lists with no throwing pair |
| TaskSort.PrioritySortOrder | src/pages/task-management/index.jsx:216-218 | sorting by priority never throws, and of two neighbours with known priorities the higher rank comes first |
| TaskSort.CreatedSortOrder | src/pages/task-management/index.jsx:219-220 | sorting by creation puts the newest first throughout |
| TaskSort.UpdatedSortOrder | src/pages/task-management/index.jsx:221-222 | sorting by update puts the most recently touched first, with createdAt standing in for a missing updatedAt |
| TaskSort.DueDateTransitive | src/pages/task-management/index.jsx:233-237 | the due-date order is transitive |
| TaskSort.DueDateSortOrder | src/pages/task-management/index.jsx:233-237 | dated tasks come in ascending date order, then the undated ones |
| TaskSort.AiSuggestedIntendedOrder | src/pages/task-management/index.jsx:225-232 | the intended order never throws, and no urgent task follows a non-urgent one |
| TaskFilters.WithText | src/pages/task-management/components/TaskFilters.jsx:54-59 | a text setting takes the value; every other setting is kept |
| TaskFilters.WithFlag | src/pages/task-management/components/TaskFilters.jsx:54-59 | a switch takes the value; every other setting is kept |
| TaskFilters.FiltersByKeys | src/pages/task-management/components/TaskFilters.jsx:54-59 | a filter record is determined by its settings |
| TaskFilters.WithTextUnchanged | src/pages/task-management/components/TaskFilters.jsx:54-59 | setting a value that is already there changes nothing |
| TaskFilters.InactiveIffDefaults | src/pages/task-management/components/TaskFilters.jsx:83-87 | the filters count as inactive exactly when they equal the defaults apart from the sort |
| TaskFilters.HasActiveFilters | src/pages/task-management/components/TaskFilters.jsx:83-87 | whether any filter is set; InactiveIffDefaults states it means "differs from the defaults" (no contract of its own) |
| TaskFilters.ActiveChips | src/pages/task-management/components/TaskFilters.jsx:242-270 | at most four chips, shown only while filters are active; a search shows its quoted text first |
| TaskFilters.SortSelectValue | src/pages/task-management/components/TaskFilters.jsx:205 | the select's value orders the list exactly as the stored setting does |
| TaskFilters.SuggestUrgent | src/pages/task-management/components/TaskFilters.jsx:218 | only the priority changes, to "urgent" |
| TaskFilters.SuggestAiOrder | src/pages/task-management/components/TaskFilters.jsx:233 | only the sort changes, to "ai-suggested" |
| TaskFilters.FocusOverdueAsWritten | src/pages/task-management/components/TaskFilters.jsx:224-227 | as written, the button's two updates both start from the same filters, so only showCompleted changes |
| TaskFilters.FocusOverdueLosesOverdue | src/pages/task-management/components/TaskFilters.jsx:224-227 | as written, the overdue switch never turns on, unlike the intended result (see Findings) |
| TaskFilters.FocusOverdue | src/pages/task-management/components/TaskFilters.jsx:224-227 | as intended: overdue on, completed hidden, every text setting kept |
| TaskFilters.FilterPanel.constructor | src/pages/task-management/components/TaskFilters.jsx:9 | the search box starts with the stored search |
| TaskFilters.FilterPanel.SearchChange | src/pages/task-management/components/TaskFilters.jsx:61-65 | the box shows the text, and the emitted filters differ from the old ones only in the search |
| TaskFilters.FilterPanel.ClearAll | src/pages/task-management/components/TaskFilters.jsx:67-81 | the box empties, and the emitted filters are the defaults, which count as inactive |
| TaskTabs.OrZero | src/pages/task-management/components/TaskTabs.jsx:10-31 | a missing count reads as zero; a present one as itself |
| TaskTabs.Tabs | src/pages/task-management/components/TaskTabs.jsx:5-33 | four tabs in fixed order, each with its own count |
| TaskTabs.TabsShowPageCounts | src/pages/task-management/components/TaskTabs.jsx:5-33 | with the page's counts, "All" shows every task and "Today", "Upcoming" and "Completed" each show the size of the list that tab keeps |
| TaskTabs.Badge | src/pages/task-management/components/TaskTabs.jsx:60-104 | no badge for zero, the exact count up to the cap, then the cap with a '+' |
| TaskTabs.BadgeReadsBack | src/pages/task-management/components/TaskTabs.jsx:60-104 | a badge without '+' reads back as the count; one with '+' means the count exceeds the cap |
| TaskTabs.Banner | src/pages/task-management/components/TaskTabs.jsx:115-144 | the banner names urgent tasks on "all", overdue tasks on "today" and finished tasks on "completed", and shows only when its count is positive; UrgentBannerText, OverdueBannerText and CompletedBannerText state its text |
| TaskTabs.UrgentBannerSingular | src/pages/task-management/components/TaskTabs.jsx:115-122 | a single urgent task is named without the plural ending |
| TaskTabs.NamesCountAt | src/pages/task-management/components/TaskTabs.jsx:115-144 | the numeral of the count, reading back as the count, at a given place and followed by the given words |
| TaskTabs.UrgentBannerText | src/pages/task-management/components/TaskTabs.jsx:115-124 | for every positive urgent count, the banner carries that count before " urgent task", with the plural "s" exactly when the count is above one |
| TaskTabs.OverdueBannerText | src/pages/task-management/components/TaskTabs.jsx:125-134 | for every positive overdue count, the banner opens with that count and " overdue task", with the plural "s" exactly when the count is above one |
| TaskTabs.CompletedBannerText | src/pages/task-management/components/TaskTabs.jsx:135-144 | for every positive completed count, the banner names that count and ends in " task", with the plural "s" exactly when the count is above one |
| QuickAddTask.Hints | src/pages/task-management/components/QuickAddTask.jsx:33-55 | at most three keyword hints drawn from the three fixed rows; the scheduling hint leads when the input mentions a meeting or a call |
| QuickAddTask.HintsExactly | src/pages/task-management/components/QuickAddTask.jsx:33-55 | each hint appears exactly when one of its two keywords occurs, ignoring case ("meeting"/"call", "review"/"check", "urgent"/"asap"), in the fixed order, each at most once |
| QuickAddTask.MatchingCompletions | src/pages/task-management/components/QuickAddTask.jsx:58-68 | exactly the table's completions that contain the input, ignoring case, without being it |
| QuickAddTask.AsCompletions | src/pages/task-management/components/QuickAddTask.jsx:70-76 | each completion becomes a row that fills the title with its text |
| QuickAddTask.Suggestions | src/pages/task-management/components/QuickAddTask.jsx:29-79 | at most three rows; completion rows fill the title and come from the matching table entries; other rows are the hints |
| QuickAddTask.SuggestionsLayout | src/pages/task-management/components/QuickAddTask.jsx:58-78 | all hints come first, then at most two matching completions in table order, as many as fit in three rows |
| QuickAddTask.CompletionRows | src/pages/task-management/components/QuickAddTask.jsx:58-78 | cutting the hints and the first two matches to three rows keeps every hint in front and fills the rest with matches in order |
| QuickAddTask.MeetingGetsScheduleFirst | src/pages/task-management/components/QuickAddTask.jsx:33-40 | an input mentioning a meeting or a call is always offered a time first |
| QuickAddTask.PickedCompletionIsNotOfferedAgain | src/pages/task-management/components/QuickAddTask.jsx:65-76 | after a completion is picked, that same completion is not offered again |
| QuickAddTask.SuggestionsFor | src/pages/task-management/components/QuickAddTask.jsx:19-27 | no suggestions for three characters or fewer, and never more than three |
| QuickAddTask.NewQuickTask | src/pages/task-management/components/QuickAddTask.jsx:90-103 | the new task has the typed title, a clock id and creation time, medium priority, the user as assignee, no due date, is not completed and has status "todo" |
| QuickAddTask.CanSubmit | src/pages/task-management/components/QuickAddTask.jsx:194 | the add button is enabled exactly when the title is not blank |
| QuickAddTask.QuickAdd.constructor | src/pages/task-management/components/QuickAddTask.jsx:6-10 | collapsed, empty, not loading, no suggestions |
| QuickAddTask.QuickAdd.Expand | src/pages/task-management/components/QuickAddTask.jsx:127 | the box expands and keeps its title |
| QuickAddTask.QuickAdd.TitleChange | src/pages/task-management/components/QuickAddTask.jsx:19-27 | the title takes the text and the suggestions follow it |
| QuickAddTask.QuickAdd.Pick | src/pages/task-management/components/QuickAddTask.jsx:70-76 | a completion row sets the title to its text; other rows leave it |
| QuickAddTask.QuickAdd.Submit | src/pages/task-management/components/QuickAddTask.jsx:81-114 | a blank title adds nothing; otherwise the untrimmed title becomes a new task and the box resets and collapses |
| QuickAddTask.QuickAdd.Cancel | src/pages/task-management/components/QuickAddTask.jsx:116-120 | title and suggestions clear and the box collapses |
| TaskCard.DiffDays | src/pages/task-management/components/TaskCard.jsx:32-33 | the ceiling of the day difference, as the unique integer between the neighbouring day bounds |
| TaskCard.DiffDaysUnique | src/pages/task-management/components/TaskCard.jsx:32-33 | the rounded-up day count is the only integer d with the difference in the interval from d-1 days (open) to d days |
| TaskCard.FormatDate | src/pages/task-management/components/TaskCard.jsx:28-42 | no due date gives the empty text |
| TaskCard.FormatDateBuckets | src/pages/task-management/components/TaskCard.jsx:28-42 | "Today", "Tomorrow", "Yesterday", "N days overdue", "N days left" and the short date, by how far the due date lies from now |
| TaskCard.IsOverdueAgreesWithFilter | src/pages/task-management/components/TaskCard.jsx:44-49 | the card's overdue mark is the page's overdue test; undated or completed tasks are never marked |
| TaskCard.IsOverdue | src/pages/task-management/components/TaskCard.jsx:44-49 | the card's overdue mark; IsOverdueAgreesWithFilter ties it to the page's filter (no contract of its own) |
| TaskCard.Checked | src/pages/task-management/components/TaskCard.jsx:64 | the completion box is ticked exactly when the task is done by flag or status |
| TaskCard.PriorityLabel | src/pages/task-management/components/TaskCard.jsx:128 | the first letter is upper-cased and the rest is kept |
| TaskCard.ReplaceFirstDash | src/pages/task-management/components/TaskCard.jsx:133 | only the first dash becomes a space |
| TaskCard.CapitalizeFrom | src/pages/task-management/components/TaskCard.jsx:133 | exactly the letters that start a word are upper-cased |
| TaskCard.Capitalize | src/pages/task-management/components/TaskCard.jsx:133 | a word start is upper-cased; every other character is kept |
| TaskCard.StatusLabel | src/pages/task-management/components/TaskCard.jsx:133 | the badge keeps the length of the status |
| TaskCard.StatusLabelShape | src/pages/task-management/components/TaskCard.jsx:133 | the first dash shows as a space; every other character is kept or capitalised as a word start |
| TaskCard.StatusLabelStartsUpper | src/pages/task-management/components/TaskCard.jsx:133 | a status starting with a lower-case letter shows it upper-cased |
| TaskCard.VisibleTags | src/pages/task-management/components/TaskCard.jsx:159 | the first three tags, in order |
| TaskCard.MoreTagsLabel | src/pages/task-management/components/TaskCard.jsx:167-171 | the "+N more" note appears exactly when more than three tags exist, with N the hidden number |
| TaskCard.TagsAccountedFor | src/pages/task-management/components/TaskCard.jsx:159-171 | the visible tags plus the note's count account for every tag |
| TaskDetailModal.FormFor | src/components/ui/TaskDetailModal.jsx:24-34 | every form field is the task's, with "medium" and "todo" for a missing priority and status |
| TaskDetailModal.SaveUneditedKeepsTask | src/components/ui/TaskDetailModal.jsx:24-67 | saving a loaded form unedited gives the task back |
| TaskDetailModal.ReopenShowsSavedForm | src/components/ui/TaskDetailModal.jsx:24-67 | reopening a saved task shows exactly the saved form, with id and creation time kept |
| TaskDetailModal.EditsCommute | src/components/ui/TaskDetailModal.jsx:47-52 | the last write to a field wins, and edits of different fields commute |
| TaskDetailModal.HeaderTitle | src/components/ui/TaskDetailModal.jsx:105 | "Edit Task" exactly when a task with an id is loaded, "New Task" otherwise |
| TaskDetailModal.SaveLabel | src/components/ui/TaskDetailModal.jsx:214 | "Update Task" exactly when editing, "Create Task" otherwise |
| TaskDetailModal.SaveEnabled | src/components/ui/TaskDetailModal.jsx:212 | the save button is enabled exactly when the title is not blank |
| TaskDetailModal.TaskDetailModal.constructor | src/components/ui/TaskDetailModal.jsx:8-22 | an empty form, not loading, no suggestions |
| TaskDetailModal.TaskDetailModal.TaskChanged | src/components/ui/TaskDetailModal.jsx:24-45 | a task loads its form and the canned suggestions; no task changes nothing |
| TaskDetailModal.TaskDetailModal.InputChange | src/components/ui/TaskDetailModal.jsx:47-52 | one field of the form changes |
| TaskDetailModal.TaskDetailModal.Save | src/components/ui/TaskDetailModal.jsx:54-67 | the merged draft goes to the callback when there is one, and loading ends |
| DetailTask.MinutesSince | src/pages/task-detail/components/CommentsSection.jsx:62 | the floor of the elapsed minutes, as the integer between the neighbouring minute bounds |
| DetailTask.RelativeTimestampBuckets | src/pages/task-detail/components/CommentsSection.jsx:60-70 | "Just now", whole minutes, hours and days, then the date, by elapsed time |
| DetailTask.RelativeTimestamp | src/pages/task-detail/components/CommentsSection.jsx:60-70 | the relative time text; RelativeTimestampBuckets states its buckets (no contract of its own) |
| TaskDetailPage.Duplicated | src/pages/task-detail/index.jsx:145-164 | the copy has a " (Copy)" title, status "todo", an id from the clock, fresh dates, and no comments or sessions |
| TaskDetailPage.DuplicateKeepsTheRest | src/pages/task-detail/index.jsx:150-159 | every other field is the original's |
| TaskDetailPage.DuplicateTwiceAppendsTwice | src/pages/task-detail/index.jsx:150-159 | a duplicate of a duplicate carries two " (Copy)" marks |
| TaskDetailPage.FormatLastSavedBuckets | src/pages/task-detail/index.jsx:166-173 | "Saved just now", then whole minutes, then the clock time after an hour |
| TaskDetailPage.FormatLastSaved | src/pages/task-detail/index.jsx:166-173 | the autosave text; FormatLastSavedBuckets states its buckets (no contract of its own) |
| TaskDetailPage.TaskDetailPage.constructor | src/pages/task-detail/index.jsx:21-26 | the initial task, not saving, saved now |
| TaskDetailPage.TaskDetailPage.BeginTaskUpdate | src/pages/task-detail/index.jsx:123-127 | the update replaces the whole task and saving starts |
| TaskDetailPage.TaskDetailPage.FinishSave | src/pages/task-detail/index.jsx:128-131 | the save time is recorded and saving stops |
| TaskDetailPage.TaskDetailPage.BeginDuplicate | src/pages/task-detail/index.jsx:145-146 | saving starts and the task is kept |
| TaskDetailPage.TaskDetailPage.FinishDuplicate | src/pages/task-detail/index.jsx:150-163 | the page shows the duplicate, and saving stops |
| SubtasksList.Appended | src/pages/task-detail/components/SubtasksList.jsx:18-24 | the old list followed by one new unfinished subtask |
| SubtasksList.Toggled | src/pages/task-detail/components/SubtasksList.jsx:32-40 | the matching subtasks flip their flag; the others are kept |
| SubtasksList.ToggleTwiceRestores | src/pages/task-detail/components/SubtasksList.jsx:32-40 | toggling the same id twice restores the list |
| SubtasksList.ToggleOnlyFlipsMatch | src/pages/task-detail/components/SubtasksList.jsx:32-40 | a toggle changes only the completed flag, and only of matching subtasks |
| SubtasksList.Removed | src/pages/task-detail/components/SubtasksList.jsx:42-46 | exactly the subtasks with another id remain |
| SubtasksList.RemovedDistributes | src/pages/task-detail/components/SubtasksList.jsx:42-46 | removal works piece by piece, so the order of the others is kept |
| SubtasksList.RemovedAbsent | src/pages/task-detail/components/SubtasksList.jsx:42-46 | removing an absent id changes nothing |
| SubtasksList.CompletedCount | src/pages/task-detail/components/SubtasksList.jsx:48 | never more than the list, and all of it exactly when every subtask is ticked |
| SubtasksList.AppendedKeepsCount | src/pages/task-detail/components/SubtasksList.jsx:16-48 | adding a subtask leaves the completed count unchanged |
| SubtasksList.SubtasksList.constructor | src/pages/task-detail/components/SubtasksList.jsx:8-14 | the task's subtasks, an empty input, not adding |
| SubtasksList.SubtasksList.StartAdding | src/pages/task-detail/components/SubtasksList.jsx:70 | the input opens |
| SubtasksList.SubtasksList.Type | src/pages/task-detail/components/SubtasksList.jsx:115 | typing changes only the add box's text |
| SubtasksList.SubtasksList.CancelAdding | src/pages/task-detail/components/SubtasksList.jsx:116-140 | Escape or the cancel button closes the box and clears its text, keeping the list |
| SubtasksList.SubtasksList.Add | src/pages/task-detail/components/SubtasksList.jsx:16-30 | a blank input changes nothing; otherwise the trimmed text is appended, the task is handed on with the new list and the input resets |
| SubtasksList.SubtasksList.Toggle | src/pages/task-detail/components/SubtasksList.jsx:32-40 | the list is toggled and handed on |
| SubtasksList.SubtasksList.Delete | src/pages/task-detail/components/SubtasksList.jsx:42-46 | the subtask is removed and the list handed on |
| CommentsSection.NewComment | src/pages/task-detail/components/CommentsSection.jsx:41-48 | a posted comment is by "You" with the user's avatar, unedited, and stamped with the clock |
| CommentsSection.CommentsSection.constructor | src/pages/task-detail/components/CommentsSection.jsx:7-34 | the task's comments, an empty box, not submitting |
| CommentsSection.CommentsSection.Type | src/pages/task-detail/components/CommentsSection.jsx:186-199 | only the box changes |
| CommentsSection.CommentsSection.Submit | src/pages/task-detail/components/CommentsSection.jsx:36-58 | a blank comment changes nothing; otherwise the trimmed text is appended as a new comment, handed on, and the box clears |
| CommentsSection.PostedCommentIsTrimmed | src/pages/task-detail/components/CommentsSection.jsx:37-45 | a posted comment is non-empty and has no surrounding whitespace |
| AttachmentsSection.KindOf | src/pages/task-detail/components/AttachmentsSection.jsx:48 | "image" exactly when the type mentions image, "pdf" when it mentions pdf but not image, "document" otherwise |
| AttachmentsSection.FromFile | src/pages/task-detail/components/AttachmentsSection.jsx:45-54 | the attachment keeps the name, is filed by kind, is by "You", and only images get their object URL |
| AttachmentsSection.FromFiles | src/pages/task-detail/components/AttachmentsSection.jsx:45-54 | one attachment per file, in order |
| AttachmentsSection.Removed | src/pages/task-detail/components/AttachmentsSection.jsx:77-81 | exactly the attachments with another id remain; RemovedDistributes states that their order is kept |
| AttachmentsSection.RemovedDistributes | src/pages/task-detail/components/AttachmentsSection.jsx:77-81 | removal works piece by piece over a split list, so the order and number of the kept attachments are those of the original |
| AttachmentsSection.RemovedSingle | src/pages/task-detail/components/AttachmentsSection.jsx:77-81 | a single attachment stays exactly when its id differs |
| AttachmentsSection.RemovedAbsent | src/pages/task-detail/components/AttachmentsSection.jsx:77-81 | removing an absent id changes nothing |
| AttachmentsSection.FileIcon | src/pages/task-detail/components/AttachmentsSection.jsx:91-98 | pdf and document get FileText, image gets Image, and everything else gets File |
| AttachmentsSection.UploadedFilesHaveKnownIcon | src/pages/task-detail/components/AttachmentsSection.jsx:45-98 | every uploaded file gets a specific icon, never the generic one |
| AttachmentsSection.AttachmentsSection.constructor | src/pages/task-detail/components/AttachmentsSection.jsx:7-37 | the task's attachments, no drag, no upload |
| AttachmentsSection.AttachmentsSection.Upload | src/pages/task-detail/components/AttachmentsSection.jsx:39-59 | the files are appended after the old list and handed on; uploading ends |
| AttachmentsSection.AttachmentsSection.Drop | src/pages/task-detail/components/AttachmentsSection.jsx:61-68 | the drag mark clears; an empty drop uploads nothing and leaves the rest; otherwise the files are uploaded |
| AttachmentsSection.AttachmentsSection.FileSelect | src/pages/task-detail/components/AttachmentsSection.jsx:70-75 | an empty selection changes nothing; otherwise the files are uploaded; the drag mark is left as it is |
| AttachmentsSection.AttachmentsSection.DragOver | src/pages/task-detail/components/AttachmentsSection.jsx:137-140 | dragging over the area sets the drag mark and changes nothing else |
| AttachmentsSection.AttachmentsSection.DragLeave | src/pages/task-detail/components/AttachmentsSection.jsx:141 | leaving the area clears the drag mark and changes nothing else |
| AttachmentsSection.AttachmentsSection.Delete | src/pages/task-detail/components/AttachmentsSection.jsx:77-81 | the attachment is removed and the list handed on |
| TimeTracking.Hms | src/pages/task-detail/components/TimeTracking.jsx:25-28 | hours, minutes and seconds that add up to the duration, with minutes and seconds under 60 |
| TimeTracking.HmsUnique | src/pages/task-detail/components/TimeTracking.jsx:25-28 | that split is the only one |
| TimeTracking.FormatTime | src/pages/task-detail/components/TimeTracking.jsx:25-37 | an hour part exactly from an hour, a minute part exactly from a minute, and always the seconds at the end |
| TimeTracking.FormatTimeParts | src/pages/task-detail/components/TimeTracking.jsx:25-37 | the clock shows the whole hours, the minutes left over and the seconds left over, leaving out leading parts that are zero |
| TimeTracking.FormatDuration | src/pages/task-detail/components/TimeTracking.jsx:39-48 | never seconds, an hour part exactly from an hour, and always the minutes at the end |
| TimeTracking.FormatDurationParts | src/pages/task-detail/components/TimeTracking.jsx:39-48 | a duration shows the whole hours, when there is one, and the minutes left over |
| TimeTracking.TotalDurationAppend | src/pages/task-detail/components/TimeTracking.jsx:76 | totals add up over a split list |
| TimeTracking.TotalDuration | src/pages/task-detail/components/TimeTracking.jsx:76 | the summed session time; TotalDurationAppend, TodayWithinTotal and StartStop state its properties (no contract of its own) |
| TimeTracking.SessionsToday | src/pages/task-detail/components/TimeTracking.jsx:77-79 | exactly the sessions on the current day |
| TimeTracking.TodayWithinTotal | src/pages/task-detail/components/TimeTracking.jsx:76-80 | today's time never exceeds the total |
| TimeTracking.RecentSessions | src/pages/task-detail/components/TimeTracking.jsx:161 | the last five sessions, newest first |
| TimeTracking.TimeTracking.constructor | src/pages/task-detail/components/TimeTracking.jsx:6-13 | not tracking, no running session, the task's total and sessions |
| TimeTracking.TimeTracking.Tick | src/pages/task-detail/components/TimeTracking.jsx:15-23 | the running session grows by a second only while tracking |
| TimeTracking.TimeTracking.StartStop | src/pages/task-detail/components/TimeTracking.jsx:50-74 | tracking flips; stopping a non-empty session records it and hands the task on; recorded plus running time is conserved |
| TaskProperties.FormFor | src/pages/task-detail/components/TaskProperties.jsx:9-16 | the buffer copies the task, with "medium" and "todo" for missing priority and status |
| TaskProperties.Saved | src/pages/task-detail/components/TaskProperties.jsx:40-43 | reloading a saved buffer gives that buffer back |
| TaskProperties.SavedChangesOnlyBufferFields | src/pages/task-detail/components/TaskProperties.jsx:40-43 | saving changes only the six buffer fields |
| TaskProperties.SaveUneditedKeepsTask | src/pages/task-detail/components/TaskProperties.jsx:9-43 | saving an unedited buffer gives the task back |
| TaskProperties.EditChangesOneField | src/pages/task-detail/components/TaskProperties.jsx:57-59 | an edit writes its own field and leaves the other five alone |
| TaskProperties.AssigneeName | src/pages/task-detail/components/TaskProperties.jsx:61-69 | "Unassigned" exactly for anyone but the four known people |
| TaskProperties.StatusLabel | src/pages/task-detail/components/TaskProperties.jsx:160-163 | "To Do" exactly for unknown statuses, and one of four texts |
| TaskProperties.TaskProperties.constructor | src/pages/task-detail/components/TaskProperties.jsx:8-16 | not editing, buffer from the task |
| TaskProperties.TaskProperties.StartEditing | src/pages/task-detail/components/TaskProperties.jsx:82 | editing starts with the buffer kept |
| TaskProperties.TaskProperties.InputChange | src/pages/task-detail/components/TaskProperties.jsx:57-59 | one buffer field changes |
| TaskProperties.TaskProperties.Save | src/pages/task-detail/components/TaskProperties.jsx:40-43 | the buffer goes over the task and editing ends |
| TaskProperties.TaskProperties.Cancel | src/pages/task-detail/components/TaskProperties.jsx:45-55 | the buffer reloads from the task and editing ends |
| TaskHeader.TitleSaved | src/pages/task-detail/components/TaskHeader.jsx:11-16 | only the title changes, to the trimmed buffer |
| TaskHeader.PaddedTitleRewritesSame | src/pages/task-detail/components/TaskHeader.jsx:12-13 | a buffer that differs from the title only by a leading space counts as a change but saves the same title |
| TaskHeader.SavesTitle | src/pages/task-detail/components/TaskHeader.jsx:12 | the save guard: a non-blank buffer that differs from the title; PaddedTitleRewritesSame shows it compares the untrimmed buffer (no contract of its own) |
| TaskHeader.DisplayTitle | src/pages/task-detail/components/TaskHeader.jsx:97 | never empty, and the title itself when there is one |
| TaskHeader.PriorityLabel | src/pages/task-detail/components/TaskHeader.jsx:119-121 | "Low Priority" exactly for unknown priorities, and one of four texts |
| TaskHeader.StatusLabel | src/pages/task-detail/components/TaskHeader.jsx:114-116 | "To Do" exactly for unknown statuses, and one of four texts |
| TaskHeader.TaskHeader.constructor | src/pages/task-detail/components/TaskHeader.jsx:8-9 | not editing, the buffer holds the title |
| TaskHeader.TaskHeader.StartEditing | src/pages/task-detail/components/TaskHeader.jsx:102 | editing starts with the buffer kept |
| TaskHeader.TaskHeader.Type | src/pages/task-detail/components/TaskHeader.jsx:67-73 | only the buffer changes |
| TaskHeader.TaskHeader.Save | src/pages/task-detail/components/TaskHeader.jsx:11-16 | the task updates only for a non-blank changed buffer; editing ends either way |
| TaskHeader.TaskHeader.Cancel | src/pages/task-detail/components/TaskHeader.jsx:18-21 | the buffer goes back to the title and editing ends |
| TaskDescription.TaskDescription.constructor | src/pages/task-detail/components/TaskDescription.jsx:6-7 | not editing, the buffer holds the description |
| TaskDescription.TaskDescription.StartEditing | src/pages/task-detail/components/TaskDescription.jsx:32 | editing starts with the buffer kept |
| TaskDescription.TaskDescription.Type | src/pages/task-detail/components/TaskDescription.jsx:40-45 | only the buffer changes |
| TaskDescription.TaskDescription.Save | src/pages/task-detail/components/TaskDescription.jsx:9-14 | an unchanged buffer sends nothing; a changed one replaces the description; editing ends |
| TaskDescription.TaskDescription.Cancel | src/pages/task-detail/components/TaskDescription.jsx:16-19 | the buffer goes back to the description and editing ends |
| InsightsPanel.InsightColor | src/pages/task-detail/components/AIInsightsPanel.jsx:44-52 | gray exactly for unknown insight types |
| InsightsPanel.IconColor | src/pages/task-detail/components/AIInsightsPanel.jsx:54-62 | gray exactly for unknown insight types |
| InsightsPanel.ColoursAgreeOnKnownTypes | src/pages/task-detail/components/AIInsightsPanel.jsx:44-62 | both colour maps fall back on the same types |
| InsightsPanel.EffectFiresOncePerTask | src/pages/task-detail/components/AIInsightsPanel.jsx:13-18 | the effect fires for a new task and never again for the task it loaded |
| InsightsPanel.NeedsLoad | src/pages/task-detail/components/AIInsightsPanel.jsx:14 | the effect's guard: a task whose id is not the last loaded one; EffectFiresOncePerTask states its meaning (no contract of its own) |
| InsightsPanel.InsightsPanel.constructor | src/pages/task-detail/components/AIInsightsPanel.jsx:7-10 | expanded, no insights, not loading, no task loaded |
| InsightsPanel.InsightsPanel.BeginLoad | src/pages/task-detail/components/AIInsightsPanel.jsx:20-23 | nothing without a task; otherwise loading starts |
| InsightsPanel.InsightsPanel.FinishLoad | src/pages/task-detail/components/AIInsightsPanel.jsx:24-41 | the service's list replaces the shown one, or the unavailable notice does; loading ends |
| InsightsPanel.InsightsPanel.Load | src/pages/task-detail/components/AIInsightsPanel.jsx:20-42 | with a task, the shown insights are the service's answer for it |
| InsightsPanel.InsightsPanel.Effect | src/pages/task-detail/components/AIInsightsPanel.jsx:13-18 | a new task id starts a load and is remembered; otherwise nothing happens |
| InsightsPanel.InsightsPanel.ActionClick | src/pages/task-detail/components/AIInsightsPanel.jsx:122-126 | only a "Retry" action reloads |
| InsightsPanel.InsightsPanel.Refresh | src/pages/task-detail/components/AIInsightsPanel.jsx:64-66 | refresh starts a load only while none runs |
| InsightsPanel.InsightsPanel.ToggleExpanded | src/pages/task-detail/components/AIInsightsPanel.jsx:72 | only the expanded flag flips |
| AssistantService.RoleOf | src/services/openaiService.js:33-36 | "user" stays the user; every other type is the assistant |
| AssistantService.History | src/services/openaiService.js:33-36 | one provider message per transcript entry, in order, with its role and content |
| AssistantService.HistoryAppend | src/services/openaiService.js:33-36 | mapping a split transcript maps each part |
| AssistantService.Messages | src/services/openaiService.js:19-41 | the system prompt, then the history, then the user's text |
| AssistantService.UserTurnsOf | src/services/openaiService.js:19-41 | the request has exactly one more user turn than the history |
| AssistantService.UserTurnsMatch | src/services/openaiService.js:33-36 | the mapped history has as many user turns as the transcript has user entries |
| AssistantService.AssistantResponse | src/services/openaiService.js:17-55 | the call fails exactly when the provider call fails, always with the same message; otherwise the first choice's content comes back as it came |
| AssistantService.PromptValues | src/services/openaiService.js:92-97 | five non-empty values, each the task's own field when present |
| AssistantService.PromptPlaceholders | src/services/openaiService.js:92-97 | each empty field is shown by its placeholder |
| AssistantService.TaskPrompt | src/services/openaiService.js:91-97 | the insight prompt, filled with the five values that PromptValues and PromptPlaceholders describe (no contract of its own) |
| AssistantService.InsightsRequest | src/services/openaiService.js:62-101 | the request's user message is the task prompt |
| AssistantService.TaskInsights | src/services/openaiService.js:62-147 | never fails: a failed call or missing reply gives the fallback insight, a null reply gives none, and a parsed reply gives its insights or none |
| AssistantService.InsightsOf | src/services/openaiService.js:132-146 | reads the provider outcome into insights; TaskInsights states each case (no contract of its own) |
| AssistantService.StructuredChatResponse | src/services/openaiService.js:155-239 | a structured reply gives its content and actions; a null reply gives the default text without actions; a failed one falls back to the plain reply with no actions; an error always carries the one message |
| AssistantService.StructuredErrorNeedsBothFailures | src/services/openaiService.js:225-238 | the structured call errs exactly when both it and its fallback failed |
| AssistantPanel.ReplyMessage | src/components/ui/AIAssistantPanel.jsx:53-72 | an assistant message carrying the reply, or the apology on failure |
| AssistantPanel.AssistantPanel.constructor | src/components/ui/AIAssistantPanel.jsx:8-17 | the welcome message, an empty input, not typing |
| AssistantPanel.AssistantPanel.Type | src/components/ui/AIAssistantPanel.jsx:175 | only the input changes |
| AssistantPanel.AssistantPanel.QuickAction | src/components/ui/AIAssistantPanel.jsx:81-86 | the input takes the action's label; nothing is sent |
| AssistantPanel.AssistantPanel.BeginSend | src/components/ui/AIAssistantPanel.jsx:35-52 | blank input sends nothing; otherwise the text is appended as a user message, the input clears, typing starts and the send carries the last ten messages |
| AssistantPanel.AssistantPanel.FinishSend | src/components/ui/AIAssistantPanel.jsx:53-74 | exactly one assistant message is appended and typing stops |
| AssistantPanel.AssistantPanel.Send | src/components/ui/AIAssistantPanel.jsx:35-75 | a whole send appends the user message and the service's reply |
| AssistantPanel.HistoryWindow | src/components/ui/AIAssistantPanel.jsx:52 | the context is the last min(10, n) messages, in order |
| AssistantChat.QuickActionText | src/pages/ai-assistant-chat/index.jsx:81-93 | a known id's non-empty prompt is sent; an unknown id sends the caption |
| AssistantChat.KnownActionsUseTheTable | src/pages/ai-assistant-chat/index.jsx:82-91 | every known id sends its prompt from the table |
| AssistantChat.ReplyMessage | src/pages/ai-assistant-chat/index.jsx:53-72 | an assistant message with the reply's content and actions, or the apology with none |
| AssistantChat.Confirmation | src/pages/ai-assistant-chat/index.jsx:95-108 | an assistant message without actions whose text names the item |
| AssistantChat.AssistantChat.constructor | src/pages/ai-assistant-chat/index.jsx:16-26 | the welcome message, not typing, quick actions shown |
| AssistantChat.AssistantChat.BeginSend | src/pages/ai-assistant-chat/index.jsx:36-50 | the text is appended as a user message, typing starts, quick actions hide, and the send carries the last ten messages before it |
| AssistantChat.AssistantChat.FinishSend | src/pages/ai-assistant-chat/index.jsx:51-74 | exactly one assistant message is appended and typing stops |
| AssistantChat.AssistantChat.Send | src/pages/ai-assistant-chat/index.jsx:36-75 | a whole send appends the user message and the structured reply |
| AssistantChat.AssistantChat.QuickActionSelect | src/pages/ai-assistant-chat/index.jsx:81-93 | a quick action sends its text |
| AssistantChat.AssistantChat.ActionableClick | src/pages/ai-assistant-chat/index.jsx:95-108 | one confirmation is appended and nothing else changes |
| AssistantChat.AssistantChat.ClearChat | src/pages/ai-assistant-chat/index.jsx:110-121 | only the welcome message is left, and the quick actions show again |
| ChatInput.SendDisabledIffBlank | src/pages/ai-assistant-chat/components/ChatInput.jsx:86 | the send button is disabled exactly for blank text or a disabled input |
| ChatInput.ChatInput.constructor | src/pages/ai-assistant-chat/components/ChatInput.jsx:7 | an empty box |
| ChatInput.ChatInput.Type | src/pages/ai-assistant-chat/components/ChatInput.jsx:54-58 | the box takes the text |
| ChatInput.ChatInput.Submit | src/pages/ai-assistant-chat/components/ChatInput.jsx:11-18 | when sending is allowed, the trimmed text (non-empty, no surrounding spaces) is sent and the box clears; otherwise nothing happens |
| ChatInput.ChatInput.KeyPress | src/pages/ai-assistant-chat/components/ChatInput.jsx:40-45 | Enter without Shift submits; any other key leaves the box alone |
| ChatInput.ChatInput.Hint | src/pages/ai-assistant-chat/components/ChatInput.jsx:102-107 | a hint replaces the text unless the input is disabled |
| LoginForm.ValidEmailMeetsPattern | src/pages/login/components/LoginForm.jsx:39 | the email matcher accepts exactly the strings the pattern describes |
| LoginForm.ValidEmail | src/pages/login/components/LoginForm.jsx:39 | the email regular expression as a scanner; ValidEmailMeetsPattern states that it accepts exactly the pattern (no contract of its own) |
| LoginForm.Validate | src/pages/login/components/LoginForm.jsx:34-51 | an error key for each failing field, with its message, and no other keys |
| LoginForm.ValidateIffFieldsPass | src/pages/login/components/LoginForm.jsx:34-51 | the form is valid exactly when the email is non-blank and well formed and the password is non-blank and at least six characters long |
| LoginForm.Matches | src/pages/login/components/LoginForm.jsx:71-73 | true exactly when the pair is one of the listed credentials |
| LoginForm.DemoLogins | src/pages/login/components/LoginForm.jsx:65-73 | exactly the three demo pairs sign in |
| LoginForm.DemoCredentialsValidate | src/pages/login/components/LoginForm.jsx:34-69 | every demo pair passes validation, so each one can sign in |
| LoginForm.SubmitDisabled | src/pages/login/components/LoginForm.jsx:175 | the sign-in button is disabled while a raw field is empty (no contract of its own) |
| LoginForm.DisabledFormFailsValidation | src/pages/login/components/LoginForm.jsx:34-51 | every form the disabled button blocks would also fail validation |
| LoginForm.LoginForm.constructor | src/pages/login/components/LoginForm.jsx:10-17 | empty fields, no errors, not loading, password hidden |
| LoginForm.LoginForm.EmailChange | src/pages/login/components/LoginForm.jsx:19-32 | the email takes the value and a set email error is cleared |
| LoginForm.LoginForm.PasswordChange | src/pages/login/components/LoginForm.jsx:19-32 | the password takes the value and a set password error is cleared |
| LoginForm.LoginForm.RememberMeChange | src/pages/login/components/LoginForm.jsx:19-32 | the flag takes the value; no other field changes |
| LoginForm.LoginForm.TogglePassword | src/pages/login/components/LoginForm.jsx:143 | only the password visibility flips |
| LoginForm.LoginForm.BeginSubmit | src/pages/login/components/LoginForm.jsx:56-58 | the errors become the validation result, and loading starts exactly when it is empty |
| LoginForm.LoginForm.FinishSubmit | src/pages/login/components/LoginForm.jsx:65-96 | a listed pair signs in with the email and remember flag; any other sets the general error; loading ends |
| LoginForm.LoginForm.Submit | src/pages/login/components/LoginForm.jsx:53-97 | an invalid form only shows its errors; a valid one signs in exactly for a listed pair and otherwise shows the general error |
| SecuritySection.WithField | src/pages/profile-settings/components/SecuritySection.jsx:82-87 | one field of the form takes the value; the others are kept |
| SecuritySection.TwoFactorToggled | src/pages/profile-settings/components/SecuritySection.jsx:113-118 | only the two-factor flag flips |
| SecuritySection.TwoFactorTwiceRestores | src/pages/profile-settings/components/SecuritySection.jsx:113-118 | two flips restore the data |
| SecuritySection.SecuritySection.constructor | src/pages/profile-settings/components/SecuritySection.jsx:8-21 | the initial data, an empty hidden form, not changing |
| SecuritySection.SecuritySection.ToggleForm | src/pages/profile-settings/components/SecuritySection.jsx:166 | only the form's visibility flips |
| SecuritySection.SecuritySection.PasswordChange | src/pages/profile-settings/components/SecuritySection.jsx:82-87 | one form field changes |
| SecuritySection.SecuritySection.PasswordSubmit | src/pages/profile-settings/components/SecuritySection.jsx:89-111 | differing passwords only raise the mismatch alert; matching ones empty and hide the form and date the change today |
| SecuritySection.SecuritySection.TwoFactorToggle | src/pages/profile-settings/components/SecuritySection.jsx:113-118 | the two-factor flag flips; the form is kept |
| SecuritySection.SecuritySection.LoginNotificationsChange | src/pages/profile-settings/components/SecuritySection.jsx:352-355 | the notification flag follows the box |
| SecuritySection.EmptiedFormIsDisabled | src/pages/profile-settings/components/SecuritySection.jsx:207 | after a successful change the update button is disabled again |
| AISettingsSection.WithSharing | src/pages/profile-settings/components/AISettingsSection.jsx:64-73 | one data-sharing flag takes the value; the others are kept |
| AISettingsSection.WithCategorization | src/pages/profile-settings/components/AISettingsSection.jsx:75-84 | one categorization flag takes the value; the others are kept |
| AISettingsSection.WithGoal | src/pages/profile-settings/components/AISettingsSection.jsx:86-95 | one goal takes the value; the others are kept |
| AISettingsSection.WithScalar | src/pages/profile-settings/components/AISettingsSection.jsx:54-62 | one scalar category takes the value; every other setting is kept |
| AISettingsSection.LeadingDigits | src/pages/profile-settings/components/AISettingsSection.jsx:91 | the longest prefix made only of digits |
| AISettingsSection.MagnitudeOfDigits | src/pages/profile-settings/components/AISettingsSection.jsx:91 | decimal digits are read as their value |
| AISettingsSection.ParseIntOrZero | src/pages/profile-settings/components/AISettingsSection.jsx:91 | `parseInt(value) \|\| 0`: leading spaces, an optional sign and the longest digit run; ParseUnsigned, ParseNegative, ParseDigits, ParseIntRoundTrip and NoDigitsIsZero state its meaning (no contract of its own) |
| AISettingsSection.ParseUnsigned | src/pages/profile-settings/components/AISettingsSection.jsx:91 | text that starts with neither space nor sign is read from its start |
| AISettingsSection.ParseNegative | src/pages/profile-settings/components/AISettingsSection.jsx:91 | a leading minus negates what follows |
| AISettingsSection.ParseDigits | src/pages/profile-settings/components/AISettingsSection.jsx:91 | digits, signed or not, are read as their value |
| AISettingsSection.ParseIntRoundTrip | src/pages/profile-settings/components/AISettingsSection.jsx:91 | a typed number is stored as that number, and so is its negation |
| AISettingsSection.NoDigitsIsZero | src/pages/profile-settings/components/AISettingsSection.jsx:91 | text without a leading digit (after spaces and a sign) is stored as 0 |
| AISettingsSection.SaveDisabled | src/pages/profile-settings/components/AISettingsSection.jsx:282 | the save button is disabled while nothing changed; every change method ensures it enabled and save ensures it disabled (no contract of its own) |
| AISettingsSection.AISettingsSection.constructor | src/pages/profile-settings/components/AISettingsSection.jsx:8-30 | the initial settings, unchanged |
| AISettingsSection.AISettingsSection.SettingChange | src/pages/profile-settings/components/AISettingsSection.jsx:54-62 | one scalar changes and the section is marked changed |
| AISettingsSection.AISettingsSection.DataSharingChange | src/pages/profile-settings/components/AISettingsSection.jsx:64-73 | one data-sharing flag changes, marked changed |
| AISettingsSection.AISettingsSection.CategorizationChange | src/pages/profile-settings/components/AISettingsSection.jsx:75-84 | one categorization flag changes, marked changed |
| AISettingsSection.AISettingsSection.GoalChange | src/pages/profile-settings/components/AISettingsSection.jsx:86-95 | the parsed text (or 0) becomes the goal, marked changed |
| AISettingsSection.AISettingsSection.SaveSettings | src/pages/profile-settings/components/AISettingsSection.jsx:97-100 | the settings stay; only the mark clears |
| PreferencesSection.WithFlag | src/pages/profile-settings/components/PreferencesSection.jsx:54-63 | one notification flag takes the value; the others are kept |
| PreferencesSection.WithField | src/pages/profile-settings/components/PreferencesSection.jsx:44-52 | one field takes the value; the other fields and the notification flags are kept |
| PreferencesSection.WithFieldOwnValue | src/pages/profile-settings/components/PreferencesSection.jsx:44-52 | setting a field to its own value changes nothing |
| PreferencesSection.SaveDisabled | src/pages/profile-settings/components/PreferencesSection.jsx:212 | the save button is disabled while nothing changed; every change method and reset ensure it enabled and save ensures it disabled (no contract of its own) |
| PreferencesSection.PreferencesSection.constructor | src/pages/profile-settings/components/PreferencesSection.jsx:8-26 | the initial record, unchanged |
| PreferencesSection.PreferencesSection.PreferenceChange | src/pages/profile-settings/components/PreferencesSection.jsx:44-52 | one field changes, marked changed |
| PreferencesSection.PreferencesSection.NotificationChange | src/pages/profile-settings/components/PreferencesSection.jsx:54-63 | exactly one flag changes, marked changed |
| PreferencesSection.PreferencesSection.SavePreferences | src/pages/profile-settings/components/PreferencesSection.jsx:65-69 | the record stays; only the mark clears |
| PreferencesSection.PreferencesSection.ResetToDefaults | src/pages/profile-settings/components/PreferencesSection.jsx:71-91 | the initial record returns and the section counts as changed |
| SmartWidgets.WidgetBody | src/pages/dashboard/components/SmartWidgets.jsx:48-71 | the placeholder exactly for an empty list; otherwise a non-empty prefix of at most the limit, the whole list when it fits |
| SmartWidgets.FormatDateBuckets | src/pages/dashboard/components/SmartWidgets.jsx:5-15 | "Today", "Tomorrow", "N days" under a week (negative counts included), then the date |
| SmartWidgets.FormatDate | src/pages/dashboard/components/SmartWidgets.jsx:5-15 | the deadline text; FormatDateBuckets states its buckets (no contract of its own) |
| SmartWidgets.ActivityIcon | src/pages/dashboard/components/SmartWidgets.jsx:17-25 | the generic icon exactly for unknown activity types |
| SmartWidgets.ActivityColor | src/pages/dashboard/components/SmartWidgets.jsx:27-35 | the muted colour exactly for unknown activity types |
| SmartWidgets.IconAndColorFallBackTogether | src/pages/dashboard/components/SmartWidgets.jsx:17-35 | the icon and the colour fall back on the same types |
| PrimaryNavigation.AtMostOneActive | src/components/ui/PrimaryNavigation.jsx:8-40 | at most one item is active on any page |
| PrimaryNavigation.ActiveItem | src/components/ui/PrimaryNavigation.jsx:35-40 | the active item, if any, or -1 exactly when none is active |
| PrimaryNavigation.IsActive | src/components/ui/PrimaryNavigation.jsx:35-40 | whether an item is highlighted; AtMostOneActive and DetailPageHighlightsTasks state its properties (no contract of its own) |
| PrimaryNavigation.DetailPageHighlightsTasks | src/components/ui/PrimaryNavigation.jsx:35-40 | the task-detail page highlights Tasks, and an unlisted route highlights nothing |

## Left out

- The network, `localStorage`, `navigate`, `alert`, `window.confirm`, `console` and timers are left out. A confirmation or an alert text becomes a parameter or a return value.
- The simulated delays are left out. A handler that awaits one is split into the state before and after it, and the composite methods run the halves back to back. Interleavings of overlapping sends are not modelled; a send's history is captured when it begins.
- The sort is modelled as a stable insertion sort. The engine's own algorithm may compare different pairs. For the transitive orders (due date, creation, update, a title collation that is a total order, and priority among known priorities) both give the same sorted permutation up to ties. The priority order with an unknown priority (its rank is `undefined`, so the difference is `NaN` and reads as a tie) and the intended "ai-suggested" order are not transitive, so for them the engine's result is implementation-defined and may differ from the model's.
- `sortOrder` is stored and shown but never read by the list, so the model keeps it only as data.
- Calendar days are UTC. The `toDateString` comparison and the "today" of the time tracker use days since the epoch. Locale-formatted dates and times (`toLocaleDateString`, `toLocaleTimeString`) are parameters.
- String lengths count Unicode scalar values, not UTF-16 code units. Case mapping (`toLowerCase`, `toUpperCase`) is ASCII only.
- The `\b\w` word test of the status badge uses ASCII letters, digits and `_`, as its regular expression does.
- The mock data each component starts with (sample tasks, comments, sessions, insights, settings values beyond those listed) is not modelled; constructors take it from the task or as a parameter.
- `formatFileSize`, `URL.createObjectURL` and the random attachment ids are parameters: the size text, the object URL and the id list are given.
- CSS class maps that only choose colours (priority and status colours on cards and headers) are presentation and not modelled, except those whose fallback the UI relies on (insight and activity colours).
- The subtask progress percentage is floating point and is left out; the completed count it divides is modelled.
- The temperature of each request is kept in tenths, and `max_tokens` is kept as given. Only the model name is not modelled.
- Message timestamps (`new Date()`) are not part of the messages; ids are the clock values given.
- Voice input in the chat box runs on a timer and is left out.
- `handleShareTask` only logs and alerts, so it is left out.
- `handlePromptSelect` only calls the send handler, so it is `AssistantChat.AssistantChat.Send`.
- The quick-action table is a map, so ids such as `toString`, which the JavaScript object literal inherits from its prototype, are not modelled.
- The login `catch` branch and the insights panel `catch` branch cannot be reached, because the awaited calls never throw there; they are not modelled.
- `handleSettingChange` with a sub-key is not called with a scalar category; only the scalar path and the three dedicated handlers are modelled.
- `parseInt` is modelled for decimal and "0x" hexadecimal text without precision limits; very long digit strings that JavaScript rounds are not modelled.
- An invalid date (`NaN`) is not modelled anywhere: the task list, its filters and sorts, the task card and the dashboard widgets all hold a due date as an optional timestamp, so a non-empty due-date text that does not parse cannot be represented.
- A missing text field of the task-detail record is the empty string. So `TaskDescription.TaskDescription.Save` treats a missing description like an empty one, where the source compares against `undefined`.
- The password-change form also sets the transient `isChangingPassword` flag around its delay; only the final state is stated.
- CommentsSection.CommentsSection.Submit: the transient `isSubmitting` flag during the delay is not stated; the method ends with it false, as the handler does.
- QuickAddTask.QuickAdd.Submit: likewise states only the final `isLoading`, which is false.
- TaskManagement.ToggleSetsDone: states the effect on the matching tasks; the untouched tasks are stated by `TaskManagement.ToggledComplete`.
- Common.TrimShape: states only that a non-empty trimmed result has no space at either end; it does not state that the result is a slice of the input.

## Findings

| source | as written | input that shows it | evidently intended | confidence | as-written member | corrected member |
|---|---|---|---|---|---|---|
| src/pages/task-management/index.jsx:216-232 | the "ai-suggested" comparator's last line reads `priorityOrder`, a `const` declared in the `case 'priority'` block of the same `switch`, so reaching it throws a ReferenceError and the page fails to render | two tasks of priority "high", one without a due date, with sort "ai-suggested" | urgent first, then by due date, as its comment says | not executed | TaskManagement.PageThrowsOnAiSuggested | TaskSort.AiSuggestedIntendedOrder |
| src/pages/task-management/index.jsx:300-304 | `handleSaveTask` only replaces tasks whose id matches, and a task created through the "New Task" dialog has no id, so it is lost | open the dialog with "New Task", type a title, press "Create Task" | the new task is added to the list | not executed | TaskManagement.CreateThroughDialogIsLost | TaskManagement.SaveTaskEffect |
| src/pages/task-management/components/TaskFilters.jsx:224-227 | the two `handleFilterChange` calls each spread the same `filters` prop, so the second overwrites the first and the overdue switch stays off | press "Focus on overdue items" with the overdue switch off | overdue on and completed hidden | not executed | TaskFilters.FocusOverdueLosesOverdue | TaskFilters.FocusOverdue |
