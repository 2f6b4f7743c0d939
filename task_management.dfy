/** The task-management page: tab counts, the filtered and sorted task list,
    and the handlers that edit the task list and the selection. */
module TaskManagement {
  import opened Common
  import opened Tasks
  import opened TaskSort
  import opened TaskDetailModal

  // ---------------------------------------------------------------------
  // The filtered list
  // ---------------------------------------------------------------------

  /** The tab's own selection; "all" and unknown tabs keep every task. */
  predicate OnTab(t: Task, tab: string, now: int)
  {
    if tab == "today" then DueToday(t, now)
    else if tab == "upcoming" then Upcoming(t, now)
    else if tab == "completed" then Done(t)
    else true
  }

  /** Every active criterion holds of the task: the tab, the search, each
      non-empty field filter, the overdue switch, and the completed switch. */
  predicate Selected(t: Task, tab: string, f: Filters, now: int)
  {
    OnTab(t, tab, now)
    && (f.search != "" ==> MatchesSearch(t, f.search))
    && (f.priority != "" ==> t.priority == f.priority)
    && (f.status != "" ==> t.status == f.status)
    && (f.project != "" ==> t.project == f.project)
    && (f.assignee != "" ==> t.assignee == f.assignee)
    && (f.showOverdue ==> Overdue(t, now))
    && (!f.showCompleted ==> !Done(t))
  }

  /** One of the page's filter criteria. */
  datatype Criterion =
    | TabIs(tab: string)
    | SearchFor(query: string)
    | PriorityIs(priority: string)
    | StatusIs(status: string)
    | ProjectIs(project: string)
    | AssigneeIs(assignee: string)
    | IsOverdue
    | IsOpen
    | IsUrgentOpen

  predicate Meets(t: Task, c: Criterion, now: int)
  {
    match c
    case TabIs(tab) => OnTab(t, tab, now)
    case SearchFor(q) => MatchesSearch(t, q)
    case PriorityIs(p) => t.priority == p
    case StatusIs(st) => t.status == st
    case ProjectIs(p) => t.project == p
    case AssigneeIs(a) => t.assignee == a
    case IsOverdue => Overdue(t, now)
    case IsOpen => !Done(t)
    case IsUrgentOpen => UrgentOpen(t)
  }

  /** `list.filter(...)` by one criterion. */
  function Keep(s: seq<Task>, c: Criterion, now: int): (r: seq<Task>)
    ensures |r| <= |s| && multiset(r) <= multiset(s)
    ensures forall t :: t in r <==> t in s && Meets(t, c, now)
  {
    if s == [] then []
    else
      var rest := Keep(s[1..], c, now);
      assert s == [s[0]] + s[1..];
      if Meets(s[0], c, now) then [s[0]] + rest else rest
  }

  /** One `if (setting) list = list.filter(...)` step. */
  function Stage(s: seq<Task>, on: bool, c: Criterion, now: int): (r: seq<Task>)
    ensures multiset(r) <= multiset(s)
    ensures forall t :: t in r <==> t in s && (on ==> Meets(t, c, now))
  {
    if on then Keep(s, c, now) else s
  }

  /** A filter step of `getFilteredTasks`: whether its setting is active,
      and the criterion it filters by. */
  datatype Step = Step(on: bool, criterion: Criterion)

  /** The steps in the order the page applies them: the tab's own selection,
      then each field filter, the overdue switch and the completed switch. */
  function Steps(tab: string, f: Filters): (r: seq<Step>)
    ensures |r| == 8
  {
    [Step(tab in {"today", "upcoming", "completed"}, TabIs(tab)),
     Step(f.search != "", SearchFor(f.search)),
     Step(f.priority != "", PriorityIs(f.priority)),
     Step(f.status != "", StatusIs(f.status)),
     Step(f.project != "", ProjectIs(f.project)),
     Step(f.assignee != "", AssigneeIs(f.assignee)),
     Step(f.showOverdue, IsOverdue),
     Step(!f.showCompleted, IsOpen)]
  }

  /** The list after each step, in turn, has filtered it. */
  function Chain(s: seq<Task>, steps: seq<Step>, now: int): seq<Task>
    decreases |steps|
  {
    if steps == [] then s
    else Chain(Stage(s, steps[0].on, steps[0].criterion, now), steps[1..], now)
  }

  /** The task meets the criterion of every active step. */
  predicate MeetsAll(t: Task, steps: seq<Step>, now: int)
  {
    forall i :: 0 <= i < |steps| && steps[i].on ==> Meets(t, steps[i].criterion, now)
  }

  /** A chain of filters keeps exactly the tasks that meet every active
      criterion, and never invents or repeats one. */
  lemma {:induction false} ChainKeeps(s: seq<Task>, steps: seq<Step>, now: int)
    ensures multiset(Chain(s, steps, now)) <= multiset(s)
    ensures forall t :: t in Chain(s, steps, now) <==> t in s && MeetsAll(t, steps, now)
    decreases |steps|
  {
    if steps != [] {
      var a := Stage(s, steps[0].on, steps[0].criterion, now);
      ChainKeeps(a, steps[1..], now);
      forall t ensures MeetsAll(t, steps, now) <==>
        (steps[0].on ==> Meets(t, steps[0].criterion, now)) && MeetsAll(t, steps[1..], now)
      {
        if (steps[0].on ==> Meets(t, steps[0].criterion, now)) && MeetsAll(t, steps[1..], now) {
          forall i | 0 <= i < |steps| && steps[i].on ensures Meets(t, steps[i].criterion, now) {
            if i > 0 {
              assert steps[i] == steps[1..][i - 1];
            }
          }
        }
        if MeetsAll(t, steps, now) {
          forall i | 0 <= i < |steps| - 1 && steps[1..][i].on ensures Meets(t, steps[1..][i].criterion, now) {
            assert steps[1..][i] == steps[i + 1];
          }
        }
      }
    }
  }

  /** Steps that are all switched off leave the list as it is. */
  lemma {:induction false} ChainOff(s: seq<Task>, steps: seq<Step>, now: int)
    requires forall i :: 0 <= i < |steps| ==> !steps[i].on
    ensures Chain(s, steps, now) == s
    decreases |steps|
  {
    if steps != [] {
      assert forall i :: 0 <= i < |steps[1..]| ==> steps[1..][i] == steps[i + 1];
      ChainOff(s, steps[1..], now);
    }
  }

  /** The filter chain of `getFilteredTasks`. */
  function ApplyFilters(tasks: seq<Task>, tab: string, f: Filters, now: int): seq<Task>
  {
    Chain(tasks, Steps(tab, f), now)
  }

  /** Meeting every active step of the page is the selection rule. */
  lemma StepsSelect(t: Task, tab: string, f: Filters, now: int)
    ensures MeetsAll(t, Steps(tab, f), now) <==> Selected(t, tab, f, now)
  {
    if MeetsAll(t, Steps(tab, f), now) {
      MeetsAllSelected(t, tab, f, now);
    }
    if Selected(t, tab, f, now) {
      SelectedMeetsAll(t, tab, f, now);
    }
  }

  lemma MeetsAllSelected(t: Task, tab: string, f: Filters, now: int)
    requires MeetsAll(t, Steps(tab, f), now)
    ensures Selected(t, tab, f, now)
  {
    var st := Steps(tab, f);
    assert OnTab(t, tab, now) by {
      assert st[0].on ==> Meets(t, st[0].criterion, now);
    }
    assert f.search != "" ==> MatchesSearch(t, f.search) by {
      assert st[1].on ==> Meets(t, st[1].criterion, now);
    }
    assert f.priority != "" ==> t.priority == f.priority by {
      assert st[2].on ==> Meets(t, st[2].criterion, now);
    }
    assert f.status != "" ==> t.status == f.status by {
      assert st[3].on ==> Meets(t, st[3].criterion, now);
    }
    assert f.project != "" ==> t.project == f.project by {
      assert st[4].on ==> Meets(t, st[4].criterion, now);
    }
    assert f.assignee != "" ==> t.assignee == f.assignee by {
      assert st[5].on ==> Meets(t, st[5].criterion, now);
    }
    assert f.showOverdue ==> Overdue(t, now) by {
      assert st[6].on ==> Meets(t, st[6].criterion, now);
    }
    assert !f.showCompleted ==> !Done(t) by {
      assert st[7].on ==> Meets(t, st[7].criterion, now);
    }
  }

  lemma SelectedMeetsAll(t: Task, tab: string, f: Filters, now: int)
    requires Selected(t, tab, f, now)
    ensures MeetsAll(t, Steps(tab, f), now)
  {
    var st := Steps(tab, f);
    forall i | 0 <= i < |st| && st[i].on ensures Meets(t, st[i].criterion, now) {
      assert i == 0 || i == 1 || i == 2 || i == 3 || i == 4 || i == 5 || i == 6 || i == 7;
    }
  }

  // ---------------------------------------------------------------------
  // Tab counts
  // ---------------------------------------------------------------------

  /** The badge counts the tabs show; each uses the same test as the tab or
      filter of the same name. */
  datatype TaskCounts = TaskCounts(all: nat, today: nat, upcoming: nat, completed: nat, urgent: nat, overdue: nat)

  function CountsFor(tasks: seq<Task>, now: int): (c: TaskCounts)
    ensures c.today <= c.all && c.upcoming <= c.all && c.completed <= c.all
    ensures c.urgent <= c.all && c.overdue <= c.all
    ensures c.all == |tasks|
  {
    TaskCounts(
      |tasks|,
      |Keep(tasks, TabIs("today"), now)|,
      |Keep(tasks, TabIs("upcoming"), now)|,
      |Keep(tasks, TabIs("completed"), now)|,
      |Keep(tasks, IsUrgentOpen, now)|,
      |Keep(tasks, IsOverdue, now)|)
  }

  lemma {:induction false} KeepComplement(s: seq<Task>, c1: Criterion, c2: Criterion, now: int)
    requires forall t :: Meets(t, c1, now) == !Meets(t, c2, now)
    ensures |Keep(s, c1, now)| + |Keep(s, c2, now)| == |s|
  {
    if s != [] { KeepComplement(s[1..], c1, c2, now); }
  }

  lemma {:induction false} KeepDisjoint(s: seq<Task>, c1: Criterion, c2: Criterion, now: int)
    requires forall t :: !(Meets(t, c1, now) && Meets(t, c2, now))
    ensures |Keep(s, c1, now)| + |Keep(s, c2, now)| <= |s|
  {
    if s != [] { KeepDisjoint(s[1..], c1, c2, now); }
  }

  lemma {:induction false} KeepMonotone(s: seq<Task>, r: seq<Task>, c: Criterion, now: int)
    requires |r| == |s| && forall i :: 0 <= i < |s| && Meets(s[i], c, now) ==> Meets(r[i], c, now)
    ensures |Keep(r, c, now)| >= |Keep(s, c, now)|
  {
    if s != [] { KeepMonotone(s[1..], r[1..], c, now); }
  }

  /** The upcoming and overdue counts never add up to more than all tasks, and
      the completed count and the number of unfinished tasks add up to all. */
  lemma CountsPartition(tasks: seq<Task>, now: int)
    ensures CountsFor(tasks, now).upcoming + CountsFor(tasks, now).overdue <= |tasks|
    ensures CountsFor(tasks, now).completed + |Keep(tasks, IsOpen, now)| == |tasks|
  {
    KeepDisjoint(tasks, TabIs("upcoming"), IsOverdue, now);
    KeepComplement(tasks, TabIs("completed"), IsOpen, now);
  }

  /** `getFilteredTasks()`: the filter chain, then the sort `sortBy` selects.
      The "ai-suggested" order is the comparator as written, so the result is
      an error when that comparator throws (see `TaskSort`). */
  function FilteredTasks(tasks: seq<Task>, tab: string, f: Filters, now: int, collate: (string, string) -> int): (r: Result<seq<Task>>)
    ensures r.Ok? ==> multiset(r.value) == multiset(ApplyFilters(tasks, tab, f, now))
  {
    Sort(ApplyFilters(tasks, tab, f, now), Comparator(f.sortBy, collate))
  }

  /** The filter chain keeps exactly the selected tasks, without inventing
      or repeating any. */
  lemma ApplyFiltersSelects(tasks: seq<Task>, tab: string, f: Filters, now: int)
    ensures var r := ApplyFilters(tasks, tab, f, now);
      multiset(r) <= multiset(tasks) && forall t :: t in r <==> t in tasks && Selected(t, tab, f, now)
  {
    ChainKeeps(tasks, Steps(tab, f), now);
    forall t {
      StepsSelect(t, tab, f, now);
    }
  }

  /** The list shows exactly the tasks that meet every active criterion, as a
      permutation of the filtered list in the order the sort setting asks for.
      Only "ai-suggested" can fail, and only on a list holding two tasks on
      which its comparator throws; without such a pair it succeeds too. */
  lemma FilteredTasksSpec(tasks: seq<Task>, tab: string, f: Filters, now: int, collate: (string, string) -> int)
    requires forall x, y :: collate(x, y) > 0 ==> collate(y, x) <= 0
    ensures var s := ApplyFilters(tasks, tab, f, now);
      (f.sortBy != "ai-suggested" || NoAiSuggestedThrow(s)) ==>
        FilteredTasks(tasks, tab, f, now, collate).Ok?
        && Sorted(FilteredTasks(tasks, tab, f, now, collate).value, Comparator(f.sortBy, collate))
    ensures FilteredTasks(tasks, tab, f, now, collate).Err? ==>
      f.sortBy == "ai-suggested" && !NoAiSuggestedThrow(ApplyFilters(tasks, tab, f, now))
    ensures FilteredTasks(tasks, tab, f, now, collate).Ok? ==>
      var r := FilteredTasks(tasks, tab, f, now, collate).value;
      multiset(r) == multiset(ApplyFilters(tasks, tab, f, now)) && multiset(r) <= multiset(tasks)
      && (forall t :: t in r <==> t in tasks && Selected(t, tab, f, now))
  {
    var s := ApplyFilters(tasks, tab, f, now);
    var cmp := Comparator(f.sortBy, collate);
    ApplyFiltersSelects(tasks, tab, f, now);
    ComparatorConsistent(s, f.sortBy, collate);
    if f.sortBy != "ai-suggested" || NoAiSuggestedThrow(s) {
      SortSorted(s, cmp);
    }
    match Sort(s, cmp)
    case Err(_) =>
      SortFailsOnlyOnThrow(s, cmp);
    case Ok(r) =>
      forall t ensures t in r <==> t in s {
        assert t in r <==> t in multiset(r);
      }
  }

  /** As written, the page cannot show two open high-priority tasks, one of
      them undated, under the "ai-suggested" sort: the sort throws. */
  lemma PageThrowsOnAiSuggested(a: Task, b: Task, now: int, collate: (string, string) -> int)
    requires a.priority == "high" && b.priority == "high" && a.dueDate.None?
    ensures FilteredTasks([a, b], "all", InitialFilters.(sortBy := "ai-suggested"), now, collate).Err?
  {
    var f := InitialFilters.(sortBy := "ai-suggested");
    ChainOff([a, b], Steps("all", f), now);
    AiSuggestedThrows(a, b);
  }

  /** Without any filter the tab shows as many tasks as its badge counts. */
  lemma TabShowsItsCount(tasks: seq<Task>, tab: string, now: int, collate: (string, string) -> int)
    requires forall x, y :: collate(x, y) > 0 ==> collate(y, x) <= 0
    requires tab in {"all", "today", "upcoming", "completed"}
    ensures FilteredTasks(tasks, tab, InitialFilters, now, collate).Ok?
    ensures var n := |FilteredTasks(tasks, tab, InitialFilters, now, collate).value|;
      var c := CountsFor(tasks, now);
      n == (if tab == "all" then c.all else if tab == "today" then c.today
            else if tab == "upcoming" then c.upcoming else c.completed)
  {
    var st := Steps(tab, InitialFilters);
    var s := Stage(tasks, st[0].on, TabIs(tab), now);
    ChainOff(s, st[1..], now);
    assert ApplyFilters(tasks, tab, InitialFilters, now) == s;
    ComparatorConsistent(s, "dueDate", collate);
    SortSorted(s, Comparator("dueDate", collate));
    var r := Sort(s, Comparator("dueDate", collate)).value;
    assert |r| == |multiset(r)| == |multiset(s)| == |s|;
  }

  // ---------------------------------------------------------------------
  // Task-list edits
  // ---------------------------------------------------------------------

  /** `handleToggleComplete`: the matching tasks get the flag and the status
      that goes with it; every other task is untouched. */
  function ToggledComplete(tasks: seq<Task>, id: int, completed: bool): (r: seq<Task>)
    ensures |r| == |tasks|
    ensures forall i :: 0 <= i < |tasks| ==>
      if tasks[i].id == id then
        r[i] == tasks[i].(completed := completed, status := if completed then "completed" else "todo")
      else r[i] == tasks[i]
  {
    seq(|tasks|, i requires 0 <= i < |tasks| =>
      if tasks[i].id == id then
        tasks[i].(completed := completed, status := if completed then "completed" else "todo")
      else tasks[i])
  }

  /** After a toggle the matching tasks count as finished exactly when the
      flag is set, and toggling again the same way changes nothing. */
  lemma ToggleSetsDone(tasks: seq<Task>, id: int, completed: bool)
    ensures forall t :: t in ToggledComplete(tasks, id, completed) && t.id == id ==> Done(t) == completed
    ensures ToggledComplete(ToggledComplete(tasks, id, completed), id, completed) == ToggledComplete(tasks, id, completed)
  {
  }

  /** Marking a task complete never lowers the completed count. */
  lemma CompletingRaisesCount(tasks: seq<Task>, id: int, now: int)
    ensures CountsFor(ToggledComplete(tasks, id, true), now).completed >= CountsFor(tasks, now).completed
  {
    var r := ToggledComplete(tasks, id, true);
    KeepMonotone(tasks, r, TabIs("completed"), now);
  }

  /** `handleDeleteTask` after confirmation: every task with that id goes. */
  function WithoutTask(tasks: seq<Task>, id: int): (r: seq<Task>)
    ensures forall t :: t in r <==> t in tasks && t.id != id
  {
    Filter(tasks, (t: Task) => t.id != id)
  }

  /** Deleting keeps the remaining tasks in their order and number: it works
      piece by piece over a split list, and a single task either stays or goes. */
  lemma WithoutTaskDistributes(a: seq<Task>, b: seq<Task>, id: int)
    ensures WithoutTask(a + b, id) == WithoutTask(a, id) + WithoutTask(b, id)
    ensures forall t :: WithoutTask([t], id) == if t.id == id then [] else [t]
  {
    FilterDistributes(a, b, (t: Task) => t.id != id);
    forall t: Task
      ensures WithoutTask([t], id) == if t.id == id then [] else [t]
    {
      FilterSingle(t, (t: Task) => t.id != id);
    }
  }

  /** `handleDuplicateTask`: a copy with a fresh id from the clock, a marked
      title, reset completion and a new creation time, put in front. */
  function Duplicate(t: Task, now: int): (d: Task)
    ensures d.title == t.title + " (Copy)" && !d.completed && d.status == "todo"
    ensures d.id == now && d.createdAt == now
    ensures d.(id := t.id, title := t.title, completed := t.completed, status := t.status, createdAt := t.createdAt) == t
  {
    t.(id := now, title := t.title + " (Copy)", completed := false, status := "todo", createdAt := now)
  }

  /** `handleSaveTask` as written: the task whose id matches the draft's is
      replaced. A draft of the "New Task" dialog has no id, so nothing is saved. */
  function SavedTasksAsWritten(tasks: seq<Task>, d: Draft): (r: seq<Task>)
    ensures |r| == |tasks|
  {
    match d.base
    case None => tasks
    case Some(b) =>
      seq(|tasks|, i requires 0 <= i < |tasks| => if tasks[i].id == b.id then Merge(b, d.form) else tasks[i])
  }

  /** Creating a task through the dialog loses it: the list is unchanged. */
  lemma CreateThroughDialogIsLost(tasks: seq<Task>, f: TaskForm)
    ensures SavedTasksAsWritten(tasks, Draft(None, f)) == tasks
  {
  }

  /** A task made from the form of the "New Task" dialog, identified and
      stamped like the other tasks the page creates. */
  function NewFromForm(f: TaskForm, now: int): (t: Task)
    ensures FormFor(t) == f || f.priority == "" || f.status == ""
    ensures t.id == now && t.createdAt == now
  {
    Merge(Task(now, "", "", "", "", None, [], "", "", false, "", now, None, ""), f)
  }

  /** Saving as the dialog's "Create Task"/"Update Task" buttons promise: an
      edited task replaces the one with its id; a new one goes in front. */
  function SavedTasks(tasks: seq<Task>, d: Draft, now: int): (r: seq<Task>)
    ensures d.base.Some? ==> r == SavedTasksAsWritten(tasks, d)
    ensures d.base.None? ==> r == [NewFromForm(d.form, now)] + tasks
  {
    match d.base
    case None => [NewFromForm(d.form, now)] + tasks
    case Some(_) => SavedTasksAsWritten(tasks, d)
  }

  /** An edit replaces every task with the edited id by the merged task and
      leaves the others in place; a create adds exactly one task. */
  lemma SaveTaskEffect(tasks: seq<Task>, d: Draft, now: int)
    ensures d.base.Some? ==> forall i :: 0 <= i < |tasks| ==>
      SavedTasks(tasks, d, now)[i] == (if tasks[i].id == d.base.value.id then Merge(d.base.value, d.form) else tasks[i])
    ensures d.base.None? ==> |SavedTasks(tasks, d, now)| == |tasks| + 1 && SavedTasks(tasks, d, now)[1..] == tasks
  {
  }

  /** The bulk actions the page knows; any other leaves the tasks alone. */
  function BulkApplied(tasks: seq<Task>, action: string, ids: seq<int>, confirmed: bool): (r: seq<Task>)
    ensures action == "delete" && confirmed ==> forall t :: t in r <==> t in tasks && t.id !in ids
    ensures action !in {"mark-complete", "mark-incomplete", "set-priority-high", "delete"} ==> r == tasks
    ensures action == "delete" && !confirmed ==> r == tasks
    ensures action in {"mark-complete", "mark-incomplete", "set-priority-high"} ==>
      |r| == |tasks| && forall i :: 0 <= i < |tasks| ==>
        r[i].id == tasks[i].id && (tasks[i].id !in ids ==> r[i] == tasks[i])
    ensures action == "mark-complete" ==> forall i :: 0 <= i < |r| && tasks[i].id in ids ==>
      r[i].completed && r[i].status == "completed" && r[i].(completed := tasks[i].completed, status := tasks[i].status) == tasks[i]
    ensures action == "mark-incomplete" ==> forall i :: 0 <= i < |r| && tasks[i].id in ids ==>
      !r[i].completed && r[i].status == "todo" && r[i].(completed := tasks[i].completed, status := tasks[i].status) == tasks[i]
    ensures action == "set-priority-high" ==> forall i :: 0 <= i < |r| && tasks[i].id in ids ==>
      r[i].priority == "high" && r[i].(priority := tasks[i].priority) == tasks[i]
  {
    if action == "mark-complete" then
      seq(|tasks|, i requires 0 <= i < |tasks| =>
        if tasks[i].id in ids then tasks[i].(completed := true, status := "completed") else tasks[i])
    else if action == "mark-incomplete" then
      seq(|tasks|, i requires 0 <= i < |tasks| =>
        if tasks[i].id in ids then tasks[i].(completed := false, status := "todo") else tasks[i])
    else if action == "set-priority-high" then
      seq(|tasks|, i requires 0 <= i < |tasks| =>
        if tasks[i].id in ids then tasks[i].(priority := "high") else tasks[i])
    else if action == "delete" && confirmed then
      Filter(tasks, (t: Task) => t.id !in ids)
    else tasks
  }

  /** Marking complete finishes every selected task, marking incomplete
      un-finishes every one, and "set-priority-high" raises each to high. On
      every marked task the flag and the status agree, and for every edit
      action the order, the ids and the unselected tasks are kept. */
  lemma BulkActionEffect(tasks: seq<Task>, ids: seq<int>, confirmed: bool)
    ensures forall t :: t in BulkApplied(tasks, "mark-complete", ids, confirmed) && t.id in ids ==> Done(t)
    ensures forall t :: t in BulkApplied(tasks, "mark-incomplete", ids, confirmed) && t.id in ids ==> !Done(t)
    ensures forall t :: t in BulkApplied(tasks, "set-priority-high", ids, confirmed) && t.id in ids ==> t.priority == "high"
    ensures forall action, t :: action in {"mark-complete", "mark-incomplete"} && t in BulkApplied(tasks, action, ids, confirmed) && t.id in ids ==>
      (t.status == "completed" <==> t.completed)
  {
    forall action, t | action in {"mark-complete", "mark-incomplete"} && t in BulkApplied(tasks, action, ids, confirmed) && t.id in ids
      ensures t.status == "completed" <==> t.completed
    {
      var r := BulkApplied(tasks, action, ids, confirmed);
      var i :| 0 <= i < |r| && r[i] == t;
    }
  }

  /** The confirmed bulk delete keeps the remaining tasks in their order and
      number: it works piece by piece over a split list, and a single task
      stays exactly when it is not selected. */
  lemma BulkDeleteDistributes(a: seq<Task>, b: seq<Task>, ids: seq<int>)
    ensures BulkApplied(a + b, "delete", ids, true) == BulkApplied(a, "delete", ids, true) + BulkApplied(b, "delete", ids, true)
    ensures forall t :: BulkApplied([t], "delete", ids, true) == if t.id in ids then [] else [t]
  {
    FilterDistributes(a, b, (t: Task) => t.id !in ids);
    forall t: Task
      ensures BulkApplied([t], "delete", ids, true) == if t.id in ids then [] else [t]
    {
      FilterSingle(t, (t: Task) => t.id !in ids);
    }
  }

  // ---------------------------------------------------------------------
  // The selection
  // ---------------------------------------------------------------------

  predicate Distinct(s: seq<int>)
  {
    forall i, j :: 0 <= i < j < |s| ==> s[i] != s[j]
  }

  /** `handleTaskSelection`: selecting appends, deselecting removes every occurrence. */
  function SelectTask(selected: seq<int>, id: int, on: bool): (r: seq<int>)
    ensures on ==> r == selected + [id]
    ensures !on ==> (forall x :: x in r <==> x in selected && x != id)
  {
    if on then selected + [id] else Filter(selected, x => x != id)
  }

  /** The checkbox toggles only add an id that is not selected yet, so the
      selection never holds an id twice. */
  lemma SelectKeepsDistinct(selected: seq<int>, id: int, on: bool)
    requires Distinct(selected) && (on ==> id !in selected)
    ensures Distinct(SelectTask(selected, id, on))
  {
    if !on { FilterKeepsDistinct(selected, x => x != id); }
  }

  lemma {:induction false} FilterKeepsDistinct(s: seq<int>, p: int -> bool)
    requires Distinct(s)
    ensures Distinct(Filter(s, p))
  {
    if s != [] {
      FilterKeepsDistinct(s[1..], p);
      assert s[0] !in s[1..];
    }
  }

  function Ids(tasks: seq<Task>): (r: seq<int>)
    ensures |r| == |tasks| && forall i :: 0 <= i < |tasks| ==> r[i] == tasks[i].id
  {
    seq(|tasks|, i requires 0 <= i < |tasks| => tasks[i].id)
  }

  /** The select-all box is ticked when as many ids are selected as tasks are shown. */
  function AllSelected(selected: seq<int>, shown: seq<Task>): (checked: bool)
    ensures checked ==> |shown| > 0
  {
    |selected| == |shown| && |shown| > 0
  }

  /** With a duplicate-free selection of shown tasks, the select-all box is
      ticked exactly when every shown task is selected. */
  lemma AllSelectedMeansEveryShown(selected: seq<int>, shown: seq<Task>)
    requires Distinct(selected) && Distinct(Ids(shown))
    requires forall x :: x in selected ==> x in Ids(shown)
    ensures AllSelected(selected, shown) <==> |shown| > 0 && forall t :: t in shown ==> t.id in selected
  {
    SubsetCount(selected, Ids(shown));
    if forall t :: t in shown ==> t.id in selected {
      forall x | x in Ids(shown) ensures x in selected {
        var i :| 0 <= i < |shown| && Ids(shown)[i] == x;
        assert shown[i] in shown;
      }
    }
  }

  /** A duplicate-free list of ids taken from another duplicate-free list is
      no longer than it, and as long only when it holds every id. */
  lemma {:induction false} SubsetCount(a: seq<int>, b: seq<int>)
    requires Distinct(a) && Distinct(b) && forall x :: x in a ==> x in b
    ensures |a| <= |b|
    ensures |a| == |b| <==> forall x :: x in b ==> x in a
  {
    var sa, sb := set x | x in a, set x | x in b;
    DistinctCard(a);
    DistinctCard(b);
    assert sa <= sb;
    var rest := sb - sa;
    assert sb == sa + rest && sa * rest == {};
    assert |sb| == |sa| + |rest|;
    if |a| == |b| {
      assert rest == {};
      forall x | x in b ensures x in a {
        assert x in sb;
      }
    }
  }

  lemma {:induction false} DistinctCard(s: seq<int>)
    requires Distinct(s)
    ensures |set x | x in s| == |s|
  {
    if s != [] {
      DistinctCard(s[1..]);
      assert s[0] !in s[1..];
      assert (set x | x in s) == (set x | x in s[1..]) + {s[0]};
    }
  }

  class TaskManagementPage {
    var tasks: seq<Task>
    var selectedTasks: seq<int>
    var filters: Filters
    var activeTab: string
    var isTaskModalOpen: bool
    var selectedTask: Option<Task>

    constructor (initial: seq<Task>)
      ensures tasks == initial && selectedTasks == [] && filters == InitialFilters
      ensures activeTab == "all" && !isTaskModalOpen && selectedTask == None
    {
      tasks := initial;
      selectedTasks := [];
      filters := InitialFilters;
      activeTab := "all";
      isTaskModalOpen := false;
      selectedTask := None;
    }

    method ChangeTab(tab: string)
      modifies this
      ensures activeTab == tab
      ensures tasks == old(tasks) && selectedTasks == old(selectedTasks) && filters == old(filters)
      ensures isTaskModalOpen == old(isTaskModalOpen) && selectedTask == old(selectedTask)
    {
      activeTab := tab;
    }

    method ChangeFilters(f: Filters)
      modifies this
      ensures filters == f
      ensures tasks == old(tasks) && selectedTasks == old(selectedTasks) && activeTab == old(activeTab)
      ensures isTaskModalOpen == old(isTaskModalOpen) && selectedTask == old(selectedTask)
    {
      filters := f;
    }

    /** `handleAddTask`: the new task goes in front. */
    method AddTask(t: Task)
      modifies this
      ensures tasks == [t] + old(tasks)
      ensures selectedTasks == old(selectedTasks) && filters == old(filters) && activeTab == old(activeTab)
      ensures isTaskModalOpen == old(isTaskModalOpen) && selectedTask == old(selectedTask)
    {
      tasks := [t] + tasks;
    }

    /** `handleEditTask`: the dialog opens on that task. */
    method EditTask(t: Task)
      modifies this
      ensures selectedTask == Some(t) && isTaskModalOpen
      ensures tasks == old(tasks) && selectedTasks == old(selectedTasks)
      ensures filters == old(filters) && activeTab == old(activeTab)
    {
      selectedTask := Some(t);
      isTaskModalOpen := true;
    }

    /** The "New Task" button: the dialog opens on no task. */
    method NewTask()
      modifies this
      ensures selectedTask == None && isTaskModalOpen
      ensures tasks == old(tasks) && selectedTasks == old(selectedTasks)
      ensures filters == old(filters) && activeTab == old(activeTab)
    {
      selectedTask := None;
      isTaskModalOpen := true;
    }

    method CloseTaskModal()
      modifies this
      ensures selectedTask == None && !isTaskModalOpen
      ensures tasks == old(tasks) && selectedTasks == old(selectedTasks)
      ensures filters == old(filters) && activeTab == old(activeTab)
    {
      selectedTask := None;
      isTaskModalOpen := false;
    }

    /** `handleDeleteTask`: only when the user confirms, the task leaves the
        list and the selection. */
    method DeleteTask(t: Task, confirmed: bool)
      modifies this
      ensures confirmed ==> tasks == WithoutTask(old(tasks), t.id)
      ensures confirmed ==> selectedTasks == SelectTask(old(selectedTasks), t.id, false)
      ensures !confirmed ==> tasks == old(tasks) && selectedTasks == old(selectedTasks)
      ensures filters == old(filters) && activeTab == old(activeTab)
      ensures isTaskModalOpen == old(isTaskModalOpen) && selectedTask == old(selectedTask)
    {
      if confirmed {
        tasks := WithoutTask(tasks, t.id);
        selectedTasks := SelectTask(selectedTasks, t.id, false);
      }
    }

    method ToggleComplete(id: int, completed: bool)
      modifies this
      ensures tasks == ToggledComplete(old(tasks), id, completed)
      ensures selectedTasks == old(selectedTasks) && filters == old(filters) && activeTab == old(activeTab)
      ensures isTaskModalOpen == old(isTaskModalOpen) && selectedTask == old(selectedTask)
    {
      tasks := ToggledComplete(tasks, id, completed);
    }

    method DuplicateTask(t: Task, now: int)
      modifies this
      ensures tasks == [Duplicate(t, now)] + old(tasks)
      ensures selectedTasks == old(selectedTasks) && filters == old(filters) && activeTab == old(activeTab)
      ensures isTaskModalOpen == old(isTaskModalOpen) && selectedTask == old(selectedTask)
    {
      tasks := [Duplicate(t, now)] + tasks;
    }

    /** The dialog's save callback, as written: a draft without an id is
        lost (`SavedTasks` is the corrected save). */
    method SaveTask(d: Draft)
      modifies this
      ensures tasks == SavedTasksAsWritten(old(tasks), d)
      ensures selectedTasks == old(selectedTasks) && filters == old(filters) && activeTab == old(activeTab)
      ensures isTaskModalOpen == old(isTaskModalOpen) && selectedTask == old(selectedTask)
    {
      tasks := SavedTasksAsWritten(tasks, d);
    }

    method TaskSelection(id: int, on: bool)
      modifies this
      ensures selectedTasks == SelectTask(old(selectedTasks), id, on)
      ensures tasks == old(tasks) && filters == old(filters) && activeTab == old(activeTab)
      ensures isTaskModalOpen == old(isTaskModalOpen) && selectedTask == old(selectedTask)
    {
      selectedTasks := SelectTask(selectedTasks, id, on);
    }

    /** `handleSelectAllTasks`: selects what the list currently shows, or
        nothing. When the list cannot be computed the handler throws before
        it sets anything, so the selection stays. */
    method SelectAllTasks(on: bool, now: int, collate: (string, string) -> int)
      modifies this
      ensures on && FilteredTasks(tasks, activeTab, filters, now, collate).Ok? ==>
        selectedTasks == Ids(FilteredTasks(tasks, activeTab, filters, now, collate).value)
      ensures on && FilteredTasks(tasks, activeTab, filters, now, collate).Err? ==> selectedTasks == old(selectedTasks)
      ensures !on ==> selectedTasks == []
      ensures tasks == old(tasks) && filters == old(filters) && activeTab == old(activeTab)
      ensures isTaskModalOpen == old(isTaskModalOpen) && selectedTask == old(selectedTask)
    {
      if on {
        match FilteredTasks(tasks, activeTab, filters, now, collate)
        case Ok(shown) => selectedTasks := Ids(shown);
        case Err(_) =>
      } else {
        selectedTasks := [];
      }
    }

    /** `handleBulkAction`: whatever the action, the selection is cleared. */
    method BulkAction(action: string, ids: seq<int>, confirmed: bool)
      modifies this
      ensures tasks == BulkApplied(old(tasks), action, ids, confirmed)
      ensures selectedTasks == []
      ensures filters == old(filters) && activeTab == old(activeTab)
      ensures isTaskModalOpen == old(isTaskModalOpen) && selectedTask == old(selectedTask)
    {
      tasks := BulkApplied(tasks, action, ids, confirmed);
      selectedTasks := [];
    }

    method ClearSelection()
      modifies this
      ensures selectedTasks == []
      ensures tasks == old(tasks) && filters == old(filters) && activeTab == old(activeTab)
      ensures isTaskModalOpen == old(isTaskModalOpen) && selectedTask == old(selectedTask)
    {
      selectedTasks := [];
    }
  }
}
