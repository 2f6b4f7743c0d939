/** The task record of the task-management page, its filter settings and
    the date predicates that the tab counts, the tabs and the filters share. */
module Tasks {
  import opened Common

  /** Milliseconds in a day and in a minute. */
  const DayMs: int := 86_400_000
  const MinuteMs: int := 60_000

  /** A task of the task list. Dates are millisecond timestamps; a missing or
      unparsable due date is `None` (JavaScript's Invalid Date). A missing
      project is the empty string. */
  datatype Task = Task(
    id: int,
    title: string,
    description: string,
    priority: string,
    status: string,
    dueDate: Option<int>,
    tags: seq<string>,
    assignee: string,
    estimatedTime: string,
    completed: bool,
    project: string,
    createdAt: int,
    updatedAt: Option<int>,
    aiSuggestion: string)

  /** The filter panel's settings. `sortOrder` is stored and shown but never read. */
  datatype Filters = Filters(
    search: string,
    priority: string,
    status: string,
    project: string,
    assignee: string,
    sortBy: string,
    sortOrder: string,
    showOverdue: bool,
    showCompleted: bool,
    dateRange: string)

  /** The settings the page starts with and that "clear all" restores. */
  const InitialFilters: Filters :=
    Filters("", "", "", "", "", "dueDate", "asc", false, true, "")

  /** The calendar day a timestamp falls on (days since the epoch). */
  function Day(ms: int): int
  {
    ms / DayMs
  }

  /** Two timestamps fall on the same day exactly when they lie in the same
      whole-day window. */
  lemma SameDayWindow(a: int, b: int)
    ensures Day(a) == Day(b) <==> (Day(b) * DayMs <= a < Day(b) * DayMs + DayMs)
  {
  }

  /** Due on the current calendar day. */
  predicate DueToday(t: Task, now: int)
  {
    t.dueDate.Some? && Day(t.dueDate.value) == Day(now)
  }

  /** Due later than now and not finished by status. */
  predicate Upcoming(t: Task, now: int)
  {
    t.dueDate.Some? && t.dueDate.value > now && t.status != "completed"
  }

  /** Due earlier than now and not finished by status. */
  predicate Overdue(t: Task, now: int)
  {
    t.dueDate.Some? && t.dueDate.value < now && t.status != "completed"
  }

  /** Finished: either the flag or the status says so. */
  predicate Done(t: Task)
  {
    t.completed || t.status == "completed"
  }

  /** Urgent and not flagged complete. */
  predicate UrgentOpen(t: Task)
  {
    t.priority == "urgent" && !t.completed
  }

  /** A task cannot be both upcoming and overdue, and an overdue or upcoming
      task is never finished by status. */
  lemma UpcomingOverdueDisjoint(t: Task, now: int)
    ensures !(Upcoming(t, now) && Overdue(t, now))
    ensures (Upcoming(t, now) || Overdue(t, now)) ==> t.status != "completed"
  {
  }

  /** Case-insensitive search: the query occurs in the title, the
      description or one of the tags. */
  predicate MatchesSearch(t: Task, query: string)
  {
    var q := Lower(query);
    Includes(Lower(t.title), q) || Includes(Lower(t.description), q)
    || exists i :: 0 <= i < |t.tags| && Includes(Lower(t.tags[i]), q)
  }

  /** The search ignores letter case: a query matches exactly when its
      lower-case form does. */
  lemma SearchIgnoresCase(t: Task, query: string)
    ensures MatchesSearch(t, query) <==> MatchesSearch(t, Lower(query))
  {
    LowerIdempotent(query);
  }

  /** The search matches a task whose title contains the query, whatever its case. */
  lemma SearchFindsTitle(t: Task, query: string, k: nat)
    requires k + |query| <= |t.title| && Lower(t.title[k..k + |query|]) == Lower(query)
    ensures MatchesSearch(t, query)
  {
    LowerSlice(t.title, k, k + |query|);
    IncludesAt(Lower(t.title), Lower(query), k);
  }
}
