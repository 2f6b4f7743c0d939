/** The filter panel: it keeps the search box's text and hands every change
    back to the page as a whole new filter record. */
module TaskFilters {
  import opened Common
  import opened Tasks
  import TaskSort

  datatype TextKey = Search | Priority | Status | Project | Assignee | SortBy | SortOrder | DateRange
  datatype FlagKey = ShowOverdue | ShowCompleted

  function TextOf(f: Filters, k: TextKey): string
  {
    match k
    case Search => f.search
    case Priority => f.priority
    case Status => f.status
    case Project => f.project
    case Assignee => f.assignee
    case SortBy => f.sortBy
    case SortOrder => f.sortOrder
    case DateRange => f.dateRange
  }

  function FlagOf(f: Filters, k: FlagKey): bool
  {
    match k
    case ShowOverdue => f.showOverdue
    case ShowCompleted => f.showCompleted
  }

  /** `handleFilterChange(key, value)` for a text setting: that key takes the
      value, every other setting is copied. */
  function WithText(f: Filters, k: TextKey, v: string): (r: Filters)
    ensures TextOf(r, k) == v
    ensures forall k' :: k' != k ==> TextOf(r, k') == TextOf(f, k')
    ensures forall g :: FlagOf(r, g) == FlagOf(f, g)
  {
    match k
    case Search => f.(search := v)
    case Priority => f.(priority := v)
    case Status => f.(status := v)
    case Project => f.(project := v)
    case Assignee => f.(assignee := v)
    case SortBy => f.(sortBy := v)
    case SortOrder => f.(sortOrder := v)
    case DateRange => f.(dateRange := v)
  }

  /** `handleFilterChange(key, value)` for a switch. */
  function WithFlag(f: Filters, k: FlagKey, v: bool): (r: Filters)
    ensures FlagOf(r, k) == v
    ensures forall g :: g != k ==> FlagOf(r, g) == FlagOf(f, g)
    ensures forall t :: TextOf(r, t) == TextOf(f, t)
  {
    match k
    case ShowOverdue => f.(showOverdue := v)
    case ShowCompleted => f.(showCompleted := v)
  }

  /** A filter record is determined by its settings. */
  lemma FiltersByKeys(f: Filters, g: Filters)
    requires forall k :: TextOf(f, k) == TextOf(g, k)
    requires forall k :: FlagOf(f, k) == FlagOf(g, k)
    ensures f == g
  {
    assert TextOf(f, Search) == TextOf(g, Search) && TextOf(f, Priority) == TextOf(g, Priority);
    assert TextOf(f, Status) == TextOf(g, Status) && TextOf(f, Project) == TextOf(g, Project);
    assert TextOf(f, Assignee) == TextOf(g, Assignee) && TextOf(f, SortBy) == TextOf(g, SortBy);
    assert TextOf(f, SortOrder) == TextOf(g, SortOrder) && TextOf(f, DateRange) == TextOf(g, DateRange);
    assert FlagOf(f, ShowOverdue) == FlagOf(g, ShowOverdue) && FlagOf(f, ShowCompleted) == FlagOf(g, ShowCompleted);
  }

  /** Setting a value that is already there changes nothing. */
  lemma WithTextUnchanged(f: Filters, k: TextKey)
    ensures WithText(f, k, TextOf(f, k)) == f
  {
    FiltersByKeys(WithText(f, k, TextOf(f, k)), f);
  }

  /** `hasActiveFilters()`: anything other than the sort differs from the defaults. */
  predicate HasActiveFilters(f: Filters)
  {
    f.search != "" || f.priority != "" || f.status != "" || f.project != ""
    || f.assignee != "" || f.showOverdue || !f.showCompleted || f.dateRange != ""
  }

  /** The filters are inactive exactly when they equal the defaults apart
      from the sort settings. */
  lemma InactiveIffDefaults(f: Filters)
    ensures !HasActiveFilters(f) <==> f.(sortBy := "dueDate", sortOrder := "asc") == InitialFilters
    ensures !HasActiveFilters(InitialFilters)
  {
  }

  /** The "Active Filters" chips. */
  function ActiveChips(f: Filters): (chips: seq<string>)
    ensures |chips| <= 4
    ensures chips != [] ==> HasActiveFilters(f)
    ensures f.search != "" ==> |chips| > 0 && chips[0] == "Search: \"" + f.search + "\""
  {
    (if f.search != "" then ["Search: \"" + f.search + "\""] else [])
    + (if f.priority != "" then ["Priority: " + f.priority] else [])
    + (if f.status != "" then ["Status: " + f.status] else [])
    + (if f.showOverdue then ["Overdue Only"] else [])
  }

  /** The "Sort by" select shows the stored order, or "dueDate" when none is
      stored; either way it names the order the list is really sorted by. */
  function SortSelectValue(f: Filters): (v: string)
    ensures v != ""
    ensures forall collate :: TaskSort.Comparator(v, collate) == TaskSort.Comparator(f.sortBy, collate)
  {
    if f.sortBy == "" then "dueDate" else f.sortBy
  }

  /** "Show urgent tasks": only urgent tasks. */
  function SuggestUrgent(f: Filters): (r: Filters)
    ensures r.priority == "urgent" && r.(priority := f.priority) == f
  {
    WithText(f, Priority, "urgent")
  }

  /** "Use AI-optimized task ordering". */
  function SuggestAiOrder(f: Filters): (r: Filters)
    ensures r.sortBy == "ai-suggested" && r.(sortBy := f.sortBy) == f
  {
    WithText(f, SortBy, "ai-suggested")
  }

  /** "Focus on overdue items" as written: two changes are each computed from
      the same, stale filter record, and the page keeps only the second. */
  function FocusOverdueAsWritten(f: Filters): (r: Filters)
    ensures r == f.(showCompleted := false)
  {
    var first := WithFlag(f, ShowOverdue, true);
    var second := WithFlag(f, ShowCompleted, false);
    second
  }

  /** The as-written button hides completed tasks but never switches the
      overdue-only filter on. */
  lemma FocusOverdueLosesOverdue(f: Filters)
    requires !f.showOverdue
    ensures !FocusOverdueAsWritten(f).showOverdue
    ensures FocusOverdueAsWritten(f) != FocusOverdue(f)
  {
  }

  /** "Focus on overdue items" as intended: both switches change. */
  function FocusOverdue(f: Filters): (r: Filters)
    ensures r.showOverdue && !r.showCompleted
    ensures forall k :: TextOf(r, k) == TextOf(f, k)
  {
    WithFlag(WithFlag(f, ShowOverdue, true), ShowCompleted, false)
  }

  /** The panel's own state: the text in the search box. */
  class FilterPanel {
    var searchQuery: string

    constructor (filters: Filters)
      ensures searchQuery == filters.search
    {
      searchQuery := filters.search;
    }

    /** Typing in the search box updates the box and emits the new filters. */
    method SearchChange(filters: Filters, value: string) returns (emitted: Filters)
      modifies this
      ensures searchQuery == value
      ensures emitted == WithText(filters, Search, value)
    {
      searchQuery := value;
      emitted := WithText(filters, Search, value);
    }

    /** "Clear All": an empty box and the default filters. */
    method ClearAll() returns (emitted: Filters)
      modifies this
      ensures searchQuery == "" && emitted == InitialFilters && !HasActiveFilters(emitted)
    {
      searchQuery := "";
      emitted := InitialFilters;
    }
  }
}
