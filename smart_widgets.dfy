/** The three dashboard widgets: upcoming deadlines, recent activity and AI
    insights, each a short list or a placeholder. */
module SmartWidgets {
  import opened Common
  import Tasks
  import TaskCard

  /** A widget's body: the rows it shows, or its placeholder text. */
  datatype Body<T> = Placeholder(text: string) | Rows(rows: seq<T>)

  /** The first `limit` items in their own order, or the placeholder when
      there are none. */
  function WidgetBody<T>(items: seq<T>, limit: nat, placeholder: string): (b: Body<T>)
    requires limit > 0
    ensures items == [] <==> b == Placeholder(placeholder)
    ensures items != [] ==> b.Rows? && 0 < |b.rows| <= limit && |b.rows| <= |items| && b.rows == items[..|b.rows|]
    ensures items != [] && |items| <= limit ==> b.rows == items
  {
    if items == [] then Placeholder(placeholder) else Rows(Take(items, limit))
  }

  /** The deadline, activity and insight widgets. */
  function Deadlines<T>(items: seq<T>): Body<T>
  {
    WidgetBody(items, 4, "No upcoming deadlines")
  }

  function Activities<T>(items: seq<T>): Body<T>
  {
    WidgetBody(items, 4, "No recent activity")
  }

  function Insights<T>(items: seq<T>): Body<T>
  {
    WidgetBody(items, 3, "Analyzing your patterns...")
  }

  /** The deadline widget's date text. `localeDate` stands for the
      `toLocaleDateString` text used a week or more ahead. */
  function FormatDate(due: int, now: int, localeDate: string): string
  {
    var d := TaskCard.DiffDays(due, now);
    if d == 0 then "Today"
    else if d == 1 then "Tomorrow"
    else if d < 7 then IntToString(d) + " days"
    else localeDate
  }

  /** The buckets by started days from now: none is "Today", one is
      "Tomorrow", any other count below seven, past dates included, is
      "N days", and the rest is the calendar date. */
  lemma FormatDateBuckets(due: int, now: int, localeDate: string, d: int)
    requires Tasks.DayMs * (d - 1) < due - now <= Tasks.DayMs * d
    ensures d == 0 ==> FormatDate(due, now, localeDate) == "Today"
    ensures d == 1 ==> FormatDate(due, now, localeDate) == "Tomorrow"
    ensures 2 <= d < 7 ==> FormatDate(due, now, localeDate) == NatToString(d) + " days"
    ensures d < 0 ==> FormatDate(due, now, localeDate) == "-" + NatToString(-d) + " days"
    ensures d >= 7 ==> FormatDate(due, now, localeDate) == localeDate
  {
    TaskCard.DiffDaysUnique(due, now, d);
    if d < 0 {
      var s := IntToString(d);
      assert s == [s[0]] + s[1..];
    }
  }

  /** `getActivityIcon`; unknown types get the generic icon. */
  function ActivityIcon(kind: string): (icon: string)
    ensures icon == "Activity" <==> kind !in {"completed", "created", "updated", "deleted"}
  {
    match kind
    case "completed" => "CheckCircle"
    case "created" => "Plus"
    case "updated" => "Edit"
    case "deleted" => "Trash2"
    case _ => "Activity"
  }

  /** `getActivityColor`; unknown types get the muted colour. */
  function ActivityColor(kind: string): (color: string)
    ensures color == "text-muted-foreground" <==> kind !in {"completed", "created", "updated", "deleted"}
  {
    match kind
    case "completed" => "text-success"
    case "created" => "text-primary"
    case "updated" => "text-warning"
    case "deleted" => "text-error"
    case _ => "text-muted-foreground"
  }

  /** The icon and the colour fall back together. */
  lemma IconAndColorFallBackTogether(kind: string)
    ensures (ActivityIcon(kind) == "Activity") == (ActivityColor(kind) == "text-muted-foreground")
  {
  }
}
