/** The tab strip of the task page: four tabs with count badges and one
    contextual banner under them. */
module TaskTabs {
  import opened Common
  import Tasks
  import TaskManagement

  /** The counts the strip is given; any of them may be missing. */
  datatype CountsProp = CountsProp(
    all: Option<nat>, today: Option<nat>, upcoming: Option<nat>,
    completed: Option<nat>, urgent: Option<nat>, overdue: Option<nat>)

  /** One tab: its id, its caption and the count it shows. */
  datatype Tab = Tab(id: string, caption: string, count: nat)

  /** `count || 0`: a missing count is zero. */
  function OrZero(c: Option<nat>): (n: nat)
    ensures c.None? ==> n == 0
    ensures c.Some? ==> n == c.value
  {
    match c
    case None => 0
    case Some(v) => v
  }

  /** The counts the page passes: all of them present. */
  function FromPage(c: TaskManagement.TaskCounts): CountsProp
  {
    CountsProp(Some(c.all), Some(c.today), Some(c.upcoming), Some(c.completed), Some(c.urgent), Some(c.overdue))
  }

  /** The four tabs, in their fixed order. */
  function Tabs(counts: CountsProp): (tabs: seq<Tab>)
    ensures |tabs| == 4
    ensures tabs[0].id == "all" && tabs[1].id == "today" && tabs[2].id == "upcoming" && tabs[3].id == "completed"
    ensures tabs[0].count == OrZero(counts.all) && tabs[1].count == OrZero(counts.today)
    ensures tabs[2].count == OrZero(counts.upcoming) && tabs[3].count == OrZero(counts.completed)
  {
    [ Tab("all", "All Tasks", OrZero(counts.all)),
      Tab("today", "Today", OrZero(counts.today)),
      Tab("upcoming", "Upcoming", OrZero(counts.upcoming)),
      Tab("completed", "Completed", OrZero(counts.completed)) ]
  }

  /** Each tab of the page's strip shows the size of the list that tab selects. */
  lemma TabsShowPageCounts(tasks: seq<Tasks.Task>, now: int)
    ensures var tabs := Tabs(FromPage(TaskManagement.CountsFor(tasks, now)));
      tabs[0].count == |tasks|
      && tabs[1].count == |TaskManagement.Keep(tasks, TaskManagement.TabIs("today"), now)|
      && tabs[2].count == |TaskManagement.Keep(tasks, TaskManagement.TabIs("upcoming"), now)|
      && tabs[3].count == |TaskManagement.Keep(tasks, TaskManagement.TabIs("completed"), now)|
  {
  }

  /** A count badge capped at `cap`: none for zero, the exact count up to the
      cap, and the cap followed by '+' above it. */
  function Badge(count: nat, cap: nat): (r: Option<string>)
    ensures r.None? <==> count == 0
    ensures r.Some? && count > cap ==> r.value == NatToString(cap) + "+"
    ensures r.Some? && count <= cap ==> r.value == NatToString(count)
  {
    if count > 0 then Some(if count > cap then NatToString(cap) + "+" else NatToString(count)) else None
  }

  /** The desktop badge caps at 99. */
  function DesktopBadge(count: nat): Option<string>
  {
    Badge(count, 99)
  }

  /** The mobile badge caps at 9. */
  function MobileBadge(count: nat): Option<string>
  {
    Badge(count, 9)
  }

  /** A badge without the '+' gives the count back exactly; one with it
      means the count is over the cap. */
  lemma {:induction false} BadgeReadsBack(count: nat, cap: nat)
    requires Badge(count, cap).Some?
    ensures var b := Badge(count, cap).value;
      (b[|b| - 1] == '+' <==> count > cap)
      && (count <= cap ==> (forall i :: 0 <= i < |b| ==> IsDigit(b[i])) && DigitsValue(b) == count)
  {
    var b := Badge(count, cap).value;
    if count <= cap {
      NatToStringRoundTrip(count);
      assert IsDigit(b[|b| - 1]);
    }
  }

  /** The plural ending used by the banners. */
  function Plural(n: nat): string
  {
    if n > 1 then "s" else ""
  }

  /** The banner under the strip: urgent tasks on the "all" tab, overdue ones
      on "today", finished ones on "completed", each only for a positive count. */
  function Banner(activeTab: string, counts: CountsProp): (r: Option<string>)
    ensures r.Some? ==> activeTab in {"all", "today", "completed"}
    ensures activeTab == "all" ==> (r.Some? <==> OrZero(counts.urgent) > 0)
    ensures activeTab == "today" ==> (r.Some? <==> OrZero(counts.overdue) > 0)
    ensures activeTab == "completed" ==> (r.Some? <==> OrZero(counts.completed) > 0)
  {
    if activeTab == "all" && OrZero(counts.urgent) > 0 then
      var n := OrZero(counts.urgent);
      Some("AI suggests focusing on " + NatToString(n) + " urgent task" + Plural(n) + " first")
    else if activeTab == "today" && OrZero(counts.overdue) > 0 then
      var n := OrZero(counts.overdue);
      Some(NatToString(n) + " overdue task" + Plural(n) + " need immediate attention")
    else if activeTab == "completed" && OrZero(counts.completed) > 0 then
      var n := OrZero(counts.completed);
      Some("Great progress! You've completed " + NatToString(n) + " task" + Plural(n))
    else None
  }

  /** `t` holds, from position `k`, the numeral of `n`, which reads back as `n`,
      followed by `word`; `e` is where the word ends. */
  predicate NamesCountAt(t: string, k: nat, n: nat, word: string)
  {
    var e := k + |NatToString(n)| + |word|;
    e <= |t| && t[k..k + |NatToString(n)|] == NatToString(n)
    && DigitsValue(t[k..k + |NatToString(n)|]) == n && t[k + |NatToString(n)|..e] == word
  }

  /** The middle piece of a three-part string sits right after the first. */
  lemma Middle(a: string, b: string, c: string)
    ensures (a + b + c)[|a|..|a| + |b|] == b
  {
    assert (a + b + c)[|a|..|a| + |b|] == (a + b)[|a|..];
  }

  /** The urgent banner names the urgent count, and "task" takes the
      plural "s" exactly when that count is above one. */
  lemma UrgentBannerText(counts: CountsProp)
    requires OrZero(counts.urgent) > 0
    ensures var n := OrZero(counts.urgent);
      var t := Banner("all", counts).value;
      var e := 24 + |NatToString(n)| + 12;
      NamesCountAt(t, 24, n, " urgent task") && e < |t| && (t[e] == 's' <==> n > 1)
  {
    var n := OrZero(counts.urgent);
    var d := NatToString(n);
    var t := Banner("all", counts).value;
    var prefix := "AI suggests focusing on ";
    assert |prefix| == 24;
    assert t == prefix + d + " urgent task" + (Plural(n) + " first");
    Middle(prefix, d, " urgent task" + (Plural(n) + " first"));
    Middle(prefix + d, " urgent task", Plural(n) + " first");
    NatToStringRoundTrip(n);
  }

  /** The overdue banner opens with the overdue count, and "task" takes the
      plural "s" exactly when that count is above one. */
  lemma OverdueBannerText(counts: CountsProp)
    requires OrZero(counts.overdue) > 0
    ensures var n := OrZero(counts.overdue);
      var t := Banner("today", counts).value;
      var e := |NatToString(n)| + 13;
      NamesCountAt(t, 0, n, " overdue task") && e < |t| && (t[e] == 's' <==> n > 1)
  {
    var n := OrZero(counts.overdue);
    var d := NatToString(n);
    var t := Banner("today", counts).value;
    assert t == "" + d + " overdue task" + (Plural(n) + " need immediate attention");
    Middle("", d, " overdue task" + (Plural(n) + " need immediate attention"));
    Middle("" + d, " overdue task", Plural(n) + " need immediate attention");
    NatToStringRoundTrip(n);
  }

  /** The completed banner names the completed count and ends with "task",
      with the plural "s" exactly when that count is above one. */
  lemma CompletedBannerText(counts: CountsProp)
    requires OrZero(counts.completed) > 0
    ensures var n := OrZero(counts.completed);
      var t := Banner("completed", counts).value;
      var e := 33 + |NatToString(n)| + 5;
      NamesCountAt(t, 33, n, " task") && |t| == (if n > 1 then e + 1 else e) && (n > 1 ==> t[e] == 's')
  {
    var n := OrZero(counts.completed);
    var d := NatToString(n);
    var t := Banner("completed", counts).value;
    var prefix := "Great progress! You've completed ";
    assert |prefix| == 33;
    assert t == prefix + d + " task" + Plural(n);
    Middle(prefix, d, " task" + Plural(n));
    Middle(prefix + d, " task", Plural(n));
    NatToStringRoundTrip(n);
  }

  /** A single urgent task is named without the plural ending. */
  lemma UrgentBannerSingular(counts: CountsProp)
    requires counts.urgent == Some(1)
    ensures Banner("all", counts) == Some("AI suggests focusing on 1 urgent task first")
  {
    assert NatToString(1) == "1";
    assert Plural(1) == "";
    assert "AI suggests focusing on " + "1" + " urgent task" + "" + " first" == "AI suggests focusing on 1 urgent task first";
  }
}
