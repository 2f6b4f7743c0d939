/** One card of the task list: the due-date wording, the overdue mark, the
    priority and status badges, the tag strip and the completion box. */
module TaskCard {
  import opened Common
  import opened Tasks

  /** `Math.ceil((due - now) / dayMs)`, in integers: the number of started
      days from now to the due date. */
  function DiffDays(due: int, now: int): (d: int)
    ensures DayMs * (d - 1) < due - now <= DayMs * d
  {
    -((now - due) / DayMs)
  }

  /** The ceiling is the only integer with that property. */
  lemma DiffDaysUnique(due: int, now: int, d: int)
    requires DayMs * (d - 1) < due - now <= DayMs * d
    ensures d == DiffDays(due, now)
  {
    var e := DiffDays(due, now);
    assert DayMs * (e - 1) < DayMs * d && DayMs * (d - 1) < DayMs * e;
  }

  /** The wording of a due date. `shortDate` stands for the
      `toLocaleDateString` text used beyond a week. */
  function FormatDate(due: Option<int>, now: int, shortDate: string): (r: string)
    ensures due.None? ==> r == ""
  {
    match due
    case None => ""
    case Some(date) =>
      var d := DiffDays(date, now);
      if d == 0 then "Today"
      else if d == 1 then "Tomorrow"
      else if d == -1 then "Yesterday"
      else if d < 0 then IntToString(if d < 0 then -d else d) + " days overdue"
      else if d <= 7 then IntToString(d) + " days left"
      else shortDate
  }

  /** The wording by how far the due date lies from now: up to a day before
      now is today, up to a day after is tomorrow, the day before that is
      yesterday; older dates count their days overdue, dates within a week
      count the days left, and later ones show the calendar date. */
  lemma FormatDateBuckets(due: int, now: int, shortDate: string)
    ensures now - DayMs < due <= now ==> FormatDate(Some(due), now, shortDate) == "Today"
    ensures now < due <= now + DayMs ==> FormatDate(Some(due), now, shortDate) == "Tomorrow"
    ensures now - 2 * DayMs < due <= now - DayMs ==> FormatDate(Some(due), now, shortDate) == "Yesterday"
    ensures due <= now - 2 * DayMs ==>
      var n := -DiffDays(due, now);
      n >= 2 && FormatDate(Some(due), now, shortDate) == NatToString(n) + " days overdue"
    ensures now + DayMs < due <= now + 7 * DayMs ==>
      var n := DiffDays(due, now);
      2 <= n <= 7 && FormatDate(Some(due), now, shortDate) == NatToString(n) + " days left"
    ensures now + 7 * DayMs < due ==> FormatDate(Some(due), now, shortDate) == shortDate
  {
    var d := DiffDays(due, now);
    if now - DayMs < due <= now {
      DiffDaysUnique(due, now, 0);
    } else if now < due <= now + DayMs {
      DiffDaysUnique(due, now, 1);
    } else if now - 2 * DayMs < due <= now - DayMs {
      DiffDaysUnique(due, now, -1);
    } else if due <= now - 2 * DayMs {
      assert d <= -2;
    } else if due <= now + 7 * DayMs {
      assert 2 <= d <= 7;
    } else {
      assert d > 7;
    }
  }

  /** `isOverdue(date)`: dated, before now, and not completed by status. */
  predicate IsOverdue(t: Task, now: int)
  {
    match t.dueDate
    case None => false
    case Some(date) => date < now && t.status != "completed"
  }

  /** The card's overdue mark agrees with the page's overdue filter, so it is
      never shown without a date or on a task completed by status. */
  lemma IsOverdueAgreesWithFilter(t: Task, now: int)
    ensures IsOverdue(t, now) <==> Overdue(t, now)
    ensures t.dueDate.None? || t.status == "completed" ==> !IsOverdue(t, now)
  {
  }

  /** The completion box is ticked when either the flag or the status says done. */
  function Checked(t: Task): (checked: bool)
    ensures checked <==> Done(t)
  {
    t.completed || t.status == "completed"
  }

  /** The priority badge: the first letter upper-cased, the rest as stored. */
  function PriorityLabel(p: string): (r: string)
    ensures |r| == |p|
    ensures p != [] ==> r[0] == UpperChar(p[0]) && r[1..] == p[1..]
  {
    if p == [] then [] else [UpperChar(p[0])] + p[1..]
  }

  /** The index of the first `c` in `s`, or `|s|` when there is none. */
  function FirstIndex(s: string, c: char): (k: nat)
    ensures k <= |s|
    ensures k < |s| ==> s[k] == c
    ensures forall i :: 0 <= i < k ==> s[i] != c
  {
    if s == [] then 0
    else if s[0] == c then 0
    else 1 + FirstIndex(s[1..], c)
  }

  /** `s.replace('-', ' ')`: only the first dash becomes a space. */
  function ReplaceFirstDash(s: string): (r: string)
    ensures |r| == |s|
    ensures forall i :: 0 <= i < |s| ==> r[i] == (if i == FirstIndex(s, '-') then ' ' else s[i])
  {
    var k := FirstIndex(s, '-');
    if k == |s| then s else s[..k] + " " + s[k + 1..]
  }

  /** A character that regular expressions count as part of a word. */
  predicate IsWordChar(c: char)
  {
    'a' <= c <= 'z' || 'A' <= c <= 'Z' || '0' <= c <= '9' || c == '_'
  }

  /** Position `i` starts a word (`\b\w`), given whether the text before `s`
      ended inside a word. */
  predicate WordStartAfter(s: string, i: int, prevWord: bool)
    requires 0 <= i < |s|
  {
    IsWordChar(s[i]) && !(if i == 0 then prevWord else IsWordChar(s[i - 1]))
  }

  /** Past the first character, word starts are those of the rest of the text. */
  lemma WordStartShift(s: string, prevWord: bool)
    requires s != []
    ensures forall i :: 1 <= i < |s| ==>
      WordStartAfter(s, i, prevWord) == WordStartAfter(s[1..], i - 1, IsWordChar(s[0]))
  {
    forall i | 1 <= i < |s|
      ensures WordStartAfter(s, i, prevWord) == WordStartAfter(s[1..], i - 1, IsWordChar(s[0]))
    {
      assert s[1..][i - 1] == s[i];
      if i > 1 { assert s[1..][i - 2] == s[i - 1]; }
    }
  }

  /** Upper-cases the first letter of every word. */
  function CapitalizeFrom(s: string, prevWord: bool): (r: string)
    ensures |r| == |s|
    ensures forall i :: 0 <= i < |s| ==>
      r[i] == (if WordStartAfter(s, i, prevWord) then UpperChar(s[i]) else s[i])
  {
    if s == [] then []
    else
      var head := if IsWordChar(s[0]) && !prevWord then UpperChar(s[0]) else s[0];
      var rest := CapitalizeFrom(s[1..], IsWordChar(s[0]));
      WordStartShift(s, prevWord);
      [head] + rest
  }

  /** `s.replace(/\b\w/g, l => l.toUpperCase())`. */
  function Capitalize(s: string): (r: string)
    ensures |r| == |s|
    ensures forall i :: 0 <= i < |s| ==>
      r[i] == (if WordStartAfter(s, i, false) then UpperChar(s[i]) else s[i])
  {
    CapitalizeFrom(s, false)
  }

  /** The status badge: the first dash becomes a space, then every word is capitalised. */
  function StatusLabel(status: string): (r: string)
    ensures |r| == |status|
  {
    Capitalize(ReplaceFirstDash(status))
  }

  /** Only the first dash separates words: every other character keeps its
      place, upper-cased when it starts a word. */
  lemma StatusLabelShape(status: string, i: int)
    requires 0 <= i < |status|
    ensures i == FirstIndex(status, '-') ==> StatusLabel(status)[i] == ' '
    ensures i != FirstIndex(status, '-') ==>
      StatusLabel(status)[i] == (if WordStartAfter(ReplaceFirstDash(status), i, false) then UpperChar(status[i]) else status[i])
  {
  }

  /** The first letter of a status is always shown upper-case. */
  lemma StatusLabelStartsUpper(status: string)
    requires status != [] && 'a' <= status[0] <= 'z'
    ensures 'A' <= StatusLabel(status)[0] <= 'Z'
  {
    assert ReplaceFirstDash(status)[0] == status[0];
  }

  /** The tags shown on the card: the first three. */
  function VisibleTags(tags: seq<string>): (r: seq<string>)
    ensures |r| <= 3 && |r| <= |tags| && r == tags[..|r|]
    ensures |r| == |tags| <==> |tags| <= 3
  {
    Take(tags, 3)
  }

  /** The "+N more" note, present only when some tags are hidden. */
  function MoreTagsLabel(tags: seq<string>): (r: Option<string>)
    ensures r.Some? <==> |tags| > 3
    ensures r.Some? ==> r.value == "+" + NatToString(|tags| - 3) + " more"
  {
    if |tags| > 3 then Some("+" + NatToString(|tags| - 3) + " more") else None
  }

  /** The visible tags and the count in the note together account for every tag. */
  lemma TagsAccountedFor(tags: seq<string>)
    ensures MoreTagsLabel(tags).None? ==> VisibleTags(tags) == tags
    ensures MoreTagsLabel(tags).Some? ==> |VisibleTags(tags)| + (|tags| - 3) == |tags|
  {
  }
}
