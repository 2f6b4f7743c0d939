/** The quick-add box above the task list: live suggestions while typing and
    a one-line task creation. */
module QuickAddTask {
  import opened Common
  import opened Tasks

  /** A suggestion row. Picking a completion fills the title with its text;
      the other kinds only log. */
  datatype Suggestion = Suggestion(kind: string, text: string, fillsTitle: bool)

  const Completions: seq<string> := [
    "Complete project documentation",
    "Review team performance metrics",
    "Update client presentation slides",
    "Schedule follow-up meeting with stakeholders"
  ]

  const QuickTaskTip: string := "AI suggests breaking this task into smaller subtasks for better productivity."

  const Schedule := Suggestion("deadline", "Suggest scheduling for tomorrow at 2 PM", false)
  const Estimate := Suggestion("priority", "Set as medium priority with 1-hour estimate", false)
  const MarkUrgent := Suggestion("priority", "Mark as urgent priority", false)

  /** A completion is offered when it contains the input, ignoring case, but
      is not the input itself. */
  predicate CompletionMatches(completion: string, input: string)
  {
    Includes(Lower(completion), Lower(input)) && Lower(completion) != Lower(input)
  }

  function Min(a: nat, b: nat): nat
  {
    if a < b then a else b
  }

  /** The place of a hint in the fixed order; 3 for anything else. */
  function HintRank(s: Suggestion): nat
  {
    if s == Schedule then 0 else if s == Estimate then 1 else if s == MarkUrgent then 2 else 3
  }

  /** The keyword hints, in a fixed order. */
  function Hints(input: string): (r: seq<Suggestion>)
    ensures |r| <= 3
    ensures forall s :: s in r ==> s in {Schedule, Estimate, MarkUrgent}
    ensures (Includes(Lower(input), "meeting") || Includes(Lower(input), "call")) ==> r != [] && r[0] == Schedule
  {
    var lower := Lower(input);
    (if Includes(lower, "meeting") || Includes(lower, "call") then [Schedule] else [])
    + (if Includes(lower, "review") || Includes(lower, "check") then [Estimate] else [])
    + (if Includes(lower, "urgent") || Includes(lower, "asap") then [MarkUrgent] else [])
  }

  /** Each hint is offered exactly when one of its two keywords occurs,
      ignoring case, and the hints come in the fixed order scheduling,
      estimate, urgent, each at most once. */
  lemma HintsExactly(input: string)
    ensures var r := Hints(input);
      var lower := Lower(input);
      (Schedule in r <==> Includes(lower, "meeting") || Includes(lower, "call"))
      && (Estimate in r <==> Includes(lower, "review") || Includes(lower, "check"))
      && (MarkUrgent in r <==> Includes(lower, "urgent") || Includes(lower, "asap"))
      && forall i, j :: 0 <= i < j < |r| ==> HintRank(r[i]) < HintRank(r[j])
  {
  }

  /** The matching completions, in table order. */
  function MatchingCompletions(input: string, table: seq<string>): (r: seq<string>)
    ensures |r| <= |table|
    ensures forall c :: c in r ==> c in table && CompletionMatches(c, input)
    ensures forall c :: c in table && CompletionMatches(c, input) ==> c in r
  {
    if table == [] then []
    else
      var rest := MatchingCompletions(input, table[1..]);
      assert table == [table[0]] + table[1..];
      if CompletionMatches(table[0], input) then [table[0]] + rest else rest
  }

  function AsCompletions(texts: seq<string>): (r: seq<Suggestion>)
    ensures |r| == |texts|
    ensures forall i :: 0 <= i < |texts| ==> r[i] == Suggestion("completion", texts[i], true)
  {
    if texts == [] then [] else [Suggestion("completion", texts[0], true)] + AsCompletions(texts[1..])
  }

  /** `generateAISuggestions(input)`: the keyword hints, then at most two
      completions, cut to three rows. */
  function Suggestions(input: string, table: seq<string>): (r: seq<Suggestion>)
    ensures |r| <= 3
    ensures forall s :: s in r ==> s.fillsTitle == (s.kind == "completion")
    ensures forall s :: s in r && s.kind == "completion" ==> s.text in table && CompletionMatches(s.text, input)
    ensures forall s :: s in r && s.kind != "completion" ==> s in {Schedule, Estimate, MarkUrgent}
  {
    var hints := Hints(input);
    var completions := AsCompletions(Take(MatchingCompletions(input, table), 2));
    var r := Take(hints + completions, 3);
    assert forall s :: s in r ==> s in hints || s in completions;
    r
  }

  /** The rows are all the keyword hints first, then at most two matching
      completions in table order, as many as fit in three rows. */
  lemma SuggestionsLayout(input: string, table: seq<string>)
    ensures var r := Suggestions(input, table);
      var h := Hints(input);
      var m := MatchingCompletions(input, table);
      |h| <= |r| && r[..|h|] == h
      && |r| - |h| <= 2
      && |r| == Min(3, |h| + Min(2, |m|))
      && forall i :: |h| <= i < |r| ==>
        i - |h| < |m| && r[i] == Suggestion("completion", m[i - |h|], true)
  {
    CompletionRows(Hints(input), MatchingCompletions(input, table));
  }

  /** The layout of at most three hints followed by the first two matches,
      cut to three rows. */
  lemma CompletionRows(h: seq<Suggestion>, m: seq<string>)
    requires |h| <= 3
    ensures var r := Take(h + AsCompletions(Take(m, 2)), 3);
      |h| <= |r| && r[..|h|] == h
      && |r| - |h| <= 2
      && |r| == Min(3, |h| + Min(2, |m|))
      && forall i :: |h| <= i < |r| ==>
        i - |h| < |m| && r[i] == Suggestion("completion", m[i - |h|], true)
  {
    var firstTwo := Take(m, 2);
    var completions := AsCompletions(firstTwo);
    var r := Take(h + completions, 3);
    TakeAfter(h, completions, 3);
    forall i | |h| <= i < |r|
      ensures i - |h| < |m| && r[i] == Suggestion("completion", m[i - |h|], true)
    {
      assert r[i] == completions[i - |h|];
      assert firstTwo[i - |h|] == m[i - |h|];
    }
  }

  /** The first `n` of `h + c`, with `h` no longer than `n`: all of `h`, then
      the first elements of `c`. */
  lemma TakeAfter<T>(h: seq<T>, c: seq<T>, n: nat)
    requires |h| <= n
    ensures var r := Take(h + c, n);
      |h| <= |r| && r[..|h|] == h && |r| == Min(n, |h| + |c|)
      && forall i :: |h| <= i < |r| ==> r[i] == c[i - |h|]
  {
    var r := Take(h + c, n);
    assert r[..|h|] == (h + c)[..|h|];
  }

  /** A meeting or a call is always offered a time first. */
  lemma MeetingGetsScheduleFirst(input: string, table: seq<string>)
    requires Includes(Lower(input), "meeting") || Includes(Lower(input), "call")
    ensures Suggestions(input, table) != [] && Suggestions(input, table)[0] == Schedule
  {
  }

  /** Picking a completion never offers that same completion again. */
  lemma PickedCompletionIsNotOfferedAgain(input: string, table: seq<string>, s: Suggestion)
    requires s in Suggestions(input, table) && s.kind == "completion"
    ensures forall t :: t in Suggestions(s.text, table) && t.kind == "completion" ==> t.text != s.text
  {
  }

  /** The effect on the title: suggestions only for more than three characters. */
  function SuggestionsFor(title: string, table: seq<string>): (r: seq<Suggestion>)
    ensures |title| <= 3 ==> r == []
    ensures |r| <= 3
  {
    if |title| > 3 then Suggestions(title, table) else []
  }

  /** The task the box creates, stamped with the clock for id and creation. */
  function NewQuickTask(title: string, now: int): (t: Task)
    ensures t.title == title && t.id == now && t.createdAt == now
    ensures !t.completed && t.status == "todo" && t.dueDate.None? && t.priority == "medium" && t.assignee == "me"
  {
    Task(now, title, "", "medium", "todo", None, [], "me", "", false, "", now, None, QuickTaskTip)
  }

  /** The "Add Task" button is enabled exactly when the title is not blank. */
  function CanSubmit(title: string): (enabled: bool)
    ensures enabled <==> !IsBlank(title)
  {
    TrimEmptyIffBlank(title);
    Trim(title) != ""
  }

  class QuickAdd {
    /** The completion phrases the box offers. */
    const completions: seq<string>
    var isExpanded: bool
    var taskTitle: string
    var isLoading: bool
    var aiSuggestions: seq<Suggestion>

    ghost predicate Valid()
      reads this
    {
      aiSuggestions == SuggestionsFor(taskTitle, completions)
    }

    constructor ()
      ensures Valid() && completions == Completions
      ensures !isExpanded && taskTitle == "" && !isLoading && aiSuggestions == []
    {
      completions := Completions;
      isExpanded := false;
      taskTitle := "";
      isLoading := false;
      aiSuggestions := [];
    }

    method Expand()
      requires Valid()
      modifies this
      ensures Valid() && isExpanded && taskTitle == old(taskTitle) && isLoading == old(isLoading)
    {
      isExpanded := true;
    }

    /** Typing; the effect recomputes the suggestions. */
    method TitleChange(value: string)
      modifies this
      ensures Valid() && taskTitle == value
      ensures isExpanded == old(isExpanded) && isLoading == old(isLoading)
    {
      taskTitle := value;
      aiSuggestions := SuggestionsFor(value, completions);
    }

    /** Clicking a suggestion row: a completion becomes the title. */
    method Pick(s: Suggestion)
      requires Valid()
      modifies this
      ensures Valid()
      ensures taskTitle == (if s.fillsTitle then s.text else old(taskTitle))
      ensures isExpanded == old(isExpanded) && isLoading == old(isLoading)
    {
      if s.fillsTitle {
        TitleChange(s.text);
      }
    }

    /** `handleSubmit`: a blank title is ignored; otherwise the untrimmed title
        becomes a new task and the box resets and collapses. */
    method Submit(now: int) returns (added: Option<Task>)
      requires Valid()
      modifies this
      ensures Valid() && !isLoading
      ensures IsBlank(old(taskTitle)) ==>
        added == None && taskTitle == old(taskTitle) && isExpanded == old(isExpanded)
      ensures !IsBlank(old(taskTitle)) ==>
        added == Some(NewQuickTask(old(taskTitle), now)) && taskTitle == "" && aiSuggestions == [] && !isExpanded
    {
      // `!taskTitle.trim()` is the blank test (see `TrimEmptyIffBlank`).
      if IsBlank(taskTitle) {
        added := None;
        isLoading := false;
        return;
      }
      isLoading := true;
      added := Some(NewQuickTask(taskTitle, now));
      taskTitle := "";
      aiSuggestions := [];
      isExpanded := false;
      isLoading := false;
    }

    method Cancel()
      modifies this
      ensures Valid() && taskTitle == "" && aiSuggestions == [] && !isExpanded && isLoading == old(isLoading)
    {
      taskTitle := "";
      aiSuggestions := [];
      isExpanded := false;
    }
  }
}
