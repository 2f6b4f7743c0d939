/** The task list's sort: `Array.prototype.sort` with the page's comparators.
    A comparator may throw; it then returns `None`. */
module TaskSort {
  import opened Common
  import opened Tasks

  /** The message of the error the as-written "ai-suggested" comparator throws. */
  const TdzError: string := "ReferenceError: Cannot access 'priorityOrder' before initialization"

  // ---------------------------------------------------------------------
  // A stable sort driven by a comparator that can fail
  // ---------------------------------------------------------------------

  /** `cmp(a, b) <= 0`: `a` may stay in front of `b`. */
  predicate InOrder<T>(cmp: (T, T) -> Option<int>, a: T, b: T)
  {
    cmp(a, b).Some? && cmp(a, b).value <= 0
  }

  /** Every neighbouring pair is in order. */
  predicate Sorted<T>(s: seq<T>, cmp: (T, T) -> Option<int>)
  {
    forall i :: 0 <= i < |s| - 1 ==> InOrder(cmp, s[i], s[i + 1])
  }

  /** On the elements of `s` the comparator never throws, and whenever it puts
      one element after another it does not also put the second after the first. */
  predicate Consistent<T(==)>(s: seq<T>, cmp: (T, T) -> Option<int>)
  {
    forall a, b :: a in s && b in s ==>
      cmp(a, b).Some? && (cmp(a, b).value > 0 ==> InOrder(cmp, b, a))
  }

  /** Inserts `x`, which came before every element of `sorted`, in front of the
      first element it is not after. */
  function Insert<T>(x: T, sorted: seq<T>, cmp: (T, T) -> Option<int>): (r: Result<seq<T>>)
    ensures r.Ok? ==> multiset(r.value) == multiset(sorted) + multiset{x}
    ensures r.Ok? ==> |r.value| > 0 && (r.value[0] == x || (|sorted| > 0 && r.value[0] == sorted[0]))
  {
    if sorted == [] then Ok([x])
    else
      match cmp(x, sorted[0])
      case None => Err(TdzError)
      case Some(v) =>
        if v > 0 then
          match Insert(x, sorted[1..], cmp)
          case Err(e) => Err(e)
          case Ok(rest) =>
            assert sorted == [sorted[0]] + sorted[1..];
            Ok([sorted[0]] + rest)
        else Ok([x] + sorted)
  }

  /** `s.sort(cmp)` on a copy: insertion sort from the back, so equal elements
      keep their order. The first comparator failure aborts the sort. */
  function Sort<T>(s: seq<T>, cmp: (T, T) -> Option<int>): (r: Result<seq<T>>)
    ensures r.Ok? ==> multiset(r.value) == multiset(s)
  {
    if s == [] then Ok([])
    else
      match Sort(s[1..], cmp)
      case Err(e) => Err(e)
      case Ok(rest) =>
        assert s == [s[0]] + s[1..];
        Insert(s[0], rest, cmp)
  }

  lemma {:induction false} InsertSorted<T>(x: T, sorted: seq<T>, cmp: (T, T) -> Option<int>, all: seq<T>)
    requires Sorted(sorted, cmp) && Consistent(all, cmp)
    requires x in all && forall y :: y in sorted ==> y in all
    ensures Insert(x, sorted, cmp).Ok? && Sorted(Insert(x, sorted, cmp).value, cmp)
  {
    if sorted != [] {
      assert sorted[0] in all;
      if cmp(x, sorted[0]).value > 0 {
        var tail := sorted[1..];
        assert forall y :: y in tail ==> y in sorted;
        InsertSorted(x, tail, cmp, all);
        var rest := Insert(x, tail, cmp).value;
        assert InOrder(cmp, sorted[0], rest[0]);
        var r := [sorted[0]] + rest;
        forall i | 0 <= i < |r| - 1 ensures InOrder(cmp, r[i], r[i + 1]) {
          if i > 0 { assert r[i] == rest[i - 1] && r[i + 1] == rest[i]; }
        }
      }
    }
  }

  lemma {:induction false} SortSortedIn<T>(s: seq<T>, cmp: (T, T) -> Option<int>, all: seq<T>)
    requires Consistent(all, cmp) && forall y :: y in s ==> y in all
    ensures Sort(s, cmp).Ok? && Sorted(Sort(s, cmp).value, cmp)
  {
    if s != [] {
      assert forall y :: y in s[1..] ==> y in s;
      SortSortedIn(s[1..], cmp, all);
      var rest := Sort(s[1..], cmp).value;
      forall y | y in rest ensures y in all {
        assert y in multiset(rest);
        assert y in multiset(s[1..]);
      }
      InsertSorted(s[0], rest, cmp, all);
    }
  }

  /** With a consistent comparator the sort never throws and leaves every
      neighbouring pair in order. */
  lemma SortSorted<T>(s: seq<T>, cmp: (T, T) -> Option<int>)
    requires Consistent(s, cmp)
    ensures Sort(s, cmp).Ok?
    ensures multiset(Sort(s, cmp).value) == multiset(s)
    ensures Sorted(Sort(s, cmp).value, cmp)
  {
    SortSortedIn(s, cmp, s);
  }

  /** A sort that throws had the comparator throw on two of the elements. */
  lemma {:induction false} SortFailsOnlyOnThrow<T>(s: seq<T>, cmp: (T, T) -> Option<int>)
    requires Sort(s, cmp).Err?
    ensures exists a, b :: a in s && b in s && cmp(a, b).None?
  {
    if s != [] {
      match Sort(s[1..], cmp)
      case Err(_) =>
        SortFailsOnlyOnThrow(s[1..], cmp);
        var a, b :| a in s[1..] && b in s[1..] && cmp(a, b).None?;
        assert a in s && b in s;
      case Ok(rest) =>
        var b := InsertFailsOnlyOnThrow(s[0], rest, cmp);
        assert b in multiset(rest);
        assert b in multiset(s[1..]);
        assert s[0] in s && b in s;
    }
  }

  lemma {:induction false} InsertFailsOnlyOnThrow<T>(x: T, sorted: seq<T>, cmp: (T, T) -> Option<int>) returns (b: T)
    requires Insert(x, sorted, cmp).Err?
    ensures b in sorted && cmp(x, b).None?
  {
    assert sorted != [];
    if cmp(x, sorted[0]).None? {
      b := sorted[0];
    } else {
      b := InsertFailsOnlyOnThrow(x, sorted[1..], cmp);
    }
  }

  /** In a sorted sequence every element is in order with every later one when
      the order is transitive on the elements. */
  lemma {:induction false} SortedPairwise<T>(s: seq<T>, cmp: (T, T) -> Option<int>, i: nat, j: nat)
    requires Sorted(s, cmp) && i < j < |s|
    requires forall a, b, c :: InOrder(cmp, a, b) && InOrder(cmp, b, c) ==> InOrder(cmp, a, c)
    ensures InOrder(cmp, s[i], s[j])
    decreases j - i
  {
    if j > i + 1 {
      SortedPairwise(s, cmp, i + 1, j);
    }
  }

  // ---------------------------------------------------------------------
  // The page's comparators
  // ---------------------------------------------------------------------

  /** `{ urgent: 4, high: 3, medium: 2, low: 1 }[priority]`. */
  function PriorityRank(p: string): (r: Option<int>)
    ensures r.Some? <==> p in {"urgent", "high", "medium", "low"}
    ensures r.Some? ==> 1 <= r.value <= 4
  {
    if p == "urgent" then Some(4)
    else if p == "high" then Some(3)
    else if p == "medium" then Some(2)
    else if p == "low" then Some(1)
    else None
  }

  /** Higher rank first. An unknown priority makes the difference NaN, which
      the sort treats as 0. */
  function PriorityCompare(a: Task, b: Task): Option<int>
  {
    if PriorityRank(a.priority).Some? && PriorityRank(b.priority).Some? then
      Some(PriorityRank(b.priority).value - PriorityRank(a.priority).value)
    else Some(0)
  }

  /** Newest creation first. */
  function CreatedCompare(a: Task, b: Task): Option<int>
  {
    Some(b.createdAt - a.createdAt)
  }

  /** `updatedAt || createdAt`. */
  function LastTouched(t: Task): int
  {
    match t.updatedAt
    case Some(u) => u
    case None => t.createdAt
  }

  /** Most recently updated first. */
  function UpdatedCompare(a: Task, b: Task): Option<int>
  {
    Some(LastTouched(b) - LastTouched(a))
  }

  /** Titles by the browser's collation. */
  function TitleCompare(collate: (string, string) -> int): (Task, Task) -> Option<int>
  {
    (a: Task, b: Task) => Some(collate(a.title, b.title))
  }

  /** The default: earliest due date first, undated tasks last. */
  function DueDateCompare(a: Task, b: Task): Option<int>
  {
    if a.dueDate.None? && b.dueDate.None? then Some(0)
    else if a.dueDate.None? then Some(1)
    else if b.dueDate.None? then Some(-1)
    else Some(a.dueDate.value - b.dueDate.value)
  }

  /** "ai-suggested" as written: urgent tasks first, then two dated tasks by
      date; any other pair reaches the priority fallback, which reads
      `priorityOrder` while it is still uninitialised, and throws. */
  function AiSuggestedCompare(a: Task, b: Task): (r: Option<int>)
    ensures r.Some? ==> r == AiSuggestedCompareIntended(a, b)
  {
    if a.priority == "urgent" && b.priority != "urgent" then Some(-1)
    else if b.priority == "urgent" && a.priority != "urgent" then Some(1)
    else if a.dueDate.Some? && b.dueDate.Some? then Some(a.dueDate.value - b.dueDate.value)
    else None
  }

  /** "ai-suggested" as its comment describes it: urgent first, then by due
      date, then by priority rank. */
  function AiSuggestedCompareIntended(a: Task, b: Task): (r: Option<int>)
    ensures r.Some?
    ensures a.priority == "urgent" && b.priority != "urgent" ==> r.value < 0
    ensures b.priority == "urgent" && a.priority != "urgent" ==> r.value > 0
  {
    if a.priority == "urgent" && b.priority != "urgent" then Some(-1)
    else if b.priority == "urgent" && a.priority != "urgent" then Some(1)
    else if a.dueDate.Some? && b.dueDate.Some? then Some(a.dueDate.value - b.dueDate.value)
    else PriorityCompare(a, b)
  }

  /** The comparator the `sortBy` setting selects; any unknown value sorts by
      due date. "ai-suggested" is the comparator as written, the only one
      that can throw. */
  function Comparator(sortBy: string, collate: (string, string) -> int): (cmp: (Task, Task) -> Option<int>)
    ensures sortBy != "ai-suggested" ==> forall a, b :: cmp(a, b).Some?
    ensures sortBy == "ai-suggested" ==> forall a, b :: cmp(a, b).Some? ==> cmp(a, b) == AiSuggestedCompareIntended(a, b)
  {
    if sortBy == "priority" then PriorityCompare
    else if sortBy == "created" then CreatedCompare
    else if sortBy == "updated" then UpdatedCompare
    else if sortBy == "title" then TitleCompare(collate)
    else if sortBy == "ai-suggested" then AiSuggestedCompare
    else DueDateCompare
  }

  /** No two tasks of `s` reach the throwing line of the as-written
      "ai-suggested" comparator. */
  predicate NoAiSuggestedThrow(s: seq<Task>)
  {
    forall a, b :: a in s && b in s ==> AiSuggestedCompare(a, b).Some?
  }

  /** The as-written "ai-suggested" order throws on two tasks of the same
      non-urgent priority when one of them has no due date. */
  lemma AiSuggestedThrows(a: Task, b: Task)
    requires a.priority == "high" && b.priority == "high" && a.dueDate.None?
    ensures AiSuggestedCompare(a, b).None?
    ensures Sort([a, b], AiSuggestedCompare).Err?
  {
    assert [a, b][1..] == [b];
    assert Sort([b], AiSuggestedCompare) == Ok([b]);
  }

  /** The as-written comparator throws exactly on pairs that neither the
      urgency rule nor two due dates decide. */
  lemma AiSuggestedThrowsIff(a: Task, b: Task)
    ensures AiSuggestedCompare(a, b).None? <==>
      ((a.priority == "urgent") == (b.priority == "urgent") && (a.dueDate.None? || b.dueDate.None?))
    ensures AiSuggestedCompare(a, b).Some? ==> AiSuggestedCompare(a, b) == AiSuggestedCompareIntended(a, b)
  {
  }

  /** Every comparator the page uses is consistent on a list of tasks, so the
      page's sort does not throw, except "ai-suggested", which is consistent
      exactly on the lists where it never reaches its throwing line; titles
      need a collation that is antisymmetric in sign, as `localeCompare` is. */
  lemma ComparatorConsistent(s: seq<Task>, sortBy: string, collate: (string, string) -> int)
    requires forall x, y :: collate(x, y) > 0 ==> collate(y, x) <= 0
    ensures sortBy != "ai-suggested" ==> Consistent(s, Comparator(sortBy, collate))
    ensures sortBy == "ai-suggested" ==> (Consistent(s, Comparator(sortBy, collate)) <==> NoAiSuggestedThrow(s))
  {
    var cmp := Comparator(sortBy, collate);
    if sortBy != "ai-suggested" || NoAiSuggestedThrow(s) {
      forall a, b | a in s && b in s
        ensures cmp(a, b).Some? && (cmp(a, b).value > 0 ==> InOrder(cmp, b, a))
      {
        if sortBy == "title" {
          assert cmp(a, b) == Some(collate(a.title, b.title));
          assert cmp(b, a) == Some(collate(b.title, a.title));
        } else if sortBy == "ai-suggested" {
          assert cmp(a, b) == AiSuggestedCompareIntended(a, b);
          assert cmp(b, a) == AiSuggestedCompareIntended(b, a);
        }
      }
    }
  }

  /** Sorting by priority puts higher ranks first among known priorities. */
  lemma PrioritySortOrder(s: seq<Task>)
    ensures Sort(s, PriorityCompare).Ok?
    ensures var r := Sort(s, PriorityCompare).value;
      forall i :: 0 <= i < |r| - 1 && PriorityRank(r[i].priority).Some? && PriorityRank(r[i + 1].priority).Some? ==>
        PriorityRank(r[i].priority).value >= PriorityRank(r[i + 1].priority).value
  {
    SortSorted(s, PriorityCompare);
  }

  /** Sorting by creation puts the newest first throughout. */
  lemma CreatedSortOrder(s: seq<Task>)
    ensures Sort(s, CreatedCompare).Ok?
    ensures var r := Sort(s, CreatedCompare).value;
      forall i, j :: 0 <= i < j < |r| ==> r[i].createdAt >= r[j].createdAt
  {
    SortSorted(s, CreatedCompare);
    var r := Sort(s, CreatedCompare).value;
    forall i, j | 0 <= i < j < |r| ensures r[i].createdAt >= r[j].createdAt {
      SortedPairwise(r, CreatedCompare, i, j);
    }
  }

  /** Sorting by update puts the most recently touched first throughout. */
  lemma UpdatedSortOrder(s: seq<Task>)
    ensures Sort(s, UpdatedCompare).Ok?
    ensures var r := Sort(s, UpdatedCompare).value;
      forall i, j :: 0 <= i < j < |r| ==> LastTouched(r[i]) >= LastTouched(r[j])
  {
    SortSorted(s, UpdatedCompare);
    var r := Sort(s, UpdatedCompare).value;
    forall i, j | 0 <= i < j < |r| ensures LastTouched(r[i]) >= LastTouched(r[j]) {
      SortedPairwise(r, UpdatedCompare, i, j);
    }
  }

  /** The due-date order is transitive. */
  lemma DueDateTransitive()
    ensures forall a, b, c :: InOrder(DueDateCompare, a, b) && InOrder(DueDateCompare, b, c) ==>
      InOrder(DueDateCompare, a, c)
  {
    forall a, b, c | InOrder(DueDateCompare, a, b) && InOrder(DueDateCompare, b, c)
      ensures InOrder(DueDateCompare, a, c)
    {
    }
  }

  /** Sorting by due date: dated tasks in ascending date order, then the undated ones. */
  lemma DueDateSortOrder(s: seq<Task>)
    ensures Sort(s, DueDateCompare).Ok?
    ensures var r := Sort(s, DueDateCompare).value;
      forall i, j :: 0 <= i < j < |r| ==>
        (r[i].dueDate.None? ==> r[j].dueDate.None?) &&
        (r[i].dueDate.Some? && r[j].dueDate.Some? ==> r[i].dueDate.value <= r[j].dueDate.value)
  {
    SortSorted(s, DueDateCompare);
    DueDateTransitive();
    var r := Sort(s, DueDateCompare).value;
    forall i, j | 0 <= i < j < |r|
      ensures (r[i].dueDate.None? ==> r[j].dueDate.None?) &&
        (r[i].dueDate.Some? && r[j].dueDate.Some? ==> r[i].dueDate.value <= r[j].dueDate.value)
    {
      SortedPairwise(r, DueDateCompare, i, j);
    }
  }

  /** The intended "ai-suggested" order never throws and puts urgent tasks first. */
  lemma AiSuggestedIntendedOrder(s: seq<Task>)
    ensures Sort(s, AiSuggestedCompareIntended).Ok?
    ensures var r := Sort(s, AiSuggestedCompareIntended).value;
      forall i :: 0 <= i < |r| - 1 && r[i + 1].priority == "urgent" ==> r[i].priority == "urgent"
  {
    SortSorted(s, AiSuggestedCompareIntended);
  }
}
