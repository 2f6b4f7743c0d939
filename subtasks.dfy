/** The subtask checklist of the task-detail page. */
module SubtasksList {
  import opened Common
  import opened DetailTask

  /** The list with a new, unfinished subtask at the end. */
  function Appended(subs: seq<Subtask>, title: string, id: int, now: int): (r: seq<Subtask>)
    ensures |r| == |subs| + 1 && r[..|subs|] == subs
    ensures r[|subs|] == Subtask(id, title, false, now)
  {
    subs + [Subtask(id, title, false, now)]
  }

  /** The list with the subtasks carrying `id` ticked or unticked. */
  function Toggled(subs: seq<Subtask>, id: int): (r: seq<Subtask>)
    ensures |r| == |subs|
    ensures forall i :: 0 <= i < |subs| ==>
      r[i] == (if subs[i].id == id then subs[i].(completed := !subs[i].completed) else subs[i])
  {
    if subs == [] then []
    else
      var s := subs[0];
      [if s.id == id then s.(completed := !s.completed) else s] + Toggled(subs[1..], id)
  }

  /** Toggling the same subtask twice gives the list back. */
  lemma ToggleTwiceRestores(subs: seq<Subtask>, id: int)
    ensures Toggled(Toggled(subs, id), id) == subs
  {
    var r := Toggled(Toggled(subs, id), id);
    assert forall i :: 0 <= i < |subs| ==> r[i] == subs[i];
  }

  /** Toggling touches nothing but the `completed` flag of the matching subtasks. */
  lemma ToggleOnlyFlipsMatch(subs: seq<Subtask>, id: int, i: int)
    requires 0 <= i < |subs|
    ensures Toggled(subs, id)[i].(completed := subs[i].completed) == subs[i]
    ensures subs[i].id != id ==> Toggled(subs, id)[i] == subs[i]
  {
  }

  /** The list without the subtasks carrying `id`. */
  function Removed(subs: seq<Subtask>, id: int): (r: seq<Subtask>)
    ensures |r| <= |subs|
    ensures forall s :: s in r <==> s in subs && s.id != id
  {
    if subs == [] then []
    else if subs[0].id == id then Removed(subs[1..], id)
    else [subs[0]] + Removed(subs[1..], id)
  }

  /** Removing keeps the other subtasks in their order: it works piece by
      piece over a split list. */
  lemma {:induction false} RemovedDistributes(a: seq<Subtask>, b: seq<Subtask>, id: int)
    ensures Removed(a + b, id) == Removed(a, id) + Removed(b, id)
  {
    if a == [] {
      assert a + b == b;
    } else {
      assert (a + b)[0] == a[0];
      assert (a + b)[1..] == a[1..] + b;
      RemovedDistributes(a[1..], b, id);
    }
  }

  /** A list without the id is left as it is. */
  lemma {:induction false} RemovedAbsent(a: seq<Subtask>, id: int)
    requires forall i :: 0 <= i < |a| ==> a[i].id != id
    ensures Removed(a, id) == a
  {
    if a != [] {
      RemovedAbsent(a[1..], id);
    }
  }

  /** The number of ticked subtasks. */
  function CompletedCount(subs: seq<Subtask>): (n: nat)
    ensures n <= |subs|
    ensures subs == [] ==> n == 0
    ensures n == |subs| <==> forall i :: 0 <= i < |subs| ==> subs[i].completed
  {
    if subs == [] then 0
    else
      var rest := CompletedCount(subs[1..]);
      assert forall i :: 1 <= i < |subs| ==> subs[i] == subs[1..][i - 1];
      (if subs[0].completed then 1 else 0) + rest
  }

  /** Appending an unfinished subtask leaves the count as it was. */
  lemma {:induction false} AppendedKeepsCount(subs: seq<Subtask>, title: string, id: int, now: int)
    ensures CompletedCount(Appended(subs, title, id, now)) == CompletedCount(subs)
  {
    if subs != [] {
      assert Appended(subs, title, id, now)[1..] == Appended(subs[1..], title, id, now);
      AppendedKeepsCount(subs[1..], title, id, now);
    }
  }

  class SubtasksList {
    var subtasks: seq<Subtask>
    var newSubtask: string
    var isAddingSubtask: bool

    constructor (task: DetailTask)
      ensures subtasks == task.subtasks && newSubtask == "" && !isAddingSubtask
    {
      subtasks := task.subtasks;
      newSubtask := "";
      isAddingSubtask := false;
    }

    /** "Add Subtask" opens the input. */
    method StartAdding()
      modifies this
      ensures isAddingSubtask && subtasks == old(subtasks) && newSubtask == old(newSubtask)
    {
      isAddingSubtask := true;
    }

    /** Typing into the add box changes only its text. */
    method Type(value: string)
      modifies this
      ensures newSubtask == value && subtasks == old(subtasks) && isAddingSubtask == old(isAddingSubtask)
    {
      newSubtask := value;
    }

    /** Escape in the add box, or its cancel button: the box closes and its
        text clears; the list is kept. */
    method CancelAdding()
      modifies this
      ensures !isAddingSubtask && newSubtask == "" && subtasks == old(subtasks)
    {
      isAddingSubtask := false;
      newSubtask := "";
    }

    /** `handleAddSubtask`: a blank input adds nothing; otherwise the trimmed
        text is appended and the task is handed on with the new list. */
    method Add(task: DetailTask, now: int) returns (update: Option<DetailTask>)
      modifies this
      ensures IsBlank(old(newSubtask)) ==>
        update == None && subtasks == old(subtasks) && newSubtask == old(newSubtask)
        && isAddingSubtask == old(isAddingSubtask)
      ensures !IsBlank(old(newSubtask)) ==>
        subtasks == Appended(old(subtasks), Trim(old(newSubtask)), now, now)
        && update == Some(task.(subtasks := subtasks))
        && newSubtask == "" && !isAddingSubtask
    {
      // `!newSubtask.trim()` is the blank test (see `TrimEmptyIffBlank`).
      if IsBlank(newSubtask) {
        update := None;
        return;
      }
      subtasks := Appended(subtasks, Trim(newSubtask), now, now);
      update := Some(task.(subtasks := subtasks));
      newSubtask := "";
      isAddingSubtask := false;
    }

    /** `handleToggleSubtask`. */
    method Toggle(task: DetailTask, id: int) returns (update: DetailTask)
      modifies this
      ensures subtasks == Toggled(old(subtasks), id) && update == task.(subtasks := subtasks)
      ensures newSubtask == old(newSubtask) && isAddingSubtask == old(isAddingSubtask)
    {
      subtasks := Toggled(subtasks, id);
      update := task.(subtasks := subtasks);
    }

    /** `handleDeleteSubtask`. */
    method Delete(task: DetailTask, id: int) returns (update: DetailTask)
      modifies this
      ensures subtasks == Removed(old(subtasks), id) && update == task.(subtasks := subtasks)
      ensures newSubtask == old(newSubtask) && isAddingSubtask == old(isAddingSubtask)
    {
      subtasks := Removed(subtasks, id);
      update := task.(subtasks := subtasks);
    }
  }
}
