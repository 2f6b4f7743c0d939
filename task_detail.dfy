/** The task-detail page: the task being viewed, the saving flag and the
    time of the last save. The simulated server delay splits every save into
    a start and a finish step. */
module TaskDetailPage {
  import opened Common
  import opened DetailTask

  /** The page's duplicate: a new id from the clock, " (Copy)" after the
      title, back to "todo", fresh dates, and no comments or time sessions. */
  function Duplicated(t: DetailTask, now: nat): (d: DetailTask)
    ensures d.title == t.title + " (Copy)" && d.status == "todo"
    ensures d.id == "task-" + NatToString(now)
    ensures d.comments == [] && d.timeSessions == []
    ensures d.createdAt == now && d.updatedAt == now
  {
    t.(id := "task-" + NatToString(now), title := t.title + " (Copy)", status := "todo",
       createdAt := now, updatedAt := now, comments := [], timeSessions := [])
  }

  /** Everything else is the original's: subtasks, attachments, tags,
      priority, description, due date, assignee, estimate and total time. */
  lemma DuplicateKeepsTheRest(t: DetailTask, now: nat)
    ensures var d := Duplicated(t, now);
      d.(id := t.id, title := t.title, status := t.status, createdAt := t.createdAt,
         updatedAt := t.updatedAt, comments := t.comments, timeSessions := t.timeSessions) == t
  {
  }

  /** A duplicate of a duplicate is told apart by its second " (Copy)". */
  lemma DuplicateTwiceAppendsTwice(t: DetailTask, now1: nat, now2: nat)
    ensures Duplicated(Duplicated(t, now1), now2).title == t.title + " (Copy) (Copy)"
  {
  }

  /** The "last saved" text. `clock` stands for the `toLocaleTimeString` text
      used after an hour. */
  function FormatLastSaved(saved: int, now: int, clock: string): string
  {
    var m := MinutesSince(saved, now);
    if m < 1 then "Saved just now"
    else if m < 60 then "Saved " + IntToString(m) + "m ago"
    else "Saved at " + clock
  }

  /** Under a minute (or a clock that went back) reads "just now", then whole
      minutes up to an hour, then the clock time. */
  lemma FormatLastSavedBuckets(saved: int, now: int, clock: string)
    ensures now - saved < MinuteMs ==> FormatLastSaved(saved, now, clock) == "Saved just now"
    ensures MinuteMs <= now - saved < 60 * MinuteMs ==>
      var n := (now - saved) / MinuteMs;
      1 <= n < 60 && FormatLastSaved(saved, now, clock) == "Saved " + NatToString(n) + "m ago"
    ensures 60 * MinuteMs <= now - saved ==> FormatLastSaved(saved, now, clock) == "Saved at " + clock
  {
    var m := MinutesSince(saved, now);
  }

  class TaskDetailPage {
    var task: DetailTask
    var isSaving: bool
    var lastSaved: int

    constructor (initial: DetailTask, now: int)
      ensures task == initial && !isSaving && lastSaved == now
    {
      task := initial;
      isSaving := false;
      lastSaved := now;
    }

    /** `handleTaskUpdate`, up to the simulated delay: the argument replaces
        the whole task and saving starts. */
    method BeginTaskUpdate(updated: DetailTask)
      modifies this
      ensures task == updated && isSaving && lastSaved == old(lastSaved)
    {
      task := updated;
      isSaving := true;
    }

    /** The end of a save: the time is recorded and saving stops. */
    method FinishSave(now: int)
      modifies this
      ensures task == old(task) && !isSaving && lastSaved == now
    {
      lastSaved := now;
      isSaving := false;
    }

    /** `handleDuplicateTask`, up to the simulated delay. */
    method BeginDuplicate()
      modifies this
      ensures task == old(task) && isSaving && lastSaved == old(lastSaved)
    {
      isSaving := true;
    }

    /** The end of a duplicate: the page shows the copy. */
    method FinishDuplicate(now: nat)
      modifies this
      ensures task == Duplicated(old(task), now) && !isSaving && lastSaved == now
    {
      task := Duplicated(task, now);
      lastSaved := now;
      isSaving := false;
    }
  }
}
