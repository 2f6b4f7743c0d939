/** The header of the task-detail page: the title with its edit buffer and
    the status and priority badges. */
module TaskHeader {
  import opened Common
  import opened DetailTask

  /** Whether saving the buffer updates the task: only a non-blank buffer
      that differs from the stored title, compared before trimming. */
  predicate SavesTitle(buffer: string, task: DetailTask)
  {
    Trim(buffer) != "" && buffer != task.title
  }

  /** The task after a title save: only the title changes, to the trimmed buffer. */
  function TitleSaved(task: DetailTask, buffer: string): (r: DetailTask)
    ensures r.title == Trim(buffer) && r.(title := task.title) == task
  {
    task.(title := Trim(buffer))
  }

  /** A buffer that differs from the title only by leading spaces still
      saves, and stores the same title again. */
  lemma PaddedTitleRewritesSame(task: DetailTask)
    requires task.title != [] && !IsSpace(task.title[0]) && !IsSpace(task.title[|task.title| - 1])
    ensures SavesTitle(" " + task.title, task)
    ensures TitleSaved(task, " " + task.title) == task
  {
    var b := " " + task.title;
    assert b[1..] == task.title;
    assert TrimStart(b) == task.title;
  }

  /** The title line; an empty title reads "Untitled Task". */
  function DisplayTitle(task: DetailTask): (r: string)
    ensures r != ""
    ensures task.title != "" ==> r == task.title
  {
    if task.title == "" then "Untitled Task" else task.title
  }

  /** The priority badge; anything unknown reads "Low Priority". */
  function PriorityLabel(priority: string): (text: string)
    ensures text == "Low Priority" <==> priority !in {"urgent", "high", "medium"}
    ensures text in {"Urgent", "High Priority", "Medium Priority", "Low Priority"}
  {
    if priority == "urgent" then "Urgent"
    else if priority == "high" then "High Priority"
    else if priority == "medium" then "Medium Priority"
    else "Low Priority"
  }

  /** The status badge; anything unknown reads "To Do". */
  function StatusLabel(status: string): (text: string)
    ensures text == "To Do" <==> status !in {"in-progress", "completed", "review"}
    ensures text in {"In Progress", "Completed", "In Review", "To Do"}
  {
    if status == "in-progress" then "In Progress"
    else if status == "completed" then "Completed"
    else if status == "review" then "In Review"
    else "To Do"
  }

  class TaskHeader {
    var isEditingTitle: bool
    var title: string

    constructor (task: DetailTask)
      ensures !isEditingTitle && title == task.title
    {
      isEditingTitle := false;
      title := task.title;
    }

    method StartEditing()
      modifies this
      ensures isEditingTitle && title == old(title)
    {
      isEditingTitle := true;
    }

    method Type(value: string)
      modifies this
      ensures title == value && isEditingTitle == old(isEditingTitle)
    {
      title := value;
    }

    /** `handleTitleSave`: the task is updated only when the buffer saves;
        editing ends either way. */
    method Save(task: DetailTask) returns (update: Option<DetailTask>)
      modifies this
      ensures update == (if SavesTitle(old(title), task) then Some(TitleSaved(task, old(title))) else None)
      ensures !isEditingTitle && title == old(title)
    {
      if Trim(title) != "" && title != task.title {
        update := Some(TitleSaved(task, title));
      } else {
        update := None;
      }
      isEditingTitle := false;
    }

    /** `handleTitleCancel`: the buffer goes back to the stored title. */
    method Cancel(task: DetailTask)
      modifies this
      ensures title == task.title && !isEditingTitle
    {
      title := task.title;
      isEditingTitle := false;
    }
  }
}
