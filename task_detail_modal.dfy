/** The create/edit task dialog: a form buffer loaded from the task being
    edited, edited field by field, and handed back merged over that task. */
module TaskDetailModal {
  import opened Common
  import opened Tasks

  /** The dialog's form buffer. */
  datatype TaskForm = TaskForm(
    title: string,
    description: string,
    priority: string,
    status: string,
    dueDate: Option<int>,
    tags: seq<string>,
    assignee: string,
    estimatedTime: string,
    completed: bool)

  /** The buffer before any task is loaded. */
  const EmptyForm: TaskForm := TaskForm("", "", "medium", "todo", None, [], "", "", false)

  /** The canned suggestions shown once a task is loaded. */
  const LoadedSuggestions: seq<string> := [
    "Break this task into smaller subtasks",
    "Consider setting a deadline for better productivity",
    "Add relevant tags for better organization"
  ]

  /** One `handleInputChange(field, value)` call. */
  datatype FormEdit =
    | SetTitle(title: string)
    | SetDescription(description: string)
    | SetPriority(priority: string)
    | SetStatus(status: string)
    | SetDueDate(dueDate: Option<int>)
    | SetTags(tags: seq<string>)
    | SetAssignee(assignee: string)
    | SetEstimatedTime(estimatedTime: string)
    | SetCompleted(completed: bool)

  /** What `{ ...task, ...formData }` hands to the save callback: the task
      being edited (none for a new task) and the form laid over it. */
  datatype Draft = Draft(base: Option<Task>, form: TaskForm)

  /** The form loaded from a task: each field, or its default when the
      task's value is empty. */
  function FormFor(t: Task): (f: TaskForm)
    ensures f.priority != "" && f.status != ""
    ensures f.title == t.title && f.description == t.description && f.dueDate == t.dueDate
    ensures f.tags == t.tags && f.completed == t.completed
    ensures f.assignee == t.assignee && f.estimatedTime == t.estimatedTime
    ensures f.priority == (if t.priority == "" then "medium" else t.priority)
    ensures f.status == (if t.status == "" then "todo" else t.status)
  {
    TaskForm(
      t.title, t.description,
      if t.priority == "" then "medium" else t.priority,
      if t.status == "" then "todo" else t.status,
      t.dueDate, t.tags, t.assignee, t.estimatedTime, t.completed)
  }

  /** The form's fields written over the task's; identity, project, dates and
      the assistant's note are the task's own. */
  function Merge(t: Task, f: TaskForm): Task
  {
    t.(title := f.title, description := f.description, priority := f.priority,
       status := f.status, dueDate := f.dueDate, tags := f.tags,
       assignee := f.assignee, estimatedTime := f.estimatedTime, completed := f.completed)
  }

  /** Saving a loaded form unedited gives the task back, as long as the task
      had a priority and a status to load. */
  lemma SaveUneditedKeepsTask(t: Task)
    requires t.priority != "" && t.status != ""
    ensures Merge(t, FormFor(t)) == t
  {
  }

  /** Reopening a saved task shows exactly the form that was saved. */
  lemma ReopenShowsSavedForm(t: Task, f: TaskForm)
    requires f.priority != "" && f.status != ""
    ensures FormFor(Merge(t, f)) == f
    ensures Merge(t, f).id == t.id && Merge(t, f).createdAt == t.createdAt
  {
  }

  /** One field edit. */
  function ApplyEdit(f: TaskForm, e: FormEdit): TaskForm
  {
    match e
    case SetTitle(v) => f.(title := v)
    case SetDescription(v) => f.(description := v)
    case SetPriority(v) => f.(priority := v)
    case SetStatus(v) => f.(status := v)
    case SetDueDate(v) => f.(dueDate := v)
    case SetTags(v) => f.(tags := v)
    case SetAssignee(v) => f.(assignee := v)
    case SetEstimatedTime(v) => f.(estimatedTime := v)
    case SetCompleted(v) => f.(completed := v)
  }

  /** Which field an edit writes. */
  function EditedField(e: FormEdit): nat
  {
    match e
    case SetTitle(_) => 0
    case SetDescription(_) => 1
    case SetPriority(_) => 2
    case SetStatus(_) => 3
    case SetDueDate(_) => 4
    case SetTags(_) => 5
    case SetAssignee(_) => 6
    case SetEstimatedTime(_) => 7
    case SetCompleted(_) => 8
  }

  /** The last write to a field wins, and edits of different fields do not interfere. */
  lemma EditsCommute(f: TaskForm, e1: FormEdit, e2: FormEdit)
    ensures EditedField(e1) == EditedField(e2) ==> ApplyEdit(ApplyEdit(f, e1), e2) == ApplyEdit(f, e2)
    ensures EditedField(e1) != EditedField(e2) ==>
      ApplyEdit(ApplyEdit(f, e1), e2) == ApplyEdit(ApplyEdit(f, e2), e1)
  {
  }

  /** `task?.id` is truthy: a task with a non-zero id is being edited. */
  predicate IsEditing(task: Option<Task>)
  {
    task.Some? && task.value.id != 0
  }

  /** The dialog's heading. */
  function HeaderTitle(task: Option<Task>): (r: string)
    ensures r == "Edit Task" <==> IsEditing(task)
    ensures r == "Edit Task" || r == "New Task"
  {
    if IsEditing(task) then "Edit Task" else "New Task"
  }

  /** The save button's label. */
  function SaveLabel(task: Option<Task>): (r: string)
    ensures r == "Update Task" <==> IsEditing(task)
    ensures r == "Update Task" || r == "Create Task"
  {
    if IsEditing(task) then "Update Task" else "Create Task"
  }

  /** The save button is enabled exactly when the title is not blank. */
  function SaveEnabled(f: TaskForm): (enabled: bool)
    ensures enabled <==> !IsBlank(f.title)
  {
    TrimEmptyIffBlank(f.title);
    Trim(f.title) != ""
  }

  class TaskDetailModal {
    var form: TaskForm
    var isLoading: bool
    var aiSuggestions: seq<string>

    constructor ()
      ensures form == EmptyForm && !isLoading && aiSuggestions == []
    {
      form := EmptyForm;
      isLoading := false;
      aiSuggestions := [];
    }

    /** The effect on a new `task` prop: a task loads the form and the canned
        suggestions; no task leaves the buffer as it was. */
    method TaskChanged(task: Option<Task>)
      modifies this
      ensures task.Some? ==> form == FormFor(task.value) && aiSuggestions == LoadedSuggestions
      ensures task.None? ==> form == old(form) && aiSuggestions == old(aiSuggestions)
      ensures isLoading == old(isLoading)
    {
      if task.Some? {
        form := FormFor(task.value);
        aiSuggestions := LoadedSuggestions;
      }
    }

    method InputChange(e: FormEdit)
      modifies this
      ensures form == ApplyEdit(old(form), e)
      ensures isLoading == old(isLoading) && aiSuggestions == old(aiSuggestions)
    {
      form := ApplyEdit(form, e);
    }

    /** Saving: the merged draft goes to the save callback when there is one
        and loading ends. Closing the dialog is the page's part, modelled by
        `TaskManagement.TaskManagementPage.CloseTaskModal`. */
    method Save(task: Option<Task>, hasOnSave: bool) returns (saved: Option<Draft>)
      modifies this
      ensures saved == (if hasOnSave then Some(Draft(task, old(form))) else None)
      ensures !isLoading && form == old(form) && aiSuggestions == old(aiSuggestions)
    {
      isLoading := true;
      saved := if hasOnSave then Some(Draft(task, form)) else None;
      isLoading := false;
    }
  }
}
