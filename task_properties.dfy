/** The properties card of the task-detail page: an edit buffer over six of
    the task's fields. */
module TaskProperties {
  import opened Common
  import opened DetailTask

  /** The edit buffer. */
  datatype PropertiesForm = PropertiesForm(
    priority: string, status: string, dueDate: string,
    assignee: string, estimatedTime: string, tags: seq<string>)

  /** One `handleInputChange(field, value)` call. */
  datatype PropertyEdit =
    | SetPriority(priority: string)
    | SetStatus(status: string)
    | SetDueDate(dueDate: string)
    | SetAssignee(assignee: string)
    | SetEstimatedTime(estimatedTime: string)
    | SetTags(tags: seq<string>)

  /** The buffer loaded from the task, with "medium" and "todo" for a missing
      priority and status. */
  function FormFor(t: DetailTask): (f: PropertiesForm)
    ensures f.priority != "" && f.status != ""
    ensures f.priority == (if t.priority == "" then "medium" else t.priority)
    ensures f.status == (if t.status == "" then "todo" else t.status)
    ensures f.dueDate == t.dueDate && f.assignee == t.assignee
    ensures f.estimatedTime == t.estimatedTime && f.tags == t.tags
  {
    PropertiesForm(OrElse(t.priority, "medium"), OrElse(t.status, "todo"),
      t.dueDate, t.assignee, t.estimatedTime, t.tags)
  }

  /** `{ ...task, ...formData }`: the six buffer fields written over the task. */
  function Saved(t: DetailTask, f: PropertiesForm): (r: DetailTask)
    ensures f.priority != "" && f.status != "" ==> FormFor(r) == f
  {
    t.(priority := f.priority, status := f.status, dueDate := f.dueDate,
       assignee := f.assignee, estimatedTime := f.estimatedTime, tags := f.tags)
  }

  /** Saving changes only the six buffer fields. */
  lemma SavedChangesOnlyBufferFields(t: DetailTask, f: PropertiesForm)
    ensures Saved(t, f).(priority := t.priority, status := t.status, dueDate := t.dueDate,
      assignee := t.assignee, estimatedTime := t.estimatedTime, tags := t.tags) == t
  {
  }

  /** Saving an unedited buffer gives back the task, provided it had a
      priority and a status. */
  lemma SaveUneditedKeepsTask(t: DetailTask)
    requires t.priority != "" && t.status != ""
    ensures Saved(t, FormFor(t)) == t
  {
  }

  function ApplyEdit(f: PropertiesForm, e: PropertyEdit): PropertiesForm
  {
    match e
    case SetPriority(v) => f.(priority := v)
    case SetStatus(v) => f.(status := v)
    case SetDueDate(v) => f.(dueDate := v)
    case SetAssignee(v) => f.(assignee := v)
    case SetEstimatedTime(v) => f.(estimatedTime := v)
    case SetTags(v) => f.(tags := v)
  }

  /** An edit writes its own field and leaves the other five alone. */
  lemma EditChangesOneField(f: PropertiesForm, e: PropertyEdit)
    ensures var g := ApplyEdit(f, e);
      (g.priority == f.priority || e.SetPriority?) && (g.status == f.status || e.SetStatus?)
      && (g.dueDate == f.dueDate || e.SetDueDate?) && (g.assignee == f.assignee || e.SetAssignee?)
      && (g.estimatedTime == f.estimatedTime || e.SetEstimatedTime?) && (g.tags == f.tags || e.SetTags?)
    ensures e.SetPriority? ==> ApplyEdit(f, e).priority == e.priority
    ensures e.SetStatus? ==> ApplyEdit(f, e).status == e.status
    ensures e.SetTags? ==> ApplyEdit(f, e).tags == e.tags
  {
  }

  /** `formatAssigneeName`: the four known people, anyone else "Unassigned". */
  function AssigneeName(assignee: string): (name: string)
    ensures name == "Unassigned" <==> assignee !in {"me", "john", "sarah", "mike"}
  {
    match assignee
    case "me" => "You"
    case "john" => "John Smith"
    case "sarah" => "Sarah Johnson"
    case "mike" => "Mike Chen"
    case _ => "Unassigned"
  }

  /** The status text shown on the detail page; anything unknown reads "To Do". */
  function StatusLabel(status: string): (text: string)
    ensures text == "To Do" <==> status !in {"in-progress", "completed", "review"}
    ensures text in {"In Progress", "Completed", "In Review", "To Do"}
  {
    if status == "in-progress" then "In Progress"
    else if status == "completed" then "Completed"
    else if status == "review" then "In Review"
    else "To Do"
  }

  class TaskProperties {
    var isEditing: bool
    var formData: PropertiesForm

    constructor (task: DetailTask)
      ensures !isEditing && formData == FormFor(task)
    {
      isEditing := false;
      formData := FormFor(task);
    }

    method StartEditing()
      modifies this
      ensures isEditing && formData == old(formData)
    {
      isEditing := true;
    }

    method InputChange(e: PropertyEdit)
      modifies this
      ensures formData == ApplyEdit(old(formData), e) && isEditing == old(isEditing)
    {
      formData := ApplyEdit(formData, e);
    }

    /** `handleSave`: the buffer goes over the task, and editing ends. */
    method Save(task: DetailTask) returns (update: DetailTask)
      modifies this
      ensures update == Saved(task, old(formData)) && !isEditing && formData == old(formData)
    {
      update := Saved(task, formData);
      isEditing := false;
    }

    /** `handleCancel`: the buffer is reloaded from the task, and editing ends. */
    method Cancel(task: DetailTask)
      modifies this
      ensures formData == FormFor(task) && !isEditing
    {
      formData := FormFor(task);
      isEditing := false;
    }
  }
}
