/** The description card of the task-detail page and its edit buffer. */
module TaskDescription {
  import opened Common
  import opened DetailTask

  class TaskDescription {
    var isEditing: bool
    var description: string

    constructor (task: DetailTask)
      ensures !isEditing && description == task.description
    {
      isEditing := false;
      description := task.description;
    }

    method StartEditing()
      modifies this
      ensures isEditing && description == old(description)
    {
      isEditing := true;
    }

    method Type(value: string)
      modifies this
      ensures description == value && isEditing == old(isEditing)
    {
      description := value;
    }

    /** `handleSave`: an unchanged buffer (compared untrimmed) sends nothing;
        any change replaces the description and nothing else. Editing ends
        either way. */
    method Save(task: DetailTask) returns (update: Option<DetailTask>)
      modifies this
      ensures old(description) == task.description ==> update == None
      ensures old(description) != task.description ==>
        update.Some? && update.value.description == old(description)
        && update.value.(description := task.description) == task
      ensures !isEditing && description == old(description)
    {
      if description != task.description {
        update := Some(task.(description := description));
      } else {
        update := None;
      }
      isEditing := false;
    }

    /** `handleCancel`: the buffer goes back to the stored description. */
    method Cancel(task: DetailTask)
      modifies this
      ensures description == task.description && !isEditing
    {
      description := task.description;
      isEditing := false;
    }
  }
}
