/** The comment thread of the task-detail page. */
module CommentsSection {
  import opened Common
  import opened DetailTask

  const YouAvatar: string := "https://images.unsplash.com/photo-1472099645785-5658abf4ff4e?w=150"

  /** A comment the user posts: by "You" with the user's avatar, not
      edited, stamped with the clock. */
  function NewComment(text: string, now: int, avatar: string): (c: Comment)
    ensures c.author == "You" && !c.isEdited && c.content == text && c.avatar == avatar
    ensures c.id == now && c.timestamp == now
  {
    Comment(now, "You", avatar, text, now, false)
  }

  /** `formatTimestamp` for comments. */
  function FormatTimestamp(date: int, now: int, localeDate: string): string
  {
    RelativeTimestamp(date, now, localeDate)
  }

  class CommentsSection {
    var comments: seq<Comment>
    var newComment: string
    var isSubmitting: bool
    /** The avatar stamped on the user's comments. */
    const avatar: string

    constructor (task: DetailTask)
      ensures comments == task.comments && newComment == "" && !isSubmitting
      ensures avatar == YouAvatar
    {
      avatar := YouAvatar;
      comments := task.comments;
      newComment := "";
      isSubmitting := false;
    }

    method Type(value: string)
      modifies this
      ensures newComment == value && comments == old(comments) && isSubmitting == old(isSubmitting)
    {
      newComment := value;
    }

    /** `handleSubmitComment`: a blank comment changes nothing; otherwise the
        trimmed text is appended as the user's comment, the task is handed on
        with the new thread and the box is cleared. */
    method Submit(task: DetailTask, now: int) returns (update: Option<DetailTask>)
      modifies this
      ensures IsBlank(old(newComment)) ==>
        update == None && comments == old(comments) && newComment == old(newComment)
        && isSubmitting == old(isSubmitting)
      ensures !IsBlank(old(newComment)) ==>
        comments == old(comments) + [NewComment(Trim(old(newComment)), now, avatar)]
        && update == Some(task.(comments := comments))
        && newComment == "" && !isSubmitting
    {
      // `!newComment.trim()` is the blank test (see `TrimEmptyIffBlank`).
      if IsBlank(newComment) {
        update := None;
        return;
      }
      comments := comments + [NewComment(Trim(newComment), now, avatar)];
      update := Some(task.(comments := comments));
      newComment := "";
      isSubmitting := false;
    }
  }

  /** A posted comment is never blank: its text has no surrounding spaces
      and is not empty. */
  lemma PostedCommentIsTrimmed(text: string, now: int, avatar: string)
    requires !IsBlank(text)
    ensures var c := NewComment(Trim(text), now, avatar);
      c.content != [] && !IsSpace(c.content[0]) && !IsSpace(c.content[|c.content| - 1])
  {
    TrimEmptyIffBlank(text);
    TrimShape(text);
  }
}
