/** The task record of the task-detail page and the pieces it is made of.
    Dates are millisecond timestamps; text fields missing from the record
    are the empty string. */
module DetailTask {
  import opened Common

  datatype Subtask = Subtask(id: int, title: string, completed: bool, createdAt: int)

  /** A tracked work session; its duration is in whole seconds. */
  datatype Session = Session(id: int, duration: nat, date: int, description: string)

  datatype Comment = Comment(id: int, author: string, avatar: string, content: string, timestamp: int, isEdited: bool)

  /** An attached file; `size` is the already formatted size text. */
  datatype Attachment = Attachment(id: int, name: string, kind: string, size: string, uploadedBy: string, uploadedAt: int, url: string)

  datatype DetailTask = DetailTask(
    id: string,
    title: string,
    description: string,
    priority: string,
    status: string,
    dueDate: string,
    assignee: string,
    estimatedTime: string,
    totalTime: nat,
    tags: seq<string>,
    createdAt: int,
    updatedAt: int,
    subtasks: seq<Subtask>,
    timeSessions: seq<Session>,
    comments: seq<Comment>,
    attachments: seq<Attachment>)

  const MinuteMs: int := 60_000

  /** `Math.floor((now - date) / 60000)`: whole minutes elapsed. */
  function MinutesSince(date: int, now: int): (m: int)
    ensures m * MinuteMs <= now - date < m * MinuteMs + MinuteMs
  {
    (now - date) / MinuteMs
  }

  /** The relative time shown on comments and attachments. `localeDate`
      stands for the `toLocaleDateString` text used after a week. */
  function RelativeTimestamp(date: int, now: int, localeDate: string): string
  {
    var m := MinutesSince(date, now);
    if m < 1 then "Just now"
    else if m < 60 then IntToString(m) + "m ago"
    else if m < 1440 then IntToString(m / 60) + "h ago"
    else if m < 10080 then IntToString(m / 1440) + "d ago"
    else localeDate
  }

  /** The buckets by elapsed time: under a minute (or in the future) is
      "Just now", then whole minutes up to an hour, whole hours up to a day,
      whole days up to a week, and the calendar date after that. */
  lemma RelativeTimestampBuckets(date: int, now: int, localeDate: string)
    ensures now - date < MinuteMs ==> RelativeTimestamp(date, now, localeDate) == "Just now"
    ensures MinuteMs <= now - date < 60 * MinuteMs ==>
      var n := (now - date) / MinuteMs;
      1 <= n < 60 && RelativeTimestamp(date, now, localeDate) == NatToString(n) + "m ago"
    ensures 60 * MinuteMs <= now - date < 1440 * MinuteMs ==>
      var n := (now - date) / (60 * MinuteMs);
      1 <= n < 24 && RelativeTimestamp(date, now, localeDate) == NatToString(n) + "h ago"
    ensures 1440 * MinuteMs <= now - date < 10080 * MinuteMs ==>
      var n := (now - date) / (1440 * MinuteMs);
      1 <= n < 7 && RelativeTimestamp(date, now, localeDate) == NatToString(n) + "d ago"
    ensures 10080 * MinuteMs <= now - date ==> RelativeTimestamp(date, now, localeDate) == localeDate
  {
    var m := MinutesSince(date, now);
    if 60 * MinuteMs <= now - date {
      MinuteDivisions(now - date);
    }
  }

  /** Whole hours and whole days are whole minutes divided again. */
  lemma MinuteDivisions(x: int)
    requires x >= 0
    ensures x / MinuteMs / 60 == x / (60 * MinuteMs)
    ensures x / MinuteMs / 1440 == x / (1440 * MinuteMs)
  {
  }
}
