/** The attachments list of the task-detail page. */
module AttachmentsSection {
  import opened Common
  import opened DetailTask

  /** A file picked or dropped by the user. `sizeText` stands for the
      formatted size and `objectUrl` for the browser's object URL. */
  datatype FileInfo = FileInfo(name: string, mimeType: string, sizeText: string, objectUrl: string)

  /** The kind an uploaded file is filed under, from its MIME type. */
  function KindOf(mimeType: string): (kind: string)
    ensures kind in {"image", "pdf", "document"}
    ensures kind == "image" <==> Includes(mimeType, "image")
    ensures kind == "pdf" <==> !Includes(mimeType, "image") && Includes(mimeType, "pdf")
  {
    if Includes(mimeType, "image") then "image"
    else if Includes(mimeType, "pdf") then "pdf"
    else "document"
  }

  /** The attachment made from one uploaded file. Images keep their object
      URL so that they can be previewed; other files link nowhere. */
  function FromFile(f: FileInfo, id: int, now: int): (a: Attachment)
    ensures a.name == f.name && a.kind == KindOf(f.mimeType) && a.uploadedBy == "You"
    ensures a.url == (if a.kind == "image" then f.objectUrl else "#")
  {
    var kind := KindOf(f.mimeType);
    Attachment(id, f.name, kind, f.sizeText, "You", now, if kind == "image" then f.objectUrl else "#")
  }

  /** The uploaded files as attachments, in the order given. `ids` stands
      for the fresh ids the page draws for them. */
  function FromFiles(files: seq<FileInfo>, ids: seq<int>, now: int): (r: seq<Attachment>)
    requires |ids| == |files|
    ensures |r| == |files|
    ensures forall i :: 0 <= i < |files| ==> r[i] == FromFile(files[i], ids[i], now)
  {
    if files == [] then [] else [FromFile(files[0], ids[0], now)] + FromFiles(files[1..], ids[1..], now)
  }

  /** The list without the attachments carrying `id`. */
  function Removed(atts: seq<Attachment>, id: int): (r: seq<Attachment>)
    ensures |r| <= |atts|
    ensures forall a :: a in r <==> a in atts && a.id != id
  {
    if atts == [] then []
    else if atts[0].id == id then Removed(atts[1..], id)
    else [atts[0]] + Removed(atts[1..], id)
  }

  /** Removing keeps the other attachments in their order and number: it
      works piece by piece over a split list (RemovedSingle gives the pieces). */
  lemma {:induction false} RemovedDistributes(a: seq<Attachment>, b: seq<Attachment>, id: int)
    ensures Removed(a + b, id) == Removed(a, id) + Removed(b, id)
  {
    if a == [] {
      assert a + b == b;
    } else {
      assert (a + b)[0] == a[0];
      assert (a + b)[1..] == a[1..] + b;
      RemovedDistributes(a[1..], b, id);
    }
  }

  /** A single attachment stays exactly when its id differs. */
  lemma RemovedSingle(x: Attachment, id: int)
    ensures Removed([x], id) == if x.id == id then [] else [x]
  {
    assert [x][1..] == [];
  }

  /** Removing an id that is not there leaves the list as it is. */
  lemma {:induction false} RemovedAbsent(atts: seq<Attachment>, id: int)
    requires forall i :: 0 <= i < |atts| ==> atts[i].id != id
    ensures Removed(atts, id) == atts
  {
    if atts != [] {
      RemovedAbsent(atts[1..], id);
    }
  }

  /** `getFileIcon`. */
  function FileIcon(kind: string): (icon: string)
    ensures icon == "FileText" <==> kind == "pdf" || kind == "document"
    ensures icon == "Image" <==> kind == "image"
    ensures icon == "File" <==> kind !in {"pdf", "document", "image"}
  {
    match kind
    case "pdf" => "FileText"
    case "image" => "Image"
    case "document" => "FileText"
    case _ => "File"
  }

  /** Every uploaded file gets a known icon. */
  lemma UploadedFilesHaveKnownIcon(f: FileInfo, id: int, now: int)
    ensures FileIcon(FromFile(f, id, now).kind) != "File"
  {
  }

  /** `formatTimestamp` for attachments: the same buckets as comments. */
  function FormatTimestamp(date: int, now: int, localeDate: string): string
  {
    RelativeTimestamp(date, now, localeDate)
  }

  class AttachmentsSection {
    var attachments: seq<Attachment>
    var isDragOver: bool
    var isUploading: bool

    constructor (task: DetailTask)
      ensures attachments == task.attachments && !isDragOver && !isUploading
    {
      attachments := task.attachments;
      isDragOver := false;
      isUploading := false;
    }

    /** `handleFileUpload`: the files are appended after the existing
        attachments and the task is handed on with the new list. */
    method Upload(task: DetailTask, files: seq<FileInfo>, ids: seq<int>, now: int) returns (update: DetailTask)
      requires |ids| == |files|
      modifies this
      ensures attachments == old(attachments) + FromFiles(files, ids, now)
      ensures update == task.(attachments := attachments)
      ensures !isUploading && isDragOver == old(isDragOver)
    {
      isUploading := true;
      attachments := attachments + FromFiles(files, ids, now);
      update := task.(attachments := attachments);
      isUploading := false;
    }

    /** `handleDrop`: the drag mark clears; an empty drop uploads nothing. */
    method Drop(task: DetailTask, files: seq<FileInfo>, ids: seq<int>, now: int) returns (update: Option<DetailTask>)
      requires |ids| == |files|
      modifies this
      ensures !isDragOver
      ensures files == [] ==> update == None && attachments == old(attachments) && isUploading == old(isUploading)
      ensures files != [] ==>
        attachments == old(attachments) + FromFiles(files, ids, now)
        && update == Some(task.(attachments := attachments)) && !isUploading
    {
      isDragOver := false;
      update := FileSelect(task, files, ids, now);
    }

    /** `handleFileSelect`: like a drop, but the drag mark is left as it is. */
    method FileSelect(task: DetailTask, files: seq<FileInfo>, ids: seq<int>, now: int) returns (update: Option<DetailTask>)
      requires |ids| == |files|
      modifies this
      ensures isDragOver == old(isDragOver)
      ensures files == [] ==> update == None && attachments == old(attachments) && isUploading == old(isUploading)
      ensures files != [] ==>
        attachments == old(attachments) + FromFiles(files, ids, now)
        && update == Some(task.(attachments := attachments)) && !isUploading
    {
      if |files| > 0 {
        var u := Upload(task, files, ids, now);
        update := Some(u);
      } else {
        update := None;
      }
    }

    /** Dragging files over the upload area sets the drag mark. */
    method DragOver()
      modifies this
      ensures isDragOver && attachments == old(attachments) && isUploading == old(isUploading)
    {
      isDragOver := true;
    }

    /** Leaving the upload area clears the drag mark. */
    method DragLeave()
      modifies this
      ensures !isDragOver && attachments == old(attachments) && isUploading == old(isUploading)
    {
      isDragOver := false;
    }

    /** `handleDeleteAttachment`. */
    method Delete(task: DetailTask, id: int) returns (update: DetailTask)
      modifies this
      ensures attachments == Removed(old(attachments), id) && update == task.(attachments := attachments)
      ensures isDragOver == old(isDragOver) && isUploading == old(isUploading)
    {
      attachments := Removed(attachments, id);
      update := task.(attachments := attachments);
    }
  }
}
