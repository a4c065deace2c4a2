/** The attachment area: files chosen in the file dialog or dropped on the zone are read
    as data URLs, reduced to their base64 payload and appended to the controller's list;
    a listed file can be removed again. The browser's file reads are inputs: each file
    arrives with the outcome of its read. */
module AttachmentHandler {
  import opened Wrappers
  import opened Types
  import opened Seqs
  import App

  /** How reading one file as a data URL ended. */
  datatype ReadOutcome = Loaded(dataUrl: string) | ReadFailed

  /** A selected or dropped file: its name, its type and what reading it gave. */
  datatype FileEntry = FileEntry(name: string, fileType: string, read: ReadOutcome)

  /** The data URL a reader produces for a base64 read of content of type `mime`. */
  function DataUrl(mime: string, payload: string): string
  {
    "data:" + mime + ";base64," + payload
  }

  /** The position of the first ',' at or after `i`, or `|s|`. */
  function CommaFrom(s: string, i: nat): (k: nat)
    requires i <= |s|
    ensures i <= k <= |s|
    ensures forall m | i <= m < k :: s[m] != ','
    ensures k < |s| ==> s[k] == ','
    decreases |s| - i
  {
    if i == |s| || s[i] == ',' then i else CommaFrom(s, i + 1)
  }

  /** `s.split(',')[1]`: the text between the first and the second comma (or the end);
      `None` stands for `undefined` when `s` has no comma. */
  function Base64Payload(s: string): (r: Option<string>)
    ensures r.None? <==> ',' !in s
    ensures r.Some? ==> ',' !in r.value
  {
    var first := CommaFrom(s, 0);
    if first == |s| then
      assert forall m | 0 <= m < |s| :: s[m] != ',';
      None
    else
      var second := CommaFrom(s, first + 1);
      Some(s[first + 1..second])
  }

  /** The payload comes back out of the data URL it was put in, as long as the media type
      has no comma; a base64 payload never has one. */
  lemma PayloadRoundTrip(mime: string, payload: string)
    requires ',' !in mime && ',' !in payload
    ensures Base64Payload(DataUrl(mime, payload)) == Some(payload)
  {
    var s := DataUrl(mime, payload);
    var head := "data:" + mime + ";base64";
    assert s == head + "," + payload;
    assert ',' !in head by {
      forall m | 0 <= m < |head| ensures head[m] != ',' {
        if 5 <= m < 5 + |mime| {
          assert head[m] == mime[m - 5];
        }
      }
    }
    assert CommaFrom(s, 0) == |head| by {
      assert s[|head|] == ',';
      assert forall m | 0 <= m < |head| :: s[m] == head[m];
    }
    assert CommaFrom(s, |head| + 1) == |s| by {
      assert forall m | |head| + 1 <= m < |s| :: s[m] == payload[m - |head| - 1];
    }
    assert s[|head| + 1..|s|] == payload;
    assert Base64Payload(s) == Some(s[|head| + 1..|s|]);
  }

  /** The record kept for one file, if its read succeeded. A data URL without a comma is
      stored with an empty payload. */
  function Record(f: FileEntry): Option<AttachmentFile>
  {
    match f.read
    case ReadFailed => None
    case Loaded(url) => Some(AttachmentFile(f.name, f.fileType, Base64Payload(url).GetOr("")))
  }

  /** The records for a batch, in order, or `None` as soon as one read fails: the loop
      awaits each read in turn and a rejected read abandons the whole batch. */
  function Records(files: seq<FileEntry>): Option<seq<AttachmentFile>>
  {
    if files == [] then Some([])
    else
      match Records(files[..|files| - 1])
      case None => None
      case Some(init) =>
        match Record(files[|files| - 1])
        case None => None
        case Some(a) => Some(init + [a])
  }

  /** A batch converts exactly when every read succeeded; the records then follow the
      files one for one, keeping each name and type. */
  lemma {:induction false} RecordsAllOrNothing(files: seq<FileEntry>)
    ensures Records(files).Some? <==> forall i | 0 <= i < |files| :: files[i].read.Loaded?
    ensures Records(files).Some? ==>
      var r := Records(files).value;
      |r| == |files| && forall i | 0 <= i < |files| :: Some(r[i]) == Record(files[i])
    decreases |files|
  {
    if files != [] {
      var init := files[..|files| - 1];
      RecordsAllOrNothing(init);
      assert forall i | 0 <= i < |init| :: init[i] == files[i];
    }
  }

  /** Each record keeps the file's name and type and the payload of its data URL. */
  lemma RecordOfRead(name: string, fileType: string, mime: string, payload: string)
    requires ',' !in mime && ',' !in payload
    ensures Record(FileEntry(name, fileType, Loaded(DataUrl(mime, payload)))) == Some(AttachmentFile(name, fileType, payload))
  {
    PayloadRoundTrip(mime, payload);
  }

  /** There is no de-duplication: adding a file that is already in the batch records it a
      second time, and the batch grows by exactly one record. */
  lemma {:induction false} ReaddedFileRecordedTwice(files: seq<FileEntry>, i: int)
    requires Records(files).Some? && 0 <= i < |files|
    ensures var r := Records(files + [files[i]]);
      r.Some? && |r.value| == |files| + 1 && r.value[i] == r.value[|files|]
  {
    var all := files + [files[i]];
    assert all[..|all| - 1] == files;
    RecordsAllOrNothing(files);
  }

  /** The read loop of `handleFileChange`: reads the files in order and stops at the first
      failure. */
  method ConvertFiles(files: seq<FileEntry>) returns (batch: Option<seq<AttachmentFile>>)
    ensures batch == Records(files)
  {
    var acc: seq<AttachmentFile> := [];
    var i := 0;
    while i < |files|
      invariant 0 <= i <= |files|
      invariant Records(files[..i]) == Some(acc)
    {
      assert files[..i + 1][..i] == files[..i];
      match Record(files[i])
      case None =>
        RecordsAllOrNothing(files);
        return None;
      case Some(a) =>
        acc := acc + [a];
      i := i + 1;
    }
    assert files[..i] == files;
    return Some(acc);
  }

  /** The drop zone and its highlight; the list lives in the controller. */
  class AttachmentHandler {
    const app: App.App
    var isDragging: bool

    constructor (app: App.App)
      ensures this.app == app && !isDragging
    {
      this.app := app;
      isDragging := false;
    }

    /** `handleFileChange`: no file list does nothing; otherwise the converted batch is
        appended to the list as it stood, and a failed read leaves the list alone. */
    method HandleFileChange(files: Option<seq<FileEntry>>)
      requires app.Valid()
      modifies app
      ensures app.Valid()
      ensures files.None? || Records(files.value).None? ==> app.State() == old(app.State())
      ensures files.Some? && Records(files.value).Some? ==>
        app.State() == old(app.State()).(draft := old(app.draft).(
          attachments := old(app.draft.attachments) + Records(files.value).value))
    {
      if files.None? {
        return;
      }
      var batch := ConvertFiles(files.value);
      if batch.Some? {
        app.SetAttachments(app.draft.attachments + batch.value);
      }
    }

    /** `handleDrop`: the highlight goes off and the dropped files take the same path. */
    method HandleDrop(files: seq<FileEntry>)
      requires app.Valid()
      modifies this, app
      ensures app.Valid()
      ensures !isDragging
      ensures Records(files).None? ==> app.State() == old(app.State())
      ensures Records(files).Some? ==>
        app.State() == old(app.State()).(draft := old(app.draft).(
          attachments := old(app.draft.attachments) + Records(files).value))
    {
      isDragging := false;
      HandleFileChange(Some(files));
    }

    /** `handleDragEvents`: entering or moving over the zone highlights it, leaving it
        clears the highlight, and any other event type changes nothing. */
    method HandleDragEvent(eventType: string)
      modifies this
      ensures eventType == "dragenter" || eventType == "dragover" ==> isDragging
      ensures eventType == "dragleave" ==> !isDragging
      ensures eventType !in {"dragenter", "dragover", "dragleave"} ==> isDragging == old(isDragging)
    {
      if eventType == "dragenter" || eventType == "dragover" {
        isDragging := true;
      } else if eventType == "dragleave" {
        isDragging := false;
      }
    }

    /** `removeAttachment`: the file at `index` leaves the list. */
    method RemoveAttachment(index: int)
      requires app.Valid()
      modifies app
      ensures app.Valid()
      ensures app.State() == old(app.State()).(draft := old(app.draft).(
        attachments := Without(old(app.draft.attachments), index)))
    {
      app.SetAttachments(Without(app.draft.attachments, index));
    }
  }
}
