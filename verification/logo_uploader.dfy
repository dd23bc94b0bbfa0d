/** The logo uploader of the QR customizer (`customizer/LogoUploader.tsx`):
    the drag-hover flag, the checks a chosen or dropped file must pass, and
    the remove button. Reading the file into a data URL happens after a timer
    and is outside the model; the model stops at the decision to read. */
module LogoUploader {
  import opened Common
  import JsString

  /** What the handlers see of a file: its MIME type and its size in bytes. */
  datatype FileInfo = FileInfo(mimeType: string, size: nat)

  datatype UploaderState = UploaderState(isDragging: bool, isLoading: bool)

  const InitialUploader := UploaderState(false, false)

  /** 5 MB: the largest accepted file, in bytes. */
  const MaxLogoBytes: nat := 5 * 1024 * 1024

  /** The verdict on one file, with the notice shown when it is refused. */
  datatype FileCheck =
    | InvalidType  // "Invalid file type"
    | TooLarge     // "File too large"
    | Accepted     // the file is read and sent to the customizer

  /** `file.type.match('image.*')`: the string becomes an unanchored pattern
      whose `.*` may match nothing, so it tests for "image" anywhere in the
      type. */
  predicate LooksLikeImage(mimeType: string) {
    JsString.Contains(mimeType, "image")
  }

  /** The checks of `handleFile`, type first, then size. */
  function CheckFile(f: FileInfo): (c: FileCheck)
    ensures c == Accepted <==> LooksLikeImage(f.mimeType) && f.size <= MaxLogoBytes
    ensures c == InvalidType <==> !LooksLikeImage(f.mimeType)
    ensures c == TooLarge ==> f.size > MaxLogoBytes
  {
    if !LooksLikeImage(f.mimeType) then InvalidType
    else if f.size > 5 * 1024 * 1024 then TooLarge
    else Accepted
  }

  /** The limit is inclusive: exactly 5,242,880 bytes pass and one more byte
      does not. */
  lemma SizeLimitInclusive(mimeType: string)
    requires LooksLikeImage(mimeType)
    ensures CheckFile(FileInfo(mimeType, 5242880)) == Accepted
    ensures CheckFile(FileInfo(mimeType, 5242881)) == TooLarge
  {
  }

  /** A type with "image" anywhere in it passes the type check, however it is
      surrounded; "application/pdf" does not. */
  lemma ImageAnywhere(pre: string, post: string)
    ensures LooksLikeImage(pre + "image" + post)
    ensures !LooksLikeImage("application/pdf")
  {
    assert JsString.OccursAt("image", "image", 0);
    JsString.ContainsInContext(pre, "image", post, "image");
    assert !LooksLikeImage("application/pdf") by {
      forall i | 0 <= i <= |"application/pdf"| - 5
        ensures !JsString.OccursAt("application/pdf", "image", i)
      {
        var t := "application/pdf";
        assert JsString.OccursAt(t, "image", i) ==> t[i] == 'i' && t[i + 1] == 'm' by {
          if JsString.OccursAt(t, "image", i) {
            assert t[i..i + 5][0] == t[i] && t[i..i + 5][1] == t[i + 1];
          }
        }
        assert t[i] != 'i' || t[i + 1] != 'm';
      }
    }
  }

  /** An oversized file of the wrong type is reported for its type only. */
  lemma TypeCheckedFirst(f: FileInfo)
    requires !LooksLikeImage(f.mimeType) && f.size > MaxLogoBytes
    ensures CheckFile(f) == InvalidType
  {
  }

  /** `handleFile`: an accepted file starts loading; a refused one changes
      nothing but the notice. */
  function HandleFile(st: UploaderState, f: FileInfo): (r: (UploaderState, FileCheck))
    ensures r.1 == CheckFile(f)
    ensures r.0.isLoading == (st.isLoading || r.1 == Accepted)
    ensures r.0.isDragging == st.isDragging
  {
    var c := CheckFile(f);
    if c == Accepted then (st.(isLoading := true), c) else (st, c)
  }

  /** What a drop or a file choice did: nothing, when no file came with it,
      or the verdict on the first file. */
  datatype FileEvent = NoFile | Checked(check: FileCheck)

  /** The files of an event; only the first is used. */
  function HandleFiles(st: UploaderState, files: seq<FileInfo>): (r: (UploaderState, FileEvent))
    ensures files == [] ==> r == (st, NoFile)
    ensures files != [] ==> r.1 == Checked(CheckFile(files[0])) && r.0 == HandleFile(st, files[0]).0
  {
    if files == [] then (st, NoFile)
    else
      var (next, c) := HandleFile(st, files[0]);
      (next, Checked(c))
  }

  function DragOver(st: UploaderState): (r: UploaderState)
    ensures r.isDragging && r.isLoading == st.isLoading
  {
    st.(isDragging := true)
  }

  function DragLeave(st: UploaderState): (r: UploaderState)
    ensures !r.isDragging && r.isLoading == st.isLoading
  {
    st.(isDragging := false)
  }

  /** A drop ends the hover, then handles the first dropped file, if any. */
  function Drop(st: UploaderState, files: seq<FileInfo>): (r: (UploaderState, FileEvent))
    ensures !r.0.isDragging
    ensures files == [] ==> r == (st.(isDragging := false), NoFile)
    ensures files != [] ==> r.1 == Checked(CheckFile(files[0]))
    ensures files != [] ==> r.0 == HandleFile(st.(isDragging := false), files[0]).0
  {
    HandleFiles(st.(isDragging := false), files)
  }

  /** The file picker handles the first chosen file, if any, and leaves the
      hover flag alone. */
  function FileInput(st: UploaderState, files: seq<FileInfo>): (r: (UploaderState, FileEvent))
    ensures r.0.isDragging == st.isDragging
    ensures files == [] ==> r == (st, NoFile)
    ensures files != [] ==> r == (HandleFile(st, files[0]).0, Checked(CheckFile(files[0])))
  {
    HandleFiles(st, files)
  }

  /** The events the drop zone reacts to. */
  datatype ZoneEvent = DragOverEvent | DragLeaveEvent | DropEvent(files: seq<FileInfo>) | PickEvent(files: seq<FileInfo>)

  function Step(st: UploaderState, e: ZoneEvent): UploaderState {
    match e
    case DragOverEvent => DragOver(st)
    case DragLeaveEvent => DragLeave(st)
    case DropEvent(files) => Drop(st, files).0
    case PickEvent(files) => FileInput(st, files).0
  }

  /** The zone's state after a run of events, oldest first. */
  function Replay(st: UploaderState, events: seq<ZoneEvent>): UploaderState
    decreases |events|
  {
    if events == [] then st else Step(Replay(st, events[..|events| - 1]), events[|events| - 1])
  }

  /** The hover-or-drop events of a run, in order; a file pick is not one. */
  function HoverEvents(events: seq<ZoneEvent>): seq<ZoneEvent>
    decreases |events|
  {
    if events == [] then []
    else
      var e := events[|events| - 1];
      HoverEvents(events[..|events| - 1]) + (if e.PickEvent? then [] else [e])
  }

  /** After any run of events the zone is highlighted exactly when the last
      drag event was a drag-over; with none, the flag is as it started. */
  lemma {:induction false} HoverFlagFollowsLastEvent(st: UploaderState, events: seq<ZoneEvent>)
    ensures var hs := HoverEvents(events);
            Replay(st, events).isDragging == if hs == [] then st.isDragging else hs[|hs| - 1] == DragOverEvent
    decreases |events|
  {
    if events != [] {
      HoverFlagFollowsLastEvent(st, events[..|events| - 1]);
    }
  }

  /** The remove button sends the empty string as the new logo. */
  function RemoveLogo(): (url: string)
    ensures !Truthy(Some(url))
  {
    ""
  }
}
