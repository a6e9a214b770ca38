/**
 * The drop zone of frontend/src/components/document/UploadZone.tsx: a
 * small state machine over idle, dragging, uploading, error and success,
 * that checks a file before posting it to `/upload` and maps the outcome
 * of the post to the message it shows.
 *
 * The post itself, `signOut`, `onUploadSuccess` and the file picker are
 * outside the model: the methods return what they ask of them, and the
 * outcome of the post is an input of `UploadSettled`.
 */
module UploadZone {
  import opened Wrappers
  import UploadRoute

  const MaxBytes: nat := 10 * 1024 * 1024
  const NotPdfMessage: string := "Only PDF files are accepted."
  const TooLargeMessage: string := "File exceeds the 10 MB limit."
  const ConnectionFailedMessage: string := "Connection failed. Check your internet."
  const UploadFailedMessage: string := "Upload failed. Please try again."
  const UnauthorizedStatus: nat := 401

  datatype UploadState = Idle | Dragging | Uploading | Error | Success

  /** A `File` from the picker or a drop: its type, its name and its bytes. */
  datatype SelectedFile = SelectedFile(mimeType: string, name: string, contents: UploadRoute.Bytes)

  /**
   * How `api.post("/upload", form)` settled: resolved; rejected by axios
   * with a response (its status and the `error` field of its JSON body, if
   * any) or without one; or rejected with something that is not an axios error.
   */
  datatype UploadOutcome =
    | Uploaded
    | HttpFailure(status: nat, errorField: Option<string>)
    | NoResponse
    | OtherFailure

  /** The message that stops a file before the post, the type checked before the size. */
  function FileProblem(file: SelectedFile): (m: Option<string>)
    ensures file.mimeType != UploadRoute.PdfMimeType ==> m == Some(NotPdfMessage)
    ensures file.mimeType == UploadRoute.PdfMimeType ==>
      (m == Some(TooLargeMessage) <==> |file.contents| > MaxBytes)
    ensures m.None? <==> file.mimeType == UploadRoute.PdfMimeType && |file.contents| <= MaxBytes
  {
    if file.mimeType != UploadRoute.PdfMimeType then Some(NotPdfMessage)
    else if |file.contents| > MaxBytes then Some(TooLargeMessage)
    else None
  }

  /** The message shown for a failed post other than a 401. */
  function FailureMessage(outcome: UploadOutcome): string
    requires !outcome.Uploaded? && !(outcome.HttpFailure? && outcome.status == UnauthorizedStatus)
  {
    match outcome
    case NoResponse => ConnectionFailedMessage
    case OtherFailure => UploadFailedMessage
    case HttpFailure(_, errorField) => if errorField.Some? then errorField.value else UploadFailedMessage
  }

  /**
   * The zone posts exactly the files the server's upload middleware
   * admits: the same type and the same 10 MiB bound, with the same
   * inclusive boundary.
   */
  lemma ZoneAgreesWithServer(file: SelectedFile)
    ensures FileProblem(file).None? <==>
      UploadRoute.Admit(Some(UploadRoute.IncomingFile(file.mimeType, file.name, file.contents))).Ok?
    ensures FileProblem(file).Some? ==>
      (FileProblem(file) == Some(NotPdfMessage) <==>
       UploadRoute.Admit(Some(UploadRoute.IncomingFile(file.mimeType, file.name, file.contents)))
         == Failure(UploadRoute.OnlyPdfMessage))
  {
    assert MaxBytes == UploadRoute.MaxFileSize;
  }

  class Zone {
    var state: UploadState
    var error: string
    var filename: string

    constructor ()
      ensures state == Idle && error == "" && filename == ""
    {
      state, error, filename := Idle, "", "";
    }

    /**
     * `handleFile`: a rejected file shows its message; an accepted one
     * enters `uploading` under its name and is returned for the post.
     */
    method HandleFile(file: SelectedFile) returns (posted: Option<SelectedFile>)
      modifies this
      ensures FileProblem(file).Some? ==>
        state == Error && error == FileProblem(file).value && filename == old(filename) && posted == None
      ensures FileProblem(file).None? ==>
        state == Uploading && filename == file.name && error == old(error) && posted == Some(file)
    {
      if file.mimeType != UploadRoute.PdfMimeType {
        error := NotPdfMessage;
        state := Error;
        return None;
      }
      if |file.contents| > MaxBytes {
        error := TooLargeMessage;
        state := Error;
        return None;
      }
      filename := file.name;
      state := Uploading;
      posted := Some(file);
    }

    /**
     * The rest of `handleFile` once the post settles: success notifies the
     * page; a 401 signs out and leaves the zone as it is; anything else
     * shows its message.
     */
    method UploadSettled(outcome: UploadOutcome) returns (notified: bool, signedOut: bool)
      modifies this
      ensures notified <==> outcome.Uploaded?
      ensures signedOut <==> outcome.HttpFailure? && outcome.status == UnauthorizedStatus
      ensures outcome.Uploaded? ==> state == Success && error == old(error) && filename == old(filename)
      ensures signedOut ==> state == old(state) && error == old(error) && filename == old(filename)
      ensures !notified && !signedOut ==>
        state == Error && error == FailureMessage(outcome) && filename == old(filename)
    {
      notified, signedOut := false, false;
      match outcome
      case Uploaded =>
        state := Success;
        notified := true;
      case HttpFailure(status, errorField) =>
        if status == UnauthorizedStatus {
          signedOut := true;
          return;
        }
        error := if errorField.Some? then errorField.value else UploadFailedMessage;
        state := Error;
      case NoResponse =>
        error := ConnectionFailedMessage;
        state := Error;
      case OtherFailure =>
        error := UploadFailedMessage;
        state := Error;
    }

    /** The timer set after a success: back to idle with no file name. */
    method SuccessTimerFires()
      modifies this
      ensures state == Idle && filename == "" && error == old(error)
    {
      state := Idle;
      filename := "";
    }

    /** `onDragOver`: ignored while uploading; otherwise dragging, with a shown error cleared. */
    method OnDragOver()
      modifies this
      ensures old(state) == Uploading ==> state == Uploading && error == old(error)
      ensures old(state) != Uploading ==> state == Dragging
      ensures old(state) != Uploading ==> error == (if old(state) == Error then "" else old(error))
      ensures filename == old(filename)
    {
      if state == Uploading {
        return;
      }
      var previous := state;
      state := Dragging;
      if previous == Error {
        error := "";
      }
    }

    /** `onDragLeave`: dragging returns to idle; any other state stays. */
    method OnDragLeave()
      modifies this
      ensures state == (if old(state) == Dragging then Idle else old(state))
      ensures error == old(error) && filename == old(filename)
    {
      if state == Dragging {
        state := Idle;
      }
    }

    /** `onDrop`: ignored while uploading; otherwise idle, then the first dropped file is handled. */
    method OnDrop(file: Option<SelectedFile>) returns (posted: Option<SelectedFile>)
      modifies this
      ensures old(state) == Uploading ==>
        state == old(state) && error == old(error) && filename == old(filename) && posted == None
      ensures old(state) != Uploading && file.None? ==>
        state == Idle && error == old(error) && filename == old(filename) && posted == None
      ensures old(state) != Uploading && file.Some? && FileProblem(file.value).Some? ==>
        state == Error && error == FileProblem(file.value).value && filename == old(filename) && posted == None
      ensures old(state) != Uploading && file.Some? && FileProblem(file.value).None? ==>
        state == Uploading && filename == file.value.name && error == old(error) && posted == file
    {
      posted := None;
      if state == Uploading {
        return;
      }
      state := Idle;
      if file.Some? {
        posted := HandleFile(file.value);
      }
    }

    /** `onClick`: ignored while uploading; otherwise idle with no error, and the file picker opens. */
    method OnClick() returns (pickerOpened: bool)
      modifies this
      ensures pickerOpened <==> old(state) != Uploading
      ensures old(state) == Uploading ==> state == old(state) && error == old(error)
      ensures old(state) != Uploading ==> state == Idle && error == ""
      ensures filename == old(filename)
    {
      if state == Uploading {
        return false;
      }
      state := Idle;
      error := "";
      pickerOpened := true;
    }

    /** `onKeyDown`: Enter and Space act as a click; other keys do nothing. */
    method OnKeyDown(key: string) returns (pickerOpened: bool)
      modifies this
      ensures key != "Enter" && key != " " ==>
        !pickerOpened && state == old(state) && error == old(error) && filename == old(filename)
      ensures key == "Enter" || key == " " ==>
        && (pickerOpened <==> old(state) != Uploading)
        && (old(state) == Uploading ==> state == old(state) && error == old(error))
        && (old(state) != Uploading ==> state == Idle && error == "")
        && filename == old(filename)
    {
      pickerOpened := false;
      if key == "Enter" || key == " " {
        pickerOpened := OnClick();
      }
    }

    /** `onInputChange`: the first chosen file, if any, is handled. */
    method OnInputChange(file: Option<SelectedFile>) returns (posted: Option<SelectedFile>)
      modifies this
      ensures file.None? ==>
        state == old(state) && error == old(error) && filename == old(filename) && posted == None
      ensures file.Some? && FileProblem(file.value).Some? ==>
        state == Error && error == FileProblem(file.value).value && filename == old(filename) && posted == None
      ensures file.Some? && FileProblem(file.value).None? ==>
        state == Uploading && filename == file.value.name && error == old(error) && posted == file
    {
      posted := None;
      if file.Some? {
        posted := HandleFile(file.value);
      }
    }
  }
}
