/**
 * The upload screen: the file check and the small state machine over the
 * selected file, the upload status, the error message and the drag highlight.
 */
module Upload {
  import opened Wrappers

  /** The parts of a browser `File` the screen looks at. */
  datatype PdfFile = PdfFile(mime: string, size: nat, name: string)

  datatype UploadStatus = Idle | Uploading | Success | Error

  const PdfMimeType: string := "application/pdf"
  /** 50 MiB, in bytes. */
  const MaxSize: nat := 50 * 1024 * 1024
  const NotPdfMessage: string := "Please upload a PDF file"
  const TooLargeMessage: string := "File size must be less than 50MB"

  /** The outcome of the check: accepted, or rejected with the message shown. */
  datatype Verdict = Accepted | Rejected(message: string)

  /** The file check: the type first, then the size. A file of exactly 50 MiB passes. */
  function Check(f: PdfFile): (v: Verdict)
    ensures v.Accepted? <==> f.mime == PdfMimeType && f.size <= MaxSize
    ensures v.Rejected? ==> v.message == NotPdfMessage || v.message == TooLargeMessage
    ensures v == Rejected(TooLargeMessage) ==> f.mime == PdfMimeType
    ensures f.mime != PdfMimeType ==> v == Rejected(NotPdfMessage)
    ensures f.mime == PdfMimeType && f.size > MaxSize ==> v == Rejected(TooLargeMessage)
  {
    if f.mime != PdfMimeType then Rejected(NotPdfMessage)
    else if f.size > MaxSize then Rejected(TooLargeMessage)
    else Accepted
  }

  /** The type check comes first: a file that is neither a PDF nor small enough
      gets the type message. */
  lemma TypeCheckedFirst(f: PdfFile)
    requires f.mime != PdfMimeType && f.size > MaxSize
    ensures Check(f) == Rejected(NotPdfMessage)
  {
  }

  /** The size limit is inclusive: 52,428,800 bytes pass, one byte more does not. */
  lemma SizeLimitBoundary(name: string)
    ensures MaxSize == 52428800
    ensures Check(PdfFile(PdfMimeType, MaxSize, name)) == Accepted
    ensures Check(PdfFile(PdfMimeType, MaxSize + 1, name)) == Rejected(TooLargeMessage)
  {
  }

  class PdfEditor {
    var selectedFile: Option<PdfFile>
    var isDragging: bool
    var uploadStatus: UploadStatus
    var errorMessage: string

    /** What every handler keeps: only files that passed the check are ever
        selected, success means a selection, the message is set exactly when the
        status is error, and nothing sets the uploading status. */
    ghost predicate Valid()
      reads this
    {
      && (selectedFile.Some? ==> Check(selectedFile.value) == Accepted)
      && (uploadStatus == Success ==> selectedFile.Some?)
      && (uploadStatus == Error <==> errorMessage != "")
      && (uploadStatus == Error ==> errorMessage == NotPdfMessage || errorMessage == TooLargeMessage)
      && uploadStatus != Uploading
    }

    constructor ()
      ensures Valid()
      ensures selectedFile == None && !isDragging && uploadStatus == Idle && errorMessage == ""
    {
      selectedFile := None;
      isDragging := false;
      uploadStatus := Idle;
      errorMessage := "";
    }

    /** `validatePdfFile`: on rejection set the message and the error status and
        answer false; on acceptance touch nothing and answer true. */
    method ValidatePdfFile(file: PdfFile) returns (ok: bool)
      modifies this`errorMessage, this`uploadStatus
      ensures ok <==> Check(file) == Accepted
      ensures !ok ==> errorMessage == Check(file).message && uploadStatus == Error
      ensures ok ==> errorMessage == old(errorMessage) && uploadStatus == old(uploadStatus)
    {
      if file.mime != PdfMimeType {
        errorMessage := NotPdfMessage;
        uploadStatus := Error;
        return false;
      }
      if file.size > MaxSize {
        errorMessage := TooLargeMessage;
        uploadStatus := Error;
        return false;
      }
      return true;
    }

    /** `handleFileSelect`: clear the message and the status, then check the file.
        A good file is selected with status success; a bad one leaves the previous
        selection in place with status error and the check's message. */
    method HandleFileSelect(file: PdfFile)
      requires Valid()
      modifies this`errorMessage, this`uploadStatus, this`selectedFile
      ensures Valid()
      ensures Check(file) == Accepted ==>
        selectedFile == Some(file) && uploadStatus == Success && errorMessage == ""
      ensures Check(file).Rejected? ==>
        selectedFile == old(selectedFile) && uploadStatus == Error && errorMessage == Check(file).message
    {
      errorMessage := "";
      uploadStatus := Idle;
      var ok := ValidatePdfFile(file);
      if ok {
        selectedFile := Some(file);
        uploadStatus := Success;
      }
    }

    /** The file input's change event: the first chosen file, if any, is handled. */
    method HandleFileInputChange(file: Option<PdfFile>)
      requires Valid()
      modifies this`errorMessage, this`uploadStatus, this`selectedFile
      ensures Valid()
      ensures file.None? ==>
        selectedFile == old(selectedFile) && uploadStatus == old(uploadStatus) && errorMessage == old(errorMessage)
      ensures file.Some? && Check(file.value) == Accepted ==>
        selectedFile == file && uploadStatus == Success && errorMessage == ""
      ensures file.Some? && Check(file.value).Rejected? ==>
        selectedFile == old(selectedFile) && uploadStatus == Error && errorMessage == Check(file.value).message
    {
      if file.Some? {
        HandleFileSelect(file.value);
      }
    }

    /** `handleDragOver`. */
    method HandleDragOver()
      requires Valid()
      modifies this`isDragging
      ensures Valid()
      ensures isDragging
    {
      isDragging := true;
    }

    /** `handleDragLeave`. */
    method HandleDragLeave()
      requires Valid()
      modifies this`isDragging
      ensures Valid()
      ensures !isDragging
    {
      isDragging := false;
    }

    /** `handleDrop`: end the drag highlight, then the dropped file, if any, takes
        the same path as one chosen in the file input. */
    method HandleDrop(file: Option<PdfFile>)
      requires Valid()
      modifies this`isDragging, this`errorMessage, this`uploadStatus, this`selectedFile
      ensures Valid()
      ensures !isDragging
      ensures file.None? ==>
        selectedFile == old(selectedFile) && uploadStatus == old(uploadStatus) && errorMessage == old(errorMessage)
      ensures file.Some? && Check(file.value) == Accepted ==>
        selectedFile == file && uploadStatus == Success && errorMessage == ""
      ensures file.Some? && Check(file.value).Rejected? ==>
        selectedFile == old(selectedFile) && uploadStatus == Error && errorMessage == Check(file.value).message
    {
      isDragging := false;
      HandleFileInputChange(file);
    }

    /** `handleRemoveFile`: back to the empty screen. */
    method HandleRemoveFile()
      requires Valid()
      modifies this`selectedFile, this`uploadStatus, this`errorMessage
      ensures Valid()
      ensures selectedFile == None && uploadStatus == Idle && errorMessage == ""
    {
      selectedFile := None;
      uploadStatus := Idle;
      errorMessage := "";
    }

    /** `handleOpenEditor`: the file handed to the workspace, or nothing when no
        file is selected. Reading the file and navigating are not modelled. */
    method HandleOpenEditor() returns (handoff: Option<PdfFile>)
      requires Valid()
      ensures handoff.Some? <==> selectedFile.Some?
      ensures handoff.Some? ==> handoff.value == selectedFile.value && Check(handoff.value) == Accepted
    {
      if selectedFile.Some? {
        handoff := selectedFile;
      } else {
        handoff := None;
      }
    }

    /** The Open Editor and Remove buttons are shown. */
    predicate ActionsVisible()
      reads this
    {
      selectedFile.Some? && uploadStatus == Success
    }

    /** The error banner is shown. */
    predicate ErrorVisible()
      reads this
    {
      uploadStatus == Error
    }
  }

  /** Whenever the actions are offered, the selected file is a PDF within the limit,
      and the error banner is not shown. */
  lemma ActionsOnlyForCheckedFile(page: PdfEditor)
    requires page.Valid() && page.ActionsVisible()
    ensures page.selectedFile.value.mime == PdfMimeType
    ensures page.selectedFile.value.size <= MaxSize
    ensures !page.ErrorVisible() && page.errorMessage == ""
  {
  }
}
