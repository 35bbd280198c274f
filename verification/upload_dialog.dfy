/**
 * The browser upload dialog: the form's file validation, the open/close
 * guard, and one submission from the signed-in check to the record the AI
 * processing leaves behind. The Drive upload, the file reader and the AI
 * flows are outcomes handed in as parameters.
 */
module UploadDialog {
  import opened Wrappers
  import opened Text
  import opened Records
  import opened Lifecycle

  const MaxFileSize: int := 5_000_000
  const AcceptedTypes: seq<string> := ["image/jpeg", "image/png", "application/pdf"]

  const FileRequired: string := "File is required."
  const FileTooLarge: string := "Max file size is 5MB."
  const FileTypeRejected: string := "Only .jpg, .png and .pdf files are accepted."

  /** A picked file: its name, its size in bytes and its MIME type. */
  datatype FileInfo = FileInfo(name: string, size: int, mimeType: string)

  /** `files?.[0]`. */
  function FirstFile(files: Option<seq<FileInfo>>): (f: Option<FileInfo>)
    ensures f.Some? <==> files.Some? && |files.value| > 0
    ensures f.Some? ==> f.value == files.value[0]
  {
    if files.Some? && |files.value| > 0 then Some(files.value[0]) else None
  }

  predicate ExactlyOneFile(files: Option<seq<FileInfo>>) {
    files.Some? && |files.value| == 1
  }

  /** `files?.[0]?.size <= 5000000`: a missing file's size is `undefined`, which compares false. */
  predicate SizeAllowed(files: Option<seq<FileInfo>>) {
    var f := FirstFile(files);
    f.Some? && f.value.size <= MaxFileSize
  }

  predicate TypeAllowed(files: Option<seq<FileInfo>>) {
    var f := FirstFile(files);
    f.Some? && f.value.mimeType in AcceptedTypes
  }

  /**
   * `uploadSchema`: the three refinements all run, each adding its message
   * when it fails, in declaration order.
   */
  function ValidateUpload(files: Option<seq<FileInfo>>): (issues: seq<string>)
    ensures |issues| == 0 <==>
      files.Some? && |files.value| == 1 && files.value[0].size <= MaxFileSize && files.value[0].mimeType in AcceptedTypes
    ensures FileRequired in issues <==> !ExactlyOneFile(files)
    ensures FileTooLarge in issues <==> !SizeAllowed(files)
    ensures FileTypeRejected in issues <==> !TypeAllowed(files)
    ensures |issues| <= 3
  {
    (if ExactlyOneFile(files) then [] else [FileRequired])
    + (if SizeAllowed(files) then [] else [FileTooLarge])
    + (if TypeAllowed(files) then [] else [FileTypeRejected])
  }

  /** No file at all draws every message. */
  lemma NoFileDrawsEveryMessage()
    ensures ValidateUpload(None) == [FileRequired, FileTooLarge, FileTypeRejected]
    ensures ValidateUpload(Some([])) == [FileRequired, FileTooLarge, FileTypeRejected]
  {
  }

  /** `file.type.startsWith('image/')`: the branch that sends the file to the AI. */
  predicate TakesImagePath(mimeType: string) {
    StartsWith(mimeType, "image/")
  }

  /** Among accepted files, only the PDF skips the AI. */
  lemma AcceptedImagePath(f: FileInfo)
    requires ValidateUpload(Some([f])) == []
    ensures TakesImagePath(f.mimeType) <==> f.mimeType != "application/pdf"
  {
    if f.mimeType == "image/jpeg" {
      assert f.mimeType[0..6] == "image/";
    } else if f.mimeType == "image/png" {
      assert f.mimeType[0..6] == "image/";
    } else {
      assert f.mimeType[0] == 'a';
    }
  }

  datatype DialogState = DialogState(isOpen: bool, isProcessing: bool, fileName: string)

  /** `onOpenChange`: ignored while processing; closing clears the picked file name. */
  function OnOpenChange(st: DialogState, open: bool): (r: DialogState)
    ensures st.isProcessing ==> r == st
    ensures !st.isProcessing ==> r.isOpen == open && !r.isProcessing
    ensures !st.isProcessing && open ==> r.fileName == st.fileName
    ensures !st.isProcessing && !open ==> r.fileName == ""
  {
    if st.isProcessing then st
    else if open then st.(isOpen := open)
    else st.(isOpen := open, fileName := "")
  }

  /** The placeholder the browser writes; the server timestamp is still pending. */
  function ClientPlaceholder(id: string, uid: string, storedName: string, fileUrl: string): (d: Document)
    ensures IsPlaceholder(d)
    ensures d.id == id && d.userId == Some(uid) && d.fileName == Some(storedName) && d.fileUrl == Some(fileUrl)
    ensures d.uploadedAt.None? && d.company.None? && d.country.None? && d.textContent.None?
  {
    BlankDocument(id).(userId := Some(uid), fileName := Some(storedName), fileUrl := Some(fileUrl),
      owner := Some(Processing), docType := Some(Processing), keywords := Some([]),
      summary := Some(Processing), expiry := None, isProcessing := true)
  }

  /** A thrown error: an optional code and an optional message. */
  datatype UploadError = UploadError(code: Option<string>, message: Option<string>)

  /** The "Upload Failed" description: the closed-popup text, else the error's message, else a generic text. */
  function DescribeError(e: UploadError): (description: string)
    ensures e.code == Some("auth/popup-closed-by-user") ==>
      description == "The authentication popup was closed. Please try uploading again."
    ensures e.code != Some("auth/popup-closed-by-user") && Truthy(e.message) ==> description == e.message.value
    ensures e.code != Some("auth/popup-closed-by-user") && !Truthy(e.message) ==>
      description == "Could not upload the document. Please try again."
  {
    if e.code == Some("auth/popup-closed-by-user") then "The authentication popup was closed. Please try uploading again."
    else if Truthy(e.message) then e.message.value
    else "Could not upload the document. Please try again."
  }

  const MissingUrlMessage: string := "Could not get file URL from Google Drive."

  /** What the Drive steps gave: a thrown error, or the stored file's `webViewLink`, which may be absent. */
  datatype DriveResult = DriveFailed(error: UploadError) | DriveStored(webViewLink: Option<string>)

  /** What the image branch's background work gave. */
  datatype ImageAnalysis = ReadFailed(error: UploadError) | AiFailed | AiAnswered(m: Metadata, keywords: seq<string>)

  /** The last toast of a submission. */
  datatype Notice =
    | NotAuthenticated
    | UploadFailed(description: string)
    | ProcessingComplete(docType: string)
    | AiProcessingFailed
    | PdfSaved(fileName: string)

  datatype SubmitRun = SubmitRun(dialog: DialogState, record: Option<Document>, notice: Notice)

  /**
   * `onSubmit` for a file the schema accepted. `user` is the signed-in uid,
   * `uuid` the fresh prefix of the stored name, `docId` the id the new record
   * receives. A failure after the placeholder exists (the file reader)
   * leaves the placeholder processing.
   */
  function Submit(st: DialogState, user: Option<string>, file: FileInfo, uuid: string, drive: DriveResult,
                  docId: string, analysis: ImageAnalysis): (run: SubmitRun)
    requires ValidateUpload(Some([file])) == []
    ensures !run.dialog.isProcessing
    ensures user.None? ==> run == SubmitRun(st.(isProcessing := false), None, NotAuthenticated)
    ensures run.record.Some? <==> user.Some? && drive.DriveStored? && Truthy(drive.webViewLink)
    ensures user.Some? && drive.DriveFailed? ==> run.notice == UploadFailed(DescribeError(drive.error))
    ensures user.Some? && drive.DriveStored? && !Truthy(drive.webViewLink) ==> run.notice == UploadFailed(MissingUrlMessage)
    ensures run.record.Some? ==>
      && run.record.value.id == docId && run.record.value.userId == user
      && run.record.value.fileName == Some(uuid + "-" + file.name)
      && run.record.value.fileUrl == drive.webViewLink
      && !run.dialog.isOpen && run.dialog.fileName == ""
    ensures run.record.Some? && !TakesImagePath(file.mimeType) ==>
      run.record.value.docType == Some(PdfType) && !run.record.value.isProcessing
    ensures run.record.Some? && TakesImagePath(file.mimeType) && analysis.AiAnswered? ==>
      && run.record.value.docType == Some(analysis.m.documentType)
      && run.record.value.keywords == Some(analysis.keywords)
      && !run.record.value.isProcessing
      && run.notice == ProcessingComplete(analysis.m.documentType)
    ensures run.record.Some? && TakesImagePath(file.mimeType) && analysis.AiFailed? ==>
      && run.record.value.owner == Some(file.name) && run.record.value.docType == Some(ProcessingFailed)
      && !run.record.value.isProcessing
    ensures run.record.Some? && TakesImagePath(file.mimeType) && analysis.ReadFailed? ==>
      IsPlaceholder(run.record.value) && run.notice == UploadFailed(DescribeError(analysis.error))
  {
    var idle := st.(isProcessing := false);
    match user
    case None => SubmitRun(idle, None, NotAuthenticated)
    case Some(uid) =>
      var storedName := uuid + "-" + file.name;
      match drive
      case DriveFailed(e) => SubmitRun(idle, None, UploadFailed(DescribeError(e)))
      case DriveStored(link) =>
        if !Truthy(link) then SubmitRun(idle, None, UploadFailed(DescribeError(UploadError(None, Some(MissingUrlMessage)))))
        else
          var placeholder := ClientPlaceholder(docId, uid, storedName, link.value);
          var closed := idle.(isOpen := false, fileName := "");
          if TakesImagePath(file.mimeType) then
            match analysis
            case ReadFailed(e) => SubmitRun(closed, Some(placeholder), UploadFailed(DescribeError(e)))
            case AiFailed => SubmitRun(closed, Some(MarkFailed(placeholder, file.name)), AiProcessingFailed)
            case AiAnswered(m, keywords) =>
              SubmitRun(closed, Some(ApplyMetadata(placeholder, m, keywords)), ProcessingComplete(m.documentType))
          else
            SubmitRun(closed, Some(MarkPdf(placeholder, file.name)), PdfSaved(file.name))
  }

  /** With nobody signed in, no outcome of the later steps matters: nothing is written. */
  lemma SignedOutWritesNothing(st: DialogState, file: FileInfo, uuid: string, drive1: DriveResult, drive2: DriveResult,
                               docId: string, a1: ImageAnalysis, a2: ImageAnalysis)
    requires ValidateUpload(Some([file])) == []
    ensures Submit(st, None, file, uuid, drive1, docId, a1) == Submit(st, None, file, uuid, drive2, docId, a2)
    ensures Submit(st, None, file, uuid, drive1, docId, a1).record.None?
  {
  }

  /** The dialog cannot be closed while a submission holds it processing. */
  lemma ProcessingDialogStaysOpen(st: DialogState)
    requires st.isOpen && st.isProcessing
    ensures OnOpenChange(st, false).isOpen
  {
  }
}
