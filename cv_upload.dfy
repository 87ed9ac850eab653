/** The CV upload widget (src/component/cv.tsx): file validation, the drag and
    selection handlers, and sending the CV to be turned into a profile. */
module CvUpload {
  import opened Wrappers
  import opened Types
  import opened Browser
  import ProfileService

  /** The size cap: 10 MiB. */
  const MaxCvBytes: int := 10 * 1024 * 1024

  const PdfType: string := "application/pdf"

  /** Why a candidate file is accepted or refused. */
  datatype Verdict = Missing | NotPdf | TooLarge | Accepted

  /** `validateFile`'s decision: no file, then the type, then the size. */
  function Classify(file: Option<FileInfo>): (v: Verdict)
    ensures v == Missing <==> file.None?
    ensures v == NotPdf <==> file.Some? && file.value.mime != PdfType
    ensures v == TooLarge <==> file.Some? && file.value.mime == PdfType && file.value.size > MaxCvBytes
    ensures v == Accepted <==> file.Some? && file.value.mime == PdfType && file.value.size <= MaxCvBytes
  {
    if file.None? then Missing
    else if file.value.mime != PdfType then NotPdf
    else if file.value.size > MaxCvBytes then TooLarge
    else Accepted
  }

  /** The type is checked before the size: a non-PDF is refused as such
      however small or large it is. */
  lemma TypeCheckedBeforeSize(name: string, mime: string, size: int)
    requires mime != PdfType
    ensures Classify(Some(FileInfo(name, mime, size))) == NotPdf
  {
  }

  /** The cap is inclusive: exactly 10 MiB passes, one byte more does not. */
  lemma CapIsInclusive(name: string)
    ensures Classify(Some(FileInfo(name, PdfType, 10485760))) == Accepted
    ensures Classify(Some(FileInfo(name, PdfType, 10485761))) == TooLarge
  {
  }

  class CvUploader {
    /** The `userId` property. */
    const userId: string
    var isDragging: bool
    var selectedFile: Option<FileInfo>
    var isProcessing: bool

    constructor (userId: string)
      ensures this.userId == userId && !isDragging && selectedFile == None && !isProcessing
      ensures Valid()
    {
      this.userId := userId;
      isDragging, selectedFile, isProcessing := false, None, false;
    }

    /** Every file this widget holds has been accepted. */
    ghost predicate Valid()
      reads this
    {
      selectedFile.Some? ==> Classify(selectedFile) == Accepted
    }

    method DragOver()
      modifies this
      ensures isDragging && selectedFile == old(selectedFile) && isProcessing == old(isProcessing)
    {
      isDragging := true;
    }

    method DragLeave()
      modifies this
      ensures !isDragging && selectedFile == old(selectedFile) && isProcessing == old(isProcessing)
    {
      isDragging := false;
    }

    /** `validateFile` with its toasts: a refused type or size shows an error,
        a missing file is refused silently. */
    method ValidateFile(env: Env, file: Option<FileInfo>) returns (ok: bool)
      modifies env
      ensures ok <==> Classify(file) == Accepted
      ensures env.log == old(env.log) + (if Classify(file) in {NotPdf, TooLarge} then [Toast("Error", Error)] else [])
      ensures env.storage == old(env.storage) && env.authHeader == old(env.authHeader)
    {
      if file.None? {
        return false;
      }
      if file.value.mime != PdfType {
        env.Emit(Toast("Error", Error));
        return false;
      }
      if file.value.size > MaxCvBytes {
        env.Emit(Toast("Error", Error));
        return false;
      }
      return true;
    }

    /** `handleDrop`: dragging ends, and the first dropped file replaces the
        selection only when it is accepted. */
    method Drop(env: Env, file: Option<FileInfo>)
      modifies this, env
      ensures !isDragging && isProcessing == old(isProcessing)
      ensures selectedFile == (if Classify(file) == Accepted then file else old(selectedFile))
      ensures old(Valid()) ==> Valid()
      ensures env.log == old(env.log) + (if Classify(file) in {NotPdf, TooLarge} then [Toast("Error", Error)] else [])
      ensures env.storage == old(env.storage) && env.authHeader == old(env.authHeader)
    {
      isDragging := false;
      var ok := ValidateFile(env, file);
      if ok {
        selectedFile := file;
      }
    }

    /** `handleFileSelect`: as a drop, without touching the drag flag. */
    method FileSelect(env: Env, file: Option<FileInfo>)
      modifies this, env
      ensures isDragging == old(isDragging) && isProcessing == old(isProcessing)
      ensures selectedFile == (if Classify(file) == Accepted then file else old(selectedFile))
      ensures old(Valid()) ==> Valid()
      ensures env.log == old(env.log) + (if Classify(file) in {NotPdf, TooLarge} then [Toast("Error", Error)] else [])
      ensures env.storage == old(env.storage) && env.authHeader == old(env.authHeader)
    {
      if file.Some? {
        var ok := ValidateFile(env, file);
        if ok {
          selectedFile := file;
        }
      }
    }

    /** The remove button. */
    method Remove()
      modifies this
      ensures selectedFile == None && isDragging == old(isDragging) && isProcessing == old(isProcessing)
      ensures Valid()
    {
      selectedFile := None;
    }

    /** `processCV`. Nothing happens without a file, while a run is under way,
        or without a user id. Otherwise the form is sent; on success a toast and
        exactly one delivery of the returned profile follow, on failure an error
        toast and no delivery. Processing is off when the run ends. */
    method ProcessCV(env: Env, outcome: Response<Profile>)
      returns (sent: Option<seq<ProfileService.FormField>>)
      modifies this, env
      ensures old(selectedFile).None? || old(isProcessing) || userId == "" ==>
        sent.None? && env.log == old(env.log) && isProcessing == old(isProcessing)
      ensures old(selectedFile).Some? && !old(isProcessing) && userId != "" ==>
        && sent == Some(ProfileService.UploadForm(old(selectedFile).value, userId))
        && !isProcessing
        && env.log == old(env.log) + [Request("POST", ProfileService.UploadPath, [])] +
             (if outcome.Ok? then [Toast("CV Procesado", Success), DeliverProfile(outcome.body)]
              else [Toast("Error", Error)])
      ensures selectedFile == old(selectedFile) && isDragging == old(isDragging)
      ensures env.storage == old(env.storage) && env.authHeader == old(env.authHeader)
    {
      if selectedFile.None? || isProcessing || userId == "" {
        return None;
      }
      isProcessing := true;
      sent := Some(ProfileService.UploadForm(selectedFile.value, userId));
      env.Emit(Request("POST", ProfileService.UploadPath, []));
      match outcome {
        case Ok(profile) =>
          env.Emit(Toast("CV Procesado", Success));
          env.Emit(DeliverProfile(profile));
        case Err(_) =>
          env.Emit(Toast("Error", Error));
      }
      isProcessing := false;
    }

    /** The unmount cleanup. */
    method Unmount()
      modifies this
      ensures !isProcessing && selectedFile == None && isDragging == old(isDragging)
    {
      isProcessing := false;
      selectedFile := None;
    }
  }
}
