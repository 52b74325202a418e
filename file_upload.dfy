/**
  The single-file upload widget: a size gate, one upload request at a time
  per chosen file, the uploaded descriptor or a cleared preview afterwards,
  removal, and the drag highlight. The request, its response and the
  preview reader are events with their results passed in.
 */
module FileUploadWidget {
  import opened Wrappers
  import opened Text
  import opened SizeFormat

  /** A file chosen by the user. */
  datatype File = File(name: string, mimeType: string, size: nat)

  /** The descriptor the upload endpoint returns. */
  datatype UploadedFile = UploadedFile(filename: string, url: string, size: nat, fileType: string)

  /** The multipart request: the file and the target folder. */
  datatype UploadRequest = UploadRequest(file: File, folder: string)

  /** How the upload request ended. */
  datatype UploadOutcome =
    | Stored(descriptor: UploadedFile)        // ok response
    | Refused(error: Option<string>)          // non-ok response, with the body's `error`
    | Threw(message: string)                  // fetch or body parsing threw an Error
    | ThrewOther                              // something that is not an Error was thrown

  const DefaultMaxSizeMB: nat := 10
  const DefaultFolder: string := "theolingua"
  const RefusedMessage: string := "Upload failed"
  const UnknownFailureMessage: string := "Failed to upload file"
  const ImagePrefix: string := "image/"

  /**
    `file.size / (1024 * 1024) > maxSizeMB`: dividing by a power of two is
    exact, so the gate compares whole mebibytes and the remainder.
   */
  function TooLarge(size: nat, maxSizeMB: nat): (r: bool)
    ensures r <==> (size / MiB > maxSizeMB || (size / MiB == maxSizeMB && size % MiB > 0))
  {
    size > maxSizeMB * MiB
  }

  /** `files?.[0]`: the first file, none for an empty selection. */
  function FirstFile(files: seq<File>): (r: Option<File>)
    ensures r.None? <==> files == []
    ensures r.Some? ==> r.value == files[0] && r.value in files
  {
    if files == [] then None else Some(files[0])
  }

  /** `file.type.startsWith('image/')`: only images get a preview. */
  predicate IsImage(f: File)
    ensures IsImage(f) <==> |f.mimeType| >= |ImagePrefix| && f.mimeType[..|ImagePrefix|] == ImagePrefix
  {
    ImagePrefix <= f.mimeType
  }

  /** The message shown for a failed upload. */
  function FailureMessage(outcome: UploadOutcome): (m: string)
    requires !outcome.Stored?
    ensures outcome.Refused? ==> m == Or(outcome.error, RefusedMessage) && m != ""
    ensures outcome.Threw? ==> m == outcome.message
    ensures outcome.ThrewOther? ==> m == UnknownFailureMessage
  {
    match outcome
    case Refused(e) => Or(e, RefusedMessage)
    case Threw(msg) => msg
    case ThrewOther => UnknownFailureMessage
  }

  class Uploader {
    const maxSizeMB: nat
    const folder: string
    var uploading: bool
    var uploadedFile: Option<UploadedFile>
    var preview: Option<string>
    var isDragging: bool
    /** The descriptors passed to `onUploadComplete`, in order. */
    var completed: seq<UploadedFile>

    /** The props `maxSizeMB` and `folder`, each defaulted when not given. */
    constructor (maxSizeMBProp: Option<nat>, folderProp: Option<string>)
      ensures maxSizeMB == maxSizeMBProp.GetOr(DefaultMaxSizeMB)
      ensures folder == folderProp.GetOr(DefaultFolder)
      ensures !uploading && uploadedFile.None? && preview.None? && !isDragging && completed == []
    {
      maxSizeMB := maxSizeMBProp.GetOr(DefaultMaxSizeMB);
      folder := folderProp.GetOr(DefaultFolder);
      uploading := false;
      uploadedFile := None;
      preview := None;
      isDragging := false;
      completed := [];
    }

    /**
      `uploadFile` up to the request: a file over the limit is refused with
      nothing sent and nothing changed; otherwise an image starts a preview
      read, the request carries the file and the folder, and `uploading`
      is set.
     */
    method Upload(file: File) returns (request: Option<UploadRequest>, readsPreview: bool)
      modifies this`uploading
      ensures request.None? <==> TooLarge(file.size, maxSizeMB)
      ensures request.None? ==> uploading == old(uploading) && !readsPreview
      ensures request.Some? ==> request.value == UploadRequest(file, folder) && uploading
      ensures request.Some? ==> (readsPreview <==> IsImage(file))
    {
      if TooLarge(file.size, maxSizeMB) {
        return None, false;
      }
      readsPreview := IsImage(file);
      uploading := true;
      request := Some(UploadRequest(file, folder));
    }

    /** The preview reader finished: its data URL becomes the preview. */
    method PreviewLoaded(dataUrl: string)
      modifies this`preview
      ensures preview == Some(dataUrl)
    {
      preview := Some(dataUrl);
    }

    /**
      `uploadFile` after the request: on success the descriptor is stored
      and reported once to `onUploadComplete`; on failure the preview is
      cleared, nothing is stored and the failure message is returned.
      `uploading` ends false either way.
     */
    method FinishUpload(outcome: UploadOutcome) returns (errorMessage: Option<string>)
      modifies this`uploading, this`uploadedFile, this`preview, this`completed
      ensures !uploading
      ensures outcome.Stored? ==>
                && uploadedFile == Some(outcome.descriptor)
                && completed == old(completed) + [outcome.descriptor]
                && preview == old(preview) && errorMessage.None?
      ensures !outcome.Stored? ==>
                && uploadedFile == old(uploadedFile) && completed == old(completed)
                && preview.None? && errorMessage == Some(FailureMessage(outcome))
    {
      if outcome.Stored? {
        uploadedFile := Some(outcome.descriptor);
        completed := completed + [outcome.descriptor];
        errorMessage := None;
      } else {
        errorMessage := Some(FailureMessage(outcome));
        preview := None;
      }
      uploading := false;
    }

    /** `handleFileSelect`: the first chosen file is uploaded; an empty selection does nothing. */
    method SelectFiles(files: seq<File>) returns (request: Option<UploadRequest>, readsPreview: bool)
      modifies this`uploading
      ensures files == [] ==> request.None? && !readsPreview && uploading == old(uploading)
      ensures files != [] ==> (request.None? <==> TooLarge(files[0].size, maxSizeMB))
      ensures request.None? ==> uploading == old(uploading) && !readsPreview
      ensures request.Some? ==> request.value == UploadRequest(files[0], folder) && uploading
      ensures request.Some? ==> (readsPreview <==> IsImage(files[0]))
    {
      var first := FirstFile(files);
      if first.None? {
        return None, false;
      }
      request, readsPreview := Upload(first.value);
    }

    method DragOver()
      modifies this`isDragging
      ensures isDragging
    {
      isDragging := true;
    }

    method DragLeave()
      modifies this`isDragging
      ensures !isDragging
    {
      isDragging := false;
    }

    /** `handleDrop`: the highlight goes off, then the first dropped file is uploaded. */
    method Drop(files: seq<File>) returns (request: Option<UploadRequest>, readsPreview: bool)
      modifies this`isDragging, this`uploading
      ensures !isDragging
      ensures files == [] ==> request.None? && !readsPreview && uploading == old(uploading)
      ensures files != [] ==> (request.None? <==> TooLarge(files[0].size, maxSizeMB))
      ensures request.None? ==> uploading == old(uploading) && !readsPreview
      ensures request.Some? ==> request.value == UploadRequest(files[0], folder) && uploading
      ensures request.Some? ==> (readsPreview <==> IsImage(files[0]))
    {
      isDragging := false;
      request, readsPreview := SelectFiles(files);
    }

    /** `handleRemove`: the stored descriptor and the preview are cleared, nothing else. */
    method Remove()
      modifies this`uploadedFile, this`preview
      ensures uploadedFile.None? && preview.None?
    {
      uploadedFile := None;
      preview := None;
    }

  }
}
