/** The complaint submission page: the creation form, the evidence-image
    selection with its local checks, and the submit flow (validate, upload
    the image, take a signed URL or fall back to the public one, insert the
    row, then show success or an inline error). */
module SubmissionPage {
  import opened Wrappers
  import opened Gateway
  import opened ComplaintModel
  import opened Text

  /** Largest accepted image, in bytes (5 MB). */
  const MaxImageBytes := 5 * 1024 * 1024
  /** Folder under the user's directory in the evidence bucket. */
  const EvidenceFolder := "complaint-evidence"
  /** Validity of the signed URL, in seconds. */
  const SignedUrlSeconds := 3600

  const NotAnImageError := "Harap unggah file gambar (JPEG, PNG, dll)"
  const TooLargeError := "Ukuran file harus kurang dari 5MB"
  const MissingFieldsError := "Judul dan deskripsi wajib diisi"
  const SubmitFailedError := "Gagal mengirim pengaduan"

  /** `newComplaint`: the form's fields. */
  datatype Form = Form(title: string, description: string, category: string, priority: string)

  const InitialForm := Form("", "", "general", "medium")

  /** The inline error for a picked file, or None when it is accepted. */
  function ImageRejection(f: ImageFile): (r: Option<string>)
    ensures r.None? <==> StartsWith(f.mimeType, "image/") && f.size <= MaxImageBytes
    ensures !StartsWith(f.mimeType, "image/") ==> r == Some(NotAnImageError)
    ensures StartsWith(f.mimeType, "image/") && f.size > MaxImageBytes ==> r == Some(TooLargeError)
  {
    if !StartsWith(f.mimeType, "image/") then Some(NotAnImageError)
    else if f.size > MaxImageBytes then Some(TooLargeError)
    else None
  }

  /** An image of exactly 5 MB is accepted; one byte more is refused. */
  lemma ImageSizeBoundary(name: string, mimeType: string)
    requires StartsWith(mimeType, "image/")
    ensures ImageRejection(ImageFile(name, mimeType, 5242880)).None?
    ensures ImageRejection(ImageFile(name, mimeType, 5242881)) == Some(TooLargeError)
  {
  }

  /** Both required fields are non-empty after trimming. */
  predicate FormValid(f: Form)
  {
    Trim(f.title) != "" && Trim(f.description) != ""
  }

  /** The form passes validation exactly when the title and the description
      each hold a character that is not white space. */
  lemma FormValidSpec(f: Form)
    ensures FormValid(f) <==>
      (exists i :: 0 <= i < |f.title| && !IsSpace(f.title[i])) &&
      (exists j :: 0 <= j < |f.description| && !IsSpace(f.description[j]))
  {
    TrimEmpty(f.title);
    TrimEmpty(f.description);
  }

  /** `<userId>/complaint-evidence/<timestamp>_<random>.<ext>`, where `ext`
      is the picked file name's text after its last '.'. The timestamp and
      the random part are opaque inputs. */
  function StoragePath(userId: string, timestamp: string, random: string, fileName: string): string
  {
    userId + "/" + EvidenceFolder + "/" + timestamp + "_" + random + "." + FileExt(fileName)
  }

  /** The object lands in the user's evidence folder and keeps the picked
      file's extension. */
  lemma StoragePathSpec(userId: string, timestamp: string, random: string, fileName: string)
    ensures StartsWith(StoragePath(userId, timestamp, random, fileName), userId + "/complaint-evidence/")
    ensures FileExt(StoragePath(userId, timestamp, random, fileName)) == FileExt(fileName)
  {
    var ext := FileExt(fileName);
    var dir := userId + "/complaint-evidence/";
    var base := userId + "/" + EvidenceFolder + "/" + timestamp + "_" + random;
    var path := StoragePath(userId, timestamp, random, fileName);
    assert path == base + "." + ext;
    assert base == dir + (timestamp + "_" + random);
    assert path == dir + (timestamp + "_" + random + "." + ext);
    FileExtSpec(fileName);
    FileExtAfterDot(base, ext);
  }

  /** The inserted row: the form's fields as typed, untrimmed. */
  function SubmitPayload(userId: string, form: Form, image: ImageField): Payload
  {
    Payload(userId, form.title, form.description, form.category, form.priority, image)
  }

  /** The backend's answers to one submission: the upload, the signed-URL
      request, the public URL of the object, and the insert. */
  datatype Answers = Answers(upload: Status, signed: Outcome<string>, publicUrl: string, insert: Status)

  /** The requests a submission sends and the error it throws, if any. */
  datatype Run = Run(sent: seq<Request>, failure: Option<string>)

  /** Reference definition of the submit flow once validation has passed
      and the page is mounted. `SubmitRunSpec` states its properties, and
      the method `Submit` below is proved to send exactly these requests and
      raise exactly this error. */
  function SubmitRun(userId: string, form: Form, image: Option<ImageFile>,
                     timestamp: string, random: string, ans: Answers): Run
  {
    if image.None? then
      Run([InsertComplaint(SubmitPayload(userId, form, Absent))],
          if ans.insert.Failed? then Some(ans.insert.msg) else None)
    else
      var path := StoragePath(userId, timestamp, random, image.value.name);
      var upload := [UploadObject(EvidenceBucket, path)];
      if ans.upload.Failed? then Run(upload, Some(ans.upload.msg))
      else
        var sign := [CreateSignedUrl(EvidenceBucket, path, SignedUrlSeconds)];
        var fallback := if ans.signed.Err? then [GetPublicUrl(EvidenceBucket, path)] else [];
        var url := if ans.signed.Err? then ans.publicUrl else ans.signed.value;
        Run(upload + sign + fallback + [InsertComplaint(SubmitPayload(userId, form, Url(url)))],
            if ans.insert.Failed? then Some(ans.insert.msg) else None)
  }

  /** What a submission sends: without an image, one insert whose row has no
      `image_url` key; with an image, an upload to the evidence path first,
      and no insert at all if the upload fails; otherwise the signed URL, or
      the public URL when signing failed, and only one of them, in the row.
      The insert is always the last request, and the row carries the form's
      text as typed. */
  lemma SubmitRunSpec(userId: string, form: Form, image: Option<ImageFile>,
                      timestamp: string, random: string, ans: Answers)
    ensures var run := SubmitRun(userId, form, image, timestamp, random, ans);
      && (image.None? ==> run.sent == [InsertComplaint(SubmitPayload(userId, form, Absent))])
      && (image.Some? ==> run.sent[0] == UploadObject(EvidenceBucket, StoragePath(userId, timestamp, random, image.value.name)))
      && (image.Some? && ans.upload.Failed? ==>
            run.failure == Some(ans.upload.msg) && forall r :: r in run.sent ==> !IsInsert(r))
      && (image.Some? && ans.upload.Done? ==>
            && |run.sent| == (if ans.signed.Err? then 4 else 3)
            && (GetPublicUrl(EvidenceBucket, StoragePath(userId, timestamp, random, image.value.name)) in run.sent
                <==> ans.signed.Err?)
            && run.sent[|run.sent| - 1].InsertComplaint?
            && run.sent[|run.sent| - 1].payload.image
                 == Url(if ans.signed.Ok? then ans.signed.value else ans.publicUrl))
      && (image.None? || ans.upload.Done? ==>
            && run.sent[|run.sent| - 1] == InsertComplaint(run.sent[|run.sent| - 1].payload)
            && run.sent[|run.sent| - 1].payload.title == form.title
            && run.sent[|run.sent| - 1].payload.description == form.description
            && run.sent[|run.sent| - 1].payload.userId == userId
            && (run.failure.Some? <==> ans.insert.Failed?))
  {
  }

  /** `error.message || 'Gagal mengirim pengaduan'` */
  function FailureText(msg: string): (r: string)
    ensures r != ""
    ensures msg != "" ==> r == msg
    ensures msg == "" ==> r == SubmitFailedError
  {
    if msg != "" then msg else SubmitFailedError
  }

  /** The try block of `handleSubmit`: the requests in the order they are
      sent, and the message of the error thrown, if any. */
  method Submit(userId: string, form: Form, imageFile: Option<ImageFile>,
                timestamp: string, random: string, ans: Answers)
    returns (sent: seq<Request>, failure: Option<string>)
    ensures Run(sent, failure) == SubmitRun(userId, form, imageFile, timestamp, random, ans)
  {
    sent := [];
    failure := None;
    var image := Absent;
    if imageFile.Some? {
      var path := StoragePath(userId, timestamp, random, imageFile.value.name);
      sent := sent + [UploadObject(EvidenceBucket, path)];
      if ans.upload.Failed? {
        failure := Some(ans.upload.msg);
        return;
      }
      sent := sent + [CreateSignedUrl(EvidenceBucket, path, SignedUrlSeconds)];
      match ans.signed {
        case Err(_) =>
          sent := sent + [GetPublicUrl(EvidenceBucket, path)];
          image := Url(ans.publicUrl);
        case Ok(signedUrl) =>
          image := Url(signedUrl);
      }
    }
    sent := sent + [InsertComplaint(SubmitPayload(userId, form, image))];
    if ans.insert.Failed? {
      failure := Some(ans.insert.msg);
    }
  }

  class ComplaintPage {
    const userId: string
    var showCreateForm: bool
    var form: Form
    var imageFile: Option<ImageFile>
    var imagePreview: Option<string>
    var uploading: bool
    var submitting: bool
    var localError: string
    var showSuccess: bool
    /** Key of the embedded complaint list; a new key remounts and reloads it. */
    var listKey: nat
    /** `mountedRef.current` */
    var mounted: bool
    /** Whether the file input control holds a picked file. */
    var fileInputFilled: bool

    constructor (userId: string)
      ensures this.userId == userId
      ensures !showCreateForm && form == InitialForm
      ensures imageFile == None && imagePreview == None && !fileInputFilled
      ensures !uploading && !submitting && localError == "" && !showSuccess
      ensures listKey == 0 && mounted
    {
      this.userId := userId;
      showCreateForm := false;
      form := InitialForm;
      imageFile := None;
      imagePreview := None;
      uploading := false;
      submitting := false;
      localError := "";
      showSuccess := false;
      listKey := 0;
      mounted := true;
      fileInputFilled := false;
    }

    /** The form is on screen only while it is open and no success message is shown. */
    predicate FormVisible()
      reads this
    {
      showCreateForm && !showSuccess
    }

    /** The file input exists, and its ref is set, only inside the visible
        form of a mounted page. */
    predicate InputAttached()
      reads this
    {
      mounted && FormVisible()
    }

    method Unmount()
      modifies this`mounted
      ensures !mounted
    {
      mounted := false;
    }

    /** The header button opens or closes the form; the file input leaves
        the page with the form. */
    method ToggleCreateForm()
      modifies this`showCreateForm, this`fileInputFilled
      ensures showCreateForm == !old(showCreateForm)
      ensures fileInputFilled == (old(fileInputFilled) && FormVisible())
    {
      showCreateForm := !showCreateForm;
      if !FormVisible() {
        fileInputFilled := false;
      }
    }

    /** Typing in a field or picking a category or priority. */
    method EditForm(f: Form)
      modifies this`form
      ensures form == f
    {
      form := f;
    }

    /** The close button of the inline error. */
    method DismissError()
      modifies this`localError
      ensures localError == ""
    {
      localError := "";
    }

    /** `handleImageChange`: `file` is the first picked file, if any, and
        `previewUrl` the object URL the browser makes for it. */
    method HandleImageChange(file: Option<ImageFile>, previewUrl: string)
      modifies this`imageFile, this`imagePreview, this`localError, this`fileInputFilled
      ensures file.None? ==> unchanged(this)
      ensures file.Some? ==> fileInputFilled
      ensures file.Some? && ImageRejection(file.value).Some? ==>
        && localError == ImageRejection(file.value).value
        && imageFile == old(imageFile) && imagePreview == old(imagePreview)
      ensures file.Some? && ImageRejection(file.value).None? ==>
        imageFile == file && imagePreview == Some(previewUrl) && localError == ""
    {
      if file.None? {
        return;
      }
      fileInputFilled := true;
      var rejection := ImageRejection(file.value);
      if rejection.Some? {
        localError := rejection.value;
        return;
      }
      imageFile := file;
      imagePreview := Some(previewUrl);
      localError := "";
    }

    /** `removeImage`: forget the picked file and its preview, and empty the
        file input so the same file can be picked again. */
    method RemoveImage()
      modifies this`imageFile, this`imagePreview, this`fileInputFilled
      ensures old(mounted) ==> imageFile == None && imagePreview == None
      ensures !old(mounted) ==> imageFile == old(imageFile) && imagePreview == old(imagePreview)
      ensures fileInputFilled == (old(fileInputFilled) && !old(InputAttached()))
    {
      if mounted {
        imageFile := None;
        imagePreview := None;
      }
      if InputAttached() {
        fileInputFilled := false;
      }
    }

    /** `handleSubmit`. `timestamp` and `random` name the stored image, `ans`
        holds the backend's answers, and `teardown` says whether the page is
        torn down while the first request is in flight, which drops every
        later state update but not the later requests. */
    method HandleSubmit(timestamp: string, random: string, ans: Answers, teardown: bool)
      returns (sent: seq<Request>)
      modifies this
      ensures form == old(form) && imageFile == old(imageFile) && imagePreview == old(imagePreview)
      ensures showCreateForm == old(showCreateForm)
      ensures !FormValid(old(form)) ==>
        && sent == []
        && localError == MissingFieldsError
        && submitting == old(submitting) && uploading == old(uploading)
        && showSuccess == old(showSuccess) && listKey == old(listKey)
        && mounted == old(mounted) && fileInputFilled == old(fileInputFilled)
      ensures FormValid(old(form)) && !old(mounted) ==> sent == [] && unchanged(this)
      ensures FormValid(old(form)) && old(mounted) ==>
        sent == SubmitRun(userId, old(form), old(imageFile), timestamp, random, ans).sent
      ensures FormValid(old(form)) && old(mounted) && teardown ==>
        && !mounted && submitting && localError == ""
        && uploading == (old(uploading) || old(imageFile).Some?)
        && showSuccess == old(showSuccess) && listKey == old(listKey)
        && fileInputFilled == old(fileInputFilled)
      ensures FormValid(old(form)) && old(mounted) && !teardown ==> mounted && !submitting && !uploading
      ensures var run := SubmitRun(userId, old(form), old(imageFile), timestamp, random, ans);
        FormValid(old(form)) && old(mounted) && !teardown && run.failure.None? ==>
          && showSuccess && listKey == old(listKey) + 1 && localError == ""
          && !fileInputFilled
      ensures var run := SubmitRun(userId, old(form), old(imageFile), timestamp, random, ans);
        FormValid(old(form)) && old(mounted) && !teardown && run.failure.Some? ==>
          && localError == FailureText(run.failure.value)
          && showSuccess == old(showSuccess) && listKey == old(listKey)
          && fileInputFilled == old(fileInputFilled)
    {
      sent := [];
      if !FormValid(form) {
        localError := MissingFieldsError;
        return;
      }
      if !mounted {
        return;
      }
      submitting := true;
      localError := "";
      if imageFile.Some? {
        uploading := true;
      }
      if teardown {
        mounted := false;
      }
      var failure;
      sent, failure := Submit(userId, form, imageFile, timestamp, random, ans);

      if !mounted {
        return;
      }
      if failure.None? {
        showSuccess := true;
        submitting := false;
        uploading := false;
        listKey := listKey + 1;
        // the form, and the file input with it, leaves the page
        fileInputFilled := false;
      } else {
        localError := FailureText(failure.value);
        submitting := false;
        uploading := false;
      }
    }

    /** The success message's close button: hide the message and the form
        and reset the form and the image selection. */
    method DismissSuccess()
      modifies this
      ensures old(mounted) ==>
        && !showSuccess && !showCreateForm && !FormVisible()
        && form == InitialForm && imageFile == None && imagePreview == None
        && !fileInputFilled
      ensures !old(mounted) ==> unchanged(this)
      ensures uploading == old(uploading) && submitting == old(submitting)
      ensures localError == old(localError) && listKey == old(listKey) && mounted == old(mounted)
    {
      if mounted {
        showSuccess := false;
        showCreateForm := false;
        form := InitialForm;
        imageFile := None;
        imagePreview := None;
        // the file input leaves the page with the form
        fileInputFilled := false;
      }
    }
  }
}
