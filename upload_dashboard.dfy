/**
 * The dashboard's upload-and-analyze controller. The repository has two
 * copies of it: `React/app/frontend/src/pages/Dashboard.js` and the earlier
 * `saas-project/frontend/src/components/Dashboard.js`. Their state and handlers
 * are the same; they differ only in two success toasts and in the upload
 * button's guard, so one class models both, with the copy as a constant.
 *
 * Each async handler is split in two: a start step that runs up to the
 * `await` and returns the request it would send, and a settle step that takes
 * the request's outcome and runs the `try`/`catch`/`finally` continuation.
 * Requests, toasts and redirects are returned instead of being performed.
 */
module UploadDashboard {
  import opened Wrappers
  import opened Ui

  /** Which of the two copies of the page. */
  datatype Copy = ReactApp | SaasProject

  /** `e.target.files[0]`: the browser's `File`, of which the page reads the
      MIME type. */
  datatype SelectedFile = SelectedFile(name: string, mediaType: string)

  datatype Analysis = Analysis(resultPath: string)

  /** One entry of `GET /api/uploads`; `analyses` may be absent. */
  datatype Upload = Upload(id: int, filename: string, uploadDate: string, analyses: Option<seq<Analysis>>)

  /** The HTTP requests the page sends. `userId` in `GetUploads` is what the
      query string is built from, so it may be `null`. */
  datatype Request =
    | GetUploads(userId: Option<string>)
    | PostUpload(file: SelectedFile, owner: string)
    | PostAnalyze(uploadId: int)

  /** `type.startsWith('image/')`. */
  predicate IsImageType(mediaType: string)
  {
    "image/" <= mediaType
  }

  /** A string is truthy in JavaScript when it is non-empty. */
  predicate Truthy(s: Option<string>)
  {
    s.Some? && s.value != ""
  }

  /** `upload.analyses && upload.analyses.length > 0`. */
  predicate Analyzed(u: Upload)
  {
    u.analyses.Some? && |u.analyses.value| > 0
  }

  /** The state-dependent props passed to an upload's analyze button. */
  datatype AnalyzeButtonView = AnalyzeButtonView(
    disabled: bool, loading: bool, text: string, colorScheme: string, variant: Option<string>)

  /** The props the page passes to an upload's analyze button. The React copy
      passes `colorScheme` 'gray' and `variant` 'outline' once the upload is
      analysed ('green' and 'solid' before); the saas copy always passes
      'green' and no variant. How the button's own styling treats these props
      is not modelled. `isAnalyzing[id]` is `undefined`, hence falsy, for an
      id never analysed. */
  function AnalyzeButton(copy: Copy, u: Upload, isAnalyzing: map<int, bool>): (b: AnalyzeButtonView)
    ensures b.disabled <==> u.analyses.Some? && u.analyses.value != []
    ensures b.disabled <==> b.text == "Analyzed"
    ensures !b.disabled <==> b.text == "Analyze"
    ensures b.loading <==> u.id in isAnalyzing && isAnalyzing[u.id]
    ensures copy == ReactApp ==> (b.colorScheme == "gray" <==> b.disabled) && (b.variant == Some("outline") <==> b.disabled)
    ensures copy == SaasProject ==> b.colorScheme == "green" && b.variant == None
  {
    var done := Analyzed(u);
    AnalyzeButtonView(
      done,
      u.id in isAnalyzing && isAnalyzing[u.id],
      if done then "Analyzed" else "Analyze",
      if copy == SaasProject then "green" else if done then "gray" else "green",
      if copy == SaasProject then None else if done then Some("outline") else Some("solid"))
  }

  /** The upload button's `isDisabled`: the React copy checks only for a file,
      the saas copy also while an upload is in flight. */
  function UploadButtonDisabled(copy: Copy, file: Option<SelectedFile>, isUploading: bool): (disabled: bool)
    ensures file.None? ==> disabled
    ensures copy == SaasProject && isUploading ==> disabled
    ensures copy == ReactApp ==> (disabled <==> file.None?)
    ensures copy == SaasProject ==> (disabled <==> file.None? || isUploading)
    ensures !disabled ==> file.Some?
  {
    match copy
    case ReactApp => file.None?
    case SaasProject => file.None? || isUploading
  }

  const InvalidFileToast := Toast(Error, "Invalid file type", Some("Please select an image file"))

  /** The toast after a successful upload. */
  function UploadedToast(copy: Copy): Toast
  {
    match copy
    case ReactApp => Toast(Success, "Success", Some("File uploaded successfully"))
    case SaasProject => Toast(Success, "File uploaded successfully", None)
  }

  /** The toast after a successful analysis. */
  function AnalyzedToast(copy: Copy): Toast
  {
    match copy
    case ReactApp => Toast(Success, "Success", Some("Analysis completed"))
    case SaasProject => Toast(Success, "Analysis completed", None)
  }

  class Dashboard {
    const copy: Copy
    var file: Option<SelectedFile>
    var preview: Option<string>
    var uploads: seq<Upload>
    var userId: Option<string>
    var isUploading: bool
    var isAnalyzing: map<int, bool>

    constructor (copy: Copy)
      ensures this.copy == copy
      ensures file == None && preview == None && uploads == [] && userId == None
      ensures !isUploading && isAnalyzing == map[]
    {
      this.copy := copy;
      file, preview, uploads, userId := None, None, [], None;
      isUploading, isAnalyzing := false, map[];
    }

    /** The mount effect, given what local storage holds under `userId`: a
        truthy id is kept and its uploads fetched once; otherwise the page
        sends nothing and redirects to the login page. */
    method Mount(stored: Option<string>) returns (sent: seq<Request>, redirect: Option<string>)
      modifies this`userId
      ensures Truthy(stored) ==> userId == stored && sent == [GetUploads(stored)] && redirect == None
      ensures !Truthy(stored) ==> userId == old(userId) && sent == [] && redirect == Some("/login")
    {
      if Truthy(stored) {
        userId := stored;
        sent := [GetUploads(stored)];
        redirect := None;
      } else {
        sent := [];
        redirect := Some("/login");
      }
    }

    /** The continuation of `fetchUploads`: the response replaces the list
        wholesale; an error leaves it and raises a toast. */
    method FetchUploadsSettled(outcome: Outcome<seq<Upload>>) returns (toast: Option<Toast>)
      modifies this`uploads
      ensures outcome.Ok? ==> uploads == outcome.body && toast == None
      ensures outcome.Failed? ==>
        && uploads == old(uploads)
        && toast == Some(Toast(Error, "Error fetching uploads", Some(FailureText(outcome.serverError))))
    {
      if outcome.Ok? {
        uploads := outcome.body;
        toast := None;
      } else {
        toast := Some(Toast(Error, "Error fetching uploads", Some(FailureText(outcome.serverError))));
      }
    }

    /** `handleFileChange`: the selection (possibly none) is always recorded.
        An image starts a `FileReader`, whose result arrives later through
        `ReaderLoadEnd`; anything else clears the preview and raises a toast
        but stays selected. */
    method HandleFileChange(selected: Option<SelectedFile>) returns (reading: Option<SelectedFile>, toast: Option<Toast>)
      modifies this`file, this`preview
      ensures file == selected
      ensures reading.Some? <==> selected.Some? && IsImageType(selected.value.mediaType)
      ensures reading.Some? ==> reading == selected && preview == old(preview) && toast == None
      ensures reading.None? ==> preview == None && toast == Some(InvalidFileToast)
    {
      file := selected;
      if selected.Some? && IsImageType(selected.value.mediaType) {
        reading := selected;
        toast := None;
      } else {
        reading := None;
        preview := None;
        toast := Some(InvalidFileToast);
      }
    }

    /** The reader's `onloadend`: `reader.result`, a data URL or `null`,
        becomes the preview. */
    method ReaderLoadEnd(result: Option<string>)
      modifies this`preview
      ensures preview == result
    {
      preview := result;
    }

    /** The synchronous part of `handleUpload`: without a file or a truthy
        user id it returns at once; otherwise it marks the upload in flight and
        posts the file with the user id. */
    method HandleUploadStart() returns (request: Option<Request>)
      modifies this`isUploading
      ensures file.None? || !Truthy(userId) ==> request == None && isUploading == old(isUploading)
      ensures file.Some? && Truthy(userId) ==>
        isUploading && request == Some(PostUpload(file.value, userId.value))
    {
      if file.None? || !Truthy(userId) {
        return None;
      }
      isUploading := true;
      request := Some(PostUpload(file.value, userId.value));
    }

    /** The continuation of `handleUpload`. Success clears the file and the
        preview and fetches the list again; failure keeps both. Either way
        `isUploading` ends false. */
    method HandleUploadSettled(outcome: Outcome<()>) returns (sent: seq<Request>, toast: Toast)
      modifies this`file, this`preview, this`isUploading
      ensures !isUploading
      ensures outcome.Ok? ==>
        file == None && preview == None && sent == [GetUploads(userId)] && toast == UploadedToast(copy)
      ensures outcome.Failed? ==>
        && file == old(file) && preview == old(preview) && sent == []
        && toast == Toast(Error, "Upload failed", Some(FailureText(outcome.serverError)))
    {
      if outcome.Ok? {
        file := None;
        preview := None;
        sent := [GetUploads(userId)];
        toast := UploadedToast(copy);
      } else {
        sent := [];
        toast := Toast(Error, "Upload failed", Some(FailureText(outcome.serverError)));
      }
      isUploading := false;
    }

    /** The synchronous part of `handleAnalyze(uploadId)`: mark that upload
        in flight, leaving every other entry as it was. */
    method HandleAnalyzeStart(uploadId: int) returns (request: Request)
      modifies this`isAnalyzing
      ensures isAnalyzing == old(isAnalyzing)[uploadId := true]
      ensures request == PostAnalyze(uploadId)
    {
      isAnalyzing := isAnalyzing[uploadId := true];
      request := PostAnalyze(uploadId);
    }

    /** The continuation of `handleAnalyze(uploadId)`: success fetches the
        list again; the `finally` block clears this upload's flag and touches
        no other. */
    method HandleAnalyzeSettled(uploadId: int, outcome: Outcome<()>) returns (sent: seq<Request>, toast: Toast)
      modifies this`isAnalyzing
      ensures isAnalyzing == old(isAnalyzing)[uploadId := false]
      ensures outcome.Ok? ==> sent == [GetUploads(userId)] && toast == AnalyzedToast(copy)
      ensures outcome.Failed? ==>
        sent == [] && toast == Toast(Error, "Analysis failed", Some(FailureText(outcome.serverError)))
    {
      if outcome.Ok? {
        sent := [GetUploads(userId)];
        toast := AnalyzedToast(copy);
      } else {
        sent := [];
        toast := Toast(Error, "Analysis failed", Some(FailureText(outcome.serverError)));
      }
      isAnalyzing := isAnalyzing[uploadId := false];
    }
  }

  /** Two analyses in flight at once, the second of which fails: each flag
      follows its own upload. */
  method OverlappingAnalyses(copy: Copy) returns (flags: map<int, bool>, toast: Toast)
    ensures flags == map[3 := true, 7 := false]
    ensures toast == Toast(Error, "Analysis failed", Some("model unavailable"))
  {
    var page := new Dashboard(copy);
    var r3 := page.HandleAnalyzeStart(3);
    var r7 := page.HandleAnalyzeStart(7);
    var sent;
    sent, toast := page.HandleAnalyzeSettled(7, Failed(Some("model unavailable")));
    flags := page.isAnalyzing;
  }

  /** A failed upload of a non-image file: the file stays selected (the
      upload button stays enabled) although no preview was ever made. */
  method FailedUploadKeepsFile(copy: Copy) returns (file: Option<SelectedFile>, preview: Option<string>, uploadDisabled: bool)
    ensures file == Some(SelectedFile("notes.txt", "text/plain"))
    ensures preview == None
    ensures !uploadDisabled
  {
    var page := new Dashboard(copy);
    var sent, redirect := page.Mount(Some("1"));
    var reading, toast := page.HandleFileChange(Some(SelectedFile("notes.txt", "text/plain")));
    var request := page.HandleUploadStart();
    var sent2, toast2 := page.HandleUploadSettled(Failed(None));
    file, preview := page.file, page.preview;
    uploadDisabled := UploadButtonDisabled(copy, page.file, page.isUploading);
  }

  /** One upload in the saas copy: while it is in flight the upload button
      is disabled, and its success clears the selection, refetches the list
      and shows the title-only toast. */
  method SaasUploadCycle() returns (disabledDuring: bool, sent: seq<Request>, toast: Toast, file: Option<SelectedFile>)
    ensures disabledDuring
    ensures sent == [GetUploads(Some("1"))]
    ensures toast == Toast(Success, "File uploaded successfully", None)
    ensures file == None
  {
    var page := new Dashboard(SaasProject);
    var fetch, redirect := page.Mount(Some("1"));
    var reading, warning := page.HandleFileChange(Some(SelectedFile("blade.png", "image/png")));
    var request := page.HandleUploadStart();
    disabledDuring := UploadButtonDisabled(page.copy, page.file, page.isUploading);
    sent, toast := page.HandleUploadSettled(Ok(()));
    file := page.file;
  }
}
