/** The create page: a prompt and one picked image or video, checked and
    sent to the upload endpoint. */
module Create {
  import opened Wrappers
  import opened Text
  import opened Upload

  const MaxUploadBytes: nat := 50 * 1024 * 1024

  const NotMediaError: string := "Lütfen bir resim veya video dosyası yükleyin."
  const TooLargeError: string := "Dosya boyutu 50MB'dan küçük olmalıdır."
  const NoPromptError: string := "Lütfen bir açıklama (prompt) girin."
  const NoFileError: string := "Lütfen bir resim veya video yükleyin."
  const NoTokenError: string := "Lütfen önce giriş yapın."
  const FallbackError: string := "Yükleme sırasında bir hata oluştu."

  /** The kind of a picked file, or the error that refuses it: the MIME
      type must start with `image/` or `video/`, and the size must not
      exceed 50 MiB. */
  function Classify(file: File): (r: Result<string, string>)
    ensures r.Ok? <==> (StartsWith(file.mime, "image/") || StartsWith(file.mime, "video/")) && file.size <= MaxUploadBytes
    ensures r.Ok? ==> (r.value == "image" <==> StartsWith(file.mime, "image/")) && (r.value == "image" || r.value == "video")
    ensures !StartsWith(file.mime, "image/") && !StartsWith(file.mime, "video/") ==> r == Err(NotMediaError)
    ensures (StartsWith(file.mime, "image/") || StartsWith(file.mime, "video/")) && file.size > MaxUploadBytes ==>
      r == Err(TooLargeError)
  {
    var isImage := StartsWith(file.mime, "image/");
    var isVideo := StartsWith(file.mime, "video/");
    if !isImage && !isVideo then Err(NotMediaError)
    else if file.size > MaxUploadBytes then Err(TooLargeError)
    else Ok(if isImage then "image" else "video")
  }

  /** The multipart body `handleSubmit` sends: the file under the field
      named after its kind, the trimmed prompt and the kind. */
  datatype UploadForm = UploadForm(fileField: string, file: File, prompt: string, kind: string)

  /** The page a successful upload leads to. */
  function Destination(kind: string): (r: string)
    ensures kind == "image" ==> r == "/images"
    ensures kind != "image" ==> r == "/videos"
  {
    if kind == "image" then "/images" else "/videos"
  }

  /** The error shown after a failed request: the thrown message, the
      server's error or its status, and a fixed text for an empty message. */
  function FailureMessage(response: Response): (r: string)
    requires !response.Accepted?
    ensures r != ""
    ensures response.Unreachable? && response.message != "" ==> r == response.message
    ensures response.Unreachable? && response.message == "" ==> r == FallbackError
    ensures response.Refused? && response.error.None? ==> r == "Yükleme başarısız oldu."
    ensures response.Refused? && response.error.Some? && response.error.value != "" ==> r == response.error.value
    ensures response.Refused? && response.error == Some("") ==> r == "HTTP Hatası: " + IntToString(response.status)
  {
    var message := match response
      case Unreachable(m) => m
      case Refused(error, status) =>
        var body := if error.None? then "Yükleme başarısız oldu." else error.value;
        if body != "" then body else "HTTP Hatası: " + IntToString(status);
    if message != "" then message else FallbackError
  }

  /** The state of the page. */
  class CreatePage {
    var prompt: string
    var uploadedFile: Option<File>
    var previewUrl: Option<string>
    var fileType: string
    var error: string
    var isUploading: bool

    /** A file, its preview and its kind are there together or not at all,
        and the kind is one of the two the page knows. */
    ghost predicate Valid()
      reads this
    {
      (uploadedFile.Some? <==> previewUrl.Some?)
      && (uploadedFile.Some? ==> fileType == "image" || fileType == "video")
      && (uploadedFile.None? ==> fileType == "")
      && !isUploading
    }

    constructor()
      ensures Valid()
      ensures prompt == "" && uploadedFile.None? && error == ""
    {
      prompt := "";
      uploadedFile := None;
      previewUrl := None;
      fileType := "";
      error := "";
      isUploading := false;
    }

    /** The prompt box. */
    method SetPrompt(text: string)
      requires Valid()
      modifies this
      ensures Valid()
      ensures prompt == text
      ensures uploadedFile == old(uploadedFile) && previewUrl == old(previewUrl) && fileType == old(fileType) && error == old(error)
    {
      prompt := text;
    }

    /** `handleFileUpload`, with the file read into `preview`: no file does
        nothing; a refused file only sets the error; an accepted one
        replaces the picked file and clears the error. */
    method HandleFileUpload(file: Option<File>, preview: string)
      requires Valid()
      modifies this
      ensures Valid()
      ensures file.None? ==> (uploadedFile == old(uploadedFile) && previewUrl == old(previewUrl)
        && fileType == old(fileType) && error == old(error))
      ensures file.Some? && Classify(file.value).Err? ==> (error == Classify(file.value).error
        && uploadedFile == old(uploadedFile) && previewUrl == old(previewUrl) && fileType == old(fileType))
      ensures file.Some? && Classify(file.value).Ok? ==> (uploadedFile == file && previewUrl == Some(preview)
        && fileType == Classify(file.value).value && error == "")
      ensures prompt == old(prompt)
    {
      if file.None? {
        return;
      }
      match Classify(file.value) {
        case Err(message) =>
          error := message;
        case Ok(kind) =>
          uploadedFile := file;
          previewUrl := Some(preview);
          fileType := kind;
          error := "";
      }
    }

    /** `removeUploadedFile`: the file, its preview and its kind go. */
    method RemoveUploadedFile()
      requires Valid()
      modifies this
      ensures Valid()
      ensures uploadedFile.None? && previewUrl.None? && fileType == ""
      ensures prompt == old(prompt) && error == old(error)
    {
      uploadedFile := None;
      previewUrl := None;
      fileType := "";
    }

    /** `handleSubmit`, given the stored token and how the request ends. It
        answers the form sent, the route navigated to and the alert shown. */
    method HandleSubmit(token: Option<string>, response: Response)
      returns (sent: Option<UploadForm>, navigateTo: Option<string>, alert: Option<string>)
      requires Valid()
      modifies this
      ensures Valid()
      ensures IsBlank(prompt) ==> error == NoPromptError && sent.None? && navigateTo.None? && alert.None?
      ensures !IsBlank(prompt) && uploadedFile.None? ==>
        error == NoFileError && sent.None? && navigateTo.None? && alert.None?
      ensures !IsBlank(prompt) && uploadedFile.Some? && !HasToken(token) ==>
        error == NoTokenError && sent.None? && navigateTo == Some("/login") && alert.None?
      ensures sent.Some? <==> !IsBlank(prompt) && uploadedFile.Some? && HasToken(token)
      ensures sent.Some? ==> sent.value == UploadForm(fileType, uploadedFile.value, Trim(prompt), fileType)
      ensures sent.Some? && response.Accepted? ==>
        error == "" && navigateTo == Some(Destination(fileType))
        && alert == Some((if fileType == "image" then "Resim" else "Video") + " başarıyla yüklendi!")
      ensures sent.Some? && !response.Accepted? ==>
        error == FailureMessage(response) && navigateTo.None? && alert.None?
      ensures prompt == old(prompt) && uploadedFile == old(uploadedFile)
      ensures previewUrl == old(previewUrl) && fileType == old(fileType)
    {
      sent := None;
      navigateTo := None;
      alert := None;
      TrimEmptyIffBlank(prompt);
      if Trim(prompt) == [] {
        error := NoPromptError;
        return;
      }
      if uploadedFile.None? {
        error := NoFileError;
        return;
      }
      isUploading := true;
      error := "";
      if !HasToken(token) {
        error := NoTokenError;
        navigateTo := Some("/login");
        isUploading := false;
        return;
      }
      var field := if fileType == "image" then "image" else "video";
      sent := Some(UploadForm(field, uploadedFile.value, Trim(prompt), fileType));
      if response.Accepted? {
        alert := Some((if fileType == "image" then "Resim" else "Video") + " başarıyla yüklendi!");
        navigateTo := Some(Destination(fileType));
      } else {
        error := FailureMessage(response);
      }
      isUploading := false;
    }
  }
}
