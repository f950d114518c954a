/** The profile modal: the edit form filled from the signed-in user, the
    checks on a chosen avatar or cover picture, the upload bookkeeping and
    the update it hands back. */
module Profile {
  import opened Wrappers
  import opened Text
  import opened Upload

  /** The signed-in user as the modal reads it: its own string fields and
      those of its `profile` object (empty when there is none). A field that
      is missing, null or empty reads as "". */
  datatype User = User(fields: map<string, string>, profile: map<string, string>)

  /** A field of a string map, "" when absent. */
  function Get(m: map<string, string>, key: string): string {
    if key in m then m[key] else ""
  }

  /** `a || b` on strings. */
  function Or(a: string, b: string): (r: string)
    ensures a != "" ==> r == a
    ensures a == "" ==> r == b
  {
    if a != "" then a else b
  }

  /** The seven fields copied as they are. */
  const PlainKeys: set<string> := {"username", "email", "first_name", "last_name", "bio", "location", "website"}

  /** Every key of the edit form. */
  const FormKeys: set<string> := PlainKeys + {"avatar", "cover_image"}

  /** The fields `handleSubmit` sends. */
  const EditableKeys: set<string> := {"first_name", "last_name", "bio", "location", "website", "avatar", "cover_image"}

  /** The avatar shown: `user?.profile?.avatar_url || user?.avatar || ""`. */
  function Avatar(user: Option<User>): string {
    if user.None? then "" else Or(Get(user.value.profile, "avatar_url"), Get(user.value.fields, "avatar"))
  }

  /** The cover: `user?.profile?.cover_image_url || user?.cover_image || ""`. */
  function Cover(user: Option<User>): string {
    if user.None? then "" else Or(Get(user.value.profile, "cover_image_url"), Get(user.value.fields, "cover_image"))
  }

  /** The form the modal builds from a user (the effect on `user`, and
      `handleCancel`). */
  function FormFromUser(user: Option<User>): map<string, string> {
    var plain := map k | k in PlainKeys :: if user.Some? then Get(user.value.fields, k) else "";
    plain["avatar" := Avatar(user)]["cover_image" := Cover(user)]
  }

  /** The form has exactly its nine keys; the plain ones copy the user's
      fields, and no user gives an empty form. */
  lemma FormFromUserSpec(user: Option<User>)
    ensures FormFromUser(user).Keys == FormKeys
    ensures forall k :: k in PlainKeys ==> FormFromUser(user)[k] == (if user.Some? then Get(user.value.fields, k) else "")
    ensures FormFromUser(user)["avatar"] == Avatar(user) && FormFromUser(user)["cover_image"] == Cover(user)
    ensures user.None? ==> forall k :: k in FormKeys ==> FormFromUser(user)[k] == ""
  {
  }

  /** The profile's picture wins, then the user's own field, then nothing;
      the same order holds for the cover. */
  lemma PictureOrder(user: User)
    ensures Get(user.profile, "avatar_url") != "" ==> Avatar(Some(user)) == user.profile["avatar_url"]
    ensures Get(user.profile, "avatar_url") == "" ==> Avatar(Some(user)) == Get(user.fields, "avatar")
    ensures Get(user.profile, "cover_image_url") != "" ==> Cover(Some(user)) == user.profile["cover_image_url"]
    ensures Get(user.profile, "cover_image_url") == "" ==> Cover(Some(user)) == Get(user.fields, "cover_image")
  {
  }

  /** What `handleSubmit` hands to `onUpdateProfile`: the seven editable
      fields of the form, never the username or the email. */
  function SubmitPayload(form: map<string, string>): (r: map<string, string>)
    ensures r.Keys == EditableKeys
    ensures "username" !in r && "email" !in r
    ensures forall k :: k in r ==> r[k] == Get(form, k)
  {
    map k | k in EditableKeys :: Get(form, k)
  }

  const ImageTypes: set<string> := {"image/jpeg", "image/jpg", "image/png", "image/webp"}

  const MaxPictureBytes: nat := 5 * 1024 * 1024

  const BadTypeAlert: string := "Please select a valid image file (JPEG, PNG, WEBP)"
  const TooLargeAlert: string := "File size must be less than 5MB"

  /** The alert `handleFileSelection` raises for a file, if any: the type
      is checked first, then the size. */
  function Rejection(file: File): (r: Option<string>)
    ensures r.None? <==> file.mime in ImageTypes && file.size <= MaxPictureBytes
    ensures file.mime !in ImageTypes ==> r == Some(BadTypeAlert)
    ensures file.mime in ImageTypes && file.size > MaxPictureBytes ==> r == Some(TooLargeAlert)
  {
    if file.mime !in ImageTypes then Some(BadTypeAlert)
    else if file.size > MaxPictureBytes then Some(TooLargeAlert)
    else None
  }

  /** The limit is inclusive: five mebibytes pass, one byte more does not. */
  lemma SizeLimitInclusive(name: string)
    ensures Rejection(File(name, "image/png", 5242880)).None?
    ensures Rejection(File(name, "image/png", 5242881)) == Some(TooLargeAlert)
    ensures Rejection(File(name, "image/gif", 1)) == Some(BadTypeAlert)
  {
  }

  const FailedPrefix: string := "Upload failed: "

  /** What follows "Upload failed: " in the alert of a failed upload: the
      thrown message, the server's error, or its status when it gave none. */
  function FailureDetail(response: Response): (r: string)
    requires !response.Accepted?
    ensures response.Unreachable? ==> r == response.message
    ensures response.Refused? && response.error.None? ==> r == "Upload failed"
    ensures response.Refused? && response.error.Some? && response.error.value != "" ==> r == response.error.value
    ensures response.Refused? && response.error == Some("") ==> r == "HTTP error! status: " + IntToString(response.status)
  {
    match response
    case Unreachable(message) => message
    case Refused(error, status) =>
      var body := if error.None? then "Upload failed" else error.value;
      if body != "" then body else "HTTP error! status: " + IntToString(status)
  }

  /** The alert `handleFileUpload` shows once the request is over: a
      success names the picture, a failure starts with "Upload failed: ". */
  function UploadAlert(kind: string, response: Response): (r: string)
    ensures response.Accepted? && kind == "avatar" ==> r == "Avatar uploaded successfully!"
    ensures response.Accepted? && kind != "avatar" ==> r == "Cover image uploaded successfully!"
    ensures !response.Accepted? ==> r == FailedPrefix + FailureDetail(response)
  {
    if response.Accepted? then
      (if kind == "avatar" then "Avatar uploaded successfully!" else "Cover image uploaded successfully!")
    else FailedPrefix + FailureDetail(response)
  }

  /** The form key and the profile key an upload of this kind fills. */
  function FormKeyOf(kind: string): string {
    if kind == "avatar" then "avatar" else "cover_image"
  }

  function ProfileKeyOf(kind: string): string {
    if kind == "avatar" then "avatar_url" else "cover_image_url"
  }

  /** The updated user handed to `onUpdateProfile` after an upload: the
      user with the picture's URL put into its profile. */
  function WithPicture(user: User, kind: string, url: string): (r: User)
    ensures r.fields == user.fields
    ensures r.profile == user.profile[ProfileKeyOf(kind) := url]
    ensures kind == "avatar" ==> Avatar(Some(r)) == Or(url, Get(user.fields, "avatar"))
    ensures kind != "avatar" ==> Cover(Some(r)) == Or(url, Get(user.fields, "cover_image"))
  {
    User(user.fields, user.profile[ProfileKeyOf(kind) := url])
  }

  /** After a successful upload the form shows what the updated user
      would show again once the modal rebuilds its form from it. */
  lemma UploadAgreesWithRebuild(user: User, kind: string, url: string)
    requires url != ""
    ensures FormFromUser(Some(WithPicture(user, kind, url)))[FormKeyOf(kind)] == url
  {
    FormFromUserSpec(Some(WithPicture(user, kind, url)));
  }

  /** The state of the modal. */
  class ProfileModal {
    var user: User
    var form: map<string, string>
    var isEditing: bool
    var isUploading: map<string, bool>
    var showCrop: bool
    var cropImageType: string
    var cropOriginalFile: Option<File>

    /** The first render followed by the effect on `user`. */
    constructor(user: User)
      ensures this.user == user && form == FormFromUser(Some(user))
      ensures !isEditing && isUploading == map["avatar" := false, "cover" := false]
      ensures !showCrop && cropImageType == "" && cropOriginalFile.None?
    {
      this.user := user;
      form := FormFromUser(Some(user));
      isEditing := false;
      isUploading := map["avatar" := false, "cover" := false];
      showCrop := false;
      cropImageType := "";
      cropOriginalFile := None;
    }

    /** A new `user` prop: the form is rebuilt from it, whatever was typed. */
    method UserChanged(u: User)
      modifies this
      ensures user == u && form == FormFromUser(Some(u))
      ensures isEditing == old(isEditing) && isUploading == old(isUploading)
      ensures showCrop == old(showCrop) && cropImageType == old(cropImageType) && cropOriginalFile == old(cropOriginalFile)
    {
      user := u;
      form := FormFromUser(Some(u));
    }

    /** `handleInputChange`: only the named field changes. */
    method HandleInputChange(name: string, value: string)
      modifies this
      ensures form == old(form)[name := value]
      ensures forall k :: k in old(form) && k != name ==> form[k] == old(form)[k]
      ensures user == old(user) && isEditing == old(isEditing) && isUploading == old(isUploading)
      ensures showCrop == old(showCrop) && cropImageType == old(cropImageType) && cropOriginalFile == old(cropOriginalFile)
    {
      form := form[name := value];
    }

    /** The edit button. */
    method StartEditing()
      modifies this
      ensures isEditing
      ensures user == old(user) && form == old(form) && isUploading == old(isUploading)
      ensures showCrop == old(showCrop) && cropImageType == old(cropImageType) && cropOriginalFile == old(cropOriginalFile)
    {
      isEditing := true;
    }

    /** `handleSubmit`: hands back the editable fields and leaves editing. */
    method HandleSubmit() returns (update: map<string, string>)
      modifies this
      ensures update == SubmitPayload(form)
      ensures !isEditing
      ensures user == old(user) && form == old(form) && isUploading == old(isUploading)
      ensures showCrop == old(showCrop) && cropImageType == old(cropImageType) && cropOriginalFile == old(cropOriginalFile)
    {
      update := SubmitPayload(form);
      isEditing := false;
    }

    /** `handleCancel`: leaves editing and throws the typed changes away. */
    method HandleCancel()
      modifies this
      ensures !isEditing && form == FormFromUser(Some(user))
      ensures user == old(user) && isUploading == old(isUploading)
      ensures showCrop == old(showCrop) && cropImageType == old(cropImageType) && cropOriginalFile == old(cropOriginalFile)
    {
      isEditing := false;
      form := FormFromUser(Some(user));
    }

    /** `handleFileSelection` with the file read: no file does nothing, a
        rejected file raises its alert and leaves the crop alone, an
        accepted one opens the crop for it. */
    method HandleFileSelection(file: Option<File>, kind: string) returns (alert: Option<string>)
      modifies this
      ensures file.None? ==> (alert.None? && showCrop == old(showCrop)
        && cropImageType == old(cropImageType) && cropOriginalFile == old(cropOriginalFile))
      ensures file.Some? ==> alert == Rejection(file.value)
      ensures file.Some? && alert.Some? ==> (showCrop == old(showCrop)
        && cropImageType == old(cropImageType) && cropOriginalFile == old(cropOriginalFile))
      ensures file.Some? && alert.None? ==> showCrop && cropImageType == kind && cropOriginalFile == file
      ensures user == old(user) && form == old(form) && isEditing == old(isEditing) && isUploading == old(isUploading)
    {
      alert := None;
      if file.None? {
        return;
      }
      alert := Rejection(file.value);
      if alert.Some? {
        return;
      }
      cropImageType := kind;
      cropOriginalFile := file;
      showCrop := true;
    }

    /** The crop's cancel button. */
    method CancelCrop()
      modifies this
      ensures !showCrop
      ensures user == old(user) && form == old(form) && isEditing == old(isEditing) && isUploading == old(isUploading)
      ensures cropImageType == old(cropImageType) && cropOriginalFile == old(cropOriginalFile)
    {
      showCrop := false;
    }

    /** `handleFileUpload` up to its request: the flag of this kind is on. */
    method StartUpload(kind: string)
      modifies this
      ensures isUploading == old(isUploading)[kind := true]
      ensures user == old(user) && form == old(form) && isEditing == old(isEditing)
      ensures showCrop == old(showCrop) && cropImageType == old(cropImageType) && cropOriginalFile == old(cropOriginalFile)
    {
      isUploading := isUploading[kind := true];
    }

    /** `handleFileUpload` from its request on, given the stored token and
        how the request ends. The flag of this kind is off afterwards
        whatever happens; only a success changes the form, and it hands
        back the updated user. */
    method FinishUpload(kind: string, token: Option<string>, response: Response)
      returns (alert: string, update: Option<User>)
      modifies this
      ensures isUploading == old(isUploading)[kind := false]
      ensures !HasToken(token) ==> alert == "Please login first!" && update.None? && form == old(form)
      ensures HasToken(token) ==> alert == UploadAlert(kind, response)
      ensures HasToken(token) && response.Accepted? ==>
        form == old(form)[FormKeyOf(kind) := response.url]
        && update == Some(WithPicture(user, kind, response.url))
      ensures HasToken(token) && !response.Accepted? ==> form == old(form) && update.None?
      ensures user == old(user) && isEditing == old(isEditing)
      ensures showCrop == old(showCrop) && cropImageType == old(cropImageType) && cropOriginalFile == old(cropOriginalFile)
    {
      update := None;
      if !HasToken(token) {
        alert := "Please login first!";
      } else {
        alert := UploadAlert(kind, response);
        if response.Accepted? {
          form := form[FormKeyOf(kind) := response.url];
          update := Some(WithPicture(user, kind, response.url));
        }
      }
      isUploading := isUploading[kind := false];
    }
  }
}
