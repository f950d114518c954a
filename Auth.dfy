/** The sign-in modal: login, registration and the six-digit verification
    step, the error messages it shows and the code input's sanitiser. */
module Auth {
  import opened Wrappers
  import opened Lists
  import opened Text
  import opened Session

  /** `value.replace(/\D/g, "").slice(0, 6)`: the digits of the input, at
      most the first six. */
  function Sanitize(input: string): (r: string)
    ensures |r| <= 6
    ensures forall i :: 0 <= i < |r| ==> IsDigit(r[i])
  {
    var digits := Filter(input, IsDigit);
    FilterMembers(input, IsDigit);
    digits[..if |digits| < 6 then |digits| else 6]
  }

  /** The sanitised code is the input's digits, in order, cut at six. */
  lemma SanitizeSpec(input: string)
    ensures var r := Sanitize(input); var digits := Filter(input, IsDigit);
      r == digits[..|r|] && (|r| == 6 || r == digits)
    ensures Subsequence(Filter(input, IsDigit), input)
  {
    FilterSubsequence(input, IsDigit);
  }

  /** Filtering what passed the filter changes nothing. */
  lemma {:induction false} FilterAgain<T>(s: seq<T>, keep: T -> bool)
    requires forall i :: 0 <= i < |s| ==> keep(s[i])
    ensures Filter(s, keep) == s
  {
    if s != [] {
      FilterAgain(s[..|s| - 1], keep);
    }
  }

  /** Typing a sanitised code again leaves it as it is. */
  lemma SanitizeIdempotent(input: string)
    ensures Sanitize(Sanitize(input)) == Sanitize(input)
  {
    FilterAgain(Sanitize(input), IsDigit);
  }

  /** A JSON value in an error body: a string or an array of strings. */
  datatype Value = Str(s: string) | Array(items: seq<string>)

  /** What `handleSubmit` can catch: the JSON body of a rejected request, an
      `Error` object (a failed `fetch`, a body that is not JSON, a missing
      field), or a thrown non-object. */
  datatype Thrown = Body(fields: map<string, Value>) | ErrorObject(message: string) | Primitive

  /** Truthiness of a value: a non-empty string, or any array. */
  predicate Truthy(v: Value) {
    v.Array? || v.s != []
  }

  /** `error.error` is truthy. */
  predicate HasErrorField(thrown: Thrown) {
    thrown.Body? && "error" in thrown.fields && Truthy(thrown.fields["error"])
  }

  /** How React shows a value: an array's strings one after the other. */
  function Display(v: Value): string {
    match v
    case Str(s) => s
    case Array(items) => Concat(items)
  }

  /** `Array.isArray(v) ? v[0] : v`, with "" for the missing first element
      of an empty array. */
  function FirstOrSelf(v: Value): string {
    match v
    case Str(s) => s
    case Array(items) => if items == [] then "" else items[0]
  }

  const Unexpected: string := "An unexpected error occurred"

  /** The catch block of `handleSubmit`, as written. An `Error` object is of
      type "object" and has no own enumerable keys, so it maps to no
      message at all. */
  function ErrorMapping(thrown: Thrown): (r: map<string, string>)
    ensures HasErrorField(thrown) ==> r == map["general" := Display(thrown.fields["error"])]
    ensures thrown.Body? && !HasErrorField(thrown) ==>
      r.Keys == thrown.fields.Keys && forall k :: k in r ==> r[k] == FirstOrSelf(thrown.fields[k])
    ensures thrown.ErrorObject? ==> r == map[]
    ensures thrown.Primitive? ==> r == map["general" := Unexpected]
  {
    match thrown
    case Body(fields) =>
      if "error" in fields && Truthy(fields["error"]) then map["general" := Display(fields["error"])]
      else map k | k in fields :: FirstOrSelf(fields[k])
    case ErrorObject(_) => map[]
    case Primitive => map["general" := Unexpected]
  }

  /** Whether a mapping shows the user at least one message. */
  predicate ShowsMessage(errors: map<string, string>) {
    exists k :: k in errors && errors[k] != ""
  }

  /** A failed request that throws an `Error` object leaves the modal with
      no message to show. */
  lemma ErrorObjectShowsNothing(message: string)
    ensures !ShowsMessage(ErrorMapping(ErrorObject(message)))
  {
  }

  /** The mapping with a fallback: when nothing would be shown, the general
      message is. */
  function ErrorMessages(thrown: Thrown): (r: map<string, string>)
    ensures ShowsMessage(ErrorMapping(thrown)) ==> r == ErrorMapping(thrown)
    ensures !ShowsMessage(ErrorMapping(thrown)) ==> r == map["general" := Unexpected]
  {
    var mapped := ErrorMapping(thrown);
    if ShowsMessage(mapped) then mapped else map["general" := Unexpected]
  }

  /** With the fallback, every failed request shows a message. */
  lemma ErrorMessagesShown(thrown: Thrown)
    ensures ShowsMessage(ErrorMessages(thrown))
  {
    if !ShowsMessage(ErrorMapping(thrown)) {
      assert ErrorMessages(thrown)["general"] != "";
    }
  }

  /** A body's truthy `error` field is shown as the general message. */
  lemma ErrorFieldShown(fields: map<string, Value>)
    requires "error" in fields && Truthy(fields["error"]) && Display(fields["error"]) != ""
    ensures ErrorMessages(Body(fields)) == map["general" := Display(fields["error"])]
  {
    assert ErrorMapping(Body(fields))["general"] != "";
  }

  /** The header above the form. */
  datatype Header = Header(title: string, subtitle: string)

  /** `getHeaderContent`: verification first, then password reset, then
      login or registration. A missing pending user shows as "undefined". */
  function HeaderContent(verificationMode: bool, forgotPasswordMode: bool, isLoginMode: bool, pendingEmail: Option<string>): (r: Header)
    ensures r.title == "Check Your Email" <==> verificationMode
    ensures r.title == "Reset Password" <==> !verificationMode && forgotPasswordMode
    ensures r.title == "Welcome Back" <==> !verificationMode && !forgotPasswordMode && isLoginMode
    ensures r.title == "Join AiNura" <==> !verificationMode && !forgotPasswordMode && !isLoginMode
  {
    if verificationMode then
      Header("Check Your Email", "We've sent a 6-digit code to " + (if pendingEmail.Some? then pendingEmail.value else "undefined"))
    else if forgotPasswordMode then
      Header("Reset Password", "Enter your email address and we'll send you a link to reset your password")
    else if isLoginMode then
      Header("Welcome Back", "Sign in to your account to continue")
    else
      Header("Join AiNura", "Create your account and start making AI art")
  }

  /** The user a registration is waiting to verify. */
  datatype Pending = Pending(userId: int, email: string)

  /** The fields of a successful reply the modal reads. */
  datatype Reply = Reply(user: map<string, string>, token: string, userId: int, email: string)

  /** The request `handleSubmit` sends, if any. */
  datatype Request =
    | NoRequest
    | Verify(userId: int, code: string)
    | Login(usernameOrEmail: string, password: string)
    | Register(username: string, email: string, password: string, firstName: string, lastName: string,
               location: string, website: string)

  /** What a successful login or verification hands to `onLogin`:
      `{ username, email, token, ...user }`. The user's own keys win; a
      user without a username or email still gives those keys, empty. */
  function LoginPayload(user: map<string, string>, token: string): (r: map<string, string>)
    ensures r.Keys == user.Keys + {"username", "email", "token"}
    ensures forall k :: k in user ==> r[k] == user[k]
    ensures "token" !in user ==> r["token"] == token
    ensures "username" !in user ==> r["username"] == ""
    ensures "email" !in user ==> r["email"] == ""
  {
    map["username" := "", "email" := "", "token" := token] + user
  }

  /** A form field, "" when the form has no such key. */
  function Field(form: map<string, string>, name: string): string {
    if name in form then form[name] else ""
  }

  const EmptyForm: map<string, string> := map["email" := "", "password" := "", "confirmPassword" := "",
    "username" := "", "first_name" := "", "last_name" := "", "location" := "", "website" := ""]

  /** The form `toggleMode` puts back: without `location` and `website`. */
  const ToggledForm: map<string, string> := map["email" := "", "password" := "", "confirmPassword" := "",
    "username" := "", "first_name" := "", "last_name" := ""]

  /** What one `handleSubmit` leaves behind: the request sent, the payload
      handed to `onLogin`, and the new errors, verification step, pending
      user and browser storage. */
  datatype Submitted = Submitted(request: Request, loggedIn: Option<map<string, string>>,
    errors: map<string, string>, verificationMode: bool, pendingUser: Option<Pending>,
    storage: map<string, Stored>)

  /** `handleSubmit`: in the verification step a code of six characters is
      sent, otherwise a login, or (after the password check) a
      registration. A verified or signed-in user is saved to storage by
      `saveAuthData` and handed to `onLogin`; a registration waits for its
      code; a failure shows its messages. */
  function Submit(verificationMode: bool, isLoginMode: bool, code: string, pendingUser: Option<Pending>,
                  form: map<string, string>, storage: map<string, Stored>,
                  outcome: Result<Reply, Thrown>): (r: Submitted)
    requires verificationMode ==> pendingUser.Some?
    ensures verificationMode && |code| != 6 ==>
      r.request == NoRequest && r.loggedIn.None? && r.errors == map["general" := "Please enter a valid 6-digit code"]
    ensures !verificationMode && !isLoginMode && Field(form, "password") != Field(form, "confirmPassword") ==>
      r.request == NoRequest && r.loggedIn.None? && r.errors == map["confirmPassword" := "Passwords don't match!"]
    ensures verificationMode && |code| == 6 ==> r.request == Verify(pendingUser.value.userId, code)
    ensures !verificationMode && isLoginMode ==> r.request == Login(Field(form, "email"), Field(form, "password"))
    ensures !verificationMode && !isLoginMode && Field(form, "password") == Field(form, "confirmPassword") ==>
      r.request == Register(Field(form, "username"), Field(form, "email"), Field(form, "password"),
        Field(form, "first_name"), Field(form, "last_name"), Field(form, "location"), Field(form, "website"))
    ensures r.request != NoRequest && outcome.Err? ==> r.loggedIn.None? && r.errors == ErrorMessages(outcome.error)
    ensures (r.request.Verify? || r.request.Login?) && outcome.Ok? ==>
      r.errors == map[] && r.loggedIn == Some(LoginPayload(outcome.value.user, outcome.value.token))
      && r.storage == Saved(storage, outcome.value.user, outcome.value.token)
    ensures !((r.request.Verify? || r.request.Login?) && outcome.Ok?) ==> r.storage == storage
    ensures r.request.Register? && outcome.Ok? ==>
      r.errors == map[] && r.loggedIn.None? && r.verificationMode
      && r.pendingUser == Some(Pending(outcome.value.userId, outcome.value.email))
    ensures !(r.request.Register? && outcome.Ok?) ==>
      r.verificationMode == verificationMode && r.pendingUser == pendingUser
  {
    var request :=
      if verificationMode then
        if |code| != 6 then NoRequest else Verify(pendingUser.value.userId, code)
      else if isLoginMode then Login(Field(form, "email"), Field(form, "password"))
      else if Field(form, "password") != Field(form, "confirmPassword") then NoRequest
      else Register(Field(form, "username"), Field(form, "email"), Field(form, "password"),
        Field(form, "first_name"), Field(form, "last_name"), Field(form, "location"), Field(form, "website"));
    if request == NoRequest then
      var message := if verificationMode then map["general" := "Please enter a valid 6-digit code"]
                     else map["confirmPassword" := "Passwords don't match!"];
      Submitted(request, None, message, verificationMode, pendingUser, storage)
    else
      match outcome
      case Err(thrown) => Submitted(request, None, ErrorMessages(thrown), verificationMode, pendingUser, storage)
      case Ok(reply) =>
        if request.Register? then
          Submitted(request, None, map[], true, Some(Pending(reply.userId, reply.email)), storage)
        else
          Submitted(request, Some(LoginPayload(reply.user, reply.token)), map[], verificationMode, pendingUser,
            Saved(storage, reply.user, reply.token))
  }

  /** The state of the modal. */
  class AuthModal {
    var isLoginMode: bool
    var forgotPasswordMode: bool
    var verificationMode: bool
    var isLoading: bool
    var errors: map<string, string>
    var pendingUser: Option<Pending>
    var verificationCode: string
    var form: map<string, string>
    const store: Store

    /** Nothing ever turns the password-reset mode on, and the verification
        step always has the user it verifies. */
    ghost predicate Valid()
      reads this
    {
      !forgotPasswordMode && (verificationMode ==> pendingUser.Some?) && !isLoading
    }

    constructor(store: Store)
      ensures Valid()
      ensures isLoginMode && !verificationMode && errors == map[] && pendingUser.None?
      ensures verificationCode == "" && form == EmptyForm && this.store == store
    {
      this.store := store;
      isLoginMode := true;
      forgotPasswordMode := false;
      verificationMode := false;
      isLoading := false;
      errors := map[];
      pendingUser := None;
      verificationCode := "";
      form := EmptyForm;
    }

    /** `handleInputChange`: the named field takes the value, and that
        field's error is emptied only when one is shown. */
    method HandleInputChange(name: string, value: string)
      modifies this
      ensures form == old(form)[name := value]
      ensures errors == if name in old(errors) && old(errors)[name] != "" then old(errors)[name := ""] else old(errors)
      ensures isLoginMode == old(isLoginMode) && verificationMode == old(verificationMode)
      ensures forgotPasswordMode == old(forgotPasswordMode) && isLoading == old(isLoading)
      ensures pendingUser == old(pendingUser) && verificationCode == old(verificationCode)
    {
      form := form[name := value];
      if name in errors && errors[name] != "" {
        errors := errors[name := ""];
      }
    }

    /** The code input's `onChange`. */
    method SetVerificationCode(input: string)
      modifies this
      ensures verificationCode == Sanitize(input)
      ensures isLoginMode == old(isLoginMode) && verificationMode == old(verificationMode)
      ensures forgotPasswordMode == old(forgotPasswordMode) && isLoading == old(isLoading)
      ensures pendingUser == old(pendingUser) && errors == old(errors) && form == old(form)
    {
      verificationCode := Sanitize(input);
    }

    /** `handleSubmit`, given how the request it sends turns out. It
        answers the request sent and the payload handed to `onLogin`; the
        new state is the one `Submit` computes. */
    method HandleSubmit(outcome: Result<Reply, Thrown>) returns (request: Request, loggedIn: Option<map<string, string>>)
      requires Valid()
      modifies this, store
      ensures Valid()
      ensures var s := Submit(old(verificationMode), old(isLoginMode), old(verificationCode), old(pendingUser),
                              old(form), old(store.entries), outcome);
        request == s.request && loggedIn == s.loggedIn && errors == s.errors
        && verificationMode == s.verificationMode && pendingUser == s.pendingUser && store.entries == s.storage
      ensures isLoginMode == old(isLoginMode) && form == old(form) && verificationCode == old(verificationCode)
    {
      var s := Submit(verificationMode, isLoginMode, verificationCode, pendingUser, form, store.entries, outcome);
      isLoading := true;
      request, loggedIn := s.request, s.loggedIn;
      errors, verificationMode, pendingUser := s.errors, s.verificationMode, s.pendingUser;
      store.entries := s.storage;
      isLoading := false;
    }

    /** `handleResendCode`: a confirmation, or the failure's `error` field,
        or a fixed message (also when there is no pending user to read). */
    method HandleResendCode(outcome: Result<(), Thrown>) returns (resentFor: Option<int>)
      requires Valid()
      modifies this
      ensures Valid()
      ensures resentFor == if old(pendingUser).Some? then Some(old(pendingUser).value.userId) else None
      ensures resentFor.Some? && outcome.Ok? ==> errors == map["success" := "New verification code sent to your email!"]
      ensures resentFor.Some? && outcome.Err? && HasErrorField(outcome.error) ==>
        errors == map["general" := Display(outcome.error.fields["error"])]
      ensures resentFor.None? || (outcome.Err? && !HasErrorField(outcome.error)) ==>
        errors == map["general" := "Failed to resend code"]
      ensures isLoginMode == old(isLoginMode) && verificationMode == old(verificationMode) && form == old(form)
      ensures pendingUser == old(pendingUser) && verificationCode == old(verificationCode)
    {
      isLoading := true;
      resentFor := None;
      var failure: Option<Thrown> := None;
      if pendingUser.None? {
        failure := Some(ErrorObject("Cannot read properties of null (reading 'user_id')"));
      } else {
        resentFor := Some(pendingUser.value.userId);
        if outcome.Err? {
          failure := Some(outcome.error);
        }
      }
      match failure {
        case None => errors := map["success" := "New verification code sent to your email!"];
        case Some(thrown) =>
          if HasErrorField(thrown) {
            errors := map["general" := Display(thrown.fields["error"])];
          } else {
            errors := map["general" := "Failed to resend code"];
          }
      }
      isLoading := false;
    }

    /** The timer `handleResendCode` starts after a successful resend: three
        seconds later every message is cleared, whatever it is by then. */
    method ResendNoticeExpires()
      modifies this
      ensures errors == map[]
      ensures isLoginMode == old(isLoginMode) && verificationMode == old(verificationMode) && form == old(form)
      ensures forgotPasswordMode == old(forgotPasswordMode) && isLoading == old(isLoading)
      ensures pendingUser == old(pendingUser) && verificationCode == old(verificationCode)
    {
      errors := map[];
    }

    /** `toggleMode`: the other of login and registration, with everything
        else cleared and the form emptied. */
    method ToggleMode()
      requires Valid()
      modifies this
      ensures Valid()
      ensures isLoginMode == !old(isLoginMode)
      ensures !verificationMode && !forgotPasswordMode && pendingUser.None?
      ensures verificationCode == "" && errors == map[] && form == ToggledForm
    {
      isLoginMode := !isLoginMode;
      verificationMode := false;
      forgotPasswordMode := false;
      pendingUser := None;
      verificationCode := "";
      errors := map[];
      form := ToggledForm;
    }

    /** `handleBackToLogin`: login mode with the verification step dropped;
        the form is kept. */
    method HandleBackToLogin()
      requires Valid()
      modifies this
      ensures Valid()
      ensures isLoginMode && !verificationMode && !forgotPasswordMode && pendingUser.None?
      ensures verificationCode == "" && errors == map[] && form == old(form)
    {
      verificationMode := false;
      forgotPasswordMode := false;
      isLoginMode := true;
      pendingUser := None;
      verificationCode := "";
      errors := map[];
    }

    function CurrentHeader(): (r: Header)
      reads this
      ensures Valid() ==> r.title != "Reset Password"
    {
      HeaderContent(verificationMode, forgotPasswordMode, isLoginMode,
        if pendingUser.Some? then Some(pendingUser.value.email) else None)
    }
  }
}
