/** The contact page: a five-field form, its validation and its reset after
    a successful submit. */
module Contact {
  import opened Text

  datatype ContactForm = ContactForm(name: string, email: string, subject: string, message: string, category: string)

  const EmptyForm: ContactForm := ContactForm("", "", "", "", "general")

  /** `{ ...prev, [name]: value }`: the named field takes the value. A name
      that is none of the five fields adds a key that nothing reads, so the
      form is unchanged. */
  function WithField(form: ContactForm, name: string, value: string): (r: ContactForm)
    ensures name == "name" ==> r == form.(name := value)
    ensures name == "email" ==> r == form.(email := value)
    ensures name == "subject" ==> r == form.(subject := value)
    ensures name == "message" ==> r == form.(message := value)
    ensures name == "category" ==> r == form.(category := value)
    ensures name !in {"name", "email", "subject", "message", "category"} ==> r == form
  {
    if name == "name" then form.(name := value)
    else if name == "email" then form.(email := value)
    else if name == "subject" then form.(subject := value)
    else if name == "message" then form.(message := value)
    else if name == "category" then form.(category := value)
    else form
  }

  /** The pattern `\S+@\S+\.\S+` occurs in `s`: a non-blank character, `@`,
      one or more non-blank characters, `.`, and a non-blank character. */
  predicate EmailShape(s: string) {
    exists at, dot :: 1 <= at && at + 2 <= dot && dot + 1 < |s| && EmailAt(s, at, dot)
  }

  /** The match with its `@` at `at` and its `.` at `dot`. */
  predicate EmailAt(s: string, at: nat, dot: nat)
    requires 1 <= at && at + 2 <= dot && dot + 1 < |s|
  {
    s[at] == '@' && s[dot] == '.' && !IsSpace(s[at - 1]) && !IsSpace(s[dot + 1])
    && forall k :: at < k < dot ==> !IsSpace(s[k])
  }

  lemma EmailShapeExamples()
    ensures EmailShape("ann@mail.az")
    ensures !EmailShape("ann@mail")
    ensures !EmailShape("ann @.az")
  {
    assert EmailAt("ann@mail.az", 3, 8);
  }

  /** A string of the email shape has an `@` followed later by a `.`. */
  lemma EmailShapeHasAtAndDot(s: string)
    requires EmailShape(s)
    ensures exists i, j :: 0 <= i < j < |s| && s[i] == '@' && s[j] == '.'
    ensures !IsBlank(s)
  {
    var at, dot :| 1 <= at && at + 2 <= dot && dot + 1 < |s| && EmailAt(s, at, dot);
    assert !IsSpace(s[at]);
  }

  /** The messages `validateForm` records, and `Cleared` for the empty
      message typing puts in their place. */
  datatype Problem = Cleared | NameRequired | EmailRequired | EmailInvalid | SubjectRequired | MessageRequired | MessageTooShort

  function Message(p: Problem): string {
    match p
    case Cleared => ""
    case NameRequired => "Name is required"
    case EmailRequired => "Email is required"
    case EmailInvalid => "Please enter a valid email"
    case SubjectRequired => "Subject is required"
    case MessageRequired => "Message is required"
    case MessageTooShort => "Message must be at least 10 characters"
  }

  /** The errors `validateForm` records for a form, one field after the
      other; `!s.trim()` is `IsBlank(s)` (`Text.TrimEmptyIffBlank`). */
  function FormErrors(form: ContactForm): map<string, Problem> {
    CheckMessage(form, CheckSubject(form, CheckEmail(form, CheckName(form, map[]))))
  }

  /** A field has an error exactly when its rule fails: a blank name or
      subject, a blank or misshapen email, a trimmed message shorter than
      10 UTF-16 code units (JavaScript's `length`); the email and message
      errors say which rule failed. */
  lemma FormErrorsSpec(form: ContactForm)
    ensures var r := FormErrors(form);
      ("name" in r <==> IsBlank(form.name))
      && ("email" in r <==> IsBlank(form.email) || !EmailShape(form.email))
      && ("subject" in r <==> IsBlank(form.subject))
      && ("message" in r <==> Utf16Length(Trim(form.message)) < 10)
      && ("email" in r ==> r["email"] == if IsBlank(form.email) then EmailRequired else EmailInvalid)
      && ("message" in r ==> r["message"] == if IsBlank(form.message) then MessageRequired else MessageTooShort)
      && r.Keys <= {"name", "email", "subject", "message"}
  {
    TrimEmptyIffBlank(form.message);
  }

  function CheckName(form: ContactForm, errors: map<string, Problem>): map<string, Problem> {
    if IsBlank(form.name) then errors["name" := NameRequired] else errors
  }

  function CheckEmail(form: ContactForm, errors: map<string, Problem>): map<string, Problem> {
    if IsBlank(form.email) then errors["email" := EmailRequired]
    else if !EmailShape(form.email) then errors["email" := EmailInvalid]
    else errors
  }

  function CheckSubject(form: ContactForm, errors: map<string, Problem>): map<string, Problem> {
    if IsBlank(form.subject) then errors["subject" := SubjectRequired] else errors
  }

  function CheckMessage(form: ContactForm, errors: map<string, Problem>): map<string, Problem> {
    if IsBlank(form.message) then errors["message" := MessageRequired]
    else if Utf16Length(Trim(form.message)) < 10 then errors["message" := MessageTooShort]
    else errors
  }

  /** A form is accepted iff its name and subject are not blank, its email
      has the email shape and its trimmed message has at least 10
      UTF-16 code units. */
  lemma AcceptedIff(form: ContactForm)
    ensures FormErrors(form) == map[] <==>
      !IsBlank(form.name) && !IsBlank(form.subject) && EmailShape(form.email) && Utf16Length(Trim(form.message)) >= 10
  {
    var r := FormErrors(form);
    FormErrorsSpec(form);
    if !IsBlank(form.name) && !IsBlank(form.subject) && EmailShape(form.email) && Utf16Length(Trim(form.message)) >= 10 {
      EmailShapeHasAtAndDot(form.email);
      assert r.Keys == {};
    }
  }

  /** The body of `validateForm`: `newErrors` filled in field by field. */
  method CollectErrors(f: ContactForm) returns (newErrors: map<string, Problem>)
    ensures newErrors == FormErrors(f)
  {
    newErrors := map[];
    if IsBlank(f.name) {
      newErrors := newErrors["name" := NameRequired];
    }
    assert newErrors == CheckName(f, map[]);
    if IsBlank(f.email) {
      newErrors := newErrors["email" := EmailRequired];
    } else if !EmailShape(f.email) {
      newErrors := newErrors["email" := EmailInvalid];
    }
    assert newErrors == CheckEmail(f, CheckName(f, map[]));
    if IsBlank(f.subject) {
      newErrors := newErrors["subject" := SubjectRequired];
    }
    assert newErrors == CheckSubject(f, CheckEmail(f, CheckName(f, map[])));
    if IsBlank(f.message) {
      newErrors := newErrors["message" := MessageRequired];
    } else if Utf16Length(Trim(f.message)) < 10 {
      newErrors := newErrors["message" := MessageTooShort];
    }
    assert newErrors == CheckMessage(f, CheckSubject(f, CheckEmail(f, CheckName(f, map[]))));
  }

  /** The state of the contact page. */
  class ContactPage {
    var form: ContactForm
    var isSubmitting: bool
    var submitStatus: string
    var errors: map<string, Problem>

    constructor()
      ensures form == EmptyForm && !isSubmitting && submitStatus == "" && errors == map[]
    {
      form := EmptyForm;
      isSubmitting := false;
      submitStatus := "";
      errors := map[];
    }

    /** `handleInputChange`: the named field takes the value, and that
        field's error is emptied only when one is shown. */
    method HandleInputChange(name: string, value: string)
      modifies this
      ensures form == WithField(old(form), name, value)
      ensures errors == if name in old(errors) && old(errors)[name] != Cleared then old(errors)[name := Cleared] else old(errors)
      ensures isSubmitting == old(isSubmitting) && submitStatus == old(submitStatus)
    {
      form := WithField(form, name, value);
      if name in errors && errors[name] != Cleared {
        errors := errors[name := Cleared];
      }
    }

    /** `validateForm`: records the errors field by field and answers
        whether there are none. */
    method ValidateForm() returns (valid: bool)
      modifies this
      ensures errors == FormErrors(form)
      ensures valid <==> errors == map[]
      ensures form == old(form) && isSubmitting == old(isSubmitting) && submitStatus == old(submitStatus)
    {
      var newErrors := CollectErrors(form);
      errors := newErrors;
      valid := |newErrors| == 0;
    }

    /** `handleSubmit`, with the simulated two-second request taken as
        done: an invalid form only records its errors; a valid one is
        reported as sent and the form is emptied. */
    method HandleSubmit()
      modifies this
      ensures errors == FormErrors(old(form))
      ensures errors != map[] ==> form == old(form) && submitStatus == old(submitStatus) && isSubmitting == old(isSubmitting)
      ensures errors == map[] ==> form == EmptyForm && submitStatus == "success" && !isSubmitting
    {
      var valid := ValidateForm();
      if !valid {
        return;
      }
      isSubmitting := true;
      submitStatus := "";
      submitStatus := "success";
      form := EmptyForm;
      isSubmitting := false;
    }
  }
}
