/**
 * The demo-request page (`pages/RequestDemo.js`): a six-field form of which
 * five are validated, the per-field edit handler, and the submit handler's
 * validation gate, `isSubmitting` bookkeeping and reset after success.
 */
module RequestDemoPage {
  import opened Wrappers
  import opened EmailPattern
  import opened Ui
  import Forms

  datatype Field = Name | Email | Company | JobTitle | CompanySize | Message

  datatype FormData = FormData(
    name: string, email: string, company: string,
    jobTitle: string, companySize: string, message: string)
  {
    function Get(f: Field): string
    {
      match f
      case Name => name
      case Email => email
      case Company => company
      case JobTitle => jobTitle
      case CompanySize => companySize
      case Message => message
    }

    /** `{...prev, [name]: value}` */
    function With(f: Field, v: string): (d: FormData)
      ensures d.Get(f) == v
      ensures forall g | g != f :: d.Get(g) == Get(g)
    {
      match f
      case Name => this.(name := v)
      case Email => this.(email := v)
      case Company => this.(company := v)
      case JobTitle => this.(jobTitle := v)
      case CompanySize => this.(companySize := v)
      case Message => this.(message := v)
    }
  }

  /** `initialFormState`: every field empty. */
  const InitialForm := FormData("", "", "", "", "", "")

  const NameRequired := "Name is required"
  const EmailRequired := "Email is required"
  const EmailInvalid := "Invalid email address"
  const CompanyRequired := "Company name is required"
  const JobTitleRequired := "Job title is required"
  const CompanySizeRequired := "Company size is required"

  /** The message, if any, that validation gives a field; `message` has no check. */
  function FieldError(d: FormData, f: Field): Option<string>
  {
    match f
    case Name => if d.name == "" then Some(NameRequired) else None
    case Email =>
      if d.email == "" then Some(EmailRequired)
      else if !TestEmail(d.email) then Some(EmailInvalid)
      else None
    case Company => if d.company == "" then Some(CompanyRequired) else None
    case JobTitle => if d.jobTitle == "" then Some(JobTitleRequired) else None
    case CompanySize => if d.companySize == "" then Some(CompanySizeRequired) else None
    case Message => None
  }

  /** The error map `validateForm` computes: the checked fields' messages,
      recorded in the order the page checks them. */
  function Errors(d: FormData): map<Field, string>
  {
    var m := Forms.Put(map[], Name, FieldError(d, Name));
    var m := Forms.Put(m, Email, FieldError(d, Email));
    var m := Forms.Put(m, Company, FieldError(d, Company));
    var m := Forms.Put(m, JobTitle, FieldError(d, JobTitle));
    Forms.Put(m, CompanySize, FieldError(d, CompanySize))
  }

  /** Each required field is flagged exactly when it is empty, the e-mail
      exactly when it does not match (with "required" winning over "invalid"),
      and the free-text message never. */
  lemma ErrorRules(d: FormData)
    ensures var m := Errors(d);
      && (Name in m <==> d.name == "")
      && (Company in m <==> d.company == "")
      && (JobTitle in m <==> d.jobTitle == "")
      && (CompanySize in m <==> d.companySize == "")
      && (Email in m <==> !MatchesEmail(d.email))
      && Message !in m
      && (Name in m ==> m[Name] == NameRequired)
      && (Company in m ==> m[Company] == CompanyRequired)
      && (JobTitle in m ==> m[JobTitle] == JobTitleRequired)
      && (CompanySize in m ==> m[CompanySize] == CompanySizeRequired)
      && (d.email == "" ==> m[Email] == EmailRequired)
      && (d.email != "" && !MatchesEmail(d.email) ==> m[Email] == EmailInvalid)
  {
    TestEmailCorrect(d.email);
  }

  /** The form is valid exactly when the four required fields are filled in
      and the e-mail matches the pattern. */
  lemma ValidIff(d: FormData)
    ensures Errors(d) == map[] <==>
      d.name != "" && d.company != "" && d.jobTitle != "" && d.companySize != "" && MatchesEmail(d.email)
  {
    var m := Errors(d);
    ErrorRules(d);
    if d.name != "" && d.company != "" && d.jobTitle != "" && d.companySize != "" && MatchesEmail(d.email) {
      assert forall f: Field :: f !in m;
      assert m.Keys == {};
    }
  }

  /** Editing the free-text message never changes the verdict. */
  lemma MessageIgnored(d: FormData, v: string)
    ensures Errors(d.With(Message, v)) == Errors(d)
  {
    var e := d.With(Message, v);
    assert e.name == d.name && e.email == d.email && e.company == d.company;
    assert e.jobTitle == d.jobTitle && e.companySize == d.companySize;
  }

  class RequestDemoPageState {
    var formData: FormData
    var errors: map<Field, string>
    var isSubmitting: bool

    constructor ()
      ensures formData == InitialForm && errors == map[] && !isSubmitting
    {
      formData, errors, isSubmitting := InitialForm, map[], false;
    }

    /** `handleChange`: set the edited field and clear its message. */
    method HandleChange(name: Field, value: string)
      modifies this
      ensures formData == old(formData).With(name, value)
      ensures errors == Forms.ClearError(old(errors), name)
      ensures isSubmitting == old(isSubmitting)
    {
      formData := formData.With(name, value);
      if Forms.Shows(errors, name) {
        errors := errors[name := ""];
      }
    }

    /** `validateForm`: build the error map field by field, store it, and
        report whether it is empty. */
    method ValidateForm() returns (valid: bool)
      modifies this`errors
      ensures errors == Errors(formData)
      ensures valid <==> errors == map[]
    {
      ghost var d := formData;
      var newErrors: map<Field, string> := map[];
      if formData.name == "" {
        newErrors := newErrors[Name := NameRequired];
      }
      ghost var m1 := newErrors;
      assert m1 == Forms.Put(map[], Name, FieldError(d, Name));
      if formData.email == "" {
        newErrors := newErrors[Email := EmailRequired];
      } else if !TestEmail(formData.email) {
        newErrors := newErrors[Email := EmailInvalid];
      }
      ghost var m2 := newErrors;
      assert m2 == Forms.Put(m1, Email, FieldError(d, Email));
      if formData.company == "" {
        newErrors := newErrors[Company := CompanyRequired];
      }
      ghost var m3 := newErrors;
      assert m3 == Forms.Put(m2, Company, FieldError(d, Company));
      if formData.jobTitle == "" {
        newErrors := newErrors[JobTitle := JobTitleRequired];
      }
      ghost var m4 := newErrors;
      assert m4 == Forms.Put(m3, JobTitle, FieldError(d, JobTitle));
      if formData.companySize == "" {
        newErrors := newErrors[CompanySize := CompanySizeRequired];
      }
      assert newErrors == Forms.Put(m4, CompanySize, FieldError(d, CompanySize));
      errors := newErrors;
      valid := newErrors == map[];  // Object.keys(newErrors).length === 0
    }

    /** The synchronous part of `handleSubmit`: an invalid form sends nothing
        and leaves `isSubmitting` alone; a valid one sets it and posts the
        whole form. */
    method HandleSubmit() returns (request: Option<FormData>)
      modifies this`errors, this`isSubmitting
      ensures errors == Errors(formData)
      ensures request.Some? <==> errors == map[]
      ensures request.None? ==> isSubmitting == old(isSubmitting)
      ensures request.Some? ==> isSubmitting && request.value == formData
    {
      var valid := ValidateForm();
      if !valid {
        return None;
      }
      isSubmitting := true;
      request := Some(formData);
    }

    /** The rest of `handleSubmit`: success empties the form, failure keeps
        it, and `isSubmitting` is cleared in the `finally` block either way. */
    method SubmitSettled(outcome: Outcome<()>) returns (toast: Toast)
      modifies this`formData, this`isSubmitting
      ensures !isSubmitting
      ensures outcome.Ok? ==> formData == InitialForm
      ensures outcome.Failed? ==> formData == old(formData)
      ensures outcome.Ok? ==> toast == Toast(Success, "Demo request sent!",
        Some("We've received your request and will contact you soon to schedule a demo."))
      ensures outcome.Failed? ==> toast == Toast(Error, "Request failed",
        Some(JsText.OrElse(outcome.serverError, "Unable to send your demo request. Please try again later.")))
    {
      if outcome.Ok? {
        toast := Toast(Success, "Demo request sent!",
          Some("We've received your request and will contact you soon to schedule a demo."));
        formData := InitialForm;
      } else {
        toast := Toast(Error, "Request failed",
          Some(JsText.OrElse(outcome.serverError, "Unable to send your demo request. Please try again later.")));
      }
      isSubmitting := false;
    }
  }
}
