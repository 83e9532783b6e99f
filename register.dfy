/**
 * The registration page (`pages/Register.js`): a four-field form, its
 * client-side validation, the per-field edit handler and the submit handler's
 * validation gate and `isLoading` bookkeeping.
 */
module RegisterPage {
  import opened Wrappers
  import opened JsText
  import opened EmailPattern
  import opened Ui
  import Forms

  datatype Field = Username | Email | Password | ConfirmPassword

  /** `formData`: one string per input. */
  datatype FormData = FormData(username: string, email: string, password: string, confirmPassword: string)
  {
    function Get(f: Field): string
    {
      match f
      case Username => username
      case Email => email
      case Password => password
      case ConfirmPassword => confirmPassword
    }

    /** `{...prev, [name]: value}` */
    function With(f: Field, v: string): (d: FormData)
      ensures d.Get(f) == v
      ensures forall g | g != f :: d.Get(g) == Get(g)
    {
      match f
      case Username => this.(username := v)
      case Email => this.(email := v)
      case Password => this.(password := v)
      case ConfirmPassword => this.(confirmPassword := v)
    }
  }

  const EmptyForm := FormData("", "", "", "")

  const UsernameRequired := "Username is required"
  const UsernameTooShort := "Username must be at least 3 characters"
  const EmailRequired := "Email is required"
  const EmailInvalid := "Invalid email address"
  const PasswordRequired := "Password is required"
  const PasswordTooShort := "Password must be at least 6 characters"
  const ConfirmRequired := "Please confirm your password"
  const ConfirmMismatch := "Passwords do not match"

  /** The one message, if any, that validation gives a field: each field's
      checks form an else-if chain with the "required" check first. */
  function FieldError(d: FormData, f: Field): Option<string>
  {
    match f
    case Username =>
      if d.username == "" then Some(UsernameRequired)
      else if JsLength(d.username) < 3 then Some(UsernameTooShort)
      else None
    case Email =>
      if d.email == "" then Some(EmailRequired)
      else if !TestEmail(d.email) then Some(EmailInvalid)
      else None
    case Password =>
      if d.password == "" then Some(PasswordRequired)
      else if JsLength(d.password) < 6 then Some(PasswordTooShort)
      else None
    case ConfirmPassword =>
      if d.confirmPassword == "" then Some(ConfirmRequired)
      else if d.password != d.confirmPassword then Some(ConfirmMismatch)
      else None
  }

  /** The error map `validateForm` computes for a form: each field's
      message, if any, recorded in turn. */
  function Errors(d: FormData): map<Field, string>
  {
    var m := Forms.Put(map[], Username, FieldError(d, Username));
    var m := Forms.Put(m, Email, FieldError(d, Email));
    var m := Forms.Put(m, Password, FieldError(d, Password));
    Forms.Put(m, ConfirmPassword, FieldError(d, ConfirmPassword))
  }

  /** Which fields get a message and which message each gets: a field is
      flagged exactly when its rule fails, the "required" message wins over the
      format message, and the confirmation is compared with the password
      whatever the password's own state. */
  lemma ErrorRules(d: FormData)
    ensures var m := Errors(d);
      && (Username in m <==> JsLength(d.username) < 3)
      && (Email in m <==> !MatchesEmail(d.email))
      && (Password in m <==> JsLength(d.password) < 6)
      && (ConfirmPassword in m <==> d.confirmPassword == "" || d.confirmPassword != d.password)
      && (d.username == "" ==> m[Username] == UsernameRequired)
      && (d.username != "" && JsLength(d.username) < 3 ==> m[Username] == UsernameTooShort)
      && (d.email == "" ==> m[Email] == EmailRequired)
      && (d.email != "" && !MatchesEmail(d.email) ==> m[Email] == EmailInvalid)
      && (d.password == "" ==> m[Password] == PasswordRequired)
      && (d.password != "" && JsLength(d.password) < 6 ==> m[Password] == PasswordTooShort)
      && (d.confirmPassword == "" ==> m[ConfirmPassword] == ConfirmRequired)
      && (d.confirmPassword != "" && d.confirmPassword != d.password ==> m[ConfirmPassword] == ConfirmMismatch)
  {
    TestEmailCorrect(d.email);
  }

  /** A form passes validation exactly when the username has at least three
      characters, the e-mail matches the pattern, the password has at least six
      characters and the confirmation repeats it. */
  lemma ValidIff(d: FormData)
    ensures Errors(d) == map[] <==>
      && JsLength(d.username) >= 3
      && MatchesEmail(d.email)
      && JsLength(d.password) >= 6
      && d.confirmPassword == d.password
  {
    var m := Errors(d);
    ErrorRules(d);
    if JsLength(d.username) >= 3 && MatchesEmail(d.email) && JsLength(d.password) >= 6 && d.confirmPassword == d.password {
      assert d.confirmPassword != "";
      assert forall f: Field :: f !in m;
      assert m.Keys == {};
    }
  }

  /** The confirmation is checked even when the password itself is rejected,
      so one submit can report both. */
  lemma ConfirmCheckedIndependently()
    ensures Errors(FormData("ann", "ann@example.com", "", "secret1"))
      == map[Password := PasswordRequired, ConfirmPassword := ConfirmMismatch]
  {
    var d := FormData("ann", "ann@example.com", "", "secret1");
    assert JsLength(d.username) == 3;
    TestEmailAccepts();
    var m := Errors(d);
    assert m.Keys == {Password, ConfirmPassword};
  }

  /** The body of the registration request; the page sends the SHA-256 digest
      of the password, never the password itself. */
  datatype RegisterRequest = RegisterRequest(username: string, email: string, hashedPassword: string)

  class RegisterPageState {
    var formData: FormData
    var errors: map<Field, string>
    var isLoading: bool

    constructor ()
      ensures formData == EmptyForm && errors == map[] && !isLoading
    {
      formData, errors, isLoading := EmptyForm, map[], false;
    }

    /** `handleChange`: set the edited field and clear its message. */
    method HandleChange(name: Field, value: string)
      modifies this
      ensures formData == old(formData).With(name, value)
      ensures errors == Forms.ClearError(old(errors), name)
      ensures isLoading == old(isLoading)
    {
      formData := formData.With(name, value);
      if Forms.Shows(errors, name) {
        errors := errors[name := ""];
      }
    }

    /** `validateForm`: build the error map field by field, store it, and
        report whether it is empty. */
    method ValidateForm() returns (valid: bool)
      modifies this`errors
      ensures errors == Errors(formData)
      ensures valid <==> errors == map[]
    {
      ghost var d := formData;
      var newErrors: map<Field, string> := map[];
      if formData.username == "" {
        newErrors := newErrors[Username := UsernameRequired];
      } else if JsLength(formData.username) < 3 {
        newErrors := newErrors[Username := UsernameTooShort];
      }
      ghost var m1 := newErrors;
      assert m1 == Forms.Put(map[], Username, FieldError(d, Username));
      if formData.email == "" {
        newErrors := newErrors[Email := EmailRequired];
      } else if !TestEmail(formData.email) {
        newErrors := newErrors[Email := EmailInvalid];
      }
      ghost var m2 := newErrors;
      assert m2 == Forms.Put(m1, Email, FieldError(d, Email));
      if formData.password == "" {
        newErrors := newErrors[Password := PasswordRequired];
      } else if JsLength(formData.password) < 6 {
        newErrors := newErrors[Password := PasswordTooShort];
      }
      ghost var m3 := newErrors;
      assert m3 == Forms.Put(m2, Password, FieldError(d, Password));
      if formData.confirmPassword == "" {
        newErrors := newErrors[ConfirmPassword := ConfirmRequired];
      } else if formData.password != formData.confirmPassword {
        newErrors := newErrors[ConfirmPassword := ConfirmMismatch];
      }
      assert newErrors == Forms.Put(m3, ConfirmPassword, FieldError(d, ConfirmPassword));
      errors := newErrors;
      valid := newErrors == map[];  // Object.keys(newErrors).length === 0
    }

    /** The synchronous part of `handleSubmit`, up to the request: an invalid
        form sends nothing and leaves `isLoading` alone; a valid one sets
        `isLoading` and sends the request. */
    method HandleSubmit(sha256: string -> string) returns (request: Option<RegisterRequest>)
      modifies this`errors, this`isLoading
      ensures errors == Errors(formData)
      ensures request.Some? <==> errors == map[]
      ensures request.None? ==> isLoading == old(isLoading)
      ensures request.Some? ==> isLoading
      ensures request.Some? ==>
        request.value == RegisterRequest(formData.username, formData.email, sha256(formData.password))
    {
      var valid := ValidateForm();
      if !valid {
        return None;
      }
      isLoading := true;
      request := Some(RegisterRequest(formData.username, formData.email, sha256(formData.password)));
    }

    /** The rest of `handleSubmit`, once the request has settled: a toast,
        the move to the login page on success, and `isLoading` reset in the
        `finally` block either way. */
    method SubmitSettled(outcome: Outcome<()>) returns (toast: Toast, navigateTo: Option<string>)
      modifies this`isLoading
      ensures !isLoading
      ensures outcome.Ok? ==>
        && toast == Toast(Success, "Registration successful", Some("You can now log in with your new account"))
        && navigateTo == Some("/login")
      ensures outcome.Failed? ==>
        && toast == Toast(Error, "Registration failed", Some(FailureText(outcome.serverError)))
        && navigateTo == None
    {
      if outcome.Ok? {
        toast := Toast(Success, "Registration successful", Some("You can now log in with your new account"));
        navigateTo := Some("/login");
      } else {
        toast := Toast(Error, "Registration failed", Some(FailureText(outcome.serverError)));
        navigateTo := None;
      }
      isLoading := false;
    }
  }
}
