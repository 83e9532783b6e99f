/**
 * The sign-in page (`pages/Login.js`): two required fields, the submit
 * handler's validation gate, the signed-in user it records and its
 * `isLoading` bookkeeping.
 */
module LoginPage {
  import opened Wrappers
  import opened Ui

  datatype Field = Username | Password

  const UsernameRequired := "Username is required"
  const PasswordRequired := "Password is required"

  /** The error map `validateForm` computes from the two inputs. */
  function Errors(username: string, password: string): map<Field, string>
  {
    var m: map<Field, string> := if username == "" then map[Username := UsernameRequired] else map[];
    if password == "" then m[Password := PasswordRequired] else m
  }

  /** Each field is flagged exactly when it is empty, with its own message,
      and both can be flagged by one submit. */
  lemma ErrorRules(username: string, password: string)
    ensures var m := Errors(username, password);
      && (Username in m <==> username == "")
      && (Password in m <==> password == "")
      && (Username in m ==> m[Username] == UsernameRequired)
      && (Password in m ==> m[Password] == PasswordRequired)
      && (m == map[] <==> username != "" && password != "")
  {
    var m := Errors(username, password);
    if username != "" && password != "" {
      assert m.Keys == {};
    }
  }

  /** What the page posts: the username and the SHA-256 digest of the password. */
  datatype LoginRequest = LoginRequest(username: string, hashedPassword: string)

  /** The part of the server's reply the page reads. */
  datatype LoginReply = LoginReply(userId: string)

  /** `{ username, id: response.data.user_id }`: handed to the user context and
      written to local storage as `user`, with `id` also written as `userId`. */
  datatype UserRecord = UserRecord(username: string, id: string)

  class LoginPageState {
    var username: string
    var password: string
    var errors: map<Field, string>
    var isLoading: bool

    constructor ()
      ensures username == "" && password == "" && errors == map[] && !isLoading
    {
      username, password, errors, isLoading := "", "", map[], false;
    }

    /** The username input's `onChange`; unlike the registration form, typing
        does not clear a message. */
    method SetUsername(value: string)
      modifies this`username
      ensures username == value
    {
      username := value;
    }

    method SetPassword(value: string)
      modifies this`password
      ensures password == value
    {
      password := value;
    }

    /** `validateForm`. */
    method ValidateForm() returns (valid: bool)
      modifies this`errors
      ensures errors == Errors(username, password)
      ensures valid <==> errors == map[]
    {
      var newErrors: map<Field, string> := map[];
      if username == "" {
        newErrors := newErrors[Username := UsernameRequired];
      }
      if password == "" {
        newErrors := newErrors[Password := PasswordRequired];
      }
      errors := newErrors;
      valid := newErrors == map[];  // Object.keys(newErrors).length === 0
    }

    /** The synchronous part of `handleSubmit`: an invalid form returns before
        `isLoading` is set and sends nothing. */
    method HandleSubmit(sha256: string -> string) returns (request: Option<LoginRequest>)
      modifies this`errors, this`isLoading
      ensures errors == Errors(username, password)
      ensures request.Some? <==> username != "" && password != ""
      ensures request.None? ==> isLoading == old(isLoading)
      ensures request.Some? ==> isLoading && request.value == LoginRequest(username, sha256(password))
    {
      var valid := ValidateForm();
      ErrorRules(username, password);
      if !valid {
        return None;
      }
      isLoading := true;
      request := Some(LoginRequest(username, sha256(password)));
    }

    /** The rest of `handleSubmit` for the request `sent`: on success the
        signed-in user is the username that was submitted with the id the
        server returned, and the page moves to the dashboard; on failure the
        toast carries the server's `error` or a fallback. `isLoading` is cleared
        either way. */
    method SubmitSettled(sent: LoginRequest, outcome: Outcome<LoginReply>)
      returns (toast: Toast, signedIn: Option<UserRecord>, navigateTo: Option<string>)
      modifies this`isLoading
      ensures !isLoading
      ensures outcome.Ok? ==>
        && signedIn == Some(UserRecord(sent.username, outcome.body.userId))
        && toast == Toast(Success, "Welcome back!", Some("Login successful"))
        && navigateTo == Some("/dashboard")
      ensures outcome.Failed? ==>
        && signedIn == None
        && toast == Toast(Error, "Login failed", Some(FailureText(outcome.serverError)))
        && navigateTo == None
    {
      if outcome.Ok? {
        signedIn := Some(UserRecord(sent.username, outcome.body.userId));
        toast := Toast(Success, "Welcome back!", Some("Login successful"));
        navigateTo := Some("/dashboard");
      } else {
        signedIn := None;
        toast := Toast(Error, "Login failed", Some(FailureText(outcome.serverError)));
        navigateTo := None;
      }
      isLoading := false;
    }
  }
}
