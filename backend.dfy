/**
 * The Flask back end of the saas project (`saas-project/backend/app.py`):
 * the extension filter for uploads, and the four JSON endpoints over the two
 * module-level lists `users` and `uploads` that stand in for a database.
 */
module Backend {
  import opened Wrappers

  /** `ALLOWED_EXTENSIONS`. */
  const AllowedExtensions: set<string> := {"png", "jpg", "jpeg", "gif", "mp4", "mov", "avi"}

  /** Lower-casing of one character, for the ASCII letters. */
  function LowerChar(c: char): char
  {
    if 'A' <= c <= 'Z' then (c as int - 'A' as int + 'a' as int) as char else c
  }

  /** `str.lower()`, restricted to ASCII letters. */
  function Lower(s: string): (t: string)
    ensures |t| == |s|
    ensures forall i | 0 <= i < |s| :: t[i] == LowerChar(s[i])
  {
    if s == "" then "" else [LowerChar(s[0])] + Lower(s[1..])
  }

  /** The index of the last '.' in a name, if it has one. */
  function LastDot(s: string): (k: Option<nat>)
    ensures k.None? <==> '.' !in s
    ensures k.Some? ==> k.value < |s| && s[k.value] == '.'
    ensures k.Some? ==> forall i | k.value < i < |s| :: s[i] != '.'
  {
    if s == "" then None
    else if s[|s| - 1] == '.' then Some(|s| - 1)
    else LastDot(s[..|s| - 1])
  }

  /** `filename.rsplit('.', 1)[1]`: the text after the last '.'. */
  function Extension(filename: string): (ext: string)
    requires '.' in filename
    ensures '.' !in ext
    ensures |ext| < |filename| && ext == filename[|filename| - |ext|..]
    ensures filename[|filename| - |ext| - 1] == '.'
  {
    filename[LastDot(filename).value + 1..]
  }

  /** The extension, lower-cased, is one of the seven listed. */
  predicate AllowedExtension(ext: string)
  {
    Lower(ext) in AllowedExtensions
  }

  /** `allowed_file`: the name has a '.', and the text after the last one,
      lower-cased, is a listed extension. */
  predicate AllowedFile(filename: string)
  {
    '.' in filename && AllowedExtension(Extension(filename))
  }

  /** `allowed_file` accepts a name exactly when it ends in a '.' followed by
      a dot-free extension that lower-cases to one of the seven listed. */
  lemma AllowedFileIff(filename: string)
    ensures AllowedFile(filename) <==>
      exists k :: 0 <= k < |filename| && filename[k] == '.' && '.' !in filename[k + 1..]
        && AllowedExtension(filename[k + 1..])
  {
    if '.' in filename {
      var k := LastDot(filename).value;
      assert filename[k] == '.' && Extension(filename) == filename[k + 1..];
    }
  }

  /** Examples from the extension rule: the last extension decides, in any
      case; a trailing dot or a missing dot is rejected. */
  lemma AcceptsLastExtensionInAnyCase()
    ensures AllowedFile("x.tar.PNG")
  {
    var s := "x.tar.PNG";
    assert s[5] == '.';
    assert LastDot(s) == Some(5);
    assert "x.tar.PNG"[6..] == "PNG";
    assert Lower("PNG") == "png";
  }

  lemma RejectsTrailingDot()
    ensures !AllowedFile("file.")
  {
    assert LastDot("file.") == Some(4);
    assert "file."[5..] == "";
  }

  lemma RejectsNoDot()
    ensures !AllowedFile("png")
  {
  }

  lemma RejectsOtherLastExtension()
    ensures !AllowedFile("photo.png.exe")
  {
    var s := "photo.png.exe";
    assert s[9] == '.';
    assert LastDot(s) == Some(9);
    assert "photo.png.exe"[10..] == "exe";
    assert Lower("exe") == "exe";
  }

  lemma {:induction false} LowerPreservesDots(s: string)
    ensures LastDot(Lower(s)) == LastDot(s)
  {
    if s != "" {
      var n := |s| - 1;
      LowerPreservesDots(s[..n]);
      assert Lower(s)[..n] == Lower(s[..n]);
    }
  }

  lemma LowerIdempotent(s: string)
    ensures Lower(Lower(s)) == Lower(s)
  {
  }

  /** Lower-casing commutes with taking the extension. */
  lemma ExtensionOfLower(filename: string)
    requires '.' in filename
    ensures '.' in Lower(filename)
    ensures Extension(Lower(filename)) == Lower(Extension(filename))
  {
    LowerPreservesDots(filename);
    var k := LastDot(filename).value;
    assert Lower(filename)[k] == '.';
    assert Lower(filename)[k + 1..] == Lower(filename[k + 1..]);
  }

  /** The filter ignores case: a name and its lower-cased form are treated
      alike. */
  lemma AllowedFileIgnoresCase(filename: string)
    ensures AllowedFile(Lower(filename)) <==> AllowedFile(filename)
  {
    if '.' in filename {
      ExtensionOfLower(filename);
      LowerIdempotent(Extension(filename));
    } else {
      LowerPreservesDots(filename);
    }
  }

  /** Only the last extension counts, so whatever precedes an accepted name
      (a directory, another extension) keeps it accepted. */
  lemma AllowedFileAfterPrefix(prefix: string, filename: string)
    requires AllowedFile(filename)
    ensures AllowedFile(prefix + filename)
  {
    var s := prefix + filename;
    var k := LastDot(filename).value;
    assert s[|prefix| + k] == '.';
    assert s[|prefix| + k + 1..] == filename[k + 1..];
    AllowedFileIff(s);
  }

  /** An entry of `users`. */
  datatype User = User(id: int, username: string, email: string)

  /** An entry of `uploads`. */
  datatype StoredUpload = StoredUpload(filename: string)

  /** The JSON bodies the endpoints return. `ServerError` is Flask's page for
      an uncaught exception. */
  datatype Body =
    | MessageBody(message: string, user: Option<User>, filename: Option<string>)
    | ErrorBody(error: string)
    | UploadsBody(uploads: seq<StoredUpload>)
    | ServerError

  datatype Response = Response(status: int, body: Body)

  /** `request.json`: `None` for a JSON `null` body; only string values
      are modelled. */
  type Json = Option<map<string, string>>

  /** `data[key]` succeeds. */
  predicate HasKey(data: Json, key: string)
  {
    data.Some? && key in data.value
  }

  /** The position of the first user at or after `from` with the given name. */
  function FindFrom(users: seq<User>, username: string, from: nat): (k: Option<nat>)
    requires from <= |users|
    decreases |users| - from
    ensures k.Some? ==> from <= k.value < |users| && users[k.value].username == username
    ensures k.Some? ==> forall i | from <= i < k.value :: users[i].username != username
    ensures k.None? ==> forall i | from <= i < |users| :: users[i].username != username
  {
    if from == |users| then None
    else if users[from].username == username then Some(from)
    else FindFrom(users, username, from + 1)
  }

  /** `login`: the first user with the submitted name, whatever the
      password; 401 when there is none. The name is read only while
      scanning the users, so a request without a username fails with a
      server error only once some user exists. */
  function Login(users: seq<User>, data: Json): (r: Response)
    ensures !HasKey(data, "username") ==>
      r == (if users == [] then Response(401, MessageBody("Invalid credentials", None, None))
            else Response(500, ServerError))
    ensures HasKey(data, "username") ==> (r.status == 200 <==> exists u | u in users :: u.username == data.value["username"])
    ensures r.status == 200 ==> exists i | 0 <= i < |users| ::
      && r == Response(200, MessageBody("Login successful", Some(users[i]), None))
      && users[i].username == data.value["username"]
      && forall j | 0 <= j < i :: users[j].username != data.value["username"]
    ensures r.status != 200 && r.status != 500 ==> r == Response(401, MessageBody("Invalid credentials", None, None))
    ensures HasKey(data, "username") && !(exists u | u in users :: u.username == data.value["username"]) ==>
      r == Response(401, MessageBody("Invalid credentials", None, None))
  {
    if users == [] then Response(401, MessageBody("Invalid credentials", None, None))
    else if !HasKey(data, "username") then Response(500, ServerError)
    else
      var k := FindFrom(users, data.value["username"], 0);
      if k.Some? then Response(200, MessageBody("Login successful", Some(users[k.value]), None))
      else Response(401, MessageBody("Invalid credentials", None, None))
  }

  /** With no user registered, any body, even one without a username, is
      answered 401. */
  lemma LoginWithNoUsers(data: Json)
    ensures Login([], data) == Response(401, MessageBody("Invalid credentials", None, None))
  {
  }

  /** The password field is never read. */
  lemma LoginIgnoresPassword(users: seq<User>, data: map<string, string>, password: string)
    ensures Login(users, Some(data["password" := password])) == Login(users, Some(data))
  {
    assert ("username" in data["password" := password]) <==> "username" in data;
    if "username" in data {
      assert data["password" := password]["username"] == data["username"];
    }
  }

  /** A multipart part named `file`, as far as the endpoint reads it. */
  datatype FilePart = FilePart(filename: string)

  class Store {
    var users: seq<User>
    var uploads: seq<StoredUpload>

    /** Ids are positions: the i-th registered user (from 1) has id i. */
    ghost predicate Valid()
      reads this
    {
      forall i | 0 <= i < |users| :: users[i].id == i + 1
    }

    constructor ()
      ensures users == [] && uploads == [] && Valid()
    {
      users, uploads := [], [];
    }

    /** `register`: append a user with id `len(users) + 1`; a request missing
        the username or the e-mail fails before anything is appended. Names
        are not checked for duplicates. */
    method Register(data: Json) returns (r: Response)
      requires Valid()
      modifies this`users
      ensures Valid()
      ensures forall i, j | 0 <= i < j < |users| :: users[i].id != users[j].id
      ensures !(HasKey(data, "username") && HasKey(data, "email")) ==>
        users == old(users) && r == Response(500, ServerError)
      ensures HasKey(data, "username") && HasKey(data, "email") ==>
        && users == old(users) + [User(|old(users)| + 1, data.value["username"], data.value["email"])]
        && r == Response(201, MessageBody("User registered successfully", Some(users[|users| - 1]), None))
    {
      if !(HasKey(data, "username") && HasKey(data, "email")) {
        return Response(500, ServerError);
      }
      var user := User(|users| + 1, data.value["username"], data.value["email"]);
      users := users + [user];
      r := Response(201, MessageBody("User registered successfully", Some(user), None));
    }

    /** `upload_file`: the checks run in a fixed order, and only an accepted
        file, under its sanitised name, is appended. */
    method UploadFile(part: Option<FilePart>, secureFilename: string -> string) returns (r: Response)
      requires Valid()
      modifies this`uploads
      ensures Valid()
      ensures part.None? ==> r == Response(400, ErrorBody("No file part"))
      ensures part.Some? && part.value.filename == "" ==> r == Response(400, ErrorBody("No selected file"))
      ensures part.Some? && part.value.filename != "" && !AllowedFile(part.value.filename) ==>
        r == Response(400, ErrorBody("File type not allowed"))
      ensures r.status != 201 ==> uploads == old(uploads)
      ensures r.status == 201 <==> part.Some? && AllowedFile(part.value.filename)
      ensures r.status == 201 ==>
        var name := secureFilename(part.value.filename);
        && uploads == old(uploads) + [StoredUpload(name)]
        && r == Response(201, MessageBody("File uploaded successfully", None, Some(name)))
    {
      if part.None? {
        return Response(400, ErrorBody("No file part"));
      }
      var file := part.value;
      if file.filename == "" {
        return Response(400, ErrorBody("No selected file"));
      }
      if AllowedFile(file.filename) {
        var name := secureFilename(file.filename);
        uploads := uploads + [StoredUpload(name)];
        return Response(201, MessageBody("File uploaded successfully", None, Some(name)));
      }
      r := Response(400, ErrorBody("File type not allowed"));
    }

    /** `get_uploads`: the whole list, in insertion order. */
    method GetUploads() returns (r: Response)
      ensures r == Response(200, UploadsBody(uploads))
    {
      r := Response(200, UploadsBody(uploads));
    }
  }

  /** In a valid store no two users share an id. */
  lemma IdsDistinct(store: Store, i: int, j: int)
    requires store.Valid()
    requires 0 <= i < |store.users| && 0 <= j < |store.users| && i != j
    ensures store.users[i].id != store.users[j].id
  {
  }

  /** Two registrations under one name: login returns the first account. */
  method DuplicateNames() returns (first: Response, second: Response, found: Response)
    ensures first.status == 201 && second.status == 201
    ensures found == Response(200, MessageBody("Login successful", Some(User(1, "ann", "a@x.io")), None))
  {
    var store := new Store();
    first := store.Register(Some(map["username" := "ann", "email" := "a@x.io"]));
    second := store.Register(Some(map["username" := "ann", "email" := "b@x.io"]));
    found := Login(store.users, Some(map["username" := "ann", "password" := "anything"]));
  }
}
