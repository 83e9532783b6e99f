# WindSightAI client logic and upload back end, in Dafny

WindSightAI is a web application where a user signs up and signs in, then
uploads wind-turbine images and asks for each one to be analysed. Most of the
repository is presentation markup. This project models the logic underneath it
and proves properties of that logic:

- **The three form pages of the React front end**: registration, demo request
  and sign-in (`RegisterPage`, `RequestDemoPage`, `LoginPage`). Each page is
  a class whose fields are the page's React state. `ValidateForm` builds the
  error map field by field, as the page does, and is proved equal to a pure
  `Errors` function. Lemmas then state which field gets which message, and
  when a form is valid. `HandleChange` updates one field and clears only that
  field's message (`Forms.ClearError`). Submitting is split into a start step
  and a settle step. The start step runs the validation gate, sets the loading
  flag and returns the request. The settle step takes the request's outcome
  and returns the toast, the navigation and the signed-in user.
- **The e-mail test** `/\S+@\S+\.\S+/` (`EmailPattern`). `MatchesEmail`
  states what the unanchored regular expression accepts: some substring
  a@b.c. `TestEmail` is the search the forms run, and `TestEmailCorrect`
  proves that the two agree on every string.
- **The dashboard** in both of its copies: the React app's and the earlier
  saas project's (`UploadDashboard`). It covers the mount guard, the refresh
  of the upload list, the image-type gate on file selection, the upload and
  analyze handlers with their in-flight flags, and the two buttons. Its image
  tile, `ImageWithFallback` (`ImageFallback`), has three states: loading,
  loaded and failed. The tile is modelled both as a class and as a step
  function, and a lemma proves that the failed state is terminal.
- **The Flask back end** of the saas project (`Backend`). It covers the
  extension filter `allowed_file`, the `login` lookup, and a `Store` class
  holding the in-memory `users` and `uploads` lists, which `register` and
  `upload_file` append to.

HTTP calls are not performed. A start step returns the request it would send.
A settle step takes an `Outcome`: either `Ok(body)`, or `Failed(serverError)`,
where `serverError` is the optional `error` field of the response. Toasts,
navigations and redirects are returned as values. SHA-256 (crypto-js) and
werkzeug's `secure_filename` are function parameters.

Where the code and what the page suggests to its user disagree, the model
follows the code:

- A failed upload keeps the selected file and its preview
  (`React/app/frontend/src/pages/Dashboard.js:178-188`).
- Selecting a file that is not an image still records it as the selected file
  (`React/app/frontend/src/pages/Dashboard.js:134`). Only the preview is
  cleared, so the upload button stays enabled for it, although the
  "Please select an image file" toast suggests the file was rejected.

## Model

| member | source | states |
|---|---|---|
| JsText.JsLength | React/app/frontend/src/pages/Register.js:59 | `.length` counts UTF-16 code units: it lies between the number of code points and twice that, is 0 only for the empty string, and equals the code-point count when every character is in the Basic Multilingual Plane |
| Ui.FailureText | React/app/frontend/src/pages/Register.js:109 | the failure text is never empty: it is the server's `error` when that is a non-empty string, and "An unexpected error occurred" otherwise |
| Forms.ClearError | React/app/frontend/src/pages/Register.js:46-51 | after typing in a field, that field shows no message. A showing message is replaced by "" under the same key. Every other key and message is unchanged, and a map where the field showed nothing is returned as it was |
| EmailPattern.MatchesEmailIffAround | React/app/frontend/src/pages/Register.js:65 | the pattern matches exactly when there is an '@' with a non-space character before it, followed by a run of non-space characters up to a '.', followed by one more non-space character |
| EmailPattern.DotAheadIff | React/app/frontend/src/pages/Register.js:65 | the dot search succeeds from k exactly when a '.' at some q >= k is followed by one more character and s[k..q+2] contains no whitespace |
| EmailPattern.SearchFromIff | React/app/frontend/src/pages/Register.js:65 | the search from index j succeeds exactly when some '@' at or after j starts a shortest match |
| EmailPattern.TestEmailCorrect | React/app/frontend/src/pages/Register.js:65 | the executable test accepts a string exactly when `/\S+@\S+\.\S+/` matches some substring of it |
| EmailPattern.MatchesEmailInContext | React/app/frontend/src/pages/RequestDemo.js:61 | the pattern is unanchored: if a string matches, the same string with any text before and after it also matches |
| EmailPattern.TestEmailAccepts | React/app/frontend/src/pages/Register.js:65 | "ann@example.com" passes the test |
| EmailPattern.TestEmailAcceptsInsideText | React/app/frontend/src/pages/Register.js:65 | "see a@b.c now" passes, since the pattern has no anchors |
| EmailPattern.TestEmailRejects | React/app/frontend/src/pages/Register.js:65 | "ann@example", "a @b.c", "@b.c", "a@.c" and "" all fail |
| RegisterPage.FormData.With | React/app/frontend/src/pages/Register.js:41-44 | `{...prev, [name]: value}`: the named field takes the value and every other field is unchanged |
| RegisterPage.ErrorRules | React/app/frontend/src/pages/Register.js:57-79 | each field is flagged exactly when its rule fails: username shorter than 3, e-mail not matching, password shorter than 6, confirmation empty or different from the password. "Required" takes precedence over the format message. The confirmation is compared whatever the password's own state |
| RegisterPage.ValidIff | React/app/frontend/src/pages/Register.js:55-82 | the error map is empty exactly when the username has at least 3 code units, the e-mail matches, the password has at least 6 code units and the confirmation equals it |
| RegisterPage.ConfirmCheckedIndependently | React/app/frontend/src/pages/Register.js:69-79 | an empty password with a filled-in confirmation reports both "Password is required" and "Passwords do not match" |
| RegisterPage.RegisterPageState.constructor | React/app/frontend/src/pages/Register.js:23-30 | the page starts with four empty fields, no errors and not loading |
| RegisterPage.RegisterPageState.HandleChange | React/app/frontend/src/pages/Register.js:39-52 | only the named field changes, its message is cleared as `Forms.ClearError` states, and `isLoading` is untouched |
| RegisterPage.RegisterPageState.ValidateForm | React/app/frontend/src/pages/Register.js:54-83 | the stored errors are `Errors(formData)`, and the result is true exactly when they are empty |
| RegisterPage.RegisterPageState.HandleSubmit | React/app/frontend/src/pages/Register.js:85-97 | an invalid form sends nothing and leaves `isLoading` as it was. A valid one sets `isLoading` and sends the username, the e-mail and the SHA-256 digest of the password |
| RegisterPage.RegisterPageState.SubmitSettled | React/app/frontend/src/pages/Register.js:98-119 | success gives the success toast and navigation to /login. Failure gives the "Registration failed" toast with the server's message or the fallback. `isLoading` is false either way |
| RequestDemoPage.FormData.With | React/app/frontend/src/pages/RequestDemo.js:41-45 | the named field takes the value and every other field is unchanged |
| RequestDemoPage.ErrorRules | React/app/frontend/src/pages/RequestDemo.js:55-70 | name, company, job title and company size are each flagged, with their own message, exactly when empty. The e-mail is flagged exactly when it does not match, with "Email is required" for an empty one. `message` is never flagged |
| RequestDemoPage.ValidIff | React/app/frontend/src/pages/RequestDemo.js:68-69 | the form is valid exactly when the four required fields are non-empty and the e-mail matches |
| RequestDemoPage.MessageIgnored | React/app/frontend/src/pages/RequestDemo.js:55-70 | changing the free-text message never changes the error map |
| RequestDemoPage.RequestDemoPageState.constructor | React/app/frontend/src/pages/RequestDemo.js:23-34 | the page starts from `initialFormState` (all six fields empty), with no errors and not submitting |
| RequestDemoPage.RequestDemoPageState.HandleChange | React/app/frontend/src/pages/RequestDemo.js:40-53 | only the named field changes, its message is cleared as `Forms.ClearError` states, and `isSubmitting` is untouched |
| RequestDemoPage.RequestDemoPageState.ValidateForm | React/app/frontend/src/pages/RequestDemo.js:55-70 | the stored errors are `Errors(formData)`, and the result is true exactly when they are empty |
| RequestDemoPage.RequestDemoPageState.HandleSubmit | React/app/frontend/src/pages/RequestDemo.js:72-79 | an invalid form sends nothing and leaves `isSubmitting` as it was. A valid one sets `isSubmitting` and posts the whole form |
| RequestDemoPage.RequestDemoPageState.SubmitSettled | React/app/frontend/src/pages/RequestDemo.js:80-100 | success resets the form to the initial all-empty state. Failure keeps the form and shows the server's message or "Unable to send your demo request. Please try again later.". `isSubmitting` is false either way |
| LoginPage.ErrorRules | React/app/frontend/src/pages/Login.js:61-67 | each of username and password is flagged, with its own message, exactly when empty. Both can be flagged at once, and the map is empty exactly when both are filled in |
| LoginPage.LoginPageState.constructor | React/app/frontend/src/pages/Login.js:47-51 | the page starts with empty inputs, no errors and not loading |
| LoginPage.LoginPageState.SetUsername | React/app/frontend/src/pages/Login.js:141 | typing sets the username and touches nothing else, so a showing message stays |
| LoginPage.LoginPageState.SetPassword | React/app/frontend/src/pages/Login.js:152 | typing sets the password and touches nothing else |
| LoginPage.LoginPageState.ValidateForm | React/app/frontend/src/pages/Login.js:61-67 | the stored errors are `Errors(username, password)`, and the result is true exactly when they are empty |
| LoginPage.LoginPageState.HandleSubmit | React/app/frontend/src/pages/Login.js:69-85 | a request is sent exactly when both inputs are non-empty. It carries the username and the SHA-256 digest of the password, and `isLoading` is set only then |
| LoginPage.LoginPageState.SubmitSettled | React/app/frontend/src/pages/Login.js:86-112 | on success the signed-in user is {the submitted username, the returned `user_id`}; that record is what goes to the user context and to storage (its id is the stored `userId`), and the page moves to /dashboard. On failure no user is recorded and the toast carries the server's message or "An unexpected error occurred". `isLoading` is false either way |
| ImageFallback.Step | React/app/frontend/src/pages/Dashboard.js:34-86 | an event changes nothing once the tile shows an error. Otherwise it ends loading, and the tile shows an error exactly after a load error, always "Failed to load image". The saas copy's tile (`saas-project/frontend/src/components/Dashboard.js:19-63`) is the same |
| ImageFallback.RunOutcome | React/app/frontend/src/pages/Dashboard.js:28-86 | after any sequence of events from mount, the tile is loading exactly when no event has arrived, and shows an error exactly when some event was a load error |
| ImageFallback.ErrorIsTerminal | React/app/frontend/src/pages/Dashboard.js:68-86 | once a load error has occurred, no later events change the state |
| ImageFallback.ImageWithFallback.constructor | React/app/frontend/src/pages/Dashboard.js:29-30 | the tile starts loading with no error |
| ImageFallback.ImageWithFallback.HandleLoad | React/app/frontend/src/pages/Dashboard.js:34-37 | not loading, no error |
| ImageFallback.ImageWithFallback.HandleError | React/app/frontend/src/pages/Dashboard.js:39-42 | not loading, error "Failed to load image" |
| ImageFallback.ImageWithFallback.Deliver | React/app/frontend/src/pages/Dashboard.js:68-86 | an event reaches the handlers only while the image element is rendered; the new state is `Step` of the old one |
| UploadDashboard.AnalyzeButton | React/app/frontend/src/pages/Dashboard.js:269-279 | the button is disabled exactly when the upload has a non-empty `analyses`. It reads "Analyzed" exactly then and "Analyze" otherwise, and spins exactly while its own `isAnalyzing` entry is true. The React copy passes `colorScheme` 'gray' and `variant` 'outline' exactly when disabled; the saas copy (`saas-project/frontend/src/components/Dashboard.js:221-229`) always passes 'green' and no variant |
| UploadDashboard.UploadButtonDisabled | saas-project/frontend/src/components/Dashboard.js:203-211 | in the saas copy the upload button is disabled exactly when there is no file or an upload is in flight; in the React copy (`React/app/frontend/src/pages/Dashboard.js:243`) exactly when there is no file. An enabled button always has a file |
| UploadDashboard.Dashboard.constructor | React/app/frontend/src/pages/Dashboard.js:92-97 | no file, no preview, no uploads, no user id, nothing in flight |
| UploadDashboard.Dashboard.Mount | React/app/frontend/src/pages/Dashboard.js:122-130 | a truthy stored id becomes `userId`, and exactly one fetch of that id's uploads is sent. Otherwise nothing is sent, `userId` is unchanged, and the page redirects to /login. Both copies have this guard (saas: `components/Dashboard.js:77-85`) |
| UploadDashboard.Dashboard.FetchUploadsSettled | React/app/frontend/src/pages/Dashboard.js:107-120 | a response replaces the whole list. An error leaves the list as it was and gives the "Error fetching uploads" toast |
| UploadDashboard.Dashboard.HandleFileChange | React/app/frontend/src/pages/Dashboard.js:132-151 | the selection is always recorded. An `image/` type starts a read and leaves the preview for the reader. Anything else, including no file, clears the preview and gives the "Invalid file type" toast. The saas copy (`components/Dashboard.js:103-123`) is the same |
| UploadDashboard.Dashboard.ReaderLoadEnd | React/app/frontend/src/pages/Dashboard.js:138-140 | the reader's result becomes the preview |
| UploadDashboard.Dashboard.HandleUploadStart | React/app/frontend/src/pages/Dashboard.js:154-161 | without a file or a truthy user id, nothing is sent and `isUploading` is unchanged. Otherwise `isUploading` is set and the file is posted with the user id. The saas copy has the same guard (`components/Dashboard.js:126`) |
| UploadDashboard.Dashboard.HandleUploadSettled | React/app/frontend/src/pages/Dashboard.js:162-188 | success clears the file and the preview, sends exactly one refetch and gives the copy's success toast. Failure keeps the file and the preview, sends nothing, and gives "Upload failed" with the server's message. `isUploading` is false either way. The saas copy's success toast is titled "File uploaded successfully" with no description |
| UploadDashboard.Dashboard.HandleAnalyzeStart | React/app/frontend/src/pages/Dashboard.js:191-194 | that upload's flag becomes true, every other entry is unchanged, and the analysis request is sent |
| UploadDashboard.Dashboard.HandleAnalyzeSettled | React/app/frontend/src/pages/Dashboard.js:194-213 | that upload's flag becomes false and no other entry changes. Success sends exactly one refetch and gives the copy's success toast (saas: titled "Analysis completed", no description); failure gives "Analysis failed" with the server's message |
| UploadDashboard.OverlappingAnalyses | React/app/frontend/src/pages/Dashboard.js:191-213 | with analyses of uploads 3 and 7 in flight, the failure of 7 clears only 7's flag and reports the server's message |
| UploadDashboard.FailedUploadKeepsFile | React/app/frontend/src/pages/Dashboard.js:132-188 | after a non-image selection and a failed upload, the file is still selected, there is no preview, and the upload button is enabled |
| UploadDashboard.SaasUploadCycle | saas-project/frontend/src/components/Dashboard.js:125-160 | in the saas copy the upload button is disabled while an upload is in flight, and a successful upload clears the file, sends exactly one refetch for the stored id and shows the title-only toast "File uploaded successfully" |
| Backend.Lower | saas-project/backend/app.py:23 | lower-casing keeps the length and maps each character on its own |
| Backend.LastDot | saas-project/backend/app.py:22-23 | the index of a '.' with no '.' after it; absent exactly when the name has no '.' |
| Backend.Extension | saas-project/backend/app.py:23 | `rsplit('.', 1)[1]`: the dot-free tail of the name that directly follows a '.' |
| Backend.AllowedFileIff | saas-project/backend/app.py:21-23 | a name is accepted exactly when it ends in a '.' followed by a dot-free extension that lower-cases to one of png, jpg, jpeg, gif, mp4, mov, avi |
| Backend.AcceptsLastExtensionInAnyCase | saas-project/backend/app.py:10-23 | "x.tar.PNG" is accepted |
| Backend.RejectsTrailingDot | saas-project/backend/app.py:23 | "file." is rejected: its extension is empty |
| Backend.RejectsNoDot | saas-project/backend/app.py:22 | "png" is rejected: it has no '.' |
| Backend.RejectsOtherLastExtension | saas-project/backend/app.py:23 | "photo.png.exe" is rejected: only the last extension counts |
| Backend.LowerPreservesDots | saas-project/backend/app.py:23 | lower-casing moves no '.', so the last dot stays where it was |
| Backend.LowerIdempotent | saas-project/backend/app.py:23 | lower-casing twice is lower-casing once |
| Backend.ExtensionOfLower | saas-project/backend/app.py:23 | the extension of the lower-cased name is the lower-cased extension |
| Backend.AllowedFileIgnoresCase | saas-project/backend/app.py:23 | a name and its lower-cased form are accepted alike |
| Backend.AllowedFileAfterPrefix | saas-project/backend/app.py:23 | any text in front of an accepted name keeps it accepted |
| Backend.FindFrom | saas-project/backend/app.py:39 | `next(...)`: the first position from `from` on whose user has the name; absent exactly when no such user exists |
| Backend.Login | saas-project/backend/app.py:36-42 | status 200 exactly when some user has the submitted name, and then the body is the first such user. Otherwise 401 "Invalid credentials". A body without a username gives a server error once at least one user is registered, because the name is read only while scanning the users; with none registered it gets 401 |
| Backend.LoginWithNoUsers | saas-project/backend/app.py:39-42 | with no user registered, every body, even `null` or one without a username, is answered 401 "Invalid credentials" |
| Backend.LoginIgnoresPassword | saas-project/backend/app.py:38-39 | the password in the request never changes the response |
| Backend.Store.constructor | saas-project/backend/app.py:18-19 | both lists start empty |
| Backend.Store.Register | saas-project/backend/app.py:25-34 | with a username and an e-mail, exactly one user is appended, with id `len(users) + 1`, and returned with 201. Duplicate names are accepted. Without either field, nothing is appended and the response is a server error. Ids stay equal to positions, so no two users share an id |
| Backend.IdsDistinct | saas-project/backend/app.py:28-33 | in a store whose ids equal positions, no two users share an id |
| Backend.DuplicateNames | saas-project/backend/app.py:25-42 | two registrations of one name both succeed, and login returns the first account |
| Backend.Store.UploadFile | saas-project/backend/app.py:44-56 | the checks come in order: no part gives "No file part", an empty name "No selected file", a disallowed extension "File type not allowed", all with 400. Only an allowed file is stored, under its sanitised name, appended at the end with 201. Every rejection leaves `uploads` unchanged, and `users` with its ids is untouched |
| Backend.Store.GetUploads | saas-project/backend/app.py:58-60 | the whole `uploads` list, in insertion order |

## Left out

- HTTP itself is not modelled. This covers axios, Flask's request parsing and `jsonify`, CORS and status pages other than those listed. Requests are returned as values and responses arrive as `Outcome`s.
- Interleaving of concurrent handlers is not modelled. Each handler is a start step and a settle step, with no event loop between them. The settle steps read the current `userId`, which only the mount effect writes.
- `FileReader` decoding, `localStorage`, `window.location`, React Router's `navigate` and the user context are out of scope. Each is represented by the value it would receive: the data URL, the stored id, the path, the user record.
- Toast durations and the close button are not modelled; they are presentation.
- SHA-256 from crypto-js and werkzeug's `secure_filename` are function parameters; their internals are foreign code.
- `file.save`, `os.makedirs`, `send_from_directory` and `uploaded_file` touch the filesystem and are out of scope.
- The ImageWithFallback modal, the selected-image state and date formatting are rendering only.
- How the React copy's `Button` wrapper (`components/common/Button.js`) styles a button is not modelled: `AnalyzeButton` records the `colorScheme` and `variant` props the page passes, which that wrapper's own variant table overrides.
- The browser's own constraint validation is not modelled: the `isRequired` fields of the demo-request form and the `type="email"` inputs of both the registration form (`React/app/frontend/src/pages/Register.js:162`) and the demo-request form (`React/app/frontend/src/pages/RequestDemo.js:142`). Neither `<form>` sets `noValidate`, so in a browser this check runs before `handleSubmit`, and some inputs the model's `validateForm` accepts, such as "see a@b.c now", never reach it. It is not part of the pages' code.
- Chakra's behaviour of disabling a button while `isLoading` is set is not modelled. So in the React copy a second click during an upload is not excluded by the model.
- `console.error` in the saas copy of the dashboard is a log with no effect on state.
- Backend.Lower: only ASCII letters are lower-cased, unlike Python's `str.lower`. For `allowed_file` this makes no difference. The only non-ASCII characters that Python lower-cases into ASCII letters are U+212A (to 'k') and U+0130 (to 'i' plus a combining dot). Neither can complete one of the seven extensions.
- Backend.Store.Register, Backend.Login: the JSON body is modelled as a string-to-string map. Non-string values and the echo of extra fields are not modelled.
- LoginPage.LoginPageState.SubmitSettled: the reply's `user_id` is taken as a string. The cases where it is missing or a number, which `localStorage` would store as "undefined" or as the number's decimal text, are not modelled.
- The saas project's own `Login.js`, `Register.js` and `RequestDemo.js` are not part of this model. They have no validation.
- The SQLAlchemy models and the Streamlit inference app are not part of this model.
