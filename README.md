# Anuvat mobile: a verified model of the app's logic

Anuvat is a React Native learning app for students. Most of it is screen layout, but a
few parts hold real rules, and this project models them in Dafny:

- the timed quiz session: answers, navigation, the countdown, scoring and the `MM:SS` label;
- the live-quiz join screen: typed and scanned codes, and the guard that handles a scan once;
- the join-classroom and sign-in screens with their mock services;
- the in-memory key/value store and the `fetchClient` request builder;
- the authentication service and the classroom service;
- the discussion thread of the classroom detail screen;
- the light/dark theme context.

## Modules

| file | module | models |
|---|---|---|
| `wrappers.dfy` | `Wrappers` | `Option` and `Result` |
| `js_text.dfy` | `JsText` | the JavaScript string built-ins the code relies on: `toUpperCase`, `trim`, `indexOf`/`includes`, `split(sep)[0]`, `split(sep)[1]`, `split(c).pop()`, decimal `toString`, `padStart(2, "0")` |
| `js_value.dfy` | `JsValue` | JavaScript values, truthiness, `String(v)`, and property reads that throw on `null`/`undefined` |
| `quiz_session.dfy` | `QuizSession` | `app/quiz-session.jsx` |
| `code_input.dfy` | `CodeInput` | the six-character code box shared by two screens |
| `live_quiz.dfy` | `LiveQuiz` | `app/live-quiz.jsx` |
| `join_classroom.dfy` | `JoinClassroom` | `app/join-classroom.jsx` |
| `login_screen.dfy` | `LoginScreen` | `app/index.jsx` |
| `clients.dfy` | `Clients` | `api/clients.js` |
| `auth_service.dfy` | `AuthService` | `services/authService.jsx` |
| `classroom_service.dfy` | `ClassroomService` | `services/classroomService.jsx` |
| `classroom_detail.dfy` | `ClassroomDetail` | `app/classroom-detail.jsx` |
| `theme.dfy` | `ThemeContext` | `contexts/ThemeContext.jsx` |

### How the model is built

- **Screens are classes.** React state becomes the fields of a class, and each handler
  becomes a method that updates those fields.
- **Handlers that wait are split in two.** An `await` or a `setTimeout` in the middle of a
  handler splits it into a `Begin…` method and a `Finish…` method. The state between the
  two halves can be observed, for example "loading" being set. A third method runs both
  halves in order, calling the screen's mock service.
- **The network is a parameter.** The server's reply is passed in as a `FetchOutcome` value:
  either a network failure, or a response with `ok`, a status, a status text and a body
  that does or does not parse.
- **Outgoing requests are returned.** `FetchClient` returns the request it would send, or
  `None` when it fails before any I/O.
- **Dialogs and navigation are recorded values.** They appear as fields such as `dialog`,
  `status`, `outcome` or `scheduledExit`, and are not performed.
- **Other non-determinism is a parameter.** This covers camera permissions, `Date.now()`
  ids, time-of-day text and storage failures.

## Model

| member | source | states |
|---|---|---|
| QuizSession.CorrectCount | app/quiz-session.jsx:124-129 | the score counts only questions whose answer equals their correct option, and it never exceeds the number of questions |
| QuizSession.CorrectCountIsCardinality | app/quiz-session.jsx:124-129 | the score equals the number of positions whose answer is correct |
| QuizSession.ScoreAtMostAnswered | app/quiz-session.jsx:124-129 | unanswered questions never score, so the score is at most the number of answered positions |
| QuizSession.PerfectScoreIff | app/quiz-session.jsx:124-129 | the score equals the question count exactly when every question is answered correctly |
| QuizSession.ZeroScoreIff | app/quiz-session.jsx:124-129 | the score is 0 exactly when no question is answered correctly |
| QuizSession.Percentage | app/quiz-session.jsx:136-138 | `Math.round(score/total*100)` is the integer within half a point of the exact value, rounding halves up; it is undefined (NaN) for an empty quiz, at most 100 when the score is at most the total, 100 for a perfect score and 0 for a zero score |
| QuizSession.FormatTimeRoundTrip | app/quiz-session.jsx:86-92 | reading the label back as minutes*60+seconds gives the original number of seconds |
| QuizSession.FormatTimeShape | app/quiz-session.jsx:86-92 | below 6000 seconds the label is five characters `DD:DD`, whose minutes*60+seconds is the input and whose seconds part is below 60 |
| QuizSession.FormatTimeTenMinutes | app/quiz-session.jsx:86-92 | the starting 600 seconds are shown as `10:00` |
| QuizSession.QuestionIdsBound | app/quiz-session.jsx:24-68 | a quiz has at most as many distinct question ids as questions |
| QuizSession.ShippedQuizWellFormed | app/quiz-session.jsx:24-68 | the shipped React quiz has five questions and no two share an id |
| QuizSession.FormatTime | app/quiz-session.jsx:86-92 | the label has at least five characters with the colon third from the end |
| QuizSession.AnsweredIdsMatchPositions | app/quiz-session.jsx:149 | with distinct ids, the answer keys that are question ids are as many as the positions whose question has an answer |
| QuizSession.AnsweredCountMeaning | app/quiz-session.jsx:149 | with keys taken from the quiz's ids the answer count is at most the question count, and with distinct ids it equals the number of answered positions |
| QuizSession.AnsweredCountBound | app/quiz-session.jsx:149 | when every answer key is a question id of the quiz, the answered count is at most the number of questions |
| QuizSession.Session.constructor | app/quiz-session.jsx:19-21 | a session starts at question 0 with no answers, 600 seconds and the timer running |
| QuizSession.Session.AnsweredCount | app/quiz-session.jsx:149 | with answers keyed by quiz ids the count is at most the number of questions, and with distinct ids it is the number of questions that have an answer |
| QuizSession.Session.IsAnswered | app/quiz-session.jsx:263 | a question shown as answered has an entry in the answers, so the answered count is positive |
| QuizSession.Session.SelectAnswer | app/quiz-session.jsx:94-99 | selecting sets the entry for that question and leaves every other entry, the index and the timer alone; answers stay keyed by quiz ids |
| QuizSession.Session.SelectOption | app/quiz-session.jsx:222-231 | pressing an option records it for the question on screen |
| QuizSession.Session.Next | app/quiz-session.jsx:101-105 | the index advances only below the last question, so it stays in range |
| QuizSession.Session.Previous | app/quiz-session.jsx:107-111 | the index goes back only above 0, so it stays in range |
| QuizSession.Session.JumpTo | app/quiz-session.jsx:258-268 | a navigator press sets the index to exactly the chosen in-range position |
| QuizSession.Session.Tick | app/quiz-session.jsx:71-84 | a running timer loses exactly one second while positive; at 0 it stops, stays at 0 and asks for submission; a stopped timer does nothing; the time never goes negative |
| QuizSession.Session.Teardown | app/quiz-session.jsx:83 | unmounting stops the interval and changes nothing else |
| QuizSession.Session.RunInterval | app/quiz-session.jsx:71-84 | however many times the interval fires, submission is asked for at most once, exactly when it fires more times than there are seconds left |
| QuizSession.Session.Score | app/quiz-session.jsx:124-129 | the scoring loop computes `CorrectCount` and changes no state |
| QuizSession.Session.Submit | app/quiz-session.jsx:113-145 | nothing is reported unless the dialog is confirmed; then the report holds the score, the total, total minus score as incorrect, and the percentage |
| JsText.Upper | app/live-quiz.jsx:30 | `toUpperCase` keeps the length, leaves no lower-case letter and changes only lower-case letters |
| JsText.UpperIdempotent | app/live-quiz.jsx:30 | upper-casing twice is upper-casing once |
| JsText.TrimIsInnerSlice | app/classroom-detail.jsx:128-131 | `trim` yields an inner slice with only white space cut away at both ends and no white space at its own ends |
| JsText.TrimEmptyIff | app/classroom-detail.jsx:128 | the trimmed text is empty exactly when the text is all white space |
| JsText.TrimIdempotent | app/classroom-detail.jsx:131 | trimming twice is trimming once |
| JsText.FindFrom | app/live-quiz.jsx:105 | `indexOf(pat, k)` finds the first occurrence at or after `k`, and finds none when there is none |
| JsText.IncludesIff | app/live-quiz.jsx:105-107 | `includes` holds exactly when the pattern occurs somewhere |
| JsText.SplitHead | app/live-quiz.jsx:106 | `split(sep)[0]` is the prefix before the first separator, or the whole text, and no separator starts inside it |
| JsText.SplitSecond | app/live-quiz.jsx:106 | `split(sep)[1]` is the slice after the first separator, running to the next separator or the end, with no separator starting inside it |
| JsText.SplitLast | app/live-quiz.jsx:108 | `split(c).pop()` is the suffix after the last `c`, or the whole text |
| JsText.DecimalRoundTrip | app/quiz-session.jsx:89-91 | decimal `toString` reads back as the same number |
| JsText.PadStart2Value | app/quiz-session.jsx:89-91 | `padStart(2, "0")` keeps the value of the digits |
| JsValue.Stringify | api/clients.js:9 | `String(s)` of a string is the string itself |
| JsValue.Get | api/clients.js:56-58 | a property read throws on `null` and `undefined` and otherwise gives the own field or `undefined` |
| CodeInput.NormalizeCode | app/live-quiz.jsx:180-182 | the code box holds the upper-cased first six characters of the text |
| CodeInput.NormalizeCodeIsUpper | app/live-quiz.jsx:180-182 | the code in the box is already upper case |
| CodeInput.NormalizeCodeIdempotent | app/join-classroom.jsx:109-111 | normalising what is in the box changes nothing |
| LiveQuiz.CheckQuizCode | app/live-quiz.jsx:29-59 | the code is refused before the lookup exactly when its upper-cased length is not 6, and accepted exactly when it upper-cases to `QUIZ01` |
| LiveQuiz.CheckQuizCodeIgnoresCase | app/live-quiz.jsx:30 | the decision depends on the code only up to letter case |
| LiveQuiz.ExtractFromQuery | app/live-quiz.jsx:105-106 | a payload with `quiz=` yields the slice after the first `quiz=`, which holds no `&` and ends at a `&`, at another `quiz=` or at the end |
| LiveQuiz.ExtractFromPath | app/live-quiz.jsx:107-108 | otherwise a payload with `/` yields its last segment, which holds no `/` |
| LiveQuiz.ExtractCode | app/live-quiz.jsx:100-109 | the extracted code is no longer than the payload; from a `quiz=` payload it holds no `&`, and from a path payload it holds no `/` |
| LiveQuiz.ExtractPlain | app/live-quiz.jsx:102 | any other payload is the code itself |
| LiveQuiz.OpenScannerAsWritten | app/live-quiz.jsx:66-91 | as written the handler throws exactly when the permission had not loaded and the request grants access, and opens exactly when access was already granted or a loaded permission is then granted |
| LiveQuiz.OpenScannerFirstGrantThrows | app/live-quiz.jsx:66-91 | the handler as written throws instead of opening on a first tap whose permission is still loading and then granted, while the corrected version opens |
| LiveQuiz.OpenScanner | app/live-quiz.jsx:66-91 | corrected: the scanner opens exactly when the permission was already granted or the request grants it; the permission alert shows exactly when the first request is refused |
| LiveQuiz.OpenScannerAgrees | app/live-quiz.jsx:66-91 | the corrected handler agrees with the code as written whenever the permission had loaded or the request was refused |
| LiveQuiz.Screen.constructor | app/live-quiz.jsx:23-27 | the screen starts with an empty code, not loading, the scanner closed and not yet scanned |
| LiveQuiz.Screen.ChangeText | app/live-quiz.jsx:180-182 | typing stores the normalised code and nothing else, so the box is always upper case |
| LiveQuiz.Screen.JoinEnabled | app/live-quiz.jsx:195-198 | the Join button is enabled when not loading and the box holds six characters |
| LiveQuiz.Screen.BeginJoin | app/live-quiz.jsx:29-38 | a wrong-length code shows the invalid-code dialog without loading; otherwise loading starts with the upper-cased code pending |
| LiveQuiz.Screen.FinishJoin | app/live-quiz.jsx:40-60 | after the delay loading ends, and the join dialog shows exactly for `QUIZ01` |
| LiveQuiz.Screen.JoinQuiz | app/live-quiz.jsx:29-61 | a whole join shows the dialog that `CheckQuizCode` decides |
| LiveQuiz.Screen.ManualJoin | app/live-quiz.jsx:63-65 | the Join button joins with the code in the box: a wrong length shows the invalid-code dialog without loading; an enabled button always starts a join, whose pending code is the box itself when the box is upper case; the box and the scanner are untouched |
| LiveQuiz.Screen.OpenScannerButton | app/live-quiz.jsx:66-91 | once granted the scanner is re-armed (not scanned) and shown; a refused first request raises the permission alert |
| LiveQuiz.Screen.CloseScanner | app/live-quiz.jsx:255 | closing hides the scanner and keeps the scanned flag |
| LiveQuiz.Screen.BarcodeScanned | app/live-quiz.jsx:94-115 | after a handled scan further scans change nothing; the first one closes the scanner and shows the extracted code upper-cased, then starts a join with exactly that code, or shows the invalid-code dialog without loading when it is not six characters; the box stays upper case |
| JoinClassroom.MockJoinClassroom | app/join-classroom.jsx:19-36 | the mock join succeeds exactly for a six-character code that upper-cases to `R7H12K`, naming "Advanced React Development"; otherwise it gives the fixed rejection message |
| JoinClassroom.StatusAfter | app/join-classroom.jsx:59-73 | a settled join shows a success status exactly when it succeeded; success reads "Successfully joined <name>!"; failure shows the service's message as an error; the text is non-empty unless the service left the message empty |
| JoinClassroom.Screen.constructor | app/join-classroom.jsx:40-42 | the screen starts with an empty code, not loading and no status |
| JoinClassroom.Screen.JoinEnabled | app/join-classroom.jsx:156-159 | the Join button is enabled when not loading and the box holds six characters |
| JoinClassroom.Screen.ChangeText | app/join-classroom.jsx:109-111 | typing stores the normalised code and nothing else |
| JoinClassroom.Screen.BeginJoin | app/join-classroom.jsx:44-56 | a code whose length is not 6 sets the length error and makes no call; otherwise, and always when the button is enabled, loading starts, the status clears and the upper-cased code goes out; the box and the queued exit are untouched |
| JoinClassroom.Screen.FinishJoin | app/join-classroom.jsx:56-73 | loading ends; success names the class and queues the exit alert; failure shows the returned message |
| JoinClassroom.Screen.Join | app/join-classroom.jsx:44-74 | a whole join ends in the length error, or not loading with the status of the mock's reply; a successful join queues the alert "You are now enrolled in Advanced React Development.", and otherwise the queued exit is unchanged; the box is untouched |
| JoinClassroom.JoinSucceedsIff | app/join-classroom.jsx:22-73 | from a six-character box the join succeeds exactly for `R7H12K` in any letter case, and then reads "Successfully joined Advanced React Development!" |
| LoginScreen.MockLogin | app/index.jsx:14-24 | the mock login succeeds exactly for the demo email and password, with the fixed messages |
| LoginScreen.OutcomeOf | app/index.jsx:42-46 | the outcome is a navigation exactly when the login succeeded, and then to the home tab; a failure is reported with exactly the returned message |
| LoginScreen.Screen.constructor | app/index.jsx:28-30 | the form starts with the demo account filled in and not loading |
| LoginScreen.Screen.SignInEnabled | app/index.jsx:95-98 | the Sign In button is enabled exactly when not loading |
| LoginScreen.Screen.SetEmail | app/index.jsx:69 | typing an email changes only the email |
| LoginScreen.Screen.SetPassword | app/index.jsx:87 | typing a password changes only the password |
| LoginScreen.Screen.BeginLogin | app/index.jsx:33-38 | an empty field gives the missing-fields outcome and makes no call; otherwise loading starts and the button is disabled |
| LoginScreen.Screen.FinishLogin | app/index.jsx:39-46 | loading ends, the button is enabled again, and the outcome is that of the mock's reply |
| LoginScreen.Screen.HandleLogin | app/index.jsx:32-47 | an empty field gives the missing-fields outcome; otherwise a whole login ends not loading, navigates home exactly for the demo pair, and for any other pair reports "Invalid credentials."; the fields are untouched |
| LoginScreen.PrefilledFormSignsIn | app/index.jsx:14-29 | the prefilled form signs in |
| Clients.Lookup | api/clients.js:10 | `getItem` gives the stored string, and null for a missing key or an empty string |
| Clients.ReadAfterWrite | api/clients.js:9-10 | a written value is read back, except that an empty string reads as null; other keys are untouched |
| Clients.ReadAfterRemove | api/clients.js:10-11 | a removed key reads as null; other keys are untouched |
| Clients.Storage.constructor | api/clients.js:7-8 | the store starts empty |
| Clients.Storage.SetItem | api/clients.js:9 | `setItem` replaces one entry |
| Clients.Storage.RemoveItem | api/clients.js:11 | `removeItem` drops one entry |
| Clients.Storage.GetToken | api/clients.js:16 | the token is read exactly when the token key holds a non-empty string, and it is that string |
| Clients.Storage.GetStoredClassroomId | api/clients.js:20 | the classroom id is read exactly when its key holds a non-empty string, and it is that string |
| Clients.Storage.StoreToken | api/clients.js:15 | the token is stored as `String(token)` under the token key |
| Clients.Storage.RemoveToken | api/clients.js:17 | the token key is dropped |
| Clients.Storage.StoreClassroomId | api/clients.js:18-19 | the classroom id is stored as its string under the classroom-id key |
| Clients.Storage.RemoveClassroomId | api/clients.js:21 | the classroom-id key is dropped |
| Clients.ErrorMessage | api/clients.js:53-59 | the error message is the body's `message`, or the status text when the body does not parse, or `HTTP error! Status: <n>` |
| Clients.Classify | api/clients.js:50-70 | a network failure, a non-ok reply or an unparsable body is rethrown; an ok 204 gives null; any other ok reply gives its parsed body |
| Clients.FetchClient | api/clients.js:23-71 | a call that needs a token fails with "Authentication required, but token is missing." and sends nothing when none is stored; otherwise it sends to the base URL plus the path with a JSON content type, a `Bearer` header exactly when auth is needed, and a body exactly when the data is truthy, and it hands back the classified reply |
| AuthService.ReadCredentials | services/authService.jsx:37 | reading `response.data` throws on a null reply; otherwise the token and the user are read from it |
| AuthService.ReadUser | services/authService.jsx:14 | reading `response.data.user` throws when the reply or its `data` is nullish |
| AuthService.OrDefault | services/authService.jsx:44-46 | a non-empty message is kept and an empty one is replaced by the fallback, so with a non-empty fallback the rethrown message is never empty |
| AuthService.Authenticate | services/authService.jsx:28-70 | a credentials POST without auth stores a truthy token and returns the user; on any failure the store is untouched |
| AuthService.Login | services/authService.jsx:28-47 | `login` posts to `/users/login` without auth, stores a truthy token (a non-empty string token reads back), returns the user, and on failure rethrows the message or the login default with the store untouched |
| AuthService.Register | services/authService.jsx:49-70 | `register` does the same on `/users/register` with `name` in the body |
| AuthService.GetCurrentUser | services/authService.jsx:10-26 | `/users/me` is asked only with a stored token; success returns the user with the store untouched; any failure removes both keys and returns null |
| AuthService.Logout | services/authService.jsx:72-75 | both keys are removed whatever was stored, and nothing is sent |
| ClassroomService.HandleError | services/classroomService.jsx:7-10 | the error shape has null data and a non-empty message: the given one when it is non-empty, and "An unknown API error occurred." otherwise |
| ClassroomService.HandleSuccess | services/classroomService.jsx:6 | the success shape carries `response.data` and no error; a null reply makes the read throw |
| ClassroomService.Settle | services/classroomService.jsx:13-21 | a read ends in the success shape exactly when the call succeeded with a non-null reply, and never throws |
| ClassroomService.Read | services/classroomService.jsx:12-81 | a read is an authenticated GET of its path, settled into the `{data, error}` shape |
| ClassroomService.GetDetails | services/classroomService.jsx:12-22 | GET `/classrooms/{id}/details` |
| ClassroomService.GetMaterials | services/classroomService.jsx:47-57 | GET `/classrooms/{id}/materials` |
| ClassroomService.GetPracticeAssignments | services/classroomService.jsx:59-69 | GET `/classrooms/{id}/assignments?type=practice` |
| ClassroomService.GetSubmissionAssignments | services/classroomService.jsx:71-81 | GET `/classrooms/{id}/assignments?type=submission` |
| ClassroomService.JoinedId | services/classroomService.jsx:31 | reading `response.data.classroomId` succeeds exactly when neither the reply nor its `data` is nullish, gives that property's value, and otherwise fails with a non-empty message |
| ClassroomService.JoinClassroom | services/classroomService.jsx:24-45 | an authenticated POST of `{code}` to `/classrooms/join`, sent only with a stored token; the result has no error exactly when the server's `data.classroomId` was read and is truthy, and then it is that id, stored as its string and read back by `getStoredClassroomId` when non-empty; a falsy id gives the missing-id error, a failed call or read the error shape of its message, and the store is then untouched |
| ClassroomDetail.IsDue | app/classroom-detail.jsx:54 | an assignment card is drawn as due exactly when its status is "Due" |
| ClassroomDetail.IsCurrentUser | app/classroom-detail.jsx:251 | a message is drawn as the user's own exactly when its author is the signed-in user's name |
| ClassroomDetail.MockDueAssignments | app/classroom-detail.jsx:17-36 | of the mock assignments the first and the third are due |
| ClassroomDetail.InitialThreadAuthors | app/classroom-detail.jsx:38-51 | of the two initial messages only the second, id 102, is by the signed-in user |
| ClassroomDetail.SendEnabled | app/classroom-detail.jsx:268-271 | the send button is enabled exactly when not sending and the box is not all white space |
| ClassroomDetail.PostedTextShape | app/classroom-detail.jsx:131 | the posted text is non-empty, has no white space at either end, and is already trimmed |
| ClassroomDetail.Thread.constructor | app/classroom-detail.jsx:121-123 | the thread starts with the two initial messages, an empty box and not sending |
| ClassroomDetail.Thread.Edit | app/classroom-detail.jsx:260 | typing changes only the box |
| ClassroomDetail.Thread.Send | app/classroom-detail.jsx:127-133 | a blank box changes nothing; otherwise sending starts, the box clears and the trimmed text is pending |
| ClassroomDetail.Thread.Deliver | app/classroom-detail.jsx:135-148 | exactly one message, by the signed-in user and with the given text, id and time, is appended after the thread as it then is; the thread grows by one and its last message is the user's; sending ends and the box is untouched |
| ClassroomDetail.Thread.HandleSend | app/classroom-detail.jsx:127-149 | a whole send appends one message by the user with the trimmed text, keeping earlier messages in order, or does nothing for a blank box |
| ThemeContext.EncodeTheme | contexts/ThemeContext.jsx:74 | the persisted value is "dark" exactly for the dark flag, and "light" otherwise |
| ThemeContext.DecodeTheme | contexts/ThemeContext.jsx:59-62 | a missing value keeps the flag; a stored value is dark exactly when it is "dark" |
| ThemeContext.ThemeRoundTrip | contexts/ThemeContext.jsx:61-74 | what a toggle writes loads back as the same flag |
| ThemeContext.SelectTheme | contexts/ThemeContext.jsx:80 | the dark palette is selected exactly for the dark flag, and its mode is the persisted string |
| ThemeContext.Provider.constructor | contexts/ThemeContext.jsx:50-51 | the provider starts light and loading |
| ThemeContext.Provider.CurrentTheme | contexts/ThemeContext.jsx:80 | the current theme's mode matches the flag |
| ThemeContext.Provider.LoadThemePreference | contexts/ThemeContext.jsx:57-68 | loading ends either way; a failed read leaves the flag; otherwise the stored value is decoded |
| ThemeContext.Provider.ToggleTheme | contexts/ThemeContext.jsx:70-78 | the flag flips even when the write fails; a successful write stores the new flag's value |
| ThemeContext.ToggleSurvivesRelaunch | contexts/ThemeContext.jsx:57-78 | a stored toggle is what the next load reads, whatever else is stored |
| ThemeContext.ToggleThenRelaunch | contexts/ThemeContext.jsx:57-78 | toggling and relaunching a provider gives the toggled flag |
| ThemeContext.ToggleTwice | contexts/ThemeContext.jsx:70-78 | two toggles restore the flag and persist its original value |

Some definitions stand for JavaScript built-ins or small helpers and have no row of their own. The rows of the lemmas about them state their properties:
- `JsValue.Truthy` (JavaScript truthiness) is covered by the `Clients.FetchClient`, `AuthService.Authenticate` and `ClassroomService.JoinClassroom` rows;
- `JsText.Trim` by `JsText.TrimIsInnerSlice`, `JsText.TrimEmptyIff` and `JsText.TrimIdempotent`;
- `JsText.Decimal` by `JsText.DecimalRoundTrip`;
- `JsText.PadStart2` by `JsText.PadStart2Value`;
- `Clients.Storage.GetItem` is `Clients.Lookup` on the store's map, covered by the `Clients.Lookup`, `Clients.ReadAfterWrite` and `Clients.ReadAfterRemove`;
- `ThemeContext.Saved` by `ThemeContext.Provider.LoadThemePreference` and `ThemeContext.ToggleSurvivesRelaunch`.

## Left out

- Rendering, styles and layout, `router` navigation, and the `Alert` dialogs. A dialog or a navigation is recorded as a value.
- The real `fetch` and JSON parsing. A reply is an abstract value, and JSON bodies are `Js` values.
- `console.error` logging.
- The `setTimeout` delays of the mock services. Each delay is the boundary between a `Begin…` and a `Finish…` method.
- Wall-clock `setInterval` scheduling. One tick is one call of `Tick`.
- `Date.now()` ids and `toLocaleTimeString` timestamps in the discussion thread. They are parameters of `Deliver` and `HandleSend`.
- The camera hook `useCameraPermissions`. Its value and the result of `requestPermission()` are parameters. The "Settings" button of the permission alert, which asks again, is not modelled.
- The floating-point progress bar width. `Percentage` is stated on exact rationals, so a floating-point tie that rounds differently is not captured.
- QuizSession.Session.Tick: when the time is up it only reports that submission is requested. Like the source, it does not submit unconditionally: expiry goes through the confirming `handleSubmitQuiz` dialog.
- The React stale closure is not modelled. A timer created once would see the first render's `answers`. `Submit` scores the current answers.
- `contexts/AuthContext.jsx`, `app/_layout.tsx`, `app/classrooms-list.jsx` and the tab screens are not part of this model. They are context glue, navigation and mock lists.
- `CustomAlert` in `api/clients.js` is not modelled. It is UI.
- Module resolution is not modelled. `services/classroomService.jsx` imports `../api/client`, but the file is `api/clients.js`. The model assumes the import reaches `api/clients.js`.
- JsText.Upper: only ASCII letters are upper-cased. Full Unicode case mapping, which can change a string's length, is not modelled.
- JsValue: numbers are integers. Inherited properties and getters are not modelled.
- JsValue.ReadError: the TypeError text is a stand-in. The engine's wording differs by engine and by syntax (a destructuring read is worded differently from a property read), and the model only promises that the text is not empty.
- QuizSession.FormatTime is defined on natural numbers only. The timer never goes below 0.
- JavaScript string lengths count UTF-16 code units, while the model counts characters. Text outside the Basic Multilingual Plane is measured differently.
- The classroom detail screen's `JSON.parse` of its route parameter and its tab switch are not modelled.
- LiveQuiz.Screen.BarcodeScanned: each call sees the state left by the previous one. In React, `setScanned(true)` takes effect only at the next render, so two scan events delivered before that render would both pass the `scanned` guard. The model does not capture that window.
- JoinClassroom.StatusAfter: a success reply without `data` is not modelled, because the mock always includes it. The source would throw there.

### Notes on the code

- A classroom service result can have `data` undefined and `error` null. This happens when the server's reply has no `data` field.
- The countdown does not submit on its own when it reaches 0. It opens the confirmation dialog.
- `getCurrentUser` does not check for a token itself. `fetchClient` performs the missing-token check, and the failure looks like any other failure, so both keys are cleared.

## Findings

| source | as written | input that shows it | evidently intended | confidence | as-written member | corrected member |
|---|---|---|---|---|---|---|
| app/live-quiz.jsx:67-91 | after `requestPermission()` grants access on the `!permission` path, the handler goes on to read `permission.granted` from the same null value | none on the screen as shipped: while the permission is null the screen renders only the loader (app/live-quiz.jsx:119-126), so the "Scan QR Code" button (line 155) cannot be pressed; the handler alone, called with a null permission and a granted request, throws | the scanner opens once access is granted; this is a latent defect in code the screen cannot reach | not executed; low | LiveQuiz.OpenScannerAsWritten (shown by LiveQuiz.OpenScannerFirstGrantThrows) | LiveQuiz.OpenScanner (used by LiveQuiz.Screen.OpenScannerButton) |
