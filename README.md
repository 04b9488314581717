# Face-recognition attendance system: verified model of its decision logic

This project models, in Dafny, the two pieces of sequential decision logic in
a small attendance system:

* the browser controller `AttendanceTracker` (main.js), which owns the camera
  stream, guards the capture pipeline with `isCapturing`, turns the backend's
  reply into a status message and keeps a newest-first history of which the
  first ten entries are shown;
* the Flask endpoint `mark_attendance` (app.py), which validates the request,
  rejects a face already linked to another user, rejects a second mark on the
  same day, and otherwise replaces the user's row and appends one attendance
  row; and the endpoint `recent_attendance`, which returns the ten newest rows.

Files and modules:

| file | module | models |
|---|---|---|
| prelude.dfy | `Prelude` | `Option`, `Min` |
| api.dfy | `Api` | the JSON replies exchanged by client and server, and the outcome of a `fetch` |
| js_string.dfy | `JsString` | `String.prototype.trim` |
| backend.dfy | `Backend` | the tables, `mark_attendance` (class `Database`) and its specification `MarkSpec` |
| recent.dfy | `Recent` | `recent_attendance`: the ORDER BY / LIMIT query and the row-to-item projection |
| tracker.dfy | `Tracker` | the class `AttendanceTracker` and sequences of events exercising it |
| end_to_end.dfy | `EndToEnd` | what the client shows for each decision of the server |

How the environment enters the model:

* The camera (`getUserMedia`), the simulated recognition (`Math.random`), the
  confidence value, the clock (`new Date()`, `date.today()`, `datetime.now()`)
  and the network are parameters of the operations that receive them.
* `captureAttendance` is an `async` function with two suspension points. It is
  split at them into `CaptureAttendance` (up to the recognition `await`),
  `RecognitionDone` (recognition settles; `sendAttendanceData` runs up to its
  `fetch`) and `ServerReplied` (the reply or the network error arrives). The
  field `phase` records where the call is suspended, so any other event may
  run in between, as in the browser.
* The `setTimeout(..., 2000)` callbacks are kept in the queue `timers`. They
  all have the same delay, so they fire in the order they were set. The
  environment runs the oldest one with `FireTimer`.
* The `loadedmetadata` listener is the operation `OnLoadedMetadata`. The
  response to the constructor's history request is `LoadAttendanceRecords`.
* The field `liveStreams` holds the streams whose tracks are still running.
* On the server, face detection is the input `scan`. `compare_faces` is the
  function parameter `sameFace`. The `users` table is a map keyed by
  `user_id`, its primary key (init_db.py:10). `attendance` is a sequence of
  rows.

Two behaviours of the code a reader might not expect, both modelled as written:

* One might expect capture to be enabled only while both identity fields are
  non-empty; in the code, `resetForm` clears the fields without re-checking
  the button. `sendAttendanceData` reads the fields when recognition finishes,
  not when capture is clicked. `Tracker.IdentityReadAfterRecognition` shows a
  capture enabled for a non-empty ID that posts an empty one.
  `EndToEnd.EmptyIdentityIsIncomplete` shows the server then answers
  'incomplete data'. The invariant that does hold is `isCapturing ==>
  captureDisabled` (in `AttendanceTracker.Valid`). Because a disabled button
  cannot be clicked, a click never reaches the re-entrancy guard.
* Starting the camera again does not stop the previous stream.
  `Tracker.RestartLeaksFirstStream` shows its tracks still running after
  `stopCamera`.

## Model

| member | source | states |
|---|---|---|
| `JsString.IsWhitespace` | main.js:86-87 | the characters `trim` removes: ECMAScript WhiteSpace (including the Unicode space separators) and LineTerminator |
| `JsString.TrimStart` | main.js:86-87 | the result is no longer than the input and does not start with whitespace |
| `JsString.TrimEnd` | main.js:86-87 | the result is no longer than the input and does not end with whitespace |
| `JsString.Trim` | main.js:86-87 | the trimmed field neither starts nor ends with ECMAScript whitespace |
| `JsString.TrimStartIsSuffix` | main.js:86-87 | trimming the start keeps a suffix and drops only whitespace |
| `JsString.TrimEndIsPrefix` | main.js:86-87 | trimming the end keeps a prefix and drops only whitespace |
| `JsString.TrimIsInfix` | main.js:86-87 | trim keeps one contiguous part of the input; everything around it is whitespace |
| `JsString.TrimEmptyIffAllWhitespace` | main.js:86-88 | a field trims to "" (is falsy in the eligibility test) exactly when it is all whitespace |
| `Tracker.Render` | main.js:214-220 | an empty history renders exactly the placeholder; otherwise the entries are exactly the first min(10, n) records, in order |
| `Tracker.RenderAfterPrepend` | main.js:208-220 | after a prepend the list shows the new record first, then what it showed before minus its tenth entry |
| `Tracker.OrDefault` | main.js:184 | JavaScript's logical-or default for a string: `m` unless it is empty (falsy), else `d` |
| `Tracker.MessageOr` | main.js:179-181 | the logical-or default on `result.message`: the message when present and non-empty, else `d` |
| `Tracker.ReplyOutcome` | main.js:160-185 | 'success' yields a record with the posted (trimmed) ID and name; 'exists', 'face_mismatch' and other statuses fail with the fixed message, the server's message or its default; a network error with no message fails with 'Failed to connect to server'; every failure message is non-empty |
| `Tracker.LoadedRecords` | main.js:194-199 | one record per backend item, in order, with the item's ID, name and confidence and the timestamp date + "T" + time |
| `Tracker.AttendanceTracker.constructor` | main.js:3-25 | the fields and buttons are the page's initial markup; no stream, not capturing, empty history, nothing pending except the history request |
| `Tracker.AttendanceTracker.UpdateStatus` | main.js:245-248 | the status kind and text are set together |
| `Tracker.AttendanceTracker.StartCamera` | main.js:40-62 | a granted stream becomes current and stays live, with status 'requesting'; a failure keeps the stream and shows handleCameraError's message with kind 'error' |
| `Tracker.AttendanceTracker.OnLoadedMetadata` | main.js:50-56 | status 'ready', start disabled, stop enabled, and capture enabled exactly when eligible |
| `Tracker.AttendanceTracker.StopCamera` | main.js:65-76 | the current stream's tracks stop and it is dropped; status 'idle'; start enabled; stop and capture disabled |
| `Tracker.AttendanceTracker.ValidateUserInfo` | main.js:85-93 | capture is enabled iff trim(ID) and trim(name) are non-empty, a stream is present and no capture runs |
| `Tracker.AttendanceTracker.EditUserId` | main.js:34-36 | typing in the ID field re-runs the eligibility test on the new value |
| `Tracker.AttendanceTracker.EditUserName` | main.js:34-36 | typing in the name field re-runs the eligibility test on the new value |
| `Tracker.AttendanceTracker.CaptureAttendance` | main.js:96-105 | while a capture runs, a call changes nothing (no status, record or request); otherwise the guard is taken, capture disabled, status 'processing' |
| `Tracker.AttendanceTracker.RecognitionDone` | main.js:107-108 | a recognition failure ends the capture with 'Face not recognized clearly', guard released, history unchanged, no request; a success posts exactly one payload of the trimmed current fields |
| `Tracker.AttendanceTracker.ServerReplied` | main.js:108-119 | the guard is released whatever the outcome; success shows 'Attendance marked successfully!', prepends the record and schedules reset then revalidation; any failure shows ('error', message) and leaves the history unchanged |
| `Tracker.AttendanceTracker.Finish` | main.js:110-119 | the success tail, catch and finally of captureAttendance, including the 'Failed to mark attendance.' default |
| `Tracker.AttendanceTracker.LoadAttendanceRecords` | main.js:189-205 | only a delivered 'success' reply replaces the history (and renders it); anything else leaves it as it was |
| `Tracker.AttendanceTracker.AddAttendanceRecord` | main.js:208-211 | the history becomes [r] + old history, and the list is re-rendered from it |
| `Tracker.AttendanceTracker.RenderAttendanceList` | main.js:214-242 | the rendered list is the projection Render of the current history |
| `Tracker.AttendanceTracker.ResetForm` | main.js:251-255 | both fields empty, status ('ready', 'Ready for next attendance') |
| `Tracker.AttendanceTracker.HandleCameraError` | main.js:258-268 | kind 'error' with "Camera error. " followed by 'Please allow access.', 'No camera found.' or 'Try again.' by error name |
| `Tracker.AttendanceTracker.FireTimer` | main.js:112-118 | the oldest pending callback runs: a reset clears the form, a revalidation re-runs the eligibility test |
| `Tracker.CameraReadyWithIdentity` | main.js:40-56 | after the camera starts and both fields are filled, capture is enabled iff both trim non-empty |
| `Tracker.DoubleCaptureSendsOnce` | main.js:96-99 | with the camera ready and both fields filled, two calls of captureAttendance before the first settles post exactly one request; the first call is an enabled click |
| `Tracker.RestartLeaksFirstStream` | main.js:47 | after start, start, stop the first stream's tracks are still running |
| `Tracker.IdentityReadAfterRecognition` | main.js:152-155 | blanking the ID during recognition posts an empty ID although capture was enabled |
| `Tracker.SuccessThenReset` | main.js:110-112 | from an enabled capture, a success puts the trimmed identity first in the history; the next timer clears both fields and shows 'ready' |
| `Tracker.ExistsKeepsHistory` | main.js:176-177 | from an enabled capture, an 'exists' reply shows 'Attendance already marked today' and adds no record |
| `Tracker.StopCameraTwice` | main.js:65-76 | a second stop leaves the state one stop gives: only the stream, live streams, status and buttons change, exactly as one stop sets them |
| `Backend.Database.constructor` | init_db.py:8-26 | the tables hold the given users (keyed by user_id) and rows |
| `Backend.Truthy` | app.py:31-38 | Python truthiness of a `data.get` result: present and non-empty |
| `Backend.Complete` | app.py:34-38 | userId, userName and imageData are truthy and imageData contains ',' |
| `Backend.MarkSpec` | app.py:28-80 | checks in source order (no data, incomplete, scan error with 500, no face, face linked elsewhere, already marked today); the tables change exactly on 'success'; rows are only appended, at most one; no user is removed |
| `Backend.Database.MarkAttendance` | app.py:28-80 | the reply and the new tables are MarkSpec's, computed by scanning every stored user; a duplicate-free table stays duplicate-free |
| `Backend.LinkedElsewhere` | app.py:58-62 | the face loop's exit condition over every users row: some stored user with a different user_id has an encoding `compare_faces` matches |
| `Backend.MarkedOn` | app.py:66-67 | `SELECT 1 FROM attendance WHERE user_id=? AND date=?` finds a row: some attendance row has that user_id and date |
| `Backend.InputRejection` | app.py:30-39 | a body for which `get_json()` returns `None` (a JSON `null`) or an empty object gives ('error', 'no data'); a missing/empty userId, userName or imageData, or no ',' in imageData, gives ('error', 'incomplete data'); tables unchanged |
| `Backend.NoFaceRejection` | app.py:47-50 | no face found gives 'face_mismatch' / 'no face found' with 400; tables unchanged |
| `Backend.FaceLinkedIff` | app.py:57-62 | 403 'face_mismatch' exactly when a stored user with another user_id matches the face; the requester's own row never counts; tables unchanged |
| `Backend.DuplicateTodayIff` | app.py:64-68 | 'exists' exactly when the face check passed and a row for (user_id, today) exists; tables unchanged |
| `Backend.SuccessPath` | app.py:70-80 | 'success' exactly when every check passes; users maps user_id to (name, current encoding), other users unchanged; exactly one row (user_id, name, today, now, confidence) appended |
| `Backend.TablesChangeOnlyOnSuccess` | app.py:28-80 | a reply other than 'success' leaves both tables as they were |
| `Backend.MarkKeepsOneRowPerUserPerDay` | app.py:64-76 | one request keeps the attendance table free of duplicate (user_id, date) pairs |
| `Backend.Replay` | app.py:28-80 | requests handled one after another keep every earlier row and user, and add at most one row each |
| `Backend.ReplayKeepsOneRowPerUserPerDay` | app.py:64-76 | any sequence of requests keeps a duplicate-free table duplicate-free |
| `Recent.TextLess` | app.py:91 | sqlite's BINARY collation for TEXT: lexicographic order of the characters, a proper prefix first |
| `Recent.TextLessIrreflexive` | app.py:91 | the TEXT collation is irreflexive |
| `Recent.TextLessTransitive` | app.py:91 | the TEXT collation is transitive |
| `Recent.TextLessTotal` | app.py:91 | any two TEXT values are equal or ordered one way |
| `Recent.Newer` | app.py:91 | the `ORDER BY date DESC, time DESC` comparison: a later date, or the same date and a later time |
| `Recent.NewestFirst` | app.py:91 | a list sorted by that order: no row is newer than one before it |
| `Recent.NewerAsymmetric` | app.py:91 | a row newer than another is not also older than it |
| `Recent.NotNewerTransitive` | app.py:91 | the (date DESC, time DESC) order is a total preorder |
| `Recent.Insert` | app.py:91 | inserting into a newest-first list keeps it newest-first and adds exactly the row |
| `Recent.SortNewestFirst` | app.py:91 | the ordered rows are a permutation of the table ordered by date then time, descending |
| `Recent.RecentRows` | app.py:91-92 | at most 10 rows (exactly min(10, n)), newest first, drawn from the table |
| `Recent.RecentRowsAreNewest` | app.py:91-92 | a row newer than a returned row is itself returned: the LIMIT keeps the newest rows |
| `Recent.RecentAttendance` | app.py:94-100 | one item per returned row, in order, carrying its user_id, name, date, time and confidence under the renamed keys |
| `Recent.RecentAttendanceReply` | app.py:102 | the reply has status 'success' and at most 10 items, which are exactly the projected newest rows |
| `EndToEnd.RequestBody` | main.js:153-164 | the `JSON.stringify(payload)` body as `request.get_json()` reads it: an object with the four payload members as strings |
| `EndToEnd.ClientRecordsIffServerAppends` | main.js:169-175 | the client adds a history record exactly when the server appended an attendance row |
| `EndToEnd.ClientMessageForEachRefusal` | app.py:31-68 | the client shows 'incomplete data', 'no face found', 'Face already linked' or 'Attendance already marked today' for the corresponding refusal; its own mismatch default never appears |
| `EndToEnd.EmptyIdentityIsIncomplete` | app.py:38-39 | a posted empty ID or name is refused as incomplete data with the tables unchanged |
| `EndToEnd.LoadedHistoryIsRecent` | main.js:193-199 | after loading, the history has min(10, n) records matching the server's newest rows in ID, name and confidence, stamped date + "T" + time |

## Left out

- Camera and canvas: `getUserMedia` constraints, `srcObject`, `setupCanvas`, `captureFrame` (drawImage, JPEG encoding). The captured frame is an opaque string. These are browser device and graphics APIs.
- Presentation: the `innerHTML` markup, the status CSS classes, the 500 ms flash of `showCaptureEffect`, and the `visibilitychange` log. They are UI only. The rendered list is modelled as the sequence of records shown.
- Floating point and locale formatting: `toFixed(2)`, `parseFloat`, the percentage with one decimal, `toLocaleTimeString` and `toLocaleDateString`. Confidence and timestamps stay as the text they come from.
- Randomness and timing in `simulateFaceRecognition` and in the confidence value. They are the parameters `recognised` and `confidence`. The real 1–2 s and 2 s delays are not modelled, only the order in which callbacks fire.
- Event wiring (`initializeEventListeners`, `DOMContentLoaded`, the global `window.attendanceTracker`). A click is modelled as a call of the method it triggers, whether or not the button is disabled. index.html is not part of this model: the page's initial markup is the constructor's `Page` argument.
- Tracker.AttendanceTracker.StartCamera: the `await` on `getUserMedia` is treated as atomic, so no other event runs between the request and its result, and the interim status 'Camera access denied or not available' is not observable. Repeated starts register several `loadedmetadata` listeners; their bodies are identical, so `OnLoadedMetadata` runs the body once.
- Tracker.AttendanceTracker.LoadAttendanceRecords: a 'success' reply whose `data` is missing or not an array is not modelled. In the source, `data.data.map` (main.js:194) throws, the catch (main.js:202-203) logs it, and the history stays as it was.
- Tracker.LoadedRecords: list items with missing or non-string fields are outside the `ListItem` type. For such items (`[{}]`, `[1]`) the source does not throw: main.js:194-200 replaces the history with records whose fields are `undefined` and renders them.
- Concurrent requests: the model handles requests one after another (`Backend.Replay`). In the source the face scan and the duplicate-today SELECT (app.py:58-67) run before the implicit transaction that begins at the REPLACE (app.py:71), and the development server is threaded (app.py:112). Two concurrent requests for the same user on the same day can both pass the duplicate check and both insert a row, so `Backend.ReplayKeepsOneRowPerUserPerDay` holds only for requests run one after another.
- Request bodies that make `request.get_json()` raise (no body, or a Content-Type other than JSON from Flask 2.1 on): the `except` at app.py:82-84 then answers 500 with the exception text. `Body`'s `None` is only the case where `get_json()` returns `None`, a JSON `null` body.
- JSON values of other types. A body member that is a number or null, a non-object body, and a `message` that is not a string are outside the `Body` and `Reply` types.
- Backend plumbing: Flask routing, the index page, the 404 handler, `get_db`, and failures of sqlite (which would give a 500 reply). The tables are abstract values.
- The image file written to static/faces/<user_id>.jpg (app.py:41-45) after the input checks and before the face and duplicate-today checks. A request refused later (no face, face linked elsewhere, already marked today) still overwrites that file; the model has no file system and drops this write. Also left out: base64 decoding, and the `face_recognition` calls. A decode or load failure is the input `ScanError`. face_recognition_util.py is not part of this model: it only wraps the library.
- The two clock reads of `mark_attendance` are independent parameters (`today`, `now`), as in the source.
- Recent.SortNewestFirst: among rows with equal (date, time) the model fixes one order, while sqlite leaves it unspecified. The proved properties do not depend on that order.
- The server's unused `encode_face` helper and init_db.py beyond the primary key of `users`: schema DDL only.
