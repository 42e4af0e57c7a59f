# PDF field extraction service: core logic in Dafny

The system lets an administrator define jobs. A job has a prompt, a schema of
fields to extract and a list of assigned email addresses. Members upload PDFs
to a job. A background task extracts the fields with a language model and
pushes its progress to the browser over a websocket.

This project models the logic at the centre of that system and proves its properties:

- **Websocket client** (`TaskSocket`): the browser hook that follows one task over a websocket.
  - The socket URL is built from two build-time variables.
  - The hook is a state machine over the events connect, open, message, error, close, reconnect timer and effect cleanup.
  - Its observable fields are status, message, result and error. It also holds a reconnect counter with exponential backoff, and the pending timers.
  - The state machine is written as pure step functions on `Machine` and traces of events.
  - A class `TaskWebSocket` holds the same state in fields. Each of its methods is proved to perform the matching step.
- **URL helpers** (`Paths`): the client's relative URL builders for API paths and websocket endpoints.
- **Server registry** (`ConnectionManager`): a class holding the dictionary from task id to socket.
  - It supports connect and disconnect.
  - Its status push builds a payload and drops the socket when the send fails.
- **Data layer** (`Crud`), over an in-memory table of job rows:
  - email normalisation, and de-duplication of a job's assigned emails;
  - membership tests, the assigned-jobs query and the first-job query;
  - the field merge of the job update.
- **Extraction pipeline** (`Extraction`):
  - parsing the model's answer, with a line-by-line fallback when the answer is not JSON;
  - checking the extracted values against the job's schema.

Supporting modules:

- `Wrappers`: `Option` and `Result`.
- `Json`: JSON values, with JavaScript and Python truthiness.
- `Text`: the ASCII string operations Python's and JavaScript's string types are used for here (`strip`, `strip(chars)`, `lower`, `in`, `split`).

Three behaviours of the hook are modelled exactly as the code has them:

- The hook never cancels a reconnect timer (`frontend/app/api/websocket.ts:75-78` and `89-92`). So the model keeps every scheduled reconnect in a sequence `timers`, rather than one optional pending delay. `TimerOutlivesTaskSwitch` shows that a timer for the old task fires after a task switch and opens a socket for the old task.
- The counter goes up when a timer fires, not when it is scheduled (`frontend/app/api/websocket.ts:76`). With several timers pending, the counter reaches six (`TimerOutlivesTaskSwitch`).
- A clean close with budget left is not final: it falls through to the `failed` branch unless the captured status is terminal. That status is the one captured when `connect` was memoised, not the live one (`StaleSnapshotOverwritesFinished`).

Four things the system does through its runtime become parameters of the model:

- what `localStorage` holds;
- what `json.loads` / `JSON.parse` decoded;
- whether a `send` threw;
- which status value the `onclose` closure captured.

## Model

| member | source | states |
|---|---|---|
| Paths.GetApiUrl | frontend/lib/utils.ts:1-4 | the URL is `/api/` followed by the path, with at most one leading slash removed |
| Paths.GetWsUrl | frontend/lib/utils.ts:6-9 | the URL is `/ws/` followed by the endpoint, with at most one leading slash removed |
| Paths.ApiUrlIgnoresOneSlash | frontend/lib/utils.ts:1-4 | `p` and `/p` give the same API URL, `/api/p` |
| Paths.WsUrlIgnoresOneSlash | frontend/lib/utils.ts:6-9 | `p` and `/p` give the same websocket URL, `/ws/p` |
| Paths.ApiUrlKeepsSecondSlash | frontend/lib/utils.ts:2 | only the first of two leading slashes is removed |
| Paths.WsUrlKeepsSecondSlash | frontend/lib/utils.ts:7 | only the first of two leading slashes is removed |
| Json.TruthinessDiffersOnlyOnEmptyContainers | backend/app/core/websocket_manager.py:19-22 | JavaScript and Python truthiness disagree exactly on `[]` and `{}` |
| TaskSocket.BuildWsUrl | frontend/app/api/websocket.ts:8-15 | the URL ends in `/ws/` followed by the task id |
| TaskSocket.DefaultSocketUrl | frontend/app/api/websocket.ts:12 | with neither variable set, the URL is `ws://localhost:8000/ws/<id>` |
| TaskSocket.SecureApiBaseGivesSecureSocket | frontend/app/api/websocket.ts:10-11 | an API base `https...` (scheme in any letter case) gives a `wss...` socket URL |
| TaskSocket.HttpApiBaseGivesWsSocket | frontend/app/api/websocket.ts:10-11 | an API base starting with `http` in any letter case (so a plain `http://` base too) has those four letters replaced by `ws` |
| TaskSocket.HttpApiBaseLosesOneSlash | frontend/app/api/websocket.ts:10-13 | an API base with one trailing slash gives the socket URL of the base without it |
| TaskSocket.OtherApiBaseIsKept | frontend/app/api/websocket.ts:10-13 | an API base that does not start with `http` is used as it is, apart from one trailing slash (`/api/` gives `/api/ws/<id>`) |
| TaskSocket.EmptyApiUrlIsUnset | frontend/app/api/websocket.ts:10-12 | an empty `NEXT_PUBLIC_API_URL` is treated as unset |
| TaskSocket.WsBaseWithoutSlashIsKept | frontend/app/api/websocket.ts:9-14 | an explicit websocket base without a trailing slash is used as it is |
| TaskSocket.EmptyWsUrlIsUnset | frontend/app/api/websocket.ts:9-11 | an empty `NEXT_PUBLIC_WS_URL` is treated as unset |
| TaskSocket.WsBaseLosesOneSlash | frontend/app/api/websocket.ts:9-13 | an explicit websocket base wins over the API base, and exactly one trailing slash is removed from it |
| TaskSocket.Merge | frontend/app/api/websocket.ts:54-64 | each field changes only to a truthy value the frame carries, and every truthy value the frame carries is taken; a frame that did not parse changes nothing |
| TaskSocket.MergeAllKeepsOmitted | frontend/app/api/websocket.ts:57-60 | a field that no frame carries keeps its value over any sequence of frames |
| TaskSocket.MergeAllLastWins | frontend/app/api/websocket.ts:57-60 | the last frame carrying a field decides that field |
| TaskSocket.MergeAllNeverClears | frontend/app/api/websocket.ts:58-60 | a non-empty message, a truthy result or a set error is never cleared by later frames |
| TaskSocket.ProgressThenResult | frontend/app/api/websocket.ts:54-64 | a progress frame and then a result frame give status running, the progress message and the result |
| TaskSocket.BackoffDoubles | frontend/app/api/websocket.ts:73 | each further attempt waits twice as long |
| TaskSocket.BackoffsAt | frontend/app/api/websocket.ts:73 | the k-th delay of a run of backoffs is `2000 * 2^(from + k)` |
| TaskSocket.BackoffSchedule | frontend/app/api/websocket.ts:26-28 | the five allowed delays are 2, 4, 8, 16 and 32 seconds |
| TaskSocket.ConnectStep | frontend/app/api/websocket.ts:30-42 | no token: only the error becomes "Authentication required"; a token but no task id: nothing changes; otherwise a new socket for the task's URL becomes current; counter, timers, status, message and result are untouched |
| TaskSocket.MountStep | frontend/app/api/websocket.ts:86-88 | without a task id nothing happens, otherwise `connect` runs |
| TaskSocket.OpenStep | frontend/app/api/websocket.ts:44-52 | the counter goes to 0 and one auth frame with the socket's token is sent if the send does not throw; nothing else changes |
| TaskSocket.MessageStep | frontend/app/api/websocket.ts:54-64 | only the view changes, by `Merge` |
| TaskSocket.ErrorStep | frontend/app/api/websocket.ts:66-68 | the error becomes "WebSocket error"; status and everything else are unchanged |
| TaskSocket.CloseStep | frontend/app/api/websocket.ts:70-83 | the current socket is forgotten; under budget and unclean, one timer with the backoff delay is added and the view is kept; otherwise no timer is added, and unless the captured status is terminal, the status is forced to failed with "Connection lost" |
| TaskSocket.FireStep | frontend/app/api/websocket.ts:75-78 | the timer is removed, the counter goes up by one, and then `connect` runs for the task the timer captured: with a token, a socket for that task's URL becomes current; without one, only the error becomes "Authentication required"; status, message and result are kept |
| TaskSocket.TeardownStep | frontend/app/api/websocket.ts:89-92 | the current socket is asked to close and forgotten; pending timers stay |
| TaskSocket.TeardownIdempotent | frontend/app/api/websocket.ts:89-92 | running the cleanup twice is the same as running it once |
| TaskSocket.CloseKeepsCurrentTerminal | frontend/app/api/websocket.ts:79 | a close that compares against a terminal live status leaves it unchanged |
| TaskSocket.StaleSnapshotOverwritesFinished | frontend/app/api/websocket.ts:79-84 | a clean close compared against the status captured at memoisation (waiting) turns a finished task into failed with "Connection lost" |
| TaskSocket.OnlyFramesWriteMessageAndResult | frontend/app/api/websocket.ts:58-59 | over any trace, message and result change only through a frame carrying them |
| TaskSocket.RunNeverClears | frontend/app/api/websocket.ts:54-92 | over any trace, reconnects included, a non-empty message and a truthy result stay so |
| TaskSocket.StepWithinBudget | frontend/app/api/websocket.ts:72-78 | a step that is not a close while a reconnect is pending keeps attempts plus pending timers at most five |
| TaskSocket.RunWithinBudget | frontend/app/api/websocket.ts:72-78 | in a trace whose closes all happen while no reconnect is pending, the counter never exceeds five |
| TaskSocket.OneCycle | frontend/app/api/websocket.ts:70-78 | an unclean close under budget followed by its timer adds one attempt, leaves no timer and the status, and schedules exactly the current backoff delay |
| TaskSocket.RetryCyclesRun | frontend/app/api/websocket.ts:70-78 | n unclean-close/timer rounds within budget raise the counter by n, leave no timer and keep the status |
| TaskSocket.RetryCyclesSchedule | frontend/app/api/websocket.ts:72-78 | those n rounds schedule the delays `2000 * 2^(a + k)` for k in 0..n-1, in order |
| TaskSocket.BudgetExhaustion | frontend/app/api/websocket.ts:70-83 | from zero attempts, five rounds wait 2, 4, 8, 16 and 32 seconds; the sixth close forces failed with "Connection lost", schedules nothing and leaves no socket |
| TaskSocket.SwitchAwayKeepsBothTimers | frontend/app/api/websocket.ts:70-92 | a drop, a cleanup, a switch to another task and a second drop leave both reconnect timers pending |
| TaskSocket.TimerOutlivesTaskSwitch | frontend/app/api/websocket.ts:75-92 | after the switch, the old task's timer opens a socket for the old task again, and the second timer pushes the counter to six |
| TaskSocket.TaskWebSocket.View | frontend/app/api/websocket.ts:95 | the returned fields are the view of the state |
| TaskSocket.TaskWebSocket.constructor | frontend/app/api/websocket.ts:19-28 | the initial state: waiting, empty message, null result and error, counter 0, no socket |
| TaskSocket.TaskWebSocket.Connect | frontend/app/api/websocket.ts:30-42 | the new state is `ConnectStep` of the old one |
| TaskSocket.TaskWebSocket.Mount | frontend/app/api/websocket.ts:86-88 | the new state is `MountStep` of the old one |
| TaskSocket.TaskWebSocket.OnOpen | frontend/app/api/websocket.ts:44-52 | the new state is `OpenStep` of the old one |
| TaskSocket.TaskWebSocket.OnMessage | frontend/app/api/websocket.ts:54-64 | the new state is `MessageStep` of the old one |
| TaskSocket.TaskWebSocket.OnError | frontend/app/api/websocket.ts:66-68 | the new state is `ErrorStep` of the old one |
| TaskSocket.TaskWebSocket.OnClose | frontend/app/api/websocket.ts:70-83 | the new state is `CloseStep` of the old one |
| TaskSocket.TaskWebSocket.TimerFires | frontend/app/api/websocket.ts:75-78 | the new state is `FireStep` of the old one |
| TaskSocket.TaskWebSocket.Teardown | frontend/app/api/websocket.ts:89-92 | the new state is `TeardownStep` of the old one |
| ConnectionManager.StatusPayload | backend/app/core/websocket_manager.py:18-22 | `status` is always present; `message` and `result` are present exactly when truthy, with their values; there are no other keys |
| ConnectionManager.PayloadSize | backend/app/core/websocket_manager.py:18-22 | the payload has one key plus one per truthy optional argument |
| ConnectionManager.ConnectionManager.constructor | backend/app/core/websocket_manager.py:5-6 | the registry starts empty |
| ConnectionManager.ConnectionManager.Connect | backend/app/core/websocket_manager.py:8-10 | the socket replaces any earlier one for the task; other tasks keep theirs |
| ConnectionManager.ConnectionManager.Disconnect | backend/app/core/websocket_manager.py:12-13 | the task's entry is removed; an unknown task changes nothing |
| ConnectionManager.ConnectionManager.SendStatus | backend/app/core/websocket_manager.py:15-26 | an unknown task sends nothing and changes nothing; otherwise `StatusPayload` goes to the task's socket, and the task is disconnected exactly when the send fails |
| Crud.NormalizeEmail | backend/app/crud.py:8-12 | a non-string gives `None`; a string gives `None` exactly when it is all whitespace; any result is non-empty, unpadded and has no capitals, and is the lower-cased `strip()` of the input |
| Crud.NormalEmailFixpoint | backend/app/crud.py:8-12 | a normalised address normalises to itself |
| Crud.NormalizeEmailIdempotent | backend/app/crud.py:8-12 | normalising twice is normalising once |
| Crud.DistinctNoDuplicates | backend/app/crud.py:18-24 | the `seen` pass never keeps a value twice |
| Crud.DistinctMembers | backend/app/crud.py:20-24 | the pass keeps exactly the values that occur |
| Crud.DistinctFirstOccurrenceOrder | backend/app/crud.py:20-24 | kept values appear in the order of their first occurrence |
| Crud.DistinctOfDistinct | backend/app/crud.py:18-24 | a duplicate-free list is its own de-duplication |
| Crud.NormalizeAllOfNormal | backend/app/crud.py:8-12 | normalised entries normalise to themselves |
| Crud.NormalizedEmailsMembers | backend/app/crud.py:15-25 | an address is in the list exactly when some entry normalises to it |
| Crud.NormalizedEmailsAreNormal | backend/app/crud.py:15-25 | every listed address is normalised |
| Crud.NormalizedEmailsOfNothing | backend/app/crud.py:16-17 | `None` and `[]` give `[]` |
| Crud.NormalizedEmailsIdempotent | backend/app/crud.py:15-25 | normalising an already normalised list gives it back |
| Crud.NormalizedEmailsOrder | backend/app/crud.py:20-24 | listed addresses keep the order of their first normalised occurrence |
| Crud.NormalizeEmailList | backend/app/crud.py:15-25 | returns `NormalizedEmails(emails)`; the result is duplicate-free and every element is normalised |
| Crud.NormalizeEntries | backend/app/crud.py:18-25 | the loop with its `seen` set computes the de-duplication of the normalised entries |
| Crud.JobHasEmail | backend/app/crud.py:28-32 | a job holding an email has a non-blank email and a non-empty assigned list |
| Crud.JobHasEmailIff | backend/app/crud.py:28-32 | a job has an email exactly when the email is not blank and some assigned entry normalises to the same address |
| Crud.JobHasNormalizedEmail | backend/app/crud.py:103 | testing with the already normalised email gives the same answer as the raw one |
| Crud.FilterSubsequence | backend/app/crud.py:103 | the comprehension keeps, in order, exactly the elements that pass, each as many times as it occurs |
| Crud.JobsAssignedToEmail | backend/app/crud.py:98-103 | never more jobs than rows; a blank email gives `[]` |
| Crud.FilterEmptyIff | backend/app/crud.py:108 | the comprehension is empty exactly when no element passes |
| Crud.FilterFirst | backend/app/crud.py:108 | the comprehension's first element is the earliest element that passes |
| Crud.JobsAssignedToEmailExactly | backend/app/crud.py:98-103 | a blank email gives `[]`; otherwise the result is the table's jobs holding the email, in table order, each as many times as it occurs in the table |
| Crud.FirstJobForEmail | backend/app/crud.py:106-108 | a job found is a row of the table that holds the email |
| Crud.FirstJobForEmailIsEarliest | backend/app/crud.py:106-108 | `None` exactly when no job holds the email; otherwise the earliest job holding it |
| Crud.SetAttr | backend/app/crud.py:79-80 | the named field takes the update's value; every other field and the id are kept |
| Crud.ApplyUpdates | backend/app/crud.py:79-80 | the id survives any sequence of updates |
| Crud.ApplyUpdatesUntouched | backend/app/crud.py:79-80 | a field no update names keeps its value, and the id is kept |
| Crud.ApplyUpdatesLastWins | backend/app/crud.py:79-80 | the last update naming a field decides its value |
| Crud.StoredEmailsAreNormal | backend/app/crud.py:76-80 | after an update with `assigned_emails`, the stored list is the normalised, duplicate-free list of the last such entry |
| Crud.FindJob | backend/app/crud.py:70-71 | the first row with the id, or none when no row has it |
| Crud.NormalizeUpdateData | backend/app/crud.py:76-78 | every `assigned_emails` entry of the update is replaced by its normalised list; the other entries are kept, in order |
| Crud.JobTable.UpdateJob | backend/app/crud.py:73-83 | unknown id: `None` and the table is unchanged; otherwise only the found row changes, to the normalised updates applied in order, and it is returned |
| Text.Lower | backend/app/crud.py:11 | lower-casing keeps the length |
| Text.Strip | backend/app/crud.py:11 | the result neither starts nor ends with whitespace |
| Text.Trim | backend/app/tasks.py:176 | the result is no longer than the text and neither starts nor ends with a trimmed character |
| Text.LowerAt | backend/app/crud.py:11 | `lower` works character by character and leaves no capital |
| Text.LowerFixpoint | backend/app/crud.py:11 | a string without capitals is its own lower-case form |
| Text.TrimKeepsInner | backend/app/tasks.py:176 | trimming keeps the piece of the text at some offset with only trimmed characters before and after it, and so every character outside the trimmed set |
| Text.TrimCharacterised | backend/app/tasks.py:176 | any piece with only trimmed characters around it and a kept character at each end (or an empty piece of an all-trimmed text) is exactly the trimmed text |
| Text.TrimIdempotent | backend/app/tasks.py:176 | trimming twice is trimming once |
| Text.StripEmptyIff | backend/app/crud.py:11-12 | `strip()` is empty exactly when the text is all whitespace |
| Text.ContainsIff | backend/app/tasks.py:175 | substring `in` holds exactly when the needle occurs at some offset |
| Text.SplitJoin | backend/app/tasks.py:172 | joining the parts of a split gives the text back |
| Text.AfterFirst | backend/app/tasks.py:176 | the text after the first colon, none of which is before it |
| Extraction.KeepColonLines | backend/app/tasks.py:172 | every kept line contains a colon |
| Extraction.KeepColonLinesExactly | backend/app/tasks.py:172 | a raw line appended at the end is kept, stripped, at the end exactly when it contains a colon |
| Extraction.LineEntries | backend/app/tasks.py:174-177 | a line writes exactly the fields it matches, case-insensitively, each with the line's unquoted value |
| Extraction.OverlayKeys | backend/app/tasks.py:173-177 | a key is present after the writes exactly when some write sets it |
| Extraction.OverlayLastWins | backend/app/tasks.py:173-177 | a present key holds the value of the last write that sets it |
| Extraction.Fallback | backend/app/tasks.py:171-178 | with at least one field in the schema, the fallback is never empty |
| Extraction.FallbackFromKeys | backend/app/tasks.py:172-177 | the fallback writes exactly the fields that some candidate line matches |
| Extraction.FallbackFromLastWins | backend/app/tasks.py:173-177 | a written field holds the value of the last candidate line that matches it |
| Extraction.FallbackKeysAreFields | backend/app/tasks.py:171-178 | the fallback has no keys other than the schema's fields |
| Extraction.FallbackNothingFound | backend/app/tasks.py:178 | when nothing matches, every field maps to "N/A" |
| Extraction.FallbackSomethingFound | backend/app/tasks.py:178 | when some field matches, the result is exactly what the lines wrote |
| Extraction.ParseGeminiResponse | backend/app/tasks.py:162-178 | a decoded object is returned unchanged; a decoded non-object fails with "Response is not a JSON object"; undecodable text gives the fallback; any other exception from `json.loads` escapes as a failure |
| Extraction.WriteLine | backend/app/tasks.py:174-177 | the inner loop adds the line's entries to the result, overwriting |
| Extraction.Errors | backend/app/tasks.py:181-202 | only schema fields get messages, and a field gets one exactly when `FieldError` gives one, with that message |
| Extraction.ValidateFields | backend/app/tasks.py:181-202 | fails exactly when some schema entry is not a dictionary; otherwise returns `Errors` |
| Extraction.FieldErrorMessages | backend/app/tasks.py:184-200 | a field gets one of the three messages, and a type message only for a truthy value |
| Extraction.IntParses | backend/app/tasks.py:190-194 | only booleans, numbers and strings survive `int()`; other values raise |
| Extraction.DateMatches | backend/app/tasks.py:196-200 | a value that matches the date pattern is truthy and not blank |
| Extraction.OptionalFalsyHasNoError | backend/app/tasks.py:187-200 | a field that is not required and has a falsy value gets no message |
| Extraction.RequiredBlankIsMissing | backend/app/tasks.py:187-200 | a required blank field reports "Missing or empty value" exactly when neither type check fails after it |
| Extraction.BlankStringFailsIntCheck | backend/app/tasks.py:187-194 | a required `int` field holding `" "` reports "Must be a valid integer", not the missing value |
| Extraction.IntegerErrorIff | backend/app/tasks.py:190-194 | the integer message is reported exactly when a truthy value of `int` type fails `int()` |
| Extraction.DateErrorIff | backend/app/tasks.py:196-200 | the date message is reported exactly when a truthy value of `date` type does not start with `dddd-dd-dd` |
| Extraction.IntLiteralExamples | backend/app/tasks.py:192 | `int()` accepts a sign and single underscores between digits |
| Extraction.IntLiteralCounterexamples | backend/app/tasks.py:192 | `int()` rejects doubled, leading or trailing underscores, a lone sign and a decimal point |
| Extraction.DigitLimit | backend/app/tasks.py:192 | `int()` of a string of n ones succeeds exactly when n is at most 4300, CPython's default digit limit |

## Left out

- TaskSocket.RunWithinBudget: the bound of five attempts is proved only for traces in which every close happens while no reconnect is pending. The code has no such bound in general, as `TimerOutlivesTaskSwitch` shows.
- TaskSocket.ConnectStep: `new WebSocket(url)` throws for a URL the browser refuses (a scheme other than ws, wss, http or https, a fragment, or a relative URL where it is not accepted), and `localStorage.getItem` can throw as well. Neither exception is modelled. The contract assumes that reading the token succeeds and that the browser accepts every URL `BuildWsUrl` builds.
- TaskSocket.FireStep: for the same reason, the case where the timer's `connect` throws after the counter went up is not modelled: in it no socket, no error text and no further retry would follow.
- TaskSocket.TaskWebSocket.Connect: inherits the two exceptions `ConnectStep` leaves out.
- Database access: sessions, queries, `commit` and `refresh` are not modelled. The table is an in-memory sequence of rows in query order, and `get_job` is the first row with the id.
- The other CRUD operations (users, PDFs, results, logs) are outside this model.
- Timestamps of `Job` (`created_at`, `updated_at`) are not modelled.
- `status` is a nullable column, so `Job.status` and `SetStatus` carry an `Option`, and an explicit `None` is stored. `update_job` with an explicit `None` for a non-nullable column fails in the database at commit. That failure is not modelled: the update is a sequence of typed field updates.
- Dictionary insertion order is not modelled. Python dictionaries become Dafny maps. So the key order of a payload, of the fallback result and of the errors dictionary is not captured. The schema loop is modelled by picking keys in an arbitrary order, which gives the same result.
- `json.loads`, `JSON.parse` and the model call: their outcome is a parameter (`Decoded`, `Option<Frame>`).
- `ValidateFields`: a schema entry that is not a dictionary raises `AttributeError` at `spec.get`. This is modelled as a `Failure` with a fixed text, not with Python's exact message.
- The digit limit of `int()` is CPython's default of 4300. A limit changed with `PYTHONINTMAXSTRDIGITS` or `sys.set_int_max_str_digits` is not modelled. Nor is `str()` of a number over the limit, which raises: `json.loads` cannot produce such a number, because it raises first (`Decoded.Raised`).
- Frame values are typed: a frame's `status` is one of the four statuses the backend task sends, and its `message` and `error` are strings. A frame carrying another status string, or a non-string message or error, is not modelled.
- `Unmount` stands for the cleanup of an effect run that had a task id. A run without a task id registers no cleanup, and a trace should not put an `Unmount` after it; the model does not enforce this.
- Floating-point JSON numbers are not modelled. Numbers are integers, so `int(1.5)` and the printing of floats are not captured.
- Strings are ASCII in the whole model:
  - `strip` and `lower`, and `\d` in the date check, cover ASCII only;
  - `int()` accepts ASCII digits only;
  - Unicode whitespace, case mapping and digits are not captured.
- Logging (`console.log`, `console.warn`) is not modelled.
- `typeof window` is not modelled. The token is a parameter of `connect`.
- The browser's socket objects are not modelled: their network activity, and when their handlers actually run.
  - Each handler is an event.
  - A socket is a `Handle` with a serial number, its task, URL and token.
  - The close requested by the cleanup is recorded in `closeRequests`, and its later `onclose` is a separate event.
- React rendering is not modelled, nor when the memoised callback is recreated. The status the `onclose` closure compares against is a parameter of `CloseStep`.
- The `ConnectionManager` class:
  - `websocket.accept()` is not modelled;
  - whether `send_json` succeeds is a parameter;
  - `async` scheduling and interleaving of concurrent calls are not modelled.
- Neither the rest of the backend (security, routes, the PDF/OCR extraction, the Celery task loop) nor the frontend's pages are part of this model.
