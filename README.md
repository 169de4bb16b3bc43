# ChatBot-v3 session and request-validation model

A Dafny model of the two parts of the ChatBot-v3 repository that carry
state and rules:

- **The browser client** (`frontend/js/main.js`), module `Client`. Its
  state is the class `Client.Session`. The class holds the connection flag
  `isConnected` and the ordered document list `documents`. It holds
  `mirror`, the `uploadedDocuments` entry of local storage (absent until
  the first save). It also holds the chat log `messages` and the upload
  status line. The handlers `checkServerConnection`,
  the reconnect button, `sendMessage`, `sendMessageToServer`,
  `uploadDocument`, the file input loop and `removeDocument` are methods
  of the class. Each fetch is an input of type `Outcome`: a response with
  its status and a parsed or unparseable JSON body, or a rejected promise
  with its message. Every log entry has an `id` that stands for the
  identity of its DOM element. The class invariant `Valid()` says that
  ids increase along the log and are below `nextId`. It also says that
  local storage holds exactly the list, or nothing while the list is the
  initial empty one.
- **The FastAPI backend** (`app/main.py`), module `Server`. `delete_file`
  is a pure guard chain, `DeleteGuard`. The guard chain is followed by the
  method `DeleteFile` on a `FileSystem` object. That object maps resolved
  paths to regular files or directories. `upload_file` is the pure
  function `UploadFile`, which builds the stored name and path.
- Helpers: module `Paths` holds component paths, `split('/')`, and the
  lexical part of `Path.resolve()`. Module `Text` holds decimal rendering
  and JavaScript's `String.prototype.trim`. Module `Wrappers` holds `Option`.

`removeDocument` is split in two. `BeginRemoval` reads the record and shows
the placeholder. `CompleteRemoval` runs when the response arrives: it
splices whatever then sits at the captured index. It rewrites the
placeholder by identity. `RemoveDocument` runs both with nothing in
between. `StaleIndexRemovesNeighbour` shows what happens when another
removal completes in between: the wrong record goes.

In these places the code behaves in ways a reader might not expect; the model follows the code:

- A failed health probe does not clear `isConnected`
  (`CheckServerConnection` keeps `old(isConnected)`).
- `removeDocument` has no connection guard (`RemoveDocument` has none).
- The echoed user text is the trimmed input (`SendMessage`).
- An empty-string `response` falls back to the "no valid reply" text
  (`ReplyText`).
- A delete answer whose body is not JSON fails, even with an ok status,
  because the body is parsed before `response.ok` is looked at.

## Model

| member | source | states |
|---|---|---|
| `Text.NatToString` | frontend/js/main.js:141 | a status code is rendered as a non-empty string of decimal digits, one digit exactly for 0..9 |
| `Text.NatToStringDenotes` | frontend/js/main.js:141 | the rendering reads back in decimal as the number itself and has no leading zero |
| `Text.PadDigits` | app/main.py:57 | a zero-padded strftime field has exactly the requested width and only digits |
| `Text.PadDigitsDenotes` | app/main.py:57 | the padded field reads back in decimal as the number modulo 10^width, its last width digits |
| `Text.PadDigitsExact` | app/main.py:57 | a number with at most width digits reads back from its padded field unchanged |
| `Text.IsJsWhitespace` | frontend/js/main.js:432 | the characters `trim()` removes: the ECMAScript WhiteSpace and LineTerminator characters |
| `Text.TrimStart` | frontend/js/main.js:432 | the result is a suffix of the input, everything dropped is JavaScript whitespace, and it does not start with whitespace |
| `Text.TrimEnd` | frontend/js/main.js:432 | the result is a prefix of the input, everything dropped is whitespace, and it does not end with whitespace |
| `Text.Trim` | frontend/js/main.js:432 | `trim()` is no longer than its input and neither starts nor ends with whitespace |
| `Text.TrimIsSlice` | frontend/js/main.js:432 | `trim()` returns the slice of the input that starts after its leading whitespace, and both cut-off ends are all whitespace |
| `Text.TrimEmptyIff` | frontend/js/main.js:432-434 | the trimmed input is empty exactly when the input is all whitespace (the case in which `sendMessage` does nothing) |
| `Text.TrimKeepsTrimmed` | frontend/js/main.js:432 | text that neither starts nor ends with whitespace is returned unchanged |
| `Text.TrimIdempotent` | frontend/js/main.js:432 | trimming the trimmed text changes nothing |
| `Paths.Split` | app/main.py:115 | `split('/')` gives at least one piece and no piece contains a slash |
| `Paths.SplitWithoutSlash` | app/main.py:115 | a string without slashes splits into itself |
| `Paths.SplitAtSlash` | app/main.py:115 | a slash-free head before the first slash comes off as one whole piece |
| `Paths.Walk` | app/main.py:115-116 | applying path segments to a normal base yields a normal path (no empty, `.` or `..` components) |
| `Paths.Resolve` | app/main.py:115-116 | the resolved path is normal whenever the working directory is |
| `Paths.WalkNames` | app/main.py:115-116 | plain names appended below a base resolve to base followed by those names |
| `Paths.Parents` | app/main.py:119 | `p.parents` holds only strict prefixes of p, never p itself, and holds the root whenever p is not the root |
| `Paths.Contained` | app/main.py:119 | the containment test of delete_file (ancestor or equal) holds only for a directory no longer than the path |
| `Paths.ContainedIffPrefix` | app/main.py:119 | `dir in p.parents` means strict prefix, and "in parents or equal" means prefix |
| `Paths.Join` | app/main.py:60 | `os.path.join(a, b)` is `a + "/" + b` for a relative b under a non-empty a without trailing slash, and b for an absolute b |
| `Server.UploadDirIsBelowCwd` | app/main.py:116 | the resolved upload directory is the working directory followed by `uploaded_documents` |
| `Server.DeleteGuard` | app/main.py:110-130 | the guard chain refuses only with 400, 403 or 404, refuses an empty path with 400 first, and lets through only the resolved path when it is contained, present and a regular file |
| `Server.DeleteGuardCases` | app/main.py:110-130 | the guard chain answers 400 "Se requiere la ruta del archivo" exactly for an empty path, 403 exactly for a non-empty path that does not resolve inside the upload directory, 404 exactly for a contained path that does not exist, 400 "La ruta no corresponde a un archivo" exactly for a contained entry that is not a regular file (a directory, a FIFO, a socket, a device), and lets through exactly a contained regular file |
| `Server.ProceedIsStrictlyInside` | app/main.py:115-130 | whenever the upload directory, if present, is not a regular file (as `os.makedirs` at app/main.py:19 makes it a directory), a request that passes the guards targets a regular file of which the upload directory is a strict ancestor |
| `Server.TraversalIsForbidden` | app/main.py:115-121 | `uploaded_documents/../<name>` resolves beside the upload directory and is refused with 403 before existence is tested |
| `Server.FileSystem.Unlink` | app/main.py:133 | unlinking removes exactly the path, or raises and changes nothing, or returns with the file still there |
| `Server.DeleteFile` | app/main.py:104-146 | a refused guard gives its status and detail and changes nothing; success happens exactly when every guard passes and unlink removes the file, and then exactly that path leaves the file system; an unlink that raises gives 500 with its message, a file still present gives 500 "El archivo no se pudo eliminar"; the status is one of 400, 403, 404, 500 |
| `Server.Timestamp` | app/main.py:57 | `%Y%m%d_%H%M%S` gives fifteen characters: digits, with an underscore at position 8, each field in its place as a zero-padded decimal |
| `Server.TimestampDenotesFields` | app/main.py:57 | each of the six fields of the timestamp reads back in decimal as its year, month, day, hour, minute or second |
| `Server.ReplaceSpaces` | app/main.py:58 | `replace(' ', '_')` keeps the length and every character except spaces, which become underscores, in place |
| `Server.SafeFilename` | app/main.py:58 | the stored name is the timestamp, an underscore, then the name with spaces replaced; it contains no space |
| `Server.StoredPath` | app/main.py:60 | the returned path is `uploaded_documents/` followed by the stored name |
| `Server.UploadFile` | app/main.py:53-70 | the upload succeeds exactly when writing succeeds, then it returns the client's file name and the stored path; otherwise 500 with "Error al subir el archivo: " and the error |
| `Server.SafeFilenameIsName` | app/main.py:58 | a stored name built from a name without slashes is one plain path component |
| `Server.ResolveStored` | app/main.py:60 | a plain name under `uploaded_documents/` resolves directly below the upload directory |
| `Server.UploadedPathIsDeletable` | app/main.py:57-67 | the path an upload returns resolves directly below the upload directory, so deleting it passes every guard while the file exists |
| `Client.ThrownReason` | frontend/js/main.js:211-230 | a failed chat or upload call shows the transport's message, or "Error del servidor: " followed by digits that denote the status, or the JSON parse error |
| `Client.RemovalReason` | frontend/js/main.js:385-391 | a failed delete shows the transport's message, the JSON parse error, the server's truthy `detail`, or "Error <status> al eliminar el archivo" for a non-ok status |
| `Client.ProbeErrorText` | frontend/js/main.js:139-147 | a probe with a non-ok status shows the status prefix followed by digits that denote the status; any other failure shows the unreachable text |
| `Client.ProbeLog` | frontend/js/main.js:111-147 | a successful probe leaves one bot entry with the connected greeting; a failed one leaves the verifying entry and an error-origin entry with the probe's error text; the last entry's id is the one after the verifying entry's |
| `Client.ChatNote` | frontend/js/main.js:187-228 | a chat call adds one bot or error entry, never a user entry; it is a bot reply, with the reply text, exactly when connected and the call succeeded; when disconnected its text is "No hay conexión con el servidor"; a failed call's text is "Error al conectar con el servidor: " followed by the thrown reason |
| `Client.ReplyText` | frontend/js/main.js:221-225 | the bot reply is `data.response` when it is a non-empty string, otherwise the fixed "no valid reply" text; it is never empty |
| `Client.NewRecords` | frontend/js/main.js:264-268 | one upload appends a record exactly when it succeeded, and that record is {file name, returned `file_path`, upload time} |
| `Client.UploadLog` | frontend/js/main.js:238-291 | an upload adds one entry exactly when disconnected or successful, with the next id: disconnected it is exactly the "No hay conexión con el servidor" error, successful it is the user-side "He subido el documento: " followed by the file name |
| `Client.FinishedStatus` | frontend/js/main.js:280-293 | a finished upload leaves the "done" status exactly when it succeeded and the error status otherwise |
| `Client.Uploaded` | frontend/js/main.js:79-81 | a run of uploads appends at most one record per file |
| `Client.AfterUpload` | frontend/js/main.js:238-301 | one upload advances the id by at most one and adds at most one record; while disconnected the list, its saved copy and the status line stay |
| `Client.AfterUploads` | frontend/js/main.js:79-81 | a run of uploads never moves the id back and adds at most one record per file; while disconnected the list, its saved copy and the status line stay |
| `Client.UploadedAllSucceeded` | frontend/js/main.js:79-81 | when every selected file uploads, the list grows by one record per file, in selection order, with the file's name and the returned path |
| `Client.UploadedNoneSucceeded` | frontend/js/main.js:79-81 | when every upload fails, the list does not grow |
| `Client.AfterUploadsEffect` | frontend/js/main.js:79-81 | a run of uploads started connected appends the successful uploads' records in order, saves the list once one of them succeeded and leaves the last upload's status line; started disconnected, only the log changes; either way the log gains each upload's entries in order |
| `Client.AfterUploadsRecords` | frontend/js/main.js:79-81 | connected uploads append the successful records in order, save the list once one succeeded, and leave the last upload's status line |
| `Client.AfterUploadsLog` | frontend/js/main.js:79-81 | uploads add their log entries in order, numbered on from the current id |
| `Client.ServerPaths` | frontend/js/main.js:199 | the chat request's `documents` has one entry per record, each the record's server path, in list order |
| `Client.Splice` | frontend/js/main.js:395 | `splice(i, 1)` in range shortens by one, keeps the elements before i and shifts those after it; out of range it changes nothing |
| `Client.SpliceRemovesOne` | frontend/js/main.js:395 | an in-range splice removes exactly one occurrence of the element at i |
| `Client.ServerPathsSplice` | frontend/js/main.js:199 | after a removal the next chat request lists the old paths with that one removed |
| `Client.StaleIndexRemovesNeighbour` | frontend/js/main.js:355-395 | if a removal at j completes while one started at i > j is pending, the later one removes the record after its target and its target stays |
| `Client.WithoutErrors` | frontend/js/main.js:65-67 | clearing errors keeps exactly the non-error entries |
| `Client.WithoutErrorsKeepsOrder` | frontend/js/main.js:65-67 | clearing errors keeps entry ids increasing and below the bound |
| `Client.Rewrite` | frontend/js/main.js:407-420 | rewriting a placeholder gives the entry with that identity the new text, and the error style when asked, and changes no other entry, position or id |
| `Client.RemovalText` | frontend/js/main.js:407-418 | the placeholder's final text starts "He eliminado el documento: " exactly when the delete succeeded and names the document after its prefix in both cases; a failure's text then ends with ": " and the removal reason |
| `Client.Reload` | frontend/js/main.js:31-35 | a page loaded from the session's local storage has the same list and saved copy, disconnected with an empty log: the state after the storage read, before the start-up probe of frontend/js/main.js:88 |
| `Client.Session.Load` | frontend/js/main.js:31-35 | at page start the list is the saved one, or empty when nothing is saved, and the session is disconnected with an empty log: the state after the storage read, before the start-up probe of frontend/js/main.js:88 |
| `Client.Session.Append` | frontend/js/main.js:167-184 | adding a message appends exactly one entry with a fresh id |
| `Client.Session.CheckServerConnection` | frontend/js/main.js:111-149 | a successful probe connects and leaves only the greeting; a failed one adds the "verifying" entry and an error (status code, or unreachable) and keeps the flag; the list, storage and status line do not change |
| `Client.Session.ClearErrorMessages` | frontend/js/main.js:65-67 | the log afterwards is the old log without its error entries |
| `Client.Session.Reconnect` | frontend/js/main.js:64-69 | errors are cleared, then the probe runs as above; the id advances by two |
| `Client.Session.SendMessageToServer` | frontend/js/main.js:187-235 | when disconnected there is no request and one "No hay conexión con el servidor" error; otherwise the request is the message with the list's server paths at call time; the one added entry is `ChatNote` of the call, so a success adds the reply, a failure adds "Error al conectar con el servidor: " with the thrown reason and disconnects; the list and storage do not change |
| `Client.Session.SendMessage` | frontend/js/main.js:431-439 | input that trims to nothing (by `Text.TrimEmptyIff`, exactly all-whitespace input) changes nothing and sends nothing; otherwise the trimmed text is echoed as a user entry and that same text is sent |
| `Client.Session.SubmitMessage` | frontend/js/main.js:435-438 | the text is appended as a user entry with the next id, then sent as `sendMessageToServer` does, adding its one entry after the echo |
| `Client.Session.UploadDocument` | frontend/js/main.js:238-301 | when disconnected there is no request and exactly the one "No hay conexión con el servidor" error (through `UploadLog`); a success appends exactly the record {file name, returned path, time} at the end and saves the list; a failure leaves list, storage and flag unchanged and sets the error status line; the new upload-affected state is `AfterUpload` of the old one |
| `Client.Session.UploadFiles` | frontend/js/main.js:76-85 | uploading the selected files in order appends the records of the successful ones, in order, keeps storage equal to the list after any success, leaves the last file's status, and adds each upload's log entries in order, advancing the id by their number |
| `Client.Session.BeginRemoval` | frontend/js/main.js:355-367 | an index outside the list does nothing; otherwise the targeted record is captured and an "Eliminando documento: ..." placeholder is appended |
| `Client.Session.CompleteRemoval` | frontend/js/main.js:369-426 | a success splices whatever is at the captured index now and saves the list, and the placeholder's text becomes `RemovalText` of the outcome, "He eliminado el documento: " and the name; a failure keeps list and storage and turns the placeholder into an error reading "Error al eliminar el documento ", the name, ": " and the server's `detail` or "Error <status> al eliminar el archivo" (`RemovalReason`) |
| `Client.Session.RemoveDocument` | frontend/js/main.js:355-428 | an index outside the list changes nothing and sends nothing; otherwise the request names the record's server path, a success removes exactly that record and saves the list, a failure keeps it, and the placeholder ends as the last entry with `RemovalText` of the outcome (success or error text as in `CompleteRemoval`); the id advances by one |

`Client.ScenarioConnect`, `Client.ScenarioUpload`, `Client.ScenarioChat`,
`Client.ScenarioDeleteFails` and `Client.ScenarioChatFailure` are verified
client methods without contracts. They walk through a successful probe, an
upload of `a.pdf`, a chat turn with the reply `hi`, a delete answered with
500 and `{"detail": "locked"}`, and a chat turn lost in transport.

## Left out

- Presentation: element creation and styling, clearing the input box after a send, the typing indicator, the enabled state of the input and buttons, scrolling, document list HTML, the sidebar and the dark-mode toggle with its storage flag. The log is a list of (id, text, origin) entries.
- Clocks and timers: `getCurrentTime`, `formatDate` and message timestamps are not modelled. `uploadedAt` and `datetime.now()` are inputs. The 3 s and 5 s timers that clear the upload status line are not modelled.
- `fetch`, JSON and local storage encoding: each response is an input. A JSON `Date` turning into a string on reload is not modelled; the stored copy is the list itself.
- Concurrency: every operation completes as one step. Only a removal can be split in two, with other operations in between. In the page, the uploads of one selection all pass the connection check before any completes, and they may complete in any order. `UploadFiles` completes them in selection order.
- `Client.Session.CheckServerConnection`: it drops the last log entry on success, as `removeChild(lastChild)` does. With each operation as one step, that entry is always the "verifying" one. If other entries arrive during the probe, the page may drop a different one.
- JSON values of other types: `response` and `detail` are strings or absent. A list-valued `detail` (FastAPI's 422 body) and an upload answer without `file_path` are not modelled.
- `console.log` calls are not modelled.
- Backend endpoints `/health` (always 200) and `/chat` (agent invocation) are not modelled. CORS is not modelled. `app/bot/agente.py`, `app/config/model.py` and `app/bot/tools/pdf_tools.py` are not part of this model: they wrap LangChain, Cohere, Tavily and PDF loading.
- `Paths.Resolve`: symlinks and the special meaning of exactly two leading slashes are not modelled. Exceptions from `resolve()`, `exists()` or `is_file()` (the generic 500 path) are not modelled; only `unlink` may raise.
- Request validation by pydantic (422 for a missing `file_path`) is not modelled.
- `Server.UploadFile`: copying the contents is not modelled, and its failure is an input. A missing client file name is not modelled.
- `Server.Timestamp`: it requires a year from 1000 on. strftime's `%Y` for earlier years depends on the platform.
- `Server.UploadedPathIsDeletable`: it covers only client file names without a slash.
