# Uptime monitor API: worker, log library, file store, user handlers and router

A Dafny model of the core of a small Node.js uptime-monitoring API (`RESTful-API/lib`). It has six parts.

- **Check worker.** `workers.js` sweeps the stored checks. For each one it:
  - validates the record and fills in the defaults for `state` and `lastChecked`;
  - probes the URL with one request, which can finish through three callbacks (response, error, timeout), and processes the outcome exactly once;
  - classifies the check as `up` or `down`, logs the outcome and stores the new record;
  - texts the owner when the state changed after an earlier classification.

  It also rotates the outcome logs and sets up the two timers.
- **Log library.** `logs.js` appends to `<id>.log`, lists logs, compresses a log into `<newId>.gz.b64` without overwriting, decompresses, and truncates.
- **File store.** `data.js` handles `create` (flag `wx`), `read`, `update` (flag `r+`), `delete` and `list` over `<dir>/<file>.json`.
- **User handlers.** `handlers.js` implements post, get, put and delete on `users`, plus `ping` and `notFound`.
- **Router.** `server.js` does the routing step of `unifiedServer`. The path is stripped of its outer slashes and the method is lower-cased. The body is read chunk by chunk and parsed. The router lookup falls back to `notFound`. Status and payload get their defaults, and the response is JSON.
- **JavaScript semantics.** `js.dfy` holds the part of JavaScript the code relies on:
  - values as `JSON.parse` makes them, plus `undefined`;
  - truthiness and `typeof`;
  - `trim`, `indexOf`, `replace` with a string pattern, and ASCII case mapping;
  - decimal rendering of a natural number.

**Modelling choices.**
- **Stateful parts are classes.** These are the store (`Data.FileStore`, a map from path to file text), the log directory (`Logs.LogDir`, a map from file name to text), the worker (`Workers.Worker`, which owns the store, the logs and the list of SMS messages sent), and one probe per request (`Workers.Probe`, holding `checkOutcome` and `outcomeSent`).
- **Each method is proved against a pure function of the old state.** That function's properties are then proved as lemmas.
- **Opaque operations are function-valued parameters.** These are `JSON.parse`, `JSON.stringify`, the HMAC behind `helpers.hash`, and gzip-plus-base64 with its inverse. The codec is assumed to be invertible (`Logs.Inverse`) only where a round trip is stated.
- **Outside inputs are parameters.** `Date.now()`, directory listings, response status codes and the order of the probe's events are passed in as parameters.

**Where the code is followed rather than its comments and names.**
- **Rotation timer.** The once-a-day "log rotation" timer runs the check sweep, not rotation (`workers.js:269-273`). Logs are rotated only at start-up.
- **Trimmed fields.** Validation trims `id`, `protocol`, `url` and `method` into local variables only. The record forwarded to the probe, logged and stored is the untrimmed one. The log name and the `update` path are the stored `id`, so a padded id updates `checks/<padded id>`, not the file that was read.
- **Success codes.** These only need to be a non-empty array; their elements are not checked to be integers. `state` becomes "up" only for a non-zero listed response code.
- **Put.** It stores `firstName`/`lastName` untrimmed and hashes the untrimmed password. Post stores everything trimmed.
- **Empty files.** `read` of an empty file calls back with `(null, "")`. So post treats an empty user file as an existing user, while get, put and delete treat it as missing.

## Model

| member | source | states |
|---|---|---|
| Js.TypeOf | RESTful-API/lib/server.js:82-85 | `typeof` answers "object" exactly for null, arrays and objects, and "number" exactly for numbers |
| Js.Truthy | RESTful-API/lib/workers.js:160 | a value is truthy exactly when it is not one of undefined, null, false, 0 and the empty string |
| Js.SetProp | RESTful-API/lib/handlers.js:171-187 | assigning a property replaces that one key of an object and leaves a primitive unchanged |
| Js.StripShape | RESTful-API/lib/handlers.js:41-44 | trimming keeps one contiguous slice and removes only characters of the stripped class on either side |
| Js.StripFixpoint | RESTful-API/lib/handlers.js:41-44 | a string is its own trim exactly when neither end is a stripped character |
| Js.StripEndsUnpadded | RESTful-API/lib/handlers.js:41-44 | a trimmed string has no stripped character at either end |
| Js.StripIdempotent | RESTful-API/lib/handlers.js:43 | trimming twice is trimming once |
| Js.Trim | RESTful-API/lib/handlers.js:41-44 | `trim()` leaves no white space at either end, and gives back exactly the strings that have none at either end |
| Js.IndexOf | RESTful-API/lib/logs.js:56 | `indexOf` gives the first position where the pattern occurs, or -1 when it occurs nowhere |
| Js.StripExtension | RESTful-API/lib/data.js:137 | replacing the first extension of `<key><ext>` gives back a dot-free key |
| Js.ReplaceFirst | RESTful-API/lib/workers.js:245 | `replace` with a string pattern leaves a text without the pattern unchanged and otherwise changes its length by one replacement |
| Js.ReplaceFirstReplacesFirst | RESTful-API/lib/data.js:137 | only the first occurrence is replaced: the text before it and after it is kept |
| Js.ReplaceFirstWithoutOccurrence | RESTful-API/lib/logs.js:57 | a text in which the pattern never occurs is left unchanged |
| Js.ToUpper | RESTful-API/lib/workers.js:99 | upper-casing maps every character and keeps the length |
| Js.ToLower | RESTful-API/lib/server.js:50 | lower-casing maps every character and keeps the length |
| Js.ToLowerIdempotent | RESTful-API/lib/server.js:50 | lower-cased text has no upper-case ASCII letter and lower-casing it again changes nothing |
| Js.NatToString | RESTful-API/lib/workers.js:246 | a timestamp renders as a non-empty string of decimal digits |
| Data.ReadFile | RESTful-API/lib/data.js:53-65 | a missing file is an error, a JSON file its value, an empty file `(null, "")`, and unparsable text `{}` |
| Data.FileStore.Create | RESTful-API/lib/data.js:18-50 | an existing key is refused and nothing changes; otherwise exactly that key is added |
| Data.FileStore.Update | RESTful-API/lib/data.js:68-112 | a missing key is refused; otherwise exactly that key's whole value is replaced |
| Data.FileStore.Delete | RESTful-API/lib/data.js:115-127 | exactly that key is removed; a missing key is an error |
| Data.KeysOfNames | RESTful-API/lib/data.js:136-138 | one key per entry, in order, each with its first ".json" removed |
| Data.ListRecoversKeys | RESTful-API/lib/data.js:130-148 | listing a directory of `<key>.json` files gives back the keys in readdir order |
| Data.List | RESTful-API/lib/data.js:130-148 | a failed or empty readdir is passed on; otherwise every entry with ".json" removed, in order |
| Logs.LiveAndArchiveNamesDiffer | RESTful-API/lib/logs.js:74-75 | a live log name never equals an archive name |
| Logs.AppendSpec | RESTful-API/lib/logs.js:18-47 | `<file>.log` is created if absent and ends with the string and a newline; nothing else changes |
| Logs.CompressSpec | RESTful-API/lib/logs.js:73-113 | succeeds exactly when the log exists and is empty or the archive is new; never overwrites; an empty log writes nothing and reports no error |
| Logs.TruncateSpec | RESTful-API/lib/logs.js:139-147 | the live log becomes empty and nothing else changes; a missing log is an error |
| Logs.TruncateIdempotent | RESTful-API/lib/logs.js:139-147 | truncating twice is truncating once |
| Logs.CompressRoundTrip | RESTful-API/lib/logs.js:116-136 | decompressing the archive compress wrote gives back the log text |
| Logs.LogNamesAppend | RESTful-API/lib/logs.js:54-64 | the listing keeps directory order across any split of the entries |
| Logs.LiveLogListed | RESTful-API/lib/logs.js:56-58 | a live log `<id>.log` is listed as `<id>` whatever the flag |
| Logs.ArchiveListed | RESTful-API/lib/logs.js:61-63 | an archive `<id>.gz.b64` is listed as `<id>` only when compressed logs are wanted |
| Logs.NoLogInArchiveName | RESTful-API/lib/logs.js:56 | a dot-free archive name never contains ".log" |
| Logs.List | RESTful-API/lib/logs.js:50-70 | a failed or empty readdir is passed on; otherwise the listed names of the entries, in order |
| Logs.DecompressSpec | RESTful-API/lib/logs.js:116-136 | a missing archive is a read error, an empty one calls back with neither error nor text, otherwise the text is the codec's decoding or the unzip error when decoding fails |
| Logs.LogDir.Decompress | RESTful-API/lib/logs.js:116-136 | on the directory, which is left unchanged: a missing archive is a read error, an empty one gives neither error nor text, otherwise the codec's decoding or the unzip error |
| Logs.LogDir.Append | RESTful-API/lib/logs.js:18-47 | the directory becomes what `AppendSpec` gives |
| Logs.LogDir.Compress | RESTful-API/lib/logs.js:73-113 | the error and directory are what `CompressSpec` gives |
| Logs.LogDir.Truncate | RESTful-API/lib/logs.js:139-147 | the error and directory are what `TruncateSpec` gives |
| Workers.SameValidatedFieldsSameVerdict | RESTful-API/lib/workers.js:57-63 | validation depends only on the six checked fields |
| Workers.WithDefaults | RESTful-API/lib/workers.js:66-67 | `state` becomes "up"/"down" (kept if it was one), `lastChecked` a positive number (kept) or `false`, every other property unchanged |
| Workers.TrimmedIfValid | RESTful-API/lib/workers.js:57-61 | a field's trimmed copy is truthy exactly when the field is valid |
| Workers.KeptIfValid | RESTful-API/lib/workers.js:62-63 | a field's kept copy is truthy exactly when the field is valid |
| Workers.ValidateCheckData | RESTful-API/lib/workers.js:52-76 | a check is forwarded iff id, protocol, url, method, successCodes and timeoutSeconds are valid; the forwarded record is the untrimmed record with defaults |
| Workers.UserPhoneNeverBlocksProbing | RESTful-API/lib/workers.js:57-70 | the phone number never decides whether a check is probed |
| Workers.ValidationIdempotent | RESTful-API/lib/workers.js:66-67 | validating a validated record changes nothing |
| Workers.ExactlyOnce | RESTful-API/lib/workers.js:89-146 | whatever the order and number of response, error and timeout events, exactly one outcome is delivered after the first event: the one that event wrote |
| Workers.DeliveredOutcomeIsExclusive | RESTful-API/lib/workers.js:83-139 | the delivered outcome has either a response code or an error, never both |
| Workers.RequestFor | RESTful-API/lib/workers.js:96-105 | the protocol is the check's protocol followed by ":", the method is the check's method upper-cased (POST, GET, PUT or DELETE), the timeout is 1000 times the check's seconds (1000..5000 ms), https is used exactly for "https" |
| Workers.NewState | RESTful-API/lib/workers.js:157 | the state is "up" or "down" |
| Workers.UpOnlyOnListedResponse | RESTful-API/lib/workers.js:157 | only a response whose non-zero code is listed in successCodes makes a check up; errors and timeouts never do |
| Workers.FirstClassificationNeverAlerts | RESTful-API/lib/workers.js:67-160 | a check never classified before never alerts |
| Workers.AlertExactlyOnChange | RESTful-API/lib/workers.js:160 | once classified, an alert is raised exactly when the state changes |
| Workers.AlertWarranted | RESTful-API/lib/workers.js:160 | no alert without a truthy `lastChecked`; with one, an alert exactly when the stored state differs from the new one |
| Workers.WithOutcome | RESTful-API/lib/workers.js:167-169 | the persisted record replaces `state` and `lastChecked` and nothing else |
| Workers.PersistedRecordRevalidates | RESTful-API/lib/workers.js:167-172 | the persisted record passes validation unchanged at the next sweep |
| Workers.RepeatedOutcomeNeverAlerts | RESTful-API/lib/workers.js:157-160 | the same outcome right after it was persisted gives the same state and no alert |
| Workers.ChangeAfterClassificationAlerts | RESTful-API/lib/workers.js:157-169 | a different state after a persisted classification alerts |
| Workers.AlertMessage | RESTful-API/lib/workers.js:190-192 | the alert text opens with "Alert: Your check for " and the upper-cased method and ends with " is currently " and the new state |
| Workers.RotateAll | RESTful-API/lib/workers.js:243-261 | rotating the listed logs keeps every existing file name, and rotating no log changes nothing; what each log's rotation writes is stated by `RotateOneCases` and `RotationArchivesBeforeEmptying` |
| Workers.RotateOne | RESTful-API/lib/workers.js:244-260 | one listed log's rotation keeps every file name and adds at most its archive `<id>-<now>.gz.b64` |
| Workers.RotateOneCases | RESTful-API/lib/workers.js:244-258 | one listed log: a present, non-empty log whose archive `<id>-<now>.gz.b64` is free gets that archive holding its encoded text and is then emptied; in every other case the directory is unchanged |
| Workers.RotationArchivesBeforeEmptying | RESTful-API/lib/workers.js:239-261 | over the whole sweep a non-empty live log keeps its text or is empty with its archive holding the encoded text, the archive is written only together with the emptying, and a listed log whose archive name was free ends up archived and emptied |
| Workers.RotationKeepsFiles | RESTful-API/lib/workers.js:239-266 | rotation deletes and overwrites nothing: old files stay (live logs possibly emptied), new files are archives |
| Workers.RotationOfOneLiveLog | RESTful-API/lib/workers.js:239-266 | a directory holding `abc.log` ends with `abc.log` empty and `abc-<now>.gz.b64` holding the encoded text |
| Workers.Worker.Log | RESTful-API/lib/workers.js:204-229 | one serialised `{check, outcome, state, alert, time}` line is appended to the log named by the check's id |
| Workers.LogRecord | RESTful-API/lib/workers.js:206-212 | the log entry is an object with exactly the keys check, outcome, state, alert and time, holding the check as read, the outcome, the new state, the alert verdict and the time |
| Workers.Worker.AlertUserToStatusChange | RESTful-API/lib/workers.js:190-202 | one SMS to the stored phone with the alert text |
| Workers.Worker.ProcessCheckOutcome | RESTful-API/lib/workers.js:155-187 | the log line holds the pre-update record; `checks/<id>` is updated if it exists; an SMS is sent iff the update succeeded and an alert was warranted |
| Workers.Worker.GatherAllChecks | RESTful-API/lib/workers.js:23-49 | one fresh probe per listed check that reads truthy and validates, in listing order, with its defaulted record; nothing is written |
| Workers.Worker.SweepOne | RESTful-API/lib/workers.js:30-38 | one listed key starts a probe exactly when it reads truthy and validates |
| Workers.Worker.RotateLogs | RESTful-API/lib/workers.js:239-266 | the log directory becomes the rotation of every listed live log in order |
| Workers.Worker.RotateLog | RESTful-API/lib/workers.js:245-260 | compress `<id>.log` to `<id>-<now>.gz.b64`, then truncate only when compress reported no error |
| Workers.Worker.Init | RESTful-API/lib/workers.js:276-292 | a sweep and a rotation at start-up, then a one-minute and a one-day timer, both running the sweep |
| Workers.StartedConcat | RESTful-API/lib/workers.js:28-41 | the probes of two runs of keys are the probes of their concatenation |
| Workers.ForwardedAreWellFormed | RESTful-API/lib/workers.js:70-71 | every forwarded record is well formed with state "up" or "down" |
| Workers.WellFormedChecksAreForwarded | RESTful-API/lib/workers.js:23-49 | every listed check stored as a well-formed object is forwarded |
| Workers.Probe.constructor | RESTful-API/lib/workers.js:79-105 | a new probe holds its request, no outcome and `outcomeSent` false |
| Workers.Probe.OnResponse | RESTful-API/lib/workers.js:107-118 | the status code is written; the outcome is processed only if not yet sent |
| Workers.Probe.OnError | RESTful-API/lib/workers.js:121-132 | the error is written; the outcome is processed only if not yet sent |
| Workers.Probe.OnTimeout | RESTful-API/lib/workers.js:135-146 | the timeout is written; the outcome is processed only if not yet sent |
| Workers.Probe.Handle | RESTful-API/lib/workers.js:107-146 | after any event exactly one outcome has been delivered; a later event changes no store, log or alert |
| Handlers.Ping | RESTful-API/lib/handlers.js:277-281 | ping answers 200 |
| Handlers.NotFound | RESTful-API/lib/handlers.js:284-288 | notFound answers 404 |
| Handlers.TrimmedNonEmpty | RESTful-API/lib/handlers.js:41-44 | the field is truthy exactly for a string with non-blank text, and is then its trim |
| Handlers.UntrimmedNonEmpty | RESTful-API/lib/handlers.js:157-159 | the field is truthy exactly for a string with non-blank text, and is then the text as sent |
| Handlers.TrimmedPhone | RESTful-API/lib/handlers.js:116 | the phone is truthy exactly when its trim has 10 characters, and is then the trim |
| Handlers.Hash | RESTful-API/lib/helpers.js:15-24 | a non-empty string is hashed; anything else gives `false` |
| Handlers.PostSpec | RESTful-API/lib/handlers.js:36-105 | 200 exactly when the fields are valid, the phone is new and the hash is truthy, adding exactly that user; otherwise nothing changes (400 for invalid fields or an existing user) |
| Handlers.WithoutPassword | RESTful-API/lib/handlers.js:126 | the returned user lacks `hashedPassword` and keeps everything else |
| Handlers.GetSpec | RESTful-API/lib/handlers.js:111-143 | 200 with the stored record minus its hash exactly when the phone is valid and the record reads truthy; 404 for a valid phone otherwise; 400 for an invalid phone |
| Handlers.Updated | RESTful-API/lib/handlers.js:171-187 | only the supplied fields change, with their untrimmed text and the hash of the untrimmed password |
| Handlers.PutSpec | RESTful-API/lib/handlers.js:149-225 | 200 exactly when the phone is valid, a field is supplied and the user exists, replacing only that user's record; 400 "Missing fields to update" when no field is supplied and 400 "User does not exist" when the user is missing, both leaving the store unchanged |
| Handlers.DeleteSpec | RESTful-API/lib/handlers.js:232-274 | 200 exactly when the phone is valid and the user exists, removing exactly that file |
| Handlers.UsersSpec | RESTful-API/lib/handlers.js:14-28 | other methods get 405 and change nothing; get never changes the store |
| Handlers.PostKeepsConsistency | RESTful-API/lib/handlers.js:60-69 | post keeps every user file an object whose phone is its key and whose tosAgreement is true |
| Handlers.PutKeepsConsistency | RESTful-API/lib/handlers.js:171-190 | put keeps that invariant |
| Handlers.UsersKeepConsistency | RESTful-API/lib/handlers.js:14-28 | every users request keeps that invariant |
| Handlers.PostThenGet | RESTful-API/lib/handlers.js:36-143 | a posted user is then returned by get with its trimmed names and phone, tosAgreement, and no hash |
| Handlers.PostTwiceRefused | RESTful-API/lib/handlers.js:50-95 | posting the same user again is refused with 400 and changes nothing |
| Handlers.DeleteThenGet | RESTful-API/lib/handlers.js:232-274 | after a delete, get gives 404 and a second delete 400 |
| Handlers.PutKeepsIdentity | RESTful-API/lib/handlers.js:166-190 | put keeps the set of files and the user's phone and tosAgreement |
| Handlers.Post | RESTful-API/lib/handlers.js:36-105 | the reply and new store are what `PostSpec` gives |
| Handlers.GetUser | RESTful-API/lib/handlers.js:111-143 | the reply is what `GetSpec` gives |
| Handlers.Put | RESTful-API/lib/handlers.js:149-225 | the reply and new store are what `PutSpec` gives |
| Handlers.Delete | RESTful-API/lib/handlers.js:232-274 | the reply and new store are what `DeleteSpec` gives |
| Handlers.Users | RESTful-API/lib/handlers.js:14-28 | the reply and new store are what `UsersSpec` gives |
| Server.RoutedPath | RESTful-API/lib/server.js:44 | the routed path neither starts nor ends with "/", and a pathname is routed as itself exactly when it has no slash at either end |
| Server.RoutedPathShape | RESTful-API/lib/server.js:44 | the routed path neither starts nor ends with "/" and is the pathname with only outer slashes removed |
| Server.RoutedPathIdempotent | RESTful-API/lib/server.js:44 | trimming slashes again changes nothing; a path without outer slashes is kept as written |
| Server.HandlerMethod | RESTful-API/lib/server.js:50 | the method is the request's method lower-cased character by character: same length, no upper-case ASCII letter |
| Server.ConcatSplit | RESTful-API/lib/server.js:59-64 | the body is the chunks joined in order, over any split of the chunks |
| Server.ConcatSingle | RESTful-API/lib/server.js:59-64 | a one-chunk body is that chunk |
| Server.ReadBody | RESTful-API/lib/server.js:57-64 | accumulating the chunks with `+=` gives their concatenation |
| Server.ParseJsonToObject | RESTful-API/lib/helpers.js:27-37 | parsed JSON, or `{}` when parsing throws |
| Server.ChooseHandler | RESTful-API/lib/server.js:68-114 | "ping" and "users" reach their handlers, "tokens" and "checks" fall to notFound, inherited object members are what the lookup finds |
| Server.ResponseStatus | RESTful-API/lib/server.js:82 | a non-number status becomes 200 |
| Server.ResponsePayload | RESTful-API/lib/server.js:85 | a payload whose typeof is not "object" becomes `{}` |
| Server.Respond | RESTful-API/lib/server.js:80-93 | the response is the defaulted status with Content-Type application/json and the serialised defaulted payload |
| Server.Serve | RESTful-API/lib/server.js:39-106 | only the users route changes the store; notFound answers 404 `{}`, ping 200 `{}`, inherited members never answer |
| Server.ResponsesAreJson | RESTful-API/lib/server.js:85-93 | every response is application/json and serialises an object-typed value |
| Server.OuterSlashesIrrelevant | RESTful-API/lib/server.js:44 | paths differing only in outer slashes are served alike |
| Server.MethodCaseIrrelevant | RESTful-API/lib/server.js:50 | the request method's ASCII case never matters |
| Server.UsersGetRouted | RESTful-API/lib/server.js:44-80 | "GET /users/" reaches users get with its query and changes nothing |
| Server.UnifiedServer | RESTful-API/lib/server.js:39-106 | the outcome and new store are what `Serve` gives |

## Left out

- **Sockets.** The HTTP and HTTPS sockets, TLS key loading and `listen` are not modelled (`server.js:24-36, 117-127`). The bare `unifiedServer` reference at `server.js:25` is a ReferenceError on every HTTP request.
- **Probe request.** The outbound request itself is not modelled: `URL.parse`, hostname/path splitting, and socket timeouts. Only the three callbacks are modelled, as events on the probe. Which events arrive, and in what order, is an input.
- **Concurrency.** Sweeps, rotation, appends and probes run concurrently in the program, and races between them are not modelled. Each operation runs to completion on its own, and the callbacks of one sweep run in listing order.
- **Clock.** `Date.now()` is a parameter. One value serves a whole rotation sweep, although the program reads the clock once per log.
- **Timers.** `setInterval` is represented only by the interval and the task it runs (`Workers.Timer`).
- **Opaque operations.** JSON serialisation and parsing, the HMAC-SHA256 of `helpers.hash` and gzip/base64 are parameters. Only the round-trip law of the codec is assumed, and only where it is stated. Key order in serialised objects is not modelled.
- **SMS transport.** `helpers.sendTwilioSms` is not defined in this code, so in the program as written the call throws a TypeError inside the callback of the check's update, after the record was saved. No `uncaughtException` handler is installed, so the first warranted alert ends the process. The model records the alert and keeps going; the exit is not modelled. Alerts are recorded as a list of messages handed to the transport; its callback and errors are not modelled.
- **`debug` and `console.log`.** All their output is left out.
- **Numbers.** NaN and the infinities are not modelled; numbers are exact rationals. Strings are sequences of characters, not UTF-16 code units. Case mapping covers ASCII letters only.
- **Data.FileStore.Create.** Only the `wx` open failure is modelled. Write and close errors are not. Neither is the missing callback when the write fails (`data.js:27-42`).
- **Data.FileStore.Update.** Only the `r+` open failure is modelled. Truncate, write and close errors are not.
- **Data.FileStore.Delete.** Only a missing file is an error; other unlink failures are not modelled.
- **Logs.LogDir.Compress.** Only a missing log and an existing archive are errors. Read, gzip, write and close failures are not modelled.
- **Logs.LogDir.Append.** Open, append and close failures are not modelled, so append always succeeds.
- **Handlers unreachable errors.** `Handlers.Post`, `Handlers.Put` and `Handlers.Delete` keep their 500 branches for a failed create, update or delete. These cannot occur in the model, because the preceding read already settled whether the file exists.
- **Handlers.Hash.** The hash is an arbitrary function of the text, so an empty digest, and with it the 500 "Could not hash" reply, is allowed.
- **Out of scope.** The `tokens` and `checks` handlers do not exist in this code. `helpers.createRandomString`, `config.js` and `index.js` (an older copy of the server) are not part of this model.
- **Headers.** Request headers are passed to handlers in the program but read by none, so they are not modelled.
- **Stream decoding.** Decoding of the body stream (`StringDecoder`) is not modelled; the chunks arrive already decoded.
- **Handler exceptions.** A handler that throws (post or put given a `null` payload, which `JSON.parse("null")` yields) throws inside the request's `end` callback. No `uncaughtException` handler is installed, so the program's process exits there. The model records `NoResponse` for that request and keeps serving with the store unchanged; the exit is not modelled.
- **Inherited router members.** For an inherited member the model records that no response is sent. Whether that function throws or returns is not distinguished.
