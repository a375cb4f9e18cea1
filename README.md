# Telegram broadcast dashboard — a verified model

This project models the core of a Telegram broadcast dashboard in Dafny and
proves properties of that model. The dashboard has three parts: a Node API
that schedules and sends broadcasts through the Telegram Bot API, a Python
user-session service, and a React front end. One module models each core
source file:

- **Broadcast engine** (`TelegramService`). It covers:
  - resolving the bot token;
  - turning a task's content into one Bot API request per message, with the
    media kind and endpoint picked from the file name and size;
  - the per-recipient send loop with its counters, receipts and waits;
  - the undo loop;
  - folding engagement metrics back into the receipts.
- **Task lifecycle** (`TaskRoutes`, `TaskStore`, `Schema`). It covers:
  - parsing the schedule form;
  - attaching uploaded files to messages;
  - counting recipients;
  - persisting the task as `pending`, then handing it to the queue, to the
    in-process fallback, or to both when the queue accepts it only after
    the 500 ms timeout;
  - undo, retry, the metrics refresh and clearing the history.

  The Task collection is a class whose methods update it in place.
- **Supporting services.** These are:
  - the Python service's sendability rules, metric extraction and grouped
    deletion (`PythonService`);
  - the sign-up and log-in decision chains (`Accounts`);
  - the single-admin rules of the admin routes (`Admin`);
  - the bearer-token guards (`Auth`);
  - entity sync: upsert, then prune (`EntitySync`);
  - the settings de-duplication script (`FixSettings`).
- **Front end.** It covers:
  - the `DD:HH:MM:SS` duration helpers (`Duration`) and the counter colour
    (`UiUtils`);
  - the quiz builder's parser, list edits, validation and payloads
    (`QuizParse`, `QuizBuilder`);
  - the broadcast page's form (`SendMessage`);
  - the channel priority list both pages keep (`ChannelOrder`);
  - the folder tree picker (`FolderTree`);
  - the message list, message card and media grid (`MessageList`,
    `MessageItem`, `MediaList`);
  - the preview (`Preview`);
  - the history, dashboard and analytics pages (`History`, `Dashboard`,
    `Analytics`).

Shared modules:

- `Wrappers` holds Option and Result.
- `Text` models JavaScript's string built-ins.
- `Sorting` models `Array.prototype.sort`, which is stable, by an integer
  key.
- `Messages` holds the editor's message and media values.
- `FrontEntities` holds the records the pages receive.

Inputs stand in for the outside world:

- the Bot API, the Python service, the database, the queue broker, the file
  system, JSON parsing, hashing and token signing become values or outcome
  functions;
- clocks become `now` parameters;
- waits are recorded, not slept.

Loops in the source become methods with loop invariants. Each is proved
against a recursive specification function, and lemmas state the promised
properties of that function.

## Model

| member | source | states |
|---|---|---|
| Schema.ParseRole | models/index.js:14-18 | a role is accepted exactly when it is one of the three enum names, and maps back to that name |
| Schema.ParseApproval | models/index.js:19-23 | an approval status is accepted exactly for `pending`, `approved` or `denied` |
| Schema.ParseEntityType | models/index.js:56-59 | an entity type is accepted exactly for `user`, `group` or `channel` |
| Schema.ParseTaskType | models/index.js:127-131 | a task type is accepted exactly for `message`, `poll` or `multi_message` |
| Schema.ParseStatus | models/index.js:163-167 | a status is accepted exactly for one of the seven enum names, and maps back to that name |
| Schema.NewUser | models/index.js:3-35 | a new user is `pending` approval with an empty Telegram configuration, and keeps the given name, hash, role and creation time |
| Schema.NewReceipt | models/index.js:185-196 | a stored receipt keeps its recipient and message id, and every counter starts at 0 with `updatedAt` set to now |
| Schema.Task.constructor | models/index.js:107-197 | a task holds the fields it is built with; its status takes the default `pending`, its results and receipts their empty defaults, it has no completion time, and `createdAt` is the current time |
| Schema.Task.Record | models/index.js:107-197 | the JSON form carries the document's id, status and receipts |
| TaskStore.Store.constructor | models/index.js:227 | an empty collection is valid |
| TaskStore.Store.Insert | routes/taskRoutes.js:151 | saving a new task adds it under its unique `taskId`, at the end of the natural order, and keeps the collection valid |
| TaskStore.Store.Clear | routes/taskRoutes.js:317 | `deleteMany({})` leaves an empty, valid collection |
| TaskStore.Store.RecordsOf | routes/taskRoutes.js:25-29 | the listed ids' documents, one record each, in the given order |
| TaskStore.Store.All | routes/taskRoutes.js:25-29 | every stored document once, in natural order |
| TaskStore.Store.Recent | routes/taskRoutes.js:25-28 | the listing holds at most 100 tasks, and all of them when fewer are stored |
| TaskStore.RecentIsNewestFirst | routes/taskRoutes.js:25-28 | the listing is sorted newest first and holds stored tasks only, each at most as often as stored; with at most 100 stored it is all of them, and no task left out is newer than one listed |
| TelegramService.ResolveBotToken | services/telegramService.js:73-89 | the user's own trimmed non-blank token wins, then the user's non-blank `bot_token` setting, then the environment token; the result is empty exactly when all three are missing |
| TelegramService.CallUser | services/telegramService.js:191-197 | the legacy call whose first argument is the recipient array sends with no user; otherwise the given user |
| TelegramService.LegacyMessage | services/telegramService.js:222-231 | the fallback message has no id, the task type, and the top-level text, media URL, poll question, options, answer and explanation, with no media list |
| TelegramService.MessagesToSend | services/telegramService.js:217-232 | a non-empty `content.messages` is sent as given, in order; otherwise exactly one message built from the legacy fields; never zero messages |
| TelegramService.EffectiveKind | services/telegramService.js:256-257 | `msg.type`, else the task type, else `message`; plain text exactly for `message` and `multi_message`, a poll exactly for `poll` |
| TelegramService.MultiMessageIsText | services/telegramService.js:256-257 | a `multi_message` type, on the message or on the task, is sent as a plain message |
| TelegramService.RecipientDelay | services/telegramService.js:235-239 | delay mode with a non-zero delay waits that many minutes in milliseconds between recipients; every other case waits 2000 ms |
| TelegramService.RelativePath | services/telegramService.js:269 | an upload URL loses exactly its one leading slash, and is otherwise unchanged |
| TelegramService.BaseName | services/telegramService.js:278 | the base name has no slash and ends the path |
| TelegramService.LastDot | services/telegramService.js:273 | the position of the last dot, or none when the text has no dot |
| TelegramService.SingleMediaKind | services/telegramService.js:316-336 | a single attachment goes as a photo exactly for an image extension up to 10 MiB, as a video exactly for `.mp4`, `.mov` or `.avi`, else as a document |
| TelegramService.AlbumMediaKind | services/telegramService.js:273-276 | an album item is a photo exactly for `.jpg`, `.jpeg`, `.png` or `.gif`, a video exactly for `.mp4` or `.mov`, else a document |
| TelegramService.AlbumAgreesWithSingle | services/telegramService.js:275-276 | the album and single-file rules agree on every extension except `.webp` and `.avi`, and on every size up to 10 MiB |
| TelegramService.AlbumItemsUpTo | services/telegramService.js:267-298 | the album never has more entries than URLs |
| TelegramService.AlbumEntry | services/telegramService.js:267-298 | an entry records its URL's position and carries a caption only at position 0 |
| TelegramService.AlbumItemsShape | services/telegramService.js:267-298 | album entries are the entries of existing files, each classified by its extension, in URL order |
| TelegramService.AlbumItemsEmpty | services/telegramService.js:267-303 | the album is empty, and the message falls back to text, exactly when no file exists |
| TelegramService.BuildAlbum | services/telegramService.js:267-298 | the album loop collects exactly the entries of the specification above |
| TelegramService.RequestFor | services/telegramService.js:259-364 | the request goes to the recipient's chat; an album needs more than one URL and a found file; a file send names an existing file and carries the text as caption; a quiz poll is sent exactly for poll messages; any other type gets no endpoint |
| TelegramService.MissingMediaFallsBack | services/telegramService.js:309-351 | a single attachment falls back to `sendMessage` with the "Media file not found" suffix exactly when its file does not exist |
| TelegramService.PlanRequest | services/telegramService.js:259-364 | the request builder with its album loop produces the request of the specification above |
| TelegramService.Attempt | services/telegramService.js:247-393 | a request with no endpoint fails with `fetch`'s error whatever the answer; otherwise a successful answer records its message id, or the first id of an album, and any other answer is the recipient's error |
| TelegramService.UnroutableFails | services/telegramService.js:247-377 | a message of a kind with no endpoint ends the recipient's run with that error, and nothing more is sent to that recipient |
| TelegramService.SendBroadcast | services/telegramService.js:190-413 | no request is made when no token resolves; otherwise the result is the broadcast over every recipient in order |
| TelegramService.SendAll | services/telegramService.js:241-411 | the loop over the recipients yields the broadcast over all of them, with the recipient wait after every recipient but the last |
| TelegramService.SendToRecipient | services/telegramService.js:244-405 | one recipient's messages are sent in order until the first failure, with the totals updated after each answer |
| TelegramService.RunStopsAtError | services/telegramService.js:244-405 | once a recipient's run has failed, the remaining messages add nothing |
| TelegramService.RunShape | services/telegramService.js:246-404 | a recipient gets every message with one request each, or the messages before the first failure plus the failed request; receipts name the recipient; the only waits inside a run are the 500 ms gaps |
| TelegramService.RecipientGapsAppend | services/telegramService.js:408-410 | recipient waits add up over concatenated logs |
| TelegramService.NoRecipientGaps | services/telegramService.js:396 | a run's own waits are message gaps only, never recipient waits |
| TelegramService.BroadcastCounts | services/telegramService.js:385-403 | successes equal the receipts, failures equal the error lines, and no recipient fails more than once |
| TelegramService.BroadcastAddressing | services/telegramService.js:386-389 | every receipt names one of the broadcast's recipients |
| TelegramService.BroadcastGaps | services/telegramService.js:408-410 | the recipient wait happens between consecutive recipients only, never after the last one |
| TelegramService.DeleteTotals | services/telegramService.js:444-483 | every entry counts once as a success or a failure; each valid entry gets exactly one delete call, in order, and invalid ones none; a 200 ms wait follows exactly the valid entries that are not the last, so the whole run waits once per valid entry before the last position |
| TelegramService.DeleteMessages | services/telegramService.js:418-491 | no call is made when no token resolves; the legacy array form deletes with no user; otherwise the result is the undo loop over all entries |
| TelegramService.RefreshAll | services/telegramService.js:549-562 | receipts keep their order and addressing; a receipt in the batch takes the batch's views, forwards, replies, reactions and voters and a fresh `updatedAt`; the others are unchanged |
| TelegramService.RefreshIdempotent | services/telegramService.js:549-562 | refreshing again with the same batch and time changes nothing, and as many receipts are found in the batch before as after |
| TelegramService.CountKeyed | services/telegramService.js:549-562 | the updated count never exceeds the number of receipts |
| TelegramService.NothingKeyedNothingChanged | services/telegramService.js:564-569 | when no receipt is in the batch, no receipt changes |
| TelegramService.UpdateMetrics | services/telegramService.js:519-575 | a missing task or one without receipts answers not-found; a missing creator or a failed fetch is an error with the document unchanged; otherwise only the receipts are refreshed from the batch and the reply counts the receipts found in it |
| TelegramService.RefreshReceipts | services/telegramService.js:549-562 | every receipt in the batch gets the batch's metrics and the time, the others stay as they were, and the count is the number of receipts in the batch |
| TaskRoutes.TrimAll | routes/taskRoutes.js:79 | each comma-separated part is trimmed, and no part is lost |
| TaskRoutes.FolderIds | routes/taskRoutes.js:75-83 | `folderIds` text is whatever JSON value it parses to; text that is not JSON is split on commas when it has one, each part trimmed (at least two ids), is dropped when it starts like a JSON list, and is otherwise one id |
| TaskRoutes.SplitOnPresentSeparator | routes/taskRoutes.js:79 | splitting on a separator that occurs gives at least two parts |
| TaskRoutes.TargetIds | routes/taskRoutes.js:85-88 | `targetIds` text is whatever JSON value it parses to, and no targets when it is not JSON; a list is kept as sent |
| TaskRoutes.Length | routes/taskRoutes.js:124-127 | an id value counts only when it is an array or a string with a positive length, a string's length in UTF-16 units; a JSON scalar never counts |
| TaskRoutes.Stored | routes/taskRoutes.js:143-144 | `x || []` stored in an array path: an array as it is, a falsy value as `[]`, any other value wrapped in a one-element array |
| TaskRoutes.ScalarSelectsNobody | routes/taskRoutes.js:76-77 | a JSON scalar such as `42` sent as folders or as targets, with nothing else, selects nobody: "No targets selected" |
| TaskRoutes.StringTargetsCountCharacters | routes/taskRoutes.js:85-86 | targets that parse to a non-empty JSON string count its UTF-16 units as recipients, which is its number of characters when none is outside the Basic Multilingual Plane |
| TaskRoutes.FindMessage | routes/taskRoutes.js:102 | the index of the first message with the id, or none when no message has it |
| TaskRoutes.ApplyUpload | routes/taskRoutes.js:95-112 | attaching a file never adds or removes messages |
| TaskRoutes.ApplyUploads | routes/taskRoutes.js:93-114 | attaching the files in order never adds or removes messages |
| TaskRoutes.UrlsFor | routes/taskRoutes.js:95-106 | every attached URL is non-empty |
| TaskRoutes.FieldNameOfMessage | routes/taskRoutes.js:99-100 | a field addresses a message exactly when it is `media_` followed by that message's id |
| TaskRoutes.UploadsReachTheirMessage | routes/taskRoutes.js:99-110 | the first message with an id gets exactly its field's files appended in upload order; its `mediaUrl` is kept when set and otherwise becomes the first of them; its id, text and type do not change |
| TaskRoutes.IdsKept | routes/taskRoutes.js:93-114 | attaching files never changes a message's id |
| TaskRoutes.FirstMediaField | routes/taskRoutes.js:93-99 | the first uploaded file sent as `media` or `media_<id>`, none exactly when no file is |
| TaskRoutes.MapUploads | routes/taskRoutes.js:93-114 | with content, the files are attached in order; without content, the loop throws exactly when some file is `media` or `media_<id>`, with the error of the first such file |
| TaskRoutes.FolderRecipientsBySet | routes/taskRoutes.js:127-129 | the folder recipient count depends only on the set of listed folder ids, not on order or repeats |
| TaskRoutes.OnlyOwnFoldersCount | routes/taskRoutes.js:128 | folders owned by other users never add recipients |
| TaskRoutes.RecipientCount | routes/taskRoutes.js:124-132 | targets with a positive `length` count that many; otherwise folders with a positive `length` count their entities; otherwise there is no count ("No targets selected") |
| TaskRoutes.Submit | routes/taskRoutes.js:153-198 | the add is tried only for a ready, connecting or connected broker; the job is queued when the add succeeds, with a delay never below 0; the in-process fallback runs unless the add succeeded within 500 ms, and it uses a timer only for a future schedule |
| TaskRoutes.FallbackKeepsTiming | routes/taskRoutes.js:155-197 | every path taken, queue or fallback, is due at `max(0, scheduledAt - now)` from now, or at once when unscheduled |
| TaskRoutes.LateAddRunsTwice | routes/taskRoutes.js:161-198 | an add that succeeds after the 500 ms timeout leaves the job both queued and run in-process, both due at the same time |
| TaskRoutes.NewScheduledTask | routes/taskRoutes.js:135-149 | the new task carries the new id, the caller as creator, and the name, type, content, folders, targets, recipient count, schedule and expiry it is given; it is `pending` with empty results and receipts |
| TaskRoutes.Schedule | routes/taskRoutes.js:52-211 | the checks run in order, each with its own answer: the first media file's error without content, "Task name is required", "Task type is required", "No targets selected", the validation error of a type outside the enum, the duplicate-key error for an existing id; a rejected request stores nothing; a form passing every check with a new id is scheduled, storing exactly one new `pending` task before the queue is tried, and answers with the submission path taken |
| TaskRoutes.EntriesOf | routes/taskRoutes.js:239 | the undo entries are the receipts, in order, each with its recipient and message id |
| TaskRoutes.Undo | routes/taskRoutes.js:214-258 | a missing task is 404 and a task without receipts is 400 with nothing changed; otherwise the metrics are refreshed first, then with a send token every receipt's message is deleted and only `status` (`undone`) and `completedAt` change; without a token only the refresh remains; the status is not checked first |
| TaskRoutes.DeleteAndMark | routes/taskRoutes.js:238-245 | with a send token the receipts' messages are deleted and only `status` (`undone`) and `completedAt` change; without a token the deletion fails and the document is unchanged |
| TaskRoutes.Retry | routes/taskRoutes.js:277-311 | only a failed task is retried: only its status (`pending`), results, receipts (emptied) and `createdAt` change; any other task is refused unchanged |
| TaskRoutes.RefreshMetrics | routes/taskRoutes.js:261-274 | not-found, missing-creator, fetch-error and success replies as the metrics update gives them, the errors as server errors; only the receipts change, refreshed from the batch |
| TaskRoutes.ClearHistory | routes/taskRoutes.js:314-322 | every task is removed and the count deleted is the number there were |
| PythonService.UserIdFromHeader | Telegram-Dashboard-python-backend-main/Telegram-Dashboard-python-backend-main/main.py:41-45 | the caller is the `x-user-id` header exactly when it is present and non-empty; otherwise the answer is 400 "x-user-id header required" |
| PythonService.Sendable | Telegram-Dashboard-python-backend-main/Telegram-Dashboard-python-backend-main/main.py:250-281 | left or kicked dialogs are never listed; a channel is listed exactly when it is a broadcast channel the account created or may post to, or a megagroup; every other dialog is listed; the kind is `channel` only for postable broadcast channels and `user` only for non-channel non-group dialogs |
| PythonService.RowOf | Telegram-Dashboard-python-backend-main/Telegram-Dashboard-python-backend-main/main.py:282-304 | a row carries the dialog id as text, its kind, a non-empty name, its username, and an access hash exactly when the entity has one |
| PythonService.RowsAreSendable | Telegram-Dashboard-python-backend-main/Telegram-Dashboard-python-backend-main/main.py:243-304 | every listed row is the row of some sendable dialog, and there are no more rows than dialogs |
| PythonService.SendableAreListed | Telegram-Dashboard-python-backend-main/Telegram-Dashboard-python-backend-main/main.py:243-304 | every sendable dialog is listed |
| PythonService.GetDialogs | Telegram-Dashboard-python-backend-main/Telegram-Dashboard-python-backend-main/main.py:219-313 | the dialog loop produces exactly the rows of the specification above |
| PythonService.OrZero | Telegram-Dashboard-python-backend-main/Telegram-Dashboard-python-backend-main/main.py:397-398 | Python's `x or 0`: an absent counter reads as 0, a present one as itself |
| PythonService.Voters | Telegram-Dashboard-python-backend-main/Telegram-Dashboard-python-backend-main/main.py:410-417 | the message's own poll decides the voter count even without results (then 0); without any poll results the count is 0 |
| PythonService.Extract | Telegram-Dashboard-python-backend-main/Telegram-Dashboard-python-backend-main/main.py:396-425 | views and forwards default to 0, replies to 0 without a replies object, reactions are the sum of the per-reaction counts (0 without any), voters as above |
| PythonService.BatchKeys | Telegram-Dashboard-python-backend-main/Telegram-Dashboard-python-backend-main/main.py:377-425 | a message id is a result key exactly when some item with both ids present was fetched and found |
| PythonService.BatchLastWins | Telegram-Dashboard-python-backend-main/Telegram-Dashboard-python-backend-main/main.py:419-425 | items sharing a message id overwrite each other: the value under a key comes from the last analysed item with it |
| PythonService.AnalyticsBatch | Telegram-Dashboard-python-backend-main/Telegram-Dashboard-python-backend-main/main.py:364-435 | the batch loop produces exactly the result map of the specification above |
| PythonService.InvalidCount | Telegram-Dashboard-python-backend-main/Telegram-Dashboard-python-backend-main/main.py:462-464 | entries lacking an id are counted, never more than there are entries |
| PythonService.PeersDistinct | Telegram-Dashboard-python-backend-main/Telegram-Dashboard-python-backend-main/main.py:466-467 | each peer is grouped once |
| PythonService.PeersUpToMembers | Telegram-Dashboard-python-backend-main/Telegram-Dashboard-python-backend-main/main.py:458-468 | a peer is grouped exactly when some valid entry names it |
| PythonService.GroupedCountStep | Telegram-Dashboard-python-backend-main/Telegram-Dashboard-python-backend-main/main.py:458-468 | one more entry adds one grouped id exactly when it is valid and its peer is listed |
| PythonService.GroupedCountTotal | Telegram-Dashboard-python-backend-main/Telegram-Dashboard-python-backend-main/main.py:458-468 | every valid entry is grouped under exactly one peer, so the groups and the invalid count cover every entry |
| PythonService.GroupedCountEmpty | Telegram-Dashboard-python-backend-main/Telegram-Dashboard-python-backend-main/main.py:456 | no entries group no ids |
| PythonService.DeleteGroupsTotals | Telegram-Dashboard-python-backend-main/Telegram-Dashboard-python-backend-main/main.py:470-504 | after the first n groups, successes and failures cover those groups' ids and the invalid entries, with at most one error line per group |
| PythonService.DeleteAccountsForAll | Telegram-Dashboard-python-backend-main/Telegram-Dashboard-python-backend-main/main.py:452-506 | every entry is accounted for: `success + failed` is the number of entries, with at most one error per peer |
| PythonService.GroupByPeer | Telegram-Dashboard-python-backend-main/Telegram-Dashboard-python-backend-main/main.py:456-468 | the first loop counts the invalid entries and groups the valid ones per peer, in order of first appearance, with the ids in input order |
| PythonService.GroupsUpToShape | Telegram-Dashboard-python-backend-main/Telegram-Dashboard-python-backend-main/main.py:458-468 | the grouping dict holds exactly the peers with a valid entry, each with its ids in input order, and a peer with no entry has no ids |
| PythonService.DeleteMessages | Telegram-Dashboard-python-backend-main/Telegram-Dashboard-python-backend-main/main.py:437-506 | an empty list is answered 400 "No messages provided"; otherwise the groups are deleted one call each, and `success + failed` equals the number of entries |
| PythonService.DeleteGroups | Telegram-Dashboard-python-backend-main/Telegram-Dashboard-python-backend-main/main.py:470-504 | the second loop deletes the groups in peer order: a group's size goes to `success`, or to `failed` with one error line |
| PythonService.IdsForAbsent | Telegram-Dashboard-python-backend-main/Telegram-Dashboard-python-backend-main/main.py:466-468 | a peer not grouped so far has no ids |
| PythonService.IdsForEmpty | Telegram-Dashboard-python-backend-main/Telegram-Dashboard-python-backend-main/main.py:466-468 | a peer no valid entry names has no ids |
| Auth.JwtSecret | middleware/auth.js:4-6 | the environment secret when set and non-empty, otherwise the development secret; never empty |
| Auth.BearerToken | middleware/auth.js:10-15 | a token exists exactly for a header starting with `Bearer `, and is the rest of the header trimmed |
| Auth.BearerRoundTrip | middleware/auth.js:11-15 | a client sending `Bearer <token>` gets its trimmed token back |
| Auth.RequireAuth | middleware/auth.js:8-31 | a request is authenticated exactly when its bearer token verifies and names a known user, and then as that user; without a bearer header the answer is "Missing Authorization header" |
| Auth.OptionalAgreesWithRequired | middleware/auth.js:45-65 | the optional guard accepts exactly the requests the required guard accepts, as the same user, and proceeds anonymously otherwise |
| Auth.RequireRole | middleware/auth.js:33-43 | a request passes exactly when it has a user whose role is listed; 401 exactly when there is no user |
| Accounts.FindByUsername | routes/accountRoutes.js:38 | the found user is stored and has the name; none is found exactly when no user has it |
| Accounts.FindAdmin | routes/accountRoutes.js:44 | the found user is a stored admin; none is found exactly when no admin exists |
| Accounts.Signup | routes/accountRoutes.js:26-83 | missing fields, "Invalid role", "Username already exists" and "Admin already exists" in that order, and a request passing all four checks is never rejected; the new user has the name, the hashed password, the role and an empty Telegram configuration; a non-admin is pending; the admin is approved and gets a token when `JWT_SECRET` is set, and otherwise answers 500 after being stored |
| Accounts.SignToken | routes/accountRoutes.js:10-24 | signing fails with "secretOrPrivateKey must have a value" exactly when `JWT_SECRET` is unset or empty, and otherwise gives the signature under it |
| Accounts.AdminSignupWithoutSecret | routes/accountRoutes.js:43-81 | without a secret the first admin's sign-up answers 500 yet stores the admin, so every later admin sign-up is rejected and the stored admin cannot log in |
| Accounts.SignupKeepsInvariants | routes/accountRoutes.js:43-58 | sign-up keeps at most one admin and unique usernames, and with a fresh id unique ids |
| Accounts.Login | routes/accountRoutes.js:85-121 | 400 for missing fields, 401 for an unknown user, 403 with the status for an account not approved (before the password is checked), 401 for a wrong password, 500 when no secret is set; a login succeeds exactly when none of these applies, with that user's token |
| Accounts.FindAppended | routes/accountRoutes.js:38 | a user appended under a new name is found by that name |
| Accounts.SignupThenLogin | routes/accountRoutes.js:26-121 | whoever signs up can log in with the same password exactly when the sign-up was approved; a pending sign-up is answered 403 |
| Accounts.SignupNotConfigured | routes/accountRoutes.js:123-133 | an account fresh from sign-up does not report Telegram as configured |
| Admin.FilterListed | routes/adminRoutes.js:17-22 | the approvals list holds exactly the stored non-admin users matching the status, each as often as it is stored |
| Admin.Approvals | routes/adminRoutes.js:10-30 | an absent or empty status means `pending`; an unknown status is "Invalid status"; otherwise the projections of exactly the matching moderators and viewers, as many as there are matching documents (each stored document once), newest first, without password hashes or Telegram credentials |
| Admin.NewestViews | routes/adminRoutes.js:22-24 | `find(...).sort({ createdAt: -1 }).select(...)`: one projection per matching user, every matching user's projection present, newest first |
| Admin.Directory | routes/adminRoutes.js:62-72 | every user, admins included, as a projection, newest first |
| Admin.PositionOf | routes/adminRoutes.js:34 | the position of the user with the id, or none when no user has it |
| Admin.UserDirectory.constructor | routes/adminRoutes.js:7-8 | a directory over users with unique ids is valid |
| Admin.UserDirectory.Review | routes/adminRoutes.js:32-60 | 404 for an unknown user and 400 for the admin, both changing nothing; otherwise only that user's approval status changes, to approved or denied; no role ever changes |
| Admin.UserDirectory.ChangeRole | routes/adminRoutes.js:103-135 | unknown roles are rejected with "Invalid role"; then an unknown user is 404, demoting the admin is "Cannot change admin role", and making a second admin is "Admin already exists"; the change succeeds exactly for a known user when it does not demote the admin and does not create a second admin; then only that user's role changes, and a new admin is also approved; a refusal changes nothing |
| Admin.OnlyAdminIsAt | routes/adminRoutes.js:117-122 | with at most one admin, when the found admin is the user at a position, no other position holds an admin |
| Admin.TasksCount | routes/adminRoutes.js:80 | the user's task count is 0 exactly when no task is theirs, the number of tasks exactly when all are theirs, and never more |
| Admin.SentAmongTasks | routes/adminRoutes.js:80-81 | the sent count (completed or partially completed) never exceeds the user's task count, and is 0 when no task was sent |
| Admin.FoldersCount | routes/adminRoutes.js:79 | the user's folder count is 0 exactly when no folder is theirs, the number of folders exactly when all are theirs, and never more |
| Admin.TasksOf | routes/adminRoutes.js:82-86 | exactly the tasks the user created, as many as the task count |
| Admin.UserSummary | routes/adminRoutes.js:74-101 | 404 exactly for an unknown user; otherwise that user's projection, the folder, task and sent counts (sent never above total), and the projections of their 25 newest tasks |
| Admin.NewestTasks | routes/adminRoutes.js:83-86 | the user's own tasks, newest first, 25 of them or all when fewer, each at most as often as stored, and no task of theirs left out is newer than one listed |
| EntitySync.FromRow | routes/entityRoutes.js:84-92 | a dialog row is saved under the caller's id and the row's Telegram id |
| EntitySync.UpsertKeys | routes/entityRoutes.js:82-98 | upserts touch only the caller's documents; a key is present afterwards exactly when it was before or a successfully saved row has it |
| EntitySync.UpsertLastWins | routes/entityRoutes.js:84-92 | the document under a key is the last successfully saved row with that Telegram id |
| EntitySync.IdsOf | routes/entityRoutes.js:79 | the active ids are the dialogs' Telegram ids, position by position |
| EntitySync.EntityStore.constructor | models/index.js:37-71 | the entity collection starts empty and every document sits under its own `(ownerUserId, telegramId)` key |
| EntitySync.EntityStore.List | routes/entityRoutes.js:14-28 | exactly the caller's entities, restricted to the requested type when one is given |
| EntitySync.EntityStore.Get | routes/entityRoutes.js:31-43 | an entity is found exactly when the caller owns one with that Telegram id, and the one found is it |
| EntitySync.EntityStore.UpsertAll | routes/entityRoutes.js:82-98 | the store becomes the upsert of every row; saved plus failed rows equal all rows, and one error is reported per failed save |
| EntitySync.EntityStore.SyncTelegram | routes/entityRoutes.js:46-117 | without both credential settings the answer is 400 and nothing changes; a failed `/dialogs` request answers 500 with its error and nothing changes; with both settings and the dialogs fetched the route syncs: every dialog is upserted, then the caller's documents whose id is no longer reported are deleted and counted; the reply has one error line per failed save and counts the rest as synced |
| EntitySync.EntityStore.Sync | routes/entityRoutes.js:120-158 | a missing entities array is refused with "Entities array is required" and changes nothing; otherwise every row is upserted with no pruning, and the reply has one error line per failed save and counts the rest as created |
| EntitySync.EntityStore.Delete | routes/entityRoutes.js:161-176 | a missing entity is a 404 that changes nothing; otherwise exactly that document is removed and returned |
| EntitySync.SyncOutcome | routes/entityRoutes.js:79-105 | after a Telegram sync other owners' documents are untouched, and the caller holds exactly the reported ids that were saved now or held before |
| FixSettings.OfUser | fixSettings.js:20 | a user's settings are exactly the documents with that user id |
| FixSettings.WithKeyName | fixSettings.js:24-30 | the group under a key holds exactly the documents with that key, in order |
| FixSettings.GroupOf | fixSettings.js:20-30 | a user's group under a key holds exactly that user's documents with that key |
| FixSettings.GroupCompose | fixSettings.js:20-30 | grouping a user's settings by key gives that user's group for the key |
| FixSettings.KeysUpToMembers | fixSettings.js:24-33 | a key is visited exactly when some setting has it |
| FixSettings.GroupByKey | fixSettings.js:24-30 | the grouping loop yields the keys in order of first appearance and, under each, exactly the settings with that key in order |
| FixSettings.KeeperIsLatest | fixSettings.js:37-41 | the kept setting belongs to the group, no setting of the group was updated later, and among equally recent ones it is the first in natural order (a stable sort) |
| FixSettings.DoomedFromGroup | fixSettings.js:42-47 | every deleted id is the id of a setting of the group |
| FixSettings.KeeperSurvives | fixSettings.js:41-47 | when ids are unique the kept setting's id is not deleted |
| FixSettings.FixUser | fixSettings.js:20-52 | one user's pass deletes exactly the ids of that user's settings that are not their key's keeper |
| FixSettings.Fix | fixSettings.js:16-53 | the whole script deletes exactly the union, over the users, of those ids |
| FixSettings.Remaining | fixSettings.js:47 | the collection afterwards holds exactly the settings whose id was not deleted |
| FixSettings.FixOutcome | fixSettings.js:16-53 | afterwards each processed user keeps the latest setting of every key they had and no other setting under that key, and other users lose nothing that was not deleted |
| Duration.Split4Sums | Telegram-Dashboard-Frontend-main/Telegram-Dashboard-Frontend-main/src/utils/durationUtils.js:9-18 | for a non-negative number of seconds the four fields add back up to it, with hours below 24 and minutes and seconds below 60 |
| Duration.Field | Telegram-Dashboard-Frontend-main/Telegram-Dashboard-Frontend-main/src/utils/durationUtils.js:21-24 | a padded field has at least two characters |
| Duration.FieldFacts | Telegram-Dashboard-Frontend-main/Telegram-Dashboard-Frontend-main/src/utils/durationUtils.js:21-24 | a field holds no colon, and a non-negative value's field is its zero-padded decimal digits |
| Duration.HoursToDuration | Telegram-Dashboard-Frontend-main/Telegram-Dashboard-Frontend-main/src/utils/durationUtils.js:6-7 | a missing or non-numeric argument gives `00:00:00:00` |
| Duration.DurationToSeconds | Telegram-Dashboard-Frontend-main/Telegram-Dashboard-Frontend-main/src/utils/durationUtils.js:33-37 | an empty string, or one without exactly four colon-separated fields, reads as 0 |
| Duration.Numbers | Telegram-Dashboard-Frontend-main/Telegram-Dashboard-Frontend-main/src/utils/durationUtils.js:36 | one number per part |
| Duration.FieldNumber | Telegram-Dashboard-Frontend-main/Telegram-Dashboard-Frontend-main/src/utils/durationUtils.js:21-24 | a non-negative value's field reads back as that value |
| Duration.ReadFields | Telegram-Dashboard-Frontend-main/Telegram-Dashboard-Frontend-main/src/utils/durationUtils.js:36-40 | a four-field string reads as days, hours, minutes and seconds combined |
| Duration.RenderSplits | Telegram-Dashboard-Frontend-main/Telegram-Dashboard-Frontend-main/src/utils/durationUtils.js:20-25 | the joined fields split back into the same four fields |
| Duration.RenderReadsBack | Telegram-Dashboard-Frontend-main/Telegram-Dashboard-Frontend-main/src/utils/durationUtils.js:20-40 | non-negative fields, rendered and read back, give the seconds they add up to |
| Duration.DurationShape | Telegram-Dashboard-Frontend-main/Telegram-Dashboard-Frontend-main/src/utils/durationUtils.js:6-26 | a non-negative duration renders as four colon-joined fields of at least two digits each |
| Duration.RoundTrip | Telegram-Dashboard-Frontend-main/Telegram-Dashboard-Frontend-main/src/utils/durationUtils.js:6-43 | reading back the rendering of a non-negative number of seconds gives the same number of seconds, with seconds as exact integers |
| Duration.NegativeSecond | Telegram-Dashboard-Frontend-main/Telegram-Dashboard-Frontend-main/src/utils/durationUtils.js:11-18 | a negative total is floored for the days but truncated for the rest: one second before zero renders as `-1:-1:-1:-1`, which reads back as a day, an hour, a minute and a second before zero |
| Duration.MinusOnesRead | Telegram-Dashboard-Frontend-main/Telegram-Dashboard-Frontend-main/src/utils/durationUtils.js:36-40 | `-1:-1:-1:-1` reads as minus one day, hour, minute and second |
| Duration.OnlyDigits | Telegram-Dashboard-Frontend-main/Telegram-Dashboard-Frontend-main/src/utils/durationUtils.js:52 | the result is all digits, no longer than the input, and a string of digits is left as it is |
| Duration.OnlyDigitsAppend | Telegram-Dashboard-Frontend-main/Telegram-Dashboard-Frontend-main/src/utils/durationUtils.js:52 | stripping non-digits distributes over concatenation |
| Duration.LastEight | Telegram-Dashboard-Frontend-main/Telegram-Dashboard-Frontend-main/src/utils/durationUtils.js:55 | eight digits: the last eight typed, or zeros in front of fewer |
| Duration.FormatDurationInput | Telegram-Dashboard-Frontend-main/Telegram-Dashboard-Frontend-main/src/utils/durationUtils.js:50-62 | the output is eleven characters and splits at the colons into four pairs of the last eight digits typed |
| Duration.FormatKeepsDigits | Telegram-Dashboard-Frontend-main/Telegram-Dashboard-Frontend-main/src/utils/durationUtils.js:50-62 | the digits of the output are the last eight digits typed |
| Duration.FormatIdempotent | Telegram-Dashboard-Frontend-main/Telegram-Dashboard-Frontend-main/src/utils/durationUtils.js:50-62 | formatting an already formatted value changes nothing |
| Duration.PairsRead | Telegram-Dashboard-Frontend-main/Telegram-Dashboard-Frontend-main/src/utils/durationUtils.js:58-61 | eight digits in pairs read back as two digits each of days, hours, minutes and seconds |
| Duration.FormattedIsDuration | Telegram-Dashboard-Frontend-main/Telegram-Dashboard-Frontend-main/src/utils/durationUtils.js:33-62 | whatever is typed, the formatted input reads back as the duration those last eight digits spell |
| UiUtils.CounterColorOf | Telegram-Dashboard-Frontend-main/Telegram-Dashboard-Frontend-main/src/utils/uiUtils.js:7-12 | with a positive limit: red exactly at or over the limit, orange exactly from four fifths of it up to the limit, gray exactly below four fifths; with a zero limit red exactly for a positive count and never orange |
| UiUtils.Rank | Telegram-Dashboard-Frontend-main/Telegram-Dashboard-Frontend-main/src/utils/uiUtils.js:9-11 | gray ranks lowest and red highest |
| UiUtils.SeverityMonotone | Telegram-Dashboard-Frontend-main/Telegram-Dashboard-Frontend-main/src/utils/uiUtils.js:7-12 | with a positive limit, a longer text never gets a less severe colour |
| UiUtils.EditorThresholds | Telegram-Dashboard-Frontend-main/Telegram-Dashboard-Frontend-main/src/components/SortableMessageItem.jsx:123 | the message limit of 4096 turns orange at 3277 characters, the question, explanation and option limits at 240, 160 and 80, and a count equal to the limit is red |
| FrontEntities.OrElse | Telegram-Dashboard-Frontend-main/Telegram-Dashboard-Frontend-main/src/pages/SendMessage.jsx:57 | `a \|\| b` on strings: the first when non-empty, else the second |
| FrontEntities.WithEntities | Telegram-Dashboard-Frontend-main/Telegram-Dashboard-Frontend-main/src/pages/SendMessage.jsx:56-58 | the map gains exactly the fetched entities' keys, other keys keep their values, and a key's value is the last fetched entity with that key |
| FrontEntities.Objects | Telegram-Dashboard-Frontend-main/Telegram-Dashboard-Frontend-main/src/pages/SendMessage.jsx:63-64 | exactly the populated entries of a folder |
| FrontEntities.WithEmbedded | Telegram-Dashboard-Frontend-main/Telegram-Dashboard-Frontend-main/src/pages/SendMessage.jsx:61-70 | a folder's populated entry is added under its id only where the key is free; existing keys keep their values and bare ids add nothing |
| FrontEntities.EmbeddedFirstWins | Telegram-Dashboard-Frontend-main/Telegram-Dashboard-Frontend-main/src/pages/SendMessage.jsx:61-70 | where several populated folder entries share a free id, the first one is the one stored |
| FrontEntities.FetchedEntitiesWin | Telegram-Dashboard-Frontend-main/Telegram-Dashboard-Frontend-main/src/pages/SendMessage.jsx:52-72 | a fetched entity is always found under its key and a folder's copy never replaces it |
| ChannelOrder.Ids | Telegram-Dashboard-Frontend-main/Telegram-Dashboard-Frontend-main/src/pages/SendMessage.jsx:77 | the ids of the entries, position by position |
| ChannelOrder.EntryFor | Telegram-Dashboard-Frontend-main/Telegram-Dashboard-Frontend-main/src/pages/SendMessage.jsx:81-100 | an unknown id gets the placeholder `Unknown Channel` of type channel; a known one gets the entity's type, a non-empty name, and the entity's own id when it has one |
| ChannelOrder.Kept | Telegram-Dashboard-Frontend-main/Telegram-Dashboard-Frontend-main/src/pages/SendMessage.jsx:78 | filtering never lengthens the list |
| ChannelOrder.Missing | Telegram-Dashboard-Frontend-main/Telegram-Dashboard-Frontend-main/src/pages/SendMessage.jsx:80-81 | never more new ids than selected ids |
| ChannelOrder.Entries | Telegram-Dashboard-Frontend-main/Telegram-Dashboard-Frontend-main/src/pages/SendMessage.jsx:80-101 | one entry per new id, in order |
| ChannelOrder.KeptMembers | Telegram-Dashboard-Frontend-main/Telegram-Dashboard-Frontend-main/src/pages/SendMessage.jsx:78 | an entry survives exactly when it was present and its id is still selected |
| ChannelOrder.MissingMembers | Telegram-Dashboard-Frontend-main/Telegram-Dashboard-Frontend-main/src/pages/SendMessage.jsx:80-81 | an id gets a new entry exactly when it is selected and had no entry |
| ChannelOrder.Sync | Telegram-Dashboard-Frontend-main/Telegram-Dashboard-Frontend-main/src/pages/SendMessage.jsx:76-104 | the updater's loop returns the survivors followed by one entry per newly selected id |
| ChannelOrder.KeepsIdEntry | Telegram-Dashboard-Frontend-main/Telegram-Dashboard-Frontend-main/src/pages/SendMessage.jsx:89 | an id the lookup table does not know, or knows under that same id, keeps its id in its entry |
| ChannelOrder.SyncCoversSelection | Telegram-Dashboard-Frontend-main/Telegram-Dashboard-Frontend-main/src/pages/SendMessage.jsx:75-105 | when ids resolve to themselves, after a sync every selected id has an entry and every entry is selected |
| ChannelOrder.SyncIdempotent | Telegram-Dashboard-Frontend-main/Telegram-Dashboard-Frontend-main/src/pages/SendMessage.jsx:75-105 | when ids resolve to themselves, a second sync with the same selection changes nothing |
| ChannelOrder.KeptIsSubsequence | Telegram-Dashboard-Frontend-main/Telegram-Dashboard-Frontend-main/src/pages/SendMessage.jsx:78 | the survivors keep their relative order |
| ChannelOrder.SyncKeepsIdsDistinct | Telegram-Dashboard-Frontend-main/Telegram-Dashboard-Frontend-main/src/pages/SendMessage.jsx:75-105 | with distinct selected ids that resolve to themselves, a list with distinct ids stays so |
| ScheduleTime.To12Hour | Telegram-Dashboard-Frontend-main/Telegram-Dashboard-Frontend-main/src/pages/SendMessage.jsx:164-165 | every 24-hour clock hour has a 12-hour spelling with an hour from 1 to 12 and AM or PM |
| ScheduleTime.ClockHourRange | Telegram-Dashboard-Frontend-main/Telegram-Dashboard-Frontend-main/src/pages/SendMessage.jsx:164-165 | hours 1 to 12 AM or PM convert into 0 to 23, AM exactly before noon |
| ScheduleTime.ClockHourRoundTrip | Telegram-Dashboard-Frontend-main/Telegram-Dashboard-Frontend-main/src/pages/SendMessage.jsx:164-165 | the conversion is a bijection between 12-hour spellings and 24-hour clock hours, in both directions |
| ScheduleTime.ReadScheduleTime | Telegram-Dashboard-Frontend-main/Telegram-Dashboard-Frontend-main/src/pages/SendMessage.jsx:159-168 | a readable time keeps the date input's text (`new Date` reads it as midnight UTC) and the hour and minutes for `setHours`; an unreadable one is "Invalid time value" |
| ScheduleTime.SetHoursDay | Telegram-Dashboard-Frontend-main/Telegram-Dashboard-Frontend-main/src/pages/SendMessage.jsx:166-167 | `setHours` works on the local day of midnight UTC: the chosen day east of UTC, the day before west of it |
| ScheduleTime.PickerValueReads | Telegram-Dashboard-Frontend-main/Telegram-Dashboard-Frontend-main/src/pages/SendMessage.jsx:160-167 | a picker value `hh:mm AM` or `hh:mm PM` reads as its hour converted to 24-hour time and its minutes |
| ScheduleTime.DefaultIsNoon | Telegram-Dashboard-Frontend-main/Telegram-Dashboard-Frontend-main/src/pages/SendMessage.jsx:28 | the picker's default `12:00 PM` is noon |
| QuizParse.QuestionPrefix | Telegram-Dashboard-Frontend-main/Telegram-Dashboard-Frontend-main/src/pages/QuizBuilder.jsx:216-217 | a matched question marker is a non-empty prefix of the line |
| QuizParse.ExplanationPrefix | Telegram-Dashboard-Frontend-main/Telegram-Dashboard-Frontend-main/src/pages/QuizBuilder.jsx:236-237 | a matched explanation marker is a prefix of the line |
| QuizParse.ContainsSchedule | Telegram-Dashboard-Frontend-main/Telegram-Dashboard-Frontend-main/src/pages/QuizBuilder.jsx:207 | a line holding the schedule phrase is at least 13 characters long |
| QuizParse.NonBlankLines | Telegram-Dashboard-Frontend-main/Telegram-Dashboard-Frontend-main/src/pages/QuizBuilder.jsx:201 | exactly the block's lines that are not blank |
| QuizParse.Finish | Telegram-Dashboard-Frontend-main/Telegram-Dashboard-Frontend-main/src/pages/QuizBuilder.jsx:250-279 | a quiz comes out exactly when there is a question and at least two options; it carries them and the explanation, the answer index clamped at 0, and a schedule exactly when both a date and a time line were seen |
| QuizParse.ParseBlock | Telegram-Dashboard-Frontend-main/Telegram-Dashboard-Frontend-main/src/pages/QuizBuilder.jsx:199-280 | the loop over the block's lines computes the block's quiz |
| QuizParse.ParseLine | Telegram-Dashboard-Frontend-main/Telegram-Dashboard-Frontend-main/src/pages/QuizBuilder.jsx:206-247 | one line advances the block's question, options, answer, explanation, date and time exactly as the parser's step does |
| QuizParse.StepOptions | Telegram-Dashboard-Frontend-main/Telegram-Dashboard-Frontend-main/src/pages/QuizBuilder.jsx:241-247 | a line adds at most one option, and only at the end |
| QuizParse.ContinuationCapped | Telegram-Dashboard-Frontend-main/Telegram-Dashboard-Frontend-main/src/pages/QuizBuilder.jsx:245-246 | once there are ten options, a line without an option marker adds none |
| QuizParse.ExplicitOptionsUncapped | Telegram-Dashboard-Frontend-main/Telegram-Dashboard-Frontend-main/src/pages/QuizBuilder.jsx:242-244 | an option line with a marker is still added after ten options |
| QuizParse.RunKeepsQuestionFirst | Telegram-Dashboard-Frontend-main/Telegram-Dashboard-Frontend-main/src/pages/QuizBuilder.jsx:205-248 | options are only ever collected once there is a question |
| QuizParse.StepAnswerLine | Telegram-Dashboard-Frontend-main/Telegram-Dashboard-Frontend-main/src/pages/QuizBuilder.jsx:225-233 | a short answer line, after the question, sets the answer as its text selects |
| QuizParse.AnswerLetter | Telegram-Dashboard-Frontend-main/Telegram-Dashboard-Frontend-main/src/pages/QuizBuilder.jsx:226-229 | `Answer:`, `Ans:` or `Correct:` followed by a letter A to J, in either case, selects options 0 to 9 |
| QuizParse.AnswerNumber | Telegram-Dashboard-Frontend-main/Telegram-Dashboard-Frontend-main/src/pages/QuizBuilder.jsx:226-230 | a numeric answer n selects option n - 1, so `Answer: 12` gives index 11 |
| QuizParse.GenericQuizzes | Telegram-Dashboard-Frontend-main/Telegram-Dashboard-Frontend-main/src/pages/QuizBuilder.jsx:282-292 | the quizzes of the blocks when any block gives one, otherwise at most the one quiz the whole text gives |
| QuizParse.ParseBlocks | Telegram-Dashboard-Frontend-main/Telegram-Dashboard-Frontend-main/src/pages/QuizBuilder.jsx:282-292 | the two loops compute the generic parser's result |
| QuizParse.CollectedWellFormed | Telegram-Dashboard-Frontend-main/Telegram-Dashboard-Frontend-main/src/pages/QuizBuilder.jsx:270-278 | every quiz found in the blocks has a question, at least two options and a non-negative answer index |
| QuizParse.GenericWellFormed | Telegram-Dashboard-Frontend-main/Telegram-Dashboard-Frontend-main/src/pages/QuizBuilder.jsx:270-292 | the same holds for whatever the generic parser returns |
| QuizParse.SchedulePhraseMatches | Telegram-Dashboard-Frontend-main/Telegram-Dashboard-Frontend-main/src/pages/QuizBuilder.jsx:176 | `scheduled on 1/1/2025 at 9 AM` matches the schedule pattern |
| QuizBuilder.Tagged | Telegram-Dashboard-Frontend-main/Telegram-Dashboard-Frontend-main/src/pages/QuizBuilder.jsx:295 | one list entry per parsed quiz, carrying its question, options, answer, explanation and schedule |
| QuizBuilder.TaggedIdsDistinct | Telegram-Dashboard-Frontend-main/Telegram-Dashboard-Frontend-main/src/pages/QuizBuilder.jsx:295 | quizzes tagged in one parse never share an id |
| QuizBuilder.GenericAsWritten | Telegram-Dashboard-Frontend-main/Telegram-Dashboard-Frontend-main/src/pages/QuizBuilder.jsx:174-192 | the generic parser fails exactly when the text holds a schedule phrase, and otherwise returns what the blocks give |
| QuizBuilder.Found | Telegram-Dashboard-Frontend-main/Telegram-Dashboard-Frontend-main/src/pages/QuizBuilder.jsx:294-300 | no quiz found exactly for an empty result |
| QuizBuilder.AsWrittenLosesScheduledParses | Telegram-Dashboard-Frontend-main/Telegram-Dashboard-Frontend-main/src/pages/QuizBuilder.jsx:132-168 | as written, a custom parse whose first quiz is scheduled is dropped in favour of the generic parser, and a schedule phrase in the text leaves the page stuck |
| QuizBuilder.ScheduledTextSticks | Telegram-Dashboard-Frontend-main/Telegram-Dashboard-Frontend-main/src/pages/QuizBuilder.jsx:132-192 | as written, the text `scheduled on 1/1/2025 at 9 AM` leaves the page stuck |
| QuizBuilder.ParseRawTextSettles | Telegram-Dashboard-Frontend-main/Telegram-Dashboard-Frontend-main/src/pages/QuizBuilder.jsx:132-171 | with the schedule state declared, parsing never gets stuck, a blank text is ignored, a custom parse is kept whole, otherwise the generic parser's well-formed quizzes are used; this agrees with the page wherever the page does not reach the undeclared setter |
| QuizBuilder.Edited | Telegram-Dashboard-Frontend-main/Telegram-Dashboard-Frontend-main/src/pages/QuizBuilder.jsx:320-324 | an edit changes only the named field |
| QuizBuilder.RemoveIndex | Telegram-Dashboard-Frontend-main/Telegram-Dashboard-Frontend-main/src/pages/QuizBuilder.jsx:345 | removing a valid index drops exactly that option and shifts the later ones down; any other index changes nothing |
| QuizBuilder.RemoveOptionKeepsAnswer | Telegram-Dashboard-Frontend-main/Telegram-Dashboard-Frontend-main/src/pages/QuizBuilder.jsx:341-356 | removing the answer resets it to 0; removing another option leaves the answer on the same option text |
| QuizBuilder.QuizList.constructor | Telegram-Dashboard-Frontend-main/Telegram-Dashboard-Frontend-main/src/pages/QuizBuilder.jsx:17 | the list holds the given quizzes |
| QuizBuilder.QuizList.RemoveQuiz | Telegram-Dashboard-Frontend-main/Telegram-Dashboard-Frontend-main/src/pages/QuizBuilder.jsx:303-307 | exactly the quiz at the index is removed; an index past the end changes nothing |
| QuizBuilder.QuizList.AddManual | Telegram-Dashboard-Frontend-main/Telegram-Dashboard-Frontend-main/src/pages/QuizBuilder.jsx:309-318 | a blank two-option quiz with answer 0 is appended |
| QuizBuilder.QuizList.UpdateQuiz | Telegram-Dashboard-Frontend-main/Telegram-Dashboard-Frontend-main/src/pages/QuizBuilder.jsx:320-324 | only the quiz at the index changes, by the edit |
| QuizBuilder.QuizList.UpdateOption | Telegram-Dashboard-Frontend-main/Telegram-Dashboard-Frontend-main/src/pages/QuizBuilder.jsx:326-332 | only the one option of the one quiz changes |
| QuizBuilder.QuizList.AddOption | Telegram-Dashboard-Frontend-main/Telegram-Dashboard-Frontend-main/src/pages/QuizBuilder.jsx:334-339 | nothing changes at ten options, otherwise one empty option is appended; option counts from 2 to 10 stay so |
| QuizBuilder.QuizList.RemoveOption | Telegram-Dashboard-Frontend-main/Telegram-Dashboard-Frontend-main/src/pages/QuizBuilder.jsx:341-356 | nothing changes at two options or fewer, otherwise the option goes and the answer follows its option; option counts from 2 to 10 stay so |
| QuizBuilder.QuizList.DuplicateQuiz | Telegram-Dashboard-Frontend-main/Telegram-Dashboard-Frontend-main/src/pages/QuizBuilder.jsx:358-363 | a copy with a fresh id is inserted right after the original |
| Text.Utf16Length | Telegram-Dashboard-Frontend-main/Telegram-Dashboard-Frontend-main/src/pages/QuizBuilder.jsx:395 | a string's `length` is between its number of characters and twice that: equal to it exactly when no character is outside the Basic Multilingual Plane, twice it exactly when all are |
| QuizBuilder.OptionsError | Telegram-Dashboard-Frontend-main/Telegram-Dashboard-Frontend-main/src/pages/QuizBuilder.jsx:407-418 | no error exactly when every option from that point is non-blank and at most 100 UTF-16 units long |
| QuizBuilder.QuizError | Telegram-Dashboard-Frontend-main/Telegram-Dashboard-Frontend-main/src/pages/QuizBuilder.jsx:390-418 | a quiz is rejected exactly when it breaks a poll limit, lengths counted in UTF-16 units as JavaScript's `length` counts them |
| QuizBuilder.AstralQuestionRejected | Telegram-Dashboard-Frontend-main/Telegram-Dashboard-Frontend-main/src/pages/QuizBuilder.jsx:395-397 | a question of 151 characters outside the Basic Multilingual Plane is 302 units long and is rejected with that length |
| QuizBuilder.FirstQuizError | Telegram-Dashboard-Frontend-main/Telegram-Dashboard-Frontend-main/src/pages/QuizBuilder.jsx:387-419 | no error exactly when every quiz from that point is valid |
| QuizBuilder.SubmitAcceptedIff | Telegram-Dashboard-Frontend-main/Telegram-Dashboard-Frontend-main/src/pages/QuizBuilder.jsx:370-419 | submission goes ahead exactly when there is a name, a quiz and a target, and every quiz is within the poll limits |
| QuizBuilder.ValidateSubmission | Telegram-Dashboard-Frontend-main/Telegram-Dashboard-Frontend-main/src/pages/QuizBuilder.jsx:370-419 | the guards and the nested loops return the first error in order, or none |
| QuizBuilder.ChatIds | Telegram-Dashboard-Frontend-main/Telegram-Dashboard-Frontend-main/src/pages/QuizBuilder.jsx:458-461 | each id resolved to its chat id, in order |
| QuizBuilder.PollTargets | Telegram-Dashboard-Frontend-main/Telegram-Dashboard-Frontend-main/src/pages/QuizBuilder.jsx:458-473 | the selection in selection order, or the priority list in delay mode, resolved to chat ids |
| QuizBuilder.PayloadFor | Telegram-Dashboard-Frontend-main/Telegram-Dashboard-Frontend-main/src/pages/QuizBuilder.jsx:423-488 | the payload carries the trimmed name with its part suffix, the quiz's question, options, answer and explanation, the targets and the delay; a quiz's own schedule wins; only an unreadable global schedule fails |
| QuizBuilder.PartNames | Telegram-Dashboard-Frontend-main/Telegram-Dashboard-Frontend-main/src/pages/QuizBuilder.jsx:424 | a single quiz keeps the plain name; with several, no two names coincide |
| QuizBuilder.SubmitQuizzes | Telegram-Dashboard-Frontend-main/Telegram-Dashboard-Frontend-main/src/pages/QuizBuilder.jsx:366-503 | rejected exactly when validation fails, with its message; otherwise one payload per quiz in list order, stopping at the first quiz whose schedule throws |
| QuizBuilder.NoScheduleFailure | Telegram-Dashboard-Frontend-main/Telegram-Dashboard-Frontend-main/src/pages/QuizBuilder.jsx:430-444 | with a readable picker value, or outside schedule mode, every quiz is sent |
| Messages.ObjectUrl | Telegram-Dashboard-Frontend-main/Telegram-Dashboard-Frontend-main/src/components/SortableMessageItem.jsx:38 | an object URL is never empty |
| MessageList.Applied | Telegram-Dashboard-Frontend-main/Telegram-Dashboard-Frontend-main/src/components/MessageList.jsx:46 | an edit sets only the named field and keeps the id |
| MessageList.FindMessage | Telegram-Dashboard-Frontend-main/Telegram-Dashboard-Frontend-main/src/components/MessageList.jsx:31-32 | the first position with the id, or -1 exactly when no message has it |
| MessageList.ArrayMove | Telegram-Dashboard-Frontend-main/Telegram-Dashboard-Frontend-main/src/components/MessageList.jsx:33 | a target inside the list is the splice move; a target of -1 puts the message last |
| MessageList.DragEnd | Telegram-Dashboard-Frontend-main/Telegram-Dashboard-Frontend-main/src/components/MessageList.jsx:26-36 | dropping on itself changes nothing; otherwise the list is a permutation with the dragged message at the target's position and the others in their relative order |
| MessageList.AddMessage | Telegram-Dashboard-Frontend-main/Telegram-Dashboard-Frontend-main/src/components/MessageList.jsx:38-43 | the old list followed by one empty message without media |
| MessageList.UpdateMessage | Telegram-Dashboard-Frontend-main/Telegram-Dashboard-Frontend-main/src/components/MessageList.jsx:45-47 | every message with the id gets the edit, the others are untouched, the order stays |
| MessageList.Without | Telegram-Dashboard-Frontend-main/Telegram-Dashboard-Frontend-main/src/components/MessageList.jsx:51 | the filter never lengthens the list |
| MessageList.WithoutMembers | Telegram-Dashboard-Frontend-main/Telegram-Dashboard-Frontend-main/src/components/MessageList.jsx:51 | the filter keeps exactly the messages with another id |
| MessageList.DeleteMessage | Telegram-Dashboard-Frontend-main/Telegram-Dashboard-Frontend-main/src/components/MessageList.jsx:49-52 | the last remaining message is never deleted; otherwise exactly the messages with another id remain |
| MessageList.WithoutOne | Telegram-Dashboard-Frontend-main/Telegram-Dashboard-Frontend-main/src/components/MessageList.jsx:51 | with distinct ids, deleting the message at a position removes exactly it and keeps the others in order |
| MessageList.DeleteKeepsOne | Telegram-Dashboard-Frontend-main/Telegram-Dashboard-Frontend-main/src/components/MessageList.jsx:49-52 | deletion never empties a list of distinct messages and removes at most one |
| MessageList.AddThenDelete | Telegram-Dashboard-Frontend-main/Telegram-Dashboard-Frontend-main/src/components/MessageList.jsx:38-52 | deleting the message just added gives back the list it was added to |
| MessageList.UpdateProperties | Telegram-Dashboard-Frontend-main/Telegram-Dashboard-Frontend-main/src/components/MessageList.jsx:45-47 | editing an id no message has changes nothing, and repeating an edit changes nothing more |
| MessageItem.SelectedKind | Telegram-Dashboard-Frontend-main/Telegram-Dashboard-Frontend-main/src/components/SortableMessageItem.jsx:57-59 | photo exactly for an `image/` type, video exactly for a `video/` type that is not an image, document otherwise |
| MessageItem.NewItem | Telegram-Dashboard-Frontend-main/Telegram-Dashboard-Frontend-main/src/components/SortableMessageItem.jsx:61-68 | the item carries the id, the file, its name and size and its kind, and has a preview exactly when it is a photo |
| MessageItem.NewMedia | Telegram-Dashboard-Frontend-main/Telegram-Dashboard-Frontend-main/src/components/SortableMessageItem.jsx:56-69 | one item per selected file, in selection order |
| MessageItem.FileChange | Telegram-Dashboard-Frontend-main/Telegram-Dashboard-Frontend-main/src/components/SortableMessageItem.jsx:52-54 | an empty selection changes nothing |
| MessageItem.FileChangeAppends | Telegram-Dashboard-Frontend-main/Telegram-Dashboard-Frontend-main/src/components/SortableMessageItem.jsx:52-73 | the current media come first and unchanged, then one item per file carrying it, with a preview exactly for images |
| MessageItem.Normalised | Telegram-Dashboard-Frontend-main/Telegram-Dashboard-Frontend-main/src/components/SortableMessageItem.jsx:25-46 | a falsy value (no media, the empty string) gives an empty list, an array is kept, a single value with an id becomes a one-element list, a raw file is wrapped under the legacy id with its object URL as preview; any other single value (a non-empty URL string, an item without an id) makes `createObjectURL` throw |
| MessageItem.NormalisedIsStable | Telegram-Dashboard-Frontend-main/Telegram-Dashboard-Frontend-main/src/components/SortableMessageItem.jsx:25-46 | normalising the list the card writes back changes nothing more |
| MediaList.FindIndex | Telegram-Dashboard-Frontend-main/Telegram-Dashboard-Frontend-main/src/components/SortableMediaList.jsx:19-20 | the first position with the id, or -1 exactly when no item has it |
| MediaList.SpliceStart | Telegram-Dashboard-Frontend-main/Telegram-Dashboard-Frontend-main/src/components/SortableMediaList.jsx:23-24 | a splice start within the list is used as it is, and every start lands within the list |
| MediaList.Moved | Telegram-Dashboard-Frontend-main/Telegram-Dashboard-Frontend-main/src/components/SortableMediaList.jsx:22-24 | a move keeps the length |
| MediaList.DragEnd | Telegram-Dashboard-Frontend-main/Telegram-Dashboard-Frontend-main/src/components/SortableMediaList.jsx:15-28 | dropping on itself changes nothing; otherwise the dragged item is spliced out of a copy and back in at the target's index |
| MediaList.MoveProperties | Telegram-Dashboard-Frontend-main/Telegram-Dashboard-Frontend-main/src/components/SortableMediaList.jsx:22-24 | a move is a permutation that puts the item at the target and leaves the others in their relative order |
| MediaList.MoveBack | Telegram-Dashboard-Frontend-main/Telegram-Dashboard-Frontend-main/src/components/SortableMediaList.jsx:22-24 | moving the item back from where it landed restores the list |
| MediaList.Removed | Telegram-Dashboard-Frontend-main/Telegram-Dashboard-Frontend-main/src/components/SortableMediaList.jsx:50 | removal never lengthens the list |
| MediaList.RemovedMembers | Telegram-Dashboard-Frontend-main/Telegram-Dashboard-Frontend-main/src/components/SortableMediaList.jsx:50 | removal drops exactly the items with that id and keeps a sub-multiset of the others |
| Preview.PreviewMessages | Telegram-Dashboard-Frontend-main/Telegram-Dashboard-Frontend-main/src/components/TelegramPreview.jsx:10 | a single message becomes a one-element list, an array is used as it is |
| Preview.FileKind | Telegram-Dashboard-Frontend-main/Telegram-Dashboard-Frontend-main/src/components/TelegramPreview.jsx:290 | video exactly for a type starting `video`, photo for one starting `image` that is not a video, document otherwise |
| Preview.UrlKind | Telegram-Dashboard-Frontend-main/Telegram-Dashboard-Frontend-main/src/components/TelegramPreview.jsx:295 | video exactly for a URL ending in .mp4, .mov or .avi in any case, photo otherwise |
| Preview.ItemMedia | Telegram-Dashboard-Frontend-main/Telegram-Dashboard-Frontend-main/src/components/TelegramPreview.jsx:307-320 | an item object is shown exactly when it has a source or is a document, with that source, its type or photo, and its own name when it has one |
| Preview.ElementMedia | Telegram-Dashboard-Frontend-main/Telegram-Dashboard-Frontend-main/src/components/TelegramPreview.jsx:297-322 | a File or a URL always contributes one entry, an item object at most one |
| Preview.ElementsMedia | Telegram-Dashboard-Frontend-main/Telegram-Dashboard-Frontend-main/src/components/TelegramPreview.jsx:296-323 | never more entries than array elements |
| Preview.BuildMediaList | Telegram-Dashboard-Frontend-main/Telegram-Dashboard-Frontend-main/src/components/TelegramPreview.jsx:286-323 | the pushes build the bubble's media list |
| Preview.PlainElementsAllShown | Telegram-Dashboard-Frontend-main/Telegram-Dashboard-Frontend-main/src/components/TelegramPreview.jsx:297-306 | an array of Files and URLs shows every element, in order |
| Preview.ElementsMediaAppend | Telegram-Dashboard-Frontend-main/Telegram-Dashboard-Frontend-main/src/components/TelegramPreview.jsx:297 | appending an element appends its entries, so the list follows the array's order |
| Preview.GridClass | Telegram-Dashboard-Frontend-main/Telegram-Dashboard-Frontend-main/src/components/TelegramPreview.jsx:325-327 | one column for at most one entry, two columns beyond |
| Preview.IsPollIff | Telegram-Dashboard-Frontend-main/Telegram-Dashboard-Frontend-main/src/components/TelegramPreview.jsx:265-284 | a poll question alone makes a poll bubble; without one, exactly the type `poll` (the message's own, or the preview's when it has none) does |
| Preview.Drawn | Telegram-Dashboard-Frontend-main/Telegram-Dashboard-Frontend-main/src/components/TelegramPreview.jsx:263 | filtering never lengthens the list |
| Preview.DrawnMembers | Telegram-Dashboard-Frontend-main/Telegram-Dashboard-Frontend-main/src/components/TelegramPreview.jsx:263 | exactly the messages with content, text or a poll question are drawn |
| Preview.TargetThumb | Telegram-Dashboard-Frontend-main/Telegram-Dashboard-Frontend-main/src/components/TelegramPreview.jsx:24-40 | a thumbnail always has a source |
| Preview.ThumbUsesFirstOnly | Telegram-Dashboard-Frontend-main/Telegram-Dashboard-Frontend-main/src/components/TelegramPreview.jsx:14-43 | the notification thumbnail depends only on the first media value of the first message |
| SendMessage.MessageType | Telegram-Dashboard-Frontend-main/Telegram-Dashboard-Frontend-main/src/pages/SendMessage.jsx:133 | `multi_message` exactly for more than one message, `message` otherwise |
| SendMessage.ContentMessages | Telegram-Dashboard-Frontend-main/Telegram-Dashboard-Frontend-main/src/pages/SendMessage.jsx:136-139 | one `{ id, text }` per message, in order, carrying its id and content |
| SendMessage.Targets | Telegram-Dashboard-Frontend-main/Telegram-Dashboard-Frontend-main/src/pages/SendMessage.jsx:147-150 | the priority list's ids in delay mode, the selection otherwise |
| SendMessage.ScheduledEntries | Telegram-Dashboard-Frontend-main/Telegram-Dashboard-Frontend-main/src/pages/SendMessage.jsx:159-169 | a `scheduledAt` field exactly in schedule mode with a date and a readable time; only schedule mode can throw |
| SendMessage.ArrayEntries | Telegram-Dashboard-Frontend-main/Telegram-Dashboard-Frontend-main/src/pages/SendMessage.jsx:179-183 | one `media_<id>` field per array element |
| SendMessage.HandleSubmit | Telegram-Dashboard-Frontend-main/Telegram-Dashboard-Frontend-main/src/pages/SendMessage.jsx:123-192 | the checks and the append loops build the form the handler posts |
| SendMessage.AppendFixed | Telegram-Dashboard-Frontend-main/Telegram-Dashboard-Frontend-main/src/pages/SendMessage.jsx:132-151 | the name, type, content and targets are appended in that order; in delay mode the targets follow the ordered list |
| SendMessage.AppendSettings | Telegram-Dashboard-Frontend-main/Telegram-Dashboard-Frontend-main/src/pages/SendMessage.jsx:171-173 | the scheduling config is appended, then `expiryHours` only when it is set |
| SendMessage.AppendArrayFiles | Telegram-Dashboard-Frontend-main/Telegram-Dashboard-Frontend-main/src/pages/SendMessage.jsx:179-183 | the inner loop appends one field per element, in order |
| SendMessage.AppendMedia | Telegram-Dashboard-Frontend-main/Telegram-Dashboard-Frontend-main/src/pages/SendMessage.jsx:176-189 | the outer loop appends every message's media fields, message by message |
| SendMessage.AlertIff | Telegram-Dashboard-Frontend-main/Telegram-Dashboard-Frontend-main/src/pages/SendMessage.jsx:127-129 | an alert, and no request, exactly without a name, a message or a target |
| SendMessage.Keys | Telegram-Dashboard-Frontend-main/Telegram-Dashboard-Frontend-main/src/pages/SendMessage.jsx:131-189 | the field names of the form, in order |
| SendMessage.MediaKeysArePrefixed | Telegram-Dashboard-Frontend-main/Telegram-Dashboard-Frontend-main/src/pages/SendMessage.jsx:176-189 | every media field is named after one of the messages |
| SendMessage.MediaHasNoScheduledAt | Telegram-Dashboard-Frontend-main/Telegram-Dashboard-Frontend-main/src/pages/SendMessage.jsx:176-189 | no media field is named `scheduledAt` |
| SendMessage.PostedForm | Telegram-Dashboard-Frontend-main/Telegram-Dashboard-Frontend-main/src/pages/SendMessage.jsx:131-151 | a posted form starts with the trimmed name, the type, the content and the targets |
| SendMessage.PostedScheduledAt | Telegram-Dashboard-Frontend-main/Telegram-Dashboard-Frontend-main/src/pages/SendMessage.jsx:159-169 | a posted form has a `scheduledAt` field exactly in schedule mode with a date and a time |
| SendMessage.SchedulingDelay | Telegram-Dashboard-Frontend-main/Telegram-Dashboard-Frontend-main/src/pages/SendMessage.jsx:154-157 | the scheduling config carries the mode, and the delay only in delay mode |
| SendMessage.MediaValues | Telegram-Dashboard-Frontend-main/Telegram-Dashboard-Frontend-main/src/pages/SendMessage.jsx:176-189 | every media field holds a file part |
| SendMessage.MediaOrder | Telegram-Dashboard-Frontend-main/Telegram-Dashboard-Frontend-main/src/pages/SendMessage.jsx:176-189 | the media fields follow the message order and, within a message, the order of its media array |
| FolderTree.SetDelete | Telegram-Dashboard-Frontend-main/Telegram-Dashboard-Frontend-main/src/components/FolderTreeSelector.jsx:68 | exactly the other elements remain, still without repeats |
| FolderTree.AddAllContents | Telegram-Dashboard-Frontend-main/Telegram-Dashboard-Frontend-main/src/components/FolderTreeSelector.jsx:64-70 | adding keeps what was there in its order, adds every new element, and never repeats one |
| FolderTree.DeleteAllContents | Telegram-Dashboard-Frontend-main/Telegram-Dashboard-Frontend-main/src/components/FolderTreeSelector.jsx:64-70 | deleting leaves exactly the elements not deleted, without repeats |
| FolderTree.AddAllAppend | Telegram-Dashboard-Frontend-main/Telegram-Dashboard-Frontend-main/src/components/FolderTreeSelector.jsx:82-92 | adding two lists in turn is adding their concatenation |
| FolderTree.FromArrayContents | Telegram-Dashboard-Frontend-main/Telegram-Dashboard-Frontend-main/src/components/FolderTreeSelector.jsx:64 | a set built from the selection holds exactly its ids, without repeats |
| FolderTree.RefIds | Telegram-Dashboard-Frontend-main/Telegram-Dashboard-Frontend-main/src/components/FolderTreeSelector.jsx:66 | each entry's id, in order |
| FolderTree.FolderCheck | Telegram-Dashboard-Frontend-main/Telegram-Dashboard-Frontend-main/src/components/FolderTreeSelector.jsx:62-71 | the loop adds or deletes every id of the folder on a copy of the selection |
| FolderTree.FolderCheckContents | Telegram-Dashboard-Frontend-main/Telegram-Dashboard-Frontend-main/src/components/FolderTreeSelector.jsx:62-71 | checking gives the selection plus the folder's ids, unchecking the selection minus them; neither repeats an id and checking keeps the earlier selection first |
| FolderTree.ChannelCheckContents | Telegram-Dashboard-Frontend-main/Telegram-Dashboard-Frontend-main/src/components/FolderTreeSelector.jsx:73-78 | checking a channel adds exactly its id, unchecking removes exactly its id |
| FolderTree.PresentIdsMembers | Telegram-Dashboard-Frontend-main/Telegram-Dashboard-Frontend-main/src/components/FolderTreeSelector.jsx:83-86 | the ids gathered from a folder are exactly its non-empty entry ids |
| FolderTree.AddPresent | Telegram-Dashboard-Frontend-main/Telegram-Dashboard-Frontend-main/src/components/FolderTreeSelector.jsx:83-86 | the inner loop adds each present id of one folder |
| FolderTree.AddEach | Telegram-Dashboard-Frontend-main/Telegram-Dashboard-Frontend-main/src/components/FolderTreeSelector.jsx:92 | the loop adds each gathered id in turn |
| FolderTree.SelectAll | Telegram-Dashboard-Frontend-main/Telegram-Dashboard-Frontend-main/src/components/FolderTreeSelector.jsx:80-94 | the loops compute the Select All selection |
| FolderTree.SelectAllContents | Telegram-Dashboard-Frontend-main/Telegram-Dashboard-Frontend-main/src/components/FolderTreeSelector.jsx:80-94 | Select All adds every non-empty id shown and removes nothing, keeping the earlier selection first and repeating no id |
| FolderTree.ClearedAll | Telegram-Dashboard-Frontend-main/Telegram-Dashboard-Frontend-main/src/components/FolderTreeSelector.jsx:96-98 | Clear All leaves nothing selected |
| FolderTree.ValidRefs | Telegram-Dashboard-Frontend-main/Telegram-Dashboard-Frontend-main/src/components/FolderTreeSelector.jsx:152 | exactly the entries with a non-empty id |
| FolderTree.SelectedCount | Telegram-Dashboard-Frontend-main/Telegram-Dashboard-Frontend-main/src/components/FolderTreeSelector.jsx:153 | the count reaches the number of entries exactly when all are selected, and is positive exactly when one is |
| FolderTree.FlagsMeaning | Telegram-Dashboard-Frontend-main/Telegram-Dashboard-Frontend-main/src/components/FolderTreeSelector.jsx:152-156 | fully checked exactly when the folder has a valid entity and all are selected, half checked exactly when some but not all are, never both |
| FolderTree.ClearedFlags | Telegram-Dashboard-Frontend-main/Telegram-Dashboard-Frontend-main/src/components/FolderTreeSelector.jsx:96-98 | after Clear All no folder is checked or half checked |
| FolderTree.MatchingRefs | Telegram-Dashboard-Frontend-main/Telegram-Dashboard-Frontend-main/src/components/FolderTreeSelector.jsx:18-28 | exactly the entries whose resolved name contains the search term, ignoring case |
| FolderTree.FilterFolder | Telegram-Dashboard-Frontend-main/Telegram-Dashboard-Frontend-main/src/components/FolderTreeSelector.jsx:13-40 | a folder is kept exactly when its name or one of its entries matches; a matching name keeps it whole, otherwise only the matching entries remain |
| FolderTree.FilterAll | Telegram-Dashboard-Frontend-main/Telegram-Dashboard-Frontend-main/src/components/FolderTreeSelector.jsx:13-41 | never more folders than there were |
| FolderTree.FilteredFolders | Telegram-Dashboard-Frontend-main/Telegram-Dashboard-Frontend-main/src/components/FolderTreeSelector.jsx:9-10 | a blank search shows every folder |
| FolderTree.FilterAllMembers | Telegram-Dashboard-Frontend-main/Telegram-Dashboard-Frontend-main/src/components/FolderTreeSelector.jsx:13-41 | under a search the shown folders are exactly the kept filter results |
| History.EndOfDay | Telegram-Dashboard-Frontend-main/Telegram-Dashboard-Frontend-main/src/pages/History.jsx:48 | the "to" bound is the last second of the chosen day, 86 399 000 ms after its midnight |
| History.Filtered | Telegram-Dashboard-Frontend-main/Telegram-Dashboard-Frontend-main/src/pages/History.jsx:22-53 | the filtered list is never longer than the task list |
| History.FilteredMembers | Telegram-Dashboard-Frontend-main/Telegram-Dashboard-Frontend-main/src/pages/History.jsx:22-53 | a task is shown exactly when it is in the list and its name contains the search ignoring case, the user and status filters are empty or equal, and its date fits the preset |
| History.CustomRangeInclusive | Telegram-Dashboard-Frontend-main/Telegram-Dashboard-Frontend-main/src/pages/History.jsx:46-50 | a custom range with both ends keeps exactly the dates from the "from" instant through 23:59:59 of the "to" day |
| History.PartiallyCompletedOptionMatchesNothing | Telegram-Dashboard-Frontend-main/Telegram-Dashboard-Frontend-main/src/pages/History.jsx:183 | choosing the "Partially Completed" option, whose value is spelt with a space, hides every task |
| History.CorrectedOptionsMatch | Telegram-Dashboard-Frontend-main/Telegram-Dashboard-Frontend-main/src/pages/History.jsx:181-186 | with the stored spelling every non-empty status option selects exactly the tasks in one status |
| History.TaskRows | Telegram-Dashboard-Frontend-main/Telegram-Dashboard-Frontend-main/src/pages/History.jsx:56-76 | a multi-message task with messages gives one part row per message, in order; any other task gives a single row keyed by its task id with its own text and media |
| History.PartRows | Telegram-Dashboard-Frontend-main/Telegram-Dashboard-Frontend-main/src/pages/History.jsx:58-73 | the part rows of one task have distinct keys, point at their parent task and show their own message's text |
| History.DisplayRowCount | Telegram-Dashboard-Frontend-main/Telegram-Dashboard-Frontend-main/src/pages/History.jsx:56-76 | the table has one row per task except one per message for expanded tasks, so never fewer rows than tasks |
| History.ActionsExclusive | Telegram-Dashboard-Frontend-main/Telegram-Dashboard-Frontend-main/src/pages/History.jsx:295-304 | retry and undo are never both offered, and a part row offers the same buttons its task would |
| Dashboard.Filter | Telegram-Dashboard-Frontend-main/Telegram-Dashboard-Frontend-main/src/pages/Dashboard.jsx:12 | filtering never lengthens the list |
| Dashboard.FilterMembers | Telegram-Dashboard-Frontend-main/Telegram-Dashboard-Frontend-main/src/pages/Dashboard.jsx:12 | filtering keeps exactly the elements satisfying the predicate |
| Dashboard.CountStatusAppend | Telegram-Dashboard-Frontend-main/Telegram-Dashboard-Frontend-main/src/pages/Dashboard.jsx:12-26 | a status count grows by one exactly when the added task has that status |
| Dashboard.StatusCountsBounded | Telegram-Dashboard-Frontend-main/Telegram-Dashboard-Frontend-main/src/pages/Dashboard.jsx:12-26 | the completed, pending and expired cards together never count more tasks than there are |
| Dashboard.TotalRecipientsAppend | Telegram-Dashboard-Frontend-main/Telegram-Dashboard-Frontend-main/src/pages/Dashboard.jsx:13 | the recipients total adds up over any split of the task list |
| Dashboard.TotalRecipientsBound | Telegram-Dashboard-Frontend-main/Telegram-Dashboard-Frontend-main/src/pages/Dashboard.jsx:13 | with no negative counts, each task's recipients are within the total |
| Dashboard.TotalRecipientsNonNegative | Telegram-Dashboard-Frontend-main/Telegram-Dashboard-Frontend-main/src/pages/Dashboard.jsx:13 | with no negative counts the total is not negative |
| Dashboard.ScheduledCard | Telegram-Dashboard-Frontend-main/Telegram-Dashboard-Frontend-main/src/pages/Dashboard.jsx:16-80 | the scheduled card holds exactly the pending tasks with a date later than now and lists the first three of them in order; the sent figure holds exactly the completed tasks with a date, and no task is in both |
| Dashboard.ExpiresAt | Telegram-Dashboard-Frontend-main/Telegram-Dashboard-Frontend-main/src/pages/Dashboard.jsx:19-21 | an expiry exists exactly for a completed task with a positive expiry and a completion time, and it is later than the completion |
| Dashboard.ActiveExpiryMembers | Telegram-Dashboard-Frontend-main/Telegram-Dashboard-Frontend-main/src/pages/Dashboard.jsx:18-24 | the active list holds exactly the tasks whose computed expiry is later than now, each with that expiry |
| Dashboard.TakeSoonest | Telegram-Dashboard-Frontend-main/Telegram-Dashboard-Frontend-main/src/pages/Dashboard.jsx:88 | the first three after sorting by expiry are in order, form a permutation with the rest, and none of the rest expires earlier |
| Dashboard.ExpiryCardSoonest | Telegram-Dashboard-Frontend-main/Telegram-Dashboard-Frontend-main/src/pages/Dashboard.jsx:88 | the expiry card shows min(3, active) tasks, soonest first, and every active task left out expires no earlier than any shown |
| Analytics.FindX | Telegram-Dashboard-Frontend-main/Telegram-Dashboard-Frontend-main/src/pages/Analytics.jsx:18 | the x column found is a column keyed "x", and none is found exactly when no column has that key |
| Analytics.NoXNoPoints | Telegram-Dashboard-Frontend-main/Telegram-Dashboard-Frontend-main/src/pages/Analytics.jsx:15-19 | without columns or without an x column the chart has no points |
| Analytics.PointForOk | Telegram-Dashboard-Frontend-main/Telegram-Dashboard-Frontend-main/src/pages/Analytics.jsx:25-32 | building a point fails exactly when some non-x column's key is missing from the names table |
| Analytics.PointForField | Telegram-Dashboard-Frontend-main/Telegram-Dashboard-Frontend-main/src/pages/Analytics.jsx:25-32 | a column's value lands under its lower-cased name unless a later column takes the same name |
| Analytics.PointForDate | Telegram-Dashboard-Frontend-main/Telegram-Dashboard-Frontend-main/src/pages/Analytics.jsx:23-32 | the point's date label stays unless some column is itself named "date" |
| Analytics.PointsForShape | Telegram-Dashboard-Frontend-main/Telegram-Dashboard-Frontend-main/src/pages/Analytics.jsx:22-34 | there is one point per x value, each built from its own x value and position, and the map fails only when a name is missing and there is a point to build |
| Analytics.ParseGraphShape | Telegram-Dashboard-Frontend-main/Telegram-Dashboard-Frontend-main/src/pages/Analytics.jsx:14-37 | a graph with an x column gives one point per x value and fails only when a name is missing and there is a point to build |
| Analytics.ParseGraphField | Telegram-Dashboard-Frontend-main/Telegram-Dashboard-Frontend-main/src/pages/Analytics.jsx:22-32 | point i holds column k's i-th value under the column's lower-cased name, unless a later column takes the same name |
| Analytics.Totals | Telegram-Dashboard-Frontend-main/Telegram-Dashboard-Frontend-main/src/pages/Analytics.jsx:129-141 | the four running totals are the sums of every receipt's counters over every task |
| Analytics.TotalAppend | Telegram-Dashboard-Frontend-main/Telegram-Dashboard-Frontend-main/src/pages/Analytics.jsx:134-141 | each total adds up over any split of the task list |
| Analytics.ReceiptSumNonNegative | Telegram-Dashboard-Frontend-main/Telegram-Dashboard-Frontend-main/src/pages/Analytics.jsx:316-317 | with no negative counters a task's sum is not negative |
| Analytics.TaskSumWithinTotal | Telegram-Dashboard-Frontend-main/Telegram-Dashboard-Frontend-main/src/pages/Analytics.jsx:134-141 | with no negative counters each task's sum in the activity list is within the page-wide total |
| Analytics.TotalNonNegative | Telegram-Dashboard-Frontend-main/Telegram-Dashboard-Frontend-main/src/pages/Analytics.jsx:134-141 | with no negative counters each total is not negative |
| Analytics.RecentActivity | Telegram-Dashboard-Frontend-main/Telegram-Dashboard-Frontend-main/src/pages/Analytics.jsx:315-317 | the activity list shows the first ten tasks (fewer if there are fewer), in order, each with its own views and reactions sums |
| Analytics.ChartData | Telegram-Dashboard-Frontend-main/Telegram-Dashboard-Frontend-main/src/pages/Analytics.jsx:118-126 | the chart has one row per task |
| Analytics.ChartDataAt | Telegram-Dashboard-Frontend-main/Telegram-Dashboard-Frontend-main/src/pages/Analytics.jsx:118-126 | row i is built from task n-1-i: the list reversed |
| Analytics.ChartOldestFirst | Telegram-Dashboard-Frontend-main/Telegram-Dashboard-Frontend-main/src/pages/Analytics.jsx:118-126 | a newest-first task list gives a chart whose rows run oldest first |

## Left out

- The task processor, the queue workers and the expiry service are not part of this model. `processTask` is an abstract "processed now / later" outcome, and the final status a run gets is not invented.
- The network, the clock and timers are parameters:
  - Bot API answers and database saves that fail are outcome functions of the position, and Python service replies are inputs (the Telegram sync's `/dialogs` reply a `Result`, whose failure is answered 500);
  - `setTimeout`, the 200 ms and recipient waits are recorded as delays;
  - `Date.now()` and the browser's local midnights are given as integers.
- Floating point is left out:
  - durations are whole seconds, `floor(hours * 3600)` (see `Duration.RoundTrip` below);
  - the 80% counter threshold is compared by integer cross-multiplication;
  - fractional `expiryHours` are whole hours in `Dashboard.ExpiresAt`.
- `Date` parsing, ISO rendering and `toLocaleDateString` are not modelled. Dates are milliseconds, a date input's text is kept as text, and a chart's date label keeps the timestamp. The one consequence of parsing the schedule date that matters, the day `setHours` lands on, is `ScheduleTime.SetHoursDay`, stated on day numbers rather than on the date text.
- `toLowerCase` and `toUpperCase` fold ASCII letters only, and `trim` removes ASCII white space only.
- `URL.createObjectURL` is a fixed function of the file, not a fresh URL per call.
- Regular expressions are written out as matchers. The quiz builder's block split on blank lines (`split(/\n\s*\n/)`) is an input: the blocks are given. So is the Word-document parser's result.
- The mongoose `username` trim setter, `lastActiveAt` and the name sort of the entity list are not modelled. `EntitySync.EntityStore.List` returns a set.
- TaskRoutes.FolderIds: a JSON object sent as `folderIds` or `targetIds` is not modelled, and the elements of a parsed array are kept as their text. The cast of folder ids to ObjectIds when the task is saved is not modelled either; an id that is not 24 hex digits would make that save fail.
- Character positions: the parsers index strings by character (`t[0]`, `slice`), where JavaScript indexes UTF-16 units. The two agree on every character of the Basic Multilingual Plane, which all the markers and digits they look for are. Lengths compared with a limit are UTF-16 units (`Text.Utf16Length`); `UiUtils.CounterColorOf` takes the count its caller measured.
- TaskRoutes.Schedule: the `uuidv4()` task id is the parameter `newId`, and an id already stored is answered with the duplicate-key error. Ids the pages draw from `Date.now()` or `Math.random` are parameters too.
- Text.JsNumber: reads blank text and optionally signed decimal integers only. Exponents, fractions and hexadecimal forms, which `Number()` also accepts, give `None`.
- The folder tree's expanded-folder state (auto-expand on search, toggle) is display state and is not modelled.
- React state batching and re-rendering are not modelled. Each handler is a function from the current state to the next.
- MediaList.DragEnd: requires the dragged item to be in the list. dnd-kit only reports items it rendered. A drop with no `over` target is not modelled.
- MessageList.DragEnd: requires the dragged message to be in the list, for the same reason. A drop with no `over` target, where reading `over.id` throws, is not modelled.
- Dashboard.TotalRecipients: a missing `recipientCount` is 0 in the record itself, so the `|| 0` default is not a separate case.
- Analytics.MetricOf: stored receipts always carry every counter (they default to 0), so the `|| 0` default is not a separate case.
- ChannelOrder.KeepsIdEntry: stated for entries whose `_id` is the selected id. An entity whose `_id` differs from the id it was selected under is outside this lemma.
- Duration.RoundTrip: stated for seconds as exact integers. The page stores `durationToHours`, seconds divided by 3600 as a double, and renders it back with `Math.floor(hours * 3600)`. For 6767 of the whole seconds below two days (115, 119 and 123 among them) that product falls just below the integer, so the rendered duration is one second short: 115 s comes back as `00:00:01:54`. The model does not capture that loss.
- Duration.NegativeSecond: a negative number of hours gives fields that are negative, not a valid duration. The round-trip lemmas are stated for non-negative input only.
- QuizParse.ExplicitOptionsUncapped: explicit option lines are not capped at ten options; only continuation lines are.
- QuizParse.AnswerNumber: an answer number of two or more digits (`Answer: 12`) gives its value minus one, with no upper bound.
- The quiz parser's schedule phrase is only detected, not converted. Its PM rule (`hour < 12`) differs from the submit handlers' (`hour != 12`), and the detection leads to the failure listed under Findings.

## Findings

| source | as written | input that shows it | evidently intended | confidence | as-written member | corrected member |
|---|---|---|---|---|---|---|
| Telegram-Dashboard-Frontend-main/Telegram-Dashboard-Frontend-main/src/pages/QuizBuilder.jsx:190 | the generic parser calls `setScheduledTime`, which is never declared (the state setter is `setScheduleTime`), so a block with a schedule phrase throws and the parse result is never stored | pasted text `scheduled on 1/1/2025 at 9 AM` with no Word-parser result | the parsed quizzes are stored whether or not the text names a schedule | not executed | QuizBuilder.ScheduledTextSticks | QuizBuilder.ParseRawTextSettles |
| Telegram-Dashboard-Frontend-main/Telegram-Dashboard-Frontend-main/src/pages/History.jsx:183 | the status option's value is `partially completed`, with a space, but stored statuses are `partially_completed` | choose "Partially Completed" in the status filter | the option selects the partially completed tasks | not executed | History.PartiallyCompletedOptionMatchesNothing | History.CorrectedOptionsMatch |
