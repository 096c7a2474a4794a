# AmbientBot conversation core in Dafny

AmbientBot is a Facebook Messenger bot. It asks a user two questions and then
sends a link to one of nine ambient sound files:

- the mood question (Relaxation, Sleep or Concentration);
- the location question (whether being around people is relaxing).

It stores the two answers in a PostgreSQL table `users(fbid, targetmood, targetlocation)`.
It queues outgoing messages per user, so that they arrive in order: a
message is handed to the Send API only when the user's previous message has been
echoed back, or when 10 seconds have passed since it was handed over.

The model has five modules:

- `Common`: user ids, `Option` and `Result`.
- `Messages`: the outgoing messages as opaque values, with their button payloads
  and the `SOUND_FILENAMES` table. It also holds the index arithmetic of
  `sendAudioLinkMessage` and the text of the audio link.
- `Dispatch`: the per-user queues and last-sent timestamps of app.js.
  - `SendNext`, `AddToQueue` and `ReceiveEcho` state the queue steps as pure
    functions over `Queues`.
  - The class `Dispatcher` holds the two maps as fields, and its methods are
    proved against those functions. Ghost logs record what was enqueued and what
    was handed to `callSendAPI`; `Valid()` is the FIFO relation between them.
  - `Run` replays any sequence of enqueues and echoes, for the lemmas about
    whole traces.
- `Database`: the `users` table as a map from `fbid` to a row.
  - `Upsert` gives the effect of `updateUserState`.
  - `BuildQuery` is the loop that builds the SQL text and the parameter array.
  - Also `retrieveUserState` and `resetUserData`.
- `Flow`: the conversation.
  - `NextAction` is the decision of `doNextAction`.
  - `PostbackWrite` is the payload test of `receivedPostback`, with
    `setTargetMood` and `setTargetLocation`.
  - `NextTurn` and `HandlePostback` give whole turns.
  - The class `Bot` owns the store and the dispatcher. It runs the handlers in
    the order of the source.

The clock (`Date.now()`) is the parameter `now`. A database error thrown
inside a query callback is modelled as `Err`, and nothing after it runs.

## Model

| member | source | states |
|---|---|---|
| Messages.AudioIndex | app.js:420-423 | for answers in 1..3 the index lies in 0..8, a valid position of `SOUND_FILENAMES` |
| Messages.AudioIndexRoundTrip | app.js:421-423 | the mood and location are recovered from the index (`index / 3 + 1`, `index % 3 + 1`) |
| Messages.AudioIndexCovers | app.js:462-464 | every one of the nine files is selected by some (mood, location) pair |
| Messages.AudioIndexInjective | app.js:421-423 | two different answer pairs never select the same file |
| Messages.AudioLinkText | app.js:420-436 | for answers in 1..3 the link text is `SERVER_URL + "/"` followed by one of the nine file names, never `"undefined"`; answers (1, 2) give `".../city_hum.mp3"` |
| Messages.AudioLinkTextInjective | app.js:420-436 | two different answer pairs produce two different link texts |
| Dispatch.SendNext | app.js:264-277 | at most one message goes out; it goes out exactly when the gate is open (no stamp, stamp 0, or stamp + 10000 < now) and the queue is non-empty; it is the queue's head; the stamp becomes `now`; nothing changes otherwise and other users are untouched |
| Dispatch.AddToQueue | app.js:242-259 | the message joins the back of the queue; exactly one message (the head) is sent when the gate is open and none otherwise; the stamp is `now` after a send and unchanged otherwise; other users are untouched |
| Dispatch.ReceiveEcho | app.js:148-153 | the stamp is cleared to 0, then the head (if any) is sent and stamped; with an empty queue the state is the old state with stamp 0 |
| Dispatch.StepKeepsFifo | app.js:242-277 | any step that moves messages from the front of one queue to the sender, after appending at its back, keeps "sent ++ still queued == enqueued" for every user |
| Dispatch.RunIsFifo | app.js:148-277 | for every interleaving of enqueues, echoes and clock readings, each user is sent a prefix of what was enqueued for them, in order, and the rest is still queued in order |
| Dispatch.ApplyDispatchesAtMostOne | app.js:253-257 | one enqueue or echo hands at most one message to the Send API, and only to its own user |
| Dispatch.InFlightBlocksRecipient | app.js:266-268 | after a send at a positive time, no further message reaches that user until an echo for them arrives or the clock passes the stamp by more than 10000 ms; the stamp stays as it was |
| Dispatch.GateClosedAfterDispatch | app.js:266-272 | after a send at time now > 0 the gate stays closed up to and including now + 10000 (the comparison is strict) |
| Dispatch.TimeoutReleasesGate | app.js:266-274 | once more than 10000 ms have passed, the head of the queue goes out without an echo |
| Dispatch.EnqueueAllMoves | app.js:242-259 | successive `addMessageToQueue` calls for one user: what went out followed by what is still queued is the old queue followed by the new messages |
| Dispatch.EnqueueAllKeepsOthers | app.js:242-259 | successive enqueues for one user leave every other user's queue alone |
| Dispatch.EnqueueAllDispatchesAtMostOne | app.js:242-277 | a handler enqueuing several messages at one instant sends exactly one message when the gate was open, the head of the queue after the appends (an older waiting message if the timeout reopened the gate), and none otherwise; the stamp becomes `now` exactly when one was sent |
| Dispatch.Dispatcher.constructor | app.js:457-458 | both maps start empty |
| Dispatch.Dispatcher.CallSendApi | app.js:212-235 | the message is handed to the Send API (appended to the sent log) |
| Dispatch.Dispatcher.SendNextMessage | app.js:264-277 | the fields become `SendNext` of the old fields, the sent log grows by what it dispatched, and the FIFO invariant is kept |
| Dispatch.Dispatcher.AddMessageToQueue | app.js:242-259 | the fields become `AddToQueue` of the old fields, both logs grow accordingly, and the FIFO invariant is kept |
| Dispatch.Dispatcher.ReceivedEcho | app.js:148-153 | the fields become `ReceiveEcho` of the old fields, and the FIFO invariant is kept |
| Database.Overwrite | models/database.js:50-63 | after `UPDATE ... SET k=v, ...` each column holds the value of its last assignment, or its old value when not assigned |
| Database.OverwriteIdempotent | models/database.js:50-63 | running the same UPDATE twice equals running it once |
| Database.InsertRow | models/database.js:67-77 | `INSERT INTO users VALUES ($1, $2, ...)` fills the columns by position; columns left over are NULL; only table columns appear |
| Database.UpsertEffect | models/database.js:27-94 | the UPDATE path runs when the row exists and the INSERT path otherwise; each fails exactly when its statement is rejected; on success only `fbid`'s row changes, as `Overwrite` or `InsertRow` say |
| Database.RetrieveUserState | models/database.js:101-128 | the row's two columns, or both missing (`{}`) when there is no row |
| Database.ResetUserDataSetsMinusOne | models/database.js:135-138 | the reset succeeds whether or not a row exists, leaves both answers at -1 and touches no other user |
| Database.ResetUserDataIdempotent | models/database.js:135-138 | resetting twice gives the same store as resetting once |
| Database.NatToStringRoundTrip | models/database.js:58 | the decimal text after `$` reads back as the counter `n` |
| Database.PlaceholdersDistinct | models/database.js:72 | different counters give different placeholders |
| Database.AnswerUpdateQuery | models/database.js:50-63 | the UPDATE of a single answer reads `UPDATE users SET targetmood=$2 WHERE fbid=$1;` |
| Database.RowInsertQuery | models/database.js:68-77 | the INSERT of a new row reads `INSERT INTO users VALUES ($1, $2, $3);`, one placeholder for `fbid` and one per column |
| Database.BuildQuery | models/database.js:44-78 | the parameter array is `fbid` followed by the values of the chosen object, in order; the query is the UPDATE text with `key=$(i+2)` for the i-th key, or the INSERT text with `$1..$(n+1)`, so placeholders and parameters stay in step |
| Flow.NextAction | app.js:307-331 | mood NULL: intro then mood question; mood -1: mood question only; mood set and location NULL or -1: location question; both set: wait text, audio link for the pair, closing text, then a reset |
| Flow.PostbackWrite | app.js:181-204 | any write it asks for has an option in 1..3 |
| Flow.PostbackWriteMatchesButtons | app.js:181-204 | button i of the mood template writes mood i+1, button i of the location template writes location i+1, and a payload writes something exactly when it is one of those buttons |
| Flow.SetTargetMoodEffect | app.js:282-288 | the write succeeds and sets the mood; an existing row keeps its location, and a new row gets location -1; other users are untouched |
| Flow.SetTargetLocationEffect | app.js:293-299 | the write succeeds and sets the location; an existing row keeps its mood, and a new row gets mood -1; other users are untouched |
| Flow.ApplyWriteKeepsWellFormed | app.js:181-204 | an answer write keeps every stored answer NULL, -1 or 1..3 |
| Flow.ResetKeepsWellFormed | models/database.js:135-138 | a reset keeps every stored answer NULL, -1 or 1..3 |
| Flow.NextTurnKeepsWellFormed | app.js:304-335 | from such a store, `doNextAction` keeps it so, and any audio link it sends names one of the nine files |
| Flow.HandlePostbackKeepsWellFormed | app.js:172-207 | from such a store every postback succeeds, keeps it so, and sends only audio links that name a file |
| Flow.FirstConversation | app.js:172-207 | new user: intro and mood question; mood answer: location question; location answer: wait text, the link for (mood, location) and the closing text, with the answers reset to -1; the next message asks the mood again without the intro |
| Flow.MoodAnswerAsksLocation | app.js:181-192 | a new user's mood answer creates the row (mood, -1) and the location question follows |
| Flow.LocationAnswerCompletes | app.js:193-204 | with a mood in 1..3 stored, a location answer sends the wait text, the link for the pair and the closing text, and resets both answers to -1 |
| Flow.StaleLocationAnswerIsKept | app.js:282-288 | after a reset, a location answer followed by a mood answer completes the flow without asking the location question again |
| Flow.Classify | app.js:148-166 | an echo first, then a quick reply, then a non-empty text, then attachments; all other messages are ignored |
| Flow.Bot.DoNextAction | app.js:304-335 | the store becomes `NextTurn`'s store, and the turn's messages were enqueued for the user one `addMessageToQueue` each, in order (the dispatcher equals `EnqueueAll` of its old state) |
| Flow.Bot.OnRetrieveComplete | app.js:306-331 | the messages of `NextAction(obj)` are enqueued in order; the store is reset exactly when the flow completed |
| Flow.Bot.SendAudioLinkMessage | app.js:420-436 | one `addMessageToQueue` of the link for (mood, location) |
| Flow.Bot.ResetUserDataCall | app.js:330 | the store after `resetUserData`, unchanged if it failed |
| Flow.Bot.ReceivedPostback | app.js:172-207 | fails exactly when the answer write fails, and then changes nothing; otherwise the store and the queued messages are those of `HandlePostback` |
| Flow.Bot.ReceivedMessage | app.js:129-167 | an echo runs `ReceiveEcho` for the echoed message's user; a text or an attachment runs `doNextAction` for the sender; a quick reply or anything else changes nothing |

## Left out

- The Express server, webhook verification, request signature checks,
  configuration loading and `app.listen` are not modelled. They are I/O glue
  around the core.
- `callSendAPI`'s HTTPS request and its response logging are left out. The model
  records only that the message was handed over.
- The wording of the texts and the layout of the button templates are left out.
  Each message is an opaque value. Only the button payloads are kept, because
  the postback handler depends on them.
- The `pg` client lifecycle (connect, `end`, row logging) and `createUsersTable`
  are not modelled.
- The SQL engine is an assumption of the model:
  - An UPDATE fails when its SET list is empty, names an unknown column, or
    names a column twice.
  - An INSERT fills `targetmood` and `targetlocation` by position.
  - More values than columns fails.
- The first query of `updateUserState` (`SELECT 1 ...`) is modelled as the
  test `fbid in users`.
- Connection and I/O failures of the database are not modelled. Only rejected
  statements become `Err`.
- Asynchrony is not modelled. Each handler runs to completion before the next
  event, including its database callbacks. Interleavings of callbacks from
  different requests (for example, two postbacks racing on one row) are not
  covered.
- Reading `Date.now()` is the parameter `now`. `addMessageToQueue` and
  `sendNextMessage` each read the clock. The model gives both calls in one
  handler the same reading, so the two gate tests agree.
- Dispatch.GateClosedAfterDispatch: requires `now > 0`. A send stamped at time 0
  stores the sentinel 0, which the gate reads as "no message in flight".
- Dispatch.InFlightBlocksRecipient: requires the stamp to be positive, for the same reason.
- Dispatch.EnqueueAllDispatchesAtMostOne: requires `now > 0`, for the same reason.
- `for (var key in data)` visits an object's properties in insertion order, and
  an object cannot repeat a key. The model takes the objects as sequences of
  pairs, and `Lookup` lets the last pair win.
- Flow.SetTargetMoodEffect: on an existing row a mood answer writes only
  `targetmood` (app.js:285); `targetlocation` becomes -1 only when the row is
  created (app.js:286). A location answered earlier is therefore kept, and
  `Flow.StaleLocationAnswerIsKept` shows the consequence.
- `resetUserData`'s error would be thrown from a callback after the turn's
  messages were queued. The model keeps the store unchanged in that case.
  From a well-formed store the reset never fails (`Flow.ResetKeepsWellFormed`).
- `receivedMessage` and `receivedPostback` only log several fields (message id,
  app id, metadata, timestamps). Those fields are not modelled.
