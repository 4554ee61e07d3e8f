# Tebak Kode quiz bot: webhook state machine

A Dafny model of the webhook controller of a LINE chat bot that runs a
ten-question quiz ("Tebak Kode"). The platform delivers a batch of events.
For each event the controller loads the sender from the users table. An
unknown sender goes through the follow flow: welcome message, sticker, insert.
A known sender's text and sticker messages drive the quiz. `number` is the
progress: 0 is idle and 1..10 is the question awaiting an answer. `score`
counts the correct answers.

Files:

- `wrappers.dfy`: `Option`.
- `messages.dfy` (module `Messages`): the question row, the abstract reply
  messages (text, sticker, button template) and the texts the bot sends. Also
  ASCII lower-casing, PHP's int-to-string conversion, option filtering and the
  end-of-quiz summary.
- `quiz.dfy` (module `Quiz`): the users table as a map, the handlers as pure
  functions over `World` (the users table plus the replies sent so far), one
  pass of the event loop (`Dispatch`), the whole loop (`Run`), and the lemmas
  about them.
- `webhook.dfy` (module `WebhookController`): class `Webhook`. It has the
  users table, the reply log and the loaded `user` as fields. Its methods are
  the controller's methods. `HandleEvents` is a `while` loop over the batch,
  and `AnswerOptions` is the `for` loop over `option_a`..`option_d`. Each
  method is proved equal to its `Quiz` counterpart, and `HandleEvents` keeps
  the store invariant.
- `user_table.dfy` (module `UserTable`): the users table as SQL rows. It shows
  what the gateway's unscoped updates do as written (see Findings).

Inputs the model takes as parameters:

- The profile lookup is the map `profiles`. A missing user id means a failed
  lookup.
- The questions table is the read-only map `questions`.
- Replies are appended to `replies`; nothing is sent.

Modelling choices that follow the code:

- Handlers are found with PHP's `method_exists`, which ignores case. So
  message types are routed on `Lower(type) == "text"` / `"sticker"`, and
  non-message events on `Lower(type) == "follow"`. The test
  `type == "message"` is exact.
- An option is dropped when PHP's `empty()` holds of it. That is the empty
  string (or null, modelled as the empty string) and also the string `"0"`.
- The user inserted by the follow flow has the id from the profile, not the
  id from the event. This is what `saveUser($profile['userId'], ...)` does.
- Inserting a user that is already registered leaves the existing record as
  it is. `saveUser` is a plain `insert` (app/Gateway/UserGateway.php:39-43),
  so without a unique index on `user_id` the source adds a second row for
  that id, with progress 0 and score 0; the model keeps only the original.
  The lookup's `first()` has no `orderBy`
  (app/Gateway/UserGateway.php:25-27), so it usually returns the original
  row; SQL does not specify which.
- `isAnswerEqual` filters with `where('answer', $answer)`
  (app/Gateway/QuestionGateway.php:33-39). This is modelled as exact string
  equality. A database collation that ignores case or trailing spaces is not
  modelled.

## Model

| member | source | states |
|---|---|---|
| `Messages.StartTriggerCases` | app/Http/Controllers/Webhook.php:166 | the start test `strtolower(text) == "mulai"` holds exactly when the text is the five letters of MULAI, each in upper or lower case |
| `Messages.DecimalRoundTrip` | app/Http/Controllers/Webhook.php:243 | PHP's rendering of a non-negative int is a non-empty digit string with no leading zero that parses back to the number |
| `Messages.DecimalInjective` | app/Http/Controllers/Webhook.php:243 | two scores render as the same text exactly when they are equal |
| `Messages.KeptAppend` | app/Http/Controllers/Webhook.php:210-213 | filtering options distributes over concatenation, so the option order a..d is kept |
| `Messages.KeptMembers` | app/Http/Controllers/Webhook.php:210-213 | the filter keeps exactly the strings that are not PHP-empty, never grows, and keeps a list with no empty entry unchanged |
| `Messages.QuestionOptions` | app/Http/Controllers/Webhook.php:210-213 | a question's options are the non-empty columns among option_a, option_b, option_c, option_d in that order, at most four, none empty |
| `Messages.TitleShowsNumber` | app/Http/Controllers/Webhook.php:216 | the template title is the question number in decimal followed by "/10" |
| `Messages.SummaryThreshold` | app/Http/Controllers/Webhook.php:241-263 | the summary has three parts; sticker 114 and the congratulation are sent exactly when score >= 8, sticker 100 and the taunt exactly when score < 8; 7 taunts and 8 congratulates |
| `Messages.SummaryShowsScore` | app/Http/Controllers/Webhook.php:243-244 | the first summary part is "Skormu " followed by digits that denote the score |
| `Messages.Lower` | app/Http/Controllers/Webhook.php:166 | `strtolower` on ASCII letters; `Messages.StartTriggerCases` states which texts it maps to "mulai" |
| `Messages.PhpIntString` | app/Http/Controllers/Webhook.php:243 | PHP's int-to-string conversion; `Messages.DecimalRoundTrip`, `Messages.TitleShowsNumber` and `Messages.SummaryShowsScore` state that the text denotes the number |
| `Messages.QuestionReply` | app/Http/Controllers/Webhook.php:215-222 | the single button-template reply for a question; `Messages.QuestionOptions` states its buttons and `Messages.TitleShowsNumber` its title |
| `Messages.ScoreSummary` | app/Http/Controllers/Webhook.php:241-263 | the three-part end-of-quiz reply; `Messages.SummaryThreshold` and `Messages.SummaryShowsScore` state its parts |
| `Quiz.FindUser` | app/Gateway/UserGateway.php:23-34 | getUser; `Quiz.SaveThenFind` states that a saved user is found again, and `Quiz.Dispatch` and `Quiz.Run` that a registered user is never removed |
| `Quiz.IsAnswerEqual` | app/Gateway/QuestionGateway.php:33-39 | the correctness test; `Quiz.AnswerTransition` states that it is exact equality with question n's stored answer |
| `Quiz.Follow` | app/Http/Controllers/Webhook.php:129-159 | followCallback; `Quiz.UnknownUserFollows` and `Quiz.RegisteredFollow` state its outcomes on lookup success and failure |
| `Quiz.OnSticker` | app/Http/Controllers/Webhook.php:186-202 | stickerMessage; `Quiz.StickerKeepsState` states that it changes no record and sends sticker (1,106) and the reminder |
| `Quiz.OnText` | app/Http/Controllers/Webhook.php:161-184 | textMessage; `Quiz.IdleText` states the idle branch and `Quiz.AnswerTransition` the in-progress branch |
| `Quiz.Answer` | app/Http/Controllers/Webhook.php:225-266 | checkAnswer; `Quiz.AnswerTransition` states grading, advancing and the reset, and `Quiz.CorrectAnswersAdvance` a run of correct answers |
| `Quiz.SaveUser` | app/Gateway/UserGateway.php:37-44 | saveUser adds the id with progress 0 and score 0 when it is new, and keeps every existing record |
| `Quiz.SetUserProgress` | app/Gateway/UserGateway.php:46-53 | the scoped progress write: only the named user's number changes, the set of users is unchanged |
| `Quiz.SetScore` | app/Gateway/UserGateway.php:55-62 | the scoped score write: only the named user's score changes, the set of users is unchanged |
| `Quiz.SaveThenFind` | app/Gateway/UserGateway.php:23-44 | after saveUser inserts a new user, getUser gives back its id and display name, idle with score 0 |
| `Quiz.Dispatch` | app/Http/Controllers/Webhook.php:98-119 | one event keeps every progress within [0,10], never removes a registered user, and sends at most one reply, addressed with that event's reply token, after the earlier replies |
| `Quiz.Run` | app/Http/Controllers/Webhook.php:97-121 | a batch keeps every progress within [0,10], never removes a registered user, keeps earlier replies as a prefix, and adds at most one reply per event |
| `Quiz.AnonymousEventIgnored` | app/Http/Controllers/Webhook.php:100-101 | an event without a user id leaves the table and the replies unchanged |
| `Quiz.RunSkipsAnonymous` | app/Http/Controllers/Webhook.php:98-101 | a batch has the same effect as the batch with its events without a user id removed, so processing continues with the next event |
| `Quiz.UnknownUserFollows` | app/Http/Controllers/Webhook.php:129-158 | an unknown user goes through the follow flow whatever the event type; on a failed lookup nothing changes; on success the welcome text and sticker (1,3) are sent and the profile's user is inserted idle |
| `Quiz.RegisteredFollow` | app/Http/Controllers/Webhook.php:114-117 | a registered user's follow event also reaches the follow flow: the welcome pair is sent again and the existing record is kept (the source, with no unique index, would add a second row; see Modelling choices) |
| `Quiz.IdleText` | app/Http/Controllers/Webhook.php:161-178 | an idle user sending the start trigger gets score 0, progress 1 and question 1; any other text gets one reminder and no change |
| `Quiz.AnswerTransition` | app/Http/Controllers/Webhook.php:225-265 | on question n the score rises by exactly one when the text equals the stored answer exactly, else stays; for n < 10 progress becomes n+1 and question n+1 is sent; at n = 10 progress becomes 0 and the summary of the new score is sent |
| `Quiz.StickerKeepsState` | app/Http/Controllers/Webhook.php:186-202 | a sticker from a registered user never changes the table, in any state, and replies sticker (1,106) then the reminder |
| `Quiz.UnhandledIsNoOp` | app/Http/Controllers/Webhook.php:110-118 | a registered user's event with no matching handler changes nothing and sends nothing |
| `Quiz.AnswerKeepsStore` | app/Http/Controllers/Webhook.php:225-266 | grading the stored record of a user on question 1..10 keeps the store invariant |
| `Quiz.DispatchKeepsStore` | app/Http/Controllers/Webhook.php:161-265 | every event keeps the store invariant: a record sits under its own id, progress in [0,10], score at most the number of questions answered |
| `Quiz.RunKeepsStore` | app/Http/Controllers/Webhook.php:97-121 | a whole batch keeps the store invariant |
| `Quiz.RunAppend` | app/Http/Controllers/Webhook.php:98-120 | processing two batches in turn equals processing their concatenation |
| `Quiz.CorrectAnswersAdvance` | app/Http/Controllers/Webhook.php:228-239 | starting on question 1 with score 0, correct answers to questions 1..m-1 leave the user on question m with score m-1 |
| `Quiz.PerfectRound` | app/Http/Controllers/Webhook.php:129-264 | a new user whose first event registers them, who sends "MULAI" and then answers all ten questions correctly, ends idle with score 10, and the last reply is the congratulating summary |
| `WebhookController.Webhook.constructor` | app/Http/Controllers/Webhook.php:58-73 | the controller starts with the given tables, no replies and no loaded user |
| `WebhookController.Webhook.HandleEvents` | app/Http/Controllers/Webhook.php:93-127 | the loop over the batch has the effect of `Run` (none if `events` is not an array), keeps the store invariant, and the response is always status 200 with body "No events found!" |
| `WebhookController.Webhook.HandleEvent` | app/Http/Controllers/Webhook.php:98-119 | one pass of the loop: skip an event without a user id, load the sender, route by user existence, event type and message type; its effect is that of `Dispatch`, it keeps the store invariant, and an event without a user id leaves the loaded `user` untouched (no lookup, line 101 before line 104) |
| `WebhookController.Webhook.FollowCallback` | app/Http/Controllers/Webhook.php:129-159 | the method's new table and reply log are those of `Follow` |
| `WebhookController.Webhook.TextMessage` | app/Http/Controllers/Webhook.php:161-184 | the method's new table and reply log are those of `OnText` for the user just loaded, and it keeps the store invariant |
| `WebhookController.Webhook.StickerMessage` | app/Http/Controllers/Webhook.php:186-202 | the method only appends the sticker-and-reminder reply |
| `WebhookController.Webhook.AnswerOptions` | app/Http/Controllers/Webhook.php:209-213 | the loop over option_a..option_d gives one button per non-empty option, in order, at most four buttons, each with caption and reply text equal to the option (line 212) |
| `WebhookController.Webhook.SendQuestion` | app/Http/Controllers/Webhook.php:204-223 | appends exactly one button-template reply for question n: title "n/10", its text, its image and its options |
| `WebhookController.Webhook.CheckAnswer` | app/Http/Controllers/Webhook.php:225-266 | the method's new table and reply log are those of `Answer`, the loaded user's score is raised in place exactly when the answer is correct, and for a user who is not idle the store invariant is kept |
| `UserTable.SetUserProgressAsWritten` | app/Gateway/UserGateway.php:46-53 | setUserProgress as written; `UserTable.AsWrittenWritesEveryRow` states that it rewrites every row |
| `UserTable.SetScoreAsWritten` | app/Gateway/UserGateway.php:55-62 | setScore as written; `UserTable.AsWrittenWritesEveryRow` states that it rewrites every row |
| `UserTable.AsWrittenWritesEveryRow` | app/Gateway/UserGateway.php:46-62 | as written, setUserProgress and setScore set the value and the user_id of every row of the table |
| `UserTable.StartingOneUserResetsAnother` | app/Gateway/UserGateway.php:46-62 | as written, and with no unique index on `user_id`, starting the quiz for U1 renames U2's row to U1 and wipes U2's progress and score |

## Left out

- The LINE SDK is not modelled: building the client, `getProfile`, `replyMessage` and the message builders. A profile lookup is an entry in `profiles`, and a reply is an appended `Reply` value.
- The event log (`saveLog`) and `json_encode` of the body are not modelled. Neither is the debug log or reading the signature header. They are audit I/O with no effect on the quiz.
- The database is not modelled. The users and questions tables are in-memory maps. The webhook model uses per-user writes (see Findings).
- Quiz.SetUserProgress: stated scoped to one user, which is weaker than (different from) the source's unscoped UPDATE; the as-written behaviour is in UserTable.
- Quiz.SetScore: stated scoped to one user, for the same reason as SetUserProgress.
- A unique index on `user_id` is not modelled. With one, re-inserting a registered user would raise a database error instead of keeping the row. The unscoped updates would also fail with a duplicate-key error as soon as a second user exists.
- Quiz.IdleText: its frame says the other users' records are untouched when a quiz starts. That holds of the per-user writes of this model; the source's unscoped writes would change them (see Findings).
- The profile lookup is one fixed map for the whole batch. A lookup that fails and later succeeds for the same user within one delivery cannot be expressed.
- A question whose four options are all `empty()` is not modelled faithfully. The source then reads the unassigned `$options`, which the framework raises as an error after the progress has been written. The model sends a template with no buttons instead.
- A missing question in `sendQuestion` would cause a null access. Instead, the seed table is required to hold questions 1..10, keyed by their own number (`SeedComplete`).
- Progress values outside [0,10] are excluded by the store invariant that `Dispatch` requires and every handler keeps. The source's behaviour for such values is not modelled.
- `strtolower` is modelled on ASCII letters only. Multibyte text is not lower-cased.
- A text event whose message has no `text` field is not modelled; its text is taken as the empty string.
- Exceptions raised inside a handler are not modelled. In PHP they would abort the rest of the batch, and the client would get the framework's error response instead of the 200 acknowledgement (app/Http/Controllers/Webhook.php:124-126). `HandleEvents`' "always 200" holds only under this assumption.
- Concurrent deliveries for the same user are not modelled. Processing is sequential.

## Findings

| source | as written | input that shows it | evidently intended | confidence | as-written member | corrected member |
|---|---|---|---|---|---|---|
| app/Gateway/UserGateway.php:46-62 | `setUserProgress` and `setScore` run an UPDATE on `users` with no WHERE clause and also assign `user_id`, so every row gets the new value and the caller's id | table rows (U1, number 0, score 7) and (U2, number 5, score 3), with no unique index on `user_id`; U1 sends "MULAI": U2's row becomes (U1, number 1, score 0). With a unique index the write instead fails with a duplicate-key error as soon as a second user exists | update only the row whose `user_id` is the given id | high; not executed | `UserTable.StartingOneUserResetsAnother` | `Quiz.SetUserProgress` |
