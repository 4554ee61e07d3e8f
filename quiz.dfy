/**
 * The quiz state machine of the webhook handler, as pure functions over the
 * users table and the log of replies sent. Each function is one handler of
 * app/Http/Controllers/Webhook.php; Dispatch is one pass of the event loop
 * and Run is the whole loop over a batch.
 */
module Quiz {
  import opened Wrappers
  import opened Messages

  /** A row of the users table: number is the progress (0 = idle, 1..10 = question awaiting an answer). */
  datatype User = User(userId: string, displayName: string, number: int, score: int)

  /** The message part of an inbound event: its type and, for a text message, its text. */
  datatype EventMessage = EventMessage(kind: string, text: string)

  /** An inbound event; userId is None for group and room events. */
  datatype Event = Event(kind: string, userId: Option<string>, replyToken: string, message: Option<EventMessage>)

  /** What a successful profile lookup returns. */
  datatype Profile = Profile(userId: string, displayName: string)

  /** The users table and the replies sent so far. */
  datatype World = World(users: map<string, User>, replies: seq<Reply>)

  // ---------------------------------------------------------------------
  // Tables
  // ---------------------------------------------------------------------

  /** Every user's progress lies in [0, LastQuestion]. */
  predicate InRange(users: map<string, User>)
  {
    forall k :: k in users ==> 0 <= users[k].number <= LastQuestion
  }

  /** The score never exceeds the number of questions answered so far. */
  predicate ScoreBounded(u: User)
  {
    0 <= u.score <= (if u.number == 0 then LastQuestion else u.number - 1)
  }

  /** The store invariant: every record sits under its own user_id, in range, with a bounded score. */
  predicate ValidStore(users: map<string, User>)
  {
    InRange(users) &&
    forall k :: k in users ==> users[k].userId == k && ScoreBounded(users[k])
  }

  /** The seed data: questions are keyed by their number and 1..LastQuestion all exist. */
  predicate SeedComplete(questions: map<int, Question>)
  {
    (forall n :: n in questions ==> questions[n].number == n) &&
    (forall n :: 1 <= n <= LastQuestion ==> n in questions)
  }

  /** getUser: the record of a registered id, None for an unknown one. */
  function FindUser(users: map<string, User>, userId: string): Option<User>
  {
    if userId in users then Some(users[userId]) else None
  }

  /** saveUser: a new row starts idle with score 0; an existing row is left as it is. */
  function SaveUser(users: map<string, User>, userId: string, displayName: string): (r: map<string, User>)
    ensures r.Keys == users.Keys + {userId}
    ensures userId !in users ==> r[userId] == User(userId, displayName, 0, 0)
    ensures forall k :: k in users ==> r[k] == users[k]
  {
    if userId in users then users else users[userId := User(userId, displayName, 0, 0)]
  }

  /** setUserProgress, scoped to the one user (see UserTable for the unscoped original). */
  function SetUserProgress(users: map<string, User>, userId: string, n: int): (r: map<string, User>)
    ensures r.Keys == users.Keys
    ensures userId in users ==> r[userId] == users[userId].(number := n)
    ensures forall k :: k in users && k != userId ==> r[k] == users[k]
  {
    if userId in users then users[userId := users[userId].(number := n)] else users
  }

  /** setScore, scoped to the one user (see UserTable for the unscoped original). */
  function SetScore(users: map<string, User>, userId: string, score: int): (r: map<string, User>)
    ensures r.Keys == users.Keys
    ensures userId in users ==> r[userId] == users[userId].(score := score)
    ensures forall k :: k in users && k != userId ==> r[k] == users[k]
  {
    if userId in users then users[userId := users[userId].(score := score)] else users
  }

  /** isAnswerEqual: exact string equality with the stored answer, no normalisation. */
  predicate IsAnswerEqual(questions: map<int, Question>, n: int, answer: string)
  {
    n in questions && questions[n].answer == answer
  }

  /** Creating a user and looking it up again gives back its id and display name, idle. */
  lemma SaveThenFind(users: map<string, User>, userId: string, displayName: string)
    requires userId !in users
    ensures FindUser(SaveUser(users, userId, displayName), userId) == Some(User(userId, displayName, 0, 0))
  {
  }

  // ---------------------------------------------------------------------
  // Handlers
  // ---------------------------------------------------------------------

  /** followCallback: on a successful profile lookup, welcome text and sticker (1, 3), then insert the user. */
  function Follow(w: World, profiles: map<string, Profile>, userId: string, replyToken: string): World
  {
    if userId in profiles then
      var profile := profiles[userId];
      World(SaveUser(w.users, profile.userId, profile.displayName),
            w.replies + [Reply(replyToken, [Text(Welcome(profile.displayName)), Sticker(1, 3)])])
    else
      w
  }

  /** stickerMessage: sticker (1, 106) and the reminder, whatever the user's state. */
  function OnSticker(w: World, replyToken: string): World
  {
    World(w.users, w.replies + [Reply(replyToken, [Sticker(1, 106), Text(Reminder)])])
  }

  /** checkAnswer for question u.number: grade, then either advance or summarise and reset. */
  function Answer(w: World, questions: map<int, Question>, u: User, text: string, replyToken: string): World
    requires u.number < LastQuestion ==> u.number + 1 in questions
  {
    var correct := IsAnswerEqual(questions, u.number, text);
    var score := if correct then u.score + 1 else u.score;
    var users := if correct then SetScore(w.users, u.userId, score) else w.users;
    if u.number < LastQuestion then
      World(SetUserProgress(users, u.userId, u.number + 1),
            w.replies + [QuestionReply(questions[u.number + 1], replyToken)])
    else
      World(SetUserProgress(users, u.userId, 0), w.replies + [Reply(replyToken, ScoreSummary(score))])
  }

  /** textMessage: an idle user may start the quiz; a user in progress is answering. */
  function OnText(w: World, questions: map<int, Question>, u: User, text: string, replyToken: string): World
    requires u.number == 0 ==> 1 in questions
    requires u.number < LastQuestion ==> u.number + 1 in questions
  {
    if u.number == 0 then
      if Lower(text) == StartTrigger then
        World(SetUserProgress(SetScore(w.users, u.userId, 0), u.userId, 1),
              w.replies + [QuestionReply(questions[1], replyToken)])
      else
        World(w.users, w.replies + [Reply(replyToken, [Text(Reminder)])])
    else
      Answer(w, questions, u, text, replyToken)
  }

  /**
   * One pass of the event loop. A handler is found by PHP's method_exists, which
   * ignores case, so handler names are compared after lower-casing; the test for
   * type "message" itself is an exact comparison.
   */
  function Dispatch(w: World, questions: map<int, Question>, profiles: map<string, Profile>, e: Event): (r: World)
    requires InRange(w.users) && SeedComplete(questions)
    ensures InRange(r.users)
    ensures w.users.Keys <= r.users.Keys
    ensures r.replies == w.replies ||
            (|r.replies| == |w.replies| + 1 && r.replies[..|w.replies|] == w.replies &&
             r.replies[|w.replies|].replyToken == e.replyToken)
  {
    match e.userId
    case None => w
    case Some(userId) =>
      if userId !in w.users then
        Follow(w, profiles, userId, e.replyToken)
      else
        var u := w.users[userId];
        if e.kind == "message" then
          match e.message
          case None => w
          case Some(m) =>
            if Lower(m.kind) == "text" then OnText(w, questions, u, m.text, e.replyToken)
            else if Lower(m.kind) == "sticker" then OnSticker(w, e.replyToken)
            else w
        else if Lower(e.kind) == "follow" then
          Follow(w, profiles, userId, e.replyToken)
        else
          w
  }

  /** The event loop over a whole batch, in order. */
  function Run(w: World, questions: map<int, Question>, profiles: map<string, Profile>, events: seq<Event>): (r: World)
    requires InRange(w.users) && SeedComplete(questions)
    ensures InRange(r.users)
    ensures w.users.Keys <= r.users.Keys
    ensures |w.replies| <= |r.replies| <= |w.replies| + |events|
    ensures r.replies[..|w.replies|] == w.replies
    decreases |events|
  {
    if events == [] then w
    else Dispatch(Run(w, questions, profiles, events[..|events| - 1]), questions, profiles, events[|events| - 1])
  }

  // ---------------------------------------------------------------------
  // Properties of single events
  // ---------------------------------------------------------------------

  /** An event without a user id changes no record and sends no reply (Webhook.HandleEvent also shows it loads no user). */
  lemma AnonymousEventIgnored(w: World, questions: map<int, Question>, profiles: map<string, Profile>, e: Event)
    requires InRange(w.users) && SeedComplete(questions)
    requires e.userId.None?
    ensures Dispatch(w, questions, profiles, e) == w
  {
  }

  /**
   * An unknown user goes through the follow flow whatever the event is. On a
   * successful lookup the welcome pair is sent and the profile's user inserted;
   * on a failed lookup nothing happens.
   */
  lemma UnknownUserFollows(w: World, questions: map<int, Question>, profiles: map<string, Profile>, e: Event)
    requires InRange(w.users) && SeedComplete(questions)
    requires e.userId.Some? && e.userId.value !in w.users
    ensures var r := Dispatch(w, questions, profiles, e);
      var userId := e.userId.value;
      (userId !in profiles ==> r == w) &&
      (userId in profiles ==>
        var p := profiles[userId];
        r.replies == w.replies + [Reply(e.replyToken, [Text(Welcome(p.displayName)), Sticker(1, 3)])] &&
        FindUser(r.users, p.userId).Some? &&
        (p.userId !in w.users ==> r.users == w.users[p.userId := User(p.userId, p.displayName, 0, 0)]) &&
        (p.userId in w.users ==> r.users == w.users))
  {
  }

  /** A registered user's follow event also reaches the follow flow; the existing record is kept. */
  lemma RegisteredFollow(w: World, questions: map<int, Question>, profiles: map<string, Profile>, e: Event)
    requires ValidStore(w.users) && SeedComplete(questions)
    requires e.userId.Some? && e.userId.value in w.users && e.kind == "follow"
    requires e.userId.value in profiles && profiles[e.userId.value].userId == e.userId.value
    ensures var r := Dispatch(w, questions, profiles, e);
      r.users == w.users &&
      r.replies == w.replies + [Reply(e.replyToken, [Text(Welcome(profiles[e.userId.value].displayName)), Sticker(1, 3)])]
  {
  }

  /** A text event from a registered user. */
  predicate IsTextFrom(w: World, e: Event, userId: string, text: string)
  {
    e.userId == Some(userId) && userId in w.users && e.kind == "message" &&
    e.message.Some? && Lower(e.message.value.kind) == "text" && e.message.value.text == text
  }

  /**
   * An idle user who sends the start trigger gets score 0, progress 1 and
   * question 1; any other text gets one reminder and changes nothing.
   */
  lemma IdleText(w: World, questions: map<int, Question>, profiles: map<string, Profile>, e: Event, userId: string, text: string)
    requires ValidStore(w.users) && SeedComplete(questions)
    requires IsTextFrom(w, e, userId, text) && w.users[userId].number == 0
    ensures var r := Dispatch(w, questions, profiles, e);
      (Lower(text) == StartTrigger ==>
        r.users == w.users[userId := w.users[userId].(number := 1, score := 0)] &&
        r.replies == w.replies + [QuestionReply(questions[1], e.replyToken)]) &&
      (Lower(text) != StartTrigger ==>
        r.users == w.users && r.replies == w.replies + [Reply(e.replyToken, [Text(Reminder)])])
  {
  }

  /**
   * A user on question n who sends text: the score rises by exactly one when the
   * text is the stored answer and is unchanged otherwise; before the last question
   * the progress moves to n + 1 and question n + 1 is sent, at the last question
   * the progress returns to 0 and the summary of the new score is sent.
   */
  lemma AnswerTransition(w: World, questions: map<int, Question>, profiles: map<string, Profile>, e: Event, userId: string, text: string)
    requires ValidStore(w.users) && SeedComplete(questions)
    requires IsTextFrom(w, e, userId, text) && w.users[userId].number != 0
    ensures var r := Dispatch(w, questions, profiles, e);
      var u := w.users[userId];
      var score := if text == questions[u.number].answer then u.score + 1 else u.score;
      userId in r.users && r.users[userId].score == score &&
      r.users[userId].userId == userId && r.users[userId].displayName == u.displayName &&
      (u.number < LastQuestion ==>
        r.users[userId].number == u.number + 1 &&
        r.replies == w.replies + [QuestionReply(questions[u.number + 1], e.replyToken)]) &&
      (u.number == LastQuestion ==>
        r.users[userId].number == 0 &&
        r.replies == w.replies + [Reply(e.replyToken, ScoreSummary(score))])
  {
  }

  /** A sticker from a registered user never changes the table, in any state. */
  lemma StickerKeepsState(w: World, questions: map<int, Question>, profiles: map<string, Profile>, e: Event)
    requires InRange(w.users) && SeedComplete(questions)
    requires e.userId.Some? && e.userId.value in w.users && e.kind == "message"
    requires e.message.Some? && Lower(e.message.value.kind) == "sticker"
    ensures var r := Dispatch(w, questions, profiles, e);
      r.users == w.users &&
      r.replies == w.replies + [Reply(e.replyToken, [Sticker(1, 106), Text(Reminder)])]
  {
  }

  /** A registered user's event with no matching handler has no effect. */
  lemma UnhandledIsNoOp(w: World, questions: map<int, Question>, profiles: map<string, Profile>, e: Event)
    requires InRange(w.users) && SeedComplete(questions)
    requires e.userId.Some? && e.userId.value in w.users
    requires e.kind == "message" ==> e.message.None? || Lower(e.message.value.kind) !in {"text", "sticker"}
    requires e.kind != "message" ==> Lower(e.kind) != "follow"
    ensures Dispatch(w, questions, profiles, e) == w
  {
  }

  /** Grading the stored record of a user who is answering (not idle) keeps the store invariant. */
  lemma AnswerKeepsStore(w: World, questions: map<int, Question>, u: User, text: string, replyToken: string)
    requires ValidStore(w.users) && SeedComplete(questions)
    requires u.userId in w.users && w.users[u.userId] == u && u.number != 0
    ensures ValidStore(Answer(w, questions, u, text, replyToken).users)
  {
  }

  /** Every event keeps the store invariant. */
  lemma DispatchKeepsStore(w: World, questions: map<int, Question>, profiles: map<string, Profile>, e: Event)
    requires ValidStore(w.users) && SeedComplete(questions)
    ensures ValidStore(Dispatch(w, questions, profiles, e).users)
  {
  }

  // ---------------------------------------------------------------------
  // Properties of batches
  // ---------------------------------------------------------------------

  /** Processing a batch keeps the store invariant. */
  lemma {:induction false} RunKeepsStore(w: World, questions: map<int, Question>, profiles: map<string, Profile>, events: seq<Event>)
    requires ValidStore(w.users) && SeedComplete(questions)
    ensures ValidStore(Run(w, questions, profiles, events).users)
    decreases |events|
  {
    if events != [] {
      RunKeepsStore(w, questions, profiles, events[..|events| - 1]);
      DispatchKeepsStore(Run(w, questions, profiles, events[..|events| - 1]), questions, profiles, events[|events| - 1]);
    }
  }

  /** Processing two batches one after the other is processing their concatenation. */
  lemma {:induction false} RunAppend(w: World, questions: map<int, Question>, profiles: map<string, Profile>, a: seq<Event>, b: seq<Event>)
    requires InRange(w.users) && SeedComplete(questions)
    ensures Run(w, questions, profiles, a + b) == Run(Run(w, questions, profiles, a), questions, profiles, b)
    decreases |b|
  {
    if b == [] {
      assert a + b == a;
    } else {
      assert (a + b)[..|a + b| - 1] == a + b[..|b| - 1];
      RunAppend(w, questions, profiles, a, b[..|b| - 1]);
    }
  }

  /** The events of a batch that carry a user id, in order. */
  function Identified(events: seq<Event>): (r: seq<Event>)
    ensures forall i :: 0 <= i < |r| ==> r[i].userId.Some?
    decreases |events|
  {
    if events == [] then []
    else Identified(events[..|events| - 1]) +
         (if events[|events| - 1].userId.Some? then [events[|events| - 1]] else [])
  }

  /** Events without a user id are skipped: the batch behaves as if they were not in it. */
  lemma {:induction false} RunSkipsAnonymous(w: World, questions: map<int, Question>, profiles: map<string, Profile>, events: seq<Event>)
    requires InRange(w.users) && SeedComplete(questions)
    ensures Run(w, questions, profiles, events) == Run(w, questions, profiles, Identified(events))
    decreases |events|
  {
    if events != [] {
      var front := events[..|events| - 1];
      var last := events[|events| - 1];
      RunSkipsAnonymous(w, questions, profiles, front);
      if last.userId.Some? {
        RunAppend(w, questions, profiles, Identified(front), [last]);
        assert [last][..0] == [];
      } else {
        assert Identified(events) == Identified(front);
      }
    }
  }

  // ---------------------------------------------------------------------
  // A perfect round
  // ---------------------------------------------------------------------

  /** The text event that answers question n correctly. */
  function AnswerEvent(questions: map<int, Question>, userId: string, replyToken: string, n: int): Event
    requires n in questions
  {
    Event("message", Some(userId), replyToken, Some(EventMessage("text", questions[n].answer)))
  }

  /** Correct answers to questions 1 .. m - 1, in order. */
  function CorrectAnswers(questions: map<int, Question>, userId: string, replyToken: string, m: int): (r: seq<Event>)
    requires SeedComplete(questions) && 1 <= m <= LastQuestion + 1
    ensures |r| == m - 1
    decreases m
  {
    if m == 1 then []
    else CorrectAnswers(questions, userId, replyToken, m - 1) + [AnswerEvent(questions, userId, replyToken, m - 1)]
  }

  /** After correct answers to questions 1 .. m - 1, the user is on question m with score m - 1. */
  lemma {:induction false} CorrectAnswersAdvance(w: World, questions: map<int, Question>, profiles: map<string, Profile>,
                                                  userId: string, replyToken: string, m: int)
    requires ValidStore(w.users) && SeedComplete(questions) && 1 <= m <= LastQuestion
    requires userId in w.users && w.users[userId].number == 1 && w.users[userId].score == 0
    ensures var r := Run(w, questions, profiles, CorrectAnswers(questions, userId, replyToken, m));
      ValidStore(r.users) && userId in r.users && r.users[userId].number == m && r.users[userId].score == m - 1 &&
      r.users[userId].displayName == w.users[userId].displayName
    decreases m
  {
    RunKeepsStore(w, questions, profiles, CorrectAnswers(questions, userId, replyToken, m));
    if m > 1 {
      var front := CorrectAnswers(questions, userId, replyToken, m - 1);
      var e := AnswerEvent(questions, userId, replyToken, m - 1);
      CorrectAnswersAdvance(w, questions, profiles, userId, replyToken, m - 1);
      assert (front + [e])[..|front + [e]| - 1] == front;
      var mid := Run(w, questions, profiles, front);
      assert IsTextFrom(mid, e, userId, questions[m - 1].answer);
      AnswerTransition(mid, questions, profiles, e, userId, questions[m - 1].answer);
    }
  }

  /**
   * A new user whose first message registers them, who then sends "MULAI" and
   * answers all ten questions correctly, ends idle with score 10 and receives
   * the congratulating summary.
   */
  lemma {:induction false} PerfectRound(w: World, questions: map<int, Question>, profiles: map<string, Profile>,
                                        userId: string, name: string, first: Event, replyToken: string)
    requires ValidStore(w.users) && SeedComplete(questions)
    requires userId !in w.users && userId in profiles && profiles[userId] == Profile(userId, name)
    requires first.userId == Some(userId)
    ensures var start := Event("message", Some(userId), replyToken, Some(EventMessage("text", "MULAI")));
      var r := Run(w, questions, profiles, [first, start] + CorrectAnswers(questions, userId, replyToken, LastQuestion + 1));
      userId in r.users && r.users[userId].number == 0 && r.users[userId].score == LastQuestion &&
      r.users[userId].displayName == name &&
      |r.replies| > 0 && r.replies[|r.replies| - 1] == Reply(replyToken, ScoreSummary(10)) &&
      ScoreSummary(10)[2] == Text(Praise)
  {
    var start := Event("message", Some(userId), replyToken, Some(EventMessage("text", "MULAI")));
    var w1 := Dispatch(w, questions, profiles, first);
    assert w1.users[userId] == User(userId, name, 0, 0);
    DispatchKeepsStore(w, questions, profiles, first);
    var w2 := Dispatch(w1, questions, profiles, start);
    assert Lower("MULAI") == StartTrigger;
    IdleText(w1, questions, profiles, start, userId, "MULAI");
    DispatchKeepsStore(w1, questions, profiles, start);
    assert w2.users[userId].displayName == name;
    assert [first, start][..1] == [first] && [first][..0] == [];
    assert Run(w, questions, profiles, [first]) == w1;
    assert Run(w, questions, profiles, [first, start]) == w2;
    var front := CorrectAnswers(questions, userId, replyToken, LastQuestion);
    var e := AnswerEvent(questions, userId, replyToken, LastQuestion);
    RunAppend(w, questions, profiles, [first, start], front + [e]);
    assert [first, start] + CorrectAnswers(questions, userId, replyToken, LastQuestion + 1) == [first, start] + (front + [e]);
    CorrectAnswersAdvance(w2, questions, profiles, userId, replyToken, LastQuestion);
    assert (front + [e])[..|front + [e]| - 1] == front;
    var w3 := Run(w2, questions, profiles, front);
    assert IsTextFrom(w3, e, userId, questions[LastQuestion].answer);
    AnswerTransition(w3, questions, profiles, e, userId, questions[LastQuestion].answer);
    SummaryThreshold(10);
  }
}
