/**
 * The webhook controller as an object: the users table and the replies sent
 * are fields its handlers update, `user` is the record loaded for the event
 * being handled, and the question table and profile answers are fixed inputs.
 * Every method is tied to its counterpart in Quiz.
 */
module WebhookController {
  import opened Wrappers
  import opened Messages
  import opened Quiz

  /** The HTTP response of the webhook. */
  datatype Response = Response(status: int, content: string)

  const Acknowledgement: string := "No events found!"

  class Webhook {
    var users: map<string, User>
    var replies: seq<Reply>
    var user: Option<User>
    const questions: map<int, Question>
    /** The answer of the profile lookup for each user id; a missing id is a failed lookup. */
    const profiles: map<string, Profile>

    ghost predicate Valid()
      reads this
    {
      ValidStore(users) && SeedComplete(questions)
    }

    function State(): World
      reads this
    {
      World(users, replies)
    }

    constructor (users: map<string, User>, questions: map<int, Question>, profiles: map<string, Profile>)
      requires ValidStore(users) && SeedComplete(questions)
      ensures Valid()
      ensures this.users == users && this.questions == questions && this.profiles == profiles
      ensures replies == [] && user == None
    {
      this.users := users;
      this.questions := questions;
      this.profiles := profiles;
      replies := [];
      user := None;
    }

    /** handleEvents: every event of the batch in order, then always 200 with the fixed body. */
    method HandleEvents(events: Option<seq<Event>>) returns (response: Response)
      requires Valid()
      modifies this
      ensures Valid()
      ensures State() == (if events.Some? then Run(old(State()), questions, profiles, events.value) else old(State()))
      ensures response == Response(200, Acknowledgement)
    {
      if events.Some? {
        var es := events.value;
        var i := 0;
        while i < |es|
          invariant 0 <= i <= |es|
          invariant Valid()
          invariant State() == Run(old(State()), questions, profiles, es[..i])
        {
          HandleEvent(es[i]);
          assert es[..i + 1][..i] == es[..i];
          i := i + 1;
        }
        assert es[..|es|] == es;
      }
      response := Response(200, Acknowledgement);
    }

    /** One pass of the loop in handleEvents: load the sender, then route the event. */
    method HandleEvent(event: Event)
      requires Valid()
      modifies this`users, this`replies, this`user
      ensures Valid()
      ensures State() == Dispatch(old(State()), questions, profiles, event)
      ensures event.userId.None? ==> user == old(user)
    {
      // skip group and room events
      if event.userId.Some? {
        user := FindUser(users, event.userId.value);
        if user.None? {
          FollowCallback(event);
        } else if event.kind == "message" {
          if event.message.Some? && Lower(event.message.value.kind) == "text" {
            TextMessage(event);
          } else if event.message.Some? && Lower(event.message.value.kind) == "sticker" {
            StickerMessage(event);
          }
        } else if Lower(event.kind) == "follow" {
          FollowCallback(event);
        }
      }
      DispatchKeepsStore(old(State()), questions, profiles, event);
    }

    /** followCallback: look the profile up; on success, reply and insert the user. */
    method FollowCallback(event: Event)
      requires event.userId.Some?
      modifies this`users, this`replies
      ensures State() == Follow(old(State()), profiles, event.userId.value, event.replyToken)
    {
      if event.userId.value in profiles {
        var profile := profiles[event.userId.value];
        replies := replies + [Reply(event.replyToken, [Text(Welcome(profile.displayName)), Sticker(1, 3)])];
        users := SaveUser(users, profile.userId, profile.displayName);
      }
    }

    /** textMessage for the user just loaded from the table. */
    method TextMessage(event: Event)
      requires Valid() && user.Some? && user.value.userId in users && users[user.value.userId] == user.value
      requires event.message.Some?
      modifies this`users, this`replies, this`user
      ensures Valid()
      ensures State() == OnText(old(State()), questions, old(user.value), event.message.value.text, event.replyToken)
    {
      var userMessage := event.message.value.text;
      if user.value.number == 0 {
        if Lower(userMessage) == StartTrigger {
          users := SetScore(users, user.value.userId, 0);
          users := SetUserProgress(users, user.value.userId, 1);
          SendQuestion(event.replyToken, 1);
        } else {
          replies := replies + [Reply(event.replyToken, [Text(Reminder)])];
        }
      } else {
        CheckAnswer(userMessage, event.replyToken);
      }
    }

    /** stickerMessage: the same nudge in every state. */
    method StickerMessage(event: Event)
      modifies this`replies
      ensures State() == OnSticker(old(State()), event.replyToken)
    {
      replies := replies + [Reply(event.replyToken, [Sticker(1, 106), Text(Reminder)])];
    }

    /** The answer options of a question, built column by column from option_a to option_d. */
    static method AnswerOptions(q: Question) returns (options: seq<Action>)
      ensures options == Actions(Kept(OptionColumns(q)))
      ensures |options| <= 4
      ensures forall i :: 0 <= i < |options| ==> !PhpEmpty(options[i].caption) && options[i].caption == options[i].text
    {
      var columns := OptionColumns(q);
      var kept: seq<string> := [];
      options := [];
      for i := 0 to 4
        invariant kept == Kept(columns[..i])
        invariant options == Actions(kept)
      {
        assert columns[..i + 1][..i] == columns[..i];
        if !PhpEmpty(columns[i]) {
          kept := kept + [columns[i]];
          options := options + [MessageAction(columns[i], columns[i])];
        }
      }
      assert columns[..4] == columns;
      QuestionOptions(q);
      KeptMembers(columns);
    }

    /** sendQuestion: one button-template reply for question n. */
    method SendQuestion(replyToken: string, n: int)
      requires n in questions
      modifies this`replies
      ensures replies == old(replies) + [QuestionReply(questions[n], replyToken)]
    {
      var question := questions[n];
      var options := AnswerOptions(question);
      var title := PhpIntString(question.number) + "/10";
      replies := replies + [Reply(replyToken, [ButtonTemplate(TemplateAltText, title, question.text, question.image, options)])];
    }

    /** checkAnswer: grade the answer of the user just loaded from the table, raising the loaded score in place, then advance or summarise. */
    method CheckAnswer(message: string, replyToken: string)
      requires Valid() && user.Some? && user.value.userId in users && users[user.value.userId] == user.value
      modifies this`users, this`replies, this`user
      ensures old(user.value).number != 0 ==> Valid()
      ensures State() == Answer(old(State()), questions, old(user.value), message, replyToken)
      ensures user == Some(old(user.value).(score := if IsAnswerEqual(questions, old(user.value).number, message)
                                                     then old(user.value).score + 1 else old(user.value).score))
    {
      ghost var w0, u0 := State(), user.value;
      assert 0 <= u0.number <= LastQuestion;
      if IsAnswerEqual(questions, user.value.number, message) {
        user := Some(user.value.(score := user.value.score + 1));
        users := SetScore(users, user.value.userId, user.value.score);
      }
      if user.value.number < LastQuestion {
        users := SetUserProgress(users, user.value.userId, user.value.number + 1);
        SendQuestion(replyToken, user.value.number + 1);
      } else {
        replies := replies + [Reply(replyToken, ScoreSummary(user.value.score))];
        users := SetUserProgress(users, user.value.userId, 0);
      }
      assert State() == Answer(w0, questions, u0, message, replyToken);
      if u0.number != 0 {
        AnswerKeepsStore(w0, questions, u0, message, replyToken);
      }
    }
  }
}
