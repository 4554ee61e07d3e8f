/**
 * The reply messages the webhook sends and the text it derives them from:
 * the fixed texts, PHP's ASCII lower-casing, PHP's integer-to-string
 * conversion, the answer options of a question and the end-of-quiz summary.
 */
module Messages {
  import opened Wrappers

  /** A row of the read-only questions table. */
  datatype Question = Question(
    number: int,
    text: string,
    image: Option<string>,
    optionA: string,
    optionB: string,
    optionC: string,
    optionD: string,
    answer: string)

  /** A button of a button template: the caption shown and the text sent back when tapped. */
  datatype Action = MessageAction(caption: string, text: string)

  /** The abstract outgoing messages (text, sticker, button template). */
  datatype Message =
    | Text(text: string)
    | Sticker(packageId: int, stickerId: int)
    | ButtonTemplate(altText: string, title: string, text: string, image: Option<string>, actions: seq<Action>)

  /** One reply call: the event's reply token and the messages sent with it, in order. */
  datatype Reply = Reply(replyToken: string, messages: seq<Message>)

  const LastQuestion: int := 10
  const PassingScore: int := 8
  const StartTrigger: string := "mulai"
  const Reminder: string := "Silakan kirim pesan \"MULAI\" untuk memulai kuis."
  const Taunt: string := "Wkwkwk! Nyerah? Ketik \"MULAI\" untuk bermain lagi!"
  const Praise: string := "Great! Mantap bro! Ketik \"MULAI\" untuk bermain lagi!"
  const TemplateAltText: string := "Gunakan mobile app untuk melihat soal"

  function Welcome(displayName: string): string
  {
    "Salam kenal, " + displayName + "!\n" + "Silakan kirim pesan \"MULAI\" untuk memulai kuis Tebak Kode."
  }

  // ---------------------------------------------------------------------
  // Lower-casing (PHP strtolower on ASCII letters)
  // ---------------------------------------------------------------------

  function LowerChar(c: char): char
  {
    if 'A' <= c <= 'Z' then (c as int - 'A' as int + 'a' as int) as char else c
  }

  function Lower(s: string): string
  {
    seq(|s|, i requires 0 <= i < |s| => LowerChar(s[i]))
  }

  /** The start trigger is exactly the five letters of "mulai", each in either case. */
  lemma StartTriggerCases(s: string)
    ensures Lower(s) == StartTrigger <==>
      |s| == 5 && forall i :: 0 <= i < 5 ==> s[i] == "mulai"[i] || s[i] == "MULAI"[i]
  {
  }

  // ---------------------------------------------------------------------
  // Decimal rendering of integers (PHP string conversion of an int)
  // ---------------------------------------------------------------------

  predicate IsDigit(c: char)
  {
    '0' <= c <= '9'
  }

  predicate AllDigits(s: string)
  {
    forall i :: 0 <= i < |s| ==> IsDigit(s[i])
  }

  function DigitChar(d: int): char
    requires 0 <= d < 10
  {
    ('0' as int + d) as char
  }

  function DecimalString(n: nat): string
    decreases n
  {
    if n < 10 then [DigitChar(n)] else DecimalString(n / 10) + [DigitChar(n % 10)]
  }

  /** The number a string of decimal digits denotes. */
  function DecimalValue(s: string): nat
    requires AllDigits(s)
    decreases |s|
  {
    if s == [] then 0 else DecimalValue(s[..|s| - 1]) * 10 + (s[|s| - 1] as int - '0' as int)
  }

  /** PHP's conversion of an int to a string: an optional minus sign, then the decimal digits. */
  function PhpIntString(i: int): string
  {
    if i < 0 then "-" + DecimalString(-i) else DecimalString(i)
  }

  /** Rendering a natural number gives digits without a leading zero that denote that number. */
  lemma {:induction false} DecimalRoundTrip(n: nat)
    ensures |DecimalString(n)| >= 1 && AllDigits(DecimalString(n))
    ensures DecimalValue(DecimalString(n)) == n
    ensures DecimalString(n)[0] == '0' ==> n == 0
  {
    if n >= 10 {
      DecimalRoundTrip(n / 10);
      var s := DecimalString(n / 10) + [DigitChar(n % 10)];
      assert s[..|s| - 1] == DecimalString(n / 10);
    }
  }

  /** Two numbers render alike exactly when they are equal. */
  lemma DecimalInjective(m: nat, n: nat)
    ensures DecimalString(m) == DecimalString(n) <==> m == n
  {
    DecimalRoundTrip(m);
    DecimalRoundTrip(n);
  }

  // ---------------------------------------------------------------------
  // Answer options of a question
  // ---------------------------------------------------------------------

  /** PHP's empty() on a string column: the empty string (or null) and "0". */
  predicate PhpEmpty(s: string)
  {
    s == "" || s == "0"
  }

  /** The option columns option_a .. option_d, in that order. */
  function OptionColumns(q: Question): seq<string>
  {
    [q.optionA, q.optionB, q.optionC, q.optionD]
  }

  /** The non-empty strings of xs, in their order in xs. */
  function Kept(xs: seq<string>): seq<string>
    decreases |xs|
  {
    if xs == [] then []
    else Kept(xs[..|xs| - 1]) + (if PhpEmpty(xs[|xs| - 1]) then [] else [xs[|xs| - 1]])
  }

  /** Filtering distributes over concatenation, so it keeps the input's order. */
  lemma {:induction false} KeptAppend(xs: seq<string>, ys: seq<string>)
    ensures Kept(xs + ys) == Kept(xs) + Kept(ys)
    decreases |ys|
  {
    if ys == [] {
      assert xs + ys == xs;
    } else {
      var last := ys[|ys| - 1];
      var front := ys[..|ys| - 1];
      assert (xs + ys)[..|xs + ys| - 1] == xs + front;
      KeptAppend(xs, front);
    }
  }

  /** The filter keeps exactly the non-empty strings and never grows its input. */
  lemma {:induction false} KeptMembers(xs: seq<string>)
    ensures |Kept(xs)| <= |xs|
    ensures forall s :: s in Kept(xs) <==> s in xs && !PhpEmpty(s)
    ensures (forall i :: 0 <= i < |xs| ==> !PhpEmpty(xs[i])) ==> Kept(xs) == xs
    decreases |xs|
  {
    if xs != [] {
      var front := xs[..|xs| - 1];
      KeptMembers(front);
      assert xs == front + [xs[|xs| - 1]];
      forall s ensures s in xs <==> s in front || s == xs[|xs| - 1] {
      }
    }
  }

  function Single(s: string): seq<string>
  {
    if PhpEmpty(s) then [] else [s]
  }

  lemma KeptSingle(s: string)
    ensures Kept([s]) == Single(s)
  {
  }

  /** The options of a question are the non-empty columns among a, b, c, d in that order; at most four. */
  lemma QuestionOptions(q: Question)
    ensures Kept(OptionColumns(q)) == Single(q.optionA) + Single(q.optionB) + Single(q.optionC) + Single(q.optionD)
    ensures |Kept(OptionColumns(q))| <= 4
    ensures forall s :: s in Kept(OptionColumns(q)) ==> !PhpEmpty(s)
  {
    var cols := OptionColumns(q);
    assert cols == [q.optionA] + [q.optionB] + [q.optionC] + [q.optionD];
    KeptSingle(q.optionA);
    KeptSingle(q.optionB);
    KeptSingle(q.optionC);
    KeptSingle(q.optionD);
    KeptAppend([q.optionA] + [q.optionB] + [q.optionC], [q.optionD]);
    KeptAppend([q.optionA] + [q.optionB], [q.optionC]);
    KeptAppend([q.optionA], [q.optionB]);
    KeptMembers(cols);
  }

  /** One button per option, whose caption and reply text are both the option. */
  function Actions(labels: seq<string>): seq<Action>
  {
    seq(|labels|, i requires 0 <= i < |labels| => MessageAction(labels[i], labels[i]))
  }

  /** The "n/10" title of a question's button template. */
  function QuestionTitle(n: int): string
  {
    PhpIntString(n) + "/10"
  }

  /** For a question number, the title is its decimal rendering followed by "/10". */
  lemma TitleShowsNumber(n: nat)
    ensures exists d :: QuestionTitle(n) == d + "/10" && AllDigits(d) && DecimalValue(d) == n
  {
    DecimalRoundTrip(n);
    assert QuestionTitle(n) == DecimalString(n) + "/10";
  }

  /** The single button-template reply that sends a question. */
  function QuestionReply(q: Question, replyToken: string): Reply
  {
    Reply(replyToken, [ButtonTemplate(TemplateAltText, QuestionTitle(q.number), q.text, q.image,
                                      Actions(Kept(OptionColumns(q))))])
  }

  // ---------------------------------------------------------------------
  // End-of-quiz summary
  // ---------------------------------------------------------------------

  /** The three-part summary: the score text, a sticker and a closing text. */
  function ScoreSummary(score: int): seq<Message>
  {
    [Text("Skormu " + PhpIntString(score)),
     Sticker(1, if score < PassingScore then 100 else 114),
     Text(if score < PassingScore then Taunt else Praise)]
  }

  /** Sticker and closing text are chosen by the same threshold, at exactly PassingScore. */
  lemma SummaryThreshold(score: int)
    ensures |ScoreSummary(score)| == 3
    ensures ScoreSummary(score)[1] == Sticker(1, 114) <==> score >= PassingScore
    ensures ScoreSummary(score)[1] == Sticker(1, 100) <==> score < PassingScore
    ensures ScoreSummary(score)[2] == Text(Praise) <==> score >= PassingScore
    ensures ScoreSummary(score)[2] == Text(Taunt) <==> score < PassingScore
    ensures ScoreSummary(7)[2] == Text(Taunt) && ScoreSummary(8)[2] == Text(Praise)
  {
  }

  /** The first summary message shows the score, in decimal, after "Skormu ". */
  lemma SummaryShowsScore(score: nat)
    ensures exists d :: ScoreSummary(score)[0] == Text("Skormu " + d) && AllDigits(d) && DecimalValue(d) == score
  {
    DecimalRoundTrip(score);
    assert ScoreSummary(score)[0] == Text("Skormu " + DecimalString(score));
  }
}
