/**
 The scheduled jobs (src/cron/index.ts): the daily meme, and the quiz
 campaign, in which a publish job posts a quiz as a poll and pins it, and
 a reveal job later posts the answer, unpins the poll and (after a delay)
 clears the campaign's records. Only one campaign runs at a time: the
 "quiz-id" record points at it and blocks further publishing.
 */
module Cron {
  import opened Wrappers
  import opened Strings
  import opened Effects
  import opened Ai
  import opened QuizAi
  import opened Storage
  import MemeAi

  /** `process.env.TEST_GROUP_ID || config.bot?.group_target || ""`. */
  function Target(testGroupId: Option<string>, groupTarget: Option<string>): (to: string)
    ensures testGroupId.Some? && testGroupId.value != "" ==> to == testGroupId.value
    ensures (testGroupId.None? || testGroupId.value == "") && groupTarget.Some? ==> to == groupTarget.value
    ensures (testGroupId.None? || testGroupId.value == "") && groupTarget.None? ==> to == ""
  {
    if testGroupId.Some? && testGroupId.value != "" then testGroupId.value
    else if groupTarget.Some? && groupTarget.value != "" then groupTarget.value
    else ""
  }

  // ---------------------------------------------------------------------
  // the daily meme
  // ---------------------------------------------------------------------

  /** `sendMeme(sock)` once `generate(true)` has produced `result`: the
      image goes out only when the result formats to something. */
  function SendMeme(to: string, result: MemeAi.MemeResult): (actions: seq<Action>)
    ensures |actions| <= 1 && CountSends(actions) == |actions|
    ensures |actions| == 1 <==> result.Made?
    ensures result.Made? ==> actions == [Send(to, Image(Some(result.url), AddGNDCFooter(None)), false)]
  {
    match MemeAi.FormatResponse(result)
    case None => []
    case Some(shown) => [Send(to, Image(Some(shown.url), AddGNDCFooter(None)), false)]
  }

  // ---------------------------------------------------------------------
  // publishing a quiz
  // ---------------------------------------------------------------------

  const PointerKey := "quiz-id"

  /** The records of a campaign live `CampaignTtl` seconds. */
  const CampaignTtl: nat := 259196

  /** A pinned poll stays pinned for a day. */
  const PinSeconds: nat := 86400

  const MessagePrefix := "message:"

  function MessageKeyOf(quizId: string): string
  {
    MessagePrefix + quizId
  }

  const DifficultyLabel := "*\n*Difficulté :* "
  const QuestionLabel := "\n*Question :*\n"

  /** The poll's title text. */
  function PollName(quiz: Quiz): string
  {
    "*" + quiz.titre + DifficultyLabel + quiz.difficulte + QuestionLabel + quiz.question + "\n"
  }

  /** `quiz.options.map((o) => o.text)`. */
  function OptionTexts(options: seq<QuizOption>): (texts: seq<string>)
    ensures |texts| == |options|
    ensures forall i :: 0 <= i < |options| ==> texts[i] == options[i].text
  {
    if |options| == 0 then [] else [options[0].text] + OptionTexts(options[1..])
  }

  /** One run of a job: what it sent and the store it leaves behind. */
  datatype Run = Run(actions: seq<Action>, store: Store)

  /** Whether a live, truthy pointer is present. */
  predicate Pending(s: Store, now: int)
  {
    Get(s, PointerKey, now).0.Truthy()
  }

  /** `k` is the quiz or message key of a generated quiz. */
  predicate CampaignKey(generated: Result<Quiz, string>, k: string)
  {
    generated.Success? && (k == QuizKey(generated.value.id) || k == MessageKeyOf(generated.value.id))
  }

  /** `sendQuiz(sock)`: `generated` is what `quiz.generate()` produced, and
      `sent` what `sendMessage` resolved the poll to (it may resolve to
      nothing). */
  function Publish(s: Store, now: int, to: string, generated: Result<Quiz, string>, sent: Option<SentMessage>): (r: Run)
    ensures Pending(s, now) ==> r == Run([], s)
    ensures !Pending(s, now) && generated.Failure? ==> r == Run([], Get(s, PointerKey, now).1)
    ensures !Pending(s, now) && generated.Success? ==>
      && |r.actions| == (if sent.Some? then 2 else 1)
      && r.actions[0] == Send(to, Poll(PollName(generated.value), OptionTexts(generated.value.options), Some(1), Some(false)), false)
      && (sent.Some? ==> r.actions[1] == Send(to, Pin(Some(sent.value.key), 1, Some(PinSeconds)), false))
    ensures !Pending(s, now) && generated.Success? ==>
      var quiz := generated.value;
      && QuizKey(quiz.id) in r.store && MessageKeyOf(quiz.id) in r.store && PointerKey in r.store
      && r.store[PointerKey].data == Str(quiz.id) && r.store[PointerKey].expiresAt.None?
      && r.store[QuizKey(quiz.id)].data == QuizValue(quiz)
      && r.store[MessageKeyOf(quiz.id)].data == (if sent.Some? then MessageValue(sent.value) else Undefined)
      && r.store[QuizKey(quiz.id)].expiresAt == Some(now + CampaignTtl * 1000)
      && r.store[MessageKeyOf(quiz.id)].expiresAt == Some(now + CampaignTtl * 1000)
    ensures forall k :: k != PointerKey && !CampaignKey(generated, k) ==>
      (k in r.store <==> k in s) && (k in s ==> r.store[k] == s[k])
  {
    var (pending, s1) := Get(s, PointerKey, now);
    if pending.Truthy() then Run([], s)
    else
      match generated
      case Failure(_) => Run([], s1)
      case Success(quiz) =>
        var poll := Send(to, Poll(PollName(quiz), OptionTexts(quiz.options), Some(1), Some(false)), false);
        var pin := if sent.Some? then [Send(to, Pin(Some(sent.value.key), 1, Some(PinSeconds)), false)] else [];
        var stored := if sent.Some? then MessageValue(sent.value) else Undefined;
        var s2 := Save(s1, QuizKey(quiz.id), QuizItem, QuizValue(quiz), Some(CampaignTtl), now);
        var s3 := Save(s2, MessageKeyOf(quiz.id), Custom, stored, Some(CampaignTtl), now);
        KeysDiffer(quiz.id);
        var s4 := Save(s3, PointerKey, Custom, Str(quiz.id), None, now);
        Run([poll] + pin, s4)
  }

  /** The three records of a campaign live under three different keys. */
  lemma KeysDiffer(quizId: string)
    ensures QuizKey(quizId) != MessageKeyOf(quizId)
    ensures QuizKey(quizId) != PointerKey && MessageKeyOf(quizId) != PointerKey
  {
    assert QuizKey(quizId)[0] == 'q' && MessageKeyOf(quizId)[0] == 'm';
    assert QuizKey(quizId)[4] == ':' && PointerKey[4] == '-';
  }

  /** A published campaign blocks the next one for as long as its pointer
      stands: the pointer has no expiry. */
  lemma PublishBlocksPublish(s: Store, now: int, to: string, quiz: Quiz, sent: Option<SentMessage>,
                             later: int, to': string, next: Result<Quiz, string>, sent': Option<SentMessage>)
    requires !Pending(s, now) && quiz.id != ""
    ensures var s1 := Publish(s, now, to, Success(quiz), sent).store;
      Pending(s1, later) && Publish(s1, later, to', next, sent') == Run([], s1)
  {
  }

  // ---------------------------------------------------------------------
  // revealing the answer
  // ---------------------------------------------------------------------

  /** `${value}` for a stored value: objects render as "[object Object]". */
  function Interpolate(v: Value): string
  {
    match v
    case Null => "null"
    case Undefined => "undefined"
    case Str(s) => s
    case _ => "[object Object]"
  }

  const NoOptionsError := "TypeError: Cannot read properties of undefined (reading 'filter')"
  const NoCorrectError := "TypeError: Cannot read properties of undefined (reading 'text')"

  /** The text announcing the answer. */
  const AnswerLabel := "*Réponse :* "
  const ExplanationLabel := "\n*Explication :* "

  function AnswerText(response: string, explication: string): string
  {
    AnswerLabel + response + ExplanationLabel + explication
  }

  /** One run of the reveal job: what it sent, the store, the campaign whose
      clean-up it scheduled, and how its promise settled. */
  datatype Reveal = Reveal(actions: seq<Action>, store: Store, cleanup: Option<string>, outcome: Outcome)

  /** The id stored under `quiz-id`, as `${quizId}` renders it. */
  function PointedId(s: Store, now: int): string
  {
    Interpolate(Get(s, PointerKey, now).0)
  }

  /** What `getQuiz(quizId)` reads for the pointed campaign. */
  function PointedRecord(s: Store, now: int): Value
  {
    Get(Get(s, PointerKey, now).1, QuizKey(PointedId(s, now)), now).0
  }

  /** `k` is the first option marked correct: the one
      `options.filter((v) => v.isCorrect)[0]` picks. */
  predicate FirstCorrect(options: seq<QuizOption>, k: int)
  {
    0 <= k < |options| && options[k].isCorrect && forall j :: 0 <= j < k ==> !options[j].isCorrect
  }

  /** The first action announces the first correct option's text and the
      explanation. */
  ghost predicate SendsAnswer(r: Reveal, to: string, quiz: Quiz)
  {
    |r.actions| > 0
    && exists k :: (FirstCorrect(quiz.options, k)
      && r.actions[0] == Send(to, Text(AnswerText(quiz.options[k].text, quiz.explication), []), false))
  }

  /** `sendQuizAnswers(sock)` up to the scheduled clean-up. Once the quiz
      record is found truthy the message record is read (an expired one is
      deleted); then the answer is taken from the first correct option,
      which throws for a record that is not a quiz or a quiz without a
      correct option; only then is the message record tested. */
  function RevealAnswer(s: Store, now: int, to: string): (r: Reveal)
    ensures r.cleanup.Some? <==> |r.actions| > 0
    ensures r.cleanup.Some? ==>
      r.outcome == Completed && |r.actions| == 2 && r.actions[1].Send? && r.actions[1].payload.Pin? && r.actions[1].payload.pinType == 0
    ensures r.cleanup.Some? ==> Pending(s, now) && r.cleanup == Some(PointedId(s, now))
    ensures r.cleanup.Some? ==> PointedRecord(s, now).QuizValue? && SendsAnswer(r, to, PointedRecord(s, now).quiz)
    ensures !Pending(s, now) ==> r == Reveal([], Get(s, PointerKey, now).1, None, Completed)
    ensures r.outcome == Threw(NoOptionsError) <==>
      Pending(s, now) && PointedRecord(s, now).Truthy() && !PointedRecord(s, now).QuizValue?
    ensures r.outcome == Threw(NoCorrectError) <==>
      Pending(s, now) && PointedRecord(s, now).QuizValue?
      && forall i :: 0 <= i < |PointedRecord(s, now).quiz.options| ==> !PointedRecord(s, now).quiz.options[i].isCorrect
    ensures r.outcome.Threw? ==> r.actions == [] && r.cleanup.None?
    ensures Pending(s, now) ==> Pending(r.store, now)
    ensures forall k :: k in r.store ==> k in s && r.store[k] == s[k]
    ensures forall k :: k in s && !Expired(s[k], now) ==> k in r.store
    ensures Pending(s, now) && PointedRecord(s, now).Truthy() ==>
      var m := MessageKeyOf(PointedId(s, now));
      (m in r.store <==> m in s && !Expired(s[m], now))
  {
    var (pointer, s1) := Get(s, PointerKey, now);
    if !pointer.Truthy() then Reveal([], s1, None, Completed)
    else
      var quizId := Interpolate(pointer);
      KeysDiffer(quizId);
      var (stored, s2) := Get(s1, QuizKey(quizId), now);
      if !stored.Truthy() then Reveal([], s2, None, Completed)
      else
        var (msg, s3) := Get(s2, MessageKeyOf(quizId), now);
        if !stored.QuizValue? then Reveal([], s3, None, Threw(NoOptionsError))
        else
          var quiz := stored.quiz;
          match FindFirst(quiz.options, IsCorrectOption())
          case None =>
            FindFirstNoneIsNoCorrect(quiz.options);
            Reveal([], s3, None, Threw(NoCorrectError))
          case Some(k) =>
            FindFirstIsFirstCorrect(quiz.options, k);
            if !msg.Truthy() then Reveal([], s3, None, Completed)
            else
              var answer := Send(to, Text(AnswerText(quiz.options[k].text, quiz.explication), []), false);
              var key := if msg.MessageValue? then Some(msg.msg.key) else None;
              Reveal([answer, Send(to, Pin(key, 0, None), false)], s3, Some(quizId), Completed)
  }

  lemma FindFirstIsFirstCorrect(options: seq<QuizOption>, k: nat)
    requires FindFirst(options, IsCorrectOption()) == Some(k)
    ensures FirstCorrect(options, k)
  {
    assert IsCorrectOption()(options[k]);
    forall j | 0 <= j < k ensures !options[j].isCorrect {
      assert !IsCorrectOption()(options[j]);
    }
  }

  lemma FindFirstNoneIsNoCorrect(options: seq<QuizOption>)
    requires FindFirst(options, IsCorrectOption()).None?
    ensures forall i :: 0 <= i < |options| ==> !options[i].isCorrect
  {
    forall i | 0 <= i < |options| ensures !options[i].isCorrect {
      assert !IsCorrectOption()(options[i]);
    }
  }

  /** The delayed clean-up: the quiz, its message and the pointer go. */
  function Cleanup(s: Store, quizId: string): (r: Store)
    ensures QuizKey(quizId) !in r && MessageKeyOf(quizId) !in r && PointerKey !in r
    ensures forall k :: k in r <==> k in s && k !in {QuizKey(quizId), MessageKeyOf(quizId), PointerKey}
    ensures forall k :: k in r ==> r[k] == s[k]
  {
    Delete(Delete(Delete(s, QuizKey(quizId)), MessageKeyOf(quizId)), PointerKey)
  }

  /** Until they expire, the published records read back as written: the
      pointer names the quiz, and the quiz and message records hold what
      was saved. */
  lemma {:induction false} LiveCampaign(s: Store, now: int, to: string, quiz: Quiz, sent: Option<SentMessage>, later: int)
    requires !Pending(s, now) && quiz.id != ""
    requires now <= later <= now + CampaignTtl * 1000
    ensures var st := Publish(s, now, to, Success(quiz), sent).store;
      && Get(st, PointerKey, later) == (Str(quiz.id), st)
      && Get(st, QuizKey(quiz.id), later) == (QuizValue(quiz), st)
      && Get(st, MessageKeyOf(quiz.id), later) == (if sent.Some? then MessageValue(sent.value) else Undefined, st)
  {
    KeysDiffer(quiz.id);
  }

  /** The reveal of a live campaign whose quiz has a correct option `k`:
      the answer and the unpin go out exactly when the message record is
      truthy. */
  lemma {:induction false} RevealLive(st: Store, later: int, to: string, quiz: Quiz, msg: Value, k: nat)
    requires quiz.id != ""
    requires Get(st, PointerKey, later) == (Str(quiz.id), st)
    requires Get(st, QuizKey(quiz.id), later) == (QuizValue(quiz), st)
    requires Get(st, MessageKeyOf(quiz.id), later) == (msg, st)
    requires FindFirst(quiz.options, IsCorrectOption()) == Some(k)
    ensures k < |quiz.options|
    ensures !msg.Truthy() ==> RevealAnswer(st, later, to) == Reveal([], st, None, Completed)
    ensures msg.MessageValue? ==>
      (RevealAnswer(st, later, to)
         == Reveal([Send(to, Text(AnswerText(quiz.options[k].text, quiz.explication), []), false),
                    Send(to, Pin(Some(msg.msg.key), 0, None), false)], st, Some(quiz.id), Completed))
  {
    assert Interpolate(Str(quiz.id)) == quiz.id;
  }

  /** With exactly one correct option, `FindFirst` finds it. */
  lemma {:induction false} SingleCorrectFound(options: seq<QuizOption>) returns (k: nat)
    requires CountCorrect(options) == 1
    ensures k < |options| && options[k].isCorrect
    ensures FindFirst(options, IsCorrectOption()) == Some(k)
  {
    CountCorrectOne(options);
    k :| 0 <= k < |options| && options[k].isCorrect
      && forall j :: 0 <= j < |options| && j != k ==> !options[j].isCorrect;
    assert IsCorrectOption()(options[k]);
  }

  /** The whole campaign: a publish whose poll was sent and a reveal before
      the records expire post the first correct option's text and the
      explanation, unpin that very poll, and, once the clean-up has run,
      leave the way open for the next publish. */
  lemma {:induction false} CampaignCompletes(s: Store, now: int, to: string, quiz: Quiz, m: SentMessage, later: int, to': string)
    requires !Pending(s, now) && quiz.id != ""
    requires now <= later <= now + CampaignTtl * 1000
    requires CountCorrect(quiz.options) == 1
    ensures var p := Publish(s, now, to, Success(quiz), Some(m));
      var r := RevealAnswer(p.store, later, to');
      exists k :: 0 <= k < |quiz.options| && quiz.options[k].isCorrect
        && r.actions == [Send(to', Text(AnswerText(quiz.options[k].text, quiz.explication), []), false),
                         Send(to', Pin(Some(m.key), 0, None), false)]
        && r.cleanup == Some(quiz.id) && r.outcome == Completed
        && !Pending(Cleanup(r.store, quiz.id), later)
  {
    var st := Publish(s, now, to, Success(quiz), Some(m)).store;
    LiveCampaign(s, now, to, quiz, Some(m), later);
    var k := SingleCorrectFound(quiz.options);
    RevealLive(st, later, to', quiz, MessageValue(m), k);
    var r := RevealAnswer(st, later, to');
    assert PointerKey !in Cleanup(r.store, quiz.id);
  }

  /** With a quiz record but no message record, the reveal sends nothing,
      schedules no clean-up and leaves the pointer: every later publish is
      blocked. */
  lemma {:induction false} UnsentPollBlocksForever(s: Store, now: int, to: string, quiz: Quiz, later: int, to': string,
                                after: int, next: Result<Quiz, string>, sent': Option<SentMessage>)
    requires !Pending(s, now) && quiz.id != ""
    requires now <= later <= now + CampaignTtl * 1000
    requires CountCorrect(quiz.options) == 1
    ensures var p := Publish(s, now, to, Success(quiz), None);
      var r := RevealAnswer(p.store, later, to');
      && r.actions == [] && r.cleanup.None? && r.outcome == Completed
      && Pending(r.store, after)
      && Publish(r.store, after, to, next, sent').actions == []
  {
    var st := Publish(s, now, to, Success(quiz), None).store;
    LiveCampaign(s, now, to, quiz, None, later);
    var k := SingleCorrectFound(quiz.options);
    RevealLive(st, later, to', quiz, Undefined, k);
    assert PointerKey in st && st[PointerKey].expiresAt.None?;
    assert Pending(st, after);
  }

  /** A reveal that finds no pointer, or a pointer without a live quiz
      record, sends nothing and schedules nothing. */
  lemma NothingToReveal(s: Store, now: int, to: string)
    requires !Pending(s, now)
      || !Get(Get(s, PointerKey, now).1, QuizKey(Interpolate(Get(s, PointerKey, now).0)), now).0.Truthy()
    ensures RevealAnswer(s, now, to).actions == [] && RevealAnswer(s, now, to).cleanup.None?
  {
  }
}
