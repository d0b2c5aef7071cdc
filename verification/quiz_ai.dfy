/**
 The quiz generator (src/quiz-ai.ts): validation of the model's answer,
 answer checking and the WhatsApp rendering of a quiz.
 */
module QuizAi {
  import opened Wrappers
  import opened Strings
  import opened Ai

  datatype QuizOption = QuizOption(id: string, text: string, isCorrect: bool)

  /** `Quiz`; the difficulty is whatever the model returned, so a plain string. */
  datatype Quiz = Quiz(id: string, titre: string, question: string, domaine: string,
                       difficulte: string, options: seq<QuizOption>, explication: string,
                       points: int)

  /** The arguments of a `create_quiz` tool call. */
  datatype QuizArgs = QuizArgs(titre: string, question: string, domaine: string,
                               difficulte: string, options: seq<QuizOption>,
                               explication: string, points: int)

  const ToolName := "create_quiz"

  const TechDomains: seq<string> := [
    "Programmation Python",
    "Programmation JavaScript",
    "Développement Web",
    "Bases de données",
    "Réseaux informatiques",
    "Intelligence Artificielle",
    "DevOps et CI/CD",
    "Cloud Computing",
    "Git et Contrôle de version",
    "Sécurité informatique"
  ]

  const Levels: seq<string> := ["debutant", "intermediaire", "avance"]

  /** `domaine || techDomains[Math.floor(Math.random() * 10)]`; `pick` is the
      random index. */
  function SelectDomain(domaine: Option<string>, pick: nat): (d: string)
    requires pick < |TechDomains|
    ensures domaine.Some? && domaine.value != "" ==> d == domaine.value
    ensures domaine.None? || domaine.value == "" ==> d in TechDomains
  {
    if domaine.Some? && domaine.value != "" then domaine.value else TechDomains[pick]
  }

  /** `difficulte || [...levels][Math.floor(Math.random() * 3)]`. */
  function SelectDifficulty(difficulte: Option<string>, pick: nat): (d: string)
    requires pick < |Levels|
    ensures difficulte.Some? && difficulte.value != "" ==> d == difficulte.value
    ensures difficulte.None? || difficulte.value == "" ==> d in Levels
  {
    if difficulte.Some? && difficulte.value != "" then difficulte.value else Levels[pick]
  }

  /** How many options are marked correct. */
  function CountCorrect(options: seq<QuizOption>): (n: nat)
    ensures n <= |options|
    ensures n == 0 <==> forall i :: 0 <= i < |options| ==> !options[i].isCorrect
  {
    if |options| == 0 then 0
    else (if options[0].isCorrect then 1 else 0) + CountCorrect(options[1..])
  }

  /** A single correct option counts as one. */
  lemma {:induction false} OneCorrectCountsOne(options: seq<QuizOption>, i: nat)
    requires i < |options| && options[i].isCorrect
    requires forall j :: 0 <= j < |options| && j != i ==> !options[j].isCorrect
    ensures CountCorrect(options) == 1
    decreases |options|
  {
    var rest := options[1..];
    if i == 0 {
      assert forall j :: 0 <= j < |rest| ==> !rest[j].isCorrect by {
        forall j | 0 <= j < |rest| ensures !rest[j].isCorrect {
          assert rest[j] == options[j + 1];
        }
      }
    } else {
      forall j | 0 <= j < |rest| && j != i - 1 ensures !rest[j].isCorrect {
        assert rest[j] == options[j + 1];
      }
      OneCorrectCountsOne(rest, i - 1);
    }
  }

  /** A count of one comes from a single correct option. */
  lemma {:induction false} CountOneLocates(options: seq<QuizOption>) returns (i: nat)
    requires CountCorrect(options) == 1
    ensures i < |options| && options[i].isCorrect
    ensures forall j :: 0 <= j < |options| && j != i ==> !options[j].isCorrect
    decreases |options|
  {
    var rest := options[1..];
    if options[0].isCorrect {
      i := 0;
      forall j | 0 <= j < |options| && j != 0 ensures !options[j].isCorrect {
        assert options[j] == rest[j - 1];
      }
    } else {
      var k := CountOneLocates(rest);
      i := k + 1;
      forall j | 0 <= j < |options| && j != i ensures !options[j].isCorrect {
        if j > 0 {
          assert options[j] == rest[j - 1];
        }
      }
    }
  }

  /** Exactly one correct option: some option is correct and no other is. */
  lemma CountCorrectOne(options: seq<QuizOption>)
    ensures CountCorrect(options) == 1 <==>
      exists i :: 0 <= i < |options| && options[i].isCorrect
        && forall j :: 0 <= j < |options| && j != i ==> !options[j].isCorrect
  {
    if CountCorrect(options) == 1 {
      var i := CountOneLocates(options);
    }
    if exists i :: 0 <= i < |options| && options[i].isCorrect
        && forall j :: 0 <= j < |options| && j != i ==> !options[j].isCorrect {
      var i :| 0 <= i < |options| && options[i].isCorrect
        && forall j :: 0 <= j < |options| && j != i ==> !options[j].isCorrect;
      OneCorrectCountsOne(options, i);
    }
  }

  const CountErrorTail := " réponses correctes au lieu de 1"

  /** The error for a quiz without exactly one correct option. */
  function CountError(n: nat): string
  {
    NatToString(n) + CountErrorTail
  }

  /** The error reports the count: `parseInt` of its text gives it back. */
  lemma {:induction false} CountErrorReportsCount(n: nat)
    ensures StartsWith(CountError(n), IntToString(n))
    ensures ParseInt(CountError(n)) == Some(n)
  {
    assert CountError(n)[..|NatToString(n)|] == NatToString(n);
    ParseIntDigitsThen(n, CountErrorTail);
  }

  /** `generate(domaine?, difficulte?, sujet?)` once the completion has come
      back: `now` and `suffix` make the id. The selected domain and
      difficulty only shape the prompt; the quiz takes the model's fields. */
  function Generate(completion: Completion<QuizArgs>, now: nat, suffix: string): (r: Result<Quiz, string>)
    ensures r.Success? ==> CountCorrect(r.value.options) == 1
    ensures r.Success? ==> r.value.id == GenerateId("quiz", now, suffix)
    ensures completion.Rejected? ==> r == Failure(HandleOpenAIError(completion.error))
    ensures r.Success? <==>
      && completion.Answered?
      && ValidateToolCall(completion.toolCalls, ToolName).Success?
      && var call := ValidateToolCall(completion.toolCalls, ToolName).value;
         call.arguments.Success? && CountCorrect(call.arguments.value.options) == 1
    ensures completion.Answered? && ValidateToolCall(completion.toolCalls, ToolName).Success?
      && ValidateToolCall(completion.toolCalls, ToolName).value.arguments.Success?
      && CountCorrect(ValidateToolCall(completion.toolCalls, ToolName).value.arguments.value.options) != 1
      ==> r == Failure(CountError(CountCorrect(ValidateToolCall(completion.toolCalls, ToolName).value.arguments.value.options)))
    ensures r.Success? ==>
      var a := ValidateToolCall(completion.toolCalls, ToolName).value.arguments.value;
      r.value == Quiz(GenerateId("quiz", now, suffix), a.titre, a.question, a.domaine,
                      a.difficulte, a.options, a.explication, a.points)
  {
    match completion
    case Rejected(e) => Failure(HandleOpenAIError(e))
    case Answered(toolCalls) =>
      match ValidateToolCall(toolCalls, ToolName)
      case Failure(err) => Failure(err)
      case Success(call) =>
        match call.arguments
        case Failure(parseError) => Failure(parseError)
        case Success(a) =>
          var n := CountCorrect(a.options);
          if n != 1 then Failure(CountError(n))
          else Success(Quiz(GenerateId("quiz", now, suffix), a.titre, a.question, a.domaine,
                            a.difficulte, a.options, a.explication, a.points))
  }

  // ---------------------------------------------------------------------
  // checking an answer
  // ---------------------------------------------------------------------

  /** `options.find(...)`: the index of the first option satisfying `p`. */
  function FindFirst(options: seq<QuizOption>, p: QuizOption -> bool): (r: Option<nat>)
    ensures r.Some? ==>
      (r.value < |options| && p(options[r.value]) && forall j :: 0 <= j < r.value ==> !p(options[j]))
    ensures r.None? ==> forall j :: 0 <= j < |options| ==> !p(options[j])
  {
    if |options| == 0 then None
    else if p(options[0]) then Some(0)
    else match FindFirst(options[1..], p)
      case None => None
      case Some(k) => Some(k + 1)
  }

  function ById(answerId: string): QuizOption -> bool
  {
    (o: QuizOption) => o.id == answerId
  }

  function IsCorrectOption(): QuizOption -> bool
  {
    (o: QuizOption) => o.isCorrect
  }

  /** `${correct?.id}`: the first correct option's id, or "undefined". */
  function CorrectId(quiz: Quiz): string
  {
    match FindFirst(quiz.options, IsCorrectOption())
    case Some(k) => quiz.options[k].id
    case None => "undefined"
  }

  datatype Verdict = Verdict(correct: bool, explanation: string)

  /** `checkAnswer(quiz, answerId)`: the first option with that id decides. */
  function CheckAnswer(quiz: Quiz, answerId: string): (v: Verdict)
    ensures v.correct <==>
      exists i :: 0 <= i < |quiz.options| && quiz.options[i].id == answerId && quiz.options[i].isCorrect
        && forall j :: 0 <= j < i ==> quiz.options[j].id != answerId
    ensures (forall i :: 0 <= i < |quiz.options| ==> quiz.options[i].id != answerId) <==>
      v == Verdict(false, "Option invalide")
    ensures v.correct ==>
      v.explanation == "✅ *Correct !* +" + IntToString(quiz.points) + " points\n\n\U{1F4A1} " + quiz.explication
  {
    match FindFirst(quiz.options, ById(answerId))
    case None => Verdict(false, "Option invalide")
    case Some(k) =>
      if quiz.options[k].isCorrect then
        Verdict(true, "✅ *Correct !* +" + IntToString(quiz.points) + " points\n\n\U{1F4A1} " + quiz.explication)
      else
        var v := Verdict(false, "❌ *Incorrect !*\n\nBonne réponse : *" + CorrectId(quiz)
          + "*\n\n\U{1F4A1} " + quiz.explication);
        assert v.explanation[0] == '❌';
        v
  }

  /** A wrong but existing answer names the correct option in its explanation. */
  lemma WrongAnswerNamesCorrect(quiz: Quiz, answerId: string, i: nat)
    requires i < |quiz.options| && quiz.options[i].id == answerId && !quiz.options[i].isCorrect
    requires forall j :: 0 <= j < i ==> quiz.options[j].id != answerId
    ensures var v := CheckAnswer(quiz, answerId);
      !v.correct
      && v.explanation == "❌ *Incorrect !*\n\nBonne réponse : *" + CorrectId(quiz) + "*\n\n\U{1F4A1} " + quiz.explication
  {
    var k := FindFirst(quiz.options, ById(answerId));
    assert k == Some(i);
  }

  /** On a generated quiz (exactly one correct option) the correct answer is
      the correct option's id, and only it. */
  lemma OnlyCorrectIdWins(quiz: Quiz, c: nat, answerId: string)
    requires c < |quiz.options| && quiz.options[c].isCorrect
    requires forall j :: 0 <= j < |quiz.options| && j != c ==> !quiz.options[j].isCorrect
    requires forall j :: 0 <= j < c ==> quiz.options[j].id != quiz.options[c].id
    ensures CheckAnswer(quiz, answerId).correct <==> answerId == quiz.options[c].id
  {
    if answerId == quiz.options[c].id {
      assert quiz.options[c].id == answerId;
    }
  }

  // ---------------------------------------------------------------------
  // rendering
  // ---------------------------------------------------------------------

  /** `${opt.id}. ${opt.text}\n` for every option, in order. */
  function OptionLines(options: seq<QuizOption>): string
  {
    if |options| == 0 then "" else options[0].id + ". " + options[0].text + "\n" + OptionLines(options[1..])
  }

  const TitleOpening := "\U{1F4DA} *"
  const DomainLine := "*\n\n\U{1F3AF} *Domaine :* "
  const DifficultyLine := "\n\U{1F4CA} *Difficulté :* "
  const PointsLine := "\n\U{2B50} *Points :* "
  const QuestionLine := "\n\n\U{2753} *Question :*\n"
  const OptionsLine := "\n\n*Options :*\n"

  /** Title, domain, difficulty, points and question. */
  function Heading(quiz: Quiz): string
  {
    TitleOpening + quiz.titre + DomainLine + quiz.domaine + DifficultyLine + quiz.difficulte
      + PointsLine + IntToString(quiz.points) + QuestionLine + quiz.question + OptionsLine
  }

  const AnswerLine := "\n✅ *Bonne réponse :* "
  const ExplanationLine := "\n\n\U{1F4A1} *Explication :*\n"

  /** The answer section, written only when `showAnswer`. */
  function AnswerPart(quiz: Quiz): string
  {
    AnswerLine + CorrectId(quiz) + ExplanationLine + quiz.explication
  }

  /** `formatResponse(quiz, showAnswer)`. */
  function FormatResponse(quiz: Quiz, showAnswer: bool): (r: string)
    ensures EndsWith(r, Footer)
    ensures StartsWith(r, Heading(quiz) + OptionLines(quiz.options))
    ensures showAnswer ==> StartsWith(r, Heading(quiz) + OptionLines(quiz.options) + AnswerPart(quiz))
  {
    var message := Heading(quiz) + OptionLines(quiz.options) + (if showAnswer then AnswerPart(quiz) else "");
    var r := AddGNDCFooter(Some(message));
    assert r == message + "\n\n---\n" + Footer;
    assert r[..|message|] == message;
    r
  }

  /** Hidden answers stay hidden: without `showAnswer` neither the
      correctness flags nor the explanation affect the text. */
  lemma HiddenAnswerIgnoresSolution(quiz: Quiz, flags: seq<bool>, explication: string)
    requires |flags| == |quiz.options|
    ensures var other := quiz.(options := seq(|quiz.options|, i requires 0 <= i < |quiz.options| =>
                                   quiz.options[i].(isCorrect := flags[i])),
                               explication := explication);
      FormatResponse(quiz, false) == FormatResponse(other, false)
  {
    var other := quiz.(options := seq(|quiz.options|, i requires 0 <= i < |quiz.options| =>
                          quiz.options[i].(isCorrect := flags[i])),
                       explication := explication);
    OptionLinesIgnoreFlags(quiz.options, other.options);
  }

  lemma {:induction false} OptionLinesIgnoreFlags(a: seq<QuizOption>, b: seq<QuizOption>)
    requires |a| == |b|
    requires forall i :: 0 <= i < |a| ==> a[i].id == b[i].id && a[i].text == b[i].text
    ensures OptionLines(a) == OptionLines(b)
    decreases |a|
  {
    if |a| > 0 {
      OptionLinesIgnoreFlags(a[1..], b[1..]);
    }
  }

  /** Each option appears as "id. text" on its own line, in the given order. */
  lemma {:induction false} OptionLinesInOrder(options: seq<QuizOption>)
    ensures OptionLines(options)
      == Concat(seq(|options|, i requires 0 <= i < |options| => options[i].id + ". " + options[i].text + "\n"))
    decreases |options|
  {
    if |options| > 0 {
      OptionLinesInOrder(options[1..]);
      var all := seq(|options|, i requires 0 <= i < |options| => options[i].id + ". " + options[i].text + "\n");
      var rest := seq(|options| - 1, i requires 0 <= i < |options| - 1 => options[1..][i].id + ". " + options[1..][i].text + "\n");
      assert all[1..] == rest;
    }
  }
}
