/**
 The meme generator (src/meme-ai.ts): a template is picked from a fixed
 table, the model is given a `create_meme` tool whose schema asks for
 exactly that template's number of captions, and the captions are posted
 to Imgflip. The random picks, the completion and the Imgflip reply are
 parameters.
 */
module MemeAi {
  import opened Wrappers
  import opened Strings
  import opened Ai

  /** `MemeTemplate` (the `url` field is always "" and is not kept). */
  datatype MemeTemplate = MemeTemplate(id: string, name: string, boxCount: nat)

  /** `memeTemplates`, in key order (which is `Object.keys` order). */
  const Templates: seq<(string, MemeTemplate)> := [
    ("drake", MemeTemplate("181913649", "Drake Hotline Bling", 2)),
    ("distracted_boyfriend", MemeTemplate("112126428", "Distracted Boyfriend", 3)),
    ("two_buttons", MemeTemplate("87743020", "Two Buttons", 3)),
    ("expanding_brain", MemeTemplate("93895088", "Expanding Brain", 4)),
    ("change_my_mind", MemeTemplate("129242436", "Change My Mind", 1)),
    ("success_kid", MemeTemplate("61544", "Success Kid", 2)),
    ("one_does_not_simply", MemeTemplate("61579", "One Does Not Simply", 2)),
    ("batman_slapping_robin", MemeTemplate("438680", "Batman Slapping Robin", 2)),
    ("is_this", MemeTemplate("100777631", "Is This A Pigeon", 3)),
    ("surprised_pikachu", MemeTemplate("155067746", "Surprised Pikachu", 1)),
    ("disaster_girl", MemeTemplate("97984", "Disaster Girl", 2)),
    ("hide_the_pain_harold", MemeTemplate("27813981", "Hide The Pain Harold", 2)),
    ("woman_yelling_at_cat", MemeTemplate("188390779", "Woman Yelling At Cat", 2)),
    ("mocking_spongebob", MemeTemplate("102156234", "Mocking Spongebob", 2)),
    ("evil_kermit", MemeTemplate("84341851", "Evil Kermit", 2)),
    ("first_world_problems", MemeTemplate("61539", "First World Problems", 2)),
    ("ancient_aliens", MemeTemplate("101470", "Ancient Aliens", 2)),
    ("bad_luck_brian", MemeTemplate("61585", "Bad Luck Brian", 2)),
    ("roll_safe", MemeTemplate("217743513", "Roll Safe Think About It", 2)),
    ("grandma_finds_internet", MemeTemplate("61556", "Grandma Finds The Internet", 2)),
    ("i_bet_thinking", MemeTemplate("110163934", "I Bet He's Thinking About Other Women", 2)),
    ("left_exit", MemeTemplate("124822590", "Left Exit 12 Off Ramp", 3)),
    ("me_and_boys", MemeTemplate("184801100", "Me And The Boys", 1)),
    ("monkey_puppet", MemeTemplate("148909805", "Monkey Puppet", 2)),
    ("oprah_you_get", MemeTemplate("28251713", "Oprah You Get A", 2)),
    ("same_picture", MemeTemplate("180190441", "They're The Same Picture", 3)),
    ("this_is_fine", MemeTemplate("55311130", "This Is Fine", 2)),
    ("trade_offer", MemeTemplate("309868304", "Trade Offer", 3)),
    ("waiting_skeleton", MemeTemplate("4087833", "Waiting Skeleton", 2)),
    ("who_killed_hannibal", MemeTemplate("135256802", "Who Killed Hannibal", 3)),
    ("x_all_the_y", MemeTemplate("61533", "X All The Y", 2)),
    ("grus_plan", MemeTemplate("131940431", "Gru's Plan", 4)),
    ("running_away_balloon", MemeTemplate("102156234", "Running Away Balloon", 2)),
    ("uno_draw_25", MemeTemplate("217743513", "UNO Draw 25 Cards", 2))
  ]

  /** `memeTopics`. */
  const Topics: seq<string> := [
    "Les coupures d'électricité pendant qu'on code",
    "La connexion internet lente pendant un hackathon GNDC",
    "Debugger du code à 3h du matin",
    "Quand le code fonctionne du premier coup",
    "Les bugs en production pendant une démo GNDC",
    "Apprendre un nouveau framework pour un projet GNDC",
    "La différence entre junior et senior dev à GNDC",
    "Stack Overflow qui sauve la vie",
    "Git merge conflicts",
    "Les attentes vs la réalité du développement",
    "Travailler sur un projet open source GNDC",
    "Les promesses des clients vs le budget",
    "CSS qui ne veut pas s'aligner",
    "Les réunions qui auraient pu être un email",
    "Coder avec VS Code vs Notepad",
    "La documentation qui n'existe pas",
    "Les hackathons GNDC qui durent 48h",
    "Refactorer du vieux code",
    "Les tests en production",
    "L'importance de la communauté GNDC",
    "Partager ses connaissances à GNDC",
    "Les meetups GNDC du weekend",
    "Débuter en programmation avec GNDC",
    "Les opportunités tech au Grand Nord",
    "Résoudre des problèmes locaux avec la tech"
  ]

  const ToolName := "create_meme"
  const AiTopic := "Sujet généré par l'IA"

  /** Every template asks for between one and four captions. */
  lemma BoxCountsInRange()
    ensures |Templates| == 34
    ensures forall i :: 0 <= i < |Templates| ==> 1 <= Templates[i].1.boxCount <= 4
  {
  }

  /** Two pairs of differently named templates share an Imgflip id, so
      "Running Away Balloon" and "UNO Draw 25 Cards" render as "Mocking
      Spongebob" and "Roll Safe". */
  lemma SharedIds()
    ensures Templates[13].0 == "mocking_spongebob" && Templates[32].0 == "running_away_balloon"
    ensures Templates[13].1.id == Templates[32].1.id && Templates[13].1.name != Templates[32].1.name
    ensures Templates[18].0 == "roll_safe" && Templates[33].0 == "uno_draw_25"
    ensures Templates[18].1.id == Templates[33].1.id && Templates[18].1.name != Templates[33].1.name
  {
    assert Templates[13].1.name[0] == 'M' && Templates[32].1.name[0] == 'R';
    assert Templates[18].1.name[0] == 'R' && Templates[33].1.name[0] == 'U';
  }

  // ---------------------------------------------------------------------
  // the tool schema
  // ---------------------------------------------------------------------

  /** `text${i}`. */
  function FieldName(i: nat): string
  {
    "text" + NatToString(i)
  }

  /** Different boxes get different field names. */
  lemma FieldNamesDistinct(i: nat, j: nat)
    requires i != j
    ensures FieldName(i) != FieldName(j)
  {
    if FieldName(i) == FieldName(j) {
      assert NatToString(i) == FieldName(i)[4..] == FieldName(j)[4..] == NatToString(j);
      ParseIntNatToString(i);
      ParseIntNatToString(j);
    }
  }

  /** A schema property; `constValue` is the JSON schema `const`. */
  datatype Property = Property(name: string, constValue: Option<string>)

  /** The `create_meme` function tool. */
  datatype Tool = Tool(name: string, properties: seq<Property>, required: seq<string>)

  /** `buildDynamicTool(selectedTemplate)`: a "template" property pinned to
      the template's id, then one caption field per box, all required. */
  method BuildDynamicTool(t: MemeTemplate) returns (tool: Tool)
    ensures tool.name == ToolName
    ensures |tool.required| == t.boxCount + 1 && tool.required[0] == "template"
    ensures forall i :: 0 <= i < t.boxCount ==> tool.required[i + 1] == FieldName(i)
    ensures |tool.properties| == t.boxCount + 1
    ensures tool.properties[0] == Property("template", Some(t.id))
    ensures forall i :: 0 <= i < t.boxCount ==> tool.properties[i + 1] == Property(FieldName(i), None)
  {
    var properties := [Property("template", Some(t.id))];
    var required := ["template"];
    var i := 0;
    while i < t.boxCount
      invariant 0 <= i <= t.boxCount
      invariant |required| == i + 1 && required[0] == "template"
      invariant forall k :: 0 <= k < i ==> required[k + 1] == FieldName(k)
      invariant |properties| == i + 1 && properties[0] == Property("template", Some(t.id))
      invariant forall k :: 0 <= k < i ==> properties[k + 1] == Property(FieldName(k), None)
    {
      var fieldName := FieldName(i);
      properties := properties + [Property(fieldName, None)];
      required := required + [fieldName];
      i := i + 1;
    }
    tool := Tool(ToolName, properties, required);
  }

  /** The schema never requires the same field twice. */
  lemma RequiredDistinct(t: MemeTemplate, tool: Tool, i: nat, j: nat)
    requires |tool.required| == t.boxCount + 1 && tool.required[0] == "template"
    requires forall k :: 0 <= k < t.boxCount ==> tool.required[k + 1] == FieldName(k)
    requires i < j < |tool.required|
    ensures tool.required[i] != tool.required[j]
  {
    if i == 0 {
      assert tool.required[j] == FieldName(j - 1);
      assert FieldName(j - 1)[2] == 'x' && tool.required[0][2] == 'm';
    } else {
      FieldNamesDistinct(i - 1, j - 1);
    }
  }

  // ---------------------------------------------------------------------
  // creating the image
  // ---------------------------------------------------------------------

  /** What Imgflip answers: a created image, a refusal with its optional
      `error_message`, or a failed request. */
  datatype ImgflipReply =
    | Created(url: string, pageUrl: string)
    | Refused(errorMessage: Option<string>)
    | Unreachable(message: string)

  /** `MemeResult`: `topic` is only set by `generate`. */
  datatype MemeResult =
    | Made(url: string, pageUrl: string, topic: Option<string>)
    | Failed(error: string)

  /** The form field carrying caption `i`. */
  function BoxField(i: nat): string
  {
    "boxes[" + NatToString(i) + "][text]"
  }

  /** The error for a caption list of the wrong length. */
  function CountMismatch(t: MemeTemplate, given: nat): string
  {
    "Le template \"" + t.name + "\" nécessite " + NatToString(t.boxCount)
    + " texte(s), mais " + NatToString(given) + " ont été fournis"
  }

  /** The form: credentials first, then one field per caption, in order. */
  function Params(t: MemeTemplate, username: string, password: string, texts: seq<string>): (p: seq<(string, string)>)
    ensures |p| == 3 + |texts|
    ensures p[..3] == [("template_id", t.id), ("username", username), ("password", password)]
    ensures forall i :: 0 <= i < |texts| ==> p[3 + i] == (BoxField(i), texts[i])
  {
    [("template_id", t.id), ("username", username), ("password", password)]
    + seq(|texts|, i requires 0 <= i < |texts| => (BoxField(i), texts[i]))
  }

  /** `createMeme(template, texts)`: `request` is the form posted, absent
      when the caption count is wrong; `reply` is only consulted when a
      form was posted. */
  function CreateMeme(t: MemeTemplate, username: string, password: string, texts: seq<string>, reply: ImgflipReply)
    : (r: (Option<seq<(string, string)>>, MemeResult))
    ensures r.0.None? <==> |texts| != t.boxCount
    ensures r.0.None? ==> r.1 == Failed(CountMismatch(t, |texts|))
    ensures r.0.Some? ==> r.0.value == Params(t, username, password, texts)
    ensures r.0.Some? ==> (r.1.Made? <==> reply.Created?)
    ensures r.0.Some? && reply.Created? ==> r.1 == Made(reply.url, reply.pageUrl, None)
    ensures r.0.Some? && reply.Refused? ==>
      r.1 == Failed(if reply.errorMessage.Some? && reply.errorMessage.value != "" then reply.errorMessage.value
                    else "Erreur lors de la création du mème")
    ensures r.0.Some? && reply.Unreachable? ==> r.1 == Failed("Erreur API Imgflip : " + reply.message)
  {
    if |texts| != t.boxCount then (None, Failed(CountMismatch(t, |texts|)))
    else
      var result := match reply
        case Created(url, pageUrl) => Made(url, pageUrl, None)
        case Refused(m) =>
          Failed(if m.Some? && m.value != "" then m.value else "Erreur lors de la création du mème")
        case Unreachable(m) => Failed("Erreur API Imgflip : " + m);
      (Some(Params(t, username, password, texts)), result)
  }

  /** The captions read from the tool arguments: `functionArgs[text${i}] || ""`
      for each box. */
  function ExtractTexts(args: map<string, string>, boxCount: nat): (texts: seq<string>)
    ensures |texts| == boxCount
    ensures forall i :: 0 <= i < boxCount ==>
      texts[i] == (if FieldName(i) in args then args[FieldName(i)] else "")
  {
    seq(boxCount, i requires 0 <= i < boxCount => if FieldName(i) in args then args[FieldName(i)] else "")
  }

  /** The captions `generate` extracts always pass the length check, so the
      form is always posted on that path. */
  lemma ExtractedTextsArePosted(t: MemeTemplate, username: string, password: string,
                                args: map<string, string>, reply: ImgflipReply)
    ensures CreateMeme(t, username, password, ExtractTexts(args, t.boxCount), reply).0.Some?
  {
  }

  /** `generate(useAITopic)`: `templatePick` and `topicPick` are the two
      `Math.random` draws, already scaled to an index. */
  function Generate(templatePick: nat, useAITopic: bool, topicPick: nat,
                    completion: Completion<map<string, string>>,
                    username: string, password: string, reply: ImgflipReply): (r: MemeResult)
    requires templatePick < |Templates| && topicPick < |Topics|
    ensures r.Made? ==> r.topic == Some(if useAITopic then AiTopic else Topics[topicPick])
    ensures r.Made? ==> reply.Created? && r.url == reply.url && r.pageUrl == reply.pageUrl
    ensures r.Made? <==>
      && completion.Answered?
      && ValidateToolCall(completion.toolCalls, ToolName).Success?
      && ValidateToolCall(completion.toolCalls, ToolName).value.arguments.Success?
      && reply.Created?
    ensures completion.Rejected? ==> r == Failed("Erreur OpenAI : " + HandleOpenAIError(completion.error))
  {
    var t := Templates[templatePick].1;
    var topic := if useAITopic then AiTopic else Topics[topicPick];
    match completion
    case Rejected(e) => Failed("Erreur OpenAI : " + HandleOpenAIError(e))
    case Answered(toolCalls) =>
      match ValidateToolCall(toolCalls, ToolName)
      case Failure(err) => Failed(err)
      case Success(call) =>
        match call.arguments
        case Failure(parseError) => Failed("Erreur OpenAI : " + parseError)
        case Success(args) =>
          var texts := ExtractTexts(args, t.boxCount);
          match CreateMeme(t, username, password, texts, reply).1
          case Made(url, pageUrl, _) => Made(url, pageUrl, Some(topic))
          case Failed(err) => Failed(err)
  }

  /** What the meme command shows. */
  datatype Shown = Shown(subject: string, url: string, pageUrl: string)

  /** `formatResponse(result)`: null for a failure; the subject falls back
      to the AI-topic label when the topic is missing or empty. */
  function FormatResponse(r: MemeResult): (s: Option<Shown>)
    ensures s.None? <==> r.Failed?
    ensures s.Some? ==> s.value.url == r.url && s.value.pageUrl == r.pageUrl
    ensures s.Some? && r.topic.Some? && r.topic.value != "" ==> s.value.subject == r.topic.value
    ensures s.Some? && (r.topic.None? || r.topic.value == "") ==> s.value.subject == AiTopic
  {
    match r
    case Failed(_) => None
    case Made(url, pageUrl, topic) =>
      Some(Shown(if topic.Some? && topic.value != "" then topic.value else AiTopic, url, pageUrl))
  }

  /** A generated meme is shown under the topic it was made for: the AI
      label in AI-topic mode, otherwise one of the listed topics. */
  lemma ShownSubject(templatePick: nat, useAITopic: bool, topicPick: nat,
                     completion: Completion<map<string, string>>,
                     username: string, password: string, reply: ImgflipReply)
    requires templatePick < |Templates| && topicPick < |Topics|
    ensures var s := FormatResponse(Generate(templatePick, useAITopic, topicPick, completion, username, password, reply));
      s.Some? ==> (useAITopic ==> s.value.subject == AiTopic) && (!useAITopic ==> s.value.subject in Topics)
  {
    var r := Generate(templatePick, useAITopic, topicPick, completion, username, password, reply);
    if r.Made? && !useAITopic {
      TopicsNonEmpty(topicPick);
    }
  }

  lemma TopicsNonEmpty(i: nat)
    requires i < |Topics|
    ensures Topics[i] != ""
  {
  }
}
