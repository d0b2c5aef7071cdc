/**
 The `messages.upsert` handler (src/events/messages.upsert.ts): from an
 inbound batch of messages to at most one command invocation, with the
 failure boundary around it.
 */
module Dispatcher {
  import opened Wrappers
  import opened Strings
  import opened Effects
  import opened Registry

  /** `extendedTextMessage`, whose `text` may be missing. */
  datatype ExtendedText = ExtendedText(text: Option<string>)

  /** The `message` body of a WhatsApp message, reduced to its text variants. */
  datatype Content = Content(conversation: Option<string>, extendedTextMessage: Option<ExtendedText>)

  /** The `key` of an inbound message. */
  datatype InboundKey = InboundKey(remoteJid: Option<string>)

  /** An inbound WhatsApp message (`proto.IWebMessageInfo`) as far as the dispatcher reads it. */
  datatype WAMessage = WAMessage(key: Option<InboundKey>, message: Option<Content>)

  /** `config.bot?.prefix || "!"`. */
  function Prefix(configured: Option<string>): (p: string)
    ensures |p| > 0
  {
    if configured.Some? && configured.value != "" then configured.value else "!"
  }

  /** `conversation || (extendedTextMessage && extendedTextMessage.text) || ""`. */
  function TextOf(c: Content): (t: string)
    ensures t != "" ==> (Some(t) == c.conversation
      || (c.extendedTextMessage.Some? && Some(t) == c.extendedTextMessage.value.text))
    ensures c.conversation.Some? && c.conversation.value != "" ==> t == c.conversation.value
  {
    if c.conversation.Some? && c.conversation.value != "" then c.conversation.value
    else if c.extendedTextMessage.Some? && c.extendedTextMessage.value.text.Some? then
      c.extendedTextMessage.value.text.value
    else ""
  }

  /** A character JavaScript stores as one UTF-16 code unit: it lies in the
      Basic Multilingual Plane. A character above U+FFFF is a surrogate pair. */
  predicate OneCodeUnit(c: char)
  {
    c as int < 0x1_0000
  }

  /** `text.slice(1).trim().split(" ")`: the command token and its arguments.
      `slice(1)` drops one UTF-16 code unit whatever the prefix length; that
      is the whole first character when it lies in the Basic Multilingual
      Plane, which this function requires. A run of spaces yields empty
      arguments. */
  function ParseCommand(text: string): (r: (string, seq<string>))
    requires |text| > 0 && OneCodeUnit(text[0])
  {
    var parts := Split(Trim(text[1..]), ' ');
    (parts[0], parts[1..])
  }

  /** The command line the arguments came from: the trimmed text after the
      first character is the token followed by the arguments, single spaces
      between them. */
  lemma ParseCommandRebuilds(text: string)
    requires |text| > 0 && OneCodeUnit(text[0])
    ensures var (name, args) := ParseCommand(text);
      Join([name] + args, " ") == Trim(text[1..])
      && ' ' !in name
      && forall i :: 0 <= i < |args| ==> ' ' !in args[i]
  {
    var parts := Split(Trim(text[1..]), ' ');
    assert [parts[0]] + parts[1..] == parts;
    JoinSplit(Trim(text[1..]), ' ');
  }

  /** Why an event ends without running a command. */
  datatype Skip = NoMessageBody | NoSender | NotACommand | UnknownCommand

  /** The dispatcher's decision for one event. */
  datatype Decision =
      /** `messages[0]` of an empty batch is undefined and reading `.message` throws out of the handler. */
    | EmptyBatch
    | Skipped(reason: Skip)
    | Invoke(command: CommandModule, from: string, msg: WAMessage, token: string, args: seq<string>)

  /** Only `messages[0]` is examined; it needs a body and a truthy `remoteJid`;
      its text must be non-empty and start with the prefix; the token is
      looked up lowercased. When the text's first character lies above
      U+FFFF, `slice(1)` leaves its low surrogate at the head of the token;
      no command name is such a string, so the lookup misses. */
  function Decide(prefix: Option<string>, commands: Commands, batch: seq<WAMessage>): (d: Decision)
    ensures d.EmptyBatch? <==> |batch| == 0
    ensures d.Invoke? ==>
      && batch[0].message.Some?
      && Some(InboundKey(Some(d.from))) == batch[0].key && d.from != ""
      && d.msg == batch[0]
      && StartsWith(TextOf(batch[0].message.value), Prefix(prefix))
      && OneCodeUnit(TextOf(batch[0].message.value)[0])
      && Lookup(commands, d.token) == Some(d.command)
      && (d.token, d.args) == ParseCommand(TextOf(batch[0].message.value))
    ensures |batch| > 0 && batch[0].message.Some? && batch[0].key.Some?
      && batch[0].key.value.remoteJid.Some? && batch[0].key.value.remoteJid.value != ""
      && StartsWith(TextOf(batch[0].message.value), Prefix(prefix))
      && OneCodeUnit(TextOf(batch[0].message.value)[0])
      && Lookup(commands, ParseCommand(TextOf(batch[0].message.value)).0).Some?
      ==> d.Invoke?
    ensures |batch| > 0 && batch[0].message.Some? && batch[0].key.Some?
      && batch[0].key.value.remoteJid.Some? && batch[0].key.value.remoteJid.value != ""
      && StartsWith(TextOf(batch[0].message.value), Prefix(prefix))
      && !OneCodeUnit(TextOf(batch[0].message.value)[0])
      ==> d == Skipped(UnknownCommand)
  {
    if |batch| == 0 then EmptyBatch
    else
      var msg := batch[0];
      if msg.message.None? then Skipped(NoMessageBody)
      else if msg.key.None? || msg.key.value.remoteJid.None? || msg.key.value.remoteJid.value == "" then
        Skipped(NoSender)
      else
        var from := msg.key.value.remoteJid.value;
        var text := TextOf(msg.message.value);
        if text == "" || !StartsWith(text, Prefix(prefix)) then Skipped(NotACommand)
        else if !OneCodeUnit(text[0]) then Skipped(UnknownCommand)
        else
          var (token, args) := ParseCommand(text);
          match Lookup(commands, token)
          case None => Skipped(UnknownCommand)
          case Some(cmd) => Invoke(cmd, from, msg, token, args)
  }

  /** The whole handler: the decision, the log lines, and whether the
      handler's own promise rejects. */
  datatype HandlerResult = HandlerResult(decision: Decision, logs: seq<LogLine>, rejects: bool)

  /** Runs the handler for one event; `run` says how the invoked command
      settles. An error thrown by the command is caught and logged. */
  function Handle(prefix: Option<string>, commands: Commands, batch: seq<WAMessage>,
                  run: Outcome): (r: HandlerResult)
    ensures r.rejects <==> |batch| == 0
    ensures r.decision == Decide(prefix, commands, batch)
    ensures r.decision.Invoke? ==> |r.logs| == 2
    ensures r.decision.Invoke? && run.Threw? ==>
      r.logs[|r.logs| - 1] == LogLine(Error, "Command error (" + r.decision.token + "): " + run.error)
  {
    var d := Decide(prefix, commands, batch);
    match d
    case EmptyBatch => HandlerResult(d, [], true)
    case Skipped(reason) =>
      var logs := if reason == UnknownCommand then [Received(batch[0])] else [];
      HandlerResult(d, logs, false)
    case Invoke(cmd, from, msg, token, args) =>
      var last := match run
        case Completed => LogLine(Info, "Command executed: " + token)
        case Threw(e) => LogLine(Error, "Command error (" + token + "): " + e);
      HandlerResult(d, [Received(msg), last], false)
  }

  /** `Received command from <from>: <text>`, written once the prefix check passed. */
  function Received(msg: WAMessage): LogLine
  {
    var from := if msg.key.Some? && msg.key.value.remoteJid.Some? then msg.key.value.remoteJid.value else "";
    var text := if msg.message.Some? then TextOf(msg.message.value) else "";
    LogLine(Info, "Received command from " + from + ": " + text)
  }

  /** Whether the handler runs a command never depends on how that command
      settles, so a failing command cannot affect the handling of this or
      any later event. */
  lemma FailureIsContained(prefix: Option<string>, commands: Commands, batch: seq<WAMessage>, e: string)
    requires |batch| > 0
    ensures !Handle(prefix, commands, batch, Threw(e)).rejects
    ensures Handle(prefix, commands, batch, Threw(e)).decision == Handle(prefix, commands, batch, Completed).decision
  {
  }

  /** Text that does not start with the prefix never runs a command. */
  lemma NoPrefixNoCommand(prefix: Option<string>, commands: Commands, batch: seq<WAMessage>)
    requires |batch| > 0 && batch[0].message.Some?
    requires !StartsWith(TextOf(batch[0].message.value), Prefix(prefix))
    ensures !Decide(prefix, commands, batch).Invoke?
  {
  }

  /** Parsing undoes writing a command line: a prefix character followed
      by non-empty, space-free words joined with single spaces (the line not
      beginning or ending in whitespace) parses back to the first word as the
      token and the rest as the arguments. */
  lemma ParseCommandOfLine(c: char, words: seq<string>)
    requires OneCodeUnit(c)
    requires |words| >= 1
    requires forall i :: 0 <= i < |words| ==> |words[i]| > 0 && ' ' !in words[i]
    requires !IsSpace(words[0][0])
    requires var last := words[|words| - 1]; !IsSpace(last[|last| - 1])
    ensures ParseCommand([c] + Join(words, " ")) == (words[0], words[1..])
  {
    var line := Join(words, " ");
    assert ([c] + line)[1..] == line;
    JoinEdges(words, " ");
    TrimNoEdgeSpace(line);
    SplitJoin(words, ' ');
  }

  /** The worked example: "!ask what is GNDC" parses to the token "ask"
      and the arguments ["what", "is", "GNDC"]. */
  lemma AskParseExample()
    ensures ParseCommand("!ask what is GNDC") == ("ask", ["what", "is", "GNDC"])
  {
    AskJoin();
    ParseCommandOfLine('!', ["ask", "what", "is", "GNDC"]);
  }

  lemma AskJoin()
    ensures Join(["ask", "what", "is", "GNDC"], " ") == "ask what is GNDC"
  {
  }

  /** With the default prefix and an `ask` command registered, that text
      from chat "G1" runs `ask` with those arguments. */
  lemma AskExample(commands: Commands, cmd: CommandModule)
    requires "ask" in commands && commands["ask"] == cmd
    ensures var m := WAMessage(Some(InboundKey(Some("G1"))), Some(Content(Some("!ask what is GNDC"), None)));
      Decide(None, commands, [m]) == Invoke(cmd, "G1", m, "ask", ["what", "is", "GNDC"])
  {
    AskParseExample();
    AskIsLower();
    assert StartsWith("!ask what is GNDC", "!");
  }

  lemma AskIsLower()
    ensures ToLower("ask") == "ask"
  {
  }

  lemma DoubledSpaceJoin()
    ensures Join(["ask", "", "x"], " ") == "ask  x"
  {
  }

  /** Doubled spaces produce empty arguments: "!ask  x" gives ["", "x"]. */
  lemma DoubledSpaceExample()
    ensures ParseCommand("!ask  x") == ("ask", ["", "x"])
  {
    assert "!ask  x"[1..] == "ask  x";
    TrimNoEdgeSpace("ask  x");
    DoubledSpaceJoin();
    SplitJoin(["ask", "", "x"], ' ');
  }

  /** A prefix above U+FFFF, such as the robot emoji U+1F916, passes the
      prefix check but leaves half of itself in the token: "\U{1F916}ask"
      does not run `ask`, and the event is logged as received. */
  lemma AstralPrefixExample(commands: Commands)
    requires "ask" in commands
    ensures var m := WAMessage(Some(InboundKey(Some("G1"))), Some(Content(Some("\U{1F916}ask"), None)));
      && Decide(Some("\U{1F916}"), commands, [m]) == Skipped(UnknownCommand)
      && Handle(Some("\U{1F916}"), commands, [m], Completed).logs == [Received(m)]
  {
    assert StartsWith("\U{1F916}ask", "\U{1F916}");
  }

  /** "!ASK x" and "!ask x" resolve to the same command. */
  lemma CaseInsensitiveExample(commands: Commands)
    ensures Lookup(commands, "ASK") == Lookup(commands, "ask")
  {
    LookupIgnoresCase(commands, "ASK", "ask");
  }
}
