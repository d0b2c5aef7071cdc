/**
 The `poll` command (src/commands/polls.ts): "!poll Question? A; B; C"
 becomes a WhatsApp poll.
 */
module Polls {
  import opened Wrappers
  import opened Strings
  import opened Effects

  const Usage := "Usage: !poll Question? Option1; Option2; Option3"
  const NoQuestionText := "Please provide a question and at least two options."
  const TooFewOptionsText := "Please provide at least two options separated by ';'."

  /** How the joined argument text reads as a poll. */
  datatype PollParse =
    | NoQuestionMark
    | TooFewOptions
    | PollOf(question: string, options: seq<string>)

  /** `.map(opt => opt.trim())`. */
  function TrimAll(xs: seq<string>): (r: seq<string>)
    ensures |r| == |xs|
    ensures forall i :: 0 <= i < |xs| ==> r[i] == Trim(xs[i])
  {
    if |xs| == 0 then [] else [Trim(xs[0])] + TrimAll(xs[1..])
  }

  /** `.filter(Boolean)` on strings: the non-empty ones, in order. */
  function NonEmpty(xs: seq<string>): (r: seq<string>)
    ensures |r| <= |xs|
    ensures forall i :: 0 <= i < |r| ==> r[i] != "" && r[i] in xs
    ensures forall x :: x in xs && x != "" ==> x in r
  {
    if |xs| == 0 then []
    else if xs[0] == "" then NonEmpty(xs[1..])
    else [xs[0]] + NonEmpty(xs[1..])
  }

  /** The filter works piece by piece, so it keeps the order: filtering a
      concatenation is the concatenation of the filtered parts. */
  lemma {:induction false} NonEmptyAppend(xs: seq<string>, ys: seq<string>)
    ensures NonEmpty(xs + ys) == NonEmpty(xs) + NonEmpty(ys)
  {
    if |xs| > 0 {
      assert (xs + ys)[1..] == xs[1..] + ys;
      NonEmptyAppend(xs[1..], ys);
    } else {
      assert xs + ys == ys;
    }
  }

  /** An empty string is dropped, a non-empty one kept. */
  lemma NonEmptySingle(x: string)
    ensures NonEmpty([x]) == if x == "" then [] else [x]
  {
    assert [x][1..] == [];
  }

  lemma {:induction false} NonEmptyKeepsAll(xs: seq<string>)
    requires forall i :: 0 <= i < |xs| ==> xs[i] != ""
    ensures NonEmpty(xs) == xs
  {
    if |xs| > 0 {
      NonEmptyKeepsAll(xs[1..]);
    }
  }

  /** `input[0].trim() + "?"`. */
  function Question(before: string): (q: string)
    ensures EndsWith(q, "?")
  {
    var q := Trim(before) + "?";
    assert q[|q| - 1..] == "?";
    q
  }

  /** `segment.split(";").map(opt => opt.trim()).filter(Boolean)`. */
  function OptionsOf(segment: string): (r: seq<string>)
    ensures forall i :: 0 <= i < |r| ==> r[i] != "" && ';' !in r[i]
  {
    var segments := Split(segment, ';');
    TrimAllAvoids(segments, ';');
    NonEmpty(TrimAll(segments))
  }

  /** An option holds only characters of the segment it came from. */
  lemma {:induction false} OptionsAvoid(segment: string, c: char)
    requires c !in segment
    ensures forall i :: 0 <= i < |OptionsOf(segment)| ==> c !in OptionsOf(segment)[i]
  {
    SplitAvoids(segment, ';', c);
    TrimAllAvoids(Split(segment, ';'), c);
  }

  /** `input = text.split("?")`: the question comes from the text before the
      first "?", the options from the text between the first and second "?". */
  function ParsePoll(text: string): (p: PollParse)
    ensures p.PollOf? ==> EndsWith(p.question, "?") && |p.options| >= 2
    ensures p.PollOf? ==> forall i :: 0 <= i < |p.options| ==>
      p.options[i] != "" && ';' !in p.options[i] && '?' !in p.options[i]
  {
    var input := Split(text, '?');
    if |input| < 2 then NoQuestionMark
    else
      var options := OptionsOf(input[1]);
      OptionsAvoid(input[1], '?');
      if |options| < 2 then TooFewOptions
      else PollOf(Question(input[0]), options)
  }

  /** The pieces of a split hold only characters of the input. */
  lemma {:induction false} SplitAvoids(s: string, sep: char, c: char)
    requires c !in s
    ensures forall i :: 0 <= i < |Split(s, sep)| ==> c !in Split(s, sep)[i]
    decreases |s|
  {
    if |s| > 0 {
      assert c !in s[1..];
      SplitAvoids(s[1..], sep, c);
    }
  }

  /** Trimming takes characters away and adds none. */
  lemma {:induction false} TrimAllAvoids(xs: seq<string>, c: char)
    requires forall i :: 0 <= i < |xs| ==> c !in xs[i]
    ensures forall i :: 0 <= i < |TrimAll(xs)| ==> c !in TrimAll(xs)[i]
  {
    forall i | 0 <= i < |xs|
      ensures c !in Trim(xs[i])
    {
      TrimIsCore(xs[i]);
    }
  }

  /** The error for a missing "?" comes exactly when the text has no "?". */
  lemma {:induction false} NoQuestionMarkIff(text: string)
    ensures ParsePoll(text).NoQuestionMark? <==> '?' !in text
  {
    SplitLength(text, '?');
    CountZeroIffAbsent(text, '?');
  }

  lemma {:induction false} CountZeroIffAbsent(s: string, c: char)
    ensures Count(s, c) == 0 <==> c !in s
    decreases |s|
  {
    if |s| > 0 {
      CountZeroIffAbsent(s[1..], c);
      assert s == [s[0]] + s[1..];
    }
  }

  /** With at least one "?", the parse reads the question from the first
      piece and the options from the second. */
  lemma {:induction false} ParseFromPieces(text: string)
    requires |Split(text, '?')| >= 2
    ensures var input := Split(text, '?');
      ParsePoll(text)
        == if |OptionsOf(input[1])| < 2 then TooFewOptions
           else PollOf(Question(input[0]), OptionsOf(input[1]))
  {
  }

  /** Options joined with ";" come back unchanged from `OptionsOf`. */
  lemma {:induction false} OptionsOfJoin(options: seq<string>)
    requires |options| >= 1
    requires forall i :: 0 <= i < |options| ==>
      options[i] != "" && Trim(options[i]) == options[i] && ';' !in options[i]
    ensures OptionsOf(Join(options, ";")) == options
  {
    SplitJoin(options, ';');
    assert TrimAll(options) == options;
    NonEmptyKeepsAll(options);
  }

  /** Writing a poll the way the usage line shows and parsing it gives the
      poll back: a trimmed question without "?", then "?", then at least two
      trimmed, non-empty options without "?" or ";" joined with ";". */
  lemma {:induction false} ParsePollRoundTrip(q: string, options: seq<string>)
    requires '?' !in q && Trim(q) == q
    requires |options| >= 2
    requires forall i :: 0 <= i < |options| ==>
      options[i] != "" && Trim(options[i]) == options[i] && ';' !in options[i] && '?' !in options[i]
    ensures ParsePoll(q + "?" + Join(options, ";")) == PollOf(q + "?", options)
  {
    var body := Join(options, ";");
    var text := q + "?" + body;
    JoinAvoids(options, ";", '?');
    SplitTwo(q, body, '?');
    assert Split(text, '?') == [q, body];
    ParseFromPieces(text);
    OptionsOfJoin(options);
    assert Question(q) == q + "?";
  }

  /** Whatever follows a second "?" is ignored. */
  lemma {:induction false} SecondQuestionMarkIgnored(a: string, b: string, rest: string)
    requires '?' !in a && '?' !in b
    ensures ParsePoll(a + "?" + b + "?" + rest) == ParsePoll(a + "?" + b)
  {
    var long := a + "?" + b + "?" + rest;
    var short := a + "?" + b;
    assert long == a + "?" + (b + "?" + rest);
    SplitHead(a, '?', b + "?" + rest);
    SplitHead(b, '?', rest);
    SplitTwo(a, b, '?');
    assert Split(long, '?')[..2] == Split(short, '?');
    ParseFromPieces(long);
    ParseFromPieces(short);
  }

  /** `execute(sock, from, args)` with `args` bound to the argument list:
      exactly one message, the usage, an error or the poll. */
  function Execute(from: string, args: seq<string>): (r: Action)
    ensures r.to == from && r.Send? && !r.quoted
    ensures |args| == 0 ==> r.payload == Text(Usage, [])
    ensures r.payload.Poll? <==> |args| > 0 && ParsePoll(Join(args, " ")).PollOf?
    ensures r.payload.Poll? ==> var p := ParsePoll(Join(args, " "));
      r.payload == Poll(p.question, p.options, None, None)
    ensures |args| > 0 && ParsePoll(Join(args, " ")).NoQuestionMark? ==> r.payload == Text(NoQuestionText, [])
    ensures |args| > 0 && ParsePoll(Join(args, " ")).TooFewOptions? ==> r.payload == Text(TooFewOptionsText, [])
  {
    if |args| == 0 then Send(from, Text(Usage, []), false)
    else
      match ParsePoll(Join(args, " "))
      case NoQuestionMark => Send(from, Text(NoQuestionText, []), false)
      case TooFewOptions => Send(from, Text(TooFewOptionsText, []), false)
      case PollOf(q, options) => Send(from, Poll(q, options, None, None), false)
  }

  /** An option as typed after "; ": no separator, no "?", and no
      whitespace at either end. */
  predicate OptionWord(w: string)
  {
    |w| > 0 && !IsSpace(w[0]) && !IsSpace(w[|w| - 1]) && ';' !in w && '?' !in w
  }

  lemma {:induction false} TrimLeadingSpace(w: string)
    requires |w| > 0 && !IsSpace(w[0]) && !IsSpace(w[|w| - 1])
    ensures Trim(" " + w) == w
  {
    assert TrimStart(" " + w) == TrimStart(w) by {
      assert (" " + w)[1..] == w;
    }
    TrimNoEdgeSpace(w);
  }

  /** Two pieces without the separator split back into those two pieces. */
  lemma {:induction false} SplitTwo(x: string, y: string, sep: char)
    requires sep !in x && sep !in y
    ensures Split(x + [sep] + y, sep) == [x, y]
  {
    SplitHead(x, sep, y);
    SplitNoSep(y, sep);
  }

  /** Two options written with one ";" between them. */
  lemma {:induction false} OptionsOfTwo(x: string, y: string)
    requires ';' !in x && ';' !in y
    ensures OptionsOf(x + ";" + y) == NonEmpty([Trim(x), Trim(y)])
  {
    SplitTwo(x, y, ';');
    var trimmed := TrimAll([x, y]);
    assert trimmed == [Trim(x), Trim(y)];
  }

  /** "a; b" (with the space the usage line shows) gives the options a and b. */
  lemma {:induction false} SpacedOptions(a: string, b: string)
    requires OptionWord(a) && OptionWord(b)
    ensures OptionsOf(" " + a + "; " + b) == [a, b]
  {
    var x := " " + a;
    var y := " " + b;
    assert " " + a + "; " + b == x + ";" + y;
    assert ';' !in x && ';' !in y;
    OptionsOfTwo(x, y);
    TrimLeadingSpace(a);
    TrimLeadingSpace(b);
    NonEmptyKeepsAll([a, b]);
  }

  /** The usage line's shape, "Question? A; B", parses to that question and
      those two options. */
  lemma {:induction false} SpacedPoll(q: string, a: string, b: string)
    requires '?' !in q && Trim(q) == q
    requires OptionWord(a) && OptionWord(b)
    ensures ParsePoll(q + "? " + a + "; " + b) == PollOf(q + "?", [a, b])
  {
    var rest := " " + a + "; " + b;
    var text := q + "? " + a + "; " + b;
    assert text == q + ['?'] + rest;
    assert '?' !in rest;
    SplitHead(q, '?', rest);
    SplitNoSep(rest, '?');
    assert Split(text, '?') == [q, rest];
    ParseFromPieces(text);
    SpacedOptions(a, b);
    assert Question(q) == q + "?";
  }

  /** "!poll Q? A; B" with a one-word question reaches `execute` as the
      arguments [Q + "?", A + ";", B] and creates the poll. */
  lemma {:induction false} PollCommand(from: string, q: string, a: string, b: string)
    requires '?' !in q && ' ' !in q && Trim(q) == q
    requires OptionWord(a) && OptionWord(b)
    ensures Execute(from, [q + "?", a + ";", b]).payload == Poll(q + "?", [a, b], None, None)
  {
    var args := [q + "?", a + ";", b];
    assert Join(args, " ") == q + "? " + a + "; " + b by {
      assert Join(args[2..], " ") == b;
      assert Join(args[1..], " ") == a + ";" + " " + b;
    }
    SpacedPoll(q, a, b);
  }

  // ---------------------------------------------------------------------
  // the call as the dispatcher makes it
  // ---------------------------------------------------------------------

  /** What the third parameter of `execute` receives: the argument list,
      or (as dispatched) the message object, whose `length` is undefined. */
  datatype ArgsBinding = ArgsArray(args: seq<string>) | MessageObject

  /** `execute` as written, over whatever its third parameter is bound to:
      `!args.length` is true for the message object. */
  function ExecuteBound(from: string, bound: ArgsBinding): (r: Action)
    ensures bound.ArgsArray? ==> r == Execute(from, bound.args)
    ensures bound.MessageObject? ==> r == Send(from, Text(Usage, []), false)
  {
    match bound
    case MessageObject => Send(from, Text(Usage, []), false)
    case ArgsArray(args) => Execute(from, args)
  }

  /** The dispatcher calls `execute(sock, from, msg, args)`, so `args` lands
      in a fourth parameter polls.ts does not declare and the message object
      in `args`. */
  function AsDispatched(from: string, args: seq<string>): Action
  {
    ExecuteBound(from, MessageObject)
  }

  /** As dispatched, no poll is ever created: a well-formed command gets
      the usage text, where the intended call creates the poll. */
  lemma DispatchedPollNeverCreated(from: string, q: string, a: string, b: string)
    requires '?' !in q && ' ' !in q && Trim(q) == q
    requires OptionWord(a) && OptionWord(b)
    ensures AsDispatched(from, [q + "?", a + ";", b]).payload == Text(Usage, [])
    ensures Execute(from, [q + "?", a + ";", b]).payload.Poll?
  {
    PollCommand(from, q, a, b);
  }

  /** No argument list, however well formed, yields a poll as dispatched. */
  lemma DispatchedNeverPolls(from: string, args: seq<string>)
    ensures !AsDispatched(from, args).payload.Poll?
  {
  }
}
