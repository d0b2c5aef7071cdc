# GNDC WhatsApp bot — a verified model of its core

This project models the logic of the GNDC community WhatsApp bot in Dafny and
proves properties of it. The bot is a TypeScript program built on a WhatsApp
socket library, a Redis store, OpenAI and Imgflip. What is modelled is the
decision logic underneath that I/O:

- **Command front end.** The `messages.upsert` handler turns an inbound event
  into at most one command call (`dispatcher.dfy`). The registry maps command
  names to modules and routes dependencies to event handlers (`registry.dfy`).
- **Commands.** `poll` parses its arguments into a poll (`polls.dfy`). `help`
  picks one of three texts (`help.dfy`). `forums`, `news`, `events` and
  `leaderboard` each apply a gate, read through a five-minute cache and format
  a top-5 listing (`forums.dfy`, `news.dfy`, `events.dfy`, `leaderboard.dfy`).
  They share the gate, the cache, the typing indicator and the numbered
  listing (`listing.dfy`).
- **The record store** (`storage.dfy`). Every value is wrapped in a record
  with an optional expiry, and reads re-check that expiry against the clock.
  The store is a `map` and the clock a parameter. The module also covers
  user scores, the leaderboard pairing, key listing with a limit, timestamps
  read back from ids, and the newest quiz.
- **The quiz campaign** (`cron.dfy`, `quiz_ai.dfy`). Publishing posts a quiz
  as a poll, pins it and writes three records. Revealing posts the answer,
  unpins the poll and schedules the clean-up. The model is a transition
  function over the store. `quiz_ai.dfy` holds the quiz generator's checks:
  exactly one correct option, answer checking, and rendering.
- **Generator helpers** (`ai.dfy`, `meme_ai.dfy`): ids, the community
  footer, tool-call validation, OpenAI error texts, and the meme template
  table, tool schema and Imgflip request.
- **Connection handling** (`connection.dfy`): pairing, restart, giving up on
  logout, and the self-message on connect.

Inputs the program gets from outside become parameters:

- the clock (`now`, in milliseconds);
- the `Math.random` picks (as indices);
- the website's answers (`Result` values);
- the OpenAI completion (`Completion`) and the Imgflip reply;
- the target list from the permission lookup;
- the configuration values.

Sends, presence updates, pairing requests and restarts are returned as data
(`Effects.Action`, `Connection.Reaction`) rather than performed.

JavaScript semantics are written out where the code relies on them:

- `split`, `join`, `trim`, `trimEnd`, `startsWith`, `endsWith`;
- `parseInt` on decimal input, and the truthiness tests;
- `${…}` interpolation of `null` and `undefined`;
- `key.replace("quiz:", "")`, which removes the first occurrence.

## Model

| member | source | states |
|---|---|---|
| Dispatcher.TextOf | src/events/messages.upsert.ts:35-39 | the text is `conversation` when that is non-empty, otherwise the extended text; any non-empty result comes from one of the two |
| Dispatcher.ParseCommandRebuilds | src/events/messages.upsert.ts:45 | for a text whose first character is one UTF-16 code unit, the token followed by the arguments, joined with single spaces, is the trimmed text after that character, and the token has no space |
| Dispatcher.ParseCommandOfLine | src/events/messages.upsert.ts:45 | a prefix character of one UTF-16 code unit followed by space-free words joined with single spaces parses back to the first word and the remaining words |
| Dispatcher.Decide | src/events/messages.upsert.ts:29-48 | an empty batch is an error; only `messages[0]` is examined; a command runs only with a body, a non-empty sender and prefixed text whose lowercased token is registered, and then it always runs, with the token and arguments the parser gives; a text whose first character lies above U+FFFF never runs a command, because `slice(1)` leaves half of that character in the token |
| Dispatcher.Handle | src/events/messages.upsert.ts:43-54 | the handler rejects only on an empty batch; an invoked command produces two log lines, and a thrown error is logged as `Command error (<token>): <error>` |
| Dispatcher.FailureIsContained | src/events/messages.upsert.ts:48-54 | a throwing command does not make the handler reject and does not change what was invoked |
| Dispatcher.NoPrefixNoCommand | src/events/messages.upsert.ts:41 | text not starting with the prefix never runs a command |
| Dispatcher.AskExample | src/events/messages.upsert.ts:45-46 | "!ask what is GNDC" from chat G1 runs `ask` with ["what", "is", "GNDC"] |
| Dispatcher.DoubledSpaceExample | src/events/messages.upsert.ts:45 | a doubled space yields an empty argument: "!ask  x" gives ["", "x"] |
| Dispatcher.AstralPrefixExample | src/events/messages.upsert.ts:41-46 | with the prefix U+1F916, "\U{1F916}ask" passes the prefix check, is logged as received, and does not run a registered `ask` |
| Dispatcher.CaseInsensitiveExample | src/events/messages.upsert.ts:46 | "ASK" and "ask" resolve to the same command |
| Registry.LoadCommands | src/index.ts:56-65 | every registered entry comes from a .ts or .js file and is keyed by its own `name` |
| Registry.LoadCommandsLastWins | src/index.ts:59-62 | a name is registered iff some script exports it, and the entry is the last such script in directory order |
| Registry.LookupIgnoresCase | src/events/messages.upsert.ts:46 | tokens that agree after lowercasing find the same command |
| Registry.UpperCaseNameUnreachable | src/index.ts:62 | a registered name with an upper-case letter equals no lowercased token, so no typed token reaches it |
| Registry.LoadEvents | src/index.ts:71-83 | an event module is kept iff it is a script with a truthy `eventName` and a function `handler`, none is invented |
| Registry.Subscribe | src/index.ts:112-123 | one subscription per handler, in order: `connection.update` alone gets saveCreds/startBot, `messages.upsert` alone gets the command map |
| Listing.InboxGate | src/commands/forums.ts:30-38 | the command continues iff the sender is listed or is not a group, and the first entry's `allow_inbox` holds the command; an empty list with a private sender throws |
| Listing.OnlyFirstEntryCounts | src/commands/forums.ts:35 | a later entry allowing the command does not open the gate when the first entry does not |
| Listing.PrivateChatNeedsNoListing | src/commands/news.ts:32-39 | a private sender passes without being listed when the first entry allows the command |
| Listing.CacheGet | src/index.ts:89 | a hit iff the key is present and not past its expiry; a hit returns the cached value, a miss drops the stale entry |
| Listing.CacheSet | src/index.ts:89 | the key gets the value with the standard 300 s lifetime, and other keys are untouched |
| Listing.ReadThrough | src/commands/forums.ts:66-77 | upstream is asked iff the cache misses; a hit leaves the cache as it was; a fetched list is stored, a rejected fetch stores nothing |
| Listing.SecondReadHits | src/commands/news.ts:45-50 | after a miss that fetched a value, a read within the lifetime hits and returns that value without asking upstream |
| Listing.ReadThroughKeepsOtherKeys | src/commands/forums.ts:66-77 | a read-through changes no other key of the cache |
| Listing.Typing | src/commands/forums.ts:62-63 | the reply is wrapped in subscribe, "composing", reply, "paused" |
| Listing.TypingSendsOnce | src/commands/news.ts:40-79 | the wrapped reply performs exactly one send |
| Listing.OrUnknown | src/commands/forums.ts:84 | a missing or empty author name reads "inconnu" |
| Listing.Top | src/commands/forums.ts:81 | `slice(0, 5)`: a prefix of at most five items, all of them when there are fewer |
| Listing.TopIgnoresTail | src/commands/news.ts:54 | items after the fifth do not affect the listing |
| Listing.NumberedLines | src/commands/forums.ts:79-87 | line i is item i rendered with number first + i |
| Listing.EnumerateNumbers | src/commands/forums.ts:79-87 | the loop's text is the concatenation of the numbered lines |
| Listing.NumberedIsTopFive | src/commands/events.ts:48-54 | the listing is the first five items numbered 1.. in order |
| Listing.Page | src/commands/news.ts:51-60 | the reply of a listing command starts with its header and ends with its footer |
| Listing.PageLayout | src/commands/forums.ts:78-88 | the reply is the header, one line per listed item numbered from 1 in order, then the footer |
| Listing.PageIgnoresTail | src/commands/leaderboard.ts:50 | items after the fifth do not change the reply |
| Forums.ParseOption | src/commands/forums.ts:45-60 | no arguments is the usage case, and a chosen option is one of the three allowed |
| Forums.OnlySingleArgumentChooses | src/commands/forums.ts:45-60 | for space-free arguments an option is chosen iff there is exactly one argument and it is allowed, because the arguments are joined with "," |
| Forums.Url | src/commands/forums.ts:67-71 | `withAns=true` iff the option is "answered" |
| Forums.Message | src/commands/forums.ts:78-88 | the reply starts with the header and ends with the /forum link |
| Forums.MessageLayout | src/commands/forums.ts:78-88 | the reply is header, the top five posts numbered from 1, then the link |
| Forums.MessageIgnoresTail | src/commands/forums.ts:81 | posts after the fifth do not change the reply |
| Forums.Execute | src/commands/forums.ts:29-108 | a closed gate sends nothing; an open one sends exactly one message: the usage or unavailable-option text bare, or the listing or apology inside the typing indicator; upstream is asked iff an option was chosen and its cache key missed, with the option's URL |
| Forums.HitIgnoresUpstream | src/commands/forums.ts:66-77 | on a cache hit the upstream answer does not matter |
| News.Message | src/commands/news.ts:51-60 | the reply starts with the header and ends with the /blog link |
| News.MessageLayout | src/commands/news.ts:51-60 | the reply is header, the top five posts numbered from 1 each linking /blog/<slug>, then the link |
| News.MessageIgnoresTail | src/commands/news.ts:54 | posts after the fifth do not change the reply |
| News.Execute | src/commands/news.ts:30-80 | a closed gate sends nothing; an open one sends exactly one message; upstream is asked iff "GNDC-NEWS" misses |
| News.FailureApologises | src/commands/news.ts:71-79 | a failed fetch sends the apology and still ends with "paused" |
| Events.Message | src/commands/events.ts:45-56 | the reply starts with the header and ends with the /events link |
| Events.MessageLayout | src/commands/events.ts:48-54 | for a non-empty list the reply is header, the top five events numbered from 1, then the link |
| Events.NoEventsIffEmpty | src/commands/events.ts:55 | the "no events" line follows the header iff the list is empty |
| Events.MessageIgnoresTail | src/commands/events.ts:48 | events after the fifth do not change the reply |
| Events.Execute | src/commands/events.ts:31-44 | only the target group chat gets a reply, exactly one; upstream is asked iff "GNDC-EVENT" misses |
| Leaderboard.Message | src/commands/leaderboard.ts:46-56 | the reply starts with the header and ends with the /leaderboard link |
| Leaderboard.MessageLayout | src/commands/leaderboard.ts:50-55 | the reply lists the top five users numbered from 1 with xp and a /user/<username> link |
| Leaderboard.MessageIgnoresTail | src/commands/leaderboard.ts:50 | users after the fifth do not change the reply |
| Leaderboard.Execute | src/commands/leaderboard.ts:31-71 | only the target group chat gets a reply, exactly one; upstream is asked iff "GNDC-LEADER" misses |
| Leaderboard.QuotedIffRanking | src/commands/leaderboard.ts:57-71 | the reply quotes the triggering message iff it is the ranking, not the apology |
| Polls.Question | src/commands/polls.ts:28 | the question always ends in "?" |
| Polls.NonEmptyAppend | src/commands/polls.ts:29 | `filter(Boolean)` keeps the order: filtering a concatenation concatenates the filtered parts |
| Polls.OptionsOf | src/commands/polls.ts:29 | every option is non-empty and holds no ";" |
| Polls.ParsePoll | src/commands/polls.ts:22-34 | a parsed poll has a question ending in "?" and at least two non-empty options free of ";" and "?" |
| Polls.NoQuestionMarkIff | src/commands/polls.ts:22-26 | the missing-"?" error occurs iff the text has no "?" |
| Polls.ParsePollRoundTrip | src/commands/polls.ts:22-34 | writing a question, "?", and options joined by ";" parses back to that question and those options, in order |
| Polls.SecondQuestionMarkIgnored | src/commands/polls.ts:22-29 | text after a second "?" does not change the result |
| Polls.Execute | src/commands/polls.ts:16-41 | exactly one message to the sender: usage for no arguments, a poll iff the joined arguments parse, the missing-"?" text when there is no "?", and the too-few-options text when fewer than two options remain |
| Polls.SpacedPoll | src/commands/polls.ts:22-29 | the usage line's shape "Q? A; B" parses to question "Q?" and options A, B |
| Polls.PollCommand | src/commands/polls.ts:16-41 | the arguments of "!poll Q? A; B" create that poll when bound as the argument list |
| Polls.ExecuteBound | src/commands/polls.ts:16-20 | bound to the message object, `!args.length` holds and the usage text is sent |
| Polls.DispatchedPollNeverCreated | src/events/messages.upsert.ts:50 | called as the dispatcher calls it, a well-formed poll command gets the usage text, where the intended call creates the poll |
| Polls.DispatchedNeverPolls | src/events/messages.upsert.ts:50 | as dispatched, no argument list ever yields a poll |
| Help.Execute | src/commands/help.ts:43-61 | one message to the sender: the group text iff the sender is the target group, else the full text iff the sender is the author, else the inbox text |
| Help.GroupBeforeAuthor | src/commands/help.ts:48-59 | when the author's chat is the target group, the group text wins |
| Ai.GenerateId | src/ai.ts:39-41 | an id starts with the prefix and "_" and is longer than both |
| Ai.FormatWhatsAppMessage | src/ai.ts:47-49 | the text is returned unchanged |
| Ai.AddGNDCFooter | src/ai.ts:51-55 | the result ends with the footer; no or empty message gives the footer alone, otherwise message, "\n\n---\n", footer |
| Ai.FooterRemovable | src/ai.ts:51-55 | the message is the footed text's prefix, so it can be recovered |
| Ai.ValidateToolCall | src/ai.ts:97-122 | success iff there is a first call and it names the expected tool, returning that call; otherwise the matching error text |
| Ai.FirstCallDecides | src/ai.ts:111-121 | a later matching call does not rescue a wrong first call |
| Ai.HandleOpenAIError | src/ai.ts:71-78 | with a response, "Erreur OpenAI (status): " then the response's message when it is non-empty, "Erreur inconnue" when it is missing or empty; without one, "Erreur OpenAI : " then the error message |
| Ai.OpenAIErrorStatusReadBack | src/ai.ts:71-78 | the status of a response error can be read back from its text by `parseInt` after "Erreur OpenAI (" |
| QuizAi.SelectDomain | src/quiz-ai.ts:113-115 | a given domain is kept, otherwise a member of the ten tech domains is picked |
| QuizAi.SelectDifficulty | src/quiz-ai.ts:116-118 | a given difficulty is kept, otherwise one of the three levels is picked |
| QuizAi.CountCorrect | src/quiz-ai.ts:144-146 | the count is zero iff no option is correct |
| QuizAi.CountCorrectOne | src/quiz-ai.ts:144-152 | the count is one iff exactly one option is correct |
| QuizAi.Generate | src/quiz-ai.ts:108-171 | a quiz is produced iff the model called `create_quiz` with parseable arguments having exactly one correct option; it carries those fields and a "quiz" id; another count n of correct options gives the error "n réponses correctes au lieu de 1"; a rejected request gives the OpenAI error text |
| QuizAi.CountErrorReportsCount | src/quiz-ai.ts:147-151 | the count error starts with the count, and `parseInt` reads it back |
| QuizAi.FindFirst | src/quiz-ai.ts:198-199 | `find`: the first option satisfying the test, or none when none does |
| QuizAi.CheckAnswer | src/quiz-ai.ts:194-216 | correct iff the first option with that id is correct; "Option invalide" iff no option has that id; a correct answer gets the explanation |
| QuizAi.WrongAnswerNamesCorrect | src/quiz-ai.ts:212-215 | a valid wrong answer's explanation names the first correct option's id |
| QuizAi.OnlyCorrectIdWins | src/quiz-ai.ts:198-210 | with exactly one correct option, an answer is correct iff it names that option |
| QuizAi.FormatResponse | src/quiz-ai.ts:173-192 | the text starts with the heading and every option as "id. text" in order, ends with the footer, and shows the answer part when asked |
| QuizAi.HiddenAnswerIgnoresSolution | src/quiz-ai.ts:185-189 | with the answer hidden, the text does not depend on which options are correct or on the explanation |
| QuizAi.OptionLinesInOrder | src/quiz-ai.ts:181-183 | each option's line follows the previous ones in order |
| MemeAi.BoxCountsInRange | src/meme-ai.ts:37-227 | the table has 34 templates, each asking for one to four captions |
| MemeAi.SharedIds | src/meme-ai.ts:111-226 | two pairs of differently named templates share an Imgflip id |
| MemeAi.FieldNamesDistinct | src/meme-ai.ts:273 | different boxes get different `text<i>` names |
| MemeAi.BuildDynamicTool | src/meme-ai.ts:258-295 | the "template" property is pinned to the template id and `required` is "template" followed by text0..text(n-1) in order |
| MemeAi.RequiredDistinct | src/meme-ai.ts:269-281 | no field is required twice |
| MemeAi.Params | src/meme-ai.ts:313-322 | the form is the credentials, then one `boxes[i][text]` per caption in order |
| MemeAi.CreateMeme | src/meme-ai.ts:302-350 | a caption count different from the box count is refused before any request; otherwise the form is posted and the reply decides the result and error text |
| MemeAi.ExtractTexts | src/meme-ai.ts:430-434 | exactly box-count captions, a missing one read as "" |
| MemeAi.ExtractedTextsArePosted | src/meme-ai.ts:430-443 | the extracted captions always pass the count check |
| MemeAi.Generate | src/meme-ai.ts:352-477 | a meme is made iff the model called `create_meme` with parseable arguments and Imgflip created it; it carries Imgflip's links and the chosen topic |
| MemeAi.FormatResponse | src/meme-ai.ts:479-489 | nothing for a failure; otherwise the links, with the topic or "Sujet généré par l'IA" as subject |
| MemeAi.ShownSubject | src/meme-ai.ts:361-385 | a shown meme's subject is the AI label in AI-topic mode and one of the listed topics otherwise |
| Storage.Save | src/storage.ts:129-157 | the key gets a record with the data and creation time; a truthy TTL sets the expiry `ttl*1000` ms later, none or 0 sets none; other keys are untouched |
| Storage.Get | src/storage.ts:241-260 | a missing key gives null; a record past its expiry (strictly) is deleted and gives null; otherwise its data, store unchanged |
| Storage.Delete | src/storage.ts:262-270 | the key is gone and nothing else changes |
| Storage.SaveThenGet | src/storage.ts:129-255 | reading a saved key before its expiry gives the saved data back and changes nothing |
| Storage.SaveExpires | src/storage.ts:250-253 | at the expiry instant the data is still returned; one millisecond later it is deleted |
| Storage.SaveWithoutTtlLasts | src/storage.ts:141 | a record saved without TTL is returned at any later time |
| Storage.SaveUserScore | src/storage.ts:47-60 | the score record is stored under `user:<id>:score` without expiry |
| Storage.GetUserScore | src/storage.ts:62-65 | an unknown user scores 0; a live score record gives its score; an expired one gives 0 and is deleted |
| Storage.AddUserPoints | src/storage.ts:67-78 | the result is the previous score plus the points, and reading the score back gives it |
| Storage.PointsAccumulate | src/storage.ts:67-78 | for a new user two additions return p and then p + q |
| Storage.PairLeaderboard | src/storage.ts:114-120 | a flat list of length n gives (n+1)/2 entries ranked 1.. in order, entry j holding elements 2j and 2j+1, and flattening the entries gives the list back |
| Storage.ListByPattern | src/storage.ts:158-183 | at most `limit` keys, exactly the first `limit` keys of the scan in order |
| Storage.QuizKeyRoundTrip | src/storage.ts:187-196 | stripping "quiz:" from a quiz key gives the quiz id back |
| Storage.AllQuizzes | src/storage.ts:190-208 | the result is exactly the live truthy `quiz:<id>` values of the listed keys, in key order (the reference `LiveQuizzes`); the store only loses expired records and changes no record |
| Storage.ExtractTimestampFromId | src/storage.ts:209-218 | an id without "_" (including the empty id) gives 0; otherwise the second "_"-separated part read by `parseInt`, and 0 when that part is not a number |
| Storage.TimestampOfGeneratedId | src/storage.ts:209-218 | an id made by `generateId` (src/ai.ts, lines 39-41) with an underscore-free prefix gives back its creation time |
| Storage.FirstMaximum | src/storage.ts:224-230 | the first position holding the greatest timestamp |
| Storage.NewestQuiz | src/storage.ts:219-239 | nothing iff there are no quizzes; otherwise a quiz with the greatest timestamp, the earliest listed among equals (the sort is stable) |
| Cron.Target | src/cron/index.ts:53 | the test group if set, else the configured target group, else "" |
| Cron.SendMeme | src/cron/index.ts:45-60 | exactly one image with the bare footer as caption iff the meme was made, none otherwise |
| Cron.Publish | src/cron/index.ts:62-103 | with a pending pointer nothing happens; a failed generation writes nothing; otherwise the poll of the option texts (one choice, not an announcement), a one-day pin iff a message came back, both records with a 259196 s TTL and the pointer without TTL; every other key is unchanged |
| Cron.KeysDiffer | src/cron/index.ts:99-101 | the three records of a campaign use three different keys |
| Cron.LiveCampaign | src/cron/index.ts:99-101 | until the records expire, the pointer reads back as the quiz id and the quiz and message records as saved, and reading changes nothing |
| Cron.PublishBlocksPublish | src/cron/index.ts:63-101 | after a publish, every later publish is a no-op while the pointer stands |
| Cron.OptionTexts | src/cron/index.ts:81 | the poll values are the option texts in order |
| Cron.RevealAnswer | src/cron/index.ts:105-146 | a clean-up is scheduled iff something was sent, and then the pointed quiz's first correct option and explanation were sent, then an unpin; a truthy record without options, or with no correct option, throws after the message record was read, sends nothing and keeps the pointer; no pending pointer means nothing happens; only expired records leave the store |
| Cron.Cleanup | src/cron/index.ts:139-143 | the quiz, its message and the pointer are deleted and nothing else |
| Cron.CampaignCompletes | src/cron/index.ts:62-146 | publish then reveal within the TTL sends the correct option's text with the explanation, unpins that poll, and after the clean-up no campaign is pending |
| Cron.UnsentPollBlocksForever | src/cron/index.ts:100-124 | when the poll send returned nothing, reveal sends nothing and keeps the pointer, so every later publish is a no-op |
| Cron.NothingToReveal | src/cron/index.ts:106-111 | no pointer, or no live quiz record, means nothing is sent or scheduled |
| Connection.SelfId | src/events/connection.update.ts:75 | the bot's own id is a non-empty `id`, else a non-empty `jid`, else none, and none exactly when neither is set |
| Connection.OnClose | src/events/connection.update.ts:56-70 | a restart after 3000 ms iff the reason is not logged-out; on logout an error is logged |
| Connection.OnOpen | src/events/connection.update.ts:71-87 | one self-message iff the own id is known; a failed send is only logged |
| Connection.Handle | src/events/connection.update.ts:47-89 | unregistered: a pairing request iff a bot number is configured, nothing else; registered: restart iff closed for a reason other than logout; messages only on open |
| Connection.UnregisteredIgnoresUpdate | src/events/connection.update.ts:47-55 | an unregistered device reacts the same to every update |
| Connection.AtMostOneSelfMessage | src/events/connection.update.ts:74-87 | at most one send per update, and a send failure changes neither the sends nor the restart |
| Connection.UnknownReasonRestarts | src/events/connection.update.ts:57-58 | a disconnection without its own status counts as 500 and is retried |

## Left out

- Network, LLM and Redis I/O: the OpenAI request, the Imgflip POST, the website fetches and Redis commands. Their answers are inputs: `Completion`, `ImgflipReply`, `Result`, and the key batches of a scan. The SCAN cursor loop itself, `ping`, `flushAll`, `expire` and `updateLeaderboard` (a plain `zadd`) are not modelled.
- Redis' own expiry of keys saved with `setex` coincides with the record's `expiresAt` and is not modelled separately. `save` reads `Date.now()` twice; both reads are taken to be the same `now`.
- Storage.Save: the TTL is a natural number, so the source's behaviour for a negative TTL (truthy, giving an expiry in the past) is not modelled.
- Storage.GetUserScore: a stored score record is assumed to hold a number; `NaN` or non-numeric scores are not modelled.
- Timers and schedules: the cron expressions and timezone, the 3000 ms clean-up delay (modelled as the separate step `Cron.Cleanup`), and the reconnect delay (reported as `restartAfterMs`).
- `Math.random` and `Date.now` are parameters. So are `new Date().toLocaleString()` in the self-message and the random id suffix.
- The permission lookup `resolveTargetGroups` is not part of this model. Its result is taken as an input list of `{id, allow_inbox}`. An empty list with a private sender is modelled as the `TypeError` the source throws, not as a precondition.
- Listing.ReadThrough: node-cache's clone and check-period behaviour is not modelled. An entry is live while `now <= expiresAt`. The cache is one map per command, because the commands' keys never collide.
- Listing.ReadThrough: only a list is stored. A JSON body that is not a list (an HTTP error answer, say) is cached by the source as it is (src/commands/forums.ts:72-73, and likewise in news, events and leaderboard); every read for the next 300 s then throws at `slice` and sends the apology without asking upstream again. The model treats such a body as a rejected fetch: the apology is sent and nothing is stored.
- Listing.Typing: a rejected `sendMessage` inside a listing command is caught and the apology is sent (src/commands/forums.ts:89-103); sends are modelled as always succeeding, so this second send is not modelled.
- ParseCommandRebuilds: stated only for a text whose first character is one UTF-16 code unit. Above U+FFFF, `slice(1)` leaves a lone low surrogate at the head of the token, and a string of Unicode scalar values cannot hold it. Dispatcher.Decide handles that case without parsing, as an unknown command.
- ParseCommandOfLine: likewise stated only for a prefix character of one UTF-16 code unit. For an astral prefix character the source's token keeps its low surrogate, so the words do not parse back.
- Dispatcher.Decide: `slice(1)` removes one UTF-16 code unit. The model decides an astral first character as an unknown command, which holds as long as no registered command name begins with a lone surrogate. Such a name is not representable in the model.
- Registry.Lookup: the command lookup lowercases ASCII letters only. JavaScript's `toLowerCase` is Unicode-aware (U+212A KELVIN SIGN becomes "k"), so "!AS\u212A" reaches `ask` in the program but not in the model.
- Forums.Execute: the `input.length < 1` branch is unreachable, since a split always yields at least one element, so it is not modelled. The `message || "pas de reponse !!"` fallback never applies because every reply starts with a non-empty header.
- Response bodies are taken as already parsed: JSON parsing of the website answers and of the tool arguments. A parse failure is an input `Failure`.
- The OpenAI prompts, the system context and the tool descriptions are prose that does not affect any decision, and are not modelled.
- `callOpenAI` is the network call.
- Cron.Publish: the program as written throws before generating. `new GNDCQuizGenerator()` (src/cron/index.ts:65) calls `super()` without an argument (src/quiz-ai.ts:29), and the base constructor destructures it (src/ai.ts:10), which is a TypeError. The model's generation result is an input, so it describes the program once that call passes an object.
- Cron.SendMeme: likewise, `new GNDCMemeGenerator(...)` (src/cron/index.ts:46) throws the same TypeError through `super()` (src/meme-ai.ts:33); the model describes the program once the constructor passes an object.
- Cron.Publish: a rejected poll send aborts `sendQuiz` before any of the three saves (src/cron/index.ts:76-101). Sends are modelled as succeeding, possibly with no message back.
- Other parts of the program hold no logic beyond I/O and are not modelled:
  - the HTTP and serverless adapters;
  - the template event handlers and the group metadata caching;
  - the `hi`, `ask`, `groups`, `ping`, `time`, `image` and `meme` commands;
  - the configuration loader;
  - the scratch test file.
- Log output is kept only where a property is about it: the dispatcher's log lines and the connection handler's log lines. Console output is not modelled.
- Events.Line: a missing event link is taken to be `null`, rendered "null"; an absent (`undefined`) link, rendered "undefined", is not distinguished.
- Leaderboard.Line: experience points are integers; a fractional `experiencePoints` is not modelled.
- MemeAi.Generate: the branch after a successful `validateToolCall` that finds no tool calls cannot be reached, and is not modelled.
- Cron.RevealAnswer: a rejected answer send aborts before the unpin and the clean-up (src/cron/index.ts:125-143). Sends are modelled as succeeding.
- Cron.RevealAnswer: the unpin's key comes from the message record. For a truthy record that is not a sent message, the unpin is modelled as sent without a key; what the socket library then does is outside this model.
- `DisconnectReason.loggedOut` is the WhatsApp library's constant 401. A disconnection error that carries no status of its own becomes 500 through `new Boom(error)`.
- The pairing request's own failure (a rejected `requestPairingCode`) is not modelled.

## Findings

| source | as written | input that shows it | evidently intended | confidence | as-written member | corrected member |
|---|---|---|---|---|---|---|
| src/commands/polls.ts:16, src/events/messages.upsert.ts:50 | `execute(sock, from, args)` is called as `execute(sock, from, msg, args)`, so `args` is the message object and `!args.length` is always true | "!poll Lunch? Pizza; Tacos" | the argument list reaches `execute` and the poll "Lunch?" with options Pizza, Tacos is created | high (not executed) | Polls.DispatchedPollNeverCreated | Polls.PollCommand |
