/**
 The `forums` command (src/commands/forums.ts): the latest questions of the
 GNDC platform, filtered by whether they have answers.
 */
module Forums {
  import opened Wrappers
  import opened Strings
  import opened Effects
  import opened Listing

  const Name := "forums"

  /** A `ForumPostResponse` as far as the reply reads it. */
  datatype ForumPost = ForumPost(id: string, title: string, authorName: Option<string>)

  const Usage := "Usage: >forums all | no-answer | answered "
  const Unavailable := "Choix saisi indisponible !!"
  const Options: seq<string> := ["all", "no-answer", "answered"]

  /** How the arguments are read. */
  datatype Choice = NoArgs | Unknown | Chosen(option: string)

  /** `input = args.join().split(" ")` and `option = input[0]`: the default
      separator of `join` is a comma. `split` always yields a first piece, so
      the "at least one option" reply can never be sent. */
  function ParseOption(args: seq<string>): (c: Choice)
    ensures c.NoArgs? <==> |args| == 0
    ensures c.Chosen? ==> c.option in Options
  {
    if |args| == 0 then NoArgs
    else
      var input := Split(Join(args, ","), ' ');
      if input[0] in Options then Chosen(input[0]) else Unknown
  }

  /** With arguments as the dispatcher produces them (no spaces), an option
      is chosen exactly when there is ONE argument and it is a known option:
      ["all", "x"] becomes "all,x" and is refused. */
  lemma OnlySingleArgumentChooses(args: seq<string>)
    requires forall i :: 0 <= i < |args| ==> ' ' !in args[i]
    ensures ParseOption(args).Chosen? <==> |args| == 1 && args[0] in Options
    ensures ParseOption(args).Chosen? ==> ParseOption(args).option == args[0]
  {
    if |args| > 0 {
      var joined := Join(args, ",");
      JoinAvoids(args, ",", ' ');
      SplitNoSep(joined, ' ');
      if |args| >= 2 {
        JoinHasSeparator(args, ',');
        assert joined !in Options by {
          assert ',' !in Options[0] && ',' !in Options[1] && ',' !in Options[2];
        }
      }
    }
  }

  /** `"GNDC-FORUMS-" + option`: one cache entry per option. */
  function CacheKey(option: string): string
  {
    "GNDC-FORUMS-" + option
  }

  /** `${WEBSITE_URL}/api/bot/forums?withAns=${option === "answered"}`. */
  function Url(site: string, option: string): (u: string)
    ensures option == "answered" ==> u == site + "/api/bot/forums?withAns=true"
    ensures option != "answered" ==> u == site + "/api/bot/forums?withAns=false"
  {
    site + "/api/bot/forums?withAns=" + (if option == "answered" then "true" else "false")
  }

  const Header := "*Question posées sur la plateforme GNDC:* \n\n"

  /** One numbered entry: trimmed title, author or "inconnu", link. */
  function Line(site: string, n: nat, p: ForumPost): string
  {
    Bullet(n, TrimEnd(p.title)) + "* \n"
      + "   - par : " + OrUnknown(p.authorName) + "\n"
      + "   - lien : " + site + "/forum/" + p.id + "\n\n"
  }

  function LineAt(site: string): (nat, ForumPost) -> string
  {
    (n: nat, p: ForumPost) => Line(site, n, p)
  }

  function Message(site: string, posts: seq<ForumPost>): (m: string)
    ensures StartsWith(m, Header)
    ensures EndsWith(m, SeeMore(site, "/forum"))
  {
    Page(Header, posts, LineAt(site), SeeMore(site, "/forum"))
  }

  /** The reply lists the first five posts (or all, if fewer), numbered from 1. */
  lemma MessageLayout(site: string, posts: seq<ForumPost>)
    ensures var lines := NumberedLines(Top(posts), 1, LineAt(site));
      && Message(site, posts) == Header + Concat(lines) + SeeMore(site, "/forum")
      && |lines| == |Top(posts)|
      && forall i :: 0 <= i < |lines| ==> lines[i] == Line(site, i + 1, posts[i])
  {
    PageLayout(Header, posts, LineAt(site), SeeMore(site, "/forum"));
  }

  /** Posts after the fifth never change the reply. */
  lemma MessageIgnoresTail(site: string, a: seq<ForumPost>, b: seq<ForumPost>)
    requires |a| >= MaxListed && |b| >= MaxListed && a[..MaxListed] == b[..MaxListed]
    ensures Message(site, a) == Message(site, b)
  {
    PageIgnoresTail(Header, a, b, LineAt(site), SeeMore(site, "/forum"));
  }

  /** `execute(sock, from, msg, args)`. `upstream` is what the website would
      return for the request, `now` the clock of this call. */
  function Execute(targets: seq<Target>, from: string, args: seq<string>, site: string,
                   c: Cache<seq<ForumPost>>, now: int, upstream: Result<seq<ForumPost>, string>)
    : (r: Run<seq<ForumPost>>)
    ensures r.outcome.Threw? <==> InboxGate(targets, from, Name).Crash?
    ensures !InboxGate(targets, from, Name).Open? ==> r.actions == [] && r.cache == c && r.request.None?
    ensures InboxGate(targets, from, Name).Open? ==> CountSends(r.actions) == 1
    ensures InboxGate(targets, from, Name).Open? && |args| == 0 ==>
      r.actions == [Send(from, Text(Usage, []), false)]
    ensures InboxGate(targets, from, Name).Open? && ParseOption(args).Unknown? ==>
      r.actions == [Send(from, Text(Unavailable, []), false)]
    ensures r.request.Some? <==>
      && InboxGate(targets, from, Name).Open?
      && ParseOption(args).Chosen?
      && var key := CacheKey(ParseOption(args).option);
         !(key in c && now <= c[key].expiresAt)
    ensures r.request.Some? ==> r.request.value == Url(site, ParseOption(args).option)
    ensures InboxGate(targets, from, Name).Open? && ParseOption(args).Chosen? ==>
      && var key := CacheKey(ParseOption(args).option);
         var f := ReadThrough(c, key, now, upstream);
         && r.actions == Typing(from, match f.data
              case Success(posts) => Send(from, Text(Message(site, posts), [from]), false)
              case Failure(_) => Send(from, Text(Apology, []), false))
         && r.cache == f.cache
  {
    match InboxGate(targets, from, Name)
    case Closed => Silent(c)
    case Crash => Run([], c, None, Threw(UndefinedTargetError))
    case Open =>
      match ParseOption(args)
      case NoArgs => Run([Send(from, Text(Usage, []), false)], c, None, Completed)
      case Unknown => Run([Send(from, Text(Unavailable, []), false)], c, None, Completed)
      case Chosen(option) =>
        var f := ReadThrough(c, CacheKey(option), now, upstream);
        var reply := match f.data
          case Success(posts) => Send(from, Text(Message(site, posts), [from]), false)
          case Failure(_) => Send(from, Text(Apology, []), false);
        TypingSendsOnce(from, reply);
        Run(Typing(from, reply), f.cache, if f.fetched then Some(Url(site, option)) else None, Completed)
  }

  /** A cached list is reused: the upstream answer does not matter on a hit. */
  lemma HitIgnoresUpstream(targets: seq<Target>, from: string, args: seq<string>, site: string,
                           c: Cache<seq<ForumPost>>, now: int, u1: Result<seq<ForumPost>, string>,
                           u2: Result<seq<ForumPost>, string>)
    requires ParseOption(args).Chosen?
    requires var key := CacheKey(ParseOption(args).option); key in c && now <= c[key].expiresAt
    ensures Execute(targets, from, args, site, c, now, u1) == Execute(targets, from, args, site, c, now, u2)
  {
  }
}
