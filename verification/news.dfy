/**
 The `news` command (src/commands/news.ts): the latest five blog posts of
 the GNDC website.
 */
module News {
  import opened Wrappers
  import opened Strings
  import opened Effects
  import opened Listing

  const Name := "news"

  /** A `BlogPostResponse` as far as the reply reads it. */
  datatype BlogPost = BlogPost(title: string, slug: string, authorName: Option<string>)

  const CacheKey := "GNDC-NEWS"

  function Url(site: string): string
  {
    site + "/api/bot/blogs"
  }

  const Header := "*Dernières News de GNDC:*\n\n"

  /** One numbered entry: trimmed title, author or "inconnu", link to the slug. */
  function Line(site: string, n: nat, p: BlogPost): string
  {
    Bullet(n, TrimEnd(p.title)) + "*\n"
      + "   - par : " + OrUnknown(p.authorName) + "\n"
      + "   - lien : " + site + "/blog/" + p.slug + "\n\n"
  }

  function LineAt(site: string): (nat, BlogPost) -> string
  {
    (n: nat, p: BlogPost) => Line(site, n, p)
  }

  function Message(site: string, posts: seq<BlogPost>): (m: string)
    ensures StartsWith(m, Header)
    ensures EndsWith(m, SeeMore(site, "/blog"))
  {
    Page(Header, posts, LineAt(site), SeeMore(site, "/blog"))
  }

  /** The reply lists the first five posts (or all, if fewer), numbered from 1. */
  lemma MessageLayout(site: string, posts: seq<BlogPost>)
    ensures var lines := NumberedLines(Top(posts), 1, LineAt(site));
      && Message(site, posts) == Header + Concat(lines) + SeeMore(site, "/blog")
      && |lines| == |Top(posts)|
      && forall i :: 0 <= i < |lines| ==> lines[i] == Line(site, i + 1, posts[i])
  {
    PageLayout(Header, posts, LineAt(site), SeeMore(site, "/blog"));
  }

  /** Posts after the fifth never change the reply. */
  lemma MessageIgnoresTail(site: string, a: seq<BlogPost>, b: seq<BlogPost>)
    requires |a| >= MaxListed && |b| >= MaxListed && a[..MaxListed] == b[..MaxListed]
    ensures Message(site, a) == Message(site, b)
  {
    PageIgnoresTail(Header, a, b, LineAt(site), SeeMore(site, "/blog"));
  }

  /** `execute(sock, from, msg, args)`; the arguments are not read. */
  function Execute(targets: seq<Target>, from: string, site: string,
                   c: Cache<seq<BlogPost>>, now: int, upstream: Result<seq<BlogPost>, string>)
    : (r: Run<seq<BlogPost>>)
    ensures r.outcome.Threw? <==> InboxGate(targets, from, Name).Crash?
    ensures !InboxGate(targets, from, Name).Open? ==> r.actions == [] && r.cache == c && r.request.None?
    ensures InboxGate(targets, from, Name).Open? ==> CountSends(r.actions) == 1
    ensures r.request.Some? <==>
      InboxGate(targets, from, Name).Open? && !(CacheKey in c && now <= c[CacheKey].expiresAt)
    ensures r.request.Some? ==> r.request.value == Url(site)
    ensures InboxGate(targets, from, Name).Open? ==>
      && var f := ReadThrough(c, CacheKey, now, upstream);
         && r.actions == Typing(from, match f.data
              case Success(posts) => Send(from, Text(Message(site, posts), [from]), false)
              case Failure(_) => Send(from, Text(Apology, []), false))
         && r.cache == f.cache
  {
    match InboxGate(targets, from, Name)
    case Closed => Silent(c)
    case Crash => Run([], c, None, Threw(UndefinedTargetError))
    case Open =>
      var f := ReadThrough(c, CacheKey, now, upstream);
      var reply := match f.data
        case Success(posts) => Send(from, Text(Message(site, posts), [from]), false)
        case Failure(_) => Send(from, Text(Apology, []), false);
      TypingSendsOnce(from, reply);
      Run(Typing(from, reply), f.cache, if f.fetched then Some(Url(site)) else None, Completed)
  }

  /** A failed request sends the apology alone, still between "composing"
      and "paused", and caches nothing. */
  lemma FailureApologises(targets: seq<Target>, from: string, site: string,
                          c: Cache<seq<BlogPost>>, now: int, e: string)
    requires InboxGate(targets, from, Name).Open?
    requires !(CacheKey in c && now <= c[CacheKey].expiresAt)
    ensures var r := Execute(targets, from, site, c, now, Failure(e));
      && r.actions == Typing(from, Send(from, Text(Apology, []), false))
      && CacheKey !in r.cache
  {
  }
}
