/**
 The `leaderboard` command (src/commands/leaderboard.ts): the top five
 users of the GNDC website, answered in the configured target group only.
 */
module Leaderboard {
  import opened Wrappers
  import opened Strings
  import opened Effects
  import opened Listing

  /** A `User` as far as the reply reads it; experience points are taken
      to be whole numbers. */
  datatype User = User(name: string, experiencePoints: int, username: string)

  /** A `LeaderboardType` page. */
  datatype Board = Board(users: seq<User>, hasMore: bool)

  const CacheKey := "GNDC-LEADER"

  function Url(site: string): string
  {
    site + "/api/leaderboard"
  }

  const Header := "*Leaderboard GNDC\U{1F3C6}:*\n\n"

  /** One numbered entry: trimmed name, experience points, profile link. */
  function Line(site: string, n: nat, u: User): string
  {
    Bullet(n, TrimEnd(u.name)) + "*\n"
      + "   - xp: " + IntToString(u.experiencePoints) + "\n"
      + "   - profil: " + site + "/user/" + u.username + "\n\n"
  }

  function LineAt(site: string): (nat, User) -> string
  {
    (n: nat, u: User) => Line(site, n, u)
  }

  function Message(site: string, board: Board): (m: string)
    ensures StartsWith(m, Header)
    ensures EndsWith(m, SeeMore(site, "/leaderboard"))
  {
    Page(Header, board.users, LineAt(site), SeeMore(site, "/leaderboard"))
  }

  /** The reply lists the first five users (or all, if fewer), numbered from 1. */
  lemma MessageLayout(site: string, board: Board)
    ensures var lines := NumberedLines(Top(board.users), 1, LineAt(site));
      && Message(site, board) == Header + Concat(lines) + SeeMore(site, "/leaderboard")
      && |lines| == |Top(board.users)|
      && forall i :: 0 <= i < |lines| ==> lines[i] == Line(site, i + 1, board.users[i])
  {
    PageLayout(Header, board.users, LineAt(site), SeeMore(site, "/leaderboard"));
  }

  /** `hasMore` and users after the fifth never change the reply. */
  lemma MessageIgnoresTail(site: string, a: Board, b: Board)
    requires |a.users| >= MaxListed && |b.users| >= MaxListed
    requires a.users[..MaxListed] == b.users[..MaxListed]
    ensures Message(site, a) == Message(site, b)
  {
    PageIgnoresTail(Header, a.users, b.users, LineAt(site), SeeMore(site, "/leaderboard"));
  }

  /** `execute(sock, from, msg, args)`: the ranking quotes the triggering
      message and mentions nobody; the apology quotes nothing. */
  function Execute(groupTarget: Option<string>, from: string, site: string,
                   c: Cache<Board>, now: int, upstream: Result<Board, string>)
    : (r: Run<Board>)
    ensures r.outcome.Completed?
    ensures groupTarget != Some(from) ==> r.actions == [] && r.cache == c && r.request.None?
    ensures groupTarget == Some(from) ==> CountSends(r.actions) == 1
    ensures r.request.Some? <==>
      groupTarget == Some(from) && !(CacheKey in c && now <= c[CacheKey].expiresAt)
    ensures r.request.Some? ==> r.request.value == Url(site)
    ensures groupTarget == Some(from) ==>
      && var f := ReadThrough(c, CacheKey, now, upstream);
         && r.actions == Typing(from, match f.data
              case Success(board) => Send(from, Text(Message(site, board), []), true)
              case Failure(_) => Send(from, Text(Apology, []), false))
         && r.cache == f.cache
  {
    if groupTarget != Some(from) then Silent(c)
    else
      var f := ReadThrough(c, CacheKey, now, upstream);
      var reply := match f.data
        case Success(board) => Send(from, Text(Message(site, board), []), true)
        case Failure(_) => Send(from, Text(Apology, []), false);
      TypingSendsOnce(from, reply);
      Run(Typing(from, reply), f.cache, if f.fetched then Some(Url(site)) else None, Completed)
  }

  /** Only a successful ranking is sent as a reply to the command message. */
  lemma QuotedIffRanking(groupTarget: Option<string>, from: string, site: string,
                         c: Cache<Board>, now: int, upstream: Result<Board, string>)
    requires groupTarget == Some(from)
    ensures var r := Execute(groupTarget, from, site, c, now, upstream);
      r.actions[2].quoted <==> ReadThrough(c, CacheKey, now, upstream).data.Success?
  {
  }
}
