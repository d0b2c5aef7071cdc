/**
 The `events` command (src/commands/events.ts): the current GNDC events,
 answered in the configured target group only.
 */
module Events {
  import opened Wrappers
  import opened Strings
  import opened Effects
  import opened Listing

  /** An `EventType` as far as the reply reads it; `link` may be `null`. */
  datatype EventItem = EventItem(title: string, description: string, location: string, link: Option<string>)

  const CacheKey := "GNDC-EVENT"

  function Url(site: string): string
  {
    site + "/api/events"
  }

  const Header := "*Evenements en cours :*\n\n"
  const NoEvents := "pas d'évenement pour le momment !"

  /** One numbered entry; the title is not trimmed and a missing link shows as "null". */
  function Line(n: nat, e: EventItem): string
  {
    Bullet(n, e.title) + "*\n"
      + "   - description : " + e.description + "\n"
      + "   - localisation : " + e.location + "\n"
      + "   - lien: " + OrNull(e.link) + "\n\n"
  }

  function LineAt(): (nat, EventItem) -> string
  {
    (n: nat, e: EventItem) => Line(n, e)
  }

  function Message(site: string, events: seq<EventItem>): (m: string)
    ensures StartsWith(m, Header)
    ensures EndsWith(m, SeeMore(site, "/events"))
  {
    Header + Numbered(events, LineAt())
      + (if |events| == 0 then NoEvents else "")
      + SeeMore(site, "/events")
  }

  /** The reply lists the first five events (or all, if fewer), numbered from 1. */
  lemma MessageLayout(site: string, events: seq<EventItem>)
    requires |events| > 0
    ensures var lines := NumberedLines(Top(events), 1, LineAt());
      && Message(site, events) == Header + Concat(lines) + SeeMore(site, "/events")
      && |lines| == |Top(events)|
      && forall i :: 0 <= i < |lines| ==> lines[i] == Line(i + 1, events[i])
  {
    NumberedIsTopFive(events, LineAt());
  }

  /** A non-empty listing opens with the digit of its first number. */
  lemma {:induction false} ListingStartsWithOne(events: seq<EventItem>)
    requires |events| > 0
    ensures var body := Numbered(events, LineAt()); |body| > 0 && body[0] == '1'
  {
    var top := Top(events);
    EnumerateStartsWithFirst(top, 1, LineAt());
    assert NatToString(1) == "1";
    assert Line(1, top[0])[0] == '1';
  }

  /** What follows the header: the listing, the "no event" sentence when
      there is nothing to list, and the footer. */
  function AfterHeader(site: string, events: seq<EventItem>): string
  {
    Numbered(events, LineAt()) + (if |events| == 0 then NoEvents else "") + SeeMore(site, "/events")
  }

  lemma {:induction false} MessageSplitsAtHeader(site: string, events: seq<EventItem>)
    ensures Message(site, events)[|Header|..] == AfterHeader(site, events)
  {
    var rest := AfterHeader(site, events);
    assert Message(site, events) == Header + rest;
    DropPrefix(Header, rest);
  }

  lemma DropPrefix(a: string, b: string)
    ensures (a + b)[|a|..] == b
  {
  }

  /** The "no event" sentence follows the header exactly when the list is empty. */
  lemma {:induction false} NoEventsIffEmpty(site: string, events: seq<EventItem>)
    ensures var m := Message(site, events);
      StartsWith(m[|Header|..], NoEvents) <==> |events| == 0
  {
    MessageSplitsAtHeader(site, events);
    var rest := AfterHeader(site, events);
    var tail := SeeMore(site, "/events");
    if |events| > 0 {
      ListingStartsWithOne(events);
      assert rest[0] == '1';
      assert NoEvents[0] == 'p';
    } else {
      assert rest == NoEvents + tail;
      assert rest[..|NoEvents|] == NoEvents;
    }
  }

  /** Events after the fifth never change the reply. */
  lemma MessageIgnoresTail(site: string, a: seq<EventItem>, b: seq<EventItem>)
    requires |a| >= MaxListed && |b| >= MaxListed && a[..MaxListed] == b[..MaxListed]
    ensures Message(site, a) == Message(site, b)
  {
    TopIgnoresTail(a, b);
  }

  /** `execute(sock, from, msg, args)`: only `config.bot.group_target` gets
      an answer; with no target configured nobody does. */
  function Execute(groupTarget: Option<string>, from: string, site: string,
                   c: Cache<seq<EventItem>>, now: int, upstream: Result<seq<EventItem>, string>)
    : (r: Run<seq<EventItem>>)
    ensures r.outcome.Completed?
    ensures groupTarget != Some(from) ==> r.actions == [] && r.cache == c && r.request.None?
    ensures groupTarget == Some(from) ==> CountSends(r.actions) == 1
    ensures r.request.Some? <==>
      groupTarget == Some(from) && !(CacheKey in c && now <= c[CacheKey].expiresAt)
    ensures r.request.Some? ==> r.request.value == Url(site)
    ensures groupTarget == Some(from) ==>
      && var f := ReadThrough(c, CacheKey, now, upstream);
         && r.actions == Typing(from, match f.data
              case Success(events) => Send(from, Text(Message(site, events), [from]), false)
              case Failure(_) => Send(from, Text(Apology, []), false))
         && r.cache == f.cache
  {
    if groupTarget != Some(from) then Silent(c)
    else
      var f := ReadThrough(c, CacheKey, now, upstream);
      var reply := match f.data
        case Success(events) => Send(from, Text(Message(site, events), [from]), false)
        case Failure(_) => Send(from, Text(Apology, []), false);
      TypingSendsOnce(from, reply);
      Run(Typing(from, reply), f.cache, if f.fetched then Some(Url(site)) else None, Completed)
  }
}
