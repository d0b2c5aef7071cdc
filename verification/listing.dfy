/**
 What the four listing commands (forums, news, events, leaderboard) share:
 the permission gate over the resolved target groups, the read-through use
 of the global node-cache, the typing indicator around the reply, and the
 numbered top-5 listing.
 */
module Listing {
  import opened Wrappers
  import opened Strings
  import opened Effects

  // ---------------------------------------------------------------------
  // permission gate
  // ---------------------------------------------------------------------

  /** One entry of the list `resolveTargetGroups("allowedcommand", cmd)` resolves to. */
  datatype Target = Target(id: string, allowInbox: Option<seq<string>>)

  /** Group chats have JIDs ending in "@g.us". */
  predicate IsGroup(jid: string)
  {
    EndsWith(jid, "@g.us")
  }

  /** `ids.some((t) => t.id === from)`. */
  predicate Listed(targets: seq<Target>, from: string)
  {
    exists i :: 0 <= i < |targets| && targets[i].id == from
  }

  /** `t.allow_inbox?.includes(command)`. */
  predicate AllowsInbox(t: Target, command: string)
  {
    t.allowInbox.Some? && command in t.allowInbox.value
  }

  /** How the gate ends: go on, return silently, or throw because `ids[0]`
      is read on an empty list. */
  datatype Gate = Open | Closed | Crash

  /** The message thrown by reading `.allow_inbox` of `ids[0]` when `ids` is empty. */
  const UndefinedTargetError := "TypeError: Cannot read properties of undefined (reading 'allow_inbox')"

  /** An unlisted group is turned away first; then the FIRST resolved entry
      decides, whoever the sender is. */
  function InboxGate(targets: seq<Target>, from: string, command: string): (g: Gate)
    ensures g.Open? <==>
      ((Listed(targets, from) || !IsGroup(from)) && |targets| > 0 && AllowsInbox(targets[0], command))
    ensures g.Crash? <==> |targets| == 0 && !IsGroup(from)
    ensures !Listed(targets, from) && IsGroup(from) ==> g.Closed?
  {
    if !Listed(targets, from) && IsGroup(from) then Closed
    else if |targets| == 0 then Crash
    else if AllowsInbox(targets[0], command) then Open
    else Closed
  }

  /** A sender's own entry does not help it: when the first entry does not
      allow the command in inbox, nobody passes, listed or not. */
  lemma OnlyFirstEntryCounts(targets: seq<Target>, from: string, command: string, i: nat)
    requires i < |targets| && targets[i].id == from && AllowsInbox(targets[i], command)
    requires !AllowsInbox(targets[0], command)
    ensures !InboxGate(targets, from, command).Open?
  {
  }

  /** A private chat is never turned away by the listing check, even when
      it is listed nowhere: only the first entry's inbox list matters. */
  lemma PrivateChatNeedsNoListing(targets: seq<Target>, from: string, command: string)
    requires !IsGroup(from) && |targets| > 0 && AllowsInbox(targets[0], command)
    ensures InboxGate(targets, from, command) == Open
  {
  }

  // ---------------------------------------------------------------------
  // the global cache
  // ---------------------------------------------------------------------

  /** `new NodeCache({ stdTTL: 5 * 60 })`: entries live 300 seconds. */
  const StdTtlMs: nat := 5 * 60 * 1000

  /** A cached value and the instant (milliseconds) after which it is stale. */
  datatype Entry<T> = Entry(value: T, expiresAt: int)

  type Cache<T> = map<string, Entry<T>>

  /** node-cache's `get`: a hit while `now <= expiresAt`; a stale entry is
      deleted by the read. */
  function CacheGet<T>(c: Cache<T>, key: string, now: int): (r: (Option<T>, Cache<T>))
    ensures r.0.Some? <==> key in c && now <= c[key].expiresAt
    ensures r.0.Some? ==> r.0.value == c[key].value && r.1 == c
    ensures r.0.None? ==> r.1 == c - {key}
  {
    if key in c && now <= c[key].expiresAt then (Some(c[key].value), c)
    else (None, c - {key})
  }

  /** node-cache's `set` with the standard TTL. */
  function CacheSet<T>(c: Cache<T>, key: string, v: T, now: int): (r: Cache<T>)
    ensures key in r && r[key].value == v && r[key].expiresAt == now + StdTtlMs
    ensures forall k :: k in c && k != key ==> k in r && r[k] == c[k]
    ensures forall k :: k in r ==> k in c || k == key
  {
    c[key := Entry(v, now + StdTtlMs)]
  }

  /** The outcome of `if (!cache.get(key)) { fetch; cache.set(key, data) }
      data = cache.get(key)`, read at one instant; `fetched` says whether
      the upstream request was made. */
  datatype Fetched<T> = Fetched(data: Result<T, string>, cache: Cache<T>, fetched: bool)

  /** The read-through: `upstream` is what the request would yield (a
      failure is a rejected fetch or a body that is not JSON). */
  function ReadThrough<T>(c: Cache<T>, key: string, now: int, upstream: Result<T, string>): (r: Fetched<T>)
    ensures r.fetched <==> !(key in c && now <= c[key].expiresAt)
    ensures !r.fetched ==> r.data == Success(c[key].value) && r.cache == c
    ensures r.fetched && upstream.Success? ==>
      r.data == upstream && r.cache == (c - {key})[key := Entry(upstream.value, now + StdTtlMs)]
    ensures r.fetched && upstream.Failure? ==> r.data.Failure? && r.cache == c - {key}
  {
    var (hit, c1) := CacheGet(c, key, now);
    match hit
    case Some(v) => Fetched(Success(v), c1, false)
    case None =>
      match upstream
      case Failure(e) => Fetched(Failure(e), c1, true)
      case Success(v) =>
        var c2 := CacheSet(c1, key, v, now);
        var (again, c3) := CacheGet(c2, key, now);
        Fetched(Success(again.value), c3, true)
  }

  /** Within five minutes of a fetch the cached list is served again and the
      upstream is not asked, whatever it would answer now. */
  lemma {:induction false} SecondReadHits<T>(c: Cache<T>, key: string, now: int, later: int,
                                             v: T, upstream: Result<T, string>)
    requires !(key in c && now <= c[key].expiresAt)
    requires now <= later <= now + StdTtlMs
    ensures var first := ReadThrough(c, key, now, Success(v));
      var second := ReadThrough(first.cache, key, later, upstream);
      !second.fetched && second.data == first.data && second.cache == first.cache
  {
    var first := ReadThrough(c, key, now, Success(v));
    assert key in first.cache && first.cache[key].value == first.data.value;
    assert later <= first.cache[key].expiresAt;
  }

  /** Reads under one key never touch another command's entry. */
  lemma ReadThroughKeepsOtherKeys<T>(c: Cache<T>, key: string, other: string, now: int, upstream: Result<T, string>)
    requires other != key
    ensures var r := ReadThrough(c, key, now, upstream);
      (other in r.cache <==> other in c) && (other in c ==> r.cache[other] == c[other])
  {
  }

  // ---------------------------------------------------------------------
  // the reply
  // ---------------------------------------------------------------------

  /** What the `catch` branch sends. */
  const Apology := "Je suis désolé, j'ai rencontré une erreur lors du traitement de votre question. Veuillez réessayer."

  /** `presenceSubscribe`, "composing", the one message of the `try`/`catch`,
      and "paused" from the `finally`. */
  function Typing(from: string, reply: Action): (r: seq<Action>)
    ensures |r| == 4 && r[2] == reply
    ensures r[0] == PresenceSubscribe(from) && r[1] == PresenceUpdate("composing", from)
    ensures r[3] == PresenceUpdate("paused", from)
  {
    [PresenceSubscribe(from), PresenceUpdate("composing", from), reply, PresenceUpdate("paused", from)]
  }

  lemma TypingSendsOnce(from: string, reply: Action)
    requires reply.Send?
    ensures CountSends(Typing(from, reply)) == 1
  {
    var r := Typing(from, reply);
    assert r[3..][1..] == [];
    assert CountSends(r[3..]) == 0;
    assert r[2..][1..] == r[3..];
    assert CountSends(r[2..]) == 1;
    assert r[1..][1..] == r[2..];
    assert CountSends(r[1..]) == 1;
  }

  /** A command run: the socket calls, the cache afterwards, the URL
      requested if any, and how `execute` settled. */
  datatype Run<T> = Run(actions: seq<Action>, cache: Cache<T>, request: Option<string>, outcome: Outcome)

  /** No reply, no request, nothing cached. */
  function Silent<T>(c: Cache<T>): (r: Run<T>)
    ensures r.actions == [] && r.cache == c && r.request.None? && r.outcome.Completed?
  {
    Run([], c, None, Completed)
  }

  /** `author.name || "inconnu"`. */
  function OrUnknown(name: Option<string>): (r: string)
    ensures name.Some? && name.value != "" ==> r == name.value
    ensures name.None? || name.value == "" ==> r == "inconnu"
  {
    if name.Some? && name.value != "" then name.value else "inconnu"
  }

  /** `${x}` of a value that may be `null`. */
  function OrNull(s: Option<string>): (r: string)
    ensures s.Some? ==> r == s.value
    ensures s.None? ==> r == "null"
  {
    if s.Some? then s.value else "null"
  }

  // ---------------------------------------------------------------------
  // numbered top-5 listing
  // ---------------------------------------------------------------------

  const MaxListed: nat := 5

  /** `data.slice(0, 5)`. */
  function Top<T>(items: seq<T>): (r: seq<T>)
    ensures |r| <= MaxListed && |r| <= |items|
    ensures |r| == MaxListed || |r| == |items|
    ensures r == items[..|r|]
  {
    if |items| <= MaxListed then items else items[..MaxListed]
  }

  /** Anything after the fifth item is dropped. */
  lemma TopIgnoresTail<T>(a: seq<T>, b: seq<T>)
    requires |a| >= MaxListed && |b| >= MaxListed && a[..MaxListed] == b[..MaxListed]
    ensures Top(a) == Top(b)
  {
  }

  /** `for (const item of items) { message += line(count, item); count++ }`
      with the counter starting at `first`. */
  function Enumerate<T>(items: seq<T>, first: nat, line: (nat, T) -> string): string
    decreases |items|
  {
    if |items| == 0 then "" else line(first, items[0]) + Enumerate(items[1..], first + 1, line)
  }

  /** The lines of a listing whose counter starts at `first`: line i
      (0-based) is item i numbered first + i. */
  function NumberedLines<T>(items: seq<T>, first: nat, line: (nat, T) -> string): (r: seq<string>)
    ensures |r| == |items|
    ensures forall i :: 0 <= i < |items| ==> r[i] == line(first + i, items[i])
  {
    seq(|items|, i requires 0 <= i < |items| => line(first + i, items[i]))
  }

  /** The loop writes exactly those lines, in order and nothing else. */
  lemma {:induction false} EnumerateNumbers<T>(items: seq<T>, first: nat, line: (nat, T) -> string)
    ensures Enumerate(items, first, line) == Concat(NumberedLines(items, first, line))
    decreases |items|
  {
    if |items| > 0 {
      EnumerateNumbers(items[1..], first + 1, line);
      assert NumberedLines(items, first, line)[1..] == NumberedLines(items[1..], first + 1, line);
    }
  }

  /** The first line of a non-empty listing is numbered `first`. */
  lemma EnumerateStartsWithFirst<T>(items: seq<T>, first: nat, line: (nat, T) -> string)
    requires |items| > 0
    ensures StartsWith(Enumerate(items, first, line), line(first, items[0]))
  {
  }

  /** The listing with the counter starting at 1: the five first items numbered 1..k. */
  function Numbered<T>(items: seq<T>, line: (nat, T) -> string): string
  {
    Enumerate(Top(items), 1, line)
  }

  lemma NumberedIsTopFive<T>(items: seq<T>, line: (nat, T) -> string)
    ensures var lines := NumberedLines(Top(items), 1, line);
      && Numbered(items, line) == Concat(lines)
      && |lines| == |Top(items)|
      && forall i :: 0 <= i < |lines| ==> lines[i] == line(i + 1, items[i])
  {
    EnumerateNumbers(Top(items), 1, line);
  }

  /** The reply of the listing commands: a header, the first five items
      numbered from 1, and a footer. */
  function Page<T>(header: string, items: seq<T>, line: (nat, T) -> string, footer: string): (m: string)
    ensures StartsWith(m, header)
    ensures EndsWith(m, footer)
  {
    var m := header + Numbered(items, line) + footer;
    assert m[..|header|] == header;
    assert m[|m| - |footer|..] == footer;
    m
  }

  /** The page is the header, one line per listed item in order, and the footer. */
  lemma PageLayout<T>(header: string, items: seq<T>, line: (nat, T) -> string, footer: string)
    ensures var lines := NumberedLines(Top(items), 1, line);
      && Page(header, items, line, footer) == header + Concat(lines) + footer
      && |lines| == |Top(items)|
      && forall i :: 0 <= i < |lines| ==> lines[i] == line(i + 1, items[i])
  {
    NumberedIsTopFive(items, line);
  }

  /** Items after the fifth never change the page. */
  lemma PageIgnoresTail<T>(header: string, a: seq<T>, b: seq<T>, line: (nat, T) -> string, footer: string)
    requires |a| >= MaxListed && |b| >= MaxListed && a[..MaxListed] == b[..MaxListed]
    ensures Page(header, a, line, footer) == Page(header, b, line, footer)
  {
    TopIgnoresTail(a, b);
  }

  /** "<n>. *" opening each numbered entry. */
  function Bullet(n: nat, title: string): string
  {
    NatToString(n) + ". *" + title
  }

  /** `${site}<path>`, the "Voir plus" footer (`\V` in a template literal is just "V"). */
  function SeeMore(site: string, path: string): string
  {
    "Voir plus: " + site + path
  }
}
