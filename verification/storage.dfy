/**
 The Redis-backed record store (src/storage.ts): every value is wrapped in
 a record with its creation time and optional expiry, and reads re-check
 the expiry against the clock. The store is a map from key to record; the
 clock is a parameter in milliseconds.
 */
module Storage {
  import opened Wrappers
  import opened Strings
  import opened Effects
  import opened QuizAi

  /** `StoredItem["type"]`. */
  datatype ItemType = QuizItem | MemeItem | UserScore | Custom

  /** The values the bot stores. `Undefined` is what a record holds when it
      was saved with `undefined` data: JSON drops the field. `Null` is what
      `get` returns for a missing or expired key. */
  datatype Value =
    | Null
    | Undefined
    | Str(s: string)
    | QuizValue(quiz: Quiz)
    | MessageValue(msg: SentMessage)
    | ScoreValue(userId: string, score: int, quizId: Option<string>, timestamp: int)
  {
    /** JavaScript truthiness of the value. */
    predicate Truthy()
    {
      match this
      case Null => false
      case Undefined => false
      case Str(s) => s != ""
      case _ => true
    }
  }

  /** `StoredItem`: `expiresAt` is absent for records saved without a TTL. */
  datatype StoredItem = StoredItem(id: string, kind: ItemType, data: Value, createdAt: int, expiresAt: Option<int>)

  type Store = map<string, StoredItem>

  /** `item.expiresAt && now > item.expiresAt`: expiry is strict, and a
      record without an expiry (or with 0) never expires. */
  predicate Expired(item: StoredItem, now: int)
  {
    item.expiresAt.Some? && item.expiresAt.value != 0 && now > item.expiresAt.value
  }

  /** `save(key, type, data, ttl?)`: a truthy TTL (in seconds) sets the
      expiry `ttl * 1000` milliseconds after `now`. */
  function Save(s: Store, key: string, kind: ItemType, data: Value, ttl: Option<nat>, now: int): (r: Store)
    ensures key in r && r[key].id == key && r[key].kind == kind && r[key].data == data
    ensures r[key].createdAt == now
    ensures ttl.Some? && ttl.value > 0 ==> r[key].expiresAt == Some(now + ttl.value * 1000)
    ensures ttl.None? || ttl.value == 0 ==> r[key].expiresAt.None?
    ensures forall k :: k != key ==> (k in r <==> k in s) && (k in s ==> r[k] == s[k])
  {
    var expiresAt := if ttl.Some? && ttl.value > 0 then Some(now + ttl.value * 1000) else None;
    s[key := StoredItem(key, kind, data, now, expiresAt)]
  }

  /** `get(key)`: the data of a live record, `Null` for a missing key, and
      for an expired one `Null` after deleting it. */
  function Get(s: Store, key: string, now: int): (r: (Value, Store))
    ensures key !in s ==> r == (Null, s)
    ensures key in s && Expired(s[key], now) ==> r == (Null, s - {key})
    ensures key in s && !Expired(s[key], now) ==> r == (s[key].data, s)
  {
    if key !in s then (Null, s)
    else if Expired(s[key], now) then (Null, Delete(s, key))
    else (s[key].data, s)
  }

  /** `delete(key)`. */
  function Delete(s: Store, key: string): (r: Store)
    ensures key !in r
    ensures forall k :: k != key ==> (k in r <==> k in s) && (k in s ==> r[k] == s[k])
  {
    s - {key}
  }

  /** Reading back what was just saved, before it expires, gives the data
      unchanged and leaves the store as it was. */
  lemma SaveThenGet(s: Store, key: string, kind: ItemType, data: Value, ttl: Option<nat>, now: int, later: int)
    requires now <= later
    requires ttl.Some? && ttl.value > 0 ==> later <= now + ttl.value * 1000
    ensures var s1 := Save(s, key, kind, data, ttl, now);
      Get(s1, key, later) == (data, s1)
  {
  }

  /** Past its expiry a record is gone: the read returns `Null` and deletes
      it. At the expiry instant itself the data is still returned. */
  lemma SaveExpires(s: Store, key: string, kind: ItemType, data: Value, ttl: nat, now: int)
    requires ttl > 0 && now >= 0
    ensures var s1 := Save(s, key, kind, data, Some(ttl), now);
      && Get(s1, key, now + ttl * 1000) == (data, s1)
      && Get(s1, key, now + ttl * 1000 + 1) == (Null, s1 - {key})
  {
  }

  /** Without a TTL a record never expires. */
  lemma SaveWithoutTtlLasts(s: Store, key: string, kind: ItemType, data: Value, now: int, later: int)
    ensures var s1 := Save(s, key, kind, data, None, now);
      Get(s1, key, later) == (data, s1)
  {
  }

  // ---------------------------------------------------------------------
  // user scores
  // ---------------------------------------------------------------------

  function ScoreKey(userId: string): string
  {
    "user:" + userId + ":score"
  }

  /** `saveUserScore(userId, score, quizId?)`: stored without a TTL. */
  function SaveUserScore(s: Store, userId: string, score: int, quizId: Option<string>, now: int): (r: Store)
    ensures ScoreKey(userId) in r && r[ScoreKey(userId)].data == ScoreValue(userId, score, quizId, now)
    ensures r[ScoreKey(userId)].expiresAt.None?
  {
    Save(s, ScoreKey(userId), UserScore, ScoreValue(userId, score, quizId, now), None, now)
  }

  /** `data?.score || 0`: the stored score, or 0 when there is none. */
  function GetUserScore(s: Store, userId: string, now: int): (r: (int, Store))
    ensures ScoreKey(userId) !in s ==> r == (0, s)
    ensures ScoreKey(userId) in s && !Expired(s[ScoreKey(userId)], now) && s[ScoreKey(userId)].data.ScoreValue?
      ==> r == (s[ScoreKey(userId)].data.score, s)
    ensures ScoreKey(userId) in s && Expired(s[ScoreKey(userId)], now) ==> r == (0, s - {ScoreKey(userId)})
  {
    var (data, s1) := Get(s, ScoreKey(userId), now);
    var score := if data.ScoreValue? then data.score else 0;
    (score, s1)
  }

  /** `addUserPoints(userId, points)`: the new total, which is also stored. */
  function AddUserPoints(s: Store, userId: string, points: int, now: int): (r: (int, Store))
    ensures r.0 == GetUserScore(s, userId, now).0 + points
    ensures GetUserScore(r.1, userId, now).0 == r.0
  {
    var (current, s1) := GetUserScore(s, userId, now);
    var total := current + points;
    (total, SaveUserScore(s1, userId, total, None, now))
  }

  /** Points accumulate: two additions add up, starting from 0 for a new user. */
  lemma PointsAccumulate(s: Store, userId: string, p: int, q: int, now: int, later: int)
    requires ScoreKey(userId) !in s
    ensures var (first, s1) := AddUserPoints(s, userId, p, now);
      first == p && AddUserPoints(s1, userId, q, later).0 == p + q
  {
  }

  // ---------------------------------------------------------------------
  // the global leaderboard
  // ---------------------------------------------------------------------

  /** An element of the flat `ZRANGE ... WITHSCORES` reply. */
  datatype Scalar = Member(name: string) | ScoreOf(value: int)

  /** `{ userId, score, rank }`; `score` is missing for a trailing member
      without its score. */
  datatype Ranked = Ranked(userId: Scalar, score: Option<Scalar>, rank: nat)

  /** The flat list a ranking came from. */
  function Flatten(board: seq<Ranked>): seq<Scalar>
  {
    if |board| == 0 then []
    else [board[0].userId] + (if board[0].score.Some? then [board[0].score.value] else []) + Flatten(board[1..])
  }

  /** The pairing loop of `getLeaderboard`: elements 2j and 2j + 1 form
      entry j, ranked j + 1. */
  method PairLeaderboard(results: seq<Scalar>) returns (board: seq<Ranked>)
    ensures |board| == (|results| + 1) / 2
    ensures forall j :: 0 <= j < |board| ==> board[j].rank == j + 1 && board[j].userId == results[2 * j]
    ensures forall j :: 0 <= j < |board| ==>
      board[j].score == (if 2 * j + 1 < |results| then Some(results[2 * j + 1]) else None)
    ensures Flatten(board) == results
  {
    board := [];
    var i := 0;
    while i < |results|
      invariant 0 <= i <= |results| + 1 && i % 2 == 0
      invariant i > |results| ==> i == |results| + 1
      invariant |board| == i / 2
      invariant forall j :: 0 <= j < |board| ==> board[j].rank == j + 1 && board[j].userId == results[2 * j]
      invariant forall j :: 0 <= j < |board| ==>
        board[j].score == (if 2 * j + 1 < |results| then Some(results[2 * j + 1]) else None)
      invariant Flatten(board) == results[..if i <= |results| then i else |results|]
    {
      var score := if i + 1 < |results| then Some(results[i + 1]) else None;
      var entry := Ranked(results[i], score, i / 2 + 1);
      FlattenAppend(board, entry);
      board := board + [entry];
      if i + 1 < |results| {
        assert results[..i + 2] == results[..i] + [results[i], results[i + 1]];
      } else {
        assert results[..i + 1] == results[..i] + [results[i]];
      }
      i := i + 2;
    }
    assert results[..|results|] == results;
  }

  lemma {:induction false} FlattenAppend(board: seq<Ranked>, e: Ranked)
    ensures Flatten(board + [e]) == Flatten(board) + Flatten([e])
    decreases |board|
  {
    if |board| == 0 {
      assert board + [e] == [e];
    } else {
      FlattenAppend(board[1..], e);
      assert (board + [e])[1..] == board[1..] + [e];
    }
  }

  // ---------------------------------------------------------------------
  // listing and the newest quiz
  // ---------------------------------------------------------------------

  /** The first `n` elements (all of them when there are fewer). */
  function Take<T>(xs: seq<T>, n: nat): (r: seq<T>)
    ensures |r| <= n && |r| <= |xs| && r == xs[..|r|]
    ensures |r| == n || r == xs
  {
    if |xs| <= n then xs else xs[..n]
  }

  function ConcatKeys(pages: seq<seq<string>>): seq<string>
  {
    if |pages| == 0 then [] else pages[0] + ConcatKeys(pages[1..])
  }

  lemma {:induction false} ConcatKeysAppend(pages: seq<seq<string>>, page: seq<string>)
    ensures ConcatKeys(pages + [page]) == ConcatKeys(pages) + page
    decreases |pages|
  {
    if |pages| == 0 {
      assert pages + [page] == [page];
    } else {
      ConcatKeysAppend(pages[1..], page);
      assert (pages + [page])[1..] == pages[1..] + [page];
    }
  }

  /** A page cannot make a prefix that is already long enough change. */
  lemma TakeOfLonger(a: seq<string>, b: seq<string>, n: nat)
    requires |a| >= n
    ensures Take(a + b, n) == Take(a, n)
  {
    assert (a + b)[..n] == a[..n];
  }

  lemma {:induction false} TakeConcatKeysStable(pages: seq<seq<string>>, i: nat, n: nat)
    requires i <= |pages| && |ConcatKeys(pages[..i])| >= n
    ensures Take(ConcatKeys(pages), n) == Take(ConcatKeys(pages[..i]), n)
    decreases |pages| - i
  {
    if i < |pages| {
      ConcatKeysAppend(pages[..i], pages[i]);
      assert pages[..i + 1] == pages[..i] + [pages[i]];
      TakeOfLonger(ConcatKeys(pages[..i]), pages[i], n);
      TakeConcatKeysStable(pages, i + 1, n);
    } else {
      assert pages[..i] == pages;
    }
  }

  /** `listByPattern(pattern, limit)` over the key batches SCAN returns, in
      order: batches are gathered until `limit` keys are in hand or the scan
      ends, and then cut to `limit`. */
  method ListByPattern(pages: seq<seq<string>>, limit: nat) returns (keys: seq<string>)
    ensures |keys| <= limit
    ensures keys == Take(ConcatKeys(pages), limit)
  {
    var gathered: seq<string> := [];
    var i := 0;
    while i < |pages|
      invariant 0 <= i <= |pages|
      invariant gathered == ConcatKeys(pages[..i])
      invariant i > 0 ==> |ConcatKeys(pages[..i - 1])| < limit
      decreases |pages| - i
    {
      ConcatKeysAppend(pages[..i], pages[i]);
      assert pages[..i + 1] == pages[..i] + [pages[i]];
      gathered := gathered + pages[i];
      i := i + 1;
      if |gathered| >= limit {
        break;
      }
    }
    if |gathered| >= limit {
      TakeConcatKeysStable(pages, i, limit);
    } else {
      assert i == |pages|;
      assert pages[..i] == pages;
    }
    keys := Take(gathered, limit);
  }

  /** `key.replace("quiz:", "")` for keys the "quiz:*" scan returns. */
  /** `key.replace("quiz:", "")`: the first occurrence, wherever it is,
      is removed. */
  function QuizIdOf(key: string): (id: string)
    ensures |id| == |key| || |id| == |key| - 5
    decreases |key|
  {
    if StartsWith(key, "quiz:") then key[5..]
    else if |key| == 0 then key
    else [key[0]] + QuizIdOf(key[1..])
  }

  function QuizKey(quizId: string): string
  {
    "quiz:" + quizId
  }

  lemma QuizKeyRoundTrip(quizId: string)
    ensures QuizIdOf(QuizKey(quizId)) == quizId
  {
    assert QuizKey(quizId)[..5] == "quiz:";
    assert QuizKey(quizId)[5..] == quizId;
  }

  /** The quiz under a listed key is live and truthy. */
  predicate Listed(s: Store, key: string, now: int)
  {
    QuizKey(QuizIdOf(key)) in s && !Expired(s[QuizKey(QuizIdOf(key))], now) && s[QuizKey(QuizIdOf(key))].data.Truthy()
  }

  /** The values `getAllQuizzes` collects, read off the store as it was
      before the loop: the data of each listed key whose quiz is live and
      truthy, in key order (a key listed twice is read twice). */
  function LiveQuizzes(s: Store, keys: seq<string>, now: int): (r: seq<Value>)
    ensures |r| <= |keys|
    decreases |keys|
  {
    if |keys| == 0 then []
    else
      var last := keys[|keys| - 1];
      LiveQuizzes(s, keys[..|keys| - 1], now)
        + (if Listed(s, last, now) then [s[QuizKey(QuizIdOf(last))].data] else [])
  }

  /** `getAllQuizzes()`: the truthy values under the listed keys, in order;
      expired records met on the way are deleted and nothing else is. */
  method AllQuizzes(s: Store, keys: seq<string>, now: int) returns (quizzes: seq<Value>, s': Store)
    ensures quizzes == LiveQuizzes(s, keys, now)
    ensures forall q :: q in quizzes ==> q.Truthy()
    ensures forall k :: k in s' ==> k in s && s'[k] == s[k]
    ensures forall k :: k in s && !Expired(s[k], now) ==> k in s'
    ensures forall i :: 0 <= i < |keys| ==> Listed(s, keys[i], now) ==> s[QuizKey(QuizIdOf(keys[i]))].data in quizzes
  {
    quizzes := [];
    s' := s;
    var i := 0;
    while i < |keys|
      invariant 0 <= i <= |keys|
      invariant quizzes == LiveQuizzes(s, keys[..i], now)
      invariant forall q :: q in quizzes ==> q.Truthy()
      invariant forall k :: k in s' ==> k in s && s'[k] == s[k]
      invariant forall k :: k in s && !Expired(s[k], now) ==> k in s'
      invariant forall j :: 0 <= j < i ==> Listed(s, keys[j], now) ==> s[QuizKey(QuizIdOf(keys[j]))].data in quizzes
    {
      assert keys[..i + 1][..i] == keys[..i];
      var (quiz, s1) := Get(s', QuizKey(QuizIdOf(keys[i])), now);
      assert quiz.Truthy() <==> Listed(s, keys[i], now);
      s' := s1;
      if quiz.Truthy() {
        quizzes := quizzes + [quiz];
      }
      i := i + 1;
    }
    assert keys[..i] == keys;
  }

  /** `extractTimestampFromId(id)`: the second "_"-separated segment read
      by `parseInt`; 0 for an empty id, a missing segment or `NaN`. */
  function ExtractTimestampFromId(id: string): (t: int)
    ensures '_' !in id ==> t == 0
    ensures |Split(id, '_')| >= 2 && ParseInt(Split(id, '_')[1]).None? ==> t == 0
    ensures |Split(id, '_')| >= 2 && ParseInt(Split(id, '_')[1]).Some? ==> t == ParseInt(Split(id, '_')[1]).value
  {
    if id == "" then 0
    else
      var parts := Split(id, '_');
      SplitNoSepGivesOne(id);
      if |parts| >= 2 then
        match ParseInt(parts[1])
        case None => 0
        case Some(v) => v
      else 0
  }

  lemma SplitNoSepGivesOne(id: string)
    ensures '_' !in id ==> |Split(id, '_')| == 1
  {
    if '_' !in id {
      SplitNoSep(id, '_');
    }
  }

  /** Ids made by `generateId(prefix)` give back their creation time,
      provided the prefix has no underscore. */
  lemma TimestampOfGeneratedId(prefix: string, now: nat, suffix: string)
    requires '_' !in prefix
    ensures ExtractTimestampFromId(Ai.GenerateId(prefix, now, suffix)) == now
  {
    var digits := NatToString(now);
    var id := Ai.GenerateId(prefix, now, suffix);
    assert '_' !in digits by {
      forall i | 0 <= i < |digits| ensures digits[i] != '_' {
        assert IsDecimalDigit(digits[i]);
      }
    }
    assert id == prefix + ['_'] + (digits + ['_'] + suffix);
    SplitHead(prefix, '_', digits + ['_'] + suffix);
    SplitHead(digits, '_', suffix);
    ParseIntNatToString(now);
  }

  /** A listed value's timestamp: `a.id` of anything but a quiz is
      `undefined`, which reads as 0. */
  function TimestampOf(v: Value): int
  {
    if v.QuizValue? then ExtractTimestampFromId(v.quiz.id) else 0
  }

  /** The index a stable sort by decreasing key puts first: the earliest
      position holding the greatest key. */
  method FirstMaximum(ts: seq<int>) returns (best: nat)
    requires |ts| > 0
    ensures best < |ts|
    ensures forall j :: 0 <= j < |ts| ==> ts[j] <= ts[best]
    ensures forall j :: 0 <= j < best ==> ts[j] < ts[best]
  {
    best := 0;
    var i := 1;
    while i < |ts|
      invariant 1 <= i <= |ts| && best < i
      invariant forall j :: 0 <= j < i ==> ts[j] <= ts[best]
      invariant forall j :: 0 <= j < best ==> ts[j] < ts[best]
    {
      if ts[i] > ts[best] {
        best := i;
      }
      i := i + 1;
    }
  }

  function Timestamps(quizzes: seq<Value>): (ts: seq<int>)
    ensures |ts| == |quizzes|
    ensures forall i :: 0 <= i < |quizzes| ==> ts[i] == TimestampOf(quizzes[i])
  {
    if |quizzes| == 0 then [] else [TimestampOf(quizzes[0])] + Timestamps(quizzes[1..])
  }

  /** Position `i` holds a greatest timestamp and no earlier position does. */
  predicate FirstNewest(quizzes: seq<Value>, i: nat)
    requires i < |quizzes|
  {
    && (forall j :: 0 <= j < |quizzes| ==> TimestampOf(quizzes[j]) <= TimestampOf(quizzes[i]))
    && (forall j :: 0 <= j < i ==> TimestampOf(quizzes[j]) < TimestampOf(quizzes[i]))
  }

  /** `getNewestQuiz()` on the listed quizzes: the stable sort by decreasing
      timestamp puts first the EARLIEST listed quiz among those with the
      greatest timestamp. */
  method NewestQuiz(quizzes: seq<Value>) returns (newest: Option<Value>)
    ensures newest.None? <==> |quizzes| == 0
    ensures newest.Some? ==> exists i :: 0 <= i < |quizzes| && quizzes[i] == newest.value && FirstNewest(quizzes, i)
  {
    if |quizzes| == 0 {
      return None;
    }
    var ts := Timestamps(quizzes);
    var best := FirstMaximum(ts);
    newest := Some(quizzes[best]);
  }
}
