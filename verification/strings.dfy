/**
 The JavaScript string operations the bot relies on, written out over
 `seq<char>`: `split` and `join` on a one-character separator, `trim`,
 `trimEnd`, `startsWith`, `endsWith`, ASCII `toLowerCase`, number-to-string
 and the global `parseInt` with no radix argument.
 */
module Strings {
  import opened Wrappers

  // ---------------------------------------------------------------------
  // split / join
  // ---------------------------------------------------------------------

  /** `s.split(sep)` for a one-character separator: the maximal runs of
      non-separator characters, including the empty runs between two
      adjacent separators and at either end. */
  function Split(s: string, sep: char): (r: seq<string>)
    ensures |r| >= 1
    ensures forall i :: 0 <= i < |r| ==> sep !in r[i]
    decreases |s|
  {
    if |s| == 0 then [""]
    else if s[0] == sep then [""] + Split(s[1..], sep)
    else
      var rest := Split(s[1..], sep);
      [[s[0]] + rest[0]] + rest[1..]
  }

  /** `parts.join(sep)`; the empty array joins to the empty string. */
  function Join(parts: seq<string>, sep: string): string
  {
    if |parts| == 0 then ""
    else if |parts| == 1 then parts[0]
    else parts[0] + sep + Join(parts[1..], sep)
  }

  /** Splitting and joining back on the same character gives the input back. */
  lemma {:induction false} JoinSplit(s: string, sep: char)
    ensures Join(Split(s, sep), [sep]) == s
    decreases |s|
  {
    if |s| == 0 {
    } else if s[0] == sep {
      JoinSplit(s[1..], sep);
      assert s == [sep] + s[1..];
    } else {
      var rest := Split(s[1..], sep);
      JoinSplit(s[1..], sep);
      if |rest| == 1 {
        assert s == [s[0]] + s[1..];
      } else {
        calc {
          Join(Split(s, sep), [sep]);
          ([s[0]] + rest[0]) + [sep] + Join(rest[1..], [sep]);
          { assert Join(rest, [sep]) == rest[0] + [sep] + Join(rest[1..], [sep]); }
          [s[0]] + Join(rest, [sep]);
          [s[0]] + s[1..];
          s;
        }
      }
    }
  }

  /** Joining pieces that hold no separator and splitting again gives the pieces back. */
  lemma {:induction false} SplitJoin(parts: seq<string>, sep: char)
    requires |parts| >= 1
    requires forall i :: 0 <= i < |parts| ==> sep !in parts[i]
    ensures Split(Join(parts, [sep]), sep) == parts
    decreases |parts|
  {
    if |parts| == 1 {
      SplitNoSep(parts[0], sep);
    } else {
      SplitJoin(parts[1..], sep);
      SplitHead(parts[0], sep, Join(parts[1..], [sep]));
      assert [parts[0]] + parts[1..] == parts;
    }
  }

  /** The joined string starts with the first piece's first character and
      ends with the last piece's last character. */
  lemma {:induction false} JoinEdges(parts: seq<string>, sep: string)
    requires |parts| >= 1
    requires forall i :: 0 <= i < |parts| ==> |parts[i]| > 0
    ensures var j := Join(parts, sep);
      |j| > 0 && j[0] == parts[0][0]
      && j[|j| - 1] == parts[|parts| - 1][|parts[|parts| - 1]| - 1]
    decreases |parts|
  {
    if |parts| > 1 {
      JoinEdges(parts[1..], sep);
    }
  }

  /** A character found in no piece and not in the separator is not in the join. */
  lemma {:induction false} JoinAvoids(parts: seq<string>, sep: string, c: char)
    requires c !in sep
    requires forall i :: 0 <= i < |parts| ==> c !in parts[i]
    ensures c !in Join(parts, sep)
    decreases |parts|
  {
    if |parts| > 1 {
      JoinAvoids(parts[1..], sep, c);
    }
  }

  /** Two or more pieces are joined with at least one separator. */
  lemma JoinHasSeparator(parts: seq<string>, sep: char)
    requires |parts| >= 2
    ensures sep in Join(parts, [sep])
  {
    var j := Join(parts, [sep]);
    assert j[|parts[0]|] == sep;
  }

  /** Concatenation of a list of strings, in order. */
  function Concat(parts: seq<string>): string
  {
    if |parts| == 0 then "" else parts[0] + Concat(parts[1..])
  }

  /** The number of pieces is one more than the number of separators. */
  function Count(s: string, c: char): nat
  {
    if |s| == 0 then 0 else (if s[0] == c then 1 else 0) + Count(s[1..], c)
  }

  lemma {:induction false} SplitLength(s: string, sep: char)
    ensures |Split(s, sep)| == Count(s, sep) + 1
    decreases |s|
  {
    if |s| > 0 {
      SplitLength(s[1..], sep);
    }
  }

  /** Without the separator, split returns the whole string as its only piece. */
  lemma {:induction false} SplitNoSep(s: string, sep: char)
    requires sep !in s
    ensures Split(s, sep) == [s]
    decreases |s|
  {
    if |s| > 0 {
      assert s[0] != sep;
      assert sep !in s[1..];
      SplitNoSep(s[1..], sep);
      assert s == [s[0]] + s[1..];
    }
  }

  /** The first piece is the text before the first separator. */
  lemma {:induction false} SplitHead(a: string, sep: char, b: string)
    requires sep !in a
    ensures Split(a + [sep] + b, sep) == [a] + Split(b, sep)
    decreases |a|
  {
    if |a| == 0 {
      assert a + [sep] + b == [sep] + b;
      assert ([sep] + b)[1..] == b;
    } else {
      var s := a + [sep] + b;
      assert s[0] == a[0];
      assert s[1..] == a[1..] + [sep] + b;
      assert sep !in a[1..];
      SplitHead(a[1..], sep, b);
      assert [a[0]] + a[1..] == a;
    }
  }

  // ---------------------------------------------------------------------
  // whitespace and trimming
  // ---------------------------------------------------------------------

  /** ECMAScript WhiteSpace and LineTerminator code points: what `trim`,
      `trimEnd` and `parseInt` skip. */
  predicate IsSpace(c: char)
  {
    || c == ' ' || c == '\t' || c == '\n' || c == '\r'
    || c == '\U{000B}' || c == '\U{000C}' || c == '\U{00A0}' || c == '\U{1680}'
    || ('\U{2000}' <= c <= '\U{200A}')
    || c == '\U{2028}' || c == '\U{2029}' || c == '\U{202F}' || c == '\U{205F}'
    || c == '\U{3000}' || c == '\U{FEFF}'
  }

  /** `s.trimStart()`: drops leading whitespace. */
  function TrimStart(s: string): (r: string)
    ensures |r| <= |s| && r == s[|s| - |r|..]
    ensures |r| == 0 || !IsSpace(r[0])
    ensures forall i :: 0 <= i < |s| - |r| ==> IsSpace(s[i])
  {
    if |s| > 0 && IsSpace(s[0]) then TrimStart(s[1..]) else s
  }

  /** `s.trimEnd()`: drops trailing whitespace. */
  function TrimEnd(s: string): (r: string)
    ensures |r| <= |s| && r == s[..|r|]
    ensures |r| == 0 || !IsSpace(r[|r| - 1])
    ensures forall i :: |r| <= i < |s| ==> IsSpace(s[i])
  {
    if |s| > 0 && IsSpace(s[|s| - 1]) then TrimEnd(s[..|s| - 1]) else s
  }

  /** `s.trim()`: drops whitespace at both ends. */
  function Trim(s: string): (r: string)
  {
    TrimEnd(TrimStart(s))
  }

  /** What `trim` leaves is a slice of the input that neither starts nor
      ends with whitespace, and everything cut away is whitespace. */
  lemma TrimIsCore(s: string)
    ensures exists i, j :: 0 <= i <= j <= |s| && Trim(s) == s[i..j]
    ensures |Trim(s)| == 0 || (!IsSpace(Trim(s)[0]) && !IsSpace(Trim(s)[|Trim(s)| - 1]))
  {
    var t := TrimStart(s);
    var i := |s| - |t|;
    var r := TrimEnd(t);
    assert t == s[i..];
    assert r == t[..|r|];
    assert r == s[i..i + |r|];
    if |r| > 0 {
      assert r[0] == t[0];
      assert !IsSpace(r[0]);
    }
  }

  /** Trimming a string that is already trimmed changes nothing. */
  lemma TrimIdempotent(s: string)
    ensures Trim(Trim(s)) == Trim(s)
  {
    TrimIsCore(s);
    var t := Trim(s);
    if |t| > 0 {
      assert TrimStart(t) == t;
      assert TrimEnd(t) == t;
    }
  }

  /** `trim` yields the empty string exactly when the input is all whitespace. */
  lemma TrimEmptyIffBlank(s: string)
    ensures |Trim(s)| == 0 <==> forall i :: 0 <= i < |s| ==> IsSpace(s[i])
  {
    var t := TrimStart(s);
    if |t| > 0 {
      assert !IsSpace(t[0]);
    }
    assert (forall i :: 0 <= i < |s| ==> IsSpace(s[i])) ==> |t| == 0 by {
      if |t| > 0 {
        assert t[0] == s[|s| - |t|];
      }
    }
  }

  /** A string with no whitespace at either end is its own trim. */
  lemma TrimNoEdgeSpace(s: string)
    requires |s| > 0 && !IsSpace(s[0]) && !IsSpace(s[|s| - 1])
    ensures Trim(s) == s
  {
    assert TrimStart(s) == s;
  }

  // ---------------------------------------------------------------------
  // prefixes, suffixes, case
  // ---------------------------------------------------------------------

  predicate StartsWith(s: string, prefix: string)
  {
    |prefix| <= |s| && s[..|prefix|] == prefix
  }

  predicate EndsWith(s: string, suffix: string)
  {
    |suffix| <= |s| && s[|s| - |suffix|..] == suffix
  }

  predicate IsUpper(c: char)
  {
    'A' <= c <= 'Z'
  }

  /** `toLowerCase` restricted to the ASCII letters. */
  function LowerChar(c: char): (r: char)
    ensures !IsUpper(r)
  {
    if IsUpper(c) then (c as int + 32) as char else c
  }

  function ToLower(s: string): (r: string)
    ensures |r| == |s|
    ensures forall i :: 0 <= i < |s| ==> r[i] == LowerChar(s[i])
  {
    seq(|s|, i requires 0 <= i < |s| => LowerChar(s[i]))
  }

  predicate HasUpper(s: string)
  {
    exists i :: 0 <= i < |s| && IsUpper(s[i])
  }

  /** A lowered string never holds an upper-case letter. */
  lemma ToLowerHasNoUpper(s: string)
    ensures !HasUpper(ToLower(s))
  {
  }

  // ---------------------------------------------------------------------
  // numbers
  // ---------------------------------------------------------------------

  predicate IsDecimalDigit(c: char)
  {
    '0' <= c <= '9'
  }

  function DigitChar(d: nat): (c: char)
    requires d < 10
    ensures IsDecimalDigit(c) && c as int - '0' as int == d
  {
    ('0' as int + d) as char
  }

  /** `String(n)` for a non-negative integer: its decimal digits, no sign,
      no leading zero. */
  function NatToString(n: nat): (r: string)
    ensures |r| >= 1
    ensures forall i :: 0 <= i < |r| ==> IsDecimalDigit(r[i])
    ensures n > 0 ==> r[0] != '0'
  {
    if n < 10 then [DigitChar(n)] else NatToString(n / 10) + [DigitChar(n % 10)]
  }

  /** `String(i)` for any integer. */
  function IntToString(i: int): string
  {
    if i < 0 then "-" + NatToString(-i) else NatToString(i)
  }

  /** The value of a digit in base 16 (which covers base 10), if it is one. */
  function DigitValue(c: char, radix: nat): Option<nat>
  {
    var v: int :=
      if '0' <= c <= '9' then c as int - '0' as int
      else if 'a' <= c <= 'z' then c as int - 'a' as int + 10
      else if 'A' <= c <= 'Z' then c as int - 'A' as int + 10
      else radix;
    if 0 <= v < radix then Some(v) else None
  }

  /** The longest prefix of `s` made of digits of the given radix. */
  function DigitPrefix(s: string, radix: nat): (r: string)
    ensures |r| <= |s| && r == s[..|r|]
    ensures forall i :: 0 <= i < |r| ==> DigitValue(r[i], radix).Some?
    ensures |r| == |s| || DigitValue(s[|r|], radix).None?
  {
    if |s| == 0 || DigitValue(s[0], radix).None? then ""
    else [s[0]] + DigitPrefix(s[1..], radix)
  }

  /** The number a digit string denotes, most significant digit first. */
  function DigitsValue(s: string, radix: nat): nat
  {
    if |s| == 0 then 0
    else DigitsValue(s[..|s| - 1], radix) * radix + DigitValue(s[|s| - 1], radix).GetOr(0)
  }

  /** The magnitude `parseInt` reads once whitespace and sign are gone:
      hexadecimal after a `0x`/`0X` prefix, decimal otherwise, up to the first
      character that is not a digit; `None` when there is no digit. */
  function ParseMagnitude(u: string): (r: Option<nat>)
  {
    var hex := |u| >= 2 && u[0] == '0' && (u[1] == 'x' || u[1] == 'X');
    var radix: nat := if hex then 16 else 10;
    var digits := DigitPrefix(if hex then u[2..] else u, radix);
    if |digits| == 0 then None else Some(DigitsValue(digits, radix))
  }

  /** The global `parseInt(s)` with no radix: skip leading whitespace, take
      an optional sign, then read the magnitude; `None` stands for `NaN`. */
  function ParseInt(s: string): (r: Option<int>)
  {
    var t := TrimStart(s);
    var negative := |t| > 0 && t[0] == '-';
    var u := if |t| > 0 && (t[0] == '-' || t[0] == '+') then t[1..] else t;
    match ParseMagnitude(u)
    case None => None
    case Some(m) =>
      var v: int := if negative then -(m as int) else m;
      Some(v)
  }

  lemma {:induction false} DigitsValueOfNatToString(n: nat)
    ensures DigitsValue(NatToString(n), 10) == n
    decreases n
  {
    var s := NatToString(n);
    if n >= 10 {
      DigitsValueOfNatToString(n / 10);
      assert s[..|s| - 1] == NatToString(n / 10);
    }
  }

  lemma DigitPrefixAll(s: string, radix: nat)
    requires forall i :: 0 <= i < |s| ==> DigitValue(s[i], radix).Some?
    ensures DigitPrefix(s, radix) == s
  {
  }

  lemma ParseMagnitudeNatToString(n: nat)
    ensures ParseMagnitude(NatToString(n)) == Some(n)
  {
    var s := NatToString(n);
    assert |s| >= 2 ==> IsDecimalDigit(s[1]);
    forall i | 0 <= i < |s| ensures DigitValue(s[i], 10).Some? {
      assert IsDecimalDigit(s[i]);
    }
    DigitPrefixAll(s, 10);
    DigitsValueOfNatToString(n);
  }

  /** `parseInt` stops at the first character that is not a digit. */
  lemma {:induction false} DigitPrefixStops(d: string, rest: string, radix: nat)
    requires forall i :: 0 <= i < |d| ==> DigitValue(d[i], radix).Some?
    requires |rest| > 0 && DigitValue(rest[0], radix).None?
    ensures DigitPrefix(d + rest, radix) == d
    decreases |d|
  {
    if |d| == 0 {
      assert d + rest == rest;
    } else {
      assert (d + rest)[0] == d[0];
      assert (d + rest)[1..] == d[1..] + rest;
      DigitPrefixStops(d[1..], rest, radix);
    }
  }

  lemma {:induction false} ParseMagnitudeDigitsThen(n: nat, rest: string)
    requires |rest| > 0 && (rest[0] == ' ' || rest[0] == ')')
    ensures ParseMagnitude(NatToString(n) + rest) == Some(n)
  {
    var d := NatToString(n);
    var s := d + rest;
    assert s[0] == d[0];
    if |d| == 1 {
      assert s[1] == rest[0];
    } else {
      assert s[1] == d[1] && IsDecimalDigit(d[1]);
    }
    forall i | 0 <= i < |d| ensures DigitValue(d[i], 10).Some? {
      assert IsDecimalDigit(d[i]);
    }
    DigitValueOfDelimiter(rest[0]);
    DigitPrefixStops(d, rest, 10);
    DigitsValueOfNatToString(n);
  }

  lemma DigitValueOfDelimiter(c: char)
    requires c == ' ' || c == ')'
    ensures DigitValue(c, 10).None?
  {
  }

  /** `parseInt` of a number's digits followed by a space or a ")" reads the number. */
  lemma {:induction false} ParseIntDigitsThen(n: nat, rest: string)
    requires |rest| > 0 && (rest[0] == ' ' || rest[0] == ')')
    ensures ParseInt(NatToString(n) + rest) == Some(n)
  {
    var s := NatToString(n) + rest;
    LeadingDigit(NatToString(n), rest);
    ParseMagnitudeDigitsThen(n, rest);
    ParseIntOfDigits(s);
  }

  lemma LeadingDigit(d: string, rest: string)
    requires |d| > 0 && forall i :: 0 <= i < |d| ==> IsDecimalDigit(d[i])
    ensures IsDecimalDigit((d + rest)[0])
  {
    assert (d + rest)[0] == d[0];
  }

  /** Without leading whitespace or sign, `parseInt` is the magnitude. */
  lemma ParseIntOfDigits(s: string)
    requires |s| > 0 && IsDecimalDigit(s[0])
    ensures ParseInt(s) == ParseMagnitude(s)
  {
    assert !IsSpace(s[0]);
    assert TrimStart(s) == s;
  }

  /** `parseInt(String(n)) == n` for every non-negative integer. */
  lemma ParseIntNatToString(n: nat)
    ensures ParseInt(NatToString(n)) == Some(n)
  {
    var s := NatToString(n);
    assert IsDecimalDigit(s[0]);
    assert TrimStart(s) == s;
    ParseMagnitudeNatToString(n);
  }
}
