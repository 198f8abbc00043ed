/**
 * The string primitives the front end and the Python back end rely on, stated
 * for `seq<char>`: substring search (`includes`, `indexOf`, a regular
 * expression's leftmost scan), `split`, `join`, `trim`, `toLowerCase` and
 * `parseInt(s, 10)`.
 */
module Strings {
  import opened Wrappers

  /** `pat` occurs in `s` starting at index `i`. */
  predicate OccursAt(s: string, pat: string, i: nat) {
    i + |pat| <= |s| && s[i..i + |pat|] == pat
  }

  /** Leftmost occurrence of `pat` in `s` at or after `from` (JavaScript `s.indexOf(pat, from)`). */
  function FindFrom(s: string, pat: string, from: nat): (r: Option<nat>)
    decreases |s| - from
    ensures r.Some? ==> from <= r.value && OccursAt(s, pat, r.value)
    ensures forall j :: from <= j && (r.None? || j < r.value) ==> !OccursAt(s, pat, j)
  {
    if from + |pat| > |s| then None
    else if s[from..from + |pat|] == pat then Some(from)
    else FindFrom(s, pat, from + 1)
  }

  /** JavaScript `s.includes(pat)`. */
  function Contains(s: string, pat: string): (r: bool)
    ensures r <==> exists i :: OccursAt(s, pat, i)
  {
    var f := FindFrom(s, pat, 0);
    assert f.Some? ==> OccursAt(s, pat, f.value);
    f.Some?
  }

  /** A leftmost occurrence is what `FindFrom` reports. */
  lemma FindFromIs(s: string, pat: string, from: nat, k: nat)
    requires from <= k && OccursAt(s, pat, k)
    requires forall j :: from <= j < k ==> !OccursAt(s, pat, j)
    ensures FindFrom(s, pat, from) == Some(k)
  {
  }

  /** A string none of whose characters is `c` contains no `pat` starting with `c`. */
  lemma NoOccurrenceWithout(s: string, pat: string)
    requires |pat| > 0 && pat[0] !in s
    ensures FindFrom(s, pat, 0) == None
  {
    forall j | 0 <= j && j + |pat| <= |s|
      ensures !OccursAt(s, pat, j)
    {
      assert s[j..j + |pat|][0] == s[j];
    }
  }

  /**
   * JavaScript `s.split(sep)` for a non-empty separator: the pieces between
   * successive non-overlapping occurrences of `sep`, scanned left to right.
   */
  function Split(s: string, sep: string): (r: seq<string>)
    requires |sep| > 0
    decreases |s|
    ensures |r| >= 1
  {
    match FindFrom(s, sep, 0)
    case None => [s]
    case Some(k) => [s[..k]] + Split(s[k + |sep|..], sep)
  }

  /**
   * The first piece of a split is the longest prefix in which no occurrence of
   * `sep` starts; it is followed by the end of `s` or by an occurrence.
   */
  lemma SplitHead(s: string, sep: string)
    requires |sep| > 0
    ensures var h := Split(s, sep)[0];
      |h| <= |s| && h == s[..|h|]
      && (forall i :: 0 <= i < |h| ==> !OccursAt(s, sep, i))
      && (|h| == |s| || OccursAt(s, sep, |h|))
  {
    match FindFrom(s, sep, 0)
    case None =>
    case Some(k) =>
  }

  /** The second piece, when there is one, is the first piece of what follows the first occurrence. */
  lemma SplitSecond(s: string, sep: string)
    requires |sep| > 0 && FindFrom(s, sep, 0).Some?
    ensures |Split(s, sep)| > 1
    ensures Split(s, sep)[1] == Split(s[FindFrom(s, sep, 0).value + |sep|..], sep)[0]
  {
  }

  /** An occurrence of a one-character pattern is that character. */
  lemma OccursAtChar(s: string, c: char, i: nat)
    ensures OccursAt(s, [c], i) <==> i < |s| && s[i] == c
  {
    if i < |s| {
      assert s[i..i + 1] == [s[i]];
    }
  }

  /** The first piece of a split on one character is the longest prefix without that character. */
  lemma SplitCharHead(s: string, c: char)
    ensures var h := Split(s, [c])[0];
      |h| <= |s| && h == s[..|h|]
      && (forall i :: 0 <= i < |h| ==> s[i] != c)
      && (|h| == |s| || s[|h|] == c)
  {
    SplitHead(s, [c]);
    var h := Split(s, [c])[0];
    forall i | 0 <= i < |h|
      ensures s[i] != c
    {
      OccursAtChar(s, c, i);
    }
    OccursAtChar(s, c, |h|);
  }

  /** Python `sep.join(parts)` and JavaScript `parts.join(sep)`. */
  function Join(parts: seq<string>, sep: string): (r: string)
    decreases |parts|
  {
    if |parts| == 0 then ""
    else if |parts| == 1 then parts[0]
    else parts[0] + sep + Join(parts[1..], sep)
  }

  /** Joining the pieces of a split with the same separator gives back the text. */
  lemma {:induction false} JoinSplit(s: string, sep: string)
    requires |sep| > 0
    ensures Join(Split(s, sep), sep) == s
    decreases |s|
  {
    match FindFrom(s, sep, 0)
    case None =>
    case Some(k) =>
      var rest := s[k + |sep|..];
      var r := Split(rest, sep);
      JoinSplit(rest, sep);
      assert Split(s, sep) == [s[..k]] + r;
      assert ([s[..k]] + r)[1..] == r;
      assert s == s[..k] + sep + rest by {
        assert s[k..k + |sep|] == sep;
        assert s == s[..k] + s[k..k + |sep|] + s[k + |sep|..];
      }
  }

  /** Splitting a join gives back the parts, provided no part holds the separator's first character. */
  lemma {:induction false} SplitJoin(parts: seq<string>, sep: string)
    requires |parts| >= 1 && |sep| > 0
    requires forall i :: 0 <= i < |parts| ==> sep[0] !in parts[i]
    ensures Split(Join(parts, sep), sep) == parts
    decreases |parts|
  {
    if |parts| == 1 {
      NoOccurrenceWithout(parts[0], sep);
    } else {
      var p0, rest := parts[0], Join(parts[1..], sep);
      var s := p0 + sep + rest;
      assert Join(parts, sep) == s;
      assert OccursAt(s, sep, |p0|) by {
        assert s[|p0|..|p0| + |sep|] == sep;
      }
      forall j | 0 <= j < |p0|
        ensures !OccursAt(s, sep, j)
      {
        assert s[j] == p0[j];
        assert j + |sep| <= |s| ==> s[j..j + |sep|][0] == s[j];
      }
      FindFromIs(s, sep, 0, |p0|);
      assert s[..|p0|] == p0;
      assert s[|p0| + |sep|..] == rest;
      forall i | 0 <= i < |parts[1..]|
        ensures sep[0] !in parts[1..][i]
      {
        assert parts[1..][i] == parts[i + 1];
      }
      SplitJoin(parts[1..], sep);
    }
  }

  /** First index of `x` in `xs`, or -1 (JavaScript `Array.prototype.indexOf`). */
  function IndexOf(xs: seq<string>, x: string): (r: int)
    ensures -1 <= r < |xs|
    ensures r >= 0 ==> xs[r] == x && forall j :: 0 <= j < r ==> xs[j] != x
    ensures r == -1 ==> forall j :: 0 <= j < |xs| ==> xs[j] != x
  {
    if |xs| == 0 then -1
    else if xs[0] == x then 0
    else
      var r := IndexOf(xs[1..], x);
      if r == -1 then -1 else r + 1
  }

  /** The regular-expression class `[a-zA-Z0-9]`. */
  predicate IsAsciiAlnum(c: char) {
    ('a' <= c <= 'z') || ('A' <= c <= 'Z') || ('0' <= c <= '9')
  }

  predicate IsAlnumString(s: string) {
    forall i :: 0 <= i < |s| ==> IsAsciiAlnum(s[i])
  }

  /**
   * JavaScript's `length`: the number of UTF-16 code units, two for a
   * character outside the Basic Multilingual Plane.
   */
  function Utf16Length(s: string): (r: nat)
    ensures |s| <= r <= 2 * |s|
  {
    if |s| == 0 then 0 else (if s[0] as int > 0xFFFF then 2 else 1) + Utf16Length(s[1..])
  }

  /** For text inside the Basic Multilingual Plane, `length` counts characters. */
  lemma {:induction false} BmpUtf16Length(s: string)
    requires forall i :: 0 <= i < |s| ==> s[i] as int <= 0xFFFF
    ensures Utf16Length(s) == |s|
  {
    if |s| > 0 {
      assert forall i :: 0 <= i < |s[1..]| ==> s[1..][i] == s[i + 1];
      BmpUtf16Length(s[1..]);
    }
  }

  /** A `[a-zA-Z0-9]` string is as long in code units as in characters. */
  lemma AlnumUtf16Length(s: string)
    requires IsAlnumString(s)
    ensures Utf16Length(s) == |s|
  {
    assert forall i :: 0 <= i < |s| ==> IsAsciiAlnum(s[i]) && s[i] as int <= 0xFFFF;
    BmpUtf16Length(s);
  }

  /** A playlist identifier as the Spotify patterns describe it: `[a-zA-Z0-9]{22}`. */
  predicate IsPlaylistIdShape(s: string) {
    |s| == 22 && IsAlnumString(s)
  }

  /**
   * ECMAScript WhiteSpace and LineTerminator code points, the set that
   * `String.prototype.trim` and `parseInt` skip.
   */
  predicate IsJsSpace(c: char) {
    c == '\t' || c == '\n' || c == '\U{000B}' || c == '\U{000C}' || c == '\r' || c == ' '
    || c == '\U{00A0}' || c == '\U{1680}' || ('\U{2000}' <= c <= '\U{200A}')
    || c == '\U{2028}' || c == '\U{2029}' || c == '\U{202F}' || c == '\U{205F}'
    || c == '\U{3000}' || c == '\U{FEFF}'
  }

  function TrimStart(s: string): (r: string)
    ensures |r| <= |s| && r == s[|s| - |r|..]
    ensures r == [] || !IsJsSpace(r[0])
    ensures forall i :: 0 <= i < |s| - |r| ==> IsJsSpace(s[i])
  {
    if |s| > 0 && IsJsSpace(s[0]) then TrimStart(s[1..]) else s
  }

  function TrimEnd(s: string): (r: string)
    ensures |r| <= |s| && r == s[..|r|]
    ensures r == [] || !IsJsSpace(r[|r| - 1])
    ensures forall i :: |r| <= i < |s| ==> IsJsSpace(s[i])
  {
    if |s| > 0 && IsJsSpace(s[|s| - 1]) then TrimEnd(s[..|s| - 1]) else s
  }

  /** JavaScript `s.trim()`. */
  function Trim(s: string): (r: string)
    ensures r == "" <==> forall i :: 0 <= i < |s| ==> IsJsSpace(s[i])
    ensures r != "" ==> !IsJsSpace(r[0]) && !IsJsSpace(r[|r| - 1])
  {
    TrimAllSpace(s);
    TrimEnd(TrimStart(s))
  }

  lemma TrimAllSpace(s: string)
    ensures TrimEnd(TrimStart(s)) == "" <==> forall i :: 0 <= i < |s| ==> IsJsSpace(s[i])
  {
    var t := TrimStart(s);
    var r := TrimEnd(t);
    var d := |s| - |t|;
    if r == "" {
      assert t == "";
    } else {
      assert t[0] == r[0];
      assert s[d] == t[0];
    }
  }

  /**
   * `toLowerCase` on the Basic Latin and Latin-1 letters: `A`-`Z` and
   * U+00C0-U+00DE except U+00D7 move up by 0x20; every other character is kept.
   */
  function LowerChar(c: char): (r: char)
    ensures !('A' <= r <= 'Z') && !('\U{00C0}' <= r <= '\U{00DE}' && r != '\U{00D7}')
  {
    if 'A' <= c <= 'Z' || ('\U{00C0}' <= c <= '\U{00DE}' && c != '\U{00D7}') then
      (c as int + 0x20) as char
    else c
  }

  function Lower(s: string): (r: string)
    ensures |r| == |s| && forall i :: 0 <= i < |s| ==> r[i] == LowerChar(s[i])
  {
    seq(|s|, i requires 0 <= i < |s| => LowerChar(s[i]))
  }

  lemma LowerIdempotent(s: string)
    ensures Lower(Lower(s)) == Lower(s)
  {
  }

  predicate IsDigit(c: char) {
    '0' <= c <= '9'
  }

  function DigitValue(c: char): nat
    requires IsDigit(c)
  {
    c as int - '0' as int
  }

  function DigitChar(d: nat): (c: char)
    requires d < 10
    ensures IsDigit(c) && DigitValue(c) == d
  {
    ('0' as int + d) as char
  }

  /** The longest prefix of `s` made of decimal digits. */
  function DigitPrefix(s: string): (r: string)
    ensures |r| <= |s| && r == s[..|r|]
    ensures forall i :: 0 <= i < |r| ==> IsDigit(r[i])
    ensures |r| < |s| ==> !IsDigit(s[|r|])
  {
    if |s| > 0 && IsDigit(s[0]) then [s[0]] + DigitPrefix(s[1..]) else ""
  }

  /** The value of a run of decimal digits, most significant first. */
  function DigitsValue(ds: string): nat
    requires forall i :: 0 <= i < |ds| ==> IsDigit(ds[i])
  {
    if |ds| == 0 then 0 else DigitsValue(ds[..|ds| - 1]) * 10 + DigitValue(ds[|ds| - 1])
  }

  /**
   * JavaScript `parseInt(s, 10)`: skip leading white space, an optional sign,
   * then the longest run of digits; `None` is `NaN` (no digit at all).
   */
  function ParseInt(s: string): (r: Option<int>)
    ensures r.None? <==> DigitPrefix(DropSign(TrimStart(s))) == ""
  {
    var t := TrimStart(s);
    var negative := |t| > 0 && t[0] == '-';
    var ds := DigitPrefix(DropSign(t));
    if ds == "" then None
    else
      var v: int := DigitsValue(ds);
      Some(if negative then -v else v)
  }

  function DropSign(t: string): string {
    if |t| > 0 && (t[0] == '-' || t[0] == '+') then t[1..] else t
  }

  /** The decimal spelling of a natural number, as `String(n)` prints it. */
  function Decimal(n: nat): (r: string)
    ensures |r| > 0
    ensures forall i :: 0 <= i < |r| ==> IsDigit(r[i])
  {
    if n < 10 then [DigitChar(n)] else Decimal(n / 10) + [DigitChar(n % 10)]
  }

  lemma {:induction false} DecimalValue(n: nat)
    ensures DigitsValue(Decimal(n)) == n
  {
    if n >= 10 {
      var d := Decimal(n);
      assert d[..|d| - 1] == Decimal(n / 10);
      DecimalValue(n / 10);
    }
  }

  lemma DigitPrefixOfDigits(s: string)
    requires forall i :: 0 <= i < |s| ==> IsDigit(s[i])
    ensures DigitPrefix(s) == s
  {
    var r := DigitPrefix(s);
    if |r| < |s| {
      assert false;
    }
  }

  /** `parseInt(String(n), 10) == n`: reading back a printed timestamp. */
  lemma ParseDecimal(n: nat)
    ensures ParseInt(Decimal(n)) == Some(n)
  {
    var d := Decimal(n);
    assert !IsJsSpace(d[0]) && IsDigit(d[0]);
    assert TrimStart(d) == d;
    assert DropSign(d) == d;
    DigitPrefixOfDigits(d);
    DecimalValue(n);
  }
}
