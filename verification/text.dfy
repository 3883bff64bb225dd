/** The handful of JavaScript string operations the dashboard relies on:
    `toLowerCase`, `toUpperCase`, `includes`, `startsWith`, `trim`, `split`,
    `join` and `Number.prototype.toString`. Case mapping covers ASCII letters
    only. */
module Text {

  predicate IsUpper(c: char) { 'A' <= c <= 'Z' }

  predicate IsLower(c: char) { 'a' <= c <= 'z' }

  function LowerChar(c: char): char {
    if IsUpper(c) then (c as int + 32) as char else c
  }

  function UpperChar(c: char): char {
    if IsLower(c) then (c as int - 32) as char else c
  }

  /** `s.toLowerCase()`: every ASCII capital is replaced by its small letter,
      every other character is kept. */
  function Lower(s: string): (r: string)
    ensures |r| == |s|
    ensures forall i :: 0 <= i < |s| ==> r[i] == LowerChar(s[i])
    ensures forall i :: 0 <= i < |r| ==> !IsUpper(r[i])
    decreases |s|
  {
    if |s| == 0 then "" else [LowerChar(s[0])] + Lower(s[1..])
  }

  /** A string with no ASCII capital in it. */
  predicate IsLowered(s: string) {
    forall i :: 0 <= i < |s| ==> !IsUpper(s[i])
  }

  /** Lower-casing is idempotent, and it fixes exactly the strings that have no
      capital letter. */
  lemma LowerIdempotent(s: string)
    ensures Lower(Lower(s)) == Lower(s)
    ensures Lower(s) == s <==> IsLowered(s)
  {
    var l := Lower(s);
    assert forall i :: 0 <= i < |l| ==> Lower(l)[i] == l[i];
    if IsLowered(s) {
      assert forall i :: 0 <= i < |s| ==> l[i] == s[i];
    }
  }

  /** `s.startsWith(p)`. */
  predicate StartsWith(s: string, p: string) {
    |p| <= |s| && s[..|p|] == p
  }

  /** `s.includes(p)`: `p` occurs somewhere in `s`, found by trying every
      starting position from the left. */
  predicate Contains(s: string, p: string)
    decreases |s|
  {
    StartsWith(s, p) || (|s| > 0 && Contains(s[1..], p))
  }

  /** The position-based reading of `includes`. */
  predicate OccursAt(s: string, p: string, i: int) {
    0 <= i && i + |p| <= |s| && s[i..i + |p|] == p
  }

  /** `Contains` holds exactly when `p` occurs at some index of `s`. */
  lemma {:induction false} ContainsIffOccurs(s: string, p: string)
    ensures Contains(s, p) <==> exists i :: OccursAt(s, p, i)
    decreases |s|
  {
    if StartsWith(s, p) {
      assert OccursAt(s, p, 0);
    } else if |s| > 0 {
      ContainsIffOccurs(s[1..], p);
      if exists i :: OccursAt(s[1..], p, i) {
        var i :| OccursAt(s[1..], p, i);
        assert s[i + 1..i + 1 + |p|] == s[1..][i..i + |p|];
        assert OccursAt(s, p, i + 1);
      }
      if exists i :: OccursAt(s, p, i) {
        var i :| OccursAt(s, p, i);
        assert s[1..][i - 1..i - 1 + |p|] == s[i..i + |p|];
        assert OccursAt(s[1..], p, i - 1);
      }
    }
  }

  /** The empty string is contained in every string. */
  lemma ContainsEmpty(s: string)
    ensures Contains(s, "")
  {
    assert s[..0] == "";
  }

  /** A string cannot contain a pattern that has a character it lacks. */
  lemma {:induction false} NotContainsMissingChar(s: string, p: string, c: char)
    requires c in p && c !in s
    ensures !Contains(s, p)
    decreases |s|
  {
    if |s| > 0 {
      assert forall x :: x in s[1..] ==> x in s;
      NotContainsMissingChar(s[1..], p, c);
    }
  }

  /** `s` has the small letter `c` in neither case. */
  predicate LacksLetter(s: string, c: char) {
    c !in s && UpperChar(c) !in s
  }

  /** A string without `c` or its capital has no `c` once lower-cased. */
  lemma LowerLacks(s: string, c: char)
    requires IsLower(c) && LacksLetter(s, c)
    ensures c !in Lower(s)
  {
    var l := Lower(s);
    forall i | 0 <= i < |l|
      ensures l[i] != c
    {
      assert l[i] == LowerChar(s[i]);
      assert s[i] != c && s[i] != UpperChar(c);
      assert UpperChar(c) as int == c as int - 32;
      if IsUpper(s[i]) {
        assert s[i] as int + 32 != c as int;
      }
    }
  }

  /** The lower-cased `s` does not contain `p` when `p` has a small letter `c`
      that `s` has in neither case. */
  lemma LowerNotContains(s: string, p: string, c: char)
    requires IsLower(c) && c in p && LacksLetter(s, c)
    ensures !Contains(Lower(s), p)
  {
    LowerLacks(s, c);
    NotContainsMissingChar(Lower(s), p, c);
  }

  /** Lower-casing keeps every occurrence: if `s` contains `p`, the lower-cased
      `s` contains the lower-cased `p`. */
  lemma LowerKeepsContains(s: string, p: string)
    requires Contains(s, p)
    ensures Contains(Lower(s), Lower(p))
  {
    ContainsIffOccurs(s, p);
    var i :| OccursAt(s, p, i);
    var l := Lower(s);
    assert l[i..i + |p|] == Lower(p) by {
      forall j | 0 <= j < |p|
        ensures l[i..i + |p|][j] == Lower(p)[j]
      {
        assert s[i + j] == s[i..i + |p|][j];
      }
    }
    assert OccursAt(l, Lower(p), i);
    ContainsIffOccurs(l, Lower(p));
  }

  /** `keywords.some(k => s.includes(k))`, scanning the keywords in order. */
  predicate ContainsAny(s: string, keywords: seq<string>)
    decreases |keywords|
  {
    |keywords| > 0 && (Contains(s, keywords[0]) || ContainsAny(s, keywords[1..]))
  }

  /** `ContainsAny` holds exactly when one of the keywords occurs. */
  lemma {:induction false} ContainsAnyIff(s: string, keywords: seq<string>)
    ensures ContainsAny(s, keywords) <==> exists i :: 0 <= i < |keywords| && Contains(s, keywords[i])
    decreases |keywords|
  {
    if |keywords| > 0 {
      ContainsAnyIff(s, keywords[1..]);
      if exists i :: 0 <= i < |keywords| && Contains(s, keywords[i]) {
        var i :| 0 <= i < |keywords| && Contains(s, keywords[i]);
        if i > 0 {
          assert keywords[1..][i - 1] == keywords[i];
        }
      }
      if exists i :: 0 <= i < |keywords[1..]| && Contains(s, keywords[1..][i]) {
        var i :| 0 <= i < |keywords[1..]| && Contains(s, keywords[1..][i]);
        assert keywords[i + 1] == keywords[1..][i];
      }
    }
  }

  /** Whitespace and line terminators as removed by `String.prototype.trim`
      (ECMAScript's WhiteSpace and LineTerminator code points). */
  predicate IsWhitespace(c: char) {
    || c == ' ' || c == '\t' || c == '\n' || c == '\r' || c == '\U{000B}' || c == '\U{000C}'
    || c == '\U{00A0}' || c == '\U{1680}' || ('\U{2000}' <= c <= '\U{200A}')
    || c == '\U{2028}' || c == '\U{2029}' || c == '\U{202F}' || c == '\U{205F}'
    || c == '\U{3000}' || c == '\U{FEFF}'
  }

  /** `s.trimStart()`. */
  function TrimStart(s: string): (r: string)
    ensures |r| <= |s| && r == s[|s| - |r|..]
    ensures |r| > 0 ==> !IsWhitespace(r[0])
    decreases |s|
  {
    if |s| > 0 && IsWhitespace(s[0]) then TrimStart(s[1..]) else s
  }

  /** `s.trimEnd()`. */
  function TrimEnd(s: string): (r: string)
    ensures |r| <= |s| && r == s[..|r|]
    ensures |r| > 0 ==> !IsWhitespace(r[|r| - 1])
    decreases |s|
  {
    if |s| > 0 && IsWhitespace(s[|s| - 1]) then TrimEnd(s[..|s| - 1]) else s
  }

  /** `s.trim()`. */
  function Trim(s: string): string {
    TrimEnd(TrimStart(s))
  }

  /** Every character is whitespace. */
  predicate IsBlank(s: string) {
    forall i :: 0 <= i < |s| ==> IsWhitespace(s[i])
  }

  /** `s.trim() === ''` holds exactly for the blank strings. */
  lemma {:induction false} TrimEmptyIffBlank(s: string)
    ensures Trim(s) == "" <==> IsBlank(s)
    decreases |s|
  {
    if |s| > 0 && IsWhitespace(s[0]) {
      TrimEmptyIffBlank(s[1..]);
      assert Trim(s) == Trim(s[1..]);
      if IsBlank(s[1..]) {
        assert forall i :: 1 <= i < |s| ==> s[i] == s[1..][i - 1];
      } else {
        var j :| 0 <= j < |s[1..]| && !IsWhitespace(s[1..][j]);
        assert !IsWhitespace(s[j + 1]);
      }
    } else if |s| > 0 {
      var t := TrimStart(s);
      assert t == s;
      assert |TrimEnd(t)| > 0 by {
        if |TrimEnd(t)| == 0 { TrimEndKeepsNonBlankPrefix(t); }
      }
    }
  }

  /** Trimming the end of a string that starts with a non-space leaves that
      character in place. */
  lemma {:induction false} TrimEndKeepsNonBlankPrefix(s: string)
    requires |s| > 0 && !IsWhitespace(s[0])
    ensures |TrimEnd(s)| > 0
    decreases |s|
  {
    if IsWhitespace(s[|s| - 1]) {
      assert |s| > 1;
      TrimEndKeepsNonBlankPrefix(s[..|s| - 1]);
    }
  }

  /** `s.split(sep)` for a one-character separator: the maximal pieces between
      separators, in order, always at least one piece. */
  function Split(s: string, sep: char): (r: seq<string>)
    ensures |r| >= 1
    ensures forall i, j :: 0 <= i < |r| && 0 <= j < |r[i]| ==> r[i][j] != sep
    decreases |s|
  {
    if |s| == 0 then [""]
    else
      var rest := Split(s[1..], sep);
      if s[0] == sep then [""] + rest
      else [[s[0]] + rest[0]] + rest[1..]
  }

  /** `parts.join(sep)`. */
  function Join(parts: seq<string>, sep: char): string
    decreases |parts|
  {
    if |parts| == 0 then ""
    else if |parts| == 1 then parts[0]
    else parts[0] + [sep] + Join(parts[1..], sep)
  }

  /** Joining the pieces of a split gives back the original string. */
  lemma {:induction false} JoinSplit(s: string, sep: char)
    ensures Join(Split(s, sep), sep) == s
    decreases |s|
  {
    if |s| > 0 {
      var rest := Split(s[1..], sep);
      JoinSplit(s[1..], sep);
      if s[0] == sep {
        assert Split(s, sep) == [""] + rest;
        assert ([""] + rest)[1..] == rest;
        assert s == [sep] + s[1..];
      } else {
        var parts := [[s[0]] + rest[0]] + rest[1..];
        assert Split(s, sep) == parts;
        if |rest| == 1 {
          assert Join(rest, sep) == rest[0];
        } else {
          assert parts[1..] == rest[1..];
          assert Join(rest, sep) == rest[0] + [sep] + Join(rest[1..], sep);
        }
        assert s == [s[0]] + s[1..];
      }
    }
  }

  /** The first piece of a split is the text before the first separator, or the
      whole string when there is none. */
  lemma {:induction false} SplitHead(s: string, sep: char)
    ensures sep !in s ==> Split(s, sep) == [s]
    ensures sep in s ==> |Split(s, sep)| >= 2
    ensures sep in s ==> exists k :: 0 <= k < |s| && s[k] == sep && Split(s, sep)[0] == s[..k]
                           && sep !in s[..k]
    decreases |s|
  {
    if |s| > 0 {
      SplitHead(s[1..], sep);
      var rest := Split(s[1..], sep);
      if s[0] == sep {
        assert s[..0] == "";
      } else {
        assert forall x :: x in s ==> x == s[0] || x in s[1..];
        if sep in s {
          assert sep in s[1..];
          var k :| 0 <= k < |s[1..]| && s[1..][k] == sep && rest[0] == s[1..][..k] && sep !in s[1..][..k];
          assert s[..k + 1] == [s[0]] + s[1..][..k];
          assert s[k + 1] == sep;
        } else {
          assert rest == [s[1..]];
          assert s == [s[0]] + s[1..];
        }
      }
    }
  }

  function DigitChar(d: int): char
    requires 0 <= d < 10
  {
    ('0' as int + d) as char
  }

  predicate IsDigit(c: char) { '0' <= c <= '9' }

  /** Decimal digits of a natural number, most significant first, without
      leading zeros (`n.toString()` for a non-negative integer). */
  function NatToString(n: nat): (r: string)
    ensures |r| >= 1
    ensures forall i :: 0 <= i < |r| ==> IsDigit(r[i])
    decreases n
  {
    if n < 10 then [DigitChar(n)] else NatToString(n / 10) + [DigitChar(n % 10)]
  }

  /** `n.toString()` for an integer: a minus sign for negative values. */
  function IntToString(n: int): string {
    if n < 0 then "-" + NatToString(-n) else NatToString(n)
  }

  /** The number denoted by a string of decimal digits. */
  function DigitsValue(s: string): int
    requires forall i :: 0 <= i < |s| ==> IsDigit(s[i])
    decreases |s|
  {
    if |s| == 0 then 0 else DigitsValue(s[..|s| - 1]) * 10 + (s[|s| - 1] as int - '0' as int)
  }

  /** Reading back the decimal text of `n` gives `n`. */
  lemma {:induction false} NatToStringRoundTrip(n: nat)
    ensures DigitsValue(NatToString(n)) == n
    decreases n
  {
    if n >= 10 {
      NatToStringRoundTrip(n / 10);
      var s := NatToString(n);
      assert s[..|s| - 1] == NatToString(n / 10);
    }
  }
}
