/**
 * The regular expressions of the blocking-chart parsers, written out as predicates
 * (src/utils/blockingChartParser.ts:70, :76, :83 and :282; the file-upload copy
 * repeats the first three).
 */
module Patterns {
  import opened Text

  /** `/^\s*\d+\s*$/`: the whole text is one run of digits, padded with whitespace. */
  predicate IsNumberLine(s: string) {
    var t := Trim(s); t != [] && AllDigits(t)
  }

  /** The regex, read literally: whitespace, at least one digit, whitespace, and nothing else. */
  ghost predicate NumberLineShape(s: string) {
    exists lo, hi :: 0 <= lo < hi <= |s| && AllSpace(s[..lo]) && AllDigits(s[lo..hi]) && AllSpace(s[hi..])
  }

  lemma NumberLineIff(s: string)
    ensures IsNumberLine(s) <==> NumberLineShape(s)
  {
    if IsNumberLine(s) {
      var lo, hi := TrimIsSlice(s);
      assert AllSpace(s[..lo]) && AllDigits(s[lo..hi]) && AllSpace(s[hi..]);
    }
    if NumberLineShape(s) {
      var a, b :| 0 <= a < b <= |s| && AllSpace(s[..a]) && AllDigits(s[a..b]) && AllSpace(s[b..]);
      ShapeIsNumberLine(s, a, b);
    }
  }

  lemma ShapeStart(s: string, a: nat, b: nat)
    requires a < b <= |s| && AllSpace(s[..a]) && AllDigits(s[a..b])
    ensures TrimStart(s) == s[a..]
  {
    assert s[a..b][0] == s[a];
    forall i | 0 <= i < a ensures IsSpace(s[i]) { assert s[i] == s[..a][i]; }
    TrimStartAt(s, a);
  }

  lemma ShapeEnd(s: string, a: nat, b: nat)
    requires a < b <= |s| && AllDigits(s[a..b]) && AllSpace(s[b..])
    ensures TrimEnd(s[a..]) == s[a..b]
  {
    var u := s[a..];
    assert u[b - a - 1] == s[a..b][b - 1 - a];
    forall i | b - a <= i < |u| ensures IsSpace(u[i]) { assert u[i] == s[b..][i - (b - a)]; }
    TrimEndAt(u, b - a);
    assert u[..b - a] == s[a..b];
  }

  lemma ShapeIsNumberLine(s: string, a: nat, b: nat)
    requires a < b <= |s| && AllSpace(s[..a]) && AllDigits(s[a..b]) && AllSpace(s[b..])
    ensures Trim(s) == s[a..b]
  {
    ShapeStart(s, a, b);
    ShapeEnd(s, a, b);
  }

  /** The five bare channel-separator words of `/^\s*(digital|paid|social|video|display)\s*$/`. */
  const ChannelWords: seq<string> := ["digital", "paid", "social", "video", "display"]

  predicate IsChannelWordLine(s: string) {
    Trim(s) in ChannelWords
  }

  /** `\w` */
  predicate IsWordChar(c: char) {
    ('a' <= c <= 'z') || ('A' <= c <= 'Z') || IsDigit(c) || c == '_'
  }

  /** Length of the longest all-whitespace prefix. */
  function SpaceRun(s: string): (n: nat)
    ensures n <= |s| && AllSpace(s[..n])
    ensures n < |s| ==> !IsSpace(s[n])
  {
    if s != [] && IsSpace(s[0]) then 1 + SpaceRun(s[1..]) else 0
  }

  /**
   * `/\b\d{1,2}\s+\d{1,2}\s+\d{1,2}/` matches at position `i`. A match needs a word
   * boundary before `i`; the first and second digit runs are followed by whitespace,
   * so each must be exactly one or two digits long, while the third only needs to
   * start with a digit (the pattern has no boundary after it).
   */
  predicate CalendarAt(s: string, i: nat)
    requires i <= |s|
  {
    (i == 0 || !IsWordChar(s[i - 1]))
    && var d1 := DigitRun(s[i..]);
    1 <= d1 <= 2
    && var j := i + d1;
    var w1 := SpaceRun(s[j..]);
    w1 >= 1
    && var k := j + w1;
    var d2 := DigitRun(s[k..]);
    1 <= d2 <= 2
    && var l := k + d2;
    var w2 := SpaceRun(s[l..]);
    w2 >= 1
    && DigitRun(s[l + w2..]) >= 1
  }

  /** `s.match(/\b\d{1,2}\s+\d{1,2}\s+\d{1,2}/)` is non-null. */
  predicate HasCalendarRun(s: string) {
    exists i :: 0 <= i < |s| && CalendarAt(s, i)
  }

  /** A digit followed by a non-digit is a digit run of one. */
  lemma OneDigit(s: string)
    requires |s| >= 2 && IsDigit(s[0]) && !IsDigit(s[1])
    ensures DigitRun(s) == 1
  {
    assert s[1..][0] == s[1];
  }

  /** A space followed by a non-space is a space run of one. */
  lemma OneSpace(s: string)
    requires |s| >= 2 && s[0] == ' ' && !IsSpace(s[1])
    ensures SpaceRun(s) == 1
  {
    assert s[1..][0] == s[1];
  }

  /**
   * A flight-calendar strip of day numbers, such as "1 2 3" or "4 5 6 7", is caught by the
   * calendar pattern: three single digits separated by single spaces, whatever follows them.
   */
  lemma CalendarStrip(a: char, b: char, c: char, rest: string)
    requires IsDigit(a) && IsDigit(b) && IsDigit(c)
    ensures HasCalendarRun([a, ' ', b, ' ', c] + rest)
  {
    var s := [a, ' ', b, ' ', c] + rest;
    assert s[0..] == s;
    OneDigit(s);
    assert s[1..][0] == ' ' && s[1..][1] == b;
    OneSpace(s[1..]);
    assert s[2..][0] == b && s[2..][1] == ' ';
    OneDigit(s[2..]);
    assert s[3..][0] == ' ' && s[3..][1] == c;
    OneSpace(s[3..]);
    assert s[4..][0] == c;
    assert DigitRun(s[4..]) >= 1;
    assert CalendarAt(s, 0);
  }

  predicate IsDigitOrComma(c: char) { IsDigit(c) || c == ',' }

  function DigitCommaRun(s: string): (n: nat)
    ensures n <= |s| && forall i :: 0 <= i < n ==> IsDigitOrComma(s[i])
    ensures n < |s| ==> !IsDigitOrComma(s[n])
  {
    if s != [] && IsDigitOrComma(s[0]) then 1 + DigitCommaRun(s[1..]) else 0
  }

  /**
   * `/^\$?[\d,]+\.?\d*$/`: an optional `$`, digits and commas, then either nothing
   * or a point followed by digits (digits after no point are part of `[\d,]+`).
   */
  predicate IsMoney(s: string) {
    var t := if |s| > 0 && s[0] == '$' then s[1..] else s;
    var n := DigitCommaRun(t);
    n >= 1 && (n == |t| || (t[n] == '.' && AllDigits(t[n + 1..])))
  }

  /** Money-looking text has no whitespace in it. */
  lemma MoneyHasNoSpace(s: string)
    requires IsMoney(s)
    ensures NoSpace(s)
  {
    var t := if |s| > 0 && s[0] == '$' then s[1..] else s;
    var n := DigitCommaRun(t);
    forall i | 0 <= i < |s| ensures !IsSpace(s[i]) {
      var off := if |s| > 0 && s[0] == '$' then 1 else 0;
      if i >= off {
        var k := i - off;
        assert s[i] == t[k];
        if k > n { assert t[k] == t[n + 1..][k - n - 1]; }
      }
    }
  }
}
