/**
 * The JavaScript string operations the ingestion engine is built from:
 * `trim`, `toLowerCase`, `includes`, `startsWith`/`endsWith`, `split` on one
 * character, `join`, and `parseFloat` (as a decimal-prefix parser to a rational).
 */
module Text {
  import opened Options

  /** ECMAScript WhiteSpace and LineTerminator code points: what `trim()` strips and `\s` matches. */
  predicate IsSpace(c: char) {
    c == ' ' || c == '\t' || c == '\n' || c == '\r' || c == '\U{000B}' || c == '\U{000C}'
    || c == '\U{00A0}' || c == '\U{1680}' || ('\U{2000}' <= c <= '\U{200A}')
    || c == '\U{2028}' || c == '\U{2029}' || c == '\U{202F}' || c == '\U{205F}'
    || c == '\U{3000}' || c == '\U{FEFF}'
  }

  predicate IsDigit(c: char) { '0' <= c <= '9' }

  predicate AllSpace(s: string) { forall i :: 0 <= i < |s| ==> IsSpace(s[i]) }

  predicate NoSpace(s: string) { forall i :: 0 <= i < |s| ==> !IsSpace(s[i]) }

  predicate AllDigits(s: string) { forall i :: 0 <= i < |s| ==> IsDigit(s[i]) }

  /** The last position from `lo` up to `hi` whose element `p` holds of, or -1 when there is none. */
  function LastWhere<T>(s: seq<T>, lo: nat, hi: nat, p: T -> bool): (j: int)
    requires lo <= hi <= |s|
    ensures j == -1 || (lo <= j < hi && p(s[j]))
    ensures forall k :: lo <= k < hi && j < k ==> !p(s[k])
    decreases hi
  {
    if hi == lo then -1
    else if p(s[hi - 1]) then hi - 1
    else LastWhere(s, lo, hi - 1, p)
  }

  // ---------------------------------------------------------------- trim

  function TrimStart(s: string): (r: string)
    ensures |r| <= |s| && r == s[|s| - |r|..]
    ensures r != [] ==> !IsSpace(r[0])
    ensures forall i :: 0 <= i < |s| - |r| ==> IsSpace(s[i])
  {
    if s != [] && IsSpace(s[0]) then TrimStart(s[1..]) else s
  }

  function TrimEnd(s: string): (r: string)
    ensures |r| <= |s| && r == s[..|r|]
    ensures r != [] ==> !IsSpace(r[|r| - 1])
    ensures forall i :: |r| <= i < |s| ==> IsSpace(s[i])
  {
    if s != [] && IsSpace(s[|s| - 1]) then TrimEnd(s[..|s| - 1]) else s
  }

  /** `s.trim()`. */
  function Trim(s: string): (r: string)
    ensures |r| <= |s|
    ensures r != [] ==> !IsSpace(r[0]) && !IsSpace(r[|r| - 1])
  {
    TrimEnd(TrimStart(s))
  }

  lemma SliceOfSuffix(s: string, lo: nat, k: nat)
    requires lo + k <= |s|
    ensures s[lo..][..k] == s[lo..lo + k]
  {
  }

  lemma SuffixSpaces(s: string, lo: nat, k: nat)
    requires lo <= |s| && forall j :: k <= j < |s| - lo ==> IsSpace(s[lo..][j])
    ensures forall i :: lo + k <= i < |s| ==> IsSpace(s[i])
  {
    forall i | lo + k <= i < |s| ensures IsSpace(s[i]) {
      assert s[lo..][i - lo] == s[i];
    }
  }

  /** `trim()` removes exactly a whitespace prefix and a whitespace suffix. */
  lemma TrimIsSlice(s: string) returns (lo: nat, hi: nat)
    ensures lo <= hi <= |s| && Trim(s) == s[lo..hi]
    ensures forall i :: 0 <= i < lo ==> IsSpace(s[i])
    ensures forall i :: hi <= i < |s| ==> IsSpace(s[i])
  {
    var t := TrimStart(s);
    lo := |s| - |t|;
    var e := TrimEnd(t);
    hi := lo + |e|;
    SliceOfSuffix(s, lo, |e|);
    SuffixSpaces(s, lo, |e|);
  }

  /** Leading whitespace up to the first other character is what `trimStart` drops. */
  lemma {:induction false} TrimStartAt(s: string, a: nat)
    requires a < |s| && !IsSpace(s[a])
    requires forall i :: 0 <= i < a ==> IsSpace(s[i])
    ensures TrimStart(s) == s[a..]
  {
    if a > 0 {
      TrimStartAt(s[1..], a - 1);
      assert s[1..][a - 1..] == s[a..];
    }
  }

  /** Trailing whitespace after the last other character is what `trimEnd` drops. */
  lemma {:induction false} TrimEndAt(s: string, b: nat)
    requires 0 < b <= |s| && !IsSpace(s[b - 1])
    requires forall i :: b <= i < |s| ==> IsSpace(s[i])
    ensures TrimEnd(s) == s[..b]
  {
    if b < |s| {
      TrimEndAt(s[..|s| - 1], b);
      assert s[..|s| - 1][..b] == s[..b];
    }
  }

  lemma TrimOfNoSpace(s: string)
    requires s == [] || (!IsSpace(s[0]) && !IsSpace(s[|s| - 1]))
    ensures Trim(s) == s
  {
  }

  /** Trimming twice is trimming once. */
  lemma TrimIdempotent(s: string)
    ensures Trim(Trim(s)) == Trim(s)
  {
    TrimOfNoSpace(Trim(s));
  }

  /** `s.trim()` is empty exactly when every character of `s` is whitespace. */
  lemma TrimEmptyIff(s: string)
    ensures Trim(s) == [] <==> AllSpace(s)
  {
    var lo, hi := TrimIsSlice(s);
  }

  lemma TrimNoSpace(s: string)
    requires NoSpace(s)
    ensures Trim(s) == s
  {
  }

  // ---------------------------------------------------------------- case

  function LowerChar(c: char): char {
    if 'A' <= c <= 'Z' then (c as int + 32) as char else c
  }

  /** `s.toLowerCase()` on the ASCII letters. */
  function Lower(s: string): (r: string)
    ensures |r| == |s|
    ensures forall i :: 0 <= i < |s| ==> r[i] == LowerChar(s[i])
  {
    seq(|s|, i requires 0 <= i < |s| => LowerChar(s[i]))
  }

  lemma LowerIdempotent(s: string)
    ensures Lower(Lower(s)) == Lower(s)
  {
  }

  lemma LowerConcat(a: string, b: string)
    ensures Lower(a + b) == Lower(a) + Lower(b)
  {
  }

  lemma LowerKeepsSpace(s: string)
    ensures forall i :: 0 <= i < |s| ==> (IsSpace(Lower(s)[i]) <==> IsSpace(s[i]))
    ensures forall i :: 0 <= i < |s| ==> (IsDigit(Lower(s)[i]) <==> IsDigit(s[i]))
  {
  }

  // ---------------------------------------------------------------- search

  /** `s.includes(t)`. */
  predicate Contains(s: string, t: string) {
    exists i :: 0 <= i <= |s| - |t| && OccursAt(s, t, i)
  }

  /** `t` occurs in `s` starting at position `i`. */
  predicate OccursAt(s: string, t: string, i: int) {
    0 <= i <= |s| - |t| && s[i..i + |t|] == t
  }

  /** Some key of `keys` occurs in `s`: a chain of `includes` tests joined by `||`. */
  predicate ContainsAny(s: string, keys: seq<string>) {
    exists key :: key in keys && Contains(s, key)
  }

  /** A key longer than the text, or whose first character the text lacks, does not occur in it. */
  lemma NotContained(s: string, key: string)
    requires key != [] && (|key| > |s| || key[0] !in s)
    ensures !Contains(s, key)
  {
  }

  /** A key whose first two characters never stand next to each other in the text does not occur in it. */
  lemma NotContainedPair(s: string, key: string)
    requires |key| >= 2 && forall i :: 0 <= i < |s| - 1 ==> s[i] != key[0] || s[i + 1] != key[1]
    ensures !Contains(s, key)
  {
    forall i | 0 <= i <= |s| - |key| ensures !OccursAt(s, key, i) {
      assert s[i..i + |key|][0] == s[i] && s[i..i + |key|][1] == s[i + 1];
    }
  }

  predicate StartsWith(s: string, t: string) { |t| <= |s| && s[..|t|] == t }

  /** `s.endsWith(t)`. */
  predicate EndsWith(s: string, t: string) { |t| <= |s| && s[|s| - |t|..] == t }

  lemma ContainsAt(s: string, t: string, i: int)
    requires 0 <= i <= |s| - |t| && s[i..i + |t|] == t
    ensures Contains(s, t)
  {
    assert OccursAt(s, t, i);
  }

  /** A text that contains `t` keeps containing it when more text is put on either side. */
  lemma ContainsInside(a: string, t: string, b: string, u: string)
    requires Contains(u, t)
    ensures Contains(a + u + b, t)
  {
    var i :| 0 <= i <= |u| - |t| && OccursAt(u, t, i);
    assert (a + u + b)[|a| + i..|a| + i + |t|] == t;
    assert OccursAt(a + u + b, t, |a| + i);
  }

  /** Containment passes from a shorter key to any key that holds it. */
  lemma ContainsTrans(s: string, t: string, u: string)
    requires Contains(s, t) && Contains(t, u)
    ensures Contains(s, u)
  {
    var i :| 0 <= i <= |s| - |t| && OccursAt(s, t, i);
    var j :| 0 <= j <= |t| - |u| && OccursAt(t, u, j);
    assert t == s[i..i + |t|];
    forall k | 0 <= k < |u| ensures s[i + j + k] == u[k] {
      assert u[k] == t[j + k];
    }
    assert s[i + j..i + j + |u|] == u;
    assert OccursAt(s, u, i + j);
  }

  // ---------------------------------------------------------------- split / join

  function Count(s: string, c: char): nat {
    if s == [] then 0 else (if s[0] == c then 1 else 0) + Count(s[1..], c)
  }

  /** `s.split(sep)` for a one-character separator. */
  function SplitOn(s: string, sep: char): (parts: seq<string>)
    ensures |parts| >= 1
  {
    if s == [] then [""]
    else
      var rest := SplitOn(s[1..], sep);
      if s[0] == sep then [""] + rest else [[s[0]] + rest[0]] + rest[1..]
  }

  /** `parts.join(sep)`. */
  function Join(parts: seq<string>, sep: string): string {
    if parts == [] then "" else if |parts| == 1 then parts[0] else parts[0] + sep + Join(parts[1..], sep)
  }

  /** Splitting on `sep` gives one more part than there are separators. */
  lemma {:induction false} SplitOnCount(s: string, sep: char)
    ensures |SplitOn(s, sep)| == Count(s, sep) + 1
  {
    if s != [] { SplitOnCount(s[1..], sep); }
  }

  /** No part of a split holds the separator. */
  lemma {:induction false} SplitOnParts(s: string, sep: char)
    ensures forall k, j :: 0 <= k < |SplitOn(s, sep)| && 0 <= j < |SplitOn(s, sep)[k]| ==> SplitOn(s, sep)[k][j] != sep
  {
    if s != [] {
      SplitOnParts(s[1..], sep);
    }
  }

  /** Joining the parts back with the separator gives the original text. */
  lemma {:induction false} SplitOnJoin(s: string, sep: char)
    ensures Join(SplitOn(s, sep), [sep]) == s
  {
    if s != [] {
      var rest := SplitOn(s[1..], sep);
      SplitOnJoin(s[1..], sep);
      assert s == [s[0]] + s[1..];
      if s[0] == sep {
        assert SplitOn(s, sep) == [""] + rest;
        assert ([""] + rest)[1..] == rest;
      } else {
        JoinCons(s[0], rest, [sep]);
      }
    }
  }

  /** Prefixing a character to the first part prefixes it to the joined text. */
  lemma JoinCons(c: char, rest: seq<string>, sep: string)
    requires |rest| >= 1
    ensures Join([[c] + rest[0]] + rest[1..], sep) == [c] + Join(rest, sep)
  {
    var parts := [[c] + rest[0]] + rest[1..];
    assert parts[1..] == rest[1..];
    if |rest| > 1 {
      assert Join(parts, sep) == [c] + rest[0] + sep + Join(rest[1..], sep);
    }
  }

  /** Text without the separator splits into itself. */
  lemma {:induction false} SplitOnNoSep(a: string, sep: char)
    requires sep !in a
    ensures SplitOn(a, sep) == [a]
  {
    if a != [] {
      SplitOnNoSep(a[1..], sep);
      assert a == [a[0]] + a[1..];
    }
  }

  /** Text without the separator, then the separator: the first part is that text. */
  lemma {:induction false} SplitOnAfter(a: string, b: string, sep: char)
    requires sep !in a
    ensures SplitOn(a + [sep] + b, sep) == [a] + SplitOn(b, sep)
  {
    var s := a + [sep] + b;
    if a == [] {
      assert s == [sep] + b;
      assert s[1..] == b;
    } else {
      assert s[0] == a[0];
      assert s[1..] == a[1..] + [sep] + b;
      SplitOnAfter(a[1..], b, sep);
      assert a == [a[0]] + a[1..];
    }
  }

  /** Splitting parts joined by a separator none of them holds gives the parts back. */
  lemma {:induction false} JoinSplit(parts: seq<string>, sep: char)
    requires parts != []
    requires forall k :: 0 <= k < |parts| ==> sep !in parts[k]
    ensures SplitOn(Join(parts, [sep]), sep) == parts
  {
    if |parts| == 1 {
      SplitOnNoSep(parts[0], sep);
    } else {
      JoinSplit(parts[1..], sep);
      SplitOnAfter(parts[0], Join(parts[1..], [sep]), sep);
      assert parts == [parts[0]] + parts[1..];
    }
  }

  /** A character in no part and not in the separator is not in the join. */
  lemma {:induction false} JoinAvoids(parts: seq<string>, sep: string, c: char)
    requires c !in sep
    requires forall k :: 0 <= k < |parts| ==> c !in parts[k]
    ensures c !in Join(parts, sep)
  {
    if |parts| > 1 {
      JoinAvoids(parts[1..], sep, c);
      assert parts[0] in parts;
    }
  }

  /** `parts.map(p => p.trim())`. */
  function TrimAll(parts: seq<string>): (r: seq<string>)
    ensures |r| == |parts|
    ensures forall k :: 0 <= k < |parts| ==> r[k] == Trim(parts[k])
  {
    seq(|parts|, k requires 0 <= k < |parts| => Trim(parts[k]))
  }

  /** `s.filter(p)`. */
  function Filter<T>(s: seq<T>, p: T -> bool): (r: seq<T>)
    ensures |r| <= |s|
    ensures forall k :: 0 <= k < |r| ==> p(r[k])
  {
    if s == [] then [] else (if p(s[0]) then [s[0]] else []) + Filter(s[1..], p)
  }

  /** Filtering distributes over concatenation. */
  lemma {:induction false} FilterConcat<T>(a: seq<T>, b: seq<T>, p: T -> bool)
    ensures Filter(a + b, p) == Filter(a, p) + Filter(b, p)
  {
    if a == [] {
      assert a + b == b;
    } else {
      assert (a + b)[0] == a[0];
      assert (a + b)[1..] == a[1..] + b;
      FilterConcat(a[1..], b, p);
    }
  }

  /** An element is kept iff it is in the input and `p` holds of it. */
  lemma {:induction false} FilterMembers<T>(s: seq<T>, p: T -> bool, x: T)
    ensures x in Filter(s, p) <==> x in s && p(x)
  {
    if s != [] {
      FilterMembers(s[1..], p, x);
      assert s == [s[0]] + s[1..];
      assert x in s <==> x == s[0] || x in s[1..];
    }
  }

  predicate NotBlank(line: string) {
    Trim(line) != ""
  }

  /** `lines.filter(line => line.trim())`. */
  function NonBlank(lines: seq<string>): (r: seq<string>)
    ensures |r| <= |lines|
    ensures forall k :: 0 <= k < |r| ==> Trim(r[k]) != ""
  {
    var r := Filter(lines, NotBlank);
    assert forall k :: 0 <= k < |r| ==> NotBlank(r[k]);
    r
  }

  /** The lines of two texts kept one after the other are the lines kept from both, in order. */
  lemma NonBlankConcat(a: seq<string>, b: seq<string>)
    ensures NonBlank(a + b) == NonBlank(a) + NonBlank(b)
  {
    FilterConcat(a, b, NotBlank);
  }

  /** A line is kept iff it is one of the input lines and is not blank. */
  lemma NonBlankMembers(lines: seq<string>, l: string)
    ensures l in NonBlank(lines) <==> l in lines && Trim(l) != ""
  {
    FilterMembers(lines, NotBlank, l);
  }


  // ---------------------------------------------------------------- numbers

  function DigitChar(d: nat): char
    requires d < 10
  {
    ('0' as int + d) as char
  }

  /** The decimal text of `n`, as JavaScript writes a non-negative integer. */
  function NatStr(n: nat): (r: string)
    ensures |r| >= 1 && AllDigits(r)
  {
    if n < 10 then [DigitChar(n)] else NatStr(n / 10) + [DigitChar(n % 10)]
  }

  function Pow10(n: nat): (r: nat)
    ensures r >= 1
  {
    if n == 0 then 1 else 10 * Pow10(n - 1)
  }

  /** Length of the longest all-digit prefix. */
  function DigitRun(s: string): (n: nat)
    ensures n <= |s| && AllDigits(s[..n])
    ensures n < |s| ==> !IsDigit(s[n])
  {
    if s != [] && IsDigit(s[0]) then 1 + DigitRun(s[1..]) else 0
  }

  /** The value of a string of decimal digits. */
  function DigitsValue(s: string): nat
    requires AllDigits(s)
  {
    if s == [] then 0 else 10 * DigitsValue(s[..|s| - 1]) + (s[|s| - 1] as int - '0' as int)
  }

  /** The numeric text `parseFloat` reads: the digits before the point and after it. */
  datatype Decimal = Decimal(negative: bool, whole: string, fraction: string)

  /** What follows an optional sign in the trimmed text. */
  function Unsigned(s: string): string {
    var t := TrimStart(s);
    if |t| > 0 && (t[0] == '-' || t[0] == '+') then t[1..] else t
  }

  /** The digits of the longest decimal prefix `digits [. digits]` of `Unsigned(s)`. */
  function DecimalPrefix(s: string): (d: Decimal)
    ensures AllDigits(d.whole) && AllDigits(d.fraction)
  {
    var t := TrimStart(s);
    var neg := |t| > 0 && t[0] == '-';
    var u := Unsigned(s);
    var n := DigitRun(u);
    var rest := u[n..];
    var frac := if |rest| > 0 && rest[0] == '.' then rest[1..][..DigitRun(rest[1..])] else "";
    Decimal(neg, u[..n], frac)
  }

  /** The value of the digits after a decimal point. */
  function Fraction(f: string): real
    requires AllDigits(f)
  {
    DigitsValue(f) as real / Pow10(|f|) as real
  }

  function DecimalValue(d: Decimal): real
    requires AllDigits(d.whole) && AllDigits(d.fraction)
  {
    var mag := DigitsValue(d.whole) as real + Fraction(d.fraction);
    if d.negative then -mag else mag
  }

  /**
   * `parseFloat(s)`, with NaN as None: leading whitespace, an optional sign,
   * then the longest prefix of the form `digits [. digits]` that holds at least one digit.
   */
  function ParseFloat(s: string): Option<real> {
    var d := DecimalPrefix(s);
    if d.whole == "" && d.fraction == "" then None else Some(DecimalValue(d))
  }

  /** `parseFloat` yields a number exactly when a digit follows the sign, directly or after a point. */
  lemma ParseFloatDefined(s: string)
    ensures ParseFloat(s).Some? <==>
      (var u := Unsigned(s); (|u| > 0 && IsDigit(u[0])) || (|u| > 1 && u[0] == '.' && IsDigit(u[1])))
  {
  }

  /** `!isNaN(parseFloat(s)) && parseFloat(s) > 0`. */
  predicate ParsesPositive(s: string) {
    var v := ParseFloat(s); v.Some? && v.value > 0.0
  }

  lemma {:induction false} DigitsValueNonNeg(s: string)
    requires AllDigits(s)
    ensures DigitsValue(s) >= 0
  {
  }

  /** A number with a digit other than 0 in it is positive unless it carries a minus sign. */
  lemma {:induction false} DigitsValuePositive(s: string, i: nat)
    requires AllDigits(s) && i < |s| && s[i] != '0'
    ensures DigitsValue(s) > 0
  {
    if i < |s| - 1 {
      DigitsValuePositive(s[..|s| - 1], i);
    }
  }

  /** The text of a positive count parses to that count: `parseFloat(String(n)) == n`. */
  lemma {:induction false} NatStrValue(n: nat)
    ensures DigitsValue(NatStr(n)) == n
  {
    if n >= 10 {
      NatStrValue(n / 10);
      var s := NatStr(n);
      assert s[..|s| - 1] == NatStr(n / 10);
    }
  }

  /** A run of digits followed by a non-digit (or nothing) is exactly that long. */
  lemma {:induction false} DigitRunOf(w: string, rest: string)
    requires AllDigits(w) && (rest == [] || !IsDigit(rest[0]))
    ensures DigitRun(w + rest) == |w|
  {
    if w != [] {
      assert (w + rest)[0] == w[0] && (w + rest)[1..] == w[1..] + rest;
      DigitRunOf(w[1..], rest);
    }
  }

  /** Text that starts with a digit has no leading whitespace and no sign. */
  lemma UnsignedOfDigit(s: string)
    requires |s| > 0 && IsDigit(s[0])
    ensures TrimStart(s) == s && Unsigned(s) == s
  {
    assert !IsSpace(s[0]);
    assert TrimStart(s) == s;
  }

  /** The decimal prefix of digits followed by other text: the digits, then what a point introduces. */
  lemma DecimalPrefixOf(w: string, rest: string)
    requires |w| > 0 && AllDigits(w) && (rest == [] || !IsDigit(rest[0]))
    ensures DecimalPrefix(w + rest) ==
      Decimal(false, w, if |rest| > 0 && rest[0] == '.' then rest[1..][..DigitRun(rest[1..])] else "")
  {
    var s := w + rest;
    assert s[0] == w[0];
    UnsignedOfDigit(s);
    DigitRunOf(w, rest);
    assert s[..|w|] == w && s[|w|..] == rest;
  }

  /** What follows the point of `.digits`: all of the digits. */
  lemma PointTail(f: string)
    requires AllDigits(f)
    ensures ("." + f)[0] == '.' && ("." + f)[1..] == f && f[..DigitRun(f)] == f
  {
    assert f + [] == f;
    DigitRunOf(f, []);
  }

  /** The decimal prefix of `digits.digits` is all of it. */
  lemma DecimalOfPoint(w: string, f: string)
    requires |w| > 0 && AllDigits(w) && AllDigits(f)
    ensures DecimalPrefix(w + "." + f) == Decimal(false, w, f)
  {
    assert w + "." + f == w + ("." + f);
    PointTail(f);
    DecimalPrefixOf(w, "." + f);
  }

  /** `parseFloat` of `digits.digits` is the decimal those digits denote. */
  lemma ParseDecimal(w: string, f: string)
    requires |w| > 0 && AllDigits(w) && AllDigits(f)
    ensures ParseFloat(w + "." + f) == Some(DigitsValue(w) as real + Fraction(f))
  {
    DecimalOfPoint(w, f);
    ParseUnsigned(w + "." + f, w, f);
  }

  /** Once the decimal prefix of `s` is known to be unsigned with whole digits, `parseFloat(s)` is its value. */
  lemma ParseUnsigned(s: string, w: string, f: string)
    requires AllDigits(w) && AllDigits(f) && w != ""
    requires DecimalPrefix(s) == Decimal(false, w, f)
    ensures ParseFloat(s) == Some(DigitsValue(w) as real + Fraction(f))
  {
    ParseFloatOf(s, Decimal(false, w, f));
    PositiveValue(w, f);
  }

  /** `parseFloat(s)` is the value of the decimal prefix of `s` once that prefix holds whole digits. */
  lemma ParseFloatOf(s: string, d: Decimal)
    requires AllDigits(d.whole) && AllDigits(d.fraction) && d.whole != ""
    requires DecimalPrefix(s) == d
    ensures ParseFloat(s) == Some(DecimalValue(d))
  {
  }

  /** An unsigned decimal is worth its whole part plus its fraction. */
  lemma PositiveValue(w: string, f: string)
    requires AllDigits(w) && AllDigits(f)
    ensures DecimalValue(Decimal(false, w, f)) == DigitsValue(w) as real + Fraction(f)
  {
  }

  /** `parseFloat` of a string of digits is the number they denote. */
  lemma ParseDigits(w: string)
    requires |w| > 0 && AllDigits(w)
    ensures ParseFloat(w) == Some(DigitsValue(w) as real)
  {
    assert w + [] == w;
    DecimalPrefixOf(w, []);
    var d := Decimal(false, w, "");
    assert DecimalPrefix(w) == d;
    assert DecimalValue(d) == DigitsValue(w) as real by {
      assert DigitsValue("") == 0 && Pow10(0) == 1;
      assert Fraction("") == 0.0;
    }
    assert ParseFloat(w) == Some(DecimalValue(d));
  }
}
