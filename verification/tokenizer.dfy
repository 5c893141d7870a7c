/**
 * `splitTabSeparatedLine` of the paste path (src/utils/blockingChartParser.ts:263-301):
 * split on tabs, else on runs of two or more whitespace characters, else on single
 * whitespace with consecutive words grouped into one field.
 */
module Tokenizer {
  import opened Text
  import opened Patterns

  /**
   * `s.split(/\s{n,}/)` for n = `minRun` >= 1: every maximal whitespace run of at least
   * `minRun` characters separates two fields; shorter runs stay inside a field.
   */
  function SplitWs(s: string, minRun: nat): seq<string>
    requires minRun >= 1
  {
    SplitWsFrom(s, minRun, "", "")
  }

  /** The scan behind `SplitWs`: `cur` is the field so far, `ws` the whitespace run after it. */
  function SplitWsFrom(s: string, minRun: nat, cur: string, ws: string): (parts: seq<string>)
    requires minRun >= 1
    ensures |parts| >= 1
  {
    if s == [] then (if |ws| >= minRun then [cur, ""] else [cur + ws])
    else if IsSpace(s[0]) then SplitWsFrom(s[1..], minRun, cur, ws + [s[0]])
    else if |ws| >= minRun then [cur] + SplitWsFrom(s[1..], minRun, [s[0]], "")
    else SplitWsFrom(s[1..], minRun, cur + ws + [s[0]], "")
  }

  /** Splitting on every whitespace run leaves no whitespace in any part. */
  lemma {:induction false} SplitWsFromNoSpace(s: string, cur: string, ws: string)
    requires NoSpace(cur) && AllSpace(ws)
    ensures forall k :: 0 <= k < |SplitWsFrom(s, 1, cur, ws)| ==> NoSpace(SplitWsFrom(s, 1, cur, ws)[k])
  {
    if s != [] {
      if IsSpace(s[0]) {
        SplitWsFromNoSpace(s[1..], cur, ws + [s[0]]);
      } else if |ws| >= 1 {
        SplitWsFromNoSpace(s[1..], [s[0]], "");
      } else {
        assert cur + ws + [s[0]] == cur + [s[0]];
        SplitWsFromNoSpace(s[1..], cur + ws + [s[0]], "");
      }
    }
  }

  /** The single-space path's standalone test: money, at most three characters, or a `$` or `%`. */
  predicate Standalone(part: string) {
    IsMoney(part) || |part| <= 3 || '$' in part || '%' in part
  }

  /** What a pending word run turns into when it is flushed: `if (currentPart) merged.push(currentPart.trim())`. */
  function Flush(cur: string): seq<string> {
    if cur != "" then [Trim(cur)] else []
  }

  /**
   * The grouping loop, from the remaining parts and the pending word run `cur`; `alone`
   * is the standalone test (always `Standalone` in the parser, left open so that the
   * loop's bookkeeping can be reasoned about apart from the test).
   */
  function GroupFrom(parts: seq<string>, cur: string, alone: string -> bool): seq<string> {
    if parts == [] then Flush(cur)
    else if alone(parts[0]) then Flush(cur) + [parts[0]] + GroupFrom(parts[1..], "", alone)
    else GroupFrom(parts[1..], if cur != "" then cur + " " + parts[0] else parts[0], alone)
  }

  /** `xs.filter(p => p)`. */
  function NonEmptyOnly(xs: seq<string>): (r: seq<string>)
    ensures forall k :: 0 <= k < |r| ==> r[k] != ""
  {
    if xs == [] then [] else (if xs[0] != "" then [xs[0]] else []) + NonEmptyOnly(xs[1..])
  }

  /** The fields of the single-space path. */
  function Group(parts: seq<string>): seq<string> {
    NonEmptyOnly(GroupFrom(parts, "", Standalone))
  }

  /** `splitTabSeparatedLine(line)`. */
  function Tokens(line: string): seq<string> {
    if '\t' in line then TrimAll(SplitOn(line, '\t'))
    else if Contains(line, "  ") then TrimAll(SplitWs(line, 2))
    else Group(SplitWs(line, 1))
  }

  /** A standalone part flushes the pending run and is kept as a field of its own. */
  lemma GroupStepStandalone(parts: seq<string>, i: nat, cur: string, done: seq<string>, alone: string -> bool)
    requires i < |parts| && alone(parts[i])
    requires done + GroupFrom(parts[i..], cur, alone) == GroupFrom(parts, "", alone)
    ensures (done + Flush(cur) + [parts[i]]) + GroupFrom(parts[i + 1..], "", alone) == GroupFrom(parts, "", alone)
  {
    assert parts[i..][0] == parts[i] && parts[i..][1..] == parts[i + 1..];
  }

  /** Any other part joins the pending run. */
  lemma GroupStepWord(parts: seq<string>, i: nat, cur: string, done: seq<string>, alone: string -> bool)
    requires i < |parts| && !alone(parts[i])
    requires done + GroupFrom(parts[i..], cur, alone) == GroupFrom(parts, "", alone)
    ensures done + GroupFrom(parts[i + 1..], if cur != "" then cur + " " + parts[i] else parts[i], alone)
      == GroupFrom(parts, "", alone)
  {
    assert parts[i..][0] == parts[i] && parts[i..][1..] == parts[i + 1..];
  }

  /** The grouping loop of the single-space path, as the source writes it. */
  method GroupTokens(parts: seq<string>) returns (fields: seq<string>)
    ensures fields == Group(parts)
  {
    var merged: seq<string> := [];
    var current := "";
    var i := 0;
    while i < |parts|
      invariant 0 <= i <= |parts|
      invariant merged + GroupFrom(parts[i..], current, Standalone) == GroupFrom(parts, "", Standalone)
    {
      var part := parts[i];
      if Standalone(part) {
        GroupStepStandalone(parts, i, current, merged, Standalone);
        merged := merged + Flush(current);
        current := "";
        merged := merged + [part];
      } else {
        GroupStepWord(parts, i, current, merged, Standalone);
        current := if current != "" then current + " " + part else part;
      }
      i := i + 1;
    }
    assert parts[i..] == [];
    merged := merged + Flush(current);
    fields := NonEmptyOnly(merged);
  }

  /** `splitTabSeparatedLine`, calling the grouping loop. */
  method Tokenize(line: string) returns (fields: seq<string>)
    ensures fields == Tokens(line)
  {
    if '\t' in line {
      fields := TrimAll(SplitOn(line, '\t'));
    } else if Contains(line, "  ") {
      fields := TrimAll(SplitWs(line, 2));
    } else {
      fields := GroupTokens(SplitWs(line, 1));
    }
  }

  // ------------------------------------------------------------ properties

  /** A line with a tab has one field more than it has tabs, and every field is trimmed. */
  lemma TabFields(line: string)
    requires '\t' in line
    ensures |Tokens(line)| == Count(line, '\t') + 1
    ensures forall k :: 0 <= k < |Tokens(line)| ==> Trim(Tokens(line)[k]) == Tokens(line)[k]
  {
    SplitOnCount(line, '\t');
    forall k | 0 <= k < |Tokens(line)| ensures Trim(Tokens(line)[k]) == Tokens(line)[k] {
      TrimIdempotent(SplitOn(line, '\t')[k]);
    }
  }

  /** The entries of `xs` that satisfy `keep`, in order. */
  function Keep(xs: seq<string>, keep: string -> bool): seq<string> {
    if xs == [] then [] else (if keep(xs[0]) then [xs[0]] else []) + Keep(xs[1..], keep)
  }

  /** A field that the single-space path would keep on its own. */
  predicate StandaloneField(x: string) {
    x != "" && Standalone(x)
  }

  /** The standalone, non-empty entries of a list of fields, in order. */
  function StandaloneOnly(xs: seq<string>): seq<string> {
    Keep(xs, StandaloneField)
  }

  /** A pending word run: empty, or words without edge whitespace that is not itself standalone. */
  predicate WordRun(cur: string) {
    cur == "" || (!IsSpace(cur[0]) && !IsSpace(cur[|cur| - 1]) && !Standalone(cur))
  }

  /** Adding a non-standalone word to a word run keeps it a word run. */
  lemma ExtendWordRun(cur: string, p: string)
    requires WordRun(cur) && NoSpace(p) && !Standalone(p)
    ensures WordRun(if cur != "" then cur + " " + p else p)
  {
    if cur != "" {
      var w := cur + " " + p;
      assert w[|cur|] == ' ';
      if IsMoney(w) {
        MoneyHasNoSpace(w);
        assert false;
      }
      assert '$' !in w && '%' !in w by {
        assert '$' !in cur && '%' !in cur && '$' !in p && '%' !in p;
        forall i | 0 <= i < |w| ensures w[i] != '$' && w[i] != '%' {
          if i < |cur| { assert w[i] == cur[i]; }
          else if i > |cur| { assert w[i] == p[i - |cur| - 1]; }
        }
      }
    }
  }

  lemma {:induction false} NonEmptyOnlyConcat(a: seq<string>, b: seq<string>)
    ensures NonEmptyOnly(a + b) == NonEmptyOnly(a) + NonEmptyOnly(b)
  {
    if a == [] {
      assert a + b == b;
    } else {
      assert (a + b)[0] == a[0] && (a + b)[1..] == a[1..] + b;
      NonEmptyOnlyConcat(a[1..], b);
    }
  }

  lemma {:induction false} KeepConcat(a: seq<string>, b: seq<string>, keep: string -> bool)
    ensures Keep(a + b, keep) == Keep(a, keep) + Keep(b, keep)
  {
    if a == [] {
      assert a + b == b;
    } else {
      assert (a + b)[0] == a[0] && (a + b)[1..] == a[1..] + b;
      KeepConcat(a[1..], b, keep);
    }
  }

  lemma KeepOne(x: string, keep: string -> bool)
    ensures Keep([x], keep) == if keep(x) then [x] else []
  {
    assert [x][1..] == [];
  }

  lemma StandaloneOnlyConcat(a: seq<string>, b: seq<string>)
    ensures StandaloneOnly(a + b) == StandaloneOnly(a) + StandaloneOnly(b)
  {
    KeepConcat(a, b, StandaloneField);
  }

  lemma {:induction false} StandaloneOfNonEmpty(xs: seq<string>)
    ensures StandaloneOnly(NonEmptyOnly(xs)) == StandaloneOnly(xs)
  {
    if xs != [] {
      StandaloneOfNonEmpty(xs[1..]);
      StandaloneOnlyConcat(if xs[0] != "" then [xs[0]] else [], NonEmptyOnly(xs[1..]));
    }
  }

  /** A flushed word run is one non-empty, non-standalone field. */
  lemma FlushedRun(cur: string)
    requires WordRun(cur)
    ensures StandaloneOnly(Flush(cur)) == [] && NonEmptyOnly(Flush(cur)) == Flush(cur)
  {
    if cur != "" {
      TrimOfNoSpace(cur);
      KeepOne(cur, StandaloneField);
    }
  }

  lemma {:induction false} GroupFromStandalone(parts: seq<string>, cur: string)
    requires WordRun(cur)
    requires forall k :: 0 <= k < |parts| ==> NoSpace(parts[k])
    ensures StandaloneOnly(GroupFrom(parts, cur, Standalone)) == StandaloneOnly(parts)
  {
    FlushedRun(cur);
    if parts != [] {
      var p := parts[0];
      if Standalone(p) {
        GroupFromStandalone(parts[1..], "");
        StandaloneOnlyConcat(Flush(cur) + [p], GroupFrom(parts[1..], "", Standalone));
        StandaloneOnlyConcat(Flush(cur), [p]);
        KeepOne(p, StandaloneField);
      } else {
        ExtendWordRun(cur, p);
        GroupFromStandalone(parts[1..], if cur != "" then cur + " " + p else p);
      }
    }
  }

  /**
   * On a line with neither a tab nor a double space, every standalone-looking token
   * becomes a field of its own, in order, and no other field looks standalone.
   */
  lemma SingleSpaceStandalone(line: string)
    requires '\t' !in line && !Contains(line, "  ")
    ensures StandaloneOnly(Tokens(line)) == StandaloneOnly(SplitWs(line, 1))
  {
    SplitWsFromNoSpace(line, "", "");
    GroupFromStandalone(SplitWs(line, 1), "");
    StandaloneOfNonEmpty(GroupFrom(SplitWs(line, 1), "", Standalone));
  }

  /** The single-space path never yields an empty field. */
  lemma SingleSpaceNoEmpty(line: string)
    requires '\t' !in line && !Contains(line, "  ")
    ensures forall k :: 0 <= k < |Tokens(line)| ==> Tokens(line)[k] != ""
  {
  }
}
