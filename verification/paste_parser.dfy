/**
 * `parseBlockingChartData` (src/utils/blockingChartParser.ts:22-261): split pasted text
 * into lines, find the header line, map its columns, then turn every data line below it
 * into a row or drop it, carrying the channel of the last line that named one.
 */
module PasteParser {
  import opened Options
  import opened Text
  import opened Rows
  import opened Tokenizer
  import opened Columns
  import opened Extract
  import opened Scanning

  // ------------------------------------------------------------ header line

  /** A line that names one of the usual columns. */
  predicate HeaderHint(line: string) {
    var l := Lower(line);
    Contains(l, "channel") || Contains(l, "tactic") || Contains(l, "platform")
    || (Contains(l, "media") && Contains(l, "cost"))
    || Contains(l, "objective") || Contains(l, "placement")
  }

  /** The first of the first `n` lines with a header hint, or -1. */
  function FirstHint(lines: seq<string>, n: nat): (r: int)
    requires n <= |lines|
    ensures -1 <= r < n
    ensures r >= 0 ==> HeaderHint(lines[r]) && forall k :: 0 <= k < r ==> !HeaderHint(lines[k])
    ensures r < 0 ==> forall k :: 0 <= k < n ==> !HeaderHint(lines[k])
  {
    if n == 0 then -1
    else
      var r := FirstHint(lines, n - 1);
      if r >= 0 then r else if HeaderHint(lines[n - 1]) then n - 1 else -1
  }

  function Min(a: nat, b: nat): nat {
    if a < b then a else b
  }

  /** Only the first ten lines are searched; without a hint the first line is the header. */
  function HeaderIndex(lines: seq<string>): (h: nat)
    ensures lines != [] ==> h < Min(10, |lines|)
  {
    var r := FirstHint(lines, Min(10, |lines|));
    if r >= 0 then r else 0
  }

  /** The header search: the first hinted line among the first ten, else line 0. */
  lemma HeaderIndexSpec(lines: seq<string>)
    requires lines != []
    ensures HeaderIndex(lines) > 0 ==> HeaderHint(lines[HeaderIndex(lines)])
    ensures forall k :: 0 <= k < HeaderIndex(lines) ==> !HeaderHint(lines[k])
    ensures (exists k :: 0 <= k < Min(10, |lines|) && HeaderHint(lines[k])) ==> HeaderHint(lines[HeaderIndex(lines)])
    ensures (forall k :: 0 <= k < Min(10, |lines|) ==> !HeaderHint(lines[k])) ==> HeaderIndex(lines) == 0
  {
  }

  /** The header loop with its `break`. */
  method LocateHeader(lines: seq<string>) returns (headerIndex: nat)
    ensures headerIndex == HeaderIndex(lines)
  {
    var found := -1;
    var n := Min(10, |lines|);
    var i := 0;
    while i < n
      invariant 0 <= i <= n
      invariant found == -1 && FirstHint(lines, i) == -1
    {
      if HeaderHint(lines[i]) {
        found := i;
        assert FirstHint(lines, n) == i;
        break;
      }
      i := i + 1;
    }
    headerIndex := if found == -1 then 0 else found;
  }

  // ------------------------------------------------------------ data lines

  /** A line the data loop resolves: not blank, not noise, with data in at least three fields. */
  predicate DataLine(raw: string) {
    var line := Trim(raw);
    var values := Tokens(line);
    line != "" && !Noise(line, Paste) && HasData(values) && |values| >= 3
  }

  /**
   * One pass of the data loop for line `i`: other lines than data lines leave the carried
   * channel as it is; data lines resolve their fields, carry on the channel they resolve,
   * and become a row when all core fields and a positive budget are present.
   */
  function LineOutcome(raw: string, i: nat, cm: ColumnMap, current: string, stamp: nat -> string): LineResult {
    if !DataLine(raw) then LineResult(None, current)
    else
      var values := Tokens(Trim(raw));
      var f := Resolve(values, cm, current, Paste);
      var budget := BudgetOf(values, cm.totalWorkingMediaBudget);
      LineResult(if Acceptable(f, budget) then Some(MakeRow(RowId(i, stamp), values, cm, f, budget, Paste)) else None,
        f.carried)
  }

  /** One line's outcome as a function of the line, its index and the carried channel. */
  function Step(cm: ColumnMap, stamp: nat -> string): (string, nat, string) -> LineResult {
    (raw: string, i: nat, current: string) => LineOutcome(raw, i, cm, current, stamp)
  }

  /** `pastedData.split('\n').filter(line => line.trim())`. */
  function Lines(text: string): seq<string> {
    NonBlank(SplitOn(text, '\n'))
  }

  /** The column map read from the header line. */
  function HeaderMap(lines: seq<string>): ColumnMap
    requires lines != []
  {
    WithDefaults(Found(Tokens(lines[HeaderIndex(lines)]), Paste), Paste)
  }

  /** The rows the parser returns for a paste; `stamp` stands for the id's time and random parts. */
  function Parse(text: string, stamp: nat -> string): seq<Row> {
    ParseLines(Lines(text), stamp)
  }

  /** The rows of the non-blank lines of a paste: none without lines, else those below the header. */
  function ParseLines(lines: seq<string>, stamp: nat -> string): seq<Row> {
    if lines == [] then []
    else DataRows(lines, HeaderIndex(lines) + 1, HeaderMap(lines), stamp)
  }

  /** The rows of the lines from `lo`, the line after the header line, read with column map `cm`. */
  function DataRows(lines: seq<string>, lo: nat, cm: ColumnMap, stamp: nat -> string): seq<Row>
    requires lo <= |lines|
  {
    ScanLines(lines, lo, |lines|, Step(cm, stamp)).rows
  }

  // ------------------------------------------------------------ one line

  /**
   * What every emitted row of a paste carries: selected, categorised, no dates, a positive
   * budget, comma-free names, and core fields that are the cleaned forms of values that
   * passed validation.
   */
  ghost predicate PastedRow(r: Row) {
    r.selected && r.category.Some? && r.startDate.None? && r.endDate.None?
    && r.totalWorkingMediaBudget != "" && ParsesPositive(r.totalWorkingMediaBudget)
    && ',' !in r.channel && ',' !in r.tactic && ',' !in r.platform
    && CoreAccepted(r)
  }

  /** A line that gives a row gives a well-formed one, with the id of its own line index. */
  lemma LineRow(raw: string, i: nat, cm: ColumnMap, current: string, stamp: nat -> string)
    ensures var o := LineOutcome(raw, i, cm, current, stamp);
      o.row.Some? ==> PastedRow(o.row.value) && o.row.value.id == RowId(i, stamp)
  {
    if DataLine(raw) {
      var values := Tokens(Trim(raw));
      var f := Resolve(values, cm, current, Paste);
      var budget := BudgetOf(values, cm.totalWorkingMediaBudget);
      if Acceptable(f, budget) {
        MadeRow(RowId(i, stamp), values, cm, f, budget, Paste);
        MadeAccepted(RowId(i, stamp), values, cm, f, budget, Paste);
      }
    }
  }

  /**
   * A line gives a row exactly when it is a data line whose fields, resolved with the
   * carried channel, and whose budget pass validation.
   */
  lemma LineAccepted(raw: string, i: nat, cm: ColumnMap, current: string, stamp: nat -> string)
    ensures LineOutcome(raw, i, cm, current, stamp).row.Some? <==>
      DataLine(raw)
      && Acceptable(Resolve(Tokens(Trim(raw)), cm, current, Paste), BudgetOf(Tokens(Trim(raw)), cm.totalWorkingMediaBudget))
  {
  }

  /** A line that gives a row is not blank, not noise, and has at least three fields. */
  lemma LineKept(raw: string, i: nat, cm: ColumnMap, current: string, stamp: nat -> string)
    ensures LineOutcome(raw, i, cm, current, stamp).row.Some? ==>
      Trim(raw) != "" && !Noise(Trim(raw), Paste) && |Tokens(Trim(raw))| >= 3 && HasData(Tokens(Trim(raw)))
  {
  }

  // ------------------------------------------------------------ the carried channel

  /**
   * A line that sets the carried channel: not blank, not noise, with data in at least three
   * fields, not a merged row, and with a non-blank channel cell. Whether the line then
   * passes validation does not matter.
   */
  predicate SetsChannel(raw: string, cm: ColumnMap) {
    var values := Tokens(Trim(raw));
    DataLine(raw) && !MergedRow(values, Paste) && Filled(Cell(values, cm.channel))
  }

  /** The channel such a line sets: its channel cell, trimmed. */
  function ChannelSet(raw: string, cm: ColumnMap): string {
    Trim(Cell(Tokens(Trim(raw)), cm.channel))
  }

  function Sets(cm: ColumnMap): string -> bool {
    raw => SetsChannel(raw, cm)
  }

  function SetValue(cm: ColumnMap): string -> string {
    raw => ChannelSet(raw, cm)
  }

  /** A line carries on the channel it sets, and every other line the channel it was given. */
  lemma LineCarry(raw: string, i: nat, cm: ColumnMap, current: string, stamp: nat -> string)
    ensures LineOutcome(raw, i, cm, current, stamp).carried
      == if SetsChannel(raw, cm) then ChannelSet(raw, cm) else current
  {
    if DataLine(raw) {
      var values := Tokens(Trim(raw));
      assert SetsChannel(raw, cm) == (!MergedRow(values, Paste) && Filled(Cell(values, cm.channel)));
      var f := Resolve(values, cm, current, Paste);
      assert LineOutcome(raw, i, cm, current, stamp).carried == f.carried;
      assert ChannelSet(raw, cm) == Trim(Cell(values, cm.channel));
    } else {
      assert LineOutcome(raw, i, cm, current, stamp).carried == current;
    }
  }

  /** The row of a line, if any, has the cleaned form of the channel the line carries on. */
  lemma LineChannel(raw: string, i: nat, cm: ColumnMap, current: string, stamp: nat -> string)
    ensures var o := LineOutcome(raw, i, cm, current, stamp);
      o.row.Some? ==> o.row.value.channel == Clean(o.carried)
  {
    if DataLine(raw) {
      ResolvedChannel(Tokens(Trim(raw)), cm, current, Paste);
    }
  }

  lemma StepCarries(cm: ColumnMap, stamp: nat -> string)
    ensures forall raw, i, current ::
      Step(cm, stamp)(raw, i, current).carried == if Sets(cm)(raw) then SetValue(cm)(raw) else current
  {
    forall raw, i, current
      ensures Step(cm, stamp)(raw, i, current).carried == (if Sets(cm)(raw) then SetValue(cm)(raw) else current)
    {
      LineCarry(raw, i, cm, current, stamp);
    }
  }

  /**
   * The channel carried into line `hi` (and given to a merged or blank-channel line there)
   * when the scan starts at line `lo`, the line after the header: the trimmed channel cell
   * of the last line from `lo` on that sets one, or "" when no line does.
   */
  lemma CarriedChannel(lines: seq<string>, lo: nat, hi: nat, cm: ColumnMap, stamp: nat -> string)
    requires lo <= hi <= |lines|
    ensures var j := LastWhere(lines, lo, hi, Sets(cm));
      ScanLines(lines, lo, hi, Step(cm, stamp)).current == if j < 0 then "" else ChannelSet(lines[j], cm)
  {
    StepCarries(cm, stamp);
    ScanCarries(lines, lo, hi, Step(cm, stamp), Sets(cm), SetValue(cm));
  }

  // ------------------------------------------------------------ the whole paste

  lemma StepRows(cm: ColumnMap, stamp: nat -> string)
    ensures forall raw, i, current :: Step(cm, stamp)(raw, i, current).row.Some? ==>
      PastedRow(Step(cm, stamp)(raw, i, current).row.value)
      && Step(cm, stamp)(raw, i, current).row.value.id == RowId(i, stamp)
  {
    forall raw, i, current
      ensures Step(cm, stamp)(raw, i, current).row.Some? ==>
        PastedRow(Step(cm, stamp)(raw, i, current).row.value)
        && Step(cm, stamp)(raw, i, current).row.value.id == RowId(i, stamp)
    {
      LineRow(raw, i, cm, current, stamp);
    }
  }

  /**
   * No accepted line is dropped: the row, if any, that line `k` gives with the channel of the
   * last line from `lo` before it that sets one ("" when none does) is a row of the scan from
   * line `lo`. `LineAccepted` says when that line gives a row.
   */
  lemma DataRowsComplete(lines: seq<string>, lo: nat, cm: ColumnMap, stamp: nat -> string, k: nat)
    requires lo <= k < |lines|
    ensures var j := LastWhere(lines, lo, k, Sets(cm));
      var o := LineOutcome(lines[k], k, cm, if j < 0 then "" else ChannelSet(lines[j], cm), stamp);
      o.row.Some? ==> o.row.value in DataRows(lines, lo, cm, stamp)
  {
    var j := LastWhere(lines, lo, k, Sets(cm));
    var current := if j < 0 then "" else ChannelSet(lines[j], cm);
    CarriedChannel(lines, lo, k, cm, stamp);
    assert Step(cm, stamp)(lines[k], k, current) == LineOutcome(lines[k], k, cm, current, stamp);
    ScanComplete(lines, lo, |lines|, Step(cm, stamp), k);
  }

  /**
   * The same for a whole paste, read with the header's column map `cm` from `lo`, the line
   * after the header line: the row, if any, that a line from there gives with the channel
   * carried into it is a row of the paste.
   */
  lemma ParseComplete(lines: seq<string>, stamp: nat -> string, cm: ColumnMap, lo: nat, k: nat)
    requires lines != [] && cm == HeaderMap(lines) && lo == HeaderIndex(lines) + 1 && lo <= k < |lines|
    ensures var j := LastWhere(lines, lo, k, Sets(cm));
      var o := LineOutcome(lines[k], k, cm, if j < 0 then "" else ChannelSet(lines[j], cm), stamp);
      o.row.Some? ==> o.row.value in ParseLines(lines, stamp)
  {
    ParseLinesRows(lines, stamp);
    DataRowsComplete(lines, lo, cm, stamp, k);
  }

  /** A paste with lines gives the rows of the lines after its header line. */
  lemma ParseLinesRows(lines: seq<string>, stamp: nat -> string)
    requires lines != []
    ensures ParseLines(lines, stamp) == DataRows(lines, HeaderIndex(lines) + 1, HeaderMap(lines), stamp)
  {
  }

  lemma DataRowsWellFormed(lines: seq<string>, lo: nat, cm: ColumnMap, stamp: nat -> string)
    requires lo <= |lines|
    ensures forall r :: r in DataRows(lines, lo, cm, stamp) ==> PastedRow(r)
  {
    StepRows(cm, stamp);
    ScanKeeps(lines, lo, |lines|, Step(cm, stamp), PastedRow);
  }

  lemma DataRowsIdsDistinct(lines: seq<string>, lo: nat, cm: ColumnMap, stamp: nat -> string)
    requires lo <= |lines|
    ensures DistinctIds(DataRows(lines, lo, cm, stamp))
  {
    StepRows(cm, stamp);
    ScanIdsDistinct(lines, lo, |lines|, Step(cm, stamp), stamp);
  }

  lemma DataRowsBound(lines: seq<string>, lo: nat, cm: ColumnMap, stamp: nat -> string)
    requires lo <= |lines|
    ensures |DataRows(lines, lo, cm, stamp)| <= |lines| - lo
  {
    ScanLength(lines, lo, |lines|, Step(cm, stamp));
  }

  /** Every row of a paste is selected, categorised, undated, with a positive budget and comma-free names. */
  lemma ParseRowsWellFormed(lines: seq<string>, stamp: nat -> string)
    ensures forall r :: r in ParseLines(lines, stamp) ==> PastedRow(r)
  {
    if lines != [] {
      DataRowsWellFormed(lines, HeaderIndex(lines) + 1, HeaderMap(lines), stamp);
    }
  }

  /** The rows of a paste have pairwise distinct ids: each carries the index of its own line. */
  lemma ParseIdsDistinct(lines: seq<string>, stamp: nat -> string)
    ensures DistinctIds(ParseLines(lines, stamp))
  {
    if lines != [] {
      DataRowsIdsDistinct(lines, HeaderIndex(lines) + 1, HeaderMap(lines), stamp);
    }
  }

  /** Only lines below the header give rows, at most one each; a paste of a header alone gives none. */
  lemma ParseBound(lines: seq<string>, stamp: nat -> string)
    requires lines != []
    ensures |ParseLines(lines, stamp)| <= |lines| - HeaderIndex(lines) - 1
  {
    DataRowsBound(lines, HeaderIndex(lines) + 1, HeaderMap(lines), stamp);
  }

  // ------------------------------------------------------------ the parser

  /** `parseBlockingChartData`. */
  method ParseBlockingChartData(text: string, stamp: nat -> string) returns (rows: seq<Row>)
    ensures rows == Parse(text, stamp)
  {
    var lines := Lines(text);
    if |lines| == 0 {
      return [];
    }
    var headerIndex := LocateHeader(lines);
    var columns := Tokenize(lines[headerIndex]);
    var columnMap := MapColumns(columns, Paste);
    assert columnMap == HeaderMap(lines);
    var start := headerIndex + 1;
    assert start == HeaderIndex(lines) + 1;
    var currentChannel;
    rows, currentChannel := ScanData(lines, start, Step(columnMap, stamp));
    ParseLinesRows(lines, stamp);
  }
}
