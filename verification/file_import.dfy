/**
 * The file path of the import (src/components/Import/FileBasedBlockingChartImport.tsx):
 * choose a sheet, find its header row by scoring, or split a CSV file into fields; map
 * the header's columns; turn every data row into a blocking-chart row or drop it; then
 * let the user toggle, recategorise and date the rows before importing the selected ones.
 * The spreadsheet library is not modelled: a sheet is the grid of cell texts it yields.
 */
module FileImport {
  import opened Options
  import opened Text
  import opened Rows
  import opened Columns
  import opened Extract
  import opened Scanning

  // ------------------------------------------------------------ sheet choice

  /** The sheet name, lower-cased, contains `key`. */
  predicate NameHas(name: string, key: string) {
    Contains(Lower(name), key)
  }

  /** The first name containing `key`, or -1. */
  function FirstWith(names: seq<string>, key: string): (r: int)
    ensures -1 <= r < |names|
    ensures r >= 0 ==> NameHas(names[r], key) && forall k :: 0 <= k < r ==> !NameHas(names[k], key)
    ensures r < 0 ==> forall k :: 0 <= k < |names| ==> !NameHas(names[k], key)
  {
    if names == [] then -1
    else if NameHas(names[0], key) then 0
    else
      var r := FirstWith(names[1..], key);
      if r < 0 then -1 else r + 1
  }

  /** `j` is the first index whose name contains `key`. */
  predicate FirstNamed(names: seq<string>, j: nat, key: string) {
    j < |names| && NameHas(names[j], key) && forall k :: 0 <= k < j ==> !NameHas(names[k], key)
  }

  /** No name contains `key`. */
  predicate NoneNamed(names: seq<string>, key: string) {
    forall k :: 0 <= k < |names| ==> !NameHas(names[k], key)
  }

  /** The preference order of `findBestSheet`: "blocking", then "chart", then "data", then the first sheet. */
  predicate BestSheetAt(names: seq<string>, j: nat) {
    FirstNamed(names, j, "blocking")
    || (NoneNamed(names, "blocking") && FirstNamed(names, j, "chart"))
    || (NoneNamed(names, "blocking") && NoneNamed(names, "chart") && FirstNamed(names, j, "data"))
    || (NoneNamed(names, "blocking") && NoneNamed(names, "chart") && NoneNamed(names, "data") && j == 0 < |names|)
  }

  /** `findBestSheet`; a workbook without sheets has no best sheet. */
  function FindBestSheet(names: seq<string>): (r: Option<string>)
    ensures names == [] ==> r == None
    ensures names != [] ==> exists j :: 0 <= j < |names| && BestSheetAt(names, j) && r == Some(names[j])
  {
    if names == [] then None
    else
      var b, c, d := FirstWith(names, "blocking"), FirstWith(names, "chart"), FirstWith(names, "data");
      var j := if b >= 0 then b else if c >= 0 then c else if d >= 0 then d else 0;
      assert BestSheetAt(names, j);
      Some(names[j])
  }

  // ------------------------------------------------------------ header row of a sheet

  const HeaderKeys: seq<string> := ["channel", "platform", "tactic", "audience", "objective", "placement",
    "budget", "impression", "cpm", "cost", "kpi", "optimization"]

  /** A non-blank cell that names one of the usual columns. */
  predicate HeaderLike(cell: string) {
    Filled(cell) && ContainsAny(Lower(cell), HeaderKeys)
  }

  /** The number of header-like cells of a row. */
  function HeaderCount(row: seq<string>): (n: nat)
    ensures n <= |row|
  {
    if row == [] then 0 else HeaderCount(row[..|row| - 1]) + (if HeaderLike(row[|row| - 1]) then 1 else 0)
  }

  /** The running best of the scoring loop: the earliest row with the highest count, and that count. */
  datatype Score = Score(best: nat, top: nat)

  function Best(grid: seq<seq<string>>, n: nat): (s: Score)
    requires n <= |grid|
    ensures forall k :: 0 <= k < n ==> HeaderCount(grid[k]) <= s.top
    ensures s.top > 0 ==> (s.best < n && HeaderCount(grid[s.best]) == s.top
      && forall k :: 0 <= k < s.best ==> HeaderCount(grid[k]) < s.top)
    ensures s.top == 0 ==> s.best == 0
  {
    if n == 0 then Score(0, 0)
    else
      var s := Best(grid, n - 1);
      var c := HeaderCount(grid[n - 1]);
      if c > s.top then Score(n - 1, c) else s
  }

  /** The first of the first `n` rows with at least three header-like cells, or -1. */
  function FirstStrong(grid: seq<seq<string>>, n: nat): (r: int)
    requires n <= |grid|
    ensures -1 <= r < n
    ensures r >= 0 ==> HeaderCount(grid[r]) >= 3 && forall k :: 0 <= k < r ==> HeaderCount(grid[k]) < 3
    ensures r < 0 ==> forall k :: 0 <= k < n ==> HeaderCount(grid[k]) < 3
  {
    if n == 0 then -1
    else
      var r := FirstStrong(grid, n - 1);
      if r >= 0 then r else if HeaderCount(grid[n - 1]) >= 3 then n - 1 else -1
  }

  function Min(a: nat, b: nat): nat {
    if a < b then a else b
  }

  /** The header row the scoring loop settles on. */
  function HeaderRow(grid: seq<seq<string>>): nat {
    var n := Min(10, |grid|);
    var r := FirstStrong(grid, n);
    if r >= 0 then r
    else
      var s := Best(grid, n);
      if s.top > 0 then s.best else 0
  }

  /**
   * Among the first ten rows: the first with three or more header-like cells; else the
   * earliest with the most of them; else row 0.
   */
  lemma HeaderRowSpec(grid: seq<seq<string>>)
    requires grid != []
    ensures HeaderRow(grid) < Min(10, |grid|)
    ensures (exists k :: 0 <= k < Min(10, |grid|) && HeaderCount(grid[k]) >= 3) ==>
      HeaderCount(grid[HeaderRow(grid)]) >= 3
      && forall k :: 0 <= k < HeaderRow(grid) ==> HeaderCount(grid[k]) < 3
    ensures (forall k :: 0 <= k < Min(10, |grid|) ==> HeaderCount(grid[k]) < 3) ==>
      (forall k :: 0 <= k < Min(10, |grid|) ==> HeaderCount(grid[k]) <= HeaderCount(grid[HeaderRow(grid)]))
      && (forall k :: 0 <= k < HeaderRow(grid) ==> HeaderCount(grid[k]) < HeaderCount(grid[HeaderRow(grid)]))
  {
    var n := Min(10, |grid|);
    var s := Best(grid, n);
    if FirstStrong(grid, n) < 0 && s.top == 0 {
      assert HeaderRow(grid) == 0;
    }
  }

  /** The first strong row found by the loop is the first strong row of all `n`. */
  lemma FirstStrongAt(grid: seq<seq<string>>, i: nat, n: nat)
    requires i < n <= |grid| && FirstStrong(grid, i) == -1 && HeaderCount(grid[i]) >= 3
    ensures FirstStrong(grid, n) == i
  {
  }

  /** The scoring loop with its `break` and the fallback to the best row. */
  method LocateHeaderRow(grid: seq<seq<string>>) returns (headerRowIndex: nat)
    ensures headerRowIndex == HeaderRow(grid)
  {
    headerRowIndex := 0;
    var bestHeaderRow := 0;
    var maxHeaderCount := 0;
    var n := Min(10, |grid|);
    var i := 0;
    while i < n
      invariant 0 <= i <= n
      invariant Score(bestHeaderRow, maxHeaderCount) == Best(grid, i)
      invariant FirstStrong(grid, i) == -1 && headerRowIndex == 0
    {
      var count := HeaderCount(grid[i]);
      assert Best(grid, i + 1) == if count > Best(grid, i).top then Score(i, count) else Best(grid, i);
      assert count < 3 ==> FirstStrong(grid, i + 1) == -1;
      if count > maxHeaderCount {
        maxHeaderCount := count;
        bestHeaderRow := i;
      }
      if count >= 3 {
        headerRowIndex := i;
        FirstStrongAt(grid, i, n);
        break;
      }
      i := i + 1;
    }
    if maxHeaderCount > 0 {
      headerRowIndex := bestHeaderRow;
    }
  }

  // ------------------------------------------------------------ the table of a file

  /** The header cells and the data rows below them. */
  datatype Table = Table(headers: seq<string>, rows: seq<seq<string>>)

  /** Every cell of every row trimmed. */
  function TrimRows(rows: seq<seq<string>>): (r: seq<seq<string>>)
    ensures |r| == |rows|
    ensures forall k :: 0 <= k < |rows| ==> r[k] == TrimAll(rows[k])
  {
    seq(|rows|, k requires 0 <= k < |rows| => TrimAll(rows[k]))
  }

  /** A sheet's grid: an error when it is empty, else the trimmed header row and the trimmed rows below it. */
  function SheetTable(grid: seq<seq<string>>): (r: Result<Table>)
    ensures grid == [] <==> r.Err?
    ensures r.Err? ==> r.message == "Excel file appears to be empty"
    ensures r.Ok? ==> (r.value.headers == TrimAll(grid[HeaderRow(grid)])
      && |r.value.rows| == |grid| - HeaderRow(grid) - 1
      && forall k :: 0 <= k < |r.value.rows| ==> r.value.rows[k] == TrimAll(grid[HeaderRow(grid) + 1 + k]))
  {
    if grid == [] then Err("Excel file appears to be empty")
    else
      HeaderRowSpec(grid);
      var h := HeaderRow(grid);
      Ok(Table(TrimAll(grid[h]), TrimRows(grid[h + 1..])))
  }

  // ------------------------------------------------------------ CSV

  /** The state of `parseCSVLine`'s character loop. */
  datatype CsvState = CsvState(fields: seq<string>, current: string, inQuotes: bool)

  /** One character: a quote flips the mode and is dropped, an unquoted comma ends a field. */
  function CsvStep(s: CsvState, c: char): CsvState {
    if c == '"' then CsvState(s.fields, s.current, !s.inQuotes)
    else if c == ',' && !s.inQuotes then CsvState(s.fields + [Trim(s.current)], "", s.inQuotes)
    else CsvState(s.fields, s.current + [c], s.inQuotes)
  }

  /** The loop run over `rest` from state `s`. */
  function CsvFrom(s: CsvState, rest: string): CsvState
    decreases |rest|
  {
    if rest == [] then s else CsvFrom(CsvStep(s, rest[0]), rest[1..])
  }

  /** The fields of one CSV line: those the loop closed, then the last one. */
  function CsvFields(line: string): seq<string> {
    var s := CsvFrom(CsvState([], "", false), line);
    s.fields + [Trim(s.current)]
  }

  /** `parseCSVLine`. */
  method ParseCsvLine(line: string) returns (result: seq<string>)
    ensures result == CsvFields(line)
  {
    result := [];
    var current := "";
    var inQuotes := false;
    var i := 0;
    while i < |line|
      invariant 0 <= i <= |line|
      invariant CsvFrom(CsvState(result, current, inQuotes), line[i..]) == CsvFrom(CsvState([], "", false), line)
    {
      assert line[i..][1..] == line[i + 1..];
      var c := line[i];
      if c == '"' {
        inQuotes := !inQuotes;
      } else if c == ',' && !inQuotes {
        result := result + [Trim(current)];
        current := "";
      } else {
        current := current + [c];
      }
      i := i + 1;
    }
    result := result + [Trim(current)];
  }

  /** The commas of `s` outside quotes, when the text before `s` left the mode at `q`. */
  function UnquotedCommas(s: string, q: bool): nat
    decreases |s|
  {
    if s == [] then 0
    else if s[0] == '"' then UnquotedCommas(s[1..], !q)
    else (if s[0] == ',' && !q then 1 else 0) + UnquotedCommas(s[1..], q)
  }

  lemma {:induction false} CsvFromCount(s: CsvState, rest: string)
    ensures |CsvFrom(s, rest).fields| == |s.fields| + UnquotedCommas(rest, s.inQuotes)
    decreases |rest|
  {
    if rest != [] {
      CsvFromCount(CsvStep(s, rest[0]), rest[1..]);
    }
  }

  /** A CSV line has one field more than it has commas outside quotes. */
  lemma CsvFieldCount(line: string)
    ensures |CsvFields(line)| == UnquotedCommas(line, false) + 1
  {
    CsvFromCount(CsvState([], "", false), line);
  }

  /** No field and no part-built field holds a quote character. */
  predicate QuoteFree(s: CsvState) {
    '"' !in s.current && forall k :: 0 <= k < |s.fields| ==> '"' !in s.fields[k]
  }

  lemma TrimKeepsOut(s: string, c: char)
    requires c !in s
    ensures c !in Trim(s)
  {
    var lo, hi := TrimIsSlice(s);
    forall j | 0 <= j < |Trim(s)|
      ensures Trim(s)[j] != c
    {
      assert Trim(s)[j] == s[lo + j];
    }
  }

  lemma {:induction false} CsvFromQuoteFree(s: CsvState, rest: string)
    requires QuoteFree(s)
    ensures QuoteFree(CsvFrom(s, rest))
    decreases |rest|
  {
    if rest != [] {
      var c := rest[0];
      if c == ',' && !s.inQuotes {
        TrimKeepsOut(s.current, '"');
      }
      CsvFromQuoteFree(CsvStep(s, c), rest[1..]);
    }
  }

  /** Quote characters are dropped: no field contains one. */
  lemma CsvFieldsQuoteFree(line: string)
    ensures forall k :: 0 <= k < |CsvFields(line)| ==> '"' !in CsvFields(line)[k]
  {
    var s := CsvFrom(CsvState([], "", false), line);
    CsvFromQuoteFree(CsvState([], "", false), line);
    TrimKeepsOut(s.current, '"');
  }

  predicate Trimmed(f: string) {
    Trim(f) == f
  }

  predicate AllTrimmed(fs: seq<string>) {
    forall k :: 0 <= k < |fs| ==> Trimmed(fs[k])
  }

  lemma {:induction false} CsvFromTrimmed(s: CsvState, rest: string)
    requires AllTrimmed(s.fields)
    ensures AllTrimmed(CsvFrom(s, rest).fields)
    decreases |rest|
  {
    if rest != [] {
      StepTrimmed(s, rest[0]);
      CsvFromTrimmed(CsvStep(s, rest[0]), rest[1..]);
    }
  }

  lemma StepTrimmed(s: CsvState, c: char)
    requires AllTrimmed(s.fields)
    ensures AllTrimmed(CsvStep(s, c).fields)
  {
    if c == ',' && !s.inQuotes {
      TrimmedTrim(s.current);
      AllTrimmedAppend(s.fields, Trim(s.current));
    }
  }

  lemma AllTrimmedAppend(fs: seq<string>, x: string)
    requires AllTrimmed(fs) && Trimmed(x)
    ensures AllTrimmed(fs + [x])
  {
    forall k | 0 <= k < |fs + [x]|
      ensures Trimmed((fs + [x])[k])
    {
      if k < |fs| { assert (fs + [x])[k] == fs[k]; } else { assert (fs + [x])[k] == x; }
    }
  }

  lemma TrimmedTrim(x: string)
    ensures Trimmed(Trim(x))
  {
    TrimIdempotent(x);
  }

  /** Every field is trimmed. */
  lemma CsvFieldsTrimmed(line: string)
    ensures AllTrimmed(CsvFields(line))
  {
    var s := CsvFrom(CsvState([], "", false), line);
    CsvFromTrimmed(CsvState([], "", false), line);
    TrimmedTrim(s.current);
    AllTrimmedAppend(s.fields, Trim(s.current));
  }

  /** Inside quotes, quote-free text goes into the current field whole, commas included. */
  lemma {:induction false} CsvQuotedRun(s: CsvState, x: string, rest: string)
    requires s.inQuotes && '"' !in x
    ensures CsvFrom(s, x + rest) == CsvFrom(CsvState(s.fields, s.current + x, true), rest)
    decreases |x|
  {
    if x == [] {
      assert x + rest == rest;
      assert s.current + x == s.current;
    } else {
      assert (x + rest)[0] == x[0];
      assert (x + rest)[1..] == x[1..] + rest;
      assert s.current + [x[0]] + x[1..] == s.current + x;
      CsvQuotedRun(CsvStep(s, x[0]), x[1..], rest);
    }
  }

  /** A line that is one quoted, quote-free text is one field: its commas are kept. */
  lemma CsvQuotedField(x: string)
    requires '"' !in x
    ensures CsvFields("\"" + x + "\"") == [Trim(x)]
  {
    var line := "\"" + x + "\"";
    var s0 := CsvState([], "", false);
    var s1 := CsvState([], "", true);
    assert line[0] == '"' && line[1..] == x + "\"";
    assert CsvFrom(s0, line) == CsvFrom(s1, x + "\"");
    CsvQuotedRun(s1, x, "\"");
    assert "" + x == x;
    assert CsvFrom(CsvState([], x, true), "\"") == CsvState([], x, false);
  }

  /** The parts of a split with `cur` put in front of the first one. */
  function Glue(cur: string, p: seq<string>): seq<string>
    requires p != []
  {
    [cur + p[0]] + p[1..]
  }

  /** One step of `SplitOn` from the left. */
  lemma SplitOnHead(s: string, sep: char)
    requires s != []
    ensures SplitOn(s, sep) == if s[0] == sep then [""] + SplitOn(s[1..], sep) else Glue([s[0]], SplitOn(s[1..], sep))
  {
  }

  /** `f` applied to each element, written as a recursion from the left. */
  function Each<T, U>(s: seq<T>, f: T -> U): seq<U> {
    if s == [] then [] else [f(s[0])] + Each(s[1..], f)
  }

  lemma {:induction false} EachAt<T, U>(s: seq<T>, f: T -> U)
    ensures |Each(s, f)| == |s| && forall k :: 0 <= k < |s| ==> Each(s, f)[k] == f(s[k])
  {
    if s != [] {
      EachAt(s[1..], f);
      var r := Each(s, f);
      forall k | 0 < k < |s| ensures r[k] == f(s[k]) {
        assert r[k] == Each(s[1..], f)[k - 1];
        assert s[1..][k - 1] == s[k];
      }
    }
  }

  /** `TrimAll` written as a recursion over the parts. */
  function TrimEach(parts: seq<string>): seq<string> {
    Each(parts, Trim)
  }

  lemma TrimEachAll(parts: seq<string>)
    ensures TrimEach(parts) == TrimAll(parts)
  {
    EachAt(parts, Trim);
  }

  /** Gluing onto a part that starts with a separator puts `cur` in a part of its own. */
  lemma GlueSeparator(cur: string, q: seq<string>)
    requires q != []
    ensures Glue(cur, [""] + q) == [cur] + Glue("", q) && Glue("", q) == q
  {
    assert ([""] + q)[0] == "" && ([""] + q)[1..] == q;
    assert cur + "" == cur;
    GlueEmpty(q);
  }

  /** Gluing onto a part that starts with `c` is gluing `cur + [c]`. */
  lemma GlueChar(cur: string, c: char, q: seq<string>)
    requires q != []
    ensures Glue(cur, Glue([c], q)) == Glue(cur + [c], q)
  {
    assert cur + ([c] + q[0]) == cur + [c] + q[0];
  }

  lemma CsvFromCons(s: CsvState, rest: string)
    requires rest != []
    ensures CsvFrom(s, rest) == CsvFrom(CsvStep(s, rest[0]), rest[1..])
  {
  }

  lemma TrimEachCons(x: string, g: seq<string>)
    ensures TrimEach([x] + g) == [Trim(x)] + TrimEach(g)
  {
    assert ([x] + g)[1..] == g;
    assert Each([x] + g, Trim) == [Trim(x)] + Each(g, Trim);
  }

  lemma CommaParts(fs: seq<string>, cur: string, q: seq<string>)
    requires q != []
    ensures fs + [Trim(cur)] + TrimEach(Glue("", q)) == fs + TrimEach(Glue(cur, [""] + q))
  {
    GlueSeparator(cur, q);
    TrimEachCons(cur, q);
    assert fs + [Trim(cur)] + TrimEach(q) == fs + ([Trim(cur)] + TrimEach(q));
  }

  /** Without quotes, the fields are the trimmed comma-separated parts, with `cur` before the first. */
  lemma {:induction false} CsvFromPlain(fs: seq<string>, cur: string, rest: string)
    requires Count(rest, '"') == 0
    ensures var s := CsvFrom(CsvState(fs, cur, false), rest);
      s.fields + [Trim(s.current)] == fs + TrimEach(Glue(cur, SplitOn(rest, ',')))
    decreases |rest|
  {
    if rest == [] {
      assert SplitOn(rest, ',') == [""];
      assert cur + "" == cur;
      assert Glue(cur, [""]) == [cur] + [];
      TrimEachCons(cur, []);
    } else {
      var q := SplitOn(rest[1..], ',');
      var c := rest[0];
      SplitOnHead(rest, ',');
      CsvFromCons(CsvState(fs, cur, false), rest);
      if c == ',' {
        CsvFromPlain(fs + [Trim(cur)], "", rest[1..]);
        CommaParts(fs, cur, q);
      } else {
        CsvFromPlain(fs, cur + [c], rest[1..]);
        GlueChar(cur, c, q);
      }
    }
  }

  /** A line with no quote characters splits at every comma. */
  lemma CsvPlainLine(line: string)
    requires Count(line, '"') == 0
    ensures CsvFields(line) == TrimAll(SplitOn(line, ','))
  {
    CsvFromPlain([], "", line);
    GlueEmpty(SplitOn(line, ','));
    TrimEachAll(SplitOn(line, ','));
  }

  lemma GlueEmpty(p: seq<string>)
    requires p != []
    ensures Glue("", p) == p
  {
    assert "" + p[0] == p[0];
    assert [p[0]] + p[1..] == p;
  }

  /** `text.split('\n').filter(line => line.trim())`. */
  function CsvLines(text: string): seq<string> {
    NonBlank(SplitOn(text, '\n'))
  }

  /** Each line split into its fields. */
  function CsvRows(lines: seq<string>): (r: seq<seq<string>>)
    ensures |r| == |lines|
    ensures forall k :: 0 <= k < |lines| ==> r[k] == CsvFields(lines[k])
  {
    seq(|lines|, k requires 0 <= k < |lines| => CsvFields(lines[k]))
  }

  /** The table of a CSV file: an error without lines, else the header line 0 and every other line a row. */
  function CsvTable(text: string): (r: Result<Table>)
    ensures CsvLines(text) == [] <==> r.Err?
    ensures r.Err? ==> r.message == "CSV file appears to be empty"
    ensures r.Ok? ==> (r.value.headers == CsvFields(CsvLines(text)[0]) && |r.value.rows| == |CsvLines(text)| - 1
      && forall k :: 0 <= k < |r.value.rows| ==> r.value.rows[k] == CsvFields(CsvLines(text)[k + 1]))
  {
    var lines := CsvLines(text);
    if lines == [] then Err("CSV file appears to be empty")
    else Ok(Table(CsvFields(lines[0]), CsvRows(lines[1..])))
  }

  // ------------------------------------------------------------ rows of a file

  /** `createColumnMapping`: the file path's rules and defaults. */
  function FileMap(headers: seq<string>): ColumnMap {
    WithDefaults(Found(headers, File), File)
  }

  /** A row the row loop resolves: some cell is not blank, and the row is not noise. */
  predicate DataRow(row: seq<string>) {
    HasData(row) && !Noise(Join(row, "\t"), File)
  }

  /**
   * One pass of the row loop for row `i`: other rows than data rows leave the carried
   * channel as it is; data rows resolve their cleaned fields, carry on the channel they
   * resolve, and become a row when all core fields and a positive budget are present.
   */
  function RowOutcome(row: seq<string>, i: nat, cm: ColumnMap, current: string, stamp: nat -> string): LineResult {
    if !DataRow(row) then LineResult(None, current)
    else
      var f := Resolve(row, cm, current, File);
      var budget := BudgetOf(row, cm.totalWorkingMediaBudget);
      LineResult(if Acceptable(f, budget) then Some(MakeRow(RowId(i, stamp), row, cm, f, budget, File)) else None,
        f.carried)
  }

  function FileStep(cm: ColumnMap, stamp: nat -> string): (seq<string>, nat, string) -> LineResult {
    (row: seq<string>, i: nat, current: string) => RowOutcome(row, i, cm, current, stamp)
  }

  /** The rows `convertToBlockingChartRows` returns for a table. */
  function Convert(t: Table, stamp: nat -> string): seq<Row> {
    ScanLines(t.rows, 0, |t.rows|, FileStep(FileMap(t.headers), stamp)).rows
  }

  /**
   * What every emitted row of a file carries: selected, categorised, empty dates, a positive
   * budget, comma-free names, and core fields that are the cleaned forms of values that
   * passed validation (values the row loop had already cleaned once).
   */
  ghost predicate UploadedRow(r: Row) {
    r.selected && r.category.Some? && r.startDate == Some("") && r.endDate == Some("")
    && r.totalWorkingMediaBudget != "" && ParsesPositive(r.totalWorkingMediaBudget)
    && ',' !in r.channel && ',' !in r.tactic && ',' !in r.platform
    && CoreAccepted(r)
  }

  /** A row that gives a record gives a well-formed one, with the id of its own row index. */
  lemma RowRecord(row: seq<string>, i: nat, cm: ColumnMap, current: string, stamp: nat -> string)
    ensures var o := RowOutcome(row, i, cm, current, stamp);
      o.row.Some? ==> UploadedRow(o.row.value) && o.row.value.id == RowId(i, stamp)
  {
    if DataRow(row) {
      var f := Resolve(row, cm, current, File);
      var budget := BudgetOf(row, cm.totalWorkingMediaBudget);
      if Acceptable(f, budget) {
        MadeRow(RowId(i, stamp), row, cm, f, budget, File);
        MadeAccepted(RowId(i, stamp), row, cm, f, budget, File);
      }
    }
  }

  /**
   * A row gives a record exactly when it is a data row whose cleaned fields, resolved with
   * the carried channel, and whose budget pass validation.
   */
  lemma RowAccepted(row: seq<string>, i: nat, cm: ColumnMap, current: string, stamp: nat -> string)
    ensures RowOutcome(row, i, cm, current, stamp).row.Some? <==>
      DataRow(row) && Acceptable(Resolve(row, cm, current, File), BudgetOf(row, cm.totalWorkingMediaBudget))
  {
  }

  /** An unmapped audience column gives every record an empty audience. */
  lemma RowNoAudience(row: seq<string>, i: nat, cm: ColumnMap, current: string, stamp: nat -> string)
    requires cm.demoTargeting < 0
    ensures var o := RowOutcome(row, i, cm, current, stamp);
      o.row.Some? ==> o.row.value.demoTargeting == ""
  {
  }

  /** A row that gives a record has a non-blank cell and is not noise. */
  lemma RowKept(row: seq<string>, i: nat, cm: ColumnMap, current: string, stamp: nat -> string)
    ensures RowOutcome(row, i, cm, current, stamp).row.Some? ==> HasData(row) && !Noise(Join(row, "\t"), File)
  {
  }

  lemma StepRecords(cm: ColumnMap, stamp: nat -> string)
    ensures forall row, i, current :: FileStep(cm, stamp)(row, i, current).row.Some? ==>
      UploadedRow(FileStep(cm, stamp)(row, i, current).row.value)
      && FileStep(cm, stamp)(row, i, current).row.value.id == RowId(i, stamp)
  {
    forall row, i, current
      ensures FileStep(cm, stamp)(row, i, current).row.Some? ==>
        UploadedRow(FileStep(cm, stamp)(row, i, current).row.value)
        && FileStep(cm, stamp)(row, i, current).row.value.id == RowId(i, stamp)
    {
      RowRecord(row, i, cm, current, stamp);
    }
  }

  // ------------------------------------------------------------ the carried channel

  /**
   * A row that sets the carried channel: a data row that is not merged and whose cleaned
   * channel cell is not blank, whether or not the row then passes validation.
   */
  predicate SetsChannelRow(row: seq<string>, cm: ColumnMap) {
    DataRow(row) && !MergedRow(row, File) && Filled(Clean(Cell(row, cm.channel)))
  }

  /** The channel such a row sets: its cleaned channel cell, trimmed. */
  function RowChannelSet(row: seq<string>, cm: ColumnMap): string {
    Trim(Clean(Cell(row, cm.channel)))
  }

  function FileSets(cm: ColumnMap): seq<string> -> bool {
    row => SetsChannelRow(row, cm)
  }

  function FileSetValue(cm: ColumnMap): seq<string> -> string {
    row => RowChannelSet(row, cm)
  }

  /** A row carries on the channel it sets, and every other row the channel it was given. */
  lemma RowCarry(row: seq<string>, i: nat, cm: ColumnMap, current: string, stamp: nat -> string)
    ensures RowOutcome(row, i, cm, current, stamp).carried
      == if SetsChannelRow(row, cm) then RowChannelSet(row, cm) else current
  {
    if DataRow(row) {
      var f := Resolve(row, cm, current, File);
      assert RowOutcome(row, i, cm, current, stamp).carried == f.carried;
    } else {
      assert RowOutcome(row, i, cm, current, stamp).carried == current;
    }
  }

  /** The record of a row, if any, has the cleaned form of the channel the row carries on. */
  lemma RowChannel(row: seq<string>, i: nat, cm: ColumnMap, current: string, stamp: nat -> string)
    ensures var o := RowOutcome(row, i, cm, current, stamp);
      o.row.Some? ==> o.row.value.channel == Clean(o.carried)
  {
    if DataRow(row) {
      ResolvedChannel(row, cm, current, File);
    }
  }

  lemma FileStepCarries(cm: ColumnMap, stamp: nat -> string)
    ensures forall row, i, current ::
      FileStep(cm, stamp)(row, i, current).carried == if FileSets(cm)(row) then FileSetValue(cm)(row) else current
  {
    forall row, i, current
      ensures FileStep(cm, stamp)(row, i, current).carried == (if FileSets(cm)(row) then FileSetValue(cm)(row) else current)
    {
      RowCarry(row, i, cm, current, stamp);
    }
  }

  /**
   * The channel carried into row `hi` (and given to a merged or blank-channel row there):
   * the trimmed, cleaned channel cell of the last row above it that sets one, or "" when
   * no row does.
   */
  lemma FileCarriedChannel(t: Table, hi: nat, stamp: nat -> string)
    requires hi <= |t.rows|
    ensures var cm := FileMap(t.headers);
      var j := LastWhere(t.rows, 0, hi, FileSets(cm));
      ScanLines(t.rows, 0, hi, FileStep(cm, stamp)).current == if j < 0 then "" else RowChannelSet(t.rows[j], cm)
  {
    var cm := FileMap(t.headers);
    FileStepCarries(cm, stamp);
    ScanCarries(t.rows, 0, hi, FileStep(cm, stamp), FileSets(cm), FileSetValue(cm));
  }

  /**
   * No accepted row is dropped: a data row `k` whose cleaned fields, resolved with the channel
   * of the last row above it that sets one ("" when none does), pass validation with its
   * budget gives a record of the file, the one made from that row.
   */
  lemma ConvertComplete(t: Table, stamp: nat -> string, k: nat)
    requires k < |t.rows|
    ensures var cm := FileMap(t.headers);
      var j := LastWhere(t.rows, 0, k, FileSets(cm));
      var current := if j < 0 then "" else RowChannelSet(t.rows[j], cm);
      var f := Resolve(t.rows[k], cm, current, File);
      var budget := BudgetOf(t.rows[k], cm.totalWorkingMediaBudget);
      DataRow(t.rows[k]) && Acceptable(f, budget) ==>
        MakeRow(RowId(k, stamp), t.rows[k], cm, f, budget, File) in Convert(t, stamp)
  {
    var cm := FileMap(t.headers);
    var j := LastWhere(t.rows, 0, k, FileSets(cm));
    var current := if j < 0 then "" else RowChannelSet(t.rows[j], cm);
    var f := Resolve(t.rows[k], cm, current, File);
    var budget := BudgetOf(t.rows[k], cm.totalWorkingMediaBudget);
    if DataRow(t.rows[k]) && Acceptable(f, budget) {
      FileCarriedChannel(t, k, stamp);
      assert ScanLines(t.rows, 0, k, FileStep(cm, stamp)).current == current;
      var o := RowOutcome(t.rows[k], k, cm, current, stamp);
      assert o.row == Some(MakeRow(RowId(k, stamp), t.rows[k], cm, f, budget, File));
      assert FileStep(cm, stamp)(t.rows[k], k, current) == o;
      ScanComplete(t.rows, 0, |t.rows|, FileStep(cm, stamp), k);
    }
  }

  /** Every row of a file is selected, categorised, with empty dates, a positive budget and comma-free names. */
  lemma ConvertWellFormed(t: Table, stamp: nat -> string)
    ensures forall r :: r in Convert(t, stamp) ==> UploadedRow(r)
  {
    StepRecords(FileMap(t.headers), stamp);
    ScanKeeps(t.rows, 0, |t.rows|, FileStep(FileMap(t.headers), stamp), UploadedRow);
  }

  /** The rows of a file have pairwise distinct ids. */
  lemma ConvertIdsDistinct(t: Table, stamp: nat -> string)
    ensures DistinctIds(Convert(t, stamp))
  {
    StepRecords(FileMap(t.headers), stamp);
    ScanIdsDistinct(t.rows, 0, |t.rows|, FileStep(FileMap(t.headers), stamp), stamp);
  }

  /** At most one record per data row. */
  lemma ConvertBound(t: Table, stamp: nat -> string)
    ensures |Convert(t, stamp)| <= |t.rows|
  {
    ScanLength(t.rows, 0, |t.rows|, FileStep(FileMap(t.headers), stamp));
  }

  /** `convertToBlockingChartRows`. */
  method ConvertToBlockingChartRows(t: Table, stamp: nat -> string) returns (rows: seq<Row>)
    ensures rows == Convert(t, stamp)
  {
    var columnMap := MapColumns(t.headers, File);
    var currentChannel;
    rows, currentChannel := ScanData(t.rows, 0, FileStep(columnMap, stamp));
  }

  // ------------------------------------------------------------ review before import

  /** `handleRowToggle`: flip `selected` on the rows with this id. */
  function Toggle(rows: seq<Row>, id: string): (r: seq<Row>)
    ensures |r| == |rows|
  {
    seq(|rows|, k requires 0 <= k < |rows| => if rows[k].id == id then rows[k].(selected := !rows[k].selected) else rows[k])
  }

  /** Toggling changes only the matching rows, and only their selection. */
  lemma ToggleOnly(rows: seq<Row>, id: string)
    ensures forall k :: 0 <= k < |rows| && rows[k].id != id ==> Toggle(rows, id)[k] == rows[k]
    ensures forall k :: 0 <= k < |rows| && rows[k].id == id ==>
      Toggle(rows, id)[k].selected == !rows[k].selected && Toggle(rows, id)[k].(selected := rows[k].selected) == rows[k]
  {
  }

  /** Toggling twice restores the rows. */
  lemma ToggleTwice(rows: seq<Row>, id: string)
    ensures Toggle(Toggle(rows, id), id) == rows
  {
    var r := Toggle(Toggle(rows, id), id);
    assert forall k :: 0 <= k < |rows| ==> r[k] == rows[k];
  }

  predicate AllSelected(rows: seq<Row>) {
    forall k :: 0 <= k < |rows| ==> rows[k].selected
  }

  /** `handleSelectAll`: every row's `selected` becomes the negation of "all are selected". */
  function SelectAll(rows: seq<Row>): (r: seq<Row>)
    ensures |r| == |rows|
  {
    var all := AllSelected(rows);
    seq(|rows|, k requires 0 <= k < |rows| => rows[k].(selected := !all))
  }

  /** After select-all the rows agree on `selected`, which is the opposite of "all were selected"; nothing else changes. */
  lemma SelectAllSpec(rows: seq<Row>)
    ensures forall k :: 0 <= k < |rows| ==> SelectAll(rows)[k].selected == !AllSelected(rows)
    ensures forall k :: 0 <= k < |rows| ==> SelectAll(rows)[k].(selected := rows[k].selected) == rows[k]
    ensures rows != [] ==> (AllSelected(SelectAll(rows)) <==> !AllSelected(rows))
  {
    if rows != [] && AllSelected(rows) {
      assert !SelectAll(rows)[0].selected;
    }
  }

  /** `handleCategoryChange`: set the category of the rows with this id. */
  function ChangeCategory(rows: seq<Row>, id: string, c: Option<Category>): (r: seq<Row>)
    ensures |r| == |rows|
  {
    seq(|rows|, k requires 0 <= k < |rows| => if rows[k].id == id then rows[k].(category := c) else rows[k])
  }

  /** A category change touches only the matching rows' category. */
  lemma ChangeCategoryOnly(rows: seq<Row>, id: string, c: Option<Category>)
    ensures forall k :: 0 <= k < |rows| && rows[k].id != id ==> ChangeCategory(rows, id, c)[k] == rows[k]
    ensures forall k :: 0 <= k < |rows| && rows[k].id == id ==>
      ChangeCategory(rows, id, c)[k] == rows[k].(category := c)
    ensures forall k :: 0 <= k < |rows| ==> ChangeCategory(rows, id, c)[k].selected == rows[k].selected
  {
  }

  /** A manual flighting entry: the date pickers store a start and an end under each key. */
  datatype Flight = Flight(start: string, end: string)

  function StartKey(id: string): string { id + "_start" }

  function EndKey(id: string): string { id + "_end" }

  /** `x || y || ''` for the dates of one row. */
  function FlightStart(r: Row, flighting: map<string, Flight>): string {
    if StartKey(r.id) in flighting && flighting[StartKey(r.id)].start != "" then flighting[StartKey(r.id)].start
    else if r.startDate.Some? && r.startDate.value != "" then r.startDate.value
    else ""
  }

  function FlightEnd(r: Row, flighting: map<string, Flight>): string {
    if EndKey(r.id) in flighting && flighting[EndKey(r.id)].end != "" then flighting[EndKey(r.id)].end
    else if r.endDate.Some? && r.endDate.value != "" then r.endDate.value
    else ""
  }

  function SelectedRows(rows: seq<Row>): (r: seq<Row>)
    ensures |r| <= |rows|
  {
    if rows == [] then [] else (if rows[0].selected then [rows[0]] else []) + SelectedRows(rows[1..])
  }

  /** `handleImport`: the selected rows with their dates filled in, or an error when none is selected. */
  function HandleImport(rows: seq<Row>, flighting: map<string, Flight>): (r: Result<seq<Row>>)
    ensures r.Err? ==> r.message == "Please select at least one row to import"
  {
    var chosen := SelectedRows(rows);
    if chosen == [] then Err("Please select at least one row to import")
    else Ok(seq(|chosen|, k requires 0 <= k < |chosen| =>
      chosen[k].(startDate := Some(FlightStart(chosen[k], flighting)), endDate := Some(FlightEnd(chosen[k], flighting)))))
  }

  /** The selected rows are exactly the rows whose `selected` is set, in order. */
  lemma {:induction false} SelectedRowsSpec(rows: seq<Row>)
    ensures forall r :: r in SelectedRows(rows) <==> r in rows && r.selected
  {
    if rows != [] {
      SelectedRowsSpec(rows[1..]);
      assert rows == [rows[0]] + rows[1..];
    }
  }

  /** Import fails exactly when no row is selected, and then imports nothing. */
  lemma ImportNeedsSelection(rows: seq<Row>, flighting: map<string, Flight>)
    ensures HandleImport(rows, flighting).Err? <==> forall k :: 0 <= k < |rows| ==> !rows[k].selected
  {
    SelectedRowsSpec(rows);
    if SelectedRows(rows) != [] {
      var r := SelectedRows(rows)[0];
      assert r in SelectedRows(rows);
      var k :| 0 <= k < |rows| && rows[k] == r;
    } else {
      forall k | 0 <= k < |rows| ensures !rows[k].selected {
        assert rows[k] in rows;
      }
    }
  }

  /** An imported row is a selected row with only its dates changed. */
  lemma ImportRows(rows: seq<Row>, flighting: map<string, Flight>)
    ensures var r := HandleImport(rows, flighting);
      r.Ok? ==> (|r.value| == |SelectedRows(rows)|
        && forall k :: 0 <= k < |r.value| ==>
          r.value[k].(startDate := SelectedRows(rows)[k].startDate, endDate := SelectedRows(rows)[k].endDate)
          == SelectedRows(rows)[k] && r.value[k].selected)
  {
    SelectedRowsSpec(rows);
    var chosen := SelectedRows(rows);
    forall k | 0 <= k < |chosen| ensures chosen[k].selected {
      assert chosen[k] in chosen;
    }
  }

  /** `copyFlighting`: copy a row's start and end when both entries exist; else keep what was copied. */
  function CopyFlighting(flighting: map<string, Flight>, id: string, copied: Option<Flight>): (r: Option<Flight>)
    ensures StartKey(id) in flighting && EndKey(id) in flighting ==>
      r == Some(Flight(flighting[StartKey(id)].start, flighting[EndKey(id)].end))
    ensures !(StartKey(id) in flighting && EndKey(id) in flighting) ==> r == copied
  {
    if StartKey(id) in flighting && EndKey(id) in flighting then
      Some(Flight(flighting[StartKey(id)].start, flighting[EndKey(id)].end))
    else copied
  }

  /** `pasteFlighting`: write the copied dates under both of a row's keys; nothing when nothing was copied. */
  function PasteFlighting(flighting: map<string, Flight>, id: string, copied: Option<Flight>): map<string, Flight> {
    if copied.None? then flighting
    else
      var c := copied.value;
      flighting[StartKey(id) := Flight(c.start, c.start)][EndKey(id) := Flight(c.end, c.end)]
  }

  lemma KeysDiffer(id: string)
    ensures StartKey(id) != EndKey(id)
  {
    assert |StartKey(id)| == |id| + 6;
    assert |EndKey(id)| == |id| + 4;
  }

  /** Pasting onto a row, then copying from it, gives back what was pasted. */
  lemma PasteThenCopy(flighting: map<string, Flight>, id: string, c: Flight, other: Option<Flight>)
    ensures CopyFlighting(PasteFlighting(flighting, id, Some(c)), id, other) == Some(c)
  {
    KeysDiffer(id);
  }

  /** Pasting touches only the two keys of that row. */
  lemma PasteOnly(flighting: map<string, Flight>, id: string, copied: Option<Flight>, key: string)
    requires key != StartKey(id) && key != EndKey(id)
    ensures key in PasteFlighting(flighting, id, copied) <==> key in flighting
    ensures key in flighting ==> PasteFlighting(flighting, id, copied)[key] == flighting[key]
  {
  }

  /** Pasted non-empty dates are the dates the row is imported with. */
  lemma PasteThenImport(r: Row, flighting: map<string, Flight>, c: Flight)
    requires c.start != "" && c.end != ""
    ensures FlightStart(r, PasteFlighting(flighting, r.id, Some(c))) == c.start
    ensures FlightEnd(r, PasteFlighting(flighting, r.id, Some(c))) == c.end
  {
    KeysDiffer(r.id);
  }
}
