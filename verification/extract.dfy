/**
 * The per-line rules both parsers share, each with the two paths' differences behind a
 * `Source` flag: value cleaning, the noise-row filter, merged-cell detection and the
 * carried channel, budget resolution, acceptance and the emitted row
 * (src/utils/blockingChartParser.ts:63-251 and
 * src/components/Import/FileBasedBlockingChartImport.tsx:317-511).
 */
module Extract {
  import opened Options
  import opened Text
  import opened Patterns
  import opened Rows

  // ------------------------------------------------------------ cleanValue

  /** `s.replace(/c/g, '')`. */
  function Without(s: string, c: char): (r: string)
    ensures c !in r
    ensures |r| == |s| - Count(s, c)
  {
    if s == [] then [] else (if s[0] == c then [] else [s[0]]) + Without(s[1..], c)
  }

  /** `cleanValue`: trim, drop one leading `$`, drop every comma. */
  function Clean(v: string): (r: string)
    ensures ',' !in r
  {
    var t := Trim(v);
    Without(if |t| > 0 && t[0] == '$' then t[1..] else t, ',')
  }

  lemma {:induction false} WithoutIdempotent(s: string, c: char)
    requires c !in s
    ensures Without(s, c) == s
  {
    if s != [] {
      assert c !in s[1..] by { assert forall i :: 0 <= i < |s[1..]| ==> s[1..][i] == s[i + 1]; }
      WithoutIdempotent(s[1..], c);
    }
  }

  /** A cleaned value with no edge whitespace and no leading `$` is a fixed point of cleaning. */
  lemma CleanFixedPoint(v: string)
    requires var r := Clean(v); r == [] || (!IsSpace(r[0]) && !IsSpace(r[|r| - 1]) && r[0] != '$')
    ensures Clean(Clean(v)) == Clean(v)
  {
    var r := Clean(v);
    if r != [] { TrimOfNoSpace(r); }
    WithoutIdempotent(r, ',');
  }

  /** On text without whitespace or commas, cleaning only drops one leading `$`. */
  lemma CleanPlain(s: string)
    requires NoSpace(s) && ',' !in s
    ensures Clean(s) == if |s| > 0 && s[0] == '$' then s[1..] else s
  {
    TrimOfNoSpace(s);
    var u := if |s| > 0 && s[0] == '$' then s[1..] else s;
    assert ',' !in u;
    WithoutIdempotent(u, ',');
  }

  /** Cleaning is not idempotent: a second `$` survives one pass and not two. */
  lemma CleanTwiceDiffers()
    ensures Clean("$$5") == "$5" && Clean(Clean("$$5")) == "5"
  {
    CleanPlain("$$5");
    assert "$$5"[1..] == "$5";
    CleanPlain("$5");
    assert "$5"[1..] == "5";
  }

  /** An empty cell cleans to the empty string. */
  lemma CleanEmpty()
    ensures Clean("") == ""
  {
  }

  // ------------------------------------------------------------ noise rows

  const Months: seq<string> := ["september", "october", "november", "december", "january", "february",
    "march", "april", "may", "june", "july", "august"]

  /** `line.replace(/[\d\s]/g, '').length`: the characters that are neither digits nor whitespace. */
  function OtherCount(s: string): (n: nat)
    ensures n <= |s|
  {
    if s == [] then 0 else (if IsDigit(s[0]) || IsSpace(s[0]) then 0 else 1) + OtherCount(s[1..])
  }

  /** The filter both paths apply: totals, separators, calendar rows, near-empty rows. */
  predicate CommonNoise(line: string) {
    var l := Lower(line);
    Contains(l, "total") || Contains(l, "subtotal") || Contains(l, "grand total") || IsNumberLine(l)
    || (Contains(l, "digital video") && !Contains(l, "trade desk"))
    || (Contains(l, "digital display") && !Contains(l, "trade desk"))
    || (Contains(l, "paid social") && !Contains(l, "meta") && !Contains(l, "tiktok"))
    || IsChannelWordLine(l) || ContainsAny(l, Months) || HasCalendarRun(l) || OtherCount(line) < 10
  }

  /** The file path's extra filter for variance, rate-card and pre-bid sections. */
  predicate FileExtraNoise(line: string) {
    var l := Lower(line);
    Contains(l, "variance") || Contains(l, "rates") || Contains(l, "adserving")
    || (Contains(l, "channels") && Contains(l, "rates")) || Contains(l, "pre-bid") || Contains(l, "y/n")
    || (Contains(l, "youtube") && Contains(l, "cpm"))
    || (Contains(l, "meta") && Contains(l, "cpm") && !Contains(l, "video") && !Contains(l, "traffic"))
    || (Contains(l, "tiktok") && Contains(l, "no associated")) || (Contains(l, "ttd") && Contains(l, "cpm"))
    || (Contains(l, "amz") && Contains(l, "cpm"))
  }

  predicate Noise(line: string, src: Source) {
    CommonNoise(line) || (src == File && FileExtraNoise(line))
  }

  /** Every row the paste path drops as noise, the file path drops too. */
  lemma FileNoiseWider(line: string)
    ensures Noise(line, Paste) ==> Noise(line, File)
  {
  }

  /** The "subtotal" and "grand total" tests add nothing to the "total" test. */
  lemma TotalTestsRedundant(l: string)
    ensures (Contains(l, "total") || Contains(l, "subtotal") || Contains(l, "grand total")) <==> Contains(l, "total")
  {
    if Contains(l, "subtotal") {
      assert OccursAt("subtotal", "total", 3);
      ContainsTrans(l, "subtotal", "total");
    }
    if Contains(l, "grand total") {
      assert OccursAt("grand total", "total", 6);
      ContainsTrans(l, "grand total", "total");
    }
  }

  // ------------------------------------------------------------ merged-cell detection

  const PasteFragments: seq<string> := ["skippable", "display banners", "meta video", "meta traffic",
    "tiktok in-feed", "static pins", "standard video pins", "idea ads"]

  const LocaleFragments: seq<string> := ["display banners fr", "meta video fr", "meta traffic fr",
    "static pins en", "static pins fr", "standard video pins fr", "idea ads fr"]

  function Fragments(src: Source): seq<string> {
    if src == Paste then PasteFragments else PasteFragments + LocaleFragments
  }

  /** Each locale fragment starts with one of the base fragments. */
  lemma LocaleFragmentCovered(f: string) returns (base: string)
    requires f in LocaleFragments
    ensures base in PasteFragments && OccursAt(f, base, 0)
  {
    if f == "display banners fr" { base := "display banners"; }
    else if f == "meta video fr" { base := "meta video"; }
    else if f == "meta traffic fr" { base := "meta traffic"; }
    else if f == "static pins en" || f == "static pins fr" { base := "static pins"; }
    else if f == "standard video pins fr" { base := "standard video pins"; }
    else { base := "idea ads"; }
  }

  /** The file path's " fr"/" en" fragments are redundant: both paths detect the same merged rows. */
  lemma FragmentsAgree(first: string)
    ensures ContainsAny(first, Fragments(File)) <==> ContainsAny(first, Fragments(Paste))
  {
    if ContainsAny(first, Fragments(File)) {
      var f :| f in Fragments(File) && Contains(first, f);
      if f in LocaleFragments {
        var base := LocaleFragmentCovered(f);
        ContainsTrans(first, f, base);
      }
    }
  }

  /** Field 0 holds a tactic, so the channel column is missing from this row. */
  predicate MergedRow(values: seq<string>, src: Source) {
    ContainsAny(Lower(Cell(values, 0)), Fragments(src))
  }

  // ------------------------------------------------------------ field resolution

  /** The fields a data line resolves to, and the channel carried on to the next line. */
  datatype Fields = Fields(merged: bool, channel: string, tactic: string, platform: string,
    objective: string, placements: string, carried: string)

  /** The file path cleans each cell as it reads it; the paste path reads it as tokenised. */
  function Read(values: seq<string>, i: int, src: Source): string {
    if src == File then Clean(Cell(values, i)) else Cell(values, i)
  }

  /** `x && x.trim()`: present and not blank. */
  predicate Filled(s: string) {
    s != "" && Trim(s) != ""
  }

  /** `values.some(val => val && val.trim())`: some cell is not blank. */
  predicate HasData(values: seq<string>) {
    exists k :: 0 <= k < |values| && Filled(values[k])
  }

  /**
   * Merged rows take channel from `current` and the rest from fields 0-3; other rows
   * read the mapped columns, and a non-blank channel cell becomes the new carried
   * channel. A blank channel falls back to the carried one.
   */
  function Resolve(values: seq<string>, cm: ColumnMap, current: string, src: Source): (f: Fields)
    ensures f.merged <==> MergedRow(values, src)
    ensures f.merged ==> f.carried == current && f.channel == current
    ensures !f.merged ==> f.carried == (if Filled(Read(values, cm.channel, src)) then Trim(Read(values, cm.channel, src)) else current)
    ensures !f.merged && Filled(Read(values, cm.channel, src)) ==> f.channel == Read(values, cm.channel, src)
    ensures !f.merged && !Filled(Read(values, cm.channel, src)) ==> f.channel == current
    ensures !Filled(f.channel) ==> f.channel == current
  {
    var merged := MergedRow(values, src);
    var channel0 := if merged then current else Read(values, cm.channel, src);
    var carried := if !merged && Filled(channel0) then Trim(channel0) else current;
    var channel := if Filled(channel0) then channel0 else carried;
    if merged then
      Fields(true, channel, Read(values, 0, src), Read(values, 1, src), Read(values, 2, src), Read(values, 3, src), carried)
    else
      Fields(false, channel, Read(values, cm.tactic, src), Read(values, cm.platform, src),
        Read(values, cm.objective, src), Read(values, cm.placements, src), carried)
  }

  /** The channel a line resolves to and the channel it carries on clean to the same text. */
  lemma ResolvedChannel(values: seq<string>, cm: ColumnMap, current: string, src: Source)
    ensures Clean(Resolve(values, cm, current, src).channel) == Clean(Resolve(values, cm, current, src).carried)
  {
    TrimIdempotent(Read(values, cm.channel, src));
  }

  // ------------------------------------------------------------ budget

  /** The fallback test: a positive amount up to 500000 that has a point or is below 100000. */
  predicate BudgetLike(val: string) {
    var v := ParseFloat(val);
    v.Some? && 0.0 < v.value <= 500000.0 && ('.' in val || v.value < 100000.0)
  }

  /** The mapped budget cell, cleaned, when the column is mapped and the amount is positive; else "". */
  function PrimaryBudget(values: seq<string>, col: int): string {
    if col >= 0 && Cell(values, col) != "" && ParsesPositive(Clean(Cell(values, col))) then Clean(Cell(values, col))
    else ""
  }

  /** Whether a field looks like a budget once cleaned. */
  predicate BudgetField(v: string) {
    BudgetLike(Clean(v))
  }

  /** The rightmost cleaned field that looks like a budget, or "". */
  function FallbackBudget(values: seq<string>): string {
    var j := LastWhere(values, 0, |values|, BudgetField);
    if j >= 0 then Clean(values[j]) else ""
  }

  function BudgetOf(values: seq<string>, col: int): string {
    var p := PrimaryBudget(values, col);
    if p != "" then p else FallbackBudget(values)
  }

  /** The fallback loop: from the rightmost field leftwards, the first budget-like cleaned field. */
  method ScanBudget(values: seq<string>) returns (budget: string)
    ensures budget == FallbackBudget(values)
  {
    budget := "";
    var j := |values| - 1;
    while j >= 0
      invariant -1 <= j < |values|
      invariant LastWhere(values, 0, j + 1, BudgetField) == LastWhere(values, 0, |values|, BudgetField)
    {
      var val := Clean(values[j]);
      if BudgetLike(val) {
        budget := val;
        return;
      }
      j := j - 1;
    }
  }

  /** Budget resolution: the mapped column first, then the right-to-left scan. */
  method ResolveBudget(values: seq<string>, col: int) returns (budget: string)
    ensures budget == BudgetOf(values, col)
  {
    budget := "";
    if col >= 0 && col < |values| && values[col] != "" {
      var budgetVal := Clean(values[col]);
      if ParsesPositive(budgetVal) {
        budget := budgetVal;
      }
    }
    if budget == "" {
      budget := ScanBudget(values);
    }
  }

  /** A budget-like text is never empty. */
  lemma BudgetLikeNonEmpty(val: string)
    requires BudgetLike(val)
    ensures val != ""
  {
  }

  lemma FallbackBudgetSpec(values: seq<string>)
    ensures FallbackBudget(values) == "" <==> forall j :: 0 <= j < |values| ==> !BudgetLike(Clean(values[j]))
    ensures FallbackBudget(values) != "" ==>
      exists j :: 0 <= j < |values| && BudgetLike(Clean(values[j])) && FallbackBudget(values) == Clean(values[j])
        && forall k :: j < k < |values| ==> !BudgetLike(Clean(values[k]))
  {
    var j := LastWhere(values, 0, |values|, BudgetField);
    if j >= 0 {
      BudgetLikeNonEmpty(Clean(values[j]));
    }
  }

  /**
   * The budget: the cleaned mapped cell when it parses positive, whatever its size;
   * otherwise the rightmost budget-like cleaned field; otherwise "".
   */
  lemma BudgetSpec(values: seq<string>, col: int)
    ensures col >= 0 && ParsesPositive(Clean(Cell(values, col))) ==> BudgetOf(values, col) == Clean(Cell(values, col))
    ensures !(col >= 0 && ParsesPositive(Clean(Cell(values, col)))) ==>
      (BudgetOf(values, col) == "" <==> forall j :: 0 <= j < |values| ==> !BudgetLike(Clean(values[j])))
    ensures !(col >= 0 && ParsesPositive(Clean(Cell(values, col)))) && BudgetOf(values, col) != "" ==>
      exists j :: 0 <= j < |values| && BudgetOf(values, col) == Clean(values[j]) && BudgetLike(Clean(values[j]))
        && forall k :: j < k < |values| ==> !BudgetLike(Clean(values[k]))
  {
    FallbackBudgetSpec(values);
    if col >= 0 && ParsesPositive(Clean(Cell(values, col))) {
      assert Cell(values, col) != "";
    }
  }

  /** A resolved budget is empty or parses to a positive amount. */
  lemma BudgetPositive(values: seq<string>, col: int)
    ensures BudgetOf(values, col) != "" ==> ParsesPositive(BudgetOf(values, col))
  {
    FallbackBudgetSpec(values);
  }

  // ------------------------------------------------------------ acceptance and the emitted row

  /** `hasValidCampaignData`. */
  predicate Acceptable(f: Fields, budget: string) {
    Filled(f.channel) && f.channel != "Channel" && Filled(f.tactic) && f.tactic != "Tactic"
    && Filled(f.platform) && f.platform != "Platform" && Filled(f.objective) && Filled(f.placements)
    && budget != "" && ParsesPositive(budget)
  }

  /** `row_${i}_${Date.now()}_${random}`, with the time and random parts supplied by `stamp`. */
  function RowId(i: nat, stamp: nat -> string): string {
    "row_" + NatStr(i) + "_" + stamp(i)
  }

  /** In an id, the index's digits run from position 4 up to the first `_` after the prefix. */
  lemma IdDigits(a: string, rest: string)
    requires AllDigits(a)
    ensures forall k :: 4 <= k < 4 + |a| ==> ("row_" + a + "_" + rest)[k] != '_'
    ensures ("row_" + a + "_" + rest)[4 + |a|] == '_'
  {
    var x := "row_" + a + "_" + rest;
    forall k | 4 <= k < 4 + |a|
      ensures x[k] != '_'
    {
      assert x[k] == a[k - 4];
    }
  }

  /** Distinct line indices give distinct ids, whatever the time and random parts are. */
  lemma RowIdInjective(i: nat, j: nat, stamp: nat -> string)
    requires RowId(i, stamp) == RowId(j, stamp)
    ensures i == j
  {
    var a, b := NatStr(i), NatStr(j);
    var x := RowId(i, stamp);
    IdDigits(a, stamp(i));
    IdDigits(b, stamp(j));
    assert |a| == |b|;
    assert a == x[4..4 + |a|] == b;
    NatStrValue(i);
    NatStrValue(j);
  }

  /** The emitted record: every text field cleaned (a second time for the file path's fields). */
  function MakeRow(id: string, values: seq<string>, cm: ColumnMap, f: Fields, budget: string, src: Source): Row
  {
    var dates := if src == File then Some("") else None;
    Row(id, Clean(f.channel), Clean(f.tactic), Clean(f.platform), Clean(f.objective), Clean(f.placements),
      Clean(Cell(values, cm.optimization)), Clean(Cell(values, cm.kpi)),
      if src == File && cm.demoTargeting < 0 then "" else Clean(Cell(values, cm.demoTargeting)),
      Clean(Cell(values, cm.cpmCpp)),
      Clean(Cell(values, if f.merged then cm.impressionsGrps - 1 else cm.impressionsGrps)),
      Clean(Cell(values, cm.mediaCost)), Clean(Cell(values, cm.adServing)), Clean(Cell(values, cm.dvCost)),
      Clean(Cell(values, cm.mediaFee)), budget,
      Some(Categorize(f.channel, f.platform, src)), true, dates, dates)
  }

  /** The emitted record keeps the id and the budget, is selected and categorised, and has no commas in its names. */
  lemma MadeRow(id: string, values: seq<string>, cm: ColumnMap, f: Fields, budget: string, src: Source)
    ensures var r := MakeRow(id, values, cm, f, budget, src);
      r.id == id && r.totalWorkingMediaBudget == budget && r.selected && r.category.Some?
      && (r.startDate.Some? <==> src == File) && r.startDate == r.endDate
      && ',' !in r.channel && ',' !in r.tactic && ',' !in r.platform
  {
  }

  /**
   * A stored field that passed acceptance: the cleaned form of a present, non-blank value
   * other than the column's header word.
   */
  ghost predicate AcceptedAs(stored: string, header: string) {
    exists x :: Filled(x) && x != header && stored == Clean(x)
  }

  /**
   * The five core fields of a record passed acceptance; objective and placements have no
   * header word to exclude, and "" excludes nothing since a filled value is never empty.
   */
  ghost predicate CoreAccepted(r: Row) {
    AcceptedAs(r.channel, "Channel") && AcceptedAs(r.tactic, "Tactic") && AcceptedAs(r.platform, "Platform")
    && AcceptedAs(r.objective, "") && AcceptedAs(r.placements, "")
  }

  /** An accepted line's record stores the cleaned form of each value that passed validation. */
  lemma MadeAccepted(id: string, values: seq<string>, cm: ColumnMap, f: Fields, budget: string, src: Source)
    requires Acceptable(f, budget)
    ensures CoreAccepted(MakeRow(id, values, cm, f, budget, src))
  {
    var r := MakeRow(id, values, cm, f, budget, src);
    assert Filled(f.channel) && f.channel != "Channel" && r.channel == Clean(f.channel);
    assert Filled(f.tactic) && f.tactic != "Tactic" && r.tactic == Clean(f.tactic);
    assert Filled(f.platform) && f.platform != "Platform" && r.platform == Clean(f.platform);
    assert Filled(f.objective) && f.objective != "" && r.objective == Clean(f.objective);
    assert Filled(f.placements) && f.placements != "" && r.placements == Clean(f.placements);
  }

  /** The file path's `demoTargeting >= 0` guard changes nothing: an unmapped column reads as "". */
  lemma DemoGuardRedundant(values: seq<string>, cm: ColumnMap)
    requires cm.demoTargeting < 0
    ensures Clean(Cell(values, cm.demoTargeting)) == ""
  {
  }

  /**
   * A whole amount written in plain digits is kept as is by cleaning, parses to the number
   * it denotes, and looks like a budget exactly when that number is positive and below 100000.
   */
  lemma WholeBudget(w: string)
    requires |w| > 0 && AllDigits(w)
    ensures Clean(w) == w && ParseFloat(w) == Some(DigitsValue(w) as real)
    ensures BudgetLike(w) <==> 0 < DigitsValue(w) < 100000
  {
    assert NoSpace(w) && ',' !in w by {
      forall i | 0 <= i < |w| ensures !IsSpace(w[i]) && w[i] != ',' {
        assert IsDigit(w[i]);
      }
    }
    CleanPlain(w);
    ParseDigits(w);
    assert '.' !in w by {
      forall i | 0 <= i < |w| ensures w[i] != '.' {
        assert IsDigit(w[i]);
      }
    }
  }

  /** "5" parses to 5 and looks like a budget. */
  lemma FiveIsBudget()
    ensures Clean("5") == "5" && ParseFloat("5") == Some(5.0) && BudgetLike("5")
  {
    assert DigitsValue("5") == 5 by {
      assert "5"[..0] == "";
    }
    WholeBudget("5");
  }

  /** A non-empty cell without whitespace is filled. */
  lemma FilledPlain(s: string)
    requires s != [] && NoSpace(s)
    ensures Filled(s)
  {
    TrimOfNoSpace(s);
  }

  lemma DollarFilled()
    ensures Filled("$")
  {
    FilledPlain("$");
  }

  lemma DollarClean()
    ensures Clean("$") == ""
  {
    CleanPlain("$");
  }

  lemma DollarNotFragment()
    ensures !ContainsAny(Lower("$"), PasteFragments)
  {
    assert Lower("$") == "$";
    forall key | key in PasteFragments ensures !Contains("$", key) {
      NotContained("$", key);
    }
  }

  /** A row whose channel cell holds only "$", with plain words in the next four cells and a budget of 5. */
  predicate DollarChannelRow(values: seq<string>) {
    |values| == 6 && values[0] == "$" && values[5] == "5"
    && (forall k :: 1 <= k < 5 ==> values[k] != "" && NoSpace(values[k]))
    && values[1] != "Tactic" && values[2] != "Platform"
  }

  /** Six fields ending in 5, with no budget column mapped: the budget is 5. */
  lemma DollarChannelBudget(values: seq<string>, col: int)
    requires |values| == 6 && values[5] == "5" && col < 0
    ensures BudgetOf(values, col) == "5"
  {
    FiveIsBudget();
    assert LastWhere(values, 0, 6, BudgetField) == 5;
    assert PrimaryBudget(values, col) == "";
  }

  lemma DollarChannelFields(values: seq<string>, cm: ColumnMap)
    requires DollarChannelRow(values)
    requires cm.channel == 0 && cm.tactic == 1 && cm.platform == 2 && cm.objective == 3 && cm.placements == 4
    ensures Resolve(values, cm, "", Paste) == Fields(false, "$", values[1], values[2], values[3], values[4], "$")
  {
    DollarFilled();
    DollarClean();
    DollarNotFragment();
    TrimOfNoSpace("$");
  }

  /**
   * The paste path validates the raw cells but stores cleaned ones, so a channel cell
   * holding only "$" is accepted and stored as the empty string.
   */
  lemma PasteStoresEmptyChannel(values: seq<string>, cm: ColumnMap)
    requires DollarChannelRow(values)
    requires cm.channel == 0 && cm.tactic == 1 && cm.platform == 2 && cm.objective == 3 && cm.placements == 4
    requires cm.totalWorkingMediaBudget < 0
    ensures var f := Resolve(values, cm, "", Paste);
      var b := BudgetOf(values, cm.totalWorkingMediaBudget);
      Acceptable(f, b) && MakeRow("r", values, cm, f, b, Paste).channel == ""
  {
    PasteAcceptsDollar(values, cm);
    DollarChannelFields(values, cm);
    DollarClean();
  }

  lemma PasteAcceptsDollar(values: seq<string>, cm: ColumnMap)
    requires DollarChannelRow(values)
    requires cm.channel == 0 && cm.tactic == 1 && cm.platform == 2 && cm.objective == 3 && cm.placements == 4
    requires cm.totalWorkingMediaBudget < 0
    ensures Acceptable(Resolve(values, cm, "", Paste), BudgetOf(values, cm.totalWorkingMediaBudget))
  {
    DollarChannelFields(values, cm);
    DollarChannelBudget(values, cm.totalWorkingMediaBudget);
    DollarFieldsAccepted(values);
  }

  lemma DollarFieldsAccepted(values: seq<string>)
    requires DollarChannelRow(values)
    ensures Acceptable(Fields(false, "$", values[1], values[2], values[3], values[4], "$"), "5")
  {
    forall k | 1 <= k < 5 ensures Filled(values[k]) {
      FilledPlain(values[k]);
    }
    DollarFilled();
    FiveIsBudget();
  }

  /** A non-empty run of lower-case letters. */
  predicate Word(s: string) {
    s != [] && forall k :: 0 <= k < |s| ==> 'a' <= s[k] <= 'z'
  }

  lemma WordCell(s: string)
    requires Word(s)
    ensures Filled(s) && Clean(s) == s
  {
    FilledPlain(s);
    CleanPlain(s);
  }

  lemma DoubleDollarClean()
    ensures Clean("$$") == "$"
  {
    CleanPlain("$$");
  }

  lemma DoubleDollarNotFragment()
    ensures !ContainsAny(Lower("$$"), PasteFragments)
  {
    assert Lower("$$") == "$$";
    forall key | key in PasteFragments ensures !Contains("$$", key) {
      NotContained("$$", key);
    }
  }

  /** A spreadsheet row whose channel cell holds "$$", with words in the next four cells and a budget of 5. */
  predicate DoubleDollarRow(values: seq<string>) {
    |values| == 6 && values[0] == "$$" && values[5] == "5" && forall k :: 1 <= k < 5 ==> Word(values[k])
  }

  lemma DoubleDollarReads(values: seq<string>, cm: ColumnMap)
    requires DoubleDollarRow(values)
    requires cm.channel == 0 && cm.tactic == 1 && cm.platform == 2 && cm.objective == 3 && cm.placements == 4
    ensures !MergedRow(values, File) && Read(values, cm.channel, File) == "$"
    ensures Read(values, cm.tactic, File) == values[1] && Read(values, cm.platform, File) == values[2]
    ensures Read(values, cm.objective, File) == values[3] && Read(values, cm.placements, File) == values[4]
  {
    DoubleDollarClean();
    DoubleDollarNotFragment();
    FragmentsAgree(Lower("$$"));
    WordCell(values[1]);
    WordCell(values[2]);
    WordCell(values[3]);
    WordCell(values[4]);
  }

  lemma DoubleDollarFields(values: seq<string>, cm: ColumnMap)
    requires DoubleDollarRow(values)
    requires cm.channel == 0 && cm.tactic == 1 && cm.platform == 2 && cm.objective == 3 && cm.placements == 4
    ensures Resolve(values, cm, "", File) == Fields(false, "$", values[1], values[2], values[3], values[4], "$")
  {
    DoubleDollarReads(values, cm);
    DollarFilled();
    TrimOfNoSpace("$");
  }

  /**
   * The file path validates the once-cleaned cells and stores them cleaned again, so a
   * channel cell holding "$$" is cleaned to "$", accepted, and stored as the empty string.
   */
  lemma FileStoresEmptyChannel(values: seq<string>, cm: ColumnMap)
    requires DoubleDollarRow(values)
    requires cm.channel == 0 && cm.tactic == 1 && cm.platform == 2 && cm.objective == 3 && cm.placements == 4
    requires cm.totalWorkingMediaBudget < 0
    ensures var f := Resolve(values, cm, "", File);
      var b := BudgetOf(values, cm.totalWorkingMediaBudget);
      Acceptable(f, b) && MakeRow("r", values, cm, f, b, File).channel == ""
  {
    FileAcceptsDoubleDollar(values, cm);
    DoubleDollarFields(values, cm);
    DollarClean();
  }

  lemma FileAcceptsDoubleDollar(values: seq<string>, cm: ColumnMap)
    requires DoubleDollarRow(values)
    requires cm.channel == 0 && cm.tactic == 1 && cm.platform == 2 && cm.objective == 3 && cm.placements == 4
    requires cm.totalWorkingMediaBudget < 0
    ensures Acceptable(Resolve(values, cm, "", File), BudgetOf(values, cm.totalWorkingMediaBudget))
  {
    DoubleDollarFields(values, cm);
    DollarChannelBudget(values, cm.totalWorkingMediaBudget);
    WordFieldsAccepted(values);
  }

  lemma WordFieldsAccepted(values: seq<string>)
    requires DoubleDollarRow(values)
    ensures Acceptable(Fields(false, "$", values[1], values[2], values[3], values[4], "$"), "5")
  {
    forall k | 1 <= k < 5 ensures Filled(values[k]) {
      WordCell(values[k]);
    }
    assert values[1] != "Tactic" && values[2] != "Platform" by {
      assert 'a' <= values[1][0] && 'a' <= values[2][0];
    }
    DollarFilled();
    FiveIsBudget();
  }
}
