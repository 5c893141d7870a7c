/**
 * Export of campaigns (src/utils/exportHelpers.ts:1-103, 156-162): one flat row per creative,
 * in campaign, ad set, creative order, and the CSV text of those rows with the text fields
 * quoted as section 2, items 6-7, of RFC 4180 describe. `URLSearchParams` encoding and the
 * conversion of numbers to text are parameters.
 */
module Export {
  import opened Options
  import opened Text
  import opened Types

  /** `ExportRow`. */
  datatype ExportRow = ExportRow(
    campaignName: string, campaignClient: string, campaignStartDate: string, campaignEndDate: string,
    campaignBudget: real, adSetName: string, adSetBudget: real, adSetTargeting: string,
    creativeName: string, creativeAssetType: string, creativeLandingPage: string,
    utmTerm: string, fullUTMUrl: string)

  // ------------------------------------------------------------ rows

  /**
   * `fullUTMUrl`: the landing page, followed by `?utm_term=` and the encoded term when the
   * term is truthy; `encode` is the form encoding `URLSearchParams` applies to the value.
   */
  function FullUtmUrl(landingPage: string, term: Option<string>, encode: string -> string): string {
    if Truthy(term) then landingPage + "?" + "utm_term=" + encode(term.value) else landingPage
  }

  /** The URL is the landing page itself without a term, and starts with it in any case. */
  lemma FullUtmUrlSpec(landingPage: string, term: Option<string>, encode: string -> string)
    ensures !Truthy(term) ==> FullUtmUrl(landingPage, term, encode) == landingPage
    ensures Truthy(term) ==> FullUtmUrl(landingPage, term, encode)[|landingPage|..] == "?utm_term=" + encode(term.value)
    ensures StartsWith(FullUtmUrl(landingPage, term, encode), landingPage)
  {
    if Truthy(term) {
      assert FullUtmUrl(landingPage, term, encode) == landingPage + ("?utm_term=" + encode(term.value));
    }
  }

  /** The row pushed for one creative. */
  function RowOf(c: Campaign, a: AdSet, cr: PlanCreative, encode: string -> string): ExportRow {
    ExportRow(c.name, c.client, c.startDate, c.endDate, c.totalBudget, a.name, a.budget, a.targeting,
      cr.name, cr.assetType, cr.landingPage, cr.utmParameters.term.GetOr(""),
      FullUtmUrl(cr.landingPage, cr.utmParameters.term, encode))
  }

  /** The rows of the first `n` creatives of an ad set. */
  function CreativeRows(c: Campaign, a: AdSet, n: nat, encode: string -> string): (r: seq<ExportRow>)
    requires n <= |a.creatives|
    ensures |r| == n
  {
    if n == 0 then [] else CreativeRows(c, a, n - 1, encode) + [RowOf(c, a, a.creatives[n - 1], encode)]
  }

  /** The rows of the first `n` ad sets of a campaign. */
  function AdSetRows(c: Campaign, n: nat, encode: string -> string): seq<ExportRow>
    requires n <= |c.adSets|
  {
    if n == 0 then [] else AdSetRows(c, n - 1, encode) + CreativeRows(c, c.adSets[n - 1], |c.adSets[n - 1].creatives|, encode)
  }

  /** The rows of the first `n` campaigns. */
  function CampaignRows(campaigns: seq<Campaign>, n: nat, encode: string -> string): seq<ExportRow>
    requires n <= |campaigns|
  {
    if n == 0 then [] else CampaignRows(campaigns, n - 1, encode) + AdSetRows(campaigns[n - 1], |campaigns[n - 1].adSets|, encode)
  }

  /** `generateExportData`. */
  function ExportRows(campaigns: seq<Campaign>, encode: string -> string): seq<ExportRow> {
    CampaignRows(campaigns, |campaigns|, encode)
  }

  /** How many creatives the first `n` ad sets hold. */
  function AdSetCreatives(c: Campaign, n: nat): nat
    requires n <= |c.adSets|
  {
    if n == 0 then 0 else AdSetCreatives(c, n - 1) + |c.adSets[n - 1].creatives|
  }

  /** How many creatives the first `n` campaigns hold. */
  function Creatives(campaigns: seq<Campaign>, n: nat): nat
    requires n <= |campaigns|
  {
    if n == 0 then 0 else Creatives(campaigns, n - 1) + AdSetCreatives(campaigns[n - 1], |campaigns[n - 1].adSets|)
  }

  lemma {:induction false} AdSetRowsCount(c: Campaign, n: nat, encode: string -> string)
    requires n <= |c.adSets|
    ensures |AdSetRows(c, n, encode)| == AdSetCreatives(c, n)
  {
    if n > 0 {
      AdSetRowsCount(c, n - 1, encode);
    }
  }

  /** Exactly one row per creative: campaigns and ad sets without creatives give none. */
  lemma {:induction false} ExportRowsCount(campaigns: seq<Campaign>, n: nat, encode: string -> string)
    requires n <= |campaigns|
    ensures |CampaignRows(campaigns, n, encode)| == Creatives(campaigns, n)
  {
    if n > 0 {
      ExportRowsCount(campaigns, n - 1, encode);
      AdSetRowsCount(campaigns[n - 1], |campaigns[n - 1].adSets|, encode);
    }
  }

  /** The rows of the campaigns before `n` come first, in order, then those of campaign `n`. */
  lemma {:induction false} ExportRowsPrefix(campaigns: seq<Campaign>, m: nat, n: nat, encode: string -> string)
    requires m <= n <= |campaigns|
    ensures CampaignRows(campaigns, m, encode) <= CampaignRows(campaigns, n, encode)
  {
    if m < n {
      ExportRowsPrefix(campaigns, m, n - 1, encode);
    }
  }

  /** The export of two lists of campaigns one after the other is the two exports one after the other. */
  lemma {:induction false} ExportRowsConcat(xs: seq<Campaign>, ys: seq<Campaign>, n: nat, encode: string -> string)
    requires n <= |ys|
    ensures CampaignRows(xs + ys, |xs| + n, encode) == ExportRows(xs, encode) + CampaignRows(ys, n, encode)
  {
    var zs := xs + ys;
    if n == 0 {
      assert zs[..|xs|] == xs[..|xs|];
      CampaignRowsSame(zs, xs, |xs|, encode);
      assert CampaignRows(ys, n, encode) == [];
    } else {
      ExportRowsConcat(xs, ys, n - 1, encode);
      var last := AdSetRows(ys[n - 1], |ys[n - 1].adSets|, encode);
      assert zs[|xs| + n - 1] == ys[n - 1];
      assert CampaignRows(zs, |xs| + n, encode) == CampaignRows(zs, |xs| + n - 1, encode) + last;
      assert CampaignRows(ys, n, encode) == CampaignRows(ys, n - 1, encode) + last;
    }
  }

  /** Rows of a prefix depend only on that prefix. */
  lemma {:induction false} CampaignRowsSame(xs: seq<Campaign>, ys: seq<Campaign>, n: nat, encode: string -> string)
    requires n <= |xs| && n <= |ys| && xs[..n] == ys[..n]
    ensures CampaignRows(xs, n, encode) == CampaignRows(ys, n, encode)
  {
    if n > 0 {
      assert xs[n - 1] == xs[..n][n - 1] == ys[..n][n - 1] == ys[n - 1];
      assert xs[..n - 1] == xs[..n][..n - 1];
      assert ys[..n - 1] == ys[..n][..n - 1];
      CampaignRowsSame(xs, ys, n - 1, encode);
    }
  }

  /** Row `k` of an ad set's rows is that of its creative `k`. */
  lemma {:induction false} CreativeRowsAt(c: Campaign, a: AdSet, n: nat, encode: string -> string)
    requires n <= |a.creatives|
    ensures forall k :: 0 <= k < n ==> CreativeRows(c, a, n, encode)[k] == RowOf(c, a, a.creatives[k], encode)
  {
    if n > 0 {
      CreativeRowsAt(c, a, n - 1, encode);
    }
  }

  /** `generateExportData`'s three nested loops. */
  method GenerateExportData(campaigns: seq<Campaign>, encode: string -> string) returns (rows: seq<ExportRow>)
    ensures rows == ExportRows(campaigns, encode)
  {
    rows := [];
    var i := 0;
    while i < |campaigns|
      invariant 0 <= i <= |campaigns|
      invariant rows == CampaignRows(campaigns, i, encode)
    {
      var campaign := campaigns[i];
      ghost var atCampaign := rows;
      var j := 0;
      while j < |campaign.adSets|
        invariant 0 <= j <= |campaign.adSets|
        invariant rows == atCampaign + AdSetRows(campaign, j, encode)
      {
        var adSet := campaign.adSets[j];
        ghost var atAdSet := rows;
        var k := 0;
        while k < |adSet.creatives|
          invariant 0 <= k <= |adSet.creatives|
          invariant rows == atAdSet + CreativeRows(campaign, adSet, k, encode)
        {
          var row := RowOf(campaign, adSet, adSet.creatives[k], encode);
          CreativeRowsStep(atAdSet, rows, campaign, adSet, k, encode);
          rows := rows + [row];
          k := k + 1;
        }
        AdSetRowsStep(atCampaign, atAdSet, rows, campaign, j, encode);
        j := j + 1;
      }
      CampaignRowsStep(atCampaign, rows, campaigns, i, encode);
      i := i + 1;
    }
  }

  // One step of each loop of `generateExportData`.

  lemma CreativeRowsStep(start: seq<ExportRow>, rows: seq<ExportRow>, c: Campaign, a: AdSet, k: nat, encode: string -> string)
    requires k < |a.creatives| && rows == start + CreativeRows(c, a, k, encode)
    ensures rows + [RowOf(c, a, a.creatives[k], encode)] == start + CreativeRows(c, a, k + 1, encode)
  {
  }

  lemma AdSetRowsStep(start: seq<ExportRow>, mid: seq<ExportRow>, rows: seq<ExportRow>, c: Campaign, j: nat, encode: string -> string)
    requires j < |c.adSets| && mid == start + AdSetRows(c, j, encode)
    requires rows == mid + CreativeRows(c, c.adSets[j], |c.adSets[j].creatives|, encode)
    ensures rows == start + AdSetRows(c, j + 1, encode)
  {
  }

  lemma CampaignRowsStep(start: seq<ExportRow>, rows: seq<ExportRow>, campaigns: seq<Campaign>, i: nat, encode: string -> string)
    requires i < |campaigns| && start == CampaignRows(campaigns, i, encode)
    requires rows == start + AdSetRows(campaigns[i], |campaigns[i].adSets|, encode)
    ensures rows == CampaignRows(campaigns, i + 1, encode)
  {
  }

  // ------------------------------------------------------------ quoting

  predicate NeedsQuotes(s: string) {
    ',' in s || '"' in s || '\n' in s
  }

  /** `replace(/"/g, '""')`. */
  function Double(s: string): (r: string)
    ensures |r| == |s| + Count(s, '"')
  {
    if s == [] then [] else (if s[0] == '"' then "\"\"" else [s[0]]) + Double(s[1..])
  }

  /** `escapeCSVField`: quoted, with quotes doubled, when the text holds a comma, quote or newline. */
  function EscapeCsvField(s: string): (r: string)
    ensures !NeedsQuotes(s) ==> r == s
    ensures NeedsQuotes(s) ==> |r| == |s| + Count(s, '"') + 2 && r[0] == '"' && r[|r| - 1] == '"'
  {
    if NeedsQuotes(s) then "\"" + Double(s) + "\"" else s
  }

  /** Undo the doubling: each `""` becomes one quote. */
  function Undouble(t: string): string {
    if t == [] then []
    else if |t| >= 2 && t[0] == '"' && t[1] == '"' then "\"" + Undouble(t[2..])
    else [t[0]] + Undouble(t[1..])
  }

  /** A reader of one field: strip the outer quotes of a quoted field and undo the doubling. */
  function Unescape(t: string): string {
    if |t| >= 2 && t[0] == '"' && t[|t| - 1] == '"' then Undouble(t[1..|t| - 1]) else t
  }

  lemma {:induction false} UndoubleDouble(s: string)
    ensures Undouble(Double(s)) == s
  {
    if s != [] {
      var t := Double(s);
      UndoubleDouble(s[1..]);
      if s[0] == '"' {
        assert t == "\"\"" + Double(s[1..]);
        assert t[2..] == Double(s[1..]);
      } else {
        assert t == [s[0]] + Double(s[1..]);
        assert t[1..] == Double(s[1..]);
      }
      assert s == [s[0]] + s[1..];
    }
  }

  /** Reading an escaped field back gives the original text. */
  lemma EscapeRoundTrip(s: string)
    ensures Unescape(EscapeCsvField(s)) == s
  {
    if NeedsQuotes(s) {
      var t := EscapeCsvField(s);
      assert t[1..|t| - 1] == Double(s);
      UndoubleDouble(s);
    }
  }

  /** Doubling adds no character other than quotes. */
  lemma {:induction false} DoubleAvoids(s: string, c: char)
    requires c != '"' && c !in s
    ensures c !in Double(s)
  {
    if s != [] {
      DoubleAvoids(s[1..], c);
    }
  }

  /** Inside a quoted field every quote is one of a doubled pair. */
  lemma {:induction false} DoublePairs(s: string)
    ensures Count(Double(s), '"') == 2 * Count(s, '"')
  {
    UndoubleDouble(s);
    if s != [] {
      DoublePairs(s[1..]);
      var t := Double(s);
      if s[0] == '"' {
        assert t == "\"\"" + Double(s[1..]);
        CountConcat("\"\"", Double(s[1..]), '"');
      } else {
        assert t == [s[0]] + Double(s[1..]);
        CountConcat([s[0]], Double(s[1..]), '"');
      }
    }
  }

  lemma {:induction false} CountConcat(a: string, b: string, c: char)
    ensures Count(a + b, c) == Count(a, c) + Count(b, c)
  {
    if a == [] {
      assert a + b == b;
    } else {
      assert (a + b)[0] == a[0];
      assert (a + b)[1..] == a[1..] + b;
      CountConcat(a[1..], b, c);
    }
  }

  // ------------------------------------------------------------ CSV text

  const Headers: seq<string> := [
    "Campaign Name", "Client", "Start Date", "End Date", "Campaign Budget", "Ad Set Name",
    "Ad Set Budget", "Targeting", "Creative Name", "Asset Type", "Landing Page", "UTM Term", "Full UTM URL"]

  /** `headers.join(',')`. */
  function HeaderLine(): string {
    Join(Headers, ",")
  }

  /** A title that neither splits a line nor a column. */
  predicate Plain(s: string) {
    ',' !in s && '\n' !in s
  }

  lemma CampaignTitlesPlain()
    ensures Plain(Headers[0]) && Plain(Headers[1]) && Plain(Headers[2]) && Plain(Headers[3])
  {
  }

  lemma BudgetTitlesPlain()
    ensures Plain(Headers[4]) && Plain(Headers[5]) && Plain(Headers[6])
  {
  }

  lemma CreativeTitlesPlain()
    ensures Plain(Headers[7]) && Plain(Headers[8]) && Plain(Headers[9])
  {
  }

  lemma UrlTitlesPlain()
    ensures Plain(Headers[10]) && Plain(Headers[11]) && Plain(Headers[12])
  {
  }

  /** Thirteen titles, none holding a comma or a newline. */
  lemma TitlesPlain()
    ensures |Headers| == 13 && forall k :: 0 <= k < |Headers| ==> Plain(Headers[k])
  {
    CampaignTitlesPlain();
    BudgetTitlesPlain();
    CreativeTitlesPlain();
    UrlTitlesPlain();
  }

  /** The header line splits back into the thirteen titles, and holds no newline. */
  lemma HeaderColumns()
    ensures SplitOn(HeaderLine(), ',') == Headers && |Headers| == 13
    ensures '\n' !in HeaderLine()
  {
    TitlesPlain();
    JoinSplit(Headers, ',');
    JoinAvoids(Headers, ",", '\n');
  }

  /** The thirteen values of a row; dates and numbers are not escaped, `show` is `String(number)`. */
  function Values(row: ExportRow, show: real -> string): (v: seq<string>)
    ensures |v| == 13
  {
    [EscapeCsvField(row.campaignName), EscapeCsvField(row.campaignClient),
     row.campaignStartDate, row.campaignEndDate, show(row.campaignBudget),
     EscapeCsvField(row.adSetName), show(row.adSetBudget), EscapeCsvField(row.adSetTargeting),
     EscapeCsvField(row.creativeName), EscapeCsvField(row.creativeAssetType),
     EscapeCsvField(row.creativeLandingPage), EscapeCsvField(row.utmTerm), EscapeCsvField(row.fullUTMUrl)]
  }

  /** `values.join(',')`. */
  function CsvLine(row: ExportRow, show: real -> string): string {
    Join(Values(row, show), ",")
  }

  /** The header line `header` and the lines of the first `n` rows. */
  function CsvLines(header: string, data: seq<ExportRow>, n: nat, show: real -> string): (lines: seq<string>)
    requires n <= |data|
    ensures |lines| == n + 1 && lines[0] == header
  {
    if n == 0 then [header] else CsvLines(header, data, n - 1, show) + [CsvLine(data[n - 1], show)]
  }

  /** After the header, line `k + 1` is that of row `k`. */
  lemma {:induction false} CsvLinesAt(header: string, data: seq<ExportRow>, n: nat, show: real -> string)
    requires n <= |data|
    ensures forall k :: 0 <= k < n ==> CsvLines(header, data, n, show)[k + 1] == CsvLine(data[k], show)
  {
    if n > 0 {
      CsvLinesAt(header, data, n - 1, show);
    }
  }

  /** The text `exportToCSV` returns for its rows. */
  function CsvText(data: seq<ExportRow>, show: real -> string): string {
    if data == [] then "No data to export" else Join(CsvLines(HeaderLine(), data, |data|, show), "\n")
  }

  /** `exportToCSV`. */
  method ExportToCsv(campaigns: seq<Campaign>, encode: string -> string, show: real -> string) returns (text: string)
    ensures text == CsvText(ExportRows(campaigns, encode), show)
  {
    var data := GenerateExportData(campaigns, encode);
    if |data| == 0 {
      return "No data to export";
    }
    text := JoinLines(HeaderLine(), data, show);
  }

  /** The loop of `exportToCSV` that follows the header line with one line per row, joined by newlines. */
  method JoinLines(header: string, data: seq<ExportRow>, show: real -> string) returns (text: string)
    ensures text == Join(CsvLines(header, data, |data|, show), "\n")
  {
    var csvRows := [header];
    var i := 0;
    while i < |data|
      invariant 0 <= i <= |data|
      invariant csvRows == CsvLines(header, data, i, show)
    {
      CsvLinesStep(csvRows, header, data, i, show);
      csvRows := csvRows + [CsvLine(data[i], show)];
      i := i + 1;
    }
    text := Join(csvRows, "\n");
  }

  lemma CsvLinesStep(lines: seq<string>, header: string, data: seq<ExportRow>, i: nat, show: real -> string)
    requires i < |data| && lines == CsvLines(header, data, i, show)
    ensures lines + [CsvLine(data[i], show)] == CsvLines(header, data, i + 1, show)
  {
  }

  /** No value of a row holds a newline when no field does: escaping adds none. */
  predicate NoNewline(row: ExportRow, show: real -> string) {
    '\n' !in row.campaignName && '\n' !in row.campaignClient && '\n' !in row.campaignStartDate
    && '\n' !in row.campaignEndDate && '\n' !in show(row.campaignBudget) && '\n' !in row.adSetName
    && '\n' !in show(row.adSetBudget) && '\n' !in row.adSetTargeting && '\n' !in row.creativeName
    && '\n' !in row.creativeAssetType && '\n' !in row.creativeLandingPage && '\n' !in row.utmTerm
    && '\n' !in row.fullUTMUrl
  }

  lemma EscapeAvoidsNewline(s: string)
    requires '\n' !in s
    ensures '\n' !in EscapeCsvField(s)
  {
    if NeedsQuotes(s) {
      DoubleAvoids(s, '\n');
      assert EscapeCsvField(s) == "\"" + Double(s) + "\"";
    }
  }

  lemma LineAvoidsNewline(row: ExportRow, show: real -> string)
    requires NoNewline(row, show)
    ensures '\n' !in CsvLine(row, show)
  {
    EscapeAvoidsNewline(row.campaignName);
    EscapeAvoidsNewline(row.campaignClient);
    EscapeAvoidsNewline(row.adSetName);
    EscapeAvoidsNewline(row.adSetTargeting);
    EscapeAvoidsNewline(row.creativeName);
    EscapeAvoidsNewline(row.creativeAssetType);
    EscapeAvoidsNewline(row.creativeLandingPage);
    EscapeAvoidsNewline(row.utmTerm);
    EscapeAvoidsNewline(row.fullUTMUrl);
    var v := Values(row, show);
    assert forall k :: 0 <= k < |v| ==> '\n' !in v[k];
    JoinAvoids(v, ",", '\n');
  }

  /** When no field holds a newline, the text is the header line and one line per row, in order. */
  lemma CsvTextLines(data: seq<ExportRow>, show: real -> string)
    requires data != []
    requires forall k :: 0 <= k < |data| ==> NoNewline(data[k], show)
    ensures var lines := SplitOn(CsvText(data, show), '\n');
      |lines| == |data| + 1 && lines[0] == HeaderLine()
      && forall k :: 0 <= k < |data| ==> lines[k + 1] == CsvLine(data[k], show)
  {
    var lines := CsvLines(HeaderLine(), data, |data|, show);
    CsvLinesAt(HeaderLine(), data, |data|, show);
    forall k | 0 <= k < |lines| ensures '\n' !in lines[k] {
      if k == 0 {
        HeaderColumns();
      } else {
        LineAvoidsNewline(data[k - 1], show);
      }
    }
    JoinSplit(lines, '\n');
  }
}
