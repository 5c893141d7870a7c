# ShortStaffed blocking-chart ingestion, modelled in Dafny

This project models how ShortStaffed ingests a media blocking chart, from the moment a chart is
pasted or uploaded to the moment its campaigns are stored or exported.

- A **blocking chart** is a spreadsheet of planned media line items: channel, tactic, platform,
  objective, placements, audience, cost columns and the working media budget.
- There are two ingestion paths:
  - the **paste path** (`parseBlockingChartData`): tab, double-space or single-space separated text;
  - the **file path** (`FileBasedBlockingChartImport`): an Excel sheet or a CSV file.
- Both paths do the same work:
  - find the header line or row, and map its columns to semantic fields;
  - drop noise rows: totals, separators, calendar strips and near-empty rows;
  - repair rows whose channel cell was merged away, by carrying the last channel seen;
  - find the budget, first from the mapped column, then by a right-to-left scan;
  - validate the row and emit a `BlockingChartRow`, with a category chosen by keyword.
- On the file path the user then toggles, recategorises and dates the rows, and imports the
  selected ones.
- Imported rows become **campaign shells**: each shell has one targeting layer, and a layer holds
  creative shells. The campaign-structure builder edits shells through a set of handlers.
- Shells and campaigns are kept in id-keyed storage.
- Campaigns are flattened into export rows and a CSV text.

The model follows the source's form:
- Pure helpers are functions, with lemmas about them.
- The source's loops are methods with invariants, each proved equal to a specification function:
  - the header search and the data loop;
  - the single-space grouping loop;
  - the right-to-left budget scan and the column-mapping `forEach`;
  - the CSV character loop and the sheet-scoring loop;
  - the three nested export loops, and the CSV join loop.
- The stores and the builder component are classes whose methods update their fields.

## Modules

- `Options`: `Option` and `Result`.
- `Text`: the JavaScript string operations used:
  - `trim`, ASCII `toLowerCase`, `includes`;
  - one-character `split` and `join`;
  - `parseFloat`, as a decimal-prefix reader.
- `Patterns`: the regular expressions of the noise filter.
- `Rows`: the row record, the column map, the categoriser and the category labels.
- `Tokenizer`: `splitTabSeparatedLine`.
- `Columns`: `getColumnMapping` and `createColumnMapping`.
- `Extract`: the per-row logic both paths share:
  - `cleanValue`;
  - noise and merged-row detection;
  - channel carrying;
  - the budget search;
  - validation and row ids.
- `Scanning`: the generic data loop, with its row-order, id and length facts.
- `PasteParser`: `parseBlockingChartData`.
- `FileImport`:
  - sheet choice, header-row scoring and `parseCSVLine`;
  - `convertToBlockingChartRows`;
  - the review handlers.
- `Types`: campaign shells, layers, creatives, campaigns and ad sets.
- `Storage`: `storage.ts` and the id-keyed list operations it shares with the shell storage.
- `Taxonomy`: `taxonomy.ts`.
- `CampaignStructure`: `campaignStructure.ts`.
- `StructureBuilder`: the handlers of `CampaignStructureBuilder`.
- `Export`: `generateExportData`, `exportToCSV` and `escapeCSVField`.

## Model

| member | source | states |
|---|---|---|
| Text.Trim | src/utils/blockingChartParser.ts:25 | A trimmed string is no longer than its input, and neither starts nor ends with whitespace. |
| Text.TrimStart | src/utils/blockingChartParser.ts:70 | The leading whitespace is removed and nothing else: the result is a suffix of the input, starts with a non-space character, and everything dropped is whitespace. |
| Text.TrimEnd | src/utils/blockingChartParser.ts:70 | The trailing whitespace is removed and nothing else: the result is a prefix of the input, ends with a non-space character, and everything dropped is whitespace. |
| Text.TrimIsSlice | src/utils/blockingChartParser.ts:25 | `trim()` removes exactly a whitespace prefix and a whitespace suffix. |
| Text.TrimIdempotent | src/utils/blockingChartParser.ts:64 | Trimming twice gives the same text as trimming once. |
| Text.TrimEmptyIff | src/utils/blockingChartParser.ts:25 | A line is dropped as blank exactly when every character in it is whitespace. |
| Text.LastWhere | src/utils/blockingChartParser.ts:150-163 | The result is a position in range whose element satisfies the test with none after it that does, or -1 when no element in range satisfies it. |
| Text.Lower | src/utils/blockingChartParser.ts:68 | Lower-casing keeps the length and maps each character independently. |
| Text.LowerIdempotent | src/utils/blockingChartParser.ts:68 | Lower-casing twice gives the same text as lower-casing once. |
| Text.SplitOn | src/components/Import/FileBasedBlockingChartImport.tsx:185 | A split gives at least one part. |
| Text.SplitOnCount | src/components/Import/FileBasedBlockingChartImport.tsx:185 | A split on one character gives one more part than there are separators. |
| Text.SplitOnParts | src/components/Import/FileBasedBlockingChartImport.tsx:185 | No part of a split contains the separator. |
| Text.SplitOnJoin | src/utils/exportHelpers.ts:102 | Joining the parts of a split with the separator gives back the original text. |
| Text.JoinSplit | src/utils/exportHelpers.ts:81 | Splitting parts that were joined by a separator none of them contains gives the parts back. |
| Text.TrimAll | src/components/Import/FileBasedBlockingChartImport.tsx:149-157 | Every cell is trimmed, position by position. |
| Text.NonBlank | src/utils/blockingChartParser.ts:25 | `filter(line => line.trim())`: the kept lines are no more than the input lines, and none of them is blank. |
| Text.Filter | src/utils/blockingChartParser.ts:25 | A filter never lengthens the list, and every kept element passes the test. |
| Text.FilterConcat | src/utils/blockingChartParser.ts:25 | Filtering distributes over concatenation, so the kept elements keep their order. |
| Text.FilterMembers | src/utils/blockingChartParser.ts:25 | An element is kept iff it is in the list and passes the test. |
| Text.NonBlankConcat | src/utils/blockingChartParser.ts:25 | Dropping blank lines from two texts one after the other gives the two results one after the other. |
| Text.NonBlankMembers | src/utils/blockingChartParser.ts:25 | A line is kept iff it is one of the input lines and is not blank. |
| Text.NatStr | src/utils/blockingChartParser.ts:231 | The decimal text of a row index is non-empty and made of digits. |
| Text.NatStrValue | src/utils/blockingChartParser.ts:231 | The decimal text of `n` reads back as `n`. |
| Text.ParseFloatDefined | src/utils/blockingChartParser.ts:139-141 | `parseFloat` gives a number exactly when the text, after whitespace and a sign, starts with a digit or with a point followed by a digit. |
| Text.ParseDigits | src/utils/blockingChartParser.ts:139 | `parseFloat` of a string of digits is the number those digits denote. |
| Text.ParseDecimal | src/utils/blockingChartParser.ts:139 | `parseFloat` of `digits.digits` is the whole part plus the fraction, the fraction being its digits over the matching power of ten. |
| Text.ParseUnsigned | src/utils/blockingChartParser.ts:139 | Once the decimal prefix of a text is known to be unsigned with whole digits, `parseFloat` gives the whole part plus the fraction. |
| Patterns.NumberLineIff | src/utils/blockingChartParser.ts:70 | The trim-based test agrees with the regex `^\s*\d+\s*$` read literally, in both directions. |
| Patterns.ShapeIsNumberLine | src/utils/blockingChartParser.ts:70 | Whitespace, then digits, then whitespace trims to exactly those digits. |
| Patterns.CalendarStrip | src/utils/blockingChartParser.ts:83 | Any text that starts with three single digits separated by single spaces, such as a strip of day numbers, is caught by the calendar pattern. |
| Patterns.MoneyHasNoSpace | src/utils/blockingChartParser.ts:282-283 | Text that looks like money contains no whitespace. |
| Rows.Cell | src/utils/blockingChartParser.ts:119-121 | `values[i] \|\| ''` reads the cell when `i` is inside the row, and reads "" for any other index, including -1. |
| Rows.CategoryOf | src/utils/blockingChartParser.ts:370-421 | The three keyword sets are tried in order, and the first with a key in the text decides: digital iff a digital key occurs; social iff no digital key but a social key occurs; other-social iff only an other-social key occurs; uncategorised iff none occurs. |
| Rows.CombinedSame | src/components/Import/FileBasedBlockingChartImport.tsx:646 | `Categorize`: both categorisers search the same lower-cased `channel platform` text. |
| Rows.DigitalWins | src/utils/blockingChartParser.ts:376-390 | A digital keyword in the text beats any social keyword. |
| Rows.FileDigitalInPaste | src/components/Import/FileBasedBlockingChartImport.tsx:648-652 | Every text the file path's digital keys match is also matched by the paste path's digital keys. |
| Rows.PasteDigitalInFile | src/utils/blockingChartParser.ts:376-390 | The paste path's digital keys match nothing more than the file path's, except through "online video" and "dv360". |
| Rows.CategorizersAgree | src/components/Import/FileBasedBlockingChartImport.tsx:645-673 | The two categorisers return the same category unless the text contains "online video" or "dv360". |
| Rows.Dv360Pasted | src/utils/blockingChartParser.ts:376-390 | A pasted channel of "DV360" alone is brand-say digital. |
| Rows.Dv360Uploaded | src/components/Import/FileBasedBlockingChartImport.tsx:645-673 | The same channel in an uploaded file is uncategorised. |
| Rows.Dv360Only | src/utils/blockingChartParser.ts:376-390 | Any channel and platform whose text holds "dv360" but no key of the file path's three keyword sets is brand-say digital when pasted and uncategorised when uploaded. |
| Rows.LabelsDistinguish | src/utils/blockingChartParser.ts:423-447 | Two categories get the same label iff they are the same category, and the same badge colour iff they are the same category; a missing category shows as uncategorised. |
| Tokenizer.SplitWsFrom | src/utils/blockingChartParser.ts:268-270 | Splitting on whitespace runs always gives at least one field. |
| Tokenizer.SplitWsFromNoSpace | src/utils/blockingChartParser.ts:274 | Splitting on every single whitespace leaves no whitespace in any part. |
| Tokenizer.NonEmptyOnly | src/utils/blockingChartParser.ts:270 | Filtering out empty fields leaves no empty field. |
| Tokenizer.GroupTokens | src/utils/blockingChartParser.ts:274-299 | The single-space grouping loop returns the specified grouping: a standalone part ends the pending word run and stands alone; other parts join the run. |
| Tokenizer.Tokenize | src/utils/blockingChartParser.ts:263-301 | `splitTabSeparatedLine` returns exactly the specified fields: tab split, else double-space split, else grouping. |
| Tokenizer.TabFields | src/utils/blockingChartParser.ts:265-267 | A line with a tab has one field more than it has tabs, and every field is trimmed. |
| Tokenizer.SingleSpaceStandalone | src/utils/blockingChartParser.ts:274-299 | Grouping never merges or loses a standalone part: the standalone fields of a single-spaced line are its standalone words, in order. |
| Tokenizer.SingleSpaceNoEmpty | src/utils/blockingChartParser.ts:274-299 | The single-space path never yields an empty field. |
| Columns.Rules | src/utils/blockingChartParser.ts:306-344 | Each header gets the rule of its own normalised text, column by column. |
| Columns.MapColumns | src/components/Import/FileBasedBlockingChartImport.tsx:521-643 | The `forEach` over the headers, followed by the defaults, returns the defaulted map built from the headers. |
| Columns.WithDefaultsField | src/utils/blockingChartParser.ts:347-363 | `WithDefaults`: each returned field is the found column, except that a field that was not found, or was found at column 0, gets the parser's default. |
| Columns.BuildField | src/utils/blockingChartParser.ts:306-344 | An ordinary field is mapped iff some column's rule assigns it, and then to the last such column. |
| Columns.BuildBudgetSet | src/utils/blockingChartParser.ts:306-344 | The budget is mapped iff some column assigns it or claims it as a backstop. |
| Columns.BuildBudget | src/utils/blockingChartParser.ts:306-344 | An assigning column takes the budget over any backstop column; without one, the first backstop column keeps it. |
| Columns.WorkingBudgetHeaderIff | src/utils/blockingChartParser.ts:326-335 | The long chain of working-budget variants is equivalent to the header containing both "working" and "budget". |
| Columns.ImpressionsHeaderIff | src/utils/blockingChartParser.ts:306-344 | The impressions test is equivalent to the header containing "impression" or "grp". |
| Columns.RulesAgree | src/components/Import/FileBasedBlockingChartImport.tsx:527-620 | `RuleOf`: both parsers give a header the same rule unless it names an audience, segment, persona, flavour, seeker or "cost per". |
| Columns.AudienceCpmIsCost | src/components/Import/FileBasedBlockingChartImport.tsx:527-620 | On the file path, "audience cpm" maps to the CPM column and "audience" to the audience column. |
| Columns.TacticChannelRules | src/utils/blockingChartParser.ts:306-344 | A header that is only "tactic" maps to the tactic field, and one that is only "channel" maps to the channel field, on both paths. |
| Columns.ZeroColumnFallsBack | src/utils/blockingChartParser.ts:347-363 | A field found at column 0 is replaced by its default, because `map.f \|\| d` treats 0 as missing. |
| Extract.Without | src/utils/blockingChartParser.ts:366-368 | Removing every copy of a character leaves none of it, and shortens the text by exactly its count. |
| Extract.Clean | src/utils/blockingChartParser.ts:366-368 | A cleaned value contains no comma. |
| Extract.CleanFixedPoint | src/utils/blockingChartParser.ts:366-368 | A cleaned value with no edge whitespace and no leading `$` is unchanged by a second clean. |
| Extract.CleanPlain | src/utils/blockingChartParser.ts:366-368 | On text without whitespace or commas, cleaning only drops one leading `$`. |
| Extract.CleanTwiceDiffers | src/components/Import/FileBasedBlockingChartImport.tsx:321 | Cleaning is not idempotent: "$$5" cleans to "$5" and then to "5". |
| Extract.CleanEmpty | src/utils/blockingChartParser.ts:366-368 | An empty cell cleans to the empty string. |
| Extract.OtherCount | src/utils/blockingChartParser.ts:85 | The count of characters that are neither digits nor whitespace is at most the length. |
| Extract.FileNoiseWider | src/components/Import/FileBasedBlockingChartImport.tsx:328-356 | `Noise` on the file path is wider: every row the paste path drops as noise, the file path drops too. |
| Extract.TotalTestsRedundant | src/utils/blockingChartParser.ts:69-70 | The "subtotal" and "grand total" tests add nothing to the "total" test. |
| Extract.LocaleFragmentCovered | src/components/Import/FileBasedBlockingChartImport.tsx:362-372 | Each " fr"/" en" merged-row fragment starts with one of the base fragments. |
| Extract.FragmentsAgree | src/components/Import/FileBasedBlockingChartImport.tsx:362-372 | `MergedRow` is the same test on both paths: they detect exactly the same merged rows. |
| Extract.Resolve | src/utils/blockingChartParser.ts:102-133 | A merged row takes the carried channel and keeps the carry. Otherwise a filled channel cell is used and, trimmed, becomes the carry. A channel that ends up blank is the carried one. |
| Extract.ResolvedChannel | src/utils/blockingChartParser.ts:113-133 | The channel a line resolves to and the channel it carries on clean to the same text. |
| Extract.ScanBudget | src/utils/blockingChartParser.ts:150-163 | The right-to-left loop returns the rightmost cleaned field that looks like a budget, or "" when none does. |
| Extract.ResolveBudget | src/utils/blockingChartParser.ts:136-163 | The budget search returns the mapped column first, and falls back to the scan. |
| Extract.BudgetLikeNonEmpty | src/utils/blockingChartParser.ts:155-157 | Budget-like text is never empty. |
| Extract.FallbackBudgetSpec | src/utils/blockingChartParser.ts:150-163 | The fallback is "" iff no cleaned field looks like a budget; otherwise it is a budget-like cleaned field with none to its right. |
| Extract.BudgetSpec | src/utils/blockingChartParser.ts:136-163 | `BudgetOf`: a mapped cell that parses positive is the budget; otherwise the budget is the fallback scan's answer. |
| Extract.BudgetPositive | src/components/Import/FileBasedBlockingChartImport.tsx:400-426 | A resolved budget is empty or parses to a positive amount. |
| Extract.RowIdInjective | src/utils/blockingChartParser.ts:231 | Two row ids are equal only for the same line index, whatever the time and random parts are. |
| Extract.MadeRow | src/utils/blockingChartParser.ts:230-249 | `MakeRow`: the emitted record keeps its id and budget, is selected and categorised from its channel and platform, and has comma-free text fields. |
| Extract.MadeAccepted | src/utils/blockingChartParser.ts:177-189 | When `Acceptable` holds, the stored channel, tactic and platform are each the cleaned form of a filled value other than "Channel", "Tactic" and "Platform", and objective and placements the cleaned form of a filled value. |
| Extract.DemoGuardRedundant | src/components/Import/FileBasedBlockingChartImport.tsx:479-485 | The `demoTargeting >= 0` guard changes nothing, because an unmapped column reads as "". |
| Extract.WholeBudget | src/utils/blockingChartParser.ts:150-157 | A whole amount in plain digits is unchanged by cleaning, parses to the number it denotes, and looks like a budget iff that number is positive and below 100000. |
| Extract.PasteStoresEmptyChannel | src/utils/blockingChartParser.ts:177-189 | The paste path validates raw values but stores cleaned ones: a channel cell of "$" passes validation and is stored as "". |
| Extract.FileStoresEmptyChannel | src/components/Import/FileBasedBlockingChartImport.tsx:439-508 | The file path validates once-cleaned cells and stores them cleaned again: a channel cell of "$$" is cleaned to "$", passes validation, and is stored as "". |
| Scanning.ScanKeeps | src/utils/blockingChartParser.ts:63-254 | A property of every row one step can give holds of every row the loop collects. |
| Scanning.ScanComplete | src/utils/blockingChartParser.ts:63-254 | No row is lost: a line is the origin of a collected row iff its step, given the channel carried into it, gives a row, and that row is one of the collected rows. |
| Scanning.ScanCarries | src/utils/blockingChartParser.ts:60-133 | When each step carries on the value of a line that sets one and the given channel otherwise, the channel after a run of lines is the value of the last line that sets one, or "" when none does. |
| Scanning.ScanIdsDistinct | src/utils/blockingChartParser.ts:231 | When each row carries its own line's id, the collected ids are pairwise distinct. |
| Scanning.ScanLength | src/utils/blockingChartParser.ts:63-254 | The loop collects at most one row per line. |
| Scanning.ScanData | src/utils/blockingChartParser.ts:63-254 | The data loop returns the specified scan: each line's row, if any, pushed in order, with the channel carried along. |
| PasteParser.FirstHint | src/utils/blockingChartParser.ts:32-47 | The result is the first hinted line among the first `n`, or -1 when none has a hint. |
| PasteParser.HeaderIndex | src/utils/blockingChartParser.ts:32-47 | The header is one of the first ten lines. |
| PasteParser.HeaderIndexSpec | src/utils/blockingChartParser.ts:32-47 | When one of the first ten lines has a hint, the header is the first such line: it has a hint and no earlier line has one. When none has a hint, the header is line 0. |
| PasteParser.LocateHeader | src/utils/blockingChartParser.ts:32-47 | The loop with its `break` returns the specified header index. |
| PasteParser.LineRow | src/utils/blockingChartParser.ts:63-251 | `LineOutcome`: a line that gives a row gives one with the id of its own line index, selected, categorised, undated, with a positive budget and comma-free names, whose channel, tactic and platform are the cleaned forms of filled values other than the header words and whose objective and placements are the cleaned forms of filled values. |
| PasteParser.LineAccepted | src/utils/blockingChartParser.ts:63-251 | `LineOutcome`: a line gives a row iff it is a data line (not blank, not noise, with data in at least three fields) whose resolved fields and budget pass the validation of lines 177-189. |
| PasteParser.LineKept | src/utils/blockingChartParser.ts:64-99 | `LineOutcome`: a line that gives a row is not blank, is not noise, and has at least three fields. |
| PasteParser.LineCarry | src/utils/blockingChartParser.ts:102-133 | A line that is not blank, not noise, not merged and has a filled channel cell carries on that cell trimmed; every other line carries on the channel it was given. |
| PasteParser.LineChannel | src/utils/blockingChartParser.ts:113-133 | The row of a line, if any, stores the cleaned form of the channel the line carries on. |
| PasteParser.StepCarries | src/utils/blockingChartParser.ts:102-133 | The loop step carries the channel exactly as `LineCarry` says, for every line, index and given channel. |
| PasteParser.CarriedChannel | src/utils/blockingChartParser.ts:60-133 | The channel carried into any line is the trimmed channel cell of the last earlier line below the header that sets one, or "" when none does. |
| PasteParser.DataRowsWellFormed | src/utils/blockingChartParser.ts:63-254 | Every row below the header is selected, categorised and undated, with a positive budget and comma-free names, and its core fields are cleaned forms of values that passed validation. |
| PasteParser.DataRowsComplete | src/utils/blockingChartParser.ts:60-254 | The row, if any, that a line gives with the channel of the last earlier line that sets one ("" when none does) is one of the rows collected from the lines after the header. |
| PasteParser.ParseComplete | src/utils/blockingChartParser.ts:22-261 | `Parse`: the row, if any, that a line below the header gives with the channel carried into it is one of the rows of the paste. |
| PasteParser.ParseLinesRows | src/utils/blockingChartParser.ts:22-63 | A paste with lines gives the rows of the lines after its header line, read with the header's column map. |
| PasteParser.DataRowsIdsDistinct | src/utils/blockingChartParser.ts:63-254 | The rows below the header have pairwise distinct ids. |
| PasteParser.DataRowsBound | src/utils/blockingChartParser.ts:63 | At most one row comes from each line below the header. |
| PasteParser.ParseRowsWellFormed | src/utils/blockingChartParser.ts:22-261 | `Parse`: every row of a paste is selected, categorised and undated, with a positive budget and comma-free names, and its channel, tactic, platform, objective and placements are cleaned forms of filled values other than the header words. |
| PasteParser.ParseIdsDistinct | src/utils/blockingChartParser.ts:22-261 | `Parse`: the rows of a paste have pairwise distinct ids. |
| PasteParser.ParseBound | src/utils/blockingChartParser.ts:22-261 | Only lines below the header give rows, at most one each; a paste of a header alone gives none. |
| PasteParser.ParseBlockingChartData | src/utils/blockingChartParser.ts:22-261 | The parser returns the specified rows of the pasted text, and none for text without a non-blank line. |
| FileImport.FirstWith | src/components/Import/FileBasedBlockingChartImport.tsx:31-64 | The result is the first sheet whose lower-cased name contains the key, or -1 when none does. |
| FileImport.FindBestSheet | src/components/Import/FileBasedBlockingChartImport.tsx:31-64 | The chosen sheet is the first "blocking" sheet, else the first "chart" sheet, else the first "data" sheet, else the first sheet; a workbook without sheets gives none. |
| FileImport.HeaderCount | src/components/Import/FileBasedBlockingChartImport.tsx:116-123 | A row has at most as many header-like cells as it has cells. |
| FileImport.Best | src/components/Import/FileBasedBlockingChartImport.tsx:128-131 | The running best is the earliest row with the highest count, and that count. |
| FileImport.FirstStrong | src/components/Import/FileBasedBlockingChartImport.tsx:133-136 | The result is the first row with three or more header-like cells, or -1 when there is none. |
| FileImport.HeaderRowSpec | src/components/Import/FileBasedBlockingChartImport.tsx:109-145 | Among the first ten rows, the header row is the first with three or more header-like cells; else the earliest with the most; else row 0. |
| FileImport.LocateHeaderRow | src/components/Import/FileBasedBlockingChartImport.tsx:109-145 | The scoring loop, with its `break` and the fallback to the best row, returns the specified header row. |
| FileImport.TrimRows | src/components/Import/FileBasedBlockingChartImport.tsx:154-156 | Every cell of every row is trimmed. |
| FileImport.SheetTable | src/components/Import/FileBasedBlockingChartImport.tsx:103-157 | An empty grid gives the "Excel file appears to be empty" error. Otherwise the result is the trimmed header row and the trimmed rows below it, in order. |
| FileImport.ParseCsvLine | src/components/Import/FileBasedBlockingChartImport.tsx:195-213 | The character loop returns the specified fields. |
| FileImport.CsvFieldCount | src/components/Import/FileBasedBlockingChartImport.tsx:195-213 | `CsvFields`: a CSV line has one field more than it has commas outside quotes. |
| FileImport.CsvFieldsQuoteFree | src/components/Import/FileBasedBlockingChartImport.tsx:201-202 | Quote characters are dropped, so no field contains one. |
| FileImport.CsvFieldsTrimmed | src/components/Import/FileBasedBlockingChartImport.tsx:203-211 | Every field is trimmed. |
| FileImport.CsvQuotedField | src/components/Import/FileBasedBlockingChartImport.tsx:195-213 | A line that is one quoted, quote-free text is one field, and its commas are kept. |
| FileImport.CsvPlainLine | src/components/Import/FileBasedBlockingChartImport.tsx:195-213 | A line without quotes gives its comma-separated parts, trimmed. |
| FileImport.EachAt | src/components/Import/FileBasedBlockingChartImport.tsx:185 | Mapping a function over a list keeps its length and applies the function at each position. |
| FileImport.TrimEachAll | src/components/Import/FileBasedBlockingChartImport.tsx:185 | Trimming each part keeps the number of parts and trims each one in place. |
| FileImport.CsvRows | src/components/Import/FileBasedBlockingChartImport.tsx:216 | Each line is split into its own fields. |
| FileImport.CsvTable | src/components/Import/FileBasedBlockingChartImport.tsx:179-235 | A file without non-blank lines gives the "CSV file appears to be empty" error. Otherwise the header is line 0's fields, and each later line is a row. |
| FileImport.RowRecord | src/components/Import/FileBasedBlockingChartImport.tsx:439-508 | `RowOutcome`: a data row that gives a record gives one with the id of its own row index, selected, categorised, with empty dates, a positive budget and comma-free names, whose channel, tactic and platform are the cleaned forms of filled values other than the header words and whose objective and placements are the cleaned forms of filled values. |
| FileImport.RowNoAudience | src/components/Import/FileBasedBlockingChartImport.tsx:479-485 | When no audience column is mapped, every record has an empty audience. |
| FileImport.RowAccepted | src/components/Import/FileBasedBlockingChartImport.tsx:319-512 | `RowOutcome`: a row gives a record iff it is a data row (a non-blank cell, not noise) whose resolved cleaned fields and budget pass the validation of lines 439-451. |
| FileImport.RowKept | src/components/Import/FileBasedBlockingChartImport.tsx:319-356 | `RowOutcome`: a data row that gives a record has a non-blank cell and is not noise. |
| FileImport.RowCarry | src/components/Import/FileBasedBlockingChartImport.tsx:362-397 | A data row that is not merged and has a filled cleaned channel cell carries on that cell trimmed; every other row carries on the channel it was given. |
| FileImport.RowChannel | src/components/Import/FileBasedBlockingChartImport.tsx:376-397 | The record of a row, if any, stores the cleaned form of the channel the row carries on. |
| FileImport.FileStepCarries | src/components/Import/FileBasedBlockingChartImport.tsx:362-397 | The loop step carries the channel exactly as `RowCarry` says, for every row, index and given channel. |
| FileImport.FileCarriedChannel | src/components/Import/FileBasedBlockingChartImport.tsx:314-397 | The channel carried into any row is the trimmed, cleaned channel cell of the last earlier row that sets one, or "" when none does. |
| FileImport.ConvertWellFormed | src/components/Import/FileBasedBlockingChartImport.tsx:302-517 | `Convert`: every record of a file is selected, categorised and has empty dates, with a positive budget and comma-free names, and its channel, tactic, platform, objective and placements are cleaned forms of filled values other than the header words. |
| FileImport.ConvertComplete | src/components/Import/FileBasedBlockingChartImport.tsx:314-512 | No accepted row is dropped: a data row whose cleaned fields, resolved with the channel of the last earlier row that sets one ("" when none does), pass validation with its budget gives a record of the file, the one made from that row. |
| FileImport.ConvertIdsDistinct | src/components/Import/FileBasedBlockingChartImport.tsx:488 | `Convert`: the records of a file have pairwise distinct ids. |
| FileImport.ConvertBound | src/components/Import/FileBasedBlockingChartImport.tsx:317-512 | At most one record comes from each data row. |
| FileImport.ConvertToBlockingChartRows | src/components/Import/FileBasedBlockingChartImport.tsx:302-517 | The conversion loop returns the specified records of the table. |
| FileImport.Toggle | src/components/Import/FileBasedBlockingChartImport.tsx:675-681 | A toggle keeps the number of rows. |
| FileImport.ToggleOnly | src/components/Import/FileBasedBlockingChartImport.tsx:675-681 | Only the rows with that id change, and only in their selection, which flips. |
| FileImport.ToggleTwice | src/components/Import/FileBasedBlockingChartImport.tsx:675-681 | Toggling a row twice restores the rows. |
| FileImport.SelectAll | src/components/Import/FileBasedBlockingChartImport.tsx:683-688 | Select-all keeps the number of rows. |
| FileImport.SelectAllSpec | src/components/Import/FileBasedBlockingChartImport.tsx:683-688 | After select-all every row's selection is the opposite of "all were selected", and nothing else changes; on a non-empty list it flips "all selected". |
| FileImport.ChangeCategory | src/components/Import/FileBasedBlockingChartImport.tsx:690-696 | A category change keeps the number of rows. |
| FileImport.ChangeCategoryOnly | src/components/Import/FileBasedBlockingChartImport.tsx:690-696 | Only the matching rows change, and only in their category; every selection stays. |
| FileImport.SelectedRows | src/components/Import/FileBasedBlockingChartImport.tsx:699 | The selected rows are no more than the rows. |
| FileImport.SelectedRowsSpec | src/components/Import/FileBasedBlockingChartImport.tsx:699 | A row is among the selected rows iff it is a row whose selection is set. |
| FileImport.HandleImport | src/components/Import/FileBasedBlockingChartImport.tsx:698-713 | An import error is always "Please select at least one row to import". |
| FileImport.ImportNeedsSelection | src/components/Import/FileBasedBlockingChartImport.tsx:700-703 | The import fails iff no row is selected. |
| FileImport.ImportRows | src/components/Import/FileBasedBlockingChartImport.tsx:705-712 | The imported rows are the selected rows, in order, each still selected and with only its dates changed. |
| FileImport.CopyFlighting | src/components/Import/FileBasedBlockingChartImport.tsx:715-722 | A row's dates are copied when both its entries exist; otherwise what was copied before is kept. |
| FileImport.PasteThenCopy | src/components/Import/FileBasedBlockingChartImport.tsx:715-732 | Pasting dates onto a row and then copying from it gives back the pasted dates. |
| FileImport.PasteOnly | src/components/Import/FileBasedBlockingChartImport.tsx:724-732 | Pasting touches only the row's two keys. |
| FileImport.PasteThenImport | src/components/Import/FileBasedBlockingChartImport.tsx:706-710 | Pasted non-empty dates are the dates the row is imported with. |
| Storage.FindIndex | src/utils/storage.ts:26 | The result is the first index with that id, or -1 exactly when no element has it. |
| Storage.Find | src/utils/storage.ts:43-46 | Something is found iff an element has that id, and what is found is the first such element. |
| Storage.Remove | src/utils/storage.ts:39 | Filtering never lengthens the list. |
| Storage.RemoveDrops | src/utils/storage.ts:39 | Only elements of the list with another id survive the filter. |
| Storage.RemoveKeeps | src/utils/storage.ts:39 | Every element with another id survives the filter. |
| Storage.RemoveConcat | src/utils/storage.ts:39 | The filter distributes over concatenation, so the survivors keep their order. |
| Storage.RemoveAbsent | src/utils/storage.ts:37-41 | Deleting an absent id leaves the list as it is. |
| Storage.Upsert | src/utils/storage.ts:24-35 | Saving an element whose id is present replaces the first one with that id in place and leaves the others; saving one whose id is absent appends it. |
| Storage.FindAfterRemove | src/utils/storage.ts:37-46 | After deleting an id, looking it up finds nothing. |
| Storage.FindAfterUpsert | src/utils/storage.ts:24-46 | After saving, looking the id up finds what was saved. |
| Storage.Load | src/utils/storage.ts:11-22 | Nothing stored, an empty string, or text that does not parse loads as no campaigns; otherwise the parsed list is loaded. |
| Storage.CampaignStore.constructor | src/utils/storage.ts:11-22 | An empty store holds no campaigns. |
| Storage.CampaignStore.SaveCampaign | src/utils/storage.ts:24-35 | Saving overwrites the slot of the same id, or pushes. |
| Storage.CampaignStore.DeleteCampaign | src/utils/storage.ts:37-41 | Deleting keeps exactly the campaigns with another id, in order. |
| Storage.CampaignStore.GetCampaign | src/utils/storage.ts:43-46 | A campaign is found iff one has that id; it has that id, and it is at or before every campaign with that id. |
| Taxonomy.DropSpace | src/utils/taxonomy.ts:12 | Removing whitespace leaves none, and never lengthens the text. |
| Taxonomy.KeepAlnum | src/utils/taxonomy.ts:12 | Only ASCII letters and digits remain, and the text never lengthens. |
| Taxonomy.CleanNameIsKeepAlnum | src/utils/taxonomy.ts:12 | The whitespace pass is redundant: removing non-alphanumerics alone gives the same name. |
| Taxonomy.CleanIdempotent | src/utils/taxonomy.ts:12 | A cleaned name is all alphanumeric, and cleaning it again changes nothing. |
| Taxonomy.CleanName | src/utils/taxonomy.ts:12 | A cleaned name is all alphanumeric, holds no `_`, and is no longer than its input. |
| Taxonomy.AdSetName | src/utils/taxonomy.ts:11-14 | An ad set name is exactly the campaign name, `_`, the type, `_` and the cleaned targeting: it starts with the first four, is as long as all five, and ends with the cleaned targeting, which is also its last `_` segment. |
| Taxonomy.CreativeName | src/utils/taxonomy.ts:16-20 | A creative name starts with the campaign name, `_` and the cleaned asset type. Without truthy dimensions it is exactly that, and its last segment is the asset type. With them it is followed by exactly `_` and the dimensions, which are its last segment when they hold no underscore. |
| Taxonomy.UtmParameters | src/utils/taxonomy.ts:22-26 | New UTM parameters have no term. |
| CampaignStructure.ShellNameSpec | src/utils/campaignStructure.ts:21-26 | The shell name is trimmed, and it is empty iff the channel, a space and the tactic are all whitespace. |
| CampaignStructure.Collapse | src/utils/campaignStructure.ts:33 | Collapsing whitespace runs leaves single-spaced text, which is empty iff the input is, and starts with whitespace iff the input does. |
| CampaignStructure.CollapseIdempotent | src/utils/campaignStructure.ts:33 | Collapsing twice is collapsing once. |
| CampaignStructure.AccuticsNameClean | src/utils/campaignStructure.ts:28-34 | `AccuticsName` is trimmed and single-spaced. |
| CampaignStructure.AccuticsNameIsShellName | src/utils/campaignStructure.ts:21-34 | When the name text is already single-spaced, the Accutics name equals the shell name. |
| CampaignStructure.CreateTargetingLayer | src/utils/campaignStructure.ts:43-48 | A new layer has no creatives. |
| CampaignStructure.ConvertRows | src/utils/campaignStructure.ts:5-19 | Conversion gives exactly one shell per row. |
| CampaignStructure.ConvertSpec | src/utils/campaignStructure.ts:5-19 | `ToShell` through `ConvertRows`: shell `k` is built from row `k`, carrying its fields, both names, the row's category (uncategorised when missing) and one empty layer for the row's audience. |
| CampaignStructure.ConvertIds | src/utils/campaignStructure.ts:5-41 | Shell `k` takes fresh id `2k`, and its one layer takes fresh id `2k + 1`. |
| CampaignStructure.ConvertIdsDistinct | src/utils/campaignStructure.ts:5-48 | With an injective id source, no two shells share an id and no shell shares an id with a layer. |
| CampaignStructure.GenerateUtmUrl | src/utils/campaignStructure.ts:73-88 | A blank base URL gives "". Otherwise the URL with the term set is given when the URL parses, and the base URL itself when it does not. |
| CampaignStructure.CreateCreativeShell | src/utils/campaignStructure.ts:50-71 | A new creative has the given id, name, landing page, asset link and YouTube URL, no UTM term, and the given taxonomy name or "" when none is given. Its UTM URL is "" for a blank landing page, the serialized page without a term when the page parses as a URL, and the page itself when it does not. |
| CampaignStructure.DuplicateCreativeShell | src/utils/campaignStructure.ts:100-107 | A duplicated creative has the fresh id, and differs from the original only in the id, and in the name when a new truthy name is given. |
| CampaignStructure.DuplicateTargetingLayer | src/utils/campaignStructure.ts:90-98 | A duplicated layer has the fresh id, the new audience when one is given, the same line item, and the same creatives in order, each with only a fresh id. |
| CampaignStructure.LoadCampaignShells | src/utils/campaignStructure.ts:118-129 | Nothing stored, or text that does not decode, loads as no shells; otherwise the decoded shells are loaded. |
| CampaignStructure.ShellStore.constructor | src/utils/campaignStructure.ts:118-129 | An empty store holds no shells. |
| CampaignStructure.ShellStore.SaveCampaignShell | src/utils/campaignStructure.ts:131-142 | Saving overwrites the slot of the same id, or pushes. |
| CampaignStructure.ShellStore.DeleteCampaignShell | src/utils/campaignStructure.ts:144-148 | Deleting keeps exactly the shells with another id, in order. |
| StructureBuilder.UpdateShells | src/components/Campaign/CampaignStructureBuilder.tsx:44-55 | The list keeps its length; shells with another id are unchanged, and those with the id are merged with the update. |
| StructureBuilder.UpdateShellsAbsent | src/components/Campaign/CampaignStructureBuilder.tsx:44-55 | An update for an id no shell has leaves the list as it was. |
| StructureBuilder.UpdateLayers | src/components/Campaign/CampaignStructureBuilder.tsx:89-98 | The list keeps its length; layers with another id are unchanged, and those with the id are merged. |
| StructureBuilder.EditCreatives | src/components/Campaign/CampaignStructureBuilder.tsx:135-155 | `EditCreative`, over a list: the list keeps its length; creatives with another id are unchanged, and those with the id are edited. |
| StructureBuilder.AddLayerAppends | src/components/Campaign/CampaignStructureBuilder.tsx:57-66 | Adding a layer appends it to the first matching shell's layers; shells with another id keep theirs. |
| StructureBuilder.AddLayerAbsent | src/components/Campaign/CampaignStructureBuilder.tsx:57-66 | Adding a layer to a missing shell changes no shell. |
| StructureBuilder.DuplicateLayerAppends | src/components/Campaign/CampaignStructureBuilder.tsx:68-78 | A layer is duplicated iff its shell and the layer exist, and the copy is appended to the shell's layers. |
| StructureBuilder.DeleteLayerRemoves | src/components/Campaign/CampaignStructureBuilder.tsx:80-87 | A layer deletion happens iff the shell exists, and it removes exactly the layers with that id from the first matching shell. |
| StructureBuilder.UpdateLayerMerges | src/components/Campaign/CampaignStructureBuilder.tsx:89-98 | A layer update happens iff the shell exists, and it merges into the matching layers of the first matching shell only. |
| StructureBuilder.AddCreativeAppends | src/components/Campaign/CampaignStructureBuilder.tsx:100-111 | Adding a creative to an existing layer appends it to that layer's creatives. |
| StructureBuilder.DuplicateCreativeAppends | src/components/Campaign/CampaignStructureBuilder.tsx:113-123 | When the layer and the creative exist, the copy of the creative's first match, under the fresh id, is appended at the end of the creatives of the first matching layer of the first matching shell; that shell keeps its number of layers. |
| StructureBuilder.DeleteCreativeRemoves | src/components/Campaign/CampaignStructureBuilder.tsx:125-133 | A creative deletion happens iff the shell and the layer exist; the first matching layer of the first matching shell then holds exactly its creatives without that id, in order, and the shell keeps its number of layers. |
| StructureBuilder.DuplicateCreativeNeedsAll | src/components/Campaign/CampaignStructureBuilder.tsx:113-123 | A creative is duplicated iff its shell, its layer and the creative exist. |
| StructureBuilder.EditCreativeKeepsUtmEdit | src/components/Campaign/CampaignStructureBuilder.tsx:135-155 | An update that brings a truthy UTM URL keeps that URL as given. |
| StructureBuilder.EditCreativeDerivesUtm | src/components/Campaign/CampaignStructureBuilder.tsx:143-145 | A truthy landing page without a UTM URL makes the URL be recomputed from the new page and the merged parameters. |
| StructureBuilder.EditCreativeNoDerivation | src/components/Campaign/CampaignStructureBuilder.tsx:143-145 | Without a truthy landing page, the UTM URL is only what the merge gives. |
| StructureBuilder.Toggled | src/components/Campaign/CampaignStructureBuilder.tsx:24-32 | The id is in the new set iff it was not in the old one; every other id keeps its membership. |
| StructureBuilder.ToggleTwice | src/components/Campaign/CampaignStructureBuilder.tsx:24-42 | Toggling twice restores the set. |
| StructureBuilder.Builder.constructor | src/components/Campaign/CampaignStructureBuilder.tsx:20-22 | A new builder holds the given shells, expands nothing, and uses the given store. |
| StructureBuilder.Builder.ToggleCampaignExpansion | src/components/Campaign/CampaignStructureBuilder.tsx:24-32 | The campaign's expansion flips; the shells and the layer expansions stay. |
| StructureBuilder.Builder.ToggleTargetingExpansion | src/components/Campaign/CampaignStructureBuilder.tsx:34-42 | The layer's expansion flips; the shells and the campaign expansions stay. |
| StructureBuilder.Builder.UpdateCampaignShell | src/components/Campaign/CampaignStructureBuilder.tsx:44-55 | The matching shells are merged and published, and the updated shell is saved when one has the id; the expansions stay. |
| StructureBuilder.Builder.Commit | src/components/Campaign/CampaignStructureBuilder.tsx:44-55 | A handler's update, if it has one, is applied and saved; without one, nothing changes. |
| StructureBuilder.Builder.AddTargetingLayer | src/components/Campaign/CampaignStructureBuilder.tsx:57-66 | A blank layer is appended to the campaign, and the new layer is expanded whether or not the campaign exists. |
| StructureBuilder.Builder.DuplicateTargetingLayerHandler | src/components/Campaign/CampaignStructureBuilder.tsx:68-78 | The layer copy is committed, and the copy is expanded only when it was made. |
| StructureBuilder.Builder.DeleteTargetingLayer | src/components/Campaign/CampaignStructureBuilder.tsx:80-87 | The deletion update is committed; the expansions stay. |
| StructureBuilder.Builder.UpdateTargetingLayer | src/components/Campaign/CampaignStructureBuilder.tsx:89-98 | The layer update is committed; the expansions stay. |
| StructureBuilder.Builder.AddCreativeShell | src/components/Campaign/CampaignStructureBuilder.tsx:100-111 | A blank creative with the fresh id is added to the layer and committed; the expansions stay. |
| StructureBuilder.Builder.DuplicateCreativeShellHandler | src/components/Campaign/CampaignStructureBuilder.tsx:113-123 | The shells become the duplication patch applied to the old shells, committed only when the layer and the creative exist; the expansions stay. With `DuplicateCreativeAppends`, the copy lands at the end of that layer's creatives. |
| StructureBuilder.Builder.DeleteCreativeShell | src/components/Campaign/CampaignStructureBuilder.tsx:125-133 | The shells become the deletion patch applied to the old shells; the expansions stay. With `DeleteCreativeRemoves`, exactly the creatives with the id leave that layer and the rest stay in order. |
| StructureBuilder.Builder.UpdateCreativeShell | src/components/Campaign/CampaignStructureBuilder.tsx:135-155 | The creative edit, with the UTM URL recomputed as specified, is committed; the expansions stay. |
| Export.FullUtmUrlSpec | src/utils/exportHelpers.ts:26-34 | `FullUtmUrl`: without a term the URL is the landing page itself; with one, it is the landing page followed by `?utm_term=` and the encoded term. |
| Export.CreativeRows | src/utils/exportHelpers.ts:25-50 | An ad set gives exactly one row per creative. |
| Export.CreativeRowsAt | src/utils/exportHelpers.ts:25-50 | Row `k` of an ad set's rows is the row of its creative `k`. |
| Export.AdSetRowsCount | src/utils/exportHelpers.ts:24-52 | A campaign gives as many rows as its ad sets hold creatives. |
| Export.ExportRowsCount | src/utils/exportHelpers.ts:20-56 | `ExportRows`: the export has exactly one row per creative, so campaigns and ad sets without creatives give none. |
| Export.ExportRowsPrefix | src/utils/exportHelpers.ts:20-56 | The rows of earlier campaigns come first, in order. |
| Export.ExportRowsConcat | src/utils/exportHelpers.ts:20-56 | Exporting two campaign lists one after the other gives the two exports one after the other. |
| Export.GenerateExportData | src/utils/exportHelpers.ts:20-56 | The three nested loops return the specified export rows. |
| Export.Double | src/utils/exportHelpers.ts:159 | Doubling quotes lengthens the text by its number of quotes. |
| Export.EscapeCsvField | src/utils/exportHelpers.ts:156-162 | A field without comma, quote or newline is unchanged. Any other field is wrapped in quotes, with its length grown by its quote count plus two. |
| Export.UndoubleDouble | src/utils/exportHelpers.ts:159 | Undoing the doubling gives back the original text. |
| Export.EscapeRoundTrip | src/utils/exportHelpers.ts:156-162 | Reading an escaped field back gives the original text. |
| Export.DoubleAvoids | src/utils/exportHelpers.ts:159 | Doubling adds no character other than quotes. |
| Export.DoublePairs | src/utils/exportHelpers.ts:159 | A doubled text has exactly twice as many quotes. |
| Export.TitlesPlain | src/utils/exportHelpers.ts:65-79 | There are thirteen column titles, and none contains a comma or a newline. |
| Export.HeaderColumns | src/utils/exportHelpers.ts:65-81 | The header line splits back into the thirteen titles, and contains no newline. |
| Export.Values | src/utils/exportHelpers.ts:84-98 | Every data line has thirteen values, one per title. |
| Export.CsvLines | src/utils/exportHelpers.ts:81-100 | The lines are the header line followed by one line per row. |
| Export.CsvLinesAt | src/utils/exportHelpers.ts:83-100 | After the header, line `k + 1` is the line of row `k`. |
| Export.JoinLines | src/utils/exportHelpers.ts:81-102 | The row loop followed by the join returns the header line and one line per row, joined by newlines. |
| Export.ExportToCsv | src/utils/exportHelpers.ts:58-103 | The result is "No data to export" when there are no rows, and otherwise the CSV text of the export rows. |
| Export.EscapeAvoidsNewline | src/utils/exportHelpers.ts:156-162 | Escaping adds no newline. |
| Export.LineAvoidsNewline | src/utils/exportHelpers.ts:84-99 | A row whose values contain no newline gives a line without one. |
| Export.CsvTextLines | src/utils/exportHelpers.ts:58-103 | `CsvText`: when no field contains a newline, splitting the text on newlines gives the header line and one line per row, in order. |

## Left out

- Input and output are not modelled:
  - the `FileReader` and file upload;
  - drag and drop and sheet selection;
  - the React state setters, rendering, and the preview totals;
  - console logging.
- The spreadsheet library (`xlsx`, `sheet_to_json` and its three option sets) is not modelled. A sheet is the grid of cell texts it yields, and the workbook is its list of sheet names.
- The "Failed to parse Excel file", "Failed to parse CSV file" and "Failed to read file" rejections, and the paste path's "Failed to parse data" rethrow, are not modelled: they only report exceptions thrown by the library or the runtime.
- `localStorage`, `JSON.stringify`/`JSON.parse` and the `typeof window` test are not modelled:
  - each store is a class whose field is the stored list;
  - `Load` and `LoadCampaignShells` take the stored text and a decoder as parameters;
  - `saveCampaignShells` and `saveCampaigns` are the field assignments.
- `uuidv4`, `Date.now` and `Math.random` are parameters:
  - an id source numbered by position for shells, layers and creatives;
  - a `stamp` function for the time and random parts of a row id.
- `new URL`, `URLSearchParams` and `String(number)` are function parameters (`serialize`, `encode` and `show`). So whether a URL parses, and the exact encoding, are not modelled.
- `toLowerCase` is modelled on the ASCII letters only. Other case mappings are not.
- `parseFloat` is modelled as a reader of a sign, digits, a point and digits into an exact rational. Exponents, `Infinity` and floating-point rounding are not modelled.
- `exportToExcel`, `downloadFile`, `generateCampaignName`, `formatCurrency` and `formatDate` are not part of this model: they are file output, date arithmetic or locale formatting.
- The other handlers of `CampaignStructureBuilder`, after line 155, are not part of this model: they are rendering.
- Extract.OtherCount, Tokenizer.Standalone: strings are sequences of code points, while JavaScript's `.length` counts UTF-16 code units. So the noise test `replace(/[\d\s]/g,'').length < 10` (src/utils/blockingChartParser.ts:85 and src/components/Import/FileBasedBlockingChartImport.tsx:344) and the standalone test `part.length <= 3` (src/utils/blockingChartParser.ts:282) count a character outside the Basic Multilingual Plane once instead of twice. They agree with the source on text within that plane.
- Storage.Remove: the function's own contract states only the length bound. What survives the filter is stated by `Storage.RemoveDrops` and `Storage.RemoveKeeps`.
