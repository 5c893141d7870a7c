/**
 * The blocking-chart row record (`BlockingChartRow`, src/utils/blockingChartParser.ts:1-20),
 * its category, the column map of both parsers, and the keyword categoriser of each.
 */
module Rows {
  import opened Options
  import opened Text

  /** The two ingestion paths: pasted text, or a spreadsheet / CSV file. */
  datatype Source = Paste | File

  datatype Category = BrandSayDigital | BrandSaySocial | OtherSaySocial | Uncategorized

  /**
   * One accepted row. `category` and `selected` are optional in the source's type;
   * `startDate`/`endDate` are only set by the file path and by the import step.
   */
  datatype Row = Row(
    id: string,
    channel: string, tactic: string, platform: string, objective: string, placements: string,
    optimization: string, kpi: string, demoTargeting: string, cpmCpp: string,
    impressionsGrps: string, mediaCost: string, adServing: string, dvCost: string,
    mediaFee: string, totalWorkingMediaBudget: string,
    category: Option<Category>, selected: bool,
    startDate: Option<string>, endDate: Option<string>)

  /** Column index of each semantic field; -1 stands for "not mapped". */
  datatype ColumnMap = ColumnMap(
    channel: int, tactic: int, platform: int, objective: int, placements: int,
    optimization: int, kpi: int, demoTargeting: int, cpmCpp: int, impressionsGrps: int,
    mediaCost: int, adServing: int, dvCost: int, mediaFee: int, totalWorkingMediaBudget: int)

  /** `values[i] || ''`: an index outside the row (including -1) reads as the empty string. */
  function Cell(values: seq<string>, i: int): (r: string)
    ensures 0 <= i < |values| ==> r == values[i]
    ensures !(0 <= i < |values|) ==> r == ""
  {
    if 0 <= i < |values| then values[i] else ""
  }

  // ------------------------------------------------------------ categoriser

  const PasteDigitalKeys: seq<string> := ["digital video", "digital display", "display banners", "skippable",
    "online video", "search", "programmatic", "trade desk", "the trade desk", "dv360", "google ads",
    "youtube", "display"]

  const FileDigitalKeys: seq<string> := ["digital video", "digital display", "display banners", "skippable",
    "search", "programmatic", "trade desk", "google ads", "youtube", "display"]

  const SocialKeys: seq<string> := ["paid social", "social", "meta", "facebook", "instagram", "tiktok",
    "pinterest", "twitter", "linkedin", "snapchat", "in-feed", "video pins", "static pins", "idea ads"]

  const OtherSocialKeys: seq<string> := ["influencer", "ugc", "user generated", "creator", "partnership",
    "sponsored"]

  function DigitalKeys(src: Source): seq<string> {
    if src == Paste then PasteDigitalKeys else FileDigitalKeys
  }

  /** The lower-cased text the categoriser searches: channel, a space, platform. */
  function Combined(channel: string, platform: string, src: Source): string {
    if src == Paste then Lower(Lower(channel) + " " + Lower(platform)) else Lower(channel + " " + platform)
  }

  /** The three keyword sets, tried in order; the first that has a key in the text decides. */
  function CategoryOf(text: string, src: Source): (c: Category)
    ensures c == BrandSayDigital <==> ContainsAny(text, DigitalKeys(src))
    ensures c == BrandSaySocial <==> !ContainsAny(text, DigitalKeys(src)) && ContainsAny(text, SocialKeys)
    ensures c == OtherSaySocial <==>
      !ContainsAny(text, DigitalKeys(src)) && !ContainsAny(text, SocialKeys) && ContainsAny(text, OtherSocialKeys)
  {
    if ContainsAny(text, DigitalKeys(src)) then BrandSayDigital
    else if ContainsAny(text, SocialKeys) then BrandSaySocial
    else if ContainsAny(text, OtherSocialKeys) then OtherSaySocial
    else Uncategorized
  }

  /**
   * `autoCategorizeCampaign(channel, platform)`: src/utils/blockingChartParser.ts:370-421
   * for the paste path, src/components/Import/FileBasedBlockingChartImport.tsx:645-673 for files.
   */
  function Categorize(channel: string, platform: string, src: Source): Category {
    CategoryOf(Combined(channel, platform, src), src)
  }

  /** Both paths search the same text: lower-casing each part first changes nothing. */
  lemma CombinedSame(channel: string, platform: string)
    ensures Combined(channel, platform, Paste) == Combined(channel, platform, File)
  {
    LowerConcat(channel, " " + platform);
    LowerConcat(" ", platform);
    LowerConcat(Lower(channel), " " + Lower(platform));
    LowerConcat(" ", Lower(platform));
    LowerIdempotent(channel);
    LowerIdempotent(platform);
  }

  /** A digital keyword wins over any social keyword in the same text. */
  lemma DigitalWins(channel: string, platform: string, src: Source, key: string)
    requires key in DigitalKeys(src) && Contains(Combined(channel, platform, src), key)
    ensures Categorize(channel, platform, src) == BrandSayDigital
  {
  }

  /** Every key of the file path's digital set is also a key of the paste path's. */
  lemma FileDigitalInPaste(t: string)
    requires ContainsAny(t, FileDigitalKeys)
    ensures ContainsAny(t, PasteDigitalKeys)
  {
    var key :| key in FileDigitalKeys && Contains(t, key);
    assert key in PasteDigitalKeys;
  }

  /** A paste-path digital key other than "online video" and "dv360" is covered by a file-path key. */
  lemma PasteDigitalInFile(t: string)
    requires ContainsAny(t, PasteDigitalKeys)
    requires !Contains(t, "online video") && !Contains(t, "dv360")
    ensures ContainsAny(t, FileDigitalKeys)
  {
    var key :| key in PasteDigitalKeys && Contains(t, key);
    if key == "the trade desk" {
      assert OccursAt("the trade desk", "trade desk", 4);
      ContainsTrans(t, "the trade desk", "trade desk");
      assert "trade desk" in FileDigitalKeys;
    } else {
      assert key != "online video" && key != "dv360";
      assert key in FileDigitalKeys;
    }
  }

  /**
   * The file path's smaller digital set loses only "online video", "dv360" and "the trade desk";
   * the last is covered by "trade desk", so the two categorisers differ only on text
   * that holds "online video" or "dv360".
   */
  lemma CategorizersAgree(channel: string, platform: string)
    requires !Contains(Combined(channel, platform, Paste), "online video")
    requires !Contains(Combined(channel, platform, Paste), "dv360")
    ensures Categorize(channel, platform, Paste) == Categorize(channel, platform, File)
  {
    CombinedSame(channel, platform);
    var t := Combined(channel, platform, Paste);
    if ContainsAny(t, PasteDigitalKeys) {
      PasteDigitalInFile(t);
    } else if ContainsAny(t, FileDigitalKeys) {
      FileDigitalInPaste(t);
    }
  }

  lemma CombinedDv360()
    ensures Combined("DV360", "", Paste) == "dv360 " && Combined("DV360", "", File) == "dv360 "
  {
    assert Lower("DV360") == "dv360";
    CombinedSame("DV360", "");
  }

  lemma NoKeyInDv360(keys: seq<string>)
    requires forall k :: 0 <= k < |keys| ==> keys[k] != [] && (|keys[k]| > 6 || keys[k][0] !in "dv360 ")
    ensures !ContainsAny("dv360 ", keys)
  {
    forall key | key in keys ensures !Contains("dv360 ", key) {
      NotContained("dv360 ", key);
    }
  }

  /** "DV360" alone is digital when pasted... */
  lemma Dv360Pasted()
    ensures Categorize("DV360", "", Paste) == BrandSayDigital
  {
    CombinedDv360();
    assert OccursAt("dv360 ", "dv360", 0);
    assert "dv360" in PasteDigitalKeys;
  }

  /** ...and uncategorised when uploaded. */
  lemma Dv360Uploaded()
    ensures Categorize("DV360", "", File) == Uncategorized
  {
    CombinedDv360();
    NoKeyInDv360(FileDigitalKeys);
    NoKeyInDv360(SocialKeys);
    NoKeyInDv360(OtherSocialKeys);
  }

  /**
   * In general: a text holding "dv360" but no key of the file path's three sets is digital
   * when pasted and uncategorised when uploaded.
   */
  lemma Dv360Only(channel: string, platform: string)
    requires Contains(Combined(channel, platform, Paste), "dv360")
    requires var t := Combined(channel, platform, File);
      !ContainsAny(t, FileDigitalKeys) && !ContainsAny(t, SocialKeys) && !ContainsAny(t, OtherSocialKeys)
    ensures Categorize(channel, platform, Paste) == BrandSayDigital
    ensures Categorize(channel, platform, File) == Uncategorized
  {
    assert "dv360" in PasteDigitalKeys;
  }

  // ------------------------------------------------------------ labels

  /** `getCategoryLabel`: a missing category reads as "Uncategorized". */
  function CategoryLabel(c: Option<Category>): string {
    match c
    case Some(BrandSayDigital) => "Brand Say Digital"
    case Some(BrandSaySocial) => "Brand Say Social"
    case Some(OtherSaySocial) => "Other Say Social"
    case _ => "Uncategorized"
  }

  /** `getCategoryColor`: the badge classes of each category. */
  function CategoryColor(c: Option<Category>): string {
    match c
    case Some(BrandSayDigital) => "bg-blue-100 text-blue-800"
    case Some(BrandSaySocial) => "bg-green-100 text-green-800"
    case Some(OtherSaySocial) => "bg-purple-100 text-purple-800"
    case _ => "bg-gray-100 text-gray-800"
  }

  /** Distinct categories get distinct labels and colours; a missing one looks uncategorised. */
  lemma LabelsDistinguish(a: Option<Category>, b: Option<Category>)
    ensures (CategoryLabel(a) == CategoryLabel(b)) <==> (a.GetOr(Uncategorized) == b.GetOr(Uncategorized))
    ensures (CategoryColor(a) == CategoryColor(b)) <==> (a.GetOr(Uncategorized) == b.GetOr(Uncategorized))
  {
  }
}
