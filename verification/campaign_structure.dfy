/**
 * From blocking-chart rows to campaign shells (src/utils/campaignStructure.ts): one shell per
 * row with its names and a single targeting layer, the constructors of layers and creatives,
 * their duplication, the UTM landing-page rule, and the shell store.
 * Fresh ids (`uuidv4`) are parameters; the URL serialiser is a parameter too.
 */
module CampaignStructure {
  import opened Options
  import opened Text
  import opened Rows
  import opened Types
  import opened Storage

  // ------------------------------------------------------------ names

  /** `${channel} ${tactic}`. */
  function NameText(row: Row): string {
    row.channel + " " + row.tactic
  }

  /** `generateCampaignShellName`: the text trimmed, nothing else. */
  function ShellName(row: Row): string {
    Trim(NameText(row))
  }

  /** The shell name is trimmed, and it is empty exactly when channel and tactic hold only whitespace. */
  lemma ShellNameSpec(row: Row)
    ensures Trim(ShellName(row)) == ShellName(row)
    ensures ShellName(row) == "" <==> AllSpace(row.channel + " " + row.tactic)
  {
    TrimIdempotent(NameText(row));
    TrimEmptyIff(NameText(row));
  }

  /** Every whitespace character is a plain space, and no two whitespace characters are adjacent. */
  predicate SingleSpaced(s: string) {
    forall i :: 0 <= i < |s| ==> (IsSpace(s[i]) ==> s[i] == ' ') && (i + 1 < |s| && IsSpace(s[i]) ==> !IsSpace(s[i + 1]))
  }

  /** `replace(/\s+/g, ' ')`: each run of whitespace becomes one space. */
  function Collapse(s: string): (r: string)
    ensures SingleSpaced(r)
    ensures r != [] <==> s != []
    ensures r != [] ==> (IsSpace(r[0]) <==> IsSpace(s[0]))
    decreases |s|
  {
    if s == [] then []
    else if IsSpace(s[0]) then
      var rest := Collapse(TrimStart(s[1..]));
      ConsSingleSpaced(' ', rest);
      [' '] + rest
    else
      var rest := Collapse(s[1..]);
      ConsSingleSpaced(s[0], rest);
      [s[0]] + rest
  }

  lemma ConsSingleSpaced(c: char, r: string)
    requires SingleSpaced(r) && (IsSpace(c) ==> c == ' ' && (r == [] || !IsSpace(r[0])))
    ensures SingleSpaced([c] + r)
  {
    var s := [c] + r;
    forall i | 1 <= i < |s| ensures s[i] == r[i - 1] {
    }
  }

  /** `generateAccuticsCampaignName`: whitespace runs collapsed, then trimmed. */
  function AccuticsName(row: Row): string {
    Trim(Collapse(NameText(row)))
  }

  /** Text that is already single-spaced is left alone by the collapse. */
  lemma {:induction false} CollapseOfSingleSpaced(s: string)
    requires SingleSpaced(s)
    ensures Collapse(s) == s
  {
    if s != [] {
      assert SingleSpaced(s[1..]) by {
        forall i | 0 <= i < |s[1..]| ensures (IsSpace(s[1..][i]) ==> s[1..][i] == ' ')
          && (i + 1 < |s[1..]| && IsSpace(s[1..][i]) ==> !IsSpace(s[1..][i + 1]))
        {
          assert s[1..][i] == s[i + 1];
          assert i + 1 < |s[1..]| ==> s[1..][i + 1] == s[i + 2];
        }
      }
      if IsSpace(s[0]) {
        assert |s| > 1 ==> !IsSpace(s[1]);
        assert s[1..] == [] || !IsSpace(s[1..][0]);
        assert TrimStart(s[1..]) == s[1..];
      }
      CollapseOfSingleSpaced(s[1..]);
      assert s == [s[0]] + s[1..];
    }
  }

  /** A slice of single-spaced text is single-spaced. */
  lemma SliceSingleSpaced(s: string, lo: nat, hi: nat)
    requires lo <= hi <= |s| && SingleSpaced(s)
    ensures SingleSpaced(s[lo..hi])
  {
    forall i | 0 <= i < hi - lo ensures s[lo..hi][i] == s[lo + i] {
    }
  }

  /** The accutics name is trimmed and single-spaced. */
  lemma AccuticsNameClean(row: Row)
    ensures SingleSpaced(AccuticsName(row))
    ensures Trim(AccuticsName(row)) == AccuticsName(row)
  {
    var c := Collapse(NameText(row));
    var lo, hi := TrimIsSlice(c);
    SliceSingleSpaced(c, lo, hi);
    TrimIdempotent(c);
  }

  /** When the name text has no whitespace runs and no tabs, the accutics name is the shell name. */
  lemma AccuticsNameIsShellName(row: Row)
    requires SingleSpaced(NameText(row))
    ensures AccuticsName(row) == ShellName(row)
  {
    CollapseOfSingleSpaced(NameText(row));
  }

  /** Collapsing twice is collapsing once. */
  lemma CollapseIdempotent(s: string)
    ensures Collapse(Collapse(s)) == Collapse(s)
  {
    CollapseOfSingleSpaced(Collapse(s));
  }

  // ------------------------------------------------------------ constructors

  /** `createTargetingLayer`. */
  function CreateTargetingLayer(audienceName: string, accuticsLineItem: string, id: string): (l: Layer)
    ensures l.creatives == []
  {
    Layer(id, audienceName, accuticsLineItem, [])
  }

  /** `createInitialTargetingLayer`: the row's audience text, unfiltered, and no line item. */
  function InitialLayers(row: Row, layerId: string): seq<Layer> {
    [CreateTargetingLayer(row.demoTargeting, "", layerId)]
  }

  /** What a shell built from a row holds: the row's fields, the two names and one empty layer. */
  predicate ShellFromRow(s: Shell, row: Row) {
    s.name == Trim(row.channel + " " + row.tactic)
    && s.accuticsCampaignName == Trim(Collapse(row.channel + " " + row.tactic))
    && s.channel == row.channel && s.platform == row.platform
    && s.objective == row.objective && s.placements == row.placements
    && s.impressions == row.impressionsGrps && s.workingMediaBudget == row.totalWorkingMediaBudget
    && (row.category.Some? ==> s.category == row.category.value)
    && (row.category.None? ==> s.category == Uncategorized)
    && |s.targetingLayers| == 1
    && s.targetingLayers[0].audienceName == row.demoTargeting
    && s.targetingLayers[0].accuticsLineItem == ""
    && s.targetingLayers[0].creatives == []
    && s.startDate.None? && s.endDate.None?
  }

  /** One shell of `convertBlockingChartToCampaignShells`; no flight dates are copied. */
  function ToShell(row: Row, shellId: string, layerId: string): Shell {
    Shell(shellId, ShellName(row), AccuticsName(row),
      row.channel, row.platform, row.objective, row.placements,
      row.impressionsGrps, row.totalWorkingMediaBudget, row.category.GetOr(Uncategorized),
      InitialLayers(row, layerId), None, None)
  }

  /** `convertBlockingChartToCampaignShells`; shell `k` takes fresh id `2k` and its layer `2k + 1`. */
  function ConvertRows(rows: seq<Row>, uuid: nat -> string): (shells: seq<Shell>)
    ensures |shells| == |rows|
  {
    seq(|rows|, k requires 0 <= k < |rows| => ToShell(rows[k], uuid(2 * k), uuid(2 * k + 1)))
  }

  /** One shell per row, in order, each built from its own row. */
  lemma ConvertSpec(rows: seq<Row>, uuid: nat -> string)
    ensures forall k :: 0 <= k < |rows| ==> ShellFromRow(ConvertRows(rows, uuid)[k], rows[k])
  {
    forall k | 0 <= k < |rows| ensures ShellFromRow(ConvertRows(rows, uuid)[k], rows[k]) {
      var s := ConvertRows(rows, uuid)[k];
      assert s == ToShell(rows[k], uuid(2 * k), uuid(2 * k + 1));
    }
  }

  /** Shell `k` carries fresh id `2k`, its one layer `2k + 1`. */
  lemma ConvertIds(rows: seq<Row>, uuid: nat -> string, k: nat)
    requires k < |rows|
    ensures |ConvertRows(rows, uuid)| == |rows|
    ensures ConvertRows(rows, uuid)[k].id == uuid(2 * k)
    ensures ConvertRows(rows, uuid)[k].targetingLayers == [CreateTargetingLayer(rows[k].demoTargeting, "", uuid(2 * k + 1))]
  {
  }

  /** With an injective id source, every shell and layer id of a conversion is different. */
  lemma ConvertIdsDistinct(rows: seq<Row>, uuid: nat -> string)
    requires forall a: nat, b: nat :: uuid(a) == uuid(b) ==> a == b
    ensures forall k, l :: 0 <= k < l < |rows| ==> ConvertRows(rows, uuid)[k].id != ConvertRows(rows, uuid)[l].id
    ensures forall k, l :: 0 <= k < |rows| && 0 <= l < |rows| ==>
      |ConvertRows(rows, uuid)[l].targetingLayers| == 1
      && ConvertRows(rows, uuid)[k].id != ConvertRows(rows, uuid)[l].targetingLayers[0].id
  {
    var r := ConvertRows(rows, uuid);
    forall k, l | 0 <= k < l < |rows| ensures r[k].id != r[l].id {
      ConvertIds(rows, uuid, k);
      ConvertIds(rows, uuid, l);
    }
    forall k, l | 0 <= k < |rows| && 0 <= l < |rows|
      ensures |r[l].targetingLayers| == 1 && r[k].id != r[l].targetingLayers[0].id
    {
      ConvertIds(rows, uuid, k);
      ConvertIds(rows, uuid, l);
      assert 2 * k != 2 * l + 1;
    }
  }

  // ------------------------------------------------------------ creatives and UTM

  /**
   * `generateUTMUrl`: empty or blank base URLs give "". Otherwise `serialize` stands for
   * `new URL` with `utm_term` set when the term is truthy: `None` when the URL is invalid,
   * and then the base URL comes back unchanged.
   */
  function GenerateUtmUrl(baseUrl: string, params: Utm, serialize: (string, Option<string>) -> Option<string>): (r: string)
    ensures Trim(baseUrl) == "" ==> r == ""
    ensures Trim(baseUrl) != "" ==>
      var term := if Truthy(params.term) then params.term else None;
      r == (if serialize(baseUrl, term).Some? then serialize(baseUrl, term).value else baseUrl)
  {
    if baseUrl == "" || Trim(baseUrl) == "" then ""
    else
      var term := if Truthy(params.term) then params.term else None;
      match serialize(baseUrl, term)
      case Some(u) => u
      case None => baseUrl
  }

  /**
   * `createCreativeShell`: the given fields, no UTM term, an empty taxonomy name unless one is
   * given, and a UTM URL that is empty for a blank landing page, the serialized page without a
   * term when it parses, and the page itself when it does not.
   */
  function CreateCreativeShell(
    name: string, landingPage: string, assetLink: Option<string>, youtubeUrl: Option<string>,
    accuticsTaxonomyName: Option<string>, id: string, serialize: (string, Option<string>) -> Option<string>): (c: Creative)
    ensures c.utmParameters.term.None? && c.id == id && c.name == name && c.landingPage == landingPage
    ensures c.assetLink == assetLink && c.youtubeUrl == youtubeUrl
    ensures accuticsTaxonomyName.None? ==> c.accuticsTaxonomyName == ""
    ensures accuticsTaxonomyName.Some? ==> c.accuticsTaxonomyName == accuticsTaxonomyName.value
    ensures Trim(landingPage) == "" ==> c.landingPageWithUTM == ""
    ensures Trim(landingPage) != "" && serialize(landingPage, None).Some? ==>
      c.landingPageWithUTM == serialize(landingPage, None).value
    ensures Trim(landingPage) != "" && serialize(landingPage, None).None? ==> c.landingPageWithUTM == landingPage
  {
    var utm := Utm(None);
    Creative(id, name, accuticsTaxonomyName.GetOr(""), assetLink, youtubeUrl,
      landingPage, GenerateUtmUrl(landingPage, utm, serialize), utm)
  }

  // ------------------------------------------------------------ duplication

  /**
   * `duplicateCreativeShell`: a fresh id, the new name when truthy, everything else copied. The
   * copy differs from its original in the id, and in the name only when a new one is given.
   */
  function DuplicateCreativeShell(creative: Creative, newName: Option<string>, id: string): (d: Creative)
    ensures d.id == id
    ensures !Truthy(newName) ==> d.(id := creative.id) == creative
    ensures Truthy(newName) ==> d.(id := creative.id, name := creative.name) == creative && d.name == newName.value
  {
    creative.(id := id, name := if Truthy(newName) then newName.value else creative.name)
  }

  /**
   * `duplicateTargetingLayer`: creative `k` of the copy takes fresh id `creativeIds(k)`. The copy
   * keeps its line item and its creatives in order, each only re-identified.
   */
  function DuplicateTargetingLayer(layer: Layer, newAudienceName: Option<string>, id: string, creativeIds: nat -> string): (d: Layer)
    ensures d.id == id && d.accuticsLineItem == layer.accuticsLineItem
    ensures d.audienceName == (if Truthy(newAudienceName) then newAudienceName.value else layer.audienceName)
    ensures |d.creatives| == |layer.creatives|
    ensures forall k :: 0 <= k < |layer.creatives| ==>
      d.creatives[k].id == creativeIds(k) && d.creatives[k].(id := layer.creatives[k].id) == layer.creatives[k]
  {
    layer.(
      id := id,
      audienceName := if Truthy(newAudienceName) then newAudienceName.value else layer.audienceName,
      creatives := seq(|layer.creatives|, k requires 0 <= k < |layer.creatives| => layer.creatives[k].(id := creativeIds(k))))
  }

  // ------------------------------------------------------------ the shell store

  /** `loadCampaignShells`: nothing stored, or text that does not parse, gives no shells. */
  function LoadCampaignShells(stored: Option<string>, decode: string -> Option<seq<Shell>>): (shells: seq<Shell>)
    ensures !Truthy(stored) ==> shells == []
    ensures Truthy(stored) && decode(stored.value).None? ==> shells == []
    ensures Truthy(stored) && decode(stored.value).Some? ==> shells == decode(stored.value).value
  {
    Load(stored, decode)
  }

  /** The shells kept in the browser's storage. */
  class ShellStore {
    var shells: seq<Shell>

    constructor()
      ensures shells == []
    {
      shells := [];
    }

    /** `saveCampaignShell`: overwrite the slot of the same id, or push. */
    method SaveCampaignShell(shell: Shell)
      modifies this
      ensures shells == Upsert(old(shells), shell, ShellId)
    {
      var existingIndex := FindIndex(shells, shell.id, ShellId);
      if existingIndex >= 0 {
        shells := shells[existingIndex := shell];
      } else {
        shells := shells + [shell];
      }
    }

    /** `deleteCampaignShell`. */
    method DeleteCampaignShell(shellId: string)
      modifies this
      ensures shells == Remove(old(shells), shellId, ShellId)
    {
      shells := Remove(shells, shellId, ShellId);
    }
  }
}
