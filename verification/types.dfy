/**
 * The records of src/types/index.ts: the campaign shells built from blocking-chart rows
 * (shell, targeting layer, creative), and the older campaign / ad set / creative records
 * that storage and export work on.
 */
module Types {
  import opened Options
  import opened Rows

  /** `UTMParameters`: only the optional term. */
  datatype Utm = Utm(term: Option<string>)

  /** `CreativeShell`; `assetLink` and `youtubeUrl` are optional. */
  datatype Creative = Creative(
    id: string, name: string, accuticsTaxonomyName: string,
    assetLink: Option<string>, youtubeUrl: Option<string>,
    landingPage: string, landingPageWithUTM: string, utmParameters: Utm)

  /** `TargetingLayer`. */
  datatype Layer = Layer(id: string, audienceName: string, accuticsLineItem: string, creatives: seq<Creative>)

  /** `CampaignShell`; its category is always one of the four. */
  datatype Shell = Shell(
    id: string, name: string, accuticsCampaignName: string,
    channel: string, platform: string, objective: string, placements: string,
    impressions: string, workingMediaBudget: string, category: Category,
    targetingLayers: seq<Layer>, startDate: Option<string>, endDate: Option<string>)

  /** The older `Creative`. */
  datatype PlanCreative = PlanCreative(id: string, name: string, assetType: string, landingPage: string, utmParameters: Utm)

  /** `AdSet`; the budget is a number. */
  datatype AdSet = AdSet(id: string, name: string, budget: real, targeting: string, creatives: seq<PlanCreative>)

  /** `Campaign`. */
  datatype Campaign = Campaign(
    id: string, name: string, client: string, startDate: string, endDate: string,
    totalBudget: real, adSets: seq<AdSet>)

  function ShellId(s: Shell): string { s.id }

  function LayerId(l: Layer): string { l.id }

  function CreativeId(c: Creative): string { c.id }

  function CampaignId(c: Campaign): string { c.id }

  /** `x && ...` for an optional string: present and not empty. */
  predicate Truthy(o: Option<string>) {
    o.Some? && o.value != ""
  }
}
