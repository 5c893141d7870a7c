/**
 * The editing handlers of the campaign structure builder
 * (src/components/Campaign/CampaignStructureBuilder.tsx:24-155). Each handler computes the
 * partial update it hands to `updateCampaignShell`; that one merges it into the shells with
 * the campaign's id, publishes the new list and saves the updated shell. The two expansion
 * sets are toggled on copies.
 */
module StructureBuilder {
  import opened Options
  import opened Rows
  import opened Types
  import opened Storage
  import opened CampaignStructure

  // ------------------------------------------------------------ partial updates

  /** `Partial<CampaignShell>`: `None` leaves a field; `Some(None)` clears an optional one. */
  datatype ShellPatch = ShellPatch(
    id: Option<string>, name: Option<string>, accuticsCampaignName: Option<string>,
    channel: Option<string>, platform: Option<string>, objective: Option<string>, placements: Option<string>,
    impressions: Option<string>, workingMediaBudget: Option<string>, category: Option<Category>,
    targetingLayers: Option<seq<Layer>>, startDate: Option<Option<string>>, endDate: Option<Option<string>>)

  /** `Partial<TargetingLayer>`. */
  datatype LayerPatch = LayerPatch(
    id: Option<string>, audienceName: Option<string>, accuticsLineItem: Option<string>, creatives: Option<seq<Creative>>)

  /** `Partial<CreativeShell>`. */
  datatype CreativePatch = CreativePatch(
    id: Option<string>, name: Option<string>, accuticsTaxonomyName: Option<string>,
    assetLink: Option<Option<string>>, youtubeUrl: Option<Option<string>>,
    landingPage: Option<string>, landingPageWithUTM: Option<string>, utmParameters: Option<Utm>)

  /** `{ targetingLayers: ... }`. */
  function LayersOnly(layers: seq<Layer>): ShellPatch {
    ShellPatch(None, None, None, None, None, None, None, None, None, None, Some(layers), None, None)
  }

  /** `{ creatives: ... }`. */
  function CreativesOnly(creatives: seq<Creative>): LayerPatch {
    LayerPatch(None, None, None, Some(creatives))
  }

  /** `{ ...shell, ...updates }`. */
  function MergeShell(s: Shell, p: ShellPatch): Shell {
    Shell(p.id.GetOr(s.id), p.name.GetOr(s.name), p.accuticsCampaignName.GetOr(s.accuticsCampaignName),
      p.channel.GetOr(s.channel), p.platform.GetOr(s.platform), p.objective.GetOr(s.objective),
      p.placements.GetOr(s.placements), p.impressions.GetOr(s.impressions),
      p.workingMediaBudget.GetOr(s.workingMediaBudget), p.category.GetOr(s.category),
      p.targetingLayers.GetOr(s.targetingLayers), p.startDate.GetOr(s.startDate), p.endDate.GetOr(s.endDate))
  }

  /** `{ ...layer, ...updates }`. */
  function MergeLayer(l: Layer, p: LayerPatch): Layer {
    Layer(p.id.GetOr(l.id), p.audienceName.GetOr(l.audienceName), p.accuticsLineItem.GetOr(l.accuticsLineItem),
      p.creatives.GetOr(l.creatives))
  }

  /** `{ ...creative, ...updates }`. */
  function MergeCreative(c: Creative, p: CreativePatch): Creative {
    Creative(p.id.GetOr(c.id), p.name.GetOr(c.name), p.accuticsTaxonomyName.GetOr(c.accuticsTaxonomyName),
      p.assetLink.GetOr(c.assetLink), p.youtubeUrl.GetOr(c.youtubeUrl),
      p.landingPage.GetOr(c.landingPage), p.landingPageWithUTM.GetOr(c.landingPageWithUTM),
      p.utmParameters.GetOr(c.utmParameters))
  }

  /** A layers-only update replaces the layers and nothing else. */
  lemma MergeLayersOnly(s: Shell, layers: seq<Layer>)
    ensures MergeShell(s, LayersOnly(layers)) == s.(targetingLayers := layers)
  {
  }

  /** A creatives-only update replaces the creatives and nothing else. */
  lemma MergeCreativesOnly(l: Layer, creatives: seq<Creative>)
    ensures MergeLayer(l, CreativesOnly(creatives)) == l.(creatives := creatives)
  {
  }

  // ------------------------------------------------------------ update by id

  /** `campaignShells.map(shell => shell.id === id ? { ...shell, ...updates } : shell)`. */
  function UpdateShells(shells: seq<Shell>, id: string, p: ShellPatch): (r: seq<Shell>)
    ensures |r| == |shells|
    ensures forall k :: 0 <= k < |shells| && shells[k].id != id ==> r[k] == shells[k]
    ensures forall k :: 0 <= k < |shells| && shells[k].id == id ==> r[k] == MergeShell(shells[k], p)
  {
    seq(|shells|, k requires 0 <= k < |shells| => if shells[k].id == id then MergeShell(shells[k], p) else shells[k])
  }

  /** `targetingLayers.map(layer => layer.id === id ? { ...layer, ...updates } : layer)`. */
  function UpdateLayers(layers: seq<Layer>, id: string, p: LayerPatch): (r: seq<Layer>)
    ensures |r| == |layers|
    ensures forall k :: 0 <= k < |layers| && layers[k].id != id ==> r[k] == layers[k]
    ensures forall k :: 0 <= k < |layers| && layers[k].id == id ==> r[k] == MergeLayer(layers[k], p)
  {
    seq(|layers|, k requires 0 <= k < |layers| => if layers[k].id == id then MergeLayer(layers[k], p) else layers[k])
  }

  /** With no shell of that id, an update leaves the list as it was. */
  lemma UpdateShellsAbsent(shells: seq<Shell>, id: string, p: ShellPatch)
    requires forall k :: 0 <= k < |shells| ==> shells[k].id != id
    ensures UpdateShells(shells, id, p) == shells
  {
    assert forall k :: 0 <= k < |shells| ==> UpdateShells(shells, id, p)[k] == shells[k];
  }

  /** `campaignShells.find(s => s.id === campaignId)`. */
  function FindShell(shells: seq<Shell>, id: string): Option<Shell> {
    Find(shells, id, ShellId)
  }

  /** `campaign?.targetingLayers.find(l => l.id === layerId)`. */
  function FindLayer(shells: seq<Shell>, campaignId: string, layerId: string): Option<Layer> {
    match FindShell(shells, campaignId)
    case None => None
    case Some(c) => Find(c.targetingLayers, layerId, LayerId)
  }

  /** The layers of the first shell with that id, found at its first index. */
  lemma FindShellAt(shells: seq<Shell>, id: string)
    requires FindShell(shells, id).Some?
    ensures var i := FindIndex(shells, id, ShellId);
      0 <= i < |shells| && FindShell(shells, id).value == shells[i] && shells[i].id == id
  {
  }

  // ------------------------------------------------------------ what each handler hands on

  /** `addTargetingLayer`: the first matching shell's layers (or none) plus the new layer. */
  function AddLayerPatch(shells: seq<Shell>, campaignId: string, newLayer: Layer): ShellPatch {
    var existing := match FindShell(shells, campaignId) case Some(c) => c.targetingLayers case None => [];
    LayersOnly(existing + [newLayer])
  }

  /** `duplicateTargetingLayerHandler`: nothing unless both the shell and the layer exist. */
  function DuplicateLayerPatch(shells: seq<Shell>, campaignId: string, layerId: string, newId: string, creativeIds: nat -> string): Option<ShellPatch> {
    match FindShell(shells, campaignId)
    case None => None
    case Some(c) =>
      match Find(c.targetingLayers, layerId, LayerId)
      case None => None
      case Some(l) => Some(LayersOnly(c.targetingLayers + [DuplicateTargetingLayer(l, None, newId, creativeIds)]))
  }

  /** `deleteTargetingLayer`: the shell's layers without those of that id. */
  function DeleteLayerPatch(shells: seq<Shell>, campaignId: string, layerId: string): Option<ShellPatch> {
    match FindShell(shells, campaignId)
    case None => None
    case Some(c) => Some(LayersOnly(Remove(c.targetingLayers, layerId, LayerId)))
  }

  /** `updateTargetingLayer`: the shell's layers with the matching ones merged. */
  function UpdateLayerPatch(shells: seq<Shell>, campaignId: string, layerId: string, p: LayerPatch): Option<ShellPatch> {
    match FindShell(shells, campaignId)
    case None => None
    case Some(c) => Some(LayersOnly(UpdateLayers(c.targetingLayers, layerId, p)))
  }

  /** `addCreativeShell`: the layer's creatives (or none) plus the new creative. */
  function AddCreativePatch(shells: seq<Shell>, campaignId: string, layerId: string, newCreative: Creative): Option<ShellPatch> {
    if FindShell(shells, campaignId).None? then None
    else
      var existing := match FindLayer(shells, campaignId, layerId) case Some(l) => l.creatives case None => [];
      UpdateLayerPatch(shells, campaignId, layerId, CreativesOnly(existing + [newCreative]))
  }

  /** `duplicateCreativeShellHandler`: nothing unless the layer and the creative exist. */
  function DuplicateCreativePatch(shells: seq<Shell>, campaignId: string, layerId: string, creativeId: string, newId: string): Option<ShellPatch> {
    match FindLayer(shells, campaignId, layerId)
    case None => None
    case Some(l) =>
      match Find(l.creatives, creativeId, CreativeId)
      case None => None
      case Some(c) => UpdateLayerPatch(shells, campaignId, layerId, CreativesOnly(l.creatives + [DuplicateCreativeShell(c, None, newId)]))
  }

  /** `deleteCreativeShell`: the layer's creatives without those of that id. */
  function DeleteCreativePatch(shells: seq<Shell>, campaignId: string, layerId: string, creativeId: string): Option<ShellPatch> {
    match FindLayer(shells, campaignId, layerId)
    case None => None
    case Some(l) => UpdateLayerPatch(shells, campaignId, layerId, CreativesOnly(Remove(l.creatives, creativeId, CreativeId)))
  }

  /**
   * One creative of `updateCreativeShell`: merged, and with its UTM URL recomputed from the
   * merged landing page only when the update brings a truthy landing page and no truthy UTM URL.
   */
  function EditCreative(c: Creative, p: CreativePatch, serialize: (string, Option<string>) -> Option<string>): Creative {
    var updated := MergeCreative(c, p);
    if Truthy(p.landingPage) && !Truthy(p.landingPageWithUTM) then
      updated.(landingPageWithUTM := GenerateUtmUrl(updated.landingPage, updated.utmParameters, serialize))
    else updated
  }

  /** `layer.creatives.map(...)`: only the creatives of that id are edited. */
  function EditCreatives(creatives: seq<Creative>, id: string, p: CreativePatch, serialize: (string, Option<string>) -> Option<string>): (r: seq<Creative>)
    ensures |r| == |creatives|
    ensures forall k :: 0 <= k < |creatives| && creatives[k].id != id ==> r[k] == creatives[k]
    ensures forall k :: 0 <= k < |creatives| && creatives[k].id == id ==> r[k] == EditCreative(creatives[k], p, serialize)
  {
    seq(|creatives|, k requires 0 <= k < |creatives| =>
      if creatives[k].id == id then EditCreative(creatives[k], p, serialize) else creatives[k])
  }

  /** `updateCreativeShell`. */
  function UpdateCreativePatch(
    shells: seq<Shell>, campaignId: string, layerId: string, creativeId: string, p: CreativePatch,
    serialize: (string, Option<string>) -> Option<string>): Option<ShellPatch>
  {
    match FindLayer(shells, campaignId, layerId)
    case None => None
    case Some(l) => UpdateLayerPatch(shells, campaignId, layerId, CreativesOnly(EditCreatives(l.creatives, creativeId, p, serialize)))
  }

  /** The shells after a handler: unchanged when it hands nothing on. */
  function Apply(shells: seq<Shell>, campaignId: string, p: Option<ShellPatch>): seq<Shell> {
    if p.Some? then UpdateShells(shells, campaignId, p.value) else shells
  }

  /** The store after `updateCampaignShell`: the updated shell is saved when one has the id. */
  function Saved(stored: seq<Shell>, updated: seq<Shell>, campaignId: string): seq<Shell> {
    match FindShell(updated, campaignId)
    case Some(s) => Upsert(stored, s, ShellId)
    case None => stored
  }

  // ------------------------------------------------------------ handler properties

  /** Adding a layer appends it to the first matching shell; other shells keep theirs. */
  lemma AddLayerAppends(shells: seq<Shell>, campaignId: string, newLayer: Layer)
    requires exists k :: 0 <= k < |shells| && shells[k].id == campaignId
    ensures var r := UpdateShells(shells, campaignId, AddLayerPatch(shells, campaignId, newLayer));
      var i := FindIndex(shells, campaignId, ShellId);
      0 <= i < |shells|
      && r[i] == shells[i].(targetingLayers := shells[i].targetingLayers + [newLayer])
      && forall k :: 0 <= k < |shells| && shells[k].id != campaignId ==> r[k] == shells[k]
  {
    FindShellAt(shells, campaignId);
    var i := FindIndex(shells, campaignId, ShellId);
    MergeLayersOnly(shells[i], shells[i].targetingLayers + [newLayer]);
  }

  /** Adding a layer to a missing shell changes no shell. */
  lemma AddLayerAbsent(shells: seq<Shell>, campaignId: string, newLayer: Layer)
    requires forall k :: 0 <= k < |shells| ==> shells[k].id != campaignId
    ensures UpdateShells(shells, campaignId, AddLayerPatch(shells, campaignId, newLayer)) == shells
  {
    UpdateShellsAbsent(shells, campaignId, AddLayerPatch(shells, campaignId, newLayer));
  }

  /** A layer is duplicated exactly when its shell and the layer exist; the copy goes at the end. */
  lemma DuplicateLayerAppends(shells: seq<Shell>, campaignId: string, layerId: string, newId: string, creativeIds: nat -> string)
    ensures DuplicateLayerPatch(shells, campaignId, layerId, newId, creativeIds).Some? <==> FindLayer(shells, campaignId, layerId).Some?
    ensures FindLayer(shells, campaignId, layerId).Some? ==>
      var r := Apply(shells, campaignId, DuplicateLayerPatch(shells, campaignId, layerId, newId, creativeIds));
      var i := FindIndex(shells, campaignId, ShellId);
      0 <= i < |shells|
      && r[i] == shells[i].(targetingLayers := shells[i].targetingLayers
        + [DuplicateTargetingLayer(FindLayer(shells, campaignId, layerId).value, None, newId, creativeIds)])
  {
    if FindLayer(shells, campaignId, layerId).Some? {
      FindShellAt(shells, campaignId);
      var i := FindIndex(shells, campaignId, ShellId);
      var dup := DuplicateTargetingLayer(FindLayer(shells, campaignId, layerId).value, None, newId, creativeIds);
      MergeLayersOnly(shells[i], shells[i].targetingLayers + [dup]);
    }
  }

  /** Deleting a layer removes exactly the layers of that id from the first matching shell. */
  lemma DeleteLayerRemoves(shells: seq<Shell>, campaignId: string, layerId: string)
    ensures DeleteLayerPatch(shells, campaignId, layerId).Some? <==> FindShell(shells, campaignId).Some?
    ensures FindShell(shells, campaignId).Some? ==>
      var r := Apply(shells, campaignId, DeleteLayerPatch(shells, campaignId, layerId));
      var i := FindIndex(shells, campaignId, ShellId);
      0 <= i < |shells|
      && r[i] == shells[i].(targetingLayers := Remove(shells[i].targetingLayers, layerId, LayerId))
  {
    if FindShell(shells, campaignId).Some? {
      FindShellAt(shells, campaignId);
      var i := FindIndex(shells, campaignId, ShellId);
      MergeLayersOnly(shells[i], Remove(shells[i].targetingLayers, layerId, LayerId));
    }
  }

  /** Updating a layer merges into the matching layers of the first matching shell only. */
  lemma UpdateLayerMerges(shells: seq<Shell>, campaignId: string, layerId: string, p: LayerPatch)
    ensures UpdateLayerPatch(shells, campaignId, layerId, p).Some? <==> FindShell(shells, campaignId).Some?
    ensures FindShell(shells, campaignId).Some? ==>
      var r := Apply(shells, campaignId, UpdateLayerPatch(shells, campaignId, layerId, p));
      var i := FindIndex(shells, campaignId, ShellId);
      0 <= i < |shells|
      && r[i] == shells[i].(targetingLayers := UpdateLayers(shells[i].targetingLayers, layerId, p))
  {
    if FindShell(shells, campaignId).Some? {
      FindShellAt(shells, campaignId);
      var i := FindIndex(shells, campaignId, ShellId);
      MergeLayersOnly(shells[i], UpdateLayers(shells[i].targetingLayers, layerId, p));
    }
  }

  /** Adding a creative to an existing layer appends it to that layer's creatives. */
  lemma AddCreativeAppends(shells: seq<Shell>, campaignId: string, layerId: string, newCreative: Creative)
    requires FindLayer(shells, campaignId, layerId).Some?
    ensures var r := Apply(shells, campaignId, AddCreativePatch(shells, campaignId, layerId, newCreative));
      var i := FindIndex(shells, campaignId, ShellId);
      var j := FindIndex(shells[i].targetingLayers, layerId, LayerId);
      0 <= i < |shells| && 0 <= j < |shells[i].targetingLayers|
      && |r[i].targetingLayers| == |shells[i].targetingLayers|
      && r[i].targetingLayers[j] == shells[i].targetingLayers[j].(creatives := shells[i].targetingLayers[j].creatives + [newCreative])
  {
    FindShellAt(shells, campaignId);
    var i := FindIndex(shells, campaignId, ShellId);
    var layers := shells[i].targetingLayers;
    var j := FindIndex(layers, layerId, LayerId);
    var cs := layers[j].creatives + [newCreative];
    UpdateLayerMerges(shells, campaignId, layerId, CreativesOnly(cs));
    MergeCreativesOnly(layers[j], cs);
  }

  /** A creative is duplicated exactly when its layer and the creative exist. */
  lemma DuplicateCreativeNeedsAll(shells: seq<Shell>, campaignId: string, layerId: string, creativeId: string, newId: string)
    ensures DuplicateCreativePatch(shells, campaignId, layerId, creativeId, newId).Some? <==>
      FindLayer(shells, campaignId, layerId).Some?
      && Find(FindLayer(shells, campaignId, layerId).value.creatives, creativeId, CreativeId).Some?
  {
  }

  /**
   * Duplicating a creative that exists appends its copy under the fresh id to the
   * creatives of the first matching layer of the first matching shell.
   */
  lemma DuplicateCreativeAppends(shells: seq<Shell>, campaignId: string, layerId: string, creativeId: string, newId: string)
    ensures (FindLayer(shells, campaignId, layerId).Some?
      && Find(FindLayer(shells, campaignId, layerId).value.creatives, creativeId, CreativeId).Some?) ==>
      var c := Find(FindLayer(shells, campaignId, layerId).value.creatives, creativeId, CreativeId).value;
      var r := Apply(shells, campaignId, DuplicateCreativePatch(shells, campaignId, layerId, creativeId, newId));
      var i := FindIndex(shells, campaignId, ShellId);
      var j := FindIndex(shells[i].targetingLayers, layerId, LayerId);
      0 <= i < |shells| && 0 <= j < |shells[i].targetingLayers|
      && |r[i].targetingLayers| == |shells[i].targetingLayers|
      && r[i].targetingLayers[j] == shells[i].targetingLayers[j].(creatives := shells[i].targetingLayers[j].creatives
        + [DuplicateCreativeShell(c, None, newId)])
  {
    if FindLayer(shells, campaignId, layerId).Some?
      && Find(FindLayer(shells, campaignId, layerId).value.creatives, creativeId, CreativeId).Some?
    {
      FindShellAt(shells, campaignId);
      var i := FindIndex(shells, campaignId, ShellId);
      var layers := shells[i].targetingLayers;
      var j := FindIndex(layers, layerId, LayerId);
      var c := Find(layers[j].creatives, creativeId, CreativeId).value;
      var cs := layers[j].creatives + [DuplicateCreativeShell(c, None, newId)];
      UpdateLayerMerges(shells, campaignId, layerId, CreativesOnly(cs));
      MergeCreativesOnly(layers[j], cs);
    }
  }

  /**
   * Deleting a creative happens exactly when its layer exists, and removes exactly the
   * creatives of that id from the first matching layer, keeping the others in order.
   */
  lemma DeleteCreativeRemoves(shells: seq<Shell>, campaignId: string, layerId: string, creativeId: string)
    ensures DeleteCreativePatch(shells, campaignId, layerId, creativeId).Some? <==> FindLayer(shells, campaignId, layerId).Some?
    ensures FindLayer(shells, campaignId, layerId).Some? ==>
      var r := Apply(shells, campaignId, DeleteCreativePatch(shells, campaignId, layerId, creativeId));
      var i := FindIndex(shells, campaignId, ShellId);
      var j := FindIndex(shells[i].targetingLayers, layerId, LayerId);
      0 <= i < |shells| && 0 <= j < |shells[i].targetingLayers|
      && |r[i].targetingLayers| == |shells[i].targetingLayers|
      && r[i].targetingLayers[j] == shells[i].targetingLayers[j].(creatives := Remove(shells[i].targetingLayers[j].creatives, creativeId, CreativeId))
  {
    if FindLayer(shells, campaignId, layerId).Some? {
      FindShellAt(shells, campaignId);
      var i := FindIndex(shells, campaignId, ShellId);
      var layers := shells[i].targetingLayers;
      var j := FindIndex(layers, layerId, LayerId);
      var cs := Remove(layers[j].creatives, creativeId, CreativeId);
      UpdateLayerMerges(shells, campaignId, layerId, CreativesOnly(cs));
      MergeCreativesOnly(layers[j], cs);
    }
  }

  /** An update that brings a truthy UTM URL keeps it as given. */
  lemma EditCreativeKeepsUtmEdit(c: Creative, p: CreativePatch, serialize: (string, Option<string>) -> Option<string>)
    requires Truthy(p.landingPageWithUTM)
    ensures EditCreative(c, p, serialize) == MergeCreative(c, p)
    ensures EditCreative(c, p, serialize).landingPageWithUTM == p.landingPageWithUTM.value
  {
  }

  /** A truthy landing page without a UTM URL recomputes the URL from the new page and the merged parameters. */
  lemma EditCreativeDerivesUtm(c: Creative, p: CreativePatch, serialize: (string, Option<string>) -> Option<string>)
    requires Truthy(p.landingPage) && !Truthy(p.landingPageWithUTM)
    ensures var r := EditCreative(c, p, serialize);
      r.landingPage == p.landingPage.value
      && r.landingPageWithUTM == GenerateUtmUrl(p.landingPage.value, p.utmParameters.GetOr(c.utmParameters), serialize)
      && r.(landingPageWithUTM := c.landingPageWithUTM) == MergeCreative(c, p).(landingPageWithUTM := c.landingPageWithUTM)
  {
  }

  /** Without a truthy landing page the UTM URL is only what the merge gives. */
  lemma EditCreativeNoDerivation(c: Creative, p: CreativePatch, serialize: (string, Option<string>) -> Option<string>)
    requires !Truthy(p.landingPage)
    ensures EditCreative(c, p, serialize).landingPageWithUTM == p.landingPageWithUTM.GetOr(c.landingPageWithUTM)
  {
  }

  // ------------------------------------------------------------ expansion sets

  /** `has(id) ? delete(id) : add(id)` on a copy. */
  function Toggled(expanded: set<string>, id: string): (r: set<string>)
    ensures id in r <==> id !in expanded
    ensures forall x :: x != id ==> (x in r <==> x in expanded)
  {
    if id in expanded then expanded - {id} else expanded + {id}
  }

  /** Toggling twice restores the set. */
  lemma ToggleTwice(expanded: set<string>, id: string)
    ensures Toggled(Toggled(expanded, id), id) == expanded
  {
  }

  // ------------------------------------------------------------ the component

  /** The builder's state: the shells it is given, its two expansion sets, and the shell store. */
  class Builder {
    var campaignShells: seq<Shell>
    var expandedCampaigns: set<string>
    var expandedTargeting: set<string>
    const store: ShellStore

    constructor(shells: seq<Shell>, store: ShellStore)
      ensures campaignShells == shells && expandedCampaigns == {} && expandedTargeting == {}
      ensures this.store == store
    {
      campaignShells := shells;
      expandedCampaigns := {};
      expandedTargeting := {};
      this.store := store;
    }

    method ToggleCampaignExpansion(campaignId: string)
      modifies this
      ensures expandedCampaigns == Toggled(old(expandedCampaigns), campaignId)
      ensures campaignShells == old(campaignShells) && expandedTargeting == old(expandedTargeting)
    {
      var newExpanded := expandedCampaigns;
      if campaignId in newExpanded {
        newExpanded := newExpanded - {campaignId};
      } else {
        newExpanded := newExpanded + {campaignId};
      }
      expandedCampaigns := newExpanded;
    }

    method ToggleTargetingExpansion(targetingId: string)
      modifies this
      ensures expandedTargeting == Toggled(old(expandedTargeting), targetingId)
      ensures campaignShells == old(campaignShells) && expandedCampaigns == old(expandedCampaigns)
    {
      var newExpanded := expandedTargeting;
      if targetingId in newExpanded {
        newExpanded := newExpanded - {targetingId};
      } else {
        newExpanded := newExpanded + {targetingId};
      }
      expandedTargeting := newExpanded;
    }

    /** `updateCampaignShell`: merge, publish, then save the updated shell if one has the id. */
    method UpdateCampaignShell(campaignId: string, updates: ShellPatch)
      modifies this, store
      ensures campaignShells == UpdateShells(old(campaignShells), campaignId, updates)
      ensures store.shells == Saved(old(store.shells), campaignShells, campaignId)
      ensures expandedCampaigns == old(expandedCampaigns) && expandedTargeting == old(expandedTargeting)
    {
      var updatedShells := UpdateShells(campaignShells, campaignId, updates);
      campaignShells := updatedShells;
      var updatedShell := FindShell(updatedShells, campaignId);
      if updatedShell.Some? {
        store.SaveCampaignShell(updatedShell.value);
      }
    }

    /** Hand a handler's update on, if it has one. */
    method Commit(campaignId: string, updates: Option<ShellPatch>)
      modifies this, store
      ensures campaignShells == Apply(old(campaignShells), campaignId, updates)
      ensures store.shells == if updates.Some? then Saved(old(store.shells), campaignShells, campaignId) else old(store.shells)
      ensures expandedCampaigns == old(expandedCampaigns) && expandedTargeting == old(expandedTargeting)
    {
      if updates.Some? {
        UpdateCampaignShell(campaignId, updates.value);
      }
    }

    /** `addTargetingLayer`: the new layer is also expanded, whether or not the shell exists. */
    method AddTargetingLayer(campaignId: string, newLayerId: string)
      modifies this, store
      ensures var newLayer := CreateTargetingLayer("", "", newLayerId);
        campaignShells == UpdateShells(old(campaignShells), campaignId, AddLayerPatch(old(campaignShells), campaignId, newLayer))
        && store.shells == Saved(old(store.shells), campaignShells, campaignId)
        && expandedTargeting == old(expandedTargeting) + {newLayerId}
        && expandedCampaigns == old(expandedCampaigns)
    {
      var newLayer := CreateTargetingLayer("", "", newLayerId);
      UpdateCampaignShell(campaignId, AddLayerPatch(campaignShells, campaignId, newLayer));
      expandedTargeting := expandedTargeting + {newLayer.id};
    }

    /** `duplicateTargetingLayerHandler`: the copy is expanded only when it is made. */
    method DuplicateTargetingLayerHandler(campaignId: string, layerId: string, newId: string, creativeIds: nat -> string)
      modifies this, store
      ensures var p := DuplicateLayerPatch(old(campaignShells), campaignId, layerId, newId, creativeIds);
        campaignShells == Apply(old(campaignShells), campaignId, p)
        && store.shells == (if p.Some? then Saved(old(store.shells), campaignShells, campaignId) else old(store.shells))
        && expandedTargeting == (if p.Some? then old(expandedTargeting) + {newId} else old(expandedTargeting))
        && expandedCampaigns == old(expandedCampaigns)
    {
      var p := DuplicateLayerPatch(campaignShells, campaignId, layerId, newId, creativeIds);
      Commit(campaignId, p);
      if p.Some? {
        expandedTargeting := expandedTargeting + {newId};
      }
    }

    method DeleteTargetingLayer(campaignId: string, layerId: string)
      modifies this, store
      ensures var p := DeleteLayerPatch(old(campaignShells), campaignId, layerId);
        campaignShells == Apply(old(campaignShells), campaignId, p)
        && store.shells == (if p.Some? then Saved(old(store.shells), campaignShells, campaignId) else old(store.shells))
        && expandedCampaigns == old(expandedCampaigns) && expandedTargeting == old(expandedTargeting)
    {
      Commit(campaignId, DeleteLayerPatch(campaignShells, campaignId, layerId));
    }

    method UpdateTargetingLayer(campaignId: string, layerId: string, updates: LayerPatch)
      modifies this, store
      ensures var p := UpdateLayerPatch(old(campaignShells), campaignId, layerId, updates);
        campaignShells == Apply(old(campaignShells), campaignId, p)
        && store.shells == (if p.Some? then Saved(old(store.shells), campaignShells, campaignId) else old(store.shells))
        && expandedCampaigns == old(expandedCampaigns) && expandedTargeting == old(expandedTargeting)
    {
      Commit(campaignId, UpdateLayerPatch(campaignShells, campaignId, layerId, updates));
    }

    /** `addCreativeShell`: a blank creative, with fresh id `newId`. */
    method AddCreativeShell(campaignId: string, layerId: string, newId: string, serialize: (string, Option<string>) -> Option<string>)
      modifies this, store
      ensures var p := AddCreativePatch(old(campaignShells), campaignId, layerId, CreateCreativeShell("", "", None, None, None, newId, serialize));
        campaignShells == Apply(old(campaignShells), campaignId, p)
        && store.shells == (if p.Some? then Saved(old(store.shells), campaignShells, campaignId) else old(store.shells))
        && expandedCampaigns == old(expandedCampaigns) && expandedTargeting == old(expandedTargeting)
    {
      var newCreative := CreateCreativeShell("", "", None, None, None, newId, serialize);
      Commit(campaignId, AddCreativePatch(campaignShells, campaignId, layerId, newCreative));
    }

    method DuplicateCreativeShellHandler(campaignId: string, layerId: string, creativeId: string, newId: string)
      modifies this, store
      ensures var p := DuplicateCreativePatch(old(campaignShells), campaignId, layerId, creativeId, newId);
        campaignShells == Apply(old(campaignShells), campaignId, p)
        && store.shells == (if p.Some? then Saved(old(store.shells), campaignShells, campaignId) else old(store.shells))
        && expandedCampaigns == old(expandedCampaigns) && expandedTargeting == old(expandedTargeting)
    {
      Commit(campaignId, DuplicateCreativePatch(campaignShells, campaignId, layerId, creativeId, newId));
    }

    method DeleteCreativeShell(campaignId: string, layerId: string, creativeId: string)
      modifies this, store
      ensures var p := DeleteCreativePatch(old(campaignShells), campaignId, layerId, creativeId);
        campaignShells == Apply(old(campaignShells), campaignId, p)
        && store.shells == (if p.Some? then Saved(old(store.shells), campaignShells, campaignId) else old(store.shells))
        && expandedCampaigns == old(expandedCampaigns) && expandedTargeting == old(expandedTargeting)
    {
      Commit(campaignId, DeleteCreativePatch(campaignShells, campaignId, layerId, creativeId));
    }

    method UpdateCreativeShell(
      campaignId: string, layerId: string, creativeId: string, updates: CreativePatch,
      serialize: (string, Option<string>) -> Option<string>)
      modifies this, store
      ensures var p := UpdateCreativePatch(old(campaignShells), campaignId, layerId, creativeId, updates, serialize);
        campaignShells == Apply(old(campaignShells), campaignId, p)
        && store.shells == (if p.Some? then Saved(old(store.shells), campaignShells, campaignId) else old(store.shells))
        && expandedCampaigns == old(expandedCampaigns) && expandedTargeting == old(expandedTargeting)
    {
      Commit(campaignId, UpdateCreativePatch(campaignShells, campaignId, layerId, creativeId, updates, serialize));
    }
  }
}
