/**
 * Id-keyed storage (src/utils/storage.ts, and the same code for shells in
 * src/utils/campaignStructure.ts:109-148): find by id, replace-or-append, delete by id.
 * The browser's local storage is the field of a class; its JSON text is only read by `Load`.
 */
module Storage {
  import opened Options
  import opened Types

  /** `findIndex(x => key(x) === id)`. */
  function FindIndex<T>(xs: seq<T>, id: string, key: T -> string): (i: int)
    ensures -1 <= i < |xs|
    ensures i >= 0 ==> key(xs[i]) == id && forall k :: 0 <= k < i ==> key(xs[k]) != id
    ensures i < 0 ==> forall k :: 0 <= k < |xs| ==> key(xs[k]) != id
  {
    if xs == [] then -1
    else if key(xs[0]) == id then 0
    else
      var i := FindIndex(xs[1..], id, key);
      if i < 0 then -1 else i + 1
  }

  /** `find(x => key(x) === id)`, with `undefined` as `None`. */
  function Find<T>(xs: seq<T>, id: string, key: T -> string): (r: Option<T>)
    ensures r.Some? <==> exists k :: 0 <= k < |xs| && key(xs[k]) == id
    ensures r.Some? ==> key(r.value) == id && r.value == xs[FindIndex(xs, id, key)]
  {
    var i := FindIndex(xs, id, key);
    if i >= 0 then Some(xs[i]) else None
  }

  /**
   * Replace the first element with the same id, or append: an element with that id already
   * there is replaced in place and the others stay; without one, the new one goes at the end.
   */
  function Upsert<T>(xs: seq<T>, x: T, key: T -> string): (r: seq<T>)
    ensures (exists k :: 0 <= k < |xs| && key(xs[k]) == key(x)) ==>
      var i := FindIndex(xs, key(x), key);
      |r| == |xs| && r[i] == x && forall k :: 0 <= k < |xs| && k != i ==> r[k] == xs[k]
    ensures (forall k :: 0 <= k < |xs| ==> key(xs[k]) != key(x)) ==> r == xs + [x]
  {
    var i := FindIndex(xs, key(x), key);
    if i >= 0 then xs[i := x] else xs + [x]
  }

  /** `filter(x => key(x) !== id)`. */
  function Remove<T>(xs: seq<T>, id: string, key: T -> string): (r: seq<T>)
    ensures |r| <= |xs|
  {
    if xs == [] then [] else (if key(xs[0]) == id then [] else [xs[0]]) + Remove(xs[1..], id, key)
  }

  /** Only elements of the list with another id survive. */
  lemma {:induction false} RemoveDrops<T>(xs: seq<T>, id: string, key: T -> string)
    ensures forall y :: y in Remove(xs, id, key) ==> y in xs && key(y) != id
  {
    if xs != [] {
      RemoveDrops(xs[1..], id, key);
    }
  }

  /** After saving, looking the id up finds what was saved. */
  lemma FindAfterUpsert<T>(xs: seq<T>, x: T, key: T -> string)
    ensures Find(Upsert(xs, x, key), key(x), key) == Some(x)
  {
    var i := FindIndex(xs, key(x), key);
    var ys := Upsert(xs, x, key);
    if i >= 0 {
      assert ys[i] == x;
      assert forall k :: 0 <= k < i ==> ys[k] == xs[k];
    } else {
      assert ys[|xs|] == x;
      assert forall k :: 0 <= k < |xs| ==> ys[k] == xs[k];
    }
  }

  /** Filtering distributes over concatenation: the survivors keep their order. */
  lemma {:induction false} RemoveConcat<T>(xs: seq<T>, ys: seq<T>, id: string, key: T -> string)
    ensures Remove(xs + ys, id, key) == Remove(xs, id, key) + Remove(ys, id, key)
  {
    if xs == [] {
      assert xs + ys == ys;
    } else {
      assert (xs + ys)[0] == xs[0];
      assert (xs + ys)[1..] == xs[1..] + ys;
      RemoveConcat(xs[1..], ys, id, key);
    }
  }

  /** Every element with another id survives. */
  lemma {:induction false} RemoveKeeps<T>(xs: seq<T>, id: string, key: T -> string, y: T)
    requires y in xs && key(y) != id
    ensures y in Remove(xs, id, key)
  {
    if xs[0] != y {
      RemoveKeeps(xs[1..], id, key, y);
    }
  }

  /** After deleting an id, looking it up finds nothing. */
  lemma FindAfterRemove<T>(xs: seq<T>, id: string, key: T -> string)
    ensures Find(Remove(xs, id, key), id, key) == None
  {
    var r := Remove(xs, id, key);
    RemoveDrops(xs, id, key);
    forall k | 0 <= k < |r| ensures key(r[k]) != id {
      assert r[k] in r;
    }
  }

  /** A list with no element of that id is left as it is. */
  lemma {:induction false} RemoveAbsent<T>(xs: seq<T>, id: string, key: T -> string)
    requires forall k :: 0 <= k < |xs| ==> key(xs[k]) != id
    ensures Remove(xs, id, key) == xs
  {
    if xs != [] {
      RemoveAbsent(xs[1..], id, key);
      assert xs == [xs[0]] + xs[1..];
    }
  }

  /** `stored ? JSON.parse(stored) : []`, with a parse failure also giving `[]`. */
  function Load<T>(stored: Option<string>, decode: string -> Option<seq<T>>): (r: seq<T>)
    ensures stored.None? || stored == Some("") ==> r == []
    ensures Truthy(stored) && decode(stored.value).None? ==> r == []
    ensures Truthy(stored) && decode(stored.value).Some? ==> r == decode(stored.value).value
  {
    if !Truthy(stored) then []
    else
      var d := decode(stored.value);
      if d.Some? then d.value else []
  }

  /** The campaigns kept in the browser's storage. */
  class CampaignStore {
    var campaigns: seq<Campaign>

    constructor()
      ensures campaigns == []
    {
      campaigns := [];
    }

    /** `saveCampaign`: overwrite the slot of the same id, or push. */
    method SaveCampaign(campaign: Campaign)
      modifies this
      ensures campaigns == Upsert(old(campaigns), campaign, CampaignId)
    {
      var existingIndex := FindIndex(campaigns, campaign.id, CampaignId);
      if existingIndex >= 0 {
        campaigns := campaigns[existingIndex := campaign];
      } else {
        campaigns := campaigns + [campaign];
      }
    }

    /** `deleteCampaign`. */
    method DeleteCampaign(campaignId: string)
      modifies this
      ensures campaigns == Remove(old(campaigns), campaignId, CampaignId)
    {
      campaigns := Remove(campaigns, campaignId, CampaignId);
    }

    /** `getCampaign`: the first campaign with that id, or nothing. */
    method GetCampaign(campaignId: string) returns (r: Option<Campaign>)
      ensures r.Some? <==> exists k :: 0 <= k < |campaigns| && campaigns[k].id == campaignId
      ensures r.Some? ==> (r.value.id == campaignId
        && forall k :: 0 <= k < |campaigns| && campaigns[k].id == campaignId ==>
          exists j :: 0 <= j <= k && campaigns[j] == r.value)
    {
      r := Find(campaigns, campaignId, CampaignId);
      if r.Some? {
        var i := FindIndex(campaigns, campaignId, CampaignId);
        assert campaigns[i] == r.value;
      }
    }
  }
}
