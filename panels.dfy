/** The 40 PXD sensor (panel) IDs, listed in the same order in every
    detector class of the package, and their positions in that list. */
module Panels {
  import opened Common

  /** The sensor IDs of the PXD panels, layer 1 first. */
  const PanelIDs: seq<int> := [
     8480,  8512,  8736,  8768,  8992,  9024,  9248,  9280,
     9504,  9536,  9760,  9792, 10016, 10048, 10272, 10304,
    16672, 16704, 16928, 16960, 17184, 17216, 17440, 17472,
    17696, 17728, 17952, 17984, 18208, 18240, 18464, 18496,
    18720, 18752, 18976, 19008, 19232, 19264, 19488, 19520]

  const NumPanels := 40

  /** Every ID is larger than the one before it. */
  lemma PanelIDsAscending()
    ensures |PanelIDs| == NumPanels
    ensures forall a, b :: 0 <= a < b < |PanelIDs| ==> PanelIDs[a] < PanelIDs[b]
  {
    assert forall a :: 0 <= a < |PanelIDs| - 1 ==> PanelIDs[a] < PanelIDs[a + 1];
    forall a, b | 0 <= a < b < |PanelIDs| ensures PanelIDs[a] < PanelIDs[b] {
      AscendingStep(a, b);
    }
  }

  lemma {:induction false} AscendingStep(a: int, b: int)
    requires 0 <= a < b < |PanelIDs|
    requires forall k :: 0 <= k < |PanelIDs| - 1 ==> PanelIDs[k] < PanelIDs[k + 1]
    ensures PanelIDs[a] < PanelIDs[b]
    decreases b - a
  {
    if b > a + 1 {
      AscendingStep(a, b - 1);
    }
  }

  /** The position of a sensor ID in `PanelIDs`: `panelIDtoDepth[id]`, or
      the position whose entries `transformation[id]` and `layersLadders[id]`
      hold; `None` is a KeyError. Its properties are stated by
      `IndexOfSpec`, so that a use does not unfold the 40-entry table. */
  function IndexOf(id: int): Option<nat>
  {
    IndexFrom(PanelIDs, id, 0)
  }

  /** `id in panelIDtoDepth`: the ID is one of the panels. */
  predicate IsPanel(id: int)
  {
    IndexOf(id).Some?
  }

  /** The first position at or after `k` holding `id`. */
  function IndexFrom(ids: seq<int>, id: int, k: nat): Option<nat>
    requires k <= |ids|
    decreases |ids| - k
  {
    if k == |ids| then None
    else if ids[k] == id then Some(k)
    else IndexFrom(ids, id, k + 1)
  }

  lemma {:induction false} IndexFromSpec(ids: seq<int>, id: int, k: nat)
    requires k <= |ids|
    ensures IndexFrom(ids, id, k).Some? <==> id in ids[k..]
    ensures IndexFrom(ids, id, k).Some? ==> k <= IndexFrom(ids, id, k).value < |ids| && ids[IndexFrom(ids, id, k).value] == id
    decreases |ids| - k
  {
    if k < |ids| {
      IndexFromSpec(ids, id, k + 1);
      assert ids[k..] == [ids[k]] + ids[k + 1..];
    }
  }

  /** The lookup succeeds exactly for the panel IDs and returns a position
      holding the ID. */
  lemma IndexOfSpec(id: int)
    ensures IsPanel(id) <==> id in PanelIDs
    ensures IsPanel(id) ==> IndexOf(id).value < NumPanels && PanelIDs[IndexOf(id).value] == id
  {
    IndexFromSpec(PanelIDs, id, 0);
    assert PanelIDs[0..] == PanelIDs;
  }

  /** The IDs the lookup accepts are exactly the panel IDs. */
  lemma PanelsAccepted()
    ensures forall id :: IsPanel(id) <==> id in PanelIDs
  {
    forall id ensures IsPanel(id) <==> id in PanelIDs {
      IndexOfSpec(id);
    }
  }

  /** Looking up the ID at position `k` gives back `k`: the dictionary built
      by `enumerate(panelIDs)` is a bijection onto `0 .. 39`. */
  lemma IndexOfInverse(k: nat)
    requires k < |PanelIDs|
    ensures IndexOf(PanelIDs[k]) == Some(k)
  {
    PanelIDsAscending();
    IndexOfSpec(PanelIDs[k]);
  }

  /** `knownPixels` at the start of an event: an empty set per panel. */
  function NoneKnown(): (known: map<int, set<(int, int)>>)
    ensures forall id :: IsPanel(id) ==> id in known && known[id] == {}
    ensures forall id :: id in known ==> IsPanel(id)
  {
    PanelsAccepted();
    map id | id in PanelIDs :: {}
  }
}
