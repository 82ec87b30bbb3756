/** The sensor catalogue of rootable/detectors/clusterCoordinates.py: five
    tables parallel to the panel IDs (shift, rotation, layer, ladder), the
    dictionaries built from them, the layer/ladder lookup and the placement
    of local (u, v) positions into global (x, y, z) positions. */
module ClusterCoordinates {
  import opened Common
  import opened Panels

  /** The translation of one sensor's projected uv plane. */
  datatype Shift = Shift(x: real, y: real, z: real)

  /** `transformation[id]`: the shift vector and the rotation angle in degrees. */
  datatype Transform = Transform(shift: Shift, angle: int)

  /** `layersLadders[id]`: the layer and the ladder of a sensor. */
  datatype Mount = Mount(layer: int, ladder: int)

  /** `np.cos(np.deg2rad(angle))` and `np.sin(np.deg2rad(angle))`, left
      uninterpreted: only the structure of the transform is modelled. */
  datatype Trig = Trig(cosDeg: int -> real, sinDeg: int -> real)

  /** The dictionary `get` returns. */
  datatype Positions = Positions(x: seq<real>, y: seq<real>, z: seq<real>)

  /** The dictionary `layers` returns. */
  datatype Mounts = Mounts(layer: seq<int>, ladder: seq<int>)

  /** `panelShifts`, one row per entry of `PanelIDs`. */
  const PanelShifts: seq<Shift> := [
    Shift( 1.3985    ,  0.2652658 ,  3.68255), Shift( 1.3985    ,  0.2652658 , -0.88255),
    Shift( 0.80146531,  1.17631236,  3.68255), Shift( 0.80146531,  1.17631236, -0.88255),
    Shift(-0.2652658 ,  1.3985    ,  3.68255), Shift(-0.2652658 ,  1.3985    , -0.88255),
    Shift(-1.17631236,  0.80146531,  3.68255), Shift(-1.17631236,  0.80146531, -0.88255),
    Shift(-1.3985    , -0.2652658 ,  3.68255), Shift(-1.3985    , -0.2652658 , -0.88255),
    Shift(-0.80146531, -1.17631236,  3.68255), Shift(-0.80146531, -1.17631236, -0.88255),
    Shift( 0.2652658 , -1.3985    ,  3.68255), Shift( 0.2652658 , -1.3985    , -0.88255),
    Shift( 1.2652658 , -0.80146531,  3.68255), Shift( 1.2652658 , -0.80146531, -0.88255),
    Shift( 2.2015    ,  0.2652658 ,  5.01305), Shift( 2.2015    ,  0.2652658 , -1.21305),
    Shift( 1.77559093,  1.32758398,  5.01305), Shift( 1.77559093,  1.32758398, -1.21305),
    Shift( 0.87126021,  2.039055  ,  5.01305), Shift( 0.87126021,  2.039055  , -1.21305),
    Shift(-0.2652658 ,  2.2015    ,  5.01305), Shift(-0.2652658 ,  2.2015    , -1.21305),
    Shift(-1.32758398,  1.77559093,  5.01305), Shift(-1.32758398,  1.77559093, -1.21305),
    Shift(-2.039055  ,  0.87126021,  5.01305), Shift(-2.039055  ,  0.87126021, -1.21305),
    Shift(-2.2015    , -0.2652658 ,  5.01305), Shift(-2.2015    , -0.2652658 , -1.21305),
    Shift(-1.77559093, -1.32758398,  5.01305), Shift(-1.77559093, -1.32758398, -1.21305),
    Shift(-0.87126021, -2.039055  ,  5.01305), Shift(-0.87126021, -2.039055  , -1.21305),
    Shift( 0.2652658 , -2.2015    ,  5.01305), Shift( 0.2652658 , -2.2015    , -1.21305),
    Shift( 1.32758398, -1.77559093,  5.01305), Shift( 1.32758398, -1.77559093, -1.21305),
    Shift( 2.039055  , -0.87126021,  5.01305), Shift( 2.039055  , -0.87126021, -1.21305)]

  /** `panelRotations`, in degrees. */
  const PanelRotations: seq<int> := [
     90,  90, 225, 225, 180, 180, 135, 135,
    270, 270, 405, 405, 360, 360, 495, 495,
     90,  90,  60,  60,  30,  30, 180, 180,
    150, 150, 120, 120, 270, 270,  60,  60,
    390, 390, 360, 360, 330, 330, 300, 300]

  /** `panelLayer`. */
  const PanelLayer: seq<int> := [
    1, 1, 1, 1, 1, 1, 1, 1, 1, 1, 1, 1, 1, 1, 1, 1,
    2, 2, 2, 2, 2, 2, 2, 2, 2, 2, 2, 2, 2, 2, 2, 2, 2, 2, 2, 2, 2, 2, 2, 2]

  /** `panelLadder`: ladders are numbered across both layers, and 11 is not used. */
  const PanelLadder: seq<int> := [
    1, 1, 2, 2, 3, 3, 4, 4, 5, 5, 6, 6, 7, 7, 8, 8,
    9, 9, 10, 10, 12, 12, 13, 13, 14, 14, 15, 15, 16, 16, 17, 17, 18, 18, 19, 19, 20, 20, 21, 21]

  /** The five tables have one row per panel ID. */
  lemma TablesParallel()
    ensures |PanelShifts| == |PanelRotations| == |PanelLayer| == |PanelLadder| == |PanelIDs| == NumPanels
  {
  }

  /** The first 16 sensors are in layer 1, the other 24 in layer 2. */
  lemma LayerSplit(p: nat)
    requires p < NumPanels
    ensures PanelLayer[p] == (if p < 16 then 1 else 2)
  {
  }

  /** The layer table agrees with the sensor ID, whose layer field is its
      multiple of 8192 (layer 1 IDs lie in `8192 .. 16383`, layer 2 IDs in
      `16384 .. 24575`). */
  lemma LayerFromID(p: nat)
    requires p < NumPanels
    ensures PanelLayer[p] == PanelIDs[p] / 8192
  {
  }

  /** The sensors `2t` and `2t + 1` form a pair: they share a ladder. */
  lemma LadderPairs()
    ensures forall t :: 0 <= t < NumPanels / 2 ==> PanelLadder[2 * t] == PanelLadder[2 * t + 1]
  {
  }

  /** ... a layer ... */
  lemma LayerPairs(t: nat)
    requires t < NumPanels / 2
    ensures PanelLayer[2 * t] == PanelLayer[2 * t + 1]
  {
  }

  /** ... a rotation ... */
  lemma RotationPairs(t: nat)
    requires t < NumPanels / 2
    ensures PanelRotations[2 * t] == PanelRotations[2 * t + 1]
  {
  }

  /** ... and the transverse part of the shift; the first sensor of the
      pair is shifted forward along z, the second one backward. */
  lemma ShiftPairs(t: nat)
    requires t < NumPanels / 2
    ensures PanelShifts[2 * t].x == PanelShifts[2 * t + 1].x && PanelShifts[2 * t].y == PanelShifts[2 * t + 1].y
    ensures PanelShifts[2 * t + 1].z < 0.0 < PanelShifts[2 * t].z
  {
  }

  /** Ladder numbers grow from one pair to the next. */
  lemma LadderAscending()
    ensures forall t :: 0 <= t < NumPanels / 2 - 1 ==> PanelLadder[2 * t + 1] < PanelLadder[2 * t + 2]
  {
  }

  /** A table whose entries come in equal pairs `2t, 2t + 1`. */
  predicate InPairs(s: seq<int>)
  {
    forall t :: 0 <= t < |s| / 2 ==> s[2 * t] == s[2 * t + 1]
  }

  /** A table whose entries grow from one pair to the next. */
  predicate PairsAscend(s: seq<int>)
  {
    forall t :: 0 <= t < |s| / 2 - 1 ==> s[2 * t + 1] < s[2 * t + 2]
  }

  lemma {:induction false} PairsAscendFar(s: seq<int>, a: nat, b: nat)
    requires InPairs(s) && PairsAscend(s) && a < b < |s| / 2
    ensures s[2 * a] < s[2 * b]
    decreases b - a
  {
    assert s[2 * (b - 1)] == s[2 * (b - 1) + 1];
    assert s[2 * (b - 1) + 1] < s[2 * (b - 1) + 2];
    if a < b - 1 {
      PairsAscendFar(s, a, b - 1);
    }
  }

  /** In such a table two entries are equal exactly when they lie in the same pair. */
  lemma SamePairIff(s: seq<int>, p: nat, q: nat)
    requires InPairs(s) && PairsAscend(s) && |s| % 2 == 0 && p < |s| && q < |s|
    ensures s[p] == s[q] <==> p / 2 == q / 2
  {
    var a, b := p / 2, q / 2;
    assert s[p] == s[2 * a] by {
      assert s[2 * a] == s[2 * a + 1];
    }
    assert s[q] == s[2 * b] by {
      assert s[2 * b] == s[2 * b + 1];
    }
    if a < b {
      PairsAscendFar(s, a, b);
    } else if b < a {
      PairsAscendFar(s, b, a);
    }
  }

  /** Every ladder number sits on exactly two sensors, and they are
      consecutive: two sensors share a ladder exactly when they form a pair. */
  lemma LadderOnTwoSensors(p: nat, q: nat)
    requires p < NumPanels && q < NumPanels
    ensures PanelLadder[p] == PanelLadder[q] <==> p / 2 == q / 2
  {
    LadderPairs();
    LadderAscending();
    SamePairIff(PanelLadder, p, q);
  }

  /** The `get` rotation matrix for an angle: a rotation about the z axis. */
  function RotMatrix(angle: int, trig: Trig): (m: seq<seq<real>>)
    ensures |m| == 3 && forall i :: 0 <= i < 3 ==> |m[i]| == 3
  {
    [[trig.cosDeg(angle), -trig.sinDeg(angle), 0.0],
     [trig.sinDeg(angle), trig.cosDeg(angle), 0.0],
     [0.0, 0.0, 1.0]]
  }

  /** A row vector times a 3 x 3 matrix (one row of `np.matmul`). */
  function RowTimes(p: seq<real>, m: seq<seq<real>>): (r: seq<real>)
    requires |p| == 3 && |m| == 3 && forall i :: 0 <= i < 3 ==> |m[i]| == 3
    ensures |r| == 3
  {
    seq(3, j requires 0 <= j < 3 => p[0] * m[0][j] + p[1] * m[1][j] + p[2] * m[2][j])
  }

  /** Lines 101-106 for one entry: the point `(u, 0, v)` rotated by the
      sensor's angle and shifted. Whatever the angle, z is `v` plus the z
      shift, because the local y is 0 and the matrix's third column is
      `(0, 0, 1)`; x and y are the rotated u plus their shifts. */
  function Place(u: real, v: real, t: Transform, trig: Trig): (r: (real, real, real))
    ensures r.2 == v + t.shift.z
    ensures r.0 == u * trig.cosDeg(t.angle) + t.shift.x
    ensures r.1 == -(u * trig.sinDeg(t.angle)) + t.shift.y
  {
    var rotated := RowTimes([u, 0.0, v], RotMatrix(t.angle, trig));
    (rotated[0] + t.shift.x, rotated[1] + t.shift.y, rotated[2] + t.shift.z)
  }

  /** No ID occurs twice in a sensor table. */
  predicate Unique(panels: seq<int>)
  {
    forall a, b :: 0 <= a < b < |panels| ==> panels[a] != panels[b]
  }

  /** The position of `id` in a sensor table, `None` when it is not there. */
  function Position(panels: seq<int>, id: int): (r: Option<nat>)
    ensures r.Some? ==> r.value < |panels| && panels[r.value] == id
    ensures r.None? ==> forall k :: 0 <= k < |panels| ==> panels[k] != id
  {
    IndexFromSpec(panels, id, 0);
    assert panels[0..] == panels;
    IndexFrom(panels, id, 0)
  }

  /** The position is found exactly for the IDs of the table. */
  lemma PositionIff(panels: seq<int>, id: int)
    ensures Position(panels, id).Some? <==> id in panels
  {
  }

  /** Every entry of the table is found at its own position. */
  predicate Indexed(panels: seq<int>)
  {
    forall p {:trigger Position(panels, panels[p])} :: 0 <= p < |panels| ==> Position(panels, panels[p]) == Some(p)
  }

  /** A table without repeats is indexed. */
  lemma UniqueIndexed(panels: seq<int>)
    requires Unique(panels)
    ensures Indexed(panels)
  {
  }

  /** `get` raises IndexError: an entry of a known sensor has no u or no
      v position (`uPositions[indices]`, `vPositions[indices]`), or lies
      beyond the output arrays, which have the length of the u positions. */
  predicate Unplaceable(panels: seq<int>, us: seq<real>, vs: seq<real>, ids: seq<int>)
  {
    exists i :: 0 <= i < |ids| && Position(panels, ids[i]).Some? && (i >= |us| || i >= |vs|)
  }

  /** The row of every entry's sensor ID. */
  function Rows(panels: seq<int>, ids: seq<int>): (rows: seq<Option<nat>>)
    ensures |rows| == |ids| && forall i :: 0 <= i < |ids| ==> rows[i] == Position(panels, ids[i])
  {
    seq(|ids|, i requires 0 <= i < |ids| => Position(panels, ids[i]))
  }

  /** Row `p`, whose ID is `id`, is marked exactly at the entries holding `id`. */
  predicate Marks(ids: seq<int>, rows: seq<Option<nat>>, id: int, p: nat)
    requires |rows| == |ids|
  {
    forall i :: 0 <= i < |ids| ==> (rows[i] == Some(p) <==> ids[i] == id)
  }

  /** Entry `i` belongs to a row before `p`, or to row `p` and comes before `j`. */
  predicate Handled(rows: seq<Option<nat>>, i: nat, p: nat, j: nat)
  {
    i < |rows| && rows[i].Some? && (rows[i].value < p || (rows[i].value == p && i < j))
  }

  /** Advancing `j` to `k = j + 1` adds entry `j` exactly when it is in row `p`. */
  lemma HandledStep(rows: seq<Option<nat>>, p: nat, j: nat, k: nat)
    requires k == j + 1
    ensures forall i :: Handled(rows, i, p, k) <==> (Handled(rows, i, p, j) || (i == j < |rows| && rows[j] == Some(p)))
  {
  }

  /** Handling all of row `p` is handling the rows before `q = p + 1`. */
  lemma HandledRow(rows: seq<Option<nat>>, p: nat, q: nat)
    requires q == p + 1
    ensures forall i :: Handled(rows, i, p, |rows|) <==> Handled(rows, i, q, 0)
  {
  }

  /** Every handled entry has a u and a v position. */
  predicate Fits(us: seq<real>, vs: seq<real>, rows: seq<Option<nat>>, p: nat, j: nat)
  {
    forall i :: 0 <= i < |rows| && Handled(rows, i, p, j) ==> i < |us| && i < |vs|
  }

  /** Entry `j` keeps the handled entries placeable when it has both
      positions or is not in row `p`. */
  lemma FitsStep(us: seq<real>, vs: seq<real>, rows: seq<Option<nat>>, p: nat, j: nat, k: nat)
    requires j < |rows| && k == j + 1 && Fits(us, vs, rows, p, j)
    requires rows[j] == Some(p) ==> j < |us| && j < |vs|
    ensures Fits(us, vs, rows, p, k)
  {
    HandledStep(rows, p, j, k);
  }

  /** The position table after `get` has handled the rows before `p`,
      and the entries of row `p` before `j`: the handled entries hold
      what `get` leaves there in the end, the others are still 0. */
  predicate Done(rows: seq<Option<nat>>, want: seq<(real, real, real)>,
                 xs: seq<real>, ys: seq<real>, zs: seq<real>, p: nat, j: nat)
  {
    && |xs| == |want| && |ys| == |want| && |zs| == |want|
    && forall i :: 0 <= i < |want| ==>
         (xs[i], ys[i], zs[i]) == if Handled(rows, i, p, j) then want[i] else (0.0, 0.0, 0.0)
  }

  /** Passing over entry `j`, which is not in row `p`. */
  lemma SkippedStep(rows: seq<Option<nat>>, want: seq<(real, real, real)>,
                    xs: seq<real>, ys: seq<real>, zs: seq<real>, p: nat, j: nat, k: nat)
    requires j < |rows| && k == j + 1 && rows[j] != Some(p)
    requires Done(rows, want, xs, ys, zs, p, j)
    ensures Done(rows, want, xs, ys, zs, p, k)
  {
    HandledStep(rows, p, j, k);
  }

  /** An object holding the sensor tables and the two dictionaries
      `__init__` builds from them. */
  class ClusterCoordinates {
    var panelIDs: seq<int>
    var panelShifts: seq<Shift>
    var panelRotations: seq<int>
    var panelLayer: seq<int>
    var panelLadder: seq<int>
    var transformation: map<int, Transform>
    var layersLadders: map<int, Mount>

    /** The shift and angle in row `p` of the tables. */
    function TransformOf(p: nat): Transform
      reads this
      requires p < |panelShifts| && p < |panelRotations|
    {
      Transform(panelShifts[p], panelRotations[p])
    }

    /** The layer and ladder in row `p` of the tables. */
    function MountOf(p: nat): Mount
      reads this
      requires p < |panelLayer| && p < |panelLadder|
    {
      Mount(panelLayer[p], panelLadder[p])
    }

    /** The five tables have the same length. */
    ghost predicate Parallel()
      reads this
    {
      && |panelShifts| == |panelIDs| && |panelRotations| == |panelIDs|
      && |panelLayer| == |panelIDs| && |panelLadder| == |panelIDs|
    }

    /** The tables are parallel and without repeated IDs, and the
        dictionaries map exactly the panel IDs, each to the entries in
        its row. */
    ghost predicate Valid()
      reads this
    {
      && Parallel()
      && Indexed(panelIDs)
      && (forall id :: id in transformation <==> Position(panelIDs, id).Some?)
      && (forall id :: id in layersLadders <==> Position(panelIDs, id).Some?)
      && (forall p :: 0 <= p < |panelIDs| ==>
            panelIDs[p] in transformation && transformation[panelIDs[p]] == TransformOf(p))
      && (forall p :: 0 <= p < |panelIDs| ==>
            panelIDs[p] in layersLadders && layersLadders[panelIDs[p]] == MountOf(p))
    }

    /** The tables are the PXD catalogue of lines 13-76. */
    ghost predicate Catalogue()
      reads this
    {
      && panelIDs == PanelIDs && panelShifts == PanelShifts && panelRotations == PanelRotations
      && panelLayer == PanelLayer && panelLadder == PanelLadder
    }

    /** Lines 10-83. */
    constructor ()
      ensures Valid() && Catalogue()
    {
      panelIDs, panelShifts, panelRotations := PanelIDs, PanelShifts, PanelRotations;
      panelLayer, panelLadder := PanelLayer, PanelLadder;
      transformation, layersLadders := map[], map[];
      new;
      PanelIDsAscending();
      UniqueIndexed(panelIDs);
      Fill();
    }

    /** Lines 79-83: one dictionary entry per panel ID, filled in table order. */
    method Fill()
      requires |panelShifts| == |panelIDs| && |panelRotations| == |panelIDs|
      requires |panelLayer| == |panelIDs| && |panelLadder| == |panelIDs|
      requires Indexed(panelIDs)
      requires transformation == map[] && layersLadders == map[]
      modifies this
      ensures Valid()
      ensures panelIDs == old(panelIDs) && panelShifts == old(panelShifts) && panelRotations == old(panelRotations)
      ensures panelLayer == old(panelLayer) && panelLadder == old(panelLadder)
    {
      for i := 0 to |panelIDs|
        invariant panelIDs == old(panelIDs) && panelShifts == old(panelShifts) && panelRotations == old(panelRotations)
        invariant panelLayer == old(panelLayer) && panelLadder == old(panelLadder)
        invariant forall id :: id in transformation <==> Position(panelIDs, id).Some? && Position(panelIDs, id).value < i
        invariant forall id :: id in layersLadders <==> Position(panelIDs, id).Some? && Position(panelIDs, id).value < i
        invariant forall p :: 0 <= p < i ==>
          panelIDs[p] in transformation && transformation[panelIDs[p]] == TransformOf(p)
        invariant forall p :: 0 <= p < i ==>
          panelIDs[p] in layersLadders && layersLadders[panelIDs[p]] == MountOf(p)
      {
        transformation := transformation[panelIDs[i] := TransformOf(i)];
        layersLadders := layersLadders[panelIDs[i] := MountOf(i)];
      }
    }

    /** Both dictionaries hold exactly the IDs of the table. */
    lemma InDictionaries(id: int)
      requires Valid()
      ensures id in transformation <==> id in panelIDs
      ensures id in layersLadders <==> id in panelIDs
    {
      PositionIff(panelIDs, id);
    }

    /** For the catalogue, the dictionaries accept exactly the PXD panel
        IDs, and an ID's row is its position in `PanelIDs`. */
    lemma CatalogueLookup(id: int)
      requires Valid() && Catalogue()
      ensures id in transformation <==> IsPanel(id)
      ensures IsPanel(id) ==> Position(panelIDs, id) == IndexOf(id)
    {
      IndexOfSpec(id);
      PositionIff(panelIDs, id);
    }

    /** What `layers` returns for the IDs `ids`: one layer and one ladder
        per entry, those of the row holding its ID. */
    ghost predicate MountsFor(ids: seq<int>, m: Mounts)
      reads this
      requires Valid()
    {
      && |m.layer| == |ids| && |m.ladder| == |ids|
      && forall i, p :: 0 <= i < |ids| && 0 <= p < |panelIDs| && panelIDs[p] == ids[i] ==>
           Mount(m.layer[i], m.ladder[i]) == MountOf(p)
    }

    /** Lines 110-123: the layer and ladder of every entry; an ID that is
        not in the table raises KeyError. */
    method Layers(ids: seq<int>) returns (r: Result<Mounts>)
      requires Valid()
      ensures r.Err? <==> exists i :: 0 <= i < |ids| && ids[i] !in panelIDs
      ensures r.Err? ==> r.error == KeyError
      ensures r.Ok? ==> MountsFor(ids, r.value)
    {
      var layers := new int[|ids|];
      var ladders := new int[|ids|];
      for i := 0 to |ids|
        invariant forall k :: 0 <= k < i ==> ids[k] in panelIDs
        invariant forall k, p :: 0 <= k < i && 0 <= p < |panelIDs| && panelIDs[p] == ids[k] ==>
          Mount(layers[k], ladders[k]) == MountOf(p)
      {
        InDictionaries(ids[i]);
        if ids[i] !in layersLadders {
          return Err(KeyError);
        }
        var m := layersLadders[ids[i]];
        layers[i], ladders[i] := m.layer, m.ladder;
        forall p | 0 <= p < |panelIDs| && panelIDs[p] == ids[i]
          ensures Mount(layers[i], ladders[i]) == MountOf(p)
        {
        }
      }
      r := Ok(Mounts(layers[..], ladders[..]));
    }

    /** With the catalogue, every layer `layers` returns is the layer field
        of its sensor ID, and the layer is 1 exactly for the first 16 panels. */
    lemma CatalogueLayers(ids: seq<int>, m: Mounts, i: nat)
      requires Valid() && Catalogue() && MountsFor(ids, m)
      requires i < |ids| && IsPanel(ids[i])
      ensures m.layer[i] == ids[i] / 8192
      ensures m.layer[i] == (if IndexOf(ids[i]).value < 16 then 1 else 2)
    {
      IndexOfSpec(ids[i]);
      var p := IndexOf(ids[i]).value;
      assert Mount(m.layer[i], m.ladder[i]) == MountOf(p);
      LayerFromID(p);
      LayerSplit(p);
    }

    /** What `get` leaves at entry `i`: the placed point for an ID in the
        table, zeros (`np.zeros_like`) for any other ID. (When `get` returns,
        every entry of a table ID has a v position.) */
    ghost function Expected(us: seq<real>, vs: seq<real>, ids: seq<int>, trig: Trig, i: nat): (real, real, real)
      reads this
      requires Parallel() && i < |us|
    {
      if i < |ids| && i < |vs| && Position(panelIDs, ids[i]).Some? then
        Place(us[i], vs[i], TransformOf(Position(panelIDs, ids[i]).value), trig)
      else (0.0, 0.0, 0.0)
    }

    /** The positions `get` returns for inputs it accepts. */
    ghost predicate Placed(us: seq<real>, vs: seq<real>, ids: seq<int>, trig: Trig, r: Positions)
      reads this
      requires Parallel()
    {
      && |r.x| == |us| && |r.y| == |us| && |r.z| == |us|
      && forall i :: 0 <= i < |us| ==> (r.x[i], r.y[i], r.z[i]) == Expected(us, vs, ids, trig, i)
    }

    /** `Expected` for every entry. */
    ghost function Wanted(us: seq<real>, vs: seq<real>, ids: seq<int>, trig: Trig): (w: seq<(real, real, real)>)
      reads this
      requires Parallel()
    {
      seq(|us|, i reads this requires 0 <= i < |us| && Parallel() => Expected(us, vs, ids, trig, i))
    }

    /** The rows of `ids` mark row `p` exactly at the entries holding its ID. */
    lemma RowsMark(ids: seq<int>, p: nat)
      requires Valid() && p < |panelIDs|
      ensures Marks(ids, Rows(panelIDs, ids), panelIDs[p], p)
    {
      assert Position(panelIDs, panelIDs[p]) == Some(p);
    }

    /** Writing the placed point of entry `j`, which holds the ID of row `p`. */
    lemma PlacedStep(us: seq<real>, vs: seq<real>, ids: seq<int>, trig: Trig, rows: seq<Option<nat>>,
                     want: seq<(real, real, real)>, xs: seq<real>, ys: seq<real>, zs: seq<real>,
                     p: nat, j: nat, k: nat, q: (real, real, real))
      requires Valid() && want == Wanted(us, vs, ids, trig) && |rows| == |ids|
      requires p < |panelIDs| && j < |ids| && j < |us| && j < |vs| && k == j + 1
      requires ids[j] == panelIDs[p] && rows[j] == Some(p)
      requires q == Place(us[j], vs[j], transformation[panelIDs[p]], trig)
      requires Done(rows, want, xs, ys, zs, p, j)
      ensures Done(rows, want, xs[j := q.0], ys[j := q.1], zs[j := q.2], p, k)
    {
      HandledStep(rows, p, j, k);
      assert Position(panelIDs, panelIDs[p]) == Some(p);
      assert q == want[j];
    }

    /** Lines 94-106 for the sensor in row `p`: the entries holding its ID
        are placed by its transform; `false` when one of them has no u or
        no v position. */
    method PlaceRow(us: seq<real>, vs: seq<real>, ids: seq<int>, trig: Trig,
                    ghost rows: seq<Option<nat>>, ghost want: seq<(real, real, real)>,
                    xs: array<real>, ys: array<real>, zs: array<real>, p: nat) returns (ok: bool)
      requires Valid() && p < |panelIDs| && want == Wanted(us, vs, ids, trig)
      requires |rows| == |ids| && Marks(ids, rows, panelIDs[p], p)
      requires xs != ys && ys != zs && xs != zs
      requires Fits(us, vs, rows, p, 0)
      requires Done(rows, want, xs[..], ys[..], zs[..], p, 0)
      modifies xs, ys, zs
      ensures ok ==> Fits(us, vs, rows, p + 1, 0)
      ensures ok ==> Done(rows, want, xs[..], ys[..], zs[..], p + 1, 0)
      ensures !ok ==> exists i :: 0 <= i < |ids| && ids[i] == panelIDs[p] && (i >= |us| || i >= |vs|)
    {
      for j := 0 to |ids|
        invariant Fits(us, vs, rows, p, j)
        invariant Done(rows, want, xs[..], ys[..], zs[..], p, j)
      {
        ok := PlaceEntry(us, vs, ids, trig, rows, want, xs, ys, zs, p, j);
        if !ok {
          return;
        }
      }
      HandledRow(rows, p, p + 1);
      return true;
    }

    /** One step of the inner loop of lines 99-107: entry `j` is placed when
        it belongs to sensor `p`; it raises when that sensor has no u or v
        position for it. */
    method PlaceEntry(us: seq<real>, vs: seq<real>, ids: seq<int>, trig: Trig,
                      ghost rows: seq<Option<nat>>, ghost want: seq<(real, real, real)>,
                      xs: array<real>, ys: array<real>, zs: array<real>, p: nat, j: nat) returns (ok: bool)
      requires Valid() && p < |panelIDs| && want == Wanted(us, vs, ids, trig)
      requires |rows| == |ids| && j < |ids| && Marks(ids, rows, panelIDs[p], p)
      requires xs != ys && ys != zs && xs != zs
      requires Fits(us, vs, rows, p, j)
      requires Done(rows, want, xs[..], ys[..], zs[..], p, j)
      modifies xs, ys, zs
      ensures ok ==> Fits(us, vs, rows, p, j + 1)
      ensures ok ==> Done(rows, want, xs[..], ys[..], zs[..], p, j + 1)
      ensures !ok ==> ids[j] == panelIDs[p] && (j >= |us| || j >= |vs|)
    {
      if ids[j] == panelIDs[p] {
        if j >= |us| || j >= |vs| {
          return false;
        }
        FitsStep(us, vs, rows, p, j, j + 1);
        InDictionaries(ids[j]);
        var q := Place(us[j], vs[j], transformation[ids[j]], trig);
        ghost var x0, y0, z0 := xs[..], ys[..], zs[..];
        xs[j], ys[j], zs[j] := q.0, q.1, q.2;
        assert xs[..] == x0[j := q.0] && ys[..] == y0[j := q.1] && zs[..] == z0[j := q.2];
        PlacedStep(us, vs, ids, trig, rows, want, x0, y0, z0, p, j, j + 1, q);
      } else {
        FitsStep(us, vs, rows, p, j, j + 1);
        SkippedStep(rows, want, xs[..], ys[..], zs[..], p, j, j + 1);
      }
      return true;
    }

    /** Lines 85-108: the global position of every entry. Entries of known
        sensors are placed by their sensor's transform, every other entry
        stays 0; an entry of a known sensor beyond the u or v positions
        raises IndexError. */
    method Get(us: seq<real>, vs: seq<real>, ids: seq<int>, trig: Trig) returns (r: Result<Positions>)
      requires Valid()
      ensures r.Err? <==> Unplaceable(panelIDs, us, vs, ids)
      ensures r.Err? ==> r.error == IndexError
      ensures r.Ok? ==> Placed(us, vs, ids, trig, r.value)
    {
      ghost var want := Wanted(us, vs, ids, trig);
      ghost var rows := Rows(panelIDs, ids);
      var xs := new real[|us|](_ => 0.0);
      var ys := new real[|us|](_ => 0.0);
      var zs := new real[|us|](_ => 0.0);
      for p := 0 to |panelIDs|
        invariant Fits(us, vs, rows, p, 0)
        invariant Done(rows, want, xs[..], ys[..], zs[..], p, 0)
      {
        RowsMark(ids, p);
        var ok := PlaceRow(us, vs, ids, trig, rows, want, xs, ys, zs, p);
        if !ok {
          RowRaises(ids, us, vs, p);
          return Err(IndexError);
        }
      }
      r := Ok(Positions(xs[..], ys[..], zs[..]));
      GetResult(us, vs, ids, trig, want, r.value);
    }

    /** An entry of row `p` without a u or v position is an unplaceable entry. */
    lemma RowRaises(ids: seq<int>, us: seq<real>, vs: seq<real>, p: nat)
      requires Valid() && p < |panelIDs|
      requires exists i :: 0 <= i < |ids| && ids[i] == panelIDs[p] && (i >= |us| || i >= |vs|)
      ensures Unplaceable(panelIDs, us, vs, ids)
    {
      var i :| 0 <= i < |ids| && ids[i] == panelIDs[p] && (i >= |us| || i >= |vs|);
      assert Position(panelIDs, panelIDs[p]) == Some(p);
    }

    /** After the last row every entry of a table ID is handled. */
    lemma GetResult(us: seq<real>, vs: seq<real>, ids: seq<int>, trig: Trig, want: seq<(real, real, real)>, r: Positions)
      requires Valid() && want == Wanted(us, vs, ids, trig)
      requires Fits(us, vs, Rows(panelIDs, ids), |panelIDs|, 0)
      requires Done(Rows(panelIDs, ids), want, r.x, r.y, r.z, |panelIDs|, 0)
      ensures !Unplaceable(panelIDs, us, vs, ids) && Placed(us, vs, ids, trig, r)
    {
      var rows := Rows(panelIDs, ids);
      forall i | 0 <= i < |ids| && Position(panelIDs, ids[i]).Some?
        ensures Handled(rows, i, |panelIDs|, 0)
      {
      }
      forall i | 0 <= i < |us|
        ensures (r.x[i], r.y[i], r.z[i]) == Expected(us, vs, ids, trig, i)
      {
        assert (r.x[i], r.y[i], r.z[i]) == if Handled(rows, i, |panelIDs|, 0) then want[i] else (0.0, 0.0, 0.0);
      }
    }

    /** With the catalogue, z is the v position plus the z shift of the
        sensor, and every entry whose ID is not a PXD panel stays 0. */
    lemma CataloguePositions(us: seq<real>, vs: seq<real>, ids: seq<int>, trig: Trig, r: Positions, i: nat)
      requires Valid() && Catalogue() && !Unplaceable(panelIDs, us, vs, ids) && Placed(us, vs, ids, trig, r)
      requires i < |us|
      ensures i < |ids| && IsPanel(ids[i]) ==>
        && i < |vs| && IndexOf(ids[i]).Some? && IndexOf(ids[i]).value < NumPanels
        && r.z[i] == vs[i] + PanelShifts[IndexOf(ids[i]).value].z
      ensures !(i < |ids| && IsPanel(ids[i])) ==> r.x[i] == 0.0 && r.y[i] == 0.0 && r.z[i] == 0.0
    {
      assert (r.x[i], r.y[i], r.z[i]) == Expected(us, vs, ids, trig, i);
      if i < |ids| {
        CatalogueLookup(ids[i]);
        IndexOfSpec(ids[i]);
      }
    }
  }
}
