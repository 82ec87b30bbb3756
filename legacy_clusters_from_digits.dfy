/** The older cluster builder (build/lib/rootable/detectors/clustersFromDigits.py):
    per event, the digits are scattered into a 40 x 250 x 768 scratch grid
    (one 250 x 768 plane per sensor), each digit not yet covered by an
    earlier window of its sensor is grown into a window by `extractMatrix`,
    one row of statistics is appended per window, and the written cells are
    cleared before the next event. */
module LegacyClustersFromDigits {
  import opened Common
  import opened Grid
  import opened Panels
  import opened ExtractMatrix
  import CFD = ClustersFromDigits

  /** The shape of one plane of the scratch grid. */
  const LadderRows := 250
  const LadderCols := 768

  /** The window size `extractMatrix` starts from, its default `(9, 9)`. */
  const StartSize := 9

  /** `panelIDtoDepth[id]`: the plane of a panel's sensor ID. */
  function Depth(id: int): (d: nat)
    requires IsPanel(id)
    ensures d < NumPanels
  {
    IndexOfSpec(id);
    IndexOf(id).value
  }

  /** The dictionary `{id: index for index, id in enumerate(panelIDs)}` maps
      the panel at position `k` to plane `k` and back. */
  lemma DepthBijection(k: nat, id: int)
    requires k < NumPanels && IsPanel(id)
    ensures IsPanel(PanelIDs[k]) && Depth(PanelIDs[k]) == k
    ensures PanelIDs[Depth(id)] == id
  {
    IndexOfInverse(k);
    IndexOfSpec(id);
  }

  /** A numpy index `x` into an axis of length `n`: negative ones count
      from the end. */
  function Wrap(x: int, n: int): (r: int)
    requires -n <= x < n
    ensures 0 <= r < n && (r == x || r == x + n)
  {
    if x < 0 then x + n else x
  }

  /** Every digit of the event carries a panel's sensor ID (otherwise
      building the depth list raises KeyError). */
  predicate AllKnown(ds: seq<CFD.Digit>)
  {
    forall k :: 0 <= k < |ds| ==> IsPanel(ds[k].sensor)
  }

  /** Every digit of the event has cell indices numpy accepts for a plane
      (otherwise the scatter raises IndexError). */
  predicate AllPlaceable(ds: seq<CFD.Digit>)
  {
    forall k :: 0 <= k < |ds| ==>
      IsPanel(ds[k].sensor) && -LadderRows <= ds[k].u < LadderRows && -LadderCols <= ds[k].v < LadderCols
  }

  /** The cell of the scratch grid digit `d` is written to. */
  function At(d: CFD.Digit): (int, int, int)
    requires IsPanel(d.sensor) && -LadderRows <= d.u < LadderRows && -LadderCols <= d.v < LadderCols
  {
    (Depth(d.sensor), Wrap(d.u, LadderRows), Wrap(d.v, LadderCols))
  }

  /** Cell `(p, a, b)` after `matrixLadder[depth, uuIDs, vvIDs] = cellCharges`
      on an all-zero grid: the charge of the last digit written there, 0
      if none is. */
  function Cell(ds: seq<CFD.Digit>, p: int, a: int, b: int): int
    requires AllPlaceable(ds)
  {
    if ds == [] then 0
    else
      var last := ds[|ds| - 1];
      if At(last) == (p, a, b) then last.charge else Cell(ds[..|ds| - 1], p, a, b)
  }

  /** Some digit of `ds` is written to cell `(p, a, b)`. */
  function HitBy(ds: seq<CFD.Digit>, p: int, a: int, b: int): bool
    requires AllPlaceable(ds)
  {
    ds != [] && (At(ds[|ds| - 1]) == (p, a, b) || HitBy(ds[..|ds| - 1], p, a, b))
  }

  /** A cell no digit is written to keeps its zero. */
  lemma {:induction false} CellZeroUnlessHit(ds: seq<CFD.Digit>, p: int, a: int, b: int)
    requires AllPlaceable(ds)
    ensures !HitBy(ds, p, a, b) ==> Cell(ds, p, a, b) == 0
  {
    if ds != [] {
      CellZeroUnlessHit(ds[..|ds| - 1], p, a, b);
    }
  }

  /** Scatter is last-write-wins, and clearing the written cells zeroes
      exactly the hit cells: both extend by one digit at the end. */
  lemma ScatterStep(ds: seq<CFD.Digit>, k: nat)
    requires AllPlaceable(ds) && k < |ds|
    ensures AllPlaceable(ds[..k]) && AllPlaceable(ds[..k + 1])
    ensures forall p, a, b :: Cell(ds[..k + 1], p, a, b) == if At(ds[k]) == (p, a, b) then ds[k].charge else Cell(ds[..k], p, a, b)
    ensures forall p, a, b :: HitBy(ds[..k + 1], p, a, b) == (At(ds[k]) == (p, a, b) || HitBy(ds[..k], p, a, b))
  {
    assert ds[..k + 1][..k] == ds[..k];
  }

  /** Plane `p` of the grid after the scatter, `matrixLadder[p]`. */
  function Plane(ds: seq<CFD.Digit>, p: int): (m: Matrix)
    requires AllPlaceable(ds)
    ensures Ladder(m) && |m| == LadderRows && |m[0]| == LadderCols
    ensures forall a, b :: 0 <= a < LadderRows && 0 <= b < LadderCols ==> m[a][b] == Cell(ds, p, a, b)
  {
    seq(LadderRows, a requires 0 <= a < LadderRows => seq(LadderCols, b requires 0 <= b < LadderCols => Cell(ds, p, a, b)))
  }

  /** Plane `p` of a three-dimensional array, read. */
  function PlaneOf(g: array3<int>, p: int): (m: Matrix)
    reads g
    requires 0 <= p < g.Length0
    ensures |m| == g.Length1 && forall a :: 0 <= a < |m| ==> |m[a]| == g.Length2
    ensures forall a, b :: 0 <= a < g.Length1 && 0 <= b < g.Length2 ==> m[a][b] == g[p, a, b]
  {
    seq(g.Length1, a reads g requires 0 <= a < g.Length1 =>
      seq(g.Length2, b reads g requires 0 <= b < g.Length2 => g[p, a, b]))
  }

  /** The pixel pairs `zip(globalUPositions, globalVPositions)`. */
  function Pairs(us: seq<int>, vs: seq<int>): set<(int, int)>
  {
    set k | 0 <= k < |us| && k < |vs| :: (us[k], vs[k])
  }

  /** The row for one window. The quirks of the source are kept: the window's
      v positions go to `uCellIDs` and its u positions to `vCellIDs`, and
      `uSize`/`vSize` are the length of the one-element tuple `np.nonzero`
      returns for a one-dimensional array. */
  function LegacyRow<P>(toUV: (int, int, int) -> (P, P), i: int, id: int, e: Extraction): CFD.Row<P>
    requires |e.matrix| > 0 && forall a :: 0 <= a < |e.matrix| ==> |e.matrix[a]| > 0
  {
    var m := e.matrix;
    NonZeroListed(m);
    var position := toUV(e.seedU, e.seedV, id);
    CFD.Row(i, Sum2D(m), Max2D(m), CountNonZero2D(m), 1, 1,
            position.0, position.1, id,
            e.globalV, e.globalU, ValuesAt(m, NonZero(m)))
  }

  /** The inner loop of one event from digit `j` on; `known[id]` holds the
      pixels already covered by a window on sensor `id`. */
  function Walk<P>(toUV: (int, int, int) -> (P, P), ds: seq<CFD.Digit>, i: int, j: nat,
                   known: map<int, set<(int, int)>>): (r: Result<seq<CFD.Row<P>>>)
    requires j <= |ds| && AllPlaceable(ds)
    requires forall k :: 0 <= k < |ds| ==> ds[k].sensor in known
    decreases |ds| - j
  {
    if j == |ds| then Ok([])
    else
      var id := ds[j].sensor;
      if (ds[j].u, ds[j].v) in known[id] then Walk(toUV, ds, i, j + 1, known)
      else
        var g := Plane(ds, Depth(id));
        match Extract(g, ds[j].u, ds[j].v, StartSize, StartSize)
        case Err(err) => Err(err)
        case Ok(e) =>
          var rest := Walk(toUV, ds, i, j + 1, known[id := known[id] + Pairs(e.globalU, e.globalV)]);
          if rest.Err? then rest else Ok([LegacyRow(toUV, i, id, e)] + rest.value)
  }

  /** The statistics of a window's row: `seedCharge` is the window's
      maximum and is held by its seed pixel, `clsCharge` is the window's
      sum, `clsSize` its non-zero count, both sizes 1, and the position that
      of the seed. */
  ghost predicate LegacyStats<P>(toUV: (int, int, int) -> (P, P), g: Matrix, e: Extraction, r: CFD.Row<P>)
    requires Ladder(g)
  {
    r.uSize == 1 && r.vSize == 1 &&
    r.clsCharge == Sum2D(e.matrix) && r.clsSize == CountNonZero2D(e.matrix) &&
    InWindow(e, e.seedU, e.seedV) && InRange(g, e.seedU, e.seedV) && g[e.seedU][e.seedV] == r.seedCharge &&
    (forall a, b :: InWindow(e, a, b) ==> InRange(g, a, b) && g[a][b] <= r.seedCharge) &&
    (r.uPosition, r.vPosition) == toUV(e.seedU, e.seedV, r.sensorID)
  }

  /** The cells of a window's row: one per non-zero pixel, each cell charge
      the (non-zero) charge of the pixel at the swapped position
      `(vCellIDs[k], uCellIDs[k])`. */
  ghost predicate LegacyCells<P>(g: Matrix, e: Extraction, r: CFD.Row<P>)
    requires Ladder(g)
  {
    |r.cellCharges| == |r.uCells| == |r.vCells| == r.clsSize &&
    forall k :: 0 <= k < |r.cellCharges| ==>
      InWindow(e, r.vCells[k], r.uCells[k]) && InRange(g, r.vCells[k], r.uCells[k]) &&
      g[r.vCells[k]][r.uCells[k]] == r.cellCharges[k] != 0
  }

  lemma FinishRowStats<P>(toUV: (int, int, int) -> (P, P), g: Matrix, f: Frame, s0: int, s1: int, i: int, id: int)
    requires Ladder(g) && Fits(g, f)
    ensures LegacyStats(toUV, g, Finish(g, f, s0, s1), LegacyRow(toUV, i, id, Finish(g, f, s0, s1)))
  {
    var e := Finish(g, f, s0, s1);
    FinishSeed(g, f, s0, s1);
    var m := e.matrix;
    var p := ArgMax2D(m);
    assert e.seedU == p.0 + e.uLower && e.seedV == p.1 + e.vLower;
    assert m[p.0][p.1] == g[e.seedU][e.seedV];
  }

  lemma RowCells<P>(toUV: (int, int, int) -> (P, P), g: Matrix, e: Extraction, i: int, id: int)
    requires Ladder(g) && InGrid(g, e.matrix, e.uLower, e.vLower) && ShiftedNonZero(e)
    ensures LegacyCells(g, e, LegacyRow(toUV, i, id, e))
  {
    var m := e.matrix;
    var ps := NonZero(m);
    NonZeroListed(m);
    var r := LegacyRow(toUV, i, id, e);
    forall k | 0 <= k < |r.cellCharges|
      ensures InWindow(e, r.vCells[k], r.uCells[k]) && InRange(g, r.vCells[k], r.uCells[k])
      ensures g[r.vCells[k]][r.uCells[k]] == r.cellCharges[k] != 0
    {
      assert r.vCells[k] == ps[k].0 + e.uLower && r.uCells[k] == ps[k].1 + e.vLower;
      assert r.cellCharges[k] == m[ps[k].0][ps[k].1];
    }
  }

  lemma FinishRowCells<P>(toUV: (int, int, int) -> (P, P), g: Matrix, f: Frame, s0: int, s1: int, i: int, id: int)
    requires Ladder(g) && Fits(g, f)
    ensures LegacyCells(g, Finish(g, f, s0, s1), LegacyRow(toUV, i, id, Finish(g, f, s0, s1)))
  {
    FinishShifted(g, f, s0, s1);
    RowCells(toUV, g, Finish(g, f, s0, s1), i, id);
  }

  /** The row of a successful extraction around `(u, v)` on plane `g`
      keeps both the statistics and the cells. */
  lemma LegacyRowSpec<P>(toUV: (int, int, int) -> (P, P), g: Matrix, u: int, v: int, i: int, id: int)
    requires Ladder(g) && Extract(g, u, v, StartSize, StartSize).Ok?
    ensures
      var e := Extract(g, u, v, StartSize, StartSize).value;
      var r := LegacyRow(toUV, i, id, e);
      r.eventNumber == i && r.sensorID == id && LegacyStats(toUV, g, e, r) && LegacyCells(g, e, r)
  {
    var size := Grow(g, u, v, StartSize, StartSize).value;
    var f := Centre(g, u, v, size.0, size.1).value;
    FinishRowStats(toUV, g, f, size.0, size.1, i, id);
    FinishRowCells(toUV, g, f, size.0, size.1, i, id);
  }

  /** The rows of event `i`; an event without digits is skipped. */
  function EventRows<P>(toUV: (int, int, int) -> (P, P), ds: seq<CFD.Digit>, i: int): Result<seq<CFD.Row<P>>>
  {
    if |ds| == 0 then Ok([])
    else if !AllKnown(ds) then Err(KeyError)
    else if !AllPlaceable(ds) then Err(IndexError)
    else Walk(toUV, ds, i, 0, NoneKnown())
  }

  /** The outcome of event `i`. */
  function EventOutcomes<P>(toUV: (int, int, int) -> (P, P), events: seq<seq<CFD.Digit>>): int -> Result<seq<CFD.Row<P>>>
  {
    i => if 0 <= i < |events| then EventRows(toUV, events[i], i) else Ok([])
  }

  /** The rows of all events, in order; the first failing event's error. */
  function LegacyRows<P>(toUV: (int, int, int) -> (P, P), events: seq<seq<CFD.Digit>>): Result<seq<CFD.Row<P>>>
  {
    Collect(EventOutcomes(toUV, events), |events|)
  }

  /** What `_process` returns: the twelve columns of all rows. */
  function LegacySpec<P>(toUV: (int, int, int) -> (P, P), events: seq<seq<CFD.Digit>>): Result<CFD.Table<P>>
  {
    match LegacyRows(toUV, events)
    case Err(err) => Err(err)
    case Ok(rows) => Ok(CFD.Tabulate(rows))
  }

  /** Every cell of a grid of the scratch shape is zero. */
  predicate ZeroGrid(g: array3<int>)
    reads g
  {
    forall p, a, b :: 0 <= p < g.Length0 && 0 <= a < g.Length1 && 0 <= b < g.Length2 ==> g[p, a, b] == 0
  }

  /** The array holds the grid after scattering `ds` onto zeros. */
  ghost predicate Scattered(g: array3<int>, ds: seq<CFD.Digit>)
    reads g
    requires AllPlaceable(ds)
  {
    g.Length0 == NumPanels && g.Length1 == LadderRows && g.Length2 == LadderCols &&
    forall p, a, b :: 0 <= p < NumPanels && 0 <= a < LadderRows && 0 <= b < LadderCols ==> g[p, a, b] == Cell(ds, p, a, b)
  }

  /** Reading a plane of the scattered array gives the plane of the scatter. */
  lemma PlaneMatches(g: array3<int>, ds: seq<CFD.Digit>, p: int)
    requires AllPlaceable(ds) && Scattered(g, ds) && 0 <= p < NumPanels
    ensures PlaneOf(g, p) == Plane(ds, p)
  {
    var m := PlaneOf(g, p);
    var n := Plane(ds, p);
    forall a | 0 <= a < LadderRows ensures m[a] == n[a] {
      assert forall b :: 0 <= b < LadderCols ==> m[a][b] == n[a][b];
    }
  }

  /** One step of `Walk`: a covered digit is skipped. */
  lemma WalkSkip<P>(toUV: (int, int, int) -> (P, P), ds: seq<CFD.Digit>, i: int, j: nat, known: map<int, set<(int, int)>>)
    requires j < |ds| && AllPlaceable(ds)
    requires forall k :: 0 <= k < |ds| ==> ds[k].sensor in known
    requires (ds[j].u, ds[j].v) in known[ds[j].sensor]
    ensures Walk(toUV, ds, i, j, known) == Walk(toUV, ds, i, j + 1, known)
  {
  }

  /** One step of `Walk`: an uncovered digit whose window fails raises. */
  lemma WalkFails<P>(toUV: (int, int, int) -> (P, P), ds: seq<CFD.Digit>, i: int, j: nat, known: map<int, set<(int, int)>>)
    requires j < |ds| && AllPlaceable(ds)
    requires forall k :: 0 <= k < |ds| ==> ds[k].sensor in known
    requires (ds[j].u, ds[j].v) !in known[ds[j].sensor]
    requires Extract(Plane(ds, Depth(ds[j].sensor)), ds[j].u, ds[j].v, StartSize, StartSize).Err?
    ensures Walk(toUV, ds, i, j, known) == Err(Extract(Plane(ds, Depth(ds[j].sensor)), ds[j].u, ds[j].v, StartSize, StartSize).error)
  {
  }

  /** One step of `Walk`: an uncovered digit yields the row of its window
      and records the window's non-zero pixels. */
  lemma WalkAppends<P>(toUV: (int, int, int) -> (P, P), ds: seq<CFD.Digit>, i: int, j: nat, known: map<int, set<(int, int)>>)
    requires j < |ds| && AllPlaceable(ds)
    requires forall k :: 0 <= k < |ds| ==> ds[k].sensor in known
    requires (ds[j].u, ds[j].v) !in known[ds[j].sensor]
    requires Extract(Plane(ds, Depth(ds[j].sensor)), ds[j].u, ds[j].v, StartSize, StartSize).Ok?
    ensures
      var g := Plane(ds, Depth(ds[j].sensor));
      var e := Extract(g, ds[j].u, ds[j].v, StartSize, StartSize).value;
      var id := ds[j].sensor;
      Walk(toUV, ds, i, j, known) ==
      Prepend([LegacyRow(toUV, i, id, e)], Walk(toUV, ds, i, j + 1, known[id := known[id] + Pairs(e.globalU, e.globalV)]))
  {
  }

  /** The inner loop of `_process` for one event whose digits are
      scattered into `ladder`: a digit already covered on its sensor is
      skipped, any other is grown into a window whose row is appended and
      whose non-zero pixels are recorded for the sensor. */
  method WalkEvent<P>(toUV: (int, int, int) -> (P, P), ladder: array3<int>, ds: seq<CFD.Digit>, i: int)
    returns (r: Result<seq<CFD.Row<P>>>)
    requires AllPlaceable(ds) && Scattered(ladder, ds)
    ensures r == Walk(toUV, ds, i, 0, NoneKnown())
  {
    var known := NoneKnown();
    var out: seq<CFD.Row<P>> := [];
    PrependNothing(Walk(toUV, ds, i, 0, known));
    for j := 0 to |ds|
      invariant forall k :: 0 <= k < |ds| ==> ds[k].sensor in known
      invariant Prepend(out, Walk(toUV, ds, i, j, known)) == Walk(toUV, ds, i, 0, NoneKnown())
    {
      var x, y, id := ds[j].u, ds[j].v, ds[j].sensor;
      if (x, y) in known[id] {
        WalkSkip(toUV, ds, i, j, known);
        continue;
      }
      var g := PlaneOf(ladder, Depth(id));
      PlaneMatches(ladder, ds, Depth(id));
      var e := Extract(g, x, y, StartSize, StartSize);
      if e.Err? {
        WalkFails(toUV, ds, i, j, known);
        return Err(e.error);
      }
      var row := LegacyRow(toUV, i, id, e.value);
      WalkAppends(toUV, ds, i, j, known);
      ghost var before := known;
      known := known[id := known[id] + Pairs(e.value.globalU, e.value.globalV)];
      PrependTwice(out, [row], Walk(toUV, ds, i, j + 1, known));
      out := out + [row];
    }
    assert out + [] == out;
    return Ok(out);
  }

  /** `depth = [panelIDtoDepth[id] for id in sensorID]`: `None` for the
      KeyError an unknown sensor ID raises. */
  method DepthList(ds: seq<CFD.Digit>) returns (r: Option<seq<nat>>)
    ensures r.Some? <==> AllKnown(ds)
    ensures r.Some? ==> |r.value| == |ds| && forall k :: 0 <= k < |ds| ==> IsPanel(ds[k].sensor) && r.value[k] == Depth(ds[k].sensor)
  {
    var depth: seq<nat> := [];
    for k := 0 to |ds|
      invariant |depth| == k
      invariant forall m :: 0 <= m < k ==> IsPanel(ds[m].sensor) && depth[m] == Depth(ds[m].sensor)
    {
      var d := IndexOf(ds[k].sensor);
      if d.None? {
        return None;
      }
      assert IsPanel(ds[k].sensor) && d.value == Depth(ds[k].sensor);
      AppendKeeps(depth, d.value);
      depth := depth + [d.value];
    }
    return Some(depth);
  }

  lemma AppendKeeps<T>(s: seq<T>, x: T)
    ensures |s + [x]| == |s| + 1 && (s + [x])[|s|] == x
    ensures forall m :: 0 <= m < |s| ==> (s + [x])[m] == s[m]
  {
  }

  /** numpy's bounds check on `matrixLadder[depth, uuIDs, vvIDs]`: false
      for the IndexError an index outside a plane raises. */
  method IndicesValid(ds: seq<CFD.Digit>) returns (ok: bool)
    requires AllKnown(ds)
    ensures ok <==> AllPlaceable(ds)
  {
    for k := 0 to |ds|
      invariant forall m :: 0 <= m < k ==> -LadderRows <= ds[m].u < LadderRows && -LadderCols <= ds[m].v < LadderCols
    {
      if !(-LadderRows <= ds[k].u < LadderRows && -LadderCols <= ds[k].v < LadderCols) {
        return false;
      }
    }
    return true;
  }

  /** `matrixLadder[depth, uuIDs, vvIDs] = cellCharges` on the zeroed grid. */
  method Scatter(ladder: array3<int>, ds: seq<CFD.Digit>, depth: seq<nat>)
    modifies ladder
    requires AllPlaceable(ds) && |depth| == |ds| && forall k :: 0 <= k < |ds| ==> depth[k] == Depth(ds[k].sensor)
    requires ladder.Length0 == NumPanels && ladder.Length1 == LadderRows && ladder.Length2 == LadderCols
    requires ZeroGrid(ladder)
    ensures Scattered(ladder, ds)
  {
    assert ds[..0] == [];
    for k := 0 to |ds|
      invariant AllPlaceable(ds[..k]) && Scattered(ladder, ds[..k])
    {
      ScatterStep(ds, k);
      ladder[depth[k], Wrap(ds[k].u, LadderRows), Wrap(ds[k].v, LadderCols)] := ds[k].charge;
    }
    assert ds[..|ds|] == ds;
  }

  /** `matrixLadder[depth, uuIDs, vvIDs] = 0`: every written cell is zeroed
      and the grid is all-zero again. */
  method Clear(ladder: array3<int>, ds: seq<CFD.Digit>, depth: seq<nat>)
    modifies ladder
    requires AllPlaceable(ds) && |depth| == |ds| && forall k :: 0 <= k < |ds| ==> depth[k] == Depth(ds[k].sensor)
    requires Scattered(ladder, ds)
    ensures ZeroGrid(ladder)
  {
    assert ds[..0] == [];
    for k := 0 to |ds|
      invariant AllPlaceable(ds[..k])
      invariant forall p, a, b :: 0 <= p < NumPanels && 0 <= a < LadderRows && 0 <= b < LadderCols ==>
        ladder[p, a, b] == if HitBy(ds[..k], p, a, b) then 0 else Cell(ds, p, a, b)
    {
      ScatterStep(ds, k);
      ladder[depth[k], Wrap(ds[k].u, LadderRows), Wrap(ds[k].v, LadderCols)] := 0;
    }
    assert ds[..|ds|] == ds;
    forall p, a, b | 0 <= p < NumPanels && 0 <= a < LadderRows && 0 <= b < LadderCols ensures ladder[p, a, b] == 0 {
      CellZeroUnlessHit(ds, p, a, b);
    }
  }

  /** The body of `_process` for event `i`: skip it when it has no digits,
      otherwise build the depth list, scatter, walk the digits and clear
      the written cells again. */
  method ProcessEvent<P>(toUV: (int, int, int) -> (P, P), ladder: array3<int>, ds: seq<CFD.Digit>, i: int)
    returns (r: Result<seq<CFD.Row<P>>>)
    modifies ladder
    requires ladder.Length0 == NumPanels && ladder.Length1 == LadderRows && ladder.Length2 == LadderCols
    requires ZeroGrid(ladder)
    ensures r == EventRows(toUV, ds, i)
    ensures r.Ok? ==> ZeroGrid(ladder)
  {
    if |ds| == 0 {
      return Ok([]);
    }
    var depth := DepthList(ds);
    if depth.None? {
      return Err(KeyError);
    }
    var ok := IndicesValid(ds);
    if !ok {
      return Err(IndexError);
    }
    Scatter(ladder, ds, depth.value);
    r := WalkEvent(toUV, ladder, ds, i);
    if r.Ok? {
      Clear(ladder, ds, depth.value);
    }
  }

  /** `_process`: the events in order over one scratch grid, which is
      all-zero at the start of every event. */
  method LegacyProcess<P>(toUV: (int, int, int) -> (P, P), events: seq<seq<CFD.Digit>>)
    returns (r: Result<CFD.Table<P>>)
    ensures r == LegacySpec(toUV, events)
  {
    var ladder := new int[NumPanels, LadderRows, LadderCols]((_, _, _) => 0);
    var rows: seq<CFD.Row<P>> := [];
    ghost var outcome := EventOutcomes(toUV, events);
    for i := 0 to |events|
      invariant ZeroGrid(ladder)
      invariant Collect(outcome, i) == Ok(rows)
    {
      var now := ProcessEvent(toUV, ladder, events[i], i);
      assert outcome(i) == now;
      CollectStep(outcome, i, |events|, rows);
      if now.Err? {
        return Err(now.error);
      }
      rows := rows + now.value;
    }
    r := Ok(CFD.Tabulate(rows));
  }

  /** What every row of the older builder promises about itself: a panel's
      sensor, both sizes 1, one cell per non-zero pixel, every cell charge
      non-zero and at most the seed charge. */
  ghost predicate LegacyRowOk<P>(r: CFD.Row<P>)
  {
    r.uSize == 1 && r.vSize == 1 && IsPanel(r.sensorID) &&
    |r.cellCharges| == |r.uCells| == |r.vCells| == r.clsSize &&
    forall k :: 0 <= k < |r.cellCharges| ==> r.cellCharges[k] != 0 && r.cellCharges[k] <= r.seedCharge
  }

  /** The rows of one event: numbered `i`, each keeping `LegacyRowOk`. */
  ghost predicate EventRowsOk<P>(rows: seq<CFD.Row<P>>, i: int)
  {
    forall k :: 0 <= k < |rows| ==> rows[k].eventNumber == i && LegacyRowOk(rows[k])
  }

  lemma RowOkOf<P>(toUV: (int, int, int) -> (P, P), g: Matrix, e: Extraction, r: CFD.Row<P>, i: int)
    requires Ladder(g) && LegacyStats(toUV, g, e, r) && LegacyCells(g, e, r)
    requires IsPanel(r.sensorID) && r.eventNumber == i
    ensures EventRowsOk([r], i)
  {
    forall k | 0 <= k < |r.cellCharges| ensures r.cellCharges[k] != 0 && r.cellCharges[k] <= r.seedCharge {
      assert InWindow(e, r.vCells[k], r.uCells[k]);
    }
  }

  lemma LegacyRowOkOfWindow<P>(toUV: (int, int, int) -> (P, P), g: Matrix, u: int, v: int, i: int, id: int)
    requires Ladder(g) && Extract(g, u, v, StartSize, StartSize).Ok? && IsPanel(id)
    ensures EventRowsOk([LegacyRow(toUV, i, id, Extract(g, u, v, StartSize, StartSize).value)], i)
  {
    var e := Extract(g, u, v, StartSize, StartSize).value;
    LegacyRowSpec(toUV, g, u, v, i, id);
    RowOkOf(toUV, g, e, LegacyRow(toUV, i, id, e), i);
  }

  lemma EventRowsOkAppend<P>(a: seq<CFD.Row<P>>, b: seq<CFD.Row<P>>, i: int)
    requires EventRowsOk(a, i) && EventRowsOk(b, i)
    ensures EventRowsOk(a + b, i)
  {
    forall k | 0 <= k < |a + b| ensures (a + b)[k].eventNumber == i && LegacyRowOk((a + b)[k]) {
      if k < |a| { assert (a + b)[k] == a[k]; } else { assert (a + b)[k] == b[k - |a|]; }
    }
  }

  /** An outcome that, when it succeeds, holds at most `n` rows of event `i`
      keeping `LegacyRowOk`. */
  ghost predicate RowsOk<P>(r: Result<seq<CFD.Row<P>>>, n: int, i: int)
  {
    r.Ok? ==> |r.value| <= n && EventRowsOk(r.value, i)
  }

  lemma PrependRowOk<P>(row: CFD.Row<P>, rest: Result<seq<CFD.Row<P>>>, n: int, i: int)
    requires EventRowsOk([row], i) && RowsOk(rest, n, i)
    ensures RowsOk(Prepend([row], rest), n + 1, i)
  {
    if rest.Ok? {
      EventRowsOkAppend([row], rest.value, i);
    }
  }

  /** The step of `WalkFacts` for an uncovered digit whose window succeeds. */
  lemma WalkAppendsOk<P>(toUV: (int, int, int) -> (P, P), ds: seq<CFD.Digit>, i: int, j: nat, known: map<int, set<(int, int)>>)
    requires j < |ds| && AllPlaceable(ds)
    requires forall k :: 0 <= k < |ds| ==> ds[k].sensor in known
    requires (ds[j].u, ds[j].v) !in known[ds[j].sensor]
    requires Extract(Plane(ds, Depth(ds[j].sensor)), ds[j].u, ds[j].v, StartSize, StartSize).Ok?
    requires
      var e := Extract(Plane(ds, Depth(ds[j].sensor)), ds[j].u, ds[j].v, StartSize, StartSize).value;
      var id := ds[j].sensor;
      RowsOk(Walk(toUV, ds, i, j + 1, known[id := known[id] + Pairs(e.globalU, e.globalV)]), |ds| - j - 1, i)
    ensures RowsOk(Walk(toUV, ds, i, j, known), |ds| - j, i)
  {
    var id := ds[j].sensor;
    var g := Plane(ds, Depth(id));
    var e := Extract(g, ds[j].u, ds[j].v, StartSize, StartSize).value;
    WalkAppends(toUV, ds, i, j, known);
    LegacyRowOkOfWindow(toUV, g, ds[j].u, ds[j].v, i, id);
    PrependRowOk(LegacyRow(toUV, i, id, e), Walk(toUV, ds, i, j + 1, known[id := known[id] + Pairs(e.globalU, e.globalV)]), |ds| - j - 1, i);
  }

  /** The walk from digit `j` adds at most one row per remaining digit,
      each numbered `i` and keeping `LegacyRowOk`. */
  lemma {:induction false} WalkFacts<P>(toUV: (int, int, int) -> (P, P), ds: seq<CFD.Digit>, i: int, j: nat,
                                        known: map<int, set<(int, int)>>)
    requires j <= |ds| && AllPlaceable(ds)
    requires forall k :: 0 <= k < |ds| ==> ds[k].sensor in known
    ensures RowsOk(Walk(toUV, ds, i, j, known), |ds| - j, i)
    decreases |ds| - j
  {
    if j < |ds| {
      var id := ds[j].sensor;
      if (ds[j].u, ds[j].v) in known[id] {
        WalkSkip(toUV, ds, i, j, known);
        WalkFacts(toUV, ds, i, j + 1, known);
      } else if Extract(Plane(ds, Depth(id)), ds[j].u, ds[j].v, StartSize, StartSize).Ok? {
        var e := Extract(Plane(ds, Depth(id)), ds[j].u, ds[j].v, StartSize, StartSize).value;
        WalkFacts(toUV, ds, i, j + 1, known[id := known[id] + Pairs(e.globalU, e.globalV)]);
        WalkAppendsOk(toUV, ds, i, j, known);
      } else {
        WalkFails(toUV, ds, i, j, known);
      }
    }
  }

  /** An event yields at most one row per digit, each numbered with the
      event and keeping `LegacyRowOk`. */
  lemma EventRowsFacts<P>(toUV: (int, int, int) -> (P, P), ds: seq<CFD.Digit>, i: int)
    ensures RowsOk(EventRows(toUV, ds, i), |ds|, i)
  {
    if |ds| > 0 && AllKnown(ds) && AllPlaceable(ds) {
      WalkFacts(toUV, ds, i, 0, NoneKnown());
    }
  }

  /** Rows of events `0 .. n-1`, grouped by event in ascending order, each
      keeping `LegacyRowOk`. */
  ghost predicate AllRowsOk<P>(rows: seq<CFD.Row<P>>, n: int)
  {
    (forall k :: 0 <= k < |rows| ==> 0 <= rows[k].eventNumber < n && LegacyRowOk(rows[k])) &&
    (forall k, l :: 0 <= k < l < |rows| ==> rows[k].eventNumber <= rows[l].eventNumber)
  }

  lemma AllRowsOkAppend<P>(before: seq<CFD.Row<P>>, now: seq<CFD.Row<P>>, n: nat)
    requires AllRowsOk(before, n) && EventRowsOk(now, n)
    ensures AllRowsOk(before + now, n + 1)
  {
    var all := before + now;
    forall k | 0 <= k < |all| ensures 0 <= all[k].eventNumber < n + 1 && LegacyRowOk(all[k]) {
      if k < |before| { assert all[k] == before[k]; } else { assert all[k] == now[k - |before|]; }
    }
    forall k, l | 0 <= k < l < |all| ensures all[k].eventNumber <= all[l].eventNumber {
      if l < |before| {
        assert all[k] == before[k] && all[l] == before[l];
      } else if k < |before| {
        assert all[k] == before[k] && all[l] == now[l - |before|];
      } else {
        assert all[k] == now[k - |before|] && all[l] == now[l - |before|];
      }
    }
  }

  /** Collecting outcomes that each keep `EventRowsOk` yields rows grouped
      by event in ascending order. */
  lemma {:induction false} CollectFacts<P>(outcome: int -> Result<seq<CFD.Row<P>>>, n: nat)
    requires forall i :: 0 <= i < n && outcome(i).Ok? ==> EventRowsOk(outcome(i).value, i)
    ensures Collect(outcome, n).Ok? ==> AllRowsOk(Collect(outcome, n).value, n)
    decreases n
  {
    if n > 0 {
      CollectFacts(outcome, n - 1);
      var before := Collect(outcome, n - 1);
      if before.Ok? && outcome(n - 1).Ok? {
        AllRowsOkAppend(before.value, outcome(n - 1).value, n - 1);
      }
    }
  }

  /** Every row of the older builder's table belongs to an input event,
      rows are grouped by event in ascending order, and each keeps
      `LegacyRowOk`. */
  lemma LegacyRowsFacts<P>(toUV: (int, int, int) -> (P, P), events: seq<seq<CFD.Digit>>)
    ensures LegacyRows(toUV, events).Ok? ==> AllRowsOk(LegacyRows(toUV, events).value, |events|)
  {
    var outcome := EventOutcomes(toUV, events);
    forall i | 0 <= i < |events| && outcome(i).Ok? ensures EventRowsOk(outcome(i).value, i) {
      EventRowsFacts(toUV, events[i], i);
    }
    CollectFacts(outcome, |events|);
  }

  /** `_process` raises exactly when one of its events does, and with the
      error of the first event that raises. */
  lemma LegacyRaisesIff<P>(toUV: (int, int, int) -> (P, P), events: seq<seq<CFD.Digit>>)
    ensures LegacySpec(toUV, events).Err? <==> exists i :: 0 <= i < |events| && EventRows(toUV, events[i], i).Err?
    ensures LegacySpec(toUV, events).Err? ==>
      exists i :: 0 <= i < |events| && EventRows(toUV, events[i], i).Err? &&
        LegacySpec(toUV, events).error == EventRows(toUV, events[i], i).error &&
        forall l :: 0 <= l < i ==> EventRows(toUV, events[l], l).Ok?
  {
    var outcome := EventOutcomes(toUV, events);
    CollectErrIff(outcome, |events|);
    assert forall i :: 0 <= i < |events| ==> outcome(i) == EventRows(toUV, events[i], i);
  }

  /** An event without digits is skipped: appending one changes nothing. */
  lemma LegacySkipsEmptyEvent<P>(toUV: (int, int, int) -> (P, P), events: seq<seq<CFD.Digit>>)
    ensures LegacySpec(toUV, events + [[]]) == LegacySpec(toUV, events)
  {
    var o1 := EventOutcomes(toUV, events);
    var o2 := EventOutcomes(toUV, events + [[]]);
    assert forall i :: 0 <= i < |events| ==> (events + [[]])[i] == events[i];
    CollectAgree(o1, o2, |events|);
    assert o2(|events|) == Ok([]);
    var c := Collect(o2, |events|);
    if c.Ok? {
      assert c.value + [] == c.value;
    }
  }
}
