/** The per-event charge plane of the truth and filter passes: one
    250 x 768 array shared by every sensor of the event, written by
    `matrixLadder[uCellIDs[i], vCellIDs[i]] = cellCharges[i]`. */
module FlatLadder {
  import opened Common
  import opened Grid
  import opened ExtractMatrix
  import CFD = ClustersFromDigits
  import L = LegacyClustersFromDigits

  /** Every digit has cell indices numpy accepts for the 250 x 768 ladder. */
  predicate InLadder(ds: seq<CFD.Digit>)
  {
    forall k :: 0 <= k < |ds| ==> -L.LadderRows <= ds[k].u < L.LadderRows && -L.LadderCols <= ds[k].v < L.LadderCols
  }

  /** The ladder cell digit `d` is written to. */
  function Spot(d: CFD.Digit): (int, int)
    requires -L.LadderRows <= d.u < L.LadderRows && -L.LadderCols <= d.v < L.LadderCols
  {
    (L.Wrap(d.u, L.LadderRows), L.Wrap(d.v, L.LadderCols))
  }

  /** Cell `(a, b)` after `matrixLadder[uCellIDs[i], vCellIDs[i]] = cellCharges[i]`
      on zeros: every sensor of the event shares the one plane, and the
      last digit written to a cell wins. */
  function FlatCell(ds: seq<CFD.Digit>, a: int, b: int): int
    requires InLadder(ds)
  {
    if ds == [] then 0
    else
      var last := ds[|ds| - 1];
      if Spot(last) == (a, b) then last.charge else FlatCell(ds[..|ds| - 1], a, b)
  }

  /** The scatter extends by one digit at the end. */
  lemma FlatStep(ds: seq<CFD.Digit>, k: nat)
    requires InLadder(ds) && k < |ds|
    ensures InLadder(ds[..k]) && InLadder(ds[..k + 1])
    ensures forall a, b :: FlatCell(ds[..k + 1], a, b) == if Spot(ds[k]) == (a, b) then ds[k].charge else FlatCell(ds[..k], a, b)
  {
    assert ds[..k + 1][..k] == ds[..k];
  }

  /** The event's ladder after the scatter. */
  function FlatPlane(ds: seq<CFD.Digit>): (m: Matrix)
    requires InLadder(ds)
    ensures Ladder(m) && |m| == L.LadderRows && |m[0]| == L.LadderCols
    ensures forall a, b :: 0 <= a < L.LadderRows && 0 <= b < L.LadderCols ==> m[a][b] == FlatCell(ds, a, b)
  {
    seq(L.LadderRows, a requires 0 <= a < L.LadderRows => seq(L.LadderCols, b requires 0 <= b < L.LadderCols => FlatCell(ds, a, b)))
  }

  /** The ladder array holds the scatter of `ds` onto zeros. */
  ghost predicate Scattered(g: array2<int>, ds: seq<CFD.Digit>)
    reads g
    requires InLadder(ds)
  {
    g.Length0 == L.LadderRows && g.Length1 == L.LadderCols &&
    forall a, b :: 0 <= a < L.LadderRows && 0 <= b < L.LadderCols ==> g[a, b] == FlatCell(ds, a, b)
  }

  /** The ladder array, read. */
  function Read(g: array2<int>): (m: Matrix)
    reads g
    ensures |m| == g.Length0 && forall a :: 0 <= a < |m| ==> |m[a]| == g.Length1
    ensures forall a, b :: 0 <= a < g.Length0 && 0 <= b < g.Length1 ==> m[a][b] == g[a, b]
  {
    seq(g.Length0, a reads g requires 0 <= a < g.Length0 => seq(g.Length1, b reads g requires 0 <= b < g.Length1 => g[a, b]))
  }

  /** Reading the scattered array gives the event's ladder. */
  lemma ReadMatches(g: array2<int>, ds: seq<CFD.Digit>)
    requires InLadder(ds) && Scattered(g, ds)
    ensures Read(g) == FlatPlane(ds)
  {
    var m := Read(g);
    var n := FlatPlane(ds);
    forall a | 0 <= a < L.LadderRows ensures m[a] == n[a] {
      assert forall b :: 0 <= b < L.LadderCols ==> m[a][b] == n[a][b];
    }
  }

  /** `matrixLadder = np.zeros((250, 768))` and the scatter of the event's
      charges; `None` for the IndexError of a cell index outside the
      ladder. */
  method ScatterLadder(ds: seq<CFD.Digit>) returns (r: Option<array2<int>>)
    ensures r.Some? <==> InLadder(ds)
    ensures r.Some? ==> fresh(r.value) && Scattered(r.value, ds)
  {
    if !InLadder(ds) {
      return None;
    }
    var ladder := new int[L.LadderRows, L.LadderCols]((_, _) => 0);
    assert ds[..0] == [];
    for k := 0 to |ds|
      invariant InLadder(ds[..k]) && Scattered(ladder, ds[..k])
    {
      FlatStep(ds, k);
      var cell := Spot(ds[k]);
      ladder[cell.0, cell.1] := ds[k].charge;
    }
    assert ds[..|ds|] == ds;
    return Some(ladder);
  }
}
