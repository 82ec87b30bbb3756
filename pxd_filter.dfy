/** Clusters outside the regions of interest (rootable/detectors/pxdFilter.py,
    `FindUnselectedClusters`): every event's unfiltered digits are scattered
    into one 250 x 768 plane, and every non-zero pixel whose row and column
    are both new for its sensor opens a fixed 9 x 9 window, padded at the
    high ends and rolled so that its maximum sits at the centre. */
module PxdFilter {
  import opened Common
  import opened Grid
  import opened Panels
  import opened ExtractMatrix
  import opened FlatLadder
  import CFD = ClustersFromDigits
  import L = LegacyClustersFromDigits

  /** The window side and its centre index. */
  const Side := 9
  const Mid := 4

  // ---- the 9 x 9 window ----

  /** The stop of a numpy slice on an axis of length `n`. */
  function SliceEnd(upper: int, n: int): (r: int)
    ensures r <= n && r <= upper && (r == n || r == upper)
  {
    if upper < n then upper else n
  }

  /** The bounds `_process` computes around pixel `(x, y)`: `x - 4` and
      `x + 5` clipped to `[0, 768]` on both axes, and the slice stops
      clamped to the plane. */
  datatype Box = Box(xLower: int, xEnd: int, yLower: int, yEnd: int)

  function BoxAt(g: Matrix, x: int, y: int): (b: Box)
    requires IsRect(g, L.LadderRows, L.LadderCols) && 0 <= x < L.LadderRows && 0 <= y < L.LadderCols
    ensures 0 <= b.xLower <= x < b.xEnd <= |g| && b.xEnd - b.xLower <= Side
    ensures 0 <= b.yLower <= y < b.yEnd <= L.LadderCols && b.yEnd - b.yLower <= Side
  {
    Box(Clip(x - Mid, 0, 768), SliceEnd(Clip(x + Mid + 1, 0, 768), |g|),
        Clip(y - Mid, 0, 768), SliceEnd(Clip(y + Mid + 1, 0, 768), L.LadderCols))
  }

  /** `np.pad(matrix, ((0, 9 - rows), (0, 9 - cols)))`: zeros added after the
      last row and the last column. */
  function Pad(m: Matrix): (r: Matrix)
    requires |m| <= Side
    ensures IsRect(r, Side, Side)
  {
    seq(Side, a requires 0 <= a < Side => seq(Side, b requires 0 <= b < Side => if a < |m| && b < |m[a]| then m[a][b] else 0))
  }

  /** The window of pixel `(x, y)`: the slice, padded when it is not 9 x 9. */
  function Window(g: Matrix, x: int, y: int): (m: Matrix)
    requires IsRect(g, L.LadderRows, L.LadderCols) && 0 <= x < L.LadderRows && 0 <= y < L.LadderCols
    ensures IsRect(m, Side, Side)
  {
    var b := BoxAt(g, x, y);
    var cut := Slice(g, b.xLower, b.xEnd, b.yLower, b.yEnd);
    SliceCells(g, b.xLower, b.xEnd, b.yLower, b.yEnd);
    if |cut| == Side && b.yEnd - b.yLower == Side then cut else Pad(cut)
  }

  /** The window is exactly 9 x 9; a cell holds the plane's cell it covers
      when inside the sliced box, and zero (padding, only past the box's
      high ends) otherwise. */
  lemma WindowCells(g: Matrix, x: int, y: int)
    requires IsRect(g, L.LadderRows, L.LadderCols) && 0 <= x < L.LadderRows && 0 <= y < L.LadderCols
    ensures var b := BoxAt(g, x, y);
      forall a, c :: 0 <= a < Side && 0 <= c < Side ==>
        Window(g, x, y)[a][c] == if b.xLower + a < b.xEnd && b.yLower + c < b.yEnd then g[b.xLower + a][b.yLower + c] else 0
  {
    var b := BoxAt(g, x, y);
    var cut := Slice(g, b.xLower, b.xEnd, b.yLower, b.yEnd);
    SliceCells(g, b.xLower, b.xEnd, b.yLower, b.yEnd);
    var w := Window(g, x, y);
    var full := |cut| == Side && b.yEnd - b.yLower == Side;
    assert w == if full then cut else Pad(cut);
    forall a, c | 0 <= a < Side && 0 <= c < Side
      ensures w[a][c] == if b.xLower + a < b.xEnd && b.yLower + c < b.yEnd then g[b.xLower + a][b.yLower + c] else 0
    {
      if !full {
        assert w[a][c] == if a < |cut| && c < |cut[a]| then cut[a][c] else 0;
      }
    }
  }

  // ---- the cyclic roll ----

  /** `np.roll` of a length-9 axis by `t`: entry `i` comes from `i - t`,
      cyclically. */
  function Rotate<T>(s: seq<T>, t: int): (r: seq<T>)
    requires |s| == Side
    ensures |r| == Side
  {
    seq(Side, i requires 0 <= i < Side => s[(i - t) % Side])
  }

  /** The rotation by `t` is the sequence cut at `-t` (mod 9) with its two
      halves swapped. */
  lemma RotateSplits<T>(s: seq<T>, t: int)
    requires |s| == Side
    ensures var k := (Side - t % Side) % Side; Rotate(s, t) == s[k..] + s[..k]
  {
    var k := (Side - t % Side) % Side;
    forall i | 0 <= i < Side ensures Rotate(s, t)[i] == (s[k..] + s[..k])[i] {
      if i < Side - k {
        assert (i - t) % Side == k + i;
      } else {
        assert (i - t) % Side == i - (Side - k);
      }
    }
  }

  /** A sequence cut in two and put back with its halves swapped keeps its
      entries, their sum and their non-zero count. */
  lemma SwapKeeps(s: seq<int>, r: seq<int>, k: int)
    requires 0 <= k <= |s| && r == s[k..] + s[..k]
    ensures multiset(r) == multiset(s)
    ensures Sum(r) == Sum(s) && CountNonZero(r) == CountNonZero(s)
  {
    assert s == s[..k] + s[k..];
    SumConcat(s[k..], s[..k]);
    SumConcat(s[..k], s[k..]);
    CountNonZeroConcat(s[k..], s[..k]);
    CountNonZeroConcat(s[..k], s[k..]);
  }

  /** A rotation keeps the entries, their sum and their non-zero count. */
  lemma RotateKeeps(s: seq<int>, t: int)
    requires |s| == Side
    ensures multiset(Rotate(s, t)) == multiset(s)
    ensures Sum(Rotate(s, t)) == Sum(s) && CountNonZero(Rotate(s, t)) == CountNonZero(s)
  {
    RotateSplits(s, t);
    SwapKeeps(s, Rotate(s, t), (Side - t % Side) % Side);
  }

  /** Every row rotated by `t`. */
  function RotateRows(m: Matrix, t: int): (r: Matrix)
    requires IsRect(m, Side, Side)
    ensures IsRect(r, Side, Side) && forall a :: 0 <= a < Side ==> r[a] == Rotate(m[a], t)
  {
    seq(Side, a requires 0 <= a < Side => Rotate(m[a], t))
  }

  /** `np.roll(matrix, (s0, s1), axis=(0, 1))`. */
  function Roll(m: Matrix, s0: int, s1: int): (r: Matrix)
    requires IsRect(m, Side, Side)
    ensures IsRect(r, Side, Side)
  {
    Rotate(RotateRows(m, s1), s0)
  }

  /** Cell `(a, b)` of the roll comes from `(a - s0, b - s1)`, cyclically. */
  lemma RollCells(m: Matrix, s0: int, s1: int)
    requires IsRect(m, Side, Side)
    ensures forall a, b :: 0 <= a < Side && 0 <= b < Side ==> Roll(m, s0, s1)[a][b] == m[(a - s0) % Side][(b - s1) % Side]
  {
  }

  /** Matrices whose rows agree in sum and non-zero count agree in both. */
  lemma {:induction false} RowWiseTotals(a: Matrix, b: Matrix)
    requires |a| == |b| && forall k :: 0 <= k < |a| ==> Sum(a[k]) == Sum(b[k]) && CountNonZero(a[k]) == CountNonZero(b[k])
    ensures Sum2D(a) == Sum2D(b) && CountNonZero2D(a) == CountNonZero2D(b)
    decreases |a|
  {
    if a != [] {
      RowWiseTotals(a[..|a| - 1], b[..|b| - 1]);
    }
  }

  /** Swapping the two halves of a sequence of rows keeps its values, sum
      and non-zero count. */
  lemma SwapHalves(rows: Matrix, k: int)
    requires 0 <= k <= |rows|
    ensures multiset(Flatten(rows[k..] + rows[..k])) == multiset(Flatten(rows))
    ensures Sum2D(rows[k..] + rows[..k]) == Sum2D(rows) && CountNonZero2D(rows[k..] + rows[..k]) == CountNonZero2D(rows)
  {
    assert rows == rows[..k] + rows[k..];
    FlattenConcat(rows[k..], rows[..k]);
    FlattenConcat(rows[..k], rows[k..]);
    Sum2DConcat(rows[k..], rows[..k]);
    Sum2DConcat(rows[..k], rows[k..]);
  }

  /** Rotating every row keeps the values, sum and non-zero count. */
  lemma RotateRowsKeeps(m: Matrix, t: int)
    requires IsRect(m, Side, Side)
    ensures multiset(Flatten(RotateRows(m, t))) == multiset(Flatten(m))
    ensures Sum2D(RotateRows(m, t)) == Sum2D(m) && CountNonZero2D(RotateRows(m, t)) == CountNonZero2D(m)
  {
    var rows := RotateRows(m, t);
    forall a | 0 <= a < Side
      ensures multiset(rows[a]) == multiset(m[a])
      ensures Sum(rows[a]) == Sum(m[a]) && CountNonZero(rows[a]) == CountNonZero(m[a])
    {
      RotateKeeps(m[a], t);
    }
    FlattenSameMultiset(rows, m);
    RowWiseTotals(rows, m);
  }

  /** The roll keeps the window's multiset of values, so its sum and its
      non-zero count. */
  lemma RollKeeps(m: Matrix, s0: int, s1: int)
    requires IsRect(m, Side, Side)
    ensures multiset(Flatten(Roll(m, s0, s1))) == multiset(Flatten(m))
    ensures Sum2D(Roll(m, s0, s1)) == Sum2D(m) && CountNonZero2D(Roll(m, s0, s1)) == CountNonZero2D(m)
  {
    var rows := RotateRows(m, s1);
    RotateRowsKeeps(m, s1);
    RotateSplits(rows, s0);
    SwapHalves(rows, (Side - s0 % Side) % Side);
  }

  /** Lines 241-246: the shift that brings the window's entry at `p` to the
      centre, except that the test lets (4, 0) through with no roll. */
  function Shift(p: (int, int)): (s: (int, int))
    ensures p != (Mid, 0) ==> s.0 + p.0 == Mid && s.1 + p.1 == Mid
    ensures p == (Mid, 0) ==> s == (0, 0)
  {
    if p.0 != Mid || p.1 != 0 then (Mid - p.0, Mid - p.1) else (0, 0)
  }

  /** The window rolled so that its entry at `p` sits at the centre. */
  function RecentreAt(m: Matrix, p: (int, int)): (r: Matrix)
    requires IsRect(m, Side, Side)
    ensures IsRect(r, Side, Side)
  {
    var s := Shift(p);
    Roll(m, s.0, s.1)
  }

  /** The window re-centred on its first maximum. */
  function Recentre(m: Matrix): (r: Matrix)
    requires IsRect(m, Side, Side)
  {
    RecentreAt(m, ArgMax2D(m))
  }

  /** A roll by (0, 0) leaves the window as it is, so at (4, 0) nothing moves. */
  lemma RollNothing(m: Matrix)
    requires IsRect(m, Side, Side)
    ensures Roll(m, 0, 0) == m
    ensures RecentreAt(m, (Mid, 0)) == m
  {
    RollCells(m, 0, 0);
    assert forall a :: 0 <= a < Side ==> Roll(m, 0, 0)[a] == m[a];
  }

  /** Re-centring keeps the window's values, sum and non-zero count. */
  lemma RecentreAtKeeps(m: Matrix, p: (int, int))
    requires IsRect(m, Side, Side)
    ensures multiset(Flatten(RecentreAt(m, p))) == multiset(Flatten(m))
    ensures Sum2D(RecentreAt(m, p)) == Sum2D(m) && CountNonZero2D(RecentreAt(m, p)) == CountNonZero2D(m)
  {
    var s := Shift(p);
    RollKeeps(m, s.0, s.1);
  }

  /** Rolling by `(4 - p.0, 4 - p.1)` brings the entry at `p` to the centre;
      when that entry is a maximum, so is the centre. */
  lemma RecentreAtSeed(m: Matrix, p: (int, int))
    requires IsRect(m, Side, Side) && InRange(m, p.0, p.1) && p != (Mid, 0)
    ensures RecentreAt(m, p)[Mid][Mid] == m[p.0][p.1]
    ensures (forall i, j :: InRange(m, i, j) ==> m[i][j] <= m[p.0][p.1]) ==>
      forall a, b :: 0 <= a < Side && 0 <= b < Side ==> RecentreAt(m, p)[a][b] <= m[p.0][p.1]
  {
    var s := Shift(p);
    RollToCentre(m, p, s.0, s.1);
  }

  /** The roll by `(4 - p.0, 4 - p.1)` itself. */
  lemma RollToCentre(m: Matrix, p: (int, int), s0: int, s1: int)
    requires IsRect(m, Side, Side) && InRange(m, p.0, p.1) && s0 + p.0 == Mid && s1 + p.1 == Mid
    ensures Roll(m, s0, s1)[Mid][Mid] == m[p.0][p.1]
    ensures (forall i, j :: InRange(m, i, j) ==> m[i][j] <= m[p.0][p.1]) ==>
      forall a, b :: 0 <= a < Side && 0 <= b < Side ==> Roll(m, s0, s1)[a][b] <= m[p.0][p.1]
  {
    var r := Roll(m, s0, s1);
    RollCells(m, s0, s1);
    assert r[Mid][Mid] == m[(Mid - s0) % Side][(Mid - s1) % Side];
    if forall i, j :: InRange(m, i, j) ==> m[i][j] <= m[p.0][p.1] {
      forall a, b | 0 <= a < Side && 0 <= b < Side ensures r[a][b] <= m[p.0][p.1] {
        assert InRange(m, (a - s0) % Side, (b - s1) % Side);
      }
    }
  }

  /** Unless the first maximum sits at (4, 0), the centre of the re-centred
      window holds the window's maximum and no cell exceeds it. */
  lemma RecentreSeed(m: Matrix)
    requires IsRect(m, Side, Side)
    requires ArgMax2D(m) != (Mid, 0)
    ensures Recentre(m)[Mid][Mid] == Max2D(m)
    ensures forall a, b :: 0 <= a < Side && 0 <= b < Side ==> Recentre(m)[a][b] <= Recentre(m)[Mid][Mid]
  {
    var p := ArgMax2D(m);
    ArgMax2DIsFirstMax(m);
    RecentreAtSeed(m, p);
  }

  /** The test of line 242 as evidently intended, against the centre
      column 4: a roll is skipped only when the maximum is already at the
      centre, where it would not move the window anyway. */
  function IntendedShift(p: (int, int)): (s: (int, int))
    ensures s.0 + p.0 == Mid && s.1 + p.1 == Mid
  {
    if p.0 != Mid || p.1 != Mid then (Mid - p.0, Mid - p.1) else (0, 0)
  }

  /** The window re-centred on its first maximum with the intended test. */
  function RecentreIntended(m: Matrix): (r: Matrix)
    requires IsRect(m, Side, Side)
    ensures IsRect(r, Side, Side)
  {
    var s := IntendedShift(ArgMax2D(m));
    Roll(m, s.0, s.1)
  }

  /** With the intended test the centre always holds the window's maximum
      and no cell exceeds it, wherever the first maximum lies. */
  lemma RecentreIntendedSeed(m: Matrix)
    requires IsRect(m, Side, Side)
    ensures RecentreIntended(m)[Mid][Mid] == Max2D(m)
    ensures forall a, b :: 0 <= a < Side && 0 <= b < Side ==> RecentreIntended(m)[a][b] <= RecentreIntended(m)[Mid][Mid]
  {
    var p := ArgMax2D(m);
    ArgMax2DIsFirstMax(m);
    var s := IntendedShift(p);
    RollToCentre(m, p, s.0, s.1);
  }

  /** With the first maximum at (4, 0) the window is left as it is, so the
      centre need not hold the maximum: a single charged pixel at (4, 0). */
  lemma RecentreSkipsFourZero()
    ensures var m := seq(Side, a requires 0 <= a < Side => seq(Side, b requires 0 <= b < Side => if a == Mid && b == 0 then 5 else 0));
      IsRect(m, Side, Side) && ArgMax2D(m) == (Mid, 0) && Recentre(m)[Mid][Mid] == 0 && Max2D(m) == 5
  {
    var m := seq(Side, a requires 0 <= a < Side => seq(Side, b requires 0 <= b < Side => if a == Mid && b == 0 then 5 else 0));
    ArgMax2DIsFirstMax(m);
    var p := ArgMax2D(m);
    assert m[Mid][0] == 5;
    assert p == (Mid, 0);
    RollNothing(m);
  }

  // ---- one cluster ----

  /** The columns `_process` appends for one accepted pixel. `uFit` and
      `vFit` stand for the per-sensor polynomials `uFit[id]` and `vFit[id]`
      evaluated at a pixel's row and column. */
  datatype Cluster<P> = Cluster(eventNumber: int, sensorID: int, uPosition: P, vPosition: P,
                                clsCharge: int, seedCharge: int, clsSize: int, uSize: int, vSize: int,
                                uCells: seq<int>, vCells: seq<int>, cellCharges: seq<int>)

  /** The first and the second coordinates of a list of positions, each
      shifted by `d`. */
  function Firsts(ps: seq<(int, int)>, d: int): (r: seq<int>)
    ensures |r| == |ps| && forall q :: 0 <= q < |ps| ==> r[q] == ps[q].0 + d
  {
    seq(|ps|, q requires 0 <= q < |ps| => ps[q].0 + d)
  }

  function Seconds(ps: seq<(int, int)>, d: int): (r: seq<int>)
    ensures |r| == |ps| && forall q :: 0 <= q < |ps| ==> r[q] == ps[q].1 + d
  {
    seq(|ps|, q requires 0 <= q < |ps| => ps[q].1 + d)
  }

  /** Lines 223-260: the cluster of the window around pixel `(x, y)` of
      sensor `id` in event `i`. The cell IDs are the re-centred window's
      non-zero positions plus `x` and `y`. */
  function ClusterAt<P>(uFit: (int, int) -> P, vFit: (int, int) -> P, g: Matrix, x: int, y: int, id: int, i: int): Cluster<P>
    requires IsRect(g, L.LadderRows, L.LadderCols) && 0 <= x < L.LadderRows && 0 <= y < L.LadderCols
  {
    var m := Recentre(Window(g, x, y));
    var nz := NonZero(m);
    NonZeroListed(m);
    Cluster(i, id, uFit(id, x), vFit(id, y), Sum2D(m), m[Mid][Mid], CountNonZero2D(m), |nz|, |nz|,
            Seconds(nz, y), Firsts(nz, x), ValuesAt(m, nz))
  }

  /** The cluster's charge and size are those of the unrolled window, its
      three cell columns all hold `clsSize` entries, its charges are the
      non-zero ones, and unless the first maximum sat at (4, 0) its seed is
      the window's maximum. */
  lemma ClusterFacts<P>(uFit: (int, int) -> P, vFit: (int, int) -> P, g: Matrix, x: int, y: int, id: int, i: int)
    requires IsRect(g, L.LadderRows, L.LadderCols) && 0 <= x < L.LadderRows && 0 <= y < L.LadderCols
    ensures var c := ClusterAt(uFit, vFit, g, x, y, id, i); var w := Window(g, x, y);
      c.eventNumber == i && c.sensorID == id && c.uPosition == uFit(id, x) && c.vPosition == vFit(id, y) &&
      c.clsCharge == Sum2D(w) && c.clsSize == CountNonZero2D(w) &&
      c.uSize == c.clsSize && c.vSize == c.clsSize &&
      |c.uCells| == c.clsSize && |c.vCells| == c.clsSize && |c.cellCharges| == c.clsSize &&
      (forall k :: 0 <= k < |c.cellCharges| ==> c.cellCharges[k] != 0) &&
      (ArgMax2D(w) != (Mid, 0) ==> c.seedCharge == Max2D(w))
  {
    var w := Window(g, x, y);
    var m := Recentre(w);
    RecentreAtKeeps(w, ArgMax2D(w));
    NonZeroListed(m);
    if ArgMax2D(w) != (Mid, 0) {
      RecentreSeed(w);
    }
  }

  /** The cell columns list non-zero cells of the re-centred window:
      entry `k` is the cell at row `vCells[k] - x` and column
      `uCells[k] - y`. The IDs are offset by the pixel itself, not by the
      window's lower corner. */
  lemma ClusterCellsListed<P>(uFit: (int, int) -> P, vFit: (int, int) -> P, g: Matrix, x: int, y: int, id: int, i: int)
    requires IsRect(g, L.LadderRows, L.LadderCols) && 0 <= x < L.LadderRows && 0 <= y < L.LadderCols
    ensures CellsListed(ClusterAt(uFit, vFit, g, x, y, id, i), Recentre(Window(g, x, y)), x, y)
  {
    ClusterFields(uFit, vFit, g, x, y, id, i);
    var m := Recentre(Window(g, x, y));
    NonZeroListed(m);
    WindowCellsListed(ClusterAt(uFit, vFit, g, x, y, id, i), m, NonZero(m), x, y);
  }

  /** Entry `k` of the cell columns of `c` names a non-zero cell of the
      9 x 9 window `m`, at row `vCells[k] - x` and column `uCells[k] - y`. */
  predicate CellsListed<P>(c: Cluster<P>, m: Matrix, x: int, y: int)
    requires IsRect(m, Side, Side)
  {
    && |c.vCells| == |c.uCells| == |c.cellCharges|
    && (forall k :: 0 <= k < |c.cellCharges| ==> x <= c.vCells[k] < x + Side && y <= c.uCells[k] < y + Side)
    && forall k :: 0 <= k < |c.cellCharges| ==> c.cellCharges[k] == m[c.vCells[k] - x][c.uCells[k] - y] != 0
  }

  /** Every non-zero cell of the re-centred window has an entry in the
      cell columns. */
  lemma ClusterCellsComplete<P>(uFit: (int, int) -> P, vFit: (int, int) -> P, g: Matrix, x: int, y: int, id: int, i: int)
    requires IsRect(g, L.LadderRows, L.LadderCols) && 0 <= x < L.LadderRows && 0 <= y < L.LadderCols
    ensures var c := ClusterAt(uFit, vFit, g, x, y, id, i); var m := Recentre(Window(g, x, y));
      forall a, b :: 0 <= a < Side && 0 <= b < Side && m[a][b] != 0 ==>
        exists k :: 0 <= k < |c.cellCharges| && c.vCells[k] == x + a && c.uCells[k] == y + b
  {
    ClusterFields(uFit, vFit, g, x, y, id, i);
    var m := Recentre(Window(g, x, y));
    NonZeroComplete(m);
    OffsetCellsComplete(m, NonZero(m), x, y);
  }

  /** The listing half of `ClusterCellsListed` for any cluster whose cell
      columns are read off the non-zero positions `nz` of a 9 x 9 window. */
  lemma WindowCellsListed<P>(c: Cluster<P>, m: Matrix, nz: seq<(int, int)>, x: int, y: int)
    requires IsRect(m, Side, Side)
    requires forall k :: 0 <= k < |nz| ==> InRange(m, nz[k].0, nz[k].1) && m[nz[k].0][nz[k].1] != 0
    requires c.vCells == Firsts(nz, x) && c.uCells == Seconds(nz, y) && |c.cellCharges| == |nz|
    requires forall k :: 0 <= k < |nz| && InRange(m, nz[k].0, nz[k].1) ==> c.cellCharges[k] == m[nz[k].0][nz[k].1]
    ensures CellsListed(c, m, x, y)
  {
    OffsetCellsListed(m, nz, x, y);
  }

  /** The cell columns of a cluster are the re-centred window's non-zero
      positions, offset by the pixel, and the charges found there. */
  lemma ClusterFields<P>(uFit: (int, int) -> P, vFit: (int, int) -> P, g: Matrix, x: int, y: int, id: int, i: int)
    requires IsRect(g, L.LadderRows, L.LadderCols) && 0 <= x < L.LadderRows && 0 <= y < L.LadderCols
    ensures var c := ClusterAt(uFit, vFit, g, x, y, id, i); var m := Recentre(Window(g, x, y)); var nz := NonZero(m);
      c.vCells == Firsts(nz, x) && c.uCells == Seconds(nz, y) && |c.cellCharges| == |nz| &&
      forall k :: 0 <= k < |nz| && InRange(m, nz[k].0, nz[k].1) ==> c.cellCharges[k] == m[nz[k].0][nz[k].1]
  {
  }

  /** The non-zero positions of a 9 x 9 window, offset by `(x, y)`, name
      non-zero cells of it. */
  lemma OffsetCellsListed(m: Matrix, nz: seq<(int, int)>, x: int, y: int)
    requires IsRect(m, Side, Side)
    requires forall k :: 0 <= k < |nz| ==> InRange(m, nz[k].0, nz[k].1) && m[nz[k].0][nz[k].1] != 0
    ensures var vs, us := Firsts(nz, x), Seconds(nz, y);
      forall k :: 0 <= k < |nz| ==> x <= vs[k] < x + Side && y <= us[k] < y + Side && m[vs[k] - x][us[k] - y] != 0
  {
  }

  /** Every non-zero cell of a 9 x 9 window is named by its non-zero
      positions offset by `(x, y)`. */
  lemma OffsetCellsComplete(m: Matrix, nz: seq<(int, int)>, x: int, y: int)
    requires IsRect(m, Side, Side)
    requires forall a, b :: InRange(m, a, b) && m[a][b] != 0 ==> (a, b) in nz
    ensures var vs, us := Firsts(nz, x), Seconds(nz, y);
      forall a, b :: 0 <= a < Side && 0 <= b < Side && m[a][b] != 0 ==>
        exists k :: 0 <= k < |nz| && vs[k] == x + a && us[k] == y + b
  {
    var vs, us := Firsts(nz, x), Seconds(nz, y);
    forall a, b | 0 <= a < Side && 0 <= b < Side && m[a][b] != 0
      ensures exists k :: 0 <= k < |nz| && vs[k] == x + a && us[k] == y + b
    {
      assert InRange(m, a, b);
      var k :| 0 <= k < |nz| && nz[k] == (a, b);
      assert vs[k] == x + a && us[k] == y + b;
    }
  }

  // ---- the pixel loop of one event ----

  /** `knownPixels[id]`: the rows and the columns already claimed on a sensor. */
  datatype Known = Known(xx: seq<int>, yy: seq<int>)

  /** `knownPixels` at the start of an event: empty lists for every panel. */
  function NoneSeen(): (seen: map<int, Known>)
    ensures forall id :: id in seen <==> IsPanel(id)
    ensures forall id :: id in seen ==> seen[id] == Known([], [])
  {
    PanelsAccepted();
    map id | id in PanelIDs :: Known([], [])
  }

  /** Every position lies on the 250 x 768 plane. */
  predicate OnPlane(nz: seq<(int, int)>)
  {
    forall q :: 0 <= q < |nz| ==> 0 <= nz[q].0 < L.LadderRows && 0 <= nz[q].1 < L.LadderCols
  }

  /** The rows and the columns of the non-zero pixels. */
  function Rows(nz: seq<(int, int)>): (r: seq<int>)
    ensures |r| == |nz| && forall q :: 0 <= q < |nz| ==> r[q] == nz[q].0
  {
    Firsts(nz, 0)
  }

  function Cols(nz: seq<(int, int)>): (r: seq<int>)
    ensures |r| == |nz| && forall q :: 0 <= q < |nz| ==> r[q] == nz[q].1
  {
    Seconds(nz, 0)
  }

  /** How many triples `zip(xx, yy, sensorID)` yields. */
  function Zipped(nz: seq<(int, int)>, ids: seq<int>): (n: nat)
    ensures n <= |nz| && n <= |ids| && (n == |nz| || n == |ids|)
  {
    if |nz| < |ids| then |nz| else |ids|
  }

  /** Lines 217-222 from triple `k` on: the `q`-th non-zero pixel of the
      plane is paired with the `q`-th digit's sensor ID; an ID that is not a
      panel raises KeyError; a pixel whose row or column is already listed
      for its sensor is skipped; otherwise the sensor lists every row and
      column of the event's non-zero pixels and triple `q` opens a cluster.
      The result lists the triples that open one, in order. */
  function Claims(nz: seq<(int, int)>, ids: seq<int>, k: nat, seen: map<int, Known>): (r: Result<seq<nat>>)
    requires k <= Zipped(nz, ids)
    ensures r.Ok? ==> |r.value| <= Zipped(nz, ids) - k && forall a :: 0 <= a < |r.value| ==> k <= r.value[a] < Zipped(nz, ids)
    decreases Zipped(nz, ids) - k
  {
    if k == Zipped(nz, ids) then Ok([])
    else
      var id := ids[k];
      if id !in seen then Err(KeyError)
      else if nz[k].0 in seen[id].xx || nz[k].1 in seen[id].yy then Claims(nz, ids, k + 1, seen)
      else Prepend([k], Claims(nz, ids, k + 1, seen[id := Known(seen[id].xx + Rows(nz), seen[id].yy + Cols(nz))]))
  }

  /** Every sensor's lists are either still empty or already hold every
      row of the event's non-zero pixels. */
  predicate Settled(seen: map<int, Known>, nz: seq<(int, int)>)
  {
    forall id :: id in seen ==> seen[id] == Known([], []) || forall q :: 0 <= q < |nz| ==> nz[q].0 in seen[id].xx
  }

  /** A sensor still free to open a cluster. */
  predicate Free(seen: map<int, Known>, id: int)
  {
    id in seen && seen[id] == Known([], [])
  }

  /** The loop raises exactly when a paired sensor ID is not a key, and
      then with KeyError. */
  lemma {:induction false} ClaimsErrors(nz: seq<(int, int)>, ids: seq<int>, k: nat, seen: map<int, Known>)
    requires k <= Zipped(nz, ids)
    ensures var r := Claims(nz, ids, k, seen);
      (r.Err? <==> exists q :: k <= q < Zipped(nz, ids) && ids[q] !in seen) && (r.Err? ==> r.error == KeyError)
    decreases Zipped(nz, ids) - k
  {
    if k < Zipped(nz, ids) {
      var id := ids[k];
      if id in seen {
        if nz[k].0 in seen[id].xx || nz[k].1 in seen[id].yy {
          ClaimsErrors(nz, ids, k + 1, seen);
        } else {
          var claimed := seen[id := Known(seen[id].xx + Rows(nz), seen[id].yy + Cols(nz))];
          ClaimsErrors(nz, ids, k + 1, claimed);
          assert claimed.Keys == seen.Keys;
        }
      }
    }
  }

  /** Claiming `id` leaves every other sensor as it was and settles `id`. */
  lemma ClaimSettles(seen: map<int, Known>, id: int, nz: seq<(int, int)>)
    requires Settled(seen, nz) && Free(seen, id) && |nz| > 0
    ensures var claimed := seen[id := Known(seen[id].xx + Rows(nz), seen[id].yy + Cols(nz))];
      Settled(claimed, nz) && forall s :: Free(claimed, s) <==> Free(seen, s) && s != id
  {
    var claimed := seen[id := Known(seen[id].xx + Rows(nz), seen[id].yy + Cols(nz))];
    assert claimed[id].xx == Rows(nz);
    assert claimed[id].xx != [];
  }

  /** In a step that claims nothing the sensor at `k` is not free; in one
      that claims `k` it is, and the lists move on to the claimed state. */
  lemma ClaimStep(nz: seq<(int, int)>, ids: seq<int>, k: nat, seen: map<int, Known>)
    requires k < Zipped(nz, ids) && Settled(seen, nz) && ids[k] in seen
    ensures var id := ids[k];
      (nz[k].0 in seen[id].xx || nz[k].1 in seen[id].yy) <==> !Free(seen, id)
  {
    var id := ids[k];
    if seen[id] != Known([], []) {
      assert nz[k].0 in seen[id].xx;
    }
  }

  /** Each claimed triple carries a free sensor met from `k` on for the
      first time. */
  lemma {:induction false} ClaimsFirst(nz: seq<(int, int)>, ids: seq<int>, k: nat, seen: map<int, Known>)
    requires k <= Zipped(nz, ids) && Settled(seen, nz)
    ensures var r := Claims(nz, ids, k, seen);
      r.Ok? ==> forall a :: 0 <= a < |r.value| ==>
        Free(seen, ids[r.value[a]]) && forall q :: k <= q < r.value[a] ==> ids[q] != ids[r.value[a]]
    decreases Zipped(nz, ids) - k
  {
    var r := Claims(nz, ids, k, seen);
    if k < Zipped(nz, ids) && r.Ok? {
      var id := ids[k];
      ClaimStep(nz, ids, k, seen);
      if !Free(seen, id) {
        assert r == Claims(nz, ids, k + 1, seen);
        ClaimsFirst(nz, ids, k + 1, seen);
      } else {
        var claimed := seen[id := Known(seen[id].xx + Rows(nz), seen[id].yy + Cols(nz))];
        ClaimSettles(seen, id, nz);
        ClaimsFirst(nz, ids, k + 1, claimed);
        var rest := Claims(nz, ids, k + 1, claimed).value;
        assert r.value == [k] + rest;
        FirstStep(ids, k, seen, claimed, rest);
      }
    }
  }

  /** The step of `ClaimsFirst` that claims triple `k`. */
  lemma FirstStep(ids: seq<int>, k: nat, seen: map<int, Known>, claimed: map<int, Known>, rest: seq<nat>)
    requires k < |ids| && Free(seen, ids[k])
    requires forall s :: Free(claimed, s) <==> Free(seen, s) && s != ids[k]
    requires forall a :: 0 <= a < |rest| ==> k + 1 <= rest[a] < |ids|
    requires forall a :: 0 <= a < |rest| ==>
      Free(claimed, ids[rest[a]]) && forall q :: k + 1 <= q < rest[a] ==> ids[q] != ids[rest[a]]
    ensures forall a :: 0 <= a < |[k] + rest| ==>
      Free(seen, ids[([k] + rest)[a]]) && forall q :: k <= q < ([k] + rest)[a] ==> ids[q] != ids[([k] + rest)[a]]
  {
    var all := [k] + rest;
    forall a | 0 < a < |all| ensures Free(seen, ids[all[a]]) && forall q :: k <= q < all[a] ==> ids[q] != ids[all[a]] {
      assert all[a] == rest[a - 1];
    }
  }

  /** The step of `ClaimsDistinct` that claims triple `k`. */
  lemma DistinctStep(ids: seq<int>, k: nat, seen: map<int, Known>, claimed: map<int, Known>, rest: seq<nat>)
    requires k < |ids|
    requires forall s :: Free(claimed, s) <==> Free(seen, s) && s != ids[k]
    requires forall a :: 0 <= a < |rest| ==> k + 1 <= rest[a] < |ids| && Free(claimed, ids[rest[a]])
    requires forall a, b :: 0 <= a < b < |rest| ==> rest[a] < rest[b] && ids[rest[a]] != ids[rest[b]]
    ensures forall a, b :: 0 <= a < b < |[k] + rest| ==> ([k] + rest)[a] < ([k] + rest)[b] && ids[([k] + rest)[a]] != ids[([k] + rest)[b]]
  {
    var all := [k] + rest;
    forall a, b | 0 <= a < b < |all| ensures all[a] < all[b] && ids[all[a]] != ids[all[b]] {
      assert all[b] == rest[b - 1];
      if a > 0 {
        assert all[a] == rest[a - 1];
      }
    }
  }

  /** The claimed triples ascend and their sensors differ: at most one
      cluster per sensor and event. */
  lemma {:induction false} ClaimsDistinct(nz: seq<(int, int)>, ids: seq<int>, k: nat, seen: map<int, Known>)
    requires k <= Zipped(nz, ids) && Settled(seen, nz)
    ensures var r := Claims(nz, ids, k, seen);
      r.Ok? ==> forall a, b :: 0 <= a < b < |r.value| ==> r.value[a] < r.value[b] && ids[r.value[a]] != ids[r.value[b]]
    decreases Zipped(nz, ids) - k
  {
    var r := Claims(nz, ids, k, seen);
    if k < Zipped(nz, ids) && r.Ok? {
      var id := ids[k];
      ClaimStep(nz, ids, k, seen);
      if !Free(seen, id) {
        assert r == Claims(nz, ids, k + 1, seen);
        ClaimsDistinct(nz, ids, k + 1, seen);
      } else {
        var claimed := seen[id := Known(seen[id].xx + Rows(nz), seen[id].yy + Cols(nz))];
        ClaimSettles(seen, id, nz);
        ClaimsDistinct(nz, ids, k + 1, claimed);
        ClaimsFirst(nz, ids, k + 1, claimed);
        var rest := Claims(nz, ids, k + 1, claimed).value;
        assert r.value == [k] + rest;
        DistinctStep(ids, k, seen, claimed, rest);
      }
    }
  }

  /** Every free sensor paired from `k` on opens a cluster. */
  lemma {:induction false} ClaimsCover(nz: seq<(int, int)>, ids: seq<int>, k: nat, seen: map<int, Known>)
    requires k <= Zipped(nz, ids) && Settled(seen, nz)
    ensures var r := Claims(nz, ids, k, seen);
      r.Ok? ==> forall q :: k <= q < Zipped(nz, ids) && Free(seen, ids[q]) ==>
        exists a :: 0 <= a < |r.value| && ids[r.value[a]] == ids[q]
    decreases Zipped(nz, ids) - k
  {
    var n := Zipped(nz, ids);
    var r := Claims(nz, ids, k, seen);
    if k < n && r.Ok? {
      var id := ids[k];
      ClaimStep(nz, ids, k, seen);
      if !Free(seen, id) {
        assert r == Claims(nz, ids, k + 1, seen);
        ClaimsCover(nz, ids, k + 1, seen);
      } else {
        var claimed := seen[id := Known(seen[id].xx + Rows(nz), seen[id].yy + Cols(nz))];
        ClaimSettles(seen, id, nz);
        ClaimsCover(nz, ids, k + 1, claimed);
        var rest := Claims(nz, ids, k + 1, claimed).value;
        CoverStep(ids, k, n, seen, claimed, rest);
      }
    }
  }

  /** The step of `ClaimsCover` that claims triple `k`. */
  lemma CoverStep(ids: seq<int>, k: nat, n: nat, seen: map<int, Known>, claimed: map<int, Known>, rest: seq<nat>)
    requires k < n <= |ids| && forall a :: 0 <= a < |rest| ==> rest[a] < |ids|
    requires forall s :: Free(claimed, s) <==> Free(seen, s) && s != ids[k]
    requires forall q :: k + 1 <= q < n && Free(claimed, ids[q]) ==> exists a :: 0 <= a < |rest| && ids[rest[a]] == ids[q]
    ensures forall q :: k <= q < n && Free(seen, ids[q]) ==> exists a :: 0 <= a < |[k] + rest| && ids[([k] + rest)[a]] == ids[q]
  {
    var all := [k] + rest;
    forall q | k <= q < n && Free(seen, ids[q]) ensures exists a :: 0 <= a < |all| && ids[all[a]] == ids[q] {
      if ids[q] == ids[k] {
        assert ids[all[0]] == ids[q];
      } else {
        var b :| 0 <= b < |rest| && ids[rest[b]] == ids[q];
        assert all[b + 1] == rest[b];
      }
    }
  }

  // ---- one event ----

  /** `clusterSensorIDs[i]`: the sensor ID of every digit of the event. */
  function Sensors(ds: seq<CFD.Digit>): (ids: seq<int>)
    ensures |ids| == |ds| && forall k :: 0 <= k < |ds| ==> ids[k] == ds[k].sensor
  {
    seq(|ds|, k requires 0 <= k < |ds| => ds[k].sensor)
  }

  /** The clusters the claimed triples open, in order. */
  function Opened<P>(uFit: (int, int) -> P, vFit: (int, int) -> P, g: Matrix, nz: seq<(int, int)>, ids: seq<int>,
                     qs: seq<nat>, i: int): (cs: seq<Cluster<P>>)
    requires IsRect(g, L.LadderRows, L.LadderCols) && OnPlane(nz)
    requires forall a :: 0 <= a < |qs| ==> qs[a] < |nz| && qs[a] < |ids|
    ensures |cs| == |qs|
    ensures forall a :: 0 <= a < |qs| ==> cs[a] == ClusterAt(uFit, vFit, g, nz[qs[a]].0, nz[qs[a]].1, ids[qs[a]], i)
  {
    seq(|qs|, a requires 0 <= a < |qs| => ClusterAt(uFit, vFit, g, nz[qs[a]].0, nz[qs[a]].1, ids[qs[a]], i))
  }

  /** `np.nonzero(matrixLadder)`: the non-zero pixels of the plane in
      row-major order, each of them on the plane. */
  function Pixels(g: Matrix): (nz: seq<(int, int)>)
    requires IsRect(g, L.LadderRows, L.LadderCols)
    ensures OnPlane(nz) && |nz| == CountNonZero2D(g)
    ensures forall q :: 0 <= q < |nz| ==> g[nz[q].0][nz[q].1] != 0
    ensures forall a, b :: InRange(g, a, b) && g[a][b] != 0 ==> (a, b) in nz
  {
    NonZeroSpec(g);
    NonZero(g)
  }

  /** The loop of event `i` over the pixels of plane `g`. */
  function PixelLoop<P>(uFit: (int, int) -> P, vFit: (int, int) -> P, g: Matrix, ids: seq<int>, i: int): Result<seq<Cluster<P>>>
    requires IsRect(g, L.LadderRows, L.LadderCols)
  {
    var nz := Pixels(g);
    match Claims(nz, ids, 0, NoneSeen())
    case Err(err) => Err(err)
    case Ok(qs) => Ok(Opened(uFit, vFit, g, nz, ids, qs, i))
  }

  /** Event `i` of `_process` (lines 209-260): the scatter's IndexError,
      then the pixel loop over the event's plane. */
  function FilterEvent<P>(uFit: (int, int) -> P, vFit: (int, int) -> P, ds: seq<CFD.Digit>, i: int): Result<seq<Cluster<P>>>
  {
    if !InLadder(ds) then Err(IndexError) else PixelLoop(uFit, vFit, FlatPlane(ds), Sensors(ds), i)
  }

  /** A cluster is tagged with its event and its sensor. */
  lemma ClusterTags<P>(uFit: (int, int) -> P, vFit: (int, int) -> P, g: Matrix, x: int, y: int, id: int, i: int)
    requires IsRect(g, L.LadderRows, L.LadderCols) && 0 <= x < L.LadderRows && 0 <= y < L.LadderCols
    ensures ClusterAt(uFit, vFit, g, x, y, id, i).eventNumber == i && ClusterAt(uFit, vFit, g, x, y, id, i).sensorID == id
  {
  }

  /** The clusters opened by a successful claim run from the start of an
      event carry its sensors and event number. */
  lemma OpenedTags<P>(uFit: (int, int) -> P, vFit: (int, int) -> P, g: Matrix, nz: seq<(int, int)>, ids: seq<int>, qs: seq<nat>, i: int)
    requires IsRect(g, L.LadderRows, L.LadderCols) && OnPlane(nz)
    requires forall a :: 0 <= a < |qs| ==> qs[a] < |nz| && qs[a] < |ids|
    ensures var cs := Opened(uFit, vFit, g, nz, ids, qs, i);
      forall a :: 0 <= a < |cs| ==> cs[a].sensorID == ids[qs[a]] && cs[a].eventNumber == i
  {
    var cs := Opened(uFit, vFit, g, nz, ids, qs, i);
    forall a | 0 <= a < |cs| ensures cs[a].sensorID == ids[qs[a]] && cs[a].eventNumber == i {
      ClusterTags(uFit, vFit, g, nz[qs[a]].0, nz[qs[a]].1, ids[qs[a]], i);
    }
  }

  /** Cluster `a` of a successful run is the window of the first pixel
      paired with its sensor. */
  lemma OpenedFirstAt<P>(uFit: (int, int) -> P, vFit: (int, int) -> P, g: Matrix, nz: seq<(int, int)>, ids: seq<int>, i: int, a: nat)
    requires IsRect(g, L.LadderRows, L.LadderCols) && OnPlane(nz) && Claims(nz, ids, 0, NoneSeen()).Ok?
    requires a < |Claims(nz, ids, 0, NoneSeen()).value|
    ensures var c := Opened(uFit, vFit, g, nz, ids, Claims(nz, ids, 0, NoneSeen()).value, i)[a];
      exists q :: (0 <= q < Zipped(nz, ids) && ids[q] == c.sensorID &&
        c == ClusterAt(uFit, vFit, g, nz[q].0, nz[q].1, ids[q], i) &&
        forall q' :: 0 <= q' < q ==> ids[q'] != ids[q])
  {
    var none := NoneSeen();
    var qs := Claims(nz, ids, 0, none).value;
    assert Settled(none, nz);
    ClaimsFirst(nz, ids, 0, none);
    var q := qs[a];
    var c := Opened(uFit, vFit, g, nz, ids, qs, i)[a];
    assert c == ClusterAt(uFit, vFit, g, nz[q].0, nz[q].1, ids[q], i);
    ClusterTags(uFit, vFit, g, nz[q].0, nz[q].1, ids[q], i);
  }

  /** Each cluster of a successful run is the window of the first pixel
      paired with its sensor, which is a panel. */
  lemma OpenedFirst<P>(uFit: (int, int) -> P, vFit: (int, int) -> P, g: Matrix, nz: seq<(int, int)>, ids: seq<int>, i: int)
    requires IsRect(g, L.LadderRows, L.LadderCols) && OnPlane(nz) && Claims(nz, ids, 0, NoneSeen()).Ok?
    ensures var cs := Opened(uFit, vFit, g, nz, ids, Claims(nz, ids, 0, NoneSeen()).value, i);
      forall a :: 0 <= a < |cs| ==>
        cs[a].eventNumber == i && IsPanel(cs[a].sensorID) &&
        exists q :: (0 <= q < Zipped(nz, ids) && ids[q] == cs[a].sensorID &&
          cs[a] == ClusterAt(uFit, vFit, g, nz[q].0, nz[q].1, ids[q], i) &&
          forall q' :: 0 <= q' < q ==> ids[q'] != ids[q])
  {
    var none := NoneSeen();
    var qs := Claims(nz, ids, 0, none).value;
    var cs := Opened(uFit, vFit, g, nz, ids, qs, i);
    assert Settled(none, nz);
    ClaimsFirst(nz, ids, 0, none);
    OpenedTags(uFit, vFit, g, nz, ids, qs, i);
    forall a | 0 <= a < |cs|
      ensures exists q :: (0 <= q < Zipped(nz, ids) && ids[q] == cs[a].sensorID &&
        cs[a] == ClusterAt(uFit, vFit, g, nz[q].0, nz[q].1, ids[q], i) &&
        forall q' :: 0 <= q' < q ==> ids[q'] != ids[q])
    {
      OpenedFirstAt(uFit, vFit, g, nz, ids, i, a);
    }
  }

  /** No two clusters of a successful run share a sensor. */
  lemma OpenedDistinct<P>(uFit: (int, int) -> P, vFit: (int, int) -> P, g: Matrix, nz: seq<(int, int)>, ids: seq<int>, i: int)
    requires IsRect(g, L.LadderRows, L.LadderCols) && OnPlane(nz) && Claims(nz, ids, 0, NoneSeen()).Ok?
    ensures var cs := Opened(uFit, vFit, g, nz, ids, Claims(nz, ids, 0, NoneSeen()).value, i);
      forall a, b :: 0 <= a < b < |cs| ==> cs[a].sensorID != cs[b].sensorID
  {
    var none := NoneSeen();
    assert Settled(none, nz);
    ClaimsDistinct(nz, ids, 0, none);
    OpenedTags(uFit, vFit, g, nz, ids, Claims(nz, ids, 0, none).value, i);
  }

  /** Every sensor paired in a successful run has a cluster. */
  lemma OpenedCover<P>(uFit: (int, int) -> P, vFit: (int, int) -> P, g: Matrix, nz: seq<(int, int)>, ids: seq<int>, i: int)
    requires IsRect(g, L.LadderRows, L.LadderCols) && OnPlane(nz) && Claims(nz, ids, 0, NoneSeen()).Ok?
    ensures var cs := Opened(uFit, vFit, g, nz, ids, Claims(nz, ids, 0, NoneSeen()).value, i);
      forall q :: 0 <= q < Zipped(nz, ids) ==> exists a :: 0 <= a < |cs| && cs[a].sensorID == ids[q]
  {
    var none := NoneSeen();
    var qs := Claims(nz, ids, 0, none).value;
    var cs := Opened(uFit, vFit, g, nz, ids, qs, i);
    assert Settled(none, nz);
    ClaimsErrors(nz, ids, 0, none);
    ClaimsCover(nz, ids, 0, none);
    OpenedTags(uFit, vFit, g, nz, ids, qs, i);
    forall q | 0 <= q < Zipped(nz, ids) ensures exists a :: 0 <= a < |cs| && cs[a].sensorID == ids[q] {
      assert Free(none, ids[q]);
      var a :| 0 <= a < |qs| && ids[qs[a]] == ids[q];
      assert cs[a].sensorID == ids[q];
    }
  }

  /** The pixel loop raises KeyError exactly when a paired ID is not a
      panel; otherwise its clusters are those `OpenedFirst`, `OpenedDistinct`
      and `OpenedCover` describe. */
  lemma PixelLoopErrors<P>(uFit: (int, int) -> P, vFit: (int, int) -> P, g: Matrix, ids: seq<int>, i: int)
    requires IsRect(g, L.LadderRows, L.LadderCols)
    ensures var r := PixelLoop(uFit, vFit, g, ids, i); var nz := Pixels(g);
      (r.Err? <==> exists q :: 0 <= q < Zipped(nz, ids) && !IsPanel(ids[q])) && (r.Err? ==> r.error == KeyError) &&
      (r.Ok? ==> Claims(nz, ids, 0, NoneSeen()).Ok? && r.value == Opened(uFit, vFit, g, nz, ids, Claims(nz, ids, 0, NoneSeen()).value, i))
  {
    var nz := Pixels(g);
    ClaimsErrors(nz, ids, 0, NoneSeen());
  }

  /** Clusters on pairwise different panels number at most 40. */
  lemma AtMostOnePerPanel<P>(cs: seq<Cluster<P>>)
    requires forall a :: 0 <= a < |cs| ==> IsPanel(cs[a].sensorID)
    requires forall a, b :: 0 <= a < b < |cs| ==> cs[a].sensorID != cs[b].sensorID
    ensures |cs| <= NumPanels
  {
    var ss := seq(|cs|, a requires 0 <= a < |cs| => cs[a].sensorID);
    DistinctWithoutRepeats(ss);
    PanelsAccepted();
    DistinctAtMostLength(PanelIDs);
    assert Distinct(ss) <= Distinct(PanelIDs);
    SubsetCard(Distinct(ss), Distinct(PanelIDs));
  }

  lemma {:induction false} SubsetCard<T>(a: set<T>, b: set<T>)
    requires a <= b
    ensures |a| <= |b|
    decreases |a|
  {
    if a != {} {
      var x :| x in a;
      SubsetCard(a - {x}, b - {x});
    }
  }

  /** An event opens at most one cluster per panel, so at most 40. */
  lemma FilterEventBound<P>(uFit: (int, int) -> P, vFit: (int, int) -> P, ds: seq<CFD.Digit>, i: int)
    ensures FilterEvent(uFit, vFit, ds, i).Ok? ==> |FilterEvent(uFit, vFit, ds, i).value| <= NumPanels
  {
    if InLadder(ds) {
      var g := FlatPlane(ds);
      PixelFacts(uFit, vFit, g, Sensors(ds), i);
      var r := PixelLoop(uFit, vFit, g, Sensors(ds), i);
      if r.Ok? {
        AtMostOnePerPanel(r.value);
      }
    }
  }

  /** The loop over a plane's pixels opens clusters of its event on
      distinct panels. */
  lemma PixelFacts<P>(uFit: (int, int) -> P, vFit: (int, int) -> P, g: Matrix, ids: seq<int>, i: int)
    requires IsRect(g, L.LadderRows, L.LadderCols)
    ensures var r := PixelLoop(uFit, vFit, g, ids, i);
      r.Ok? ==>
        (forall a :: 0 <= a < |r.value| ==> r.value[a].eventNumber == i && IsPanel(r.value[a].sensorID)) &&
        (forall a, b :: 0 <= a < b < |r.value| ==> r.value[a].sensorID != r.value[b].sensorID)
  {
    PixelLoopErrors(uFit, vFit, g, ids, i);
    if PixelLoop(uFit, vFit, g, ids, i).Ok? {
      OpenedFirst(uFit, vFit, g, Pixels(g), ids, i);
      OpenedDistinct(uFit, vFit, g, Pixels(g), ids, i);
    }
  }

  // ---- the whole pass ----

  /** The dictionary `_process` returns: the twelve cluster columns when
      `processType == 'clusters'`, the three cell columns otherwise. */
  datatype FilterOutput<P> =
    | ClusterColumns(clsCharge: seq<int>, seedCharge: seq<int>, clsSize: seq<int>, uSize: seq<int>, vSize: seq<int>,
                     uPosition: seq<P>, vPosition: seq<P>, sensorID: seq<int>, eventNumber: seq<int>,
                     roiSelected: seq<bool>, detector: seq<string>, fileName: seq<Option<string>>)
    | DigitColumns(uCellIDs: seq<seq<int>>, vCellIDs: seq<seq<int>>, cellCharges: seq<seq<int>>)

  /** Lines 263-283: the clusters laid out as columns. */
  function Columns<P>(cs: seq<Cluster<P>>, processType: string, fileName: Option<string>): FilterOutput<P>
  {
    var n := |cs|;
    if processType == "clusters" then
      ClusterColumns(seq(n, a requires 0 <= a < n => cs[a].clsCharge), seq(n, a requires 0 <= a < n => cs[a].seedCharge),
                     seq(n, a requires 0 <= a < n => cs[a].clsSize), seq(n, a requires 0 <= a < n => cs[a].uSize),
                     seq(n, a requires 0 <= a < n => cs[a].vSize), seq(n, a requires 0 <= a < n => cs[a].uPosition),
                     seq(n, a requires 0 <= a < n => cs[a].vPosition), seq(n, a requires 0 <= a < n => cs[a].sensorID),
                     seq(n, a requires 0 <= a < n => cs[a].eventNumber), Repeat(false, n), Repeat("pxd", n), Repeat(fileName, n))
    else
      DigitColumns(seq(n, a requires 0 <= a < n => cs[a].uCells), seq(n, a requires 0 <= a < n => cs[a].vCells),
                   seq(n, a requires 0 <= a < n => cs[a].cellCharges))
  }

  /** Every column has one entry per cluster, taken from that cluster;
      every cluster is flagged as not selected, from the PXD, and from
      `fileName`; the twelve cluster columns come exactly when
      `processType == 'clusters'`. */
  lemma ColumnsLayout<P>(cs: seq<Cluster<P>>, processType: string, fileName: Option<string>)
    ensures var out := Columns(cs, processType, fileName);
      (out.ClusterColumns? <==> processType == "clusters") &&
      (out.ClusterColumns? ==>
        |out.clsCharge| == |out.seedCharge| == |out.clsSize| == |out.uSize| == |out.vSize| == |out.uPosition| ==
        |out.vPosition| == |out.sensorID| == |out.eventNumber| == |out.roiSelected| == |out.detector| == |out.fileName| == |cs| &&
        forall a :: 0 <= a < |cs| ==>
          out.clsCharge[a] == cs[a].clsCharge && out.seedCharge[a] == cs[a].seedCharge && out.clsSize[a] == cs[a].clsSize &&
          out.uSize[a] == cs[a].uSize && out.vSize[a] == cs[a].vSize && out.uPosition[a] == cs[a].uPosition &&
          out.vPosition[a] == cs[a].vPosition && out.sensorID[a] == cs[a].sensorID && out.eventNumber[a] == cs[a].eventNumber &&
          !out.roiSelected[a] && out.detector[a] == "pxd" && out.fileName[a] == fileName) &&
      (out.DigitColumns? ==>
        |out.uCellIDs| == |out.vCellIDs| == |out.cellCharges| == |cs| &&
        forall a :: 0 <= a < |cs| ==>
          out.uCellIDs[a] == cs[a].uCells && out.vCellIDs[a] == cs[a].vCells && out.cellCharges[a] == cs[a].cellCharges)
  {
  }

  /** The events' outcomes: event `i` is `FilterEvent` on its digits. */
  function FilterOutcomes<P>(uFit: (int, int) -> P, vFit: (int, int) -> P, events: seq<seq<CFD.Digit>>): int -> Result<seq<Cluster<P>>>
  {
    i => if 0 <= i < |events| then FilterEvent(uFit, vFit, events[i], i) else Ok([])
  }

  /** What `_process` returns: the columns of every event's clusters in
      order, or the first failing event's error. */
  function FilterSpec<P>(uFit: (int, int) -> P, vFit: (int, int) -> P, events: seq<seq<CFD.Digit>>,
                         processType: string, fileName: Option<string>): Result<FilterOutput<P>>
  {
    match Collect(FilterOutcomes(uFit, vFit, events), |events|)
    case Err(err) => Err(err)
    case Ok(cs) => Ok(Columns(cs, processType, fileName))
  }

  /** The pass raises exactly when some event does: IndexError for a cell
      index out of the plane, KeyError for a paired sensor that is not a
      panel. */
  lemma FilterErrors<P>(uFit: (int, int) -> P, vFit: (int, int) -> P, events: seq<seq<CFD.Digit>>,
                        processType: string, fileName: Option<string>)
    ensures var r := FilterSpec(uFit, vFit, events, processType, fileName);
      (r.Err? <==> exists i :: 0 <= i < |events| && FilterEvent(uFit, vFit, events[i], i).Err?) &&
      (r.Err? ==> r.error == IndexError || r.error == KeyError)
  {
    var outcome := FilterOutcomes(uFit, vFit, events);
    CollectErrIff(outcome, |events|);
    if Collect(outcome, |events|).Err? {
      var i :| 0 <= i < |events| && outcome(i).Err? && Collect(outcome, |events|).error == outcome(i).error;
      if InLadder(events[i]) {
        PixelLoopErrors(uFit, vFit, FlatPlane(events[i]), Sensors(events[i]), i);
      }
    }
    forall i | 0 <= i < |events| ensures outcome(i) == FilterEvent(uFit, vFit, events[i], i) {
    }
  }

  /** On success the clusters come event by event, no event has two
      clusters on one sensor, and there are at most 40 per event. */
  lemma FilterClusters<P>(uFit: (int, int) -> P, vFit: (int, int) -> P, events: seq<seq<CFD.Digit>>)
    requires Collect(FilterOutcomes(uFit, vFit, events), |events|).Ok?
    ensures var cs := Collect(FilterOutcomes(uFit, vFit, events), |events|).value;
      |cs| <= NumPanels * |events| &&
      (forall a :: 0 <= a < |cs| ==> 0 <= cs[a].eventNumber < |events|) &&
      forall a, b :: 0 <= a < b < |cs| ==>
        cs[a].eventNumber <= cs[b].eventNumber &&
        (cs[a].eventNumber == cs[b].eventNumber ==> cs[a].sensorID != cs[b].sensorID)
  {
    var n := |events|;
    var outcome := FilterOutcomes(uFit, vFit, events);
    forall i | 0 <= i < n && outcome(i).Ok?
      ensures (forall a :: 0 <= a < |outcome(i).value| ==> outcome(i).value[a].eventNumber == i) &&
        (forall a, b :: 0 <= a < b < |outcome(i).value| ==> outcome(i).value[a].sensorID != outcome(i).value[b].sensorID) &&
        |outcome(i).value| <= Repeat(NumPanels, n)[i]
    {
      FilterEventBound(uFit, vFit, events[i], i);
      PixelFacts(uFit, vFit, FlatPlane(events[i]), Sensors(events[i]), i);
    }
    CollectKeyed(outcome, n, (c: Cluster<P>) => c.eventNumber, (c: Cluster<P>) => c.sensorID);
    CollectBounded(outcome, Repeat(NumPanels, n), n);
    assert Repeat(NumPanels, n)[..n] == Repeat(NumPanels, n);
    SumRepeat(NumPanels, n);
  }

  // ---- the loops of `_process` ----

  /** What the claimed triples `qs` open, in order, when triple `q` opens
      `open(q)`. */
  function Each<C>(open: nat --> C, qs: seq<nat>): (cs: seq<C>)
    requires forall a :: 0 <= a < |qs| ==> open.requires(qs[a])
    ensures |cs| == |qs| && forall a :: 0 <= a < |qs| ==> cs[a] == open(qs[a])
  {
    seq(|qs|, a requires 0 <= a < |qs| => open(qs[a]))
  }

  /** Claiming one more triple appends what it opens. */
  lemma EachSnoc<C>(open: nat --> C, qs: seq<nat>, k: nat)
    requires forall a :: 0 <= a < |qs| ==> open.requires(qs[a])
    requires open.requires(k)
    ensures forall a :: 0 <= a < |qs| ==> (qs + [k])[a] == qs[a]
    ensures Each(open, qs + [k]) == Each(open, qs) + [open(k)]
  {
  }

  /** The claim of triple `k` moves it from the claims still to come to
      those already made. */
  lemma ClaimAdvance(nz: seq<(int, int)>, ids: seq<int>, k: nat, seen: map<int, Known>, claimed: seq<nat>,
                     all: Result<seq<nat>>)
    requires k < Zipped(nz, ids) && ids[k] in seen
    requires !(nz[k].0 in seen[ids[k]].xx || nz[k].1 in seen[ids[k]].yy)
    requires Prepend(claimed, Claims(nz, ids, k, seen)) == all
    ensures Prepend(claimed + [k], Claims(nz, ids, k + 1, seen[ids[k] := Known(seen[ids[k]].xx + Rows(nz), seen[ids[k]].yy + Cols(nz))])) == all
  {
    PrependTwice(claimed, [k], Claims(nz, ids, k + 1, seen[ids[k] := Known(seen[ids[k]].xx + Rows(nz), seen[ids[k]].yy + Cols(nz))]));
  }

  /** Lines 217-260, step by step: the triples of `zip(xx, yy, sensorID)`
      with `knownPixels` updated as the loop goes, and what a triple opens
      (`open`, the window of lines 223-260) appended for every triple that
      claims its sensor. */
  method WalkPixels<C>(open: nat --> C, nz: seq<(int, int)>, ids: seq<int>) returns (r: Result<seq<C>>)
    requires forall q :: 0 <= q < Zipped(nz, ids) ==> open.requires(q)
    ensures Claims(nz, ids, 0, NoneSeen()).Err? ==> r == Err(Claims(nz, ids, 0, NoneSeen()).error)
    ensures Claims(nz, ids, 0, NoneSeen()).Ok? ==> r == Ok(Each(open, Claims(nz, ids, 0, NoneSeen()).value))
  {
    var xx, yy := Rows(nz), Cols(nz);
    var knownPixels := NoneSeen();
    var found: seq<C> := [];
    ghost var claimed: seq<nat> := [];
    ghost var all := Claims(nz, ids, 0, knownPixels);
    PrependNothing(all);
    for k := 0 to Zipped(nz, ids)
      invariant Prepend(claimed, Claims(nz, ids, k, knownPixels)) == all
      invariant forall a :: 0 <= a < |claimed| ==> claimed[a] < k
      invariant found == Each(open, claimed)
    {
      var (x, y, id) := (nz[k].0, nz[k].1, ids[k]);
      if id !in knownPixels {
        return Err(KeyError);
      }
      if x in knownPixels[id].xx || y in knownPixels[id].yy {
        assert Claims(nz, ids, k, knownPixels) == Claims(nz, ids, k + 1, knownPixels);
        continue;
      }
      ClaimAdvance(nz, ids, k, knownPixels, claimed, all);
      EachSnoc(open, claimed, k);
      knownPixels := knownPixels[id := Known(knownPixels[id].xx + xx, knownPixels[id].yy + yy)];
      claimed := claimed + [k];
      found := found + [open(k)];
    }
    assert claimed + [] == claimed;
    return Ok(found);
  }

  /** Lines 223-260 as what triple `q` opens: the window of its pixel,
      with its sensor, in event `i`. */
  function Opener<P>(uFit: (int, int) -> P, vFit: (int, int) -> P, g: Matrix, nz: seq<(int, int)>, ids: seq<int>, i: int)
    : (open: nat --> Cluster<P>)
    requires IsRect(g, L.LadderRows, L.LadderCols) && OnPlane(nz)
    ensures forall q :: 0 <= q < |nz| && q < |ids| ==>
      open.requires(q) && open(q) == ClusterAt(uFit, vFit, g, nz[q].0, nz[q].1, ids[q], i)
  {
    (q: nat) requires q < |nz| && q < |ids| => ClusterAt(uFit, vFit, g, nz[q].0, nz[q].1, ids[q], i)
  }

  /** The walk with each triple opening the window of its pixel yields
      what the pixel loop does. */
  lemma WalkIsPixelLoop<P>(uFit: (int, int) -> P, vFit: (int, int) -> P, g: Matrix, ids: seq<int>, i: int,
                           r: Result<seq<Cluster<P>>>)
    requires IsRect(g, L.LadderRows, L.LadderCols)
    requires var nz := Pixels(g); var claims := Claims(nz, ids, 0, NoneSeen());
      (claims.Err? ==> r == Err(claims.error)) &&
      (claims.Ok? ==> r == Ok(Each(Opener(uFit, vFit, g, nz, ids, i), claims.value)))
    ensures r == PixelLoop(uFit, vFit, g, ids, i)
  {
    var nz := Pixels(g);
    var claims := Claims(nz, ids, 0, NoneSeen());
    if claims.Ok? {
      EachOpened(uFit, vFit, g, nz, ids, i, Opener(uFit, vFit, g, nz, ids, i), claims.value);
    }
  }

  /** Each triple opening the window of its pixel, the claimed triples
      open the clusters of the pixel loop. */
  lemma EachOpened<P>(uFit: (int, int) -> P, vFit: (int, int) -> P, g: Matrix, nz: seq<(int, int)>, ids: seq<int>, i: int,
                      open: nat --> Cluster<P>, qs: seq<nat>)
    requires IsRect(g, L.LadderRows, L.LadderCols) && OnPlane(nz)
    requires forall a :: 0 <= a < |qs| ==> qs[a] < |nz| && qs[a] < |ids|
    requires forall q :: 0 <= q < |nz| && q < |ids| ==>
      open.requires(q) && open(q) == ClusterAt(uFit, vFit, g, nz[q].0, nz[q].1, ids[q], i)
    ensures Each(open, qs) == Opened(uFit, vFit, g, nz, ids, qs, i)
  {
  }

  /** Event `i` of `_process` (lines 209-260): the scatter onto a fresh
      plane, then the walk over its non-zero pixels. */
  method ProcessEvent<P>(uFit: (int, int) -> P, vFit: (int, int) -> P, ds: seq<CFD.Digit>, i: int)
    returns (r: Result<seq<Cluster<P>>>)
    ensures r == FilterEvent(uFit, vFit, ds, i)
  {
    var ladder := ScatterLadder(ds);
    if ladder.None? {
      return Err(IndexError);
    }
    ReadMatches(ladder.value, ds);
    var g := Read(ladder.value);
    var nz, ids := Pixels(g), Sensors(ds);
    r := WalkPixels(Opener(uFit, vFit, g, nz, ids, i), nz, ids);
    WalkIsPixelLoop(uFit, vFit, g, ids, i, r);
  }

  /** One more event of `_process`: its clusters are appended, or its
      error is the pass's. */
  lemma EventStep<P>(uFit: (int, int) -> P, vFit: (int, int) -> P, events: seq<seq<CFD.Digit>>,
                     processType: string, fileName: Option<string>, i: nat,
                     clusters: seq<Cluster<P>>, event: Result<seq<Cluster<P>>>)
    requires i < |events| && Collect(FilterOutcomes(uFit, vFit, events), i) == Ok(clusters)
    requires event == FilterEvent(uFit, vFit, events[i], i)
    ensures event.Ok? ==> Collect(FilterOutcomes(uFit, vFit, events), i + 1) == Ok(clusters + event.value)
    ensures event.Err? ==> FilterSpec(uFit, vFit, events, processType, fileName) == Err(event.error)
  {
    var outcome := FilterOutcomes(uFit, vFit, events);
    assert outcome(i) == event;
    CollectStep(outcome, i, |events|, clusters);
  }

  /** `_process`: the events in order, each one's clusters appended to the
      columns, which are returned in the layout `processType` asks for. */
  method Process<P>(uFit: (int, int) -> P, vFit: (int, int) -> P, events: seq<seq<CFD.Digit>>,
                    processType: string, fileName: Option<string>) returns (r: Result<FilterOutput<P>>)
    ensures r == FilterSpec(uFit, vFit, events, processType, fileName)
  {
    var clusters: seq<Cluster<P>> := [];
    for i := 0 to |events|
      invariant Collect(FilterOutcomes(uFit, vFit, events), i) == Ok(clusters)
    {
      var event := ProcessEvent(uFit, vFit, events[i], i);
      EventStep(uFit, vFit, events, processType, fileName, i, clusters, event);
      if event.Err? {
        return Err(event.error);
      }
      clusters := clusters + event.value;
    }
    r := Ok(Columns(clusters, processType, fileName));
    assert r == FilterSpec(uFit, vFit, events, processType, fileName);
  }

  /** `fillMCData`: for every column of `sampleData` a column of
      `sampleSize` zero entries shaped and typed like its first entry
      (`zeroLike`); an empty column raises IndexError. */
  method FillMCData<V>(sampleData: map<string, seq<V>>, sampleSize: nat, zeroLike: V -> V)
    returns (r: Result<map<string, seq<V>>>)
    ensures r.Err? <==> exists key :: key in sampleData && |sampleData[key]| == 0
    ensures r.Err? ==> r.error == IndexError
    ensures r.Ok? ==> r.value.Keys == sampleData.Keys
    ensures r.Ok? ==> forall key :: key in r.value ==>
      |r.value[key]| == sampleSize && forall j :: 0 <= j < sampleSize ==> r.value[key][j] == zeroLike(sampleData[key][0])
  {
    var fake: map<string, seq<V>> := map[];
    var keys := sampleData.Keys;
    while keys != {}
      invariant keys <= sampleData.Keys && fake.Keys == sampleData.Keys - keys
      invariant forall key :: key in fake ==> |sampleData[key]| > 0 && fake[key] == Repeat(zeroLike(sampleData[key][0]), sampleSize)
      decreases |keys|
    {
      var key :| key in keys;
      if |sampleData[key]| == 0 {
        return Err(IndexError);
      }
      fake := fake[key := Repeat(zeroLike(sampleData[key][0]), sampleSize)];
      keys := keys - {key};
    }
    return Ok(fake);
  }
}
