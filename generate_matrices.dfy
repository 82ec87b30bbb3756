/** Fixed-size cluster images (build/lib/rootable/detectors/generateMatrices.py):
    every cluster is drawn into its own zero matrix so that its seed, the
    first pixel of maximal charge, lands on the centre cell; pixels that fall
    outside the matrix are dropped. */
module GenerateMatrices {
  import opened Common

  /** The three object arrays `get` receives, one entry per cluster. */
  datatype Clusters = Clusters(cellCharges: seq<seq<int>>, uCellIDs: seq<seq<int>>, vCellIDs: seq<seq<int>>)

  /** The arrays describe the same clusters: one u and one v cell ID per charge. */
  predicate Aligned(c: Clusters)
  {
    && |c.uCellIDs| == |c.cellCharges|
    && |c.vCellIDs| == |c.cellCharges|
    && forall k :: 0 <= k < |c.cellCharges| ==>
         |c.uCellIDs[k]| == |c.cellCharges[k]| && |c.vCellIDs[k]| == |c.cellCharges[k]|
  }

  /** Lines 25-30: `(uPos, vPos)` of pixel `j` of cluster `k`, its cell IDs
      shifted so that the seed goes to `matrixSize // 2`. */
  function Offset(c: Clusters, s0: nat, s1: nat, k: nat, j: nat): (int, int)
    requires Aligned(c) && k < |c.cellCharges| && j < |c.cellCharges[k]|
  {
    var m := ArgMax(c.cellCharges[k]);
    (c.uCellIDs[k][j] + s0 / 2 - c.uCellIDs[k][m], c.vCellIDs[k][j] + s1 / 2 - c.vCellIDs[k][m])
  }

  /** Line 32: the pixel's offset lies inside the `s0 x s1` window. */
  predicate Kept(c: Clusters, s0: nat, s1: nat, k: nat, j: nat)
    requires Aligned(c) && k < |c.cellCharges| && j < |c.cellCharges[k]|
  {
    var p := Offset(c, s0, s1, k, j);
    0 <= p.0 < s0 && 0 <= p.1 < s1
  }

  /** Lines 41-44: the (row, column) the pixel is written to, transposed for 'vu'. */
  function Spot(c: Clusters, s0: nat, s1: nat, order: string, k: nat, j: nat): (int, int)
    requires Aligned(c) && k < |c.cellCharges| && j < |c.cellCharges[k]|
  {
    var p := Offset(c, s0, s1, k, j);
    if order == "vu" then (p.1, p.0) else p
  }

  /** Pixel `j` of cluster `k` is written to cell `(a, b)`. */
  predicate Lands(c: Clusters, s0: nat, s1: nat, order: string, k: nat, j: nat, a: int, b: int)
    requires Aligned(c) && k < |c.cellCharges| && j < |c.cellCharges[k]|
  {
    Kept(c, s0, s1, k, j) && Spot(c, s0, s1, order, k, j) == (a, b)
  }

  /** A kept pixel of cluster `k` whose transposed position lies outside the
      `s0 x s1` matrix: `ravel_multi_index` rejects it with ValueError.
      Only a 'vu' order with a non-square size can do this. */
  predicate Misplaced(c: Clusters, s0: nat, s1: nat, order: string, k: nat)
    requires Aligned(c) && k < |c.cellCharges|
  {
    exists j :: 0 <= j < |c.cellCharges[k]| && Kept(c, s0, s1, k, j) &&
      !(Spot(c, s0, s1, order, k, j).0 < s0 && Spot(c, s0, s1, order, k, j).1 < s1)
  }

  /** Cluster `k` makes `get` raise ValueError: it has no pixel (the argmax
      of an empty row), or one of its pixels is misplaced. */
  predicate Bad(c: Clusters, s0: nat, s1: nat, order: string, k: nat)
    requires Aligned(c) && k < |c.cellCharges|
  {
    |c.cellCharges[k]| == 0 || Misplaced(c, s0, s1, order, k)
  }

  /** The exception `get` raises, if any: AssertionError for an order other
      than 'uv' and 'vu' (line 12), ValueError when there is no cluster at all
      (`np.vectorize` of an empty array, line 14) or some cluster is bad. */
  function GetError(c: Clusters, s0: nat, s1: nat, order: string): Option<Error>
    requires Aligned(c)
  {
    if !(order == "uv" || order == "vu") then Some(AssertionError)
    else if |c.cellCharges| == 0 then Some(ValueError)
    else if exists k :: 0 <= k < |c.cellCharges| && Bad(c, s0, s1, order, k) then Some(ValueError)
    else None
  }

  /** The value of cell `(a, b)` of matrix `k` once the first `j` pixels of
      cluster `k` are drawn: the charge of the last of them that lands
      there, 0 when none does. */
  function LastAt(c: Clusters, s0: nat, s1: nat, order: string, k: nat, a: int, b: int, j: nat): int
    requires Aligned(c) && k < |c.cellCharges| && j <= |c.cellCharges[k]|
  {
    if j == 0 then 0
    else if Lands(c, s0, s1, order, k, j - 1, a, b) then c.cellCharges[k][j - 1]
    else LastAt(c, s0, s1, order, k, a, b, j - 1)
  }

  /** Cell `(a, b)` of output matrix `k`. */
  function Cell(c: Clusters, s0: nat, s1: nat, order: string, k: nat, a: int, b: int): int
    requires Aligned(c) && k < |c.cellCharges|
  {
    LastAt(c, s0, s1, order, k, a, b, |c.cellCharges[k]|)
  }

  /** A cell no pixel lands on keeps its 0. */
  lemma {:induction false} LastAtNone(c: Clusters, s0: nat, s1: nat, order: string, k: nat, a: int, b: int, j: nat)
    requires Aligned(c) && k < |c.cellCharges| && j <= |c.cellCharges[k]|
    requires forall q :: 0 <= q < j ==> !Lands(c, s0, s1, order, k, q, a, b)
    ensures LastAt(c, s0, s1, order, k, a, b, j) == 0
  {
    if j > 0 {
      LastAtNone(c, s0, s1, order, k, a, b, j - 1);
    }
  }

  /** Last write wins: a cell holds the charge of the last pixel landing on it. */
  lemma {:induction false} LastAtIs(c: Clusters, s0: nat, s1: nat, order: string, k: nat, a: int, b: int, j: nat, q: nat)
    requires Aligned(c) && k < |c.cellCharges| && q < j <= |c.cellCharges[k]|
    requires Lands(c, s0, s1, order, k, q, a, b)
    requires forall q' :: q < q' < j ==> !Lands(c, s0, s1, order, k, q', a, b)
    ensures LastAt(c, s0, s1, order, k, a, b, j) == c.cellCharges[k][q]
  {
    if q < j - 1 {
      LastAtIs(c, s0, s1, order, k, a, b, j - 1, q);
    }
  }

  /** No two pixels of cluster `k` share a (u, v) cell. */
  predicate DistinctCells(c: Clusters, k: nat)
    requires Aligned(c) && k < |c.cellCharges|
  {
    forall i, j :: 0 <= i < j < |c.cellCharges[k]| ==>
      (c.uCellIDs[k][i], c.vCellIDs[k][i]) != (c.uCellIDs[k][j], c.vCellIDs[k][j])
  }

  /** Two pixels landing on the same cell sit on the same (u, v) cell: the
      placement is a translation of the cell IDs, transposed or not. */
  lemma SameSpotSamePixel(c: Clusters, s0: nat, s1: nat, order: string, k: nat, i: nat, j: nat)
    requires Aligned(c) && k < |c.cellCharges| && i < |c.cellCharges[k]| && j < |c.cellCharges[k]|
    requires Spot(c, s0, s1, order, k, i) == Spot(c, s0, s1, order, k, j)
    ensures (c.uCellIDs[k][i], c.vCellIDs[k][i]) == (c.uCellIDs[k][j], c.vCellIDs[k][j])
  {
  }

  /** With distinct cells every kept pixel shows its own charge. */
  lemma KeptPixelShown(c: Clusters, s0: nat, s1: nat, order: string, k: nat, j: nat)
    requires Aligned(c) && k < |c.cellCharges| && j < |c.cellCharges[k]| && DistinctCells(c, k)
    requires Kept(c, s0, s1, k, j)
    ensures var spot := Spot(c, s0, s1, order, k, j);
      Cell(c, s0, s1, order, k, spot.0, spot.1) == c.cellCharges[k][j]
  {
    var spot := Spot(c, s0, s1, order, k, j);
    forall q | j < q < |c.cellCharges[k]| && Lands(c, s0, s1, order, k, q, spot.0, spot.1)
      ensures false
    {
      SameSpotSamePixel(c, s0, s1, order, k, j, q);
    }
    LastAtIs(c, s0, s1, order, k, spot.0, spot.1, |c.cellCharges[k]|, j);
  }

  /** Lines 25-30: the seed is always kept and goes to the centre cell; with
      distinct cells the centre holds the cluster's maximal charge. */
  lemma SeedAtCentre(c: Clusters, s0: nat, s1: nat, order: string, k: nat)
    requires Aligned(c) && k < |c.cellCharges| && |c.cellCharges[k]| > 0 && s0 > 0 && s1 > 0
    ensures var m := ArgMax(c.cellCharges[k]);
      Kept(c, s0, s1, k, m) && Spot(c, s0, s1, order, k, m) == if order == "vu" then (s1 / 2, s0 / 2) else (s0 / 2, s1 / 2)
    ensures DistinctCells(c, k) ==>
      var centre := if order == "vu" then (s1 / 2, s0 / 2) else (s0 / 2, s1 / 2);
      forall j :: 0 <= j < |c.cellCharges[k]| ==> c.cellCharges[k][j] <= Cell(c, s0, s1, order, k, centre.0, centre.1)
  {
    var m := ArgMax(c.cellCharges[k]);
    assert Offset(c, s0, s1, k, m) == (s0 / 2, s1 / 2);
    if DistinctCells(c, k) {
      KeptPixelShown(c, s0, s1, order, k, m);
    }
  }

  /** With a square size the transposed order cannot leave the matrix, so
      only empty clusters raise. */
  lemma SquareNeverMisplaced(c: Clusters, s: nat, order: string, k: nat)
    requires Aligned(c) && k < |c.cellCharges|
    ensures !Misplaced(c, s, s, order, k)
  {
    forall j | 0 <= j < |c.cellCharges[k]| && Kept(c, s, s, k, j)
      ensures Spot(c, s, s, order, k, j).0 < s && Spot(c, s, s, order, k, j).1 < s
    {
    }
  }

  /** The error conditions in full for a proper order: `get` raises exactly
      when there is no cluster, some cluster is empty, or a transposed pixel
      leaves a non-square matrix. */
  lemma GetErrorIff(c: Clusters, s0: nat, s1: nat, order: string)
    requires Aligned(c) && (order == "uv" || order == "vu")
    ensures GetError(c, s0, s1, order).Some? <==>
      |c.cellCharges| == 0 ||
      (exists k :: 0 <= k < |c.cellCharges| && |c.cellCharges[k]| == 0) ||
      (order == "vu" && s0 != s1 && exists k :: 0 <= k < |c.cellCharges| && Misplaced(c, s0, s1, order, k))
  {
    if exists k :: 0 <= k < |c.cellCharges| && Misplaced(c, s0, s1, order, k) {
      var k :| 0 <= k < |c.cellCharges| && Misplaced(c, s0, s1, order, k);
      assert Bad(c, s0, s1, order, k);
      if s0 == s1 {
        SquareNeverMisplaced(c, s0, order, k);
      }
      if order != "vu" {
        NeverMisplacedUV(c, s0, s1, order, k);
      }
    } else {
      if exists k :: 0 <= k < |c.cellCharges| && |c.cellCharges[k]| == 0 {
        var k :| 0 <= k < |c.cellCharges| && |c.cellCharges[k]| == 0;
        assert Bad(c, s0, s1, order, k);
      }
      if exists k :: 0 <= k < |c.cellCharges| && Bad(c, s0, s1, order, k) {
        var k :| 0 <= k < |c.cellCharges| && Bad(c, s0, s1, order, k);
        assert |c.cellCharges[k]| == 0;
      }
    }
  }

  /** In the 'uv' order every kept pixel is inside the matrix. */
  lemma NeverMisplacedUV(c: Clusters, s0: nat, s1: nat, order: string, k: nat)
    requires Aligned(c) && k < |c.cellCharges| && order != "vu"
    ensures !Misplaced(c, s0, s1, order, k)
  {
  }

  /** A 1 x 3 matrix in 'vu' order: the seed is the second pixel, the first
      lands at (u, v) offset (0, 2), which is kept, and transposed it would
      be row 2 of a one-row matrix, so `get` raises ValueError. */
  lemma TransposedOverflow()
    ensures GetError(Clusters([[1, 2]], [[0, 0]], [[1, 0]]), 1, 3, "vu") == Some(ValueError)
  {
    var c := Clusters([[1, 2]], [[0, 0]], [[1, 0]]);
    assert ArgMax(c.cellCharges[0]) == 1;
    assert Offset(c, 1, 3, 0, 0) == (0, 2);
    assert Kept(c, 1, 3, 0, 0) && Spot(c, 1, 3, "vu", 0, 0) == (2, 0);
    assert Misplaced(c, 1, 3, "vu", 0);
    assert Bad(c, 1, 3, "vu", 0);
  }

  // ---------------------------------------------------------------------
  // Length groups (lines 14-20)

  /** A bound above every entry of `ls`. */
  function Bound(ls: seq<int>): (r: nat)
    ensures forall k :: 0 <= k < |ls| ==> ls[k] < r
  {
    if ls == [] then 0
    else
      var r := Bound(ls[..|ls| - 1]);
      var last := ls[|ls| - 1];
      if last + 1 > r then last + 1 else r
  }

  /** `np.unique(lengthes)`, restricted to values below `bound`: ascending,
      without repeats, exactly the values that occur. */
  function Unique(ls: seq<int>, bound: nat): (u: seq<nat>)
    ensures forall s, t :: 0 <= s < t < |u| ==> u[s] < u[t]
    ensures forall t :: 0 <= t < |u| ==> u[t] < bound && u[t] in ls
    ensures forall x :: 0 <= x < bound && x in ls ==> x in u
  {
    if bound == 0 then []
    else Unique(ls, bound - 1) + (if bound - 1 in ls then [bound - 1] else [])
  }

  /** `np.where(lengthes == length)[0]` over the first `n` entries: the
      clusters of that length, ascending. */
  function Where(ls: seq<int>, length: int, n: nat): (ks: seq<nat>)
    requires n <= |ls|
    ensures forall s, t :: 0 <= s < t < |ks| ==> ks[s] < ks[t]
    ensures forall t :: 0 <= t < |ks| ==> ks[t] < n && ls[ks[t]] == length
    ensures forall k :: 0 <= k < n && ls[k] == length ==> k in ks
  {
    if n == 0 then []
    else Where(ls, length, n - 1) + (if ls[n - 1] == length then [n - 1] else [])
  }

  // ---------------------------------------------------------------------
  // The writes of one length group (lines 35-47)

  /** One element of the fancy assignment: `matrices[cluster, row, col] = charge`. */
  datatype Put = Put(cluster: int, row: int, col: int, charge: int)

  /** The writes of the kept pixels among the first `j` of cluster `k`, in order. */
  function ClusterPuts(c: Clusters, s0: nat, s1: nat, order: string, k: nat, j: nat): seq<Put>
    requires Aligned(c) && k < |c.cellCharges| && j <= |c.cellCharges[k]|
  {
    if j == 0 then []
    else
      var spot := Spot(c, s0, s1, order, k, j - 1);
      ClusterPuts(c, s0, s1, order, k, j - 1) +
      (if Kept(c, s0, s1, k, j - 1) then [Put(k, spot.0, spot.1, c.cellCharges[k][j - 1])] else [])
  }

  /** The writes of a group: its clusters' writes, cluster after cluster
      (the row-major flattening of lines 35-40). */
  function GroupPuts(c: Clusters, s0: nat, s1: nat, order: string, ks: seq<nat>): seq<Put>
    requires Aligned(c) && forall t :: 0 <= t < |ks| ==> ks[t] < |c.cellCharges|
  {
    if ks == [] then []
    else
      var k := ks[|ks| - 1];
      GroupPuts(c, s0, s1, order, ks[..|ks| - 1]) + ClusterPuts(c, s0, s1, order, k, |c.cellCharges[k]|)
  }

  /** The write stays inside an `n x s0 x s1` array. */
  predicate Inside(w: Put, n: nat, s0: nat, s1: nat)
  {
    0 <= w.cluster < n && 0 <= w.row < s0 && 0 <= w.col < s1
  }

  /** Cell `(k, a, b)` after the writes `ws` over the value `d`: the last
      write to it wins. */
  function After(ws: seq<Put>, k: int, a: int, b: int, d: int): int
  {
    if ws == [] then d
    else
      var w := ws[|ws| - 1];
      if w.cluster == k && w.row == a && w.col == b then w.charge else After(ws[..|ws| - 1], k, a, b, d)
  }

  lemma {:induction false} AfterConcat(xs: seq<Put>, ys: seq<Put>, k: int, a: int, b: int, d: int)
    ensures After(xs + ys, k, a, b, d) == After(ys, k, a, b, After(xs, k, a, b, d))
    decreases |ys|
  {
    if ys == [] {
      assert xs + ys == xs;
    } else {
      assert (xs + ys)[..|xs + ys| - 1] == xs + ys[..|ys| - 1];
      AfterConcat(xs, ys[..|ys| - 1], k, a, b, d);
    }
  }

  /** Writes to other matrices leave cell `(k, a, b)` alone. */
  lemma {:induction false} AfterUntouched(ws: seq<Put>, k: int, a: int, b: int, d: int)
    requires forall i :: 0 <= i < |ws| ==> ws[i].cluster != k
    ensures After(ws, k, a, b, d) == d
    decreases |ws|
  {
    if ws != [] {
      AfterUntouched(ws[..|ws| - 1], k, a, b, d);
    }
  }

  /** A cluster writes only to its own matrix, and only inside the matrix
      unless one of its pixels is misplaced. */
  lemma {:induction false} ClusterPutsTargets(c: Clusters, s0: nat, s1: nat, order: string, k: nat, j: nat)
    requires Aligned(c) && k < |c.cellCharges| && j <= |c.cellCharges[k]|
    ensures forall i :: 0 <= i < |ClusterPuts(c, s0, s1, order, k, j)| ==> ClusterPuts(c, s0, s1, order, k, j)[i].cluster == k
    ensures !Misplaced(c, s0, s1, order, k) ==> forall i :: 0 <= i < |ClusterPuts(c, s0, s1, order, k, j)| ==>
      Inside(ClusterPuts(c, s0, s1, order, k, j)[i], |c.cellCharges|, s0, s1)
  {
    if j > 0 {
      ClusterPutsTargets(c, s0, s1, order, k, j - 1);
      if !Misplaced(c, s0, s1, order, k) && Kept(c, s0, s1, k, j - 1) {
        var spot := Spot(c, s0, s1, order, k, j - 1);
        assert spot.0 < s0 && spot.1 < s1;
      }
    }
  }

  /** Drawing a cluster's writes over a zero cell gives the cluster's cell. */
  lemma {:induction false} ClusterPutsAfter(c: Clusters, s0: nat, s1: nat, order: string, k: nat, a: int, b: int, j: nat)
    requires Aligned(c) && k < |c.cellCharges| && j <= |c.cellCharges[k]|
    ensures After(ClusterPuts(c, s0, s1, order, k, j), k, a, b, 0) == LastAt(c, s0, s1, order, k, a, b, j)
  {
    if j > 0 {
      var spot := Spot(c, s0, s1, order, k, j - 1);
      var tail := if Kept(c, s0, s1, k, j - 1) then [Put(k, spot.0, spot.1, c.cellCharges[k][j - 1])] else [];
      AfterConcat(ClusterPuts(c, s0, s1, order, k, j - 1), tail, k, a, b, 0);
      ClusterPutsAfter(c, s0, s1, order, k, a, b, j - 1);
      assert tail != [] ==> tail[..0] == [];
    }
  }

  /** A group's writes change exactly the matrices of its clusters, each of
      them as its own writes do. */
  lemma {:induction false} GroupPutsAfter(c: Clusters, s0: nat, s1: nat, order: string, ks: seq<nat>, k: nat, a: int, b: int, d: int)
    requires Aligned(c) && forall t :: 0 <= t < |ks| ==> ks[t] < |c.cellCharges|
    requires forall s, t :: 0 <= s < t < |ks| ==> ks[s] < ks[t]
    ensures k !in ks ==> After(GroupPuts(c, s0, s1, order, ks), k, a, b, d) == d
    ensures k in ks ==> (k < |c.cellCharges| &&
      After(GroupPuts(c, s0, s1, order, ks), k, a, b, d) == After(ClusterPuts(c, s0, s1, order, k, |c.cellCharges[k]|), k, a, b, d))
    decreases |ks|
  {
    if ks != [] {
      var init, last := ks[..|ks| - 1], ks[|ks| - 1];
      var front := GroupPuts(c, s0, s1, order, init);
      var mine := ClusterPuts(c, s0, s1, order, last, |c.cellCharges[last]|);
      AfterConcat(front, mine, k, a, b, d);
      GroupPutsAfter(c, s0, s1, order, init, k, a, b, d);
      ClusterPutsTargets(c, s0, s1, order, last, |c.cellCharges[last]|);
      if k != last {
        AfterUntouched(mine, k, a, b, After(front, k, a, b, d));
        assert k in ks ==> k in init;
      } else {
        assert k !in init;
      }
    }
  }

  /** Without misplaced clusters a group writes only inside the output. */
  lemma {:induction false} GroupPutsInside(c: Clusters, s0: nat, s1: nat, order: string, ks: seq<nat>)
    requires Aligned(c) && forall t :: 0 <= t < |ks| ==> ks[t] < |c.cellCharges|
    requires forall t :: 0 <= t < |ks| ==> !Misplaced(c, s0, s1, order, ks[t])
    ensures forall i :: 0 <= i < |GroupPuts(c, s0, s1, order, ks)| ==>
      Inside(GroupPuts(c, s0, s1, order, ks)[i], |c.cellCharges|, s0, s1)
    decreases |ks|
  {
    if ks != [] {
      var init, last := ks[..|ks| - 1], ks[|ks| - 1];
      GroupPutsInside(c, s0, s1, order, init);
      ClusterPutsTargets(c, s0, s1, order, last, |c.cellCharges[last]|);
      var front := GroupPuts(c, s0, s1, order, init);
      var mine := ClusterPuts(c, s0, s1, order, last, |c.cellCharges[last]|);
      forall i | 0 <= i < |front + mine|
        ensures Inside((front + mine)[i], |c.cellCharges|, s0, s1)
      {
        if i >= |front| {
          assert (front + mine)[i] == mine[i - |front|];
        } else {
          assert (front + mine)[i] == front[i];
        }
      }
    }
  }

  /** Drawing the group of length `unique[g]` over cells that hold their
      final value exactly for the clusters of the shorter lengths leaves
      final values exactly for the clusters of up to that length. */
  lemma GroupDrawn(c: Clusters, s0: nat, s1: nat, order: string, unique: seq<nat>, g: nat, k: nat, a: int, b: int, d: int)
    requires Aligned(c) && g < |unique| && k < |c.cellCharges|
    requires forall s, t :: 0 <= s < t < |unique| ==> unique[s] < unique[t]
    requires d == if Lengths(c.cellCharges)[k] in unique[..g] then Cell(c, s0, s1, order, k, a, b) else 0
    ensures var lengths := Lengths(c.cellCharges);
      After(GroupPuts(c, s0, s1, order, Where(lengths, unique[g], |c.cellCharges|)), k, a, b, d) ==
      if lengths[k] in unique[..g + 1] then Cell(c, s0, s1, order, k, a, b) else 0
  {
    var lengths := Lengths(c.cellCharges);
    var indices := Where(lengths, unique[g], |c.cellCharges|);
    assert unique[..g + 1] == unique[..g] + [unique[g]];
    GroupPutsAfter(c, s0, s1, order, indices, k, a, b, d);
    if lengths[k] == unique[g] {
      assert k in indices;
      assert lengths[k] !in unique[..g];
      ClusterPutsAfter(c, s0, s1, order, k, a, b, |c.cellCharges[k]|);
    } else {
      assert k !in indices;
    }
  }

  // ---------------------------------------------------------------------
  // The method

  /** Line 47: `matrices.ravel()[flatIndices] = chargesFlat`, numpy's fancy
      assignment, which leaves the last of repeated targets in place. */
  method Assign(matrices: array3<int>, ws: seq<Put>)
    requires forall i :: 0 <= i < |ws| ==> Inside(ws[i], matrices.Length0, matrices.Length1, matrices.Length2)
    modifies matrices
    ensures forall k, a, b :: 0 <= k < matrices.Length0 && 0 <= a < matrices.Length1 && 0 <= b < matrices.Length2 ==>
      matrices[k, a, b] == After(ws, k, a, b, old(matrices[k, a, b]))
  {
    for i := 0 to |ws|
      invariant forall k, a, b :: 0 <= k < matrices.Length0 && 0 <= a < matrices.Length1 && 0 <= b < matrices.Length2 ==>
        matrices[k, a, b] == After(ws[..i], k, a, b, old(matrices[k, a, b]))
    {
      var w := ws[i];
      matrices[w.cluster, w.row, w.col] := w.charge;
      assert ws[..i + 1][..i] == ws[..i];
    }
    assert ws[..|ws|] == ws;
  }

  /** The clusters whose length is in `done` are drawn into `m`, the others
      still hold zeros. */
  predicate Drawn(c: Clusters, s0: nat, s1: nat, order: string, m: array3<int>, done: seq<nat>)
    requires Aligned(c)
    reads m
  {
    && m.Length0 == |c.cellCharges| && m.Length1 == s0 && m.Length2 == s1
    && forall k, a, b :: 0 <= k < m.Length0 && 0 <= a < s0 && 0 <= b < s1 ==>
         m[k, a, b] == if Lengths(c.cellCharges)[k] in done then Cell(c, s0, s1, order, k, a, b) else 0
  }

  /** No cluster whose length is in `done` is bad. */
  predicate Checked(c: Clusters, s0: nat, s1: nat, order: string, done: seq<nat>)
    requires Aligned(c)
  {
    forall k :: 0 <= k < |c.cellCharges| && Lengths(c.cellCharges)[k] in done ==> !Bad(c, s0, s1, order, k)
  }

  /** One pass of the loop of lines 19-47: the clusters of length
      `unique[g]` are checked and drawn, or the pass raises ValueError. */
  method DrawGroup(c: Clusters, s0: nat, s1: nat, order: string, matrices: array3<int>, unique: seq<nat>, g: nat)
    returns (ok: bool)
    requires Aligned(c) && g < |unique| && unique[g] in Lengths(c.cellCharges)
    requires forall s, t :: 0 <= s < t < |unique| ==> unique[s] < unique[t]
    requires Drawn(c, s0, s1, order, matrices, unique[..g])
    modifies matrices
    ensures ok ==> Drawn(c, s0, s1, order, matrices, unique[..g + 1])
    ensures ok ==> forall k :: 0 <= k < |c.cellCharges| && Lengths(c.cellCharges)[k] == unique[g] ==> !Bad(c, s0, s1, order, k)
    ensures !ok ==> exists k :: 0 <= k < |c.cellCharges| && Bad(c, s0, s1, order, k)
  {
    var n := |c.cellCharges|;
    var lengths := Lengths(c.cellCharges);
    var length := unique[g];
    var indices := Where(lengths, length, n);
    if length == 0 {
      var k :| 0 <= k < n && lengths[k] == 0;
      assert Bad(c, s0, s1, order, k);
      return false;
    }
    if exists t :: 0 <= t < |indices| && Misplaced(c, s0, s1, order, indices[t]) {
      var t :| 0 <= t < |indices| && Misplaced(c, s0, s1, order, indices[t]);
      assert Bad(c, s0, s1, order, indices[t]);
      return false;
    }
    var puts := GroupPuts(c, s0, s1, order, indices);
    GroupPutsInside(c, s0, s1, order, indices);
    label before:
    Assign(matrices, puts);
    forall k, a, b | 0 <= k < n && 0 <= a < s0 && 0 <= b < s1
      ensures matrices[k, a, b] == if lengths[k] in unique[..g + 1] then Cell(c, s0, s1, order, k, a, b) else 0
    {
      GroupDrawn(c, s0, s1, order, unique, g, k, a, b, old@before(matrices[k, a, b]));
    }
    forall k | 0 <= k < n && lengths[k] == length
      ensures !Bad(c, s0, s1, order, k)
    {
      assert k in indices;
    }
    return true;
  }

  /** `GenerateMatrices.get`: an `n x s0 x s1` array whose matrix `k` is
      cluster `k` drawn around its seed, or the exception `get` raises. */
  method Get(c: Clusters, s0: nat, s1: nat, order: string) returns (r: Result<array3<int>>)
    requires Aligned(c)
    ensures r.Err? <==> GetError(c, s0, s1, order).Some?
    ensures r.Err? ==> r.error == GetError(c, s0, s1, order).value
    ensures r.Ok? ==> fresh(r.value)
    ensures r.Ok? ==> r.value.Length0 == |c.cellCharges| && r.value.Length1 == s0 && r.value.Length2 == s1
    ensures r.Ok? ==> forall k, a, b :: 0 <= k < r.value.Length0 && 0 <= a < s0 && 0 <= b < s1 ==>
      r.value[k, a, b] == Cell(c, s0, s1, order, k, a, b)
  {
    if !(order == "uv" || order == "vu") {
      return Err(AssertionError);
    }
    var n := |c.cellCharges|;
    if n == 0 {
      return Err(ValueError);
    }
    var lengths := Lengths(c.cellCharges);
    var unique := Unique(lengths, Bound(lengths));
    var matrices := new int[n, s0, s1]((k, a, b) => 0);
    assert unique[..0] == [];
    for g := 0 to |unique|
      invariant Drawn(c, s0, s1, order, matrices, unique[..g])
      invariant Checked(c, s0, s1, order, unique[..g])
    {
      var ok := DrawGroup(c, s0, s1, order, matrices, unique, g);
      if !ok {
        assert GetError(c, s0, s1, order) == Some(ValueError);
        return Err(ValueError);
      }
      assert unique[..g + 1] == unique[..g] + [unique[g]];
    }
    assert unique[..|unique|] == unique;
    forall k | 0 <= k < n
      ensures !Bad(c, s0, s1, order, k)
    {
      assert 0 <= lengths[k] < Bound(lengths) && lengths[k] in lengths;
    }
    assert GetError(c, s0, s1, order) == None;
    return Ok(matrices);
  }
}
