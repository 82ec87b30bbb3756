/** Cutting a cluster window out of one ladder's charge matrix
    (rootable/common/extractMatrix.py): a window of odd size around a seed
    pixel, re-centred once on its maximum and grown by two pixels in each
    direction while charge touches its border and it does not touch the
    ladder's edge. */
module ExtractMatrix {
  import opened Common
  import opened Grid

  /** The asserted bounds on the window size (the ladder's nominal shape). */
  const MaxRows := 250
  const MaxCols := 768

  /** A ladder charge matrix: rectangular and at least of the nominal shape. */
  predicate Ladder(g: Matrix)
  {
    |g| >= MaxRows && IsRect(g, |g|, |g[0]|) && |g[0]| >= MaxCols
  }

  /** The sizes pass the assertions at the top of `extractMatrix`. */
  predicate SizesAccepted(s0: int, s1: int)
  {
    s0 % 2 != 0 && s1 % 2 != 0 && s0 < MaxRows && s1 < MaxCols
  }

  /** The first cut of size `(s0, s1)` around `(u, v)` is empty. */
  predicate EmptyCut(u: int, v: int, s0: int, s1: int)
  {
    s0 < 0 || s1 < 0 || u + s0 / 2 + 1 <= 0 || v + s1 / 2 + 1 <= 0
  }

  /** `np.clip(x, a_min=lo, a_max=hi)`, that is `min(max(x, lo), hi)`. */
  function Clip(x: int, lo: int, hi: int): (r: int)
    ensures lo <= hi ==> lo <= r <= hi
    ensures lo <= x <= hi ==> r == x
    ensures x <= lo <= hi ==> r == lo
    ensures lo <= hi <= x ==> r == hi
  {
    var y := if x < lo then lo else x;
    if y > hi then hi else y
  }

  /** The bounds of one window: the rows `uLower .. uEnd - 1` and columns
      `vLower .. vEnd - 1` it covers, and the upper bounds computed for the
      first cut, which the growth test reads even after re-centring. */
  datatype Frame = Frame(uLower: int, uEnd: int, vLower: int, vEnd: int, uUpper: int, vUpper: int)

  /** The frame covers a non-empty rectangle of the ladder. */
  predicate Fits(g: Matrix, f: Frame)
    requires Ladder(g)
  {
    0 <= f.uLower < f.uEnd <= |g| && 0 <= f.vLower < f.vEnd <= |g[0]|
  }

  /** `matrixLadder[uLower:uEnd, vLower:vEnd]`. */
  function Window(g: Matrix, f: Frame): (m: Matrix)
    requires Ladder(g) && Fits(g, f)
    ensures |m| == f.uEnd - f.uLower
  {
    Slice(g, f.uLower, f.uEnd, f.vLower, f.vEnd)
  }

  /** `m` is the rectangle of `g` whose top-left corner is `(uLower, vLower)`. */
  predicate InGrid(g: Matrix, m: Matrix, uLower: int, vLower: int)
    requires Ladder(g)
  {
    |m| > 0 && |m[0]| > 0 && IsRect(m, |m|, |m[0]|) &&
    0 <= uLower && uLower + |m| <= |g| && 0 <= vLower && vLower + |m[0]| <= |g[0]| &&
    forall i, j :: 0 <= i < |m| && 0 <= j < |m[0]| ==> m[i][j] == g[uLower + i][vLower + j]
  }

  /** A frame's window is the rectangle of the ladder it names. */
  lemma WindowCells(g: Matrix, f: Frame)
    requires Ladder(g) && Fits(g, f)
    ensures InGrid(g, Window(g, f), f.uLower, f.vLower)
    ensures |Window(g, f)[0]| == f.vEnd - f.vLower
  {
    SliceCells(g, f.uLower, f.uEnd, f.vLower, f.vEnd);
  }

  /** The bounds of the first cut along one axis of length `n`: the cut of
      size `s` around `x`, clipped to the axis. */
  function Bounds(x: int, s: int, n: int): (b: (int, int))
    requires s % 2 != 0 && s < n && 0 < n
    ensures 0 <= b.0 <= n - s && 0 <= b.1 <= n
    ensures b.0 < b.1 <==> (s > 0 && x + s / 2 + 1 > 0)
    ensures b.0 < b.1 ==> b.1 - b.0 <= s
    ensures b.1 >= n <==> x + s / 2 + 1 >= n
    ensures 0 < s && 0 <= x - s / 2 <= n - s ==> b.0 == x - s / 2 && b.1 == x + s / 2 + 1
  {
    assert s == 2 * (s / 2) + 1;
    (Clip(x - s / 2, 0, n - s), Clip(x + s / 2 + 1, 0, n))
  }

  /** The upper bounds of a frame reach the ladder's far edges exactly when
      the unclipped bounds of the size-`(s0, s1)` cut around `(u, v)` do. */
  predicate UpperBounds(g: Matrix, f: Frame, u: int, v: int, s0: int, s1: int)
    requires Ladder(g)
  {
    (f.uUpper >= |g| <==> u + s0 / 2 + 1 >= |g|) && (f.vUpper >= |g[0]| <==> v + s1 / 2 + 1 >= |g[0]|)
  }

  /** The first cut of size `(s0, s1)` around `(u, v)`; ValueError when it is
      empty (numpy's argmax of an empty array). */
  function FirstCut(g: Matrix, u: int, v: int, s0: int, s1: int): (r: Result<Frame>)
    requires Ladder(g) && SizesAccepted(s0, s1)
    ensures r.Ok? ==> Fits(g, r.value) && 0 < s0 && 0 < s1
    ensures r.Ok? ==> r.value.uEnd - r.value.uLower <= s0 && r.value.vEnd - r.value.vLower <= s1
    ensures r.Ok? ==> UpperBounds(g, r.value, u, v, s0, s1)
    ensures r.Err? <==> EmptyCut(u, v, s0, s1)
    ensures r.Err? ==> r.error == ValueError
  {
    var (uLower, uUpper) := Bounds(u, s0, |g|);
    var (vLower, vUpper) := Bounds(v, s1, |g[0]|);
    if uLower >= uUpper || vLower >= vUpper then Err(ValueError)
    else Ok(Frame(uLower, uUpper, vLower, vUpper, uUpper, vUpper))
  }

  /** Without clipping at the low edges the first cut is the full
      `(s0, s1)` rectangle whose centre is `(u, v)`. */
  lemma FirstCutUnclipped(g: Matrix, u: int, v: int, s0: int, s1: int)
    requires Ladder(g) && SizesAccepted(s0, s1) && 0 < s0 && 0 < s1
    requires 0 <= u - s0 / 2 <= |g| - s0 && 0 <= v - s1 / 2 <= |g[0]| - s1
    ensures FirstCut(g, u, v, s0, s1).Ok?
    ensures
      var f := FirstCut(g, u, v, s0, s1).value;
      f.uLower == u - s0 / 2 && f.uEnd == f.uLower + s0 && f.vLower == v - s1 / 2 && f.vEnd == f.vLower + s1
  {
  }

  /** The cut of full size moved so that position `p` of the first cut
      becomes its centre; the upper bounds of the first cut are kept. */
  function Moved(g: Matrix, u: int, v: int, s0: int, s1: int, first: Frame, p: (int, int)): (r: Frame)
    requires Ladder(g)
    requires 0 < s0 < MaxRows && 0 < s1 < MaxCols
    ensures Fits(g, r) && r.uEnd - r.uLower == s0 && r.vEnd - r.vLower == s1
    ensures r.uUpper == first.uUpper && r.vUpper == first.vUpper
    ensures 0 <= u + p.0 - 2 * (s0 / 2) <= |g| - s0 ==> r.uLower == u + p.0 - 2 * (s0 / 2)
    ensures 0 <= v + p.1 - 2 * (s1 / 2) <= |g[0]| - s1 ==> r.vLower == v + p.1 - 2 * (s1 / 2)
  {
    var uLower := Clip(u + (p.0 - s0 / 2) - s0 / 2, 0, |g| - s0);
    var vLower := Clip(v + (p.1 - s1 / 2) - s1 / 2, 0, |g[0]| - s1);
    Frame(uLower, uLower + s0, vLower, vLower + s1, first.uUpper, first.vUpper)
  }

  /** The window of size `(s0, s1)` around `(u, v)`, moved once so that the
      first cut's maximum comes to the centre. */
  function Centre(g: Matrix, u: int, v: int, s0: int, s1: int): (r: Result<Frame>)
    requires Ladder(g) && SizesAccepted(s0, s1)
    ensures r.Ok? ==> Fits(g, r.value)
    ensures r.Ok? ==> r.value.uEnd - r.value.uLower <= s0 && r.value.vEnd - r.value.vLower <= s1
    ensures r.Ok? ==> UpperBounds(g, r.value, u, v, s0, s1)
    ensures r.Err? <==> EmptyCut(u, v, s0, s1)
    ensures r.Err? ==> r.error == ValueError
  {
    match FirstCut(g, u, v, s0, s1)
    case Err(e) => Err(e)
    case Ok(first) =>
      WindowCells(g, first);
      var p := ArgMax2D(Window(g, first));
      if p == (s0 / 2, s1 / 2) then Ok(first) else Ok(Moved(g, u, v, s0, s1, first, p))
  }

  /** The moved window's centre pixel is the pixel at `p` of an unclipped
      first cut, when the moved window is not clipped either. */
  lemma MovedCentre(g: Matrix, u: int, v: int, s0: int, s1: int, first: Frame, p: (int, int))
    requires Ladder(g) && 0 < s0 < MaxRows && 0 < s1 < MaxCols && Fits(g, first)
    requires first.uLower == u - s0 / 2 && first.vLower == v - s1 / 2
    requires 0 <= p.0 < first.uEnd - first.uLower && 0 <= p.1 < first.vEnd - first.vLower
    requires 0 <= u + p.0 - 2 * (s0 / 2) <= |g| - s0 && 0 <= v + p.1 - 2 * (s1 / 2) <= |g[0]| - s1
    ensures InRange(Window(g, Moved(g, u, v, s0, s1, first, p)), s0 / 2, s1 / 2)
    ensures Window(g, Moved(g, u, v, s0, s1, first, p))[s0 / 2][s1 / 2] == Window(g, first)[p.0][p.1]
  {
    var c := Moved(g, u, v, s0, s1, first, p);
    WindowCells(g, first);
    WindowCells(g, c);
    assert Window(g, first)[p.0][p.1] == g[first.uLower + p.0][first.vLower + p.1];
    assert Window(g, c)[s0 / 2][s1 / 2] == g[c.uLower + s0 / 2][c.vLower + s1 / 2];
  }

  /** When the first cut is not clipped at the low edges and the moved cut
      is not clipped either, the first cut's maximum lands on the centre
      pixel of the window `Centre` picks. */
  lemma CentreMovesMaximumToCentre(g: Matrix, u: int, v: int, s0: int, s1: int)
    requires Ladder(g) && SizesAccepted(s0, s1) && 0 < s0 && 0 < s1
    requires 0 <= u - s0 / 2 <= |g| - s0 && 0 <= v - s1 / 2 <= |g[0]| - s1
    ensures FirstCut(g, u, v, s0, s1).Ok? && Centre(g, u, v, s0, s1).Ok?
    ensures
      var first := Window(g, FirstCut(g, u, v, s0, s1).value);
      var p := ArgMax2D(first);
      var m := Window(g, Centre(g, u, v, s0, s1).value);
      0 <= u + p.0 - 2 * (s0 / 2) <= |g| - s0 && 0 <= v + p.1 - 2 * (s1 / 2) <= |g[0]| - s1 ==>
        InRange(m, s0 / 2, s1 / 2) && m[s0 / 2][s1 / 2] == Max2D(first)
  {
    FirstCutUnclipped(g, u, v, s0, s1);
    var first := FirstCut(g, u, v, s0, s1).value;
    WindowCells(g, first);
    var p := ArgMax2D(Window(g, first));
    if p != (s0 / 2, s1 / 2) && 0 <= u + p.0 - 2 * (s0 / 2) <= |g| - s0 && 0 <= v + p.1 - 2 * (s1 / 2) <= |g[0]| - s1 {
      MovedCentre(g, u, v, s0, s1, first, p);
    }
  }

  /** The pixels on the window's border: first row, last row, first column,
      last column. */
  function Border(m: Matrix): (b: seq<int>)
    requires |m| > 0 && |m[0]| > 0 && IsRect(m, |m|, |m[0]|)
    ensures |b| == 2 * |m[0]| + 2 * |m|
  {
    m[0] + m[|m| - 1] + Column(m, 0) + Column(m, |m[0]| - 1)
  }

  /** The window grows while charge sits on its border and it touches none
      of the ladder's edges. */
  predicate Grows(g: Matrix, f: Frame)
    requires Ladder(g) && Fits(g, f)
  {
    WindowCells(g, f);
    CountNonZero(Border(Window(g, f))) > 0 &&
    !(f.uLower <= 0 || f.uUpper >= |g| || f.vLower <= 0 || f.vUpper >= |g[0]|)
  }

  /** What `extractMatrix` returns (the window, the global positions of its
      non-zero pixels and of its seed), plus the window's lower bounds and
      the size at which growth stopped. */
  datatype Extraction = Extraction(
    matrix: Matrix,
    globalU: seq<int>, globalV: seq<int>,
    seedU: int, seedV: int,
    uLower: int, vLower: int,
    uSize: int, vSize: int)

  /** `(i, j)` is a pixel of the extracted window. */
  predicate InWindow(e: Extraction, i: int, j: int)
  {
    e.uLower <= i < e.uLower + |e.matrix| && e.vLower <= j < e.vLower + Width(e.matrix)
  }

  /** The reported positions are exactly the non-zero pixels of the window,
      in global coordinates, one per pixel. */
  ghost predicate ReportsNonZero(g: Matrix, e: Extraction)
    requires Ladder(g)
    requires InGrid(g, e.matrix, e.uLower, e.vLower)
  {
    |e.globalU| == |e.globalV| == CountNonZero2D(e.matrix) &&
    (forall k :: 0 <= k < |e.globalU| ==>
      InWindow(e, e.globalU[k], e.globalV[k]) && g[e.globalU[k]][e.globalV[k]] != 0) &&
    (forall i, j :: InWindow(e, i, j) && g[i][j] != 0
      ==> exists k :: 0 <= k < |e.globalU| && e.globalU[k] == i && e.globalV[k] == j)
  }

  /** The seed is the window's first maximum in row-major order. */
  ghost predicate SeedIsFirstMaximum(g: Matrix, e: Extraction)
    requires Ladder(g)
    requires InGrid(g, e.matrix, e.uLower, e.vLower)
  {
    InWindow(e, e.seedU, e.seedV) &&
    forall i, j :: InWindow(e, i, j) ==>
      g[i][j] <= g[e.seedU][e.seedV] &&
      (RowMajorBefore(i, j, e.seedU, e.seedV) ==> g[i][j] < g[e.seedU][e.seedV])
  }

  /** The non-zero pixels of the final window in global coordinates and its
      first maximum. */
  function Finish(g: Matrix, f: Frame, s0: int, s1: int): (r: Extraction)
    requires Ladder(g) && Fits(g, f)
    ensures r.matrix == Window(g, f) && r.uLower == f.uLower && r.vLower == f.vLower
    ensures r.uSize == s0 && r.vSize == s1
    ensures InGrid(g, r.matrix, r.uLower, r.vLower)
  {
    WindowCells(g, f);
    var m := Window(g, f);
    var ps := NonZero(m);
    var seed := ArgMax2D(m);
    Extraction(
      m,
      seq(|ps|, k requires 0 <= k < |ps| => ps[k].0 + f.uLower),
      seq(|ps|, k requires 0 <= k < |ps| => ps[k].1 + f.vLower),
      seed.0 + f.uLower, seed.1 + f.vLower,
      f.uLower, f.vLower, s0, s1)
  }

  /** The reported positions are those of `nonzero` on the window, shifted
      by the window's lower bounds. */
  predicate ShiftedNonZero(e: Extraction)
  {
    |e.globalU| == |e.globalV| == |NonZero(e.matrix)| &&
    forall k :: 0 <= k < |e.globalU| ==>
      e.globalU[k] == NonZero(e.matrix)[k].0 + e.uLower && e.globalV[k] == NonZero(e.matrix)[k].1 + e.vLower
  }

  lemma FinishShifted(g: Matrix, f: Frame, s0: int, s1: int)
    requires Ladder(g) && Fits(g, f)
    ensures ShiftedNonZero(Finish(g, f, s0, s1))
  {
  }

  /** Every reported position is a non-zero pixel of the window. */
  lemma PositionsSound(g: Matrix, e: Extraction)
    requires Ladder(g) && InGrid(g, e.matrix, e.uLower, e.vLower) && ShiftedNonZero(e)
    ensures
      |e.globalU| == |e.globalV| == CountNonZero2D(e.matrix) &&
      forall k :: 0 <= k < |e.globalU| ==>
        InWindow(e, e.globalU[k], e.globalV[k]) && g[e.globalU[k]][e.globalV[k]] != 0
  {
    var m := e.matrix;
    NonZeroListed(m);
    var ps := NonZero(m);
    forall k | 0 <= k < |e.globalU|
      ensures InWindow(e, e.globalU[k], e.globalV[k]) && g[e.globalU[k]][e.globalV[k]] != 0
    {
      assert m[ps[k].0][ps[k].1] == g[e.uLower + ps[k].0][e.vLower + ps[k].1];
    }
  }

  /** Every non-zero pixel of the window is reported. */
  lemma PositionsComplete(g: Matrix, e: Extraction)
    requires Ladder(g) && InGrid(g, e.matrix, e.uLower, e.vLower) && ShiftedNonZero(e)
    ensures
      forall i, j :: InWindow(e, i, j) && g[i][j] != 0
        ==> exists k :: 0 <= k < |e.globalU| && e.globalU[k] == i && e.globalV[k] == j
  {
    var m := e.matrix;
    NonZeroComplete(m);
    var ps := NonZero(m);
    forall i, j | InWindow(e, i, j) && g[i][j] != 0
      ensures exists k :: 0 <= k < |e.globalU| && e.globalU[k] == i && e.globalV[k] == j
    {
      assert m[i - e.uLower][j - e.vLower] == g[i][j];
      assert InRange(m, i - e.uLower, j - e.vLower);
      var k :| 0 <= k < |ps| && ps[k] == (i - e.uLower, j - e.vLower);
      assert e.globalU[k] == i && e.globalV[k] == j;
    }
  }

  lemma FinishPositions(g: Matrix, f: Frame, s0: int, s1: int)
    requires Ladder(g) && Fits(g, f)
    requires InGrid(g, Finish(g, f, s0, s1).matrix, f.uLower, f.vLower)
    ensures ReportsNonZero(g, Finish(g, f, s0, s1))
  {
    FinishShifted(g, f, s0, s1);
    PositionsSound(g, Finish(g, f, s0, s1));
    PositionsComplete(g, Finish(g, f, s0, s1));
  }

  lemma FinishSeed(g: Matrix, f: Frame, s0: int, s1: int)
    requires Ladder(g) && Fits(g, f)
    requires InGrid(g, Finish(g, f, s0, s1).matrix, f.uLower, f.vLower)
    ensures SeedIsFirstMaximum(g, Finish(g, f, s0, s1))
  {
    var e := Finish(g, f, s0, s1);
    var p := ArgMax2D(e.matrix);
    assert e.seedU == p.0 + e.uLower && e.seedV == p.1 + e.vLower;
    SeedFromArgMax(g, e);
  }

  /** A window whose seed is the first maximum of its matrix, shifted by
      the window's lower corner, has its seed at the first maximum of the
      plane inside the window. */
  lemma SeedFromArgMax(g: Matrix, e: Extraction)
    requires Ladder(g) && InGrid(g, e.matrix, e.uLower, e.vLower)
    requires e.seedU == ArgMax2D(e.matrix).0 + e.uLower && e.seedV == ArgMax2D(e.matrix).1 + e.vLower
    ensures SeedIsFirstMaximum(g, e)
  {
    var m := e.matrix;
    var p := ArgMax2D(m);
    ArgMax2DIsFirstMax(m);
    forall i, j | InWindow(e, i, j)
      ensures g[i][j] <= g[e.seedU][e.seedV]
      ensures RowMajorBefore(i, j, e.seedU, e.seedV) ==> g[i][j] < g[e.seedU][e.seedV]
    {
      assert InRange(m, i - e.uLower, j - e.vLower);
      assert m[i - e.uLower][j - e.vLower] == g[i][j];
    }
  }

  /** Growth stopped: the window's border carries no charge or the window
      touches an edge of the ladder. */
  predicate Stopped(g: Matrix, u: int, v: int, e: Extraction)
    requires Ladder(g)
    requires InGrid(g, e.matrix, e.uLower, e.vLower)
  {
    CountNonZero(Border(e.matrix)) == 0 ||
    e.uLower == 0 || u + e.uSize / 2 + 1 >= |g| || e.vLower == 0 || v + e.vSize / 2 + 1 >= |g[0]|
  }

  /** The final size of a successful extraction: accepted by the
      assertions and reached from the requested one in steps of two. */
  predicate FinalSize(s0: int, s1: int, uSize: int, vSize: int)
  {
    s0 <= uSize && uSize - s0 == vSize - s1 && SizesAccepted(uSize, vSize)
  }

  /** The recursion of `extractMatrix`: the assertions, the first cut and
      the growth test at each size, up to the size at which the window stops
      growing. */
  function Grow(g: Matrix, u: int, v: int, s0: int, s1: int): (r: Result<(int, int)>)
    requires Ladder(g)
    ensures !SizesAccepted(s0, s1) ==> r == Err(AssertionError)
    ensures r.Err? ==> r.error == AssertionError || r.error == ValueError
    ensures r.Ok? ==> FinalSize(s0, s1, r.value.0, r.value.1)
    ensures r.Ok? ==>
      Centre(g, u, v, r.value.0, r.value.1).Ok? && !Grows(g, Centre(g, u, v, r.value.0, r.value.1).value)
    decreases MaxRows - s0
  {
    if !SizesAccepted(s0, s1) then Err(AssertionError)
    else
      match Centre(g, u, v, s0, s1)
      case Err(e) => Err(e)
      case Ok(f) => if Grows(g, f) then Grow(g, u, v, s0 + 2, s1 + 2) else Ok((s0, s1))
  }

  /** `extractMatrix(matrixLadder, u, v, matrixSize=(s0, s1))`: the window
      `Centre` picks at the size where growth stops, finished. */
  function Extract(g: Matrix, u: int, v: int, s0: int, s1: int): (r: Result<Extraction>)
    requires Ladder(g)
    ensures !SizesAccepted(s0, s1) ==> r == Err(AssertionError)
    ensures r.Err? ==> r.error == AssertionError || r.error == ValueError
    ensures r.Ok? ==> FinalSize(s0, s1, r.value.uSize, r.value.vSize)
    ensures r.Ok? ==> InGrid(g, r.value.matrix, r.value.uLower, r.value.vLower)
  {
    match Grow(g, u, v, s0, s1)
    case Err(e) => Err(e)
    case Ok(size) => Ok(Finish(g, Centre(g, u, v, size.0, size.1).value, size.0, size.1))
  }

  /** What a successful extraction promises: a rectangle of the ladder of at
      most the final size, the positions of exactly its non-zero pixels, its
      first maximum as the seed, and a reason why growth stopped. */
  lemma ExtractSpec(g: Matrix, u: int, v: int, s0: int, s1: int)
    requires Ladder(g)
    requires Extract(g, u, v, s0, s1).Ok?
    ensures
      var e := Extract(g, u, v, s0, s1).value;
      InGrid(g, e.matrix, e.uLower, e.vLower) &&
      |e.matrix| <= e.uSize && |e.matrix[0]| <= e.vSize &&
      ReportsNonZero(g, e) && SeedIsFirstMaximum(g, e) && Stopped(g, u, v, e)
  {
    var size := Grow(g, u, v, s0, s1).value;
    var f := Centre(g, u, v, size.0, size.1).value;
    WindowCells(g, f);
    FinishPositions(g, f, size.0, size.1);
    FinishSeed(g, f, size.0, size.1);
  }

  /** Growing never empties a non-empty first cut, so a ValueError can only
      come from the requested size. */
  lemma {:induction false} GrowValueErrorOnlyIfEmpty(g: Matrix, u: int, v: int, s0: int, s1: int)
    requires Ladder(g)
    requires Grow(g, u, v, s0, s1) == Err(ValueError)
    ensures SizesAccepted(s0, s1) && EmptyCut(u, v, s0, s1)
    decreases MaxRows - s0
  {
    if SizesAccepted(s0, s1) && !EmptyCut(u, v, s0, s1) {
      GrowValueErrorOnlyIfEmpty(g, u, v, s0 + 2, s1 + 2);
      assert false;
    }
  }

  /** ValueError is raised exactly when the assertions pass and the first
      cut is empty. */
  lemma ExtractValueError(g: Matrix, u: int, v: int, s0: int, s1: int)
    requires Ladder(g)
    ensures Extract(g, u, v, s0, s1) == Err(ValueError) <==> SizesAccepted(s0, s1) && EmptyCut(u, v, s0, s1)
  {
    if Extract(g, u, v, s0, s1) == Err(ValueError) {
      GrowValueErrorOnlyIfEmpty(g, u, v, s0, s1);
    }
  }
}
