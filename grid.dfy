/** Dense integer charge matrices (numpy 2-D arrays) and the numpy
    operations the pipeline applies to them: slicing, row-major argmax,
    `nonzero`, `sum` and `count_nonzero`. */
module Grid {
  import opened Common

  type Matrix = seq<seq<int>>

  /** `m` has shape (rows, cols). */
  predicate IsRect(m: Matrix, rows: int, cols: int)
  {
    |m| == rows && forall i :: 0 <= i < |m| ==> |m[i]| == cols
  }

  /** Every row of `m` has the same length as the first. */
  predicate Rectangular(m: Matrix)
  {
    |m| > 0 ==> IsRect(m, |m|, |m[0]|)
  }

  function Width(m: Matrix): nat
  {
    if |m| == 0 then 0 else |m[0]|
  }

  /** `g[r0:r1, c0:c1]` for in-range bounds. */
  function Slice(g: Matrix, r0: int, r1: int, c0: int, c1: int): (m: Matrix)
    requires 0 <= r0 <= r1 <= |g|
    requires 0 <= c0 <= c1
    requires forall i :: r0 <= i < r1 ==> c1 <= |g[i]|
    ensures |m| == r1 - r0
  {
    seq(r1 - r0, i requires 0 <= i < r1 - r0 => g[r0 + i][c0..c1])
  }

  /** The slice has shape (r1 - r0, c1 - c0) and holds the cells of `g` it covers. */
  lemma SliceCells(g: Matrix, r0: int, r1: int, c0: int, c1: int)
    requires 0 <= r0 <= r1 <= |g|
    requires 0 <= c0 <= c1
    requires forall i :: r0 <= i < r1 ==> c1 <= |g[i]|
    ensures IsRect(Slice(g, r0, r1, c0, c1), r1 - r0, c1 - c0)
    ensures forall i, j :: 0 <= i < r1 - r0 && 0 <= j < c1 - c0 ==> Slice(g, r0, r1, c0, c1)[i][j] == g[r0 + i][c0 + j]
  {
  }

  /** (i, j) comes strictly before (a, b) in row-major (C) order. */
  predicate RowMajorBefore(i: int, j: int, a: int, b: int)
  {
    i < a || (i == a && j < b)
  }

  predicate InRange(m: Matrix, i: int, j: int)
  {
    0 <= i < |m| && 0 <= j < |m[i]|
  }

  /** `p` is the first maximum of `m` in row-major order. */
  ghost predicate IsFirstMax2D(m: Matrix, p: (int, int))
  {
    InRange(m, p.0, p.1) &&
    forall i, j :: 0 <= i < |m| && 0 <= j < |m[i]| ==>
      m[i][j] <= m[p.0][p.1] && (RowMajorBefore(i, j, p.0, p.1) ==> m[i][j] < m[p.0][p.1])
  }

  /** `np.unravel_index(m.argmax(), m.shape)`. */
  function ArgMax2D(m: Matrix): (p: (nat, nat))
    requires |m| > 0 && forall i :: 0 <= i < |m| ==> |m[i]| > 0
    ensures InRange(m, p.0, p.1)
  {
    if |m| == 1 then (0, ArgMax(m[0]))
    else
      var p := ArgMax2D(m[..|m| - 1]);
      var q := ArgMax(m[|m| - 1]);
      if m[|m| - 1][q] > m[p.0][p.1] then (|m| - 1, q) else p
  }

  /** The position `ArgMax2D` picks is the first maximum in row-major order. */
  lemma {:induction false} ArgMax2DIsFirstMax(m: Matrix)
    requires |m| > 0 && forall i :: 0 <= i < |m| ==> |m[i]| > 0
    ensures IsFirstMax2D(m, ArgMax2D(m))
    decreases |m|
  {
    if |m| > 1 {
      var init := m[..|m| - 1];
      ArgMax2DIsFirstMax(init);
      var p := ArgMax2D(init);
      var q := ArgMax(m[|m| - 1]);
      assert forall i :: 0 <= i < |init| ==> init[i] == m[i];
    }
  }

  /** The maximum of a non-empty matrix. */
  function Max2D(m: Matrix): int
    requires |m| > 0 && forall i :: 0 <= i < |m| ==> |m[i]| > 0
  {
    var p := ArgMax2D(m);
    m[p.0][p.1]
  }

  /** Column indices of the non-zero entries of one row, tagged with row `i`. */
  function NonZeroInRow(row: seq<int>, i: int): seq<(int, int)>
  {
    if row == [] then []
    else NonZeroInRow(row[..|row| - 1], i) + (if row[|row| - 1] != 0 then [(i, |row| - 1)] else [])
  }

  /** `np.nonzero(m)`, zipped: the positions of the non-zero entries in row-major order. */
  function NonZero(m: Matrix): seq<(int, int)>
  {
    if m == [] then [] else NonZero(m[..|m| - 1]) + NonZeroInRow(m[|m| - 1], |m| - 1)
  }

  lemma {:induction false} NonZeroInRowSpec(row: seq<int>, i: int)
    ensures forall k :: 0 <= k < |NonZeroInRow(row, i)| ==>
      NonZeroInRow(row, i)[k].0 == i && 0 <= NonZeroInRow(row, i)[k].1 < |row| && row[NonZeroInRow(row, i)[k].1] != 0
    ensures forall j :: 0 <= j < |row| && row[j] != 0 ==> (i, j) in NonZeroInRow(row, i)
    ensures |NonZeroInRow(row, i)| == CountNonZero(row)
    decreases |row|
  {
    if row != [] {
      NonZeroInRowSpec(row[..|row| - 1], i);
    }
  }

  /** Every listed position holds a non-zero entry, every non-zero entry is
      listed, and there are exactly `count_nonzero` of them. */
  lemma {:induction false} NonZeroSpec(m: Matrix)
    ensures forall k :: 0 <= k < |NonZero(m)| ==> InRange(m, NonZero(m)[k].0, NonZero(m)[k].1) && m[NonZero(m)[k].0][NonZero(m)[k].1] != 0
    ensures forall i, j :: InRange(m, i, j) && m[i][j] != 0 ==> (i, j) in NonZero(m)
    ensures |NonZero(m)| == CountNonZero2D(m)
    decreases |m|
  {
    if m != [] {
      var init := m[..|m| - 1];
      var last := m[|m| - 1];
      NonZeroSpec(init);
      NonZeroInRowSpec(last, |m| - 1);
      assert NonZero(m) == NonZero(init) + NonZeroInRow(last, |m| - 1);
      forall i, j | InRange(m, i, j) && m[i][j] != 0 ensures (i, j) in NonZero(m) {
        if i < |m| - 1 {
          assert InRange(init, i, j) && init[i][j] == m[i][j];
        }
      }
    }
  }

  /** The listing half of `NonZeroSpec`, for proofs that do not need the
      other half in view. */
  lemma NonZeroListed(m: Matrix)
    ensures forall k :: 0 <= k < |NonZero(m)| ==> InRange(m, NonZero(m)[k].0, NonZero(m)[k].1) && m[NonZero(m)[k].0][NonZero(m)[k].1] != 0
    ensures |NonZero(m)| == CountNonZero2D(m)
  {
    NonZeroSpec(m);
  }

  /** The completeness half of `NonZeroSpec`. */
  lemma NonZeroComplete(m: Matrix)
    ensures forall i, j :: InRange(m, i, j) && m[i][j] != 0 ==> (i, j) in NonZero(m)
  {
    NonZeroSpec(m);
  }

  /** `np.sum(m)`. */
  function Sum2D(m: Matrix): int
  {
    if m == [] then 0 else Sum2D(m[..|m| - 1]) + Sum(m[|m| - 1])
  }

  /** `np.count_nonzero(m)`. */
  function CountNonZero2D(m: Matrix): nat
  {
    if m == [] then 0 else CountNonZero2D(m[..|m| - 1]) + CountNonZero(m[|m| - 1])
  }

  lemma {:induction false} Sum2DConcat(a: Matrix, b: Matrix)
    ensures Sum2D(a + b) == Sum2D(a) + Sum2D(b)
    ensures CountNonZero2D(a + b) == CountNonZero2D(a) + CountNonZero2D(b)
    decreases |b|
  {
    if b == [] {
      assert a + b == a;
    } else {
      assert (a + b)[..|a + b| - 1] == a + b[..|b| - 1];
      Sum2DConcat(a, b[..|b| - 1]);
    }
  }

  /** `m[rows, cols]` for the positions of `nonzero`: the listed values, in order. */
  function ValuesAt(m: Matrix, ps: seq<(int, int)>): (r: seq<int>)
    requires forall k :: 0 <= k < |ps| ==> 0 <= ps[k].0 < |m| && 0 <= ps[k].1 < |m[ps[k].0]|
    ensures |r| == |ps| && forall k :: 0 <= k < |ps| ==> r[k] == m[ps[k].0][ps[k].1]
  {
    seq(|ps|, k requires 0 <= k < |ps| => m[ps[k].0][ps[k].1])
  }

  /** Column `j` of a matrix. */
  function Column(m: Matrix, j: int): (c: seq<int>)
    requires 0 <= j
    requires forall i :: 0 <= i < |m| ==> j < |m[i]|
    ensures |c| == |m| && forall i :: 0 <= i < |m| ==> c[i] == m[i][j]
  {
    seq(|m|, i requires 0 <= i < |m| => m[i][j])
  }

  /** `c[x, y] = value` on a dense matrix. */
  function Set2D(m: Matrix, x: int, y: int, value: int): (r: Matrix)
    requires InRange(m, x, y)
    ensures |r| == |m| && forall i :: 0 <= i < |m| ==> |r[i]| == |m[i]|
    ensures forall i, j :: InRange(m, i, j) ==> r[i][j] == if i == x && j == y then value else m[i][j]
  {
    m[x := m[x][y := value]]
  }

  /** An all-zero matrix of shape (rows, cols). */
  function Zeros(rows: nat, cols: nat): (z: Matrix)
    ensures IsRect(z, rows, cols) && forall i, j :: InRange(z, i, j) ==> z[i][j] == 0
  {
    seq(rows, _ => seq(cols, _ => 0))
  }
}
