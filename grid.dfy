/** The spatial fields of the frame generators: a coordinate grid centred on the
    frame midpoint (`on_grid`) and the two scalar fields evaluated on it
    (`sumofsquares` and the closure returned by `random_coordsum`). */
module Grid {
  import opened Common

  /** `np.arange(n)`: the indices 0, 1, ..., n - 1 as numbers. */
  function Arange(n: nat): (v: seq<real>)
    ensures |v| == n
  {
    seq(n, i => i as real)
  }

  /** Subtracting a scalar from a vector, element by element. */
  function Shift(v: seq<real>, c: real): (u: seq<real>)
    ensures |u| == |v|
  {
    seq(|v|, i requires 0 <= i < |v| => v[i] - c)
  }

  /** One axis of the grid: `np.arange(n) - n/2`, with real (not floor) division. */
  function Centred(n: nat): (v: seq<real>)
    ensures |v| == n
  {
    Shift(Arange(n), n as real / 2.0)
  }

  /** The first array of `np.meshgrid(x, y, indexing='ij')`: X varies along the first axis. */
  function MeshX(x: seq<real>, y: seq<real>): (m: Matrix<real>)
    ensures Shaped(m, |x|, |y|)
  {
    seq(|x|, i requires 0 <= i < |x| => seq(|y|, j => x[i]))
  }

  /** The second array of `np.meshgrid(x, y, indexing='ij')`: Y varies along the second axis. */
  function MeshY(x: seq<real>, y: seq<real>): (m: Matrix<real>)
    ensures Shaped(m, |x|, |y|)
  {
    seq(|x|, i => y)
  }

  predicate SameShape(X: Matrix<real>, Y: Matrix<real>)
  {
    |X| == |Y| && forall i :: 0 <= i < |X| ==> |X[i]| == |Y[i]|
  }

  /** `sumofsquares(X, Y)`: `X**2 + Y**2`, element by element. */
  function SumOfSquares(X: Matrix<real>, Y: Matrix<real>): (m: Matrix<real>)
    requires SameShape(X, Y)
    ensures SameShape(m, X)
  {
    seq(|X|, i requires 0 <= i < |X| =>
      seq(|X[i]|, j requires 0 <= j < |X[i]| => X[i][j] * X[i][j] + Y[i][j] * Y[i][j]))
  }

  /** The `_func` closure of `random_coordsum`: `X*xweight + Y*yweight`, element by element. */
  function CoordSum(xweight: real, yweight: real, X: Matrix<real>, Y: Matrix<real>): (m: Matrix<real>)
    requires SameShape(X, Y)
    ensures SameShape(m, X)
  {
    seq(|X|, i requires 0 <= i < |X| =>
      seq(|X[i]|, j requires 0 <= j < |X[i]| => X[i][j] * xweight + Y[i][j] * yweight))
  }

  /** A field function as a value: `sumofsquares`, or a `random_coordsum()` closure with its two weights. */
  datatype Spatial = SumOfSquaresField | CoordSumField(xweight: real, yweight: real)

  function Apply(s: Spatial, X: Matrix<real>, Y: Matrix<real>): (m: Matrix<real>)
    requires SameShape(X, Y)
    ensures SameShape(m, X)
  {
    match s
    case SumOfSquaresField => SumOfSquares(X, Y)
    case CoordSumField(xw, yw) => CoordSum(xw, yw, X, Y)
  }

  /** `on_grid(func)(width, height)`: the field evaluated on the centred `width x height` grid. */
  function OnGrid(s: Spatial, width: nat, height: nat): (m: Matrix<real>)
    ensures Shaped(m, width, height)
  {
    var x := Centred(width);
    var y := Centred(height);
    Apply(s, MeshX(x, y), MeshY(x, y))
  }

  /** The value a field takes at the single point (x, y). */
  function FieldAt(s: Spatial, x: real, y: real): real
  {
    match s
    case SumOfSquaresField => x * x + y * y
    case CoordSumField(xw, yw) => x * xw + y * yw
  }

  /** The coordinate of index i on an axis of n cells. */
  function Coord(n: nat, i: int): real
  {
    i as real - n as real / 2.0
  }

  /** Cell (i, j) of the grid holds the field at X = i - width/2, Y = j - height/2. */
  lemma OnGridAt(s: Spatial, width: nat, height: nat, i: nat, j: nat)
    requires i < width && j < height
    ensures OnGrid(s, width, height)[i][j] == FieldAt(s, Coord(width, i), Coord(height, j))
  {
    var x, y := Centred(width), Centred(height);
    assert MeshX(x, y)[i][j] == x[i] == Coord(width, i);
    assert MeshY(x, y)[i][j] == y[j] == Coord(height, j);
  }

  /** Entry (0, 0) lies at (-width/2, -height/2). */
  lemma OnGridOrigin(s: Spatial, width: nat, height: nat)
    requires width > 0 && height > 0
    ensures OnGrid(s, width, height)[0][0]
         == FieldAt(s, -(width as real / 2.0), -(height as real / 2.0))
  {
    OnGridAt(s, width, height, 0, 0);
  }

  lemma SquareNonNegative(x: real)
    ensures x * x >= 0.0
  {
    if x < 0.0 {
      assert x * x == (-x) * (-x);
    }
  }

  /** Every value of the `sumofsquares` grid is non-negative. */
  lemma SumOfSquaresNonNegative(width: nat, height: nat, i: nat, j: nat)
    requires i < width && j < height
    ensures OnGrid(SumOfSquaresField, width, height)[i][j] >= 0.0
  {
    OnGridAt(SumOfSquaresField, width, height, i, j);
    SquareNonNegative(Coord(width, i));
    SquareNonNegative(Coord(height, j));
  }

  /** The `sumofsquares` grid is zero exactly at the midpoint cell (width/2, height/2),
      which is a cell only when both sides are even. */
  lemma SumOfSquaresZeroIff(width: nat, height: nat, i: nat, j: nat)
    requires i < width && j < height
    ensures OnGrid(SumOfSquaresField, width, height)[i][j] == 0.0 <==> 2 * i == width && 2 * j == height
  {
    OnGridAt(SumOfSquaresField, width, height, i, j);
    var x, y := Coord(width, i), Coord(height, j);
    SquareNonNegative(x);
    SquareNonNegative(y);
    if x != 0.0 {
      if x < 0.0 { assert x * x > 0.0 by { assert (-x) * (-x) > 0.0; } }
      else { assert x * x > 0.0; }
    }
    if y != 0.0 {
      if y < 0.0 { assert y * y > 0.0 by { assert (-y) * (-y) > 0.0; } }
      else { assert y * y > 0.0; }
    }
  }

  /** With even sides the midpoint value is exactly 0. */
  lemma SumOfSquaresCentreZero(width: nat, height: nat)
    requires width > 0 && height > 0 && width % 2 == 0 && height % 2 == 0
    ensures OnGrid(SumOfSquaresField, width, height)[width / 2][height / 2] == 0.0
  {
    SumOfSquaresZeroIff(width, height, width / 2, height / 2);
  }

  /** The grid is centred: mirroring a cell through the midpoint negates both coordinates. */
  lemma CoordMirror(n: nat, i: nat)
    requires 0 < i < n
    ensures Coord(n, n - i) == -Coord(n, i)
  {
  }

  /** Mirroring a cell through the midpoint leaves the `sumofsquares` value unchanged. */
  lemma SumOfSquaresSymmetric(width: nat, height: nat, i: nat, j: nat)
    requires 0 < i < width && 0 < j < height
    ensures OnGrid(SumOfSquaresField, width, height)[width - i][height - j]
         == OnGrid(SumOfSquaresField, width, height)[i][j]
  {
    OnGridAt(SumOfSquaresField, width, height, i, j);
    OnGridAt(SumOfSquaresField, width, height, width - i, height - j);
    CoordMirror(width, i);
    CoordMirror(height, j);
  }

  /** Mirroring a cell through the midpoint negates the coordinate-sum value. */
  lemma CoordSumAntisymmetric(xweight: real, yweight: real, width: nat, height: nat, i: nat, j: nat)
    requires 0 < i < width && 0 < j < height
    ensures OnGrid(CoordSumField(xweight, yweight), width, height)[width - i][height - j]
         == -OnGrid(CoordSumField(xweight, yweight), width, height)[i][j]
  {
    var s := CoordSumField(xweight, yweight);
    OnGridAt(s, width, height, i, j);
    OnGridAt(s, width, height, width - i, height - j);
    CoordMirror(width, i);
    CoordMirror(height, j);
  }

  function Abs(x: real): real
  {
    if x < 0.0 then -x else x
  }

  lemma ScaledBound(x: real, w: real)
    requires Between(w, -1.0, 1.0)
    ensures Abs(x * w) <= Abs(x)
  {
    if x >= 0.0 {
      if w >= 0.0 { assert x * w <= x * 1.0; } else { assert x * (-w) <= x * 1.0; }
    } else {
      if w >= 0.0 { assert (-x) * w <= (-x) * 1.0; } else { assert (-x) * (-w) <= (-x) * 1.0; }
    }
  }

  /** A linear form with weights in [-1, 1] is at most |x| + |y| in size. */
  lemma WeightedSumBound(x: real, y: real, xweight: real, yweight: real)
    requires Between(xweight, -1.0, 1.0) && Between(yweight, -1.0, 1.0)
    ensures Abs(x * xweight + y * yweight) <= Abs(x) + Abs(y)
  {
    ScaledBound(x, xweight);
    ScaledBound(y, yweight);
    var a, b := x * xweight, y * yweight;
    assert Abs(a + b) <= Abs(a) + Abs(b);
  }

  /** With both weights in [-1, 1], a coordinate-sum value is at most |X| + |Y| in size. */
  lemma CoordSumBounded(xweight: real, yweight: real, width: nat, height: nat, i: nat, j: nat)
    requires Between(xweight, -1.0, 1.0) && Between(yweight, -1.0, 1.0)
    requires i < width && j < height
    ensures Abs(OnGrid(CoordSumField(xweight, yweight), width, height)[i][j])
         <= Abs(Coord(width, i)) + Abs(Coord(height, j))
  {
    OnGridAt(CoordSumField(xweight, yweight), width, height, i, j);
    WeightedSumBound(Coord(width, i), Coord(height, j), xweight, yweight);
  }
}
