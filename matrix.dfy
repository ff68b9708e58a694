/** The mathematics behind the 4x4 matrix routines of the lab framework.
    A matrix is 16 reals in column-major order: the element in row `row` and
    column `col` sits at index 4*col + row. Everything in this module is a
    value; the routines that overwrite caller-owned arrays live in module
    GLPrimer and are specified by the functions here. */
module Matrix {

  /** A 4x4 matrix stored column-major, as the routines store it. */
  type Mat = m: seq<real> | |m| == 16 witness seq(16, _ => 0.0)

  /** A homogeneous point (w = 1) or direction (w = 0) as a column vector. */
  type Vec4 = v: seq<real> | |v| == 4 witness [0.0, 0.0, 0.0, 1.0]

  /** The element in row `row` and column `col`. */
  function Get(m: Mat, row: nat, col: nat): real
    requires row < 4 && col < 4
  {
    m[4 * col + row]
  }

  /** The partial row-by-column sum  Σ_{k < n} a(row, k) * b(k, col). */
  function DotUpTo(a: Mat, b: Mat, row: nat, col: nat, n: nat): real
    requires row < 4 && col < 4 && n <= 4
  {
    if n == 0 then 0.0
    else DotUpTo(a, b, row, col, n - 1) + Get(a, row, n - 1) * Get(b, n - 1, col)
  }

  /** The first n cells, in column-major order, of the product a * b. */
  function ProductUpTo(a: Mat, b: Mat, n: nat): (p: seq<real>)
    requires n <= 16
    ensures |p| == n
  {
    if n == 0 then [] else ProductUpTo(a, b, n - 1) + [DotUpTo(a, b, (n - 1) % 4, (n - 1) / 4, 4)]
  }

  /** The mathematical matrix product a * b (not the elementwise one):
      cell (row, col) is  Σ_{k < 4} a(row, k) * b(k, col). */
  function Product(a: Mat, b: Mat): Mat {
    ProductUpTo(a, b, 16)
  }

  /** The transpose: cell (row, col) of the result is cell (col, row) of m. */
  function Transpose(m: Mat): Mat {
    seq(16, i requires 0 <= i < 16 => Get(m, i / 4, i % 4))
  }

  /** The matrix applied to a column vector, M * v. */
  function Apply(m: Mat, v: Vec4): Vec4 {
    [ m[0] * v[0] + m[4] * v[1] + m[8] * v[2] + m[12] * v[3],
      m[1] * v[0] + m[5] * v[1] + m[9] * v[2] + m[13] * v[3],
      m[2] * v[0] + m[6] * v[1] + m[10] * v[2] + m[14] * v[3],
      m[3] * v[0] + m[7] * v[1] + m[11] * v[2] + m[15] * v[3] ]
  }

  /** The identity: ones where row == col, zeros elsewhere. */
  function Identity(): Mat {
    seq(16, i requires 0 <= i < 16 => if i % 4 == i / 4 then 1.0 else 0.0)
  }

  // Each constructor of the library starts from the identity and overwrites
  // a fixed set of cells; the matrices below are built the same way.

  /** Rotation about the x axis, given the cosine c and sine s of the angle. */
  function RotX(c: real, s: real): Mat {
    Identity()[5 := c][6 := s][9 := -s][10 := c]
  }

  /** Rotation about the y axis, given the cosine c and sine s of the angle. */
  function RotY(c: real, s: real): Mat {
    Identity()[0 := c][2 := -s][8 := s][10 := c]
  }

  /** Rotation about the z axis, given the cosine c and sine s of the angle. */
  function RotZ(c: real, s: real): Mat {
    Identity()[0 := c][1 := s][4 := -s][5 := c]
  }

  /** The scaling matrix as the library builds it: all four diagonal cells,
      the w-w cell included, hold k. */
  function Scale(k: real): Mat {
    Identity()[0 := k][5 := k][10 := k][15 := k]
  }

  /** Translation by (x, y, z), stored in the last column. */
  function Translate(x: real, y: real, z: real): Mat {
    Identity()[12 := x][13 := y][14 := z]
  }

  /** The OpenGL perspective projection, given f = 1/tan(vfov/2), the
      aspect ratio and the near and far plane distances. */
  function Perspective(f: real, aspect: real, znear: real, zfar: real): Mat
    requires aspect != 0.0 && zfar != znear
  {
    Identity()[0 := f / aspect][5 := f]
      [10 := -((zfar + znear) / (zfar - znear))][11 := -1.0]
      [14 := -((2.0 * zfar * znear) / (zfar - znear))][15 := 0.0]
  }

  /** The x, y and z of a homogeneous point after the divide by w. */
  function Dehomogenize(v: Vec4): seq<real>
    requires v[3] != 0.0
  {
    [v[0] / v[3], v[1] / v[3], v[2] / v[3]]
  }

  // ---------------------------------------------------------------------
  // Cells of a product

  /** Two matrices are equal once all 16 cells agree. */
  lemma {:induction false} EqualByCells(a: Mat, b: Mat)
    requires a[0] == b[0] && a[1] == b[1] && a[2] == b[2] && a[3] == b[3]
    requires a[4] == b[4] && a[5] == b[5] && a[6] == b[6] && a[7] == b[7]
    requires a[8] == b[8] && a[9] == b[9] && a[10] == b[10] && a[11] == b[11]
    requires a[12] == b[12] && a[13] == b[13] && a[14] == b[14] && a[15] == b[15]
    ensures a == b
  {
    forall i | 0 <= i < 16 ensures a[i] == b[i] {
      assert i == 0 || i == 1 || i == 2 || i == 3 || i == 4 || i == 5 || i == 6 || i == 7 ||
             i == 8 || i == 9 || i == 10 || i == 11 || i == 12 || i == 13 || i == 14 || i == 15;
    }
  }

  /** Cell i of the first n cells of the product is row i % 4 of a times
      column i / 4 of b. */
  lemma {:induction false} ProductUpToAt(a: Mat, b: Mat, n: nat, i: nat)
    requires i < n <= 16
    ensures ProductUpTo(a, b, n)[i] == DotUpTo(a, b, i % 4, i / 4, 4)
  {
    if i < n - 1 {
      ProductUpToAt(a, b, n - 1, i);
    }
  }

  /** Cell (row, col) of the product is the four-term sum that mat4mult
      writes out by hand for that cell. */
  lemma {:induction false} ProductAt(a: Mat, b: Mat, row: nat, col: nat)
    requires row < 4 && col < 4
    ensures Product(a, b)[4 * col + row] ==
      a[row] * b[4 * col] + a[4 + row] * b[4 * col + 1] +
      a[8 + row] * b[4 * col + 2] + a[12 + row] * b[4 * col + 3]
  {
    var i := 4 * col + row;
    assert i % 4 == row && i / 4 == col;
    ProductUpToAt(a, b, 16, i);
    assert DotUpTo(a, b, row, col, 1) == a[row] * b[4 * col];
    assert DotUpTo(a, b, row, col, 2) == DotUpTo(a, b, row, col, 1) + a[4 + row] * b[4 * col + 1];
    assert DotUpTo(a, b, row, col, 3) == DotUpTo(a, b, row, col, 2) + a[8 + row] * b[4 * col + 2];
    assert DotUpTo(a, b, row, col, 4) == DotUpTo(a, b, row, col, 3) + a[12 + row] * b[4 * col + 3];
  }

  /** ProductAt for a flat index i: row i % 4, column i / 4. */
  lemma ProductAtIndex(a: Mat, b: Mat, i: nat)
    requires i < 16
    ensures Product(a, b)[i] ==
      a[i % 4] * b[i - i % 4] + a[4 + i % 4] * b[i - i % 4 + 1] +
      a[8 + i % 4] * b[i - i % 4 + 2] + a[12 + i % 4] * b[i - i % 4 + 3]
  {
    ProductAt(a, b, i % 4, i / 4);
  }
}
