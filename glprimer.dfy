/** The matrix routines of the lab framework, each writing a caller-owned
    array of 16 reals in place (column-major, index 4*col + row). Every
    routine is specified by the matrix of module Matrix it leaves behind. */
module GLPrimer {
  import opened Matrix

  /** mat4mult: Mout := M1 * M2. All 16 cells are computed into a fresh
      scratch array before Mout is written, so the result is the product of
      the inputs as they were on entry even when Mout is M1 or M2. */
  method Mat4Mult(m1: array<real>, m2: array<real>, mout: array<real>)
    requires m1.Length == 16 && m2.Length == 16 && mout.Length == 16
    modifies mout
    ensures mout[..] == Product(old(m1[..]), old(m2[..]))
  {
    ghost var a: Mat := m1[..];
    ghost var b: Mat := m2[..];
    var mtemp := new real[16];
    StoreProductCell(m1, m2, mtemp, a, b, 0, 0);  // Mtemp[0]
    StoreProductCell(m1, m2, mtemp, a, b, 0, 1);  // Mtemp[4]
    StoreProductCell(m1, m2, mtemp, a, b, 0, 2);  // Mtemp[8]
    StoreProductCell(m1, m2, mtemp, a, b, 0, 3);  // Mtemp[12]
    StoreProductCell(m1, m2, mtemp, a, b, 1, 0);  // Mtemp[1]
    StoreProductCell(m1, m2, mtemp, a, b, 1, 1);  // Mtemp[5]
    StoreProductCell(m1, m2, mtemp, a, b, 1, 2);  // Mtemp[9]
    StoreProductCell(m1, m2, mtemp, a, b, 1, 3);  // Mtemp[13]
    StoreProductCell(m1, m2, mtemp, a, b, 2, 0);  // Mtemp[2]
    StoreProductCell(m1, m2, mtemp, a, b, 2, 1);  // Mtemp[6]
    StoreProductCell(m1, m2, mtemp, a, b, 2, 2);  // Mtemp[10]
    StoreProductCell(m1, m2, mtemp, a, b, 2, 3);  // Mtemp[14]
    StoreProductCell(m1, m2, mtemp, a, b, 3, 0);  // Mtemp[3]
    StoreProductCell(m1, m2, mtemp, a, b, 3, 1);  // Mtemp[7]
    StoreProductCell(m1, m2, mtemp, a, b, 3, 2);  // Mtemp[11]
    StoreProductCell(m1, m2, mtemp, a, b, 3, 3);  // Mtemp[15]
    ghost var t: Mat := mtemp[..];
    EqualByCells(t, Product(a, b));
    for i := 0 to 16
      invariant mtemp[..] == t
      invariant mout[..i] == t[..i]
    {
      mout[i] := mtemp[i];
    }
    assert mout[..] == mout[..16];
  }

  /** One hand-written line of mat4mult: the scratch cell (row, col) gets the
      row of m1 times the column of m2; no other cell changes. */
  method StoreProductCell(m1: array<real>, m2: array<real>, mtemp: array<real>,
                          ghost a: Mat, ghost b: Mat, row: nat, col: nat)
    requires m1.Length == 16 && m2.Length == 16 && mtemp.Length == 16
    requires m1[..] == a && m2[..] == b
    requires row < 4 && col < 4
    requires mtemp != m1 && mtemp != m2
    modifies mtemp
    ensures mtemp[4 * col + row] == Product(a, b)[4 * col + row]
    ensures forall j :: 0 <= j < 16 && j != 4 * col + row ==> mtemp[j] == old(mtemp[j])
  {
    mtemp[4 * col + row] := m1[row] * m2[4 * col] + m1[4 + row] * m2[4 * col + 1] +
                            m1[8 + row] * m2[4 * col + 2] + m1[12 + row] * m2[4 * col + 3];
    ProductAt(a, b, row, col);
  }

  /** mat4identity: all 16 cells are overwritten with the identity. */
  method Mat4Identity(m: array<real>)
    requires m.Length == 16
    modifies m
    ensures m[..] == Identity()
  {
    m[0] := 1.0;
    m[1] := 0.0;
    m[2] := 0.0;
    m[3] := 0.0;

    m[4] := 0.0;
    m[5] := 1.0;
    m[6] := 0.0;
    m[7] := 0.0;

    m[8] := 0.0;
    m[9] := 0.0;
    m[10] := 1.0;
    m[11] := 0.0;

    m[12] := 0.0;
    m[13] := 0.0;
    m[14] := 0.0;
    m[15] := 1.0;

    EqualByCells(m[..], Identity());
  }

  /** mat4rotx, with c = cos(angle) and s = sin(angle). */
  method Mat4RotX(m: array<real>, c: real, s: real)
    requires m.Length == 16
    modifies m
    ensures m[..] == RotX(c, s)
  {
    Mat4Identity(m);

    m[5] := c;
    m[6] := s;
    m[9] := -s;
    m[10] := c;
  }

  /** mat4roty, with c = cos(angle) and s = sin(angle). */
  method Mat4RotY(m: array<real>, c: real, s: real)
    requires m.Length == 16
    modifies m
    ensures m[..] == RotY(c, s)
  {
    Mat4Identity(m);

    m[0] := c;
    m[2] := -s;
    m[8] := s;
    m[10] := c;
  }

  /** mat4rotz, with c = cos(angle) and s = sin(angle). */
  method Mat4RotZ(m: array<real>, c: real, s: real)
    requires m.Length == 16
    modifies m
    ensures m[..] == RotZ(c, s)
  {
    Mat4Identity(m);

    m[0] := c;
    m[1] := s;
    m[4] := -s;
    m[5] := c;
  }

  /** mat4scale: the diagonal, cell 15 included, becomes `scale`. */
  method Mat4Scale(m: array<real>, scale: real)
    requires m.Length == 16
    modifies m
    ensures m[..] == Scale(scale)
  {
    Mat4Identity(m);

    m[0] := scale;
    m[5] := scale;
    m[10] := scale;
    m[15] := scale;
  }

  /** mat4translate: the identity with (x, y, z) in cells 12, 13 and 14. */
  method Mat4Translate(m: array<real>, x: real, y: real, z: real)
    requires m.Length == 16
    modifies m
    ensures m[..] == Translate(x, y, z)
  {
    Mat4Identity(m);

    m[12] := x;
    m[13] := y;
    m[14] := z;
  }

  /** mat4perspective, with f = 1/tan(vfov/2) supplied by the caller. */
  method Mat4Perspective(m: array<real>, f: real, aspect: real, znear: real, zfar: real)
    requires m.Length == 16
    requires aspect != 0.0 && zfar != znear
    modifies m
    ensures m[..] == Perspective(f, aspect, znear, zfar)
  {
    Mat4Identity(m);

    m[0] := f / aspect;
    m[5] := f;
    m[10] := -((zfar + znear) / (zfar - znear));
    m[11] := -1.0;
    m[14] := -((2.0 * zfar * znear) / (zfar - znear));
    m[15] := 0.0;
  }
}
