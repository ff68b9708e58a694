/** Laws of the matrix algebra that the routines rely on or promise:
    identity neutrality, associativity of the product, rotation composition
    and cancellation, and what the constructed matrices do to points. */
module MatrixLaws {
  import opened Matrix

  /** The identity display is the matrix with ones on the diagonal and zeros
      elsewhere. */
  lemma IdentityIsDiagonal()
    ensures forall row: nat, col: nat | row < 4 && col < 4 ::
      Get(Identity(), row, col) == if row == col then 1.0 else 0.0
  {
    forall row: nat, col: nat | row < 4 && col < 4
      ensures Get(Identity(), row, col) == if row == col then 1.0 else 0.0
    {
      assert row == 0 || row == 1 || row == 2 || row == 3;
      assert col == 0 || col == 1 || col == 2 || col == 3;
    }
  }

  /** Read as a flat array, the identity has ones exactly at indices 0, 5,
      10 and 15 and zeros at the other twelve. */
  lemma IdentityCells()
    ensures forall i | 0 <= i < 16 ::
      Identity()[i] == if i == 0 || i == 5 || i == 10 || i == 15 then 1.0 else 0.0
  {
    forall i | 0 <= i < 16
      ensures Identity()[i] == if i == 0 || i == 5 || i == 10 || i == 15 then 1.0 else 0.0
    {
      assert i == 0 || i == 1 || i == 2 || i == 3 || i == 4 || i == 5 || i == 6 || i == 7 ||
             i == 8 || i == 9 || i == 10 || i == 11 || i == 12 || i == 13 || i == 14 || i == 15;
    }
  }

  /** The scaling matrix is k times the identity, the w-w cell included:
      k on the diagonal and zero elsewhere. */
  lemma ScaleIsScaledIdentity(k: real)
    ensures forall i | 0 <= i < 16 :: Scale(k)[i] == k * Identity()[i]
  {
    forall i | 0 <= i < 16 ensures Scale(k)[i] == k * Identity()[i] {
      assert i == 0 || i == 1 || i == 2 || i == 3 || i == 4 || i == 5 || i == 6 || i == 7 ||
             i == 8 || i == 9 || i == 10 || i == 11 || i == 12 || i == 13 || i == 14 || i == 15;
    }
  }

  /** With the identity on the left, the partial sum over the first n
      columns of the identity picks out a(row, col) once row < n. */
  lemma {:induction false} DotIdentityLeft(m: Mat, row: nat, col: nat, n: nat)
    requires row < 4 && col < 4 && n <= 4
    ensures DotUpTo(Identity(), m, row, col, n) == if row < n then Get(m, row, col) else 0.0
  {
    if n > 0 {
      DotIdentityLeft(m, row, col, n - 1);
      IdentityIsDiagonal();
    }
  }

  /** With the identity on the right, the partial sum over the first n rows
      of the identity picks out a(row, col) once col < n. */
  lemma {:induction false} DotIdentityRight(m: Mat, row: nat, col: nat, n: nat)
    requires row < 4 && col < 4 && n <= 4
    ensures DotUpTo(m, Identity(), row, col, n) == if col < n then Get(m, row, col) else 0.0
  {
    if n > 0 {
      DotIdentityRight(m, row, col, n - 1);
      IdentityIsDiagonal();
    }
  }

  /** Multiplying by the identity on the left changes nothing. */
  lemma ProductIdentityLeft(m: Mat)
    ensures Product(Identity(), m) == m
  {
    forall i | 0 <= i < 16 ensures Product(Identity(), m)[i] == m[i] {
      ProductUpToAt(Identity(), m, 16, i);
      DotIdentityLeft(m, i % 4, i / 4, 4);
    }
  }

  /** Multiplying by the identity on the right changes nothing. */
  lemma ProductIdentityRight(m: Mat)
    ensures Product(m, Identity()) == m
  {
    forall i | 0 <= i < 16 ensures Product(m, Identity())[i] == m[i] {
      ProductUpToAt(m, Identity(), 16, i);
      DotIdentityRight(m, i % 4, i / 4, 4);
    }
  }

  /** The scalar identity behind one cell of (a*b)*c == a*(b*c): with the
      row (a0..a3) of a, the matrix b (bRC is row R, column C) and the column
      (c0..c3) of c, the row of a*b times the column of c equals the row of a
      times the column of b*c. */
  lemma RowTimesMatrixTimesColumn(
    a0: real, a1: real, a2: real, a3: real,
    b00: real, b01: real, b02: real, b03: real,
    b10: real, b11: real, b12: real, b13: real,
    b20: real, b21: real, b22: real, b23: real,
    b30: real, b31: real, b32: real, b33: real,
    c0: real, c1: real, c2: real, c3: real)
    ensures (a0*b00 + a1*b10 + a2*b20 + a3*b30) * c0 + (a0*b01 + a1*b11 + a2*b21 + a3*b31) * c1
          + (a0*b02 + a1*b12 + a2*b22 + a3*b32) * c2 + (a0*b03 + a1*b13 + a2*b23 + a3*b33) * c3
         == a0 * (b00*c0 + b01*c1 + b02*c2 + b03*c3) + a1 * (b10*c0 + b11*c1 + b12*c2 + b13*c3)
          + a2 * (b20*c0 + b21*c1 + b22*c2 + b23*c3) + a3 * (b30*c0 + b31*c1 + b32*c2 + b33*c3)
  {
  }

  /** One cell of the associativity law. */
  lemma {:induction false} ProductAssociativeAt(a: Mat, b: Mat, c: Mat, row: nat, col: nat)
    requires row < 4 && col < 4
    ensures Product(Product(a, b), c)[4 * col + row] == Product(a, Product(b, c))[4 * col + row]
  {
    var ab, bc := Product(a, b), Product(b, c);
    ProductAt(ab, c, row, col);
    ProductAt(a, bc, row, col);
    ProductAt(a, b, row, 0); ProductAt(a, b, row, 1); ProductAt(a, b, row, 2); ProductAt(a, b, row, 3);
    ProductAt(b, c, 0, col); ProductAt(b, c, 1, col); ProductAt(b, c, 2, col); ProductAt(b, c, 3, col);
    RowTimesMatrixTimesColumn(
      a[row], a[4 + row], a[8 + row], a[12 + row],
      b[0], b[4], b[8], b[12],
      b[1], b[5], b[9], b[13],
      b[2], b[6], b[10], b[14],
      b[3], b[7], b[11], b[15],
      c[4 * col], c[4 * col + 1], c[4 * col + 2], c[4 * col + 3]);
  }

  /** The product is associative, so a chain of mat4mult calls may be
      grouped either way. */
  lemma ProductAssociative(a: Mat, b: Mat, c: Mat)
    ensures Product(Product(a, b), c) == Product(a, Product(b, c))
  {
    forall i | 0 <= i < 16
      ensures Product(Product(a, b), c)[i] == Product(a, Product(b, c))[i]
    {
      ProductAssociativeAt(a, b, c, i % 4, i / 4);
    }
  }


  /** Two rotations about the x axis compose into the rotation by the sum of
      their angles: the cosine and sine of the sum are c1*c2 - s1*s2 and
      s1*c2 + c1*s2. */
  lemma RotXCompose(c1: real, s1: real, c2: real, s2: real)
    ensures Product(RotX(c1, s1), RotX(c2, s2)) == RotX(c1 * c2 - s1 * s2, s1 * c2 + c1 * s2)
  {
    var p, q, r := RotX(c1, s1), RotX(c2, s2), RotX(c1 * c2 - s1 * s2, s1 * c2 + c1 * s2);
    forall i | 0 <= i < 16 ensures Product(p, q)[i] == r[i] {
      ProductAtIndex(p, q, i);
      assert i == 0 || i == 1 || i == 2 || i == 3 || i == 4 || i == 5 || i == 6 || i == 7 ||
             i == 8 || i == 9 || i == 10 || i == 11 || i == 12 || i == 13 || i == 14 || i == 15;
    }
  }

  /** With c*c + s*s == 1 (c and s the cosine and sine of one angle), the
      rotation about the x axis by the angle and by its negation cancel,
      in either order. */
  lemma RotXInverse(c: real, s: real)
    requires c * c + s * s == 1.0
    ensures Product(RotX(c, s), RotX(c, -s)) == Identity()
    ensures Product(RotX(c, -s), RotX(c, s)) == Identity()
  {
    var t := -s;
    RotXCompose(c, s, c, t);
    RotXCompose(c, t, c, s);
    assert c * c - s * t == 1.0 && s * c + c * t == 0.0;
    assert c * c - t * s == 1.0 && t * c + c * s == 0.0;
    ZeroRotations();
  }


  /** Two rotations about the y axis compose into the rotation by the sum of
      their angles: the cosine and sine of the sum are c1*c2 - s1*s2 and
      s1*c2 + c1*s2. */
  lemma RotYCompose(c1: real, s1: real, c2: real, s2: real)
    ensures Product(RotY(c1, s1), RotY(c2, s2)) == RotY(c1 * c2 - s1 * s2, s1 * c2 + c1 * s2)
  {
    var p, q, r := RotY(c1, s1), RotY(c2, s2), RotY(c1 * c2 - s1 * s2, s1 * c2 + c1 * s2);
    forall i | 0 <= i < 16 ensures Product(p, q)[i] == r[i] {
      ProductAtIndex(p, q, i);
      assert i == 0 || i == 1 || i == 2 || i == 3 || i == 4 || i == 5 || i == 6 || i == 7 ||
             i == 8 || i == 9 || i == 10 || i == 11 || i == 12 || i == 13 || i == 14 || i == 15;
    }
  }

  /** With c*c + s*s == 1 (c and s the cosine and sine of one angle), the
      rotation about the y axis by the angle and by its negation cancel,
      in either order. */
  lemma RotYInverse(c: real, s: real)
    requires c * c + s * s == 1.0
    ensures Product(RotY(c, s), RotY(c, -s)) == Identity()
    ensures Product(RotY(c, -s), RotY(c, s)) == Identity()
  {
    var t := -s;
    RotYCompose(c, s, c, t);
    RotYCompose(c, t, c, s);
    assert c * c - s * t == 1.0 && s * c + c * t == 0.0;
    assert c * c - t * s == 1.0 && t * c + c * s == 0.0;
    ZeroRotations();
  }


  /** Two rotations about the z axis compose into the rotation by the sum of
      their angles: the cosine and sine of the sum are c1*c2 - s1*s2 and
      s1*c2 + c1*s2. */
  lemma RotZCompose(c1: real, s1: real, c2: real, s2: real)
    ensures Product(RotZ(c1, s1), RotZ(c2, s2)) == RotZ(c1 * c2 - s1 * s2, s1 * c2 + c1 * s2)
  {
    var p, q, r := RotZ(c1, s1), RotZ(c2, s2), RotZ(c1 * c2 - s1 * s2, s1 * c2 + c1 * s2);
    forall i | 0 <= i < 16 ensures Product(p, q)[i] == r[i] {
      ProductAtIndex(p, q, i);
      assert i == 0 || i == 1 || i == 2 || i == 3 || i == 4 || i == 5 || i == 6 || i == 7 ||
             i == 8 || i == 9 || i == 10 || i == 11 || i == 12 || i == 13 || i == 14 || i == 15;
    }
  }

  /** With c*c + s*s == 1 (c and s the cosine and sine of one angle), the
      rotation about the z axis by the angle and by its negation cancel,
      in either order. */
  lemma RotZInverse(c: real, s: real)
    requires c * c + s * s == 1.0
    ensures Product(RotZ(c, s), RotZ(c, -s)) == Identity()
    ensures Product(RotZ(c, -s), RotZ(c, s)) == Identity()
  {
    var t := -s;
    RotZCompose(c, s, c, t);
    RotZCompose(c, t, c, s);
    assert c * c - s * t == 1.0 && s * c + c * t == 0.0;
    assert c * c - t * s == 1.0 && t * c + c * s == 0.0;
    ZeroRotations();
  }


  /** A rotation by angle zero (cosine 1, sine 0) about any axis is the
      identity. */
  lemma ZeroRotations()
    ensures RotX(1.0, 0.0) == Identity()
    ensures RotY(1.0, 0.0) == Identity()
    ensures RotZ(1.0, 0.0) == Identity()
  {
    forall i | 0 <= i < 16
      ensures RotX(1.0, 0.0)[i] == Identity()[i]
      ensures RotY(1.0, 0.0)[i] == Identity()[i]
      ensures RotZ(1.0, 0.0)[i] == Identity()[i]
    {
      assert i == 0 || i == 1 || i == 2 || i == 3 || i == 4 || i == 5 || i == 6 || i == 7 ||
             i == 8 || i == 9 || i == 10 || i == 11 || i == 12 || i == 13 || i == 14 || i == 15;
    }
  }

  /** Each rotation's transpose is the rotation by the negated angle; with
      RotXInverse, RotYInverse and RotZInverse this makes every rotation
      orthonormal. */
  lemma RotationTransposes(c: real, s: real)
    ensures Transpose(RotX(c, s)) == RotX(c, -s)
    ensures Transpose(RotY(c, s)) == RotY(c, -s)
    ensures Transpose(RotZ(c, s)) == RotZ(c, -s)
  {
    forall i | 0 <= i < 16
      ensures Transpose(RotX(c, s))[i] == RotX(c, -s)[i]
      ensures Transpose(RotY(c, s))[i] == RotY(c, -s)[i]
      ensures Transpose(RotZ(c, s))[i] == RotZ(c, -s)[i]
    {
      assert i == 0 || i == 1 || i == 2 || i == 3 || i == 4 || i == 5 || i == 6 || i == 7 ||
             i == 8 || i == 9 || i == 10 || i == 11 || i == 12 || i == 13 || i == 14 || i == 15;
    }
  }

  // ---------------------------------------------------------------------
  // What the constructed matrices do to points

  /** Translation adds (x, y, z) times w to a homogeneous point, leaves
      directions (w == 0) alone, and takes the origin (0, 0, 0, 1) to
      (x, y, z, 1). */
  lemma TranslateMovesPoints(x: real, y: real, z: real, v: Vec4)
    ensures Apply(Translate(x, y, z), v) == [v[0] + x * v[3], v[1] + y * v[3], v[2] + z * v[3], v[3]]
    ensures Apply(Translate(x, y, z), [0.0, 0.0, 0.0, 1.0]) == [x, y, z, 1.0]
  {
    var t := Translate(x, y, z);
    assert t[0] == 1.0 && t[1] == 0.0 && t[2] == 0.0 && t[3] == 0.0;
    assert t[4] == 0.0 && t[5] == 1.0 && t[6] == 0.0 && t[7] == 0.0;
    assert t[8] == 0.0 && t[9] == 0.0 && t[10] == 1.0 && t[11] == 0.0;
    assert t[12] == x && t[13] == y && t[14] == z && t[15] == 1.0;
    var r := Apply(t, v);
    assert r[0] == v[0] + x * v[3] && r[1] == v[1] + y * v[3];
    assert r[2] == v[2] + z * v[3] && r[3] == v[3];
    var o := Apply(t, [0.0, 0.0, 0.0, 1.0]);
    assert o[0] == x && o[1] == y && o[2] == z && o[3] == 1.0;
  }

  /** The scaling matrix multiplies all four coordinates by k, w included;
      (1, 1, 1, 1) goes to (k, k, k, k). */
  lemma ScaleMultipliesAllCoordinates(k: real, v: Vec4)
    ensures Apply(Scale(k), v) == [k * v[0], k * v[1], k * v[2], k * v[3]]
  {
    var t := Scale(k);
    assert t[0] == k && t[1] == 0.0 && t[2] == 0.0 && t[3] == 0.0;
    assert t[4] == 0.0 && t[5] == k && t[6] == 0.0 && t[7] == 0.0;
    assert t[8] == 0.0 && t[9] == 0.0 && t[10] == k && t[11] == 0.0;
    assert t[12] == 0.0 && t[13] == 0.0 && t[14] == 0.0 && t[15] == k;
    var r := Apply(t, v);
    assert r[0] == k * v[0] && r[1] == k * v[1] && r[2] == k * v[2] && r[3] == k * v[3];
  }

  /** Because w is scaled too, a nonzero scale leaves every point with
      w != 0 where it was once the homogeneous divide is done. */
  lemma ScaleVanishesAfterDivide(k: real, v: Vec4)
    requires k != 0.0 && v[3] != 0.0
    ensures Apply(Scale(k), v)[3] != 0.0
    ensures Dehomogenize(Apply(Scale(k), v)) == Dehomogenize(v)
  {
    ScaleMultipliesAllCoordinates(k, v);
    var p := Apply(Scale(k), v);
    assert p[0] / p[3] == v[0] / v[3] by { assert (k * v[0]) / (k * v[3]) == v[0] / v[3]; }
    assert p[1] / p[3] == v[1] / v[3] by { assert (k * v[1]) / (k * v[3]) == v[1] / v[3]; }
    assert p[2] / p[3] == v[2] / v[3] by { assert (k * v[2]) / (k * v[3]) == v[2] / v[3]; }
  }

  /** The perspective matrix puts -z into the clip-space w of a point
      (x, y, z, 1) and scales x by f/aspect and y by f. */
  lemma PerspectiveClipCoordinates(f: real, aspect: real, znear: real, zfar: real, x: real, y: real, z: real)
    requires aspect != 0.0 && zfar != znear
    ensures Apply(Perspective(f, aspect, znear, zfar), [x, y, z, 1.0])[0] == f * x / aspect
    ensures Apply(Perspective(f, aspect, znear, zfar), [x, y, z, 1.0])[1] == f * y
    ensures Apply(Perspective(f, aspect, znear, zfar), [x, y, z, 1.0])[3] == -z
  {
    var p := Perspective(f, aspect, znear, zfar);
    assert p[0] == f / aspect && p[4] == 0.0 && p[8] == 0.0 && p[12] == 0.0;
    assert p[1] == 0.0 && p[5] == f && p[9] == 0.0 && p[13] == 0.0;
    assert p[3] == 0.0 && p[7] == 0.0 && p[11] == -1.0 && p[15] == 0.0;
  }

  /** The depth row of the perspective matrix at a point (x, y, -d, 1)
      gives clip z == a * -d + b, where a and b are its cells 10 and 14. */
  lemma PerspectiveDepthRow(f: real, aspect: real, znear: real, zfar: real, x: real, y: real, d: real)
    requires aspect != 0.0 && zfar != znear
    ensures Apply(Perspective(f, aspect, znear, zfar), [x, y, -d, 1.0])[2] ==
      ((zfar + znear) * d - 2.0 * zfar * znear) / (zfar - znear)
    ensures Apply(Perspective(f, aspect, znear, zfar), [x, y, -d, 1.0])[3] == d
  {
    var p := Perspective(f, aspect, znear, zfar);
    assert p[2] == 0.0 && p[6] == 0.0 && p[3] == 0.0 && p[7] == 0.0 && p[11] == -1.0 && p[15] == 0.0;
    assert p[10] == -((zfar + znear) / (zfar - znear));
    assert p[14] == -((2.0 * zfar * znear) / (zfar - znear));
  }

  /** After the divide by w, a point on the near plane (z == -znear) lands at
      depth -1. */
  lemma PerspectiveNearPlane(f: real, aspect: real, znear: real, zfar: real, x: real, y: real)
    requires aspect != 0.0 && zfar != znear && znear != 0.0
    ensures Apply(Perspective(f, aspect, znear, zfar), [x, y, -znear, 1.0])[3] == znear
    ensures Dehomogenize(Apply(Perspective(f, aspect, znear, zfar), [x, y, -znear, 1.0]))[2] == -1.0
  {
    var d := zfar - znear;
    PerspectiveDepthRow(f, aspect, znear, zfar, x, y, znear);
    var n := (zfar + znear) * znear - 2.0 * zfar * znear;
    assert n == -znear * d;
    assert n / d == -znear;
    assert -znear / znear == -1.0;
  }

  /** After the divide by w, a point on the far plane (z == -zfar) lands at
      depth +1. */
  lemma PerspectiveFarPlane(f: real, aspect: real, znear: real, zfar: real, x: real, y: real)
    requires aspect != 0.0 && zfar != znear && zfar != 0.0
    ensures Apply(Perspective(f, aspect, znear, zfar), [x, y, -zfar, 1.0])[3] == zfar
    ensures Dehomogenize(Apply(Perspective(f, aspect, znear, zfar), [x, y, -zfar, 1.0]))[2] == 1.0
  {
    var d := zfar - znear;
    PerspectiveDepthRow(f, aspect, znear, zfar, x, y, zfar);
    var n := (zfar + znear) * zfar - 2.0 * zfar * znear;
    assert n == zfar * d;
    assert n / d == zfar;
    assert zfar / zfar == 1.0;
  }
}
