# GLprimer 4x4 matrix library in Dafny

This project models the small matrix library at the top of the lab framework's
`GLprimer.cpp`. The library has eight routines:

- `mat4mult` multiplies two matrices.
- `mat4identity` builds the identity.
- `mat4rotx`, `mat4roty` and `mat4rotz` build rotations about the three axes.
- `mat4scale`, `mat4translate` and `mat4perspective` build the remaining transforms.

Every routine overwrites a caller-owned array of 16 floats. The cells are in
column-major order: row `row`, column `col` is at index `4*col + row`.

The model has four modules:

- `Matrix` (`matrix.dfy`) holds the mathematics as values. A matrix is a
  16-element `seq<real>`. The module defines the matrix product (as a
  row-by-column sum), the identity, the six constructed matrices, application
  to a homogeneous vector, and the divide by w.
- `GLPrimer` (`glprimer.dfy`) holds the routines as methods on `array<real>`.
  Each method writes the same cells in the same order as the C++ code. Each
  `ensures` ties the array's new contents to a function of `Matrix`.
  `Mat4Mult` states its result in terms of the arrays' *old* contents. This is
  the aliasing guarantee: the result is right even when `mout` is `m1` or `m2`.
- `MatrixLaws` (`matrix_laws.dfy`) proves what the library promises about
  those functions:
  - the identity is neutral on both sides;
  - the product is associative;
  - rotations compose by the angle-sum formulas and cancel against the
    opposite angle when `c*c + s*s == 1`;
  - translation moves points;
  - scaling scales all four coordinates;
  - the perspective matrix maps the near and far planes to depth -1 and +1.
- `FrameUsage` (`frame_usage.dfy`) models the render loop's in-place calls
  `mat4mult(T, MV, MV)` and `mat4mult(R, MV, MV)`.

## Model

| member | source | states |
|---|---|---|
| Matrix.ProductUpToAt | Labmaterial/GLprimer.cpp:78-96 | cell i of the product is row i % 4 of the left factor times column i / 4 of the right factor |
| Matrix.ProductAt | Labmaterial/GLprimer.cpp:78-96 | product cell (row, col) equals the four-term sum that mat4mult writes out for Mtemp[4*col+row] |
| Matrix.ProductAtIndex | Labmaterial/GLprimer.cpp:78-96 | the same four-term sum, addressed by the flat index 0..15 |
| Matrix.EqualByCells | Labmaterial/GLprimer.cpp:103-123 | two matrices whose 16 cells agree are equal, so writing all 16 cells determines the whole array |
| GLPrimer.Mat4Mult | Labmaterial/GLprimer.cpp:75-101 | afterwards mout holds the product of the OLD contents of m1 and m2, even when mout is m1 or m2; only mout changes |
| GLPrimer.StoreProductCell | Labmaterial/GLprimer.cpp:78-96 | one scratch cell gets the product's cell (row, col); the other 15 scratch cells keep their values |
| GLPrimer.Mat4Identity | Labmaterial/GLprimer.cpp:103-123 | all 16 cells are overwritten and the array becomes the identity |
| GLPrimer.Mat4RotX | Labmaterial/GLprimer.cpp:125-132 | the array becomes the identity except cells 5, 6, 9, 10 = c, s, -s, c |
| GLPrimer.Mat4RotY | Labmaterial/GLprimer.cpp:134-141 | the array becomes the identity except cells 0, 2, 8, 10 = c, -s, s, c |
| GLPrimer.Mat4RotZ | Labmaterial/GLprimer.cpp:143-151 | the array becomes the identity except cells 0, 1, 4, 5 = c, s, -s, c |
| GLPrimer.Mat4Scale | Labmaterial/GLprimer.cpp:153-160 | the array becomes the identity except cells 0, 5, 10 and 15 = scale, so the w-w cell is scaled too |
| GLPrimer.Mat4Translate | Labmaterial/GLprimer.cpp:162-168 | the array becomes the identity except cells 12, 13, 14 = x, y, z |
| GLPrimer.Mat4Perspective | Labmaterial/GLprimer.cpp:170-180 | with aspect != 0 and zfar != znear, the array becomes the identity except cells 0, 5, 10, 11, 14, 15 = f/aspect, f, -(zfar+znear)/(zfar-znear), -1, -2*zfar*znear/(zfar-znear), 0 |
| MatrixLaws.IdentityIsDiagonal | Labmaterial/GLprimer.cpp:103-123 | the identity has 1 where row == col and 0 elsewhere |
| MatrixLaws.IdentityCells | Labmaterial/GLprimer.cpp:103-123 | as a flat array the identity has 1 exactly at indices 0, 5, 10, 15 and 0 at the other twelve |
| MatrixLaws.ScaleIsScaledIdentity | Labmaterial/GLprimer.cpp:153-160 | the scaling matrix is k times the identity in every one of its 16 cells |
| MatrixLaws.DotIdentityLeft | Labmaterial/GLprimer.cpp:75-123 | a partial row sum with the identity on the left picks out the single matching cell |
| MatrixLaws.DotIdentityRight | Labmaterial/GLprimer.cpp:75-123 | a partial row sum with the identity on the right picks out the single matching cell |
| MatrixLaws.ProductIdentityLeft | Labmaterial/GLprimer.cpp:75-123 | identity * m == m for every matrix m |
| MatrixLaws.ProductIdentityRight | Labmaterial/GLprimer.cpp:75-123 | m * identity == m for every matrix m |
| MatrixLaws.RowTimesMatrixTimesColumn | Labmaterial/GLprimer.cpp:78-96 | (row * B) * column == row * (B * column) for a 4-row, a 4x4 and a 4-column of reals |
| MatrixLaws.ProductAssociativeAt | Labmaterial/GLprimer.cpp:78-96 | cell (row, col) of (a*b)*c equals cell (row, col) of a*(b*c) |
| MatrixLaws.ProductAssociative | Labmaterial/GLprimer.cpp:75-101 | (a*b)*c == a*(b*c), so chaining mat4mult calls in either grouping gives the same matrix |
| MatrixLaws.RotXCompose | Labmaterial/GLprimer.cpp:125-132 | the product of two x rotations is the x rotation with cosine c1*c2 - s1*s2 and sine s1*c2 + c1*s2 (the angle-sum formulas) |
| MatrixLaws.RotXInverse | Labmaterial/GLprimer.cpp:125-132 | when c*c + s*s == 1, RotX(c, s) * RotX(c, -s) is the identity in both orders |
| MatrixLaws.RotYCompose | Labmaterial/GLprimer.cpp:134-141 | the product of two y rotations is the y rotation with cosine c1*c2 - s1*s2 and sine s1*c2 + c1*s2 |
| MatrixLaws.RotYInverse | Labmaterial/GLprimer.cpp:134-141 | when c*c + s*s == 1, RotY(c, s) * RotY(c, -s) is the identity in both orders |
| MatrixLaws.RotZCompose | Labmaterial/GLprimer.cpp:143-151 | the product of two z rotations is the z rotation with cosine c1*c2 - s1*s2 and sine s1*c2 + c1*s2 |
| MatrixLaws.RotZInverse | Labmaterial/GLprimer.cpp:143-151 | when c*c + s*s == 1, RotZ(c, s) * RotZ(c, -s) is the identity in both orders |
| MatrixLaws.ZeroRotations | Labmaterial/GLprimer.cpp:125-151 | a rotation by angle 0 (c = 1, s = 0) about any axis is the identity |
| MatrixLaws.RotationTransposes | Labmaterial/GLprimer.cpp:125-151 | the transpose of each rotation is the rotation with the opposite sine (rotations are orthogonal matrices) |
| MatrixLaws.TranslateMovesPoints | Labmaterial/GLprimer.cpp:162-168 | translation adds (x, y, z)*w to a point and keeps w; the origin (0,0,0,1) goes to (x,y,z,1) |
| MatrixLaws.ScaleMultipliesAllCoordinates | Labmaterial/GLprimer.cpp:153-160 | the scaling matrix multiplies x, y, z and w by the scale |
| MatrixLaws.ScaleVanishesAfterDivide | Labmaterial/GLprimer.cpp:153-160 | for a nonzero scale and w != 0, the scaled point is the same point after the divide by w |
| MatrixLaws.PerspectiveClipCoordinates | Labmaterial/GLprimer.cpp:170-180 | the point (x, y, z, 1) gets clip x = f*x/aspect, clip y = f*y and clip w = -z |
| MatrixLaws.PerspectiveDepthRow | Labmaterial/GLprimer.cpp:170-180 | the point (x, y, -d, 1) gets clip z = ((zfar+znear)*d - 2*zfar*znear)/(zfar-znear) and clip w = d |
| MatrixLaws.PerspectiveNearPlane | Labmaterial/GLprimer.cpp:170-180 | a point on the near plane has w = znear and normalized depth -1 |
| MatrixLaws.PerspectiveFarPlane | Labmaterial/GLprimer.cpp:170-180 | a point on the far plane has w = zfar and normalized depth +1 |
| FrameUsage.ComposeObjectModelView | Labmaterial/GLprimer.cpp:342-345 | computing Rz*Rx into MV and then T*MV into MV in place leaves MV = T * (Rz * Rx) |
| FrameUsage.ComposeOrbitModelView | Labmaterial/GLprimer.cpp:368-369 | the in-place calls R*MV into MV and then T*MV into MV leave MV = T * (R * MV) = (T * R) * MV |

## Left out

- `float` arithmetic is modelled as exact `real` arithmetic. Rounding, infinities and NaN are not modelled.
- The routines take an angle and call `cos`, `sin` and `tan`. The model takes the results as parameters instead: `c` and `s` for the rotations, and `f = 1/tan(vfov/2)` for the perspective.
- GLPrimer.Mat4Perspective: requires `aspect != 0` and `zfar != znear`. With those values the C++ code divides by zero and stores infinities or NaN. The model does not describe that outcome.
- The arrays are required to hold exactly 16 cells. Every caller declares them as `float X[16]`. A longer array would keep its extra cells, and a shorter one is undefined behaviour in C++.
- The rest of `main` and its frame loop is not modelled: window and context setup, input polling, timing, uniform uploads and draw calls are graphics-API input and output. Only the in-place `mat4mult` calls are modelled, in `FrameUsage`.
- `createVertexBuffer` and `createIndexBuffer` are not modelled. They only forward to OpenGL buffer calls.
- `Shader`, `Texture`, `TriangleSoup`, `KeyRotator`, `MouseRotator` and `Utilities` are not part of this model.
- `mat4scale` writes the scale into cell 15 as well (Labmaterial/GLprimer.cpp:159), so w is scaled too. The point (1,1,1,1) therefore goes to (s,s,s,s), not (s,s,s,1) as a "w stays 1" description of the routine would have it. The model follows the code. `ScaleVanishesAfterDivide` proves the consequence: for points with w != 0, the matrix has no visible effect after the divide by w.
