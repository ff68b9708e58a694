/** The two places in the render loop that multiply a matrix into itself.
    Both pass the same array as the right factor and as the destination, so
    they rely on mat4mult reading every input cell before it writes any
    output cell. */
module FrameUsage {
  import opened Matrix
  import opened MatrixLaws
  import opened GLPrimer

  /** The object's modelview: the product of two rotations, then the
      translation applied on the left of the result, in place. */
  method ComposeObjectModelView(rz: array<real>, rx: array<real>, t: array<real>, mv: array<real>)
    requires rz.Length == 16 && rx.Length == 16 && t.Length == 16 && mv.Length == 16
    requires mv != t
    modifies mv
    ensures mv[..] == Product(old(t[..]), Product(old(rz[..]), old(rx[..])))
  {
    Mat4Mult(rz, rx, mv);
    Mat4Mult(t, mv, mv);
  }

  /** The second object's modelview: r and then t are multiplied onto mv
      from the left, in place. The result is the single product (t * r) * mv,
      so the two in-place steps lose nothing. */
  method ComposeOrbitModelView(r: array<real>, t: array<real>, mv: array<real>)
    requires r.Length == 16 && t.Length == 16 && mv.Length == 16
    requires mv != t
    modifies mv
    ensures mv[..] == Product(old(t[..]), Product(old(r[..]), old(mv[..])))
    ensures mv[..] == Product(Product(old(t[..]), old(r[..])), old(mv[..]))
  {
    Mat4Mult(r, mv, mv);
    Mat4Mult(t, mv, mv);
    ProductAssociative(old(t[..]), old(r[..]), old(mv[..]));
  }
}
