/**
 * The two geometric value types the processor passes around: rasterio's
 * `BoundingBox` and the `Affine` pixel-to-world transform.
 */
module Geometry {

  /** Extent of a raster, in the field order of rasterio's BoundingBox. */
  datatype Bounds = Bounds(left: real, bottom: real, right: real, top: real)

  /**
   * An affine transform: a pixel at (col, row) lies at world position
   * (a*col + b*row + c, d*col + e*row + f).
   */
  datatype Affine = Affine(a: real, b: real, c: real, d: real, e: real, f: real)

  datatype Point = Point(x: real, y: real)

  /** Where the transform `t` puts the pixel position (col, row). */
  function Apply(t: Affine, col: real, row: real): Point
  {
    Point(t.a * col + t.b * row + t.c, t.d * col + t.e * row + t.f)
  }

  /** `Affine.scale(sx, sy)`: stretch columns by sx and rows by sy. */
  function Scale(sx: real, sy: real): Affine
  {
    Affine(sx, 0.0, 0.0, 0.0, sy, 0.0)
  }

  /** The product `t * u`: the transform that applies `u` first and then `t`. */
  function Compose(t: Affine, u: Affine): Affine
  {
    Affine(t.a * u.a + t.b * u.d, t.a * u.b + t.b * u.e, t.a * u.c + t.b * u.f + t.c,
           t.d * u.a + t.e * u.d, t.d * u.b + t.e * u.e, t.d * u.c + t.e * u.f + t.f)
  }

  /** Scaling stretches each pixel coordinate by its own factor. */
  lemma ApplyScale(sx: real, sy: real, col: real, row: real)
    ensures Apply(Scale(sx, sy), col, row) == Point(sx * col, sy * row)
  {
    assert sx * col + 0.0 * row + 0.0 == sx * col;
    assert 0.0 * col + sy * row + 0.0 == sy * row;
  }

  /** One output coordinate of a product of two transforms, multiplied out. */
  lemma MultiplyOut(p: real, q: real, k: real, ua: real, ub: real, uc: real, ud: real, ue: real, uf: real,
                    col: real, row: real, x: real, y: real)
    requires x == ua * col + ub * row + uc && y == ud * col + ue * row + uf
    ensures p * x + q * y + k == (p * ua + q * ud) * col + (p * ub + q * ue) * row + (p * uc + q * uf + k)
  {
    assert p * x == p * (ua * col) + p * (ub * row) + p * uc;
    assert q * y == q * (ud * col) + q * (ue * row) + q * uf;
    assert p * (ua * col) == (p * ua) * col;
    assert p * (ub * row) == (p * ub) * row;
    assert q * (ud * col) == (q * ud) * col;
    assert q * (ue * row) == (q * ue) * row;
    assert (p * ua + q * ud) * col == (p * ua) * col + (q * ud) * col;
    assert (p * ub + q * ue) * row == (p * ub) * row + (q * ue) * row;
  }

  /** `t * u` maps a pixel exactly where `t` maps the pixel `u` maps it to. */
  lemma ApplyCompose(t: Affine, u: Affine, col: real, row: real)
    ensures Apply(Compose(t, u), col, row) == Apply(t, Apply(u, col, row).x, Apply(u, col, row).y)
  {
    var v := Apply(u, col, row);
    var w := Compose(t, u);
    MultiplyOut(t.a, t.b, t.c, u.a, u.b, u.c, u.d, u.e, u.f, col, row, v.x, v.y);
    MultiplyOut(t.d, t.e, t.f, u.a, u.b, u.c, u.d, u.e, u.f, col, row, v.x, v.y);
    assert Apply(w, col, row).x == Apply(t, v.x, v.y).x;
    assert Apply(w, col, row).y == Apply(t, v.x, v.y).y;
  }

  /** Scaling first and then applying `t` is applying `t` to the stretched coordinates. */
  lemma ApplyScaled(t: Affine, sx: real, sy: real, col: real, row: real)
    ensures Apply(Compose(t, Scale(sx, sy)), col, row) == Apply(t, sx * col, sy * row)
  {
    var p := Apply(Scale(sx, sy), col, row);
    ApplyScale(sx, sy, col, row);
    ApplyCompose(t, Scale(sx, sy), col, row);
    assert p.x == sx * col && p.y == sy * row;
  }
}
