/**
 * generateTrapinchHead of Trapinch/BodyParts/Head/TrapinchHead.js and generateTrapinchEyes2 of
 * Trapinch/BodyParts/Head/TrapinchEyes2.js: both are the latitude/longitude ellipsoid of
 * TrapinchBody, line for line, under other parameter names.
 */
module TrapinchHead {
  import opened JsMath
  import opened Vectors
  import opened Mesh
  import TrapinchBody

  /** generateTrapinchHead(rx, ry, rz, latBands, longBands, color). */
  method GenerateTrapinchHead(m: Math, rx: real, ry: real, rz: real, latBands: Pos, longBands: Pos, color: Vec3)
    returns (g: Geometry)
    ensures g == Typed(TrapinchBody.Ellipsoid(m, rx, ry, rz, latBands, longBands, color))
  {
    g := TrapinchBody.GenerateTrapinchBody(m, rx, ry, rz, latBands, longBands, color);
  }

  /**
   * generateTrapinchEyes2(radiusX, radiusY, radiusZ, latBands, longBands, outerColor): the same
   * ellipsoid, each axis scaled by its own radius (lemma TrapinchBody.EllipsoidFlattened).
   */
  method GenerateTrapinchEyes2(m: Math, radiusX: real, radiusY: real, radiusZ: real, latBands: Pos, longBands: Pos,
                               outerColor: Vec3)
    returns (g: Geometry)
    ensures g == Typed(TrapinchBody.Ellipsoid(m, radiusX, radiusY, radiusZ, latBands, longBands, outerColor))
  {
    g := TrapinchBody.GenerateTrapinchBody(m, radiusX, radiusY, radiusZ, latBands, longBands, outerColor);
  }
}
