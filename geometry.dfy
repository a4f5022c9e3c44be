/** The few value types of the host geometry library that the net generator
    uses: points, vectors, planes and rectangles, all with real coordinates. */
module Geometry {

  /** A position in world space (Point3d). */
  datatype Point3 = Point3(x: real, y: real, z: real)

  /** A displacement in world space (Vector3d). */
  datatype Vector3 = Vector3(x: real, y: real, z: real)

  /** The world origin, the command's ORIGIN constant. */
  const Origin := Point3(0.0, 0.0, 0.0)

  /** The world Z axis, the normal of every plane the net is drawn in. */
  const ZAxis := Vector3(0.0, 0.0, 1.0)

  /** Point plus vector, coordinate by coordinate. */
  function Translate(p: Point3, v: Vector3): Point3
  {
    Point3(p.x + v.x, p.y + v.y, p.z + v.z)
  }

  /** An axis-aligned bounding box given by its minimal and maximal corners. */
  datatype BoundingBox = BoundingBox(min: Point3, max: Point3)

  /** A bounding box whose maximal corner is not below its minimal one. */
  predicate Ordered(box: BoundingBox)
  {
    box.min.x <= box.max.x && box.min.y <= box.max.y && box.min.z <= box.max.z
  }

  /** A plane through a point with a given normal. */
  datatype Plane = Plane(origin: Point3, normal: Vector3)

  /** A rectangle on a base plane with two opposite corners, as the
      host library builds it from a plane and two corner points. */
  datatype Rectangle = Rectangle(plane: Plane, cornerA: Point3, cornerB: Point3)

  function Min(a: real, b: real): real { if a <= b then a else b }
  function Max(a: real, b: real): real { if a <= b then b else a }

  /** The extent of a rectangle on a Z-normal plane: the X and Y intervals
      spanned by its two opposite corners. */
  function Left(r: Rectangle): real { Min(r.cornerA.x, r.cornerB.x) }
  function Right(r: Rectangle): real { Max(r.cornerA.x, r.cornerB.x) }
  function Bottom(r: Rectangle): real { Min(r.cornerA.y, r.cornerB.y) }
  function Top(r: Rectangle): real { Max(r.cornerA.y, r.cornerB.y) }
  function Width(r: Rectangle): real { Right(r) - Left(r) }
  function Height(r: Rectangle): real { Top(r) - Bottom(r) }

  /** Both corners lie on the rectangle's plane, which is normal to Z. */
  predicate FlatOnZ(r: Rectangle)
  {
    r.plane.normal == ZAxis && r.cornerA.z == r.plane.origin.z && r.cornerB.z == r.plane.origin.z
  }
}
