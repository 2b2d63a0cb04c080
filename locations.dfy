/**
 * Machine locations and the two geometric primitives the nozzle relies on.
 * All coordinates are in one length unit; conversion between units is not modelled.
 */
module Locations {
  import opened Options

  /** An in-plane point, as used by the rotation primitive. */
  datatype Point = Point(x: real, y: real)

  /** A machine location: X, Y, Z and the rotation of the spindle. */
  datatype Location = Location(x: real, y: real, z: real, rotation: real) {

    /**
     * Location.derive: a copy of this location in which every component given as
     * Some is replaced and every component given as None (Java's null) is kept.
     */
    function Derive(x': Option<real>, y': Option<real>, z': Option<real>, rotation': Option<real>): (l: Location)
    {
      Location(if x'.Some? then x'.value else x,
               if y'.Some? then y'.value else y,
               if z'.Some? then z'.value else z,
               if rotation'.Some? then rotation'.value else rotation)
    }

    /**
     * Location.subtract: X, Y and Z are subtracted component by component; the
     * rotation of the result is whatever the library's subtraction makes of the two
     * rotations, which is left to the parameter.
     */
    function Subtract(other: Location, rotationDiff: (real, real) -> real): (l: Location)
    {
      Location(x - other.x, y - other.y, z - other.z, rotationDiff(rotation, other.rotation))
    }

    /** The point (X, Y) of this location, dropping Z and the rotation. */
    function ToPoint(): (p: Point)
    {
      Point(x, y)
    }
  }

  /** The location with every component zero. */
  const Origin: Location := Location(0.0, 0.0, 0.0, 0.0)

  /**
   * The primitives that are not part of this model, taken as arbitrary functions:
   * rotatePoint is Utils2D.rotatePoint (rotate a point about the origin by an angle
   * in degrees), and rotationDiff is the rotation component of Location.subtract.
   */
  datatype Geometry = Geometry(rotatePoint: (Point, real) -> Point, rotationDiff: (real, real) -> real)
}
