/**
 * Symbolic poses. The engine's vector and quaternion arithmetic is not
 * modelled: a position or orientation is a term that records how it was
 * obtained (a copied engine value, then offsets composed on top of it), so
 * two poses are equal exactly when they were built the same way.
 */
module Transforms {
  import opened Wrappers

  /** A three-component vector as stored in the catalog (`Vector3Data`). */
  datatype Vec3 = Vec3(x: real, y: real, z: real)

  /** An engine quaternion, carried around but never computed with. */
  datatype Quaternion = Quaternion(x: real, y: real, z: real, w: real)

  const Zero: Vec3 := Vec3(0.0, 0.0, 0.0)
  const Identity: Quaternion := Quaternion(0.0, 0.0, 0.0, 1.0)

  /** A position: an engine value, or a position displaced by a local offset (`localPosition += offset`). */
  datatype Position = Point(v: Vec3) | Displaced(base: Position, offset: Vec3)

  /** An orientation: an engine value, or an orientation turned by Euler angles (`localRotation *= Quaternion.Euler(angles)`). */
  datatype Orientation = Rotation(q: Quaternion) | Turned(base: Orientation, eulerDegrees: Vec3)

  datatype Pose = Pose(position: Position, rotation: Orientation)

  /** Where `Instantiate(prefab, Vector3.zero, Quaternion.identity)` places a new object. */
  const Origin: Pose := Pose(Point(Zero), Rotation(Identity))

  /**
   * Composes a tracked pose with the optional catalog offsets: the position
   * offset displaces the position and the rotation offset turns the
   * orientation, each only when present and each independently of the other.
   */
  function Compose(p: Pose, positionOffset: Option<Vec3>, rotationOffset: Option<Vec3>): (r: Pose)
    ensures positionOffset.None? ==> r.position == p.position
    ensures positionOffset.Some? ==> r.position == Displaced(p.position, positionOffset.value)
    ensures rotationOffset.None? ==> r.rotation == p.rotation
    ensures rotationOffset.Some? ==> r.rotation == Turned(p.rotation, rotationOffset.value)
    ensures positionOffset.None? && rotationOffset.None? ==> r == p
  {
    var position := if positionOffset.Some? then Displaced(p.position, positionOffset.value) else p.position;
    var rotation := if rotationOffset.Some? then Turned(p.rotation, rotationOffset.value) else p.rotation;
    Pose(position, rotation)
  }
}
