/**
 * Values shared by the scene tables and the legacy renderer: vectors, the
 * symbolic model matrix and the transform record (`transform_t`).
 *
 * Floats are modelled as `real`; rounding is not modelled. The 4x4 model
 * matrix is kept symbolic: it records which translation, rotations and scale
 * were composed, in which order, without evaluating any trigonometry.
 */
module Geometry {

  datatype Vec2 = Vec2(u: real, v: real)

  datatype Vec3 = Vec3(x: real, y: real, z: real)

  const Zero3: Vec3 := Vec3(0.0, 0.0, 0.0)
  const One3: Vec3 := Vec3(1.0, 1.0, 1.0)

  /** T(translate) * Rz(rotZ) * Ry(rotY) * Rx(rotX) * S(scale), angles in degrees. */
  datatype Matrix = Compose(translate: Vec3, rotZ: real, rotY: real, rotX: real, scale: Vec3)

  /** The matrix `transform_t::update` builds: translate, then rotate Z, Y, X, then scale. */
  function ModelMatrix(pos: Vec3, rot: Vec3, scale: Vec3): Matrix
  {
    Compose(pos, rot.z, rot.y, rot.x, scale)
  }

  /** A transform with its cached model matrix `m`. */
  datatype Transform = Transform(pos: Vec3, rot: Vec3, scale: Vec3, m: Matrix)
  {
    /** The cached matrix agrees with the position, rotation and scale. */
    predicate Current()
    {
      m == ModelMatrix(pos, rot, scale)
    }

    /** `transform_t::update`: recompute the cached matrix, keep everything else. */
    function Update(): (t: Transform)
      ensures t.Current()
      ensures t.pos == pos && t.rot == rot && t.scale == scale
    {
      this.(m := ModelMatrix(pos, rot, scale))
    }
  }

  /**
   * `transform_t::identity`: position and rotation zero, unit scale, and the
   * matrix recomputed from them.
   */
  function Identity(): (t: Transform)
    ensures t.pos == Zero3 && t.rot == Zero3 && t.scale == One3
    ensures t.Current()
  {
    Transform(Zero3, Zero3, One3, Compose(Zero3, 0.0, 0.0, 0.0, One3))
  }
}
