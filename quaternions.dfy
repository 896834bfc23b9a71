/**
 * Rotations as Transform.js uses them. Quaternion.js is not part of this
 * model: its product and its Euler-angle constructor reach the model as
 * function values, so nothing is assumed about them beyond determinism.
 */
module Quaternions {

  /** A quaternion in the component order `[x, y, z, w]` that the interpolator stores. */
  datatype Quat = Quat(x: real, y: real, z: real, w: real)

  /**
   * The two operations of Quaternion.js that Transform.js calls:
   * `multiply(a, b)` is `a.multiply(b)` and `fromEuler(x, y, z)` is `q.fromEuler(x, y, z)`.
   */
  datatype QuatOps = QuatOps(multiply: (Quat, Quat) -> Quat, fromEuler: (real, real, real) -> Quat)
}
