/** Two-dimensional vectors over the reals, and the floating-point routines
    that the entity code calls but whose bodies lie outside this model. */
module VecMath {

  /** `v2f`: a point or a displacement in world units. */
  datatype Vec2 = Vec2(x: real, y: real)

  /** `V2F_ZERO`. */
  const Zero: Vec2 := Vec2(0.0, 0.0)

  /** `add_v2f`: component-wise sum. */
  function Add(a: Vec2, b: Vec2): (r: Vec2)
  {
    Vec2(a.x + b.x, a.y + b.y)
  }

  /** The library routines the entity code relies on, as opaque total
      functions: `sinf`, `cosf`, `atan2` (arguments in the order the caller
      passes them), `normalize_v2f` and `distance_v2f`. Nothing is assumed of
      them; every fact stated for all libraries holds whatever they compute. */
  datatype MathLib = MathLib(
    sin: real -> real,
    cos: real -> real,
    atan2: (real, real) -> real,
    normalize: Vec2 -> Vec2,
    distance: (Vec2, Vec2) -> real)
}
