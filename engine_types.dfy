/**
 * Value types of the game engine that the scripts pass around.
 * Floating-point components are modelled as `real`, so rounding is not modelled.
 */
module EngineTypes {

  /** A 2D vector (the engine's `Vector2`). */
  datatype Vector2 = Vector2(x: real, y: real) {

    function Plus(v: Vector2): Vector2 {
      Vector2(x + v.x, y + v.y)
    }

    function Scaled(k: real): Vector2 {
      Vector2(x * k, y * k)
    }

    function Negated(): Vector2 {
      Vector2(-x, -y)
    }

    /** `magnitude > 0`: the length is positive exactly when some component is non-zero. */
    predicate IsNonZero() {
      x != 0.0 || y != 0.0
    }
  }

  const Zero: Vector2 := Vector2(0.0, 0.0)

  /** `Mathf.Clamp01`. */
  function Clamp01(t: real): (u: real)
    ensures 0.0 <= u <= 1.0
    ensures 0.0 <= t <= 1.0 ==> u == t
  {
    if t < 0.0 then 0.0 else if t > 1.0 then 1.0 else t
  }

  /** `Vector2.Lerp`: the point a fraction `t`, clamped to 0..1, of the way from `a` to `b`. */
  function Lerp(a: Vector2, b: Vector2, t: real): Vector2 {
    var u := Clamp01(t);
    Vector2(a.x + (b.x - a.x) * u, a.y + (b.y - a.y) * u)
  }

  /** A sprite tint; the four named ones are the default palette of a character. */
  datatype Color = Red | Blue | Yellow | Green | OtherColor(rgba: nat)

  const DefaultTints: seq<Color> := [Red, Blue, Yellow, Green]
}
