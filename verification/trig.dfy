/** The floating-point library the tortoise relies on, abstracted.
    `cos`, `sin` and `M_PI` are left uninterpreted: a `Math` value carries
    two arbitrary total functions and a constant, and the only fact known
    about them is that the constant is positive. Every property proved with
    a `Math` parameter therefore holds whatever values the C library gives. */
module Trig {

  datatype Env = Env(cos: real -> real, sin: real -> real, pi: real)

  /** An environment whose `pi` can be divided by, as `M_PI` can. */
  type Math = e: Env | e.pi > 0.0 witness Env(_ => 1.0, _ => 0.0, 3.0)

  /** Degrees to radians, in the order `tortoise_turn` multiplies: M_PI / 180.0 * value. */
  function Radians(m: Math, degrees: real): real {
    m.pi / 180.0 * degrees
  }

  /** Radians to degrees, as `tortoise_turn` reports its heading: direction * 180.0 / M_PI. */
  function Degrees(m: Math, radians: real): real {
    radians * 180.0 / m.pi
  }

  /** Reporting a converted angle gives back the degrees that were converted. */
  lemma DegreesOfRadians(m: Math, degrees: real)
    ensures Degrees(m, Radians(m, degrees)) == degrees
  {
  }

  /** Both conversions are linear, so sums of angles convert term by term. */
  lemma RadiansAdditive(m: Math, a: real, b: real)
    ensures Radians(m, a + b) == Radians(m, a) + Radians(m, b)
  {
  }

  lemma DegreesAdditive(m: Math, a: real, b: real)
    ensures Degrees(m, a + b) == Degrees(m, a) + Degrees(m, b)
  {
  }
}
