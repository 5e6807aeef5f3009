/** The fragment shader's guard on the sample position. The rotation and
    scaling that produce the position are trigonometry on GPU floats and are
    not modelled: the position arrives already transformed. */
module Shader {

  datatype Vec2 = Vec2(x: real, y: real)

  predicate InUnitSquare(p: Vec2)
  {
    0.0 <= p.x <= 1.0 && 0.0 <= p.y <= 1.0
  }

  /** A position outside the texture on either axis samples the texture's
      corner (0, 0) instead. */
  function SamplePosition(p: Vec2): (r: Vec2)
    ensures InUnitSquare(r)
    ensures InUnitSquare(p) ==> r == p
    ensures !InUnitSquare(p) ==> r == Vec2(0.0, 0.0)
  {
    if p.x > 1.0 || p.x < 0.0 || p.y > 1.0 || p.y < 0.0 then Vec2(0.0, 0.0) else p
  }

  /** Applying the guard twice is applying it once. */
  lemma SamplePositionIdempotent(p: Vec2)
    ensures SamplePosition(SamplePosition(p)) == SamplePosition(p)
  {
  }
}
