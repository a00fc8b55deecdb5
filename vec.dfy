/** Three-component vectors (nanort's float3), with float arithmetic modelled as real arithmetic. */
module Vec {

  /** A float3: exactly three components. */
  type Float3 = s: seq<real> | |s| == 3 witness [0.0, 0.0, 0.0]

  function Sub(a: Float3, b: Float3): Float3 {
    [a[0] - b[0], a[1] - b[1], a[2] - b[2]]
  }

  function Neg(a: Float3): Float3 {
    [-a[0], -a[1], -a[2]]
  }

  function Dot(a: Float3, b: Float3): real {
    a[0] * b[0] + a[1] * b[1] + a[2] * b[2]
  }

  /** The usual right-handed cross product (vcross). */
  function Cross(a: Float3, b: Float3): Float3 {
    [a[1] * b[2] - a[2] * b[1],
     a[2] * b[0] - a[0] * b[2],
     a[0] * b[1] - a[1] * b[0]]
  }

  /** The cross product is perpendicular to both of its operands. */
  lemma CrossIsOrthogonal(a: Float3, b: Float3)
    ensures Dot(Cross(a, b), a) == 0.0 && Dot(Cross(a, b), b) == 0.0
  {
  }

  /** Swapping the operands of a cross product flips its direction. */
  lemma CrossAntiCommutes(a: Float3, b: Float3)
    ensures Cross(b, a) == Neg(Cross(a, b))
  {
  }
}
