/** The three membership-function shapes the summarizations build: the full
    trapezoid `trapmf(a, b, c, d)`, the left shoulder `trapmfL(a, b)` (rises from
    0 to 1) and the right shoulder `trapmfR(a, b)` (falls from 1 to 0).
    A shape is kept as its breakpoints, so that the tables built from it can be
    compared; `Degree` is its meaning as a function from a real to [0, 1]. */
module Membership {

  datatype Shape =
    | Trapezoid(a: real, b: real, c: real, d: real)
    | LeftShoulder(a: real, b: real)
    | RightShoulder(a: real, b: real)

  /** The breakpoints are given in nondecreasing order. */
  predicate WellFormed(m: Shape)
  {
    match m
    case Trapezoid(a, b, c, d) => a <= b <= c <= d
    case LeftShoulder(a, b) => a <= b
    case RightShoulder(a, b) => a <= b
  }

  /** Degree of membership of `x`: 0 outside the support, 1 on the plateau,
      linear on each ramp; breakpoints that coincide give a step. */
  function Degree(m: Shape, x: real): (r: real)
    ensures 0.0 <= r <= 1.0
    ensures WellFormed(m) && m.Trapezoid? ==>
      (x < m.a || m.d < x ==> r == 0.0) && (m.b <= x <= m.c ==> r == 1.0)
    ensures WellFormed(m) && m.LeftShoulder? ==>
      (x < m.a ==> r == 0.0) && (m.b <= x ==> r == 1.0)
    ensures WellFormed(m) && m.RightShoulder? ==>
      (x <= m.a ==> r == 1.0) && (m.b < x ==> r == 0.0)
  {
    match m
    case Trapezoid(a, b, c, d) =>
      if x < a then 0.0
      else if x < b then Ramp(x - a, b - a)
      else if x <= c then 1.0
      else if x < d then Ramp(d - x, d - c)
      else 0.0
    case LeftShoulder(a, b) =>
      if x < a then 0.0
      else if x < b then Ramp(x - a, b - a)
      else 1.0
    case RightShoulder(a, b) =>
      if x <= a then 1.0
      else if x < b then Ramp(b - x, b - a)
      else 0.0
  }

  /** The height `p / w` reached after rising `p` on a ramp of width `w`. */
  function Ramp(p: real, w: real): (r: real)
    requires 0.0 <= p < w
    ensures 0.0 <= r < 1.0
    ensures p == 0.0 ==> r == 0.0
  {
    RampBelowOne(p, w);
    p / w
  }

  lemma RampBelowOne(p: real, w: real)
    requires 0.0 <= p < w
    ensures p / w < 1.0
  {
    assert (p / w) * w == p;
  }

  /** The reflection of a shape about 0: its breakpoints negated and reversed,
      a left shoulder turning into a right shoulder and back. */
  function Mirror(m: Shape): (r: Shape)
    ensures WellFormed(m) ==> WellFormed(r)
    ensures m.Trapezoid? <==> r.Trapezoid?
    ensures m.LeftShoulder? <==> r.RightShoulder?
  {
    match m
    case Trapezoid(a, b, c, d) => Trapezoid(-d, -c, -b, -a)
    case LeftShoulder(a, b) => RightShoulder(-b, -a)
    case RightShoulder(a, b) => LeftShoulder(-b, -a)
  }

  /** Reflecting twice gives the shape back. */
  lemma MirrorInvolution(m: Shape)
    ensures Mirror(Mirror(m)) == m
  {
  }

  /** The reflected shape gives `-x` the degree the original gives `x`. */
  lemma MirrorDegree(m: Shape, x: real)
    requires WellFormed(m)
    ensures Degree(Mirror(m), -x) == Degree(m, x)
  {
  }

  /** A left shoulder never decreases and a right shoulder never increases. */
  lemma ShoulderMonotone(m: Shape, x: real, y: real)
    requires WellFormed(m) && !m.Trapezoid?
    requires x <= y
    ensures m.LeftShoulder? ==> Degree(m, x) <= Degree(m, y)
    ensures m.RightShoulder? ==> Degree(m, y) <= Degree(m, x)
  {
    if m.a < x && y < m.b {
      RampMonotone(x - m.a, y - m.a, m.b - m.a);
      RampMonotone(m.b - y, m.b - x, m.b - m.a);
    } else if m.a < x < m.b {
      RampMonotone(m.b - y, m.b - x, m.b - m.a);
    } else if m.a < y < m.b {
      RampMonotone(x - m.a, y - m.a, m.b - m.a);
    }
  }

  /** Division by a positive constant keeps the order. */
  lemma RampMonotone(p: real, q: real, w: real)
    requires 0.0 < w && p <= q
    ensures p / w <= q / w
  {
    assert q / w - p / w == (q - p) / w;
  }
}
