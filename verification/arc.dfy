/** The control flow of `_arc_to_bezier` (SVG 1.1 appendix F.6.5 and F.6.6)
    with its floating-point geometry kept abstract.

    Angles are measured in half-turns, that is in multiples of pi radians, so the
    constants pi/2, pi and 2*pi of the source are the exact reals 0.5, 1 and 2. */
module Arc {
  import opened Geometry
  import opened Commands

  /** An arc in endpoint parameterisation: start, radii, x-axis rotation in degrees,
      and the two flags as the numbers read from the path data, and end. */
  datatype ArcSpec = ArcSpec(
    from: Point, rx: real, ry: real, rotation: real, largeArc: real, sweep: real, to: Point)

  /** One cubic segment: two control points and an end point. */
  datatype Bezier = Bezier(c1: Point, c2: Point, end: Point)

  /** The trigonometry of the conversion, supplied from outside:
      - `acos`: the arccosine, in half-turns;
      - `cosine`: the unclamped cosine of the angle from the start vector to the end
        vector of the arc, mapped to the unit circle (the centre computation);
      - `cross`: the cross product of those two vectors, whose sign orients the angle;
      - `segment(a, dtheta, n, i)`: the i-th of n cubic pieces of the arc `a` whose
        corrected sweep is dtheta. */
  datatype ArcGeometry = ArcGeometry(
    acos: real -> real,
    cosine: ArcSpec -> real,
    cross: ArcSpec -> real,
    segment: (ArcSpec, real, nat, nat) -> Bezier)

  /** math.acos maps [-1, 1] onto [0, pi]. */
  ghost predicate AcosInRange(acos: real -> real)
  {
    forall c :: -1.0 <= c <= 1.0 ==> 0.0 <= acos(c) <= 1.0
  }

  function Abs(d: real): real
  {
    if d < 0.0 then -d else d
  }

  function Min(a: real, b: real): real
  {
    if a <= b then a else b
  }

  function Max(a: real, b: real): real
  {
    if a >= b then a else b
  }

  /** `math.ceil` on a real. */
  function Ceil(v: real): (k: int)
    ensures (k - 1) as real < v <= k as real
  {
    -((-v).Floor)
  }

  /** The cosine clamped into [-1, 1] before `acos`. */
  function Clamp(c: real): (r: real)
    ensures -1.0 <= r <= 1.0
    ensures -1.0 <= c <= 1.0 ==> r == c
    ensures c > 1.0 ==> r == 1.0
    ensures c < -1.0 ==> r == -1.0
  {
    Max(-1.0, Min(1.0, c))
  }

  /** The signed angle between two vectors: the arccosine of their clamped cosine,
      negated when the cross product is negative. */
  function AngleBetween(acos: real -> real, cosine: real, cross: real): real
  {
    var angle := acos(Clamp(cosine));
    if cross < 0.0 then -angle else angle
  }

  /** The signed angle lies in [-pi, pi] and carries the sign of the cross product. */
  lemma AngleBetweenRange(acos: real -> real, cosine: real, cross: real)
    requires AcosInRange(acos)
    ensures -1.0 <= AngleBetween(acos, cosine, cross) <= 1.0
    ensures cross < 0.0 ==> AngleBetween(acos, cosine, cross) <= 0.0
    ensures cross >= 0.0 ==> AngleBetween(acos, cosine, cross) >= 0.0
  {
    var c := Clamp(cosine);
    assert 0.0 <= acos(c) <= 1.0;
  }

  /** The sweep-direction correction: a full turn is subtracted from a positive
      angle when the sweep flag is 0 and added to a negative one when it is 1. */
  function CorrectSweep(dtheta: real, sweep: real): (r: real)
    ensures r == dtheta || r == dtheta - 2.0 || r == dtheta + 2.0
    ensures (sweep != 0.0 && sweep != 1.0) ==> r == dtheta
    ensures (sweep == 0.0 && dtheta <= 0.0) || (sweep == 1.0 && dtheta >= 0.0) ==> r == dtheta
    ensures -1.0 <= dtheta <= 1.0 ==> -2.0 <= r <= 2.0
    ensures -1.0 <= dtheta <= 1.0 && sweep == 0.0 ==> r <= 0.0
    ensures -1.0 <= dtheta <= 1.0 && sweep == 1.0 ==> r >= 0.0
  {
    if sweep == 0.0 && dtheta > 0.0 then dtheta - 2.0
    else if sweep == 1.0 && dtheta < 0.0 then dtheta + 2.0
    else dtheta
  }

  /** The corrected sweep angle of a non-degenerate arc. */
  function Sweep(g: ArcGeometry, a: ArcSpec): real
  {
    CorrectSweep(AngleBetween(g.acos, g.cosine(a), g.cross(a)), a.sweep)
  }

  /** The number of cubic pieces: max(1, ceil(|dtheta| / (pi/2))). It is the least
      positive count for which no piece spans more than a quarter turn. */
  function SegmentCount(dtheta: real): (n: nat)
    ensures 1 <= n
    ensures Abs(dtheta) <= n as real / 2.0
    ensures n > 1 ==> (n - 1) as real / 2.0 < Abs(dtheta)
    ensures Abs(dtheta) <= 2.0 ==> n <= 4
  {
    var k := Ceil(Abs(dtheta) * 2.0);
    if k < 1 then 1 else k
  }

  /** The cubic pieces of an arc, one per segment, in angular order. */
  function Curves(g: ArcGeometry, a: ArcSpec, dtheta: real): (cs: seq<Out>)
    ensures |cs| == SegmentCount(dtheta)
    ensures forall i :: 0 <= i < |cs| ==> cs[i].C?
  {
    var n := SegmentCount(dtheta);
    seq(n, i requires 0 <= i < n =>
      var b := g.segment(a, dtheta, n, i);
      C(b.c1.x, b.c1.y, b.c2.x, b.c2.y, b.end.x, b.end.y))
  }

  /** The corrected sweep of any arc is at most a full turn, points the way the
      sweep flag asks, and needs between one and four pieces. */
  lemma SweepBounds(g: ArcGeometry, a: ArcSpec)
    requires AcosInRange(g.acos)
    ensures -2.0 <= Sweep(g, a) <= 2.0
    ensures a.sweep == 0.0 ==> Sweep(g, a) <= 0.0
    ensures a.sweep == 1.0 ==> Sweep(g, a) >= 0.0
    ensures 1 <= SegmentCount(Sweep(g, a)) <= 4
  {
    AngleBetweenRange(g.acos, g.cosine(a), g.cross(a));
  }
}
