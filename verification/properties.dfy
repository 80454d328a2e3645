/** Properties of the converter: what each command does to the state and the
    output, how relative commands relate to absolute ones, the reflection rule,
    the arc branches, and the fold as a whole. */
module Properties {
  import opened Geometry
  import opened Tokens
  import opened Parser
  import opened Commands
  import opened Arc
  import opened Converter

  // ---- One command ----

  /** After a non-arc command the state is described by the command it emitted:
      `last` is that command's letter, the current point is its end point (the
      subpath start for Z), the last control point is its last control point (kept
      for M, L and Z), and only M moves the subpath start. */
  lemma StepState(g: ArcGeometry, st: State, cmd: Group)
    requires IsCommandLetter(cmd.letter) && !IsArcLetter(cmd.letter)
    requires |cmd.params| >= Arity(cmd.letter)
    ensures Step(g, st, cmd).Ok? && |Step(g, st, cmd).value.out| == 1
    ensures var e := Step(g, st, cmd).value; var o := e.out[0];
      && e.state.last == [o.Letter()]
      && (o.Z? ==> e.state.cur == st.start)
      && (!o.Z? ==> e.state.cur == o.End())
      && (o.C? ==> e.state.ctrl == Point(o.x2, o.y2))
      && (o.Q? ==> e.state.ctrl == Point(o.x1, o.y1))
      && (o.M? || o.L? || o.Z? ==> e.state.ctrl == st.ctrl)
      && (o.M? ==> e.state.start == e.state.cur)
      && (!o.M? ==> e.state.start == st.start)
  {
  }

  /** H/h change only x and V/v only y; the other coordinate of the emitted L is
      the current point's. */
  lemma AxisLines(g: ArcGeometry, st: State, cmd: Group)
    requires cmd.letter in {'H', 'h', 'V', 'v'} && |cmd.params| >= 1
    ensures Step(g, st, cmd).Ok?
    ensures var o := Step(g, st, cmd).value.out[0];
      && (cmd.letter == 'H' ==> o == L(cmd.params[0], st.cur.y))
      && (cmd.letter == 'h' ==> o == L(st.cur.x + cmd.params[0], st.cur.y))
      && (cmd.letter == 'V' ==> o == L(st.cur.x, cmd.params[0]))
      && (cmd.letter == 'v' ==> o == L(st.cur.x, st.cur.y + cmd.params[0]))
  {
  }

  /** Handlers read only their first `Arity` numbers: the rest of a group changes
      nothing, neither the output nor the state. */
  lemma ExtraParametersIgnored(g: ArcGeometry, st: State, c: char, p: seq<real>)
    requires |p| >= Arity(c)
    ensures Step(g, st, Group(c, p)) == Step(g, st, Group(c, p[..Arity(c)]))
  {
  }

  /** What each absolute non-arc command emits, in terms of its parameters; S and T
      put the synthesised control point first. Relative commands follow from
      `RelativeIsResolvedAbsolute`, H and V from `AxisLines`. */
  lemma AbsoluteOutputs(g: ArcGeometry, st: State, c: char, p: seq<real>)
    requires !IsArcLetter(c) && |p| >= Arity(c)
    ensures Step(g, st, Group(c, p)).Ok?
    ensures var o := Step(g, st, Group(c, p)).value.out;
      && (c == 'M' ==> o == [M(p[0], p[1])])
      && (c == 'L' ==> o == [L(p[0], p[1])])
      && (c == 'C' ==> o == [C(p[0], p[1], p[2], p[3], p[4], p[5])])
      && (c == 'Q' ==> o == [Q(p[0], p[1], p[2], p[3])])
      && (c == 'Z' || c == 'z' ==> o == [Z])
    ensures var o := Step(g, st, Group(c, p)).value.out; var c1 := SmoothCubicControl(st);
      c == 'S' ==> o == [C(c1.x, c1.y, p[0], p[1], p[2], p[3])]
    ensures var o := Step(g, st, Group(c, p)).value.out; var c1 := SmoothQuadraticControl(st);
      c == 'T' ==> o == [Q(c1.x, c1.y, p[0], p[1])]
  {
  }

  predicate IsRelativeLetter(c: char)
  {
    c == 'm' || c == 'l' || c == 'h' || c == 'v' || c == 'c' || c == 's' || c == 'q' || c == 't' || c == 'a'
  }

  /** Whether parameter `i` of relative command `c` is an x coordinate (SVG 1.1 section 8.3). */
  predicate IsXCoordinate(c: char, i: int)
  {
    match c
    case 'm' | 'l' | 't' | 'h' => i == 0
    case 'c' => i == 0 || i == 2 || i == 4
    case 's' | 'q' => i == 0 || i == 2
    case 'a' => i == 5
    case _ => false
  }

  /** Whether parameter `i` of relative command `c` is a y coordinate. */
  predicate IsYCoordinate(c: char, i: int)
  {
    match c
    case 'm' | 'l' | 't' => i == 1
    case 'v' => i == 0
    case 'c' => i == 1 || i == 3 || i == 5
    case 's' | 'q' => i == 1 || i == 3
    case 'a' => i == 6
    case _ => false
  }

  /** The parameters of relative command `c` made absolute against `cur`:
      every coordinate gets the current point added, radii, angle and flags do not. */
  function Resolve(c: char, p: seq<real>, cur: Point): seq<real>
  {
    seq(|p|, i requires 0 <= i < |p| =>
      if IsXCoordinate(c, i) then p[i] + cur.x
      else if IsYCoordinate(c, i) then p[i] + cur.y
      else p[i])
  }

  /** A relative command does exactly what its absolute counterpart does on the
      parameters resolved against the current point before the command. */
  lemma RelativeIsResolvedAbsolute(g: ArcGeometry, st: State, c: char, p: seq<real>)
    requires IsRelativeLetter(c)
    ensures Step(g, st, Group(c, p)) == Step(g, st, Group(Upper(c), Resolve(c, p, st.cur)))
  {
    var q := Resolve(c, p, st.cur);
    assert |q| == |p|;
    if |p| >= Arity(c) {
      match c
      case 'm' => assert MoveRel(st, p) == MoveAbs(st, q);
      case 'l' => assert LineRel(st, p) == LineAbs(st, q);
      case 'h' => assert HorizontalRel(st, p) == HorizontalAbs(st, q);
      case 'v' => assert VerticalRel(st, p) == VerticalAbs(st, q);
      case 'c' => assert CubicRel(st, p) == CubicAbs(st, q);
      case 's' => assert SmoothCubicRel(st, p) == SmoothCubicAbs(st, q);
      case 'q' => assert QuadraticRel(st, p) == QuadraticAbs(st, q);
      case 't' => assert SmoothQuadraticRel(st, p) == SmoothQuadraticAbs(st, q);
      case 'a' => assert ArcRel(g, st, p) == ArcAbs(g, st, q);
    }
  }

  // ---- The fold on short paths ----

  lemma RunOne(g: ArcGeometry, st: State, a: Group)
    ensures Step(g, st, a).Ok? ==> Run(g, st, [a]) == Step(g, st, a)
    ensures Step(g, st, a).Err? ==> Run(g, st, [a]) == Err(Step(g, st, a).error)
  {
    assert [a][1..] == [];
    if Step(g, st, a).Ok? {
      var e := Step(g, st, a).value;
      assert e.out + [] == e.out;
    }
  }

  lemma RunTwo(g: ArcGeometry, st: State, a: Group, b: Group)
    requires Step(g, st, a).Ok?
    requires Step(g, Step(g, st, a).value.state, b).Ok?
    ensures var e1 := Step(g, st, a).value; var e2 := Step(g, e1.state, b).value;
      Run(g, st, [a, b]) == Ok(Emit(e2.state, e1.out + e2.out))
  {
    assert [a, b][1..] == [b];
    RunOne(g, Step(g, st, a).value.state, b);
  }

  // ---- The reflection rule ----

  /** S/s and T/t synthesise their first control point from the state before them. */
  lemma SmoothStep(g: ArcGeometry, st: State, cmd: Group)
    requires cmd.letter in {'S', 's', 'T', 't'} && |cmd.params| >= Arity(cmd.letter)
    ensures Step(g, st, cmd).Ok?
    ensures var o := Step(g, st, cmd).value.out[0];
      && (cmd.letter in {'S', 's'} ==> o.C? && Point(o.x1, o.y1) == SmoothCubicControl(st))
      && (cmd.letter in {'T', 't'} ==> o.Q? && Point(o.x1, o.y1) == SmoothQuadraticControl(st))
  {
  }

  /** After C, c, S or s, the next S or s starts with the previous cubic's second
      control point reflected through its end point. */
  lemma SmoothCubicReflectsPreviousCubic(g: ArcGeometry, st: State, prev: Group, next: Group)
    requires prev.letter in {'C', 'c', 'S', 's'} && |prev.params| >= Arity(prev.letter)
    requires next.letter in {'S', 's'} && |next.params| >= Arity(next.letter)
    ensures Run(g, st, [prev, next]).Ok?
    ensures var o := Run(g, st, [prev, next]).value.out;
      |o| == 2 && o[0].C? && o[1].C? && Point(o[1].x1, o[1].y1) == Reflect(Point(o[0].x2, o[0].y2), o[0].End())
  {
    StepState(g, st, prev);
    var e := Step(g, st, prev).value;
    SmoothStep(g, e.state, next);
    StepState(g, e.state, next);
    RunTwo(g, st, prev, next);
  }

  /** After Q, q, T or t, the next T or t starts with the previous quadratic's
      control point reflected through its end point; a chain of T keeps reflecting
      the synthesised control points. */
  lemma SmoothQuadraticReflectsPreviousQuadratic(g: ArcGeometry, st: State, prev: Group, next: Group)
    requires prev.letter in {'Q', 'q', 'T', 't'} && |prev.params| >= Arity(prev.letter)
    requires next.letter in {'T', 't'} && |next.params| >= Arity(next.letter)
    ensures Run(g, st, [prev, next]).Ok?
    ensures var o := Run(g, st, [prev, next]).value.out;
      |o| == 2 && o[0].Q? && o[1].Q? && Point(o[1].x1, o[1].y1) == Reflect(Point(o[0].x1, o[0].y1), o[0].End())
  {
    StepState(g, st, prev);
    var e := Step(g, st, prev).value;
    SmoothStep(g, e.state, next);
    StepState(g, e.state, next);
    RunTwo(g, st, prev, next);
  }

  /** After any other non-arc command the synthesised control point of S/s is the
      current point: the previous end point, or the subpath start after Z. The same
      holds for T/t after a command that is not a quadratic. */
  lemma SmoothWithoutReflection(g: ArcGeometry, st: State, prev: Group, next: Group)
    requires IsCommandLetter(prev.letter) && !IsArcLetter(prev.letter) && |prev.params| >= Arity(prev.letter)
    requires next.letter in {'S', 's', 'T', 't'} && |next.params| >= Arity(next.letter)
    requires next.letter in {'S', 's'} ==> prev.letter !in {'C', 'c', 'S', 's'}
    requires next.letter in {'T', 't'} ==> prev.letter !in {'Q', 'q', 'T', 't'}
    ensures Run(g, st, [prev, next]).Ok?
    ensures var o := Run(g, st, [prev, next]).value.out;
      |o| == 2 && (o[1].C? || o[1].Q?) && Point(o[1].x1, o[1].y1) == if o[0].Z? then st.start else o[0].End()
  {
    StepState(g, st, prev);
    var e := Step(g, st, prev).value;
    SmoothStep(g, e.state, next);
    StepState(g, e.state, next);
    RunTwo(g, st, prev, next);
  }

  /** The `last_command` values the converter stores. */
  predicate StoredLast(last: string)
  {
    last == "" || last == "M" || last == "L" || last == "C" || last == "Q" || last == "Z"
  }

  /** Only "", M, L, C, Q and Z are ever stored, so the tests for "S" and "T" in the
      reflection rule never fire: S reflects exactly after "C", T exactly after "Q". */
  lemma StepStoresOnlyAbsoluteLetters(g: ArcGeometry, st: State, cmd: Group)
    requires StoredLast(st.last)
    ensures Step(g, st, cmd).Ok? ==> StoredLast(Step(g, st, cmd).value.state.last)
    ensures SmoothCubicControl(st) == if st.last == "C" then Reflect(st.ctrl, st.cur) else st.cur
    ensures SmoothQuadraticControl(st) == if st.last == "Q" then Reflect(st.ctrl, st.cur) else st.cur
  {
    if Step(g, st, cmd).Ok? && |cmd.params| >= Arity(cmd.letter) {
      if IsCommandLetter(cmd.letter) && !IsArcLetter(cmd.letter) {
        StepState(g, st, cmd);
      }
    }
  }

  lemma {:induction false} RunStoresOnlyAbsoluteLetters(g: ArcGeometry, st: State, cmds: seq<Group>)
    requires StoredLast(st.last)
    ensures Run(g, st, cmds).Ok? ==> StoredLast(Run(g, st, cmds).value.state.last)
    decreases |cmds|
  {
    if cmds != [] {
      StepStoresOnlyAbsoluteLetters(g, st, cmds[0]);
      var r := Step(g, st, cmds[0]);
      if r.Ok? {
        RunStoresOnlyAbsoluteLetters(g, r.value.state, cmds[1..]);
      }
    }
  }

  // ---- Arcs ----

  function ArcEnd(c: char, p: seq<real>, cur: Point): Point
    requires |p| >= 7
  {
    if c == 'A' then Point(p[5], p[6]) else Offset(cur, p[5], p[6])
  }

  function ArcOf(c: char, p: seq<real>, cur: Point): ArcSpec
    requires |p| >= 7
  {
    ArcSpec(cur, p[0], p[1], p[2], p[3], p[4], ArcEnd(c, p, cur))
  }

  /** An arc with a zero radius is one L to its end point (absolute for A, current
      point plus offset for a); only the current point changes. */
  lemma DegenerateArc(g: ArcGeometry, st: State, c: char, p: seq<real>)
    requires IsArcLetter(c) && |p| >= 7
    requires p[0] == 0.0 || p[1] == 0.0
    ensures var to := ArcEnd(c, p, st.cur);
      Step(g, st, Group(c, p)) == Ok(Emit(st.(cur := to), [L(to.x, to.y)]))
  {
  }

  /** An arc with nonzero radii that ends where it starts divides by zero. */
  lemma CoincidentArc(g: ArcGeometry, st: State, c: char, p: seq<real>)
    requires IsArcLetter(c) && |p| >= 7
    requires p[0] != 0.0 && p[1] != 0.0 && ArcEnd(c, p, st.cur) == st.cur
    ensures Step(g, st, Group(c, p)) == Err(CoincidentArcEndpoints)
  {
  }

  /** Any other arc emits between one and four cubics, one per quarter turn of its
      corrected sweep, unless that sweep is zero; afterwards the current point is
      exactly the requested end point, `last` is "C", and the control point and
      subpath start are untouched. */
  lemma ProperArc(g: ArcGeometry, st: State, c: char, p: seq<real>)
    requires AcosInRange(g.acos)
    requires IsArcLetter(c) && |p| >= 7
    requires p[0] != 0.0 && p[1] != 0.0 && ArcEnd(c, p, st.cur) != st.cur
    ensures var a := ArcOf(c, p, st.cur); var r := Step(g, st, Group(c, p));
      && (r.Ok? <==> Sweep(g, a) != 0.0)
      && (r.Err? ==> r.error == ZeroArcSweep)
      && (r.Ok? ==>
            && |r.value.out| == SegmentCount(Sweep(g, a))
            && 1 <= |r.value.out| <= 4
            && (forall i :: 0 <= i < |r.value.out| ==> r.value.out[i].C?)
            && r.value.state == st.(cur := a.to, last := "C"))
  {
    SweepBounds(g, ArcOf(c, p, st.cur));
  }

  /** Arcs do not record a control point, so an S right after a proper arc
      reflects the control point from before the arc through the arc's end point. */
  lemma SmoothAfterArcReflectsStaleControl(g: ArcGeometry, st: State, arc: Group, next: Group)
    requires AcosInRange(g.acos)
    requires IsArcLetter(arc.letter) && |arc.params| >= 7
    requires arc.params[0] != 0.0 && arc.params[1] != 0.0
    requires Step(g, st, arc).Ok?
    requires next.letter in {'S', 's'} && |next.params| >= 4
    ensures Run(g, st, [arc, next]).Ok?
    ensures var o := Run(g, st, [arc, next]).value.out;
      o[|o| - 1].C? && Point(o[|o| - 1].x1, o[|o| - 1].y1) == Reflect(st.ctrl, ArcEnd(arc.letter, arc.params, st.cur))
  {
    var a := ArcOf(arc.letter, arc.params, st.cur);
    CoincidentArcExcluded(g, st, arc);
    ProperArc(g, st, arc.letter, arc.params);
    var e := Step(g, st, arc).value;
    SmoothStep(g, e.state, next);
    StepState(g, e.state, next);
    RunTwo(g, st, arc, next);
  }

  lemma CoincidentArcExcluded(g: ArcGeometry, st: State, arc: Group)
    requires IsArcLetter(arc.letter) && |arc.params| >= 7
    requires arc.params[0] != 0.0 && arc.params[1] != 0.0
    requires Step(g, st, arc).Ok?
    ensures ArcEnd(arc.letter, arc.params, st.cur) != st.cur
  {
    if ArcEnd(arc.letter, arc.params, st.cur) == st.cur {
      CoincidentArc(g, st, arc.letter, arc.params);
    }
  }
}
