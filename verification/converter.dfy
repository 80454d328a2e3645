/** `PathConverter`: a left fold of one handler per command letter over the parsed
    commands, threading the current point, the subpath start, the last control
    point and the letter of the last command. */
module Converter {
  import opened Geometry
  import opened Tokens
  import opened Parser
  import opened Commands
  import opened Arc

  /** The converter's fields. `last` is the string `last_command`, "" initially. */
  datatype State = State(cur: Point, start: Point, ctrl: Point, last: string)

  /** The state `convert_path` resets to before every conversion. */
  const Initial: State := State(Origin, Origin, Origin, "")

  /** The exceptions a conversion can raise; each aborts the whole call. */
  datatype ConvertError =
    | MissingParameters(arity: nat, given: nat)  // IndexError or ValueError: fewer numbers than the handler reads
    | CoincidentArcEndpoints                      // ZeroDivisionError: arc with nonzero radii ending where it starts
    | ZeroArcSweep                                // ZeroDivisionError: sin(0) when the corrected sweep is zero

  datatype Result<T> = Ok(value: T) | Err(error: ConvertError)

  /** A handler's effect: the new state and the commands it emits. */
  datatype Emit = Emit(state: State, out: seq<Out>)

  // ---- Move, line, horizontal and vertical line ----

  function MoveAbs(st: State, p: seq<real>): Emit
    requires |p| >= 2
  {
    var to := Point(p[0], p[1]);
    Emit(st.(cur := to, start := to, last := "M"), [M(to.x, to.y)])
  }

  function MoveRel(st: State, p: seq<real>): Emit
    requires |p| >= 2
  {
    var to := Offset(st.cur, p[0], p[1]);
    Emit(st.(cur := to, start := to, last := "M"), [M(to.x, to.y)])
  }

  function LineAbs(st: State, p: seq<real>): Emit
    requires |p| >= 2
  {
    var to := Point(p[0], p[1]);
    Emit(st.(cur := to, last := "L"), [L(to.x, to.y)])
  }

  function LineRel(st: State, p: seq<real>): Emit
    requires |p| >= 2
  {
    var to := Offset(st.cur, p[0], p[1]);
    Emit(st.(cur := to, last := "L"), [L(to.x, to.y)])
  }

  function HorizontalAbs(st: State, p: seq<real>): Emit
    requires |p| >= 1
  {
    var to := st.cur.(x := p[0]);
    Emit(st.(cur := to, last := "L"), [L(to.x, to.y)])
  }

  function HorizontalRel(st: State, p: seq<real>): Emit
    requires |p| >= 1
  {
    var to := st.cur.(x := st.cur.x + p[0]);
    Emit(st.(cur := to, last := "L"), [L(to.x, to.y)])
  }

  function VerticalAbs(st: State, p: seq<real>): Emit
    requires |p| >= 1
  {
    var to := st.cur.(y := p[0]);
    Emit(st.(cur := to, last := "L"), [L(to.x, to.y)])
  }

  function VerticalRel(st: State, p: seq<real>): Emit
    requires |p| >= 1
  {
    var to := st.cur.(y := st.cur.y + p[0]);
    Emit(st.(cur := to, last := "L"), [L(to.x, to.y)])
  }

  // ---- Cubic and smooth cubic ----

  function CubicAbs(st: State, p: seq<real>): Emit
    requires |p| >= 6
  {
    var c1 := Point(p[0], p[1]);
    var c2 := Point(p[2], p[3]);
    var to := Point(p[4], p[5]);
    Emit(st.(ctrl := c2, cur := to, last := "C"), [Cubic(c1, c2, to)])
  }

  function CubicRel(st: State, p: seq<real>): Emit
    requires |p| >= 6
  {
    var c1 := Offset(st.cur, p[0], p[1]);
    var c2 := Offset(st.cur, p[2], p[3]);
    var to := Offset(st.cur, p[4], p[5]);
    Emit(st.(ctrl := c2, cur := to, last := "C"), [Cubic(c1, c2, to)])
  }

  /** The first control point of S/s: the last control point reflected through the
      current point after a cubic, the current point otherwise. */
  function SmoothCubicControl(st: State): Point
  {
    if st.last == "C" || st.last == "S" then Reflect(st.ctrl, st.cur) else st.cur
  }

  function SmoothCubicAbs(st: State, p: seq<real>): Emit
    requires |p| >= 4
  {
    var c1 := SmoothCubicControl(st);
    var c2 := Point(p[0], p[1]);
    var to := Point(p[2], p[3]);
    Emit(st.(ctrl := c2, cur := to, last := "C"), [Cubic(c1, c2, to)])
  }

  function SmoothCubicRel(st: State, p: seq<real>): Emit
    requires |p| >= 4
  {
    var c1 := SmoothCubicControl(st);
    var c2 := Offset(st.cur, p[0], p[1]);
    var to := Offset(st.cur, p[2], p[3]);
    Emit(st.(ctrl := c2, cur := to, last := "C"), [Cubic(c1, c2, to)])
  }

  // ---- Quadratic and smooth quadratic (kept as Q) ----

  function QuadraticAbs(st: State, p: seq<real>): Emit
    requires |p| >= 4
  {
    var c := Point(p[0], p[1]);
    var to := Point(p[2], p[3]);
    Emit(st.(ctrl := c, cur := to, last := "Q"), [Quadratic(c, to)])
  }

  function QuadraticRel(st: State, p: seq<real>): Emit
    requires |p| >= 4
  {
    var c := Offset(st.cur, p[0], p[1]);
    var to := Offset(st.cur, p[2], p[3]);
    Emit(st.(ctrl := c, cur := to, last := "Q"), [Quadratic(c, to)])
  }

  /** The control point of T/t: the last control point reflected through the
      current point after a quadratic, the current point otherwise. */
  function SmoothQuadraticControl(st: State): Point
  {
    if st.last == "Q" || st.last == "T" then Reflect(st.ctrl, st.cur) else st.cur
  }

  function SmoothQuadraticAbs(st: State, p: seq<real>): Emit
    requires |p| >= 2
  {
    var c := SmoothQuadraticControl(st);
    var to := Point(p[0], p[1]);
    Emit(st.(ctrl := c, cur := to, last := "Q"), [Quadratic(c, to)])
  }

  function SmoothQuadraticRel(st: State, p: seq<real>): Emit
    requires |p| >= 2
  {
    var c := SmoothQuadraticControl(st);
    var to := Offset(st.cur, p[0], p[1]);
    Emit(st.(ctrl := c, cur := to, last := "Q"), [Quadratic(c, to)])
  }

  // ---- Arc and close ----

  /** A degenerate arc (a zero radius) becomes a line and leaves `last` alone;
      any other arc becomes cubics, records "C" and keeps the old control point. */
  function ArcToBezier(g: ArcGeometry, st: State, a: ArcSpec): (r: Result<Emit>)
    ensures r.Ok? ==> 1 <= |r.value.out| && forall o :: o in r.value.out ==> o.L? || o.C?
    ensures r.Ok? ==> r.value.state.cur == a.to && r.value.state.start == st.start
  {
    if a.rx == 0.0 || a.ry == 0.0 then
      Ok(Emit(st.(cur := a.to), [L(a.to.x, a.to.y)]))
    else if a.from == a.to then
      Err(CoincidentArcEndpoints)
    else
      var dtheta := Sweep(g, a);
      if dtheta == 0.0 then Err(ZeroArcSweep)
      else Ok(Emit(st.(cur := a.to, last := "C"), Curves(g, a, dtheta)))
  }

  function ArcAbs(g: ArcGeometry, st: State, p: seq<real>): Result<Emit>
    requires |p| >= 7
  {
    ArcToBezier(g, st, ArcSpec(st.cur, p[0], p[1], p[2], p[3], p[4], Point(p[5], p[6])))
  }

  function ArcRel(g: ArcGeometry, st: State, p: seq<real>): Result<Emit>
    requires |p| >= 7
  {
    ArcToBezier(g, st, ArcSpec(st.cur, p[0], p[1], p[2], p[3], p[4], Offset(st.cur, p[5], p[6])))
  }

  function Close(st: State): Emit
  {
    Emit(st.(cur := st.start, last := "Z"), [Z])
  }

  // ---- Dispatch and fold ----

  /** `_convert_command`: one command's effect. Handlers read only their first
      `Arity` numbers; fewer raise; other letters emit nothing. */
  function Step(g: ArcGeometry, st: State, cmd: Group): (r: Result<Emit>)
    ensures |cmd.params| < Arity(cmd.letter) ==> r == Err(MissingParameters(Arity(cmd.letter), |cmd.params|))
    ensures !IsArcLetter(cmd.letter) ==> (r.Ok? <==> |cmd.params| >= Arity(cmd.letter))
    ensures r.Ok? && IsArcLetter(cmd.letter) ==>
      1 <= |r.value.out| && forall o :: o in r.value.out ==> o.L? || o.C?
    ensures !IsCommandLetter(cmd.letter) ==> r == Ok(Emit(st, []))
    ensures r.Ok? && cmd.letter != 'M' && cmd.letter != 'm' ==> r.value.state.start == st.start
  {
    var p := cmd.params;
    if |p| < Arity(cmd.letter) then Err(MissingParameters(Arity(cmd.letter), |p|))
    else
      match cmd.letter
      case 'M' => Ok(MoveAbs(st, p))
      case 'm' => Ok(MoveRel(st, p))
      case 'L' => Ok(LineAbs(st, p))
      case 'l' => Ok(LineRel(st, p))
      case 'H' => Ok(HorizontalAbs(st, p))
      case 'h' => Ok(HorizontalRel(st, p))
      case 'V' => Ok(VerticalAbs(st, p))
      case 'v' => Ok(VerticalRel(st, p))
      case 'C' => Ok(CubicAbs(st, p))
      case 'c' => Ok(CubicRel(st, p))
      case 'S' => Ok(SmoothCubicAbs(st, p))
      case 's' => Ok(SmoothCubicRel(st, p))
      case 'Q' => Ok(QuadraticAbs(st, p))
      case 'q' => Ok(QuadraticRel(st, p))
      case 'T' => Ok(SmoothQuadraticAbs(st, p))
      case 't' => Ok(SmoothQuadraticRel(st, p))
      case 'A' => ArcAbs(g, st, p)
      case 'a' => ArcRel(g, st, p)
      case 'Z' => Ok(Close(st))
      case 'z' => Ok(Close(st))
      case _ => Ok(Emit(st, []))
  }

  /** Every non-arc command emits exactly one command, written with its absolute letter. */
  lemma StepLetter(g: ArcGeometry, st: State, cmd: Group)
    requires IsCommandLetter(cmd.letter) && !IsArcLetter(cmd.letter)
    requires |cmd.params| >= Arity(cmd.letter)
    ensures Step(g, st, cmd).Ok?
    ensures |Step(g, st, cmd).value.out| == 1
    ensures Step(g, st, cmd).value.out[0].Letter() == AbsoluteLetter(cmd.letter)
  {
  }

  /** The conversion loop from state `st`: the outputs of all commands, concatenated,
      and the final state; the first raising command aborts the whole run. */
  function Run(g: ArcGeometry, st: State, cmds: seq<Group>): Result<Emit>
    decreases |cmds|
  {
    if cmds == [] then Ok(Emit(st, []))
    else
      match Step(g, st, cmds[0])
      case Err(e) => Err(e)
      case Ok(first) => Then(first, Run(g, first.state, cmds[1..]))
  }

  /** `first` followed by the result of the commands after it. */
  function Then(first: Emit, rest: Result<Emit>): Result<Emit>
  {
    match rest
    case Err(e) => Err(e)
    case Ok(e) => Ok(Emit(e.state, first.out + e.out))
  }

  /** `convert_path` on a token stream: reset the state, group, fold. */
  function ConvertPath(g: ArcGeometry, ts: seq<Token>): (r: Result<seq<Out>>)
    ensures NoLetters(ts) ==> r == Ok([])
  {
    NoLettersNoGroups(ts);
    match Run(g, Initial, Parse(ts))
    case Err(e) => Err(e)
    case Ok(e) => Ok(e.out)
  }
}
