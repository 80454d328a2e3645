/** Command letters of the input path language and the absolute commands the
    converter emits. */
module Commands {
  import opened Geometry
  import opened Tokens
  import opened Parser

  /** Number of parameters a command letter's handler reads: `params[:k]`. */
  function Arity(c: char): nat
  {
    match c
    case 'M' | 'm' | 'L' | 'l' | 'T' | 't' => 2
    case 'H' | 'h' | 'V' | 'v' => 1
    case 'S' | 's' | 'Q' | 'q' => 4
    case 'C' | 'c' => 6
    case 'A' | 'a' => 7
    case _ => 0
  }

  /** Every command but Z/z reads at least one number, and none reads more than seven. */
  lemma ArityPositive(c: char)
    ensures Arity(c) > 0 <==> IsCommandLetter(c) && c != 'Z' && c != 'z'
    ensures Arity(c) <= 7
  {
  }

  predicate IsArcLetter(c: char)
  {
    c == 'A' || c == 'a'
  }

  /** The absolute letter a non-arc command is rewritten to. */
  function AbsoluteLetter(c: char): char
    requires IsCommandLetter(c) && !IsArcLetter(c)
  {
    match c
    case 'M' | 'm' => 'M'
    case 'L' | 'l' | 'H' | 'h' | 'V' | 'v' => 'L'
    case 'C' | 'c' | 'S' | 's' => 'C'
    case 'Q' | 'q' | 'T' | 't' => 'Q'
    case _ => 'Z'
  }

  /** The upper-case (absolute) letter of a lower-case (relative) command letter. */
  function Upper(c: char): char
    requires 'a' <= c <= 'z'
  {
    (c as int - 32) as char
  }

  /** An emitted command: absolute move, line, cubic, quadratic or close. */
  datatype Out =
    | M(x: real, y: real)
    | L(x: real, y: real)
    | C(x1: real, y1: real, x2: real, y2: real, x: real, y: real)
    | Q(x1: real, y1: real, x: real, y: real)
    | Z
  {
    function Letter(): (c: char)
      ensures IsCommandLetter(c) && !IsArcLetter(c) && AbsoluteLetter(c) == c
    {
      match this
      case M(_, _) => 'M'
      case L(_, _) => 'L'
      case C(_, _, _, _, _, _) => 'C'
      case Q(_, _, _, _) => 'Q'
      case Z => 'Z'
    }

    /** The numbers written after the letter; there are as many as its handler reads. */
    function Params(): (ps: seq<real>)
      ensures |ps| == Arity(Letter())
    {
      match this
      case M(x, y) => [x, y]
      case L(x, y) => [x, y]
      case C(x1, y1, x2, y2, x, y) => [x1, y1, x2, y2, x, y]
      case Q(x1, y1, x, y) => [x1, y1, x, y]
      case Z => []
    }

    /** Where the pen is after a drawing command. */
    function End(): Point
      requires !Z?
    {
      Point(x, y)
    }
  }

  function Cubic(c1: Point, c2: Point, to: Point): Out
  {
    C(c1.x, c1.y, c2.x, c2.y, to.x, to.y)
  }

  function Quadratic(c: Point, to: Point): Out
  {
    Q(c.x, c.y, to.x, to.y)
  }

  /** An emitted command read back as a parsed command. */
  function AsGroup(o: Out): Group
  {
    Group(o.Letter(), o.Params())
  }

  function AsGroups(outs: seq<Out>): seq<Group>
  {
    seq(|outs|, i requires 0 <= i < |outs| => AsGroup(outs[i]))
  }

  /** The token stream an output list is written as. */
  function Render(outs: seq<Out>): seq<Token>
  {
    Flatten(AsGroups(outs))
  }
}
