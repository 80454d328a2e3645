# SVG path converter, modelled in Dafny

`PathConverter` (json2figma-skill/scripts/convert_svg_paths.py) rewrites SVG path
data (SVG 1.1 section 8.3) for a design tool. It produces absolute `M`, `L`, `C`,
`Q` and `Z` commands only. It has three stages:

- The tokenizer and `_parse_path` turn the text into `(letter, numbers)` groups.
- `convert_path` folds `_convert_command` over the groups.
- The fold carries the current point, the subpath start, the last control point
  and the `last_command` letter.

Relative coordinates are resolved against the current point. H and V become L.
S and T get their first control point by reflection. Arcs become one L (when a
radius is zero) or up to four C (SVG 1.1 appendix F.6.5 and F.6.6).

The model is functional:

- `Lexer.Lex` is the tokenizer: the regular expression at line 61 scanned left to
  right, plus `float()`.
- `Parser.Parse` is the grouping loop.
- `Converter.Step` is `_convert_command`: one function per handler, dispatched by
  letter.
- `Converter.Run` is the fold. `Converter.ConvertPath` resets the state and runs
  the fold. `PathText.ConvertText` is the whole `convert_path` on text.
- Emitted commands are the datatype `Commands.Out = M | L | C | Q | Z`, not strings.
- The exceptions the code raises over exact reals are an explicit `Result`. `MissingParameters`
  stands for the IndexError or ValueError of a handler given too few numbers.
  `CoincidentArcEndpoints` stands for the ZeroDivisionError at line 353.
  `ZeroArcSweep` stands for the one at line 388, where `sin(0)` is a divisor.
  Any of them aborts the whole call.

The arc trigonometry is a parameter `Arc.ArcGeometry` holding four functions:

- `acos`, the arccosine;
- `cosine`, the unclamped cosine between the arc's start and end vectors (line 367);
- `cross`, their cross product (line 370);
- `segment`, which places the i-th cubic.

Angles are measured in half-turns (radians divided by pi). This makes the
constants pi/2, pi and 2*pi the exact reals 0.5, 1 and 2. The general lemmas
assume only that `acos` maps [-1, 1] into [0, 1]. This appears as the precondition
`AcosInRange`. `Examples.HalfCircleExample` assumes more, for its one arc:
`acos(-1) = 1`, a cosine of -1 and a cross product of 0. These are the exact
values for a diameter. The converter itself is total.

Behaviour of the code that the model keeps:

- Parameter groups are not repeated. Each handler reads its first `Arity` numbers
  and ignores the rest, so `L 1 1 2 2` emits one `L`
  (`Properties.ExtraParametersIgnored`).
- Quadratics stay `Q`; they are not raised to cubics.
- Characters that are neither a command letter nor part of a number are skipped,
  with no error.
- `M 0 0 C 10 0 20 10 20 20 S 40 40 40 20` gives the second cubic a first control
  point of (20, 30). That point is 2·20 − 20 and 2·20 − 10: the reflection of
  (20, 10) through (20, 20).
- A proper arc stores `"C"` as the last command but keeps the old control point.
  A following S therefore reflects a control point from before the arc
  (`SmoothAfterArcReflectsStaleControl`).
- A degenerate arc leaves the last command alone.
- `last_command` is kept as a string. `StepStoresOnlyAbsoluteLetters` shows that
  only "", M, L, C, Q and Z are ever stored. So the tests for "S" at lines 208 and
  225, and for "T" at lines 268 and 285, never fire.

## Model

| member | source | states |
|---|---|---|
| Lexer.DigitRun | json2figma-skill/scripts/convert_svg_paths.py:61 | the greedy `[0-9]*` run: all digits, and it stops at the end or at a non-digit |
| Lexer.Exponent | json2figma-skill/scripts/convert_svg_paths.py:61 | the optional `[eE][-+]?[0-9]+` is taken exactly when e/E is followed by an optional sign and at least one digit; it then runs to the end of those digits and carries their signed value, and otherwise it is empty with value 0 |
| Lexer.MatchNumber | json2figma-skill/scripts/convert_svg_paths.py:61 | a number starts at a position exactly when, after an optional sign, there is a digit or a point followed by a digit; a match is non-empty, stays inside the text and consists only of digits, signs, points and e/E |
| Lexer.LexLetters | json2figma-skill/scripts/convert_svg_paths.py:61 | the tokenizer keeps every command letter of the text, in order, and yields no other letter |
| Lexer.LexFrom | json2figma-skill/scripts/convert_svg_paths.py:61 | the tokens from a position on; its letters are exactly the command letters from there on (`Lexer.LexLetters`) |
| Lexer.Lex | json2figma-skill/scripts/convert_svg_paths.py:61 | `re.findall` over the whole text; its letters are exactly the text's command letters, in order (`Lexer.LexLetters` at position 0) |
| Lexer.NoCommandLettersBetween | json2figma-skill/scripts/convert_svg_paths.py:61 | skipping characters that are not command letters loses no command letter |
| Parser.ParseLetters | json2figma-skill/scripts/convert_svg_paths.py:63-79 | there is exactly one group per letter token, and the groups carry the letters in input order |
| Parser.Parse | json2figma-skill/scripts/convert_svg_paths.py:58-79 | the grouping loop; its behaviour is stated by `Parser.ParseLetters`, `Parser.FlattenParse`, `Parser.ParseFlatten` and `Parser.ParseUnique` |
| Parser.FlattenParse | json2figma-skill/scripts/convert_svg_paths.py:63-79 | writing the groups back as tokens gives the input from its first letter on, so each group holds exactly the numbers between its letter and the next |
| Parser.ParseFlatten | json2figma-skill/scripts/convert_svg_paths.py:63-79 | grouping undoes writing groups out: parse(flatten(gs)) = gs |
| Parser.ParseUnique | json2figma-skill/scripts/convert_svg_paths.py:63-79 | the grouping is the only list of groups that writes back to the input from its first letter on |
| Parser.ParseAppendGroup | json2figma-skill/scripts/convert_svg_paths.py:67-77 | a letter followed by its numbers, appended to any token stream, appends exactly one group |
| Parser.LeadingNumbersDiscarded | json2figma-skill/scripts/convert_svg_paths.py:64-74 | numbers before the first letter are dropped |
| Parser.NoLettersNoGroups | json2figma-skill/scripts/convert_svg_paths.py:64-79 | input with no letter gives no groups |
| PathText.GroupPerCommandLetter | json2figma-skill/scripts/convert_svg_paths.py:58-79 | on text, `_parse_path` gives one group per command letter, in order |
| PathText.NoCommandLetterEmpty | json2figma-skill/scripts/convert_svg_paths.py:47-56 | text with no command letter converts to the empty output "" |
| PathText.ConvertText | json2figma-skill/scripts/convert_svg_paths.py:36-56 | `convert_path` on text: tokenize, group, fold; `PathText.GroupPerCommandLetter` and `PathText.NoCommandLetterEmpty` state its grouping and its empty case |
| Geometry.Reflect | json2figma-skill/scripts/convert_svg_paths.py:208-210 | the current point is the midpoint of the old control point and its reflection |
| Converter.Step | json2figma-skill/scripts/convert_svg_paths.py:81-122 | too few numbers raise; a non-arc command fails exactly then; arcs emit at least one command, and only L or C; unknown letters emit nothing and change nothing; only M/m move the subpath start |
| Commands.Arity | json2figma-skill/scripts/convert_svg_paths.py:124-319 | the number of parameters each handler reads (`params[:k]`); `Commands.ArityPositive` shows it is positive exactly for the command letters other than Z/z; a non-arc `Converter.Step` fails exactly below it and `Properties.ExtraParametersIgnored` shows nothing past it is read |
| Commands.ArityPositive | json2figma-skill/scripts/convert_svg_paths.py:81-122 | every command letter but Z/z has a handler that reads at least one number, and none reads more than seven; other characters read none |
| Converter.StepLetter | json2figma-skill/scripts/convert_svg_paths.py:83-122 | every non-arc command emits exactly one command with its absolute letter (m→M; l, H, h, V, v→L; c, S, s→C; q, T, t→Q; z→Z) |
| Converter.MoveAbs | json2figma-skill/scripts/convert_svg_paths.py:124-131 | M: pen and subpath start move to (p0, p1); emits that M (stated by `Properties.StepState`, `Properties.AbsoluteOutputs`, `Properties.AxisLines` and `Properties.RelativeIsResolvedAbsolute`) |
| Converter.MoveRel | json2figma-skill/scripts/convert_svg_paths.py:133-140 | m: as M on the parameters offset by the current point (stated by `Properties.StepState`, `Properties.AbsoluteOutputs`, `Properties.AxisLines` and `Properties.RelativeIsResolvedAbsolute`) |
| Converter.LineAbs | json2figma-skill/scripts/convert_svg_paths.py:142-147 | L: pen moves to (p0, p1); emits that L (stated by `Properties.StepState`, `Properties.AbsoluteOutputs`, `Properties.AxisLines` and `Properties.RelativeIsResolvedAbsolute`) |
| Converter.LineRel | json2figma-skill/scripts/convert_svg_paths.py:149-154 | l: as L on the offset parameters (stated by `Properties.StepState`, `Properties.AbsoluteOutputs`, `Properties.AxisLines` and `Properties.RelativeIsResolvedAbsolute`) |
| Converter.HorizontalAbs | json2figma-skill/scripts/convert_svg_paths.py:156-160 | H: only x changes; emits an L (stated by `Properties.StepState`, `Properties.AbsoluteOutputs`, `Properties.AxisLines` and `Properties.RelativeIsResolvedAbsolute`) |
| Converter.HorizontalRel | json2figma-skill/scripts/convert_svg_paths.py:162-166 | h: only x changes, by p0; emits an L (stated by `Properties.StepState`, `Properties.AbsoluteOutputs`, `Properties.AxisLines` and `Properties.RelativeIsResolvedAbsolute`) |
| Converter.VerticalAbs | json2figma-skill/scripts/convert_svg_paths.py:168-172 | V: only y changes; emits an L (stated by `Properties.StepState`, `Properties.AbsoluteOutputs`, `Properties.AxisLines` and `Properties.RelativeIsResolvedAbsolute`) |
| Converter.VerticalRel | json2figma-skill/scripts/convert_svg_paths.py:174-178 | v: only y changes, by p0; emits an L (stated by `Properties.StepState`, `Properties.AbsoluteOutputs`, `Properties.AxisLines` and `Properties.RelativeIsResolvedAbsolute`) |
| Converter.CubicAbs | json2figma-skill/scripts/convert_svg_paths.py:180-188 | C: emits the cubic of its six parameters; the control point becomes its second control point (stated by `Properties.StepState`, `Properties.AbsoluteOutputs`, `Properties.AxisLines` and `Properties.RelativeIsResolvedAbsolute`) |
| Converter.CubicRel | json2figma-skill/scripts/convert_svg_paths.py:190-203 | c: as C on the offset parameters (stated by `Properties.StepState`, `Properties.AbsoluteOutputs`, `Properties.AxisLines` and `Properties.RelativeIsResolvedAbsolute`) |
| Converter.SmoothCubicAbs | json2figma-skill/scripts/convert_svg_paths.py:205-221 | S: emits a cubic whose first control point is `SmoothCubicControl`, then its own parameters (stated by `Properties.StepState`, `Properties.AbsoluteOutputs`, `Properties.AxisLines` and `Properties.RelativeIsResolvedAbsolute`) |
| Converter.SmoothCubicRel | json2figma-skill/scripts/convert_svg_paths.py:223-241 | s: as S on the offset parameters (stated by `Properties.StepState`, `Properties.AbsoluteOutputs`, `Properties.AxisLines` and `Properties.RelativeIsResolvedAbsolute`) |
| Converter.QuadraticAbs | json2figma-skill/scripts/convert_svg_paths.py:243-251 | Q: emits the quadratic of its four parameters; its control point is recorded (stated by `Properties.StepState`, `Properties.AbsoluteOutputs`, `Properties.AxisLines` and `Properties.RelativeIsResolvedAbsolute`) |
| Converter.QuadraticRel | json2figma-skill/scripts/convert_svg_paths.py:253-264 | q: as Q on the offset parameters (stated by `Properties.StepState`, `Properties.AbsoluteOutputs`, `Properties.AxisLines` and `Properties.RelativeIsResolvedAbsolute`) |
| Converter.SmoothQuadraticAbs | json2figma-skill/scripts/convert_svg_paths.py:266-281 | T: emits a quadratic whose control point is `SmoothQuadraticControl`, which is recorded (stated by `Properties.StepState`, `Properties.AbsoluteOutputs`, `Properties.AxisLines` and `Properties.RelativeIsResolvedAbsolute`) |
| Converter.SmoothQuadraticRel | json2figma-skill/scripts/convert_svg_paths.py:283-299 | t: as T on the offset end point (stated by `Properties.StepState`, `Properties.AbsoluteOutputs`, `Properties.AxisLines` and `Properties.RelativeIsResolvedAbsolute`) |
| Converter.Close | json2figma-skill/scripts/convert_svg_paths.py:429-434 | Z/z: pen returns to the subpath start; emits Z (stated by `Properties.StepState`, `Properties.AbsoluteOutputs`, `Properties.AxisLines` and `Properties.RelativeIsResolvedAbsolute`) |
| Converter.ArcAbs | json2figma-skill/scripts/convert_svg_paths.py:301-308 | A: the arc from the current point to (p5, p6); its cases are stated by `Properties.DegenerateArc`, `Properties.CoincidentArc` and `Properties.ProperArc` |
| Converter.ArcRel | json2figma-skill/scripts/convert_svg_paths.py:310-319 | a: the same arc with the end point offset by the current point (`Properties.RelativeIsResolvedAbsolute`) |
| Converter.Run | json2figma-skill/scripts/convert_svg_paths.py:51-54 | the conversion loop; its behaviour is stated by `FoldProperties.RunAppend`, `FoldProperties.RunWithoutArcs` and `Properties.RunStoresOnlyAbsoluteLetters` |
| Converter.ArcToBezier | json2figma-skill/scripts/convert_svg_paths.py:321-427 | a successful arc emits at least one command, only L or C, ends at the requested end point and keeps the subpath start |
| Converter.ConvertPath | json2figma-skill/scripts/convert_svg_paths.py:36-56 | a token stream without letters converts to nothing |
| Properties.StepState | json2figma-skill/scripts/convert_svg_paths.py:124-299 | after a non-arc command: `last` is the letter it emitted; the current point is its end point, or the subpath start for Z; the control point is its last control point, and is kept for M, L and Z; only M moves the subpath start |
| Properties.ExtraParametersIgnored | json2figma-skill/scripts/convert_svg_paths.py:124-319 | a handler reads only its first `Arity` numbers: appending more to a group changes neither output nor state |
| Properties.AbsoluteOutputs | json2figma-skill/scripts/convert_svg_paths.py:124-299 | the command each absolute M, L, C, Q, S, T and Z emits, in terms of its parameters; S and T put the synthesised control point first |
| Properties.AxisLines | json2figma-skill/scripts/convert_svg_paths.py:156-178 | H/h change only x and V/v only y; the emitted L keeps the other coordinate |
| Properties.RelativeIsResolvedAbsolute | json2figma-skill/scripts/convert_svg_paths.py:133-319 | every relative handler acts like its absolute counterpart applied to the parameters resolved against the current point before the command; only coordinates are shifted, never radii, angle or flags |
| Properties.SmoothStep | json2figma-skill/scripts/convert_svg_paths.py:205-299 | S/s emit a C and T/t a Q whose first control point is the synthesised one |
| Properties.SmoothCubicReflectsPreviousCubic | json2figma-skill/scripts/convert_svg_paths.py:180-241 | after C/c/S/s, an S/s starts at the previous cubic's second control point reflected through its end point |
| Properties.SmoothQuadraticReflectsPreviousQuadratic | json2figma-skill/scripts/convert_svg_paths.py:243-299 | after Q/q/T/t, a T/t starts at the previous control point reflected through its end point, including the control point a T synthesised |
| Properties.SmoothWithoutReflection | json2figma-skill/scripts/convert_svg_paths.py:205-299 | after any other non-arc command the synthesised control point is the current point: the previous end point, or the subpath start after Z |
| Properties.StepStoresOnlyAbsoluteLetters | json2figma-skill/scripts/convert_svg_paths.py:130-433 | only "", M, L, C, Q, Z are stored as the last command, so S reflects exactly after "C" and T exactly after "Q" |
| Properties.RunStoresOnlyAbsoluteLetters | json2figma-skill/scripts/convert_svg_paths.py:51-54 | the fold keeps that invariant |
| Properties.RunOne | json2figma-skill/scripts/convert_svg_paths.py:51-54 | converting one command is that command's step |
| Properties.RunTwo | json2figma-skill/scripts/convert_svg_paths.py:51-54 | converting two commands concatenates their outputs, the second run from the state the first leaves |
| Properties.DegenerateArc | json2figma-skill/scripts/convert_svg_paths.py:301-332 | with a zero radius an arc emits exactly one L to its end point (absolute for A, current point plus offset for a); only the current point changes, and `last` stays as it was |
| Properties.CoincidentArc | json2figma-skill/scripts/convert_svg_paths.py:339-353 | nonzero radii and an end point equal to the start raise a division by zero |
| Properties.ProperArc | json2figma-skill/scripts/convert_svg_paths.py:380-427 | any other arc succeeds exactly when the corrected sweep is nonzero; it then emits SegmentCount(sweep) cubics, between 1 and 4, and leaves the current point exactly at the requested end point with `last` = "C" and the control point untouched |
| Properties.SmoothAfterArcReflectsStaleControl | json2figma-skill/scripts/convert_svg_paths.py:220-241 | an S after a proper arc reflects the control point from before the arc through the arc's end point |
| Properties.CoincidentArcExcluded | json2figma-skill/scripts/convert_svg_paths.py:352-353 | an arc with nonzero radii that succeeded did not end where it started |
| Arc.Clamp | json2figma-skill/scripts/convert_svg_paths.py:368 | the clamped cosine lies in [-1, 1]: unchanged when already there, 1 above that range and -1 below it |
| Arc.Ceil | json2figma-skill/scripts/convert_svg_paths.py:386 | ceil(v) is the integer k with k - 1 < v <= k |
| Arc.AngleBetweenRange | json2figma-skill/scripts/convert_svg_paths.py:365-372 | `angle_between` lies in [-pi, pi] and has the sign of the cross product |
| Arc.AngleBetween | json2figma-skill/scripts/convert_svg_paths.py:365-372 | `angle_between` on the abstract cosine and cross product; `Arc.AngleBetweenRange` states its range and sign |
| Arc.Sweep | json2figma-skill/scripts/convert_svg_paths.py:375-383 | the corrected sweep angle; `Arc.SweepBounds` states its range and direction |
| Arc.CorrectSweep | json2figma-skill/scripts/convert_svg_paths.py:380-383 | the correction changes the angle by at most one full turn, only for sweep 0 or 1 and only when the sign is wrong; afterwards sweep 0 gives dtheta <= 0 and sweep 1 gives dtheta >= 0, within [-2pi, 2pi] |
| Arc.SegmentCount | json2figma-skill/scripts/convert_svg_paths.py:386 | the count is the least positive n with \|dtheta\| <= n·pi/2, and at most 4 when \|dtheta\| <= 2pi |
| Arc.Curves | json2figma-skill/scripts/convert_svg_paths.py:390-422 | exactly SegmentCount(dtheta) commands, all C |
| Arc.SweepBounds | json2figma-skill/scripts/convert_svg_paths.py:374-386 | the corrected sweep is within a full turn, points the way the sweep flag asks, and needs 1 to 4 cubics |
| FoldProperties.RunAppend | json2figma-skill/scripts/convert_svg_paths.py:49-56 | converting a concatenation is converting the first part and continuing from the state it leaves; the first error aborts |
| FoldProperties.RunWithoutArcs | json2figma-skill/scripts/convert_svg_paths.py:49-56 | a path without arcs converts exactly when every command has enough numbers, and then into one command per command, with its absolute letter |
| FoldProperties.LeadingRelativeMoveIsAbsolute | json2figma-skill/scripts/convert_svg_paths.py:38-45 | the state is zeroed at the start of every conversion, so a leading m converts like M |
| FoldProperties.StepEmitted | json2figma-skill/scripts/convert_svg_paths.py:124-264 | an emitted command, read back, emits itself from any state |
| FoldProperties.RunEmitted | json2figma-skill/scripts/convert_svg_paths.py:49-56 | a list of emitted commands, read back, converts to itself from any state |
| FoldProperties.ConvertIdempotent | json2figma-skill/scripts/convert_svg_paths.py:36-56 | converting written-out output gives the same output back |
| FoldProperties.ConvertTwice | json2figma-skill/scripts/convert_svg_paths.py:36-56 | converting the result of a conversion again returns it unchanged |
| Examples.SmoothTokensGroup | json2figma-skill/scripts/convert_svg_paths.py:58-79 | the tokens of `M 0 0 C 10 0 20 10 20 20 S 40 40 40 20` form three groups |
| Examples.SmoothCubicExample | json2figma-skill/scripts/convert_svg_paths.py:205-221 | that path converts to M 0 0, C 10 0 20 10 20 20, C 20 30 40 40 40 20 |
| Examples.ExtraNumbersIgnored | json2figma-skill/scripts/convert_svg_paths.py:142-147 | `L 1 1 2 2` emits the single command L 1 1 |
| Examples.TooFewNumbers | json2figma-skill/scripts/convert_svg_paths.py:142-147 | `L 1` aborts the conversion |
| Examples.HalfCircleExample | json2figma-skill/scripts/convert_svg_paths.py:12 | `M 12 2 A 10 10 0 1 1 12 22` becomes M and two cubics, with the pen at (12, 22), given the exact geometry of a half circle |
| Examples.ExponentNeedsDigits | json2figma-skill/scripts/convert_svg_paths.py:61 | `1e` is the number 1; the `e` is skipped |
| Examples.PointNeedsDigit | json2figma-skill/scripts/convert_svg_paths.py:61 | `1.` is the number 1 |
| Examples.SignedExponent | json2figma-skill/scripts/convert_svg_paths.py:61 | `-1e-2` is -0.01 |

## Left out

- `convert_json_file` and `main` (lines 437-528): JSON file input and output, the
  walk over the document tree, argument parsing and printing. They only call
  `convert_path` once per `data` field.
- validate_json.py: a console linter over untyped JSON. It is not part of this
  model.
- The trigonometric body of `_arc_to_bezier` (lines 335-378 and 388-422): the centre
  computation, radius scaling, `angle_between`'s square roots, the kappa factor and
  the placement of control points. It is supplied as `ArcGeometry`, so the curve
  points themselves, and their accuracy, are not modelled.
- Arc.SegmentCount: computed on exact half-turns, not on the floating-point
  quotient `abs(dtheta) / (math.pi / 2)`. Near a multiple of a quarter turn the
  code can round to one more or one fewer segment.
- Properties.CoincidentArc: the division by zero is modelled for exactly equal end
  points. Floating-point underflow of a tiny nonzero chord is not modelled, at
  line 353 or at the division by the vector norms at line 367.
- Properties.ProperArc: float overflow is not modelled. The `** 2` at lines 346
  and 352 raises OverflowError when a square exceeds the float range (for example
  `M 0 0 A 1e80 1e80 0 0 1 10 0`), whereas the model converts such an arc. Over
  exact reals neither overflow nor underflow can happen.
- Floating point in general: coordinates are exact reals. Python's rounding in
  `+`, `*` and `float()`, negative zero, infinities and NaN are not modelled.
  `Lexer.Lex` gives each number its exact decimal value.
- Float-to-text formatting by f-strings and the final `" ".join`. Output is the
  `Out` datatype, and `Commands.Render` writes it as tokens, not as text.
- Lexer.MatchNumber: states when a number starts and what characters it covers. It does not state that it is the longest match the regular expression allows, or which value `float()` gives the mantissa. Those are shown only on the examples.
- Python's two exception types for missing parameters (IndexError from `params[i]`,
  ValueError from unpacking) are one error, `MissingParameters`.
