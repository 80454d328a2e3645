/** Worked conversions of concrete paths. */
module Examples {
  import opened Geometry
  import opened Tokens
  import opened Parser
  import opened Commands
  import opened Arc
  import opened Converter
  import opened Properties
  import opened Lexer

  const SmoothGroups: seq<Group> :=
    [Group('M', [0.0, 0.0]), Group('C', [10.0, 0.0, 20.0, 10.0, 20.0, 20.0]), Group('S', [40.0, 40.0, 40.0, 20.0])]

  const SmoothTokens: seq<Token> :=
    [Letter('M'), Num(0.0), Num(0.0),
     Letter('C'), Num(10.0), Num(0.0), Num(20.0), Num(10.0), Num(20.0), Num(20.0),
     Letter('S'), Num(40.0), Num(40.0), Num(40.0), Num(20.0)]

  lemma SmoothTokensGroup()
    ensures Parse(SmoothTokens) == SmoothGroups
  {
    var gs := SmoothGroups;
    var ts := SmoothTokens;
    var n0 := [Num(0.0), Num(0.0)];
    var n1 := [Num(10.0), Num(0.0), Num(20.0), Num(10.0), Num(20.0), Num(20.0)];
    var n2 := [Num(40.0), Num(40.0), Num(40.0), Num(20.0)];
    assert Nums(gs[0].params) == n0;
    assert Nums(gs[1].params) == n1;
    assert Nums(gs[2].params) == n2;
    assert Flatten(gs[..1]) == [Letter('M')] + n0 by {
      assert gs[..1][..0] == [];
    }
    assert Flatten(gs[..2]) == [Letter('M')] + n0 + [Letter('C')] + n1 by {
      assert gs[..2][..1] == gs[..1];
    }
    assert Flatten(gs) == [Letter('M')] + n0 + [Letter('C')] + n1 + [Letter('S')] + n2 by {
      assert gs[..2] == gs[..|gs| - 1];
    }
    assert ts == [Letter('M')] + n0 + [Letter('C')] + n1 + [Letter('S')] + n2;
    ParseFlatten(gs);
  }

  /** "M 0 0 C 10 0 20 10 20 20 S 40 40 40 20": the second cubic starts with
      (2*20 - 20, 2*20 - 10) = (20, 30). */
  lemma SmoothCubicExample(g: ArcGeometry)
    ensures ConvertPath(g, SmoothTokens)
      == Ok([M(0.0, 0.0), C(10.0, 0.0, 20.0, 10.0, 20.0, 20.0), C(20.0, 30.0, 40.0, 40.0, 40.0, 20.0)])
  {
    SmoothTokensGroup();
    var gs := SmoothGroups;
    var s1 := MoveAbs(Initial, gs[0].params);
    assert Step(g, Initial, gs[0]) == Ok(s1);
    var s2 := CubicAbs(s1.state, gs[1].params);
    assert Step(g, s1.state, gs[1]) == Ok(s2);
    assert s2.state == State(Point(20.0, 20.0), Origin, Point(20.0, 10.0), "C");
    var s3 := SmoothCubicAbs(s2.state, gs[2].params);
    assert Step(g, s2.state, gs[2]) == Ok(s3);
    assert s3.out == [C(20.0, 30.0, 40.0, 40.0, 40.0, 20.0)];
    assert gs[1..] == [gs[1], gs[2]];
    RunTwo(g, s1.state, gs[1], gs[2]);
    assert Run(g, Initial, gs) == Ok(Emit(s3.state, s1.out + (s2.out + s3.out)));
    assert s1.out + (s2.out + s3.out) == [M(0.0, 0.0), C(10.0, 0.0, 20.0, 10.0, 20.0, 20.0), C(20.0, 30.0, 40.0, 40.0, 40.0, 20.0)];
  }

  /** "M 0 0 L 1 1 2 2": the second pair is ignored, not repeated. */
  lemma ExtraNumbersIgnored(g: ArcGeometry)
    ensures Run(g, Initial, [Group('M', [0.0, 0.0]), Group('L', [1.0, 1.0, 2.0, 2.0])])
      == Ok(Emit(State(Point(1.0, 1.0), Origin, Origin, "L"), [M(0.0, 0.0), L(1.0, 1.0)]))
  {
    var m := Group('M', [0.0, 0.0]);
    var l := Group('L', [1.0, 1.0, 2.0, 2.0]);
    assert Step(g, Initial, m) == Ok(MoveAbs(Initial, m.params));
    var s1 := MoveAbs(Initial, m.params).state;
    assert s1 == State(Origin, Origin, Origin, "M");
    assert Step(g, s1, l) == Ok(LineAbs(s1, l.params));
    var e2 := LineAbs(s1, l.params);
    assert e2.out == [L(1.0, 1.0)];
    assert e2.state == State(Point(1.0, 1.0), Origin, Origin, "L");
    RunTwo(g, Initial, m, l);
    assert [M(0.0, 0.0)] + e2.out == [M(0.0, 0.0), L(1.0, 1.0)];
  }

  /** "M 0 0 L 1": one number short of a line aborts the conversion. */
  lemma TooFewNumbers(g: ArcGeometry)
    ensures Run(g, Initial, [Group('M', [0.0, 0.0]), Group('L', [1.0])]) == Err(MissingParameters(2, 1))
  {
    var gs := [Group('M', [0.0, 0.0]), Group('L', [1.0])];
    assert gs[1..] == [Group('L', [1.0])];
    RunOne(g, Step(g, Initial, gs[0]).value.state, gs[1]);
  }

  /** "M 12 2 A 10 10 0 1 1 12 22": the end points are opposite ends of a diameter,
      so the start and end vectors are opposite (cosine -1, cross product 0) and the
      sweep is a half turn, drawn as two cubics ending the pen at (12, 22). */
  lemma HalfCircleExample(g: ArcGeometry)
    requires g.acos(-1.0) == 1.0
    requires var a := ArcSpec(Point(12.0, 2.0), 10.0, 10.0, 0.0, 1.0, 1.0, Point(12.0, 22.0));
      g.cosine(a) == -1.0 && g.cross(a) == 0.0
    ensures var r := Run(g, Initial, [Group('M', [12.0, 2.0]), Group('A', [10.0, 10.0, 0.0, 1.0, 1.0, 12.0, 22.0])]);
      && r.Ok?
      && |r.value.out| == 3
      && r.value.out[1].C? && r.value.out[2].C?
      && r.value.state.cur == Point(12.0, 22.0)
  {
    var a := ArcSpec(Point(12.0, 2.0), 10.0, 10.0, 0.0, 1.0, 1.0, Point(12.0, 22.0));
    assert Clamp(-1.0) == -1.0;
    assert Sweep(g, a) == 1.0;
    assert SegmentCount(1.0) == 2;
    var m := Group('M', [12.0, 2.0]);
    var s1 := Step(g, Initial, m).value;
    assert s1.state.cur == Point(12.0, 2.0);
    RunTwo(g, Initial, m, Group('A', [10.0, 10.0, 0.0, 1.0, 1.0, 12.0, 22.0]));
  }

  /** An exponent marker without digits ends the number before it. */
  lemma ExponentNeedsDigits()
    ensures Lex("1e") == [Num(1.0)]
  {
  }

  /** A point without a digit after it ends the number before it. */
  lemma PointNeedsDigit()
    ensures Lex("1.") == [Num(1.0)]
  {
  }

  /** A sign before the mantissa and one inside the exponent are both part of the number. */
  lemma SignedExponent()
    ensures Lex("-1e-2") == [Num(-0.01)]
  {
    var s := "-1e-2";
    assert DigitRun(s, 1) == 1;
    assert Exponent(s, 2) == (5, -2);
    assert MatchNumber(s, 0) == Number(5, -0.01);
  }
}
