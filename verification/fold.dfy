/** Properties of whole conversions: the fold composes, non-arc paths map command
    for command, a leading relative move is absolute, and converting the output
    again changes nothing. */
module FoldProperties {
  import opened Geometry
  import opened Tokens
  import opened Parser
  import opened Commands
  import opened Arc
  import opened Converter
  import opened Properties

  /** Nothing emitted first changes nothing. */
  lemma ThenNothing(st: State, r: Result<Emit>)
    ensures r.Ok? ==> Then(Emit(st, []), r) == Ok(r.value)
    ensures r.Err? ==> Then(Emit(st, []), r) == r
  {
    if r.Ok? {
      assert [] + r.value.out == r.value.out;
    }
  }

  /** Prefixing outputs is associative. */
  lemma ThenThen(first: Emit, mid: Emit, r: Result<Emit>)
    ensures Then(first, Then(mid, r)) == Then(Emit(mid.state, first.out + mid.out), r)
  {
    if r.Ok? {
      assert first.out + (mid.out + r.value.out) == (first.out + mid.out) + r.value.out;
    }
  }

  /** Converting a concatenation is converting the first part and continuing, from
      the state it leaves, with the second: the state is all that is carried. */
  lemma {:induction false} RunAppend(g: ArcGeometry, st: State, a: seq<Group>, b: seq<Group>)
    ensures Run(g, st, a).Err? ==> Run(g, st, a + b) == Run(g, st, a)
    ensures Run(g, st, a).Ok? ==>
      Run(g, st, a + b) == Then(Run(g, st, a).value, Run(g, Run(g, st, a).value.state, b))
    decreases |a|
  {
    if a == [] {
      assert a + b == b;
      ThenNothing(st, Run(g, st, b));
    } else {
      assert (a + b)[0] == a[0];
      assert (a + b)[1..] == a[1..] + b;
      var s := Step(g, st, a[0]);
      if s.Ok? {
        var first := s.value;
        RunAppend(g, first.state, a[1..], b);
        var r1 := Run(g, first.state, a[1..]);
        if r1.Ok? {
          ThenThen(first, r1.value, Run(g, r1.value.state, b));
        }
      }
    }
  }

  /** A path without arcs converts iff every command has enough numbers, and then
      into exactly one command per input command, carrying its absolute letter. */
  lemma {:induction false} RunWithoutArcs(g: ArcGeometry, st: State, cmds: seq<Group>)
    requires forall i :: 0 <= i < |cmds| ==> IsCommandLetter(cmds[i].letter) && !IsArcLetter(cmds[i].letter)
    ensures Run(g, st, cmds).Ok? <==> forall i :: 0 <= i < |cmds| ==> |cmds[i].params| >= Arity(cmds[i].letter)
    ensures Run(g, st, cmds).Ok? ==>
      && |Run(g, st, cmds).value.out| == |cmds|
      && forall i :: 0 <= i < |cmds| ==> Run(g, st, cmds).value.out[i].Letter() == AbsoluteLetter(cmds[i].letter)
    decreases |cmds|
  {
    if cmds != [] {
      var c := cmds[0];
      if |c.params| >= Arity(c.letter) {
        StepLetter(g, st, c);
        var first := Step(g, st, c).value;
        var rest := cmds[1..];
        assert forall i :: 0 <= i < |rest| ==> rest[i] == cmds[i + 1];
        RunWithoutArcs(g, first.state, rest);
        if Run(g, first.state, rest).Ok? {
          var out := first.out + Run(g, first.state, rest).value.out;
          assert Run(g, st, cmds).value.out == out;
          forall i | 0 <= i < |cmds|
            ensures out[i].Letter() == AbsoluteLetter(cmds[i].letter)
          {
            if i > 0 {
              assert out[i] == Run(g, first.state, rest).value.out[i - 1];
            }
          }
        } else {
          var j :| 0 <= j < |rest| && |rest[j].params| < Arity(rest[j].letter);
          assert cmds[j + 1] == rest[j];
        }
      }
    }
  }

  /** The state starts at the origin, so a leading m is the same as M. */
  lemma LeadingRelativeMoveIsAbsolute(g: ArcGeometry, p: seq<real>, rest: seq<Group>)
    ensures Run(g, Initial, [Group('m', p)] + rest) == Run(g, Initial, [Group('M', p)] + rest)
  {
    RelativeIsResolvedAbsolute(g, Initial, 'm', p);
    assert Resolve('m', p, Origin) == p;
    assert Upper('m') == 'M';
    assert ([Group('m', p)] + rest)[1..] == rest;
    assert ([Group('M', p)] + rest)[1..] == rest;
  }

  /** An emitted command, read back, emits itself from any state. */
  lemma StepEmitted(g: ArcGeometry, st: State, o: Out)
    ensures Step(g, st, AsGroup(o)).Ok? && Step(g, st, AsGroup(o)).value.out == [o]
  {
  }

  lemma {:induction false} RunEmitted(g: ArcGeometry, st: State, outs: seq<Out>)
    ensures Run(g, st, AsGroups(outs)).Ok? && Run(g, st, AsGroups(outs)).value.out == outs
    decreases |outs|
  {
    if outs != [] {
      var gs := AsGroups(outs);
      assert gs[0] == AsGroup(outs[0]);
      assert gs[1..] == AsGroups(outs[1..]);
      StepEmitted(g, st, outs[0]);
      var first := Step(g, st, gs[0]).value;
      RunEmitted(g, first.state, outs[1..]);
      assert [outs[0]] + outs[1..] == outs;
    }
  }

  /** Converting written-out output gives the same output back: the output only
      uses absolute commands, so it is a fixed point of the conversion. */
  lemma ConvertIdempotent(g: ArcGeometry, outs: seq<Out>)
    ensures ConvertPath(g, Render(outs)) == Ok(outs)
  {
    ParseFlatten(AsGroups(outs));
    RunEmitted(g, Initial, outs);
  }

  lemma ConvertTwice(g: ArcGeometry, ts: seq<Token>)
    requires ConvertPath(g, ts).Ok?
    ensures ConvertPath(g, Render(ConvertPath(g, ts).value)) == ConvertPath(g, ts)
  {
    ConvertIdempotent(g, ConvertPath(g, ts).value);
  }
}
