/** Grouping of a token stream into (command letter, parameters) pairs, as
    `PathConverter._parse_path` does after its regular-expression tokenizer. */
module Parser {
  import opened Tokens

  /** One command letter with the numbers that follow it, up to the next letter. */
  datatype Group = Group(letter: char, params: seq<real>)

  /** The left-to-right grouping loop. The last group is the one still being filled;
      a number arriving before any letter is dropped. */
  function Parse(ts: seq<Token>): seq<Group>
    decreases |ts|
  {
    if ts == [] then []
    else
      var gs := Parse(ts[..|ts| - 1]);
      match ts[|ts| - 1]
      case Letter(c) => gs + [Group(c, [])]
      case Num(r) =>
        if gs == [] then []
        else gs[..|gs| - 1] + [gs[|gs| - 1].(params := gs[|gs| - 1].params + [r])]
  }

  /** The letters of `gs`, in order. */
  function LettersOf(gs: seq<Group>): seq<char>
  {
    seq(|gs|, i requires 0 <= i < |gs| => gs[i].letter)
  }

  /** The token stream a list of groups is written as: each letter followed by its numbers. */
  function Flatten(gs: seq<Group>): seq<Token>
    decreases |gs|
  {
    if gs == [] then []
    else Flatten(gs[..|gs| - 1]) + [Letter(gs[|gs| - 1].letter)] + Nums(gs[|gs| - 1].params)
  }

  lemma {:induction false} NoLettersIsEmptyLetters(ts: seq<Token>)
    ensures NoLetters(ts) <==> Letters(ts) == []
    decreases |ts|
  {
    if ts != [] {
      var init := ts[..|ts| - 1];
      NoLettersIsEmptyLetters(init);
      if NoLetters(ts) {
        assert NoLetters(init) by {
          forall i | 0 <= i < |init| ensures init[i].Num? {
            assert init[i] == ts[i];
          }
        }
      }
      if Letters(ts) == [] {
        assert ts[|ts| - 1].Num?;
        forall i | 0 <= i < |ts| ensures ts[i].Num? {
          if i < |init| {
            assert ts[i] == init[i];
          }
        }
      }
    }
  }

  lemma {:induction false} FromFirstLetterSnoc(ts: seq<Token>, t: Token)
    ensures FromFirstLetter(ts + [t]) ==
      if !NoLetters(ts) then FromFirstLetter(ts) + [t]
      else if t.Letter? then [t]
      else []
    decreases |ts|
  {
    if ts == [] {
      assert [] + [t] == [t];
    } else if ts[0].Num? {
      assert (ts + [t])[1..] == ts[1..] + [t];
      FromFirstLetterSnoc(ts[1..], t);
      assert NoLetters(ts) <==> NoLetters(ts[1..]) by {
        if NoLetters(ts[1..]) {
          forall i | 0 <= i < |ts| ensures ts[i].Num? {
            if 0 < i {
              assert ts[i] == ts[1..][i - 1];
            }
          }
        }
        if NoLetters(ts) {
          forall i | 0 <= i < |ts[1..]| ensures ts[1..][i].Num? {
            assert ts[1..][i] == ts[i + 1];
          }
        }
      }
    } else {
      assert !NoLetters(ts) by {
        assert !ts[0].Num?;
      }
    }
  }

  /** One group per letter, carrying the letters in input order. */
  lemma {:induction false} ParseLetters(ts: seq<Token>)
    ensures LettersOf(Parse(ts)) == Letters(ts)
    ensures |Parse(ts)| == |Letters(ts)|
    decreases |ts|
  {
    if ts != [] {
      var init := ts[..|ts| - 1];
      ParseLetters(init);
      var gs := Parse(init);
      match ts[|ts| - 1]
      case Letter(c) =>
        assert LettersOf(gs + [Group(c, [])]) == LettersOf(gs) + [c];
      case Num(r) =>
        if gs != [] {
          var last := gs[|gs| - 1].(params := gs[|gs| - 1].params + [r]);
          assert LettersOf(gs[..|gs| - 1] + [last]) == LettersOf(gs);
        }
    }
  }

  lemma NumsSnoc(ps: seq<real>, r: real)
    ensures Nums(ps + [r]) == Nums(ps) + [Num(r)]
  {
  }

  /** The groups, written back as tokens, are the input from its first letter on:
      each group holds exactly the numbers between its letter and the next one. */
  lemma {:induction false} FlattenParse(ts: seq<Token>)
    ensures Flatten(Parse(ts)) == FromFirstLetter(ts)
    decreases |ts|
  {
    if ts != [] {
      var init, t := ts[..|ts| - 1], ts[|ts| - 1];
      assert ts == init + [t];
      FlattenParse(init);
      match t
      case Letter(c) => FlattenParseSnocLetter(init, c);
      case Num(r) => FlattenParseSnocNum(init, r);
    }
  }

  /** The inductive step of `FlattenParse` for a letter. */
  lemma FlattenParseSnocLetter(init: seq<Token>, c: char)
    requires Flatten(Parse(init)) == FromFirstLetter(init)
    ensures Flatten(Parse(init + [Letter(c)])) == FromFirstLetter(init + [Letter(c)])
  {
    var gs := Parse(init);
    FromFirstLetterSnoc(init, Letter(c));
    ParseSnocLetter(init, c);
    FlattenSnoc(gs, Group(c, []));
    assert Nums([]) == [];
    if NoLetters(init) {
      NoLettersNoGroups(init);
    }
  }

  /** The inductive step of `FlattenParse` for a number. */
  lemma FlattenParseSnocNum(init: seq<Token>, r: real)
    requires Flatten(Parse(init)) == FromFirstLetter(init)
    ensures Flatten(Parse(init + [Num(r)])) == FromFirstLetter(init + [Num(r)])
  {
    var gs := Parse(init);
    FromFirstLetterSnoc(init, Num(r));
    ParseLetters(init);
    NoLettersIsEmptyLetters(init);
    if gs == [] {
      assert (init + [Num(r)])[..|init|] == init;
    } else {
      var front, g := gs[..|gs| - 1], gs[|gs| - 1];
      assert gs == front + [g];
      ParseSnocNum(init, r);
      FlattenSnoc(front, g);
      FlattenSnoc(front, g.(params := g.params + [r]));
      NumsSnoc(g.params, r);
    }
  }

  lemma ParseSnocLetter(ts: seq<Token>, c: char)
    ensures Parse(ts + [Letter(c)]) == Parse(ts) + [Group(c, [])]
  {
    assert (ts + [Letter(c)])[..|ts|] == ts;
  }

  lemma ParseSnocNum(ts: seq<Token>, r: real)
    requires Parse(ts) != []
    ensures Parse(ts + [Num(r)]) ==
      var gs := Parse(ts);
      gs[..|gs| - 1] + [gs[|gs| - 1].(params := gs[|gs| - 1].params + [r])]
  {
    assert (ts + [Num(r)])[..|ts|] == ts;
  }

  /** Appending a letter and its numbers to any token stream appends exactly one group. */
  lemma {:induction false} ParseAppendGroup(prefix: seq<Token>, c: char, ps: seq<real>)
    ensures Parse(prefix + [Letter(c)] + Nums(ps)) == Parse(prefix) + [Group(c, ps)]
    decreases |ps|
  {
    var a := prefix + [Letter(c)];
    if ps == [] {
      assert a + Nums(ps) == a;
      ParseSnocLetter(prefix, c);
    } else {
      var q := ps[..|ps| - 1];
      var r := ps[|ps| - 1];
      assert ps == q + [r];
      ParseAppendGroup(prefix, c, q);
      NumsSnoc(q, r);
      assert a + Nums(ps) == (a + Nums(q)) + [Num(r)];
      var gs := Parse(a + Nums(q));
      assert gs == Parse(prefix) + [Group(c, q)];
      ParseSnocNum(a + Nums(q), r);
      assert gs[..|gs| - 1] == Parse(prefix);
    }
  }

  /** Flattening a list with one more group appends that group's tokens. */
  lemma FlattenSnoc(init: seq<Group>, last: Group)
    ensures Flatten(init + [last]) == Flatten(init) + [Letter(last.letter)] + Nums(last.params)
  {
    var gs := init + [last];
    assert gs[..|gs| - 1] == init;
  }

  /** Parsing undoes flattening. */
  lemma {:induction false} ParseFlatten(gs: seq<Group>)
    ensures Parse(Flatten(gs)) == gs
    decreases |gs|
  {
    if gs != [] {
      var init, last := gs[..|gs| - 1], gs[|gs| - 1];
      assert gs == init + [last];
      FlattenSnoc(init, last);
      ParseFlatten(init);
      ParseAppendGroup(Flatten(init), last.letter, last.params);
    }
  }

  /** The grouping is the only list of groups that writes back to the input
      from its first letter on. */
  lemma ParseUnique(ts: seq<Token>, gs: seq<Group>)
    ensures Flatten(gs) == FromFirstLetter(ts) <==> gs == Parse(ts)
  {
    FlattenParse(ts);
    if Flatten(gs) == FromFirstLetter(ts) {
      ParseFlatten(gs);
      ParseFlatten(Parse(ts));
    }
  }

  lemma {:induction false} FromFirstLetterSkipsNums(ps: seq<real>, ts: seq<Token>)
    ensures FromFirstLetter(Nums(ps) + ts) == FromFirstLetter(ts)
    decreases |ps|
  {
    if ps != [] {
      var all := Nums(ps) + ts;
      assert all != [] && all[0] == Num(ps[0]);
      assert Nums(ps)[1..] == Nums(ps[1..]);
      assert all[1..] == Nums(ps[1..]) + ts;
      assert FromFirstLetter(all) == FromFirstLetter(all[1..]);
      FromFirstLetterSkipsNums(ps[1..], ts);
    } else {
      assert Nums(ps) + ts == ts;
    }
  }

  /** Numbers in front of the first letter are discarded. */
  lemma LeadingNumbersDiscarded(ps: seq<real>, ts: seq<Token>)
    ensures Parse(Nums(ps) + ts) == Parse(ts)
  {
    FromFirstLetterSkipsNums(ps, ts);
    FlattenParse(Nums(ps) + ts);
    ParseUnique(ts, Parse(Nums(ps) + ts));
  }

  /** Input without a command letter yields no groups. */
  lemma NoLettersNoGroups(ts: seq<Token>)
    ensures NoLetters(ts) ==> Parse(ts) == []
  {
    NoLettersIsEmptyLetters(ts);
    ParseLetters(ts);
  }
}
