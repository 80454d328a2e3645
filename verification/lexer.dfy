/** The tokenizer: `re.findall` of the pattern
    command-letter | [-+]?[0-9]*\.?[0-9]+([eE][-+]?[0-9]+)?
    scanned left to right, with `float()` on each number. Characters that start
    no match are skipped. Numbers get their exact decimal value. */
module Lexer {
  import opened Tokens

  predicate IsDigit(c: char)
  {
    '0' <= c <= '9'
  }

  predicate IsSign(c: char)
  {
    c == '+' || c == '-'
  }

  /** The characters a number token can contain; no command letter is one of them. */
  predicate IsNumberChar(c: char)
  {
    IsDigit(c) || IsSign(c) || c == '.' || c == 'e' || c == 'E'
  }

  /** Length of the run of digits starting at `i`. */
  function DigitRun(s: string, i: nat): (n: nat)
    requires i <= |s|
    ensures i + n <= |s|
    ensures forall k :: i <= k < i + n ==> IsDigit(s[k])
    ensures i + n == |s| || !IsDigit(s[i + n])
    decreases |s| - i
  {
    if i < |s| && IsDigit(s[i]) then 1 + DigitRun(s, i + 1) else 0
  }

  function Pow10(n: nat): (p: nat)
    ensures p >= 1
  {
    if n == 0 then 1 else 10 * Pow10(n - 1)
  }

  /** The value of a string of decimal digits. */
  function DigitsValue(ds: string): nat
    decreases |ds|
  {
    if ds == [] then 0
    else
      var d := ds[|ds| - 1];
      10 * DigitsValue(ds[..|ds| - 1]) + (if IsDigit(d) then d as int - '0' as int else 0)
  }

  /** The outcome of trying the number pattern at one position. */
  datatype Scan = NoNumber | Number(end: nat, value: real)

  /** Where the exponent digits would start after an `e` at `m`: past an optional sign. */
  function ExponentDigits(s: string, m: nat): (j: nat)
    requires m < |s|
    ensures m + 1 <= j <= |s|
  {
    if m + 1 < |s| && IsSign(s[m + 1]) then m + 2 else m + 1
  }

  /** The optional exponent after a mantissa ending at `m`: its end and its value.
      It is taken exactly when an e/E is followed by an optional sign and at least
      one digit, and then runs to the end of those digits. */
  function Exponent(s: string, m: nat): (r: (nat, int))
    requires m <= |s|
    ensures m <= r.0 <= |s|
    ensures forall k :: m <= k < r.0 ==> IsNumberChar(s[k])
    ensures r.0 > m <==> m < |s| && (s[m] == 'e' || s[m] == 'E') && DigitRun(s, ExponentDigits(s, m)) > 0
    ensures r.0 > m ==> r.0 == ExponentDigits(s, m) + DigitRun(s, ExponentDigits(s, m))
    ensures r.0 > m ==> r.1 == (if s[m + 1] == '-' then -1 else 1) * DigitsValue(s[ExponentDigits(s, m)..r.0])
    ensures r.0 == m ==> r.1 == 0
  {
    if m < |s| && (s[m] == 'e' || s[m] == 'E') then
      var j := ExponentDigits(s, m);
      var n := DigitRun(s, j);
      if n == 0 then (m, 0)
      else
        var v: int := DigitsValue(s[j..j + n]);
        (j + n, if s[m + 1] == '-' then -v else v)
    else (m, 0)
  }

  /** The value of the digits s[j..k], followed when m > k by a point at k and
      the fraction digits s[k+1..m]. */
  function MantissaValue(s: string, j: nat, k: nat, m: nat): real
    requires j <= k <= m <= |s|
  {
    var whole := DigitsValue(s[j..k]) as real;
    if m == k then whole
    else whole + DigitsValue(s[k + 1..m]) as real / Pow10(m - k - 1) as real
  }

  /** `v` times ten to the power `exp`. */
  function Scale(v: real, exp: int): real
  {
    if exp >= 0 then v * Pow10(exp) as real else v / Pow10(-exp) as real
  }

  /** The match `re` finds for the number pattern at `i`, with its value.
      The integer digits are taken greedily; a point is taken only when a digit
      follows it ("1." matches "1"); an exponent only when it has digits. */
  function MatchNumber(s: string, i: nat): (r: Scan)
    requires i < |s|
    ensures r.Number? ==> i < r.end <= |s|
    ensures r.Number? ==> forall k :: i <= k < r.end ==> IsNumberChar(s[k])
    ensures var j := if IsSign(s[i]) then i + 1 else i;
      r.Number? <==> (j < |s| && IsDigit(s[j])) || (j + 1 < |s| && s[j] == '.' && IsDigit(s[j + 1]))
  {
    var j := if IsSign(s[i]) then i + 1 else i;
    var d1 := DigitRun(s, j);
    var k := j + d1;
    var hasFraction := k + 1 < |s| && s[k] == '.' && IsDigit(s[k + 1]);
    if !hasFraction && d1 == 0 then NoNumber
    else
      var m := if hasFraction then k + 1 + DigitRun(s, k + 1) else k;
      assert forall q :: i <= q < m ==> IsNumberChar(s[q]) by {
        forall q | i <= q < m ensures IsNumberChar(s[q]) {
        }
      }
      var e := Exponent(s, m);
      Number(e.0, var v := Scale(MantissaValue(s, j, k, m), e.1); if s[i] == '-' then -v else v)
  }

  /** The tokens of `s` from position `i` on. */
  function LexFrom(s: string, i: nat): seq<Token>
    requires i <= |s|
    decreases |s| - i
  {
    if i == |s| then []
    else if IsCommandLetter(s[i]) then [Letter(s[i])] + LexFrom(s, i + 1)
    else
      match MatchNumber(s, i)
      case Number(end, v) => [Num(v)] + LexFrom(s, end)
      case NoNumber => LexFrom(s, i + 1)
  }

  function Lex(s: string): seq<Token>
  {
    LexFrom(s, 0)
  }

  /** The command letters of `s` from position `i` on, in order. */
  function CommandLettersFrom(s: string, i: nat): seq<char>
    requires i <= |s|
    decreases |s| - i
  {
    if i == |s| then []
    else (if IsCommandLetter(s[i]) then [s[i]] else []) + CommandLettersFrom(s, i + 1)
  }

  lemma {:induction false} LettersCons(t: Token, ts: seq<Token>)
    ensures Letters([t] + ts) == (if t.Letter? then [t.c] else []) + Letters(ts)
    decreases |ts|
  {
    if ts == [] {
      assert ([t] + ts)[..0] == [];
    } else {
      var init := ts[..|ts| - 1];
      LettersCons(t, init);
      assert ([t] + ts)[..|ts|] == [t] + init;
      assert ([t] + ts)[|ts|] == ts[|ts| - 1];
    }
  }

  /** Skipping characters that are not command letters skips no letter. */
  lemma {:induction false} NoCommandLettersBetween(s: string, i: nat, end: nat)
    requires i <= end <= |s|
    requires forall k :: i <= k < end ==> !IsCommandLetter(s[k])
    ensures CommandLettersFrom(s, i) == CommandLettersFrom(s, end)
    decreases end - i
  {
    if i < end {
      NoCommandLettersBetween(s, i + 1, end);
    }
  }

  /** A number match never covers a command letter. */
  lemma NumberHasNoCommandLetter(s: string, i: nat)
    requires i < |s| && MatchNumber(s, i).Number?
    ensures forall k :: i <= k < MatchNumber(s, i).end ==> !IsCommandLetter(s[k])
  {
    var end := MatchNumber(s, i).end;
    forall k | i <= k < end ensures !IsCommandLetter(s[k]) {
      assert IsNumberChar(s[k]);
    }
  }

  /** The tokenizer keeps every command letter, in order, and produces no other
      letter: numbers never swallow one. */
  lemma {:induction false} LexLetters(s: string, i: nat)
    requires i <= |s|
    ensures Letters(LexFrom(s, i)) == CommandLettersFrom(s, i)
    decreases |s| - i
  {
    if i < |s| {
      if IsCommandLetter(s[i]) {
        LexLetters(s, i + 1);
        LettersCons(Letter(s[i]), LexFrom(s, i + 1));
      } else {
        match MatchNumber(s, i)
        case Number(end, v) =>
          assert LexFrom(s, i) == [Num(v)] + LexFrom(s, end);
          LexLetters(s, end);
          LettersCons(Num(v), LexFrom(s, end));
          NumberHasNoCommandLetter(s, i);
          NoCommandLettersBetween(s, i, end);
        case NoNumber =>
          assert LexFrom(s, i) == LexFrom(s, i + 1);
          LexLetters(s, i + 1);
      }
    }
  }
}
