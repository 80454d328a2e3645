/** The lexical units of SVG path data (SVG 1.1 section 8.3): command letters and numbers. */
module Tokens {

  datatype Token = Letter(c: char) | Num(value: real)

  /** The twenty command letters the tokenizer recognises; every other letter is skipped. */
  predicate IsCommandLetter(c: char)
  {
    || c == 'M' || c == 'm' || c == 'L' || c == 'l' || c == 'H' || c == 'h'
    || c == 'V' || c == 'v' || c == 'C' || c == 'c' || c == 'S' || c == 's'
    || c == 'Q' || c == 'q' || c == 'T' || c == 't' || c == 'A' || c == 'a'
    || c == 'Z' || c == 'z'
  }

  /** The letters among `ts`, in order. */
  function Letters(ts: seq<Token>): seq<char>
    decreases |ts|
  {
    if ts == [] then []
    else
      Letters(ts[..|ts| - 1]) + match ts[|ts| - 1] { case Letter(c) => [c] case Num(_) => [] }
  }

  predicate NoLetters(ts: seq<Token>)
  {
    forall i :: 0 <= i < |ts| ==> ts[i].Num?
  }

  /** Number tokens for `ps`, in order. */
  function Nums(ps: seq<real>): seq<Token>
  {
    seq(|ps|, i requires 0 <= i < |ps| => Num(ps[i]))
  }

  /** `ts` without the numbers in front of its first letter. */
  function FromFirstLetter(ts: seq<Token>): seq<Token>
  {
    if ts == [] then []
    else if ts[0].Num? then FromFirstLetter(ts[1..])
    else ts
  }
}
