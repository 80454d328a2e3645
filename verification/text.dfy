/** `convert_path` on path text: tokenize, group, fold. */
module PathText {
  import opened Parser
  import opened Commands
  import opened Arc
  import opened Converter
  import opened Lexer

  function ConvertText(g: ArcGeometry, s: string): Result<seq<Out>>
  {
    ConvertPath(g, Lex(s))
  }

  /** One group per command letter of the text, in order. */
  lemma GroupPerCommandLetter(s: string)
    ensures LettersOf(Parse(Lex(s))) == CommandLettersFrom(s, 0)
    ensures |Parse(Lex(s))| == |CommandLettersFrom(s, 0)|
  {
    LexLetters(s, 0);
    ParseLetters(Lex(s));
  }

  /** Text without a command letter converts to nothing: the result is "". */
  lemma NoCommandLetterEmpty(g: ArcGeometry, s: string)
    requires CommandLettersFrom(s, 0) == []
    ensures ConvertText(g, s) == Ok([])
  {
    LexLetters(s, 0);
    ParseLetters(Lex(s));
    assert Parse(Lex(s)) == [];
  }
}
