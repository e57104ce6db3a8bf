/**
 * The diagnostics collaborator seen from the core: every scan, parse or resolve
 * problem becomes one appended record (line, location, message).
 */
module Diagnostics {
  import opened Tokens

  datatype Diagnostic = Diagnostic(line: nat, where: string, message: string)

  /** A lexical error carries no location text. */
  function ScanError(line: nat, message: string): (d: Diagnostic)
    ensures d.where == "" && d.line == line && d.message == message
  {
    Diagnostic(line, "", message)
  }

  /** The location text of a token-level error: "at end" for EOF, otherwise the quoted lexeme. */
  function Where(t: Token): (w: string)
    ensures t.kind == EOF ==> w == "at end"
    ensures t.kind != EOF ==> |w| == |t.lexeme| + 5 && w[..4] == "at '" && w[4..|w| - 1] == t.lexeme && w[|w| - 1] == '\''
  {
    if t.kind == EOF then "at end" else "at '" + t.lexeme + "'"
  }

  /** "at end" marks exactly the EOF token; at any other token the lexeme can be read back from the text. */
  lemma WhereNamesToken(t: Token)
    ensures Where(t) == "at end" <==> t.kind == EOF
    ensures t.kind != EOF ==> var w := Where(t); |w| >= 5 && w[4..|w| - 1] == t.lexeme
  {
    if t.kind != EOF {
      var w := Where(t);
      assert w[3] == '\'' != "at end"[3];
    }
  }

  /** A parse- or resolve-time error reported at a token, on that token's line. */
  function ErrorAt(t: Token, message: string): (d: Diagnostic)
    ensures d.line == t.line && d.where == Where(t) && d.message == message
  {
    Diagnostic(t.line, Where(t), message)
  }
}
