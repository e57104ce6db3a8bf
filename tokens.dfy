/** The token model of types.ts: the closed set of token kinds and the token record. */
module Tokens {
  import opened Common

  /** The 41 lexical categories, in declaration order (the order fixes each kind's ordinal). */
  datatype TokenType =
    // one-character tokens
    | LEFT_PAREN | RIGHT_PAREN | LEFT_BRACE | RIGHT_BRACE
    | COMMA | DOT | MINUS | PLUS | SEMICOLON | SLASH | STAR
    | QUESTION | COLON
    // one- or two-character tokens
    | BANG | BANG_EQUAL
    | EQUAL | EQUAL_EQUAL
    | GREATER | GREATER_EQUAL
    | LESS | LESS_EQUAL
    // literals
    | IDENTIFIER | STRING | NUMBER
    // keywords
    | AND | CLASS | ELSE | FALSE | FUN | FOR | IF | NIL | OR
    | PRINT | RETURN | SUPER | THIS | TRUE | VAR | WHILE | EOF

  const KindCount: nat := 41

  /** The value a numeric TypeScript enum gives each kind. */
  function Ordinal(k: TokenType): (n: nat)
    ensures n < KindCount
  {
    match k
    case LEFT_PAREN => 0 case RIGHT_PAREN => 1 case LEFT_BRACE => 2 case RIGHT_BRACE => 3
    case COMMA => 4 case DOT => 5 case MINUS => 6 case PLUS => 7 case SEMICOLON => 8
    case SLASH => 9 case STAR => 10 case QUESTION => 11 case COLON => 12
    case BANG => 13 case BANG_EQUAL => 14 case EQUAL => 15 case EQUAL_EQUAL => 16
    case GREATER => 17 case GREATER_EQUAL => 18 case LESS => 19 case LESS_EQUAL => 20
    case IDENTIFIER => 21 case STRING => 22 case NUMBER => 23
    case AND => 24 case CLASS => 25 case ELSE => 26 case FALSE => 27 case FUN => 28
    case FOR => 29 case IF => 30 case NIL => 31 case OR => 32
    case PRINT => 33 case RETURN => 34 case SUPER => 35 case THIS => 36 case TRUE => 37
    case VAR => 38 case WHILE => 39 case EOF => 40
  }

  /** The kind with a given ordinal: the enumeration read backwards. */
  function FromOrdinal(n: nat): (k: TokenType)
    requires n < KindCount
  {
    match n
    case 0 => LEFT_PAREN case 1 => RIGHT_PAREN case 2 => LEFT_BRACE case 3 => RIGHT_BRACE case 4 => COMMA
    case 5 => DOT case 6 => MINUS case 7 => PLUS case 8 => SEMICOLON case 9 => SLASH
    case 10 => STAR case 11 => QUESTION case 12 => COLON case 13 => BANG case 14 => BANG_EQUAL
    case 15 => EQUAL case 16 => EQUAL_EQUAL case 17 => GREATER case 18 => GREATER_EQUAL case 19 => LESS
    case 20 => LESS_EQUAL case 21 => IDENTIFIER case 22 => STRING case 23 => NUMBER case 24 => AND
    case 25 => CLASS case 26 => ELSE case 27 => FALSE case 28 => FUN case 29 => FOR
    case 30 => IF case 31 => NIL case 32 => OR case 33 => PRINT case 34 => RETURN
    case 35 => SUPER case 36 => THIS case 37 => TRUE case 38 => VAR case 39 => WHILE
    case _ => EOF
  }

  /** Distinct kinds have distinct ordinals: the enumeration has exactly 41 members, EOF the last. */
  lemma OrdinalInjective(j: TokenType, k: TokenType)
    requires Ordinal(j) == Ordinal(k)
    ensures j == k
    ensures Ordinal(j) == KindCount - 1 <==> j == EOF
  {
    assert FromOrdinal(Ordinal(j)) == j by { OrdinalRoundTrip(j); }
    assert FromOrdinal(Ordinal(k)) == k by { OrdinalRoundTrip(k); }
  }

  lemma OrdinalRoundTrip(k: TokenType)
    ensures FromOrdinal(Ordinal(k)) == k
  {
    match k
    case LEFT_PAREN => case RIGHT_PAREN => case LEFT_BRACE => case RIGHT_BRACE =>
    case COMMA => case DOT => case MINUS => case PLUS => case SEMICOLON =>
    case SLASH => case STAR => case QUESTION => case COLON =>
    case BANG => case BANG_EQUAL => case EQUAL => case EQUAL_EQUAL =>
    case GREATER => case GREATER_EQUAL => case LESS => case LESS_EQUAL =>
    case IDENTIFIER => case STRING => case NUMBER =>
    case AND => case CLASS => case ELSE => case FALSE => case FUN =>
    case FOR => case IF => case NIL => case OR =>
    case PRINT => case RETURN => case SUPER => case THIS => case TRUE =>
    case VAR => case WHILE => case EOF =>
  }

  /** A token's literal (`unknown` in the source): nothing, a boolean, a number or a string. */
  datatype LitValue = NilLit | BoolLit(b: bool) | NumLit(n: real) | StrLit(s: string)

  /** An immutable lexical unit; the constructor stores exactly what it is given. */
  datatype Token = Token(kind: TokenType, lexeme: string, literal: LitValue, line: nat)

  /** Number formatting (JavaScript's `String(n)`), which the model takes as a parameter. */
  type NumberFormat = real -> string

  /** What a template string writes for a literal: `null` for no value. */
  function LiteralText(v: LitValue, showNumber: NumberFormat): string
  {
    match v
    case NilLit => "null"
    case BoolLit(b) => if b then "true" else "false"
    case NumLit(n) => showNumber(n)
    case StrLit(s) => s
  }

  /**
   * What `String(value)` writes for a literal value, as both debug printers use it: like a
   * template string, except that no value prints as `nil`.
   */
  function LiteralString(v: LitValue, showNumber: NumberFormat): (s: string)
    ensures v == NilLit ==> s == "nil"
    ensures v != NilLit ==> s == LiteralText(v, showNumber)
  {
    if v == NilLit then "nil" else LiteralText(v, showNumber)
  }

  /** `Token.toString`: the kind's ordinal, the lexeme and the literal, separated by single spaces. */
  function TokenToString(t: Token, showNumber: NumberFormat): string
  {
    NatToString(Ordinal(t.kind)) + " " + t.lexeme + " " + LiteralText(t.literal, showNumber)
  }

  /** Index of the first space in `s`, or |s| when there is none. */
  function FirstSpace(s: string): (i: nat)
    ensures i <= |s|
    ensures forall j :: 0 <= j < i ==> s[j] != ' '
    ensures i < |s| ==> s[i] == ' '
    decreases |s|
  {
    if s == [] then 0 else if s[0] == ' ' then 0 else 1 + FirstSpace(s[1..])
  }

  /**
   * The text before the first space of `toString` is the kind's ordinal in decimal,
   * so the kind can always be read back from the text, and the lexeme follows that space.
   */
  lemma TokenToStringKind(t: Token, showNumber: NumberFormat)
    ensures var s := TokenToString(t, showNumber);
      && FirstSpace(s) < |s|
      && ParseNat(s[..FirstSpace(s)]) < KindCount
      && FromOrdinal(ParseNat(s[..FirstSpace(s)])) == t.kind
      && t.lexeme <= s[FirstSpace(s) + 1..]
  {
    var n := Ordinal(t.kind);
    var d := NatToString(n);
    var rest := t.lexeme + " " + LiteralText(t.literal, showNumber);
    assert TokenToString(t, showNumber) == d + [' '] + rest;
    SplitAtDigits(d, rest);
    ParseNatToString(n);
    OrdinalRoundTrip(t.kind);
  }

  /** Digits, a space, then anything: the first space is the one after the digits. */
  lemma SplitAtDigits(d: string, rest: string)
    requires forall i :: 0 <= i < |d| ==> IsDigit(d[i])
    ensures var s := d + [' '] + rest;
      FirstSpace(s) == |d| && s[..|d|] == d && s[|d| + 1..] == rest
  {
    var s := d + [' '] + rest;
    assert s == d + ([' '] + rest);
    FirstSpaceAfterDigits(d, [' '] + rest);
    assert s[..|d|] == d;
    assert s[|d| + 1..] == rest;
  }

  lemma {:induction false} FirstSpaceAfterDigits(d: string, rest: string)
    requires forall i :: 0 <= i < |d| ==> IsDigit(d[i])
    requires |rest| > 0 && rest[0] == ' '
    ensures FirstSpace(d + rest) == |d|
    decreases |d|
  {
    if d == [] {
      assert d + rest == rest;
    } else {
      assert (d + rest)[1..] == d[1..] + rest;
      FirstSpaceAfterDigits(d[1..], rest);
    }
  }
}
