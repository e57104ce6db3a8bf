/**
 * The expression parser of parser.ts: one-token-lookahead recursive descent over
 * ternary, equality, comparison, term, factor, unary and primary.
 *
 * The spec functions below read a token sequence from a position and return what the
 * parser's state becomes: the parsed expression (None when a ParseError escapes), the
 * new cursor and the diagnostics reported so far. The `Parser` class has the source's
 * mutable cursor and is proved to follow the spec functions step for step.
 */
module Parsing {
  import opened Common
  import opened Tokens
  import opened Diagnostics
  import opened Ast

  /** What `parser.ts` needs of its input: a non-empty token list closed by EOF. */
  predicate WellFormed(toks: seq<Token>)
  {
    |toks| > 0 && toks[|toks| - 1].kind == EOF
  }

  /** A cursor that can be peeked at. */
  predicate ValidPos(toks: seq<Token>, pos: nat)
  {
    WellFormed(toks) && pos < |toks|
  }

  predicate AtEnd(toks: seq<Token>, pos: nat)
    requires pos < |toks|
  {
    toks[pos].kind == EOF
  }

  /** `check`: false at EOF, otherwise whether the current token has kind `k`. */
  predicate CheckAt(toks: seq<Token>, pos: nat, k: TokenType)
    requires pos < |toks|
  {
    !AtEnd(toks, pos) && toks[pos].kind == k
  }

  /** Whether `match(kinds)` succeeds: the current token is not EOF and has one of the kinds. */
  predicate MatchAt(toks: seq<Token>, pos: nat, kinds: seq<TokenType>)
    requires pos < |toks|
  {
    !AtEnd(toks, pos) && toks[pos].kind in kinds
  }

  /** The cursor after `advance`: one step on, except at EOF, which is never passed. */
  function AdvancePos(toks: seq<Token>, pos: nat): (p: nat)
    requires ValidPos(toks, pos)
    ensures ValidPos(toks, p)
    ensures AtEnd(toks, pos) <==> p == pos
    ensures !AtEnd(toks, pos) ==> p == pos + 1
  {
    if AtEnd(toks, pos) then pos else pos + 1
  }

  /** The three messages the parser reports. */
  const ExpectExpression := "Expect expression."
  const ExpectRightParen := "Expect ')' after expression."
  const ExpectColon := "Expect '?' to have matching ':'."

  /** The operators of the four left-associative levels: 1 factor, 2 term, 3 comparison, 4 equality. */
  function Operators(level: nat): seq<TokenType>
    requires 1 <= level <= 4
  {
    match level
    case 1 => [SLASH, STAR]
    case 2 => [MINUS, PLUS]
    case 3 => [GREATER, GREATER_EQUAL, LESS, LESS_EQUAL]
    case _ => [BANG_EQUAL, EQUAL_EQUAL]
  }

  /** The level an operator kind binds at (0 for a kind that is no binary operator). */
  function OpLevel(k: TokenType): (l: nat)
    ensures l <= 4
    ensures 1 <= l ==> k in Operators(l)
    ensures forall level :: 1 <= level <= 4 && k in Operators(level) ==> l == level
  {
    match k
    case SLASH => 1 case STAR => 1
    case MINUS => 2 case PLUS => 2
    case GREATER => 3 case GREATER_EQUAL => 3 case LESS => 3 case LESS_EQUAL => 3
    case BANG_EQUAL => 4 case EQUAL_EQUAL => 4
    case _ => 0
  }

  /** How loosely the top of a tree binds: a binary node its level, a ternary 5, anything else 0. */
  function Prec(e: Expr): nat
  {
    match e
    case Binary(_, op, _) => OpLevel(op.kind)
    case Ternary(_, _, _) => 5
    case _ => 0
  }

  /**
   * The trees the grammar can produce. A binary node's right operand binds strictly
   * tighter and its left operand no looser than the node itself (so each level is
   * left-associative and the levels nest by precedence); a unary operand and a
   * ternary condition are as the grammar allows; a group may hold anything. The parser
   * never produces variables, assignments, calls or logical nodes.
   */
  ghost predicate InGrammar(e: Expr)
  {
    match e
    case Binary(l, op, r) =>
      1 <= OpLevel(op.kind) && Prec(l) <= OpLevel(op.kind) && Prec(r) < OpLevel(op.kind)
      && InGrammar(l) && InGrammar(r)
    case Ternary(c, t, f) => Prec(c) <= 4 && InGrammar(c) && InGrammar(t) && InGrammar(f)
    case Unary(op, r) => op.kind in {BANG, MINUS} && Prec(r) == 0 && InGrammar(r)
    case Grouping(x) => InGrammar(x)
    case Literal(_) => true
    case _ => false
  }

  /** The parser's state after a rule: the rule's tree (None after a ParseError), cursor, diagnostics. */
  datatype Parsed = Parsed(expr: Option<Expr>, pos: nat, errors: seq<Diagnostic>)

  /**
   * What every rule promises about the parser's state: the cursor only moves forward and
   * stays on the list, diagnostics are only appended, and a failure has reported at least
   * one of them.
   */
  ghost predicate Progress(toks: seq<Token>, pos: nat, ds: seq<Diagnostic>, r: Parsed)
  {
    && ValidPos(toks, r.pos) && pos <= r.pos
    && ds <= r.errors
    && (r.expr.None? ==> |ds| < |r.errors|)
  }

  /** `ternary`: a condition, then optionally `? t : f` with both branches right-recursive. */
  function ParseTernary(toks: seq<Token>, pos: nat, ds: seq<Diagnostic>): (r: Parsed)
    requires ValidPos(toks, pos)
    ensures Progress(toks, pos, ds, r)
    ensures r.expr.Some? ==> pos < r.pos
    decreases |toks| - pos, 11
  {
    var c := ParseLeftAssoc(toks, 4, pos, ds);
    if c.expr.None? || !MatchAt(toks, c.pos, [QUESTION]) then c
    else ParseTernaryArms(toks, c.expr.value, c.pos + 1, c.errors)
  }

  /**
   * The arms of a ternary after its `?`. Without a `:` after the first arm the error is
   * reported but nothing is raised, and the result is the condition alone.
   */
  function ParseTernaryArms(toks: seq<Token>, condition: Expr, pos: nat, ds: seq<Diagnostic>): (r: Parsed)
    requires ValidPos(toks, pos)
    ensures Progress(toks, pos, ds, r)
    ensures r.expr.Some? ==> pos < r.pos
    decreases |toks| - pos, 12
  {
    var t := ParseTernary(toks, pos, ds);
    if t.expr.None? then t
    else if MatchAt(toks, t.pos, [COLON]) then
      var f := ParseTernary(toks, t.pos + 1, t.errors);
      if f.expr.None? then f
      else Parsed(Some(Expr.Ternary(condition, t.expr.value, f.expr.value)), f.pos, f.errors)
    else
      Parsed(Some(condition), t.pos, t.errors + [ErrorAt(toks[t.pos], ExpectColon)])
  }

  /** `equality` (level 4), `comparison` (3), `term` (2) and `factor` (1): operands joined to the left. */
  function ParseLeftAssoc(toks: seq<Token>, level: nat, pos: nat, ds: seq<Diagnostic>): (r: Parsed)
    requires ValidPos(toks, pos) && 1 <= level <= 4
    ensures Progress(toks, pos, ds, r)
    ensures r.expr.Some? ==> pos < r.pos
    decreases |toks| - pos, 2 * level + 1
  {
    var l := ParseOperand(toks, level, pos, ds);
    if l.expr.None? then l
    else LeftAssocRest(toks, level, l.expr.value, l.pos, l.errors)
  }

  /** The operand of a level: the next tighter level, or `unary` below factor. */
  function ParseOperand(toks: seq<Token>, level: nat, pos: nat, ds: seq<Diagnostic>): (r: Parsed)
    requires ValidPos(toks, pos) && 1 <= level <= 4
    ensures Progress(toks, pos, ds, r)
    ensures r.expr.Some? ==> pos < r.pos
    decreases |toks| - pos, 2 * level
  {
    if level == 1 then ParseUnary(toks, pos, ds) else ParseLeftAssoc(toks, level - 1, pos, ds)
  }

  /** The `while` loop of a level: each matched operator and operand wraps what was built so far. */
  function LeftAssocRest(toks: seq<Token>, level: nat, left: Expr, pos: nat, ds: seq<Diagnostic>): (r: Parsed)
    requires ValidPos(toks, pos) && 1 <= level <= 4
    ensures Progress(toks, pos, ds, r)
    decreases |toks| - pos, 2 * level + 1
  {
    if !MatchAt(toks, pos, Operators(level)) then Parsed(Some(left), pos, ds)
    else
      var right := ParseOperand(toks, level, pos + 1, ds);
      if right.expr.None? then right
      else LeftAssocRest(toks, level, Binary(left, toks[pos], right.expr.value), right.pos, right.errors)
  }

  /** One round of a level's loop: a matched operator and its operand wrap the tree built so far. */
  lemma RestStep(toks: seq<Token>, level: nat, left: Expr, pos: nat, ds: seq<Diagnostic>)
    requires ValidPos(toks, pos) && 1 <= level <= 4 && MatchAt(toks, pos, Operators(level))
    ensures var right := ParseOperand(toks, level, pos + 1, ds);
      LeftAssocRest(toks, level, left, pos, ds)
        == if right.expr.None? then right
           else LeftAssocRest(toks, level, Binary(left, toks[pos], right.expr.value), right.pos, right.errors)
  {
  }

  /** `unary`: `!` or `-` applied to a unary, otherwise a primary. */
  function ParseUnary(toks: seq<Token>, pos: nat, ds: seq<Diagnostic>): (r: Parsed)
    requires ValidPos(toks, pos)
    ensures Progress(toks, pos, ds, r)
    ensures r.expr.Some? ==> pos < r.pos
    decreases |toks| - pos, 1
  {
    if MatchAt(toks, pos, [BANG, MINUS]) then
      var right := ParseUnary(toks, pos + 1, ds);
      if right.expr.None? then right
      else Parsed(Some(Unary(toks[pos], right.expr.value)), right.pos, right.errors)
    else ParsePrimary(toks, pos, ds)
  }

  /** `primary`: a literal keyword, a number or string, or a parenthesised expression. */
  function ParsePrimary(toks: seq<Token>, pos: nat, ds: seq<Diagnostic>): (r: Parsed)
    requires ValidPos(toks, pos)
    ensures Progress(toks, pos, ds, r)
    ensures r.expr.Some? ==> pos < r.pos
    decreases |toks| - pos, 0
  {
    if MatchAt(toks, pos, [FALSE]) then Parsed(Some(Literal(BoolLit(false))), pos + 1, ds)
    else if MatchAt(toks, pos, [TRUE]) then Parsed(Some(Literal(BoolLit(true))), pos + 1, ds)
    else if MatchAt(toks, pos, [NIL]) then Parsed(Some(Literal(NilLit)), pos + 1, ds)
    else if MatchAt(toks, pos, [NUMBER, STRING]) then Parsed(Some(Literal(toks[pos].literal)), pos + 1, ds)
    else if MatchAt(toks, pos, [LEFT_PAREN]) then ParseGroup(toks, pos + 1, ds)
    else Parsed(None, pos, ds + [ErrorAt(toks[pos], ExpectExpression)])
  }

  /** The rest of a group after its `(`: an expression, then a `)` that `consume` demands. */
  function ParseGroup(toks: seq<Token>, pos: nat, ds: seq<Diagnostic>): (r: Parsed)
    requires ValidPos(toks, pos) && pos > 0
    ensures Progress(toks, pos - 1, ds, r)
    ensures r.expr.Some? ==> pos < r.pos
    decreases |toks| - pos, 13
  {
    var e := ParseTernary(toks, pos, ds);
    if e.expr.None? then e
    else if CheckAt(toks, e.pos, RIGHT_PAREN) then Parsed(Some(Grouping(e.expr.value)), e.pos + 1, e.errors)
    else Parsed(None, e.pos, e.errors + [ErrorAt(toks[e.pos], ExpectRightParen)])
  }

  /** `parse`: one expression from the start; a ParseError becomes the nil literal. */
  function Parse(toks: seq<Token>): (r: (Expr, seq<Diagnostic>))
    requires WellFormed(toks)
  {
    var p := ParseTernary(toks, 0, []);
    (if p.expr.Some? then p.expr.value else Literal(NilLit), p.errors)
  }

  /** Where `synchronize` may stop: at EOF, just after a `;`, or just before `return`. */
  predicate SyncPoint(toks: seq<Token>, pos: nat)
    requires pos < |toks|
  {
    AtEnd(toks, pos) || (pos > 0 && toks[pos - 1].kind == SEMICOLON) || toks[pos].kind == RETURN
  }

  /** The skipping loop of `synchronize`: the first stopping point from `pos` on. */
  function SyncFrom(toks: seq<Token>, pos: nat): (p: nat)
    requires ValidPos(toks, pos)
    ensures ValidPos(toks, p) && pos <= p && SyncPoint(toks, p)
    ensures forall k :: pos <= k < p ==> !SyncPoint(toks, k)
    decreases |toks| - pos
  {
    if SyncPoint(toks, pos) then pos else SyncFrom(toks, pos + 1)
  }

  // ---------------------------------------------------------------------------
  // The shape of what the rules build

  /**
   * A rule's result is shaped when its tree is one the grammar can produce binding no looser
   * than `bound`, and every diagnostic it added carries one of the parser's messages.
   */
  ghost predicate Shaped(ds: seq<Diagnostic>, bound: nat, r: Parsed)
  {
    && (r.expr.Some? ==> InGrammar(r.expr.value) && Prec(r.expr.value) <= bound)
    && (forall i :: |ds| <= i < |r.errors| ==> r.errors[i].message in {ExpectExpression, ExpectRightParen, ExpectColon})
  }

  /** A ternary may bind as loosely as a ternary. */
  lemma {:induction false} TernaryShaped(toks: seq<Token>, pos: nat, ds: seq<Diagnostic>)
    requires ValidPos(toks, pos)
    ensures Shaped(ds, 5, ParseTernary(toks, pos, ds))
    decreases |toks| - pos, 11
  {
    var c := ParseLeftAssoc(toks, 4, pos, ds);
    LeftAssocShaped(toks, 4, pos, ds);
    if c.expr.Some? && MatchAt(toks, c.pos, [QUESTION]) {
      ArmsShaped(toks, c.expr.value, c.pos + 1, c.errors);
    }
  }

  lemma {:induction false} ArmsShaped(toks: seq<Token>, condition: Expr, pos: nat, ds: seq<Diagnostic>)
    requires ValidPos(toks, pos) && InGrammar(condition) && Prec(condition) <= 4
    ensures Shaped(ds, 5, ParseTernaryArms(toks, condition, pos, ds))
    decreases |toks| - pos, 12
  {
    var t := ParseTernary(toks, pos, ds);
    TernaryShaped(toks, pos, ds);
    ArmsCases(toks, condition, pos, ds);
    if t.expr.Some? && MatchAt(toks, t.pos, [COLON]) {
      var f := ParseTernary(toks, t.pos + 1, t.errors);
      TernaryShaped(toks, t.pos + 1, t.errors);
      ShapedChain(ds, t, f);
      if f.expr.Some? {
        TernaryNode(condition, t.expr.value, f.expr.value);
      }
    }
  }

  /** The two ways `ParseTernary` can end: without a `?` the condition alone, otherwise the arms. */
  lemma TernaryCases(toks: seq<Token>, pos: nat, ds: seq<Diagnostic>)
    requires ValidPos(toks, pos)
    ensures var c := ParseLeftAssoc(toks, 4, pos, ds);
      var r := ParseTernary(toks, pos, ds);
      && (c.expr.None? || !MatchAt(toks, c.pos, [QUESTION]) ==> r == c)
      && (c.expr.Some? && MatchAt(toks, c.pos, [QUESTION]) ==>
            r == ParseTernaryArms(toks, c.expr.value, c.pos + 1, c.errors))
  {
  }

  /** The three ways `ParseTernaryArms` can end. */
  lemma ArmsCases(toks: seq<Token>, condition: Expr, pos: nat, ds: seq<Diagnostic>)
    requires ValidPos(toks, pos)
    ensures var t := ParseTernary(toks, pos, ds);
      var r := ParseTernaryArms(toks, condition, pos, ds);
      && (t.expr.None? ==> r == t)
      && (t.expr.Some? && !MatchAt(toks, t.pos, [COLON]) ==>
            r == Parsed(Some(condition), t.pos, t.errors + [ErrorAt(toks[t.pos], ExpectColon)]))
      && (t.expr.Some? && MatchAt(toks, t.pos, [COLON]) ==>
            var f := ParseTernary(toks, t.pos + 1, t.errors);
            r == if f.expr.None? then f
                 else Parsed(Some(Expr.Ternary(condition, t.expr.value, f.expr.value)), f.pos, f.errors))
  {
  }

  /** A ternary node over trees of the grammar, with a condition that is not itself a ternary, is in the grammar. */
  lemma TernaryNode(c: Expr, t: Expr, f: Expr)
    requires InGrammar(c) && Prec(c) <= 4 && InGrammar(t) && InGrammar(f)
    ensures InGrammar(Expr.Ternary(c, t, f)) && Prec(Expr.Ternary(c, t, f)) <= 5
  {
  }

  /** Messages checked on two consecutive stretches of the diagnostics hold on both together. */
  lemma ShapedChain(ds: seq<Diagnostic>, mid: Parsed, r: Parsed)
    requires ds <= mid.errors <= r.errors
    requires forall i :: |ds| <= i < |mid.errors| ==> mid.errors[i].message in {ExpectExpression, ExpectRightParen, ExpectColon}
    requires forall i :: |mid.errors| <= i < |r.errors| ==> r.errors[i].message in {ExpectExpression, ExpectRightParen, ExpectColon}
    ensures forall i :: |ds| <= i < |r.errors| ==> r.errors[i].message in {ExpectExpression, ExpectRightParen, ExpectColon}
  {
  }

  /** A level's result binds no looser than the level: its operators associate to the left. */
  lemma {:induction false} LeftAssocShaped(toks: seq<Token>, level: nat, pos: nat, ds: seq<Diagnostic>)
    requires ValidPos(toks, pos) && 1 <= level <= 4
    ensures Shaped(ds, level, ParseLeftAssoc(toks, level, pos, ds))
    decreases |toks| - pos, 2 * level + 1
  {
    var l := ParseOperand(toks, level, pos, ds);
    OperandShaped(toks, level, pos, ds);
    if l.expr.Some? {
      RestShaped(toks, level, l.expr.value, l.pos, l.errors);
    }
  }

  lemma {:induction false} OperandShaped(toks: seq<Token>, level: nat, pos: nat, ds: seq<Diagnostic>)
    requires ValidPos(toks, pos) && 1 <= level <= 4
    ensures Shaped(ds, level - 1, ParseOperand(toks, level, pos, ds))
    decreases |toks| - pos, 2 * level
  {
    if level == 1 {
      UnaryShaped(toks, pos, ds);
    } else {
      LeftAssocShaped(toks, level - 1, pos, ds);
    }
  }

  lemma {:induction false} RestShaped(toks: seq<Token>, level: nat, left: Expr, pos: nat, ds: seq<Diagnostic>)
    requires ValidPos(toks, pos) && 1 <= level <= 4
    requires InGrammar(left) && Prec(left) <= level
    ensures Shaped(ds, level, LeftAssocRest(toks, level, left, pos, ds))
    decreases |toks| - pos, 2 * level + 1
  {
    if MatchAt(toks, pos, Operators(level)) {
      var right := ParseOperand(toks, level, pos + 1, ds);
      OperandShaped(toks, level, pos + 1, ds);
      if right.expr.Some? {
        assert OpLevel(toks[pos].kind) == level;
        RestShaped(toks, level, Binary(left, toks[pos], right.expr.value), right.pos, right.errors);
      }
    }
  }

  lemma {:induction false} UnaryShaped(toks: seq<Token>, pos: nat, ds: seq<Diagnostic>)
    requires ValidPos(toks, pos)
    ensures Shaped(ds, 0, ParseUnary(toks, pos, ds))
    decreases |toks| - pos, 1
  {
    if MatchAt(toks, pos, [BANG, MINUS]) {
      UnaryShaped(toks, pos + 1, ds);
    } else {
      PrimaryShaped(toks, pos, ds);
    }
  }

  lemma {:induction false} PrimaryShaped(toks: seq<Token>, pos: nat, ds: seq<Diagnostic>)
    requires ValidPos(toks, pos)
    ensures Shaped(ds, 0, ParsePrimary(toks, pos, ds))
    decreases |toks| - pos, 0
  {
    if !MatchAt(toks, pos, [FALSE]) && !MatchAt(toks, pos, [TRUE]) && !MatchAt(toks, pos, [NIL])
      && !MatchAt(toks, pos, [NUMBER, STRING]) && MatchAt(toks, pos, [LEFT_PAREN])
    {
      GroupShaped(toks, pos + 1, ds);
    }
  }

  lemma {:induction false} GroupShaped(toks: seq<Token>, pos: nat, ds: seq<Diagnostic>)
    requires ValidPos(toks, pos) && pos > 0
    ensures Shaped(ds, 0, ParseGroup(toks, pos, ds))
    decreases |toks| - pos, 13
  {
    TernaryShaped(toks, pos, ds);
  }

  /**
   * `parse` never raises: a ParseError becomes the nil literal, and one is only raised after
   * an error has been reported. Whatever it returns is a tree of the grammar.
   */
  lemma ParseNeverRaises(toks: seq<Token>)
    requires WellFormed(toks)
    ensures var (e, errs) := Parse(toks);
      && InGrammar(e)
      && (ParseTernary(toks, 0, []).expr.None? ==> e == Literal(NilLit) && |errs| > 0)
      && (forall d :: d in errs ==> d.message in {ExpectExpression, ExpectRightParen, ExpectColon})
  {
    TernaryShaped(toks, 0, []);
  }

  /** A ternary whose first arm is not followed by `:` reports the error and yields the condition. */
  lemma MissingColon(toks: seq<Token>, condition: Expr, pos: nat, ds: seq<Diagnostic>)
    requires ValidPos(toks, pos)
    requires var t := ParseTernary(toks, pos, ds); t.expr.Some? && !CheckAt(toks, t.pos, COLON)
    ensures var t := ParseTernary(toks, pos, ds);
      ParseTernaryArms(toks, condition, pos, ds)
        == Parsed(Some(condition), t.pos, t.errors + [Diagnostic(toks[t.pos].line, Where(toks[t.pos]), ExpectColon)])
  {
  }

  /** The kinds of the tokens of `1 + 2 * 3`. */
  predicate SumOfProduct(t: seq<Token>)
  {
    && |t| == 6 && t[0].kind == NUMBER && t[1].kind == PLUS && t[2].kind == NUMBER
    && t[3].kind == STAR && t[4].kind == NUMBER && t[5].kind == EOF
  }

  /** `1 + 2 * 3`: the product binds tighter than the sum, and nothing is reported. */
  lemma TermOverFactor(t: seq<Token>)
    requires SumOfProduct(t)
    ensures Parse(t) == (Binary(Literal(t[0].literal), t[1], Binary(Literal(t[2].literal), t[3], Literal(t[4].literal))), [])
  {
    var sum := Parsed(Some(Binary(Literal(t[0].literal), t[1], Binary(Literal(t[2].literal), t[3], Literal(t[4].literal)))), 5, []);
    SumTerm(t);
    LevelAbove(t, 3, 0, [], sum);
    LevelAbove(t, 4, 0, [], sum);
    assert !MatchAt(t, 5, [QUESTION]);
  }

  /** At the term level the whole input is one sum. */
  lemma SumTerm(t: seq<Token>)
    requires SumOfProduct(t)
    ensures ParseLeftAssoc(t, 2, 0, [])
      == Parsed(Some(Binary(Literal(t[0].literal), t[1], Binary(Literal(t[2].literal), t[3], Literal(t[4].literal)))), 5, [])
  {
    var one := Literal(t[0].literal);
    var sum := Binary(one, t[1], Binary(Literal(t[2].literal), t[3], Literal(t[4].literal)));
    NumberFactor(t, 0, []);
    assert MatchAt(t, 1, Operators(2));
    RestStep(t, 2, one, 1, []);
    ProductOperand(t);
    RestStop(t, 2, sum, 5, []);
  }

  /** The right operand of the `+` in `1 + 2 * 3` is the whole product. */
  lemma ProductOperand(t: seq<Token>)
    requires SumOfProduct(t)
    ensures ParseLeftAssoc(t, 1, 2, []) == Parsed(Some(Binary(Literal(t[2].literal), t[3], Literal(t[4].literal))), 5, [])
  {
    var two := Literal(t[2].literal);
    NumberOperand(t, 2, []);
    assert MatchAt(t, 3, Operators(1));
    RestStep(t, 1, two, 3, []);
    NumberOperand(t, 4, []);
    RestStop(t, 1, Binary(two, t[3], Literal(t[4].literal)), 5, []);
  }

  /** `parse` stops after one expression: `1 2` yields the first number and no error. */
  lemma TrailingTokensIgnored(t: seq<Token>)
    requires |t| == 3 && t[0].kind == NUMBER && t[1].kind == NUMBER && t[2].kind == EOF
    ensures Parse(t) == (Literal(t[0].literal), [])
  {
    var one := Parsed(Some(Literal(t[0].literal)), 1, []);
    NumberFactor(t, 0, []);
    LevelAbove(t, 2, 0, [], one);
    LevelAbove(t, 3, 0, [], one);
    LevelAbove(t, 4, 0, [], one);
    assert !MatchAt(t, 1, [QUESTION]);
  }

  /** The factor level stops after a number that no `*` or `/` follows. */
  lemma NumberFactor(t: seq<Token>, pos: nat, ds: seq<Diagnostic>)
    requires ValidPos(t, pos + 1) && t[pos].kind == NUMBER && !MatchAt(t, pos + 1, Operators(1))
    ensures ParseLeftAssoc(t, 1, pos, ds) == Parsed(Some(Literal(t[pos].literal)), pos + 1, ds)
  {
    NumberOperand(t, pos, ds);
    RestStop(t, 1, Literal(t[pos].literal), pos + 1, ds);
  }

  /** A number token is a whole unary operand on its own. */
  lemma NumberOperand(toks: seq<Token>, pos: nat, ds: seq<Diagnostic>)
    requires ValidPos(toks, pos) && toks[pos].kind == NUMBER
    ensures ParseUnary(toks, pos, ds) == Parsed(Some(Literal(toks[pos].literal)), pos + 1, ds)
    ensures ParseOperand(toks, 1, pos, ds) == ParseUnary(toks, pos, ds)
  {
    assert !MatchAt(toks, pos, [BANG, MINUS]);
    assert ParsePrimary(toks, pos, ds) == Parsed(Some(Literal(toks[pos].literal)), pos + 1, ds);
  }

  /** A level's loop ends where no operator of the level follows. */
  lemma RestStop(toks: seq<Token>, level: nat, left: Expr, pos: nat, ds: seq<Diagnostic>)
    requires ValidPos(toks, pos) && 1 <= level <= 4 && !MatchAt(toks, pos, Operators(level))
    ensures LeftAssocRest(toks, level, left, pos, ds) == Parsed(Some(left), pos, ds)
  {
  }

  /** A level whose operand rule ends before any operator of the level yields the operand. */
  lemma LevelAbove(toks: seq<Token>, level: nat, pos: nat, ds: seq<Diagnostic>, below: Parsed)
    requires ValidPos(toks, pos) && 2 <= level <= 4
    requires ParseLeftAssoc(toks, level - 1, pos, ds) == below
    requires below.expr.Some? && below.pos < |toks| && !MatchAt(toks, below.pos, Operators(level))
    ensures ParseLeftAssoc(toks, level, pos, ds) == below
  {
    assert ParseOperand(toks, level, pos, ds) == below;
    RestStop(toks, level, below.expr.value, below.pos, ds);
  }

  /**
   * Declaration keywords do not stop `synchronize`: the switch over them only leaves the
   * switch, so the token is skipped like any other.
   */
  lemma SyncSkipsDeclarations(toks: seq<Token>, pos: nat)
    requires ValidPos(toks, pos) && pos > 0 && toks[pos - 1].kind != SEMICOLON
    requires toks[pos].kind in {CLASS, FUN, VAR, FOR, IF, WHILE, PRINT}
    ensures SyncFrom(toks, pos) == SyncFrom(toks, pos + 1)
  {
  }

  // ---------------------------------------------------------------------------

  class Parser {
    const tokens: seq<Token>
    var current: nat
    var diagnostics: seq<Diagnostic>

    ghost predicate Valid()
      reads this
    {
      ValidPos(tokens, current)
    }

    constructor(tokens: seq<Token>)
      requires WellFormed(tokens)
      ensures Valid() && this.tokens == tokens && current == 0 && diagnostics == []
    {
      this.tokens := tokens;
      current := 0;
      diagnostics := [];
    }

    /** One expression from the cursor; a ParseError that escapes yields `Literal(nil)`. */
    method Parse() returns (e: Expr)
      requires Valid()
      modifies this`current, this`diagnostics
      ensures Valid()
      ensures var r := ParseTernary(tokens, old(current), old(diagnostics));
        && e == (if r.expr.Some? then r.expr.value else Literal(NilLit))
        && current == r.pos && diagnostics == r.errors
    {
      var x := Expression();
      e := if x.Some? then x.value else Literal(NilLit);
    }

    method Expression() returns (e: Option<Expr>)
      requires Valid()
      modifies this`current, this`diagnostics
      ensures Valid()
      ensures Parsed(e, current, diagnostics) == ParseTernary(tokens, old(current), old(diagnostics))
      decreases |tokens| - current, 13
    {
      e := Ternary();
    }

    method Ternary() returns (e: Option<Expr>)
      requires Valid()
      modifies this`current, this`diagnostics
      ensures Valid()
      ensures Parsed(e, current, diagnostics) == ParseTernary(tokens, old(current), old(diagnostics))
      decreases |tokens| - current, 11
    {
      TernaryCases(tokens, current, diagnostics);
      e := LeftAssoc(4, [BANG_EQUAL, EQUAL_EQUAL]);
      if e.None? {
        return;
      }
      var question := Match([QUESTION]);
      if question {
        e := TernaryArms(e.value);
      }
    }

    /** The part of `ternary` after its `?`. */
    method TernaryArms(condition: Expr) returns (e: Option<Expr>)
      requires Valid()
      modifies this`current, this`diagnostics
      ensures Valid()
      ensures Parsed(e, current, diagnostics) == ParseTernaryArms(tokens, condition, old(current), old(diagnostics))
      decreases |tokens| - current, 12
    {
      ghost var r := ParseTernaryArms(tokens, condition, current, diagnostics);
      ghost var t := ParseTernary(tokens, current, diagnostics);
      var isTrue := Ternary();
      if isTrue.None? {
        return isTrue;
      }
      var colon := Match([COLON]);
      if colon {
        ghost var f := ParseTernary(tokens, current, diagnostics);
        assert r == if f.expr.None? then f else Parsed(Some(Expr.Ternary(condition, t.expr.value, f.expr.value)), f.pos, f.errors);
        var isFalse := Ternary();
        if isFalse.None? {
          return isFalse;
        }
        return Some(Expr.Ternary(condition, isTrue.value, isFalse.value));
      }
      assert r == Parsed(Some(condition), t.pos, t.errors + [ErrorAt(tokens[t.pos], ExpectColon)]);
      Error(Peek(), ExpectColon);
      e := Some(condition);
    }

    /**
     * `equality`, `comparison`, `term` and `factor`, which differ only in their operator
     * list and the rule for their operands.
     */
    method LeftAssoc(level: nat, operators: seq<TokenType>) returns (e: Option<Expr>)
      requires Valid() && 1 <= level <= 4 && operators == Operators(level)
      modifies this`current, this`diagnostics
      ensures Valid()
      ensures Parsed(e, current, diagnostics) == ParseLeftAssoc(tokens, level, old(current), old(diagnostics))
      decreases |tokens| - current, 2 * level + 1
    {
      e := Operand(level);
      if e.None? {
        return;
      }
      e := JoinLeft(level, operators, e.value);
    }

    /** The `while` loop of `equality`, `comparison`, `term` and `factor`. */
    method JoinLeft(level: nat, operators: seq<TokenType>, left: Expr) returns (e: Option<Expr>)
      requires Valid() && 1 <= level <= 4 && operators == Operators(level)
      modifies this`current, this`diagnostics
      ensures Valid()
      ensures Parsed(e, current, diagnostics) == LeftAssocRest(tokens, level, left, old(current), old(diagnostics))
      decreases |tokens| - current, 2 * level + 1
    {
      ghost var r := LeftAssocRest(tokens, level, left, current, diagnostics);
      ghost var pos: nat := current;
      var expr := left;
      var more := Match(operators);
      while more
        invariant Valid() && pos < |tokens|
        invariant r == LeftAssocRest(tokens, level, expr, pos, diagnostics)
        invariant more == MatchAt(tokens, pos, operators)
        invariant current == if more then pos + 1 else pos
        decreases |tokens| - current
      {
        ghost var rr := ParseOperand(tokens, level, pos + 1, diagnostics);
        RestStep(tokens, level, expr, pos, diagnostics);
        var operator := Previous();
        assert operator == tokens[pos];
        var right := Operand(level);
        assert Parsed(right, current, diagnostics) == rr;
        if right.None? {
          assert r == rr;
          return right;
        }
        expr := Binary(expr, operator, right.value);
        assert r == LeftAssocRest(tokens, level, expr, current, diagnostics);
        pos := current;
        more := Match(operators);
      }
      e := Some(expr);
    }

    /** The operand rule of a level. */
    method Operand(level: nat) returns (e: Option<Expr>)
      requires Valid() && 1 <= level <= 4
      modifies this`current, this`diagnostics
      ensures Valid()
      ensures Parsed(e, current, diagnostics) == ParseOperand(tokens, level, old(current), old(diagnostics))
      decreases |tokens| - current, 2 * level
    {
      if level == 1 {
        e := Unary();
      } else {
        e := LeftAssoc(level - 1, Operators(level - 1));
      }
    }

    method Unary() returns (e: Option<Expr>)
      requires Valid()
      modifies this`current, this`diagnostics
      ensures Valid()
      ensures Parsed(e, current, diagnostics) == ParseUnary(tokens, old(current), old(diagnostics))
      decreases |tokens| - current, 1
    {
      var isUnary := Match([BANG, MINUS]);
      if isUnary {
        var operator := Previous();
        var right := Unary();
        if right.None? {
          return right;
        }
        return Some(Expr.Unary(operator, right.value));
      }
      e := Primary();
    }

    method Primary() returns (e: Option<Expr>)
      requires Valid()
      modifies this`current, this`diagnostics
      ensures Valid()
      ensures Parsed(e, current, diagnostics) == ParsePrimary(tokens, old(current), old(diagnostics))
      decreases |tokens| - current, 0
    {
      ghost var r := ParsePrimary(tokens, current, diagnostics);
      ghost var pos := current;
      var m := Match([FALSE]);
      if m {
        return Some(Literal(BoolLit(false)));
      }
      m := Match([TRUE]);
      if m {
        return Some(Literal(BoolLit(true)));
      }
      m := Match([NIL]);
      if m {
        return Some(Literal(NilLit));
      }
      m := Match([NUMBER, STRING]);
      if m {
        assert r == Parsed(Some(Literal(tokens[pos].literal)), pos + 1, diagnostics);
        return Some(Literal(Previous().literal));
      }
      m := Match([LEFT_PAREN]);
      if m {
        assert r == ParseGroup(tokens, pos + 1, diagnostics);
        e := Group();
        return;
      }
      assert r == Parsed(None, pos, diagnostics + [ErrorAt(tokens[pos], ExpectExpression)]);
      Error(Peek(), ExpectExpression);
      e := None;
    }

    /** The rest of a parenthesised group in `primary`, after its `(`. */
    method Group() returns (e: Option<Expr>)
      requires Valid() && current > 0
      modifies this`current, this`diagnostics
      ensures Valid()
      ensures Parsed(e, current, diagnostics) == ParseGroup(tokens, old(current), old(diagnostics))
      decreases |tokens| - current, 14
    {
      ghost var r := ParseGroup(tokens, current, diagnostics);
      e := Expression();
      if e.None? {
        return;
      }
      ghost var g := ParseTernary(tokens, old(current), old(diagnostics));
      assert r == if CheckAt(tokens, g.pos, RIGHT_PAREN) then Parsed(Some(Grouping(g.expr.value)), g.pos + 1, g.errors)
        else Parsed(None, g.pos, g.errors + [ErrorAt(tokens[g.pos], ExpectRightParen)]);
      var closing := Consume(RIGHT_PAREN, ExpectRightParen);
      e := if closing.Some? then Some(Grouping(e.value)) else None;
    }

    /** `match`: tries each kind in turn and consumes the token on the first that fits. */
    method Match(types: seq<TokenType>) returns (b: bool)
      requires Valid()
      modifies this`current
      ensures Valid()
      ensures b == MatchAt(tokens, old(current), types)
      ensures current == if b then old(current) + 1 else old(current)
    {
      for i := 0 to |types|
        invariant current == old(current)
        invariant forall j :: 0 <= j < i ==> !Check(types[j])
      {
        if Check(types[i]) {
          var _ := Advance();
          return true;
        }
      }
      return false;
    }

    /** `consume`: the current token when it has kind `k`, otherwise a reported error (None). */
    method Consume(k: TokenType, message: string) returns (t: Option<Token>)
      requires Valid()
      modifies this`current, this`diagnostics
      ensures Valid()
      ensures CheckAt(tokens, old(current), k) ==>
        t == Some(tokens[old(current)]) && current == old(current) + 1 && diagnostics == old(diagnostics)
      ensures !CheckAt(tokens, old(current), k) ==>
        t.None? && current == old(current) && diagnostics == old(diagnostics) + [ErrorAt(tokens[current], message)]
    {
      if Check(k) {
        t := Advance();
        return;
      }
      Error(Peek(), message);
      t := None;
    }

    predicate Check(k: TokenType)
      requires Valid()
      reads this
    {
      if IsAtEnd() then false else Peek().kind == k
    }

    /**
     * `advance`: steps past the current token unless it is EOF, and returns the token behind
     * the cursor (None stands for the `undefined` read before the first token).
     */
    method Advance() returns (t: Option<Token>)
      requires Valid()
      modifies this`current
      ensures Valid() && current == AdvancePos(tokens, old(current))
      ensures t == if current > 0 then Some(tokens[current - 1]) else None
    {
      if !IsAtEnd() {
        current := current + 1;
      }
      t := if current > 0 then Some(Previous()) else None;
    }

    function Previous(): Token
      requires Valid() && current > 0
      reads this
    {
      tokens[current - 1]
    }

    function Peek(): Token
      requires Valid()
      reads this
    {
      tokens[current]
    }

    predicate IsAtEnd()
      requires Valid()
      reads this
    {
      Peek().kind == EOF
    }

    /** `error`: reports the message at a token; the caller then raises (or, in `ternary`, goes on). */
    method Error(token: Token, message: string)
      modifies this`diagnostics
      ensures diagnostics == old(diagnostics) + [ErrorAt(token, message)]
    {
      diagnostics := diagnostics + [ErrorAt(token, message)];
    }

    /**
     * `synchronize`: steps past the current token, then skips to the next point where a
     * statement can start: after a `;`, before `return`, or at EOF.
     */
    method Synchronize()
      requires Valid()
      modifies this`current
      ensures Valid() && current == SyncFrom(tokens, AdvancePos(tokens, old(current)))
    {
      var _ := Advance();
      while !IsAtEnd()
        invariant Valid() && (current > 0 || IsAtEnd())
        invariant SyncFrom(tokens, current) == SyncFrom(tokens, AdvancePos(tokens, old(current)))
        decreases |tokens| - current
      {
        if Previous().kind == SEMICOLON {
          return;
        }
        match Peek().kind {
          case CLASS =>
          case FUN =>
          case VAR =>
          case FOR =>
          case IF =>
          case WHILE =>
          case PRINT =>
          case RETURN => return;
          case _ =>
        }
        var _ := Advance();
      }
    }
  }
}
