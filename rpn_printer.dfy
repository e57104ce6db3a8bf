/**
 * The debug printer of rpn_printer.ts: an expression tree in reverse Polish notation,
 * operands before their operator.
 */
module RpnPrinting {
  import opened Common
  import opened Tokens
  import opened Ast

  /** The variants the printer has a visitor for: there is none for ternaries. */
  ghost predicate Printable(e: Expr)
    decreases e
  {
    match e
    case Binary(l, _, r) => Printable(l) && Printable(r)
    case Grouping(x) => Printable(x)
    case Literal(_) => true
    case Unary(_, r) => Printable(r)
    case _ => false
  }

  ghost predicate AllPrintable(es: seq<Expr>)
  {
    forall i :: 0 <= i < |es| ==> Printable(es[i])
  }

  /** `printExpr` and the `visit*` methods. */
  function Print(e: Expr, showNumber: NumberFormat): string
    requires Printable(e)
    decreases Size(e), 1
  {
    match e
    case Binary(l, op, r) => Print(l, showNumber) + " " + Print(r, showNumber) + " " + op.lexeme
    case Grouping(x) => assert SizeAll([x]) == Size(x) by { assert [x][1..] == []; }
      Parenthesize("", [x], showNumber)
    case Literal(v) => LiteralString(v, showNumber)
    case Unary(op, r) =>
      if op.lexeme == "!" then Print(r, showNumber) + " not"
      else if op.lexeme == "-" then Print(r, showNumber) + " neg"
      else
        assert SizeAll([r]) == Size(r) by { assert [r][1..] == []; }
        Parenthesize(op.lexeme, [r], showNumber)
  }

  /** `parenthesize`: the operands' texts run together, then the name. */
  function Parenthesize(name: string, es: seq<Expr>, showNumber: NumberFormat): string
    requires AllPrintable(es)
    decreases SizeAll(es), 4
  {
    Operands(es, showNumber) + name
  }

  /** The loop of `parenthesize`: each operand's text, with nothing between them. */
  function Operands(es: seq<Expr>, showNumber: NumberFormat): string
    requires AllPrintable(es)
    decreases SizeAll(es), 3
  {
    if es == [] then "" else Print(es[0], showNumber) + Operands(es[1..], showNumber)
  }

  // ---------------------------------------------------------------------------

  /** `parenthesize` of a single operand: its text, then the name. */
  lemma SingleOperand(name: string, e: Expr, showNumber: NumberFormat)
    requires Printable(e)
    ensures Parenthesize(name, [e], showNumber) == Print(e, showNumber) + name
  {
    assert [e][1..] == [];
    assert Operands([e], showNumber) == Print(e, showNumber) + "";
  }

  /** A group prints exactly as the expression inside it. */
  lemma GroupingTransparent(e: Expr, showNumber: NumberFormat)
    requires Printable(e)
    ensures Print(Grouping(e), showNumber) == Print(e, showNumber)
  {
    SingleOperand("", e, showNumber);
  }

  /** A unary operator other than `!` and `-` is written straight after its operand. */
  lemma OtherUnary(op: Token, e: Expr, showNumber: NumberFormat)
    requires Printable(e) && op.lexeme != "!" && op.lexeme != "-"
    ensures Print(Unary(op, e), showNumber) == Print(e, showNumber) + op.lexeme
  {
    SingleOperand(op.lexeme, e, showNumber);
  }

  /** Trees whose unary operators are spelled `!` or `-`: the ones the parser builds. */
  ghost predicate Standard(e: Expr)
    decreases e
  {
    match e
    case Binary(l, _, r) => Standard(l) && Standard(r)
    case Grouping(x) => Standard(x)
    case Literal(_) => true
    case Unary(op, r) => op.lexeme in {"!", "-"} && Standard(r)
    case _ => false
  }

  /**
   * The post-order traversal of a tree: each literal's text, and after the items of its
   * operands each operator's name (`not` and `neg` for the unary ones); groups add nothing.
   */
  function PostOrder(e: Expr, showNumber: NumberFormat): (items: seq<string>)
    requires Standard(e)
    ensures |items| > 0
    decreases e
  {
    match e
    case Binary(l, op, r) => PostOrder(l, showNumber) + PostOrder(r, showNumber) + [op.lexeme]
    case Grouping(x) => PostOrder(x, showNumber)
    case Literal(v) => [LiteralString(v, showNumber)]
    case Unary(op, r) => PostOrder(r, showNumber) + [if op.lexeme == "!" then "not" else "neg"]
  }

  /** Items written one after the other with a single space between neighbours. */
  function Spaced(items: seq<string>): string
    requires |items| > 0
    decreases |items|
  {
    if |items| == 1 then items[0] else Spaced(items[..|items| - 1]) + " " + items[|items| - 1]
  }

  lemma {:induction false} SpacedAppend(a: seq<string>, b: seq<string>)
    requires |a| > 0 && |b| > 0
    ensures Spaced(a + b) == Spaced(a) + " " + Spaced(b)
    decreases |b|
  {
    if |b| == 1 {
      assert (a + b)[..|a + b| - 1] == a;
    } else {
      var b' := b[..|b| - 1];
      assert (a + b)[..|a + b| - 1] == a + b';
      SpacedAppend(a, b');
    }
  }

  /**
   * The printer writes the post-order traversal with single spaces between items: every
   * operator comes after both its operands.
   */
  lemma {:induction false} PrintIsPostOrder(e: Expr, showNumber: NumberFormat)
    requires Standard(e)
    ensures Printable(e)
    ensures Print(e, showNumber) == Spaced(PostOrder(e, showNumber))
    decreases e
  {
    match e
    case Binary(l, op, r) =>
      PrintIsPostOrder(l, showNumber);
      PrintIsPostOrder(r, showNumber);
      var pl, pr := PostOrder(l, showNumber), PostOrder(r, showNumber);
      SpacedAppend(pl, pr);
      assert (pl + pr + [op.lexeme])[..|pl + pr|] == pl + pr;
    case Grouping(x) =>
      PrintIsPostOrder(x, showNumber);
      GroupingTransparent(x, showNumber);
    case Literal(_) =>
    case Unary(op, r) =>
      PrintIsPostOrder(r, showNumber);
      var pr := PostOrder(r, showNumber);
      assert (pr + [if op.lexeme == "!" then "not" else "neg"])[..|pr|] == pr;
  }

  // ---------------------------------------------------------------------------
  // The expression `15 + 5 - -(15 + 5) / 2`, as the parser builds it.

  function Number(n: real): Expr { Literal(NumLit(n)) }

  function Operator(kind: TokenType, lexeme: string): Token { Token(kind, lexeme, NilLit, 1) }

  /** `15 + 5` */
  function Sum(): Expr { Binary(Number(15.0), Operator(PLUS, "+"), Number(5.0)) }

  /** `-(15 + 5) / 2` */
  function Quotient(): Expr
  {
    Binary(Unary(Operator(MINUS, "-"), Grouping(Sum())), Operator(SLASH, "/"), Number(2.0))
  }

  lemma SumText(showNumber: NumberFormat)
    requires showNumber(15.0) == "15" && showNumber(5.0) == "5"
    ensures Printable(Sum()) && Print(Sum(), showNumber) == "15 5 +"
  {
  }

  lemma QuotientText(showNumber: NumberFormat)
    requires showNumber(15.0) == "15" && showNumber(5.0) == "5" && showNumber(2.0) == "2"
    ensures Printable(Quotient()) && Print(Quotient(), showNumber) == "15 5 + neg 2 /"
  {
    SumText(showNumber);
    GroupingTransparent(Sum(), showNumber);
    var negated := Unary(Operator(MINUS, "-"), Grouping(Sum()));
    assert Print(negated, showNumber) == "15 5 + neg";
  }

  /** The postfix form of `15 + 5 - -(15 + 5) / 2`, with whole numbers written without a fraction. */
  lemma MixedExample(showNumber: NumberFormat)
    requires showNumber(15.0) == "15" && showNumber(5.0) == "5" && showNumber(2.0) == "2"
    ensures var e := Binary(Sum(), Operator(MINUS, "-"), Quotient());
      Printable(e) && Print(e, showNumber) == "15 5 + 15 5 + neg 2 / -"
  {
    SumText(showNumber);
    QuotientText(showNumber);
    var e := Binary(Sum(), Operator(MINUS, "-"), Quotient());
    assert Print(e, showNumber) == "15 5 +" + " " + "15 5 + neg 2 /" + " " + "-";
  }
}
