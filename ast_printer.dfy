/**
 * The debug printer of ast_printer.ts: an expression tree as a parenthesised prefix
 * S-expression, `(op operand ...)`.
 */
module AstPrinting {
  import opened Common
  import opened Tokens
  import opened Ast

  /** The variants the printer has a visitor for; for the others `accept` finds no method. */
  ghost predicate Printable(e: Expr)
    decreases e
  {
    match e
    case Binary(l, _, r) => Printable(l) && Printable(r)
    case Grouping(x) => Printable(x)
    case Literal(_) => true
    case Unary(_, r) => Printable(r)
    case Ternary(c, t, f) => Printable(c) && Printable(t) && Printable(f)
    case _ => false
  }

  ghost predicate AllPrintable(es: seq<Expr>)
  {
    forall i :: 0 <= i < |es| ==> Printable(es[i])
  }

  /** The name a non-literal node is printed under: the operator's lexeme, `group` or `?`. */
  function NodeName(e: Expr): string
  {
    match e
    case Binary(_, op, _) => op.lexeme
    case Grouping(_) => "group"
    case Unary(op, _) => op.lexeme
    case Ternary(_, _, _) => "?"
    case _ => ""
  }

  /** The operands a node is printed with, in the order the visitor passes them. */
  function Children(e: Expr): (es: seq<Expr>)
    ensures Printable(e) && !e.Literal? ==> AllPrintable(es)
    ensures SizeAll(es) < Size(e)
  {
    match e
    case Binary(l, _, r) => Sums(l, r, Literal(NilLit)); [l, r]
    case Grouping(x) => Sums(x, x, x); [x]
    case Unary(_, r) => Sums(r, r, r); [r]
    case Ternary(c, t, f) => Sums(c, t, f); [c, t, f]
    case _ => []
  }

  /** The sums over operand lists of one, two and three trees. */
  lemma Sums(a: Expr, b: Expr, c: Expr)
    ensures SizeAll([a]) == Size(a) && InteriorAll([a]) == Interior(a)
    ensures SizeAll([a, b]) == Size(a) + Size(b) && InteriorAll([a, b]) == Interior(a) + Interior(b)
    ensures SizeAll([a, b, c]) == Size(a) + Size(b) + Size(c)
    ensures InteriorAll([a, b, c]) == Interior(a) + Interior(b) + Interior(c)
  {
    var one, two, three := [c], [b, c], [a, b, c];
    assert three[1..] == two && two[1..] == one && one[1..] == [];
    assert [a, b][1..] == [b] && [b][1..] == [] && [a][1..] == [];
    var sa, sb, sc := Size(a), Size(b), Size(c);
    var ia, ib, ic := Interior(a), Interior(b), Interior(c);
    assert SizeAll(one) == sc;
    assert SizeAll(two) == sb + sc;
    assert InteriorAll(one) == ic;
    assert InteriorAll(two) == ib + ic;
  }

  /** `printExpr` and the `visit*` methods. */
  function Print(e: Expr, showNumber: NumberFormat): string
    requires Printable(e)
    decreases Size(e), 1
  {
    if e.Literal? then LiteralString(e.literal, showNumber)
    else Parenthesize(NodeName(e), Children(e), showNumber)
  }

  /** `parenthesize`: `(`, the name, each operand after one space, then `)`. */
  function Parenthesize(name: string, es: seq<Expr>, showNumber: NumberFormat): string
    requires AllPrintable(es)
    decreases SizeAll(es), 4
  {
    "(" + name + Operands(es, showNumber) + ")"
  }

  /** The loop of `parenthesize`: each operand's text after one space. */
  function Operands(es: seq<Expr>, showNumber: NumberFormat): string
    requires AllPrintable(es)
    decreases SizeAll(es), 3
  {
    if es == [] then "" else " " + Print(es[0], showNumber) + Operands(es[1..], showNumber)
  }

  // ---------------------------------------------------------------------------

  /** The texts that reach the output hold no parentheses of their own. */
  ghost predicate ParenFree(e: Expr, showNumber: NumberFormat)
    decreases e
  {
    match e
    case Binary(l, op, r) => Plain(op.lexeme) && ParenFree(l, showNumber) && ParenFree(r, showNumber)
    case Grouping(x) => ParenFree(x, showNumber)
    case Literal(v) => Plain(LiteralString(v, showNumber))
    case Unary(op, r) => Plain(op.lexeme) && ParenFree(r, showNumber)
    case Ternary(c, t, f) => ParenFree(c, showNumber) && ParenFree(t, showNumber) && ParenFree(f, showNumber)
    case _ => true
  }

  ghost predicate Plain(s: string)
  {
    Count(s, '(') == 0 && Count(s, ')') == 0
  }

  /** Number of nodes that are not literals. */
  function Interior(e: Expr): nat
    decreases e
  {
    match e
    case Binary(l, _, r) => 1 + Interior(l) + Interior(r)
    case Grouping(x) => 1 + Interior(x)
    case Unary(_, r) => 1 + Interior(r)
    case Ternary(c, t, f) => 1 + Interior(c) + Interior(t) + Interior(f)
    case _ => 0
  }

  function InteriorAll(es: seq<Expr>): nat
  {
    if es == [] then 0 else Interior(es[0]) + InteriorAll(es[1..])
  }

  /**
   * Every node other than a literal contributes exactly one `(` and one `)`: when the
   * lexemes and literal texts hold none, the output has as many of each as the tree has
   * interior nodes.
   */
  lemma {:induction false} ParenCount(e: Expr, showNumber: NumberFormat)
    requires Printable(e) && ParenFree(e, showNumber)
    ensures Count(Print(e, showNumber), '(') == Interior(e)
    ensures Count(Print(e, showNumber), ')') == Interior(e)
    decreases Size(e), 1
  {
    if !e.Literal? {
      var es := Children(e);
      ChildrenFacts(e, showNumber);
      OperandsParenCount(es, showNumber);
      var name := NodeName(e);
      var ops := Operands(es, showNumber);
      assert Print(e, showNumber) == "(" + name + ops + ")";
      CountAppend("(" + name, ops, '(');
      CountAppend("(" + name, ops, ')');
      CountAppend("(" + name + ops, ")", '(');
      CountAppend("(" + name + ops, ")", ')');
      CountAppend("(", name, '(');
      CountAppend("(", name, ')');
    }
  }

  /** A node's name is paren-free, its children are, and together they hold the node's interior count. */
  lemma ChildrenFacts(e: Expr, showNumber: NumberFormat)
    requires Printable(e) && ParenFree(e, showNumber) && !e.Literal?
    ensures Plain(NodeName(e))
    ensures forall i :: 0 <= i < |Children(e)| ==> ParenFree(Children(e)[i], showNumber)
    ensures InteriorAll(Children(e)) + 1 == Interior(e)
  {
    var es := Children(e);
    if e.Grouping? || e.Ternary? {
      FixedNamesPlain();
    }
    match e
    case Binary(l, _, r) => Sums(l, r, r);
    case Ternary(c, t, f) => Sums(c, t, f);
    case Grouping(x) => Sums(x, x, x);
    case Unary(_, r) => Sums(r, r, r);
  }

  lemma FixedNamesPlain()
    ensures Plain("group") && Plain("?")
  {
    CountAbsent("group", '(');
    CountAbsent("group", ')');
    CountAbsent("?", '(');
    CountAbsent("?", ')');
  }

  lemma {:induction false} OperandsParenCount(es: seq<Expr>, showNumber: NumberFormat)
    requires AllPrintable(es)
    requires forall i :: 0 <= i < |es| ==> ParenFree(es[i], showNumber)
    ensures Count(Operands(es, showNumber), '(') == InteriorAll(es)
    ensures Count(Operands(es, showNumber), ')') == InteriorAll(es)
    decreases SizeAll(es), 3
  {
    if es != [] {
      var head := Print(es[0], showNumber);
      var tail := Operands(es[1..], showNumber);
      ParenCount(es[0], showNumber);
      OperandsParenCount(es[1..], showNumber);
      assert Operands(es, showNumber) == (" " + head) + tail;
      CountAppend(" " + head, tail, '(');
      CountAppend(" " + head, tail, ')');
      CountAppend(" ", head, '(');
      CountAppend(" ", head, ')');
      CountAbsent(" ", '(');
      CountAbsent(" ", ')');
    }
  }

  /**
   * The output is pre-order, one format per variant: `(op left right)`, `(group e)`,
   * `(op e)` and `(? condition then else)`, each operand after one space.
   */
  lemma VariantFormats(e: Expr, showNumber: NumberFormat)
    requires Printable(e)
    ensures e.Binary? ==>
      Print(e, showNumber) == "(" + e.operator.lexeme + " " + Print(e.left, showNumber) + " " + Print(e.right, showNumber) + ")"
    ensures e.Grouping? ==> Print(e, showNumber) == "(group " + Print(e.expression, showNumber) + ")"
    ensures e.Unary? ==> Print(e, showNumber) == "(" + e.operator.lexeme + " " + Print(e.right, showNumber) + ")"
    ensures e.Ternary? ==>
      Print(e, showNumber) == "(? " + Print(e.condition, showNumber) + " " + Print(e.ifTrue, showNumber) + " " + Print(e.ifFalse, showNumber) + ")"
  {
    match e
    case Binary(l, op, r) => BinaryFormat(l, op, r, showNumber);
    case Grouping(x) =>
      OneOperandFormat(e, x, showNumber);
      GroupText(Print(x, showNumber));
    case Unary(op, r) => OneOperandFormat(e, r, showNumber);
    case Ternary(c, t, f) => TernaryFormat(c, t, f, showNumber);
    case _ =>
  }

  lemma BinaryFormat(l: Expr, op: Token, r: Expr, showNumber: NumberFormat)
    requires Printable(l) && Printable(r)
    ensures Print(Binary(l, op, r), showNumber) == "(" + op.lexeme + " " + Print(l, showNumber) + " " + Print(r, showNumber) + ")"
  {
    Parenthesized(Binary(l, op, r), showNumber);
    assert Children(Binary(l, op, r)) == [l, r];
    TwoOperands(l, r, showNumber);
    BinaryText(op.lexeme, Print(l, showNumber), Print(r, showNumber));
  }

  lemma BinaryText(name: string, pl: string, pr: string)
    ensures "(" + name + (" " + pl + " " + pr) + ")" == "(" + name + " " + pl + " " + pr + ")"
  {
    Joined4("(" + name, " ", pl, " " + pr);
    Assoc("(" + name + " " + pl, " ", pr);
  }

  lemma OneOperandFormat(e: Expr, x: Expr, showNumber: NumberFormat)
    requires Printable(e) && (e == Grouping(x) || (e.Unary? && e.right == x))
    ensures Printable(x) && Print(e, showNumber) == "(" + NodeName(e) + " " + Print(x, showNumber) + ")"
  {
    Parenthesized(e, showNumber);
    assert Children(e) == [x];
    LastOperand(x, showNumber);
  }

  lemma TernaryFormat(c: Expr, t: Expr, f: Expr, showNumber: NumberFormat)
    requires Printable(c) && Printable(t) && Printable(f)
    ensures Print(Ternary(c, t, f), showNumber)
      == "(? " + Print(c, showNumber) + " " + Print(t, showNumber) + " " + Print(f, showNumber) + ")"
  {
    Parenthesized(Ternary(c, t, f), showNumber);
    assert Children(Ternary(c, t, f)) == [c, t, f];
    ThreeOperands(c, t, f, showNumber);
    TernaryText(Print(c, showNumber), Print(t, showNumber), Print(f, showNumber));
  }

  lemma TernaryText(pc: string, pt: string, pf: string)
    ensures "(" + "?" + (" " + pc + " " + pt + " " + pf) + ")" == "(? " + pc + " " + pt + " " + pf + ")"
  {
    assert "(" + "?" == "(?";
    assert "(?" + " " == "(? ";
    Joined4("(?", " " + pc, " " + pt, " " + pf);
    Assoc("(?", " ", pc);
    Assoc("(? " + pc, " ", pt);
    Assoc("(? " + pc + " " + pt, " ", pf);
  }

  /** A grouping's name, `group`, and its operand make one text. */
  lemma GroupText(px: string)
    ensures "(" + "group" + " " + px + ")" == "(group " + px + ")"
  {
    assert "(" + "group" + " " == "(group ";
  }

  /** A node other than a literal prints as its name and operands in parentheses. */
  lemma Parenthesized(e: Expr, showNumber: NumberFormat)
    requires Printable(e) && !e.Literal?
    ensures AllPrintable(Children(e))
    ensures Print(e, showNumber) == "(" + NodeName(e) + Operands(Children(e), showNumber) + ")"
  {
  }

  lemma TwoOperands(a: Expr, b: Expr, showNumber: NumberFormat)
    requires Printable(a) && Printable(b)
    ensures Operands([a, b], showNumber) == " " + Print(a, showNumber) + " " + Print(b, showNumber)
  {
    assert [a, b][1..] == [b];
    LastOperand(b, showNumber);
    Assoc(" " + Print(a, showNumber), " ", Print(b, showNumber));
  }

  lemma ThreeOperands(a: Expr, b: Expr, c: Expr, showNumber: NumberFormat)
    requires Printable(a) && Printable(b) && Printable(c)
    ensures Operands([a, b, c], showNumber) == " " + Print(a, showNumber) + " " + Print(b, showNumber) + " " + Print(c, showNumber)
  {
    assert [a, b, c][1..] == [b, c];
    TwoOperands(b, c, showNumber);
    var pa, pb, pc := Print(a, showNumber), Print(b, showNumber), Print(c, showNumber);
    Joined4(" " + pa, " ", pb, " " + pc);
  }

  lemma LastOperand(x: Expr, showNumber: NumberFormat)
    requires Printable(x)
    ensures Operands([x], showNumber) == " " + Print(x, showNumber)
  {
    assert [x][1..] == [];
    Unit(" " + Print(x, showNumber));
  }

  lemma Unit(x: string)
    ensures x + "" == x
  {
  }

  lemma Assoc(x: string, y: string, z: string)
    ensures x + (y + z) == x + y + z
  {
  }

  lemma Joined4(a: string, b: string, c: string, d: string)
    ensures a + (b + c + d) == a + b + c + d
  {
    Assoc(a, b + c, d);
    Assoc(a, b, c);
  }

  /** A literal prints as `nil` for no value, otherwise as its `String` form. */
  lemma LiteralPrint(v: LitValue, showNumber: NumberFormat)
    ensures v == NilLit ==> Print(Literal(v), showNumber) == "nil"
    ensures v.BoolLit? ==> Print(Literal(v), showNumber) == (if v.b then "true" else "false")
    ensures v.StrLit? ==> Print(Literal(v), showNumber) == v.s
    ensures v.NumLit? ==> Print(Literal(v), showNumber) == showNumber(v.n)
  {
  }
}
