/**
 * The syntax trees: the closed expression variants (with the field names the parser,
 * resolver, interpreter and printers use) and the statement variants of statements.ts.
 * A visitor's `accept` becomes a `match` on the variant.
 */
module Ast {
  import opened Common
  import opened Tokens

  /**
   * Identity of a Variable or Assign node. The resolver's side table is keyed by node
   * identity, so two textually equal references at different places carry different ids.
   */
  type NodeId = nat

  datatype Expr =
    | Assign(id: NodeId, name: Token, value: Expr)
    | Binary(left: Expr, operator: Token, right: Expr)
    | Call(callee: Expr, paren: Token, args: seq<Expr>)
    | Grouping(expression: Expr)
    | Literal(literal: LitValue)
    | Logical(left: Expr, operator: Token, right: Expr)
    | Unary(operator: Token, right: Expr)
    | Ternary(condition: Expr, ifTrue: Expr, ifFalse: Expr)
    | Variable(id: NodeId, name: Token)

  /** One `case` arm of a switch; it is also a statement of its own (`Stmt.Case`). */
  datatype CaseClause = CaseClause(condition: Expr, statement: Stmt)

  datatype Stmt =
    | Block(statements: seq<Stmt>)
    | Break
    | Case(clause: CaseClause)
    | Continue
    | Exit
    | Expression(expression: Expr)
    | Function(name: Token, parameters: seq<Token>, funBody: seq<Stmt>)
    | If(condition: Expr, thenBranch: Stmt, elseBranch: Option<Stmt>)
    | Print(expression: Expr)
    | Return(keyword: Token, value: Option<Expr>)
    | Switch(condition: Expr, cases: seq<CaseClause>, defaultCase: Stmt)
    | Var(name: Token, initializer: Option<Expr>)
    | While(condition: Expr, body: Stmt, isFor: bool)

  /** Number of nodes of an expression tree. */
  function Size(e: Expr): (n: nat)
    ensures n >= 1
    decreases e
  {
    match e
    case Assign(_, _, v) => 1 + Size(v)
    case Binary(l, _, r) => 1 + Size(l) + Size(r)
    case Call(c, _, args) => 1 + Size(c) + SizeAll(args)
    case Grouping(x) => 1 + Size(x)
    case Literal(_) => 1
    case Logical(l, _, r) => 1 + Size(l) + Size(r)
    case Unary(_, r) => 1 + Size(r)
    case Ternary(c, t, f) => 1 + Size(c) + Size(t) + Size(f)
    case Variable(_, _) => 1
  }

  function SizeAll(es: seq<Expr>): nat
    decreases es
  {
    if es == [] then 0 else Size(es[0]) + SizeAll(es[1..])
  }

  /** Number of statement nodes of a statement tree (expressions count for nothing). */
  function StmtSize(s: Stmt): (n: nat)
    ensures n >= 1
    decreases s
  {
    match s
    case Block(ss) => 1 + StmtsSize(ss)
    case Case(c) => 1 + StmtSize(c.statement)
    case Function(_, _, body) => 1 + StmtsSize(body)
    case If(_, t, e) => 1 + StmtSize(t) + (if e.Some? then StmtSize(e.value) else 0)
    case Switch(_, cases, d) => 1 + ClausesSize(cases) + StmtSize(d)
    case While(_, b, _) => 1 + StmtSize(b)
    case _ => 1
  }

  function StmtsSize(ss: seq<Stmt>): nat
    decreases ss
  {
    if ss == [] then 0 else StmtSize(ss[0]) + StmtsSize(ss[1..])
  }

  function ClausesSize(cs: seq<CaseClause>): nat
    decreases cs
  {
    if cs == [] then 0 else ClauseSize(cs[0]) + ClausesSize(cs[1..])
  }

  function ClauseSize(c: CaseClause): nat
    decreases c
  {
    StmtSize(c.statement)
  }

  /** Ids of the Variable and Assign nodes inside an expression. */
  function RefIds(e: Expr): set<NodeId>
    decreases e
  {
    match e
    case Assign(id, _, v) => {id} + RefIds(v)
    case Binary(l, _, r) => RefIds(l) + RefIds(r)
    case Call(c, _, args) => RefIds(c) + RefIdsAll(args)
    case Grouping(x) => RefIds(x)
    case Literal(_) => {}
    case Logical(l, _, r) => RefIds(l) + RefIds(r)
    case Unary(_, r) => RefIds(r)
    case Ternary(c, t, f) => RefIds(c) + RefIds(t) + RefIds(f)
    case Variable(id, _) => {id}
  }

  function RefIdsAll(es: seq<Expr>): set<NodeId>
    decreases es
  {
    if es == [] then {} else RefIds(es[0]) + RefIdsAll(es[1..])
  }

  /** Ids of the Variable and Assign nodes anywhere inside a statement. */
  function StmtRefIds(s: Stmt): set<NodeId>
    decreases s
  {
    match s
    case Block(ss) => StmtsRefIds(ss)
    case Break => {}
    case Case(c) => ClauseRefIds(c)
    case Continue => {}
    case Exit => {}
    case Expression(e) => RefIds(e)
    case Function(_, _, body) => StmtsRefIds(body)
    case If(c, t, e) => RefIds(c) + StmtRefIds(t) + (if e.Some? then StmtRefIds(e.value) else {})
    case Print(e) => RefIds(e)
    case Return(_, v) => if v.Some? then RefIds(v.value) else {}
    case Switch(c, cases, d) => RefIds(c) + ClausesRefIds(cases) + StmtRefIds(d)
    case Var(_, init) => if init.Some? then RefIds(init.value) else {}
    case While(c, b, _) => RefIds(c) + StmtRefIds(b)
  }

  function StmtsRefIds(ss: seq<Stmt>): set<NodeId>
    decreases ss
  {
    if ss == [] then {} else StmtRefIds(ss[0]) + StmtsRefIds(ss[1..])
  }

  function ClauseRefIds(c: CaseClause): set<NodeId>
    decreases c
  {
    RefIds(c.condition) + StmtRefIds(c.statement)
  }

  function ClausesRefIds(cs: seq<CaseClause>): set<NodeId>
    decreases cs
  {
    if cs == [] then {} else ClauseRefIds(cs[0]) + ClausesRefIds(cs[1..])
  }
}
