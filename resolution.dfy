/**
 * Static resolution (resolver.ts) as functions over the resolver's state: the stack of
 * block scopes, the kind of function being resolved, the diagnostics reported so far and
 * the interpreter's side table from variable-reference nodes to scope distances.
 * The class `Resolving.Resolver` is proved to compute exactly these functions.
 */
module Resolution {
  import opened Common
  import opened Tokens
  import opened Ast
  import opened Diagnostics

  datatype FunctionType = NONE | FUNCTION

  /** One block scope: a name maps to false while declared and to true once defined. */
  type Scope = map<string, bool>

  datatype RState = RState(
    scopes: seq<Scope>,
    currentFunction: FunctionType,
    errors: seq<Diagnostic>,
    locals: map<NodeId, nat>)

  const OwnInitializer := "Can't read local variable in its own initializer."
  const AlreadyDeclared := "Already a variable with this name in this scope."
  const TopLevelReturn := "Can't return from top-level code."

  function Innermost(rs: RState): Scope
    requires |rs.scopes| > 0
  {
    rs.scopes[|rs.scopes| - 1]
  }

  /** The innermost scope with `top` in its place. */
  function WithInnermost(rs: RState, top: Scope): RState
    requires |rs.scopes| > 0
  {
    rs.(scopes := rs.scopes[|rs.scopes| - 1 := top])
  }

  function Report(rs: RState, t: Token, message: string): RState
  {
    rs.(errors := rs.errors + [ErrorAt(t, message)])
  }

  /** `beginScope`: push an empty scope. */
  function BeginScope(rs: RState): RState
  {
    rs.(scopes := rs.scopes + [map[]])
  }

  /** `endScope`: pop the innermost scope; popping no scope changes nothing. */
  function EndScope(rs: RState): RState
  {
    if rs.scopes == [] then rs else rs.(scopes := rs.scopes[..|rs.scopes| - 1])
  }

  /** `declare`: at global level nothing; otherwise a redeclaration is reported and the name marked not yet defined. */
  function Declare(rs: RState, t: Token): RState
  {
    if rs.scopes == [] then rs
    else
      var reported := if t.lexeme in Innermost(rs) then Report(rs, t, AlreadyDeclared) else rs;
      WithInnermost(reported, Innermost(rs)[t.lexeme := false])
  }

  /** `define`: at global level nothing; otherwise the name is marked defined. */
  function Define(rs: RState, t: Token): RState
  {
    if rs.scopes == [] then rs else WithInnermost(rs, Innermost(rs)[t.lexeme := true])
  }

  /**
   * How many scopes out from the innermost the name is found, searching innermost first;
   * None when no scope holds it (a global).
   */
  function Distance(scopes: seq<Scope>, name: string): (d: Option<nat>)
    ensures d.Some? ==> d.value < |scopes| && name in scopes[|scopes| - 1 - d.value]
    ensures d.Some? ==> forall j :: |scopes| - 1 - d.value < j < |scopes| ==> name !in scopes[j]
    ensures d.None? <==> forall j :: 0 <= j < |scopes| ==> name !in scopes[j]
    decreases |scopes|
  {
    if scopes == [] then None
    else if name in scopes[|scopes| - 1] then Some(0)
    else match Distance(scopes[..|scopes| - 1], name)
      case None => None
      case Some(d) => Some(d + 1)
  }

  /** `resolveLocal`: record the distance of the reference `id`, or nothing for a global. */
  function ResolveLocal(rs: RState, id: NodeId, name: Token): RState
  {
    match Distance(rs.scopes, name.lexeme)
    case None => rs
    case Some(d) => rs.(locals := rs.locals[id := d])
  }

  /** Resolving an expression: every sub-expression, left to right. */
  function ResolveExpr(rs: RState, e: Expr): RState
    decreases Size(e), 0
  {
    match e
    case Assign(id, name, value) => ResolveLocal(ResolveExpr(rs, value), id, name)
    case Binary(left, _, right) => ResolveExpr(ResolveExpr(rs, left), right)
    case Call(callee, _, args) => ResolveArgs(ResolveExpr(rs, callee), args)
    case Grouping(inner) => ResolveExpr(rs, inner)
    case Literal(_) => rs
    case Logical(left, _, right) => ResolveExpr(ResolveExpr(rs, left), right)
    case Unary(_, right) => ResolveExpr(rs, right)
    case Ternary(c, t, f) => ResolveExpr(ResolveExpr(ResolveExpr(rs, c), t), f)
    case Variable(id, name) =>
      var checked :=
        if |rs.scopes| > 0 && name.lexeme in Innermost(rs) && !Innermost(rs)[name.lexeme]
        then Report(rs, name, OwnInitializer)
        else rs;
      ResolveLocal(checked, id, name)
  }

  function ResolveArgs(rs: RState, args: seq<Expr>): RState
    decreases SizeAll(args), 1
  {
    if args == [] then rs else ResolveArgs(ResolveExpr(rs, args[0]), args[1..])
  }

  /** Resolving a statement, as its `visit…Stmt` does. */
  function ResolveStmt(rs: RState, s: Stmt): RState
    decreases StmtSize(s), 0
  {
    match s
    case Block(statements) => EndScope(ResolveStmts(BeginScope(rs), statements))
    case Break => rs
    case Case(clause) => ResolveClause(rs, clause)
    case Continue => rs
    case Exit => rs
    case Expression(e) => ResolveExpr(rs, e)
    case Function(name, parameters, body) =>
      ResolveFunction(Define(Declare(rs, name), name), parameters, body, FUNCTION)
    case If(c, thenBranch, elseBranch) =>
      var afterThen := ResolveStmt(ResolveExpr(rs, c), thenBranch);
      if elseBranch.Some? then ResolveStmt(afterThen, elseBranch.value) else afterThen
    case Print(e) => ResolveExpr(rs, e)
    case Return(keyword, value) =>
      var checked := if rs.currentFunction == NONE then Report(rs, keyword, TopLevelReturn) else rs;
      if value.Some? then ResolveExpr(checked, value.value) else checked
    case Switch(subject, cases, _) => ResolveClauses(ResolveExpr(rs, subject), cases)
    case Var(name, initializer) =>
      var declared := Declare(rs, name);
      var initialized := if initializer.Some? then ResolveExpr(declared, initializer.value) else declared;
      Define(initialized, name)
    case While(c, body, _) => ResolveStmt(ResolveExpr(rs, c), body)
  }

  /** `visitCaseStmt`: the condition, then the statement. */
  function ResolveClause(rs: RState, c: CaseClause): RState
    decreases ClauseSize(c), 1
  {
    ResolveStmt(ResolveExpr(rs, c.condition), c.statement)
  }

  function ResolveStmts(rs: RState, ss: seq<Stmt>): RState
    decreases StmtsSize(ss), 1
  {
    if ss == [] then rs else ResolveStmts(ResolveStmt(rs, ss[0]), ss[1..])
  }

  function ResolveClauses(rs: RState, cs: seq<CaseClause>): RState
    decreases ClausesSize(cs), 2
  {
    if cs == [] then rs else ResolveClauses(ResolveClause(rs, cs[0]), cs[1..])
  }

  /** Each parameter declared, then defined, in the innermost scope. */
  function ResolveParams(rs: RState, parameters: seq<Token>): RState
    decreases |parameters|
  {
    if parameters == [] then rs
    else ResolveParams(Define(Declare(rs, parameters[0]), parameters[0]), parameters[1..])
  }

  /** `resolveFunction`: a scope of the parameters around the body, under the function's kind. */
  function ResolveFunction(rs: RState, parameters: seq<Token>, body: seq<Stmt>, kind: FunctionType): RState
    decreases StmtsSize(body), 2
  {
    var entered := ResolveParams(BeginScope(rs.(currentFunction := kind)), parameters);
    var left := EndScope(ResolveStmts(entered, body));
    left.(currentFunction := rs.currentFunction)
  }

  // ---------------------------------------------------------------------------
  // Properties.

  /**
   * What resolving a statement may change: the innermost scope's contents, nothing else
   * of the scope stack; diagnostics are only appended; recorded references are never dropped;
   * the enclosing function kind comes back as it was.
   */
  ghost predicate Nested(before: RState, after: RState)
  {
    && |after.scopes| == |before.scopes|
    && (|before.scopes| > 0 ==> after.scopes[..|before.scopes| - 1] == before.scopes[..|before.scopes| - 1])
    && after.currentFunction == before.currentFunction
    && before.errors <= after.errors
    && before.locals.Keys <= after.locals.Keys
  }

  lemma NestedTransitive(a: RState, b: RState, c: RState)
    requires Nested(a, b) && Nested(b, c)
    ensures Nested(a, c)
  {
    if |a.scopes| > 0 {
      var n := |a.scopes| - 1;
      assert c.scopes[..n] == c.scopes[..|b.scopes| - 1][..n];
    }
  }

  /** `resolveLocal` records the distance to the innermost scope holding the name, and nothing for a global. */
  lemma ResolveLocalRecords(rs: RState, id: NodeId, name: Token, i: nat)
    requires i < |rs.scopes| && name.lexeme in rs.scopes[i]
    requires forall j :: i < j < |rs.scopes| ==> name.lexeme !in rs.scopes[j]
    ensures ResolveLocal(rs, id, name) == rs.(locals := rs.locals[id := |rs.scopes| - 1 - i])
  {
    var d := Distance(rs.scopes, name.lexeme);
    assert d.Some?;
    assert |rs.scopes| - 1 - d.value == i;
  }

  lemma ResolveLocalGlobal(rs: RState, id: NodeId, name: Token)
    requires forall j :: 0 <= j < |rs.scopes| ==> name.lexeme !in rs.scopes[j]
    ensures ResolveLocal(rs, id, name) == rs
  {
  }

  /** Resolving an expression touches only the diagnostics and the side table. */
  lemma {:induction false} ExprNested(rs: RState, e: Expr)
    ensures ResolveExpr(rs, e).scopes == rs.scopes
    ensures Nested(rs, ResolveExpr(rs, e))
    decreases Size(e), 0
  {
    match e
    case Assign(id, name, value) =>
      ExprNested(rs, value);
    case Binary(left, _, right) =>
      ExprNested(rs, left);
      ExprNested(ResolveExpr(rs, left), right);
    case Call(callee, _, args) =>
      ExprNested(rs, callee);
      ArgsNested(ResolveExpr(rs, callee), args);
    case Grouping(inner) =>
      ExprNested(rs, inner);
    case Literal(_) =>
    case Logical(left, _, right) =>
      ExprNested(rs, left);
      ExprNested(ResolveExpr(rs, left), right);
    case Unary(_, right) =>
      ExprNested(rs, right);
    case Ternary(c, t, f) =>
      ExprNested(rs, c);
      var afterC := ResolveExpr(rs, c);
      ExprNested(afterC, t);
      ExprNested(ResolveExpr(afterC, t), f);
    case Variable(id, name) =>
  }

  lemma {:induction false} ArgsNested(rs: RState, args: seq<Expr>)
    ensures ResolveArgs(rs, args).scopes == rs.scopes
    ensures Nested(rs, ResolveArgs(rs, args))
    decreases SizeAll(args), 1
  {
    if args != [] {
      ExprNested(rs, args[0]);
      ArgsNested(ResolveExpr(rs, args[0]), args[1..]);
    }
  }

  /** Declaring or defining a name changes the innermost scope only. */
  lemma DeclareDefineNested(rs: RState, t: Token)
    ensures Nested(rs, Declare(rs, t)) && Nested(rs, Define(rs, t))
    ensures Nested(rs, Define(Declare(rs, t), t))
  {
  }

  lemma {:induction false} ParamsNested(rs: RState, parameters: seq<Token>)
    ensures Nested(rs, ResolveParams(rs, parameters))
    decreases |parameters|
  {
    if parameters != [] {
      var next := Define(Declare(rs, parameters[0]), parameters[0]);
      DeclareDefineNested(rs, parameters[0]);
      ParamsNested(next, parameters[1..]);
      NestedTransitive(rs, next, ResolveParams(next, parameters[1..]));
    }
  }

  /** Entering a scope, keeping `Nested` inside it, and leaving it restores the scope stack exactly. */
  lemma ScopeRestored(rs: RState, inside: RState)
    requires Nested(BeginScope(rs), inside)
    ensures EndScope(inside).scopes == rs.scopes
    ensures Nested(rs, EndScope(inside))
  {
    assert inside.scopes[..|rs.scopes|] == BeginScope(rs).scopes[..|rs.scopes|];
  }

  /** Every statement leaves the scope stack, bar the innermost scope's names, as it found it. */
  lemma {:induction false} StmtNested(rs: RState, s: Stmt)
    ensures Nested(rs, ResolveStmt(rs, s))
    decreases StmtSize(s), 0
  {
    match s
    case Block(statements) =>
      StmtsNested(BeginScope(rs), statements);
      ScopeRestored(rs, ResolveStmts(BeginScope(rs), statements));
    case Break =>
    case Case(clause) =>
      ClauseNested(rs, clause);
    case Continue =>
    case Exit =>
    case Expression(e) =>
      ExprNested(rs, e);
    case Function(name, parameters, body) =>
      var declared := Define(Declare(rs, name), name);
      FunctionNested(declared, parameters, body, FUNCTION);
      FunctionStmtNested(rs, name, parameters, body);
    case If(c, thenBranch, elseBranch) =>
      var afterC := ResolveExpr(rs, c);
      StmtNested(afterC, thenBranch);
      var afterThen := ResolveStmt(afterC, thenBranch);
      if elseBranch.Some? {
        StmtNested(afterThen, elseBranch.value);
      }
      IfNested(rs, c, thenBranch, elseBranch);
    case Print(e) =>
      ExprNested(rs, e);
    case Return(keyword, value) =>
      ReturnNested(rs, keyword, value);
    case Switch(subject, cases, _) =>
      ExprNested(rs, subject);
      ClausesNested(ResolveExpr(rs, subject), cases);
      NestedTransitive(rs, ResolveExpr(rs, subject), ResolveStmt(rs, s));
    case Var(name, initializer) =>
      VarNested(rs, name, initializer);
    case While(c, body, _) =>
      ExprNested(rs, c);
      StmtNested(ResolveExpr(rs, c), body);
      NestedTransitive(rs, ResolveExpr(rs, c), ResolveStmt(rs, s));
  }

  /** A function declaration, given that resolving the function itself nests. */
  lemma FunctionStmtNested(rs: RState, name: Token, parameters: seq<Token>, body: seq<Stmt>)
    requires var declared := Define(Declare(rs, name), name);
      Nested(declared, ResolveFunction(declared, parameters, body, FUNCTION))
    ensures Nested(rs, ResolveStmt(rs, Function(name, parameters, body)))
  {
    var declared := Define(Declare(rs, name), name);
    DeclareDefineNested(rs, name);
    NestedTransitive(rs, declared, ResolveFunction(declared, parameters, body, FUNCTION));
  }

  /** An `if`, given that its branches nest. */
  lemma IfNested(rs: RState, c: Expr, thenBranch: Stmt, elseBranch: Option<Stmt>)
    requires var afterC := ResolveExpr(rs, c);
      Nested(afterC, ResolveStmt(afterC, thenBranch))
    requires var afterThen := ResolveStmt(ResolveExpr(rs, c), thenBranch);
      elseBranch.Some? ==> Nested(afterThen, ResolveStmt(afterThen, elseBranch.value))
    ensures Nested(rs, ResolveStmt(rs, If(c, thenBranch, elseBranch)))
  {
    ExprNested(rs, c);
    var afterC := ResolveExpr(rs, c);
    var afterThen := ResolveStmt(afterC, thenBranch);
    NestedTransitive(rs, afterC, afterThen);
    if elseBranch.Some? {
      NestedTransitive(rs, afterThen, ResolveStmt(afterThen, elseBranch.value));
    }
  }

  lemma ReturnNested(rs: RState, keyword: Token, value: Option<Expr>)
    ensures Nested(rs, ResolveStmt(rs, Return(keyword, value)))
  {
    var checked := if rs.currentFunction == NONE then Report(rs, keyword, TopLevelReturn) else rs;
    if value.Some? {
      ExprNested(checked, value.value);
      NestedTransitive(rs, checked, ResolveExpr(checked, value.value));
    }
  }

  lemma VarNested(rs: RState, name: Token, initializer: Option<Expr>)
    ensures Nested(rs, ResolveStmt(rs, Var(name, initializer)))
  {
    var declared := Declare(rs, name);
    DeclareDefineNested(rs, name);
    if initializer.Some? {
      ExprNested(declared, initializer.value);
      var initialized := ResolveExpr(declared, initializer.value);
      DeclareDefineNested(initialized, name);
      NestedTransitive(rs, declared, initialized);
      NestedTransitive(rs, initialized, Define(initialized, name));
    }
  }

  lemma {:induction false} ClauseNested(rs: RState, c: CaseClause)
    ensures Nested(rs, ResolveClause(rs, c))
    decreases ClauseSize(c), 1
  {
    ExprNested(rs, c.condition);
    StmtNested(ResolveExpr(rs, c.condition), c.statement);
    NestedTransitive(rs, ResolveExpr(rs, c.condition), ResolveClause(rs, c));
  }

  lemma {:induction false} StmtsNested(rs: RState, ss: seq<Stmt>)
    ensures Nested(rs, ResolveStmts(rs, ss))
    decreases StmtsSize(ss), 1
  {
    if ss != [] {
      StmtNested(rs, ss[0]);
      StmtsNested(ResolveStmt(rs, ss[0]), ss[1..]);
      NestedTransitive(rs, ResolveStmt(rs, ss[0]), ResolveStmts(rs, ss));
    }
  }

  lemma {:induction false} ClausesNested(rs: RState, cs: seq<CaseClause>)
    ensures Nested(rs, ResolveClauses(rs, cs))
    decreases ClausesSize(cs), 2
  {
    if cs != [] {
      ClauseNested(rs, cs[0]);
      ClausesNested(ResolveClause(rs, cs[0]), cs[1..]);
      NestedTransitive(rs, ResolveClause(rs, cs[0]), ResolveClauses(rs, cs));
    }
  }

  /** A function's parameters and body are resolved in a scope of their own, under its kind; the caller's kind comes back. */
  lemma {:induction false} FunctionNested(rs: RState, parameters: seq<Token>, body: seq<Stmt>, kind: FunctionType)
    ensures Nested(rs, ResolveFunction(rs, parameters, body, kind))
    decreases StmtsSize(body), 2
  {
    var begun := BeginScope(rs.(currentFunction := kind));
    var entered := ResolveParams(begun, parameters);
    ParamsNested(begun, parameters);
    StmtsNested(entered, body);
    NestedTransitive(begun, entered, ResolveStmts(entered, body));
    ScopeRestored(rs.(currentFunction := kind), ResolveStmts(entered, body));
  }

  /** A whole program resolved at top level ends with no scope open and outside any function. */
  lemma ProgramNested(errors: seq<Diagnostic>, locals: map<NodeId, nat>, program: seq<Stmt>)
    ensures var r := ResolveStmts(RState([], NONE, errors, locals), program);
      r.scopes == [] && r.currentFunction == NONE && errors <= r.errors
  {
    StmtsNested(RState([], NONE, errors, locals), program);
  }

  /** The default statement of a switch is never resolved. */
  lemma DefaultIgnored(rs: RState, subject: Expr, cases: seq<CaseClause>, d1: Stmt, d2: Stmt)
    ensures ResolveStmt(rs, Switch(subject, cases, d1)) == ResolveStmt(rs, Switch(subject, cases, d2))
  {
  }

  /** Declaring a name again in the same (non-global) scope is reported at its token, and only then. */
  lemma RedeclarationReported(rs: RState, t: Token)
    requires |rs.scopes| > 0
    ensures Declare(rs, t) == RState(
      rs.scopes[|rs.scopes| - 1 := Innermost(rs)[t.lexeme := false]],
      rs.currentFunction,
      rs.errors + (if t.lexeme in Innermost(rs) then [ErrorAt(t, AlreadyDeclared)] else []),
      rs.locals)
  {
    if t.lexeme !in Innermost(rs) {
      assert rs.errors + [] == rs.errors;
    }
  }

  /** At global level declarations and definitions are not tracked. */
  lemma GlobalsUntracked(rs: RState, name: Token, initializer: Expr)
    requires rs.scopes == []
    ensures ResolveStmt(rs, Var(name, None)) == rs
    ensures ResolveStmt(rs, Var(name, Some(initializer))) == ResolveExpr(rs, initializer)
  {
    ExprNested(rs, initializer);
  }

  /** A reference to a name declared but not yet defined in the innermost scope is reported and recorded at distance 0. */
  lemma UndefinedLocalReported(rs: RState, id: NodeId, reference: Token)
    requires |rs.scopes| > 0 && reference.lexeme in Innermost(rs) && !Innermost(rs)[reference.lexeme]
    ensures ResolveExpr(rs, Variable(id, reference))
      == Report(rs, reference, OwnInitializer).(locals := rs.locals[id := 0])
  {
    assert Distance(rs.scopes, reference.lexeme) == Some(0);
  }

  /** In a local scope, a variable whose initializer reads the variable itself is reported, at the reference. */
  lemma OwnInitializerReported(rs: RState, name: Token, id: NodeId, reference: Token)
    requires |rs.scopes| > 0 && reference.lexeme == name.lexeme
    ensures ResolveStmt(rs, Var(name, Some(Variable(id, reference)))) == RState(
      rs.scopes[|rs.scopes| - 1 := Innermost(rs)[name.lexeme := true]],
      rs.currentFunction,
      rs.errors
        + (if name.lexeme in Innermost(rs) then [ErrorAt(name, AlreadyDeclared)] else [])
        + [ErrorAt(reference, OwnInitializer)],
      rs.locals[id := 0])
  {
    var declared := Declare(rs, name);
    RedeclarationReported(rs, name);
    UndefinedLocalReported(declared, id, reference);
    VarWithInitializer(rs, name, Variable(id, reference));
    Redefined(Innermost(rs), name.lexeme);
  }

  /** Marking a name undefined and then defined leaves it defined, whatever it was before. */
  lemma Redefined(scope: Scope, k: string)
    ensures scope[k := false][k := true] == scope[k := true]
  {
    assert scope[k := false][k := true].Keys == scope[k := true].Keys;
  }

  /** `visitVarStmt` with an initializer: declare, resolve the initializer, define. */
  lemma VarWithInitializer(rs: RState, name: Token, initializer: Expr)
    ensures ResolveStmt(rs, Var(name, Some(initializer))) == Define(ResolveExpr(Declare(rs, name), initializer), name)
  {
  }

  /** A return outside any function is reported at the `return` keyword; inside one it is not. */
  lemma ReturnChecked(rs: RState, keyword: Token)
    ensures rs.currentFunction == NONE ==>
      ResolveStmt(rs, Return(keyword, None)).errors == rs.errors + [ErrorAt(keyword, TopLevelReturn)]
    ensures rs.currentFunction == FUNCTION ==> ResolveStmt(rs, Return(keyword, None)) == rs
  {
  }

  /** A top-level function whose body is a bare return reports nothing. */
  lemma ReturnInFunctionAccepted(rs: RState, name: Token, keyword: Token)
    requires rs.scopes == [] && rs.currentFunction == NONE
    ensures ResolveStmt(rs, Function(name, [], [Return(keyword, None)])) == rs
  {
    var begun := BeginScope(rs.(currentFunction := FUNCTION));
    assert ResolveParams(begun, []) == begun;
    assert ResolveStmts(begun, [Return(keyword, None)]) == begun by {
      assert ResolveStmt(begun, Return(keyword, None)) == begun;
    }
  }

  /** The parameters, and only they, are added to the innermost scope, each defined. */
  lemma {:induction false} ParamsScope(rs: RState, parameters: seq<Token>)
    requires |rs.scopes| > 0
    ensures var r := ResolveParams(rs, parameters);
      && |r.scopes| == |rs.scopes|
      && (forall k :: k in Innermost(r) <==> k in Innermost(rs) || exists p :: p in parameters && p.lexeme == k)
      && (forall p :: p in parameters ==> Innermost(r)[p.lexeme])
      && (forall k :: k in Innermost(rs) && (forall p :: p in parameters ==> p.lexeme != k) ==>
            Innermost(r)[k] == Innermost(rs)[k])
    decreases |parameters|
  {
    if parameters != [] {
      var next := Define(Declare(rs, parameters[0]), parameters[0]);
      ParamsScope(next, parameters[1..]);
      var r := ResolveParams(rs, parameters);
      forall k
        ensures k in Innermost(r) <==> k in Innermost(rs) || exists p :: p in parameters && p.lexeme == k
      {
        if exists p :: p in parameters[1..] && p.lexeme == k {
          var p :| p in parameters[1..] && p.lexeme == k;
          assert p in parameters;
        }
        if exists p :: p in parameters && p.lexeme == k {
          var p :| p in parameters && p.lexeme == k;
          if p != parameters[0] {
            assert p in parameters[1..];
          }
        }
      }
      forall p | p in parameters
        ensures Innermost(r)[p.lexeme]
      {
        if p != parameters[0] {
          assert p in parameters[1..];
        } else if exists q :: q in parameters[1..] && q.lexeme == p.lexeme {
          var q :| q in parameters[1..] && q.lexeme == p.lexeme;
        } else {
          assert Innermost(next)[p.lexeme];
        }
      }
      forall k | k in Innermost(rs) && (forall p :: p in parameters ==> p.lexeme != k)
        ensures Innermost(r)[k] == Innermost(rs)[k]
      {
        assert parameters[0] in parameters;
        forall p | p in parameters[1..] ensures p.lexeme != k {
          assert p in parameters;
        }
      }
    }
  }

  /** A reference to a parameter from the function's body is recorded at distance 0. */
  lemma ParameterResolvesLocally(rs: RState, name: Token, p: Token, id: NodeId, reference: Token)
    requires reference.lexeme == p.lexeme
    ensures var r := ResolveStmt(rs, Function(name, [p], [Expression(Variable(id, reference))]));
      r.locals == Declare(rs, name).locals[id := 0]
  {
    var declared := Define(Declare(rs, name), name);
    var begun := BeginScope(declared.(currentFunction := FUNCTION));
    var entered := ResolveParams(begun, [p]);
    ParamsScope(begun, [p]);
    assert entered.locals == Declare(rs, name).locals;
    var statement := Expression(Variable(id, reference));
    DefinedLocalResolves(entered, id, reference);
    assert ResolveStmts(entered, [statement]) == ResolveStmt(entered, statement) by {
      assert [statement][1..] == [];
    }
    FunctionDeclaresName(rs, name, [p], [statement]);
  }

  /** A reference, as a statement, to a name defined in the innermost scope is recorded at distance 0 and reports nothing. */
  lemma DefinedLocalResolves(rs: RState, id: NodeId, reference: Token)
    requires |rs.scopes| > 0 && reference.lexeme in Innermost(rs) && Innermost(rs)[reference.lexeme]
    ensures ResolveStmt(rs, Expression(Variable(id, reference))) == rs.(locals := rs.locals[id := 0])
  {
    assert Distance(rs.scopes, reference.lexeme) == Some(0);
  }

  /** Inside a block, a function's body sees the function's own name one scope out. */
  lemma RecursiveReferenceResolves(rs: RState, name: Token, id: NodeId, reference: Token)
    requires |rs.scopes| > 0 && reference.lexeme == name.lexeme
    ensures var r := ResolveStmt(rs, Function(name, [], [Expression(Variable(id, reference))]));
      r.locals == rs.locals[id := 1]
  {
    var declared := Define(Declare(rs, name), name);
    assert name.lexeme in Innermost(declared) && |declared.scopes| == |rs.scopes| && declared.locals == rs.locals;
    var entered := BeginScope(declared.(currentFunction := FUNCTION));
    var statement := Expression(Variable(id, reference));
    OuterReferenceResolves(entered, id, reference);
    SingleStatementBody(declared, statement, FUNCTION);
    FunctionDeclaresName(rs, name, [], [statement]);
  }

  /** A reference, as a statement, from a fresh scope to a name of the scope just outside it is recorded at distance 1. */
  lemma OuterReferenceResolves(rs: RState, id: NodeId, reference: Token)
    requires |rs.scopes| > 1 && Innermost(rs) == map[] && reference.lexeme in rs.scopes[|rs.scopes| - 2]
    ensures ResolveStmt(rs, Expression(Variable(id, reference))) == rs.(locals := rs.locals[id := 1])
  {
    assert Distance(rs.scopes, reference.lexeme) == Some(1) by {
      assert rs.scopes[..|rs.scopes| - 1][|rs.scopes| - 2] == rs.scopes[|rs.scopes| - 2];
    }
  }

  /** A function statement binds its name in the enclosing scope before resolving the function. */
  lemma FunctionDeclaresName(rs: RState, name: Token, parameters: seq<Token>, body: seq<Stmt>)
    ensures ResolveStmt(rs, Function(name, parameters, body))
      == ResolveFunction(Define(Declare(rs, name), name), parameters, body, FUNCTION)
  {
  }

  /** A parameterless function whose body is one statement: that statement, in a scope of its own. */
  lemma SingleStatementBody(rs: RState, s: Stmt, kind: FunctionType)
    ensures ResolveFunction(rs, [], [s], kind)
      == EndScope(ResolveStmt(BeginScope(rs.(currentFunction := kind)), s)).(currentFunction := rs.currentFunction)
  {
    var entered := BeginScope(rs.(currentFunction := kind));
    assert ResolveParams(entered, []) == entered;
    assert ResolveStmts(entered, [s]) == ResolveStmt(entered, s) by {
      assert [s][1..] == [];
    }
  }
}
