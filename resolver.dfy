/**
 * The resolver of resolver.ts as a class: a stack of scopes pushed and popped in place,
 * the kind of function being resolved saved and restored around a function body, and the
 * interpreter's side table written through `Interpreter.Resolve`. Every method is proved
 * to leave exactly the state the matching function of `Resolution` computes.
 */
module Resolving {
  import opened Common
  import opened Tokens
  import opened Ast
  import opened Diagnostics
  import opened Interpreting
  import R = Resolution

  class Resolver {
    const interpreter: Interpreter
    var scopes: seq<R.Scope>
    var currentFunction: R.FunctionType
    /** The diagnostics reported so far (the `parseError` sink). */
    var errors: seq<Diagnostic>

    function Snapshot(): R.RState
      reads this`scopes, this`currentFunction, this`errors, interpreter`locals
    {
      R.RState(scopes, currentFunction, errors, interpreter.locals)
    }

    /** A new resolver: no scope open, outside any function. */
    constructor(interpreter: Interpreter)
      ensures this.interpreter == interpreter
      ensures scopes == [] && currentFunction == R.NONE && errors == []
    {
      this.interpreter := interpreter;
      scopes := [];
      currentFunction := R.NONE;
      errors := [];
    }

    /** `beginScope` */
    method BeginScope()
      modifies this`scopes
      ensures Snapshot() == R.BeginScope(old(Snapshot()))
    {
      scopes := scopes + [map[]];
    }

    /** `endScope` */
    method EndScope()
      modifies this`scopes
      ensures Snapshot() == R.EndScope(old(Snapshot()))
    {
      if |scopes| > 0 {
        scopes := scopes[..|scopes| - 1];
      }
    }

    /** `declare` */
    method Declare(name: Token)
      modifies this`scopes, this`errors
      ensures Snapshot() == R.Declare(old(Snapshot()), name)
    {
      if |scopes| == 0 {
        return;
      }
      if name.lexeme in scopes[|scopes| - 1] {
        errors := errors + [ErrorAt(name, R.AlreadyDeclared)];
      }
      scopes := scopes[|scopes| - 1 := scopes[|scopes| - 1][name.lexeme := false]];
    }

    /** `define` */
    method Define(name: Token)
      modifies this`scopes
      ensures Snapshot() == R.Define(old(Snapshot()), name)
    {
      if |scopes| == 0 {
        return;
      }
      scopes := scopes[|scopes| - 1 := scopes[|scopes| - 1][name.lexeme := true]];
    }

    /** `resolveLocal`: search the scopes from the innermost out; record the first hit's distance. */
    method ResolveLocal(id: NodeId, name: Token)
      modifies interpreter`locals
      ensures Snapshot() == R.ResolveLocal(old(Snapshot()), id, name)
    {
      var i: int := |scopes| - 1;
      while i >= 0
        invariant -1 <= i < |scopes|
        invariant forall j :: i < j < |scopes| ==> name.lexeme !in scopes[j]
        invariant interpreter.locals == old(interpreter.locals)
        decreases i + 1
      {
        if name.lexeme in scopes[i] {
          interpreter.Resolve(id, |scopes| - 1 - i);
          R.ResolveLocalRecords(old(Snapshot()), id, name, i);
          return;
        }
        i := i - 1;
      }
      R.ResolveLocalGlobal(old(Snapshot()), id, name);
    }

    /** `resolve` on an expression: dispatch to the expression's visitor. */
    method ResolveExpression(e: Expr)
      modifies this`errors, interpreter`locals
      ensures Snapshot() == R.ResolveExpr(old(Snapshot()), e)
      decreases Size(e), 0
    {
      match e
      case Assign(id, name, value) =>
        ResolveExpression(value);
        ResolveLocal(id, name);
      case Binary(left, _, right) =>
        ResolveExpression(left);
        ResolveExpression(right);
      case Call(callee, paren, args) =>
        VisitCall(callee, paren, args);
      case Grouping(inner) =>
        ResolveExpression(inner);
      case Literal(_) =>
      case Logical(left, _, right) =>
        ResolveExpression(left);
        ResolveExpression(right);
      case Unary(_, right) =>
        ResolveExpression(right);
      case Ternary(c, t, f) =>
        ResolveExpression(c);
        ResolveExpression(t);
        ResolveExpression(f);
      case Variable(id, name) =>
        VisitVariable(id, name);
    }

    /** `visitCallExpr`: the callee, then each argument in order. */
    method VisitCall(callee: Expr, paren: Token, args: seq<Expr>)
      modifies this`errors, interpreter`locals
      ensures Snapshot() == R.ResolveExpr(old(Snapshot()), Call(callee, paren, args))
      decreases Size(callee) + SizeAll(args), 1
    {
      ResolveExpression(callee);
      var rest := args;
      while rest != []
        invariant SizeAll(rest) <= SizeAll(args)
        invariant R.ResolveArgs(R.ResolveExpr(old(Snapshot()), callee), args) == R.ResolveArgs(Snapshot(), rest)
        decreases |rest|
      {
        assert SizeAll(rest) == Size(rest[0]) + SizeAll(rest[1..]);
        ResolveExpression(rest[0]);
        rest := rest[1..];
      }
    }

    /** `visitVariableExpr`: a name declared but not yet defined in the innermost scope is reported. */
    method VisitVariable(id: NodeId, name: Token)
      modifies this`errors, interpreter`locals
      ensures Snapshot() == R.ResolveExpr(old(Snapshot()), Variable(id, name))
    {
      if |scopes| > 0 && name.lexeme in scopes[|scopes| - 1] && !scopes[|scopes| - 1][name.lexeme] {
        errors := errors + [ErrorAt(name, R.OwnInitializer)];
      }
      ResolveLocal(id, name);
    }

    /** `resolve` on a statement: dispatch to the statement's visitor. */
    method Resolve(s: Stmt)
      modifies this`scopes, this`currentFunction, this`errors, interpreter`locals
      ensures Snapshot() == R.ResolveStmt(old(Snapshot()), s)
      decreases StmtSize(s), 1
    {
      match s
      case Block(statements) =>
        VisitBlock(statements);
      case Break =>
      case Case(clause) =>
        VisitCase(clause);
      case Continue =>
      case Exit =>
      case Expression(e) =>
        ResolveExpression(e);
      case Function(name, parameters, body) =>
        VisitFunction(name, parameters, body);
      case If(c, thenBranch, elseBranch) =>
        VisitIf(c, thenBranch, elseBranch);
      case Print(e) =>
        ResolveExpression(e);
      case Return(keyword, value) =>
        VisitReturn(keyword, value);
      case Switch(subject, cases, default) =>
        VisitSwitch(subject, cases, default);
      case Var(name, initializer) =>
        VisitVar(name, initializer);
      case While(c, body, _) =>
        ResolveExpression(c);
        Resolve(body);
    }

    /** `resolve` on a statement list: each statement in order. */
    method ResolveStatements(statements: seq<Stmt>)
      modifies this`scopes, this`currentFunction, this`errors, interpreter`locals
      ensures Snapshot() == R.ResolveStmts(old(Snapshot()), statements)
      decreases StmtsSize(statements), 2
    {
      var rest := statements;
      while rest != []
        invariant StmtsSize(rest) <= StmtsSize(statements)
        invariant R.ResolveStmts(old(Snapshot()), statements) == R.ResolveStmts(Snapshot(), rest)
        decreases |rest|
      {
        assert StmtsSize(rest) == StmtSize(rest[0]) + StmtsSize(rest[1..]);
        Resolve(rest[0]);
        rest := rest[1..];
      }
    }

    /** `visitBlockStmt` */
    method VisitBlock(statements: seq<Stmt>)
      modifies this`scopes, this`currentFunction, this`errors, interpreter`locals
      ensures Snapshot() == R.ResolveStmt(old(Snapshot()), Block(statements))
      decreases StmtsSize(statements), 3
    {
      BeginScope();
      ResolveStatements(statements);
      EndScope();
    }

    /** `visitCaseStmt` */
    method VisitCase(clause: CaseClause)
      modifies this`scopes, this`currentFunction, this`errors, interpreter`locals
      ensures Snapshot() == R.ResolveClause(old(Snapshot()), clause)
      decreases ClauseSize(clause), 2
    {
      ResolveExpression(clause.condition);
      Resolve(clause.statement);
    }

    /** `visitSwitchStmt`: the subject and every case; the default statement is not visited. */
    method VisitSwitch(subject: Expr, cases: seq<CaseClause>, default: Stmt)
      modifies this`scopes, this`currentFunction, this`errors, interpreter`locals
      ensures Snapshot() == R.ResolveStmt(old(Snapshot()), Switch(subject, cases, default))
      decreases ClausesSize(cases), 3
    {
      ResolveExpression(subject);
      var rest := cases;
      while rest != []
        invariant ClausesSize(rest) <= ClausesSize(cases)
        invariant R.ResolveClauses(R.ResolveExpr(old(Snapshot()), subject), cases) == R.ResolveClauses(Snapshot(), rest)
        decreases |rest|
      {
        assert ClausesSize(rest) == ClauseSize(rest[0]) + ClausesSize(rest[1..]);
        VisitCase(rest[0]);
        rest := rest[1..];
      }
    }

    /** `visitVarStmt`: declare, resolve the initializer if any, define. */
    method VisitVar(name: Token, initializer: Option<Expr>)
      modifies this`scopes, this`errors, interpreter`locals
      ensures Snapshot() == R.ResolveStmt(old(Snapshot()), Var(name, initializer))
    {
      Declare(name);
      if initializer.Some? {
        ResolveExpression(initializer.value);
      }
      Define(name);
    }

    /** `visitFunctionStmt`: the name is declared and defined before the function is resolved. */
    method VisitFunction(name: Token, parameters: seq<Token>, body: seq<Stmt>)
      modifies this`scopes, this`currentFunction, this`errors, interpreter`locals
      ensures Snapshot() == R.ResolveStmt(old(Snapshot()), Function(name, parameters, body))
      decreases StmtsSize(body), 4
    {
      Declare(name);
      Define(name);
      ResolveFunction(parameters, body, R.FUNCTION);
    }

    /** `visitIfStmt` */
    method VisitIf(c: Expr, thenBranch: Stmt, elseBranch: Option<Stmt>)
      modifies this`scopes, this`currentFunction, this`errors, interpreter`locals
      ensures Snapshot() == R.ResolveStmt(old(Snapshot()), If(c, thenBranch, elseBranch))
      decreases StmtSize(If(c, thenBranch, elseBranch)), 0
    {
      ResolveExpression(c);
      Resolve(thenBranch);
      if elseBranch.Some? {
        Resolve(elseBranch.value);
      }
    }

    /** `visitReturnStmt`: a return outside any function is reported; the value is resolved either way. */
    method VisitReturn(keyword: Token, value: Option<Expr>)
      modifies this`errors, interpreter`locals
      ensures Snapshot() == R.ResolveStmt(old(Snapshot()), Return(keyword, value))
    {
      if currentFunction == R.NONE {
        errors := errors + [ErrorAt(keyword, R.TopLevelReturn)];
      }
      if value.Some? {
        ResolveExpression(value.value);
      }
    }

    /** `resolveFunction`: the kind is saved and set, a scope holds the parameters, the body is resolved, all undone. */
    method ResolveFunction(parameters: seq<Token>, body: seq<Stmt>, kind: R.FunctionType)
      modifies this`scopes, this`currentFunction, this`errors, interpreter`locals
      ensures Snapshot() == R.ResolveFunction(old(Snapshot()), parameters, body, kind)
      decreases StmtsSize(body), 3
    {
      var enclosingFunction := currentFunction;
      currentFunction := kind;
      BeginScope();
      var rest := parameters;
      while rest != []
        invariant R.ResolveParams(R.BeginScope(old(Snapshot()).(currentFunction := kind)), parameters)
          == R.ResolveParams(Snapshot(), rest)
        decreases |rest|
      {
        Declare(rest[0]);
        Define(rest[0]);
        rest := rest[1..];
      }
      ResolveStatements(body);
      EndScope();
      currentFunction := enclosingFunction;
    }
  }
}
