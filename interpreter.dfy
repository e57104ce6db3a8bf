/**
 * Statement execution of interpreter.ts. The exceptions the interpreter uses for control
 * flow (break, continue, return, RuntimeError) and `process.exit` become the outcome of
 * executing a statement. The functions specify; the class `Interpreter` runs statements
 * by updating its fields, and each of its methods is proved to agree with a function.
 */
module Interpreting {
  import opened Common
  import opened Tokens
  import opened Ast
  import opened Values
  import opened Environments
  import opened Evaluation

  /**
   * How a statement ends: normally, by one of the control-flow exceptions, by a thrown
   * error, by `process.exit`, or (a bound of this model) by running out of loop fuel.
   */
  datatype Outcome = Normal | Broke | Continued | Returned(value: Value) | Threw(failure: Failure) | Exited | OutOfFuel

  /** The interpreter's mutable state: the frames, the current frame `env`, printed lines, and a counter for function identities. */
  datatype State = State(frames: seq<Frame>, env: nat, output: seq<string>, serial: nat)

  /**
   * Expression evaluation as statements see it. The interpreter's own is `Evaluating`,
   * that is `Eval`; the properties below hold for any evaluator that may rebind names but
   * keeps the chain of frames.
   */
  type Evaluator = (Context, seq<Frame>, Expr) -> Evaluated<Value>

  ghost predicate KeepsChain(evaluate: Evaluator)
  {
    forall ctx, frames, e :: |frames| > 0 ==> SameShape(frames, evaluate(ctx, frames, e).frames)
  }

  const Evaluating: Evaluator :=
    (ctx: Context, frames: seq<Frame>, e: Expr) =>
      if |frames| > 0 then Eval(ctx, frames, e) else Evaluated(Err(NoFrame), frames)

  /**
   * What stays fixed while statements run: number formatting, the call oracle, the
   * resolver's side table and the evaluator.
   */
  datatype Config = Config(showNumber: NumberFormat, call: CallOracle, locals: map<NodeId, nat>, evaluate: Evaluator)

  datatype Executed = Executed(outcome: Outcome, state: State)

  datatype Valued = Valued(result: Result<Value>, state: State)

  ghost predicate ValidState(st: State)
  {
    Linked(st.frames) && st.env < |st.frames|
  }

  /**
   * What running a statement may do to the state: the current frame is the same
   * afterwards, frames are only added, printed lines only appended, and the function
   * counter never goes down.
   */
  ghost predicate Follows(st: State, after: State)
  {
    && ValidState(after)
    && after.env == st.env
    && |st.frames| <= |after.frames|
    && st.output <= after.output
    && st.serial <= after.serial
  }

  function Ctx(cfg: Config, st: State): Context
  {
    Context(cfg.showNumber, cfg.call, cfg.locals, st.env)
  }

  const StackOverflow := HostError("Maximum call stack size exceeded")

  /** `evaluate` in a state: only the bindings can change. */
  function EvalIn(cfg: Config, st: State, e: Expr): (r: Valued)
  {
    var ev := cfg.evaluate(Ctx(cfg, st), st.frames, e);
    Valued(ev.result, st.(frames := ev.frames))
  }

  /** The increment of a desugared `for` loop: `(stmt.body as Block).statements[1]`. */
  function Increment(body: Stmt): Result<Stmt>
  {
    if !body.Block? then Err(HostError("Cannot read properties of undefined (reading '1')"))
    else if |body.statements| < 2 then Err(HostError("Cannot read properties of undefined (reading 'accept')"))
    else Ok(body.statements[1])
  }

  /** `execute`: each statement variant runs its own visitor. */
  function Exec(cfg: Config, st: State, s: Stmt, fuel: nat): (r: Executed)
    decreases fuel, StmtSize(s), 1
  {
    match s
    case Block(ss) => ExecBlock(cfg, st, ss, fuel)
    case Break => Executed(Broke, st)
    case Case(_) => Executed(Threw(StackOverflow), st)
    case Continue => Executed(Continued, st)
    case Exit => Executed(Exited, st)
    case Expression(e) =>
      var v := EvalIn(cfg, st, e);
      Executed(if v.result.Ok? then Normal else Threw(v.result.failure), v.state)
    case Function(name, parameters, _) => ExecFunction(st, name, parameters)
    case If(c, t, e) => ExecIf(cfg, st, c, t, e, fuel)
    case Print(e) => ExecPrint(cfg, st, e)
    case Return(_, value) => ExecReturn(cfg, st, value)
    case Switch(c, cases, d) => ExecCases(cfg, st, c, cases, d, fuel)
    case Var(name, init) => ExecVar(cfg, st, name, init)
    case While(c, b, isFor) => ExecWhile(cfg, st, c, b, isFor, fuel)
  }

  /** `visitIfStmt`: the condition, then the branch it selects, if any. */
  function ExecIf(cfg: Config, st: State, c: Expr, t: Stmt, e: Option<Stmt>, fuel: nat): (r: Executed)
    decreases fuel, StmtSize(If(c, t, e)), 0
  {
    var v := EvalIn(cfg, st, c);
    if v.result.Err? then Executed(Threw(v.result.failure), v.state)
    else if IsTruthy(v.result.value) then Exec(cfg, v.state, t, fuel)
    else if e.Some? then Exec(cfg, v.state, e.value, fuel)
    else Executed(Normal, v.state)
  }

  /** `visitPrintStmt`: one more line of output, the value's `stringify` text. */
  function ExecPrint(cfg: Config, st: State, e: Expr): (r: Executed)
  {
    var v := EvalIn(cfg, st, e);
    if v.result.Err? then Executed(Threw(v.result.failure), v.state)
    else Executed(Normal, v.state.(output := v.state.output + [Stringify(v.result.value, cfg.showNumber)]))
  }

  /** `visitReturnStmt`: the value, or nil without one, leaves as a return. */
  function ExecReturn(cfg: Config, st: State, value: Option<Expr>): (r: Executed)
  {
    if value.None? then Executed(Returned(Nil), st)
    else
      var v := EvalIn(cfg, st, value.value);
      if v.result.Err? then Executed(Threw(v.result.failure), v.state)
      else Executed(Returned(v.result.value), v.state)
  }

  /** `visitVarStmt`: the initialiser's value, or nil without one, bound in the current frame. */
  function ExecVar(cfg: Config, st: State, name: Token, init: Option<Expr>): (r: Executed)
  {
    if init.None? then Executed(Normal, DefineIn(st, name.lexeme, Nil))
    else
      var v := EvalIn(cfg, st, init.value);
      if v.result.Err? then Executed(Threw(v.result.failure), v.state)
      else Executed(Normal, DefineIn(v.state, name.lexeme, v.result.value))
  }

  /** `this.env.define(name, value)`; a state without a current frame does not arise. */
  function DefineIn(st: State, name: string, value: Value): State
  {
    if st.env < |st.frames| then st.(frames := Bind(st.frames, st.env, name, value)) else st
  }

  /** `visitFunctionStmt`: a new function value, bound to its name in the current frame. */
  function ExecFunction(st: State, name: Token, parameters: seq<Token>): (r: Executed)
  {
    var f := Callable(st.serial, |parameters|, "<fn " + name.lexeme + ">");
    Executed(Normal, DefineIn(st, name.lexeme, Fn(f)).(serial := st.serial + 1))
  }

  /** `visitBlockStmt` and `executeBlock`: the statements run in a fresh frame, and the current frame is restored after. */
  function ExecBlock(cfg: Config, st: State, ss: seq<Stmt>, fuel: nat): (r: Executed)
    decreases fuel, StmtsSize(ss), 3
  {
    var inner := st.(frames := Push(st.frames, st.env), env := |st.frames|);
    var run := ExecStmts(cfg, inner, ss, fuel);
    Executed(run.outcome, run.state.(env := st.env))
  }

  /** Statements in order, up to the first that does not end normally. */
  function ExecStmts(cfg: Config, st: State, ss: seq<Stmt>, fuel: nat): (r: Executed)
    decreases fuel, StmtsSize(ss), 2
  {
    if ss == [] then Executed(Normal, st)
    else
      var first := Exec(cfg, st, ss[0], fuel);
      if first.outcome != Normal then first
      else ExecStmts(cfg, first.state, ss[1..], fuel)
  }

  /**
   * `visitSwitchStmt` from a given case on: each case's expression, then the subject again;
   * the first equal case runs and ends the switch; with no case left, the default runs.
   */
  function ExecCases(cfg: Config, st: State, subject: Expr, cases: seq<CaseClause>, default: Stmt, fuel: nat): (r: Executed)
    decreases fuel, ClausesSize(cases) + StmtSize(default), 2
  {
    if cases == [] then Exec(cfg, st, default, fuel)
    else
      assert ClausesSize(cases) == ClauseSize(cases[0]) + ClausesSize(cases[1..]);
      var caseValue := EvalIn(cfg, st, cases[0].condition);
      if caseValue.result.Err? then Executed(Threw(caseValue.result.failure), caseValue.state)
      else
        var subjectValue := EvalIn(cfg, caseValue.state, subject);
        if subjectValue.result.Err? then Executed(Threw(subjectValue.result.failure), subjectValue.state)
        else if IsEqual(caseValue.result.value, subjectValue.result.value) then
          Exec(cfg, subjectValue.state, cases[0].statement, fuel)
        else ExecCases(cfg, subjectValue.state, subject, cases[1..], default, fuel)
  }

  /**
   * `visitWhileStmt`. Each round costs one unit of fuel. A failing condition, `break`,
   * `return` and a thrown error all end the loop normally, since the catch swallows them;
   * `continue` runs the increment of a `for` loop and then the whole loop again.
   */
  function ExecWhile(cfg: Config, st: State, cond: Expr, body: Stmt, isFor: bool, fuel: nat): (r: Executed)
    decreases fuel, StmtSize(body), 4
  {
    if fuel == 0 then Executed(OutOfFuel, st)
    else
      var c := EvalIn(cfg, st, cond);
      if c.result.Err? || !IsTruthy(c.result.value) then Executed(Normal, c.state)
      else
        var b := Exec(cfg, c.state, body, fuel - 1);
        if b.outcome.Normal? then ExecWhile(cfg, b.state, cond, body, isFor, fuel - 1)
        else CaughtInLoop(cfg, b, cond, body, isFor, fuel)
  }

  /**
   * The catch clause of `visitWhileStmt`, for a body that did not end normally, with the
   * loop's fuel before the round.
   */
  function CaughtInLoop(cfg: Config, b: Executed, cond: Expr, body: Stmt, isFor: bool, fuel: nat): (r: Executed)
    requires fuel > 0
    decreases fuel, StmtSize(body), 3
  {
    match b.outcome
    case Continued =>
      if isFor then NextForRound(cfg, b.state, cond, body, fuel)
      else ExecWhile(cfg, b.state, cond, body, isFor, fuel - 1)
    case Exited => b
    case OutOfFuel => b
    case _ => Executed(Normal, b.state)
  }

  /** After `continue` in a `for` loop: the increment, then the loop again with one unit of fuel less. */
  function NextForRound(cfg: Config, st: State, cond: Expr, body: Stmt, fuel: nat): (r: Executed)
    requires fuel > 0
    decreases fuel, StmtSize(body), 2
  {
    match Increment(body)
    case Err(failure) => Executed(Threw(failure), st)
    case Ok(incr) =>
      var i := Exec(cfg, st, incr, fuel - 1);
      if i.outcome != Normal then i
      else ExecWhile(cfg, i.state, cond, body, true, fuel - 1)
  }

  /**
   * The catch of `interpret`: a `break`, `continue` or `return` that escapes the program is
   * an exception like any other and goes to the runtime-error reporter with its message.
   */
  function Reported(o: Outcome): Outcome
  {
    match o
    case Broke => Threw(HostError("break"))
    case Continued => Threw(HostError("continue"))
    case Returned(_) => Threw(HostError("return"))
    case _ => o
  }

  /** `interpret`: in the REPL a lone expression statement prints its value; otherwise the statements run in order. */
  function Run(cfg: Config, st: State, statements: seq<Stmt>, isRepl: bool, fuel: nat): (r: Executed)
  {
    if isRepl && |statements| == 1 && statements[0].Expression? then
      var v := EvalIn(cfg, st, statements[0].expression);
      if v.result.Err? then Executed(Threw(v.result.failure), v.state)
      else Executed(Normal, v.state.(output := v.state.output + [Stringify(v.result.value, cfg.showNumber)]))
    else
      var x := ExecStmts(cfg, st, statements, fuel);
      Executed(Reported(x.outcome), x.state)
  }

  /**
   * No loop signal leaves `interpret`: its outcome is never `Broke`, `Continued` or
   * `Returned`. Outside the REPL shortcut the statements' state is kept, a signal that
   * escapes them is reported with the exception's message, and every other outcome is
   * passed on.
   */
  lemma RunReportsSignals(cfg: Config, st: State, statements: seq<Stmt>, isRepl: bool, fuel: nat)
    ensures var r := Run(cfg, st, statements, isRepl, fuel);
      !r.outcome.Broke? && !r.outcome.Continued? && !r.outcome.Returned?
    ensures !(isRepl && |statements| == 1 && statements[0].Expression?) ==>
      var x := ExecStmts(cfg, st, statements, fuel);
      var r := Run(cfg, st, statements, isRepl, fuel);
      && r.state == x.state
      && (x.outcome.Broke? ==> r.outcome == Threw(HostError("break")))
      && (x.outcome.Continued? ==> r.outcome == Threw(HostError("continue")))
      && (x.outcome.Returned? ==> r.outcome == Threw(HostError("return")))
      && (!x.outcome.Broke? && !x.outcome.Continued? && !x.outcome.Returned? ==> r.outcome == x.outcome)
  {
  }

  // ---------------------------------------------------------------------------

  /** The native `clock` function the constructor binds in the globals. */
  const Clock := Callable(0, 0, "<native fn>")

  /** `Eval` rebinds names but never changes the chain of frames. */
  lemma EvaluatingKeepsChain()
    ensures KeepsChain(Evaluating)
  {
    forall ctx, frames, e | |frames| > 0
      ensures SameShape(frames, Evaluating(ctx, frames, e).frames)
    {
      assert Evaluating(ctx, frames, e) == Eval(ctx, frames, e);
    }
  }

  /**
   * The interpreter object. Its evaluator is fixed when it is made (the constructor
   * installs `Evaluating`); the methods are proved for any evaluator that keeps the chain.
   */
  class Interpreter {
    const showNumber: NumberFormat
    const call: CallOracle
    const evaluate: Evaluator
    var frames: seq<Frame>
    var env: nat
    var locals: map<NodeId, nat>
    var output: seq<string>
    var serial: nat

    ghost predicate Valid()
      reads this`frames, this`env, this`output, this`serial
    {
      ValidState(Snapshot()) && KeepsChain(evaluate)
    }

    function Snapshot(): State
      reads this`frames, this`env, this`output, this`serial
    {
      State(frames, env, output, serial)
    }

    function Cfg(): Config
      reads this`locals
    {
      Config(showNumber, call, locals, evaluate)
    }

    /** The globals are frame 0, the current frame, and hold only `clock`. */
    constructor(showNumber: NumberFormat, call: CallOracle)
      ensures Valid()
      ensures frames == [Frame(map["clock" := Fn(Clock)], None)] && env == 0
      ensures locals == map[] && output == [] && serial == 1
      ensures this.showNumber == showNumber && this.call == call && evaluate == Evaluating
    {
      this.showNumber := showNumber;
      this.call := call;
      evaluate := Evaluating;
      EvaluatingKeepsChain();
      frames := [Frame(map["clock" := Fn(Clock)], None)];
      env := 0;
      locals := map[];
      output := [];
      serial := 1;
    }

    /** `resolve(expr, depth)`: records the resolver's distance for a node. */
    method Resolve(id: NodeId, depth: nat)
      modifies this`locals
      ensures locals == old(locals)[id := depth]
    {
      locals := locals[id := depth];
    }

    /** `evaluate` */
    method Evaluate(e: Expr) returns (r: Result<Value>)
      requires Valid()
      modifies this`frames
      ensures Valued(r, Snapshot()) == EvalIn(Cfg(), old(Snapshot()), e)
      ensures Valid() && |old(frames)| <= |frames|
    {
      var ev := evaluate(Ctx(Cfg(), Snapshot()), frames, e);
      SameShapeLinked(frames, ev.frames);
      frames := ev.frames;
      r := ev.result;
    }

    /** `interpret` */
    method Interpret(statements: seq<Stmt>, isRepl: bool, fuel: nat) returns (o: Outcome)
      requires Valid()
      modifies this`frames, this`env, this`output, this`serial
      ensures Executed(o, Snapshot()) == Run(Cfg(), old(Snapshot()), statements, isRepl, fuel)
      ensures Valid() && |old(frames)| <= |frames|
    {
      if isRepl && |statements| == 1 && statements[0].Expression? {
        var v := Evaluate(statements[0].expression);
        if v.Err? {
          return Threw(v.failure);
        }
        output := output + [Stringify(v.value, showNumber)];
        return Normal;
      }
      o := ExecuteAll(statements, fuel);
      o := Reported(o);
    }

    /** The statement loop of `interpret` and `executeBlock`: it stops at the first statement that does not end normally. */
    method ExecuteAll(statements: seq<Stmt>, fuel: nat) returns (o: Outcome)
      requires Valid()
      modifies this`frames, this`env, this`output, this`serial
      ensures Executed(o, Snapshot()) == ExecStmts(Cfg(), old(Snapshot()), statements, fuel)
      ensures Valid() && |old(frames)| <= |frames|
      decreases fuel, StmtsSize(statements), 2
    {
      var rest := statements;
      while rest != []
        invariant Valid() && |old(frames)| <= |frames| && StmtsSize(rest) <= StmtsSize(statements)
        invariant ExecStmts(Cfg(), old(Snapshot()), statements, fuel) == ExecStmts(Cfg(), Snapshot(), rest, fuel)
        decreases |rest|
      {
        o := Execute(rest[0], fuel);
        if o != Normal {
          return;
        }
        rest := rest[1..];
      }
      o := Normal;
    }

    /** `execute`: dispatch to the statement's own visitor. */
    method Execute(s: Stmt, fuel: nat) returns (o: Outcome)
      requires Valid()
      modifies this`frames, this`env, this`output, this`serial
      ensures Executed(o, Snapshot()) == Exec(Cfg(), old(Snapshot()), s, fuel)
      ensures Valid() && |old(frames)| <= |frames|
      decreases fuel, StmtSize(s), 1
    {
      match s
      case Block(ss) => o := VisitBlock(ss, fuel);
      case Break => o := Broke;
      case Case(_) => o := Threw(StackOverflow);
      case Continue => o := Continued;
      case Exit => o := Exited;
      case Expression(e) =>
        var v := Evaluate(e);
        o := if v.Ok? then Normal else Threw(v.failure);
      case Function(name, parameters, _) => o := VisitFunction(name, parameters);
      case If(c, t, e) => o := VisitIf(c, t, e, fuel);
      case Print(e) => o := VisitPrint(e);
      case Return(_, value) => o := VisitReturn(value);
      case Switch(c, cases, d) => o := VisitSwitch(c, cases, d, fuel);
      case Var(name, init) => o := VisitVar(name, init);
      case While(c, b, isFor) => o := VisitWhile(c, b, isFor, fuel);
    }

    /** `visitBlockStmt`: a fresh frame enclosed by the current one, then `executeBlock`. */
    method VisitBlock(statements: seq<Stmt>, fuel: nat) returns (o: Outcome)
      requires Valid()
      modifies this`frames, this`env, this`output, this`serial
      ensures Executed(o, Snapshot()) == ExecBlock(Cfg(), old(Snapshot()), statements, fuel)
      ensures Valid() && |old(frames)| <= |frames|
      decreases fuel, StmtsSize(statements), 4
    {
      PushLinked(frames, env);
      frames := Push(frames, env);
      o := ExecuteBlock(statements, |frames| - 1, fuel);
    }

    /** `executeBlock`: the statements run with `env` set to the given frame; the previous frame is restored however they end. */
    method ExecuteBlock(statements: seq<Stmt>, frame: nat, fuel: nat) returns (o: Outcome)
      requires Valid() && frame < |frames|
      modifies this`frames, this`env, this`output, this`serial
      ensures var run := ExecStmts(Cfg(), old(Snapshot()).(env := frame), statements, fuel);
        Executed(o, Snapshot()) == Executed(run.outcome, run.state.(env := old(env)))
      ensures Valid() && |old(frames)| <= |frames|
      decreases fuel, StmtsSize(statements), 3
    {
      var previous := env;
      env := frame;
      o := ExecuteAll(statements, fuel);
      env := previous;
    }

    /** `visitFunctionStmt` */
    method VisitFunction(name: Token, parameters: seq<Token>) returns (o: Outcome)
      requires Valid()
      modifies this`frames, this`serial
      ensures Executed(o, Snapshot()) == ExecFunction(old(Snapshot()), name, parameters)
      ensures Valid() && |old(frames)| <= |frames|
    {
      var f := Callable(serial, |parameters|, "<fn " + name.lexeme + ">");
      Define(name.lexeme, Fn(f));
      serial := serial + 1;
      o := Normal;
    }

    /** `env.define(name, value)` on the current frame. */
    method Define(name: string, value: Value)
      requires Valid()
      modifies this`frames
      ensures Snapshot() == DefineIn(old(Snapshot()), name, value)
      ensures Valid() && |old(frames)| <= |frames|
    {
      SameShapeLinked(frames, Bind(frames, env, name, value));
      frames := Bind(frames, env, name, value);
    }

    /** `visitIfStmt` */
    method VisitIf(c: Expr, t: Stmt, e: Option<Stmt>, fuel: nat) returns (o: Outcome)
      requires Valid()
      modifies this`frames, this`env, this`output, this`serial
      ensures Executed(o, Snapshot()) == ExecIf(Cfg(), old(Snapshot()), c, t, e, fuel)
      ensures Valid() && |old(frames)| <= |frames|
      decreases fuel, StmtSize(If(c, t, e)), 0
    {
      var v := Evaluate(c);
      if v.Err? {
        o := Threw(v.failure);
      } else if IsTruthy(v.value) {
        o := Execute(t, fuel);
      } else if e.Some? {
        o := Execute(e.value, fuel);
      } else {
        o := Normal;
      }
    }

    /** `visitPrintStmt`: the value's text becomes one more line of output. */
    method VisitPrint(e: Expr) returns (o: Outcome)
      requires Valid()
      modifies this`frames, this`output
      ensures Executed(o, Snapshot()) == ExecPrint(Cfg(), old(Snapshot()), e)
      ensures Valid() && |old(frames)| <= |frames|
    {
      var v := Evaluate(e);
      if v.Err? {
        return Threw(v.failure);
      }
      output := output + [Stringify(v.value, showNumber)];
      o := Normal;
    }

    /** `visitReturnStmt`: the value, or nil, leaves as a return outcome. */
    method VisitReturn(value: Option<Expr>) returns (o: Outcome)
      requires Valid()
      modifies this`frames
      ensures Executed(o, Snapshot()) == ExecReturn(Cfg(), old(Snapshot()), value)
      ensures Valid() && |old(frames)| <= |frames|
    {
      if value.None? {
        return Returned(Nil);
      }
      var v := Evaluate(value.value);
      o := if v.Err? then Threw(v.failure) else Returned(v.value);
    }

    /** `visitVarStmt`: the initialiser's value, or nil, bound in the current frame. */
    method VisitVar(name: Token, init: Option<Expr>) returns (o: Outcome)
      requires Valid()
      modifies this`frames
      ensures Executed(o, Snapshot()) == ExecVar(Cfg(), old(Snapshot()), name, init)
      ensures Valid() && |old(frames)| <= |frames|
    {
      var value := Nil;
      if init.Some? {
        var v := Evaluate(init.value);
        if v.Err? {
          return Threw(v.failure);
        }
        value := v.value;
      }
      Define(name.lexeme, value);
      o := Normal;
    }

    /** `visitSwitchStmt` */
    method VisitSwitch(subject: Expr, cases: seq<CaseClause>, default: Stmt, fuel: nat) returns (o: Outcome)
      requires Valid()
      modifies this`frames, this`env, this`output, this`serial
      ensures Executed(o, Snapshot()) == ExecCases(Cfg(), old(Snapshot()), subject, cases, default, fuel)
      ensures Valid() && |old(frames)| <= |frames|
      decreases fuel, ClausesSize(cases) + StmtSize(default), 2
    {
      var rest := cases;
      while rest != []
        invariant Valid() && |old(frames)| <= |frames| && ClausesSize(rest) <= ClausesSize(cases)
        invariant ExecCases(Cfg(), old(Snapshot()), subject, cases, default, fuel)
          == ExecCases(Cfg(), Snapshot(), subject, rest, default, fuel)
        decreases |rest|
      {
        assert ClausesSize(rest) == ClauseSize(rest[0]) + ClausesSize(rest[1..]);
        var caseValue := Evaluate(rest[0].condition);
        if caseValue.Err? {
          return Threw(caseValue.failure);
        }
        var subjectValue := Evaluate(subject);
        if subjectValue.Err? {
          return Threw(subjectValue.failure);
        }
        if IsEqual(caseValue.value, subjectValue.value) {
          o := Execute(rest[0].statement, fuel);
          return;
        }
        rest := rest[1..];
      }
      o := Execute(default, fuel);
    }

    /** `visitWhileStmt` */
    method VisitWhile(cond: Expr, body: Stmt, isFor: bool, fuel: nat) returns (o: Outcome)
      requires Valid()
      modifies this`frames, this`env, this`output, this`serial
      ensures Executed(o, Snapshot()) == ExecWhile(Cfg(), old(Snapshot()), cond, body, isFor, fuel)
      ensures Valid() && |old(frames)| <= |frames|
      decreases fuel, StmtSize(body), 5
    {
      var f: nat := fuel;
      while true
        invariant Valid() && |old(frames)| <= |frames| && f <= fuel
        invariant ExecWhile(Cfg(), old(Snapshot()), cond, body, isFor, fuel)
          == ExecWhile(Cfg(), Snapshot(), cond, body, isFor, f)
        decreases f
      {
        var again;
        o, again := Round(cond, body, isFor, f);
        if !again {
          return;
        }
        f := f - 1;
      }
    }

    /**
     * One pass of the loop in `visitWhileStmt`: either the loop goes round again, with one
     * unit of fuel less, or it has ended with the outcome `o`.
     */
    method Round(cond: Expr, body: Stmt, isFor: bool, fuel: nat) returns (o: Outcome, again: bool)
      requires Valid()
      modifies this`frames, this`env, this`output, this`serial
      ensures Valid() && |old(frames)| <= |frames|
      ensures again ==> (fuel > 0 && o == Normal
        && ExecWhile(Cfg(), old(Snapshot()), cond, body, isFor, fuel)
           == ExecWhile(Cfg(), Snapshot(), cond, body, isFor, fuel - 1))
      ensures !again ==> Executed(o, Snapshot()) == ExecWhile(Cfg(), old(Snapshot()), cond, body, isFor, fuel)
      decreases fuel, StmtSize(body), 4
    {
      if fuel == 0 {
        return OutOfFuel, false;
      }
      var c := Evaluate(cond);
      if c.Err? || !IsTruthy(c.value) {
        return Normal, false;
      }
      o := Execute(body, fuel - 1);
      if o.Normal? {
        return Normal, true;
      }
      o := Caught(o, cond, body, isFor, fuel);
      again := false;
    }

    /** The catch clause of `visitWhileStmt`: `continue` runs the loop again. */
    method Caught(signal: Outcome, cond: Expr, body: Stmt, isFor: bool, fuel: nat) returns (o: Outcome)
      requires Valid() && fuel > 0
      modifies this`frames, this`env, this`output, this`serial
      ensures Executed(o, Snapshot()) == CaughtInLoop(Cfg(), Executed(signal, old(Snapshot())), cond, body, isFor, fuel)
      ensures Valid() && |old(frames)| <= |frames|
      decreases fuel, StmtSize(body), 3
    {
      match signal
      case Continued =>
        if isFor {
          o := NextRound(cond, body, fuel);
        } else {
          o := VisitWhile(cond, body, isFor, fuel - 1);
        }
      case Exited => o := Exited;
      case OutOfFuel => o := OutOfFuel;
      case _ => o := Normal;
    }

    /** `continue` in a `for` loop: the increment runs before the loop goes round again. */
    method NextRound(cond: Expr, body: Stmt, fuel: nat) returns (o: Outcome)
      requires Valid() && fuel > 0
      modifies this`frames, this`env, this`output, this`serial
      ensures Executed(o, Snapshot()) == NextForRound(Cfg(), old(Snapshot()), cond, body, fuel)
      ensures Valid() && |old(frames)| <= |frames|
      decreases fuel, StmtSize(body), 2
    {
      match Increment(body)
      case Err(failure) =>
        o := Threw(failure);
      case Ok(incr) =>
        o := Execute(incr, fuel - 1);
        if o == Normal {
          o := VisitWhile(cond, body, true, fuel - 1);
        }
    }
  }
}
