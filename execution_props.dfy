/**
 * Properties of statement execution (interpreter.ts), proved about the specification
 * functions of `Interpreting` for any evaluator that keeps the chain of frames.
 */
module ExecutionProperties {
  import opened Common
  import opened Tokens
  import opened Ast
  import opened Values
  import opened Environments
  import opened Evaluation
  import opened Interpreting

  // ---------------------------------------------------------------------------
  // What a statement may do to the state.

  /** `evaluate` only rebinds names: the chain, the output and the function counter stay. */
  lemma EvalInFollows(cfg: Config, st: State, e: Expr)
    requires ValidState(st) && KeepsChain(cfg.evaluate)
    ensures var v := EvalIn(cfg, st, e);
      && Follows(st, v.state) && SameShape(st.frames, v.state.frames)
      && v.state.output == st.output && v.state.serial == st.serial
  {
    var ev := cfg.evaluate(Ctx(cfg, st), st.frames, e);
    assert SameShape(st.frames, ev.frames);
    SameShapeLinked(st.frames, ev.frames);
  }

  /** `define` on the current frame rebinds one name there and changes nothing else. */
  lemma DefineInFollows(st: State, name: string, value: Value)
    requires ValidState(st)
    ensures var after := DefineIn(st, name, value);
      && Follows(st, after) && SameShape(st.frames, after.frames)
      && after.output == st.output && after.serial == st.serial
      && Lookup(after.frames[st.env].values, Token(IDENTIFIER, name, NilLit, 0)) == Ok(value)
      && forall i :: 0 <= i < |st.frames| && i != st.env ==> after.frames[i] == st.frames[i]
  {
    SameShapeLinked(st.frames, Bind(st.frames, st.env, name, value));
  }

  /**
   * Running any statement keeps the state valid, leaves the current frame current
   * (`executeBlock` restores it in its `finally`), only adds frames, only appends output
   * and never lowers the function counter.
   */
  lemma {:induction false} ExecFollows(cfg: Config, st: State, s: Stmt, fuel: nat)
    requires ValidState(st) && KeepsChain(cfg.evaluate)
    ensures Follows(st, Exec(cfg, st, s, fuel).state)
    decreases fuel, StmtSize(s), 1
  {
    match s
    case Block(ss) => BlockFollows(cfg, st, ss, fuel);
    case Break =>
    case Case(_) =>
    case Continue =>
    case Exit =>
    case Expression(e) => EvalInFollows(cfg, st, e);
    case Function(name, parameters, _) => DefineInFollows(st, name.lexeme, Fn(Callable(st.serial, |parameters|, "<fn " + name.lexeme + ">")));
    case If(c, t, e) => IfFollows(cfg, st, c, t, e, fuel);
    case Print(e) => EvalInFollows(cfg, st, e);
    case Return(_, value) =>
      if value.Some? {
        EvalInFollows(cfg, st, value.value);
      }
    case Switch(c, cases, d) => CasesFollows(cfg, st, c, cases, d, fuel);
    case Var(name, init) =>
      if init.None? {
        DefineInFollows(st, name.lexeme, Nil);
      } else {
        EvalInFollows(cfg, st, init.value);
        var v := EvalIn(cfg, st, init.value);
        if v.result.Ok? {
          DefineInFollows(v.state, name.lexeme, v.result.value);
        }
      }
    case While(c, b, isFor) => WhileFollows(cfg, st, c, b, isFor, fuel);
  }

  lemma {:induction false} IfFollows(cfg: Config, st: State, c: Expr, t: Stmt, e: Option<Stmt>, fuel: nat)
    requires ValidState(st) && KeepsChain(cfg.evaluate)
    ensures Follows(st, ExecIf(cfg, st, c, t, e, fuel).state)
    decreases fuel, StmtSize(If(c, t, e)), 0
  {
    EvalInFollows(cfg, st, c);
    var v := EvalIn(cfg, st, c);
    if v.result.Ok? {
      if IsTruthy(v.result.value) {
        ExecFollows(cfg, v.state, t, fuel);
      } else if e.Some? {
        ExecFollows(cfg, v.state, e.value, fuel);
      }
    }
  }

  lemma {:induction false} BlockFollows(cfg: Config, st: State, ss: seq<Stmt>, fuel: nat)
    requires ValidState(st) && KeepsChain(cfg.evaluate)
    ensures Follows(st, ExecBlock(cfg, st, ss, fuel).state)
    decreases fuel, StmtsSize(ss), 3
  {
    PushLinked(st.frames, st.env);
    var inner := st.(frames := Push(st.frames, st.env), env := |st.frames|);
    StmtsFollows(cfg, inner, ss, fuel);
  }

  lemma {:induction false} StmtsFollows(cfg: Config, st: State, ss: seq<Stmt>, fuel: nat)
    requires ValidState(st) && KeepsChain(cfg.evaluate)
    ensures Follows(st, ExecStmts(cfg, st, ss, fuel).state)
    decreases fuel, StmtsSize(ss), 2
  {
    if ss != [] {
      ExecFollows(cfg, st, ss[0], fuel);
      var first := Exec(cfg, st, ss[0], fuel);
      if first.outcome == Normal {
        StmtsFollows(cfg, first.state, ss[1..], fuel);
      }
    }
  }

  lemma {:induction false} CasesFollows(cfg: Config, st: State, subject: Expr, cases: seq<CaseClause>, default: Stmt, fuel: nat)
    requires ValidState(st) && KeepsChain(cfg.evaluate)
    ensures Follows(st, ExecCases(cfg, st, subject, cases, default, fuel).state)
    decreases fuel, ClausesSize(cases) + StmtSize(default), 2
  {
    if cases == [] {
      ExecFollows(cfg, st, default, fuel);
    } else {
      assert ClausesSize(cases) == ClauseSize(cases[0]) + ClausesSize(cases[1..]);
      EvalInFollows(cfg, st, cases[0].condition);
      var caseValue := EvalIn(cfg, st, cases[0].condition);
      if caseValue.result.Ok? {
        EvalInFollows(cfg, caseValue.state, subject);
        var subjectValue := EvalIn(cfg, caseValue.state, subject);
        if subjectValue.result.Ok? {
          if IsEqual(caseValue.result.value, subjectValue.result.value) {
            ExecFollows(cfg, subjectValue.state, cases[0].statement, fuel);
          } else {
            CasesFollows(cfg, subjectValue.state, subject, cases[1..], default, fuel);
          }
        }
      }
    }
  }

  lemma {:induction false} WhileFollows(cfg: Config, st: State, cond: Expr, body: Stmt, isFor: bool, fuel: nat)
    requires ValidState(st) && KeepsChain(cfg.evaluate)
    ensures Follows(st, ExecWhile(cfg, st, cond, body, isFor, fuel).state)
    decreases fuel, StmtSize(body), 4
  {
    if fuel > 0 {
      EvalInFollows(cfg, st, cond);
      var c := EvalIn(cfg, st, cond);
      if c.result.Ok? && IsTruthy(c.result.value) {
        ExecFollows(cfg, c.state, body, fuel - 1);
        var b := Exec(cfg, c.state, body, fuel - 1);
        if b.outcome.Normal? {
          WhileFollows(cfg, b.state, cond, body, isFor, fuel - 1);
        } else {
          CaughtFollows(cfg, b, cond, body, isFor, fuel);
        }
      }
    }
  }

  lemma {:induction false} CaughtFollows(cfg: Config, b: Executed, cond: Expr, body: Stmt, isFor: bool, fuel: nat)
    requires ValidState(b.state) && KeepsChain(cfg.evaluate) && fuel > 0
    ensures Follows(b.state, CaughtInLoop(cfg, b, cond, body, isFor, fuel).state)
    decreases fuel, StmtSize(body), 3
  {
    if b.outcome.Continued? {
      if isFor {
        NextRoundFollows(cfg, b.state, cond, body, fuel);
      } else {
        WhileFollows(cfg, b.state, cond, body, isFor, fuel - 1);
      }
    }
  }

  lemma {:induction false} NextRoundFollows(cfg: Config, st: State, cond: Expr, body: Stmt, fuel: nat)
    requires ValidState(st) && KeepsChain(cfg.evaluate) && fuel > 0
    ensures Follows(st, NextForRound(cfg, st, cond, body, fuel).state)
    decreases fuel, StmtSize(body), 2
  {
    if Increment(body).Ok? {
      var incr := Increment(body).value;
      ExecFollows(cfg, st, incr, fuel - 1);
      var i := Exec(cfg, st, incr, fuel - 1);
      if i.outcome == Normal {
        WhileFollows(cfg, i.state, cond, body, true, fuel - 1);
      }
    }
  }

  // ---------------------------------------------------------------------------
  // Loops.

  /** One round of a loop, as `ExecWhile` unfolds once. */
  lemma WhileRound(cfg: Config, st: State, cond: Expr, body: Stmt, isFor: bool, fuel: nat)
    requires fuel > 0
    ensures var c := EvalIn(cfg, st, cond);
      var r := ExecWhile(cfg, st, cond, body, isFor, fuel);
      if c.result.Err? || !IsTruthy(c.result.value) then r.outcome == Normal
      else
        var b := Exec(cfg, c.state, body, fuel - 1);
        if b.outcome.Normal? then r == ExecWhile(cfg, b.state, cond, body, isFor, fuel - 1)
        else r == CaughtInLoop(cfg, b, cond, body, isFor, fuel)
  {
  }

  /** The catch clause of a loop lets only `continue` go round again. */
  lemma CaughtRound(cfg: Config, b: Executed, cond: Expr, body: Stmt, isFor: bool, fuel: nat)
    requires fuel > 0
    ensures var r := CaughtInLoop(cfg, b, cond, body, isFor, fuel);
      && (b.outcome.Continued? && isFor ==> r == NextForRound(cfg, b.state, cond, body, fuel))
      && (b.outcome.Continued? && !isFor ==> r == ExecWhile(cfg, b.state, cond, body, isFor, fuel - 1))
      && (!b.outcome.Continued? ==> r.outcome.Normal? || r.outcome.Exited? || r.outcome.OutOfFuel?)
  {
  }

  /**
   * The catch in `visitWhileStmt` swallows `break`, `return` and every error from the
   * body: a `while` loop (not a desugared `for`) ends normally, by `exit`, or (a bound of
   * the model) out of fuel, whatever its body does.
   */
  lemma {:induction false} WhileEnds(cfg: Config, st: State, cond: Expr, body: Stmt, fuel: nat)
    ensures var r := ExecWhile(cfg, st, cond, body, false, fuel);
      r.outcome.Normal? || r.outcome.Exited? || r.outcome.OutOfFuel?
    decreases fuel
  {
    if fuel > 0 {
      WhileRound(cfg, st, cond, body, false, fuel);
      var c := EvalIn(cfg, st, cond);
      if c.result.Ok? && IsTruthy(c.result.value) {
        var b := Exec(cfg, c.state, body, fuel - 1);
        if b.outcome.Normal? {
          WhileEnds(cfg, b.state, cond, body, fuel - 1);
        } else {
          CaughtRound(cfg, b, cond, body, false, fuel);
          if b.outcome.Continued? {
            WhileEnds(cfg, b.state, cond, body, fuel - 1);
          }
        }
      }
    }
  }

  /**
   * A `for` loop whose increment is an expression statement, as the parser desugars it:
   * besides the outcomes of a `while` loop only an error can leave it, and it comes from
   * the increment (or from a body that is not a block of at least two statements).
   */
  lemma {:induction false} ForEnds(cfg: Config, st: State, cond: Expr, body: Stmt, fuel: nat)
    requires Increment(body).Ok? ==> Increment(body).value.Expression?
    ensures var r := ExecWhile(cfg, st, cond, body, true, fuel);
      r.outcome.Normal? || r.outcome.Exited? || r.outcome.OutOfFuel? || r.outcome.Threw?
    decreases fuel, 1
  {
    if fuel > 0 {
      WhileRound(cfg, st, cond, body, true, fuel);
      var c := EvalIn(cfg, st, cond);
      if c.result.Ok? && IsTruthy(c.result.value) {
        var b := Exec(cfg, c.state, body, fuel - 1);
        if b.outcome.Normal? {
          ForEnds(cfg, b.state, cond, body, fuel - 1);
        } else {
          CaughtRound(cfg, b, cond, body, true, fuel);
          if b.outcome.Continued? {
            NextRoundEnds(cfg, b.state, cond, body, fuel);
          }
        }
      }
    }
  }

  /** The increment of a desugared `for` loop either fails or lets the loop go round again. */
  lemma {:induction false} NextRoundEnds(cfg: Config, st: State, cond: Expr, body: Stmt, fuel: nat)
    requires fuel > 0 && (Increment(body).Ok? ==> Increment(body).value.Expression?)
    ensures var r := NextForRound(cfg, st, cond, body, fuel);
      r.outcome.Normal? || r.outcome.Exited? || r.outcome.OutOfFuel? || r.outcome.Threw?
    decreases fuel, 0
  {
    if Increment(body).Ok? {
      var incr := Increment(body).value;
      var i := Exec(cfg, st, incr, fuel - 1);
      assert i == Exec(cfg, st, Expression(incr.expression), fuel - 1);
      if i.outcome == Normal {
        ForEnds(cfg, i.state, cond, body, fuel - 1);
      }
    }
  }

  /**
   * `continue` in a `for` loop whose body is a block of at least two statements runs the
   * second statement (the increment) and then the whole loop again.
   */
  lemma ContinueRunsIncrement(cfg: Config, st: State, cond: Expr, ss: seq<Stmt>, fuel: nat)
    requires fuel > 0 && |ss| >= 2
    ensures var i := Exec(cfg, st, ss[1], fuel - 1);
      CaughtInLoop(cfg, Executed(Continued, st), cond, Block(ss), true, fuel)
        == if i.outcome == Normal then ExecWhile(cfg, i.state, cond, Block(ss), true, fuel - 1) else i
  {
  }

  // ---------------------------------------------------------------------------
  // Switch.

  /** The index of the first value equal to `v` in the sense of `isEqual`, if any. */
  function FirstEqual(vs: seq<Value>, v: Value): (r: Option<nat>)
    ensures r.Some? ==> r.value < |vs| && IsEqual(vs[r.value], v)
    ensures r.Some? ==> forall j :: 0 <= j < r.value ==> !IsEqual(vs[j], v)
    ensures r.None? ==> forall j :: 0 <= j < |vs| ==> !IsEqual(vs[j], v)
    decreases |vs|
  {
    if vs == [] then None
    else if IsEqual(vs[0], v) then Some(0)
    else match FirstEqual(vs[1..], v)
      case None => None
      case Some(i) => Some(i + 1)
  }

  /**
   * Switch selection: when every case expression and the subject evaluate without
   * changing the state, the statement of the first case equal to the subject runs, and
   * with no equal case the default runs.
   */
  lemma {:induction false} SwitchSelects(cfg: Config, st: State, subject: Expr, cases: seq<CaseClause>,
                                         default: Stmt, fuel: nat, vs: seq<Value>, v: Value)
    requires |vs| == |cases|
    requires forall i :: 0 <= i < |cases| ==> EvalIn(cfg, st, cases[i].condition) == Valued(Ok(vs[i]), st)
    requires EvalIn(cfg, st, subject) == Valued(Ok(v), st)
    ensures ExecCases(cfg, st, subject, cases, default, fuel)
      == match FirstEqual(vs, v)
         case Some(i) => Exec(cfg, st, cases[i].statement, fuel)
         case None => Exec(cfg, st, default, fuel)
    decreases |cases|
  {
    if cases != [] {
      assert EvalIn(cfg, st, cases[0].condition) == Valued(Ok(vs[0]), st);
      if !IsEqual(vs[0], v) {
        assert forall i :: 0 <= i < |cases| - 1 ==> cases[1..][i] == cases[i + 1] && vs[1..][i] == vs[i + 1];
        SwitchSelects(cfg, st, subject, cases[1..], default, fuel, vs[1..], v);
      }
    }
  }

  /** The interpreter's evaluator leaves the state alone on an expression without assignments. */
  lemma EvaluatingReadOnly(cfg: Config, st: State, e: Expr)
    requires cfg.evaluate == Evaluating && |st.frames| > 0 && AssignFree(e)
    ensures EvalIn(cfg, st, e).state == st
  {
    ReadOnly(Ctx(cfg, st), st.frames, e);
    assert Evaluating(Ctx(cfg, st), st.frames, e) == Eval(Ctx(cfg, st), st.frames, e);
  }

  /** Switch selection for assignment-free case expressions and subject whose evaluation succeeds. */
  lemma SwitchOnPureCases(cfg: Config, st: State, subject: Expr, cases: seq<CaseClause>,
                          default: Stmt, fuel: nat)
    requires cfg.evaluate == Evaluating && |st.frames| > 0
    requires AssignFree(subject) && EvalIn(cfg, st, subject).result.Ok?
    requires forall i :: 0 <= i < |cases| ==> AssignFree(cases[i].condition) && EvalIn(cfg, st, cases[i].condition).result.Ok?
    ensures var vs := seq(|cases|, i requires 0 <= i < |cases| => EvalIn(cfg, st, cases[i].condition).result.value);
      var v := EvalIn(cfg, st, subject).result.value;
      ExecCases(cfg, st, subject, cases, default, fuel)
        == match FirstEqual(vs, v)
           case Some(i) => Exec(cfg, st, cases[i].statement, fuel)
           case None => Exec(cfg, st, default, fuel)
  {
    var vs := seq(|cases|, i requires 0 <= i < |cases| => EvalIn(cfg, st, cases[i].condition).result.value);
    forall i | 0 <= i < |cases|
      ensures EvalIn(cfg, st, cases[i].condition) == Valued(Ok(vs[i]), st)
    {
      EvaluatingReadOnly(cfg, st, cases[i].condition);
    }
    EvaluatingReadOnly(cfg, st, subject);
    SwitchSelects(cfg, st, subject, cases, default, fuel, vs, EvalIn(cfg, st, subject).result.value);
  }

  // ---------------------------------------------------------------------------
  // Declarations and the remaining statements.

  /** `var x;` binds nil in the current frame; `var x = e;` binds the value of `e` there. */
  lemma VarBinds(cfg: Config, st: State, name: Token, init: Option<Expr>)
    requires ValidState(st) && KeepsChain(cfg.evaluate)
    ensures var r := ExecVar(cfg, st, name, init);
      && (init.None? ==> r.outcome == Normal && Lookup(r.state.frames[st.env].values, name) == Ok(Nil))
      && (init.Some? ==>
            var v := EvalIn(cfg, st, init.value);
            if v.result.Ok? then r.outcome == Normal && Lookup(r.state.frames[st.env].values, name) == Ok(v.result.value)
            else r == Executed(Threw(v.result.failure), v.state))
  {
    var r := ExecVar(cfg, st, name, init);
    if init.None? {
      DefineInFollows(st, name.lexeme, Nil);
      GetAfterDefine(st.frames[st.env].values, name.lexeme, Nil, name);
    } else {
      EvalInFollows(cfg, st, init.value);
      var v := EvalIn(cfg, st, init.value);
      if v.result.Ok? {
        DefineInFollows(v.state, name.lexeme, v.result.value);
        GetAfterDefine(v.state.frames[st.env].values, name.lexeme, v.result.value, name);
      }
    }
  }

  /**
   * A function declaration binds a fresh function value under its name: its identity is
   * the counter, which then goes up, so two declarations never share an identity.
   */
  lemma FunctionBinds(cfg: Config, st: State, name: Token, parameters: seq<Token>, body: seq<Stmt>)
    requires ValidState(st)
    ensures var r := Exec(cfg, st, Function(name, parameters, body), 0);
      && r.outcome == Normal && r.state.serial == st.serial + 1
      && Lookup(r.state.frames[st.env].values, name) == Ok(Fn(Callable(st.serial, |parameters|, "<fn " + name.lexeme + ">")))
  {
    var f := Callable(st.serial, |parameters|, "<fn " + name.lexeme + ">");
    DefineInFollows(st, name.lexeme, Fn(f));
    GetAfterDefine(st.frames[st.env].values, name.lexeme, Fn(f), name);
  }

  /** `print` appends exactly one line, the value's `stringify` text, and changes nothing else but the bindings. */
  lemma PrintAppends(cfg: Config, st: State, e: Expr)
    requires ValidState(st) && KeepsChain(cfg.evaluate)
    ensures var v := EvalIn(cfg, st, e);
      var r := ExecPrint(cfg, st, e);
      v.result.Ok? ==> r.outcome == Normal && r.state.output == st.output + [Stringify(v.result.value, cfg.showNumber)]
  {
    EvalInFollows(cfg, st, e);
  }

  /** A block's statements see a fresh empty frame enclosed by the current one; afterwards the current frame is the old one again. */
  lemma BlockScope(cfg: Config, st: State, ss: seq<Stmt>, fuel: nat)
    requires ValidState(st) && KeepsChain(cfg.evaluate)
    ensures var inner := st.(frames := st.frames + [Frame(map[], Some(st.env))], env := |st.frames|);
      var run := ExecStmts(cfg, inner, ss, fuel);
      && ValidState(inner)
      && ExecBlock(cfg, st, ss, fuel) == Executed(run.outcome, run.state.(env := st.env))
      && ExecBlock(cfg, st, ss, fuel).state.env == st.env
  {
    BlockFollows(cfg, st, ss, fuel);
    PushLinked(st.frames, st.env);
  }

  // ---------------------------------------------------------------------------
  // The catch clause of `visitWhileStmt` as evidently intended.

  /**
   * A loop whose catch clause handles only what belongs to the loop: `break` ends it and
   * `continue` goes round again, after the increment of a `for` loop. A `return`, a runtime
   * error (from the condition, the body or the increment) and `exit` leave the loop as they
   * came. Loops nested in the body run as `ExecWhile`.
   */
  function ExecWhileIntended(cfg: Config, st: State, cond: Expr, body: Stmt, isFor: bool, fuel: nat): Executed
    decreases fuel
  {
    if fuel == 0 then Executed(OutOfFuel, st)
    else
      var c := EvalIn(cfg, st, cond);
      if c.result.Err? then Executed(Threw(c.result.failure), c.state)
      else if !IsTruthy(c.result.value) then Executed(Normal, c.state)
      else
        var b := Exec(cfg, c.state, body, fuel - 1);
        match b.outcome
        case Normal => ExecWhileIntended(cfg, b.state, cond, body, isFor, fuel - 1)
        case Broke => Executed(Normal, b.state)
        case Continued =>
          if !isFor then ExecWhileIntended(cfg, b.state, cond, body, isFor, fuel - 1)
          else (
            match Increment(body)
            case Err(failure) => Executed(Threw(failure), b.state)
            case Ok(incr) =>
              var i := Exec(cfg, b.state, incr, fuel - 1);
              if i.outcome != Normal then i
              else ExecWhileIntended(cfg, i.state, cond, body, isFor, fuel - 1))
        case _ => b
  }

  /**
   * As intended, a `return`, an error or `exit` from the body and an error from the
   * condition leave the loop unchanged.
   */
  lemma IntendedPassesOn(cfg: Config, st: State, cond: Expr, body: Stmt, isFor: bool, fuel: nat)
    requires fuel > 0
    ensures var c := EvalIn(cfg, st, cond);
      var r := ExecWhileIntended(cfg, st, cond, body, isFor, fuel);
      && (c.result.Err? ==> r == Executed(Threw(c.result.failure), c.state))
      && (c.result.Ok? && IsTruthy(c.result.value) ==>
            var b := Exec(cfg, c.state, body, fuel - 1);
            b.outcome.Returned? || b.outcome.Threw? || b.outcome.Exited? ==> r == b)
  {
  }

  /**
   * As intended, `break` and `continue` never escape a loop (whose increment, in a `for`
   * loop, is an expression statement).
   */
  lemma {:induction false} IntendedLoopContains(cfg: Config, st: State, cond: Expr, body: Stmt, isFor: bool, fuel: nat)
    requires isFor && Increment(body).Ok? ==> Increment(body).value.Expression?
    ensures var r := ExecWhileIntended(cfg, st, cond, body, isFor, fuel);
      !r.outcome.Broke? && !r.outcome.Continued?
    decreases fuel
  {
    if fuel > 0 {
      var c := EvalIn(cfg, st, cond);
      if c.result.Ok? && IsTruthy(c.result.value) {
        var b := Exec(cfg, c.state, body, fuel - 1);
        match b.outcome
        case Normal =>
          IntendedLoopContains(cfg, b.state, cond, body, isFor, fuel - 1);
        case Continued =>
          if !isFor {
            IntendedLoopContains(cfg, b.state, cond, body, isFor, fuel - 1);
          } else if Increment(body).Ok? {
            var incr := Increment(body).value;
            var i := Exec(cfg, b.state, incr, fuel - 1);
            assert i == Exec(cfg, b.state, Expression(incr.expression), fuel - 1);
            if i.outcome == Normal {
              IntendedLoopContains(cfg, i.state, cond, body, isFor, fuel - 1);
            }
          }
        case _ =>
      }
    }
  }

  /**
   * As written, a `return` from the body of a `while` loop is swallowed and the loop ends
   * normally, where the intended loop passes the return on with its value.
   */
  lemma ReturnSwallowed(cfg: Config, st: State, cond: Expr, body: Stmt, fuel: nat, v: Value)
    requires fuel > 0
    requires EvalIn(cfg, st, cond).result.Ok? && IsTruthy(EvalIn(cfg, st, cond).result.value)
    requires Exec(cfg, EvalIn(cfg, st, cond).state, body, fuel - 1).outcome == Returned(v)
    ensures ExecWhile(cfg, st, cond, body, false, fuel).outcome == Normal
    ensures ExecWhileIntended(cfg, st, cond, body, false, fuel).outcome == Returned(v)
  {
    var b := Exec(cfg, EvalIn(cfg, st, cond).state, body, fuel - 1);
    CaughtRound(cfg, b, cond, body, false, fuel);
  }

  /**
   * As written, a runtime error in a loop's condition is swallowed and the loop ends
   * normally, where the intended loop reports it.
   */
  lemma ConditionErrorSwallowed(cfg: Config, st: State, cond: Expr, body: Stmt, isFor: bool, fuel: nat)
    requires fuel > 0 && EvalIn(cfg, st, cond).result.Err?
    ensures ExecWhile(cfg, st, cond, body, isFor, fuel).outcome == Normal
    ensures ExecWhileIntended(cfg, st, cond, body, isFor, fuel).outcome == Threw(EvalIn(cfg, st, cond).result.failure)
  {
  }
}
