/**
 * Expression evaluation of interpreter.ts: truthiness, equality, the operand guards, the
 * expression visitors and variable access through the resolver's side table.
 * Evaluation threads the frame arena, which only an assignment changes.
 */
module Evaluation {
  import opened Common
  import opened Tokens
  import opened Ast
  import opened Values
  import opened Environments
  import Scanning

  /** `funct.call(this, args)`: what a call returns is not part of this model. */
  type CallOracle = (Callable, seq<Value>) -> Value

  /**
   * What evaluation reads besides the frames: number formatting, the call oracle, the
   * resolver's side table (`locals`) and the current frame (`env`).
   */
  datatype Context = Context(showNumber: NumberFormat, call: CallOracle, locals: map<NodeId, nat>, env: nat)

  datatype Evaluated<T> = Evaluated(result: Result<T>, frames: seq<Frame>)

  /** `isTruthy`: nil and false are false, everything else is true. */
  predicate IsTruthy(v: Value)
  {
    match v
    case Nil => false
    case Bool(b) => b
    case _ => true
  }

  /** `isEqual`: nil equals only nil; otherwise strict equality, so values of different types differ. */
  predicate IsEqual(a: Value, b: Value)
  {
    if a == Nil && b == Nil then true
    else if a == Nil then false
    else a == b
  }

  /** `stringify`: nil is `nil`; a number's text loses a trailing `.0`; other values as `toString`. */
  function Stringify(v: Value, showNumber: NumberFormat): string
  {
    match v
    case Nil => "nil"
    case Num(n) => WithoutPointZero(showNumber(n))
    case _ => TemplateText(v, showNumber)
  }

  function WithoutPointZero(text: string): (r: string)
    ensures |text| >= 2 && text[|text| - 2..] == ".0" ==> r + ".0" == text
    ensures !(|text| >= 2 && text[|text| - 2..] == ".0") ==> r == text
  {
    if |text| >= 2 && text[|text| - 2..] == ".0" then text[..|text| - 2] else text
  }

  // ---------------------------------------------------------------------------
  // Operand guards: none when the operands are acceptable, otherwise the RuntimeError.

  function OperandText(operator: Token, operands: seq<Value>, showNumber: NumberFormat): string
    decreases |operands|
  {
    if operands == [] then operator.lexeme
    else OperandText(operator, operands[..|operands| - 1], showNumber) + " " + TemplateText(operands[|operands| - 1], showNumber)
  }

  function CheckNumberOperand(operator: Token, operand: Value, showNumber: NumberFormat): (r: Option<Failure>)
    ensures r.None? <==> operand.Num?
  {
    if operand.Num? then None
    else Some(RuntimeError(operator, "Operand must be a number. " + OperandText(operator, [operand], showNumber)))
  }

  function CheckNumberOperands(operator: Token, left: Value, right: Value, showNumber: NumberFormat): (r: Option<Failure>)
    ensures r.None? <==> left.Num? && right.Num?
  {
    if left.Num? && right.Num? then None
    else Some(RuntimeError(operator, "Operands must be numbers. " + OperandText(operator, [left, right], showNumber)))
  }

  function StringOrNumber(operator: Token, left: Value, right: Value, showNumber: NumberFormat): (r: Option<Failure>)
    ensures r.None? <==> (left.Str? && right.Str?) || (left.Num? && right.Num?)
  {
    if left.Str? && right.Str? then None
    else if left.Num? && right.Num? then None
    else Some(RuntimeError(operator, "Operands must be both strings or numbers. " + OperandText(operator, [left, right], showNumber)))
  }

  // ---------------------------------------------------------------------------
  // Operators on values.

  /** JavaScript's `<` on strings: element by element, a proper prefix first (elements are characters here, UTF-16 code units in JavaScript). */
  predicate StrLess(a: string, b: string)
    decreases |a|
  {
    if b == [] then false
    else if a == [] then true
    else if a[0] != b[0] then a[0] < b[0]
    else StrLess(a[1..], b[1..])
  }

  /**
   * JavaScript's numeric conversion of the left operand of an unchecked `-`, as far as a
   * real number can express it: nil and false give 0, true gives 1, and a string in the
   * shape of a number literal gives its decimal value. Every other string and every
   * function give 0 here (JavaScript gives NaN, or the value of other numeric forms).
   */
  function ToNumber(v: Value): real
  {
    match v
    case Num(n) => n
    case Bool(b) => if b then 1.0 else 0.0
    case Str(s) => if Scanning.NumberText(s) then Scanning.ParseNumber(s) else 0.0
    case _ => 0.0
  }

  /** `visitUnaryExpr` once the operand is known. */
  function ApplyUnary(operator: Token, right: Value, showNumber: NumberFormat): (r: Result<Value>)
    ensures operator.kind == BANG ==> r == Ok(Bool(!IsTruthy(right)))
    ensures operator.kind == MINUS ==> (r.Ok? <==> right.Num?)
    ensures operator.kind !in {BANG, MINUS} ==> r.Err? && r.failure.HostError?
  {
    match operator.kind
    case MINUS =>
      (match CheckNumberOperand(operator, right, showNumber)
       case Some(f) => Err(f)
       case None => Ok(Num(-right.n)))
    case BANG => Ok(Bool(!IsTruthy(right)))
    case _ => Err(HostError("Unknown unary operator " + operator.lexeme))
  }

  function Compare(kind: TokenType, left: Value, right: Value): bool
    requires (left.Str? && right.Str?) || (left.Num? && right.Num?)
  {
    if left.Num? then
      match kind
      case GREATER => left.n > right.n
      case GREATER_EQUAL => left.n >= right.n
      case LESS => left.n < right.n
      case _ => left.n <= right.n
    else
      match kind
      case GREATER => StrLess(right.s, left.s)
      case GREATER_EQUAL => !StrLess(left.s, right.s)
      case LESS => StrLess(left.s, right.s)
      case _ => !StrLess(right.s, left.s)
  }

  /** `visitBinaryExpr` once both operands are known. */
  function ApplyBinary(operator: Token, left: Value, right: Value, showNumber: NumberFormat): Result<Value>
  {
    match operator.kind
    case MINUS =>
      (match CheckNumberOperand(operator, right, showNumber)
       case Some(f) => Err(f)
       case None => Ok(Num(ToNumber(left) - right.n)))
    case PLUS =>
      if left.Str? && right.Str? then Ok(Str(left.s + right.s))
      else if left.Num? && right.Num? then Ok(Num(left.n + right.n))
      else Err(RuntimeError(operator, "Operands must be two numbers or two strings. " + OperandText(operator, [left, right], showNumber)))
    case SLASH =>
      (match CheckNumberOperands(operator, left, right, showNumber)
       case Some(f) => Err(f)
       case None => Ok(Num(if right.n == 0.0 then 0.0 else left.n / right.n)))
    case STAR =>
      (match CheckNumberOperands(operator, left, right, showNumber)
       case Some(f) => Err(f)
       case None => Ok(Num(left.n * right.n)))
    case GREATER => Ordered(operator, left, right, showNumber)
    case GREATER_EQUAL => Ordered(operator, left, right, showNumber)
    case LESS => Ordered(operator, left, right, showNumber)
    case LESS_EQUAL => Ordered(operator, left, right, showNumber)
    case BANG_EQUAL => Ok(Bool(!IsEqual(left, right)))
    case EQUAL_EQUAL => Ok(Bool(IsEqual(left, right)))
    case _ => Err(HostError("Unknown binary operator " + operator.lexeme))
  }

  function Ordered(operator: Token, left: Value, right: Value, showNumber: NumberFormat): Result<Value>
  {
    match StringOrNumber(operator, left, right, showNumber)
    case Some(f) => Err(f)
    case None => Ok(Bool(Compare(operator.kind, left, right)))
  }

  // ---------------------------------------------------------------------------
  // Variables.

  /** `lookupVariable` with the recorded distance used whenever there is one, zero included. */
  function LookUpVariable(ctx: Context, frames: seq<Frame>, id: NodeId, name: Token): Result<Value>
    requires |frames| > 0
  {
    if id in ctx.locals then GetAt(frames, ctx.env, ctx.locals[id], name)
    else Lookup(frames[0].values, name)
  }

  /** `visitAssignExpr`'s store, with the recorded distance used whenever there is one. */
  function AssignVariable(ctx: Context, frames: seq<Frame>, id: NodeId, name: Token, value: Value): (r: Result<seq<Frame>>)
    requires |frames| > 0
    ensures r.Ok? ==> SameShape(frames, r.value)
  {
    if id in ctx.locals then AssignAt(frames, ctx.env, ctx.locals[id], name, value)
    else AssignGlobal(frames, name, value)
  }

  /** `lookupVariable` as written: `if (distance)` sends a distance of 0 to the globals. */
  function LookUpAsWritten(ctx: Context, frames: seq<Frame>, id: NodeId, name: Token): Result<Value>
    requires |frames| > 0
  {
    if id in ctx.locals && ctx.locals[id] != 0 then GetAt(frames, ctx.env, ctx.locals[id], name)
    else Lookup(frames[0].values, name)
  }

  /** `visitAssignExpr`'s store as written: a distance of 0 assigns the global. */
  function AssignAsWritten(ctx: Context, frames: seq<Frame>, id: NodeId, name: Token, value: Value): Result<seq<Frame>>
    requires |frames| > 0
  {
    if id in ctx.locals && ctx.locals[id] != 0 then AssignAt(frames, ctx.env, ctx.locals[id], name, value)
    else AssignGlobal(frames, name, value)
  }

  // ---------------------------------------------------------------------------
  // The expression visitors.

  function NotCallable(paren: Token, callee: Value, showNumber: NumberFormat): string
  {
    "Can only call functions and classes. " + paren.lexeme + " " + TemplateText(callee, showNumber) + "\n            "
  }

  function WrongArity(paren: Token, callee: Value, arity: nat, count: nat, showNumber: NumberFormat): string
  {
    "Expected " + NatToString(arity) + " arguments but got " + NatToString(count) + ". "
      + paren.lexeme + " " + TemplateText(callee, showNumber) + "\n            "
  }

  /** `evaluate`: the value or the failure, and the frames after any assignments inside. */
  function Eval(ctx: Context, frames: seq<Frame>, e: Expr): (r: Evaluated<Value>)
    requires |frames| > 0
    ensures SameShape(frames, r.frames)
    decreases Size(e), 0
  {
    match e
    case Literal(v) => Evaluated(Ok(FromLiteral(v)), frames)
    case Grouping(x) => Eval(ctx, frames, x)
    case Logical(l, op, rt) =>
      var left := Eval(ctx, frames, l);
      if left.result.Err? then left
      else if op.kind == OR && IsTruthy(left.result.value) then left
      else if op.kind != OR && !IsTruthy(left.result.value) then left
      else Eval(ctx, left.frames, rt)
    case Unary(op, rt) =>
      var right := Eval(ctx, frames, rt);
      if right.result.Err? then right
      else Evaluated(ApplyUnary(op, right.result.value, ctx.showNumber), right.frames)
    case Ternary(c, t, f) =>
      var condition := Eval(ctx, frames, c);
      if condition.result.Err? then condition
      else if IsTruthy(condition.result.value) then Eval(ctx, condition.frames, t)
      else Eval(ctx, condition.frames, f)
    case Binary(l, op, rt) =>
      var left := Eval(ctx, frames, l);
      if left.result.Err? then left
      else
        var right := Eval(ctx, left.frames, rt);
        if right.result.Err? then right
        else Evaluated(ApplyBinary(op, left.result.value, right.result.value, ctx.showNumber), right.frames)
    case Call(c, paren, args) =>
      var callee := Eval(ctx, frames, c);
      if callee.result.Err? then callee
      else CallWith(ctx, callee.result.value, callee.frames, paren, args)
    case Variable(id, name) => Evaluated(LookUpVariable(ctx, frames, id, name), frames)
    case Assign(id, name, v) =>
      var value := Eval(ctx, frames, v);
      if value.result.Err? then value
      else match AssignVariable(ctx, value.frames, id, name, value.result.value)
        case Err(failure) => Evaluated(Err(failure), value.frames)
        case Ok(after) => Evaluated(Ok(value.result.value), after)
  }

  /** `visitCallExpr` once the callee is known: the callable check, the arguments, the arity check, the call. */
  function CallWith(ctx: Context, callee: Value, frames: seq<Frame>, paren: Token, args: seq<Expr>): (r: Evaluated<Value>)
    requires |frames| > 0
    ensures SameShape(frames, r.frames)
    decreases SizeAll(args), 3
  {
    if !callee.Fn? then
      Evaluated(Err(RuntimeError(paren, NotCallable(paren, callee, ctx.showNumber))), frames)
    else
      var values := EvalArgs(ctx, frames, args);
      if values.result.Err? then Evaluated(Err(values.result.failure), values.frames)
      else if callee.f.arity != |values.result.value| then
        Evaluated(Err(RuntimeError(paren, WrongArity(paren, callee, callee.f.arity, |values.result.value|, ctx.showNumber))), values.frames)
      else Evaluated(Ok(ctx.call(callee.f, values.result.value)), values.frames)
  }

  /** `expr.args.map(arg => this.evaluate(arg))`: left to right, stopping at the first failure. */
  function EvalArgs(ctx: Context, frames: seq<Frame>, args: seq<Expr>): (r: Evaluated<seq<Value>>)
    requires |frames| > 0
    ensures SameShape(frames, r.frames)
    ensures r.result.Ok? ==> |r.result.value| == |args|
    decreases SizeAll(args), 2
  {
    if args == [] then Evaluated(Ok([]), frames)
    else
      var first := Eval(ctx, frames, args[0]);
      if first.result.Err? then Evaluated(Err(first.result.failure), first.frames)
      else
        var rest := EvalArgs(ctx, first.frames, args[1..]);
        if rest.result.Err? then Evaluated(Err(rest.result.failure), rest.frames)
        else Evaluated(Ok([first.result.value] + rest.result.value), rest.frames)
  }

  // ---------------------------------------------------------------------------
  // Properties of the value operations.

  /** Only nil and false are falsy; in particular 0 and the empty string are truthy. */
  lemma TruthyExactly(v: Value)
    ensures !IsTruthy(v) <==> v == Nil || v == Bool(false)
    ensures IsTruthy(Num(0.0)) && IsTruthy(Str(""))
  {
  }

  /**
   * `isEqual` is equality of values: nil equals only nil, values of different types are
   * never equal, and `!=` is always the negation of `==`.
   */
  lemma EqualityIsSameValue(a: Value, b: Value, operator: Token, showNumber: NumberFormat)
    ensures IsEqual(a, b) <==> a == b
    ensures IsEqual(Nil, b) <==> b == Nil
    ensures (a.Num? && !b.Num?) || (a.Str? && !b.Str?) || (a.Bool? && !b.Bool?) ==> !IsEqual(a, b)
    ensures operator.kind == BANG_EQUAL ==>
      ApplyBinary(operator, a, b, showNumber) == Ok(Bool(!IsEqual(a, b)))
  {
  }

  /** `+` adds two numbers or joins two strings, and fails for every other pair. */
  lemma PlusOperands(operator: Token, left: Value, right: Value, showNumber: NumberFormat)
    requires operator.kind == PLUS
    ensures var r := ApplyBinary(operator, left, right, showNumber);
      && (r.Ok? <==> (left.Num? && right.Num?) || (left.Str? && right.Str?))
      && (left.Num? && right.Num? ==> r == Ok(Num(left.n + right.n)))
      && (left.Str? && right.Str? ==> r == Ok(Str(left.s + right.s)))
      && (r.Err? ==> r.failure.RuntimeError? && r.failure.token == operator)
  {
  }

  /** `-` leaves its left operand unchecked: a string holding a number literal is subtracted from as that number. */
  lemma NumericStringMinus(operator: Token, s: string, n: real, showNumber: NumberFormat)
    requires operator.kind == MINUS && Scanning.NumberText(s)
    ensures ApplyBinary(operator, Str(s), Num(n), showNumber) == Ok(Num(Scanning.ParseNumber(s) - n))
  {
  }

  /** `-` checks only its right operand; `*` and `/` need two numbers; comparisons two numbers or two strings. */
  lemma OperandChecks(operator: Token, left: Value, right: Value, showNumber: NumberFormat)
    ensures operator.kind == MINUS ==> (ApplyBinary(operator, left, right, showNumber).Ok? <==> right.Num?)
    ensures operator.kind in {STAR, SLASH} ==>
      (ApplyBinary(operator, left, right, showNumber).Ok? <==> left.Num? && right.Num?)
    ensures operator.kind in {GREATER, GREATER_EQUAL, LESS, LESS_EQUAL} ==>
      (ApplyBinary(operator, left, right, showNumber).Ok? <==> (left.Num? && right.Num?) || (left.Str? && right.Str?))
  {
    // One case per operator, so that each unfolds only its own branch of `ApplyBinary`.
    match operator.kind
    case MINUS =>
    case STAR =>
    case SLASH =>
    case GREATER =>
    case GREATER_EQUAL =>
    case LESS =>
    case LESS_EQUAL =>
    case _ =>
  }

  /** JavaScript's string order is a strict total order. */
  lemma {:induction false} StrLessTotal(a: string, b: string)
    ensures !(StrLess(a, b) && StrLess(b, a))
    ensures StrLess(a, b) || a == b || StrLess(b, a)
    decreases |a|
  {
    if a != [] && b != [] && a[0] == b[0] {
      StrLessTotal(a[1..], b[1..]);
      if a[1..] == b[1..] {
        assert a == [a[0]] + a[1..] && b == [b[0]] + b[1..];
      }
    }
  }

  /** On strings `>=` holds exactly when `>` holds or the strings are equal, and `<=` likewise. */
  lemma StringComparisons(left: string, right: string)
    ensures Compare(GREATER_EQUAL, Str(left), Str(right)) <==> Compare(GREATER, Str(left), Str(right)) || left == right
    ensures Compare(LESS_EQUAL, Str(left), Str(right)) <==> Compare(LESS, Str(left), Str(right)) || left == right
  {
    StrLessTotal(left, right);
  }

  /** `stringify` writes nil as `nil` and drops a trailing `.0` from a number's text. */
  lemma StringifyText(v: Value, showNumber: NumberFormat)
    ensures v == Nil ==> Stringify(v, showNumber) == "nil"
    ensures v.Num? ==>
      (Stringify(v, showNumber) == showNumber(v.n) || Stringify(v, showNumber) + ".0" == showNumber(v.n))
    ensures v.Str? ==> Stringify(v, showNumber) == v.s
  {
  }

  // ---------------------------------------------------------------------------
  // Properties of evaluation.

  /**
   * `and` and `or` return the operand that decides: when the left operand decides, the
   * right one is not evaluated; otherwise the right operand's evaluation is the result.
   */
  lemma ShortCircuit(ctx: Context, frames: seq<Frame>, l: Expr, op: Token, rt: Expr)
    requires |frames| > 0
    ensures var left := Eval(ctx, frames, l);
      var r := Eval(ctx, frames, Logical(l, op, rt));
      left.result.Ok? && IsTruthy(left.result.value) == (op.kind == OR) ==> r == left
    ensures var left := Eval(ctx, frames, l);
      var r := Eval(ctx, frames, Logical(l, op, rt));
      left.result.Ok? && IsTruthy(left.result.value) != (op.kind == OR) ==> r == Eval(ctx, left.frames, rt)
  {
    // `or` stops at a truthy left operand, `and` at a falsy one: one case each.
    if op.kind == OR {
    } else {
    }
  }

  /** The left operand is evaluated first; a failure there is the result, and the right one is not evaluated. */
  lemma LeftBeforeRight(ctx: Context, frames: seq<Frame>, l: Expr, op: Token, rt: Expr)
    requires |frames| > 0
    ensures var left := Eval(ctx, frames, l);
      var r := Eval(ctx, frames, Binary(l, op, rt));
      && (left.result.Err? ==> r == left)
      && (left.result.Ok? ==> var right := Eval(ctx, left.frames, rt);
           (right.result.Err? ==> r == right) && (right.result.Ok? ==> r.frames == right.frames))
  {
  }

  /**
   * A callee that is not a function fails before any argument is evaluated; otherwise the
   * arguments are evaluated left to right, and a count different from the arity fails with
   * "Expected N arguments but got M."; only then is the function called.
   */
  lemma CallChecks(ctx: Context, callee: Value, frames: seq<Frame>, paren: Token, args: seq<Expr>)
    requires |frames| > 0
    ensures !callee.Fn? ==>
      CallWith(ctx, callee, frames, paren, args) == Evaluated(Err(RuntimeError(paren, NotCallable(paren, callee, ctx.showNumber))), frames)
    ensures callee.Fn? && EvalArgs(ctx, frames, args).result.Ok? && |args| != callee.f.arity ==>
      CallWith(ctx, callee, frames, paren, args).result
        == Err(RuntimeError(paren, WrongArity(paren, callee, callee.f.arity, |args|, ctx.showNumber)))
    ensures callee.Fn? && EvalArgs(ctx, frames, args).result.Ok? && |args| == callee.f.arity ==>
      CallWith(ctx, callee, frames, paren, args).result
        == Ok(ctx.call(callee.f, EvalArgs(ctx, frames, args).result.value))
  {
  }

  /** Trees without an assignment. */
  predicate AssignFree(e: Expr)
    decreases e
  {
    match e
    case Assign(_, _, _) => false
    case Binary(l, _, r) => AssignFree(l) && AssignFree(r)
    case Call(c, _, args) => AssignFree(c) && forall i :: 0 <= i < |args| ==> AssignFree(args[i])
    case Grouping(x) => AssignFree(x)
    case Literal(_) => true
    case Logical(l, _, r) => AssignFree(l) && AssignFree(r)
    case Unary(_, r) => AssignFree(r)
    case Ternary(c, t, f) => AssignFree(c) && AssignFree(t) && AssignFree(f)
    case Variable(_, _) => true
  }

  /** Only an assignment changes the frames: evaluating a tree without one leaves them as they were. */
  lemma {:induction false} ReadOnly(ctx: Context, frames: seq<Frame>, e: Expr)
    requires |frames| > 0 && AssignFree(e)
    ensures Eval(ctx, frames, e).frames == frames
    decreases Size(e), 0
  {
    match e
    case Literal(_) =>
    case Variable(_, _) =>
    case Grouping(x) => ReadOnly(ctx, frames, x);
    case Unary(_, r) => ReadOnly(ctx, frames, r);
    case Logical(l, _, r) => ReadOnly(ctx, frames, l); ReadOnly(ctx, frames, r);
    case Binary(l, _, r) => ReadOnly(ctx, frames, l); ReadOnly(ctx, frames, r);
    case Ternary(c, t, f) => ReadOnly(ctx, frames, c); ReadOnly(ctx, frames, t); ReadOnly(ctx, frames, f);
    case Call(c, _, args) => ReadOnly(ctx, frames, c); ArgsReadOnly(ctx, frames, args);
  }

  lemma {:induction false} ArgsReadOnly(ctx: Context, frames: seq<Frame>, args: seq<Expr>)
    requires |frames| > 0 && forall i :: 0 <= i < |args| ==> AssignFree(args[i])
    ensures EvalArgs(ctx, frames, args).frames == frames
    decreases SizeAll(args), 2
  {
    if args != [] {
      ReadOnly(ctx, frames, args[0]);
      ArgsReadOnly(ctx, frames, args[1..]);
    }
  }

  // ---------------------------------------------------------------------------
  // A recorded distance of 0 (the innermost scope) is ignored as written.

  /** The frames of `{ var a = 1; print a; }` at the `print`: empty globals, and a block frame binding `a`. */
  function BlockFrames(): seq<Frame>
  {
    [Frame(map[], None), Frame(map["a" := Num(1.0)], Some(0))]
  }

  function NameA(): Token { Token(IDENTIFIER, "a", NilLit, 1) }

  /**
   * The reference to `a` in `{ var a = 1; print a; }` is resolved at distance 0, yet the
   * code as written looks it up in the globals and fails; the corrected lookup finds it.
   */
  lemma DistanceZeroMisses(showNumber: NumberFormat, call: CallOracle)
    ensures var ctx := Context(showNumber, call, map[7 := 0], 1);
      && LookUpAsWritten(ctx, BlockFrames(), 7, NameA()) == Err(RuntimeError(NameA(), "Undefined variable 'a'."))
      && LookUpVariable(ctx, BlockFrames(), 7, NameA()) == Ok(Num(1.0))
  {
    var ctx := Context(showNumber, call, map[7 := 0], 1);
    assert "a" !in BlockFrames()[0].values;
    assert Ancestor(BlockFrames(), 1, 0) == Some(1);
    assert UndefinedVariable("a") == "Undefined variable 'a'.";
  }

  /** Likewise `{ var a = 1; a = 2; }` assigns the global `a` as written, and fails when there is none. */
  lemma DistanceZeroAssignsGlobal(showNumber: NumberFormat, call: CallOracle)
    ensures var ctx := Context(showNumber, call, map[7 := 0], 1);
      && AssignAsWritten(ctx, BlockFrames(), 7, NameA(), Num(2.0)) == Err(RuntimeError(NameA(), "Undefined variable 'a'."))
      && AssignVariable(ctx, BlockFrames(), 7, NameA(), Num(2.0)).Ok?
  {
    var ctx := Context(showNumber, call, map[7 := 0], 1);
    assert "a" !in BlockFrames()[0].values;
    assert Ancestor(BlockFrames(), 1, 0) == Some(1);
    assert UndefinedVariable("a") == "Undefined variable 'a'.";
  }

  /**
   * The as-written rules for every input: a recorded distance of 0, like no entry at all,
   * reads and assigns the globals, and any other recorded distance behaves as corrected.
   */
  lemma AsWrittenDistanceRule(ctx: Context, frames: seq<Frame>, id: NodeId, name: Token, value: Value)
    requires |frames| > 0
    ensures id !in ctx.locals || ctx.locals[id] == 0 ==>
      && LookUpAsWritten(ctx, frames, id, name) == Lookup(frames[0].values, name)
      && AssignAsWritten(ctx, frames, id, name, value) == AssignGlobal(frames, name, value)
    ensures id in ctx.locals && ctx.locals[id] != 0 ==>
      && LookUpAsWritten(ctx, frames, id, name) == LookUpVariable(ctx, frames, id, name)
      && AssignAsWritten(ctx, frames, id, name, value) == AssignVariable(ctx, frames, id, name, value)
  {
  }

  /**
   * The two rules part exactly at distance 0: whenever the innermost frame binds a name the
   * globals do not, the as-written lookup fails where the corrected one reads the binding,
   * and the as-written store fails where the corrected one succeeds.
   */
  lemma DistanceZeroDiverges(ctx: Context, frames: seq<Frame>, id: NodeId, name: Token, value: Value)
    requires |frames| > 0 && ctx.env < |frames|
    requires id in ctx.locals && ctx.locals[id] == 0
    requires name.lexeme in frames[ctx.env].values && name.lexeme !in frames[0].values
    ensures LookUpAsWritten(ctx, frames, id, name) == Err(RuntimeError(name, UndefinedVariable(name.lexeme)))
    ensures LookUpVariable(ctx, frames, id, name) == Ok(frames[ctx.env].values[name.lexeme])
    ensures AssignAsWritten(ctx, frames, id, name, value).Err?
    ensures AssignVariable(ctx, frames, id, name, value).Ok?
  {
  }

  /**
   * The corrected lookup reads the frame the resolver pointed at, whatever the distance;
   * an unresolved name is read from the globals.
   */
  lemma ResolvedLookup(ctx: Context, frames: seq<Frame>, id: NodeId, name: Token)
    requires |frames| > 0
    ensures id in ctx.locals && Ancestor(frames, ctx.env, ctx.locals[id]).Some? ==>
      LookUpVariable(ctx, frames, id, name)
        == Lookup(frames[Ancestor(frames, ctx.env, ctx.locals[id]).value].values, name)
    ensures id !in ctx.locals ==> LookUpVariable(ctx, frames, id, name) == Lookup(frames[0].values, name)
  {
  }

  /** After a corrected assignment, the corrected lookup of the same reference reads the assigned value. */
  lemma AssignThenLookUp(ctx: Context, frames: seq<Frame>, id: NodeId, name: Token, value: Value)
    requires |frames| > 0
    requires AssignVariable(ctx, frames, id, name, value).Ok?
    ensures LookUpVariable(ctx, AssignVariable(ctx, frames, id, name, value).value, id, name) == Ok(value)
  {
    if id in ctx.locals {
      GetAtAfterAssignAt(frames, ctx.env, ctx.locals[id], name, value);
    }
  }
}
