/**
 * Variable bindings. The first part is environment.ts as written: one scope of names
 * with `define` and `get`. The second part supplies what interpreter.ts needs and
 * environment.ts lacks (an enclosing scope, `getAt`, `assignAt`, `assign`): scopes live
 * in an arena, a sequence of frames where a frame names its enclosing frame by index.
 * Those pieces are assumptions of this model, kept as small as the interpreter allows.
 */
module Environments {
  import opened Common
  import opened Tokens
  import opened Values

  type Bindings = map<string, Value>

  function UndefinedVariable(name: string): (m: string)
    ensures |m| == |name| + 22
    ensures m[..20] == "Undefined variable '" && m[20..|m| - 2] == name && m[|m| - 2..] == "'."
  {
    "Undefined variable '" + name + "'."
  }

  /** `get`: the value bound to the token's lexeme, or a RuntimeError blaming the token. */
  function Lookup(values: Bindings, name: Token): Result<Value>
  {
    if name.lexeme in values then Ok(values[name.lexeme])
    else Err(RuntimeError(name, UndefinedVariable(name.lexeme)))
  }

  /** One scope of names, updated in place. */
  class Environment {
    var values: Bindings

    constructor()
      ensures values == map[]
    {
      values := map[];
    }

    /** `define`: binds the name, replacing any earlier binding of it. */
    method Define(name: string, value: Value)
      modifies this
      ensures values == old(values)[name := value]
    {
      values := values[name := value];
    }

    /** `get` changes nothing. */
    method Get(name: Token) returns (r: Result<Value>)
      ensures r == Lookup(values, name)
    {
      if name.lexeme in values {
        r := Ok(values[name.lexeme]);
      } else {
        r := Err(RuntimeError(name, UndefinedVariable(name.lexeme)));
      }
    }
  }

  /** After `define(n, v)`, `get` of a token spelled `n` gives `v`, whether or not `n` was bound. */
  lemma GetAfterDefine(values: Bindings, name: string, value: Value, t: Token)
    requires t.lexeme == name
    ensures Lookup(values[name := value], t) == Ok(value)
  {
  }

  /** `define` leaves every other name as it was. */
  lemma DefineLeavesOthers(values: Bindings, name: string, value: Value, t: Token)
    requires t.lexeme != name
    ensures Lookup(values[name := value], t) == Lookup(values, t)
  {
  }

  /** `get` succeeds exactly for bound names; otherwise it blames the token with "Undefined variable". */
  lemma GetUnbound(values: Bindings, t: Token)
    ensures Lookup(values, t).Err? <==> t.lexeme !in values
    ensures t.lexeme !in values ==>
      Lookup(values, t) == Err(RuntimeError(t, "Undefined variable '" + t.lexeme + "'."))
  {
  }

  // ---------------------------------------------------------------------------
  // The scope chain the interpreter assumes.

  /** A scope and the index of the scope enclosing it (none for the globals). */
  datatype Frame = Frame(values: Bindings, enclosing: Option<nat>)

  /** Frame 0 holds the globals; every other frame's enclosing frame comes before it. */
  ghost predicate Linked(frames: seq<Frame>)
  {
    && |frames| > 0
    && frames[0].enclosing == None
    && forall i :: 0 < i < |frames| ==> frames[i].enclosing.Some? && frames[i].enclosing.value < i
  }

  /** Two arenas with the same frames in the same chain; only the bindings may differ. */
  ghost predicate SameShape(before: seq<Frame>, after: seq<Frame>)
  {
    |before| == |after| && forall i :: 0 <= i < |before| ==> before[i].enclosing == after[i].enclosing
  }

  /** The frame `distance` steps up the chain from frame `env`, if the chain is that long. */
  function Ancestor(frames: seq<Frame>, env: nat, distance: nat): (r: Option<nat>)
    ensures r.Some? ==> r.value < |frames|
    ensures env < |frames| && distance == 0 ==> r == Some(env)
    decreases distance
  {
    if env >= |frames| then None
    else if distance == 0 then Some(env)
    else match frames[env].enclosing
      case None => None
      case Some(up) => Ancestor(frames, up, distance - 1)
  }

  /** In a linked arena the globals are reached from any frame. */
  lemma {:induction false} GlobalsReachable(frames: seq<Frame>, env: nat)
    requires Linked(frames) && env < |frames|
    ensures exists d: nat :: Ancestor(frames, env, d) == Some(0)
    decreases env
  {
    if env == 0 {
      assert Ancestor(frames, env, 0) == Some(0);
    } else {
      var up := frames[env].enclosing.value;
      GlobalsReachable(frames, up);
      var d: nat :| Ancestor(frames, up, d) == Some(0);
      assert Ancestor(frames, env, d + 1) == Some(0);
    }
  }

  const NoFrame := HostError("Cannot read properties of undefined")

  /** `getAt(distance, name)`: the name in the frame `distance` steps up. */
  function GetAt(frames: seq<Frame>, env: nat, distance: nat, name: Token): (r: Result<Value>)
    ensures Ancestor(frames, env, distance).None? ==> r == Err(NoFrame)
    ensures Ancestor(frames, env, distance).Some? ==>
      r == Lookup(frames[Ancestor(frames, env, distance).value].values, name)
  {
    match Ancestor(frames, env, distance)
    case None => Err(NoFrame)
    case Some(k) => Lookup(frames[k].values, name)
  }

  /** The frames with `name` bound to `value` in frame `k`. */
  function Bind(frames: seq<Frame>, k: nat, name: string, value: Value): (r: seq<Frame>)
    requires k < |frames|
    ensures SameShape(frames, r)
    ensures r[k].values == frames[k].values[name := value]
    ensures forall i :: 0 <= i < |frames| && i != k ==> r[i] == frames[i]
  {
    frames[k := Frame(frames[k].values[name := value], frames[k].enclosing)]
  }

  /** `assignAt(distance, name, value)`: binds the name in the frame `distance` steps up. */
  function AssignAt(frames: seq<Frame>, env: nat, distance: nat, name: Token, value: Value): (r: Result<seq<Frame>>)
    ensures r.Ok? ==> SameShape(frames, r.value)
    ensures r.Ok? <==> Ancestor(frames, env, distance).Some?
  {
    match Ancestor(frames, env, distance)
    case None => Err(NoFrame)
    case Some(k) => Ok(Bind(frames, k, name.lexeme, value))
  }

  /** `assign` on the globals: only a name already bound there can be assigned. */
  function AssignGlobal(frames: seq<Frame>, name: Token, value: Value): (r: Result<seq<Frame>>)
    requires |frames| > 0
    ensures r.Ok? ==> SameShape(frames, r.value)
    ensures r.Ok? <==> name.lexeme in frames[0].values
    ensures r.Err? ==> r.failure == RuntimeError(name, UndefinedVariable(name.lexeme))
  {
    if name.lexeme in frames[0].values then Ok(Bind(frames, 0, name.lexeme, value))
    else Err(RuntimeError(name, UndefinedVariable(name.lexeme)))
  }

  /** `new Environment(enclosing)`: a fresh empty frame, appended to the arena. */
  function Push(frames: seq<Frame>, enclosing: nat): (r: seq<Frame>)
    ensures |r| == |frames| + 1 && r[..|frames|] == frames
    ensures r[|frames|] == Frame(map[], Some(enclosing))
  {
    frames + [Frame(map[], Some(enclosing))]
  }

  /** A pushed frame keeps the arena linked when its enclosing frame already exists. */
  lemma PushLinked(frames: seq<Frame>, enclosing: nat)
    requires Linked(frames) && enclosing < |frames|
    ensures Linked(Push(frames, enclosing))
  {
  }

  /** Rebinding names never changes the chain. */
  lemma SameShapeLinked(before: seq<Frame>, after: seq<Frame>)
    requires Linked(before) && SameShape(before, after)
    ensures Linked(after)
  {
  }

  /** A value assigned at a distance is what `getAt` at that distance then reads. */
  lemma GetAtAfterAssignAt(frames: seq<Frame>, env: nat, distance: nat, name: Token, value: Value)
    requires AssignAt(frames, env, distance, name, value).Ok?
    ensures var after := AssignAt(frames, env, distance, name, value).value;
      GetAt(after, env, distance, name) == Ok(value)
  {
    var k := Ancestor(frames, env, distance).value;
    var after := AssignAt(frames, env, distance, name, value).value;
    AncestorSameShape(frames, after, env, distance);
  }

  /** The chain walk only looks at the enclosing links. */
  lemma {:induction false} AncestorSameShape(before: seq<Frame>, after: seq<Frame>, env: nat, distance: nat)
    requires SameShape(before, after)
    ensures Ancestor(before, env, distance) == Ancestor(after, env, distance)
    decreases distance
  {
    if env < |before| && distance > 0 && before[env].enclosing.Some? {
      AncestorSameShape(before, after, before[env].enclosing.value, distance - 1);
    }
  }
}
