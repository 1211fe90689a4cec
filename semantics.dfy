/**
 * The meaning of evaluation, as a big-step relation between a snapshot of
 * the heap before and after evaluating a node in an environment.
 *
 * A snapshot holds the bindings of every environment, the set of function
 * objects created so far and the lines printed so far.  The relation is not a
 * function because a call allocates a new environment and a function
 * definition a new function object: any object not yet in the snapshot will
 * do.  A `Derivation` names the intermediate snapshots and outcomes and the
 * objects allocated, so that an evaluation holds exactly when some derivation
 * witnesses it.  `fuel` bounds the number of rounds of each loop and the depth
 * of calls; an evaluation that would need more ends in `OutOfFuel`.
 *
 * Each predicate follows one evaluation rule: sub-evaluations happen in the
 * order the evaluator performs them, and an outcome other than `Normal`
 * (the return signal, an error, exhaustion) stops the enclosing evaluation and
 * becomes its outcome.  Only a function call boundary turns the return signal
 * back into a value.
 */
module Semantics {
  import Ast
  import opened Environments
  import opened Operators

  datatype State = State(scopes: Scopes, funs: set<Function>, out: seq<string>)

  /**
   * How an evaluation came about: its sub-evaluations in the order they
   * happen, the argument values of a call, the number of completed rounds of a
   * loop, and the environment or function object it allocated.
   */
  datatype Derivation = Derivation(
    steps: seq<Step>,
    values: seq<Value>,
    rounds: nat,
    newEnv: Ast.Option<Environment>,
    newFun: Ast.Option<Function>)

  /** One sub-evaluation: the snapshot and outcome it ends with, and how. */
  datatype Step = Step(post: State, out: Outcome, via: Derivation)

  /** The derivation of an evaluation without sub-evaluations. */
  const Leaf := Derivation([], [], 0, Ast.None, Ast.None)

  /** The `i`-th sub-evaluation of `d` (an empty one when `d` has fewer). */
  function Sub(d: Derivation, i: nat): Step
  {
    if i < |d.steps| then d.steps[i] else Step(State(map[], {}, []), Normal(Value.Nil), Leaf)
  }

  function FromResult(r: Result<Value>): (o: Outcome)
    ensures r.Ok? <==> o.Normal?
    ensures r.Ok? ==> o.value == r.value
    ensures r.Err? ==> o == Error(r.error)
  {
    match r
    case Ok(v) => Normal(v)
    case Err(e) => Error(e)
  }

  /** The call boundary: the return signal's value, or nil when the body ends normally. */
  function CallResult(body: Outcome): (o: Outcome)
    ensures !o.Returning?
    ensures body.Returning? ==> o == Normal(body.value)
    ensures body.Normal? ==> o == Normal(Value.Nil)
    ensures !body.Returning? && !body.Normal? ==> o == body
  {
    match body
    case Returning(v) => Normal(v)
    case Normal(_) => Normal(Value.Nil)
    case _ => body
  }

  /** A return signal that reaches the top level is an error; a statement's value is discarded. */
  function TopLevel(o: Outcome): (r: Outcome)
    ensures !r.Returning?
    ensures o.Returning? ==> r == Error(UnhandledReturn)
    ensures o.Normal? ==> r == Normal(Value.Nil)
    ensures !o.Returning? && !o.Normal? ==> r == o
  {
    match o
    case Returning(_) => Error(UnhandledReturn)
    case Normal(_) => Normal(Value.Nil)
    case _ => o
  }

  /** The fresh local bindings of a call: each parameter defined in order, the last one winning. */
  function Params(ps: seq<string>, vs: seq<Value>): (m: map<string, Value>)
    requires |ps| == |vs|
    ensures m.Keys == set p | p in ps
    ensures forall x :: x in m ==> m[x] in vs
    ensures |ps| > 0 ==> m[ps[|ps| - 1]] == vs[|vs| - 1]
  {
    if ps == [] then map[]
    else
      var ps', vs' := ps[..|ps| - 1], vs[..|vs| - 1];
      assert forall v :: v in vs' ==> v in vs;
      Params(ps', vs')[ps[|ps| - 1] := vs[|vs| - 1]]
  }

  /**
   * Parameters are bound by position: a name that does not repeat later in
   * the list gets its own argument (so a repeated name gets its last one).
   */
  lemma {:induction false} ParamsByPosition(ps: seq<string>, vs: seq<Value>)
    requires |ps| == |vs|
    ensures forall i :: 0 <= i < |ps| && ps[i] !in ps[i + 1..] ==> Params(ps, vs)[ps[i]] == vs[i]
    decreases |ps|
  {
    if ps != [] {
      ParamsByPosition(ps[..|ps| - 1], vs[..|vs| - 1]);
      UniqueInPrefix(ps);
    }
  }

  /** A name that does not repeat later in `ps` does not repeat later in its prefix, and is not the last name. */
  lemma UniqueInPrefix(ps: seq<string>)
    requires |ps| > 0
    ensures forall i :: 0 <= i < |ps| - 1 && ps[i] !in ps[i + 1..] ==>
              ps[..|ps| - 1][i] !in ps[..|ps| - 1][i + 1..] && ps[i] != ps[|ps| - 1]
  {
    forall i | 0 <= i < |ps| - 1 && ps[i] !in ps[i + 1..]
      ensures ps[..|ps| - 1][i] !in ps[..|ps| - 1][i + 1..] && ps[i] != ps[|ps| - 1]
    {
      assert ps[..|ps| - 1][i + 1..] == ps[i + 1..|ps| - 1];
      assert ps[|ps| - 1] == ps[i + 1..][|ps| - 2 - i];
    }
  }

  /**
   * Evaluating `n` in `env` leads from `pre` to `post` with outcome `o`, as `d`
   * shows.  Literals and variables are evaluated here; every other node kind
   * has its own rule below.
   */
  ghost predicate Evals(n: Ast.Node, env: Environment, pre: State, post: State, o: Outcome, fuel: nat, d: Derivation)
    requires env.Chained()
    decreases fuel, n, 2
  {
    match n
    case Number(x) => post == pre && o == Normal(Num(x))
    case String(s) => post == pre && o == Normal(Str(s))
    case Boolean(b) => post == pre && o == Normal(Bool(b))
    case Nil => post == pre && o == Normal(Value.Nil)
    case Variable(name) =>
      post == pre && o == FromResult(Found(Owner(pre.scopes, env, name), pre.scopes, name))
    case BinaryOp(_, _, _) => EvalsBinary(n, env, pre, post, o, fuel, d)
    case UnaryOp(_, _) => EvalsUnary(n, env, pre, post, o, fuel, d)
    case VarDeclaration(_, _) => EvalsDeclaration(n, env, pre, post, o, fuel, d)
    case Assignment(_, _) => EvalsAssignment(n, env, pre, post, o, fuel, d)
    case BlockNode(b) => EvalsBlock(b, |b.statements|, env, pre, post, o, fuel, d)
    case IfStatement(_, _, _) => EvalsIf(n, env, pre, post, o, fuel, d)
    case WhileStatement(_, _) => EvalsWhile(n, env, pre, post, o, fuel, d)
    case ReturnStatement(_) => EvalsReturn(n, env, pre, post, o, fuel, d)
    case ExpressionStatement(e) => Evals(e, env, pre, post, o, fuel, d)
    case FunctionDef(_, _, _) => EvalsDefinition(n, env, pre, post, o, d)
    case FunctionCall(_, _) => EvalsCall(n, env, pre, post, o, fuel, d)
  }

  /** Left operand, then right operand, then the operator on the two values. */
  ghost predicate EvalsBinary(n: Ast.Node, env: Environment, pre: State, post: State, o: Outcome, fuel: nat, d: Derivation)
    requires env.Chained() && n.BinaryOp?
    decreases fuel, n, 1
  {
    var l := Sub(d, 0);
    Evals(n.left, env, pre, l.post, l.out, fuel, l.via) &&
    if !l.out.Normal? then post == l.post && o == l.out
    else
      var r := Sub(d, 1);
      Evals(n.right, env, l.post, post, r.out, fuel, r.via) &&
      o == if !r.out.Normal? then r.out else FromResult(ApplyBinary(n.op, l.out.value, r.out.value))
  }

  ghost predicate EvalsUnary(n: Ast.Node, env: Environment, pre: State, post: State, o: Outcome, fuel: nat, d: Derivation)
    requires env.Chained() && n.UnaryOp?
    decreases fuel, n, 1
  {
    var a := Sub(d, 0);
    Evals(n.operand, env, pre, post, a.out, fuel, a.via) &&
    o == if !a.out.Normal? then a.out else FromResult(ApplyUnary(n.uop, a.out.value))
  }

  /** `var name = e`: the value of `e` is bound in `env` itself. */
  ghost predicate EvalsDeclaration(n: Ast.Node, env: Environment, pre: State, post: State, o: Outcome, fuel: nat, d: Derivation)
    requires env.Chained() && n.VarDeclaration?
    decreases fuel, n, 1
  {
    var a := Sub(d, 0);
    Evals(n.value, env, pre, a.post, a.out, fuel, a.via) &&
    if !a.out.Normal? then post == a.post && o == a.out
    else post == a.post.(scopes := Bind(a.post.scopes, env, n.name, a.out.value)) && o == Normal(Value.Nil)
  }

  /** `name = e`: the value of `e` rebinds the name where the chain binds it. */
  ghost predicate EvalsAssignment(n: Ast.Node, env: Environment, pre: State, post: State, o: Outcome, fuel: nat, d: Derivation)
    requires env.Chained() && n.Assignment?
    decreases fuel, n, 1
  {
    var a := Sub(d, 0);
    Evals(n.value, env, pre, a.post, a.out, fuel, a.via) &&
    if !a.out.Normal? then post == a.post && o == a.out
    else match Assign(a.post.scopes, env, n.name, a.out.value)
      case None => post == a.post && o == Error(UndefinedVariable(n.name))
      case Some(s) => post == a.post.(scopes := s) && o == Normal(Value.Nil)
  }

  /** The condition, then the branch it selects (nil when there is none). */
  ghost predicate EvalsIf(n: Ast.Node, env: Environment, pre: State, post: State, o: Outcome, fuel: nat, d: Derivation)
    requires env.Chained() && n.IfStatement?
    decreases fuel, n, 1
  {
    var a := Sub(d, 0);
    Evals(n.condition, env, pre, a.post, a.out, fuel, a.via) &&
    if !a.out.Normal? then post == a.post && o == a.out
    else if IsTruthy(a.out.value) then
      EvalsBlock(n.thenBlock, |n.thenBlock.statements|, env, a.post, post, o, fuel, Sub(d, 1).via)
    else if n.elseBlock.Some? then
      EvalsBlock(n.elseBlock.value, |n.elseBlock.value.statements|, env, a.post, post, o, fuel, Sub(d, 1).via)
    else post == a.post && o == Normal(Value.Nil)
  }

  /** `return`: the return signal, carrying the value of the expression (nil without one). */
  ghost predicate EvalsReturn(n: Ast.Node, env: Environment, pre: State, post: State, o: Outcome, fuel: nat, d: Derivation)
    requires env.Chained() && n.ReturnStatement?
    decreases fuel, n, 1
  {
    if n.result.None? then post == pre && o == Returning(Value.Nil)
    else
      var a := Sub(d, 0);
      Evals(n.result.value, env, pre, post, a.out, fuel, a.via) &&
      o == if a.out.Normal? then Returning(a.out.value) else a.out
  }

  /** A definition: a new function object closing over `env`, bound in `env` itself. */
  ghost predicate EvalsDefinition(n: Ast.Node, env: Environment, pre: State, post: State, o: Outcome, d: Derivation)
    requires n.FunctionDef?
  {
    d.newFun.Some? &&
    (var f := d.newFun.value;
     f !in pre.funs &&
     f.name == n.name && f.parameters == n.parameters && f.body == n.body && f.closure == env &&
     post == State(Bind(pre.scopes, env, n.name, Fun(f)), pre.funs + {f}, pre.out) &&
     o == Normal(Value.Nil))
  }

  /**
   * The first `k` statements of `b`, in order, in the same environment; the
   * outcome is the last one's (nil for none).
   */
  ghost predicate EvalsBlock(b: Ast.Block, k: nat, env: Environment, pre: State, post: State, o: Outcome, fuel: nat, d: Derivation)
    requires env.Chained() && k <= |b.statements|
    decreases fuel, b, k
  {
    if k == 0 then post == pre && o == Normal(Value.Nil)
    else
      var a := Sub(d, 0);
      EvalsBlock(b, k - 1, env, pre, a.post, a.out, fuel, a.via) &&
      if !a.out.Normal? then post == a.post && o == a.out
      else Evals(b.statements[k - 1], env, a.post, post, o, fuel, Sub(d, 1).via)
  }

  /**
   * `k` complete rounds of the loop `w`: each time the condition is truthy and
   * the body ends normally.
   */
  ghost predicate Rounds(w: Ast.Node, env: Environment, pre: State, post: State, k: nat, fuel: nat, d: Derivation)
    requires env.Chained() && w.WhileStatement?
    decreases fuel, w, 0, k
  {
    if k == 0 then post == pre
    else
      var a := Sub(d, 0);
      var c := Sub(d, 1);
      var b := Sub(d, 2);
      Rounds(w, env, pre, a.post, k - 1, fuel, a.via) &&
      Evals(w.condition, env, a.post, c.post, c.out, fuel, c.via) &&
      c.out.Normal? && IsTruthy(c.out.value) &&
      EvalsBlock(w.body, |w.body.statements|, env, c.post, post, b.out, fuel, b.via) &&
      b.out.Normal?
  }

  /**
   * A `while` loop: some number of complete rounds, then a last evaluation of
   * the condition that is falsy (the loop yields nil) or abrupt, or a truthy
   * one followed by a body that ends abruptly.  At most `fuel` rounds run.
   */
  ghost predicate EvalsWhile(w: Ast.Node, env: Environment, pre: State, post: State, o: Outcome, fuel: nat, d: Derivation)
    requires env.Chained() && w.WhileStatement?
    decreases fuel, w, 1
  {
    var k := d.rounds;
    var a := Sub(d, 0);
    var c := Sub(d, 1);
    k <= fuel &&
    Rounds(w, env, pre, a.post, k, fuel, a.via) &&
    Evals(w.condition, env, a.post, c.post, c.out, fuel, c.via) &&
    if !c.out.Normal? then post == c.post && o == c.out
    else if !IsTruthy(c.out.value) then post == c.post && o == Normal(Value.Nil)
    else if k == fuel then post == c.post && o == OutOfFuel
    else EvalsBlock(w.body, |w.body.statements|, env, c.post, post, o, fuel, Sub(d, 2).via) && !o.Normal?
  }

  /** A call: resolve the callee, evaluate the arguments, then apply. */
  ghost predicate EvalsCall(call: Ast.Node, env: Environment, pre: State, post: State, o: Outcome, fuel: nat, d: Derivation)
    requires env.Chained() && call.FunctionCall?
    decreases fuel, call, 1
  {
    match Found(Owner(pre.scopes, env, call.name), pre.scopes, call.name)
    case Err(e) => post == pre && o == Error(e)
    case Ok(callee) =>
      var a := Sub(d, 0);
      EvalsArgs(call, |call.arguments|, env, pre, a.post, a.out, fuel, a.via) &&
      if !a.out.Normal? then post == a.post && o == a.out
      else EvalsApply(call, callee, a.via.values, a.post, post, o, fuel, Sub(d, 1).via)
  }

  /**
   * The first `k` arguments of `call`, left to right, in the caller's
   * environment; when all end normally, `d.values` holds their values.
   */
  ghost predicate EvalsArgs(call: Ast.Node, k: nat, env: Environment, pre: State, post: State, o: Outcome, fuel: nat, d: Derivation)
    requires env.Chained() && call.FunctionCall? && k <= |call.arguments|
    decreases fuel, call, 0, k
  {
    if k == 0 then post == pre && o == Normal(Value.Nil) && d.values == []
    else
      var a := Sub(d, 0);
      EvalsArgs(call, k - 1, env, pre, a.post, a.out, fuel, a.via) &&
      if !a.out.Normal? then post == a.post && o == a.out
      else
        var b := Sub(d, 1);
        Evals(call.arguments[k - 1], env, a.post, post, b.out, fuel, b.via) &&
        if b.out.Normal? then o == Normal(Value.Nil) && d.values == a.via.values + [b.out.value]
        else o == b.out
  }

  /**
   * Applying an evaluated callee to evaluated arguments.  The built-in prints
   * one line.  A user function checks the argument count, then runs its body in
   * a new environment whose parent is the function's closure (not the caller's
   * environment), with the parameters bound in order.
   */
  ghost predicate EvalsApply(call: Ast.Node, callee: Value, args: seq<Value>, pre: State, post: State, o: Outcome, fuel: nat, d: Derivation)
    requires call.FunctionCall?
    decreases fuel, call, 0
  {
    match callee
    case Builtin(Print) => post == pre.(out := pre.out + [PrintLine(args)]) && o == Normal(Value.Nil)
    case Fun(f) =>
      if |args| != |f.parameters| then
        post == pre && o == Error(ArityMismatch(f.name, |f.parameters|, |args|))
      else if fuel == 0 then post == pre && o == OutOfFuel
      else
        d.newEnv.Some? &&
        (var callEnv := d.newEnv.value;
         var b := Sub(d, 0);
         callEnv !in pre.scopes && callEnv.parent == f.closure && callEnv.Chained() &&
         EvalsBlock(f.body, |f.body.statements|, callEnv,
                    pre.(scopes := pre.scopes[callEnv := Params(f.parameters, args)]), post, b.out, fuel - 1, b.via) &&
         o == CallResult(b.out))
    case _ => post == pre && o == Error(NotAFunction(call.name))
  }

  /** The first `k` top-level statements, each value discarded, in the global environment. */
  ghost predicate EvalsProgram(p: Ast.Program, k: nat, env: Environment, pre: State, post: State, o: Outcome, fuel: nat, d: Derivation)
    requires env.Chained() && k <= |p.statements|
    decreases k
  {
    if k == 0 then post == pre && o == Normal(Value.Nil)
    else
      var a := Sub(d, 0);
      EvalsProgram(p, k - 1, env, pre, a.post, a.out, fuel, a.via) &&
      if !a.out.Normal? then post == a.post && o == a.out
      else
        var b := Sub(d, 1);
        Evals(p.statements[k - 1], env, a.post, post, b.out, fuel, b.via) && o == TopLevel(b.out)
  }

  /** One more statement of a block after the first `k` ended normally. */
  lemma BlockStep(b: Ast.Block, k: nat, env: Environment, pre: State, mid: State, post: State,
                  o: Outcome, fuel: nat, d: Derivation, r: Outcome, dr: Derivation)
    requires env.Chained() && k < |b.statements|
    requires EvalsBlock(b, k, env, pre, mid, o, fuel, d) && o.Normal?
    requires Evals(b.statements[k], env, mid, post, r, fuel, dr)
    ensures EvalsBlock(b, k + 1, env, pre, post, r, fuel,
                       Derivation([Step(mid, o, d), Step(post, r, dr)], [], 0, Ast.None, Ast.None))
  {
  }

  /** One more argument after the first `k` ended normally with values `d.values`. */
  lemma ArgsStep(call: Ast.Node, k: nat, env: Environment, pre: State, mid: State, post: State,
                 o: Outcome, fuel: nat, d: Derivation, r: Outcome, dr: Derivation)
    requires env.Chained() && call.FunctionCall? && k < |call.arguments|
    requires EvalsArgs(call, k, env, pre, mid, o, fuel, d) && o.Normal?
    requires Evals(call.arguments[k], env, mid, post, r, fuel, dr)
    ensures EvalsArgs(call, k + 1, env, pre, post, if r.Normal? then Normal(Value.Nil) else r, fuel,
                      Derivation([Step(mid, o, d), Step(post, r, dr)],
                                 if r.Normal? then d.values + [r.value] else [], 0, Ast.None, Ast.None))
  {
  }

  /** One more top-level statement after the first `k` ended normally. */
  lemma ProgramStep(p: Ast.Program, k: nat, env: Environment, pre: State, mid: State, post: State,
                    o: Outcome, fuel: nat, d: Derivation, r: Outcome, dr: Derivation)
    requires env.Chained() && k < |p.statements|
    requires EvalsProgram(p, k, env, pre, mid, o, fuel, d) && o.Normal?
    requires Evals(p.statements[k], env, mid, post, r, fuel, dr)
    ensures EvalsProgram(p, k + 1, env, pre, post, TopLevel(r), fuel,
                         Derivation([Step(mid, o, d), Step(post, r, dr)], [], 0, Ast.None, Ast.None))
  {
  }

  /**
   * A call whose callee `callee` was found: the arguments, then (when they all
   * ended normally) the application to their values.
   */
  lemma CallStep(call: Ast.Node, env: Environment, pre: State, mid: State, post: State, o: Outcome, fuel: nat,
                 callee: Value, a: Outcome, da: Derivation, dr: Derivation)
    requires env.Chained() && call.FunctionCall?
    requires Found(Owner(pre.scopes, env, call.name), pre.scopes, call.name) == Ok(callee)
    requires EvalsArgs(call, |call.arguments|, env, pre, mid, a, fuel, da)
    requires !a.Normal? ==> post == mid && o == a
    requires a.Normal? ==> EvalsApply(call, callee, da.values, mid, post, o, fuel, dr)
    ensures Evals(call, env, pre, post, o, fuel, Derivation([Step(mid, a, da), Step(post, o, dr)], [], 0, Ast.None, Ast.None))
  {
  }

  /** A user function applied to as many arguments as it has parameters, with fuel left. */
  lemma ApplyStep(call: Ast.Node, f: Function, args: seq<Value>, pre: State, entry: State, post: State, fuel: nat,
                  callEnv: Environment, r: Outcome, dr: Derivation)
    requires call.FunctionCall? && |args| == |f.parameters| && fuel > 0
    requires callEnv !in pre.scopes && callEnv.parent == f.closure && callEnv.Chained()
    requires entry == pre.(scopes := pre.scopes[callEnv := Params(f.parameters, args)])
    requires EvalsBlock(f.body, |f.body.statements|, callEnv, entry, post, r, fuel - 1, dr)
    ensures EvalsApply(call, Fun(f), args, pre, post, CallResult(r), fuel,
                       Derivation([Step(post, r, dr)], [], 0, Ast.Some(callEnv), Ast.None))
  {
  }

  /** A truthy condition followed by a body that ends normally adds one complete round. */
  lemma RoundsStep(w: Ast.Node, env: Environment, pre: State, mid: State, tested: State, post: State,
                   k: nat, fuel: nat, dk: Derivation, c: Outcome, dc: Derivation, r: Outcome, dr: Derivation)
    requires env.Chained() && w.WhileStatement?
    requires Rounds(w, env, pre, mid, k, fuel, dk)
    requires Evals(w.condition, env, mid, tested, c, fuel, dc) && c.Normal? && IsTruthy(c.value)
    requires EvalsBlock(w.body, |w.body.statements|, env, tested, post, r, fuel, dr) && r.Normal?
    ensures Rounds(w, env, pre, post, k + 1, fuel,
                   Derivation([Step(mid, Normal(Value.Nil), dk), Step(tested, c, dc), Step(post, r, dr)], [], 0, Ast.None, Ast.None))
  {
  }

  /**
   * The loop ends after `k` rounds: at the condition when it is abrupt or
   * falsy or the fuel is spent, otherwise in a body that ends abruptly.
   */
  lemma WhileEnds(w: Ast.Node, env: Environment, pre: State, mid: State, tested: State, post: State, o: Outcome,
                  k: nat, fuel: nat, dk: Derivation, c: Outcome, dc: Derivation, r: Outcome, dr: Derivation)
    requires env.Chained() && w.WhileStatement? && k <= fuel
    requires Rounds(w, env, pre, mid, k, fuel, dk)
    requires Evals(w.condition, env, mid, tested, c, fuel, dc)
    requires !c.Normal? ==> post == tested && o == c
    requires c.Normal? && !IsTruthy(c.value) ==> post == tested && o == Normal(Value.Nil)
    requires c.Normal? && IsTruthy(c.value) && k == fuel ==> post == tested && o == OutOfFuel
    requires c.Normal? && IsTruthy(c.value) && k < fuel ==>
               EvalsBlock(w.body, |w.body.statements|, env, tested, post, r, fuel, dr) && !r.Normal? && o == r
    ensures Evals(w, env, pre, post, o, fuel,
                  Derivation([Step(mid, Normal(Value.Nil), dk), Step(tested, c, dc), Step(post, r, dr)], [], k, Ast.None, Ast.None))
  {
  }

  // ---------------------------------------------------------------------------
  // Evaluations cut short

  /**
   * The derivation of a sequence evaluation that ended abruptly with `o` in
   * `post` and then skipped `n` more elements: each skipped element only
   * passes the outcome on.
   */
  function Stopped(d: Derivation, post: State, o: Outcome, n: nat): Derivation
  {
    if n == 0 then d else Skip(Stopped(d, post, o, n - 1), post, o)
  }

  /** One more skipped element after an abrupt outcome `o` in `post`. */
  function Skip(d: Derivation, post: State, o: Outcome): Derivation
  {
    Derivation([Step(post, o, d)], [], 0, Ast.None, Ast.None)
  }

  lemma BlockSkips(b: Ast.Block, k: nat, env: Environment, pre: State, post: State, o: Outcome, fuel: nat, d: Derivation)
    requires env.Chained() && k < |b.statements|
    requires EvalsBlock(b, k, env, pre, post, o, fuel, d) && !o.Normal?
    ensures EvalsBlock(b, k + 1, env, pre, post, o, fuel, Skip(d, post, o))
  {
  }

  lemma ArgsSkip(call: Ast.Node, k: nat, env: Environment, pre: State, post: State, o: Outcome, fuel: nat, d: Derivation)
    requires env.Chained() && call.FunctionCall? && k < |call.arguments|
    requires EvalsArgs(call, k, env, pre, post, o, fuel, d) && !o.Normal?
    ensures EvalsArgs(call, k + 1, env, pre, post, o, fuel, Skip(d, post, o))
  {
  }

  lemma ProgramSkips(p: Ast.Program, k: nat, env: Environment, pre: State, post: State, o: Outcome, fuel: nat, d: Derivation)
    requires env.Chained() && k < |p.statements|
    requires EvalsProgram(p, k, env, pre, post, o, fuel, d) && !o.Normal?
    ensures EvalsProgram(p, k + 1, env, pre, post, o, fuel, Skip(d, post, o))
  {
  }

  /** An abrupt outcome of the first `k` statements is the outcome of the whole block. */
  lemma {:induction false} BlockStops(b: Ast.Block, k: nat, env: Environment, pre: State, post: State, o: Outcome,
                                      fuel: nat, d: Derivation, j: nat)
    requires env.Chained() && k + j <= |b.statements|
    requires EvalsBlock(b, k, env, pre, post, o, fuel, d) && !o.Normal?
    ensures EvalsBlock(b, k + j, env, pre, post, o, fuel, Stopped(d, post, o, j))
    decreases j
  {
    if j > 0 {
      BlockStops(b, k, env, pre, post, o, fuel, d, j - 1);
      BlockSkips(b, k + j - 1, env, pre, post, o, fuel, Stopped(d, post, o, j - 1));
    }
  }

  /** An abrupt outcome of the first `k` arguments is the outcome of the whole argument list. */
  lemma {:induction false} ArgsStop(call: Ast.Node, k: nat, env: Environment, pre: State, post: State, o: Outcome,
                                    fuel: nat, d: Derivation, j: nat)
    requires env.Chained() && call.FunctionCall? && k + j <= |call.arguments|
    requires EvalsArgs(call, k, env, pre, post, o, fuel, d) && !o.Normal?
    ensures EvalsArgs(call, k + j, env, pre, post, o, fuel, Stopped(d, post, o, j))
    decreases j
  {
    if j > 0 {
      ArgsStop(call, k, env, pre, post, o, fuel, d, j - 1);
      ArgsSkip(call, k + j - 1, env, pre, post, o, fuel, Stopped(d, post, o, j - 1));
    }
  }

  /** An abrupt outcome of the first `k` top-level statements ends the program. */
  lemma {:induction false} ProgramStops(p: Ast.Program, k: nat, env: Environment, pre: State, post: State, o: Outcome,
                                        fuel: nat, d: Derivation, j: nat)
    requires env.Chained() && k + j <= |p.statements|
    requires EvalsProgram(p, k, env, pre, post, o, fuel, d) && !o.Normal?
    ensures EvalsProgram(p, k + j, env, pre, post, o, fuel, Stopped(d, post, o, j))
    decreases j
  {
    if j > 0 {
      ProgramStops(p, k, env, pre, post, o, fuel, d, j - 1);
      ProgramSkips(p, k + j - 1, env, pre, post, o, fuel, Stopped(d, post, o, j - 1));
    }
  }

  // ---------------------------------------------------------------------------
  // Properties of evaluation

  /** A program never ends with the return signal: a top-level `return` is an error. */
  lemma {:induction false} ProgramNeverReturns(p: Ast.Program, k: nat, env: Environment, pre: State, post: State,
                                               o: Outcome, fuel: nat, d: Derivation)
    requires env.Chained() && k <= |p.statements|
    requires EvalsProgram(p, k, env, pre, post, o, fuel, d)
    ensures !o.Returning?
    decreases k
  {
    if k > 0 {
      var a := Sub(d, 0);
      ProgramNeverReturns(p, k - 1, env, pre, a.post, a.out, fuel, a.via);
    }
  }
}
