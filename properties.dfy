/**
 * Properties of the evaluation relation of `Semantics`.
 *
 * An expression built from literals, variables and operators has exactly one
 * evaluation: it changes nothing and its outcome is what a direct recursive
 * reading of the bindings computes.  Any evaluation only adds to the state:
 * lines are appended to the output, environments and function objects are
 * added, and no binding ever disappears.  Inside a call, the body sees its
 * parameters and, for every other name, what the closure sees.  A loop that
 * ends normally yields nil, right after a falsy condition.  A call never
 * passes the return signal on.
 */
module Properties {
  import Ast
  import opened Environments
  import opened Operators
  import opened Semantics

  // ---------------------------------------------------------------------------
  // Expressions without side effects

  /** Literals and variables combined by operators: no call, assignment or definition. */
  predicate IsPure(n: Ast.Node)
  {
    match n
    case Number(_) => true
    case String(_) => true
    case Boolean(_) => true
    case Nil => true
    case Variable(_) => true
    case BinaryOp(_, l, r) => IsPure(l) && IsPure(r)
    case UnaryOp(_, a) => IsPure(a)
    case _ => false
  }

  /**
   * The outcome of a pure expression read directly off the bindings `s`: the
   * left operand first, and the first error is the outcome.  It is never the
   * return signal and never needs fuel.
   */
  ghost function PureValue(n: Ast.Node, s: Scopes, env: Environment): (o: Outcome)
    requires IsPure(n) && env.Chained()
    ensures o.Normal? || o.Error?
    ensures o.Normal? ==> !o.value.Fun? || n.Variable?
  {
    match n
    case Number(x) => Normal(Num(x))
    case String(t) => Normal(Str(t))
    case Boolean(b) => Normal(Bool(b))
    case Nil => Normal(Value.Nil)
    case Variable(name) => FromResult(Found(Owner(s, env, name), s, name))
    case BinaryOp(op, l, r) =>
      var a := PureValue(l, s, env);
      if !a.Normal? then a
      else
        var b := PureValue(r, s, env);
        if !b.Normal? then b else FromResult(ApplyBinary(op, a.value, b.value))
    case UnaryOp(op, x) =>
      var a := PureValue(x, s, env);
      if !a.Normal? then a else FromResult(ApplyUnary(op, a.value))
  }

  /** The derivation of the evaluation of a pure expression in `pre`. */
  ghost function PureDerivation(n: Ast.Node, env: Environment, pre: State): Derivation
    requires IsPure(n) && env.Chained()
  {
    match n
    case BinaryOp(_, l, r) =>
      Derivation([Step(pre, PureValue(l, pre.scopes, env), PureDerivation(l, env, pre)),
                  Step(pre, PureValue(r, pre.scopes, env), PureDerivation(r, env, pre))], [], 0, Ast.None, Ast.None)
    case UnaryOp(_, x) =>
      Derivation([Step(pre, PureValue(x, pre.scopes, env), PureDerivation(x, env, pre))], [], 0, Ast.None, Ast.None)
    case _ => Leaf
  }

  /** Every evaluation of a pure expression leaves the state as it was and yields its `PureValue`. */
  lemma {:induction false} PureEvaluationIsPureValue(n: Ast.Node, env: Environment, pre: State, post: State,
                                                     o: Outcome, fuel: nat, d: Derivation)
    requires IsPure(n) && env.Chained()
    requires Evals(n, env, pre, post, o, fuel, d)
    ensures post == pre && o == PureValue(n, pre.scopes, env)
    decreases n
  {
    match n
    case BinaryOp(_, l, r) =>
      var a := Sub(d, 0);
      PureEvaluationIsPureValue(l, env, pre, a.post, a.out, fuel, a.via);
      if a.out.Normal? {
        var b := Sub(d, 1);
        PureEvaluationIsPureValue(r, env, a.post, post, b.out, fuel, b.via);
      }
    case UnaryOp(_, x) =>
      var a := Sub(d, 0);
      PureEvaluationIsPureValue(x, env, pre, post, a.out, fuel, a.via);
    case _ =>
  }

  /** Conversely, every pure expression does evaluate to its `PureValue`, with any fuel. */
  lemma {:induction false} PureValueEvaluates(n: Ast.Node, env: Environment, pre: State, fuel: nat)
    requires IsPure(n) && env.Chained()
    ensures Evals(n, env, pre, pre, PureValue(n, pre.scopes, env), fuel, PureDerivation(n, env, pre))
    decreases n
  {
    match n
    case BinaryOp(_, l, r) =>
      PureValueEvaluates(l, env, pre, fuel);
      PureValueEvaluates(r, env, pre, fuel);
    case UnaryOp(_, x) =>
      PureValueEvaluates(x, env, pre, fuel);
    case _ =>
  }

  // ---------------------------------------------------------------------------
  // Evaluation only adds to the state

  /**
   * `post` extends `pre`: the output only gains lines at its end, environments
   * and function objects are only added, and no environment loses a binding.
   */
  ghost predicate Grows(pre: State, post: State)
  {
    && pre.out <= post.out
    && pre.funs <= post.funs
    && pre.scopes.Keys <= post.scopes.Keys
    && forall e :: e in pre.scopes ==> pre.scopes[e].Keys <= post.scopes[e].Keys
  }

  lemma GrowsTransitive(a: State, b: State, c: State)
    requires Grows(a, b) && Grows(b, c)
    ensures Grows(a, c)
  {
  }

  /** `define` only adds a binding. */
  lemma BindGrows(s: State, env: Environment, name: string, v: Value)
    ensures Grows(s, s.(scopes := Bind(s.scopes, env, name, v)))
  {
  }

  lemma {:induction false} EvalsGrows(n: Ast.Node, env: Environment, pre: State, post: State,
                                      o: Outcome, fuel: nat, d: Derivation)
    requires env.Chained() && Evals(n, env, pre, post, o, fuel, d)
    ensures Grows(pre, post)
    decreases fuel, n, 2
  {
    match n
    case BinaryOp(_, _, _) => BinaryGrows(n, env, pre, post, o, fuel, d);
    case UnaryOp(_, x) => EvalsGrows(x, env, pre, post, Sub(d, 0).out, fuel, Sub(d, 0).via);
    case VarDeclaration(_, _) => DeclarationGrows(n, env, pre, post, o, fuel, d);
    case Assignment(_, _) => AssignmentGrows(n, env, pre, post, o, fuel, d);
    case BlockNode(b) => BlockGrows(b, |b.statements|, env, pre, post, o, fuel, d);
    case IfStatement(_, _, _) => IfGrows(n, env, pre, post, o, fuel, d);
    case WhileStatement(_, _) => WhileGrows(n, env, pre, post, o, fuel, d);
    case ReturnStatement(r) =>
      if r.Some? {
        EvalsGrows(r.value, env, pre, post, Sub(d, 0).out, fuel, Sub(d, 0).via);
      }
    case ExpressionStatement(e) => EvalsGrows(e, env, pre, post, o, fuel, d);
    case FunctionDef(name, _, _) => BindGrows(pre, env, name, Fun(d.newFun.value));
    case FunctionCall(_, _) => CallGrows(n, env, pre, post, o, fuel, d);
    case _ =>
  }

  lemma {:induction false} BinaryGrows(n: Ast.Node, env: Environment, pre: State, post: State,
                                       o: Outcome, fuel: nat, d: Derivation)
    requires env.Chained() && n.BinaryOp? && EvalsBinary(n, env, pre, post, o, fuel, d)
    ensures Grows(pre, post)
    decreases fuel, n, 1
  {
    var l := Sub(d, 0);
    EvalsGrows(n.left, env, pre, l.post, l.out, fuel, l.via);
    if l.out.Normal? {
      var r := Sub(d, 1);
      EvalsGrows(n.right, env, l.post, post, r.out, fuel, r.via);
      GrowsTransitive(pre, l.post, post);
    }
  }

  lemma {:induction false} DeclarationGrows(n: Ast.Node, env: Environment, pre: State, post: State,
                                            o: Outcome, fuel: nat, d: Derivation)
    requires env.Chained() && n.VarDeclaration? && EvalsDeclaration(n, env, pre, post, o, fuel, d)
    ensures Grows(pre, post)
    decreases fuel, n, 1
  {
    var a := Sub(d, 0);
    EvalsGrows(n.value, env, pre, a.post, a.out, fuel, a.via);
    if a.out.Normal? {
      BindGrows(a.post, env, n.name, a.out.value);
      GrowsTransitive(pre, a.post, post);
    }
  }

  lemma {:induction false} AssignmentGrows(n: Ast.Node, env: Environment, pre: State, post: State,
                                           o: Outcome, fuel: nat, d: Derivation)
    requires env.Chained() && n.Assignment? && EvalsAssignment(n, env, pre, post, o, fuel, d)
    ensures Grows(pre, post)
    decreases fuel, n, 1
  {
    var a := Sub(d, 0);
    EvalsGrows(n.value, env, pre, a.post, a.out, fuel, a.via);
    if a.out.Normal? {
      AssignKeepsNames(a.post.scopes, env, n.name, a.out.value);
      GrowsTransitive(pre, a.post, post);
    }
  }

  lemma {:induction false} IfGrows(n: Ast.Node, env: Environment, pre: State, post: State,
                                   o: Outcome, fuel: nat, d: Derivation)
    requires env.Chained() && n.IfStatement? && EvalsIf(n, env, pre, post, o, fuel, d)
    ensures Grows(pre, post)
    decreases fuel, n, 1
  {
    var a := Sub(d, 0);
    EvalsGrows(n.condition, env, pre, a.post, a.out, fuel, a.via);
    if a.out.Normal? {
      if IsTruthy(a.out.value) {
        BlockGrows(n.thenBlock, |n.thenBlock.statements|, env, a.post, post, o, fuel, Sub(d, 1).via);
      } else if n.elseBlock.Some? {
        BlockGrows(n.elseBlock.value, |n.elseBlock.value.statements|, env, a.post, post, o, fuel, Sub(d, 1).via);
      }
      GrowsTransitive(pre, a.post, post);
    }
  }

  lemma {:induction false} BlockGrows(b: Ast.Block, k: nat, env: Environment, pre: State, post: State,
                                      o: Outcome, fuel: nat, d: Derivation)
    requires env.Chained() && k <= |b.statements| && EvalsBlock(b, k, env, pre, post, o, fuel, d)
    ensures Grows(pre, post)
    decreases fuel, b, k
  {
    if k > 0 {
      var a := Sub(d, 0);
      BlockGrows(b, k - 1, env, pre, a.post, a.out, fuel, a.via);
      if a.out.Normal? {
        EvalsGrows(b.statements[k - 1], env, a.post, post, o, fuel, Sub(d, 1).via);
        GrowsTransitive(pre, a.post, post);
      }
    }
  }

  lemma {:induction false} RoundsGrow(w: Ast.Node, env: Environment, pre: State, post: State,
                                      k: nat, fuel: nat, d: Derivation)
    requires env.Chained() && w.WhileStatement? && Rounds(w, env, pre, post, k, fuel, d)
    ensures Grows(pre, post)
    decreases fuel, w, 0, k
  {
    if k > 0 {
      var a := Sub(d, 0);
      var c := Sub(d, 1);
      var b := Sub(d, 2);
      RoundsGrow(w, env, pre, a.post, k - 1, fuel, a.via);
      EvalsGrows(w.condition, env, a.post, c.post, c.out, fuel, c.via);
      BlockGrows(w.body, |w.body.statements|, env, c.post, post, b.out, fuel, b.via);
      GrowsTransitive(pre, a.post, c.post);
      GrowsTransitive(pre, c.post, post);
    }
  }

  lemma {:induction false} WhileGrows(w: Ast.Node, env: Environment, pre: State, post: State,
                                      o: Outcome, fuel: nat, d: Derivation)
    requires env.Chained() && w.WhileStatement? && EvalsWhile(w, env, pre, post, o, fuel, d)
    ensures Grows(pre, post)
    decreases fuel, w, 1
  {
    var a := Sub(d, 0);
    var c := Sub(d, 1);
    RoundsGrow(w, env, pre, a.post, d.rounds, fuel, a.via);
    EvalsGrows(w.condition, env, a.post, c.post, c.out, fuel, c.via);
    GrowsTransitive(pre, a.post, c.post);
    if c.out.Normal? && IsTruthy(c.out.value) && d.rounds < fuel {
      BlockGrows(w.body, |w.body.statements|, env, c.post, post, o, fuel, Sub(d, 2).via);
      GrowsTransitive(pre, c.post, post);
    }
  }

  lemma {:induction false} CallGrows(call: Ast.Node, env: Environment, pre: State, post: State,
                                     o: Outcome, fuel: nat, d: Derivation)
    requires env.Chained() && call.FunctionCall? && EvalsCall(call, env, pre, post, o, fuel, d)
    ensures Grows(pre, post)
    decreases fuel, call, 1
  {
    var found := Found(Owner(pre.scopes, env, call.name), pre.scopes, call.name);
    if found.Ok? {
      var a := Sub(d, 0);
      ArgsGrow(call, |call.arguments|, env, pre, a.post, a.out, fuel, a.via);
      if a.out.Normal? {
        ApplyGrows(call, found.value, a.via.values, a.post, post, o, fuel, Sub(d, 1).via);
        GrowsTransitive(pre, a.post, post);
      }
    }
  }

  lemma {:induction false} ArgsGrow(call: Ast.Node, k: nat, env: Environment, pre: State, post: State,
                                    o: Outcome, fuel: nat, d: Derivation)
    requires env.Chained() && call.FunctionCall? && k <= |call.arguments|
    requires EvalsArgs(call, k, env, pre, post, o, fuel, d)
    ensures Grows(pre, post)
    decreases fuel, call, 0, k
  {
    if k > 0 {
      var a := Sub(d, 0);
      ArgsGrow(call, k - 1, env, pre, a.post, a.out, fuel, a.via);
      if a.out.Normal? {
        var b := Sub(d, 1);
        EvalsGrows(call.arguments[k - 1], env, a.post, post, b.out, fuel, b.via);
        GrowsTransitive(pre, a.post, post);
      }
    }
  }

  lemma {:induction false} ApplyGrows(call: Ast.Node, callee: Value, args: seq<Value>, pre: State, post: State,
                                      o: Outcome, fuel: nat, d: Derivation)
    requires call.FunctionCall? && EvalsApply(call, callee, args, pre, post, o, fuel, d)
    ensures Grows(pre, post)
    decreases fuel, call, 0
  {
    if callee.Fun? && |args| == |callee.f.parameters| && fuel > 0 {
      var f := callee.f;
      var callEnv := d.newEnv.value;
      var entry := pre.(scopes := pre.scopes[callEnv := Params(f.parameters, args)]);
      assert Grows(pre, entry);
      BlockGrows(f.body, |f.body.statements|, callEnv, entry, post, Sub(d, 0).out, fuel - 1, Sub(d, 0).via);
      GrowsTransitive(pre, entry, post);
    }
  }

  // ---------------------------------------------------------------------------
  // Calls and loops

  /**
   * At the entry of a call, a parameter is seen with the argument in its
   * position (the last one, when a parameter name repeats), and every other
   * name exactly as from the closure: the caller's environment plays no part.
   */
  lemma CallScopeIsLexical(s: Scopes, f: Function, callEnv: Environment, args: seq<Value>, name: string)
    requires callEnv.Chained() && callEnv.parent == f.closure && |args| == |f.parameters|
    ensures name in f.parameters ==>
              Lookup(s[callEnv := Params(f.parameters, args)], callEnv, name) == Ast.Some(Params(f.parameters, args)[name])
    ensures name !in f.parameters ==>
              Lookup(s[callEnv := Params(f.parameters, args)], callEnv, name) == Lookup(s, f.closure, name)
    ensures forall i :: 0 <= i < |f.parameters| && f.parameters[i] == name && name !in f.parameters[i + 1..] ==>
              Lookup(s[callEnv := Params(f.parameters, args)], callEnv, name) == Ast.Some(args[i])
  {
    var s' := s[callEnv := Params(f.parameters, args)];
    OwnerLocal(s', s, f.closure, name);
    ParamsByPosition(f.parameters, args);
  }

  /** An undefined callee is an error before any argument is evaluated: nothing changes. */
  lemma CalleeResolvedFirst(call: Ast.Node, env: Environment, pre: State, post: State, o: Outcome, fuel: nat, d: Derivation)
    requires env.Chained() && call.FunctionCall? && Evals(call, env, pre, post, o, fuel, d)
    ensures Lookup(pre.scopes, env, call.name).None? ==> post == pre && o == Error(UndefinedVariable(call.name))
  {
  }

  /**
   * Applying a callee never yields the return signal: a body's return signal
   * becomes the call's value, and a body that ends normally yields nil.
   */
  lemma ApplyNeverReturns(call: Ast.Node, callee: Value, args: seq<Value>, pre: State, post: State,
                          o: Outcome, fuel: nat, d: Derivation)
    requires call.FunctionCall? && EvalsApply(call, callee, args, pre, post, o, fuel, d)
    ensures !o.Returning?
    ensures !callee.Fun? && !callee.Builtin? ==> o == Error(NotAFunction(call.name)) && post == pre
    ensures callee.Fun? && |args| != |callee.f.parameters| ==>
              o == Error(ArityMismatch(callee.f.name, |callee.f.parameters|, |args|)) && post == pre
  {
  }

  /**
   * A loop ends normally exactly when its last condition was falsy, and then
   * yields nil.
   */
  lemma WhileYieldsNil(w: Ast.Node, env: Environment, pre: State, post: State, o: Outcome, fuel: nat, d: Derivation)
    requires env.Chained() && w.WhileStatement? && Evals(w, env, pre, post, o, fuel, d)
    ensures o.Normal? ==> o == Normal(Value.Nil)
    ensures o.Normal? <==> Sub(d, 1).out.Normal? && !IsTruthy(Sub(d, 1).out.value)
  {
  }
}
