/**
 * The tree-walking evaluator.  An `Interpreter` owns the global environment
 * (holding the built-in `print`) and the lines printed so far.  Its ghost
 * fields name every environment and function object created during the run,
 * so that each method can be proved against the evaluation relation of
 * `Semantics`: the snapshot before, the snapshot after and the outcome of every
 * method call are related as the matching rule says.
 *
 * Exceptions of the host language become outcomes: an error or the return
 * signal is passed back to the caller, which stops what it was doing and
 * passes it on in turn, until a function call catches the return signal.
 */
module Interpreter {
  import Ast
  import opened Environments
  import opened Operators
  import opened Semantics

  /** Every function object held in `v` is one of `funs`. */
  ghost predicate ValueIn(v: Value, funs: set<Function>)
  {
    v.Fun? ==> v.f in funs
  }

  ghost predicate OutcomeIn(o: Outcome, funs: set<Function>)
  {
    (o.Normal? || o.Returning?) ==> ValueIn(o.value, funs)
  }

  /** Every function object bound in `s` is one of `funs`. */
  ghost predicate ScopesIn(s: Scopes, funs: set<Function>)
  {
    forall e, x :: e in s && x in s[e] ==> ValueIn(s[e][x], funs)
  }

  lemma BindIn(s: Scopes, e: Environment, name: string, v: Value, funs: set<Function>)
    requires ScopesIn(s, funs) && ValueIn(v, funs)
    ensures ScopesIn(Bind(s, e, name, v), funs)
  {
  }

  lemma AssignIn(s: Scopes, e: Environment, name: string, v: Value, funs: set<Function>)
    requires e.Chained() && ScopesIn(s, funs) && ValueIn(v, funs) && Assign(s, e, name, v).Some?
    ensures ScopesIn(Assign(s, e, name, v).value, funs)
  {
  }

  /** Every environment of `envs` has a finite chain, and its parent is in `envs` too. */
  ghost predicate Closed(envs: set<Environment>)
  {
    forall e :: e in envs ==> e.Chained() && (e.parent != null ==> e.parent in envs)
  }

  lemma {:induction false} ChainWithin(e: Environment, envs: set<Environment>)
    requires Closed(envs) && e in envs
    ensures e.Chain() <= envs
    decreases e.depth
  {
    if e.parent != null {
      ChainWithin(e.parent, envs);
    }
  }

  /** `s` holds the current bindings of every environment in `envs`. */
  ghost predicate Mirrors(s: Scopes, envs: set<Environment>)
    reads envs
  {
    s.Keys == envs && forall e :: e in envs ==> s[e] == e.values
  }

  /** Looking a name up in a mirror of the heap is looking it up along the chain. */
  lemma OwnerWithin(s: Scopes, envs: set<Environment>, e: Environment, name: string)
    requires Closed(envs) && Mirrors(s, envs) && e in envs
    ensures e.Chain() <= envs
    ensures Owner(s, e, name) == Owner(Snapshot(e.Chain()), e, name)
    ensures Found(Owner(s, e, name), s, name) == Found(Owner(Snapshot(e.Chain()), e, name), Snapshot(e.Chain()), name)
  {
    ChainWithin(e, envs);
    OwnerLocal(s, Snapshot(e.Chain()), e, name);
  }

  /**
   * What `set` leaves in the heap is `Assign` on the snapshot before it: `after`
   * differs from `s` only where `set` may write, and there as `set` writes.
   */
  lemma AssignMirrorsSet(s: Scopes, after: Scopes, e: Environment, name: string, v: Value)
    requires e.Chained() && e.Chain() <= s.Keys && after.Keys == s.Keys
    requires forall a :: a in s && a !in e.Chain() ==> after[a] == s[a]
    requires Owner(s, e, name).None? ==> forall a :: a in e.Chain() ==> after[a] == s[a]
    requires Owner(s, e, name).Some? ==>
               after[Owner(s, e, name).value] == s[Owner(s, e, name).value][name := v] &&
               forall a :: a in e.Chain() && a != Owner(s, e, name).value ==> after[a] == s[a]
    ensures Owner(s, e, name).None? ==> after == s
    ensures Owner(s, e, name).Some? ==> after == Assign(s, e, name, v).value
  {
  }

  /**
   * The environment of a call: a child of the function's closure, with each
   * parameter defined in order (a repeated parameter keeps the last argument).
   */
  method NewCallEnvironment(f: Function, args: seq<Value>) returns (callEnv: Environment)
    requires f.closure.Chained() && |args| == |f.parameters|
    ensures fresh(callEnv) && callEnv.parent == f.closure && callEnv.Chained()
    ensures callEnv.values == Params(f.parameters, args)
  {
    callEnv := new Environment(f.closure);
    var i := 0;
    while i < |args|
      invariant i <= |args|
      invariant callEnv.values == Params(f.parameters[..i], args[..i])
      modifies callEnv
    {
      callEnv.Define(f.parameters[i], args[i]);
      assert f.parameters[..i + 1][..i] == f.parameters[..i];
      assert args[..i + 1][..i] == args[..i];
      i := i + 1;
    }
    assert f.parameters[..i] == f.parameters && args[..i] == args;
  }

  class Interpreter {
    const globals: Environment
    var output: seq<string>
    ghost var envs: set<Environment>
    ghost var funs: set<Function>
    /** The bindings of every environment in `envs`. */
    ghost var scopes: Scopes

    ghost predicate Valid()
      reads this, envs
    {
      && globals in envs
      && Closed(envs)
      && Mirrors(scopes, envs)
      && (forall f :: f in funs ==> f.closure in envs)
      && ScopesIn(scopes, funs)
    }

    /** The observable state: every environment's bindings, the functions, the output. */
    ghost function Current(): State
      reads this
    {
      State(scopes, funs, output)
    }

    /** A fresh interpreter: one global environment binding `print` to the built-in. */
    constructor ()
      ensures Valid() && fresh(envs) && funs == {} && output == []
      ensures envs == {globals} && globals.parent == null
      ensures globals.values == map["print" := Builtin(Print)]
    {
      var g := new Environment(null);
      g.Define("print", Builtin(Print));
      globals := g;
      output := [];
      envs := {g};
      funs := {};
      scopes := map[g := g.values];
    }

    /** The built-in `print`: one line, the renderings joined by spaces. */
    method BuiltinPrint(args: seq<Value>)
      modifies this
      ensures output == old(output) + [PrintLine(args)]
      ensures envs == old(envs) && funs == old(funs) && scopes == old(scopes)
    {
      output := output + [PrintLine(args)];
    }

    /** `define` on `env`, with the mirror kept in step. */
    method Declare(env: Environment, name: string, v: Value)
      requires Valid() && env in envs && ValueIn(v, funs)
      modifies this, env
      ensures Valid() && envs == old(envs) && funs == old(funs) && output == old(output)
      ensures scopes == Bind(old(scopes), env, name, v)
    {
      env.Define(name, v);
      BindIn(scopes, env, name, v, funs);
      scopes := Bind(scopes, env, name, v);
    }

    /** `set` on `env`, with the mirror kept in step. */
    method Rebind(env: Environment, name: string, v: Value) returns (r: Result<()>)
      requires Valid() && env in envs && ValueIn(v, funs)
      modifies this, envs
      ensures Valid() && envs == old(envs) && funs == old(funs) && output == old(output)
      ensures Assign(old(scopes), env, name, v).None? ==>
                r == Err(UndefinedVariable(name)) && scopes == old(scopes)
      ensures Assign(old(scopes), env, name, v).Some? ==>
                r.Ok? && scopes == Assign(old(scopes), env, name, v).value
    {
      OwnerWithin(scopes, envs, env, name);
      ghost var s0 := scopes;
      r := env.Set(name, v);
      ghost var after := Snapshot(envs);
      AssignMirrorsSet(s0, after, env, name, v);
      if Owner(s0, env, name).Some? {
        AssignIn(scopes, env, name, v, funs);
        scopes := Assign(scopes, env, name, v).value;
      }
    }

    /** A function definition: a new function object closing over `env`, bound in `env`. */
    method DefineFunction(n: Ast.Node, env: Environment) returns (f: Function)
      requires Valid() && env in envs && n.FunctionDef?
      modifies this, env
      ensures Valid() && envs == old(envs) && funs == old(funs) + {f} && output == old(output)
      ensures fresh(f) && f.name == n.name && f.parameters == n.parameters && f.body == n.body && f.closure == env
      ensures scopes == Bind(old(scopes), env, n.name, Fun(f))
    {
      f := new Function(n.name, n.parameters, n.body, env);
      env.Define(n.name, Fun(f));
      funs := funs + {f};
      BindIn(scopes, env, n.name, Fun(f), funs);
      scopes := Bind(scopes, env, n.name, Fun(f));
    }

    /** Creates the environment of a call and adds it to the mirror. */
    method Enter(f: Function, args: seq<Value>) returns (callEnv: Environment)
      requires Valid() && f in funs && |args| == |f.parameters|
      requires forall v :: v in args ==> ValueIn(v, funs)
      modifies this
      ensures Valid() && fresh(callEnv) && envs == old(envs) + {callEnv}
      ensures funs == old(funs) && output == old(output)
      ensures callEnv.parent == f.closure && callEnv.Chained()
      ensures scopes == old(scopes)[callEnv := Params(f.parameters, args)]
    {
      callEnv := NewCallEnvironment(f, args);
      envs := envs + {callEnv};
      scopes := scopes[callEnv := Params(f.parameters, args)];
    }

    /** Runs the top-level statements in the global environment. */
    method Interpret(p: Ast.Program, fuel: nat) returns (o: Outcome, ghost d: Derivation)
      requires Valid()
      modifies this, envs
      ensures Valid() && old(envs) <= envs && (forall e :: e in envs ==> e in old(envs) || fresh(e)) && old(funs) <= funs
      ensures EvalsProgram(p, |p.statements|, globals, old(Current()), Current(), o, fuel, d)
      ensures !o.Returning?
    {
      o, d := EvalProgram(p, globals, fuel);
      ProgramNeverReturns(p, |p.statements|, globals, old(Current()), Current(), o, fuel, d);
    }

    method EvalProgram(p: Ast.Program, env: Environment, fuel: nat) returns (o: Outcome, ghost d: Derivation)
      requires Valid() && env in envs
      modifies this, envs
      ensures Valid() && old(envs) <= envs && (forall e :: e in envs ==> e in old(envs) || fresh(e)) && old(funs) <= funs
      ensures EvalsProgram(p, |p.statements|, env, old(Current()), Current(), o, fuel, d)
    {
      o, d := Normal(Value.Nil), Leaf;
      var i := 0;
      while i < |p.statements|
        invariant i <= |p.statements|
        invariant Valid() && env in envs && old(envs) <= envs && (forall e :: e in envs ==> e in old(envs) || fresh(e)) && old(funs) <= funs
        invariant o == Normal(Value.Nil)
        invariant EvalsProgram(p, i, env, old(Current()), Current(), o, fuel, d)
      {
        ghost var mid := Current();
        var r;
        ghost var dr;
        r, dr := Eval(p.statements[i], env, fuel);
        ProgramStep(p, i, env, old(Current()), mid, Current(), o, fuel, d, r, dr);
        d := Derivation([Step(mid, o, d), Step(Current(), r, dr)], [], 0, Ast.None, Ast.None);
        o := TopLevel(r);
        if !o.Normal? {
          ProgramStops(p, i + 1, env, old(Current()), Current(), o, fuel, d, |p.statements| - (i + 1));
          d := Stopped(d, Current(), o, |p.statements| - (i + 1));
          return;
        }
        i := i + 1;
      }
    }

    /** Evaluates one node: literals directly, other nodes by their own rule. */
    method Eval(n: Ast.Node, env: Environment, fuel: nat) returns (o: Outcome, ghost d: Derivation)
      requires Valid() && env in envs
      modifies this, envs
      ensures Valid() && old(envs) <= envs && (forall e :: e in envs ==> e in old(envs) || fresh(e)) && old(funs) <= funs
      ensures OutcomeIn(o, funs)
      ensures Evals(n, env, old(Current()), Current(), o, fuel, d)
      decreases fuel, n, 2
    {
      match n
      case Number(x) => o, d := Normal(Num(x)), Leaf;
      case String(s) => o, d := Normal(Str(s)), Leaf;
      case Boolean(b) => o, d := Normal(Bool(b)), Leaf;
      case Nil => o, d := Normal(Value.Nil), Leaf;
      case Variable(name) =>
        OwnerWithin(scopes, envs, env, name);
        var r := env.Get(name);
        o, d := FromResult(r), Leaf;
      case BinaryOp(_, _, _) => o, d := EvalBinaryOp(n, env, fuel);
      case UnaryOp(_, _) => o, d := EvalUnaryOp(n, env, fuel);
      case VarDeclaration(_, _) => o, d := EvalVarDeclaration(n, env, fuel);
      case Assignment(_, _) => o, d := EvalAssignment(n, env, fuel);
      case BlockNode(b) => o, d := EvalBlock(b, env, fuel);
      case IfStatement(_, _, _) => o, d := EvalIf(n, env, fuel);
      case WhileStatement(_, _) => o, d := EvalWhile(n, env, fuel);
      case ReturnStatement(result) =>
        if result.None? {
          o, d := Returning(Value.Nil), Leaf;
        } else {
          var r;
          ghost var dr;
          r, dr := Eval(result.value, env, fuel);
          o := if r.Normal? then Returning(r.value) else r;
          d := Derivation([Step(Current(), r, dr)], [], 0, Ast.None, Ast.None);
        }
      case ExpressionStatement(e) => o, d := Eval(e, env, fuel);
      case FunctionDef(name, parameters, body) =>
        var f := DefineFunction(n, env);
        o, d := Normal(Value.Nil), Derivation([], [], 0, Ast.None, Ast.Some(f));
      case FunctionCall(_, _) => o, d := EvalFunctionCall(n, env, fuel);
    }

    /** `var name = e`: evaluates `e`, then binds the name in `env` itself. */
    method EvalVarDeclaration(n: Ast.Node, env: Environment, fuel: nat) returns (o: Outcome, ghost d: Derivation)
      requires Valid() && env in envs && n.VarDeclaration?
      modifies this, envs
      ensures Valid() && old(envs) <= envs && (forall e :: e in envs ==> e in old(envs) || fresh(e)) && old(funs) <= funs
      ensures OutcomeIn(o, funs)
      ensures Evals(n, env, old(Current()), Current(), o, fuel, d)
      decreases fuel, n, 1
    {
      var r;
      ghost var dr;
      r, dr := Eval(n.value, env, fuel);
      d := Derivation([Step(Current(), r, dr)], [], 0, Ast.None, Ast.None);
      if !r.Normal? {
        o := r;
        return;
      }
      Declare(env, n.name, r.value);
      o := Normal(Value.Nil);
    }

    /** `name = e`: evaluates `e`, then rebinds the name where the chain binds it. */
    method EvalAssignment(n: Ast.Node, env: Environment, fuel: nat) returns (o: Outcome, ghost d: Derivation)
      requires Valid() && env in envs && n.Assignment?
      modifies this, envs
      ensures Valid() && old(envs) <= envs && (forall e :: e in envs ==> e in old(envs) || fresh(e)) && old(funs) <= funs
      ensures OutcomeIn(o, funs)
      ensures Evals(n, env, old(Current()), Current(), o, fuel, d)
      decreases fuel, n, 1
    {
      var r;
      ghost var dr;
      r, dr := Eval(n.value, env, fuel);
      d := Derivation([Step(Current(), r, dr)], [], 0, Ast.None, Ast.None);
      if !r.Normal? {
        o := r;
        return;
      }
      var s := Rebind(env, n.name, r.value);
      o := if s.Ok? then Normal(Value.Nil) else Error(s.error);
    }

    method EvalBinaryOp(n: Ast.Node, env: Environment, fuel: nat) returns (o: Outcome, ghost d: Derivation)
      requires Valid() && env in envs && n.BinaryOp?
      modifies this, envs
      ensures Valid() && old(envs) <= envs && (forall e :: e in envs ==> e in old(envs) || fresh(e)) && old(funs) <= funs
      ensures OutcomeIn(o, funs)
      ensures Evals(n, env, old(Current()), Current(), o, fuel, d)
      decreases fuel, n, 1
    {
      var l;
      ghost var dl;
      l, dl := Eval(n.left, env, fuel);
      ghost var mid := Current();
      if !l.Normal? {
        o, d := l, Derivation([Step(mid, l, dl)], [], 0, Ast.None, Ast.None);
        return;
      }
      var r;
      ghost var dr;
      r, dr := Eval(n.right, env, fuel);
      d := Derivation([Step(mid, l, dl), Step(Current(), r, dr)], [], 0, Ast.None, Ast.None);
      if !r.Normal? {
        o := r;
        return;
      }
      o := FromResult(ApplyBinary(n.op, l.value, r.value));
    }

    method EvalUnaryOp(n: Ast.Node, env: Environment, fuel: nat) returns (o: Outcome, ghost d: Derivation)
      requires Valid() && env in envs && n.UnaryOp?
      modifies this, envs
      ensures Valid() && old(envs) <= envs && (forall e :: e in envs ==> e in old(envs) || fresh(e)) && old(funs) <= funs
      ensures OutcomeIn(o, funs)
      ensures Evals(n, env, old(Current()), Current(), o, fuel, d)
      decreases fuel, n, 1
    {
      var r;
      ghost var dr;
      r, dr := Eval(n.operand, env, fuel);
      d := Derivation([Step(Current(), r, dr)], [], 0, Ast.None, Ast.None);
      o := if !r.Normal? then r else FromResult(ApplyUnary(n.uop, r.value));
    }

    /** The statements in order, in `env` itself; the value is the last statement's. */
    method EvalBlock(b: Ast.Block, env: Environment, fuel: nat) returns (o: Outcome, ghost d: Derivation)
      requires Valid() && env in envs
      modifies this, envs
      ensures Valid() && old(envs) <= envs && (forall e :: e in envs ==> e in old(envs) || fresh(e)) && old(funs) <= funs
      ensures OutcomeIn(o, funs)
      ensures EvalsBlock(b, |b.statements|, env, old(Current()), Current(), o, fuel, d)
      decreases fuel, b, 1
    {
      o, d := Normal(Value.Nil), Leaf;
      var i := 0;
      while i < |b.statements|
        invariant i <= |b.statements|
        invariant Valid() && env in envs && old(envs) <= envs && (forall e :: e in envs ==> e in old(envs) || fresh(e)) && old(funs) <= funs
        invariant o.Normal? && OutcomeIn(o, funs)
        invariant EvalsBlock(b, i, env, old(Current()), Current(), o, fuel, d)
      {
        ghost var mid := Current();
        var r;
        ghost var dr;
        r, dr := Eval(b.statements[i], env, fuel);
        BlockStep(b, i, env, old(Current()), mid, Current(), o, fuel, d, r, dr);
        d := Derivation([Step(mid, o, d), Step(Current(), r, dr)], [], 0, Ast.None, Ast.None);
        o := r;
        if !o.Normal? {
          BlockStops(b, i + 1, env, old(Current()), Current(), o, fuel, d, |b.statements| - (i + 1));
          d := Stopped(d, Current(), o, |b.statements| - (i + 1));
          return;
        }
        i := i + 1;
      }
    }

    method EvalIf(n: Ast.Node, env: Environment, fuel: nat) returns (o: Outcome, ghost d: Derivation)
      requires Valid() && env in envs && n.IfStatement?
      modifies this, envs
      ensures Valid() && old(envs) <= envs && (forall e :: e in envs ==> e in old(envs) || fresh(e)) && old(funs) <= funs
      ensures OutcomeIn(o, funs)
      ensures Evals(n, env, old(Current()), Current(), o, fuel, d)
      decreases fuel, n, 1
    {
      var c;
      ghost var dc;
      c, dc := Eval(n.condition, env, fuel);
      ghost var mid := Current();
      if !c.Normal? {
        o, d := c, Derivation([Step(mid, c, dc)], [], 0, Ast.None, Ast.None);
        return;
      }
      var r := Normal(Value.Nil);
      ghost var dr := Leaf;
      if IsTruthy(c.value) {
        r, dr := EvalBlock(n.thenBlock, env, fuel);
      } else if n.elseBlock.Some? {
        r, dr := EvalBlock(n.elseBlock.value, env, fuel);
      }
      o, d := r, Derivation([Step(mid, c, dc), Step(Current(), r, dr)], [], 0, Ast.None, Ast.None);
    }

    /**
     * Evaluates the condition and, while it is truthy, the body.  The loop
     * yields nil once the condition is falsy; an error or the return signal
     * from either ends it at once.  At most `fuel` rounds run.
     */
    method EvalWhile(n: Ast.Node, env: Environment, fuel: nat) returns (o: Outcome, ghost d: Derivation)
      requires Valid() && env in envs && n.WhileStatement?
      modifies this, envs
      ensures Valid() && old(envs) <= envs && (forall e :: e in envs ==> e in old(envs) || fresh(e)) && old(funs) <= funs
      ensures OutcomeIn(o, funs)
      ensures Evals(n, env, old(Current()), Current(), o, fuel, d)
      decreases fuel, n, 1
    {
      var k := 0;
      ghost var dk := Leaf;
      while true
        invariant k <= fuel
        invariant Valid() && env in envs && old(envs) <= envs && (forall e :: e in envs ==> e in old(envs) || fresh(e)) && old(funs) <= funs
        invariant Rounds(n, env, old(Current()), Current(), k, fuel, dk)
        decreases fuel - k
      {
        ghost var mid := Current();
        var c, r;
        ghost var dc, tested, dr;
        c, dc, tested, r, dr := WhileRound(n, env, fuel, k < fuel);
        if !c.Normal? || !IsTruthy(c.value) || k == fuel || !r.Normal? {
          o := if !c.Normal? then c else if !IsTruthy(c.value) then Normal(Value.Nil) else if k == fuel then OutOfFuel else r;
          WhileEnds(n, env, old(Current()), mid, tested, Current(), o, k, fuel, dk, c, dc, r, dr);
          d := Derivation([Step(mid, Normal(Value.Nil), dk), Step(tested, c, dc), Step(Current(), r, dr)], [], k, Ast.None, Ast.None);
          return;
        }
        RoundsStep(n, env, old(Current()), mid, tested, Current(), k, fuel, dk, c, dc, r, dr);
        dk := Derivation([Step(mid, Normal(Value.Nil), dk), Step(tested, c, dc), Step(Current(), r, dr)], [], 0, Ast.None, Ast.None);
        k := k + 1;
      }
    }

    /**
     * One round of a loop: the condition, then the body when the condition is
     * truthy and `more` rounds may run.  `tested` is the state right after the
     * condition.
     */
    method WhileRound(n: Ast.Node, env: Environment, fuel: nat, more: bool)
      returns (c: Outcome, ghost dc: Derivation, ghost tested: State, r: Outcome, ghost dr: Derivation)
      requires Valid() && env in envs && n.WhileStatement?
      modifies this, envs
      ensures Valid() && old(envs) <= envs && (forall e :: e in envs ==> e in old(envs) || fresh(e)) && old(funs) <= funs
      ensures OutcomeIn(c, funs) && OutcomeIn(r, funs)
      ensures Evals(n.condition, env, old(Current()), tested, c, fuel, dc)
      ensures c.Normal? && IsTruthy(c.value) && more ==>
                EvalsBlock(n.body, |n.body.statements|, env, tested, Current(), r, fuel, dr)
      ensures !(c.Normal? && IsTruthy(c.value) && more) ==> Current() == tested
      decreases fuel, n, 0
    {
      c, dc := Eval(n.condition, env, fuel);
      tested := Current();
      r, dr := c, Leaf;
      if c.Normal? && IsTruthy(c.value) && more {
        r, dr := EvalBlock(n.body, env, fuel);
      }
    }

    /**
     * A call: the callee is looked up first, then the arguments are evaluated
     * in the caller's environment, then the callee is applied to them.
     */
    method EvalFunctionCall(n: Ast.Node, env: Environment, fuel: nat) returns (o: Outcome, ghost d: Derivation)
      requires Valid() && env in envs && n.FunctionCall?
      modifies this, envs
      ensures Valid() && old(envs) <= envs && (forall e :: e in envs ==> e in old(envs) || fresh(e)) && old(funs) <= funs
      ensures OutcomeIn(o, funs)
      ensures Evals(n, env, old(Current()), Current(), o, fuel, d)
      decreases fuel, n, 1
    {
      OwnerWithin(scopes, envs, env, n.name);
      var callee := env.Get(n.name);
      if callee.Err? {
        o, d := Error(callee.error), Leaf;
        return;
      }
      var args, a;
      ghost var da;
      args, a, da := EvalArguments(n, env, fuel);
      ghost var mid := Current();
      ghost var dr := Leaf;
      if a.Normal? {
        o, dr := Apply(n, callee.value, args, fuel);
      } else {
        o := a;
      }
      CallStep(n, env, old(Current()), mid, Current(), o, fuel, callee.value, a, da, dr);
      d := Derivation([Step(mid, a, da), Step(Current(), o, dr)], [], 0, Ast.None, Ast.None);
    }

    /** The argument values, left to right; the first abrupt outcome stops the list. */
    method EvalArguments(call: Ast.Node, env: Environment, fuel: nat)
      returns (args: seq<Value>, o: Outcome, ghost d: Derivation)
      requires Valid() && env in envs && call.FunctionCall?
      modifies this, envs
      ensures Valid() && old(envs) <= envs && (forall e :: e in envs ==> e in old(envs) || fresh(e)) && old(funs) <= funs
      ensures OutcomeIn(o, funs) && forall v :: v in args ==> ValueIn(v, funs)
      ensures EvalsArgs(call, |call.arguments|, env, old(Current()), Current(), o, fuel, d)
      ensures o.Normal? ==> args == d.values
      decreases fuel, call, 0
    {
      args, o, d := [], Normal(Value.Nil), Leaf;
      var i := 0;
      while i < |call.arguments|
        invariant i <= |call.arguments|
        invariant Valid() && env in envs && old(envs) <= envs && (forall e :: e in envs ==> e in old(envs) || fresh(e)) && old(funs) <= funs
        invariant o == Normal(Value.Nil) && args == d.values
        invariant forall v :: v in args ==> ValueIn(v, funs)
        invariant EvalsArgs(call, i, env, old(Current()), Current(), o, fuel, d)
      {
        ghost var mid := Current();
        var r;
        ghost var dr;
        r, dr := Eval(call.arguments[i], env, fuel);
        ArgsStep(call, i, env, old(Current()), mid, Current(), o, fuel, d, r, dr);
        if !r.Normal? {
          d := Derivation([Step(mid, o, d), Step(Current(), r, dr)], [], 0, Ast.None, Ast.None);
          o := r;
          ArgsStop(call, i + 1, env, old(Current()), Current(), o, fuel, d, |call.arguments| - (i + 1));
          d := Stopped(d, Current(), o, |call.arguments| - (i + 1));
          return;
        }
        args := args + [r.value];
        d := Derivation([Step(mid, o, d), Step(Current(), r, dr)], args, 0, Ast.None, Ast.None);
        i := i + 1;
      }
    }

    /**
     * Applies an evaluated callee: the built-in prints; anything but a
     * function is an error; a user function checks the argument count before
     * anything is bound, and is then called.
     */
    method Apply(call: Ast.Node, callee: Value, args: seq<Value>, fuel: nat) returns (o: Outcome, ghost d: Derivation)
      requires Valid() && call.FunctionCall?
      requires ValueIn(callee, funs) && forall v :: v in args ==> ValueIn(v, funs)
      modifies this, envs
      ensures Valid() && old(envs) <= envs && (forall e :: e in envs ==> e in old(envs) || fresh(e)) && old(funs) <= funs
      ensures OutcomeIn(o, funs)
      ensures EvalsApply(call, callee, args, old(Current()), Current(), o, fuel, d)
      decreases fuel, call, 0, 1
    {
      d := Leaf;
      if callee.Builtin? {
        BuiltinPrint(args);
        o := Normal(Value.Nil);
        return;
      }
      if !callee.Fun? {
        o := Error(NotAFunction(call.name));
        return;
      }
      var f := callee.f;
      if |args| != |f.parameters| {
        o := Error(ArityMismatch(f.name, |f.parameters|, |args|));
        return;
      }
      if fuel == 0 {
        o := OutOfFuel;
        return;
      }
      o, d := CallFunction(call, f, args, fuel);
    }

    /**
     * A user function applied to as many arguments as it has parameters: its
     * body runs in a new child of the closure holding the parameters, and the
     * return signal is turned back into a value.
     */
    method CallFunction(call: Ast.Node, f: Function, args: seq<Value>, fuel: nat) returns (o: Outcome, ghost d: Derivation)
      requires Valid() && call.FunctionCall? && f in funs && |args| == |f.parameters| && fuel > 0
      requires forall v :: v in args ==> ValueIn(v, funs)
      modifies this, envs
      ensures Valid() && old(envs) <= envs && (forall e :: e in envs ==> e in old(envs) || fresh(e)) && old(funs) <= funs
      ensures OutcomeIn(o, funs)
      ensures EvalsApply(call, Fun(f), args, old(Current()), Current(), o, fuel, d)
      decreases fuel, call, 0, 0
    {
      ghost var pre := Current();
      var callEnv := Enter(f, args);
      ghost var entry := Current();
      var r;
      ghost var dr;
      r, dr := EvalBlock(f.body, callEnv, fuel - 1);
      o := CallResult(r);
      d := Derivation([Step(Current(), r, dr)], [], 0, Ast.Some(callEnv), Ast.None);
      ApplyStep(call, f, args, pre, entry, Current(), fuel, callEnv, r, dr);
    }
  }
}
