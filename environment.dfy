/**
 * Runtime values, user-defined function objects, the return signal and the
 * scope chain of the toy language.
 *
 * An `Environment` owns a mutable map of bindings and a fixed reference to
 * its lexically enclosing environment.  The ghost `depth` (one more than the
 * parent's) makes the chain acyclic, so that lookups terminate.  `Scopes` is a
 * snapshot of the bindings of many environments at once; the pure functions
 * `Owner`, `Lookup`, `Assign` and `Bind` over such snapshots say what `Get`,
 * `Set` and `Define` do, and are reused by the evaluator's specification.
 */
module Environments {
  import Ast

  /** The single host-provided callable. */
  datatype BuiltinKind = Print

  /**
   * A runtime value.  Numbers are exact reals; a function value is a
   * reference to a `Function` object, so `==` on it is object identity.
   */
  datatype Value =
    | Nil
    | Bool(b: bool)
    | Num(n: real)
    | Str(s: string)
    | Fun(f: Function)
    | Builtin(kind: BuiltinKind)

  /** The conditions that abort an evaluation. */
  datatype ErrorKind =
    | UndefinedVariable(name: string)
    | TypeMismatch(operation: string, operandTypes: seq<string>)
    | DivisionByZero
    | NotAFunction(callee: string)
    | ArityMismatch(functionName: string, expected: nat, given: nat)
    | UnhandledReturn

  /**
   * How an evaluation ends: with a value, with the return signal carrying the
   * returned value, with an error, or (an artefact of the model) because the
   * fuel bounding loop iterations and call depth ran out.
   */
  datatype Outcome =
    | Normal(value: Value)
    | Returning(value: Value)
    | Error(error: ErrorKind)
    | OutOfFuel

  datatype Result<+T> = Ok(value: T) | Err(error: ErrorKind)

  /** A user-defined function together with the environment it was defined in. */
  class Function {
    const name: string
    const parameters: seq<string>
    const body: Ast.Block
    const closure: Environment

    constructor (name: string, parameters: seq<string>, body: Ast.Block, closure: Environment)
      ensures this.name == name && this.parameters == parameters
      ensures this.body == body && this.closure == closure
    {
      this.name := name;
      this.parameters := parameters;
      this.body := body;
      this.closure := closure;
    }
  }

  /** The bindings of a set of environments, at one moment. */
  type Scopes = map<Environment, map<string, Value>>

  class Environment {
    var values: map<string, Value>
    const parent: Environment?
    ghost const depth: nat

    /** The parent chain is finite: depths strictly decrease towards the root. */
    ghost predicate Chained()
      decreases depth
    {
      parent == null || (parent.depth < depth && parent.Chained())
    }

    /** This environment and all its ancestors. */
    ghost function Chain(): (c: set<Environment>)
      requires Chained()
      ensures this in c
      ensures forall e :: e in c ==> e.Chained() && e.depth <= depth
      ensures parent != null ==> parent.Chain() <= c && this !in parent.Chain()
      decreases depth
    {
      {this} + if parent == null then {} else parent.Chain()
    }

    constructor (parent: Environment?)
      requires parent != null ==> parent.Chained()
      ensures Chained() && this.parent == parent && values == map[]
    {
      this.parent := parent;
      this.depth := if parent == null then 0 else parent.depth + 1;
      this.values := map[];
    }

    /** Binds `name` in this environment only, replacing a local binding. */
    method Define(name: string, value: Value)
      modifies this
      ensures values == old(values)[name := value]
    {
      values := values[name := value];
    }

    /** The innermost binding of `name` along the chain, or UndefinedVariable. */
    method Get(name: string) returns (r: Result<Value>)
      requires Chained()
      ensures r == Found(Owner(Snapshot(Chain()), this, name), Snapshot(Chain()), name)
      decreases depth
    {
      if name in values {
        return Ok(values[name]);
      }
      if parent != null {
        r := parent.Get(name);
        OwnerLocal(Snapshot(Chain()), Snapshot(parent.Chain()), parent, name);
        return;
      }
      return Err(UndefinedVariable(name));
    }

    /**
     * Rebinds `name` in the nearest environment of the chain that binds it;
     * when none does, fails and changes nothing.
     */
    method Set(name: string, value: Value) returns (r: Result<()>)
      requires Chained()
      modifies Chain()
      ensures Owner(old(Snapshot(Chain())), this, name).None? ==>
                r == Err(UndefinedVariable(name)) && unchanged(Chain())
      ensures Owner(old(Snapshot(Chain())), this, name).Some? ==>
                r.Ok? &&
                Owner(old(Snapshot(Chain())), this, name).value.values ==
                  old(Owner(Snapshot(Chain()), this, name).value.values)[name := value] &&
                forall e :: e in Chain() && e != Owner(old(Snapshot(Chain())), this, name).value ==>
                  e.values == old(e.values)
      decreases depth
    {
      if name in values {
        values := values[name := value];
        return Ok(());
      }
      if parent != null {
        OwnerLocal(Snapshot(Chain()), Snapshot(parent.Chain()), parent, name);
        r := parent.Set(name, value);
        return;
      }
      return Err(UndefinedVariable(name));
    }
  }

  /** The bindings of the environments in `envs`, read from the heap. */
  ghost function Snapshot(envs: set<Environment>): (s: Scopes)
    reads envs
    ensures s.Keys == envs
    ensures forall e :: e in envs ==> s[e] == e.values
  {
    map e | e in envs :: e.values
  }

  /** Whether `s1` and `s2` hold the same bindings for every environment in `c`. */
  ghost predicate AgreeOn(s1: Scopes, s2: Scopes, c: set<Environment>)
  {
    forall e :: e in c ==> (e in s1 <==> e in s2) && (e in s1 ==> s1[e] == s2[e])
  }

  ghost predicate Binds(s: Scopes, e: Environment, name: string)
  {
    e in s && name in s[e]
  }

  /**
   * The environment whose binding of `name` is visible from `e`: the nearest
   * one along the chain that binds it, or None when no environment does.
   */
  ghost function Owner(s: Scopes, e: Environment, name: string): (o: Ast.Option<Environment>)
    requires e.Chained()
    ensures o.Some? ==> o.value in e.Chain() && Binds(s, o.value, name)
    decreases e.depth
  {
    if Binds(s, e, name) then Ast.Some(e)
    else if e.parent == null then Ast.None
    else Owner(s, e.parent, name)
  }

  /**
   * The owner is the nearest binding environment: none closer to `e` binds
   * the name, and there is no owner exactly when nothing along the chain does.
   */
  lemma {:induction false} OwnerIsNearest(s: Scopes, e: Environment, name: string)
    requires e.Chained()
    ensures Owner(s, e, name).Some? ==>
              forall a :: a in e.Chain() && a.depth > Owner(s, e, name).value.depth ==> !Binds(s, a, name)
    ensures Owner(s, e, name).None? <==> forall a :: a in e.Chain() ==> !Binds(s, a, name)
    decreases e.depth
  {
    if e.parent != null {
      OwnerIsNearest(s, e.parent, name);
    }
  }

  /** What `get` yields for an owner found in `s`. */
  ghost function Found(o: Ast.Option<Environment>, s: Scopes, name: string): (r: Result<Value>)
    requires o.Some? ==> Binds(s, o.value, name)
  {
    match o
    case None => Err(UndefinedVariable(name))
    case Some(a) => Ok(s[a][name])
  }

  /** The value of `name` seen from `e`, if any. */
  ghost function Lookup(s: Scopes, e: Environment, name: string): (v: Ast.Option<Value>)
    requires e.Chained()
  {
    match Owner(s, e, name)
    case None => Ast.None
    case Some(a) => Ast.Some(s[a][name])
  }

  /** `define`: a local insert or overwrite in `e`. */
  function Bind(s: Scopes, e: Environment, name: string, v: Value): (r: Scopes)
    ensures r.Keys == s.Keys + {e}
    ensures name in r[e] && r[e][name] == v
    ensures forall x :: x in r[e] && x != name ==> e in s && x in s[e] && r[e][x] == s[e][x]
    ensures e in s ==> forall x :: x in s[e] && x != name ==> x in r[e]
    ensures forall a :: a in s && a != e ==> r[a] == s[a]
  {
    s[e := (if e in s then s[e] else map[])[name := v]]
  }

  /** `set`: rebinds `name` in its owner; None when the chain does not bind it. */
  ghost function Assign(s: Scopes, e: Environment, name: string, v: Value): (r: Ast.Option<Scopes>)
    requires e.Chained()
  {
    match Owner(s, e, name)
    case None => Ast.None
    case Some(a) => Ast.Some(s[a := s[a][name := v]])
  }

  /** The owner, and so the lookup, depends only on the bindings along the chain. */
  lemma {:induction false} OwnerLocal(s1: Scopes, s2: Scopes, e: Environment, name: string)
    requires e.Chained()
    requires AgreeOn(s1, s2, e.Chain())
    ensures Owner(s1, e, name) == Owner(s2, e, name)
    decreases e.depth
  {
    if e.parent != null {
      OwnerLocal(s1, s2, e.parent, name);
    }
  }

  /** After `define(name, v)` on `e`, `get(name)` on `e` yields `v`. */
  lemma DefineThenGet(s: Scopes, e: Environment, name: string, v: Value)
    requires e.Chained()
    ensures Owner(Bind(s, e, name, v), e, name) == Ast.Some(e)
    ensures Lookup(Bind(s, e, name, v), e, name) == Ast.Some(v)
  {
  }

  /** A local binding shadows every binding of the same name further out. */
  lemma LocalShadows(s: Scopes, e: Environment, name: string)
    requires e.Chained() && Binds(s, e, name)
    ensures Lookup(s, e, name) == Ast.Some(s[e][name])
  {
  }

  /**
   * `set` rebinds exactly the owner: afterwards the name is seen with the new
   * value, the owner is unchanged, and every other environment keeps its map.
   */
  lemma {:induction false} AssignUpdatesOwner(s: Scopes, e: Environment, name: string, v: Value)
    requires e.Chained() && Assign(s, e, name, v).Some?
    ensures var s' := Assign(s, e, name, v).value;
      var o := Owner(s, e, name).value;
      && s'.Keys == s.Keys
      && s'[o] == s[o][name := v]
      && (forall a :: a in s && a != o ==> s'[a] == s[a])
      && Owner(s', e, name) == Owner(s, e, name)
      && Lookup(s', e, name) == Ast.Some(v)
  {
    var s' := Assign(s, e, name, v).value;
    var o := Owner(s, e, name).value;
    SameBindingsSameOwner(s, s', e, name);
  }

  /**
   * `set` never creates a binding: every environment binds the same names
   * afterwards, and it fails exactly when no environment along the chain binds
   * the name.
   */
  lemma AssignKeepsNames(s: Scopes, e: Environment, name: string, v: Value)
    requires e.Chained()
    ensures Assign(s, e, name, v).None? <==> forall a :: a in e.Chain() ==> !Binds(s, a, name)
    ensures Assign(s, e, name, v).Some? ==>
              Assign(s, e, name, v).value.Keys == s.Keys &&
              forall a :: a in s ==> Assign(s, e, name, v).value[a].Keys == s[a].Keys
  {
    OwnerIsNearest(s, e, name);
  }

  /** Two snapshots that bind `name` in the same environments agree on its owner. */
  lemma {:induction false} SameBindingsSameOwner(s1: Scopes, s2: Scopes, e: Environment, name: string)
    requires e.Chained()
    requires forall a :: a in e.Chain() ==> (Binds(s1, a, name) <==> Binds(s2, a, name))
    ensures Owner(s1, e, name) == Owner(s2, e, name)
    decreases e.depth
  {
    if e.parent != null {
      SameBindingsSameOwner(s1, s2, e.parent, name);
    }
  }

  /**
   * A function's closure is shared, not copied: a `set` on the closure
   * environment is seen by lookups from any environment created with that
   * closure as parent that does not itself bind the name.
   */
  lemma ClosureSeesAssignment(s: Scopes, closure: Environment, callEnv: Environment, name: string, v: Value)
    requires callEnv.Chained() && callEnv.parent == closure
    requires !Binds(s, callEnv, name) && Assign(s, closure, name, v).Some?
    ensures Lookup(Assign(s, closure, name, v).value, callEnv, name) == Ast.Some(v)
  {
    assert callEnv !in closure.Chain();
    AssignUpdatesOwner(s, closure, name, v);
  }
}
