# A verified model of the toy-language tree-walking interpreter

The toy language has numbers, strings, booleans and nil. It has variables
declared with `var` and rebound by assignment, the operators
`+ - * / < > == !=` and unary `-`, blocks, `if`/`else`, `while`, `return`,
function definitions and calls, and the built-in `print`. The interpreter
evaluates the abstract syntax tree directly, in three parts:

- **The syntax tree** (`ast.dfy`, module `Ast`). Both copies of the AST
  records become one datatype, `Ast.Node`. The operator strings become the
  enumerations `BinOp` and `UnOp`, so the interpreter's "unknown node" and
  "unknown operator" fallbacks cannot be reached. The datatype itself states
  the structural facts of the records:
  - a literal has exactly one payload, and `Nil` has none;
  - a binary operation has two operand subtrees, and a unary one has one;
  - the branches of `if`, the body of `while` and the body of a function are
    `Block`s;
  - the `else` branch and the returned expression are optional;
  - parameters and arguments are ordered sequences.
- **The scope chain** (`environment.dfy`, module `Environments`).
  - `Environment` is a class with a mutable `values` map and a fixed
    `parent`. A ghost `depth` makes the chain acyclic.
  - `Define`, `Get` and `Set` are methods. `Define` and `Set` state the new
    maps directly, and `Get` is proved to return what the pure function
    `Owner` finds along the chain.
  - The pure functions `Bind`, `Owner`/`Lookup` and `Assign` say what
    `define`, `get` and `set` do on a snapshot of many environments' bindings
    (`Scopes`). The interpreter's `Declare` and `Rebind` prove that the real
    `Define` and `Set` change the environments exactly as `Bind` and `Assign`
    say.
  - `Function` is a class holding the closure environment by reference.
  - The `Outcome` datatype replaces the host's exceptions:
    - `Returning(v)` is the return exception carrying its value;
    - `Error(kind)` is a raised error;
    - `OutOfFuel` means the bound on loop rounds and call depth was spent.
- **The evaluator.** It has four parts:
  - `operators.dfy`, module `Operators`: truthiness, the rendering of values
    as text, the numeric operand check and each operator.
  - `semantics.dfy`, module `Semantics`: a big-step evaluation relation
    `Evals`, one predicate per rule. Each rule relates a snapshot of the state
    (all bindings, the function objects created, the lines printed) before
    and after, and the outcome.
  - `interpreter.dfy`, module `Interpreter`: the class `Interpreter`. Its
    methods mirror the evaluator's methods, mutate the real environments, and
    are each proved to realise the matching rule of `Evals`.
  - `properties.dfy`, module `Properties`: facts about `Evals` that relate
    several evaluations.

Booleans count as numbers, as in the host language: `true + 1` is 2,
`-true` is -1 and `true == 1` holds. Numbers are exact reals. A `return` that
reaches the top level ends the program with the error `UnhandledReturn`.

## Model

| member | source | states |
|---|---|---|
| Environments.Environment.constructor | environment.py:23-25 | a new environment has the given parent, no bindings, and a finite parent chain |
| Environments.Environment.Define | environment.py:27-29 | `define` changes only this environment's map: the name is bound to the value there, every other local binding is kept, and nothing else is modified |
| Environments.Environment.Get | environment.py:31-39 | `get` yields the binding of the nearest environment along the parent chain that binds the name, and fails with UndefinedVariable when none does |
| Environments.Environment.Set | environment.py:41-51 | `set` rebinds the name in the nearest environment that binds it, and every other environment of the chain keeps its map; when no environment binds it, it fails with UndefinedVariable and nothing changes |
| Environments.Function.constructor | environment.py:54-61 | a function object records its name, parameters, body, and its defining environment itself (a reference, not a copy) |
| Environments.Owner | environment.py:31-39 | the environment whose binding `get` reads is on the chain and binds the name |
| Environments.OwnerIsNearest | environment.py:31-39 | no environment closer than the owner binds the name, and there is no owner exactly when no environment of the chain binds it |
| Environments.OwnerLocal | environment.py:31-37 | lookup depends only on the bindings along the chain |
| Environments.Bind | environment.py:27-29 | `define` binds the name in that environment only: its other bindings and every other environment are unchanged |
| Environments.Lookup | environment.py:31-39 | the reference definition of `get` on a snapshot: the owner's binding, or none |
| Environments.DefineThenGet | environment.py:27-34 | after `define(n, v)` on an environment, `get(n)` there yields `v` |
| Environments.LocalShadows | environment.py:31-37 | a local binding shadows every binding of the same name in the parents |
| Environments.Assign | environment.py:41-51 | the reference definition of `set` on a snapshot: the owner's map rebinds the name, or none when there is no owner |
| Environments.AssignUpdatesOwner | environment.py:41-49 | after `set`, the name is seen with the new value, the owner is the same, and every other environment keeps its map |
| Environments.AssignKeepsNames | environment.py:41-51 | `set` never creates a binding: it fails exactly when no environment of the chain binds the name, and otherwise every environment binds the same names as before |
| Environments.ClosureSeesAssignment | environment.py:57-61 | a `set` on a closure environment is seen from a call environment whose parent is that closure |
| Operators.IsTruthy | src/interpreter.py:64-66 | the reference definition of truthiness: a value is falsy exactly when it is nil or false |
| Operators.TruthinessRule | src/interpreter.py:64-66 | only nil and false are falsy; 0, the empty string and functions are truthy |
| Operators.NatToString | src/interpreter.py:53-54 | a numeral is a non-empty digit string with no leading zero |
| Operators.NatToStringRoundTrip | src/interpreter.py:53-54 | the numeral of a natural number reads back as that number |
| Operators.IntToStringRoundTrip | src/interpreter.py:53-54 | the numeral of an integer has no decimal point and reads back as that integer |
| Operators.IntegralRendering | src/interpreter.py:51-54 | an integral number renders as an integer numeral, with no decimal part, that reads back as the number |
| Operators.ValueToString | src/interpreter.py:45-62 | the reference definition of rendering: nil, then booleans (before numbers), then numbers, strings as themselves, functions by name |
| Operators.NonIntegralRendering | src/interpreter.py:55 | the model's rendering of a non-integral number always has a decimal point (the host's exponent form for tiny magnitudes is not modelled) |
| Operators.KeywordRendering | src/interpreter.py:45-54 | nil renders as "nil", booleans as "true"/"false" (before the numeric case), 3.0 as "3" |
| Operators.TypeName | src/interpreter.py:136 | the type names that type-error messages use, one per kind of value |
| Operators.CheckNumericOperands | src/interpreter.py:131-137 | succeeds exactly when both operands are numbers or booleans, with their numeric values; otherwise a type error naming the operation and both operand types |
| Operators.ValuesEqual | src/interpreter.py:173-177 | the reference definition of `==`: nil equals nil, strings by content, functions by identity, numbers and booleans numerically, anything else unequal |
| Operators.ValuesEqualIsEquivalence | src/interpreter.py:173-174 | `==` on values is reflexive, symmetric and transitive |
| Operators.UnlikeKindsUnequal | src/interpreter.py:173-174 | values of unlike kinds are never equal, except numbers and booleans, which compare numerically |
| Operators.ApplyBinary | src/interpreter.py:139-180 | `+` with a string on either side concatenates both renderings; any other arithmetic or comparison fails with a type error exactly when an operand is not numeric, and with two numeric operands succeeds unless it divides by 0; `+` of numbers, `-`, `*` and `/` yield the sum, difference, product and quotient (stated through their inverses); `/` fails with division by zero exactly when both are numeric and the divisor is 0; `<` and `>` yield the boolean order; `==` yields `ValuesEqual`, and `==` and `!=` never fail |
| Operators.NotEqualIsNegation | src/interpreter.py:173-177 | `!=` is the negation of `==`, and `==` is symmetric |
| Operators.ConcatenationExample | src/interpreter.py:144-149 | `"a" + 1` is `"a1"` and `true + 1` is 2 |
| Operators.ApplyUnary | src/interpreter.py:182-192 | `-` succeeds exactly on numbers and booleans, yielding the additive inverse, and otherwise fails with a type error naming the operand type |
| Operators.PrintLine | src/interpreter.py:40-43 | the printed line of one argument is its rendering, of none the empty line |
| Operators.PrintLineAppend | src/interpreter.py:42 | the line of two non-empty argument lists is their two lines joined by a single space |
| Semantics.CallResult | src/interpreter.py:252-257 | the call boundary turns the return signal into its value and a normal end of the body into nil, and never passes the return signal on |
| Semantics.TopLevel | src/interpreter.py:72-75 | a top-level statement's value is discarded, and a return signal reaching the top level becomes an error |
| Semantics.Params | src/interpreter.py:248-250 | the call's local bindings are exactly the parameter names, each bound to one of the arguments, the last parameter to the last argument |
| Semantics.ParamsByPosition | src/interpreter.py:249-250 | parameters are bound by position: a name that does not repeat later in the list gets the argument in its own position, so a repeated name gets the last of its arguments |
| Semantics.Evals | src/interpreter.py:77-129 | the evaluation relation: literals evaluate to themselves, a variable by lookup, an expression statement as its expression, and every other node kind by its own rule |
| Semantics.EvalsBinary | src/interpreter.py:139-180 | left operand, then right operand, then the operator; an abrupt operand is the outcome |
| Semantics.EvalsUnary | src/interpreter.py:182-192 | the operand, then the operator |
| Semantics.EvalsDeclaration | src/interpreter.py:94-97 | the value, then `define` in the current environment; yields nil |
| Semantics.EvalsAssignment | src/interpreter.py:99-102 | the value, then `set`; yields nil, or UndefinedVariable with the value's effects kept |
| Semantics.EvalsIf | src/interpreter.py:203-212 | the condition, then the then-block when truthy, the else-block when present, nil otherwise |
| Semantics.EvalsReturn | src/interpreter.py:113-115 | the return signal carrying the expression's value, or nil without one |
| Semantics.EvalsDefinition | src/interpreter.py:120-123 | a new function object closing over the current environment, bound there; yields nil |
| Semantics.EvalsBlock | src/interpreter.py:194-201 | the statements in order in the same environment; the outcome is the last one's, nil when empty, or the first abrupt one |
| Semantics.Rounds | src/interpreter.py:216-220 | complete loop rounds: each a truthy condition followed by a body that ends normally |
| Semantics.EvalsWhile | src/interpreter.py:214-222 | rounds, then a falsy condition (nil), an abrupt condition, or a truthy one followed by an abrupt body |
| Semantics.EvalsCall | src/interpreter.py:224-229 | the callee is looked up first (an undefined name is an error), then the arguments, then the application |
| Semantics.EvalsArgs | src/interpreter.py:229 | the arguments left to right in the caller's environment, collecting their values |
| Semantics.EvalsApply | src/interpreter.py:231-257 | the built-in prints; a non-function or an arity mismatch is an error with nothing changed; a user function runs its body in a new child of the closure holding the parameters |
| Semantics.EvalsProgram | src/interpreter.py:72-75 | the top-level statements in order, values discarded, until one ends abruptly |
| Semantics.ProgramNeverReturns | src/interpreter.py:68-75 | a program never ends with the return signal |
| Semantics.BlockStops | src/interpreter.py:199-200 | an abrupt outcome (return signal, error) of a statement is the outcome of the whole block; the rest is not run |
| Semantics.ArgsStop | src/interpreter.py:229 | an abrupt outcome of an argument is the outcome of the whole argument list |
| Semantics.ProgramStops | src/interpreter.py:74-75 | an abrupt outcome of a top-level statement ends the program |
| Interpreter.NewCallEnvironment | src/interpreter.py:245-250 | the call environment is new, its parent is the closure, and its bindings are the parameters bound in order to the arguments |
| Interpreter.Interpreter.constructor | src/interpreter.py:32-38 | the global environment has no parent and binds only `print`, to the built-in |
| Interpreter.Interpreter.BuiltinPrint | src/interpreter.py:40-43 | `print` appends one line, the space-joined renderings, and changes no binding |
| Interpreter.Interpreter.Declare | src/interpreter.py:96 | a declaration binds the name in the current environment only |
| Interpreter.Interpreter.Rebind | src/interpreter.py:101 | an assignment rebinds where the chain binds the name, or fails with UndefinedVariable and changes nothing |
| Interpreter.Interpreter.DefineFunction | src/interpreter.py:120-123 | a definition creates a new function object closing over the current environment and binds it there |
| Interpreter.Interpreter.Enter | src/interpreter.py:245-250 | a call adds one new environment, a child of the closure, holding the parameters |
| Interpreter.Interpreter.Interpret | src/interpreter.py:68-70 | the program runs in the global environment as `EvalsProgram` says, and never ends with the return signal |
| Interpreter.Interpreter.EvalProgram | src/interpreter.py:72-75 | the statements run in order, each value discarded, until one ends abruptly, as `EvalsProgram` says |
| Interpreter.Interpreter.Eval | src/interpreter.py:77-129 | every node kind evaluates as its rule of `Evals` says: literals to themselves, a variable by lookup, `return` to the return signal carrying the value (nil without an expression), a definition to nil |
| Interpreter.Interpreter.EvalVarDeclaration | src/interpreter.py:94-97 | the value first, then a local binding; the statement yields nil |
| Interpreter.Interpreter.EvalAssignment | src/interpreter.py:99-102 | the value first, then `set`; the statement yields nil, or the undefined-variable error |
| Interpreter.Interpreter.EvalBinaryOp | src/interpreter.py:139-180 | the left operand, then the right, then `ApplyBinary`; an abrupt operand is the outcome |
| Interpreter.Interpreter.EvalUnaryOp | src/interpreter.py:182-192 | the operand, then `ApplyUnary` |
| Interpreter.Interpreter.EvalBlock | src/interpreter.py:194-201 | the statements in order, in the same environment; the value is the last one's, nil when empty |
| Interpreter.Interpreter.EvalIf | src/interpreter.py:203-212 | the condition, then the then-block when truthy, the else-block when present, nil otherwise |
| Interpreter.Interpreter.EvalWhile | src/interpreter.py:214-222 | rounds of truthy condition and normal body, ending at a falsy condition with nil, or at an abrupt condition or body |
| Interpreter.Interpreter.WhileRound | src/interpreter.py:217-220 | one round: the condition, then the body only when the condition is truthy |
| Interpreter.Interpreter.EvalFunctionCall | src/interpreter.py:224-233 | the callee is looked up before any argument is evaluated, then the arguments, then the application |
| Interpreter.Interpreter.EvalArguments | src/interpreter.py:229 | the arguments left to right in the caller's environment, collecting their values |
| Interpreter.Interpreter.Apply | src/interpreter.py:231-243 | the built-in prints; any other non-function is an error; an arity mismatch is an error before anything is bound |
| Interpreter.Interpreter.CallFunction | src/interpreter.py:245-257 | the body runs in a new child of the closure holding the parameters; the result is the returned value, or nil |
| Properties.PureValue | src/interpreter.py:79-92 | an expression of literals, variables and operators ends normally or with an error, never with the return signal |
| Properties.PureEvaluationIsPureValue | src/interpreter.py:79-92 | every evaluation of such an expression leaves the state unchanged and has the outcome `PureValue` computes |
| Properties.PureValueEvaluates | src/interpreter.py:79-92 | every such expression evaluates to its `PureValue`, with any fuel |
| Properties.EvalsGrows | src/interpreter.py:77-129 | evaluation only adds to the state: output lines are appended, environments and functions are added, no binding disappears |
| Properties.CallScopeIsLexical | src/interpreter.py:245-250 | at call entry a parameter is seen with the argument in its position, and any other name exactly as from the closure, whatever the caller's environment |
| Properties.CalleeResolvedFirst | src/interpreter.py:226-229 | an undefined callee is an error before any argument is evaluated, so nothing changes |
| Properties.ApplyNeverReturns | src/interpreter.py:231-257 | applying a callee never yields the return signal; a non-function is "not a function" and an arity mismatch an error, both with nothing changed |
| Properties.WhileYieldsNil | src/interpreter.py:214-222 | a loop ends normally exactly when its last condition was falsy, and then yields nil |

## Left out

- The lines `print` writes are appended to the `output` field instead of
  being written to standard output.
- `print` is the only built-in, as in the interpreter's setup.
- Strings are not passed through the `unicode_escape` codec when rendered.
  The model renders a string as itself.
- Numbers are exact reals, not IEEE doubles. Rounding, infinities, NaN and
  negative zero are not modelled.
- Operators.NonIntegralRendering: states only what the model's own
  rendering does, which is to show a decimal point. The model writes the
  whole part, a point, and up to 16 truncated fractional digits without
  trailing zeros. So a non-zero number smaller than 1e-16 in magnitude
  renders as "0.0", or "-0.0" when it is negative. The host's `str(float)` writes the shortest text that
  reads back as the same double, and switches to exponent form below 1e-4
  (0.00001 prints as `1e-05`, with no decimal point). Neither behaviour is
  modelled, because both depend on the double representation.
- Operators.TypeName: arithmetic other than `/` on booleans only (such as
  `true + true`, `true * true` or `-true`) gives an `int` in the host, which
  type errors name "int"; the model names it "float". The model has one
  number type.
- The text of a function value is `<function name>`. The built-in's text is
  fixed; the host's also includes an object address.
- Non-termination and the host's recursion limit become `OutOfFuel`. Each
  loop may run at most `fuel` rounds, and each call consumes one unit of fuel
  for its body.
- `Program` is a datatype of its own, not a `Node`. Passing a program to
  `eval` would hit the "unknown node" fallback, and the tree builder only
  produces a program at the root.
- The command-line driver, the tree builder and the package re-exports are
  not part of this model.
