/**
 * The pure rules of the evaluator: truthiness, the conversion of values to
 * text, the numeric operand check and the meaning of each operator.
 *
 * Booleans count as numbers, as they do in the host language (true is 1,
 * false is 0): `true + 1` is 2, `-true` is -1 and `true == 1` holds.
 */
module Operators {
  import Ast
  import opened Environments

  /** Only nil and false are falsy. */
  predicate IsTruthy(v: Value)
  {
    !(v.Nil? || v == Bool(false))
  }

  lemma TruthinessRule(v: Value)
    ensures v.Num? || v.Str? || v.Fun? || v.Builtin? ==> IsTruthy(v)
    ensures v.Bool? ==> IsTruthy(v) == v.b
    ensures v.Nil? ==> !IsTruthy(v)
    ensures IsTruthy(Num(0.0)) && IsTruthy(Str(""))
  {
  }

  // ---------------------------------------------------------------------------
  // Decimal rendering of numbers

  function Digit(d: nat): (c: char)
    requires d < 10
    ensures '0' <= c <= '9' && (c as int) - ('0' as int) == d
  {
    ['0', '1', '2', '3', '4', '5', '6', '7', '8', '9'][d]
  }

  predicate IsDigits(s: string)
  {
    forall i :: 0 <= i < |s| ==> '0' <= s[i] <= '9'
  }

  /** The decimal numeral of `n`, without leading zeros. */
  function NatToString(n: nat): (s: string)
    ensures |s| > 0 && IsDigits(s)
    ensures s[0] == '0' ==> n == 0
    decreases n
  {
    if n < 10 then [Digit(n)] else NatToString(n / 10) + [Digit(n % 10)]
  }

  /** The number a string of digits denotes. */
  function DigitsValue(s: string): nat
    requires IsDigits(s)
  {
    if s == [] then 0
    else DigitsValue(s[..|s| - 1]) * 10 + ((s[|s| - 1] as int) - ('0' as int))
  }

  lemma {:induction false} NatToStringRoundTrip(n: nat)
    ensures DigitsValue(NatToString(n)) == n
    decreases n
  {
    if n >= 10 {
      NatToStringRoundTrip(n / 10);
      var s := NatToString(n);
      assert s[..|s| - 1] == NatToString(n / 10);
    }
  }

  /** The decimal numeral of an integer: a minus sign for negatives. */
  function IntToString(i: int): (s: string)
  {
    if i < 0 then "-" + NatToString(-i) else NatToString(i)
  }

  /** Reads back a numeral produced by IntToString; None for anything else. */
  function ParseInt(s: string): (r: Ast.Option<int>)
  {
    if |s| > 0 && IsDigits(s) then Ast.Some(DigitsValue(s) as int)
    else if |s| > 1 && s[0] == '-' && IsDigits(s[1..]) then Ast.Some(-(DigitsValue(s[1..]) as int))
    else Ast.None
  }

  /** Every integer's numeral parses back to that integer, and has no '.' in it. */
  lemma IntToStringRoundTrip(i: int)
    ensures ParseInt(IntToString(i)) == Ast.Some(i)
    ensures '.' !in IntToString(i)
  {
    var t := NatToString(if i < 0 then -i else i);
    NatToStringRoundTrip(if i < 0 then -i else i);
    assert '.' !in t by {
      forall j | 0 <= j < |t|
        ensures t[j] != '.'
      {
      }
    }
    if i < 0 {
      var s := "-" + t;
      assert s[0] == '-' && s[1..] == t;
      assert !IsDigits(s);
      assert s == IntToString(i);
    }
  }

  predicate IsIntegral(r: real)
  {
    r == r.Floor as real
  }

  /** The first `k` decimal digits of a fraction `0 <= f < 1`, truncated. */
  function FractionDigits(f: real, k: nat): (s: string)
    requires 0.0 <= f < 1.0
    ensures |s| == k && IsDigits(s)
    decreases k
  {
    if k == 0 then ""
    else
      var d := (f * 10.0).Floor;
      [Digit(d)] + FractionDigits(f * 10.0 - d as real, k - 1)
  }

  /** Drops trailing zeros, keeping at least one digit. */
  function TrimZeros(s: string): (t: string)
    requires |s| > 0 && IsDigits(s)
    ensures |t| > 0 && IsDigits(t)
  {
    if |s| > 1 && s[|s| - 1] == '0' then TrimZeros(s[..|s| - 1]) else s
  }

  /** How many fractional digits a non-integral number shows at most. */
  function Precision(): nat
  {
    16
  }

  /** The digits after the decimal point: truncated, without trailing zeros. */
  function FractionText(f: real): (s: string)
    requires 0.0 <= f < 1.0
    ensures |s| > 0 && IsDigits(s)
  {
    TrimZeros(FractionDigits(f, Precision()))
  }

  /**
   * The text of a number.  An integral number is rendered as an integer
   * numeral, with no decimal part; any other number as a decimal with a '.'.
   */
  function NumberToString(r: real): (s: string)
  {
    if IsIntegral(r) then IntToString(r.Floor)
    else
      var a := if r < 0.0 then -r else r;
      DecimalText(r < 0.0, a.Floor, FractionText(a - a.Floor as real))
  }

  /** A sign, a whole part, a decimal point and a fraction part. */
  function DecimalText(negative: bool, whole: nat, fraction: string): (s: string)
    ensures '.' in s
  {
    var p := (if negative then "-" else "") + NatToString(whole);
    assert (p + "." + fraction)[|p|] == '.';
    p + "." + fraction
  }

  /** The text of a value, as `print` and string concatenation show it. */
  function ValueToString(v: Value): (s: string)
  {
    match v
    case Nil => "nil"
    case Bool(b) => if b then "true" else "false"
    case Num(n) => NumberToString(n)
    case Str(s) => s
    case Fun(f) => "<function " + f.name + ">"
    case Builtin(Print) => "<bound method Interpreter._builtin_print>"
  }

  /** Integral numbers render as their integer numeral: no decimal point, and it reads back. */
  lemma IntegralRendering(r: real)
    requires IsIntegral(r)
    ensures '.' !in ValueToString(Num(r))
    ensures ParseInt(ValueToString(Num(r))) == Ast.Some(r.Floor)
    ensures ParseInt(ValueToString(Num(r))).value as real == r
  {
    IntToStringRoundTrip(r.Floor);
  }

  /** A non-integral number always shows a decimal point. */
  lemma NonIntegralRendering(r: real)
    requires !IsIntegral(r)
    ensures '.' in ValueToString(Num(r))
  {
  }

  /** The rendering of a boolean is its keyword; nil renders as "nil". */
  lemma KeywordRendering()
    ensures ValueToString(Nil) == "nil"
    ensures ValueToString(Bool(true)) == "true" && ValueToString(Bool(false)) == "false"
    ensures ValueToString(Num(3.0)) == "3" && ValueToString(Num(-12.0)) == "-12"
  {
  }

  /** The host's type names, used in type-mismatch messages. */
  function TypeName(v: Value): string
  {
    match v
    case Nil => "NoneType"
    case Bool(_) => "bool"
    case Num(_) => "float"
    case Str(_) => "str"
    case Fun(_) => "Function"
    case Builtin(_) => "method"
  }

  // ---------------------------------------------------------------------------
  // Operators

  /** The numeric reading of a value: numbers, and booleans as 1 and 0. */
  function AsNumber(v: Value): (r: Ast.Option<real>)
  {
    match v
    case Num(n) => Ast.Some(n)
    case Bool(b) => Ast.Some(if b then 1.0 else 0.0)
    case _ => Ast.None
  }

  predicate IsNumeric(v: Value)
  {
    AsNumber(v).Some?
  }

  /** Both operands numeric, or a type error naming the operation and both operand types. */
  function CheckNumericOperands(operation: string, left: Value, right: Value): (r: Result<(real, real)>)
    ensures r.Ok? <==> IsNumeric(left) && IsNumeric(right)
    ensures r.Ok? ==> r.value == (AsNumber(left).value, AsNumber(right).value)
    ensures r.Err? ==> r.error == TypeMismatch(operation, [TypeName(left), TypeName(right)])
  {
    if AsNumber(left).Some? && AsNumber(right).Some? then
      Ok((AsNumber(left).value, AsNumber(right).value))
    else
      Err(TypeMismatch(operation, [TypeName(left), TypeName(right)]))
  }

  /** The host's `==`: numbers and booleans compare numerically, functions by identity. */
  predicate ValuesEqual(left: Value, right: Value)
  {
    match (left, right)
    case (Nil, Nil) => true
    case (Str(a), Str(b)) => a == b
    case (Fun(f), Fun(g)) => f == g
    case (Builtin(p), Builtin(q)) => p == q
    case _ => IsNumeric(left) && IsNumeric(right) && AsNumber(left) == AsNumber(right)
  }

  /** `==` is an equivalence relation on values. */
  lemma ValuesEqualIsEquivalence(a: Value, b: Value, c: Value)
    ensures ValuesEqual(a, a)
    ensures ValuesEqual(a, b) ==> ValuesEqual(b, a)
    ensures ValuesEqual(a, b) && ValuesEqual(b, c) ==> ValuesEqual(a, c)
  {
  }

  /** Values of unlike kinds are unequal, except that numbers and booleans compare numerically. */
  lemma UnlikeKindsUnequal(a: Value, b: Value)
    requires !(IsNumeric(a) && IsNumeric(b))
    requires a.Nil? != b.Nil? || a.Str? != b.Str? || a.Fun? != b.Fun? || a.Builtin? != b.Builtin?
    ensures !ValuesEqual(a, b)
  {
  }

  function Arithmetic(op: Ast.BinOp, x: real, y: real): (r: Result<Value>)
    requires op.Add? || op.Sub? || op.Mul? || op.Div?
  {
    match op
    case Add => Ok(Num(x + y))
    case Sub => Ok(Num(x - y))
    case Mul => Ok(Num(x * y))
    case Div => if y == 0.0 then Err(DivisionByZero) else Ok(Num(x / y))
  }

  /** The verb a type-mismatch message uses for each numeric operator. */
  function Verb(op: Ast.BinOp): string
  {
    match op
    case Add => "add"
    case Sub => "subtract"
    case Mul => "multiply"
    case Div => "divide"
    case Lt => "compare"
    case Gt => "compare"
    case Eq => "compare"
    case Ne => "compare"
  }

  /** The value of `left op right`, both operands already evaluated. */
  function ApplyBinary(op: Ast.BinOp, left: Value, right: Value): (r: Result<Value>)
    // `+` with a string on either side concatenates the renderings of both operands
    ensures op.Add? && (left.Str? || right.Str?) ==>
              r == Ok(Str(ValueToString(left) + ValueToString(right)))
    // every other arithmetic or comparison needs two numeric operands, else a type error
    ensures !op.Eq? && !op.Ne? && !(op.Add? && (left.Str? || right.Str?)) ==>
              (!(IsNumeric(left) && IsNumeric(right)) <==>
                 r == Err(TypeMismatch(Verb(op), [TypeName(left), TypeName(right)])))
    // with two numeric operands, arithmetic and comparison succeed, except division by zero
    ensures (!op.Eq? && !op.Ne? && !(op.Add? && (left.Str? || right.Str?)) &&
             IsNumeric(left) && IsNumeric(right) && !(op.Div? && AsNumber(right).value == 0.0)) ==> r.Ok?
    // division by zero is an error of its own, checked after the operand types
    ensures op.Div? ==> (r == Err(DivisionByZero) <==>
              IsNumeric(left) && IsNumeric(right) && AsNumber(right).value == 0.0)
    // a quotient times the divisor gives back the dividend
    ensures op.Div? && r.Ok? ==> r.value.Num? && r.value.n * AsNumber(right).value == AsNumber(left).value
    ensures (op.Sub? || op.Mul? || op.Div?) && r.Ok? ==> r.value.Num?
    ensures op.Sub? && r.Ok? ==> r.value.n + AsNumber(right).value == AsNumber(left).value
    ensures op.Mul? && r.Ok? ==> r.value.n == AsNumber(left).value * AsNumber(right).value
    ensures op.Add? && !left.Str? && !right.Str? && r.Ok? ==>
              r.value.Num? && r.value.n - AsNumber(right).value == AsNumber(left).value
    // comparisons always yield a boolean
    ensures (op.Lt? || op.Gt?) && r.Ok? ==> r.value.Bool?
    ensures op.Lt? && r.Ok? ==> (r.value.b <==> AsNumber(left).value < AsNumber(right).value)
    ensures op.Gt? && r.Ok? ==> (r.value.b <==> AsNumber(right).value < AsNumber(left).value)
    // equality never fails
    ensures op.Eq? || op.Ne? ==> r.Ok? && r.value.Bool?
    ensures op.Eq? ==> r == Ok(Bool(ValuesEqual(left, right)))
    // an operator never yields nil or a function
    ensures r.Ok? ==> r.value.Num? || r.value.Str? || r.value.Bool?
  {
    match op
    case Eq => Ok(Bool(ValuesEqual(left, right)))
    case Ne => Ok(Bool(!ValuesEqual(left, right)))
    case Lt =>
      var c := CheckNumericOperands(Verb(op), left, right);
      if c.Err? then Err(c.error) else Ok(Bool(c.value.0 < c.value.1))
    case Gt =>
      var c := CheckNumericOperands(Verb(op), left, right);
      if c.Err? then Err(c.error) else Ok(Bool(c.value.0 > c.value.1))
    case Add =>
      if left.Str? || right.Str? then Ok(Str(ValueToString(left) + ValueToString(right)))
      else
        var c := CheckNumericOperands(Verb(op), left, right);
        if c.Err? then Err(c.error) else Arithmetic(op, c.value.0, c.value.1)
    case _ =>
      var c := CheckNumericOperands(Verb(op), left, right);
      if c.Err? then Err(c.error) else Arithmetic(op, c.value.0, c.value.1)
  }

  /** `!=` is always the negation of `==`. */
  lemma NotEqualIsNegation(left: Value, right: Value)
    ensures ApplyBinary(Ast.Ne, left, right).value.b == !ApplyBinary(Ast.Eq, left, right).value.b
    ensures ApplyBinary(Ast.Eq, left, right).value.b == ApplyBinary(Ast.Eq, right, left).value.b
  {
    ValuesEqualIsEquivalence(left, right, left);
  }

  /** `"a" + 1` is `"a1"`: the number is rendered with no decimal part. */
  lemma ConcatenationExample()
    ensures ApplyBinary(Ast.Add, Str("a"), Num(1.0)) == Ok(Str("a1"))
    ensures ApplyBinary(Ast.Add, Bool(true), Num(1.0)) == Ok(Num(2.0))
  {
    assert ValueToString(Num(1.0)) == NatToString(1) == "1";
    assert ValueToString(Str("a")) + "1" == "a1";
  }

  /** The value of `-operand`; booleans negate as 1 and 0. */
  function ApplyUnary(op: Ast.UnOp, operand: Value): (r: Result<Value>)
    ensures r.Ok? <==> IsNumeric(operand)
    ensures r.Ok? ==> r.value.Num? && r.value.n + AsNumber(operand).value == 0.0
    ensures r.Err? ==> r.error == TypeMismatch("negate", [TypeName(operand)])
  {
    match op
    case Neg =>
      if AsNumber(operand).Some? then Ok(Num(-AsNumber(operand).value))
      else Err(TypeMismatch("negate", [TypeName(operand)]))
  }

  /** The line `print` writes: the renderings of its arguments joined by single spaces. */
  function PrintLine(args: seq<Value>): (line: string)
    ensures |args| == 1 ==> line == ValueToString(args[0])
    ensures args == [] ==> line == ""
  {
    if |args| == 0 then ""
    else if |args| == 1 then ValueToString(args[0])
    else PrintLine(args[..|args| - 1]) + " " + ValueToString(args[|args| - 1])
  }

  /** The line of two non-empty argument lists together is their lines joined by one space. */
  lemma {:induction false} PrintLineAppend(a: seq<Value>, b: seq<Value>)
    requires a != [] && b != []
    ensures PrintLine(a + b) == PrintLine(a) + " " + PrintLine(b)
    decreases |b|
  {
    var b' := b[..|b| - 1];
    var last := ValueToString(b[|b| - 1]);
    PrintLineLast(a + b);
    assert (a + b)[..|a + b| - 1] == a + b' && (a + b)[|a + b| - 1] == b[|b| - 1];
    if b' == [] {
      assert a + b' == a;
    } else {
      PrintLineAppend(a, b');
      PrintLineLast(b);
      JoinAssociates(PrintLine(a), PrintLine(b'), last);
    }
  }

  /** The line of two or more arguments: the line of all but the last, a space, the last one's text. */
  lemma PrintLineLast(args: seq<Value>)
    requires |args| > 1
    ensures PrintLine(args) == PrintLine(args[..|args| - 1]) + " " + ValueToString(args[|args| - 1])
  {
  }

  /** Joining with spaces associates. */
  lemma JoinAssociates(x: string, y: string, z: string)
    ensures x + " " + y + " " + z == x + " " + (y + " " + z)
  {
  }
}
