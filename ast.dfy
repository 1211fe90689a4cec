/**
 * The abstract syntax tree of the toy language: a closed set of immutable
 * records.  The operator strings of the original records become enumerations,
 * so an operator outside {+,-,*,/,<,>,==,!=} or a unary operator other than
 * `-` cannot be built, and every node kind is covered by the evaluator's
 * exhaustive `match`.
 */
module Ast {

  datatype Option<+T> = None | Some(value: T)

  /** The binary operators produced by the front end. */
  datatype BinOp = Add | Sub | Mul | Div | Lt | Gt | Eq | Ne

  /** The only unary operator: numeric negation. */
  datatype UnOp = Neg

  /**
   * One AST node.  Literals carry exactly one payload (`Nil` none), a binary
   * operation exactly two operand subtrees, a unary operation exactly one.
   * The branches of `if`, the body of `while` and of a function definition
   * are `Block`s; the else branch and the returned expression are optional.
   */
  datatype Node =
    | Number(num: real)
    | String(str: string)
    | Boolean(truth: bool)
    | Nil
    | Variable(name: string)
    | BinaryOp(op: BinOp, left: Node, right: Node)
    | UnaryOp(uop: UnOp, operand: Node)
    | VarDeclaration(name: string, value: Node)
    | Assignment(name: string, value: Node)
    | BlockNode(block: Block)
    | IfStatement(condition: Node, thenBlock: Block, elseBlock: Option<Block>)
    | WhileStatement(condition: Node, body: Block)
    | ReturnStatement(result: Option<Node>)
    | ExpressionStatement(expression: Node)
    | FunctionDef(name: string, parameters: seq<string>, body: Block)
    | FunctionCall(name: string, arguments: seq<Node>)

  /** An ordered sequence of statements; it does not open a scope. */
  datatype Block = Block(statements: seq<Node>)

  /** The root: the top-level statements in order. */
  datatype Program = Program(statements: seq<Node>)
}
