/**
 * The expression tree of the ast package: the five records that the sealed
 * interface Expr permits.
 */
module Ast {

  /**
   * The numeric payload of a Constant, kept symbolic: the two named constants
   * and a decimal literal by its text (its double value is not modelled).
   */
  datatype Num = Pi | E | Lit(text: string)

  datatype Expr =
    | Constant(value: Num)
    | Variable(name: string)
    | UnaryOp(operator: string, operand: Expr)
    | BinaryOp(operator: string, left: Expr, right: Expr)
    | FunctionCall(functionName: string, arguments: seq<Expr>)

  /** The number of nodes of a tree. */
  function Size(e: Expr): (n: nat)
    ensures n >= 1
    decreases e
  {
    match e
    case Constant(_) => 1
    case Variable(_) => 1
    case UnaryOp(_, a) => 1 + Size(a)
    case BinaryOp(_, l, r) => 1 + Size(l) + Size(r)
    case FunctionCall(_, args) => 1 + SizeAll(args)
  }

  /** The number of nodes of a list of trees. */
  function SizeAll(args: seq<Expr>): (n: nat)
    ensures n >= |args|
    decreases args
  {
    if args == [] then 0 else Size(args[0]) + SizeAll(args[1..])
  }
}
