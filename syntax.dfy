/** The expression tree the parser builds. */
module Syntax {
  import opened Tokens

  /** The operator enumerations. Tree nodes carry the operator token itself, so nothing builds these. */
  datatype UnaryOperator = Bang | Minus

  datatype BinaryOperator =
    | Minus | Plus | Slash | Star
    | Equal | NotEqual | Less | LessEqual | Greater | GreaterEqual

  /** The value of a literal node: bool, nil, number or string. */
  datatype LiteralValue = Bool(b: bool) | Nil | Num(n: Tokens.Num) | Str(s: string)

  /**
   * A closed sum of four node kinds. Children are values, so every
   * expression is a finite tree with no sharing.
   */
  datatype Expr =
    | Binary(left: Expr, operator: Token, right: Expr)
    | Grouping(expression: Expr)
    | Literal(value: LiteralValue)
    | Unary(operator: Token, right: Expr)

  /** The number of nodes: a measure that strictly decreases into every child. */
  function Size(e: Expr): (n: nat)
    ensures n >= 1
    ensures e.Binary? ==> Size(e.left) < n && Size(e.right) < n
    ensures e.Grouping? ==> Size(e.expression) < n
    ensures e.Unary? ==> Size(e.right) < n
  {
    match e
    case Binary(left, _, right) => Size(left) + Size(right) + 1
    case Grouping(expression) => Size(expression) + 1
    case Literal(_) => 1
    case Unary(_, right) => Size(right) + 1
  }
}
