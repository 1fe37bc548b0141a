/** The syntax tree the parser builds (Expr.swift, Stmt.swift, and the node kinds
    Logical, Block, If and While that Parser.swift constructs). Each visitor
    protocol becomes a closed datatype; `accept` dispatch becomes `match`. */
module Ast {
  import opened Wrappers
  import opened Tokens
  import opened Values

  datatype Expr =
    | Binary(left: Expr, operator: Token, right: Expr)
    | Unary(operator: Token, right: Expr)
    | Grouping(expression: Expr)
    | Literal(literal: LiteralValue)
    | Variable(name: Token)
    | Assign(name: Token, value: Expr)
    | Logical(left: Expr, operator: Token, right: Expr)

  datatype Stmt =
    | Expression(expression: Expr)
    | Print(expression: Expr)
    | Var(name: Token, initializer: Option<Expr>)
    | Block(statements: seq<Stmt>)
    | If(condition: Expr, thenBranch: Stmt, elseBranch: Option<Stmt>)
    | While(condition: Expr, body: Stmt)
}
