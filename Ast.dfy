/** The statement and expression shapes of the syntax tree, with the fields
    the printer reads. Identifiers, operators and type annotations keep only
    their source text. */
module Ast {
  import opened Wrappers

  /** A function parameter: its identifier and its type annotation's literal. */
  datatype Parameter = Parameter(identifier: string, typeName: string)

  /** An expression node; the children the printer visits are fields. */
  datatype Expr =
    | NumberExpr(number: int)
    | BoolExpr(value: bool)
    | VarExpr(identifier: string)
    | UnaryExpr(operator: string, operand: Expr)
    | BinaryExpr(left: Expr, operator: string, right: Expr)
    | ParenthesizedExpr(expression: Expr)
    | AssignExpr(identifier: string, expression: Expr)
    | CallExpr(callee: Expr, arguments: seq<Expr>)
    | BlockExpr(stmts: seq<Stmt>)
    | IfExpr(condition: Expr, thenBranch: Expr, elseBranch: Option<Expr>)
    | FuncExpr(parameters: seq<Parameter>, body: Expr)
    | RecExpr
    | ErrorExpr(span: string)

  /** The statement shapes the printer handles. */
  datatype Stmt =
    | ExpressionStmt(expr: Expr)
    | ReturnStmt(returnValue: Option<Expr>)
    | WhileStmt(condition: Expr, body: Expr)
}
