/** Slox.Error (Slox+Error.swift): the errors the parser throws and the interpreter raises.
    Each carries the token it is about and one of the fixed messages of the source,
    whose text `Text` gives. */
module Errors {
  import opened Tokens

  datatype Message =
    // Parser.swift
    | ExpectVariableName
    | ExpectSemicolonAfterVar
    | ExpectParenAfterFor
    | ExpectSemicolonAfterCondition
    | ExpectParenAfterClauses
    | ExpectParenAfterIf
    | ExpectParenAfterIfCondition
    | ExpectParenAfterWhile
    | ExpectParenAfterWhileCondition
    | ExpectSemicolonAfterValue
    | ExpectBraceAfterBlock
    | ExpectSemicolonAfterExpression
    | InvalidAssignmentTarget
    | ExpectParenAfterExpression
    | ExpectExpression
    // Interpreter.swift
    | OperandsSameType
    | OperandsNumbers
    | DivisionByZero
    | OperandsNumbersOrStrings
    | UnknownOperator
    | OperandNumber
    // Environment.swift
    | UninitializedVariable(name: string)
    | UndefinedVariable(name: string)
    | UndefinedAssignTarget(name: string)

  datatype SloxError =
    | RuntimeError(token: Token, message: Message)
    | ParseError(token: Token, message: Message)

  /** The message as the source spells it. */
  function Text(m: Message): string {
    match m
    case ExpectVariableName => "Expect variable name."
    case ExpectSemicolonAfterVar => "Expect ';' after variable declaration."
    case ExpectParenAfterFor => "Expect '(' after for."
    case ExpectSemicolonAfterCondition => "Expect ';' after loop condition."
    case ExpectParenAfterClauses => "Expect ')' after for clauses."
    case ExpectParenAfterIf => "Expect '(' after if."
    case ExpectParenAfterIfCondition => "Expect ')' after if condition."
    case ExpectParenAfterWhile => "Expect '(' after while."
    case ExpectParenAfterWhileCondition => "Expect ')' after while condition."
    case ExpectSemicolonAfterValue => "Expect ';' after value"
    case ExpectBraceAfterBlock => "Expect '}' after block."
    case ExpectSemicolonAfterExpression => "Expect ';' after expression statement."
    case InvalidAssignmentTarget => "Invalid assignment target."
    case ExpectParenAfterExpression => "Expect ')' after expression."
    case ExpectExpression => "Expect expression."
    case OperandsSameType => "Operands must be of same type."
    case OperandsNumbers => "Operands must be numbers."
    case DivisionByZero => "Division by 0 is not allowed."
    case OperandsNumbersOrStrings => "Operands must be two numbers or two strings."
    case UnknownOperator => "Unknown operator."
    case OperandNumber => "Operand must be a number."
    case UninitializedVariable(name) => "Cannot use unitialized variable '" + name + "'."
    case UndefinedVariable(name) => "Undefined variable " + name + "."
    case UndefinedAssignTarget(name) => "Undefined variable '" + name + "'."
  }
}
