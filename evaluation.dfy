/** What the interpreter computes (Interpreter.swift), as functions of the syntax tree,
    the environment's scopes and the output printed so far. The Interpreter class in
    module Interpreting is proved to compute exactly these.

    The interpreter has no visitor for Assign and Logical expressions, nor for Block,
    If and While statements; evaluating or executing one of them is Unsupported
    rather than given a meaning the source does not have. */
module Evaluation {
  import opened Wrappers
  import opened Tokens
  import opened Errors
  import opened Values
  import opened Ast
  import opened Bindings

  /** Why evaluation stopped: a runtime error thrown, or a node the interpreter has no
      visitor for. */
  datatype Halt = Raised(error: SloxError) | Unsupported

  /** The interpreter's state: its environment's scopes and the lines printed. */
  datatype State = State(scopes: seq<Scope>, output: seq<string>)

  /** `isTruthy`: nil and false are falsy, everything else is truthy. */
  predicate IsTruthy(v: LiteralValue) {
    if v == Nil then false else if v.Bool? then v.truth else true
  }

  /** `checkSameType`: the error thrown when the operands are of different variants. */
  function CheckSameType(op: Token, left: LiteralValue, right: LiteralValue): (r: Option<SloxError>)
    ensures r.None? <==> SameType(left, right)
  {
    if NotSameType(left, right) then Some(RuntimeError(op, OperandsSameType)) else None
  }

  /** The value of a comparison whose operands passed `checkSameType`. */
  function Compare(kind: TokenType, left: LiteralValue, right: LiteralValue): bool {
    match kind
    case GREATER => Greater(left, right)
    case GREATER_EQUAL => GreaterEqual(left, right)
    case LESS => Less(left, right)
    case LESS_EQUAL => LessEqual(left, right)
    case EQUAL_EQUAL => Equal(left, right)
    case _ => NotEqual(left, right)
  }

  predicate IsComparison(kind: TokenType) {
    kind in {GREATER, GREATER_EQUAL, LESS, LESS_EQUAL, EQUAL_EQUAL, BANG_EQUAL}
  }

  /** The operator switch of `visitBinaryExpr`, on the two operand values. */
  function BinaryValue(op: Token, left: LiteralValue, right: LiteralValue, fractionText: real -> string): Result<LiteralValue, SloxError> {
    match op.kind
    case MINUS =>
      if left.Number? && right.Number? then Ok(Number(left.number - right.number))
      else Err(RuntimeError(op, OperandsNumbers))
    case SLASH =>
      if left.Number? && right.Number? then
        if right.number == 0.0 then Err(RuntimeError(op, DivisionByZero))
        else Ok(Number(left.number / right.number))
      else Err(RuntimeError(op, OperandsNumbers))
    case STAR =>
      if left.Number? && right.Number? then Ok(Number(left.number * right.number))
      else Err(RuntimeError(op, OperandsNumbers))
    case PLUS =>
      if left.Number? && right.Number? then Ok(Number(left.number + right.number))
      else if left.String? && right.String? then Ok(String(left.text + right.text))
      else if (left.Number? && right.String?) || (left.String? && right.Number?) then
        Ok(String(Description(left, fractionText) + Description(right, fractionText)))
      else Err(RuntimeError(op, OperandsNumbersOrStrings))
    case COMMA => Ok(right)
    case _ =>
      if IsComparison(op.kind) then
        var mismatch := CheckSameType(op, left, right);
        if mismatch.Some? then Err(mismatch.value) else Ok(Bool(Compare(op.kind, left, right)))
      else Err(RuntimeError(op, UnknownOperator))
  }

  /** The operator switch of `visitUnaryExpr`, on the operand value. */
  function UnaryValue(op: Token, right: LiteralValue): Result<LiteralValue, SloxError> {
    match op.kind
    case BANG => Ok(Bool(!IsTruthy(right)))
    case MINUS => if right.Number? then Ok(Number(-right.number)) else Err(RuntimeError(op, OperandNumber))
    case _ => Ok(Nil)
  }

  /** A thrown error as the reason evaluation stopped. */
  function Raise<T>(r: Result<T, SloxError>): Result<T, Halt> {
    if r.Ok? then Ok(r.value) else Err(Raised(r.error))
  }

  /** `evaluate`: the value of an expression; operands are evaluated left to right and
      the first error stops evaluation. */
  function Eval(e: Expr, scopes: seq<Scope>, fractionText: real -> string): Result<LiteralValue, Halt> {
    match e
    case Binary(l, op, r) =>
      var left := Eval(l, scopes, fractionText);
      if left.Err? then left
      else
        var right := Eval(r, scopes, fractionText);
        if right.Err? then right else Raise(BinaryValue(op, left.value, right.value, fractionText))
    case Unary(op, r) =>
      var right := Eval(r, scopes, fractionText);
      if right.Err? then right else Raise(UnaryValue(op, right.value))
    case Grouping(inner) => Eval(inner, scopes, fractionText)
    case Literal(v) => Ok(v)
    case Variable(name) => Raise(Lookup(scopes, name))
    case Assign(_, _) => Err(Unsupported)
    case Logical(_, _, _) => Err(Unsupported)
  }

  /** `execute`: the state after one statement. A statement that fails has no effect. */
  function Exec(s: Stmt, state: State, fractionText: real -> string): (r: Result<State, Halt>)
    requires |state.scopes| > 0
    ensures r.Ok? ==> |r.value.scopes| == |state.scopes|
  {
    match s
    case Expression(e) =>
      var v := Eval(e, state.scopes, fractionText);
      if v.Err? then Err(v.error) else Ok(state)
    case Print(e) =>
      var v := Eval(e, state.scopes, fractionText);
      if v.Err? then Err(v.error) else Ok(State(state.scopes, state.output + [Description(v.value, fractionText)]))
    case Var(name, initializer) =>
      var v := if initializer.Some? then Eval(initializer.value, state.scopes, fractionText) else Ok(Nil);
      if v.Err? then Err(v.error) else Ok(State(Define(state.scopes, name.lexeme, v.value), state.output))
    case _ => Err(Unsupported)
  }

  /** The outcome of running statements: the state reached and why running stopped
      early, if it did. */
  datatype Outcome = Outcome(state: State, halt: Option<Halt>)

  /** `interpret`: the statements in order, up to the first that fails. */
  function Run(stmts: seq<Stmt>, state: State, fractionText: real -> string): (r: Outcome)
    requires |state.scopes| > 0
    ensures |r.state.scopes| == |state.scopes|
    decreases |stmts|
  {
    if stmts == [] then Outcome(state, None)
    else
      var next := Exec(stmts[0], state, fractionText);
      if next.Err? then Outcome(state, Some(next.error)) else Run(stmts[1..], next.value, fractionText)
  }
}
