/** What the interpreter promises (Interpreter.swift): truthiness, the operand rules of
    each operator, left-to-right evaluation, what `var` and `print` do, and that
    `interpret` stops at the first failing statement keeping what came before. */
module EvaluationFacts {
  import opened Wrappers
  import opened Tokens
  import opened Errors
  import opened Values
  import opened Ast
  import opened Bindings
  import opened Evaluation

  /** Exactly nil and false are falsy. */
  lemma FalsyValues(v: LiteralValue)
    ensures !IsTruthy(v) <==> v == Nil || v == Bool(false)
  {
  }

  /** `-`, `*` and `/` compute on two numbers and throw "Operands must be numbers."
      for any other pair; `/` by zero throws "Division by 0 is not allowed.". */
  lemma ArithmeticOperands(op: Token, left: LiteralValue, right: LiteralValue, fractionText: real -> string)
    requires op.kind in {MINUS, STAR, SLASH}
    ensures var r := BinaryValue(op, left, right, fractionText);
      (!(left.Number? && right.Number?) ==> r == Err(RuntimeError(op, OperandsNumbers))) &&
      (left.Number? && right.Number? && op.kind == SLASH && right.number == 0.0 ==> r == Err(RuntimeError(op, DivisionByZero))) &&
      (left.Number? && right.Number? && !(op.kind == SLASH && right.number == 0.0) ==>
        r.Ok? && r.value.Number? &&
        r.value.number == match op.kind
          case MINUS => left.number - right.number
          case STAR => left.number * right.number
          case _ => left.number / right.number)
  {
  }

  /** `+` adds numbers, concatenates strings, concatenates the display texts of a
      number and a string in either order, and throws for every other pair. */
  lemma PlusOperands(op: Token, left: LiteralValue, right: LiteralValue, fractionText: real -> string)
    requires op.kind == PLUS
    ensures var r := BinaryValue(op, left, right, fractionText);
      (left.Number? && right.Number? ==> r == Ok(Number(left.number + right.number))) &&
      (left.String? && right.String? ==> r == Ok(String(left.text + right.text))) &&
      (left.Number? != right.Number? && (left.String? || right.String?) && (left.Number? || right.Number?) ==>
        r == Ok(String(Description(left, fractionText) + Description(right, fractionText)))) &&
      (r.Err? <==> !((left.Number? || left.String?) && (right.Number? || right.String?))) &&
      (r.Err? ==> r.error == RuntimeError(op, OperandsNumbersOrStrings))
  {
  }

  /** The comparisons and equalities throw "Operands must be of same type." exactly when
      the operands are of different variants, and otherwise yield a boolean. */
  lemma ComparisonOperands(op: Token, left: LiteralValue, right: LiteralValue, fractionText: real -> string)
    requires IsComparison(op.kind)
    ensures var r := BinaryValue(op, left, right, fractionText);
      (r.Err? <==> !SameType(left, right)) &&
      (r.Err? ==> r.error == RuntimeError(op, OperandsSameType)) &&
      (r.Ok? ==> r.value.Bool?)
  {
  }

  /** Equality on operands of one variant is structural equality. */
  lemma EqualityIsStructural(op: Token, left: LiteralValue, right: LiteralValue, fractionText: real -> string)
    requires op.kind in {EQUAL_EQUAL, BANG_EQUAL} && SameType(left, right)
    ensures BinaryValue(op, left, right, fractionText) == Ok(Bool((left == right) == (op.kind == EQUAL_EQUAL)))
  {
    EqualIsIdentity(left, right);
  }

  /** The comma operator yields its right operand. */
  lemma CommaYieldsRight(op: Token, left: LiteralValue, right: LiteralValue, fractionText: real -> string)
    requires op.kind == COMMA
    ensures BinaryValue(op, left, right, fractionText) == Ok(right)
  {
  }

  /** `!` negates truthiness; `-` negates a number and throws "Operand must be a
      number." for anything else. */
  lemma UnaryOperands(op: Token, right: LiteralValue)
    ensures op.kind == BANG ==> UnaryValue(op, right) == Ok(Bool(right == Nil || right == Bool(false)))
    ensures op.kind == MINUS && right.Number? ==> UnaryValue(op, right) == Ok(Number(-right.number))
    ensures op.kind == MINUS && !right.Number? ==> UnaryValue(op, right) == Err(RuntimeError(op, OperandNumber))
  {
  }

  /** The left operand is evaluated first: if it fails, that is the outcome whatever the
      right operand is; if it succeeds and the right fails, the right's error is. */
  lemma LeftOperandFirst(l: Expr, op: Token, r: Expr, scopes: seq<Scope>, fractionText: real -> string)
    ensures Eval(l, scopes, fractionText).Err? ==> Eval(Binary(l, op, r), scopes, fractionText) == Eval(l, scopes, fractionText)
    ensures Eval(l, scopes, fractionText).Ok? && Eval(r, scopes, fractionText).Err? ==>
      Eval(Binary(l, op, r), scopes, fractionText) == Eval(r, scopes, fractionText)
  {
  }

  /** `var name = e;` binds name to e's value in the innermost scope, and `var name;`
      binds it to nil, so that reading it throws that it is uninitialized. */
  lemma VarDefines(name: Token, initializer: Option<Expr>, state: State, fractionText: real -> string)
    requires |state.scopes| > 0
    ensures var v := if initializer.Some? then Eval(initializer.value, state.scopes, fractionText) else Ok(Nil);
      var r := Exec(Var(name, initializer), state, fractionText);
      (v.Err? ==> r == Err(v.error)) &&
      (v.Ok? ==> (r.Ok? && r.value.output == state.output && r.value.scopes[1..] == state.scopes[1..] &&
                  r.value.scopes[0] == state.scopes[0][name.lexeme := v.value] &&
                  Lookup(r.value.scopes, name) ==
                    (if v.value == Nil then Err(RuntimeError(name, UninitializedVariable(name.lexeme))) else Ok(v.value))))
  {
    var v := if initializer.Some? then Eval(initializer.value, state.scopes, fractionText) else Ok(Nil);
    if v.Ok? {
      GetAfterDefine(state.scopes, name, v.value);
    }
  }

  /** `print e;` appends e's display text to the output and changes no variable. */
  lemma PrintAppends(e: Expr, state: State, fractionText: real -> string)
    requires |state.scopes| > 0
    ensures var v := Eval(e, state.scopes, fractionText); var r := Exec(Print(e), state, fractionText);
      (v.Err? ==> r == Err(v.error)) &&
      (v.Ok? ==> r == Ok(State(state.scopes, state.output + [Description(v.value, fractionText)])))
  {
  }

  /** Running two lists one after the other is running their concatenation: the second
      runs only if the first did not stop. */
  lemma {:induction false} RunConcat(a: seq<Stmt>, b: seq<Stmt>, state: State, fractionText: real -> string)
    requires |state.scopes| > 0
    ensures var first := Run(a, state, fractionText);
      Run(a + b, state, fractionText) == if first.halt.Some? then first else Run(b, first.state, fractionText)
    decreases |a|
  {
    if a == [] {
      assert a + b == b;
    } else {
      var next := Exec(a[0], state, fractionText);
      assert (a + b)[0] == a[0] && (a + b)[1..] == a[1..] + b;
      if next.Ok? {
        RunConcat(a[1..], b, next.value, fractionText);
      }
    }
  }

  /** `interpret` stops at the first statement that fails: the statements before it
      keep their effects, and nothing after it runs. */
  lemma StopsAtFirstFailure(before: seq<Stmt>, failing: Stmt, after: seq<Stmt>, state: State, fractionText: real -> string)
    requires |state.scopes| > 0
    requires Run(before, state, fractionText).halt.None?
    requires Exec(failing, Run(before, state, fractionText).state, fractionText).Err?
    ensures var reached := Run(before, state, fractionText).state;
      Run(before + [failing] + after, state, fractionText) == Outcome(reached, Some(Exec(failing, reached, fractionText).error))
  {
    var rest := [failing] + after;
    assert before + [failing] + after == before + rest;
    assert rest[0] == failing;
    RunConcat(before, rest, state, fractionText);
  }

  /** Output is only ever appended to: running keeps every line printed before. */
  lemma {:induction false} OutputOnlyGrows(stmts: seq<Stmt>, state: State, fractionText: real -> string)
    requires |state.scopes| > 0
    ensures state.output <= Run(stmts, state, fractionText).state.output
    decreases |stmts|
  {
    if stmts != [] {
      var next := Exec(stmts[0], state, fractionText);
      if next.Ok? {
        OutputOnlyGrows(stmts[1..], next.value, fractionText);
      }
    }
  }
}
