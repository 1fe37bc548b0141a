/** The Interpreter class (Interpreter.swift): one global environment updated in place,
    the lines `print` has written, and the runtime errors handed to the error
    handler. Each method is proved to do what the functions of module Evaluation say. */
module Interpreting {
  import opened Wrappers
  import opened Tokens
  import opened Errors
  import opened Values
  import opened Ast
  import opened Bindings
  import opened Environments
  import opened Evaluation

  class Interpreter {
    /** The interpreter's single, global environment. */
    const environment: Environment
    /** How the host prints the fraction of a number (see Values.NumberText). */
    const fractionText: real -> string
    /** What `print` has written to standard output. */
    var output: seq<string>
    /** The runtime errors reported by `interpret`. */
    var errors: seq<SloxError>

    ghost predicate Valid()
      reads this
    {
      environment.Valid() && environment.enclosing == null
    }

    /** The state the evaluation functions speak of. */
    ghost function Current(): State
      requires Valid()
      reads this, environment.Chain()
    {
      State(environment.Scopes(), output)
    }

    constructor (fractionText: real -> string)
      ensures Valid() && this.fractionText == fractionText
      ensures Current() == State([map[]], []) && errors == []
    {
      this.fractionText := fractionText;
      environment := new Environment();
      output := [];
      errors := [];
    }

    /** `evaluate` and the expression visitors. */
    method Evaluate(expr: Expr) returns (r: Result<LiteralValue, Halt>)
      requires Valid()
      ensures r == Eval(expr, environment.Scopes(), fractionText)
      decreases expr
    {
      match expr
      case Binary(l, op, rt) =>
        var left := Evaluate(l);
        if left.Err? {
          return left;
        }
        var right := Evaluate(rt);
        if right.Err? {
          return right;
        }
        return Raise(BinaryValue(op, left.value, right.value, fractionText));
      case Unary(op, rt) =>
        var right := Evaluate(rt);
        if right.Err? {
          return right;
        }
        return Raise(UnaryValue(op, right.value));
      case Grouping(inner) =>
        r := Evaluate(inner);
      case Literal(value) =>
        return Ok(value);
      case Variable(name) =>
        var value := environment.Get(name);
        return Raise(value);
      case Assign(_, _) =>
        return Err(Unsupported);
      case Logical(_, _, _) =>
        return Err(Unsupported);
    }

    /** `visitPrintStmt`: the value's display text is written out. */
    method PrintStatement(expression: Expr) returns (r: Result<(), Halt>)
      requires Valid()
      modifies this`output
      ensures var after := Exec(Print(expression), old(Current()), fractionText);
        (after.Ok? ==> r.Ok? && Current() == after.value) &&
        (after.Err? ==> r == Err(after.error) && output == old(output))
    {
      var value := Evaluate(expression);
      if value.Err? {
        return Err(value.error);
      }
      output := output + [Description(value.value, fractionText)];
      return Ok(());
    }

    /** `visitVarStmt`: the name is defined in the environment, bound to the
        initializer's value or to nil. */
    method VarStatement(name: Token, initializer: Option<Expr>) returns (r: Result<(), Halt>)
      requires Valid()
      modifies environment
      ensures Valid()
      ensures var after := Exec(Var(name, initializer), old(Current()), fractionText);
        (after.Ok? ==> r.Ok? && Current() == after.value) &&
        (after.Err? ==> r == Err(after.error) && environment.values == old(environment.values))
    {
      var value := Ok(Nil);
      if initializer.Some? {
        value := Evaluate(initializer.value);
        if value.Err? {
          return Err(value.error);
        }
      }
      environment.Define(name.lexeme, value.value);
      return Ok(());
    }

    /** `execute`: one statement; a statement that fails changes nothing. */
    method Execute(stmt: Stmt) returns (r: Result<(), Halt>)
      requires Valid()
      modifies environment, this`output
      ensures Valid()
      ensures var after := Exec(stmt, old(Current()), fractionText);
        (after.Ok? ==> r.Ok? && Current() == after.value) &&
        (after.Err? ==> r == Err(after.error) && Current() == old(Current()))
    {
      match stmt
      case Expression(expression) =>
        var value := Evaluate(expression);
        if value.Err? {
          return Err(value.error);
        }
        return Ok(());
      case Print(expression) =>
        r := PrintStatement(expression);
      case Var(name, initializer) =>
        r := VarStatement(name, initializer);
      case _ =>
        return Err(Unsupported);
    }

    /** `interpret`: the statements in order; the first runtime error is handed to the
        error handler and the rest are not run. */
    method Interpret(statements: seq<Stmt>)
      requires Valid()
      modifies environment, this`output, this`errors
      ensures Valid()
      ensures var outcome := Run(statements, old(Current()), fractionText);
        Current() == outcome.state &&
        errors == old(errors) + if outcome.halt.Some? && outcome.halt.value.Raised? then [outcome.halt.value.error] else []
    {
      var i := 0;
      while i < |statements|
        invariant i <= |statements| && Valid() && errors == old(errors)
        invariant Run(statements[i..], Current(), fractionText) == Run(statements, old(Current()), fractionText)
      {
        assert statements[i..][0] == statements[i] && statements[i..][1..] == statements[i + 1..];
        var r := Execute(statements[i]);
        if r.Err? {
          if r.error.Raised? {
            errors := errors + [r.error.error];
          }
          return;
        }
        i := i + 1;
      }
    }
  }
}
