/** The Parser class (Parser.swift): a cursor over the tokens, moved by `advance`,
    `match` and `consume`, with one method per grammar rule. A thrown error is a
    returned `Err`; `Slox.handleError` is the `errors` field it appends to. Each
    method is proved to compute what the rule of the same name in module Grammar
    says, including where it leaves the cursor. */
module Parsing {
  import opened Wrappers
  import opened Tokens
  import opened Errors
  import opened Values
  import opened Ast
  import opened Grammar

  class Parser {
    const tokens: seq<Token>
    var current: nat
    var statements: seq<Stmt>
    /** The errors reported through `Slox.handleError`, in order. */
    var errors: seq<SloxError>

    constructor (tokens: seq<Token>)
      requires Parsable(tokens)
      ensures this.tokens == tokens
      ensures current == 0 && statements == [] && errors == []
    {
      this.tokens := tokens;
      current := 0;
      statements := [];
      errors := [];
    }

    // ----- Helpers -----

    /** Moves on unless at EOF, and returns the token before the cursor. */
    method Advance() returns (t: Token)
      requires Parsable(tokens) && current < |tokens| && (0 < current || !AtEnd(tokens, current))
      modifies this`current
      ensures Parsable(tokens) && current < |tokens| && current == Grammar.Advance(tokens, old(current)) && t == tokens[current - 1]
    {
      if !AtEnd(tokens, current) {
        current := current + 1;
      }
      t := tokens[current - 1];
    }

    /** Tries the kinds in order; on the first the current token has, moves past it. */
    method Match(kinds: seq<TokenType>) returns (matched: bool)
      requires Parsable(tokens) && current < |tokens|
      modifies this`current
      ensures Parsable(tokens) && current < |tokens| && matched == Matches(tokens, old(current), kinds)
      ensures current == if matched then old(current) + 1 else old(current)
    {
      for i := 0 to |kinds|
        invariant current == old(current)
        invariant forall j :: 0 <= j < i ==> !Grammar.Check(tokens, current, kinds[j])
      {
        if Grammar.Check(tokens, current, kinds[i]) {
          var _ := Advance();
          return true;
        }
      }
      return false;
    }

    method Consume(kind: TokenType, message: Message) returns (r: Result<Token, SloxError>)
      requires Parsable(tokens) && current < |tokens|
      modifies this`current
      ensures Parsable(tokens) && current < |tokens|
      ensures Grammar.Check(tokens, old(current), kind) ==> r == Ok(tokens[old(current)]) && current == old(current) + 1
      ensures !Grammar.Check(tokens, old(current), kind) ==> r == Err(ParseError(tokens[old(current)], message)) && current == old(current)
    {
      if !Grammar.Check(tokens, current, kind) {
        return Err(ParseError(tokens[current], message));
      }
      var t := Advance();
      return Ok(t);
    }

    // ----- Expressions -----

    method Expression() returns (r: Result<Expr, SloxError>)
      requires Parsable(tokens) && current < |tokens|
      modifies this`current
      ensures Parsable(tokens) && current < |tokens| && var p := Grammar.Assignment(tokens, old(current)); r == p.result && current == p.next
      decreases |tokens| - current, 3 * Levels + 3
    {
      r := Assignment();
    }

    method Assignment() returns (r: Result<Expr, SloxError>)
      requires Parsable(tokens) && current < |tokens|
      modifies this`current
      ensures Parsable(tokens) && current < |tokens| && var p := Grammar.Assignment(tokens, old(current)); r == p.result && current == p.next
      decreases |tokens| - current, 3 * Levels + 2
    {
      var expr := Level(0);
      if expr.Err? {
        return expr;
      }
      var isAssignment := Match([EQUAL]);
      if isAssignment {
        var equals := tokens[current - 1];
        var value := Assignment();
        if value.Err? {
          return value;
        }
        if expr.value.Variable? {
          return Ok(Assign(expr.value.name, value.value));
        }
        return Err(ParseError(equals, InvalidAssignmentTarget));
      }
      return expr;
    }

    /** One of `or`, `and`, `comma`, `equality`, `comparison`, `term` and `factor`,
        which differ only in their operators and operand rule. */
    method Level(level: nat) returns (r: Result<Expr, SloxError>)
      requires Parsable(tokens) && current < |tokens| && level < Levels
      modifies this`current
      ensures Parsable(tokens) && current < |tokens| && var p := LevelAt(tokens, old(current), level); r == p.result && current == p.next
      decreases |tokens| - current, 3 * (Levels - level) + 1
    {
      var left := Operand(level);
      if left.Err? {
        return left;
      }
      r := Operators(level, left.value);
    }

    /** The `while match(...)` loop of a binary level, from the tree built so far. */
    method Operators(level: nat, left: Expr) returns (r: Result<Expr, SloxError>)
      requires Parsable(tokens) && current < |tokens| && level < Levels
      modifies this`current
      ensures Parsable(tokens) && current < |tokens| && var p := LevelLoop(tokens, old(current), level, left); r == p.result && current == p.next
      decreases |tokens| - current, 3 * (Levels - level)
    {
      var expr := left;
      while true
        invariant Parsable(tokens) && current < |tokens| && old(current) <= current
        invariant LevelLoop(tokens, current, level, expr) == LevelLoop(tokens, old(current), level, left)
        decreases |tokens| - current
      {
        var matched := Match(LevelOps(level));
        if !matched {
          break;
        }
        var operator := tokens[current - 1];
        var right := Operand(level);
        if right.Err? {
          return right;
        }
        expr := Combine(level, expr, operator, right.value);
      }
      return Ok(expr);
    }

    /** The operand rule of a level. */
    method Operand(level: nat) returns (r: Result<Expr, SloxError>)
      requires Parsable(tokens) && current < |tokens| && level < Levels
      modifies this`current
      ensures Parsable(tokens) && current < |tokens| && var p := Grammar.Operand(tokens, old(current), level); r == p.result && current == p.next
      decreases |tokens| - current, 3 * (Levels - level) - 1
    {
      if level == Levels - 1 {
        r := Unary();
      } else {
        r := Level(level + 1);
      }
    }

    method Unary() returns (r: Result<Expr, SloxError>)
      requires Parsable(tokens) && current < |tokens|
      modifies this`current
      ensures Parsable(tokens) && current < |tokens| && var p := UnaryAt(tokens, old(current)); r == p.result && current == p.next
      decreases |tokens| - current, 1
    {
      var isUnary := Match([BANG, MINUS]);
      if isUnary {
        var operator := tokens[current - 1];
        var right := Unary();
        if right.Err? {
          return right;
        }
        return Ok(Expr.Unary(operator, right.value));
      }
      r := Primary();
    }

    method Primary() returns (r: Result<Expr, SloxError>)
      requires Parsable(tokens) && current < |tokens|
      modifies this`current
      ensures Parsable(tokens) && current < |tokens| && var p := Grammar.Primary(tokens, old(current)); r == p.result && current == p.next
      decreases |tokens| - current, 0
    {
      var isAtom := Match([NUMBER, STRING, TRUE, FALSE, NIL, IDENTIFIER]);
      if isAtom {
        return Ok(AtomOf(tokens[current - 1]).value);
      }
      var isGroup := Match([LEFT_PAREN]);
      if isGroup {
        ghost var inner := Grammar.Assignment(tokens, current);
        assert Grammar.Primary(tokens, old(current)) == if inner.result.Err? then inner
          else Expect(tokens, inner.next, RIGHT_PAREN, ExpectParenAfterExpression, Grouping(inner.result.value));
        var expr := Expression();
        if expr.Err? {
          return expr;
        }
        var closing := Consume(RIGHT_PAREN, ExpectParenAfterExpression);
        if closing.Err? {
          return Err(closing.error);
        }
        return Ok(Grouping(expr.value));
      }
      return Err(ParseError(tokens[current], ExpectExpression));
    }

    // ----- Statements -----

    /** The statements of the program from the cursor on; they are kept in `statements`
        and returned. */
    method Parse() returns (result: seq<Stmt>)
      requires Parsable(tokens) && current < |tokens|
      modifies this`current, this`statements, this`errors
      ensures result == statements
      ensures (statements, errors) == ParseFrom(tokens, old(current), old(statements), old(errors))
    {
      while !AtEnd(tokens, current)
        invariant current < |tokens|
        invariant ParseFrom(tokens, current, statements, errors) == ParseFrom(tokens, old(current), old(statements), old(errors))
        decreases |tokens| - current
      {
        ghost var done := statements;
        var statement := Declaration();
        if statement.Some? {
          statements := statements + [statement.value];
        }
        assert statements == done + OptionList(statement);
      }
      return statements;
    }

    /** A statement, or, after an error reported and recovered from, none. */
    method Declaration() returns (s: Option<Stmt>)
      requires Parsable(tokens) && current < |tokens| && !AtEnd(tokens, current)
      modifies this`current, this`errors
      ensures current < |tokens|
      ensures var d := Grammar.Declaration(tokens, old(current), old(errors));
        s == d.result.value && current == d.next && errors == d.reported
      decreases |tokens| - current, 4
    {
      var r := VarOrStatement();
      if r.Ok? {
        return Some(r.value);
      }
      errors := errors + [r.error];
      Synchronize();
      return None;
    }

    /** The part of `declaration` inside its `do`. */
    method VarOrStatement() returns (r: Result<Stmt, SloxError>)
      requires Parsable(tokens) && current < |tokens|
      modifies this`current, this`errors
      ensures current < |tokens|
      ensures var p := Grammar.VarOrStatement(tokens, old(current), old(errors));
        r == p.result && current == p.next && errors == p.reported
      decreases |tokens| - current, 3
    {
      var isVar := Match([VAR]);
      if isVar {
        r := VarDeclaration();
      } else {
        r := Statement();
      }
    }

    method VarDeclaration() returns (r: Result<Stmt, SloxError>)
      requires Parsable(tokens) && current < |tokens|
      modifies this`current
      ensures current < |tokens| && var p := Grammar.VarDeclaration(tokens, old(current)); r == p.result && current == p.next
    {
      var name := Consume(IDENTIFIER, ExpectVariableName);
      if name.Err? {
        return Err(name.error);
      }
      r := VarInitializer(name.value);
    }

    /** The rest of `varDeclaration` after the name. */
    method VarInitializer(name: Token) returns (r: Result<Stmt, SloxError>)
      requires Parsable(tokens) && current < |tokens|
      modifies this`current
      ensures current < |tokens| && var p := Grammar.VarInitializer(tokens, old(current), name); r == p.result && current == p.next
    {
      var initializer: Option<Expr> := None;
      var hasInitializer := Match([EQUAL]);
      if hasInitializer {
        var value := Expression();
        if value.Err? {
          return Err(value.error);
        }
        initializer := Some(value.value);
      }
      var semicolon := Consume(SEMICOLON, ExpectSemicolonAfterVar);
      if semicolon.Err? {
        return Err(semicolon.error);
      }
      return Ok(Var(name, initializer));
    }

    method Statement() returns (r: Result<Stmt, SloxError>)
      requires Parsable(tokens) && current < |tokens|
      modifies this`current, this`errors
      ensures current < |tokens|
      ensures var p := Grammar.Statement(tokens, old(current), old(errors));
        r == p.result && current == p.next && errors == p.reported
      decreases |tokens| - current, 2
    {
      var isFor := Match([FOR]);
      if isFor {
        r := ForStatement();
        return;
      }
      var isIf := Match([IF]);
      if isIf {
        r := IfStatement();
        return;
      }
      r := WhileOrSimpleStatement();
    }

    /** The cases of `statement` after `for` and `if`. */
    method WhileOrSimpleStatement() returns (r: Result<Stmt, SloxError>)
      requires Parsable(tokens) && current < |tokens|
      modifies this`current, this`errors
      ensures current < |tokens|
      ensures var p := Grammar.WhileOrSimpleStatement(tokens, old(current), old(errors));
        r == p.result && current == p.next && errors == p.reported
      decreases |tokens| - current, 1
    {
      var isWhile := Match([WHILE]);
      if isWhile {
        r := WhileStatement();
        return;
      }
      r := SimpleStatement();
    }

    /** The rest of `statement`: `print`, a block or an expression statement. */
    method SimpleStatement() returns (r: Result<Stmt, SloxError>)
      requires Parsable(tokens) && current < |tokens|
      modifies this`current, this`errors
      ensures current < |tokens|
      ensures var p := Grammar.SimpleStatement(tokens, old(current), old(errors));
        r == p.result && current == p.next && errors == p.reported
      decreases |tokens| - current, 0
    {
      var isPrint := Match([PRINT]);
      if isPrint {
        r := PrintStatement();
        return;
      }
      var isBlock := Match([LEFT_BRACE]);
      if isBlock {
        r := BlockStatement();
        return;
      }
      r := ExpressionStatement();
    }

    /** A block statement, after `{`. */
    method BlockStatement() returns (r: Result<Stmt, SloxError>)
      requires Parsable(tokens) && current < |tokens|
      modifies this`current, this`errors
      ensures current < |tokens|
      ensures var p := Grammar.BlockStatement(tokens, old(current), old(errors));
        r == p.result && current == p.next && errors == p.reported
      decreases |tokens| - current, 6
    {
      var statements := Block();
      if statements.Err? {
        return Err(statements.error);
      }
      return Ok(Stmt.Block(statements.value));
    }

    /** `forStatement`, after `for`. */
    method ForStatement() returns (r: Result<Stmt, SloxError>)
      requires Parsable(tokens) && current < |tokens|
      modifies this`current, this`errors
      ensures current < |tokens|
      ensures var p := Grammar.ForStatement(tokens, old(current), old(errors));
        r == p.result && current == p.next && errors == p.reported
      decreases |tokens| - current, 0
    {
      var paren := Consume(LEFT_PAREN, ExpectParenAfterFor);
      if paren.Err? {
        return Err(paren.error);
      }
      var initializer := Initializer();
      if initializer.Err? {
        return Err(initializer.error);
      }
      r := ForLoop(initializer.value);
    }

    /** The clauses and body of a `for` after its initializer, desugared to a `while`
        loop step by step. */
    method ForLoop(initializer: Option<Stmt>) returns (r: Result<Stmt, SloxError>)
      requires Parsable(tokens) && current < |tokens|
      modifies this`current, this`errors
      ensures current < |tokens|
      ensures var p := Grammar.ForLoop(tokens, old(current), initializer, old(errors));
        r == p.result && current == p.next && errors == p.reported
      decreases |tokens| - current, 0
    {
      var clauses := Clauses();
      if clauses.Err? {
        return Err(clauses.error);
      }
      var body := Statement();
      if body.Err? {
        return body;
      }
      var loop := body.value;
      if clauses.value.increment.Some? {
        loop := Stmt.Block([loop, Stmt.Expression(clauses.value.increment.value)]);
      }
      loop := While(if clauses.value.condition.Some? then clauses.value.condition.value else Literal(Bool(true)), loop);
      if initializer.Some? {
        loop := Stmt.Block([initializer.value, loop]);
      }
      return Ok(loop);
    }

    /** The initializer clause of a `for`: nothing and `;`, a variable declaration or
        an expression statement. */
    method Initializer() returns (r: Result<Option<Stmt>, SloxError>)
      requires Parsable(tokens) && current < |tokens|
      modifies this`current
      ensures current < |tokens| && var p := ForInitializer(tokens, old(current)); r == p.result && current == p.next
    {
      var noInitializer := Match([SEMICOLON]);
      if noInitializer {
        return Ok(None);
      }
      var isVar := Match([VAR]);
      var statement;
      if isVar {
        statement := VarDeclaration();
      } else {
        statement := ExpressionStatement();
      }
      if statement.Err? {
        return Err(statement.error);
      }
      return Ok(Some(statement.value));
    }

    /** The condition, `;`, increment and `)` of a `for`, read the corrected way: an
        empty clause is its delimiter, consumed once. The source's `match` consumes that
        delimiter and its `consume` then demands another. */
    method Clauses() returns (r: Result<ForClauses, SloxError>)
      requires Parsable(tokens) && current < |tokens|
      modifies this`current
      ensures current < |tokens| && var p := ForClausesAt(tokens, old(current)); r == p.result && current == p.next
    {
      var condition := ConditionClause();
      if condition.Err? {
        return Err(condition.error);
      }
      var increment := IncrementClause();
      if increment.Err? {
        return Err(increment.error);
      }
      return Ok(ForClauses(condition.value, increment.value));
    }

    /** The condition clause of a `for` and the `;` after it, read the corrected way. */
    method ConditionClause() returns (r: Result<Option<Expr>, SloxError>)
      requires Parsable(tokens) && current < |tokens|
      modifies this`current
      ensures current < |tokens| && var p := Grammar.Clause(tokens, old(current), SEMICOLON, ExpectSemicolonAfterCondition); r == p.result && current == p.next
    {
      if Grammar.Check(tokens, current, SEMICOLON) {
        var _ := Consume(SEMICOLON, ExpectSemicolonAfterCondition);
        return Ok(None);
      }
      var value := Expression();
      if value.Err? {
        return Err(value.error);
      }
      var closing := Consume(SEMICOLON, ExpectSemicolonAfterCondition);
      if closing.Err? {
        return Err(closing.error);
      }
      return Ok(Some(value.value));
    }

    /** The increment clause of a `for` and the `)` after it, read the corrected way. */
    method IncrementClause() returns (r: Result<Option<Expr>, SloxError>)
      requires Parsable(tokens) && current < |tokens|
      modifies this`current
      ensures current < |tokens| && var p := Grammar.Clause(tokens, old(current), RIGHT_PAREN, ExpectParenAfterClauses); r == p.result && current == p.next
    {
      if Grammar.Check(tokens, current, RIGHT_PAREN) {
        var _ := Consume(RIGHT_PAREN, ExpectParenAfterClauses);
        return Ok(None);
      }
      var value := Expression();
      if value.Err? {
        return Err(value.error);
      }
      var closing := Consume(RIGHT_PAREN, ExpectParenAfterClauses);
      if closing.Err? {
        return Err(closing.error);
      }
      return Ok(Some(value.value));
    }

    /** `(`, the condition of an `if` or `while`, and `)`. */
    method Condition(open: Message, close: Message) returns (r: Result<Expr, SloxError>)
      requires Parsable(tokens) && current < |tokens|
      modifies this`current
      ensures current < |tokens| && var p := Grammar.Condition(tokens, old(current), open, close); r == p.result && current == p.next
    {
      var paren := Consume(LEFT_PAREN, open);
      if paren.Err? {
        return Err(paren.error);
      }
      var condition := Expression();
      if condition.Err? {
        return condition;
      }
      var closing := Consume(RIGHT_PAREN, close);
      if closing.Err? {
        return Err(closing.error);
      }
      return condition;
    }

    method IfStatement() returns (r: Result<Stmt, SloxError>)
      requires Parsable(tokens) && current < |tokens|
      modifies this`current, this`errors
      ensures current < |tokens|
      ensures var p := Grammar.IfStatement(tokens, old(current), old(errors));
        r == p.result && current == p.next && errors == p.reported
      decreases |tokens| - current, 0
    {
      var condition := Condition(ExpectParenAfterIf, ExpectParenAfterIfCondition);
      if condition.Err? {
        return Err(condition.error);
      }
      r := IfBranches(condition.value);
    }

    /** The branches of an `if`, after its condition. */
    method IfBranches(condition: Expr) returns (r: Result<Stmt, SloxError>)
      requires Parsable(tokens) && current < |tokens|
      modifies this`current, this`errors
      ensures current < |tokens|
      ensures var p := Grammar.IfBranches(tokens, old(current), condition, old(errors));
        r == p.result && current == p.next && errors == p.reported
      decreases |tokens| - current, 3
    {
      var thenBranch := Statement();
      if thenBranch.Err? {
        return thenBranch;
      }
      var elseBranch := ElseBranch();
      if elseBranch.Err? {
        return Err(elseBranch.error);
      }
      return Ok(If(condition, thenBranch.value, elseBranch.value));
    }

    /** The optional `else` branch of an `if`. */
    method ElseBranch() returns (r: Result<Option<Stmt>, SloxError>)
      requires Parsable(tokens) && current < |tokens|
      modifies this`current, this`errors
      ensures current < |tokens|
      ensures var p := Grammar.ElseBranch(tokens, old(current), old(errors));
        r == p.result && current == p.next && errors == p.reported
      decreases |tokens| - current, 0
    {
      var hasElse := Match([ELSE]);
      if !hasElse {
        return Ok(None);
      }
      var branch := Statement();
      if branch.Err? {
        return Err(branch.error);
      }
      return Ok(Some(branch.value));
    }

    method WhileStatement() returns (r: Result<Stmt, SloxError>)
      requires Parsable(tokens) && current < |tokens|
      modifies this`current, this`errors
      ensures current < |tokens|
      ensures var p := Grammar.WhileStatement(tokens, old(current), old(errors));
        r == p.result && current == p.next && errors == p.reported
      decreases |tokens| - current, 0
    {
      var condition := Condition(ExpectParenAfterWhile, ExpectParenAfterWhileCondition);
      if condition.Err? {
        return Err(condition.error);
      }
      var body := Statement();
      if body.Err? {
        return body;
      }
      return Ok(While(condition.value, body.value));
    }

    method PrintStatement() returns (r: Result<Stmt, SloxError>)
      requires Parsable(tokens) && current < |tokens|
      modifies this`current
      ensures current < |tokens| && var p := Grammar.PrintStatement(tokens, old(current)); r == p.result && current == p.next
    {
      var value := Expression();
      if value.Err? {
        return Err(value.error);
      }
      var semicolon := Consume(SEMICOLON, ExpectSemicolonAfterValue);
      if semicolon.Err? {
        return Err(semicolon.error);
      }
      return Ok(Print(value.value));
    }

    /** The declarations up to `}`, and the `}`. */
    method Block() returns (r: Result<seq<Stmt>, SloxError>)
      requires Parsable(tokens) && current < |tokens|
      modifies this`current, this`errors
      ensures current < |tokens|
      ensures var b := BlockLoop(tokens, old(current), [], old(errors));
        r == b.result && current == b.next && errors == b.reported
      decreases |tokens| - current, 5
    {
      var statements: seq<Stmt> := [];
      while !Grammar.Check(tokens, current, RIGHT_BRACE) && !AtEnd(tokens, current)
        invariant old(current) <= current < |tokens|
        invariant BlockLoop(tokens, current, statements, errors) == BlockLoop(tokens, old(current), [], old(errors))
        decreases |tokens| - current
      {
        ghost var done := statements;
        var statement := Declaration();
        if statement.Some? {
          statements := statements + [statement.value];
        }
        assert statements == done + OptionList(statement);
      }
      var closing := Consume(RIGHT_BRACE, ExpectBraceAfterBlock);
      if closing.Err? {
        return Err(closing.error);
      }
      return Ok(statements);
    }

    method ExpressionStatement() returns (r: Result<Stmt, SloxError>)
      requires Parsable(tokens) && current < |tokens|
      modifies this`current
      ensures current < |tokens| && var p := Grammar.ExpressionStatement(tokens, old(current)); r == p.result && current == p.next
    {
      var value := Expression();
      if value.Err? {
        return Err(value.error);
      }
      var semicolon := Consume(SEMICOLON, ExpectSemicolonAfterExpression);
      if semicolon.Err? {
        return Err(semicolon.error);
      }
      return Ok(Stmt.Expression(value.value));
    }

    // ----- Recovery -----

    /** Skips the current token, then tokens up to just after a `;` or just before a
        token that starts a statement, or up to EOF. */
    method Synchronize()
      requires Parsable(tokens) && current < |tokens| && (0 < current || !AtEnd(tokens, current))
      modifies this`current
      ensures current == Grammar.Synchronize(tokens, old(current))
    {
      var _ := Advance();
      while !AtEnd(tokens, current)
        invariant 0 < current < |tokens|
        invariant SynchronizeLoop(tokens, current) == Grammar.Synchronize(tokens, old(current))
        decreases |tokens| - current
      {
        if tokens[current - 1].kind == SEMICOLON {
          return;
        }
        if StartsStatement(tokens[current].kind) {
          return;
        }
        var _ := Advance();
      }
    }
  }

  /** Parses a token list from its start: the statements and the reported errors. */
  method ParseTokens(tokens: seq<Token>) returns (statements: seq<Stmt>, errors: seq<SloxError>)
    requires Parsable(tokens)
    ensures (statements, errors) == Grammar.Parse(tokens)
  {
    var parser := new Parser(tokens);
    statements := parser.Parse();
    errors := parser.errors;
  }
}
