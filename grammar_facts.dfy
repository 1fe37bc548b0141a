/** What the grammar promises about the trees it builds and about recovery: every
    expression is shaped by precedence and left associativity, `synchronize` stops
    exactly where the parser can resume, and every error `parse` reports is a parse
    error (Parser.swift). */
module GrammarFacts {
  import opened Wrappers
  import opened Tokens
  import opened Errors
  import opened Values
  import opened Ast
  import opened Grammar

  /** A rule's error, if it throws one, is a parse error. */
  predicate ThrowsParseError<T>(p: Parsed<T>) {
    p.result.Err? ==> p.result.error.ParseError?
  }

  // ----- Precedence and associativity -----
  // Each expression rule also throws nothing but parse errors.

  /** `assignment` builds a shaped tree. */
  lemma {:induction false} AssignmentShaped(ts: seq<Token>, pos: nat)
    requires Parsable(ts) && pos < |ts|
    ensures var r := Assignment(ts, pos); r.result.Ok? ==> Shaped(r.result.value)
    ensures ThrowsParseError(Assignment(ts, pos))
    decreases |ts| - pos, 3 * Levels + 2
  {
    var target := LevelAt(ts, pos, 0);
    LevelShaped(ts, pos, 0);
    if target.result.Ok? && Matches(ts, target.next, [EQUAL]) {
      var value := Assignment(ts, target.next + 1);
      AssignmentShaped(ts, target.next + 1);
      if value.result.Ok? && target.result.value.Variable? {
        assert Assignment(ts, pos).result == Ok(Assign(target.result.value.name, value.result.value));
      }
    }
  }

  /** A binary level builds a shaped tree that binds at least as tightly as the level. */
  lemma {:induction false} LevelShaped(ts: seq<Token>, pos: nat, level: nat)
    requires Parsable(ts) && pos < |ts| && level < Levels
    ensures var r := LevelAt(ts, pos, level); r.result.Ok? ==> Shaped(r.result.value) && Binding(r.result.value) >= level
    ensures ThrowsParseError(LevelAt(ts, pos, level))
    decreases |ts| - pos, 3 * (Levels - level) + 1
  {
    var left := Operand(ts, pos, level);
    OperandShaped(ts, pos, level);
    if left.result.Ok? {
      LevelLoopShaped(ts, left.next, level, left.result.value);
    }
  }

  /** Folding `operator operand` pairs onto a shaped left operand keeps the tree shaped:
      each new node's left side is the tree so far, and its right side binds more
      tightly than the level. */
  lemma {:induction false} LevelLoopShaped(ts: seq<Token>, pos: nat, level: nat, left: Expr)
    requires Parsable(ts) && pos < |ts| && level < Levels
    requires Shaped(left) && Binding(left) >= level
    ensures var r := LevelLoop(ts, pos, level, left); r.result.Ok? ==> Shaped(r.result.value) && Binding(r.result.value) >= level
    ensures ThrowsParseError(LevelLoop(ts, pos, level, left))
    decreases |ts| - pos, 3 * (Levels - level)
  {
    if Matches(ts, pos, LevelOps(level)) {
      var right := Operand(ts, pos + 1, level);
      OperandShaped(ts, pos + 1, level);
      if right.result.Ok? {
        LevelOpsHaveTheirLevel(level, ts[pos].kind);
        var combined := Combine(level, left, ts[pos], right.result.value);
        assert Shaped(combined) && Binding(combined) == level;
        LevelLoopShaped(ts, right.next, level, combined);
      }
    }
  }

  /** The operand of a level binds strictly more tightly than the level. */
  lemma {:induction false} OperandShaped(ts: seq<Token>, pos: nat, level: nat)
    requires Parsable(ts) && pos < |ts| && level < Levels
    ensures var r := Operand(ts, pos, level); r.result.Ok? ==> Shaped(r.result.value) && Binding(r.result.value) > level
    ensures ThrowsParseError(Operand(ts, pos, level))
    decreases |ts| - pos, 3 * (Levels - level) - 1
  {
    if level == Levels - 1 {
      UnaryShaped(ts, pos);
    } else {
      LevelShaped(ts, pos, level + 1);
    }
  }

  /** `unary` builds a shaped tree that no infix operator or assignment sits on top of. */
  lemma {:induction false} UnaryShaped(ts: seq<Token>, pos: nat)
    requires Parsable(ts) && pos < |ts|
    ensures var r := UnaryAt(ts, pos); r.result.Ok? ==> Shaped(r.result.value) && Binding(r.result.value) == Levels
    ensures ThrowsParseError(UnaryAt(ts, pos))
    decreases |ts| - pos, 1
  {
    if Matches(ts, pos, [BANG, MINUS]) {
      UnaryShaped(ts, pos + 1);
    } else {
      PrimaryShaped(ts, pos);
    }
  }

  /** `primary` builds a literal, a variable or a grouping, and the grouping holds a
      shaped tree. */
  lemma {:induction false} PrimaryShaped(ts: seq<Token>, pos: nat)
    requires Parsable(ts) && pos < |ts|
    ensures var r := Primary(ts, pos);
      r.result.Ok? ==> Shaped(r.result.value) && (r.result.value.Literal? || r.result.value.Variable? || r.result.value.Grouping?)
    ensures ThrowsParseError(Primary(ts, pos))
    decreases |ts| - pos, 0
  {
    if AtomOf(ts[pos]).None? && Check(ts, pos, LEFT_PAREN) {
      AssignmentShaped(ts, pos + 1);
    }
  }

  /** An assignment node comes only from an `or`-level expression that is a bare
      variable followed by `=`, and its value is a whole assignment parsed after the
      `=`, so `a = b = c` groups to the right. Any other target followed by `=` and a
      well-formed right side throws "Invalid assignment target." at the `=`. */
  lemma AssignmentTarget(ts: seq<Token>, pos: nat)
    requires Parsable(ts) && pos < |ts|
    ensures var r := Assignment(ts, pos); var target := LevelAt(ts, pos, 0);
      r.result.Ok? && r.result.value.Assign? ==>
        target.result == Ok(Variable(r.result.value.name)) && Check(ts, target.next, EQUAL) &&
        Assignment(ts, target.next + 1) == Parsed(Ok(r.result.value.value), r.next)
    ensures var r := Assignment(ts, pos); var target := LevelAt(ts, pos, 0);
      target.result.Ok? && !target.result.value.Variable? && Check(ts, target.next, EQUAL) &&
      Assignment(ts, target.next + 1).result.Ok? ==>
        r.result == Err(ParseError(ts[target.next], InvalidAssignmentTarget))
  {
    LevelShaped(ts, pos, 0);
  }

  // ----- Concrete groupings -----

  /** The token at pos is EOF or an operator of a level tighter than none from `level`
      on: the loops of those levels stop there. */
  predicate EndsLevel(ts: seq<Token>, pos: nat, level: nat)
    requires pos < |ts|
  {
    AtEnd(ts, pos) || OpLevel(ts[pos].kind) < level
  }

  /** An identifier followed by a token that ends every level from `level` on is, at
      that level, a variable alone. */
  lemma {:induction false} VariableAlone(ts: seq<Token>, pos: nat, level: nat)
    requires Parsable(ts) && pos + 1 < |ts| && level < Levels
    requires ts[pos].kind == IDENTIFIER && EndsLevel(ts, pos + 1, level)
    ensures LevelAt(ts, pos, level) == Parsed(Ok(Variable(ts[pos])), pos + 1)
    decreases Levels - level
  {
    if level + 1 < Levels {
      VariableAlone(ts, pos, level + 1);
      LoopStops(ts, pos + 1, level, Variable(ts[pos]));
    } else {
      VariableAtFactor(ts, pos);
    }
  }

  /** The base case of VariableAlone: the tightest binary level, over `unary`. */
  lemma {:induction false} VariableAtFactor(ts: seq<Token>, pos: nat)
    requires Parsable(ts) && pos + 1 < |ts|
    requires ts[pos].kind == IDENTIFIER && EndsLevel(ts, pos + 1, Levels - 1)
    ensures LevelAt(ts, pos, Levels - 1) == Parsed(Ok(Variable(ts[pos])), pos + 1)
  {
    IdentifierIsUnary(ts, pos);
    LoopStops(ts, pos + 1, Levels - 1, Variable(ts[pos]));
  }

  /** An identifier is, as a `unary` expression, a variable alone. */
  lemma {:induction false} IdentifierIsUnary(ts: seq<Token>, pos: nat)
    requires Parsable(ts) && pos < |ts| && ts[pos].kind == IDENTIFIER
    ensures UnaryAt(ts, pos) == Parsed(Ok(Variable(ts[pos])), pos + 1)
  {
    assert UnaryAt(ts, pos) == Primary(ts, pos);
  }

  /** One turn of a level's loop: an operator of the level and an operand. */
  lemma {:induction false} LoopStep(ts: seq<Token>, pos: nat, level: nat, left: Expr, right: Expr, next: nat)
    requires Parsable(ts) && pos + 1 < |ts| && level < Levels && OpLevel(ts[pos].kind) == level
    requires Operand(ts, pos + 1, level) == Parsed(Ok(right), next)
    ensures LevelLoop(ts, pos, level, left) == LevelLoop(ts, next, level, Combine(level, left, ts[pos], right))
  {
    LevelOpsHaveTheirLevel(level, ts[pos].kind);
  }

  /** A level's loop stops at a token that ends the level. */
  lemma {:induction false} LoopStops(ts: seq<Token>, pos: nat, level: nat, left: Expr)
    requires Parsable(ts) && pos < |ts| && level < Levels && EndsLevel(ts, pos, level)
    ensures LevelLoop(ts, pos, level, left) == Parsed(Ok(left), pos)
  {
    LevelOpsHaveTheirLevel(level, ts[pos].kind);
  }

  /** A level's result stands at every looser level when the token after it ends them. */
  lemma {:induction false} LevelsAbove(ts: seq<Token>, pos: nat, level: nat, from: nat, e: Expr, next: nat)
    requires Parsable(ts) && pos < |ts| && level <= from < Levels
    requires LevelAt(ts, pos, from) == Parsed(Ok(e), next) && EndsLevel(ts, next, level)
    ensures LevelAt(ts, pos, level) == Parsed(Ok(e), next)
    decreases from - level
  {
    if level < from {
      LevelsAbove(ts, pos, level + 1, from, e, next);
      LoopStops(ts, next, level, e);
    }
  }

  /** An expression followed by EOF is not an assignment target: `assignment` yields the
      `or` level's result. */
  lemma {:induction false} AssignmentAtEnd(ts: seq<Token>, pos: nat, e: Expr, next: nat)
    requires Parsable(ts) && pos < |ts| && LevelAt(ts, pos, 0) == Parsed(Ok(e), next) && AtEnd(ts, next)
    ensures Assignment(ts, pos) == Parsed(Ok(e), next)
  {
  }

  /** `a - b - c` parses as `(a - b) - c`: the term level folds to the left. */
  lemma {:induction false} LeftAssociativeExample(a: Token, minus: Token, b: Token, minus': Token, c: Token, eof: Token)
    requires a.kind == IDENTIFIER && b.kind == IDENTIFIER && c.kind == IDENTIFIER
    requires minus.kind == MINUS && minus'.kind == MINUS && eof.kind == EOF
    ensures var ts := [a, minus, b, minus', c, eof];
      Parsable(ts) && Assignment(ts, 0) == Parsed(Ok(Binary(Binary(Variable(a), minus, Variable(b)), minus', Variable(c))), 5)
  {
    var ts := [a, minus, b, minus', c, eof];
    var ab := Binary(Variable(a), minus, Variable(b));
    var abc := Binary(ab, minus', Variable(c));
    VariableAlone(ts, 0, 6);
    VariableAlone(ts, 2, 6);
    VariableAlone(ts, 4, 6);
    LoopStep(ts, 1, 5, Variable(a), Variable(b), 3);
    LoopStep(ts, 3, 5, ab, Variable(c), 5);
    LoopStops(ts, 5, 5, abc);
    LevelsAbove(ts, 0, 0, 5, abc, 5);
    AssignmentAtEnd(ts, 0, abc, 5);
  }

  /** `a + b * c` parses as `a + (b * c)`: factor binds more tightly than term. */
  lemma {:induction false} PrecedenceExample(a: Token, plus: Token, b: Token, star: Token, c: Token, eof: Token)
    requires a.kind == IDENTIFIER && b.kind == IDENTIFIER && c.kind == IDENTIFIER
    requires plus.kind == PLUS && star.kind == STAR && eof.kind == EOF
    ensures var ts := [a, plus, b, star, c, eof];
      Parsable(ts) && Assignment(ts, 0) == Parsed(Ok(Binary(Variable(a), plus, Binary(Variable(b), star, Variable(c)))), 5)
  {
    var ts := [a, plus, b, star, c, eof];
    var bc := Binary(Variable(b), star, Variable(c));
    var abc := Binary(Variable(a), plus, bc);
    VariableAlone(ts, 0, 6);
    IdentifierIsUnary(ts, 2);
    IdentifierIsUnary(ts, 4);
    LoopStep(ts, 3, 6, Variable(b), Variable(c), 5);
    LoopStops(ts, 5, 6, bc);
    assert LevelAt(ts, 2, 6) == Parsed(Ok(bc), 5);
    LoopStep(ts, 1, 5, Variable(a), bc, 5);
    LoopStops(ts, 5, 5, abc);
    LevelsAbove(ts, 0, 0, 5, abc, 5);
    AssignmentAtEnd(ts, 0, abc, 5);
  }

  // ----- Recovery -----

  /** A place where `synchronize` stops: EOF, just after a `;`, or just before a token
      that starts a statement. */
  predicate Boundary(ts: seq<Token>, pos: nat)
    requires 0 < pos < |ts|
  {
    AtEnd(ts, pos) || ts[pos - 1].kind == SEMICOLON || StartsStatement(ts[pos].kind)
  }

  lemma {:induction false} SynchronizeLoopStops(ts: seq<Token>, pos: nat)
    requires Parsable(ts) && 0 < pos < |ts|
    ensures var next := SynchronizeLoop(ts, pos);
      pos <= next && Boundary(ts, next) && forall k :: pos <= k < next ==> !Boundary(ts, k)
    decreases |ts| - pos
  {
    if !Boundary(ts, pos) {
      SynchronizeLoopStops(ts, pos + 1);
    }
  }

  /** `synchronize`, away from EOF, moves past the current token and stops at the first
      boundary after it. */
  lemma SynchronizeStops(ts: seq<Token>, pos: nat)
    requires Parsable(ts) && pos < |ts| && !AtEnd(ts, pos)
    ensures var next := Synchronize(ts, pos);
      pos < next && Boundary(ts, next) && forall k :: pos < k < next ==> !Boundary(ts, k)
  {
    SynchronizeLoopStops(ts, pos + 1);
  }

  // ----- The clauses of `for` -----

  /** A clause of a `for` as Parser.swift:80 and :82 write it: `match` tests for the
      omitted clause and consumes the delimiter, and the `consume` after it then
      demands a second delimiter. */
  function ClauseAsWritten(ts: seq<Token>, pos: nat, delimiter: TokenType, message: Message): (r: Parsed<Option<Expr>>)
    requires Parsable(ts) && pos < |ts|
    ensures pos <= r.next < |ts|
  {
    if Matches(ts, pos, [delimiter]) then Expect(ts, pos + 1, delimiter, message, None)
    else
      var e := Assignment(ts, pos);
      if e.result.Err? then Rethrow(e) else Expect(ts, e.next, delimiter, message, Some(e.result.value))
  }

  /** The condition and increment of a `for` as Parser.swift:80-83 parse them. */
  function ForClausesAsWritten(ts: seq<Token>, pos: nat): (r: Parsed<ForClauses>)
    requires Parsable(ts) && pos < |ts|
    ensures pos <= r.next < |ts|
  {
    var condition := ClauseAsWritten(ts, pos, SEMICOLON, ExpectSemicolonAfterCondition);
    if condition.result.Err? then Rethrow(condition)
    else
      var increment := ClauseAsWritten(ts, condition.next, RIGHT_PAREN, ExpectParenAfterClauses);
      if increment.result.Err? then Rethrow(increment)
      else Parsed(Ok(ForClauses(condition.result.value, increment.result.value)), increment.next)
  }

  /** As written, `for (;;)` is rejected: the omitted condition's `;` is consumed by
      `match`, and the `consume` that follows finds the `)`. */
  lemma OmittedClausesRejectedAsWritten(ts: seq<Token>, pos: nat)
    requires Parsable(ts) && pos + 1 < |ts| && ts[pos].kind == SEMICOLON && ts[pos + 1].kind == RIGHT_PAREN
    ensures ForClausesAsWritten(ts, pos) == Parsed(Err(ParseError(ts[pos + 1], ExpectSemicolonAfterCondition)), pos + 1)
  {
    assert ClauseAsWritten(ts, pos, SEMICOLON, ExpectSemicolonAfterCondition).result.Err?;
  }

  /** Corrected, `for (;;)` has neither a condition nor an increment, and each
      delimiter is read once. */
  lemma OmittedClausesAccepted(ts: seq<Token>, pos: nat)
    requires Parsable(ts) && pos + 1 < |ts| && ts[pos].kind == SEMICOLON && ts[pos + 1].kind == RIGHT_PAREN
    ensures ForClausesAt(ts, pos) == Parsed(Ok(ForClauses(None, None)), pos + 2)
  {
    assert Clause(ts, pos, SEMICOLON, ExpectSemicolonAfterCondition) == Parsed(Ok(None), pos + 1);
  }

  /** With the corrected clauses, `for (;;) body` is `while (true) body`. */
  lemma ForeverLoop(ts: seq<Token>, pos: nat, reported: seq<SloxError>)
    requires Parsable(ts) && pos + 3 < |ts|
    requires ts[pos].kind == LEFT_PAREN && ts[pos + 1].kind == SEMICOLON
    requires ts[pos + 2].kind == SEMICOLON && ts[pos + 3].kind == RIGHT_PAREN
    ensures pos + 4 < |ts|
    ensures var body := Statement(ts, pos + 4, reported); var r := ForStatement(ts, pos, reported);
      r.next == body.next && r.reported == body.reported &&
      r.result == if body.result.Ok? then Ok(While(Literal(Bool(true)), body.result.value)) else body.result
  {
    OmittedClausesAccepted(ts, pos + 2);
  }

  // ----- Errors -----

  /** Every error in the list is a parse error. */
  predicate OnlyParseErrors(es: seq<SloxError>) {
    forall i :: 0 <= i < |es| ==> es[i].ParseError?
  }

  /** What a statement rule does to the errors: it keeps those reported before it,
      adds only parse errors, and throws only a parse error. */
  predicate ReportsParseErrors<T>(reported: seq<SloxError>, r: Reported<T>) {
    reported <= r.reported && (OnlyParseErrors(reported) ==> OnlyParseErrors(r.reported)) &&
    (r.result.Err? ==> r.result.error.ParseError?)
  }

  lemma ExpressionStatementThrowsParseError(ts: seq<Token>, pos: nat)
    requires Parsable(ts) && pos < |ts|
    ensures ThrowsParseError(ExpressionStatement(ts, pos))
  {
    AssignmentShaped(ts, pos);
  }

  lemma PrintStatementThrowsParseError(ts: seq<Token>, pos: nat)
    requires Parsable(ts) && pos < |ts|
    ensures ThrowsParseError(PrintStatement(ts, pos))
  {
    AssignmentShaped(ts, pos);
  }

  lemma VarDeclarationThrowsParseError(ts: seq<Token>, pos: nat)
    requires Parsable(ts) && pos < |ts|
    ensures ThrowsParseError(VarDeclaration(ts, pos))
  {
    if Check(ts, pos, IDENTIFIER) && Matches(ts, pos + 1, [EQUAL]) {
      AssignmentShaped(ts, pos + 2);
    }
  }

  lemma ForInitializerThrowsParseError(ts: seq<Token>, pos: nat)
    requires Parsable(ts) && pos < |ts|
    ensures ThrowsParseError(ForInitializer(ts, pos))
  {
    if !Matches(ts, pos, [SEMICOLON]) {
      if Matches(ts, pos, [VAR]) {
        VarDeclarationThrowsParseError(ts, pos + 1);
      } else {
        ExpressionStatementThrowsParseError(ts, pos);
      }
    }
  }

  lemma ForClausesThrowParseError(ts: seq<Token>, pos: nat)
    requires Parsable(ts) && pos < |ts|
    ensures ThrowsParseError(ForClausesAt(ts, pos))
  {
    if !Check(ts, pos, SEMICOLON) {
      AssignmentShaped(ts, pos);
    }
    var condition := Clause(ts, pos, SEMICOLON, ExpectSemicolonAfterCondition);
    if condition.result.Ok? && !Check(ts, condition.next, RIGHT_PAREN) {
      AssignmentShaped(ts, condition.next);
    }
  }

  lemma ConditionThrowsParseError(ts: seq<Token>, pos: nat, open: Message, close: Message)
    requires Parsable(ts) && pos < |ts|
    ensures ThrowsParseError(Condition(ts, pos, open, close))
  {
    if Check(ts, pos, LEFT_PAREN) {
      AssignmentShaped(ts, pos + 1);
    }
  }

  lemma {:induction false} DeclarationReportsParseErrors(ts: seq<Token>, pos: nat, reported: seq<SloxError>)
    requires Parsable(ts) && pos < |ts|
    ensures ReportsParseErrors(reported, Declaration(ts, pos, reported))
    decreases |ts| - pos, 4
  {
    VarOrStatementReportsParseErrors(ts, pos, reported);
  }

  lemma {:induction false} VarOrStatementReportsParseErrors(ts: seq<Token>, pos: nat, reported: seq<SloxError>)
    requires Parsable(ts) && pos < |ts|
    ensures ReportsParseErrors(reported, VarOrStatement(ts, pos, reported))
    decreases |ts| - pos, 3
  {
    if Matches(ts, pos, [VAR]) {
      VarDeclarationThrowsParseError(ts, pos + 1);
    } else {
      StatementReportsParseErrors(ts, pos, reported);
    }
  }

  lemma {:induction false} StatementReportsParseErrors(ts: seq<Token>, pos: nat, reported: seq<SloxError>)
    requires Parsable(ts) && pos < |ts|
    ensures ReportsParseErrors(reported, Statement(ts, pos, reported))
    decreases |ts| - pos, 2
  {
    if Matches(ts, pos, [FOR]) {
      ForStatementReportsParseErrors(ts, pos + 1, reported);
    } else if Matches(ts, pos, [IF]) {
      IfStatementReportsParseErrors(ts, pos + 1, reported);
    } else {
      WhileOrSimpleStatementReportsParseErrors(ts, pos, reported);
    }
  }

  lemma {:induction false} WhileOrSimpleStatementReportsParseErrors(ts: seq<Token>, pos: nat, reported: seq<SloxError>)
    requires Parsable(ts) && pos < |ts|
    ensures ReportsParseErrors(reported, WhileOrSimpleStatement(ts, pos, reported))
    decreases |ts| - pos, 1
  {
    if Matches(ts, pos, [WHILE]) {
      WhileStatementReportsParseErrors(ts, pos + 1, reported);
    } else {
      SimpleStatementReportsParseErrors(ts, pos, reported);
    }
  }

  lemma {:induction false} SimpleStatementReportsParseErrors(ts: seq<Token>, pos: nat, reported: seq<SloxError>)
    requires Parsable(ts) && pos < |ts|
    ensures ReportsParseErrors(reported, SimpleStatement(ts, pos, reported))
    decreases |ts| - pos, 0
  {
    if Matches(ts, pos, [PRINT]) {
      PrintStatementThrowsParseError(ts, pos + 1);
    } else if Matches(ts, pos, [LEFT_BRACE]) {
      BlockReportsParseErrors(ts, pos + 1, [], reported);
    } else {
      ExpressionStatementThrowsParseError(ts, pos);
    }
  }

  lemma {:induction false} ForStatementReportsParseErrors(ts: seq<Token>, pos: nat, reported: seq<SloxError>)
    requires Parsable(ts) && pos < |ts|
    ensures ReportsParseErrors(reported, ForStatement(ts, pos, reported))
    decreases |ts| - pos, 0
  {
    if Check(ts, pos, LEFT_PAREN) {
      var initializer := ForInitializer(ts, pos + 1);
      ForInitializerThrowsParseError(ts, pos + 1);
      if initializer.result.Ok? {
        ForLoopReportsParseErrors(ts, initializer.next, initializer.result.value, reported);
      }
    }
  }

  lemma {:induction false} ForLoopReportsParseErrors(ts: seq<Token>, pos: nat, initializer: Option<Stmt>, reported: seq<SloxError>)
    requires Parsable(ts) && pos < |ts|
    ensures ReportsParseErrors(reported, ForLoop(ts, pos, initializer, reported))
    decreases |ts| - pos, 0
  {
    var clauses := ForClausesAt(ts, pos);
    ForClausesThrowParseError(ts, pos);
    if clauses.result.Ok? {
      StatementReportsParseErrors(ts, clauses.next, reported);
    }
  }

  lemma {:induction false} IfStatementReportsParseErrors(ts: seq<Token>, pos: nat, reported: seq<SloxError>)
    requires Parsable(ts) && pos < |ts|
    ensures ReportsParseErrors(reported, IfStatement(ts, pos, reported))
    decreases |ts| - pos, 0
  {
    var condition := Condition(ts, pos, ExpectParenAfterIf, ExpectParenAfterIfCondition);
    ConditionThrowsParseError(ts, pos, ExpectParenAfterIf, ExpectParenAfterIfCondition);
    if condition.result.Ok? {
      IfBranchesReportParseErrors(ts, condition.next, condition.result.value, reported);
    }
  }

  lemma {:induction false} IfBranchesReportParseErrors(ts: seq<Token>, pos: nat, condition: Expr, reported: seq<SloxError>)
    requires Parsable(ts) && pos < |ts|
    ensures ReportsParseErrors(reported, IfBranches(ts, pos, condition, reported))
    decreases |ts| - pos, 3
  {
    var thenBranch := Statement(ts, pos, reported);
    StatementReportsParseErrors(ts, pos, reported);
    if thenBranch.result.Ok? {
      ElseBranchReportsParseErrors(ts, thenBranch.next, thenBranch.reported);
    }
  }

  lemma {:induction false} ElseBranchReportsParseErrors(ts: seq<Token>, pos: nat, reported: seq<SloxError>)
    requires Parsable(ts) && pos < |ts|
    ensures ReportsParseErrors(reported, ElseBranch(ts, pos, reported))
    decreases |ts| - pos, 0
  {
    if Matches(ts, pos, [ELSE]) {
      StatementReportsParseErrors(ts, pos + 1, reported);
    }
  }

  lemma {:induction false} WhileStatementReportsParseErrors(ts: seq<Token>, pos: nat, reported: seq<SloxError>)
    requires Parsable(ts) && pos < |ts|
    ensures ReportsParseErrors(reported, WhileStatement(ts, pos, reported))
    decreases |ts| - pos, 0
  {
    var condition := Condition(ts, pos, ExpectParenAfterWhile, ExpectParenAfterWhileCondition);
    ConditionThrowsParseError(ts, pos, ExpectParenAfterWhile, ExpectParenAfterWhileCondition);
    if condition.result.Ok? {
      StatementReportsParseErrors(ts, condition.next, reported);
    }
  }

  lemma {:induction false} BlockReportsParseErrors(ts: seq<Token>, pos: nat, done: seq<Stmt>, reported: seq<SloxError>)
    requires Parsable(ts) && pos < |ts|
    ensures ReportsParseErrors(reported, BlockLoop(ts, pos, done, reported))
    decreases |ts| - pos, 5
  {
    if !Check(ts, pos, RIGHT_BRACE) && !AtEnd(ts, pos) {
      var d := Declaration(ts, pos, reported);
      DeclarationReportsParseErrors(ts, pos, reported);
      BlockReportsParseErrors(ts, d.next, done + OptionList(d.result.value), d.reported);
    }
  }

  lemma {:induction false} ParseFromReportsParseErrors(ts: seq<Token>, pos: nat, done: seq<Stmt>, reported: seq<SloxError>)
    requires Parsable(ts) && pos < |ts|
    ensures var (_, errors) := ParseFrom(ts, pos, done, reported);
      reported <= errors && (OnlyParseErrors(reported) ==> OnlyParseErrors(errors))
    decreases |ts| - pos
  {
    if !AtEnd(ts, pos) {
      var d := Declaration(ts, pos, reported);
      DeclarationReportsParseErrors(ts, pos, reported);
      ParseFromReportsParseErrors(ts, d.next, done + OptionList(d.result.value), d.reported);
    }
  }

  /** Every error `parse` reports is a parse error, so `declaration`'s handler always
      synchronizes and the handler in `parse` itself is never reached. */
  lemma ParseReportsOnlyParseErrors(ts: seq<Token>)
    requires Parsable(ts)
    ensures OnlyParseErrors(Parse(ts).1)
  {
    ParseFromReportsParseErrors(ts, 0, [], []);
  }
}
