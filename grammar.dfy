/** The grammar the recursive-descent parser implements (Parser.swift), as functions of
    the token list and a cursor position. Each rule returns what the corresponding
    parser method returns, or the error it throws, together with where the cursor
    is afterwards; statement rules also take the parse errors reported so far (through
    `Slox.handleError`) and return them with those `declaration` reported while
    recovering inside them. The Parser
    class in module Parsing is proved to compute exactly these. */
module Grammar {
  import opened Wrappers
  import opened Tokens
  import opened Errors
  import opened Values
  import opened Ast

  // ----- The token list and the cursor -----

  /** The payload `primary` force-casts: a number for NUMBER, a string for STRING. */
  predicate LiteralFits(t: Token) {
    (t.kind == NUMBER ==> t.literal.NumberLiteral?) && (t.kind == STRING ==> t.literal.StringLiteral?)
  }

  /** What the parser demands of its tokens: they end with EOF, so that `peek` never
      runs off the end, and the literal tokens carry the payloads `primary` casts. */
  predicate Parsable(ts: seq<Token>) {
    |ts| > 0 && ts[|ts| - 1].kind == EOF &&
    forall i :: 0 <= i < |ts| ==> LiteralFits(ts[i])
  }

  /** `isAtEnd`: the current token is EOF. */
  predicate AtEnd(ts: seq<Token>, pos: nat)
    requires pos < |ts|
  {
    ts[pos].kind == EOF
  }

  /** `check(kind)`. */
  predicate Check(ts: seq<Token>, pos: nat, kind: TokenType)
    requires pos < |ts|
  {
    !AtEnd(ts, pos) && ts[pos].kind == kind
  }

  /** `match(kinds...)`: whether the current token has one of the kinds. */
  predicate Matches(ts: seq<Token>, pos: nat, kinds: seq<TokenType>)
    requires pos < |ts|
  {
    !AtEnd(ts, pos) && ts[pos].kind in kinds
  }

  /** `advance`: the cursor moves on unless it is at EOF. */
  function Advance(ts: seq<Token>, pos: nat): nat
    requires pos < |ts|
  {
    if AtEnd(ts, pos) then pos else pos + 1
  }

  /** The outcome of a rule: the value or the thrown error, and the cursor after it. */
  datatype Parsed<+T> = Parsed(result: Result<T, SloxError>, next: nat)

  /** The outcome of a statement rule, with all the errors reported up to its end. */
  datatype Reported<+T> = Reported(result: Result<T, SloxError>, next: nat, reported: seq<SloxError>)

  /** `consume(kind, message)`, then yielding value: the current token must be of the
      kind; otherwise the error is thrown at it and the cursor stays. */
  function Expect<T>(ts: seq<Token>, pos: nat, kind: TokenType, message: Message, value: T): Parsed<T>
    requires pos < |ts|
  {
    if Check(ts, pos, kind) then Parsed(Ok(value), pos + 1) else Parsed(Err(ParseError(ts[pos], message)), pos)
  }

  // ----- Precedence -----

  /** The binary levels from loosest to tightest: or, and, comma, equality, comparison,
      term, factor; the operand of the tightest is `unary`. */
  const Levels: nat := 7

  /** The operators `match` looks for at each level, in the order it tries them. */
  function LevelOps(level: nat): seq<TokenType>
    requires level < Levels
  {
    match level
    case 0 => [OR]
    case 1 => [AND]
    case 2 => [COMMA]
    case 3 => [BANG_EQUAL, EQUAL_EQUAL]
    case 4 => [GREATER, GREATER_EQUAL, LESS, LESS_EQUAL]
    case 5 => [MINUS, PLUS]
    case _ => [SLASH, STAR]
  }

  /** The level an infix operator belongs to, and Levels for every other kind. */
  function OpLevel(kind: TokenType): (level: nat)
    ensures level <= Levels
  {
    match kind
    case OR => 0
    case AND => 1
    case COMMA => 2
    case BANG_EQUAL => 3
    case EQUAL_EQUAL => 3
    case GREATER => 4
    case GREATER_EQUAL => 4
    case LESS => 4
    case LESS_EQUAL => 4
    case MINUS => 5
    case PLUS => 5
    case SLASH => 6
    case STAR => 6
    case _ => Levels
  }

  lemma LevelOpsHaveTheirLevel(level: nat, kind: TokenType)
    requires level < Levels
    ensures kind in LevelOps(level) <==> OpLevel(kind) == level
  {
  }

  /** The node a level builds: `or` and `and` build Logical, the others Binary. */
  function Combine(level: nat, left: Expr, op: Token, right: Expr): Expr {
    if level < 2 then Logical(left, op, right) else Binary(left, op, right)
  }

  /** How loosely an expression binds: the level of its top operator, -1 for an
      assignment, and Levels for unary, grouped and primary expressions. */
  function Binding(e: Expr): int {
    match e
    case Binary(_, op, _) => OpLevel(op.kind)
    case Logical(_, op, _) => OpLevel(op.kind)
    case Assign(_, _) => -1
    case _ => Levels
  }

  /** The trees the parser can build. Every infix node carries an operator of its own
      level, its left operand binds at least as tightly (left associativity) and its
      right operand strictly more tightly (precedence); `or`/`and` are Logical and the
      rest Binary; a unary operand is unary or primary; names are identifiers. */
  predicate Shaped(e: Expr) {
    match e
    case Binary(left, op, right) =>
      2 <= OpLevel(op.kind) < Levels && Shaped(left) && Shaped(right) &&
      Binding(left) >= OpLevel(op.kind) && Binding(right) > OpLevel(op.kind)
    case Logical(left, op, right) =>
      OpLevel(op.kind) < 2 && Shaped(left) && Shaped(right) &&
      Binding(left) >= OpLevel(op.kind) && Binding(right) > OpLevel(op.kind)
    case Unary(op, right) => (op.kind == BANG || op.kind == MINUS) && Shaped(right) && Binding(right) == Levels
    case Grouping(inner) => Shaped(inner)
    case Literal(_) => true
    case Variable(name) => name.kind == IDENTIFIER
    case Assign(name, value) => name.kind == IDENTIFIER && Shaped(value)
  }

  // ----- Expressions -----
  // Ranks for termination: a rule may call a rule of lower rank at the same position,
  // and any rule once a token has been consumed.

  /** `expression`, which is `assignment`: an `or`-level expression, or a variable, `=`
      and (right-associatively) another assignment. */
  function Assignment(ts: seq<Token>, pos: nat): (r: Parsed<Expr>)
    requires Parsable(ts) && pos < |ts|
    ensures pos <= r.next < |ts|
    ensures r.result.Ok? ==> pos < r.next
    decreases |ts| - pos, 3 * Levels + 2
  {
    var target := LevelAt(ts, pos, 0);
    if target.result.Err? then target
    else if Matches(ts, target.next, [EQUAL]) then
      var equals := ts[target.next];
      var value := Assignment(ts, target.next + 1);
      if value.result.Err? then value
      else if target.result.value.Variable? then
        Parsed(Ok(Assign(target.result.value.name, value.result.value)), value.next)
      else Parsed(Err(ParseError(equals, InvalidAssignmentTarget)), value.next)
    else target
  }

  /** One binary level: an operand, then as many `operator operand` pairs as follow,
      folded to the left. */
  function LevelAt(ts: seq<Token>, pos: nat, level: nat): (r: Parsed<Expr>)
    requires Parsable(ts) && pos < |ts| && level < Levels
    ensures pos <= r.next < |ts|
    ensures r.result.Ok? ==> pos < r.next
    decreases |ts| - pos, 3 * (Levels - level) + 1
  {
    var left := Operand(ts, pos, level);
    if left.result.Err? then left else LevelLoop(ts, left.next, level, left.result.value)
  }

  /** The loop of a binary level, with the expression built so far. */
  function LevelLoop(ts: seq<Token>, pos: nat, level: nat, left: Expr): (r: Parsed<Expr>)
    requires Parsable(ts) && pos < |ts| && level < Levels
    ensures pos <= r.next < |ts|
    decreases |ts| - pos, 3 * (Levels - level)
  {
    if Matches(ts, pos, LevelOps(level)) then
      var right := Operand(ts, pos + 1, level);
      if right.result.Err? then right
      else LevelLoop(ts, right.next, level, Combine(level, left, ts[pos], right.result.value))
    else Parsed(Ok(left), pos)
  }

  /** The operand of a level: the next tighter level, or `unary` below factor. */
  function Operand(ts: seq<Token>, pos: nat, level: nat): (r: Parsed<Expr>)
    requires Parsable(ts) && pos < |ts| && level < Levels
    ensures pos <= r.next < |ts|
    ensures r.result.Ok? ==> pos < r.next
    decreases |ts| - pos, 3 * (Levels - level) - 1
  {
    if level == Levels - 1 then UnaryAt(ts, pos) else LevelAt(ts, pos, level + 1)
  }

  /** `unary`: `!` or `-` applied to a unary expression, or a primary one. */
  function UnaryAt(ts: seq<Token>, pos: nat): (r: Parsed<Expr>)
    requires Parsable(ts) && pos < |ts|
    ensures pos <= r.next < |ts|
    ensures r.result.Ok? ==> pos < r.next
    decreases |ts| - pos, 1
  {
    if Matches(ts, pos, [BANG, MINUS]) then
      var right := UnaryAt(ts, pos + 1);
      if right.result.Err? then right else Parsed(Ok(Unary(ts[pos], right.result.value)), right.next)
    else Primary(ts, pos)
  }

  /** The literal or variable a single token is, for the token kinds `primary`
      matches first. */
  function AtomOf(t: Token): (r: Option<Expr>)
    requires LiteralFits(t)
    ensures r.Some? <==> t.kind in {NUMBER, STRING, TRUE, FALSE, NIL, IDENTIFIER}
  {
    match t.kind
    case NUMBER => Some(Literal(Number(t.literal.number)))
    case STRING => Some(Literal(String(t.literal.text)))
    case TRUE => Some(Literal(Bool(true)))
    case FALSE => Some(Literal(Bool(false)))
    case NIL => Some(Literal(Nil))
    case IDENTIFIER => Some(Variable(t))
    case _ => None
  }

  /** `primary`: a literal, a variable or a parenthesised expression. */
  function Primary(ts: seq<Token>, pos: nat): (r: Parsed<Expr>)
    requires Parsable(ts) && pos < |ts|
    ensures pos <= r.next < |ts|
    ensures r.result.Ok? ==> pos < r.next
    decreases |ts| - pos, 0
  {
    var t := ts[pos];
    var atom := AtomOf(t);
    if atom.Some? then Parsed(Ok(atom.value), pos + 1)
    else if Check(ts, pos, LEFT_PAREN) then
      var inner := Assignment(ts, pos + 1);
      if inner.result.Err? then inner
      else Expect(ts, inner.next, RIGHT_PAREN, ExpectParenAfterExpression, Grouping(inner.result.value))
    else Parsed(Err(ParseError(t, ExpectExpression)), pos)
  }

  // ----- Statements -----

  /** The outcome of a rule that reports nothing. */
  function Unreported<T>(p: Parsed<T>, reported: seq<SloxError>): Reported<T>
  {
    Reported(p.result, p.next, reported)
  }

  /** An error carried over to a rule of another result type. */
  function Rethrow<T, U>(p: Parsed<T>): Parsed<U>
    requires p.result.Err?
  {
    Parsed(Err(p.result.error), p.next)
  }

  /** `expressionStatement`: an expression and a `;`. */
  function ExpressionStatement(ts: seq<Token>, pos: nat): (r: Parsed<Stmt>)
    requires Parsable(ts) && pos < |ts|
    ensures pos <= r.next < |ts| && (r.result.Ok? ==> pos < r.next)
  {
    var value := Assignment(ts, pos);
    if value.result.Err? then Rethrow(value)
    else Expect(ts, value.next, SEMICOLON, ExpectSemicolonAfterExpression, Expression(value.result.value))
  }

  /** `printStatement`, after `print`: an expression and a `;`. */
  function PrintStatement(ts: seq<Token>, pos: nat): (r: Parsed<Stmt>)
    requires Parsable(ts) && pos < |ts|
    ensures pos <= r.next < |ts| && (r.result.Ok? ==> pos < r.next)
  {
    var value := Assignment(ts, pos);
    if value.result.Err? then Rethrow(value)
    else Expect(ts, value.next, SEMICOLON, ExpectSemicolonAfterValue, Print(value.result.value))
  }

  /** `varDeclaration`, after `var`: a name, optionally `=` and an initializer, and `;`. */
  function VarDeclaration(ts: seq<Token>, pos: nat): (r: Parsed<Stmt>)
    requires Parsable(ts) && pos < |ts|
    ensures pos <= r.next < |ts| && (r.result.Ok? ==> pos < r.next)
  {
    if !Check(ts, pos, IDENTIFIER) then Parsed(Err(ParseError(ts[pos], ExpectVariableName)), pos)
    else VarInitializer(ts, pos + 1, ts[pos])
  }

  /** The rest of `varDeclaration` after the name: optionally `=` and an initializer,
      and `;`. */
  function VarInitializer(ts: seq<Token>, pos: nat, name: Token): (r: Parsed<Stmt>)
    requires Parsable(ts) && pos < |ts|
    ensures pos <= r.next < |ts| && (r.result.Ok? ==> pos < r.next)
  {
    if Matches(ts, pos, [EQUAL]) then
      var value := Assignment(ts, pos + 1);
      if value.result.Err? then Rethrow(value)
      else Expect(ts, value.next, SEMICOLON, ExpectSemicolonAfterVar, Var(name, Some(value.result.value)))
    else Expect(ts, pos, SEMICOLON, ExpectSemicolonAfterVar, Var(name, None))
  }

  /** The initializer clause of `forStatement`, after `(`: nothing and `;`, a variable
      declaration, or an expression statement. */
  function ForInitializer(ts: seq<Token>, pos: nat): (r: Parsed<Option<Stmt>>)
    requires Parsable(ts) && pos < |ts|
    ensures pos <= r.next < |ts| && (r.result.Ok? ==> pos < r.next)
  {
    if Matches(ts, pos, [SEMICOLON]) then Parsed(Ok(None), pos + 1)
    else
      var s := if Matches(ts, pos, [VAR]) then VarDeclaration(ts, pos + 1) else ExpressionStatement(ts, pos);
      if s.result.Err? then Rethrow(s) else Parsed(Ok(Some(s.result.value)), s.next)
  }

  /** The condition and increment of a `for`. */
  datatype ForClauses = ForClauses(condition: Option<Expr>, increment: Option<Expr>)

  /** An optional clause of a `for` and the delimiter that must follow it, corrected: an
      omitted clause is its delimiter, read once. `GrammarFacts.ClauseAsWritten` reads it
      as the source does. */
  function Clause(ts: seq<Token>, pos: nat, delimiter: TokenType, message: Message): (r: Parsed<Option<Expr>>)
    requires Parsable(ts) && pos < |ts|
    ensures pos <= r.next < |ts| && (r.result.Ok? ==> pos < r.next)
  {
    if Check(ts, pos, delimiter) then Parsed(Ok(None), pos + 1)
    else
      var e := Assignment(ts, pos);
      if e.result.Err? then Rethrow(e) else Expect(ts, e.next, delimiter, message, Some(e.result.value))
  }

  /** The condition clause, `;`, the increment clause and `)` of a `for`, each clause
      read the corrected way. */
  function ForClausesAt(ts: seq<Token>, pos: nat): (r: Parsed<ForClauses>)
    requires Parsable(ts) && pos < |ts|
    ensures pos <= r.next < |ts| && (r.result.Ok? ==> pos < r.next)
  {
    var condition := Clause(ts, pos, SEMICOLON, ExpectSemicolonAfterCondition);
    if condition.result.Err? then Rethrow(condition)
    else
      var increment := Clause(ts, condition.next, RIGHT_PAREN, ExpectParenAfterClauses);
      if increment.result.Err? then Rethrow(increment)
      else Parsed(Ok(ForClauses(condition.result.value, increment.result.value)), increment.next)
  }

  /** The loop a `for` stands for: the body followed by the increment, repeated while
      the condition (true when absent) holds, after the initializer. */
  function Desugar(initializer: Option<Stmt>, clauses: ForClauses, body: Stmt): Stmt {
    var step := if clauses.increment.Some? then Block([body, Expression(clauses.increment.value)]) else body;
    var loop := While(if clauses.condition.Some? then clauses.condition.value else Literal(Bool(true)), step);
    if initializer.Some? then Block([initializer.value, loop]) else loop
  }

  /** `declaration`: a variable declaration or a statement. An error is reported, the
      parser synchronizes, and there is no statement. */
  function Declaration(ts: seq<Token>, pos: nat, reported: seq<SloxError>): (r: Reported<Option<Stmt>>)
    requires Parsable(ts) && pos < |ts|
    ensures pos <= r.next < |ts| && r.result.Ok?
    ensures !AtEnd(ts, pos) ==> pos < r.next
    decreases |ts| - pos, 4
  {
    var s := VarOrStatement(ts, pos, reported);
    if s.result.Ok? then Reported(Ok(Some(s.result.value)), s.next, s.reported)
    else Reported(Ok(None), Synchronize(ts, s.next), s.reported + [s.result.error])
  }

  /** What `declaration` parses before it handles an error: a variable declaration
      after `var`, a statement otherwise. */
  function VarOrStatement(ts: seq<Token>, pos: nat, reported: seq<SloxError>): (r: Reported<Stmt>)
    requires Parsable(ts) && pos < |ts|
    ensures pos <= r.next < |ts| && (r.result.Ok? ==> pos < r.next)
    decreases |ts| - pos, 3
  {
    if Matches(ts, pos, [VAR]) then Unreported(VarDeclaration(ts, pos + 1), reported) else Statement(ts, pos, reported)
  }

  /** `statement`: chosen by its first token. */
  function Statement(ts: seq<Token>, pos: nat, reported: seq<SloxError>): (r: Reported<Stmt>)
    requires Parsable(ts) && pos < |ts|
    ensures pos <= r.next < |ts| && (r.result.Ok? ==> pos < r.next)
    decreases |ts| - pos, 2
  {
    if Matches(ts, pos, [FOR]) then ForStatement(ts, pos + 1, reported)
    else if Matches(ts, pos, [IF]) then IfStatement(ts, pos + 1, reported)
    else WhileOrSimpleStatement(ts, pos, reported)
  }

  /** The cases of `statement` after `for` and `if`. */
  function WhileOrSimpleStatement(ts: seq<Token>, pos: nat, reported: seq<SloxError>): (r: Reported<Stmt>)
    requires Parsable(ts) && pos < |ts|
    ensures pos <= r.next < |ts| && (r.result.Ok? ==> pos < r.next)
    decreases |ts| - pos, 1
  {
    if Matches(ts, pos, [WHILE]) then WhileStatement(ts, pos + 1, reported)
    else SimpleStatement(ts, pos, reported)
  }

  /** The rest of `statement`: a `print` statement, a block or an expression statement. */
  function SimpleStatement(ts: seq<Token>, pos: nat, reported: seq<SloxError>): (r: Reported<Stmt>)
    requires Parsable(ts) && pos < |ts|
    ensures pos <= r.next < |ts| && (r.result.Ok? ==> pos < r.next)
    decreases |ts| - pos, 0
  {
    if Matches(ts, pos, [PRINT]) then Unreported(PrintStatement(ts, pos + 1), reported)
    else if Matches(ts, pos, [LEFT_BRACE]) then BlockStatement(ts, pos + 1, reported)
    else Unreported(ExpressionStatement(ts, pos), reported)
  }

  /** A block statement, after `{`: the block's declarations wrapped in a Block. */
  function BlockStatement(ts: seq<Token>, pos: nat, reported: seq<SloxError>): (r: Reported<Stmt>)
    requires Parsable(ts) && pos < |ts|
    ensures pos <= r.next < |ts| && (r.result.Ok? ==> pos < r.next)
    decreases |ts| - pos, 6
  {
    var b := BlockLoop(ts, pos, [], reported);
    Reported(if b.result.Ok? then Ok(Block(b.result.value)) else Err(b.result.error), b.next, b.reported)
  }

  /** `forStatement`, after `for`. */
  function ForStatement(ts: seq<Token>, pos: nat, reported: seq<SloxError>): (r: Reported<Stmt>)
    requires Parsable(ts) && pos < |ts|
    ensures pos <= r.next < |ts| && (r.result.Ok? ==> pos < r.next)
    decreases |ts| - pos, 0
  {
    if !Check(ts, pos, LEFT_PAREN) then Reported(Err(ParseError(ts[pos], ExpectParenAfterFor)), pos, reported)
    else
      var initializer := ForInitializer(ts, pos + 1);
      if initializer.result.Err? then Unreported(Rethrow(initializer), reported)
      else ForLoop(ts, initializer.next, initializer.result.value, reported)
  }

  /** The rest of `forStatement` after its initializer: the clauses, the body, and the
      loop they desugar to. */
  function ForLoop(ts: seq<Token>, pos: nat, initializer: Option<Stmt>, reported: seq<SloxError>): (r: Reported<Stmt>)
    requires Parsable(ts) && pos < |ts|
    ensures pos <= r.next < |ts| && (r.result.Ok? ==> pos < r.next)
    decreases |ts| - pos, 0
  {
    var clauses := ForClausesAt(ts, pos);
    if clauses.result.Err? then Unreported(Rethrow(clauses), reported)
    else
      var body := Statement(ts, clauses.next, reported);
      if body.result.Err? then body
      else Reported(Ok(Desugar(initializer, clauses.result.value, body.result.value)), body.next, body.reported)
  }

  /** The parenthesised condition of `if` and `while`: `(`, an expression and `)`,
      with the messages for a missing `(` and a missing `)`. */
  function Condition(ts: seq<Token>, pos: nat, open: Message, close: Message): (r: Parsed<Expr>)
    requires Parsable(ts) && pos < |ts|
    ensures pos <= r.next < |ts| && (r.result.Ok? ==> pos < r.next)
  {
    if !Check(ts, pos, LEFT_PAREN) then Parsed(Err(ParseError(ts[pos], open)), pos)
    else
      var condition := Assignment(ts, pos + 1);
      if condition.result.Err? then condition
      else Expect(ts, condition.next, RIGHT_PAREN, close, condition.result.value)
  }

  /** `ifStatement`, after `if`. */
  function IfStatement(ts: seq<Token>, pos: nat, reported: seq<SloxError>): (r: Reported<Stmt>)
    requires Parsable(ts) && pos < |ts|
    ensures pos <= r.next < |ts| && (r.result.Ok? ==> pos < r.next)
    decreases |ts| - pos, 0
  {
    var condition := Condition(ts, pos, ExpectParenAfterIf, ExpectParenAfterIfCondition);
    if condition.result.Err? then Unreported(Rethrow(condition), reported)
    else IfBranches(ts, condition.next, condition.result.value, reported)
  }

  /** The branches of an `if`: a statement, then `else` and another if one follows. */
  function IfBranches(ts: seq<Token>, pos: nat, condition: Expr, reported: seq<SloxError>): (r: Reported<Stmt>)
    requires Parsable(ts) && pos < |ts|
    ensures pos <= r.next < |ts| && (r.result.Ok? ==> pos < r.next)
    decreases |ts| - pos, 3
  {
    var thenBranch := Statement(ts, pos, reported);
    if thenBranch.result.Err? then thenBranch
    else
      var elseBranch := ElseBranch(ts, thenBranch.next, thenBranch.reported);
      Reported(
        if elseBranch.result.Ok? then Ok(If(condition, thenBranch.result.value, elseBranch.result.value))
        else Err(elseBranch.result.error),
        elseBranch.next, elseBranch.reported)
  }

  /** The optional `else` branch of an `if`. */
  function ElseBranch(ts: seq<Token>, pos: nat, reported: seq<SloxError>): (r: Reported<Option<Stmt>>)
    requires Parsable(ts) && pos < |ts|
    ensures pos <= r.next < |ts|
    decreases |ts| - pos, 0
  {
    if Matches(ts, pos, [ELSE]) then
      var branch := Statement(ts, pos + 1, reported);
      Reported(if branch.result.Ok? then Ok(Some(branch.result.value)) else Err(branch.result.error), branch.next, branch.reported)
    else Reported(Ok(None), pos, reported)
  }

  /** `whileStatement`, after `while`. */
  function WhileStatement(ts: seq<Token>, pos: nat, reported: seq<SloxError>): (r: Reported<Stmt>)
    requires Parsable(ts) && pos < |ts|
    ensures pos <= r.next < |ts| && (r.result.Ok? ==> pos < r.next)
    decreases |ts| - pos, 0
  {
    var condition := Condition(ts, pos, ExpectParenAfterWhile, ExpectParenAfterWhileCondition);
    if condition.result.Err? then Unreported(Rethrow(condition), reported)
    else
      var body := Statement(ts, condition.next, reported);
      Reported(if body.result.Ok? then Ok(While(condition.result.value, body.result.value)) else Err(body.result.error),
        body.next, body.reported)
  }

  /** The loop of `block`, with the statements so far: declarations up to `}` or EOF,
      then the `}`. */
  function BlockLoop(ts: seq<Token>, pos: nat, done: seq<Stmt>, reported: seq<SloxError>): (r: Reported<seq<Stmt>>)
    requires Parsable(ts) && pos < |ts|
    ensures pos <= r.next < |ts| && (r.result.Ok? ==> pos < r.next)
    decreases |ts| - pos, 5
  {
    if !Check(ts, pos, RIGHT_BRACE) && !AtEnd(ts, pos) then
      var d := Declaration(ts, pos, reported);
      BlockLoop(ts, d.next, done + OptionList(d.result.value), d.reported)
    else if Check(ts, pos, RIGHT_BRACE) then Reported(Ok(done), pos + 1, reported)
    else Reported(Err(ParseError(ts[pos], ExpectBraceAfterBlock)), pos, reported)
  }

  // ----- Recovery and the whole program -----

  /** The kinds that begin a statement, before which `synchronize` stops. */
  predicate StartsStatement(kind: TokenType) {
    kind in {CLASS, FUN, VAR, FOR, IF, WHILE, PRINT, RETURN}
  }

  /** `synchronize`: skip the current token, then skip until just after a `;`, just
      before a token that starts a statement, or at EOF. */
  function Synchronize(ts: seq<Token>, pos: nat): (next: nat)
    requires Parsable(ts) && pos < |ts|
    ensures pos <= next < |ts| && (!AtEnd(ts, pos) ==> pos < next)
  {
    SynchronizeLoop(ts, Advance(ts, pos))
  }

  /** The loop of `synchronize`, from pos. */
  function SynchronizeLoop(ts: seq<Token>, pos: nat): (next: nat)
    requires Parsable(ts) && pos < |ts| && (0 < pos || AtEnd(ts, pos))
    ensures pos <= next < |ts|
    decreases |ts| - pos
  {
    if AtEnd(ts, pos) then pos
    else if ts[pos - 1].kind == SEMICOLON then pos
    else if StartsStatement(ts[pos].kind) then pos
    else SynchronizeLoop(ts, pos + 1)
  }

  /** The loop of `parse`, with the statements so far: declarations up to EOF. The
      statements and all the errors reported. */
  function ParseFrom(ts: seq<Token>, pos: nat, done: seq<Stmt>, reported: seq<SloxError>): (seq<Stmt>, seq<SloxError>)
    requires Parsable(ts) && pos < |ts|
    decreases |ts| - pos
  {
    if AtEnd(ts, pos) then (done, reported)
    else
      var d := Declaration(ts, pos, reported);
      ParseFrom(ts, d.next, done + OptionList(d.result.value), d.reported)
  }

  /** `parse`: the program's statements, with the parse errors reported. */
  function Parse(ts: seq<Token>): (seq<Stmt>, seq<SloxError>)
    requires Parsable(ts)
  {
    ParseFrom(ts, 0, [], [])
  }
}
