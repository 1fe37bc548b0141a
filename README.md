# slox core in Dafny

This project models the front end and evaluator of slox, a tree-walking interpreter for a small
Lox-like scripting language written in Swift. It covers five parts:

- **Lexer.** The `Scanner` turns source text into tokens. It handles one- and two-character
  operators, `//` and `/* */` comments, string and number literals, identifiers and keywords. It
  counts lines, reports bad characters without stopping and ends every token list with one EOF
  token.
- **Parser.** The `Parser` is recursive descent with one token of lookahead. Its precedence ladder
  is or, and, comma, equality, comparison, term, factor, unary, primary. Assignment is
  right-associative and only a bare variable may be assigned. `for` loops, with their clauses read
  the corrected way (see Findings), are desugared into `Block`/`While`. Errors are recovered from by synchronising.
- **Values.** `LiteralValue` holds numbers, strings, booleans and nil, with variant-wise equality
  and ordering, the same-variant test `===` and the display text.
- **Environment.** A scope holds a dictionary from names to values and a fixed link to its
  enclosing scope. `define` writes locally; `get` and `assign` walk outwards.
- **Interpreter.** It evaluates binary, unary, grouping, literal and variable expressions. It
  executes expression, `print` and `var` statements against one global environment, and stops at
  the first runtime error.

The model follows the source's own form. The places that change state step by step are Dafny
classes with loops, `modifies` clauses and invariants: the `Scanner` (cursor, line counter, token
list), the `Parser` (cursor, reported errors), the `Environment` (its dictionary) and the
`Interpreter` (environment, output, reported errors). Each method of these classes is proved
against a pure specification:

| specification module | what it defines |
|---|---|
| `Lexical` | one scanning step and the whole scan |
| `Grammar` | one function per grammar rule, returning the tree or error and the next cursor |
| `Bindings` | the environment chain as a list of dictionaries |
| `Evaluation` | expression values, statement effects and the run of a program |

The properties the source promises are proved about these specifications in `LexicalFacts`,
`NumberFacts`, `GrammarFacts`, `ScanParse`, `Bindings` and `EvaluationFacts`. Examples: every
scan ends with exactly one EOF token; the parser builds trees shaped by precedence and left
associativity; `synchronize` stops at the first statement boundary; `get` after `define` returns
the value; and `interpret` stops at the first failing statement, keeping the effects of earlier
ones.

Some choices apply throughout:

- **Errors.** The source throws `Slox.Error` and reports it through `Slox.handleError`. The model
  returns errors as `Result` values and appends reported errors to an `errors` list.
- **Output.** What `print` writes is appended to an `output` list.
- **Numbers.** Numbers are exact reals.
- **Display of fractional numbers.** Swift renders a fractional `Double` with `String(Double)`,
  which the model does not have. The display function therefore takes that rendering as a
  parameter, `fractionText`.

## Model

| member | source | states |
|---|---|---|
| Characters.DigitsAreListed | Sources/Character+Validation.swift:13 | `isDigit` holds exactly for the ten characters `0`..`9` |
| Characters.DigitsAreNotAlpha | Sources/Character+Validation.swift:10-15 | no character is both a digit and alpha; `isAlphaNumeric` is `isAlpha || isDigit` |
| Characters.SentinelIsInert | Sources/Character+Validation.swift:10-15 | the NUL that `peek` returns at the end is neither digit, alpha nor alphanumeric, so digit and identifier loops stop at the end |
| Tokens.KeywordsAreReserved | Sources/Token.swift:23-40 | the keyword table's keys are exactly the sixteen reserved words |
| Tokens.KeywordsNameTheirKind | Sources/Token.swift:23-40 | every keyword maps to the token type named by the keyword in upper case |
| Tokens.KindNamesKeyword | Sources/Token.swift:19-40 | each keyword type's name is its keyword in upper case |
| Tokens.TypeKeywordInverse | Sources/Token.swift:23-40 | each keyword type has a keyword mapping to it |
| Tokens.KeywordTableInjective | Sources/Token.swift:23-40 | distinct keywords map to distinct types |
| Tokens.KeywordTableOntoKeywordKinds | Sources/Token.swift:8-40 | the table maps onto exactly the keyword section of `TokenType`: never IDENTIFIER, a literal kind, punctuation or EOF |
| Tokens.KeywordsAreLowercaseWords | Sources/Token.swift:24-39 | every keyword is a non-empty run of lower-case letters |
| Numerals.ReadNumeral | Sources/Scanner.swift:135 | `Double(text)` on `digits` or `digits.digits` yields the exact value of the numeral |
| Numerals.NatText | Sources/LiteralValue.swift:66 | the integer text of a natural number is a non-empty run of digits |
| Numerals.NatTextRoundTrip | Sources/LiteralValue.swift:66 | reading back the text of a natural number gives the number |
| Numerals.NatTextCanonical | Sources/LiteralValue.swift:66 | the text has no leading zero except for 0 itself |
| Numerals.IntTextSign | Sources/LiteralValue.swift:66 | the text of an integer starts with `-` exactly when it is negative |
| Numerals.IntTextInjective | Sources/LiteralValue.swift:66 | distinct integers have distinct texts |
| Values.EqualIsIdentity | Sources/LiteralValue.swift:14-27 | `==` holds iff both values are of one variant with equal payloads; `nil == nil` |
| Values.EqualImpliesSameType | Sources/LiteralValue.swift:14-52 | `a == b` implies `a === b` |
| Values.SameTypeIsEquivalence | Sources/LiteralValue.swift:44-56 | `===` holds iff the variants agree; it is reflexive, symmetric and transitive; `!==` is its negation |
| Values.LessWithinVariant | Sources/LiteralValue.swift:29-42 | `<` is false across variants and for nil/nil; on booleans only `false < true` |
| Values.StringLessIrreflexive | Sources/LiteralValue.swift:33-34 | no string is below itself |
| Values.StringLessTransitive | Sources/LiteralValue.swift:33-34 | string order is transitive |
| Values.StringLessTotal | Sources/LiteralValue.swift:33-34 | any two distinct strings are ordered one way or the other |
| Values.LessIsStrictTotalOrder | Sources/LiteralValue.swift:29-42 | within a variant, `<` is a strict total order |
| Values.DerivedComparisons | Sources/LiteralValue.swift:8-42 | for any two values of the same variant, nil included, `<=`, `>=` and `!=` derived by `Comparable`/`Equatable` agree with `<` and `==` |
| Values.DescriptionOfEachVariant | Sources/LiteralValue.swift:59-72 | a string displays as itself, booleans as `true`/`false`, nil as `nil`, an integral number as its integer text |
| Lexical.LineEnd | Sources/Scanner.swift:53 | the line comment loop stops within the source, at or after where it started |
| Lexical.StringFrom | Sources/Scanner.swift:107-124 | the string loop stays within the source |
| Lexical.DigitsEnd | Sources/Scanner.swift:127 | the digit loop stays within the source |
| Lexical.NumberEnd | Sources/Scanner.swift:126-136 | a number ends within the source |
| Lexical.WordEnd | Sources/Scanner.swift:139 | the identifier loop stays within the source |
| Lexical.CommentFrom | Sources/Scanner.swift:146-160 | a block comment stays within the source and emits no token |
| Lexical.SlashFrom | Sources/Scanner.swift:52-58 | the `/` case consumes at least one character and stays within the source |
| Lexical.ScanStep | Sources/Scanner.swift:35-71 | every `scanToken` consumes at least one character and stays within the source, so `scanTokens` terminates |
| Lexical.CharStep | Sources/Scanner.swift:52-70 | the cases of `scanToken` from `/` on (comments, blanks, newline, string, number, identifier, unexpected character) consume at least one character and stay within the source |
| LexicalFacts.LineEndIsFirstNewline | Sources/Scanner.swift:53 | a line comment runs up to, not including, the first newline or the end |
| LexicalFacts.DigitsEndIsMaximal | Sources/Scanner.swift:127 | the digit loop skips only digits and stops at the first non-digit |
| LexicalFacts.WordEndIsMaximal | Sources/Scanner.swift:139 | the identifier loop skips only alphanumerics and stops at the first other character |
| LexicalFacts.CommentLines | Sources/Scanner.swift:146-150 | a block comment adds the newlines it crosses to the line counter |
| LexicalFacts.StringLines | Sources/Scanner.swift:108-111 | a string literal adds the newlines it crosses to the line counter |
| LexicalFacts.NumberHasNoNewline | Sources/Scanner.swift:126-136 | a number lexeme holds no newline |
| LexicalFacts.SlashLines | Sources/Scanner.swift:52-58 | the `/` case adds the newlines it consumes to the line counter |
| LexicalFacts.StepLines | Sources/Scanner.swift:35-71 | after each step the line counter is the line before plus the newlines consumed |
| LexicalFacts.WordKindIsIdentifierOrKeyword | Sources/Scanner.swift:142 | a word's kind is IDENTIFIER or a keyword kind |
| LexicalFacts.StepIsNotEof | Sources/Scanner.swift:35-71 | no step emits an EOF token |
| LexicalFacts.ScanFromEndsWithEof | Sources/Scanner.swift:25-33 | the scan loop's token list ends with one EOF token and no earlier token is EOF |
| LexicalFacts.ScanFromEofLine | Sources/Scanner.swift:25-33 | the EOF token is on the line reached by counting every newline |
| LexicalFacts.ScanEndsWithEof | Sources/Scanner.swift:25-33 | `scanTokens` ends with exactly one EOF token, on line 1 plus the number of newlines in the source |
| LexicalFacts.OperatorToken | Sources/Scanner.swift:48-51 | `!`, `=`, `<`, `>` followed by `=` are a two-character token, otherwise a one-character token |
| LexicalFacts.LineCommentSkipped | Sources/Scanner.swift:52-53 | a `//` comment emits nothing and stops before the next newline or at the end |
| LexicalFacts.CommentShape | Sources/Scanner.swift:146-160 | a block comment ends just after its first `*/`; without one it runs to the end and reports "Undetermined block comment" |
| LexicalFacts.BlockCommentSkipped | Sources/Scanner.swift:52-58 | a `/* */` comment emits no token; it is skipped through its first `*/` or reported when unterminated |
| LexicalFacts.StringShape | Sources/Scanner.swift:107-124 | a string ends at its first closing quote; without one it runs to the end and reports "Undetermined string" |
| LexicalFacts.StringToken | Sources/Scanner.swift:107-124 | a terminated string's literal is its lexeme without the quotes; an unterminated one emits no token and reports an error |
| LexicalFacts.WordToken | Sources/Scanner.swift:138-144 | an identifier is the maximal alphanumeric run; its kind is the keyword entry or IDENTIFIER; its lexeme is the consumed text |
| LexicalFacts.WordScansAlone | Sources/Scanner.swift:138-144 | a word scanned alone is one token and EOF |
| LexicalFacts.KeywordScansAlone | Sources/Scanner.swift:138-144 | each keyword scanned alone is one token of its own kind and EOF |
| LexicalFacts.UnexpectedCharacterReported | Sources/Scanner.swift:62-70 | a character no case handles yields no token and the error "Unexpected character c" on the current line, and scanning goes on with the next character |
| NumberFacts.NumberLexemeShape | Sources/Scanner.swift:126-136 | a number is digits, then `.` and digits only when a digit follows the `.` |
| NumberFacts.RunLiteral | Sources/Scanner.swift:135 | a run of digits, optionally `.` and digits, reads as the numeral's value |
| NumberFacts.NumberLexemeValue | Sources/Scanner.swift:135 | a number's literal is the value of the numeral its lexeme spells |
| NumberFacts.NumberToken | Sources/Scanner.swift:126-136 | a digit always starts a NUMBER token carrying its value and no error |
| NumberFacts.NumberThenDot | Sources/Scanner.swift:129 | `1.` scans as NUMBER `1`, then DOT, then EOF |
| Scanning.Scanner.constructor | Sources/Scanner.swift:19-23 | a new scanner is at the start of the source, on line 1, with no tokens |
| Scanning.Scanner.ScanTokens | Sources/Scanner.swift:25-33 | the loop appends exactly the tokens and errors of the lexical scan, EOF last |
| Scanning.Scanner.ScanToken | Sources/Scanner.swift:35-71 | one call appends the token and error of one lexical step and moves cursor and line as the step says |
| Scanning.Scanner.Slash | Sources/Scanner.swift:52-58 | the `/` case: a comment is skipped, otherwise SLASH is added |
| Scanning.Scanner.Switch | Sources/Scanner.swift:52-70 | the cases from `/` on append the token and error of the lexical step and move cursor and line as `Lexical.CharStep` says |
| Scanning.Scanner.AddToken | Sources/Scanner.swift:77-80 | appends a token whose lexeme is the text from `start` to the cursor |
| Scanning.Scanner.Error | Sources/Slox+Error.swift:28-31 | a scanner error is recorded with its line and message |
| Scanning.Scanner.Advance | Sources/Scanner.swift:84-88 | returns the current character and moves one on |
| Scanning.Scanner.Match | Sources/Scanner.swift:90-94 | moves one on exactly when not at the end and the character is the expected one |
| Scanning.Scanner.String | Sources/Scanner.swift:107-124 | appends the STRING token or reports the unterminated string, as the lexical step says |
| Scanning.Scanner.StringBody | Sources/Scanner.swift:108-111 | the string loop stops at a quote or the end, counting newlines |
| Scanning.Scanner.Number | Sources/Scanner.swift:126-136 | appends the NUMBER token of the maximal numeral and its value |
| Scanning.Scanner.SkipDigits | Sources/Scanner.swift:127 | the digit loop stops where the run of digits ends |
| Scanning.Scanner.Identifier | Sources/Scanner.swift:138-144 | appends the keyword or IDENTIFIER token of the maximal alphanumeric run |
| Scanning.Scanner.LineComment | Sources/Scanner.swift:53 | the comment loop stops at the end of the line |
| Scanning.Scanner.BlockComment | Sources/Scanner.swift:146-160 | skips a block comment or reports it unterminated, counting newlines |
| Scanning.ScanSource | Sources/Slox.swift:77-78 | a fresh scanner returns exactly the tokens and errors of the lexical scan |
| ScanParse.StepLiteralFits | Sources/Scanner.swift:35-71 | every NUMBER token a step emits carries a number, every STRING token a string |
| ScanParse.ScanFromLiteralsFit | Sources/Scanner.swift:25-33 | every token of a scan carries the payload its kind calls for |
| ScanParse.ScannedTokensParsable | Sources/Parser.swift:253-254 | the scanner's output always ends with EOF and its force-casts in `primary` cannot fail |
| Grammar.LevelOpsHaveTheirLevel | Sources/Parser.swift:158-240 | a level's `match` takes exactly the operators of that level |
| Grammar.Assignment | Sources/Parser.swift:141-156 | `assignment` leaves the cursor in bounds and consumes a token when it succeeds |
| Grammar.LevelAt | Sources/Parser.swift:158-240 | a binary level leaves the cursor in bounds and consumes a token when it succeeds |
| Grammar.LevelLoop | Sources/Parser.swift:161-165 | the loop of a binary level leaves the cursor in bounds |
| Grammar.Operand | Sources/Parser.swift:158-240 | a level's operand leaves the cursor in bounds and consumes a token when it succeeds |
| Grammar.UnaryAt | Sources/Parser.swift:242-250 | `unary` leaves the cursor in bounds and consumes a token when it succeeds |
| Grammar.AtomOf | Sources/Parser.swift:253-258 | exactly NUMBER, STRING, TRUE, FALSE, NIL and IDENTIFIER tokens are a literal or variable alone |
| Grammar.Primary | Sources/Parser.swift:252-267 | `primary` leaves the cursor in bounds and consumes a token when it succeeds |
| Grammar.ExpressionStatement | Sources/Parser.swift:131-135 | the rule leaves the cursor in bounds and consumes a token when it succeeds |
| Grammar.PrintStatement | Sources/Parser.swift:112-116 | the rule leaves the cursor in bounds and consumes a token when it succeeds |
| Grammar.VarDeclaration | Sources/Parser.swift:51-56 | the rule leaves the cursor in bounds and consumes a token when it succeeds |
| Grammar.VarInitializer | Sources/Parser.swift:53-55 | the optional `= expression` and the `;` of a declaration leave the cursor in bounds and consume a token when they succeed |
| Grammar.ForInitializer | Sources/Parser.swift:71-78 | the clause leaves the cursor in bounds and consumes a token when it succeeds |
| Grammar.Clause | Sources/Parser.swift:80-83 | the corrected `for` clause (see Findings): an omitted clause is its delimiter read once; the clause leaves the cursor in bounds and consumes a token when it succeeds |
| Grammar.ForClausesAt | Sources/Parser.swift:80-83 | the corrected clauses (see Findings) leave the cursor in bounds and consume a token when they succeed |
| Grammar.Declaration | Sources/Parser.swift:36-49 | `declaration` never throws: it yields a statement or none, and away from EOF it always moves on |
| Grammar.VarOrStatement | Sources/Parser.swift:38-40 | the rule leaves the cursor in bounds and consumes a token when it succeeds |
| Grammar.Statement | Sources/Parser.swift:58-66 | the rule leaves the cursor in bounds and consumes a token when it succeeds |
| Grammar.WhileOrSimpleStatement | Sources/Parser.swift:61-65 | the `while`, print, block and expression cases of `statement` leave the cursor in bounds and consume a token when they succeed |
| Grammar.SimpleStatement | Sources/Parser.swift:62-65 | the rule leaves the cursor in bounds and consumes a token when it succeeds |
| Grammar.BlockStatement | Sources/Parser.swift:63 | a block statement leaves the cursor in bounds and consumes a token when it succeeds |
| Grammar.ForStatement | Sources/Parser.swift:68-90 | `forStatement` with the corrected clauses (see Findings) leaves the cursor in bounds and consumes a token when it succeeds |
| Grammar.ForLoop | Sources/Parser.swift:80-89 | the corrected clauses (see Findings) and the body leave the cursor in bounds and consume a token when they succeed |
| Grammar.Condition | Sources/Parser.swift:93-95 | the parenthesised condition leaves the cursor in bounds and consumes a token when it succeeds |
| Grammar.IfStatement | Sources/Parser.swift:92-101 | the rule leaves the cursor in bounds and consumes a token when it succeeds |
| Grammar.IfBranches | Sources/Parser.swift:97-100 | the branches leave the cursor in bounds and consume a token when they succeed |
| Grammar.ElseBranch | Sources/Parser.swift:98 | the optional else branch leaves the cursor in bounds |
| Grammar.WhileStatement | Sources/Parser.swift:103-110 | the rule leaves the cursor in bounds and consumes a token when it succeeds |
| Grammar.BlockLoop | Sources/Parser.swift:118-129 | the block loop leaves the cursor in bounds and consumes a token when it succeeds |
| Grammar.Synchronize | Sources/Parser.swift:299-312 | `synchronize` never passes EOF and, away from EOF, moves on |
| Grammar.SynchronizeLoop | Sources/Parser.swift:302-311 | the loop of `synchronize` never passes EOF |
| GrammarFacts.AssignmentShaped | Sources/Parser.swift:141-156 | `assignment` builds a tree shaped by precedence and associativity, and throws only parse errors |
| GrammarFacts.LevelShaped | Sources/Parser.swift:158-240 | a binary level builds a shaped tree binding at least as tightly as the level: left operands of the same level, right operands of tighter ones |
| GrammarFacts.LevelLoopShaped | Sources/Parser.swift:158-240 | folding `operator operand` pairs onto the left keeps the tree shaped, so every level is left-associative |
| GrammarFacts.OperandShaped | Sources/Parser.swift:158-240 | a level's operand binds strictly more tightly than the level: or < and < comma < equality < comparison < term < factor < unary |
| GrammarFacts.UnaryShaped | Sources/Parser.swift:242-250 | `unary` builds `!`/`-` applied to a unary or primary expression, never an infix node |
| GrammarFacts.PrimaryShaped | Sources/Parser.swift:252-267 | `primary` builds a literal, a variable or a grouping of a shaped tree |
| GrammarFacts.AssignmentTarget | Sources/Parser.swift:141-156 | an Assign node comes only from a bare variable and `=`, with a whole assignment as its value (right-associative); any other target throws "Invalid assignment target." at the `=` |
| GrammarFacts.VariableAlone | Sources/Parser.swift:158-264 | an identifier followed by EOF or a looser operator is, at each binary level, a variable alone and the level's loop does not run |
| GrammarFacts.VariableAtFactor | Sources/Parser.swift:230-264 | at `factor`, an identifier not followed by `*` or `/` is a variable alone |
| GrammarFacts.IdentifierIsUnary | Sources/Parser.swift:242-258 | an identifier parses through `unary` and `primary` to a variable, consuming one token |
| GrammarFacts.LoopStep | Sources/Parser.swift:158-240 | one turn of a level's `while match(...)` loop combines the tree so far, the operator and the next operand, and goes on from there |
| GrammarFacts.LoopStops | Sources/Parser.swift:158-240 | a level's loop stops at EOF or an operator of a looser level, keeping the tree so far |
| GrammarFacts.LevelsAbove | Sources/Parser.swift:158-240 | a tree built at a tight level passes unchanged through every looser level when no looser operator follows |
| GrammarFacts.AssignmentAtEnd | Sources/Parser.swift:141-156 | an expression followed by EOF is returned by `assignment` as `or` built it |
| GrammarFacts.LeftAssociativeExample | Sources/Parser.swift:218-228 | `a - b - c` parses as `(a - b) - c` |
| GrammarFacts.PrecedenceExample | Sources/Parser.swift:218-240 | `a + b * c` parses as `a + (b * c)` |
| GrammarFacts.SynchronizeLoopStops | Sources/Parser.swift:302-311 | the loop stops at the first place after a `;`, before a statement keyword, or at EOF |
| GrammarFacts.SynchronizeStops | Sources/Parser.swift:299-312 | `synchronize` skips at least one token and stops at the first boundary after it |
| GrammarFacts.ClauseAsWritten | Sources/Parser.swift:80-83 | the `for` clause as written leaves the cursor in bounds |
| GrammarFacts.ForClausesAsWritten | Sources/Parser.swift:80-83 | the clauses as written leave the cursor in bounds |
| GrammarFacts.OmittedClausesRejectedAsWritten | Sources/Parser.swift:80-81 | as written, `for (;;)` throws "Expect ';' after loop condition." at the `)` |
| GrammarFacts.OmittedClausesAccepted | Sources/Parser.swift:80-83 | corrected, `;)` are an omitted condition and increment, each delimiter read once |
| GrammarFacts.ForeverLoop | Sources/Parser.swift:68-90 | with the corrected clauses (see Findings), `for (;;) body` desugars to `while (true) body`; as written the source rejects `for (;;)` |
| GrammarFacts.ExpressionStatementThrowsParseError | Sources/Parser.swift:131-135 | the rule throws only parse errors |
| GrammarFacts.PrintStatementThrowsParseError | Sources/Parser.swift:112-116 | the rule throws only parse errors |
| GrammarFacts.VarDeclarationThrowsParseError | Sources/Parser.swift:51-56 | the rule throws only parse errors |
| GrammarFacts.ForInitializerThrowsParseError | Sources/Parser.swift:71-78 | the clause throws only parse errors |
| GrammarFacts.ForClausesThrowParseError | Sources/Parser.swift:80-83 | the corrected clauses throw only parse errors |
| GrammarFacts.ConditionThrowsParseError | Sources/Parser.swift:93-95 | the condition throws only parse errors |
| GrammarFacts.DeclarationReportsParseErrors | Sources/Parser.swift:36-49 | `declaration` keeps earlier reports and reports only parse errors |
| GrammarFacts.VarOrStatementReportsParseErrors | Sources/Parser.swift:38-40 | keeps earlier reports, adds and throws only parse errors |
| GrammarFacts.StatementReportsParseErrors | Sources/Parser.swift:58-66 | keeps earlier reports, adds and throws only parse errors |
| GrammarFacts.WhileOrSimpleStatementReportsParseErrors | Sources/Parser.swift:61-65 | keeps earlier reports, adds and throws only parse errors |
| GrammarFacts.SimpleStatementReportsParseErrors | Sources/Parser.swift:62-65 | keeps earlier reports, adds and throws only parse errors |
| GrammarFacts.ForStatementReportsParseErrors | Sources/Parser.swift:68-90 | `forStatement` with the corrected clauses keeps earlier reports, adds and throws only parse errors |
| GrammarFacts.ForLoopReportsParseErrors | Sources/Parser.swift:80-89 | with the corrected clauses, keeps earlier reports, adds and throws only parse errors |
| GrammarFacts.IfStatementReportsParseErrors | Sources/Parser.swift:92-101 | keeps earlier reports, adds and throws only parse errors |
| GrammarFacts.IfBranchesReportParseErrors | Sources/Parser.swift:97-100 | keeps earlier reports, adds and throws only parse errors |
| GrammarFacts.ElseBranchReportsParseErrors | Sources/Parser.swift:98 | keeps earlier reports, adds and throws only parse errors |
| GrammarFacts.WhileStatementReportsParseErrors | Sources/Parser.swift:103-110 | keeps earlier reports, adds and throws only parse errors |
| GrammarFacts.BlockReportsParseErrors | Sources/Parser.swift:118-129 | keeps earlier reports, adds and throws only parse errors |
| GrammarFacts.ParseFromReportsParseErrors | Sources/Parser.swift:21-32 | the `parse` loop keeps earlier reports and adds only parse errors |
| GrammarFacts.ParseReportsOnlyParseErrors | Sources/Parser.swift:21-49 | every error `parse` reports is a parse error, so `declaration` always synchronizes and `parse`'s own handler is never reached |
| Parsing.Parser.constructor | Sources/Parser.swift:17-19 | a new parser is at the first token with no statements or errors |
| Parsing.Parser.Advance | Sources/Parser.swift:286-289 | moves on unless at EOF, never past it, and returns the previous token |
| Parsing.Parser.Match | Sources/Parser.swift:270-279 | moves one token exactly when it is not EOF and has one of the kinds; otherwise stays |
| Parsing.Parser.Consume | Sources/Parser.swift:292-295 | on the expected kind returns the token and moves on; otherwise throws at the current token and stays |
| Parsing.Parser.Expression | Sources/Parser.swift:137-139 | returns what the `assignment` rule does and leaves the cursor where it says |
| Parsing.Parser.Assignment | Sources/Parser.swift:141-156 | computes the `assignment` rule, result and cursor |
| Parsing.Parser.Level | Sources/Parser.swift:158-240 | computes each of `or` … `factor`: its operand, then its loop |
| Parsing.Parser.Operators | Sources/Parser.swift:161-165 | the `while match(...)` loop of a level folds each operator and operand onto the tree so far, as `Grammar.LevelLoop` says |
| Parsing.Parser.Operand | Sources/Parser.swift:158-240 | computes the operand rule of a level |
| Parsing.Parser.Unary | Sources/Parser.swift:242-250 | computes the `unary` rule |
| Parsing.Parser.Primary | Sources/Parser.swift:252-267 | computes the `primary` rule |
| Parsing.Parser.Parse | Sources/Parser.swift:21-32 | the loop collects the declarations in order up to EOF, with all reported errors |
| Parsing.Parser.Declaration | Sources/Parser.swift:36-49 | computes `declaration`: a statement, or none after reporting and synchronizing |
| Parsing.Parser.VarOrStatement | Sources/Parser.swift:38-40 | computes the body of `declaration` |
| Parsing.Parser.VarDeclaration | Sources/Parser.swift:51-56 | computes `varDeclaration` |
| Parsing.Parser.VarInitializer | Sources/Parser.swift:53-55 | computes the initializer and the closing `;` of a declaration, as `Grammar.VarInitializer` says |
| Parsing.Parser.Statement | Sources/Parser.swift:58-66 | computes `statement` |
| Parsing.Parser.WhileOrSimpleStatement | Sources/Parser.swift:61-65 | computes the `while`, print, block and expression cases of `statement`, as `Grammar.WhileOrSimpleStatement` says |
| Parsing.Parser.SimpleStatement | Sources/Parser.swift:62-65 | computes the print, block and expression cases of `statement` |
| Parsing.Parser.BlockStatement | Sources/Parser.swift:63 | computes a block statement: the block's declarations wrapped in a Block |
| Parsing.Parser.ForStatement | Sources/Parser.swift:68-90 | computes `forStatement` with the corrected clauses (see Findings), as `Grammar.ForStatement` says |
| Parsing.Parser.ForLoop | Sources/Parser.swift:80-89 | computes the corrected clauses and the body of a `for` and the `while` loop they desugar to |
| Parsing.Parser.Initializer | Sources/Parser.swift:71-78 | computes the initializer clause |
| Parsing.Parser.Clauses | Sources/Parser.swift:80-83 | computes the corrected condition and increment clauses (see Findings) |
| Parsing.Parser.ConditionClause | Sources/Parser.swift:80-81 | computes the corrected condition clause: an omitted condition's `;` is read once |
| Parsing.Parser.IncrementClause | Sources/Parser.swift:82-83 | computes the corrected increment clause: an omitted increment's `)` is read once |
| Parsing.Parser.Condition | Sources/Parser.swift:93-95 | computes `(` expression `)` of `if` and `while` |
| Parsing.Parser.IfStatement | Sources/Parser.swift:92-101 | computes `ifStatement` |
| Parsing.Parser.IfBranches | Sources/Parser.swift:97-100 | computes the then and else branches |
| Parsing.Parser.ElseBranch | Sources/Parser.swift:98 | computes the optional else branch |
| Parsing.Parser.WhileStatement | Sources/Parser.swift:103-110 | computes `whileStatement` |
| Parsing.Parser.PrintStatement | Sources/Parser.swift:112-116 | computes `printStatement` |
| Parsing.Parser.Block | Sources/Parser.swift:118-129 | computes `block`: declarations up to `}` or EOF, then the `}` |
| Parsing.Parser.ExpressionStatement | Sources/Parser.swift:131-135 | computes `expressionStatement` |
| Parsing.Parser.Synchronize | Sources/Parser.swift:299-312 | computes `synchronize`'s stopping place |
| Parsing.ParseTokens | Sources/Slox.swift:79-80 | a fresh parser returns exactly the statements and reports of the grammar's `parse` |
| Bindings.Lookup | Sources/Environment.swift:24-38 | `get` never yields nil, and its errors carry the name's token |
| Bindings.Define | Sources/Environment.swift:20-22 | `define` changes only the innermost scope, whose names gain the defined one |
| Bindings.Assign | Sources/Environment.swift:40-52 | `assign` keeps the number of scopes |
| Bindings.LookupInnermost | Sources/Environment.swift:24-38 | `get` answers from the innermost scope holding the name (nil there throws "uninitialized" without looking further) and throws "Undefined variable" when none does |
| Bindings.GetAfterDefine | Sources/Environment.swift:20-30 | after `define(n, v)`, `get(n)` yields v, or throws "uninitialized" for nil |
| Bindings.DefineChangesOneName | Sources/Environment.swift:20-22 | `define` leaves every other name and every enclosing scope as it was |
| Bindings.AssignInnermost | Sources/Environment.swift:40-52 | `assign` rebinds in the innermost scope holding the name and nowhere else; with no such scope it fails |
| Bindings.AssignKeepsNames | Sources/Environment.swift:40-52 | `assign` never creates or removes a binding |
| Bindings.GetAfterAssign | Sources/Environment.swift:40-52 | after a successful `assign(n, v)`, `get(n)` yields v |
| Environments.Environment.Scopes | Sources/Environment.swift:9-10 | the chain seen as dictionaries starts with this scope's own |
| Environments.Environment.constructor | Sources/Environment.swift:12-14 | `init()` makes an empty global scope with no enclosing one |
| Environments.Environment.Nested | Sources/Environment.swift:16-18 | `init(enclosing:)` makes an empty scope in front of the enclosing chain |
| Environments.Environment.ChainIsShallower | Sources/Environment.swift:9 | the fixed `enclosing` links make the chain acyclic |
| Environments.Environment.Define | Sources/Environment.swift:20-22 | updates this scope's dictionary in place, as `Bindings.Define` says |
| Environments.Environment.Get | Sources/Environment.swift:24-38 | the recursive lookup returns what `Bindings.Lookup` says |
| Environments.Environment.Assign | Sources/Environment.swift:40-52 | updates the innermost holding scope in place, or throws and changes nothing |
| Evaluation.CheckSameType | Sources/Interpreter.swift:38-45 | `checkSameType` throws exactly when the operands' variants differ |
| Evaluation.Exec | Sources/Interpreter.swift:169-181 | a statement keeps the number of scopes |
| Evaluation.Run | Sources/Interpreter.swift:11-21 | running statements keeps the number of scopes |
| EvaluationFacts.FalsyValues | Sources/Interpreter.swift:32-36 | exactly nil and `false` are falsy |
| EvaluationFacts.ArithmeticOperands | Sources/Interpreter.swift:56-91 | `-`, `*`, `/` compute on two numbers and throw "Operands must be numbers." otherwise; `/` by zero throws "Division by 0 is not allowed." |
| EvaluationFacts.PlusOperands | Sources/Interpreter.swift:92-105 | `+` adds numbers, concatenates strings, concatenates display texts of a number/string pair in either order, and throws for anything else |
| EvaluationFacts.ComparisonOperands | Sources/Interpreter.swift:106-123 | the six comparisons throw "Operands must be of same type." exactly when the variants differ and otherwise yield a boolean |
| EvaluationFacts.EqualityIsStructural | Sources/Interpreter.swift:118-123 | `==`/`!=` on one variant compare the values structurally |
| EvaluationFacts.CommaYieldsRight | Sources/Interpreter.swift:124-125 | the comma operator yields its right operand |
| EvaluationFacts.UnaryOperands | Sources/Interpreter.swift:134-151 | `!` negates truthiness; `-` negates a number and throws "Operand must be a number." otherwise |
| EvaluationFacts.LeftOperandFirst | Sources/Interpreter.swift:51-53 | the left operand is evaluated first; its error stops evaluation whatever the right is |
| EvaluationFacts.VarDefines | Sources/Interpreter.swift:178-181 | `var` binds the name in the innermost scope to the initializer's value or nil, and `get` then sees it |
| EvaluationFacts.PrintAppends | Sources/Interpreter.swift:173-176 | `print` appends the value's display text and changes no variable |
| EvaluationFacts.RunConcat | Sources/Interpreter.swift:11-21 | running `a + b` runs `b` only if `a` did not stop |
| EvaluationFacts.StopsAtFirstFailure | Sources/Interpreter.swift:11-21 | `interpret` stops at the first failing statement, keeping the effects of earlier ones and running none after |
| EvaluationFacts.OutputOnlyGrows | Sources/Interpreter.swift:11-21 | output is only appended to |
| Interpreting.Interpreter.constructor | Sources/Interpreter.swift:9 | the interpreter starts with one empty global environment and no output |
| Interpreting.Interpreter.Evaluate | Sources/Interpreter.swift:51-163 | `evaluate` and the expression visitors compute `Eval` against the environment |
| Interpreting.Interpreter.PrintStatement | Sources/Interpreter.swift:173-176 | `visitPrintStmt` appends the display text, or throws and prints nothing |
| Interpreting.Interpreter.VarStatement | Sources/Interpreter.swift:178-181 | `visitVarStmt` defines the name in the environment, or throws and changes nothing |
| Interpreting.Interpreter.Execute | Sources/Interpreter.swift:23-25 | `execute` moves to the state `Exec` gives, or fails and changes nothing |
| Interpreting.Interpreter.Interpret | Sources/Interpreter.swift:11-21 | the loop reaches the state `Run` gives, and hands the runtime error that stopped it, if any, to the error handler |

## Left out

- Characters are Unicode scalars (Dafny `char`), not Swift grapheme clusters. In particular,
  `"\r\n"` is one Swift `Character`; the model sees two characters. So on a file with CRLF line
  ends the source reports "Unexpected character" at every line end and never increments `line`,
  and a `//` comment runs to the end of the file; the model skips `\r` and counts the `\n`.
- Swift compares strings (`==`, `<`, dictionary keys) by canonical equivalence; the model
  compares sequences of code points, so two differently composed spellings of one text are
  different strings and different variable names in the model.
- Numbers are exact reals. IEEE rounding, overflow, infinities and NaN are not modelled, so `/`
  by a non-zero number and `+ - *` are exact.
- Swift's `String(Double)` rendering of fractional numbers is code outside the source. The
  display takes it as the parameter `fractionText`. Integral numbers print as integers, as with
  `String(Int(number))`. Numbers too large for `Int` would trap in Swift; the model prints them.
- `Double(text)` is modelled only on the texts the scanner produces for NUMBER: `digits` and
  `digits.digits`.
- Error reporting by printing is left out: `Slox.handleError`, `Slox.error`, `Slox.report`, the
  `hadError`/`hadRuntimeError` flags and the exit codes. Reported errors are appended to an
  `errors` list instead, and message texts are the `Errors.Message` enumeration, whose `Text`
  gives the source's wording.
- `Slox.run`, `runFile`, `runPrompt`, `main.swift` and `Package.swift` are left out: they are file
  I/O, the REPL and command-line handling. `Scanning.ScanSource` and `Parsing.ParseTokens` model
  the first two steps of `run`.
- `Token.description` is left out; it is debugging output only.
- `accept` and the visitor protocols are `match` on the `Expr` and `Stmt` datatypes.
- `Expr.swift` and `Stmt.swift` do not declare `Logical`, `Block`, `If` or `While`. The `Ast`
  datatypes add them with the fields `Parser.swift` passes.
- `SloxCallable.swift` and `SloxFunction.swift` are not part of this model. They refer to types
  and methods that do not exist in the source.
- `AstPrinter.swift` and `RPNPrinter.swift` are not part of this model; they are commented out.
- The interpreter has no visitor for `Assign` or `Logical` expressions, nor for `Block`, `If` or
  `While` statements. Evaluating or executing one gives the explicit outcome `Unsupported`.
- `visitVariableExpr`'s `?? .none` is not modelled. `get` never returns nil
  (`Bindings.Lookup` ensures it), so that branch cannot be taken.
- Parser structure differences:
  - The seven binary rules `or` … `factor` differ only in operators and operand rule. The model
    writes them as one rule indexed by level, `Parsing.Parser.Level` over `Grammar.LevelAt`.
  - `primary`'s six single-token cases are one match (`Grammar.AtomOf`).
  - `peek`, `previous`, `isAtEnd` and `check` are expressions over the token list and cursor.
  - Some parts of a rule are separate methods, each proved against its own grammar function:
    `Operators`, `Initializer`, `ForLoop`, `Clauses`, `ConditionClause`, `IncrementClause`, `Condition`, `IfBranches`,
    `ElseBranch`, `VarOrStatement`, `VarInitializer`, `WhileOrSimpleStatement`, `SimpleStatement` and
    `BlockStatement`. They keep each proof small.
  - `scanToken`'s switch is likewise grouped into tables (`IsSingleChar`, `IsOperatorChar`) and
    separate methods for the cases from `/` on (`Switch`), for `/`, the string loop, the digit loops and the line comment.
- `Parsing.Parser.Declaration` always synchronizes after an error, where the source tests first
  that the error is a parse error. `GrammarFacts.ParseReportsOnlyParseErrors` shows that every
  error the parser meets is one, so the two agree. For the same reason `parse`'s own `catch` is
  not modelled.
- Parser inputs must be `Parsable`: end with EOF, with NUMBER and STRING tokens carrying their
  payloads. The source would crash otherwise. `ScanParse.ScannedTokensParsable` shows the
  scanner always produces such a list.
- Grammar.Clause: models the corrected `for` clause (see Findings). An omitted condition or
  increment is followed by one delimiter; Parser.swift:80 and :82 consume it with `match` and then
  demand a second. The clause as written is `GrammarFacts.ClauseAsWritten`.
- Grammar.ForClausesAt: built on the corrected `Clause`. It accepts `for (;;)` and
  `for (var i = 0; i < 3;)`, which the source rejects, and rejects `for (;;;))`, which the source
  accepts. The clauses as written are `GrammarFacts.ForClausesAsWritten`.
- Grammar.ForStatement: parses the clauses with the corrected `ForClausesAt`, so it differs from
  `forStatement` on the inputs above.
- Grammar.ForLoop: parses the clauses with the corrected `ForClausesAt`.
- Parsing.Parser.ForStatement: computes the corrected `Grammar.ForStatement`, not
  Parser.swift:80-83 as written.
- Parsing.Parser.ForLoop: computes the corrected `Grammar.ForLoop`.
- Parsing.Parser.Clauses: computes the corrected `Grammar.ForClausesAt`.
- Parsing.Parser.ConditionClause: checks for the `;` of an omitted condition and consumes it once,
  where the source matches it and then consumes another.
- Parsing.Parser.IncrementClause: checks for the `)` of an omitted increment and consumes it once,
  where the source matches it and then consumes another.
- GrammarFacts.ForeverLoop: holds for the corrected parser only. As written, `for (;;)` is rejected
  (`GrammarFacts.OmittedClausesRejectedAsWritten`).
- Parsing.Parser.Parse: a program with a `for` statement is parsed with the corrected clauses, so
  its statements and errors differ from the source's on the inputs above. Every rule that can
  contain a statement inherits this.
- Parsing.ParseTokens: inherits the corrected `for` clauses from `Parsing.Parser.Parse`.

## Findings

| source | as written | input that shows it | evidently intended | confidence | as-written member | corrected member |
|---|---|---|---|---|---|---|
| Sources/Parser.swift:80-83 | `match(.SEMICOLON) ? nil : expression()` consumes the `;` of an omitted condition, and the `consume(.SEMICOLON, …)` after it then demands a second `;`. The increment clause does the same with `)`. | `for (;;) x;` is rejected with "Expect ';' after loop condition." at the `)` | an omitted clause is followed by exactly one delimiter, so `for (;;) x;` is `while (true) x;` | not executed | GrammarFacts.OmittedClausesRejectedAsWritten | GrammarFacts.OmittedClausesAccepted |
