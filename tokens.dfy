/** Token kinds, the keyword table, tokens and the scanner's error reports
    (Token.swift). */
module Tokens {

  datatype TokenType =
    // Single-character tokens.
    | LEFT_PAREN | RIGHT_PAREN | LEFT_BRACE | RIGHT_BRACE | COMMA | DOT | MINUS | PLUS | SEMICOLON | SLASH | STAR
    // One or two character tokens.
    | BANG | BANG_EQUAL | EQUAL | EQUAL_EQUAL | GREATER | GREATER_EQUAL | LESS | LESS_EQUAL
    // Literals.
    | IDENTIFIER | STRING | NUMBER
    // Keywords.
    | AND | CLASS | ELSE | FALSE | FUN | FOR | IF | NIL | OR | PRINT | RETURN | SUPER | THIS | TRUE | VAR | WHILE
    | EOF

  /** The sixteen reserved words and the token kind each one scans to. */
  const Keywords: map<string, TokenType> := map[
    "and" := AND,
    "class" := CLASS,
    "else" := ELSE,
    "false" := FALSE,
    "for" := FOR,
    "fun" := FUN,
    "if" := IF,
    "nil" := NIL,
    "or" := OR,
    "print" := PRINT,
    "return" := RETURN,
    "super" := SUPER,
    "this" := THIS,
    "true" := TRUE,
    "var" := VAR,
    "while" := WHILE
  ]

  /** The literal payload of a token: a number for NUMBER, the decoded text for STRING. */
  datatype TokenLiteral = NoLiteral | NumberLiteral(number: real) | StringLiteral(text: string)

  /** A token; `kind` is the field the source calls `type`. */
  datatype Token = Token(kind: TokenType, lexeme: string, literal: TokenLiteral, line: int)

  /** A lexical error as reported by the scanner: a line and a message. */
  datatype ScanError = ScanError(line: int, message: string)

  /** The kinds of the keyword section of the enumeration. */
  predicate IsKeywordType(t: TokenType) {
    t in {AND, CLASS, ELSE, FALSE, FUN, FOR, IF, NIL, OR, PRINT, RETURN, SUPER, THIS, TRUE, VAR, WHILE}
  }

  /** The name of a token kind as Swift prints it (the case name). */
  function TypeName(t: TokenType): string {
    match t
    case LEFT_PAREN => "LEFT_PAREN"
    case RIGHT_PAREN => "RIGHT_PAREN"
    case LEFT_BRACE => "LEFT_BRACE"
    case RIGHT_BRACE => "RIGHT_BRACE"
    case COMMA => "COMMA"
    case DOT => "DOT"
    case MINUS => "MINUS"
    case PLUS => "PLUS"
    case SEMICOLON => "SEMICOLON"
    case SLASH => "SLASH"
    case STAR => "STAR"
    case BANG => "BANG"
    case BANG_EQUAL => "BANG_EQUAL"
    case EQUAL => "EQUAL"
    case EQUAL_EQUAL => "EQUAL_EQUAL"
    case GREATER => "GREATER"
    case GREATER_EQUAL => "GREATER_EQUAL"
    case LESS => "LESS"
    case LESS_EQUAL => "LESS_EQUAL"
    case IDENTIFIER => "IDENTIFIER"
    case STRING => "STRING"
    case NUMBER => "NUMBER"
    case AND => "AND"
    case CLASS => "CLASS"
    case ELSE => "ELSE"
    case FALSE => "FALSE"
    case FUN => "FUN"
    case FOR => "FOR"
    case IF => "IF"
    case NIL => "NIL"
    case OR => "OR"
    case PRINT => "PRINT"
    case RETURN => "RETURN"
    case SUPER => "SUPER"
    case THIS => "THIS"
    case TRUE => "TRUE"
    case VAR => "VAR"
    case WHILE => "WHILE"
    case EOF => "EOF"
  }

  function UpperChar(c: char): char {
    if 'a' <= c <= 'z' then (c as int - 32) as char else c
  }

  /** ASCII upper-casing of a word. */
  function Upper(s: string): (u: string)
    ensures |u| == |s|
  {
    seq(|s|, i requires 0 <= i < |s| => UpperChar(s[i]))
  }

  const ReservedWords: set<string> := {"and", "class", "else", "false", "for", "fun", "if", "nil",
                                       "or", "print", "return", "super", "this", "true", "var", "while"}

  /** The table's keys are exactly the sixteen reserved words. */
  lemma KeywordsAreReserved()
    ensures forall k :: k in Keywords <==> k in ReservedWords
  {
  }

  /** Every keyword scans to the kind that carries its own name in upper case. */
  lemma KeywordsNameTheirKind(k: string)
    requires k in Keywords
    ensures TypeName(Keywords[k]) == Upper(k)
  {
    var t := Keywords[k];
    TypeKeywordInverse(t);
    KeywordTableInjective(k, TypeKeyword(t));
    KindNamesKeyword(t);
  }

  /** u is the upper-casing of w, checked character by character. */
  lemma UpperIs(w: string, u: string)
    requires |w| == |u| && forall i :: 0 <= i < |w| ==> UpperChar(w[i]) == u[i]
    ensures Upper(w) == u
  {
  }

  /** The name of each keyword kind is its keyword in upper case. */
  lemma KindNamesKeyword(t: TokenType)
    requires IsKeywordType(t)
    ensures TypeName(t) == Upper(TypeKeyword(t))
  {
    if t in {AND, CLASS, ELSE, FALSE, FOR, FUN, IF, NIL} {
      KindNamesKeywordAToN(t);
    } else {
      KindNamesKeywordOToW(t);
    }
  }

  lemma KindNamesKeywordAToN(t: TokenType)
    requires t in {AND, CLASS, ELSE, FALSE, FOR, FUN, IF, NIL}
    ensures TypeName(t) == Upper(TypeKeyword(t))
  {
    match t
    case AND => UpperIs("and", "AND");
    case CLASS => UpperIs("class", "CLASS");
    case ELSE => UpperIs("else", "ELSE");
    case FALSE => UpperIs("false", "FALSE");
    case FOR => UpperIs("for", "FOR");
    case FUN => UpperIs("fun", "FUN");
    case IF => UpperIs("if", "IF");
    case NIL => UpperIs("nil", "NIL");
  }

  lemma KindNamesKeywordOToW(t: TokenType)
    requires t in {OR, PRINT, RETURN, SUPER, THIS, TRUE, VAR, WHILE}
    ensures TypeName(t) == Upper(TypeKeyword(t))
  {
    match t
    case OR => UpperIs("or", "OR");
    case PRINT => UpperIs("print", "PRINT");
    case RETURN => UpperIs("return", "RETURN");
    case SUPER => UpperIs("super", "SUPER");
    case THIS => UpperIs("this", "THIS");
    case TRUE => UpperIs("true", "TRUE");
    case VAR => UpperIs("var", "VAR");
    case WHILE => UpperIs("while", "WHILE");
  }

  /** TypeKeyword inverts the table: the keyword of a keyword kind scans to that kind. */
  lemma TypeKeywordInverse(t: TokenType)
    requires IsKeywordType(t)
    ensures TypeKeyword(t) in Keywords && Keywords[TypeKeyword(t)] == t
  {
  }

  /** Distinct keywords scan to distinct kinds. */
  lemma KeywordTableInjective(k1: string, k2: string)
    requires k1 in Keywords && k2 in Keywords
    ensures k1 != k2 ==> Keywords[k1] != Keywords[k2]
  {
  }

  /** The table maps onto exactly the keyword section of the enumeration: never to
      IDENTIFIER, a literal kind, punctuation or EOF, and every keyword kind is reached. */
  lemma KeywordTableOntoKeywordKinds(t: TokenType)
    ensures IsKeywordType(t) <==> exists k :: k in Keywords && Keywords[k] == t
  {
    if IsKeywordType(t) {
      TypeKeywordInverse(t);
      var k := TypeKeyword(t);
      assert k in Keywords && Keywords[k] == t;
    }
  }

  /** The keyword whose kind is t (the inverse of the table on keyword kinds). */
  function TypeKeyword(t: TokenType): (k: string)
    requires IsKeywordType(t)
  {
    match t
    case AND => "and"
    case CLASS => "class"
    case ELSE => "else"
    case FALSE => "false"
    case FUN => "fun"
    case FOR => "for"
    case IF => "if"
    case NIL => "nil"
    case OR => "or"
    case PRINT => "print"
    case RETURN => "return"
    case SUPER => "super"
    case THIS => "this"
    case TRUE => "true"
    case VAR => "var"
    case WHILE => "while"
  }

  /** Every keyword is a non-empty run of lower-case letters. */
  lemma KeywordsAreLowercaseWords(k: string)
    requires k in Keywords
    ensures |k| > 0 && forall i :: 0 <= i < |k| ==> 'a' <= k[i] <= 'z'
  {
  }
}
