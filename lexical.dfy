/** The lexical structure the scanner recognises, as pure functions over the source
    text: what one call of `scanToken` finds (ScanStep) and the whole token list
    (Scan). The Scanner class in module Scanning is proved to compute exactly these. */
module Lexical {
  import opened Wrappers
  import opened Characters
  import opened Numerals
  import opened Tokens

  /** The character at i, or the NUL sentinel at and past the end (`peek`, `peekNext`). */
  function CharAt(src: string, i: nat): char {
    if i < |src| then src[i] else '\0'
  }

  /** The number of newline characters in s. */
  function Newlines(s: string): nat {
    multiset(s)['\n']
  }

  /** What one scanning step finds: the kind and literal of the token it ends (if
      any), the message of the error it reports (if any), where the cursor ends and
      the line counter afterwards. */
  datatype Lexed = Lexed(kind: Option<TokenType>, literal: TokenLiteral, message: Option<string>, next: nat, line: int)

  function Found(kind: TokenType, next: nat, line: int): Lexed {
    Lexed(Some(kind), NoLiteral, None, next, line)
  }

  function Nothing(next: nat, line: int): Lexed {
    Lexed(None, NoLiteral, None, next, line)
  }

  function Failed(message: string, next: nat, line: int): Lexed {
    Lexed(None, NoLiteral, Some(message), next, line)
  }

  /** The token a step starting at start ends, its lexeme being the text it consumed. */
  function TokenOf(src: string, start: nat, lx: Lexed): Option<Token>
    requires start <= lx.next <= |src|
  {
    if lx.kind.Some? then Some(Token(lx.kind.value, src[start..lx.next], lx.literal, lx.line)) else None
  }

  /** The error a step reports, on the line the scanner is on when it reports it. */
  function ErrorOf(lx: Lexed): Option<ScanError> {
    if lx.message.Some? then Some(ScanError(lx.line, lx.message.value)) else None
  }

  /** The characters that are a token on their own. */
  predicate IsSingleChar(c: char) {
    c == '(' || c == ')' || c == '{' || c == '}' || c == ',' ||
    c == '.' || c == '-' || c == '+' || c == ';' || c == '*'
  }

  function SingleCharKind(c: char): TokenType
    requires IsSingleChar(c)
  {
    match c
    case '(' => LEFT_PAREN
    case ')' => RIGHT_PAREN
    case '{' => LEFT_BRACE
    case '}' => RIGHT_BRACE
    case ',' => COMMA
    case '.' => DOT
    case '-' => MINUS
    case '+' => PLUS
    case ';' => SEMICOLON
    case '*' => STAR
  }

  /** The characters that are an operator alone or, followed by `=`, a two-character one. */
  predicate IsOperatorChar(c: char) {
    c == '!' || c == '=' || c == '<' || c == '>'
  }

  /** The operator an operator character starts: its two-character form when `withEqual`. */
  function OperatorKind(c: char, withEqual: bool): TokenType
    requires IsOperatorChar(c)
  {
    match c
    case '!' => if withEqual then BANG_EQUAL else BANG
    case '=' => if withEqual then EQUAL_EQUAL else EQUAL
    case '<' => if withEqual then LESS_EQUAL else LESS
    case '>' => if withEqual then GREATER_EQUAL else GREATER
  }

  /** Index of the first newline at or after i, or the end of the source. */
  function LineEnd(src: string, i: nat): (j: nat)
    requires i <= |src|
    ensures i <= j <= |src|
    decreases |src| - i
  {
    if i < |src| && src[i] != '\n' then LineEnd(src, i + 1) else i
  }

  /** The body of a string literal opened by the quote at start, from i on: up to the
      closing quote, counting the newlines it crosses; an error when the source ends first. */
  function StringFrom(src: string, start: nat, i: nat, line: int): (r: Lexed)
    requires start < i <= |src|
    ensures i <= r.next <= |src|
    decreases |src| - i
  {
    if i == |src| then Failed("Undetermined string", i, line)
    else if src[i] == '"' then Lexed(Some(STRING), StringLiteral(src[start + 1..i]), None, i + 1, line)
    else StringFrom(src, start, i + 1, if src[i] == '\n' then line + 1 else line)
  }

  /** `Double(String)` on a lexeme: the number a numeral denotes, nil otherwise. */
  function NumberLiteralOf(text: string): TokenLiteral {
    match ReadNumber(text)
    case Some(v) => NumberLiteral(v)
    case None => NoLiteral
  }

  /** The end of the run of digits from i. */
  function DigitsEnd(src: string, i: nat): (e: nat)
    requires i <= |src|
    ensures i <= e <= |src|
    decreases |src| - i
  {
    if IsDigit(CharAt(src, i)) then DigitsEnd(src, i + 1) else i
  }

  /** The end of a number literal whose first digit is before i: more digits, then a
      `.` and more digits only when a digit follows the `.`. */
  function NumberEnd(src: string, i: nat): (e: nat)
    requires i <= |src|
    ensures i <= e <= |src|
  {
    var d := DigitsEnd(src, i);
    if CharAt(src, d) == '.' && IsDigit(CharAt(src, d + 1)) then DigitsEnd(src, d + 1) else d
  }

  /** The kind of a word: its keyword kind, or IDENTIFIER. */
  function WordKind(text: string): TokenType {
    if text in Keywords then Keywords[text] else IDENTIFIER
  }

  /** The end of an identifier or keyword, scanning from i: letters, digits and underscores. */
  function WordEnd(src: string, i: nat): (e: nat)
    requires i <= |src|
    ensures i <= e <= |src|
    decreases |src| - i
  {
    if IsAlphaNumeric(CharAt(src, i)) then WordEnd(src, i + 1) else i
  }

  /** The rest of a block comment from i on: up to and including the closing `*` `/`,
      counting the newlines it crosses; an error when the source ends first. */
  function CommentFrom(src: string, i: nat, line: int): (r: Lexed)
    requires i <= |src|
    ensures i <= r.next <= |src|
    ensures r.kind == None
    decreases |src| - i
  {
    if i == |src| then Failed("Undetermined block comment", i, line)
    else if src[i] == '*' && CharAt(src, i + 1) == '/' then Nothing(i + 2, line)
    else CommentFrom(src, i + 1, if src[i] == '\n' then line + 1 else line)
  }

  /** After a `/`: a line comment, a block comment, or the SLASH operator. */
  function SlashFrom(src: string, start: nat, line: int): (r: Lexed)
    requires start < |src|
    ensures start < r.next <= |src|
  {
    if CharAt(src, start + 1) == '/' then Nothing(LineEnd(src, start + 2), line)
    else if CharAt(src, start + 1) == '*' then CommentFrom(src, start + 2, line)
    else Found(SLASH, start + 1, line)
  }

  /** One scanning step from start (`scanToken`). Every step consumes at least one
      character and stays within the source. */
  function ScanStep(src: string, start: nat, line: int): (r: Lexed)
    requires start < |src|
    ensures start < r.next <= |src|
  {
    var c := src[start];
    if IsSingleChar(c) then Found(SingleCharKind(c), start + 1, line)
    else if IsOperatorChar(c) then
      var withEqual := CharAt(src, start + 1) == '=';
      Found(OperatorKind(c, withEqual), if withEqual then start + 2 else start + 1, line)
    else CharStep(src, start, line)
  }

  /** The cases of `scanToken`'s switch after the operators: `/`, whitespace, strings,
      numbers, words and unexpected characters. */
  function CharStep(src: string, start: nat, line: int): (r: Lexed)
    requires start < |src|
    ensures start < r.next <= |src|
  {
    var c := src[start];
    match c
    case '/' => SlashFrom(src, start, line)
    case ' ' => Nothing(start + 1, line)
    case '\t' => Nothing(start + 1, line)
    case '\r' => Nothing(start + 1, line)
    case '\n' => Nothing(start + 1, line + 1)
    case '"' => StringFrom(src, start, start + 1, line)
    case _ =>
      if IsDigit(c) then
        var e := NumberEnd(src, start + 1);
        Lexed(Some(NUMBER), NumberLiteralOf(src[start..e]), None, e, line)
      else if IsAlpha(c) then
        var e := WordEnd(src, start + 1);
        Found(WordKind(src[start..e]), e, line)
      else Failed("Unexpected character " + [c], start + 1, line)
  }

  datatype Scanned = Scanned(tokens: seq<Token>, errors: seq<ScanError>)

  function EofToken(line: int): Token {
    Token(EOF, "", NoLiteral, line)
  }

  /** The tokens and errors of scanning from pos to the end, then the EOF token (the
      loop of `scanTokens`). */
  function ScanFrom(src: string, pos: nat, line: int): Scanned
    requires pos <= |src|
    decreases |src| - pos, 1
  {
    if pos == |src| then Scanned([EofToken(line)], []) else ScanAt(src, pos, line)
  }

  /** One step from pos, then the rest. */
  function ScanAt(src: string, pos: nat, line: int): Scanned
    requires pos < |src|
    decreases |src| - pos, 0
  {
    var lx := ScanStep(src, pos, line);
    var rest := ScanFrom(src, lx.next, lx.line);
    Scanned(OptionList(TokenOf(src, pos, lx)) + rest.tokens, OptionList(ErrorOf(lx)) + rest.errors)
  }

  /** The scanner's output on a whole source, starting on line 1. */
  function Scan(src: string): Scanned {
    ScanFrom(src, 0, 1)
  }
}
