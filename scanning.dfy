/** The Scanner class (Scanner.swift): a cursor over the source that appends tokens and
    reports errors as it goes. Each method is proved to do what the lexical
    specification in module Lexical says. */
module Scanning {
  import opened Wrappers
  import opened Characters
  import opened Tokens
  import opened Lexical

  class Scanner {
    const source: string
    var tokens: seq<Token>
    var start: nat
    var current: nat
    var line: int
    /** The errors reported through `Slox.error`, in order. */
    var errors: seq<ScanError>

    predicate Valid()
      reads this
    {
      start <= current <= |source|
    }

    constructor (source: string)
      ensures Valid() && this.source == source
      ensures tokens == [] && errors == [] && start == 0 && current == 0 && line == 1
    {
      this.source := source;
      tokens := [];
      errors := [];
      start := 0;
      current := 0;
      line := 1;
    }

    predicate IsAtEnd()
      reads this
    {
      current >= |source|
    }

    function Peek(): char
      reads this
    {
      CharAt(source, current)
    }

    function PeekNext(): char
      reads this
    {
      CharAt(source, current + 1)
    }

    /** Scans the rest of the source and appends the EOF token: the tokens and errors
        are those of the lexical specification. */
    method ScanTokens() returns (result: seq<Token>)
      requires Valid()
      modifies this
      ensures Valid()
      ensures result == tokens
      ensures tokens == old(tokens) + ScanFrom(source, old(current), old(line)).tokens
      ensures errors == old(errors) + ScanFrom(source, old(current), old(line)).errors
    {
      while !IsAtEnd()
        invariant Valid()
        invariant tokens + ScanFrom(source, current, line).tokens ==
                  old(tokens) + ScanFrom(source, old(current), old(line)).tokens
        invariant errors + ScanFrom(source, current, line).errors ==
                  old(errors) + ScanFrom(source, old(current), old(line)).errors
        decreases |source| - current
      {
        ghost var pos, before, done, reported := current, line, tokens, errors;
        start := current;
        ScanToken();
        ghost var lx := ScanStep(source, pos, before);
        AppendSomeThen(done, TokenOf(source, pos, lx), ScanFrom(source, current, line).tokens);
        AppendSomeThen(reported, ErrorOf(lx), ScanFrom(source, current, line).errors);
      }
      tokens := tokens + [EofToken(line)];
      result := tokens;
    }

    /** One scanning step from the start of a lexeme. */
    method ScanToken()
      requires start == current < |source|
      modifies this
      ensures Valid() && start == old(start)
      ensures var lx := ScanStep(source, old(current), old(line));
        tokens == AppendSome(old(tokens), TokenOf(source, old(current), lx)) &&
        errors == AppendSome(old(errors), ErrorOf(lx)) &&
        current == lx.next && line == lx.line
    {
      var c := Advance();
      if IsSingleChar(c) {
        AddToken(SingleCharKind(c), NoLiteral);
      } else if IsOperatorChar(c) {
        var withEqual := Match('=');
        AddToken(OperatorKind(c, withEqual), NoLiteral);
      } else {
        Switch(c);
      }
    }

    /** The rest of `scanToken`'s switch, on the character just consumed. */
    method Switch(c: char)
      requires start + 1 == current <= |source| && source[start] == c
      modifies this`current, this`line, this`tokens, this`errors
      ensures var lx := CharStep(source, start, old(line));
        tokens == AppendSome(old(tokens), TokenOf(source, start, lx)) &&
        errors == AppendSome(old(errors), ErrorOf(lx)) &&
        current == lx.next && line == lx.line
    {
      match c
      case '/' => Slash();
      case ' ' | '\t' | '\r' =>
      case '\n' => line := line + 1;
      case '"' => String();
      case _ =>
        if IsDigit(c) {
          Number();
        } else if IsAlpha(c) {
          Identifier();
        } else {
          Error(line, "Unexpected character " + [c]);
        }
    }

    /** The `/` case of `scanToken`: a comment is skipped, otherwise SLASH is added. */
    method Slash()
      requires start + 1 == current <= |source| && source[start] == '/'
      modifies this`current, this`line, this`tokens, this`errors
      ensures var lx := SlashFrom(source, start, old(line));
        tokens == AppendSome(old(tokens), TokenOf(source, start, lx)) &&
        errors == AppendSome(old(errors), ErrorOf(lx)) &&
        current == lx.next && line == lx.line
    {
      var lineComment := Match('/');
      if lineComment {
        LineComment();
      } else {
        var blockComment := Match('*');
        if blockComment {
          BlockComment();
        } else {
          AddToken(SLASH, NoLiteral);
        }
      }
    }

    /** Appends a token whose lexeme is the text from start to the cursor. */
    method AddToken(kind: TokenType, literal: TokenLiteral)
      requires start <= current <= |source|
      modifies this`tokens
      ensures tokens == old(tokens) + [Token(kind, source[start..current], literal, line)]
    {
      tokens := tokens + [Token(kind, source[start..current], literal, line)];
    }

    /** `Slox.error(line:message:)`: the error is recorded. */
    method Error(line: int, message: string)
      modifies this`errors
      ensures errors == old(errors) + [ScanError(line, message)]
    {
      errors := errors + [ScanError(line, message)];
    }

    method Advance() returns (c: char)
      requires current < |source|
      modifies this`current
      ensures current == old(current) + 1 && c == source[old(current)]
    {
      c := source[current];
      current := current + 1;
    }

    /** Consumes the next character when it is the expected one. */
    method Match(expected: char) returns (matched: bool)
      modifies this`current
      ensures matched <==> old(current) < |source| && source[old(current)] == expected
      ensures current == if matched then old(current) + 1 else old(current)
    {
      if current >= |source| || source[current] != expected {
        return false;
      }
      current := current + 1;
      return true;
    }

    method String()
      requires start + 1 == current <= |source| && source[start] == '"'
      modifies this`current, this`line, this`tokens, this`errors
      ensures var lx := StringFrom(source, start, start + 1, old(line));
        tokens == AppendSome(old(tokens), TokenOf(source, start, lx)) &&
        errors == AppendSome(old(errors), ErrorOf(lx)) &&
        current == lx.next && line == lx.line
    {
      StringBody();
      if IsAtEnd() {
        Error(line, "Undetermined string");
        return;
      }
      var _ := Advance();
      var value := source[start + 1..current - 1];
      AddToken(STRING, StringLiteral(value));
    }

    /** The loop of `string`: up to the closing quote or the end, counting newlines. */
    method StringBody()
      requires start < current <= |source|
      modifies this`current, this`line
      ensures start < old(current) <= current <= |source|
      ensures current == |source| || source[current] == '"'
      ensures StringFrom(source, start, current, line) == StringFrom(source, start, old(current), old(line))
    {
      while Peek() != '"' && !IsAtEnd()
        invariant old(current) <= current <= |source|
        invariant StringFrom(source, start, current, line) == StringFrom(source, start, old(current), old(line))
        decreases |source| - current
      {
        if Peek() == '\n' {
          line := line + 1;
        }
        var _ := Advance();
      }
    }

    method Number()
      requires start + 1 == current <= |source| && IsDigit(source[start])
      modifies this`current, this`tokens
      ensures current == NumberEnd(source, start + 1)
      ensures tokens == old(tokens) + [Token(NUMBER, source[start..current], NumberLiteralOf(source[start..current]), line)]
    {
      SkipDigits();
      if Peek() == '.' && IsDigit(PeekNext()) {
        var _ := Advance();
        SkipDigits();
      }
      AddToken(NUMBER, NumberLiteralOf(source[start..current]));
    }

    /** One of the two digit loops of `number`. */
    method SkipDigits()
      requires current <= |source|
      modifies this`current
      ensures current == DigitsEnd(source, old(current))
    {
      while IsDigit(Peek())
        invariant old(current) <= current <= |source|
        invariant DigitsEnd(source, current) == DigitsEnd(source, old(current))
        decreases |source| - current
      {
        var _ := Advance();
      }
    }

    method Identifier()
      requires start + 1 == current <= |source| && IsAlpha(source[start])
      modifies this`current, this`tokens
      ensures current == WordEnd(source, start + 1)
      ensures tokens == old(tokens) + [Token(WordKind(source[start..current]), source[start..current], NoLiteral, line)]
    {
      while IsAlphaNumeric(Peek())
        invariant start + 1 <= current <= |source| && tokens == old(tokens)
        invariant WordEnd(source, current) == WordEnd(source, start + 1)
        decreases |source| - current
      {
        var _ := Advance();
      }
      var text := source[start..current];
      var kind := if text in Keywords then Keywords[text] else IDENTIFIER;
      AddToken(kind, NoLiteral);
    }

    /** The rest of a line comment: everything up to the end of the line. */
    method LineComment()
      requires current <= |source|
      modifies this`current
      ensures current == LineEnd(source, old(current))
    {
      while Peek() != '\n' && !IsAtEnd()
        invariant old(current) <= current <= |source|
        invariant LineEnd(source, current) == LineEnd(source, old(current))
        decreases |source| - current
      {
        var _ := Advance();
      }
    }

    /** The rest of a block comment, after its opening delimiter. */
    method BlockComment()
      requires start + 2 == current <= |source|
      modifies this`current, this`line, this`errors
      ensures var lx := CommentFrom(source, old(current), old(line));
        lx.kind == None && errors == AppendSome(old(errors), ErrorOf(lx)) &&
        current == lx.next && line == lx.line
    {
      while !(Peek() == '*' && PeekNext() == '/') && !IsAtEnd()
        invariant start + 2 <= current <= |source|
        invariant CommentFrom(source, current, line) == CommentFrom(source, old(current), old(line))
        invariant errors == old(errors)
        decreases |source| - current
      {
        if Peek() == '\n' {
          line := line + 1;
        }
        var _ := Advance();
      }
      if IsAtEnd() {
        Error(line, "Undetermined block comment");
        return;
      }
      var _ := Advance();
      var _ := Advance();
    }
  }

  /** The first step of `Slox.run`: a fresh scanner over the source, asked for its
      tokens. What it returns, and what it reports, is exactly the lexical
      specification's scan of the source. */
  method ScanSource(source: string) returns (tokens: seq<Token>, errors: seq<ScanError>)
    ensures tokens == Scan(source).tokens && errors == Scan(source).errors
  {
    var scanner := new Scanner(source);
    tokens := scanner.ScanTokens();
    errors := scanner.errors;
  }
}
