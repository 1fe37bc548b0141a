/** What the lexical specification promises: the shape of each kind of token, the line
    counter, and the EOF token that ends every scan (Scanner.swift). */
module LexicalFacts {
  import opened Wrappers
  import opened Characters
  import opened Numerals
  import opened Tokens
  import opened Lexical

  // ----- Runs of characters -----

  /** A line comment runs up to, and not including, the next newline or the end. */
  lemma {:induction false} LineEndIsFirstNewline(src: string, i: nat)
    requires i <= |src|
    ensures var j := LineEnd(src, i);
      (forall k :: i <= k < j ==> src[k] != '\n') && (j == |src| || src[j] == '\n')
    decreases |src| - i
  {
    if i < |src| && src[i] != '\n' {
      LineEndIsFirstNewline(src, i + 1);
    }
  }

  /** The digit loop stops at the first non-digit: the run it skips is all digits. */
  lemma {:induction false} DigitsEndIsMaximal(src: string, i: nat)
    requires i <= |src|
    ensures var e := DigitsEnd(src, i);
      (forall k :: i <= k < e ==> IsDigit(src[k])) && !IsDigit(CharAt(src, e))
    decreases |src| - i
  {
    if IsDigit(CharAt(src, i)) {
      DigitsEndIsMaximal(src, i + 1);
    }
  }

  /** The identifier loop stops at the first character that is neither a letter, a
      digit nor an underscore. */
  lemma {:induction false} WordEndIsMaximal(src: string, i: nat)
    requires i <= |src|
    ensures var e := WordEnd(src, i);
      (forall k :: i <= k < e ==> IsAlphaNumeric(src[k])) && !IsAlphaNumeric(CharAt(src, e))
    decreases |src| - i
  {
    if IsAlphaNumeric(CharAt(src, i)) {
      WordEndIsMaximal(src, i + 1);
    }
  }

  // ----- Counting newlines -----

  lemma NewlinesSplit(s: string, a: nat, b: nat, c: nat)
    requires a <= b <= c <= |s|
    ensures Newlines(s[a..c]) == Newlines(s[a..b]) + Newlines(s[b..c])
  {
    assert s[a..c] == s[a..b] + s[b..c];
  }

  lemma NewlinesOfOne(s: string, i: nat)
    requires i < |s|
    ensures Newlines(s[i..i + 1]) == if s[i] == '\n' then 1 else 0
  {
    assert s[i..i + 1] == [s[i]];
  }

  lemma NoNewlines(s: string, a: nat, b: nat)
    requires a <= b <= |s| && forall k :: a <= k < b ==> s[k] != '\n'
    ensures Newlines(s[a..b]) == 0
  {
    assert '\n' !in s[a..b];
  }

  /** A block comment adds the newlines it crosses to the line counter. */
  lemma {:induction false} CommentLines(src: string, i: nat, line: int)
    requires i <= |src|
    ensures var r := CommentFrom(src, i, line); r.line == line + Newlines(src[i..r.next])
    decreases |src| - i
  {
    var r := CommentFrom(src, i, line);
    if i == |src| {
      assert src[i..i] == [];
    } else if src[i] == '*' && CharAt(src, i + 1) == '/' {
      NoNewlines(src, i, i + 2);
    } else {
      CommentLines(src, i + 1, if src[i] == '\n' then line + 1 else line);
      NewlinesSplit(src, i, i + 1, r.next);
      NewlinesOfOne(src, i);
    }
  }

  /** A string literal adds the newlines it crosses to the line counter. */
  lemma {:induction false} StringLines(src: string, start: nat, i: nat, line: int)
    requires start < i <= |src|
    ensures var r := StringFrom(src, start, i, line); r.line == line + Newlines(src[i..r.next])
    decreases |src| - i
  {
    var r := StringFrom(src, start, i, line);
    if i == |src| {
      assert src[i..i] == [];
    } else if src[i] == '"' {
      NoNewlines(src, i, i + 1);
    } else {
      StringLines(src, start, i + 1, if src[i] == '\n' then line + 1 else line);
      NewlinesSplit(src, i, i + 1, r.next);
      NewlinesOfOne(src, i);
    }
  }

  /** A number literal contains no newline. */
  lemma NumberHasNoNewline(src: string, start: nat)
    requires start < |src| && IsDigit(src[start])
    ensures Newlines(src[start..NumberEnd(src, start + 1)]) == 0
  {
    var d := DigitsEnd(src, start + 1);
    DigitsEndIsMaximal(src, start + 1);
    if CharAt(src, d) == '.' && IsDigit(CharAt(src, d + 1)) {
      DigitsEndIsMaximal(src, d + 1);
    }
    NoNewlines(src, start, NumberEnd(src, start + 1));
  }

  lemma SlashLines(src: string, start: nat, line: int)
    requires start < |src| && src[start] == '/'
    ensures var r := SlashFrom(src, start, line); r.line == line + Newlines(src[start..r.next])
  {
    var r := SlashFrom(src, start, line);
    if CharAt(src, start + 1) == '/' {
      LineEndIsFirstNewline(src, start + 2);
      NoNewlines(src, start, r.next);
    } else if CharAt(src, start + 1) == '*' {
      CommentLines(src, start + 2, line);
      NewlinesSplit(src, start, start + 2, r.next);
      NoNewlines(src, start, start + 2);
    } else {
      NewlinesOfOne(src, start);
    }
  }

  /** The line counter after a step is the line before it plus the newlines the step
      consumed. */
  lemma StepLines(src: string, start: nat, line: int)
    requires start < |src|
    ensures var r := ScanStep(src, start, line); r.line == line + Newlines(src[start..r.next])
  {
    var r := ScanStep(src, start, line);
    var c := src[start];
    NewlinesOfOne(src, start);
    if IsSingleChar(c) {
    } else if IsOperatorChar(c) {
      if CharAt(src, start + 1) == '=' {
        NoNewlines(src, start, start + 2);
      }
    } else if c == '/' {
      SlashLines(src, start, line);
    } else if c == '"' {
      StringLines(src, start, start + 1, line);
      NewlinesSplit(src, start, start + 1, r.next);
    } else if IsDigit(c) {
      NumberHasNoNewline(src, start);
    } else if IsAlpha(c) {
      WordEndIsMaximal(src, start + 1);
      NoNewlines(src, start, r.next);
    }
  }

  // ----- The token list -----

  /** An identifier's kind is IDENTIFIER or a keyword kind. */
  lemma WordKindIsIdentifierOrKeyword(text: string)
    ensures WordKind(text) == IDENTIFIER || IsKeywordType(WordKind(text))
  {
    if text in Keywords {
      KeywordTableOntoKeywordKinds(Keywords[text]);
    }
  }

  /** No step ends a token of kind EOF. */
  lemma StepIsNotEof(src: string, start: nat, line: int)
    requires start < |src|
    ensures ScanStep(src, start, line).kind != Some(EOF)
  {
    var c := src[start];
    if c == '"' {
      StringShape(src, start, start + 1, line);
    } else if !IsSingleChar(c) && !IsOperatorChar(c) && !IsDigit(c) && IsAlpha(c) {
      WordKindIsIdentifierOrKeyword(src[start..WordEnd(src, start + 1)]);
    }
  }

  /** The token list of a scan from pos ends with exactly one EOF token. */
  lemma {:induction false} ScanFromEndsWithEof(src: string, pos: nat, line: int)
    requires pos <= |src|
    ensures var ts := ScanFrom(src, pos, line).tokens;
      |ts| > 0 && ts[|ts| - 1].kind == EOF && forall k :: 0 <= k < |ts| - 1 ==> ts[k].kind != EOF
    decreases |src| - pos
  {
    if pos < |src| {
      var lx := ScanStep(src, pos, line);
      var head := OptionList(TokenOf(src, pos, lx));
      var rest := ScanFrom(src, lx.next, lx.line).tokens;
      assert ScanFrom(src, pos, line).tokens == head + rest;
      StepIsNotEof(src, pos, line);
      ScanFromEndsWithEof(src, lx.next, lx.line);
    }
  }

  /** The EOF token of a scan from pos is on the line reached by counting every
      newline from pos on. */
  lemma {:induction false} ScanFromEofLine(src: string, pos: nat, line: int)
    requires pos <= |src|
    ensures var ts := ScanFrom(src, pos, line).tokens;
      |ts| > 0 && ts[|ts| - 1] == EofToken(line + Newlines(src[pos..|src|]))
    decreases |src| - pos
  {
    if pos == |src| {
      assert src[pos..|src|] == [];
    } else {
      var lx := ScanStep(src, pos, line);
      var head := OptionList(TokenOf(src, pos, lx));
      var rest := ScanFrom(src, lx.next, lx.line).tokens;
      assert ScanFrom(src, pos, line).tokens == head + rest;
      ScanFromEofLine(src, lx.next, lx.line);
      StepLines(src, pos, line);
      NewlinesSplit(src, pos, lx.next, |src|);
    }
  }

  /** `scanTokens` ends its list with one EOF token, on line 1 plus the number of
      newlines in the source, and no earlier token is EOF. */
  lemma ScanEndsWithEof(src: string)
    ensures var ts := Scan(src).tokens;
      |ts| > 0 && ts[|ts| - 1] == EofToken(1 + Newlines(src)) &&
      forall k :: 0 <= k < |ts| - 1 ==> ts[k].kind != EOF
  {
    ScanFromEndsWithEof(src, 0, 1);
    ScanFromEofLine(src, 0, 1);
    assert src[0..|src|] == src;
  }

  // ----- Operators and comments -----

  /** `!`, `=`, `<` and `>` take a following `=` into a two-character token, and
      otherwise are a token of one character. */
  lemma OperatorToken(src: string, start: nat, line: int)
    requires start < |src| && IsOperatorChar(src[start])
    ensures var lx := ScanStep(src, start, line); var t := TokenOf(src, start, lx);
      lx.message == None && t.Some? && t.value.line == line && t.value.literal == NoLiteral &&
      if CharAt(src, start + 1) == '=' then
        t.value.lexeme == [src[start], '='] && t.value.kind == OperatorKind(src[start], true)
      else
        t.value.lexeme == [src[start]] && t.value.kind == OperatorKind(src[start], false)
  {
    if CharAt(src, start + 1) == '=' {
      assert src[start..start + 2] == [src[start], '='];
    } else {
      assert src[start..start + 1] == [src[start]];
    }
  }

  /** A line comment reaches up to the next newline or the end, and neither emits a
      token nor reports an error. */
  lemma LineCommentSkipped(src: string, start: nat, line: int)
    requires start + 1 < |src| && src[start] == '/' && src[start + 1] == '/'
    ensures var lx := ScanStep(src, start, line);
      lx.kind == None && lx.message == None && lx.line == line &&
      (lx.next == |src| || src[lx.next] == '\n') &&
      forall k :: start <= k < lx.next ==> src[k] != '\n'
  {
    LineEndIsFirstNewline(src, start + 2);
  }

  /** A closing `*` `/` of a block comment at k. */
  predicate ClosesAt(src: string, k: nat) {
    k + 1 < |src| && src[k] == '*' && src[k + 1] == '/'
  }

  /** The rest of a block comment ends just after its first closing delimiter; with
      none, the comment runs to the end of the source and is reported unterminated. */
  lemma {:induction false} CommentShape(src: string, i: nat, line: int)
    requires i <= |src|
    ensures var r := CommentFrom(src, i, line);
      r.kind == None &&
      (r.message == None ==> i + 2 <= r.next && ClosesAt(src, r.next - 2) &&
                             forall k :: i <= k < r.next - 2 ==> !ClosesAt(src, k)) &&
      (r.message != None ==> r.message == Some("Undetermined block comment") && r.next == |src| &&
                             forall k :: i <= k < |src| ==> !ClosesAt(src, k))
    decreases |src| - i
  {
    if i < |src| && !(src[i] == '*' && CharAt(src, i + 1) == '/') {
      CommentShape(src, i + 1, if src[i] == '\n' then line + 1 else line);
    }
  }

  /** A block comment emits no token; it is skipped through its first closing
      delimiter, or reported when the source ends first. */
  lemma BlockCommentSkipped(src: string, start: nat, line: int)
    requires start + 1 < |src| && src[start] == '/' && src[start + 1] == '*'
    ensures var lx := ScanStep(src, start, line);
      lx.kind == None &&
      (lx.message == None ==> start + 4 <= lx.next && ClosesAt(src, lx.next - 2) &&
                              forall k :: start + 2 <= k < lx.next - 2 ==> !ClosesAt(src, k)) &&
      (lx.message != None ==> lx.message == Some("Undetermined block comment") && lx.next == |src| &&
                              forall k :: start + 2 <= k < |src| ==> !ClosesAt(src, k))
  {
    CommentShape(src, start + 2, line);
  }

  // ----- Literals and identifiers -----

  /** The body of a string literal ends at its first closing quote; with none, the
      literal runs to the end of the source and is reported unterminated. */
  lemma {:induction false} StringShape(src: string, start: nat, i: nat, line: int)
    requires start < i <= |src|
    ensures var r := StringFrom(src, start, i, line);
      (r.message == None ==> r.kind == Some(STRING) && i < r.next && src[r.next - 1] == '"' &&
                             r.literal == StringLiteral(src[start + 1..r.next - 1]) &&
                             forall k :: i <= k < r.next - 1 ==> src[k] != '"') &&
      (r.message != None ==> r.kind == None && r.message == Some("Undetermined string") &&
                             r.next == |src| && forall k :: i <= k < |src| ==> src[k] != '"')
    decreases |src| - i
  {
    if i < |src| && src[i] != '"' {
      StringShape(src, start, i + 1, if src[i] == '\n' then line + 1 else line);
    }
  }

  /** A terminated string's literal is its lexeme without the surrounding quotes; an
      unterminated one emits no token and reports an error. */
  lemma StringToken(src: string, start: nat, line: int)
    requires start < |src| && src[start] == '"'
    ensures var lx := ScanStep(src, start, line); var t := TokenOf(src, start, lx);
      (lx.message == None ==> t.Some? && t.value.kind == STRING && t.value.literal.StringLiteral? &&
                              t.value.lexeme == "\"" + t.value.literal.text + "\"" &&
                              '"' !in t.value.literal.text) &&
      (lx.message != None ==> t.None? && lx.message == Some("Undetermined string") && lx.next == |src|)
  {
    var lx := ScanStep(src, start, line);
    StringShape(src, start, start + 1, line);
    if lx.message == None {
      var text := src[start + 1..lx.next - 1];
      assert src[start..lx.next] == "\"" + text + "\"";
      assert forall k :: 0 <= k < |text| ==> text[k] == src[start + 1 + k];
    }
  }

  /** An identifier is the longest run of letters, digits and underscores; its kind is
      the keyword table's entry for it, or IDENTIFIER when it has none. */
  lemma WordToken(src: string, start: nat, line: int)
    requires start < |src| && IsAlpha(src[start])
    ensures var lx := ScanStep(src, start, line); var t := TokenOf(src, start, lx);
      lx.message == None && t.Some? && t.value.line == line && t.value.literal == NoLiteral &&
      (forall k :: start <= k < lx.next ==> IsAlphaNumeric(src[k])) && !IsAlphaNumeric(CharAt(src, lx.next)) &&
      t.value.kind == if t.value.lexeme in Keywords then Keywords[t.value.lexeme] else IDENTIFIER
  {
    DigitsAreNotAlpha(src[start]);
    WordEndIsMaximal(src, start + 1);
  }

  /** A word scanned on its own is one token: its keyword kind or IDENTIFIER. */
  lemma WordScansAlone(w: string)
    requires |w| > 0 && IsAlpha(w[0]) && forall i :: 0 <= i < |w| ==> IsAlphaNumeric(w[i])
    ensures Scan(w).tokens == [Token(WordKind(w), w, NoLiteral, 1), EofToken(1)]
  {
    WordToken(w, 0, 1);
    var lx := ScanStep(w, 0, 1);
    assert lx.next == |w| && lx.line == 1;
    assert w[0..|w|] == w;
    assert TokenOf(w, 0, lx) == Some(Token(WordKind(w), w, NoLiteral, 1));
    assert ScanFrom(w, lx.next, lx.line).tokens == [EofToken(1)];
    assert Scan(w) == ScanAt(w, 0, 1);
  }

  /** Each keyword, scanned on its own, is one token of its own kind. */
  lemma KeywordScansAlone(k: string)
    requires k in Keywords
    ensures Scan(k).tokens == [Token(Keywords[k], k, NoLiteral, 1), EofToken(1)]
  {
    KeywordsAreLowercaseWords(k);
    WordScansAlone(k);
  }

  /** A character no case of `scanToken` handles is reported as unexpected, on the
      current line, and scanning goes on with the next character. */
  lemma UnexpectedCharacterReported(src: string, start: nat, line: int)
    requires start < |src|
    requires var c := src[start];
      !IsSingleChar(c) && !IsOperatorChar(c) && c !in "/ \t\r\n\"" && !IsDigit(c) && !IsAlpha(c)
    ensures var rest := ScanFrom(src, start + 1, line);
      ScanAt(src, start, line) == Scanned(rest.tokens, [ScanError(line, "Unexpected character " + [src[start]])] + rest.errors)
  {
  }
}
