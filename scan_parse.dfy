/** The scanner's output is what the parser demands of its input (Slox.swift runs the
    scanner's tokens straight through the parser). */
module ScanParse {
  import opened Wrappers
  import opened Characters
  import opened Tokens
  import opened Lexical
  import opened LexicalFacts
  import opened NumberFacts
  import opened Grammar

  /** Every token a step ends carries the payload its kind calls for. */
  lemma StepLiteralFits(src: string, start: nat, line: int)
    requires start < |src|
    ensures var t := TokenOf(src, start, ScanStep(src, start, line)); t.Some? ==> LiteralFits(t.value)
  {
    var c := src[start];
    if c == '"' {
      StringToken(src, start, line);
    } else if IsDigit(c) {
      NumberToken(src, start, line);
    } else if !IsSingleChar(c) && !IsOperatorChar(c) && IsAlpha(c) {
      WordKindIsIdentifierOrKeyword(src[start..WordEnd(src, start + 1)]);
    }
  }

  lemma {:induction false} ScanFromLiteralsFit(src: string, pos: nat, line: int)
    requires pos <= |src|
    ensures forall i :: 0 <= i < |ScanFrom(src, pos, line).tokens| ==> LiteralFits(ScanFrom(src, pos, line).tokens[i])
    decreases |src| - pos
  {
    if pos < |src| {
      var lx := ScanStep(src, pos, line);
      var head := OptionList(TokenOf(src, pos, lx));
      var rest := ScanFrom(src, lx.next, lx.line).tokens;
      assert ScanFrom(src, pos, line).tokens == head + rest;
      StepLiteralFits(src, pos, line);
      ScanFromLiteralsFit(src, lx.next, lx.line);
      forall i | |head| <= i < |head| + |rest|
        ensures LiteralFits((head + rest)[i])
      {
        assert (head + rest)[i] == rest[i - |head|];
      }
    }
  }

  /** The tokens of any source can be given to the parser: they end with EOF and every
      NUMBER and STRING token carries its value. */
  lemma ScannedTokensParsable(src: string)
    ensures Parsable(Scan(src).tokens)
  {
    ScanEndsWithEof(src);
    ScanFromLiteralsFit(src, 0, 1);
  }
}
