/** What the lexical specification promises about number literals: the shape of a
    number lexeme and the value its literal carries (Scanner.swift, `number`). */
module NumberFacts {
  import opened Wrappers
  import opened Characters
  import opened Numerals
  import opened Tokens
  import opened Lexical
  import opened LexicalFacts

  lemma AllDigitsSlice(s: string, a: nat, b: nat)
    requires a <= b <= |s| && forall k :: a <= k < b ==> IsDigit(s[k])
    ensures AllDigits(s[a..b])
  {
    forall i | 0 <= i < b - a ensures IsDigit(s[a..b][i]) {
      assert s[a..b][i] == s[a + i];
    }
  }

  lemma DotSplit(s: string, a: nat, d: nat, e: nat)
    requires a <= d < e <= |s| && s[d] == '.'
    ensures s[a..e] == s[a..d] + "." + s[d + 1..e]
  {
  }

  /** A number lexeme is a run of digits, then a `.` and a second run of digits only
      when a digit follows the `.`. */
  lemma NumberLexemeShape(src: string, start: nat)
    requires start < |src| && IsDigit(src[start])
    ensures var e := NumberEnd(src, start + 1); var d := DigitsEnd(src, start + 1);
      AllDigits(src[start..d]) && !IsDigit(CharAt(src, d)) &&
      if CharAt(src, d) == '.' && IsDigit(CharAt(src, d + 1)) then
        d + 1 < e && AllDigits(src[d + 1..e]) && !IsDigit(CharAt(src, e)) && src[start..e] == src[start..d] + "." + src[d + 1..e]
      else
        e == d
  {
    var d := DigitsEnd(src, start + 1);
    DigitsEndIsMaximal(src, start + 1);
    AllDigitsSlice(src, start, d);
    if CharAt(src, d) == '.' && IsDigit(CharAt(src, d + 1)) {
      var e := DigitsEnd(src, d + 1);
      DigitsEndIsMaximal(src, d + 1);
      AllDigitsSlice(src, d + 1, e);
      DotSplit(src, start, d, e);
    }
  }

  /** A run of digits, optionally followed by `.` and more digits, reads as the value
      of the numeral it spells. */
  lemma RunLiteral(src: string, start: nat, d: nat, e: nat)
    requires start < d <= e <= |src| && AllDigits(src[start..d])
    requires d == e || (d + 1 < e && src[d] == '.' && AllDigits(src[d + 1..e]))
    ensures var frac := if e == d then "" else src[d + 1..e];
      AllDigits(frac) && NumberLiteralOf(src[start..e]) == NumberLiteral(NumeralValue(src[start..d], frac))
  {
    if e == d {
      ReadNumeral(src[start..d], "");
    } else {
      DotSplit(src, start, d, e);
      ReadNumeral(src[start..d], src[d + 1..e]);
    }
  }

  /** The literal of a number is the value of the numeral its lexeme spells. */
  lemma NumberLexemeValue(src: string, start: nat)
    requires start < |src| && IsDigit(src[start])
    ensures var e := NumberEnd(src, start + 1); var d := DigitsEnd(src, start + 1);
      var frac := if e == d then "" else src[d + 1..e];
      AllDigits(src[start..d]) && AllDigits(frac) &&
      NumberLiteralOf(src[start..e]) == NumberLiteral(NumeralValue(src[start..d], frac))
  {
    NumberLexemeShape(src, start);
    RunLiteral(src, start, DigitsEnd(src, start + 1), NumberEnd(src, start + 1));
  }

  /** A number always scans to a NUMBER token whose literal is the value of its lexeme. */
  lemma NumberToken(src: string, start: nat, line: int)
    requires start < |src| && IsDigit(src[start])
    ensures var lx := ScanStep(src, start, line); var t := TokenOf(src, start, lx);
      lx.message == None && t.Some? && t.value.kind == NUMBER && t.value.line == line &&
      t.value.lexeme == src[start..NumberEnd(src, start + 1)] &&
      t.value.literal == NumberLiteralOf(t.value.lexeme) && t.value.literal.NumberLiteral?
  {
    NumberLexemeValue(src, start);
  }

  /** A `.` that no digit follows is not part of the number before it: `1.` is the
      number 1 followed by a DOT. */
  lemma NumberThenDot()
    ensures Scan("1.").tokens == [Token(NUMBER, "1", NumberLiteral(1.0), 1), Token(DOT, ".", NoLiteral, 1), EofToken(1)]
  {
    var src := "1.";
    assert src[0..1] == "1" && src[1..2] == ".";
    assert DigitsValue("1") == 1 by {
      assert "1"[..0] == [];
    }
    ReadNumeral("1", "");
    assert DigitsEnd(src, 1) == 1;
    assert NumberEnd(src, 1) == 1;
    var first := ScanStep(src, 0, 1);
    assert first == Lexed(Some(NUMBER), NumberLiteral(1.0), None, 1, 1);
    var second := ScanStep(src, 1, 1);
    assert second == Found(DOT, 2, 1);
    assert ScanFrom(src, 2, 1).tokens == [EofToken(1)];
    assert ScanFrom(src, 1, 1).tokens == [Token(DOT, ".", NoLiteral, 1)] + [EofToken(1)];
    assert ScanFrom(src, 0, 1).tokens == [Token(NUMBER, "1", NumberLiteral(1.0), 1)] + ScanFrom(src, 1, 1).tokens;
  }
}
