/** The character classes the scanner uses (Character+Validation.swift). */
module Characters {

  /** An ASCII letter or the underscore. */
  predicate IsAlpha(c: char) {
    ('a' <= c <= 'z') || ('A' <= c <= 'Z') || c == '_'
  }

  /** An ASCII decimal digit. */
  predicate IsDigit(c: char) {
    '0' <= c <= '9'
  }

  predicate IsAlphaNumeric(c: char) {
    IsAlpha(c) || IsDigit(c)
  }

  const Digits: string := "0123456789"
  /** The digit class agrees with the explicit list of the ten digits. */
  lemma DigitsAreListed(c: char)
    ensures IsDigit(c) <==> c in Digits
  {
    if IsDigit(c) {
      assert Digits[c as int - '0' as int] == c;
    }
    if c in Digits {
      var i :| 0 <= i < |Digits| && Digits[i] == c;
      assert Digits[i] as int == '0' as int + i;
    }
  }

  /** The classes are disjoint: no character is both a digit and a letter. */
  lemma DigitsAreNotAlpha(c: char)
    ensures !(IsDigit(c) && IsAlpha(c))
    ensures IsAlphaNumeric(c) <==> IsAlpha(c) || IsDigit(c)
  {
  }

  /** The scanner's end-of-input sentinel belongs to no class, so every
      digit or identifier loop stops at the end of the source. */
  lemma SentinelIsInert()
    ensures !IsDigit('\0') && !IsAlpha('\0') && !IsAlphaNumeric('\0')
  {
  }
}
