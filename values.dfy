/** The runtime value domain (LiteralValue.swift): numbers, strings, booleans and nil,
    with the variant-wise equality and ordering and the display text. */
module Values {
  import opened Numerals

  /** Numbers are modelled as exact reals; see README for what this leaves out. */
  datatype LiteralValue = Number(number: real) | String(text: string) | Bool(truth: bool) | Nil

  /** `==`: the same variant with equal payloads. */
  predicate Equal(a: LiteralValue, b: LiteralValue) {
    match (a, b)
    case (Number(x), Number(y)) => x == y
    case (String(x), String(y)) => x == y
    case (Bool(x), Bool(y)) => x == y
    case (Nil, Nil) => true
    case _ => false
  }

  /** `!=`, Swift's default: the negation of `==`. */
  predicate NotEqual(a: LiteralValue, b: LiteralValue) {
    !Equal(a, b)
  }

  /** Lexicographic order of strings by character code. */
  predicate StringLess(x: string, y: string) {
    if y == [] then false
    else if x == [] then true
    else if x[0] != y[0] then x[0] < y[0]
    else StringLess(x[1..], y[1..])
  }

  /** `<`: defined within a variant only; false for nil and across variants. */
  predicate Less(a: LiteralValue, b: LiteralValue) {
    match (a, b)
    case (Number(x), Number(y)) => x < y
    case (String(x), String(y)) => StringLess(x, y)
    case (Bool(x), Bool(y)) => !x && y
    case (Nil, Nil) => false
    case _ => false
  }

  /** `>`, `<=` and `>=` are Swift's Comparable defaults built from `<`. */
  predicate Greater(a: LiteralValue, b: LiteralValue) {
    Less(b, a)
  }

  predicate LessEqual(a: LiteralValue, b: LiteralValue) {
    !Less(b, a)
  }

  predicate GreaterEqual(a: LiteralValue, b: LiteralValue) {
    !Less(a, b)
  }

  /** `===`: both operands are of the same variant. */
  predicate SameType(a: LiteralValue, b: LiteralValue) {
    match (a, b)
    case (Number(_), Number(_)) => true
    case (String(_), String(_)) => true
    case (Bool(_), Bool(_)) => true
    case (Nil, Nil) => true
    case _ => false
  }

  /** `!==`. */
  predicate NotSameType(a: LiteralValue, b: LiteralValue) {
    !SameType(a, b)
  }

  /** `Double.isFractional`: the number has a non-zero fractional part. */
  predicate IsFractional(n: real) {
    n != n.Floor as real
  }

  /** The display text of a number: integral numbers print as integers; fractional ones
      through the host's decimal rendering, which the model takes as a parameter. */
  function NumberText(n: real, fractionText: real -> string): string {
    if IsFractional(n) then fractionText(n) else IntText(n.Floor)
  }

  /** `description`: the text `print` shows and `+` concatenates. */
  function Description(v: LiteralValue, fractionText: real -> string): string {
    match v
    case Number(n) => NumberText(n, fractionText)
    case String(s) => s
    case Bool(b) => if b then "true" else "false"
    case Nil => "nil"
  }

  /** `==` is exactly structural equality of values: same variant, equal payload. */
  lemma EqualIsIdentity(a: LiteralValue, b: LiteralValue)
    ensures Equal(a, b) <==> a == b
    ensures Equal(Nil, Nil)
  {
  }

  /** Equal values are of the same variant. */
  lemma EqualImpliesSameType(a: LiteralValue, b: LiteralValue)
    ensures Equal(a, b) ==> SameType(a, b)
  {
  }

  /** `===` is an equivalence with the four variants as its classes, and `!==` its negation. */
  lemma SameTypeIsEquivalence(a: LiteralValue, b: LiteralValue, c: LiteralValue)
    ensures SameType(a, a)
    ensures SameType(a, b) <==> SameType(b, a)
    ensures SameType(a, b) && SameType(b, c) ==> SameType(a, c)
    ensures SameType(a, b) <==> a.Number? == b.Number? && a.String? == b.String? && a.Bool? == b.Bool?
    ensures NotSameType(a, b) <==> !SameType(a, b)
  {
  }

  /** `<` never holds across variants, nor between two nils; on booleans only false < true. */
  lemma LessWithinVariant(a: LiteralValue, b: LiteralValue)
    ensures Less(a, b) ==> SameType(a, b) && !a.Nil?
    ensures a.Bool? && b.Bool? ==> (Less(a, b) <==> a == Bool(false) && b == Bool(true))
  {
  }

  lemma {:induction false} StringLessIrreflexive(x: string)
    ensures !StringLess(x, x)
  {
    if x != [] {
      StringLessIrreflexive(x[1..]);
    }
  }

  lemma {:induction false} StringLessTransitive(x: string, y: string, z: string)
    requires StringLess(x, y) && StringLess(y, z)
    ensures StringLess(x, z)
  {
    if x != [] && x[0] == y[0] && y[0] == z[0] {
      StringLessTransitive(x[1..], y[1..], z[1..]);
    }
  }

  lemma {:induction false} StringLessTotal(x: string, y: string)
    ensures x == y || StringLess(x, y) || StringLess(y, x)
  {
    if x != [] && y != [] && x[0] == y[0] {
      StringLessTotal(x[1..], y[1..]);
      if x[1..] == y[1..] {
        assert x == [x[0]] + x[1..] && y == [y[0]] + y[1..];
      }
    }
  }

  /** Within each variant `<` is a strict total order: irreflexive, transitive,
      and any two distinct values of one variant are ordered one way or the other. */
  lemma LessIsStrictTotalOrder(a: LiteralValue, b: LiteralValue, c: LiteralValue)
    ensures !Less(a, a)
    ensures Less(a, b) && Less(b, c) ==> Less(a, c)
    ensures Less(a, b) ==> !Less(b, a)
    ensures SameType(a, b) && !a.Nil? && a != b ==> Less(a, b) || Less(b, a)
  {
    if a.String? {
      StringLessIrreflexive(a.text);
    }
    if Less(a, b) && Less(b, c) && a.String? {
      StringLessTransitive(a.text, b.text, c.text);
    }
    if a.String? && b.String? && StringLess(a.text, b.text) && StringLess(b.text, a.text) {
      StringLessTransitive(a.text, b.text, a.text);
    }
    if SameType(a, b) && a.String? {
      StringLessTotal(a.text, b.text);
    }
  }

  /** The derived comparisons agree with `<` and `==` as an ordering should. */
  lemma DerivedComparisons(a: LiteralValue, b: LiteralValue)
    requires SameType(a, b)
    ensures LessEqual(a, b) <==> Less(a, b) || a == b
    ensures GreaterEqual(a, b) <==> Greater(a, b) || a == b
    ensures NotEqual(a, b) <==> a != b
  {
    LessIsStrictTotalOrder(a, b, a);
    LessIsStrictTotalOrder(b, a, b);
  }

  /** The display text of each variant: a string shows as itself, booleans as
      "true"/"false", nil as "nil", and an integral number as its integer text. */
  lemma DescriptionOfEachVariant(v: LiteralValue, fractionText: real -> string)
    ensures v.String? ==> Description(v, fractionText) == v.text
    ensures v.Bool? ==> Description(v, fractionText) == if v.truth then "true" else "false"
    ensures v.Nil? ==> Description(v, fractionText) == "nil"
    ensures v.Number? && v.number == v.number.Floor as real ==>
              Description(v, fractionText) == IntText(v.number.Floor)
  {
  }
}
