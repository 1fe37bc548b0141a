/** Option and Result: the model's stand-ins for Swift optionals and thrown errors. */
module Wrappers {

  datatype Option<+T> = None | Some(value: T)

  /** The outcome of an operation that either yields a value or throws an error. */
  datatype Result<+T, +E> = Ok(value: T) | Err(error: E)

  /** The value of o as a list of zero or one elements. */
  function OptionList<T>(o: Option<T>): seq<T> {
    if o.Some? then [o.value] else []
  }

  /** s with the value of o, if any, appended. */
  function AppendSome<T>(s: seq<T>, o: Option<T>): seq<T> {
    if o.Some? then s + [o.value] else s
  }

  /** Appending one optional element and then a run is appending both at once, so
      that proofs about the token list need not reason about individual elements. */
  lemma AppendSomeThen<T>(s: seq<T>, o: Option<T>, r: seq<T>)
    ensures AppendSome(s, o) + r == s + (OptionList(o) + r)
  {
    if o.None? {
      assert OptionList(o) + r == r;
    }
  }
}
