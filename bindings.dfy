/** The variables an environment chain holds, as values: a list of scopes from the
    innermost outwards, each a dictionary from names to values (Environment.swift).
    The Environment class in module Environments is proved to follow these. */
module Bindings {
  import opened Wrappers
  import opened Tokens
  import opened Errors
  import opened Values

  type Scope = map<string, LiteralValue>

  /** `get`: the innermost scope holding the name decides. A binding to nil is an
      uninitialized variable, and the search stops there; a name no scope holds is
      undefined. */
  function Lookup(scopes: seq<Scope>, name: Token): (r: Result<LiteralValue, SloxError>)
    ensures r.Ok? ==> r.value != Nil
    ensures r.Err? ==> r.error.RuntimeError? && r.error.token == name
  {
    if scopes == [] then Err(RuntimeError(name, UndefinedVariable(name.lexeme)))
    else if name.lexeme in scopes[0] then
      if scopes[0][name.lexeme] == Nil then Err(RuntimeError(name, UninitializedVariable(name.lexeme)))
      else Ok(scopes[0][name.lexeme])
    else Lookup(scopes[1..], name)
  }

  /** `define`: the name is bound in the innermost scope, whatever it held before. */
  function Define(scopes: seq<Scope>, name: string, value: LiteralValue): (r: seq<Scope>)
    requires |scopes| > 0
    ensures |r| == |scopes| && r[1..] == scopes[1..] && r[0].Keys == scopes[0].Keys + {name}
  {
    scopes[0 := scopes[0][name := value]]
  }

  /** `assign`: the name is rebound in the innermost scope that holds it; None when no
      scope does. */
  function Assign(scopes: seq<Scope>, name: string, value: LiteralValue): (r: Option<seq<Scope>>)
    ensures r.Some? ==> |r.value| == |scopes|
  {
    if scopes == [] then None
    else if name in scopes[0] then Some(scopes[0 := scopes[0][name := value]])
    else
      var outer := Assign(scopes[1..], name, value);
      if outer.Some? then Some([scopes[0]] + outer.value) else None
  }

  /** The name is bound in no scope before index i. */
  predicate NotBefore(scopes: seq<Scope>, name: string, i: nat)
    requires i <= |scopes|
  {
    forall j :: 0 <= j < i ==> name !in scopes[j]
  }

  /** `get` answers from the innermost scope that holds the name, and throws
      "Undefined variable" exactly when none does. */
  lemma {:induction false} LookupInnermost(scopes: seq<Scope>, name: Token, i: nat)
    requires i <= |scopes| && NotBefore(scopes, name.lexeme, i)
    ensures i < |scopes| && name.lexeme in scopes[i] ==>
      Lookup(scopes, name) == if scopes[i][name.lexeme] == Nil then Err(RuntimeError(name, UninitializedVariable(name.lexeme)))
                              else Ok(scopes[i][name.lexeme])
    ensures i == |scopes| ==> Lookup(scopes, name) == Err(RuntimeError(name, UndefinedVariable(name.lexeme)))
  {
    if i > 0 {
      assert name.lexeme !in scopes[0];
      LookupInnermost(scopes[1..], name, i - 1);
    }
  }

  /** After `define(n, v)`, `get(n)` yields v, or, when v is nil, throws that n is
      uninitialized. */
  lemma GetAfterDefine(scopes: seq<Scope>, name: Token, value: LiteralValue)
    requires |scopes| > 0
    ensures Lookup(Define(scopes, name.lexeme, value), name) ==
      if value == Nil then Err(RuntimeError(name, UninitializedVariable(name.lexeme))) else Ok(value)
  {
  }

  /** `define` leaves every other name, and every enclosing scope, as it was. */
  lemma DefineChangesOneName(scopes: seq<Scope>, name: string, value: LiteralValue, other: Token)
    requires |scopes| > 0 && other.lexeme != name
    ensures Lookup(Define(scopes, name, value), other) == Lookup(scopes, other)
    ensures forall n :: n in scopes[0] && n != name ==> Define(scopes, name, value)[0][n] == scopes[0][n]
  {
  }

  /** `assign` rebinds the name in the innermost scope that holds it and changes nothing
      else; it fails, creating nothing, exactly when no scope holds the name. */
  lemma {:induction false} AssignInnermost(scopes: seq<Scope>, name: string, value: LiteralValue, i: nat)
    requires i <= |scopes| && NotBefore(scopes, name, i)
    ensures i < |scopes| && name in scopes[i] ==> Assign(scopes, name, value) == Some(scopes[i := scopes[i][name := value]])
    ensures i == |scopes| ==> Assign(scopes, name, value) == None
  {
    if i > 0 {
      assert name !in scopes[0];
      AssignInnermost(scopes[1..], name, value, i - 1);
      if i < |scopes| && name in scopes[i] {
        assert [scopes[0]] + scopes[1..][i - 1 := scopes[i][name := value]] == scopes[i := scopes[i][name := value]];
      }
    }
  }

  /** `assign` never adds or removes a name: every scope keeps its set of names. */
  lemma {:induction false} AssignKeepsNames(scopes: seq<Scope>, name: string, value: LiteralValue)
    ensures var r := Assign(scopes, name, value);
      r.Some? ==> forall k :: 0 <= k < |scopes| ==> r.value[k].Keys == scopes[k].Keys
  {
    if scopes != [] && name !in scopes[0] {
      AssignKeepsNames(scopes[1..], name, value);
      var r := Assign(scopes, name, value);
      if r.Some? {
        forall k | 1 <= k < |scopes| ensures r.value[k].Keys == scopes[k].Keys {
          assert r.value[k] == Assign(scopes[1..], name, value).value[k - 1];
        }
      }
    }
  }

  /** After a successful `assign(n, v)`, `get(n)` yields v (or, for nil, throws that n is
      uninitialized). */
  lemma {:induction false} GetAfterAssign(scopes: seq<Scope>, name: Token, value: LiteralValue)
    requires Assign(scopes, name.lexeme, value).Some?
    ensures Lookup(Assign(scopes, name.lexeme, value).value, name) ==
      if value == Nil then Err(RuntimeError(name, UninitializedVariable(name.lexeme))) else Ok(value)
  {
    if name.lexeme !in scopes[0] {
      GetAfterAssign(scopes[1..], name, value);
      assert (Assign(scopes, name.lexeme, value).value)[1..] == Assign(scopes[1..], name.lexeme, value).value;
    }
  }
}
