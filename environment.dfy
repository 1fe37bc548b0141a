/** The Environment class (Environment.swift): a scope's own dictionary, updated in
    place, and the fixed link to the scope that encloses it. `get` and `assign`
    recurse outwards along the chain. */
module Environments {
  import opened Wrappers
  import opened Tokens
  import opened Errors
  import opened Values
  import opened Bindings

  class Environment {
    const enclosing: Environment?
    var values: Scope
    /** The length of the chain above this scope; it shows the chain is finite. */
    ghost const depth: nat

    /** The chain is acyclic: each enclosing scope is strictly shallower. */
    ghost predicate Valid()
      decreases depth
    {
      enclosing != null ==> enclosing.depth < depth && enclosing.Valid()
    }

    /** The scopes of the chain, this one first. */
    ghost function Chain(): set<Environment>
      requires Valid()
      decreases depth
    {
      if enclosing == null then {this} else {this} + enclosing.Chain()
    }

    /** The dictionaries of the chain, from this scope outwards. */
    ghost function Scopes(): (s: seq<Scope>)
      requires Valid()
      reads Chain()
      ensures |s| > 0 && s[0] == values
      decreases depth
    {
      [values] + if enclosing == null then [] else enclosing.Scopes()
    }

    /** `init()`: a global scope with no variables. */
    constructor ()
      ensures Valid() && enclosing == null && Scopes() == [map[]]
    {
      enclosing := null;
      values := map[];
      depth := 0;
    }

    /** `init(enclosing:)`: an empty scope inside another. */
    constructor Nested(enclosing: Environment)
      requires enclosing.Valid()
      ensures Valid() && this.enclosing == enclosing && Scopes() == [map[]] + enclosing.Scopes()
    {
      this.enclosing := enclosing;
      values := map[];
      depth := enclosing.depth + 1;
    }

    /** Every scope of the chain is at most as deep as this one. */
    lemma ChainIsShallower()
      requires Valid()
      ensures forall e :: e in Chain() ==> e.depth <= depth
      decreases depth
    {
      if enclosing != null {
        enclosing.ChainIsShallower();
      }
    }

    /** `define(name:value:)`: bound in this scope only. */
    method Define(name: string, value: LiteralValue)
      requires Valid()
      modifies this
      ensures values == old(values)[name := value]
      ensures Scopes() == Bindings.Define(old(Scopes()), name, value)
    {
      values := values[name := value];
      if enclosing != null {
        enclosing.ChainIsShallower();
      }
    }

    /** `get(name:)`. */
    method Get(name: Token) returns (r: Result<LiteralValue, SloxError>)
      requires Valid()
      ensures r == Lookup(Scopes(), name)
      decreases depth
    {
      if name.lexeme in values {
        var value := values[name.lexeme];
        if value == Nil {
          return Err(RuntimeError(name, UninitializedVariable(name.lexeme)));
        }
        return Ok(value);
      }
      if enclosing != null {
        r := enclosing.Get(name);
        return;
      }
      return Err(RuntimeError(name, UndefinedVariable(name.lexeme)));
    }

    /** `assign(name:value:)`: the innermost scope holding the name is updated; when
        none does, the error is thrown and nothing changes. */
    method Assign(name: Token, value: LiteralValue) returns (r: Result<(), SloxError>)
      requires Valid()
      modifies Chain()
      ensures var after := Bindings.Assign(old(Scopes()), name.lexeme, value);
        (after.Some? ==> r.Ok? && Scopes() == after.value) &&
        (after.None? ==> r == Err(RuntimeError(name, UndefinedAssignTarget(name.lexeme))) && Scopes() == old(Scopes()))
      decreases depth
    {
      ghost var scopes := Scopes();
      if name.lexeme in values {
        values := values[name.lexeme := value];
        if enclosing != null {
          enclosing.ChainIsShallower();
        }
        assert Scopes() == scopes[0 := values];
        return Ok(());
      }
      if enclosing != null {
        enclosing.ChainIsShallower();
        r := enclosing.Assign(name, value);
        assert Scopes() == [values] + enclosing.Scopes();
        return;
      }
      return Err(RuntimeError(name, UndefinedAssignTarget(name.lexeme)));
    }
  }
}
