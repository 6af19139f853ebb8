// Name tables of the shell (src/variables.rs, src/macros.rs): hash maps
// from a name to a value, written by insertion and read by lookup. A
// HashMap is modelled as a Dafny `map` field that the methods reassign.

/** Lookup in a name table, shared by every table below. */
module Lookups {
  import opened Options

  /** `HashMap::get`: the value stored under `name`, if any. */
  function Lookup<V>(m: map<string, V>, name: string): (r: Option<V>)
    ensures r.Some? <==> name in m
    ensures r.Some? ==> r.value == m[name]
  {
    if name in m then Some(m[name]) else None
  }

  /** After an insertion the name answers the new value, whatever it held
      before, and every other name answers as before. */
  lemma LookupAfterInsert<V>(m: map<string, V>, name: string, value: V, other: string)
    ensures Lookup(m[name := value], name) == Some(value)
    ensures other != name ==> Lookup(m[name := value], other) == Lookup(m, other)
  {
  }

  lemma LookupEmpty<V>(name: string)
    ensures Lookup<V>(map[], name).None?
  {
  }
}

module Variables {
  import opened Options
  import opened Lookups

  /** A value a shell variable can hold. */
  datatype SymbolicValue =
    | SymbolValue(token: string, pattern: string)
    | PatternValue(pattern: string)
    | TokenValue(token: string)

  class VariableTable {
    var table: map<string, SymbolicValue>

    /** `VariableTable::new`: no name is bound. */
    constructor ()
      ensures table == map[]
      ensures forall name :: Lookup(table, name).None?
    {
      table := map[];
    }

    /** `set`: binds `name` to `value`, replacing any earlier binding; every
        other name keeps its binding. */
    method Set(name: string, value: SymbolicValue)
      modifies this
      ensures table == old(table)[name := value]
      ensures Lookup(table, name) == Some(value)
      ensures forall other :: other != name ==> Lookup(table, other) == Lookup(old(table), other)
    {
      table := table[name := value];
    }

    /** `get`: the value bound to `name`, if any. */
    method Get(name: string) returns (r: Option<SymbolicValue>)
      ensures r.Some? <==> name in table
      ensures r.Some? ==> r.value == table[name]
    {
      if name in table {
        r := Some(table[name]);
      } else {
        r := None;
      }
    }
  }
}

module Macros {
  import opened Options
  import opened Lookups

  /** A named macro: its parameter names and its body text. */
  datatype Macro = Macro(params: seq<string>, body: string)

  class MacroTable {
    var table: map<string, Macro>

    /** `MacroTable::new`: no macro is defined. */
    constructor ()
      ensures table == map[]
      ensures forall name :: Lookup(table, name).None?
    {
      table := map[];
    }

    /** `define`: stores a macro under `name`, replacing any earlier one;
        every other name keeps its macro. */
    method Define(name: string, params: seq<string>, body: string)
      modifies this
      ensures table == old(table)[name := Macro(params, body)]
      ensures Lookup(table, name) == Some(Macro(params, body))
      ensures forall other :: other != name ==> Lookup(table, other) == Lookup(old(table), other)
    {
      table := table[name := Macro(params, body)];
    }

    /** `get`: the macro defined under `name`, if any. */
    method Get(name: string) returns (r: Option<Macro>)
      ensures r.Some? <==> name in table
      ensures r.Some? ==> r.value == table[name]
    {
      if name in table {
        r := Some(table[name]);
      } else {
        r := None;
      }
    }
  }
}
