/**
 * The keyed dispatcher `select(key, obj)` of build/main.js: a table of
 * branches looked up by key, an optional `default` branch that receives the
 * key, and a "Not implemented" failure when neither applies.
 *
 * A branch is a thunk in the source, and only the chosen one runs. The
 * table here holds the values the thunks produce; where a branch also has an
 * effect (a push onto the sandbox, an electron version query), the caller
 * models that effect itself.
 */
module Dispatch {
  import opened Wrappers

  datatype DispatchError = NotImplemented

  /** `select(key, {...table, default: fallback})` */
  function Select<V>(key: string, table: map<string, V>, fallback: Option<string -> V>): (r: Result<V, DispatchError>)
    ensures r.Err? <==> key !in table && fallback.None?
    ensures key in table ==> r == Ok(table[key])
    ensures key !in table && fallback.Some? ==> r == Ok(fallback.value(key))
  {
    if key in table then Ok(table[key])
    else if fallback.Some? then Ok(fallback.value(key))
    else Err(NotImplemented)
  }

  /** A table that has a branch for every key it is asked about never fails and never consults its default. */
  lemma TotalTableNeverFails<V>(keys: set<string>, table: map<string, V>, fallback: Option<string -> V>, key: string)
    requires keys <= table.Keys
    requires key in keys
    ensures Select(key, table, fallback) == Ok(table[key])
  {
  }

  /** With a default branch the dispatcher is total. */
  lemma DefaultMakesTotal<V>(key: string, table: map<string, V>, fallback: string -> V)
    ensures Select(key, table, Some(fallback)).Ok?
  {
  }
}
