/** The per-id flag maps of the hidden-row and check plugins: `values: Map<string, { hidden }>`
    updated by `toggle(id, value?)` and filled in by the creation hooks. The map holds one
    boolean per id, since the stored object has no other field. */
module Toggles {
  import opened Wrappers

  /** How `toggle(id)` without a value reads the stored flag: `!storedValue.hidden` throws on a
      missing entry, `!storedValue?.hidden` reads `undefined` and stores `true`. */
  datatype Read = Unguarded | Optional

  /** `toggle(id, value)`: the new map, or `None` when it throws. */
  function Toggle(values: map<string, bool>, id: string, value: Option<bool>, read: Read): (r: Option<map<string, bool>>)
    ensures r.None? <==> value.None? && id !in values && read.Unguarded?
  {
    if value.Some? then Some(values[id := value.value])
    else if id in values then Some(values[id := !values[id]])
    else if read.Optional? then Some(values[id := true])
    else None
  }

  /** With a value, `toggle` stores exactly that value, so repeating it changes nothing more. */
  lemma ToggleWithValue(values: map<string, bool>, id: string, v: bool, read: Read)
    ensures Toggle(values, id, Some(v), read).Some?
    ensures var m := Toggle(values, id, Some(v), read).value;
            id in m && m[id] == v && Toggle(m, id, Some(v), read) == Some(m)
  {
    var m := Toggle(values, id, Some(v), read).value;
    assert m[id := v] == m;
  }

  /** Without a value, `toggle` negates a stored flag, and toggling twice restores the map. */
  lemma ToggleTwiceRestores(values: map<string, bool>, id: string, read: Read)
    requires id in values
    ensures Toggle(values, id, None, read).Some?
    ensures var m := Toggle(values, id, None, read).value;
            m[id] == !values[id] && Toggle(m, id, None, read) == Some(values)
  {
    var m := Toggle(values, id, None, read).value;
    assert m[id := !m[id]] == values;
  }

  /** Without a value, a missing entry makes `!storedValue.hidden` throw and makes
      `!storedValue?.hidden` store `true`. */
  lemma ToggleMissing(values: map<string, bool>, id: string)
    requires id !in values
    ensures Toggle(values, id, None, Unguarded) == None
    ensures Toggle(values, id, None, Optional) == Some(values[id := true])
  {
  }

  /** `toggle` touches only the entry of `id`. */
  lemma ToggleOnlyChangesId(values: map<string, bool>, id: string, value: Option<bool>, read: Read, other: string)
    requires other != id && Toggle(values, id, value, read).Some?
    ensures var m := Toggle(values, id, value, read).value;
            m.Keys == values.Keys + {id} && (other in values ==> m[other] == values[other])
  {
  }

  /** `if (!values.has(id)) values.set(id, { hidden: false })`: the map after a creation hook. */
  function Ensure(values: map<string, bool>, id: string): (r: map<string, bool>)
    ensures id in r && r.Keys == values.Keys + {id}
    ensures id !in values ==> r[id] == false
    ensures forall k :: k in values ==> r[k] == values[k]
  {
    if id in values then values else values[id := false]
  }

  /** A creation hook never overwrites a stored flag, and running it again changes nothing. */
  lemma EnsureIdempotent(values: map<string, bool>, id: string)
    ensures Ensure(Ensure(values, id), id) == Ensure(values, id)
    ensures id in values ==> Ensure(values, id) == values
  {
  }
}
