/** The hidden-row plugin of the package (`packages/boring-table-core/src/plugins/hidden.ts`).
    One `hidden` flag per row id, shared by the head, body and footer sections; each row gets the
    flag as it stood when the row was created and a `toggleHidden(value?)` closure that updates
    the flag and asks the table to rebuild that one row. */
module PackageHidden {
  import opened Wrappers
  import opened Values
  import opened Toggles
  import opened PackageHost

  /** The keys a creation hook adds to its row. */
  const RowKeys: set<string> := {"hidden", "toggleHidden"}

  class HiddenRowPlugin {
    /** `values`: the `hidden` flag of every id seen so far. */
    var values: map<string, bool>
    var table: Table?

    constructor ()
      ensures values == map[] && table == null
    {
      values := map[];
      table := null;
    }

    /** `configure(table)`: keeps the table and contributes nothing. */
    method Configure(t: Table) returns (r: Bag)
      modifies this`table
      ensures table == t && r == map[]
    {
      table := t;
      r := map[];
    }

    /** `toggleHead`, `toggleBody`, `toggleFooter(rowIndex, id, value?)`: the flag of `id` becomes
        `value` when one is given and is negated otherwise (a missing flag reads as `undefined`, so
        it becomes `true`); then, when there is a table, the section's row event with `{ rowIndex }`. */
    method ToggleSection(s: Section, rowIndex: int, id: string, value: Option<bool>)
      modifies this`values, if table != null then {table.log} else {}
      ensures Toggle(old(values), id, value, Optional).Some?
      ensures values == Toggle(old(values), id, value, Optional).value
      ensures table != null ==> table.log.entries == old(table.log.entries) + [(RowUpdate(s), RowIndex(rowIndex))]
    {
      values := Toggle(values, id, value, Optional).value;
      if table != null {
        table.Dispatch(RowUpdate(s), RowIndex(rowIndex));
      }
    }

    /** `onCreateHeadRow`, `onCreateBodyRow`, `onCreateFooterRow(row)`: a new id starts shown, a
        known id keeps its flag; the row gets the flag and its section's closure. */
    method OnCreateRow(s: Section, row: RowObject) returns (extra: Bag)
      modifies this`values
      ensures values == Ensure(old(values), row.rawId)
      ensures extra.Keys == RowKeys && extra["toggleHidden"].Opaque?
      ensures extra["hidden"] == Bool(values[row.rawId])
      ensures row.rawId in old(values) ==> extra["hidden"] == Bool(old(values)[row.rawId])
      ensures row.rawId !in old(values) ==> extra["hidden"] == Bool(false)
    {
      values := Ensure(values, row.rawId);
      extra := map["hidden" := Bool(values[row.rawId]), "toggleHidden" := Opaque(0)];
    }
  }

  /** The flag a row shows when it is created after a toggle of its id, in any section: the
      given value, or the negation of the flag before it, a missing one counting as shown. */
  lemma ShownAfterToggle(values: map<string, bool>, id: string, value: Option<bool>)
    ensures Toggle(values, id, value, Optional).Some?
    ensures var m := Ensure(Toggle(values, id, value, Optional).value, id);
            m[id] == (if value.Some? then value.value else !(id in values && values[id]))
  {
  }

  /** A row created twice shows the same flag, and a toggle without a value shows the opposite
      one until the next toggle. */
  lemma ToggleFlipsShownFlag(values: map<string, bool>, id: string)
    ensures var before := Ensure(values, id);
            var after := Ensure(Toggle(before, id, None, Optional).value, id);
            Ensure(before, id) == before && after[id] == !before[id] &&
            Ensure(Toggle(after, id, None, Optional).value, id) == before
  {
    var before := Ensure(values, id);
    ToggleTwiceRestores(before, id, Optional);
  }
}
