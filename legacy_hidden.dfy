/** The hidden-row plugin of the older engine (`src/plugins/hidden.ts`). One flag per `rawId`,
    shared by the three sections; the toggle a row hook hands out negates or sets that flag and
    asks the table to rebuild the row at its position. */
module LegacyHidden {
  import opened Wrappers
  import opened Values
  import opened LegacyPluginBase
  import opened Toggles
  import opened LegacyRows
  import opened LegacyTable

  class HiddenRowPlugin {
    var table: BoringTable?
    var values: map<string, bool>

    constructor ()
      ensures table == null && values == map[]
    {
      table := null;
      values := map[];
    }

    /** `configure(table)`: keeps the table and contributes nothing. */
    method Configure(t: BoringTable) returns (r: Bag)
      modifies this
      ensures table == t && values == old(values) && r == map[]
    {
      table := t;
      r := map[];
    }

    /** `toggle(id, value)`: stores the value, or negates the stored flag; negating an id that
        has no entry reads `undefined.hidden` and throws. */
    method Toggle(id: string, value: Option<bool>) returns (thrown: bool)
      modifies this
      ensures var r := Toggles.Toggle(old(values), id, value, Unguarded);
              thrown == r.None? && values == (if r.Some? then r.value else old(values))
      ensures table == old(table)
    {
      var r := Toggles.Toggle(values, id, value, Unguarded);
      thrown := r.None?;
      if r.Some? {
        values := r.value;
      }
    }

    /** `toggleHead`/`toggleBody`/`toggleFooter(position, id, value)`: the toggle, then the
        section's row event with `{ position }`; a toggle that throws dispatches nothing. */
    method ToggleSection(s: Section, position: nat, id: string, value: Option<bool>) returns (thrown: bool)
      modifies this, table
      requires table != null && table.Valid()
      ensures var r := Toggles.Toggle(old(values), id, value, Unguarded);
              thrown == r.None? && values == (if r.Some? then r.value else old(values))
      ensures table == old(table) && table.Valid()
      ensures table.events == if thrown then old(table.events)
                              else Append(old(table.events), SectionRowEvent(s), PositionPayload(position))
      ensures table.data == old(table.data) && table.Current() == old(table.Current())
    {
      thrown := Toggle(id, value);
      if thrown {
        return;
      }
      table.Dispatch(SectionRowEvent(s), PositionPayload(position));
    }

    /** `onCreate{Head,Body,Footer}Row(row)`: an unseen `rawId` starts visible, a stored flag is
        kept, and the row gets the flag and its toggle. */
    method OnCreateRow(s: Section, row: Row) returns (extra: Bag)
      modifies this
      ensures values == Ensure(old(values), row.rawId) && table == old(table)
      ensures extra == map["hidden" := Bool(values[row.rawId]), "toggleHidden" := Opaque(0)]
    {
      values := Ensure(values, row.rawId);
      extra := map["hidden" := Bool(values[row.rawId]), "toggleHidden" := Opaque(0)];
    }
  }

  /** The sections share one flag per `rawId`: hiding a body row hides the head row of the same
      item the next time that head row is built. */
  method SectionsShareOneFlag(data: array<Value>, columns: seq<Column>, getId: Value -> string, row: Row)
    returns (thrown: bool, headHidden: Value)
    ensures !thrown && headHidden == Bool(true)
  {
    var t := new BoringTable(data, columns, [], getId);
    var h := new HiddenRowPlugin();
    var _ := h.Configure(t);
    var _ := h.OnCreateRow(Body, row);
    thrown := h.ToggleSection(Body, row.index, row.rawId, None);
    var extra := h.OnCreateRow(Head, row);
    headHidden := extra["hidden"];
  }
}
