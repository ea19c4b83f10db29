/** The plugins defined next to the prototype table in `src/index.ts`: the name filter, the
    hidden and check flags keyed by `rawId`, and the in-place data change. Each holds the table
    it was configured with. What a hook returns is a bag; the closures it returns are opaque. */
module PrototypePlugins {
  import opened Wrappers
  import opened Values
  import opened Seqs
  import opened Strings
  import opened LegacyPluginBase
  import opened Toggles
  import opened PrototypeRows
  import opened PrototypeTable
  import LegacyRows

  /** `item.name.includes(param)` for an item whose `name` is a string. */
  predicate NameIncludes(item: Value, param: string) {
    item.Obj? && "name" in item.fields && item.fields["name"].Str? && Includes(item.fields["name"].s, param)
  }

  /** The data `beforeCreate` gives the table: all of the initial data without a filter
      string, else the items whose name includes it. */
  function Filtered(items: seq<Value>, param: Option<string>): seq<Value> {
    if Selects(param) then Filter(items, item => NameIncludes(item, param.value)) else items
  }

  /** The filtered data keeps the initial order, and holds an initial item exactly when its
      name includes the filter string. */
  lemma FilteredSelectsInOrder(items: seq<Value>, param: Option<string>, x: Value)
    ensures IsSubsequence(Filtered(items, param), items)
    ensures Selects(param) ==> (x in Filtered(items, param) <==> x in items && NameIncludes(x, param.value))
    ensures !Selects(param) ==> Filtered(items, param) == items
  {
    if Selects(param) {
      FilterIsSubsequence(items, item => NameIncludes(item, param.value));
      FilterMembership(items, item => NameIncludes(item, param.value), x);
    } else {
      SubsequenceOfItself(items);
    }
  }

  /** Filtering the filtered data again yields it unchanged. */
  lemma FilteredIdempotent(items: seq<Value>, param: Option<string>)
    ensures Filtered(Filtered(items, param), param) == Filtered(items, param)
  {
    if Selects(param) {
      FilterIdempotent(items, item => NameIncludes(item, param.value));
    }
  }

  class FilterPlugin {
    var table: Table?
    var param: Option<string>
    var initialData: array?<Value>

    constructor ()
      ensures table == null && param == None && initialData == null
    {
      table := null;
      param := None;
      initialData := null;
    }

    /** `configure(table)`: keeps the table and a copy of its data. */
    method Configure(t: Table) returns (r: Bag)
      modifies this
      ensures table == t && param == old(param)
      ensures initialData != null && fresh(initialData) && initialData[..] == t.data[..]
      ensures r == map[]
    {
      table := t;
      initialData := Copy(t.data);
      r := map[];
    }

    /** `filter(value)`: stores the filter string and dispatches the three row events. */
    method SetFilter(value: string)
      modifies this, table
      requires table != null && table.Valid()
      ensures param == Some(value) && table == old(table) && initialData == old(initialData)
      ensures table.Valid() && table.events == WithRowEvents(old(table.events)) && table.hasScheduledUpdate
      ensures table.data == old(table.data) && table.Current() == old(table.Current())
    {
      param := Some(value);
      table.Dispatch(RowEventName(Head), Undefined);
      table.Dispatch(RowEventName(Body), Undefined);
      table.Dispatch(RowEventName(Footer), Undefined);
    }

    /** `beforeCreate()`: without a filter string the table gets the initial data array itself,
        otherwise a new array of the matching items. Either way it starts from the initial
        data, so running it again with the same string gives the same data. */
    method BeforeCreate()
      modifies table
      requires table != null && initialData != null
      ensures table.data[..] == Filtered(initialData[..], param)
      ensures !Selects(param) ==> table.data == initialData
      ensures Selects(param) ==> fresh(table.data)
      ensures initialData[..] == old(initialData[..])
      ensures table.events == old(table.events) && table.Current() == old(table.Current())
      ensures table.hasScheduledUpdate == old(table.hasScheduledUpdate) && table.timerPending == old(table.timerPending)
      ensures table.Schema() == old(table.Schema())
    {
      if !Selects(param) {
        table.data := initialData;
        return;
      }
      var kept := Filtered(initialData[..], param);
      table.data := new Value[|kept|](i requires 0 <= i < |kept| => kept[i]);
      assert table.data[..] == kept;
    }
  }

  class HiddenPlugin {
    var table: Table?
    var values: map<string, bool>

    constructor ()
      ensures table == null && values == map[]
    {
      table := null;
      values := map[];
    }

    method Configure(t: Table) returns (r: Bag)
      modifies this
      ensures table == t && values == old(values) && r == map[]
    {
      table := t;
      r := map[];
    }

    /** `toggle(id, value)`: sets or negates the flag of `id`; negating a missing entry throws. */
    method Toggle(id: string, value: Option<bool>) returns (thrown: bool)
      modifies this
      ensures var r := Toggles.Toggle(old(values), id, value, Unguarded);
              thrown == r.None? && values == (if r.Some? then r.value else old(values))
      ensures table == old(table)
    {
      var r := Toggles.Toggle(values, id, value, Unguarded);
      thrown := r.None?;
      if r.Some? {
        values := r.value;
      }
    }

    /** `onCreate{Head,Body,Footer}Row(row)`: an unseen `rawId` starts visible, the stored flag is
        returned, and the section's row event is dispatched. */
    method OnCreateRow(s: Section, row: Row) returns (extra: Bag)
      modifies this, table
      requires table != null && table.Valid()
      ensures values == Ensure(old(values), row.rawId) && table == old(table)
      ensures extra == map["hidden" := Bool(values[row.rawId]), "toggleHidden" := Opaque(0)]
      ensures table.Valid() && table.events == old(table.events)[RowEventName(s) := Undefined]
      ensures table.data == old(table.data) && table.Current() == old(table.Current())
    {
      values := Ensure(values, row.rawId);
      table.Dispatch(RowEventName(s), Undefined);
      extra := map["hidden" := Bool(values[row.rawId]), "toggleHidden" := Opaque(0)];
    }
  }

  /** The key a check flag is stored under: body cells get their own `cell-<rawId>` entry,
      the other cells share the entry of their row. */
  function CellKey(s: Section, rawId: string): string {
    if s == Body then "cell-" + rawId else rawId
  }

  function CellEventName(s: Section): string {
    match s
    case Head => "update:head-cell"
    case Body => "update:body-cell"
    case Footer => "update:footer-cell"
  }

  class CheckPlugin {
    var table: Table?
    var values: map<string, bool>

    constructor ()
      ensures table == null && values == map[]
    {
      table := null;
      values := map[];
    }

    method Configure(t: Table) returns (r: Bag)
      modifies this
      ensures table == t && values == old(values) && r == map[]
    {
      table := t;
      r := map[];
    }

    /** `toggle(id, value)`: with a value it stores it and returns without dispatching; without
        one it negates the stored flag (a missing entry throws) and dispatches the row events. */
    method Toggle(id: string, value: Option<bool>) returns (thrown: bool)
      modifies this, table
      requires table != null && table.Valid()
      ensures var r := Toggles.Toggle(old(values), id, value, Unguarded);
              thrown == r.None? && values == (if r.Some? then r.value else old(values))
      ensures table == old(table) && table.Valid()
      ensures table.events == (if value.None? && !thrown then WithRowEvents(old(table.events)) else old(table.events))
      ensures table.data == old(table.data) && table.Current() == old(table.Current())
    {
      var r := Toggles.Toggle(values, id, value, Unguarded);
      thrown := r.None?;
      if thrown {
        return;
      }
      values := r.value;
      if value.Some? {
        return;
      }
      table.Dispatch(RowEventName(Head), Undefined);
      table.Dispatch(RowEventName(Body), Undefined);
      table.Dispatch(RowEventName(Footer), Undefined);
    }

    /** `onCreate{Head,Body,Footer}Row(row)`. */
    method OnCreateRow(s: Section, row: Row) returns (extra: Bag)
      modifies this, table
      requires table != null && table.Valid()
      ensures values == Ensure(old(values), row.rawId) && table == old(table)
      ensures extra == map["check" := Bool(values[row.rawId]), "toggleCheck" := Opaque(0)]
      ensures table.Valid() && table.events == old(table.events)[RowEventName(s) := Undefined]
      ensures table.data == old(table.data) && table.Current() == old(table.Current())
    {
      values := Ensure(values, row.rawId);
      table.Dispatch(RowEventName(s), Undefined);
      extra := map["check" := Bool(values[row.rawId]), "toggleCheck" := Opaque(0)];
    }

    /** `onCreate{Head,Body,Footer}Cell(cell)`. */
    method OnCreateCell(s: Section, cell: Cell) returns (extra: Bag)
      modifies this, table
      requires table != null && table.Valid()
      ensures values == Ensure(old(values), CellKey(s, cell.rawId)) && table == old(table)
      ensures extra == map["check" := Bool(values[CellKey(s, cell.rawId)]), "toggleCheck" := Opaque(0)]
      ensures table.Valid() && table.events == old(table.events)[CellEventName(s) := Undefined]
      ensures table.data == old(table.data) && table.Current() == old(table.Current())
    {
      var key := CellKey(s, cell.rawId);
      values := Ensure(values, key);
      table.Dispatch(CellEventName(s), Undefined);
      extra := map["check" := Bool(values[key]), "toggleCheck" := Opaque(0)];
    }

    /** `onReset()`: forgets every flag and dispatches the row events. */
    method OnReset() returns (r: Bag)
      modifies this, table
      requires table != null && table.Valid()
      ensures values == map[] && table == old(table) && r == map[]
      ensures table.Valid() && table.events == WithRowEvents(old(table.events))
      ensures table.data == old(table.data) && table.Current() == old(table.Current())
    {
      values := map[];
      table.Dispatch(RowEventName(Head), Undefined);
      table.Dispatch(RowEventName(Body), Undefined);
      table.Dispatch(RowEventName(Footer), Undefined);
      r := map[];
    }
  }

  class ChangePlugin {
    var table: Table?
    var initialData: array?<Value>

    constructor ()
      ensures table == null && initialData == null
    {
      table := null;
      initialData := null;
    }

    /** `configure(table)`: keeps the table and a copy of its data. */
    method Configure(t: Table) returns (r: Bag)
      modifies this
      ensures table == t && initialData != null && fresh(initialData) && initialData[..] == t.data[..]
      ensures r == map[]
    {
      table := t;
      initialData := Copy(t.data);
      r := map[];
    }

    /** `changeData(position, data)`: writes one slot of the table's data array in place and
        dispatches the row events. */
    method ChangeData(position: nat, v: Value)
      modifies table, table.data
      requires table != null && table.Valid() && position < table.data.Length
      ensures table.data == old(table.data) && table.data[..] == old(table.data[..])[position := v]
      ensures table.Valid() && table.events == WithRowEvents(old(table.events))
      ensures table.Current() == old(table.Current()) && table.Schema() == old(table.Schema())
    {
      table.data[position] := v;
      table.Dispatch(RowEventName(Head), Undefined);
      table.Dispatch(RowEventName(Body), Undefined);
      table.Dispatch(RowEventName(Footer), Undefined);
    }

    /** The closure `change(row)` applied to `d`: the new value is computed from the one at the
        row's position. */
    method Change(row: Row, d: Updater)
      modifies table, table.data
      requires table != null && table.Valid() && row.index < table.data.Length
      ensures table.data == old(table.data)
      ensures table.data[..] == old(table.data[..])[row.index := Unwrap(d, old(table.data[row.index]))]
      ensures table.Valid() && table.events == WithRowEvents(old(table.events))
    {
      ChangeData(row.index, Unwrap(d, table.data[row.index]));
    }

    method OnCreateBodyRow(row: Row) returns (extra: Bag)
      ensures extra == map["change" := Opaque(0)]
    {
      extra := map["change" := Opaque(0)];
    }

    /** `onReset()`: the table's data becomes the stored array itself, not a copy of it. */
    method OnReset() returns (r: Bag)
      modifies table
      requires table != null && table.Valid() && initialData != null
      ensures table.data == initialData && r == map[]
      ensures table.Valid() && table.events == WithRowEvents(old(table.events))
      ensures table.Current() == old(table.Current())
    {
      table.data := initialData;
      table.Dispatch(RowEventName(Head), Undefined);
      table.Dispatch(RowEventName(Body), Undefined);
      table.Dispatch(RowEventName(Footer), Undefined);
      r := map[];
    }

    /** `onReset()` as evidently intended: the table gets a fresh copy of the stored data. */
    method OnResetCopying() returns (r: Bag)
      modifies table
      requires table != null && table.Valid() && initialData != null
      ensures fresh(table.data) && table.data[..] == initialData[..] && r == map[]
      ensures table.Valid() && table.events == WithRowEvents(old(table.events))
      ensures table.Current() == old(table.Current())
    {
      table.data := Copy(initialData);
      table.Dispatch(RowEventName(Head), Undefined);
      table.Dispatch(RowEventName(Body), Undefined);
      table.Dispatch(RowEventName(Footer), Undefined);
      r := map[];
    }
  }

  /** As written, only the first reset restores the data: it hands the table the stored array,
      so a later change writes into the stored array and the next reset keeps that change. */
  method ResetRestoresOnlyOnce(columns: seq<LegacyRows.Column>, getId: Value -> string, a: Value, x: Value, y: Value)
    returns (afterFirstReset: Value, afterSecondReset: Value)
    ensures afterFirstReset == a
    ensures afterSecondReset == y
  {
    var data := new Value[1](i => a);
    var t := new Table(data, columns, [], getId);
    var c := new ChangePlugin();
    var _ := c.Configure(t);
    c.ChangeData(0, x);
    var _ := c.OnReset();
    afterFirstReset := t.data[0];
    c.ChangeData(0, y);
    var _ := c.OnReset();
    afterSecondReset := t.data[0];
  }

  /** `reset()` with the change plugin after a change: its `onReset` hands the table the stored
      array and queues the three row events, so `process()` rebuilds every section from the
      configured data and the reset schedules a flush. */
  method ResetAfterChangeRebuildsFromInitial(columns: seq<LegacyRows.Column>, getId: Value -> string, a: Value, x: Value)
    returns (sections: Sections, scheduled: bool)
    ensures sections == CreateRows(LegacyRows.Schema(columns, [], getId), [a])
    ensures scheduled
  {
    var data := new Value[1](i => a);
    var t := new Table(data, columns, [], getId);
    var c := new ChangePlugin();
    var _ := c.Configure(t);
    c.ChangeData(0, x);
    var stored := c.initialData;
    assert stored[..] == [a];
    assert t.Schema() == LegacyRows.Schema(columns, [], getId);
    t.Reset([(RowEventName(Head), Undefined), (RowEventName(Body), Undefined), (RowEventName(Footer), Undefined)], stored, []);
    sections, scheduled := t.Current(), t.hasScheduledUpdate;
  }

  /** With the copying reset, every reset restores the configured data. */
  method CopyingResetAlwaysRestores(columns: seq<LegacyRows.Column>, getId: Value -> string, a: Value, x: Value, y: Value)
    returns (afterFirstReset: Value, afterSecondReset: Value)
    ensures afterFirstReset == a && afterSecondReset == a
  {
    var data := new Value[1](i => a);
    var t := new Table(data, columns, [], getId);
    var c := new ChangePlugin();
    var _ := c.Configure(t);
    c.ChangeData(0, x);
    var _ := c.OnResetCopying();
    afterFirstReset := t.data[0];
    c.ChangeData(0, y);
    var _ := c.OnResetCopying();
    afterSecondReset := t.data[0];
  }
}
