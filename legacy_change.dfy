/** The change plugin of the older engine (`src/plugins/change.ts`). It writes one slot of the
    table's data array in place and asks the table to rebuild that body row; `onReset` hands the
    table back the array it stored at `configure`. */
module LegacyChange {
  import opened Wrappers
  import opened Values
  import opened Seqs
  import opened LegacyPluginBase
  import opened LegacyRows
  import opened LegacyTable

  class ChangePlugin {
    var table: BoringTable?
    var initialData: array<Value>

    /** A new plugin has no table and an empty `initialData`. */
    constructor ()
      ensures table == null && initialData.Length == 0
    {
      table := null;
      initialData := new Value[0];
    }

    /** `configure(table)`: keeps the table and the table's own data array, not a copy. */
    method Configure(t: BoringTable) returns (r: Bag)
      modifies this
      ensures table == t && initialData == t.data && r == map[]
    {
      table := t;
      initialData := t.data;
      r := map[];
    }

    /** `configure(table)` as evidently intended: the plugin keeps a copy of the data. */
    method ConfigureCopying(t: BoringTable) returns (r: Bag)
      modifies this
      ensures table == t && fresh(initialData) && initialData[..] == t.data[..] && r == map[]
    {
      table := t;
      initialData := Copy(t.data);
      r := map[];
    }

    /** `changeData(rowIndex, data)`: writes `data[rowIndex]` and dispatches `update:body-row`
        with `{ rowIndex }`; without a table it does nothing. */
    method ChangeData(rowIndex: nat, v: Value)
      modifies table, if table != null then {table.data} else {}
      requires table != null ==> table.Valid() && rowIndex < table.data.Length
      ensures table != null ==> table.data == old(table.data) && table.data[..] == old(table.data[..])[rowIndex := v]
      ensures table != null ==> table.Valid() && table.events == Append(old(table.events), UpdateBodyRow, RowIndexPayload(Num(rowIndex)))
      ensures table != null ==> table.hasScheduledUpdate && table.timerPending == (old(table.timerPending) || !old(table.hasScheduledUpdate))
      ensures table != null ==> table.Current() == old(table.Current()) && table.Schema() == old(table.Schema())
    {
      if table != null {
        table.data[rowIndex] := v;
        table.Dispatch(UpdateBodyRow, RowIndexPayload(Num(rowIndex)));
      }
    }

    /** `changeData` as evidently intended: the payload names the row by `position`, the key the
        table's row update reads. */
    method ChangeDataAt(rowIndex: nat, v: Value)
      modifies table, if table != null then {table.data} else {}
      requires table != null ==> table.Valid() && rowIndex < table.data.Length
      ensures table != null ==> table.data == old(table.data) && table.data[..] == old(table.data[..])[rowIndex := v]
      ensures table != null ==> table.Valid() && table.events == Append(old(table.events), UpdateBodyRow, PositionPayload(rowIndex))
      ensures table != null ==> table.hasScheduledUpdate && table.timerPending == (old(table.timerPending) || !old(table.hasScheduledUpdate))
      ensures table != null ==> table.Current() == old(table.Current()) && table.Schema() == old(table.Schema())
    {
      if table != null {
        table.data[rowIndex] := v;
        table.Dispatch(UpdateBodyRow, PositionPayload(rowIndex));
      }
    }

    /** The closure `change(row)` applied to `d`: the value written at the row's index is computed
        from the one stored there. */
    method Change(row: Row, d: Updater)
      modifies table, if table != null then {table.data} else {}
      requires table != null ==> table.Valid() && row.index < table.data.Length
      ensures table != null ==> table.data == old(table.data)
      ensures table != null ==> table.data[..] == old(table.data[..])[row.index := Unwrap(d, old(table.data[row.index]))]
      ensures table != null ==> table.Valid() && table.events == Append(old(table.events), UpdateBodyRow, RowIndexPayload(Num(row.index)))
    {
      var prev := if table != null then table.data[row.index] else Undefined;
      ChangeData(row.index, Unwrap(d, prev));
    }

    /** `onCreateBodyRow(row)`: the row gets its `change` closure. */
    method OnCreateBodyRow(row: Row) returns (extra: Bag)
      ensures extra.Keys == {"change"}
    {
      extra := map["change" := Opaque(0)];
    }

    /** `onReset()`: the table's data becomes the stored array, and `update:data` is dispatched. */
    method OnReset() returns (r: Bag)
      modifies table
      requires table != null ==> table.Valid()
      ensures table != null ==> table.data == initialData && table.Valid()
      ensures table != null ==> table.events == Append(old(table.events), UpdateData, Undefined)
      ensures table != null ==> table.Current() == old(table.Current())
      ensures r == map[]
    {
      if table != null {
        table.data := initialData;
        table.Dispatch(UpdateData, Undefined);
      }
      r := map[];
    }
  }

  /** `onUpdateBodyRow(row)`: a closure is installed again under `change`, for the row's own index;
      every other field of the row is kept. */
  function OnUpdateBodyRow(row: Row): (r: Row)
    ensures r.id == row.id && r.rawId == row.rawId && r.index == row.index && r.cells == row.cells
    ensures r.extra.Keys == row.extra.Keys + {"change"}
    ensures forall k :: k in row.extra && k != "change" ==> r.extra[k] == row.extra[k]
  {
    row.(extra := row.extra["change" := Opaque(0)])
  }

  /** As written, `configure` stores the table's own array, so a change is also a change of the
      stored data and the reset that follows keeps it. */
  method ResetKeepsChanges(columns: seq<Column>, getId: Value -> string, a: Value, x: Value)
    returns (afterReset: Value)
    ensures afterReset == x
  {
    var data := new Value[1](i => a);
    var t := new BoringTable(data, columns, [], getId);
    var c := new ChangePlugin();
    var _ := c.Configure(t);
    c.ChangeData(0, x);
    var _ := c.OnReset();
    afterReset := t.data[0];
  }

  /** With the copying `configure`, the reset restores the configured data. */
  method CopyingResetRestores(columns: seq<Column>, getId: Value -> string, a: Value, x: Value)
    returns (afterReset: Value)
    ensures afterReset == a
  {
    var data := new Value[1](i => a);
    var t := new BoringTable(data, columns, [], getId);
    var c := new ChangePlugin();
    var _ := c.ConfigureCopying(t);
    c.ChangeData(0, x);
    var _ := c.OnReset();
    afterReset := t.data[0];
  }

  /** A table over the one item `a`, without plugins, after the flush of its constructor's
      `update:all`: its body is built from `[a]` and nothing is queued. */
  method BuiltTable(columns: seq<Column>, getId: Value -> string, a: Value) returns (t: BoringTable)
    ensures fresh(t) && fresh(t.data) && t.Valid() && t.Schema() == Schema(columns, [], getId)
    ensures t.data[..] == [a] && t.body == CreateRows(t.Schema(), [a], None).body
    ensures t.events == map[] && !t.hasScheduledUpdate && !t.timerPending
  {
    var data := new Value[1](i => a);
    t := new BoringTable(data, columns, [], getId);
    assert t.data[..] == [a];
    ProcessUpdateAll(t.Schema(), t.data[..], t.events, t.Current());
    var _ := t.Flush();
  }

  /** As written, a change is never shown: the table finds no `position` in `{ rowIndex }`, so the
      flush after `changeData` leaves the body exactly as it was built from the old data. */
  method ChangeLeavesRowStale(columns: seq<Column>, getId: Value -> string, a: Value, x: Value)
    returns (built: seq<Row>, afterChange: seq<Row>, items: seq<Value>)
    ensures built == CreateRows(Schema(columns, [], getId), [a], None).body
    ensures afterChange == built && items == [x]
  {
    var t := BuiltTable(columns, getId, a);
    built := t.body;
    var c := new ChangePlugin();
    var _ := c.Configure(t);
    c.ChangeData(0, x);
    assert t.events == map[UpdateBodyRow := [RowIndexPayload(Num(0))]];
    assert t.data[..] == [x];
    ghost var cur := t.Current();
    assert cur.body == built;
    ProcessRowIndexPayloads(t.Schema(), t.data[..], cur, Body, Num(0));
    var _ := t.Flush();
    assert t.Current() == cur;
    afterChange, items := t.body, t.data[..];
  }

  /** With the `{ position }` payload, the flush rebuilds the changed row from the new data. */
  method PositionedChangeRebuildsRow(columns: seq<Column>, getId: Value -> string, a: Value, x: Value)
    returns (afterChange: seq<Row>)
    ensures afterChange == [Fresh(Schema(columns, [], getId), [x], Body, 0)]
  {
    var t := BuiltTable(columns, getId, a);
    var c := new ChangePlugin();
    var _ := c.Configure(t);
    c.ChangeDataAt(0, x);
    assert t.events == map[UpdateBodyRow := [PositionPayload(0)]];
    ghost var sc, items, cur := t.Schema(), t.data[..], t.Current();
    assert items == [x] && |cur.body| == 1;
    ProcessPositionPayload(sc, items, cur, Body, 0);
    ghost var want := Replaced(cur, Body, cur.body[0 := Fresh(sc, items, Body, 0)]);
    assert want.body == [Fresh(sc, [x], Body, 0)];
    var _ := t.Flush();
    assert t.Current() == want;
    afterChange := t.body;
  }
}
