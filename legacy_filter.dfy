/** The filter plugin of the older engine (`src/plugins/filter.ts`). It keeps a copy of the data
    from `configure` on, and `beforeCreate` hands the table either that copy or a new array of
    the items the user's predicate accepts for the current filter string. */
module LegacyFilter {
  import opened Wrappers
  import opened Values
  import opened Seqs
  import opened Strings
  import LegacyRows
  import opened LegacyTable

  /** The items `beforeCreate` passes on: every item without a filter string, otherwise those
      `userFilter(param, item)` accepts. */
  function Selected(items: seq<Value>, param: Option<string>, userFilter: (string, Value) -> bool): seq<Value> {
    if Selects(param) then Filter(items, item => userFilter(param.value, item)) else items
  }

  /** The selection keeps the initial order and holds an initial item exactly when the predicate
      accepts it; without a filter string it is the initial data. */
  lemma SelectedInOrder(items: seq<Value>, param: Option<string>, userFilter: (string, Value) -> bool, x: Value)
    ensures IsSubsequence(Selected(items, param, userFilter), items)
    ensures Selects(param) ==> (x in Selected(items, param, userFilter) <==> x in items && userFilter(param.value, x))
    ensures !Selects(param) ==> Selected(items, param, userFilter) == items
  {
    if Selects(param) {
      FilterIsSubsequence(items, item => userFilter(param.value, item));
      FilterMembership(items, item => userFilter(param.value, item), x);
    } else {
      SubsequenceOfItself(items);
    }
  }

  /** Selecting from the selection again gives it back. */
  lemma SelectedIdempotent(items: seq<Value>, param: Option<string>, userFilter: (string, Value) -> bool)
    ensures Selected(Selected(items, param, userFilter), param, userFilter) == Selected(items, param, userFilter)
  {
    if Selects(param) {
      FilterIdempotent(items, item => userFilter(param.value, item));
    }
  }

  class FilterPlugin {
    /** `priority = 1`. */
    const priority: int
    const userFilter: (string, Value) -> bool
    var table: BoringTable?
    var param: Option<string>
    var initialData: array<Value>
    var filteredData: array<Value>

    /** A new plugin keeps the predicate; it has no table, no filter string and no data yet. */
    constructor (filter: (string, Value) -> bool)
      ensures priority == 1 && userFilter == filter
      ensures table == null && param == None && initialData.Length == 0 && filteredData.Length == 0
    {
      priority := 1;
      userFilter := filter;
      table := null;
      param := None;
      initialData := new Value[0];
      filteredData := initialData;
    }

    /** `configure(table)`: keeps the table and a copy of its data. */
    method Configure(t: BoringTable) returns (r: Bag)
      modifies this
      ensures table == t && param == old(param) && filteredData == old(filteredData)
      ensures fresh(initialData) && initialData[..] == t.data[..]
      ensures r == map[]
    {
      table := t;
      initialData := Copy(t.data);
      r := map[];
    }

    /** `filter(value)`: stores the filter string and dispatches `update:data`. */
    method SetFilter(value: string)
      modifies this, table
      requires table != null && table.Valid()
      ensures param == Some(value) && table == old(table)
      ensures initialData == old(initialData) && filteredData == old(filteredData)
      ensures table.Valid() && table.events == Append(old(table.events), UpdateData, Undefined)
      ensures table.data == old(table.data) && table.Current() == old(table.Current())
    {
      param := Some(value);
      table.Dispatch(UpdateData, Undefined);
    }

    /** `beforeCreate()`: without a filter string both the table and `filteredData` get the
        initial data array itself; otherwise both get one new array of the accepted items. It
        always starts from the initial data, which it leaves as it is. */
    method BeforeCreate()
      modifies this, table
      requires table != null
      ensures table == old(table) && param == old(param) && initialData == old(initialData)
      ensures initialData[..] == old(initialData[..])
      ensures table.data == filteredData
      ensures filteredData[..] == Selected(initialData[..], param, userFilter)
      ensures !Selects(param) ==> filteredData == initialData
      ensures Selects(param) ==> fresh(filteredData)
      ensures table.events == old(table.events) && table.Current() == old(table.Current())
      ensures table.Schema() == old(table.Schema()) && table.Valid() == old(table.Valid())
      ensures table.hasScheduledUpdate == old(table.hasScheduledUpdate) && table.timerPending == old(table.timerPending)
    {
      if !Selects(param) {
        filteredData := initialData;
        table.data := initialData;
        return;
      }
      var kept := Selected(initialData[..], param, userFilter);
      filteredData := new Value[|kept|](i requires 0 <= i < |kept| => kept[i]);
      assert filteredData[..] == kept;
      table.data := filteredData;
    }

    /** `extend()`: the `filter` setter. */
    method Extend() returns (r: Bag)
      ensures r.Keys == {"filter"} && r["filter"].Opaque?
    {
      r := map["filter" := Opaque(0)];
    }
  }

  /** With a fixed filter string, running `beforeCreate` twice gives the table the same items as
      running it once, namely the accepted items of the data the table started with. */
  method BeforeCreateTwice(items: seq<Value>, columns: seq<LegacyRows.Column>, getId: Value -> string,
                           filter: (string, Value) -> bool, value: string)
    returns (once: seq<Value>, twice: seq<Value>)
    ensures once == Selected(items, Some(value), filter) && twice == once
  {
    var data := new Value[|items|](i requires 0 <= i < |items| => items[i]);
    assert data[..] == items;
    var t := new BoringTable(data, columns, [], getId);
    var f := new FilterPlugin(filter);
    var _ := f.Configure(t);
    f.SetFilter(value);
    f.BeforeCreate();
    once := t.data[..];
    f.BeforeCreate();
    twice := t.data[..];
  }
}
