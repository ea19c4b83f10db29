/** The filter plugin of the package (`packages/boring-table-core/src/plugins/filter.ts`). It
    keeps the current criteria, re-announces the custom body whenever the criteria or the body
    rows change, and cuts the custom body down to the rows the user's predicate accepts. */
module PackageFilter {
  import opened Wrappers
  import opened Values
  import opened Seqs
  import opened Events
  import PluginBase
  import opened PackageHost

  /** `table.data[i]`: the item, or `undefined` past the end. */
  function ItemAt(data: seq<Value>, i: nat): Value {
    if i < |data| then data[i] else Undefined
  }

  /** The user's `filter(item, criteria, row)`. */
  type FilterFn = (Value, Value, RowObject) -> bool

  /** `rows.filter((row) => filterFn(data[row.index], criteria, row))`. */
  function Kept(rows: seq<RowObject>, data: seq<Value>, criteria: Value, fn: FilterFn): seq<RowObject> {
    Filter(rows, (row: RowObject) => fn(ItemAt(data, row.index), criteria, row))
  }

  /** The kept rows are in their original order, and a row is kept exactly when the predicate
      accepts it together with its item. */
  lemma KeptInOrder(rows: seq<RowObject>, data: seq<Value>, criteria: Value, fn: FilterFn, row: RowObject)
    ensures IsSubsequence(Kept(rows, data, criteria, fn), rows)
    ensures row in Kept(rows, data, criteria, fn) <==> row in rows && fn(ItemAt(data, row.index), criteria, row)
  {
    var p := (row: RowObject) => fn(ItemAt(data, row.index), criteria, row);
    FilterIsSubsequence(rows, p);
    FilterMembership(rows, p, row);
  }

  /** Filtering the filtered rows again with the same criteria keeps all of them. */
  lemma KeptIdempotent(rows: seq<RowObject>, data: seq<Value>, criteria: Value, fn: FilterFn)
    ensures Kept(Kept(rows, data, criteria, fn), data, criteria, fn) == Kept(rows, data, criteria, fn)
  {
    FilterIdempotent(rows, (row: RowObject) => fn(ItemAt(data, row.index), criteria, row));
  }

  /** The keys `extend()` returns. */
  const FilterKeys: set<string> := {"filter", "criteria"}

  class FilterPlugin {
    /** `BASE_PRIORITIES.HIGHEST`. */
    const priority: int
    const filterFn: FilterFn
    /** `debounceTime`: 0 announces the custom body at once. */
    const debounceTime: int
    var table: Table?
    var criteria: Value

    /** The predicate and the initial criteria come from the options; `debounceTime` defaults to 0. */
    constructor (initialValue: Value, filter: FilterFn, debounce: Option<int>)
      ensures priority == PluginBase.Highest && filterFn == filter && criteria == initialValue
      ensures debounceTime == debounce.GetOr(0) && table == null
    {
      priority := PluginBase.Highest;
      filterFn := filter;
      criteria := initialValue;
      debounceTime := debounce.GetOr(0);
      table := null;
    }

    /** `configure(table)`: keeps the table and contributes nothing. */
    method Configure(t: Table) returns (r: Bag)
      modifies this`table
      ensures table == t && r == map[]
    {
      table := t;
      r := map[];
    }

    /** `filter(criteria)`: the criteria become the given value, or the given function of the
        current criteria; `update:extensions` follows, and `update:custom-body` at once unless a
        debounce time is set. */
    method SetCriteria(u: Updater)
      requires table != null
      modifies this`criteria, table.log
      ensures criteria == Unwrap(u, old(criteria))
      ensures table.log.entries ==
                old(table.log.entries) + [(UpdateExtensions, Undefined)] +
                (if debounceTime != 0 then [] else [(UpdateCustomBody, Undefined)])
    {
      criteria := Unwrap(u, criteria);
      table.Dispatch(UpdateExtensions, Undefined);
      if debounceTime != 0 {
        return;
      }
      table.Dispatch(UpdateCustomBody, Undefined);
    }

    /** `afterCreateBodyRows()`: asks for the custom body to be rebuilt. */
    method AfterCreateBodyRows() returns (r: Bag)
      requires table != null
      modifies table.log
      ensures table.log.entries == old(table.log.entries) + [(UpdateCustomBody, Undefined)] && r == map[]
    {
      table.Dispatch(UpdateCustomBody, Undefined);
      r := map[];
    }

    /** `onUpdateBodyRows()`: asks for the custom body to be rebuilt. */
    method OnUpdateBodyRows()
      requires table != null
      modifies table.log
      ensures table.log.entries == old(table.log.entries) + [(UpdateCustomBody, Undefined)]
    {
      table.Dispatch(UpdateCustomBody, Undefined);
    }

    /** `onUpdateCustomBody()`: the custom body keeps, in order, the rows the predicate accepts
        with their item and the current criteria. */
    method OnUpdateCustomBody()
      requires table != null
      modifies table`customBody
      ensures table.customBody == Kept(old(table.customBody), table.data, criteria, filterFn)
    {
      table.customBody := Kept(table.customBody, table.data, criteria, filterFn);
    }

    /** `extend()`: the `filter` setter and the criteria as they are now. */
    function Extension(): (r: Bag)
      reads this
      ensures r.Keys == FilterKeys && r["criteria"] == criteria && r["filter"].Opaque?
    {
      map["filter" := Opaque(0), "criteria" := criteria]
    }

    /** `onUpdateExtensions(extensions)`: `Object.assign` writes the plugin's keys over the
        extensions and keeps every other key. */
    function AssignedExtensions(extensions: Bag): (r: Bag)
      reads this
      ensures r.Keys == extensions.Keys + FilterKeys
      ensures r["criteria"] == criteria && r["filter"].Opaque?
      ensures forall k :: k in extensions && k !in FilterKeys ==> r[k] == extensions[k]
    {
      extensions + Extension()
    }
  }

  /** With fixed criteria, rebuilding the custom body a second time keeps it as the first left it. */
  method FilterTwice(p: FilterPlugin)
    requires p.table != null
    modifies p.table`customBody
    ensures p.table.customBody == Kept(old(p.table.customBody), p.table.data, p.criteria, p.filterFn)
  {
    ghost var rows := p.table.customBody;
    p.OnUpdateCustomBody();
    p.OnUpdateCustomBody();
    KeptIdempotent(rows, p.table.data, p.criteria, p.filterFn);
  }
}
