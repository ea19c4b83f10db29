/** The swap plugin of the package (`packages/boring-table-core/src/plugins/swapRow.ts`). Each
    body row gets a `swap(index)` closure that exchanges its slot of the table's body with slot
    `index` and asks for the body rows to be rebuilt. */
module SwapRow {
  import opened Values
  import opened Seqs
  import opened Events
  import opened PackageHost

  /** The body after `swap(index)` from the row at `from`: both slots hold rows, and they are
      exchanged, or neither does, and nothing is written. */
  function SwappedBody(body: seq<RowObject>, from: nat, index: nat): (r: seq<RowObject>)
    requires index < |body| <==> from < |body|
  {
    if index < |body| then Swapped(body, from, index) else body
  }

  /** Both slots are exchanged and no other slot changes; from a row onto itself, or with no rows
      at either slot, the body stays as it was. */
  lemma SwappedBodyIs(body: seq<RowObject>, from: nat, index: nat)
    requires index < |body| <==> from < |body|
    ensures var r := SwappedBody(body, from, index);
            |r| == |body| && (index < |body| ==> r[from] == body[index] && r[index] == body[from]) &&
            (forall k :: 0 <= k < |body| && k != from && k != index ==> r[k] == body[k]) &&
            (from == index || index >= |body| ==> r == body)
  {
    if from == index && index < |body| {
      SwappedSelf(body, index);
    }
  }

  /** Swapping the same two slots again restores the body. */
  lemma SwapTwiceRestores(body: seq<RowObject>, from: nat, index: nat)
    requires index < |body| <==> from < |body|
    ensures SwappedBody(SwappedBody(body, from, index), from, index) == body
  {
    if index < |body| {
      SwappedTwice(body, from, index);
    }
  }

  class SwapRowPlugin {
    var table: Table?

    constructor ()
      ensures table == null
    {
      table := null;
    }

    /** `configure(table)`: keeps the table and contributes nothing. */
    method Configure(t: Table) returns (r: Bag)
      modifies this
      ensures table == t && r == map[]
    {
      table := t;
      r := map[];
    }

    /** `onCreateBodyRow(row)`: the row gets its `swap` closure. */
    method OnCreateBodyRow(row: RowObject) returns (extra: Bag)
      ensures extra.Keys == {"swap"} && extra["swap"].Opaque?
    {
      extra := map["swap" := Opaque(0)];
    }

    /** The closure `swap(index)` of `row`: without a table nothing happens; otherwise the row
        found at `index` moves to the row's slot and the row's slot moves to `index`, each only
        when it holds a row, and `update:body-rows` follows. */
    method Swap(row: RowObject, index: nat)
      requires table != null ==> (index < |table.body| <==> row.index < |table.body|)
      modifies if table != null then {table, table.log} else {}
      ensures table != null ==> table.body == SwappedBody(old(table.body), row.index, index)
      ensures table != null ==> table.log.entries == old(table.log.entries) + [(UpdateBodyRows, Undefined)]
      ensures table != null ==> table.head == old(table.head) && table.customBody == old(table.customBody)
      ensures table != null ==> table.data == old(table.data) && table.extensions == old(table.extensions)
    {
      if table == null {
        return;
      }
      var body := table.body;
      if index < |body| {
        body := body[row.index := body[index]];
      }
      if row.index < |table.body| {
        body := body[index := table.body[row.index]];
      }
      table.body := body;
      table.Dispatch(UpdateBodyRows, Undefined);
    }
  }
}
