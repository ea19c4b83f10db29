/** How the first prototype of the table (`src/index.ts`) builds its rows: `createCells`,
    `createRow` and `createRows`. The folds are those of the later engine without the `from`
    argument: every hook always runs, a cell carries only `id` and `rawId`, and the hooks are
    handed those two fields on top of the extras gathered so far. */
module PrototypeRows {
  import opened Values
  import opened LegacyPluginBase
  import LegacyRows
  import Strings

  type Column = LegacyRows.Column
  type Schema = LegacyRows.Schema

  /** The identity fields of a cell: the object spread on top of every extras bag. */
  function IdFields(id: string, rawId: string): Bag {
    map["id" := Str(id), "rawId" := Str(rawId)]
  }

  /** A cell: `{ ...{ id, rawId, value }, ...extra }`, so an extra named `id` wins in the object. */
  datatype Cell = Cell(id: string, rawId: string, value: Value, extra: Bag) {
    function Object(): Bag {
      IdFields(id, rawId)["value" := value] + extra
    }
  }

  function CellObjects(cells: seq<Cell>): seq<Value> {
    seq(|cells|, i requires 0 <= i < |cells| => Obj(cells[i].Object()))
  }

  /** The row object `{ id, rawId, index, cells }` handed to the row hooks. */
  function RowBase(id: string, rawId: string, index: nat, cells: seq<Cell>): Bag {
    map["id" := Str(id), "rawId" := Str(rawId), "index" := Num(index), "cells" := Arr(CellObjects(cells))]
  }

  /** A row: `{ ...row, ...extra }`, so the extras win on a shared key. */
  datatype Row = Row(id: string, rawId: string, index: nat, cells: seq<Cell>, extra: Bag) {
    function Object(): Bag {
      RowBase(id, rawId, index, cells) + extra
    }
  }

  /** The cell of column `i` in section `s`: the plugins' extras gathered later-wins, and the
      accessor's value for the item with the identity fields on top of those extras. */
  function NewCell(sc: Schema, item: Value, s: Section, i: nat): (c: Cell)
    requires i < |sc.columns| && LegacyRows.Accessor(sc.columns[i], s).Some?
    ensures c.id == LegacyRows.CellId(i, sc.getId(item)) && c.rawId == sc.getId(item)
    ensures c.extra == LegacyRows.CellExtra(sc.plugins, s, true, IdFields(c.id, c.rawId))
  {
    var rawId := sc.getId(item);
    var id := LegacyRows.CellId(i, rawId);
    var extra := LegacyRows.CellExtra(sc.plugins, s, true, IdFields(id, rawId));
    Cell(id, rawId, LegacyRows.Accessor(sc.columns[i], s).value(item, extra + IdFields(id, rawId)), extra)
  }

  datatype Cells = Cells(head: seq<Cell>, body: seq<Cell>, footer: seq<Cell>)

  /** The `reduce` of `createCells` over the first `n` columns: a head and a body cell per
      column, and a footer cell when the column has a `footer` accessor. */
  function CellsUpTo(sc: Schema, item: Value, n: nat): (r: Cells)
    requires n <= |sc.columns|
    ensures |r.head| == n && |r.body| == n
    ensures forall i :: 0 <= i < n ==> r.head[i] == NewCell(sc, item, Head, i) && r.body[i] == NewCell(sc, item, Body, i)
  {
    if n == 0 then Cells([], [], [])
    else
      var acc := CellsUpTo(sc, item, n - 1);
      var i := n - 1;
      Cells(acc.head + [NewCell(sc, item, Head, i)],
            acc.body + [NewCell(sc, item, Body, i)],
            if sc.columns[i].footer.Some? then acc.footer + [NewCell(sc, item, Footer, i)] else acc.footer)
  }

  /** The footer cells are those of the columns with a footer accessor, in column order. */
  lemma {:induction false} FooterCellsUpTo(sc: Schema, item: Value, n: nat)
    requires n <= |sc.columns|
    ensures var fs := LegacyRows.FooterColumns(sc.columns, n);
            |CellsUpTo(sc, item, n).footer| == |fs| &&
            forall j :: 0 <= j < |fs| ==> CellsUpTo(sc, item, n).footer[j] == NewCell(sc, item, Footer, fs[j])
  {
    if n > 0 {
      FooterCellsUpTo(sc, item, n - 1);
      var fs, fs' := LegacyRows.FooterColumns(sc.columns, n - 1), LegacyRows.FooterColumns(sc.columns, n);
      var acc, cur := CellsUpTo(sc, item, n - 1).footer, CellsUpTo(sc, item, n).footer;
      if sc.columns[n - 1].footer.Some? {
        assert fs' == fs + [n - 1];
        assert cur == acc + [NewCell(sc, item, Footer, n - 1)];
        forall j | 0 <= j < |fs'|
          ensures cur[j] == NewCell(sc, item, Footer, fs'[j])
        {
          if j < |fs| {
            assert cur[j] == acc[j] && fs'[j] == fs[j];
          }
        }
      } else {
        assert fs' == fs && cur == acc;
      }
    }
  }

  /** `createCells(item)`. */
  function CreateCells(sc: Schema, item: Value): (r: Cells)
    ensures |r.head| == |sc.columns| && |r.body| == |sc.columns|
  {
    CellsUpTo(sc, item, |sc.columns|)
  }

  /** Within a row the cell ids differ from column to column. */
  lemma CellIdsDistinct(sc: Schema, item: Value, i: nat, j: nat)
    requires i < |sc.columns| && j < |sc.columns| && i != j
    ensures CreateCells(sc, item).head[i].id != CreateCells(sc, item).head[j].id
    ensures CreateCells(sc, item).body[i].id != CreateCells(sc, item).body[j].id
  {
    var r := CreateCells(sc, item);
    if r.head[i].id == r.head[j].id || r.body[i].id == r.body[j].id {
      Strings.PrefixedIdInjective("cell-", i, sc.getId(item), j, sc.getId(item));
    }
  }

  datatype RowTriple = RowTriple(head: Row, body: Row, footer: Row)

  /** The row of section `s` for `item` at `index`: the row hooks see the row with the extras
      so far on top of it, and the earlier plugin keeps a shared key. */
  function NewRow(sc: Schema, item: Value, index: nat, s: Section, cells: seq<Cell>): (r: Row)
    ensures r.id == LegacyRows.RowId(index, sc.getId(item)) && r.rawId == sc.getId(item)
    ensures r.index == index && r.cells == cells
    ensures r.extra == LegacyRows.RowExtra(sc.plugins, s, true, RowBase(r.id, r.rawId, index, cells))
  {
    var rawId := sc.getId(item);
    var id := LegacyRows.RowId(index, rawId);
    Row(id, rawId, index, cells, LegacyRows.RowExtra(sc.plugins, s, true, RowBase(id, rawId, index, cells)))
  }

  /** `createRow(item, index)`. */
  function CreateRow(sc: Schema, item: Value, index: nat): (r: RowTriple)
    ensures r.head.cells == CreateCells(sc, item).head && r.body.cells == CreateCells(sc, item).body
    ensures r.footer.cells == CreateCells(sc, item).footer
  {
    var cells := CreateCells(sc, item);
    RowTriple(NewRow(sc, item, index, Head, cells.head),
              NewRow(sc, item, index, Body, cells.body),
              NewRow(sc, item, index, Footer, cells.footer))
  }

  /** A footer row has cells exactly when some column has a footer accessor. */
  lemma FooterRowHasCells(sc: Schema, item: Value, index: nat)
    ensures |CreateRow(sc, item, index).footer.cells| > 0 <==> LegacyRows.HasFooter(sc.columns)
  {
    FooterCellsUpTo(sc, item, |sc.columns|);
  }

  datatype Sections = Sections(head: seq<Row>, body: seq<Row>, footer: seq<Row>)

  /** The `reduce` of `createRows`: each head and body row is appended, and a footer row only
      when it has cells. */
  function Collect(ts: seq<RowTriple>): (r: Sections)
    ensures |r.head| == |ts| && |r.body| == |ts|
    ensures forall i :: 0 <= i < |ts| ==> r.head[i] == ts[i].head && r.body[i] == ts[i].body
  {
    if ts == [] then Sections([], [], [])
    else
      var n := |ts| - 1;
      var acc := Collect(ts[..n]);
      var row := ts[n];
      Sections(acc.head + [row.head], acc.body + [row.body],
               if |row.footer.cells| > 0 then acc.footer + [row.footer] else acc.footer)
  }

  /** The footer rows are the footer rows with cells, in order. */
  lemma {:induction false} CollectFooters(ts: seq<RowTriple>, keep: bool)
    requires forall i :: 0 <= i < |ts| ==> (|ts[i].footer.cells| > 0 <==> keep)
    ensures keep ==> |Collect(ts).footer| == |ts| && forall i :: 0 <= i < |ts| ==> Collect(ts).footer[i] == ts[i].footer
    ensures !keep ==> Collect(ts).footer == []
  {
    if ts != [] {
      var n := |ts| - 1;
      var init := ts[..n];
      forall i | 0 <= i < n
        ensures |init[i].footer.cells| > 0 <==> keep
      {
        assert init[i] == ts[i];
      }
      CollectFooters(init, keep);
      if keep {
        assert Collect(ts).footer == Collect(init).footer + [ts[n].footer];
      } else {
        assert Collect(ts).footer == Collect(init).footer;
      }
    }
  }

  function RowsOf(sc: Schema, data: seq<Value>): seq<RowTriple> {
    seq(|data|, i requires 0 <= i < |data| => CreateRow(sc, data[i], i))
  }

  /** `createRows()` over `data`: a head and a body row per item, in order. */
  function CreateRows(sc: Schema, data: seq<Value>): (r: Sections)
    ensures |r.head| == |data| && |r.body| == |data|
    ensures forall i :: 0 <= i < |data| ==> r.head[i] == CreateRow(sc, data[i], i).head
    ensures forall i :: 0 <= i < |data| ==> r.body[i] == CreateRow(sc, data[i], i).body
  {
    Collect(RowsOf(sc, data))
  }

  /** The footer holds a row per item when some column has a footer accessor, and is empty
      otherwise. */
  lemma CreateRowsFooter(sc: Schema, data: seq<Value>)
    ensures LegacyRows.HasFooter(sc.columns) ==> |CreateRows(sc, data).footer| == |data|
    ensures LegacyRows.HasFooter(sc.columns) ==>
              forall i :: 0 <= i < |data| ==> CreateRows(sc, data).footer[i] == CreateRow(sc, data[i], i).footer
    ensures !LegacyRows.HasFooter(sc.columns) ==> CreateRows(sc, data).footer == []
  {
    var ts := RowsOf(sc, data);
    forall i | 0 <= i < |ts|
      ensures |ts[i].footer.cells| > 0 <==> LegacyRows.HasFooter(sc.columns)
    {
      assert ts[i] == CreateRow(sc, data[i], i);
      FooterRowHasCells(sc, data[i], i);
    }
    CollectFooters(ts, LegacyRows.HasFooter(sc.columns));
  }

  /** Rows have distinct ids: the position is part of the id. */
  lemma RowIdsDistinct(sc: Schema, data: seq<Value>, i: nat, j: nat)
    requires i < |data| && j < |data| && i != j
    ensures CreateRows(sc, data).head[i].id != CreateRows(sc, data).head[j].id
    ensures CreateRows(sc, data).body[i].id != CreateRows(sc, data).body[j].id
  {
    var r := CreateRows(sc, data);
    if r.head[i].id == r.head[j].id || r.body[i].id == r.body[j].id {
      Strings.PrefixedIdInjective("row-", i, sc.getId(data[i]), j, sc.getId(data[j]));
    }
  }

  /** An extra a plugin returns for a cell overrides the identity fields in the cell object,
      while the accessor and the later plugins see the identity fields on top. */
  lemma CellExtraOverridesIdentity(sc: Schema, item: Value, s: Section, i: nat, k: string)
    requires i < |sc.columns| && LegacyRows.Accessor(sc.columns[i], s).Some?
    requires k in NewCell(sc, item, s, i).extra
    ensures NewCell(sc, item, s, i).Object()[k] == NewCell(sc, item, s, i).extra[k]
  {
  }
}
