/** How the older engine (`src/core/BoringTable.ts`) builds its rows and cells: `createCells`,
    `createRow` and `createRows`, which fold over the columns, the plugins and the data. Each
    fold is specified by a per-index definition (`NewCell`, `CreateRow`) that says what every
    element of the result is. */
module LegacyRows {
  import opened Wrappers
  import opened Values
  import opened Strings
  import opened LegacyPluginBase

  /** A column: the accessors for the head and body cells, and an optional one for the footer.
      An accessor receives the data item and the cell's extras with the identity fields on top. */
  datatype Column = Column(head: (Value, Bag) -> Value, body: (Value, Bag) -> Value, footer: Option<(Value, Bag) -> Value>)

  function Accessor(c: Column, s: Section): Option<(Value, Bag) -> Value> {
    match s
    case Head => Some(c.head)
    case Body => Some(c.body)
    case Footer => c.footer
  }

  /** What the engine is built from: its columns, its plugins in order, and `getId`. */
  datatype Schema = Schema(columns: seq<Column>, plugins: seq<Plugin>, getId: Value -> string)

  /** The identity fields every cell starts from. */
  function CellBase(id: string, rawId: string, index: nat, rowIndex: nat): Bag {
    map["id" := Str(id), "rawId" := Str(rawId), "index" := Num(index), "rowIndex" := Num(rowIndex)]
  }

  /** A cell: its identity fields, the accessor's `value`, and the plugins' extras. */
  datatype Cell = Cell(id: string, rawId: string, index: nat, rowIndex: nat, value: Value, extra: Bag) {
    /** The object `{ ...baseCell, value, ...extra }`: the extras are spread last, so they win. */
    function Object(): Bag {
      CellBase(id, rawId, index, rowIndex)["value" := value] + extra
    }
  }

  function CellObjects(cells: seq<Cell>): seq<Value> {
    seq(|cells|, i requires 0 <= i < |cells| => Obj(cells[i].Object()))
  }

  /** The identity fields of a row, with its cells. */
  function RowBase(id: string, rawId: string, index: nat, cells: seq<Cell>): Bag {
    map["id" := Str(id), "rawId" := Str(rawId), "index" := Num(index), "cells" := Arr(CellObjects(cells))]
  }

  /** A row: its identity fields, its cells, and the plugins' extras. */
  datatype Row = Row(id: string, rawId: string, index: nat, cells: seq<Cell>, extra: Bag) {
    /** The object `{ ...row, ...extra }`: the extras win on a shared key. */
    function Object(): Bag {
      RowBase(id, rawId, index, cells) + extra
    }
  }

  function CellId(index: nat, rawId: string): string {
    "cell-" + NatToString(index) + "-" + rawId
  }

  function RowId(index: nat, rawId: string): string {
    "row-" + NatToString(index) + "-" + rawId
  }

  /** Whether the hooks of section `s` run, given the `from` argument: all run without one. */
  predicate Active(from: Option<Section>, s: Section) {
    from.None? || from == Some(s)
  }

  /** The extras of one cell of section `s`, gathered plugin by plugin: each hook sees the extras
      so far with the identity fields `base` on top of them, and its result is spread after them.
      When the section is not active every plugin contributes `{}`. */
  function CellExtra(plugins: seq<Plugin>, s: Section, active: bool, base: Bag): Bag {
    if plugins == [] then map[]
    else
      var acc := CellExtra(plugins[..|plugins| - 1], s, active, base);
      acc + (if active then CellHook(plugins[|plugins| - 1], s)(acc + base) else map[])
  }

  /** What plugin `i` returns for the cell, given what it is handed. */
  function CellContribution(plugins: seq<Plugin>, s: Section, active: bool, base: Bag, i: nat): Bag
    requires i < |plugins|
  {
    if active then CellHook(plugins[i], s)(CellExtra(plugins[..i], s, active, base) + base) else map[]
  }

  function CellContributions(plugins: seq<Plugin>, s: Section, active: bool, base: Bag): seq<Bag> {
    seq(|plugins|, i requires 0 <= i < |plugins| => CellContribution(plugins, s, active, base, i))
  }

  /** Dropping the last plugin drops the last contribution and changes none of the others. */
  lemma CellContributionsOfPrefix(plugins: seq<Plugin>, s: Section, active: bool, base: Bag)
    requires plugins != []
    ensures CellContributions(plugins, s, active, base)[..|plugins| - 1] == CellContributions(plugins[..|plugins| - 1], s, active, base)
  {
    var n := |plugins| - 1;
    var init := plugins[..n];
    forall i | 0 <= i < n
      ensures CellContributions(plugins, s, active, base)[i] == CellContributions(init, s, active, base)[i]
    {
      assert init[..i] == plugins[..i];
    }
  }

  /** The extras of a cell are the later-wins merge of the plugins' contributions. */
  lemma {:induction false} CellExtraIsMerge(plugins: seq<Plugin>, s: Section, active: bool, base: Bag)
    ensures CellExtra(plugins, s, active, base) == Merge(CellContributions(plugins, s, active, base))
    decreases |plugins|
  {
    if plugins != [] {
      var n := |plugins| - 1;
      CellExtraIsMerge(plugins[..n], s, active, base);
      CellContributionsOfPrefix(plugins, s, active, base);
      var cs := CellContributions(plugins, s, active, base);
      var ci := CellContributions(plugins[..n], s, active, base);
      assert Merge(cs) == Merge(ci) + cs[n];
    }
  }

  /** On a key several plugins set, a cell keeps the value of the last of them. */
  lemma CellExtraLaterWins(plugins: seq<Plugin>, s: Section, active: bool, base: Bag, i: nat, k: string)
    requires i < |plugins| && k in CellContribution(plugins, s, active, base, i)
    requires forall j :: i < j < |plugins| ==> k !in CellContribution(plugins, s, active, base, j)
    ensures k in CellExtra(plugins, s, active, base)
    ensures CellExtra(plugins, s, active, base)[k] == CellContribution(plugins, s, active, base, i)[k]
  {
    CellExtraIsMerge(plugins, s, active, base);
    MergeLastWins(CellContributions(plugins, s, active, base), i, k);
  }

  /** The extras of one row of section `s`: each hook sees the row with the extras so far on top
      of it, and its result is spread before them, so the earlier plugin keeps a shared key. */
  function RowExtra(plugins: seq<Plugin>, s: Section, active: bool, base: Bag): Bag {
    if plugins == [] then map[]
    else
      var acc := RowExtra(plugins[..|plugins| - 1], s, active, base);
      (if active then RowHook(plugins[|plugins| - 1], s)(base + acc) else map[]) + acc
  }

  function RowContribution(plugins: seq<Plugin>, s: Section, active: bool, base: Bag, i: nat): Bag
    requires i < |plugins|
  {
    if active then RowHook(plugins[i], s)(base + RowExtra(plugins[..i], s, active, base)) else map[]
  }

  function RowContributions(plugins: seq<Plugin>, s: Section, active: bool, base: Bag): seq<Bag> {
    seq(|plugins|, i requires 0 <= i < |plugins| => RowContribution(plugins, s, active, base, i))
  }

  /** Dropping the last plugin drops the last contribution and changes none of the others. */
  lemma RowContributionsOfPrefix(plugins: seq<Plugin>, s: Section, active: bool, base: Bag)
    requires plugins != []
    ensures RowContributions(plugins, s, active, base)[..|plugins| - 1] == RowContributions(plugins[..|plugins| - 1], s, active, base)
  {
    var n := |plugins| - 1;
    var init := plugins[..n];
    forall i | 0 <= i < n
      ensures RowContributions(plugins, s, active, base)[i] == RowContributions(init, s, active, base)[i]
    {
      assert init[..i] == plugins[..i];
    }
  }

  /** The extras of a row are the earlier-wins merge of the plugins' contributions. */
  lemma {:induction false} RowExtraIsMerge(plugins: seq<Plugin>, s: Section, active: bool, base: Bag)
    ensures RowExtra(plugins, s, active, base) == MergeFirstWins(RowContributions(plugins, s, active, base))
    decreases |plugins|
  {
    if plugins != [] {
      var n := |plugins| - 1;
      RowExtraIsMerge(plugins[..n], s, active, base);
      RowContributionsOfPrefix(plugins, s, active, base);
      var cs := RowContributions(plugins, s, active, base);
      var ci := RowContributions(plugins[..n], s, active, base);
      assert MergeFirstWins(cs) == cs[n] + MergeFirstWins(ci);
    }
  }

  /** On a key several plugins set, a row keeps the value of the first of them. */
  lemma RowExtraEarlierWins(plugins: seq<Plugin>, s: Section, active: bool, base: Bag, i: nat, k: string)
    requires i < |plugins| && k in RowContribution(plugins, s, active, base, i)
    requires forall j :: 0 <= j < i ==> k !in RowContribution(plugins, s, active, base, j)
    ensures k in RowExtra(plugins, s, active, base)
    ensures RowExtra(plugins, s, active, base)[k] == RowContribution(plugins, s, active, base, i)[k]
  {
    RowExtraIsMerge(plugins, s, active, base);
    MergeFirstWinsFirst(RowContributions(plugins, s, active, base), i, k);
  }

  /** A section whose hooks do not run gets no extras, for rows and cells alike. */
  lemma {:induction false} InactiveSectionHasNoExtras(plugins: seq<Plugin>, s: Section, base: Bag)
    ensures RowExtra(plugins, s, false, base) == map[]
    ensures CellExtra(plugins, s, false, base) == map[]
  {
    if plugins != [] {
      InactiveSectionHasNoExtras(plugins[..|plugins| - 1], s, base);
    }
  }

  /** The cell that column `i` yields for section `s`. Its accessor sees the cell's extras with
      the identity fields on top of them. */
  function NewCell(sc: Schema, item: Value, rowIndex: nat, from: Option<Section>, s: Section, i: nat): (c: Cell)
    requires i < |sc.columns| && Accessor(sc.columns[i], s).Some?
    ensures c.id == CellId(i, sc.getId(item)) && c.rawId == sc.getId(item)
    ensures c.index == i && c.rowIndex == rowIndex
  {
    var rawId := sc.getId(item);
    var id := CellId(i, rawId);
    var base := CellBase(id, rawId, i, rowIndex);
    var extra := CellExtra(sc.plugins, s, Active(from, s), base);
    Cell(id, rawId, i, rowIndex, Accessor(sc.columns[i], s).value(item, extra + base), extra)
  }

  /** The indices, in order, of the first `n` columns that define a footer. */
  function FooterColumns(cols: seq<Column>, n: nat): (r: seq<nat>)
    requires n <= |cols|
    ensures forall j :: 0 <= j < |r| ==> r[j] < n && cols[r[j]].footer.Some?
    ensures forall j, k :: 0 <= j < k < |r| ==> r[j] < r[k]
    ensures forall c :: 0 <= c < n && cols[c].footer.Some? ==> c in r
  {
    if n == 0 then [] else FooterColumns(cols, n - 1) + (if cols[n - 1].footer.Some? then [n - 1] else [])
  }

  datatype Cells = Cells(head: seq<Cell>, body: seq<Cell>, footer: seq<Cell>)

  /** `createCells` over the first `n` columns: one head and one body cell per column, and a
      footer cell for each column that defines a footer, in column order. */
  function CellsUpTo(sc: Schema, item: Value, rowIndex: nat, from: Option<Section>, n: nat): (r: Cells)
    requires n <= |sc.columns|
    ensures |r.head| == n && |r.body| == n
    ensures forall i :: 0 <= i < n ==> r.head[i] == NewCell(sc, item, rowIndex, from, Head, i)
    ensures forall i :: 0 <= i < n ==> r.body[i] == NewCell(sc, item, rowIndex, from, Body, i)
    ensures |r.footer| == |FooterColumns(sc.columns, n)|
    ensures forall j :: 0 <= j < |r.footer| ==> r.footer[j] == NewCell(sc, item, rowIndex, from, Footer, FooterColumns(sc.columns, n)[j])
  {
    if n == 0 then Cells([], [], [])
    else
      var acc := CellsUpTo(sc, item, rowIndex, from, n - 1);
      var i := n - 1;
      var footer := if sc.columns[i].footer.Some? then acc.footer + [NewCell(sc, item, rowIndex, from, Footer, i)] else acc.footer;
      Cells(acc.head + [NewCell(sc, item, rowIndex, from, Head, i)],
            acc.body + [NewCell(sc, item, rowIndex, from, Body, i)],
            footer)
  }

  /** `createCells(item, rowIndex, from)`. */
  function CreateCells(sc: Schema, item: Value, rowIndex: nat, from: Option<Section>): (r: Cells)
    ensures |r.head| == |sc.columns| && |r.body| == |sc.columns|
    ensures |r.footer| == |FooterColumns(sc.columns, |sc.columns|)|
  {
    CellsUpTo(sc, item, rowIndex, from, |sc.columns|)
  }

  datatype RowTriple = RowTriple(head: Row, body: Row, footer: Row) {
    function Pick(s: Section): Row {
      match s
      case Head => head
      case Body => body
      case Footer => footer
    }
  }

  /** The row of section `s` built for `item` at `index` from its cells. */
  function NewRow(sc: Schema, item: Value, index: nat, from: Option<Section>, s: Section, cells: seq<Cell>): (r: Row)
    ensures r.id == RowId(index, sc.getId(item)) && r.rawId == sc.getId(item)
    ensures r.index == index && r.cells == cells
  {
    var rawId := sc.getId(item);
    var id := RowId(index, rawId);
    Row(id, rawId, index, cells, RowExtra(sc.plugins, s, Active(from, s), RowBase(id, rawId, index, cells)))
  }

  /** `createRow(item, index, from)`: the cells are always built with every cell hook running
      (`from` is not passed on); the row hooks run only for the sections `from` allows. */
  function CreateRow(sc: Schema, item: Value, index: nat, from: Option<Section>): (r: RowTriple)
    ensures r.head.cells == CreateCells(sc, item, index, None).head
    ensures r.body.cells == CreateCells(sc, item, index, None).body
    ensures r.footer.cells == CreateCells(sc, item, index, None).footer
    ensures |r.footer.cells| > 0 <==> HasFooter(sc.columns)
  {
    var cells := CreateCells(sc, item, index, None);
    RowTriple(NewRow(sc, item, index, from, Head, cells.head),
              NewRow(sc, item, index, from, Body, cells.body),
              NewRow(sc, item, index, from, Footer, cells.footer))
  }

  /** Some column defines a footer. */
  predicate HasFooter(cols: seq<Column>) {
    FooterColumns(cols, |cols|) != []
  }

  datatype Sections = Sections(head: seq<Row>, body: seq<Row>, footer: seq<Row>) {
    function Pick(s: Section): seq<Row> {
      match s
      case Head => head
      case Body => body
      case Footer => footer
    }
  }

  /** The `reduce` of `createRows` over the rows `createRow` built, item by item: each head and
      body row is appended, and a footer row only when it has cells. */
  function Collect(ts: seq<RowTriple>): (r: Sections)
    ensures |r.head| == |ts| && |r.body| == |ts|
    ensures forall i :: 0 <= i < |ts| ==> r.head[i] == ts[i].head && r.body[i] == ts[i].body
  {
    if ts == [] then Sections([], [], [])
    else
      var n := |ts| - 1;
      var acc := Collect(ts[..n]);
      var row := ts[n];
      Sections(acc.head + [row.head], acc.body + [row.body],
               if |row.footer.cells| > 0 then acc.footer + [row.footer] else acc.footer)
  }

  /** When every footer row has cells, every one is kept, in order. */
  lemma {:induction false} CollectAllFooters(ts: seq<RowTriple>)
    requires forall i :: 0 <= i < |ts| ==> |ts[i].footer.cells| > 0
    ensures |Collect(ts).footer| == |ts|
    ensures forall i :: 0 <= i < |ts| ==> Collect(ts).footer[i] == ts[i].footer
  {
    if ts != [] {
      var n := |ts| - 1;
      var init := ts[..n];
      forall i | 0 <= i < n
        ensures |init[i].footer.cells| > 0
      {
        assert init[i] == ts[i];
      }
      CollectAllFooters(init);
      assert |ts[n].footer.cells| > 0;
      assert Collect(ts).footer == Collect(init).footer + [ts[n].footer];
    }
  }

  /** When no footer row has cells, the footer is empty. */
  lemma {:induction false} CollectNoFooters(ts: seq<RowTriple>)
    requires forall i :: 0 <= i < |ts| ==> |ts[i].footer.cells| == 0
    ensures Collect(ts).footer == []
  {
    if ts != [] {
      var n := |ts| - 1;
      var init := ts[..n];
      forall i | 0 <= i < n
        ensures |init[i].footer.cells| == 0
      {
        assert init[i] == ts[i];
      }
      CollectNoFooters(init);
      assert |ts[n].footer.cells| == 0;
      assert Collect(ts).footer == Collect(init).footer;
    }
  }

  /** `createRows(from)` over `data`: a head and a body row per item, in order. */
  function CreateRows(sc: Schema, data: seq<Value>, from: Option<Section>): (r: Sections)
    ensures |r.head| == |data| && |r.body| == |data|
    ensures forall i :: 0 <= i < |data| ==> r.head[i] == CreateRow(sc, data[i], i, from).head
    ensures forall i :: 0 <= i < |data| ==> r.body[i] == CreateRow(sc, data[i], i, from).body
  {
    Collect(RowsOf(sc, data, from))
  }

  /** The row triples `createRow` builds for `data`, item by item. */
  function RowsOf(sc: Schema, data: seq<Value>, from: Option<Section>): (ts: seq<RowTriple>) {
    seq(|data|, i requires 0 <= i < |data| => CreateRow(sc, data[i], i, from))
  }

  /** The footer `createRows` builds has a row per item when some column defines a footer, and
      none otherwise: whether a footer row has cells depends on the columns only. */
  lemma CreateRowsFooter(sc: Schema, data: seq<Value>, from: Option<Section>)
    ensures HasFooter(sc.columns) ==> |CreateRows(sc, data, from).footer| == |data|
    ensures HasFooter(sc.columns) ==>
              forall i :: 0 <= i < |data| ==> CreateRows(sc, data, from).footer[i] == CreateRow(sc, data[i], i, from).footer
    ensures !HasFooter(sc.columns) ==> CreateRows(sc, data, from).footer == []
  {
    var ts := RowsOf(sc, data, from);
    if HasFooter(sc.columns) {
      forall i | 0 <= i < |ts|
        ensures |ts[i].footer.cells| > 0
      {
        assert ts[i] == CreateRow(sc, data[i], i, from);
      }
      CollectAllFooters(ts);
    } else {
      forall i | 0 <= i < |ts|
        ensures |ts[i].footer.cells| == 0
      {
        assert ts[i] == CreateRow(sc, data[i], i, from);
      }
      CollectNoFooters(ts);
    }
  }

  /** Every row sits at the position its `index` names. */
  predicate Indexed(rows: seq<Row>) {
    forall i :: 0 <= i < |rows| ==> rows[i].index == i
  }

  /** Rows built by `createRows` sit at their positions. */
  lemma CreateRowsIndexed(sc: Schema, data: seq<Value>, from: Option<Section>)
    ensures Indexed(CreateRows(sc, data, from).head) && Indexed(CreateRows(sc, data, from).body)
    ensures Indexed(CreateRows(sc, data, from).footer)
  {
    var r := CreateRows(sc, data, from);
    CreateRowsFooter(sc, data, from);
    forall i | 0 <= i < |r.footer|
      ensures r.footer[i].index == i
    {
      assert HasFooter(sc.columns);
      assert r.footer[i] == CreateRow(sc, data[i], i, from).footer;
    }
  }

  /** Rows built by `createRows` have pairwise distinct ids. */
  lemma CreateRowIdsDistinct(sc: Schema, data: seq<Value>, from: Option<Section>, i: nat, j: nat)
    requires i < |data| && j < |data| && i != j
    ensures CreateRows(sc, data, from).head[i].id != CreateRows(sc, data, from).head[j].id
    ensures CreateRows(sc, data, from).body[i].id != CreateRows(sc, data, from).body[j].id
  {
    var r := CreateRows(sc, data, from);
    if r.head[i].id == r.head[j].id || r.body[i].id == r.body[j].id {
      PrefixedIdInjective("row-", i, sc.getId(data[i]), j, sc.getId(data[j]));
    }
  }

  /** Within a row, the cell ids are pairwise distinct. */
  lemma CellIdsDistinct(sc: Schema, item: Value, rowIndex: nat, i: nat, j: nat)
    requires i < |sc.columns| && j < |sc.columns| && i != j
    ensures CreateCells(sc, item, rowIndex, None).body[i].id != CreateCells(sc, item, rowIndex, None).body[j].id
  {
    var r := CreateCells(sc, item, rowIndex, None);
    if r.body[i].id == r.body[j].id {
      PrefixedIdInjective("cell-", i, sc.getId(item), j, sc.getId(item));
    }
  }

  /** Rebuilding only section `s` yields the same row of that section as a full rebuild, and the
      other sections' rows then get no extras at all. */
  lemma SectionRebuildAgrees(sc: Schema, item: Value, index: nat, s: Section, t: Section)
    requires t != s
    ensures CreateRow(sc, item, index, Some(s)).Pick(s) == CreateRow(sc, item, index, None).Pick(s)
    ensures CreateRow(sc, item, index, Some(s)).Pick(t).extra == map[]
  {
    var cells := CreateCells(sc, item, index, None);
    var row := CreateRow(sc, item, index, Some(s)).Pick(t);
    InactiveSectionHasNoExtras(sc.plugins, t, RowBase(row.id, row.rawId, row.index, row.cells));
  }

  /** With plugins that override nothing, no cell and no row gets any extras. */
  lemma {:induction false} BasePluginsAddNothing(plugins: seq<Plugin>, s: Section, active: bool, base: Bag)
    requires forall i :: 0 <= i < |plugins| ==> plugins[i] == LegacyPluginBase.Base()
    ensures CellExtra(plugins, s, active, base) == map[]
    ensures RowExtra(plugins, s, active, base) == map[]
  {
    if plugins != [] {
      BasePluginsAddNothing(plugins[..|plugins| - 1], s, active, base);
    }
  }
}
