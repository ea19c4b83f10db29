/** The check plugin of the older engine (`src/plugins/check.ts`). Its row hooks write a `check`
    flag and a `toggleCheck` closure into the object they are handed; a toggle remembers the
    object in its section's tracked set and dispatches the row event with `{ rowIndex }`, and
    `resetCheck` clears the flag of every tracked object. */
module LegacyCheck {
  import opened Values
  import opened LegacyPluginBase
  import opened LegacyRows
  import opened LegacyTable

  /** The object a row hook is handed: `{ ...row, ...extras of the earlier plugins }`. The table
      builds the row it keeps from a separate spread, so what the plugin writes into this
      object stays on it. */
  class RowObject {
    var fields: Bag

    constructor (fields: Bag)
      ensures this.fields == fields
    {
      this.fields := fields;
    }
  }

  /** `row.check = !!row.check; row.toggleCheck = () => ...`. */
  function Normalized(fields: Bag): Bag {
    fields["check" := Bool(Truthy(Prop(fields, "check")))]["toggleCheck" := Opaque(0)]
  }

  /** `row.check = !row.check`. */
  function Negated(fields: Bag): Bag {
    fields["check" := Bool(!Truthy(Prop(fields, "check")))]
  }

  /** `i.check = false`. */
  function Cleared(fields: Bag): Bag {
    fields["check" := Bool(false)]
  }

  /** Toggling twice restores the flag's truth value, and restores a created row exactly; a
      toggle touches no other field. */
  lemma NegatedTwice(fields: Bag, k: string)
    requires k != "check"
    ensures Prop(Negated(Negated(fields)), "check") == Bool(Truthy(Prop(fields, "check")))
    ensures Negated(Negated(Normalized(fields))) == Normalized(fields)
    ensures Prop(Negated(fields), k) == Prop(fields, k)
  {
    var f := Normalized(fields);
    assert Negated(Negated(f)) == f["check" := f["check"]];
    assert f["check" := f["check"]] == f;
  }

  /** A reset clears the flag whatever toggles came before it. */
  lemma ClearedAfterToggles(fields: Bag)
    ensures Cleared(Negated(fields)) == Cleared(fields) && Cleared(Cleared(fields)) == Cleared(fields)
    ensures Prop(Cleared(fields), "check") == Bool(false) && Prop(Cleared(fields), "index") == Prop(fields, "index")
  {
  }

  /** `onCreateHeadCell(cell)`: the cell's flag read as a boolean, and a toggle that does nothing. */
  function HeadCellExtra(cell: Bag): (r: Bag)
    ensures r.Keys == {"check", "toggleCheck"}
    ensures r["check"] == Bool(true) <==> Truthy(Prop(cell, "check"))
  {
    map["check" := Bool(Truthy(Prop(cell, "check"))), "toggleCheck" := Opaque(0)]
  }

  /** A cell handed a flag the row hooks normalised reports exactly that flag. */
  lemma HeadCellKeepsRowFlag(fields: Bag)
    ensures HeadCellExtra(Normalized(fields))["check"] == Normalized(fields)["check"]
  {
  }

  /** The `{ rowIndex }` payloads of a reset, one per tracked object, read before any is cleared. */
  function RowIndexPayloads(rows: seq<RowObject>): seq<Value>
    reads rows
  {
    seq(|rows|, i requires 0 <= i < |rows| reads rows => RowIndexPayload(Prop(rows[i].fields, "index")))
  }

  /** A `Set.add`: an object already tracked keeps its place. */
  function Added(rows: seq<RowObject>, row: RowObject): (r: seq<RowObject>)
    ensures row in r && (r == rows || r == rows + [row])
    ensures row in rows ==> r == rows
  {
    if row in rows then rows else rows + [row]
  }

  /** The flag-clearing half of `resetCheck`'s `forEach` over one section's tracked objects. */
  method ClearAll(rows: seq<RowObject>)
    modifies rows
    ensures forall r :: r in rows ==> r.fields == Cleared(old(r.fields))
  {
    var i := 0;
    while i < |rows|
      invariant 0 <= i <= |rows|
      invariant forall j :: 0 <= j < |rows| ==> rows[j].fields == old(rows[j].fields) || rows[j].fields == Cleared(old(rows[j].fields))
      invariant forall j :: 0 <= j < i ==> rows[j].fields == Cleared(old(rows[j].fields))
    {
      var r := rows[i];
      ClearedAfterToggles(old(r.fields));
      label before:
      r.fields := Cleared(r.fields);
      forall j | 0 <= j < |rows|
        ensures rows[j].fields == old@before(rows[j].fields) || rows[j].fields == Cleared(old(rows[j].fields))
        ensures j <= i ==> rows[j].fields == Cleared(old(rows[j].fields))
      {
        if rows[j] == r {
          assert rows[j].fields == Cleared(old(rows[j].fields));
        }
      }
      i := i + 1;
    }
    assert forall r :: r in rows ==> exists j :: 0 <= j < |rows| && rows[j] == r;
  }

  /** The dispatching half: `e` once per payload, in order. */
  method DispatchAll(table: BoringTable, e: TableEvent, ps: seq<Value>)
    modifies table
    requires table.Valid()
    ensures table.Valid() && table.events == AppendAll(old(table.events), Dispatches(e, ps))
    ensures table.data == old(table.data) && table.Current() == old(table.Current())
  {
    var i := 0;
    while i < |ps|
      invariant 0 <= i <= |ps|
      invariant table.Valid() && table.events == AppendAll(old(table.events), Dispatches(e, ps[..i]))
      invariant table.data == old(table.data) && table.Current() == old(table.Current())
    {
      assert Dispatches(e, ps[..i + 1])[..i] == Dispatches(e, ps[..i]);
      table.Dispatch(e, ps[i]);
      i := i + 1;
    }
    assert ps[..i] == ps;
  }

  class CheckPlugin {
    var table: BoringTable?
    /** `hadRows`, `bodyRows` and `footerRows`: the objects toggled so far, in the order they were
        first toggled. */
    var headRows: seq<RowObject>
    var bodyRows: seq<RowObject>
    var footerRows: seq<RowObject>

    function Tracked(s: Section): seq<RowObject>
      reads this
    {
      match s
      case Head => headRows
      case Body => bodyRows
      case Footer => footerRows
    }

    /** The dispatches of `resetCheck`: the head objects' events, then the body's, then the footer's. */
    function ResetDispatches(): seq<(TableEvent, Value)>
      reads this, headRows, bodyRows, footerRows
    {
      Dispatches(UpdateHeadRow, RowIndexPayloads(headRows)) + Dispatches(UpdateBodyRow, RowIndexPayloads(bodyRows))
        + Dispatches(UpdateFooterRow, RowIndexPayloads(footerRows))
    }

    constructor ()
      ensures table == null && headRows == [] && bodyRows == [] && footerRows == []
    {
      table := null;
      headRows, bodyRows, footerRows := [], [], [];
    }

    method Configure(t: BoringTable) returns (r: Bag)
      modifies this
      ensures table == t && r == map[]
      ensures headRows == old(headRows) && bodyRows == old(bodyRows) && footerRows == old(footerRows)
    {
      table := t;
      r := map[];
    }

    /** `toggleCheck(row, event)`: negates the flag and dispatches `event` with the object's index. */
    method ToggleCheck(row: RowObject, e: TableEvent)
      modifies row, table
      requires table != null ==> table.Valid()
      ensures row.fields == Negated(old(row.fields))
      ensures table != null ==> table.Valid() && table.events == Append(old(table.events), e, RowIndexPayload(Prop(old(row.fields), "index")))
      ensures table != null ==> table.data == old(table.data) && table.Current() == old(table.Current())
    {
      row.fields := Negated(row.fields);
      if table != null {
        table.Dispatch(e, RowIndexPayload(Prop(row.fields, "index")));
      }
    }

    /** `toggleHead`/`toggleBody`/`toggleFooter(row)`: tracks the object, then toggles it. */
    method ToggleSection(s: Section, row: RowObject)
      modifies this, row, table
      requires table != null ==> table.Valid()
      ensures table == old(table) && Tracked(s) == Added(old(Tracked(s)), row)
      ensures forall t: Section :: t != s ==> Tracked(t) == old(Tracked(t))
      ensures row.fields == Negated(old(row.fields))
      ensures table != null ==> table.Valid() && table.events == Append(old(table.events), SectionRowEvent(s), RowIndexPayload(Prop(old(row.fields), "index")))
      ensures table != null ==> table.data == old(table.data) && table.Current() == old(table.Current())
    {
      match s {
        case Head => headRows := Added(headRows, row);
        case Body => bodyRows := Added(bodyRows, row);
        case Footer => footerRows := Added(footerRows, row);
      }
      ToggleCheck(row, SectionRowEvent(s));
    }

    /** `onCreate{Head,Body,Footer}Row(row)`: normalises the flag on the object and contributes
        nothing to the row the table keeps. */
    method OnCreateRow(s: Section, row: RowObject) returns (extra: Bag)
      modifies row
      ensures row.fields == Normalized(old(row.fields)) && extra == map[]
    {
      row.fields := Normalized(row.fields);
      extra := map[];
    }

    /** `resetCheck()`: for the head, then the body, then the footer objects, clears each flag
        and dispatches the section's row event with the object's `index`. Clearing leaves `index`
        alone and a dispatch only queues, so clearing every flag first and then making the
        dispatches in the same order reaches the same state. Every tracked object ends with its
        flag false, one row event is queued per tracked object, and the tracked sets are kept. */
    method ResetCheck()
      modifies headRows, bodyRows, footerRows, table
      requires table != null ==> table.Valid()
      ensures forall r :: r in headRows || r in bodyRows || r in footerRows ==> r.fields == Cleared(old(r.fields))
      ensures table != null ==> table.Valid() && table.events == AppendAll(old(table.events), old(ResetDispatches()))
      ensures table != null ==> table.data == old(table.data) && table.Current() == old(table.Current())
    {
      var hs, bs, fs := RowIndexPayloads(headRows), RowIndexPayloads(bodyRows), RowIndexPayloads(footerRows);
      ClearTracked();
      if table != null {
        ghost var m := table.events;
        DispatchAll(table, UpdateHeadRow, hs);
        DispatchAll(table, UpdateBodyRow, bs);
        DispatchAll(table, UpdateFooterRow, fs);
        AppendAllConcat(m, Dispatches(UpdateHeadRow, hs), Dispatches(UpdateBodyRow, bs));
        AppendAllConcat(m, Dispatches(UpdateHeadRow, hs) + Dispatches(UpdateBodyRow, bs), Dispatches(UpdateFooterRow, fs));
      }
    }

    /** The flag-clearing part of `resetCheck`; an object tracked in two sections is cleared twice,
        which is clearing it once. */
    method ClearTracked()
      modifies headRows, bodyRows, footerRows
      ensures forall r :: r in headRows || r in bodyRows || r in footerRows ==> r.fields == Cleared(old(r.fields))
    {
      ClearAll(headRows);
      ClearAll(bodyRows);
      ClearAll(footerRows);
      forall r | r in headRows || r in bodyRows || r in footerRows
        ensures r.fields == Cleared(old(r.fields))
      {
        ClearedAfterToggles(old(r.fields));
      }
    }
  }

  /** The queues after a reset: each row event gains the tracked objects' indices, in order. */
  lemma ResetQueues(m: map<TableEvent, seq<Value>>, hs: seq<Value>, bs: seq<Value>, fs: seq<Value>)
    requires hs != [] && bs != [] && fs != []
    ensures var r := AppendAll(m, Dispatches(UpdateHeadRow, hs) + Dispatches(UpdateBodyRow, bs) + Dispatches(UpdateFooterRow, fs));
            r == m[UpdateHeadRow := Queued(m, UpdateHeadRow) + hs][UpdateBodyRow := Queued(m, UpdateBodyRow) + bs]
                  [UpdateFooterRow := Queued(m, UpdateFooterRow) + fs]
  {
    var h, b, f := Dispatches(UpdateHeadRow, hs), Dispatches(UpdateBodyRow, bs), Dispatches(UpdateFooterRow, fs);
    AppendAllConcat(m, h, b);
    AppendAllConcat(m, h + b, f);
    AppendAllOneEvent(m, UpdateHeadRow, hs);
    var m1 := AppendAll(m, h);
    AppendAllOneEvent(m1, UpdateBodyRow, bs);
    var m2 := AppendAll(m1, b);
    AppendAllOneEvent(m2, UpdateFooterRow, fs);
  }
}
