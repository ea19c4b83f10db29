/** The row-selection and hidden-rows plugins of the package (`RowSelection.ts` and
    `RowHidden.ts`). The two classes are the same code under different names: a map from
    `rawId` to the marked body row, a mark on each body row object (`selected` or `hidden`), and
    two summary flags, "some rows are marked" and "every row is marked", that the head rows show.
    `FlagPlugin` is that code once, with the names chosen by its `Variant`. */
module RowFlags {
  import opened Wrappers
  import opened Values
  import opened Seqs
  import opened Events
  import PluginBase
  import opened PackageHost

  /** `RowSelectPlugin` or `HiddenRowPlugin`. */
  datatype Variant = Selection | Hiding

  /** The names a variant uses: the mark on a body row, the two summary flags, the toggle a body
      row receives, the two batch actions, and the extension listing the marked rows. */
  datatype Names = Names(mark: string, some: string, every: string, toggle: string,
                         reset: string, markAll: string, rows: string)

  predicate DistinctNames(n: Names) {
    n.mark != n.toggle &&
    n.some != n.every && n.some != n.reset && n.some != n.markAll && n.some != n.rows &&
    n.every != n.reset && n.every != n.markAll && n.every != n.rows &&
    n.reset != n.markAll && n.reset != n.rows && n.markAll != n.rows
  }

  function NamesOf(v: Variant): (n: Names)
    ensures DistinctNames(n)
  {
    match v
    case Selection => Names("selected", "hasSelectedRows", "isAllSelected", "toggleSelect",
                            "resetSelections", "selectAll", "selectedRows")
    case Hiding => Names("hidden", "hasHidden", "isAllHidden", "toggleHidden",
                         "resetHidden", "hiddenAll", "hiddenRows")
  }

  /** `!!row[mark]`. */
  predicate IsMarked(fields: Bag, mark: string) {
    Truthy(Prop(fields, mark))
  }

  function Ids(rows: seq<RowObject>): set<string> {
    set r | r in rows :: r.rawId
  }

  /** The mark a batch gives a row with this id: `true` for every row, or whether the id is in
      the given set. */
  predicate Wants(want: Option<set<string>>, id: string) {
    want.None? || id in want.value
  }

  function WantedIds(rows: seq<RowObject>, want: Option<set<string>>): set<string> {
    set r | r in rows && Wants(want, r.rawId) :: r.rawId
  }

  /** Each of `rows` carries the mark exactly when `ids` holds its `rawId`. */
  predicate Agree(ids: set<string>, rows: seq<RowObject>, mark: string)
    reads rows
  {
    forall r :: r in rows ==> (r.rawId in ids <==> IsMarked(r.fields, mark))
  }

  /** No two positions of `rows` hold the same `rawId` (so no row object occurs twice either). */
  predicate UniqueIds(rows: seq<RowObject>) {
    forall i, j :: 0 <= i < j < |rows| ==> rows[i].rawId != rows[j].rawId
  }

  /** The dispatch log `log` after `update:head-rows` once for the "some" flag if it changed and
      once for the "every" flag if it changed, in that order. */
  function WithHeadRowsUpdates(log: seq<(Event, Value)>, someChanged: bool, everyChanged: bool): seq<(Event, Value)> {
    var afterSome := if someChanged then log + [(UpdateHeadRows, Undefined)] else log;
    if everyChanged then afterSome + [(UpdateHeadRows, Undefined)] else afterSome
  }

  /** The log after an announced toggle of the row at `index`: the row, the head-row updates of
      the flags that changed, the extensions. */
  function WithToggleEvents(log: seq<(Event, Value)>, index: nat, someChanged: bool, everyChanged: bool): seq<(Event, Value)> {
    WithHeadRowsUpdates(log + [(UpdateBodyRow, RowIndex(index))], someChanged, everyChanged) + [(UpdateExtensions, Undefined)]
  }

  /** The log after the tail of every batch action: `update:body-rows`, `update:head-rows`,
      `update:extensions`. */
  function WithBatchUpdates(log: seq<(Event, Value)>): seq<(Event, Value)> {
    log + [(UpdateBodyRows, Undefined)] + [(UpdateHeadRows, Undefined)] + [(UpdateExtensions, Undefined)]
  }

  /** How many of two flags changed. */
  function Count(a: bool, b: bool): nat {
    (if a then 1 else 0) + (if b then 1 else 0)
  }

  /** `k` dispatches of `update:head-rows`. */
  function HeadRowsUpdates(k: nat): (r: seq<(Event, Value)>)
    ensures |r| == k && forall i :: 0 <= i < k ==> r[i] == (UpdateHeadRows, Undefined)
  {
    if k == 0 then [] else HeadRowsUpdates(k - 1) + [(UpdateHeadRows, Undefined)]
  }

  /** The flag updates are one `update:head-rows` per changed flag, appended to the log. */
  lemma HeadRowsUpdatesCounted(log: seq<(Event, Value)>, someChanged: bool, everyChanged: bool)
    ensures WithHeadRowsUpdates(log, someChanged, everyChanged) == log + HeadRowsUpdates(Count(someChanged, everyChanged))
  {
    var h := (UpdateHeadRows, Undefined);
    if someChanged && everyChanged {
      assert HeadRowsUpdates(2) == [h, h];
    } else if someChanged || everyChanged {
      assert HeadRowsUpdates(1) == [h];
    } else {
      assert log + HeadRowsUpdates(0) == log;
    }
  }

  /** An announced toggle appends the row event, one head-row update per changed flag, and the
      extensions event, and a batch appends its three events, to what was dispatched before. */
  lemma ToggleEventsCounted(log: seq<(Event, Value)>, index: nat, someChanged: bool, everyChanged: bool)
    ensures var k := Count(someChanged, everyChanged);
            var t := WithToggleEvents(log, index, someChanged, everyChanged);
            |t| == |log| + 2 + k && t[..|log|] == log && t[|log|] == (UpdateBodyRow, RowIndex(index)) &&
            (forall i :: |log| < i <= |log| + k ==> t[i] == (UpdateHeadRows, Undefined)) &&
            t[|log| + 1 + k] == (UpdateExtensions, Undefined)
    ensures WithBatchUpdates(log) ==
            log + [(UpdateBodyRows, Undefined), (UpdateHeadRows, Undefined), (UpdateExtensions, Undefined)]
  {
    HeadRowsUpdatesCounted(log + [(UpdateBodyRow, RowIndex(index))], someChanged, everyChanged);
  }

  /** What `toggleBody(row, value, …)` does to the row's fields and to the ids of the map. */
  function MarkEffect(fields: Bag, keys: set<string>, id: string, mark: string, value: Option<bool>): (Bag, set<string>) {
    var v := value.GetOr(!IsMarked(fields, mark));
    (fields[mark := Bool(v)], if v then keys + {id} else keys - {id})
  }

  /** The row ends marked with `value`, or with the negation of its mark without one; the map holds
      the row's id exactly when the row is marked; nothing else of either changes. */
  lemma MarkEffectIs(fields: Bag, keys: set<string>, id: string, mark: string, value: Option<bool>)
    ensures var r, v := MarkEffect(fields, keys, id, mark, value), value.GetOr(!IsMarked(fields, mark));
            IsMarked(r.0, mark) == v && (id in r.1 <==> v) && r.1 - {id} == keys - {id} &&
            r.0.Keys == fields.Keys + {mark} && forall k :: k in fields && k != mark ==> r.0[k] == fields[k]
  {
  }

  /** Toggling a row that agrees with the map twice without a value restores both: the row's mark
      and the map's ids are as before. */
  lemma ToggleTwiceRestores(fields: Bag, keys: set<string>, id: string, mark: string)
    requires id in keys <==> IsMarked(fields, mark)
    ensures var once := MarkEffect(fields, keys, id, mark, None);
            var twice := MarkEffect(once.0, once.1, id, mark, None);
            twice.1 == keys && IsMarked(twice.0, mark) == IsMarked(fields, mark) && twice.0 - {mark} == fields - {mark}
  {
  }

  /** `rows.forEach((row) => { row[key] = v })`. */
  method SetField(rows: seq<RowObject>, key: string, v: Value)
    modifies rows
    ensures forall r :: r in rows ==> r.fields == old(r.fields)[key := v]
  {
    for i := 0 to |rows|
      invariant forall r :: r in rows[..i] ==> r.fields == old(r.fields)[key := v]
      invariant forall r :: r in rows && r !in rows[..i] ==> r.fields == old(r.fields)
    {
      var row := rows[i];
      row.fields := row.fields[key := v];
      assert rows[..i + 1] == rows[..i] + [row];
    }
    assert rows[..|rows|] == rows;
  }

  class FlagPlugin {
    const variant: Variant
    /** The names of `variant`, as the constructor sets them. */
    const names: Names
    /** `priority = BASE_PRIORITIES.DEFAULT`. */
    const priority: int
    var table: Table?
    /** The keys of `selectedRows` / `hiddenRows`, the map from `rawId` to marked row; the rows
        stored as its values are never read. */
    var marked: set<string>
    /** `hasSelectedRows` / `hasHidden`. */
    var some: bool
    /** `isAllSelected` / `isAllHidden`. */
    var every: bool

    constructor (variant: Variant)
      ensures this.variant == variant && names == NamesOf(variant) && priority == PluginBase.DefaultLevel
      ensures table == null && marked == {} && !some && !every
    {
      this.variant := variant;
      names := NamesOf(variant);
      priority := PluginBase.DefaultLevel;
      table := null;
      marked := {};
      some, every := false, false;
    }

    /** `configure(table)`: keeps the table and contributes nothing. */
    method Configure(t: Table) returns (r: Bag)
      modifies this
      ensures table == t && marked == old(marked) && some == old(some) && every == old(every) && r == map[]
    {
      table := t;
      r := map[];
    }

    /** `this.table?.body.length ?? 0`. */
    function BodyLength(): nat
      reads this, table
    {
      if table == null then 0 else |table.body|
    }

    /** The flags as `updateUtils` leaves them: some rows are marked when the map is not empty,
        and every row is when the map has at least as many entries as the body has rows. */
    predicate FlagsCurrent()
      reads this, table
    {
      some == (|marked| > 0) && every == (|marked| >= BodyLength() && some)
    }

    /** `updateUtils(ignoreEvent)`: brings both flags up to date and dispatches `update:head-rows`
        once for each flag that changed, unless `ignoreEvent`. */
    method UpdateUtils(ignoreEvent: bool)
      modifies this`some, this`every, if table != null then {table.log} else {}
      ensures FlagsCurrent()
      ensures table != null ==>
                table.log.entries ==
                  (if ignoreEvent then old(table.log.entries)
                   else WithHeadRowsUpdates(old(table.log.entries), old(some) != some, old(every) != every))
    {
      if ignoreEvent || table == null {
        RefreshFlags();
        return;
      }
      var hasAny := |marked| > 0;
      if some != hasAny {
        some := hasAny;
        table.Dispatch(UpdateHeadRows, Undefined);
      }
      var all := |marked| >= BodyLength() && some;
      if every != all {
        every := all;
        table.Dispatch(UpdateHeadRows, Undefined);
      }
    }

    /** `updateUtils(true)`, and `updateUtils` without a table: the flags are brought up to date
        and nothing is dispatched. */
    method RefreshFlags()
      modifies this`some, this`every
      ensures FlagsCurrent()
    {
      some := |marked| > 0;
      every := |marked| >= BodyLength() && some;
    }

    /** The first half of `toggleBody`: the row's mark becomes `v` and the map gains or loses the
        row's id to match. A `body` with unique ids that holds the row keeps agreeing with the map. */
    method SetMark(row: RowObject, v: bool, ghost body: seq<RowObject>)
      modifies this`marked, row
      ensures row.fields == old(row.fields)[names.mark := Bool(v)]
      ensures marked == if v then old(marked) + {row.rawId} else old(marked) - {row.rawId}
      ensures row in body && UniqueIds(body) && old(Agree(marked, body, names.mark)) ==>
                Agree(marked, body, names.mark)
    {
      row.fields := row.fields[names.mark := Bool(v)];
      if v {
        marked := marked + {row.rawId};
      } else {
        marked := marked - {row.rawId};
      }
      if row in body && UniqueIds(body) && old(Agree(marked, body, names.mark)) {
        forall r | r in body
          ensures r.rawId in marked <==> IsMarked(r.fields, names.mark)
        {
          if r != row {
            OtherId(body, r, row);
          }
        }
      }
    }

    /** `toggleBody(row, value, ignoreEvent)`: the row's mark becomes `value`, or the negation of
        its mark without one, and the map gains or loses the row's `rawId` to match; then the flags
        are updated. Unless `ignoreEvent`, the row is announced with `{ rowIndex }` before the
        flags are updated, and the extensions after. A body whose ids are unique and which holds
        the row stays consistent with the map. */
    method ToggleBody(row: RowObject, value: Option<bool>, ignoreEvent: bool)
      modifies this`marked, this`some, this`every, row, if table != null then {table.log} else {}
      ensures (row.fields, marked) == MarkEffect(old(row.fields), old(marked), row.rawId, names.mark, value)
      ensures FlagsCurrent()
      ensures table != null ==>
                table.log.entries ==
                  (if ignoreEvent then old(table.log.entries)
                   else WithToggleEvents(old(table.log.entries), row.index, old(some) != some, old(every) != every))
      ensures table != null && row in table.body && UniqueIds(table.body) &&
                old(Agree(marked, table.body, names.mark)) ==>
                  Agree(marked, table.body, names.mark)
    {
      ghost var effect := MarkEffect(row.fields, marked, row.rawId, names.mark, value);
      var v := value.GetOr(!IsMarked(row.fields, names.mark));
      SetMark(row, v, if table != null then table.body else []);
      assert (row.fields, marked) == effect;
      if ignoreEvent || table == null {
        RefreshFlags();
      } else {
        Announce(row.index);
      }
    }

    /** `toggleBody(row, v, true)`: the mark and the map as in `SetMark`, then the flags, with
        nothing dispatched. */
    method ToggleQuietly(row: RowObject, v: bool)
      modifies this`marked, this`some, this`every, row
      ensures row.fields == old(row.fields)[names.mark := Bool(v)]
      ensures marked == if v then old(marked) + {row.rawId} else old(marked) - {row.rawId}
      ensures FlagsCurrent()
    {
      SetMark(row, v, []);
      RefreshFlags();
    }

    /** The announced half of `toggleBody`: the row event, the flags, the extensions. */
    method Announce(index: nat)
      requires table != null
      modifies this`some, this`every, table.log
      ensures FlagsCurrent()
      ensures table.log.entries == WithToggleEvents(old(table.log.entries), index, old(some) != some, old(every) != every)
    {
      table.Dispatch(UpdateBodyRow, RowIndex(index));
      UpdateUtils(false);
      table.Dispatch(UpdateExtensions, Undefined);
    }

    /** `rows.forEach((row) => this.toggleBody(row, <mark>, true))`, the mark `true` for
        `selectAll` and `hiddenAll` and `selectedRows.has(row.rawId)` for `afterCreateBodyRows`: every
        row's mark becomes the one `want` gives its id, the map ends holding the wanted ids of the rows and the ids of no
        row it held before, and nothing is dispatched. */
    method ToggleRows(rows: seq<RowObject>, want: Option<set<string>>)
      modifies this`marked, this`some, this`every, rows
      ensures forall j :: 0 <= j < |rows| ==> rows[j].fields == old(rows[j].fields)[names.mark := Bool(Wants(want, rows[j].rawId))]
      ensures marked == KeysAfter(old(marked), rows, |rows|, want)
      ensures if rows == [] then some == old(some) && every == old(every) else FlagsCurrent()
    {
      ghost var orig := FieldsOf(rows);
      for i := 0 to |rows|
        invariant Progress(rows, orig, i, old(marked), old(some), old(every), want)
      {
        ToggleStep(rows, i, want, orig, old(marked), old(some), old(every));
      }
    }

    /** Where `ToggleRows` stands after `i` rows, from the map ids `keys0` and the flags `some0`
        and `every0` it started with. */
    predicate Progress(rows: seq<RowObject>, orig: seq<Bag>, i: nat, keys0: set<string>, some0: bool, every0: bool,
                       want: Option<set<string>>)
      reads this, table, rows
    {
      i <= |rows| == |orig| && FieldsPerObject(rows, orig) && Toggled(rows, orig, FieldsOf(rows), i, names.mark, want) &&
      marked == KeysAfter(keys0, rows, i, want) &&
      if i == 0 then some == some0 && every == every0 else FlagsCurrent()
    }

    /** One turn of `ToggleRows`: `toggleBody(rows[i], <mark>, true)`. */
    method ToggleStep(rows: seq<RowObject>, i: nat, want: Option<set<string>>, ghost orig: seq<Bag>,
                      ghost keys0: set<string>, ghost some0: bool, ghost every0: bool)
      requires i < |rows| && Progress(rows, orig, i, keys0, some0, every0, want)
      modifies this`marked, this`some, this`every, rows[i]
      ensures Progress(rows, orig, i + 1, keys0, some0, every0, want)
    {
      var row := rows[i];
      ghost var before := FieldsOf(rows);
      ToggleQuietly(row, Wants(want, row.rawId));
      ghost var after := FieldsOf(rows);
      forall j | 0 <= j < |rows|
        ensures after[j] == if rows[j] == row then before[i][names.mark := Bool(Wants(want, row.rawId))] else before[j]
      {
        assert after[j] == rows[j].fields;
      }
      ToggledStep(rows, orig, before, after, i, names.mark, want);
    }

    /** `selectAll()` / `hiddenAll()`: every body row is marked without a dispatch of its own, and
        the batch events follow. When the body has rows the flags are updated, and with unique ids
        every row is then marked. */
    method MarkAll()
      modifies this`marked, this`some, this`every, if table != null then {table.log} else {}, if table != null then table.body else []
      ensures table == null ==> marked == old(marked) && some == old(some) && every == old(every)
      ensures table != null ==> table.log.entries == WithBatchUpdates(old(table.log.entries))
      ensures table != null ==> forall j :: 0 <= j < |table.body| ==> table.body[j].fields == old(table.body[j].fields)[names.mark := Bool(true)]
      ensures table != null ==> marked == old(marked) + Ids(table.body)
      ensures table != null && table.body != [] ==> FlagsCurrent() && some
      ensures table != null && table.body != [] && UniqueIds(table.body) ==> every
    {
      if table == null {
        return;
      }
      var rows := table.body;
      ToggleRows(rows, None);
      AllMarked(old(marked), rows);
      DispatchBatch();
    }

    /** The tail of every batch action: `update:body-rows`, `update:head-rows`, `update:extensions`. */
    method DispatchBatch()
      requires table != null
      modifies table.log
      ensures table.log.entries == WithBatchUpdates(old(table.log.entries))
    {
      table.Dispatch(UpdateBodyRows, Undefined);
      table.Dispatch(UpdateHeadRows, Undefined);
      table.Dispatch(UpdateExtensions, Undefined);
    }

    /** The end of `resetSelections`, `resetHidden` and `afterCreateBodyRows`: `updateUtils(true)`
        and then the batch events. */
    method Settle()
      modifies this`some, this`every, if table != null then {table.log} else {}
      ensures FlagsCurrent()
      ensures table != null ==> table.log.entries == WithBatchUpdates(old(table.log.entries))
    {
      UpdateUtils(true);
      if table != null {
        DispatchBatch();
      }
    }

    /** `resetSelections()` / `resetHidden()`: the map is emptied, every body row loses its mark,
        both flags end false, and the batch events follow. */
    method ResetMarks()
      modifies this`marked, this`some, this`every, if table != null then {table.log} else {}, if table != null then table.body else []
      ensures marked == {} && !some && !every
      ensures table != null ==> table.log.entries == WithBatchUpdates(old(table.log.entries))
      ensures table != null ==> forall r :: r in table.body ==> r.fields == old(r.fields)[names.mark := Bool(false)]
      ensures table != null ==> Agree(marked, table.body, names.mark)
    {
      marked := {};
      if table != null {
        SetField(table.body, names.mark, Bool(false));
      }
      Settle();
    }

    /** `afterCreateBodyRows(rows)`: the map keeps exactly the ids it had that occur among the new
        rows, each new row is marked exactly when its id was in the map, the flags are updated, and
        the batch events follow. */
    method AfterCreateBodyRows(rows: seq<RowObject>) returns (r: Bag)
      modifies this`marked, this`some, this`every, rows, if table != null then {table.log} else {}
      ensures marked == old(marked) * Ids(rows)
      ensures forall j :: 0 <= j < |rows| ==> rows[j].fields == old(rows[j].fields)[names.mark := Bool(rows[j].rawId in old(marked))]
      ensures Agree(marked, rows, names.mark) && FlagsCurrent()
      ensures table != null ==> table.log.entries == WithBatchUpdates(old(table.log.entries))
      ensures r == map[]
    {
      KeepMarks(rows);
      Settle();
      r := map[];
    }

    /** The loop of `afterCreateBodyRows`: the map is emptied, and each row is toggled to whether
        its id was in the map before. */
    method KeepMarks(rows: seq<RowObject>)
      modifies this`marked, this`some, this`every, rows
      ensures marked == old(marked) * Ids(rows)
      ensures forall j :: 0 <= j < |rows| ==> rows[j].fields == old(rows[j].fields)[names.mark := Bool(rows[j].rawId in old(marked))]
      ensures Agree(marked, rows, names.mark)
    {
      var prev := marked;
      marked := {};
      ToggleRows(rows, Some(prev));
      KeptMarks(prev, rows);
      MarksAgree(prev, rows, names.mark);
    }

    /** `onCreateBodyRow(row)`: the row is marked exactly when the map holds its id, and it gets
        that mark and its toggle. */
    method OnCreateBodyRow(row: RowObject) returns (extra: Bag)
      requires DistinctNames(names)
      modifies row
      ensures row.fields == old(row.fields)[names.mark := Bool(row.rawId in marked)]
      ensures Agree(marked, [row], names.mark)
      ensures extra.Keys == {names.mark, names.toggle}
      ensures extra[names.mark] == Bool(row.rawId in marked) && extra[names.toggle].Opaque?
    {
      row.fields := row.fields[names.mark := Bool(row.rawId in marked)];
      extra := map[names.mark := Bool(row.rawId in marked), names.toggle := Opaque(0)];
    }

    /** `onCreateHeadRow()`: the two flags as they are now, and the two batch actions. */
    function HeadRowExtra(): (r: Bag)
      requires DistinctNames(names)
      reads this
      ensures r.Keys == {names.every, names.some, names.reset, names.markAll}
      ensures r[names.every] == Bool(every) && r[names.some] == Bool(some)
      ensures r[names.reset].Opaque? && r[names.markAll].Opaque?
    {
      map[names.every := Bool(every), names.some := Bool(some), names.reset := Opaque(0), names.markAll := Opaque(1)]
    }

    /** `onUpdateHeadRows(rows)`: every head row shows the two flags; its other fields stay. */
    method OnUpdateHeadRows(rows: seq<RowObject>)
      modifies rows
      ensures forall r :: r in rows ==> r.fields == old(r.fields)[names.every := Bool(every)][names.some := Bool(some)]
    {
      SetField(rows, names.every, Bool(every));
      SetField(rows, names.some, Bool(some));
    }

    /** The body rows whose id is in the map, in body order: `extend().selectedRows` or
        `extend().hiddenRows`. */
    function MarkedRows(): (r: seq<RowObject>)
      reads this, table
      ensures table == null ==> r == []
      ensures table != null ==> IsSubsequence(r, table.body)
      ensures forall i :: 0 <= i < |r| ==> r[i] in table.body && r[i].rawId in marked
      ensures table != null ==> forall i :: 0 <= i < |table.body| && table.body[i].rawId in marked ==> table.body[i] in r
    {
      var body := if table == null then [] else table.body;
      var ids := marked;
      FilterIsSubsequence(body, (x: RowObject) => x.rawId in ids);
      FilterKeepsPassing(body, (x: RowObject) => x.rawId in ids);
      Filter(body, (x: RowObject) => x.rawId in ids)
    }

    /** `extend()`: the two batch actions, the marked rows (as the objects they are now) and the
        two flags. */
    function Extension(): (r: Bag)
      reads this, table, MarkedRows()
      requires DistinctNames(names)
      ensures r.Keys == {names.reset, names.markAll, names.rows, names.some, names.every}
      ensures r[names.rows] == Arr(Snapshot(MarkedRows()))
      ensures r[names.some] == Bool(some) && r[names.every] == Bool(every)
      ensures r[names.reset].Opaque? && r[names.markAll].Opaque?
    {
      map[names.reset := Opaque(0), names.markAll := Opaque(1), names.rows := Arr(Snapshot(MarkedRows())),
          names.some := Bool(some), names.every := Bool(every)]
    }
  }

  /** Row objects as plain values: each one's fields as they are now. */
  function Snapshot(rows: seq<RowObject>): (r: seq<Value>)
    reads rows
    ensures |r| == |rows| && forall i :: 0 <= i < |rows| ==> r[i] == Obj(rows[i].fields)
  {
    if rows == [] then [] else Snapshot(rows[..|rows| - 1]) + [Obj(rows[|rows| - 1].fields)]
  }

  /** When the map and the body agree, the listed rows are exactly the marked body rows. */
  lemma MarkedRowsAreMarked(p: FlagPlugin, x: RowObject)
    requires p.table != null && Agree(p.marked, p.table.body, p.names.mark)
    ensures x in p.MarkedRows() <==> x in p.table.body && IsMarked(x.fields, p.names.mark)
  {
  }

  lemma FilterKeepsPassing<T>(s: seq<T>, p: T -> bool)
    ensures forall i :: 0 <= i < |s| && p(s[i]) ==> s[i] in Filter(s, p)
  {
    forall i | 0 <= i < |s| && p(s[i]) {
      FilterMembership(s, p, s[i]);
    }
  }

  lemma OtherId(rows: seq<RowObject>, r: RowObject, row: RowObject)
    requires UniqueIds(rows) && r in rows && row in rows && r != row
    ensures r.rawId != row.rawId
  {
    var i :| 0 <= i < |rows| && rows[i] == r;
    var j :| 0 <= j < |rows| && rows[j] == row;
    assert i != j;
    if i > j {
      assert rows[j].rawId != rows[i].rawId;
    }
  }

  /** The fields of each row object, as they are now. */
  function FieldsOf(rows: seq<RowObject>): (r: seq<Bag>)
    reads rows
    ensures |r| == |rows| && forall i :: 0 <= i < |rows| ==> r[i] == rows[i].fields
  {
    if rows == [] then [] else FieldsOf(rows[..|rows| - 1]) + [rows[|rows| - 1].fields]
  }

  /** `orig` gives the same fields to every position of the same row object. */
  predicate FieldsPerObject(rows: seq<RowObject>, orig: seq<Bag>)
    requires |rows| == |orig|
  {
    forall j, k :: 0 <= j < k < |rows| && rows[j] == rows[k] ==> orig[j] == orig[k]
  }

  /** The first `i` rows carry `want` of their id as their mark over the fields `orig` gives them
      in `cur`, and the later rows that are not among the first `i` still have their `orig` fields. */
  predicate Toggled(rows: seq<RowObject>, orig: seq<Bag>, cur: seq<Bag>, i: nat, mark: string, want: Option<set<string>>)
    requires i <= |rows| == |orig| == |cur|
  {
    (forall j :: 0 <= j < i ==> cur[j] == orig[j][mark := Bool(Wants(want, rows[j].rawId))]) &&
    forall j :: i <= j < |rows| && rows[j] !in rows[..i] ==> cur[j] == orig[j]
  }

  /** Toggling row `i` over the fields `before` it now has gives the mark over its `orig` fields,
      whether or not it was already toggled earlier; when that is all that changes (at every
      position of the same object), one more row is toggled. */
  lemma ToggledStep(rows: seq<RowObject>, orig: seq<Bag>, before: seq<Bag>, after: seq<Bag>, i: nat, mark: string,
                    want: Option<set<string>>)
    requires i < |rows| == |orig| == |before| == |after|
    requires FieldsPerObject(rows, orig) && FieldsPerObject(rows, before) && Toggled(rows, orig, before, i, mark, want)
    requires forall j :: 0 <= j < |rows| ==>
               after[j] == if rows[j] == rows[i] then before[i][mark := Bool(Wants(want, rows[i].rawId))] else before[j]
    ensures Toggled(rows, orig, after, i + 1, mark, want)
  {
    var v := Bool(Wants(want, rows[i].rawId));
    assert before[i][mark := v] == orig[i][mark := v] by {
      if rows[i] in rows[..i] {
        var k :| 0 <= k < i && rows[k] == rows[i];
        assert before[i] == before[k] == orig[k][mark := v];
        UpdateTwice(orig[i], mark, v);
      }
    }
    forall j | i + 1 <= j < |rows|
      ensures rows[j] in rows[..i + 1] <==> rows[j] in rows[..i] || rows[j] == rows[i]
    {
      PrefixGrows(rows, i, rows[j]);
    }
  }

  /** The ids a map holds after the first `n` rows are toggled one by one, each to `want` of its id. */
  function KeysAfter(keys: set<string>, rows: seq<RowObject>, n: nat, want: Option<set<string>>): set<string>
    requires n <= |rows|
  {
    if n == 0 then keys
    else
      var before := KeysAfter(keys, rows, n - 1, want);
      var id := rows[n - 1].rawId;
      if Wants(want, id) then before + {id} else before - {id}
  }

  /** Since `want` depends on the id alone, the order of the toggles does not matter: the wanted
      ids of the rows are in, their other ids are out, and ids of no row stay as they were. */
  lemma {:induction false} KeysAfterIs(keys: set<string>, rows: seq<RowObject>, n: nat, want: Option<set<string>>)
    requires n <= |rows|
    ensures KeysAfter(keys, rows, n, want) == (keys - Ids(rows[..n])) + WantedIds(rows[..n], want)
    ensures n == |rows| ==> KeysAfter(keys, rows, n, want) == (keys - Ids(rows)) + WantedIds(rows, want)
  {
    assert n == |rows| ==> rows[..n] == rows;
    if n > 0 {
      assert rows[..n] == rows[..n - 1] + [rows[n - 1]];
      KeysAfterIs(keys, rows, n - 1, want);
      IdsSnoc(rows[..n - 1], rows[n - 1], want);
    }
  }

  /** Marking every row adds all their ids; when there are rows the map is not empty, and with
      unique ids it holds at least as many ids as there are rows. */
  lemma AllMarked(keys: set<string>, rows: seq<RowObject>)
    ensures KeysAfter(keys, rows, |rows|, None) == keys + Ids(rows)
    ensures rows != [] ==> |KeysAfter(keys, rows, |rows|, None)| > 0
    ensures UniqueIds(rows) ==> |KeysAfter(keys, rows, |rows|, None)| >= |rows|
  {
    KeysAfterIs(keys, rows, |rows|, None);
    assert WantedIds(rows, None) == Ids(rows);
    if rows != [] {
      assert rows[0].rawId in Ids(rows);
    }
    if UniqueIds(rows) {
      UniqueIdsCount(rows);
      SubsetCard(Ids(rows), keys + Ids(rows));
    }
  }

  /** Starting from an empty map and marking the rows whose ids were in `prev` keeps exactly the
      ids of `prev` that belong to a row. */
  lemma KeptMarks(prev: set<string>, rows: seq<RowObject>)
    ensures KeysAfter({}, rows, |rows|, Some(prev)) == prev * Ids(rows)
  {
    KeysAfterIs({}, rows, |rows|, Some(prev));
    assert WantedIds(rows, Some(prev)) == prev * Ids(rows);
  }

  /** Rows each marked exactly when `ids` holds their id agree with the ids of `ids` that belong
      to a row. */
  lemma MarksAgree(ids: set<string>, rows: seq<RowObject>, mark: string)
    requires forall j :: 0 <= j < |rows| ==> mark in rows[j].fields && rows[j].fields[mark] == Bool(rows[j].rawId in ids)
    ensures Agree(ids * Ids(rows), rows, mark)
  {
    forall x | x in rows
      ensures x.rawId in ids * Ids(rows) <==> IsMarked(x.fields, mark)
    {
      var j :| 0 <= j < |rows| && rows[j] == x;
    }
  }

  lemma IdsSnoc(rows: seq<RowObject>, row: RowObject, want: Option<set<string>>)
    ensures Ids(rows + [row]) == Ids(rows) + {row.rawId}
    ensures WantedIds(rows + [row], want) == WantedIds(rows, want) + (if Wants(want, row.rawId) then {row.rawId} else {})
    ensures !Wants(want, row.rawId) ==> row.rawId !in WantedIds(rows, want)
  {
    assert forall x :: x in rows + [row] <==> x in rows || x == row;
  }

  lemma UpdateTwice(m: Bag, k: string, v: Value)
    ensures m[k := v][k := v] == m[k := v]
  {
  }

  /** Rows with unique ids have as many ids as rows. */
  lemma {:induction false} UniqueIdsCount(rows: seq<RowObject>)
    requires UniqueIds(rows)
    ensures |Ids(rows)| == |rows|
  {
    if rows != [] {
      var init, last := rows[..|rows| - 1], rows[|rows| - 1];
      assert rows == init + [last];
      assert UniqueIds(init) by {
        forall i, j | 0 <= i < j < |init|
          ensures init[i].rawId != init[j].rawId
        {
          assert init[i] == rows[i] && init[j] == rows[j];
        }
      }
      UniqueIdsCount(init);
      IdsSnoc(init, last, None);
      forall x | x in init
        ensures x.rawId != last.rawId
      {
        var i :| 0 <= i < |init| && init[i] == x;
        assert rows[i] == x;
      }
      assert Ids(rows) == Ids(init) + {last.rawId};
    }
  }

  lemma SubsetCard(a: set<string>, b: set<string>)
    requires a <= b
    ensures |a| <= |b|
  {
    if a != {} {
      var x :| x in a;
      SubsetCard(a - {x}, b - {x});
    }
  }
}
