/** The older engine's table (`src/core/BoringTable.ts`): its own event queue (append only, no
    cancellation), the decision table `compressEvents`, and `process`, which rebuilds whole
    sections or single rows according to what is queued. `process` is specified by the pure
    `ProcessSpec`; the zero-delay timer is the flag `timerPending` and its callback `Flush`. */
module LegacyTable {
  import opened Wrappers
  import opened Values
  import opened LegacyPluginBase
  import opened LegacyRows

  /** The engine's event names. Plugins also dispatch names outside this list
      (`update:extensions`); the queue accepts them and nothing reads them. */
  datatype TableEvent =
    | UpdateHeadRows | UpdateHeadRow | UpdateHeadCell
    | UpdateBodyRows | UpdateBodyRow | UpdateBodyCell
    | UpdateFooterRows | UpdateFooterRow | UpdateFooterCell
    | UpdateData | UpdateRows | UpdateAll
    | ResetAll | ResetRows | ChangeData | AddData
    | Unlisted(name: string)

  /** `update:extensions`, which the plugins dispatch and the table never reads. */
  const UpdateExtensions: TableEvent := Unlisted("update:extensions")

  function SectionRowsEvent(s: Section): TableEvent {
    match s
    case Head => UpdateHeadRows
    case Body => UpdateBodyRows
    case Footer => UpdateFooterRows
  }

  function SectionRowEvent(s: Section): TableEvent {
    match s
    case Head => UpdateHeadRow
    case Body => UpdateBodyRow
    case Footer => UpdateFooterRow
  }

  /** The object `compressEvents` returns. */
  datatype Plan = Plan(
    all: bool, data: bool, rows: bool,
    headRows: bool, bodyRows: bool, footerRows: bool,
    headRow: bool, headCell: bool, bodyRow: bool, bodyCell: bool, footerRow: bool, footerCell: bool)
  {
    function SectionRows(s: Section): bool {
      match s
      case Head => headRows
      case Body => bodyRows
      case Footer => footerRows
    }

    function SectionRow(s: Section): bool {
      match s
      case Head => headRow
      case Body => bodyRow
      case Footer => footerRow
    }
  }

  /** `compressEvents()` over the set of queued event names. */
  function Compress(q: set<TableEvent>): Plan {
    var all := UpdateAll in q;
    var data := UpdateData in q || all;
    var rows := UpdateRows in q || all;
    var headRows := UpdateHeadRows in q && !rows;
    var bodyRows := UpdateBodyRows in q && !rows;
    var footerRows := UpdateFooterRows in q && !rows;
    Plan(all, data, rows || (headRows && bodyRows && footerRows),
         headRows, bodyRows, footerRows,
         UpdateHeadRow in q && !rows, UpdateHeadCell in q && !rows,
         UpdateBodyRow in q && !rows, UpdateBodyCell in q && !rows,
         UpdateFooterRow in q && !rows, UpdateFooterCell in q && !rows)
  }

  /** With `update:all` queued, data and rows are to be updated and no section, row or cell. */
  lemma CompressUpdateAll(q: set<TableEvent>)
    requires UpdateAll in q
    ensures var w := Compress(q);
            w.all && w.data && w.rows &&
            !w.headRows && !w.bodyRows && !w.footerRows &&
            !w.headRow && !w.headCell && !w.bodyRow && !w.bodyCell && !w.footerRow && !w.footerCell
  {
  }

  /** All rows are rebuilt exactly when `update:all` or `update:rows` is queued, or the three
      section events together. */
  lemma CompressRowsIff(q: set<TableEvent>)
    ensures Compress(q).rows <==>
            UpdateAll in q || UpdateRows in q ||
            (UpdateHeadRows in q && UpdateBodyRows in q && UpdateFooterRows in q)
  {
  }

  /** A section, row or cell flag is set exactly when its event is queued and neither
      `update:all` nor `update:rows` is. */
  lemma CompressSectionIff(q: set<TableEvent>, s: Section)
    ensures Compress(q).SectionRows(s) <==> SectionRowsEvent(s) in q && UpdateAll !in q && UpdateRows !in q
    ensures Compress(q).SectionRow(s) <==> SectionRowEvent(s) in q && UpdateAll !in q && UpdateRows !in q
  {
  }

  /** The queue after `upsetEvent(e, p)`: `p` appended to the payloads of `e`, nothing removed. */
  function Append(m: map<TableEvent, seq<Value>>, e: TableEvent, p: Value): (r: map<TableEvent, seq<Value>>)
    ensures r.Keys == m.Keys + {e}
    ensures r[e] == (if e in m then m[e] + [p] else [p])
    ensures forall x :: x in m && x != e ==> r[x] == m[x]
  {
    if e in m then m[e := m[e] + [p]] else m[e := [p]]
  }

  /** The queue after the dispatches `es`, in order, on top of `m`. */
  function AppendAll(m: map<TableEvent, seq<Value>>, es: seq<(TableEvent, Value)>): map<TableEvent, seq<Value>> {
    if es == [] then m else Append(AppendAll(m, es[..|es| - 1]), es[|es| - 1].0, es[|es| - 1].1)
  }

  /** The payloads queued for `e`. */
  function Queued(m: map<TableEvent, seq<Value>>, e: TableEvent): seq<Value> {
    if e in m then m[e] else []
  }

  /** One dispatch of `e` per payload of `ps`, in order. */
  function Dispatches(e: TableEvent, ps: seq<Value>): seq<(TableEvent, Value)> {
    seq(|ps|, i requires 0 <= i < |ps| => (e, ps[i]))
  }

  /** Dispatching `e` once per payload appends the payloads to its queue, in order, and leaves
      every other event as it was. */
  lemma {:induction false} AppendAllOneEvent(m: map<TableEvent, seq<Value>>, e: TableEvent, ps: seq<Value>)
    ensures AppendAll(m, Dispatches(e, ps)) == if ps == [] then m else m[e := Queued(m, e) + ps]
  {
    if ps != [] {
      var n := |ps| - 1;
      var ds := Dispatches(e, ps);
      assert ds[..n] == Dispatches(e, ps[..n]);
      assert ds[n] == (e, ps[n]);
      AppendAllOneEvent(m, e, ps[..n]);
      assert ps[..n] + [ps[n]] == ps;
      AppendQueued(m, AppendAll(m, ds[..n]), e, ps[..n], ps[n]);
    }
  }

  /** One more payload of `e` on a queue that already holds `q` on top of `m`. */
  lemma AppendQueued(m: map<TableEvent, seq<Value>>, x: map<TableEvent, seq<Value>>, e: TableEvent, q: seq<Value>, p: Value)
    requires x == if q == [] then m else m[e := Queued(m, e) + q]
    ensures Append(x, e, p) == m[e := Queued(m, e) + (q + [p])]
  {
    if e in x {
      assert x[e] == Queued(m, e) + q;
      assert Append(x, e, p) == x[e := x[e] + [p]];
      if q != [] {
        assert x[e := x[e] + [p]] == m[e := Queued(m, e) + q + [p]];
      }
    } else {
      assert q == [] && e !in m;
      assert Append(x, e, p) == m[e := [p]];
      assert Queued(m, e) + (q + [p]) == [p];
    }
    assert Queued(m, e) + q + [p] == Queued(m, e) + (q + [p]);
  }

  /** Two runs of dispatches are the run of their concatenation. */
  lemma {:induction false} AppendAllConcat(m: map<TableEvent, seq<Value>>, a: seq<(TableEvent, Value)>, b: seq<(TableEvent, Value)>)
    ensures AppendAll(m, a + b) == AppendAll(AppendAll(m, a), b)
  {
    if b != [] {
      var n := |b| - 1;
      assert (a + b)[..|a + b| - 1] == a + b[..n];
      assert (a + b)[|a + b| - 1] == b[n];
      AppendAllConcat(m, a, b[..n]);
    } else {
      assert a + b == a;
    }
  }

  /** `data[i]`, which is `undefined` past the end. */
  function ItemAt(data: seq<Value>, i: nat): Value {
    if i < |data| then data[i] else Undefined
  }

  /** The row `update*Row` builds for position `i` of section `s`. */
  function Fresh(sc: Schema, data: seq<Value>, s: Section, i: nat): (r: Row)
    ensures r.index == i
  {
    CreateRow(sc, ItemAt(data, i), i, Some(s)).Pick(s)
  }

  /** What `const { position } = payload; const row = rows[position]` finds: destructuring
      `undefined` or `null` throws; a payload without a usable `position` finds no row. */
  datatype Lookup = Throws | Missing | At(n: nat)

  function Locate(payload: Value, count: nat): (r: Lookup)
    ensures r.At? ==> r.n < count
  {
    match payload
    case Undefined => Throws
    case Null => Throws
    case Obj(f) =>
      if "position" in f && f["position"].Num? && 0 <= f["position"].n < count then At(f["position"].n) else Missing
    case _ => Missing
  }

  datatype Update = Update(rows: seq<Row>, thrown: bool)

  /** The `for (const eventData of eventDatas)` loop of `update{Head,Body,Footer}Row`: each
      payload rebuilds the row at its position; the first payload that names no row ends the
      loop, and an `undefined` payload throws. */
  function RowUpdates(sc: Schema, data: seq<Value>, s: Section, rows: seq<Row>, payloads: seq<Value>): (r: Update)
    requires Indexed(rows)
    ensures Indexed(r.rows) && |r.rows| == |rows|
    ensures forall k :: 0 <= k < |rows| ==> r.rows[k] == rows[k] || r.rows[k] == Fresh(sc, data, s, k)
    decreases |payloads|
  {
    if payloads == [] then Update(rows, false)
    else
      match Locate(payloads[0], |rows|)
      case Throws => Update(rows, true)
      case Missing => Update(rows, false)
      case At(n) =>
        var i := rows[n].index;
        var next := RowUpdates(sc, data, s, rows[i := Fresh(sc, data, s, i)], payloads[1..]);
        assert forall j :: 0 <= j < |payloads| - 1 ==> payloads[1..][j] == payloads[j + 1];
        next
  }

  /** A row no payload names is left as it was. */
  lemma {:induction false} RowUpdatesKeepUnnamedRow(sc: Schema, data: seq<Value>, s: Section, rows: seq<Row>, payloads: seq<Value>, k: nat)
    requires Indexed(rows) && k < |rows|
    requires forall j :: 0 <= j < |payloads| ==> Locate(payloads[j], |rows|) != At(k)
    ensures RowUpdates(sc, data, s, rows, payloads).rows[k] == rows[k]
    decreases |payloads|
  {
    if payloads != [] {
      var l := Locate(payloads[0], |rows|);
      if l.At? {
        assert l.n != k;
        var rows' := rows[l.n := Fresh(sc, data, s, l.n)];
        assert rows'[k] == rows[k] && |rows'| == |rows|;
        forall j | 0 <= j < |payloads[1..]|
          ensures Locate(payloads[1..][j], |rows'|) != At(k)
        {
          assert payloads[1..][j] == payloads[j + 1];
        }
        RowUpdatesKeepUnnamedRow(sc, data, s, rows', payloads[1..], k);
        assert RowUpdates(sc, data, s, rows, payloads) == RowUpdates(sc, data, s, rows', payloads[1..]);
      }
    }
  }

  /** The loop throws only when some payload is `undefined` or `null`. */
  lemma {:induction false} RowUpdatesThrowOnlyOnNullish(sc: Schema, data: seq<Value>, s: Section, rows: seq<Row>, payloads: seq<Value>)
    requires Indexed(rows)
    ensures RowUpdates(sc, data, s, rows, payloads).thrown ==>
              exists j :: 0 <= j < |payloads| && Locate(payloads[j], |rows|) == Throws
    decreases |payloads|
  {
    if payloads != [] {
      var l := Locate(payloads[0], |rows|);
      if l.Throws? {
        assert Locate(payloads[0], |rows|) == Throws;
      } else if l.At? {
        var rows' := rows[l.n := Fresh(sc, data, s, l.n)];
        RowUpdatesThrowOnlyOnNullish(sc, data, s, rows', payloads[1..]);
        assert RowUpdates(sc, data, s, rows, payloads) == RowUpdates(sc, data, s, rows', payloads[1..]);
        if RowUpdates(sc, data, s, rows, payloads).thrown {
          var j :| 0 <= j < |payloads[1..]| && Locate(payloads[1..][j], |rows'|) == Throws;
          assert Locate(payloads[j + 1], |rows|) == Throws;
        }
      }
    }
  }

  /** Payloads that carry no `position` (such as `{ rowIndex }`) rebuild nothing and do not throw. */
  lemma PositionlessPayloadsChangeNothing(sc: Schema, data: seq<Value>, s: Section, rows: seq<Row>, payloads: seq<Value>)
    requires Indexed(rows)
    requires forall j :: 0 <= j < |payloads| ==> payloads[j].Obj? && "position" !in payloads[j].fields
    ensures RowUpdates(sc, data, s, rows, payloads) == Update(rows, false)
  {
    var r := RowUpdates(sc, data, s, rows, payloads);
    RowUpdatesThrowOnlyOnNullish(sc, data, s, rows, payloads);
    forall k | 0 <= k < |rows|
      ensures r.rows[k] == rows[k]
    {
      RowUpdatesKeepUnnamedRow(sc, data, s, rows, payloads, k);
    }
  }

  /** Row events change nothing in a section whose every row is already the row they would
      rebuild for its position. */
  lemma {:induction false} RowUpdatesOnFreshRows(sc: Schema, data: seq<Value>, s: Section, rows: seq<Row>, payloads: seq<Value>)
    requires Indexed(rows)
    requires forall n :: 0 <= n < |rows| ==> rows[n] == Fresh(sc, data, s, n)
    requires forall j :: 0 <= j < |payloads| ==> !Locate(payloads[j], 0).Throws?
    ensures RowUpdates(sc, data, s, rows, payloads) == Update(rows, false)
    decreases |payloads|
  {
    if payloads != [] {
      var l := Locate(payloads[0], |rows|);
      assert !l.Throws? by {
        assert !Locate(payloads[0], 0).Throws?;
      }
      if l.At? {
        var n := l.n;
        assert rows[rows[n].index := Fresh(sc, data, s, n)] == rows;
        assert forall j :: 0 <= j < |payloads| - 1 ==> payloads[1..][j] == payloads[j + 1];
        RowUpdatesOnFreshRows(sc, data, s, rows, payloads[1..]);
      }
    }
  }

  /** After a full rebuild with the same data, row events change nothing: the row rebuilt for
      a position is the row the full rebuild already put there. */
  lemma RowUpdatesAfterFullRebuild(sc: Schema, data: seq<Value>, s: Section, payloads: seq<Value>)
    requires forall j :: 0 <= j < |payloads| ==> !Locate(payloads[j], 0).Throws?
    ensures var rows := CreateRows(sc, data, None).Pick(s);
            Indexed(rows) && RowUpdates(sc, data, s, rows, payloads) == Update(rows, false)
  {
    var rows := CreateRows(sc, data, None).Pick(s);
    CreateRowsIndexed(sc, data, None);
    CreateRowsFooter(sc, data, None);
    forall n | 0 <= n < |rows|
      ensures rows[n] == Fresh(sc, data, s, n)
    {
      assert ItemAt(data, n) == data[n];
      assert rows[n] == CreateRow(sc, data[n], n, None).Pick(s);
      SectionRebuildAgrees(sc, data[n], n, s, if s == Head then Body else Head);
    }
    RowUpdatesOnFreshRows(sc, data, s, rows, payloads);
  }

  /** The loop of `update{Head,Body,Footer}Row` over a section's rows: the rows it leaves and
      whether a payload threw are those `RowUpdates` describes. */
  method ApplyRowUpdates(sc: Schema, data: seq<Value>, s: Section, rows0: seq<Row>, payloads: seq<Value>)
    returns (rows: seq<Row>, thrown: bool)
    requires Indexed(rows0)
    ensures Indexed(rows)
    ensures RowUpdates(sc, data, s, rows0, payloads) == Update(rows, thrown)
  {
    rows := rows0;
    thrown := false;
    var i := 0;
    while i < |payloads|
      invariant 0 <= i <= |payloads|
      invariant Indexed(rows)
      invariant RowUpdates(sc, data, s, rows0, payloads) == RowUpdates(sc, data, s, rows, payloads[i..])
    {
      match Locate(payloads[i], |rows|)
      case Throws =>
        thrown := true;
        return;
      case Missing =>
        return;
      case At(n) =>
        var index := rows[n].index;
        assert payloads[i..][1..] == payloads[i + 1..];
        rows := rows[index := Fresh(sc, data, s, index)];
        i := i + 1;
    }
  }

  datatype Processed = Processed(sections: Sections, thrown: bool)

  /** The section after the rebuild step of `process`. */
  function Rebuilt(sc: Schema, data: seq<Value>, w: Plan, s: Section, current: seq<Row>): (r: seq<Row>)
    requires Indexed(current)
    ensures Indexed(r)
  {
    var from := if w.rows then None else Some(s);
    if w.rows || w.SectionRows(s) then
      CreateRowsIndexed(sc, data, from);
      CreateRows(sc, data, from).Pick(s)
    else current
  }

  /** The row step of `process` for section `s`. */
  function Patched(sc: Schema, data: seq<Value>, events: map<TableEvent, seq<Value>>, w: Plan, s: Section, rows: seq<Row>): (r: Update)
    requires Indexed(rows)
    ensures Indexed(r.rows)
  {
    if w.SectionRow(s) && SectionRowEvent(s) in events
    then RowUpdates(sc, data, s, rows, events[SectionRowEvent(s)])
    else Update(rows, false)
  }

  /** `process()`: rebuild whatever whole sections the plan says, then apply the head, body and
      footer row events in that order, stopping at the first one that throws. */
  function ProcessSpec(sc: Schema, data: seq<Value>, events: map<TableEvent, seq<Value>>, cur: Sections): (r: Processed)
    requires Indexed(cur.head) && Indexed(cur.body) && Indexed(cur.footer)
    ensures Indexed(r.sections.head) && Indexed(r.sections.body) && Indexed(r.sections.footer)
  {
    var w := Compress(events.Keys);
    var h := Rebuilt(sc, data, w, Head, cur.head);
    var b := Rebuilt(sc, data, w, Body, cur.body);
    var f := Rebuilt(sc, data, w, Footer, cur.footer);
    var hu := Patched(sc, data, events, w, Head, h);
    if hu.thrown then Processed(Sections(hu.rows, b, f), true)
    else
      var bu := Patched(sc, data, events, w, Body, b);
      if bu.thrown then Processed(Sections(hu.rows, bu.rows, f), true)
      else
        var fu := Patched(sc, data, events, w, Footer, f);
        Processed(Sections(hu.rows, bu.rows, fu.rows), fu.thrown)
  }

  predicate SectionsIndexed(cur: Sections) {
    Indexed(cur.head) && Indexed(cur.body) && Indexed(cur.footer)
  }

  /** An empty queue changes nothing: this is what `reset()` processes when no plugin dispatches. */
  lemma ProcessNothingQueued(sc: Schema, data: seq<Value>, cur: Sections)
    requires SectionsIndexed(cur)
    ensures ProcessSpec(sc, data, map[], cur) == Processed(cur, false)
  {
  }

  /** `update:data` alone rebuilds nothing, because `updateData` does nothing. */
  lemma ProcessDataOnlyRebuildsNothing(sc: Schema, data: seq<Value>, cur: Sections, ps: seq<Value>)
    requires SectionsIndexed(cur)
    ensures ProcessSpec(sc, data, map[UpdateData := ps], cur) == Processed(cur, false)
  {
    var events := map[UpdateData := ps];
    assert events.Keys == {UpdateData};
    var w := Compress(events.Keys);
    assert !w.rows && !w.headRows && !w.bodyRows && !w.footerRows;
    assert !w.headRow && !w.bodyRow && !w.footerRow;
  }

  /** `update:all` rebuilds every section from the data and does not throw, whatever else is queued. */
  lemma ProcessUpdateAll(sc: Schema, data: seq<Value>, events: map<TableEvent, seq<Value>>, cur: Sections)
    requires SectionsIndexed(cur) && UpdateAll in events
    ensures ProcessSpec(sc, data, events, cur) == Processed(CreateRows(sc, data, None), false)
  {
    CompressUpdateAll(events.Keys);
  }

  /** The payload `{ position }` the hidden-row plugin sends with a row event. */
  function PositionPayload(p: int): Value {
    Obj(map["position" := Num(p)])
  }

  /** The payload `{ rowIndex }` the check and change plugins send with a row event. */
  function RowIndexPayload(i: Value): Value {
    Obj(map["rowIndex" := i])
  }

  /** A row event whose payload says `rowIndex` rather than `position`, as the check and change
      plugins send it, leaves every section as it was. */
  lemma ProcessRowIndexPayloads(sc: Schema, data: seq<Value>, cur: Sections, s: Section, i: Value)
    requires SectionsIndexed(cur)
    ensures ProcessSpec(sc, data, map[SectionRowEvent(s) := [RowIndexPayload(i)]], cur) == Processed(cur, false)
  {
    ProcessOneRowEvent(sc, data, cur, s, [RowIndexPayload(i)]);
    PositionlessPayloadsChangeNothing(sc, data, s, cur.Pick(s), [RowIndexPayload(i)]);
    assert Replaced(cur, s, cur.Pick(s)) == cur;
  }

  /** The sections with those of `s` replaced. */
  function Replaced(cur: Sections, s: Section, rows: seq<Row>): (r: Sections)
    ensures r.Pick(s) == rows
    ensures forall t: Section :: t != s ==> r.Pick(t) == cur.Pick(t)
  {
    match s
    case Head => cur.(head := rows)
    case Body => cur.(body := rows)
    case Footer => cur.(footer := rows)
  }

  /** With only the row event of section `s` queued, `process` runs that section's row loop and
      touches no other section. */
  lemma ProcessOneRowEvent(sc: Schema, data: seq<Value>, cur: Sections, s: Section, ps: seq<Value>)
    requires SectionsIndexed(cur)
    ensures var u := RowUpdates(sc, data, s, cur.Pick(s), ps);
            ProcessSpec(sc, data, map[SectionRowEvent(s) := ps], cur) == Processed(Replaced(cur, s, u.rows), u.thrown)
  {
    var events := map[SectionRowEvent(s) := ps];
    var w := Compress(events.Keys);
    assert events.Keys == {SectionRowEvent(s)};
    assert !w.rows && !w.headRows && !w.bodyRows && !w.footerRows;
    match s
    case Head =>
      assert w.headRow && !w.bodyRow && !w.footerRow;
    case Body =>
      assert !w.headRow && w.bodyRow && !w.footerRow;
    case Footer =>
      assert !w.headRow && !w.bodyRow && w.footerRow;
  }

  /** A row event whose payload names an existing position rebuilds exactly the row at that
      position of its section from the data, and nothing else. */
  lemma ProcessPositionPayload(sc: Schema, data: seq<Value>, cur: Sections, s: Section, p: nat)
    requires SectionsIndexed(cur) && p < |cur.Pick(s)|
    ensures ProcessSpec(sc, data, map[SectionRowEvent(s) := [PositionPayload(p)]], cur) ==
              Processed(Replaced(cur, s, cur.Pick(s)[p := Fresh(sc, data, s, p)]), false)
  {
    ProcessOneRowEvent(sc, data, cur, s, [PositionPayload(p)]);
    RowUpdatesAtPosition(sc, data, s, cur.Pick(s), p);
  }

  /** One `{ position }` payload inside the section rebuilds the row at that position. */
  lemma RowUpdatesAtPosition(sc: Schema, data: seq<Value>, s: Section, rows: seq<Row>, p: nat)
    requires Indexed(rows) && p < |rows|
    ensures RowUpdates(sc, data, s, rows, [PositionPayload(p)]) == Update(rows[p := Fresh(sc, data, s, p)], false)
  {
    assert Locate(PositionPayload(p), |rows|) == At(p);
    assert rows[p].index == p;
    assert [PositionPayload(p)][1..] == [];
  }

  /** A row event without a payload makes `process` throw. */
  lemma ProcessUndefinedPayloadThrows(sc: Schema, data: seq<Value>, cur: Sections)
    requires SectionsIndexed(cur)
    ensures ProcessSpec(sc, data, map[UpdateHeadRow := [Undefined]], cur).thrown
  {
    assert map[UpdateHeadRow := [Undefined]].Keys == {UpdateHeadRow};
  }

  /** The configuration the table keeps: `configure(this)` of every plugin, later ones winning. */
  function ConfigOf(plugins: seq<Plugin>): Bag {
    Merge(seq(|plugins|, i requires 0 <= i < |plugins| => plugins[i].configured))
  }

  function ExtensionsOf(plugins: seq<Plugin>): Bag {
    Merge(seq(|plugins|, i requires 0 <= i < |plugins| => plugins[i].extension))
  }

  /** On a key several plugins configure or extend, the last of them decides the value. */
  lemma ConfigureLaterWins(plugins: seq<Plugin>, i: nat, k: string)
    requires i < |plugins| && k in plugins[i].configured && k in plugins[i].extension
    requires forall j :: i < j < |plugins| ==> k !in plugins[j].configured && k !in plugins[j].extension
    ensures k in ConfigOf(plugins) && ConfigOf(plugins)[k] == plugins[i].configured[k]
    ensures k in ExtensionsOf(plugins) && ExtensionsOf(plugins)[k] == plugins[i].extension[k]
  {
    MergeLastWins(seq(|plugins|, i requires 0 <= i < |plugins| => plugins[i].configured), i, k);
    MergeLastWins(seq(|plugins|, i requires 0 <= i < |plugins| => plugins[i].extension), i, k);
  }

  class BoringTable {
    var data: array<Value>
    var columns: seq<Column>
    var getId: Value -> string
    var plugins: seq<Plugin>
    var events: map<TableEvent, seq<Value>>
    var hasScheduledUpdate: bool
    /** A timer is set and has not fired yet. */
    var timerPending: bool
    var config: Bag
    var extensions: Bag
    var head: seq<Row>
    var body: seq<Row>
    var footer: seq<Row>

    /** Every row sits at its index, and a pending timer belongs to a scheduled batch. */
    predicate Valid()
      reads this
    {
      Indexed(head) && Indexed(body) && Indexed(footer) && (timerPending ==> hasScheduledUpdate)
    }

    function Schema(): Schema
      reads this
    {
      LegacyRows.Schema(columns, plugins, getId)
    }

    function Current(): Sections
      reads this
    {
      Sections(head, body, footer)
    }

    function Rows(s: Section): seq<Row>
      reads this
    {
      match s
      case Head => head
      case Body => body
      case Footer => footer
    }

    /** The constructor configures the plugins and dispatches `update:all`. */
    constructor (data: array<Value>, columns: seq<Column>, plugins: seq<Plugin>, getId: Value -> string)
      ensures Valid()
      ensures this.data == data && this.columns == columns && this.plugins == plugins && this.getId == getId
      ensures config == ConfigOf(plugins) && extensions == ExtensionsOf(plugins)
      ensures events == map[UpdateAll := [Undefined]] && hasScheduledUpdate && timerPending
      ensures head == [] && body == [] && footer == []
    {
      this.data := data;
      this.columns := columns;
      this.getId := getId;
      this.plugins := plugins;
      events := map[];
      hasScheduledUpdate := false;
      timerPending := false;
      config := map[];
      extensions := map[];
      head, body, footer := [], [], [];
      new;
      Configure();
      Dispatch(UpdateAll, Undefined);
    }

    /** `configure()`: folds the plugins' `configure` and `extend` results, later ones winning. */
    method Configure()
      modifies this
      ensures config == ConfigOf(plugins) && extensions == ExtensionsOf(plugins)
      ensures data == old(data) && columns == old(columns) && plugins == old(plugins) && getId == old(getId)
      ensures events == old(events) && hasScheduledUpdate == old(hasScheduledUpdate) && timerPending == old(timerPending)
      ensures Current() == old(Current())
    {
      config := ConfigOf(plugins);
      extensions := ExtensionsOf(plugins);
    }

    /** `upsetEvent` then, for the first dispatch of a batch, the flag and the timer. */
    method Dispatch(e: TableEvent, payload: Value)
      modifies this
      requires Valid()
      ensures Valid()
      ensures events == Append(old(events), e, payload)
      ensures hasScheduledUpdate && timerPending == (old(timerPending) || !old(hasScheduledUpdate))
      ensures data == old(data) && columns == old(columns) && plugins == old(plugins) && getId == old(getId)
      ensures config == old(config) && extensions == old(extensions) && Current() == old(Current())
    {
      events := Append(events, e, payload);
      if !hasScheduledUpdate {
        hasScheduledUpdate := true;
        timerPending := true;
      }
    }

    method SetRows(s: Section, rows: seq<Row>)
      modifies this
      requires Valid() && Indexed(rows)
      ensures Valid()
      ensures Rows(s) == rows
      ensures s != Head ==> head == old(head)
      ensures s != Body ==> body == old(body)
      ensures s != Footer ==> footer == old(footer)
      ensures data == old(data) && columns == old(columns) && plugins == old(plugins) && getId == old(getId)
      ensures events == old(events) && hasScheduledUpdate == old(hasScheduledUpdate) && timerPending == old(timerPending)
      ensures config == old(config) && extensions == old(extensions)
    {
      match s
      case Head => head := rows;
      case Body => body := rows;
      case Footer => footer := rows;
    }

    /** `update{Head,Body,Footer}Row()`: rewrites, for each queued payload in turn, the row
        slot its position names. The writes made before a payload throws stay in place. */
    method UpdateSectionRow(s: Section) returns (thrown: bool)
      modifies this
      requires Valid() && SectionRowEvent(s) in events
      ensures Valid()
      ensures var r := RowUpdates(old(Schema()), old(data[..]), s, old(Rows(s)), old(events[SectionRowEvent(s)]));
              Rows(s) == r.rows && thrown == r.thrown
      ensures s != Head ==> head == old(head)
      ensures s != Body ==> body == old(body)
      ensures s != Footer ==> footer == old(footer)
      ensures data == old(data) && columns == old(columns) && plugins == old(plugins) && getId == old(getId)
      ensures events == old(events) && hasScheduledUpdate == old(hasScheduledUpdate) && timerPending == old(timerPending)
      ensures config == old(config) && extensions == old(extensions)
    {
      var rows;
      rows, thrown := ApplyRowUpdates(Schema(), data[..], s, Rows(s), events[SectionRowEvent(s)]);
      SetRows(s, rows);
    }

    /** The rebuild step of `process`: every section the plan names is rebuilt from the data. */
    method Rebuild(w: Plan)
      modifies this
      requires Valid()
      ensures Valid()
      ensures head == Rebuilt(old(Schema()), old(data[..]), w, Head, old(head))
      ensures body == Rebuilt(old(Schema()), old(data[..]), w, Body, old(body))
      ensures footer == Rebuilt(old(Schema()), old(data[..]), w, Footer, old(footer))
      ensures data == old(data) && columns == old(columns) && plugins == old(plugins) && getId == old(getId)
      ensures events == old(events) && hasScheduledUpdate == old(hasScheduledUpdate) && timerPending == old(timerPending)
      ensures config == old(config) && extensions == old(extensions)
    {
      var sc, items := Schema(), data[..];
      head, body, footer := Rebuilt(sc, items, w, Head, head), Rebuilt(sc, items, w, Body, body), Rebuilt(sc, items, w, Footer, footer);
    }

    /** The row step of `process` for one section. */
    method PatchSection(w: Plan, s: Section) returns (thrown: bool)
      modifies this
      requires Valid()
      ensures Valid()
      ensures var r := Patched(old(Schema()), old(data[..]), old(events), w, s, old(Rows(s)));
              Rows(s) == r.rows && thrown == r.thrown
      ensures s != Head ==> head == old(head)
      ensures s != Body ==> body == old(body)
      ensures s != Footer ==> footer == old(footer)
      ensures data == old(data) && columns == old(columns) && plugins == old(plugins) && getId == old(getId)
      ensures events == old(events) && hasScheduledUpdate == old(hasScheduledUpdate) && timerPending == old(timerPending)
      ensures config == old(config) && extensions == old(extensions)
    {
      thrown := false;
      if w.SectionRow(s) && SectionRowEvent(s) in events {
        thrown := UpdateSectionRow(s);
      }
    }

    /** `process()`: the plan, the section rebuilds, then the row updates. The cell updates are
        empty methods and `updateData` has its body commented out, so neither appears. */
    method Process() returns (thrown: bool)
      modifies this
      requires Valid()
      ensures Valid()
      ensures var r := ProcessSpec(old(Schema()), old(data[..]), old(events), old(Current()));
              Current() == r.sections && thrown == r.thrown
      ensures data == old(data) && columns == old(columns) && plugins == old(plugins) && getId == old(getId)
      ensures events == old(events) && hasScheduledUpdate == old(hasScheduledUpdate) && timerPending == old(timerPending)
      ensures config == old(config) && extensions == old(extensions)
    {
      var w := Compress(events.Keys);
      ghost var sc, items := Schema(), data[..];
      Rebuild(w);
      ghost var h, b, f := head, body, footer;
      thrown := PatchSection(w, Head);
      assert head == Patched(sc, items, events, w, Head, h).rows;
      if thrown {
        assert Current() == Sections(head, b, f);
        return;
      }
      ghost var h2 := head;
      thrown := PatchSection(w, Body);
      assert body == Patched(sc, items, events, w, Body, b).rows;
      if thrown {
        assert Current() == Sections(h2, body, f);
        return;
      }
      ghost var b2 := body;
      thrown := PatchSection(w, Footer);
      assert Current() == Sections(h2, b2, footer);
    }

    /** The timer callback: `process()`, then the flag and the queue are reset. If `process`
        throws, the callback stops there: the flag stays set and the queue stays full. */
    method Flush() returns (thrown: bool)
      modifies this
      requires Valid() && timerPending
      ensures Valid() && !timerPending
      ensures var r := ProcessSpec(old(Schema()), old(data[..]), old(events), old(Current()));
              Current() == r.sections && thrown == r.thrown
      ensures !thrown ==> events == map[] && !hasScheduledUpdate
      ensures thrown ==> events == old(events) && hasScheduledUpdate
      ensures data == old(data) && columns == old(columns) && plugins == old(plugins) && getId == old(getId)
      ensures config == old(config) && extensions == old(extensions)
    {
      timerPending := false;
      thrown := Process();
      if thrown {
        return;
      }
      hasScheduledUpdate := false;
      events := map[];
    }

    /** `reset()`: empties the queue, lets the plugins' `onReset` run, and calls `process()`
        directly. The hooks dispatch `dispatchedOnReset` and leave `dataAfterReset` as the
        table's data (the change plugin puts its stored array there; without one it is the
        current array). */
    method Reset(dispatchedOnReset: seq<(TableEvent, Value)>, dataAfterReset: array<Value>) returns (thrown: bool)
      modifies this
      requires Valid()
      ensures Valid()
      ensures events == AppendAll(map[], dispatchedOnReset)
      ensures var r := ProcessSpec(old(Schema()), dataAfterReset[..], AppendAll(map[], dispatchedOnReset), old(Current()));
              Current() == r.sections && thrown == r.thrown
      ensures hasScheduledUpdate == (old(hasScheduledUpdate) || dispatchedOnReset != [])
      ensures timerPending == (old(timerPending) || (!old(hasScheduledUpdate) && dispatchedOnReset != []))
      ensures data == dataAfterReset && columns == old(columns) && plugins == old(plugins) && getId == old(getId)
      ensures config == old(config) && extensions == old(extensions)
    {
      events := map[];
      var i := 0;
      while i < |dispatchedOnReset|
        invariant 0 <= i <= |dispatchedOnReset|
        invariant Valid()
        invariant events == AppendAll(map[], dispatchedOnReset[..i])
        invariant hasScheduledUpdate == (old(hasScheduledUpdate) || i > 0)
        invariant timerPending == (old(timerPending) || (!old(hasScheduledUpdate) && i > 0))
        invariant Current() == old(Current()) && Schema() == old(Schema())
        invariant data == old(data) && columns == old(columns) && plugins == old(plugins) && getId == old(getId)
        invariant config == old(config) && extensions == old(extensions)
      {
        assert dispatchedOnReset[..i + 1][..i] == dispatchedOnReset[..i];
        Dispatch(dispatchedOnReset[i].0, dispatchedOnReset[i].1);
        i := i + 1;
      }
      assert dispatchedOnReset[..i] == dispatchedOnReset;
      data := dataAfterReset;
      thrown := Process();
    }
  }

  /** A `process` that throws leaves the table stuck: the flag stays set with no timer pending,
      so a later dispatch schedules nothing. */
  method ThrowingFlushStalls(data: array<Value>, columns: seq<Column>, plugins: seq<Plugin>, getId: Value -> string)
    returns (thrown: bool, scheduled: bool, pending: bool)
    ensures thrown && scheduled && !pending
  {
    var t := new BoringTable(data, columns, plugins, getId);
    t.Dispatch(UpdateHeadRow, Undefined);
    // `update:all` masks the row event: the first flush succeeds.
    ProcessUpdateAll(t.Schema(), t.data[..], t.events, t.Current());
    thrown := t.Flush();
    t.Dispatch(UpdateHeadRow, Undefined);
    assert t.events == map[UpdateHeadRow := [Undefined]];
    ProcessUndefinedPayloadThrows(t.Schema(), t.data[..], t.Current());
    thrown := t.Flush();
    t.Dispatch(UpdateBodyRows, Undefined);
    scheduled, pending := t.hasScheduledUpdate, t.timerPending;
  }
}
