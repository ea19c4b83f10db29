/** The event vocabulary of the table's scheduler, the static cancellation table, and the
    pure "upsert" that queues a payload after deleting the events it supersedes. Both
    scheduler classes (`PackageEvents` and `LegacyEvents`) are specified by `Upsert`. */
module Events {

  datatype Event =
    | EventMount | EventUnmount
    | CreateAll
    | CreateHeadRows | CreateHeadRow | CreateHeadCell
    | CreateBodyRows | CreateBodyRow | CreateBodyCell
    | CreateFooterRows | CreateFooterRow | CreateFooterCell
    | UpdatePlugins | UpdateConfig | UpdateExtensions | UpdateAll | UpdateRows | UpdateEvents
    | UpdateCustomBody
    | UpdateData | UpdateDataItem
    | UpdateColumns | UpdateColumn
    | UpdateHeadRows | UpdateHeadRow | UpdateHeadCell
    | UpdateBodyRows | UpdateBodyRow | UpdateBodyCell
    | UpdateFooterRows | UpdateFooterRow | UpdateFooterCell

  /** The older scheduler's vocabulary lacks `update:custom-body`; otherwise the two agree. */
  predicate InLegacyVocabulary(e: Event) {
    e != UpdateCustomBody
  }

  /** The nine row and cell events of the three sections, creation and update alike. */
  predicate IsCreateSectionEvent(a: Event) {
    a.CreateHeadRows? || a.CreateHeadRow? || a.CreateHeadCell? ||
    a.CreateBodyRows? || a.CreateBodyRow? || a.CreateBodyCell? ||
    a.CreateFooterRows? || a.CreateFooterRow? || a.CreateFooterCell?
  }

  predicate IsUpdateSectionEvent(a: Event) {
    a.UpdateHeadRows? || a.UpdateHeadRow? || a.UpdateHeadCell? ||
    a.UpdateBodyRows? || a.UpdateBodyRow? || a.UpdateBodyCell? ||
    a.UpdateFooterRows? || a.UpdateFooterRow? || a.UpdateFooterCell?
  }

  /** The cancellation table: dispatching `e` deletes `a` from the queue. Events with an empty
      list in the table cancel nothing. */
  predicate Cancels(e: Event, a: Event) {
    match e
    case CreateAll =>
      IsCreateSectionEvent(a) || a.UpdateColumns? || a.UpdateColumn? || IsUpdateSectionEvent(a)
    case CreateHeadRows => a.CreateHeadRow? || a.CreateHeadCell?
    case CreateBodyRows => a.CreateBodyRow? || a.CreateBodyCell?
    case CreateFooterRows => a.CreateFooterRow? || a.CreateFooterCell?
    case UpdateAll =>
      a.UpdatePlugins? || a.UpdateConfig? || a.UpdateExtensions? || a.UpdateEvents? ||
      a.UpdateData? || a.UpdateDataItem? || a.UpdateColumns? || a.UpdateColumn? ||
      IsUpdateSectionEvent(a)
    case UpdateRows => IsUpdateSectionEvent(a)
    case UpdateData => a.UpdateDataItem?
    case UpdateColumns => a.UpdateColumn?
    case UpdateHeadRows => a.UpdateHeadRow? || a.UpdateHeadCell?
    case UpdateBodyRows => a.UpdateBodyRow? || a.UpdateBodyCell?
    case UpdateFooterRows => a.UpdateFooterRow? || a.UpdateFooterCell?
    case _ => false
  }

  /** No event cancels itself, and the table is one-way: if `e` cancels `a`, `a` does not cancel `e`. */
  lemma CancelIrreflexiveAndOneWay(e: Event, a: Event)
    ensures !Cancels(e, e)
    ensures Cancels(e, a) ==> !Cancels(a, e)
  {
  }

  /** The table is transitively closed: whatever a cancelled event would cancel is cancelled too. */
  lemma CancelTransitive(e: Event, a: Event, x: Event)
    requires Cancels(e, a) && Cancels(a, x)
    ensures Cancels(e, x)
  {
  }

  /** The table contains the chain `update:all` ⊇ `update:rows` ⊇ `update:body-rows`, yet
      `update:all` does not cancel `update:rows` or `update:custom-body`. */
  lemma UpdateChain(x: Event)
    ensures Cancels(UpdateBodyRows, x) ==> Cancels(UpdateRows, x)
    ensures Cancels(UpdateRows, x) ==> Cancels(UpdateAll, x)
    ensures !Cancels(UpdateAll, UpdateRows) && !Cancels(UpdateAll, UpdateCustomBody)
  {
  }

  /** Each section's `update:*-rows` event cancels exactly that section's row and cell events. */
  lemma SectionRowsCancelTheirOwn(x: Event)
    ensures Cancels(UpdateHeadRows, x) <==> x == UpdateHeadRow || x == UpdateHeadCell
    ensures Cancels(UpdateBodyRows, x) <==> x == UpdateBodyRow || x == UpdateBodyCell
    ensures Cancels(UpdateFooterRows, x) <==> x == UpdateFooterRow || x == UpdateFooterCell
  {
  }

  /** The same for the `create:*-rows` events. */
  lemma SectionCreatesCancelTheirOwn(x: Event)
    ensures Cancels(CreateHeadRows, x) <==> x == CreateHeadRow || x == CreateHeadCell
    ensures Cancels(CreateBodyRows, x) <==> x == CreateBodyRow || x == CreateBodyCell
    ensures Cancels(CreateFooterRows, x) <==> x == CreateFooterRow || x == CreateFooterCell
  {
  }

  /** The queue once every event `e` cancels is deleted from it. The table's lists are
      walked in order, but deletions commute, so only the set of deleted keys matters. */
  function Without<P>(m: map<Event, seq<P>>, e: Event): (r: map<Event, seq<P>>)
    ensures forall x :: x in r <==> x in m && !Cancels(e, x)
    ensures forall x :: x in r ==> r[x] == m[x]
  {
    map x | x in m && !Cancels(e, x) :: m[x]
  }

  /** The queue after `upsetEvent(e, p)`: the events `e` cancels are gone, `p` is appended to
      the payloads of `e` (a fresh one-element list if `e` was not queued), and every other
      queued event is untouched. */
  function Upsert<P>(m: map<Event, seq<P>>, e: Event, p: P): (r: map<Event, seq<P>>)
    ensures forall c :: Cancels(e, c) ==> c !in r
    ensures e in r && r[e] == (if e in m then m[e] + [p] else [p])
    ensures forall x :: x != e && !Cancels(e, x) ==> (x in r <==> x in m) && (x in m ==> r[x] == m[x])
  {
    CancelIrreflexiveAndOneWay(e, e);
    var kept := Without(m, e);
    if e in kept then kept[e := kept[e] + [p]] else kept[e := [p]]
  }

  /** The queue `m` after upserting `events` in order. */
  function UpsertAll<P>(m: map<Event, seq<P>>, events: seq<(Event, P)>): map<Event, seq<P>> {
    if events == [] then m
    else
      var last := events[|events| - 1];
      Upsert(UpsertAll(m, events[..|events| - 1]), last.0, last.1)
  }

  /** The queue built from an empty one by upserting `events` in order. */
  function Replay<P>(events: seq<(Event, P)>): map<Event, seq<P>> {
    UpsertAll(map[], events)
  }

  /** Dispatching the same event `n` times queues all `n` payloads, in order: nothing cancels itself. */
  lemma {:induction false} ReplaySameEvent<P>(e: Event, es: seq<(Event, P)>, ps: seq<P>)
    requires |ps| > 0 && |es| == |ps|
    requires forall i :: 0 <= i < |es| ==> es[i] == (e, ps[i])
    ensures e in Replay(es) && Replay(es)[e] == ps
  {
    var init := ps[..|ps| - 1];
    assert Replay(es) == Upsert(Replay(es[..|es| - 1]), e, ps[|ps| - 1]);
    if |ps| > 1 {
      ReplaySameEvent(e, es[..|es| - 1], init);
    }
    assert ps == init + [ps[|ps| - 1]];
  }

  /** Upserting into an empty queue gives the one-element queue. */
  lemma UpsertIntoEmpty<P>(e: Event, p: P)
    ensures Upsert(map[], e, p) == map[e := [p]]
  {
    var m: map<Event, seq<P>> := map[];
    assert Without(m, e) == m;
  }

  /** Whatever else is queued, an event queued after one that cancels it leaves that one in
      place with its payloads (`update:body-row` after `update:body-rows` keeps both), and an
      event queued after one it cancels removes it (`update:body-rows` after `update:body-row`
      keeps only the former). */
  lemma CancellationIsOneWay<P>(m: map<Event, seq<P>>, e: Event, x: Event, p: P)
    requires Cancels(e, x)
    ensures x !in Upsert(m, e, p)
    ensures e in m ==> e in Upsert(m, x, p) && Upsert(m, x, p)[e] == m[e]
  {
    CancelIrreflexiveAndOneWay(e, x);
    CancelIrreflexiveAndOneWay(e, e);
    assert e != x && !Cancels(x, e);
    var r := Upsert(m, x, p);
    assert e in m ==> e in r && r[e] == m[e];
  }
}
