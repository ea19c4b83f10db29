/** The first prototype's table class (`src/index.ts`). Its queue is a `Map` written with
    `set`, so an event keeps only its latest payload; the zero-delay timer is the flag
    `timerPending` and its callback `Flush`, which rebuilds every section and never empties
    the queue. */
module PrototypeTable {
  import opened Values
  import opened LegacyPluginBase
  import LegacyRows
  import LegacyTable
  import opened PrototypeRows

  /** The event names the prototype's plugins dispatch for a row of section `s`. */
  function RowEventName(s: Section): string {
    match s
    case Head => "update:head-row"
    case Body => "update:body-row"
    case Footer => "update:footer-row"
  }

  /** The queue after the three row events the plugins dispatch together, each without payload. */
  function WithRowEvents(events: map<string, Value>): map<string, Value> {
    events[RowEventName(Head) := Undefined][RowEventName(Body) := Undefined][RowEventName(Footer) := Undefined]
  }

  class Table {
    var data: array<Value>
    var columns: seq<Column>
    var getId: Value -> string
    var plugins: seq<Plugin>
    var config: Bag
    var extensions: Bag
    var events: map<string, Value>
    var hasScheduledUpdate: bool
    /** A timer is set and has not fired yet. */
    var timerPending: bool
    var head: seq<Row>
    var body: seq<Row>
    var footer: seq<Row>

    /** A pending timer belongs to a scheduled batch. */
    predicate Valid()
      reads this
    {
      timerPending ==> hasScheduledUpdate
    }

    function Schema(): Schema
      reads this
    {
      LegacyRows.Schema(columns, plugins, getId)
    }

    function Current(): Sections
      reads this
    {
      Sections(head, body, footer)
    }

    /** The constructor keeps the plugins when it is given some and configures them; it
        dispatches nothing, so no rows exist until a first dispatch is flushed. */
    constructor (data: array<Value>, columns: seq<Column>, plugins: seq<Plugin>, getId: Value -> string)
      ensures Valid()
      ensures this.data == data && this.columns == columns && this.plugins == plugins && this.getId == getId
      ensures config == LegacyTable.ConfigOf(plugins) && extensions == LegacyTable.ExtensionsOf(plugins)
      ensures events == map[] && !hasScheduledUpdate && !timerPending
      ensures head == [] && body == [] && footer == []
    {
      this.data := data;
      this.columns := columns;
      this.getId := getId;
      this.plugins := plugins;
      config := map[];
      extensions := map[];
      events := map[];
      hasScheduledUpdate := false;
      timerPending := false;
      head, body, footer := [], [], [];
      new;
      Configure();
    }

    /** `configure()`: both folds let the later plugin win a shared key. */
    method Configure()
      modifies this
      ensures config == LegacyTable.ConfigOf(plugins) && extensions == LegacyTable.ExtensionsOf(plugins)
      ensures data == old(data) && columns == old(columns) && plugins == old(plugins) && getId == old(getId)
      ensures events == old(events) && hasScheduledUpdate == old(hasScheduledUpdate) && timerPending == old(timerPending)
      ensures Current() == old(Current())
    {
      config := LegacyTable.ConfigOf(plugins);
      extensions := LegacyTable.ExtensionsOf(plugins);
    }

    /** `dispatch(event, payload)`: `events.set` replaces an earlier payload of the same event,
        and only the first dispatch of a batch sets a timer. */
    method Dispatch(e: string, payload: Value)
      modifies this
      requires Valid()
      ensures Valid()
      ensures events == old(events)[e := payload]
      ensures hasScheduledUpdate && timerPending == (old(timerPending) || !old(hasScheduledUpdate))
      ensures data == old(data) && columns == old(columns) && plugins == old(plugins) && getId == old(getId)
      ensures config == old(config) && extensions == old(extensions) && Current() == old(Current())
    {
      events := events[e := payload];
      if !hasScheduledUpdate {
        hasScheduledUpdate := true;
        timerPending := true;
      }
    }

    /** A run of `dispatch` calls made in one go, in order. */
    method DispatchAll(ds: seq<(string, Value)>)
      modifies this
      requires Valid()
      ensures Valid()
      ensures events == Replayed(old(events), ds)
      ensures hasScheduledUpdate == (old(hasScheduledUpdate) || ds != [])
      ensures timerPending == (old(timerPending) || (!old(hasScheduledUpdate) && ds != []))
      ensures data == old(data) && columns == old(columns) && plugins == old(plugins) && getId == old(getId)
      ensures config == old(config) && extensions == old(extensions) && Current() == old(Current())
    {
      var i := 0;
      while i < |ds|
        invariant 0 <= i <= |ds|
        invariant Valid()
        invariant events == Replayed(old(events), ds[..i])
        invariant hasScheduledUpdate == (old(hasScheduledUpdate) || i > 0)
        invariant timerPending == (old(timerPending) || (!old(hasScheduledUpdate) && i > 0))
        invariant data == old(data) && columns == old(columns) && plugins == old(plugins) && getId == old(getId)
        invariant config == old(config) && extensions == old(extensions) && Current() == old(Current())
      {
        assert ds[..i + 1][..i] == ds[..i];
        Dispatch(ds[i].0, ds[i].1);
        i := i + 1;
      }
      assert ds[..i] == ds;
    }

    /** `process()`: every section is replaced by what `createRows` builds from the data. The
        creation hooks of the hidden and check plugins dispatch row and cell events while the
        rows are built (`createdDispatches`); they go through `dispatch`, so outside a batch
        they start a timer. The plugins' `beforeCreate` and `afterCreate` are not called here
        (see the filter plugin). */
    method Process(createdDispatches: seq<(string, Value)>)
      modifies this
      requires Valid()
      ensures Valid()
      ensures Current() == CreateRows(old(Schema()), old(data[..]))
      ensures events == Replayed(old(events), createdDispatches)
      ensures hasScheduledUpdate == (old(hasScheduledUpdate) || createdDispatches != [])
      ensures timerPending == (old(timerPending) || (!old(hasScheduledUpdate) && createdDispatches != []))
      ensures data == old(data) && columns == old(columns) && plugins == old(plugins) && getId == old(getId)
      ensures config == old(config) && extensions == old(extensions)
    {
      var rows := CreateRows(Schema(), data[..]);
      DispatchAll(createdDispatches);
      SetSections(rows);
    }

    method SetSections(rows: Sections)
      modifies this
      ensures Current() == rows
      ensures data == old(data) && columns == old(columns) && plugins == old(plugins) && getId == old(getId)
      ensures events == old(events) && hasScheduledUpdate == old(hasScheduledUpdate) && timerPending == old(timerPending)
      ensures config == old(config) && extensions == old(extensions)
    {
      head, body, footer := rows.head, rows.body, rows.footer;
    }

    /** The timer callback: `process()`, then the flag is cleared. The queue is never emptied:
        it keeps the batch and gains what the creation hooks dispatch, and since the flag is
        still set while they run, they start no second timer. */
    method Flush(createdDispatches: seq<(string, Value)>)
      modifies this
      requires Valid() && timerPending
      ensures Valid() && !timerPending && !hasScheduledUpdate
      ensures Current() == CreateRows(old(Schema()), old(data[..]))
      ensures events == Replayed(old(events), createdDispatches)
      ensures data == old(data) && columns == old(columns) && plugins == old(plugins) && getId == old(getId)
      ensures config == old(config) && extensions == old(extensions)
    {
      timerPending := false;
      Process(createdDispatches);
      hasScheduledUpdate := false;
    }

    /** `reset()`: a new, empty queue; the plugins' `onReset`, which dispatch
        `dispatchedOnReset` and leave `dataAfterReset` as the table's data (the change plugin
        puts its stored array there; without one it is the current array); then `process()`
        on that data, whose creation hooks dispatch `createdDispatches`. */
    method Reset(dispatchedOnReset: seq<(string, Value)>, dataAfterReset: array<Value>,
                 createdDispatches: seq<(string, Value)>)
      modifies this
      requires Valid()
      ensures Valid()
      ensures events == Replayed(Replayed(map[], dispatchedOnReset), createdDispatches)
      ensures data == dataAfterReset && Current() == CreateRows(old(Schema()), dataAfterReset[..])
      ensures hasScheduledUpdate == (old(hasScheduledUpdate) || dispatchedOnReset != [] || createdDispatches != [])
      ensures timerPending == (old(timerPending) || (!old(hasScheduledUpdate) && (dispatchedOnReset != [] || createdDispatches != [])))
      ensures columns == old(columns) && plugins == old(plugins) && getId == old(getId)
      ensures config == old(config) && extensions == old(extensions)
    {
      events := map[];
      DispatchAll(dispatchedOnReset);
      data := dataAfterReset;
      Process(createdDispatches);
    }
  }

  /** A sequence of dispatches, each replacing the payload of its event. */
  function Replayed(events: map<string, Value>, ds: seq<(string, Value)>): map<string, Value> {
    if ds == [] then events else Replayed(events, ds[..|ds| - 1])[ds[|ds| - 1].0 := ds[|ds| - 1].1]
  }

  /** The queue keeps, for each event, the payload of its last dispatch, and holds exactly the
      events dispatched. */
  lemma {:induction false} ReplayedKeepsLast(events: map<string, Value>, ds: seq<(string, Value)>, i: nat)
    requires i < |ds|
    requires forall j :: i < j < |ds| ==> ds[j].0 != ds[i].0
    ensures ds[i].0 in Replayed(events, ds) && Replayed(events, ds)[ds[i].0] == ds[i].1
  {
    var n := |ds| - 1;
    if i < n {
      assert ds[..n][i] == ds[i];
      ReplayedKeepsLast(events, ds[..n], i);
    }
  }

  /** Two dispatches of one event before the timer fires leave only the second payload, and
      only the first of them set a timer; the flush then leaves the queue in place. */
  method LatestPayloadWins(data: array<Value>, columns: seq<Column>, plugins: seq<Plugin>, getId: Value -> string,
                           e: string, p1: Value, p2: Value)
    returns (queued: map<string, Value>, afterFlush: map<string, Value>, scheduled: bool)
    ensures queued == map[e := p2]
    ensures afterFlush == map[e := p2] && !scheduled
  {
    var t := new Table(data, columns, plugins, getId);
    t.Dispatch(e, p1);
    t.Dispatch(e, p2);
    queued := t.events;
    assert map[e := p1][e := p2] == map[e := p2];
    t.Flush([]);
    afterFlush, scheduled := t.events, t.hasScheduledUpdate;
  }

  /** A creation hook that dispatches (the hidden plugin's body row) makes an idle table's
      `reset()` schedule a second `process()`; that flush dispatches again but, inside its own
      batch, starts no further timer and leaves the table idle. */
  method CreationDispatchSchedulesAfterReset(data: array<Value>, columns: seq<Column>, plugins: seq<Plugin>, getId: Value -> string)
    returns (scheduled: bool, pending: bool, scheduledAfterFlush: bool, pendingAfterFlush: bool)
    ensures scheduled && pending
    ensures !scheduledAfterFlush && !pendingAfterFlush
  {
    var t := new Table(data, columns, plugins, getId);
    var created := [(RowEventName(Body), Undefined)];
    t.Reset([], t.data, created);
    scheduled, pending := t.hasScheduledUpdate, t.timerPending;
    t.Flush(created);
    scheduledAfterFlush, pendingAfterFlush := t.hasScheduledUpdate, t.timerPending;
  }
}
