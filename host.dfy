/** The package's table (`packages/boring-table-core`) as its plugins see it. The table class
    itself is not part of this model: the plugins read and reassign its `head`, `body`,
    `customBody`, `data` and `extensions` fields, mutate the row objects those hold, and call
    `dispatch`, which here records the event and its payload in order. */
module PackageHost {
  import opened Values
  import opened Events
  import LegacyPluginBase

  /** Head, body or footer. */
  type Section = LegacyPluginBase.Section

  /** The row event of a section: `update:head-row`, `update:body-row` or `update:footer-row`. */
  function RowUpdate(s: Section): (e: Event)
    ensures IsUpdateSectionEvent(e)
  {
    match s
    case Head => UpdateHeadRow
    case Body => UpdateBodyRow
    case Footer => UpdateFooterRow
  }

  /** The payload `{ rowIndex }`. */
  function RowIndex(i: int): (p: Value)
    ensures p.Obj? && Prop(p.fields, "rowIndex") == Num(i) && p.fields.Keys == {"rowIndex"}
  {
    Obj(map["rowIndex" := Num(i)])
  }

  /** A row object of the table. Its `rawId` and `index` are fixed when the table creates it;
      the plugins add and overwrite its other fields (`selected`, `hidden`, `isAllSelected`, …). */
  class RowObject {
    const rawId: string
    const index: nat
    var fields: Bag

    constructor (rawId: string, index: nat, fields: Bag)
      ensures this.rawId == rawId && this.index == index && this.fields == fields
    {
      this.rawId := rawId;
      this.index := index;
      this.fields := fields;
    }
  }

  /** What the table has been asked to dispatch: every `dispatch(event, payload)` so far, oldest
      first; no payload is `undefined`. It is an object of its own so that dispatching changes
      nothing else of the table. */
  class EventLog {
    var entries: seq<(Event, Value)>

    constructor ()
      ensures entries == []
    {
      entries := [];
    }
  }

  class Table {
    var head: seq<RowObject>
    var body: seq<RowObject>
    var customBody: seq<RowObject>
    var data: seq<Value>
    var extensions: Bag
    const log: EventLog

    constructor (head: seq<RowObject>, body: seq<RowObject>, customBody: seq<RowObject>, data: seq<Value>)
      ensures this.head == head && this.body == body && this.customBody == customBody && this.data == data
      ensures extensions == map[] && fresh(log) && log.entries == []
    {
      this.head := head;
      this.body := body;
      this.customBody := customBody;
      this.data := data;
      extensions := map[];
      log := new EventLog();
    }

    /** `dispatch(event, payload)`: recorded after everything dispatched before it. */
    method Dispatch(e: Event, p: Value)
      modifies log
      ensures log.entries == old(log.entries) + [(e, p)]
    {
      log.entries := log.entries + [(e, p)];
    }
  }
}
