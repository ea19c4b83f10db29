/** The scheduler of the current package (`packages/boring-table-core/src/core/BoringEvents.ts`).
    Dispatches are collected in a queue; the first dispatch of a batch starts a zero-delay timer
    whose callback runs `process` and then empties the queue. The timer is modelled by the flag
    `timerPending` and the callback by the method `Flush`. */
module PackageEvents {
  import opened Wrappers
  import opened Events

  class BoringEvents<P> {
    var events: map<Event, seq<P>>
    var hasScheduledUpdate: bool
    /** A timer is set and has not yet fired nor been cleared. */
    var timerPending: bool

    /** A pending timer belongs to a scheduled batch. */
    predicate Valid()
      reads this
    {
      timerPending ==> hasScheduledUpdate
    }

    /** The constructor queues `initialEvents` in order, through `upsetEvent`, and schedules nothing. */
    constructor (initialEvents: seq<(Event, P)>)
      ensures Valid()
      ensures events == Replay(initialEvents)
      ensures !hasScheduledUpdate && !timerPending
    {
      events := map[];
      hasScheduledUpdate := false;
      timerPending := false;
      new;
      var i := 0;
      while i < |initialEvents|
        invariant 0 <= i <= |initialEvents|
        invariant events == Replay(initialEvents[..i])
        invariant !hasScheduledUpdate && !timerPending
      {
        assert initialEvents[..i + 1][..i] == initialEvents[..i];
        UpsetEvent(initialEvents[i].0, initialEvents[i].1);
        i := i + 1;
      }
      assert initialEvents[..i] == initialEvents;
    }

    /** Deletes every event `e` cancels, then appends `payload` to the payloads of `e`. */
    method UpsetEvent(e: Event, payload: P)
      modifies this
      ensures events == Upsert(old(events), e, payload)
      ensures hasScheduledUpdate == old(hasScheduledUpdate) && timerPending == old(timerPending)
    {
      var kept := Without(events, e);
      if e in kept {
        events := kept[e := kept[e] + [payload]];
        return;
      }
      events := kept[e := [payload]];
    }

    /** Queues the event; the first dispatch of a batch also sets the flag and starts the timer,
        and a dispatch while a batch is scheduled only queues. */
    method Dispatch(e: Event, payload: P)
      modifies this
      requires Valid()
      ensures Valid()
      ensures events == Upsert(old(events), e, payload)
      ensures hasScheduledUpdate
      ensures timerPending == (old(timerPending) || !old(hasScheduledUpdate))
      ensures Has(e) && |events[e]| > 0 && events[e][|events[e]| - 1] == payload
    {
      UpsetEvent(e, payload);
      if hasScheduledUpdate {
        return;
      }
      hasScheduledUpdate := true;
      timerPending := true;
    }

    /** The timer callback. `process` sees the queue as it stands when the timer fires (the
        returned `batch`); the events it dispatches itself (`dispatchedDuringProcess`, up to a
        throw when `processThrows`) are queued without scheduling anything, because the flag is
        still set. When `process` returns, the flag is cleared and the whole queue discarded; when
        it throws, the callback stops there, leaving the flag set and the queue full. */
    method Flush(dispatchedDuringProcess: seq<(Event, P)>, processThrows: bool) returns (batch: map<Event, seq<P>>)
      modifies this
      requires Valid() && timerPending
      ensures Valid()
      ensures batch == old(events) && !timerPending
      ensures !processThrows ==> events == map[] && !hasScheduledUpdate
      ensures processThrows ==> events == UpsertAll(old(events), dispatchedDuringProcess) && hasScheduledUpdate
    {
      timerPending := false;
      batch := events;
      var i := 0;
      while i < |dispatchedDuringProcess|
        invariant 0 <= i <= |dispatchedDuringProcess|
        invariant hasScheduledUpdate && !timerPending
        invariant events == UpsertAll(batch, dispatchedDuringProcess[..i])
      {
        assert dispatchedDuringProcess[..i + 1][..i] == dispatchedDuringProcess[..i];
        Dispatch(dispatchedDuringProcess[i].0, dispatchedDuringProcess[i].1);
        i := i + 1;
      }
      assert dispatchedDuringProcess[..i] == dispatchedDuringProcess;
      if processThrows {
        return;
      }
      hasScheduledUpdate := false;
      events := map[];
    }

    /** Clears the pending timer, and only that: the flag stays set and the queue stays full. */
    method CancelNextProcess()
      modifies this
      requires Valid()
      ensures Valid()
      ensures !timerPending
      ensures events == old(events) && hasScheduledUpdate == old(hasScheduledUpdate)
    {
      timerPending := false;
    }

    /** `has(e)`: whether `e` is queued. */
    function Has(e: Event): (b: bool)
      reads this
      ensures b <==> e in events
    {
      e in events
    }

    /** `get(e)`: the queued payloads, or `undefined` when `e` is not queued. */
    function Get(e: Event): (r: Option<seq<P>>)
      reads this
      ensures r.Some? <==> e in events
      ensures r.Some? ==> r.value == events[e]
    {
      if e in events then Some(events[e]) else None
    }

    /** `clear()`: empties the queue and touches nothing else. */
    method Clear()
      modifies this
      ensures events == map[]
      ensures hasScheduledUpdate == old(hasScheduledUpdate) && timerPending == old(timerPending)
    {
      events := map[];
    }
  }

  /** A batch is flushed exactly once: two dispatches in a row start one timer, and after the
      flush the scheduler is idle with nothing queued. */
  method OneFlushPerBatch<P>(p: P, q: P) returns (pendingAfterDispatches: bool, batch: map<Event, seq<P>>, leftover: map<Event, seq<P>>, scheduledAfterFlush: bool)
    ensures pendingAfterDispatches
    ensures batch == map[UpdateBodyRows := [p], UpdateBodyRow := [q]]
    ensures leftover == map[] && !scheduledAfterFlush
  {
    var s := new BoringEvents<P>([]);
    assert Replay<P>([]) == map[];
    s.Dispatch(UpdateBodyRows, p);
    UpsertIntoEmpty(UpdateBodyRows, p);
    s.Dispatch(UpdateBodyRow, q);
    pendingAfterDispatches := s.timerPending;
    CancellationIsOneWay(map[UpdateBodyRows := [p]], UpdateBodyRows, UpdateBodyRow, q);
    assert s.events == map[UpdateBodyRows := [p], UpdateBodyRow := [q]];
    batch := s.Flush([(UpdateAll, p)], false);
    leftover := s.events;
    scheduledAfterFlush := s.hasScheduledUpdate;
  }

  /** After `cancelNextProcess` the flag is still set, so no later dispatch starts a timer:
      the queue keeps growing and is never flushed. */
  method CancelledSchedulerStalls<P>(p: P, q: P) returns (scheduled: bool, pending: bool, queued: map<Event, seq<P>>)
    ensures scheduled && !pending
    ensures UpdateData in queued && queued[UpdateData] == [p, q]
  {
    var s := new BoringEvents<P>([]);
    assert Replay<P>([]) == map[];
    s.Dispatch(UpdateData, p);
    s.CancelNextProcess();
    s.Dispatch(UpdateData, q);
    scheduled, pending, queued := s.hasScheduledUpdate, s.timerPending, s.events;
  }

  /** A `process` that throws leaves the scheduler stuck: the flag stays set with no timer
      pending, so the next dispatch only queues, and nothing is flushed again. */
  method ThrowingProcessStalls<P>(p: P, q: P) returns (scheduled: bool, pending: bool, queued: map<Event, seq<P>>)
    ensures scheduled && !pending
    ensures UpdateData in queued && queued[UpdateData] == [p, q]
  {
    var s := new BoringEvents<P>([]);
    assert Replay<P>([]) == map[];
    s.Dispatch(UpdateData, p);
    var _ := s.Flush([], true);
    s.Dispatch(UpdateData, q);
    scheduled, pending, queued := s.hasScheduledUpdate, s.timerPending, s.events;
  }
}
