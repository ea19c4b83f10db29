/** The older scheduler (`src/core/BoringEvents.ts`). The same cancellation table (without
    `update:custom-body`) and the same upsert as the package's, but the flush is queued as a
    microtask, which cannot be cancelled. The queued microtask is the flag `taskPending` and
    its callback the method `Flush`. */
module LegacyEvents {
  import opened Events

  class BoringEvents<P> {
    var events: map<Event, seq<P>>
    var hasScheduledUpdate: bool
    /** A microtask is queued and has not yet run. */
    var taskPending: bool

    /** Only events of this scheduler's vocabulary are ever queued, and a queued microtask
        belongs to a scheduled batch. */
    predicate Valid()
      reads this
    {
      (forall e :: e in events ==> InLegacyVocabulary(e)) && (taskPending ==> hasScheduledUpdate)
    }

    constructor ()
      ensures Valid()
      ensures events == map[] && !hasScheduledUpdate && !taskPending
    {
      events := map[];
      hasScheduledUpdate := false;
      taskPending := false;
    }

    /** Deletes every event `e` cancels, then appends `payload` to the payloads of `e`. */
    method UpsetEvent(e: Event, payload: P)
      modifies this
      requires Valid() && InLegacyVocabulary(e)
      ensures Valid()
      ensures events == Upsert(old(events), e, payload)
      ensures hasScheduledUpdate == old(hasScheduledUpdate) && taskPending == old(taskPending)
    {
      ghost var before := events;
      var kept := Without(events, e);
      if e in kept {
        events := kept[e := kept[e] + [payload]];
      } else {
        events := kept[e := [payload]];
      }
      assert events == Upsert(before, e, payload);
      UpsertStaysInVocabulary(before, e, payload);
    }

    /** Queues the event; only the first dispatch of a batch sets the flag and queues the
        microtask. */
    method Dispatch(e: Event, payload: P)
      modifies this
      requires Valid() && InLegacyVocabulary(e)
      ensures Valid()
      ensures events == Upsert(old(events), e, payload)
      ensures hasScheduledUpdate
      ensures taskPending == (old(taskPending) || !old(hasScheduledUpdate))
      ensures Has(e) && |events[e]| > 0 && events[e][|events[e]| - 1] == payload
    {
      UpsetEvent(e, payload);
      if hasScheduledUpdate {
        return;
      }
      hasScheduledUpdate := true;
      taskPending := true;
    }

    /** The microtask: `process` sees the queue (`batch`); what it dispatches meanwhile
        (`dispatchedDuringProcess`, up to a throw when `processThrows`) is queued without a
        second microtask being queued. When `process` returns, the flag is cleared and the whole
        queue discarded; when it throws, the callback stops there, leaving the flag set and the
        queue full. */
    method Flush(dispatchedDuringProcess: seq<(Event, P)>, processThrows: bool) returns (batch: map<Event, seq<P>>)
      modifies this
      requires Valid() && taskPending
      requires forall i :: 0 <= i < |dispatchedDuringProcess| ==> InLegacyVocabulary(dispatchedDuringProcess[i].0)
      ensures Valid()
      ensures batch == old(events) && !taskPending
      ensures !processThrows ==> events == map[] && !hasScheduledUpdate
      ensures processThrows ==> events == UpsertAll(old(events), dispatchedDuringProcess) && hasScheduledUpdate
    {
      taskPending := false;
      batch := events;
      var i := 0;
      while i < |dispatchedDuringProcess|
        invariant 0 <= i <= |dispatchedDuringProcess|
        invariant Valid() && hasScheduledUpdate && !taskPending
        invariant events == UpsertAll(batch, dispatchedDuringProcess[..i])
      {
        assert dispatchedDuringProcess[..i + 1][..i] == dispatchedDuringProcess[..i];
        Dispatch(dispatchedDuringProcess[i].0, dispatchedDuringProcess[i].1);
        i := i + 1;
      }
      assert dispatchedDuringProcess[..i] == dispatchedDuringProcess;
      if processThrows {
        return;
      }
      hasScheduledUpdate := false;
      events := map[];
    }

    /** `has(e)`: whether `e` is queued. */
    function Has(e: Event): (b: bool)
      reads this
      ensures b <==> e in events
    {
      e in events
    }

    /** `clear()`: empties the queue, leaving the flag alone. */
    method Clear()
      modifies this
      requires Valid()
      ensures Valid()
      ensures events == map[] && hasScheduledUpdate == old(hasScheduledUpdate) && taskPending == old(taskPending)
    {
      events := map[];
    }
  }

  /** Upserting an event of the older vocabulary keeps the queue inside that vocabulary. */
  lemma UpsertStaysInVocabulary<P>(m: map<Event, seq<P>>, e: Event, p: P)
    requires forall x :: x in m ==> InLegacyVocabulary(x)
    requires InLegacyVocabulary(e)
    ensures forall x :: x in Upsert(m, e, p) ==> InLegacyVocabulary(x)
  {
  }

  /** Whatever the queue held, a flush of a scheduled batch leaves no state behind: a second
      dispatch afterwards schedules a fresh flush. */
  method NoLeftoverAfterFlush<P>(p: P) returns (batch: map<Event, seq<P>>, rescheduled: bool, queued: map<Event, seq<P>>)
    ensures batch == map[UpdateRows := [p]]
    ensures rescheduled && queued == map[UpdateHeadRows := [p]]
  {
    var s := new BoringEvents<P>();
    s.Dispatch(UpdateRows, p);
    UpsertIntoEmpty(UpdateRows, p);
    batch := s.Flush([(UpdateData, p)], false);
    s.Dispatch(UpdateHeadRows, p);
    UpsertIntoEmpty(UpdateHeadRows, p);
    rescheduled, queued := s.hasScheduledUpdate, s.events;
  }

  /** A `process` that throws leaves the scheduler stuck: the flag stays set with no microtask
      queued, so the next dispatch only queues, and nothing is flushed again. */
  method ThrowingProcessStalls<P>(p: P, q: P) returns (scheduled: bool, pending: bool, queued: map<Event, seq<P>>)
    ensures scheduled && !pending
    ensures UpdateData in queued && queued[UpdateData] == [p, q]
  {
    var s := new BoringEvents<P>();
    s.Dispatch(UpdateData, p);
    var _ := s.Flush([], true);
    s.Dispatch(UpdateData, q);
    scheduled, pending, queued := s.hasScheduledUpdate, s.taskPending, s.events;
  }
}
