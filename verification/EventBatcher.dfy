/** How tracked events are grouped into upload requests. */
module EventBatcher {
  import opened AnalyticsModel

  /** Only accepted lines are sent in a request of their own. */
  predicate ShouldSendInIsolatedRequest(e: TrackEvent) {
    e.AcceptedLines?
  }

  function Concat(batches: seq<seq<TrackEvent>>): seq<TrackEvent> {
    if batches == [] then [] else Concat(batches[..|batches| - 1]) + batches[|batches| - 1]
  }

  /** A batch is not empty, and an isolated event has one to itself. */
  predicate IsBatch(batch: seq<TrackEvent>) {
    batch != [] && forall i :: 0 <= i < |batch| && batch[i].AcceptedLines? ==> |batch| == 1
  }

  /** A division of the events, in order, into batches. */
  predicate IsPartition(batches: seq<seq<TrackEvent>>, events: seq<TrackEvent>) {
    (forall i :: 0 <= i < |batches| ==> IsBatch(batches[i])) && Concat(batches) == events
  }

  /** A batch starts at an event when it or the one before it is isolated, or none is before it. */
  function Needed(events: seq<TrackEvent>): nat {
    if events == [] then 0
    else
      var n := |events| - 1;
      Needed(events[..n]) + (if n == 0 || events[n].AcceptedLines? || events[n - 1].AcceptedLines? then 1 else 0)
  }

  /** Adding one batch adds at most one to the number needed. */
  lemma {:induction false} OneBatchIsEnough(events: seq<TrackEvent>, batch: seq<TrackEvent>)
    requires IsBatch(batch)
    ensures Needed(events + batch) <= Needed(events) + 1
    decreases |batch|
  {
    var n := |events| + |batch| - 1;
    var all := events + batch;
    assert all[..n] == events + batch[..|batch| - 1];
    if |batch| == 1 {
      assert all[..n] == events;
    } else {
      var front := batch[..|batch| - 1];
      assert all[n] == batch[|batch| - 1] && all[n - 1] == batch[|batch| - 2];
      OneBatchIsEnough(events, front);
    }
  }

  lemma {:induction false} NoPartitionIsSmaller(batches: seq<seq<TrackEvent>>)
    requires forall i :: 0 <= i < |batches| ==> IsBatch(batches[i])
    ensures |batches| >= Needed(Concat(batches))
  {
    if batches != [] {
      var front := batches[..|batches| - 1];
      NoPartitionIsSmaller(front);
      OneBatchIsEnough(Concat(front), batches[|batches| - 1]);
    }
  }

  lemma EveryPartitionIsAsLarge(events: seq<TrackEvent>)
    ensures forall other :: IsPartition(other, events) ==> |other| >= Needed(events)
  {
    forall other | IsPartition(other, events)
      ensures |other| >= Needed(events)
    {
      NoPartitionIsSmaller(other);
    }
  }

  lemma ConcatAppend(batches: seq<seq<TrackEvent>>, batch: seq<TrackEvent>)
    ensures Concat(batches + [batch]) == Concat(batches) + batch
  {
    assert (batches + [batch])[..|batches|] == batches;
  }

  lemma NeededAppend(events: seq<TrackEvent>, e: TrackEvent)
    ensures Needed(events + [e]) ==
            Needed(events) + (if events == [] || e.AcceptedLines? || events[|events| - 1].AcceptedLines? then 1 else 0)
  {
    assert (events + [e])[..|events|] == events;
  }

  /** The state of the grouping after some events: full batches, and an open one that holds no
      isolated event and is empty only at the start or after one. */
  predicate Grouped(batches: seq<seq<TrackEvent>>, current: seq<TrackEvent>, events: seq<TrackEvent>) {
    && (forall k :: 0 <= k < |batches| ==> IsBatch(batches[k]))
    && (forall k :: 0 <= k < |current| ==> !current[k].AcceptedLines?)
    && Concat(batches) + current == events
    && |batches| + (if current == [] then 0 else 1) == Needed(events)
    && (current == [] <==> events == [] || events[|events| - 1].AcceptedLines?)
  }

  function Closed(batches: seq<seq<TrackEvent>>, current: seq<TrackEvent>): seq<seq<TrackEvent>> {
    if current == [] then batches else batches + [current]
  }

  lemma ClosedIsPartition(batches: seq<seq<TrackEvent>>, current: seq<TrackEvent>, events: seq<TrackEvent>)
    requires Grouped(batches, current, events)
    ensures IsPartition(Closed(batches, current), events) && |Closed(batches, current)| == Needed(events)
  {
    ConcatAppend(batches, current);
  }

  lemma AddOrdinary(batches: seq<seq<TrackEvent>>, current: seq<TrackEvent>, events: seq<TrackEvent>, e: TrackEvent)
    requires Grouped(batches, current, events) && !e.AcceptedLines?
    ensures Grouped(batches, current + [e], events + [e])
  {
    NeededAppend(events, e);
    assert Concat(batches) + (current + [e]) == events + [e];
  }

  lemma AddIsolated(batches: seq<seq<TrackEvent>>, current: seq<TrackEvent>, events: seq<TrackEvent>, e: TrackEvent)
    requires Grouped(batches, current, events) && e.AcceptedLines?
    ensures Grouped(Closed(batches, current) + [[e]], [], events + [e])
  {
    ClosedIsPartition(batches, current, events);
    ConcatAppend(Closed(batches, current), [e]);
    NeededAppend(events, e);
  }

  /** Groups the events: the batches are a partition of them, and no partition is smaller. */
  method TrackEventRequestBatches(events: seq<TrackEvent>) returns (batches: seq<seq<TrackEvent>>)
    ensures IsPartition(batches, events)
    ensures forall other :: IsPartition(other, events) ==> |batches| <= |other|
  {
    batches := [];
    var current: seq<TrackEvent> := [];
    for i := 0 to |events|
      invariant Grouped(batches, current, events[..i])
    {
      var event := events[i];
      assert events[..i + 1] == events[..i] + [event];
      if ShouldSendInIsolatedRequest(event) {
        AddIsolated(batches, current, events[..i], event);
        if current != [] {
          batches := batches + [current];
          current := [];
        }
        batches := batches + [[event]];
      } else {
        AddOrdinary(batches, current, events[..i], event);
        current := current + [event];
      }
    }
    assert events[..|events|] == events;
    ClosedIsPartition(batches, current, events);
    if current != [] {
      batches := batches + [current];
    }
    EveryPartitionIsAsLarge(events);
  }
}
