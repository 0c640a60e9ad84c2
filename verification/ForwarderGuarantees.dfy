/** What the event forwarder guarantees in every run, whatever the interleaving of the
    worker and the consumer, the capacity and the order of events. */
module ForwarderGuarantees {
  import opened Common
  import opened EventForwarder

  // ----- Lag accounting -----

  /** No gap was ever longer than the counter can say. */
  predicate NeverSaturated(s: State) {
    && s.gap <= 0xFFFF_FFFF_FFFF_FFFF
    && forall i :: 0 <= i < |s.sent| && s.sent[i].Marker? ==> s.sent[i].gap <= 0xFFFF_FFFF_FFFF_FFFF
  }

  lemma {:induction false} ReportedLength(log: seq<Sent>)
    requires forall i :: 0 <= i < |log| && log[i].Marker? ==> log[i].reported == Min(log[i].gap, USIZE_MAX)
    ensures |Expand(log, true)| <= |Expand(log, false)|
    ensures |Expand(log, true)| == |Expand(log, false)| <==>
            forall i :: 0 <= i < |log| && log[i].Marker? ==> log[i].gap <= USIZE_MAX
  {
    if log != [] {
      ReportedLength(log[..|log| - 1]);
    }
  }

  lemma {:induction false} ReportedIsGap(log: seq<Sent>)
    requires forall i :: 0 <= i < |log| && log[i].Marker? ==> log[i].reported == log[i].gap
    ensures Expand(log, true) == Expand(log, false)
  {
    if log != [] {
      ReportedIsGap(log[..|log| - 1]);
    }
  }

  /** Replacing every marker by as many holes as it reports, and appending `skipped` holes,
      gives the handled events position by position, exactly when no gap outgrew the counter. */
  lemma LagAccountingIsPositionExact(s: State)
    requires Reachable(s)
    ensures Aligned(Expand(s.sent, true) + Holes(s.skipped), s.handled) <==> NeverSaturated(s)
  {
    ReachableInv(s);
    ReportedLength(s.sent);
    if NeverSaturated(s) {
      ReportedIsGap(s.sent);
    }
  }

  /** No event enters the channel while a gap is unreported, and no marker is empty. */
  lemma NoEventOvertakesItsMarker(s: State, a: Action)
    requires Reachable(s) && Enabled(s, a)
    ensures Step(s, a).sent != s.sent && Step(s, a).sent[|s.sent|].Forwarded? ==> s.gap == 0 && s.skipped == 0
    ensures forall i :: 0 <= i < |s.sent| && s.sent[i].Marker? ==> s.sent[i].reported > 0
  {
    ReachableInv(s);
    EventsAreSentWithoutGap(s, a);
    MarkersReportSomething(s);
  }

  lemma EventsAreSentWithoutGap(s: State, a: Action)
    requires LagInv(s) && Enabled(s, a)
    ensures Step(s, a).sent != s.sent && Step(s, a).sent[|s.sent|].Forwarded? ==> s.gap == 0 && s.skipped == 0
  {
  }

  lemma MarkersReportSomething(s: State)
    requires LagInv(s)
    ensures forall i :: 0 <= i < |s.sent| && s.sent[i].Marker? ==> s.sent[i].reported > 0
  {
  }

  lemma {:induction false} ExpandPrefix(log: seq<Sent>, n: nat)
    requires n <= |log|
    ensures |Expand(log[..n], false)| <= |Expand(log, false)|
    ensures Expand(log[..n], false) == Expand(log, false)[..|Expand(log[..n], false)|]
    decreases |log|
  {
    if n < |log| {
      assert log[..|log| - 1][..n] == log[..n];
      ExpandPrefix(log[..|log| - 1], n);
    } else {
      assert log[..n] == log;
    }
  }

  /** The consumer can place everything it has received: with its markers expanded to the gaps,
      its events sit at their own positions in the stream the worker handled, and the counts it
      was told are those gaps exactly when none it was told of outgrew the counter. */
  lemma DeliveredEventsKeepTheirPositions(s: State)
    requires Reachable(s)
    ensures |Expand(s.delivered, false)| <= |s.handled|
    ensures Aligned(Expand(s.delivered, false), s.handled[..|Expand(s.delivered, false)|])
    ensures Expand(s.delivered, true) == Expand(s.delivered, false) <==>
            forall i :: 0 <= i < |s.delivered| && s.delivered[i].Marker? ==> s.delivered[i].gap <= USIZE_MAX
  {
    ReachableInv(s);
    assert s.delivered == s.sent[..|s.delivered|];
    ExpandPrefix(s.sent, |s.delivered|);
    ReportedLength(s.delivered);
    if forall i :: 0 <= i < |s.delivered| && s.delivered[i].Marker? ==> s.delivered[i].gap <= USIZE_MAX {
      ReportedIsGap(s.delivered);
    }
    var slots := Expand(s.sent, false) + Holes(s.gap);
    var n := |Expand(s.delivered, false)|;
    assert slots[..n] == Expand(s.delivered, false);
  }

  // ----- The counter can saturate -----

  /** `n` best-effort events arriving while the channel stays full. */
  function Flood(e: Event, n: nat): seq<Action> {
    if n == 0 then [] else [Take(e), Advance] + Flood(e, n - 1)
  }

  lemma {:induction false} FloodGrowsTheGap(s: State, e: Event, n: nat)
    requires s.phase.Idle? && s.open && Full(s) && !RequiresDelivery(e) && !IsAuthRefresh(e)
    ensures Run(s, Flood(e, n)).Some?
    ensures Run(s, Flood(e, n)).value.gap == s.gap + n
    decreases n
  {
    if n > 0 {
      var rest := Flood(e, n - 1);
      var s1 := Step(s, Take(e));
      var s2 := Step(s1, Advance);
      assert Flood(e, n)[0] == Take(e) && Flood(e, n)[1..] == [Advance] + rest;
      assert ([Advance] + rest)[0] == Advance && ([Advance] + rest)[1..] == rest;
      FloodGrowsTheGap(s2, e, n - 1);
    }
  }

  /** The exception is real: a consumer that never drains while more events than the counter
      can hold are dropped leaves a state in which the reported lag is too small. */
  lemma LagCountCanSaturate() returns (s: State)
    ensures Reachable(s) && !Aligned(Expand(s.sent, true) + Holes(s.skipped), s.handled)
  {
    var e := Lagged(0);
    var start := [Take(e), Advance];
    var flood := Flood(e, USIZE_MAX + 1);
    var s1 := Step(Init(1), Take(e));
    assert start[1..] == [Advance] && start[1..][1..] == [];
    assert Run(s1, [Advance]) == Some(Step(s1, Advance)) by {
      assert [Advance][1..] == [];
    }
    assert Run(Init(1), start) == Some(Step(s1, Advance));
    RunConcat(Init(1), start, flood);
    FloodGrowsTheGap(Step(s1, Advance), e, USIZE_MAX + 1);
    s := Run(Init(1), start + flood).value;
    LagAccountingIsPositionExact(s);
  }

  // ----- The lossless tier -----

  function Lossless(events: seq<Event>): seq<Event> {
    if events == [] then []
    else
      var rest := Lossless(events[..|events| - 1]);
      var e := events[|events| - 1];
      if RequiresDelivery(e) then rest + [e] else rest
  }

  function Kept(slots: seq<Option<Event>>): seq<Event> {
    if slots == [] then []
    else
      var rest := Kept(slots[..|slots| - 1]);
      var x := slots[|slots| - 1];
      if x.Some? then rest + [x.value] else rest
  }

  lemma {:induction false} KeptHoles(slots: seq<Option<Event>>, n: nat)
    ensures Kept(slots + Holes(n)) == Kept(slots)
    decreases n
  {
    if n == 0 {
      assert slots + Holes(n) == slots;
    } else {
      assert (slots + Holes(n))[..|slots| + n - 1] == slots + Holes(n - 1);
      KeptHoles(slots, n - 1);
    }
  }

  lemma {:induction false} KeptExpand(log: seq<Sent>)
    ensures Kept(Expand(log, false)) == EventsIn(log)
  {
    if log != [] {
      var front, x := log[..|log| - 1], log[|log| - 1];
      KeptExpand(front);
      match x
      case Marker(_, g) => KeptHoles(Expand(front, false), g);
      case Forwarded(e) => AppendThenTake(Expand(front, false), Some(e));
    }
  }

  lemma {:induction false} AlignedKeepsLossless(slots: seq<Option<Event>>, events: seq<Event>)
    requires Aligned(slots, events)
    ensures Lossless(Kept(slots)) == Lossless(events)
  {
    if slots != [] {
      var n := |slots| - 1;
      AlignedKeepsLossless(slots[..n], events[..n]);
      if slots[n].Some? {
        AppendThenTake(Kept(slots[..n]), slots[n].value);
      }
    }
  }

  /** The must-deliver events on the channel are exactly the must-deliver events handled, in
      the same order; while the receiver is open those are all that were taken, but for the
      one still in hand. */
  lemma LosslessTierSurvives(s: State)
    requires Reachable(s)
    ensures Lossless(EventsIn(s.sent)) == Lossless(s.handled)
    ensures s.open ==> WithoutAuthRefresh(s.taken) == s.handled + InHand(s)
    ensures s.open && !Forwarding(s) ==> Lossless(EventsIn(s.sent)) == Lossless(s.taken)
  {
    ReachableInv(s);
    KeptExpand(s.sent);
    KeptHoles(Expand(s.sent, false), s.gap);
    AlignedKeepsLossless(Expand(s.sent, false) + Holes(s.gap), s.handled);
    if s.open {
      assert s.handled + s.lost + InHand(s) == s.handled + InHand(s);
      if !Forwarding(s) {
        assert s.handled + InHand(s) == s.handled;
        LosslessIgnoresAuthRefresh(s.taken);
      }
    }
  }

  lemma {:induction false} LosslessCount(events: seq<Event>, e: Event)
    requires RequiresDelivery(e)
    ensures multiset(Lossless(events))[e] == multiset(events)[e]
  {
    if events != [] {
      var front, last := events[..|events| - 1], events[|events| - 1];
      LosslessCount(front, e);
      assert events == front + [last];
    }
  }

  /** Turn and item completions, settings and import notices, and the four kinds of deltas: each is
      put on the channel as often as it was taken, whatever the capacity and however slowly the
      consumer drains, while the receiver is open and none is in hand. */
  lemma EveryTranscriptNotificationIsSent(s: State, n: Notification)
    requires Reachable(s) && s.open && !Forwarding(s)
    requires || n.TurnCompleted? || n.ThreadSettingsUpdated? || n.ItemCompleted? || n.ExternalAgentConfigImportCompleted?
             || n.AgentMessageDelta? || n.PlanDelta? || n.ReasoningSummaryTextDelta? || n.ReasoningTextDelta?
    ensures multiset(EventsIn(s.sent))[ServerNotification(n)] == multiset(s.taken)[ServerNotification(n)]
  {
    LosslessTierSurvives(s);
    LosslessCount(EventsIn(s.sent), ServerNotification(n));
    LosslessCount(s.taken, ServerNotification(n));
  }

  /** Every other notification, an upstream lag notice and every request but an auth-token refresh
      can be dropped: handled, with the receiver open, and never put on the channel. */
  lemma AnyOtherEventCanBeDropped(e: Event) returns (s: State)
    requires || e.Lagged? || (e.ServerNotification? && e.notification.OtherNotification?)
             || (e.ServerRequested? && e.request.OtherRequest?)
    ensures Reachable(s) && s.open && !Forwarding(s) && e in s.handled && Forwarded(e) !in s.sent
  {
    var filler := if e == Lagged(0) then Lagged(1) else Lagged(0);
    var s1 := Step(Init(1), Take(filler));
    var s2 := Step(s1, Advance);
    var s3 := Step(s2, Take(e));
    s := Step(s3, Advance);
    var last: seq<Action> := [Advance];
    var three := [Take(e)] + last;
    var two := [Advance] + three;
    assert last[1..] == [] && three[1..] == last && two[1..] == three && ([Take(filler)] + two)[1..] == two;
    assert Run(s3, last) == Some(s);
    assert Run(s2, three) == Some(s);
    assert Run(s1, two) == Some(s);
    assert Run(Init(1), [Take(filler)] + two) == Some(s);
    assert s.sent == [Forwarded(filler)] && s.handled == [filler, e];
  }

  lemma {:induction false} LosslessIgnoresAuthRefresh(events: seq<Event>)
    ensures Lossless(WithoutAuthRefresh(events)) == Lossless(events)
  {
    if events != [] {
      var front, e := events[..|events| - 1], events[|events| - 1];
      LosslessIgnoresAuthRefresh(front);
      if !IsAuthRefresh(e) {
        AppendThenTake(WithoutAuthRefresh(front), e);
      }
    }
  }

  // ----- Progress -----

  /** The channel never holds more than its capacity, which is at least one.  What the consumer
      received, then what was thrown away with the receiver, then what still waits, is what the
      worker sent. */
  lemma ChannelIsBoundedAndFifo(s: State)
    requires Reachable(s)
    ensures 1 <= s.capacity && |s.queue| <= s.capacity
    ensures s.delivered + s.discarded + s.queue == s.sent
    ensures (s.open ==> s.discarded == []) && (!s.open ==> s.queue == []) && |s.discarded| <= s.capacity
  {
    ReachableInv(s);
  }

  function Count(schedule: seq<Action>, a: Action): nat {
    if schedule == [] then 0 else (if schedule[0] == a then 1 else 0) + Count(schedule[1..], a)
  }

  /** How many channel operations a forward in progress still has to do. */
  function Left(s: State): nat {
    if s.phase.Flushing? then 2 else if s.phase.Sending? then 1 else 0
  }

  lemma ForwardStep(s: State, a: Action)
    requires s.open && Forwarding(s) && RequiresDelivery(s.phase.event)
    requires (a == Advance || a == Receive) && Enabled(s, a)
    ensures var t := Step(s, a);
            && t.open && t.capacity == s.capacity
            && Left(t) + (if a == Advance then 1 else 0) == Left(s)
            && |t.queue| + (if a == Receive then 1 else 0) == |s.queue| + (if a == Advance then 1 else 0)
            && (Left(t) > 0 ==> t.phase.event == s.phase.event && t.handled == s.handled)
            && (Left(t) == 0 ==> t.phase.Idle? && t.handled == s.handled + [s.phase.event])
  {
  }

  /** Along worker advances and consumer receives alone, a must-deliver forward spends one
      operation per advance and one slot per receive. */
  lemma {:induction false} ForwardBudget(s: State, schedule: seq<Action>)
    requires s.open && Forwarding(s) && RequiresDelivery(s.phase.event)
    requires forall i :: 0 <= i < |schedule| ==> schedule[i] == Advance || schedule[i] == Receive
    requires Run(s, schedule).Some?
    ensures var t := Run(s, schedule).value;
            && t.open && t.capacity == s.capacity
            && Left(t) + Count(schedule, Advance) == Left(s)
            && |t.queue| + Count(schedule, Receive) == |s.queue| + Count(schedule, Advance)
            && (Left(t) > 0 ==> t.phase.event == s.phase.event)
            && (Left(t) == 0 ==> t.phase.Idle? && t.handled == s.handled + [s.phase.event])
    decreases |schedule|
  {
    if schedule != [] {
      var s1 := Step(s, schedule[0]);
      ForwardStep(s, schedule[0]);
      if Forwarding(s1) {
        ForwardBudget(s1, schedule[1..]);
      } else {
        IdleReceives(s1, schedule[1..]);
      }
    }
  }

  lemma {:induction false} IdleReceives(s: State, schedule: seq<Action>)
    requires s.phase.Idle? && s.open
    requires forall i :: 0 <= i < |schedule| ==> schedule[i] == Advance || schedule[i] == Receive
    requires Run(s, schedule).Some?
    ensures var t := Run(s, schedule).value;
            && t.phase.Idle? && t.open && t.capacity == s.capacity && t.handled == s.handled
            && |t.queue| + Count(schedule, Receive) == |s.queue|
            && Count(schedule, Advance) == 0
    decreases |schedule|
  {
    if schedule != [] {
      IdleReceives(Step(s, schedule[0]), schedule[1..]);
    }
  }

  /** A must-deliver forward needs at most two receives: once the consumer has received twice
      the forward has completed or can go on by itself, and two operations complete it. */
  lemma LosslessForwardNeedsTwoReceives(s: State, schedule: seq<Action>)
    requires Reachable(s) && s.open && Forwarding(s) && RequiresDelivery(s.phase.event)
    requires forall i :: 0 <= i < |schedule| ==> schedule[i] == Advance || schedule[i] == Receive
    requires Run(s, schedule).Some?
    ensures var t := Run(s, schedule).value;
            && Count(schedule, Advance) <= 2
            && (Count(schedule, Receive) >= 2 ==> !Blocked(t))
            && (Count(schedule, Advance) == Left(s) ==> t.phase.Idle? && t.handled == s.handled + [s.phase.event])
  {
    ReachableInv(s);
    ForwardBudget(s, schedule);
  }

  /** One receive always unblocks the worker for one operation. */
  lemma ReceiveUnblocks(s: State)
    requires Reachable(s) && Blocked(s)
    ensures Enabled(s, Receive) && Enabled(Step(s, Receive), Advance)
  {
    ReachableInv(s);
  }

  predicate IsOver(s: State) {
    s.phase.Disabled? || s.phase.Stopped?
  }

  /** Dropping the receiver: in every continuation the worker never waits for the consumer again.
      It has stopped, can stop, or has one forward to end, which disables the stream at once; and
      that happens at most one time. */
  lemma {:induction false} DroppedReceiverLetsTheWorkerStop(s: State, schedule: seq<Action>)
    requires !s.open && Run(s, schedule).Some?
    ensures var t := Run(s, schedule).value;
            && (t.phase.Stopped? || Enabled(t, Stop) || (Enabled(t, Advance) && Step(t, Advance).phase.Disabled?))
            && (IsOver(s) ==> IsOver(t))
            && Count(schedule, Advance) <= (if IsOver(s) then 0 else 1)
    decreases |schedule|
  {
    if schedule != [] {
      DroppedReceiverLetsTheWorkerStop(Step(s, schedule[0]), schedule[1..]);
    }
  }

  /** After the receiver is gone nothing enters the channel, reaches the consumer or counts
      as handled, in any continuation. */
  lemma {:induction false} NothingIsSentAfterDrop(s: State, schedule: seq<Action>)
    requires !s.open && Run(s, schedule).Some?
    ensures var t := Run(s, schedule).value;
            !t.open && t.sent == s.sent && t.delivered == s.delivered && t.handled == s.handled
    decreases |schedule|
  {
    if schedule != [] {
      NothingIsSentAfterDrop(Step(s, schedule[0]), schedule[1..]);
    }
  }

  /** Once disabled the worker takes, forwards, answers and loses no further event. */
  lemma {:induction false} DisabledIsFinal(s: State, schedule: seq<Action>)
    requires IsOver(s) && Run(s, schedule).Some?
    ensures var t := Run(s, schedule).value;
            && IsOver(t)
            && t.taken == s.taken && t.sent == s.sent && t.handled == s.handled
            && t.rejected == s.rejected && t.lost == s.lost
    decreases |schedule|
  {
    if schedule != [] {
      DisabledIsFinal(Step(s, schedule[0]), schedule[1..]);
    }
  }
}
