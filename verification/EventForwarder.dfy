/**
 The in-process event forwarder of the app-server client: a worker moves server
 events into a bounded channel that a consumer drains concurrently.

 The model is a small-step system.  Every operation on the shared channel (a send,
 a try_send, a receive, the drop of the receiver) is one atomic step, so a run is
 any interleaving of worker and consumer steps.  The fields below `phase` are history:
 no step looks at them.
 */
module EventForwarder {
  import opened Common

  /** The largest value of the counter of skipped events (a 64-bit usize). */
  const USIZE_MAX: nat := 0xFFFF_FFFF_FFFF_FFFF

  const AUTH_REFRESH_UNSUPPORTED: int := -32000
  const EVENT_QUEUE_FULL: int := -32001

  datatype Notification =
    | TurnCompleted(body: string)
    | ThreadSettingsUpdated(body: string)
    | ItemCompleted(body: string)
    | ExternalAgentConfigImportCompleted(body: string)
    | AgentMessageDelta(body: string)
    | PlanDelta(body: string)
    | ReasoningSummaryTextDelta(body: string)
    | ReasoningTextDelta(body: string)
    | OtherNotification(name: string, body: string)

  datatype ServerRequest =
    | ChatgptAuthTokensRefresh(id: RequestId)
    | OtherRequest(id: RequestId, name: string)

  datatype Event =
    | Lagged(skipped: nat)
    | ServerNotification(notification: Notification)
    | ServerRequested(request: ServerRequest)

  predicate NotificationRequiresDelivery(n: Notification) {
    !n.OtherNotification?
  }

  predicate RequiresDelivery(e: Event) {
    e.ServerNotification? && NotificationRequiresDelivery(e.notification)
  }

  predicate IsAuthRefresh(e: Event) {
    e.ServerRequested? && e.request.ChatgptAuthTokensRefresh?
  }

  /** An entry of the channel: the worker's own lag marker, which reports a count and
      stands for a gap, or an event passed on.  An upstream `Lagged` is an event passed on. */
  datatype Sent = Marker(reported: nat, gap: nat) | Forwarded(event: Event)

  /** What the consumer receives. */
  function Seen(x: Sent): Event {
    match x
    case Marker(reported, _) => Lagged(reported)
    case Forwarded(e) => e
  }

  /** Where the worker stands: between events, about to send the lag marker that must
      precede an event, about to send the event itself, not reading events any more, or gone. */
  datatype Phase = Idle | Flushing(event: Event) | Sending(event: Event) | Disabled | Stopped

  datatype Rejection = Rejection(request: ServerRequest, code: int)

  datatype State = State(
    capacity: nat,
    queue: seq<Sent>,
    open: bool,
    skipped: nat,
    phase: Phase,
    // history
    gap: nat,                  // events dropped since the last marker
    taken: seq<Event>,         // events taken from the server
    handled: seq<Event>,       // events whose forward returned Continue
    sent: seq<Sent>,           // everything ever put on the channel
    delivered: seq<Sent>,      // everything the consumer received
    rejected: seq<Rejection>,  // requests answered with an error by the worker
    lost: seq<Event>,          // the event in hand when the channel was found closed
    discarded: seq<Sent>)      // what waited in the channel when the receiver was dropped

  /** The configured capacity is clamped to at least one. */
  function Init(channelCapacity: nat): State {
    State(if channelCapacity < 1 then 1 else channelCapacity, [], true, 0, Idle,
          0, [], [], [], [], [], [], [])
  }

  datatype Action = Take(event: Event) | Advance | Receive | DropReceiver | Stop

  predicate Full(s: State) {
    |s.queue| >= s.capacity
  }

  predicate Forwarding(s: State) {
    s.phase.Flushing? || s.phase.Sending?
  }

  /** A must-deliver send waits for room; everything else goes on at once. */
  predicate Blocked(s: State) {
    Forwarding(s) && RequiresDelivery(s.phase.event) && s.open && Full(s)
  }

  predicate Enabled(s: State, a: Action) {
    match a
    case Take(_) => s.phase.Idle?
    case Advance => Forwarding(s) && !Blocked(s)
    case Receive => s.open && s.queue != []
    case DropReceiver => s.open
    case Stop => s.phase.Idle? || s.phase.Disabled?
  }

  function SaturatingIncrement(n: nat): nat {
    if n < USIZE_MAX then n + 1 else n
  }

  function AfterTake(s: State, e: Event): State {
    var s := s.(taken := s.taken + [e]);
    if IsAuthRefresh(e) then
      s.(rejected := s.rejected + [Rejection(e.request, AUTH_REFRESH_UNSUPPORTED)])
    else
      s.(phase := if s.skipped > 0 then Flushing(e) else Sending(e))
  }

  /** The channel is full and the event may be lost: count it, and answer a request. */
  function AfterDrop(s: State, e: Event): State {
    s.(skipped := SaturatingIncrement(s.skipped),
       gap := s.gap + 1,
       handled := s.handled + [e],
       rejected := if e.ServerRequested? then s.rejected + [Rejection(e.request, EVENT_QUEUE_FULL)] else s.rejected,
       phase := Idle)
  }

  function AfterMarker(s: State, e: Event): State {
    var m := Marker(s.skipped, s.gap);
    s.(queue := s.queue + [m], sent := s.sent + [m], skipped := 0, gap := 0, phase := Sending(e))
  }

  function AfterSend(s: State, e: Event): State {
    s.(queue := s.queue + [Forwarded(e)], sent := s.sent + [Forwarded(e)], handled := s.handled + [e], phase := Idle)
  }

  function AfterClosed(s: State, e: Event): State {
    s.(phase := Disabled, lost := s.lost + [e])
  }

  function AfterAdvance(s: State): State
    requires Enabled(s, Advance)
  {
    var e := s.phase.event;
    if !s.open then AfterClosed(s, e)
    else if Full(s) then AfterDrop(s, e)
    else if s.phase.Flushing? then AfterMarker(s, e)
    else AfterSend(s, e)
  }

  function Step(s: State, a: Action): State
    requires Enabled(s, a)
  {
    match a
    case Take(e) => AfterTake(s, e)
    case Advance => AfterAdvance(s)
    case Receive => s.(queue := s.queue[1..], delivered := s.delivered + [s.queue[0]])
    case DropReceiver => s.(open := false, queue := [], discarded := s.queue)
    case Stop => s.(phase := Stopped)
  }

  /** The state after a schedule, if every action of it is enabled in turn. */
  function Run(s: State, schedule: seq<Action>): Option<State>
    decreases |schedule|
  {
    if schedule == [] then Some(s)
    else if Enabled(s, schedule[0]) then Run(Step(s, schedule[0]), schedule[1..])
    else None
  }

  lemma {:induction false} RunConcat(s: State, a: seq<Action>, b: seq<Action>)
    requires Run(s, a).Some?
    ensures Run(s, a + b) == Run(Run(s, a).value, b)
    decreases |a|
  {
    if a == [] {
      assert a + b == b;
    } else {
      assert (a + b)[0] == a[0] && (a + b)[1..] == a[1..] + b;
      RunConcat(Step(s, a[0]), a[1..], b);
    }
  }

  // ----- Lag accounting -----

  function Holes(n: nat): (h: seq<Option<Event>>)
    ensures |h| == n
  {
    seq(n, _ => None)
  }

  /** A marker stands for the holes it reports, or for the holes really there. */
  function Slots(x: Sent, reported: bool): seq<Option<Event>> {
    match x
    case Marker(r, g) => Holes(if reported then r else g)
    case Forwarded(e) => [Some(e)]
  }

  function Expand(log: seq<Sent>, reported: bool): seq<Option<Event>> {
    if log == [] then [] else Expand(log[..|log| - 1], reported) + Slots(log[|log| - 1], reported)
  }

  /** Position by position, the slots are the events: equal where an event was passed on,
      and a best-effort event where there is a hole. */
  predicate Aligned(slots: seq<Option<Event>>, events: seq<Event>) {
    && |slots| == |events|
    && forall i :: 0 <= i < |slots| ==>
         if slots[i].Some? then slots[i].value == events[i] else !RequiresDelivery(events[i])
  }

  lemma ExpandAppend(log: seq<Sent>, x: Sent, reported: bool)
    ensures Expand(log + [x], reported) == Expand(log, reported) + Slots(x, reported)
  {
    AppendThenTake(log, x);
  }

  // ----- Requests -----

  function RequestsIn(events: seq<Event>): seq<ServerRequest> {
    if events == [] then []
    else
      var rest := RequestsIn(events[..|events| - 1]);
      var e := events[|events| - 1];
      if e.ServerRequested? then rest + [e.request] else rest
  }

  lemma RequestsInAppend(events: seq<Event>, e: Event)
    ensures RequestsIn(events + [e]) == RequestsIn(events) + (if e.ServerRequested? then [e.request] else [])
  {
    AppendThenTake(events, e);
  }

  function EventsIn(log: seq<Sent>): seq<Event> {
    if log == [] then []
    else
      var rest := EventsIn(log[..|log| - 1]);
      var x := log[|log| - 1];
      if x.Forwarded? then rest + [x.event] else rest
  }

  lemma EventsInAppend(log: seq<Sent>, x: Sent)
    ensures EventsIn(log + [x]) == EventsIn(log) + (if x.Forwarded? then [x.event] else [])
  {
    AppendThenTake(log, x);
  }

  function RejectedRequests(log: seq<Rejection>): seq<ServerRequest> {
    seq(|log|, i requires 0 <= i < |log| => log[i].request)
  }

  function InHand(s: State): seq<Event> {
    if Forwarding(s) then [s.phase.event] else []
  }

  function WithoutAuthRefresh(events: seq<Event>): seq<Event> {
    if events == [] then []
    else
      var rest := WithoutAuthRefresh(events[..|events| - 1]);
      var e := events[|events| - 1];
      if IsAuthRefresh(e) then rest else rest + [e]
  }

  lemma WithoutAuthRefreshAppend(events: seq<Event>, e: Event)
    ensures WithoutAuthRefresh(events + [e]) == WithoutAuthRefresh(events) + (if IsAuthRefresh(e) then [] else [e])
  {
    AppendThenTake(events, e);
  }

  // ----- The inductive invariant -----

  predicate ChannelInv(s: State) {
    && 1 <= s.capacity && |s.queue| <= s.capacity
    && s.delivered + s.discarded + s.queue == s.sent
    && (s.open ==> s.discarded == [])
    && (!s.open ==> s.queue == [])
    && |s.discarded| <= s.capacity
  }

  predicate LagInv(s: State) {
    && s.skipped == Min(s.gap, USIZE_MAX)
    && (s.phase.Flushing? ==> s.gap > 0)
    && (s.phase.Sending? ==> s.gap == 0)
    && (forall i :: 0 <= i < |s.sent| && s.sent[i].Marker? ==>
          s.sent[i].gap > 0 && s.sent[i].reported == Min(s.sent[i].gap, USIZE_MAX))
    && Aligned(Expand(s.sent, false) + Holes(s.gap), s.handled)
  }

  predicate FlowInv(s: State) {
    && WithoutAuthRefresh(s.taken) == s.handled + s.lost + InHand(s)
    && (s.phase.Disabled? ==> s.lost != [])
    && (s.lost != [] ==> |s.lost| == 1 && !s.open && (s.phase.Disabled? || s.phase.Stopped?))
    && (Forwarding(s) ==> !IsAuthRefresh(s.phase.event))
  }

  /** Every request taken so far, as often as it was taken: on the channel, answered,
      lost to a closed channel, or still in hand. */
  predicate LedgerInv(s: State) {
    multiset(RequestsIn(s.taken)) ==
    multiset(RequestsIn(EventsIn(s.sent))) + multiset(RejectedRequests(s.rejected))
    + multiset(RequestsIn(s.lost)) + multiset(RequestsIn(InHand(s)))
  }

  predicate AuthInv(s: State) {
    && (forall i :: 0 <= i < |s.rejected| ==>
          s.rejected[i].code == if s.rejected[i].request.ChatgptAuthTokensRefresh?
                                then AUTH_REFRESH_UNSUPPORTED else EVENT_QUEUE_FULL)
    && (forall i :: 0 <= i < |s.sent| && s.sent[i].Forwarded? ==> !IsAuthRefresh(s.sent[i].event))
    && (forall i :: 0 <= i < |s.lost| ==> !IsAuthRefresh(s.lost[i]))
  }

  predicate Inv(s: State) {
    ChannelInv(s) && LagInv(s) && FlowInv(s) && LedgerInv(s) && AuthInv(s)
  }

  lemma InitInv(channelCapacity: nat)
    ensures Inv(Init(channelCapacity))
  {
  }

  lemma StepChannelInv(s: State, a: Action)
    requires ChannelInv(s) && Enabled(s, a)
    ensures ChannelInv(Step(s, a))
  {
    if a.Receive? {
      assert s.delivered + [] + s.queue == (s.delivered + [s.queue[0]]) + [] + s.queue[1..];
    } else if a.DropReceiver? {
      assert s.delivered + [] + s.queue == s.delivered + s.queue + [];
    } else if a.Advance? && Step(s, a).sent != s.sent {
      var x := Step(s, a).sent[|s.sent|];
      assert s.delivered + s.discarded + (s.queue + [x]) == s.delivered + s.discarded + s.queue + [x];
    }
  }

  lemma DropLagInv(s: State, e: Event)
    requires LagInv(s) && Forwarding(s) && s.phase.event == e && !RequiresDelivery(e)
    ensures LagInv(AfterDrop(s, e))
  {
    var slots := Expand(s.sent, false);
    assert slots + Holes(s.gap + 1) == (slots + Holes(s.gap)) + [None];
  }

  lemma MarkerLagInv(s: State, e: Event)
    requires LagInv(s) && s.phase == Flushing(e)
    ensures LagInv(AfterMarker(s, e))
  {
    var slots := Expand(s.sent, false);
    ExpandAppend(s.sent, Marker(s.skipped, s.gap), false);
    assert slots + Holes(s.gap) + Holes(0) == slots + Holes(s.gap);
  }

  lemma SendLagInv(s: State, e: Event)
    requires LagInv(s) && s.phase == Sending(e)
    ensures LagInv(AfterSend(s, e))
  {
    var slots := Expand(s.sent, false);
    ExpandAppend(s.sent, Forwarded(e), false);
    assert slots + [Some(e)] + Holes(0) == (slots + Holes(0)) + [Some(e)];
  }

  lemma StepLagInv(s: State, a: Action)
    requires LagInv(s) && Enabled(s, a)
    ensures LagInv(Step(s, a))
  {
    if a.Advance? && s.open {
      var e := s.phase.event;
      if Full(s) {
        DropLagInv(s, e);
      } else if s.phase.Flushing? {
        MarkerLagInv(s, e);
      } else {
        SendLagInv(s, e);
      }
    }
  }

  lemma StepFlowInv(s: State, a: Action)
    requires FlowInv(s) && ChannelInv(s) && Enabled(s, a)
    ensures FlowInv(Step(s, a))
  {
    if a.Take? {
      TakeFlowInv(s, a.event);
    } else if a.Advance? {
      AdvanceFlowInv(s);
    }
  }

  lemma TakeFlowInv(s: State, e: Event)
    requires FlowInv(s) && s.phase.Idle?
    ensures FlowInv(AfterTake(s, e))
  {
    var t := AfterTake(s, e);
    WithoutAuthRefreshAppend(s.taken, e);
    assert s.lost == [] && InHand(s) == [];
    assert s.handled + [] + [] == s.handled;
    assert s.handled + [] + InHand(t) == s.handled + InHand(t);
  }

  lemma AdvanceFlowInv(s: State)
    requires FlowInv(s) && Enabled(s, Advance)
    ensures FlowInv(AfterAdvance(s))
  {
    var t := AfterAdvance(s);
    assert s.handled + s.lost + InHand(s) == s.handled + [s.phase.event];
    assert t.handled + t.lost + InHand(t) == s.handled + [s.phase.event];
  }

  lemma RequestsInOne(e: Event)
    ensures RequestsIn([e]) == if e.ServerRequested? then [e.request] else []
  {
    RequestsInAppend([], e);
    assert [] + [e] == [e];
  }

  lemma RejectedRequestsAppend(log: seq<Rejection>, x: Rejection)
    ensures RejectedRequests(log + [x]) == RejectedRequests(log) + [x.request]
  {
  }

  lemma ClosedLedgerInv(s: State, e: Event)
    requires LedgerInv(s) && Forwarding(s) && s.phase.event == e && s.lost == []
    ensures LedgerInv(AfterClosed(s, e))
  {
    assert s.lost + [e] == InHand(s);
  }

  lemma DropLedgerInv(s: State, e: Event)
    requires LedgerInv(s) && Forwarding(s) && s.phase.event == e
    ensures LedgerInv(AfterDrop(s, e))
  {
    RequestsInOne(e);
    if e.ServerRequested? {
      RejectedRequestsAppend(s.rejected, Rejection(e.request, EVENT_QUEUE_FULL));
    }
  }

  lemma MarkerLedgerInv(s: State, e: Event)
    requires LedgerInv(s) && Forwarding(s) && s.phase.event == e
    ensures LedgerInv(AfterMarker(s, e))
  {
    EventsInAppend(s.sent, Marker(s.skipped, s.gap));
  }

  lemma SentRequestsAppend(log: seq<Sent>, e: Event)
    ensures multiset(RequestsIn(EventsIn(log + [Forwarded(e)]))) ==
            multiset(RequestsIn(EventsIn(log))) + multiset(RequestsIn([e]))
  {
    RequestsInOne(e);
    EventsInAppend(log, Forwarded(e));
    RequestsInAppend(EventsIn(log), e);
  }

  lemma SendLedgerInv(s: State, e: Event)
    requires LedgerInv(s) && Forwarding(s) && s.phase.event == e
    ensures LedgerInv(AfterSend(s, e))
  {
    SentRequestsAppend(s.sent, e);
    assert InHand(s) == [e] && InHand(AfterSend(s, e)) == [];
  }

  lemma RefusedLedgerInv(s: State, e: Event)
    requires LedgerInv(s) && s.phase.Idle? && IsAuthRefresh(e)
    ensures LedgerInv(AfterTake(s, e))
  {
    RequestsInAppend(s.taken, e);
    RejectedRequestsAppend(s.rejected, Rejection(e.request, AUTH_REFRESH_UNSUPPORTED));
  }

  lemma TakenLedgerInv(s: State, e: Event)
    requires LedgerInv(s) && s.phase.Idle? && !IsAuthRefresh(e)
    ensures LedgerInv(AfterTake(s, e))
  {
    RequestsInAppend(s.taken, e);
    RequestsInOne(e);
    assert InHand(s) == [] && InHand(AfterTake(s, e)) == [e];
    assert multiset(RequestsIn(s.taken + [e])) == multiset(RequestsIn(s.taken)) + multiset(RequestsIn([e]));
  }

  lemma TakeLedgerInv(s: State, e: Event)
    requires LedgerInv(s) && Enabled(s, Take(e))
    ensures LedgerInv(AfterTake(s, e))
  {
    if IsAuthRefresh(e) {
      RefusedLedgerInv(s, e);
    } else {
      TakenLedgerInv(s, e);
    }
  }

  lemma StepLedgerInv(s: State, a: Action)
    requires LedgerInv(s) && FlowInv(s) && Enabled(s, a)
    ensures LedgerInv(Step(s, a))
  {
    match a
    case Take(e) => TakeLedgerInv(s, e);
    case Advance =>
      var e := s.phase.event;
      if !s.open {
        ClosedLedgerInv(s, e);
      } else if Full(s) {
        DropLedgerInv(s, e);
      } else if s.phase.Flushing? {
        MarkerLedgerInv(s, e);
      } else {
        SendLedgerInv(s, e);
      }
    case _ =>
  }

  lemma StepAuthInv(s: State, a: Action)
    requires AuthInv(s) && FlowInv(s) && Enabled(s, a)
    ensures AuthInv(Step(s, a))
  {
  }

  lemma StepInv(s: State, a: Action)
    requires Inv(s) && Enabled(s, a)
    ensures Inv(Step(s, a))
  {
    StepChannelInv(s, a);
    StepLagInv(s, a);
    StepFlowInv(s, a);
    StepLedgerInv(s, a);
    StepAuthInv(s, a);
  }

  lemma {:induction false} RunInv(s: State, schedule: seq<Action>)
    requires Inv(s) && Run(s, schedule).Some?
    ensures Inv(Run(s, schedule).value)
    decreases |schedule|
  {
    if schedule != [] {
      StepInv(s, schedule[0]);
      RunInv(Step(s, schedule[0]), schedule[1..]);
    }
  }

  /** Some schedule leads from the start to `s`. */
  ghost predicate Reachable(s: State) {
    exists channelCapacity: nat, schedule :: Run(Init(channelCapacity), schedule) == Some(s)
  }

  lemma ReachableInv(s: State)
    requires Reachable(s)
    ensures Inv(s)
  {
    var channelCapacity: nat, schedule :| Run(Init(channelCapacity), schedule) == Some(s);
    InitInv(channelCapacity);
    RunInv(Init(channelCapacity), schedule);
  }
}
