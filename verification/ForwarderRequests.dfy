/** What becomes of every server request the forwarder takes, in every run: each time it is
    delivered, refused, still on its way, or left without an answer, and exactly which steps
    leave one without an answer. */
module ForwarderRequests {
  import opened Common
  import opened EventForwarder
  import opened ForwarderGuarantees

  // ----- Counting -----

  /** The requests among the entries of a log, as often as they occur. */
  function RequestsAmong(log: seq<Sent>): multiset<ServerRequest> {
    multiset(RequestsIn(EventsIn(log)))
  }

  function Taken(s: State, r: ServerRequest): nat {
    multiset(RequestsIn(s.taken))[r]
  }

  /** Put on the channel; received by the consumer; waiting for it. */
  function Enqueued(s: State, r: ServerRequest): nat {
    RequestsAmong(s.sent)[r]
  }

  function Delivered(s: State, r: ServerRequest): nat {
    RequestsAmong(s.delivered)[r]
  }

  function Waiting(s: State, r: ServerRequest): nat {
    RequestsAmong(s.queue)[r]
  }

  /** Answered with an error by the worker. */
  function Refused(s: State, r: ServerRequest): nat {
    multiset(RejectedRequests(s.rejected))[r]
  }

  predicate Holds(s: State, r: ServerRequest) {
    Forwarding(s) && s.phase.event == ServerRequested(r)
  }

  function Held(s: State, r: ServerRequest): nat {
    if Holds(s, r) then 1 else 0
  }

  lemma HeldIsInHand(s: State, r: ServerRequest)
    ensures multiset(RequestsIn(InHand(s)))[r] == Held(s, r)
  {
    if Forwarding(s) {
      RequestsInOne(s.phase.event);
    }
  }

  lemma {:induction false} RequestMembership(events: seq<Event>, r: ServerRequest)
    ensures r in RequestsIn(events) <==> ServerRequested(r) in events
  {
    if events != [] {
      var front := events[..|events| - 1];
      RequestMembership(front, r);
      assert events == front + [events[|events| - 1]];
    }
  }

  lemma {:induction false} EventMembership(log: seq<Sent>, e: Event)
    ensures e in EventsIn(log) <==> Forwarded(e) in log
  {
    if log != [] {
      var front := log[..|log| - 1];
      EventMembership(front, e);
      assert log == front + [log[|log| - 1]];
    }
  }

  lemma RequestsAmongMembership(log: seq<Sent>, r: ServerRequest)
    ensures RequestsAmong(log)[r] > 0 <==> Forwarded(ServerRequested(r)) in log
  {
    RequestMembership(EventsIn(log), r);
    EventMembership(log, ServerRequested(r));
  }

  lemma {:induction false} EventsInConcat(a: seq<Sent>, b: seq<Sent>)
    ensures EventsIn(a + b) == EventsIn(a) + EventsIn(b)
    decreases |b|
  {
    if b == [] {
      assert a + b == a;
    } else {
      assert (a + b)[..|a + b| - 1] == a + b[..|b| - 1];
      EventsInConcat(a, b[..|b| - 1]);
    }
  }

  lemma {:induction false} RequestsInConcat(a: seq<Event>, b: seq<Event>)
    ensures RequestsIn(a + b) == RequestsIn(a) + RequestsIn(b)
    decreases |b|
  {
    if b == [] {
      assert a + b == a;
    } else {
      assert (a + b)[..|a + b| - 1] == a + b[..|b| - 1];
      RequestsInConcat(a, b[..|b| - 1]);
    }
  }

  lemma RequestsAmongConcat(a: seq<Sent>, b: seq<Sent>)
    ensures RequestsAmong(a + b) == RequestsAmong(a) + RequestsAmong(b)
  {
    EventsInConcat(a, b);
    RequestsInConcat(EventsIn(a), EventsIn(b));
  }

  // ----- The steps that leave a request without an answer -----

  /** The worker finds the channel closed with the request in hand. */
  predicate FindsClosed(s: State, a: Action, r: ServerRequest) {
    a == Advance && !s.open && Holds(s, r)
  }

  /** The receiver is dropped while the request waits in the channel. */
  predicate ThrowsAway(s: State, a: Action, r: ServerRequest) {
    a == DropReceiver && Forwarded(ServerRequested(r)) in s.queue
  }

  function LostBy(s: State, a: Action, r: ServerRequest): nat {
    if FindsClosed(s, a, r) then 1 else 0
  }

  function ThrownAwayBy(s: State, a: Action, r: ServerRequest): nat {
    if a == DropReceiver then Waiting(s, r) else 0
  }

  /** How often the request is lost, or thrown away, along a run. */
  function LostAlong(s: State, schedule: seq<Action>, r: ServerRequest): nat
    requires Run(s, schedule).Some?
    decreases |schedule|
  {
    if schedule == [] then 0
    else LostBy(s, schedule[0], r) + LostAlong(Step(s, schedule[0]), schedule[1..], r)
  }

  function ThrownAwayAlong(s: State, schedule: seq<Action>, r: ServerRequest): nat
    requires Run(s, schedule).Some?
    decreases |schedule|
  {
    if schedule == [] then 0
    else ThrownAwayBy(s, schedule[0], r) + ThrownAwayAlong(Step(s, schedule[0]), schedule[1..], r)
  }

  /** No step of the run fulfils the guard. */
  predicate NeverFindsClosed(s: State, schedule: seq<Action>, r: ServerRequest)
    requires Run(s, schedule).Some?
    decreases |schedule|
  {
    schedule == [] || (!FindsClosed(s, schedule[0], r) && NeverFindsClosed(Step(s, schedule[0]), schedule[1..], r))
  }

  predicate NeverThrowsAway(s: State, schedule: seq<Action>, r: ServerRequest)
    requires Run(s, schedule).Some?
    decreases |schedule|
  {
    schedule == [] || (!ThrowsAway(s, schedule[0], r) && NeverThrowsAway(Step(s, schedule[0]), schedule[1..], r))
  }

  lemma {:induction false} NothingLostIffNeverClosed(s: State, schedule: seq<Action>, r: ServerRequest)
    requires Run(s, schedule).Some?
    ensures LostAlong(s, schedule, r) == 0 <==> NeverFindsClosed(s, schedule, r)
    decreases |schedule|
  {
    if schedule != [] {
      NothingLostIffNeverClosed(Step(s, schedule[0]), schedule[1..], r);
    }
  }

  lemma {:induction false} NothingThrownAwayIffNeverWaiting(s: State, schedule: seq<Action>, r: ServerRequest)
    requires Run(s, schedule).Some?
    ensures ThrownAwayAlong(s, schedule, r) == 0 <==> NeverThrowsAway(s, schedule, r)
    decreases |schedule|
  {
    if schedule != [] {
      RequestsAmongMembership(s.queue, r);
      NothingThrownAwayIffNeverWaiting(Step(s, schedule[0]), schedule[1..], r);
    }
  }

  // ----- The logs follow those steps -----

  function Lost(s: State, r: ServerRequest): nat {
    multiset(RequestsIn(s.lost))[r]
  }

  lemma StepLost(s: State, a: Action, r: ServerRequest)
    requires FlowInv(s) && Enabled(s, a)
    ensures Lost(Step(s, a), r) == Lost(s, r) + LostBy(s, a, r)
  {
    if a.Advance? && !s.open {
      LostAppend(s.lost, s.phase.event, r);
    }
  }

  lemma LostAppend(lost: seq<Event>, e: Event, r: ServerRequest)
    ensures multiset(RequestsIn(lost + [e]))[r] == multiset(RequestsIn(lost))[r] + (if e == ServerRequested(r) then 1 else 0)
  {
    RequestsInAppend(lost, e);
  }

  lemma StepThrownAway(s: State, a: Action, r: ServerRequest)
    requires ChannelInv(s) && Enabled(s, a)
    ensures RequestsAmong(Step(s, a).discarded)[r] == RequestsAmong(s.discarded)[r] + ThrownAwayBy(s, a, r)
  {
  }

  lemma {:induction false} RunLost(s: State, schedule: seq<Action>, r: ServerRequest)
    requires Inv(s) && Run(s, schedule).Some?
    ensures var t := Run(s, schedule).value;
            && Lost(t, r) == Lost(s, r) + LostAlong(s, schedule, r)
            && RequestsAmong(t.discarded)[r] == RequestsAmong(s.discarded)[r] + ThrownAwayAlong(s, schedule, r)
    decreases |schedule|
  {
    if schedule != [] {
      StepLost(s, schedule[0], r);
      StepThrownAway(s, schedule[0], r);
      StepInv(s, schedule[0]);
      RunLost(Step(s, schedule[0]), schedule[1..], r);
    }
  }

  /** The ledger, request by request. */
  lemma Ledger(s: State, r: ServerRequest)
    requires Inv(s)
    ensures Taken(s, r) == Enqueued(s, r) + Refused(s, r) + Lost(s, r) + Held(s, r)
    ensures Enqueued(s, r) == Delivered(s, r) + RequestsAmong(s.discarded)[r] + Waiting(s, r)
  {
    HeldIsInHand(s, r);
    RequestsAmongConcat(s.delivered, s.discarded);
    RequestsAmongConcat(s.delivered + s.discarded, s.queue);
  }

  // ----- The theorems -----

  /** One operation of a request's forward: if it ends the forward, the request is then enqueued
      or refused one time more, exactly when the channel was open. */
  lemma ForwardSettlesTheRequestIffOpen(s: State, r: ServerRequest)
    requires Reachable(s) && Holds(s, r)
    ensures Enabled(s, Advance)
    ensures var t := Step(s, Advance);
            var more := Enqueued(t, r) + Refused(t, r) - Enqueued(s, r) - Refused(s, r);
            if Forwarding(t) then more == 0 && Holds(t, r) else (more == 1 <==> s.open) && (more == 0 <==> !s.open)
  {
    ReachableInv(s);
    StepInv(s, Advance);
    Ledger(s, r);
    Ledger(Step(s, Advance), r);
    StepLost(s, Advance, r);
  }

  /** In every run: a request is enqueued or refused once for each time it was taken, except for
      the one in hand and the times the worker found the channel closed. */
  lemma EveryRequestIsSettledOnce(channelCapacity: nat, schedule: seq<Action>, r: ServerRequest)
    requires Run(Init(channelCapacity), schedule).Some?
    ensures var s := Run(Init(channelCapacity), schedule).value;
            && Taken(s, r) == Enqueued(s, r) + Refused(s, r) + Held(s, r) + LostAlong(Init(channelCapacity), schedule, r)
            && (Enqueued(s, r) + Refused(s, r) == Taken(s, r) <==>
                  !Holds(s, r) && NeverFindsClosed(Init(channelCapacity), schedule, r))
  {
    var s0 := Init(channelCapacity);
    var s := Run(s0, schedule).value;
    InitInv(channelCapacity);
    RunInv(s0, schedule);
    RunLost(s0, schedule, r);
    Ledger(s, r);
    NothingLostIffNeverClosed(s0, schedule, r);
  }

  /** In every run: each time a request was taken it was delivered or refused, still waits or is
      in hand, was lost to a closed channel or was thrown away with the receiver.  So every time
      was answered for exactly when none is on its way and no step left one without an answer. */
  lemma EveryRequestIsAccountedFor(channelCapacity: nat, schedule: seq<Action>, r: ServerRequest)
    requires Run(Init(channelCapacity), schedule).Some?
    ensures var s0 := Init(channelCapacity);
            var s := Run(s0, schedule).value;
            && Taken(s, r) == Delivered(s, r) + Refused(s, r) + Waiting(s, r) + Held(s, r)
                              + LostAlong(s0, schedule, r) + ThrownAwayAlong(s0, schedule, r)
            && (Delivered(s, r) + Refused(s, r) == Taken(s, r) <==>
                  && Forwarded(ServerRequested(r)) !in s.queue && !Holds(s, r)
                  && NeverFindsClosed(s0, schedule, r) && NeverThrowsAway(s0, schedule, r))
  {
    var s0 := Init(channelCapacity);
    var s := Run(s0, schedule).value;
    InitInv(channelCapacity);
    RunInv(s0, schedule);
    RunLost(s0, schedule, r);
    Ledger(s, r);
    NothingLostIffNeverClosed(s0, schedule, r);
    NothingThrownAwayIffNeverWaiting(s0, schedule, r);
    RequestsAmongMembership(s.queue, r);
  }

  // ----- Requests the worker does not take -----

  /** How often a request is among the events the runtime offers, of which the worker takes some
      from the front. */
  function Offered(events: seq<Event>, r: ServerRequest): nat {
    multiset(RequestsIn(events))[r]
  }

  lemma OfferedSplits(taken: seq<Event>, offered: seq<Event>, r: ServerRequest)
    requires taken <= offered
    ensures Offered(offered, r) == Offered(taken, r) + Offered(offered[|taken|..], r)
  {
    assert offered == taken + offered[|taken|..];
    RequestsInConcat(taken, offered[|taken|..]);
  }

  /** Every time a request was offered it has been delivered or refused, exactly when every time it
      was offered it has been taken, none is on its way, and no step left one without an answer. */
  lemma EveryOfferedRequestIsAnsweredExactlyWhen(channelCapacity: nat, schedule: seq<Action>, offered: seq<Event>, r: ServerRequest)
    requires Run(Init(channelCapacity), schedule).Some? && Run(Init(channelCapacity), schedule).value.taken <= offered
    ensures var s0 := Init(channelCapacity);
            var s := Run(s0, schedule).value;
            Delivered(s, r) + Refused(s, r) == Offered(offered, r) <==>
              && ServerRequested(r) !in offered[|s.taken|..]
              && Forwarded(ServerRequested(r)) !in s.queue && !Holds(s, r)
              && NeverFindsClosed(s0, schedule, r) && NeverThrowsAway(s0, schedule, r)
  {
    var s := Run(Init(channelCapacity), schedule).value;
    EveryRequestIsAccountedFor(channelCapacity, schedule, r);
    OfferedSplits(s.taken, offered, r);
    RequestMembership(offered[|s.taken|..], r);
  }

  /** What is offered after the stream is disabled is never taken and so never answered, in any
      continuation: that many of the times it is offered stay without an answer. */
  lemma OfferedAfterDisabledIsNeverAnswered(s: State, schedule: seq<Action>, offered: seq<Event>, r: ServerRequest)
    requires Reachable(s) && IsOver(s) && Run(s, schedule).Some? && Run(s, schedule).value.taken <= offered
    ensures var t := Run(s, schedule).value;
            && t.taken == s.taken
            && Delivered(t, r) + Refused(t, r) + Offered(offered[|s.taken|..], r) <= Offered(offered, r)
  {
    var t := Run(s, schedule).value;
    DisabledIsFinal(s, schedule);
    ReachableInv(s);
    RunInv(s, schedule);
    Ledger(t, r);
    OfferedSplits(s.taken, offered, r);
  }

  /** While the receiver is open nothing is left without an answer. */
  lemma {:induction false} OpenChannelLosesNothing(s: State, schedule: seq<Action>, r: ServerRequest)
    requires Run(s, schedule).Some? && Run(s, schedule).value.open
    ensures s.open && NeverFindsClosed(s, schedule, r) && NeverThrowsAway(s, schedule, r)
    decreases |schedule|
  {
    if schedule != [] {
      OpenChannelLosesNothing(Step(s, schedule[0]), schedule[1..], r);
    }
  }

  /** An auth-token refresh is refused every time it comes, never forwarded, never counted
      as skipped and never left over. */
  lemma AuthRefreshIsAlwaysRefused(s: State, id: RequestId)
    requires Reachable(s)
    ensures var r := ChatgptAuthTokensRefresh(id);
            && Enqueued(s, r) == 0
            && Refused(s, r) == Taken(s, r)
            && (s.phase.Idle? ==> Step(s, Take(ServerRequested(r))).skipped == s.skipped)
  {
    ReachableInv(s);
    var r := ChatgptAuthTokensRefresh(id);
    var e := ServerRequested(r);
    assert IsAuthRefresh(e);
    RequestsAmongMembership(s.sent, r);
    RequestMembership(s.lost, r);
    Ledger(s, r);
  }

  /** The two error codes tell the two reasons apart. */
  lemma RejectionCodesTellWhy(s: State, i: nat)
    requires Reachable(s) && i < |s.rejected|
    ensures s.rejected[i].code == -32000 <==> s.rejected[i].request.ChatgptAuthTokensRefresh?
    ensures s.rejected[i].code == -32001 <==> s.rejected[i].request.OtherRequest?
  {
    ReachableInv(s);
  }

  // ----- The two ways are real -----

  /** At most one event is ever lost to a closed channel, and at most the channel's capacity is
      thrown away. */
  lemma LossIsBounded(s: State)
    requires Reachable(s)
    ensures |s.lost| <= 1 && |s.discarded| <= s.capacity
    ensures WithoutAuthRefresh(s.taken) == s.handled + s.lost + InHand(s)
  {
    ReachableInv(s);
  }

  /** Any request but an auth-token refresh can be lost to a closed channel. */
  lemma RequestCanBeLostToClosing(r: ServerRequest) returns (s: State)
    requires r.OtherRequest?
    ensures Reachable(s) && s.taken == [ServerRequested(r)] && s.phase.Disabled?
    ensures Enqueued(s, r) == 0 && Refused(s, r) == 0
  {
    var e := ServerRequested(r);
    var schedule := [DropReceiver, Take(e), Advance];
    var s1 := Step(Init(1), DropReceiver);
    var s2 := Step(s1, Take(e));
    s := Step(s2, Advance);
    assert schedule[1..] == [Take(e), Advance] && [Take(e), Advance][1..] == [Advance] && [Advance][1..] == [];
    assert Run(s2, [Advance]) == Some(s);
    assert Run(s1, [Take(e), Advance]) == Some(s);
    assert Run(Init(1), schedule) == Some(s);
  }

  /** `n` requests arriving while there is room for all of them. */
  lemma {:induction false} RoomForAll(s: State, r: ServerRequest, n: nat)
    requires r.OtherRequest? && s.phase.Idle? && s.open && s.skipped == 0 && |s.queue| + n <= s.capacity
    ensures Run(s, Flood(ServerRequested(r), n)).Some?
    ensures var t := Run(s, Flood(ServerRequested(r), n)).value;
            && t.open && t.phase.Idle? && t.capacity == s.capacity
            && t.delivered == s.delivered && t.rejected == s.rejected && t.lost == s.lost
            && Taken(t, r) == Taken(s, r) + n
    decreases n
  {
    if n > 0 {
      var e := ServerRequested(r);
      var rest := Flood(e, n - 1);
      var s1 := Step(s, Take(e));
      var s2 := Step(s1, Advance);
      assert Flood(e, n)[0] == Take(e) && Flood(e, n)[1..] == [Advance] + rest;
      assert ([Advance] + rest)[0] == Advance && ([Advance] + rest)[1..] == rest;
      RequestsInAppend(s.taken, e);
      RoomForAll(s2, r, n - 1);
    }
  }

  /** For every capacity that many requests can be thrown away with the receiver: enqueued, never
      delivered and never refused. */
  lemma RequestsCanBeThrownAway(r: ServerRequest, capacity: nat) returns (s: State)
    requires r.OtherRequest? && capacity >= 1
    ensures Reachable(s) && s.capacity == capacity && Taken(s, r) == Enqueued(s, r) == capacity
    ensures Delivered(s, r) == 0 && Refused(s, r) == 0 && s.lost == []
  {
    var e := ServerRequested(r);
    var s0 := Init(capacity);
    RoomForAll(s0, r, capacity);
    var t := Run(s0, Flood(e, capacity)).value;
    s := Step(t, DropReceiver);
    assert Run(t, [DropReceiver]) == Some(s) by { assert [DropReceiver][1..] == []; }
    RunConcat(s0, Flood(e, capacity), [DropReceiver]);
    assert Run(s0, Flood(e, capacity) + [DropReceiver]) == Some(s);
    NoneAnswered(s, r);
  }

  lemma NoneAnswered(s: State, r: ServerRequest)
    requires Reachable(s) && s.delivered == [] && s.rejected == [] && s.lost == [] && !Forwarding(s)
    ensures Delivered(s, r) == 0 && Refused(s, r) == 0 && Enqueued(s, r) == Taken(s, r)
  {
    ReachableInv(s);
    Ledger(s, r);
  }
}
