/** Where the context of emitted events comes from, in every run of the reducer. */
module AnalyticsContext {
  import opened Common
  import opened AnalyticsModel

  // ----- What a step leaves alone -----

  /** Only an Initialize changes connections; only thread responses and spawns change threads. */
  lemma StepFrame(s: State, f: Fact)
    ensures !f.Initialize? ==> Step(s, f).state.connections == s.connections
    ensures !f.ThreadResponse? && !f.SubAgentThreadStarted? ==> Step(s, f).state.threads == s.threads
  {
  }

  // ----- The context invariant -----

  predicate ThreadOk(s: State, thread: ThreadState) {
    thread.metadata.Some? && (thread.connection.Some? ==> thread.connection.value in s.connections)
  }

  /** Every known thread has metadata, and a connection it holds is registered. */
  predicate ContextInv(s: State) {
    forall id :: id in s.threads ==> ThreadOk(s, s.threads[id])
  }

  lemma StepContextInv(s: State, f: Fact)
    requires ContextInv(s)
    ensures ContextInv(Step(s, f).state)
  {
    StepFrame(s, f);
    var t := Step(s, f).state;
    forall id | id in t.threads
      ensures ThreadOk(t, t.threads[id])
    {
      if id in s.threads {
        assert ThreadOk(s, s.threads[id]);
      }
      if f.SubAgentThreadStarted? && f.parent.Some? && f.parent.value in s.threads {
        assert ThreadOk(s, s.threads[f.parent.value]);
      }
    }
  }

  /** A thread once known stays known, and once connected stays connected. */
  lemma StepKeepsThreads(s: State, f: Fact, id: ThreadId)
    requires id in s.threads
    ensures id in Step(s, f).state.threads
    ensures s.threads[id].connection.Some? ==> Step(s, f).state.threads[id].connection.Some?
  {
    StepFrame(s, f);
  }

  lemma {:induction false} RunContextInv(s: State, facts: seq<Fact>)
    requires ContextInv(s)
    ensures ContextInv(Run(s, facts).state)
  {
    if facts != [] {
      RunContextInv(s, facts[..|facts| - 1]);
      StepContextInv(Run(s, facts[..|facts| - 1]).state, facts[|facts| - 1]);
    }
  }

  /** In every reachable state the lookup of a thread's context fails only for a thread that is
      unknown or has no connection, its own or inherited through any chain of spawns. */
  lemma ContextLookupFailsOnlyWithoutConnection(facts: seq<Fact>, id: ThreadId)
    ensures var s := Run(EMPTY, facts).state;
            ThreadContext(s, id).None? <==> id !in s.threads || s.threads[id].connection.None?
  {
    RunContextInv(EMPTY, facts);
    var s := Run(EMPTY, facts).state;
    if id in s.threads {
      assert ThreadOk(s, s.threads[id]);
    }
  }

  /** A spawned thread has a context as soon as its parent has one. */
  lemma SpawnedThreadInheritsContext(facts: seq<Fact>, id: ThreadId, parent: ThreadId, sessionId: string, product: string, source: string)
    requires ThreadContext(Run(EMPTY, facts).state, parent).Some?
    ensures ThreadContext(Run(EMPTY, facts + [SubAgentThreadStarted(id, Some(parent), sessionId, product, source)]).state, id).Some?
  {
    var f := SubAgentThreadStarted(id, Some(parent), sessionId, product, source);
    var s := Run(EMPTY, facts).state;
    RunAppend(EMPTY, facts, f);
    ContextLookupFailsOnlyWithoutConnection(facts, parent);
    ContextLookupFailsOnlyWithoutConnection(facts + [f], id);
    assert s.threads[parent].connection.Some?;
  }

  // ----- Connections are what was initialized last -----

  function LastInitialize(facts: seq<Fact>, id: ConnectionId): Option<ConnectionState> {
    if facts == [] then None
    else
      var f := facts[|facts| - 1];
      if f.Initialize? && f.connection == id then Some(ConnectionState(f.client, f.runtime))
      else LastInitialize(facts[..|facts| - 1], id)
  }

  lemma {:induction false} ConnectionsAreTheLastInitialized(facts: seq<Fact>, id: ConnectionId)
    ensures var s := Run(EMPTY, facts).state;
            LastInitialize(facts, id) == if id in s.connections then Some(s.connections[id]) else None
  {
    if facts != [] {
      var front, f := facts[..|facts| - 1], facts[|facts| - 1];
      ConnectionsAreTheLastInitialized(front, id);
      StepFrame(Run(EMPTY, front).state, f);
    }
  }

  // ----- Which threads are connected -----

  /** A thread response on a connection that was initialized before opens the thread. */
  predicate Opens(front: seq<Fact>, f: Fact, id: ThreadId) {
    f.ThreadResponse? && f.thread == id && LastInitialize(front, f.connection).Some?
  }

  predicate Spawns(f: Fact, id: ThreadId) {
    f.SubAgentThreadStarted? && f.thread == id && f.parent.Some?
  }

  /** At some point the thread was opened, or spawned by a thread that was connected by then. */
  predicate Connected(facts: seq<Fact>, id: ThreadId)
    decreases |facts|, 1
  {
    exists n :: 0 <= n < |facts| && ConnectedBy(facts[..n], facts[n], id)
  }

  predicate ConnectedBy(front: seq<Fact>, f: Fact, id: ThreadId)
    decreases |front|, 2
  {
    Opens(front, f, id) || (Spawns(f, id) && Connected(front, f.parent.value))
  }

  /** The connection a thread has: that of its latest opening, or else the one its parent had when
      a spawn first found it connected. */
  function ConnectionFrom(facts: seq<Fact>, id: ThreadId): Option<ConnectionId>
    decreases |facts|
  {
    if facts == [] then None
    else
      var front, f := facts[..|facts| - 1], facts[|facts| - 1];
      if Opens(front, f, id) then Some(f.connection)
      else if Spawns(f, id) && ConnectionFrom(front, id).None? then ConnectionFrom(front, f.parent.value)
      else ConnectionFrom(front, id)
  }

  lemma ConnectedAppend(facts: seq<Fact>, id: ThreadId)
    requires facts != []
    ensures var front, f := facts[..|facts| - 1], facts[|facts| - 1];
            Connected(facts, id) <==> Connected(front, id) || ConnectedBy(front, f, id)
  {
    var front := facts[..|facts| - 1];
    assert forall n :: 0 <= n < |front| ==> front[..n] == facts[..n] && front[n] == facts[n];
    if Connected(front, id) {
      var n :| 0 <= n < |front| && ConnectedBy(front[..n], front[n], id);
      assert ConnectedBy(facts[..n], facts[n], id);
    }
    if ConnectedBy(front, facts[|front|], id) {
      assert ConnectedBy(facts[..|front|], facts[|front|], id);
    }
    if Connected(facts, id) {
      var n :| 0 <= n < |facts| && ConnectedBy(facts[..n], facts[n], id);
      assert n < |front| ==> ConnectedBy(front[..n], front[n], id);
    }
  }

  lemma {:induction false} ConnectedHasConnection(facts: seq<Fact>, id: ThreadId)
    ensures Connected(facts, id) <==> ConnectionFrom(facts, id).Some?
    decreases |facts|
  {
    if facts != [] {
      var front, f := facts[..|facts| - 1], facts[|facts| - 1];
      ConnectedAppend(facts, id);
      ConnectedHasConnection(front, id);
      if Spawns(f, id) {
        ConnectedHasConnection(front, f.parent.value);
      }
    }
  }

  /** In every run a thread has the connection the facts give it. */
  lemma {:induction false} ThreadConnectionsFollowTheFacts(facts: seq<Fact>, id: ThreadId)
    ensures ThreadOf(Run(EMPTY, facts).state, id).connection == ConnectionFrom(facts, id)
    decreases |facts|
  {
    if facts != [] {
      var front, f := facts[..|facts| - 1], facts[|facts| - 1];
      var s := Run(EMPTY, front).state;
      ThreadConnectionsFollowTheFacts(front, id);
      StepFrame(s, f);
      if f.ThreadResponse? {
        ConnectionsAreTheLastInitialized(front, f.connection);
      } else if f.SubAgentThreadStarted? && f.parent.Some? {
        ThreadConnectionsFollowTheFacts(front, f.parent.value);
      }
    }
  }

  /** A thread has a context exactly when it was opened on an initialized connection, or spawned
      by a thread that was connected by then, through any chain of spawns. */
  lemma ThreadHasContextExactlyWhen(facts: seq<Fact>, id: ThreadId)
    ensures ThreadContext(Run(EMPTY, facts).state, id).Some? <==> Connected(facts, id)
  {
    ContextLookupFailsOnlyWithoutConnection(facts, id);
    ThreadConnectionsFollowTheFacts(facts, id);
    ConnectedHasConnection(facts, id);
  }

  // ----- Emitted contexts -----

  predicate HasContext(e: TrackEvent) {
    !e.SubAgentInitialized? && !e.AcceptedLines?
  }

  /** The thread an event is about. */
  function ThreadShown(e: TrackEvent): ThreadId {
    match e
    case ReviewEvent(_, review, _, _, _, _) => review.thread
    case ToolItemEvent(_, key, _, _, _, _, _, _, _, _, _) => key.thread
    case TurnEvent(_, _, payload) => payload.thread
    case _ => e.thread
  }

  /** The context is the thread's metadata with the connection's runtime and client, the client
      under the name of the thread's originator if it has one. */
  predicate Combines(context: Context, thread: ThreadState, connection: ConnectionState) {
    && thread.metadata == Some(context.metadata)
    && context.runtime == connection.runtime
    && context.client.name == connection.client.name && context.client.version == connection.client.version
    && context.client.productClientId ==
       if thread.originator.Some? then thread.originator.value else connection.client.productClientId
  }

  predicate Shows(s: State, e: TrackEvent, c: ConnectionId)
    requires HasContext(e)
  {
    && ThreadShown(e) in s.threads && c in s.connections
    && Combines(e.context, s.threads[ThreadShown(e)], s.connections[c])
  }

  /** The connection whose client and runtime an event shows: that of the reply which caused it;
      or else the turn's own, for a turn event; or else its thread's. */
  function ConnectionShown(s: State, f: Fact, e: TrackEvent): Option<ConnectionId> {
    if f.ThreadResponse? || f.TurnStartResponse? || f.TurnSteerResponse? || f.ErrorResponse? then Some(f.connection)
    else if e.TurnEvent? && TurnOf(s, e.turn).connection.Some? then TurnOf(s, e.turn).connection
    else ThreadOf(s, ThreadShown(e)).connection
  }

  lemma UpdatedTurnShows(s: State, id: TurnId, turn: TurnState, e: TrackEvent)
    requires e in MaybeEmitTurn(WithTurn(s, id, turn), id).out && HasContext(e)
    ensures e.TurnEvent? && e.turn == id && turn.thread == Some(e.payload.thread)
    ensures TurnConnection(s, turn).Some? && Shows(s, e, TurnConnection(s, turn).value)
  {
  }

  lemma ReplyShows(s: State, c: ConnectionId, request: RequestId, turn: TurnId, e: TrackEvent)
    requires e in ReplyTurnStart(s, c, request, turn).out && HasContext(e)
    ensures Shows(s, e, c)
  {
    var pending := s.requests[(c, request)];
    var s1 := WithoutRequest(s, c, request);
    var filled := TurnOf(s1, turn).(connection := Some(c), thread := Some(pending.thread), images := Some(pending.images));
    UpdatedTurnShows(s1, turn, filled, e);
  }

  lemma TurnFactShows(s: State, t: TurnFact, e: TrackEvent)
    requires e in FillTurn(s, t).out && HasContext(e)
    ensures var c := ConnectionShown(s, OfTurn(t), e); c.Some? && Shows(s, e, c.value)
  {
    UpdatedTurnShows(s, TurnNamed(t), Filled(TurnOf(s, TurnNamed(t)), t), e);
  }

  lemma SteerShows(s: State, c: ConnectionId, pending: RequestState, acceptedTurn: Option<TurnId>, reason: Option<string>, e: TrackEvent)
    requires pending.PendingTurnSteer? && e in SteerEvents(s, c, pending, acceptedTurn, reason)
    ensures e.TurnSteerEvent? && Shows(s, e, c)
  {
  }

  lemma SteerReplyShows(s: State, c: ConnectionId, request: RequestId, turn: TurnId, e: TrackEvent)
    requires e in ReplyTurnSteer(s, c, request, turn).out
    ensures e.TurnSteerEvent? && Shows(s, e, c)
  {
    var r := ReplyTurnSteer(s, c, request, turn);
    SteerShows(r.state, c, s.requests[(c, request)], Some(turn), None, e);
  }

  lemma ErrorReplyShows(s: State, c: ConnectionId, request: RequestId, reason: Option<string>, e: TrackEvent)
    requires e in ReplyError(s, c, request, reason).out
    ensures e.TurnSteerEvent? && Shows(s, e, c)
  {
    SteerShows(WithoutRequest(s, c, request), c, s.requests[(c, request)], None, reason, e);
  }

  /** The event shows its thread's own connection. */
  predicate ShowsItsThread(s: State, e: TrackEvent) {
    && HasContext(e) && !e.TurnEvent?
    && ThreadOf(s, ThreadShown(e)).connection.Some? && Shows(s, e, ThreadOf(s, ThreadShown(e)).connection.value)
  }

  lemma ConclusionShows(s: State, review: PendingReview, reviewer: Reviewer, status: ReviewStatus,
                        resolution: Resolution, completedAtMs: nat, e: TrackEvent)
    requires e in ConcludeReview(s, review, reviewer, status, resolution, completedAtMs).out
    ensures ShowsItsThread(s, e)
  {
  }

  lemma SettlementShows(s: State, request: RequestId, status: ReviewStatus, resolution: Resolution, completedAtMs: nat, e: TrackEvent)
    requires e in ResolveApproval(s, request, status, resolution, completedAtMs).out
    ensures ShowsItsThread(s, e)
  {
    var s1 := s.(pendingReviews := s.pendingReviews - {request});
    ConclusionShows(s1, s.pendingReviews[request], User, status, resolution, completedAtMs, e);
  }

  lemma ItemShows(s: State, thread: ThreadId, turn: TurnId, item: ThreadItem, endedAt: int, e: TrackEvent)
    requires e in CompleteItem(s, thread, turn, item, endedAt).out
    ensures ShowsItsThread(s, e)
  {
  }

  lemma ReportShows(s: State, r: Report, e: TrackEvent)
    requires e in ReportEvents(s, r)
    ensures ShowsItsThread(s, e)
  {
  }

  lemma OpenedThreadShows(s: State, c: ConnectionId, id: ThreadId, metadata: ThreadMetadata, originator: Option<string>, e: TrackEvent)
    requires e in OpenThread(s, c, id, metadata, originator).out
    ensures e.ThreadInitialized? && Shows(OpenThread(s, c, id, metadata, originator).state, e, c)
  {
  }

  /** The facts that settle or complete something emit events that show their thread's connection. */
  lemma OtherStepShows(s: State, f: Fact, e: TrackEvent)
    requires e in Step(s, f).out && HasContext(e)
    requires !f.ThreadResponse? && !f.TurnStartResponse? && !f.TurnSteerResponse? && !f.ErrorResponse? && !f.OfTurn?
    ensures ShowsItsThread(s, e)
  {
    if f.ApprovalSettled? {
      SettlementShows(s, f.verdict.request, VerdictOf(f.verdict).0, VerdictOf(f.verdict).1, f.verdict.completedAtMs, e);
    } else if f.ItemCompleted? {
      ItemShows(s, f.thread, f.turn, f.threadItem, f.endedAtMs, e);
    } else if f.GuardianReviewCompleted? {
      ConclusionShows(s, GuardianPending(f.thread, f.turn, f.target, f.name, f.action, f.startedAtMs), Guardian,
                      GuardianResult(f.guardianStatus).value, NoResolution, f.endedAtMs, e);
    } else if f.Reported? {
      ReportShows(s, f.report, e);
    }
  }

  /** The facts that emit something with a context initialize nothing. */
  lemma EmittingKeepsConnections(s: State, f: Fact, e: TrackEvent)
    requires e in Step(s, f).out && HasContext(e)
    ensures Step(s, f).state.connections == s.connections
    ensures !f.ThreadResponse? ==> Step(s, f).state.threads == s.threads
  {
    StepFrame(s, f);
  }

  /** The contexts of one step's events, case by case. */
  lemma StepShows(s: State, f: Fact, e: TrackEvent)
    requires e in Step(s, f).out && HasContext(e)
    ensures var c := ConnectionShown(s, f, e); c.Some? && Shows(Step(s, f).state, e, c.value)
  {
    EmittingKeepsConnections(s, f, e);
    if f.ThreadResponse? {
      OpenedThreadShows(s, f.connection, f.thread, f.metadata, f.threadOriginator, e);
    } else if f.TurnStartResponse? {
      ReplyShows(s, f.connection, f.request, f.turn, e);
    } else if f.TurnSteerResponse? {
      SteerReplyShows(s, f.connection, f.request, f.turn, e);
    } else if f.ErrorResponse? {
      ErrorReplyShows(s, f.connection, f.request, f.reason, e);
    } else if f.OfTurn? {
      TurnFactShows(s, f.turnFact, e);
    } else {
      OtherStepShows(s, f, e);
    }
  }

  /** Every emitted context combines the metadata of the event's own thread with what the latest
      Initialize of the connection it shows said before that event. */
  lemma EmittedContextComesFromInitialize(facts: seq<Fact>, f: Fact, e: TrackEvent)
    requires e in Step(Run(EMPTY, facts).state, f).out && HasContext(e)
    ensures var s := Run(EMPTY, facts).state;
            var threads, c := Step(s, f).state.threads, ConnectionShown(s, f, e);
            && ThreadShown(e) in threads
            && c.Some? && LastInitialize(facts, c.value).Some?
            && Combines(e.context, threads[ThreadShown(e)], LastInitialize(facts, c.value).value)
  {
    var s := Run(EMPTY, facts).state;
    StepShows(s, f, e);
    EmittingKeepsConnections(s, f, e);
    ConnectionsAreTheLastInitialized(facts, ConnectionShown(s, f, e).value);
  }
}
