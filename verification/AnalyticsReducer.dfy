/**
 The reducer object: seven maps updated in place, fact by fact, with events pushed to a list.
 Its ghost history holds every fact it was given, and it stays in the state that history leads
 to, so what is proved of runs holds of this object and of every event it emits.
 */
module AnalyticsReducer {
  import opened Common
  import opened AnalyticsModel
  import opened AnalyticsContext
  import opened AnalyticsCounters
  import opened AnalyticsDetails
  import opened AnalyticsItems
  import opened AnalyticsReviews
  import DiffScanner

  /** What an event says of where it comes from. */
  predicate TrueContext(e: TrackEvent, history: seq<Fact>, f: Fact)
    requires HasContext(e)
  {
    var s := Run(EMPTY, history).state;
    var c := ConnectionShown(s, f, e);
    && ThreadShown(e) in Step(s, f).state.threads && c.Some? && LastInitialize(history, c.value).Some?
    && Combines(e.context, Step(s, f).state.threads[ThreadShown(e)], LastInitialize(history, c.value).value)
  }

  predicate TrueTurn(e: TrackEvent, history: seq<Fact>, f: Fact)
    requires e.TurnEvent?
  {
    && TellsHistory(e.payload, HistoryOf(history, e.turn))
    && PayloadTells(e.payload, ToldNext(ToldBy(history, e.turn), history, f, e.turn))
  }

  predicate TrueItem(e: TrackEvent, history: seq<Fact>, f: Fact)
    requires e.ToolItemEvent?
  {
    && Describes(e, ReviewsSinceClear(history, e.key))
    && IsReportable(history, f) && SaysItem(e, f, StartedAt(history, KeyOf(f)).value)
  }

  predicate TrueReview(e: TrackEvent, history: seq<Fact>, f: Fact)
    requires e.ReviewEvent?
  {
    var c := Concluded(history, f);
    c.Some? && SaysReview(e, c.value.0, c.value.1, ConcludedAt(f))
  }

  /** What an event emitted at a fact, after a history, says is so. */
  predicate Truthful(e: TrackEvent, history: seq<Fact>, f: Fact) {
    && (HasContext(e) ==> TrueContext(e, history, f))
    && (e.TurnEvent? ==> TrueTurn(e, history, f))
    && (e.ToolItemEvent? ==> TrueItem(e, history, f))
    && (e.ReviewEvent? ==> TrueReview(e, history, f))
  }

  lemma ContextIsTrue(history: seq<Fact>, f: Fact, e: TrackEvent)
    requires e in Step(Run(EMPTY, history).state, f).out && HasContext(e)
    ensures TrueContext(e, history, f)
  {
    EmittedContextComesFromInitialize(history, f, e);
  }

  lemma TurnIsTrue(history: seq<Fact>, f: Fact, e: TrackEvent)
    requires e in Step(Run(EMPTY, history).state, f).out && e.TurnEvent?
    ensures TrueTurn(e, history, f)
  {
    TurnEventCountersFollowHistory(history, f, e);
    TurnEventTellsItsFacts(history, f, e);
  }

  lemma ItemIsTrue(history: seq<Fact>, f: Fact, e: TrackEvent)
    requires e in Step(Run(EMPTY, history).state, f).out && e.ToolItemEvent?
    ensures TrueItem(e, history, f)
  {
    ToolEventCountsItsReviews(history, f, e);
    ToolItemIsReportedExactlyWhen(history, f);
  }

  lemma ReviewIsTrue(history: seq<Fact>, f: Fact, e: TrackEvent)
    requires e in Step(Run(EMPTY, history).state, f).out && e.ReviewEvent?
    ensures TrueReview(e, history, f)
  {
    ReviewIsReportedExactlyWhen(history, f);
  }

  lemma EmittedIsTruthful(history: seq<Fact>, f: Fact, e: TrackEvent)
    requires e in Step(Run(EMPTY, history).state, f).out
    ensures Truthful(e, history, f)
  {
    if HasContext(e) {
      ContextIsTrue(history, f, e);
    }
    if e.TurnEvent? {
      TurnIsTrue(history, f, e);
    } else if e.ToolItemEvent? {
      ItemIsTrue(history, f, e);
    } else if e.ReviewEvent? {
      ReviewIsTrue(history, f, e);
    }
  }

  /** Something holds at one of the facts of a run, after those before it. */
  predicate HoldsAt(facts: seq<Fact>, p: (seq<Fact>, Fact) -> bool) {
    exists n :: 0 <= n < |facts| && p(facts[..n], facts[n])
  }

  lemma HoldsLater(facts: seq<Fact>, f: Fact, p: (seq<Fact>, Fact) -> bool)
    requires HoldsAt(facts, p) || p(facts, f)
    ensures HoldsAt(facts + [f], p)
  {
    var all := facts + [f];
    if HoldsAt(facts, p) {
      var n :| 0 <= n < |facts| && p(facts[..n], facts[n]);
      assert all[..n] == facts[..n] && all[n] == facts[n];
    } else {
      assert all[..|facts|] == facts && all[|facts|] == f;
    }
  }

  function TruthOf(e: TrackEvent): (seq<Fact>, Fact) -> bool {
    (history, f) => Truthful(e, history, f)
  }

  /** Truthful at one of the facts of a run. */
  predicate TruthfulAt(e: TrackEvent, facts: seq<Fact>) {
    HoldsAt(facts, TruthOf(e))
  }

  lemma InEither<T>(a: seq<T>, b: seq<T>, x: T)
    requires x in a + b
    ensures x in a || x in b
  {
  }

  /** Every event of every run is truthful at a fact of it. */
  lemma {:induction false} EveryEventIsTruthful(facts: seq<Fact>, e: TrackEvent)
    requires e in Run(EMPTY, facts).out
    ensures TruthfulAt(e, facts)
    decreases |facts|
  {
    var front, f := facts[..|facts| - 1], facts[|facts| - 1];
    assert facts == front + [f];
    RunAppend(EMPTY, front, f);
    InEither(Run(EMPTY, front).out, Step(Run(EMPTY, front).state, f).out, e);
    if e in Run(EMPTY, front).out {
      EveryEventIsTruthful(front, e);
      HoldsLater(front, f, TruthOf(e));
    } else {
      LastIsTruthful(front, f, e);
    }
  }

  lemma LastIsTruthful(front: seq<Fact>, f: Fact, e: TrackEvent)
    requires e in Step(Run(EMPTY, front).state, f).out
    ensures TruthfulAt(e, front + [f])
  {
    EmittedIsTruthful(front, f, e);
    HoldsLater(front, f, TruthOf(e));
  }

  /** After the first `i` of the facts: what they made of a history and of the events emitted. */
  predicate Fed<F(==), E(==)>(start: seq<F>, facts: seq<F>, i: nat, history: seq<F>, first: seq<E>, emitted: seq<E>, out: seq<E>) {
    i <= |facts| && history == start + facts[..i] && emitted == first + out
  }

  lemma FedOne<F, E>(start: seq<F>, facts: seq<F>, i: nat, past: seq<F>, history: seq<F>,
                     first: seq<E>, before: seq<E>, emitted: seq<E>, was: seq<E>, out: seq<E>)
    requires i < |facts| && Fed(start, facts, i, past, first, before, was)
    requires history == past + [facts[i]] && was <= out && emitted == before + out[|was|..]
    ensures Fed(start, facts, i + 1, history, first, emitted, out)
  {
    assert facts[..i + 1] == facts[..i] + [facts[i]];
    assert out == was + out[|was|..];
  }

  class Reducer {
    var requests: map<(ConnectionId, RequestId), RequestState>
    var turns: map<TurnId, TurnState>
    var connections: map<ConnectionId, ConnectionState>
    var threads: map<ThreadId, ThreadState>
    var startedItems: map<ItemKey, nat>
    var pendingReviews: map<RequestId, PendingReview>
    var summaries: map<ItemKey, ReviewSummary>
    ghost var history: seq<Fact>
    ghost var emitted: seq<TrackEvent>

    ghost function View(): State
      reads this
    {
      State(requests, turns, connections, threads, startedItems, pendingReviews, summaries)
    }

    ghost predicate Valid()
      reads this
    {
      View() == Run(EMPTY, history).state && emitted == Run(EMPTY, history).out
    }

    constructor ()
      ensures Valid() && history == [] && emitted == []
    {
      requests, turns, connections, threads := map[], map[], map[], map[];
      startedItems, pendingReviews, summaries := map[], map[], map[];
      history, emitted := [], [];
    }

    /** The loop that feeds facts to the reducer: what it returns is what the facts add to the
        events of the whole history, and every event tells the truth about that history. */
    method IngestAll(facts: seq<Fact>) returns (out: seq<TrackEvent>)
      requires Valid()
      modifies this
      ensures Valid() && history == old(history) + facts && emitted == old(emitted) + out
      ensures forall e :: e in out ==> TruthfulAt(e, history)
    {
      out := Feed(facts);
      forall e | e in out ensures TruthfulAt(e, history) {
        EveryEventIsTruthful(history, e);
      }
    }

    method Feed(facts: seq<Fact>) returns (out: seq<TrackEvent>)
      requires Valid()
      modifies this
      ensures Valid() && history == old(history) + facts && emitted == old(emitted) + out
    {
      out := [];
      for i := 0 to |facts|
        invariant Valid() && Fed(old(history), facts, i, history, old(emitted), emitted, out)
      {
        ghost var past, before, was := history, emitted, out;
        out := Ingest(facts[i], out);
        FedOne(old(history), facts, i, past, history, old(emitted), before, emitted, was, out);
      }
      assert facts[..|facts|] == facts;
    }

    /** Takes one fact: the history grows by it, and state and events follow. */
    method Ingest(fact: Fact, out: seq<TrackEvent>) returns (out': seq<TrackEvent>)
      requires Valid()
      modifies this
      ensures Valid() && history == old(history) + [fact]
      ensures out <= out' && emitted == old(emitted) + out'[|out|..]
    {
      out' := Dispatch(fact, out);
      RunAppend(EMPTY, history, fact);
      history, emitted := history + [fact], emitted + out'[|out|..];
    }

    method Dispatch(fact: Fact, out: seq<TrackEvent>) returns (out': seq<TrackEvent>)
      modifies this`requests, this`turns, this`connections, this`threads, this`startedItems, this`pendingReviews, this`summaries
      ensures View() == Step(old(View()), fact).state
      ensures out' == out + Step(old(View()), fact).out
    {
      out' := out;
      match fact {
        case Initialize(connection, client, runtime) =>
          connections := connections[connection := ConnectionState(client, runtime)];
        case TurnStartRequest(_, _, _, _) | TurnSteerRequest(_, _, _, _, _, _) =>
          IngestRequest(fact);
        case ThreadResponse(_, _, _, _) | TurnStartResponse(_, _, _) | TurnSteerResponse(_, _, _) =>
          out' := IngestResponse(fact, out);
        case ErrorResponse(connection, request, reason) =>
          out' := IngestErrorResponse(connection, request, reason, out);
        case ApprovalRequest(request, approval, thread, turn, item, startedAt) =>
          IngestServerRequest(request, approval, thread, turn, item, startedAt);
        case ApprovalSettled(verdict) =>
          var (status, resolution) := VerdictOf(verdict);
          out' := ResolvePendingReview(verdict.request, status, resolution, verdict.completedAtMs, out);
        case ItemStarted(_, _, _, _) | ItemCompleted(_, _, _, _) | GuardianReviewCompleted(_, _, _, _, _, _, _, _) =>
          out' := IngestItemNotification(fact, out);
        case SubAgentThreadStarted(thread, parent, sessionId, productClientId, source) =>
          out' := IngestSubAgentThreadStarted(thread, parent, sessionId, productClientId, source, out);
        case OfTurn(turnFact) =>
          out' := IngestTurnFact(turnFact, out);
        case Reported(report) =>
          out' := IngestReport(report, out);
      }
    }

    method IngestRequest(fact: Fact)
      requires fact.TurnStartRequest? || fact.TurnSteerRequest?
      modifies this`requests
      ensures View() == Step(old(View()), fact).state
    {
      match fact {
        case TurnStartRequest(connection, request, thread, images) =>
          requests := requests[(connection, request) := PendingTurnStart(thread, images)];
        case TurnSteerRequest(connection, request, thread, expectedTurn, images, createdAt) =>
          requests := requests[(connection, request) := PendingTurnSteer(thread, expectedTurn, images, createdAt)];
      }
    }

    method IngestResponse(fact: Fact, out: seq<TrackEvent>) returns (out': seq<TrackEvent>)
      requires fact.ThreadResponse? || fact.TurnStartResponse? || fact.TurnSteerResponse?
      modifies this`requests, this`turns, this`threads
      ensures View() == Step(old(View()), fact).state
      ensures out' == out + Step(old(View()), fact).out
    {
      match fact {
        case ThreadResponse(connection, thread, metadata, originator) =>
          out' := EmitThreadInitialized(connection, thread, metadata, originator, out);
        case TurnStartResponse(connection, request, turn) =>
          out' := IngestTurnStartResponse(connection, request, turn, out);
        case TurnSteerResponse(connection, request, turn) =>
          out' := IngestTurnSteerResponse(connection, request, turn, out);
      }
    }

    method IngestItemNotification(fact: Fact, out: seq<TrackEvent>) returns (out': seq<TrackEvent>)
      requires fact.ItemStarted? || fact.ItemCompleted? || fact.GuardianReviewCompleted?
      modifies this`turns, this`startedItems, this`summaries
      ensures View() == Step(old(View()), fact).state
      ensures out' == out + Step(old(View()), fact).out
    {
      out' := out;
      match fact {
        case ItemStarted(thread, turn, item, startedAt) =>
          if IsTracked(item.kind) && startedAt >= 0 {
            startedItems := startedItems[ItemKey(thread, turn, item.id) := startedAt];
          }
        case ItemCompleted(thread, turn, item, endedAt) =>
          out' := IngestItemCompleted(thread, turn, item, endedAt, out);
        case GuardianReviewCompleted(_, _, _, _, _, _, _, _) =>
          out' := IngestGuardianReviewCompleted(fact, out);
      }
    }

    method IngestServerRequest(request: RequestId, approval: Approval, thread: ThreadId, turn: TurnId, item: ItemId, startedAt: int)
      modifies this`pendingReviews
      ensures View() == Step(old(View()), ApprovalRequest(request, approval, thread, turn, item, startedAt)).state
    {
      if startedAt >= 0 {
        pendingReviews := pendingReviews[request := PendingApproval(request, approval, thread, turn, item, startedAt)];
      }
    }

    method IngestGuardianReviewCompleted(fact: Fact, out: seq<TrackEvent>) returns (out': seq<TrackEvent>)
      requires fact.GuardianReviewCompleted?
      modifies this`summaries
      ensures View() == Step(old(View()), fact).state
      ensures out' == out + Step(old(View()), fact).out
    {
      out' := out;
      var status := GuardianResult(fact.guardianStatus);
      if status.Some? && fact.startedAtMs >= 0 && fact.endedAtMs >= 0 {
        var review := GuardianPending(fact.thread, fact.turn, fact.target, fact.name, fact.action, fact.startedAtMs);
        out' := EmitReviewEvent(review, Guardian, status.value, NoResolution, fact.endedAtMs, out);
      }
    }

    method IngestReport(report: Report, out: seq<TrackEvent>) returns (out': seq<TrackEvent>)
      ensures out' == out + ReportEvents(View(), report)
    {
      out' := out;
      var context := LookUpThreadContext(report.thread);
      if context.None? {
        return;
      }
      match report {
        case Compaction(thread, turn) => out' := out + [CompactionEvent(context.value, thread, turn)];
        case Goal(thread) => out' := out + [GoalEvent(context.value, thread)];
        case GuardianReview(thread, turn, name) => out' := out + [GuardianReviewEvent(context.value, thread, turn, name)];
      }
    }

    /** The facts that fill in a turn: each updates the turn's entry, made if it is missing, and
        some then try to emit it. */
    method IngestTurnFact(fact: TurnFact, out: seq<TrackEvent>) returns (out': seq<TrackEvent>)
      modifies this`turns
      ensures View() == FillTurn(old(View()), fact).state
      ensures out' == out + FillTurn(old(View()), fact).out
    {
      out' := out;
      var id := TurnNamed(fact);
      var turn := if id in turns then turns[id] else NEW_TURN;
      match fact {
        case TurnStarted(_, startedAt) =>
          turn := turn.(startedAt := Converted(startedAt));
        case TurnDiffUpdated(thread, _, diff) =>
          turn := turn.(thread := Some(thread));
          turn := turn.(latestDiff := Some(diff));
        case TurnCompleted(_, status, error, completedAt, durationMs) =>
          turn := turn.(completed := Some(CompletionOf(status, error, completedAt, durationMs)));
        case TurnResolvedConfig(config) =>
          turn := turn.(thread := Some(config.thread));
          turn := turn.(images := Some(config.images));
          turn := turn.(config := Some(config));
        case TurnTokenUsage(_, thread, tokens) =>
          turn := turn.(thread := Some(thread));
          turn := turn.(tokens := Some(tokens));
        case TurnProfile(_, profile) =>
          turn := turn.(profile := Some(profile));
        case TurnCodexError(_, thread, error) =>
          if turn.thread.None? {
            turn := turn.(thread := Some(thread));
          }
          turn := turn.(codexError := Some(error));
      }
      assert turn == Filled(TurnOf(View(), id), fact);
      turns := turns[id := turn];
      if MayCompleteTurn(fact) {
        out' := MaybeEmitTurnEvent(id, out);
      }
    }

    method MaybeEmitTurnEvent(id: TurnId, out: seq<TrackEvent>) returns (out': seq<TrackEvent>)
      modifies this`turns
      ensures View() == MaybeEmitTurn(old(View()), id).state
      ensures out' == out + MaybeEmitTurn(old(View()), id).out
    {
      out' := out;
      if id !in turns {
        return;
      }
      var turn := turns[id];
      if turn.thread.None? || turn.images.None? || turn.config.None? || turn.profile.None? || turn.completed.None? {
        return;
      }
      var threadId := turn.thread.value;
      var connectionId := turn.connection;
      if connectionId.None? && threadId in threads {
        connectionId := threads[threadId].connection;
      }
      if connectionId.None? || connectionId.value !in connections || threadId !in threads {
        return;
      }
      var connection, thread := connections[connectionId.value], threads[threadId];
      if thread.metadata.None? {
        return;
      }
      var context := Context(ClientOf(thread, connection), connection.runtime, thread.metadata.value);
      out' := out' + [TurnEvent(context, id, PayloadOf(turn))];
      if turn.latestDiff.Some? {
        var summary := DiffScanner.AcceptedLines(turn.latestDiff.value, c => false);
        if summary.added != 0 || summary.deleted != 0 {
          out' := out' + [AcceptedLines(id, threadId, summary.added, summary.deleted)];
        }
      }
      assert out' == out + ([TurnEvent(context, id, PayloadOf(turn))] + AcceptedLinesOf(id, turn));
      turns := turns - {id};
    }

    method LookUpThreadContext(id: ThreadId) returns (context: Option<Context>)
      ensures context == ThreadContext(View(), id)
    {
      if id !in threads {
        return None;
      }
      var thread := threads[id];
      if thread.connection.None? || thread.connection.value !in connections {
        return None;
      }
      var connection := connections[thread.connection.value];
      if thread.metadata.None? {
        return None;
      }
      context := Some(Context(ClientOf(thread, connection), connection.runtime, thread.metadata.value));
    }

    method EmitThreadInitialized(connectionId: ConnectionId, id: ThreadId, metadata: ThreadMetadata,
                                 originator: Option<string>, out: seq<TrackEvent>) returns (out': seq<TrackEvent>)
      modifies this`threads
      ensures View() == OpenThread(old(View()), connectionId, id, metadata, originator).state
      ensures out' == out + OpenThread(old(View()), connectionId, id, metadata, originator).out
    {
      if connectionId !in connections {
        return out;
      }
      var connection := connections[connectionId];
      var thread := if id in threads then threads[id] else NEW_THREAD;
      if originator.Some? {
        thread := thread.(originator := originator);
      }
      thread := thread.(connection := Some(connectionId));
      thread := thread.(metadata := Some(metadata));
      threads := threads[id := thread];
      out' := out + [ThreadInitialized(Context(ClientOf(thread, connection), connection.runtime, metadata), id)];
    }

    method IngestSubAgentThreadStarted(id: ThreadId, parent: Option<ThreadId>, sessionId: string, productClientId: string,
                                       source: string, out: seq<TrackEvent>) returns (out': seq<TrackEvent>)
      modifies this`threads
      ensures View() == SpawnThread(old(View()), id, parent, sessionId, productClientId, source).state
      ensures out' == out + SpawnThread(old(View()), id, parent, sessionId, productClientId, source).out
    {
      var parentConnection: Option<ConnectionId> := None;
      if parent.Some? && parent.value in threads {
        parentConnection := threads[parent.value].connection;
      }
      var thread := if id in threads then threads[id] else NEW_THREAD;
      if thread.originator.None? {
        thread := thread.(originator := Some(productClientId));
      }
      var metadata := ThreadMetadata(sessionId, New, Some(source), parent);
      if thread.metadata.None? {
        thread := thread.(metadata := Some(metadata));
      }
      if thread.connection.None? {
        thread := thread.(connection := parentConnection);
      }
      threads := threads[id := thread];
      out' := out + [SubAgentInitialized(id, metadata)];
    }

    method IngestTurnStartResponse(connection: ConnectionId, request: RequestId, turnId: TurnId, out: seq<TrackEvent>)
      returns (out': seq<TrackEvent>)
      modifies this`requests, this`turns
      ensures View() == ReplyTurnStart(old(View()), connection, request, turnId).state
      ensures out' == out + ReplyTurnStart(old(View()), connection, request, turnId).out
    {
      out' := out;
      var known := (connection, request) in requests;
      var pending := if known then requests[(connection, request)] else PendingTurnStart(ThreadId(""), 0);
      requests := requests - {(connection, request)};
      if !known || !pending.PendingTurnStart? {
        return;
      }
      var turn := if turnId in turns then turns[turnId] else NEW_TURN;
      turn := turn.(connection := Some(connection));
      turn := turn.(thread := Some(pending.thread));
      turn := turn.(images := Some(pending.images));
      turns := turns[turnId := turn];
      out' := MaybeEmitTurnEvent(turnId, out);
    }

    method IngestTurnSteerResponse(connection: ConnectionId, request: RequestId, turnId: TurnId, out: seq<TrackEvent>)
      returns (out': seq<TrackEvent>)
      modifies this`requests, this`turns
      ensures View() == ReplyTurnSteer(old(View()), connection, request, turnId).state
      ensures out' == out + ReplyTurnSteer(old(View()), connection, request, turnId).out
    {
      out' := out;
      var known := (connection, request) in requests;
      var pending := if known then requests[(connection, request)] else PendingTurnStart(ThreadId(""), 0);
      requests := requests - {(connection, request)};
      if !known || !pending.PendingTurnSteer? {
        return;
      }
      if turnId in turns {
        var turn := turns[turnId];
        turns := turns[turnId := turn.(steerCount := turn.steerCount + 1)];
      }
      out' := EmitTurnSteerEvent(connection, pending, Some(turnId), None, out);
    }

    method IngestErrorResponse(connection: ConnectionId, request: RequestId, reason: Option<string>, out: seq<TrackEvent>)
      returns (out': seq<TrackEvent>)
      modifies this`requests
      ensures View() == ReplyError(old(View()), connection, request, reason).state
      ensures out' == out + ReplyError(old(View()), connection, request, reason).out
    {
      out' := out;
      if (connection, request) !in requests {
        assert requests - {(connection, request)} == requests;
        return;
      }
      var pending := requests[(connection, request)];
      requests := requests - {(connection, request)};
      if pending.PendingTurnSteer? {
        out' := EmitTurnSteerEvent(connection, pending, None, reason, out);
      }
    }

    method EmitTurnSteerEvent(connectionId: ConnectionId, pending: RequestState, acceptedTurn: Option<TurnId>,
                              reason: Option<string>, out: seq<TrackEvent>) returns (out': seq<TrackEvent>)
      requires pending.PendingTurnSteer?
      ensures out' == out + SteerEvents(View(), connectionId, pending, acceptedTurn, reason)
    {
      out' := out;
      if connectionId !in connections || pending.thread !in threads {
        return;
      }
      var connection, thread := connections[connectionId], threads[pending.thread];
      if thread.metadata.None? {
        return;
      }
      var context := Context(ClientOf(thread, connection), connection.runtime, thread.metadata.value);
      out' := out + [TurnSteerEvent(context, pending.thread, pending.expectedTurn, acceptedTurn, pending.images,
                                    acceptedTurn.Some?, reason, pending.createdAt)];
    }

    method ResolvePendingReview(request: RequestId, status: ReviewStatus, resolution: Resolution, completedAt: nat, out: seq<TrackEvent>)
      returns (out': seq<TrackEvent>)
      modifies this`pendingReviews, this`summaries
      ensures View() == ResolveApproval(old(View()), request, status, resolution, completedAt).state
      ensures out' == out + ResolveApproval(old(View()), request, status, resolution, completedAt).out
    {
      if request !in pendingReviews {
        return out;
      }
      var review := pendingReviews[request];
      pendingReviews := pendingReviews - {request};
      out' := EmitReviewEvent(review, User, status, resolution, completedAt, out);
    }

    method EmitReviewEvent(review: PendingReview, reviewer: Reviewer, status: ReviewStatus, resolution: Resolution,
                           completedAt: nat, out: seq<TrackEvent>) returns (out': seq<TrackEvent>)
      modifies this`summaries
      ensures View() == ConcludeReview(old(View()), review, reviewer, status, resolution, completedAt).state
      ensures out' == out + ConcludeReview(old(View()), review, reviewer, status, resolution, completedAt).out
    {
      var key := SummaryKey(review);
      if key.Some? {
        RecordItemReviewSummary(key.value, reviewer, status, resolution, review);
      }
      var context := LookUpThreadContext(review.thread);
      if context.None? {
        return out;
      }
      out' := out + [ReviewEvent(context.value, review, reviewer, status, resolution, completedAt)];
    }

    method RecordItemReviewSummary(key: ItemKey, reviewer: Reviewer, status: ReviewStatus, resolution: Resolution, review: PendingReview)
      modifies this`summaries
      ensures summaries == old(summaries)[key :=
                RecordReview(old(SummaryOf(View(), key)), reviewer, FinalOutcome(reviewer, status, resolution), review)]
    {
      var summary := if key in summaries then summaries[key] else NO_REVIEWS;
      summary := summary.(reviews := summary.reviews + 1);
      match reviewer {
        case Guardian => summary := summary.(byGuardian := summary.byGuardian + 1);
        case User => summary := summary.(byUser := summary.byUser + 1);
      }
      summary := summary.(outcome := Some(FinalOutcome(reviewer, status, resolution)));
      summary := summary.(wantsPermissions := summary.wantsPermissions || review.wantsPermissions);
      summary := summary.(wantsNetwork := summary.wantsNetwork || review.wantsNetwork);
      summaries := summaries[key := summary];
    }

    method IngestItemCompleted(thread: ThreadId, turnId: TurnId, item: ThreadItem, endedAt: int, out: seq<TrackEvent>)
      returns (out': seq<TrackEvent>)
      modifies this`turns, this`startedItems, this`summaries
      ensures View() == CompleteItem(old(View()), thread, turnId, item, endedAt).state
      ensures out' == out + CompleteItem(old(View()), thread, turnId, item, endedAt).out
    {
      out' := out;
      if item.kind.SubAgentActivity? {
        if turnId in turns {
          RecordToolCount(turnId, item.kind);
        }
        return;
      }
      if !IsTracked(item.kind) || turnId !in turns {
        return;
      }
      RecordToolCount(turnId, item.kind);
      var key := ItemKey(thread, turnId, item.id);
      if key !in startedItems {
        return;
      }
      var startedAt := startedItems[key];
      startedItems := startedItems - {key};
      if endedAt < 0 {
        return;
      }
      var context := LookUpThreadContext(thread);
      if context.None? {
        return;
      }
      if HasOutcome(item) {
        var summary := if key in summaries then summaries[key] else NO_REVIEWS;
        out' := out + [ToolEvent(context.value, key, item.kind, startedAt, endedAt, summary)];
      }
      summaries := summaries - {key};
    }

    method RecordToolCount(turnId: TurnId, kind: ItemKind)
      requires turnId in turns
      modifies this`turns
      ensures View() == CountItem(old(View()), turnId, kind)
    {
      var turn := turns[turnId];
      var tools := turn.tools;
      var counted := true;
      match kind {
        case CommandExecution => tools := tools.(shell := tools.shell + 1);
        case FileChange => tools := tools.(file := tools.file + 1);
        case McpToolCall => tools := tools.(mcp := tools.mcp + 1);
        case DynamicToolCall => tools := tools.(dynamic_ := tools.dynamic_ + 1);
        case CollabAgentToolCall | SubAgentActivity => tools := tools.(subagent := tools.subagent + 1);
        case WebSearch => tools := tools.(web := tools.web + 1);
        case ImageGeneration => tools := tools.(image := tools.image + 1);
        case _ => counted := false;
      }
      if counted {
        tools := tools.(total := tools.total + 1);
      }
      turns := turns[turnId := turn.(tools := tools)];
    }
  }
}
