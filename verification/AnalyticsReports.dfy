/** Exactly when steers, threads and reports are announced, and what the announcements say. */
module AnalyticsReports {
  import opened Common
  import opened AnalyticsModel
  import opened AnalyticsContext
  import opened AnalyticsRequests

  // ----- What is known of a thread -----

  predicate IsSpawn(f: Fact, id: ThreadId) {
    f.SubAgentThreadStarted? && f.thread == id
  }

  /** Opened on an initialized connection, or spawned. */
  predicate ThreadKnown(facts: seq<Fact>, id: ThreadId) {
    facts != [] &&
    var front, f := facts[..|facts| - 1], facts[|facts| - 1];
    Opens(front, f, id) || IsSpawn(f, id) || ThreadKnown(front, id)
  }

  function SpawnMetadata(f: Fact): ThreadMetadata
    requires f.SubAgentThreadStarted?
  {
    ThreadMetadata(f.sessionId, New, Some(f.source), f.parent)
  }

  /** What the latest opening said, or else the first spawn. */
  function MetadataFrom(facts: seq<Fact>, id: ThreadId): Option<ThreadMetadata> {
    if facts == [] then None
    else
      var front, f := facts[..|facts| - 1], facts[|facts| - 1];
      if Opens(front, f, id) then Some(f.metadata)
      else if IsSpawn(f, id) && MetadataFrom(front, id).None? then Some(SpawnMetadata(f))
      else MetadataFrom(front, id)
  }

  /** The latest originator an opening gave, or else the product of the first spawn. */
  function OriginatorFrom(facts: seq<Fact>, id: ThreadId): Option<string> {
    if facts == [] then None
    else
      var front, f := facts[..|facts| - 1], facts[|facts| - 1];
      if Opens(front, f, id) && f.threadOriginator.Some? then f.threadOriginator
      else if IsSpawn(f, id) && OriginatorFrom(front, id).None? then Some(f.productClientId)
      else OriginatorFrom(front, id)
  }

  /** In every run the known threads, their metadata and their originators follow the facts. */
  lemma {:induction false} ThreadsFollowTheFacts(facts: seq<Fact>, id: ThreadId)
    ensures var s := Run(EMPTY, facts).state;
            && (id in s.threads <==> ThreadKnown(facts, id))
            && ThreadOf(s, id).metadata == MetadataFrom(facts, id) && ThreadOf(s, id).originator == OriginatorFrom(facts, id)
  {
    if facts != [] {
      var front, f := facts[..|facts| - 1], facts[|facts| - 1];
      var s := Run(EMPTY, front).state;
      ThreadsFollowTheFacts(front, id);
      StepFrame(s, f);
      if f.ThreadResponse? {
        ConnectionsAreTheLastInitialized(front, f.connection);
      }
    }
  }

  /** In every run the context of an event shows its thread's metadata, and its product client is
      the thread's originator or else that of the connection shown. */
  lemma EmittedContextFollowsTheFacts(facts: seq<Fact>, f: Fact, e: TrackEvent)
    requires e in Step(Run(EMPTY, facts).state, f).out && HasContext(e)
    ensures var all, thread, c := facts + [f], ThreadShown(e), ConnectionShown(Run(EMPTY, facts).state, f, e);
            && MetadataFrom(all, thread) == Some(e.context.metadata)
            && c.Some? && LastInitialize(facts, c.value).Some?
            && e.context.client.productClientId ==
               (if OriginatorFrom(all, thread).Some? then OriginatorFrom(all, thread).value
                else LastInitialize(facts, c.value).value.client.productClientId)
  {
    EmittedContextComesFromInitialize(facts, f, e);
    RunAppend(EMPTY, facts, f);
    ThreadsFollowTheFacts(facts + [f], ThreadShown(e));
  }

  // ----- Steers -----

  predicate IsSteerReply(f: Fact) {
    f.TurnSteerResponse? || f.ErrorResponse?
  }

  /** A reply to a pending steer, on an initialized connection, for a known thread. */
  predicate ReportsSteer(front: seq<Fact>, f: Fact) {
    && IsSteerReply(f) && LastInitialize(front, f.connection).Some?
    && var pending := PendingRequestAt(front, f.connection, f.request);
       pending.Some? && pending.value.PendingTurnSteer? && ThreadKnown(front, pending.value.thread)
  }

  /** The event repeats the request, and says whether and by which turn it was accepted or why not. */
  predicate SaysSteer(e: TrackEvent, pending: RequestState, f: Fact)
    requires pending.PendingTurnSteer? && IsSteerReply(f)
  {
    && e.TurnSteerEvent? && e.thread == pending.thread && e.expectedTurn == pending.expectedTurn
    && e.images == pending.images && e.createdAt == pending.createdAt
    && (e.accepted <==> f.TurnSteerResponse?)
    && e.acceptedTurn == (if f.TurnSteerResponse? then Some(f.turn) else None)
    && e.reason == (if f.ErrorResponse? then f.reason else None)
  }

  /** The same on a state. */
  predicate CanReportSteer(s: State, f: Fact)
    requires IsSteerReply(f)
  {
    && f.connection in s.connections
    && var pending := RequestOf(s, f.connection, f.request);
       pending.Some? && pending.value.PendingTurnSteer?
       && pending.value.thread in s.threads && s.threads[pending.value.thread].metadata.Some?
  }

  lemma AcceptedSteerEmits(s: State, f: Fact)
    requires f.TurnSteerResponse?
    ensures var out := ReplyTurnSteer(s, f.connection, f.request, f.turn).out;
            if CanReportSteer(s, f) then |out| == 1 && SaysSteer(out[0], s.requests[(f.connection, f.request)], f) else out == []
  {
  }

  lemma RejectedSteerEmits(s: State, f: Fact)
    requires f.ErrorResponse?
    ensures var out := ReplyError(s, f.connection, f.request, f.reason).out;
            if CanReportSteer(s, f) then |out| == 1 && SaysSteer(out[0], s.requests[(f.connection, f.request)], f) else out == []
  {
  }

  lemma OthersReportNoSteer(s: State, f: Fact, e: TrackEvent)
    requires !IsSteerReply(f) && e in Step(s, f).out
    ensures !e.TurnSteerEvent?
  {
  }

  lemma CanReportSteerExactlyWhen(facts: seq<Fact>, f: Fact)
    requires IsSteerReply(f)
    ensures var s := Run(EMPTY, facts).state;
            && (CanReportSteer(s, f) <==> ReportsSteer(facts, f))
            && RequestOf(s, f.connection, f.request) == PendingRequestAt(facts, f.connection, f.request)
  {
    var s := Run(EMPTY, facts).state;
    PendingRequestsFollowTheFacts(facts, f.connection, f.request);
    ConnectionsAreTheLastInitialized(facts, f.connection);
    var pending := PendingRequestAt(facts, f.connection, f.request);
    if pending.Some? {
      ThreadsFollowTheFacts(facts, pending.value.thread);
      RunContextInv(EMPTY, facts);
      if pending.value.thread in s.threads {
        assert ThreadOk(s, s.threads[pending.value.thread]);
      }
    }
  }

  /** In every run a fact emits a steer event if and only if it replies to a pending steer on an
      initialized connection for a known thread.  Then the event is the only one. */
  lemma SteerIsReportedExactlyWhen(facts: seq<Fact>, f: Fact)
    ensures var out := Step(Run(EMPTY, facts).state, f).out;
            && ((exists e :: e in out && e.TurnSteerEvent?) <==> ReportsSteer(facts, f))
            && (ReportsSteer(facts, f) ==>
                  |out| == 1 && SaysSteer(out[0], PendingRequestAt(facts, f.connection, f.request).value, f))
  {
    var s := Run(EMPTY, facts).state;
    var out := Step(s, f).out;
    if IsSteerReply(f) {
      CanReportSteerExactlyWhen(facts, f);
      if f.TurnSteerResponse? {
        AcceptedSteerEmits(s, f);
      } else {
        RejectedSteerEmits(s, f);
      }
      if out != [] {
        assert out[0] in out;
      }
    } else {
      forall e | e in out ensures !e.TurnSteerEvent? {
        OthersReportNoSteer(s, f, e);
      }
    }
  }

  // ----- Threads -----

  lemma OthersAnnounceNoThread(s: State, f: Fact, e: TrackEvent)
    requires e in Step(s, f).out && e.ThreadInitialized?
    ensures f.ThreadResponse?
  {
  }

  lemma OthersAnnounceNoSubAgent(s: State, f: Fact, e: TrackEvent)
    requires e in Step(s, f).out && e.SubAgentInitialized?
    ensures f.SubAgentThreadStarted?
  {
  }

  /** In every run a thread is announced if and only if a response opens it on an initialized
      connection, and a sub-agent's thread each time it is spawned; nothing else is emitted then. */
  lemma ThreadIsAnnouncedExactlyWhen(facts: seq<Fact>, f: Fact)
    ensures var out := Step(Run(EMPTY, facts).state, f).out;
            && (f.ThreadResponse? ==>
                  if Opens(facts, f, f.thread) then |out| == 1 && out[0].ThreadInitialized? && out[0].thread == f.thread else out == [])
            && (f.SubAgentThreadStarted? ==> out == [SubAgentInitialized(f.thread, SpawnMetadata(f))])
            && (forall e :: e in out ==> (e.ThreadInitialized? ==> f.ThreadResponse?) && (e.SubAgentInitialized? ==> f.SubAgentThreadStarted?))
  {
    var s := Run(EMPTY, facts).state;
    if f.ThreadResponse? {
      ConnectionsAreTheLastInitialized(facts, f.connection);
    }
    forall e | e in Step(s, f).out
      ensures (e.ThreadInitialized? ==> f.ThreadResponse?) && (e.SubAgentInitialized? ==> f.SubAgentThreadStarted?)
    {
      if e.ThreadInitialized? {
        OthersAnnounceNoThread(s, f, e);
      } else if e.SubAgentInitialized? {
        OthersAnnounceNoSubAgent(s, f, e);
      }
    }
  }

  // ----- Reports -----

  /** The event that passes a report on. */
  predicate PassesOn(e: TrackEvent, r: Report) {
    match r
    case Compaction(thread, turn) => e.CompactionEvent? && e.thread == thread && e.turn == turn
    case Goal(thread) => e.GoalEvent? && e.thread == thread
    case GuardianReview(thread, turn, name) => e.GuardianReviewEvent? && e.thread == thread && e.turn == turn && e.name == name
  }

  predicate IsReport(e: TrackEvent) {
    e.CompactionEvent? || e.GoalEvent? || e.GuardianReviewEvent?
  }

  lemma OthersReportNothing(s: State, f: Fact, e: TrackEvent)
    requires !f.Reported? && e in Step(s, f).out
    ensures !IsReport(e)
  {
    OthersReportNoCompaction(s, f, e);
    OthersReportNoGoal(s, f, e);
    OthersReportNoGuardianReview(s, f, e);
  }

  lemma OthersReportNoCompaction(s: State, f: Fact, e: TrackEvent)
    requires !f.Reported? && e in Step(s, f).out
    ensures !e.CompactionEvent?
  {
  }

  lemma OthersReportNoGoal(s: State, f: Fact, e: TrackEvent)
    requires !f.Reported? && e in Step(s, f).out
    ensures !e.GoalEvent?
  {
  }

  lemma OthersReportNoGuardianReview(s: State, f: Fact, e: TrackEvent)
    requires !f.Reported? && e in Step(s, f).out
    ensures !e.GuardianReviewEvent?
  {
  }

  /** In every run a report is passed on if and only if its thread is connected. */
  lemma ReportIsPassedOnExactlyWhen(facts: seq<Fact>, f: Fact)
    ensures var out := Step(Run(EMPTY, facts).state, f).out;
            && ((exists e :: e in out && IsReport(e)) <==> f.Reported? && Connected(facts, f.report.thread))
            && (f.Reported? && Connected(facts, f.report.thread) ==> |out| == 1 && PassesOn(out[0], f.report))
  {
    var s := Run(EMPTY, facts).state;
    var out := Step(s, f).out;
    if f.Reported? {
      ThreadHasContextExactlyWhen(facts, f.report.thread);
      if out != [] {
        assert out[0] in out;
      }
    } else {
      forall e | e in out ensures !IsReport(e) {
        OthersReportNothing(s, f, e);
      }
    }
  }
}
