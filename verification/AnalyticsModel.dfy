/**
 The analytics reducer as a state machine on values: seven maps, one step per fact, and the
 events each step emits.  Payloads are cut down to ids, context, counts and outcomes; every
 branch that reads or changes a map is kept.  Clock readings are part of the facts.
 */
module AnalyticsModel {
  import opened Common
  import DiffScanner

  type ConnectionId = nat
  datatype ThreadId = ThreadId(text: string)
  datatype TurnId = TurnId(text: string)
  datatype ItemId = ItemId(text: string)

  // ----- Connections and threads -----

  datatype Client = Client(productClientId: string, name: string, version: string)

  datatype ConnectionState = ConnectionState(client: Client, runtime: string)

  datatype InitializationMode = New | Forked | Resumed

  datatype ThreadMetadata = ThreadMetadata(
    sessionId: string, mode: InitializationMode, subagentSource: Option<string>, parent: Option<ThreadId>)

  datatype ThreadState = ThreadState(
    connection: Option<ConnectionId>, metadata: Option<ThreadMetadata>, originator: Option<string>)

  const NEW_THREAD := ThreadState(None, None, None)

  /** What every event says about where it comes from. */
  datatype Context = Context(client: Client, runtime: string, metadata: ThreadMetadata)

  /** The connection's client, under the name of the thread's originator if it has one. */
  function ClientOf(thread: ThreadState, connection: ConnectionState): Client {
    if thread.originator.Some? then connection.client.(productClientId := thread.originator.value)
    else connection.client
  }

  // ----- Requests and turns -----

  datatype RequestState =
    | PendingTurnStart(thread: ThreadId, images: nat)
    | PendingTurnSteer(thread: ThreadId, expectedTurn: TurnId, images: nat, createdAt: nat)

  datatype TurnStatus = TurnDone | TurnFailed | TurnInterrupted | TurnInProgress

  datatype ResolvedConfig = ResolvedConfig(turn: TurnId, thread: ThreadId, images: nat, settings: string)

  datatype Completion = Completion(
    status: Option<TurnStatus>, error: Option<string>, completedAt: nat, durationMs: Option<nat>)

  datatype ItemKind =
    | CommandExecution | FileChange | McpToolCall | DynamicToolCall | CollabAgentToolCall | SubAgentActivity
    | WebSearch | ImageGeneration
    | UserMessage | HookPrompt | AgentMessage | Plan | Reasoning | ImageView | Sleep
    | EnteredReviewMode | ExitedReviewMode | ContextCompaction

  datatype ThreadItem = ThreadItem(kind: ItemKind, id: ItemId, inProgress: bool)

  datatype ToolCounts = ToolCounts(
    total: nat, shell: nat, file: nat, mcp: nat, dynamic_: nat, subagent: nat, web: nat, image: nat)

  const NO_TOOLS := ToolCounts(0, 0, 0, 0, 0, 0, 0, 0)

  function RecordTool(c: ToolCounts, kind: ItemKind): ToolCounts {
    match kind
    case CommandExecution => c.(shell := c.shell + 1, total := c.total + 1)
    case FileChange => c.(file := c.file + 1, total := c.total + 1)
    case McpToolCall => c.(mcp := c.mcp + 1, total := c.total + 1)
    case DynamicToolCall => c.(dynamic_ := c.dynamic_ + 1, total := c.total + 1)
    case CollabAgentToolCall => c.(subagent := c.subagent + 1, total := c.total + 1)
    case SubAgentActivity => c.(subagent := c.subagent + 1, total := c.total + 1)
    case WebSearch => c.(web := c.web + 1, total := c.total + 1)
    case ImageGeneration => c.(image := c.image + 1, total := c.total + 1)
    case _ => c
  }

  datatype TurnState = TurnState(
    connection: Option<ConnectionId>,
    thread: Option<ThreadId>,
    images: Option<nat>,
    config: Option<ResolvedConfig>,
    startedAt: Option<nat>,
    tokens: Option<nat>,
    profile: Option<string>,
    completed: Option<Completion>,
    codexError: Option<string>,
    latestDiff: Option<string>,
    steerCount: nat,
    tools: ToolCounts)

  const NEW_TURN := TurnState(None, None, None, None, None, None, None, None, None, None, 0, NO_TOOLS)

  // ----- Items and reviews -----

  datatype ItemKey = ItemKey(thread: ThreadId, turn: TurnId, item: ItemId)

  datatype SubjectKind = CommandSubject | FileSubject | McpSubject | PermissionsSubject | NetworkSubject
  datatype Trigger = Initial | SandboxDenial | NetworkPolicyDenial | ExecveIntercept
  datatype Reviewer = Guardian | User
  datatype ReviewStatus = Approved | Denied | Aborted | TimedOut
  datatype Resolution = NoResolution | SessionApproval | ExecPolicyAmendment | NetworkPolicyAmendment

  datatype Outcome = Unknown
    | GuardianApproved | GuardianDenied | GuardianAborted
    | UserApproved | UserApprovedForSession | UserDenied | UserAborted

  /** A review is named after the server request it answers, or by the guardian. */
  datatype ReviewId = UserReview(request: RequestId) | GuardianReviewId(name: string)

  datatype PendingReview = PendingReview(
    thread: ThreadId, turn: TurnId, item: Option<ItemId>, id: ReviewId, kind: SubjectKind, trigger: Trigger,
    startedAt: nat, wantsPermissions: bool, wantsNetwork: bool)

  datatype ReviewSummary = ReviewSummary(
    reviews: nat, byGuardian: nat, byUser: nat, outcome: Option<Outcome>, wantsPermissions: bool, wantsNetwork: bool)

  const NO_REVIEWS := ReviewSummary(0, 0, 0, None, false, false)

  function FinalOutcome(reviewer: Reviewer, status: ReviewStatus, resolution: Resolution): Outcome {
    match (reviewer, status, resolution)
    case (Guardian, Approved, _) => GuardianApproved
    case (Guardian, Denied, _) => GuardianDenied
    case (Guardian, _, _) => GuardianAborted
    case (User, Approved, SessionApproval) => UserApprovedForSession
    case (User, Approved, _) => UserApproved
    case (User, Denied, _) => UserDenied
    case (User, _, _) => UserAborted
  }

  // ----- Facts -----

  /** An approval the server asks the user for.  `additional` is the additional permissions,
      if any are asked for, and whether they enable the network. */
  datatype Approval =
    | CommandApproval(networkContext: bool, networkAmendments: bool, additional: Option<bool>, approvalId: bool)
    | FileApproval(grantRoot: bool)
    | PermissionsApproval(network: bool, fileSystem: bool)

  datatype Decision =
    | Accept | AcceptForSession | AcceptWithExecpolicyAmendment | AllowNetworkPolicy | DenyNetworkPolicy | Decline | Cancel

  datatype GuardianStatus = GuardianInProgress | GuardianSaysYes | GuardianSaysNo | GuardianTimedOut | GuardianGaveUp

  datatype GuardianAction =
    | GuardCommand | GuardExecve | GuardApplyPatch | GuardNetworkAccess
    | GuardPermissions(network: bool, fileSystem: bool) | GuardMcpToolCall

  /** The facts that fill in a turn's state. */
  datatype TurnFact =
    | TurnStarted(turn: TurnId, startedAt: Option<int>)
    | TurnDiffUpdated(thread: ThreadId, turn: TurnId, diff: string)
    | TurnCompleted(turn: TurnId, status: TurnStatus, error: Option<string>, completedAt: Option<int>, durationMs: Option<int>)
    | TurnResolvedConfig(config: ResolvedConfig)
    | TurnTokenUsage(turn: TurnId, thread: ThreadId, tokens: nat)
    | TurnProfile(turn: TurnId, profile: string)
    | TurnCodexError(turn: TurnId, thread: ThreadId, codexError: string)

  /** The facts that settle a pending approval. */
  datatype Verdict =
    | ApprovalResponse(request: RequestId, decision: Decision, completedAtMs: nat)
    | PermissionsResponse(request: RequestId, granted: bool, forSession: bool, completedAtMs: nat)
    | ServerRequestAborted(request: RequestId, completedAtMs: nat)

  /** The facts that are passed on as they are, if their thread has a context. */
  datatype Report =
    | Compaction(thread: ThreadId, turn: TurnId)
    | Goal(thread: ThreadId)
    | GuardianReview(thread: ThreadId, turn: TurnId, name: string)

  datatype Fact =
    | Initialize(connection: ConnectionId, client: Client, runtime: string)
    | TurnStartRequest(connection: ConnectionId, request: RequestId, thread: ThreadId, images: nat)
    | TurnSteerRequest(connection: ConnectionId, request: RequestId, thread: ThreadId, expectedTurn: TurnId, images: nat, createdAt: nat)
    | ThreadResponse(connection: ConnectionId, thread: ThreadId, metadata: ThreadMetadata, threadOriginator: Option<string>)
    | TurnStartResponse(connection: ConnectionId, request: RequestId, turn: TurnId)
    | TurnSteerResponse(connection: ConnectionId, request: RequestId, turn: TurnId)
    | ErrorResponse(connection: ConnectionId, request: RequestId, reason: Option<string>)
    | ApprovalRequest(request: RequestId, approval: Approval, thread: ThreadId, turn: TurnId, item: ItemId, startedAtMs: int)
    | ApprovalSettled(verdict: Verdict)
    | ItemStarted(thread: ThreadId, turn: TurnId, threadItem: ThreadItem, startedAtMs: int)
    | ItemCompleted(thread: ThreadId, turn: TurnId, threadItem: ThreadItem, endedAtMs: int)
    | GuardianReviewCompleted(thread: ThreadId, turn: TurnId, target: Option<ItemId>, name: string,
                              guardianStatus: GuardianStatus, action: GuardianAction, startedAtMs: int, endedAtMs: int)
    | SubAgentThreadStarted(thread: ThreadId, parent: Option<ThreadId>, sessionId: string, productClientId: string, source: string)
    | OfTurn(turnFact: TurnFact)
    | Reported(report: Report)

  // ----- Events -----

  datatype TurnPayload = TurnPayload(
    thread: ThreadId, images: nat, config: ResolvedConfig, profile: string, completed: Completion,
    startedAt: Option<nat>, tokens: Option<nat>, codexError: Option<string>, steerCount: nat, tools: ToolCounts)

  datatype TrackEvent =
    | ThreadInitialized(context: Context, thread: ThreadId)
    | SubAgentInitialized(thread: ThreadId, metadata: ThreadMetadata)
    | CompactionEvent(context: Context, thread: ThreadId, turn: TurnId)
    | GoalEvent(context: Context, thread: ThreadId)
    | GuardianReviewEvent(context: Context, thread: ThreadId, turn: TurnId, name: string)
    | ReviewEvent(context: Context, review: PendingReview, reviewer: Reviewer, status: ReviewStatus,
                  resolution: Resolution, completedAtMs: nat)
    | ToolItemEvent(context: Context, key: ItemKey, kind: ItemKind, startedAtMs: nat, endedAtMs: nat,
                    reviews: nat, byGuardian: nat, byUser: nat, outcome: Outcome, wantsPermissions: bool, wantsNetwork: bool)
    | TurnSteerEvent(context: Context, thread: ThreadId, expectedTurn: TurnId, acceptedTurn: Option<TurnId>,
                     images: nat, accepted: bool, reason: Option<string>, createdAt: nat)
    | TurnEvent(context: Context, turn: TurnId, payload: TurnPayload)
    | AcceptedLines(turn: TurnId, thread: ThreadId, added: nat, deleted: nat)

  // ----- The state -----

  datatype State = State(
    requests: map<(ConnectionId, RequestId), RequestState>,
    turns: map<TurnId, TurnState>,
    connections: map<ConnectionId, ConnectionState>,
    threads: map<ThreadId, ThreadState>,
    startedItems: map<ItemKey, nat>,
    pendingReviews: map<RequestId, PendingReview>,
    summaries: map<ItemKey, ReviewSummary>)

  const EMPTY := State(map[], map[], map[], map[], map[], map[], map[])

  datatype Result = Result(state: State, out: seq<TrackEvent>)

  function NonNegative(n: int): Option<nat> {
    if n >= 0 then Some(n) else None
  }

  function Converted(n: Option<int>): Option<nat> {
    if n.Some? then NonNegative(n.value) else None
  }

  function ThreadOf(s: State, id: ThreadId): ThreadState {
    if id in s.threads then s.threads[id] else NEW_THREAD
  }

  function TurnOf(s: State, id: TurnId): TurnState {
    if id in s.turns then s.turns[id] else NEW_TURN
  }

  function SummaryOf(s: State, key: ItemKey): ReviewSummary {
    if key in s.summaries then s.summaries[key] else NO_REVIEWS
  }

  function WithTurn(s: State, id: TurnId, turn: TurnState): State {
    s.(turns := s.turns[id := turn])
  }

  // ----- Context lookup -----

  /** The context of a thread's events: its connection must be known and registered and its
      metadata present. */
  function ThreadContext(s: State, id: ThreadId): Option<Context> {
    if id !in s.threads then None
    else
      var thread := s.threads[id];
      if thread.connection.None? || thread.connection.value !in s.connections || thread.metadata.None? then None
      else
        var connection := s.connections[thread.connection.value];
        Some(Context(ClientOf(thread, connection), connection.runtime, thread.metadata.value))
  }

  // ----- Turn events -----

  predicate Populated(turn: TurnState) {
    turn.thread.Some? && turn.images.Some? && turn.config.Some? && turn.profile.Some? && turn.completed.Some?
  }

  /** A turn's own connection takes precedence over its thread's. */
  function TurnConnection(s: State, turn: TurnState): Option<ConnectionId> {
    if turn.connection.Some? then turn.connection
    else if turn.thread.Some? && turn.thread.value in s.threads then s.threads[turn.thread.value].connection
    else None
  }

  function TurnContext(s: State, turn: TurnState): Option<Context> {
    var id := TurnConnection(s, turn);
    if id.None? || id.value !in s.connections then None
    else if turn.thread.None? || turn.thread.value !in s.threads then None
    else
      var thread := s.threads[turn.thread.value];
      if thread.metadata.None? then None
      else
        var connection := s.connections[id.value];
        Some(Context(ClientOf(thread, connection), connection.runtime, thread.metadata.value))
  }

  function PayloadOf(turn: TurnState): TurnPayload
    requires Populated(turn)
  {
    TurnPayload(turn.thread.value, turn.images.value, turn.config.value, turn.profile.value, turn.completed.value,
                turn.startedAt, turn.tokens, turn.codexError, turn.steerCount, turn.tools)
  }

  function AcceptedLinesOf(id: TurnId, turn: TurnState): seq<TrackEvent>
    requires Populated(turn)
  {
    if turn.latestDiff.None? then []
    else
      var (added, deleted) := DiffScanner.LineTotals(turn.latestDiff.value);
      if added == 0 && deleted == 0 then [] else [AcceptedLines(id, turn.thread.value, added, deleted)]
  }

  /** Emits the turn event and forgets the turn, once everything is there. */
  function MaybeEmitTurn(s: State, id: TurnId): (r: Result)
    ensures r.state == s.(turns := r.state.turns)
  {
    if id !in s.turns || !Populated(s.turns[id]) then Result(s, [])
    else
      var turn := s.turns[id];
      var context := TurnContext(s, turn);
      if context.None? then Result(s, [])
      else Result(s.(turns := s.turns - {id}),
                  [TurnEvent(context.value, id, PayloadOf(turn))] + AcceptedLinesOf(id, turn))
  }

  // ----- Reviews -----

  /** Only reviews of commands, file changes and MCP calls belong to an item. */
  function SummaryKey(review: PendingReview): Option<ItemKey> {
    if review.item.Some? && (review.kind.CommandSubject? || review.kind.FileSubject? || review.kind.McpSubject?)
    then Some(ItemKey(review.thread, review.turn, review.item.value))
    else None
  }

  function RecordReview(summary: ReviewSummary, reviewer: Reviewer, outcome: Outcome, review: PendingReview): ReviewSummary {
    ReviewSummary(summary.reviews + 1,
                  summary.byGuardian + (if reviewer.Guardian? then 1 else 0),
                  summary.byUser + (if reviewer.User? then 1 else 0),
                  Some(outcome),
                  summary.wantsPermissions || review.wantsPermissions,
                  summary.wantsNetwork || review.wantsNetwork)
  }

  /** The item's summary is updated whether or not the review's own event can be emitted. */
  function ConcludeReview(s: State, review: PendingReview, reviewer: Reviewer, status: ReviewStatus,
                          resolution: Resolution, completedAtMs: nat): (r: Result)
    ensures r.state == s.(summaries := r.state.summaries)
  {
    var key := SummaryKey(review);
    var s1 := if key.None? then s
              else s.(summaries := s.summaries[key.value :=
                RecordReview(SummaryOf(s, key.value), reviewer, FinalOutcome(reviewer, status, resolution), review)]);
    var context := ThreadContext(s1, review.thread);
    if context.None? then Result(s1, [])
    else Result(s1, [ReviewEvent(context.value, review, reviewer, status, resolution, completedAtMs)])
  }

  function ResolveApproval(s: State, request: RequestId, status: ReviewStatus, resolution: Resolution, completedAtMs: nat): (r: Result)
    ensures r.state == s.(pendingReviews := s.pendingReviews - {request}, summaries := r.state.summaries)
  {
    if request !in s.pendingReviews then
      assert s.pendingReviews - {request} == s.pendingReviews;
      Result(s, [])
    else ConcludeReview(s.(pendingReviews := s.pendingReviews - {request}), s.pendingReviews[request],
                        User, status, resolution, completedAtMs)
  }

  function DecisionResult(d: Decision): (ReviewStatus, Resolution) {
    match d
    case Accept => (Approved, NoResolution)
    case AcceptForSession => (Approved, SessionApproval)
    case AcceptWithExecpolicyAmendment => (Approved, ExecPolicyAmendment)
    case AllowNetworkPolicy => (Approved, NetworkPolicyAmendment)
    case DenyNetworkPolicy => (Denied, NetworkPolicyAmendment)
    case Decline => (Denied, NoResolution)
    case Cancel => (Aborted, NoResolution)
  }

  function GuardianResult(g: GuardianStatus): Option<ReviewStatus> {
    match g
    case GuardianInProgress => None
    case GuardianSaysYes => Some(Approved)
    case GuardianSaysNo => Some(Denied)
    case GuardianTimedOut => Some(TimedOut)
    case GuardianGaveUp => Some(Aborted)
  }

  function PermissionsTrigger(network: bool, permissions: bool): Trigger {
    if network then NetworkPolicyDenial else if permissions then SandboxDenial else Initial
  }

  /** What a server request for approval leaves pending. */
  function PendingApproval(request: RequestId, a: Approval, thread: ThreadId, turn: TurnId, item: ItemId, startedAt: nat): PendingReview {
    match a
    case CommandApproval(networkContext, amendments, additional, approvalId) =>
      var network := networkContext || amendments || (additional.Some? && additional.value);
      PendingReview(thread, turn, Some(item), UserReview(request),
                    if networkContext then NetworkSubject else CommandSubject,
                    if approvalId then ExecveIntercept else PermissionsTrigger(network, additional.Some?),
                    startedAt, additional.Some?, network)
    case FileApproval(grantRoot) =>
      PendingReview(thread, turn, Some(item), UserReview(request), FileSubject,
                    PermissionsTrigger(false, grantRoot), startedAt, grantRoot, false)
    case PermissionsApproval(network, fileSystem) =>
      PendingReview(thread, turn, Some(item), UserReview(request), PermissionsSubject,
                    PermissionsTrigger(network, network || fileSystem), startedAt, network || fileSystem, network)
  }

  function GuardianPending(thread: ThreadId, turn: TurnId, target: Option<ItemId>, name: string, a: GuardianAction, startedAt: nat): PendingReview {
    match a
    case GuardCommand =>
      PendingReview(thread, turn, target, GuardianReviewId(name), CommandSubject, Initial, startedAt, false, false)
    case GuardExecve =>
      PendingReview(thread, turn, target, GuardianReviewId(name), CommandSubject, ExecveIntercept, startedAt, false, false)
    case GuardApplyPatch =>
      PendingReview(thread, turn, target, GuardianReviewId(name), FileSubject, SandboxDenial, startedAt, true, false)
    case GuardNetworkAccess =>
      PendingReview(thread, turn, target, GuardianReviewId(name), NetworkSubject, NetworkPolicyDenial, startedAt, true, true)
    case GuardPermissions(network, fileSystem) =>
      PendingReview(thread, turn, target, GuardianReviewId(name), PermissionsSubject,
                    PermissionsTrigger(network, fileSystem), startedAt, network || fileSystem, network)
    case GuardMcpToolCall =>
      PendingReview(thread, turn, target, GuardianReviewId(name), McpSubject, Initial, startedAt, false, false)
  }

  // ----- Items -----

  predicate IsTracked(kind: ItemKind) {
    || kind.CommandExecution? || kind.FileChange? || kind.McpToolCall? || kind.DynamicToolCall?
    || kind.CollabAgentToolCall? || kind.WebSearch? || kind.ImageGeneration?
  }

  /** Web searches and image generations have no in-progress state. */
  predicate HasOutcome(item: ThreadItem) {
    IsTracked(item.kind) && (item.kind.WebSearch? || item.kind.ImageGeneration? || !item.inProgress)
  }

  function ToolEvent(context: Context, key: ItemKey, kind: ItemKind, startedAt: nat, endedAt: nat, summary: ReviewSummary): TrackEvent {
    ToolItemEvent(context, key, kind, startedAt, endedAt, summary.reviews, summary.byGuardian, summary.byUser,
                  if summary.outcome.Some? then summary.outcome.value else Unknown,
                  summary.wantsPermissions, summary.wantsNetwork)
  }

  function CountItem(s: State, turn: TurnId, kind: ItemKind): State
    requires turn in s.turns
  {
    WithTurn(s, turn, s.turns[turn].(tools := RecordTool(s.turns[turn].tools, kind)))
  }

  /** The last stage of an item's completion: the event, and the end of its summary. */
  function FinishItem(s: State, key: ItemKey, item: ThreadItem, startedAt: nat, endedAt: int): (r: Result)
    ensures r.state == s.(summaries := r.state.summaries)
  {
    var context := ThreadContext(s, key.thread);
    if endedAt < 0 || context.None? then Result(s, [])
    else Result(s.(summaries := s.summaries - {key}),
                if HasOutcome(item) then [ToolEvent(context.value, key, item.kind, startedAt, endedAt, SummaryOf(s, key))] else [])
  }

  function CompleteItem(s: State, thread: ThreadId, turn: TurnId, item: ThreadItem, endedAt: int): (r: Result)
    ensures r.state == s.(turns := r.state.turns, startedItems := r.state.startedItems, summaries := r.state.summaries)
  {
    if turn !in s.turns || !(IsTracked(item.kind) || item.kind.SubAgentActivity?) then Result(s, [])
    else
      var s1 := CountItem(s, turn, item.kind);
      var key := ItemKey(thread, turn, item.id);
      if item.kind.SubAgentActivity? || key !in s1.startedItems then Result(s1, [])
      else FinishItem(s1.(startedItems := s1.startedItems - {key}), key, item, s1.startedItems[key], endedAt)
  }

  // ----- Requests and replies -----

  function WithoutRequest(s: State, connection: ConnectionId, request: RequestId): State {
    s.(requests := s.requests - {(connection, request)})
  }

  function SteerEvents(s: State, connection: ConnectionId, pending: RequestState, acceptedTurn: Option<TurnId>, reason: Option<string>): seq<TrackEvent>
    requires pending.PendingTurnSteer?
  {
    if connection !in s.connections || pending.thread !in s.threads || s.threads[pending.thread].metadata.None? then []
    else
      var thread := s.threads[pending.thread];
      var c := s.connections[connection];
      [TurnSteerEvent(Context(ClientOf(thread, c), c.runtime, thread.metadata.value), pending.thread, pending.expectedTurn,
                      acceptedTurn, pending.images, acceptedTurn.Some?, reason, pending.createdAt)]
  }

  function ReplyTurnStart(s: State, connection: ConnectionId, request: RequestId, turn: TurnId): (r: Result)
    ensures r.state == WithoutRequest(s, connection, request).(turns := r.state.turns)
  {
    var s1 := WithoutRequest(s, connection, request);
    if (connection, request) !in s.requests || !s.requests[(connection, request)].PendingTurnStart? then Result(s1, [])
    else
      var pending := s.requests[(connection, request)];
      MaybeEmitTurn(WithTurn(s1, turn, TurnOf(s1, turn).(connection := Some(connection), thread := Some(pending.thread),
                                                         images := Some(pending.images))), turn)
  }

  function ReplyTurnSteer(s: State, connection: ConnectionId, request: RequestId, turn: TurnId): (r: Result)
    ensures r.state == WithoutRequest(s, connection, request).(turns := r.state.turns)
  {
    var s1 := WithoutRequest(s, connection, request);
    if (connection, request) !in s.requests || !s.requests[(connection, request)].PendingTurnSteer? then Result(s1, [])
    else
      var s2 := if turn in s1.turns then WithTurn(s1, turn, s1.turns[turn].(steerCount := s1.turns[turn].steerCount + 1)) else s1;
      Result(s2, SteerEvents(s2, connection, s.requests[(connection, request)], Some(turn), None))
  }

  function ReplyError(s: State, connection: ConnectionId, request: RequestId, reason: Option<string>): (r: Result)
    ensures r.state == WithoutRequest(s, connection, request)
  {
    var s1 := WithoutRequest(s, connection, request);
    if (connection, request) !in s.requests || !s.requests[(connection, request)].PendingTurnSteer? then Result(s1, [])
    else Result(s1, SteerEvents(s1, connection, s.requests[(connection, request)], None, reason))
  }

  // ----- Threads -----

  /** A thread started, resumed or forked on a connection; an unregistered connection is ignored. */
  function OpenThread(s: State, connection: ConnectionId, id: ThreadId, metadata: ThreadMetadata, originator: Option<string>): (r: Result)
    ensures r.state == s.(threads := r.state.threads)
  {
    if connection !in s.connections then Result(s, [])
    else
      var was := ThreadOf(s, id);
      var thread := ThreadState(Some(connection), Some(metadata), if originator.Some? then originator else was.originator);
      var c := s.connections[connection];
      Result(s.(threads := s.threads[id := thread]),
             [ThreadInitialized(Context(ClientOf(thread, c), c.runtime, metadata), id)])
  }

  /** A sub-agent's thread keeps what is known of it and inherits its parent's connection. */
  function SpawnThread(s: State, id: ThreadId, parent: Option<ThreadId>, sessionId: string, productClientId: string, source: string): (r: Result)
    ensures r.state == s.(threads := r.state.threads)
  {
    var inherited := if parent.Some? && parent.value in s.threads then s.threads[parent.value].connection else None;
    var was := ThreadOf(s, id);
    var metadata := ThreadMetadata(sessionId, New, Some(source), parent);
    var thread := ThreadState(if was.connection.Some? then was.connection else inherited,
                              if was.metadata.Some? then was.metadata else Some(metadata),
                              if was.originator.Some? then was.originator else Some(productClientId));
    Result(s.(threads := s.threads[id := thread]), [SubAgentInitialized(id, metadata)])
  }

  // ----- One step -----

  function CompletionOf(status: TurnStatus, error: Option<string>, completedAt: Option<int>, durationMs: Option<int>): Completion {
    Completion(if status.TurnInProgress? then None else Some(status), error,
               if Converted(completedAt).Some? then Converted(completedAt).value else 0, Converted(durationMs))
  }

  function TurnNamed(f: TurnFact): TurnId {
    if f.TurnResolvedConfig? then f.config.turn else f.turn
  }

  function Filled(was: TurnState, f: TurnFact): TurnState {
    match f
    case TurnStarted(_, startedAt) => was.(startedAt := Converted(startedAt))
    case TurnDiffUpdated(thread, _, diff) => was.(thread := Some(thread), latestDiff := Some(diff))
    case TurnCompleted(_, status, error, completedAt, durationMs) =>
      was.(completed := Some(CompletionOf(status, error, completedAt, durationMs)))
    case TurnResolvedConfig(config) =>
      was.(thread := Some(config.thread), images := Some(config.images), config := Some(config))
    case TurnTokenUsage(_, thread, tokens) => was.(thread := Some(thread), tokens := Some(tokens))
    case TurnProfile(_, profile) => was.(profile := Some(profile))
    case TurnCodexError(_, thread, error) =>
      was.(thread := if was.thread.Some? then was.thread else Some(thread), codexError := Some(error))
  }

  /** The facts after which a turn may be complete. */
  predicate MayCompleteTurn(f: TurnFact) {
    f.TurnCompleted? || f.TurnResolvedConfig? || f.TurnTokenUsage? || f.TurnProfile?
  }

  function FillTurn(s: State, f: TurnFact): (r: Result)
    ensures r.state == s.(turns := r.state.turns)
  {
    var id := TurnNamed(f);
    var s1 := WithTurn(s, id, Filled(TurnOf(s, id), f));
    if MayCompleteTurn(f) then MaybeEmitTurn(s1, id) else Result(s1, [])
  }

  function VerdictOf(v: Verdict): (ReviewStatus, Resolution) {
    match v
    case ApprovalResponse(_, decision, _) => DecisionResult(decision)
    case PermissionsResponse(_, granted, forSession, _) =>
      if !granted then (Denied, NoResolution) else (Approved, if forSession then SessionApproval else NoResolution)
    case ServerRequestAborted(_, _) => (Aborted, NoResolution)
  }

  function ReportEvents(s: State, r: Report): seq<TrackEvent> {
    var context := ThreadContext(s, r.thread);
    if context.None? then []
    else match r
      case Compaction(thread, turn) => [CompactionEvent(context.value, thread, turn)]
      case Goal(thread) => [GoalEvent(context.value, thread)]
      case GuardianReview(thread, turn, name) => [GuardianReviewEvent(context.value, thread, turn, name)]
  }

  function Step(s: State, f: Fact): Result {
    match f
    case Initialize(connection, client, runtime) =>
      Result(s.(connections := s.connections[connection := ConnectionState(client, runtime)]), [])
    case TurnStartRequest(connection, request, thread, images) =>
      Result(s.(requests := s.requests[(connection, request) := PendingTurnStart(thread, images)]), [])
    case TurnSteerRequest(connection, request, thread, expectedTurn, images, createdAt) =>
      Result(s.(requests := s.requests[(connection, request) := PendingTurnSteer(thread, expectedTurn, images, createdAt)]), [])
    case ThreadResponse(connection, thread, metadata, originator) => OpenThread(s, connection, thread, metadata, originator)
    case TurnStartResponse(connection, request, turn) => ReplyTurnStart(s, connection, request, turn)
    case TurnSteerResponse(connection, request, turn) => ReplyTurnSteer(s, connection, request, turn)
    case ErrorResponse(connection, request, reason) => ReplyError(s, connection, request, reason)
    case ApprovalRequest(request, approval, thread, turn, item, startedAt) =>
      if startedAt < 0 then Result(s, [])
      else Result(s.(pendingReviews := s.pendingReviews[request := PendingApproval(request, approval, thread, turn, item, startedAt)]), [])
    case ItemStarted(thread, turn, item, startedAt) =>
      if !IsTracked(item.kind) || startedAt < 0 then Result(s, [])
      else Result(s.(startedItems := s.startedItems[ItemKey(thread, turn, item.id) := startedAt]), [])
    case ItemCompleted(thread, turn, item, endedAt) => CompleteItem(s, thread, turn, item, endedAt)
    case GuardianReviewCompleted(thread, turn, target, name, verdict, action, startedAt, endedAt) =>
      if GuardianResult(verdict).None? || startedAt < 0 || endedAt < 0 then Result(s, [])
      else ConcludeReview(s, GuardianPending(thread, turn, target, name, action, startedAt), Guardian,
                          GuardianResult(verdict).value, NoResolution, endedAt)
    case SubAgentThreadStarted(thread, parent, sessionId, productClientId, source) =>
      SpawnThread(s, thread, parent, sessionId, productClientId, source)
    case ApprovalSettled(v) => ResolveApproval(s, v.request, VerdictOf(v).0, VerdictOf(v).1, v.completedAtMs)
    case OfTurn(t) => FillTurn(s, t)
    case Reported(r) => Result(s, ReportEvents(s, r))
  }

  /** A whole run: the final state and everything emitted on the way. */
  function Run(s: State, facts: seq<Fact>): Result {
    if facts == [] then Result(s, [])
    else
      var before := Run(s, facts[..|facts| - 1]);
      var last := Step(before.state, facts[|facts| - 1]);
      Result(last.state, before.out + last.out)
  }

  lemma RunAppend(s: State, facts: seq<Fact>, f: Fact)
    ensures Run(s, facts + [f]).state == Step(Run(s, facts).state, f).state
    ensures Run(s, facts + [f]).out == Run(s, facts).out + Step(Run(s, facts).state, f).out
  {
    AppendThenTake(facts, f);
  }
}
