/** Reviews and requests over whole runs: what an item's review counts mean, and that every
    request is answered for at most once. */
module AnalyticsReviews {
  import opened Common
  import opened AnalyticsModel
  import opened AnalyticsRequests
  import opened AnalyticsContext
  import opened AnalyticsItems

  // ----- Item review accounting -----

  /** A review that was concluded: who, how, and what had been asked for. */
  datatype Conclusion = Conclusion(
    reviewer: Reviewer, status: ReviewStatus, resolution: Resolution, wantsPermissions: bool, wantsNetwork: bool)

  // What a verdict says, decision by decision.

  predicate SaysApproved(v: Verdict) {
    || (v.ApprovalResponse? && v.decision in {Accept, AcceptForSession, AcceptWithExecpolicyAmendment, AllowNetworkPolicy})
    || (v.PermissionsResponse? && v.granted)
  }

  predicate SaysDenied(v: Verdict) {
    || (v.ApprovalResponse? && v.decision in {Decline, DenyNetworkPolicy})
    || (v.PermissionsResponse? && !v.granted)
  }

  predicate SaysForSession(v: Verdict) {
    (v.ApprovalResponse? && v.decision == AcceptForSession) || (v.PermissionsResponse? && v.granted && v.forSession)
  }

  predicate AmendsNetworkPolicy(v: Verdict) {
    v.ApprovalResponse? && v.decision in {AllowNetworkPolicy, DenyNetworkPolicy}
  }

  function StatusSaid(v: Verdict): ReviewStatus {
    if SaysApproved(v) then Approved else if SaysDenied(v) then Denied else Aborted
  }

  function ResolutionSaid(v: Verdict): Resolution {
    if SaysForSession(v) then SessionApproval
    else if AmendsNetworkPolicy(v) then NetworkPolicyAmendment
    else if v.ApprovalResponse? && v.decision == AcceptWithExecpolicyAmendment then ExecPolicyAmendment
    else NoResolution
  }

  /** An approval request that can become pending: one with a valid start time. */
  predicate AsksFor(f: Fact, request: RequestId) {
    f.ApprovalRequest? && f.request == request && f.startedAtMs >= 0
  }

  /** The latest approval request under this id that nothing has settled since. */
  function PendingAt(facts: seq<Fact>, request: RequestId): Option<PendingReview> {
    if facts == [] then None
    else
      var f := facts[|facts| - 1];
      if AsksFor(f, request) then
        Some(PendingApproval(request, f.approval, f.thread, f.turn, f.item, f.startedAtMs))
      else if f.ApprovalSettled? && f.verdict.request == request then None
      else PendingAt(facts[..|facts| - 1], request)
  }

  /** A guardian review that is over and has valid times. */
  predicate GuardianConcludes(f: Fact) {
    f.GuardianReviewCompleted? && f.guardianStatus != GuardianInProgress && f.startedAtMs >= 0 && f.endedAtMs >= 0
  }

  function GuardianStatusSaid(f: Fact): ReviewStatus
    requires GuardianConcludes(f)
  {
    if f.guardianStatus == GuardianSaysYes then Approved
    else if f.guardianStatus == GuardianSaysNo then Denied
    else if f.guardianStatus == GuardianTimedOut then TimedOut
    else Aborted
  }

  /** The review a fact concludes, if any, and its conclusion. */
  function Concluded(front: seq<Fact>, f: Fact): Option<(PendingReview, Conclusion)> {
    if f.ApprovalSettled? && PendingAt(front, f.verdict.request).Some? then
      var review := PendingAt(front, f.verdict.request).value;
      Some((review, Conclusion(User, StatusSaid(f.verdict), ResolutionSaid(f.verdict), review.wantsPermissions, review.wantsNetwork)))
    else if GuardianConcludes(f) then
      var review := GuardianPending(f.thread, f.turn, f.target, f.name, f.action, f.startedAtMs);
      Some((review, Conclusion(Guardian, GuardianStatusSaid(f), NoResolution, review.wantsPermissions, review.wantsNetwork)))
    else None
  }

  /** Reviews of commands, file changes and MCP calls belong to the item they name. */
  predicate BelongsTo(review: PendingReview, key: ItemKey) {
    && review.item == Some(key.item) && review.turn == key.turn && review.thread == key.thread
    && review.kind in {CommandSubject, FileSubject, McpSubject}
  }

  predicate ConcludesFor(front: seq<Fact>, f: Fact, key: ItemKey) {
    Concluded(front, f).Some? && BelongsTo(Concluded(front, f).value.0, key)
  }

  /** The reviews concluded for exactly this item since its summary was last cleared, which is when
      the item last finished. */
  function ReviewsSinceClear(facts: seq<Fact>, key: ItemKey): seq<Conclusion> {
    if facts == [] then []
    else
      var front, f := facts[..|facts| - 1], facts[|facts| - 1];
      if Finishes(front, f, key) then []
      else if ConcludesFor(front, f, key) then ReviewsSinceClear(front, key) + [Concluded(front, f).value.1]
      else ReviewsSinceClear(front, key)
  }

  function By(reviews: seq<Conclusion>, reviewer: Reviewer): nat {
    if reviews == [] then 0
    else By(reviews[..|reviews| - 1], reviewer) + (if reviews[|reviews| - 1].reviewer == reviewer then 1 else 0)
  }

  function LastOutcome(reviews: seq<Conclusion>): Option<Outcome> {
    if reviews == [] then None
    else
      var last := reviews[|reviews| - 1];
      Some(FinalOutcome(last.reviewer, last.status, last.resolution))
  }

  /** A summary of a list of reviews: their number, how many by whom, the outcome of the last,
      and whether any asked for permissions or network access. */
  predicate Summarizes(summary: ReviewSummary, reviews: seq<Conclusion>) {
    && summary.reviews == |reviews|
    && summary.byGuardian == By(reviews, Guardian) && summary.byUser == By(reviews, User)
    && summary.outcome == LastOutcome(reviews)
    && (summary.wantsPermissions <==> exists i :: 0 <= i < |reviews| && reviews[i].wantsPermissions)
    && (summary.wantsNetwork <==> exists i :: 0 <= i < |reviews| && reviews[i].wantsNetwork)
  }

  lemma SummarizesAppend(summary: ReviewSummary, reviews: seq<Conclusion>, review: PendingReview, c: Conclusion)
    requires Summarizes(summary, reviews)
    requires c.wantsPermissions == review.wantsPermissions && c.wantsNetwork == review.wantsNetwork
    ensures Summarizes(RecordReview(summary, c.reviewer, FinalOutcome(c.reviewer, c.status, c.resolution), review), reviews + [c])
  {
    AppendThenTake(reviews, c);
    var all := reviews + [c];
    if summary.wantsPermissions {
      var i :| 0 <= i < |reviews| && reviews[i].wantsPermissions;
      assert all[i].wantsPermissions;
    }
    if summary.wantsNetwork {
      var i :| 0 <= i < |reviews| && reviews[i].wantsNetwork;
      assert all[i].wantsNetwork;
    }
    assert all[|reviews|] == c;
  }

  lemma {:induction false} GuardianAndUserAddUp(reviews: seq<Conclusion>)
    ensures By(reviews, Guardian) + By(reviews, User) == |reviews|
  {
    if reviews != [] {
      GuardianAndUserAddUp(reviews[..|reviews| - 1]);
    }
  }

  lemma ConclusionSummary(s: State, review: PendingReview, reviewer: Reviewer, status: ReviewStatus,
                          resolution: Resolution, completedAtMs: nat, key: ItemKey)
    ensures var t := ConcludeReview(s, review, reviewer, status, resolution, completedAtMs).state;
            SummaryOf(t, key) == if BelongsTo(review, key)
                                 then RecordReview(SummaryOf(s, key), reviewer, FinalOutcome(reviewer, status, resolution), review)
                                 else SummaryOf(s, key)
  {
    assert BelongsTo(review, key) <==> SummaryKey(review) == Some(key);
  }

  lemma VerdictIsAsSaid(v: Verdict)
    ensures VerdictOf(v) == (StatusSaid(v), ResolutionSaid(v))
  {
  }

  /** The state in which a review is concluded, and when. */
  function Settled(s: State, f: Fact): State {
    if f.ApprovalSettled? then s.(pendingReviews := s.pendingReviews - {f.verdict.request}) else s
  }

  function ConcludedAt(f: Fact): nat
    requires f.ApprovalSettled? || GuardianConcludes(f)
  {
    if f.ApprovalSettled? then f.verdict.completedAtMs else f.endedAtMs
  }

  /** A fact that concludes a review does nothing else. */
  lemma StepConcludes(facts: seq<Fact>, f: Fact)
    requires Concluded(facts, f).Some?
    ensures var s := Run(EMPTY, facts).state;
            var (review, c) := Concluded(facts, f).value;
            Step(s, f) == ConcludeReview(Settled(s, f), review, c.reviewer, c.status, c.resolution, ConcludedAt(f))
  {
    if f.ApprovalSettled? {
      PendingReviewsFollowTheirRequests(facts, f.verdict.request);
      VerdictIsAsSaid(f.verdict);
    }
  }

  lemma NothingConcluded(facts: seq<Fact>, f: Fact)
    requires Concluded(facts, f).None? && (f.ApprovalSettled? || f.GuardianReviewCompleted?)
    ensures var s := Run(EMPTY, facts).state; Step(s, f).state.summaries == s.summaries && Step(s, f).out == []
  {
    if f.ApprovalSettled? {
      PendingReviewsFollowTheirRequests(facts, f.verdict.request);
    }
  }

  lemma OtherFactsKeepSummaries(s: State, f: Fact)
    requires !f.ItemCompleted? && !f.ApprovalSettled? && !f.GuardianReviewCompleted?
    ensures Step(s, f).state.summaries == s.summaries
  {
  }

  /** How one fact changes one item's summary. */
  lemma StepSummary(facts: seq<Fact>, f: Fact, key: ItemKey)
    ensures var s := Run(EMPTY, facts).state;
            var t := Step(s, f).state;
            if Finishes(facts, f, key) then SummaryOf(t, key) == NO_REVIEWS
            else if ConcludesFor(facts, f, key) then
              var (review, c) := Concluded(facts, f).value;
              SummaryOf(t, key) == RecordReview(SummaryOf(s, key), c.reviewer, FinalOutcome(c.reviewer, c.status, c.resolution), review)
            else SummaryOf(t, key) == SummaryOf(s, key)
  {
    var s := Run(EMPTY, facts).state;
    if f.ItemCompleted? {
      CanFinishExactlyWhen(facts, f);
      ItemSummary(s, f, key);
    } else if Concluded(facts, f).Some? {
      var (review, c) := Concluded(facts, f).value;
      StepConcludes(facts, f);
      ConclusionSummary(Settled(s, f), review, c.reviewer, c.status, c.resolution, ConcludedAt(f), key);
    } else if f.ApprovalSettled? || f.GuardianReviewCompleted? {
      NothingConcluded(facts, f);
    } else {
      OtherFactsKeepSummaries(s, f);
    }
  }

  lemma FinishedSummary(s: State, finished: ItemKey, item: ThreadItem, startedAt: nat, endedAt: int, key: ItemKey)
    ensures SummaryOf(FinishItem(s, finished, item, startedAt, endedAt).state, key) ==
            if endedAt >= 0 && ThreadContext(s, finished.thread).Some? && finished == key then NO_REVIEWS else SummaryOf(s, key)
  {
  }

  lemma SameContext(s: State, t: State, thread: ThreadId)
    requires s.threads == t.threads && s.connections == t.connections
    ensures ThreadContext(s, thread) == ThreadContext(t, thread)
  {
  }

  predicate ReachesTheEnd(s: State, f: Fact)
    requires f.ItemCompleted?
  {
    f.turn in s.turns && f.threadItem.kind in TOOL_KINDS && KeyOf(f) in s.startedItems
  }

  lemma CompletionReachesTheEnd(s: State, f: Fact) returns (t: State)
    requires f.ItemCompleted? && ReachesTheEnd(s, f)
    ensures CompleteItem(s, f.thread, f.turn, f.threadItem, f.endedAtMs) ==
            FinishItem(t, KeyOf(f), f.threadItem, s.startedItems[KeyOf(f)], f.endedAtMs)
    ensures t.threads == s.threads && t.connections == s.connections && t.summaries == s.summaries
  {
    var s1 := CountItem(s, f.turn, f.threadItem.kind);
    t := s1.(startedItems := s1.startedItems - {KeyOf(f)});
  }

  lemma CompletionStopsShort(s: State, f: Fact)
    requires f.ItemCompleted? && !ReachesTheEnd(s, f)
    ensures CompleteItem(s, f.thread, f.turn, f.threadItem, f.endedAtMs).state.summaries == s.summaries
  {
  }

  lemma ItemSummary(s: State, f: Fact, key: ItemKey)
    requires f.ItemCompleted?
    ensures SummaryOf(Step(s, f).state, key) == if CanFinish(s, f) && KeyOf(f) == key then NO_REVIEWS else SummaryOf(s, key)
  {
    assert Step(s, f) == CompleteItem(s, f.thread, f.turn, f.threadItem, f.endedAtMs);
    if ReachesTheEnd(s, f) {
      var t := CompletionReachesTheEnd(s, f);
      FinishedSummary(t, KeyOf(f), f.threadItem, s.startedItems[KeyOf(f)], f.endedAtMs, key);
      SameContext(t, s, f.thread);
    } else {
      CompletionStopsShort(s, f);
    }
  }

  lemma {:induction false} SummaryFollowsReviews(facts: seq<Fact>, key: ItemKey)
    ensures Summarizes(SummaryOf(Run(EMPTY, facts).state, key), ReviewsSinceClear(facts, key))
  {
    if facts != [] {
      var front, f := facts[..|facts| - 1], facts[|facts| - 1];
      SummaryFollowsReviews(front, key);
      StepSummary(front, f, key);
      if !Finishes(front, f, key) && ConcludesFor(front, f, key) {
        var (review, c) := Concluded(front, f).value;
        SummarizesAppend(SummaryOf(Run(EMPTY, front).state, key), ReviewsSinceClear(front, key), review, c);
      }
    }
  }

  lemma ToolEventSource(s: State, f: Fact, e: TrackEvent)
    requires e in Step(s, f).out && e.ToolItemEvent?
    ensures e == ToolEvent(e.context, e.key, e.kind, e.startedAtMs, e.endedAtMs, SummaryOf(s, e.key))
  {
    if !f.ItemCompleted? {
      OtherFactsEmitNoToolItem(s, f, e);
    }
  }

  /** What an outcome says of the review it comes from: who decided, and how. */
  predicate Reflects(o: Outcome, c: Conclusion) {
    && (o.GuardianApproved? || o.GuardianDenied? || o.GuardianAborted? <==> c.reviewer.Guardian?)
    && (o.UserApproved? || o.UserApprovedForSession? || o.UserDenied? || o.UserAborted? <==> c.reviewer.User?)
    && (o.GuardianApproved? || o.UserApproved? || o.UserApprovedForSession? <==> c.status.Approved?)
    && (o.GuardianDenied? || o.UserDenied? <==> c.status.Denied?)
    && (o.UserApprovedForSession? <==> c.reviewer.User? && c.status.Approved? && c.resolution.SessionApproval?)
  }

  /** The review fields of an event, as a description of a list of reviews. */
  predicate Describes(e: TrackEvent, reviews: seq<Conclusion>)
    requires e.ToolItemEvent?
  {
    && e.reviews == |reviews| == e.byGuardian + e.byUser
    && e.byGuardian == By(reviews, Guardian) && e.byUser == By(reviews, User)
    && (e.outcome == Unknown <==> reviews == [])
    && (reviews != [] ==> Reflects(e.outcome, reviews[|reviews| - 1]))
    && (e.wantsPermissions <==> exists i :: 0 <= i < |reviews| && reviews[i].wantsPermissions)
    && (e.wantsNetwork <==> exists i :: 0 <= i < |reviews| && reviews[i].wantsNetwork)
  }

  lemma SummaryDescribes(context: Context, key: ItemKey, kind: ItemKind, startedAt: nat, endedAt: nat,
                         summary: ReviewSummary, reviews: seq<Conclusion>)
    requires Summarizes(summary, reviews)
    ensures Describes(ToolEvent(context, key, kind, startedAt, endedAt, summary), reviews)
  {
    GuardianAndUserAddUp(reviews);
  }

  /** In every run the review fields of a tool-item event describe exactly the command,
      file-change and MCP reviews concluded for that item since its summary was last cleared,
      whether or not those reviews' own events could be emitted. */
  lemma ToolEventCountsItsReviews(facts: seq<Fact>, f: Fact, e: TrackEvent)
    requires e in Step(Run(EMPTY, facts).state, f).out && e.ToolItemEvent?
    ensures Describes(e, ReviewsSinceClear(facts, e.key))
  {
    var s := Run(EMPTY, facts).state;
    ToolEventSource(s, f, e);
    SummaryFollowsReviews(facts, e.key);
    SummaryDescribes(e.context, e.key, e.kind, e.startedAtMs, e.endedAtMs, SummaryOf(s, e.key), ReviewsSinceClear(facts, e.key));
  }

  lemma OtherFactsEmitNoReview(s: State, f: Fact, e: TrackEvent)
    requires !f.ApprovalSettled? && !f.GuardianReviewCompleted? && e in Step(s, f).out
    ensures !e.ReviewEvent?
  {
  }

  predicate SaysReview(e: TrackEvent, review: PendingReview, c: Conclusion, at: nat) {
    && e.ReviewEvent? && e.review == review && e.reviewer == c.reviewer
    && e.status == c.status && e.resolution == c.resolution && e.completedAtMs == at
  }

  lemma ConclusionEmits(s: State, review: PendingReview, c: Conclusion, at: nat)
    ensures var out := ConcludeReview(s, review, c.reviewer, c.status, c.resolution, at).out;
            if ThreadContext(s, review.thread).Some? then |out| == 1 && SaysReview(out[0], review, c, at) else out == []
  {
  }

  /** In every run a fact emits a review event if and only if it concludes a review, by a verdict on
      a pending approval or a guardian review that is over, of a connected thread.  Then the event
      is the only one and says the review, who decided, what was decided and when. */
  lemma ReviewIsReportedExactlyWhen(facts: seq<Fact>, f: Fact)
    ensures var out := Step(Run(EMPTY, facts).state, f).out;
            var c := Concluded(facts, f);
            && ((exists e :: e in out && e.ReviewEvent?) <==> c.Some? && Connected(facts, c.value.0.thread))
            && (c.Some? && Connected(facts, c.value.0.thread) ==>
                  |out| == 1 && SaysReview(out[0], c.value.0, c.value.1, ConcludedAt(f)))
  {
    var s := Run(EMPTY, facts).state;
    var out := Step(s, f).out;
    if Concluded(facts, f).Some? {
      var (review, c) := Concluded(facts, f).value;
      StepConcludes(facts, f);
      ConclusionEmits(Settled(s, f), review, c, ConcludedAt(f));
      ThreadHasContextExactlyWhen(facts, review.thread);
      assert ThreadContext(Settled(s, f), review.thread) == ThreadContext(s, review.thread);
      if out != [] {
        assert out[0] in out;
      }
    } else if f.ApprovalSettled? || f.GuardianReviewCompleted? {
      NothingConcluded(facts, f);
    } else {
      forall e | e in out ensures !e.ReviewEvent? {
        OtherFactsEmitNoReview(s, f, e);
      }
    }
  }

  // ----- What is reviewed -----

  /** What an approval request leaves pending: its subject, what it asks for, and why it came up. */
  lemma ApprovalIsReadAs(request: RequestId, a: Approval, thread: ThreadId, turn: TurnId, item: ItemId, startedAt: nat)
    ensures var r := PendingApproval(request, a, thread, turn, item, startedAt);
            && r.id == UserReview(request) && r.thread == thread && r.turn == turn && r.item == Some(item) && r.startedAt == startedAt
            && (r.kind == FileSubject <==> a.FileApproval?)
            && (r.kind == PermissionsSubject <==> a.PermissionsApproval?)
            && (r.kind == NetworkSubject <==> a.CommandApproval? && a.networkContext)
            && (r.kind == CommandSubject <==> a.CommandApproval? && !a.networkContext)
            && (r.wantsNetwork <==>
                  || (a.CommandApproval? && (a.networkContext || a.networkAmendments || a.additional == Some(true)))
                  || (a.PermissionsApproval? && a.network))
            && (r.wantsPermissions <==>
                  || (a.CommandApproval? && a.additional.Some?) || (a.FileApproval? && a.grantRoot)
                  || (a.PermissionsApproval? && (a.network || a.fileSystem)))
            && (r.trigger == ExecveIntercept <==> a.CommandApproval? && a.approvalId)
            && (r.trigger == NetworkPolicyDenial <==> r.wantsNetwork && !(a.CommandApproval? && a.approvalId))
            && (r.trigger == SandboxDenial <==> r.wantsPermissions && !r.wantsNetwork && !(a.CommandApproval? && a.approvalId))
  {
  }

  /** The same for what the guardian reviews. */
  lemma GuardianActionIsReadAs(thread: ThreadId, turn: TurnId, target: Option<ItemId>, name: string, a: GuardianAction, startedAt: nat)
    ensures var r := GuardianPending(thread, turn, target, name, a, startedAt);
            && r.id == GuardianReviewId(name) && r.thread == thread && r.turn == turn && r.item == target && r.startedAt == startedAt
            && (r.kind == CommandSubject <==> a.GuardCommand? || a.GuardExecve?)
            && (r.kind == FileSubject <==> a.GuardApplyPatch?)
            && (r.kind == NetworkSubject <==> a.GuardNetworkAccess?)
            && (r.kind == PermissionsSubject <==> a.GuardPermissions?)
            && (r.kind == McpSubject <==> a.GuardMcpToolCall?)
            && (r.wantsNetwork <==> a.GuardNetworkAccess? || (a.GuardPermissions? && a.network))
            && (r.wantsPermissions <==> a.GuardApplyPatch? || a.GuardNetworkAccess? || (a.GuardPermissions? && (a.network || a.fileSystem)))
            && (r.trigger == ExecveIntercept <==> a.GuardExecve?)
            && (r.trigger == NetworkPolicyDenial <==> r.wantsNetwork)
            && (r.trigger == SandboxDenial <==> r.wantsPermissions && !r.wantsNetwork)
  {
  }

  // ----- Approval requests -----

  predicate IsUserReviewOf(e: TrackEvent, request: RequestId) {
    e.ReviewEvent? && e.reviewer == User && e.review.id == UserReview(request)
  }

  function UserReviews(out: seq<TrackEvent>, request: RequestId): nat {
    if out == [] then 0
    else UserReviews(out[..|out| - 1], request) + (if IsUserReviewOf(out[|out| - 1], request) then 1 else 0)
  }

  lemma {:induction false} UserReviewsConcat(a: seq<TrackEvent>, b: seq<TrackEvent>, request: RequestId)
    ensures UserReviews(a + b, request) == UserReviews(a, request) + UserReviews(b, request)
    decreases |b|
  {
    if b == [] {
      assert a + b == a;
    } else {
      assert (a + b)[..|a + b| - 1] == a + b[..|b| - 1];
      UserReviewsConcat(a, b[..|b| - 1], request);
    }
  }

  lemma {:induction false} NoUserReviews(out: seq<TrackEvent>, request: RequestId)
    requires forall i :: 0 <= i < |out| ==> !IsUserReviewOf(out[i], request)
    ensures UserReviews(out, request) == 0
  {
    if out != [] {
      NoUserReviews(out[..|out| - 1], request);
    }
  }

  function ApprovalRequests(facts: seq<Fact>, request: RequestId): nat {
    if facts == [] then 0
    else ApprovalRequests(facts[..|facts| - 1], request) + (if AsksFor(facts[|facts| - 1], request) then 1 else 0)
  }

  /** A pending review carries the id of the request it is filed under. */
  predicate ReviewsAreNamed(s: State) {
    forall r :: r in s.pendingReviews ==> s.pendingReviews[r].id == UserReview(r)
  }

  function Open(s: State, request: RequestId): nat {
    if request in s.pendingReviews then 1 else 0
  }

  lemma OnlyVerdictsEmitUserReviews(s: State, f: Fact, request: RequestId)
    requires !f.ApprovalSettled?
    ensures UserReviews(Step(s, f).out, request) == 0
  {
    NoUserReviews(Step(s, f).out, request);
  }

  lemma OnlyApprovalsChangePendingReviews(s: State, f: Fact)
    requires !f.ApprovalSettled? && !f.ApprovalRequest?
    ensures Step(s, f).state.pendingReviews == s.pendingReviews
  {
  }

  lemma SettlementUsesTheRequest(s: State, v: Verdict, request: RequestId)
    requires ReviewsAreNamed(s)
    ensures var r := Step(s, ApprovalSettled(v));
            && UserReviews(r.out, request) + Open(r.state, request) <= Open(s, request)
            && r.state.pendingReviews == s.pendingReviews - {v.request}
            && (v.request != request ==> UserReviews(r.out, request) == 0)
  {
    var r := Step(s, ApprovalSettled(v));
    if v.request in s.pendingReviews {
      assert s.pendingReviews[v.request].id == UserReview(v.request);
      if r.out != [] {
        assert |r.out| == 1 && r.out[..0] == [];
      }
    } else {
      assert s.pendingReviews - {v.request} == s.pendingReviews;
    }
  }

  lemma RequestOpensOneReview(s: State, f: Fact, request: RequestId)
    requires ReviewsAreNamed(s) && f.ApprovalRequest?
    ensures var t := Step(s, f).state;
            ReviewsAreNamed(t) && Open(t, request) <= Open(s, request) + (if AsksFor(f, request) then 1 else 0)
  {
    var t := Step(s, f).state;
    forall r | r in t.pendingReviews ensures t.pendingReviews[r].id == UserReview(r) {
    }
  }

  lemma SettlementKeepsNames(s: State, v: Verdict)
    requires ReviewsAreNamed(s)
    ensures ReviewsAreNamed(Step(s, ApprovalSettled(v)).state)
  {
    SettlementUsesTheRequest(s, v, v.request);
  }

  lemma StepReviews(s: State, f: Fact, request: RequestId)
    requires ReviewsAreNamed(s)
    ensures ReviewsAreNamed(Step(s, f).state)
    ensures UserReviews(Step(s, f).out, request) + Open(Step(s, f).state, request)
              <= Open(s, request) + (if AsksFor(f, request) then 1 else 0)
  {
    if f.ApprovalSettled? {
      SettlementUsesTheRequest(s, f.verdict, request);
      SettlementKeepsNames(s, f.verdict);
    } else {
      OnlyVerdictsEmitUserReviews(s, f, request);
      if f.ApprovalRequest? {
        RequestOpensOneReview(s, f, request);
      } else {
        OnlyApprovalsChangePendingReviews(s, f);
      }
    }
  }

  lemma {:induction false} RunReviews(facts: seq<Fact>, request: RequestId)
    ensures ReviewsAreNamed(Run(EMPTY, facts).state)
    ensures UserReviews(Run(EMPTY, facts).out, request) + Open(Run(EMPTY, facts).state, request) <= ApprovalRequests(facts, request)
  {
    if facts != [] {
      var front, f := facts[..|facts| - 1], facts[|facts| - 1];
      var before := Run(EMPTY, front);
      RunReviews(front, request);
      StepReviews(before.state, f, request);
      UserReviewsConcat(before.out, Step(before.state, f).out, request);
    }
  }

  /** Whatever mix of responses and aborts follows, an approval request yields at most one user
      review event per time it was made with a valid start time, and fewer than that while one is still pending. */
  lemma ApprovalIsReviewedAtMostOnce(facts: seq<Fact>, request: RequestId)
    ensures UserReviews(Run(EMPTY, facts).out, request) <= ApprovalRequests(facts, request)
    ensures request in Run(EMPTY, facts).state.pendingReviews ==>
              UserReviews(Run(EMPTY, facts).out, request) < ApprovalRequests(facts, request)
  {
    RunReviews(facts, request);
  }

  /** The pending reviews are a matter of each request's own facts. */
  lemma {:induction false} PendingReviewsFollowTheirRequests(facts: seq<Fact>, request: RequestId)
    ensures var s := Run(EMPTY, facts).state;
            PendingAt(facts, request) == if request in s.pendingReviews then Some(s.pendingReviews[request]) else None
  {
    if facts != [] {
      var front, f := facts[..|facts| - 1], facts[|facts| - 1];
      var s := Run(EMPTY, front).state;
      PendingReviewsFollowTheirRequests(front, request);
      if f.ApprovalSettled? {
        RunReviews(front, request);
        SettlementUsesTheRequest(s, f.verdict, request);
      } else if !f.ApprovalRequest? {
        OnlyApprovalsChangePendingReviews(s, f);
      }
    }
  }

  // ----- Steer requests -----

  predicate SteersOn(f: Fact, c: ConnectionId, request: RequestId) {
    f.TurnSteerRequest? && f.connection == c && f.request == request
  }

  function SteerEventCount(out: seq<TrackEvent>): nat {
    if out == [] then 0
    else SteerEventCount(out[..|out| - 1]) + (if out[|out| - 1].TurnSteerEvent? then 1 else 0)
  }

  lemma {:induction false} NoSteerEvents(out: seq<TrackEvent>)
    requires forall i :: 0 <= i < |out| ==> !out[i].TurnSteerEvent?
    ensures SteerEventCount(out) == 0
  {
    if out != [] {
      NoSteerEvents(out[..|out| - 1]);
    }
  }

  /** The steer events emitted by replies on this connection to this request. */
  function SteerEventsFor(facts: seq<Fact>, c: ConnectionId, request: RequestId): nat {
    if facts == [] then 0
    else
      var front, f := facts[..|facts| - 1], facts[|facts| - 1];
      SteerEventsFor(front, c, request)
      + (if RepliesTo(f, c, request) then SteerEventCount(Step(Run(EMPTY, front).state, f).out) else 0)
  }

  function SteerRequests(facts: seq<Fact>, c: ConnectionId, request: RequestId): nat {
    if facts == [] then 0
    else SteerRequests(facts[..|facts| - 1], c, request) + (if SteersOn(facts[|facts| - 1], c, request) then 1 else 0)
  }

  function Waiting(s: State, c: ConnectionId, request: RequestId): nat {
    if (c, request) in s.requests && s.requests[(c, request)].PendingTurnSteer? then 1 else 0
  }

  lemma ReplyUsesTheSteer(s: State, f: Fact)
    requires f.ErrorResponse? || f.TurnStartResponse? || f.TurnSteerResponse?
    ensures SteerEventCount(Step(s, f).out) <= Waiting(s, f.connection, f.request)
    ensures Waiting(Step(s, f).state, f.connection, f.request) == 0
  {
    ReplyRemovesItsRequest(s, f);
    var out := Step(s, f).out;
    if f.TurnStartResponse? || out == [] {
      NoSteerEvents(out);
    } else {
      assert |out| == 1 && out[..0] == [];
    }
  }

  lemma StepSteers(s: State, f: Fact, c: ConnectionId, request: RequestId)
    ensures (if RepliesTo(f, c, request) then SteerEventCount(Step(s, f).out) else 0) + Waiting(Step(s, f).state, c, request)
              <= Waiting(s, c, request) + (if SteersOn(f, c, request) then 1 else 0)
  {
    if RepliesTo(f, c, request) {
      ReplyUsesTheSteer(s, f);
    } else if !f.TurnStartRequest? && !f.TurnSteerRequest? {
      RequestWaitsForItsReply(s, f, c, request);
    }
  }

  lemma {:induction false} RunSteers(facts: seq<Fact>, c: ConnectionId, request: RequestId)
    ensures SteerEventsFor(facts, c, request) + Waiting(Run(EMPTY, facts).state, c, request) <= SteerRequests(facts, c, request)
  {
    if facts != [] {
      var front, f := facts[..|facts| - 1], facts[|facts| - 1];
      RunSteers(front, c, request);
      StepSteers(Run(EMPTY, front).state, f, c, request);
    }
  }

  /** A steer request yields at most one steer event, emitted by a reply on its connection to
      its id; no other fact emits steer events at all. */
  lemma SteerIsReportedAtMostOnce(facts: seq<Fact>, c: ConnectionId, request: RequestId, f: Fact)
    ensures SteerEventsFor(facts, c, request) <= SteerRequests(facts, c, request)
    ensures SteerEventCount(Step(Run(EMPTY, facts).state, f).out) > 0 ==>
              && (f.TurnSteerResponse? || f.ErrorResponse?)
              && SteerEventCount(Step(Run(EMPTY, facts).state, f).out) == 1
              && SteerRequests(facts, f.connection, f.request) > SteerEventsFor(facts, f.connection, f.request)
  {
    RunSteers(facts, c, request);
    var s := Run(EMPTY, facts).state;
    var out := Step(s, f).out;
    if f.TurnSteerResponse? || f.ErrorResponse? {
      ReplyUsesTheSteer(s, f);
      RunSteers(facts, f.connection, f.request);
    } else {
      OtherFactsEmitNoSteer(s, f);
    }
  }

  lemma OtherFactsEmitNoSteer(s: State, f: Fact)
    requires !f.TurnSteerResponse? && !f.ErrorResponse?
    ensures SteerEventCount(Step(s, f).out) == 0
  {
    NoSteerEvents(Step(s, f).out);
  }
}
