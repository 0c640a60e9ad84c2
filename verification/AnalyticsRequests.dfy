/** Pending client requests over whole runs: what is pending is a matter of each request's own facts. */
module AnalyticsRequests {
  import opened Common
  import opened AnalyticsModel

  predicate RepliesTo(f: Fact, c: ConnectionId, request: RequestId) {
    (f.TurnStartResponse? || f.TurnSteerResponse? || f.ErrorResponse?) && f.connection == c && f.request == request
  }

  predicate MakesRequest(f: Fact, c: ConnectionId, request: RequestId) {
    (f.TurnStartRequest? || f.TurnSteerRequest?) && f.connection == c && f.request == request
  }

  /** The latest request under this name that no reply on its connection with its id has used up. */
  function PendingRequestAt(facts: seq<Fact>, c: ConnectionId, request: RequestId): Option<RequestState> {
    if facts == [] then None
    else
      var f := facts[|facts| - 1];
      if MakesRequest(f, c, request) then
        Some(if f.TurnStartRequest? then PendingTurnStart(f.thread, f.images)
             else PendingTurnSteer(f.thread, f.expectedTurn, f.images, f.createdAt))
      else if RepliesTo(f, c, request) then None
      else PendingRequestAt(facts[..|facts| - 1], c, request)
  }

  /** A request waits until a reply on its own connection with its own id, or a new request
      under the same name; nothing else touches it. */
  lemma RequestWaitsForItsReply(s: State, f: Fact, c: ConnectionId, request: RequestId)
    requires !RepliesTo(f, c, request)
    requires !MakesRequest(f, c, request)
    ensures (c, request) in Step(s, f).state.requests <==> (c, request) in s.requests
    ensures (c, request) in s.requests ==> Step(s, f).state.requests[(c, request)] == s.requests[(c, request)]
  {
    if f.ErrorResponse? || f.TurnStartResponse? || f.TurnSteerResponse? {
      ReplyRemovesItsRequest(s, f);
    }
  }

  lemma ReplyRemovesItsRequest(s: State, f: Fact)
    requires f.ErrorResponse? || f.TurnStartResponse? || f.TurnSteerResponse?
    ensures Step(s, f).state.requests == s.requests - {(f.connection, f.request)}
  {
  }

  function RequestOf(s: State, c: ConnectionId, request: RequestId): Option<RequestState> {
    if (c, request) in s.requests then Some(s.requests[(c, request)]) else None
  }

  /** In every run the pending requests are those the facts leave pending. */
  lemma {:induction false} PendingRequestsFollowTheFacts(facts: seq<Fact>, c: ConnectionId, request: RequestId)
    ensures RequestOf(Run(EMPTY, facts).state, c, request) == PendingRequestAt(facts, c, request)
  {
    if facts != [] {
      var front, f := facts[..|facts| - 1], facts[|facts| - 1];
      var s := Run(EMPTY, front).state;
      PendingRequestsFollowTheFacts(front, c, request);
      if RepliesTo(f, c, request) {
        ReplyRemovesItsRequest(s, f);
      } else if !MakesRequest(f, c, request) {
        RequestWaitsForItsReply(s, f, c, request);
      }
    }
  }
}
