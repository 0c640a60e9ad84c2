/** Turn events over whole runs: how many, when, and what they say. */
module AnalyticsTurns {
  import opened Common
  import opened AnalyticsModel
  import opened AnalyticsContext

  // ----- Counting turn events -----

  predicate IsTurnEvent(e: TrackEvent, id: TurnId) {
    e.TurnEvent? && e.turn == id
  }

  function TurnEvents(out: seq<TrackEvent>, id: TurnId): nat {
    if out == [] then 0
    else TurnEvents(out[..|out| - 1], id) + (if IsTurnEvent(out[|out| - 1], id) then 1 else 0)
  }

  lemma {:induction false} TurnEventsConcat(a: seq<TrackEvent>, b: seq<TrackEvent>, id: TurnId)
    ensures TurnEvents(a + b, id) == TurnEvents(a, id) + TurnEvents(b, id)
    decreases |b|
  {
    if b == [] {
      assert a + b == a;
    } else {
      assert (a + b)[..|a + b| - 1] == a + b[..|b| - 1];
      TurnEventsConcat(a, b[..|b| - 1], id);
    }
  }

  lemma {:induction false} NoTurnEvents(out: seq<TrackEvent>, id: TurnId)
    requires forall i :: 0 <= i < |out| ==> !IsTurnEvent(out[i], id)
    ensures TurnEvents(out, id) == 0
  {
    if out != [] {
      NoTurnEvents(out[..|out| - 1], id);
    }
  }

  lemma {:induction false} FirstIsTheTurnEvent(out: seq<TrackEvent>, id: TurnId)
    requires out != [] && IsTurnEvent(out[0], id)
    requires forall i :: 1 <= i < |out| ==> !IsTurnEvent(out[i], id)
    ensures TurnEvents(out, id) == 1
  {
    assert out == [out[0]] + out[1..];
    assert [out[0]][..0] == [];
    TurnEventsConcat([out[0]], out[1..], id);
    NoTurnEvents(out[1..], id);
  }

  // ----- The three parts of a turn -----

  datatype Part = ConfigPart | ProfilePart | CompletedPart

  predicate Has(turn: TurnState, part: Part) {
    match part
    case ConfigPart => turn.config.Some?
    case ProfilePart => turn.profile.Some?
    case CompletedPart => turn.completed.Some?
  }

  predicate Supplies(f: Fact, id: TurnId, part: Part) {
    && f.OfTurn? && TurnNamed(f.turnFact) == id
    && match part
       case ConfigPart => f.turnFact.TurnResolvedConfig?
       case ProfilePart => f.turnFact.TurnProfile?
       case CompletedPart => f.turnFact.TurnCompleted?
  }

  function Supplied(facts: seq<Fact>, id: TurnId, part: Part): nat {
    if facts == [] then 0
    else Supplied(facts[..|facts| - 1], id, part) + (if Supplies(facts[|facts| - 1], id, part) then 1 else 0)
  }

  function Held(s: State, id: TurnId, part: Part): nat {
    if Has(TurnOf(s, id), part) then 1 else 0
  }

  /** Emission either leaves the turns alone and emits nothing, or removes the one turn and
      starts with its event. */
  lemma EmissionEffect(s: State, at: TurnId)
    ensures var r := MaybeEmitTurn(s, at);
            if r.out == [] then r.state == s
            else && at in s.turns && Populated(s.turns[at]) && r.state.turns == s.turns - {at}
                 && r.out[0].TurnEvent? && r.out[0].turn == at && r.out[0].payload == PayloadOf(s.turns[at])
                 && forall i :: 1 <= i < |r.out| ==> !r.out[i].TurnEvent?
  {
  }

  /** A turn event uses up the parts it is made of. */
  lemma EmissionUsesParts(s: State, at: TurnId, id: TurnId, part: Part)
    ensures var r := MaybeEmitTurn(s, at);
            TurnEvents(r.out, id) + Held(r.state, id, part) <= Held(s, id, part)
  {
    var r := MaybeEmitTurn(s, at);
    EmissionEffect(s, at);
    if r.out != [] {
      if at == id {
        FirstIsTheTurnEvent(r.out, id);
      } else {
        NoTurnEvents(r.out, id);
      }
    }
  }

  lemma FilledParts(was: TurnState, f: TurnFact, part: Part)
    ensures Has(Filled(was, f), part) <==> Has(was, part) || Supplies(OfTurn(f), TurnNamed(f), part)
  {
  }

  lemma FillBound(s: State, f: TurnFact, id: TurnId, part: Part)
    ensures var r := FillTurn(s, f);
            TurnEvents(r.out, id) + Held(r.state, id, part)
              <= Held(s, id, part) + (if Supplies(OfTurn(f), id, part) then 1 else 0)
  {
    var at := TurnNamed(f);
    var s1 := WithTurn(s, at, Filled(TurnOf(s, at), f));
    FilledParts(TurnOf(s, at), f, part);
    EmissionUsesParts(s1, at, id, part);
  }

  /** What a matching start reply fills in. */
  function Started(s: State, c: ConnectionId, request: RequestId, turn: TurnId): State
    requires (c, request) in s.requests && s.requests[(c, request)].PendingTurnStart?
  {
    var pending := s.requests[(c, request)];
    WithTurn(WithoutRequest(s, c, request), turn,
             TurnOf(s, turn).(connection := Some(c), thread := Some(pending.thread), images := Some(pending.images)))
  }

  lemma StartedKeepsParts(s: State, c: ConnectionId, request: RequestId, turn: TurnId, id: TurnId)
    requires (c, request) in s.requests && s.requests[(c, request)].PendingTurnStart?
    ensures var was, now := TurnOf(s, id), TurnOf(Started(s, c, request, turn), id);
            now == was.(connection := now.connection, thread := now.thread, images := now.images)
  {
  }

  lemma ReplyIsStarted(s: State, c: ConnectionId, request: RequestId, turn: TurnId)
    ensures ReplyTurnStart(s, c, request, turn) ==
            if (c, request) in s.requests && s.requests[(c, request)].PendingTurnStart?
            then MaybeEmitTurn(Started(s, c, request, turn), turn)
            else Result(WithoutRequest(s, c, request), [])
  {
  }

  lemma ReplyBound(s: State, c: ConnectionId, request: RequestId, turn: TurnId, id: TurnId, part: Part)
    ensures var r := ReplyTurnStart(s, c, request, turn);
            TurnEvents(r.out, id) + Held(r.state, id, part) <= Held(s, id, part)
  {
    ReplyIsStarted(s, c, request, turn);
    if (c, request) in s.requests && s.requests[(c, request)].PendingTurnStart? {
      StartedKeepsParts(s, c, request, turn, id);
      EmissionUsesParts(Started(s, c, request, turn), turn, id, part);
      assert Held(Started(s, c, request, turn), id, part) == Held(s, id, part);
    } else {
      assert TurnOf(WithoutRequest(s, c, request), id) == TurnOf(s, id);
    }
  }

  predicate SameButCounters(was: TurnState, now: TurnState) {
    now == was.(steerCount := now.steerCount, tools := now.tools)
  }

  lemma OtherFactsEmitNoTurn(s: State, f: Fact, id: TurnId)
    requires !f.OfTurn? && !f.TurnStartResponse?
    ensures TurnEvents(Step(s, f).out, id) == 0
  {
    NoTurnEvents(Step(s, f).out, id);
  }

  predicate IsCounted(kind: ItemKind) {
    IsTracked(kind) || kind.SubAgentActivity?
  }

  lemma ItemTurns(s: State, thread: ThreadId, turn: TurnId, item: ThreadItem, endedAt: int)
    ensures CompleteItem(s, thread, turn, item, endedAt).state.turns ==
            if turn in s.turns && IsCounted(item.kind) then CountItem(s, turn, item.kind).turns else s.turns
  {
  }

  lemma ItemKeepsParts(s: State, thread: ThreadId, turn: TurnId, item: ThreadItem, endedAt: int, id: TurnId)
    ensures var t := CompleteItem(s, thread, turn, item, endedAt).state;
            (id in s.turns <==> id in t.turns) && SameButCounters(TurnOf(s, id), TurnOf(t, id))
  {
    ItemTurns(s, thread, turn, item, endedAt);
    if turn in s.turns {
      CountKeepsParts(s, turn, item.kind, id);
    }
  }

  lemma CountKeepsParts(s: State, turn: TurnId, kind: ItemKind, id: TurnId)
    requires turn in s.turns
    ensures var t := CountItem(s, turn, kind);
            (id in s.turns <==> id in t.turns) && SameButCounters(TurnOf(s, id), TurnOf(t, id))
  {
  }

  lemma SteerTurns(s: State, c: ConnectionId, request: RequestId, turn: TurnId)
    ensures ReplyTurnSteer(s, c, request, turn).state.turns ==
            if (c, request) in s.requests && s.requests[(c, request)].PendingTurnSteer? && turn in s.turns
            then s.turns[turn := s.turns[turn].(steerCount := s.turns[turn].steerCount + 1)] else s.turns
  {
  }

  lemma SteerKeepsParts(s: State, c: ConnectionId, request: RequestId, turn: TurnId, id: TurnId)
    ensures var t := ReplyTurnSteer(s, c, request, turn).state;
            (id in s.turns <==> id in t.turns) && SameButCounters(TurnOf(s, id), TurnOf(t, id))
  {
    SteerTurns(s, c, request, turn);
  }

  lemma OtherFactsKeepTurns(s: State, f: Fact)
    requires !f.OfTurn? && !f.TurnStartResponse? && !f.ItemCompleted? && !f.TurnSteerResponse?
    ensures Step(s, f).state.turns == s.turns
  {
  }

  /** The other facts emit no turn event and leave every turn's parts as they are. */
  lemma OtherFactsKeepParts(s: State, f: Fact, id: TurnId)
    requires !f.OfTurn? && !f.TurnStartResponse?
    ensures TurnEvents(Step(s, f).out, id) == 0
    ensures id in s.turns <==> id in Step(s, f).state.turns
    ensures SameButCounters(TurnOf(s, id), TurnOf(Step(s, f).state, id))
  {
    OtherFactsEmitNoTurn(s, f, id);
    if f.ItemCompleted? {
      ItemKeepsParts(s, f.thread, f.turn, f.threadItem, f.endedAtMs, id);
    } else if f.TurnSteerResponse? {
      SteerKeepsParts(s, f.connection, f.request, f.turn, id);
    } else {
      OtherFactsKeepTurns(s, f);
    }
  }

  lemma StepBound(s: State, f: Fact, id: TurnId, part: Part)
    ensures TurnEvents(Step(s, f).out, id) + Held(Step(s, f).state, id, part)
              <= Held(s, id, part) + (if Supplies(f, id, part) then 1 else 0)
  {
    if f.OfTurn? {
      FillBound(s, f.turnFact, id, part);
    } else if f.TurnStartResponse? {
      ReplyBound(s, f.connection, f.request, f.turn, id, part);
    } else {
      OtherFactsKeepParts(s, f, id);
    }
  }

  lemma {:induction false} RunBound(s: State, facts: seq<Fact>, id: TurnId, part: Part)
    ensures TurnEvents(Run(s, facts).out, id) + Held(Run(s, facts).state, id, part)
              <= Held(s, id, part) + Supplied(facts, id, part)
  {
    if facts != [] {
      var front, f := facts[..|facts| - 1], facts[|facts| - 1];
      RunBound(s, front, id, part);
      var before := Run(s, front);
      StepBound(before.state, f, id, part);
      TurnEventsConcat(before.out, Step(before.state, f).out, id);
    }
  }

  /** Over every run a turn has at most as many turn events as it has resolved configs, as it
      has profiles, and as it has completions. */
  lemma TurnEventsAreBounded(facts: seq<Fact>, id: TurnId)
    ensures TurnEvents(Run(EMPTY, facts).out, id) <= Supplied(facts, id, ConfigPart)
    ensures TurnEvents(Run(EMPTY, facts).out, id) <= Supplied(facts, id, ProfilePart)
    ensures TurnEvents(Run(EMPTY, facts).out, id) <= Supplied(facts, id, CompletedPart)
  {
    RunBound(EMPTY, facts, id, ConfigPart);
    RunBound(EMPTY, facts, id, ProfilePart);
    RunBound(EMPTY, facts, id, CompletedPart);
  }

  /** In a reachable state a turn is emitted exactly when it is fully populated, its thread is
      known, and the connection that counts is registered: the turn's own if it has one, even
      when only the thread's is registered. */
  lemma TurnIsEmittedExactlyWhen(facts: seq<Fact>, id: TurnId)
    ensures var s := Run(EMPTY, facts).state;
            var turn := TurnOf(s, id);
            MaybeEmitTurn(s, id).out != [] <==>
              && Populated(turn)
              && turn.thread.value in s.threads
              && (if turn.connection.Some? then turn.connection.value in s.connections
                  else s.threads[turn.thread.value].connection.Some?)
  {
    RunContextInv(EMPTY, facts);
    var s := Run(EMPTY, facts).state;
    var turn := TurnOf(s, id);
    if Populated(turn) && turn.thread.value in s.threads {
      assert ThreadOk(s, s.threads[turn.thread.value]);
    }
  }

  // ----- What a completion says -----

  /** A time that was given and is not negative. */
  predicate IsValidTime(time: Option<nat>, given: Option<int>) {
    && (time.Some? <==> given.Some? && given.value >= 0)
    && (time.Some? ==> time.value == given.value)
  }

  /** The status of the fact unless the turn is still in progress, its error, and its valid times;
      a missing completion time is zero. */
  predicate SaysCompletion(c: Completion, t: TurnFact)
    requires t.TurnCompleted?
  {
    && c.status == (if t.status == TurnInProgress then None else Some(t.status))
    && c.error == t.error
    && (IsValidTime(Some(c.completedAt), t.completedAt) || (c.completedAt == 0 && IsValidTime(None, t.completedAt)))
    && IsValidTime(c.durationMs, t.durationMs)
  }

  lemma CompletionSaysItsFact(t: TurnFact)
    requires t.TurnCompleted?
    ensures SaysCompletion(CompletionOf(t.status, t.error, t.completedAt, t.durationMs), t)
  {
  }
}
