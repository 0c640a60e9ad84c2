/** What the counters in turn events count. */
module AnalyticsCounters {
  import opened Common
  import opened AnalyticsModel
  import opened AnalyticsRequests
  import opened AnalyticsTurns

  /** What happened to a turn since its state was created. */
  datatype TurnHistory = TurnHistory(steers: nat, items: seq<ItemKind>)

  /** An accepted steer reply for the turn that matches a pending steer request. */
  predicate AcceptsSteer(front: seq<Fact>, f: Fact, id: TurnId) {
    && f.TurnSteerResponse? && f.turn == id
    && var pending := PendingRequestAt(front, f.connection, f.request);
       pending.Some? && pending.value.PendingTurnSteer?
  }

  predicate CountsItem(f: Fact, id: TurnId) {
    f.ItemCompleted? && f.turn == id && IsCounted(f.threadItem.kind)
  }

  predicate IsAbout(f: Fact, id: TurnId) {
    f.OfTurn? && TurnNamed(f.turnFact) == id
  }

  /** A start reply for the turn that matches a pending start request. */
  predicate StartsTurn(front: seq<Fact>, f: Fact, id: TurnId) {
    && f.TurnStartResponse? && f.turn == id
    && var pending := PendingRequestAt(front, f.connection, f.request);
       pending.Some? && pending.value.PendingTurnStart?
  }

  /** A fact that makes the turn known. */
  predicate Touches(front: seq<Fact>, f: Fact, id: TurnId) {
    IsAbout(f, id) || StartsTurn(front, f, id)
  }

  /** The turn's event is emitted at the last of the facts. */
  predicate EmittedBy(front: seq<Fact>, f: Fact, id: TurnId) {
    TurnEvents(Step(Run(EMPTY, front).state, f).out, id) > 0
  }

  /** Touched since its event was last emitted. */
  predicate Known(facts: seq<Fact>, id: TurnId) {
    facts != [] &&
    var front, f := facts[..|facts| - 1], facts[|facts| - 1];
    !EmittedBy(front, f, id) && (Touches(front, f, id) || Known(front, id))
  }

  /** What the facts say of a turn since it became known: nothing of what came before its event
      was last emitted, or before it was touched. */
  function HistoryOf(facts: seq<Fact>, id: TurnId): TurnHistory {
    if facts == [] then TurnHistory(0, [])
    else
      var front, f := facts[..|facts| - 1], facts[|facts| - 1];
      if !Known(front, id) || EmittedBy(front, f, id) then TurnHistory(0, [])
      else
        var h := HistoryOf(front, id);
        if AcceptsSteer(front, f, id) then h.(steers := h.steers + 1)
        else if CountsItem(f, id) then h.(items := h.items + [f.threadItem.kind])
        else h
  }

  lemma FillKnows(s: State, t: TurnFact, id: TurnId)
    ensures var r := FillTurn(s, t);
            id in r.state.turns <==> TurnEvents(r.out, id) == 0 && (TurnNamed(t) == id || id in s.turns)
  {
    var at := TurnNamed(t);
    EmissionKnows(WithTurn(s, at, Filled(TurnOf(s, at), t)), at, id);
  }

  lemma EmissionKnows(s: State, at: TurnId, id: TurnId)
    ensures var r := MaybeEmitTurn(s, at);
            id in r.state.turns <==> TurnEvents(r.out, id) == 0 && id in s.turns
  {
    var r := MaybeEmitTurn(s, at);
    EmissionEffect(s, at);
    if r.out != [] {
      if at == id {
        FirstIsTheTurnEvent(r.out, id);
      } else {
        NoTurnEvents(r.out, id);
      }
    }
  }

  lemma ReplyKnows(s: State, c: ConnectionId, request: RequestId, turn: TurnId, id: TurnId)
    ensures var r := ReplyTurnStart(s, c, request, turn);
            var matched := RequestOf(s, c, request).Some? && RequestOf(s, c, request).value.PendingTurnStart?;
            id in r.state.turns <==> TurnEvents(r.out, id) == 0 && ((matched && turn == id) || id in s.turns)
  {
    ReplyIsStarted(s, c, request, turn);
    if (c, request) in s.requests && s.requests[(c, request)].PendingTurnStart? {
      EmissionKnows(Started(s, c, request, turn), turn, id);
    }
  }

  /** In every run the turns with a state are those the facts make known. */
  lemma {:induction false} TurnsAreKnownExactlyWhen(facts: seq<Fact>, id: TurnId)
    ensures id in Run(EMPTY, facts).state.turns <==> Known(facts, id)
  {
    if facts != [] {
      var front, f := facts[..|facts| - 1], facts[|facts| - 1];
      var s := Run(EMPTY, front).state;
      TurnsAreKnownExactlyWhen(front, id);
      if f.OfTurn? {
        FillKnows(s, f.turnFact, id);
      } else if f.TurnStartResponse? {
        PendingRequestsFollowTheFacts(front, f.connection, f.request);
        ReplyKnows(s, f.connection, f.request, f.turn, id);
      } else {
        OtherFactsKeepParts(s, f, id);
      }
    }
  }

  /** The counts of a list of items, kind by kind. */
  function Tally(items: seq<ItemKind>): ToolCounts {
    var m := multiset(items);
    ToolCounts(|items|, m[CommandExecution], m[FileChange], m[McpToolCall], m[DynamicToolCall],
               m[CollabAgentToolCall] + m[SubAgentActivity], m[WebSearch], m[ImageGeneration])
  }

  lemma TallyAppend(items: seq<ItemKind>, kind: ItemKind)
    requires IsCounted(kind)
    ensures Tally(items + [kind]) == RecordTool(Tally(items), kind)
  {
    assert multiset(items + [kind]) == multiset(items)[kind := multiset(items)[kind] + 1];
  }

  predicate CountersAgree(turn: TurnState, h: TurnHistory) {
    turn.steerCount == h.steers && turn.tools == Tally(h.items)
  }

  lemma FilledKeepsCounters(was: TurnState, t: TurnFact)
    ensures Filled(was, t).steerCount == was.steerCount && Filled(was, t).tools == was.tools
  {
  }

  lemma FillKeepsCounters(s: State, t: TurnFact, id: TurnId)
    requires id in FillTurn(s, t).state.turns
    ensures var was, now := TurnOf(s, id), FillTurn(s, t).state.turns[id];
            now.steerCount == was.steerCount && now.tools == was.tools
  {
    var at := TurnNamed(t);
    FilledKeepsCounters(TurnOf(s, at), t);
    EmissionEffect(WithTurn(s, at, Filled(TurnOf(s, at), t)), at);
  }

  lemma ReplyKeepsCounters(s: State, c: ConnectionId, request: RequestId, turn: TurnId, id: TurnId)
    requires id in ReplyTurnStart(s, c, request, turn).state.turns
    ensures var was, now := TurnOf(s, id), ReplyTurnStart(s, c, request, turn).state.turns[id];
            now.steerCount == was.steerCount && now.tools == was.tools
  {
    ReplyIsStarted(s, c, request, turn);
    if (c, request) in s.requests && s.requests[(c, request)].PendingTurnStart? {
      EmissionEffect(Started(s, c, request, turn), turn);
    }
  }

  lemma ItemCounters(s: State, thread: ThreadId, turn: TurnId, item: ThreadItem, endedAt: int, id: TurnId, h: TurnHistory)
    requires id in s.turns && CountersAgree(s.turns[id], h)
    ensures var t := CompleteItem(s, thread, turn, item, endedAt).state;
            && id in t.turns
            && CountersAgree(t.turns[id],
                 if turn == id && IsCounted(item.kind) then h.(items := h.items + [item.kind]) else h)
  {
    ItemTurns(s, thread, turn, item, endedAt);
    if turn == id && IsCounted(item.kind) {
      TallyAppend(h.items, item.kind);
    }
  }

  /** The facts that touch no counter. */
  lemma OtherCounters(s: State, f: Fact, id: TurnId)
    requires id in s.turns && id in Step(s, f).state.turns && !f.ItemCompleted? && !f.TurnSteerResponse?
    ensures var was, now := s.turns[id], Step(s, f).state.turns[id];
            now.steerCount == was.steerCount && now.tools == was.tools
  {
    if f.OfTurn? {
      FillKeepsCounters(s, f.turnFact, id);
    } else if f.TurnStartResponse? {
      ReplyKeepsCounters(s, f.connection, f.request, f.turn, id);
    } else {
      OtherFactsKeepTurns(s, f);
    }
  }

  predicate SteerWaits(s: State, c: ConnectionId, request: RequestId) {
    RequestOf(s, c, request).Some? && RequestOf(s, c, request).value.PendingTurnSteer?
  }

  lemma SteerCounters(s: State, c: ConnectionId, request: RequestId, turn: TurnId, id: TurnId, h: TurnHistory)
    requires id in s.turns && CountersAgree(s.turns[id], h)
    ensures var t := ReplyTurnSteer(s, c, request, turn).state;
            && id in t.turns
            && CountersAgree(t.turns[id], if turn == id && SteerWaits(s, c, request) then h.(steers := h.steers + 1) else h)
  {
    SteerTurns(s, c, request, turn);
  }

  lemma StepCounters(s: State, f: Fact, id: TurnId, h: TurnHistory)
    requires id in s.turns && id in Step(s, f).state.turns && CountersAgree(s.turns[id], h)
    ensures CountersAgree(Step(s, f).state.turns[id],
              if f.TurnSteerResponse? && f.turn == id && SteerWaits(s, f.connection, f.request) then h.(steers := h.steers + 1)
              else if CountsItem(f, id) then h.(items := h.items + [f.threadItem.kind]) else h)
  {
    if f.ItemCompleted? {
      ItemCounters(s, f.thread, f.turn, f.threadItem, f.endedAtMs, id, h);
    } else if f.TurnSteerResponse? {
      SteerCounters(s, f.connection, f.request, f.turn, id, h);
    } else {
      OtherCounters(s, f, id);
    }
  }

  lemma CreatedTurnStartsAtZero(s: State, f: Fact, id: TurnId)
    requires id !in s.turns && id in Step(s, f).state.turns
    ensures CountersAgree(Step(s, f).state.turns[id], TurnHistory(0, []))
  {
    assert Tally([]) == NO_TOOLS;
    if f.OfTurn? {
      FillKeepsCounters(s, f.turnFact, id);
    } else if f.TurnStartResponse? {
      ReplyKeepsCounters(s, f.connection, f.request, f.turn, id);
    } else {
      OtherFactsKeepParts(s, f, id);
      assert false;
    }
  }

  /** In every run a turn's counters are those of its history. */
  lemma {:induction false} CountersFollowHistory(facts: seq<Fact>, id: TurnId)
    ensures var s := Run(EMPTY, facts).state;
            id in s.turns ==> CountersAgree(s.turns[id], HistoryOf(facts, id))
  {
    if facts != [] {
      var front, f := facts[..|facts| - 1], facts[|facts| - 1];
      var s := Run(EMPTY, front).state;
      CountersFollowHistory(front, id);
      TurnsAreKnownExactlyWhen(front, id);
      TurnsAreKnownExactlyWhen(facts, id);
      if f.TurnSteerResponse? {
        PendingRequestsFollowTheFacts(front, f.connection, f.request);
      }
      if id in Step(s, f).state.turns {
        if id in s.turns {
          StepCounters(s, f, id, HistoryOf(front, id));
        } else {
          CreatedTurnStartsAtZero(s, f, id);
        }
      }
    }
  }

  predicate SumsUp(c: ToolCounts) {
    c.total == c.shell + c.file + c.mcp + c.dynamic_ + c.subagent + c.web + c.image
  }

  lemma RecordSumsUp(c: ToolCounts, kind: ItemKind)
    requires SumsUp(c)
    ensures SumsUp(RecordTool(c, kind))
  {
  }

  /** Counting the items one by one. */
  function CountUp(items: seq<ItemKind>): ToolCounts {
    if items == [] then NO_TOOLS else RecordTool(CountUp(items[..|items| - 1]), items[|items| - 1])
  }

  lemma {:induction false} CountUpIsTally(items: seq<ItemKind>)
    requires forall n :: 0 <= n < |items| ==> IsCounted(items[n])
    ensures CountUp(items) == Tally(items)
  {
    if items != [] {
      var front, last := items[..|items| - 1], items[|items| - 1];
      CountUpIsTally(front);
      TallyAppend(front, last);
      assert items == front + [last];
    }
  }

  lemma {:induction false} CountUpSumsUp(items: seq<ItemKind>)
    ensures SumsUp(CountUp(items))
  {
    if items != [] {
      CountUpSumsUp(items[..|items| - 1]);
      RecordSumsUp(CountUp(items[..|items| - 1]), items[|items| - 1]);
    }
  }

  lemma {:induction false} HistoryIsCounted(facts: seq<Fact>, id: TurnId)
    ensures forall n :: 0 <= n < |HistoryOf(facts, id).items| ==> IsCounted(HistoryOf(facts, id).items[n])
  {
    if facts != [] {
      HistoryIsCounted(facts[..|facts| - 1], id);
    }
  }

  /** The totals of a turn are the sum of the seven categories in every reachable state. */
  lemma ToolTotalIsTheSum(facts: seq<Fact>, id: TurnId)
    ensures var s := Run(EMPTY, facts).state;
            id in s.turns ==> SumsUp(s.turns[id].tools)
  {
    CountersFollowHistory(facts, id);
    HistoryIsCounted(facts, id);
    CountUpIsTally(HistoryOf(facts, id).items);
    CountUpSumsUp(HistoryOf(facts, id).items);
  }

  lemma EmittedTurnWasKnown(s: State, f: Fact, e: TrackEvent)
    requires e in Step(s, f).out && e.TurnEvent?
    ensures e.turn in s.turns
    ensures e.payload.steerCount == s.turns[e.turn].steerCount && e.payload.tools == s.turns[e.turn].tools
  {
    if f.OfTurn? {
      var at := TurnNamed(f.turnFact);
      FilledKeepsCounters(TurnOf(s, at), f.turnFact);
      EmissionEffect(WithTurn(s, at, Filled(TurnOf(s, at), f.turnFact)), at);
    } else if f.TurnStartResponse? {
      ReplyIsStarted(s, f.connection, f.request, f.turn);
      EmissionEffect(Started(s, f.connection, f.request, f.turn), f.turn);
    } else {
      OnlyTurnFactsEmitTurns(s, f, e);
    }
  }

  lemma OnlyTurnFactsEmitTurns(s: State, f: Fact, e: TrackEvent)
    requires !f.OfTurn? && !f.TurnStartResponse? && e in Step(s, f).out
    ensures !e.TurnEvent?
  {
  }

  predicate TellsHistory(payload: TurnPayload, h: TurnHistory) {
    && payload.steerCount == h.steers
    && payload.tools == Tally(h.items) && payload.tools.total == |h.items| && SumsUp(payload.tools)
  }

  /** The counters in a turn event are the steers accepted and the items counted for that turn
      since its state was created, and the tool total is their number. */
  lemma TurnEventCountersFollowHistory(facts: seq<Fact>, f: Fact, e: TrackEvent)
    requires e in Step(Run(EMPTY, facts).state, f).out && e.TurnEvent?
    ensures TellsHistory(e.payload, HistoryOf(facts, e.turn))
  {
    EmittedTurnWasKnown(Run(EMPTY, facts).state, f, e);
    CountersFollowHistory(facts, e.turn);
    ToolTotalIsTheSum(facts, e.turn);
  }
}
