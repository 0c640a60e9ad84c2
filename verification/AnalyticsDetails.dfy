/** What a turn event says, field by field, in terms of the facts since the turn became known. */
module AnalyticsDetails {
  import opened Common
  import opened AnalyticsModel
  import DiffScanner
  import opened AnalyticsRequests
  import opened AnalyticsTurns
  import opened AnalyticsConfluence
  import opened AnalyticsCounters

  /** A fact and those before it. */
  datatype Moment = Moment(before: seq<Fact>, fact: Fact)

  /** The latest fact about each thing, since the turn's event was last emitted. */
  datatype Told = Told(
    config: Option<Moment>, profile: Option<Moment>, completed: Option<Moment>, started: Option<Moment>,
    tokens: Option<Moment>, error: Option<Moment>, diff: Option<Moment>,
    input: Option<Moment>,    // the config, or the start reply that matched a request
    naming: Option<Moment>,   // what names the thread: those, a token usage or a diff
    start: Option<Moment>)    // the start reply

  const NOTHING_TOLD := Told(None, None, None, None, None, None, None, None, None, None)

  function Later(was: Option<Moment>, front: seq<Fact>, f: Fact, about: bool): Option<Moment> {
    if about then Some(Moment(front, f)) else was
  }

  function ToldNext(told: Told, front: seq<Fact>, f: Fact, id: TurnId): Told {
    var about, starts := IsAbout(f, id), StartsTurn(front, f, id);
    Told(Later(told.config, front, f, about && f.turnFact.TurnResolvedConfig?),
         Later(told.profile, front, f, about && f.turnFact.TurnProfile?),
         Later(told.completed, front, f, about && f.turnFact.TurnCompleted?),
         Later(told.started, front, f, about && f.turnFact.TurnStarted?),
         Later(told.tokens, front, f, about && f.turnFact.TurnTokenUsage?),
         Later(told.error, front, f, about && f.turnFact.TurnCodexError?),
         Later(told.diff, front, f, about && f.turnFact.TurnDiffUpdated?),
         Later(told.input, front, f, starts || (about && f.turnFact.TurnResolvedConfig?)),
         Later(told.naming, front, f, starts || (about && (f.turnFact.TurnResolvedConfig? || f.turnFact.TurnTokenUsage? || f.turnFact.TurnDiffUpdated?))),
         Later(told.start, front, f, starts))
  }

  function ToldBy(facts: seq<Fact>, id: TurnId): Told {
    if facts == [] then NOTHING_TOLD
    else
      var front, f := facts[..|facts| - 1], facts[|facts| - 1];
      if EmittedBy(front, f, id) then NOTHING_TOLD else ToldNext(ToldBy(front, id), front, f, id)
  }

  // ----- What each of them says -----

  predicate SaysConfig(config: Option<ResolvedConfig>, m: Option<Moment>) {
    match m
    case None => config.None?
    case Some(at) => at.fact.OfTurn? && at.fact.turnFact.TurnResolvedConfig? && config == Some(at.fact.turnFact.config)
  }

  predicate SaysProfile(profile: Option<string>, m: Option<Moment>) {
    match m
    case None => profile.None?
    case Some(at) => at.fact.OfTurn? && at.fact.turnFact.TurnProfile? && profile == Some(at.fact.turnFact.profile)
  }

  predicate SaysCompleted(completed: Option<Completion>, m: Option<Moment>) {
    match m
    case None => completed.None?
    case Some(at) =>
      at.fact.OfTurn? && at.fact.turnFact.TurnCompleted? && completed.Some? && SaysCompletion(completed.value, at.fact.turnFact)
  }

  predicate SaysStarted(startedAt: Option<nat>, m: Option<Moment>) {
    match m
    case None => startedAt.None?
    case Some(at) => at.fact.OfTurn? && at.fact.turnFact.TurnStarted? && IsValidTime(startedAt, at.fact.turnFact.startedAt)
  }

  predicate SaysTokens(tokens: Option<nat>, m: Option<Moment>) {
    match m
    case None => tokens.None?
    case Some(at) => at.fact.OfTurn? && at.fact.turnFact.TurnTokenUsage? && tokens == Some(at.fact.turnFact.tokens)
  }

  predicate SaysError(error: Option<string>, m: Option<Moment>) {
    match m
    case None => error.None?
    case Some(at) => at.fact.OfTurn? && at.fact.turnFact.TurnCodexError? && error == Some(at.fact.turnFact.codexError)
  }

  predicate SaysDiff(diff: Option<string>, m: Option<Moment>) {
    match m
    case None => diff.None?
    case Some(at) => at.fact.OfTurn? && at.fact.turnFact.TurnDiffUpdated? && diff == Some(at.fact.turnFact.diff)
  }

  /** The request a start reply matched. */
  function Matched(m: Moment): Option<RequestState> {
    if m.fact.TurnStartResponse? then PendingRequestAt(m.before, m.fact.connection, m.fact.request) else None
  }

  predicate SaysImages(images: Option<nat>, m: Option<Moment>) {
    match m
    case None => images.None?
    case Some(at) =>
      if at.fact.OfTurn? then at.fact.turnFact.TurnResolvedConfig? && images == Some(at.fact.turnFact.config.images)
      else Matched(at).Some? && images == Some(Matched(at).value.images)
  }

  predicate SaysThread(thread: Option<ThreadId>, m: Option<Moment>) {
    match m
    case None => true
    case Some(at) =>
      if at.fact.OfTurn? then
        match at.fact.turnFact
        case TurnResolvedConfig(config) => thread == Some(config.thread)
        case TurnTokenUsage(_, named, _) => thread == Some(named)
        case TurnDiffUpdated(named, _, _) => thread == Some(named)
        case _ => false
      else Matched(at).Some? && thread == Some(Matched(at).value.thread)
  }

  predicate SaysConnection(connection: Option<ConnectionId>, m: Option<Moment>) {
    match m
    case None => connection.None?
    case Some(at) => at.fact.TurnStartResponse? && connection == Some(at.fact.connection)
  }

  /** The three parts, and what else may come from elsewhere: images, thread and connection. */
  predicate TellsParts(turn: TurnState, told: Told) {
    && SaysConfig(turn.config, told.config) && SaysProfile(turn.profile, told.profile)
    && SaysCompleted(turn.completed, told.completed)
    && SaysImages(turn.images, told.input) && SaysThread(turn.thread, told.naming) && SaysConnection(turn.connection, told.start)
    && (told.config.Some? ==> told.naming.Some?)
  }

  predicate TellsExtras(turn: TurnState, told: Told) {
    && SaysStarted(turn.startedAt, told.started) && SaysTokens(turn.tokens, told.tokens)
    && SaysError(turn.codexError, told.error) && SaysDiff(turn.latestDiff, told.diff)
  }

  predicate Tells(turn: TurnState, told: Told) {
    TellsParts(turn, told) && TellsExtras(turn, told)
  }

  // ----- One fact -----

  lemma FilledTellsExtras(turn: TurnState, told: Told, front: seq<Fact>, f: Fact, id: TurnId)
    requires TellsExtras(turn, told) && IsAbout(f, id)
    ensures TellsExtras(Filled(turn, f.turnFact), ToldNext(told, front, f, id))
  {
  }

  lemma FilledTellsParts(turn: TurnState, told: Told, front: seq<Fact>, f: Fact, id: TurnId)
    requires TellsParts(turn, told) && IsAbout(f, id)
    ensures TellsParts(Filled(turn, f.turnFact), ToldNext(told, front, f, id))
  {
    if f.turnFact.TurnCompleted? {
      CompletionSaysItsFact(f.turnFact);
    }
  }

  lemma FilledTells(turn: TurnState, told: Told, front: seq<Fact>, f: Fact, id: TurnId)
    requires Tells(turn, told) && IsAbout(f, id)
    ensures Tells(Filled(turn, f.turnFact), ToldNext(told, front, f, id))
  {
    FilledTellsExtras(turn, told, front, f, id);
    FilledTellsParts(turn, told, front, f, id);
  }

  /** What a matching start reply makes of a turn. */
  function StartedTurn(turn: TurnState, connection: ConnectionId, pending: RequestState): TurnState {
    turn.(connection := Some(connection), thread := Some(pending.thread), images := Some(pending.images))
  }

  lemma StartedTells(turn: TurnState, told: Told, front: seq<Fact>, f: Fact, id: TurnId)
    requires Tells(turn, told) && StartsTurn(front, f, id)
    ensures var pending := PendingRequestAt(front, f.connection, f.request).value;
            Tells(StartedTurn(turn, f.connection, pending), ToldNext(told, front, f, id))
  {
  }

  lemma OthersTellNothing(told: Told, front: seq<Fact>, f: Fact, id: TurnId)
    requires !Touches(front, f, id)
    ensures ToldNext(told, front, f, id) == told
  {
  }

  lemma CountersTellNothing(was: TurnState, now: TurnState, told: Told)
    requires Tells(was, told) && SameButCounters(was, now)
    ensures Tells(now, told)
  {
  }

  /** The turn's state with the last fact taken in, before it is emitted. */
  function TakenIn(front: seq<Fact>, f: Fact, id: TurnId): TurnState {
    var turn := TurnOf(Run(EMPTY, front).state, id);
    if IsAbout(f, id) then Filled(turn, f.turnFact)
    else if StartsTurn(front, f, id) then StartedTurn(turn, f.connection, PendingRequestAt(front, f.connection, f.request).value)
    else turn
  }

  lemma TakenInTells(front: seq<Fact>, f: Fact, id: TurnId)
    requires Tells(TurnOf(Run(EMPTY, front).state, id), ToldBy(front, id))
    ensures Tells(TakenIn(front, f, id), ToldNext(ToldBy(front, id), front, f, id))
  {
    var turn := TurnOf(Run(EMPTY, front).state, id);
    if IsAbout(f, id) {
      FilledTells(turn, ToldBy(front, id), front, f, id);
    } else if StartsTurn(front, f, id) {
      StartedTells(turn, ToldBy(front, id), front, f, id);
    } else {
      OthersTellNothing(ToldBy(front, id), front, f, id);
    }
  }

  /** What is emitted for the turn, and the accepted lines that go with it. */
  function Emission(context: Context, id: TurnId, turn: TurnState): seq<TrackEvent>
    requires Populated(turn)
  {
    [TurnEvent(context, id, PayloadOf(turn))] + AcceptedLinesOf(id, turn)
  }

  predicate EmitsTurn(out: seq<TrackEvent>, id: TurnId, turn: TurnState) {
    Populated(turn) && out != [] && out[0].TurnEvent? && out == Emission(out[0].context, id, turn)
  }

  lemma EmissionOf(s: State, id: TurnId)
    ensures var r := MaybeEmitTurn(s, id);
            if r.out == [] then r.state == s
            else id in s.turns && EmitsTurn(r.out, id, s.turns[id]) && r.state.turns == s.turns - {id}
  {
  }

  lemma {:induction false} OnlyOne(out: seq<TrackEvent>, id: TurnId, turn: TurnState)
    requires EmitsTurn(out, id, turn)
    ensures TurnEvents(out, id) == 1
  {
    FirstIsTheTurnEvent(out, id);
  }

  /** One fact on one turn: it is taken in, and then emitted or kept. */
  predicate GoesOn(s: State, r: Result, id: TurnId, turn: TurnState) {
    if TurnEvents(r.out, id) > 0 then EmitsTurn(r.out, id, turn) && id !in r.state.turns
    else SameButCounters(turn, TurnOf(r.state, id))
  }

  lemma EmissionGoesOn(s: State, id: TurnId)
    requires id in s.turns
    ensures GoesOn(s, MaybeEmitTurn(s, id), id, s.turns[id])
  {
    EmissionOf(s, id);
    var out := MaybeEmitTurn(s, id).out;
    if out != [] {
      OnlyOne(out, id, s.turns[id]);
    }
  }

  lemma AboutGoesOn(front: seq<Fact>, f: Fact, id: TurnId)
    requires IsAbout(f, id)
    ensures var s := Run(EMPTY, front).state; GoesOn(s, Step(s, f), id, TakenIn(front, f, id))
  {
    var s := Run(EMPTY, front).state;
    var s1 := WithTurn(s, id, Filled(TurnOf(s, id), f.turnFact));
    EmissionGoesOn(s1, id);
    assert Step(s, f) == FillTurn(s, f.turnFact);
  }

  lemma StartGoesOn(front: seq<Fact>, f: Fact, id: TurnId)
    requires StartsTurn(front, f, id)
    ensures var s := Run(EMPTY, front).state; GoesOn(s, Step(s, f), id, TakenIn(front, f, id))
  {
    var s := Run(EMPTY, front).state;
    PendingRequestsFollowTheFacts(front, f.connection, f.request);
    ReplyIsStarted(s, f.connection, f.request, id);
    EmissionGoesOn(Started(s, f.connection, f.request, id), id);
    assert Step(s, f) == ReplyTurnStart(s, f.connection, f.request, id);
  }

  lemma OthersGoOn(front: seq<Fact>, f: Fact, id: TurnId)
    requires !Touches(front, f, id)
    ensures var s := Run(EMPTY, front).state; TurnEvents(Step(s, f).out, id) == 0 && GoesOn(s, Step(s, f), id, TakenIn(front, f, id))
  {
    var s := Run(EMPTY, front).state;
    if f.OfTurn? {
      OtherTurnFact(s, f.turnFact, id);
    } else if f.TurnStartResponse? {
      PendingRequestsFollowTheFacts(front, f.connection, f.request);
      if IsMatched(s, f.connection, f.request) {
        OtherTurnsReply(s, f.connection, f.request, f.turn, id);
      } else {
        UnmatchedReply(s, f.connection, f.request, f.turn, id);
      }
    } else {
      OtherFactsKeepParts(s, f, id);
    }
  }

  lemma OneFactGoesOn(front: seq<Fact>, f: Fact, id: TurnId)
    ensures var s := Run(EMPTY, front).state; GoesOn(s, Step(s, f), id, TakenIn(front, f, id))
  {
    if IsAbout(f, id) {
      AboutGoesOn(front, f, id);
    } else if StartsTurn(front, f, id) {
      StartGoesOn(front, f, id);
    } else {
      OthersGoOn(front, f, id);
    }
  }

  // ----- Whole runs -----

  /** In every run a turn's state says what the facts say since its event was last emitted. */
  lemma {:induction false} TurnsTellTheirFacts(facts: seq<Fact>, id: TurnId)
    ensures Tells(TurnOf(Run(EMPTY, facts).state, id), ToldBy(facts, id))
  {
    if facts != [] {
      var front, f := facts[..|facts| - 1], facts[|facts| - 1];
      TurnsTellTheirFacts(front, id);
      TakenInTells(front, f, id);
      OneFactGoesOn(front, f, id);
      if !EmittedBy(front, f, id) {
        CountersTellNothing(TakenIn(front, f, id), TurnOf(Run(EMPTY, facts).state, id), ToldBy(facts, id));
      }
    }
  }

  predicate PayloadTells(p: TurnPayload, told: Told) {
    && SaysConfig(Some(p.config), told.config) && SaysProfile(Some(p.profile), told.profile)
    && SaysCompleted(Some(p.completed), told.completed) && SaysStarted(p.startedAt, told.started)
    && SaysTokens(p.tokens, told.tokens) && SaysError(p.codexError, told.error)
    && SaysImages(Some(p.images), told.input) && told.naming.Some? && SaysThread(Some(p.thread), told.naming)
  }

  lemma {:induction false} HasTurnEvent(out: seq<TrackEvent>, e: TrackEvent)
    requires e in out && e.TurnEvent?
    ensures TurnEvents(out, e.turn) > 0
  {
    SomeTurnEvent(out, e.turn, e);
  }

  lemma EmissionTells(out: seq<TrackEvent>, id: TurnId, turn: TurnState, told: Told, e: TrackEvent)
    requires EmitsTurn(out, id, turn) && Tells(turn, told) && e in out && e.TurnEvent?
    ensures PayloadTells(e.payload, told)
  {
    assert e == out[0];
  }

  /** In every run a turn event says, field by field, what the latest facts about the turn said up to
      the one that caused it: its config, profile and completion, its start time, tokens and error,
      the images and the thread of the config or of the matched start request. */
  lemma TurnEventTellsItsFacts(facts: seq<Fact>, f: Fact, e: TrackEvent)
    requires e in Step(Run(EMPTY, facts).state, f).out && e.TurnEvent?
    ensures PayloadTells(e.payload, ToldNext(ToldBy(facts, e.turn), facts, f, e.turn))
  {
    var out := Step(Run(EMPTY, facts).state, f).out;
    HasTurnEvent(out, e);
    TurnsTellTheirFacts(facts, e.turn);
    TakenInTells(facts, f, e.turn);
    OneFactGoesOn(facts, f, e.turn);
    EmissionTells(out, e.turn, TakenIn(facts, f, e.turn), ToldNext(ToldBy(facts, e.turn), facts, f, e.turn), e);
  }

  // ----- Accepted lines -----

  predicate IsAcceptedLines(e: TrackEvent, id: TurnId, thread: ThreadId, summary: DiffScanner.Summary) {
    e == AcceptedLines(id, thread, summary.added, summary.deleted)
  }

  lemma LinesOfDiff(id: TurnId, turn: TurnState, told: Told, alphanumeric: char -> bool)
    requires Populated(turn) && Tells(turn, told)
    ensures var lines := AcceptedLinesOf(id, turn);
            if told.diff.None? then lines == []
            else
              var summary := DiffScanner.Scan(told.diff.value.fact.turnFact.diff, alphanumeric);
              if summary.added == 0 && summary.deleted == 0 then lines == []
              else |lines| == 1 && IsAcceptedLines(lines[0], id, turn.thread.value, summary)
  {
    if told.diff.Some? {
      DiffScanner.TotalsIgnoreTheAlphabet(DiffScanner.START, DiffScanner.Lines(turn.latestDiff.value), c => false, alphanumeric);
    }
  }

  /** With a turn's event goes one event with the totals of its latest diff, as the scanner reads
      them, if and only if there is a diff and they are not both zero. */
  lemma AcceptedLinesGoWithTheTurn(facts: seq<Fact>, f: Fact, id: TurnId, alphanumeric: char -> bool)
    requires EmittedBy(facts, f, id)
    ensures var out := Step(Run(EMPTY, facts).state, f).out;
            var told := ToldNext(ToldBy(facts, id), facts, f, id);
            && out != [] && IsTurnEvent(out[0], id)
            && (told.diff.Some? ==> told.diff.value.fact.OfTurn? && told.diff.value.fact.turnFact.TurnDiffUpdated?)
            && if told.diff.None? then out[1..] == []
               else
                 var summary := DiffScanner.Scan(told.diff.value.fact.turnFact.diff, alphanumeric);
                 if summary.added == 0 && summary.deleted == 0 then out[1..] == []
                 else |out| == 2 && IsAcceptedLines(out[1], id, out[0].payload.thread, summary)
  {
    var turn := TakenIn(facts, f, id);
    TurnsTellTheirFacts(facts, id);
    TakenInTells(facts, f, id);
    OneFactGoesOn(facts, f, id);
    LinesOfDiff(id, turn, ToldNext(ToldBy(facts, id), facts, f, id), alphanumeric);
    var out := Step(Run(EMPTY, facts).state, f).out;
    assert out[1..] == AcceptedLinesOf(id, turn);
  }
}
