/** When a turn is reported: any order of its three parts, among any other facts, gives one turn
    event that says what they said, as soon as its connection is registered. */
module AnalyticsConfluence {
  import opened Common
  import opened AnalyticsModel
  import opened AnalyticsContext
  import opened AnalyticsTurns

  datatype Parts = Parts(config: Option<ResolvedConfig>, profile: Option<string>, completed: Option<Completion>)

  function PartsOf(s: State, id: TurnId): Parts {
    Parts(TurnOf(s, id).config, TurnOf(s, id).profile, TurnOf(s, id).completed)
  }

  predicate Complete(p: Parts) {
    p.config.Some? && p.profile.Some? && p.completed.Some?
  }

  /** What a fact adds to the parts of a turn. */
  function Absorb(p: Parts, f: Fact, id: TurnId): Parts {
    if !f.OfTurn? || TurnNamed(f.turnFact) != id then p
    else match f.turnFact
      case TurnResolvedConfig(config) => p.(config := Some(config))
      case TurnProfile(_, profile) => p.(profile := Some(profile))
      case TurnCompleted(_, status, error, at, ms) => p.(completed := Some(CompletionOf(status, error, at, ms)))
      case _ => p
  }

  function AbsorbAll(facts: seq<Fact>, id: TurnId): Parts {
    if facts == [] then Parts(None, None, None)
    else Absorb(AbsorbAll(facts[..|facts| - 1], id), facts[|facts| - 1], id)
  }

  /** The thread is known and connected. */
  predicate ThreadReady(s: State, thread: ThreadId) {
    ContextInv(s) && thread in s.threads && s.threads[thread].connection.Some?
  }

  /** A fact about the turn names its thread.  Facts about other turns, and all other facts, are
      unrestricted. */
  predicate Friendly(s: State, f: Fact, id: TurnId, thread: ThreadId) {
    match f
    case OfTurn(t) =>
      TurnNamed(t) == id ==>
        (match t
         case TurnResolvedConfig(config) => config.thread == thread
         case TurnTokenUsage(_, named, _) => named == thread
         case TurnDiffUpdated(named, _, _) => named == thread
         case TurnCodexError(_, named, _) => named == thread
         case _ => true)
    case TurnStartResponse(c, request, turn) =>
      turn == id && IsMatched(s, c, request) ==> s.requests[(c, request)].thread == thread
    case _ => true
  }

  predicate IsMatched(s: State, c: ConnectionId, request: RequestId) {
    (c, request) in s.requests && s.requests[(c, request)].PendingTurnStart?
  }

  predicate FriendlyRun(s: State, facts: seq<Fact>, id: TurnId, thread: ThreadId) {
    forall n :: 0 <= n < |facts| ==> Friendly(Run(s, facts[..n]).state, facts[n], id, thread)
  }

  /** What is known of a turn that has not been emitted yet. */
  predicate OnTrack(s: State, id: TurnId, thread: ThreadId) {
    var turn := TurnOf(s, id);
    && (turn.thread.Some? ==> turn.thread.value == thread)
    && (turn.config.Some? ==> turn.thread.Some? && turn.images.Some?)
  }

  /** The turn has no connection of its own, or one that is registered. */
  predicate OwnConnectionKnown(s: State, id: TurnId) {
    TurnOf(s, id).connection.Some? ==> TurnOf(s, id).connection.value in s.connections
  }

  lemma StepKeepsReady(s: State, f: Fact, thread: ThreadId)
    requires ThreadReady(s, thread)
    ensures ThreadReady(Step(s, f).state, thread)
  {
    StepContextInv(s, f);
    StepKeepsThreads(s, f, thread);
  }

  /** A fact at which the turn is emitted if it is complete: one that tries to emit it, when the
      turn's own connection, if it has one, is registered.  A start reply gives it one. */
  predicate Reports(s: State, f: Fact, id: TurnId) {
    match f
    case OfTurn(t) =>
      && TurnNamed(t) == id && OwnConnectionKnown(s, id)
      && (t.TurnResolvedConfig? || t.TurnProfile? || t.TurnCompleted? || t.TurnTokenUsage?)
    case TurnStartResponse(c, request, turn) => turn == id && IsMatched(s, c, request) && c in s.connections
    case _ => false
  }

  /** The turn event made of the three parts. */
  predicate SaysParts(out: seq<TrackEvent>, id: TurnId, thread: ThreadId, p: Parts)
    requires Complete(p)
  {
    && out != [] && IsTurnEvent(out[0], id)
    && out[0].payload.thread == thread
    && out[0].payload.config == p.config.value
    && out[0].payload.profile == p.profile.value
    && out[0].payload.completed == p.completed.value
  }

  /** A complete turn of a connected thread is emitted exactly when its own connection is known. */
  lemma ReadyTurnIsEmitted(s: State, id: TurnId, thread: ThreadId)
    requires ThreadReady(s, thread) && OnTrack(s, id, thread) && Complete(PartsOf(s, id))
    ensures var out := MaybeEmitTurn(s, id).out;
            if OwnConnectionKnown(s, id) then SaysParts(out, id, thread, PartsOf(s, id)) && TurnEvents(out, id) == 1
            else out == []
  {
    assert ThreadOk(s, s.threads[thread]);
    if OwnConnectionKnown(s, id) {
      FirstIsTheTurnEvent(MaybeEmitTurn(s, id).out, id);
    }
  }

  lemma FilledIsReady(s: State, t: TurnFact, id: TurnId, thread: ThreadId)
    requires ThreadReady(s, thread) && OnTrack(s, id, thread) && Friendly(s, OfTurn(t), id, thread) && TurnNamed(t) == id
    ensures var s1 := WithTurn(s, id, Filled(TurnOf(s, id), t));
            && PartsOf(s1, id) == Absorb(PartsOf(s, id), OfTurn(t), id)
            && ThreadReady(s1, thread) && OnTrack(s1, id, thread)
            && (OwnConnectionKnown(s1, id) <==> OwnConnectionKnown(s, id))
  {
    var s1 := WithTurn(s, id, Filled(TurnOf(s, id), t));
    forall k | k in s1.threads ensures ThreadOk(s1, s1.threads[k]) {
      assert ThreadOk(s, s.threads[k]);
    }
  }

  /** What one fact does to a turn: it is emitted with these parts, or it has them and waits. */
  predicate Proceeds(s: State, f: Fact, r: Result, id: TurnId, thread: ThreadId, p: Parts) {
    if Complete(p) && Reports(s, f, id) then SaysParts(r.out, id, thread, p) && TurnEvents(r.out, id) == 1
    else PartsOf(r.state, id) == p && OnTrack(r.state, id, thread) && TurnEvents(r.out, id) == 0
  }

  lemma IncompleteIsNotEmitted(s: State, id: TurnId)
    requires !Complete(PartsOf(s, id))
    ensures MaybeEmitTurn(s, id) == Result(s, [])
  {
  }

  lemma TurnFactProgress(s: State, t: TurnFact, id: TurnId, thread: ThreadId)
    requires ThreadReady(s, thread) && OnTrack(s, id, thread) && Friendly(s, OfTurn(t), id, thread) && TurnNamed(t) == id
    ensures Proceeds(s, OfTurn(t), FillTurn(s, t), id, thread, Absorb(PartsOf(s, id), OfTurn(t), id))
  {
    var s1 := WithTurn(s, id, Filled(TurnOf(s, id), t));
    FilledIsReady(s, t, id, thread);
    if MayCompleteTurn(t) {
      if Complete(PartsOf(s1, id)) {
        ReadyTurnIsEmitted(s1, id, thread);
        EmissionEffect(s1, id);
      } else {
        IncompleteIsNotEmitted(s1, id);
      }
    }
  }

  lemma UnmatchedReply(s: State, c: ConnectionId, request: RequestId, turn: TurnId, id: TurnId)
    requires !IsMatched(s, c, request)
    ensures var r := ReplyTurnStart(s, c, request, turn);
            TurnOf(r.state, id) == TurnOf(s, id) && TurnEvents(r.out, id) == 0
  {
    ReplyIsStarted(s, c, request, turn);
  }

  lemma OtherTurnsReply(s: State, c: ConnectionId, request: RequestId, turn: TurnId, id: TurnId)
    requires IsMatched(s, c, request) && turn != id
    ensures var r := ReplyTurnStart(s, c, request, turn);
            TurnOf(r.state, id) == TurnOf(s, id) && TurnEvents(r.out, id) == 0
  {
    var s1 := Started(s, c, request, turn);
    ReplyIsStarted(s, c, request, turn);
    EmissionEffect(s1, turn);
    NoTurnEvents(MaybeEmitTurn(s1, turn).out, id);
  }

  lemma StartedIsReady(s: State, c: ConnectionId, request: RequestId, id: TurnId, thread: ThreadId)
    requires ThreadReady(s, thread) && OnTrack(s, id, thread)
    requires IsMatched(s, c, request) && s.requests[(c, request)].thread == thread
    ensures var s1 := Started(s, c, request, id);
            && PartsOf(s1, id) == PartsOf(s, id) && ThreadReady(s1, thread) && OnTrack(s1, id, thread)
            && (OwnConnectionKnown(s1, id) <==> c in s.connections)
  {
    var s1 := Started(s, c, request, id);
    forall k | k in s1.threads ensures ThreadOk(s1, s1.threads[k]) {
      assert ThreadOk(s, s.threads[k]);
    }
  }

  lemma OwnReply(s: State, c: ConnectionId, request: RequestId, id: TurnId, thread: ThreadId)
    requires ThreadReady(s, thread) && OnTrack(s, id, thread)
    requires IsMatched(s, c, request) && s.requests[(c, request)].thread == thread
    ensures Proceeds(s, TurnStartResponse(c, request, id), ReplyTurnStart(s, c, request, id), id, thread, PartsOf(s, id))
  {
    var s1 := Started(s, c, request, id);
    ReplyIsStarted(s, c, request, id);
    StartedIsReady(s, c, request, id, thread);
    if Complete(PartsOf(s1, id)) {
      ReadyTurnIsEmitted(s1, id, thread);
      EmissionEffect(s1, id);
    } else {
      IncompleteIsNotEmitted(s1, id);
    }
  }

  lemma ReplyProgress(s: State, c: ConnectionId, request: RequestId, turn: TurnId, id: TurnId, thread: ThreadId)
    requires ThreadReady(s, thread) && OnTrack(s, id, thread)
    requires Friendly(s, TurnStartResponse(c, request, turn), id, thread)
    ensures Proceeds(s, TurnStartResponse(c, request, turn), ReplyTurnStart(s, c, request, turn), id, thread, PartsOf(s, id))
  {
    if !IsMatched(s, c, request) {
      UnmatchedReply(s, c, request, turn, id);
    } else if turn != id {
      OtherTurnsReply(s, c, request, turn, id);
    } else {
      OwnReply(s, c, request, id, thread);
    }
  }

  lemma OtherTurnFact(s: State, t: TurnFact, id: TurnId)
    requires TurnNamed(t) != id
    ensures TurnOf(FillTurn(s, t).state, id) == TurnOf(s, id)
    ensures TurnEvents(FillTurn(s, t).out, id) == 0
  {
    NoTurnEvents(FillTurn(s, t).out, id);
  }

  /** One step of a turn of a connected thread that has not been emitted: the fact is absorbed, and
      the turn event is emitted there and then exactly when all parts are there and the fact
      reports the turn. */
  lemma Progress(s: State, f: Fact, id: TurnId, thread: ThreadId)
    requires ThreadReady(s, thread) && OnTrack(s, id, thread) && Friendly(s, f, id, thread)
    ensures Proceeds(s, f, Step(s, f), id, thread, Absorb(PartsOf(s, id), f, id))
  {
    if f.OfTurn? {
      if TurnNamed(f.turnFact) == id {
        TurnFactProgress(s, f.turnFact, id, thread);
      } else {
        OtherTurnFact(s, f.turnFact, id);
      }
    } else if f.TurnStartResponse? {
      ReplyProgress(s, f.connection, f.request, f.turn, id, thread);
    } else {
      OtherProgress(s, f, id, thread);
    }
  }

  lemma OtherProgress(s: State, f: Fact, id: TurnId, thread: ThreadId)
    requires !f.OfTurn? && !f.TurnStartResponse? && OnTrack(s, id, thread)
    ensures PartsOf(Step(s, f).state, id) == PartsOf(s, id) && OnTrack(Step(s, f).state, id, thread)
    ensures TurnEvents(Step(s, f).out, id) == 0
  {
    StepFrame(s, f);
    OtherFactsKeepParts(s, f, id);
  }

  /** A run and what it adds to the turn, one fact further. */
  lemma OneFactFurther(s: State, facts: seq<Fact>, id: TurnId, n: nat)
    requires 0 < n <= |facts|
    ensures var before, last := Run(s, facts[..n - 1]), Step(Run(s, facts[..n - 1]).state, facts[n - 1]);
            && Run(s, facts[..n]).state == last.state
            && TurnEvents(Run(s, facts[..n]).out, id) == TurnEvents(before.out, id) + TurnEvents(last.out, id)
    ensures AbsorbAll(facts[..n], id) == Absorb(AbsorbAll(facts[..n - 1], id), facts[n - 1], id)
  {
    var front, f := facts[..n - 1], facts[n - 1];
    assert facts[..n] == front + [f];
    AppendThenTake(front, f);
    RunAppend(s, front, f);
    TurnEventsConcat(Run(s, front).out, Step(Run(s, front).state, f).out, id);
  }

  /** The turn has taken in all its facts so far and has not been emitted. */
  predicate OnCourse(r: Result, facts: seq<Fact>, id: TurnId, thread: ThreadId) {
    && ThreadReady(r.state, thread) && OnTrack(r.state, id, thread)
    && PartsOf(r.state, id) == AbsorbAll(facts, id) && TurnEvents(r.out, id) == 0
  }

  /** The turn is complete with the fact at position m, which reports it. */
  predicate ReportsAt(s: State, facts: seq<Fact>, id: TurnId, m: nat)
    requires m < |facts|
  {
    Complete(AbsorbAll(facts[..m + 1], id)) && Reports(Run(s, facts[..m]).state, facts[m], id)
  }

  lemma StaysOnCourse(before: Result, front: seq<Fact>, f: Fact, after: Result, facts: seq<Fact>, id: TurnId, thread: ThreadId)
    requires OnCourse(before, front, id, thread) && Friendly(before.state, f, id, thread)
    requires AbsorbAll(facts, id) == Absorb(AbsorbAll(front, id), f, id)
    requires !(Complete(AbsorbAll(facts, id)) && Reports(before.state, f, id))
    requires after.state == Step(before.state, f).state
    requires TurnEvents(after.out, id) == TurnEvents(before.out, id) + TurnEvents(Step(before.state, f).out, id)
    ensures OnCourse(after, facts, id, thread)
  {
    Progress(before.state, f, id, thread);
    StepKeepsReady(before.state, f, thread);
  }

  lemma {:induction false} ProgressRun(s: State, facts: seq<Fact>, id: TurnId, thread: ThreadId, n: nat)
    requires ThreadReady(s, thread) && id !in s.turns && FriendlyRun(s, facts, id, thread)
    requires n <= |facts| && forall m :: 0 <= m < n ==> !ReportsAt(s, facts, id, m)
    ensures OnCourse(Run(s, facts[..n]), facts[..n], id, thread)
    decreases n
  {
    if n > 0 {
      ProgressRun(s, facts, id, thread, n - 1);
      assert !ReportsAt(s, facts, id, n - 1);
      OneFactFurther(s, facts, id, n);
      StaysOnCourse(Run(s, facts[..n - 1]), facts[..n - 1], facts[n - 1], Run(s, facts[..n]), facts[..n], id, thread);
    }
  }

  /** At the first position that reports the turn it is emitted, for the first time. */
  lemma FirstReport(s: State, facts: seq<Fact>, id: TurnId, thread: ThreadId, n: nat)
    requires ThreadReady(s, thread) && id !in s.turns && FriendlyRun(s, facts, id, thread)
    requires n < |facts| && ReportsAt(s, facts, id, n) && forall m :: 0 <= m < n ==> !ReportsAt(s, facts, id, m)
    ensures var before := Run(s, facts[..n]);
            var out := Step(before.state, facts[n]).out;
            && TurnEvents(before.out, id) == 0 && TurnEvents(out, id) == 1
            && SaysParts(out, id, thread, AbsorbAll(facts[..n + 1], id))
  {
    ProgressRun(s, facts, id, thread, n);
    var before := Run(s, facts[..n]).state;
    assert Friendly(before, facts[n], id, thread);
    OneFactFurther(s, facts, id, n + 1);
    Progress(before, facts[n], id, thread);
  }

  lemma {:induction false} LeastReport(s: State, facts: seq<Fact>, id: TurnId, m: nat) returns (n: nat)
    requires m < |facts| && ReportsAt(s, facts, id, m)
    ensures n <= m && ReportsAt(s, facts, id, n) && forall k :: 0 <= k < n ==> !ReportsAt(s, facts, id, k)
    decreases m
  {
    if k :| 0 <= k < m && ReportsAt(s, facts, id, k) {
      n := LeastReport(s, facts, id, k);
    } else {
      n := m;
    }
  }

  /** The only facts that supply the three parts of the turn are at positions i, j and k. */
  predicate OnlySuppliers(facts: seq<Fact>, id: TurnId, i: nat, j: nat, k: nat) {
    && i < |facts| && j < |facts| && k < |facts|
    && (forall n :: 0 <= n < |facts| ==> (Supplies(facts[n], id, ConfigPart) <==> n == i))
    && (forall n :: 0 <= n < |facts| ==> (Supplies(facts[n], id, ProfilePart) <==> n == j))
    && (forall n :: 0 <= n < |facts| ==> (Supplies(facts[n], id, CompletedPart) <==> n == k))
  }

  function Max3(i: nat, j: nat, k: nat): nat {
    if i >= j && i >= k then i else if j >= k then j else k
  }

  /** The parts the three facts carry. */
  function PartsAt(facts: seq<Fact>, id: TurnId, i: nat, j: nat, k: nat): Parts
    requires OnlySuppliers(facts, id, i, j, k)
  {
    var c := facts[k].turnFact;
    Parts(Some(facts[i].turnFact.config), Some(facts[j].turnFact.profile),
          Some(CompletionOf(c.status, c.error, c.completedAt, c.durationMs)))
  }

  lemma {:induction false} AbsorbedSoFar(facts: seq<Fact>, id: TurnId, i: nat, j: nat, k: nat, n: nat)
    requires OnlySuppliers(facts, id, i, j, k) && n <= |facts|
    ensures var p, all := AbsorbAll(facts[..n], id), PartsAt(facts, id, i, j, k);
            && p.config == (if i < n then all.config else None)
            && p.profile == (if j < n then all.profile else None)
            && p.completed == (if k < n then all.completed else None)
    decreases n
  {
    if n > 0 {
      assert facts[..n] == facts[..n - 1] + [facts[n - 1]];
      AppendThenTake(facts[..n - 1], facts[n - 1]);
      AbsorbedSoFar(facts, id, i, j, k, n - 1);
      var f := facts[n - 1];
      assert Supplies(f, id, ConfigPart) <==> n - 1 == i;
      assert Supplies(f, id, ProfilePart) <==> n - 1 == j;
      assert Supplies(f, id, CompletedPart) <==> n - 1 == k;
    }
  }

  lemma {:induction false} SuppliedOnce(facts: seq<Fact>, id: TurnId, part: Part, i: nat)
    requires forall n :: 0 <= n < |facts| ==> (Supplies(facts[n], id, part) <==> n == i)
    ensures Supplied(facts, id, part) == if i < |facts| then 1 else 0
  {
    if facts != [] {
      SuppliedOnce(facts[..|facts| - 1], id, part, i);
      assert Supplies(facts[|facts| - 1], id, part) <==> |facts| - 1 == i;
    }
  }

  lemma {:induction false} TurnEventsGrow(s: State, facts: seq<Fact>, id: TurnId, n: nat)
    requires n <= |facts|
    ensures TurnEvents(Run(s, facts[..n]).out, id) <= TurnEvents(Run(s, facts).out, id)
    decreases |facts|
  {
    if n == |facts| {
      assert facts[..n] == facts;
    } else {
      var front, f := facts[..|facts| - 1], facts[|facts| - 1];
      assert front[..n] == facts[..n];
      TurnEventsGrow(s, front, id, n);
      TurnEventsConcat(Run(s, front).out, Step(Run(s, front).state, f).out, id);
    }
  }

  /** All parts are there from the last of the three facts on. */
  lemma CompleteFromLast(facts: seq<Fact>, id: TurnId, i: nat, j: nat, k: nat, m: nat)
    requires OnlySuppliers(facts, id, i, j, k) && m < |facts|
    ensures Complete(AbsorbAll(facts[..m + 1], id)) <==> Max3(i, j, k) <= m
    ensures Max3(i, j, k) <= m ==> AbsorbAll(facts[..m + 1], id) == PartsAt(facts, id, i, j, k)
  {
    AbsorbedSoFar(facts, id, i, j, k, m + 1);
  }

  lemma EmittedStaysEmitted(s: State, facts: seq<Fact>, id: TurnId, n: nat)
    requires n < |facts|
    ensures TurnEvents(Run(s, facts).out, id) >= TurnEvents(Step(Run(s, facts[..n]).state, facts[n]).out, id)
  {
    var before := Run(s, facts[..n]);
    assert facts[..n + 1] == facts[..n] + [facts[n]];
    RunAppend(s, facts[..n], facts[n]);
    TurnEventsConcat(before.out, Step(before.state, facts[n]).out, id);
    TurnEventsGrow(s, facts, id, n + 1);
  }

  lemma SuppliedOnceEmittedOnce(s: State, facts: seq<Fact>, id: TurnId, part: Part, i: nat)
    requires id !in s.turns && forall n :: 0 <= n < |facts| ==> (Supplies(facts[n], id, part) <==> n == i)
    ensures TurnEvents(Run(s, facts).out, id) <= 1
  {
    RunBound(s, facts, id, part);
    SuppliedOnce(facts, id, part, i);
  }

  /** The fact at position n reports the turn. */
  predicate ReportedAt(s: State, facts: seq<Fact>, id: TurnId, n: nat)
    requires n < |facts|
  {
    Reports(Run(s, facts[..n]).state, facts[n], id)
  }

  /** A position from the last of the three on at which the turn is reported, the first of those. */
  predicate IsFirstReport(s: State, facts: seq<Fact>, id: TurnId, last: nat, n: nat) {
    && last <= n < |facts| && ReportedAt(s, facts, id, n)
    && forall m :: last <= m < n ==> !ReportedAt(s, facts, id, m)
  }

  lemma ReportsFromLast(s: State, facts: seq<Fact>, id: TurnId, i: nat, j: nat, k: nat, n: nat)
    requires OnlySuppliers(facts, id, i, j, k) && n < |facts|
    ensures ReportsAt(s, facts, id, n) <==> Max3(i, j, k) <= n && ReportedAt(s, facts, id, n)
  {
    CompleteFromLast(facts, id, i, j, k, n);
  }

  lemma FirstIsLeast(s: State, facts: seq<Fact>, id: TurnId, i: nat, j: nat, k: nat, n: nat)
    requires OnlySuppliers(facts, id, i, j, k) && n < |facts|
    ensures IsFirstReport(s, facts, id, Max3(i, j, k), n) <==>
            ReportsAt(s, facts, id, n) && forall m :: 0 <= m < n ==> !ReportsAt(s, facts, id, m)
  {
    forall m | 0 <= m <= n ensures ReportsAt(s, facts, id, m) <==> Max3(i, j, k) <= m && ReportedAt(s, facts, id, m) {
      ReportsFromLast(s, facts, id, i, j, k, m);
    }
  }

  lemma EmittedAtFirstReport(s: State, facts: seq<Fact>, id: TurnId, thread: ThreadId, i: nat, j: nat, k: nat, n: nat)
    requires ThreadReady(s, thread) && id !in s.turns
    requires FriendlyRun(s, facts, id, thread) && OnlySuppliers(facts, id, i, j, k)
    requires IsFirstReport(s, facts, id, Max3(i, j, k), n)
    ensures var before := Run(s, facts[..n]);
            && TurnEvents(before.out, id) == 0 && TurnEvents(Run(s, facts).out, id) == 1
            && SaysParts(Step(before.state, facts[n]).out, id, thread, PartsAt(facts, id, i, j, k))
  {
    FirstIsLeast(s, facts, id, i, j, k, n);
    CompleteFromLast(facts, id, i, j, k, n);
    FirstReport(s, facts, id, thread, n);
    EmittedStaysEmitted(s, facts, id, n);
    SuppliedOnceEmittedOnce(s, facts, id, ConfigPart, i);
  }

  lemma NeverReportedNeverEmitted(s: State, facts: seq<Fact>, id: TurnId, thread: ThreadId, i: nat, j: nat, k: nat)
    requires ThreadReady(s, thread) && id !in s.turns
    requires FriendlyRun(s, facts, id, thread) && OnlySuppliers(facts, id, i, j, k)
    requires forall n :: Max3(i, j, k) <= n < |facts| ==> !ReportedAt(s, facts, id, n)
    ensures TurnEvents(Run(s, facts).out, id) == 0
  {
    forall n | 0 <= n < |facts| ensures !ReportsAt(s, facts, id, n) {
      ReportsFromLast(s, facts, id, i, j, k, n);
    }
    ProgressRun(s, facts, id, thread, |facts|);
    assert facts[..|facts|] == facts;
  }

  /** A fresh turn of a connected thread gets its one config, one profile and one completion at
      any positions, among any facts about other turns.  In the whole run there is one turn event
      if and only if, at the last of the three or at a later fact that tries again (a token usage,
      a start reply), the turn's own connection, if it has one, is registered; otherwise there is
      none. */
  lemma TurnEventConfluence(s: State, facts: seq<Fact>, id: TurnId, thread: ThreadId, i: nat, j: nat, k: nat)
    requires ThreadReady(s, thread) && id !in s.turns
    requires FriendlyRun(s, facts, id, thread) && OnlySuppliers(facts, id, i, j, k)
    ensures TurnEvents(Run(s, facts).out, id) ==
            if exists n :: Max3(i, j, k) <= n < |facts| && ReportedAt(s, facts, id, n) then 1 else 0
    ensures ReportedAt(s, facts, id, Max3(i, j, k)) <==> OwnConnectionKnown(Run(s, facts[..Max3(i, j, k)]).state, id)
  {
    LastReportsIfConnected(s, facts, id, i, j, k);
    if m :| Max3(i, j, k) <= m < |facts| && ReportedAt(s, facts, id, m) {
      var n := ReportedIsEmitted(s, facts, id, thread, i, j, k, m);
    } else {
      NeverReportedNeverEmitted(s, facts, id, thread, i, j, k);
    }
  }

  lemma LastReportsIfConnected(s: State, facts: seq<Fact>, id: TurnId, i: nat, j: nat, k: nat)
    requires OnlySuppliers(facts, id, i, j, k)
    ensures ReportedAt(s, facts, id, Max3(i, j, k)) <==> OwnConnectionKnown(Run(s, facts[..Max3(i, j, k)]).state, id)
  {
    LastPartTries(facts, id, i, j, k);
  }

  lemma ReportedIsEmitted(s: State, facts: seq<Fact>, id: TurnId, thread: ThreadId, i: nat, j: nat, k: nat, m: nat) returns (n: nat)
    requires ThreadReady(s, thread) && id !in s.turns
    requires FriendlyRun(s, facts, id, thread) && OnlySuppliers(facts, id, i, j, k)
    requires Max3(i, j, k) <= m < |facts| && ReportedAt(s, facts, id, m)
    ensures IsFirstReport(s, facts, id, Max3(i, j, k), n) && TurnEvents(Run(s, facts).out, id) == 1
  {
    ReportsFromLast(s, facts, id, i, j, k, m);
    n := LeastReport(s, facts, id, m);
    FirstIsLeast(s, facts, id, i, j, k, n);
    EmittedAtFirstReport(s, facts, id, thread, i, j, k, n);
  }

  lemma LastPartTries(facts: seq<Fact>, id: TurnId, i: nat, j: nat, k: nat)
    requires OnlySuppliers(facts, id, i, j, k)
    ensures var f := facts[Max3(i, j, k)];
            && f.OfTurn? && TurnNamed(f.turnFact) == id
            && (f.turnFact.TurnResolvedConfig? || f.turnFact.TurnProfile? || f.turnFact.TurnCompleted?)
  {
    assert Supplies(facts[i], id, ConfigPart) && Supplies(facts[j], id, ProfilePart) && Supplies(facts[k], id, CompletedPart);
  }

  // ----- What the event says -----

  predicate SaysTheParts(e: TrackEvent, thread: ThreadId, p: Parts)
    requires e.TurnEvent? && Complete(p)
  {
    && e.payload.thread == thread && e.payload.config == p.config.value
    && e.payload.profile == p.profile.value && e.payload.completed == p.completed.value
  }

  lemma {:induction false} OnlyTurnEvent(out: seq<TrackEvent>, id: TurnId, a: nat, b: nat)
    requires a < b < |out| && IsTurnEvent(out[a], id) && IsTurnEvent(out[b], id)
    ensures TurnEvents(out, id) >= 2
  {
    if b == |out| - 1 {
      AtLeastOne(out[..b], id, a);
    } else {
      OnlyTurnEvent(out[..|out| - 1], id, a, b);
    }
  }

  lemma {:induction false} AtLeastOne(out: seq<TrackEvent>, id: TurnId, a: nat)
    requires a < |out| && IsTurnEvent(out[a], id)
    ensures TurnEvents(out, id) >= 1
  {
    if a < |out| - 1 {
      AtLeastOne(out[..|out| - 1], id, a);
    }
  }

  lemma InConcat<T>(a: seq<T>, b: seq<T>, x: T)
    requires x in a || x in b
    ensures x in a + b
  {
  }

  lemma InLaterOutput(s: State, front: seq<Fact>, f: Fact, e: TrackEvent)
    requires e in Run(s, front).out || e in Step(Run(s, front).state, f).out
    ensures e in Run(s, front + [f]).out
  {
    RunAppend(s, front, f);
    InConcat(Run(s, front).out, Step(Run(s, front).state, f).out, e);
  }

  lemma {:induction false} OutputGrows(s: State, facts: seq<Fact>, n: nat)
    requires n <= |facts|
    ensures Run(s, facts[..n]).out <= Run(s, facts).out
    decreases |facts|
  {
    if n == |facts| {
      assert facts[..n] == facts;
    } else {
      var front := facts[..|facts| - 1];
      assert front[..n] == facts[..n];
      OutputGrows(s, front, n);
    }
  }

  lemma InPrefix<T>(a: seq<T>, b: seq<T>, x: T)
    requires a <= b && x in a
    ensures x in b
  {
  }

  lemma InGrownOutput(s: State, some: seq<Fact>, facts: seq<Fact>, e: TrackEvent)
    requires some <= facts && e in Run(s, some).out
    ensures e in Run(s, facts).out
  {
    assert facts[..|some|] == some;
    OutputGrows(s, facts, |some|);
    InPrefix(Run(s, some).out, Run(s, facts).out, e);
  }

  lemma StaysInTheOutput(s: State, front: seq<Fact>, f: Fact, facts: seq<Fact>, e: TrackEvent)
    requires front + [f] <= facts && e in Step(Run(s, front).state, f).out
    ensures e in Run(s, facts).out
  {
    InLaterOutput(s, front, f, e);
    InGrownOutput(s, front + [f], facts, e);
  }

  lemma EventOfFirstReport(s: State, facts: seq<Fact>, id: TurnId, thread: ThreadId, i: nat, j: nat, k: nat, n: nat) returns (e: TrackEvent)
    requires ThreadReady(s, thread) && id !in s.turns
    requires FriendlyRun(s, facts, id, thread) && OnlySuppliers(facts, id, i, j, k)
    requires IsFirstReport(s, facts, id, Max3(i, j, k), n)
    ensures e in Run(s, facts).out && IsTurnEvent(e, id) && SaysTheParts(e, thread, PartsAt(facts, id, i, j, k))
  {
    EmittedAtFirstReport(s, facts, id, thread, i, j, k, n);
    e := HeadSaysParts(Step(Run(s, facts[..n]).state, facts[n]).out, id, thread, PartsAt(facts, id, i, j, k));
    IsPrefix(facts, n);
    StaysInTheOutput(s, facts[..n], facts[n], facts, e);
  }

  lemma HeadSaysParts(out: seq<TrackEvent>, id: TurnId, thread: ThreadId, p: Parts) returns (e: TrackEvent)
    requires Complete(p) && SaysParts(out, id, thread, p)
    ensures e in out && IsTurnEvent(e, id) && SaysTheParts(e, thread, p)
  {
    e := out[0];
  }

  lemma IsPrefix<T>(s: seq<T>, n: nat)
    requires n < |s|
    ensures s[..n] + [s[n]] <= s
  {
  }

  /** A fresh turn of a connected thread gets its three parts at i, j and k. */
  predicate GetsItsParts(s: State, facts: seq<Fact>, id: TurnId, thread: ThreadId, i: nat, j: nat, k: nat) {
    && ThreadReady(s, thread) && id !in s.turns
    && FriendlyRun(s, facts, id, thread) && OnlySuppliers(facts, id, i, j, k)
  }

  /** Wherever it is emitted, the turn event says what the three facts said. */
  lemma TurnEventSaysItsParts(s: State, facts: seq<Fact>, id: TurnId, thread: ThreadId, i: nat, j: nat, k: nat, e: TrackEvent)
    requires GetsItsParts(s, facts, id, thread, i, j, k)
    requires e in Run(s, facts).out && IsTurnEvent(e, id)
    ensures e.payload.thread == thread && e.payload.config == facts[i].turnFact.config && e.payload.profile == facts[j].turnFact.profile
    ensures SaysCompletion(e.payload.completed, facts[k].turnFact)
  {
    SomeTurnEvent(Run(s, facts).out, id, e);
    TurnEventConfluence(s, facts, id, thread, i, j, k);
    var m :| Max3(i, j, k) <= m < |facts| && ReportedAt(s, facts, id, m);
    var n := ReportedIsEmitted(s, facts, id, thread, i, j, k, m);
    var first := EventOfFirstReport(s, facts, id, thread, i, j, k, n);
    SameTurnEvent(Run(s, facts).out, id, e, first);
    CompletionSaysItsFact(facts[k].turnFact);
    assert SaysTheParts(e, thread, PartsAt(facts, id, i, j, k));
  }

  lemma SomeTurnEvent(out: seq<TrackEvent>, id: TurnId, e: TrackEvent)
    requires e in out && IsTurnEvent(e, id)
    ensures TurnEvents(out, id) >= 1
  {
    var a :| 0 <= a < |out| && out[a] == e;
    AtLeastOne(out, id, a);
  }

  lemma SameTurnEvent(out: seq<TrackEvent>, id: TurnId, e: TrackEvent, first: TrackEvent)
    requires e in out && IsTurnEvent(e, id) && first in out && IsTurnEvent(first, id) && TurnEvents(out, id) == 1
    ensures e == first
  {
    var a :| 0 <= a < |out| && out[a] == e;
    var b :| 0 <= b < |out| && out[b] == first;
    if a < b {
      OnlyTurnEvent(out, id, a, b);
    } else if b < a {
      OnlyTurnEvent(out, id, b, a);
    }
  }

  /** Whatever the order and whatever else goes on, the same three facts give turn events with the
      same config, profile and completion. */
  lemma TurnEventIsOrderIndependent(s: State, facts: seq<Fact>, i: nat, j: nat, k: nat, e: TrackEvent,
                                    s': State, facts': seq<Fact>, i': nat, j': nat, k': nat, e': TrackEvent,
                                    id: TurnId, thread: ThreadId)
    requires GetsItsParts(s, facts, id, thread, i, j, k)
    requires GetsItsParts(s', facts', id, thread, i', j', k')
    requires facts[i] == facts'[i'] && facts[j] == facts'[j'] && facts[k] == facts'[k']
    requires e in Run(s, facts).out && IsTurnEvent(e, id) && e' in Run(s', facts').out && IsTurnEvent(e', id)
    ensures e.payload.config == e'.payload.config
    ensures e.payload.profile == e'.payload.profile
    ensures e.payload.completed == e'.payload.completed
  {
    TurnEventSaysItsParts(s, facts, id, thread, i, j, k, e);
    TurnEventSaysItsParts(s', facts', id, thread, i', j', k', e');
    SaidAlike(e.payload.completed, e'.payload.completed, facts[k].turnFact);
  }

  lemma SaidAlike(a: Completion, b: Completion, t: TurnFact)
    requires t.TurnCompleted? && SaysCompletion(a, t) && SaysCompletion(b, t)
    ensures a == b
  {
  }
}
