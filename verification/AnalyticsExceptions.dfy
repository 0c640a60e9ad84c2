/** Runs of the reducer that show its exceptions to be real. */
module AnalyticsExceptions {
  import opened Common
  import opened AnalyticsModel
  import opened AnalyticsContext
  import opened AnalyticsTurns
  import opened AnalyticsConfluence

  // ----- A turn that is not reported -----

  /** A state in which a turn has all its parts and its thread has a context, but the turn's own
      connection is not registered. */
  predicate Stuck(s: State, id: TurnId, thread: ThreadId) {
    && ThreadContext(s, thread).Some? && id in s.turns && Populated(s.turns[id])
    && s.turns[id].thread == Some(thread) && !OwnConnectionKnown(s, id)
  }

  /** A started turn of a thread with a context, on a connection that is not registered. */
  predicate StartsStuck(s: State, id: TurnId, thread: ThreadId) {
    && ThreadContext(s, thread).Some? && id in s.turns && !OwnConnectionKnown(s, id)
    && s.turns[id].config.None? && s.turns[id].profile.None? && s.turns[id].completed.None?
  }

  lemma OneMore(facts: seq<Fact>, f: Fact, id: TurnId)
    ensures var before := Run(EMPTY, facts);
            && Run(EMPTY, facts + [f]).state == Step(before.state, f).state
            && TurnEvents(Run(EMPTY, facts + [f]).out, id) == TurnEvents(before.out, id) + TurnEvents(Step(before.state, f).out, id)
  {
    RunAppend(EMPTY, facts, f);
    TurnEventsConcat(Run(EMPTY, facts).out, Step(Run(EMPTY, facts).state, f).out, id);
  }

  function OpeningFacts(thread: ThreadId, id: TurnId, request: RequestId, client: Client, metadata: ThreadMetadata): seq<Fact> {
    [Initialize(0, client, "")] + [ThreadResponse(0, thread, metadata, None)]
    + [TurnStartRequest(1, request, thread, 0)] + [TurnStartResponse(1, request, id)]
  }

  function ClosingFacts(thread: ThreadId, id: TurnId, settings: string, profile: string): seq<Fact> {
    [OfTurn(TurnResolvedConfig(ResolvedConfig(id, thread, 0, settings)))] + [OfTurn(TurnProfile(id, profile))]
    + [OfTurn(TurnCompleted(id, TurnDone, None, None, None))]
  }

  lemma TwoMore(facts: seq<Fact>, f: Fact, g: Fact, id: TurnId)
    ensures var s := Run(EMPTY, facts).state;
            var s1 := Step(s, f).state;
            && Run(EMPTY, facts + [f] + [g]).state == Step(s1, g).state
            && TurnEvents(Run(EMPTY, facts + [f] + [g]).out, id) ==
               TurnEvents(Run(EMPTY, facts).out, id) + TurnEvents(Step(s, f).out, id) + TurnEvents(Step(s1, g).out, id)
  {
    OneMore(facts, f, id);
    OneMore(facts + [f], g, id);
  }

  lemma OpenedThreadHasContext(client: Client, thread: ThreadId, metadata: ThreadMetadata, id: TurnId)
    ensures var s1 := Step(EMPTY, Initialize(0, client, "")).state;
            var r := Step(s1, ThreadResponse(0, thread, metadata, None));
            && ThreadContext(r.state, thread).Some? && 1 !in r.state.connections && id !in r.state.turns
            && TurnEvents(r.out, id) == 0
  {
    var r := Step(Step(EMPTY, Initialize(0, client, "")).state, ThreadResponse(0, thread, metadata, None));
    NoTurnEvents(r.out, id);
  }

  lemma StartOnUnknownConnection(s: State, c: ConnectionId, request: RequestId, thread: ThreadId, id: TurnId)
    requires ThreadContext(s, thread).Some? && c !in s.connections && id !in s.turns
    ensures var s1 := Step(s, TurnStartRequest(c, request, thread, 0)).state;
            var r := Step(s1, TurnStartResponse(c, request, id));
            StartsStuck(r.state, id, thread) && r.out == []
  {
    var s1 := Step(s, TurnStartRequest(c, request, thread, 0)).state;
    ReplyIsStarted(s1, c, request, id);
    assert !Populated(Started(s1, c, request, id).turns[id]);
  }

  lemma OpeningStartsStuck(thread: ThreadId, id: TurnId, request: RequestId, client: Client, metadata: ThreadMetadata)
    ensures var r := Run(EMPTY, OpeningFacts(thread, id, request, client, metadata));
            StartsStuck(r.state, id, thread) && TurnEvents(r.out, id) == 0
  {
    var f1, f2 := Initialize(0, client, ""), ThreadResponse(0, thread, metadata, None);
    TwoMore([], f1, f2, id);
    assert [] + [f1] + [f2] == [f1] + [f2];
    assert Run(EMPTY, []) == Result(EMPTY, []);
    OpenedThreadHasContext(client, thread, metadata, id);
    TwoMore([f1] + [f2], TurnStartRequest(1, request, thread, 0), TurnStartResponse(1, request, id), id);
    StartOnUnknownConnection(Run(EMPTY, [f1] + [f2]).state, 1, request, thread, id);
  }

  /** A part given to such a turn is kept, and nothing is emitted. */
  lemma StuckKeepsParts(s: State, id: TurnId, thread: ThreadId, t: TurnFact)
    requires ThreadContext(s, thread).Some? && id in s.turns && !OwnConnectionKnown(s, id) && TurnNamed(t) == id
    ensures var r := Step(s, OfTurn(t));
            && r.out == [] && r.state == WithTurn(s, id, Filled(s.turns[id], t))
            && ThreadContext(r.state, thread).Some? && !OwnConnectionKnown(r.state, id)
  {
    assert Step(s, OfTurn(t)) == FillTurn(s, t);
  }

  lemma FilledThrice(turn: TurnState, t5: TurnFact, t6: TurnFact, t7: TurnFact, thread: ThreadId)
    requires t5.TurnResolvedConfig? && t5.config.thread == thread && t6.TurnProfile? && t7.TurnCompleted?
    ensures var filled := Filled(Filled(Filled(turn, t5), t6), t7);
            Populated(filled) && filled.thread == Some(thread)
  {
  }

  lemma ThreePartsStayStuck(s: State, t5: TurnFact, t6: TurnFact, t7: TurnFact, id: TurnId, thread: ThreadId)
    requires StartsStuck(s, id, thread) && TurnNamed(t5) == TurnNamed(t6) == TurnNamed(t7) == id
    requires t5.TurnResolvedConfig? && t5.config.thread == thread && t6.TurnProfile? && t7.TurnCompleted?
    ensures GoesQuietly(s, OfTurn(t5), OfTurn(t6), OfTurn(t7), id, thread)
  {
    StuckKeepsParts(s, id, thread, t5);
    var s5 := Step(s, OfTurn(t5)).state;
    StuckKeepsParts(s5, id, thread, t6);
    var s6 := Step(s5, OfTurn(t6)).state;
    StuckKeepsParts(s6, id, thread, t7);
    FilledThrice(s.turns[id], t5, t6, t7, thread);
    assert Step(s6, OfTurn(t7)).state.turns[id] == Filled(Filled(Filled(s.turns[id], t5), t6), t7);
  }

  /** Three facts that emit nothing and leave the turn stuck. */
  predicate GoesQuietly(s: State, f: Fact, g: Fact, h: Fact, id: TurnId, thread: ThreadId) {
    var r5 := Step(s, f);
    var r6 := Step(r5.state, g);
    var r7 := Step(r6.state, h);
    r5.out == [] && r6.out == [] && r7.out == [] && Stuck(r7.state, id, thread)
  }

  lemma ThreeMore(facts: seq<Fact>, f: Fact, g: Fact, h: Fact, id: TurnId, thread: ThreadId)
    requires GoesQuietly(Run(EMPTY, facts).state, f, g, h, id, thread)
    ensures var r := Run(EMPTY, facts + ([f] + [g] + [h]));
            Stuck(r.state, id, thread) && TurnEvents(r.out, id) == TurnEvents(Run(EMPTY, facts).out, id)
  {
    TwoMore(facts, f, g, id);
    OneMore(facts + [f] + [g], h, id);
    assert facts + [f] + [g] + [h] == facts + ([f] + [g] + [h]);
  }

  lemma ClosingStaysStuck(front: seq<Fact>, thread: ThreadId, id: TurnId, settings: string, profile: string)
    requires StartsStuck(Run(EMPTY, front).state, id, thread)
    ensures var r := Run(EMPTY, front + ClosingFacts(thread, id, settings, profile));
            Stuck(r.state, id, thread) && TurnEvents(r.out, id) == TurnEvents(Run(EMPTY, front).out, id)
  {
    var t5, t6 := TurnResolvedConfig(ResolvedConfig(id, thread, 0, settings)), TurnProfile(id, profile);
    var t7 := TurnCompleted(id, TurnDone, None, None, None);
    ThreePartsStayStuck(Run(EMPTY, front).state, t5, t6, t7, id, thread);
    ThreeMore(front, OfTurn(t5), OfTurn(t6), OfTurn(t7), id, thread);
  }

  /** Such states are reachable: the thread is opened on connection 0, the turn is started on
      connection 1, which was never initialized, and its config, profile and completion follow.
      No turn event is emitted. */
  lemma TurnCanBeStuck(thread: ThreadId, id: TurnId, request: RequestId, client: Client, metadata: ThreadMetadata,
                       settings: string, profile: string)
    ensures var r := Run(EMPTY, OpeningFacts(thread, id, request, client, metadata) + ClosingFacts(thread, id, settings, profile));
            Stuck(r.state, id, thread) && TurnEvents(r.out, id) == 0
  {
    OpeningStartsStuck(thread, id, request, client, metadata);
    ClosingStaysStuck(OpeningFacts(thread, id, request, client, metadata), thread, id, settings, profile);
  }

  // ----- A spawned thread without a context -----

  /** A thread spawned before its parent is opened stays without a context, although the parent
      has one. */
  lemma SpawnedTooEarly(parent: ThreadId, child: ThreadId, client: Client, metadata: ThreadMetadata, product: string, source: string)
    requires parent != child
    ensures var facts := [Initialize(0, client, ""), SubAgentThreadStarted(child, Some(parent), "", product, source),
                          ThreadResponse(0, parent, metadata, None)];
            var s := Run(EMPTY, facts).state;
            ThreadContext(s, parent).Some? && ThreadContext(s, child).None?
  {
    var f1, f2 := Initialize(0, client, ""), SubAgentThreadStarted(child, Some(parent), "", product, source);
    var f3 := ThreadResponse(0, parent, metadata, None);
    var facts := [f1, f2, f3];
    assert facts[..2] == [f1, f2] && [f1, f2][..1] == [f1] && [f1][..0] == [];
    assert LastInitialize([f1], 0).Some? && LastInitialize([f1, f2], 0).Some?;
    ThreadHasContextExactlyWhen(facts, parent);
    assert ConnectedBy(facts[..2], facts[2], parent);
    ConnectedHasConnection(facts, child);
    assert ConnectionFrom([f1], child).None? && ConnectionFrom([f1], parent).None?;
    assert ConnectionFrom([f1, f2], child).None?;
    ThreadHasContextExactlyWhen(facts, child);
  }
}
