/** Tool items over whole runs: which are running, and exactly when one is reported. */
module AnalyticsItems {
  import opened Common
  import opened AnalyticsModel
  import opened AnalyticsContext
  import opened AnalyticsCounters

  /** The kinds of items that are reported. */
  const TOOL_KINDS: set<ItemKind> :=
    {CommandExecution, FileChange, McpToolCall, DynamicToolCall, CollabAgentToolCall, WebSearch, ImageGeneration}

  function KeyOf(f: Fact): ItemKey
    requires f.ItemStarted? || f.ItemCompleted?
  {
    ItemKey(f.thread, f.turn, f.threadItem.id)
  }

  predicate StartsItem(f: Fact, key: ItemKey) {
    f.ItemStarted? && KeyOf(f) == key && f.threadItem.kind in TOOL_KINDS && f.startedAtMs >= 0
  }

  /** The item completes in a turn that is known by then. */
  predicate EndsItem(front: seq<Fact>, f: Fact, key: ItemKey) {
    f.ItemCompleted? && KeyOf(f) == key && f.threadItem.kind in TOOL_KINDS && Known(front, f.turn)
  }

  /** When the item was last started, if it has not completed since. */
  function StartedAt(facts: seq<Fact>, key: ItemKey): Option<nat> {
    if facts == [] then None
    else
      var front, f := facts[..|facts| - 1], facts[|facts| - 1];
      if StartsItem(f, key) then Some(f.startedAtMs)
      else if EndsItem(front, f, key) then None
      else StartedAt(front, key)
  }

  function StartedItem(s: State, key: ItemKey): Option<nat> {
    if key in s.startedItems then Some(s.startedItems[key]) else None
  }

  lemma OtherFactsKeepStartedItems(s: State, f: Fact)
    requires !f.ItemStarted? && !f.ItemCompleted?
    ensures Step(s, f).state.startedItems == s.startedItems
  {
  }

  lemma CompletionEndsItem(s: State, f: Fact, key: ItemKey)
    requires f.ItemCompleted?
    ensures StartedItem(Step(s, f).state, key) ==
            if KeyOf(f) == key && f.threadItem.kind in TOOL_KINDS && f.turn in s.turns then None else StartedItem(s, key)
  {
  }

  /** One fact and one item. */
  lemma StepStartedItem(facts: seq<Fact>, f: Fact, key: ItemKey)
    ensures var s := Run(EMPTY, facts).state;
            StartedItem(Step(s, f).state, key) ==
            if StartsItem(f, key) then Some(f.startedAtMs)
            else if EndsItem(facts, f, key) then None
            else StartedItem(s, key)
  {
    var s := Run(EMPTY, facts).state;
    if f.ItemCompleted? {
      TurnsAreKnownExactlyWhen(facts, f.turn);
      CompletionEndsItem(s, f, key);
    } else if !f.ItemStarted? {
      OtherFactsKeepStartedItems(s, f);
    }
  }

  /** In every run the items that are running are those the facts leave running. */
  lemma {:induction false} StartedItemsFollowTheFacts(facts: seq<Fact>, key: ItemKey)
    ensures StartedItem(Run(EMPTY, facts).state, key) == StartedAt(facts, key)
  {
    if facts != [] {
      var front, f := facts[..|facts| - 1], facts[|facts| - 1];
      StartedItemsFollowTheFacts(front, key);
      StepStartedItem(front, f, key);
    }
  }

  /** The item ends, having been started, at a valid time, in a thread with a context. */
  predicate Finishes(front: seq<Fact>, f: Fact, key: ItemKey) {
    && EndsItem(front, f, key) && StartedAt(front, key).Some?
    && f.endedAtMs >= 0 && Connected(front, f.thread)
  }

  /** Of those, the ones that are over; web searches and image generations always are. */
  predicate IsReportable(front: seq<Fact>, f: Fact) {
    && f.ItemCompleted? && Finishes(front, f, KeyOf(f))
    && (!f.threadItem.inProgress || f.threadItem.kind == WebSearch || f.threadItem.kind == ImageGeneration)
  }

  /** The same on a state. */
  predicate CanFinish(s: State, f: Fact)
    requires f.ItemCompleted?
  {
    && f.threadItem.kind in TOOL_KINDS && f.turn in s.turns && KeyOf(f) in s.startedItems
    && f.endedAtMs >= 0 && ThreadContext(s, f.thread).Some?
  }

  lemma CanFinishExactlyWhen(facts: seq<Fact>, f: Fact)
    requires f.ItemCompleted?
    ensures CanFinish(Run(EMPTY, facts).state, f) <==> Finishes(facts, f, KeyOf(f))
    ensures Finishes(facts, f, KeyOf(f)) ==> Run(EMPTY, facts).state.startedItems[KeyOf(f)] == StartedAt(facts, KeyOf(f)).value
  {
    TurnsAreKnownExactlyWhen(facts, f.turn);
    StartedItemsFollowTheFacts(facts, KeyOf(f));
    ThreadHasContextExactlyWhen(facts, f.thread);
  }

  predicate SaysItem(e: TrackEvent, f: Fact, startedAt: nat)
    requires f.ItemCompleted?
  {
    && e.ToolItemEvent? && e.key == KeyOf(f) && e.kind == f.threadItem.kind
    && e.startedAtMs == startedAt && e.endedAtMs == f.endedAtMs
  }

  lemma CompletionEmits(s: State, f: Fact)
    requires f.ItemCompleted?
    ensures var out := Step(s, f).out;
            if CanFinish(s, f) && (!f.threadItem.inProgress || f.threadItem.kind == WebSearch || f.threadItem.kind == ImageGeneration)
            then |out| == 1 && SaysItem(out[0], f, s.startedItems[KeyOf(f)]) else out == []
  {
  }

  lemma OtherFactsEmitNoToolItem(s: State, f: Fact, e: TrackEvent)
    requires !f.ItemCompleted? && e in Step(s, f).out
    ensures !e.ToolItemEvent?
  {
  }

  /** In every run a fact emits a tool-item event if and only if it completes an item of one of the
      seven kinds, at a valid time, in a known turn of a connected thread, that was validly started
      since it last ended and is over.  Then the event is the only one, with the fact's item, kind
      and end and the item's start. */
  lemma ToolItemIsReportedExactlyWhen(facts: seq<Fact>, f: Fact)
    ensures var out := Step(Run(EMPTY, facts).state, f).out;
            && ((exists e :: e in out && e.ToolItemEvent?) <==> IsReportable(facts, f))
            && (IsReportable(facts, f) ==> |out| == 1 && SaysItem(out[0], f, StartedAt(facts, KeyOf(f)).value))
  {
    var s := Run(EMPTY, facts).state;
    var out := Step(s, f).out;
    if f.ItemCompleted? {
      CanFinishExactlyWhen(facts, f);
      CompletionEmits(s, f);
      if IsReportable(facts, f) {
        assert out[0] in out;
      }
    } else {
      forall e | e in out ensures !e.ToolItemEvent? {
        OtherFactsEmitNoToolItem(s, f, e);
      }
    }
  }
}
