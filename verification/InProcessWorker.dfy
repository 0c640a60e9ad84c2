/**
 The worker task and the forwarding routine in imperative form.  The consumer runs
 concurrently; its moves are a schedule of turns, taken at every point where the worker
 touches the shared channel and for as long as the worker waits.  Each method is proved to
 follow the small-step system: the ghost fields hold a run of it that ends in this object's
 state, so everything proved of reachable states holds of the worker.
 */
module InProcessWorker {
  import opened Common
  import opened EventForwarder

  /** One turn of the consumer; at `Yields` the worker goes on. */
  datatype Turn = Receives | DropsReceiver | Yields

  datatype TrySendResult = SendOk | SendFull | SendClosed

  /** `Pending`: the schedule ended while a must-deliver send was waiting for room. */
  datatype ForwardEventResult = Continue | DisableStream | Pending

  function SeenAll(queue: seq<Sent>): seq<Event> {
    seq(|queue|, i requires 0 <= i < |queue| => Seen(queue[i]))
  }

  /** A run can be prolonged by any enabled action. */
  lemma RunThen(s: State, trace: seq<Action>, a: Action)
    requires Run(s, trace).Some? && Enabled(Run(s, trace).value, a)
    ensures Run(s, trace + [a]) == Some(Step(Run(s, trace).value, a))
  {
    RunConcat(s, trace, [a]);
    assert [a][1..] == [];
  }

  class Worker {
    const configured: nat
    var queue: seq<Event>
    var open: bool
    var skippedEvents: nat
    var eventStreamEnabled: bool
    var rejections: seq<Rejection>
    ghost var model: State
    ghost var history: seq<Action>

    function Capacity(): nat {
      if configured < 1 then 1 else configured
    }

    /** The channel and the answers given agree with the small-step state. */
    ghost predicate ChannelAgrees()
      reads this
    {
      && model.capacity == Capacity()
      && model.open == open
      && SeenAll(model.queue) == queue
      && model.rejected == rejections
    }

    ghost predicate Traced()
      reads this
    {
      Run(Init(configured), history) == Some(model)
    }

    ghost predicate Valid()
      reads this
    {
      && Traced()
      && ChannelAgrees()
      && skippedEvents == model.skipped
      && eventStreamEnabled == !model.phase.Disabled?
      && !model.phase.Stopped?
    }

    constructor (channelCapacity: nat)
      ensures Valid() && model == Init(channelCapacity)
    {
      configured := channelCapacity;
      queue, open, skippedEvents, eventStreamEnabled, rejections := [], true, 0, true, [];
      model, history := Init(channelCapacity), [];
    }

    ghost method Move(a: Action)
      requires Traced() && Enabled(model, a)
      modifies this`model, this`history
      ensures Traced() && model == Step(old(model), a)
    {
      RunThen(Init(configured), history, a);
      model, history := Step(model, a), history + [a];
    }

    /** Lets the consumer move until it yields. */
    method LetConsumerRun(consumer: seq<Turn>, i: nat) returns (j: nat)
      requires Traced() && ChannelAgrees() && i <= |consumer|
      modifies this`queue, this`open, this`model, this`history
      ensures Traced() && ChannelAgrees() && i <= j <= |consumer|
      ensures i < |consumer| ==> i < j
      ensures model.phase == old(model.phase) && model.skipped == old(model.skipped) && model.taken == old(model.taken)
    {
      j := i;
      while j < |consumer|
        invariant i <= j <= |consumer|
        invariant Traced() && ChannelAgrees()
        invariant model.phase == old(model.phase) && model.skipped == old(model.skipped) && model.taken == old(model.taken)
      {
        var turn := consumer[j];
        j := j + 1;
        match turn {
          case Receives =>
            if open && queue != [] {
              queue := queue[1..];
              Move(Receive);
            }
          case DropsReceiver =>
            if open {
              open, queue := false, [];
              Move(DropReceiver);
            }
          case Yields =>
            return;
        }
      }
    }

    method TrySend(x: Event) returns (r: TrySendResult)
      modifies this`queue
      ensures !open ==> r == SendClosed && queue == old(queue)
      ensures open && |old(queue)| >= Capacity() ==> r == SendFull && queue == old(queue)
      ensures open && |old(queue)| < Capacity() ==> r == SendOk && queue == old(queue) + [x]
    {
      if !open {
        r := SendClosed;
      } else if |queue| >= Capacity() {
        r := SendFull;
      } else {
        queue := queue + [x];
        r := SendOk;
      }
    }

    /** Sends and waits while the channel is open and full.  `None`: still waiting. */
    method Send(x: Event, consumer: seq<Turn>, i: nat) returns (sent: Option<bool>, j: nat)
      requires Traced() && ChannelAgrees() && i <= |consumer|
      requires Forwarding(model) && RequiresDelivery(model.phase.event)
      requires x == if model.phase.Flushing? then Lagged(model.skipped) else model.phase.event
      modifies this`queue, this`open, this`model, this`history
      ensures Traced() && ChannelAgrees() && i <= j <= |consumer| && model.taken == old(model.taken)
      ensures sent == None ==>
                j == |consumer| && Blocked(model) && model.phase == old(model.phase) && model.skipped == old(model.skipped)
      ensures sent == Some(false) ==> model.phase == Disabled && !open && model.skipped == old(model.skipped)
      ensures sent == Some(true) && old(model.phase).Flushing? ==>
                model.phase == Sending(old(model.phase.event)) && model.skipped == 0
      ensures sent == Some(true) && old(model.phase).Sending? ==>
                model.phase == Idle && model.skipped == old(model.skipped)
    {
      j := LetConsumerRun(consumer, i);
      while open && |queue| >= Capacity() && j < |consumer|
        invariant Traced() && ChannelAgrees() && i <= j <= |consumer|
        invariant model.phase == old(model.phase) && model.skipped == old(model.skipped) && model.taken == old(model.taken)
        decreases |consumer| - j
      {
        j := LetConsumerRun(consumer, j);
      }
      if open && |queue| >= Capacity() {
        return None, j;
      }
      if open {
        queue := queue + [x];
      }
      Move(Advance);
      sent := Some(open);
    }

    /** Counts a dropped best-effort event, and answers it if it is a request. */
    method CountDropped(event: Event)
      modifies this`skippedEvents, this`rejections
      ensures skippedEvents == SaturatingIncrement(old(skippedEvents))
      ensures rejections == if event.ServerRequested?
                            then old(rejections) + [Rejection(event.request, EVENT_QUEUE_FULL)] else old(rejections)
    {
      skippedEvents := if skippedEvents < USIZE_MAX then skippedEvents + 1 else skippedEvents;
      if event.ServerRequested? {
        rejections := rejections + [Rejection(event.request, EVENT_QUEUE_FULL)];
      }
    }

    /** Sends at once or not at all: on a full channel the event in hand is dropped. */
    method Offer(x: Event, event: Event, consumer: seq<Turn>, i: nat) returns (r: TrySendResult, j: nat)
      requires Traced() && ChannelAgrees() && i <= |consumer| && skippedEvents == model.skipped
      requires Forwarding(model) && model.phase.event == event && !RequiresDelivery(event)
      requires x == if model.phase.Flushing? then Lagged(model.skipped) else event
      modifies this`queue, this`open, this`model, this`history, this`skippedEvents, this`rejections
      ensures Traced() && ChannelAgrees() && i <= j <= |consumer| && model.taken == old(model.taken)
      ensures r == SendFull ==> model.phase == Idle && skippedEvents == model.skipped
      ensures r == SendClosed ==> model.phase == Disabled && !open && skippedEvents == model.skipped
      ensures r == SendOk && old(model.phase).Flushing? ==> model.phase == Sending(event) && model.skipped == 0
      ensures r == SendOk && old(model.phase).Sending? ==> model.phase == Idle && skippedEvents == model.skipped
    {
      j := LetConsumerRun(consumer, i);
      r := TrySend(x);
      Move(Advance);
      if r == SendFull {
        CountDropped(event);
      }
    }

    /** Forwards one event, respecting the lossless/best-effort split. */
    method Forward(event: Event, consumer: seq<Turn>, i: nat) returns (result: ForwardEventResult, j: nat)
      requires Valid() && i <= |consumer|
      requires model.phase == if skippedEvents > 0 then Flushing(event) else Sending(event)
      modifies this`queue, this`open, this`model, this`history, this`skippedEvents, this`rejections
      ensures Traced() && ChannelAgrees() && i <= j <= |consumer|
      ensures skippedEvents == model.skipped && model.taken == old(model.taken)
      ensures result == Continue ==> model.phase == Idle
      ensures result == DisableStream ==> model.phase == Disabled && !open
      ensures result == Pending ==> Blocked(model) && j == |consumer|
    {
      j := i;
      if skippedEvents > 0 {
        if RequiresDelivery(event) {
          var sent;
          sent, j := Send(Lagged(skippedEvents), consumer, j);
          if sent == None {
            return Pending, j;
          } else if !sent.value {
            return DisableStream, j;
          }
          skippedEvents := 0;
        } else {
          var r;
          r, j := Offer(Lagged(skippedEvents), event, consumer, j);
          match r {
            case SendOk =>
              skippedEvents := 0;
            case SendFull =>
              return Continue, j;
            case SendClosed =>
              return DisableStream, j;
          }
        }
      }

      if RequiresDelivery(event) {
        var sent;
        sent, j := Send(event, consumer, j);
        return (if sent == None then Pending else if sent.value then Continue else DisableStream), j;
      }

      var r;
      r, j := Offer(event, event, consumer, j);
      result := if r == SendClosed then DisableStream else Continue;
    }

    /** The event branch of the worker loop, over the events the server produces: it reads
        them in order until the stream is disabled or a send is still waiting. */
    method Work(events: seq<Event>, consumer: seq<Turn>) returns (n: nat)
      requires Valid() && (model.phase == Idle || model.phase == Disabled)
      modifies this
      ensures Valid()
      ensures n <= |events| && model.taken == old(model.taken) + events[..n]
      ensures n == |events| || model.phase == Disabled || Blocked(model)
    {
      n := 0;
      var j := 0;
      var waiting := false;
      while n < |events| && eventStreamEnabled && !waiting
        invariant Valid() && j <= |consumer| && n <= |events|
        invariant if waiting then Blocked(model) else model.phase == Idle || model.phase == Disabled
        invariant model.taken == old(model.taken) + events[..n]
        decreases |events| - n
      {
        var event := events[n];
        n := n + 1;
        assert events[..n] == events[..n - 1] + [event];
        Move(Take(event));
        if event.ServerRequested? && event.request.ChatgptAuthTokensRefresh? {
          rejections := rejections + [Rejection(event.request, AUTH_REFRESH_UNSUPPORTED)];
        } else {
          var result;
          result, j := Forward(event, consumer, j);
          waiting := result == Pending;
          if result == DisableStream {
            eventStreamEnabled := false;
          }
        }
      }
    }
  }
}
