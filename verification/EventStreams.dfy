/** The push stream between a producer and its single consumer, and the wrapper that runs an inner
    source behind one. Producer calls and consumer steps interleave in any order. */
module EventStreams {
  import opened Options

  /** A producer call. */
  datatype Call<T, R> = Push(event: T) | End(outcome: Option<R>)

  /** Idle between two events, Waiting inside the queue's get, or Finished. */
  datatype Consumer = Idle | Waiting | Finished

  predicate Closes<T, R>(complete: T -> bool, c: Call<T, R>) { c.End? || complete(c.event) }

  /** The position of the first call that closes the stream, or the number of calls. */
  function First<T, R>(complete: T -> bool, calls: seq<Call<T, R>>): (k: nat)
    ensures k <= |calls|
    ensures forall i :: 0 <= i < k ==> !Closes(complete, calls[i])
    ensures k < |calls| ==> Closes(complete, calls[k])
  {
    if calls == [] || Closes(complete, calls[0]) then 0 else 1 + First(complete, calls[1..])
  }

  predicate Closed<T, R>(complete: T -> bool, calls: seq<Call<T, R>>) { First(complete, calls) < |calls| }

  /** What the consumer is to see: every event pushed before the stream closes, and the closing one
      when an event closes it. */
  function Sent<T, R>(complete: T -> bool, calls: seq<Call<T, R>>): seq<T> {
    var k := First(complete, calls);
    seq(k, i requires 0 <= i < k => calls[i].event) + if k < |calls| && calls[k].Push? then [calls[k].event] else []
  }

  /** The result: set by the event that closes the stream, or else by the first end that brings one. */
  function Result<T, R>(complete: T -> bool, extract: T -> R, calls: seq<Call<T, R>>): Option<R> {
    if calls == [] then None
    else
      var before, c := calls[..|calls| - 1], calls[|calls| - 1];
      var r := Result(complete, extract, before);
      if r.Some? then r
      else if c.End? then c.outcome
      else if !Closed(complete, before) && complete(c.event) then Some(extract(c.event))
      else None
  }

  lemma {:induction false} FirstOfMore<T, R>(complete: T -> bool, calls: seq<Call<T, R>>, c: Call<T, R>)
    ensures First(complete, calls + [c]) == if Closed(complete, calls) then First(complete, calls)
                                            else if Closes(complete, c) then |calls| else |calls| + 1
  {
    if calls != [] && !Closes(complete, calls[0]) {
      FirstOfMore(complete, calls[1..], c);
      assert (calls + [c])[1..] == calls[1..] + [c];
    }
  }

  /** Only a push to an open stream adds to what is sent. */
  lemma SentOfMore<T, R>(complete: T -> bool, calls: seq<Call<T, R>>, c: Call<T, R>)
    ensures Sent(complete, calls + [c]) ==
            if Closed(complete, calls) || c.End? then Sent(complete, calls) else Sent(complete, calls) + [c.event]
  {
    FirstOfMore(complete, calls, c);
  }

  lemma ResultOfMore<T, R>(complete: T -> bool, extract: T -> R, calls: seq<Call<T, R>>, c: Call<T, R>)
    ensures var r := Result(complete, extract, calls);
            Result(complete, extract, calls + [c]) ==
            if r.Some? then r else if c.End? then c.outcome
            else if !Closed(complete, calls) && complete(c.event) then Some(extract(c.event)) else None
  {
    assert (calls + [c])[..|calls|] == calls;
  }

  /** A terminal event that closes the stream fixes its result for good, whatever comes after. */
  lemma {:induction false} FirstTerminalFixesResult<T, R>(complete: T -> bool, extract: T -> R, calls: seq<Call<T, R>>)
    ensures var k := First(complete, calls);
            k < |calls| && calls[k].Push? ==> Result(complete, extract, calls) == Some(extract(calls[k].event))
    ensures !Closed(complete, calls) ==> Result(complete, extract, calls) == None
  {
    if calls != [] {
      var before, c := calls[..|calls| - 1], calls[|calls| - 1];
      FirstTerminalFixesResult(complete, extract, before);
      FirstOfMore(complete, before, c);
      assert before + [c] == calls;
    }
  }

  /** The result is there exactly when a terminal event closed the stream or some end brought one. In
      particular a stream that is only ended, with no terminal event, never gets a result. */
  lemma {:induction false} ResultComesFromSomewhere<T(!new), R(!new)>(
      complete: T -> bool, extract: T -> R, calls: seq<Call<T, R>>)
    ensures Result(complete, extract, calls).Some? <==>
            || (exists c :: c in calls && c.End? && c.outcome.Some?)
            || (Closed(complete, calls) && calls[First(complete, calls)].Push?)
  {
    if calls != [] {
      var before, c := calls[..|calls| - 1], calls[|calls| - 1];
      ResultComesFromSomewhere(complete, extract, before);
      ResultOfMore(complete, extract, before, c);
      FirstOfMore(complete, before, c);
      assert before + [c] == calls;
    }
  }

  // ---- the queue ---------------------------------------------------------------------------------

  /** Events in a queue up to the first sentinel. */
  function Pending<T>(queue: seq<Option<T>>): seq<T> {
    if queue == [] || queue[0].None? then [] else [queue[0].value] + Pending(queue[1..])
  }

  predicate NoSentinel<T>(queue: seq<Option<T>>) { forall i :: 0 <= i < |queue| ==> queue[i].Some? }

  predicate SentinelsLast<T>(queue: seq<Option<T>>) {
    forall i, j :: 0 <= i < j < |queue| && queue[i].None? ==> queue[j].None?
  }

  lemma {:induction false} PendingOfMore<T>(queue: seq<Option<T>>, x: Option<T>)
    ensures x.None? ==> Pending(queue + [x]) == Pending(queue)
    ensures x.Some? && NoSentinel(queue) ==> Pending(queue + [x]) == Pending(queue) + [x.value]
  {
    if queue != [] {
      PendingOfMore(queue[1..], x);
      assert (queue + [x])[1..] == queue[1..] + [x];
    }
  }

  lemma Queued<T>(received: seq<T>, queue: seq<Option<T>>, event: T)
    requires NoSentinel(queue)
    ensures received + Pending(queue + [Some(event)]) == received + Pending(queue) + [event]
    ensures NoSentinel(queue + [Some(event)])
  {
    PendingOfMore(queue, Some(event));
  }

  lemma SentinelQueued<T>(queue: seq<Option<T>>)
    requires SentinelsLast(queue)
    ensures Pending(queue + [None]) == Pending(queue) && SentinelsLast(queue + [None])
  {
    PendingOfMore(queue, None);
  }

  // ---- the consumer ------------------------------------------------------------------------------

  /** How many events the consumer has got, and what it is doing. */
  datatype Reader = Reader(count: nat, consumer: Consumer)

  /** One step of a consumer of a stream to which the calls have been made. */
  function Reads<T, R>(complete: T -> bool, calls: seq<Call<T, R>>, r: Reader): Reader {
    if r.count < |Sent(complete, calls)| then Reader(r.count + 1, Idle)
    else Reader(r.count, if Closed(complete, calls) then Finished else Waiting)
  }

  datatype Action<T, R> = Produce(call: Call<T, R>) | Consume

  function Calls<T, R>(actions: seq<Action<T, R>>): seq<Call<T, R>> {
    if actions == [] then []
    else Calls(actions[..|actions| - 1]) + if actions[|actions| - 1].Produce? then [actions[|actions| - 1].call] else []
  }

  /** The consumer after the actions: each of its steps brings it the next event, if one has been sent. */
  function Plays<T, R>(complete: T -> bool, actions: seq<Action<T, R>>): Reader {
    if actions == [] then Reader(0, Idle)
    else
      var before := actions[..|actions| - 1];
      var r := Plays(complete, before);
      if actions[|actions| - 1].Produce? then r else Reads(complete, Calls(before), r)
  }

  lemma OneAction<T, R>(complete: T -> bool, actions: seq<Action<T, R>>, a: Action<T, R>)
    ensures Calls(actions + [a]) == if a.Produce? then Calls(actions) + [a.call] else Calls(actions)
    ensures Plays(complete, actions + [a])
         == if a.Produce? then Plays(complete, actions) else Reads(complete, Calls(actions), Plays(complete, actions))
  {
    assert (actions + [a])[..|actions|] == actions;
    assert Calls(actions) + [] == Calls(actions);
  }

  predicate InBounds<T, R>(complete: T -> bool, calls: seq<Call<T, R>>, r: Reader) {
    && r.count <= |Sent(complete, calls)|
    && (r.consumer.Finished? ==> Closed(complete, calls) && r.count == |Sent(complete, calls)|)
  }

  lemma StaysInBounds<T, R>(complete: T -> bool, calls: seq<Call<T, R>>, r: Reader, c: Call<T, R>)
    requires InBounds(complete, calls, r)
    ensures InBounds(complete, calls + [c], r)
  {
    SentOfMore(complete, calls, c);
    FirstOfMore(complete, calls, c);
  }

  /** The consumer never gets ahead of what is sent, and has finished only with all of it. */
  lemma {:induction false} NeverAhead<T, R>(complete: T -> bool, actions: seq<Action<T, R>>)
    ensures InBounds(complete, Calls(actions), Plays(complete, actions))
  {
    if actions != [] {
      var before, last := actions[..|actions| - 1], actions[|actions| - 1];
      NeverAhead(complete, before);
      OneAction(complete, before, last);
      assert before + [last] == actions;
      if last.Produce? { StaysInBounds(complete, Calls(before), Plays(complete, before), last.call); }
    }
  }

  function Resumes<T, R>(k: nat): seq<Action<T, R>> { if k == 0 then [] else Resumes(k - 1) + [Consume] }

  function ReadTimes<T, R>(complete: T -> bool, calls: seq<Call<T, R>>, r: Reader, k: nat): Reader {
    if k == 0 then r else Reads(complete, calls, ReadTimes(complete, calls, r, k - 1))
  }

  lemma ResumesMore<T, R>(actions: seq<Action<T, R>>, k: nat)
    ensures k == 0 ==> actions + Resumes(k) == actions
    ensures k > 0 ==> actions + Resumes(k) == actions + Resumes(k - 1) + [Consume]
  {
  }

  lemma {:induction false} PlaysResumes<T, R>(complete: T -> bool, actions: seq<Action<T, R>>, k: nat,
                                              more: seq<Action<T, R>>)
    requires more == actions + Resumes(k)
    ensures Calls(more) == Calls(actions)
    ensures Plays(complete, more) == ReadTimes(complete, Calls(actions), Plays(complete, actions), k)
  {
    ResumesMore(actions, k);
    if k > 0 {
      var fewer := actions + Resumes(k - 1);
      PlaysResumes(complete, actions, k - 1, fewer);
      OneAction(complete, fewer, Consume);
    }
  }

  lemma {:induction false} ReadTimesCounts<T, R>(complete: T -> bool, calls: seq<Call<T, R>>, r: Reader, k: nat)
    requires r.count <= |Sent(complete, calls)|
    ensures ReadTimes(complete, calls, r, k).count == Min(r.count + k, |Sent(complete, calls)|)
    ensures k > 0 && r.count + k > |Sent(complete, calls)| ==>
              ReadTimes(complete, calls, r, k).consumer == if Closed(complete, calls) then Finished else Waiting
  {
    if k > 0 { ReadTimesCounts(complete, calls, r, k - 1); }
  }

  /** A consumer that is resumed k times in a row gets the next k events, or all there are, and once more
      tells it whether the stream is closed. */
  lemma ResumedOften<T, R>(complete: T -> bool, actions: seq<Action<T, R>>, k: nat, r: Reader)
    requires r == Plays(complete, actions + Resumes(k))
    ensures CaughtUp(complete, Calls(actions), Plays(complete, actions), k, r)
  {
    NeverAhead(complete, actions);
    PlaysResumes(complete, actions, k, actions + Resumes(k));
    Catches(complete, Calls(actions), Plays(complete, actions), k);
  }

  predicate CaughtUp<T, R>(complete: T -> bool, calls: seq<Call<T, R>>, r0: Reader, k: nat, r: Reader) {
    var sent := |Sent(complete, calls)|;
    && r.count == Min(r0.count + k, sent)
    && (k > 0 && r0.count + k > sent ==> r.consumer == if Closed(complete, calls) then Finished else Waiting)
  }

  lemma Catches<T, R>(complete: T -> bool, calls: seq<Call<T, R>>, r0: Reader, k: nat)
    requires InBounds(complete, calls, r0)
    ensures CaughtUp(complete, calls, r0, k, ReadTimes(complete, calls, r0, k))
  {
    ReadTimesCounts(complete, calls, r0, k);
  }

  function Min(a: nat, b: nat): nat { if a < b then a else b }

  // ---- the stream --------------------------------------------------------------------------------

  class EventStream<T, R> {
    const complete: T -> bool
    const extract: T -> R
    /** None is the sentinel that end() puts in. */
    var queue: seq<Option<T>>
    var done: bool
    var result: Option<R>
    var consumer: Consumer
    ghost var calls: seq<Call<T, R>>
    ghost var received: seq<T>

    /** What is received and what is queued make up what is sent, in order; a waiting consumer is never
        left behind a closed stream; and a finished one has received everything. */
    ghost predicate Valid()
      reads this
    {
      && received + Pending(queue) == Sent(complete, calls)
      && (done <==> Closed(complete, calls))
      && result == Result(complete, extract, calls)
      && SentinelsLast(queue) && (!done ==> NoSentinel(queue))
      && (consumer.Waiting? && done ==> queue != [])
      && (consumer.Finished? ==> done && received == Sent(complete, calls))
    }

    constructor (complete: T -> bool, extract: T -> R)
      ensures Valid() && calls == [] && received == [] && consumer == Idle
      ensures this.complete == complete && this.extract == extract
    {
      this.complete := complete;
      this.extract := extract;
      queue := [];
      done := false;
      result := None;
      consumer := Idle;
      calls := [];
      received := [];
    }

    method Push(event: T)
      requires Valid()
      modifies this
      ensures Valid() && calls == old(calls) + [Call.Push(event)]
      ensures received == old(received) && consumer == old(consumer)
    {
      ghost var c: Call<T, R> := Call.Push(event);
      SentOfMore(complete, calls, c);
      FirstOfMore(complete, calls, c);
      ResultOfMore(complete, extract, calls, c);
      if done {
        calls := calls + [c];
        return;
      }
      FirstTerminalFixesResult(complete, extract, calls);
      Queued(received, queue, event);
      calls := calls + [c];
      if complete(event) {
        done := true;
        if result.None? { result := Some(extract(event)); }
      }
      queue := queue + [Some(event)];
    }

    method End(outcome: Option<R>)
      requires Valid()
      modifies this
      ensures Valid() && calls == old(calls) + [Call.End(outcome)]
      ensures received == old(received) && consumer == old(consumer)
    {
      ghost var c: Call<T, R> := Call.End(outcome);
      SentOfMore(complete, calls, c);
      FirstOfMore(complete, calls, c);
      ResultOfMore(complete, extract, calls, c);
      SentinelQueued(queue);
      calls := calls + [c];
      done := true;
      result := if result.Some? then result else outcome;
      queue := queue + [None];
    }

    /** The consumer's loop up to its next event, its end, or the point where it has to wait: it gets the
        next of what is sent whenever there is more; else it has finished, if the stream is closed, and
        waits if it is not. */
    method Resume() returns (event: Option<T>)
      requires Valid()
      modifies `queue, `consumer, `received
      ensures Valid()
      ensures var sent, n := Sent(complete, calls), old(|received|);
              event == if n < |sent| then Some(sent[n]) else None
      ensures received == old(received) + (if event.Some? then [event.value] else [])
      ensures event.Some? ==> |queue| < old(|queue|)
      ensures consumer == if event.Some? then Idle else if done then Finished else Waiting
      ensures consumer == Reads(complete, calls, old(Reader(|received|, consumer))).consumer
      ensures |received| == Reads(complete, calls, old(Reader(|received|, consumer))).count
    {
      event := None;
      if consumer.Finished? { return; }
      if consumer.Idle? && done && queue == [] {
        consumer := Finished;
        return;
      }
      if queue == [] {
        consumer := Waiting;
        return;
      }
      event := queue[0];
      queue := queue[1..];
      if event.None? {
        assert Pending(old(queue)) == [];
        assert queue == [] || queue[0].None?;
        consumer := Finished;
      } else {
        received := received + [event.value];
        consumer := Idle;
      }
    }

    /** Once the stream is closed, resuming the consumer often enough brings it everything that was
        sent and then its end. */
    method Drain()
      requires Valid() && done
      modifies `queue, `consumer, `received
      ensures Valid() && consumer.Finished? && received == Sent(complete, calls)
    {
      while !consumer.Finished?
        invariant Valid()
        decreases |queue|
      {
        var event := Resume();
        if event.None? { break; }
      }
    }
  }

  method Act<T, R>(s: EventStream<T, R>, action: Action<T, R>, count: nat) returns (count': nat)
    requires s.Valid() && count == |s.received|
    modifies s
    ensures s.Valid() && count' == |s.received|
    ensures s.calls == if action.Produce? then old(s.calls) + [action.call] else old(s.calls)
    ensures Reader(count', s.consumer)
         == if action.Produce? then Reader(count, old(s.consumer))
           else Reads(s.complete, s.calls, Reader(count, old(s.consumer)))
  {
    count' := count;
    match action {
      case Produce(Push(event)) => s.Push(event);
      case Produce(End(outcome)) => s.End(outcome);
      case Consume =>
        var event := s.Resume();
        if event.Some? { count' := count + 1; }
    }
  }

  method Next<T, R>(s: EventStream<T, R>, actions: seq<Action<T, R>>, i: nat, count: nat) returns (count': nat)
    requires i < |actions| && s.Valid() && count == |s.received|
    requires s.calls == Calls(actions[..i]) && Reader(count, s.consumer) == Plays(s.complete, actions[..i])
    modifies s
    ensures s.Valid() && count' == |s.received|
    ensures s.calls == Calls(actions[..i + 1]) && Reader(count', s.consumer) == Plays(s.complete, actions[..i + 1])
  {
    OneAction(s.complete, actions[..i], actions[i]);
    assert actions[..i + 1] == actions[..i] + [actions[i]];
    count' := Act(s, actions[i], count);
  }

  /** Any interleaving of producer and consumer: at its end, and so at every moment, the consumer has
      received as much of what was sent as its steps have brought it, and draining a closed stream brings
      the rest. */
  method Interleave<T, R>(complete: T -> bool, extract: T -> R, actions: seq<Action<T, R>>)
    returns (s: EventStream<T, R>, reader: Reader, ghost got: seq<T>)
    ensures reader == Plays(complete, actions) && |got| == reader.count && got <= Sent(complete, Calls(actions))
    ensures s.Valid() && got <= s.received <= Sent(complete, s.calls)
    ensures s.result == Result(complete, extract, s.calls)
    ensures s.done <==> Closed(complete, s.calls)
    ensures s.done ==> s.consumer.Finished? && s.received == Sent(complete, s.calls)
    ensures !s.done ==> s.received == got && s.consumer == reader.consumer
    ensures s.calls == Calls(actions)
  {
    var count := 0;
    s := new EventStream(complete, extract);
    for i := 0 to |actions|
      invariant fresh(s) && s.Valid() && s.complete == complete && s.extract == extract
      invariant s.calls == Calls(actions[..i])
      invariant count == |s.received| && Reader(count, s.consumer) == Plays(complete, actions[..i])
    {
      count := Next(s, actions, i, count);
    }
    assert actions[..|actions|] == actions;
    reader, got := Reader(count, s.consumer), s.received;
    assert got <= got + Pending(s.queue);
    if s.done { s.Drain(); }
  }

  // ---- lazy_stream -------------------------------------------------------------------------------

  datatype Message = Message(text: string, stopReason: string, error: Option<string>)

  datatype AssistantEvent = Delta(text: string) | Done(message: Message) | Error(reason: string, message: Message)

  predicate IsTerminal(e: AssistantEvent) { !e.Delta? }

  /** Asked of terminal events only. */
  function ExtractMessage(e: AssistantEvent): Message { if e.Delta? then Message("", "", None) else e.message }

  /** An inner source: the events it yields, and the exception that ends it unless it ends by itself.
      A setup that fails yields nothing. */
  datatype Inner = Inner(events: seq<AssistantEvent>, failure: Option<string>)

  function ErrorMessage(failure: string): Message { Message("", "error", Some(failure)) }

  function FirstTerminal(events: seq<AssistantEvent>): (k: nat)
    ensures k <= |events|
    ensures forall i :: 0 <= i < k ==> events[i].Delta?
    ensures k < |events| ==> !events[k].Delta?
  {
    if events == [] || !events[0].Delta? then 0 else 1 + FirstTerminal(events[1..])
  }

  /** What lazy_stream promises its consumer: the inner events up to the first terminal one, or all of
      them followed by an error event when the inner source raises before it. */
  function Promised(inner: Inner): seq<AssistantEvent> {
    var k := FirstTerminal(inner.events);
    if k < |inner.events| then inner.events[..k + 1]
    else if inner.failure.Some? then inner.events + [Error("error", ErrorMessage(inner.failure.value))]
    else inner.events
  }

  function PromisedResult(inner: Inner): Option<Message> {
    var k := FirstTerminal(inner.events);
    if k < |inner.events| then Some(inner.events[k].message)
    else if inner.failure.Some? then Some(ErrorMessage(inner.failure.value))
    else None
  }

  function Pushes(events: seq<AssistantEvent>): seq<Call<AssistantEvent, Message>> {
    seq(|events|, i requires 0 <= i < |events| => Call.Push(events[i]))
  }

  /** The calls the driver makes, in order. */
  function DriverCalls(inner: Inner): seq<Call<AssistantEvent, Message>> {
    Pushes(inner.events) +
    if inner.failure.Some? then
      [Call.Push(Error("error", ErrorMessage(inner.failure.value))), Call.End(Some(ErrorMessage(inner.failure.value)))]
    else [Call.End(None)]
  }

  lemma FirstIs<T, R>(complete: T -> bool, calls: seq<Call<T, R>>, k: nat)
    requires k < |calls| && Closes(complete, calls[k])
    requires forall i :: 0 <= i < k ==> !Closes(complete, calls[i])
    ensures First(complete, calls) == k
  {
  }

  lemma DriverSends(inner: Inner)
    ensures Sent(IsTerminal, DriverCalls(inner)) == Promised(inner)
    ensures Closed(IsTerminal, DriverCalls(inner))
  {
    var calls, k := DriverCalls(inner), FirstTerminal(inner.events);
    FirstIs(IsTerminal, calls, k);
    assert Sent(IsTerminal, calls) == Promised(inner);
  }

  /** The result of a lazy stream, for every inner source: there is none exactly when the source ends
      by itself without a terminal event. */
  lemma DriverResult(inner: Inner)
    ensures Result(IsTerminal, ExtractMessage, DriverCalls(inner)) == PromisedResult(inner)
    ensures PromisedResult(inner).None? <==>
            inner.failure.None? && forall i :: 0 <= i < |inner.events| ==> inner.events[i].Delta?
  {
    var calls, k := DriverCalls(inner), FirstTerminal(inner.events);
    FirstIs(IsTerminal, calls, k);
    FirstTerminalFixesResult(IsTerminal, ExtractMessage, calls);
    if k == |inner.events| && inner.failure.None? {
      var pushes := Pushes(inner.events);
      assert calls == pushes + [Call.End(None)];
      FirstTerminalFixesResult(IsTerminal, ExtractMessage, pushes);
      ResultOfMore(IsTerminal, ExtractMessage, pushes, Call.End(None));
    }
  }

  method ConsumerTurns(s: EventStream<AssistantEvent, Message>, turns: nat)
    requires s.Valid()
    modifies s
    ensures s.Valid() && s.calls == old(s.calls)
  {
    for i := 0 to turns
      invariant s.Valid() && s.calls == old(s.calls)
    {
      var _ := s.Resume();
    }
  }

  method Forward(outer: EventStream<AssistantEvent, Message>, events: seq<AssistantEvent>, turns: nat -> nat)
    requires outer.Valid() && outer.calls == []
    modifies outer
    ensures outer.Valid() && outer.calls == Pushes(events)
  {
    for i := 0 to |events|
      invariant outer.Valid() && outer.calls == Pushes(events[..i])
    {
      ConsumerTurns(outer, turns(i));
      outer.Push(events[i]);
    }
    assert events[..|events|] == events;
  }

  /** lazy_stream: the driver runs behind the stream it returns, and the consumer takes any number of
      turns before each inner event. However they interleave, the consumer ends up with what is
      promised, and so does the result. */
  method LazyStream(inner: Inner, turns: nat -> nat) returns (outer: EventStream<AssistantEvent, Message>)
    ensures outer.Valid() && outer.consumer.Finished?
    ensures outer.received == Promised(inner) && outer.result == PromisedResult(inner)
  {
    outer := new EventStream(IsTerminal, ExtractMessage);
    Forward(outer, inner.events, turns);
    ConsumerTurns(outer, turns(|inner.events|));
    Conclude(outer, inner);
    DriverSends(inner);
    DriverResult(inner);
    outer.Drain();
  }

  method Conclude(outer: EventStream<AssistantEvent, Message>, inner: Inner)
    requires outer.Valid() && outer.calls == Pushes(inner.events)
    modifies outer
    ensures outer.Valid() && outer.calls == DriverCalls(inner)
  {
    if inner.failure.None? {
      outer.End(None);
    } else {
      var message := ErrorMessage(inner.failure.value);
      outer.Push(Error("error", message));
      outer.End(Some(message));
    }
  }

  /** AssistantMessageEventStream.aclose, once its producer has stopped: a stream that is still open is
      closed by an aborted error event, so nobody waits for it any more. */
  method Close(s: EventStream<AssistantEvent, Message>)
    requires s.Valid() && s.complete == IsTerminal && s.extract == ExtractMessage
    modifies s
    ensures s.Valid() && s.done
    ensures !old(s.done) ==>
              && Sent(IsTerminal, s.calls) == old(Sent(IsTerminal, s.calls))
                 + [Error("aborted", Message("", "aborted", Some("Stream cancelled")))]
              && s.result == Some(Message("", "aborted", Some("Stream cancelled")))
    ensures old(s.done) ==> s.calls == old(s.calls) && s.result == old(s.result)
  {
    if s.done { return; }
    var message := Message("", "aborted", Some("Stream cancelled"));
    ghost var before := s.calls;
    s.Push(Error("aborted", message));
    SentOfMore(IsTerminal, before, Call.Push(Error("aborted", message)));
    FirstOfMore(IsTerminal, before, Call.Push(Error("aborted", message)));
    FirstTerminalFixesResult(IsTerminal, ExtractMessage, s.calls);
  }
}
