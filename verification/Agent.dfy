/** The agent's messages, events, queues and tool batches. The model, the tools and the hooks are
    oracles: what they answer is an input. */
module Agent {
  import opened Options

  datatype ToolCall = ToolCall(id: string, name: string, arguments: string)

  datatype StopReason = Stop | ToolUse | Length | Errored | Aborted

  datatype Status = Completed | Failed | Cancelled | TimedOut | Blocked | Uncertain

  datatype Message =
    | User(text: string)
    | Assistant(text: string, calls: seq<ToolCall>, stop: StopReason)
    | ToolResult(callId: string, toolName: string, content: string, isError: bool, status: Status)

  datatype Result = Result(content: string, terminate: bool, status: Status)

  /** A tool call that has reached its outcome. */
  datatype Finalized = Finalized(call: ToolCall, result: Result, isError: bool)

  datatype Event =
    | AgentStart
    | TurnStart
    | MessageStart(message: Message)
    | MessageEnd(message: Message)
    | ToolStart(call: ToolCall)
    | ToolEnd(final: Finalized)
    | TurnEnd(message: Message, results: seq<Message>)
    | AgentEnd(messages: seq<Message>)

  // ---- one tool call -------------------------------------------------------------------------------

  datatype Hook = NoHook | Allows | Blocks(reason: Option<string>, blockStatus: Status) | HookRaises(what: string)
  datatype Execution = Returns(result: Result) | Raises(what: string, raisedStatus: Status) | Interrupted
  datatype After = Keeps | Rewrites(content: Option<string>, isError: Option<bool>, terminate: Option<bool>)
    | AfterRaises(what: string)

  /** How the environment treats one call: the abort signal at each of the points where it is looked
      at, the tool table, the argument check, the two hooks and the tool itself. */
  datatype Behaviour = Behaviour(
    abortedFirst: bool, known: bool, sequential: bool, badArguments: Option<string>, before: Hook,
    abortedAfterHook: bool, abortedLast: bool, abortedAtRun: bool, execution: Execution, after: After)

  datatype Preparation = Immediate(final: Finalized) | Ready | Escapes(what: string)

  function ErrorResult(content: string, status: Status): Result { Result(content, false, status) }

  function AbortedCall(tc: ToolCall): Finalized { Finalized(tc, ErrorResult("Operation aborted", Cancelled), true) }

  function BlockedCall(tc: ToolCall, b: Hook): Finalized
    requires b.Blocks?
  {
    var reason := if b.reason.Some? && b.reason.value != "" then b.reason.value else "Tool execution was blocked";
    Finalized(tc, ErrorResult(reason, b.blockStatus), true)
  }

  /** _prepare_tool_call. For a tool that is not known the hook runs outside the try block, and what it
      raises escapes. */
  function Prepare(tc: ToolCall, b: Behaviour): Preparation {
    if b.abortedFirst then Immediate(AbortedCall(tc))
    else if !b.known then
      if b.before.HookRaises? then Escapes(b.before.what)
      else if b.before.Blocks? then Immediate(BlockedCall(tc, b.before))
      else Immediate(Finalized(tc, ErrorResult("Tool \"" + tc.name + "\" not found.", Failed), true))
    else if b.badArguments.Some? then Immediate(Finalized(tc, ErrorResult(b.badArguments.value, Failed), true))
    else if b.before.HookRaises? then Immediate(Finalized(tc, ErrorResult(b.before.what, Failed), true))
    else if !b.before.NoHook? && b.abortedAfterHook then Immediate(AbortedCall(tc))
    else if b.before.Blocks? then Immediate(BlockedCall(tc, b.before))
    else if b.abortedLast then Immediate(AbortedCall(tc))
    else Ready
  }

  /** _execute_prepared_tool_call */
  function Execute(tc: ToolCall, b: Behaviour): Finalized {
    if b.abortedAtRun then AbortedCall(tc)
    else match b.execution
      case Returns(result) => Finalized(tc, result, result.status != Completed)
      case Raises(what, status) => Finalized(tc, ErrorResult("Error: " + what, status), true)
      case Interrupted => AbortedCall(tc)
  }

  /** _finalize_executed_tool_call */
  function Finalize(f: Finalized, after: After): Finalized {
    match after
    case Keeps => f
    case Rewrites(content, isError, terminate) =>
      Finalized(f.call,
                Result(if content.Some? then content.value else f.result.content,
                       if terminate.Some? then terminate.value else f.result.terminate,
                       if isError.None? then f.result.status else if isError.value then Failed else Completed),
                if isError.Some? then isError.value else f.isError)
    case AfterRaises(what) => Finalized(f.call, ErrorResult("Error: " + what, Failed), true)
  }

  /** A call of an assistant message, with the way the environment treats it. */
  datatype Request = Request(call: ToolCall, behaviour: Behaviour)

  function Prepared(r: Request): Preparation { Prepare(r.call, r.behaviour) }

  /** What a call comes to, whichever strategy runs it. */
  function Outcome(r: Request): (f: Finalized)
    ensures f.call == r.call
  {
    var p := Prepared(r);
    if p.Immediate? then p.final else Finalize(Execute(r.call, r.behaviour), r.behaviour.after)
  }

  function ResultMessage(f: Finalized): Message {
    ToolResult(f.call.id, f.call.name, f.result.content, f.isError, f.result.status)
  }

  /** A terminating batch: not empty, and every result says so. */
  predicate Terminates(finals: seq<Finalized>) {
    finals != [] && forall i :: 0 <= i < |finals| ==> finals[i].result.terminate
  }

  // ---- what the events of a batch say ----------------------------------------------------------------

  function Outcomes(rs: seq<Request>): (fs: seq<Finalized>)
    ensures |fs| == |rs|
  {
    seq(|rs|, i requires 0 <= i < |rs| => Outcome(rs[i]))
  }

  /** How many calls are started. */
  function Started(es: seq<Event>): nat {
    if es == [] then 0 else Started(es[..|es| - 1]) + if es[|es| - 1].ToolStart? then 1 else 0
  }

  /** The events start the calls in source order, and end them in the given order, each with its
      outcome and none before its start. There are no other events. */
  predicate Follows(es: seq<Event>, rs: seq<Request>, order: seq<nat>)
    decreases |es|
  {
    if es == [] then order == []
    else
      var before, e := es[..|es| - 1], es[|es| - 1];
      match e
      case ToolStart(call) =>
        Follows(before, rs, order) && Started(before) < |rs| && call == rs[Started(before)].call
      case ToolEnd(final) =>
        && order != [] && Follows(before, rs, order[..|order| - 1])
        && order[|order| - 1] < Started(before) && order[|order| - 1] < |rs|
        && final == Outcome(rs[order[|order| - 1]])
      case _ => false
  }

  predicate Distinct<T(==)>(s: seq<T>) { forall i, j :: 0 <= i < j < |s| ==> s[i] != s[j] }

  /** The batch is complete: every call is started once, in source order, and ended once, after its start
      and with its outcome, in some order. */
  ghost predicate Complete(es: seq<Event>, rs: seq<Request>) {
    exists order: seq<nat> :: Follows(es, rs, order) && Started(es) == |rs| && |order| == |rs| && Distinct(order)
  }

  /** Some call is started and not ended. */
  ghost predicate LeavesOneOpen(es: seq<Event>, rs: seq<Request>) {
    exists order: seq<nat> :: Follows(es, rs, order) && Distinct(order) && |order| < Started(es)
  }

  lemma AddStart(es: seq<Event>, rs: seq<Request>, order: seq<nat>)
    requires Follows(es, rs, order) && Started(es) < |rs|
    ensures var es' := es + [ToolStart(rs[Started(es)].call)];
            Follows(es', rs, order) && Started(es') == Started(es) + 1
  {
    assert (es + [ToolStart(rs[Started(es)].call)])[..|es|] == es;
  }

  lemma AddEnd(es: seq<Event>, rs: seq<Request>, order: seq<nat>, i: nat)
    requires Follows(es, rs, order) && i < Started(es) && i < |rs|
    ensures var es' := es + [ToolEnd(Outcome(rs[i]))]; Follows(es', rs, order + [i]) && Started(es') == Started(es)
  {
    assert (es + [ToolEnd(Outcome(rs[i]))])[..|es|] == es;
    assert (order + [i])[..|order|] == order;
  }

  // ---- queues ----------------------------------------------------------------------------------------

  datatype QueueMode = All | OneAtATime

  class PendingMessageQueue {
    const mode: QueueMode
    var messages: seq<Message>
    /** All that was put in and all that was taken out since the queue was last cleared. */
    ghost var enqueued: seq<Message>
    ghost var taken: seq<Message>

    /** First in, first out, each message once. */
    ghost predicate Valid()
      reads this
    {
      enqueued == taken + messages
    }

    constructor (mode: QueueMode)
      ensures Valid() && messages == [] && taken == [] && this.mode == mode
    {
      this.mode := mode;
      messages, enqueued, taken := [], [], [];
    }

    method Enqueue(message: Message)
      requires Valid()
      modifies this
      ensures Valid() && messages == old(messages) + [message] && taken == old(taken)
      ensures enqueued == old(enqueued) + [message]
    {
      messages := messages + [message];
      enqueued := enqueued + [message];
    }

    method EnqueueAll(items: seq<Message>)
      requires Valid()
      modifies this
      ensures Valid() && messages == old(messages) + items && taken == old(taken)
      ensures enqueued == old(enqueued) + items
    {
      for i := 0 to |items|
        invariant Valid() && messages == old(messages) + items[..i] && taken == old(taken)
        invariant enqueued == old(enqueued) + items[..i]
      {
        Enqueue(items[i]);
      }
    }

    method Drain() returns (drained: seq<Message>)
      requires Valid()
      modifies this
      ensures Valid() && taken == old(taken) + drained && enqueued == old(enqueued)
      ensures drained == [] <==> old(messages) == []
      ensures mode.All? ==> drained == old(messages)
      ensures mode.OneAtATime? ==> |drained| <= 1
      ensures old(messages) == drained + messages
    {
      if mode == All {
        drained := messages;
        messages := [];
      } else if messages == [] {
        drained := [];
      } else {
        drained := [messages[0]];
        messages := messages[1..];
      }
      taken := taken + drained;
    }

    method Clear() returns (ghost discarded: seq<Message>)
      requires Valid()
      modifies this
      ensures Valid() && messages == [] && taken == [] && enqueued == []
      ensures discarded == old(messages)
    {
      discarded := messages;
      messages, enqueued, taken := [], [], [];
    }
  }

  // ---- the agent ---------------------------------------------------------------------------------------

  function Added(e: Event): seq<Message> {
    match e
    case MessageEnd(message) => [message]
    case TurnEnd(_, results) => results
    case _ => []
  }

  /** How many turns the events begin, and how many they end. */
  function Begun(es: seq<Event>): nat {
    if es == [] then 0 else Begun(es[..|es| - 1]) + if es[|es| - 1].TurnStart? then 1 else 0
  }

  function Ended(es: seq<Event>): nat {
    if es == [] then 0 else Ended(es[..|es| - 1]) + if es[|es| - 1].TurnEnd? then 1 else 0
  }

  lemma CountSnoc(es: seq<Event>, e: Event)
    ensures Begun(es + [e]) == Begun(es) + if e.TurnStart? then 1 else 0
    ensures Ended(es + [e]) == Ended(es) + if e.TurnEnd? then 1 else 0
  {
    assert (es + [e])[..|es|] == es;
  }

  lemma {:induction false} CountConcat(a: seq<Event>, b: seq<Event>)
    ensures Begun(a + b) == Begun(a) + Begun(b) && Ended(a + b) == Ended(a) + Ended(b)
  {
    if b == [] {
      assert a + b == a;
    } else {
      var n := |b| - 1;
      assert (a + b)[..|a + b| - 1] == a + b[..n] && (a + b)[|a + b| - 1] == b[n];
      CountConcat(a, b[..n]);
    }
  }

  lemma Join<T>(a: seq<T>, b: seq<T>, c: seq<T>)
    ensures (a + b) + c == a + (b + c)
  {
  }

  /** What the events add to a transcript. */
  function AddedAll(es: seq<Event>): seq<Message> {
    if es == [] then [] else AddedAll(es[..|es| - 1]) + Added(es[|es| - 1])
  }

  lemma AddedSnoc(es: seq<Event>, e: Event)
    ensures AddedAll(es + [e]) == AddedAll(es) + Added(e)
  {
    assert (es + [e])[..|es|] == es;
  }

  lemma {:induction false} AddedConcat(a: seq<Event>, b: seq<Event>)
    ensures AddedAll(a + b) == AddedAll(a) + AddedAll(b)
  {
    if b == [] {
      assert a + b == a;
    } else {
      var n := |b| - 1;
      AddedConcat(a, b[..n]);
      AddedMore(a, b[..n], b[n]);
      assert b[..n] + [b[n]] == b;
    }
  }

  lemma AddedMore(a: seq<Event>, b: seq<Event>, e: Event)
    requires AddedAll(a + b) == AddedAll(a) + AddedAll(b)
    ensures AddedAll(a + (b + [e])) == AddedAll(a) + AddedAll(b + [e])
  {
    AddedSnoc(a + b, e);
    AddedSnoc(b, e);
    Join(a, b, [e]);
    Join(AddedAll(a), AddedAll(b), Added(e));
  }

  lemma {:induction false} BatchCountsNothing(es: seq<Event>, rs: seq<Request>, order: seq<nat>)
    requires Follows(es, rs, order)
    ensures Begun(es) == 0 && Ended(es) == 0 && AddedAll(es) == []
    decreases |es|
  {
    if es != [] {
      BatchCountsNothing(es[..|es| - 1], rs, if es[|es| - 1].ToolEnd? then order[..|order| - 1] else order);
    }
  }

  class Agent {
    const steering: PendingMessageQueue
    const followUp: PendingMessageQueue
    /** The transcript the agent rebuilds from events. */
    var messages: seq<Message>
    var pendingToolCalls: set<string>
    var streaming: Option<Message>
    var active: bool
    var accepting: bool
    ghost var events: seq<Event>

    ghost predicate Valid()
      reads this, steering, followUp
    {
      && steering != followUp && steering.Valid() && followUp.Valid()
      && (!active ==> steering.taken == [] && followUp.taken == [] && pendingToolCalls == {} && streaming == None)
    }

    constructor (steeringMode: QueueMode, followUpMode: QueueMode)
      ensures Valid() && !active && messages == [] && events == []
      ensures fresh(steering) && fresh(followUp)
    {
      steering := new PendingMessageQueue(steeringMode);
      followUp := new PendingMessageQueue(followUpMode);
      messages, pendingToolCalls, streaming, active, accepting, events := [], {}, None, false, false, [];
    }

    /** _process_events */
    method ProcessEvents(e: Event)
      modifies `messages, `pendingToolCalls, `streaming, `accepting, `events
      ensures messages == old(messages) + Added(e) && events == old(events) + [e]
      ensures pendingToolCalls == if e.ToolStart? then old(pendingToolCalls) + {e.call.id}
                                  else if e.ToolEnd? then old(pendingToolCalls) - {e.final.call.id}
                                  else old(pendingToolCalls)
      ensures streaming == if e.MessageStart? then Some(e.message)
                           else if e.MessageEnd? || e.AgentEnd? then None else old(streaming)
      ensures accepting <==> old(accepting) && !e.AgentEnd?
    {
      match e {
        case MessageStart(message) => streaming := Some(message);
        case MessageEnd(message) =>
          streaming := None;
          messages := messages + [message];
        case ToolStart(call) => pendingToolCalls := pendingToolCalls + {call.id};
        case ToolEnd(final) => pendingToolCalls := pendingToolCalls - {final.call.id};
        case TurnEnd(_, results) => messages := messages + results;
        case AgentEnd(_) =>
          streaming := None;
          accepting := false;
        case AgentStart =>
        case TurnStart =>
      }
      events := events + [e];
    }
  }

  // ---- tool batches ------------------------------------------------------------------------------------

  datatype Batch = Done(finals: seq<Finalized>) | Escaped(what: string)

  predicate Escaping(rs: seq<Request>) { exists i :: 0 <= i < |rs| && Prepared(rs[i]).Escapes? }

  function Ids(rs: seq<Request>): set<string> { set r | r in rs :: r.call.id }

  /** What both strategies promise. Either a hook's exception escapes, which happens exactly when the
      hook raises for a tool that is not known, and leaves a call started but not ended; or the batch
      is complete and the results stand in source order. */
  ghost predicate Ran(b: Batch, added: seq<Event>, rs: seq<Request>) {
    && (b.Escaped? <==> Escaping(rs))
    && (b.Escaped? ==> LeavesOneOpen(added, rs))
    && (b.Done? ==> b.finals == Outcomes(rs) && Complete(added, rs))
  }
}
