/** The agent loop: an outer loop over follow-ups around an inner loop over tool turns and steering, and
    the transcript that the agent rebuilds from its events alone. */
module AgentRun {
  import opened Options
  import opened Agent
  import opened AgentRecord
  import opened AgentTools

  // ---- the pieces of a turn ------------------------------------------------------------------------------

  /** Each message goes through its start and end event. */
  method EmitMessages(agent: Agent, messages: seq<Message>)
    modifies agent`messages, agent`pendingToolCalls, agent`streaming, agent`accepting, agent`events
    ensures agent.messages == old(agent.messages) + messages && agent.events == old(agent.events) + Pairs(messages)
    ensures agent.pendingToolCalls == old(agent.pendingToolCalls)
  {
    for i := 0 to |messages|
      invariant agent.messages == old(agent.messages) + messages[..i]
                && agent.events == old(agent.events) + Pairs(messages[..i])
      invariant agent.pendingToolCalls == old(agent.pendingToolCalls)
    {
      assert messages[..i + 1][..i] == messages[..i];
      agent.ProcessEvents(MessageStart(messages[i]));
      agent.ProcessEvents(MessageEnd(messages[i]));
    }
    assert messages[..|messages|] == messages;
  }

  datatype Ending =
    | Goes(toolTurn: bool)           // the loop goes on; whether a tool turn is pending
    | Stops                          // an error or an abort, or all results of the batch say so
    | Broken                         // an exception escaped

  /** Every call is started and ended, or an exception escapes and leaves some call open. */
  ghost predicate ToolsRan(batch: seq<Event>, rs: seq<Request>, broken: bool) {
    (broken <==> Escaping(rs)) && if broken then LeavesOneOpen(batch, rs) else Complete(batch, rs)
  }

  lemma NoTools()
    ensures ToolsRan([], [], false)
  {
    var none: seq<nat> := [];
    assert Follows([], [], none) && Distinct(none);
  }

  method RunTools(agent: Agent, parallel: bool, rs: seq<Request>)
    returns (finals: seq<Finalized>, broken: Option<string>, ghost batch: seq<Event>)
    modifies agent`messages, agent`pendingToolCalls, agent`streaming, agent`accepting, agent`events
    ensures agent.messages == old(agent.messages) && agent.events == old(agent.events) + batch
    ensures ToolsRan(batch, rs, broken.Some?)
    ensures broken.None? ==> finals == Outcomes(rs) && agent.pendingToolCalls == old(agent.pendingToolCalls) - Ids(rs)
  {
    batch := [];
    if rs == [] {
      NoTools();
      return [], None, [];
    }
    var b;
    b, batch := ExecuteToolCalls(agent, parallel, rs);
    return if b.Done? then b.finals else [], if b.Done? then None else Some(b.what), batch;
  }

  /** The tools of an answer, and the end of its turn. */
  method Conclude(agent: Agent, parallel: bool, message: Message, rs: seq<Request>)
    returns (finals: seq<Finalized>, broken: Option<string>, ghost batch: seq<Event>)
    requires agent.pendingToolCalls == {}
    modifies agent`messages, agent`pendingToolCalls, agent`streaming, agent`accepting, agent`events
    ensures ToolsRan(batch, rs, broken.Some?)
    ensures broken.None? ==> finals == Outcomes(rs) && agent.pendingToolCalls == {}
    ensures broken.Some? ==> finals == []
    ensures agent.messages == old(agent.messages) + Results(finals)
    ensures agent.events == old(agent.events)
            + (batch + if broken.Some? then [] else [TurnEnd(message, Results(finals))])
  {
    finals, broken, batch := RunTools(agent, parallel, rs);
    if broken.Some? {
      finals := [];
    } else {
      Join(old(agent.events), batch, [TurnEnd(message, Results(finals))]);
      agent.ProcessEvents(TurnEnd(message, Results(finals)));
    }
  }

  /** The part of a turn that asks the model and runs the tools; what was injected is already in the
      transcript. */
  method Respond(agent: Agent, parallel: bool, response: Response)
    returns (reply: Option<Message>, finals: seq<Finalized>, broken: bool, ghost batch: seq<Event>)
    requires agent.pendingToolCalls == {}
    modifies agent`messages, agent`pendingToolCalls, agent`streaming, agent`accepting, agent`events
    ensures reply == Answer(response) && (broken <==> BreaksOff(response))
    ensures if response.Reply? then ToolsRan(batch, Wanted(response), broken) else batch == []
    ensures !broken ==> finals == Outcomes(Wanted(response)) && agent.pendingToolCalls == {}
    ensures broken ==> finals == []
    ensures agent.messages == old(agent.messages) + ((if reply.Some? then [reply.value] else []) + Results(finals))
    ensures agent.events == old(agent.events)
              + (Pairs(if reply.Some? then [reply.value] else [])
                 + (batch + if !broken && reply.Some? then [TurnEnd(reply.value, Results(finals))] else []))
  {
    reply, batch := Answer(response), [];
    if !response.Reply? {
      assert Results([]) == [];
      return reply, [], true, [];
    }
    EmitMessages(agent, [reply.value]);
    var what;
    finals, what, batch := Conclude(agent, parallel, reply.value, Wanted(response));
    broken := what.Some?;
    Join(old(agent.messages), [reply.value], Results(finals));
    Join(old(agent.events), Pairs([reply.value]),
         batch + if broken then [] else [TurnEnd(reply.value, Results(finals))]);
  }

  lemma AnswerIsPaired(origin: Origin, left: seq<Message>, injected: seq<Message>, response: Response,
                       batch: seq<Event>, check: Checkpoint)
    requires !BreaksOff(response)
    ensures Paired(Turn(origin, left, injected, Answer(response), batch, Results(Outcomes(Wanted(response))), true,
              check))
  {
    ResultsAnswer(Wanted(response));
  }

  /** What others queue during a turn. */
  method Arrive(agent: Agent, script: Script)
    requires agent.Valid()
    modifies agent.steering, agent.followUp
    ensures agent.Valid()
    ensures agent.steering.taken == old(agent.steering.taken) && agent.followUp.taken == old(agent.followUp.taken)
    ensures agent.steering.enqueued == old(agent.steering.enqueued) + script.steers
    ensures agent.followUp.enqueued == old(agent.followUp.enqueued) + script.followUps
  {
    agent.steering.EnqueueAll(script.steers);
    agent.followUp.EnqueueAll(script.followUps);
  }

  method Inject(agent: Agent, first: bool, pending: seq<Message>)
    modifies agent`messages, agent`pendingToolCalls, agent`streaming, agent`accepting, agent`events
    ensures agent.messages == old(agent.messages) + pending && agent.pendingToolCalls == old(agent.pendingToolCalls)
    ensures agent.events == old(agent.events) + Lead(first, pending)
  {
    if !first {
      agent.ProcessEvents(TurnStart);
    }
    EmitMessages(agent, pending);
    Join(old(agent.events), if first then [] else [TurnStart], Pairs(pending));
  }

  /** One round of the inner loop. Each turn has one end, and at it the agent's transcript is the
      loop's. The loop stops there on an error, an abort, or when all results of a batch say so. */
  method RunTurn(agent: Agent, parallel: bool, first: bool, context: seq<Message>, newMessages: seq<Message>,
                 pending: seq<Message>, script: Script, ghost origin: Origin)
    returns (context': seq<Message>, newMessages': seq<Message>, ending: Ending, ghost turn: Turn)
    requires agent.Valid() && agent.active && agent.messages == context && agent.pendingToolCalls == {}
    modifies agent`messages, agent`pendingToolCalls, agent`streaming, agent`accepting, agent`events, agent.steering,
             agent.followUp
    ensures agent.Valid()
    ensures turn.origin == origin && turn.injected == pending && turn.steeringLeft == old(agent.steering.messages)
    ensures turn.reply == Answer(script.response)
    ensures turn.finished <==> !BreaksOff(script.response)
    ensures Paired(turn) && context' == context + Said(turn) && newMessages' == newMessages + Said(turn)
    ensures agent.messages == context' && turn.check == Checkpoint(agent.messages, context', newMessages')
    ensures Batched(turn, script.response) && agent.events == old(agent.events) + TurnEvents(first, turn)
    ensures agent.messages == old(agent.messages) + AddedAll(TurnEvents(first, turn))
    ensures turn.finished ==> agent.pendingToolCalls == {}
    ensures ending == if !turn.finished then Broken
                      else if Hard(script.response.stop) || script.abortedAtEnd
                              || Terminates(Outcomes(Wanted(script.response))) then Stops
                      else Goes(script.response.requests != [])
    ensures agent.steering.taken == old(agent.steering.taken) && agent.followUp.taken == old(agent.followUp.taken)
    ensures agent.steering.enqueued == old(agent.steering.enqueued) + script.steers
    ensures agent.followUp.enqueued == old(agent.followUp.enqueued) + script.followUps
  {
    Inject(agent, first, pending);
    ghost var left := agent.steering.messages;
    Arrive(agent, script);
    var reply, finals, broken, batch := Respond(agent, parallel, script.response);
    var said := (if reply.Some? then [reply.value] else []) + Results(finals);
    context', newMessages' := context + (pending + said), newMessages + (pending + said);
    Join(context, pending, said);
    ghost var check := Checkpoint(agent.messages, context', newMessages');
    turn := Turn(origin, left, pending, reply, batch, Results(finals), !broken, check);
    Join(old(agent.events), Lead(first, pending), ReplyEvents(turn));
    TurnAdds(first, turn, script.response);
    if broken {
      ending := Broken;
    } else {
      AnswerIsPaired(origin, left, pending, script.response, batch, check);
      if Hard(reply.value.stop) || script.abortedAtEnd || Terminates(finals) {
        ending := Stops;
      } else {
        ending := Goes(finals != []);
      }
    }
  }

  // ---- the loop ------------------------------------------------------------------------------------------

  lemma TranscriptOfMore(turns: seq<Turn>, t: Turn)
    ensures Transcript(turns + [t]) == Transcript(turns) + Said(t)
    ensures forall o :: Injected(turns + [t], o) == Injected(turns, o) + if t.origin == o then t.injected else []
  {
    assert (turns + [t])[..|turns|] == turns;
  }

  lemma RecordMore(scripts: seq<Script>, turns: seq<Turn>, start: seq<Message>, prompts: seq<Message>, t: Turn)
    requires Recorded(scripts, turns, start, prompts) && |turns| < |scripts| && Open(scripts, turns)
    requires t.reply == Answer(scripts[|turns|].response) && (t.finished <==> !BreaksOff(scripts[|turns|].response))
    requires Paired(t) && InTime(turns, t) && InSync(t.check, start, prompts + (Transcript(turns) + Said(t)))
    ensures Recorded(scripts, turns + [t], start, prompts)
  {
    var more := turns + [t];
    assert more[..|turns|] == turns && more[|turns|] == t;
    assert Transcript(more) == Transcript(turns) + Said(t);
  }

  function Steers(scripts: seq<Script>, n: nat): seq<Message>
    requires n <= |scripts|
  {
    if n == 0 then [] else Steers(scripts, n - 1) + scripts[n - 1].steers
  }

  function FollowUps(scripts: seq<Script>, n: nat): seq<Message>
    requires n <= |scripts|
  {
    if n == 0 then [] else FollowUps(scripts, n - 1) + scripts[n - 1].followUps
  }

  /** Natural: nothing is left to do. Cancelled: the prompt is, while the model answers. Cut: the script ends
      before the run does. */
  datatype End = Natural | Stopped | Failed | Cancelled | Cut

  function Held(pending: seq<Message>, origin: Origin, o: Origin): seq<Message> { if origin == o then pending else [] }

  /** What was taken from each queue is what was injected, in order, and what is held to be injected next;
      and all that was queued is still accounted for. */
  ghost predicate Conserved(agent: Agent, run: Run, pending: seq<Message>, origin: Origin)
    reads agent, agent.steering, agent.followUp
  {
    && agent.Valid() && |run.turns| <= |run.scripts|
    && agent.steering.taken == Injected(run.turns, FromSteering) + Held(pending, origin, FromSteering)
    && agent.followUp.taken == Injected(run.turns, FromFollowUps) + Held(pending, origin, FromFollowUps)
    && agent.steering.enqueued == run.steers + Steers(run.scripts, |run.turns|)
    && agent.followUp.enqueued == run.followUps + FollowUps(run.scripts, |run.turns|)
  }

  /** A run: the transcript, the queues and the events it starts with, its prompts, the environment's script,
      and its turns so far. */
  datatype Run = Run(start: seq<Message>, prompts: seq<Message>, steers: seq<Message>, followUps: seq<Message>,
                     scripts: seq<Script>, events: seq<Event>, turns: seq<Turn>)

  function Produced(run: Run): seq<Message> { run.prompts + Transcript(run.turns) }

  /** Both transcripts say what the record says, and every turn has run its tools. */
  ghost predicate Agrees(agent: Agent, run: Run, context: seq<Message>, newMessages: seq<Message>)
    reads agent
  {
    && agent.active
    && |run.turns| <= |run.scripts| && Recorded(run.scripts, run.turns, run.start, run.prompts)
    && AllBatched(run.scripts, run.turns)
    && agent.messages == context == run.start + newMessages && newMessages == Produced(run)
  }

  /** And the agent has seen the events of the run. */
  ghost predicate Kept(agent: Agent, run: Run, context: seq<Message>, newMessages: seq<Message>)
    reads agent
  {
    Agrees(agent, run, context, newMessages) && agent.events == run.events + EventsOf(run.prompts, run.turns)
  }

  /** Between two turns, before the queues are polled. */
  ghost predicate Rested(agent: Agent, run: Run, context: seq<Message>, newMessages: seq<Message>)
    reads agent, agent.steering, agent.followUp
  {
    && Kept(agent, run, context, newMessages) && Open(run.scripts, run.turns) && agent.pendingToolCalls == {}
    && Conserved(agent, run, [], FromSteering)
  }

  predicate LastWithoutCalls(turns: seq<Turn>) { turns != [] && WithoutCalls(turns[|turns| - 1]) }

  /** Before a turn, with the messages to inject. */
  ghost predicate Ready(agent: Agent, run: Run, context: seq<Message>, newMessages: seq<Message>, pending: seq<Message>,
                        origin: Origin)
    reads agent, agent.steering, agent.followUp
  {
    && Kept(agent, run, context, newMessages) && Open(run.scripts, run.turns) && agent.pendingToolCalls == {}
    && Conserved(agent, run, pending, origin)
    && (pending == [] ==> agent.steering.messages == [])
    && (origin.FromFollowUps? ==> agent.steering.messages == [] && pending != [] && LastWithoutCalls(run.turns))
  }

  /** How a run that is over has ended. */
  ghost predicate EndsAs(end: End, agent: Agent, run: Run, held: seq<Message>)
    reads agent, agent.steering, agent.followUp
  {
    && |run.turns| <= |run.scripts| && (!end.Cut? ==> run.turns != [] && held == [])
    && match end
       case Natural => Open(run.scripts, run.turns) && LastWithoutCalls(run.turns)
                       && agent.steering.messages == [] && agent.followUp.messages == []
       case Stopped => !BreaksOff(run.scripts[|run.turns| - 1].response) && StopsAt(run.scripts[|run.turns| - 1])
       case Failed => BreaksOff(run.scripts[|run.turns| - 1].response)
         && !run.scripts[|run.turns| - 1].response.Withdrawn?
       case Cancelled => run.scripts[|run.turns| - 1].response.Withdrawn?
       case Cut => |run.turns| == |run.scripts|
  }

  /** One turn of the run, and its record. */
  method TakeTurn(agent: Agent, parallel: bool, first: bool, context: seq<Message>, newMessages: seq<Message>,
                  pending: seq<Message>, script: Script, ghost origin: Origin, ghost run: Run)
    returns (context': seq<Message>, newMessages': seq<Message>, end: Option<End>, toolTurn: bool, ghost run': Run)
    requires Ready(agent, run, context, newMessages, pending, origin)
    requires |run.turns| < |run.scripts| && script == run.scripts[|run.turns|] && (first <==> run.turns == [])
    modifies agent`messages, agent`pendingToolCalls, agent`streaming, agent`accepting, agent`events, agent.steering,
             agent.followUp
    ensures |run'.turns| == |run.turns| + 1 && run' == run.(turns := run'.turns)
    ensures Turned(agent, run', end, toolTurn, context', newMessages')
  {
    ghost var t;
    var ending;
    context', newMessages', ending, t := RunTurn(agent, parallel, first, context, newMessages, pending, script, origin);
    end := if ending.Goes? then None else Some(if ending.Stops? then Stopped else HowBroken(script.response));
    toolTurn := ending.Goes? && ending.toolTurn;
    run' := run.(turns := run.turns + [t]);
    WentAs(t, script, ending, end, toolTurn);
    Join(run.start, newMessages, Said(t));
    TurnRecorded(agent, run, t, end, toolTurn, context', newMessages');
  }

  lemma TurnRecorded(agent: Agent, run: Run, t: Turn, end: Option<End>, toolTurn: bool, context: seq<Message>,
                     newMessages: seq<Message>)
    requires agent.Valid() && agent.active && |run.turns| < |run.scripts|
    requires Recorded(run.scripts, run.turns, run.start, run.prompts) && Open(run.scripts, run.turns)
    requires AllBatched(run.scripts, run.turns)
    requires Went(t, run.scripts[|run.turns|], end, toolTurn) && (t.finished ==> agent.pendingToolCalls == {})
    requires InTime(run.turns, t) && t.check == Checkpoint(agent.messages, context, newMessages)
    requires agent.messages == context == run.start + newMessages && newMessages == Produced(run) + Said(t)
    requires agent.events == run.events + EventsOf(run.prompts, run.turns) + TurnEvents(run.turns == [], t)
    requires agent.steering.taken == Injected(run.turns, FromSteering) + Held(t.injected, t.origin, FromSteering)
    requires agent.followUp.taken == Injected(run.turns, FromFollowUps) + Held(t.injected, t.origin, FromFollowUps)
    requires agent.steering.enqueued == run.steers + Steers(run.scripts, |run.turns|) + run.scripts[|run.turns|].steers
    requires agent.followUp.enqueued == run.followUps + FollowUps(run.scripts, |run.turns|)
             + run.scripts[|run.turns|].followUps
    ensures Turned(agent, run.(turns := run.turns + [t]), end, toolTurn, context, newMessages)
  {
    KeptAfter(agent, run, t, context, newMessages);
    ConservedAfter(agent, run, t);
    TurnTaken(agent, run.(turns := run.turns + [t]), t, end, toolTurn, context, newMessages);
  }

  /** How a turn answers its script, and whether the run is over with it. */
  ghost predicate Went(t: Turn, script: Script, end: Option<End>, toolTurn: bool) {
    && t.reply == Answer(script.response) && (t.finished <==> !BreaksOff(script.response))
    && Paired(t) && Batched(t, script.response)
    && end == (if !t.finished then Some(HowBroken(script.response)) else if StopsAt(script) then Some(Stopped)
         else None)
    && (end.None? ==> (toolTurn <==> script.response.requests != []))
  }

  lemma WentAs(t: Turn, script: Script, ending: Ending, end: Option<End>, toolTurn: bool)
    requires t.reply == Answer(script.response) && (t.finished <==> !BreaksOff(script.response))
    requires Paired(t) && Batched(t, script.response)
    requires ending == if !t.finished then Broken
                       else if Hard(script.response.stop) || script.abortedAtEnd
                               || Terminates(Outcomes(Wanted(script.response))) then Stops
                       else Goes(script.response.requests != [])
    requires end == if ending.Goes? then None else Some(if ending.Stops? then Stopped else HowBroken(script.response))
    requires toolTurn <==> ending.Goes? && ending.toolTurn
    ensures Went(t, script, end, toolTurn)
  {
  }

  function HowBroken(response: Response): End { if response.Withdrawn? then End.Cancelled else End.Failed }

  /** How things stand after the last turn of the record. */
  ghost predicate Turned(agent: Agent, run: Run, end: Option<End>, toolTurn: bool, context: seq<Message>,
                         newMessages: seq<Message>)
    reads agent, agent.steering, agent.followUp
  {
    && Kept(agent, run, context, newMessages) && Conserved(agent, run, [], FromSteering)
    && (end.Some? ==> !end.value.Natural? && EndsAs(end.value, agent, run, []))
    && (end.None? ==> Rested(agent, run, context, newMessages) && (toolTurn <==> !LastWithoutCalls(run.turns)))
  }

  lemma TurnTaken(agent: Agent, run: Run, t: Turn, end: Option<End>, toolTurn: bool, context: seq<Message>,
                  newMessages: seq<Message>)
    requires Kept(agent, run, context, newMessages) && Conserved(agent, run, [], FromSteering)
    requires run.turns != [] && t == run.turns[|run.turns| - 1]
    requires Went(t, run.scripts[|run.turns| - 1], end, toolTurn) && (t.finished ==> agent.pendingToolCalls == {})
    ensures Turned(agent, run, end, toolTurn, context, newMessages)
  {
  }

  lemma BatchedMore(scripts: seq<Script>, turns: seq<Turn>, t: Turn)
    requires AllBatched(scripts, turns) && |turns| < |scripts| && Batched(t, scripts[|turns|].response)
    ensures AllBatched(scripts, turns + [t])
  {
    forall i: nat {:trigger BatchedAt(scripts, turns + [t], i)} | i < |turns + [t]|
      ensures BatchedAt(scripts, turns + [t], i)
    {
      if i < |turns| { assert BatchedAt(scripts, turns, i); }
    }
  }

  /** The record grows by the turn, both transcripts by what was said in it, and the events by its events. */
  lemma KeptAfter(agent: Agent, run: Run, t: Turn, context: seq<Message>, newMessages: seq<Message>)
    requires agent.active && |run.turns| < |run.scripts|
    requires Recorded(run.scripts, run.turns, run.start, run.prompts) && Open(run.scripts, run.turns)
    requires AllBatched(run.scripts, run.turns) && Batched(t, run.scripts[|run.turns|].response)
    requires t.reply == Answer(run.scripts[|run.turns|].response)
    requires t.finished <==> !BreaksOff(run.scripts[|run.turns|].response)
    requires Paired(t) && InTime(run.turns, t) && t.check == Checkpoint(agent.messages, context, newMessages)
    requires agent.messages == context == run.start + newMessages && newMessages == Produced(run) + Said(t)
    requires agent.events == run.events + EventsOf(run.prompts, run.turns) + TurnEvents(run.turns == [], t)
    ensures Kept(agent, run.(turns := run.turns + [t]), context, newMessages)
  {
    Join(run.prompts, Transcript(run.turns), Said(t));
    TranscriptOfMore(run.turns, t);
    RecordMore(run.scripts, run.turns, run.start, run.prompts, t);
    BatchedMore(run.scripts, run.turns, t);
    EventsSnoc(run.prompts, run.turns, t);
    Join(run.events, EventsOf(run.prompts, run.turns), TurnEvents(run.turns == [], t));
  }

  /** What was held to be injected has been injected, and what was queued in the turn is accounted for. */
  lemma ConservedAfter(agent: Agent, run: Run, t: Turn)
    requires agent.Valid() && |run.turns| < |run.scripts|
    requires agent.steering.taken == Injected(run.turns, FromSteering) + Held(t.injected, t.origin, FromSteering)
    requires agent.followUp.taken == Injected(run.turns, FromFollowUps) + Held(t.injected, t.origin, FromFollowUps)
    requires agent.steering.enqueued == run.steers + Steers(run.scripts, |run.turns|) + run.scripts[|run.turns|].steers
    requires agent.followUp.enqueued == run.followUps + FollowUps(run.scripts, |run.turns|)
             + run.scripts[|run.turns|].followUps
    ensures Conserved(agent, run.(turns := run.turns + [t]), [], FromSteering)
  {
    TranscriptOfMore(run.turns, t);
    Join(run.steers, Steers(run.scripts, |run.turns|), run.scripts[|run.turns|].steers);
    Join(run.followUps, FollowUps(run.scripts, |run.turns|), run.scripts[|run.turns|].followUps);
  }

  /** The poll of the steering queue after a turn. */
  method PollSteering(agent: Agent, ghost context: seq<Message>, ghost newMessages: seq<Message>, ghost run: Run)
    returns (pending: seq<Message>)
    requires Rested(agent, run, context, newMessages)
    modifies agent.steering
    ensures Ready(agent, run, context, newMessages, pending, FromSteering)
  {
    pending := agent.steering.Drain();
    Nothing(Injected(run.turns, FromSteering), pending);
    ReadyWith(agent, run, context, newMessages, pending, FromSteering);
  }

  lemma Nothing<T>(a: seq<T>, b: seq<T>)
    ensures a + [] == a && a + [] + b == a + b
  {
  }

  lemma ReadyWith(agent: Agent, run: Run, context: seq<Message>, newMessages: seq<Message>, pending: seq<Message>,
                  origin: Origin)
    requires Kept(agent, run, context, newMessages) && Open(run.scripts, run.turns) && agent.pendingToolCalls == {}
    requires agent.Valid() && |run.turns| <= |run.scripts|
    requires agent.steering.taken == Injected(run.turns, FromSteering) + Held(pending, origin, FromSteering)
    requires agent.followUp.taken == Injected(run.turns, FromFollowUps) + Held(pending, origin, FromFollowUps)
    requires agent.steering.enqueued == run.steers + Steers(run.scripts, |run.turns|)
    requires agent.followUp.enqueued == run.followUps + FollowUps(run.scripts, |run.turns|)
    requires pending == [] ==> agent.steering.messages == []
    requires origin.FromFollowUps? ==> agent.steering.messages == [] && pending != [] && LastWithoutCalls(run.turns)
    ensures Ready(agent, run, context, newMessages, pending, origin)
  {
  }

  /** The poll of the follow-up queue once the inner loop has stopped. */
  method PollFollowUps(agent: Agent, ghost context: seq<Message>, ghost newMessages: seq<Message>, ghost run: Run,
                       ghost origin: Origin)
    returns (pending: seq<Message>)
    requires Ready(agent, run, context, newMessages, [], origin) && LastWithoutCalls(run.turns)
    modifies agent.followUp
    ensures pending != [] ==> Ready(agent, run, context, newMessages, pending, FromFollowUps)
    ensures pending == [] ==> Rested(agent, run, context, newMessages) && EndsAs(Natural, agent, run, [])
  {
    pending := agent.followUp.Drain();
    Nothing(Injected(run.turns, FromSteering), []);
    Nothing(Injected(run.turns, FromFollowUps), pending);
    if pending != [] { ReadyWith(agent, run, context, newMessages, pending, FromFollowUps); }
  }

  /** The inner loop: tool turns and steering, until neither is left. */
  method InnerLoop(agent: Agent, parallel: bool, context: seq<Message>, newMessages: seq<Message>,
                   pending: seq<Message>, scripts: seq<Script>, i: nat, ghost origin: Origin, ghost run: Run)
    returns (context': seq<Message>, newMessages': seq<Message>, i': nat, end: Option<End>, ghost run': Run,
             ghost held: seq<Message>, ghost origin': Origin)
    requires Ready(agent, run, context, newMessages, pending, origin) && i == |run.turns| && scripts == run.scripts
    modifies agent`messages, agent`pendingToolCalls, agent`streaming, agent`accepting, agent`events, agent.steering,
             agent.followUp
    ensures run' == run.(turns := run'.turns) && i <= i' == |run'.turns| <= |scripts|
    ensures end.None? ==>
              i < i' && Ready(agent, run', context', newMessages', [], origin') && LastWithoutCalls(run'.turns)
    ensures end.Some? ==> !end.value.Natural? && EndsAs(end.value, agent, run', held)
    ensures end.Some? ==> Kept(agent, run', context', newMessages') && Conserved(agent, run', held, origin')
  {
    var hasMore, queue := true, pending;
    context', newMessages', i', run', origin' := context, newMessages, i, run, origin;
    while hasMore || queue != []
      invariant Ready(agent, run', context', newMessages', queue, origin')
      invariant run' == run.(turns := run'.turns) && i <= i' == |run'.turns| <= |scripts|
      invariant !hasMore ==> i < i' && LastWithoutCalls(run'.turns)
      decreases |scripts| - i'
    {
      if i' == |scripts| {
        end, held := Some(Cut), queue;
        return;
      }
      context', newMessages', end, hasMore, run' :=
        TakeTurn(agent, parallel, i' == 0, context', newMessages', queue, scripts[i'], origin', run');
      i', origin' := i' + 1, FromSteering;
      if end.Some? {
        held := [];
        return;
      }
      queue := PollSteering(agent, context', newMessages', run');
    }
    end, held := None, [];
  }

  /** The events behind the last turn. */
  function Closing(end: End, newMessages: seq<Message>): seq<Event> {
    if end.Natural? || end.Stopped? then [AgentEnd(newMessages)] else []
  }

  /** agent_end, unless an exception, a cancellation or the end of the script has cut the run short. */
  method Announce(agent: Agent, end: End, context: seq<Message>, newMessages: seq<Message>, ghost run: Run,
                  ghost held: seq<Message>, ghost origin: Origin)
    requires Kept(agent, run, context, newMessages) && Conserved(agent, run, held, origin)
             && EndsAs(end, agent, run, held)
    modifies agent`messages, agent`pendingToolCalls, agent`streaming, agent`accepting, agent`events
    ensures Agrees(agent, run, context, newMessages) && Conserved(agent, run, held, origin)
            && EndsAs(end, agent, run, held)
    ensures agent.events == run.events + EventsOf(run.prompts, run.turns) + Closing(end, newMessages)
  {
    if end.Natural? || end.Stopped? {
      agent.ProcessEvents(AgentEnd(newMessages));
    }
  }

  /** The outer loop: the inner loop again for as long as there are follow-ups. */
  method OuterLoop(agent: Agent, parallel: bool, context: seq<Message>, newMessages: seq<Message>, first: seq<Message>,
                   scripts: seq<Script>, ghost run: Run)
    returns (end: End, context': seq<Message>, newMessages': seq<Message>, ghost run': Run, ghost held: seq<Message>,
               ghost origin: Origin)
    requires Ready(agent, run, context, newMessages, first, FromSteering) && run.turns == [] && scripts == run.scripts
    modifies agent`messages, agent`pendingToolCalls, agent`streaming, agent`accepting, agent`events, agent.steering,
             agent.followUp
    ensures run' == run.(turns := run'.turns)
    ensures Kept(agent, run', context', newMessages') && Conserved(agent, run', held, origin)
            && EndsAs(end, agent, run', held)
  {
    var i, stop, pending := 0, None, first;
    context', newMessages', run', held, origin := context, newMessages, run, [], FromSteering;
    while true
      invariant Ready(agent, run', context', newMessages', pending, origin)
      invariant run' == run.(turns := run'.turns) && i == |run'.turns| <= |scripts|
      decreases |scripts| - i
    {
      context', newMessages', i, stop, run', held, origin :=
        InnerLoop(agent, parallel, context', newMessages', pending, scripts, i, origin, run');
      if stop.Some? {
        end := stop.value;
        return;
      }
      pending := PollFollowUps(agent, context', newMessages', run', origin);
      if pending == [] {
        end, held, origin := Natural, [], FromSteering;
        return;
      }
      origin := FromFollowUps;
    }
  }

  /** _run_loop. Whatever the model, the tools and the queues do, the run is recorded as it should be,
      what each queue gave out is what was injected, in order, and a run that ends by itself leaves
      nothing in either queue. */
  method RunLoop(agent: Agent, parallel: bool, context: seq<Message>, newMessages: seq<Message>, scripts: seq<Script>,
                 ghost run: Run)
    returns (end: End, newMessages': seq<Message>, ghost run': Run, ghost held: seq<Message>, ghost origin: Origin)
    requires Rested(agent, run, context, newMessages) && run.turns == [] && scripts == run.scripts
    modifies agent`messages, agent`pendingToolCalls, agent`streaming, agent`accepting, agent`events, agent.steering,
             agent.followUp
    ensures run' == run.(turns := run'.turns)
    ensures Agrees(agent, run', agent.messages, newMessages') && Conserved(agent, run', held, origin)
    ensures EndsAs(end, agent, run', held)
    ensures agent.events == run'.events + EventsOf(run'.prompts, run'.turns) + Closing(end, newMessages')
  {
    var context';
    var pending := PollSteering(agent, context, newMessages, run);
    end, context', newMessages', run', held, origin :=
      OuterLoop(agent, parallel, context, newMessages, pending, scripts, run);
    Announce(agent, end, context', newMessages', run', held, origin);
  }

  // ---- a prompt --------------------------------------------------------------------------------------------

  const FAILURE := Assistant("", [], Errored)

  const FAILURE_EVENTS := Pairs([FAILURE]) + [TurnEnd(FAILURE, []), AgentEnd([FAILURE])]

  /** _handle_run_failure; the error's text and whether it counts as an abort are left out. */
  method HandleRunFailure(agent: Agent)
    modifies agent`messages, agent`pendingToolCalls, agent`streaming, agent`accepting, agent`events
    ensures agent.messages == old(agent.messages) + [FAILURE] && agent.events == old(agent.events) + FAILURE_EVENTS
  {
    EmitMessages(agent, [FAILURE]);
    agent.ProcessEvents(TurnEnd(FAILURE, []));
    agent.ProcessEvents(AgentEnd([FAILURE]));
  }

  lemma FailureAdds()
    ensures Begun(FAILURE_EVENTS) == 0 && Ended(FAILURE_EVENTS) == 1 && AddedAll(FAILURE_EVENTS) == [FAILURE]
  {
    PairsAdd([FAILURE]);
    FailureEnds();
    AddsNoMore(Pairs([FAILURE]), [TurnEnd(FAILURE, []), AgentEnd([FAILURE])]);
  }

  lemma AddsNoMore(a: seq<Event>, b: seq<Event>)
    requires AddedAll(b) == []
    ensures Begun(a + b) == Begun(a) + Begun(b) && Ended(a + b) == Ended(a) + Ended(b) && AddedAll(a + b) == AddedAll(a)
  {
    Measured(a, b);
  }

  lemma FailureEnds()
    ensures var es := [TurnEnd(FAILURE, []), AgentEnd([FAILURE])];
            Begun(es) == 0 && Ended(es) == 1 && AddedAll(es) == []
  {
    var end := TurnEnd(FAILURE, []);
    CountSnoc([], end);
    AddedSnoc([], end);
    assert [] + [end] == [end];
    CountSnoc([end], AgentEnd([FAILURE]));
    AddedSnoc([end], AgentEnd([FAILURE]));
    assert [end] + [AgentEnd([FAILURE])] == [end, AgentEnd([FAILURE])];
  }

  /** _finish_run: what is left in the queues belongs to this run and is thrown away with it. */
  method FinishRun(agent: Agent) returns (ghost steersLost: seq<Message>, ghost followUpsLost: seq<Message>)
    requires agent.Valid()
    modifies agent`pendingToolCalls, agent`streaming, agent`active, agent.steering, agent.followUp
    ensures agent.Valid() && !agent.active && agent.steering.messages == [] && agent.followUp.messages == []
    ensures old(agent.steering.enqueued) == old(agent.steering.taken) + steersLost
            && steersLost == old(agent.steering.messages)
    ensures old(agent.followUp.enqueued) == old(agent.followUp.taken) + followUpsLost
            && followUpsLost == old(agent.followUp.messages)
  {
    steersLost := agent.steering.Clear();
    followUpsLost := agent.followUp.Clear();
    agent.streaming, agent.pendingToolCalls, agent.active := None, {}, false;
  }

  /** The events behind the last turn of a run that is over, the failure message included. */
  function Aftermath(end: End, newMessages: seq<Message>): seq<Event> {
    if end.Failed? then FAILURE_EVENTS else Closing(end, newMessages)
  }

  /** The queues are empty, and all that was in them has been injected, in order and once, up to what is lost. */
  ghost predicate Emptied(agent: Agent, run: Run, steersLost: seq<Message>, followUpsLost: seq<Message>)
    reads agent, agent.steering, agent.followUp
  {
    && |run.turns| <= |run.scripts| && agent.steering.messages == [] && agent.followUp.messages == []
    && !agent.active && agent.pendingToolCalls == {}
    && run.steers + Steers(run.scripts, |run.turns|) == Injected(run.turns, FromSteering) + steersLost
    && run.followUps + FollowUps(run.scripts, |run.turns|) == Injected(run.turns, FromFollowUps) + followUpsLost
  }

  /** The end of a run, with or without an exception. */
  method Settle(agent: Agent, end: End, ghost run: Run, ghost newMessages: seq<Message>, ghost origin: Origin)
    returns (ghost steersLost: seq<Message>, ghost followUpsLost: seq<Message>)
    requires Agrees(agent, run, agent.messages, newMessages) && Conserved(agent, run, [], origin)
             && EndsAs(end, agent, run, [])
    requires agent.events == run.events + EventsOf(run.prompts, run.turns) + Closing(end, newMessages) && !end.Cut?
    modifies agent`messages, agent`pendingToolCalls, agent`streaming, agent`accepting, agent`events, agent`active
    modifies agent.steering, agent.followUp
    ensures agent.Valid() && Emptied(agent, run, steersLost, followUpsLost)
    ensures agent.messages == run.start + newMessages + if end.Failed? then [FAILURE] else []
    ensures agent.events == run.events + EventsOf(run.prompts, run.turns) + Aftermath(end, newMessages)
    ensures end.Natural? ==> steersLost == [] && followUpsLost == []
  {
    if end.Failed? {
      HandleRunFailure(agent);
      assert run.events + EventsOf(run.prompts, run.turns) + [] == run.events + EventsOf(run.prompts, run.turns);
    }
    steersLost, followUpsLost := FinishRun(agent);
  }

  lemma RecordedFinish(scripts: seq<Script>, turns: seq<Turn>, start: seq<Message>, prompts: seq<Message>)
    requires Recorded(scripts, turns, start, prompts) && turns != []
    ensures |turns| <= |scripts| && (turns[|turns| - 1].finished <==> !BreaksOff(scripts[|turns| - 1].response))
  {
  }

  /** The start of run_agent_loop: the prompts go to both transcripts. */
  method BeginRun(agent: Agent, prompts: seq<Message>, scripts: seq<Script>)
    returns (context: seq<Message>, ghost run: Run)
    requires agent.Valid() && !agent.active
    modifies agent`messages, agent`pendingToolCalls, agent`streaming, agent`active, agent`accepting, agent`events
    ensures run == Run(old(agent.messages), prompts, old(agent.steering.messages), old(agent.followUp.messages),
                        scripts, old(agent.events), [])
    ensures Rested(agent, run, context, prompts)
  {
    run := Run(agent.messages, prompts, agent.steering.messages, agent.followUp.messages, scripts, agent.events, []);
    context := agent.messages + prompts;
    agent.active, agent.accepting, agent.streaming := true, true, None;
    EmitStart(agent);
    EmitMessages(agent, prompts);
    Join(run.events, [AgentStart] + [TurnStart], Pairs(prompts));
    RestedAtStart(agent, run, context);
  }

  /** agent_start and the start of the first turn. */
  method EmitStart(agent: Agent)
    modifies agent`messages, agent`pendingToolCalls, agent`streaming, agent`accepting, agent`events
    ensures agent.messages == old(agent.messages) && agent.pendingToolCalls == old(agent.pendingToolCalls)
    ensures agent.events == old(agent.events) + ([AgentStart] + [TurnStart])
  {
    agent.ProcessEvents(AgentStart);
    agent.ProcessEvents(TurnStart);
  }

  lemma RestedAtStart(agent: Agent, run: Run, context: seq<Message>)
    requires agent.Valid() && agent.active && agent.pendingToolCalls == {} && run.turns == []
    requires agent.messages == context == run.start + run.prompts
    requires agent.events == run.events + ([AgentStart] + [TurnStart] + Pairs(run.prompts))
    requires agent.steering.taken == [] && agent.followUp.taken == []
    requires agent.steering.enqueued == run.steers && agent.followUp.enqueued == run.followUps
    ensures Rested(agent, run, context, run.prompts)
  {
    assert run.prompts + Transcript([]) == run.prompts;
    assert run.steers + [] == run.steers && run.followUps + [] == run.followUps;
  }

  /** What the events of a whole run come to. */
  lemma RunMeasures(run: Run, end: End, newMessages: seq<Message>)
    requires Recorded(run.scripts, run.turns, run.start, run.prompts) && AllBatched(run.scripts, run.turns)
    ensures var es, n := EventsOf(run.prompts, run.turns) + Aftermath(end, newMessages), |run.turns|;
            && AddedAll(es) == Produced(run) + (if end.Failed? then [FAILURE] else [])
            && Begun(es) == (if n == 0 then 1 else n)
            && Ended(es) == Finishes(run.turns, n) + if end.Failed? then 1 else 0
  {
    var n := |run.turns|;
    RecordTells(run.scripts, run.turns, run.start, run.prompts);
    EventsAdd(run.turns, run.prompts, n);
    assert run.turns[..n] == run.turns;
    AftermathAdds(end, newMessages);
    Measured(EventsOf(run.prompts, run.turns), Aftermath(end, newMessages));
  }

  lemma AftermathAdds(end: End, newMessages: seq<Message>)
    ensures var es := Aftermath(end, newMessages);
            && AddedAll(es) == (if end.Failed? then [FAILURE] else [])
            && Begun(es) == 0 && Ended(es) == if end.Failed? then 1 else 0
  {
    if end.Failed? {
      FailureAdds();
    } else if end.Natural? || end.Stopped? {
      assert [AgentEnd(newMessages)][..0] == [];
    }
  }

  /** What a run that is over, or cut off by its script, has brought about. */
  ghost predicate Over(run: Run, end: End, events: seq<Event>, messages: seq<Message>) {
    && |run.turns| <= |run.scripts| && Recorded(run.scripts, run.turns, run.start, run.prompts)
       && AllBatched(run.scripts, run.turns)
    && events == run.events + EventsOf(run.prompts, run.turns) + Aftermath(end, Produced(run))
    && messages == run.start + Produced(run) + if end.Failed? then [FAILURE] else []
  }

  /** How the last turn went tells how the run ended. */
  ghost predicate EndsBy(run: Run, end: End) {
    && 0 < |run.turns| <= |run.scripts|
    && var last := run.scripts[|run.turns| - 1];
       && (end.Cancelled? <==> last.response.Withdrawn?)
       && (end.Failed? <==> BreaksOff(last.response) && !last.response.Withdrawn?)
       && (end.Stopped? <==> !BreaksOff(last.response) && StopsAt(last))
  }

  lemma OverTold(run: Run, end: End, events: seq<Event>, messages: seq<Message>)
    requires Over(run, end, events, messages)
    ensures var es := EventsOf(run.prompts, run.turns) + Aftermath(end, Produced(run));
            events == run.events + es && messages == run.start + AddedAll(es)
  {
    RunMeasures(run, end, Produced(run));
    Join(run.events, EventsOf(run.prompts, run.turns), Aftermath(end, Produced(run)));
    Join(run.start, Produced(run), if end.Failed? then [FAILURE] else []);
  }

  lemma OverCounted(run: Run, end: End, events: seq<Event>, messages: seq<Message>)
    requires Over(run, end, events, messages) && EndsBy(run, end)
    ensures Begun(events) == Begun(run.events) + |run.turns|
    ensures Ended(events) == Ended(run.events) + |run.turns| - if end.Cancelled? then 1 else 0
  {
    OverTold(run, end, events, messages);
    RunMeasures(run, end, Produced(run));
    RecordedFinish(run.scripts, run.turns, run.start, run.prompts);
    CountConcat(run.events, EventsOf(run.prompts, run.turns) + Aftermath(end, Produced(run)));
  }

  lemma EndsAsEndsBy(agent: Agent, run: Run, end: End)
    requires EndsAs(end, agent, run, []) && Recorded(run.scripts, run.turns, run.start, run.prompts) && !end.Cut?
    ensures EndsBy(run, end) && (end.Natural? ==> Open(run.scripts, run.turns) && LastWithoutCalls(run.turns))
  {
    RecordedFinish(run.scripts, run.turns, run.start, run.prompts);
  }

  /** A prompt that is accepted. */
  method RunPrompt(agent: Agent, parallel: bool, prompts: seq<Message>, scripts: seq<Script>)
    returns (end: End, ghost run: Run, ghost steersLost: seq<Message>, ghost followUpsLost: seq<Message>)
    requires agent.Valid() && !agent.active
    modifies agent, agent.steering, agent.followUp
    ensures agent.Valid() && Over(run, end, agent.events, agent.messages)
    ensures run == Run(old(agent.messages), prompts, old(agent.steering.messages), old(agent.followUp.messages),
                        scripts, old(agent.events), run.turns)
    ensures !end.Cut? ==> EndsBy(run, end) && Emptied(agent, run, steersLost, followUpsLost)
    ensures end.Natural? ==>
              && steersLost == [] && followUpsLost == []
              && Open(scripts, run.turns) && LastWithoutCalls(run.turns)
    ensures end.Cut? ==>
              && |run.turns| == |scripts| && agent.active
              && exists held, origin :: Conserved(agent, run, held, origin)
  {
    steersLost, followUpsLost := [], [];
    var context, newMessages;
    ghost var held, origin;
    context, run := BeginRun(agent, prompts, scripts);
    end, newMessages, run, held, origin := RunLoop(agent, parallel, context, prompts, scripts, run);
    if end.Cut? {
      assert run.start + newMessages + [] == run.start + newMessages;
    } else {
      EndsAsEndsBy(agent, run, end);
      steersLost, followUpsLost := Settle(agent, end, run, newMessages, origin);
    }
  }

  /** Agent.prompt, with the lifecycle around the loop. A run that is over leaves the agent idle with
      empty queues. The events are those of the turns, each of which has run its tools, and what closes the
      run; the transcript has grown by exactly what the events say: the prompts, the turns, and one error
      message when an exception ended the run. Of each queue, everything that was in it or was put in during
      the run was injected, in order and once, up to what is thrown away at the end; and a run that ends by
      itself throws nothing away. */
  method Prompt(agent: Agent, parallel: bool, prompts: seq<Message>, scripts: seq<Script>)
    returns (accepted: bool, end: End, ghost run: Run, ghost steersLost: seq<Message>,
               ghost followUpsLost: seq<Message>)
    requires agent.Valid()
    modifies agent, agent.steering, agent.followUp
    ensures agent.Valid() && (accepted <==> !old(agent.active))
    ensures !accepted ==> agent.messages == old(agent.messages) && agent.events == old(agent.events) && agent.active
    ensures accepted ==>
              run == Run(old(agent.messages), prompts, old(agent.steering.messages), old(agent.followUp.messages),
                        scripts, old(agent.events), run.turns)
    ensures accepted ==> |run.turns| <= |scripts| && Recorded(scripts, run.turns, old(agent.messages), prompts)
    ensures accepted ==> AllBatched(scripts, run.turns)
    ensures accepted ==> agent.messages == old(agent.messages) + Produced(run) + if end.Failed? then [FAILURE] else []
    ensures accepted ==>
              && agent.events == old(agent.events) + (EventsOf(prompts, run.turns) + Aftermath(end, Produced(run)))
              && agent.messages == old(agent.messages)
                 + AddedAll(EventsOf(prompts, run.turns) + Aftermath(end, Produced(run)))
    ensures accepted && !end.Cut? ==>
              !agent.active && agent.pendingToolCalls == {} && Emptied(agent, run, steersLost, followUpsLost)
    ensures accepted && !end.Cut? ==>
              && Begun(agent.events) == Begun(run.events) + |run.turns|
              && Ended(agent.events) == Ended(run.events) + |run.turns| - if end.Cancelled? then 1 else 0
    ensures accepted && end.Natural? ==>
              && steersLost == [] && followUpsLost == []
              && Open(scripts, run.turns) && LastWithoutCalls(run.turns)
    ensures accepted && end.Cut? ==>
              && |run.turns| == |scripts| && agent.active
              && exists held, origin :: Conserved(agent, run, held, origin)
    ensures accepted && !end.Cut? ==> EndsBy(run, end)
  {
    accepted := !agent.active;
    if !accepted {
      end, run, steersLost, followUpsLost := Cut, Run([], [], [], [], [], [], []), [], [];
      return;
    }
    end, run, steersLost, followUpsLost := RunPrompt(agent, parallel, prompts, scripts);
    OverTold(run, end, agent.events, agent.messages);
    if !end.Cut? { OverCounted(run, end, agent.events, agent.messages); }
  }
}
