/** What is recorded of a run of the agent: its turns, the transcript they make up, and the events that
    announce them. */
module AgentRecord {
  import opened Options
  import opened Agent
  import opened AgentTools

  /** What the model answers: a message, or an exception on the way to it, or nothing because the
      prompt is cancelled. */
  datatype Response = Reply(text: string, requests: seq<Request>, stop: StopReason) | Breaks(what: string) | Withdrawn

  /** One turn of the environment: what is queued meanwhile, the answer, and the abort signal at its end. */
  datatype Script = Script(steers: seq<Message>, followUps: seq<Message>, response: Response, abortedAtEnd: bool)

  datatype Origin = FromSteering | FromFollowUps

  /** The two copies of the transcript at the end of a turn. */
  datatype Checkpoint = Checkpoint(mirror: seq<Message>, context: seq<Message>, newMessages: seq<Message>)

  /** A turn that happened: where its injected messages came from, and what was left in the steering
      queue then; the answer; the events of its tool batch; the results; whether it came to its end; and the
      transcripts there. */
  datatype Turn = Turn(origin: Origin, steeringLeft: seq<Message>, injected: seq<Message>, reply: Option<Message>,
                       batch: seq<Event>, results: seq<Message>, finished: bool, check: Checkpoint)

  function Replied(t: Turn): seq<Message> { if t.reply.Some? then [t.reply.value] else [] }

  function Said(t: Turn): seq<Message> {
    t.injected + (Replied(t) + t.results)
  }

  function Transcript(turns: seq<Turn>): seq<Message> {
    if turns == [] then [] else Transcript(turns[..|turns| - 1]) + Said(turns[|turns| - 1])
  }

  function Injected(turns: seq<Turn>, origin: Origin): seq<Message> {
    if turns == [] then []
    else
      var t := turns[|turns| - 1];
      Injected(turns[..|turns| - 1], origin) + if t.origin == origin then t.injected else []
  }

  function Results(finals: seq<Finalized>): (ms: seq<Message>)
    ensures |ms| == |finals|
  {
    seq(|finals|, i requires 0 <= i < |finals| => ResultMessage(finals[i]))
  }

  function Requested(rs: seq<Request>): (cs: seq<ToolCall>)
    ensures |cs| == |rs|
  {
    seq(|rs|, i requires 0 <= i < |rs| => rs[i].call)
  }

  predicate Hard(stop: StopReason) { stop == Errored || stop == Aborted }

  function Answer(response: Response): Option<Message> {
    match response
    case Breaks(_) => None
    case Withdrawn => None
    case Reply(text, requests, stop) => Some(Assistant(text, Requested(requests), stop))
  }

  /** The calls that are run: none behind an error or an abort. */
  function Wanted(response: Response): seq<Request> {
    if response.Reply? && !Hard(response.stop) then response.requests else []
  }

  predicate BreaksOff(response: Response) { !response.Reply? || Escaping(Wanted(response)) }

  predicate Answers(result: Message, call: ToolCall) {
    result.ToolResult? && result.callId == call.id && result.toolName == call.name
  }

  /** A finished turn has its results right behind the message that asked for them: one for each call,
      in the order of the calls; none when the message is an error or was aborted. */
  predicate Paired(t: Turn) {
    t.finished ==>
      && t.reply.Some? && t.reply.value.Assistant?
      && var m := t.reply.value;
         if Hard(m.stop) then t.results == []
         else |t.results| == |m.calls| && forall i :: 0 <= i < |t.results| ==> Answers(t.results[i], m.calls[i])
  }

  predicate WithoutCalls(t: Turn) { t.reply.Some? && t.reply.value.Assistant? && t.reply.value.calls == [] }

  predicate StopsAt(script: Script) {
    && script.response.Reply?
    && (Hard(script.response.stop) || script.abortedAtEnd || Terminates(Outcomes(Wanted(script.response))))
  }

  predicate InSync(check: Checkpoint, start: seq<Message>, said: seq<Message>) {
    check.mirror == check.context == start + said && check.newMessages == said
  }

  /** Another turn can follow these: the last one has come to its end, and the loop does not stop at it. */
  predicate Open(scripts: seq<Script>, turns: seq<Turn>) {
    turns != [] ==> |turns| <= |scripts| && turns[|turns| - 1].finished && !StopsAt(scripts[|turns| - 1])
  }

  /** Follow-ups come in only behind a turn without tool calls, when no steering message waits. */
  predicate InTime(turns: seq<Turn>, t: Turn) {
    t.origin.FromFollowUps? ==>
      t.injected != [] && t.steeringLeft == [] && turns != [] && WithoutCalls(turns[|turns| - 1])
  }

  lemma ResultsAnswer(rs: seq<Request>)
    ensures var ms := Results(Outcomes(rs)); |ms| == |rs| && forall i :: 0 <= i < |rs| ==>
              Answers(ms[i], Requested(rs)[i])
  {
    forall i | 0 <= i < |rs| ensures Answers(Results(Outcomes(rs))[i], Requested(rs)[i]) {
      assert Outcomes(rs)[i] == Outcome(rs[i]);
    }
  }

  // ---- the events of a run -------------------------------------------------------------------------------

  function Pairs(messages: seq<Message>): seq<Event> {
    if messages == [] then []
    else
      var m := messages[|messages| - 1];
      Pairs(messages[..|messages| - 1]) + [MessageStart(m)] + [MessageEnd(m)]
  }

  /** The end of a turn, if it comes to one. */
  function TurnEnds(t: Turn): seq<Event> {
    if t.finished && t.reply.Some? then [TurnEnd(t.reply.value, t.results)] else []
  }

  /** The events up to the answer. The first turn of a run begins with the run. */
  function Lead(first: bool, injected: seq<Message>): seq<Event> {
    (if first then [] else [TurnStart]) + Pairs(injected)
  }

  /** The events from the answer on. */
  function ReplyEvents(t: Turn): seq<Event> { Pairs(Replied(t)) + (t.batch + TurnEnds(t)) }

  function TurnEvents(first: bool, t: Turn): seq<Event> { Lead(first, t.injected) + ReplyEvents(t) }

  /** The events of a run up to the end of its turn n. */
  function EventsTo(prompts: seq<Message>, turns: seq<Turn>, n: nat): seq<Event>
    requires n <= |turns|
  {
    if n == 0 then [AgentStart] + [TurnStart] + Pairs(prompts)
    else EventsTo(prompts, turns, n - 1) + TurnEvents(n == 1, turns[n - 1])
  }

  function EventsOf(prompts: seq<Message>, turns: seq<Turn>): seq<Event> { EventsTo(prompts, turns, |turns|) }

  /** The tools of a finished turn have run: every call is started once, in source order, and ended once,
      with its outcome. In one that is broken off by a hook some call is left open. */
  ghost predicate Batched(t: Turn, response: Response) {
    && (t.finished ==> t.reply.Some? && Complete(t.batch, Wanted(response)))
    && (!t.finished ==> t.results == []
                        && if t.reply.Some? then LeavesOneOpen(t.batch, Wanted(response)) else t.batch == [])
  }

  /** What holds of a run, turn by turn. Each turn answers its script; unless an exception breaks it off,
      its calls are started and ended and its results are paired with them; follow-ups wait for their
      time; no turn comes after one at which the loop stops; and at each turn's end the agent's transcript
      equals the loop's, which is the old transcript, the prompts and all that was said so far. */
  ghost predicate Recorded(scripts: seq<Script>, turns: seq<Turn>, start: seq<Message>, prompts: seq<Message>) {
    turns == [] ||
    (var before, t := turns[..|turns| - 1], turns[|turns| - 1];
     && Recorded(scripts, before, start, prompts)
     && |turns| <= |scripts| && Open(scripts, before)
     && t.reply == Answer(scripts[|before|].response)
     && (t.finished <==> !BreaksOff(scripts[|before|].response))
     && Paired(t) && InTime(before, t)
     && InSync(t.check, start, prompts + Transcript(turns)))
  }

  lemma {:induction false} PairsAdd(messages: seq<Message>)
    ensures var es := Pairs(messages); Begun(es) == 0 && Ended(es) == 0 && AddedAll(es) == messages
  {
    if messages != [] {
      var n := |messages| - 1;
      PairsAdd(messages[..n]);
      PairAdds(Pairs(messages[..n]), messages[n]);
      assert messages == messages[..n] + [messages[n]];
    }
  }

  lemma PairAdds(es: seq<Event>, m: Message)
    ensures var more := es + [MessageStart(m)] + [MessageEnd(m)];
            Begun(more) == Begun(es) && Ended(more) == Ended(es) && AddedAll(more) == AddedAll(es) + [m]
  {
    CountSnoc(es, MessageStart(m));
    CountSnoc(es + [MessageStart(m)], MessageEnd(m));
    AddedSnoc(es, MessageStart(m));
    AddedSnoc(es + [MessageStart(m)], MessageEnd(m));
    assert AddedAll(es) + [] == AddedAll(es);
  }

  /** A batch begins and ends no turn, and adds no message. */
  lemma BatchAddsNothing(t: Turn, response: Response)
    requires Batched(t, response)
    ensures Begun(t.batch) == 0 && Ended(t.batch) == 0 && AddedAll(t.batch) == []
  {
    if t.reply.Some? {
      var order: seq<nat> :| Follows(t.batch, Wanted(response), order);
      BatchCountsNothing(t.batch, Wanted(response), order);
    }
  }

  lemma TurnEndsAdd(t: Turn)
    requires t.finished ==> t.reply.Some?
    ensures Begun(TurnEnds(t)) == 0 && Ended(TurnEnds(t)) == (if t.finished then 1 else 0)
    ensures AddedAll(TurnEnds(t)) == if t.finished then t.results else []
  {
    if t.finished {
      CountSnoc([], TurnEnd(t.reply.value, t.results));
      AddedSnoc([], TurnEnd(t.reply.value, t.results));
      assert [] + [TurnEnd(t.reply.value, t.results)] == TurnEnds(t);
    }
  }

  lemma Measured(a: seq<Event>, b: seq<Event>)
    ensures Begun(a + b) == Begun(a) + Begun(b) && Ended(a + b) == Ended(a) + Ended(b)
    ensures AddedAll(a + b) == AddedAll(a) + AddedAll(b)
  {
    CountConcat(a, b);
    AddedConcat(a, b);
  }

  lemma LeadAdds(first: bool, messages: seq<Message>)
    ensures var es := Lead(first, messages);
            Begun(es) == (if first then 0 else 1) && Ended(es) == 0 && AddedAll(es) == messages
  {
    PairsAdd(messages);
    if first {
      assert [] + Pairs(messages) == Pairs(messages);
    } else {
      CountSnoc([], TurnStart);
      AddedSnoc([], TurnStart);
      assert [] + [TurnStart] == [TurnStart];
      Measured([TurnStart], Pairs(messages));
    }
  }

  lemma ReplyAdds(t: Turn, response: Response)
    requires Batched(t, response)
    ensures var es := ReplyEvents(t);
            Begun(es) == 0 && Ended(es) == (if t.finished then 1 else 0) && AddedAll(es) == Replied(t) + t.results
  {
    PairsAdd(Replied(t));
    BatchAddsNothing(t, response);
    TurnEndsAdd(t);
    Measured(t.batch, TurnEnds(t));
    Measured(Pairs(Replied(t)), t.batch + TurnEnds(t));
    assert [] + t.results == t.results;
  }

  /** The events of a turn say what was said in it. */
  lemma TurnAdds(first: bool, t: Turn, response: Response)
    requires Batched(t, response)
    ensures var es := TurnEvents(first, t);
            && Begun(es) == (if first then 0 else 1) && Ended(es) == (if t.finished then 1 else 0)
            && AddedAll(es) == Said(t)
  {
    LeadAdds(first, t.injected);
    ReplyAdds(t, response);
    Measured(Lead(first, t.injected), ReplyEvents(t));
  }

  lemma OpeningAdds(prompts: seq<Message>)
    ensures var es := [AgentStart] + [TurnStart] + Pairs(prompts);
            Begun(es) == 1 && Ended(es) == 0 && AddedAll(es) == prompts
  {
    CountSnoc([], AgentStart);
    AddedSnoc([], AgentStart);
    assert [] + [AgentStart] == [AgentStart];
    CountSnoc([AgentStart], TurnStart);
    AddedSnoc([AgentStart], TurnStart);
    PairsAdd(prompts);
    Measured([AgentStart] + [TurnStart], Pairs(prompts));
  }

  lemma {:induction false} NoEnds(es: seq<Event>)
    requires Ended(es) == 0
    ensures forall k :: 0 <= k < |es| ==> !es[k].TurnEnd?
  {
    if es != [] {
      var front := es[..|es| - 1];
      NoEnds(front);
      forall k | 0 <= k < |es| ensures !es[k].TurnEnd? {
        if k < |front| { assert front[k] == es[k]; }
      }
    }
  }

  /** The events of a turn say what was said in it, begin it unless it is the first, and end it last. */
  ghost predicate Tells(es: seq<Event>, first: bool, t: Turn) {
    && Begun(es) == (if first then 0 else 1) && Ended(es) == (if t.finished then 1 else 0) && AddedAll(es) == Said(t)
    && (es != [] ==> Ended(es[..|es| - 1]) == 0)
  }

  lemma OneEnd(front: seq<Event>, ends: seq<Event>)
    requires Ended(front) == 0 && |ends| <= 1
    ensures front + ends != [] ==> Ended((front + ends)[..|front + ends| - 1]) == 0
  {
    if |ends| == 1 {
      assert (front + ends)[..|front|] == front;
    } else {
      assert front + ends == front;
    }
  }

  lemma NothingEnds(lead: seq<Event>, pairs: seq<Event>, batch: seq<Event>)
    requires Ended(lead) == Ended(pairs) == Ended(batch) == 0
    ensures Ended(lead + (pairs + batch)) == 0
  {
    CountConcat(pairs, batch);
    CountConcat(lead, pairs + batch);
  }

  lemma PartsEndNothing(first: bool, t: Turn, response: Response)
    requires Batched(t, response)
    ensures Ended(Lead(first, t.injected)) == Ended(Pairs(Replied(t))) == Ended(t.batch) == 0
  {
    LeadAdds(first, t.injected);
    PairsAdd(Replied(t));
    BatchAddsNothing(t, response);
  }

  /** Nothing but the last event of a turn ends it. */
  lemma EndsLast(first: bool, t: Turn, response: Response)
    requires Batched(t, response)
    ensures var es := TurnEvents(first, t); es != [] ==> Ended(es[..|es| - 1]) == 0
  {
    PartsEndNothing(first, t, response);
    NothingEnds(Lead(first, t.injected), Pairs(Replied(t)), t.batch);
    EndBehindAll(Lead(first, t.injected), Pairs(Replied(t)), t.batch, TurnEnds(t));
  }

  lemma EndBehindAll(lead: seq<Event>, pairs: seq<Event>, batch: seq<Event>, ends: seq<Event>)
    requires Ended(lead + (pairs + batch)) == 0 && |ends| <= 1
    ensures var es := lead + (pairs + (batch + ends)); es != [] ==> Ended(es[..|es| - 1]) == 0
  {
    Join(pairs, batch, ends);
    Join(lead, pairs + batch, ends);
    OneEnd(lead + (pairs + batch), ends);
  }

  lemma TurnTells(first: bool, t: Turn, response: Response)
    requires Batched(t, response)
    ensures Tells(TurnEvents(first, t), first, t)
  {
    TurnAdds(first, t, response);
    EndsLast(first, t, response);
  }

  ghost predicate BatchedAt(scripts: seq<Script>, turns: seq<Turn>, i: nat) {
    i < |turns| && i < |scripts| && Batched(turns[i], scripts[i].response)
  }

  /** Every turn has run its tools. */
  ghost predicate AllBatched(scripts: seq<Script>, turns: seq<Turn>) {
    forall i: nat {:trigger BatchedAt(scripts, turns, i)} :: i < |turns| ==> BatchedAt(scripts, turns, i)
  }

  ghost predicate TellsAt(turns: seq<Turn>, i: nat) {
    i < |turns| && Tells(TurnEvents(i == 0, turns[i]), i == 0, turns[i]) && (i > 0 ==> turns[i - 1].finished)
  }

  ghost predicate AllTell(turns: seq<Turn>) {
    forall i: nat {:trigger TellsAt(turns, i)} :: i < |turns| ==> TellsAt(turns, i)
  }

  /** How many of the first n turns have an end. */
  function Finishes(turns: seq<Turn>, n: nat): nat
    requires n <= |turns|
  {
    if n > 0 && !turns[n - 1].finished then n - 1 else n
  }

  /** The events say what the turns say, and begin and end each turn once. */
  ghost predicate Measures(es: seq<Event>, prompts: seq<Message>, turns: seq<Turn>, n: nat)
    requires n <= |turns|
  {
    && AddedAll(es) == prompts + Transcript(turns[..n])
    && Begun(es) == (if n == 0 then 1 else n) && Ended(es) == Finishes(turns, n)
  }

  lemma OneMoreTurn(es: seq<Event>, more: seq<Event>, prompts: seq<Message>, turns: seq<Turn>, n: nat)
    requires n < |turns| && (n > 0 ==> turns[n - 1].finished) && Tells(more, n == 0, turns[n])
             && Measures(es, prompts, turns, n)
    ensures Measures(es + more, prompts, turns, n + 1)
  {
    Measured(es, more);
    SplitLast(turns, n);
    TranscriptSnoc(turns[..n], turns[n]);
    Join(prompts, Transcript(turns[..n]), Said(turns[n]));
  }

  lemma NoTurnYet(prompts: seq<Message>, turns: seq<Turn>)
    ensures Measures(EventsTo(prompts, turns, 0), prompts, turns, 0)
  {
    OpeningAdds(prompts);
    assert prompts + Transcript([]) == prompts;
  }

  /** The transcript rebuilt from the events of a run is what was said in it, turn by turn. */
  lemma {:induction false} EventsAdd(turns: seq<Turn>, prompts: seq<Message>, n: nat)
    requires AllTell(turns) && n <= |turns|
    ensures Measures(EventsTo(prompts, turns, n), prompts, turns, n)
  {
    if n == 0 {
      NoTurnYet(prompts, turns);
    } else {
      EventsAdd(turns, prompts, n - 1);
      assert TellsAt(turns, n - 1);
      OneMoreTurn(EventsTo(prompts, turns, n - 1), TurnEvents(n == 1, turns[n - 1]), prompts, turns, n - 1);
    }
  }

  /** The events of the first turns do not depend on those that follow. */
  lemma {:induction false} EventsKeep(prompts: seq<Message>, turns: seq<Turn>, t: Turn, n: nat)
    requires n <= |turns|
    ensures EventsTo(prompts, turns + [t], n) == EventsTo(prompts, turns, n)
  {
    if n > 0 { EventsKeep(prompts, turns, t, n - 1); }
  }

  lemma EventsSnoc(prompts: seq<Message>, turns: seq<Turn>, t: Turn)
    ensures EventsOf(prompts, turns + [t]) == EventsOf(prompts, turns) + TurnEvents(turns == [], t)
  {
    EventsKeep(prompts, turns, t, |turns|);
  }

  // ---- what a record says --------------------------------------------------------------------------------

  lemma {:induction false} TranscriptGrows(turns: seq<Turn>, n: nat)
    requires n <= |turns|
    ensures Transcript(turns[..n]) <= Transcript(turns)
  {
    if n == |turns| {
      assert turns[..n] == turns;
    } else {
      TranscriptGrows(turns[..|turns| - 1], n);
      assert turns[..|turns| - 1][..n] == turns[..n];
    }
  }

  lemma SaidInside(turns: seq<Turn>, i: nat)
    requires i < |turns|
    ensures Transcript(turns[..i]) + Said(turns[i]) <= Transcript(turns)
  {
    TranscriptGrows(turns, i + 1);
    SplitLast(turns, i);
    TranscriptSnoc(turns[..i], turns[i]);
  }

  lemma TranscriptSnoc(turns: seq<Turn>, t: Turn)
    ensures Transcript(turns + [t]) == Transcript(turns) + Said(t)
  {
    assert (turns + [t])[..|turns|] == turns;
  }

  lemma {:induction false} RecordedPrefix(scripts: seq<Script>, turns: seq<Turn>, start: seq<Message>,
                                          prompts: seq<Message>, n: nat)
    requires Recorded(scripts, turns, start, prompts) && n <= |turns|
    ensures Recorded(scripts, turns[..n], start, prompts)
  {
    if n == |turns| {
      assert turns[..n] == turns;
    } else {
      RecordedPrefix(scripts, turns[..|turns| - 1], start, prompts, n);
      assert turns[..|turns| - 1][..n] == turns[..n];
    }
  }

  lemma LastTurn(scripts: seq<Script>, before: seq<Turn>, t: Turn, start: seq<Message>, prompts: seq<Message>)
    requires Recorded(scripts, before + [t], start, prompts)
    ensures |before| < |scripts| && Open(scripts, before) && t.reply == Answer(scripts[|before|].response)
    ensures InSync(t.check, start, prompts + Transcript(before + [t])) && Paired(t) && InTime(before, t)
  {
    assert (before + [t])[..|before|] == before;
  }

  /** At every turn's end of a run, and not only at the last, the two transcripts are equal and say all
      that was said so far; its results are paired; and no earlier turn stopped the loop. */
  lemma EveryTurn(scripts: seq<Script>, turns: seq<Turn>, start: seq<Message>, prompts: seq<Message>, i: nat)
    requires Recorded(scripts, turns, start, prompts) && i < |turns|
    ensures i < |scripts| && turns[i].reply == Answer(scripts[i].response)
    ensures turns[i].check.mirror == turns[i].check.context == start + (prompts + Transcript(turns[..i + 1]))
    ensures Paired(turns[i]) && InTime(turns[..i], turns[i])
    ensures i < |turns| - 1 ==> turns[i].finished && !StopsAt(scripts[i])
  {
    TurnFacts(scripts, turns, start, prompts, i);
    if i < |turns| - 1 { TurnFacts(scripts, turns, start, prompts, i + 1); }
  }

  lemma RecordTellsAt(scripts: seq<Script>, turns: seq<Turn>, start: seq<Message>, prompts: seq<Message>, i: nat)
    requires Recorded(scripts, turns, start, prompts) && BatchedAt(scripts, turns, i)
    ensures TellsAt(turns, i)
  {
    TurnTells(i == 0, turns[i], scripts[i].response);
    TurnFacts(scripts, turns, start, prompts, i);
  }

  lemma RecordTells(scripts: seq<Script>, turns: seq<Turn>, start: seq<Message>, prompts: seq<Message>)
    requires Recorded(scripts, turns, start, prompts) && AllBatched(scripts, turns)
    ensures AllTell(turns)
  {
    forall i: nat {:trigger TellsAt(turns, i)} | i < |turns| ensures TellsAt(turns, i) {
      assert BatchedAt(scripts, turns, i);
      RecordTellsAt(scripts, turns, start, prompts, i);
    }
  }

  lemma EndInFront(before: seq<Event>, more: seq<Event>, n: nat)
    requires 0 < n <= |before|
    ensures (before + more)[..n] == before[..n] && (before + more)[n - 1] == before[n - 1]
  {
  }

  lemma OnlyLastEnds(es: seq<Event>, k: nat)
    requires k < |es| && Ended(es[..|es| - 1]) == 0 && es[k].TurnEnd?
    ensures k == |es| - 1 && Ended(es) == 1
  {
    var front := es[..|es| - 1];
    forall j | 0 <= j < |front| ensures front[j] == es[j] {}
    NoEnds(front);
  }

  lemma EndBehind(before: seq<Event>, more: seq<Event>, first: bool, t: Turn, n: nat)
    requires Tells(more, first, t) && |before| < n <= |before + more| && (before + more)[n - 1].TurnEnd?
    ensures t.finished && (before + more)[..n] == before + more
  {
    assert (before + more)[n - 1] == more[n - 1 - |before|];
    OnlyLastEnds(more, n - 1 - |before|);
  }

  lemma NoEndYet(prompts: seq<Message>, turns: seq<Turn>)
    ensures forall k :: 0 <= k < |EventsTo(prompts, turns, 0)| ==> !EventsTo(prompts, turns, 0)[k].TurnEnd?
  {
    OpeningAdds(prompts);
    NoEnds(EventsTo(prompts, turns, 0));
  }

  lemma {:induction false} FindTurnEnd(turns: seq<Turn>, prompts: seq<Message>, m: nat, n: nat) returns (i: nat)
    requires AllTell(turns) && m <= |turns|
    requires 0 < n <= |EventsTo(prompts, turns, m)| && EventsTo(prompts, turns, m)[n - 1].TurnEnd?
    ensures i < m && turns[i].finished && EventsTo(prompts, turns, m)[..n] == EventsTo(prompts, turns, i + 1)
  {
    i := 0;
    if m == 0 {
      NoEndYet(prompts, turns);
    } else if n <= |EventsTo(prompts, turns, m - 1)| {
      EndInFront(EventsTo(prompts, turns, m - 1), TurnEvents(m == 1, turns[m - 1]), n);
      i := FindTurnEnd(turns, prompts, m - 1, n);
    } else {
      assert TellsAt(turns, m - 1);
      EndBehind(EventsTo(prompts, turns, m - 1), TurnEvents(m == 1, turns[m - 1]), m == 1, turns[m - 1], n);
      i := m - 1;
    }
  }

  lemma RebuiltTo(turns: seq<Turn>, prompts: seq<Message>, cut: seq<Event>, n: nat)
    requires AllTell(turns) && n <= |turns| && cut == EventsTo(prompts, turns, n)
    ensures AddedAll(cut) == prompts + Transcript(turns[..n])
  {
    EventsAdd(turns, prompts, n);
  }

  lemma CutAtEnd(turns: seq<Turn>, prompts: seq<Message>, cut: seq<Event>) returns (i: nat)
    requires AllTell(turns) && cut <= EventsOf(prompts, turns) && cut != [] && cut[|cut| - 1].TurnEnd?
    ensures i < |turns| && turns[i].finished && cut == EventsTo(prompts, turns, i + 1)
  {
    assert EventsOf(prompts, turns)[..|cut|] == cut;
    i := FindTurnEnd(turns, prompts, |turns|, |cut|);
  }

  /** Wherever a turn ends among the events of a run, the transcript rebuilt from the events up to there
      equals the loop's, which is the old one, the prompts and all that was said so far. */
  lemma EveryTurnEnd(scripts: seq<Script>, turns: seq<Turn>, start: seq<Message>, prompts: seq<Message>,
                     cut: seq<Event>)
    returns (i: nat)
    requires Recorded(scripts, turns, start, prompts) && AllBatched(scripts, turns)
    requires cut <= EventsOf(prompts, turns) && cut != [] && cut[|cut| - 1].TurnEnd?
    ensures i < |turns| && turns[i].finished && cut == EventsTo(prompts, turns, i + 1)
    ensures start + AddedAll(cut) == turns[i].check.context == start + (prompts + Transcript(turns[..i + 1]))
  {
    RecordTells(scripts, turns, start, prompts);
    i := CutAtEnd(turns, prompts, cut);
    RebuiltTo(turns, prompts, cut, i + 1);
    ContextAt(scripts, turns, start, prompts, i);
  }

  lemma ContextAt(scripts: seq<Script>, turns: seq<Turn>, start: seq<Message>, prompts: seq<Message>, i: nat)
    requires Recorded(scripts, turns, start, prompts) && i < |turns|
    ensures turns[i].check.context == start + (prompts + Transcript(turns[..i + 1]))
  {
    TurnFacts(scripts, turns, start, prompts, i);
  }

  lemma TurnFacts(scripts: seq<Script>, turns: seq<Turn>, start: seq<Message>, prompts: seq<Message>, i: nat)
    requires Recorded(scripts, turns, start, prompts) && i < |turns|
    ensures i < |scripts| && turns[i].reply == Answer(scripts[i].response)
    ensures turns[i].check.mirror == turns[i].check.context == start + (prompts + Transcript(turns[..i + 1]))
    ensures Paired(turns[i]) && InTime(turns[..i], turns[i])
    ensures i > 0 ==> turns[i - 1].finished && !StopsAt(scripts[i - 1])
  {
    RecordedPrefix(scripts, turns, start, prompts, i + 1);
    SplitLast(turns, i);
    LastTurn(scripts, turns[..i], turns[i], start, prompts);
  }

  lemma SplitLast(turns: seq<Turn>, i: nat)
    requires i < |turns|
    ensures turns[..i + 1] == turns[..i] + [turns[i]]
    ensures i > 0 ==> turns[..i][i - 1] == turns[i - 1]
  {
  }

  /** The message stands at p, and behind it the results of its calls, in their order. */
  predicate AnsweredAt(all: seq<Message>, p: nat, m: Message)
    requires m.Assistant?
  {
    p + |m.calls| < |all| && all[p] == m && forall j :: 0 <= j < |m.calls| ==> Answers(all[p + 1 + j], m.calls[j])
  }

  /** The results of a turn stand contiguously behind their message in the transcript, in source order. */
  lemma ResultsFollowTheirMessage(scripts: seq<Script>, turns: seq<Turn>, start: seq<Message>, prompts: seq<Message>,
                                  i: nat)
    requires Recorded(scripts, turns, start, prompts) && i < |turns| && turns[i].finished
    ensures turns[i].reply.Some? && turns[i].reply.value.Assistant?
    ensures !Hard(turns[i].reply.value.stop) ==>
              AnsweredAt(prompts + Transcript(turns), |prompts| + |Transcript(turns[..i])| + |turns[i].injected|,
                  turns[i].reply.value)
  {
    EveryTurn(scripts, turns, start, prompts, i);
    PairedTurnFollows(turns, prompts, i);
  }

  lemma PairedTurnFollows(turns: seq<Turn>, prompts: seq<Message>, i: nat)
    requires i < |turns| && turns[i].finished && Paired(turns[i])
    ensures !Hard(turns[i].reply.value.stop) ==>
              AnsweredAt(prompts + Transcript(turns), |prompts| + |Transcript(turns[..i])| + |turns[i].injected|,
                  turns[i].reply.value)
  {
    SaidInside(turns, i);
    PairedResultsFollow(prompts, Transcript(turns[..i]), turns[i], Transcript(turns));
  }

  lemma PairedResultsFollow(prompts: seq<Message>, before: seq<Message>, t: Turn, whole: seq<Message>)
    requires Paired(t) && t.finished && before + Said(t) <= whole
    ensures !Hard(t.reply.value.stop) ==>
              AnsweredAt(prompts + whole, |prompts| + |before| + |t.injected|, t.reply.value)
  {
    Located(prompts, before, t.injected, t.reply.value, t.results, whole);
  }

  lemma Located(prompts: seq<Message>, before: seq<Message>, injected: seq<Message>, m: Message, results: seq<Message>,
                whole: seq<Message>)
    requires before + (injected + ([m] + results)) <= whole
    ensures var all, p := prompts + whole, |prompts| + |before| + |injected|;
            p + |results| < |all| && all[p] == m && forall j :: 0 <= j < |results| ==> all[p + 1 + j] == results[j]
  {
    var said := injected + ([m] + results);
    var front := before + said;
    assert front[|before| + |injected|] == said[|injected|] == m;
    forall j | 0 <= j < |results| ensures whole[|before| + |injected| + 1 + j] == results[j] {
      assert front[|before| + |injected| + 1 + j] == said[|injected| + 1 + j] == ([m] + results)[1 + j];
    }
  }
}
