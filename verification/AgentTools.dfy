/** The two strategies for running a batch of tool calls. */
module AgentTools {
  import opened Options
  import opened Agent

  lemma IdsSnoc(rs: seq<Request>, r: Request)
    ensures Ids(rs + [r]) == Ids(rs) + {r.call.id}
  {
    assert r in rs + [r];
    forall id | id in Ids(rs) ensures id in Ids(rs + [r]) {
      var x :| x in rs && x.call.id == id;
      assert x in rs + [r];
    }
  }

  // ---- one after the other -----------------------------------------------------------------------------

  function UpTo(n: nat): seq<nat> { seq(n, i requires 0 <= i < n => i) }

  lemma UpToMore(n: nat)
    ensures UpTo(n + 1) == UpTo(n) + [n] && Distinct(UpTo(n))
  {
  }

  lemma OutcomesSnoc(rs: seq<Request>, i: nat)
    requires i < |rs|
    ensures Outcomes(rs[..i + 1]) == Outcomes(rs[..i]) + [Outcome(rs[i])]
    ensures rs[..i + 1] == rs[..i] + [rs[i]]
  {
  }

  /** One call of the sequential strategy, from its start event to its end event. */
  method RunOne(agent: Agent, r: Request) returns (final: Option<Finalized>, ghost added: seq<Event>)
    modifies agent`messages, agent`pendingToolCalls, agent`streaming, agent`accepting, agent`events
    ensures agent.messages == old(agent.messages) && agent.events == old(agent.events) + added
    ensures final.None? <==> Prepared(r).Escapes?
    ensures final.None? ==> added == [ToolStart(r.call)]
    ensures final.Some? ==> final.value == Outcome(r) && added == [ToolStart(r.call)] + [ToolEnd(Outcome(r))]
    ensures final.Some? ==> agent.pendingToolCalls == old(agent.pendingToolCalls) - {r.call.id}
  {
    agent.ProcessEvents(ToolStart(r.call));
    added := [ToolStart(r.call)];
    var preparation := Prepare(r.call, r.behaviour);
    var f;
    match preparation {
      case Escapes(_) => return None, added;
      case Immediate(immediate) => f := immediate;
      case Ready =>
        var executed := Execute(r.call, r.behaviour);
        f := Finalize(executed, r.behaviour.after);
    }
    agent.ProcessEvents(ToolEnd(f));
    added := added + [ToolEnd(f)];
    final := Some(f);
  }

  function InTurn(rs: seq<Request>, n: nat): seq<Event>
    requires n <= |rs|
  {
    if n == 0 then [] else InTurn(rs, n - 1) + ([ToolStart(rs[n - 1].call)] + [ToolEnd(Outcome(rs[n - 1]))])
  }

  lemma {:induction false} InTurnFollows(rs: seq<Request>, n: nat)
    requires n <= |rs|
    ensures Follows(InTurn(rs, n), rs, UpTo(n)) && Started(InTurn(rs, n)) == n && Distinct(UpTo(n))
    ensures n < |rs| ==> LeavesOneOpen(InTurn(rs, n) + [ToolStart(rs[n].call)], rs)
  {
    if n > 0 {
      var es, i := InTurn(rs, n - 1), n - 1;
      InTurnFollows(rs, i);
      UpToMore(i);
      AddStart(es, rs, UpTo(i));
      AddEnd(es + [ToolStart(rs[i].call)], rs, UpTo(i), i);
      Join(es, [ToolStart(rs[i].call)], [ToolEnd(Outcome(rs[i]))]);
    }
    UpToMore(n);
    if n < |rs| { AddStart(InTurn(rs, n), rs, UpTo(n)); }
  }

  /** The calls one after the other, up to the first from which an exception escapes. */
  method RunAll(agent: Agent, rs: seq<Request>)
    returns (finals: seq<Finalized>, escape: Option<nat>, ghost added: seq<Event>)
    modifies agent`messages, agent`pendingToolCalls, agent`streaming, agent`accepting, agent`events
    ensures agent.messages == old(agent.messages) && agent.events == old(agent.events) + added
    ensures escape.Some? ==> escape.value < |rs| && Prepared(rs[escape.value]).Escapes?
    ensures escape.Some? ==> added == InTurn(rs, escape.value) + [ToolStart(rs[escape.value].call)]
    ensures escape.None? ==> forall j :: 0 <= j < |rs| ==> !Prepared(rs[j]).Escapes?
    ensures escape.None? ==> finals == Outcomes(rs) && added == InTurn(rs, |rs|)
    ensures escape.None? ==> agent.pendingToolCalls == old(agent.pendingToolCalls) - Ids(rs)
  {
    finals, escape, added := [], None, [];
    for i := 0 to |rs|
      invariant agent.messages == old(agent.messages) && agent.events == old(agent.events) + added
      invariant finals == Outcomes(rs[..i]) && added == InTurn(rs, i)
      invariant forall j :: 0 <= j < i ==> !Prepared(rs[j]).Escapes?
      invariant agent.pendingToolCalls == old(agent.pendingToolCalls) - Ids(rs[..i])
    {
      var final;
      ghost var more;
      final, more := RunOne(agent, rs[i]);
      Join(old(agent.events), added, more);
      added := added + more;
      if final.None? {
        escape := Some(i);
        return;
      }
      OutcomesSnoc(rs, i);
      IdsSnoc(rs[..i], rs[i]);
      finals := finals + [final.value];
    }
    assert rs[..|rs|] == rs;
  }

  /** _execute_tool_calls_sequential */
  method ExecuteSequential(agent: Agent, rs: seq<Request>) returns (b: Batch, ghost added: seq<Event>)
    modifies agent`messages, agent`pendingToolCalls, agent`streaming, agent`accepting, agent`events
    ensures agent.messages == old(agent.messages) && agent.events == old(agent.events) + added
    ensures Ran(b, added, rs) && (b.Done? ==> Follows(added, rs, UpTo(|rs|)))
    ensures b.Done? ==> agent.pendingToolCalls == old(agent.pendingToolCalls) - Ids(rs)
  {
    var finals, escape;
    finals, escape, added := RunAll(agent, rs);
    InTurnFollows(rs, if escape.Some? then escape.value else |rs|);
    b := if escape.Some? then Escaped(Prepared(rs[escape.value]).what) else Done(finals);
  }

  // ---- all at once -------------------------------------------------------------------------------------

  /** Where the parallel strategy stands: its events so far, the order in which calls have ended, the
      result slots, the places of the calls that are still waiting, and the pending ids. */
  datatype Phase = Phase(events: seq<Event>, order: seq<nat>, slots: seq<Option<Finalized>>, waiting: seq<nat>,
      pending: set<string>)

  function IdsAt(rs: seq<Request>, places: seq<nat>): set<string> { set j | j in places && j < |rs| :: rs[j].call.id }

  predicate Within(s: seq<nat>, n: nat) { forall i :: 0 <= i < |s| ==> s[i] < n }

  /** The slots say what has ended: a slot is filled with its outcome, or empty and waited for. */
  predicate Filled(p: Phase, rs: seq<Request>)
    requires |p.slots| <= |rs|
  {
    && (forall q :: 0 <= q < |p.waiting| ==> p.waiting[q] < |rs| && !Prepared(rs[p.waiting[q]]).Immediate?)
    && (forall j: nat :: j < |p.slots| ==> p.slots[j] == Some(Outcome(rs[j])) || (p.slots[j] == None && j in p.waiting))
  }

  /** Each call started so far has either ended or is waiting, and not both. */
  ghost predicate Accounted(p: Phase) {
    && |p.order| + |p.waiting| == |p.slots|
    && Within(p.order, |p.slots|) && Within(p.waiting, |p.slots|)
    && Distinct(p.order) && Distinct(p.waiting) && forall j :: j in p.order ==> j !in p.waiting
  }

  /** Pending are the ids from before that no started call has, and at most those of waiting calls. */
  ghost predicate PendingIds(p: Phase, rs: seq<Request>, before: set<string>)
    requires |p.slots| <= |rs|
  {
    var others := before - Ids(rs[..|p.slots|]);
    others <= p.pending <= others + IdsAt(rs, p.waiting)
  }

  ghost predicate Underway(p: Phase, rs: seq<Request>, before: set<string>) {
    && |p.slots| <= |rs| && Follows(p.events, rs, p.order) && Started(p.events) == |p.slots|
    && Filled(p, rs) && Accounted(p) && PendingIds(p, rs, before)
  }

  /** The first phase starts a call, and ends it when it has its outcome at once. */
  function Start(p: Phase, r: Request): Phase {
    var n, started := |p.slots|, p.events + [ToolStart(r.call)];
    if Prepared(r).Immediate? then
      Phase(started + [ToolEnd(Outcome(r))], p.order + [n], p.slots + [Some(Outcome(r))], p.waiting,
          p.pending - {r.call.id})
    else
      Phase(started, p.order, p.slots + [None], p.waiting + [n], p.pending + {r.call.id})
  }

  function Except<T>(s: seq<T>, q: nat): seq<T>
    requires q < |s|
  {
    s[..q] + s[q + 1..]
  }

  /** The second phase ends one of the waiting calls. */
  function Finish(p: Phase, rs: seq<Request>, q: nat): Phase
    requires |p.slots| <= |rs| && q < |p.waiting| && p.waiting[q] < |p.slots|
  {
    var n, r := p.waiting[q], rs[p.waiting[q]];
    Phase(p.events + [ToolEnd(Outcome(r))], p.order + [n], p.slots[n := Some(Outcome(r))], Except(p.waiting, q),
        p.pending - {r.call.id})
  }

  lemma StartPending(p: Phase, rs: seq<Request>, before: set<string>)
    requires |p.slots| < |rs| && PendingIds(p, rs, before)
    ensures PendingIds(Start(p, rs[|p.slots|]), rs, before)
  {
    var n, r := |p.slots|, rs[|p.slots|];
    assert rs[..n + 1] == rs[..n] + [r];
    IdsSnoc(rs[..n], r);
    assert forall j :: j in p.waiting ==> j in p.waiting + [n];
    assert n in p.waiting + [n];
  }

  lemma StartFilled(p: Phase, rs: seq<Request>)
    requires |p.slots| < |rs| && Filled(p, rs)
    ensures Filled(Start(p, rs[|p.slots|]), rs)
  {
    assert forall j :: j in p.waiting ==> j in p.waiting + [|p.slots|];
    assert |p.slots| in p.waiting + [|p.slots|];
  }

  lemma StartAccounted(p: Phase, r: Request)
    requires Accounted(p)
    ensures Accounted(Start(p, r))
  {
  }

  lemma StartKeeps(p: Phase, rs: seq<Request>, before: set<string>)
    requires |p.slots| < |rs| && Underway(p, rs, before)
    ensures Underway(Start(p, rs[|p.slots|]), rs, before)
  {
    var n, r := |p.slots|, rs[|p.slots|];
    AddStart(p.events, rs, p.order);
    if Prepared(r).Immediate? { AddEnd(p.events + [ToolStart(r.call)], rs, p.order, n); }
    StartPending(p, rs, before);
    StartFilled(p, rs);
    StartAccounted(p, r);
  }

  lemma OneLess<T>(s: seq<T>, q: nat)
    requires q < |s| && Distinct(s)
    ensures Distinct(Except(s, q)) && |Except(s, q)| == |s| - 1
    ensures forall x :: x in Except(s, q) <==> x in s && x != s[q]
  {
  }

  lemma FinishPending(p: Phase, rs: seq<Request>, before: set<string>, q: nat)
    requires |p.slots| <= |rs| && q < |p.waiting| && Accounted(p) && PendingIds(p, rs, before)
    ensures PendingIds(Finish(p, rs, q), rs, before)
  {
    var n := p.waiting[q];
    OneLess(p.waiting, q);
    assert rs[n] in rs[..|p.slots|] && rs[n].call.id in Ids(rs[..|p.slots|]);
    forall id | id in IdsAt(rs, p.waiting) && id != rs[n].call.id ensures id in IdsAt(rs, Except(p.waiting, q)) {
      var j :| j in p.waiting && j < |rs| && rs[j].call.id == id;
      assert j in Except(p.waiting, q);
    }
  }

  lemma FinishKeeps(p: Phase, rs: seq<Request>, before: set<string>, q: nat)
    requires Underway(p, rs, before) && q < |p.waiting|
    ensures p.waiting[q] < |p.slots| && Underway(Finish(p, rs, q), rs, before)
  {
    OneLess(p.waiting, q);
    AddEnd(p.events, rs, p.order, p.waiting[q]);
    FinishPending(p, rs, before, q);
    assert p.waiting[q] in p.waiting;
  }

  /** The first phase, the same for every schedule. */
  function First(rs: seq<Request>, n: nat, pending: set<string>): Phase
    requires n <= |rs|
  {
    if n == 0 then Phase([], [], [], [], pending) else Start(First(rs, n - 1, pending), rs[n - 1])
  }

  lemma {:induction false} FirstPhase(rs: seq<Request>, n: nat, before: set<string>)
    requires n <= |rs|
    ensures Underway(First(rs, n, before), rs, before) && |First(rs, n, before).slots| == n
  {
    if n > 0 {
      FirstPhase(rs, n - 1, before);
      StartKeeps(First(rs, n - 1, before), rs, before);
    }
  }

  /** Both phases: the picks say which of the waiting calls finishes next. */
  function After(rs: seq<Request>, pending: set<string>, picks: seq<nat>): Phase {
    if picks == [] then First(rs, |rs|, pending)
    else
      var p, q := After(rs, pending, picks[..|picks| - 1]), picks[|picks| - 1];
      if |p.slots| <= |rs| && q < |p.waiting| && p.waiting[q] < |p.slots| then Finish(p, rs, q) else p
  }

  lemma {:induction false} SecondPhase(rs: seq<Request>, before: set<string>, picks: seq<nat>)
    ensures Underway(After(rs, before, picks), rs, before) && |After(rs, before, picks).slots| == |rs|
  {
    if picks == [] {
      FirstPhase(rs, |rs|, before);
    } else {
      var front, q := picks[..|picks| - 1], picks[|picks| - 1];
      SecondPhase(rs, before, front);
      if q < |After(rs, before, front).waiting| { FinishKeeps(After(rs, before, front), rs, before, q); }
    }
  }

  lemma WaitingLeavesOpen(p: Phase, rs: seq<Request>, before: set<string>)
    requires Underway(p, rs, before) && p.waiting != []
    ensures LeavesOneOpen(p.events, rs)
  {
  }

  /** Where an exception escapes, the call it escapes from stays without its end. */
  lemma FirstEscape(rs: seq<Request>, i: nat, before: set<string>)
    requires i < |rs| && Prepared(rs[i]).Escapes?
    ensures LeavesOneOpen(First(rs, i + 1, before).events, rs)
  {
    var p := First(rs, i, before);
    FirstPhase(rs, i, before);
    StartKeeps(p, rs, before);
    assert |Start(p, rs[i]).waiting| == |p.waiting| + 1;
    WaitingLeavesOpen(Start(p, rs[i]), rs, before);
  }

  /** The first phase: every call is started, and what has its outcome at once is ended. */
  method PrepareAll(agent: Agent, rs: seq<Request>)
    returns (slots: seq<Option<Finalized>>, waiting: seq<nat>, escape: Option<nat>, ghost order: seq<nat>,
               ghost added: seq<Event>)
    modifies agent`messages, agent`pendingToolCalls, agent`streaming, agent`accepting, agent`events
    ensures agent.messages == old(agent.messages) && agent.events == old(agent.events) + added
    ensures escape.Some? ==> escape.value < |rs| && Prepared(rs[escape.value]).Escapes?
    ensures escape.Some? ==> added == First(rs, escape.value + 1, old(agent.pendingToolCalls)).events
    ensures escape.None? ==> !Escaping(rs)
    ensures escape.None? ==>
              Phase(added, order, slots, waiting, agent.pendingToolCalls)
              == First(rs, |rs|, old(agent.pendingToolCalls))
  {
    slots, waiting, escape, order, added := [], [], None, [], [];
    ghost var before := agent.pendingToolCalls;
    for i := 0 to |rs|
      invariant agent.messages == old(agent.messages) && agent.events == old(agent.events) + added
      invariant Phase(added, order, slots, waiting, agent.pendingToolCalls) == First(rs, i, before)
      invariant |slots| == i
      invariant forall j :: 0 <= j < i ==> !Prepared(rs[j]).Escapes?
    {
      var r := rs[i];
      agent.ProcessEvents(ToolStart(r.call));
      Join(old(agent.events), added, [ToolStart(r.call)]);
      added := added + [ToolStart(r.call)];
      var preparation := Prepare(r.call, r.behaviour);
      if preparation.Escapes? {
        escape := Some(i);
        return;
      }
      if preparation.Immediate? {
        agent.ProcessEvents(ToolEnd(preparation.final));
        Join(old(agent.events), added, [ToolEnd(preparation.final)]);
        added, order := added + [ToolEnd(preparation.final)], order + [i];
        slots := slots + [Some(preparation.final)];
      } else {
        waiting := waiting + [i];
        slots := slots + [None];
      }
    }
  }

  /** One waiting call runs to its end. */
  method FinishOne(agent: Agent, r: Request) returns (final: Finalized)
    requires !Prepared(r).Immediate?
    modifies agent`messages, agent`pendingToolCalls, agent`streaming, agent`accepting, agent`events
    ensures agent.messages == old(agent.messages) && agent.events == old(agent.events) + [ToolEnd(final)]
    ensures final == Outcome(r) && agent.pendingToolCalls == old(agent.pendingToolCalls) - {r.call.id}
  {
    var executed := Execute(r.call, r.behaviour);
    final := Finalize(executed, r.behaviour.after);
    agent.ProcessEvents(ToolEnd(final));
  }

  /** Anything that waits can finish next. */
  lemma NextToFinish(rs: seq<Request>, before: set<string>, picks: seq<nat>, q: nat)
    requires q < |After(rs, before, picks).waiting|
    ensures var p := After(rs, before, picks);
            && |p.slots| == |rs| && p.waiting[q] < |rs| && !Prepared(rs[p.waiting[q]]).Immediate?
            && After(rs, before, picks + [q]) == Finish(p, rs, q)
  {
    SecondPhase(rs, before, picks);
    assert (picks + [q])[..|picks|] == picks;
  }

  /** However the calls finished, once none waits the batch is complete. */
  lemma NothingWaits(rs: seq<Request>, before: set<string>, picks: seq<nat>)
    requires After(rs, before, picks).waiting == []
    ensures var p := After(rs, before, picks);
            && Complete(p.events, rs) && p.pending == before - Ids(rs)
            && |p.slots| == |rs| && forall j :: 0 <= j < |rs| ==> p.slots[j] == Some(Outcome(rs[j]))
  {
    SecondPhase(rs, before, picks);
    assert rs[..|rs|] == rs;
  }

  /** The second phase: what is ready finishes in any order, and each result goes to its slot. */
  method FinishAll(agent: Agent, rs: seq<Request>, ready: seq<Option<Finalized>>, late: seq<nat>,
                   ghost ended: seq<nat>, ghost es: seq<Event>, ghost before: set<string>)
    returns (slots: seq<Option<Finalized>>, ghost picks: seq<nat>, ghost added: seq<Event>, ghost order: seq<nat>)
    requires Phase(es, ended, ready, late, agent.pendingToolCalls) == First(rs, |rs|, before)
    modifies agent`messages, agent`pendingToolCalls, agent`streaming, agent`accepting, agent`events
    ensures agent.messages == old(agent.messages) && agent.events == old(agent.events) + added
    ensures Phase(es + added, order, slots, [], agent.pendingToolCalls) == After(rs, before, picks)
  {
    var waiting;
    slots, waiting, picks, added, order := ready, late, [], [], ended;
    while waiting != []
      invariant agent.messages == old(agent.messages) && agent.events == old(agent.events) + added
      invariant Phase(es + added, order, slots, waiting, agent.pendingToolCalls) == After(rs, before, picks)
      decreases |waiting|
    {
      var q: nat :| q < |waiting|;
      NextToFinish(rs, before, picks, q);
      var final := FinishOne(agent, rs[waiting[q]]);
      Join(old(agent.events), added, [ToolEnd(final)]);
      Join(es, added, [ToolEnd(final)]);
      added, picks, order := added + [ToolEnd(final)], picks + [q], order + [waiting[q]];
      slots, waiting := slots[waiting[q] := Some(final)], Except(waiting, q);
    }
  }

  /** _execute_tool_calls_parallel: prepare in source order, then run what is ready; the calls finish in
      any order, and the results are put together in source order. */
  method ExecuteParallel(agent: Agent, rs: seq<Request>) returns (b: Batch, ghost added: seq<Event>)
    modifies agent`messages, agent`pendingToolCalls, agent`streaming, agent`accepting, agent`events
    ensures agent.messages == old(agent.messages) && agent.events == old(agent.events) + added
    ensures Ran(b, added, rs)
    ensures b.Done? ==> agent.pendingToolCalls == old(agent.pendingToolCalls) - Ids(rs)
  {
    ghost var before := agent.pendingToolCalls;
    var slots, waiting, escape;
    ghost var order, picks, more;
    slots, waiting, escape, order, added := PrepareAll(agent, rs);
    if escape.Some? {
      FirstEscape(rs, escape.value, before);
      return Escaped(Prepared(rs[escape.value]).what), added;
    }
    slots, picks, more, order := FinishAll(agent, rs, slots, waiting, order, added, before);
    Join(old(agent.events), added, more);
    added := added + more;
    NothingWaits(rs, before, picks);
    var finals := seq(|slots|, j requires 0 <= j < |slots| => slots[j].value);
    assert finals == Outcomes(rs);
    b := Done(finals);
  }

  /** _execute_tool_calls: one sequential tool makes the whole batch sequential, and then the calls end
      in source order too. */
  method ExecuteToolCalls(agent: Agent, parallel: bool, rs: seq<Request>) returns (b: Batch, ghost added: seq<Event>)
    modifies agent`messages, agent`pendingToolCalls, agent`streaming, agent`accepting, agent`events
    ensures agent.messages == old(agent.messages) && agent.events == old(agent.events) + added
    ensures Ran(b, added, rs)
    ensures b.Done? ==> agent.pendingToolCalls == old(agent.pendingToolCalls) - Ids(rs)
    ensures (!parallel || exists r :: r in rs && r.behaviour.known && r.behaviour.sequential) && b.Done? ==>
              Follows(added, rs, UpTo(|rs|))
  {
    if parallel && !exists r :: r in rs && r.behaviour.known && r.behaviour.sequential {
      b, added := ExecuteParallel(agent, rs);
    } else {
      b, added := ExecuteSequential(agent, rs);
    }
  }

  // ---- error results that terminate ----------------------------------------------------------------------

  /** Nothing keeps the call from being run: no abort, a known tool, good arguments, a hook that lets it
      pass. */
  predicate IsRun(b: Behaviour) {
    && !b.abortedFirst && b.known && b.badArguments.None? && !b.before.HookRaises? && !b.before.Blocks?
    && (b.abortedAfterHook ==> b.before.NoHook?) && !b.abortedLast
  }

  predicate ToolReturns(b: Behaviour) { !b.abortedAtRun && b.execution.Returns? }

  /** The last word on whether the call asks to stop: the hook behind the tool, if it speaks about it,
      and else the tool. */
  predicate AsksToStop(b: Behaviour) {
    && IsRun(b) && !b.after.AfterRaises?
    && if b.after.Rewrites? && b.after.terminate.Some? then b.after.terminate.value
       else ToolReturns(b) && b.execution.result.terminate
  }

  /** The last word on whether a call that is run has failed. */
  predicate HasFailed(b: Behaviour) {
    if b.after.Rewrites? && b.after.isError.Some? then b.after.isError.value
    else b.after.AfterRaises? || !ToolReturns(b) || b.execution.result.status != Completed
  }

  /** A call ends in an error result that asks to stop exactly when its tool returns one, or its hook
      turns the result into one. */
  lemma ErrorAsksToStop(r: Request)
    requires !Prepared(r).Escapes?
    ensures Outcome(r).result.terminate <==> AsksToStop(r.behaviour)
    ensures Outcome(r).isError && Outcome(r).result.terminate <==> AsksToStop(r.behaviour) && HasFailed(r.behaviour)
  {
  }

  predicate AnyError(finals: seq<Finalized>) { exists i :: 0 <= i < |finals| && finals[i].isError }

  /** In a batch that is not broken off, an error result keeps the batch from terminating, except exactly
      when every call of the batch asks to stop, the failed one included. */
  lemma ErrorBatchTerminates(rs: seq<Request>)
    requires !Escaping(rs)
    ensures AnyError(Outcomes(rs)) && Terminates(Outcomes(rs)) <==>
              && (forall i :: 0 <= i < |rs| ==> AsksToStop(rs[i].behaviour))
              && (exists i :: 0 <= i < |rs| && HasFailed(rs[i].behaviour))
  {
    var fs := Outcomes(rs);
    forall i | 0 <= i < |rs|
      ensures fs[i].result.terminate <==> AsksToStop(rs[i].behaviour)
      ensures AsksToStop(rs[i].behaviour) ==> (fs[i].isError <==> HasFailed(rs[i].behaviour))
    {
      assert fs[i] == Outcome(rs[i]);
      ErrorAsksToStop(rs[i]);
    }
    if forall i :: 0 <= i < |rs| ==> AsksToStop(rs[i].behaviour) {
      assert forall i :: 0 <= i < |fs| ==> fs[i].result.terminate;
      assert AnyError(fs) <==> exists i :: 0 <= i < |rs| && HasFailed(rs[i].behaviour);
    } else {
      var i :| 0 <= i < |rs| && !AsksToStop(rs[i].behaviour);
      assert !fs[i].result.terminate;
    }
  }

  /** Such a batch: one tool without any hook returns a failed result with the flag set. */
  lemma FailedToolTerminates(tc: ToolCall)
    ensures var b := Behaviour(false, true, false, None, NoHook, false, false, false,
                               Returns(Result("boom", true, Failed)), Keeps);
            AnyError(Outcomes([Request(tc, b)])) && Terminates(Outcomes([Request(tc, b)]))
  {
    var b := Behaviour(false, true, false, None, NoHook, false, false, false,
                       Returns(Result("boom", true, Failed)), Keeps);
    var rs := [Request(tc, b)];
    assert AsksToStop(rs[0].behaviour) && HasFailed(rs[0].behaviour);
    ErrorBatchTerminates(rs);
  }
}
