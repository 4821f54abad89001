/** What the result message of a tool call says, from the way the environment treats the call. */
module AgentOutcomes {
  import opened Options
  import opened Agent
  import opened AgentRecord
  import opened AgentTools

  /** The message that answers the call with this content. */
  predicate Says(m: Message, r: Request, content: string, isError: bool, status: Status) {
    m == ToolResult(r.call.id, r.call.name, content, isError, status)
  }

  predicate SaysAborted(m: Message, r: Request) { Says(m, r, "Operation aborted", true, Cancelled) }

  function AnswerTo(r: Request): Message { ResultMessage(Outcome(r)) }

  /** The hook in front of the tool is asked, and lets the call pass. */
  predicate Passes(h: Hook) { h.NoHook? || h.Allows? }

  predicate Checked(b: Behaviour) { !b.abortedFirst && b.known && b.badArguments.None? }

  /** The abort signal stops the call before it is run. */
  predicate AbortedEarly(b: Behaviour) {
    || b.abortedFirst
    || (Checked(b) && (b.before.Allows? || b.before.Blocks?) && b.abortedAfterHook)
    || (Checked(b) && Passes(b.before) && b.abortedLast)
  }

  /** The hook blocks the call, of a tool that is known or not. */
  predicate IsBlocked(b: Behaviour) {
    b.before.Blocks? && !b.abortedFirst && (b.known ==> b.badArguments.None? && !b.abortedAfterHook)
  }

  /** A call that is not run is answered with an error that says why. */
  lemma RefusalsSayWhy(r: Request)
    ensures var b, m := r.behaviour, AnswerTo(r);
            && (AbortedEarly(b) ==> SaysAborted(m, r))
            && (IsBlocked(b) ==>
                  var reason := b.before.reason;
                  Says(m, r, if reason.None? || reason.value == "" then "Tool execution was blocked" else reason.value,
                       true, b.before.blockStatus))
            && (!b.abortedFirst && !b.known && Passes(b.before) ==>
                  Says(m, r, "Tool \"" + r.call.name + "\" not found.", true, Failed))
            && (!b.abortedFirst && b.known && b.badArguments.Some? ==> Says(m, r, b.badArguments.value, true, Failed))
            && (Checked(b) && b.before.HookRaises? ==> Says(m, r, b.before.what, true, Failed))
  {
  }

  /** These and the calls that are run are all calls, but for those from which the hook of an unknown tool
      raises. */
  lemma RefusedOrRun(r: Request)
    ensures var b := r.behaviour;
            && (Prepared(r).Ready? <==> IsRun(b))
            && (Prepared(r).Escapes? <==> !b.abortedFirst && !b.known && b.before.HookRaises?)
            && (Prepared(r).Immediate? <==>
                  || AbortedEarly(b) || IsBlocked(b) || (!b.abortedFirst && !b.known && Passes(b.before))
                  || (!b.abortedFirst && b.known && b.badArguments.Some?) || (Checked(b) && b.before.HookRaises?))
  {
  }

  /** A call that is run is answered with what its tool returns or raises, if the hook behind it keeps
      that. */
  lemma RunSaysResult(r: Request)
    requires IsRun(r.behaviour) && r.behaviour.after.Keeps?
    ensures var b, m := r.behaviour, AnswerTo(r);
            && (b.abortedAtRun || b.execution.Interrupted? ==> SaysAborted(m, r))
            && (!b.abortedAtRun && b.execution.Raises? ==>
                  Says(m, r, "Error: " + b.execution.what, true, b.execution.raisedStatus))
            && (!b.abortedAtRun && b.execution.Returns? ==>
                  var result := b.execution.result;
                  Says(m, r, result.content, result.status != Completed, result.status))
  {
  }

  /** The same call with a hook behind it that keeps the result. */
  function WithoutHook(r: Request): Request { r.(behaviour := r.behaviour.(after := Keeps)) }

  /** A hook that rewrites replaces exactly the fields it sets - and the status with the error flag - and
      one that raises leaves its own error. */
  lemma HookSaysMore(r: Request)
    requires IsRun(r.behaviour)
    ensures var m, kept := AnswerTo(r), AnswerTo(WithoutHook(r));
            match r.behaviour.after
            case Keeps => m == kept
            case AfterRaises(what) => Says(m, r, "Error: " + what, true, Failed)
            case Rewrites(content, isError, _) =>
              Says(m, r,
                   if content.Some? then content.value else kept.content,
                   if isError.Some? then isError.value else kept.isError,
                   if isError == Some(true) then Failed else if isError == Some(false) then Completed else kept.status)
  {
  }

  /** So the messages of a batch, in source order, are the answers to its calls. */
  lemma BatchAnswers(rs: seq<Request>, i: nat)
    requires i < |rs|
    ensures |Results(Outcomes(rs))| == |rs| && Results(Outcomes(rs))[i] == AnswerTo(rs[i])
  {
  }

  /** In a recorded run a reply that is an error or was aborted is the last, without results, and any other
      that is finished has one result for each of its calls, in their order. */
  lemma RepliesDecide(scripts: seq<Script>, turns: seq<Turn>, start: seq<Message>, prompts: seq<Message>, i: nat)
    requires Recorded(scripts, turns, start, prompts) && i < |turns| && turns[i].finished
    ensures turns[i].reply.Some? && turns[i].reply.value.Assistant?
    ensures var m, results := turns[i].reply.value, turns[i].results;
            && (m.stop in {Errored, Aborted} ==> results == [] && i == |turns| - 1)
            && (m.stop in {Stop, ToolUse, Length} ==>
                  && |results| == |m.calls|
                  && forall k :: 0 <= k < |results| ==>
                       results[k].ToolResult? && results[k].callId == m.calls[k].id
                       && results[k].toolName == m.calls[k].name)
  {
    EveryTurn(scripts, turns, start, prompts, i);
  }
}
