/** The live side of Plan Mode: a session that appends to its log under guards and replays the log
    after every append. The theorems are that the guards and the reducer fit together. */
module PlanSession {
  import opened Chars
  import opened Options
  import opened PlanMode
  import opened PlanProofs

  datatype Outcome = Ok | Error(code: string)

  /** The future a question waits on, if the session is interactive. */
  datatype Future = NoFuture | Waiting | Answered | CancelledFuture

  predicate FreshEntryId(log: seq<Item>, id: string) {
    forall e :: e in Entries(log) ==> e.id != id
  }

  /** Appending one entry to the log is one step of the fold. */
  lemma Extend(env: Env, log: seq<Item>, e: Entry)
    requires FreshEntryId(log, e.id)
    ensures Fold(env, log + [Good(e)]) == Step(env, Fold(env, log), Good(e))
    ensures Entries(log + [Good(e)]) == Entries(log) + [e]
    ensures UniqueIds(Entries(log + [Good(e)])) <==> UniqueIds(Entries(log))
    ensures Clean(env, log + [Good(e)]) <==>
              Clean(env, log) && Step(env, Fold(env, log), Good(e)).state.recoveryError.None?
  {
    var more := log + [Good(e)];
    assert more[..|log|] == log && more[..|more|] == more && log[..|log|] == log;
    UniqueSnoc(Entries(log), e);
    if Clean(env, more) {
      assert At(env, more, |more|).state.recoveryError.None?;
      forall i | 0 <= i <= |log|
        ensures At(env, log, i).state.recoveryError.None?
      {
        assert more[..i] == log[..i];
        assert At(env, more, i).state.recoveryError.None?;
      }
    }
    if Clean(env, log) && Step(env, Fold(env, log), Good(e)).state.recoveryError.None? {
      forall i | 0 <= i <= |more|
        ensures At(env, more, i).state.recoveryError.None?
      {
        if i <= |log| {
          assert more[..i] == log[..i];
          assert At(env, log, i).state.recoveryError.None?;
        }
      }
    }
  }

  lemma UniqueSnoc(entries: seq<Entry>, e: Entry)
    requires forall x :: x in entries ==> x.id != e.id
    ensures UniqueIds(entries + [e]) <==> UniqueIds(entries)
  {
    var more := entries + [e];
    if UniqueIds(more) {
      forall i, j | 0 <= i < j < |entries|
        ensures entries[i].id != entries[j].id
      {
        assert more[i] == entries[i] && more[j] == entries[j];
      }
    }
  }

  // ---- the steps behind the operations, on the reducer's variables ----------------------------

  function EnterBody(planId: string): Body { ModeChange("plan", Some(planId), None, None) }

  /** The entries that enter a new episode. */
  function Entering(state: PlanState, exitId: string, enterId: string, planId: string): seq<Item> {
    (if state.phase == RecoveryError then [Good(Entry(exitId, ExitBody(state.activePlanId)))] else [])
    + [Good(Entry(enterId, EnterBody(planId)))]
  }

  function ExitBody(planId: Option<string>): Body { ModeChange("default", planId, Some("user"), None) }

  lemma EnterStep(env: Env, c: Ctx, id: string, planId: string)
    requires c.state.recoveryError.None? && c.state.mode == Default && c.state.phase != Executing
    requires ValidToken(planId) && planId !in c.planIds
    ensures Step(env, c, Good(Entry(id, EnterBody(planId)))).state
         == INITIAL.(mode := Plan, phase := Drafting, activePlanId := Some(planId))
  {
  }

  /** The user can always leave an episode, an uncertain run, or an error. */
  lemma ExitStep(env: Env, c: Ctx, id: string)
    requires Reachable(env, c)
    requires c.state.recoveryError.Some? || c.state.mode == Plan || c.state.phase == Uncertain
    ensures Step(env, c, Good(Entry(id, ExitBody(c.state.activePlanId)))).state
         == c.state.(mode := Default, phase := ExitPhase(c.state), pendingQuestion := None, recoveryError := None,
                     handoffTarget := if c.state.recoveryError.Some? then c.state.handoffTarget else None)
  {
  }

  /** A question is accepted exactly when its id is new in the episode and its form is right. */
  lemma QuestionStep(env: Env, c: Ctx, id: string, b: Body)
    requires Reachable(env, c) && c.state.phase == Drafting && b.Question? && Some(b.qPlanId) == c.state.activePlanId
    ensures Step(env, c, Good(Entry(id, b))).state
         == if (b.qPlanId, b.questionId) !in c.questionIds && ValidQuestion(b)
            then c.state.(phase := AwaitingAnswer, pendingQuestion := Some(b.questionId))
            else Recover(c, id, "INVALID_PLAN_QUESTION").state
  {
  }

  lemma AnswerStep(env: Env, c: Ctx, id: string, b: Body)
    requires Reachable(env, c) && c.state.pendingQuestion.Some? && b.Answer?
    requires Some(b.aPlanId) == c.state.activePlanId && Some(b.answeredId) == c.state.pendingQuestion
             && !IsBlank(b.answer)
    ensures Step(env, c, Good(Entry(id, b))).state == c.state.(phase := Drafting, pendingQuestion := None)
  {
  }

  function AfterMessage(s: PlanState, b: Body): PlanState
    requires b.Message?
  {
    if s.phase == Ready && b.role == "user" then s.(phase := Drafting, legacyCandidate := false)
    else if s.phase == Drafting && b.role == "user" then s.(legacyCandidate := false)
    else if s.phase == Drafting && b.role == "assistant" then s.(legacyCandidate := b.planTags)
    else s
  }

  lemma MessageStep(env: Env, c: Ctx, id: string, b: Body)
    requires Reachable(env, c) && b.Message?
    ensures Step(env, c, Good(Entry(id, b))).state == AfterMessage(c.state, b)
  {
  }

  /** The id of a run is refused that is no valid token - though not with a legacy revision - or was used
      before. */
  predicate Rejects(c: Ctx, run: PlanRun)
    requires c.state.latestRevision.Some? && run.runId.Some?
  {
    || (c.state.latestRevision.value.schemaVersion >= SCHEMA_VERSION && !ValidToken(run.runId.value))
    || run.runId.value in c.runIds
  }

  lemma StartStep(env: Env, c: Ctx, id: string, run: PlanRun)
    requires Reachable(env, c) && c.state.phase == Ready && run.status == "started" && run.runId.Some?
    requires Confirms(run, c.state.latestRevision.value) && !Rejects(c, run)
    ensures Step(env, c, Good(Entry(id, Run(run)))).state
         == c.state.(mode := Default, latestRun := Some(run), pendingQuestion := None,
                     phase := if env.liveRun == run.runId then Executing else Uncertain)
  {
  }

  /** A start with such a run id leaves an error. */
  lemma StartRejected(env: Env, c: Ctx, id: string, run: PlanRun)
    requires Reachable(env, c) && c.state.phase == Ready && run.status == "started" && run.runId.Some?
    requires Rejects(c, run)
    ensures Step(env, c, Good(Entry(id, Run(run)))).state == Recover(c, id, "INVALID_PLAN_RUN").state
  {
  }

  lemma FinishStep(env: Env, c: Ctx, id: string, run: PlanRun)
    requires Reachable(env, c) && c.state.phase in {Executing, Uncertain}
    requires run.status in {"completed", "failed", "aborted"} && run.(status := "started") == c.state.latestRun.value
    ensures Step(env, c, Good(Entry(id, Run(run)))).state
         == c.state.(mode := Default, latestRun := Some(run), phase := EndPhase(run.status))
  {
  }

  function EndPhase(status: string): Phase {
    if status == "completed" then Settled else if status == "failed" then Failed else Aborted
  }

  // ---- submitting a plan ---------------------------------------------------------------------

  predicate CallsTool(b: Body, toolCallId: string) {
    b.Message? && b.role == "assistant" && exists k :: 0 <= k < |b.toolCalls| && b.toolCalls[k].id == toolCallId
  }

  predicate ReusesCall(entries: seq<Entry>, toolCallId: string) {
    exists k :: 0 <= k < |entries| && entries[k].body.Revision?
      && entries[k].body.rev.submittedByToolCallId == toolCallId && entries[k].body.rev.originSessionId.None?
  }

  /** The newest entry is the complete message of the assistant whose only tool call is this one, not used
      yet. */
  predicate IsSubmitSource(branch: seq<Entry>, toolCallId: string, title: string, markdown: string) {
    && !ReusesCall(branch, toolCallId) && branch != []
    && var last := branch[|branch| - 1].body;
       && last.Message? && last.role == "assistant" && !Interrupted(last.stopReason)
       && last.toolCalls == [ToolCall(toolCallId, "submit_plan", Some(Arguments(Some(title), Some(markdown))))]
  }

  lemma SourceCalls(branch: seq<Entry>, toolCallId: string, title: string, markdown: string)
    ensures IsSubmitSource(branch, toolCallId, title, markdown) ==> CallsTool(branch[|branch| - 1].body, toolCallId)
  {
    if IsSubmitSource(branch, toolCallId, title, markdown) {
      assert branch[|branch| - 1].body.toolCalls[0].id == toolCallId;
    }
  }

  /** The number of the next revision. */
  function NextNumber(state: PlanState): int {
    if state.latestRevision.Some? then state.latestRevision.value.revision + 1 else 1
  }

  /** The revision that a submission becomes. */
  function NewRevision(sha: DigestFields -> string, state: PlanState, title: string, markdown: string, sourceId: string,
                   toolCallId: string): Option<PlanRevision>
  {
    if state.activePlanId.None? then None
    else CreateRevision(sha, state.activePlanId.value, NextNumber(state), title, markdown, sourceId, toolCallId, None)
  }

  datatype Source = SourceId(id: string) | NoSource(code: string)

  /** The persisted message behind a submission: it must be the newest entry, complete, and contain
      exactly this call with exactly these arguments. */
  method ValidateSubmitSource(branch: seq<Entry>, toolCallId: string, title: string, markdown: string)
    returns (source: Source)
    ensures source.SourceId? <==> IsSubmitSource(branch, toolCallId, title, markdown)
    ensures source.SourceId? ==> source.id == branch[|branch| - 1].id
  {
    SourceCalls(branch, toolCallId, title, markdown);
    if ReusesCall(branch, toolCallId) {
      return NoSource("PLAN_SUBMIT_REUSED");
    }
    var i := |branch|;
    while i > 0
      invariant 0 <= i <= |branch|
      invariant i < |branch| ==> !CallsTool(branch[|branch| - 1].body, toolCallId)
    {
      i := i - 1;
      var b := branch[i].body;
      if CallsTool(b, toolCallId) {
        if i != |branch| - 1 {
          return NoSource("PLAN_SOURCE_MISMATCH");
        }
        if Interrupted(b.stopReason) {
          return NoSource("PLAN_SUBMIT_INCOMPLETE");
        }
        if |b.toolCalls| != 1 || b.toolCalls[0].name != "submit_plan" {
          return NoSource("PLAN_SUBMIT_NOT_EXCLUSIVE");
        }
        var arguments := b.toolCalls[0].arguments;
        if arguments.None? || arguments.value.title != Some(title) || arguments.value.markdown != Some(markdown) {
          return NoSource("PLAN_SOURCE_MISMATCH");
        }
        return SourceId(branch[i].id);
      }
    }
    return NoSource("PLAN_SOURCE_MISSING");
  }

  /** In a state without an error, an assistant message that ends the log is what the reducer has
      just seen. */
  lemma LastMessageSeen(env: Env, log: seq<Item>)
    requires Fold(env, log).state.recoveryError.None?
    requires Entries(log) != [] && Entries(log)[|Entries(log)| - 1].body.Message?
    ensures var e, c := Entries(log)[|Entries(log)| - 1], Fold(env, log);
            c.previous == Some(e) && e.id in c.messages && c.messages[e.id] == e
  {
  }

  lemma {:induction false} SubmittedAreEntries(env: Env, log: seq<Item>, toolCallId: string)
    requires toolCallId in Fold(env, log).submitted
    ensures ReusesCall(Entries(log), toolCallId)
  {
    if log != [] {
      var n := |log| - 1;
      if toolCallId in Fold(env, log[..n]).submitted {
        SubmittedAreEntries(env, log[..n], toolCallId);
        var before := Entries(log[..n]);
        var k :| 0 <= k < |before| && before[k].body.Revision?
                 && before[k].body.rev.submittedByToolCallId == toolCallId && before[k].body.rev.originSessionId.None?;
        assert Entries(log)[k] == before[k];
      } else {
        SubmittedStep(env, Fold(env, log[..n]), log[n], toolCallId);
        var k := |Entries(log)| - 1;
        assert Entries(log)[k] == log[n].entry;
      }
    }
  }

  lemma SubmittedStep(env: Env, c: Ctx, item: Item, toolCallId: string)
    requires toolCallId in Step(env, c, item).submitted && toolCallId !in c.submitted
    ensures IsSubmission(item) && item.entry.body.rev.submittedByToolCallId == toolCallId
  {
  }

  /** A submission is accepted, and the plan ready, exactly when the tool call id is a valid token and the
      markdown has no carriage return in front of a CRLF; otherwise the entry the session has just written
      is rejected. */
  lemma SubmitStep(env: Env, c: Ctx, id: string, rev: PlanRevision, markdown: string)
    requires Reachable(env, c) && c.state.phase == Drafting && Some(rev.planId) == c.state.activePlanId
    requires rev.revision == if c.state.latestRevision.Some? then c.state.latestRevision.value.revision + 1 else 1
    requires Some(rev) == CreateRevision(env.sha, rev.planId, rev.revision, rev.title, markdown, rev.sourceMessageId,
                                         rev.submittedByToolCallId, None)
    requires rev.submittedByToolCallId !in c.submitted && SourceMatches(c, rev)
    ensures Step(env, c, Good(Entry(id, Revision(rev)))).state == Submitted(c, id, rev, markdown)
  {
    NormalizeIdempotent(markdown);
    if ValidToken(rev.submittedByToolCallId) { SubmitSpec(env, c, id, rev); }
  }

  function Submitted(c: Ctx, id: string, rev: PlanRevision, markdown: string): PlanState {
    if !ValidToken(rev.submittedByToolCallId) then Recover(c, id, "INVALID_PLAN_REVISION_SOURCE").state
    else if HasCrCrLf(markdown) then Recover(c, id, "INVALID_PLAN_SPEC").state
    else c.state.(latestRevision := Some(rev), phase := Ready, legacyCandidate := false)
  }

  lemma SubmitSpec(env: Env, c: Ctx, id: string, rev: PlanRevision)
    requires Reachable(env, c) && c.state.phase == Drafting && Some(rev.planId) == c.state.activePlanId
    requires rev.revision == if c.state.latestRevision.Some? then c.state.latestRevision.value.revision + 1 else 1
    requires rev.schemaVersion == SCHEMA_VERSION && rev.originSessionId.None?
             && Digest(env.sha, rev) == Some(rev.digest)
    requires ValidToken(rev.submittedByToolCallId) && rev.submittedByToolCallId !in c.submitted
    requires SourceMatches(c, rev)
    requires Normalize(rev.markdown) == rev.markdown ==> ValidSpec(rev.planId, rev.revision, rev.title, rev.markdown)
    ensures Step(env, c, Good(Entry(id, Revision(rev)))).state
         == if Normalize(rev.markdown) == rev.markdown
            then c.state.(latestRevision := Some(rev), phase := Ready, legacyCandidate := false)
            else Recover(c, id, "INVALID_PLAN_SPEC").state
  {
    assert rev.revision >= 1;
  }

  const CR_CR_LF := "x\r\r\n"

  /** The entries of a session that has been asked to plan and has called submit_plan. */
  const SUBMITTING := [
    Good(Entry("1", ModeChange("plan", Some("p"), None, None))),
    Good(Entry("2", Message("assistant", Some("toolUse"),
                            [ToolCall("c", "submit_plan", Some(Arguments(Some("t"), Some(CR_CR_LF))))], false)))]

  lemma SubmittingDrafts(env: Env)
    ensures var c := Fold(env, SUBMITTING);
            && c.state == INITIAL.(mode := Plan, phase := Drafting, activePlanId := Some("p"))
            && c.submitted == {} && "2" in c.messages && c.messages["2"] == SUBMITTING[1].entry
            && c.previous == Some(SUBMITTING[1].entry)
  {
    var log := SUBMITTING;
    assert log[..1] == [log[0]] && log[..1][..0] == [] && log[..2] == log;
    var c := Step(env, START, log[0]);
    assert c.state == INITIAL.(mode := Plan, phase := Drafting, activePlanId := Some("p"));
    assert Fold(env, log[..1]) == c;
    assert Fold(env, log) == Step(env, c, log[1]);
  }

  lemma SpecFits()
    ensures ValidSpec("p", 1, "t", CR_CR_LF) && HasCrCrLf(CR_CR_LF)
  {
    var n := "x\r\n";
    assert CR_CR_LF[1..] == "\r\r\n" && CR_CR_LF[1..][1..] == "\r\n" && CR_CR_LF[1..][1..][2..] == "";
    assert Normalize(CR_CR_LF) == n;
    assert "t"[0] == 't' && !IsSpaceChar("t"[0]) && n[0] == 'x' && !IsSpaceChar(n[0]);
    assert n[1..] == "\r\n" && n[1..][1..] == "\n" && n[1..][1..][1..] == "";
    assert Utf8Length(n) == 1 + Utf8Length("\r\n") == 2 + Utf8Length("\n") == 3;
  }

  /** A submission that passes every guard of the session and is then rejected by the reducer. */
  lemma AcceptedThenRejected(sha: DigestFields -> string)
    ensures var env := Env(sha, None, None);
            var rev := CreateRevision(sha, "p", 1, "t", CR_CR_LF, "2", "c", None);
            && Fold(env, SUBMITTING).state.phase == Drafting && rev.Some?
               && SourceMatches(Fold(env, SUBMITTING), rev.value)
            && Step(env, Fold(env, SUBMITTING), Good(Entry("3", Revision(rev.value)))).state.phase == RecoveryError
  {
    var env := Env(sha, None, None);
    SpecFits();
    SubmittingDrafts(env);
    FoldReachable(env, SUBMITTING);
    var rev := CreateRevision(sha, "p", 1, "t", CR_CR_LF, "2", "c", None).value;
    assert SourceMatches(Fold(env, SUBMITTING), rev);
    SubmitStep(env, Fold(env, SUBMITTING), "3", rev, CR_CR_LF);
  }

  lemma OneThenOther(log: seq<Item>, a: Item, b: Item)
    ensures log + [a] + [b] == log + ([a] + [b])
  {
  }

  // ---- the session ---------------------------------------------------------------------------

  /** strip() */
  function Strip(s: string): string {
    if s != "" && IsSpaceChar(s[0]) then Strip(s[1..])
    else if s != "" && IsSpaceChar(s[|s| - 1]) then Strip(s[..|s| - 1])
    else s
  }

  lemma {:induction false} StripLeavesText(s: string)
    ensures Strip(s) != "" ==> !IsBlank(Strip(s))
  {
    if s != "" && IsSpaceChar(s[0]) {
      StripLeavesText(s[1..]);
    } else if s != "" && IsSpaceChar(s[|s| - 1]) {
      StripLeavesText(s[..|s| - 1]);
    }
  }

  /** What a session keeps: see PlanSession.Valid. */
  ghost predicate Consistent(env: Env, log: seq<Item>, state: PlanState, clean: bool) {
    && state == Reduced(env, log)
    && Fold(env.(liveRun := None), log) == Disowned(Fold(env, log))
    && (env.liveRun.Some? ==> UniqueIds(Entries(log)) && state.phase == Executing)
    && (clean <==> UniqueIds(Entries(log)) && Clean(env.(liveRun := None), log))
  }

  /** A restart commutes with a step when nobody owns a run, or when the step raises no error. */
  lemma RestartStep(env: Env, c: Ctx, item: Item)
    requires Reachable(env, c)
    requires env.liveRun.Some? ==> c.state.recoveryError.None? && Step(env, c, item).state.recoveryError.None?
    ensures Step(env.(liveRun := None), Disowned(c), item) == Disowned(Step(env, c, item))
  {
    if env.liveRun.Some? {
      DisownedStep(env, c, item);
    } else {
      StepHasFacts(env, c, item);
      assert env.(liveRun := None) == env;
    }
  }

  lemma AppendConsistent(env: Env, log: seq<Item>, state: PlanState, clean: bool, e: Entry)
    requires Consistent(env, log, state, clean) && FreshEntryId(log, e.id)
    requires env.liveRun.Some? ==> Step(env, Fold(env, log), Good(e)).state.phase == Executing
    ensures var after := log + [Good(e)];
            Consistent(env, after, Reduced(env, after), clean && Fold(env, after).state.recoveryError.None?)
  {
    var c := Fold(env, log);
    Extend(env, log, e);
    Extend(env.(liveRun := None), log, e);
    FoldReachable(env, log);
    StepHasFacts(env, c, Good(e));
    RestartStep(env, c, Good(e));
  }

  // ---- handoff -------------------------------------------------------------------------------

  /** The log of the session that continues a plan: the handoff entry and a copy of the revision. */
  function ChildLog(sourceId: string, rev: PlanRevision, enterId: string, copyId: string): seq<Item> {
    [Good(Entry(enterId, ModeChange("plan", Some(rev.planId), Some("handoff"), Some(sourceId)))),
     Good(Entry(copyId, Revision(rev.(originSessionId := Some(sourceId)))))]
  }

  function HandoffExit(planId: string, targetId: string): Body {
    ModeChange("default", Some(planId), Some("handoff"), Some(targetId))
  }

  /** The child drafts the plan it has entered. */
  function Entered(enter: Entry, planId: string, sourceId: string): Ctx {
    START.(planIds := {} + {planId}, handoffOrigin := Some(sourceId), previous := Some(enter),
           state := INITIAL.(mode := Plan, phase := Drafting, activePlanId := Some(planId),
                             handoffSource := Some(sourceId)))
  }

  lemma ChildEnters(env: Env, enter: Entry, planId: string, sourceId: string)
    requires env.parent == Some(sourceId) && ValidToken(sourceId) && ValidToken(planId)
    requires enter.body == ModeChange("plan", Some(planId), Some("handoff"), Some(sourceId))
    ensures Fold(env, [Good(enter)]) == Entered(enter, planId, sourceId) && Entries([Good(enter)]) == [enter]
    ensures UniqueIds(Entries([Good(enter)])) && Clean(env, [Good(enter)])
  {
    CleanStart(env);
    EnterFromStart(env, enter, planId, sourceId);
    Extend(env, [], enter);
    assert [] + [Good(enter)] == [Good(enter)] && [] + [enter] == [enter];
  }

  lemma CleanStart(env: Env)
    ensures Fold(env, []) == START && Entries([]) == [] && UniqueIds(Entries([])) && Clean(env, [])
  {
    var none: seq<Item> := [];
    assert none[..0] == none;
  }

  lemma EnterFromStart(env: Env, enter: Entry, planId: string, sourceId: string)
    requires env.parent == Some(sourceId) && ValidToken(sourceId) && ValidToken(planId)
    requires enter.body == ModeChange("plan", Some(planId), Some("handoff"), Some(sourceId))
    ensures Step(env, START, Good(enter)) == Entered(enter, planId, sourceId)
  {
  }

  /** The child replays to the same plan, ready, and cannot hand it off again. */
  lemma ChildIsReady(sha: DigestFields -> string, sourceId: string, rev: PlanRevision, enterId: string, copyId: string)
    requires ValidToken(sourceId) && ValidToken(rev.planId) && Sound(sha, rev) && enterId != copyId
    ensures var child := ChildLog(sourceId, rev, enterId, copyId);
            var state := Reduced(Env(sha, None, Some(sourceId)), child);
            && state.mode == Plan && state.phase == Ready && state.handoffSource == Some(sourceId)
               && !state.CanHandoff()
            && state.latestRevision == Some(rev.(originSessionId := Some(sourceId)))
            && UniqueIds(Entries(child)) && Clean(Env(sha, None, Some(sourceId)), child)
  {
    var env := Env(sha, None, Some(sourceId));
    var child := ChildLog(sourceId, rev, enterId, copyId);
    var enter, copy := child[0].entry, child[1].entry;
    ChildEnters(env, enter, rev.planId, sourceId);
    Extend(env, [Good(enter)], copy);
    assert [Good(enter)] + [Good(copy)] == child;
    CopyStep(sha, Entered(enter, rev.planId, sourceId), copyId, rev.(originSessionId := Some(sourceId)));
  }

  lemma CopyStep(sha: DigestFields -> string, c: Ctx, id: string, rev: PlanRevision)
    requires Sound(sha, rev) && c.state.mode == Plan && c.state.phase == Drafting && c.state.latestRevision.None?
    requires c.state.activePlanId == Some(rev.planId) && c.submitted == {}
    requires rev.originSessionId.Some? && ValidToken(rev.originSessionId.value)
             && c.handoffOrigin == rev.originSessionId
    ensures OnRevision(sha, c, Entry(id, Revision(rev))).state
         == c.state.(latestRevision := Some(rev), pendingQuestion := None, phase := Ready, legacyCandidate := false)
  {
    assert IsHandoffCopy(c, rev);
  }

  lemma HandoffExitStep(env: Env, c: Ctx, id: string, targetId: string)
    requires Reachable(env, c) && c.state.phase == Ready && ValidToken(targetId)
    ensures var planId := c.state.latestRevision.value.planId;
            Step(env, c, Good(Entry(id, HandoffExit(planId, targetId)))).state
            == c.state.(mode := Default, phase := Cancelled, pendingQuestion := None, handoffTarget := Some(targetId))
  {
  }

  /** The same plan, apart from the session it came from. */
  predicate SamePlan(state: PlanState, rev: PlanRevision) {
    && state.phase == Ready && state.latestRevision.Some?
    && state.latestRevision.value.(originSessionId := None) == rev.(originSessionId := None)
  }

  /** The writes of a handoff in program order are the two child entries and then the source's exit.
      Whatever number of them survives a crash, the source or the child replays to the plan, ready. */
  lemma HandoffNeverLosesThePlan(env: Env, log: seq<Item>, enterId: string, copyId: string, exitId: string,
                                 sourceId: string, targetId: string, written: nat)
    requires env.liveRun.None? && Reduced(env, log).CanHandoff() && FreshEntryId(log, exitId)
    requires ValidToken(sourceId) && ValidToken(targetId) && enterId != copyId && written <= 3
    ensures var rev := Reduced(env, log).latestRevision.value;
            var child := ChildLog(sourceId, rev, enterId, copyId);
            var source := if written == 3 then log + [Good(Entry(exitId, HandoffExit(rev.planId, targetId)))] else log;
            || SamePlan(Reduced(env, source), rev)
            || SamePlan(Reduced(Env(env.sha, None, Some(sourceId)), child[..if written < 2 then written else 2]), rev)
  {
    FoldReachable(env, log);
    var rev := Reduced(env, log).latestRevision.value;
    var child := ChildLog(sourceId, rev, enterId, copyId);
    if written == 3 {
      ChildIsReady(env.sha, sourceId, rev, enterId, copyId);
      assert child[..2] == child;
    }
  }

  class PlanSession {
    const sha: DigestFields -> string
    const sessionId: string
    const parent: Option<string>
    /** Whether every prefix of the log replays without error. */
    ghost var clean: bool
    var log: seq<Item>
    var planState: PlanState
    var activePlanRunId: Option<string>
    var questionFuture: Future
    var isProcessing: bool

    function Environment(): Env
      reads this`activePlanRunId
    {
      Env(sha, activePlanRunId, parent)
    }

    /** The same log as a restarted process sees it: nobody owns a run. */
    function Restarted(): Env {
      Env(sha, None, parent)
    }

    ghost function Vars(): Ctx
      reads this`activePlanRunId, this`log
    {
      Fold(Environment(), log)
    }

    /** The state is what replaying the log gives; a restart would show the same state, except that a
        plan this process is executing would be uncertain. */
    ghost predicate Valid()
      reads this
    {
      Consistent(Environment(), log, planState, clean)
    }

    /** Opens a session on a stored log. */
    constructor (sha: DigestFields -> string, sessionId: string, parent: Option<string>, log: seq<Item>)
      ensures Valid() && this.sha == sha && this.sessionId == sessionId && this.parent == parent && this.log == log
      ensures activePlanRunId == None && !isProcessing && questionFuture == NoFuture
      ensures clean <==> UniqueIds(Entries(log)) && Clean(Env(sha, None, parent), log)
    {
      this.sha, this.sessionId, this.parent, this.log := sha, sessionId, parent, log;
      this.clean := UniqueIds(Entries(log)) && Clean(Env(sha, None, parent), log);
      this.activePlanRunId, this.questionFuture, this.isProcessing := None, NoFuture, false;
      this.planState := Reduced(Env(sha, None, parent), log);
      FoldReachable(Env(sha, None, parent), log);
    }

    /** _sync_plan_state */
    method Sync()
      modifies this`planState
      ensures planState == Reduced(Environment(), log)
    {
      planState := ReducePlanState(Environment(), log);
    }

    /** Appends an entry, and replays. The log stays clean if the reducer accepts the entry. */
    method Append(id: string, body: Body)
      requires Valid() && FreshEntryId(log, id)
      requires activePlanRunId.Some? ==>
                 Step(Environment(), Vars(), Good(Entry(id, body))).state.phase == Executing
      modifies this`log, this`planState, this`clean
      ensures Valid() && log == old(log) + [Good(Entry(id, body))]
      ensures Vars() == Step(Environment(), old(Vars()), Good(Entry(id, body)))
      ensures Entries(log) == old(Entries(log)) + [Entry(id, body)]
      ensures UniqueIds(Entries(log)) <==> old(UniqueIds(Entries(log)))
      ensures UniqueIds(Entries(log)) ==> planState == Vars().state
      ensures clean <==> old(clean) && Vars().state.recoveryError.None?
    {
      var e := Entry(id, body);
      var after := log + [Good(e)];
      ghost var env := Environment();
      AppendConsistent(env, log, planState, clean, e);
      Extend(env, log, e);
      clean := clean && Fold(env, after).state.recoveryError.None?;
      log := after;
      Sync();
    }

    /** From an error the failed episode is left first. */
    method EnterPlanMode(exitId: string, enterId: string, planId: string) returns (r: Outcome)
      requires Valid() && FreshEntryId(log, exitId) && FreshEntryId(log, enterId) && exitId != enterId
      requires ValidToken(planId) && planId !in Vars().planIds
      modifies this`log, this`planState, this`clean
      ensures Valid()
      ensures r.Error? <==> isProcessing || activePlanRunId.Some?
      ensures clean == old(clean)
      ensures r.Error? || (old(planState).mode == Plan && old(planState).phase != RecoveryError) ==>
                log == old(log) && planState == old(planState)
      ensures r.Ok? && !(old(planState).mode == Plan && old(planState).phase != RecoveryError) ==>
                && log == old(log) + Entering(old(planState), exitId, enterId, planId)
                && if UniqueIds(Entries(log))
                then planState == INITIAL.(mode := Plan, phase := Drafting, activePlanId := Some(planId))
                else planState.phase == RecoveryError
    {
      if isProcessing || activePlanRunId.Some? {
        return Error("RUN_IN_PROGRESS");
      }
      if planState.mode == Plan && planState.phase != RecoveryError {
        return Ok;
      }
      FoldReachable(Environment(), log);
      CleanNow();
      if planState.phase == RecoveryError {
        EnterFromError(exitId, enterId, planId);
      } else {
        BeginEpisode(enterId, planId);
      }
      return Ok;
    }

    method EnterFromError(exitId: string, enterId: string, planId: string)
      requires Valid() && FreshEntryId(log, exitId) && FreshEntryId(log, enterId) && exitId != enterId
      requires planState.phase == RecoveryError && activePlanRunId.None?
      requires ValidToken(planId) && planId !in Vars().planIds
      modifies this`log, this`planState, this`clean
      ensures Valid() && clean == old(clean) && log == old(log) + Entering(old(planState), exitId, enterId, planId)
      ensures if UniqueIds(Entries(log))
              then planState == INITIAL.(mode := Plan, phase := Drafting, activePlanId := Some(planId))
              else planState.phase == RecoveryError
    {
      ghost var body := ExitBody(planState.activePlanId);
      LeaveError(exitId, planId);
      OneThenOther(old(log), Good(Entry(exitId, body)), Good(Entry(enterId, EnterBody(planId))));
      BeginEpisode(enterId, planId);
    }

    method BeginEpisode(enterId: string, planId: string)
      requires Valid() && FreshEntryId(log, enterId) && activePlanRunId.None?
      requires ValidToken(planId) && planId !in Vars().planIds
      requires UniqueIds(Entries(log)) ==> planState.mode == Default && planState.recoveryError.None?
      modifies this`log, this`planState, this`clean
      ensures Valid() && clean == old(clean) && log == old(log) + [Good(Entry(enterId, EnterBody(planId)))]
      ensures if UniqueIds(Entries(log))
              then planState == INITIAL.(mode := Plan, phase := Drafting, activePlanId := Some(planId))
              else planState.phase == RecoveryError
    {
      FoldReachable(Environment(), log);
      if UniqueIds(Entries(log)) {
        EnterStep(Environment(), Vars(), enterId, planId);
      }
      Append(enterId, EnterBody(planId));
    }

    /** The first half of entering from an error: the exit entry that clears it. */
    method LeaveError(exitId: string, ghost planId: string)
      requires Valid() && FreshEntryId(log, exitId) && planState.phase == RecoveryError && activePlanRunId.None?
      requires planId !in Vars().planIds
      modifies this`log, this`planState, this`clean
      ensures Valid() && log == old(log) + [Good(Entry(exitId, ExitBody(old(planState).activePlanId)))]
      ensures Entries(log) == old(Entries(log)) + [Entry(exitId, ExitBody(old(planState).activePlanId))]
      ensures UniqueIds(Entries(log)) <==> old(UniqueIds(Entries(log)))
      ensures planId !in Vars().planIds && clean == old(clean)
      ensures UniqueIds(Entries(log)) ==>
                planState == Vars().state && planState.mode == Default && planState.phase in {Cancelled, Idle}
                && planState.recoveryError.None?
    {
      FoldReachable(Environment(), log);
      if UniqueIds(Entries(log)) {
        ExitStep(Environment(), Vars(), exitId);
      }
      ghost var c := Vars();
      Append(exitId, ExitBody(planState.activePlanId));
      ExitKeepsIds(Environment(), c, Good(Entry(exitId, ExitBody(old(planState).activePlanId))));
    }

    method CancelPlanMode(id: string, planId: Option<string>) returns (r: Outcome)
      requires Valid() && FreshEntryId(log, id)
      modifies this`log, this`planState, this`clean, this`questionFuture
      ensures Valid()
      ensures r.Ok? <==>
                && activePlanRunId.None? && (isProcessing ==> old(questionFuture) != NoFuture)
                && (old(planState).mode == Plan || old(planState).phase == Uncertain)
                && (old(planState).activePlanId.Some? || old(planState).phase == RecoveryError)
                && (planId.Some? ==> planId == old(planState).activePlanId)
      ensures clean == old(clean)
      ensures r.Error? ==> log == old(log) && planState == old(planState) && questionFuture == old(questionFuture)
      ensures r.Ok? ==> log == old(log) + [Good(Entry(id, ExitBody(old(planState).activePlanId)))]
      ensures r.Ok? && UniqueIds(Entries(log)) ==>
                planState.mode == Default && planState.phase == ExitPhase(old(planState))
                && planState.recoveryError.None? && planState.pendingQuestion.None?
      ensures r.Ok? ==>
                questionFuture == if old(questionFuture) == Waiting then CancelledFuture else old(questionFuture)
    {
      if activePlanRunId.Some? || (isProcessing && questionFuture == NoFuture) {
        return Error("RUN_IN_PROGRESS");
      }
      if planState.mode != Plan && planState.phase != Uncertain {
        return Error("INVALID_MODE_TRANSITION");
      }
      if planState.activePlanId.None? && planState.phase != RecoveryError {
        return Error("INVALID_MODE_TRANSITION");
      }
      if planId.Some? && planId != planState.activePlanId {
        return Error("INVALID_MODE_TRANSITION");
      }
      var activeId := planState.activePlanId;
      if questionFuture == Waiting {
        questionFuture := CancelledFuture;
      }
      AppendExit(id, activeId);
      return Ok;
    }

    /** The user's exit from a plan, an uncertain run or an error. */
    method AppendExit(id: string, activeId: Option<string>)
      requires Valid() && FreshEntryId(log, id) && activePlanRunId.None? && activeId == planState.activePlanId
      requires (planState.mode == Plan || planState.phase == Uncertain)
               && (activeId.Some? || planState.phase == RecoveryError)
      modifies this`log, this`planState, this`clean
      ensures Valid() && clean == old(clean) && log == old(log) + [Good(Entry(id, ExitBody(activeId)))]
      ensures UniqueIds(Entries(log)) ==>
                planState.mode == Default && planState.phase == ExitPhase(old(planState))
                && planState.recoveryError.None? && planState.pendingQuestion.None?
    {
      FoldReachable(Environment(), log);
      if UniqueIds(Entries(log)) {
        ExitStep(Environment(), Vars(), id);
      }
      Append(id, ExitBody(activeId));
    }

    /** Asks a question in a drafting plan. One that reuses an id, or whose form the reducer does not accept,
        is written all the same and leaves the session in an error. */
    method RequestPlanQuestion(id: string, questionId: string, header: string, question: string,
                               options: seq<QuestionOption>, allowCustom: bool, deferred: bool) returns (r: Outcome)
      requires Valid() && FreshEntryId(log, id)
      modifies this`log, this`planState, this`clean, this`questionFuture
      ensures Valid()
      ensures r.Ok? <==> old(planState).phase == Drafting
      ensures questionFuture == if r.Ok? && !deferred then Waiting else old(questionFuture)
      ensures r.Error? ==> log == old(log) && planState == old(planState) && clean == old(clean)
      ensures r.Ok? ==>
                && old(planState).activePlanId.Some?
                && var planId := old(planState).activePlanId.value;
                   var body := Question(planId, questionId, header, question, options, allowCustom);
                   && log == old(log) + [Good(Entry(id, body))]
                   && if (planId, questionId) !in old(Vars()).questionIds && ValidQuestion(body)
                      then clean == old(clean)
                           && planState == old(planState).(phase := AwaitingAnswer, pendingQuestion := Some(questionId))
                      else !clean && planState.phase == RecoveryError
                           && planState.recoveryError == Some(RecoveryIssue("INVALID_PLAN_QUESTION", id))
    {
      if planState.mode != Plan || planState.activePlanId.None? || planState.activePlanId == Some("") {
        DraftingHasPlan();
        return Error("INVALID_MODE_TRANSITION");
      }
      if planState.pendingQuestion.Some? {
        DraftingHasPlan();
        return Error("QUESTION_ALREADY_PENDING");
      }
      if planState.phase != Drafting {
        return Error("INVALID_MODE_TRANSITION");
      }
      FoldReachable(Environment(), log);
      var body := Question(planState.activePlanId.value, questionId, header, question, options, allowCustom);
      QuestionStep(Environment(), Vars(), id, body);
      Append(id, body);
      if !deferred {
        questionFuture := Waiting;
      }
      return Ok;
    }

    lemma DraftingHasPlan()
      requires Valid()
      ensures planState.phase == Drafting ==>
                planState.mode == Plan && ValidTokenOption(planState.activePlanId) && planState.pendingQuestion.None?
    {
      FoldReachable(Environment(), log);
    }

    method AnswerPlanQuestion(id: string, questionId: string, answer: string) returns (r: Outcome)
      requires Valid() && FreshEntryId(log, id)
      modifies this`log, this`planState, this`clean, this`questionFuture
      ensures Valid()
      ensures r.Ok? <==> old(planState).pendingQuestion == Some(questionId) && Strip(answer) != ""
      ensures clean == old(clean)
      ensures r.Error? ==> log == old(log) && planState == old(planState) && questionFuture == old(questionFuture)
      ensures r.Ok? ==>
                && old(planState).activePlanId.Some?
                && log == old(log)
                   + [Good(Entry(id, Answer(old(planState).activePlanId.value, questionId, Strip(answer))))]
                && planState == old(planState).(phase := Drafting, pendingQuestion := None)
      ensures questionFuture == if r.Ok? && old(questionFuture) == Waiting then Answered else old(questionFuture)
    {
      var text := Strip(answer);
      FoldReachable(Environment(), log);
      if planState.mode != Plan || planState.pendingQuestion.None? {
        return Error("QUESTION_NOT_PENDING");
      }
      if planState.pendingQuestion != Some(questionId) {
        return Error("QUESTION_NOT_PENDING");
      }
      if text == "" {
        return Error("INVALID_PARAMS");
      }
      StripLeavesText(answer);
      var planId := if planState.activePlanId.Some? then planState.activePlanId.value else "";
      AnswerStep(Environment(), Vars(), id, Answer(planId, questionId, text));
      Append(id, Answer(planId, questionId, text));
      if questionFuture == Waiting {
        questionFuture := Answered;
      }
      return Ok;
    }

    /** A message of the conversation lands in the log. */
    method AppendMessage(id: string, body: Body)
      requires Valid() && FreshEntryId(log, id) && body.Message?
      modifies this`log, this`planState, this`clean
      ensures Valid() && log == old(log) + [Good(Entry(id, body))] && clean == old(clean)
      ensures UniqueIds(Entries(log)) ==> planState == AfterMessage(old(planState), body)
    {
      FoldReachable(Environment(), log);
      MessageStep(Environment(), Vars(), id, body);
      CleanNow();
      Append(id, body);
    }

    /** Where the log is clean there is no error now. */
    lemma CleanNow()
      requires Valid()
      ensures clean || activePlanRunId.Some? ==> Vars().state.recoveryError.None?
    {
      FoldReachable(Environment(), log);
      if clean {
        assert log[..|log|] == log;
        assert At(Restarted(), log, |log|).state.recoveryError.None?;
      }
    }

    /** A submission is written from a drafting plan whose newest entry is the complete message that asks for
        it, and nothing else, if the call has not been used and the plan's text is within its bounds. */
    predicate MaySubmit(toolCallId: string, title: string, markdown: string)
      reads this
    {
      && planState.phase == Drafting && planState.activePlanId.Some?
      && IsSubmitSource(Entries(log), toolCallId, title, markdown)
      && ValidSpec(planState.activePlanId.value, NextNumber(planState), title, markdown)
    }

    /** Persists a submission as the next revision. From a drafting plan and a matching source message
        the plan is ready exactly when the tool call id is a valid token and the markdown has no carriage
        return in front of a CRLF; otherwise the entry is written all the same and the session is left in
        an error. */
    method SubmitPlan(id: string, toolCallId: string, title: string, markdown: string) returns (r: Outcome)
      requires Valid() && FreshEntryId(log, id)
      modifies this`log, this`planState, this`clean
      ensures Valid()
      ensures r.Error? ==> log == old(log) && planState == old(planState) && clean == old(clean)
      ensures r.Ok? <==> old(MaySubmit(toolCallId, title, markdown))
      ensures r.Ok? ==>
                && old(Entries(log)) != []
                && var rev := NewRevision(sha, old(planState), title, markdown,
                     old(Entries(log))[|old(Entries(log))| - 1].id, toolCallId);
                   && rev.Some? && log == old(log) + [Good(Entry(id, Revision(rev.value)))]
                   && if ValidToken(toolCallId) && !HasCrCrLf(markdown)
                      then clean == old(clean)
                           && planState
                              == old(planState).(latestRevision := rev, phase := Ready, legacyCandidate := false)
                      else planState.phase == RecoveryError && !clean
    {
      FoldReachable(Environment(), log);
      if planState.mode != Plan || planState.phase != Drafting || planState.activePlanId.None? {
        return Error("INVALID_MODE_TRANSITION");
      }
      var source := ValidateSubmitSource(Entries(log), toolCallId, title, markdown);
      if source.NoSource? {
        return Error(source.code);
      }
      var number := NextNumber(planState);
      var revision :=
        CreateRevision(sha, planState.activePlanId.value, number, title, markdown, source.id, toolCallId, None);
      if revision.None? {
        return Error("INVALID_PLAN_SPEC");
      }
      SourceIsFresh(source.id, toolCallId, title, markdown, revision.value);
      WriteRevision(id, revision.value, markdown);
      return Ok;
    }

    method WriteRevision(id: string, rev: PlanRevision, ghost markdown: string)
      requires Valid() && FreshEntryId(log, id) && planState.phase == Drafting
      requires Some(rev)
               == NewRevision(sha, planState, rev.title, markdown, rev.sourceMessageId, rev.submittedByToolCallId)
      requires SourceMatches(Vars(), rev) && rev.submittedByToolCallId !in Vars().submitted
      modifies this`log, this`planState, this`clean
      ensures Valid() && log == old(log) + [Good(Entry(id, Revision(rev)))]
      ensures if ValidToken(rev.submittedByToolCallId) && !HasCrCrLf(markdown)
              then clean == old(clean)
                   && planState
                      == old(planState).(latestRevision := Some(rev), phase := Ready, legacyCandidate := false)
              else planState.phase == RecoveryError && !clean
    {
      FoldReachable(Environment(), log);
      SubmitStep(Environment(), Vars(), id, rev, markdown);
      Append(id, Revision(rev));
    }

    /** The message the guard has found is the one the reducer will look for. */
    lemma SourceIsFresh(sourceId: string, toolCallId: string, title: string, markdown: string, rev: PlanRevision)
      requires Valid() && planState.phase == Drafting && IsSubmitSource(Entries(log), toolCallId, title, markdown)
      requires sourceId == Entries(log)[|Entries(log)| - 1].id
      requires rev.sourceMessageId == sourceId && rev.submittedByToolCallId == toolCallId
      requires rev.title == title && rev.markdown == Normalize(markdown)
      ensures SourceMatches(Vars(), rev) && toolCallId !in Vars().submitted
    {
      FoldReachable(Environment(), log);
      LastMessageSeen(Environment(), log);
      if toolCallId in Vars().submitted {
        SubmittedAreEntries(Environment(), log, toolCallId);
      }
    }

    /** A run may start of the exact latest revision of a ready plan, when nothing is going on. */
    predicate MayStart(planId: string, revision: int, digest: string)
      reads this
    {
      && !isProcessing && activePlanRunId.None? && planState.phase == Ready && planState.latestRevision.Some?
      && var latest := planState.latestRevision.value;
         planId == latest.planId && revision == latest.revision && digest == latest.digest
    }

    /** The start of execute_plan: only the exact latest revision of a ready plan. If the entry cannot
        be flushed the run is not owned, and the plan is uncertain. The id of the run is not checked before
        it is written: the reducer rejects one that was used before, or that is no valid token where the
        revision is not a legacy one, and a rejected start leaves the session in an error - and, once it is
        flushed, with a run of its own. */
    method StartPlanRun(id: string, planId: string, revision: int, digest: string, runId: string, flushed: bool)
      returns (r: Outcome)
      requires Valid() && FreshEntryId(log, id)
      modifies this`log, this`planState, this`clean, this`activePlanRunId
      ensures r.Ok? <==> old(MayStart(planId, revision, digest)) && flushed
      ensures activePlanRunId == if r.Ok? then Some(runId) else old(activePlanRunId)
      ensures !old(MayStart(planId, revision, digest)) ==>
                Valid() && log == old(log) && planState == old(planState) && clean == old(clean)
      ensures old(MayStart(planId, revision, digest)) ==>
                var run := PlanRun(planId, revision, digest, "started", Some(runId));
                Started(old(Vars()), old(log), old(clean), id, run)
    {
      if isProcessing || activePlanRunId.Some? {
        return Error("RUN_IN_PROGRESS");
      }
      FoldReachable(Environment(), log);
      var latest := planState.latestRevision;
      if planState.mode != Plan || planState.phase != Ready || latest.None? {
        return Error("PLAN_NOT_READY");
      }
      if planId != latest.value.planId || revision != latest.value.revision || digest != latest.value.digest {
        return Error("STALE_PLAN_REVISION");
      }
      r := WriteStart(id, PlanRun(planId, revision, digest, "started", Some(runId)), flushed);
    }

    /** The session after it has written the start of a run, from what it was before. */
    ghost predicate Started(c: Ctx, before: seq<Item>, wasClean: bool, id: string, run: PlanRun)
      requires run.runId.Some? && c.state.latestRevision.Some?
      reads this
    {
      && log == before + [Good(Entry(id, Run(run)))] && planState == Reduced(Environment(), log)
      && (!Rejects(c, run) ==>
            && Valid() && clean == wasClean
            && planState == c.state.(mode := Default, latestRun := Some(run), pendingQuestion := None,
                                     phase := if activePlanRunId == run.runId then Executing else Uncertain))
      && (Rejects(c, run) ==>
            && (activePlanRunId.None? ==> Valid() && !clean)
            && (activePlanRunId.None? || run.runId.value !in c.runIds ==>
                  planState == Recover(c, id, "INVALID_PLAN_RUN").state))
    }

    method WriteStart(id: string, run: PlanRun, flushed: bool) returns (r: Outcome)
      requires Valid() && FreshEntryId(log, id) && activePlanRunId.None? && run.runId.Some? && run.status == "started"
      requires planState.phase == Ready && planState.latestRevision.Some?
               && Confirms(run, planState.latestRevision.value)
      modifies this`log, this`planState, this`clean, this`activePlanRunId
      ensures (r.Ok? <==> flushed) && activePlanRunId == if flushed then run.runId else None
      ensures old(Vars()).state == old(planState) && Started(old(Vars()), old(log), old(clean), id, run)
    {
      FoldReachable(Environment(), log);
      ghost var c, before := Vars(), log;
      if Rejects(c, run) {
        StartRejected(Environment(), c, id, run);
      } else {
        StartStep(Environment(), c, id, run);
      }
      Append(id, Run(run));
      if !flushed {
        return Error("FLUSH_FAILED");
      }
      ClaimedStart(c, before, id, run);
      activePlanRunId := run.runId;
      Sync();
      return Ok;
    }

    lemma ClaimedStart(c: Ctx, before: seq<Item>, id: string, run: PlanRun)
      requires c == Fold(Restarted(), before) && Reachable(Restarted(), c) && FreshEntryId(before, id)
      requires c.state.phase == Ready && run.status == "started" && Confirms(run, c.state.latestRevision.value)
      requires run.runId.Some?
      ensures var owner := Env(sha, run.runId, parent);
              var after := before + [Good(Entry(id, Run(run)))];
              && (!Rejects(c, run) ==> Owned(c, owner, after, run))
              && (Rejects(c, run) && run.runId.value !in c.runIds ==>
                    Fold(owner, after).state == Recover(c, id, "INVALID_PLAN_RUN").state)
    {
      if !Rejects(c, run) {
        OwnedStart(c, before, id, run);
      } else if run.runId.value !in c.runIds {
        var owner := Env(sha, run.runId, parent);
        UnknownRunChangesNothing(Restarted(), before, run.runId.value);
        Extend(owner, before, Entry(id, Run(run)));
        FoldReachable(owner, before);
        StartRejected(owner, c, id, run);
      }
    }

    ghost predicate Owned(c: Ctx, owner: Env, after: seq<Item>, run: PlanRun)
      reads this
    {
      && Fold(owner, after).state
         == c.state.(mode := Default, latestRun := Some(run), pendingQuestion := None, phase := Executing)
      && Fold(Restarted(), after) == Disowned(Fold(owner, after))
    }

    /** Claiming the run that has just been started turns uncertain into executing. */
    lemma OwnedStart(c: Ctx, before: seq<Item>, id: string, run: PlanRun)
      requires c == Fold(Restarted(), before) && Reachable(Restarted(), c) && FreshEntryId(before, id)
      requires c.state.phase == Ready && run.status == "started" && Confirms(run, c.state.latestRevision.value)
      requires run.runId.Some? && !Rejects(c, run)
      ensures Owned(c, Env(sha, run.runId, parent), before + [Good(Entry(id, Run(run)))], run)
    {
      var owner := Env(sha, run.runId, parent);
      UnknownRunChangesNothing(Restarted(), before, run.runId.value);
      Extend(Restarted(), before, Entry(id, Run(run)));
      Extend(owner, before, Entry(id, Run(run)));
      FoldReachable(owner, before);
      StartStep(owner, c, id, run);
      DisownedStep(owner, c, Good(Entry(id, Run(run))));
    }

    /** _finish_plan_run: ends the owned run, and live ownership with it whatever happens. When the entry
        cannot be appended, replay is left with a started run that nobody owns, and the plan is uncertain;
        when it is appended and only the flush fails, the run has ended. */
    method FinishPlanRun(id: string, status: string, appended: bool, flushed: bool) returns (r: Outcome)
      requires Valid() && FreshEntryId(log, id) && activePlanRunId.Some?
      requires status in {"completed", "failed", "aborted"}
      modifies this`log, this`planState, this`clean, this`activePlanRunId
      ensures Valid() && activePlanRunId.None? && clean == old(clean)
      ensures r.Ok? <==> appended && flushed
      ensures !appended ==> log == old(log) && planState == old(planState).(phase := Uncertain)
      ensures appended ==>
                && old(planState).latestRun.Some?
                && var run := old(planState).latestRun.value.(status := status);
                   && log == old(log) + [Good(Entry(id, Run(run)))]
                   && run.runId == old(activePlanRunId)
                   && planState == old(planState).(mode := Default, latestRun := Some(run), phase := EndPhase(status))
    {
      FoldReachable(Environment(), log);
      var run := planState.latestRun.value.(status := status);
      FoldReachable(Restarted(), log);
      if appended {
        AppendFinish(log, id, run);
        log := log + [Good(Entry(id, Run(run)))];
      }
      activePlanRunId := None;
      Sync();
      return if appended && flushed then Ok else Error("NOT_PERSISTED");
    }

    lemma AppendFinish(before: seq<Item>, id: string, run: PlanRun)
      requires FreshEntryId(before, id) && run.status in {"completed", "failed", "aborted"}
      requires var c := Fold(Restarted(), before);
               && Reachable(Restarted(), c) && c.state.phase == Uncertain
               && run.(status := "started") == c.state.latestRun.value
      ensures var after, c := before + [Good(Entry(id, Run(run)))], Fold(Restarted(), before);
              && Reachable(Restarted(), Fold(Restarted(), after))
              && (UniqueIds(Entries(after)) <==> UniqueIds(Entries(before)))
              && (Clean(Restarted(), after) <==> Clean(Restarted(), before))
              && Fold(Restarted(), after).state
                 == c.state.(mode := Default, latestRun := Some(run), phase := EndPhase(run.status))
    {
      FinishStep(Restarted(), Fold(Restarted(), before), id, run);
      Extend(Restarted(), before, Entry(id, Run(run)));
      FoldReachable(Restarted(), before + [Good(Entry(id, Run(run)))]);
    }

    /** The session that continues a plan. */
    method NewChild(rev: PlanRevision, targetId: string, enterId: string, copyId: string) returns (child: PlanSession)
      requires ValidToken(sessionId) && ValidToken(rev.planId) && Sound(sha, rev) && enterId != copyId
      ensures fresh(child) && child.Valid() && child.clean && child.sessionId == targetId
      ensures child.parent == Some(sessionId) && child.sha == sha
      ensures child.log == ChildLog(sessionId, rev, enterId, copyId)
      ensures SamePlan(child.planState, rev)
      ensures child.planState.handoffSource == Some(sessionId) && !child.planState.CanHandoff()
    {
      ChildIsReady(sha, sessionId, rev, enterId, copyId);
      child := new PlanSession(sha, targetId, Some(sessionId), ChildLog(sessionId, rev, enterId, copyId));
    }

    /** Hands the exact latest revision to a new session. Sessions that were themselves handed a plan
        cannot. */
    method HandoffPlanToNewSession(planId: string, revision: int, digest: string, targetId: string,
                                   enterId: string, copyId: string, exitId: string)
      returns (r: Outcome, child: PlanSession?)
      requires Valid() && FreshEntryId(log, exitId) && enterId != copyId
      requires ValidToken(sessionId) && ValidToken(targetId)
      modifies this`log, this`planState, this`clean
      ensures Valid() && clean == old(clean)
      ensures r.Ok? <==>
                && !isProcessing && activePlanRunId.None? && old(planState).CanHandoff()
                && var latest := old(planState).latestRevision.value;
                   planId == latest.planId && revision == latest.revision && digest == latest.digest
      ensures r.Error? ==> child == null && log == old(log) && planState == old(planState)
      ensures r.Ok? ==>
                && child != null && fresh(child) && child.Valid() && child.clean && child.sessionId == targetId
                && child.parent == Some(sessionId) && child.sha == sha
                && child.log == ChildLog(sessionId, old(planState).latestRevision.value, enterId, copyId)
                && SamePlan(child.planState, old(planState).latestRevision.value)
                && child.planState.handoffSource == Some(sessionId) && !child.planState.CanHandoff()
      ensures r.Ok? ==>
                && log == old(log) + [Good(Entry(exitId, HandoffExit(planId, targetId)))]
                && planState == old(planState).(mode := Default, phase := Cancelled, handoffTarget := Some(targetId))
    {
      child := null;
      if isProcessing || activePlanRunId.Some? {
        return Error("RUN_IN_PROGRESS"), null;
      }
      FoldReachable(Environment(), log);
      var latest := planState.latestRevision;
      if planState.mode != Plan || planState.phase != Ready || latest.None? {
        return Error("PLAN_NOT_READY"), null;
      }
      if planId != latest.value.planId || revision != latest.value.revision || digest != latest.value.digest {
        return Error("STALE_PLAN_REVISION"), null;
      }
      if !planState.CanHandoff() {
        return Error("PLAN_ALREADY_IN_REVIEW"), null;
      }
      child := NewChild(latest.value, targetId, enterId, copyId);
      AppendHandoff(exitId, planId, targetId);
      return Ok, child;
    }

    /** The exit that records where the plan has gone. */
    method AppendHandoff(exitId: string, planId: string, targetId: string)
      requires Valid() && FreshEntryId(log, exitId) && activePlanRunId.None? && ValidToken(targetId)
      requires planState.phase == Ready && planState.latestRevision.Some?
      requires planId == planState.latestRevision.value.planId
      modifies this`log, this`planState, this`clean
      ensures Valid() && clean == old(clean)
      ensures log == old(log) + [Good(Entry(exitId, HandoffExit(planId, targetId)))]
      ensures planState == old(planState).(mode := Default, phase := Cancelled, handoffTarget := Some(targetId))
    {
      FoldReachable(Environment(), log);
      HandoffExitStep(Environment(), Vars(), exitId, targetId);
      Append(exitId, HandoffExit(planId, targetId));
    }
  }

  lemma ExitKeepsIds(env: Env, c: Ctx, item: Item)
    requires item.Good? && item.entry.body.ModeChange? && item.entry.body.mode != "plan"
    ensures Step(env, c, item).planIds == c.planIds
  {
  }
}
