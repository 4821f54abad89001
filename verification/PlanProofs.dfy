/** What every log guarantees once the reducer has read it, however it was produced. */
module PlanProofs {
  import opened Options
  import opened PlanMode

  // ---- vocabulary ----------------------------------------------------------------------------

  /** The reducer's variables after the first i items. */
  function At(env: Env, items: seq<Item>, i: nat): Ctx
    requires i <= |items|
  {
    Fold(env, items[..i])
  }

  lemma AtNext(env: Env, items: seq<Item>, i: nat)
    requires i < |items|
    ensures At(env, items, i + 1) == Step(env, At(env, items, i), items[i])
  {
    assert items[..i + 1][..i] == items[..i];
  }

  /** Item i is an entry that was read without an error standing before or after it. */
  ghost predicate Accepted(env: Env, items: seq<Item>, i: int) {
    && 0 <= i < |items| && items[i].Good?
    && At(env, items, i).state.recoveryError.None? && At(env, items, i + 1).state.recoveryError.None?
  }

  predicate IsEnter(item: Item) { item.Good? && item.entry.body.ModeChange? && item.entry.body.mode == "plan" }

  predicate IsRevision(item: Item) { item.Good? && item.entry.body.Revision? }

  predicate IsQuestion(item: Item) { item.Good? && item.entry.body.Question? }

  predicate IsStarted(item: Item) { item.Good? && item.entry.body.Run? && item.entry.body.run.status == "started" }

  predicate IsFinished(item: Item) { item.Good? && item.entry.body.Run? && item.entry.body.run.status != "started" }

  /** A new revision made by a v1 submission of this session, as opposed to a handoff copy. */
  predicate IsSubmission(item: Item) {
    IsRevision(item) && item.entry.body.rev.schemaVersion == SCHEMA_VERSION && item.entry.body.rev.originSessionId.None?
  }

  /** Entries that leave a confirmed plan alone: messages the user did not write, and unrelated ones. */
  predicate Quiet(item: Item) {
    item.Good? && (item.entry.body.Other? || (item.entry.body.Message? && item.entry.body.role != "user"))
  }

  /** The revision's digest recomputes from its content, and the content obeys the rules for plans. */
  predicate Sound(sha: DigestFields -> string, rev: PlanRevision) {
    && rev.revision >= 1
    && Digest(sha, rev) == Some(rev.digest)
    && (rev.schemaVersion == SCHEMA_VERSION ==>
          && ValidSpec(rev.planId, rev.revision, rev.title, rev.markdown)
          && Normalize(rev.markdown) == rev.markdown && ValidToken(rev.submittedByToolCallId))
  }

  predicate Confirms(run: PlanRun, rev: PlanRevision) {
    run.planId == rev.planId && run.revision == rev.revision && run.digest == rev.digest
  }

  /** What holds in every state the reducer can reach. */
  ghost predicate Reachable(env: Env, c: Ctx) {
    var s := c.state;
    && (s.recoveryError.Some? <==> s.phase == RecoveryError)
    && (s.mode == Plan <==> s.phase in {Drafting, AwaitingAnswer, Ready, RecoveryError})
    && (s.phase in {Drafting, AwaitingAnswer, Ready} ==> ValidTokenOption(s.activePlanId))
    && (s.phase == Ready ==> s.latestRevision.Some?)
    && (s.pendingQuestion.Some? <==> s.phase == AwaitingAnswer)
    && (s.activePlanId.Some? ==> ValidTokenOption(s.activePlanId) && s.activePlanId.value in c.planIds)
    && (s.latestRevision.Some? ==>
          Sound(env.sha, s.latestRevision.value) && s.activePlanId == Some(s.latestRevision.value.planId))
    && (s.phase in {Executing, Uncertain} ==>
          && s.latestRun.Some? && s.latestRun.value.status == "started"
          && s.latestRevision.Some? && Confirms(s.latestRun.value, s.latestRevision.value)
          && (s.latestRevision.value.schemaVersion >= SCHEMA_VERSION ==> ValidTokenOption(s.latestRun.value.runId)))
    && (s.phase == Executing <==>
          s.phase in {Executing, Uncertain} && env.liveRun.Some? && s.latestRun.value.runId == env.liveRun)
    && (s.latestRun.Some? && s.latestRun.value.runId.Some? ==> s.latestRun.value.runId.value in c.runIds)
    && (s.activePlanId.Some? ==> c.handoffOrigin == s.handoffSource)
    && (forall q :: q in c.questionIds ==> q.0 in c.planIds)
  }

  ghost predicate RunOpen(c: Ctx) {
    c.state.latestRun.Some? && c.state.latestRun.value.status == "started"
  }

  ghost predicate InEpisode(c: Ctx) {
    c.state.mode == Plan && c.state.recoveryError.None?
  }

  /** c and d are the variables around an item that was read without error. */
  ghost predicate NoError(c: Ctx, d: Ctx) {
    c.state.recoveryError.None? && d.state.recoveryError.None?
  }

  /** What an accepted item uses is new, and is remembered. */
  ghost predicate Recorded(c: Ctx, d: Ctx, item: Item) {
    && c.planIds <= d.planIds && c.runIds <= d.runIds && c.questionIds <= d.questionIds && c.submitted <= d.submitted
    && (NoError(c, d) ==>
          && (IsEnter(item) ==> var p := item.entry.body.planId;
                                p.Some? && p.value !in c.planIds && p.value in d.planIds)
          && (IsStarted(item) ==> var r := item.entry.body.run.runId;
                                  (r.Some? ==> r.value !in c.runIds && r.value in d.runIds))
          && (IsQuestion(item) ==> var q := (item.entry.body.qPlanId, item.entry.body.questionId);
                                   q !in c.questionIds && q in d.questionIds)
          && (IsSubmission(item) ==> var t := item.entry.body.rev.submittedByToolCallId;
                                     t !in c.submitted && t in d.submitted))
  }

  /** Which items can change what. */
  ghost predicate Caused(c: Ctx, d: Ctx, item: Item) {
    && (d.state.latestRevision == c.state.latestRevision || (NoError(c, d) && (IsEnter(item) || IsRevision(item))))
    && (d.state.handoffSource == c.state.handoffSource || (NoError(c, d) && IsEnter(item)))
    && (!RunOpen(c) && RunOpen(d) ==> NoError(c, d) && IsStarted(item))
    && (!InEpisode(c) && InEpisode(d) ==> NoError(c, d) && IsEnter(item))
    && (NoError(c, d) && IsFinished(item) ==> RunOpen(c) && !RunOpen(d))
    && (NoError(c, d) && IsStarted(item) ==>
          c.state.phase == Ready && c.state.latestRevision.Some?
          && Confirms(item.entry.body.run, c.state.latestRevision.value))
    && (NoError(c, d) && IsRevision(item) ==>
          var r := item.entry.body.rev;
          && d.state.latestRevision == Some(r)
          && if c.state.latestRevision.Some? then r.revision == c.state.latestRevision.value.revision + 1
             else r.revision == 1 || (r.originSessionId.Some? && r.originSessionId == c.handoffOrigin))
    && (d.state.phase == Ready ==>
          NoError(c, d) && (IsRevision(item) || (c.state.phase == Ready && Quiet(item))))
  }

  ghost predicate StepFacts(env: Env, c: Ctx, d: Ctx, item: Item) {
    Reachable(env, d) && Recorded(c, d, item) && Caused(c, d, item)
  }

  lemma RecoverFacts(env: Env, c: Ctx, e: Entry, code: string)
    requires Reachable(env, c)
    ensures StepFacts(env, c, Recover(c, e.id, code), Good(e))
  {
  }

  lemma MessageFacts(env: Env, c: Ctx, e: Entry)
    requires Reachable(env, c) && c.state.recoveryError.None? && e.body.Message?
    ensures StepFacts(env, c, OnMessage(c, e), Good(e))
  {
  }

  lemma EnterFacts(env: Env, c: Ctx, e: Entry)
    requires Reachable(env, c) && c.state.recoveryError.None? && e.body.ModeChange? && e.body.mode == "plan"
    ensures StepFacts(env, c, OnEnter(env.parent, c, e), Good(e))
  {
    var d := OnEnter(env.parent, c, e);
    if d.state.recoveryError.Some? {
      RecoverFacts(env, c, e, d.state.recoveryError.value.code);
    }
  }

  lemma ExitFacts(env: Env, c: Ctx, e: Entry)
    requires Reachable(env, c) && c.state.recoveryError.None? && e.body.ModeChange? && e.body.mode != "plan"
    ensures StepFacts(env, c, OnExit(c, e), Good(e))
  {
    var d := OnExit(c, e);
    if d.state.recoveryError.Some? {
      RecoverFacts(env, c, e, d.state.recoveryError.value.code);
    }
  }

  lemma QuestionFacts(env: Env, c: Ctx, e: Entry)
    requires Reachable(env, c) && c.state.recoveryError.None? && e.body.Question?
    ensures StepFacts(env, c, OnQuestion(c, e), Good(e))
  {
    var d := OnQuestion(c, e);
    if d.state.recoveryError.Some? {
      RecoverFacts(env, c, e, d.state.recoveryError.value.code);
    }
  }

  lemma AnswerFacts(env: Env, c: Ctx, e: Entry)
    requires Reachable(env, c) && c.state.recoveryError.None? && e.body.Answer?
    ensures StepFacts(env, c, OnAnswer(c, e), Good(e))
  {
    var d := OnAnswer(c, e);
    if d.state.recoveryError.Some? {
      RecoverFacts(env, c, e, d.state.recoveryError.value.code);
    }
  }

  lemma RevisionFacts(env: Env, c: Ctx, e: Entry)
    requires Reachable(env, c) && c.state.recoveryError.None? && e.body.Revision?
    ensures StepFacts(env, c, OnRevision(env.sha, c, e), Good(e))
  {
    var code := RevisionOutcome(env, c, e);
    OutcomeFacts(env, c, OnRevision(env.sha, c, e), e, code);
  }

  /** What an accepted revision has passed, and what it changes. */
  ghost predicate Revised(env: Env, c: Ctx, d: Ctx, r: PlanRevision) {
    && c.state.mode == Plan && c.state.phase == Drafting && Some(r.planId) == c.state.activePlanId
    && Sound(env.sha, r)
    && (if c.state.latestRevision.Some? then r.revision == c.state.latestRevision.value.revision + 1
        else r.revision == 1 || (r.originSessionId.Some? && r.originSessionId == c.handoffOrigin))
    && var submission := r.schemaVersion == SCHEMA_VERSION && r.originSessionId.None?;
       && (submission ==> r.submittedByToolCallId !in c.submitted)
       && d == c.(submitted := if submission then c.submitted + {r.submittedByToolCallId} else c.submitted,
                  state := c.state.(latestRevision := Some(r), pendingQuestion := None, phase := Ready,
                                    legacyCandidate := false))
  }

  lemma RevisionOutcome(env: Env, c: Ctx, e: Entry) returns (code: string)
    requires c.state.recoveryError.None? && e.body.Revision?
    ensures OnRevision(env.sha, c, e) == Recover(c, e.id, code)
            || Revised(env, c, OnRevision(env.sha, c, e), e.body.rev)
  {
    var d := OnRevision(env.sha, c, e);
    code := if d.state.recoveryError.Some? then d.state.recoveryError.value.code else "";
  }

  lemma OutcomeFacts(env: Env, c: Ctx, d: Ctx, e: Entry, code: string)
    requires Reachable(env, c) && c.state.recoveryError.None? && e.body.Revision?
    requires d == Recover(c, e.id, code) || Revised(env, c, d, e.body.rev)
    ensures StepFacts(env, c, d, Good(e))
  {
    if d == Recover(c, e.id, code) {
      RecoverFacts(env, c, e, code);
    }
  }

  lemma StartedFacts(env: Env, c: Ctx, e: Entry)
    requires Reachable(env, c) && c.state.recoveryError.None? && e.body.Run? && e.body.run.status == "started"
    ensures StepFacts(env, c, OnStarted(env.liveRun, c, e), Good(e))
  {
    var d := OnStarted(env.liveRun, c, e);
    if d.state.recoveryError.Some? {
      RecoverFacts(env, c, e, d.state.recoveryError.value.code);
    }
  }

  lemma FinishedFacts(env: Env, c: Ctx, e: Entry)
    requires Reachable(env, c) && c.state.recoveryError.None? && e.body.Run?
    requires e.body.run.status in {"completed", "failed", "aborted"}
    ensures StepFacts(env, c, OnFinished(c, e), Good(e))
  {
    var d := OnFinished(c, e);
    if d.state.recoveryError.Some? {
      RecoverFacts(env, c, e, d.state.recoveryError.value.code);
    }
  }

  lemma EntryFacts(env: Env, c: Ctx, e: Entry)
    requires Reachable(env, c) && c.state.recoveryError.None?
    ensures StepFacts(env, c, OnEntry(env, c, e), Good(e))
  {
    match e.body
    case Message(_, _, _, _) => MessageFacts(env, c, e);
    case ModeChange(mode, _, reason, _) =>
      if reason.Some? && reason.value !in {"user", "handoff"} {
        RecoverFacts(env, c, e, "INVALID_MODE_TRANSITION");
      } else if mode == "plan" {
        EnterFacts(env, c, e);
      } else {
        ExitFacts(env, c, e);
      }
    case Question(_, _, _, _, _, _) => QuestionFacts(env, c, e);
    case Answer(_, _, _) => AnswerFacts(env, c, e);
    case Revision(_) => RevisionFacts(env, c, e);
    case Run(run) =>
      if run.status == "started" {
        StartedFacts(env, c, e);
      } else if run.status in {"completed", "failed", "aborted"} {
        FinishedFacts(env, c, e);
      } else {
        RecoverFacts(env, c, e, "INVALID_PLAN_RUN");
      }
    case Other =>
  }

  lemma ErrorStepFacts(env: Env, c: Ctx, item: Item)
    requires Reachable(env, c) && (item.Issue? || c.state.recoveryError.Some?)
    ensures StepFacts(env, c, Step(env, c, item), item)
    ensures c.state.recoveryError.Some? && Step(env, c, item).state.recoveryError.None? ==>
              item.Good? && ClearsError(c.state, item.entry.body)
  {
  }

  /** Every step keeps the state well formed, records the ids it accepts, and changes only what its
      item may change. */
  lemma StepHasFacts(env: Env, c: Ctx, item: Item)
    requires Reachable(env, c)
    ensures StepFacts(env, c, Step(env, c, item), item)
    ensures c.state.recoveryError.Some? && Step(env, c, item).state.recoveryError.None? ==>
              item.Good? && ClearsError(c.state, item.entry.body)
  {
    if item.Issue? || c.state.recoveryError.Some? {
      ErrorStepFacts(env, c, item);
    } else {
      EntryFacts(env, c, item.entry);
      PreviousIsIrrelevant(env, c, OnEntry(env, c, item.entry), item);
    }
  }

  lemma PreviousIsIrrelevant(env: Env, c: Ctx, d: Ctx, item: Item)
    requires StepFacts(env, c, d, item) && item.Good?
    ensures StepFacts(env, c, d.(previous := Some(item.entry)), item)
  {
  }

  lemma {:induction false} FoldReachable(env: Env, items: seq<Item>)
    ensures Reachable(env, Fold(env, items))
  {
    if items != [] {
      FoldReachable(env, items[..|items| - 1]);
      StepHasFacts(env, Fold(env, items[..|items| - 1]), items[|items| - 1]);
    }
  }

  /** The facts of step i of a log. */
  lemma FactsAt(env: Env, items: seq<Item>, i: nat)
    requires i < |items|
    ensures StepFacts(env, At(env, items, i), At(env, items, i + 1), items[i])
    ensures At(env, items, i).state.recoveryError.Some? && At(env, items, i + 1).state.recoveryError.None? ==>
              items[i].Good? && ClearsError(At(env, items, i).state, items[i].entry.body)
  {
    AtNext(env, items, i);
    FoldReachable(env, items[..i]);
    StepHasFacts(env, At(env, items, i), items[i]);
  }

  // ---- ids are used once ---------------------------------------------------------------------

  lemma {:induction false} IdsGrow(env: Env, items: seq<Item>, i: nat, j: nat)
    requires i <= j <= |items|
    ensures var c, d := At(env, items, i), At(env, items, j);
            && c.planIds <= d.planIds && c.runIds <= d.runIds && c.questionIds <= d.questionIds
               && c.submitted <= d.submitted
    decreases j - i
  {
    if i < j {
      IdsGrow(env, items, i, j - 1);
      FactsAt(env, items, j - 1);
    }
  }

  /** In any log, an accepted plan id, run id, question id of a plan or v1 submission is never
      accepted a second time. */
  lemma IdsUsedOnce(env: Env, items: seq<Item>, i: nat, j: nat)
    requires i < j && Accepted(env, items, i) && Accepted(env, items, j)
    ensures IsEnter(items[i]) && IsEnter(items[j]) ==> items[i].entry.body.planId != items[j].entry.body.planId
    ensures IsStarted(items[i]) && IsStarted(items[j]) && items[i].entry.body.run.runId.Some? ==>
              items[i].entry.body.run.runId != items[j].entry.body.run.runId
    ensures IsQuestion(items[i]) && IsQuestion(items[j])
            && items[i].entry.body.qPlanId == items[j].entry.body.qPlanId ==>
              items[i].entry.body.questionId != items[j].entry.body.questionId
    ensures IsSubmission(items[i]) && IsSubmission(items[j]) ==>
              items[i].entry.body.rev.submittedByToolCallId != items[j].entry.body.rev.submittedByToolCallId
  {
    FactsAt(env, items, i);
    FactsAt(env, items, j);
    IdsGrow(env, items, i + 1, j);
  }

  // ---- authorisation -------------------------------------------------------------------------

  lemma {:induction false} ReadySince(env: Env, items: seq<Item>, i: nat) returns (j: nat)
    requires i <= |items| && At(env, items, i).state.phase == Ready
    ensures j < i && Accepted(env, items, j) && IsRevision(items[j])
    ensures At(env, items, i).state.latestRevision == Some(items[j].entry.body.rev)
    ensures forall k :: j < k < i ==> Quiet(items[k])
  {
    assert items[..0] == [];
    if i > 0 {
      FactsAt(env, items, i - 1);
      if IsRevision(items[i - 1]) {
        j := i - 1;
      } else {
        j := ReadySince(env, items, i - 1);
      }
    }
  }

  /** In any log, an accepted start confirms an accepted revision before it: same plan, number and
      digest, a digest that recomputes from the content, and nothing between the two but messages
      the user did not write. */
  lemma StartedIsAuthorised(env: Env, items: seq<Item>, i: nat) returns (j: nat)
    requires Accepted(env, items, i) && IsStarted(items[i])
    ensures j < i && Accepted(env, items, j) && IsRevision(items[j])
    ensures Confirms(items[i].entry.body.run, items[j].entry.body.rev)
    ensures Sound(env.sha, items[j].entry.body.rev)
    ensures At(env, items, i).state.latestRevision == Some(items[j].entry.body.rev)
    ensures forall k :: j < k < i ==> Quiet(items[k])
  {
    FactsAt(env, items, i);
    FoldReachable(env, items[..i]);
    j := ReadySince(env, items, i);
  }

  // ---- revision numbers ----------------------------------------------------------------------

  /** No episode begins and no revision is accepted from i up to j. */
  ghost predicate NoEpisodeStep(env: Env, items: seq<Item>, i: int, j: int) {
    forall k :: i <= k < j && Accepted(env, items, k) ==> !IsEnter(items[k]) && !IsRevision(items[k])
  }

  lemma LatestStep(env: Env, items: seq<Item>, i: nat)
    requires i < |items|
    ensures || (Accepted(env, items, i) && (IsEnter(items[i]) || IsRevision(items[i])))
            || (At(env, items, i).state.latestRevision == At(env, items, i + 1).state.latestRevision
                && At(env, items, i).state.handoffSource == At(env, items, i + 1).state.handoffSource)
  {
    FactsAt(env, items, i);
  }

  lemma {:induction false} LatestKept(env: Env, items: seq<Item>, i: nat, j: nat)
    requires i <= j <= |items|
    requires NoEpisodeStep(env, items, i, j)
    ensures At(env, items, i).state.latestRevision == At(env, items, j).state.latestRevision
    ensures At(env, items, i).state.handoffSource == At(env, items, j).state.handoffSource
    decreases j - i
  {
    if i < j {
      LatestKept(env, items, i, j - 1);
      LatestStep(env, items, j - 1);
    }
  }

  /** Within an episode revision numbers rise by exactly one; the first is 1, or, in a session that
      continues another one's plan, the number handed over. */
  lemma RevisionNumbersRise(env: Env, items: seq<Item>, j: nat)
    requires Accepted(env, items, j) && IsRevision(items[j])
    ensures forall i ::
              0 <= i < j && Accepted(env, items, i) && IsRevision(items[i]) && NoEpisodeStep(env, items, i + 1, j) ==>
                items[j].entry.body.rev.revision == items[i].entry.body.rev.revision + 1
    ensures At(env, items, j).state.latestRevision.None? ==>
              items[j].entry.body.rev.revision == 1
              || (items[j].entry.body.rev.originSessionId.Some?
                  && items[j].entry.body.rev.originSessionId == At(env, items, j).handoffOrigin)
  {
    FactsAt(env, items, j);
    forall i | 0 <= i < j && Accepted(env, items, i) && IsRevision(items[i]) && NoEpisodeStep(env, items, i + 1, j)
      ensures items[j].entry.body.rev.revision == items[i].entry.body.rev.revision + 1
    {
      FactsAt(env, items, i);
      LatestKept(env, items, i + 1, j);
    }
  }

  // ---- runs and errors -----------------------------------------------------------------------

  lemma {:induction false} OpenedBetween(env: Env, items: seq<Item>, i: nat, j: nat) returns (k: nat)
    requires i <= j <= |items| && !RunOpen(At(env, items, i)) && RunOpen(At(env, items, j))
    ensures i <= k < j && Accepted(env, items, k) && IsStarted(items[k])
    decreases j - i
  {
    FactsAt(env, items, j - 1);
    if RunOpen(At(env, items, j - 1)) {
      k := OpenedBetween(env, items, i, j - 1);
    } else {
      k := j - 1;
    }
  }

  /** Each start has at most one end: between two accepted ends there is another accepted start. */
  lemma OneEndPerRun(env: Env, items: seq<Item>, i: nat, j: nat) returns (k: nat)
    requires i < j && Accepted(env, items, i) && Accepted(env, items, j)
    requires IsFinished(items[i]) && IsFinished(items[j])
    ensures i < k < j && Accepted(env, items, k) && IsStarted(items[k])
  {
    FactsAt(env, items, i);
    FactsAt(env, items, j);
    k := OpenedBetween(env, items, i + 1, j);
  }

  /** Once an error stands, only the user's exit from the active episode removes it. */
  lemma {:induction false} ErrorStands(env: Env, items: seq<Item>, i: nat, j: nat) returns (k: nat)
    requires i <= j <= |items|
    requires At(env, items, i).state.recoveryError.Some? && At(env, items, j).state.recoveryError.None?
    ensures i <= k < j && At(env, items, k).state.recoveryError.Some?
    ensures items[k].Good? && ClearsError(At(env, items, k).state, items[k].entry.body)
    decreases j - i
  {
    FactsAt(env, items, j - 1);
    if At(env, items, j - 1).state.recoveryError.None? {
      k := ErrorStands(env, items, i, j - 1);
    } else {
      k := j - 1;
    }
  }

  lemma EnteredHere(env: Env, items: seq<Item>, k: nat)
    requires k < |items| && !InEpisode(At(env, items, k)) && InEpisode(At(env, items, k + 1))
    ensures Accepted(env, items, k) && IsEnter(items[k])
  {
    FactsAt(env, items, k);
  }

  lemma {:induction false} EnteredBetween(env: Env, items: seq<Item>, i: nat, j: nat) returns (k: nat)
    requires i <= j <= |items| && !InEpisode(At(env, items, i)) && InEpisode(At(env, items, j))
    ensures i <= k < j && Accepted(env, items, k) && IsEnter(items[k])
    decreases j - i
  {
    if InEpisode(At(env, items, j - 1)) {
      k := EnteredBetween(env, items, i, j - 1);
    } else {
      k := j - 1;
      EnteredHere(env, items, k);
    }
  }

  /** After an error nothing runs until a new episode has been entered. */
  lemma NothingRunsAfterError(env: Env, items: seq<Item>, i: nat, j: nat) returns (k: nat)
    requires i < j <= |items| && At(env, items, i).state.recoveryError.Some?
    requires Accepted(env, items, j) && IsStarted(items[j])
    ensures i < k < j && Accepted(env, items, k) && IsEnter(items[k])
  {
    FoldReachable(env, items[..j]);
    FactsAt(env, items, j);
    k := EnteredBetween(env, items, i, j);
  }

  // ---- restart -------------------------------------------------------------------------------

  /** Every prefix of the log replays without an error. */
  ghost predicate Clean(env: Env, items: seq<Item>) {
    forall i :: 0 <= i <= |items| ==> At(env, items, i).state.recoveryError.None?
  }

  /** The same variables, seen by a process that does not own the run. */
  function Disowned(c: Ctx): Ctx {
    if c.state.phase == Executing then c.(state := c.state.(phase := Uncertain)) else c
  }

  lemma ModeChangeWhileIdle(parent: Option<string>, c: Ctx, e: Entry)
    requires e.body.ModeChange? && OnModeChange(parent, c, e).state.recoveryError.None?
    ensures c.state.phase != Executing && OnModeChange(parent, c, e).state.phase != Executing
  {
  }

  lemma RevisionWhileDrafting(sha: DigestFields -> string, c: Ctx, e: Entry)
    requires e.body.Revision? && OnRevision(sha, c, e).state.recoveryError.None?
    ensures c.state.phase == Drafting && OnRevision(sha, c, e).state.phase == Ready
  {
  }

  lemma DisownedRun(env: Env, c: Ctx, e: Entry)
    requires Reachable(env, c) && e.body.Run? && OnRun(env.liveRun, c, e).state.recoveryError.None?
    ensures OnRun(None, Disowned(c), e) == Disowned(OnRun(env.liveRun, c, e))
  {
  }

  lemma DisownedEntry(env: Env, c: Ctx, e: Entry)
    requires Reachable(env, c) && OnEntry(env, c, e).state.recoveryError.None?
    ensures OnEntry(env.(liveRun := None), Disowned(c), e) == Disowned(OnEntry(env, c, e))
  {
    match e.body
    case ModeChange(_, _, _, _) => ModeChangeWhileIdle(env.parent, c, e);
    case Run(_) => DisownedRun(env, c, e);
    case Revision(_) => RevisionWhileDrafting(env.sha, c, e);
    case _ =>
  }

  lemma DisownedStep(env: Env, c: Ctx, item: Item)
    requires Reachable(env, c) && c.state.recoveryError.None? && Step(env, c, item).state.recoveryError.None?
    ensures Step(env.(liveRun := None), Disowned(c), item) == Disowned(Step(env, c, item))
  {
    DisownedEntry(env, c, item.entry);
  }

  /** A log that replays cleanly for the process that owns a run replays cleanly after a restart,
      at every crash point, to the same state except that an executing plan is uncertain. */
  lemma {:induction false} RestartShowsTheSame(env: Env, items: seq<Item>, i: nat)
    requires i <= |items| && Clean(env, items)
    ensures At(env.(liveRun := None), items, i) == Disowned(At(env, items, i))
    ensures At(env.(liveRun := None), items, i).state.recoveryError.None?
  {
    if i == 0 {
      assert items[..0] == [];
    } else {
      RestartShowsTheSame(env, items, i - 1);
      AtNext(env, items, i - 1);
      AtNext(env.(liveRun := None), items, i - 1);
      FoldReachable(env, items[..i - 1]);
      DisownedStep(env, At(env, items, i - 1), items[i - 1]);
    }
  }

  lemma UnknownRunStep(env: Env, c: Ctx, item: Item, runId: string)
    requires runId !in Step(env, c, item).runIds && env.liveRun.None?
    ensures Step(env.(liveRun := Some(runId)), c, item) == Step(env, c, item)
  {
  }

  /** Owning a run the log has not seen yet changes nothing. */
  lemma {:induction false} UnknownRunChangesNothing(env: Env, items: seq<Item>, runId: string)
    requires env.liveRun.None? && runId !in Fold(env, items).runIds
    ensures Fold(env.(liveRun := Some(runId)), items) == Fold(env, items)
  {
    if items != [] {
      var n := |items| - 1;
      FoldReachable(env, items[..n]);
      StepHasFacts(env, Fold(env, items[..n]), items[n]);
      UnknownRunChangesNothing(env, items[..n], runId);
      UnknownRunStep(env, Fold(env, items[..n]), items[n], runId);
    }
  }

  // ---- line endings --------------------------------------------------------------------------

  predicate HasCrCrLf(s: string) {
    exists i :: 0 <= i && i + 2 < |s| && s[i] == '\r' && s[i + 1] == '\r' && s[i + 2] == '\n'
  }

  predicate HasCrLf(s: string) {
    exists i :: 0 <= i && i + 1 < |s| && s[i] == '\r' && s[i + 1] == '\n'
  }

  lemma {:induction false} NormalizeFixes(s: string)
    ensures Normalize(s) == s <==> !HasCrLf(s)
    ensures |Normalize(s)| <= |s|
  {
    if |s| >= 2 && s[0] == '\r' && s[1] == '\n' {
      NormalizeFixes(s[2..]);
      assert HasCrLf(s);
    } else if s != "" {
      NormalizeFixes(s[1..]);
      if HasCrLf(s) {
        var i :| 0 <= i && i + 1 < |s| && s[i] == '\r' && s[i + 1] == '\n';
        assert s[1..][i - 1] == '\r' && s[1..][i] == '\n';
      }
      if HasCrLf(s[1..]) {
        var i :| 0 <= i && i + 1 < |s[1..]| && s[1..][i] == '\r' && s[1..][i + 1] == '\n';
        assert s[i + 1] == '\r' && s[i + 2] == '\n';
      }
    }
  }

  lemma HasCrCrLfTail(s: string, n: nat)
    requires n <= |s|
    ensures HasCrCrLf(s[n..]) ==> HasCrCrLf(s)
  {
    if HasCrCrLf(s[n..]) {
      var i :| 0 <= i && i + 2 < |s[n..]| && s[n..][i] == '\r' && s[n..][i + 1] == '\r' && s[n..][i + 2] == '\n';
      assert s[n + i] == '\r' && s[n + i + 1] == '\r' && s[n + i + 2] == '\n';
    }
  }

  lemma HasCrLfCons(c: char, s: string)
    ensures HasCrLf([c] + s) <==> HasCrLf(s) || (c == '\r' && s != "" && s[0] == '\n')
  {
    var t := [c] + s;
    if HasCrLf(t) {
      var i :| 0 <= i && i + 1 < |t| && t[i] == '\r' && t[i + 1] == '\n';
      if i > 0 {
        assert s[i - 1] == '\r' && s[i] == '\n';
      }
    }
    if HasCrLf(s) {
      var i :| 0 <= i && i + 1 < |s| && s[i] == '\r' && s[i + 1] == '\n';
      assert t[i + 1] == '\r' && t[i + 2] == '\n';
    }
    if c == '\r' && s != "" && s[0] == '\n' {
      assert t[0] == '\r' && t[1] == '\n';
    }
  }

  /** The first character of the normalised text is a line feed precisely for these beginnings. */
  lemma NormalizeHead(s: string)
    ensures Normalize(s) != "" && Normalize(s)[0] == '\n' <==>
              (s != "" && s[0] == '\n') || (|s| >= 2 && s[0] == '\r' && s[1] == '\n')
  {
  }

  /** Normalising line endings twice differs from once exactly when the text has a carriage return
      in front of a CRLF, because the first pass then leaves a new CRLF behind. */
  lemma {:induction false} NormalizeIdempotent(s: string)
    ensures HasCrLf(Normalize(s)) <==> HasCrCrLf(s)
    ensures Normalize(Normalize(s)) == Normalize(s) <==> !HasCrCrLf(s)
  {
    NormalizeFixes(Normalize(s));
    if |s| >= 2 && s[0] == '\r' && s[1] == '\n' {
      NormalizeIdempotent(s[2..]);
      HasCrLfCons('\n', Normalize(s[2..]));
      HasCrCrLfTail(s, 2);
      if HasCrCrLf(s) {
        var i :| 0 <= i && i + 2 < |s| && s[i] == '\r' && s[i + 1] == '\r' && s[i + 2] == '\n';
        assert s[2..][i - 2] == '\r' && s[2..][i - 1] == '\r' && s[2..][i] == '\n';
      }
    } else if s != "" {
      NormalizeIdempotent(s[1..]);
      HasCrLfCons(s[0], Normalize(s[1..]));
      NormalizeHead(s[1..]);
      HasCrCrLfTail(s, 1);
      if HasCrCrLf(s) {
        var i :| 0 <= i && i + 2 < |s| && s[i] == '\r' && s[i + 1] == '\r' && s[i + 2] == '\n';
        if i > 0 {
          assert s[1..][i - 1] == '\r' && s[1..][i] == '\r' && s[1..][i + 1] == '\n';
        }
      }
      if s[0] == '\r' && |s| >= 3 && s[1] == '\r' && s[2] == '\n' {
        assert HasCrCrLf(s);
      }
    }
  }
}
