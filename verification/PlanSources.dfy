/** Where an accepted plan comes from: the message that submitted it, and the text a confirmed run is about. */
module PlanSources {
  import opened Options
  import opened PlanMode
  import opened PlanProofs

  // ---- line ends -----------------------------------------------------------------------------------

  /** A CRLF becomes a line feed and what stands around it is normalised on its own; a text without one
      stays as it is (`NormalizeFixes`). */
  lemma {:induction false} NormalizeAt(a: string, b: string)
    ensures Normalize(a + "\r\n" + b) == Normalize(a) + "\n" + Normalize(b)
    decreases |a|
  {
    var s := a + "\r\n" + b;
    if a == "" {
      assert s[2..] == b;
    } else if |a| >= 2 && a[0] == '\r' && a[1] == '\n' {
      NormalizeAt(a[2..], b);
      Dropped(a, b, 2);
      Joined("\n", Normalize(a[2..]), "\n", Normalize(b));
    } else {
      NormalizeAt(a[1..], b);
      Dropped(a, b, 1);
      assert |a| == 1 ==> s[1] == '\r';
      Joined([a[0]], Normalize(a[1..]), "\n", Normalize(b));
    }
  }

  lemma Dropped(a: string, b: string, n: nat)
    requires n <= |a|
    ensures (a + "\r\n" + b)[n..] == a[n..] + "\r\n" + b
  {
  }

  lemma Joined(a: string, b: string, c: string, d: string)
    ensures a + (b + c + d) == a + b + c + d
  {
  }

  // ---- the submitting message ----------------------------------------------------------------------

  ghost predicate MessagesById(c: Ctx) { forall id :: id in c.messages ==> c.messages[id].id == id }

  lemma {:induction false} FoldKeepsMessages(env: Env, items: seq<Item>)
    ensures MessagesById(Fold(env, items))
    ensures items != [] && items[|items| - 1].Good? ==> Fold(env, items).previous == Some(items[|items| - 1].entry)
  {
    if items != [] {
      FoldKeepsMessages(env, items[..|items| - 1]);
      StepKeepsMessages(env, Fold(env, items[..|items| - 1]), items[|items| - 1]);
    }
  }

  lemma StepKeepsMessages(env: Env, c: Ctx, item: Item)
    requires MessagesById(c)
    ensures MessagesById(Step(env, c, item))
    ensures item.Good? ==> Step(env, c, item).previous == Some(item.entry)
  {
  }

  /** The entry is the complete assistant message whose only tool call submits this plan. */
  predicate Submits(m: Entry, rev: PlanRevision) {
    && m.id == rev.sourceMessageId && m.body.Message? && m.body.role == "assistant"
    && m.body.stopReason !in {Some("aborted"), Some("error"), Some("length")}
    && |m.body.toolCalls| == 1
    && var call := m.body.toolCalls[0];
       && call.name == "submit_plan" && call.id == rev.submittedByToolCallId && call.arguments.Some?
       && call.arguments.value.title == Some(rev.title)
       && call.arguments.value.markdown.Some? && Normalize(call.arguments.value.markdown.value) == rev.markdown
  }

  /** In any log, right before an accepted submission stands the message that submits it. */
  lemma SubmissionHasSource(env: Env, items: seq<Item>, i: nat)
    requires Accepted(env, items, i) && IsSubmission(items[i])
    ensures i > 0 && items[i - 1].Good? && Submits(items[i - 1].entry, items[i].entry.body.rev)
  {
    AtNext(env, items, i);
    FoldKeepsMessages(env, items[..i]);
    SourceIsBefore(env, At(env, items, i), items[i]);
    if i > 0 {
      AtNext(env, items, i - 1);
      IssueIsAnError(env, At(env, items, i - 1), items[i - 1]);
      assert items[..i][i - 1] == items[i - 1];
    }
  }

  lemma SourceIsBefore(env: Env, c: Ctx, item: Item)
    requires IsSubmission(item) && MessagesById(c)
    requires c.state.recoveryError.None? && Step(env, c, item).state.recoveryError.None?
    ensures c.previous.Some? && Submits(c.previous.value, item.entry.body.rev)
  {
  }

  lemma IssueIsAnError(env: Env, c: Ctx, item: Item)
    requires Step(env, c, item).state.recoveryError.None?
    ensures item.Good?
  {
  }

  /** So an accepted start of a submitted plan is for the very text of the message before the revision: its
      digest is that of the plan's id, number, title and normalised markdown, within their bounds. */
  lemma StartedRunsTheSubmittedText(env: Env, items: seq<Item>, i: nat) returns (j: nat, markdown: string)
    requires Accepted(env, items, i) && IsStarted(items[i])
    ensures j < i && Accepted(env, items, j) && IsRevision(items[j])
    ensures IsSubmission(items[j]) ==>
              && j > 0 && items[j - 1].Good? && items[j - 1].entry.body.Message?
              && |items[j - 1].entry.body.toolCalls| == 1
              && var rev, call, run := items[j].entry.body.rev, items[j - 1].entry.body.toolCalls[0],
                 items[i].entry.body.run;
                 && call.arguments == Some(Arguments(Some(rev.title), Some(markdown)))
                 && run.digest == env.sha(FieldsV1(run.planId, run.revision, rev.title, Normalize(markdown)))
                 && 1 <= |rev.title| <= 200 && 1 <= Utf8Length(Normalize(markdown)) <= 65_536
  {
    j := StartedIsAuthorised(env, items, i);
    markdown := "";
    if IsSubmission(items[j]) {
      SubmissionHasSource(env, items, j);
      var rev := items[j].entry.body.rev;
      markdown := items[j - 1].entry.body.toolCalls[0].arguments.value.markdown.value;
      TextIsBounded(rev.planId, rev.revision, rev.title, rev.markdown);
      assert rev.markdown == Normalize(markdown) == Normalize(rev.markdown);
    }
  }

  lemma TextIsBounded(planId: string, revision: int, title: string, markdown: string)
    requires ValidSpec(planId, revision, title, markdown)
    ensures 1 <= |title| <= 200 && 1 <= Utf8Length(Normalize(markdown)) <= 65_536
  {
    assert IsBlank("");
    assert title != "" && Normalize(markdown) != "";
  }

  // ---- plans of another session --------------------------------------------------------------------

  lemma {:induction false} OriginIsParent(env: Env, items: seq<Item>)
    ensures var c := Fold(env, items);
            c.handoffOrigin.Some? ==> c.handoffOrigin == env.parent && ValidToken(c.handoffOrigin.value)
  {
    if items != [] {
      OriginIsParent(env, items[..|items| - 1]);
      OriginStep(env, Fold(env, items[..|items| - 1]), items[|items| - 1]);
    }
  }

  lemma OriginStep(env: Env, c: Ctx, item: Item)
    requires c.handoffOrigin.Some? ==> c.handoffOrigin == env.parent && ValidToken(c.handoffOrigin.value)
    ensures var d := Step(env, c, item);
            d.handoffOrigin.Some? ==> d.handoffOrigin == env.parent && ValidToken(d.handoffOrigin.value)
  {
    if item.Good? && c.state.recoveryError.None? {
      if item.entry.body.ModeChange? {
        EnterNamesParent(env, c, item.entry);
      } else {
        OriginIsKept(env, c, item.entry);
      }
    }
  }

  lemma EnterNamesParent(env: Env, c: Ctx, e: Entry)
    requires e.body.ModeChange?
    requires c.handoffOrigin.Some? ==> c.handoffOrigin == env.parent && ValidToken(c.handoffOrigin.value)
    ensures var d := OnModeChange(env.parent, c, e);
            d.handoffOrigin.Some? ==> d.handoffOrigin == env.parent && ValidToken(d.handoffOrigin.value)
  {
  }

  lemma OriginIsKept(env: Env, c: Ctx, e: Entry)
    requires !e.body.ModeChange?
    ensures OnEntry(env, c, e).handoffOrigin == c.handoffOrigin
  {
  }

  /** A revision that names another session is accepted only as the first of its episode, and only from the
      session this one was handed off from. */
  lemma CopyComesFromParent(env: Env, items: seq<Item>, i: nat)
    requires Accepted(env, items, i) && IsRevision(items[i])
    requires items[i].entry.body.rev.schemaVersion == 1 && items[i].entry.body.rev.originSessionId.Some?
    ensures items[i].entry.body.rev.originSessionId == env.parent
    ensures At(env, items, i).state.latestRevision.None?
  {
    AtNext(env, items, i);
    OriginIsParent(env, items[..i]);
    CopyIsFirst(env, At(env, items, i), items[i]);
  }

  lemma CopyIsFirst(env: Env, c: Ctx, item: Item)
    requires IsRevision(item) && c.state.recoveryError.None? && Step(env, c, item).state.recoveryError.None?
    requires item.entry.body.rev.schemaVersion == 1 && item.entry.body.rev.originSessionId.Some?
    ensures c.state.latestRevision.None? && item.entry.body.rev.originSessionId == c.handoffOrigin
  {
  }

  // ---- questions and answers -----------------------------------------------------------------------

  predicate IsAnswer(item: Item) { item.Good? && item.entry.body.Answer? }

  /** An accepted question is short, has two or three options that say something, and is asked while a plan
      is drafted. */
  lemma QuestionIsWellFormed(env: Env, items: seq<Item>, i: nat)
    requires Accepted(env, items, i) && IsQuestion(items[i])
    ensures var b := items[i].entry.body;
            && At(env, items, i).state.phase == Drafting && At(env, items, i).state.activePlanId == Some(b.qPlanId)
            && b.questionId != "" && b.question != "" && !IsBlank(b.header) && |b.header| <= 12
            && 2 <= |b.options| <= 3
            && (forall k :: 0 <= k < |b.options| ==>
                  !IsBlank(b.options[k].caption) && !IsBlank(b.options[k].description))
    ensures At(env, items, i + 1).state.pendingQuestion == Some(items[i].entry.body.questionId)
  {
    AtNext(env, items, i);
  }

  /** While a question is pending nothing but it has been asked or answered since. */
  lemma {:induction false} PendingSince(env: Env, items: seq<Item>, i: nat) returns (j: nat)
    requires i <= |items| && At(env, items, i).state.pendingQuestion.Some?
    ensures j < i && Accepted(env, items, j) && IsQuestion(items[j])
    ensures At(env, items, i).state.pendingQuestion == Some(items[j].entry.body.questionId)
    ensures At(env, items, i).state.activePlanId == Some(items[j].entry.body.qPlanId)
    ensures forall k :: j < k < i ==> !IsQuestion(items[k]) && !IsAnswer(items[k])
  {
    assert items[..0] == [];
    if i > 0 {
      PendingAt(env, items, i - 1);
      if At(env, items, i - 1).state.pendingQuestion.None? {
        j := i - 1;
      } else {
        j := PendingSince(env, items, i - 1);
      }
    }
  }

  /** What a step does to the pending question, when one is pending behind it. */
  ghost predicate PendingKept(c: Ctx, d: Ctx, item: Item) {
    if c.state.pendingQuestion.None? then
      && IsQuestion(item) && c.state.recoveryError.None? && d.state.recoveryError.None?
      && d.state.pendingQuestion == Some(item.entry.body.questionId)
      && d.state.activePlanId == Some(item.entry.body.qPlanId)
    else
      && d.state.pendingQuestion == c.state.pendingQuestion && d.state.activePlanId == c.state.activePlanId
      && !IsQuestion(item) && !IsAnswer(item)
  }

  lemma PendingAt(env: Env, items: seq<Item>, i: nat)
    requires i < |items| && At(env, items, i + 1).state.pendingQuestion.Some?
    ensures PendingKept(At(env, items, i), At(env, items, i + 1), items[i])
  {
    AtNext(env, items, i);
    FoldReachable(env, items[..i]);
    PendingStep(env, At(env, items, i), items[i]);
  }

  lemma PendingStep(env: Env, c: Ctx, item: Item)
    requires Reachable(env, c) && Step(env, c, item).state.pendingQuestion.Some?
    ensures PendingKept(c, Step(env, c, item), item)
  {
    if item.Good? && c.state.recoveryError.None? {
      PendingEntry(env, c, item.entry);
    }
  }

  lemma PendingEntry(env: Env, c: Ctx, e: Entry)
    requires Reachable(env, c) && c.state.recoveryError.None? && OnEntry(env, c, e).state.pendingQuestion.Some?
    ensures PendingKept(c, OnEntry(env, c, e), Good(e))
  {
    match e.body {
      case ModeChange(_, _, _, _) => ModeChangeAsksNothing(env, c, e);
      case Revision(_) => RevisionAsksNothing(env, c, e);
      case Run(_) => RunAsksNothing(env, c, e);
      case _ =>
    }
  }

  lemma ModeChangeAsksNothing(env: Env, c: Ctx, e: Entry)
    requires e.body.ModeChange?
    ensures OnModeChange(env.parent, c, e).state.pendingQuestion.None?
  {
  }

  lemma RevisionAsksNothing(env: Env, c: Ctx, e: Entry)
    requires e.body.Revision?
    ensures OnRevision(env.sha, c, e).state.pendingQuestion.None?
  {
  }

  lemma RunAsksNothing(env: Env, c: Ctx, e: Entry)
    requires e.body.Run? && Reachable(env, c)
    ensures OnRun(env.liveRun, c, e).state.pendingQuestion.None?
  {
  }

  /** An accepted answer is for the question asked last, of the same plan, which nothing has answered
      before; and it says something. */
  lemma AnswerIsForTheQuestion(env: Env, items: seq<Item>, i: nat) returns (j: nat)
    requires Accepted(env, items, i) && IsAnswer(items[i])
    ensures j < i && Accepted(env, items, j) && IsQuestion(items[j]) && !IsBlank(items[i].entry.body.answer)
    ensures items[j].entry.body.questionId == items[i].entry.body.answeredId
    ensures items[j].entry.body.qPlanId == items[i].entry.body.aPlanId
    ensures forall k :: j < k < i ==> !IsQuestion(items[k]) && !IsAnswer(items[k])
  {
    AtNext(env, items, i);
    j := PendingSince(env, items, i);
  }
}
