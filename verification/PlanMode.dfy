/** Plan Mode as an event-sourced state machine: the entries of a session log, the rules that accept
    or reject each of them, and the fold that replays a log. The digest is any function of the fields
    it authenticates. */
module PlanMode {
  import opened Chars
  import opened Options

  // ---- entries -------------------------------------------------------------------------------

  datatype Arguments = Arguments(title: Option<string>, markdown: Option<string>)

  datatype ToolCall = ToolCall(id: string, name: string, arguments: Option<Arguments>)

  datatype PlanRevision = PlanRevision(
    planId: string, revision: int, title: string, markdown: string, digest: string,
    sourceMessageId: string, schemaVersion: int, submittedByToolCallId: string,
    originSessionId: Option<string>)

  datatype PlanRun = PlanRun(planId: string, revision: int, digest: string, status: string, runId: Option<string>)

  datatype QuestionOption = QuestionOption(caption: string, description: string)

  datatype Body =
    | Message(role: string, stopReason: Option<string>, toolCalls: seq<ToolCall>, planTags: bool)
    | ModeChange(mode: string, planId: Option<string>, reason: Option<string>, relatedSessionId: Option<string>)
    | Question(qPlanId: string, questionId: string, header: string, question: string,
               options: seq<QuestionOption>, allowCustom: bool)
    | Answer(aPlanId: string, answeredId: string, answer: string)
    | Revision(rev: PlanRevision)
    | Run(run: PlanRun)
    | Other

  datatype Entry = Entry(id: string, body: Body)

  /** A replayed item: an entry, or a diagnostic of a damaged line in its place. */
  datatype Item = Good(entry: Entry) | Issue(line: nat, code: string)

  // ---- state ---------------------------------------------------------------------------------

  datatype Mode = Default | Plan

  datatype Phase =
    | Idle | Drafting | AwaitingAnswer | Ready | Executing | Settled | Failed | Aborted
    | Cancelled | Uncertain | RecoveryError

  datatype RecoveryIssue = RecoveryIssue(code: string, entryId: string)

  datatype PlanState = PlanState(
    mode: Mode, phase: Phase, activePlanId: Option<string>, latestRevision: Option<PlanRevision>,
    pendingQuestion: Option<string>, latestRun: Option<PlanRun>, recoveryError: Option<RecoveryIssue>,
    handoffTarget: Option<string>, legacyCandidate: bool, handoffSource: Option<string>)
  {
    predicate CanHandoff() {
      mode == Plan && phase == Ready && latestRevision.Some? && handoffSource.None?
    }
  }

  const INITIAL := PlanState(Default, Idle, None, None, None, None, None, None, false, None)

  /** The reducer's variables: the state and what it remembers of the entries before. */
  datatype Ctx = Ctx(
    state: PlanState, messages: map<string, Entry>, submitted: set<string>, planIds: set<string>,
    runIds: set<string>, questionIds: set<(string, string)>, handoffOrigin: Option<string>,
    previous: Option<Entry>)

  const START := Ctx(INITIAL, map[], {}, {}, {}, {}, None, None)

  datatype DigestFields =
    | LegacyFields(legacyMarkdown: string)
    | FieldsV1(planId: string, revision: int, title: string, markdown: string)

  /** What replay depends on besides the log: the digest function, the run this process owns, and
      the session this one was handed off from. */
  datatype Env = Env(sha: DigestFields -> string, liveRun: Option<string>, parent: Option<string>)

  // ---- validation ----------------------------------------------------------------------------

  const SCHEMA_VERSION := 1
  const MAX_TITLE_CHARS := 200
  const MAX_MARKDOWN_BYTES := 65536

  /** Whether strip() leaves nothing. */
  predicate IsBlank(s: string) {
    forall i :: 0 <= i < |s| ==> IsSpaceChar(s[i])
  }

  predicate ValidToken(s: string) {
    s != "" && |s| <= 200 && forall i :: 0 <= i < |s| ==> s[i] >= ' '
  }

  predicate ValidTokenOption(s: Option<string>) {
    s.Some? && ValidToken(s.value)
  }

  /** CRLF to LF, left to right. */
  function Normalize(s: string): string {
    if |s| >= 2 && s[0] == '\r' && s[1] == '\n' then "\n" + Normalize(s[2..])
    else if s == "" then "" else [s[0]] + Normalize(s[1..])
  }

  function Utf8Length(s: string): nat {
    if s == "" then 0
    else (if s[0] < '\U{80}' then 1 else if s[0] < '\U{800}' then 2 else if s[0] < '\U{10000}' then 3 else 4)
         + Utf8Length(s[1..])
  }

  function Digest(sha: DigestFields -> string, rev: PlanRevision): Option<string> {
    if rev.schemaVersion == 0 then Some(sha(LegacyFields(rev.markdown)))
    else if rev.schemaVersion != SCHEMA_VERSION then None
    else Some(sha(FieldsV1(rev.planId, rev.revision, rev.title, rev.markdown)))
  }

  predicate ValidSpec(planId: string, revision: int, title: string, markdown: string) {
    && planId != "" && revision >= 1
    && !IsBlank(title) && (forall i :: 0 <= i < |title| ==> title[i] >= ' ')
    && |title| <= MAX_TITLE_CHARS
    && !IsBlank(Normalize(markdown))
    && Utf8Length(Normalize(markdown)) <= MAX_MARKDOWN_BYTES
    && (forall i :: 0 <= i < |Normalize(markdown)| ==>
          Normalize(markdown)[i] >= ' ' || Normalize(markdown)[i] in {'\n', '\r', '\t'})
  }

  /** create_plan_revision: None stands for the INVALID_PLAN_SPEC error. */
  function CreateRevision(sha: DigestFields -> string, planId: string, revision: int, title: string, markdown: string,
                          sourceMessageId: string, toolCallId: string, origin: Option<string>): Option<PlanRevision>
  {
    if !ValidSpec(planId, revision, title, markdown) then None
    else
      var draft := PlanRevision(planId, revision, title, Normalize(markdown), "", sourceMessageId,
                                SCHEMA_VERSION, toolCallId, origin);
      Some(draft.(digest := Digest(sha, draft).value))
  }

  // ---- one entry -----------------------------------------------------------------------------

  function Recover(c: Ctx, id: string, code: string): Ctx {
    c.(state := c.state.(mode := Plan, phase := RecoveryError, pendingQuestion := None,
                         recoveryError := Some(RecoveryIssue(code, id))))
  }

  /** While an error stands, only the user's exit from the active episode is looked at. */
  predicate ClearsError(state: PlanState, body: Body) {
    && body.ModeChange? && body.mode == "default"
    && (body.reason == None || body.reason == Some("user"))
    && body.planId == state.activePlanId
  }

  function ExitPhase(state: PlanState): Phase {
    if state.activePlanId.Some? && state.activePlanId.value != "" then Cancelled else Idle
  }

  function OnMessage(c: Ctx, e: Entry): Ctx
    requires e.body.Message?
  {
    var d := c.(messages := c.messages[e.id := e]);
    var s := c.state;
    if s.mode == Plan && s.phase == Ready && e.body.role == "user" then
      d.(state := s.(phase := Drafting, legacyCandidate := false))
    else if s.mode == Plan && s.phase == Drafting && e.body.role == "user" then
      d.(state := s.(legacyCandidate := false))
    else if s.mode == Plan && s.phase == Drafting && e.body.role == "assistant" then
      d.(state := s.(legacyCandidate := e.body.planTags))
    else d
  }

  function OnEnter(parent: Option<string>, c: Ctx, e: Entry): Ctx
    requires e.body.ModeChange?
  {
    var b, s := e.body, c.state;
    if !ValidTokenOption(b.planId) then Recover(c, e.id, "INVALID_PLAN_ID")
    else if b.planId.value in c.planIds then Recover(c, e.id, "DUPLICATE_PLAN_ID")
    else if s.phase == Executing || s.mode == Plan then Recover(c, e.id, "INVALID_MODE_TRANSITION")
    else if b.reason == Some("handoff") && (!ValidTokenOption(b.relatedSessionId) || b.relatedSessionId != parent) then
      Recover(c, e.id, "INVALID_HANDOFF")
    else if b.reason != Some("handoff") && b.relatedSessionId.Some? then Recover(c, e.id, "INVALID_HANDOFF")
    else
      var origin := if b.reason == Some("handoff") then b.relatedSessionId else None;
      c.(planIds := c.planIds + {b.planId.value}, handoffOrigin := origin,
         state := INITIAL.(mode := Plan, phase := Drafting, activePlanId := b.planId, handoffSource := origin))
  }

  function OnExit(c: Ctx, e: Entry): Ctx
    requires e.body.ModeChange?
  {
    var b, s := e.body, c.state;
    if !((s.mode == Plan && s.phase in {Drafting, AwaitingAnswer, Ready}) || s.phase == Uncertain)
       || b.planId != s.activePlanId then Recover(c, e.id, "INVALID_MODE_TRANSITION")
    else if b.reason == Some("handoff") && (s.phase != Ready || !ValidTokenOption(b.relatedSessionId)) then
      Recover(c, e.id, "INVALID_HANDOFF")
    else if b.reason != Some("handoff") && b.relatedSessionId.Some? then Recover(c, e.id, "INVALID_HANDOFF")
    else
      c.(state := s.(mode := Default, phase := ExitPhase(s), pendingQuestion := None,
                     handoffTarget := if b.reason == Some("handoff") then b.relatedSessionId else None))
  }

  function OnModeChange(parent: Option<string>, c: Ctx, e: Entry): Ctx
    requires e.body.ModeChange?
  {
    if e.body.reason.Some? && e.body.reason.value !in {"user", "handoff"} then
      Recover(c, e.id, "INVALID_MODE_TRANSITION")
    else if e.body.mode == "plan" then OnEnter(parent, c, e)
    else OnExit(c, e)
  }

  predicate ValidQuestion(b: Body)
    requires b.Question?
  {
    && b.questionId != "" && b.question != "" && !IsBlank(b.header) && |b.header| <= 12
    && 2 <= |b.options| <= 3
    && forall i :: 0 <= i < |b.options| ==> !IsBlank(b.options[i].caption) && !IsBlank(b.options[i].description)
  }

  function OnQuestion(c: Ctx, e: Entry): Ctx
    requires e.body.Question?
  {
    var b, s := e.body, c.state;
    if s.mode != Plan || s.phase != Drafting || Some(b.qPlanId) != s.activePlanId || s.pendingQuestion.Some?
       || (b.qPlanId, b.questionId) in c.questionIds || !ValidQuestion(b) then
      Recover(c, e.id, "INVALID_PLAN_QUESTION")
    else
      c.(questionIds := c.questionIds + {(b.qPlanId, b.questionId)},
         state := s.(phase := AwaitingAnswer, pendingQuestion := Some(b.questionId)))
  }

  function OnAnswer(c: Ctx, e: Entry): Ctx
    requires e.body.Answer?
  {
    var b, s := e.body, c.state;
    if s.mode != Plan || s.phase != AwaitingAnswer || s.pendingQuestion != Some(b.answeredId)
       || Some(b.aPlanId) != s.activePlanId || IsBlank(b.answer) then
      Recover(c, e.id, "INVALID_PLAN_ANSWER")
    else c.(state := s.(phase := Drafting, pendingQuestion := None))
  }

  predicate Interrupted(stopReason: Option<string>) {
    stopReason.Some? && stopReason.value in {"aborted", "error", "length"}
  }

  /** The entry just before is an assistant message whose only tool call is this submission. */
  predicate SourceMatches(c: Ctx, rev: PlanRevision) {
    && rev.sourceMessageId in c.messages
    && c.previous == Some(c.messages[rev.sourceMessageId])
    && var m := c.messages[rev.sourceMessageId].body;
       && m.Message? && m.role == "assistant" && !Interrupted(m.stopReason)
       && |m.toolCalls| == 1
       && m.toolCalls[0].name == "submit_plan" && m.toolCalls[0].id == rev.submittedByToolCallId
       && var a := m.toolCalls[0].arguments;
          a.Some? && a.value.title == Some(rev.title)
          && a.value.markdown.Some? && Normalize(a.value.markdown.value) == rev.markdown
  }

  predicate IsHandoffCopy(c: Ctx, rev: PlanRevision) {
    && c.state.latestRevision.None?
    && rev.originSessionId.Some? && rev.originSessionId.value != ""
    && rev.originSessionId == c.handoffOrigin
  }

  function OnRevision(sha: DigestFields -> string, c: Ctx, e: Entry): Ctx
    requires e.body.Revision?
  {
    var r, s := e.body.rev, c.state;
    var expected := if s.latestRevision.Some? then s.latestRevision.value.revision + 1 else 1;
    if s.mode != Plan || s.phase != Drafting || Some(r.planId) != s.activePlanId
       || r.revision < 1 || (r.revision != expected && !IsHandoffCopy(c, r)) then
      Recover(c, e.id, "INVALID_PLAN_REVISION")
    else if r.schemaVersion == SCHEMA_VERSION
            && (!ValidToken(r.submittedByToolCallId) || r.submittedByToolCallId in c.submitted) then
      Recover(c, e.id, "INVALID_PLAN_REVISION_SOURCE")
    else if r.schemaVersion == SCHEMA_VERSION && r.originSessionId.Some? && !IsHandoffCopy(c, r) then
      Recover(c, e.id, "INVALID_HANDOFF")
    else if r.schemaVersion == SCHEMA_VERSION && r.originSessionId.None? && !SourceMatches(c, r) then
      Recover(c, e.id, "INVALID_PLAN_REVISION_SOURCE")
    else if r.schemaVersion == SCHEMA_VERSION
            && (!ValidSpec(r.planId, r.revision, r.title, r.markdown) || Normalize(r.markdown) != r.markdown) then
      Recover(c, e.id, "INVALID_PLAN_SPEC")
    else if Digest(sha, r).None? then Recover(c, e.id, "UNSUPPORTED_PLAN_SCHEMA")
    else if Digest(sha, r) != Some(r.digest) then Recover(c, e.id, "PLAN_DIGEST_MISMATCH")
    else
      c.(submitted := if r.schemaVersion == SCHEMA_VERSION && r.originSessionId.None?
                      then c.submitted + {r.submittedByToolCallId} else c.submitted,
         state := s.(latestRevision := Some(r), pendingQuestion := None, phase := Ready, legacyCandidate := false))
  }

  function OnStarted(liveRun: Option<string>, c: Ctx, e: Entry): Ctx
    requires e.body.Run?
  {
    var r, s := e.body.run, c.state;
    if s.mode != Plan || s.phase != Ready || s.latestRevision.None?
       || r.planId != s.latestRevision.value.planId || r.revision != s.latestRevision.value.revision
       || r.digest != s.latestRevision.value.digest
       || (s.latestRevision.value.schemaVersion >= SCHEMA_VERSION && !ValidTokenOption(r.runId))
       || (r.runId.Some? && r.runId.value in c.runIds) then
      Recover(c, e.id, "INVALID_PLAN_RUN")
    else
      c.(runIds := if r.runId.Some? then c.runIds + {r.runId.value} else c.runIds,
         state := s.(mode := Default, pendingQuestion := None, latestRun := Some(r),
                     phase := if liveRun.Some? && r.runId == liveRun then Executing else Uncertain))
  }

  function OnFinished(c: Ctx, e: Entry): Ctx
    requires e.body.Run? && e.body.run.status in {"completed", "failed", "aborted"}
  {
    var r, s := e.body.run, c.state;
    if s.phase !in {Executing, Uncertain} || s.latestRevision.None?
       || (s.latestRevision.value.schemaVersion >= SCHEMA_VERSION && !ValidTokenOption(r.runId))
       || s.latestRun.None? || s.latestRun.value.status != "started"
       || r.(status := "started") != s.latestRun.value then
      Recover(c, e.id, "INVALID_PLAN_RUN")
    else
      c.(state := s.(mode := Default, latestRun := Some(r),
                     phase := if r.status == "completed" then Settled
                              else if r.status == "failed" then Failed else Aborted))
  }

  function OnRun(liveRun: Option<string>, c: Ctx, e: Entry): Ctx
    requires e.body.Run?
  {
    if e.body.run.status == "started" then OnStarted(liveRun, c, e)
    else if e.body.run.status in {"completed", "failed", "aborted"} then OnFinished(c, e)
    else Recover(c, e.id, "INVALID_PLAN_RUN")
  }

  function OnEntry(env: Env, c: Ctx, e: Entry): Ctx {
    match e.body
    case Message(_, _, _, _) => OnMessage(c, e)
    case ModeChange(_, _, _, _) => OnModeChange(env.parent, c, e)
    case Question(_, _, _, _, _, _) => OnQuestion(c, e)
    case Answer(_, _, _) => OnAnswer(c, e)
    case Revision(_) => OnRevision(env.sha, c, e)
    case Run(_) => OnRun(env.liveRun, c, e)
    case Other => c
  }

  function Step(env: Env, c: Ctx, item: Item): Ctx {
    match item
    case Issue(line, code) =>
      c.(state := c.state.(mode := Plan, phase := RecoveryError, pendingQuestion := None,
                           recoveryError := Some(RecoveryIssue(code, "line"))))
    case Good(e) =>
      var d := if c.state.recoveryError.None? then OnEntry(env, c, e)
               else if ClearsError(c.state, e.body) then
                 c.(state := c.state.(mode := Default, phase := ExitPhase(c.state), pendingQuestion := None,
                                      recoveryError := None))
               else c;
      d.(previous := Some(e))
  }

  // ---- a whole log ---------------------------------------------------------------------------

  function Fold(env: Env, items: seq<Item>): Ctx {
    if items == [] then START else Step(env, Fold(env, items[..|items| - 1]), items[|items| - 1])
  }

  function Entries(items: seq<Item>): seq<Entry> {
    if items == [] then []
    else Entries(items[..|items| - 1])
         + if items[|items| - 1].Good? then [items[|items| - 1].entry] else []
  }

  predicate UniqueIds(entries: seq<Entry>) {
    forall i, j :: 0 <= i < j < |entries| ==> entries[i].id != entries[j].id
  }

  function Reduced(env: Env, items: seq<Item>): PlanState {
    if UniqueIds(Entries(items)) then Fold(env, items).state
    else INITIAL.(mode := Plan, phase := RecoveryError,
                  recoveryError := Some(RecoveryIssue("DUPLICATE_ENTRY_ID", "session-log")))
  }

  // ---- merging damaged lines back ------------------------------------------------------------

  /** An entry with the line of the file it was read from, if it was read from the file. */
  datatype Sourced = Sourced(entry: Entry, sourceLine: Option<nat>)

  datatype Diagnostic = Diagnostic(line: nat, code: string)

  /** One more diagnostic in a list that is in line order: behind those of its line. */
  function Placed(sorted: seq<Diagnostic>, d: Diagnostic): seq<Diagnostic> {
    if sorted == [] || sorted[|sorted| - 1].line <= d.line then sorted + [d]
    else Placed(sorted[..|sorted| - 1], d) + [sorted[|sorted| - 1]]
  }

  /** The diagnostics by line, those of one line in the order they came in. */
  function InLineOrder(issues: seq<Diagnostic>): seq<Diagnostic> {
    if issues == [] then [] else Placed(InLineOrder(issues[..|issues| - 1]), issues[|issues| - 1])
  }

  /** Damaged lines go before the first later entry, all of them before the first entry that was not
      read from the file. */
  function Merged(entries: seq<Sourced>, issues: seq<Diagnostic>): seq<Item> {
    if entries == [] then
      if issues == [] then [] else [Issue(issues[0].line, issues[0].code)] + Merged([], issues[1..])
    else if issues != [] && (entries[0].sourceLine.None? || issues[0].line <= entries[0].sourceLine.value) then
      [Issue(issues[0].line, issues[0].code)] + Merged(entries, issues[1..])
    else [Good(entries[0].entry)] + Merged(entries[1..], issues)
  }

  /** _replay_items, on diagnostics that have been parsed. */
  method ReplayItems(entries: seq<Sourced>, loadIssues: seq<Diagnostic>) returns (merged: seq<Item>)
    ensures merged == Merged(entries, InLineOrder(loadIssues))
  {
    var issues := InLineOrder(loadIssues);
    merged := [];
    var issueIndex := 0;
    for i := 0 to |entries|
      invariant 0 <= issueIndex <= |issues|
      invariant merged + Merged(entries[i..], issues[issueIndex..]) == Merged(entries, issues)
    {
      ghost var rest := entries[i..];
      while issueIndex < |issues|
            && (entries[i].sourceLine.None? || issues[issueIndex].line <= entries[i].sourceLine.value)
        invariant 0 <= issueIndex <= |issues|
        invariant merged + Merged(rest, issues[issueIndex..]) == Merged(entries, issues)
      {
        MergedMove(merged, Issue(issues[issueIndex].line, issues[issueIndex].code),
            Merged(rest, issues[issueIndex..][1..]));
        assert issues[issueIndex..][1..] == issues[issueIndex + 1..];
        merged := merged + [Issue(issues[issueIndex].line, issues[issueIndex].code)];
        issueIndex := issueIndex + 1;
      }
      MergedMove(merged, Good(entries[i].entry), Merged(rest[1..], issues[issueIndex..]));
      assert rest[1..] == entries[i + 1..];
      merged := merged + [Good(entries[i].entry)];
    }
    merged := AppendRest(merged, issues, issueIndex);
  }

  /** The diagnostics behind the last entry. */
  method AppendRest(merged0: seq<Item>, issues: seq<Diagnostic>, from: nat) returns (merged: seq<Item>)
    requires from <= |issues|
    ensures merged == merged0 + Merged([], issues[from..])
  {
    merged := merged0;
    var issueIndex := from;
    while issueIndex < |issues|
      invariant from <= issueIndex <= |issues|
      invariant merged + Merged([], issues[issueIndex..]) == merged0 + Merged([], issues[from..])
    {
      MergedMove(merged, Issue(issues[issueIndex].line, issues[issueIndex].code),
          Merged([], issues[issueIndex..][1..]));
      assert issues[issueIndex..][1..] == issues[issueIndex + 1..];
      merged := merged + [Issue(issues[issueIndex].line, issues[issueIndex].code)];
      issueIndex := issueIndex + 1;
    }
  }

  lemma MergedMove(a: seq<Item>, x: Item, b: seq<Item>)
    ensures a + ([x] + b) == a + [x] + b
  {
  }

  /** Replays a log: reduce_plan_state. */
  method ReducePlanState(env: Env, items: seq<Item>) returns (state: PlanState)
    ensures state == Reduced(env, items)
  {
    if !UniqueIds(Entries(items)) {
      return INITIAL.(mode := Plan, phase := RecoveryError,
                      recoveryError := Some(RecoveryIssue("DUPLICATE_ENTRY_ID", "session-log")));
    }
    var c := START;
    for i := 0 to |items|
      invariant c == Fold(env, items[..i])
    {
      assert items[..i + 1][..i] == items[..i];
      c := Step(env, c, items[i]);
    }
    assert items[..|items|] == items;
    return c.state;
  }
}
