/** The conversation timeline. Events arrive in frames; the reducer applies a frame's events in one
    pass, collecting text deltas and partial tool results and writing each item once at the end.
    The fields that only count or stamp writes (revision, updatedAt, lastSeq) are not modelled. */
module Timeline {
  import opened Options

  datatype RunKey = ByRun(runId: string) | BySession(sessionId: string) | Unscoped

  /** Item ids. Each form is built from its parts by an injective encoding. */
  datatype ItemId =
    | UserId(run: RunKey)
    | ChangesId(changedRun: string)
    | MessageId(run: RunKey, messageId: string)
    | AssistantId(run: RunKey, number: nat)
    | ToolId(callId: string)
    | CompactionId(timestamp: int, atOrder: real)
    | PersistedId(name: string)

  datatype Value = Undefined | Null | Json(text: string)

  datatype ToolStatus = Pending | AwaitingApproval | Running | Done | ToolError | Cancelled | TimedOut | Blocked
    | Uncertain

  datatype Approval = Approval(approvalId: string, toolCallId: string, toolName: string, approvalArgs: Value)

  datatype Role = User | Assistant

  datatype CompactionStatus = CompactionRunning | CompactionCompleted | CompactionFailed | CompactionAborted

  datatype Item =
    | Message(order: real, session: Option<string>, run: Option<string>, createdAt: int, role: Role, text: string,
              thinking: string, images: seq<string>, files: seq<string>, stopReason: Option<string>,
              protocolId: Option<string>)
    | Tool(order: real, session: Option<string>, run: Option<string>, createdAt: int, toolCallId: string, name: string,
           args: Value, result: Value, status: ToolStatus, approval: Option<Approval>)
    | Compaction(order: real, session: Option<string>, run: Option<string>, createdAt: int, progress: CompactionStatus,
                 reason: string, summary: string, detail: Option<string>)
    | Changes(order: real, session: Option<string>, run: Option<string>, createdAt: int, change: string)

  datatype TimelineState = TimelineState(
    entities: map<ItemId, Item>, orderedIds: seq<ItemId>, active: map<RunKey, ItemId>,
    routes: map<(RunKey, string), ItemId>, activeCompaction: Option<ItemId>, lastOrder: real,
    assistantSequence: nat, running: bool, lastError: Option<string>)

  datatype DeltaKind = TextDelta | ThinkingDelta

  datatype Content = Content(text: string, thinking: string, images: seq<string>, files: seq<string>)

  /** The events the reducer looks at, with the payload fields it reads. An empty tool call id or
      message id is one that is missing. */
  datatype Event =
    | TurnChanged(changedRunId: Option<string>, changedFiles: string)
    | RunStarted(prompt: Content)
    | RunEnded(failure: Option<string>)
    | MessageStart(isAssistant: bool, mid: Option<string>)
    | MessageDelta(kind: DeltaKind, delta: string, mid: Option<string>)
    | MessageEnd(isAssistant: bool, mid: Option<string>, content: Content, stop: Option<string>, error: Option<string>)
    | ToolStart(toolName: string, callId: string, args: Value, pending: bool)
    | ToolRunning(callId: string)
    | ToolUpdate(toolName: string, callId: string, partial: Value)
    | ToolEnd(toolName: string, callId: string, result: Value, outcome: Option<string>, isError: bool)
    | ApprovalRequested(approval: Option<Approval>)
    | ApprovalExpired(callId: string)
    | CompactionStart(why: string)
    | CompactionEnd(whyEnded: Option<string>, preview: Option<string>, failure: Option<string>, aborted: bool)
    | Unknown

  datatype Envelope = Envelope(event: Event, runId: Option<string>, sessionId: Option<string>, timestamp: int)

  function KeyOf(e: Envelope): RunKey {
    if e.runId.Some? && e.runId.value != "" then ByRun(e.runId.value)
    else if e.sessionId.Some? && e.sessionId.value != "" then BySession(e.sessionId.value)
    else Unscoped
  }

  predicate IsActive(status: ToolStatus) { status in {Pending, AwaitingApproval, Running} }

  function ProjectStatus(outcome: Option<string>, isError: bool): ToolStatus {
    match outcome
    case Some("completed") => Done
    case Some("failed") => ToolError
    case Some("cancelled") => Cancelled
    case Some("timed_out") => TimedOut
    case Some("blocked") => Blocked
    case None => if isError then ToolError else Done
    case _ => Uncertain
  }

  const HIDDEN_TOOL := "request_user_input"
  const NO_OUTCOME := Json("The run has ended without an outcome for this tool.")
  const APPROVAL_TIMEOUT := Json("The approval has timed out.")

  function OrElse(v: Value, w: Value): Value { if v.Json? then v else w }

  // ---- one frame in progress -----------------------------------------------------------------

  datatype Delta = Delta(text: string, thinking: string)

  /** The state so far, and what is collected for the end of the frame. */
  datatype Batch = Batch(state: TimelineState, deltas: map<ItemId, Delta>, updates: map<ItemId, Value>)

  function Insert(s: TimelineState, id: ItemId, item: Item): TimelineState {
    s.(orderedIds := if id in s.entities then s.orderedIds else s.orderedIds + [id],
       entities := s.entities[id := item])
  }

  function Without(ids: seq<ItemId>, id: ItemId): seq<ItemId> {
    if ids == [] then []
    else Without(ids[..|ids| - 1], id) + if ids[|ids| - 1] == id then [] else [ids[|ids| - 1]]
  }

  function Remove(s: TimelineState, id: ItemId): TimelineState {
    if id !in s.entities then s
    else s.(entities := s.entities - {id}, orderedIds := Without(s.orderedIds, id))
  }

  function WithDelta(item: Item, d: Delta): Item {
    if item.Message? then item.(text := item.text + d.text, thinking := item.thinking + d.thinking) else item
  }

  function WithUpdate(item: Item, v: Value): Item {
    if item.Tool? then item.(result := v, status := Running) else item
  }

  /** applyPendingDelta */
  function ApplyDelta(b: Batch, id: ItemId): Batch {
    if id !in b.deltas then b
    else if id !in b.state.entities then b.(deltas := b.deltas - {id})
    else b.(deltas := b.deltas - {id},
            state := b.state.(entities := b.state.entities[id := WithDelta(b.state.entities[id], b.deltas[id])]))
  }

  function Resolve(s: TimelineState, key: RunKey, mid: Option<string>): Option<ItemId> {
    if mid.Some? then
      if (key, mid.value) in s.routes then Some(s.routes[(key, mid.value)]) else None
    else if key in s.active then Some(s.active[key]) else None
  }

  type Routes = map<(RunKey, string), ItemId>

  function RoutesOfOthers(routes: Routes, key: RunKey): Routes {
    map p | p in routes && p.0 != key :: routes[p]
  }

  function RoutesElsewhere(routes: Routes, id: ItemId): Routes {
    map p | p in routes && routes[p] != id :: routes[p]
  }

  /** Forgets the routes of a whole run, as its end does. */
  function ClearRun(s: TimelineState, key: RunKey): TimelineState {
    s.(active := s.active - {key}, routes := RoutesOfOthers(s.routes, key))
  }

  /** Forgets the routes of one message, as its end does. */
  function ClearMessage(s: TimelineState, key: RunKey, id: ItemId): TimelineState {
    s.(active := if key in s.active && s.active[key] == id then s.active - {key} else s.active,
       routes := RoutesElsewhere(s.routes, id))
  }

  predicate OfRun(item: Item, e: Envelope) {
    item.Tool? && item.session == e.sessionId && item.run == e.runId
  }

  function Finish(item: Item): Item
    requires item.Tool?
  {
    item.(approval := None, status := Uncertain, result := OrElse(item.result, NO_OUTCOME))
  }

  function OnTurnChanged(s: TimelineState, e: Envelope): TimelineState
    requires e.event.TurnChanged?
  {
    var t := e.event;
    if t.changedRunId.None? || t.changedRunId != e.runId || t.changedFiles == "" then s
    else
      var id := ChangesId(t.changedRunId.value);
      if id in s.entities then s
      else Insert(s.(lastOrder := s.lastOrder + 1.0), id,
                  Changes(s.lastOrder + 1.0, e.sessionId, e.runId, e.timestamp, t.changedFiles))
  }

  function OnRunStarted(s: TimelineState, e: Envelope): TimelineState
    requires e.event.RunStarted?
  {
    var c, id := e.event.prompt, UserId(KeyOf(e));
    var t := if (c.text != "" || c.images != [] || c.files != []) && id !in s.entities then
               Insert(s.(lastOrder := s.lastOrder + 1.0), id,
                      Message(s.lastOrder + 1.0, e.sessionId, e.runId, e.timestamp, User, c.text, "", c.images, c.files,
                          None, None))
             else s;
    t.(running := true)
  }

  predicate IsClosed(entities: map<ItemId, Item>, id: ItemId, e: Envelope) {
    id in entities && OfRun(entities[id], e) && IsActive(entities[id].status)
  }

  function Closed(entities: map<ItemId, Item>, e: Envelope): map<ItemId, Item> {
    map id | id in entities :: if IsClosed(entities, id, e) then Finish(entities[id]) else entities[id]
  }

  function NotClosed(updates: map<ItemId, Value>, entities: map<ItemId, Item>, e: Envelope): map<ItemId, Value> {
    map id | id in updates && !IsClosed(entities, id, e) :: updates[id]
  }

  function OnRunEnded(b: Batch, e: Envelope): Batch
    requires e.event.RunEnded?
  {
    var t := ClearRun(b.state.(entities := Closed(b.state.entities, e), running := false), KeyOf(e));
    b.(state := if e.event.failure.Some? then t.(lastError := e.event.failure) else t,
       updates := NotClosed(b.updates, b.state.entities, e))
  }

  function StartedId(s: TimelineState, key: RunKey, mid: Option<string>): ItemId {
    if mid.Some? then
      if (key, mid.value) in s.routes then s.routes[(key, mid.value)] else MessageId(key, mid.value)
    else AssistantId(key, s.assistantSequence + 1)
  }

  function StartedItem(s: TimelineState, e: Envelope, id: ItemId): Item
    requires e.event.MessageStart?
  {
    Message(if id in s.entities then s.entities[id].order else s.lastOrder + 1.0, e.sessionId, e.runId,
            if id in s.entities then s.entities[id].createdAt else e.timestamp,
            Assistant, "", "", [], [], Some("streaming"), e.event.mid)
  }

  function Started(s: TimelineState, e: Envelope, id: ItemId, item: Item): TimelineState
    requires e.event.MessageStart?
  {
    var t := Insert(s, id, item);
    t.(assistantSequence := s.assistantSequence + 1,
       lastOrder := if id in s.entities then s.lastOrder else s.lastOrder + 1.0,
       active := s.active[KeyOf(e) := id],
       routes := if e.event.mid.Some? then s.routes[(KeyOf(e), e.event.mid.value) := id] else s.routes)
  }

  predicate IsRouted(s: TimelineState, key: RunKey, mid: Option<string>) {
    mid.Some? && (key, mid.value) in s.routes
  }

  function OnMessageStart(b: Batch, e: Envelope): Batch
    requires e.event.MessageStart?
  {
    if !e.event.isAssistant then b
    else
      var id := StartedId(b.state, KeyOf(e), e.event.mid);
      var c := if IsRouted(b.state, KeyOf(e), e.event.mid) then ApplyDelta(b, id) else b;
      c.(state := Started(c.state, e, id, StartedItem(c.state, e, id)))
  }

  function OnMessageDelta(b: Batch, e: Envelope): Batch
    requires e.event.MessageDelta?
  {
    var id := Resolve(b.state, KeyOf(e), e.event.mid);
    if e.event.delta == "" || id.None? then b
    else
      var d := if id.value in b.deltas then b.deltas[id.value] else Delta("", "");
      var d' := if e.event.kind.TextDelta? then d.(text := d.text + e.event.delta)
                else d.(thinking := d.thinking + e.event.delta);
      b.(deltas := b.deltas[id.value := d'])
  }

  function Snapshot(item: Item, e: Event): Item
    requires item.Message? && e.MessageEnd?
  {
    item.(text := e.content.text, thinking := e.content.thinking,
          images := if e.content.images == [] then item.images else e.content.images,
          files := if e.content.files == [] then item.files else e.content.files, stopReason := e.stop)
  }

  function OnMessageEnd(b: Batch, e: Envelope): Batch
    requires e.event.MessageEnd?
  {
    var id := Resolve(b.state, KeyOf(e), e.event.mid);
    if !e.event.isAssistant || id.None? then b
    else
      var c := b.(deltas := b.deltas - {id.value});
      var s := b.state;
      if id.value !in s.entities || !s.entities[id.value].Message? then c
      else
        var content := e.event.content;
        var empty := content.text == "" && content.thinking == "" && content.images == [];
        var t := if empty then Remove(s, id.value)
                 else s.(entities := s.entities[id.value := Snapshot(s.entities[id.value], e.event)]);
        var u := ClearMessage(t, KeyOf(e), id.value);
        c.(state := if e.event.error.Some? then u.(lastError := e.event.error) else u,
           updates := if empty then c.updates - {id.value} else c.updates)
  }

  /** tool_execution_start and approval.requested write the tool anew, keeping its place and result. */
  function PutTool(s: TimelineState, e: Envelope, callId: string, name: string, args: Value, status: ToolStatus,
                   approval: Option<Approval>): TimelineState
  {
    var id := ToolId(callId);
    var known := id in s.entities && s.entities[id].Tool?;
    var order := if known then s.entities[id].order else s.lastOrder + 1.0;
    var created := if known then s.entities[id].createdAt else e.timestamp;
    var result := if known then s.entities[id].result else Undefined;
    Insert(s.(lastOrder := if known then s.lastOrder else s.lastOrder + 1.0), id,
           Tool(order, e.sessionId, e.runId, created, callId, name, args, result, status, approval))
  }

  function ApprovalOf(s: TimelineState, callId: string): Option<Approval> {
    if ToolId(callId) in s.entities && s.entities[ToolId(callId)].Tool? then s.entities[ToolId(callId)].approval
    else None
  }

  function OnTool(b: Batch, e: Envelope): Batch {
    var s := b.state;
    match e.event
    case ToolStart(name, callId, args, pending) =>
      if name == HIDDEN_TOOL || callId == "" then b
      else b.(state := PutTool(s, e, callId, name, args, if pending then Pending else Running, ApprovalOf(s, callId)))
    case ToolRunning(callId) =>
      var id := ToolId(callId);
      if id in s.entities && s.entities[id].Tool? && IsActive(s.entities[id].status) then
        b.(state := s.(entities := s.entities[id := s.entities[id].(status := Running, approval := None)]))
      else b
    case ToolUpdate(name, callId, partial) =>
      var id := ToolId(callId);
      if name != HIDDEN_TOOL && callId != "" && id in s.entities && s.entities[id].Tool?
        && IsActive(s.entities[id].status)
      then b.(updates := b.updates[id := partial])
      else b
    case ToolEnd(name, callId, result, outcome, isError) =>
      var id := ToolId(callId);
      if name == HIDDEN_TOOL || callId == "" then b
      else
        var c := b.(updates := b.updates - {id});
        if id in s.entities && s.entities[id].Tool? then
          c.(state := s.(entities := s.entities[id := s.entities[id].(approval := None, result := result,
                                                                      status := ProjectStatus(outcome, isError))]))
        else c
    case ApprovalRequested(approval) =>
      if approval.None? then b
      else b.(state := PutTool(s, e, approval.value.toolCallId, approval.value.toolName, approval.value.approvalArgs,
                               AwaitingApproval, approval))
    case ApprovalExpired(callId) =>
      var id := ToolId(callId);
      if callId != "" && id in s.entities && s.entities[id].Tool? then
        b.(state := s.(entities := s.entities[id := s.entities[id].(approval := None, result := APPROVAL_TIMEOUT,
                                                                    status := TimedOut)]))
      else b
    case _ => b
  }

  function OnCompaction(s: TimelineState, e: Envelope): TimelineState {
    match e.event
    case CompactionStart(why) =>
      if s.activeCompaction.Some? then s
      else
        var id := CompactionId(e.timestamp, s.lastOrder + 1.0);
        Insert(s.(lastOrder := s.lastOrder + 1.0, activeCompaction := Some(id)), id,
               Compaction(s.lastOrder + 1.0, e.sessionId, e.runId, e.timestamp, CompactionRunning, why, "", None))
    case CompactionEnd(why, preview, failure, aborted) =>
      if s.activeCompaction.None? then s
      else
        var id := s.activeCompaction.value;
        if id !in s.entities || !s.entities[id].Compaction? then s.(activeCompaction := None)
        else
          var item := s.entities[id];
          s.(activeCompaction := None,
             entities := s.entities[id := item.(
               progress := if failure.Some? then CompactionFailed else if aborted then CompactionAborted
                 else CompactionCompleted,
               reason := if why.Some? then why.value else item.reason,
               summary := if preview.Some? then preview.value else item.summary, detail := failure)])
    case _ => s
  }

  /** One event of a frame. */
  function Step(b: Batch, e: Envelope): Batch {
    match e.event
    case TurnChanged(_, _) => b.(state := OnTurnChanged(b.state, e))
    case RunStarted(_) => b.(state := OnRunStarted(b.state, e))
    case RunEnded(_) => OnRunEnded(b, e)
    case MessageStart(_, _) => OnMessageStart(b, e)
    case MessageDelta(_, _, _) => OnMessageDelta(b, e)
    case MessageEnd(_, _, _, _, _) => OnMessageEnd(b, e)
    case CompactionStart(_) => b.(state := OnCompaction(b.state, e))
    case CompactionEnd(_, _, _, _) => b.(state := OnCompaction(b.state, e))
    case _ => OnTool(b, e)
  }

  function Steps(b: Batch, events: seq<Envelope>): Batch {
    if events == [] then b else Step(Steps(b, events[..|events| - 1]), events[|events| - 1])
  }

  function FlushItem(deltas: map<ItemId, Delta>, updates: map<ItemId, Value>, id: ItemId, item: Item): Item {
    var m := if id in deltas then WithDelta(item, deltas[id]) else item;
    if id in updates then WithUpdate(m, updates[id]) else m
  }

  function FlushItems(entities: map<ItemId, Item>, deltas: map<ItemId, Delta>, updates: map<ItemId, Value>)
    : map<ItemId, Item>
  {
    map id | id in entities :: FlushItem(deltas, updates, id, entities[id])
  }

  /** What the end of the frame writes. */
  function Flush(b: Batch): TimelineState {
    b.state.(entities := FlushItems(b.state.entities, b.deltas, b.updates))
  }

  function Begin(s: TimelineState): Batch { Batch(s, map[], map[]) }

  /** A frame's events reduced as one batch. */
  function Reduce(s: TimelineState, events: seq<Envelope>): TimelineState {
    Flush(Steps(Begin(s), events))
  }

  /** The events reduced one at a time, each as a frame of its own. */
  function ReduceEach(s: TimelineState, events: seq<Envelope>): TimelineState {
    if events == [] then s else Reduce(ReduceEach(s, events[..|events| - 1]), [events[|events| - 1]])
  }

  /** reduceRuntimeEventBatch: one pass over the events, then one write per collected item. */
  method ReduceRuntimeEventBatch(state: TimelineState, events: seq<Envelope>) returns (r: TimelineState)
    ensures r == Reduce(state, events)
  {
    var b := Begin(state);
    for i := 0 to |events|
      invariant b == Steps(Begin(state), events[..i])
    {
      assert events[..i + 1][..i] == events[..i];
      b := Step(b, events[i]);
    }
    assert events[..|events|] == events;
    ghost var whole := b;
    var ids := b.deltas.Keys;
    while ids != {}
      invariant ids == b.deltas.Keys
      invariant Flush(b) == Flush(whole) && b.updates == whole.updates
      decreases |ids|
    {
      var id :| id in ids;
      DeltaFlushed(b, id);
      b := ApplyDelta(b, id);
      ids := ids - {id};
    }
    ids := b.updates.Keys;
    while ids != {}
      invariant ids == b.updates.Keys && b.deltas == map[]
      invariant Flush(b) == Flush(whole)
      decreases |ids|
    {
      var id :| id in ids;
      UpdateFlushed(b, id);
      b := ApplyUpdate(b, id);
      ids := ids - {id};
    }
    assert b.state.entities == Flush(b).entities;
    return b.state;
  }

  /** applyPendingToolUpdate */
  function ApplyUpdate(b: Batch, id: ItemId): Batch {
    if id !in b.updates then b
    else if id !in b.state.entities then b.(updates := b.updates - {id})
    else b.(updates := b.updates - {id},
            state := b.state.(entities := b.state.entities[id := WithUpdate(b.state.entities[id], b.updates[id])]))
  }

  lemma DeltaFlushedItems(entities: map<ItemId, Item>, deltas: map<ItemId, Delta>, updates: map<ItemId, Value>,
                          id: ItemId)
    requires id in entities && id in deltas
    ensures FlushItems(entities[id := WithDelta(entities[id], deltas[id])], deltas - {id}, updates)
         == FlushItems(entities, deltas, updates)
  {
  }

  lemma DeltaFlushed(b: Batch, id: ItemId)
    ensures Flush(ApplyDelta(b, id)) == Flush(b)
  {
    if id in b.deltas {
      if id in b.state.entities {
        DeltaFlushedItems(b.state.entities, b.deltas, b.updates, id);
      } else {
        assert FlushItems(b.state.entities, b.deltas - {id}, b.updates)
               == FlushItems(b.state.entities, b.deltas, b.updates);
      }
    }
  }

  lemma UpdateFlushedItems(entities: map<ItemId, Item>, updates: map<ItemId, Value>, id: ItemId)
    requires id in entities && id in updates
    ensures FlushItems(entities[id := WithUpdate(entities[id], updates[id])], map[], updates - {id})
         == FlushItems(entities, map[], updates)
  {
  }

  lemma UpdateFlushed(b: Batch, id: ItemId)
    requires b.deltas == map[]
    ensures Flush(ApplyUpdate(b, id)) == Flush(b)
  {
    if id in b.updates {
      if id in b.state.entities {
        UpdateFlushedItems(b.state.entities, b.updates, id);
      } else {
        assert FlushItems(b.state.entities, map[], b.updates - {id}) == FlushItems(b.state.entities, map[], b.updates);
      }
    }
  }
}
