/** What a stream of events makes of the items shown: a message is what was sent of it, a tool what its
    start and its end say. */
module TimelineMeaning {
  import opened Options
  import opened Timeline
  import opened TimelineProofs
  import opened TimelineRuns

  // ---- messages --------------------------------------------------------------------------------------

  /** The message id an event names, if it is about a message of the assistant. */
  predicate IsStart(e: Envelope, key: RunKey, mid: Option<string>) {
    e.event.MessageStart? && e.event.isAssistant && KeyOf(e) == key && e.event.mid == mid
  }

  predicate IsDelta(e: Envelope, key: RunKey, mid: Option<string>) {
    e.event.MessageDelta? && KeyOf(e) == key && e.event.mid == mid
  }

  predicate IsEnd(e: Envelope, key: RunKey, mid: Option<string>) {
    e.event.MessageEnd? && e.event.isAssistant && KeyOf(e) == key && e.event.mid == mid
  }

  /** Two messages of one run that their ids tell apart. */
  predicate Differ(a: Option<string>, b: Option<string>) { a.Some? && b.Some? && a != b }

  /** The event is not about the message: it is for another run, about another message that is named, or
      about no message at all and not the end of the run. */
  predicate Leaves(e: Envelope, key: RunKey, mid: Option<string>) {
    KeyOf(e) == key ==>
      match e.event
      case MessageStart(isAssistant, m) => isAssistant ==> Differ(m, mid)
      case MessageDelta(_, _, m) => Differ(m, mid)
      case MessageEnd(isAssistant, m, _, _, _) => isAssistant ==> Differ(m, mid)
      case RunEnded(_) => false
      case _ => true
  }

  /** The events between the start and the end of a message: its deltas, and what is not about it. */
  predicate Streams(events: seq<Envelope>, key: RunKey, mid: Option<string>) {
    forall i :: 0 <= i < |events| ==> Leaves(events[i], key, mid) || IsDelta(events[i], key, mid)
  }

  /** The deltas of one kind of a message, joined in order. */
  function Joined(events: seq<Envelope>, kind: DeltaKind, key: RunKey, mid: Option<string>): string {
    if events == [] then ""
    else
      var e := events[|events| - 1];
      Joined(events[..|events| - 1], kind, key, mid)
      + if IsDelta(e, key, mid) && e.event.kind == kind then e.event.delta else ""
  }

  /** Events about the message reach this item. */
  predicate Reaches(s: TimelineState, key: RunKey, mid: Option<string>, id: ItemId) {
    match mid
    case Some(m) => id == MessageId(key, m) && (key, m) in s.routes
    case None => id.AssistantId? && id.run == key && key in s.active && s.active[key] == id
  }

  /** The item is shown with this text, and events about the message reach it. */
  ghost predicate Live(s: TimelineState, key: RunKey, mid: Option<string>, id: ItemId, item: Item) {
    Routed(s) && Reaches(s, key, mid, id) && id in s.entities && s.entities[id] == item && item.Message?
  }

  /** In a frame of one event, the item is as it was and nothing is collected for it. */
  ghost predicate Stays(b: Batch, key: RunKey, mid: Option<string>, id: ItemId, item: Item) {
    && Reaches(b.state, key, mid, id) && id in b.state.entities && b.state.entities[id] == item
    && id !in b.deltas && id !in b.updates
  }

  lemma StartStays(s: TimelineState, e: Envelope, key: RunKey, mid: Option<string>, id: ItemId, item: Item)
    requires Live(s, key, mid, id, item) && e.event.MessageStart? && Leaves(e, key, mid)
    ensures Stays(Step(Begin(s), e), key, mid, id, item)
  {
  }

  predicate SaysNothing(c: Content) { c.text == "" && c.thinking == "" && c.images == [] }

  /** The end of a message changes that message only, and forgets its routes. */
  lemma EndChanges(s: TimelineState, e: Envelope, other: ItemId, x: ItemId)
    requires e.event.MessageEnd? && e.event.isAssistant && Resolve(s, KeyOf(e), e.event.mid) == Some(other)
    requires other in s.entities && s.entities[other].Message? && x != other && x in s.entities
    ensures var b, cleared := Step(Begin(s), e), ClearMessage(s, KeyOf(e), other);
            && x !in b.deltas && x !in b.updates && b.state.active == cleared.active && b.state.routes == cleared.routes
            && x in b.state.entities && b.state.entities[x] == s.entities[x]
  {
    RemoveChanges(s, other, x);
    EndForgets(s, e, other);
    EndKeeps(s, e, other, x);
  }

  /** The state in which the message is rewritten or removed. */
  function Ended(s: TimelineState, e: Event, other: ItemId): TimelineState
    requires e.MessageEnd? && other in s.entities && s.entities[other].Message?
  {
    if SaysNothing(e.content) then Remove(s, other)
    else s.(entities := s.entities[other := Snapshot(s.entities[other], e)])
  }

  lemma EndForgets(s: TimelineState, e: Envelope, other: ItemId)
    requires e.event.MessageEnd? && e.event.isAssistant && Resolve(s, KeyOf(e), e.event.mid) == Some(other)
    requires other in s.entities && s.entities[other].Message?
    ensures var b, cleared := Step(Begin(s), e), ClearMessage(Ended(s, e.event, other), KeyOf(e), other);
            && b.deltas == map[] && b.updates == map[]
            && b.state.active == cleared.active && b.state.routes == cleared.routes
            && b.state.entities == Ended(s, e.event, other).entities
  {
  }

  lemma EndKeeps(s: TimelineState, e: Envelope, other: ItemId, x: ItemId)
    requires e.event.MessageEnd? && other in s.entities && s.entities[other].Message? && x != other && x in s.entities
    ensures var t := Ended(s, e.event, other);
            && t.routes == s.routes && t.active == s.active && x in t.entities && t.entities[x] == s.entities[x]
            && ClearMessage(t, KeyOf(e), other).active == ClearMessage(s, KeyOf(e), other).active
            && ClearMessage(t, KeyOf(e), other).routes == ClearMessage(s, KeyOf(e), other).routes
  {
    RemoveChanges(s, other, x);
  }

  lemma RemoveChanges(s: TimelineState, other: ItemId, x: ItemId)
    requires x in s.entities && x != other
    ensures var t := Remove(s, other);
            t.routes == s.routes && t.active == s.active && x in t.entities && t.entities[x] == s.entities[x]
  {
  }

  lemma ClearedStays(s: TimelineState, at: RunKey, key: RunKey, mid: Option<string>, id: ItemId, other: ItemId)
    requires Reaches(s, key, mid, id) && other != id && forall p :: p in s.routes ==> s.routes[p] == MessageId(p.0, p.1)
    ensures Reaches(ClearMessage(s, at, other), key, mid, id)
  {
  }

  lemma EndStays(s: TimelineState, e: Envelope, key: RunKey, mid: Option<string>, id: ItemId, item: Item)
    requires Live(s, key, mid, id, item) && e.event.MessageEnd? && Leaves(e, key, mid)
    ensures Stays(Step(Begin(s), e), key, mid, id, item)
  {
    var other := Resolve(s, KeyOf(e), e.event.mid);
    if e.event.isAssistant && other.Some? {
      AnotherMessage(s, e, key, mid, id, other.value);
      EndChanges(s, e, other.value, id);
      ClearedStays(s, KeyOf(e), key, mid, id, other.value);
    }
  }

  lemma AnotherMessage(s: TimelineState, e: Envelope, key: RunKey, mid: Option<string>, id: ItemId, other: ItemId)
    requires Routed(s) && Reaches(s, key, mid, id) && e.event.MessageEnd? && e.event.isAssistant && Leaves(e, key, mid)
    requires Resolve(s, KeyOf(e), e.event.mid) == Some(other)
    ensures other != id && other in s.entities && s.entities[other].Message?
  {
  }

  lemma DeltaStays(s: TimelineState, e: Envelope, key: RunKey, mid: Option<string>, id: ItemId, item: Item)
    requires Live(s, key, mid, id, item) && e.event.MessageDelta? && Leaves(e, key, mid)
    ensures Stays(Step(Begin(s), e), key, mid, id, item)
  {
  }

  lemma RunStays(s: TimelineState, e: Envelope, key: RunKey, mid: Option<string>, id: ItemId, item: Item)
    requires Live(s, key, mid, id, item) && Leaves(e, key, mid)
    requires e.event.TurnChanged? || e.event.RunStarted? || e.event.RunEnded?
    ensures Stays(Step(Begin(s), e), key, mid, id, item)
  {
  }

  /** Compactions write compaction items only. */
  lemma CompactionChanges(s: TimelineState, e: Envelope, x: ItemId)
    requires x in s.entities && !s.entities[x].Compaction? && !x.CompactionId?
    ensures var t := OnCompaction(s, e);
            t.routes == s.routes && t.active == s.active && x in t.entities && t.entities[x] == s.entities[x]
  {
  }

  lemma CompactionStays(s: TimelineState, e: Envelope, key: RunKey, mid: Option<string>, id: ItemId, item: Item)
    requires Live(s, key, mid, id, item) && (e.event.CompactionStart? || e.event.CompactionEnd?)
    ensures Stays(Step(Begin(s), e), key, mid, id, item)
  {
    CompactionChanges(s, e, id);
  }

  predicate IsOfTool(e: Event) {
    || e.ToolStart? || e.ToolRunning? || e.ToolUpdate? || e.ToolEnd? || e.ApprovalRequested? || e.ApprovalExpired?
    || e.Unknown?
  }

  lemma PutChanges(s: TimelineState, e: Envelope, callId: string, name: string, args: Value, status: ToolStatus,
                   approval: Option<Approval>, x: ItemId)
    requires x in s.entities && x != ToolId(callId)
    ensures var t := PutTool(s, e, callId, name, args, status, approval);
            t.routes == s.routes && t.active == s.active && x in t.entities && t.entities[x] == s.entities[x]
  {
  }

  /** Tool events write tool items only. */
  lemma ToolChanges(s: TimelineState, e: Envelope, x: ItemId)
    requires x in s.entities && !x.ToolId?
    ensures var b := OnTool(Begin(s), e);
            && b.state.routes == s.routes && b.state.active == s.active
            && x in b.state.entities && b.state.entities[x] == s.entities[x] && x !in b.deltas && x !in b.updates
  {
    match e.event {
      case ToolStart(name, callId, args, pending) =>
        PutChanges(s, e, callId, name, args, if pending then Pending else Running, ApprovalOf(s, callId), x);
      case ApprovalRequested(Some(a)) =>
        PutChanges(s, e, a.toolCallId, a.toolName, a.approvalArgs, AwaitingApproval, Some(a), x);
      case _ =>
    }
  }

  lemma ToolStays(s: TimelineState, e: Envelope, key: RunKey, mid: Option<string>, id: ItemId, item: Item)
    requires Live(s, key, mid, id, item) && IsOfTool(e.event)
    ensures Stays(Step(Begin(s), e), key, mid, id, item)
  {
    ToolChanges(s, e, id);
  }

  lemma EventStays(s: TimelineState, e: Envelope, key: RunKey, mid: Option<string>, id: ItemId, item: Item)
    requires Live(s, key, mid, id, item) && Leaves(e, key, mid)
    ensures Stays(Step(Begin(s), e), key, mid, id, item)
  {
    match e.event {
      case MessageStart(_, _) => StartStays(s, e, key, mid, id, item);
      case MessageEnd(_, _, _, _, _) => EndStays(s, e, key, mid, id, item);
      case MessageDelta(_, _, _) => DeltaStays(s, e, key, mid, id, item);
      case TurnChanged(_, _) => RunStays(s, e, key, mid, id, item);
      case RunStarted(_) => RunStays(s, e, key, mid, id, item);
      case RunEnded(_) => RunStays(s, e, key, mid, id, item);
      case CompactionStart(_) => CompactionStays(s, e, key, mid, id, item);
      case CompactionEnd(_, _, _, _) => CompactionStays(s, e, key, mid, id, item);
      case _ => ToolStays(s, e, key, mid, id, item);
    }
  }

  /** What is not collected is not written. */
  lemma NothingIsWritten(b: Batch, key: RunKey, mid: Option<string>, id: ItemId, item: Item)
    requires Stays(b, key, mid, id, item)
    ensures Reaches(Flush(b), key, mid, id) && id in Flush(b).entities && Flush(b).entities[id] == item
  {
  }

  /** An event that is not about the message leaves its item as it is. */
  lemma LeftAlone(s: TimelineState, e: Envelope, key: RunKey, mid: Option<string>, id: ItemId, item: Item)
    requires Live(s, key, mid, id, item) && Leaves(e, key, mid)
    ensures Live(Single(s, e), key, mid, id, item)
  {
    EventStays(s, e, key, mid, id, item);
    NothingIsWritten(Step(Begin(s), e), key, mid, id, item);
    StepCollecting(Begin(s), e);
    FlushRouted(Step(Begin(s), e));
  }

  /** A delta of the message is appended to its text or to its thinking. */
  lemma DeltaGrows(s: TimelineState, e: Envelope, key: RunKey, mid: Option<string>, id: ItemId, item: Item)
    requires Live(s, key, mid, id, item) && IsDelta(e, key, mid)
    ensures var text := item.text + if e.event.kind.TextDelta? then e.event.delta else "";
            var thinking := item.thinking + if e.event.kind.ThinkingDelta? then e.event.delta else "";
            Live(Single(s, e), key, mid, id, item.(text := text, thinking := thinking))
  {
    StepCollecting(Begin(s), e);
    FlushRouted(Step(Begin(s), e));
    assert item.text + "" == item.text && item.thinking + "" == item.thinking;
    assert "" + e.event.delta == e.event.delta;
  }

  function WithText(item: Item, text: string, thinking: string): Item
    requires item.Message?
  {
    item.(text := text, thinking := thinking)
  }

  /** So a message that streams shows its text deltas and its thinking deltas, each joined in order. */
  lemma {:induction false} StreamIsJoined(s: TimelineState, events: seq<Envelope>, key: RunKey, mid: Option<string>,
                                          id: ItemId, item: Item)
    requires Live(s, key, mid, id, item) && Streams(events, key, mid) && item.text == "" && item.thinking == ""
    ensures Live(ReduceEach(s, events), key, mid, id,
                 WithText(item, Joined(events, TextDelta, key, mid), Joined(events, ThinkingDelta, key, mid)))
  {
    if events != [] {
      var before, e := events[..|events| - 1], events[|events| - 1];
      StreamIsJoined(s, before, key, mid, id, item);
      OneMoreEvent(ReduceEach(s, before), e, key, mid, id, item,
                   Joined(before, TextDelta, key, mid), Joined(before, ThinkingDelta, key, mid));
      SingleIsReduce(ReduceEach(s, before), e);
    }
  }

  lemma OneMoreEvent(s: TimelineState, e: Envelope, key: RunKey, mid: Option<string>, id: ItemId, item: Item,
                     text: string, thinking: string)
    requires item.Message? && Live(s, key, mid, id, WithText(item, text, thinking))
    requires Leaves(e, key, mid) || IsDelta(e, key, mid)
    ensures Live(Single(s, e), key, mid, id,
                 WithText(item, text + if IsDelta(e, key, mid) && e.event.kind.TextDelta? then e.event.delta else "",
                          thinking + if IsDelta(e, key, mid) && e.event.kind.ThinkingDelta? then e.event.delta else ""))
  {
    assert text + "" == text && thinking + "" == thinking;
    if IsDelta(e, key, mid) {
      DeltaGrows(s, e, key, mid, id, WithText(item, text, thinking));
    } else {
      LeftAlone(s, e, key, mid, id, WithText(item, text, thinking));
    }
  }

  /** The start of a message shows an empty one, and events about the message reach it. */
  lemma StartIsShown(s: TimelineState, e: Envelope, key: RunKey, mid: Option<string>) returns (id: ItemId, item: Item)
    requires Routed(s) && IsStart(e, key, mid)
    ensures Live(Single(s, e), key, mid, id, item)
    ensures item.role.Assistant? && item.text == "" && item.thinking == "" && item.images == [] && item.files == []
    ensures item.session == e.sessionId && item.run == e.runId && item.stopReason == Some("streaming")
  {
    id := StartedId(s, key, mid);
    item := StartedItem(s, e, id);
    StepCollecting(Begin(s), e);
    FlushRouted(Step(Begin(s), e));
  }

  /** The end of a message shows what it says, or takes the item away when it says nothing. */
  lemma EndIsShown(s: TimelineState, e: Envelope, key: RunKey, mid: Option<string>, id: ItemId, item: Item)
    requires Live(s, key, mid, id, item) && IsEnd(e, key, mid)
    ensures var t, c := Single(s, e), e.event.content;
            && (id in t.entities <==> !SaysNothing(c))
            && (id in t.entities ==>
                  && t.entities[id].Message?
                  && t.entities[id].text == c.text && t.entities[id].thinking == c.thinking
                  && t.entities[id].images == (if c.images == [] then item.images else c.images)
                  && t.entities[id].files == (if c.files == [] then item.files else c.files)
                  && t.entities[id].stopReason == e.event.stop
                  && t.entities[id].role == item.role && t.entities[id].order == item.order)
            && (e.event.error.Some? ==> t.lastError == e.event.error)
  {
  }

  lemma EachSnoc(s: TimelineState, events: seq<Envelope>, e: Envelope)
    ensures ReduceEach(s, events + [e]) == Single(ReduceEach(s, events), e)
    ensures ReduceEach(s, [e]) == Single(s, e)
  {
    assert (events + [e])[..|events|] == events && [e][..0] == [];
    SingleIsReduce(ReduceEach(s, events), e);
    SingleIsReduce(s, e);
  }

  /** While a message streams it shows its deltas joined in order, and after its end what the end says. */
  lemma MessageIsWhatWasSent(s: TimelineState, start: Envelope, events: seq<Envelope>, end: Envelope, key: RunKey,
                             mid: Option<string>) returns (id: ItemId)
    requires Routed(s) && IsStart(start, key, mid) && Streams(events, key, mid) && IsEnd(end, key, mid)
    ensures var t := ReduceEach(s, [start] + events);
            && id in t.entities && t.entities[id].Message? && t.entities[id].role.Assistant?
            && t.entities[id].text == Joined(events, TextDelta, key, mid)
            && t.entities[id].thinking == Joined(events, ThinkingDelta, key, mid)
            && t.entities[id].session == start.sessionId && t.entities[id].run == start.runId
            && t.entities[id].stopReason == Some("streaming")
    ensures var u, c := ReduceEach(s, [start] + events + [end]), end.event.content;
            && (id in u.entities <==> !SaysNothing(c))
            && (id in u.entities ==>
                  && u.entities[id].Message? && u.entities[id].text == c.text && u.entities[id].thinking == c.thinking
                  && u.entities[id].images == c.images && u.entities[id].files == c.files
                  && u.entities[id].stopReason == end.event.stop)
            && (end.event.error.Some? ==> u.lastError == end.event.error)
  {
    var item;
    id, item := StartIsShown(s, start, key, mid);
    EachSnoc(s, [], start);
    EachConcat(s, [start], events);
    StreamIsJoined(Single(s, start), events, key, mid, id, item);
    var joined := WithText(item, Joined(events, TextDelta, key, mid), Joined(events, ThinkingDelta, key, mid));
    EachSnoc(s, [start] + events, end);
    EndIsShown(ReduceEach(s, [start] + events), end, key, mid, id, joined);
  }

  /** And so it does when the stream is cut into frames. */
  lemma MessageInFrames(owner: Owner, s: TimelineState, frames: seq<seq<Envelope>>, start: Envelope,
                        events: seq<Envelope>, end: Envelope, key: RunKey, mid: Option<string>) returns (id: ItemId)
    requires Protocol(owner, Concat(frames)) && Collecting(Begin(s)) && Owned(owner, s)
    requires Concat(frames) == [start] + events + [end]
    requires IsStart(start, key, mid) && Streams(events, key, mid) && IsEnd(end, key, mid)
    ensures var u, c := ReduceFrames(s, frames), end.event.content;
            && (id in u.entities <==> !SaysNothing(c))
            && (id in u.entities ==>
                  && u.entities[id].Message? && u.entities[id].text == c.text && u.entities[id].thinking == c.thinking
                  && u.entities[id].images == c.images && u.entities[id].files == c.files
                  && u.entities[id].stopReason == end.event.stop)
  {
    FramesAreExact(owner, s, frames);
    id := MessageIsWhatWasSent(s, start, events, end, key, mid);
  }

  // ---- tools -----------------------------------------------------------------------------------------

  /** What a tool item says of its call. */
  predicate Describes(item: Item, e: Envelope) {
    && e.event.ToolStart? && item.Tool? && item.toolCallId == e.event.callId && item.name == e.event.toolName
    && item.args == e.event.args && item.session == e.sessionId && item.run == e.runId
  }

  ghost predicate ShowsCall(s: TimelineState, start: Envelope) {
    && start.event.ToolStart? && Routed(s)
    && ToolId(start.event.callId) in s.entities && Describes(s.entities[ToolId(start.event.callId)], start)
  }

  predicate IsToolStart(e: Envelope, callId: string) {
    e.event.ToolStart? && e.event.callId == callId != "" && e.event.toolName != "request_user_input"
  }

  predicate IsToolEnd(e: Envelope, callId: string) {
    e.event.ToolEnd? && e.event.callId == callId != "" && e.event.toolName != "request_user_input"
  }

  /** The event does not describe the call anew. */
  predicate KeepsCall(e: Envelope, callId: string) {
    match e.event
    case ToolStart(name, id, _, _) => id != callId || name == "request_user_input"
    case ApprovalRequested(Some(a)) => a.toolCallId != callId
    case _ => true
  }

  lemma StartDescribes(s: TimelineState, e: Envelope, callId: string)
    requires Routed(s) && IsToolStart(e, callId)
    ensures ShowsCall(Single(s, e), e)
    ensures Single(s, e).entities[ToolId(callId)].status == if e.event.pending then Pending else Running
  {
    StepCollecting(Begin(s), e);
    FlushRouted(Step(Begin(s), e));
  }

  lemma CallIsKept(s: TimelineState, e: Envelope, start: Envelope)
    requires ShowsCall(s, start) && KeepsCall(e, start.event.callId)
    ensures ShowsCall(Single(s, e), start)
  {
    StepCollecting(Begin(s), e);
    FlushRouted(Step(Begin(s), e));
    ItemIsKept(s, e, start);
  }

  lemma ItemIsKept(s: TimelineState, e: Envelope, start: Envelope)
    requires ShowsCall(s, start) && KeepsCall(e, start.event.callId)
    ensures var b, id := Step(Begin(s), e), ToolId(start.event.callId);
            id in b.state.entities && Describes(b.state.entities[id], start)
  {
    var id := ToolId(start.event.callId);
    match e.event {
      case MessageEnd(isAssistant, mid, _, _, _) =>
        var other := Resolve(s, KeyOf(e), mid);
        if isAssistant && other.Some? { EndChanges(s, e, other.value, id); }
      case CompactionStart(_) => CompactionChanges(s, e, id);
      case CompactionEnd(_, _, _, _) => CompactionChanges(s, e, id);
      case MessageStart(_, _) => StartKeepsTools(s, e, id);
      case RunEnded(_) => RunEndKeepsCalls(s, e, id);
      case TurnChanged(_, _) =>
      case RunStarted(_) =>
      case MessageDelta(_, _, _) =>
      case _ => ToolKeepsCall(s, e, start);
    }
  }

  lemma StartKeepsTools(s: TimelineState, e: Envelope, x: ItemId)
    requires Routed(s) && e.event.MessageStart? && x.ToolId? && x in s.entities
    ensures var t := Step(Begin(s), e).state; x in t.entities && t.entities[x] == s.entities[x]
  {
  }

  /** The end of a run changes the status, the result and the approval of a tool only. */
  lemma RunEndKeepsCalls(s: TimelineState, e: Envelope, x: ItemId)
    requires e.event.RunEnded? && x in s.entities && s.entities[x].Tool?
    ensures var t := Step(Begin(s), e).state;
            && x in t.entities && t.entities[x].Tool?
            && t.entities[x] == s.entities[x].(status := t.entities[x].status, result := t.entities[x].result,
                                               approval := t.entities[x].approval)
  {
  }

  lemma ToolKeepsCall(s: TimelineState, e: Envelope, start: Envelope)
    requires ShowsCall(s, start) && KeepsCall(e, start.event.callId) && IsOfTool(e.event)
    ensures var b, id := OnTool(Begin(s), e), ToolId(start.event.callId);
            id in b.state.entities && Describes(b.state.entities[id], start)
  {
    var id := ToolId(start.event.callId);
    match e.event {
      case ToolStart(name, callId, args, pending) =>
        if callId != start.event.callId {
          PutChanges(s, e, callId, name, args, if pending then Pending else Running, ApprovalOf(s, callId), id);
        }
      case ApprovalRequested(Some(a)) =>
        PutChanges(s, e, a.toolCallId, a.toolName, a.approvalArgs, AwaitingApproval, Some(a), id);
      case _ =>
    }
  }

  lemma {:induction false} CallIsKeptThroughout(s: TimelineState, events: seq<Envelope>, start: Envelope)
    requires ShowsCall(s, start) && forall i :: 0 <= i < |events| ==> KeepsCall(events[i], start.event.callId)
    ensures ShowsCall(ReduceEach(s, events), start)
  {
    if events != [] {
      var before, e := events[..|events| - 1], events[|events| - 1];
      CallIsKeptThroughout(s, before, start);
      CallIsKept(ReduceEach(s, before), e, start);
      SingleIsReduce(ReduceEach(s, before), e);
    }
  }

  /** The status an end gives: by the outcome it names, else by its error flag. */
  predicate EndsAs(status: ToolStatus, outcome: Option<string>, isError: bool) {
    && (outcome == Some("completed") ==> status == Done)
    && (outcome == Some("failed") ==> status == ToolError)
    && (outcome == Some("cancelled") ==> status == Cancelled)
    && (outcome == Some("timed_out") ==> status == TimedOut)
    && (outcome == Some("blocked") ==> status == Blocked)
    && (outcome == None ==> status == if isError then ToolError else Done)
    && (outcome.Some? && outcome.value !in ["completed", "failed", "cancelled", "timed_out", "blocked"] ==>
          status == Uncertain)
  }

  lemma EndFinishes(s: TimelineState, e: Envelope, start: Envelope)
    requires ShowsCall(s, start) && IsToolEnd(e, start.event.callId)
    ensures var t, id := Single(s, e), ToolId(start.event.callId);
            && id in t.entities && Describes(t.entities[id], start) && t.entities[id].approval.None?
            && t.entities[id].result == e.event.result
               && EndsAs(t.entities[id].status, e.event.outcome, e.event.isError)
  {
  }

  /** From its start to its end, whatever else happens, a tool shows the call of its start and then the
      result and the status of its end. */
  lemma ToolIsWhatItsEventsSay(s: TimelineState, start: Envelope, events: seq<Envelope>, end: Envelope, callId: string)
    requires Routed(s) && IsToolStart(start, callId) && IsToolEnd(end, callId)
    requires forall i :: 0 <= i < |events| ==> KeepsCall(events[i], callId)
    ensures ShowsCall(ReduceEach(s, [start] + events), start)
    ensures var u, id := ReduceEach(s, [start] + events + [end]), ToolId(callId);
            && id in u.entities && Describes(u.entities[id], start) && u.entities[id].approval.None?
            && u.entities[id].result == end.event.result
            && EndsAs(u.entities[id].status, end.event.outcome, end.event.isError)
  {
    StartDescribes(s, start, callId);
    EachSnoc(s, [], start);
    EachConcat(s, [start], events);
    CallIsKeptThroughout(Single(s, start), events, start);
    EachSnoc(s, [start] + events, end);
    EndFinishes(ReduceEach(s, [start] + events), end, start);
  }

  /** A partial result of an active tool is shown while it runs; one of a tool that has ended is not. */
  lemma UpdateIsShown(s: TimelineState, e: Envelope, callId: string)
    requires e.event.ToolUpdate? && e.event.callId == callId != "" && e.event.toolName != "request_user_input"
    requires ToolId(callId) in s.entities && s.entities[ToolId(callId)].Tool?
    ensures var t, id := Single(s, e), ToolId(callId);
            var active := s.entities[id].status in {Pending, AwaitingApproval, Running};
            && id in t.entities
            && t.entities[id] == if active then s.entities[id].(result := e.event.partial, status := Running)
                                 else s.entities[id]
  {
  }

  /** A request for an approval shows the tool as waiting for it, with its arguments, and an approval that
      has timed out as timed out. */
  lemma ApprovalIsShown(s: TimelineState, e: Envelope)
    ensures e.event.ApprovalRequested? && e.event.approval.Some? ==>
              var t, a := Single(s, e), e.event.approval.value;
              var id := ToolId(a.toolCallId);
              && id in t.entities && t.entities[id].Tool? && t.entities[id].status == AwaitingApproval
              && t.entities[id].approval == Some(a) && t.entities[id].name == a.toolName
              && t.entities[id].args == a.approvalArgs && t.entities[id].toolCallId == a.toolCallId
    ensures e.event.ApprovalExpired? && e.event.callId != "" && ToolId(e.event.callId) in s.entities
            && s.entities[ToolId(e.event.callId)].Tool? ==>
              var t, id := Single(s, e), ToolId(e.event.callId);
              && id in t.entities && t.entities[id].Tool? && t.entities[id].status == TimedOut
              && t.entities[id].approval.None? && t.entities[id].args == s.entities[id].args
  {
  }

  // ---- the other items -------------------------------------------------------------------------------

  /** The prompt of a run is shown as the user's message, once. */
  lemma PromptIsShown(s: TimelineState, e: Envelope)
    requires e.event.RunStarted? && UserId(KeyOf(e)) !in s.entities
    ensures var t, id, c := Single(s, e), UserId(KeyOf(e)), e.event.prompt;
            && t.running && (id in t.entities <==> c.text != "" || c.images != [] || c.files != [])
            && (id in t.entities ==>
                  && t.entities[id].Message? && t.entities[id].role.User? && t.entities[id].text == c.text
                  && t.entities[id].images == c.images && t.entities[id].files == c.files
                  && t.entities[id].thinking == "" && t.entities[id].order > s.lastOrder)
  {
  }

  /** A compaction is shown from its start to its end, with how it ended. */
  lemma CompactionIsShown(s: TimelineState, start: Envelope, end: Envelope)
    requires start.event.CompactionStart? && end.event.CompactionEnd? && s.activeCompaction.None?
    ensures var t := Single(s, start);
            && t.activeCompaction.Some? && t.activeCompaction.value in t.entities
            && t.entities[t.activeCompaction.value].Compaction?
            && t.entities[t.activeCompaction.value].progress == CompactionRunning
            && t.entities[t.activeCompaction.value].reason == start.event.why
            && var u := Single(t, end); var id := t.activeCompaction.value;
               && u.activeCompaction.None? && id in u.entities && u.entities[id].Compaction?
               && u.entities[id].detail == end.event.failure
               && (end.event.failure.Some? ==> u.entities[id].progress == CompactionFailed)
               && (end.event.failure.None? && end.event.aborted ==> u.entities[id].progress == CompactionAborted)
               && (end.event.failure.None? && !end.event.aborted ==> u.entities[id].progress == CompactionCompleted)
               && (end.event.preview.Some? ==> u.entities[id].summary == end.event.preview.value)
  {
  }
}
