/** Whole streams of events: any way of cutting a protocol-ordered stream into frames gives the same
    timeline, and what every reachable timeline keeps. */
module TimelineRuns {
  import opened Options
  import opened Timeline
  import opened TimelineProofs

  // ---- the structure every event keeps -------------------------------------------------------

  lemma {:induction false} WithoutRemoves(ids: seq<ItemId>, id: ItemId)
    requires NoDuplicates(ids)
    ensures NoDuplicates(Without(ids, id))
    ensures forall x :: x in Without(ids, id) <==> x in ids && x != id
  {
    if ids != [] {
      var n := |ids| - 1;
      WithoutRemoves(ids[..n], id);
      assert ids == ids[..n] + [ids[n]];
      assert ids[n] !in ids[..n];
    }
  }

  lemma InsertListed(s: TimelineState, id: ItemId, item: Item)
    requires Listed(s)
    ensures Listed(Insert(s, id, item))
  {
  }

  lemma RemoveListed(s: TimelineState, id: ItemId)
    requires Listed(s)
    ensures Listed(Remove(s, id))
  {
    WithoutRemoves(s.orderedIds, id);
  }

  /** The list depends on the items' ids only. */
  lemma SameIdsListed(s: TimelineState, t: TimelineState)
    requires Listed(s) && t.orderedIds == s.orderedIds && t.entities.Keys == s.entities.Keys
    ensures Listed(t)
  {
    assert forall id :: id in t.entities <==> id in t.entities.Keys;
    assert forall id :: id in s.entities <==> id in s.entities.Keys;
  }

  lemma PutToolListed(s: TimelineState, e: Envelope, callId: string, name: string, args: Value, status: ToolStatus,
                      approval: Option<Approval>)
    requires Listed(s)
    ensures Listed(PutTool(s, e, callId, name, args, status, approval))
  {
    var t := PutTool(s, e, callId, name, args, status, approval);
    InsertListed(s, ToolId(callId), t.entities[ToolId(callId)]);
  }

  lemma ToolListed(b: Batch, e: Envelope)
    requires Listed(b.state)
    ensures Listed(OnTool(b, e).state)
  {
    match e.event
    case ToolStart(name, callId, args, pending) =>
      PutToolListed(b.state, e, callId, name, args, if pending then Pending else Running, ApprovalOf(b.state, callId));
    case ApprovalRequested(approval) =>
      if approval.Some? {
        var a := approval.value;
        PutToolListed(b.state, e, a.toolCallId, a.toolName, a.approvalArgs, AwaitingApproval, approval);
      }
    case _ =>
      var t := OnTool(b, e).state;
      assert t.entities.Keys == b.state.entities.Keys;
      SameIdsListed(b.state, t);
  }

  lemma StartListed(b: Batch, e: Envelope)
    requires Listed(b.state) && e.event.MessageStart?
    ensures Listed(OnMessageStart(b, e).state)
  {
    if e.event.isAssistant {
      var id := StartedId(b.state, KeyOf(e), e.event.mid);
      var c := if IsRouted(b.state, KeyOf(e), e.event.mid) then ApplyDelta(b, id) else b;
      assert c.state.entities.Keys == b.state.entities.Keys;
      SameIdsListed(b.state, c.state);
      InsertListed(c.state, id, StartedItem(c.state, e, id));
    }
  }

  lemma EndListed(b: Batch, e: Envelope)
    requires Listed(b.state) && e.event.MessageEnd?
    ensures Listed(OnMessageEnd(b, e).state)
  {
    var id := Resolve(b.state, KeyOf(e), e.event.mid);
    if e.event.isAssistant && id.Some? && id.value in b.state.entities && b.state.entities[id.value].Message? {
      var t := OnMessageEnd(b, e).state;
      var content := e.event.content;
      if content.text == "" && content.thinking == "" && content.images == [] {
        RemoveListed(b.state, id.value);
        SameIdsListed(Remove(b.state, id.value), t);
      } else {
        assert t.entities.Keys == b.state.entities.Keys;
        SameIdsListed(b.state, t);
      }
    }
  }

  lemma TurnListed(s: TimelineState, e: Envelope)
    requires Listed(s) && e.event.TurnChanged?
    ensures Listed(OnTurnChanged(s, e))
  {
    var t := OnTurnChanged(s, e);
    if t.entities != s.entities {
      var id := ChangesId(e.event.changedRunId.value);
      InsertListed(s, id, t.entities[id]);
    }
  }

  lemma RunStartListed(s: TimelineState, e: Envelope)
    requires Listed(s) && e.event.RunStarted?
    ensures Listed(OnRunStarted(s, e))
  {
    var t := OnRunStarted(s, e);
    if t.entities != s.entities {
      var id := UserId(KeyOf(e));
      InsertListed(s, id, t.entities[id]);
    }
  }

  lemma CompactionStartListed(s: TimelineState, e: Envelope)
    requires Listed(s) && e.event.CompactionStart?
    ensures Listed(OnCompaction(s, e))
  {
    if s.activeCompaction.None? {
      var id := CompactionId(e.timestamp, s.lastOrder + 1.0);
      InsertListed(s, id, OnCompaction(s, e).entities[id]);
    }
  }

  lemma CompactionEndListed(s: TimelineState, e: Envelope)
    requires Listed(s) && e.event.CompactionEnd?
    ensures Listed(OnCompaction(s, e))
  {
    assert OnCompaction(s, e).entities.Keys == s.entities.Keys;
    SameIdsListed(s, OnCompaction(s, e));
  }

  lemma StepListed(b: Batch, e: Envelope)
    requires Listed(b.state)
    ensures Listed(Step(b, e).state)
  {
    match e.event
    case TurnChanged(_, _) => TurnListed(b.state, e);
    case RunStarted(_) => RunStartListed(b.state, e);
    case RunEnded(_) => SameIdsListed(b.state, OnRunEnded(b, e).state);
    case MessageStart(_, _) => StartListed(b, e);
    case MessageDelta(_, _, _) =>
    case MessageEnd(_, _, _, _, _) => EndListed(b, e);
    case CompactionStart(_) => CompactionStartListed(b.state, e);
    case CompactionEnd(_, _, _, _) => CompactionEndListed(b.state, e);
    case _ => ToolListed(b, e);
  }

  lemma {:induction false} StepsListed(b: Batch, events: seq<Envelope>)
    requires Listed(b.state)
    ensures Listed(Steps(b, events).state)
  {
    if events != [] {
      StepsListed(b, events[..|events| - 1]);
      StepListed(Steps(b, events[..|events| - 1]), events[|events| - 1]);
    }
  }

  /** For any frame whatever, the shown order stays a list of exactly the items there are. */
  lemma ReduceListed(s: TimelineState, events: seq<Envelope>)
    requires Listed(s)
    ensures Listed(Reduce(s, events))
  {
    var b := Steps(Begin(s), events);
    StepsListed(Begin(s), events);
    SameIdsListed(b.state, Flush(b));
  }

  // ---- what a frame keeps collecting ---------------------------------------------------------

  /** Writing an item that is no message and no tool disturbs neither routes nor what is collected. */
  lemma PutOther(b: Batch, t: TimelineState, id: ItemId, item: Item)
    requires Collecting(b) && !id.MessageId? && !id.AssistantId? && !id.ToolId?
    requires t.entities == b.state.entities[id := item] || t.entities == b.state.entities
    requires t.active == b.state.active && t.routes == b.state.routes
             && t.assistantSequence == b.state.assistantSequence
    ensures Collecting(b.(state := t))
  {
  }

  /** Rewriting a tool so that it is active, or is no longer collected for. */
  lemma PutToolItem(b: Batch, c: Batch, id: ItemId, item: Item)
    requires Collecting(b) && id.ToolId? && item.Tool?
    requires c.deltas == b.deltas && c.updates.Keys <= b.updates.Keys
    requires id in c.updates ==> IsActive(item.status)
    requires c.state.entities == b.state.entities[id := item]
    requires c.state.active == b.state.active && c.state.routes == b.state.routes
    requires c.state.assistantSequence == b.state.assistantSequence
    ensures Collecting(c)
  {
  }

  lemma ToolCollecting(b: Batch, e: Envelope)
    requires Collecting(b) && Commutes(b, e)
    requires e.event.ToolStart? || e.event.ToolRunning? || e.event.ToolEnd? || e.event.ApprovalRequested?
             || e.event.ApprovalExpired?
    ensures Collecting(OnTool(b, e))
  {
    match e.event
    case ToolStart(_, callId, _, _) => ToolItemCollecting(b, e, ToolId(callId));
    case ToolRunning(callId) => ToolItemCollecting(b, e, ToolId(callId));
    case ToolEnd(_, callId, _, _, _) => ToolEndCollecting(b, e);
    case ApprovalRequested(a) => if a.Some? { ToolItemCollecting(b, e, ToolId(a.value.toolCallId)); }
    case ApprovalExpired(callId) => ToolItemCollecting(b, e, ToolId(callId));
    case _ =>
  }

  lemma ToolItemCollecting(b: Batch, e: Envelope, id: ItemId)
    requires Collecting(b) && Commutes(b, e) && id.ToolId?
    requires || (e.event.ToolStart? && id == ToolId(e.event.callId))
             || (e.event.ToolRunning? && id == ToolId(e.event.callId))
             || (e.event.ApprovalRequested? && e.event.approval.Some?
                  && id == ToolId(e.event.approval.value.toolCallId))
             || (e.event.ApprovalExpired? && id == ToolId(e.event.callId))
    ensures Collecting(OnTool(b, e))
  {
    var c := OnTool(b, e);
    ReadyFor(b, id);
    if c.state != b.state { PutToolItem(b, c, id, c.state.entities[id]); }
  }

  lemma ToolEndCollecting(b: Batch, e: Envelope)
    requires Collecting(b) && e.event.ToolEnd?
    ensures Collecting(OnTool(b, e))
  {
    var c, id := OnTool(b, e), ToolId(e.event.callId);
    ReadyFor(b, id);
    if c.state != b.state { PutToolItem(b, c, id, c.state.entities[id]); }
  }

  lemma UpdateCollecting(b: Batch, e: Envelope)
    requires Collecting(b) && e.event.ToolUpdate?
    ensures Collecting(OnTool(b, e))
  {
  }

  lemma DeltaCollecting(b: Batch, e: Envelope)
    requires Collecting(b) && e.event.MessageDelta?
    ensures Collecting(OnMessageDelta(b, e))
  {
    var id := Resolve(b.state, KeyOf(e), e.event.mid);
    if e.event.delta != "" && id.Some? {
      ResolvedIsMessage(b.state, KeyOf(e), e.event.mid);
      var d := if id.value in b.deltas then b.deltas[id.value] else Delta("", "");
      assert |d.text + e.event.delta| > 0 && |d.thinking + e.event.delta| > 0;
    }
  }

  lemma StartCollecting(b: Batch, e: Envelope)
    requires Collecting(b) && Commutes(b, e) && e.event.MessageStart?
    ensures Collecting(OnMessageStart(b, e))
  {
    if e.event.isAssistant {
      var id := StartedId(b.state, KeyOf(e), e.event.mid);
      var item := StartedItem(b.state, e, id);
      ReadyToStart(b, KeyOf(e), e.event.mid);
      StartWrites(b, e, id, item);
      StartKeeps(b, OnMessageStart(b, e), e, id, item);
    }
  }

  lemma StartKeeps(b: Batch, c: Batch, e: Envelope, id: ItemId, item: Item)
    requires Collecting(b) && e.event.MessageStart? && item.Message? && id == StartedId(b.state, KeyOf(e), e.event.mid)
    requires c.state == Started(b.state, e, id, item) && c.updates == b.updates && c.deltas.Keys <= b.deltas.Keys
    requires forall x :: x in c.deltas ==> c.deltas[x] == b.deltas[x]
    ensures Collecting(c)
  {
  }

  lemma EndCollecting(b: Batch, e: Envelope)
    requires Collecting(b) && e.event.MessageEnd?
    ensures Collecting(OnMessageEnd(b, e))
  {
    var id := Resolve(b.state, KeyOf(e), e.event.mid);
    if e.event.isAssistant && id.Some? {
      ResolvedIsMessage(b.state, KeyOf(e), e.event.mid);
      EndShape(b, e, id.value);
      EndKeeps(b, OnMessageEnd(b, e), e, id.value);
    }
  }

  lemma EndKeeps(b: Batch, c: Batch, e: Envelope, x: ItemId)
    requires Collecting(b) && e.event.MessageEnd? && Resolve(b.state, KeyOf(e), e.event.mid) == Some(x)
    requires c.deltas == b.deltas - {x} && (c.updates == b.updates || c.updates == b.updates - {x})
    requires c.state.routes == RoutesElsewhere(b.state.routes, x)
    requires c.state.active == if KeyOf(e) in b.state.active && b.state.active[KeyOf(e)] == x
                               then b.state.active - {KeyOf(e)} else b.state.active
    requires c.state.assistantSequence == b.state.assistantSequence
    requires || c.state.entities == b.state.entities - {x}
             || (x in c.state.entities && c.state.entities[x].Message?
                 && c.state.entities == b.state.entities[x := c.state.entities[x]])
    ensures Collecting(c)
  {
    ResolvedIsMessage(b.state, KeyOf(e), e.event.mid);
    EndKeepsRoutes(b.state, c.state, e, x);
  }

  lemma EndKeepsRoutes(s: TimelineState, t: TimelineState, e: Envelope, x: ItemId)
    requires Routed(s) && e.event.MessageEnd? && Resolve(s, KeyOf(e), e.event.mid) == Some(x)
    requires x in s.entities && s.entities[x].Message?
    requires t.routes == RoutesElsewhere(s.routes, x) && t.assistantSequence == s.assistantSequence
    requires t.active == if KeyOf(e) in s.active && s.active[KeyOf(e)] == x then s.active - {KeyOf(e)} else s.active
    requires || t.entities == s.entities - {x}
             || (x in t.entities && t.entities[x].Message? && t.entities == s.entities[x := t.entities[x]])
    ensures Routed(t)
  {
    forall key | key in t.active ensures t.active[key] in t.entities && OwnMessage(t, key, t.active[key]) {
      EndKeepsActive(s, t, e, x, key);
    }
  }

  /** Another run's active message is another message, and keeps its route. */
  lemma EndKeepsActive(s: TimelineState, t: TimelineState, e: Envelope, x: ItemId, key: RunKey)
    requires Routed(s) && e.event.MessageEnd? && Resolve(s, KeyOf(e), e.event.mid) == Some(x)
    requires t.routes == RoutesElsewhere(s.routes, x) && s.entities.Keys - {x} <= t.entities.Keys
    requires t.active == if KeyOf(e) in s.active && s.active[KeyOf(e)] == x then s.active - {KeyOf(e)} else s.active
    requires key in t.active
    ensures t.active[key] in t.entities && OwnMessage(t, key, t.active[key])
  {
    assert key in s.active && s.active[key] == t.active[key] != x;
  }

  lemma RunEndCollecting(b: Batch, e: Envelope)
    requires Collecting(b) && e.event.RunEnded?
    ensures Collecting(OnRunEnded(b, e))
  {
  }

  /** Every event that collecting does not disturb keeps the frame in order. */
  lemma StepCollecting(b: Batch, e: Envelope)
    requires Collecting(b) && Commutes(b, e)
    ensures Collecting(Step(b, e))
  {
    match e.event
    case TurnChanged(run, _) =>
      var id := ChangesId(if run.Some? then run.value else "");
      var t := OnTurnChanged(b.state, e);
      PutOther(b, t, id, if id in t.entities then t.entities[id] else Changes(0.0, None, None, 0, ""));
    case RunStarted(_) =>
      var id := UserId(KeyOf(e));
      var t := OnRunStarted(b.state, e);
      PutOther(b, t, id, if id in t.entities then t.entities[id] else Changes(0.0, None, None, 0, ""));
    case RunEnded(_) => RunEndCollecting(b, e);
    case MessageStart(_, _) => StartCollecting(b, e);
    case MessageDelta(_, _, _) => DeltaCollecting(b, e);
    case MessageEnd(_, _, _, _, _) => EndCollecting(b, e);
    case CompactionStart(_) =>
      var id := CompactionId(e.timestamp, b.state.lastOrder + 1.0);
      var t := OnCompaction(b.state, e);
      PutOther(b, t, id, if id in t.entities then t.entities[id] else Changes(0.0, None, None, 0, ""));
    case CompactionEnd(_, _, _, _) => CompactionCollecting(b, e);
    case ToolUpdate(_, _, _) => UpdateCollecting(b, e);
    case Unknown =>
    case _ => ToolCollecting(b, e);
  }

  lemma CompactionCollecting(b: Batch, e: Envelope)
    requires Collecting(b) && e.event.CompactionEnd?
    ensures Collecting(b.(state := OnCompaction(b.state, e)))
  {
  }

  lemma FlushRouted(b: Batch)
    requires Collecting(b)
    ensures Collecting(Begin(Flush(b)))
  {
  }

  // ---- frames --------------------------------------------------------------------------------

  /** No event of the frame meets anything collected that it would disturb. */
  ghost predicate Undisturbed(s: TimelineState, events: seq<Envelope>) {
    forall i :: 0 <= i < |events| ==> Commutes(Steps(Begin(s), events[..i]), events[i])
  }

  lemma {:induction false} FrameIsExact(s: TimelineState, events: seq<Envelope>)
    requires Collecting(Begin(s)) && Undisturbed(s, events)
    ensures Collecting(Steps(Begin(s), events))
    ensures Reduce(s, events) == ReduceEach(s, events)
  {
    if events == [] {
      FlushNothing(s);
    } else {
      var n := |events| - 1;
      assert Undisturbed(s, events[..n]) by {
        forall i | 0 <= i < n
          ensures Commutes(Steps(Begin(s), events[..n][..i]), events[..n][i])
        {
          assert events[..n][..i] == events[..i];
        }
      }
      FrameIsExact(s, events[..n]);
      var b := Steps(Begin(s), events[..n]);
      assert Commutes(b, events[n]);
      StepCollecting(b, events[n]);
      BatchedStepIsExact(b, events[n]);
      SingleIsReduce(Flush(b), events[n]);
    }
  }

  function ReduceFrames(s: TimelineState, frames: seq<seq<Envelope>>): TimelineState {
    if frames == [] then s else Reduce(ReduceFrames(s, frames[..|frames| - 1]), frames[|frames| - 1])
  }

  function Concat(frames: seq<seq<Envelope>>): seq<Envelope> {
    if frames == [] then [] else Concat(frames[..|frames| - 1]) + frames[|frames| - 1]
  }

  lemma {:induction false} EachConcat(s: TimelineState, a: seq<Envelope>, b: seq<Envelope>)
    ensures ReduceEach(s, a + b) == ReduceEach(ReduceEach(s, a), b)
  {
    if b == [] {
      assert a + b == a;
    } else {
      var n := |b| - 1;
      assert (a + b)[..|a + b| - 1] == a + b[..n] && (a + b)[|a + b| - 1] == b[n];
      EachConcat(s, a, b[..n]);
    }
  }

  // ---- protocol order ------------------------------------------------------------------------

  /** Who a tool call belongs to: its session and run. */
  type Owner = string -> (Option<string>, Option<string>)

  predicate Updates(e: Envelope, callId: string) {
    e.event.ToolUpdate? && e.event.callId == callId && callId != "" && e.event.toolName != HIDDEN_TOOL
  }

  predicate Ends(e: Envelope, callId: string) {
    e.event.ToolEnd? && e.event.callId == callId && callId != "" && e.event.toolName != HIDDEN_TOOL
  }

  predicate Opens(e: Envelope, callId: string) {
    || (e.event.ToolStart? && e.event.callId == callId && callId != "" && e.event.toolName != HIDDEN_TOOL)
    || (e.event.ApprovalRequested? && e.event.approval.Some? && e.event.approval.value.toolCallId == callId)
  }

  /** A start, an approval request, an approval expiry or a run end for the tool. */
  predicate Disturbs(e: Envelope, callId: string, owner: Owner) {
    || Opens(e, callId)
    || (e.event.ApprovalExpired? && e.event.callId == callId)
    || (e.event.RunEnded? && (e.sessionId, e.runId) == owner(callId))
  }

  /** Tools are opened by their owner; after a tool's partial update nothing disturbs it before its
      end; no message of a run starts after that run has ended. */
  ghost predicate Protocol(owner: Owner, events: seq<Envelope>) {
    && (forall i, callId :: 0 <= i < |events| && Opens(events[i], callId) ==>
          (events[i].sessionId, events[i].runId) == owner(callId))
    && (forall i, j, callId ::
          0 <= i < j < |events| && Updates(events[i], callId) && Disturbs(events[j], callId, owner) ==>
          exists k :: i < k < j && Ends(events[k], callId))
    && (forall i, j :: 0 <= i < j < |events| && events[i].event.RunEnded? && events[j].event.MessageStart? ==>
          KeyOf(events[i]) != KeyOf(events[j]))
  }

  /** Active tools belong to their owner. */
  ghost predicate Owned(owner: Owner, s: TimelineState) {
    forall callId :: ToolId(callId) in s.entities && s.entities[ToolId(callId)].Tool?
                     && IsActive(s.entities[ToolId(callId)].status) ==>
      (s.entities[ToolId(callId)].session, s.entities[ToolId(callId)].run) == owner(callId)
  }

  /** Whatever is collected has its cause in the frame: an update not yet followed by an end, a delta
      whose message is still routed unless its run has ended. */
  ghost predicate Justified(b: Batch, events: seq<Envelope>) {
    && (forall callId :: ToolId(callId) in b.updates ==>
          exists i :: 0 <= i < |events| && Updates(events[i], callId)
                      && forall k :: i < k < |events| ==> !Ends(events[k], callId))
    && (forall key, mid :: MessageId(key, mid) in b.deltas ==>
          || (key, mid) in b.state.routes
          || exists i :: 0 <= i < |events| && events[i].event.RunEnded? && KeyOf(events[i]) == key)
  }

  /** In a frame of a protocol-ordered stream the next event is not disturbed. */
  lemma ProtocolCommutes(owner: Owner, b: Batch, events: seq<Envelope>, e: Envelope)
    requires Protocol(owner, events + [e]) && Justified(b, events) && Owned(owner, b.state) && Collecting(b)
    ensures Commutes(b, e)
  {
    var all, n := events + [e], |events|;
    assert all[n] == e && forall k :: 0 <= k < n ==> all[k] == events[k];
    forall callId | ToolId(callId) in b.updates
      ensures !Disturbs(e, callId, owner)
    {
      var i :| 0 <= i < n && Updates(events[i], callId) && forall k :: i < k < n ==> !Ends(events[k], callId);
      assert Updates(all[i], callId) && forall k :: i < k < n ==> !Ends(all[k], callId);
    }
    forall i | 0 <= i < n && events[i].event.RunEnded? && e.event.MessageStart?
      ensures KeyOf(events[i]) != KeyOf(e)
    {
      assert all[i] == events[i];
    }
    forall id | id in b.updates && id in b.state.entities && e.event.RunEnded?
      ensures !OfRun(b.state.entities[id], e)
    {
      assert id == ToolId(id.callId) && !Disturbs(e, id.callId, owner);
    }
  }

  lemma JustifiedLater(b: Batch, events: seq<Envelope>, e: Envelope, callId: string)
    requires Justified(b, events) && ToolId(callId) in b.updates && !Ends(e, callId)
    ensures exists i :: 0 <= i < |events + [e]| && Updates((events + [e])[i], callId)
                        && forall k :: i < k < |events + [e]| ==> !Ends((events + [e])[k], callId)
  {
    var all := events + [e];
    assert all[|events|] == e && forall k :: 0 <= k < |events| ==> all[k] == events[k];
    var i :| 0 <= i < |events| && Updates(events[i], callId) && forall k :: i < k < |events| ==>
      !Ends(events[k], callId);
    assert Updates(all[i], callId) && forall k :: i < k < |all| ==> !Ends(all[k], callId);
  }

  /** How one event may change what is collected. */
  ghost predicate Collects(b: Batch, c: Batch, e: Envelope) {
    && (forall callId :: ToolId(callId) in c.updates ==>
          (ToolId(callId) in b.updates && !Ends(e, callId)) || Updates(e, callId))
    && (forall key, mid :: MessageId(key, mid) in c.deltas ==>
          MessageId(key, mid) in b.deltas || (key, mid) in c.state.routes)
    && (forall key, mid :: (key, mid) in b.state.routes && MessageId(key, mid) in c.deltas ==>
          (key, mid) in c.state.routes || (e.event.RunEnded? && KeyOf(e) == key))
  }

  lemma StartCollects(b: Batch, e: Envelope)
    requires Collecting(b) && e.event.MessageStart?
    ensures Collects(b, OnMessageStart(b, e), e)
  {
    if e.event.isAssistant {
      ReadyToStart(b, KeyOf(e), e.event.mid);
      var id := StartedId(b.state, KeyOf(e), e.event.mid);
      StartWrites(b, e, id, StartedItem(b.state, e, id));
    }
  }

  lemma EndCollects(b: Batch, e: Envelope)
    requires Collecting(b) && e.event.MessageEnd?
    ensures Collects(b, OnMessageEnd(b, e), e)
  {
    var id := Resolve(b.state, KeyOf(e), e.event.mid);
    if e.event.isAssistant && id.Some? {
      ResolvedIsMessage(b.state, KeyOf(e), e.event.mid);
      EndShape(b, e, id.value);
    }
  }

  lemma DeltaCollects(b: Batch, e: Envelope)
    requires Collecting(b) && e.event.MessageDelta?
    ensures Collects(b, OnMessageDelta(b, e), e)
  {
  }

  lemma ToolCollects(b: Batch, e: Envelope)
    ensures !e.event.RunEnded? ==> Collects(b, OnTool(b, e), e)
  {
  }

  lemma StepCollects(b: Batch, e: Envelope)
    requires Collecting(b)
    ensures Collects(b, Step(b, e), e)
  {
    match e.event
    case TurnChanged(_, _) => TurnCollects(b, e);
    case RunStarted(_) => RunStartCollects(b, e);
    case RunEnded(_) => RunEndCollects(b, e);
    case MessageStart(_, _) => StartCollects(b, e);
    case MessageDelta(_, _, _) => DeltaCollects(b, e);
    case MessageEnd(_, _, _, _, _) => EndCollects(b, e);
    case CompactionStart(_) => CompactionCollects(b, e);
    case CompactionEnd(_, _, _, _) => CompactionCollects(b, e);
    case _ => ToolCollects(b, e);
  }

  lemma TurnCollects(b: Batch, e: Envelope)
    requires e.event.TurnChanged?
    ensures Collects(b, b.(state := OnTurnChanged(b.state, e)), e)
  {
    RoutesCollect(b, b.(state := OnTurnChanged(b.state, e)), e);
  }

  lemma RunStartCollects(b: Batch, e: Envelope)
    requires e.event.RunStarted?
    ensures Collects(b, b.(state := OnRunStarted(b.state, e)), e)
  {
    RoutesCollect(b, b.(state := OnRunStarted(b.state, e)), e);
  }

  lemma CompactionCollects(b: Batch, e: Envelope)
    requires e.event.CompactionStart? || e.event.CompactionEnd?
    ensures Collects(b, b.(state := OnCompaction(b.state, e)), e)
  {
    RoutesCollect(b, b.(state := OnCompaction(b.state, e)), e);
  }

  /** Where neither routes nor what is collected changes. */
  lemma RoutesCollect(b: Batch, c: Batch, e: Envelope)
    requires c.deltas == b.deltas && c.updates == b.updates && c.state.routes == b.state.routes && !e.event.ToolEnd?
    ensures Collects(b, c, e)
  {
  }

  lemma RunEndCollects(b: Batch, e: Envelope)
    requires e.event.RunEnded?
    ensures Collects(b, OnRunEnded(b, e), e)
  {
  }

  lemma JustifiedStep(b: Batch, events: seq<Envelope>, e: Envelope)
    requires Justified(b, events) && Collecting(b)
    ensures Justified(Step(b, e), events + [e])
  {
    var c, all := Step(b, e), events + [e];
    assert all[|events|] == e && forall k :: 0 <= k < |events| ==> all[k] == events[k];
    StepCollects(b, e);
    forall callId | ToolId(callId) in c.updates
      ensures exists i :: 0 <= i < |all| && Updates(all[i], callId) && forall k :: i < k < |all| ==>
                !Ends(all[k], callId)
    {
      if Updates(e, callId) {
        assert Updates(all[|events|], callId);
      } else {
        JustifiedLater(b, events, e, callId);
      }
    }
    forall key, mid | MessageId(key, mid) in c.deltas
      ensures (key, mid) in c.state.routes
              || exists i :: 0 <= i < |all| && all[i].event.RunEnded? && KeyOf(all[i]) == key
    {
      if (key, mid) !in c.state.routes {
        if (key, mid) in b.state.routes {
          assert all[|events|].event.RunEnded? && KeyOf(all[|events|]) == key;
        } else {
          var i :| 0 <= i < |events| && events[i].event.RunEnded? && KeyOf(events[i]) == key;
          assert all[i].event.RunEnded? && KeyOf(all[i]) == key;
        }
      }
    }
  }

  /** A tool becomes active only by being opened, under the session and run of that event. */
  ghost predicate Activates(b: Batch, c: Batch, e: Envelope, callId: string) {
    var id := ToolId(callId);
    id in c.state.entities && c.state.entities[id].Tool? && IsActive(c.state.entities[id].status) ==>
      || (Opens(e, callId) && c.state.entities[id].session == e.sessionId && c.state.entities[id].run == e.runId)
      || (id in b.state.entities && b.state.entities[id].Tool? && IsActive(b.state.entities[id].status)
          && c.state.entities[id].session == b.state.entities[id].session
          && c.state.entities[id].run == b.state.entities[id].run)
  }

  lemma SameToolActivates(b: Batch, c: Batch, e: Envelope, callId: string)
    requires ToolReady(b, ToolId(callId))
    requires ToolId(callId) in c.state.entities ==>
               ToolId(callId) in b.state.entities
                 && c.state.entities[ToolId(callId)] == b.state.entities[ToolId(callId)]
    ensures Activates(b, c, e, callId)
  {
  }

  lemma PutToolActivates(b: Batch, e: Envelope, callId: string, target: string, name: string, args: Value,
                         status: ToolStatus, approval: Option<Approval>)
    requires ToolReady(b, ToolId(callId)) && Opens(e, target)
    ensures Activates(b, b.(state := PutTool(b.state, e, target, name, args, status, approval)), e, callId)
  {
  }

  lemma RewriteActivates(b: Batch, c: Batch, e: Envelope, callId: string, id: ItemId)
    requires ToolReady(b, ToolId(callId)) && id in b.state.entities && b.state.entities[id].Tool?
    requires id in c.state.entities && c.state.entities == b.state.entities[id := c.state.entities[id]]
    requires c.state.entities[id].Tool? && c.state.entities[id].session == b.state.entities[id].session
    requires c.state.entities[id].run == b.state.entities[id].run
    requires IsActive(c.state.entities[id].status) ==> IsActive(b.state.entities[id].status)
    ensures Activates(b, c, e, callId)
  {
  }

  lemma ToolActivates(b: Batch, e: Envelope, callId: string)
    requires ToolReady(b, ToolId(callId))
    ensures Activates(b, OnTool(b, e), e, callId)
  {
    var c := OnTool(b, e);
    match e.event
    case ToolStart(name, target, args, pending) =>
      if name != HIDDEN_TOOL && target != "" {
        PutToolActivates(b, e, callId, target, name, args, if pending then Pending else Running,
            ApprovalOf(b.state, target));
      } else {
        SameToolActivates(b, c, e, callId);
      }
    case ApprovalRequested(approval) =>
      if approval.Some? {
        var a := approval.value;
        PutToolActivates(b, e, callId, a.toolCallId, a.toolName, a.approvalArgs, AwaitingApproval, approval);
      } else {
        SameToolActivates(b, c, e, callId);
      }
    case ToolRunning(other) => RewrittenActivates(b, e, callId, ToolId(other));
    case ToolEnd(_, other, _, _, _) => RewrittenActivates(b, e, callId, ToolId(other));
    case ApprovalExpired(other) => RewrittenActivates(b, e, callId, ToolId(other));
    case _ => SameToolActivates(b, c, e, callId);
  }

  lemma RewrittenActivates(b: Batch, e: Envelope, callId: string, id: ItemId)
    requires ToolReady(b, ToolId(callId))
    requires match e.event
             case ToolRunning(other) => id == ToolId(other)
             case ToolEnd(_, other, _, _, _) => id == ToolId(other)
             case ApprovalExpired(other) => id == ToolId(other)
             case _ => false
    ensures Activates(b, OnTool(b, e), e, callId)
  {
    var c := OnTool(b, e);
    if c.state == b.state {
      SameToolActivates(b, c, e, callId);
    } else {
      RewriteActivates(b, c, e, callId, id);
    }
  }

  lemma StartActivates(b: Batch, e: Envelope, callId: string)
    requires Collecting(b) && e.event.MessageStart? && ToolReady(b, ToolId(callId))
    ensures Activates(b, OnMessageStart(b, e), e, callId)
  {
    if e.event.isAssistant {
      ReadyToStart(b, KeyOf(e), e.event.mid);
      StartedIsMessage(b, KeyOf(e), e.event.mid);
      var x := StartedId(b.state, KeyOf(e), e.event.mid);
      StartWrites(b, e, x, StartedItem(b.state, e, x));
    }
    SameToolActivates(b, OnMessageStart(b, e), e, callId);
  }

  lemma StartedIsMessage(b: Batch, key: RunKey, mid: Option<string>)
    requires Collecting(b)
    ensures !StartedId(b.state, key, mid).ToolId?
  {
  }

  lemma EndActivates(b: Batch, e: Envelope, callId: string)
    requires Collecting(b) && e.event.MessageEnd? && ToolReady(b, ToolId(callId))
    ensures Activates(b, OnMessageEnd(b, e), e, callId)
  {
    var x := Resolve(b.state, KeyOf(e), e.event.mid);
    if e.event.isAssistant && x.Some? {
      ResolvedIsMessage(b.state, KeyOf(e), e.event.mid);
      EndShape(b, e, x.value);
    }
    SameToolActivates(b, OnMessageEnd(b, e), e, callId);
  }

  lemma StepActivates(b: Batch, e: Envelope, callId: string)
    requires Collecting(b)
    ensures Activates(b, Step(b, e), e, callId)
  {
    ReadyFor(b, ToolId(callId));
    match e.event
    case TurnChanged(_, _) => OtherActivates(b, e, callId);
    case RunStarted(_) => OtherActivates(b, e, callId);
    case RunEnded(_) => OtherActivates(b, e, callId);
    case MessageStart(_, _) => StartActivates(b, e, callId);
    case MessageDelta(_, _, _) => OtherActivates(b, e, callId);
    case MessageEnd(_, _, _, _, _) => EndActivates(b, e, callId);
    case CompactionStart(_) => OtherActivates(b, e, callId);
    case CompactionEnd(_, _, _, _) => OtherActivates(b, e, callId);
    case _ => ToolActivates(b, e, callId);
  }

  lemma OtherActivates(b: Batch, e: Envelope, callId: string)
    requires ToolReady(b, ToolId(callId)) && !e.event.MessageStart? && !e.event.MessageEnd?
    requires Step(b, e) != OnTool(b, e) || OnTool(b, e) == b
    ensures Activates(b, Step(b, e), e, callId)
  {
    if !e.event.RunEnded? {
      SameToolActivates(b, Step(b, e), e, callId);
    }
  }

  lemma OwnedStep(owner: Owner, b: Batch, e: Envelope)
    requires Collecting(b) && Owned(owner, b.state)
    requires forall callId :: Opens(e, callId) ==> (e.sessionId, e.runId) == owner(callId)
    ensures Owned(owner, Step(b, e).state)
  {
    forall callId | ToolId(callId) in Step(b, e).state.entities && Step(b, e).state.entities[ToolId(callId)].Tool?
                    && IsActive(Step(b, e).state.entities[ToolId(callId)].status)
      ensures (Step(b, e).state.entities[ToolId(callId)].session, Step(b, e).state.entities[ToolId(callId)].run)
              == owner(callId)
    {
      StepActivates(b, e, callId);
    }
  }

  lemma FlushOwned(owner: Owner, b: Batch)
    requires Collecting(b) && Owned(owner, b.state)
    ensures Owned(owner, Flush(b))
  {
    forall callId | ToolId(callId) in b.state.entities
      ensures Flush(b).entities[ToolId(callId)].Tool? && IsActive(Flush(b).entities[ToolId(callId)].status) ==>
                IsActive(b.state.entities[ToolId(callId)].status)
      ensures Flush(b).entities[ToolId(callId)].session == b.state.entities[ToolId(callId)].session
              && Flush(b).entities[ToolId(callId)].run == b.state.entities[ToolId(callId)].run
    {
      ReadyFor(b, ToolId(callId));
      Flushed(b, ToolId(callId));
    }
  }

  lemma ProtocolPart(owner: Owner, all: seq<Envelope>, lo: nat, hi: nat)
    requires lo <= hi <= |all| && Protocol(owner, all)
    ensures Protocol(owner, all[lo..hi])
  {
    var events := all[lo..hi];
    forall i, j, callId | 0 <= i < j < |events| && Updates(events[i], callId) && Disturbs(events[j], callId, owner)
      ensures exists k :: i < k < j && Ends(events[k], callId)
    {
      var k := EndBetween(owner, all, lo + i, lo + j, callId);
      assert Ends(events[k - lo], callId);
    }
    forall i, callId | 0 <= i < |events| && Opens(events[i], callId)
      ensures (events[i].sessionId, events[i].runId) == owner(callId)
    {
      assert Opens(all[lo + i], callId);
    }
    forall i, j | 0 <= i < j < |events| && events[i].event.RunEnded? && events[j].event.MessageStart?
      ensures KeyOf(events[i]) != KeyOf(events[j])
    {
      assert all[lo + i] == events[i] && all[lo + j] == events[j];
    }
  }

  lemma EndBetween(owner: Owner, all: seq<Envelope>, i: nat, j: nat, callId: string) returns (k: nat)
    requires Protocol(owner, all) && i < j < |all| && Updates(all[i], callId) && Disturbs(all[j], callId, owner)
    ensures i < k < j && Ends(all[k], callId)
  {
    k :| i < k < j && Ends(all[k], callId);
  }

  lemma UndisturbedSnoc(s: TimelineState, events: seq<Envelope>)
    requires events != [] && Undisturbed(s, events[..|events| - 1])
    requires Commutes(Steps(Begin(s), events[..|events| - 1]), events[|events| - 1])
    ensures Undisturbed(s, events)
  {
    var n := |events| - 1;
    forall i | 0 <= i < |events|
      ensures Commutes(Steps(Begin(s), events[..i]), events[i])
    {
      if i < n {
        assert events[..n][..i] == events[..i] && events[..n][i] == events[i];
      }
    }
  }

  /** A frame of a protocol-ordered stream is never disturbed. */
  lemma {:induction false} ProtocolFrame(owner: Owner, s: TimelineState, events: seq<Envelope>)
    requires Protocol(owner, events) && Collecting(Begin(s)) && Owned(owner, s)
    ensures Undisturbed(s, events)
    ensures var b := Steps(Begin(s), events); Justified(b, events) && Collecting(b) && Owned(owner, b.state)
  {
    if events != [] {
      var n := |events| - 1;
      ProtocolPart(owner, events, 0, n);
      assert events[0..n] == events[..n] && events == events[..n] + [events[n]];
      ProtocolFrame(owner, s, events[..n]);
      ProtocolStep(owner, Steps(Begin(s), events[..n]), events[..n], events[n]);
      UndisturbedSnoc(s, events);
    }
  }

  lemma ProtocolStep(owner: Owner, b: Batch, events: seq<Envelope>, e: Envelope)
    requires Protocol(owner, events + [e]) && Justified(b, events) && Owned(owner, b.state) && Collecting(b)
    ensures Commutes(b, e)
    ensures Justified(Step(b, e), events + [e]) && Collecting(Step(b, e)) && Owned(owner, Step(b, e).state)
  {
    ProtocolCommutes(owner, b, events, e);
    StepCollecting(b, e);
    JustifiedStep(b, events, e);
    assert (events + [e])[|events|] == e;
    OwnedStep(owner, b, e);
  }

  /** Any cut of a protocol-ordered stream into frames gives the timeline of its events one by one. */
  lemma {:induction false} FramesAreExact(owner: Owner, s: TimelineState, frames: seq<seq<Envelope>>)
    requires Protocol(owner, Concat(frames)) && Collecting(Begin(s)) && Owned(owner, s)
    ensures ReduceFrames(s, frames) == ReduceEach(s, Concat(frames))
    ensures Collecting(Begin(ReduceFrames(s, frames))) && Owned(owner, ReduceFrames(s, frames))
  {
    if frames != [] {
      var n := |frames| - 1;
      var before, frame := Concat(frames[..n]), frames[n];
      var all := Concat(frames);
      assert all == before + frame && all[0..|before|] == before && all[|before|..|all|] == frame;
      ProtocolPart(owner, all, 0, |before|);
      ProtocolPart(owner, all, |before|, |all|);
      FramesAreExact(owner, s, frames[..n]);
      var t := ReduceFrames(s, frames[..n]);
      ProtocolFrame(owner, t, frame);
      FrameIsExact(t, frame);
      EachConcat(s, before, frame);
      FlushRouted(Steps(Begin(t), frame));
      FlushOwned(owner, Steps(Begin(t), frame));
    }
  }

  // ---- ended runs ----------------------------------------------------------------------------

  /** No tool of the session's run is active. */
  ghost predicate Quiescent(s: TimelineState, session: Option<string>, run: Option<string>) {
    forall callId :: ToolId(callId) in s.entities && s.entities[ToolId(callId)].Tool?
                     && s.entities[ToolId(callId)].session == session && s.entities[ToolId(callId)].run == run ==>
      !IsActive(s.entities[ToolId(callId)].status)
  }

  lemma RunEndQuiesces(s: TimelineState, e: Envelope)
    requires Collecting(Begin(s)) && e.event.RunEnded?
    ensures Quiescent(Single(s, e), e.sessionId, e.runId)
  {
    NothingCollected(OnRunEnded(Begin(s), e));
  }

  lemma QuiescentStep(s: TimelineState, e: Envelope, session: Option<string>, run: Option<string>)
    requires Collecting(Begin(s)) && Quiescent(s, session, run)
    requires forall callId :: Opens(e, callId) ==> (e.sessionId, e.runId) != (session, run)
    ensures Quiescent(Single(s, e), session, run)
  {
    var b := Step(Begin(s), e);
    forall callId | ToolId(callId) in b.state.entities
      ensures var item := Flush(b).entities[ToolId(callId)];
              item.Tool? && item.session == session && item.run == run ==> !IsActive(item.status)
    {
      StepActivates(Begin(s), e, callId);
      Flushed(b, ToolId(callId));
      ReadyFor(Begin(s), ToolId(callId));
      StepCollecting(Begin(s), e);
      ReadyFor(b, ToolId(callId));
    }
  }

  lemma {:induction false} StaysQuiet(t: TimelineState, later: seq<Envelope>, session: Option<string>,
                                      run: Option<string>)
    requires Collecting(Begin(t)) && Quiescent(t, session, run)
    requires forall i, callId :: 0 <= i < |later| && Opens(later[i], callId) ==>
               (later[i].sessionId, later[i].runId) != (session, run)
    ensures Quiescent(ReduceEach(t, later), session, run) && Collecting(Begin(ReduceEach(t, later)))
  {
    if later != [] {
      var n := |later| - 1;
      StaysQuiet(t, later[..n], session, run);
      var u := ReduceEach(t, later[..n]);
      SingleIsReduce(u, later[n]);
      QuiescentStep(u, later[n], session, run);
      StepCollecting(Begin(u), later[n]);
      FlushRouted(Step(Begin(u), later[n]));
    }
  }

  /** After a run has ended none of its tools is active again unless an event opens one for it. */
  lemma EndedRunStaysQuiet(s: TimelineState, e: Envelope, later: seq<Envelope>)
    requires Collecting(Begin(s)) && e.event.RunEnded?
    requires forall i, callId :: 0 <= i < |later| && Opens(later[i], callId) ==>
               (later[i].sessionId, later[i].runId) != (e.sessionId, e.runId)
    ensures Quiescent(ReduceEach(Reduce(s, [e]), later), e.sessionId, e.runId)
  {
    SingleIsReduce(s, e);
    assert Quiescent(Single(s, e), e.sessionId, e.runId) by {
      RunEndQuiesces(s, e);
    }
    assert Collecting(Begin(Single(s, e))) by {
      StepCollecting(Begin(s), e);
      FlushRouted(Step(Begin(s), e));
    }
    StaysQuiet(Single(s, e), later, e.sessionId, e.runId);
  }

  // ---- the order shown -----------------------------------------------------------------------

  /** Items are numbered up to lastOrder, and every item added live, that is with a number above
      `base`, is numbered higher than all items shown before it. */
  ghost predicate Ordered(s: TimelineState, base: real) {
    && base <= s.lastOrder
    && (forall id :: id in s.entities ==>
          s.entities[id].order <= s.lastOrder && (id.CompactionId? ==> s.entities[id].order == id.atOrder))
    && (forall i, j :: 0 <= i < j < |s.orderedIds| && s.orderedIds[i] in s.entities && s.orderedIds[j] in s.entities ==>
          || s.entities[s.orderedIds[i]].order < s.entities[s.orderedIds[j]].order
          || s.entities[s.orderedIds[j]].order <= base)
  }

  /** Writing one item: a new one gets the next number and the last place, an old one keeps both. */
  lemma PutOrdered(s: TimelineState, t: TimelineState, id: ItemId, item: Item, base: real)
    requires Listed(s) && Ordered(s, base) && t.entities == s.entities[id := item]
    requires if id in s.entities
             then t.orderedIds == s.orderedIds && t.lastOrder == s.lastOrder && item.order == s.entities[id].order
             else t.orderedIds == s.orderedIds + [id] && item.order == t.lastOrder == s.lastOrder + 1.0
    requires id.CompactionId? ==> item.order == id.atOrder
    ensures Ordered(t, base)
  {
    if id in s.entities {
      assert forall x :: x in s.entities ==> t.entities[x].order == s.entities[x].order;
    } else {
      assert id !in s.orderedIds;
    }
  }

  /** The order depends on the items' numbers only. */
  lemma SameOrders(s: TimelineState, t: TimelineState, base: real)
    requires Ordered(s, base) && t.orderedIds == s.orderedIds && t.lastOrder == s.lastOrder
    requires t.entities.Keys == s.entities.Keys && forall id :: id in s.entities ==>
               t.entities[id].order == s.entities[id].order
    ensures Ordered(t, base)
  {
    assert forall id :: id in t.entities <==> id in t.entities.Keys;
  }

  lemma {:induction false} WithoutKeepsOrder(ids: seq<ItemId>, id: ItemId, i: nat, j: nat) returns (p: nat, q: nat)
    requires i < j < |Without(ids, id)|
    ensures p < q < |ids| && ids[p] == Without(ids, id)[i] && ids[q] == Without(ids, id)[j]
    ensures |Without(ids, id)| <= |ids|
  {
    var n := |ids| - 1;
    var rest := Without(ids[..n], id);
    if j < |rest| {
      p, q := WithoutKeepsOrder(ids[..n], id, i, j);
    } else {
      p := WithoutIndex(ids[..n], id, i);
      q := n;
    }
    WithoutShorter(ids, id);
  }

  lemma {:induction false} WithoutShorter(ids: seq<ItemId>, id: ItemId)
    ensures |Without(ids, id)| <= |ids|
  {
    if ids != [] {
      WithoutShorter(ids[..|ids| - 1], id);
    }
  }

  lemma {:induction false} WithoutIndex(ids: seq<ItemId>, id: ItemId, i: nat) returns (p: nat)
    requires i < |Without(ids, id)|
    ensures p < |ids| && ids[p] == Without(ids, id)[i]
  {
    var n := |ids| - 1;
    if i < |Without(ids[..n], id)| {
      p := WithoutIndex(ids[..n], id, i);
    } else {
      p := n;
    }
  }

  lemma RemoveOrdered(s: TimelineState, id: ItemId, base: real)
    requires Listed(s) && Ordered(s, base)
    ensures Ordered(Remove(s, id), base)
  {
    var t := Remove(s, id);
    if id in s.entities {
      forall i, j | 0 <= i < j < |t.orderedIds| && t.orderedIds[i] in t.entities && t.orderedIds[j] in t.entities
        ensures t.entities[t.orderedIds[i]].order < t.entities[t.orderedIds[j]].order
                || t.entities[t.orderedIds[j]].order <= base
      {
        var p, q := WithoutKeepsOrder(s.orderedIds, id, i, j);
        assert s.orderedIds[p] in s.entities && s.orderedIds[q] in s.entities;
      }
    }
  }

  /** A state in good order, with what is collected for it. */
  ghost predicate InOrder(b: Batch, base: real) {
    Listed(b.state) && Ordered(b.state, base) && Routed(b.state)
  }

  lemma PutToolOrdered(s: TimelineState, e: Envelope, callId: string, name: string, args: Value, status: ToolStatus,
                       approval: Option<Approval>, base: real)
    requires Listed(s) && Ordered(s, base) && (ToolId(callId) in s.entities ==> s.entities[ToolId(callId)].Tool?)
    ensures Ordered(PutTool(s, e, callId, name, args, status, approval), base)
  {
    var t := PutTool(s, e, callId, name, args, status, approval);
    PutOrdered(s, t, ToolId(callId), t.entities[ToolId(callId)], base);
  }

  lemma ToolOrdered(b: Batch, e: Envelope, base: real)
    requires InOrder(b, base)
    ensures Ordered(OnTool(b, e).state, base)
  {
    match e.event
    case ToolStart(name, callId, args, pending) =>
      PutToolOrdered(b.state, e, callId, name, args, if pending then Pending else Running, ApprovalOf(b.state, callId),
          base);
    case ApprovalRequested(approval) =>
      if approval.Some? {
        var a := approval.value;
        PutToolOrdered(b.state, e, a.toolCallId, a.toolName, a.approvalArgs, AwaitingApproval, approval, base);
      }
    case _ => ToolRewriteOrdered(b, e, base);
  }

  lemma ToolRewriteOrdered(b: Batch, e: Envelope, base: real)
    requires Listed(b.state) && Ordered(b.state, base) && !e.event.ToolStart? && !e.event.ApprovalRequested?
    ensures Ordered(OnTool(b, e).state, base)
  {
    match e.event
    case ToolRunning(callId) => RewriteOrdered(b.state, OnTool(b, e).state, ToolId(callId), base);
    case ToolEnd(_, callId, _, _, _) => ToolEndOrdered(b, e, base);
    case ApprovalExpired(callId) => RewriteOrdered(b.state, OnTool(b, e).state, ToolId(callId), base);
    case _ =>
  }

  lemma ToolEndOrdered(b: Batch, e: Envelope, base: real)
    requires Listed(b.state) && Ordered(b.state, base) && e.event.ToolEnd?
    ensures Ordered(OnTool(b, e).state, base)
  {
    RewriteOrdered(b.state, OnTool(b, e).state, ToolId(e.event.callId), base);
  }

  lemma RewriteOrdered(s: TimelineState, t: TimelineState, id: ItemId, base: real)
    requires Listed(s) && Ordered(s, base) && t.orderedIds == s.orderedIds && t.lastOrder == s.lastOrder
    requires t.entities != s.entities ==>
               id in s.entities && id in t.entities && t.entities[id].order == s.entities[id].order
               && t.entities == s.entities[id := t.entities[id]]
    ensures Ordered(t, base)
  {
    if t.entities != s.entities { PutOrdered(s, t, id, t.entities[id], base); }
  }

  lemma StartOrdered(b: Batch, e: Envelope, base: real)
    requires InOrder(b, base) && e.event.MessageStart?
    ensures Ordered(OnMessageStart(b, e).state, base)
  {
    if e.event.isAssistant {
      var id := StartedId(b.state, KeyOf(e), e.event.mid);
      var c := if IsRouted(b.state, KeyOf(e), e.event.mid) then ApplyDelta(b, id) else b;
      SameOrders(b.state, c.state, base);
      SameIdsListed(b.state, c.state);
      PutOrdered(c.state, Started(c.state, e, id, StartedItem(c.state, e, id)), id, StartedItem(c.state, e, id), base);
    }
  }

  lemma EndOrdered(b: Batch, e: Envelope, base: real)
    requires InOrder(b, base) && e.event.MessageEnd?
    ensures Ordered(OnMessageEnd(b, e).state, base)
  {
    var id := Resolve(b.state, KeyOf(e), e.event.mid);
    if e.event.isAssistant && id.Some? {
      ResolvedIsMessage(b.state, KeyOf(e), e.event.mid);
      var t := OnMessageEnd(b, e).state;
      EndShape(b, e, id.value);
      var content := e.event.content;
      if content.text == "" && content.thinking == "" && content.images == [] {
        RemoveOrdered(b.state, id.value, base);
        SameOrders(Remove(b.state, id.value), t, base);
      } else {
        SameOrders(b.state, t, base);
      }
    }
  }

  lemma TurnOrdered(s: TimelineState, e: Envelope, base: real)
    requires Listed(s) && Ordered(s, base) && e.event.TurnChanged?
    ensures Ordered(OnTurnChanged(s, e), base)
  {
    var t := OnTurnChanged(s, e);
    if t.entities != s.entities {
      var id := ChangesId(e.event.changedRunId.value);
      PutOrdered(s, t, id, t.entities[id], base);
    }
  }

  lemma RunStartOrdered(s: TimelineState, e: Envelope, base: real)
    requires Listed(s) && Ordered(s, base) && e.event.RunStarted?
    ensures Ordered(OnRunStarted(s, e), base)
  {
    var id, t := UserId(KeyOf(e)), OnRunStarted(s, e);
    if t.entities == s.entities {
      SameOrders(s, t, base);
    } else {
      PutOrdered(s, t, id, t.entities[id], base);
    }
  }

  lemma CompactionStartOrdered(s: TimelineState, e: Envelope, base: real)
    requires Listed(s) && Ordered(s, base) && e.event.CompactionStart?
    ensures Ordered(OnCompaction(s, e), base)
  {
    var id, t := CompactionId(e.timestamp, s.lastOrder + 1.0), OnCompaction(s, e);
    if s.activeCompaction.None? {
      assert id !in s.entities;
      PutOrdered(s, t, id, t.entities[id], base);
    }
  }

  lemma CompactionEndOrdered(s: TimelineState, e: Envelope, base: real)
    requires Ordered(s, base) && e.event.CompactionEnd?
    ensures Ordered(OnCompaction(s, e), base)
  {
    var t := OnCompaction(s, e);
    assert t.entities.Keys == s.entities.Keys;
    SameOrders(s, t, base);
  }

  lemma StepOrdered(b: Batch, e: Envelope, base: real)
    requires InOrder(b, base)
    ensures Ordered(Step(b, e).state, base)
  {
    match e.event
    case TurnChanged(_, _) => TurnOrdered(b.state, e, base);
    case RunStarted(_) => RunStartOrdered(b.state, e, base);
    case RunEnded(_) => SameOrders(b.state, OnRunEnded(b, e).state, base);
    case MessageStart(_, _) => StartOrdered(b, e, base);
    case MessageDelta(_, _, _) =>
    case MessageEnd(_, _, _, _, _) => EndOrdered(b, e, base);
    case CompactionStart(_) => CompactionStartOrdered(b.state, e, base);
    case CompactionEnd(_, _, _, _) => CompactionEndOrdered(b.state, e, base);
    case _ => ToolOrdered(b, e, base);
  }

  /** In every timeline reached from one in good order, the list shown has each item once and live
      items in rising order. */
  lemma {:induction false} StreamKeepsOrder(s: TimelineState, events: seq<Envelope>, base: real)
    requires Listed(s) && Ordered(s, base) && Collecting(Begin(s))
    ensures var t := ReduceEach(s, events); Listed(t) && Ordered(t, base) && Collecting(Begin(t))
  {
    if events != [] {
      var n := |events| - 1;
      StreamKeepsOrder(s, events[..n], base);
      var t := ReduceEach(s, events[..n]);
      var b := Step(Begin(t), events[n]);
      SingleIsReduce(t, events[n]);
      StepListed(Begin(t), events[n]);
      StepOrdered(Begin(t), events[n], base);
      StepCollecting(Begin(t), events[n]);
      FlushRouted(b);
      SameIdsListed(b.state, Flush(b));
      SameOrders(b.state, Flush(b), base);
    }
  }

  // ---- any frames ----------------------------------------------------------------------------

  /** What a frame collects does not show in the state it is collected beside. */
  lemma StepStateAlone(b: Batch, e: Envelope)
    ensures Step(b, e).state == Step(Begin(b.state), e).state
  {
    match e.event
    case MessageStart(_, _) => StartStateAlone(b, e);
    case RunEnded(_) =>
    case MessageEnd(_, _, _, _, _) =>
    case MessageDelta(_, _, _) =>
    case ToolEnd(_, _, _, _, _) =>
    case _ =>
  }

  /** A message that starts again is written anew, whatever delta was applied to it just before. */
  lemma StartStateAlone(b: Batch, e: Envelope)
    requires e.event.MessageStart?
    ensures OnMessageStart(b, e).state == OnMessageStart(Begin(b.state), e).state
  {
    if e.event.isAssistant {
      var s, id := b.state, StartedId(b.state, KeyOf(e), e.event.mid);
      var c := if IsRouted(s, KeyOf(e), e.event.mid) then ApplyDelta(b, id) else b;
      var item := StartedItem(s, e, id);
      assert StartedItem(c.state, e, id) == item;
      assert c.state.entities[id := item] == s.entities[id := item];
      assert Started(c.state, e, id, item) == Started(s, e, id, item);
    }
  }

  lemma StepInOrder(b: Batch, e: Envelope, base: real)
    requires InOrder(b, base)
    ensures InOrder(Step(b, e), base)
  {
    StepListed(b, e);
    StepOrdered(b, e, base);
    StepCollecting(Begin(b.state), e);
    StepStateAlone(b, e);
  }

  lemma {:induction false} StepsInOrder(b: Batch, events: seq<Envelope>, base: real)
    requires InOrder(b, base)
    ensures InOrder(Steps(b, events), base)
  {
    if events != [] {
      StepsInOrder(b, events[..|events| - 1], base);
      StepInOrder(Steps(b, events[..|events| - 1]), events[|events| - 1], base);
    }
  }

  lemma FlushInOrder(b: Batch, base: real)
    requires InOrder(b, base)
    ensures InOrder(Begin(Flush(b)), base)
  {
    SameIdsListed(b.state, Flush(b));
    SameOrders(b.state, Flush(b), base);
    FlushKeepsRoutes(b);
  }

  lemma FlushKeepsRoutes(b: Batch)
    requires Routed(b.state)
    ensures Routed(Flush(b))
  {
  }

  /** In every timeline reached by reducing frames of any events, in or out of protocol order, the list
      shown has each item once and is the list of the items there are, and live items come in rising
      order. */
  lemma {:induction false} FramesKeepOrder(s: TimelineState, frames: seq<seq<Envelope>>, base: real)
    requires Listed(s) && Ordered(s, base) && Routed(s)
    ensures var t := ReduceFrames(s, frames); Listed(t) && Ordered(t, base) && Routed(t)
  {
    if frames != [] {
      var t := ReduceFrames(s, frames[..|frames| - 1]);
      FramesKeepOrder(s, frames[..|frames| - 1], base);
      StepsInOrder(Begin(t), frames[|frames| - 1], base);
      FlushInOrder(Steps(Begin(t), frames[|frames| - 1]), base);
    }
  }

  lemma {:induction false} EachCollecting(s: TimelineState, events: seq<Envelope>)
    requires Collecting(Begin(s))
    ensures Collecting(Begin(ReduceEach(s, events)))
  {
    if events != [] {
      var n := |events| - 1;
      EachCollecting(s, events[..n]);
      var t := ReduceEach(s, events[..n]);
      SingleIsReduce(t, events[n]);
      StepCollecting(Begin(t), events[n]);
      FlushRouted(Step(Begin(t), events[n]));
    }
  }

  lemma EachSplit(s: TimelineState, events: seq<Envelope>, i: nat)
    requires i < |events|
    ensures ReduceEach(s, events) == ReduceEach(Reduce(ReduceEach(s, events[..i]), [events[i]]), events[i + 1..])
  {
    assert events == events[..i + 1] + events[i + 1..];
    EachConcat(s, events[..i + 1], events[i + 1..]);
    assert events[..i + 1][..i] == events[..i];
  }

  /** However a protocol-ordered stream is cut into frames, a run that has ended in it has no active tool
      at its end, unless a later event opens one for it. */
  lemma EndedRunStaysQuietInFrames(owner: Owner, s: TimelineState, frames: seq<seq<Envelope>>, i: nat)
    requires Collecting(Begin(s)) && Owned(owner, s) && Protocol(owner, Concat(frames))
    requires i < |Concat(frames)| && Concat(frames)[i].event.RunEnded?
    requires forall k, callId :: i < k < |Concat(frames)| && Opens(Concat(frames)[k], callId) ==>
               (Concat(frames)[k].sessionId, Concat(frames)[k].runId) != (Concat(frames)[i].sessionId,
                   Concat(frames)[i].runId)
    ensures Quiescent(ReduceFrames(s, frames), Concat(frames)[i].sessionId, Concat(frames)[i].runId)
  {
    var events := Concat(frames);
    FramesAreExact(owner, s, frames);
    EachSplit(s, events, i);
    EachCollecting(s, events[..i]);
    EndedRunStaysQuiet(ReduceEach(s, events[..i]), events[i], events[i + 1..]);
  }

  // ---- where streams begin -------------------------------------------------------------------

  predicate IsPersisted(id: ItemId, item: Item) {
    && (id.ToolId? ==> item.Tool? && !IsActive(item.status))
    && (id.PersistedId? || id.ToolId? || id.ChangesId?)
  }

  /** The ids in the order in which they first appear. */
  function FirstSeen(items: seq<(ItemId, Item)>): (ids: seq<ItemId>)
    ensures forall id :: id in ids <==> exists k :: 0 <= k < |items| && items[k].0 == id
  {
    if items == [] then []
    else
      var front, id := FirstSeen(items[..|items| - 1]), items[|items| - 1].0;
      if id in front then front else front + [id]
  }

  predicate IsAssistant(item: Item) { item.Message? && item.role.Assistant? }

  function Assistants(items: seq<(ItemId, Item)>): nat {
    if items == [] then 0
    else Assistants(items[..|items| - 1]) + if IsAssistant(items[|items| - 1].1) then 1 else 0
  }

  /** One stored item after the others. */
  function Store(s: TimelineState, id: ItemId, item: Item): TimelineState {
    Insert(s, id, item).(lastOrder := if s.lastOrder < item.order then item.order else s.lastOrder,
                         assistantSequence := if IsAssistant(item) then s.assistantSequence + 1
                           else s.assistantSequence)
  }

  const EMPTY := TimelineState(map[], [], map[], map[], None, 0.0, 0, false, None)

  function Stored(items: seq<(ItemId, Item)>): TimelineState {
    if items == [] then EMPTY
    else Store(Stored(items[..|items| - 1]), items[|items| - 1].0, items[|items| - 1].1)
  }

  predicate AllPersisted(items: seq<(ItemId, Item)>) {
    forall k :: 0 <= k < |items| ==> IsPersisted(items[k].0, items[k].1)
  }

  ghost predicate Quiet(s: TimelineState) {
    && s.active == map[] && s.routes == map[] && s.activeCompaction == None && !s.running && s.lastError == None
    && (forall id :: id in s.entities ==> IsPersisted(id, s.entities[id]) && s.entities[id].order <= s.lastOrder)
  }

  lemma {:induction false} StoredIsQuiet(items: seq<(ItemId, Item)>)
    ensures Listed(Stored(items)) && (AllPersisted(items) ==> Quiet(Stored(items)))
  {
    if items != [] {
      var n := |items| - 1;
      StoredIsQuiet(items[..n]);
      InsertListed(Stored(items[..n]), items[n].0, items[n].1);
      if AllPersisted(items) { assert Quiet(Stored(items)); }
    }
  }

  lemma QuietStarts(s: TimelineState)
    requires Quiet(s) && Listed(s)
    ensures Ordered(s, s.lastOrder) && Collecting(Begin(s))
    ensures forall owner: Owner :: Owned(owner, s)
  {
  }

  /** Items come in the order in which their ids first appear, the last of two with the same id winning;
      the numbers go on behind the highest. */
  lemma {:induction false} StoredIs(items: seq<(ItemId, Item)>)
    ensures Stored(items).orderedIds == FirstSeen(items) && Stored(items).assistantSequence == Assistants(items)
    ensures Stored(items).entities.Keys == set id | id in FirstSeen(items)
  {
    if items != [] {
      StoredIs(items[..|items| - 1]);
    }
  }

  lemma {:induction false} LastWins(items: seq<(ItemId, Item)>, k: nat)
    requires k < |items| && forall m :: k < m < |items| ==> items[m].0 != items[k].0
    ensures items[k].0 in Stored(items).entities && Stored(items).entities[items[k].0] == items[k].1
    ensures items[k].1.order <= Stored(items).lastOrder
  {
    if k < |items| - 1 { LastWins(items[..|items| - 1], k); }
  }

  /** createTimelineState */
  method CreateTimelineState(items: seq<(ItemId, Item)>) returns (s: TimelineState)
    ensures s == Stored(items) && Listed(s)
    ensures s.orderedIds == FirstSeen(items) && s.assistantSequence == Assistants(items)
    ensures AllPersisted(items) ==>
              Ordered(s, s.lastOrder) && Collecting(Begin(s)) && forall owner: Owner :: Owned(owner, s)
  {
    s := EMPTY;
    for i := 0 to |items|
      invariant s == Stored(items[..i])
    {
      assert items[..i + 1][..i] == items[..i];
      var (id, item) := items[i];
      s := Store(s, id, item);
    }
    assert items[..|items|] == items;
    StoredIs(items);
    StoredIsQuiet(items);
    if AllPersisted(items) { QuietStarts(s); }
  }

  // ---- a frame out of protocol order -----------------------------------------------------------

  lemma TwoEvents(s: TimelineState, d: Envelope, e: Envelope)
    ensures Reduce(s, [d, e]) == Flush(Step(Step(Begin(s), d), e))
    ensures ReduceEach(s, [d, e]) == Single(Single(s, d), e)
  {
    assert [d, e][..1] == [d] && [d][..0] == [];
    assert Steps(Begin(s), [d]) == Step(Begin(s), d);
    SingleIsReduce(s, d);
    SingleIsReduce(Single(s, d), e);
    assert ReduceEach(s, [d]) == Single(s, d);
  }

  /** An approval request that meets a collected update of its tool is lost behind it; on its own it
      would be what the tool waits for. */
  lemma CollectedUpdateWins(b: Batch, e: Envelope)
    requires e.event.ApprovalRequested? && e.event.approval.Some?
             && ToolId(e.event.approval.value.toolCallId) in b.updates
    ensures var id := ToolId(e.event.approval.value.toolCallId);
            && id in Flush(Step(b, e)).entities && Flush(Step(b, e)).entities[id].Tool?
               && Flush(Step(b, e)).entities[id].status == Running
            && id in Single(Flush(b), e).entities && Single(Flush(b), e).entities[id].Tool?
            && Single(Flush(b), e).entities[id].status == AwaitingApproval
  {
    NothingCollected(Step(Begin(Flush(b)), e));
  }

  /** A running tool gets a partial result and then, before its end, an approval request: the frame
      differs from its events one by one. */
  lemma UpdateThenApprovalDiffers()
    ensures
      var id, tool := ToolId("t"), Tool(1.0, None, None, 0, "t", "bash", Null, Undefined, Running, None);
      var s := TimelineState(map[id := tool], [id], map[], map[], None, 1.0, 0, false, None);
      var update := Envelope(ToolUpdate("bash", "t", Json("partial")), None, None, 1);
      var request := Envelope(ApprovalRequested(Some(Approval("a", "t", "bash", Null))), None, None, 2);
      Reduce(s, [update, request]) != ReduceEach(s, [update, request])
  {
    var id, tool := ToolId("t"), Tool(1.0, None, None, 0, "t", "bash", Null, Undefined, Running, None);
    var s := TimelineState(map[id := tool], [id], map[], map[], None, 1.0, 0, false, None);
    var update := Envelope(ToolUpdate("bash", "t", Json("partial")), None, None, 1);
    var request := Envelope(ApprovalRequested(Some(Approval("a", "t", "bash", Null))), None, None, 2);
    TwoEvents(s, update, request);
    CollectedUpdateWins(Step(Begin(s), update), request);
  }
}
