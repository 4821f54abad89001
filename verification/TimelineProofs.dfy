/** Batching is exact: when a frame reduced in one pass gives what its events give one at a time. */
module TimelineProofs {
  import opened Options
  import opened Timeline

  ghost predicate NoDuplicates(ids: seq<ItemId>) {
    forall i, j :: 0 <= i < j < |ids| ==> ids[i] != ids[j]
  }

  /** The order shown is a list of exactly the items there are. */
  ghost predicate Listed(s: TimelineState) {
    && NoDuplicates(s.orderedIds)
    && (forall id :: id in s.orderedIds <==> id in s.entities)
  }

  ghost predicate OwnMessage(s: TimelineState, key: RunKey, id: ItemId) {
    (id.AssistantId? && id.run == key) || (id.MessageId? && id.run == key && (key, id.messageId) in s.routes)
  }

  /** Routes and active messages lead to messages that exist, under the id their key determines. */
  ghost predicate Routed(s: TimelineState) {
    && (forall p :: p in s.routes ==> s.routes[p] == MessageId(p.0, p.1) && s.routes[p] in s.entities)
    && (forall key :: key in s.active ==>
          && s.active[key] in s.entities
          && OwnMessage(s, key, s.active[key]))
    && (forall id :: id in s.entities && id.AssistantId? ==> id.number <= s.assistantSequence)
    && (forall id :: id in s.entities && (id.MessageId? || id.AssistantId?) ==> s.entities[id].Message?)
    && (forall id :: id in s.entities && id.ToolId? ==> s.entities[id].Tool?)
  }

  /** What a frame in progress keeps: it collects deltas for messages and updates for active tools. */
  ghost predicate Collecting(b: Batch) {
    && Routed(b.state)
    && (forall id :: id in b.deltas ==>
          id in b.state.entities && (id.MessageId? || id.AssistantId?) && b.deltas[id] != Delta("", ""))
    && (forall id :: id in b.updates ==>
          id in b.state.entities && id.ToolId? && b.state.entities[id].Tool? && IsActive(b.state.entities[id].status))
  }

  function Single(s: TimelineState, e: Envelope): TimelineState {
    Flush(Step(Begin(s), e))
  }

  lemma SingleIsReduce(s: TimelineState, e: Envelope)
    ensures Reduce(s, [e]) == Single(s, e)
  {
    assert [e][..0] == [];
    assert Steps(Begin(s), []) == Begin(s);
  }

  /** When collecting does not interfere with an event: a pending start or an approval must not meet
      a collected update of the same tool, a run's end must not meet one it would have kept, and a
      message must not start over while deltas are collected for it under a forgotten route. */
  ghost predicate Commutes(b: Batch, e: Envelope) {
    match e.event
    case ToolStart(name, callId, _, pending) =>
      name == HIDDEN_TOOL || callId == "" || !pending || ToolId(callId) !in b.updates
    case ApprovalRequested(approval) => approval.None? || ToolId(approval.value.toolCallId) !in b.updates
    case ApprovalExpired(callId) => callId == "" || ToolId(callId) !in b.updates
    case RunEnded(_) =>
      forall id :: id in b.updates && id in b.state.entities && OfRun(b.state.entities[id], e) ==>
        OrElse(b.state.entities[id].result, NO_OUTCOME) == OrElse(b.updates[id], NO_OUTCOME)
    case MessageStart(isAssistant, mid) =>
      !isAssistant || mid.None? || IsRouted(b.state, KeyOf(e), mid) || MessageId(KeyOf(e), mid.value) !in b.deltas
    case _ => true
  }

  /** What a frame in progress has collected for a tool. */
  ghost predicate ToolReady(b: Batch, id: ItemId) {
    && id !in b.deltas
    && (id in b.state.entities ==> b.state.entities[id].Tool?)
    && (id in b.updates ==> id in b.state.entities && IsActive(b.state.entities[id].status))
  }

  /** What it has collected for a message. */
  ghost predicate MessageReady(b: Batch, id: ItemId) {
    && id !in b.updates
    && (id in b.state.entities ==> b.state.entities[id].Message?)
    && (id in b.deltas ==> id in b.state.entities && b.deltas[id] != Delta("", ""))
  }

  /** Nothing is collected for anything else. */
  ghost predicate OtherReady(b: Batch, id: ItemId) {
    id !in b.deltas && id !in b.updates
  }

  lemma ReadyFor(b: Batch, id: ItemId)
    requires Collecting(b)
    ensures id.ToolId? ==> ToolReady(b, id)
    ensures id.MessageId? || id.AssistantId? ==> MessageReady(b, id)
    ensures !id.ToolId? && !id.MessageId? && !id.AssistantId? ==> OtherReady(b, id)
  {
  }

  lemma ReadyToResolve(b: Batch, key: RunKey, mid: Option<string>)
    requires Collecting(b)
    ensures var id := Resolve(b.state, key, mid);
            id.Some? ==> id.value in b.state.entities && MessageReady(b, id.value)
  {
    ResolvedIsMessage(b.state, key, mid);
  }

  lemma ReadyToStart(b: Batch, key: RunKey, mid: Option<string>)
    requires Collecting(b)
    ensures var id := StartedId(b.state, key, mid);
            && MessageReady(b, id)
            && (mid.None? ==> id !in b.deltas)
            && (mid.Some? && (key, mid.value) !in b.state.routes ==> id == MessageId(key, mid.value))
  {
  }

  // ---- how a flush meets a change ------------------------------------------------------------

  lemma FlushNothing(s: TimelineState)
    ensures Flush(Begin(s)) == s
  {
    assert Flush(Begin(s)).entities == s.entities;
  }

  /** A state that differs from the batch's in one item flushes to the flushed batch with that item. */
  lemma FlushPut(b: Batch, t: TimelineState, id: ItemId, item: Item)
    requires t.entities == b.state.entities[id := item]
    ensures Flush(b.(state := t)) == t.(entities := Flush(b).entities[id := FlushItem(b.deltas, b.updates, id, item)])
  {
    assert Flush(b.(state := t)).entities == Flush(b).entities[id := FlushItem(b.deltas, b.updates, id, item)];
  }

  lemma FlushSame(b: Batch, t: TimelineState)
    requires t.entities == b.state.entities
    ensures Flush(b.(state := t)) == t.(entities := Flush(b).entities)
  {
  }

  /** Forgetting what is collected for an item changes the flush of that item only. */
  lemma FlushForget(b: Batch, c: Batch, id: ItemId, item: Item)
    requires c.deltas == b.deltas || c.deltas == b.deltas - {id}
    requires c.updates == b.updates || c.updates == b.updates - {id}
    requires c.state.entities == b.state.entities[id := item]
    ensures Flush(c) == c.state.(entities := Flush(b).entities[id := FlushItem(c.deltas, c.updates, id, item)])
  {
    assert Flush(c).entities == Flush(b).entities[id := FlushItem(c.deltas, c.updates, id, item)];
  }

  lemma FlushRemove(b: Batch, c: Batch, id: ItemId)
    requires c.deltas == b.deltas - {id} && (c.updates == b.updates || c.updates == b.updates - {id})
    requires c.state.entities == b.state.entities - {id}
    ensures Flush(c) == c.state.(entities := Flush(b).entities - {id})
  {
    assert Flush(c).entities == Flush(b).entities - {id};
  }

  lemma FlushDelta(b: Batch, id: ItemId, d: Delta)
    requires id in b.state.entities && id !in b.updates
    ensures Flush(b.(deltas := b.deltas[id := d]))
         == b.state.(entities := Flush(b).entities[id := WithDelta(b.state.entities[id], d)])
  {
    assert Flush(b.(deltas := b.deltas[id := d])).entities
           == Flush(b).entities[id := WithDelta(b.state.entities[id], d)];
  }

  lemma FlushUpdate(b: Batch, id: ItemId, v: Value)
    requires id in b.state.entities && id !in b.deltas
    ensures Flush(b.(updates := b.updates[id := v]))
         == b.state.(entities := Flush(b).entities[id := WithUpdate(b.state.entities[id], v)])
  {
    assert Flush(b.(updates := b.updates[id := v])).entities
           == Flush(b).entities[id := WithUpdate(b.state.entities[id], v)];
  }

  /** The item that a flushed batch shows. */
  lemma Flushed(b: Batch, id: ItemId)
    ensures id in Flush(b).entities <==> id in b.state.entities
    ensures id in b.state.entities ==> Flush(b).entities[id] == FlushItem(b.deltas, b.updates, id, b.state.entities[id])
  {
  }

  // ---- events that write one new item --------------------------------------------------------

  lemma CommuteTurnChanged(b: Batch, e: Envelope)
    requires e.event.TurnChanged?
             && (e.event.changedRunId.Some? ==> OtherReady(b, ChangesId(e.event.changedRunId.value)))
    ensures Flush(Step(b, e)) == Single(Flush(b), e)
  {
    var f, t := Flush(b), OnTurnChanged(b.state, e);
    var u := OnTurnChanged(f, e);
    FlushNothing(u);
    if t == b.state {
      FlushSame(b, t);
    } else {
      var id := ChangesId(e.event.changedRunId.value);
      FlushPut(b, t, id, t.entities[id]);
    }
  }

  lemma CommuteRunStarted(b: Batch, e: Envelope)
    requires e.event.RunStarted? && OtherReady(b, UserId(KeyOf(e)))
    ensures Flush(Step(b, e)) == Single(Flush(b), e)
  {
    FlushNothing(OnRunStarted(Flush(b), e));
    Flushed(b, UserId(KeyOf(e)));
    RunStartedInBatch(b, e);
  }

  lemma RunStartedInBatch(b: Batch, e: Envelope)
    requires e.event.RunStarted? && OtherReady(b, UserId(KeyOf(e)))
    ensures Flush(b.(state := OnRunStarted(b.state, e))) == OnRunStarted(Flush(b), e)
  {
    var id, t := UserId(KeyOf(e)), OnRunStarted(b.state, e);
    Flushed(b, id);
    if t.entities == b.state.entities {
      FlushSame(b, t);
    } else {
      FlushPut(b, t, id, t.entities[id]);
    }
  }

  lemma CommuteCompactionStart(b: Batch, e: Envelope)
    requires e.event.CompactionStart? && OtherReady(b, CompactionId(e.timestamp, b.state.lastOrder + 1.0))
    ensures Flush(Step(b, e)) == Single(Flush(b), e)
  {
    var f, t := Flush(b), OnCompaction(b.state, e);
    FlushNothing(OnCompaction(f, e));
    var id := CompactionId(e.timestamp, b.state.lastOrder + 1.0);
    Flushed(b, id);
    if b.state.activeCompaction.Some? {
      FlushSame(b, t);
    } else {
      FlushPut(b, t, id, t.entities[id]);
    }
  }

  lemma CommuteCompactionEnd(b: Batch, e: Envelope)
    requires e.event.CompactionEnd?
    ensures Flush(Step(b, e)) == Single(Flush(b), e)
  {
    var f, t := Flush(b), OnCompaction(b.state, e);
    FlushNothing(OnCompaction(f, e));
    if b.state.activeCompaction.Some? {
      var id := b.state.activeCompaction.value;
      Flushed(b, id);
      if id in b.state.entities && b.state.entities[id].Compaction? {
        assert Flush(b).entities[id] == b.state.entities[id];
        CompactionEnds(b, e, id);
      } else {
        FlushSame(b, t);
      }
    } else {
      FlushSame(b, t);
    }
  }

  lemma CompactionEnds(b: Batch, e: Envelope, id: ItemId)
    requires e.event.CompactionEnd? && b.state.activeCompaction == Some(id)
    requires id in b.state.entities && b.state.entities[id].Compaction?
    requires id in Flush(b).entities && Flush(b).entities[id] == b.state.entities[id]
    ensures Flush(b.(state := OnCompaction(b.state, e))) == OnCompaction(Flush(b), e)
  {
    var t := OnCompaction(b.state, e);
    FlushPut(b, t, id, t.entities[id]);
  }

  // ---- messages ------------------------------------------------------------------------------

  lemma ConcatDelta(a: string, d: string, more: string)
    ensures a + (d + more) == a + d + more && a + "" == a && a + d + "" == a + d && "" + more == more
  {
  }

  lemma CommuteDelta(b: Batch, e: Envelope)
    requires e.event.MessageDelta?
    requires var id := Resolve(b.state, KeyOf(e), e.event.mid);
             id.Some? ==> id.value in b.state.entities && MessageReady(b, id.value)
    ensures Flush(Step(b, e)) == Single(Flush(b), e)
  {
    var id := Resolve(b.state, KeyOf(e), e.event.mid);
    if e.event.delta != "" && id.Some? {
      DeltaInBatch(b, e, id.value);
      DeltaAlone(b, e, id.value);
    } else {
      FlushNothing(Flush(b));
    }
  }

  lemma DeltaInBatch(b: Batch, e: Envelope, x: ItemId)
    requires e.event.MessageDelta? && e.event.delta != "" && Resolve(b.state, KeyOf(e), e.event.mid) == Some(x)
    requires x in b.state.entities && MessageReady(b, x)
    ensures Flush(OnMessageDelta(b, e))
         == b.state.(entities :=
             Flush(b).entities[x := WithDelta(Flush(b).entities[x], AddDelta(Delta("", ""), e.event))])
  {
    var d := if x in b.deltas then b.deltas[x] else Delta("", "");
    Flushed(b, x);
    FlushDelta(b, x, AddDelta(d, e.event));
    DeltasAdd(b.state.entities[x], d, e.event);
  }

  lemma DeltaAlone(b: Batch, e: Envelope, x: ItemId)
    requires e.event.MessageDelta? && e.event.delta != "" && Resolve(b.state, KeyOf(e), e.event.mid) == Some(x)
    requires x in b.state.entities
    ensures Single(Flush(b), e)
         == b.state.(entities :=
             Flush(b).entities[x := WithDelta(Flush(b).entities[x], AddDelta(Delta("", ""), e.event))])
  {
    var f := Flush(b);
    FlushNothing(f);
    FlushDelta(Begin(f), x, AddDelta(Delta("", ""), e.event));
  }

  function AddDelta(d: Delta, e: Event): Delta
    requires e.MessageDelta?
  {
    if e.kind.TextDelta? then d.(text := d.text + e.delta) else d.(thinking := d.thinking + e.delta)
  }

  lemma DeltasAdd(item: Item, d: Delta, e: Event)
    requires e.MessageDelta?
    ensures WithDelta(item, AddDelta(d, e)) == WithDelta(WithDelta(item, d), AddDelta(Delta("", ""), e))
    ensures WithDelta(item, Delta("", "")) == item
  {
    if item.Message? {
      ConcatDelta(item.text, d.text, e.delta);
      ConcatDelta(item.thinking, d.thinking, e.delta);
    }
  }

  lemma ResolvedIsMessage(s: TimelineState, key: RunKey, mid: Option<string>)
    requires Routed(s)
    ensures var id := Resolve(s, key, mid);
            id.Some? ==>
              id.value in s.entities && (id.value.MessageId? || id.value.AssistantId?) && s.entities[id.value].Message?
  {
  }

  lemma CommuteMessageEnd(b: Batch, e: Envelope)
    requires e.event.MessageEnd?
    requires var id := Resolve(b.state, KeyOf(e), e.event.mid);
             id.Some? ==> id.value in b.state.entities && MessageReady(b, id.value)
    ensures Flush(Step(b, e)) == Single(Flush(b), e)
  {
    var f := Flush(b);
    FlushNothing(f);
    var id := Resolve(b.state, KeyOf(e), e.event.mid);
    if e.event.isAssistant && id.Some? {
      Flushed(b, id.value);
      var content := e.event.content;
      if content.text == "" && content.thinking == "" && content.images == [] {
        EndRemoves(b, e, id.value);
      } else {
        EndSnapshots(b, e, id.value);
      }
    }
  }

  /** The state after a message end, but for the items. */
  function Ended(s: TimelineState, e: Envelope, x: ItemId): TimelineState
    requires e.event.MessageEnd?
  {
    var u := ClearMessage(s, KeyOf(e), x);
    if e.event.error.Some? then u.(lastError := e.event.error) else u
  }

  lemma EndShape(b: Batch, e: Envelope, x: ItemId)
    requires e.event.MessageEnd? && e.event.isAssistant && Resolve(b.state, KeyOf(e), e.event.mid) == Some(x)
    requires x in b.state.entities && b.state.entities[x].Message?
    ensures var c := OnMessageEnd(b, e);
            var empty := e.event.content.text == "" && e.event.content.thinking == "" && e.event.content.images == [];
            && c.deltas == b.deltas - {x} && c.updates == (if empty then b.updates - {x} else b.updates)
            && c.state == Ended(b.state, e, x).(
                 orderedIds := if empty then Without(b.state.orderedIds, x) else b.state.orderedIds,
                 entities := if empty then b.state.entities - {x}
                             else b.state.entities[x := Snapshot(b.state.entities[x], e.event)])
  {
  }

  lemma EndOnItsOwn(f: TimelineState, e: Envelope, x: ItemId)
    requires e.event.MessageEnd? && e.event.isAssistant && Resolve(f, KeyOf(e), e.event.mid) == Some(x)
    requires x in f.entities && f.entities[x].Message?
    ensures var empty := e.event.content.text == "" && e.event.content.thinking == "" && e.event.content.images == [];
            Single(f, e) == Ended(f, e, x).(
              orderedIds := if empty then Without(f.orderedIds, x) else f.orderedIds,
              entities := if empty then f.entities - {x} else f.entities[x := Snapshot(f.entities[x], e.event)])
  {
    EndShape(Begin(f), e, x);
    NothingCollected(OnMessageEnd(Begin(f), e));
  }

  lemma EndedShape(s: TimelineState, entities: map<ItemId, Item>, e: Envelope, x: ItemId)
    requires e.event.MessageEnd?
    ensures Ended(s.(entities := entities), e, x) == Ended(s, e, x).(entities := entities)
  {
    var u := ClearMessage(s, KeyOf(e), x);
    assert ClearMessage(s.(entities := entities), KeyOf(e), x)
        == TimelineState(entities, u.orderedIds, u.active, u.routes, u.activeCompaction, u.lastOrder,
                         u.assistantSequence, u.running, u.lastError);
  }

  lemma EndRemoves(b: Batch, e: Envelope, x: ItemId)
    requires e.event.MessageEnd? && e.event.isAssistant && Resolve(b.state, KeyOf(e), e.event.mid) == Some(x)
    requires e.event.content.text == "" && e.event.content.thinking == "" && e.event.content.images == []
    requires x in b.state.entities && b.state.entities[x].Message? && Flush(b).entities[x].Message?
    ensures Flush(OnMessageEnd(b, e)) == Single(Flush(b), e)
  {
    EndedShape(b.state, Flush(b).entities, e, x);
    EndOnItsOwn(Flush(b), e, x);
    RemoveInBatch(b, e, x);
  }

  lemma RemoveInBatch(b: Batch, e: Envelope, x: ItemId)
    requires e.event.MessageEnd? && e.event.isAssistant && Resolve(b.state, KeyOf(e), e.event.mid) == Some(x)
    requires e.event.content.text == "" && e.event.content.thinking == "" && e.event.content.images == []
    requires x in b.state.entities && b.state.entities[x].Message?
    ensures Flush(OnMessageEnd(b, e))
         == Ended(b.state, e, x).(orderedIds := Without(b.state.orderedIds, x), entities := Flush(b).entities - {x})
  {
    EndShape(b, e, x);
    FlushRemove(b, OnMessageEnd(b, e), x);
  }

  lemma EndSnapshots(b: Batch, e: Envelope, x: ItemId)
    requires e.event.MessageEnd? && e.event.isAssistant && Resolve(b.state, KeyOf(e), e.event.mid) == Some(x)
    requires !(e.event.content.text == "" && e.event.content.thinking == "" && e.event.content.images == [])
    requires x in b.state.entities && b.state.entities[x].Message? && x !in b.updates
    requires Flush(b).entities[x] == FlushItem(b.deltas, b.updates, x, b.state.entities[x])
    ensures Flush(OnMessageEnd(b, e)) == Single(Flush(b), e)
  {
    SnapshotInBatch(b, e, x);
    SnapshotAlone(b, e, x);
  }

  lemma SnapshotInBatch(b: Batch, e: Envelope, x: ItemId)
    requires e.event.MessageEnd? && e.event.isAssistant && Resolve(b.state, KeyOf(e), e.event.mid) == Some(x)
    requires !(e.event.content.text == "" && e.event.content.thinking == "" && e.event.content.images == [])
    requires x in b.state.entities && b.state.entities[x].Message? && x !in b.updates
    ensures Flush(OnMessageEnd(b, e))
         == Ended(b.state, e, x).(entities := Flush(b).entities[x := Snapshot(b.state.entities[x], e.event)])
  {
    EndShape(b, e, x);
    FlushForget(b, OnMessageEnd(b, e), x, Snapshot(b.state.entities[x], e.event));
  }

  lemma SnapshotAlone(b: Batch, e: Envelope, x: ItemId)
    requires e.event.MessageEnd? && e.event.isAssistant && Resolve(b.state, KeyOf(e), e.event.mid) == Some(x)
    requires !(e.event.content.text == "" && e.event.content.thinking == "" && e.event.content.images == [])
    requires x in b.state.entities && b.state.entities[x].Message? && x !in b.updates
    requires Flush(b).entities[x] == FlushItem(b.deltas, b.updates, x, b.state.entities[x])
    ensures Single(Flush(b), e)
         == Ended(b.state, e, x).(entities := Flush(b).entities[x := Snapshot(b.state.entities[x], e.event)])
  {
    EndedShape(b.state, Flush(b).entities, e, x);
    EndOnItsOwn(Flush(b), e, x);
    assert Snapshot(b.state.entities[x], e.event) == Snapshot(Flush(b).entities[x], e.event);
  }

  lemma CommuteMessageStart(b: Batch, e: Envelope)
    requires e.event.MessageStart?
    requires var id := StartedId(b.state, KeyOf(e), e.event.mid);
             && MessageReady(b, id) && (e.event.mid.None? ==> id !in b.deltas)
             && (e.event.mid.Some? && (KeyOf(e), e.event.mid.value) !in b.state.routes ==>
                   id == MessageId(KeyOf(e), e.event.mid.value))
    ensures Flush(Step(b, e)) == Single(Flush(b), e) <==> Commutes(b, e)
  {
    var f := Flush(b);
    if e.event.isAssistant {
      StartCommutes(b, e, StartedId(b.state, KeyOf(e), e.event.mid));
    } else {
      FlushNothing(f);
    }
  }

  /** What both sides come to: the fresh message on the flushed items. */
  function StartResult(b: Batch, e: Envelope, id: ItemId): TimelineState
    requires e.event.MessageStart?
  {
    var item := StartedItem(b.state, e, id);
    Started(b.state, e, id, item).(entities := Flush(b).entities[id := item])
  }

  lemma StartInBatch(b: Batch, e: Envelope, id: ItemId)
    requires e.event.MessageStart? && e.event.isAssistant && id == StartedId(b.state, KeyOf(e), e.event.mid)
    requires MessageReady(b, id)
    ensures Flush(OnMessageStart(b, e)) == StartResult(b, e, id)
            <==> IsRouted(b.state, KeyOf(e), e.event.mid) || id !in b.deltas
  {
    var item := StartedItem(b.state, e, id);
    StartWrites(b, e, id, item);
    StartFlushes(b, OnMessageStart(b, e), id, item, Started(b.state, e, id, item));
  }

  lemma StartAlone(b: Batch, e: Envelope, id: ItemId)
    requires e.event.MessageStart? && e.event.isAssistant && id == StartedId(b.state, KeyOf(e), e.event.mid)
    requires MessageReady(b, id)
    ensures Single(Flush(b), e) == StartResult(b, e, id)
  {
    var f, item := Flush(b), StartedItem(b.state, e, id);
    Flushed(b, id);
    assert item == StartedItem(f, e, id);
    StartOnItsOwn(f, e, id, item);
    StartedShape(b.state, f, e, id, item);
  }

  lemma StartOnItsOwn(f: TimelineState, e: Envelope, id: ItemId, item: Item)
    requires e.event.MessageStart? && e.event.isAssistant && id == StartedId(f, KeyOf(e), e.event.mid)
    requires item == StartedItem(f, e, id)
    ensures Single(f, e) == Started(f, e, id, item)
  {
    assert ApplyDelta(Begin(f), id) == Begin(f);
    FlushNothing(Started(f, e, id, item));
  }

  lemma StartCommutes(b: Batch, e: Envelope, id: ItemId)
    requires e.event.MessageStart? && e.event.isAssistant && id == StartedId(b.state, KeyOf(e), e.event.mid)
    requires MessageReady(b, id)
    ensures Flush(Step(b, e)) == Single(Flush(b), e) <==> IsRouted(b.state, KeyOf(e), e.event.mid) || id !in b.deltas
  {
    StartInBatch(b, e, id);
    StartAlone(b, e, id);
  }

  lemma NothingCollected(d: Batch)
    requires d.deltas == map[] && d.updates == map[]
    ensures Flush(d) == d.state
  {
    FlushNothing(d.state);
  }

  lemma StartFlushes(b: Batch, c: Batch, id: ItemId, item: Item, t: TimelineState)
    requires c.state == t && t.entities == b.state.entities[id := item] && c.updates == b.updates && id !in b.updates
    requires c.deltas == b.deltas || c.deltas == b.deltas - {id}
    requires item.Message? && item.text == "" && item.thinking == ""
             && (id in c.deltas ==> c.deltas[id] != Delta("", ""))
    ensures Flush(c) == t.(entities := Flush(b).entities[id := item]) <==> id !in c.deltas
  {
    FlushForget(b, c, id, item);
    if id in c.deltas {
      StaleDeltaShows(item, c.deltas[id]);
      assert Flush(c).entities[id] != item;
    }
  }

  lemma StartedShape(s: TimelineState, g: TimelineState, e: Envelope, id: ItemId, item: Item)
    requires e.event.MessageStart? && g == s.(entities := g.entities) && (id in g.entities <==> id in s.entities)
    ensures Started(g, e, id, item) == Started(s, e, id, item).(entities := g.entities[id := item])
  {
  }

  /** A message start writes a fresh message, and takes what was collected for it if it was routed. */
  lemma StartWrites(b: Batch, e: Envelope, id: ItemId, item: Item)
    requires e.event.MessageStart? && e.event.isAssistant && id == StartedId(b.state, KeyOf(e), e.event.mid)
    requires item == StartedItem(b.state, e, id) && (id in b.deltas ==> id in b.state.entities)
    ensures var c := OnMessageStart(b, e);
            && c.state == Started(b.state, e, id, item) && c.updates == b.updates
            && c.deltas == if IsRouted(b.state, KeyOf(e), e.event.mid) then b.deltas - {id} else b.deltas
  {
    if IsRouted(b.state, KeyOf(e), e.event.mid) {
      var c := ApplyDelta(b, id);
      StartedShape(b.state, c.state, e, id, item);
      assert c.state.entities[id := item] == b.state.entities[id := item];
      assert b.deltas == b.deltas - {id} || id in b.deltas;
    }
  }

  lemma StaleDeltaShows(item: Item, d: Delta)
    requires item.Message? && item.text == "" && item.thinking == "" && d != Delta("", "")
    ensures WithDelta(item, d) != item
  {
    ConcatDelta("", "", d.text);
    ConcatDelta("", "", d.thinking);
  }

  // ---- tools ---------------------------------------------------------------------------------

  lemma CommutePutTool(b: Batch, e: Envelope, callId: string, name: string, args: Value, status: ToolStatus,
                       approval: Option<Approval>)
    requires ToolReady(b, ToolId(callId))
    ensures var f := Flush(b);
            var t, u := PutTool(b.state, e, callId, name, args, status, approval),
              PutTool(f, e, callId, name, args, status, approval);
            Flush(b.(state := t)) == u <==> ToolId(callId) !in b.updates || status == Running
  {
    var f, id := Flush(b), ToolId(callId);
    var t, u := PutTool(b.state, e, callId, name, args, status, approval),
      PutTool(f, e, callId, name, args, status, approval);
    Flushed(b, id);
    assert id !in b.deltas;
    FlushPut(b, t, id, t.entities[id]);
    assert u.entities == f.entities[id := u.entities[id]];
    if id in b.updates && status != Running {
      assert Flush(b.(state := t)).entities[id].status == Running && u.entities[id].status == status;
    }
  }

  lemma CommuteToolStart(b: Batch, e: Envelope)
    requires e.event.ToolStart? && ToolReady(b, ToolId(e.event.callId))
    ensures Flush(Step(b, e)) == Single(Flush(b), e) <==> Commutes(b, e)
  {
    var f := Flush(b);
    FlushNothing(f);
    var ToolStart(name, callId, args, pending) := e.event;
    if name != HIDDEN_TOOL && callId != "" {
      var status := if pending then Pending else Running;
      Flushed(b, ToolId(callId));
      assert ApprovalOf(f, callId) == ApprovalOf(b.state, callId);
      CommutePutTool(b, e, callId, name, args, status, ApprovalOf(f, callId));
      FlushNothing(PutTool(f, e, callId, name, args, status, ApprovalOf(f, callId)));
    }
  }

  lemma CommuteApprovalRequested(b: Batch, e: Envelope)
    requires e.event.ApprovalRequested?
    requires e.event.approval.Some? ==> ToolReady(b, ToolId(e.event.approval.value.toolCallId))
    ensures Flush(Step(b, e)) == Single(Flush(b), e) <==> Commutes(b, e)
  {
    var f := Flush(b);
    FlushNothing(f);
    if e.event.approval.Some? {
      var a := e.event.approval.value;
      CommutePutTool(b, e, a.toolCallId, a.toolName, a.approvalArgs, AwaitingApproval, Some(a));
      FlushNothing(PutTool(f, e, a.toolCallId, a.toolName, a.approvalArgs, AwaitingApproval, Some(a)));
    }
  }

  /** An event that rewrites an existing tool in place. */
  lemma CommuteRewrite(b: Batch, c: Batch, id: ItemId, item: Item)
    requires id !in b.deltas
    requires c.deltas == b.deltas && (c.updates == b.updates || c.updates == b.updates - {id})
    requires c.state == b.state.(entities := b.state.entities[id := item])
    ensures Flush(c)
            == Flush(b).(entities :=
            Flush(b).entities[id := if id in c.updates then WithUpdate(item, c.updates[id]) else item])
  {
    FlushForget(b, c, id, item);
  }

  lemma CommuteApprovalExpired(b: Batch, e: Envelope)
    requires e.event.ApprovalExpired? && ToolReady(b, ToolId(e.event.callId))
    ensures Flush(Step(b, e)) == Single(Flush(b), e) <==> Commutes(b, e)
  {
    var f, id := Flush(b), ToolId(e.event.callId);
    FlushNothing(f);
    Flushed(b, id);
    if e.event.callId != "" && id in b.state.entities {
      var c, d := OnTool(b, e), OnTool(Begin(f), e);
      FlushNothing(d.state);
      CommuteRewrite(b, c, id, c.state.entities[id]);
      assert d.state.entities == f.entities[id := d.state.entities[id]];
      if id in b.updates {
        assert Flush(c).entities[id].status == Running && d.state.entities[id].status == TimedOut;
      }
    }
  }

  lemma CommuteToolRunning(b: Batch, e: Envelope)
    requires e.event.ToolRunning? && ToolReady(b, ToolId(e.event.callId))
    ensures Flush(Step(b, e)) == Single(Flush(b), e)
  {
    var f, id := Flush(b), ToolId(e.event.callId);
    FlushNothing(f);
    Flushed(b, id);
    if id in b.state.entities && IsActive(b.state.entities[id].status) {
      var c, d := OnTool(b, e), OnTool(Begin(f), e);
      FlushNothing(d.state);
      CommuteRewrite(b, c, id, c.state.entities[id]);
    }
  }

  lemma CommuteToolUpdate(b: Batch, e: Envelope)
    requires e.event.ToolUpdate? && ToolReady(b, ToolId(e.event.callId))
    ensures Flush(Step(b, e)) == Single(Flush(b), e)
  {
    var f, id := Flush(b), ToolId(e.event.callId);
    FlushNothing(f);
    Flushed(b, id);
    assert id !in b.deltas;
    if OnTool(b, e) != b {
      FlushUpdate(b, id, e.event.partial);
      FlushUpdate(Begin(f), id, e.event.partial);
    }
  }

  lemma CommuteToolEnd(b: Batch, e: Envelope)
    requires e.event.ToolEnd? && ToolReady(b, ToolId(e.event.callId))
    ensures Flush(Step(b, e)) == Single(Flush(b), e)
  {
    var f, id := Flush(b), ToolId(e.event.callId);
    FlushNothing(f);
    Flushed(b, id);
    if e.event.toolName != HIDDEN_TOOL && e.event.callId != "" {
      var c, d := OnTool(b, e), OnTool(Begin(f), e);
      assert d.deltas == map[] && d.updates == map[];
      FlushNothing(d.state);
      if id in b.state.entities {
        CommuteRewrite(b, c, id, c.state.entities[id]);
      } else {
        assert c.updates == b.updates;
      }
    }
  }

  // ---- the end of a run ----------------------------------------------------------------------

  lemma RunEndedItem(b: Batch, e: Envelope, id: ItemId)
    requires Collecting(b) && e.event.RunEnded? && id in b.state.entities
    ensures var l, r := Flush(OnRunEnded(b, e)).entities, OnRunEnded(Begin(Flush(b)), e).state.entities;
            && id in l && id in r
            && (l[id] == r[id] <==>
                  id in b.updates && OfRun(b.state.entities[id], e) ==>
                    OrElse(b.state.entities[id].result, NO_OUTCOME) == OrElse(b.updates[id], NO_OUTCOME))
  {
    Flushed(b, id);
    assert id in b.updates ==> id !in b.deltas;
  }

  lemma CommuteRunEnded(b: Batch, e: Envelope)
    requires Collecting(b) && e.event.RunEnded?
    ensures Flush(Step(b, e)) == Single(Flush(b), e) <==> Commutes(b, e)
  {
    var c, d := OnRunEnded(b, e), OnRunEnded(Begin(Flush(b)), e);
    RunEndShape(b, Flush(b), e);
    NothingCollected(d);
    forall id | id in b.state.entities
      ensures id in Flush(c).entities && id in d.state.entities
      ensures Flush(c).entities[id] == d.state.entities[id] <==>
                (id in b.updates && OfRun(b.state.entities[id], e) ==>
                   OrElse(b.state.entities[id].result, NO_OUTCOME) == OrElse(b.updates[id], NO_OUTCOME))
    {
      RunEndedItem(b, e, id);
    }
    SameItems(Flush(c).entities, d.state.entities, b.state.entities.Keys);
  }

  lemma SameItems(l: map<ItemId, Item>, r: map<ItemId, Item>, ids: set<ItemId>)
    requires l.Keys == r.Keys == ids
    ensures l == r <==> forall id :: id in ids ==> l[id] == r[id]
  {
  }

  lemma RunEndShape(b: Batch, f: TimelineState, e: Envelope)
    requires e.event.RunEnded? && f == Flush(b)
    ensures var c, d := OnRunEnded(b, e), OnRunEnded(Begin(f), e);
            && Flush(c) == d.state.(entities := Flush(c).entities)
            && Flush(c).entities.Keys == d.state.entities.Keys == b.state.entities.Keys
            && d.deltas == map[] && d.updates == map[]
  {
    var c, d := OnRunEnded(b, e), OnRunEnded(Begin(f), e);
    RunEndKeys(b, e);
    RunEndKeys(Begin(f), e);
  }

  lemma RunEndKeys(b: Batch, e: Envelope)
    requires e.event.RunEnded?
    ensures var c := OnRunEnded(b, e);
            && c.state.entities.Keys == b.state.entities.Keys && Flush(c).entities.Keys == b.state.entities.Keys
            && c.deltas == b.deltas && (b.updates == map[] ==> c.updates == map[])
            && c.state == RunClosed(b.state, e).(entities := c.state.entities)
  {
  }

  /** The state after a run's end, but for the items. */
  function RunClosed(s: TimelineState, e: Envelope): TimelineState
    requires e.event.RunEnded?
  {
    var t := ClearRun(s.(running := false), KeyOf(e));
    if e.event.failure.Some? then t.(lastError := e.event.failure) else t
  }

  // ---- any event -----------------------------------------------------------------------------

  /** One event of a frame and a flush is a flush and the event on its own, exactly when collecting
      does not interfere with it. */
  lemma BatchedStepIsExact(b: Batch, e: Envelope)
    requires Collecting(b)
    ensures Flush(Step(b, e)) == Single(Flush(b), e) <==> Commutes(b, e)
  {
    match e.event
    case TurnChanged(run, _) =>
      ReadyFor(b, ChangesId(if run.Some? then run.value else ""));
      CommuteTurnChanged(b, e);
    case RunStarted(_) =>
      ReadyFor(b, UserId(KeyOf(e)));
      CommuteRunStarted(b, e);
    case RunEnded(_) =>
      CommuteRunEnded(b, e);
    case MessageStart(_, mid) =>
      ReadyToStart(b, KeyOf(e), mid);
      CommuteMessageStart(b, e);
    case MessageDelta(_, _, mid) =>
      ReadyToResolve(b, KeyOf(e), mid);
      CommuteDelta(b, e);
    case MessageEnd(_, mid, _, _, _) =>
      ReadyToResolve(b, KeyOf(e), mid);
      CommuteMessageEnd(b, e);
    case ToolStart(_, callId, _, _) =>
      ReadyFor(b, ToolId(callId));
      CommuteToolStart(b, e);
    case ToolRunning(callId) =>
      ReadyFor(b, ToolId(callId));
      CommuteToolRunning(b, e);
    case ToolUpdate(_, callId, _) =>
      ReadyFor(b, ToolId(callId));
      CommuteToolUpdate(b, e);
    case ToolEnd(_, callId, _, _, _) =>
      ReadyFor(b, ToolId(callId));
      CommuteToolEnd(b, e);
    case ApprovalRequested(approval) =>
      ReadyFor(b, ToolId(if approval.Some? then approval.value.toolCallId else ""));
      CommuteApprovalRequested(b, e);
    case ApprovalExpired(callId) =>
      ReadyFor(b, ToolId(callId));
      CommuteApprovalExpired(b, e);
    case CompactionStart(_) =>
      ReadyFor(b, CompactionId(e.timestamp, b.state.lastOrder + 1.0));
      CommuteCompactionStart(b, e);
    case CompactionEnd(_, _, _, _) =>
      CommuteCompactionEnd(b, e);
    case Unknown =>
      FlushNothing(Flush(b));
  }
}
