/** Terminal output between the desktop host and a terminal panel: the host keeps the last part of a
    process's output and an offset, sends each piece of output as an event, and answers an open request
    with a snapshot; the panel puts the two together. Text is a sequence of UTF-16 code units. */
module Replay {
  import opened Options

  const BACKLOG := 262_144

  /** JavaScript's s.slice(-n) for n > 0. */
  function Last<T>(s: seq<T>, n: nat): seq<T> { if |s| <= n then s else s[|s| - n..] }

  lemma LastOfLast<T>(s: seq<T>, x: seq<T>, n: nat)
    ensures Last(Last(s, n) + x, n) == Last(s + x, n)
  {
  }

  datatype OutputEvent = OutputEvent(id: string, data: string, offset: nat)

  datatype Snapshot = Snapshot(id: string, backlog: string, offset: nat)

  // ---- the panel's rule ----------------------------------------------------------------------------

  /** What one event adds to the text, and the offset behind it. */
  function Accept(written: string, latestOffset: nat, e: OutputEvent): (string, nat) {
    if e.offset > latestOffset then (written + Last(e.data, e.offset - latestOffset), e.offset)
    else (written, latestOffset)
  }

  function AcceptAll(written: string, latestOffset: nat, events: seq<OutputEvent>): (string, nat) {
    if events == [] then (written, latestOffset)
    else
      var (w, l) := AcceptAll(written, latestOffset, events[..|events| - 1]);
      Accept(w, l, events[|events| - 1])
  }

  datatype Panel = Panel(record: Option<Snapshot>, latestOffset: nat, pending: seq<OutputEvent>, written: string)

  const UNOPENED := Panel(None, 0, [], "")

  /** An event that arrives. */
  function Takes(p: Panel, e: OutputEvent): Panel {
    if p.record.None? then p.(pending := p.pending + [e])
    else
      var (written, latest) := Accept(p.written, p.latestOffset, e);
      p.(written := written, latestOffset := latest)
  }

  /** The reply that arrives. */
  function Opens(p: Panel, snapshot: Snapshot): Panel {
    var (written, latest) := AcceptAll(p.written + snapshot.backlog, snapshot.offset, p.pending);
    Panel(Some(snapshot), latest, p.pending, written)
  }

  class TerminalPanel {
    var record: Option<Snapshot>
    var latestOffset: nat
    var pending: seq<OutputEvent>
    var written: string

    function State(): Panel
      reads this
    {
      Panel(record, latestOffset, pending, written)
    }

    constructor ()
      ensures State() == UNOPENED
    {
      record, latestOffset, pending, written := None, 0, [], "";
    }

    /** The output handler; the events of other scopes and keys never get here. */
    method Output(e: OutputEvent)
      modifies this
      ensures State() == Takes(old(State()), e)
    {
      if record.None? {
        pending := pending + [e];
        return;
      }
      if e.offset > latestOffset {
        var delta := e.offset - latestOffset;
        latestOffset := e.offset;
        written := written + Last(e.data, delta);
      }
    }

    /** The reply to the open request. */
    method Opened(snapshot: Snapshot)
      requires record.None?
      modifies this
      ensures State() == Opens(old(State()), snapshot)
    {
      record := Some(snapshot);
      latestOffset := snapshot.offset;
      written := written + snapshot.backlog;
      for i := 0 to |pending|
        invariant record == Some(snapshot) && pending == old(pending)
        invariant (written, latestOffset) == AcceptAll(old(written) + snapshot.backlog, snapshot.offset, pending[..i])
      {
        assert pending[..i + 1][..i] == pending[..i];
        Output(pending[i]);
      }
      assert pending[..|pending|] == pending;
    }
  }

  // ---- what the events of one terminal carry ---------------------------------------------------------

  /** The events that carry output[a..b], in order and without a gap. */
  predicate Carry(events: seq<OutputEvent>, output: string, a: nat, b: nat)
    requires a <= b <= |output|
    decreases |events|
  {
    if events == [] then a == b
    else
      var d := |events[0].data|;
      a + d <= b && events[0].offset == a + d && events[0].data == output[a..a + d]
        && Carry(events[1..], output, a + d, b)
  }

  lemma {:induction false} CarryMore(events: seq<OutputEvent>, output: string, a: nat, b: nat, e: OutputEvent)
    requires a <= b && b + |e.data| <= |output| && Carry(events, output, a, b)
    requires e.offset == b + |e.data| && e.data == output[b..b + |e.data|]
    ensures Carry(events + [e], output, a, b + |e.data|)
    decreases |events|
  {
    if events == [] {
      assert (events + [e])[1..] == [];
    } else {
      CarryMore(events[1..], output, a + |events[0].data|, b, e);
      assert (events + [e])[1..] == events[1..] + [e];
    }
  }

  lemma {:induction false} CarryOfLonger(events: seq<OutputEvent>, output: string, more: string, a: nat, b: nat)
    requires a <= b <= |output| && Carry(events, output, a, b)
    ensures Carry(events, output + more, a, b)
    decreases |events|
  {
    if events != [] {
      var d := |events[0].data|;
      assert (output + more)[a..a + d] == output[a..a + d];
      CarryOfLonger(events[1..], output, more, a + d, b);
    }
  }

  lemma {:induction false} CarryFront(events: seq<OutputEvent>, output: string, a: nat, b: nat) returns (m: nat)
    requires events != [] && a <= b <= |output| && Carry(events, output, a, b)
    ensures var e := events[|events| - 1];
            a <= m <= b && Carry(events[..|events| - 1], output, a, m) && b == m + |e.data| && e.offset == b
              && e.data == output[m..b]
    decreases |events|
  {
    if |events| == 1 {
      m := a;
      assert events[1..] == [] && events[..0] == [];
    } else {
      var d := |events[0].data|;
      m := CarryFront(events[1..], output, a + d, b);
      assert events[1..][..|events| - 2] == events[..|events| - 1][1..];
    }
  }

  /** The text that stands for output[..latest] when the snapshot was taken at n. */
  function Shown(output: string, n: nat, latest: nat): string
    requires n <= latest <= |output|
  {
    Last(output[..n], BACKLOG) + output[n..latest]
  }

  function Max(a: nat, b: nat): nat { if a < b then b else a }

  lemma Join(a: string, b: string, c: string)
    ensures (a + b) + c == a + (b + c)
  {
  }

  /** An event that starts no later than the text ends adds exactly what is new in it. */
  lemma AcceptShows(output: string, n: nat, latest: nat, e: OutputEvent, start: nat)
    requires n <= latest <= |output| && start <= latest
    requires start + |e.data| == e.offset <= |output| && e.data == output[start..e.offset]
    ensures Accept(Shown(output, n, latest), latest, e)
            == (Shown(output, n, Max(latest, e.offset)), Max(latest, e.offset))
  {
    if e.offset > latest {
      assert Last(e.data, e.offset - latest) == output[latest..e.offset];
      assert output[n..latest] + output[latest..e.offset] == output[n..e.offset];
      Join(Last(output[..n], BACKLOG), output[n..latest], output[latest..e.offset]);
    }
  }

  lemma {:induction false} AcceptAllShows(output: string, n: nat, events: seq<OutputEvent>, a: nat, b: nat)
    requires a <= n <= |output| && a <= b <= |output| && Carry(events, output, a, b)
    ensures AcceptAll(Shown(output, n, n), n, events) == (Shown(output, n, Max(n, b)), Max(n, b))
    decreases |events|
  {
    if events != [] {
      var m := CarryFront(events, output, a, b);
      AcceptAllShows(output, n, events[..|events| - 1], a, m);
      AcceptShows(output, n, Max(n, m), events[|events| - 1], m);
    }
  }

  // ---- any interleaving ------------------------------------------------------------------------------

  /** Terminal: what the host keeps of one process. */
  datatype Terminal = Terminal(id: string, backlog: string, offset: nat)

  predicate Keeps(t: Terminal, output: string) { t.backlog == Last(output, BACKLOG) && t.offset == |output| }

  function Received(t: Terminal, data: string): Terminal {
    t.(backlog := Last(t.backlog + data, BACKLOG), offset := t.offset + |data|)
  }

  lemma ReceivedKeeps(t: Terminal, output: string, data: string)
    requires Keeps(t, output)
    ensures Keeps(Received(t, data), output + data)
  {
    LastOfLast(output, data, BACKLOG);
  }

  /** The host's output callback. */
  method Receive(t: Terminal, data: string, ghost output: string) returns (t': Terminal, e: OutputEvent)
    requires Keeps(t, output)
    ensures t' == Received(t, data) && Keeps(t', output + data)
    ensures e == OutputEvent(t.id, data, |output + data|)
  {
    ReceivedKeeps(t, output, data);
    t' := t.(backlog := Last(t.backlog + data, BACKLOG), offset := t.offset + |data|);
    e := OutputEvent(t.id, data, t'.offset);
  }

  /** The process writes, the host answers the open request, the oldest event arrives, the reply arrives. */
  datatype Action = Write(data: string) | Answer | DeliverEvent | DeliverReply

  /** Where a run stands: all output so far, the point up to which events have arrived, the events
      under way, the reply under way, whether it was sent, and the panel. */
  datatype Run = Run(terminal: Terminal, output: string, arrived: nat, channel: seq<OutputEvent>,
                     reply: Option<Snapshot>, answered: bool, panel: Panel)

  /** What an action does. One that cannot happen yet does nothing. */
  function Do(r: Run, action: Action): Run {
    match action
    case Write(data) =>
      var t := Received(r.terminal, data);
      r.(terminal := t, output := r.output + data, channel := r.channel + [OutputEvent(t.id, data, t.offset)])
    case Answer =>
      if r.answered then r
      else r.(reply := Some(Snapshot(r.terminal.id, r.terminal.backlog, r.terminal.offset)), answered := true)
    case DeliverEvent =>
      if r.channel == [] then r
      else r.(arrived := r.arrived + |r.channel[0].data|, channel := r.channel[1..],
              panel := Takes(r.panel, r.channel[0]))
    case DeliverReply =>
      if r.reply.None? then r else r.(reply := None, panel := Opens(r.panel, r.reply.value))
  }

  function Play(r: Run, actions: seq<Action>): Run {
    if actions == [] then r else Do(Play(r, actions[..|actions| - 1]), actions[|actions| - 1])
  }

  predicate SnapshotOf(s: Snapshot, output: string) {
    s.offset <= |output| && s.backlog == Last(output[..s.offset], BACKLOG)
  }

  /** The channel carries what has not arrived. The panel shows the last 262,144 units before the
      snapshot and everything from there to the point up to which events have arrived; before the reply
      it shows nothing and keeps what has arrived. */
  predicate InStep(r: Run, subscribed: nat) {
    && Keeps(r.terminal, r.output)
    && subscribed <= r.arrived <= |r.output| && Carry(r.channel, r.output, r.arrived, |r.output|)
    && (r.reply.Some? ==>
          && r.answered && r.panel.record.None?
          && subscribed <= r.reply.value.offset && SnapshotOf(r.reply.value, r.output))
    && (r.panel.record.Some? ==> r.answered)
    && (r.answered ==> r.reply.Some? || r.panel.record.Some?)
    && (r.panel.record.None? ==> r.panel.written == "" && Carry(r.panel.pending, r.output, subscribed, r.arrived))
    && (r.panel.record.Some? ==>
          var n := r.panel.record.value.offset;
          && subscribed <= n <= |r.output|
          && r.panel.latestOffset == Max(n, r.arrived)
          && r.panel.written == Shown(r.output, n, r.panel.latestOffset))
  }

  lemma WriteInStep(r: Run, data: string, subscribed: nat)
    requires InStep(r, subscribed)
    ensures InStep(Do(r, Write(data)), subscribed)
  {
    var output := r.output + data;
    var e := OutputEvent(r.terminal.id, data, |output|);
    LastOfLast(r.output, data, BACKLOG);
    CarryOfLonger(r.channel, r.output, data, r.arrived, |r.output|);
    CarryMore(r.channel, output, r.arrived, |r.output|, e);
    if r.panel.record.None? {
      CarryOfLonger(r.panel.pending, r.output, data, subscribed, r.arrived);
    } else {
      ShownOfLonger(r.output, data, r.panel.record.value.offset, r.panel.latestOffset);
    }
    if r.reply.Some? { assert output[..r.reply.value.offset] == r.output[..r.reply.value.offset]; }
  }

  lemma ShownOfLonger(output: string, data: string, n: nat, latest: nat)
    requires n <= latest <= |output|
    ensures Shown(output + data, n, latest) == Shown(output, n, latest)
  {
    assert (output + data)[..n] == output[..n] && (output + data)[n..latest] == output[n..latest];
  }

  lemma EventInStep(r: Run, subscribed: nat)
    requires InStep(r, subscribed)
    ensures InStep(Do(r, DeliverEvent), subscribed)
  {
    if r.channel != [] {
      var e := r.channel[0];
      if r.panel.record.None? {
        CarryMore(r.panel.pending, r.output, subscribed, r.arrived, e);
      } else {
        AcceptShows(r.output, r.panel.record.value.offset, r.panel.latestOffset, e, r.arrived);
      }
    }
  }

  lemma ReplyInStep(r: Run, subscribed: nat)
    requires InStep(r, subscribed)
    ensures InStep(Do(r, DeliverReply), subscribed)
  {
    if r.reply.Some? {
      var n := r.reply.value.offset;
      assert "" + r.reply.value.backlog == r.reply.value.backlog == Shown(r.output, n, n);
      AcceptAllShows(r.output, n, r.panel.pending, subscribed, r.arrived);
    }
  }

  lemma DoInStep(r: Run, action: Action, subscribed: nat)
    requires InStep(r, subscribed)
    ensures InStep(Do(r, action), subscribed)
  {
    match action
    case Write(data) => WriteInStep(r, data, subscribed);
    case Answer => assert r.output[..|r.output|] == r.output;
    case DeliverEvent => EventInStep(r, subscribed);
    case DeliverReply => ReplyInStep(r, subscribed);
  }

  function Written(action: Action): string { if action.Write? then action.data else "" }

  function Output(actions: seq<Action>): string {
    if actions == [] then ""
    else Output(actions[..|actions| - 1]) + Written(actions[|actions| - 1])
  }

  lemma {:induction false} PlayOutput(r: Run, actions: seq<Action>)
    ensures Play(r, actions).output == r.output + Output(actions)
  {
    if actions == [] {
      assert r.output + "" == r.output;
    } else {
      var front, last := actions[..|actions| - 1], actions[|actions| - 1];
      PlayOutput(r, front);
      DoOutput(Play(r, front), last);
      Join(r.output, Output(front), Written(last));
    }
  }

  lemma DoOutput(r: Run, action: Action)
    ensures Do(r, action).output == r.output + Written(action)
  {
  }

  /** In every run the panel is in step, and the output is what the process has written. */
  lemma {:induction false} PlayInStep(r: Run, actions: seq<Action>, subscribed: nat)
    requires InStep(r, subscribed)
    ensures InStep(Play(r, actions), subscribed)
    ensures Play(r, actions).output == r.output + Output(actions)
  {
    StaysInStep(r, actions, subscribed);
    PlayOutput(r, actions);
  }

  lemma {:induction false} StaysInStep(r: Run, actions: seq<Action>, subscribed: nat)
    requires InStep(r, subscribed)
    ensures InStep(Play(r, actions), subscribed)
  {
    if actions != [] {
      var front := actions[..|actions| - 1];
      StaysInStep(r, front, subscribed);
      DoInStep(Play(r, front), actions[|actions| - 1], subscribed);
    }
  }

  ghost predicate Asked(actions: seq<Action>) { exists i :: 0 <= i < |actions| && actions[i].Answer? }

  /** An answer, and later a delivery of the reply. */
  ghost predicate Replied(actions: seq<Action>) {
    exists j :: 0 <= j < |actions| && actions[j].DeliverReply? && Asked(actions[..j])
  }

  lemma AskedSplit(actions: seq<Action>)
    requires actions != []
    ensures Asked(actions) <==> Asked(actions[..|actions| - 1]) || actions[|actions| - 1].Answer?
  {
    var front := actions[..|actions| - 1];
    if i :| 0 <= i < |front| && front[i].Answer? { assert actions[i].Answer?; }
    if i :| 0 <= i < |actions| && actions[i].Answer? { assert i == |front| || front[i].Answer?; }
  }

  lemma RepliedSplit(actions: seq<Action>)
    requires actions != []
    ensures var front := actions[..|actions| - 1];
            Replied(actions) <==> Replied(front) || (actions[|actions| - 1].DeliverReply? && Asked(front))
  {
    var front := actions[..|actions| - 1];
    if j :| 0 <= j < |front| && front[j].DeliverReply? && Asked(front[..j]) {
      assert actions[..j] == front[..j] && actions[j].DeliverReply?;
    }
    if j :| 0 <= j < |actions| && actions[j].DeliverReply? && Asked(actions[..j]) {
      if j < |front| { assert actions[..j] == front[..j] && front[j].DeliverReply?; }
    }
  }

  /** The panel is open exactly when the host has answered and the reply has arrived since. */
  lemma {:induction false} OpenWhenReplied(r: Run, actions: seq<Action>)
    requires !r.answered && r.reply.None? && r.panel.record.None?
    ensures var e := Play(r, actions);
            && (e.answered <==> Asked(actions))
            && (e.panel.record.Some? <==> Replied(actions))
            && (e.reply.Some? <==> Asked(actions) && !Replied(actions))
  {
    if actions != [] {
      var front := actions[..|actions| - 1];
      OpenWhenReplied(r, front);
      AskedSplit(actions);
      RepliedSplit(actions);
      DoReplies(Play(r, front), actions[|actions| - 1]);
    }
  }

  lemma DoReplies(r: Run, action: Action)
    ensures var e := Do(r, action);
            && (e.answered <==> r.answered || action.Answer?)
            && (e.reply.Some? <==>
                  if action.Answer? && !r.answered then true else r.reply.Some? && !action.DeliverReply?)
            && (e.panel.record.Some? <==> r.panel.record.Some? || (action.DeliverReply? && r.reply.Some?))
  {
  }

  /** A terminal with any output behind it, and a panel that has just subscribed to its events. */
  function Begin(t: Terminal, output: string, channel: seq<OutputEvent>, subscribed: nat): Run {
    Run(t, output, subscribed, channel, None, false, UNOPENED)
  }

  /** Any interleaving of process output, the open reply and the events. The panel and the run go through
      exactly what the actions say; the panel is open exactly once the reply has arrived; and then, when
      all events have arrived, it shows the end of what was written before the snapshot and all that was
      written since. */
  method Interleave(t: Terminal, output: string, channel: seq<OutputEvent>, subscribed: nat, actions: seq<Action>)
    returns (panel: TerminalPanel, r: Run)
    requires Keeps(t, output) && subscribed <= |output| && Carry(channel, output, subscribed, |output|)
    ensures r == Play(Begin(t, output, channel, subscribed), actions) && panel.State() == r.panel
    ensures InStep(r, subscribed) && r.output == output + Output(actions)
    ensures panel.record.Some? <==> Replied(actions)
    ensures panel.record.Some? && r.channel == [] ==>
              var n := panel.record.value.offset; panel.written == Last(r.output[..n], BACKLOG) + r.output[n..]
  {
    panel := new TerminalPanel();
    r := Begin(t, output, channel, subscribed);
    ghost var begin := r;
    assert Carry([], output, subscribed, subscribed);
    for i := 0 to |actions|
      invariant fresh(panel) && panel.State() == r.panel
      invariant InStep(r, subscribed) && r == Play(begin, actions[..i])
    {
      assert actions[..i + 1][..i] == actions[..i];
      DoInStep(r, actions[i], subscribed);
      r := Act(panel, r, actions[i]);
    }
    assert actions[..|actions|] == actions;
    PlayInStep(begin, actions, subscribed);
    OpenWhenReplied(begin, actions);
  }

  /** One action, on the panel and on what is under way. */
  method Act(panel: TerminalPanel, r: Run, action: Action) returns (r': Run)
    requires panel.State() == r.panel && Keeps(r.terminal, r.output) && (r.reply.Some? ==> r.panel.record.None?)
    modifies panel
    ensures r' == Do(r, action) && panel.State() == r'.panel
  {
    match action {
      case Write(data) =>
        var t, e := Receive(r.terminal, data, r.output);
        r' := r.(terminal := t, output := r.output + data, channel := r.channel + [e]);
      case Answer =>
        if r.answered { return r; }
        r' := r.(reply := Some(Snapshot(r.terminal.id, r.terminal.backlog, r.terminal.offset)), answered := true);
      case DeliverEvent =>
        if r.channel == [] { return r; }
        var e := r.channel[0];
        panel.Output(e);
        r' := r.(arrived := r.arrived + |e.data|, channel := r.channel[1..], panel := panel.State());
      case DeliverReply =>
        if r.reply.None? { return r; }
        panel.Opened(r.reply.value);
        r' := r.(reply := None, panel := panel.State());
    }
  }

  /** The events carry the terminal's key, and the panel does not look at the id. A late event of the
      terminal that had the key before leaves the panel as it was exactly when its offset is not ahead
      of the panel's. */
  lemma LateEventIsHarmlessWhenBehind(written: string, latestOffset: nat, late: OutputEvent)
    ensures Accept(written, latestOffset, late) == (written, latestOffset) <==> late.offset <= latestOffset
  {
  }

  /** One that is ahead makes the panel show foreign text, and drop its own until that catches up. */
  lemma LateEventAheadBreaks()
    ensures var late, own := OutputEvent("before", "ab", 2), OutputEvent("now", "x", 1);
            AcceptAll(Shown("x", 0, 0), 0, [late, own]) == ("ab", 2)
    ensures Shown("x", 0, 1) == "x"
  {
    var late, own := OutputEvent("before", "ab", 2), OutputEvent("now", "x", 1);
    assert [late, own][..1] == [late] && [late][..0] == [];
    assert Shown("x", 0, 0) == "";
    assert Last(late.data, 2) == "ab" && "" + "ab" == "ab";
    assert AcceptAll("", 0, [late]) == Accept("", 0, late) == ("ab", 2);
    assert AcceptAll("", 0, [late, own]) == Accept("ab", 2, own);
  }

  /** An event that reaches the panel: of its own terminal, or a late one of the terminal that had the key
      before. */
  datatype Arrival = Own(event: OutputEvent) | Late(event: OutputEvent)

  /** The first i events that arrive. */
  function AllTo(arrivals: seq<Arrival>, i: nat): seq<OutputEvent>
    requires i <= |arrivals|
  {
    if i == 0 then [] else AllTo(arrivals, i - 1) + [arrivals[i - 1].event]
  }

  /** The terminal's own events among them. */
  function OwnTo(arrivals: seq<Arrival>, i: nat): seq<OutputEvent>
    requires i <= |arrivals|
  {
    if i == 0 then [] else OwnTo(arrivals, i - 1) + (if arrivals[i - 1].Own? then [arrivals[i - 1].event] else [])
  }

  /** After i events the panel is as if only its own had come. */
  predicate AsIfOwn(s: Snapshot, arrivals: seq<Arrival>, i: nat)
    requires i <= |arrivals|
  {
    AcceptAll(s.backlog, s.offset, AllTo(arrivals, i)) == AcceptAll(s.backlog, s.offset, OwnTo(arrivals, i))
  }

  /** Event i is no late one, or not ahead of the terminal's own events until then. */
  predicate NotAhead(s: Snapshot, arrivals: seq<Arrival>, i: nat)
    requires i < |arrivals|
  {
    arrivals[i].Late? ==> arrivals[i].event.offset <= AcceptAll(s.backlog, s.offset, OwnTo(arrivals, i)).1
  }

  predicate NoneAhead(s: Snapshot, arrivals: seq<Arrival>) {
    forall i :: 0 <= i < |arrivals| ==> NotAhead(s, arrivals, i)
  }

  lemma AcceptSnoc(written: string, latestOffset: nat, events: seq<OutputEvent>, e: OutputEvent)
    ensures var (w, l) := AcceptAll(written, latestOffset, events);
            AcceptAll(written, latestOffset, events + [e]) == Accept(w, l, e)
  {
    assert (events + [e])[..|events|] == events;
  }

  lemma OneArrival(s: Snapshot, arrivals: seq<Arrival>, i: nat)
    requires i < |arrivals| && AsIfOwn(s, arrivals, i)
    ensures AsIfOwn(s, arrivals, i + 1) <==> NotAhead(s, arrivals, i)
  {
    var e := arrivals[i].event;
    var (w, l) := AcceptAll(s.backlog, s.offset, OwnTo(arrivals, i));
    AcceptSnoc(s.backlog, s.offset, AllTo(arrivals, i), e);
    if arrivals[i].Own? {
      AcceptSnoc(s.backlog, s.offset, OwnTo(arrivals, i), e);
    } else {
      LateEventIsHarmlessWhenBehind(w, l, e);
      assert OwnTo(arrivals, i) + [] == OwnTo(arrivals, i);
    }
  }

  lemma {:induction false} StaysAsIfOwn(s: Snapshot, arrivals: seq<Arrival>, i: nat)
    requires i <= |arrivals| && NoneAhead(s, arrivals)
    ensures AsIfOwn(s, arrivals, i)
  {
    if i > 0 {
      StaysAsIfOwn(s, arrivals, i - 1);
      OneArrival(s, arrivals, i - 1);
    }
  }

  /** Late events among the terminal's own leave no trace at any moment exactly when none is ahead of the
      own ones when it arrives; and then the panel ends with the end of what was written before the
      snapshot and all that has arrived since. */
  lemma LateEventsAreHarmless(s: Snapshot, arrivals: seq<Arrival>, output: string, a: nat, b: nat)
    requires a <= s.offset && a <= b <= |output| && SnapshotOf(s, output)
    requires Carry(OwnTo(arrivals, |arrivals|), output, a, b)
    ensures (forall i :: 0 <= i <= |arrivals| ==> AsIfOwn(s, arrivals, i)) <==> NoneAhead(s, arrivals)
    ensures NoneAhead(s, arrivals) ==>
              AcceptAll(s.backlog, s.offset, AllTo(arrivals, |arrivals|)).0 == Shown(output, s.offset, Max(s.offset, b))
  {
    if forall i :: 0 <= i <= |arrivals| ==> AsIfOwn(s, arrivals, i) {
      forall i | 0 <= i < |arrivals| ensures NotAhead(s, arrivals, i) {
        assert AsIfOwn(s, arrivals, i) && AsIfOwn(s, arrivals, i + 1);
        OneArrival(s, arrivals, i);
      }
    }
    if NoneAhead(s, arrivals) {
      forall i | 0 <= i <= |arrivals| ensures AsIfOwn(s, arrivals, i) { StaysAsIfOwn(s, arrivals, i); }
      AcceptAllShows(output, s.offset, OwnTo(arrivals, |arrivals|), a, b);
      assert s.backlog + output[s.offset..s.offset] == s.backlog;
      assert AsIfOwn(s, arrivals, |arrivals|);
    }
  }

  /** The panel after the first i events. */
  function TakeTo(p: Panel, events: seq<OutputEvent>, i: nat): Panel
    requires i <= |events|
  {
    if i == 0 then p else Takes(TakeTo(p, events, i - 1), events[i - 1])
  }

  lemma {:induction false} Pends(events: seq<OutputEvent>, i: nat)
    requires i <= |events|
    ensures TakeTo(UNOPENED, events, i) == Panel(None, 0, events[..i], "")
  {
    if i > 0 {
      Pends(events, i - 1);
      assert events[..i - 1] + [events[i - 1]] == events[..i];
    }
  }

  /** Wherever the reply comes, the panel's text is that of all the events behind the snapshot. */
  lemma {:induction false} PanelAcceptsAll(s: Snapshot, before: seq<OutputEvent>, after: seq<OutputEvent>, i: nat)
    requires i <= |after|
    ensures var p := TakeTo(Opens(TakeTo(UNOPENED, before, |before|), s), after, i);
            p.record == Some(s) && (p.written, p.latestOffset) == AcceptAll(s.backlog, s.offset, before + after[..i])
  {
    if i == 0 {
      OpensWithAll(s, before);
      assert before + after[..0] == before;
    } else {
      PanelAcceptsAll(s, before, after, i - 1);
      TakesOne(TakeTo(Opens(TakeTo(UNOPENED, before, |before|), s), after, i - 1), s, before + after[..i - 1],
          after[i - 1]);
      OneMore(before, after, i);
    }
  }

  lemma OpensWithAll(s: Snapshot, before: seq<OutputEvent>)
    ensures var p := Opens(TakeTo(UNOPENED, before, |before|), s);
            p.record == Some(s) && (p.written, p.latestOffset) == AcceptAll(s.backlog, s.offset, before)
  {
    Pends(before, |before|);
    assert before[..|before|] == before;
    OpensPending(s, before);
  }

  lemma OpensPending(s: Snapshot, before: seq<OutputEvent>)
    ensures var p := Opens(Panel(None, 0, before, ""), s);
            p.record == Some(s) && (p.written, p.latestOffset) == AcceptAll(s.backlog, s.offset, before)
  {
    assert "" + s.backlog == s.backlog;
  }

  lemma TakesOne(p: Panel, s: Snapshot, events: seq<OutputEvent>, e: OutputEvent)
    requires p.record == Some(s) && (p.written, p.latestOffset) == AcceptAll(s.backlog, s.offset, events)
    ensures Takes(p, e).record == Some(s)
    ensures (Takes(p, e).written, Takes(p, e).latestOffset) == AcceptAll(s.backlog, s.offset, events + [e])
  {
    AcceptSnoc(s.backlog, s.offset, events, e);
  }

  lemma OneMore(before: seq<OutputEvent>, after: seq<OutputEvent>, i: nat)
    requires 0 < i <= |after|
    ensures before + after[..i] == before + after[..i - 1] + [after[i - 1]]
  {
  }

  /** A late event that is ahead can also happen to carry the text that was to come. */
  lemma LateTextMayCoincide()
    ensures AcceptAll("", 0, [OutputEvent("before", "ab", 2), OutputEvent("now", "ab", 2)])
         == AcceptAll("", 0, [OutputEvent("now", "ab", 2)])
  {
    var late, own := OutputEvent("before", "ab", 2), OutputEvent("now", "ab", 2);
    assert [late, own][..1] == [late] && [late][..0] == [] && [own][..0] == [];
    assert AcceptAll("", 0, [late, own]) == Accept(AcceptAll("", 0, [late]).0, 2, own);
  }

  // ---- the host's terminals --------------------------------------------------------------------------

  datatype Scope = Scope(workspacePath: string, sessionId: string)

  const MAX_TERMINALS := 6
  const MAX_KEY := 128

  datatype Record = Record(scope: Scope, key: string, terminal: Terminal)

  datatype Reply = Refused(code: string) | Opened(snapshot: Snapshot) | Spawning(scope: Scope) | Done

  /** The host's terminals, and all that each listed process has written. */
  datatype Host = Host(scope: Option<Scope>, epoch: nat, terminals: map<string, Record>, outputs: map<string, string>)

  const IDLE := Host(None, 0, map[], map[])

  predicate Distinct(terminals: map<string, Record>) {
    forall i, j :: i in terminals && j in terminals && terminals[i].key == terminals[j].key ==> i == j
  }

  predicate Listed(h: Host, id: string)
    requires id in h.terminals
  {
    && h.scope == Some(h.terminals[id].scope) && h.terminals[id].terminal.id == id
    && id in h.outputs && Keeps(h.terminals[id].terminal, h.outputs[id])
  }

  /** At most six terminals, no two with one key, all in the current scope, each with the last part of
      its process's output. */
  ghost predicate Orderly(h: Host) {
    |h.terminals| <= MAX_TERMINALS && Distinct(h.terminals) && forall i :: i in h.terminals ==> Listed(h, i)
  }

  /** One stretch of host code between two awaits. */
  datatype HostStep =
    | Open(epoch: nat, current: Scope, asked: Scope, key: string)
    | Spawn(asked: Scope, key: string, id: string)
    | Close(id: string, asked: Scope)
    | Stopped(id: string)
    | Data(id: string, data: string)
    | Retain(current: Scope)
    | DisposeAll

  function Disposed(h: Host): Host { Host(None, h.epoch + 1, map[], map[]) }

  function Retained(h: Host, current: Scope): Host {
    if h.scope == Some(current) then h else Disposed(h).(scope := Some(current))
  }

  /** A request that was overtaken by a change to another scope. */
  predicate Stale(h: Host, epoch: nat, current: Scope) { epoch != h.epoch && h.scope != Some(current) }

  ghost predicate HasKey(h: Host, key: string) { exists i :: i in h.terminals && h.terminals[i].key == key }

  /** The terminal with a key: there is at most one. */
  ghost function WithKey(h: Host, key: string): string
    requires HasKey(h, key)
    ensures WithKey(h, key) in h.terminals && h.terminals[WithKey(h, key)].key == key
  {
    var i :| i in h.terminals && h.terminals[i].key == key;
    i
  }

  ghost function SnapshotAt(h: Host, key: string): Snapshot
    requires HasKey(h, key)
  {
    var t := h.terminals[WithKey(h, key)].terminal;
    Snapshot(t.id, t.backlog, t.offset)
  }

  /** A close is for a listed terminal of the asking scope: its process is then being stopped. */
  predicate Stops(h: Host, id: string, asked: Scope) { id in h.terminals && h.terminals[id].scope == asked }

  /** What a step does to the host, and what it answers. Every close is accepted. */
  ghost function HostDo(h: Host, step: HostStep): (Host, Reply) {
    match step
    case Open(epoch, current, asked, key) =>
      if Stale(h, epoch, current) then (h, Refused("STALE_WORKSPACE"))
      else
        var r := Retained(h, current);
        (r, if asked != current then Refused("STALE_WORKSPACE") else if |key| > MAX_KEY then Refused("KEY")
            else if HasKey(r, key) then Opened(SnapshotAt(r, key))
            else if |r.terminals| >= MAX_TERMINALS then Refused("LIMIT") else Spawning(current))
    case Spawn(asked, key, id) =>
      if h.scope != Some(asked) then (h, Refused("STALE_WORKSPACE"))
      else if HasKey(h, key) then (h, Opened(SnapshotAt(h, key)))
      else if |h.terminals| >= MAX_TERMINALS then (h, Refused("LIMIT"))
      else (h.(terminals := h.terminals[id := Record(asked, key, Terminal(id, "", 0))], outputs := h.outputs[id := ""]),
            Opened(Snapshot(id, "", 0)))
    case Close(_, _) => (h, Done)
    case Stopped(id) => (h.(terminals := h.terminals - {id}), Done)
    case Data(id, data) =>
      if id !in h.terminals || id !in h.outputs then (h, Done)
      else
        (h.(terminals := h.terminals[id := h.terminals[id].(terminal := Received(h.terminals[id].terminal, data))],
            outputs := h.outputs[id := h.outputs[id] + data]), Done)
    case Retain(current) => (Retained(h, current), Done)
    case DisposeAll => (Disposed(h), Done)
  }

  /** Ids are fresh random ones: no spawn reuses the id of a listed terminal. */
  predicate FreshSpawn(h: Host, step: HostStep) { step.Spawn? ==> step.id !in h.terminals }

  lemma RetainedOrderly(h: Host, current: Scope)
    requires Orderly(h)
    ensures Orderly(Retained(h, current))
  {
  }

  lemma AddedOrderly(h: Host, asked: Scope, key: string, id: string)
    requires Orderly(h) && |h.terminals| < MAX_TERMINALS && h.scope == Some(asked) && !HasKey(h, key)
             && id !in h.terminals
    ensures Orderly(h.(terminals := h.terminals[id := Record(asked, key, Terminal(id, "", 0))],
                       outputs := h.outputs[id := ""]))
  {
  }

  lemma PutOrderly(h: Host, id: string, t: Terminal, output: string)
    requires Orderly(h) && id in h.terminals && t.id == id && Keeps(t, output)
    ensures Orderly(h.(terminals := h.terminals[id := h.terminals[id].(terminal := t)],
                       outputs := h.outputs[id := output]))
  {
    var m := h.terminals[id := h.terminals[id].(terminal := t)];
    assert m.Keys == h.terminals.Keys && |m| == |m.Keys| && |h.terminals| == |h.terminals.Keys|;
    assert Distinct(m) by {
      forall i, j | i in m && j in m && m[i].key == m[j].key ensures i == j {
        assert h.terminals[i].key == m[i].key && h.terminals[j].key == m[j].key;
      }
    }
    var g := h.(terminals := m, outputs := h.outputs[id := output]);
    forall i | i in m ensures Listed(g, i) { assert Listed(h, i); }
  }

  lemma RemovedOrderly(h: Host, id: string)
    requires Orderly(h)
    ensures Orderly(h.(terminals := h.terminals - {id}))
  {
    Fewer(h.terminals, id);
  }

  /** Every step keeps the terminals few, distinct, in scope and with right backlogs. */
  lemma HostDoOrderly(h: Host, step: HostStep)
    requires Orderly(h) && FreshSpawn(h, step)
    ensures Orderly(HostDo(h, step).0)
  {
    match step
    case Open(epoch, current, asked, key) => RetainedOrderly(h, current);
    case Spawn(asked, key, id) =>
      if h.scope == Some(asked) && !HasKey(h, key) && |h.terminals| < MAX_TERMINALS { AddedOrderly(h, asked, key, id); }
    case Close(_, _) =>
    case Stopped(id) => RemovedOrderly(h, id);
    case Data(id, data) => 
      if id in h.terminals {
        var t := Received(h.terminals[id].terminal, data);
        ReceivedKeeps(h.terminals[id].terminal, h.outputs[id], data);
        PutOrderly(h, id, t, h.outputs[id] + data);
      }
    case Retain(current) => RetainedOrderly(h, current);
    case DisposeAll =>
  }

  /** A request that is answered with a terminal gets the one terminal of its key, in the scope it was
      made for, with the end of all that terminal's process has written. */
  lemma OpenedIsTheTerminal(h: Host, step: HostStep)
    requires Orderly(h) && FreshSpawn(h, step) && HostDo(h, step).1.Opened?
    ensures (step.Open? && step.asked == step.current) || step.Spawn?
    ensures var g, s := HostDo(h, step).0, HostDo(h, step).1.snapshot;
            && s.id in g.terminals && g.terminals[s.id].key == step.key && g.terminals[s.id].scope == step.asked
            && (forall i :: i in g.terminals && g.terminals[i].key == step.key ==> i == s.id)
            && g.scope == Some(step.asked) && s.offset == |g.outputs[s.id]|
               && s.backlog == Last(g.outputs[s.id], BACKLOG)
  {
    HostDoOrderly(h, step);
    var g, s := HostDo(h, step).0, HostDo(h, step).1.snapshot;
    assert s.id in g.terminals;
    assert Listed(g, s.id);
  }

  /** The host after the first i steps. */
  ghost function HostAt(steps: seq<HostStep>, i: nat): Host
    requires i <= |steps|
  {
    if i == 0 then IDLE else HostDo(HostAt(steps, i - 1), steps[i - 1]).0
  }

  /** What the host answers to the first i steps. */
  ghost function AnswersTo(steps: seq<HostStep>, i: nat): seq<Reply>
    requires i <= |steps|
  {
    if i == 0 then [] else AnswersTo(steps, i - 1) + [HostDo(HostAt(steps, i - 1), steps[i - 1]).1]
  }

  /** None of the first i steps spawns with the id of a terminal that is listed then. */
  ghost predicate FreshSpawns(steps: seq<HostStep>, i: nat)
    requires i <= |steps|
  {
    i == 0 || (FreshSpawns(steps, i - 1) && FreshSpawn(HostAt(steps, i - 1), steps[i - 1]))
  }

  lemma {:induction false} FreshBefore(steps: seq<HostStep>, i: nat, n: nat)
    requires i <= n <= |steps| && FreshSpawns(steps, n)
    ensures FreshSpawns(steps, i)
    decreases n
  {
    if i < n { FreshBefore(steps, i, n - 1); }
  }

  lemma {:induction false} HostIsOrderly(steps: seq<HostStep>, i: nat)
    requires i <= |steps| && FreshSpawns(steps, i)
    ensures Orderly(HostAt(steps, i))
  {
    if i > 0 {
      HostIsOrderly(steps, i - 1);
      HostDoOrderly(HostAt(steps, i - 1), steps[i - 1]);
    }
  }

  /** The terminals that were asked to close, and whose processes are being stopped. */
  ghost function ClosingAt(steps: seq<HostStep>, i: nat): set<string>
    requires i <= |steps|
    ensures ClosingAt(steps, i) <= HostAt(steps, i).terminals.Keys
  {
    if i == 0 then {}
    else
      var before, step := HostAt(steps, i - 1), steps[i - 1];
      (ClosingAt(steps, i - 1) + if step.Close? && Stops(before, step.id, step.asked) then {step.id} else {})
      * HostAt(steps, i).terminals.Keys
  }

  /** The request is for the key of a terminal that is being stopped, and no check refuses it. */
  ghost predicate AsksForClosing(h: Host, closing: set<string>, step: HostStep) {
    && (if step.Open? then !Stale(h, step.epoch, step.current) && step.asked == step.current && |step.key| <= MAX_KEY
        else step.Spawn?)
    && h.scope == Some(step.asked)
    && exists id :: id in closing && id in h.terminals && h.terminals[id].key == step.key
  }

  /** The answer is a terminal that is being stopped. */
  predicate GivesClosing(reply: Reply, closing: set<string>) { reply.Opened? && reply.snapshot.id in closing }

  ghost function ReplyTo(steps: seq<HostStep>, i: nat): Reply
    requires i < |steps|
  {
    HostDo(HostAt(steps, i), steps[i]).1
  }

  lemma {:induction false} AnswerAt(steps: seq<HostStep>, n: nat, i: nat)
    requires i < n <= |steps|
    ensures |AnswersTo(steps, n)| == n && AnswersTo(steps, n)[i] == ReplyTo(steps, i)
    decreases n
  {
    if n > 1 {
      AnswerAt(steps, n - 1, if i < n - 1 then i else 0);
    }
  }

  lemma GivesWhenAsked(h: Host, closing: set<string>, step: HostStep)
    requires Orderly(h) && closing <= h.terminals.Keys && FreshSpawn(h, step)
    ensures GivesClosing(HostDo(h, step).1, closing) <==> AsksForClosing(h, closing, step)
  {
    var reply := HostDo(h, step).1;
    if GivesClosing(reply, closing) {
      OpenedIsTheTerminal(h, step);
      assert Listed(h, reply.snapshot.id);
    }
    if AsksForClosing(h, closing, step) {
      var id :| id in closing && id in h.terminals && h.terminals[id].key == step.key;
      assert HasKey(h, step.key) && WithKey(h, step.key) == id && Listed(h, id);
    }
  }

  /** In any run, a request is answered with a terminal that has been asked to close exactly when it is for
      that terminal's key, in its scope, and its process has not stopped. */
  lemma ClosingIsAnswered(steps: seq<HostStep>, i: nat)
    requires i < |steps| && FreshSpawns(steps, |steps|)
    ensures |AnswersTo(steps, |steps|)| == |steps|
    ensures GivesClosing(AnswersTo(steps, |steps|)[i], ClosingAt(steps, i))
       <==> AsksForClosing(HostAt(steps, i), ClosingAt(steps, i), steps[i])
  {
    AnswerAt(steps, |steps|, i);
    ReplyWhenAsked(steps, i);
  }

  lemma ReplyWhenAsked(steps: seq<HostStep>, i: nat)
    requires i < |steps| && FreshSpawns(steps, |steps|)
    ensures GivesClosing(ReplyTo(steps, i), ClosingAt(steps, i))
       <==> AsksForClosing(HostAt(steps, i), ClosingAt(steps, i), steps[i])
  {
    OrderlyAt(steps, i);
    GivesWhenAsked(HostAt(steps, i), ClosingAt(steps, i), steps[i]);
  }

  lemma OrderlyAt(steps: seq<HostStep>, i: nat)
    requires i < |steps| && FreshSpawns(steps, |steps|)
    ensures Orderly(HostAt(steps, i)) && FreshSpawn(HostAt(steps, i), steps[i])
  {
    FreshBefore(steps, i, |steps|);
    HostIsOrderly(steps, i);
    FreshAt(steps, i, |steps|);
  }

  lemma {:induction false} FreshAt(steps: seq<HostStep>, i: nat, n: nat)
    requires i < n <= |steps| && FreshSpawns(steps, n)
    ensures FreshSpawn(HostAt(steps, i), steps[i])
    decreases n
  {
    if i == n - 1 {
      assert FreshSpawn(HostAt(steps, n - 1), steps[n - 1]);
    } else {
      FreshAt(steps, i, n - 1);
    }
  }

  /** A terminal is opened and closed, and opened again before its process has stopped. */
  function Reopening(s: Scope): seq<HostStep> {
    [Open(0, s, s, "tab"), Spawn(s, "tab", "1"), Close("1", s), Open(1, s, s, "tab")]
  }

  lemma ReopenedWhileClosing(s: Scope)
    ensures var steps := Reopening(s);
            FreshSpawns(steps, 4) && GivesClosing(ReplyTo(steps, 3), ClosingAt(steps, 3))
  {
    var steps := Reopening(s);
    var h := Host(Some(s), 1, map["1" := Record(s, "tab", Terminal("1", "", 0))], map["1" := ""]);
    AfterTwo(s);
    assert HostAt(steps, 3) == h && ClosingAt(steps, 3) == {"1"};
    assert h.terminals["1"].key == "tab" && HasKey(h, "tab");
    assert FreshSpawns(steps, 4);
  }

  lemma AfterTwo(s: Scope)
    ensures var steps := Reopening(s);
            && HostAt(steps, 2) == Host(Some(s), 1, map["1" := Record(s, "tab", Terminal("1", "", 0))], map["1" := ""])
            && FreshSpawns(steps, 2) && ClosingAt(steps, 2) == {}
  {
    var steps := Reopening(s);
    assert HostAt(steps, 0) == IDLE && FreshSpawns(steps, 0) && ClosingAt(steps, 0) == {};
    assert HostAt(steps, 1) == Host(Some(s), 1, map[], map[]);
    assert FreshSpawns(steps, 1) && ClosingAt(steps, 1) == {};
    assert !HasKey(HostAt(steps, 1), "tab");
  }

  /** From step j up to step i the host only hears of scope s, or of no scope. */
  predicate SameScope(steps: seq<HostStep>, s: Scope, j: nat, i: nat)
    requires i <= |steps|
  {
    forall k :: j <= k < i ==>
      && (steps[k].Open? || steps[k].Retain? ==> steps[k].current == s)
      && !steps[k].DisposeAll?
  }

  lemma {:induction false} ScopeIsKept(steps: seq<HostStep>, s: Scope, j: nat, i: nat)
    requires j <= i <= |steps| && SameScope(steps, s, j, i)
    ensures HostAt(steps, i).epoch == HostAt(steps, j).epoch || HostAt(steps, i).scope == Some(s)
    decreases i
  {
    if j < i {
      ScopeIsKept(steps, s, j, i - 1);
      ScopeStep(HostAt(steps, i - 1), steps[i - 1], s);
    }
  }

  lemma ScopeStep(h: Host, step: HostStep, s: Scope)
    requires (step.Open? || step.Retain? ==> step.current == s) && !step.DisposeAll?
    ensures var g := HostDo(h, step).0; (g.epoch == h.epoch && g.scope == h.scope) || g.scope == Some(s)
  {
  }

  /** A request is not refused because others of its own scope have crossed it: one that was sent at step j
      and is looked at in step i is refused as stale only if it was made for another scope than the backend
      names. */
  lemma CrossingRequestsPass(steps: seq<HostStep>, s: Scope, j: nat, i: nat)
    requires j <= i < |steps| && SameScope(steps, s, j, i)
    requires steps[i].Open? && steps[i].epoch == HostAt(steps, j).epoch && steps[i].current == s
    ensures ReplyTo(steps, i) == Refused("STALE_WORKSPACE") <==> steps[i].asked != s
    ensures HostDo(HostAt(steps, i), steps[i]).0.scope == Some(s)
  {
    ScopeIsKept(steps, s, j, i);
    PassesWhenKept(HostAt(steps, i), steps[i], s);
  }

  lemma PassesWhenKept(h: Host, step: HostStep, s: Scope)
    requires step.Open? && step.current == s && (h.epoch == step.epoch || h.scope == Some(s))
    ensures HostDo(h, step).1 == Refused("STALE_WORKSPACE") <==> step.asked != s
    ensures HostDo(h, step).0.scope == Some(s)
  {
  }

  /** One that another scope has overtaken is refused, and changes nothing. */
  lemma OvertakenIsRefused(h: Host, step: HostStep)
    requires step.Open? && step.epoch != h.epoch && h.scope != Some(step.current)
    ensures HostDo(h, step) == (h, Refused("STALE_WORKSPACE"))
  {
  }

  /** NativeWorkbench, as far as terminals go. Each method is one stretch of code between two awaits, so
      that any order of calls is an interleaving of requests. */
  class NativeWorkbench {
    var scope: Option<Scope>
    var scopeEpoch: nat
    var terminals: map<string, Record>
    ghost var outputs: map<string, string>

    ghost function State(): Host
      reads this
    {
      Host(scope, scopeEpoch, terminals, outputs)
    }

    constructor ()
      ensures State() == IDLE
    {
      scope, scopeEpoch, terminals, outputs := None, 0, map[], map[];
    }

    /** dispose: what stops the processes happens outside the model. */
    method Dispose()
      modifies this
      ensures State() == Disposed(old(State()))
    {
      scopeEpoch := scopeEpoch + 1;
      terminals := map[];
      outputs := map[];
      scope := None;
    }

    method RetainScope(current: Scope)
      modifies this
      ensures State() == Retained(old(State()), current)
    {
      if scope == Some(current) { return; }
      Dispose();
      scope := Some(current);
    }

    /** checkedScope after the backend's answer: a request that was overtaken by a change to another
        scope is refused and changes nothing; otherwise the answer becomes the scope, and the request
        goes on only when it was made for it. */
    method CheckedScope(epoch: nat, current: Scope, asked: Scope) returns (ok: bool)
      modifies this
      ensures var h := old(State());
              if Stale(h, epoch, current) then !ok && State() == h
              else State() == Retained(h, current) && (ok <==> asked == current)
    {
      if epoch != scopeEpoch && scope != Some(current) { return false; }
      RetainScope(current);
      return asked == current;
    }

    method Find(key: string) returns (found: Option<Snapshot>)
      requires Orderly(State())
      ensures found == if HasKey(State(), key) then Some(SnapshotAt(State(), key)) else None
    {
      if i :| i in terminals && terminals[i].key == key {
        assert HasKey(State(), key) && WithKey(State(), key) == i;
        var t := terminals[i].terminal;
        return Some(Snapshot(t.id, t.backlog, t.offset));
      }
      return None;
    }

    /** terminal.open up to the import of the terminal library. */
    method OpenTerminal(epoch: nat, current: Scope, asked: Scope, key: string) returns (reply: Reply)
      requires Orderly(State())
      modifies this
      ensures (State(), reply) == HostDo(old(State()), Open(epoch, current, asked, key))
    {
      HostDoOrderly(State(), Retain(current));
      var ok := CheckedScope(epoch, current, asked);
      if !ok { return Refused("STALE_WORKSPACE"); }
      if |key| > MAX_KEY { return Refused("KEY"); }
      var found := Find(key);
      if found.Some? { return Opened(found.value); }
      if |terminals| >= MAX_TERMINALS { return Refused("LIMIT"); }
      return Spawning(current);
    }

    /** terminal.open after the import, which other requests may have overtaken: everything is checked
        again before the process is spawned. The id is a fresh random one. */
    method SpawnTerminal(asked: Scope, key: string, id: string) returns (reply: Reply)
      requires Orderly(State())
      modifies this
      ensures (State(), reply) == HostDo(old(State()), Spawn(asked, key, id))
    {
      if scope != Some(asked) { return Refused("STALE_WORKSPACE"); }
      var found := Find(key);
      if found.Some? { return Opened(found.value); }
      if |terminals| >= MAX_TERMINALS { return Refused("LIMIT"); }
      terminals := terminals[id := Record(asked, key, Terminal(id, "", 0))];
      outputs := outputs[id := ""];
      return Opened(Snapshot(id, "", 0));
    }

    /** The output callback of a process whose terminal is still listed. */
    method OnData(id: string, data: string) returns (e: OutputEvent)
      requires Orderly(State()) && id in terminals
      modifies `terminals, `outputs
      ensures State() == HostDo(old(State()), Data(id, data)).0
      ensures e == OutputEvent(id, data, |outputs[id]|)
    {
      var t;
      t, e := Receive(terminals[id].terminal, data, outputs[id]);
      terminals := terminals[id := terminals[id].(terminal := t)];
      outputs := outputs[id := outputs[id] + data];
    }

    /** terminal.close when it starts: only the terminal's own scope has its process stopped, and whoever
        asks is told that it is done. */
    method CloseTerminal(id: string, asked: Scope) returns (reply: Reply, stops: bool)
      ensures (State(), reply) == HostDo(State(), Close(id, asked)) && (stops <==> Stops(State(), id, asked))
    {
      return Done, id in terminals && terminals[id].scope == asked;
    }

    /** terminal.close once the process has stopped. */
    method Stopped(id: string)
      modifies `terminals
      ensures State() == HostDo(old(State()), HostStep.Stopped(id)).0
    {
      terminals := terminals - {id};
    }

    /** Any one step. */
    method Take(step: HostStep) returns (reply: Reply)
      requires Orderly(State())
      modifies this
      ensures (State(), reply) == HostDo(old(State()), step)
    {
      reply := Done;
      match step {
        case Open(epoch, current, asked, key) => reply := OpenTerminal(epoch, current, asked, key);
        case Spawn(asked, key, id) => reply := SpawnTerminal(asked, key, id);
        case Close(id, asked) => var stops; reply, stops := CloseTerminal(id, asked);
        case Stopped(id) => Stopped(id);
        case Data(id, data) => if id in terminals { var _ := OnData(id, data); }
        case Retain(current) => RetainScope(current);
        case DisposeAll => Dispose();
      }
    }
  }

  lemma Fewer(m: map<string, Record>, id: string)
    ensures |m - {id}| <= |m|
  {
    assert (m - {id}).Keys <= m.Keys;
    Smaller((m - {id}).Keys, m.Keys);
  }

  lemma Smaller(a: set<string>, b: set<string>)
    requires a <= b
    ensures |a| <= |b|
  {
    if a != {} {
      var x :| x in a;
      Smaller(a - {x}, b - {x});
    }
  }

  method Next(host: NativeWorkbench, steps: seq<HostStep>, i: nat, replies: seq<Reply>) returns (replies': seq<Reply>)
    requires i < |steps| && FreshSpawns(steps, |steps|)
    requires host.State() == HostAt(steps, i) && replies == AnswersTo(steps, i)
    modifies host
    ensures host.State() == HostAt(steps, i + 1) && replies' == AnswersTo(steps, i + 1)
  {
    FreshBefore(steps, i, |steps|);
    HostIsOrderly(steps, i);
    var reply := host.Take(steps[i]);
    replies' := replies + [reply];
  }

  /** Any interleaving of requests and callbacks: the host goes through exactly what the steps say, answers
      each as it should, and at every moment its terminals are few, distinct, in scope and have the right
      backlogs. */
  method Requests(steps: seq<HostStep>) returns (host: NativeWorkbench, replies: seq<Reply>)
    requires FreshSpawns(steps, |steps|)
    ensures host.State() == HostAt(steps, |steps|) && Orderly(host.State())
    ensures replies == AnswersTo(steps, |steps|)
  {
    host := new NativeWorkbench();
    replies := [];
    for i := 0 to |steps|
      invariant fresh(host) && host.State() == HostAt(steps, i) && replies == AnswersTo(steps, i)
    {
      replies := Next(host, steps, i, replies);
    }
    HostIsOrderly(steps, |steps|);
  }
}
