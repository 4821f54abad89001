/** The terminal as a small machine. The tape is everything the terminal holds, oldest row first:
    the rows that have scrolled off the top, then the `height` rows on the screen. The cursor row is
    an index into the tape; relative moves are clamped to the screen, and a line feed on the last
    row scrolls. A row holds the cells written since it was last cleared. */
module Terminal {
  import opened Text

  type Row = seq<Cell>

  datatype Command =
    | SyncBegin
    | SyncEnd
    | ShowCursor
    | HideCursor
    | Up(n: nat)
    | Down(n: nat)
    | Column(n: nat)
    | CarriageReturn
    | LineFeed
    | Home
    | ClearScreen
    | ClearScrollback
    | ClearLine
    | Print(line: Line)

  datatype Tty = Tty(cols: nat, height: nat, delayedWrap: bool, tape: seq<Row>, row: nat, col: nat) {
    predicate Valid() {
      && 1 <= cols
      && 1 <= height <= |tape|
      && Top() <= row < |tape|
      && col <= cols
      && (!delayedWrap ==> col < cols)
    }

    /** How many rows have scrolled off: the tape index of the first screen row. */
    function Top(): int { |tape| - height }

    function Screen(): seq<Row>
      requires Valid()
    {
      tape[Top()..]
    }

    function Scrollback(): seq<Row>
      requires Valid()
    {
      tape[..Top()]
    }
  }

  type Screen = t: Tty | t.Valid() witness Tty(1, 1, true, [[]], 0, 0)

  function Max(a: int, b: int): int { if a < b then b else a }

  function Min(a: int, b: int): int { if a < b then a else b }

  function Feed(t: Screen): Screen {
    if t.row + 1 < |t.tape| then t.(row := t.row + 1) else t.(tape := t.tape + [[]], row := t.row + 1)
  }

  /** One cell at the cursor. With delayed wrap the cursor waits past the last column and wraps on
      the next cell; without it, filling the last column moves to the next row at once. */
  function Put(t: Screen, cell: Cell): Screen {
    var s: Screen := if t.col == t.cols then Feed(t).(col := 0) else t;
    var was := s.tape[s.row];
    var row := if s.col < |was| then was[s.col := cell]
               else was + seq(s.col - |was|, i => Blank) + [cell];
    var u := s.(tape := s.tape[s.row := row]);
    if !s.delayedWrap && s.col + 1 == s.cols then Feed(u).(col := 0) else u.(col := s.col + 1)
  }

  function PutAll(t: Screen, cells: seq<Cell>): Screen {
    if cells == [] then t else Put(PutAll(t, cells[..|cells| - 1]), cells[|cells| - 1])
  }

  function Exec(t: Screen, c: Command): Screen {
    match c
    case Up(n) => t.(row := Max(t.Top(), t.row - n))
    case Down(n) => t.(row := Min(|t.tape| - 1, t.row + n))
    case Column(n) => t.(col := Min(t.cols - 1, Max(0, n - 1)))
    case CarriageReturn => t.(col := 0)
    case LineFeed => Feed(t)
    case Home => t.(row := t.Top(), col := 0)
    case ClearScreen => t.(tape := t.tape[..t.Top()] + seq(t.height, i => []))
    case ClearScrollback => t.(tape := t.tape[t.Top()..], row := t.row - t.Top())
    case ClearLine => t.(tape := t.tape[t.row := []])
    case Print(line) => PutAll(t, Paint(line))
    case _ => t
  }

  /** What the terminal is after the commands have been written to it. */
  function Run(t: Screen, cmds: seq<Command>): Screen {
    if cmds == [] then t else Exec(Run(t, cmds[..|cmds| - 1]), cmds[|cmds| - 1])
  }

  /** Writing the commands takes the terminal from t to u, through the states of some trace. */
  ghost predicate Writes(t: Screen, cmds: seq<Command>, u: Screen) {
    exists trace: seq<Screen> :: IsTrace(trace, t, cmds, u)
  }

  ghost predicate IsTrace(trace: seq<Screen>, t: Screen, cmds: seq<Command>, u: Screen) {
    && |trace| == |cmds| + 1 && trace[0] == t && trace[|cmds|] == u
    && forall i :: 0 <= i < |cmds| ==> trace[i + 1] == Exec(trace[i], cmds[i])
  }

  lemma WritesNothing(t: Screen)
    ensures Writes(t, [], t)
  {
    assert IsTrace([t], t, [], t);
  }

  lemma WritesOne(base: Screen, buf: seq<Command>, t: Screen, c: Command)
    requires Writes(base, buf, t)
    ensures Writes(base, buf + [c], Exec(t, c))
  {
    var trace :| IsTrace(trace, base, buf, t);
    assert IsTrace(trace + [Exec(t, c)], base, buf + [c], Exec(t, c));
  }

  lemma WritesTwo(base: Screen, buf: seq<Command>, t: Screen, c: Command, d: Command)
    requires Writes(base, buf, t)
    ensures Writes(base, buf + [c, d], Exec(Exec(t, c), d))
  {
    WritesOne(base, buf, t, c);
    WritesOne(base, buf + [c], Exec(t, c), d);
    assert buf + [c] + [d] == buf + [c, d];
  }

  /** The end of the trace is what running the commands computes. */
  lemma {:induction false} WritesIsRun(t: Screen, cmds: seq<Command>, u: Screen)
    requires Writes(t, cmds, u)
    ensures Run(t, cmds) == u
  {
    var trace :| IsTrace(trace, t, cmds, u);
    if cmds != [] {
      var n := |cmds| - 1;
      assert IsTrace(trace[..n + 1], t, cmds[..n], trace[n]);
      WritesIsRun(t, cmds[..n], trace[n]);
    }
  }

  lemma {:induction false} RunIsWritten(t: Screen, cmds: seq<Command>)
    ensures Writes(t, cmds, Run(t, cmds))
  {
    if cmds == [] {
      WritesNothing(t);
    } else {
      var n := |cmds| - 1;
      RunIsWritten(t, cmds[..n]);
      WritesOne(t, cmds[..n], Run(t, cmds[..n]), cmds[n]);
      assert cmds[..n] + [cmds[n]] == cmds;
    }
  }

  /** What is written later goes on from where the terminal is. */
  lemma WritesConcat(t: Screen, a: seq<Command>, u: Screen, b: seq<Command>, v: Screen)
    requires Writes(t, a, u) && Writes(u, b, v)
    ensures Writes(t, a + b, v)
  {
    var first :| IsTrace(first, t, a, u);
    var second :| IsTrace(second, u, b, v);
    var trace := first[..|a|] + second;
    forall i | 0 <= i < |a + b|
      ensures trace[i + 1] == Exec(trace[i], (a + b)[i])
    {
      if i + 1 < |a| {
        assert first[i + 1] == Exec(first[i], a[i]);
      } else if i < |a| {
        assert first[i + 1] == Exec(first[i], a[i]) && second[0] == first[|a|];
      } else {
        assert second[i - |a| + 1] == Exec(second[i - |a|], b[i - |a|]);
      }
    }
    assert IsTrace(trace, t, a + b, v);
  }

  ghost predicate SameDevice(t: Tty, u: Tty) {
    t.cols == u.cols && t.height == u.height && t.delayedWrap == u.delayedWrap
  }

  lemma {:induction false} PutAllSameDevice(t: Screen, cells: seq<Cell>)
    ensures SameDevice(PutAll(t, cells), t)
  {
    if cells != [] { PutAllSameDevice(t, cells[..|cells| - 1]); }
  }

  /** No command changes the size. */
  lemma {:induction false} RunSameDevice(t: Screen, cmds: seq<Command>)
    ensures SameDevice(Run(t, cmds), t)
  {
    if cmds != [] {
      var n := |cmds| - 1;
      RunSameDevice(t, cmds[..n]);
      if cmds[n].Print? { PutAllSameDevice(Run(t, cmds[..n]), Paint(cmds[n].line)); }
    }
  }

  /** The columns a line may fill without moving the cursor to another row. */
  function UsableColumns(t: Tty): nat
    requires t.Valid()
  {
    if t.delayedWrap then t.cols else t.cols - 1
  }

  /** A row after other cells have been written over its start. */
  function Over(was: Row, cells: Row): Row { if |was| <= |cells| then cells else cells + was[|cells|..] }

  /** Text that fits, written from the first column, covers the start of that row and touches no other. */
  lemma {:induction false} PutAllOver(t: Screen, cells: seq<Cell>)
    requires t.col == 0 && |cells| <= UsableColumns(t)
    ensures PutAll(t, cells) == t.(tape := t.tape[t.row := Over(t.tape[t.row], cells)], col := |cells|)
  {
    if cells == [] {
      assert Over(t.tape[t.row], cells) == t.tape[t.row];
      assert t.tape[t.row := t.tape[t.row]] == t.tape;
    } else {
      var m := |cells| - 1;
      PutAllOver(t, cells[..m]);
      var s := PutAll(t, cells[..m]);
      OverMore(t.tape[t.row], cells);
      assert s.tape[s.row := Over(t.tape[t.row], cells)] == t.tape[t.row := Over(t.tape[t.row], cells)];
    }
  }

  lemma OverMore(was: Row, cells: Row)
    requires cells != []
    ensures var m := |cells| - 1;
            var row := Over(was, cells[..m]);
            Over(was, cells) == if m < |row| then row[m := cells[m]] else row + seq(m - |row|, i => Blank) + [cells[m]]
  {
  }

  lemma PrintOver(t: Screen, line: Line)
    requires t.col == 0 && Width(line) <= UsableColumns(t)
    ensures Exec(t, Print(line)) == t.(tape := t.tape[t.row := Over(t.tape[t.row], Paint(line))], col := Width(line))
  {
    PutAllOver(t, Paint(line));
  }

  /** On a cleared row such text is all there is. */
  lemma PrintFits(t: Screen, line: Line)
    requires t.col == 0 && t.tape[t.row] == []
    requires Width(line) <= UsableColumns(t)
    ensures Exec(t, Print(line)) == t.(tape := t.tape[t.row := Paint(line)], col := Width(line))
  {
    PutAllOver(t, Paint(line));
  }

  lemma {:induction false} RowsGrow(t: Screen, cells: seq<Cell>, j: nat)
    requires j <= |cells|
    ensures PutAll(t, cells[..j]).row <= PutAll(t, cells).row
    decreases |cells|
  {
    if j == |cells| {
      assert cells[..j] == cells;
    } else {
      var m := |cells| - 1;
      RowsGrow(t, cells[..m], j);
      assert cells[..m][..j] == cells[..j];
    }
  }

  /** Text from the first column stays on its row if and only if it fits the usable columns. */
  lemma StaysOnRow(t: Screen, line: Line)
    requires t.col == 0
    ensures Exec(t, Print(line)).row == t.row <==> Width(line) <= UsableColumns(t)
  {
    var cells, m := Paint(line), UsableColumns(t);
    if |cells| <= m {
      PutAllOver(t, cells);
    } else {
      TooManyLeave(t, cells, m);
    }
  }

  lemma TooManyLeave(t: Screen, cells: seq<Cell>, m: nat)
    requires t.col == 0 && m == UsableColumns(t) < |cells|
    ensures PutAll(t, cells).row > t.row
  {
    PutAllOver(t, cells[..m]);
    var s := PutAll(t, cells[..m]);
    LeavesRow(s, cells[m]);
    OneMorePut(t, cells, m);
    RowsGrow(t, cells, m + 1);
  }

  lemma OneMorePut(t: Screen, cells: seq<Cell>, m: nat)
    requires m < |cells|
    ensures PutAll(t, cells[..m + 1]) == Put(PutAll(t, cells[..m]), cells[m])
  {
    assert cells[..m + 1][..m] == cells[..m];
  }

  lemma LeavesRow(s: Screen, cell: Cell)
    requires s.col == UsableColumns(s)
    ensures Put(s, cell).row == s.row + 1
  {
  }

  // ---- synchronized output -------------------------------------------------------------------

  /** The last block of synchronized output is not ended. */
  predicate Held(cmds: seq<Command>) {
    cmds != [] && var last := cmds[|cmds| - 1];
                  last.SyncBegin? || (!last.SyncEnd? && Held(cmds[..|cmds| - 1]))
  }

  /** The output ends a block. */
  predicate Releases(cmds: seq<Command>) { cmds != [] && cmds[|cmds| - 1].SyncEnd? }

  lemma {:induction false} NotHeldConcat(a: seq<Command>, b: seq<Command>)
    requires !Held(a) && !Held(b)
    ensures !Held(a + b)
  {
    if b == [] {
      assert a + b == a;
    } else {
      var n := |b| - 1;
      assert (a + b)[..|a + b| - 1] == a + b[..n];
      if !b[n].SyncEnd? { NotHeldConcat(a, b[..n]); }
    }
  }

  lemma {:induction false} NeverBegun(cmds: seq<Command>)
    requires forall i :: 0 <= i < |cmds| ==> !cmds[i].SyncBegin?
    ensures !Held(cmds)
  {
    if cmds != [] { NeverBegun(cmds[..|cmds| - 1]); }
  }
}
