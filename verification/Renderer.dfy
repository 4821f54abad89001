/** The renderer object: the fields of the text user interface that drive differential rendering,
    and the methods that draw a frame. `terminal` is the terminal everything is written to. */
module Renderer {
  import opened Options
  import opened Text
  import opened Layout
  import opened Terminal
  import opened Tui
  import D = DrawnText

  /** The width components are asked to render for: without delayed wrap the last column is left
      alone, because filling it would move the cursor. */
  function FrameWidth(t: Tty): nat {
    if t.delayedWrap then t.cols else Max(1, t.cols - 1)
  }

  /** A full frame line leaves the cursor on its row precisely when the terminal delays wrapping or
      has a column to spare. */
  lemma FullLineStaysOnRow(t: Screen, line: Line)
    requires t.col == 0 && t.tape[t.row] == [] && Width(line) == FrameWidth(t)
    ensures Exec(t, Print(line)).row == t.row <==> t.delayedWrap || t.cols >= 2
  {
    if t.delayedWrap || t.cols >= 2 {
      PrintFits(t, line);
    } else {
      var cells := Paint(line);
      assert |cells| == 1 && cells[..0] == [];
      assert PutAll(t, []) == t;
      assert PutAll(t, cells) == Put(t, cells[0]);
    }
  }

  /** On every other terminal the frame is as wide as a line can be without leaving its row. */
  lemma FrameIsWidest(t: Screen, line: Line)
    requires t.col == 0 && (t.delayedWrap || t.cols >= 2)
    ensures Exec(t, Print(line)).row == t.row <==> Width(line) <= FrameWidth(t)
  {
    StaysOnRow(t, line);
  }

  /** So on a terminal of one column and one row that does not delay wrapping a frame of one full line,
      written as a whole, has scrolled away before anyone sees it. */
  lemma OneColumnFrameIsLost(t: Screen, line: Line)
    requires t.cols == 1 && t.height == 1 && !t.delayedWrap && Width(line) == FrameWidth(t)
    ensures var u := Run(t, [SyncBegin, ClearScreen, Home, ClearScrollback, Print(line), SyncEnd]);
            forall top :: !Shows(u, [line], top)
  {
    var blank := ClearedIsBlank(t);
    var prologue := [SyncBegin] + [ClearScreen, Home, ClearScrollback];
    WritesTwo(t, prologue, blank, Print(line), SyncEnd);
    assert prologue + [Print(line), SyncEnd] == [SyncBegin, ClearScreen, Home, ClearScrollback, Print(line), SyncEnd];
    WritesIsRun(t, prologue + [Print(line), SyncEnd], Exec(blank, Print(line)));
    PrintsOneCell(blank, line);
  }

  lemma PrintsOneCell(t: Screen, line: Line)
    requires t.cols == 1 && t.height == 1 && !t.delayedWrap && BlankScreen(t) && Homed(t) && Width(line) == 1
    ensures var u := Exec(t, Print(line)); u.tape == [Paint(line), []] && forall top :: !Shows(u, [line], top)
  {
    var cells := Paint(line);
    assert |cells| == 1 && cells == [cells[0]];
    PutAllOfOne(t, cells[0]);
    PutsOneCell(t, cells[0]);
    NothingShown(Exec(t, Print(line)), line);
  }

  lemma PutAllOfOne(t: Screen, cell: Cell)
    ensures PutAll(t, [cell]) == Put(t, cell)
  {
    assert [cell][..0] == [] && PutAll(t, []) == t;
  }

  lemma PutsOneCell(t: Screen, cell: Cell)
    requires t.cols == 1 && t.height == 1 && !t.delayedWrap && BlankScreen(t) && Homed(t)
    ensures Put(t, cell).tape == [[cell], []] && Put(t, cell).height == 1
  {
    assert t.tape == [[]] && t.tape[0 := [cell]] == [[cell]] && [] + seq(0, i => Blank) + [cell] == [cell];
  }

  lemma NothingShown(u: Screen, line: Line)
    requires u.tape == [Paint(line), []] && u.height == 1
    ensures forall top :: !Shows(u, [line], top)
  {
    assert u.Top() == 1;
  }

  function LineAt(lines: seq<Line>, i: nat): Line {
    if i < |lines| then lines[i] else []
  }

  /** Where the first and the last change to m lines that become n lines can be. */
  predicate ChangeBounds(m: nat, n: nat, first: int, last: int) {
    && 0 <= first <= last && first <= n && first <= m
    && (n == m ==> last < n)
    && (n > m ==> last == n - 1)
    && (m > n ==> last == m - 1)
  }

  /** What the comparison of two frames establishes. */
  ghost predicate Changes(before: seq<Line>, after: seq<Line>, first: int, last: int) {
    var n, m := |after|, |before|;
    if first == -1 then before == after
    else
      && ChangeBounds(m, n, first, last)
      && (forall k :: 0 <= k < first ==> before[k] == after[k])
      && (forall k :: last < k < n && k < m ==> before[k] == after[k])
      && (first < n && first < m ==> before[first] != after[first])
      && (last < n && last < m ==> before[last] != after[last])
  }

  ghost predicate NonEmpty(lines: seq<Line>) {
    forall k :: 0 <= k < |lines| ==> lines[k] != []
  }

  ghost predicate Narrow(lines: seq<Line>, width: int) {
    forall k :: 0 <= k < |lines| ==> Width(lines[k]) <= width
  }

  method FindChanges(before: seq<Line>, after: seq<Line>) returns (first: int, last: int)
    requires NonEmpty(before) && NonEmpty(after)
    ensures Changes(before, after, first, last)
  {
    first, last := -1, -1;
    var maxLines := Max(|after|, |before|);
    for i := 0 to maxLines
      invariant -1 <= first <= last < i
      invariant first == -1 ==> last == -1
      invariant forall k :: 0 <= k < i && (first == -1 || k < first || k > last) ==>
                  LineAt(before, k) == LineAt(after, k)
      invariant first != -1 ==> LineAt(before, first) != LineAt(after, first)
      invariant last != -1 ==> LineAt(before, last) != LineAt(after, last)
      invariant i > |after| || i > |before| ==> first != -1 && last == i - 1
      invariant first <= |after| && first <= |before|
    {
      if LineAt(before, i) != LineAt(after, i) {
        if first == -1 {
          first := i;
        }
        last := i;
      }
    }
    if first == -1 {
      forall k | 0 <= k < |after|
        ensures before[k] == after[k]
      {
        assert LineAt(before, k) == LineAt(after, k);
      }
    } else {
      forall k | 0 <= k < |after| && k < |before| && (k < first || k > last)
        ensures before[k] == after[k]
      {
        assert LineAt(before, k) == LineAt(after, k);
      }
    }
    var appended := |after| > |before|;
    if appended {
      if first == -1 {
        first := |before|;
      }
      last := |after| - 1;
    }
  }

  /** Strips the markers and reports the lowest one inside the viewport. */
  method ExtractCursorPosition(lines: seq<Line>, height: nat, viewportTop: nat)
    returns (stripped: seq<Line>, selected: Option<(nat, nat)>)
    ensures |stripped| == |lines|
    ensures forall k :: 0 <= k < |lines| ==> stripped[k] == StripMarker(lines[k])
    ensures selected == CursorIn(lines, viewportTop, height, 0)
  {
    stripped, selected := lines, None;
    var row := |lines|;
    while row > 0
      invariant 0 <= row <= |lines| && StrippedFrom(stripped, lines, row)
      invariant selected == CursorIn(lines, viewportTop, height, row)
    {
      row := row - 1;
      stripped, selected := StripRow(stripped, selected, row, height, viewportTop, lines);
    }
  }

  /** The rows from `row` on have lost their markers. */
  ghost predicate StrippedFrom(stripped: seq<Line>, lines: seq<Line>, row: int) {
    && |stripped| == |lines|
    && forall k {:trigger stripped[k]} :: 0 <= k < |lines| ==>
         stripped[k] == if k < row then lines[k] else StripMarker(lines[k])
  }

  method StripRow(rows: seq<Line>, found: Option<(nat, nat)>, row: nat, height: nat, viewportTop: nat,
                  ghost lines: seq<Line>)
    returns (stripped: seq<Line>, selected: Option<(nat, nat)>)
    requires row < |lines| && StrippedFrom(rows, lines, row + 1)
             && found == CursorIn(lines, viewportTop, height, row + 1)
    ensures StrippedFrom(stripped, lines, row) && selected == CursorIn(lines, viewportTop, height, row)
  {
    var rest, column := StripLine(rows[row]);
    stripped, selected := rows[row := rest], found;
    if column.Some? && found.None? && viewportTop <= row < viewportTop + height {
      selected := Some((row, column.value));
    }
  }

  /** The line without its marker, and the marker's column. */
  method StripLine(line: Line) returns (rest: Line, column: Option<nat>)
    ensures rest == StripMarker(line) && column == MarkerColumn(line)
  {
    var idx := IndexOf(line, CURSOR_MARKER);
    if idx == -1 {
      return line, None;
    }
    return line[..idx] + line[idx + 1..], Some(Width(line[..idx]));
  }

  /** Clips every line to the width and closes its styles. */
  method FitAndReset(stripped: seq<Line>, ghost lines: seq<Line>, width: nat) returns (drawn: seq<Line>)
    requires |stripped| == |lines|
    requires forall k :: 0 <= k < |lines| ==> stripped[k] == StripMarker(lines[k])
    ensures drawn == DrawnLines(lines, width)
    ensures NonEmpty(drawn) && Narrow(drawn, width)
  {
    drawn := stripped;
    for i := 0 to |stripped|
      invariant |drawn| == |lines|
      invariant forall k :: i <= k < |lines| ==> drawn[k] == stripped[k]
      invariant forall k :: 0 <= k < i ==> drawn[k] == Fit(stripped[k], width)
    {
      var fitted := FitLineToWidth(drawn[i], width);
      drawn := drawn[i := fitted];
    }
    for i := 0 to |stripped|
      invariant |drawn| == |lines|
      invariant forall k :: i <= k < |lines| ==> drawn[k] == Fit(stripped[k], width)
      invariant forall k :: 0 <= k < i ==> drawn[k] == Drawn(lines[k], width)
    {
      drawn := drawn[i := Normalize(drawn[i]) + SEGMENT_RESET];
    }
    forall k | 0 <= k < |lines|
      ensures drawn[k] != [] && Width(drawn[k]) <= width
    {
      DrawnFits(lines[k], width);
    }
  }

  /** Line j lies between the first and the last line that differ. */
  ghost predicate Rewritten(before: seq<Line>, after: seq<Line>, j: int) {
    exists a, b :: 0 <= a <= j <= b && LineAt(before, a) != LineAt(after, a) && LineAt(before, b) != LineAt(after, b)
  }

  lemma RewrittenRange(before: seq<Line>, after: seq<Line>, first: int, last: int, j: int)
    requires NonEmpty(before) && NonEmpty(after) && Changes(before, after, first, last)
    ensures Rewritten(before, after, j) <==> first != -1 && first <= j <= last
  {
    if a, b :| 0 <= a <= j <= b && LineAt(before, a) != LineAt(after, a) && LineAt(before, b) != LineAt(after, b) {
      assert first != -1 && first <= a && b <= last;
    }
    if first != -1 && first <= j <= last {
      assert LineAt(before, first) != LineAt(after, first) && LineAt(before, last) != LineAt(after, last);
    }
  }

  lemma UnchangedRow(before: seq<Line>, after: seq<Line>, j: nat)
    requires !Rewritten(before, after, j)
    ensures LineAt(before, j) == LineAt(after, j) && RowOf(before, j) == RowOf(after, j)
  {
  }

  /** The terminal holds the lines, its screen starts at line `top`, and its cursor is on `row`. */
  ghost predicate InStep(t: Screen, lines: seq<Line>, top: int, row: int) {
    && Holds(t, lines)
    && t.Top() == top
    && t.row == row
    && |lines| <= top + t.height
    && top <= Max(0, |lines| - 1)
  }

  /** The screen row the cursor is on is the one it has with the cursor on line `row` and line `top` at
      the top of the screen, whatever the screen shows. */
  ghost predicate Aligned(t: Screen, top: int, row: int) { t.row - t.Top() == row - top }

  /** What can be recorded of n lines drawn on a screen of this height. */
  predicate Sensible(n: nat, top: int, row: int, height: int) {
    0 <= top <= Max(0, n - 1) && n <= top + height && top <= row < top + height
  }

  /** How many more rows have scrolled off than lines are taken to. */
  function Shift(t: Screen, top: int): int { t.Top() - top }

  function OldRow(tape: seq<Row>, k: int): Row { if 0 <= k < |tape| then tape[k] else [] }

  /** The old tape with the lines from a up to b in their rows, where line j belongs in row j + d. */
  ghost predicate PatchedRows(tape: seq<Row>, was: seq<Row>, lines: seq<Line>, a: int, b: int, d: int) {
    forall k {:trigger tape[k]} :: 0 <= k < |tape| ==>
      tape[k] == if a <= k - d < b then RowOf(lines, k - d) else OldRow(was, k)
  }

  ghost predicate Patched(t: Screen, t0: Screen, lines: seq<Line>, a: int, b: int, d: int) {
    SameDevice(t, t0) && PatchedRows(t.tape, t0.tape, lines, a, b, d)
  }

  /** Drawing in progress: the lines from a up to b are drawn, and the tape reaches no further than it must. */
  ghost predicate Drawing(t: Screen, t0: Screen, lines: seq<Line>, a: int, b: int, d: int) {
    Patched(t, t0, lines, a, b, d) && |t.tape| == Max(|t0.tape|, b + d)
  }

  /** The next row of a drawing is reached, on the screen or by scrolling. */
  ghost predicate AtRow(t: Screen, t0: Screen, lines: seq<Line>, a: int, i: int, d: int) {
    Patched(t, t0, lines, a, i, d) && |t.tape| == Max(|t0.tape|, i + d + 1) && t.row == i + d && t.col == 0
  }

  lemma NewLineDraws(t: Screen, t0: Screen, lines: seq<Line>, a: int, i: int, d: int)
    requires t.row == i + d - 1 && Drawing(t, t0, lines, a, i, d)
    ensures AtRow(NextLine(t), t0, lines, a, i, d)
  {
  }

  lemma RowDrawn(t: Screen, u: Screen, t0: Screen, lines: seq<Line>, a: int, i: nat, d: int)
    requires AtRow(t, t0, lines, a, i, d) && a <= i < |lines|
    requires u == t.(tape := t.tape[t.row := Paint(lines[i])], col := Width(lines[i]))
    ensures Drawing(u, t0, lines, a, i + 1, d) && u.row == i + d
  {
  }

  /** The output that rewrites the lines from `first` up to `end`, one under the other. */
  function Rewriting(lines: seq<Line>, first: nat, end: nat): seq<Command>
    requires first <= end <= |lines|
    decreases end
  {
    if first == end then []
    else Rewriting(lines, first, end - 1) + (if end - 1 == first then [] else CRLF) + [ClearLine, Print(lines[end - 1])]
  }

  /** Whatever screen it is written to, the lines are then in their rows from where the cursor was. */
  lemma {:induction false} RewritingDraws(lines: seq<Line>, first: nat, end: nat, buf: seq<Command>, t0: Screen,
                                          t1: Screen, d: int) returns (t: Screen)
    requires first < end <= |lines| && Narrow(lines, UsableColumns(t0))
    requires Writes(t0, buf, t1) && AtRow(t1, t0, lines, first, first, d)
    ensures Writes(t0, buf + Rewriting(lines, first, end), t) && Drawing(t, t0, lines, first, end, d)
            && t.row == end - 1 + d
    decreases end
  {
    if end - 1 == first {
      assert Rewriting(lines, first, first) + [] + [ClearLine, Print(lines[first])] == [ClearLine, Print(lines[first])];
      t := DrawOne(lines, first, first, buf, t0, t1, d);
    } else {
      var u := RewritingDraws(lines, first, end - 1, buf, t0, t1, d);
      var done := buf + Rewriting(lines, first, end - 1);
      NewLine(t0, done, u);
      NewLineDraws(u, t0, lines, first, end - 1, d);
      t := DrawOne(lines, first, end - 1, done + CRLF, t0, NextLine(u), d);
      Grouped(buf, Rewriting(lines, first, end - 1), CRLF, [ClearLine, Print(lines[end - 1])]);
    }
  }

  lemma Grouped(a: seq<Command>, b: seq<Command>, c: seq<Command>, d: seq<Command>)
    ensures a + b + c + d == a + (b + c + d)
  {
  }

  lemma DrawOne(lines: seq<Line>, first: nat, i: nat, buf: seq<Command>, t0: Screen, t: Screen, d: int)
    returns (u: Screen)
    requires first <= i < |lines| && Narrow(lines, UsableColumns(t0))
    requires Writes(t0, buf, t) && AtRow(t, t0, lines, first, i, d)
    ensures Writes(t0, buf + [ClearLine, Print(lines[i])], u) && Drawing(u, t0, lines, first, i + 1, d)
            && u.row == i + d
  {
    Rewrite(t0, buf, t, lines[i]);
    u := t.(tape := t.tape[t.row := Paint(lines[i])], col := Width(lines[i]));
    RowDrawn(t, u, t0, lines, first, i, d);
  }

  /** The changed lines, from the row the cursor is on. */
  method RewriteLines(buf0: seq<Command>, lines: seq<Line>, first: nat, end: nat, ghost t0: Screen, ghost t1: Screen,
                      ghost d: int)
    returns (buf: seq<Command>, ghost t: Screen)
    requires first < end <= |lines| && Narrow(lines, UsableColumns(t0))
    requires Writes(t0, buf0, t1) && AtRow(t1, t0, lines, first, first, d)
    ensures Writes(t0, buf, t) && Drawing(t, t0, lines, first, end, d) && t.row == end - 1 + d
    ensures buf == buf0 + Rewriting(lines, first, end)
  {
    buf := buf0;
    for i := first to end
      invariant buf == buf0 + Rewriting(lines, first, i)
    {
      Grouped(buf0, Rewriting(lines, first, i), if i == first then [] else CRLF, [ClearLine, Print(lines[i])]);
      if i > first {
        buf := buf + CRLF;
      }
      buf := buf + [ClearLine, Print(lines[i])];
    }
    t := RewritingDraws(lines, first, end, buf0, t0, t1, d);
  }

  // ---- printing everything -----------------------------------------------------------------------

  /** The old tape with the first n lines printed over what was there, line 0 in row d. */
  ghost predicate PrintedRows(tape: seq<Row>, was: seq<Row>, lines: seq<Line>, n: nat, d: nat) {
    forall k {:trigger tape[k]} :: 0 <= k < |tape| ==>
      tape[k] == if 0 <= k - d < n then Over(OldRow(was, k), RowOf(lines, k - d)) else OldRow(was, k)
  }

  ghost predicate Printed(t: Screen, t0: Screen, lines: seq<Line>, n: nat, d: nat) {
    SameDevice(t, t0) && |t.tape| == Max(|t0.tape|, n + d) && PrintedRows(t.tape, t0.tape, lines, n, d)
  }

  /** The row of line n is reached. */
  ghost predicate AtPrint(t: Screen, t0: Screen, lines: seq<Line>, n: nat, d: nat) {
    && SameDevice(t, t0) && |t.tape| == Max(|t0.tape|, n + d + 1) && t.row == n + d && t.col == 0
    && PrintedRows(t.tape, t0.tape, lines, n, d)
  }

  lemma NewLinePrints(t: Screen, t0: Screen, lines: seq<Line>, n: nat, d: nat)
    requires Printed(t, t0, lines, n, d) && t.row == n + d - 1
    ensures AtPrint(NextLine(t), t0, lines, n, d)
  {
  }

  lemma RowPrinted(t: Screen, u: Screen, t0: Screen, lines: seq<Line>, n: nat, d: nat)
    requires AtPrint(t, t0, lines, n, d) && n < |lines|
    requires u == t.(tape := t.tape[t.row := Over(t.tape[t.row], Paint(lines[n]))], col := Width(lines[n]))
    ensures Printed(u, t0, lines, n + 1, d) && u.row == n + d
  {
  }

  /** All lines, one below the other, from the top of the screen. */
  method PrintLines(buf0: seq<Command>, lines: seq<Line>, ghost base: Screen, ghost t0: Screen)
    returns (buf: seq<Command>, ghost t: Screen)
    requires Writes(base, buf0, t0) && t0.row == t0.Top() && t0.col == 0
    requires Narrow(lines, UsableColumns(t0))
    ensures Writes(base, buf, t) && Printed(t, t0, lines, |lines|, t0.Top()) && t.row == t0.Top() + Max(0, |lines| - 1)
  {
    buf, t := buf0, t0;
    for i := 0 to |lines|
      invariant Writes(base, buf, t)
      invariant Printed(t, t0, lines, i, t0.Top()) && t.row == t0.Top() + Max(0, i - 1)
      invariant i == 0 ==> t == t0
    {
      if i > 0 {
        NewLine(base, buf, t);
        NewLinePrints(t, t0, lines, i, t0.Top());
        buf, t := buf + CRLF, NextLine(t);
      }
      WritesOne(base, buf, t, Print(lines[i]));
      PrintOver(t, lines[i]);
      RowPrinted(t, Exec(t, Print(lines[i])), t0, lines, i, t0.Top());
      buf, t := buf + [Print(lines[i])], Exec(t, Print(lines[i]));
    }
  }

  /** The cursor is at the top of the screen. */
  ghost predicate Homed(t: Screen) { t.row == t.Top() && t.col == 0 }

  ghost predicate BlankScreen(t: Screen) { t.Top() == 0 && Holds(t, []) }

  method AllLines(buf0: seq<Command>, lines: seq<Line>, ghost base: Screen, ghost t0: Screen)
    returns (buf: seq<Command>, ghost t: Screen)
    requires Writes(base, buf0, t0) && Homed(t0) && Narrow(lines, UsableColumns(t0))
    ensures Writes(base, buf, t) && Printed(t, t0, lines, |lines|, t0.Top()) && t.row == t0.Top() + Max(0, |lines| - 1)
    ensures Releases(buf)
  {
    buf, t := PrintLines(buf0, lines, base, t0);
    WritesOne(base, buf, t, SyncEnd);
    buf := buf + [SyncEnd];
  }

  lemma BlankBelow(t: Screen, k: int)
    requires Holds(t, [])
    ensures OldRow(t.tape, k) == []
  {
  }

  /** On a blank screen the lines are then all there is. */
  lemma PrintedInStep(t: Screen, t0: Screen, lines: seq<Line>)
    requires Printed(t, t0, lines, |lines|, t0.Top()) && BlankScreen(t0)
    ensures InStep(t, lines, Max(0, |lines| - t.height), t.row)
  {
    forall k {:trigger t.tape[k]} | 0 <= k < |t.tape|
      ensures t.tape[k] == RowOf(lines, k)
    {
      BlankBelow(t0, k);
    }
  }

  /** Row k of the screen is right exactly when what was in its place, if anything, is no longer than what
      belongs there. */
  ghost predicate RowCovered(t: Screen, t0: Screen, after: seq<Line>, newTop: int, k: int)
    requires 0 <= k < t.height
  {
    ShowsRow(t, after, newTop, k) <==> |OldRow(t0.tape, t0.Top() + newTop + k)| <= |RowOf(after, newTop + k)|
  }

  ghost predicate RightWhereCovered(t: Screen, t0: Screen, after: seq<Line>, newTop: int) {
    forall k :: 0 <= k < t.height ==> RowCovered(t, t0, after, newTop, k)
  }

  /** That is so for all rows when the screen was not blank. */
  lemma RowsCovered(t: Screen, t0: Screen, after: seq<Line>, newTop: nat)
    requires Printed(t, t0, after, |after|, t0.Top()) && newTop == Max(0, |after| - t.height)
    ensures RightWhereCovered(t, t0, after, newTop)
  {
    PrintedTop(t, t0, |after|, newTop);
    forall k | 0 <= k < t.height
      ensures RowCovered(t, t0, after, newTop, k)
    {
      PrintedRow(t, t0, after, newTop, k, t0.Top());
    }
  }

  lemma PrintedTop(t: Screen, t0: Screen, n: nat, newTop: nat)
    requires SameDevice(t, t0) && |t.tape| == Max(|t0.tape|, n + t0.Top()) && newTop == Max(0, n - t.height)
    ensures t.Top() == t0.Top() + newTop
  {
  }

  lemma PrintedRow(t: Screen, t0: Screen, after: seq<Line>, newTop: nat, k: nat, d: nat)
    requires PrintedRows(t.tape, t0.tape, after, |after|, d) && d == t0.Top()
    requires k < t.height && t.Top() == d + newTop
    ensures RowCovered(t, t0, after, newTop, k)
  {
    PrintedAt(t.tape, t0.tape, after, d, d + newTop + k, newTop + k);
    CoveredRow(t, t0, after, newTop, k, d + newTop + k, newTop + k);
  }

  lemma PrintedAt(tape: seq<Row>, was: seq<Row>, lines: seq<Line>, d: nat, row: nat, j: nat)
    requires PrintedRows(tape, was, lines, |lines|, d) && row < |tape| && row == d + j
    ensures tape[row] == Over(OldRow(was, row), RowOf(lines, j))
  {
    var r := row - d;
    assert r == j;
    assert tape[row] == if 0 <= r < |lines| then Over(OldRow(was, row), RowOf(lines, r)) else OldRow(was, row);
    OverNothing(OldRow(was, row));
  }

  lemma OverNothing(was: Row)
    ensures Over(was, []) == was
  {
  }

  lemma CoveredRow(t: Screen, t0: Screen, after: seq<Line>, newTop: nat, k: nat, row: nat, j: nat)
    requires k < t.height && t.Top() + k == row == t0.Top() + newTop + k && j == newTop + k
    requires t.tape[row] == Over(OldRow(t0.tape, row), RowOf(after, j))
    ensures RowCovered(t, t0, after, newTop, k)
  {
    OverLength(OldRow(t0.tape, row), RowOf(after, j));
  }

  lemma OverLength(was: Row, row: Row)
    ensures Over(was, row) == row <==> |was| <= |row|
  {
  }

  // ---- drawing the changes -----------------------------------------------------------------------

  /** u is t with the rows from `from` up to `to` blank, and the cursor on `row`. */
  ghost predicate Blanked(u: Screen, t: Screen, from: int, to: int, row: int) {
    && SameDevice(u, t) && |u.tape| == |t.tape| && u.row == row
    && forall k {:trigger u.tape[k]} :: 0 <= k < |u.tape| ==>
         u.tape[k] == if from <= k < to then [] else t.tape[k]
  }

  lemma BlankRow(u: Screen, v: Screen, t: Screen, from: int, row: int)
    requires Blanked(u, t, from, row, u.row) && from <= row == v.row < |u.tape|
    requires SameDevice(v, u) && v.tape == u.tape
    ensures Blanked(Exec(v, ClearLine), t, from, row + 1, row)
  {
  }

  /** Blanks the `extra` rows below the cursor and comes back. */
  method ClearBelow(buf0: seq<Command>, extra: nat, ghost base: Screen, ghost t0: Screen)
    returns (buf: seq<Command>, ghost t: Screen)
    requires Writes(base, buf0, t0) && extra > 0 && t0.row + extra < |t0.tape|
    requires t0.Top() <= t0.row
    ensures Writes(base, buf, t) && Blanked(t, t0, t0.row + 1, t0.row + 1 + extra, t0.row)
  {
    buf, t := buf0, t0;
    for j := 0 to extra
      invariant Writes(base, buf, t) && Blanked(t, t0, t0.row + 1, t0.row + 1 + j, t0.row + j)
    {
      NewLine(base, buf, t);
      WritesOne(base, buf + CRLF, NextLine(t), ClearLine);
      BlankRow(t, NextLine(t), t0, t0.row + 1, t0.row + 1 + j);
      buf, t := buf + CRLF + [ClearLine], Exec(NextLine(t), ClearLine);
    }
    WritesOne(base, buf, t, Up(extra));
    buf, t := buf + [Up(extra)], Exec(t, Up(extra));
  }

  /** Blanks `extra` rows from the cursor row on, moving down between them. */
  method ClearRows(buf0: seq<Command>, extra: nat, ghost base: Screen, ghost t0: Screen)
    returns (buf: seq<Command>, ghost t: Screen)
    requires Writes(base, buf0, t0) && extra > 0 && t0.row + extra <= |t0.tape|
    ensures Writes(base, buf, t) && Blanked(t, t0, t0.row, t0.row + extra, t0.row + extra - 1)
  {
    buf, t := buf0, t0;
    for i := 0 to extra
      invariant Writes(base, buf, t)
      invariant Blanked(t, t0, t0.row, t0.row + i, t0.row + (if i < extra then i else extra - 1))
    {
      WritesTwo(base, buf, t, CarriageReturn, ClearLine);
      BlankRow(t, Exec(t, CarriageReturn), t0, t0.row, t0.row + i);
      buf, t := buf + [CarriageReturn, ClearLine], Exec(Exec(t, CarriageReturn), ClearLine);
      if i < extra - 1 {
        WritesOne(base, buf, t, Down(1));
        buf, t := buf + [Down(1)], Exec(t, Down(1));
      }
    }
  }

  /** The incremental update: from the cursor's row to the first changed line, over the changed
      lines, and past them to blank the rows the shorter frame no longer uses. Whatever the screen
      shows, exactly the rows of the changed lines are rewritten. */
  method DiffBuffer(before: seq<Line>, after: seq<Line>, firstChanged: int, lastChanged: int,
                    previousTop: int, height: nat, hardwareCursorRow: int, ghost t0: Screen, ghost d: int)
    returns (buf: seq<Command>, finalCursorRow: int, ghost t: Screen)
    requires Aligned(t0, previousTop, hardwareCursorRow) && height == t0.height && before != []
             && d == Shift(t0, previousTop)
    requires Sensible(|before|, previousTop, hardwareCursorRow, height) && Narrow(after, UsableColumns(t0))
    requires ChangeBounds(|before|, |after|, firstChanged, lastChanged) && previousTop <= firstChanged < |after|
    ensures Writes(t0, buf, t) && finalCursorRow == Min(lastChanged, |after| - 1)
    ensures Patched(t, t0, after, firstChanged, lastChanged + 1, d)
    ensures |t.tape| == Max(|t0.tape|, |after| + d) && t.row == finalCursorRow + d
    ensures |before| <= |after| ==>
              buf == Approaching(|before|, |after|, firstChanged, hardwareCursorRow)
                + Rewriting(after, firstChanged, lastChanged + 1)
  {
    var renderEnd := Min(lastChanged, |after| - 1);
    buf, t := Approach(before, after, firstChanged, lastChanged, previousTop, height, hardwareCursorRow, t0, d);
    buf, t := RewriteLines(buf, after, firstChanged, renderEnd + 1, t0, t, d);
    finalCursorRow := renderEnd;
    buf, t := ClearLeftOver(buf, |before|, after, firstChanged, lastChanged, renderEnd, t0, t, d);
  }

  /** The rows past the last line of a shorter frame. */
  method ClearLeftOver(buf0: seq<Command>, drawn: nat, after: seq<Line>, ghost first: nat, lastChanged: int,
                       renderEnd: int, ghost t0: Screen, ghost t1: Screen, ghost d: int)
    returns (buf: seq<Command>, ghost t: Screen)
    requires ChangeBounds(drawn, |after|, first, lastChanged) && first < |after|
    requires renderEnd == Min(lastChanged, |after| - 1) && drawn + d <= |t0.tape|
    requires Writes(t0, buf0, t1) && Drawing(t1, t0, after, first, renderEnd + 1, d) && t1.row == renderEnd + d
    ensures Writes(t0, buf, t) && Patched(t, t0, after, first, lastChanged + 1, d)
    ensures |t.tape| == Max(|t0.tape|, |after| + d) && t.row == t1.row && (drawn <= |after| ==> buf == buf0)
  {
    buf, t := buf0, t1;
    if drawn > |after| {
      var moveDown := |after| - 1 - renderEnd;
      if moveDown > 0 {
        // A shorter frame always has its last line rewritten.
        assert false;
      }
      var extra := drawn - |after|;
      buf, t := ClearBelow(buf, extra, t0, t1);
      PatchCleared(t1, t, t0, after, first, drawn, d);
    }
  }

  lemma PatchCleared(t: Screen, u: Screen, t0: Screen, after: seq<Line>, first: int, n: int, d: int)
    requires first < |after| < n && Patched(t, t0, after, first, |after|, d)
    requires Blanked(u, t, |after| + d, n + d, |after| - 1 + d)
    ensures Patched(u, t0, after, first, n, d)
  {
    forall k {:trigger u.tape[k]} | 0 <= k < |u.tape|
      ensures u.tape[k] == if first <= k - d < n then RowOf(after, k - d) else OldRow(t0.tape, k)
    {
      assert t.tape[k] == if first <= k - d < |after| then RowOf(after, k - d) else OldRow(t0.tape, k);
    }
  }

  predicate AppendStart(m: nat, n: nat, first: nat) { n > m && first == m && first > 0 }

  /** How far the cursor is to move, from the row it is taken to be on. */
  function Distance(m: nat, n: nat, first: nat, hardwareCursorRow: int): int {
    (if AppendStart(m, n, first) then first - 1 else first) - hardwareCursorRow
  }

  /** The output that goes there. */
  function Approaching(m: nat, n: nat, first: nat, hardwareCursorRow: int): seq<Command> {
    [SyncBegin] + Move(Distance(m, n, first, hardwareCursorRow))
      + (if AppendStart(m, n, first) then CRLF else [CarriageReturn])
  }

  /** And where it leads: no further than the screen goes. */
  function Landed(t: Screen, distance: int, appendStart: bool): Screen {
    if appendStart then NextLine(Moved(t, distance)) else Exec(Moved(t, distance), CarriageReturn)
  }

  lemma ApproachLands(t0: Screen, m: nat, n: nat, first: nat, hardwareCursorRow: int)
    ensures Writes(t0, Approaching(m, n, first, hardwareCursorRow),
                   Landed(t0, Distance(m, n, first, hardwareCursorRow), AppendStart(m, n, first)))
  {
    var distance := Distance(m, n, first, hardwareCursorRow);
    WritesNothing(t0);
    assert [] + [SyncBegin] == [SyncBegin];
    WritesOne(t0, [], t0, SyncBegin);
    MoveReaches(t0, [SyncBegin], t0, distance);
    var t, buf := Moved(t0, distance), [SyncBegin] + Move(distance);
    if AppendStart(m, n, first) {
      NewLine(t0, buf, t);
    } else {
      WritesOne(t0, buf, t, CarriageReturn);
    }
  }

  lemma LandedAtRow(t0: Screen, distance: int, appendStart: bool, lines: seq<Line>, first: int)
    ensures var t := Landed(t0, distance, appendStart); AtRow(t, t0, lines, first, first, t.row - first)
  {
  }

  /** Begins the update and brings the cursor to the first line to rewrite. */
  method Approach(before: seq<Line>, after: seq<Line>, firstChanged: nat, ghost lastChanged: int,
                  previousTop: int, height: nat, hardwareCursorRow: int, ghost t0: Screen, ghost d: int)
    returns (buf: seq<Command>, ghost t: Screen)
    requires Aligned(t0, previousTop, hardwareCursorRow) && height == t0.height && before != []
             && d == Shift(t0, previousTop)
    requires Sensible(|before|, previousTop, hardwareCursorRow, height)
    requires ChangeBounds(|before|, |after|, firstChanged, lastChanged) && previousTop <= firstChanged < |after|
    ensures Writes(t0, buf, t) && AtRow(t, t0, after, firstChanged, firstChanged, d)
    ensures buf == Approaching(|before|, |after|, firstChanged, hardwareCursorRow)
  {
    var appended := |after| > |before|;
    var appendStart := appended && firstChanged == |before| && firstChanged > 0;
    buf := [SyncBegin];
    var viewportTop := previousTop;
    var previousBottom := previousTop + height - 1;
    var moveTargetRow := if appendStart then firstChanged - 1 else firstChanged;
    if moveTargetRow > previousBottom {
      // The first row to rewrite is always on the screen, or one past it when lines are appended.
      assert false;
    }
    var lineDiff := (moveTargetRow - viewportTop) - (hardwareCursorRow - previousTop);
    buf := buf + Move(lineDiff);
    buf := buf + if appendStart then CRLF else [CarriageReturn];
    ApproachLands(t0, |before|, |after|, firstChanged, hardwareCursorRow);
    LandedAtRow(t0, lineDiff, appendStart, after, firstChanged);
    t := Landed(t0, lineDiff, appendStart);
  }

  /** Wherever the cursor of the terminal is: the output of a frame that is no shorter puts the changed
      lines one under the other from the row in which its move ends, which is as far from the cursor as
      the screen allows, and leaves every other row as it was. */
  lemma RewrittenElsewhere(t0: Screen, m: nat, after: seq<Line>, first: nat, last: nat, hardwareCursorRow: int)
    returns (u: Screen, d: int)
    requires Narrow(after, UsableColumns(t0)) && first <= last < |after|
    ensures d == Landed(t0, Distance(m, |after|, first, hardwareCursorRow), AppendStart(m, |after|, first)).row - first
    ensures Writes(t0, Approaching(m, |after|, first, hardwareCursorRow) + Rewriting(after, first, last + 1), u)
    ensures Drawing(u, t0, after, first, last + 1, d) && u.row == last + d
  {
    var distance, appendStart := Distance(m, |after|, first, hardwareCursorRow), AppendStart(m, |after|, first);
    var t := Landed(t0, distance, appendStart);
    d := t.row - first;
    ApproachLands(t0, m, |after|, first, hardwareCursorRow);
    LandedAtRow(t0, distance, appendStart, after, first);
    u := RewritingDraws(after, first, last + 1, Approaching(m, |after|, first, hardwareCursorRow), t0, t, d);
  }

  /** The lines between the first and the last difference are rewritten in their rows; everything else
      on the tape stays. */
  ghost predicate RedrawnRows(tape: seq<Row>, was: seq<Row>, before: seq<Line>, after: seq<Line>, d: int) {
    forall k {:trigger tape[k]} :: 0 <= k < |tape| ==>
      tape[k] == if Rewritten(before, after, k - d) then RowOf(after, k - d) else OldRow(was, k)
  }

  ghost predicate Redrawn(t: Screen, t0: Screen, before: seq<Line>, after: seq<Line>, d: int) {
    SameDevice(t, t0) && |t.tape| == Max(|t0.tape|, |after| + d) && RedrawnRows(t.tape, t0.tape, before, after, d)
  }

  lemma PatchedIsRedrawn(t: Screen, t0: Screen, before: seq<Line>, after: seq<Line>, first: int, last: int, d: int)
    requires NonEmpty(before) && NonEmpty(after) && Changes(before, after, first, last) && first != -1
    requires Patched(t, t0, after, first, last + 1, d) && |t.tape| == Max(|t0.tape|, |after| + d)
    ensures Redrawn(t, t0, before, after, d)
  {
    forall k {:trigger t.tape[k]} | 0 <= k < |t.tape|
      ensures t.tape[k] == if Rewritten(before, after, k - d) then RowOf(after, k - d) else OldRow(t0.tape, k)
    {
      RewrittenRange(before, after, first, last, k - d);
    }
  }

  lemma UnchangedIsRedrawn(t: Screen, t0: Screen, lines: seq<Line>, d: int)
    requires SameDevice(t, t0) && t.tape == t0.tape && |lines| + d <= |t.tape|
    ensures Redrawn(t, t0, lines, lines, d)
  {
    forall k {:trigger t.tape[k]} | 0 <= k < |t.tape|
      ensures !Rewritten(lines, lines, k - d) && t.tape[k] == OldRow(t0.tape, k)
    {
    }
  }

  /** Where the viewport is after the update: as far down as the new lines push it, and the last row
      written tells how far that is. */
  lemma RedrawnTop(t: Screen, t0: Screen, before: seq<Line>, after: seq<Line>, top: int, d: int)
    requires Redrawn(t, t0, before, after, d) && d == Shift(t0, top)
    ensures t.Top() == Max(top, |after| - t.height) + d
  {
  }

  lemma LastRowTop(before: seq<Line>, after: seq<Line>, first: int, last: int, top: int, height: int)
    requires Changes(before, after, first, last) && 0 <= first < |after| && |before| <= top + height
    ensures Max(top, Min(last, |after| - 1) - height + 1) == Max(top, |after| - height)
  {
  }

  /** A terminal that held the old lines holds the new ones. */
  lemma RedrawnInStep(t: Screen, t0: Screen, before: seq<Line>, after: seq<Line>, top: int, row0: int)
    requires InStep(t0, before, top, row0) && Redrawn(t, t0, before, after, 0) && top <= Max(0, |after| - 1)
    ensures InStep(t, after, Max(top, |after| - t.height), t.row)
  {
    forall k {:trigger t.tape[k]} | 0 <= k < |t.tape|
      ensures t.tape[k] == RowOf(after, k)
    {
      if !Rewritten(before, after, k) { KeptRow(t0, before, after, k); }
    }
  }

  lemma KeptRow(t: Screen, before: seq<Line>, after: seq<Line>, k: nat)
    requires Holds(t, before) && |before| <= |t.tape| && !Rewritten(before, after, k)
    ensures OldRow(t.tape, k) == RowOf(after, k)
  {
    UnchangedRow(before, after, k);
  }

  lemma PastTheEnd(before: seq<Line>, after: seq<Line>, j: nat)
    requires NonEmpty(after) && |before| <= j < |after|
    ensures Rewritten(before, after, j)
  {
    assert LineAt(before, j) != LineAt(after, j);
  }

  ghost predicate WasRight(t: Screen, lines: seq<Line>, top: int, k: int) {
    0 <= k < t.height && ShowsRow(t, lines, top, k)
  }

  lemma RowBefore(t: Screen, t0: Screen, before: seq<Line>, after: seq<Line>, top: nat, i: nat, row: int)
    requires RowOf(before, top + i) == RowOf(after, top + i) && i < t0.height
    requires row == t0.Top() + i < |t.tape| && t.tape[row] == OldRow(t0.tape, row)
    ensures t.tape[row] == RowOf(after, top + i) <==> WasRight(t0, before, top, i)
  {
    assert OldRow(t0.tape, row) == t0.tape[row];
  }

  lemma RowAfter(t: Screen, t0: Screen, before: seq<Line>, after: seq<Line>, d: int, row: nat, j: int)
    requires Redrawn(t, t0, before, after, d) && row < |t.tape| && j == row - d
    ensures t.tape[row] == if Rewritten(before, after, j) then RowOf(after, j) else OldRow(t0.tape, row)
  {
  }

  /** The frame rewrites row k of the screen, or it was right before, wherever on the screen it was then. */
  ghost predicate RewrittenOrRight(t0: Screen, before: seq<Line>, after: seq<Line>, top: int, newTop: int, k: int) {
    Rewritten(before, after, newTop + k) || WasRight(t0, before, top, newTop + k - top)
  }

  ghost predicate RowRight(t: Screen, t0: Screen, before: seq<Line>, after: seq<Line>, top: int, newTop: int, k: int)
    requires 0 <= k < t.height
  {
    ShowsRow(t, after, newTop, k) <==> RewrittenOrRight(t0, before, after, top, newTop, k)
  }

  ghost predicate RightWhereRewritten(t: Screen, t0: Screen, before: seq<Line>, after: seq<Line>, top: int,
                                      newTop: int) {
    forall k :: 0 <= k < t.height ==> RowRight(t, t0, before, after, top, newTop, k)
  }

  lemma RowIsRight(t: Screen, t0: Screen, before: seq<Line>, after: seq<Line>, top: nat, newTop: nat, k: nat, i: nat)
    requires NonEmpty(after) && |before| <= top + t0.height && k < t.height == t0.height && i == newTop + k - top
    requires t.Top() + k == t0.Top() + i && (newTop + k < |after| || i < t0.height)
    requires t.tape[t.Top() + k] == if Rewritten(before, after, newTop + k) then RowOf(after, newTop + k)
             else OldRow(t0.tape, t0.Top() + i)
    ensures RowRight(t, t0, before, after, top, newTop, k)
  {
    if !Rewritten(before, after, newTop + k) {
      if i >= t0.height { PastTheEnd(before, after, newTop + k); }
      UnchangedRow(before, after, newTop + k);
    }
    RightIfKept(Rewritten(before, after, newTop + k), t, t0, before, after, top, newTop, k, i);
  }

  lemma RightIfKept(rewritten: bool, t: Screen, t0: Screen, before: seq<Line>, after: seq<Line>, top: nat, newTop: nat,
                    k: nat, i: nat)
    requires k < t.height == t0.height && i == newTop + k - top && t.Top() + k == t0.Top() + i
    requires !rewritten ==> i < t0.height && RowOf(before, newTop + k) == RowOf(after, newTop + k)
    requires t.tape[t.Top() + k] == if rewritten then RowOf(after, newTop + k) else OldRow(t0.tape, t0.Top() + i)
    ensures ShowsRow(t, after, newTop, k) <==> rewritten || WasRight(t0, before, top, newTop + k - top)
  {
    if !rewritten { RowBefore(t, t0, before, after, top, i, t0.Top() + i); }
  }

  lemma RedrawnRow(t: Screen, t0: Screen, before: seq<Line>, after: seq<Line>, top: nat, newTop: nat, k: nat, d: int)
    requires Redrawn(t, t0, before, after, d) && d == Shift(t0, top) && k < t.height
    requires NonEmpty(after) && |before| <= top + t.height && newTop == Max(top, |after| - t.height)
    ensures RowRight(t, t0, before, after, top, newTop, k)
  {
    RedrawnTop(t, t0, before, after, top, d);
    var i := newTop + k - top;
    var row := t0.Top() + i;
    assert row == t.Top() + k;
    RowAfter(t, t0, before, after, d, row, newTop + k);
    RowIsRight(t, t0, before, after, top, newTop, k, i);
  }

  /** Moves by lineDiff, blanks `extra` rows starting `offset` rows further down, and comes back. */
  method EraseTail(lineDiff: int, offset: nat, extra: nat, ghost t0: Screen)
    returns (buf: seq<Command>, ghost t: Screen)
    requires offset <= 1 && extra > 0
    requires t0.Top() <= t0.row + lineDiff && t0.row + lineDiff + offset + extra <= |t0.tape|
    ensures Writes(t0, buf, t) && Releases(buf)
    ensures var from := t0.row + lineDiff + offset; Blanked(t, t0, from, from + extra, t0.row + lineDiff)
  {
    WritesNothing(t0);
    WritesOne(t0, [], t0, SyncBegin);
    buf := [] + [SyncBegin];
    MoveReaches(t0, buf, t0, lineDiff);
    buf := buf + Move(lineDiff);
    t := t0.(row := t0.row + lineDiff);
    WritesOne(t0, buf, t, CarriageReturn);
    buf, t := buf + [CarriageReturn], Exec(t, CarriageReturn);
    if extra > 0 && offset != 0 {
      WritesOne(t0, buf, t, Down(offset));
      buf, t := buf + [Down(offset)], Exec(t, Down(offset));
    }
    buf, t := ClearRows(buf, extra, t0, t);
    var moveBack := Max(0, extra - 1 + offset);
    if moveBack != 0 {
      WritesOne(t0, buf, t, Up(moveBack));
      buf, t := buf + [Up(moveBack)], Exec(t, Up(moveBack));
    }
    WritesOne(t0, buf, t, SyncEnd);
    buf := buf + [SyncEnd];
  }

  /** Blanking the rows past the end of a shorter frame is all there is to rewrite. */
  lemma TailErased(t: Screen, t0: Screen, before: seq<Line>, after: seq<Line>, d: int, row: int)
    requires NonEmpty(before) && after < before && |before| + d <= |t0.tape|
    requires Blanked(t, t0, |after| + d, |before| + d, row)
    ensures Redrawn(t, t0, before, after, d)
  {
    forall k {:trigger t.tape[k]} | 0 <= k < |t.tape|
      ensures t.tape[k] == if Rewritten(before, after, k - d) then RowOf(after, k - d) else OldRow(t0.tape, k)
    {
      RewrittenTail(before, after, k - d);
    }
  }

  lemma RewrittenTail(before: seq<Line>, after: seq<Line>, j: int)
    requires NonEmpty(before) && after < before
    ensures Rewritten(before, after, j) <==> |after| <= j < |before|
  {
    forall a | 0 <= a < |after| ensures LineAt(before, a) == LineAt(after, a) { PrefixAgrees(before, after, a); }
    if |after| <= j < |before| {
      assert LineAt(before, j) != LineAt(after, j);
    }
  }

  /** The cursor move that belongs to the update, then the end of synchronized output. */
  method FinishDiff(buf0: seq<Command>, finalCursorRow: int, cursorPos: Option<(nat, nat)>, total: nat,
                    showCursor: bool, ghost base: Screen, ghost t0: Screen, ghost d: int)
    returns (buf: seq<Command>, hardwareCursorRow: int, ghost t: Screen)
    requires Writes(base, buf0, t0) && t0.row == finalCursorRow + d
    requires cursorPos.Some? ==> t0.Top() <= cursorPos.value.0 + d < |t0.tape| && cursorPos.value.0 < total
    ensures Writes(base, buf, t) && Releases(buf)
    ensures t.tape == t0.tape && SameDevice(t, t0) && t.row == hardwareCursorRow + d
    ensures if cursorPos.Some? then hardwareCursorRow == cursorPos.value.0
            && t.col == Min(t.cols - 1, cursorPos.value.1)
            else hardwareCursorRow == finalCursorRow
  {
    buf, t := buf0, t0;
    if cursorPos.Some? && total > 0 {
      var targetRow := Max(0, Min(cursorPos.value.0, total - 1));
      var targetCol := Max(0, cursorPos.value.1);
      MoveReaches(base, buf, t, targetRow - finalCursorRow);
      buf, t := buf + Move(targetRow - finalCursorRow), t.(row := targetRow + d);
      WritesOne(base, buf, t, Column(targetCol + 1));
      buf, t := buf + [Column(targetCol + 1)], Exec(t, Column(targetCol + 1));
      hardwareCursorRow := targetRow;
    } else {
      hardwareCursorRow := finalCursorRow;
      WritesOne(base, buf, t, HideCursor);
      buf := buf + [HideCursor];
    }
    if !showCursor {
      WritesOne(base, buf, t, HideCursor);
      buf := buf + [HideCursor];
    }
    WritesOne(base, buf, t, SyncEnd);
    buf := buf + [SyncEnd];
  }

  /** Whether a frame can be drawn by touching visible rows only: the terminal was not resized, there
      is a previous frame, and either the new lines are a proper prefix whose last line is visible,
      or nothing above the viewport changes. */
  ghost predicate Incremental(before: seq<Line>, after: seq<Line>, top: int, resized: bool) {
    && !resized && before != []
    && if after < before then top <= Max(0, |after| - 1)
       else 0 <= top <= |after| && top <= |before| && before[..top] == after[..top]
  }

  lemma PrefixAgrees(before: seq<Line>, after: seq<Line>, k: nat)
    requires k < |after| && k < |before|
    ensures after <= before ==> after[k] == before[k]
  {
  }

  /** Where the first change lies decides whether the frame can be drawn incrementally. */
  lemma ReachableChanges(before: seq<Line>, after: seq<Line>, first: int, last: int, top: int)
    requires Changes(before, after, first, last) && before != [] && 0 <= top <= |before|
    ensures Incremental(before, after, top, false) <==>
              if first == -1 then true
              else if first >= |after| then top <= Max(0, |after| - 1)
              else top <= first
    ensures first >= |after| ==> after < before
  {
    if first == -1 {
    } else if first >= |after| {
      assert after < before;
    } else {
      if first < |before| {
        PrefixAgrees(before, after, first);
      }
      if top <= first {
        assert before[..top] == after[..top];
      } else if top <= |after| {
        assert before[..top][first] == before[first] && after[..top][first] == after[first];
      }
    }
  }

  /** The lowest visible marker does not depend on how far above it the search starts. */
  lemma {:induction false} SameCursor(lines: seq<Line>, top: nat, floor: nat, height: nat, from: nat)
    requires from <= |lines| <= top + height && top <= floor
    ensures var c, d := CursorIn(lines, top, height, from), CursorIn(lines, floor, height, from);
            (c.Some? && c.value.0 >= floor) || d.Some? ==> c == d
    decreases |lines| - from
  {
    if from < |lines| {
      SameCursor(lines, top, floor, height, from + 1);
      CursorInViewport(lines, top, height, from + 1);
    }
  }

  /** Moving to the first row past the lines, as far as the screen allows, and starting a new line. */
  lemma LeaveBelow(t: Screen, lines: seq<Line>, lineDiff: int) returns (u: Screen)
    ensures Writes(t, Move(lineDiff) + CRLF, u)
    ensures Holds(t, lines) && |lines| <= |t.tape| && t.Top() <= Max(0, |lines| - 1) && lineDiff == |lines| - t.row ==>
              Holds(u, lines) && u.row >= |lines| && u.col == 0
  {
    WritesNothing(t);
    MoveReaches(t, [], t, lineDiff);
    assert [] + Move(lineDiff) == Move(lineDiff);
    u := Moved(t, lineDiff);
    BelowEverything(t, u, lines);
    NewLine(t, Move(lineDiff), u);
    u := NextLine(u);
  }

  lemma BelowEverything(t: Screen, u: Screen, lines: seq<Line>)
    ensures Holds(t, lines) && u.tape == t.tape && |lines| <= |t.tape| && u.row == Min(|t.tape| - 1, |lines|) ==>
              Holds(NextLine(u), lines) && NextLine(u).row >= |lines| && NextLine(u).col == 0
  {
  }

  /** What a frame does to a terminal t0 of the size of the last frame, whatever t0 shows: the first frame
      prints over it; an incremental one rewrites the changed rows, if the cursor is where the renderer
      takes it to be; without changes nothing is rewritten wherever the cursor is. */
  ghost predicate DrawnOver(t: Screen, t0: Screen, before: seq<Line>, after: seq<Line>, top: int, known: bool) {
    && (before == [] ==> Printed(t, t0, after, |after|, t0.Top()))
    && (Incremental(before, after, top, false) && known ==> Redrawn(t, t0, before, after, Shift(t0, top)))
    && (before == after != [] ==> t.tape == t0.tape)
  }

  /** A frame that clears the screen and the scrollback first. */
  ghost predicate Cleared(before: seq<Line>, after: seq<Line>, top: int, resized: bool) {
    resized || (before != [] && !Incremental(before, after, top, false))
  }

  /** What the renderer remembers of the last frame: its lines, the size it was drawn for, its viewport,
      and the line the cursor was left on. */
  datatype Belief = Belief(lines: seq<Line>, width: int, height: int, top: int, row: int) {
    ghost predicate Recorded() { NonEmpty(lines) && Sensible(|lines|, top, row, height) }

    ghost predicate SizeOf(t: Tty) { width == FrameWidth(t) && height == t.height }

    /** The terminal holds that frame. */
    ghost predicate HeldBy(t: Screen) { InStep(t, lines, top, row) }

    /** The cursor at least is on that row of the screen. */
    ghost predicate Aims(t: Screen) { Aligned(t, top, row) }
  }

  /** Whether lines are drawn incrementally. */
  ghost predicate Patches(b: Belief, t: Screen, after: seq<Line>) { Incremental(b.lines, after, b.top, !b.SizeOf(t)) }

  function NextTop(b: Belief, after: seq<Line>, height: nat, patches: bool): int {
    if patches then Max(b.top, Max(0, |after| - height)) else Max(0, |after| - height)
  }

  /** A frame takes terminal and belief from t0, b0 to t, b. A terminal that held the last frame, or that
      was cleared, holds the new one. */
  ghost predicate Draws(t0: Screen, b0: Belief, t: Screen, b: Belief) {
    && SameDevice(t, t0) && b.SizeOf(t) && b.Recorded()
    && b.top == NextTop(b0, b.lines, t.height, Patches(b0, t0, b.lines))
    && ((b0.SizeOf(t0) ==> b0.HeldBy(t0)) || Cleared(b0.lines, b.lines, b0.top, !b0.SizeOf(t0)) ==> b.HeldBy(t))
    && (b0.SizeOf(t0) ==> DrawnOver(t, t0, b0.lines, b.lines, b0.top, b0.Aims(t0)))
    && (Known(t0, b0, b.lines) ==> b.Aims(t))
  }

  /** After the lines are drawn the cursor is where the renderer takes it to be, if it was, or is sent home. */
  ghost predicate Known(t0: Screen, b0: Belief, after: seq<Line>) {
    b0.Aims(t0) || b0.lines == [] || Cleared(b0.lines, after, b0.top, !b0.SizeOf(t0))
  }

  lemma DrawsCleared(t0: Screen, b0: Belief, t: Screen, b: Belief)
    requires SameDevice(t, t0) && b.SizeOf(t) && b.Recorded() && b.HeldBy(t) && (b0.SizeOf(t0) ==> b0.Recorded())
    requires Cleared(b0.lines, b.lines, b0.top, !b0.SizeOf(t0)) && b.top == Max(0, |b.lines| - t.height)
    ensures Draws(t0, b0, t, b)
  {
  }

  lemma DrawsFirst(t0: Screen, b0: Belief, t: Screen, b: Belief)
    requires SameDevice(t, t0) && b.SizeOf(t) && b.Recorded() && b.Aims(t)
    requires b0.SizeOf(t0) && b0.lines == [] && Printed(t, t0, b.lines, |b.lines|, t0.Top())
    requires b.top == Max(0, |b.lines| - t.height) && (b0.HeldBy(t0) ==> b.HeldBy(t))
    ensures Draws(t0, b0, t, b)
  {
  }

  lemma HeldAfter(t0: Screen, b0: Belief, t: Screen, b: Belief)
    requires b0.HeldBy(t0) && Redrawn(t, t0, b0.lines, b.lines, 0) && Incremental(b0.lines, b.lines, b0.top, false)
    requires b.top == Max(b0.top, |b.lines| - t.height) && b.Aims(t)
    ensures b.HeldBy(t)
  {
    IncrementalTop(b0.lines, b.lines, b0.top);
    RedrawnInStep(t, t0, b0.lines, b.lines, b0.top, b0.row);
  }

  lemma ChangesDrawnOver(t: Screen, t0: Screen, before: seq<Line>, after: seq<Line>, top: int, known: bool, d: int)
    requires before != [] && (known ==> d == Shift(t0, top) && Redrawn(t, t0, before, after, d))
    requires before == after ==> t.tape == t0.tape
    ensures DrawnOver(t, t0, before, after, top, known)
  {
  }

  lemma PatchesDraw(t0: Screen, b0: Belief, t: Screen, b: Belief)
    requires SameDevice(t, t0) && b.SizeOf(t) && b.Recorded() && Patches(b0, t0, b.lines)
    requires b.top == NextTop(b0, b.lines, t.height, true)
    requires (b0.HeldBy(t0) ==> b.HeldBy(t)) && (b0.Aims(t0) ==> b.Aims(t))
    requires DrawnOver(t, t0, b0.lines, b.lines, b0.top, b0.Aims(t0))
    ensures Draws(t0, b0, t, b)
  {
  }

  lemma DrawsChanges(t0: Screen, b0: Belief, t: Screen, b: Belief, d: int)
    requires SameDevice(t, t0) && b.SizeOf(t) && b.Recorded()
    requires b0.SizeOf(t0) && Incremental(b0.lines, b.lines, b0.top, false)
    requires b.top == Max(b0.top, |b.lines| - t.height) && b0.top >= 0
    requires b0.Aims(t0) ==> b.Aims(t) && d == Shift(t0, b0.top) && Redrawn(t, t0, b0.lines, b.lines, d)
    requires b0.lines == b.lines ==> t.tape == t0.tape
    ensures Draws(t0, b0, t, b)
  {
    ChangesDrawnOver(t, t0, b0.lines, b.lines, b0.top, b0.Aims(t0), d);
    if b0.HeldBy(t0) { HeldAfter(t0, b0, t, b); }
    PatchesDraw(t0, b0, t, b);
  }

  class TUI {
    var terminal: Screen
    var showHardwareCursor: bool
    var previousLines: seq<Line>
    var previousWidth: int
    var previousHeight: int
    var previousViewportTop: int
    var cursorRow: int
    var hardwareCursorRow: int
    var maxLinesRendered: int
    var fullRedrawCount: nat
    var stopped: bool

    /** The terminal when it last changed size, and all that has been written to it since. */
    ghost var base: Screen
    var output: seq<Command>

    ghost predicate Anchored()
      reads this
    {
      Writes(base, output, terminal)
    }

    /** Only output has changed the terminal. */
    twostate predicate GoesOn()
      reads this
    {
      && Anchored() && base == old(base) && old(output) <= output && SameDevice(terminal, old(terminal))
      && (Held(output) ==> Held(old(output)))
    }

    function Remembered(): Belief
      reads this
    {
      Belief(previousLines, previousWidth, previousHeight, previousViewportTop, hardwareCursorRow)
    }

    /** The terminal has the size of the last frame. */
    ghost predicate SameSize()
      reads this
    {
      Remembered().SizeOf(terminal)
    }

    ghost predicate Valid()
      reads this
    {
      && Anchored()
      && (!stopped ==>
            previousWidth != 0 && previousHeight != 0 && (previousWidth > 0 ==> Remembered().Recorded()))
    }

    /** The terminal with its cursor there. */
    ghost function Believed(): (t: Screen)
      requires Sensible(|previousLines|, previousViewportTop, hardwareCursorRow, terminal.height)
      reads this
      ensures Remembered().Aims(terminal) ==> t == terminal
    {
      terminal.(row := terminal.Top() + hardwareCursorRow - previousViewportTop)
    }

    twostate predicate Drew(newLines: seq<Line>)
      reads this
    {
      && GoesOn() && stopped == old(stopped) && previousLines == newLines
      && Draws(old(terminal), old(Remembered()), terminal, Remembered())
      && fullRedrawCount == old(fullRedrawCount) + if Patches(old(Remembered()), old(terminal), newLines) then 0 else 1
    }

    /** The cursor is on the marker. */
    twostate predicate CursorOn(pos: (nat, nat))
      reads this
    {
      && hardwareCursorRow == pos.0
      && (Known(old(terminal), old(Remembered()), previousLines) ==>
            Remembered().Aims(terminal) && terminal.col == Min(terminal.cols - 1, pos.1))
    }

    constructor (terminal: Screen, showHardwareCursor: bool)
      ensures Valid() && stopped && this.terminal == base == terminal && output == []
    {
      this.terminal, this.showHardwareCursor := terminal, showHardwareCursor;
      previousLines, previousWidth, previousHeight, previousViewportTop := [], 0, 0, 0;
      cursorRow, hardwareCursorRow, maxLinesRendered, fullRedrawCount := 0, 0, 0, 0;
      stopped := true;
      base, output := terminal, [];
      new;
      WritesNothing(terminal);
    }

    /** Writes to the terminal; u is what the caller has shown t to become. */
    method Write(buf: seq<Command>, ghost t: Screen, ghost u: Screen)
      requires Anchored() && Writes(t, buf, u) && !Held(buf)
      modifies this`terminal, this`output
      ensures GoesOn() && output == old(output) + buf
      ensures terminal == Run(old(terminal), buf)
      ensures old(terminal) == t ==> terminal == u
    {
      RunIsWritten(terminal, buf);
      RunSameDevice(terminal, buf);
      WritesConcat(base, output, terminal, buf, Run(terminal, buf));
      WritesIsRun(t, buf, u);
      if !Held(output) { NotHeldConcat(output, buf); }
      terminal := Run(terminal, buf);
      output := output + buf;
    }

    /** request_render(force=True): forgets the last frame, so that the next one clears the screen. */
    method ForceRender()
      requires Anchored()
      modifies this
      ensures Valid() && stopped == old(stopped) && !SameSize()
      ensures terminal == old(terminal) && base == old(base) && output == old(output)
      ensures previousLines == [] && previousWidth == -1 && previousHeight == -1 && previousViewportTop == 0
    {
      previousLines, previousWidth, previousHeight := [], -1, -1;
      cursorRow, hardwareCursorRow, previousViewportTop, maxLinesRendered := 0, 0, 0, 0;
    }

    method Start()
      requires Anchored()
      modifies this
      ensures Valid() && GoesOn() && !stopped && !SameSize() && terminal == old(terminal)
      ensures previousLines == [] && previousWidth == -1 && previousHeight == -1 && previousViewportTop == 0
    {
      stopped := false;
      WritesNothing(terminal);
      WritesOne(terminal, [], terminal, HideCursor);
      NeverBegun([] + [HideCursor]);
      Write([] + [HideCursor], terminal, terminal);
      ForceRender();
    }

    /** The environment gives the window another size, or the same one again. The terminal may rearrange
        or garble everything it shows. */
    method TerminalResized(t: Screen)
      requires Valid()
      modifies this`terminal, this`base, this`output
      ensures Valid() && terminal == base == t && output == []
    {
      terminal, base, output := t, t, [];
      WritesNothing(t);
    }

    /** Leaves the cursor at the start of a blank row below everything drawn. */
    method Stop()
      requires Valid()
      modifies this
      ensures Valid() && GoesOn() && stopped && previousLines == old(previousLines)
      ensures old(Remembered().HeldBy(terminal)) && previousLines != [] ==>
                Holds(terminal, previousLines) && terminal.row >= |previousLines| && terminal.col == 0
    {
      stopped := true;
      if previousLines != [] {
        var lineDiff := |previousLines| - hardwareCursorRow;
        ghost var u := LeaveBelow(terminal, previousLines, lineDiff);
        NeverBegun(Move(lineDiff) + CRLF);
        Write(Move(lineDiff) + CRLF, terminal, u);
      }
    }

    /** What the next frame will be compared with. */
    method Remember(newLines: seq<Line>, width: nat, height: nat, viewportTop: int)
      modifies this`previousLines, this`previousWidth, this`previousHeight, this`previousViewportTop
      modifies this`cursorRow, this`maxLinesRendered
      ensures previousLines == newLines && previousWidth == width && previousHeight == height
      ensures previousViewportTop == viewportTop
    {
      cursorRow := Max(0, |newLines| - 1);
      maxLinesRendered := Max(maxLinesRendered, |newLines|);
      previousLines, previousWidth, previousHeight, previousViewportTop := newLines, width, height, viewportTop;
    }

    method PositionHardwareCursor(cursorPos: Option<(nat, nat)>, totalLines: nat)
      requires Anchored()
      requires cursorPos.Some? ==> cursorPos.value.0 < totalLines
                                   && previousViewportTop <= cursorPos.value.0 < previousViewportTop + terminal.height
      modifies this`terminal, this`output, this`hardwareCursorRow
      ensures GoesOn() && terminal.tape == old(terminal.tape)
      ensures old(Remembered().Aims(terminal)) ==> Remembered().Aims(terminal)
      ensures hardwareCursorRow == if cursorPos.Some? then cursorPos.value.0 else old(hardwareCursorRow)
      ensures cursorPos.Some? ==> terminal.col == Min(terminal.cols - 1, cursorPos.value.1)
    {
      ghost var t := terminal;
      WritesNothing(t);
      if cursorPos.None? || totalLines <= 0 {
        WritesOne(t, [], t, HideCursor);
        NeverBegun([] + [HideCursor]);
        Write([] + [HideCursor], t, t);
        return;
      }
      var targetRow := Max(0, Min(cursorPos.value.0, totalLines - 1));
      var targetCol := Max(0, cursorPos.value.1);
      var rowDelta := targetRow - hardwareCursorRow;
      var buf := [] + Move(rowDelta);
      MoveReaches(t, [], t, rowDelta);
      t := Moved(t, rowDelta);
      var visibility := if showHardwareCursor then ShowCursor else HideCursor;
      WritesTwo(terminal, buf, t, Column(targetCol + 1), visibility);
      t := Exec(Exec(t, Column(targetCol + 1)), visibility);
      NeverBegun(buf + [Column(targetCol + 1), visibility]);
      Write(buf + [Column(targetCol + 1), visibility], terminal, t);
      hardwareCursorRow := targetRow;
    }

    /** Draws every line, after the prologue has brought the cursor to the top of the screen. */
    method DrawAll(prologue: seq<Command>, newLines: seq<Line>, width: nat, height: nat,
                   cursorPos: Option<(nat, nat)>, ghost start: Screen)
      requires Anchored() && width == FrameWidth(terminal) && height == terminal.height
      requires NonEmpty(newLines) && Narrow(newLines, UsableColumns(terminal))
      requires Writes(terminal, [SyncBegin] + prologue, start) && SameDevice(start, terminal) && Homed(start)
      requires cursorPos.Some? ==>
                 Max(0, |newLines| - height) <= cursorPos.value.0 < |newLines|
      modifies this
      ensures GoesOn() && SameSize() && previousLines == newLines && Remembered().Recorded()
              && Remembered().Aims(terminal)
      ensures Printed(terminal, start, newLines, |newLines|, start.Top())
      ensures BlankScreen(start) ==> Remembered().HeldBy(terminal)
      ensures previousViewportTop == Max(0, |newLines| - height)
      ensures fullRedrawCount == old(fullRedrawCount) + 1
      ensures stopped == old(stopped) && showHardwareCursor == old(showHardwareCursor)
      ensures cursorPos.Some? ==> hardwareCursorRow == cursorPos.value.0
                                  && terminal.col == Min(terminal.cols - 1, cursorPos.value.1)
    {
      var buf, t := AllLines([SyncBegin] + prologue, newLines, terminal, start);
      WriteAll(buf, t, newLines, width, height, start);
      PositionHardwareCursor(cursorPos, |newLines|);
      AfterPrinting(terminal, t, start, newLines);
    }

    /** Writes a whole frame and takes the cursor to be on its last line. */
    method WriteAll(buf: seq<Command>, ghost t: Screen, newLines: seq<Line>, width: nat, height: nat,
                    ghost start: Screen)
      requires Anchored() && Writes(terminal, buf, t) && Printed(t, start, newLines, |newLines|, start.Top())
      requires Releases(buf)
      requires t.row == start.Top() + Max(0, |newLines| - 1) && SameDevice(start, terminal)
      requires width == FrameWidth(terminal) && height == terminal.height && NonEmpty(newLines)
      modifies this
      ensures GoesOn() && terminal == t && stopped == old(stopped) && showHardwareCursor == old(showHardwareCursor)
      ensures fullRedrawCount == old(fullRedrawCount) + 1
      ensures Remembered() == Belief(newLines, width, height, Max(0, |newLines| - height), Max(0, |newLines| - 1))
      ensures Remembered().Aims(terminal)
    {
      fullRedrawCount := fullRedrawCount + 1;
      Write(buf, terminal, t);
      hardwareCursorRow := Max(0, |newLines| - 1);
      var bufferLength := Max(height, |newLines|);
      Remember(newLines, width, height, Max(0, bufferLength - height));
    }

    /** Clears the screen and the scrollback first. */
    method FullRender(newLines: seq<Line>, width: nat, height: nat, cursorPos: Option<(nat, nat)>)
      requires Anchored() && width == FrameWidth(terminal) && height == terminal.height
      requires NonEmpty(newLines) && Narrow(newLines, UsableColumns(terminal))
      requires cursorPos.Some? ==>
                 Max(0, |newLines| - height) <= cursorPos.value.0 < |newLines|
      modifies this
      ensures GoesOn() && SameSize() && previousLines == newLines && Remembered().Recorded()
              && Remembered().HeldBy(terminal)
      ensures previousViewportTop == Max(0, |newLines| - height)
      ensures fullRedrawCount == old(fullRedrawCount) + 1
      ensures stopped == old(stopped) && showHardwareCursor == old(showHardwareCursor)
      ensures cursorPos.Some? ==> hardwareCursorRow == cursorPos.value.0
                                  && terminal.col == Min(terminal.cols - 1, cursorPos.value.1)
    {
      ghost var blank := ClearedIsBlank(terminal);
      DrawAll([ClearScreen, Home, ClearScrollback], newLines, width, height, cursorPos, blank);
    }

    /** Blanks the visible rows past the last line. False, with nothing written, if the rows are out
        of reach. */
    method WriteDeletedLines(newLines: seq<Line>, height: nat, viewportTop: int) returns (ok: bool)
      requires Anchored() && Remembered().Recorded() && viewportTop == previousViewportTop
               && height == terminal.height == previousHeight
      requires newLines < previousLines
      modifies this`terminal, this`output, this`cursorRow, this`hardwareCursorRow
      ensures ok <==> viewportTop <= Max(0, |newLines| - 1)
      ensures !ok ==> terminal == old(terminal) && output == old(output) && hardwareCursorRow == old(hardwareCursorRow)
      ensures ok ==> GoesOn() && hardwareCursorRow == Max(0, |newLines| - 1)
      ensures ok && old(Remembered().Aims(terminal)) ==>
                Remembered().Aims(terminal)
                  && Redrawn(terminal, old(terminal), previousLines, newLines, Shift(old(terminal), viewportTop))
    {
      var targetRow := Max(0, |newLines| - 1);
      var extra := |previousLines| - |newLines|;
      if targetRow < viewportTop || extra > height {
        return false;
      }
      ghost var t0 := Believed();
      var buf, t := TailOutput(previousLines, newLines, hardwareCursorRow, viewportTop, targetRow, t0,
          Shift(t0, viewportTop));
      Write(buf, t0, t);
      cursorRow := targetRow;
      hardwareCursorRow := targetRow;
      return true;
    }

    method WriteDiff(newLines: seq<Line>, firstChanged: int, lastChanged: int, width: nat, height: nat,
                     cursorPos: Option<(nat, nat)>)
      requires Anchored() && width == FrameWidth(terminal) && height == terminal.height && SameSize()
      requires Remembered().Recorded() && previousLines != []
               && Incremental(previousLines, newLines, previousViewportTop, false)
      requires NonEmpty(newLines) && Narrow(newLines, UsableColumns(terminal))
      requires Changes(previousLines, newLines, firstChanged, lastChanged)
      requires previousViewportTop <= firstChanged < |newLines|
      requires cursorPos.Some? ==>
                 Max(previousViewportTop, |newLines| - height) <= cursorPos.value.0 < |newLines|
      modifies this
      ensures Drew(newLines)
      ensures cursorPos.Some? ==> CursorOn(cursorPos.value)
    {
      ghost var t0 := Believed();
      ghost var d := Shift(t0, previousViewportTop);
      var buf, finalCursorRow, row, u :=
        DiffOutput(previousLines, newLines, firstChanged, lastChanged, previousViewportTop,
                                                    height, hardwareCursorRow, cursorPos, showHardwareCursor, t0, d);
      CommitDiff(buf, finalCursorRow, row, newLines, width, height, t0, u, d);
    }

    /** Writes the output of an incremental update and remembers the frame. */
    method CommitDiff(buf: seq<Command>, finalCursorRow: int, row: int, newLines: seq<Line>, width: nat, height: nat,
                      ghost t0: Screen, ghost u: Screen, ghost d: int)
      requires Anchored() && SameSize() && width == FrameWidth(terminal) && height == terminal.height
      requires Incremental(previousLines, newLines, previousViewportTop, false) && previousLines != newLines
               && previousViewportTop >= 0
      requires SameDevice(t0, terminal) && d == Shift(t0, previousViewportTop)
               && (Remembered().Aims(terminal) ==> t0 == terminal)
      requires Writes(t0, buf, u) && Redrawn(u, t0, previousLines, newLines, d) && u.row == row + d && Releases(buf)
      requires Max(previousViewportTop, finalCursorRow - height + 1) == Max(previousViewportTop, |newLines| - height)
               == u.Top() - d
      requires NonEmpty(newLines) && Sensible(|newLines|, u.Top() - d, row, height)
      modifies this
      ensures Drew(newLines) && hardwareCursorRow == row && (old(Remembered().Aims(terminal)) ==> terminal == u)
    {
      ghost var was, b0 := terminal, Remembered();
      Write(buf, t0, u);
      hardwareCursorRow := row;
      Remember(newLines, width, height, Max(previousViewportTop, finalCursorRow - height + 1));
      DrawsChanges(was, b0, terminal, Remembered(), d);
    }

    /** Draws a frame. `tree` is the component tree: the lines it renders for a width.

        If the terminal held the last frame, or the screen is cleared - because of another size, or of a
        change above the viewport - then whatever was drawn before, the terminal afterwards shows exactly
        the viewport of the new lines, everything above the viewport is in the scrollback, and the cursor
        is where the renderer believes it to be - on the lowest visible marker, unless a full redraw has
        just uncovered the row it is on.

        On a terminal of the same size that shows something else, row k of the screen is right exactly
        when this frame rewrote it or it was right before; a first frame is right in the rows that were
        no longer than what it prints; and a frame without changes leaves everything as it was. */
    method DoRender(tree: nat -> seq<Line>)
      requires Valid() && (terminal.delayedWrap || terminal.cols >= 2)
      modifies this
      ensures Valid() && GoesOn() && stopped == old(stopped)
      ensures stopped ==> terminal == old(terminal) && output == old(output)
      ensures !stopped ==> Drew(DrawnLines(tree(FrameWidth(terminal)), FrameWidth(terminal)))
      ensures !stopped && Remembered().HeldBy(terminal) ==>
                && Shows(terminal, previousLines, previousViewportTop)
                && D.ShowsComponents(terminal, tree(FrameWidth(terminal)), FrameWidth(terminal), previousViewportTop)
      ensures !stopped && old(SameSize() && Remembered().Aims(terminal))
              && Incremental(old(previousLines), previousLines, old(previousViewportTop), false) ==>
                RightWhereRewritten(terminal, old(terminal), old(previousLines), previousLines,
                    old(previousViewportTop), previousViewportTop)
      ensures !stopped && old(SameSize() && previousLines == []) ==>
                RightWhereCovered(terminal, old(terminal), previousLines, previousViewportTop)
      ensures !stopped && old(SameSize()) && previousLines == old(previousLines) != [] ==>
                terminal.tape == old(terminal.tape)
      ensures !stopped ==>
                var marker := CursorIn(tree(FrameWidth(terminal)), previousViewportTop, terminal.height, 0);
                var floor := if old(SameSize()) && old(previousLines) != [] then old(previousViewportTop) else 0;
                marker.Some? && marker.value.0 >= floor ==> CursorOn(marker.value)
    {
      if stopped {
        return;
      }
      var terminalWidth := terminal.cols;
      var width := if terminal.delayedWrap then terminalWidth else Max(1, terminalWidth - 1);
      var height := terminal.height;
      var widthChanged := previousWidth != 0 && previousWidth != width;
      var heightChanged := previousHeight != 0 && previousHeight != height;
      var previousBufferLength := if previousHeight > 0 then previousViewportTop + previousHeight else height;
      var prevViewportTop := if heightChanged then Max(0, previousBufferLength - height) else previousViewportTop;
      ghost var t0, b0 := terminal, Remembered();
      DrawFrame(tree(width), width, height, widthChanged, heightChanged, prevViewportTop);
      if Remembered().HeldBy(terminal) {
        HoldsShows(terminal, previousLines, previousViewportTop);
        D.ComponentsAreShown(terminal, tree(width), width, previousViewportTop);
      }
      if b0.SizeOf(t0) {
        RowsShown(t0, b0, terminal, Remembered());
      }
    }

    method DrawFrame(rendered: seq<Line>, width: nat, height: nat, widthChanged: bool, heightChanged: bool,
                     prevViewportTop: int)
      requires Valid() && !stopped && width == FrameWidth(terminal) && height == terminal.height
      requires terminal.delayedWrap || terminal.cols >= 2
      requires widthChanged <==> previousWidth != width
      requires heightChanged <==> previousHeight != height
      requires !heightChanged ==> prevViewportTop == previousViewportTop
      modifies this
      ensures Drew(DrawnLines(rendered, width))
      ensures var marker := CursorIn(rendered, previousViewportTop, terminal.height, 0);
              var floor := if old(SameSize()) && old(previousLines) != [] then old(previousViewportTop) else 0;
              marker.Some? && marker.value.0 >= floor ==> CursorOn(marker.value)
    {
      var theoretical := Max(0, |rendered| - height);
      var cursorTop := if previousLines == [] || widthChanged || heightChanged then theoretical
                       else Max(prevViewportTop, theoretical);
      var stripped, cursorPos := ExtractCursorPosition(rendered, height, cursorTop);
      var newLines := FitAndReset(stripped, rendered, width);
      CursorInViewport(rendered, cursorTop, height, 0);
      RenderLines(newLines, width, height, widthChanged, heightChanged, prevViewportTop, cursorPos);
      SameCursor(rendered, previousViewportTop, cursorTop, height, 0);
    }

    /** The choice between drawing everything and drawing the changes. */
    method RenderLines(newLines: seq<Line>, width: nat, height: nat, widthChanged: bool, heightChanged: bool,
                       prevViewportTop: int, cursorPos: Option<(nat, nat)>)
      requires Valid() && !stopped && width == FrameWidth(terminal) && height == terminal.height
      requires widthChanged <==> previousWidth != width
      requires heightChanged <==> previousHeight != height
      requires !heightChanged ==> prevViewportTop == previousViewportTop
      requires NonEmpty(newLines) && Narrow(newLines, UsableColumns(terminal))
      requires var theoretical := Max(0, |newLines| - height);
               var cursorTop := if previousLines == [] || widthChanged || heightChanged then theoretical
                                else Max(prevViewportTop, theoretical);
               cursorPos.Some? ==> cursorTop <= cursorPos.value.0 < |newLines|
                                   && cursorPos.value.0 < cursorTop + height
      modifies this
      ensures Drew(newLines)
      ensures cursorPos.Some? ==> CursorOn(cursorPos.value)
    {
      ghost var t0, b0 := terminal, Remembered();
      if previousLines == [] && !widthChanged && !heightChanged {
        DrawFirst(newLines, width, height, cursorPos);
        return;
      }
      if widthChanged || heightChanged {
        FullRender(newLines, width, height, cursorPos);
        DrawsCleared(t0, b0, terminal, Remembered());
        return;
      }
      RenderChanges(newLines, width, height, cursorPos);
    }

    /** After an empty frame: the screen is taken to be blank, and only the cursor sent home. */
    method DrawFirst(newLines: seq<Line>, width: nat, height: nat, cursorPos: Option<(nat, nat)>)
      requires Anchored() && SameSize() && width == FrameWidth(terminal) && height == terminal.height
      requires previousLines == [] && NonEmpty(newLines) && Narrow(newLines, UsableColumns(terminal))
      requires cursorPos.Some? ==> Max(0, |newLines| - height) <= cursorPos.value.0 < |newLines|
      modifies this
      ensures Drew(newLines)
      ensures cursorPos.Some? ==> CursorOn(cursorPos.value)
    {
      ghost var t0, b0 := terminal, Remembered();
      ghost var start := HomedScreen(t0);
      DrawAll([Home], newLines, width, height, cursorPos, start);
      PrintedFromHome(terminal, start, t0, newLines, t0.Top());
      assert b0.HeldBy(t0) ==> BlankScreen(t0);
      DrawsFirst(t0, b0, terminal, Remembered());
    }

    /** A frame on a terminal of the size of the previous one. */
    method RenderChanges(newLines: seq<Line>, width: nat, height: nat, cursorPos: Option<(nat, nat)>)
      requires Anchored() && width == FrameWidth(terminal) && height == terminal.height && SameSize()
      requires Remembered().Recorded() && previousLines != []
      requires NonEmpty(newLines) && Narrow(newLines, UsableColumns(terminal))
      requires cursorPos.Some? ==>
                 Max(previousViewportTop, |newLines| - height) <= cursorPos.value.0 < |newLines|
                 && cursorPos.value.0 < Max(previousViewportTop, |newLines| - height) + height
      modifies this
      ensures Drew(newLines)
      ensures cursorPos.Some? ==> CursorOn(cursorPos.value)
    {
      ghost var t0, b0 := terminal, Remembered();
      var prevViewportTop := previousViewportTop;
      var firstChanged, lastChanged := FindChanges(previousLines, newLines);
      ReachableChanges(previousLines, newLines, firstChanged, lastChanged, previousViewportTop);
      if firstChanged == -1 {
        DrawUnchanged(newLines, height, cursorPos);
      } else if firstChanged >= |newLines| {
        DrawShorter(newLines, width, height, prevViewportTop, cursorPos);
      } else if firstChanged < prevViewportTop {
        FullRender(newLines, width, height, cursorPos);
        DrawsCleared(t0, b0, terminal, Remembered());
      } else {
        WriteDiff(newLines, firstChanged, lastChanged, width, height, cursorPos);
      }
    }

    /** The same lines again: only the cursor moves. */
    method DrawUnchanged(newLines: seq<Line>, height: nat, cursorPos: Option<(nat, nat)>)
      requires Anchored() && height == terminal.height && SameSize() && Remembered().Recorded()
               && newLines == previousLines != []
      requires cursorPos.Some? ==> cursorPos.value.0 < |newLines|
                                   && previousViewportTop <= cursorPos.value.0 < previousViewportTop + height
      modifies this
      ensures Drew(newLines)
      ensures cursorPos.Some? ==> CursorOn(cursorPos.value)
    {
      ghost var t0, b0 := terminal, Remembered();
      previousHeight := height;
      PositionHardwareCursor(cursorPos, |newLines|);
      UnchangedIsRedrawn(terminal, t0, newLines, Shift(t0, previousViewportTop));
      DrawsChanges(t0, b0, terminal, Remembered(), Shift(t0, b0.top));
    }

    /** The frame without its last lines. */
    method DrawShorter(newLines: seq<Line>, width: nat, height: nat, prevViewportTop: int,
                       cursorPos: Option<(nat, nat)>)
      requires Anchored() && width == FrameWidth(terminal) && height == terminal.height && SameSize()
               && Remembered().Recorded()
      requires newLines < previousLines && prevViewportTop == previousViewportTop
      requires NonEmpty(newLines) && Narrow(newLines, UsableColumns(terminal))
      requires cursorPos.Some? ==>
                 Max(previousViewportTop, |newLines| - height) <= cursorPos.value.0 < |newLines|
                 && cursorPos.value.0 < Max(previousViewportTop, |newLines| - height) + height
      modifies this
      ensures Drew(newLines)
      ensures cursorPos.Some? ==> CursorOn(cursorPos.value)
    {
      ghost var t0, b0 := terminal, Remembered();
      var ok := WriteDeletedLines(newLines, height, prevViewportTop);
      if !ok {
        FullRender(newLines, width, height, cursorPos);
        DrawsCleared(t0, b0, terminal, Remembered());
      } else {
        FinishShorter(newLines, width, height, prevViewportTop, cursorPos, t0, b0);
      }
    }

    method FinishShorter(newLines: seq<Line>, width: nat, height: nat, prevViewportTop: int,
                         cursorPos: Option<(nat, nat)>, ghost t0: Screen, ghost b0: Belief)
      requires Anchored() && SameDevice(terminal, t0) && width == FrameWidth(terminal) && height == terminal.height
      requires b0.SizeOf(t0) && b0.Recorded() && newLines < b0.lines && prevViewportTop == b0.top == previousViewportTop
      requires NonEmpty(newLines) && prevViewportTop <= Max(0, |newLines| - 1) == hardwareCursorRow
      requires b0.Aims(t0) ==>
                 Remembered().Aims(terminal) && Redrawn(terminal, t0, b0.lines, newLines, Shift(t0, b0.top))
      requires cursorPos.Some? ==> prevViewportTop <= cursorPos.value.0 < |newLines|
      modifies this
      ensures GoesOn() && stopped == old(stopped) && fullRedrawCount == old(fullRedrawCount)
              && previousLines == newLines
      ensures Draws(t0, b0, terminal, Remembered())
      ensures cursorPos.Some? ==> hardwareCursorRow == cursorPos.value.0
                                  && terminal.col == Min(terminal.cols - 1, cursorPos.value.1)
    {
      ghost var t := terminal;
      Remember(newLines, width, height, prevViewportTop);
      PositionHardwareCursor(cursorPos, |newLines|);
      if b0.Aims(t0) {
        SameTapeRedrawn(terminal, t, t0, b0.lines, newLines, Shift(t0, prevViewportTop));
      }
      DrawsChanges(t0, b0, terminal, Remembered(), Shift(t0, b0.top));
    }
  }

  /** The output that blanks the rows past the end of a shorter frame. */
  method TailOutput(before: seq<Line>, after: seq<Line>, hardwareCursorRow: int, viewportTop: int, targetRow: int,
                    ghost t0: Screen, ghost d: int)
    returns (buf: seq<Command>, ghost t: Screen)
    requires Aligned(t0, viewportTop, hardwareCursorRow)
             && Sensible(|before|, viewportTop, hardwareCursorRow, t0.height)
    requires NonEmpty(before) && after < before && targetRow == Max(0, |after| - 1) >= viewportTop
             && d == Shift(t0, viewportTop)
    ensures Writes(t0, buf, t) && Redrawn(t, t0, before, after, d) && t.row == targetRow + d && t.Top() == t0.Top()
    ensures Releases(buf)
  {
    var extra := |before| - |after|;
    var currentScreenRow := hardwareCursorRow - viewportTop;
    var targetScreenRow := targetRow - viewportTop;
    var lineDiff := targetScreenRow - currentScreenRow;
    var clearStartOffset := if after == [] then 0 else 1;
    buf, t := EraseTail(lineDiff, clearStartOffset, extra, t0);
    TailErased(t, t0, before, after, d, t0.row + lineDiff);
  }

  /** The whole output of an incremental update. */
  method DiffOutput(before: seq<Line>, after: seq<Line>, firstChanged: int, lastChanged: int, previousTop: int,
                    height: nat,
                    hardwareCursorRow: int, cursorPos: Option<(nat, nat)>, showCursor: bool, ghost t0: Screen,
                      ghost d: int)
    returns (buf: seq<Command>, finalCursorRow: int, row: int, ghost u: Screen)
    requires Aligned(t0, previousTop, hardwareCursorRow) && height == t0.height && before != []
             && d == Shift(t0, previousTop)
    requires Sensible(|before|, previousTop, hardwareCursorRow, height)
    requires NonEmpty(before) && NonEmpty(after) && Narrow(after, UsableColumns(t0))
    requires Changes(before, after, firstChanged, lastChanged) && previousTop <= firstChanged < |after|
    requires cursorPos.Some? ==> Max(previousTop, |after| - height) <= cursorPos.value.0 < |after|
    ensures Writes(t0, buf, u) && Redrawn(u, t0, before, after, d) && u.row == row + d && before != after
    ensures Releases(buf)
    ensures Max(previousTop, finalCursorRow - height + 1) == Max(previousTop, |after| - height) == u.Top() - d
    ensures Sensible(|after|, u.Top() - d, row, height)
    ensures cursorPos.Some? ==> row == cursorPos.value.0 && u.col == Min(u.cols - 1, cursorPos.value.1)
  {
    ghost var t;
    buf, finalCursorRow, t :=
      DiffBuffer(before, after, firstChanged, lastChanged, previousTop, height, hardwareCursorRow, t0, d);
    PatchedIsRedrawn(t, t0, before, after, firstChanged, lastChanged, d);
    RedrawnTop(t, t0, before, after, previousTop, d);
    LastRowTop(before, after, firstChanged, lastChanged, previousTop, height);
    buf, row, u := FinishDiff(buf, finalCursorRow, cursorPos, |after|, showCursor, t0, t, d);
    SameTapeRedrawn(u, t, t0, before, after, d);
  }

  lemma IncrementalTop(before: seq<Line>, after: seq<Line>, top: int)
    requires Incremental(before, after, top, false) && top <= Max(0, |before| - 1)
    ensures top <= Max(0, |after| - 1)
  {
  }

  lemma SameTapeRedrawn(u: Screen, t: Screen, t0: Screen, before: seq<Line>, after: seq<Line>, d: int)
    requires Redrawn(t, t0, before, after, d) && SameDevice(u, t) && u.tape == t.tape
    ensures Redrawn(u, t0, before, after, d)
  {
  }

  /** The cursor may move after the lines are printed. */
  lemma AfterPrinting(u: Screen, t: Screen, t0: Screen, lines: seq<Line>)
    requires Printed(t, t0, lines, |lines|, t0.Top()) && SameDevice(u, t) && u.tape == t.tape
    ensures Printed(u, t0, lines, |lines|, t0.Top())
    ensures BlankScreen(t0) ==> InStep(u, lines, Max(0, |lines| - u.height), u.row)
  {
    if BlankScreen(t0) { PrintedInStep(u, t0, lines); }
  }

  lemma PrintedFromHome(t: Screen, start: Screen, t0: Screen, lines: seq<Line>, d: nat)
    requires Printed(t, start, lines, |lines|, d) && SameDevice(start, t0) && start.tape == t0.tape
    ensures Printed(t, t0, lines, |lines|, d)
  {
  }

  lemma HomedScreen(t: Screen) returns (u: Screen)
    ensures Writes(t, [SyncBegin] + [Home], u) && Homed(u) && SameDevice(u, t) && u.tape == t.tape && u.Top() == t.Top()
    ensures BlankScreen(t) ==> BlankScreen(u)
  {
    WritesNothing(t);
    assert [] + [SyncBegin] == [SyncBegin];
    WritesOne(t, [], t, SyncBegin);
    WritesOne(t, [SyncBegin], t, Home);
    u := Exec(t, Home);
  }

  lemma ClearedIsBlank(t: Screen) returns (u: Screen)
    ensures Writes(t, [SyncBegin] + [ClearScreen, Home, ClearScrollback], u)
    ensures BlankScreen(u) && Homed(u) && SameDevice(u, t)
  {
    WritesNothing(t);
    assert [] + [SyncBegin, ClearScreen] == [SyncBegin, ClearScreen];
    WritesTwo(t, [], t, SyncBegin, ClearScreen);
    WritesTwo(t, [SyncBegin, ClearScreen], Exec(t, ClearScreen), Home, ClearScrollback);
    assert [SyncBegin] + [ClearScreen, Home, ClearScrollback] == [SyncBegin, ClearScreen] + [Home, ClearScrollback];
    u := Exec(Exec(Exec(t, ClearScreen), Home), ClearScrollback);
  }

  lemma RowsShown(t0: Screen, b0: Belief, t: Screen, b: Belief)
    requires Draws(t0, b0, t, b) && b0.SizeOf(t0) && b0.Recorded()
    ensures b0.Aims(t0) && Incremental(b0.lines, b.lines, b0.top, false) ==>
              RightWhereRewritten(t, t0, b0.lines, b.lines, b0.top, b.top)
    ensures b0.lines == [] ==> RightWhereCovered(t, t0, b.lines, b.top)
  {
    if b0.Aims(t0) && Incremental(b0.lines, b.lines, b0.top, false) {
      RowsRewritten(t, t0, b0.lines, b.lines, b0.top, b.top, Shift(t0, b0.top));
    }
    if b0.lines == [] {
      RowsCovered(t, t0, b.lines, b.top);
    }
  }

  lemma RowsRewritten(t: Screen, t0: Screen, before: seq<Line>, after: seq<Line>, top: nat, newTop: nat, d: int)
    requires Redrawn(t, t0, before, after, d) && d == Shift(t0, top) && NonEmpty(after) && |before| <= top + t.height
    requires newTop == Max(top, |after| - t.height)
    ensures RightWhereRewritten(t, t0, before, after, top, newTop)
  {
    forall k | 0 <= k < t.height
      ensures RowRight(t, t0, before, after, top, newTop, k)
    {
      RedrawnRow(t, t0, before, after, top, newTop, k, d);
    }
  }

  // ---- a terminal that shows something else --------------------------------------------------------

  ghost predicate ShowsScreen(t: Screen, lines: seq<Line>, top: int) {
    forall k :: 0 <= k < t.height ==> ShowsRow(t, lines, top, k)
  }

  /** An incremental frame leaves the screen right exactly when every row it does not rewrite was right. */
  lemma ScreenIsRight(t: Screen, t0: Screen, before: seq<Line>, after: seq<Line>, top: int, newTop: int)
    requires RightWhereRewritten(t, t0, before, after, top, newTop)
    ensures ShowsScreen(t, after, newTop) <==>
              forall k :: 0 <= k < t.height ==> RewrittenOrRight(t0, before, after, top, newTop, k)
  {
    forall k | 0 <= k < t.height
      ensures ShowsRow(t, after, newTop, k) <==> RewrittenOrRight(t0, before, after, top, newTop, k)
    {
      assert RowRight(t, t0, before, after, top, newTop, k);
    }
  }

  /** So a window that is given another size and its old size again between two frames, and shows
      something else since, stays wrong under a frame without changes. */
  lemma UndoneResizeStaysWrong(t: Screen, t0: Screen, lines: seq<Line>)
    requires |lines| > 0 && lines[0] != [] && Width(lines[0]) > 0 && FrameWidth(t0) >= Width(lines[0]) && |lines| == 1
    requires t0.tape == seq(t0.height, i => []) && t0.row == 0
    requires Draws(t0, Belief(lines, FrameWidth(t0), t0.height, 0, 0), t,
               Belief(lines, FrameWidth(t0), t0.height, 0, 0))
    ensures !ShowsScreen(t, lines, 0)
  {
    assert t.tape[0] == [] && |RowOf(lines, 0)| > 0;
    assert !ShowsRow(t, lines, 0, 0);
  }

  /** And with the cursor on another row than the renderer takes it to be on, the output that changes b to c
      overwrites a. */
  lemma CursorElsewhereBreaks(a: Line, b: Line, c: Line)
    requires |a| == |b| == |c| == 1 && a[0] == Glyph("a", 1) && b[0] == Glyph("b", 1) && c[0] == Glyph("c", 1)
    ensures var known := Tty(1, 2, true, [Paint(a), Paint(b)], 1, 1);
            var output := [SyncBegin, CarriageReturn, ClearLine, Print(c), HideCursor, SyncEnd];
            && Run(known, output).tape == [Paint(a), Paint(c)]
            && Run(known.(row := 0), output).tape == [Paint(c), Paint(b)]
  {
    RewritesItsRow(Tty(1, 2, true, [Paint(a), Paint(b)], 1, 1), c);
    RewritesItsRow(Tty(1, 2, true, [Paint(a), Paint(b)], 0, 1), c);
  }

  lemma RewritesItsRow(t: Screen, c: Line)
    requires Width(c) <= UsableColumns(t)
    ensures Run(t, [SyncBegin, CarriageReturn, ClearLine, Print(c), HideCursor, SyncEnd]).tape
            == t.tape[t.row := Paint(c)]
  {
    WritesNothing(t);
    WritesTwo(t, [], t, SyncBegin, CarriageReturn);
    assert [] + [SyncBegin, CarriageReturn] == [SyncBegin, CarriageReturn];
    var u := Exec(t, CarriageReturn);
    Rewrite(t, [SyncBegin, CarriageReturn], u, c);
    var v := u.(tape := u.tape[u.row := Paint(c)], col := Width(c));
    var buf := [SyncBegin, CarriageReturn] + [ClearLine, Print(c)];
    WritesTwo(t, buf, v, HideCursor, SyncEnd);
    assert buf + [HideCursor, SyncEnd] == [SyncBegin, CarriageReturn, ClearLine, Print(c), HideCursor, SyncEnd];
    WritesIsRun(t, buf + [HideCursor, SyncEnd], v);
  }

  // ---- any run -----------------------------------------------------------------------------------

  type Tree = nat -> seq<Line>

  /** What the event loop brings: a frame to draw, a terminal that has changed size - or has been given the
      same size again - and may show anything, or a request to forget the last frame. */
  datatype Event = Frame(tree: Tree) | Resize(terminal: Screen) | Force

  /** What is known from the events alone: what the renderer remembers, whether the terminal has changed
      since the last frame, and whether a change went unnoticed and has not been cleared away since. */
  datatype History = History(belief: Belief, resized: bool, lost: bool)

  const FORGOTTEN := Belief([], -1, -1, 0, 0)
  const BEGUN := History(FORGOTTEN, false, false)

  ghost function Next(h: History, t: Screen, event: Event): History {
    match event
    case Frame(tree) =>
      var b, lines := h.belief, DrawnLines(tree(FrameWidth(t)), FrameWidth(t));
      History(Belief(lines, FrameWidth(t), t.height, NextTop(b, lines, t.height, Patches(b, t, lines)), 0),
              false,
              (h.lost || h.resized) && !Cleared(b.lines, lines, b.top, !b.SizeOf(t)))
    case Resize(_) => h.(resized := true)
    case Force => h.(belief := FORGOTTEN)
  }

  /** The terminal at some moment, and what has led there. */
  datatype Moment = Moment(screen: Screen, history: History)

  /** The next moment: the event's output is written to the terminal, or another terminal takes its place. */
  ghost function Then(m: Moment, event: Event, sent: seq<Command>): Moment {
    Moment(if event.Resize? then event.terminal else Run(m.screen, sent), Next(m.history, m.screen, event))
  }

  /** The terminal shows the tree's lines for its width: the components' own text. */
  ghost predicate ShowsTree(t: Screen, tree: Tree) {
    && Shows(t, DrawnLines(tree(FrameWidth(t)), FrameWidth(t)), t.Top())
    && D.ShowsComponents(t, tree(FrameWidth(t)), FrameWidth(t), t.Top())
  }

  /** A full line does not move the cursor to the next row. */
  predicate Roomy(t: Tty) { t.delayedWrap || t.cols >= 2 }

  ghost predicate Follows(tui: TUI, h: History)
    reads tui
  {
    && tui.Valid() && !tui.stopped && Roomy(tui.terminal)
    && tui.Remembered().(row := 0) == h.belief
    && (!h.lost && !h.resized && tui.SameSize() ==> tui.Remembered().HeldBy(tui.terminal))
  }

  /** One event, and the output it leads to. */
  method Handle(tui: TUI, event: Event, ghost m: Moment) returns (sent: seq<Command>)
    requires Follows(tui, m.history) && tui.terminal == m.screen && (event.Resize? ==> Roomy(event.terminal))
    modifies tui
    ensures var n := Then(m, event, sent);
            && Follows(tui, n.history) && tui.terminal == n.screen
            && (event.Frame? && !n.history.lost ==> ShowsTree(n.screen, event.tree))
    ensures !event.Frame? ==> sent == []
  {
    sent := [];
    match event {
      case Frame(tree) => sent := HandleFrame(tui, tree, m);
      case Resize(t) => tui.TerminalResized(t);
      case Force => tui.ForceRender();
    }
  }

  method HandleFrame(tui: TUI, tree: Tree, ghost m: Moment) returns (sent: seq<Command>)
    requires Follows(tui, m.history) && tui.terminal == m.screen
    modifies tui
    ensures var n := Then(m, Frame(tree), sent);
            && Follows(tui, n.history) && tui.terminal == n.screen
            && (!n.history.lost ==> ShowsTree(n.screen, tree))
  {
    ghost var t0, b0 := tui.terminal, tui.Remembered();
    var already := |tui.output|;
    ghost var base, was := tui.base, tui.output;
    tui.DoRender(tree);
    sent := tui.output[already..];
    assert was + sent == tui.output;
    Continued(base, was, t0, sent, tui.terminal);
    FrameFollows(t0, b0, tui.terminal, tui.Remembered(), tree, m.history);
  }

  /** What is written later is all that separates two moments. */
  lemma Continued(base: Screen, a: seq<Command>, t: Screen, b: seq<Command>, u: Screen)
    requires Writes(base, a, t) && Writes(base, a + b, u)
    ensures u == Run(t, b)
  {
    RunIsWritten(t, b);
    WritesConcat(base, a, t, b, Run(t, b));
    WritesIsRun(base, a + b, Run(t, b));
    WritesIsRun(base, a + b, u);
  }

  lemma FrameFollows(t0: Screen, b0: Belief, t: Screen, b: Belief, tree: Tree, h: History)
    requires Draws(t0, b0, t, b) && b.lines == DrawnLines(tree(FrameWidth(t)), FrameWidth(t))
    requires b0.(row := 0) == h.belief && (!h.lost && !h.resized && b0.SizeOf(t0) ==> b0.HeldBy(t0))
    ensures var n := Next(h, t0, Frame(tree));
            b.(row := 0) == n.belief && !n.resized && (!n.lost ==> b.HeldBy(t))
  {
  }

  /** One event leads from one moment to the next, and a frame is shown unless the screen is lost. */
  ghost predicate Happened(m: Moment, event: Event, sent: seq<Command>, n: Moment) {
    && n == Then(m, event, sent) && (!event.Frame? ==> sent == [])
    && (event.Frame? && !n.history.lost ==> ShowsTree(n.screen, event.tree))
  }

  ghost predicate AllHappened(moments: seq<Moment>, events: seq<Event>, sent: seq<seq<Command>>)
    requires |sent| <= |events| && |moments| == |sent| + 1
  {
    forall i {:trigger sent[i]} :: 0 <= i < |sent| ==> Happened(moments[i], events[i], sent[i], moments[i + 1])
  }

  lemma OneMore(moments: seq<Moment>, events: seq<Event>, sent: seq<seq<Command>>, m: Moment, output: seq<Command>)
    requires |sent| < |events| && |moments| == |sent| + 1 && AllHappened(moments, events, sent)
    requires Happened(moments[|sent|], events[|sent|], output, m)
    ensures AllHappened(moments + [m], events, sent + [output])
  {
    forall i {:trigger (sent + [output])[i]} | 0 <= i < |sent + [output]|
      ensures Happened((moments + [m])[i], events[i], (sent + [output])[i], (moments + [m])[i + 1])
    {
      if i < |sent| { assert Happened(moments[i], events[i], sent[i], moments[i + 1]); }
    }
  }

  /** Any run from any terminal. What the terminal shows at each moment is what the commands written to it
      make of it, and every frame is what it then shows, unless the terminal changed after the last frame
      without changing size, and nothing has cleared it since. */
  method EventLoop(terminal: Screen, showHardwareCursor: bool, events: seq<Event>)
    returns (began: seq<Command>, sent: seq<seq<Command>>, ghost moments: seq<Moment>)
    requires Roomy(terminal) && forall e :: e in events && e.Resize? ==> Roomy(e.terminal)
    ensures |sent| == |events| && |moments| == |events| + 1 && moments[0] == Moment(Run(terminal, began), BEGUN)
    ensures AllHappened(moments, events, sent)
  {
    var tui := new TUI(terminal, showHardwareCursor);
    tui.Start();
    began, sent := tui.output, [];
    assert [] + began == began;
    Continued(terminal, [], terminal, began, tui.terminal);
    moments := [Moment(tui.terminal, BEGUN)];
    for n := 0 to |events|
      invariant fresh(tui) && |moments| == n + 1 && |sent| == n && moments[0] == Moment(Run(terminal, began), BEGUN)
      invariant Follows(tui, moments[n].history) && tui.terminal == moments[n].screen
      invariant AllHappened(moments, events, sent)
    {
      var output := Handle(tui, events[n], moments[n]);
      ghost var m := Then(moments[n], events[n], output);
      OneMore(moments, events, sent, m, output);
      moments, sent := moments + [m], sent + [output];
    }
  }
}
