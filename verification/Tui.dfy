/** The differential renderer. Each frame it compares the new lines with those it drew before and
    writes cursor moves, line feeds and line rewrites; the theorem is that the terminal, started
    from the previous frame, then holds exactly the new lines. */
module Tui {
  import opened Options
  import opened Text
  import opened Layout
  import opened Terminal

  // ---- what a frame should look like ---------------------------------------------------------

  function IndexOf(line: Line, item: Item): (i: int)
    ensures -1 <= i < |line|
  {
    if line == [] then -1
    else if IndexOf(line[..|line| - 1], item) != -1 then IndexOf(line[..|line| - 1], item)
    else if line[|line| - 1] == item then |line| - 1 else -1
  }

  /** The line without its first cursor marker. */
  function StripMarker(line: Line): Line {
    var i := IndexOf(line, CURSOR_MARKER);
    if i == -1 then line else line[..i] + line[i + 1..]
  }

  /** The width of the text before the marker. */
  function MarkerColumn(line: Line): Option<nat> {
    var i := IndexOf(line, CURSOR_MARKER);
    if i == -1 then None else Some(Width(line[..i]))
  }

  /** The row and column of the lowest marker inside the viewport that starts at `top`, looking at
      the lines from `from` on. */
  function CursorIn(lines: seq<Line>, top: nat, height: nat, from: nat): Option<(nat, nat)>
    requires from <= |lines|
    decreases |lines| - from
  {
    if from == |lines| then None
    else
      var below := CursorIn(lines, top, height, from + 1);
      var column := MarkerColumn(lines[from]);
      if below.Some? || column.None? || !(top <= from < top + height) then below
      else Some((from, column.value))
  }

  function NormalizeText(s: string): string {
    if s == "" then ""
    else (match s[0]
          case '\U{0e33}' => "\U{0e4d}\U{0e32}"
          case '\U{0eb3}' => "\U{0ecd}\U{0eb2}"
          case c => [c]) + NormalizeText(s[1..])
  }

  function NormalizeItem(item: Item): Item {
    match item
    case Glyph(text, width) => Glyph(NormalizeText(text), width)
    case Escape(code) => Escape(NormalizeText(code))
    case Tab => Tab
  }

  /** Thai and Lao AM vowels are decomposed; the cell width of a cluster stays the same. */
  function Normalize(line: Line): Line {
    seq(|line|, i requires 0 <= i < |line| => NormalizeItem(line[i]))
  }

  /** A component's line as the renderer draws it. */
  function Drawn(line: Line, width: nat): Line {
    Normalize(Fit(StripMarker(line), width)) + SEGMENT_RESET
  }

  function DrawnLines(lines: seq<Line>, width: nat): seq<Line> {
    seq(|lines|, i requires 0 <= i < |lines| => Drawn(lines[i], width))
  }

  lemma {:induction false} NormalizeKeepsWidth(line: Line)
    ensures Width(Normalize(line)) == Width(line)
  {
    if line != [] {
      NormalizeKeepsWidth(line[..|line| - 1]);
      assert Normalize(line)[..|line| - 1] == Normalize(line[..|line| - 1]);
    }
  }

  /** Drawn lines are never empty, and never wider than the frame. */
  lemma DrawnFits(line: Line, width: nat)
    ensures Width(Drawn(line, width)) <= width && Drawn(line, width) != []
  {
    var fitted := Fit(StripMarker(line), width);
    FitNeverWraps(StripMarker(line), width);
    NormalizeKeepsWidth(fitted);
    WidthConcat(Normalize(fitted), SEGMENT_RESET);
    EscapesPaintNothing(SEGMENT_RESET);
  }

  lemma {:induction false} CursorInViewport(lines: seq<Line>, top: nat, height: nat, from: nat)
    requires from <= |lines|
    ensures var c := CursorIn(lines, top, height, from);
            c.Some? ==> from <= c.value.0 < |lines| && top <= c.value.0 < top + height
    decreases |lines| - from
  {
    if from < |lines| {
      CursorInViewport(lines, top, height, from + 1);
    }
  }

  // ---- what the terminal holds ---------------------------------------------------------------

  function RowOf(lines: seq<Line>, k: int): Row {
    if 0 <= k < |lines| then Paint(lines[k]) else []
  }

  /** Row k of the tape is line k; rows past the last line are blank. */
  ghost predicate Holds(t: Tty, lines: seq<Line>) {
    forall k {:trigger t.tape[k]} :: 0 <= k < |t.tape| ==> t.tape[k] == RowOf(lines, k)
  }

  /** The terminal shows the viewport of the lines that starts at `top`, not past their end: screen row k is line
      top + k, blank past the end, and what scrolled off is the lines above. */
  ghost predicate Shows(t: Screen, lines: seq<Line>, top: int) {
    && t.Top() == top
    && top <= Max(0, |lines| - 1)
    && |lines| <= top + t.height
    && (forall k :: 0 <= k < t.height ==> t.Screen()[k] == RowOf(lines, top + k))
    && (forall k :: 0 <= k < top ==> k < |lines| && t.Scrollback()[k] == Paint(lines[k]))
  }

  /** Screen row k is right. */
  ghost predicate ShowsRow(t: Screen, lines: seq<Line>, top: int, k: int)
    requires 0 <= k < t.height
  {
    t.tape[t.Top() + k] == RowOf(lines, top + k)
  }

  lemma HoldsShows(t: Screen, lines: seq<Line>, top: int)
    requires Holds(t, lines) && t.Top() == top && |lines| <= top + t.height && top <= Max(0, |lines| - 1)
    ensures Shows(t, lines, top)
  {
  }

  // ---- cursor moves and rewrites as the machine sees them ------------------------------------

  /** The relative move the renderer emits for a row difference. */
  function Move(delta: int): seq<Command> {
    if delta > 0 then [Down(delta)] else if delta < 0 then [Up(-delta)] else []
  }

  /** Where it leads: as far as the screen goes. */
  function Moved(t: Screen, delta: int): Screen { t.(row := Max(t.Top(), Min(|t.tape| - 1, t.row + delta))) }

  /** A relative move between rows of the screen is never clamped. */
  lemma MoveReaches(base: Screen, buf: seq<Command>, t: Screen, delta: int)
    requires Writes(base, buf, t)
    ensures Writes(base, buf + Move(delta), Moved(t, delta))
    ensures t.Top() <= t.row + delta < |t.tape| ==> Moved(t, delta) == t.(row := t.row + delta)
  {
    if delta > 0 {
      WritesOne(base, buf, t, Down(delta));
    } else if delta < 0 {
      WritesOne(base, buf, t, Up(-delta));
    } else {
      assert buf + [] == buf;
    }
  }

  const CRLF := [CarriageReturn, LineFeed]

  /** A new line: one row down at the first column, with a blank row appended to the tape when the
      cursor is on the last one. */
  function NextLine(t: Screen): (u: Screen)
    ensures u.row == t.row + 1 && u.col == 0
    ensures u.cols == t.cols && u.height == t.height && u.delayedWrap == t.delayedWrap
    ensures u.tape == if t.row + 1 < |t.tape| then t.tape else t.tape + [[]]
  {
    Exec(Exec(t, CarriageReturn), LineFeed)
  }

  lemma NewLine(base: Screen, buf: seq<Command>, t: Screen)
    requires Writes(base, buf, t)
    ensures Writes(base, buf + CRLF, NextLine(t))
  {
    WritesTwo(base, buf, t, CarriageReturn, LineFeed);
  }

  /** Clearing the row and printing a line that fits replaces that row and nothing else. */
  lemma Rewrite(base: Screen, buf: seq<Command>, t: Screen, line: Line)
    requires Writes(base, buf, t) && t.col == 0 && Width(line) <= UsableColumns(t)
    ensures Writes(base, buf + [ClearLine, Print(line)], t.(tape := t.tape[t.row := Paint(line)], col := Width(line)))
  {
    WritesTwo(base, buf, t, ClearLine, Print(line));
    var u := Exec(t, ClearLine);
    PrintFits(u, line);
    assert u.tape[t.row := Paint(line)] == t.tape[t.row := Paint(line)];
  }
}
