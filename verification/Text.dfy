/** Terminal text as the renderer measures it: a line is a sequence of items, each of which is a
    grapheme cluster with its column width, a tab, or a whole zero-width escape sequence.
    Widths are data of the glyphs, so every statement below holds for any width table.  */
module Text {

  datatype Item =
    | Glyph(text: string, width: nat)
    | Tab
    | Escape(code: string)

  type Line = seq<Item>

  /** One screen column. A glyph of width w occupies w cells; a tab is measured as three blanks. */
  datatype Cell = Blank | Part(text: string, column: int)

  const TAB_WIDTH := 3
  const RESET := Escape("\U{1b}[0m")
  const SEGMENT_RESET: Line := [RESET, Escape("\U{1b}]8;;\U{07}")]
  const CURSOR_MARKER := Escape("\U{1b}_agent:c\U{07}")

  function ItemWidth(item: Item): nat {
    match item
    case Glyph(_, w) => w
    case Tab => TAB_WIDTH
    case Escape(_) => 0
  }

  /** visible_width: the sum of the item widths. */
  function Width(line: Line): nat {
    if line == [] then 0 else Width(line[..|line| - 1]) + ItemWidth(line[|line| - 1])
  }

  function ItemCells(item: Item): (cells: seq<Cell>)
    ensures |cells| == ItemWidth(item)
  {
    match item
    case Glyph(t, w) => seq(w, i => Part(t, i))
    case Tab => [Blank, Blank, Blank]
    case Escape(_) => []
  }

  /** What the line looks like on a row of the screen. */
  function Paint(line: Line): (cells: seq<Cell>)
    ensures |cells| == Width(line)
  {
    if line == [] then [] else Paint(line[..|line| - 1]) + ItemCells(line[|line| - 1])
  }

  function Spaces(n: nat): Line {
    seq(n, i => Glyph(" ", 1))
  }

  lemma {:induction false} WidthConcat(a: Line, b: Line)
    ensures Width(a + b) == Width(a) + Width(b)
  {
    if b == [] {
      assert a + b == a;
    } else {
      var m := |b| - 1;
      assert (a + b)[..|a + b| - 1] == a + b[..m];
      WidthConcat(a, b[..m]);
    }
  }

  lemma {:induction false} PaintConcat(a: Line, b: Line)
    ensures Paint(a + b) == Paint(a) + Paint(b)
  {
    if b == [] {
      assert a + b == a;
    } else {
      var m := |b| - 1;
      PaintConcat(a, b[..m]);
      PaintSnoc(a + b[..m], b[m]);
      Snoc(a, b);
      CellsAssoc(Paint(a), Paint(b[..m]), ItemCells(b[m]));
    }
  }

  lemma PaintSnoc(line: Line, item: Item)
    ensures Paint(line + [item]) == Paint(line) + ItemCells(item)
  {
    assert (line + [item])[..|line|] == line;
  }

  lemma Snoc(a: Line, b: Line)
    requires b != []
    ensures a + b == a + b[..|b| - 1] + [b[|b| - 1]]
  {
  }

  lemma CellsAssoc(a: seq<Cell>, b: seq<Cell>, c: seq<Cell>)
    ensures a + b + c == a + (b + c)
  {
  }

  lemma {:induction false} WidthPrefix(line: Line, i: nat, j: nat)
    requires i <= j <= |line|
    ensures Width(line[..i]) <= Width(line[..j])
  {
    WidthConcat(line[..i], line[i..j]);
    assert line[..j] == line[..i] + line[i..j];
  }

  lemma WidthStep(line: Line, i: nat)
    requires i < |line|
    ensures Width(line[..i + 1]) == Width(line[..i]) + ItemWidth(line[i])
  {
    assert line[..i + 1][..i] == line[..i];
  }

  lemma Prefixes(line: Line, i: nat)
    requires i <= |line|
    ensures line[..0] == [] && line[..|line|] == line
    ensures i < |line| ==> line[..i + 1] == line[..i] + [line[i]]
  {
  }

  lemma {:induction false} WidthSpaces(n: nat)
    ensures Width(Spaces(n)) == n
  {
    if n > 0 {
      assert Spaces(n)[..n - 1] == Spaces(n - 1);
      WidthSpaces(n - 1);
    }
  }

  /** Escapes paint nothing. */
  lemma {:induction false} EscapesPaintNothing(line: Line)
    requires forall i :: 0 <= i < |line| ==> line[i].Escape?
    ensures Paint(line) == [] && Width(line) == 0
  {
    if line != [] {
      EscapesPaintNothing(line[..|line| - 1]);
    }
  }

  // ---- tab stops -----------------------------------------------------------------------------

  const TAB_STOP := 8

  /** Where a terminal with a tab stop every eight columns leaves the cursor. */
  function EndColumn(line: Line): nat {
    if line == [] then 0
    else
      var column := EndColumn(line[..|line| - 1]);
      match line[|line| - 1]
      case Tab => (column / TAB_STOP + 1) * TAB_STOP
      case item => column + ItemWidth(item)
  }

  /** Every tab starts three columns before a tab stop. */
  ghost predicate TabsFit(line: Line) {
    forall i :: 0 <= i < |line| && line[i].Tab? ==> Width(line[..i]) % TAB_STOP == TAB_STOP - TAB_WIDTH
  }

  /** The measured width is where the cursor is, all along the line, exactly when every tab starts three
      columns before a tab stop. */
  lemma {:induction false} MeasuredRight(line: Line)
    ensures (forall i :: 0 <= i <= |line| ==> EndColumn(line[..i]) == Width(line[..i])) <==> TabsFit(line)
  {
    if TabsFit(line) {
      forall i | 0 <= i <= |line| ensures EndColumn(line[..i]) == Width(line[..i]) { EndsWhereMeasured(line, i); }
    }
    if forall i :: 0 <= i <= |line| ==> EndColumn(line[..i]) == Width(line[..i]) {
      forall i | 0 <= i < |line| && line[i].Tab?
        ensures Width(line[..i]) % TAB_STOP == TAB_STOP - TAB_WIDTH
      {
        assert line[..i + 1][..i] == line[..i];
        assert EndColumn(line[..i + 1]) == Width(line[..i + 1]) && EndColumn(line[..i]) == Width(line[..i]);
      }
    }
  }

  lemma {:induction false} EndsWhereMeasured(line: Line, i: nat)
    requires i <= |line| && TabsFit(line)
    ensures EndColumn(line[..i]) == Width(line[..i])
  {
    if i > 0 {
      EndsWhereMeasured(line, i - 1);
      assert line[..i][..i - 1] == line[..i - 1];
    }
  }

  /** A tab at the start of a line is measured as three columns and takes eight. */
  lemma TabTakesEight()
    ensures Width([Tab]) == 3 && EndColumn([Tab]) == 8
  {
    assert [Tab][..0] == [];
  }
}
