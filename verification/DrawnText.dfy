/** What a drawn line looks like: the cells of the component's own line, cut at the width, with two vowels
    decomposed, and the border of a table row closed. */
module DrawnText {
  import opened Chars
  import opened Options
  import opened Text
  import opened Layout
  import opened Terminal
  import opened Tui

  // ---- the text of a cell ----------------------------------------------------------------------------

  /** Thai and Lao SARA AM become two code points each, text around them is treated on its own, and text
      without them stays as it is. */
  lemma TextIsNormalized(a: string, b: string)
    ensures NormalizeText(a + b) == NormalizeText(a) + NormalizeText(b)
    ensures NormalizeText("\U{0e33}") == "\U{0e4d}\U{0e32}" && NormalizeText("\U{0eb3}") == "\U{0ecd}\U{0eb2}"
    ensures '\U{0e33}' !in a && '\U{0eb3}' !in a ==> NormalizeText(a) == a
  {
    assert "\U{0e33}"[1..] == "" && "\U{0eb3}"[1..] == "";
    TextInParts(a, b);
    if '\U{0e33}' !in a && '\U{0eb3}' !in a { TextStays(a); }
  }

  lemma {:induction false} TextInParts(a: string, b: string)
    ensures NormalizeText(a + b) == NormalizeText(a) + NormalizeText(b)
  {
    if a == "" {
      assert a + b == b && NormalizeText(a) == "" && "" + NormalizeText(b) == NormalizeText(b);
    } else {
      TextInParts(a[1..], b);
      assert (a + b)[1..] == a[1..] + b;
      Append(NormalizeText([a[0]]), NormalizeText(a[1..]), NormalizeText(b));
      OneChar(a);
      OneChar(a + b);
    }
  }

  lemma {:induction false} TextStays(a: string)
    requires '\U{0e33}' !in a && '\U{0eb3}' !in a
    ensures NormalizeText(a) == a
  {
    if a != "" {
      TextStays(a[1..]);
      OneChar(a);
      assert [a[0]] + a[1..] == a;
    }
  }

  lemma Append<T>(a: seq<T>, b: seq<T>, c: seq<T>)
    ensures a + b + c == a + (b + c)
  {
  }

  lemma OneChar(s: string)
    requires s != ""
    ensures NormalizeText(s) == NormalizeText([s[0]]) + NormalizeText(s[1..])
    ensures s[0] !in {'\U{0e33}', '\U{0eb3}'} ==> NormalizeText([s[0]]) == [s[0]]
  {
    assert [s[0]][1..] == "" && NormalizeText("") == "";
  }

  function Spelt(c: Cell): Cell {
    match c
    case Part(text, column) => Part(NormalizeText(text), column)
    case Blank => Blank
  }

  /** The cells with their text normalised. */
  function SpeltAll(cells: seq<Cell>): seq<Cell> { seq(|cells|, i requires 0 <= i < |cells| => Spelt(cells[i])) }

  predicate WithoutVowels(cells: seq<Cell>) {
    forall i :: 0 <= i < |cells| && cells[i].Part? ==> '\U{0e33}' !in cells[i].text && '\U{0eb3}' !in cells[i].text
  }

  lemma SpeltAsBefore(cells: seq<Cell>)
    requires WithoutVowels(cells)
    ensures SpeltAll(cells) == cells
  {
    forall i | 0 <= i < |cells| ensures Spelt(cells[i]) == cells[i] {
      if cells[i].Part? { TextIsNormalized(cells[i].text, ""); }
    }
  }

  lemma {:induction false} NormalizedPaint(line: Line)
    ensures Paint(Normalize(line)) == SpeltAll(Paint(line))
  {
    if line != [] {
      var front, last := line[..|line| - 1], line[|line| - 1];
      NormalizedPaint(front);
      assert Normalize(line)[..|line| - 1] == Normalize(front);
      NormalizedCells(last);
      SpeltConcat(Paint(front), ItemCells(last));
    }
  }

  lemma NormalizedCells(item: Item)
    ensures ItemCells(NormalizeItem(item)) == SpeltAll(ItemCells(item))
  {
  }

  lemma SpeltConcat(a: seq<Cell>, b: seq<Cell>)
    ensures SpeltAll(a + b) == SpeltAll(a) + SpeltAll(b)
  {
  }

  function Parts(text: string, width: nat): seq<Cell> { seq(width, i => Part(text, i)) }

  /** A glyph is painted where the text in front of it ends, one part for each of its columns. */
  lemma GlyphIsPainted(a: Line, text: string, width: nat, b: Line)
    ensures Paint(a + [Glyph(text, width)] + b) == Paint(a) + Parts(text, width) + Paint(b)
  {
    PaintConcat(a + [Glyph(text, width)], b);
    PaintSnoc(a, Glyph(text, width));
    GlyphCells(text, width);
  }

  lemma GlyphCells(text: string, width: nat)
    ensures ItemCells(Glyph(text, width)) == Parts(text, width)
  {
  }

  // ---- the marker ------------------------------------------------------------------------------------

  lemma {:induction false} NotFound(line: Line, item: Item)
    requires item !in line
    ensures IndexOf(line, item) == -1
  {
    if line != [] { NotFound(line[..|line| - 1], item); }
  }

  lemma {:induction false} FoundFirst(a: Line, item: Item, b: Line)
    requires item !in a
    ensures IndexOf(a + [item] + b, item) == |a|
  {
    if b == [] {
      assert (a + [item])[..|a|] == a && a + [item] + b == a + [item];
      NotFound(a, item);
    } else {
      var n := |b| - 1;
      assert (a + [item] + b)[..|a| + 1 + n] == a + [item] + b[..n];
      FoundFirst(a, item, b[..n]);
    }
  }

  /** The first marker of a line is taken out, and its column is the width of what stands before it; a line
      without one stays as it is. */
  lemma MarkerIsStripped(a: Line, b: Line)
    requires CURSOR_MARKER !in a
    ensures StripMarker(a + [CURSOR_MARKER] + b) == a + b && MarkerColumn(a + [CURSOR_MARKER] + b) == Some(Width(a))
    ensures StripMarker(a) == a && MarkerColumn(a) == None
  {
    NotFound(a, CURSOR_MARKER);
    FoundFirst(a, CURSOR_MARKER, b);
    var line := a + [CURSOR_MARKER] + b;
    assert line[..|a|] == a && line[|a| + 1..] == b;
  }

  lemma {:induction false} Found(line: Line, item: Item)
    requires item in line
    ensures 0 <= IndexOf(line, item) < |line| && line[IndexOf(line, item)] == item
    ensures item !in line[..IndexOf(line, item)]
  {
    var n := |line| - 1;
    if item in line[..n] {
      Found(line[..n], item);
      assert line[..n][..IndexOf(line, item)] == line[..IndexOf(line, item)];
    } else {
      NotFound(line[..n], item);
    }
  }

  predicate InViewport(row: int, top: nat, height: nat) { top <= row < top + height }

  /** The reported marker is in the lowest row of the viewport that has one, at the width of the text in
      front of the first one there; none is reported exactly when no row of the viewport has one. */
  lemma {:induction false} LowestMarkerIsReported(lines: seq<Line>, top: nat, height: nat, from: nat)
    requires from <= |lines|
    ensures match CursorIn(lines, top, height, from)
            case None => forall k :: from <= k < |lines| && InViewport(k, top, height) ==> CURSOR_MARKER !in lines[k]
            case Some((row, column)) =>
              && from <= row < |lines| && InViewport(row, top, height)
              && (exists i: nat :: i < |lines[row]| && lines[row][i] == CURSOR_MARKER
                   && CURSOR_MARKER !in lines[row][..i]
                                   && column == Width(lines[row][..i]))
              && forall k :: row < k < |lines| && InViewport(k, top, height) ==> CURSOR_MARKER !in lines[k]
    decreases |lines| - from
  {
    if from < |lines| {
      LowestMarkerIsReported(lines, top, height, from + 1);
      if CURSOR_MARKER in lines[from] {
        Found(lines[from], CURSOR_MARKER);
      } else {
        NotFound(lines[from], CURSOR_MARKER);
      }
    }
  }

  /** The longest prefix that fits, wherever on the line its end is. */
  ghost predicate Cut(line: Line, target: nat, k: nat) {
    && k <= |line| && Width(line[..k]) <= target
    && forall j: nat {:trigger TooWide(line, target, j)} :: k < j <= |line| ==> TooWide(line, target, j)
  }

  predicate TooWide(line: Line, target: nat, j: nat)
    requires j <= |line|
  {
    target < Width(line[..j])
  }

  lemma MarkerPaintsNothing(a: Line, b: Line)
    ensures Paint(a + [CURSOR_MARKER] + b) == Paint(a + b) && Width(a + [CURSOR_MARKER] + b) == Width(a + b)
  {
    PaintConcat(a + [CURSOR_MARKER], b);
    PaintConcat(a, b);
    PaintSnoc(a, CURSOR_MARKER);
    assert Paint(a) + [] == Paint(a);
  }

  /** Where a line with its marker is cut. */
  lemma CutWithMarker(a: Line, b: Line, target: nat, k: nat) returns (m: nat)
    requires Cut(a + b, target, k)
    ensures Cut(a + [CURSOR_MARKER] + b, target, m)
    ensures Paint((a + [CURSOR_MARKER] + b)[..m]) == Paint((a + b)[..k])
  {
    var line, own := a + [CURSOR_MARKER] + b, a + b;
    m := if k < |a| then k else k + 1;
    forall j | 0 <= j <= |line|
      ensures var i := if j <= |a| then j else j - 1; Paint(line[..j]) == Paint(own[..i])
    {
      if j <= |a| {
        assert line[..j] == own[..j];
      } else {
        assert line[..j] == a + [CURSOR_MARKER] + b[..j - 1 - |a|] && own[..j - 1] == a + b[..j - 1 - |a|];
        MarkerPaintsNothing(a, b[..j - 1 - |a|]);
      }
    }
    forall j: nat {:trigger TooWide(line, target, j)} | m < j <= |line| ensures TooWide(line, target, j) {
      var i := if j <= |a| then j else j - 1;
      assert TooWide(own, target, i);
      assert |Paint(line[..j])| == |Paint(own[..i])|;
    }
  }

  // ---- the border ------------------------------------------------------------------------------------

  predicate Visible(item: Item) { item.Glyph? && item.text != "" && !IsSpaceChar(item.text[0]) }

  /** The first visible glyph of the line starts with c. */
  ghost predicate Starts(line: Line, c: char) {
    exists i :: 0 <= i < |line| && Visible(line[i]) && line[i].text[0] == c && forall j :: 0 <= j < i ==>
      !Visible(line[j])
  }

  lemma {:induction false} FirstVisibleStarts(line: Line, c: char)
    ensures FirstVisible(line) == Some(c) <==> Starts(line, c)
  {
    if line != [] {
      FirstVisibleStarts(line[1..], c);
      if Visible(line[0]) {
        if Starts(line, c) { assert line[0].text[0] == c; }
        if line[0].text[0] == c { assert Starts(line, c); }
      } else {
        StartsLater(line, c);
      }
    }
  }

  lemma StartsLater(line: Line, c: char)
    requires line != [] && !Visible(line[0])
    ensures Starts(line, c) <==> Starts(line[1..], c)
  {
    if Starts(line, c) {
      var i :| 0 <= i < |line| && Visible(line[i]) && line[i].text[0] == c && forall j :: 0 <= j < i ==>
        !Visible(line[j]);
      assert i > 0 && line[1..][i - 1] == line[i] && forall j :: 0 <= j < i - 1 ==> line[1..][j] == line[j + 1];
    }
    if Starts(line[1..], c) {
      var rest := line[1..];
      var i :| 0 <= i < |rest| && Visible(rest[i]) && rest[i].text[0] == c && forall j :: 0 <= j < i ==>
        !Visible(rest[j]);
      assert line[i + 1] == rest[i] && forall j :: 0 < j <= i ==> line[j] == rest[j - 1];
    }
  }

  lemma {:induction false} MarkerIsNotVisible(a: Line, b: Line)
    ensures FirstVisible(a + [CURSOR_MARKER] + b) == FirstVisible(a + b)
  {
    if a == [] {
      assert a + [CURSOR_MARKER] + b == [CURSOR_MARKER] + b && ([CURSOR_MARKER] + b)[1..] == b && a + b == b;
    } else {
      MarkerIsNotVisible(a[1..], b);
      assert (a + [CURSOR_MARKER] + b)[1..] == a[1..] + [CURSOR_MARKER] + b && (a + b)[1..] == a[1..] + b;
    }
  }

  /** The left borders of table rows, each with the right border that closes it. */
  const BORDERS: map<char, char> := map['\U{250c}' := '\U{2510}', '\U{251c}' := '\U{2524}', '\U{2514}' := '\U{2518}',
                                        '\U{2502}' := '\U{2502}']

  function SpaceCells(n: nat): seq<Cell> { seq(n, i => Part(" ", 0)) }

  lemma {:induction false} PaintSpaces(n: nat)
    ensures Paint(Spaces(n)) == SpaceCells(n)
  {
    if n > 0 {
      assert Spaces(n)[..n - 1] == Spaces(n - 1);
      PaintSpaces(n - 1);
    }
  }

  // ---- a drawn row -----------------------------------------------------------------------------------

  ghost predicate ClippedAt(cells: seq<Cell>, line: Line, width: nat, k: nat) {
    Cut(line, width, k) && cells == SpeltAll(Paint(line[..k]))
  }

  /** The row of a line that is too wide and is no table row: its longest prefix that fits. */
  ghost predicate IsClipped(cells: seq<Cell>, line: Line, width: nat) {
    exists k: nat :: ClippedAt(cells, line, width, k)
  }

  ghost predicate ClosedAt(cells: seq<Cell>, line: Line, width: nat, border: char, k: nat) {
    && width > 0 && Cut(line, width - 1, k)
    && cells == SpeltAll(Paint(line[..k])) + (SpaceCells(width - 1 - Width(line[..k])) + [Part([border], 0)])
  }

  /** The row of a table row that is too wide: its longest prefix that leaves a column, blanks up to that
      column, and there the right border. */
  ghost predicate IsClosed(cells: seq<Cell>, line: Line, width: nat, border: char) {
    exists k: nat :: ClosedAt(cells, line, width, border, k)
  }

  ghost predicate IsBordered(line: Line) { exists c :: c in BORDERS && Starts(line, c) }

  /** The cells in which a component's line is drawn. */
  ghost predicate IsRow(cells: seq<Cell>, line: Line, width: nat) {
    && (Width(line) <= width ==> cells == SpeltAll(Paint(line)))
    && (Width(line) > width && (width == 0 || !IsBordered(line)) ==> IsClipped(cells, line, width))
    && (Width(line) > width > 0 ==>
          forall c :: c in BORDERS && Starts(line, c) ==> IsClosed(cells, line, width, BORDERS[c]))
  }

  lemma DrawnPainted(fitted: Line)
    ensures Paint(Normalize(fitted) + SEGMENT_RESET) == SpeltAll(Paint(fitted))
  {
    NormalizedPaint(fitted);
    PaintConcat(Normalize(fitted), SEGMENT_RESET);
    EscapesPaintNothing(SEGMENT_RESET);
  }

  /** The kept part of a line that is cut paints its longest prefix that fits. */
  lemma KeptPainted(own: Line, target: nat) returns (k: nat)
    ensures Cut(own, target, k) && Paint(Kept(own, target)) == Paint(own[..k])
  {
    k := LongestPrefix(own, target, |own|);
    LongestPrefixIsLongest(own, target, |own|);
    forall j: nat {:trigger TooWide(own, target, j)} | k < j <= |own| ensures TooWide(own, target, j) {}
    DropTrailingEscapesSplits(own[..k]);
  }

  /** A truncated text shows its longest prefix that leaves room for the ellipsis, the ellipsis, and blanks
      up to the limit when it is padded. */
  lemma EllipsisIsShown(line: Line, maxWidth: nat, ellipsis: Line, pad: bool) returns (k: nat)
    requires 0 < maxWidth < Width(line) && Width(ellipsis) <= maxWidth
    ensures Cut(line, maxWidth - Width(ellipsis), k)
    ensures Width(line[..k]) + Width(ellipsis) <= maxWidth
    ensures Paint(Truncated(line, maxWidth, ellipsis, pad))
         == Paint(line[..k]) + Paint(ellipsis)
            + SpaceCells(if pad then maxWidth - (Width(line[..k]) + Width(ellipsis)) else 0)
  {
    k := KeptPainted(line, maxWidth - Width(ellipsis));
    var kept := Kept(line, maxWidth - Width(ellipsis));
    assert Width(kept) == |Paint(kept)| == Width(line[..k]);
    FinalPainted(kept, ellipsis, maxWidth, pad);
  }

  lemma FinalPainted(kept: Line, ellipsis: Line, maxWidth: nat, pad: bool)
    requires Width(kept) + Width(ellipsis) <= maxWidth
    ensures Paint(FinalizeTruncated(kept, ellipsis, maxWidth, pad))
         == Paint(kept) + Paint(ellipsis) + SpaceCells(if pad then maxWidth - (Width(kept) + Width(ellipsis)) else 0)
  {
    var n := if pad then maxWidth - (Width(kept) + Width(ellipsis)) else 0;
    var shown := if ellipsis == [] then [] else ellipsis + [RESET];
    FinalParts(kept, ellipsis, shown, n, maxWidth, pad);
    ThreePainted(kept + [RESET], shown, Spaces(n));
    ResetPainted(kept);
    ResetPainted(ellipsis);
    PaintSpaces(n);
  }

  lemma FinalParts(kept: Line, ellipsis: Line, shown: Line, n: nat, maxWidth: nat, pad: bool)
    requires Width(kept) + Width(ellipsis) <= maxWidth
    requires n == (if pad then maxWidth - (Width(kept) + Width(ellipsis)) else 0)
    requires shown == if ellipsis == [] then [] else ellipsis + [RESET]
    ensures FinalizeTruncated(kept, ellipsis, maxWidth, pad) == kept + [RESET] + shown + Spaces(n)
  {
    assert Spaces(0) == [];
  }

  lemma ThreePainted(a: Line, b: Line, c: Line)
    ensures Paint(a + b + c) == Paint(a) + Paint(b) + Paint(c)
  {
    PaintConcat(a + b, c);
    PaintConcat(a, b);
  }

  lemma ResetPainted(line: Line)
    ensures Paint(line + [RESET]) == Paint(line)
  {
    PaintSnoc(line, RESET);
    assert Paint(line) + [] == Paint(line);
  }

  lemma TruncatedPainted(own: Line, target: nat, pad: bool) returns (k: nat)
    requires target < Width(own)
    ensures Cut(own, target, k)
    ensures Paint(Truncated(own, target, [], pad))
         == Paint(own[..k]) + SpaceCells(if pad then target - Width(own[..k]) else 0)
  {
    if target == 0 {
      k := KeptPainted(own, 0);
      NothingPainted(own[..k], pad);
    } else {
      k := EllipsisIsShown(own, target, [], pad);
      assert Width([]) == 0 && Paint(own[..k]) + Paint([]) == Paint(own[..k]);
    }
  }

  lemma NothingPainted(line: Line, pad: bool)
    requires Width(line) == 0
    ensures Paint([]) == Paint(line) + SpaceCells(if pad then 0 - Width(line) else 0)
  {
    assert Paint(line) == [] && SpaceCells(0) == [];
  }

  /** What the terminal shows of a drawn line is the component's own line. */
  lemma DrawnRow(line: Line, width: nat)
    ensures IsRow(Paint(Drawn(line, width)), line, width)
  {
    var i := IndexOf(line, CURSOR_MARKER);
    if i == -1 {
      OwnRow(line, width);
    } else {
      MarkerFound(line, CURSOR_MARKER);
      var a, b := line[..i], line[i + 1..];
      assert line == a + [CURSOR_MARKER] + b;
      OwnRow(a + b, width);
      RowWithMarker(Paint(Drawn(line, width)), a, b, width);
    }
  }

  lemma {:induction false} MarkerFound(line: Line, item: Item)
    requires IndexOf(line, item) != -1
    ensures line[IndexOf(line, item)] == item
  {
    if line != [] && IndexOf(line[..|line| - 1], item) != -1 { MarkerFound(line[..|line| - 1], item); }
  }

  lemma OwnRow(own: Line, width: nat)
    ensures IsRow(Paint(Normalize(Fit(own, width)) + SEGMENT_RESET), own, width)
  {
    DrawnPainted(Fit(own, width));
    if Width(own) > width {
      BorderIsFirst(own);
      if width > 0 && IsBordered(own) {
        BorderedRow(own, width, FirstVisible(own).value);
      } else {
        ClippedRow(own, width);
      }
    }
  }

  lemma BorderedRow(own: Line, width: nat, c: char)
    requires Width(own) > width > 0 && FirstVisible(own) == Some(c) && c in BORDERS
    ensures IsClosed(SpeltAll(Paint(Fit(own, width))), own, width, BORDERS[c])
  {
    var front := BorderedShape(own, width, c);
    ClosedPaint(front, BORDERS[c]);
    PaddedCloses(own, width, BORDERS[c], Paint(front), Paint(Fit(own, width)));
  }

  lemma ClosedPaint(front: Line, border: char)
    ensures Paint(front + [Glyph([border], 1)]) == Paint(front) + [Part([border], 0)]
  {
    PaintSnoc(front, Glyph([border], 1));
    assert ItemCells(Glyph([border], 1)) == [Part([border], 0)];
  }

  lemma BorderIsFirst(own: Line)
    ensures forall c :: Starts(own, c) <==> FirstVisible(own) == Some(c)
    ensures IsBordered(own) <==> FirstVisible(own).Some? && FirstVisible(own).value in BORDERS
    ensures IsBordered(own) <==> TableCloser(FirstVisible(own)).Some?
  {
    forall c ensures FirstVisible(own) == Some(c) <==> Starts(own, c) { FirstVisibleStarts(own, c); }
    if FirstVisible(own).Some? { assert Starts(own, FirstVisible(own).value); }
  }

  lemma ClippedRow(own: Line, width: nat)
    requires Width(own) > width && Fit(own, width) == Truncated(own, width, [], false)
    ensures IsClipped(SpeltAll(Paint(Fit(own, width))), own, width)
  {
    var k := TruncatedPainted(own, width, false);
    assert Paint(own[..k]) + SpaceCells(0) == Paint(own[..k]);
    assert ClippedAt(SpeltAll(Paint(Fit(own, width))), own, width, k);
  }

  ghost predicate PaddedAt(cells: seq<Cell>, own: Line, target: nat, k: nat) {
    Cut(own, target, k) && cells == Paint(own[..k]) + SpaceCells(target - Width(own[..k]))
  }

  /** What a padded cut shows. */
  ghost predicate Padded(cells: seq<Cell>, own: Line, target: nat) {
    exists k: nat :: PaddedAt(cells, own, target, k)
  }

  lemma TruncatedPads(own: Line, target: nat, cells: seq<Cell>)
    requires target < Width(own) && cells == Paint(Truncated(own, target, [], true))
    ensures Padded(cells, own, target)
  {
    var k := TruncatedPainted(own, target, true);
    assert PaddedAt(cells, own, target, k);
  }

  lemma PaddedCloses(own: Line, width: nat, border: char, cells: seq<Cell>, row: seq<Cell>)
    requires width > 0 && border !in {'\U{0e33}', '\U{0eb3}'} && Padded(cells, own, width - 1)
    requires row == cells + [Part([border], 0)]
    ensures IsClosed(SpeltAll(row), own, width, border)
  {
    var k: nat :| PaddedAt(cells, own, width - 1, k);
    ClosedCells(Paint(own[..k]), width - 1 - Width(own[..k]), border);
    assert ClosedAt(SpeltAll(row), own, width, border, k);
  }

  lemma BorderedShape(own: Line, width: nat, c: char) returns (front: Line)
    requires Width(own) > width > 0 && FirstVisible(own) == Some(c) && c in BORDERS
    ensures Fit(own, width) == front + [Glyph([BORDERS[c]], 1)] && Padded(Paint(front), own, width - 1)
    ensures BORDERS[c] !in {'\U{0e33}', '\U{0eb3}'}
  {
    assert TableCloser(Some(c)) == Some(Glyph([BORDERS[c]], 1));
    front := Truncated(own, width - 1, [], true);
    TruncatedPads(own, width - 1, Paint(front));
  }

  lemma ClosedCells(cells: seq<Cell>, n: nat, border: char)
    requires border !in {'\U{0e33}', '\U{0eb3}'}
    ensures SpeltAll(cells + SpaceCells(n) + [Part([border], 0)])
         == SpeltAll(cells) + (SpaceCells(n) + [Part([border], 0)])
  {
    SpeltConcat(cells + SpaceCells(n), [Part([border], 0)]);
    SpeltConcat(cells, SpaceCells(n));
    BlanksStay(n, border);
    Append(SpeltAll(cells), SpaceCells(n), [Part([border], 0)]);
  }

  lemma BlanksStay(n: nat, c: char)
    requires c !in {'\U{0e33}', '\U{0eb3}'}
    ensures SpeltAll(SpaceCells(n)) == SpaceCells(n) && SpeltAll([Part([c], 0)]) == [Part([c], 0)]
  {
    TextIsNormalized(" ", "");
    TextIsNormalized([c], "");
  }

  lemma RowWithMarker(cells: seq<Cell>, a: Line, b: Line, width: nat)
    requires IsRow(cells, a + b, width)
    ensures IsRow(cells, a + [CURSOR_MARKER] + b, width)
  {
    var line, own := a + [CURSOR_MARKER] + b, a + b;
    MarkerPaintsNothing(a, b);
    MarkerIsNotVisible(a, b);
    forall c ensures Starts(line, c) <==> Starts(own, c) {
      FirstVisibleStarts(line, c);
      FirstVisibleStarts(own, c);
    }
    if IsClipped(cells, own, width) { ClippedWithMarker(cells, a, b, width); }
    forall c | IsClosed(cells, own, width, c) ensures IsClosed(cells, line, width, c) {
      ClosedWithMarker(cells, a, b, width, c);
    }
  }

  lemma ClippedWithMarker(cells: seq<Cell>, a: Line, b: Line, width: nat)
    requires IsClipped(cells, a + b, width)
    ensures IsClipped(cells, a + [CURSOR_MARKER] + b, width)
  {
    var k: nat :| ClippedAt(cells, a + b, width, k);
    var m := CutWithMarker(a, b, width, k);
    assert ClippedAt(cells, a + [CURSOR_MARKER] + b, width, m);
  }

  lemma ClosedWithMarker(cells: seq<Cell>, a: Line, b: Line, width: nat, border: char)
    requires IsClosed(cells, a + b, width, border)
    ensures IsClosed(cells, a + [CURSOR_MARKER] + b, width, border)
  {
    var k: nat :| ClosedAt(cells, a + b, width, border, k);
    var m := CutWithMarker(a, b, width - 1, k);
    assert Width((a + [CURSOR_MARKER] + b)[..m]) == Width((a + b)[..k]);
    assert ClosedAt(cells, a + [CURSOR_MARKER] + b, width, border, m);
  }

  /** So a line that fits and has neither vowel is shown as the component has written it. */
  lemma PlainRow(line: Line, width: nat)
    requires Width(line) <= width && WithoutVowels(Paint(line))
    ensures Paint(Drawn(line, width)) == Paint(line)
  {
    DrawnRow(line, width);
    SpeltAsBefore(Paint(line));
  }

  /** The terminal shows the components' lines from `top` on, and has those above in its scrollback. */
  ghost predicate ShowsComponents(t: Screen, lines: seq<Line>, width: nat, top: int) {
    && t.Top() == top
    && (forall k :: 0 <= k < t.height ==> 0 <= top + k && ShowsLine(t.Screen()[k], lines, top + k, width))
    && (forall k :: 0 <= k < top ==> ShowsLine(t.Scrollback()[k], lines, k, width))
  }

  ghost predicate ShowsLine(row: Row, lines: seq<Line>, k: nat, width: nat) {
    if k < |lines| then IsRow(row, lines[k], width) else row == []
  }

  lemma ComponentsAreShown(t: Screen, lines: seq<Line>, width: nat, top: int)
    requires Shows(t, DrawnLines(lines, width), top)
    ensures ShowsComponents(t, lines, width, top)
  {
    forall k: nat | k < |lines| ensures IsRow(RowOf(DrawnLines(lines, width), k), lines[k], width) {
      DrawnRow(lines[k], width);
    }
  }
}
