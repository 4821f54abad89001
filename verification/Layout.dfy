/** Width-bounded layout: truncation, clipping of rendered lines, and word wrap. */
module Layout {
  import opened Chars
  import opened Options
  import opened Text
  predicate IsSpace(item: Item) {
    item.Tab? || (item.Glyph? && item.text != "" && IsSpaceChar(item.text[0]))
  }

  function Max0(n: int): nat { if n < 0 then 0 else n }

  // ---- truncation ----------------------------------------------------------------------------

  /** The largest j <= k whose prefix of the line is at most `target` columns wide (0 if none is). */
  function LongestPrefix(line: Line, target: int, k: nat): (j: nat)
    requires k <= |line|
    ensures j <= k
  {
    if k == 0 || Width(line[..k]) <= target then k else LongestPrefix(line, target, k - 1)
  }

  function DropTrailingEscapes(line: Line): Line {
    if line != [] && line[|line| - 1].Escape? then DropTrailingEscapes(line[..|line| - 1]) else line
  }

  function Kept(line: Line, target: int): Line {
    DropTrailingEscapes(line[..LongestPrefix(line, target, |line|)])
  }

  function FinalizeTruncated(prefix: Line, ellipsis: Line, maxWidth: int, pad: bool): Line {
    prefix + [RESET] + (if ellipsis == [] then [] else ellipsis + [RESET])
    + (if pad then Spaces(Max0(maxWidth - (Width(prefix) + Width(ellipsis)))) else [])
  }

  function Truncated(line: Line, maxWidth: int, ellipsis: Line, pad: bool): Line {
    if maxWidth <= 0 then []
    else if Width(line) <= maxWidth then
      line + (if pad then Spaces(maxWidth - Width(line)) else [])
    else FinalizeTruncated(Kept(line, maxWidth - Width(ellipsis)), ellipsis, maxWidth, pad)
  }

  lemma {:induction false} LongestPrefixAt(line: Line, target: int, i: nat, k: nat)
    requires i < k <= |line| && Width(line[..i]) <= target < Width(line[..i + 1])
    ensures LongestPrefix(line, target, k) == i
  {
    WidthPrefix(line, i + 1, k);
    if k > i + 1 {
      LongestPrefixAt(line, target, i, k - 1);
    } else {
      assert LongestPrefix(line, target, i) == i;
    }
  }

  lemma {:induction false} NegativeTarget(line: Line, target: int, k: nat)
    requires target < 0 && k <= |line|
    ensures LongestPrefix(line, target, k) == 0
  {
    if k > 0 {
      NegativeTarget(line, target, k - 1);
    }
  }

  lemma {:induction false} LongestPrefixIsLongest(line: Line, target: int, k: nat)
    requires k <= |line| && 0 <= target
    ensures var n := LongestPrefix(line, target, k);
            Width(line[..n]) <= target && forall j :: n < j <= k ==> target < Width(line[..j])
  {
    if k > 0 && target < Width(line[..k]) {
      LongestPrefixIsLongest(line, target, k - 1);
    }
  }

  lemma {:induction false} DropTrailingEscapesSplits(line: Line)
    ensures var kept := DropTrailingEscapes(line);
            && kept <= line && Paint(kept) == Paint(line) && Width(kept) == Width(line)
            && (forall i :: |kept| <= i < |line| ==> line[i].Escape?)
            && (kept != [] ==> !kept[|kept| - 1].Escape?)
  {
    if line != [] && line[|line| - 1].Escape? {
      DropTrailingEscapesSplits(line[..|line| - 1]);
      DroppedPaintsNothing(line);
    }
  }

  lemma DroppedPaintsNothing(line: Line)
    requires line != [] && line[|line| - 1].Escape?
    ensures Paint(line[..|line| - 1]) == Paint(line) && Width(line[..|line| - 1]) == Width(line)
  {
    assert Paint(line[..|line| - 1]) + [] == Paint(line[..|line| - 1]);
  }

  /** A cut line keeps precisely the longest prefix that fits the target, up to escapes after the
      last kept column. */
  lemma KeptIsLongestPrefix(line: Line, target: int)
    requires 0 <= target
    ensures var k, kept := LongestPrefix(line, target, |line|), Kept(line, target);
            && kept <= line[..k] && Width(kept) == Width(line[..k]) <= target
            && (forall i :: |kept| <= i < k ==> line[i].Escape?)
            && (forall j :: k < j <= |line| ==> target < Width(line[..j]))
  {
    var k, kept := LongestPrefix(line, target, |line|), Kept(line, target);
    LongestPrefixIsLongest(line, target, |line|);
    DropTrailingEscapesSplits(line[..k]);
    forall i | |kept| <= i < k
      ensures line[i].Escape?
    {
      assert line[..k][i] == line[i];
    }
  }

  /** Truncation stays within the limit whenever the ellipsis does, and padding makes it exact. */
  lemma TruncationBounds(line: Line, maxWidth: nat, ellipsis: Line, pad: bool)
    requires Width(ellipsis) <= maxWidth
    ensures Width(Truncated(line, maxWidth, ellipsis, pad)) <= maxWidth
    ensures pad ==> Width(Truncated(line, maxWidth, ellipsis, pad)) == maxWidth
    ensures 0 < maxWidth < Width(line) ==>
              Kept(line, maxWidth - Width(ellipsis)) + [RESET] <= Truncated(line, maxWidth, ellipsis, pad)
  {
    if 0 < maxWidth < Width(line) {
      KeptFits(line, maxWidth - Width(ellipsis));
      CutBounds(Kept(line, maxWidth - Width(ellipsis)), ellipsis, maxWidth, pad);
    } else if 0 < maxWidth {
      UncutWidth(line, maxWidth - Width(line));
    }
  }

  lemma CutBounds(kept: Line, ellipsis: Line, maxWidth: nat, pad: bool)
    requires Width(kept) + Width(ellipsis) <= maxWidth
    ensures Width(FinalizeTruncated(kept, ellipsis, maxWidth, pad)) <= maxWidth
    ensures pad ==> Width(FinalizeTruncated(kept, ellipsis, maxWidth, pad)) == maxWidth
    ensures kept + [RESET] <= FinalizeTruncated(kept, ellipsis, maxWidth, pad)
  {
    FinalizedWidth(kept, ellipsis, maxWidth, pad);
  }

  lemma KeptFits(line: Line, target: nat)
    ensures Width(Kept(line, target)) <= target
  {
    KeptIsLongestPrefix(line, target);
  }

  lemma UncutWidth(line: Line, gap: nat)
    ensures Width(line + Spaces(gap)) == Width(line) + gap
    ensures line + [] == line
  {
    WidthSpaces(gap);
    WidthConcat(line, Spaces(gap));
  }

  lemma WidthConcat4(a: Line, b: Line, c: Line, d: Line)
    ensures Width(a + b + c + d) == Width(a) + Width(b) + Width(c) + Width(d)
  {
    WidthConcat(a, b);
    WidthConcat(a + b, c);
    WidthConcat(a + b + c, d);
  }

  lemma FinalizedWidth(prefix: Line, ellipsis: Line, maxWidth: int, pad: bool)
    requires Width(prefix) + Width(ellipsis) <= maxWidth
    ensures prefix + [RESET] <= FinalizeTruncated(prefix, ellipsis, maxWidth, pad)
    ensures Width(FinalizeTruncated(prefix, ellipsis, maxWidth, pad))
         == if pad then maxWidth else Width(prefix) + Width(ellipsis)
  {
    var tail := if ellipsis == [] then [] else ellipsis + [RESET];
    var gap := Max0(maxWidth - (Width(prefix) + Width(ellipsis)));
    var padding := if pad then Spaces(gap) else [];
    assert Width(tail) == Width(ellipsis) by {
      WidthConcat(ellipsis, [RESET]);
      EscapesPaintNothing([RESET]);
    }
    assert Width([RESET]) == 0 by {
      EscapesPaintNothing([RESET]);
    }
    assert Width(padding) == if pad then gap else 0 by {
      WidthSpaces(gap);
    }
    WidthConcat4(prefix, [RESET], tail, padding);
  }

  lemma DropSnoc(line: Line, item: Item)
    ensures DropTrailingEscapes(line + [item]) == if item.Escape? then DropTrailingEscapes(line) else line + [item]
  {
    assert (line + [item])[..|line|] == line;
  }

  method TruncateToWidth(line: Line, maxWidth: int, ellipsis: Line, pad: bool) returns (r: Line)
    ensures r == Truncated(line, maxWidth, ellipsis, pad)
  {
    if maxWidth <= 0 {
      return [];
    }
    if Width(line) <= maxWidth {
      if pad {
        return line + Spaces(maxWidth - Width(line));
      }
      assert line + [] == line;
      return line;
    }
    var target := maxWidth - Width(ellipsis);
    var result, pendingAnsi, i := [], [], 0;
    var width: nat := 0;
    Prefixes(line, 0);
    while i < |line|
      invariant 0 <= i <= |line|
      invariant Taken(line[..i], result, pendingAnsi, width, target)
    {
      var item := line[i];
      WidthStep(line, i);
      Prefixes(line, i);
      if item.Escape? {
        TakeEscape(line[..i], result, pendingAnsi, width, target, item);
        pendingAnsi := pendingAnsi + [item];
      } else {
        if width + ItemWidth(item) > target {
          CutAt(line, target, i);
          return FinalizeTruncated(result, ellipsis, maxWidth, pad);
        }
        TakeVisible(line[..i], result, pendingAnsi, width, target, item);
        result := result + pendingAnsi + [item];
        pendingAnsi := [];
        width := width + ItemWidth(item);
      }
      i := i + 1;
    }
    Prefixes(line, |line|);
    if target < 0 {
      NegativeTarget(line, target, |line|);
    }
    return FinalizeTruncated(result, ellipsis, maxWidth, pad);
  }

  /** What the truncation loop has kept of the text it has read. */
  ghost predicate Taken(read: Line, result: Line, pendingAnsi: Line, width: nat, target: int) {
    && result + pendingAnsi == read
    && result == DropTrailingEscapes(read)
    && width == Width(read)
    && if target < 0 then result == [] else width <= target
  }

  lemma TakeEscape(read: Line, result: Line, pendingAnsi: Line, width: nat, target: int, item: Item)
    requires Taken(read, result, pendingAnsi, width, target) && item.Escape?
    ensures Taken(read + [item], result, pendingAnsi + [item], width, target)
  {
    DropSnoc(read, item);
    WidthSnoc(read, item);
  }

  lemma TakeVisible(read: Line, result: Line, pendingAnsi: Line, width: nat, target: int, item: Item)
    requires Taken(read, result, pendingAnsi, width, target) && !item.Escape?
    requires width + ItemWidth(item) <= target
    ensures Taken(read + [item], result + pendingAnsi + [item], [], width + ItemWidth(item), target)
  {
    DropSnoc(read, item);
    WidthSnoc(read, item);
  }

  lemma CutAt(line: Line, target: int, i: nat)
    requires i < |line| && Width(line[..i]) + ItemWidth(line[i]) > target
    requires target < 0 ==> DropTrailingEscapes(line[..i]) == []
    requires 0 <= target ==> Width(line[..i]) <= target
    ensures Kept(line, target) == DropTrailingEscapes(line[..i])
  {
    WidthStep(line, i);
    if target < 0 {
      NegativeTarget(line, target, |line|);
    } else {
      LongestPrefixAt(line, target, i, |line|);
    }
  }

  // ---- clipping a rendered line --------------------------------------------------------------

  /** The first visible character of the line that is not a space. */
  function FirstVisible(line: Line): Option<char> {
    if line == [] then None
    else match line[0]
      case Glyph(t, _) => if t != "" && !IsSpaceChar(t[0]) then Some(t[0]) else FirstVisible(line[1..])
      case _ => FirstVisible(line[1..])
  }

  /** The closing border of a table row that starts with the given border. */
  function TableCloser(first: Option<char>): Option<Item> {
    match first
    case Some('\U{250c}') => Some(Glyph("\U{2510}", 1))
    case Some('\U{251c}') => Some(Glyph("\U{2524}", 1))
    case Some('\U{2514}') => Some(Glyph("\U{2518}", 1))
    case Some('\U{2502}') => Some(Glyph("\U{2502}", 1))
    case _ => None
  }

  function Fit(line: Line, width: int): Line {
    if Width(line) <= width then line
    else
      var closer := TableCloser(FirstVisible(line));
      if closer.Some? && width > 0 then Truncated(line, Max0(width - 1), [], true) + [closer.value]
      else Truncated(line, width, [], false)
  }

  /** No rendered line can make the terminal wrap. */
  lemma FitNeverWraps(line: Line, width: nat)
    ensures Width(Fit(line, width)) <= width
  {
    var closer := TableCloser(FirstVisible(line));
    if width < Width(line) {
      if closer.Some? && width > 0 {
        ClosedRowWidth(line, width, closer.value);
      } else {
        TruncationBounds(line, width, [], false);
      }
    }
  }

  /** A clipped table row fills the width exactly and ends in the closing border of its kind. */
  lemma ClosedRowWidth(line: Line, width: nat, closer: Item)
    requires width > 0 && ItemWidth(closer) == 1
    ensures Width(Truncated(line, width - 1, [], true) + [closer]) == width
  {
    TruncationBounds(line, width - 1, [], true);
    WidthSnoc(Truncated(line, width - 1, [], true), closer);
  }

  lemma WidthSnoc(line: Line, item: Item)
    ensures Width(line + [item]) == Width(line) + ItemWidth(item)
  {
    assert (line + [item])[..|line|] == line;
  }

  method FitLineToWidth(line: Line, width: nat) returns (r: Line)
    ensures r == Fit(line, width)
    ensures Width(r) <= width
  {
    FitNeverWraps(line, width);
    if Width(line) <= width {
      return line;
    }
    var closer := TableCloser(FirstVisible(line));
    if closer.Some? && width > 0 {
      r := TruncateToWidth(line, Max0(width - 1), [], true);
      return r + [closer.value];
    }
    r := TruncateToWidth(line, width, [], false);
  }

  // ---- word wrap -----------------------------------------------------------------------------

  predicate PlainText(line: Line) {
    forall i :: 0 <= i < |line| ==> !line[i].Escape?
  }

  function RStrip(line: Line): Line {
    if line != [] && IsSpace(line[|line| - 1]) then RStrip(line[..|line| - 1]) else line
  }

  predicate AllSpace(line: Line) {
    forall i :: 0 <= i < |line| ==> IsSpace(line[i])
  }

  predicate NoSpace(line: Line) {
    forall i :: 0 <= i < |line| ==> !IsSpace(line[i])
  }

  function Flatten(lines: seq<Line>): Line {
    if lines == [] then [] else Flatten(lines[..|lines| - 1]) + lines[|lines| - 1]
  }

  function WithoutResets(line: Line): Line {
    if line == [] then []
    else WithoutResets(line[..|line| - 1])
         + if line[|line| - 1] == RESET then [] else [line[|line| - 1]]
  }

  /** `kept` is `original` with some spaces left out and nothing else changed. */
  ghost predicate DropsOnlySpace(original: Line, kept: Line) {
    if original == [] then kept == []
    else
      var n := |original| - 1;
      || (kept != [] && kept[|kept| - 1] == original[n] && DropsOnlySpace(original[..n], kept[..|kept| - 1]))
      || (IsSpace(original[n]) && DropsOnlySpace(original[..n], kept))
  }

  /** Every visible glyph that is not a space is at most `width` columns wide. */
  predicate GlyphsFit(line: Line, width: int) {
    forall i :: 0 <= i < |line| && !IsSpace(line[i]) ==> ItemWidth(line[i]) <= width
  }

  predicate LinesFit(lines: seq<Line>, width: int) {
    forall k :: 0 <= k < |lines| ==> Width(lines[k]) <= width
  }

  lemma {:induction false} DropsNothing(line: Line)
    ensures DropsOnlySpace(line, line)
  {
    if line != [] {
      DropsNothing(line[..|line| - 1]);
    }
  }

  lemma {:induction false} DropsConcat(a: Line, x: Line, b: Line, y: Line)
    requires DropsOnlySpace(a, x) && DropsOnlySpace(b, y)
    ensures DropsOnlySpace(a + b, x + y)
  {
    if b == [] {
      assert a + b == a && x + y == x;
    } else {
      var n := |b| - 1;
      assert (a + b)[..|a + b| - 1] == a + b[..n];
      if y != [] && y[|y| - 1] == b[n] && DropsOnlySpace(b[..n], y[..|y| - 1]) {
        DropsConcat(a, x, b[..n], y[..|y| - 1]);
        assert (x + y)[..|x + y| - 1] == x + y[..|y| - 1];
      } else {
        DropsConcat(a, x, b[..n], y);
      }
    }
  }

  lemma {:induction false} RStripDropsOnlySpace(line: Line)
    ensures DropsOnlySpace(line, RStrip(line))
    ensures RStrip(line) <= line && Width(RStrip(line)) <= Width(line)
  {
    if line != [] && IsSpace(line[|line| - 1]) {
      RStripDropsOnlySpace(line[..|line| - 1]);
    } else {
      DropsNothing(line);
    }
  }

  lemma {:induction false} RStripIgnoresSpace(line: Line, spaces: Line)
    requires AllSpace(spaces)
    ensures RStrip(line + spaces) == RStrip(line)
  {
    if spaces == [] {
      assert line + spaces == line;
    } else {
      var n := |spaces| - 1;
      assert (line + spaces)[..|line + spaces| - 1] == line + spaces[..n];
      RStripIgnoresSpace(line, spaces[..n]);
    }
  }

  lemma {:induction false} AllSpaceDrops(spaces: Line)
    requires AllSpace(spaces)
    ensures DropsOnlySpace(spaces, [])
  {
    if spaces != [] {
      AllSpaceDrops(spaces[..|spaces| - 1]);
    }
  }

  lemma {:induction false} WithoutResetsConcat(a: Line, b: Line)
    ensures WithoutResets(a + b) == WithoutResets(a) + WithoutResets(b)
  {
    if b == [] {
      assert a + b == a;
    } else {
      var n := |b| - 1;
      var ab := a + b;
      assert ab[..|ab| - 1] == a + b[..n] && ab[|ab| - 1] == b[n];
      WithoutResetsConcat(a, b[..n]);
    }
  }

  lemma {:induction false} PlainHasNoResets(line: Line)
    requires PlainText(line)
    ensures WithoutResets(line) == line
  {
    if line != [] {
      PlainHasNoResets(line[..|line| - 1]);
      assert line == line[..|line| - 1] + [line[|line| - 1]];
    }
  }

  lemma FlattenSnoc(lines: seq<Line>, line: Line)
    ensures Flatten(lines + [line]) == Flatten(lines) + line
  {
    assert (lines + [line])[..|lines|] == lines;
  }

  /** What the finished lines and the line in progress say about the text consumed so far. */
  ghost predicate Accounts(consumed: Line, lines: seq<Line>, current: Line) {
    DropsOnlySpace(consumed, WithoutResets(Flatten(lines)) + current)
  }

  lemma FlushAccounts(consumed: Line, lines: seq<Line>, current: Line)
    requires Accounts(consumed, lines, current) && PlainText(current)
    ensures Accounts(consumed, lines + [RStrip(current)], [])
  {
    RStripDropsOnlySpace(current);
    var stripped := RStrip(current);
    FlattenSnoc(lines, stripped);
    WithoutResetsConcat(Flatten(lines), stripped);
    PlainHasNoResets(stripped);
    var done := WithoutResets(Flatten(lines));
    DropsNothing(done);
    DropsConcat(done, done, current, stripped);
    DropsTrans(consumed, done + current, done + stripped);
    assert done + stripped + [] == done + stripped;
  }

  lemma {:induction false} DropsTrans(a: Line, b: Line, c: Line)
    requires DropsOnlySpace(a, b) && DropsOnlySpace(b, c)
    ensures DropsOnlySpace(a, c)
    decreases |a|
  {
    if a != [] {
      var n := |a| - 1;
      if b != [] && b[|b| - 1] == a[n] && DropsOnlySpace(a[..n], b[..|b| - 1]) {
        var m := |b| - 1;
        if c != [] && c[|c| - 1] == b[m] && DropsOnlySpace(b[..m], c[..|c| - 1]) {
          DropsTrans(a[..n], b[..m], c[..|c| - 1]);
        } else {
          DropsTrans(a[..n], b[..m], c);
        }
      } else {
        DropsTrans(a[..n], b, c);
      }
    }
  }

  lemma AppendAccounts(consumed: Line, lines: seq<Line>, current: Line, token: Line, kept: Line)
    requires Accounts(consumed, lines, current) && DropsOnlySpace(token, kept)
    ensures Accounts(consumed + token, lines, current + kept)
  {
    var done := WithoutResets(Flatten(lines));
    Assoc(done, current, kept);
    DropsConcat(consumed, done + current, token, kept);
  }

  lemma Assoc(a: Line, b: Line, c: Line)
    ensures a + b + c == a + (b + c) && a + [] == a && [] + a == a
  {
  }

  /** Each token is a run of spaces or of other text, and no two neighbours are of one kind. */
  predicate Runs(tokens: seq<Line>) {
    && (forall k :: 0 <= k < |tokens| ==>
          tokens[k] != [] && PlainText(tokens[k]) && (AllSpace(tokens[k]) || NoSpace(tokens[k])))
    && (forall k :: 0 < k < |tokens| ==> (IsSpace(tokens[k][0]) <==> !IsSpace(tokens[k - 1][0])))
  }

  lemma RunsSnoc(tokens: seq<Line>, line: Line, start: nat, end: nat, isWs: bool)
    requires Runs(tokens) && start < end <= |line| && PlainText(line)
    requires forall k :: start <= k < end ==> IsSpace(line[k]) == isWs
    requires tokens != [] ==> isWs == !IsSpace(tokens[|tokens| - 1][0])
    ensures Runs(tokens + [line[start..end]])
  {
    var run := line[start..end];
    forall k | 0 <= k < |run| ensures IsSpace(run[k]) == isWs { assert run[k] == line[start + k]; }
  }

  /** The end of the run that begins at start. */
  method RunEnd(line: Line, start: nat, isWs: bool) returns (i: nat)
    requires start < |line| && IsSpace(line[start]) == isWs
    ensures start < i <= |line| && (i < |line| ==> IsSpace(line[i]) != isWs)
    ensures forall k :: start <= k < i ==> IsSpace(line[k]) == isWs
  {
    i := start;
    while i < |line| && IsSpace(line[i]) == isWs
      invariant start <= i <= |line| && (i == start ==> i < |line| && IsSpace(line[i]) == isWs)
      invariant forall k :: start <= k < i ==> IsSpace(line[k]) == isWs
    {
      i := i + 1;
    }
  }

  /** The longest runs of spaces and of other text, in order. */
  method SplitIntoTokens(line: Line) returns (tokens: seq<Line>)
    requires PlainText(line)
    ensures Flatten(tokens) == line && Runs(tokens)
  {
    tokens := [];
    var i := 0;
    while i < |line|
      invariant 0 <= i <= |line|
      invariant Flatten(tokens) == line[..i] && Runs(tokens)
      invariant tokens != [] && i < |line| ==> (IsSpace(line[i]) <==> !IsSpace(tokens[|tokens| - 1][0]))
    {
      var start := i;
      var isWs := IsSpace(line[i]);
      i := RunEnd(line, start, isWs);
      FlattenSnoc(tokens, line[start..i]);
      RunsSnoc(tokens, line, start, i, isWs);
      assert line[..i] == line[..start] + line[start..i];
      tokens := tokens + [line[start..i]];
    }
    assert line[..|line|] == line;
  }

  /** A chunk that is closed by a reset, and that the next glyph would have made too wide. */
  predicate Closed(chunk: Line, next: Line, width: nat) {
    && |chunk| > 1 && chunk[|chunk| - 1] == RESET && PlainText(chunk[..|chunk| - 1])
    && next != [] && Width(chunk) + ItemWidth(next[0]) > width
  }

  function NextChunk(closed: seq<Line>, rest: Line, k: nat): Line { if k + 1 < |closed| then closed[k + 1] else rest }

  /** All chunks but the last are closed, each because the next glyph did not fit. */
  predicate AllClosed(closed: seq<Line>, rest: Line, width: nat) {
    forall k :: 0 <= k < |closed| ==> Closed(closed[k], NextChunk(closed, rest, k), width)
  }

  /** The breaker's state after `taken`; `fits` says that no glyph is too wide. */
  ghost predicate BreakState(taken: Line, closed: seq<Line>, rest: Line, width: nat, fits: bool) {
    && WithoutResets(Flatten(closed)) + rest == taken
    && PlainText(rest) && NoSpace(rest)
    && (fits ==> LinesFit(closed, width) && Width(rest) <= width)
  }

  lemma CloseOne(closed: seq<Line>, rest: Line, item: Item, width: nat)
    requires AllClosed(closed, rest, width) && PlainText(rest) && rest != [] && Width(rest) + ItemWidth(item) > width
    ensures AllClosed(closed + [rest + [RESET]], [item], width)
  {
    WidthSnoc(rest, RESET);
    var more := closed + [rest + [RESET]];
    forall k | 0 <= k < |more|
      ensures Closed(more[k], NextChunk(more, [item], k), width)
    {
      if k < |closed| {
        assert more[k] == closed[k] && Closed(closed[k], NextChunk(closed, rest, k), width);
        assert NextChunk(more, [item], k)[0] == NextChunk(closed, rest, k)[0];
      } else {
        assert (rest + [RESET])[..|rest|] == rest;
      }
    }
  }

  lemma GrowRest(closed: seq<Line>, rest: Line, item: Item, width: nat)
    requires AllClosed(closed, rest, width) && (rest != [] || closed == [])
    ensures AllClosed(closed, rest + [item], width)
  {
    forall k | 0 <= k < |closed|
      ensures Closed(closed[k], NextChunk(closed, rest + [item], k), width)
    {
      assert Closed(closed[k], NextChunk(closed, rest, k), width);
    }
  }

  lemma ResetDrops(chunk: Line)
    requires PlainText(chunk)
    ensures WithoutResets(chunk + [RESET]) == chunk
  {
    assert (chunk + [RESET])[..|chunk|] == chunk;
    PlainHasNoResets(chunk);
    Assoc(chunk, [], []);
  }

  lemma CloseChunk(taken: Line, closed: seq<Line>, rest: Line, width: nat, fits: bool)
    requires BreakState(taken, closed, rest, width, fits)
    ensures BreakState(taken, closed + [rest + [RESET]], [], width, fits)
  {
    FlattenSnoc(closed, rest + [RESET]);
    WithoutResetsConcat(Flatten(closed), rest + [RESET]);
    ResetDrops(rest);
    Assoc(taken, [], []);
    WidthSnoc(rest, RESET);
  }

  lemma TakeItem(taken: Line, closed: seq<Line>, rest: Line, item: Item, width: nat, fits: bool)
    requires BreakState(taken, closed, rest, width, fits) && !item.Escape? && !IsSpace(item)
    requires fits ==> Width(rest) + ItemWidth(item) <= width
    ensures BreakState(taken + [item], closed, rest + [item], width, fits)
    ensures Width(rest + [item]) == Width(rest) + ItemWidth(item)
  {
    Assoc(WithoutResets(Flatten(closed)), rest, [item]);
    WidthSnoc(rest, item);
  }

  /** Chunks of at most `width` columns, all but the last closed by a reset. */
  method BreakLongWord(token: Line, width: nat) returns (closed: seq<Line>, rest: Line)
    requires PlainText(token) && NoSpace(token) && token != []
    ensures WithoutResets(Flatten(closed)) + rest == token
    ensures PlainText(rest) && NoSpace(rest) && rest != []
    ensures AllClosed(closed, rest, width)
    ensures GlyphsFit(token, width) ==> LinesFit(closed, width) && Width(rest) <= width
  {
    closed, rest := [], [];
    var restW := 0;
    Prefixes(token, 0);
    ghost var fits := GlyphsFit(token, width);
    for i := 0 to |token|
      invariant BreakState(token[..i], closed, rest, width, fits)
      invariant restW == Width(rest)
      invariant AllClosed(closed, rest, width) && (if i > 0 then rest != [] else closed == [])
    {
      Prefixes(token, i);
      closed, rest, restW := BreakItem(closed, rest, restW, token[i], width, token[..i], fits);
    }
    Prefixes(token, |token|);
  }

  /** One more glyph of a word that is broken. */
  method BreakItem(closed0: seq<Line>, rest0: Line, restW0: nat, item: Item, width: nat, ghost taken: Line,
                   ghost fits: bool)
    returns (closed: seq<Line>, rest: Line, restW: nat)
    requires BreakState(taken, closed0, rest0, width, fits) && restW0 == Width(rest0)
             && AllClosed(closed0, rest0, width)
    requires (rest0 != [] || closed0 == []) && !item.Escape? && !IsSpace(item) && (fits ==> ItemWidth(item) <= width)
    ensures BreakState(taken + [item], closed, rest, width, fits) && restW == Width(rest)
    ensures AllClosed(closed, rest, width) && rest != []
  {
    closed, rest, restW := closed0, rest0, restW0;
    var w := ItemWidth(item);
    if restW + w > width && rest != [] {
      CloseChunk(taken, closed, rest, width, fits);
      CloseOne(closed, rest, item, width);
      closed := closed + [rest + [RESET]];
      rest, restW := [], 0;
      assert [] + [item] == [item];
    } else {
      GrowRest(closed, rest, item, width);
    }
    TakeItem(taken, closed, rest, item, width, fits);
    rest := rest + [item];
    restW := restW + w;
  }

  /** Appending finished chunks one after the other is appending their text. */
  lemma {:induction false} FlattenConcat(a: seq<Line>, b: seq<Line>)
    ensures Flatten(a + b) == Flatten(a) + Flatten(b)
  {
    if b == [] {
      assert a + b == a;
    } else {
      var n := |b| - 1;
      var ab := a + b;
      assert ab[..|ab| - 1] == a + b[..n] && ab[|ab| - 1] == b[n];
      FlattenConcat(a, b[..n]);
    }
  }

  // ---- where lines end, and words --------------------------------------------------------------

  /** A word that fits on a line. */
  predicate IsWord(token: Line, width: nat) { token != [] && NoSpace(token) && Width(token) <= width }

  predicate At(line: Line, word: Line, p: nat) { p + |word| <= |line| && line[p..p + |word|] == word }

  ghost predicate Contains(line: Line, word: Line) { exists p: nat :: At(line, word, p) }

  /** The word stands whole on one of the lines. */
  ghost predicate OnOneLine(lines: seq<Line>, word: Line) { exists j :: 0 <= j < |lines| && Contains(lines[j], word) }

  predicate IsSuffix(part: Line, text: Line) { |part| <= |text| && text[|text| - |part|..] == part }

  /** The line is what had gathered in front of token n, without its last spaces, and that token did not fit. */
  predicate FilledBefore(line: Line, gathered: Line, tokens: seq<Line>, n: nat, width: nat) {
    && n < |tokens| && gathered != [] && IsSuffix(gathered, Flatten(tokens[..n]))
    && line == RStrip(gathered) && Width(gathered) + Width(tokens[n]) > width
  }

  /** The line is the part of a long token from p on that a reset closes, and the next glyph did not fit. */
  predicate CutBefore(line: Line, token: Line, p: nat, width: nat) {
    && |line| > 1 && line[|line| - 1] == RESET && At(token, line[..|line| - 1], p) && Width(token) > width
    && p + |line| - 1 < |token| && Width(line) + ItemWidth(token[p + |line| - 1]) > width
  }

  /** The line ends because what comes next does not fit: a token, or the next glyph of a word too long for
      any line. */
  ghost predicate EndsFull(line: Line, tokens: seq<Line>, width: nat) {
    || (exists n, gathered :: FilledBefore(line, gathered, tokens, n, width))
    || (exists n, p: nat :: 0 <= n < |tokens| && CutBefore(line, tokens[n], p, width))
  }

  /** The wrapper between tokens: what has gathered is the end of the text so far; each line ends full; and
      every word that fits on a line is on one. */
  ghost predicate Tracks(tokens: seq<Line>, n: nat, wrapped: seq<Line>, current: Line, width: nat) {
    && n <= |tokens| && IsSuffix(current, Flatten(tokens[..n]))
    && (forall j :: 0 <= j < |wrapped| ==> EndsFull(wrapped[j], tokens, width))
    && (forall k :: 0 <= k < n && IsWord(tokens[k], width) ==> OnOneLine(wrapped + [current], tokens[k]))
  }

  lemma {:induction false} StripKeepsWord(line: Line, word: Line, p: nat)
    requires word != [] && NoSpace(word) && At(line, word, p)
    ensures At(RStrip(line), word, p)
  {
    var n := |line| - 1;
    assert !IsSpace(line[p + |word| - 1]) by { assert word[|word| - 1] == line[p + |word| - 1]; }
    if IsSpace(line[n]) {
      assert line[..n][p..p + |word|] == word;
      StripKeepsWord(line[..n], word, p);
    }
  }

  lemma TracksFlush(tokens: seq<Line>, n: nat, wrapped: seq<Line>, current: Line, width: nat)
    requires Tracks(tokens, n, wrapped, current, width) && n < |tokens| && current != []
    requires Width(current) + Width(tokens[n]) > width
    ensures Tracks(tokens, n, wrapped + [RStrip(current)], [], width)
  {
    var more := wrapped + [RStrip(current)];
    assert FilledBefore(RStrip(current), current, tokens, n, width);
    forall k | 0 <= k < n && IsWord(tokens[k], width) ensures OnOneLine(more + [[]], tokens[k]) {
      StaysWhenFlushed(wrapped, current, tokens[k]);
    }
  }

  lemma StaysWhenFlushed(wrapped: seq<Line>, current: Line, word: Line)
    requires word != [] && NoSpace(word) && OnOneLine(wrapped + [current], word)
    ensures OnOneLine(wrapped + [RStrip(current)] + [[]], word)
  {
    var before, after := wrapped + [current], wrapped + [RStrip(current)] + [[]];
    var j :| 0 <= j < |before| && Contains(before[j], word);
    if j < |wrapped| {
      assert after[j] == before[j];
    } else {
      var p: nat :| At(current, word, p);
      StripKeepsWord(current, word, p);
      assert Contains(after[j], word);
    }
  }

  lemma TracksSkip(tokens: seq<Line>, n: nat, wrapped: seq<Line>, width: nat)
    requires Tracks(tokens, n, wrapped, [], width) && n < |tokens| && AllSpace(tokens[n]) && tokens[n] != []
    ensures Tracks(tokens, n + 1, wrapped, [], width)
  {
    assert IsSpace(tokens[n][0]);
  }

  lemma TracksExtend(tokens: seq<Line>, n: nat, wrapped: seq<Line>, current: Line, width: nat)
    requires Tracks(tokens, n, wrapped, current, width) && n < |tokens|
    ensures Tracks(tokens, n + 1, wrapped, current + tokens[n], width)
  {
    var token := tokens[n];
    TokensSnoc(tokens, n);
    forall k | 0 <= k < n + 1 && IsWord(tokens[k], width) ensures OnOneLine(wrapped + [current + token], tokens[k]) {
      if k < n {
        StaysWhenExtended(wrapped, current, token, tokens[k]);
      } else {
        var p := |current|;
        assert At(current + token, token, p);
        assert Contains((wrapped + [current + token])[|wrapped|], token);
      }
    }
  }

  lemma TokensSnoc(tokens: seq<Line>, n: nat)
    requires n < |tokens|
    ensures Flatten(tokens[..n + 1]) == Flatten(tokens[..n]) + tokens[n]
  {
    FlattenSnoc(tokens[..n], tokens[n]);
    assert tokens[..n + 1] == tokens[..n] + [tokens[n]];
  }

  lemma StaysWhenExtended(wrapped: seq<Line>, current: Line, token: Line, word: Line)
    requires OnOneLine(wrapped + [current], word)
    ensures OnOneLine(wrapped + [current + token], word)
  {
    var before, after := wrapped + [current], wrapped + [current + token];
    var j :| 0 <= j < |before| && Contains(before[j], word);
    if j < |wrapped| {
      assert after[j] == before[j];
    } else {
      var p: nat :| At(current, word, p);
      assert (current + token)[p..p + |word|] == word;
      assert At(current + token, word, p);
      assert Contains(after[j], word);
    }
  }

  lemma TracksBroken(tokens: seq<Line>, n: nat, wrapped: seq<Line>, closed: seq<Line>, rest: Line, width: nat)
    requires Tracks(tokens, n, wrapped, [], width) && n < |tokens| && Width(tokens[n]) > width
    requires WithoutResets(Flatten(closed)) + rest == tokens[n] && AllClosed(closed, rest, width) && PlainText(rest)
    ensures Tracks(tokens, n + 1, wrapped + closed, rest, width)
  {
    var more := wrapped + closed;
    BrokenGathers(Flatten(tokens[..n]), tokens, n, WithoutResets(Flatten(closed)), rest);
    forall j | 0 <= j < |more| ensures EndsFull(more[j], tokens, width) {
      if j >= |wrapped| {
        ClosedIsCut(closed, rest, tokens[n], j - |wrapped|, width);
      }
    }
    forall k | 0 <= k < n + 1 && IsWord(tokens[k], width) ensures OnOneLine(more + [rest], tokens[k]) {
      StaysInFront(wrapped, more + [rest], tokens[k]);
    }
  }

  lemma BrokenGathers(gathered: Line, tokens: seq<Line>, n: nat, closed: Line, rest: Line)
    requires n < |tokens| && gathered == Flatten(tokens[..n]) && closed + rest == tokens[n]
    ensures IsSuffix(rest, Flatten(tokens[..n + 1]))
  {
    TokensSnoc(tokens, n);
    assert gathered + (closed + rest) == gathered + closed + rest;
  }

  lemma ClosedIsCut(closed: seq<Line>, rest: Line, token: Line, k: nat, width: nat)
    requires AllClosed(closed, rest, width) && PlainText(rest) && k < |closed| && Width(token) > width
    requires WithoutResets(Flatten(closed)) + rest == token
    ensures CutBefore(closed[k], token, |WithoutResets(Flatten(closed[..k]))|, width)
  {
    var before, line, after := closed[..k], closed[k], closed[k + 1..];
    var next := NextChunk(closed, rest, k);
    assert Closed(line, next, width);
    SplitAt(closed, k);
    PartsOf(before, line, after);
    ChunkDrops(line, next, width);
    if after != [] {
      assert Closed(next, NextChunk(closed, rest, k + 1), width);
      AfterStarts(next, NextChunk(closed, rest, k + 1), after, width);
    }
    Regroup(WithoutResets(Flatten(before)), line[..|line| - 1], WithoutResets(Flatten(after)), rest);
    EndsBefore(WithoutResets(Flatten(before)), line, WithoutResets(Flatten(after)) + rest, next, width);
  }

  lemma Regroup(a: Line, b: Line, c: Line, d: Line)
    ensures (a + b + c) + d == a + b + (c + d)
  {}

  lemma SplitAt(lines: seq<Line>, k: nat)
    requires k < |lines|
    ensures lines == lines[..k] + [lines[k]] + lines[k + 1..]
  {}

  lemma ChunkDrops(chunk: Line, next: Line, width: nat)
    requires Closed(chunk, next, width)
    ensures WithoutResets(chunk) == chunk[..|chunk| - 1]
  {
    assert chunk == chunk[..|chunk| - 1] + [RESET];
    ResetDrops(chunk[..|chunk| - 1]);
  }

  lemma EndsBefore(before: Line, line: Line, tail: Line, next: Line, width: nat)
    requires Closed(line, next, width) && tail != [] && tail[0] == next[0]
    requires Width(before + line[..|line| - 1] + tail) > width
    ensures CutBefore(line, before + line[..|line| - 1] + tail, |before|, width)
  {
    var chunk := line[..|line| - 1];
    assert (before + chunk + tail)[|before|..|before| + |chunk|] == chunk;
  }

  lemma PartsOf(before: seq<Line>, line: Line, after: seq<Line>)
    ensures WithoutResets(Flatten(before + [line] + after))
         == WithoutResets(Flatten(before)) + WithoutResets(line) + WithoutResets(Flatten(after))
  {
    FlattenConcat(before + [line], after);
    FlattenSnoc(before, line);
    WithoutResetsConcat(Flatten(before) + line, Flatten(after));
    WithoutResetsConcat(Flatten(before), line);
  }

  /** What follows a closed chunk starts with the next chunk's first glyph. */
  lemma AfterStarts(chunk: Line, next: Line, after: seq<Line>, width: nat)
    requires Closed(chunk, next, width) && after != [] && after[0] == chunk
    ensures var tail := WithoutResets(Flatten(after)); tail != [] && tail[0] == chunk[0]
  {
    ChunkDrops(chunk, next, width);
    SplitAt(after, 0);
    assert after[..0] == [];
    PartsOf([], chunk, after[1..]);
  }

  lemma StaysInFront(wrapped: seq<Line>, after: seq<Line>, word: Line)
    requires word != [] && OnOneLine(wrapped + [[]], word) && wrapped <= after
    ensures OnOneLine(after, word)
  {
    var before := wrapped + [[]];
    var j :| 0 <= j < |before| && Contains(before[j], word);
    if j < |wrapped| { assert after[j] == before[j]; }
  }

  /** The wrapper's state between tokens; `fits` says that no glyph is too wide. */
  ghost predicate WrapState(consumed: Line, wrapped: seq<Line>, current: Line, width: nat, fits: bool) {
    && PlainText(current)
    && Accounts(consumed, wrapped, current)
    && (fits ==> LinesFit(wrapped, width) && Width(RStrip(current)) <= width)
  }

  lemma Flush(consumed: Line, wrapped: seq<Line>, current: Line, width: nat, fits: bool)
    requires WrapState(consumed, wrapped, current, width, fits)
    ensures WrapState(consumed, wrapped + [RStrip(current)], [], width, fits)
  {
    FlushAccounts(consumed, wrapped, current);
  }

  lemma Skip(consumed: Line, wrapped: seq<Line>, token: Line, width: nat, fits: bool)
    requires WrapState(consumed, wrapped, [], width, fits) && AllSpace(token)
    ensures WrapState(consumed + token, wrapped, [], width, fits)
  {
    AllSpaceDrops(token);
    Assoc([], [], []);
    AppendAccounts(consumed, wrapped, [], token, []);
  }

  lemma Extend(consumed: Line, wrapped: seq<Line>, current: Line, token: Line, width: nat, fits: bool)
    requires WrapState(consumed, wrapped, current, width, fits) && PlainText(token)
    requires AllSpace(token) || Width(current) + Width(token) <= width
    ensures WrapState(consumed + token, wrapped, current + token, width, fits)
  {
    DropsNothing(token);
    AppendAccounts(consumed, wrapped, current, token, token);
    if AllSpace(token) {
      RStripIgnoresSpace(current, token);
    } else {
      RStripDropsOnlySpace(current + token);
      WidthConcat(current, token);
    }
  }

  lemma Broken(consumed: Line, wrapped: seq<Line>, token: Line, closed: seq<Line>, rest: Line, width: nat, fits: bool)
    requires WrapState(consumed, wrapped, [], width, fits) && PlainText(rest)
    requires WithoutResets(Flatten(closed)) + rest == token
    requires fits ==> LinesFit(closed, width) && Width(rest) <= width
    ensures WrapState(consumed + token, wrapped + closed, rest, width, fits)
  {
    BreakAccounts(consumed, wrapped, token, closed, rest);
    RStripDropsOnlySpace(rest);
  }

  lemma TokenGlyphsFit(tokens: seq<Line>, k: nat, width: nat)
    requires k < |tokens| && GlyphsFit(Flatten(tokens), width)
    ensures GlyphsFit(tokens[k], width)
  {
    TokensAreParts(tokens);
  }

  /** Word wrap of plain text: nothing but spaces is lost, nothing but resets is added, and every
      line fits if and only if the text is narrow enough as a whole or no single glyph is wider
      than the width. Text that is too wide is cut into its longest runs of spaces and of other text: a word
      that fits on a line is whole on one, and no line but the last ends before it is full. */
  method WrapSingleLine(line: Line, width: nat) returns (wrapped: seq<Line>, ghost tokens: seq<Line>)
    requires PlainText(line) && width > 0
    ensures wrapped != [] && Flatten(tokens) == line && (Width(line) > width ==> Runs(tokens))
    ensures DropsOnlySpace(line, WithoutResets(Flatten(wrapped)))
    ensures LinesFit(wrapped, width) <==> Width(line) <= width || GlyphsFit(line, width)
    ensures Width(line) <= width ==> wrapped == [line]
    ensures Width(line) > width ==>
              && (forall k :: 0 <= k < |tokens| && IsWord(tokens[k], width) ==> OnOneLine(wrapped, tokens[k]))
              && (forall j :: 0 <= j < |wrapped| - 1 ==> EndsFull(wrapped[j], tokens, width))
  {
    if Width(line) <= width {
      WrapNothing(line);
      FlattenSnoc([], line);
      assert [] + [line] == [line] && [] + line == line;
      return [line], [line];
    }
    var ts := SplitIntoTokens(line);
    tokens := ts;
    var current;
    wrapped, current := WrapTokens(ts, width, GlyphsFit(line, width));
    WordsOnLines(tokens, wrapped, current, width);
    if current != [] {
      Flush(line, wrapped, current, width, GlyphsFit(line, width));
      wrapped := wrapped + [RStrip(current)];
    }
    Assoc(WithoutResets(Flatten(wrapped)), [], []);
    if wrapped == [] {
      wrapped := [[]];
    }
    if LinesFit(wrapped, width) {
      FittingLinesHaveFittingGlyphs(line, wrapped, width);
    }
  }

  lemma WordsOnLines(tokens: seq<Line>, wrapped: seq<Line>, current: Line, width: nat)
    requires Tracks(tokens, |tokens|, wrapped, current, width)
    ensures forall k :: 0 <= k < |tokens| && IsWord(tokens[k], width) ==>
              OnOneLine(if current != [] then wrapped + [RStrip(current)] else if wrapped == [] then [[]] else wrapped,
                  tokens[k])
  {
    forall k | 0 <= k < |tokens| && IsWord(tokens[k], width)
      ensures OnOneLine(if current != [] then wrapped + [RStrip(current)] else if wrapped == [] then [[]] else wrapped,
                tokens[k])
    {
      if current != [] {
        StaysWhenFlushed(wrapped, current, tokens[k]);
        var with := wrapped + [RStrip(current)];
        WithoutEmpty(with, tokens[k]);
      } else {
        WithoutEmpty(wrapped, tokens[k]);
      }
    }
  }

  lemma WithoutEmpty(lines: seq<Line>, word: Line)
    requires word != [] && OnOneLine(lines + [[]], word)
    ensures lines != [] && OnOneLine(lines, word)
  {
    var more := lines + [[]];
    var j :| 0 <= j < |more| && Contains(more[j], word);
    assert j < |lines| && more[j] == lines[j];
  }

  method WrapTokens(tokens: seq<Line>, width: nat, ghost fits: bool) returns (wrapped: seq<Line>, current: Line)
    requires Runs(tokens) && width > 0 && (fits ==> GlyphsFit(Flatten(tokens), width))
    ensures WrapState(Flatten(tokens), wrapped, current, width, fits)
            && Tracks(tokens, |tokens|, wrapped, current, width)
  {
    wrapped := [];
    var currentW;
    current, currentW := [], 0;
    for i := 0 to |tokens|
      invariant currentW == Width(current)
      invariant WrapState(Flatten(tokens[..i]), wrapped, current, width, fits)
                && Tracks(tokens, i, wrapped, current, width)
    {
      var token := tokens[i];
      ghost var consumed := Flatten(tokens[..i]);
      TokensSnoc(tokens, i);
      if fits {
        TokenGlyphsFit(tokens, i, width);
      }
      wrapped, current, currentW := AddToken(wrapped, current, currentW, token, width, consumed, fits, tokens, i);
    }
    assert tokens[..|tokens|] == tokens;
  }

  lemma WrapNothing(line: Line)
    requires PlainText(line)
    ensures DropsOnlySpace(line, WithoutResets(Flatten([line])))
  {
    DropsNothing(line);
    PlainHasNoResets(line);
    FlattenSnoc([], line);
    Assoc(line, [], []);
    assert [] + [line] == [line];
  }

  /** The body of the wrapping loop: one token joins the current line, or starts the next one. */
  method AddToken(wrapped0: seq<Line>, current0: Line, currentW0: nat, token: Line, width: nat,
                  ghost consumed: Line, ghost fits: bool, ghost tokens: seq<Line>, ghost n: nat)
    returns (wrapped: seq<Line>, current: Line, currentW: nat)
    requires WrapState(consumed, wrapped0, current0, width, fits) && currentW0 == Width(current0)
    requires Tracks(tokens, n, wrapped0, current0, width) && n < |tokens| && token == tokens[n]
    requires token != [] && PlainText(token) && (AllSpace(token) || NoSpace(token))
    requires fits ==> GlyphsFit(token, width)
    ensures WrapState(consumed + token, wrapped, current, width, fits) && currentW == Width(current)
    ensures Tracks(tokens, n + 1, wrapped, current, width)
  {
    wrapped, current, currentW := wrapped0, current0, currentW0;
    var tokW := Width(token);
    var isWs := AllSpace(token);
    Assoc(token, [], []);
    if tokW > width && !isWs {
      if current != [] {
        Flush(consumed, wrapped, current, width, fits);
        TracksFlush(tokens, n, wrapped, current, width);
        wrapped := wrapped + [RStrip(current)];
        current := [];
      }
      var closed, rest := BreakLongWord(token, width);
      Broken(consumed, wrapped, token, closed, rest, width, fits);
      TracksBroken(tokens, n, wrapped, closed, rest, width);
      wrapped := wrapped + closed;
      current := rest;
      currentW := Width(current);
    } else if currentW + tokW > width && currentW > 0 {
      Flush(consumed, wrapped, current, width, fits);
      TracksFlush(tokens, n, wrapped, current, width);
      wrapped := wrapped + [RStrip(current)];
      if isWs {
        Skip(consumed, wrapped, token, width, fits);
        TracksSkip(tokens, n, wrapped, width);
        current, currentW := [], 0;
      } else {
        Extend(consumed, wrapped, [], token, width, fits);
        TracksExtend(tokens, n, wrapped, [], width);
        current, currentW := token, tokW;
      }
    } else {
      Extend(consumed, wrapped, current, token, width, fits);
      TracksExtend(tokens, n, wrapped, current, width);
      WidthConcat(current, token);
      current := current + token;
      currentW := currentW + tokW;
    }
  }

  lemma BreakAccounts(consumed: Line, lines: seq<Line>, token: Line, closed: seq<Line>, rest: Line)
    requires Accounts(consumed, lines, []) && WithoutResets(Flatten(closed)) + rest == token
    ensures Accounts(consumed + token, lines + closed, rest)
  {
    var done, more := WithoutResets(Flatten(lines)), WithoutResets(Flatten(closed));
    FlattenConcat(lines, closed);
    WithoutResetsConcat(Flatten(lines), Flatten(closed));
    Assoc(done, more, rest);
    DropsNothing(token);
    Assoc(token, [], []);
    AppendAccounts(consumed, lines, [], token, token);
  }

  lemma {:induction false} TokensAreParts(tokens: seq<Line>)
    ensures forall k, i :: 0 <= k < |tokens| && 0 <= i < |tokens[k]| ==> tokens[k][i] in Flatten(tokens)
  {
    if tokens != [] {
      TokensAreParts(tokens[..|tokens| - 1]);
    }
  }

  lemma {:induction false} VisibleSurvives(original: Line, kept: Line, item: Item)
    requires DropsOnlySpace(original, kept) && item in original && !IsSpace(item)
    ensures item in kept
  {
    var n := |original| - 1;
    if kept != [] && kept[|kept| - 1] == original[n] && DropsOnlySpace(original[..n], kept[..|kept| - 1]) {
      if item != original[n] {
        VisibleSurvives(original[..n], kept[..|kept| - 1], item);
      }
    } else {
      VisibleSurvives(original[..n], kept, item);
    }
  }

  lemma {:induction false} InWithoutResets(line: Line, item: Item)
    requires item in WithoutResets(line)
    ensures item in line
  {
    if line != [] && item != line[|line| - 1] {
      InWithoutResets(line[..|line| - 1], item);
    }
  }

  lemma {:induction false} InFlatten(lines: seq<Line>, item: Item) returns (k: nat)
    requires item in Flatten(lines)
    ensures k < |lines| && item in lines[k]
  {
    var n := |lines| - 1;
    if item in lines[n] {
      k := n;
    } else {
      k := InFlatten(lines[..n], item);
    }
  }

  lemma {:induction false} ItemFits(line: Line, item: Item)
    requires item in line
    ensures ItemWidth(item) <= Width(line)
  {
    if item != line[|line| - 1] {
      ItemFits(line[..|line| - 1], item);
    }
  }

  lemma FittingLinesHaveFittingGlyphs(line: Line, lines: seq<Line>, width: int)
    requires DropsOnlySpace(line, WithoutResets(Flatten(lines))) && LinesFit(lines, width)
    ensures GlyphsFit(line, width)
  {
    forall i | 0 <= i < |line| && !IsSpace(line[i])
      ensures ItemWidth(line[i]) <= width
    {
      VisibleSurvives(line, WithoutResets(Flatten(lines)), line[i]);
      InWithoutResets(Flatten(lines), line[i]);
      var k := InFlatten(lines, line[i]);
      ItemFits(lines[k], line[i]);
    }
  }
}
