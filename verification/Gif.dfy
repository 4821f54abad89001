/** The GIF scanner, and the grammar it accepts: a header, an optional colour table, blocks, a trailer
    and any tail (sections 15-22 and 27 of the GIF89a specification, with zero bytes between blocks). */
module Gif {
  import opened Images
  import opened Options

  const TRAILER: byte := 0x3B
  const PADDING: byte := 0x00
  const EXTENSION: byte := 0x21
  const IMAGE: byte := 0x2C

  // ---- the grammar ---------------------------------------------------------------------------

  /** A sub-block holds 1 to 255 bytes; an empty one ends the list. */
  type Data = seq<seq<byte>>

  predicate ValidData(d: Data) { forall i :: 0 <= i < |d| ==> 1 <= |d[i]| <= 255 }

  function EncodeData(d: Data): seq<byte>
    requires ValidData(d)
  {
    if d == [] then [0] else [|d[0]|] + d[0] + EncodeData(d[1..])
  }

  datatype Block =
    | Padding
    | Extension(tag: byte, data: Data)
    | Frame(descriptor: seq<byte>, table: seq<byte>, codeSize: byte, data: Data)

  predicate ValidBlock(b: Block) {
    match b
    case Padding => true
    case Extension(_, data) => ValidData(data)
    case Frame(d, table, _, data) =>
      |d| == 9 && Width(d) >= 1 && Height(d) >= 1 && |table| == TableSize(d[8]) && ValidData(data)
  }

  predicate ValidBlocks(bs: seq<Block>) { forall i :: 0 <= i < |bs| ==> ValidBlock(bs[i]) }

  function Left(d: seq<byte>): nat requires |d| == 9 { Little(d[0..2]) }
  function Top(d: seq<byte>): nat requires |d| == 9 { Little(d[2..4]) }
  function Width(d: seq<byte>): nat requires |d| == 9 { Little(d[4..6]) }
  function Height(d: seq<byte>): nat requires |d| == 9 { Little(d[6..8]) }

  function EncodeBlock(b: Block): (s: seq<byte>)
    requires ValidBlock(b)
    ensures |s| >= 1
  {
    match b
    case Padding => [PADDING]
    case Extension(tag, data) => [EXTENSION, tag] + EncodeData(data)
    case Frame(d, table, codeSize, data) => [IMAGE] + d + table + [codeSize] + EncodeData(data)
  }

  function EncodeBlocks(bs: seq<Block>): seq<byte>
    requires ValidBlocks(bs)
  {
    if bs == [] then [] else EncodeBlock(bs[0]) + EncodeBlocks(bs[1..])
  }

  datatype Gif = Gif(header: seq<byte>, table: seq<byte>, blocks: seq<Block>, tail: seq<byte>)

  const GIF87A: seq<byte> := [0x47, 0x49, 0x46, 0x38, 0x37, 0x61]
  const GIF89A: seq<byte> := [0x47, 0x49, 0x46, 0x38, 0x39, 0x61]

  predicate HasSignature(raw: seq<byte>) { GIF87A <= raw || GIF89A <= raw }

  ghost predicate Valid(g: Gif) {
    |g.header| == 13 && HasSignature(g.header) && |g.table| == TableSize(g.header[10]) && ValidBlocks(g.blocks)
  }

  ghost function Encode(g: Gif): seq<byte>
    requires Valid(g)
  {
    g.header + g.table + (EncodeBlocks(g.blocks) + ([TRAILER] + g.tail))
  }

  // ---- the budget ----------------------------------------------------------------------------

  datatype Tally = Tally(width: nat, height: nat, pixels: nat, frames: nat)

  function Max(a: nat, b: nat): nat { if a < b then b else a }

  function AddFrame(t: Tally, d: seq<byte>): Tally
    requires |d| == 9
  {
    var w, h := Max(t.width, Left(d) + Width(d)), Max(t.height, Top(d) + Height(d));
    Tally(w, h, t.pixels + w * h, t.frames + 1)
  }

  function AddBlocks(t: Tally, bs: seq<Block>): Tally
    requires ValidBlocks(bs)
    decreases |bs|
  {
    if bs == [] then t
    else AddBlocks(if bs[0].Frame? then AddFrame(t, bs[0].descriptor) else t, bs[1..])
  }

  function Check(t: Tally): Verdict { CheckFrameBudget(t.width, t.height, t.pixels, t.frames) }

  function Canvas(header: seq<byte>): Tally
    requires |header| == 13
  {
    Tally(Little(header[6..8]), Little(header[8..10]), 0, 0)
  }

  predicate CanvasFits(t: Tally) { CheckFrameBudget(t.width, t.height, t.width * t.height, 0).Accepted? }

  /** The canvas of the header fits, and so do all frames together, each counted at the canvas grown
      so far. */
  ghost predicate WithinBudget(g: Gif)
    requires Valid(g)
  {
    var t := Canvas(g.header);
    CanvasFits(t) && Check(AddBlocks(t, g.blocks)).Accepted?
  }

  // ---- the scanner as a function of the remaining bytes ----------------------------------------

  /** How many bytes the sub-blocks at the front take, or None when they run past the end. */
  function SkipData(s: seq<byte>): (n: Option<nat>)
    ensures n.Some? ==> 1 <= n.value <= |s|
  {
    if |s| < 1 then None
    else
      var size: nat := s[0];
      if |s| < 1 + size then None
      else if size == 0 then Some(1)
      else
        var rest := SkipData(s[1 + size..]);
        if rest.None? then None else Some(1 + size + rest.value)
  }

  /** Stop with a verdict, or go on behind the block. */
  datatype Next = Stop(verdict: Verdict) | Go(length: nat, tally: Tally)

  function NextData(s: seq<byte>, k: nat, t: Tally): Next
    requires k <= |s|
  {
    var n := SkipData(s[k..]);
    if n.None? then Stop(Invalid) else Go(k + n.value, t)
  }

  function NextFrame(s: seq<byte>, t: Tally): Next {
    if |s| < 10 || Width(s[1..10]) < 1 || Height(s[1..10]) < 1 then Stop(Invalid)
    else
      var t', k := AddFrame(t, s[1..10]), 10 + TableSize(s[9]) + 1;
      if !Check(t').Accepted? then Stop(Check(t'))
      else if |s| < k then Stop(Invalid)
      else NextData(s, k, t')
  }

  function NextBlock(s: seq<byte>, t: Tally): (n: Next)
    ensures n.Go? ==> 1 <= n.length <= |s|
  {
    if |s| < 1 then Stop(Invalid)
    else if s[0] == TRAILER then Stop(Accepted)
    else if s[0] == PADDING then Go(1, t)
    else if s[0] == EXTENSION then if |s| < 2 then Stop(Invalid) else NextData(s, 2, t)
    else if s[0] == IMAGE then NextFrame(s, t)
    else Stop(Invalid)
  }

  function Scan(s: seq<byte>, t: Tally): Verdict
    decreases |s|
  {
    match NextBlock(s, t)
    case Stop(verdict) => verdict
    case Go(length, t') => Scan(s[length..], t')
  }

  function Preflight(raw: seq<byte>): Verdict {
    if !HasSignature(raw) then Accepted
    else if |raw| < 13 then Invalid
    else
      var t := Canvas(raw[..13]);
      if !CanvasFits(t) then CheckFrameBudget(t.width, t.height, t.width * t.height, 0)
      else if |raw| < 13 + TableSize(raw[10]) then Invalid
      else Scan(raw[13 + TableSize(raw[10])..], t)
  }

  // ---- the scanner -----------------------------------------------------------------------------

  /** skip_subblocks: None is the error raised for a truncated image. */
  method SkipSubblocks(raw: seq<byte>, start: nat) returns (end: Option<nat>)
    requires start <= |raw|
    ensures end == match SkipData(raw[start..]) case None => None case Some(n) => Some(start + n)
  {
    var position := start;
    while true
      invariant start <= position <= |raw|
      invariant SkipData(raw[start..]) ==
                match SkipData(raw[position..])
                case None => None
                case Some(n) => Some(position - start + n)
      decreases |raw| - position
    {
      if position + 1 > |raw| { return None; }
      var size := raw[position];
      position := position + 1;
      if position + size > |raw| { return None; }
      if size == 0 { return Some(position); }
      assert raw[position - 1..][1 + size..] == raw[position + size..];
      position := position + size;
    }
  }

  /** The step the scanner takes at a position, seen from there. */
  lemma ScanAt(raw: seq<byte>, position: nat, t: Tally)
    requires position <= |raw|
    ensures var n := NextBlock(raw[position..], t);
            Scan(raw[position..], t) == if n.Stop? then n.verdict else Scan(raw[position + n.length..], n.tally)
  {
    var s, n := raw[position..], NextBlock(raw[position..], t);
    if n.Go? { assert s[n.length..] == raw[position + n.length..]; }
  }

  /** Where the sub-blocks at a position end, seen from a block start before it. */
  lemma NextDataAt(raw: seq<byte>, position: nat, k: nat, t: Tally)
    requires position + k <= |raw|
    ensures var n := SkipData(raw[position + k..]);
            NextData(raw[position..], k, t) == if n.None? then Stop(Invalid) else Go(k + n.value, t)
  {
    assert raw[position..][k..] == raw[position + k..];
  }

  /** _preflight_gif */
  method PreflightGif(raw: seq<byte>) returns (verdict: Verdict)
    ensures verdict == Preflight(raw)
    ensures verdict.Accepted? <==>
            !HasSignature(raw) || exists g :: Valid(g) && WithinBudget(g) && Encode(g) == raw
  {
    AcceptsTheGrammar(raw);
    if !HasSignature(raw) { return Accepted; }
    if |raw| < 13 { return Invalid; }
    var canvasWidth, canvasHeight := Little(raw[6..8]), Little(raw[8..10]);
    assert raw[..13][6..8] == raw[6..8] && raw[..13][8..10] == raw[8..10];
    var budget := CheckFrameBudget(canvasWidth, canvasHeight, canvasWidth * canvasHeight, 0);
    if !budget.Accepted? { return budget; }
    var position := 13;
    if raw[10] >= 0x80 {
      position := position + 3 * Power2(raw[10] % 8 + 1);
    }
    if position > |raw| { return Invalid; }
    verdict := ScanBlocks(raw, position, canvasWidth, canvasHeight);
  }

  /** The image branch of the loop: descriptor, budget, local table and image data. */
  method ReadFrame(raw: seq<byte>, begin: nat, t: Tally) returns (next: Next)
    requires begin < |raw|
    ensures next == NextFrame(raw[begin..], t)
  {
    var position := begin + 1;
    if position + 9 > |raw| { return Stop(Invalid); }
    var d := raw[position..position + 9];
    assert raw[begin..][1..10] == d && raw[begin..][9] == d[8];
    if Width(d) < 1 || Height(d) < 1 { return Stop(Invalid); }
    var canvasWidth := Max(t.width, Left(d) + Width(d));
    var canvasHeight := Max(t.height, Top(d) + Height(d));
    var frameCount := t.frames + 1;
    var totalPixels := t.pixels + canvasWidth * canvasHeight;
    var budget := CheckFrameBudget(canvasWidth, canvasHeight, totalPixels, frameCount);
    if !budget.Accepted? { return Stop(budget); }
    position := position + 9;
    if d[8] >= 0x80 {
      position := position + 3 * Power2(d[8] % 8 + 1);
    }
    if position + 1 > |raw| { return Stop(Invalid); }
    var t' := Tally(canvasWidth, canvasHeight, totalPixels, frameCount);
    next := SkipFrom(raw, begin, position + 1 - begin, t');
  }

  method SkipFrom(raw: seq<byte>, begin: nat, k: nat, t: Tally) returns (next: Next)
    requires begin + k <= |raw|
    ensures next == NextData(raw[begin..], k, t)
  {
    NextDataAt(raw, begin, k, t);
    var end := SkipSubblocks(raw, begin + k);
    if end.None? { return Stop(Invalid); }
    return Go(end.value - begin, t);
  }

  /** One round of the loop of _preflight_gif. */
  method ReadBlock(raw: seq<byte>, position: nat, t: Tally) returns (next: Next)
    requires position <= |raw|
    ensures next == NextBlock(raw[position..], t)
  {
    if position + 1 > |raw| { return Stop(Invalid); }
    var marker := raw[position];
    if marker == TRAILER { return Stop(Accepted); }
    if marker == PADDING { return Go(1, t); }
    if marker == EXTENSION {
      if position + 2 > |raw| { return Stop(Invalid); }
      next := SkipFrom(raw, position, 2, t);
    } else if marker != IMAGE {
      return Stop(Invalid);
    } else {
      next := ReadFrame(raw, position, t);
    }
  }

  method ScanBlocks(raw: seq<byte>, start: nat, width: nat, height: nat) returns (verdict: Verdict)
    requires start <= |raw|
    ensures verdict == Scan(raw[start..], Tally(width, height, 0, 0))
  {
    var position, t := start, Tally(width, height, 0, 0);
    ghost var result := Scan(raw[start..], t);
    while true
      invariant 0 <= position <= |raw|
      invariant Scan(raw[position..], t) == result
      decreases |raw| - position
    {
      ScanAt(raw, position, t);
      var next := ReadBlock(raw, position, t);
      if next.Stop? { return next.verdict; }
      position, t := position + next.length, next.tally;
    }
  }

  // ---- the scanner accepts the grammar, and nothing else -----------------------------------------

  lemma {:induction false} SkipsData(d: Data, rest: seq<byte>)
    requires ValidData(d)
    ensures SkipData(EncodeData(d) + rest) == Some(|EncodeData(d)|)
  {
    var s := EncodeData(d) + rest;
    if d != [] {
      SkipsData(d[1..], rest);
      assert s[1 + |d[0]|..] == EncodeData(d[1..]) + rest;
    }
  }

  lemma {:induction false} SkippedIsData(s: seq<byte>) returns (d: Data)
    requires SkipData(s).Some?
    ensures ValidData(d) && EncodeData(d) == s[..SkipData(s).value]
  {
    if s[0] == 0 {
      d := [];
    } else {
      var rest := SkippedIsData(s[1 + s[0]..]);
      d := [s[1..1 + s[0]]] + rest;
      assert d[1..] == rest;
      assert s[..SkipData(s).value] == [s[0]] + s[1..1 + s[0]] + s[1 + s[0]..][..SkipData(s[1 + s[0]..]).value];
    }
  }

  lemma SkipsDataAt(s: seq<byte>, front: seq<byte>, data: Data, rest: seq<byte>, t: Tally)
    requires ValidData(data) && s == front + EncodeData(data) + rest
    ensures NextData(s, |front|, t) == Go(|front + EncodeData(data)|, t)
    ensures s[|front + EncodeData(data)|..] == rest
  {
    SkipsData(data, rest);
    assert s[|front|..] == EncodeData(data) + rest;
  }

  /** What the scanner makes of one whole block, whatever follows it. */
  lemma ScansBlock(b: Block, rest: seq<byte>, t: Tally)
    requires ValidBlock(b)
    ensures Scan(EncodeBlock(b) + rest, t) ==
            if !b.Frame? then Scan(rest, t)
            else if !Check(AddFrame(t, b.descriptor)).Accepted? then Check(AddFrame(t, b.descriptor))
            else Scan(rest, AddFrame(t, b.descriptor))
  {
    var s := EncodeBlock(b) + rest;
    match b {
      case Padding => assert s[1..] == rest;
      case Extension(tag, data) => SkipsDataAt(s, [EXTENSION, tag], data, rest, t);
      case Frame(d, table, codeSize, data) =>
        var front := [IMAGE] + d + table + [codeSize];
        assert s == front + EncodeData(data) + rest;
        assert front[1..10] == d && front[0] == IMAGE && front[9] == d[8];
        assert s[1..10] == front[1..10] && s[0] == front[0] && s[9] == front[9];
        SkipsDataAt(s, front, data, rest, AddFrame(t, d));
    }
  }

  /** A tally that fails its check goes on failing it: canvas, pixels and frames only grow. */
  lemma FailureStays(t: Tally, bs: seq<Block>)
    requires ValidBlocks(bs)
    ensures Check(AddBlocks(t, bs)).Accepted? && t.width >= 1 && t.height >= 1 ==> Check(t).Accepted?
  {
    TallyCovers(t, bs);
    TallyCounts(t, bs);
  }

  /** Scanning whole blocks accepts what follows exactly when one check at the end would. */
  lemma {:induction false} ScansBlocks(bs: seq<Block>, rest: seq<byte>, t: Tally)
    requires ValidBlocks(bs) && t.width >= 1 && t.height >= 1 && Check(t).Accepted?
    ensures if Check(AddBlocks(t, bs)).Accepted? then Scan(EncodeBlocks(bs) + rest, t) == Scan(rest, AddBlocks(t, bs))
            else Scan(EncodeBlocks(bs) + rest, t) in {FramesExceeded, DimensionsExceeded}
    decreases |bs|
  {
    if bs == [] {
      assert EncodeBlocks(bs) + rest == rest;
    } else {
      var more := EncodeBlocks(bs[1..]) + rest;
      assert EncodeBlocks(bs) + rest == EncodeBlock(bs[0]) + more;
      ScansBlock(bs[0], more, t);
      var t' := if bs[0].Frame? then AddFrame(t, bs[0].descriptor) else t;
      FailureStays(t', bs[1..]);
      if Check(t').Accepted? { ScansBlocks(bs[1..], rest, t'); }
    }
  }

  lemma Prepend(b: Block, bs: seq<Block>, s: seq<byte>, k: nat, tail: seq<byte>)
    requires ValidBlock(b) && ValidBlocks(bs) && k <= |s|
    requires s[..k] == EncodeBlock(b) && s[k..] == EncodeBlocks(bs) + ([TRAILER] + tail)
    ensures ValidBlocks([b] + bs) && s == EncodeBlocks([b] + bs) + ([TRAILER] + tail)
  {
    assert ([b] + bs)[1..] == bs;
    Regroup(s, k, EncodeBlock(b), EncodeBlocks(bs), [TRAILER] + tail);
  }

  lemma Regroup(s: seq<byte>, k: nat, x: seq<byte>, y: seq<byte>, z: seq<byte>)
    requires k <= |s| && s[..k] == x && s[k..] == y + z
    ensures s == (x + y) + z
  {
    assert s == s[..k] + s[k..];
  }

  lemma DataAt(s: seq<byte>, k: nat, t: Tally) returns (data: Data)
    requires k <= |s| && NextData(s, k, t).Go?
    ensures ValidData(data) && k <= NextData(s, k, t).length <= |s|
    ensures s[..NextData(s, k, t).length] == s[..k] + EncodeData(data)
  {
    data := SkippedIsData(s[k..]);
    assert s[..NextData(s, k, t).length] == s[..k] + s[k..][..SkipData(s[k..]).value];
  }

  /** Whatever the scanner goes over is one block. */
  lemma FirstBlock(s: seq<byte>, t: Tally) returns (b: Block)
    requires NextBlock(s, t).Go?
    ensures ValidBlock(b) && s[..NextBlock(s, t).length] == EncodeBlock(b)
    ensures NextBlock(s, t).tally == if b.Frame? then AddFrame(t, b.descriptor) else t
  {
    if s[0] == PADDING {
      b := Padding;
    } else if s[0] == EXTENSION {
      var data := DataAt(s, 2, t);
      b := Extension(s[1], data);
      assert s[..2] == [EXTENSION, s[1]];
    } else {
      b := FirstFrame(s, t);
    }
  }

  lemma FirstFrame(s: seq<byte>, t: Tally) returns (b: Block)
    requires |s| >= 1 && s[0] == IMAGE && NextFrame(s, t).Go?
    ensures ValidBlock(b) && b.Frame? && NextFrame(s, t).length <= |s|
    ensures s[..NextFrame(s, t).length] == EncodeBlock(b)
    ensures NextFrame(s, t).tally == AddFrame(t, b.descriptor)
  {
    var d, k := s[1..10], 10 + TableSize(s[9]);
    var data := DataAt(s, k + 1, AddFrame(t, d));
    b := Frame(d, s[10..k], s[k], data);
    assert d[8] == s[9];
    assert s[..k + 1] == [IMAGE] + d + s[10..k] + [s[k]];
  }

  lemma {:induction false} AcceptedIsBlocks(s: seq<byte>, t: Tally) returns (bs: seq<Block>, tail: seq<byte>)
    requires Scan(s, t).Accepted?
    ensures ValidBlocks(bs) && s == EncodeBlocks(bs) + ([TRAILER] + tail)
    decreases |s|
  {
    var n := NextBlock(s, t);
    if n.Stop? {
      bs, tail := [], s[1..];
      assert EncodeBlocks(bs) + ([TRAILER] + tail) == s;
    } else {
      var b := FirstBlock(s, t);
      bs, tail := AcceptedIsBlocks(s[n.length..], n.tally);
      Prepend(b, bs, s, n.length, tail);
      bs := [b] + bs;
    }
  }

  /** Any valid GIF is accepted exactly when it is within the budget. */
  lemma GifIsAcceptedWithinBudget(g: Gif)
    requires Valid(g)
    ensures HasSignature(Encode(g))
    ensures Preflight(Encode(g)).Accepted? <==> WithinBudget(g)
  {
    var raw, t := Encode(g), Canvas(g.header);
    assert raw[..13] == g.header && raw[10] == g.header[10];
    assert raw[13 + |g.table|..] == EncodeBlocks(g.blocks) + ([TRAILER] + g.tail);
    assert g.header[..6] == raw[..6];
    if CanvasFits(t) {
      ScansBlocks(g.blocks, [TRAILER] + g.tail, t);
    }
  }

  lemma AcceptedIsGif(raw: seq<byte>) returns (g: Gif)
    requires HasSignature(raw) && Preflight(raw).Accepted?
    ensures Valid(g) && Encode(g) == raw
  {
    var k := 13 + TableSize(raw[10]);
    var bs, tail := AcceptedIsBlocks(raw[k..], Canvas(raw[..13]));
    g := Gif(raw[..13], raw[13..k], bs, tail);
    assert raw == raw[..13] + raw[13..k] + raw[k..];
  }

  lemma AcceptsTheGrammar(raw: seq<byte>)
    ensures Preflight(raw).Accepted? <==>
            !HasSignature(raw) || exists g :: Valid(g) && WithinBudget(g) && Encode(g) == raw
  {
    if HasSignature(raw) && Preflight(raw).Accepted? {
      var g := AcceptedIsGif(raw);
      GifIsAcceptedWithinBudget(g);
    }
    forall g | Valid(g) && WithinBudget(g) && Encode(g) == raw ensures Preflight(raw).Accepted? {
      GifIsAcceptedWithinBudget(g);
    }
  }

  // ---- what the budget is for --------------------------------------------------------------------

  function Frames(bs: seq<Block>): nat { if bs == [] then 0 else (if bs[0].Frame? then 1 else 0) + Frames(bs[1..]) }

  /** The pixels of the frames' own rectangles. */
  function FramePixels(bs: seq<Block>): nat
    requires ValidBlocks(bs)
  {
    if bs == [] then 0
    else (if bs[0].Frame? then Width(bs[0].descriptor) * Height(bs[0].descriptor) else 0) + FramePixels(bs[1..])
  }

  lemma AreaGrows(a: nat, b: nat, c: nat, d: nat)
    requires a <= c && b <= d
    ensures a * b <= c * d
  {
    assert a * b <= c * b <= c * d;
  }

  /** The canvas of the tally covers every frame, and the tally counts them all. */
  lemma {:induction false} TallyCovers(t: Tally, bs: seq<Block>)
    requires ValidBlocks(bs)
    ensures var r := AddBlocks(t, bs);
      && r.width >= t.width && r.height >= t.height
      && r.frames == t.frames + Frames(bs)
      && forall i :: 0 <= i < |bs| && bs[i].Frame? ==>
           Left(bs[i].descriptor) + Width(bs[i].descriptor) <= r.width &&
           Top(bs[i].descriptor) + Height(bs[i].descriptor) <= r.height
    decreases |bs|
  {
    if bs != [] {
      TallyCovers(if bs[0].Frame? then AddFrame(t, bs[0].descriptor) else t, bs[1..]);
    }
  }

  /** It counts no frame below its own size. */
  lemma {:induction false} TallyCounts(t: Tally, bs: seq<Block>)
    requires ValidBlocks(bs)
    ensures AddBlocks(t, bs).pixels >= t.pixels + FramePixels(bs)
    decreases |bs|
  {
    if bs != [] {
      var t' := if bs[0].Frame? then AddFrame(t, bs[0].descriptor) else t;
      TallyCounts(t', bs[1..]);
      if bs[0].Frame? {
        AreaGrows(Width(bs[0].descriptor), Height(bs[0].descriptor), t'.width, t'.height);
      }
    }
  }

  /** Nor below the canvas it starts from. */
  lemma {:induction false} TallyCountsCanvas(t: Tally, bs: seq<Block>, area: nat)
    requires ValidBlocks(bs) && area <= t.width * t.height
    ensures AddBlocks(t, bs).pixels >= t.pixels + Frames(bs) * area
    decreases |bs|
  {
    if bs != [] {
      var t' := if bs[0].Frame? then AddFrame(t, bs[0].descriptor) else t;
      AreaGrows(t.width, t.height, t'.width, t'.height);
      TallyCountsCanvas(t', bs[1..], area);
      assert (1 + Frames(bs[1..])) * area == area + Frames(bs[1..]) * area;
    }
  }

  /** An accepted GIF has at most 64 frames, every frame lies in one canvas of at most 8192 by 8192,
      and neither the frames' own pixels nor one header canvas per frame exceed 16,000,000. */
  lemma AcceptedIsBounded(g: Gif)
    requires Valid(g) && Preflight(Encode(g)).Accepted?
    ensures Frames(g.blocks) <= 64
    ensures FramePixels(g.blocks) <= 16_000_000
    ensures var t := Canvas(g.header); Frames(g.blocks) * (t.width * t.height) <= 16_000_000
    ensures forall i :: 0 <= i < |g.blocks| && g.blocks[i].Frame? ==>
              Left(g.blocks[i].descriptor) + Width(g.blocks[i].descriptor) <= 8192 &&
              Top(g.blocks[i].descriptor) + Height(g.blocks[i].descriptor) <= 8192
  {
    GifIsAcceptedWithinBudget(g);
    TallyCovers(Canvas(g.header), g.blocks);
    TallyCounts(Canvas(g.header), g.blocks);
    TallyCountsCanvas(Canvas(g.header), g.blocks, Canvas(g.header).width * Canvas(g.header).height);
  }
}
