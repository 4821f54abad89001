/** Whole files, written out byte by byte from the sizes they declare, and the verdicts of the scanners on
    them: the lossy bitstream header of section 9.1 of RFC 6386, the lossless one and the animation chunks of
    sections 2.7 and 3.4 of RFC 9649, and the image descriptor of section 20 of the GIF89a specification. */
module ImageHeaders {
  import opened Images
  import Gif
  import Webp

  predicate SideFits(n: nat) { 1 <= n <= 8192 }

  /** The size of one image that the scanners let through. */
  predicate SizeFits(w: nat, h: nat) { SideFits(w) && SideFits(h) && w * h <= 16_000_000 }

  /** Numbers are little-endian. */
  lemma LittleBytes(a: byte, b: byte, c: byte, d: byte)
    ensures Little([a, b]) == a + 256 * b && Little([a, b, c]) == a + 256 * b + 65_536 * c
    ensures Little([a, b, c, d]) == a + 256 * b + 65_536 * c + 16_777_216 * d
    ensures Power256(2) == 65_536 && Power256(3) == 16_777_216 && Power256(4) == 4_294_967_296
  {
    LittleCons(d, []);
    LittleCons(c, [d]);
    LittleCons(b, [c, d]);
    LittleCons(a, [b, c, d]);
    LittleCons(c, []);
    LittleCons(b, [c]);
    LittleCons(a, [b, c]);
    LittleCons(b, []);
    LittleCons(a, [b]);
  }

  lemma LittleCons(x: byte, s: seq<byte>)
    ensures Little([x] + s) == x + 256 * Little(s)
  {
    assert ([x] + s)[1..] == s;
  }

  lemma Powers()
    ensures Power256(2) == 65_536 && Power256(3) == 16_777_216 && Power256(4) == 4_294_967_296
  {
    LittleBytes(0, 0, 0, 0);
  }

  // ---- single WebP images --------------------------------------------------------------------------

  /** A side of a lossy image is 14 bits, with a scale of 2 bits on top that does not count. */
  function LossyPayload(tag: seq<byte>, w: nat, wScale: nat, h: nat, hScale: nat, rest: seq<byte>): seq<byte> {
    tag + [0x9D, 0x01, 0x2A] + ToLittle(w + 0x4000 * wScale, 2) + ToLittle(h + 0x4000 * hScale, 2) + rest
  }

  /** A lossless image has both sides less one in 28 bits, and four more bits that do not count. */
  function LosslessPayload(w: nat, h: nat, more: nat, rest: seq<byte>): seq<byte>
    requires w >= 1 && h >= 1
  {
    [0x2F] + ToLittle(w - 1 + 0x4000 * (h - 1) + 0x1000_0000 * more, 4) + rest
  }

  lemma LossySizeIsRead(tag: seq<byte>, w: nat, wScale: nat, h: nat, hScale: nat, rest: seq<byte>)
    requires |tag| == 3 && w < 0x4000 && h < 0x4000 && wScale < 4 && hScale < 4
    ensures Webp.LossySize(LossyPayload(tag, w, wScale, h, hScale, rest)).Accepted? <==> SizeFits(w, h)
  {
    var p := LossyPayload(tag, w, wScale, h, hScale, rest);
    Powers();
    LittleOfToLittle(w + 0x4000 * wScale, 2);
    LittleOfToLittle(h + 0x4000 * hScale, 2);
    assert p[3..6] == [0x9D, 0x01, 0x2A];
    assert p[6..8] == ToLittle(w + 0x4000 * wScale, 2) && p[8..10] == ToLittle(h + 0x4000 * hScale, 2);
    LowBits(w, wScale);
    LowBits(h, hScale);
  }

  lemma LowBits(n: nat, high: nat)
    requires n < 0x4000
    ensures (n + 0x4000 * high) % 0x4000 == n && (n + 0x4000 * high) / 0x4000 == high
  {
  }

  lemma LosslessSizeIsRead(w: nat, h: nat, more: nat, rest: seq<byte>)
    requires 1 <= w <= 0x4000 && 1 <= h <= 0x4000 && more < 16
    ensures Webp.LosslessSize(LosslessPayload(w, h, more, rest)).Accepted? <==> SizeFits(w, h)
  {
    var p := LosslessPayload(w, h, more, rest);
    var d := w - 1 + 0x4000 * (h - 1) + 0x1000_0000 * more;
    Powers();
    LittleOfToLittle(d, 4);
    assert p[1..5] == ToLittle(d, 4);
    assert d == w - 1 + 0x4000 * (h - 1 + 0x4000 * more);
    LowBits(w - 1, h - 1 + 0x4000 * more);
    LowBits(h - 1, more);
  }

  /** A file of one chunk. */
  function WebpFile(kind: seq<byte>, payload: seq<byte>, tail: seq<byte>): seq<byte>
    requires |kind| == 4
  {
    var pad: seq<byte> := if |payload| % 2 == 1 then [0] else [];
    [0x52, 0x49, 0x46, 0x46] + ToLittle(4 + (8 + |payload| + |pad|), 4) + [0x57, 0x45, 0x42, 0x50]
    + (kind + ToLittle(|payload|, 4) + payload + pad) + tail
  }

  lemma OneChunk(kind: seq<byte>, payload: seq<byte>, tail: seq<byte>)
    requires |kind| == 4 && 13 + |payload| < Power256(4)
    ensures var c := Webp.Chunk(kind, payload, if |payload| % 2 == 1 then [0] else []);
            && Webp.Fits([c]) && Webp.Encode([c], tail) == WebpFile(kind, payload, tail)
            && (Webp.Preflight(WebpFile(kind, payload, tail)).Accepted? <==> Webp.Opens(c))
  {
    var c := Webp.Chunk(kind, payload, if |payload| % 2 == 1 then [0] else []);
    assert [c][1..] == [];
    assert Webp.EncodeChunks([c]) == Webp.EncodeChunk(c) + [] == Webp.EncodeChunk(c);
    Webp.EncodedIsAcceptedWhenProper([c], tail);
  }

  /** A lossy image is accepted exactly when both sides and their product are within the limits. */
  lemma LossyFile(tag: seq<byte>, w: nat, wScale: nat, h: nat, hScale: nat, rest: seq<byte>, tail: seq<byte>)
    requires |tag| == 3 && w < 0x4000 && h < 0x4000 && wScale < 4 && hScale < 4 && 23 + |rest| < Power256(4)
    ensures var p := LossyPayload(tag, w, wScale, h, hScale, rest);
            Webp.Preflight(WebpFile([0x56, 0x50, 0x38, 0x20], p, tail)).Accepted? <==> SizeFits(w, h)
  {
    OneChunk([0x56, 0x50, 0x38, 0x20], LossyPayload(tag, w, wScale, h, hScale, rest), tail);
    LossySizeIsRead(tag, w, wScale, h, hScale, rest);
  }

  /** And so is a lossless one. */
  lemma LosslessFile(w: nat, h: nat, more: nat, rest: seq<byte>, tail: seq<byte>)
    requires 1 <= w <= 0x4000 && 1 <= h <= 0x4000 && more < 16 && 18 + |rest| < Power256(4)
    ensures var p := LosslessPayload(w, h, more, rest);
            Webp.Preflight(WebpFile([0x56, 0x50, 0x38, 0x4C], p, tail)).Accepted? <==> SizeFits(w, h)
  {
    OneChunk([0x56, 0x50, 0x38, 0x4C], LosslessPayload(w, h, more, rest), tail);
    LosslessSizeIsRead(w, h, more, rest);
  }

  /** Every payload that passes as a lossy image is the header of one within the limits. */
  lemma AcceptedIsLossy(p: seq<byte>) returns (w: nat, wScale: nat, h: nat, hScale: nat)
    requires Webp.LossySize(p).Accepted?
    ensures |p| >= 10 && w < 0x4000 && h < 0x4000 && wScale < 4 && hScale < 4 && SizeFits(w, h)
    ensures p == LossyPayload(p[..3], w, wScale, h, hScale, p[10..])
  {
    var a, b := Little(p[6..8]), Little(p[8..10]);
    w, wScale, h, hScale := a % 0x4000, a / 0x4000, b % 0x4000, b / 0x4000;
    Powers();
    LittleBound(p[6..8]);
    LittleBound(p[8..10]);
    ToLittleOfLittle(p[6..8]);
    ToLittleOfLittle(p[8..10]);
    assert p == p[..3] + p[3..6] + p[6..8] + p[8..10] + p[10..];
  }

  lemma AcceptedIsLossless(p: seq<byte>) returns (w: nat, h: nat, more: nat)
    requires Webp.LosslessSize(p).Accepted?
    ensures |p| >= 5 && 1 <= w <= 0x4000 && 1 <= h <= 0x4000 && more < 16 && SizeFits(w, h)
    ensures p == LosslessPayload(w, h, more, p[5..])
  {
    var d := Little(p[1..5]);
    w, h, more := 1 + d % 0x4000, 1 + (d / 0x4000) % 0x4000, d / 0x4000 / 0x4000;
    Powers();
    LittleBound(p[1..5]);
    ToLittleOfLittle(p[1..5]);
    assert d == w - 1 + 0x4000 * (h - 1 + 0x4000 * more);
    assert p == [0x2F] + p[1..5] + p[5..];
  }

  /** In an accepted file every single image, wherever it stands, is within the limits. */
  lemma ImagesAreBounded(cs: seq<Webp.Chunk>, tail: seq<byte>, i: nat) returns (w: nat, h: nat)
    requires Webp.Fits(cs) && Webp.Preflight(Webp.Encode(cs, tail)).Accepted? && i < |cs|
    requires cs[i].kind == [0x56, 0x50, 0x38, 0x20] || cs[i].kind == [0x56, 0x50, 0x38, 0x4C]
    ensures SizeFits(w, h)
    ensures if cs[i].kind == [0x56, 0x50, 0x38, 0x20]
            then exists tag, s, t, rest :: |tag| == 3 && cs[i].payload == LossyPayload(tag, w, s, h, t, rest)
            else exists more, rest :: cs[i].payload == LosslessPayload(w, h, more, rest)
  {
    Webp.EncodedIsAcceptedWhenProper(cs, tail);
    var c := cs[i];
    assert i > 0 ==> cs[1..][i - 1] == c;
    if c.kind == [0x56, 0x50, 0x38, 0x20] {
      var s, t;
      w, s, h, t := AcceptedIsLossy(c.payload);
    } else {
      var more;
      w, h, more := AcceptedIsLossless(c.payload);
    }
  }

  lemma FourParts(a: seq<byte>, b: seq<byte>, c: seq<byte>, d: seq<byte>, rest: seq<byte>, k: nat)
    requires |a| == |b| == |c| == |d| == k
    ensures var s := a + b + c + d + rest;
            s[0..k] == a && s[k..2 * k] == b && s[2 * k..3 * k] == c && s[3 * k..4 * k] == d && s[4 * k..] == rest
  {
  }

  // ---- animations ----------------------------------------------------------------------------------

  /** Where a frame lies on the canvas. */
  datatype Rect = Rect(x: nat, y: nat, w: nat, h: nat)

  function CanvasPayload(flags: seq<byte>, w: nat, h: nat): seq<byte>
    requires w >= 1 && h >= 1
  {
    flags + ToLittle(w - 1, 3) + ToLittle(h - 1, 3)
  }

  /** The corner is given in units of two pixels. */
  function FramePayload(r: Rect, rest: seq<byte>): seq<byte>
    requires r.w >= 1 && r.h >= 1
  {
    ToLittle(r.x / 2, 3) + ToLittle(r.y / 2, 3) + ToLittle(r.w - 1, 3) + ToLittle(r.h - 1, 3) + rest
  }

  predicate Encodes(r: Rect) {
    && r.x % 2 == 0 && r.y % 2 == 0 && r.x < 0x200_0000 && r.y < 0x200_0000
    && 1 <= r.w <= 0x100_0000 && 1 <= r.h <= 0x100_0000
  }

  predicate Inside(r: Rect, w: nat, h: nat) { r.x + r.w <= w && r.y + r.h <= h }

  lemma CanvasIsRead(flags: seq<byte>, w: nat, h: nat)
    requires |flags| == 4 && 1 <= w <= 0x100_0000 && 1 <= h <= 0x100_0000
    ensures var p := CanvasPayload(flags, w, h);
            |p| == 10 && Webp.CanvasWidth(p) == w && Webp.CanvasHeight(p) == h
  {
    var p := CanvasPayload(flags, w, h);
    Powers();
    LittleOfToLittle(w - 1, 3);
    LittleOfToLittle(h - 1, 3);
    assert p[4..7] == ToLittle(w - 1, 3) && p[7..10] == ToLittle(h - 1, 3);
  }

  lemma FrameIsRead(r: Rect, rest: seq<byte>)
    requires Encodes(r) && |rest| >= 4
    ensures var p := FramePayload(r, rest);
            && |p| >= 16 && Webp.Left(p) == r.x && Webp.Top(p) == r.y
            && Webp.FrameWidth(p) == r.w && Webp.FrameHeight(p) == r.h
  {
    var p := FramePayload(r, rest);
    Powers();
    LittleOfToLittle(r.x / 2, 3);
    LittleOfToLittle(r.y / 2, 3);
    LittleOfToLittle(r.w - 1, 3);
    LittleOfToLittle(r.h - 1, 3);
    FourParts(ToLittle(r.x / 2, 3), ToLittle(r.y / 2, 3), ToLittle(r.w - 1, 3), ToLittle(r.h - 1, 3), rest, 3);
    assert 2 * (r.x / 2) == r.x && 2 * (r.y / 2) == r.y;
  }

  predicate IsFrame(c: Webp.Chunk, r: Rect) {
    && c.kind == [0x41, 0x4E, 0x4D, 0x46] && Encodes(r)
    && |c.payload| >= 16 && c.payload == FramePayload(r, c.payload[12..])
  }

  predicate AreFrames(cs: seq<Webp.Chunk>, rects: seq<Rect>) {
    |cs| == |rects| && forall i :: 0 <= i < |cs| ==> IsFrame(cs[i], rects[i])
  }

  lemma {:induction false} FramesAreRead(cs: seq<Webp.Chunk>, rects: seq<Rect>, w: nat, h: nat)
    requires AreFrames(cs, rects) && w > 0
    ensures Webp.Frames(cs) == |rects|
    ensures Webp.AllFollow(cs, w, h) <==> AllInside(rects, w, h)
  {
    if cs != [] {
      FramesAreRead(cs[1..], rects[1..], w, h);
      Webp.FollowersSplit(cs, w, h);
      FrameIsRead(rects[0], cs[0].payload[12..]);
      InsideSplit(rects, w, h);
    }
  }

  predicate AllInside(rects: seq<Rect>, w: nat, h: nat) { forall i :: 0 <= i < |rects| ==> Inside(rects[i], w, h) }

  lemma InsideSplit(rects: seq<Rect>, w: nat, h: nat)
    requires rects != []
    ensures AllInside(rects, w, h) <==> Inside(rects[0], w, h) && AllInside(rects[1..], w, h)
  {
    assert rects == [rects[0]] + rects[1..];
  }

  /** An animation is accepted exactly when its canvas is within the limits, so are 64 frames and the
      canvas taken once for each frame, and every frame lies inside the canvas. */
  lemma AnimationIsAccepted(canvas: Webp.Chunk, cs: seq<Webp.Chunk>, flags: seq<byte>, w: nat, h: nat, rects: seq<Rect>,
                            tail: seq<byte>)
    requires |flags| == 4 && 1 <= w <= 0x100_0000 && 1 <= h <= 0x100_0000
    requires canvas == Webp.Chunk([0x56, 0x50, 0x38, 0x58], CanvasPayload(flags, w, h), [])
    requires AreFrames(cs, rects) && Webp.Fits([canvas] + cs)
    ensures Webp.Preflight(Webp.Encode([canvas] + cs, tail)).Accepted? <==>
              && SizeFits(w, h)
              && (rects != [] ==> |rects| <= 64 && w * h * |rects| <= 16_000_000)
              && AllInside(rects, w, h)
  {
    Webp.EncodedIsAcceptedWhenProper([canvas] + cs, tail);
    assert ([canvas] + cs)[1..] == cs;
    CanvasIsRead(flags, w, h);
    FramesAreRead(cs, rects, w, h);
  }

  // ---- GIF -----------------------------------------------------------------------------------------

  /** The markers and the sub-blocks, byte by byte. */
  lemma GifBytes(tag: byte, d: seq<byte>, table: seq<byte>, codeSize: byte, piece: seq<byte>, data: Gif.Data)
    requires Gif.ValidData([piece] + data) && |d| == 9 && Gif.ValidBlock(Gif.Frame(d, table, codeSize, data))
    ensures Gif.EncodeBlock(Gif.Padding) == [0x00]
    ensures Gif.EncodeBlock(Gif.Extension(tag, data)) == [0x21, tag] + Gif.EncodeData(data)
    ensures Gif.EncodeBlock(Gif.Frame(d, table, codeSize, data)) == [0x2C] + d + table + [codeSize]
            + Gif.EncodeData(data)
    ensures Gif.EncodeData([]) == [0] && Gif.EncodeData([piece] + data) == [|piece|] + piece + Gif.EncodeData(data)
  {
    assert ([piece] + data)[1..] == data;
  }

  /** A colour table is there when the top bit of the flags is set, and the low three bits give its size. */
  lemma TableSizes(flags: byte)
    ensures flags < 0x80 ==> TableSize(flags) == 0
    ensures flags >= 0x80 ==> TableSize(flags) == [6, 12, 24, 48, 96, 192, 384, 768][flags % 8]
  {
    assert Power2(8) == 256 && Power2(7) == 128 && Power2(6) == 64 && Power2(5) == 32;
  }

  function ScreenHeader(version: seq<byte>, w: nat, h: nat, flags: byte, more: seq<byte>): seq<byte> {
    version + ToLittle(w, 2) + ToLittle(h, 2) + [flags] + more
  }

  lemma ScreenIsRead(version: seq<byte>, w: nat, h: nat, flags: byte, more: seq<byte>)
    requires |version| == 6 && |more| == 2 && w < 0x1_0000 && h < 0x1_0000
    ensures var header := ScreenHeader(version, w, h, flags, more);
            |header| == 13 && header[10] == flags && Gif.Canvas(header) == Gif.Tally(w, h, 0, 0)
  {
    var header := ScreenHeader(version, w, h, flags, more);
    Powers();
    LittleOfToLittle(w, 2);
    LittleOfToLittle(h, 2);
    assert header[6..8] == ToLittle(w, 2) && header[8..10] == ToLittle(h, 2);
  }

  function Descriptor(r: Rect, flags: byte): seq<byte> {
    ToLittle(r.x, 2) + ToLittle(r.y, 2) + ToLittle(r.w, 2) + ToLittle(r.h, 2) + [flags]
  }

  predicate Describes(r: Rect) { r.x < 0x1_0000 && r.y < 0x1_0000 && 1 <= r.w < 0x1_0000 && 1 <= r.h < 0x1_0000 }

  lemma DescriptorIsRead(r: Rect, flags: byte)
    requires Describes(r)
    ensures var d := Descriptor(r, flags);
            && |d| == 9 && d[8] == flags && Gif.Left(d) == r.x && Gif.Top(d) == r.y
            && Gif.Width(d) == r.w && Gif.Height(d) == r.h
  {
    var d := Descriptor(r, flags);
    Powers();
    LittleOfToLittle(r.x, 2);
    LittleOfToLittle(r.y, 2);
    LittleOfToLittle(r.w, 2);
    LittleOfToLittle(r.h, 2);
    FourParts(ToLittle(r.x, 2), ToLittle(r.y, 2), ToLittle(r.w, 2), ToLittle(r.h, 2), [flags], 2);
  }

  function Larger(a: nat, b: nat): nat { if a < b then b else a }

  datatype Size = Size(w: nat, h: nat)

  /** The canvas after the frames: the declared one, grown to cover each of them. */
  function Grown(w: nat, h: nat, rects: seq<Rect>): Size {
    if rects == [] then Size(w, h)
    else
      var g, r := Grown(w, h, rects[..|rects| - 1]), rects[|rects| - 1];
      Size(Larger(g.w, r.x + r.w), Larger(g.h, r.y + r.h))
  }

  /** All frames, each taken as large as the canvas is by then. */
  function GrownPixels(w: nat, h: nat, rects: seq<Rect>): nat {
    if rects == [] then 0
    else GrownPixels(w, h, rects[..|rects| - 1]) + Grown(w, h, rects).w * Grown(w, h, rects).h
  }

  predicate AreGifFrames(bs: seq<Gif.Block>, rects: seq<Rect>) {
    && |bs| == |rects|
    && forall i :: 0 <= i < |bs| ==>
         bs[i].Frame? && Describes(rects[i]) && |bs[i].descriptor| == 9
         && bs[i].descriptor == Descriptor(rects[i], bs[i].descriptor[8])
  }

  lemma {:induction false} AddBlocksSnoc(t: Gif.Tally, bs: seq<Gif.Block>, b: Gif.Block)
    requires Gif.ValidBlocks(bs) && Gif.ValidBlock(b)
    ensures Gif.ValidBlocks(bs + [b])
    ensures Gif.AddBlocks(t, bs + [b])
         == if b.Frame? then Gif.AddFrame(Gif.AddBlocks(t, bs), b.descriptor) else Gif.AddBlocks(t, bs)
    decreases |bs|
  {
    if bs == [] {
      assert [] + [b] == [b] && [b][1..] == [];
    } else {
      assert (bs + [b])[1..] == bs[1..] + [b];
      AddBlocksSnoc(if bs[0].Frame? then Gif.AddFrame(t, bs[0].descriptor) else t, bs[1..], b);
    }
  }

  /** The scanner's tally after these blocks is the grown canvas, all pixels and the number of frames. */
  ghost predicate Tallied(w: nat, h: nat, bs: seq<Gif.Block>, rects: seq<Rect>)
    requires Gif.ValidBlocks(bs)
  {
    var g := Grown(w, h, rects);
    Gif.AddBlocks(Gif.Tally(w, h, 0, 0), bs) == Gif.Tally(g.w, g.h, GrownPixels(w, h, rects), |rects|)
  }

  lemma {:induction false} FramesAreTallied(w: nat, h: nat, bs: seq<Gif.Block>, rects: seq<Rect>)
    requires Gif.ValidBlocks(bs) && AreGifFrames(bs, rects)
    ensures Tallied(w, h, bs, rects)
  {
    if bs != [] {
      var n := |bs| - 1;
      assert bs[n].Frame? && Describes(rects[n]);
      FramesAreTallied(w, h, bs[..n], rects[..n]);
      FrameIsTallied(w, h, bs[..n], bs[n], rects[..n], rects[n]);
      assert bs[..n] + [bs[n]] == bs && rects[..n] + [rects[n]] == rects;
    }
  }

  lemma {:induction false} FrameIsTallied(w: nat, h: nat, bs: seq<Gif.Block>, b: Gif.Block, rects: seq<Rect>, r: Rect)
    requires Gif.ValidBlocks(bs) && Gif.ValidBlock(b) && b.Frame? && Describes(r)
    requires b.descriptor == Descriptor(r, b.descriptor[8]) && Tallied(w, h, bs, rects)
    ensures Gif.ValidBlocks(bs + [b]) && Tallied(w, h, bs + [b], rects + [r])
  {
    AddBlocksSnoc(Gif.Tally(w, h, 0, 0), bs, b);
    DescriptorIsRead(r, b.descriptor[8]);
    assert (rects + [r])[..|rects|] == rects;
  }

  /** A GIF is accepted exactly when its declared canvas is within the limits, and so are 64 frames, the
      grown canvas, and all frames taken as large as the canvas is by then. */
  lemma GifIsAccepted(g: Gif.Gif, version: seq<byte>, w: nat, h: nat, flags: byte, more: seq<byte>, rects: seq<Rect>)
    requires Gif.Valid(g) && |version| == 6 && |more| == 2 && w < 0x1_0000 && h < 0x1_0000
    requires g.header == ScreenHeader(version, w, h, flags, more) && AreGifFrames(g.blocks, rects)
    ensures Gif.Preflight(Gif.Encode(g)).Accepted? <==>
              && SizeFits(w, h)
              && |rects| <= 64 && Grown(w, h, rects).w <= 8192 && Grown(w, h, rects).h <= 8192
              && GrownPixels(w, h, rects) <= 16_000_000
  {
    Gif.GifIsAcceptedWithinBudget(g);
    ScreenIsRead(version, w, h, flags, more);
    FramesAreTallied(w, h, g.blocks, rects);
    GrownIsLarger(w, h, rects);
  }

  lemma {:induction false} GrownIsLarger(w: nat, h: nat, rects: seq<Rect>)
    ensures Grown(w, h, rects).w >= w && Grown(w, h, rects).h >= h
  {
    if rects != [] { GrownIsLarger(w, h, rects[..|rects| - 1]); }
  }
}
