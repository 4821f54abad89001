/** The WebP scanner, and the chunk lists it accepts: padded chunks that tile the RIFF body exactly
    (sections 2.3-2.7 of RFC 9649), with every animation frame inside the declared canvas. */
module Webp {
  import opened Images

  const RIFF: seq<byte> := [0x52, 0x49, 0x46, 0x46]
  const WEBP: seq<byte> := [0x57, 0x45, 0x42, 0x50]
  const VP8X: seq<byte> := [0x56, 0x50, 0x38, 0x58]
  const VP8: seq<byte> := [0x56, 0x50, 0x38, 0x20]
  const VP8L: seq<byte> := [0x56, 0x50, 0x38, 0x4C]
  const ANMF: seq<byte> := [0x41, 0x4E, 0x4D, 0x46]

  // ---- chunk lists -----------------------------------------------------------------------------

  /** A chunk of odd size is followed by one byte of padding. */
  datatype Chunk = Chunk(kind: seq<byte>, payload: seq<byte>, pad: seq<byte>)

  predicate ValidChunk(c: Chunk) {
    |c.kind| == 4 && |c.payload| < Power256(4) && |c.pad| == |c.payload| % 2
  }

  predicate ValidChunks(cs: seq<Chunk>) { forall i :: 0 <= i < |cs| ==> ValidChunk(cs[i]) }

  function EncodeChunk(c: Chunk): (s: seq<byte>)
    requires ValidChunk(c)
    ensures |s| == 8 + |c.payload| + |c.pad|
  {
    c.kind + ToLittle(|c.payload|, 4) + c.payload + c.pad
  }

  function EncodeChunks(cs: seq<Chunk>): (s: seq<byte>)
    requires ValidChunks(cs)
    ensures cs != [] ==> |s| >= 8
  {
    if cs == [] then [] else EncodeChunk(cs[0]) + EncodeChunks(cs[1..])
  }

  predicate Fits(cs: seq<Chunk>) { ValidChunks(cs) && 4 + |EncodeChunks(cs)| < Power256(4) }

  function Encode(cs: seq<Chunk>, tail: seq<byte>): seq<byte>
    requires Fits(cs)
  {
    RIFF + ToLittle(4 + |EncodeChunks(cs)|, 4) + WEBP + EncodeChunks(cs) + tail
  }

  // ---- what each chunk has to say ----------------------------------------------------------------

  function CanvasWidth(p: seq<byte>): nat requires |p| == 10 { 1 + Little(p[4..7]) }
  function CanvasHeight(p: seq<byte>): nat requires |p| == 10 { 1 + Little(p[7..10]) }

  /** The rectangle of an animation frame. */
  function Left(p: seq<byte>): nat requires |p| >= 16 { 2 * Little(p[0..3]) }
  function Top(p: seq<byte>): nat requires |p| >= 16 { 2 * Little(p[3..6]) }
  function FrameWidth(p: seq<byte>): nat requires |p| >= 16 { 1 + Little(p[6..9]) }
  function FrameHeight(p: seq<byte>): nat requires |p| >= 16 { 1 + Little(p[9..12]) }

  /** VP8 and VP8L give their own size in 14 bits for each side. */
  function LossySize(p: seq<byte>): Verdict {
    if |p| < 10 || p[3..6] != [0x9D, 0x01, 0x2A] then Invalid
    else
      var w, h := Little(p[6..8]) % 0x4000, Little(p[8..10]) % 0x4000;
      CheckFrameBudget(w, h, w * h, 1)
  }

  function LosslessSize(p: seq<byte>): Verdict {
    if |p| < 5 || p[0] != 0x2F then Invalid
    else
      var d := Little(p[1..5]);
      var w, h := 1 + d % 0x4000, 1 + (d / 0x4000) % 0x4000;
      CheckFrameBudget(w, h, w * h, 1)
  }

  function CheckCanvas(p: seq<byte>): Verdict {
    if |p| != 10 then Invalid
    else CheckFrameBudget(CanvasWidth(p), CanvasHeight(p), CanvasWidth(p) * CanvasHeight(p), 0)
  }

  predicate InsideCanvas(p: seq<byte>, width: nat, height: nat) {
    |p| >= 16 && Left(p) + FrameWidth(p) <= width && Top(p) + FrameHeight(p) <= height
  }

  predicate Opens(c: Chunk) {
    || (c.kind == VP8X && CheckCanvas(c.payload).Accepted?)
    || (c.kind == VP8 && LossySize(c.payload).Accepted?)
    || (c.kind == VP8L && LosslessSize(c.payload).Accepted?)
  }

  predicate Follows(c: Chunk, width: nat, height: nat) {
    && c.kind != VP8X
    && (c.kind == ANMF ==> width > 0 && InsideCanvas(c.payload, width, height))
    && (c.kind == VP8 ==> LossySize(c.payload).Accepted?)
    && (c.kind == VP8L ==> LosslessSize(c.payload).Accepted?)
  }

  function Frames(cs: seq<Chunk>): nat {
    if cs == [] then 0 else (if cs[0].kind == ANMF then 1 else 0) + Frames(cs[1..])
  }

  predicate AllFollow(cs: seq<Chunk>, width: nat, height: nat) {
    forall i :: 0 <= i < |cs| ==> Follows(cs[i], width, height)
  }

  function Width(c: Chunk): nat { if c.kind == VP8X && |c.payload| == 10 then CanvasWidth(c.payload) else 0 }
  function Height(c: Chunk): nat { if c.kind == VP8X && |c.payload| == 10 then CanvasHeight(c.payload) else 0 }

  /** The animation budget: one whole canvas for each frame. */
  predicate AnimationFits(width: nat, height: nat, frames: nat) {
    CheckFrameBudget(width, height, width * height * frames, frames).Accepted?
  }

  /** Chunks behind so many frames, all inside the canvas, and all frames together within the budget. */
  predicate FollowersFit(cs: seq<Chunk>, width: nat, height: nat, frames: nat) {
    AllFollow(cs, width, height) && (Frames(cs) > 0 ==> AnimationFits(width, height, frames + Frames(cs)))
  }

  /** An image or a canvas first, no other canvas, every frame inside it, and all within the budget. */
  predicate Proper(cs: seq<Chunk>) {
    && cs != []
    && Opens(cs[0])
    && FollowersFit(cs[1..], Width(cs[0]), Height(cs[0]), 0)
  }

  // ---- the scanner as a function of the remaining bytes of the RIFF body -------------------------

  datatype State = State(first: bool, width: nat, height: nat, frames: nat)

  datatype Next = Stop(verdict: Verdict) | Go(length: nat, state: State)

  function Stay(v: Verdict, length: nat, st: State): Next {
    if v.Accepted? then Go(length, st.(first := false)) else Stop(v)
  }

  function Admit(kind: seq<byte>, p: seq<byte>, length: nat, st: State): Next {
    if st.first && kind !in [VP8X, VP8, VP8L] then Stop(Invalid)
    else if kind == VP8X then
      if !st.first || |p| != 10 then Stop(Invalid)
      else Stay(CheckCanvas(p), length, st.(width := CanvasWidth(p), height := CanvasHeight(p)))
    else if kind == ANMF then
      if st.width == 0 || |p| < 16 then Stop(Invalid)
      else
        var budget := CheckFrameBudget(st.width, st.height, st.width * st.height * (st.frames + 1), st.frames + 1);
        if !budget.Accepted? then Stop(budget)
        else if !InsideCanvas(p, st.width, st.height) then Stop(Invalid)
        else Go(length, State(false, st.width, st.height, st.frames + 1))
    else if kind == VP8 then Stay(LossySize(p), length, st)
    else if kind == VP8L then Stay(LosslessSize(p), length, st)
    else Go(length, st.(first := false))
  }

  function NextChunk(s: seq<byte>, st: State): (n: Next)
    ensures n.Go? ==> 8 <= n.length <= |s|
  {
    if |s| < 8 then Stop(Invalid)
    else
      var size := Little(s[4..8]);
      var length := 8 + size + size % 2;
      if length > |s| then Stop(Invalid) else Admit(s[..4], s[8..8 + size], length, st)
  }

  function Scan(s: seq<byte>, st: State): Verdict
    decreases |s|
  {
    if s == [] then Accepted
    else
      match NextChunk(s, st)
      case Stop(verdict) => verdict
      case Go(length, st') => Scan(s[length..], st')
  }

  predicate HasSignature(raw: seq<byte>) { |raw| >= 12 && raw[..4] == RIFF && raw[8..12] == WEBP }

  function Preflight(raw: seq<byte>): Verdict {
    if !HasSignature(raw) then Accepted
    else
      var end := 8 + Little(raw[4..8]);
      if end < 20 || end > |raw| || end % 2 != 0 then Invalid
      else Scan(raw[12..end], State(true, 0, 0, 0))
  }

  // ---- the scanner -------------------------------------------------------------------------------

  lemma SliceOfSlice(raw: seq<byte>, a: nat, b: nat, i: nat, j: nat)
    requires a <= b <= |raw| && i <= j <= b - a
    ensures raw[a..b][i..j] == raw[a + i..a + j]
  {
    var x, y := raw[a..b][i..j], raw[a + i..a + j];
    assert |x| == |y| && forall k :: 0 <= k < |x| ==> x[k] == y[k];
  }

  lemma ScanAt(raw: seq<byte>, position: nat, end: nat, st: State)
    requires position <= end <= |raw|
    ensures var n := NextChunk(raw[position..end], st);
            Scan(raw[position..end], st) == if position == end then Accepted else if n.Stop? then n.verdict
                                            else Scan(raw[position + n.length..end], n.state)
  {
    var s := raw[position..end];
    var n := NextChunk(s, st);
    if n.Go? { SliceOfSlice(raw, position, end, n.length, end - position); }
  }

  /** One round of the loop of _preflight_webp. */
  method ReadChunk(raw: seq<byte>, position: nat, riffEnd: nat, st: State) returns (next: Next)
    requires position <= riffEnd <= |raw|
    ensures next == NextChunk(raw[position..riffEnd], st)
  {
    if position + 8 > riffEnd { return Stop(Invalid); }
    var kind, size := raw[position..position + 4], Little(raw[position + 4..position + 8]);
    SliceOfSlice(raw, position, riffEnd, 0, 4);
    SliceOfSlice(raw, position, riffEnd, 4, 8);
    var start := position + 8;
    var end := start + size;
    var paddedEnd := end + size % 2;
    if paddedEnd > riffEnd { return Stop(Invalid); }
    var payload := raw[start..end];
    SliceOfSlice(raw, position, riffEnd, 8, 8 + size);
    next := ReadPayload(kind, payload, paddedEnd - position, st);
  }

  method ReadPayload(kind: seq<byte>, p: seq<byte>, length: nat, st: State) returns (next: Next)
    ensures next == Admit(kind, p, length, st)
    ensures st == State(true, 0, 0, 0) ==> (next.Go? <==> Opens(Chunk(kind, p, [])))
    ensures !st.first ==> (next.Go? <==> Follows(Chunk(kind, p, []), st.width, st.height)
                                         && (kind == ANMF ==> AnimationFits(st.width, st.height, st.frames + 1)))
  {
    AdmitsOpener(Chunk(kind, p, []), length);
    AdmitsFollower(Chunk(kind, p, []), length, st.width, st.height, st.frames);
    if st.first && kind !in [VP8X, VP8, VP8L] { return Stop(Invalid); }
    var st' := st.(first := false);
    if kind == VP8X {
      if !st.first || |p| != 10 { return Stop(Invalid); }
      st' := st'.(width := 1 + Little(p[4..7]), height := 1 + Little(p[7..10]));
      var budget := CheckFrameBudget(st'.width, st'.height, st'.width * st'.height, 0);
      if !budget.Accepted? { return Stop(budget); }
    } else if kind == ANMF {
      if st.width == 0 || |p| < 16 { return Stop(Invalid); }
      st' := st'.(frames := st.frames + 1);
      var budget := CheckFrameBudget(st.width, st.height, st.width * st.height * st'.frames, st'.frames);
      if !budget.Accepted? { return Stop(budget); }
      if Left(p) + FrameWidth(p) > st.width || Top(p) + FrameHeight(p) > st.height { return Stop(Invalid); }
    } else if kind == VP8 {
      var v := LossySize(p);
      if !v.Accepted? { return Stop(v); }
    } else if kind == VP8L {
      var v := LosslessSize(p);
      if !v.Accepted? { return Stop(v); }
    }
    return Go(length, st');
  }

  /** The loop of _preflight_webp over the RIFF body. */
  method ScanBody(raw: seq<byte>, riffEnd: nat) returns (verdict: Verdict)
    requires 12 <= riffEnd <= |raw|
    ensures verdict == Scan(raw[12..riffEnd], State(true, 0, 0, 0))
  {
    var position, st := 12, State(true, 0, 0, 0);
    ghost var result := Scan(raw[12..riffEnd], st);
    while position < riffEnd
      invariant 12 <= position <= riffEnd
      invariant Scan(raw[position..riffEnd], st) == result
    {
      ScanAt(raw, position, riffEnd, st);
      var next := ReadChunk(raw, position, riffEnd, st);
      if next.Stop? { return next.verdict; }
      position, st := position + next.length, next.state;
    }
    return Accepted;
  }

  /** _preflight_webp */
  method PreflightWebp(raw: seq<byte>) returns (verdict: Verdict)
    ensures verdict == Preflight(raw)
    ensures verdict.Accepted? <==>
            !HasSignature(raw) || exists cs, tail :: Fits(cs) && Proper(cs) && raw == Encode(cs, tail)
  {
    AcceptsTheChunkLists(raw);
    if !HasSignature(raw) { return Accepted; }
    var riffEnd := 8 + Little(raw[4..8]);
    if riffEnd < 20 || riffEnd > |raw| || riffEnd % 2 != 0 { return Invalid; }
    verdict := ScanBody(raw, riffEnd);
  }

  // ---- encoding and scanning -----------------------------------------------------------------------

  lemma ReadsChunk(c: Chunk, rest: seq<byte>, st: State)
    requires ValidChunk(c)
    ensures NextChunk(EncodeChunk(c) + rest, st) == Admit(c.kind, c.payload, |EncodeChunk(c)|, st)
    ensures (EncodeChunk(c) + rest)[|EncodeChunk(c)|..] == rest
  {
    var s := EncodeChunk(c) + rest;
    LittleOfToLittle(|c.payload|, 4);
    assert s[..4] == c.kind && s[4..8] == ToLittle(|c.payload|, 4);
    assert s[8..8 + |c.payload|] == c.payload;
  }

  lemma ScansChunk(c: Chunk, rest: seq<byte>, st: State)
    requires ValidChunk(c)
    ensures var n := Admit(c.kind, c.payload, |EncodeChunk(c)|, st);
            Scan(EncodeChunk(c) + rest, st) == if n.Stop? then n.verdict else Scan(rest, n.state)
  {
    ReadsChunk(c, rest, st);
  }

  lemma AreaGrows(a: nat, m: nat, n: nat)
    requires m <= n
    ensures a * m <= a * n
  {
  }

  lemma BudgetShrinks(width: nat, height: nat, m: nat, n: nat)
    requires m <= n && AnimationFits(width, height, n)
    ensures AnimationFits(width, height, m)
  {
    AreaGrows(width * height, m, n);
  }

  function AddFrame(c: Chunk, frames: nat): nat { if c.kind == ANMF then frames + 1 else frames }

  /** What the scanner asks of a chunk that is not the first. */
  lemma AdmitsFollower(c: Chunk, length: nat, w: nat, h: nat, frames: nat)
    ensures var n := Admit(c.kind, c.payload, length, State(false, w, h, frames));
            if Follows(c, w, h) && (c.kind == ANMF ==> AnimationFits(w, h, frames + 1))
            then n == Go(length, State(false, w, h, AddFrame(c, frames)))
            else n.Stop? && !n.verdict.Accepted?
  {
  }

  /** And of the first. */
  lemma AdmitsOpener(c: Chunk, length: nat)
    ensures var n := Admit(c.kind, c.payload, length, State(true, 0, 0, 0));
            if Opens(c) then n == Go(length, State(false, Width(c), Height(c), 0))
            else n.Stop? && !n.verdict.Accepted?
  {
  }

  lemma FollowersSplit(cs: seq<Chunk>, w: nat, h: nat)
    requires cs != []
    ensures AllFollow(cs, w, h) <==> Follows(cs[0], w, h) && AllFollow(cs[1..], w, h)
  {
    assert cs == [cs[0]] + cs[1..];
  }

  /** One check of all frames at the end is as good as one for each frame. */
  lemma FollowersFitOneByOne(cs: seq<Chunk>, w: nat, h: nat, frames: nat)
    requires cs != []
    ensures FollowersFit(cs, w, h, frames) <==>
            Follows(cs[0], w, h) && (cs[0].kind == ANMF ==> AnimationFits(w, h, frames + 1)) &&
            FollowersFit(cs[1..], w, h, AddFrame(cs[0], frames))
  {
    FollowersSplit(cs, w, h);
    if cs[0].kind == ANMF && AnimationFits(w, h, frames + Frames(cs)) {
      BudgetShrinks(w, h, frames + 1, frames + Frames(cs));
    }
  }

  lemma {:induction false} ScansFollowers(cs: seq<Chunk>, w: nat, h: nat, frames: nat)
    requires ValidChunks(cs)
    ensures Scan(EncodeChunks(cs), State(false, w, h, frames)).Accepted? <==> FollowersFit(cs, w, h, frames)
    decreases |cs|
  {
    if cs != [] {
      ScansChunk(cs[0], EncodeChunks(cs[1..]), State(false, w, h, frames));
      AdmitsFollower(cs[0], |EncodeChunk(cs[0])|, w, h, frames);
      ScansFollowers(cs[1..], w, h, AddFrame(cs[0], frames));
      FollowersFitOneByOne(cs, w, h, frames);
    }
  }

  /** A chunk list is accepted exactly when it is proper. */
  lemma ScansProper(cs: seq<Chunk>)
    requires ValidChunks(cs) && cs != []
    ensures Scan(EncodeChunks(cs), State(true, 0, 0, 0)).Accepted? <==> Proper(cs)
  {
    ScansChunk(cs[0], EncodeChunks(cs[1..]), State(true, 0, 0, 0));
    AdmitsOpener(cs[0], |EncodeChunk(cs[0])|);
    ScansFollowers(cs[1..], Width(cs[0]), Height(cs[0]), 0);
  }

  /** Whatever the scanner goes over is one chunk. */
  lemma FirstChunk(s: seq<byte>, st: State) returns (c: Chunk)
    requires NextChunk(s, st).Go?
    ensures ValidChunk(c) && s[..NextChunk(s, st).length] == EncodeChunk(c)
  {
    var size := Little(s[4..8]);
    LittleBound(s[4..8]);
    ToLittleOfLittle(s[4..8]);
    c := Chunk(s[..4], s[8..8 + size], s[8 + size..8 + size + size % 2]);
    assert s[..8 + size + size % 2] == s[..4] + s[4..8] + c.payload + c.pad;
  }

  lemma {:induction false} AcceptedIsChunks(s: seq<byte>, st: State) returns (cs: seq<Chunk>)
    requires Scan(s, st).Accepted?
    ensures ValidChunks(cs) && s == EncodeChunks(cs)
    decreases |s|
  {
    if s == [] {
      cs := [];
    } else {
      var n := NextChunk(s, st);
      var c := FirstChunk(s, st);
      var rest := AcceptedIsChunks(s[n.length..], n.state);
      cs := [c] + rest;
      assert cs[1..] == rest;
      assert s == s[..n.length] + s[n.length..];
    }
  }

  lemma Padded(n: nat) returns (half: nat)
    ensures n + n % 2 == 2 * half
  {
    half := (n + 1) / 2;
  }

  lemma Doubled(half: nat)
    ensures (12 + 2 * half) % 2 == 0
  {
  }

  lemma {:induction false} PaddingMakesEven(cs: seq<Chunk>) returns (half: nat)
    requires ValidChunks(cs)
    ensures |EncodeChunks(cs)| == 2 * half
  {
    if cs == [] {
      half := 0;
    } else {
      var payload := Padded(|cs[0].payload|);
      var rest := PaddingMakesEven(cs[1..]);
      half := 4 + payload + rest;
    }
  }

  /** The file layout: two tags and a size of four bytes each, the body and the tail. */
  lemma Layout(riff: seq<byte>, size: seq<byte>, webp: seq<byte>, body: seq<byte>, tail: seq<byte>, end: nat)
    requires |riff| == |size| == |webp| == 4 && end == 12 + |body|
    ensures var raw := riff + size + webp + body + tail;
            |raw| >= end && raw[..4] == riff && raw[4..8] == size && raw[8..12] == webp && raw[12..end] == body
  {
  }

  lemma Relayout(raw: seq<byte>, end: nat)
    requires 12 <= end <= |raw|
    ensures raw == raw[..4] + raw[4..8] + raw[8..12] + raw[12..end] + raw[end..]
  {
  }

  lemma EncodedBody(cs: seq<Chunk>, tail: seq<byte>)
    requires Fits(cs)
    ensures var raw, end := Encode(cs, tail), 12 + |EncodeChunks(cs)|;
            HasSignature(raw) && 8 + Little(raw[4..8]) == end <= |raw| && end % 2 == 0
              && raw[12..end] == EncodeChunks(cs)
  {
    var body := EncodeChunks(cs);
    LittleOfToLittle(4 + |body|, 4);
    var half := PaddingMakesEven(cs);
    Doubled(half);
    Layout(RIFF, ToLittle(4 + |body|, 4), WEBP, body, tail, 12 + |body|);
  }

  lemma PreflightOfBody(raw: seq<byte>, body: seq<byte>, end: nat)
    requires HasSignature(raw) && 8 + Little(raw[4..8]) == end <= |raw| && end % 2 == 0
    requires end == 12 + |body| && raw[12..end] == body
    ensures Preflight(raw) == if |body| < 8 then Invalid else Scan(body, State(true, 0, 0, 0))
  {
  }

  /** Any encoded chunk list is accepted exactly when it is proper. */
  lemma EncodedIsAcceptedWhenProper(cs: seq<Chunk>, tail: seq<byte>)
    requires Fits(cs)
    ensures HasSignature(Encode(cs, tail))
    ensures Preflight(Encode(cs, tail)).Accepted? <==> Proper(cs)
  {
    EncodedBody(cs, tail);
    PreflightOfBody(Encode(cs, tail), EncodeChunks(cs), 12 + |EncodeChunks(cs)|);
    if cs != [] { ScansProper(cs); }
  }

  lemma AcceptedIsEncoded(raw: seq<byte>) returns (cs: seq<Chunk>, tail: seq<byte>)
    requires HasSignature(raw) && Preflight(raw).Accepted?
    ensures Fits(cs) && raw == Encode(cs, tail)
  {
    var end := 8 + Little(raw[4..8]);
    LittleBound(raw[4..8]);
    ToLittleOfLittle(raw[4..8]);
    cs := AcceptedIsChunks(raw[12..end], State(true, 0, 0, 0));
    tail := raw[end..];
    Relayout(raw, end);
  }

  lemma AcceptsTheChunkLists(raw: seq<byte>)
    ensures Preflight(raw).Accepted? <==>
            !HasSignature(raw) || exists cs, tail :: Fits(cs) && Proper(cs) && raw == Encode(cs, tail)
  {
    if HasSignature(raw) && Preflight(raw).Accepted? {
      var cs, tail := AcceptedIsEncoded(raw);
      EncodedIsAcceptedWhenProper(cs, tail);
    }
    forall cs, tail | Fits(cs) && Proper(cs) && raw == Encode(cs, tail) ensures Preflight(raw).Accepted? {
      EncodedIsAcceptedWhenProper(cs, tail);
    }
  }

  // ---- what the budget is for ----------------------------------------------------------------------

  function FramePixels(cs: seq<Chunk>): nat {
    if cs == [] then 0
    else
      (if cs[0].kind == ANMF && |cs[0].payload| >= 16
       then FrameWidth(cs[0].payload) * FrameHeight(cs[0].payload) else 0)
      + FramePixels(cs[1..])
  }

  lemma RectangleInCanvas(c: Chunk, w: nat, h: nat)
    requires c.kind == ANMF && Follows(c, w, h)
    ensures FrameWidth(c.payload) * FrameHeight(c.payload) <= w * h
  {
    AreaGrows(FrameWidth(c.payload), FrameHeight(c.payload), h);
    AreaGrows(h, FrameWidth(c.payload), w);
  }

  lemma {:induction false} FramesFillCanvases(cs: seq<Chunk>, w: nat, h: nat, area: nat)
    requires AllFollow(cs, w, h) && area == w * h
    ensures FramePixels(cs) <= area * Frames(cs)
    decreases |cs|
  {
    if cs != [] {
      FollowersSplit(cs, w, h);
      FramesFillCanvases(cs[1..], w, h, area);
      if cs[0].kind == ANMF { RectangleInCanvas(cs[0], w, h); }
      OneMore(area, Frames(cs[1..]));
    }
  }

  lemma OneMore(area: nat, n: nat)
    ensures area * (1 + n) == area + area * n
  {
  }

  /** An accepted animation has at most 64 frames, and its frames together hold at most 16,000,000 pixels. */
  lemma AcceptedIsBounded(cs: seq<Chunk>, tail: seq<byte>)
    requires Fits(cs) && Preflight(Encode(cs, tail)).Accepted?
    ensures cs != [] && Frames(cs[1..]) <= 64 && FramePixels(cs[1..]) <= 16_000_000
  {
    EncodedIsAcceptedWhenProper(cs, tail);
    FramesFillCanvases(cs[1..], Width(cs[0]), Height(cs[0]), Width(cs[0]) * Height(cs[0]));
  }
}
