/** What the two header scanners share: bytes, little-endian numbers, verdicts and the frame budget. */
module Images {
  type byte = x: int | 0 <= x < 256

  const MAX_IMAGE_DIMENSION := 8192
  const MAX_IMAGE_PIXELS := 16_000_000
  const MAX_IMAGE_FRAMES := 64

  /** Accepted means that the scanner returns; the others are the codes of the error it raises. */
  datatype Verdict = Accepted | Invalid | FramesExceeded | DimensionsExceeded

  function Power256(k: nat): nat { if k == 0 then 1 else 256 * Power256(k - 1) }

  function Little(s: seq<byte>): nat { if s == [] then 0 else s[0] + 256 * Little(s[1..]) }

  function ToLittle(n: nat, k: nat): (s: seq<byte>)
    ensures |s| == k
  {
    if k == 0 then [] else [n % 256] + ToLittle(n / 256, k - 1)
  }

  lemma {:induction false} LittleBound(s: seq<byte>)
    ensures Little(s) < Power256(|s|)
  {
    if s != [] { LittleBound(s[1..]); }
  }

  lemma {:induction false} LittleOfToLittle(n: nat, k: nat)
    requires n < Power256(k)
    ensures Little(ToLittle(n, k)) == n
  {
    if k > 0 {
      LittleOfToLittle(n / 256, k - 1);
      assert ToLittle(n, k)[1..] == ToLittle(n / 256, k - 1);
    }
  }

  lemma {:induction false} ToLittleOfLittle(s: seq<byte>)
    ensures ToLittle(Little(s), |s|) == s
  {
    if s != [] {
      ToLittleOfLittle(s[1..]);
      assert Little(s) / 256 == Little(s[1..]) && Little(s) % 256 == s[0];
      assert [s[0]] + s[1..] == s;
    }
  }

  /** _check_frame_budget */
  function CheckFrameBudget(width: nat, height: nat, totalPixels: nat, frameCount: nat): Verdict {
    if frameCount > MAX_IMAGE_FRAMES then FramesExceeded
    else if width < 1 || height < 1 || width > MAX_IMAGE_DIMENSION || height > MAX_IMAGE_DIMENSION
            || totalPixels > MAX_IMAGE_PIXELS then DimensionsExceeded
    else Accepted
  }

  function Power2(k: nat): nat { if k == 0 then 1 else 2 * Power2(k - 1) }

  /** The bytes of a colour table: 3 * (1 << ((flags & 7) + 1)) when the top bit of the flags is set. */
  function TableSize(flags: byte): nat { if flags >= 128 then 3 * Power2(flags % 8 + 1) else 0 }
}
