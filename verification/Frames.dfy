/** WebSocket frames on the wire, laid out as in section 5.2 of RFC 6455 and masked as in section 5.3.
    This is the reference the frame filter is proved against: nothing here parses a stream. */
module Frames {

  type Byte = b: nat | b < 256
  type Bytes = seq<Byte>

  /** A frame whose payload is longer than this is never inspected. */
  const MAX_CLIP: nat := 0x100_0000
  /** The largest image the browser side sends; it stays under MAX_CLIP with its tag. */
  const MAX_IMAGE: nat := 0xF0_0000
  const CLIP_TAG: Byte := 0x4b

  /** The seven length bits of a frame's second byte. */
  function Low7(b: Byte): nat {
    b % 128
  }

  predicate MaskBit(b: Byte) {
    b >= 128
  }

  /** FIN is set and the opcode is 2; the three reserved bits between them are not looked at. */
  predicate FinBinary(b: Byte) {
    b >= 128 && b % 16 == 2
  }

  /** Exclusive or of the low `width` bits. */
  function XorBits(a: nat, b: nat, width: nat): (r: nat)
    ensures r < Pow2(width)
  {
    if width == 0 then 0
    else 2 * XorBits(a / 2, b / 2, width - 1) + if a % 2 == b % 2 then 0 else 1
  }

  function Pow2(k: nat): nat {
    if k == 0 then 1 else 2 * Pow2(k - 1)
  }

  function Xor(a: Byte, b: Byte): Byte {
    EightBits();
    XorBits(a, b, 8)
  }

  lemma EightBits()
    ensures Pow2(8) == 256
  {
    assert Pow2(4) == 16;
  }

  lemma {:induction false} XorBitsTwice(a: nat, b: nat, width: nat)
    requires a < Pow2(width)
    ensures XorBits(XorBits(a, b, width), b, width) == a
  {
    if width > 0 {
      XorBitsTwice(a / 2, b / 2, width - 1);
      var x := XorBits(a, b, width);
      assert x / 2 == XorBits(a / 2, b / 2, width - 1);
    }
  }

  /** Bit `k` of a byte, the least significant first. */
  predicate Bit(x: nat, k: nat) {
    if k == 0 then x % 2 == 1 else Bit(x / 2, k - 1)
  }

  /** Exclusive or, bit by bit. */
  lemma {:induction false} XorBit(a: nat, b: nat, width: nat, k: nat)
    requires k < width
    ensures Bit(XorBits(a, b, width), k) <==> Bit(a, k) != Bit(b, k)
  {
    var x := XorBits(a, b, width);
    assert x / 2 == XorBits(a / 2, b / 2, width - 1);
    if k > 0 {
      XorBit(a / 2, b / 2, width - 1, k - 1);
    }
  }

  /** Network byte order. */
  function BigEndian(s: Bytes): nat {
    if s == [] then 0 else BigEndian(s[..|s| - 1]) * 256 + s[|s| - 1]
  }

  function ToBigEndian(n: nat, width: nat): (s: Bytes)
    ensures |s| == width
  {
    if width == 0 then [] else ToBigEndian(n / 256, width - 1) + [n % 256]
  }

  function Pow256(k: nat): nat {
    if k == 0 then 1 else 256 * Pow256(k - 1)
  }

  lemma {:induction false} BigEndianRoundTrip(n: nat, width: nat)
    requires n < Pow256(width)
    ensures BigEndian(ToBigEndian(n, width)) == n
  {
    if width > 0 {
      BigEndianRoundTrip(n / 256, width - 1);
      var s := ToBigEndian(n, width);
      assert s[..width - 1] == ToBigEndian(n / 256, width - 1);
    }
  }

  /** The most significant byte comes first. */
  lemma {:induction false} MostSignificantFirst(s: Bytes)
    requires s != []
    ensures BigEndian(s) == s[0] * Pow256(|s| - 1) + BigEndian(s[1..])
  {
    var i := |s| - 1;
    if i > 0 {
      MostSignificantFirst(s[..i]);
      assert s[1..][..i - 1] == s[..i][1..];
      assert s[1..][i - 1] == s[i];
      assert (s[0] * Pow256(i - 1)) * 256 == s[0] * Pow256(i);
    } else {
      assert s[..0] == [] && BigEndian(s[..0]) == 0;
    }
  }

  /** Masking is a byte-wise exclusive or with the key repeated; without a key it is the identity. */
  function Mask(key: Bytes, payload: Bytes): (r: Bytes)
    ensures |r| == |payload| && (key == [] ==> r == payload)
  {
    if |key| != 4 then payload else seq(|payload|, i requires 0 <= i < |payload| => Xor(payload[i], key[i % 4]))
  }

  lemma MaskTwice(key: Bytes, payload: Bytes)
    ensures Mask(key, Mask(key, payload)) == payload
  {
    if |key| == 4 {
      forall i | 0 <= i < |payload| ensures Mask(key, Mask(key, payload))[i] == payload[i] {
        EightBits();
        XorBitsTwice(payload[i], key[i % 4], 8);
      }
    }
  }

  /** Section 5.3: bit by bit, octet `i` is flipped where octet `i` modulo 4 of the key is set. */
  lemma MaskFlips(key: Bytes, payload: Bytes, i: nat, k: nat)
    requires |key| == 4 && i < |payload| && k < 8
    ensures Bit(Mask(key, payload)[i], k) <==> Bit(payload[i], k) != Bit(key[i % 4], k)
  {
    EightBits();
    XorBit(payload[i], key[i % 4], 8, k);
  }

  /** A frame as RFC 6455 names its parts; `payload` is the application data, before masking. */
  datatype Frame = Frame(first: Byte, second: Byte, extended: Bytes, key: Bytes, payload: Bytes)

  /** The parts agree with each other and the payload is short enough to be inspected. A length need
      not use its shortest form: the reader accepts any. */
  predicate WellFormed(f: Frame) {
    && |f.payload| <= MAX_CLIP
    && |f.extended| == ExtendedWidth(f.second)
    && |f.payload| == AnnouncedLength(f.second, f.extended)
    && |f.key| == (if MaskBit(f.second) then 4 else 0)
  }

  function ExtendedWidth(second: Byte): nat {
    if Low7(second) == 126 then 2 else if Low7(second) == 127 then 8 else 0
  }

  function AnnouncedLength(second: Byte, extended: Bytes): nat {
    if extended == [] then Low7(second) else BigEndian(extended)
  }

  function Header(f: Frame): Bytes {
    [f.first, f.second] + f.extended + f.key
  }

  function Wire(f: Frame): Bytes {
    Header(f) + Mask(f.key, f.payload)
  }

  predicate WellFormedAll(frames: seq<Frame>) {
    forall f :: f in frames ==> WellFormed(f)
  }

  function WireAll(frames: seq<Frame>): Bytes {
    if frames == [] then [] else Wire(frames[0]) + WireAll(frames[1..])
  }

  /** The bytes begin with a header that announces more than MAX_CLIP bytes. Only the 64-bit length
      form can. */
  predicate Oversized(s: Bytes) {
    |s| >= 10 && Low7(s[1]) == 127 && BigEndian(s[2..10]) > MAX_CLIP
  }

  /** No frame is complete in `s`, and none it could begin is too long to inspect. */
  ghost predicate Incomplete(s: Bytes) {
    !Oversized(s) && forall f :: WellFormed(f) ==> !(Wire(f) <= s)
  }

  /** A whole binary message (FIN and opcode 2, the reserved bits ignored) that starts with the tag. */
  predicate IsClip(f: Frame) {
    FinBinary(f.first) && |f.payload| > 0 && f.payload[0] == CLIP_TAG
  }

  /** What a browser sends for one binary message: FIN, opcode 2, masked, the shortest length form. */
  function ClientBinary(key: Bytes, payload: Bytes): Frame
    requires |key| == 4 && |payload| <= MAX_CLIP
  {
    if |payload| < 126 then Frame(0x82, 128 + |payload|, [], key, payload)
    else if |payload| < 65536 then Frame(0x82, 0xfe, ToBigEndian(|payload|, 2), key, payload)
    else Frame(0x82, 0xff, ToBigEndian(|payload|, 8), key, payload)
  }

  lemma ClientBinaryWellFormed(key: Bytes, payload: Bytes)
    requires |key| == 4 && |payload| <= MAX_CLIP
    ensures WellFormed(ClientBinary(key, payload))
  {
    var n := |payload|;
    if n < 126 {
    } else if n < 65536 {
      assert Pow256(2) == 65536;
      BigEndianRoundTrip(n, 2);
    } else {
      assert Pow256(4) == 0x1_0000_0000;
      assert Pow256(8) >= Pow256(4);
      BigEndianRoundTrip(n, 8);
    }
  }
}
