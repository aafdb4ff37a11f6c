/** One frame's time on its way through PESPacket, PackHeader::setSCR, the pack header
    and the SCR decode of RTP/Payload/RtpPayloadPS.cpp. */
module Timestamps {
  import opened Bytes
  import opened Bits
  import opened Headers

  const WORD64: nat := 0x1_0000_0000_0000_0000

  /** The PESPacket constructor's PTS, and setSCR's base, in 90 kHz units. */
  function Base(ms: nat): (t: nat)
    ensures t < TIME
  {
    27000 * ms % WORD64 / 300 % TIME
  }

  /** setSCR's extension. */
  function Extension(ms: nat): nat {
    27000 * ms % WORD64 % 300
  }

  /** getPresentation: milliseconds again. */
  function Presentation(pts: nat): nat {
    pts * 300 % WORD64 / 27000
  }

  /** An int shifted left into its sign bit and widened to 64 bits. */
  function Widen(v: nat): nat {
    var low := v % 0x1_0000_0000;
    if low < 0x8000_0000 then low else WORD64 - 0x1_0000_0000 + low
  }

  /** The number RtpPayloadPS collects from bytes 4 to 8 of a pack header. */
  function DecodeBase(d: seq<Byte>): nat
    requires |d| > 8
  {
    var bit3 := d[4] as nat / 8 % 8;
    var high := Or(Or(d[4] as nat % 4 * 0x2000, d[5] as nat * 0x20), d[6] as nat / 8);
    var low := Or(Or(d[6] as nat % 4 * 0x2000, d[7] as nat * 0x20), d[8] as nat / 8);
    Or(Or(Widen(bit3 * 0x4000_0000), high * 0x8000), low)
  }

  function DecodeMs(d: seq<Byte>): nat
    requires |d| > 8
  {
    Presentation(DecodeBase(d))
  }

  /** What the decode makes of a 33-bit base. */
  function Seen(base: nat): nat {
    Widen(base / 0x4000_0000 % 8 * 0x4000_0000) + base % 0x4000_0000
  }

  // ----- the bytes of the header hold the fields -----

  lemma {:induction false} OrApart(x: nat, y: nat, k: nat)
    requires y < Pow2(k)
    ensures Or(x * Pow2(k), y) == x * Pow2(k) + y
    decreases k
  {
    if k == 0 {
      OrNone(x);
    } else {
      Double(x, Pow2(k - 1));
      OrApart(x, y / 2, k - 1);
    }
  }

  lemma {:induction false} OrNone(x: nat)
    ensures Or(x, 0) == x
  {
    if x > 0 { OrNone(x / 2); }
  }

  lemma {:induction false} BigEndianOfValue(b: seq<Byte>)
    ensures BigEndian(|b|, Value(b)) == b
  {
    if b != [] {
      var front, last := b[..|b| - 1], b[|b| - 1];
      BigEndianOfValue(front);
      DivMod(Value(front), 256, last);
      assert front + [last] == b;
    }
  }

  /** Bytes 4 to 9 of a pack header, field by field. */
  lemma TimeBytes(a: nat, b: nat, c: nat, e: nat)
    requires a < 8 && b < 0x8000 && c < 0x8000 && e < 512
    ensures BigEndian(6, ((((((8 + a) * 2 + 1) * 0x8000 + b) * 2 + 1) * 0x8000 + c) * 2 + 1) * 1024 + e * 2 + 1)
         == [68 + a * 8 + b / 0x2000, b / 32 % 256, b % 32 * 8 + 4 + c / 0x2000,
             c / 32 % 256, c % 32 * 8 + 4 + e / 128, e % 128 * 2 + 1]
  {
    var s: seq<Byte> := [68 + a * 8 + b / 0x2000, b / 32 % 256, b % 32 * 8 + 4 + c / 0x2000,
                         c / 32 % 256, c % 32 * 8 + 4 + e / 128, e % 128 * 2 + 1];
    Fifteen(b);
    Fifteen(c);
    SixBytes(s);
    BigEndianOfValue(s);
  }

  lemma Fifteen(b: nat)
    requires b < 0x8000
    ensures b == b / 0x2000 * 0x2000 + b / 32 % 256 * 32 + b % 32
  {
    assert b / 32 == b / 0x2000 * 256 + b / 32 % 256;
  }

  lemma SixBytes(s: seq<Byte>)
    requires |s| == 6
    ensures Value(s) == ((((s[0] as nat * 256 + s[1] as nat) * 256 + s[2] as nat) * 256 + s[3] as nat) * 256 + s[4] as nat) * 256 + s[5] as nat
  {
    assert s[..5][..4] == s[..4] && s[..4][..3] == s[..3] && s[..3][..2] == s[..2] && s[..2][..1] == s[..1];
    assert Value(s[..1]) == Value([]) * 256 + s[0] as nat by { assert s[..1][..0] == []; }
    assert Value(s[..2]) == Value(s[..1]) * 256 + s[1] as nat;
    assert Value(s[..3]) == Value(s[..2]) * 256 + s[2] as nat;
    assert Value(s[..4]) == Value(s[..3]) * 256 + s[3] as nat;
    assert Value(s[..5]) == Value(s[..4]) * 256 + s[4] as nat;
  }

  lemma TimeField(h: PackHead)
    requires PackOk(h)
    ensures var b, c := h.scr / 0x8000 % 0x8000, h.scr % 0x8000;
            && PackHeaderBytes(h)[4] == 68 + h.scr / 0x4000_0000 % 8 * 8 + b / 0x2000
            && PackHeaderBytes(h)[5] == b / 32 % 256
            && PackHeaderBytes(h)[6] == b % 32 * 8 + 4 + c / 0x2000
            && PackHeaderBytes(h)[7] == c / 32 % 256
            && PackHeaderBytes(h)[8] == c % 32 * 8 + 4 + h.ext / 128
  {
    hide BigEndian;
    TimeBytes(h.scr / 0x4000_0000 % 8, h.scr / 0x8000 % 0x8000, h.scr % 0x8000, h.ext);
  }

  /** Fifteen bits spread over three bytes, the first two bits in `x`, five in `z`. */
  lemma Gather(x: nat, y: Byte, z: nat)
    requires x < 4 && z < 32
    ensures Or(Or(x * 0x2000, y as nat * 0x20), z) == x * 0x2000 + y as nat * 0x20 + z
  {
    Pow2Fives();
    OrApart(x, y as nat * 0x20, 13);
    OrApart(x * 256 + y as nat, z, 5);
  }

  lemma Pow2Fives()
    ensures Pow2(5) == 32 && Pow2(13) == 0x2000 && Pow2(15) == 0x8000 && Pow2(30) == 0x4000_0000
  {
    Pow2Values();
    assert Pow2(4) == 16;
    Pow2Sum(4, 1);
    Pow2Sum(5, 8);
    Pow2Sum(13, 2);
    assert Pow2(2) == 4;
    Pow2Sum(15, 15);
  }

  lemma FieldsBack(a: nat, b: nat, c: nat, e: nat)
    requires a < 8 && b < 0x8000 && c < 0x8000 && e < 512
    ensures (68 + a * 8 + b / 0x2000) / 8 % 8 == a && (68 + a * 8 + b / 0x2000) % 4 == b / 0x2000
    ensures (b % 32 * 8 + 4 + c / 0x2000) / 8 == b % 32 && (b % 32 * 8 + 4 + c / 0x2000) % 4 == c / 0x2000
    ensures (c % 32 * 8 + 4 + e / 128) / 8 == c % 32
  {}

  /** The decode reads back the three parts of the base and widens the highest. */
  lemma HeaderDecodes(h: PackHead, rest: seq<Byte>)
    requires PackOk(h)
    ensures DecodeBase(PackHeaderBytes(h) + rest) == Seen(h.scr)
  {
    var a, b, c := h.scr / 0x4000_0000 % 8, h.scr / 0x8000 % 0x8000, h.scr % 0x8000;
    LowParts(h.scr);
    TimeField(h);
    hide PackHeaderBytes, DecodeBase, Widen;
    var s, d := PackHeaderBytes(h), PackHeaderBytes(h) + rest;
    assert d[4] == s[4] && d[5] == s[5] && d[6] == s[6] && d[7] == s[7] && d[8] == s[8];
    FieldsOf(d, a, b, c, h.ext);
  }

  lemma LowParts(scr: nat)
    ensures scr % 0x4000_0000 == scr / 0x8000 % 0x8000 * 0x8000 + scr % 0x8000
  {}

  lemma FieldsOf(d: seq<Byte>, a: nat, b: nat, c: nat, e: nat)
    requires |d| > 8 && a < 8 && b < 0x8000 && c < 0x8000 && e < 512
    requires d[4] == 68 + a * 8 + b / 0x2000 && d[5] == b / 32 % 256 && d[6] == b % 32 * 8 + 4 + c / 0x2000
    requires d[7] == c / 32 % 256 && d[8] == c % 32 * 8 + 4 + e / 128
    ensures DecodeBase(d) == Widen(a * 0x4000_0000) + b * 0x8000 + c
  {
    hide DecodeBase, Widen;
    FieldsBack(a, b, c, e);
    Fields(d, a, b, c);
  }

  lemma Fields(d: seq<Byte>, a: nat, b: nat, c: nat)
    requires |d| > 8 && a < 8 && b < 0x8000 && c < 0x8000
    requires d[4] as nat / 8 % 8 == a && d[4] as nat % 4 == b / 0x2000
    requires d[5] == b / 32 % 256 && d[6] as nat / 8 == b % 32 && d[6] as nat % 4 == c / 0x2000
    requires d[7] == c / 32 % 256 && d[8] as nat / 8 == c % 32
    ensures DecodeBase(d) == Widen(a * 0x4000_0000) + b * 0x8000 + c
  {
    hide Or, Widen;
    Fifteen(b);
    Fifteen(c);
    Gather(b / 0x2000, d[5], b % 32);
    Gather(c / 0x2000, d[7], c % 32);
    Collected(a, b, c);
  }

  lemma Widened(a: nat)
    requires a < 8
    ensures Widen(a * 0x4000_0000) % 0x4000_0000 == 0
  {}

  lemma Collected(a: nat, b: nat, c: nat)
    requires a < 8 && b < 0x8000 && c < 0x8000
    ensures Or(Or(Widen(a * 0x4000_0000), b * 0x8000), c) == Widen(a * 0x4000_0000) + b * 0x8000 + c
  {
    Pow2Fives();
    Widened(a);
    hide Or, Widen, Pow2;
    var x := Widen(a * 0x4000_0000) / 0x4000_0000;
    OrParts(x, b * 0x8000, 30, 0x4000_0000);
    OrParts(x * 0x8000 + b, c, 15, 0x8000);
  }

  lemma OrParts(x: nat, y: nat, k: nat, m: nat)
    requires m == Pow2(k) && y < m
    ensures Or(x * m, y) == x * m + y
  {
    OrApart(x, y, k);
  }

  // ----- the round trip -----

  lemma BaseIs(ms: nat)
    requires 27000 * ms < WORD64
    ensures Base(ms) == 90 * ms % TIME && Extension(ms) == 0
  {}

  /** Through getPresentation and setSCR a PTS loses what is below a millisecond. */
  lemma ScrOfPts(pts: nat)
    requires pts < TIME
    ensures Presentation(pts) == pts / 90
    ensures Base(Presentation(pts)) == pts - pts % 90 && Extension(Presentation(pts)) == 0
  {}

  /** What the receiver of the pack header works out for the frame at `ms`. */
  function Received(ms: nat): nat {
    Presentation(Seen(Base(Presentation(Base(ms)))))
  }

  lemma SeenCases(base: nat)
    requires base < TIME
    ensures base < 0x8000_0000 ==> Seen(base) == base
    ensures Seen(base) < 0x8000_0000 || WORD64 - 0x8000_0000 <= Seen(base) < WORD64
    ensures Seen(base) % 0x4000_0000 == base % 0x4000_0000
    ensures 0x8000_0000 <= base && Seen(base) < 0x8000_0000 ==> Seen(base) <= base - 0x1_0000_0000
  {}

  /** The time survives exactly when its 90 kHz count fits in 31 bits: the decode
      shifts the top three bits as a signed int. */
  lemma RoundTrip(ms: nat)
    requires 27000 * ms < WORD64
    ensures Received(ms) == ms <==> 90 * ms < 0x8000_0000
    ensures Extension(Presentation(Base(ms))) == 0
  {
    hide Seen;
    var pts := Base(ms);
    BaseIs(ms);
    ScrOfPts(pts);
    var scr := pts - pts % 90;
    SeenCases(scr);
    if 90 * ms < 0x8000_0000 {
      assert pts == 90 * ms;
    } else {
      LateTime(ms, pts, scr, Seen(scr));
    }
  }

  lemma LateTime(ms: nat, pts: nat, scr: nat, seen: nat)
    requires 0x8000_0000 <= 90 * ms && 27000 * ms < WORD64
    requires pts == 90 * ms % TIME && scr == pts - pts % 90
    requires seen < 0x8000_0000 || WORD64 - 0x8000_0000 <= seen < WORD64
    requires seen % 0x4000_0000 == scr % 0x4000_0000
    ensures Presentation(seen) != ms
  {
    if seen < 0x8000_0000 {
      assert Presentation(seen) <= seen / 90;
    } else {
      var d := WORD64 - seen;
      assert seen * 300 % WORD64 == WORD64 - 300 * d by {
        assert seen * 300 == 299 * WORD64 + (WORD64 - 300 * d);
      }
      TooFar(ms, d, 90 * ms / TIME, pts % 90, pts, seen);
    }
  }

  lemma TooFar(ms: nat, d: nat, j: nat, r: nat, pts: nat, seen: nat)
    requires 1 <= d <= 0x8000_0000 && seen == WORD64 - d
    requires 90 * ms == j * TIME + pts && r < 90 && r <= pts
    requires seen % 0x4000_0000 == (pts - r) % 0x4000_0000
    ensures (WORD64 - 300 * d) / 27000 != ms
  {
    var m := 0x4000_0000;
    var q, p := seen / m, (pts - r) / m;
    assert seen == q * m + seen % m && pts - r == p * m + (pts - r) % m;
    // 90 * ms + d is a multiple of 2^30 plus r; equality would put it within 90 of 2^64 / 300.
    assert 90 * ms + d == (j * 8 + p - q + 0x4_0000_0000) * m + r;
    FarFromQuotient(j * 8 + p - q + 0x4_0000_0000, r);
  }

  lemma FarFromQuotient(k: int, r: nat)
    requires r < 90
    ensures var x := k * 0x4000_0000 + r; x < 61489146912365082 || 61489146912365172 < x
  {}

  /** From the frame's time to the pack header's bytes and back: no extension, and the
      same milliseconds exactly when their 90 kHz count fits in 31 bits. */
  lemma TimeSurvives(ms: nat, rate: nat, rest: seq<Byte>)
    requires 27000 * ms < WORD64 && rate < 0x1_0000_0000
    ensures var shown := Presentation(Base(ms));
            var h := PackHead(Base(shown), Extension(shown), rate);
            && h.ext == 0
            && (DecodeMs(PackHeaderBytes(h) + rest) == ms <==> 90 * ms < 0x8000_0000)
  {
    var shown := Presentation(Base(ms));
    RoundTrip(ms);
    HeaderDecodes(PackHead(Base(shown), 0, rate), rest);
  }
}
