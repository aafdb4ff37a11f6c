/** The serialisers of PS/Semantics.cpp, write by write. */
module ProgramStream {
  import opened Bytes
  import opened Bits
  import opened BitStreamClass
  import opened Headers

  // ----- fields collected up to a byte boundary -----

  lemma Pow2Fields()
    ensures Pow2(1) == 2 && Pow2(2) == 4 && Pow2(3) == 8 && Pow2(4) == 16 && Pow2(5) == 32
    ensures Pow2(6) == 64 && Pow2(7) == 128 && Pow2(8) == 256 && Pow2(9) == 512 && Pow2(13) == 0x2000
    ensures Pow2(15) == 0x8000 && Pow2(16) == 0x1_0000 && Pow2(22) == 0x40_0000 && Pow2(24) == 0x100_0000
    ensures Pow2(30) == 0x4000_0000 && Pow2(32) == 0x1_0000_0000
  {
    Pow2Values();
    assert Pow2(4) == 16;
    Pow2Sum(1, 8);
    Pow2Sum(4, 1);
    Pow2Sum(5, 8);
    Pow2Sum(7, 8);
    Pow2Sum(8, 16);
    Pow2Sum(6, 16);
    Pow2Sum(15, 15);
  }

  /** Since `was`, the `k` bits of `x` were written. */
  ghost predicate Since(bs: BitStream, was: seq<bool>, k: nat, x: nat)
    reads bs
  {
    bs.Valid() && bs.raw == was + ToBits(k, x)
  }

  /** Within the bytes the vector has, or before it has any. */
  predicate Inside(bs: BitStream, n: nat)
    reads bs
  {
    (bs.offset == 0 && bs.stream == []) || bs.offset + n <= 8 * |bs.stream|
  }

  lemma Collect(was: seq<bool>, k: nat, x: nat, n: nat, v: nat, s: nat, y: nat)
    requires y == Low(Shr(v, s), n)
    ensures was + ToBits(k, x) + ToBits(n, Shr(v, s)) == was + ToBits(k + n, x * Pow2(n) + y)
  {
    LowBound(Shr(v, s), n);
    ToBitsLow(n, Shr(v, s), n);
    LowBound(y, n);
    JoinFields(k, x, n, y);
    Assoc(was, ToBits(k, x), ToBits(n, y));
  }

  /** The number collected so far with one more field of `n` bits. */
  function Glue(x: nat, n: nat, v: nat): nat {
    x * Pow2(n) + v % Pow2(n)
  }

  lemma CollectGlued(was: seq<bool>, k: nat, x: nat, n: nat, v: nat, s: nat)
    ensures was + ToBits(k, x) + ToBits(n, Shr(v, s)) == was + ToBits(k + n, Glue(x, n, Shr(v, s)))
  {
    ShrLow(Shr(v, s), n);
    Collect(was, k, x, n, v, s, Low(Shr(v, s), n));
  }

  lemma Glued(x: nat, n: nat, v: nat, m: nat)
    requires m == Pow2(n)
    ensures Glue(x, n, v) == x * m + v % m
  {}

  method Put8(bs: BitStream, n: nat, v: Byte, ghost was: seq<bool>, ghost k: nat, ghost x: nat)
    returns (ghost k': nat, ghost x': nat)
    requires Since(bs, was, k, x) && 0 < n <= 8 && bs.Room(n, 0)
    modifies bs
    ensures k' == k + n && x' == Glue(x, n, v) && Since(bs, was, k', x')
    ensures bs.offset == old(bs.offset) + n && (old(bs.patched) ==> bs.patched)
    ensures |bs.stream| == Grown(old(|bs.stream|), old(bs.offset), bs.offset)
  {
    hide BitStream.Valid, ToBits, Shr, Low, Pow2, Glue;
    bs.Write8(n, v);
    ShrNone(v);
    CollectGlued(was, k, x, n, v, 0);
    k', x' := k + n, Glue(x, n, v);
  }

  method Put16(bs: BitStream, n: nat, v: nat, ghost was: seq<bool>, ghost k: nat, ghost x: nat)
    returns (ghost k': nat, ghost x': nat)
    requires Since(bs, was, k, x) && 0 < n <= 16 && v < 0x1_0000 && bs.Room(n, 0)
    modifies bs
    ensures k' == k + n && x' == Glue(x, n, v) && Since(bs, was, k', x')
    ensures bs.offset == old(bs.offset) + n && (old(bs.patched) ==> bs.patched)
    ensures |bs.stream| == Grown(old(|bs.stream|), old(bs.offset), bs.offset)
  {
    hide BitStream.Valid, ToBits, Shr, Low, Pow2, Glue;
    bs.Write16(n, v);
    ShrNone(v);
    CollectGlued(was, k, x, n, v, 0);
    k', x' := k + n, Glue(x, n, v);
  }

  method Put32(bs: BitStream, n: nat, v: nat, ghost was: seq<bool>, ghost k: nat, ghost x: nat)
    returns (ghost k': nat, ghost x': nat)
    requires Since(bs, was, k, x) && 0 < n <= 32 && v < 0x1_0000_0000 && bs.Room(n, 0)
    modifies bs
    ensures k' == k + n && x' == Glue(x, n, v) && Since(bs, was, k', x')
    ensures bs.offset == old(bs.offset) + n && (old(bs.patched) ==> bs.patched)
    ensures |bs.stream| == Grown(old(|bs.stream|), old(bs.offset), bs.offset)
  {
    hide BitStream.Valid, ToBits, Shr, Low, Pow2, Glue;
    bs.Write32(n, v);
    ShrNone(v);
    CollectGlued(was, k, x, n, v, 0);
    k', x' := k + n, Glue(x, n, v);
  }

  method Put64(bs: BitStream, n: nat, v: nat, s: nat, ghost was: seq<bool>, ghost k: nat, ghost x: nat)
    returns (ghost k': nat, ghost x': nat)
    requires Since(bs, was, k, x) && 0 < n && s + n <= 64 && v < 0x1_0000_0000_0000_0000 && bs.Room(n, s)
    modifies bs
    ensures k' == k + n && x' == Glue(x, n, Shr(v, s)) && Since(bs, was, k', x')
    ensures bs.offset == old(bs.offset) + n && (old(bs.patched) ==> bs.patched)
    ensures |bs.stream| == Grown(old(|bs.stream|), old(bs.offset), bs.offset)
  {
    hide BitStream.Valid, ToBits, Shr, Low, Pow2, Glue;
    bs.Write64(n, v, s);
    CollectGlued(was, k, x, n, v, s);
    k', x' := k + n, Glue(x, n, Shr(v, s));
  }

  lemma ShrBy(v: nat, s: nat, m: nat)
    requires m == Pow2(s)
    ensures m > 0 && Shr(v, s) == v / m
  {
    ShrLow(v, s);
  }

  lemma StampGlue(n: nat, prefix: Byte, t: nat)
    requires (n == 2 || n == 4) && prefix < 4
    ensures Stamp(prefix, t)
         == Glue(Glue(Glue(Glue(Glue(Glue(Glue(0, n, prefix), 3, Shr(t, 30)), 1, 1), 15, Shr(t, 15)), 1, 1), 15, Shr(t, 0)), 1, 1)
  {
    hide Glue, Pow2, Shr;
    Pow2Fields();
    ShrBy(t, 30, 0x4000_0000);
    ShrBy(t, 15, 0x8000);
    ShrNone(t);
    var a, b, c := t / 0x4000_0000 % 8, t / 0x8000 % 0x8000, t % 0x8000;
    Glued(0, n, prefix, Pow2(n));
    Glued(prefix, 3, Shr(t, 30), 8);
    Glued(prefix * 8 + a, 1, 1, 2);
    var x := (prefix * 8 + a) * 2 + 1;
    GluedTwice(x, Shr(t, 15), b);
    GluedTwice((x * 0x8000 + b) * 2 + 1, Shr(t, 0), c);
  }

  /** Fifteen bits and a marker. */
  lemma GluedTwice(x: nat, v: nat, b: nat)
    requires b == v % 0x8000
    ensures Glue(Glue(x, 15, v), 1, 1) == (x * 0x8000 + b) * 2 + 1
  {
    hide Glue, Pow2;
    Pow2Fields();
    Glued(x, 15, v, 0x8000);
    Glued(x * 0x8000 + b, 1, 1, 2);
  }

  // ----- the constant and near-constant fields -----

  lemma StartGlue(id: Byte)
    ensures Glue(Glue(0, 24, 1), 8, id) == 0x100 + id as nat
  {
    Pow2Fields();
    hide Pow2;
  }

  lemma WholeGlue(n: nat, v: nat)
    requires n <= 32 && v < Pow2(n)
    ensures Glue(0, n, v) == v
  {
    Glued(0, n, v, Pow2(n));
    Small(v, Pow2(n));
  }

  lemma FlagsGlue(copy: Byte)
    ensures Glue(Glue(Glue(Glue(Glue(Glue(0, 2, 2), 2, 0), 1, 1), 1, 1), 1, 0), 1, copy) == 0x8C + copy as nat % 2
  {
    Pow2Fields();
    hide Pow2;
  }

  lemma OptionsGlue()
    ensures Glue(Glue(Glue(Glue(Glue(Glue(Glue(0, 2, 2), 1, 0), 1, 0), 1, 0), 1, 0), 1, 0), 1, 0) == 0x80
  {
    Pow2Fields();
    hide Pow2;
  }

  lemma RateGlue()
    ensures Glue(Glue(Glue(0, 1, 1), 22, 0xFFFF_FFFF), 1, 1) == 0xFF_FFFF
  {
    Pow2Fields();
    hide Pow2;
  }

  lemma AudioGlue()
    ensures Glue(Glue(Glue(0, 6, 1), 1, 0), 1, 0) == 4
  {
    Pow2Fields();
    hide Pow2;
  }

  lemma LocksGlue()
    ensures Glue(Glue(Glue(Glue(0, 1, 1), 1, 1), 1, 1), 5, 1) == 0xE1
  {
    Pow2Fields();
    hide Pow2;
  }

  lemma RestrictionGlue()
    ensures Glue(Glue(0, 1, 0), 7, 0x7F) == 0x7F
  {
    Pow2Fields();
    hide Pow2, Glue;
    Glued(0, 1, 0, 2);
    Glued(0, 7, 0x7F, 128);
  }

  lemma BoundGlue(scale: nat, size: nat)
    requires scale < 2 && size < 0x2000
    ensures Glue(Glue(Glue(0, 2, 3), 1, scale), 13, size) == 0xC000 + scale * 0x2000 + size
  {
    Pow2Fields();
    hide Pow2;
  }

  lemma Small(v: nat, m: nat)
    requires v < m
    ensures v % m == v
  {}

  /** 33 bits of time and their markers. */
  method PutStamp(bs: BitStream, prefixBits: nat, prefix: Byte, t: nat, ghost was: seq<bool>, ghost k: nat, ghost x: nat)
    returns (ghost k': nat, ghost x': nat)
    requires Since(bs, was, k, x) && (prefixBits == 2 || prefixBits == 4) && prefix < 4 && x == 0
    requires t < 0x1_0000_0000_0000_0000 && Inside(bs, prefixBits + 36)
    modifies bs
    ensures k' == k + prefixBits + 36 && x' == Stamp(prefix, t) && Since(bs, was, k', x')
    ensures bs.offset == old(bs.offset) + prefixBits + 36 && (old(bs.patched) ==> bs.patched)
    ensures |bs.stream| == if old(bs.stream) == [] then 128 else |old(bs.stream)|
  {
    hide BitStream.Valid, Since, Pow2, Glue, Stamp, Shr;
    k', x' := Put8(bs, prefixBits, prefix, was, k, x);
    k', x' := Put64(bs, 3, t, 30, was, k', x');
    k', x' := Put8(bs, 1, 1, was, k', x');
    k', x' := Put64(bs, 15, t, 15, was, k', x');
    k', x' := Put8(bs, 1, 1, was, k', x');
    k', x' := Put64(bs, 15, t, 0, was, k', x');
    k', x' := Put8(bs, 1, 1, was, k', x');
    StampGlue(prefixBits, prefix, t);
  }

  // ----- whole bytes -----

  /** Exactly the bytes `done` were written. */
  ghost predicate Emitted(bs: BitStream, done: seq<Byte>)
    reads bs
  {
    bs.Valid() && bs.raw == BytesBits(done) && bs.offset == 8 * |done|
  }

  lemma Begin(bs: BitStream, done: seq<Byte>)
    requires Emitted(bs, done)
    ensures Since(bs, BytesBits(done), 0, 0)
  {
    NilRight(BytesBits(done));
  }

  lemma Done(bs: BitStream, done: seq<Byte>, n: nat, x: nat)
    requires Since(bs, BytesBits(done), 8 * n, x)
    ensures Emitted(bs, done + BigEndian(n, x))
  {
    BigEndianBits(n, x);
    BytesBitsConcat(done, BigEndian(n, x));
    assert bs.offset == |bs.raw|;
  }

  lemma One(x: nat)
    requires x < 256
    ensures BigEndian(1, x) == [x]
  {
    assert BigEndian(1, x) == BigEndian(0, x / 256) + [x % 256];
  }

  lemma {:induction false} SameBytes(a: seq<Byte>, b: seq<Byte>)
    requires BytesBits(a) == BytesBits(b)
    ensures a == b
  {
    assert |a| == |b|;
    forall i | 0 <= i < |a| ensures a[i] == b[i] {
      BytesBitsSlice(a, i, i + 1);
      BytesBitsSlice(b, i, i + 1);
      assert a[i..i + 1] == [a[i]] && b[i..i + 1] == [b[i]];
      BytesBitsOne(a[i]);
      BytesBitsOne(b[i]);
      ByteOfBits(a[i]);
      ByteOfBits(b[i]);
    }
  }

  /** The stored length replaces the two bytes first written there. */
  lemma PatchBytes(a: seq<Byte>, x: nat, b: seq<Byte>, len: nat)
    requires |a| == 4
    ensures |BytesBits(a + BigEndian(2, x) + b)| >= 48
    ensures Patch(BytesBits(a + BigEndian(2, x) + b), 32, len) == BytesBits(a + BigEndian(2, len) + b)
  {
    BytesBitsConcat(a, BigEndian(2, x));
    BytesBitsConcat(a + BigEndian(2, x), b);
    BytesBitsConcat(a, BigEndian(2, len));
    BytesBitsConcat(a + BigEndian(2, len), b);
    BigEndianBits(2, len);
    hide BytesBits, BigEndian, ToBits;
    var raw := BytesBits(a) + BytesBits(BigEndian(2, x)) + BytesBits(b);
    assert raw[..32] == BytesBits(a) && raw[48..] == BytesBits(b);
  }

  /** A finished element with its length field at byte four holds the count of the
      bytes after the field, whatever was first written there. */
  lemma FinishElement(bs: BitStream, a: seq<Byte>, x: nat, b: seq<Byte>)
    requires Emitted(bs, a + BigEndian(2, x) + b) && bs.lengthFieldOffset == 32
    requires |a| == 4 && 0 < |b| < 0x1_0000
    ensures bs.Data() == a + BigEndian(2, |b|) + b
  {
    hide BytesBits, BigEndian, Patch, ToBits;
    PatchBytes(a, x, b, |b|);
    assert CountAfter(bs.offset, 48) == |b|;
    assert bs.length == |b| && bs.patched;
    bs.DataBits();
    SameBytes(bs.Data(), a + BigEndian(2, |b|) + b);
  }

  lemma FinishPlain(bs: BitStream, done: seq<Byte>)
    requires Emitted(bs, done) && bs.lengthFieldOffset < 0
    ensures bs.Valid() && bs.Data() == done
  {
    bs.DataBits();
    SameBytes(bs.Data(), done);
  }

  lemma AtBoundary(bs: BitStream, done: seq<Byte>)
    requires Emitted(bs, done)
    ensures bs.offset == 8 * |done|
  {}

  /** A field within a byte, or ending a byte, never crosses the vector's end in one
      write8. */
  lemma RoomAt(bs: BitStream, j: nat, i: nat, n: nat)
    requires bs.offset == 8 * j + i && (i + n <= 8 || i + n == 16 || i + n == 32)
    ensures bs.Room(n, 0)
  {}

  /** A whole byte. */
  method PutByte(bs: BitStream, v: Byte, ghost start: seq<Byte>)
    requires Emitted(bs, start)
    modifies bs
    ensures Emitted(bs, start + [v]) && (old(bs.patched) ==> bs.patched)
    ensures |bs.stream| == Grown(old(|bs.stream|), old(bs.offset), bs.offset)
  {
    AtBoundary(bs, start);
    hide BitStream.Valid, Since, Emitted, BytesBits, BigEndian, Glue, Pow2, BitStream.Room, Grown;
    Begin(bs, start);
    RoomAt(bs, |start|, 0, 8);
    ghost var k, x := Put8(bs, 8, v, BytesBits(start), 0, 0);
    Pow2Fields();
    WholeGlue(8, v);
    Done(bs, start, 1, x);
    One(x);
  }

  /** A whole 16-bit number. */
  method PutWord(bs: BitStream, v: nat, ghost start: seq<Byte>)
    requires Emitted(bs, start) && v < 0x1_0000
    modifies bs
    ensures Emitted(bs, start + BigEndian(2, v)) && (old(bs.patched) ==> bs.patched)
    ensures |bs.stream| == Grown(old(|bs.stream|), old(bs.offset), bs.offset)
  {
    AtBoundary(bs, start);
    hide BitStream.Valid, Since, Emitted, BytesBits, BigEndian, Glue, Pow2, BitStream.Room, Grown;
    Begin(bs, start);
    RoomAt(bs, |start|, 0, 16);
    ghost var k, x := Put16(bs, 16, v, BytesBits(start), 0, 0);
    Pow2Fields();
    WholeGlue(16, v);
    Done(bs, start, 2, x);
  }

  // ----- PESPacket::toBitStream -----

  /** The prefix, the id and the length as first written. */
  method PutStart(bs: BitStream, id: Byte, len: nat) returns (ghost d: seq<Byte>)
    requires bs.Valid() && bs.stream == [] && bs.offset == 0 && bs.raw == [] && len < 0x1_0000
    modifies bs
    ensures d == [0, 0, 1, id] + BigEndian(2, len) && Emitted(bs, d) && |bs.stream| == 128 && bs.offset == 48
  {
    hide BitStream.Valid, Since, Emitted, BytesBits, BigEndian, Glue, Pow2;
    EmittedNone(bs);
    Begin(bs, []);
    ghost var k, x := Put32(bs, 24, 1, BytesBits([]), 0, 0);
    k, x := Put8(bs, 8, id, BytesBits([]), k, x);
    StartGlue(id);
    Done(bs, [], 4, x);
    StartBytes(id);
    ghost var prefix := [0, 0, 1, id];
    NilLeft(prefix);

    Begin(bs, prefix);
    k, x := Put16(bs, 16, len, BytesBits(prefix), 0, 0);
    Pow2Fields();
    WholeGlue(16, len);
    Done(bs, prefix, 2, x);
    d := prefix + BigEndian(2, x);
  }

  method PutPesFlags(bs: BitStream, p: Pes, ghost start: seq<Byte>) returns (ghost d: seq<Byte>)
    requires Emitted(bs, start) && bs.offset <= 48 && |bs.stream| == 128
    modifies bs
    ensures d == start + [0x8C + p.copy % 2] && Emitted(bs, d) && |bs.stream| == 128
    ensures bs.offset == old(bs.offset) + 8
  {
    hide BitStream.Valid, Since, Emitted, BytesBits, BigEndian, Glue, Pow2;
    ghost var k, x := 0, 0;
    Begin(bs, start);
    k, x := Put8(bs, 2, 2, BytesBits(start), 0, 0);
    k, x := Put8(bs, 2, 0, BytesBits(start), k, x);
    k, x := Put8(bs, 1, 1, BytesBits(start), k, x);
    k, x := Put8(bs, 1, 1, BytesBits(start), k, x);
    k, x := Put8(bs, 1, 0, BytesBits(start), k, x);
    k, x := Put8(bs, 1, p.copy, BytesBits(start), k, x);
    FlagsGlue(p.copy);
    Done(bs, start, 1, x);
    One(x);
    d := start + BigEndian(1, x);
  }

  /** PTS_DTS_flags and the six flags the constructor clears. */
  method PutPesOptions(bs: BitStream, ghost start: seq<Byte>) returns (ghost d: seq<Byte>)
    requires Emitted(bs, start) && bs.offset <= 64 && |bs.stream| == 128
    modifies bs
    ensures d == start + [0x80] && Emitted(bs, d) && |bs.stream| == 128
    ensures bs.offset == old(bs.offset) + 8
  {
    hide BitStream.Valid, Since, Emitted, BytesBits, BigEndian, Glue, Pow2;
    ghost var k, x := 0, 0;
    Begin(bs, start);
    k, x := Put8(bs, 2, 2, BytesBits(start), 0, 0);
    k, x := Put8(bs, 1, 0, BytesBits(start), k, x);
    k, x := Put8(bs, 1, 0, BytesBits(start), k, x);
    k, x := Put8(bs, 1, 0, BytesBits(start), k, x);
    k, x := Put8(bs, 1, 0, BytesBits(start), k, x);
    k, x := Put8(bs, 1, 0, BytesBits(start), k, x);
    k, x := Put8(bs, 1, 0, BytesBits(start), k, x);
    OptionsGlue();
    Done(bs, start, 1, x);
    One(x);
    d := start + BigEndian(1, x);
  }

  /** The 14 header bytes; PES_packet_length is first written as zero. */
  method PutPesHeader(bs: BitStream, p: Pes)
    requires bs.Valid() && bs.stream == [] && bs.offset == 0 && bs.raw == [] && PesOk(p)
    modifies bs
    ensures Emitted(bs, PesHeader(p, 0))
  {
    hide BitStream.Valid, Since, Emitted, BytesBits, BigEndian, Glue, Pow2, Stamp;
    ghost var d, k, x := [], 0, 0;
    ghost var start := PutStart(bs, p.streamId, 0);
    assert |start| == 6;
    d := PutPesFlags(bs, p, start);
    d := PutPesOptions(bs, d);
    Begin(bs, d);
    k, x := Put8(bs, 8, 5, BytesBits(d), 0, 0);
    Pow2Fields();
    WholeGlue(8, 5);
    Done(bs, d, 1, x);
    One(x);
    d := d + BigEndian(1, x);
    Begin(bs, d);
    k, x := PutStamp(bs, 4, 2, p.pts, BytesBits(d), 0, 0);
    Done(bs, d, 5, x);
    assert d == start + [0x8C + p.copy % 2, 0x80, 5];
  }

  lemma EmittedNone(bs: BitStream)
    requires bs.Valid() && bs.offset == 0 && bs.raw == []
    ensures Emitted(bs, [])
  {}

  lemma StartBytes(id: Byte)
    ensures BigEndian(4, 0x100 + id) == [0, 0, 1, id]
  {
    var v := 0x100 + id as int;
    assert v / 256 == 1 && v % 256 == id as int;
    assert BigEndian(4, v) == BigEndian(3, 1) + [id];
    assert BigEndian(3, 1) == BigEndian(2, 0) + [1];
    BigEndian2(0);
  }

  /** Whole bytes copied at a byte boundary. */
  method PutData(bs: BitStream, data: seq<Byte>, ghost done: seq<Byte>)
    requires Emitted(bs, done)
    modifies bs
    ensures Emitted(bs, done + data)
  {
    BytesBitsConcat(done, data);
    bs.WriteBytes(data);
  }

  /** toBitStream: the header, and the data copied at a byte boundary. */
  method PesToBitStream(bs: BitStream, p: Pes)
    requires bs.Valid() && bs.lengthFieldOffset == 32 && PesOk(p)
    modifies bs
    ensures bs.Valid() && bs.Data() == PesBytes(p)
  {
    bs.Clear();
    hide PesHeader, Emitted, BytesBits, BigEndian, BitStream.Valid, BitStream.Data, BitStream.Room;
    PutPesHeader(bs, p);
    PutData(bs, p.data, PesHeader(p, 0));
    PesParts(p, 0);
    PesParts(p, 8 + |p.data|);
    var b := PesHeader(p, 0)[6..] + p.data;
    FinishElement(bs, [0, 0, 1, p.streamId], 0, b);
  }

  lemma PesParts(p: Pes, len: nat)
    ensures PesHeader(p, len) + p.data
         == [0, 0, 1, p.streamId] + BigEndian(2, len) + (PesHeader(p, 0)[6..] + p.data)
  {
    var h := PesHeader(p, len);
    assert h[6..] == PesHeader(p, 0)[6..];
    assert h[..6] == [0, 0, 1, p.streamId] + BigEndian(2, len);
    assert h == h[..6] + h[6..];
    Assoc(h[..6], h[6..], p.data);
  }

  // ----- SystemHeader -----

  /** A stream id is listed once, as it was first added. */
  function AddBound(bs: seq<StreamBound>, b: StreamBound): seq<StreamBound> {
    if exists i :: 0 <= i < |bs| && bs[i].streamId == b.streamId then bs else bs + [b]
  }

  /** Each id once, with fields that fit. */
  ghost predicate Listed(bs: seq<StreamBound>) {
    && (forall i :: 0 <= i < |bs| ==> bs[i].scale < 2 && bs[i].size < 0x2000)
    && (forall i, j :: 0 <= i < j < |bs| ==> bs[i].streamId != bs[j].streamId)
  }

  /** A table without the id that takes a longer entry. */
  ghost predicate Table(bs: seq<StreamBound>)
    ensures Table(bs) ==> Listed(bs)
  {
    && (forall i :: 0 <= i < |bs| ==> BoundOk(bs[i]))
    && (forall i, j :: 0 <= i < j < |bs| ==> bs[i].streamId != bs[j].streamId)
  }

  /** A table of distinct ids never outgrows the length field. */
  lemma TableSize(bs: seq<StreamBound>)
    requires Listed(bs)
    ensures |bs| <= 256
  {
    var ids := seq(|bs|, i requires 0 <= i < |bs| => bs[i].streamId as int);
    DistinctBelow(ids, 256);
  }

  lemma {:induction false} DistinctBelow(ids: seq<int>, n: nat)
    requires forall i :: 0 <= i < |ids| ==> 0 <= ids[i] < n
    requires forall i, j :: 0 <= i < j < |ids| ==> ids[i] != ids[j]
    ensures |ids| <= n
    decreases n
  {
    if |ids| > 0 { assert 0 <= ids[0] < n; }
    if n > 0 {
      if i :| 0 <= i < |ids| && ids[i] == n - 1 {
        DistinctBelow(ids[..i] + ids[i + 1..], n - 1);
      } else {
        DistinctBelow(ids, n - 1);
      }
    }
  }

  class SystemHeader {
    /** Never set by the source before it is first written. */
    const headerLength: nat
    const bitstream: BitStream
    var streamTypes: seq<StreamBound>

    /** Any table of streams. */
    ghost predicate Holds()
      reads this, bitstream
    {
      headerLength < 0x1_0000 && Listed(streamTypes) && bitstream.Valid() && bitstream.lengthFieldOffset == 32
    }

    /** A table the model serialises. */
    ghost predicate Valid()
      reads this, bitstream
      ensures Valid() ==> Holds()
    {
      headerLength < 0x1_0000 && Table(streamTypes) && bitstream.Valid() && bitstream.lengthFieldOffset == 32
    }

    constructor (unset: nat)
      requires unset < 0x1_0000
      ensures Valid() && fresh(bitstream) && streamTypes == []
    {
      headerLength := unset;
      bitstream := new BitStream(32);
      streamTypes := [];
    }

    method AddVideoStreamType(id: Byte)
      requires Holds()
      modifies this
      ensures Holds() && streamTypes == AddBound(old(streamTypes), StreamBound(id, 0, 100))
      ensures old(Valid()) && id != 0xB7 ==> Valid()
    {
      for i := 0 to |streamTypes|
        invariant forall j :: 0 <= j < i ==> streamTypes[j].streamId != id
        invariant Holds() && streamTypes == old(streamTypes)
      {
        if streamTypes[i].streamId == id { return; }
      }
      streamTypes := streamTypes + [StreamBound(id, 0, 100)];
    }

    method AddAudioStreamType(id: Byte)
      requires Holds()
      modifies this
      ensures Holds() && streamTypes == AddBound(old(streamTypes), StreamBound(id, 1, 1000))
      ensures old(Valid()) && id != 0xB7 ==> Valid()
    {
      for i := 0 to |streamTypes|
        invariant forall j :: 0 <= j < i ==> streamTypes[j].streamId != id
        invariant Holds() && streamTypes == old(streamTypes)
      {
        if streamTypes[i].streamId == id { return; }
      }
      streamTypes := streamTypes + [StreamBound(id, 1, 1000)];
    }

    method ToBitStream()
      requires Valid()
      modifies bitstream
      ensures Valid() && bitstream.Data() == SystemHeaderBytes(streamTypes)
    {
      TableSize(streamTypes);
      bitstream.Clear();
      hide BitStream.Valid, Emitted, BytesBits, BigEndian, Table, BoundsBytes, BitStream.Data;
      PutSystemHeader(bitstream, headerLength, streamTypes);
      FinishElement(bitstream, [0, 0, 1, 0xBB], headerLength, SYSTEM_FLAGS + BoundsBytes(streamTypes));
    }
  }

  /** A start code written as one 32-bit field. */
  method PutStartCode(bs: BitStream, id: Byte)
    requires bs.Valid() && bs.stream == [] && bs.offset == 0 && bs.raw == []
    modifies bs
    ensures Emitted(bs, [0, 0, 1, id]) && |bs.stream| == 128 && bs.offset == 32
  {
    hide BitStream.Valid, Since, Emitted, BytesBits, BigEndian, Glue, Pow2;
    EmittedNone(bs);
    Begin(bs, []);
    ghost var k, x := Put32(bs, 32, 0x100 + id as nat, BytesBits([]), 0, 0);
    Pow2Fields();
    WholeGlue(32, 0x100 + id as nat);
    Done(bs, [], 4, x);
    StartBytes(id);
    ghost var prefix := [0, 0, 1, id];
    NilLeft(prefix);
  }

  method PutSystemHeader(bs: BitStream, len: nat, table: seq<StreamBound>)
    requires bs.Valid() && bs.stream == [] && bs.offset == 0 && bs.raw == [] && len < 0x1_0000 && Table(table)
    modifies bs
    ensures Emitted(bs, [0, 0, 1, 0xBB] + BigEndian(2, len) + (SYSTEM_FLAGS + BoundsBytes(table)))
  {
    ghost var start := [0, 0, 1, 0xBB] + BigEndian(2, len);
    PutStartCode(bs, 0xBB);
    PutWord(bs, len, [0, 0, 1, 0xBB]);
    AtBoundary(bs, start);
    hide BitStream.Valid, Emitted, BigEndian, Table, BoundsBytes;
    ghost var d := PutSystemFlags(bs, start);
    PutBounds(bs, table, d);
    Assoc(start, SYSTEM_FLAGS, BoundsBytes(table));
  }

  method PutSystemFlags(bs: BitStream, ghost start: seq<Byte>) returns (ghost d: seq<Byte>)
    requires Emitted(bs, start) && bs.offset == 48 && |bs.stream| == 128
    modifies bs
    ensures d == start + SYSTEM_FLAGS && Emitted(bs, d)
  {
    hide BitStream.Valid, Since, Emitted, BytesBits, BigEndian, Glue, Pow2;
    ghost var k, x := 0, 0;
    Begin(bs, start);
    k, x := Put8(bs, 1, 1, BytesBits(start), 0, 0);
    k, x := Put32(bs, 22, 0xFFFF_FFFF, BytesBits(start), k, x);
    k, x := Put8(bs, 1, 1, BytesBits(start), k, x);
    RateGlue();
    Done(bs, start, 3, x);
    d := start + BigEndian(3, x);
    ThreeOnes();

    Begin(bs, d);
    k, x := Put8(bs, 6, 1, BytesBits(d), 0, 0);
    k, x := Put8(bs, 1, 0, BytesBits(d), k, x);
    k, x := Put8(bs, 1, 0, BytesBits(d), k, x);
    AudioGlue();
    Done(bs, d, 1, x);
    One(x);
    d := d + BigEndian(1, x);

    d := PutSystemLocks(bs, d);
    assert d == start + SYSTEM_FLAGS;
  }

  lemma ThreeOnes()
    ensures BigEndian(3, 0xFF_FFFF) == [0xFF, 0xFF, 0xFF]
  {
    assert BigEndian(3, 0xFF_FFFF) == BigEndian(2, 0xFFFF) + [0xFF];
    BigEndian2(0xFFFF);
  }

  method PutSystemLocks(bs: BitStream, ghost start: seq<Byte>) returns (ghost d: seq<Byte>)
    requires Emitted(bs, start) && bs.offset == 80 && |bs.stream| == 128
    modifies bs
    ensures d == start + [0xE1] + [0x7F] && Emitted(bs, d)
  {
    hide BitStream.Valid, Since, Emitted, BytesBits, BigEndian, Glue, Pow2;
    ghost var k, x := 0, 0;
    Begin(bs, start);
    k, x := Put8(bs, 1, 1, BytesBits(start), 0, 0);
    k, x := Put8(bs, 1, 1, BytesBits(start), k, x);
    k, x := Put8(bs, 1, 1, BytesBits(start), k, x);
    k, x := Put8(bs, 5, 1, BytesBits(start), k, x);
    LocksGlue();
    Done(bs, start, 1, x);
    One(x);
    d := start + BigEndian(1, x);

    Begin(bs, d);
    k, x := Put8(bs, 1, 0, BytesBits(d), 0, 0);
    k, x := Put8(bs, 7, 0x7F, BytesBits(d), k, x);
    RestrictionGlue();
    Done(bs, d, 1, x);
    One(x);
    d := d + BigEndian(1, x);
  }

  method PutBound(bs: BitStream, b: StreamBound, ghost start: seq<Byte>)
    requires Emitted(bs, start) && BoundOk(b)
    modifies bs
    ensures Emitted(bs, start + BoundBytes(b))
  {
    hide Emitted, BigEndian;
    PutByte(bs, b.streamId, start);
    PutBoundSize(bs, b.scale, b.size, start + [b.streamId]);
    Assoc(start, [b.streamId], BigEndian(2, 0xC000 + b.scale * 0x2000 + b.size));
  }

  method PutBoundSize(bs: BitStream, scale: nat, size: nat, ghost d: seq<Byte>)
    requires Emitted(bs, d) && scale < 2 && size < 0x2000
    modifies bs
    ensures Emitted(bs, d + BigEndian(2, 0xC000 + scale * 0x2000 + size))
  {
    hide BitStream.Valid, Since, Emitted, BytesBits, BigEndian, Glue, Pow2, Grown, BitStream.Room;
    ghost var k, x := PutMarkedBit(bs, scale, d);
    RoomAt(bs, |d|, 3, 13);
    k, x := Put16(bs, 13, size, BytesBits(d), k, x);
    BoundGlue(scale, size);
    Done(bs, d, 2, x);
  }

  method PutMarkedBit(bs: BitStream, bit: Byte, ghost d: seq<Byte>) returns (ghost k: nat, ghost x: nat)
    requires Emitted(bs, d)
    modifies bs
    ensures k == 3 && x == Glue(Glue(0, 2, 3), 1, bit) && Since(bs, BytesBits(d), k, x)
    ensures bs.offset == 8 * |d| + 3
  {
    AtBoundary(bs, d);
    hide BitStream.Valid, Since, Emitted, BytesBits, Glue, Pow2, Grown, BitStream.Room;
    Begin(bs, d);
    RoomAt(bs, |d|, 0, 2);
    k, x := Put8(bs, 2, 3, BytesBits(d), 0, 0);
    RoomAt(bs, |d|, 2, 1);
    k, x := Put8(bs, 1, bit, BytesBits(d), k, x);
  }

  method PutBounds(bs: BitStream, table: seq<StreamBound>, ghost start: seq<Byte>)
    requires Emitted(bs, start) && Table(table)
    modifies bs
    ensures Emitted(bs, start + BoundsBytes(table))
  {
    NilRight(start);
    for i := 0 to |table|
      invariant Emitted(bs, start + BoundsBytes(table[..i]))
    {
      PutBound(bs, table[i], start + BoundsBytes(table[..i]));
      assert table[..i + 1][..i] == table[..i];
      Assoc(start, BoundsBytes(table[..i]), BoundBytes(table[i]));
    }
    Whole(table);
  }
}
