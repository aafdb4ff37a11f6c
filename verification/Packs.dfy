/** ProgramStreamMap and PackHeader of PS/Semantics.cpp, write by write. */
module Packs {
  import opened Bytes
  import opened Bits
  import opened BitStreamClass
  import opened Headers
  import opened ProgramStream

  // ----- ProgramStreamMap -----

  /** A stream type is listed once, as it was first added. */
  function AddElementary(es: seq<Elementary>, e: Elementary): seq<Elementary> {
    if exists i :: 0 <= i < |es| && es[i].streamType == e.streamType then es else es + [e]
  }

  /** Each stream type once. */
  ghost predicate TypesOnce(es: seq<Elementary>) {
    forall i, j :: 0 <= i < j < |es| ==> es[i].streamType != es[j].streamType
  }

  /** A map without the stream id that takes a longer entry. */
  ghost predicate MapOk(es: seq<Elementary>)
    ensures MapOk(es) ==> TypesOnce(es)
  {
    && (forall i :: 0 <= i < |es| ==> es[i].streamId != 0xFD)
    && (forall i, j :: 0 <= i < j < |es| ==> es[i].streamType != es[j].streamType)
  }

  lemma MapSize(es: seq<Elementary>)
    requires TypesOnce(es)
    ensures |es| <= 256
  {
    var types := seq(|es|, i requires 0 <= i < |es| => es[i].streamType as int);
    DistinctBelow(types, 256);
  }

  class ProgramStreamMap {
    const bitstream: BitStream
    var streams: seq<Elementary>
    /** elementary_stream_map_length, a 16-bit sum. */
    var mapLength: nat

    /** Any map of streams. */
    ghost predicate Holds()
      reads this, bitstream
    {
      TypesOnce(streams) && mapLength == 5 * |streams| && bitstream.Valid() && bitstream.lengthFieldOffset == 32
    }

    /** A map the model serialises. */
    ghost predicate Valid()
      reads this, bitstream
      ensures Valid() ==> Holds()
    {
      MapOk(streams) && mapLength == 5 * |streams| && bitstream.Valid() && bitstream.lengthFieldOffset == 32
    }

    constructor ()
      ensures Valid() && fresh(bitstream) && streams == []
    {
      bitstream := new BitStream(32);
      streams, mapLength := [], 0;
    }

    method AddElementaryStream(streamType: Byte, streamId: Byte)
      requires Holds()
      modifies this
      ensures Holds() && streams == AddElementary(old(streams), Elementary(streamType, streamId))
      ensures old(Valid()) && streamId != 0xFD ==> Valid()
    {
      for i := 0 to |streams|
        invariant forall j :: 0 <= j < i ==> streams[j].streamType != streamType
        invariant Holds() && streams == old(streams)
      {
        if streams[i].streamType == streamType { return; }
      }
      streams := streams + [Elementary(streamType, streamId)];
      MapSize(streams);
      mapLength := (mapLength + 1) % 0x1_0000;
      mapLength := (mapLength + 2) % 0x1_0000;
      mapLength := (mapLength + 2) % 0x1_0000;
    }

    method ToBitStream()
      requires Valid()
      modifies bitstream
      ensures Valid() && bitstream.Data() == PsmBytes(streams)
    {
      MapSize(streams);
      bitstream.Clear();
      hide BitStream.Valid, Emitted, BytesBits, BigEndian, MapOk, MapBody, PsmBytes, BitStream.Data;
      PutMap(bitstream, streams, mapLength);
      MapIs(streams);
      FinishElement(bitstream, [0, 0, 1, 0xBC], 0, MapBody(streams, mapLength));
    }
  }

  /** What follows the length field. */
  function MapBody(es: seq<Elementary>, mapLength: nat): seq<Byte> {
    [0x81, 0x01, 0, 0] + BigEndian(2, mapLength) + ElementariesBytes(es) + [0, 0, 0, 0]
  }

  lemma MapIs(es: seq<Elementary>)
    ensures var b := MapBody(es, 5 * |es|);
            |b| == 10 + 4 * |es| && PsmBytes(es) == [0, 0, 1, 0xBC] + BigEndian(2, |b|) + b
  {
    hide BigEndian, ElementariesBytes;
  }

  method PutMap(bs: BitStream, es: seq<Elementary>, mapLength: nat)
    requires bs.Valid() && bs.stream == [] && bs.offset == 0 && bs.raw == [] && mapLength < 0x1_0000
    modifies bs
    ensures Emitted(bs, [0, 0, 1, 0xBC] + BigEndian(2, 0) + MapBody(es, mapLength))
  {
    hide BitStream.Valid, Emitted, BytesBits, BigEndian, ElementariesBytes;
    ghost var start := PutStart(bs, 0xBC, 0);
    ghost var d := PutMapFlags(bs, start);
    PutWord(bs, 0, d);
    d := d + BigEndian(2, 0);
    ZeroBytes();
    PutWord(bs, mapLength, d);
    d := d + BigEndian(2, mapLength);
    PutElementaries(bs, es, d);
    d := d + ElementariesBytes(es);
    PutCrc(bs, d);
    assert [0x81] + [0x01] + [0, 0] == [0x81, 0x01, 0, 0];
    MapParts(start, [0x81], [0x01], [0, 0], BigEndian(2, mapLength), ElementariesBytes(es), [0, 0, 0, 0]);
  }

  lemma MapParts(start: seq<Byte>, a: seq<Byte>, b: seq<Byte>, c: seq<Byte>, len: seq<Byte>, es: seq<Byte>, z: seq<Byte>)
    ensures start + a + b + c + len + es + z == start + (a + b + c + len + es + z)
  {}

  lemma ZeroBytes()
    ensures BigEndian(2, 0) == [0, 0] && BigEndian(4, 0) == [0, 0, 0, 0]
  {
    assert BigEndian(3, 0) == BigEndian(2, 0) + [0];
    BigEndian2(0);
  }

  method PutMapFlags(bs: BitStream, ghost start: seq<Byte>) returns (ghost d: seq<Byte>)
    requires Emitted(bs, start) && bs.offset == 48 && |bs.stream| == 128
    modifies bs
    ensures d == start + [0x81] + [0x01] && Emitted(bs, d)
  {
    hide BitStream.Valid, Since, Emitted, BytesBits, BigEndian, Glue, Pow2;
    ghost var k, x := 0, 0;
    Begin(bs, start);
    k, x := Put8(bs, 1, 1, BytesBits(start), 0, 0);
    k, x := Put8(bs, 1, 0, BytesBits(start), k, x);
    k, x := Put8(bs, 1, 0, BytesBits(start), k, x);
    k, x := Put8(bs, 5, 1, BytesBits(start), k, x);
    VersionGlue();
    Done(bs, start, 1, x);
    One(x);
    d := start + BigEndian(1, x);

    Begin(bs, d);
    k, x := Put8(bs, 7, 0, BytesBits(d), 0, 0);
    k, x := Put8(bs, 1, 1, BytesBits(d), k, x);
    MarkerGlue();
    Done(bs, d, 1, x);
    One(x);
    d := d + BigEndian(1, x);
  }

  lemma VersionGlue()
    ensures Glue(Glue(Glue(Glue(0, 1, 1), 1, 0), 1, 0), 5, 1) == 0x81
  {
    Pow2Fields();
    hide Pow2;
  }

  lemma MarkerGlue()
    ensures Glue(Glue(0, 7, 0), 1, 1) == 0x01
  {
    Pow2Fields();
    hide Pow2, Glue;
    Glued(0, 7, 0, 128);
    Glued(0, 1, 1, 2);
  }

  /** CRC_32, always zero. */
  method PutCrc(bs: BitStream, ghost d: seq<Byte>)
    requires Emitted(bs, d)
    modifies bs
    ensures Emitted(bs, d + [0, 0, 0, 0])
  {
    hide Emitted, BigEndian;
    ZeroBytes();
    PutLong(bs, 0, d);
  }

  method PutLong(bs: BitStream, v: nat, ghost start: seq<Byte>)
    requires Emitted(bs, start) && v < 0x1_0000_0000
    modifies bs
    ensures Emitted(bs, start + BigEndian(4, v))
  {
    AtBoundary(bs, start);
    hide BitStream.Valid, Since, Emitted, BytesBits, BigEndian, Glue, Pow2, BitStream.Room, Grown;
    Begin(bs, start);
    RoomAt(bs, |start|, 0, 32);
    ghost var k, x := Put32(bs, 32, v, BytesBits(start), 0, 0);
    Pow2Fields();
    WholeGlue(32, v);
    Done(bs, start, 4, x);
  }

  method PutElementaries(bs: BitStream, es: seq<Elementary>, ghost start: seq<Byte>)
    requires Emitted(bs, start)
    modifies bs
    ensures Emitted(bs, start + ElementariesBytes(es))
  {
    hide Emitted;
    NilRight(start);
    for i := 0 to |es|
      invariant Emitted(bs, start + ElementariesBytes(es[..i]))
    {
      PutElementary(bs, es[i], start + ElementariesBytes(es[..i]));
      assert es[..i + 1][..i] == es[..i];
      Assoc(start, ElementariesBytes(es[..i]), [es[i].streamType, es[i].streamId, 0, 0]);
    }
    Whole(es);
  }

  method PutElementary(bs: BitStream, e: Elementary, ghost d: seq<Byte>)
    requires Emitted(bs, d)
    modifies bs
    ensures Emitted(bs, d + [e.streamType, e.streamId, 0, 0])
  {
    hide Emitted, BigEndian;
    PutByte(bs, e.streamType, d);
    PutByte(bs, e.streamId, d + [e.streamType]);
    PutWord(bs, 0, d + [e.streamType] + [e.streamId]);
    ZeroBytes();
    assert d + [e.streamType, e.streamId, 0, 0] == d + [e.streamType] + [e.streamId] + [0, 0];
  }

  // ----- PackHeader -----

  method PutPackTime(bs: BitStream, scr: nat, ext: nat, ghost d: seq<Byte>)
    requires Emitted(bs, d) && bs.offset == 32 && |bs.stream| == 128 && scr < TIME && ext < 300
    modifies bs
    ensures Emitted(bs, d + BigEndian(6, (Stamp(1, scr) * 512 + ext) * 2 + 1))
    ensures bs.offset == 80 && |bs.stream| == 128
  {
    hide BitStream.Valid, Since, Emitted, BytesBits, BigEndian, Glue, Pow2, Stamp;
    Begin(bs, d);
    ghost var k, x := PutStamp(bs, 2, 1, scr, BytesBits(d), 0, 0);
    k, x := Put16(bs, 9, ext, BytesBits(d), k, x);
    k, x := Put8(bs, 1, 1, BytesBits(d), k, x);
    ExtensionGlue(Stamp(1, scr), ext);
    Done(bs, d, 6, x);
  }

  lemma ExtensionGlue(x: nat, ext: nat)
    requires ext < 300
    ensures Glue(Glue(x, 9, ext), 1, 1) == (x * 512 + ext) * 2 + 1
  {
    Pow2Fields();
    hide Pow2;
  }

  method PutPackRate(bs: BitStream, rate: nat, ghost d: seq<Byte>)
    requires Emitted(bs, d) && bs.offset == 80 && |bs.stream| == 128 && rate < 0x1_0000_0000
    modifies bs
    ensures Emitted(bs, d + BigEndian(3, RateUnits(rate) * 4 + 3) + [0])
  {
    hide BitStream.Valid, Since, Emitted, BytesBits, BigEndian, Glue, Pow2;
    Begin(bs, d);
    var units := (rate + 49) % 0x1_0000_0000 / 50;
    ghost var k, x := Put32(bs, 22, units, BytesBits(d), 0, 0);
    k, x := Put8(bs, 1, 1, BytesBits(d), k, x);
    k, x := Put8(bs, 1, 1, BytesBits(d), k, x);
    UnitsGlue(units);
    Done(bs, d, 3, x);
    ghost var e := d + BigEndian(3, x);

    Begin(bs, e);
    k, x := Put8(bs, 5, 0, BytesBits(e), 0, 0);
    k, x := Put8(bs, 3, 0, BytesBits(e), k, x);
    StuffingGlue();
    Done(bs, e, 1, x);
    One(x);
  }

  lemma UnitsGlue(units: nat)
    ensures Glue(Glue(Glue(0, 22, units), 1, 1), 1, 1) == units % 0x40_0000 * 4 + 3
  {
    Pow2Fields();
    hide Pow2;
  }

  lemma StuffingGlue()
    ensures Glue(Glue(0, 5, 0), 3, 0) == 0
  {
    Pow2Fields();
    hide Pow2;
  }

  method PutPackHeader(bs: BitStream, h: PackHead)
    requires bs.Valid() && bs.stream == [] && bs.offset == 0 && bs.raw == [] && PackOk(h)
    modifies bs
    ensures Emitted(bs, PackHeaderBytes(h))
  {
    hide BitStream.Valid, Emitted, BigEndian;
    ghost var d := [0, 0, 1, 0xBA];
    PutStartCode(bs, 0xBA);
    PutPackTime(bs, h.scr, h.ext, d);
    d := d + BigEndian(6, (Stamp(1, h.scr) * 512 + h.ext) * 2 + 1);
    PutPackRate(bs, h.rate, d);
  }
}
