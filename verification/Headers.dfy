/** The layouts of ISO/IEC 13818-1 the serialisers write, as bytes, and the readers
    that follow the same layouts. */
module Headers {
  import opened Bytes
  import opened Bits
  import opened BitStreamClass

  // ----- big-endian numbers -----

  function BigEndian(k: nat, v: nat): (b: seq<Byte>)
    ensures |b| == k
  {
    if k == 0 then [] else BigEndian(k - 1, v / 256) + [v % 256]
  }

  function Value(b: seq<Byte>): nat {
    if b == [] then 0 else Value(b[..|b| - 1]) * 256 + b[|b| - 1] as nat
  }

  lemma ShrByte(v: nat)
    ensures Shr(v, 8) == v / 256 && Low(v, 8) == v % 256
  {
    Pow2Values();
    ShrLow(v, 8);
  }

  lemma {:induction false} BigEndianBits(k: nat, v: nat)
    ensures BytesBits(BigEndian(k, v)) == ToBits(8 * k, v)
  {
    if k > 0 {
      var x := v % 256;
      BigEndianBits(k - 1, v / 256);
      BytesBitsConcat(BigEndian(k - 1, v / 256), [x]);
      BytesBitsOne(x);
      ShrByte(v);
      ToBitsConcat(8 * (k - 1), 8, v);
      ToBitsLow(8, v, 8);
    }
  }

  lemma {:induction false} ValueOfBigEndian(k: nat, v: nat)
    requires v < Pow2(8 * k)
    ensures Value(BigEndian(k, v)) == v
  {
    if k > 0 {
      var b := BigEndian(k, v);
      assert b[..k - 1] == BigEndian(k - 1, v / 256);
      ShrByte(v);
      ShrBound(v, 8, 8 * (k - 1));
      ValueOfBigEndian(k - 1, v / 256);
    }
  }

  /** Two fields side by side are one. */
  lemma JoinFields(a: nat, x: nat, b: nat, y: nat)
    requires y < Pow2(b)
    ensures ToBits(a, x) + ToBits(b, y) == ToBits(a + b, x * Pow2(b) + y)
  {
    var v := x * Pow2(b) + y;
    WordParts(x, y, b);
    ToBitsConcat(a, b, v);
    ToBitsLow(b, v, b);
  }

  // ----- 33-bit time stamps -----

  const TIME: nat := 0x2_0000_0000

  /** `prefix`, then 3 + 15 + 15 bits of `t`, each followed by a marker bit. */
  function Stamp(prefix: nat, t: nat): nat {
    var a, b, c := t / 0x4000_0000 % 8, t / 0x8000 % 0x8000, t % 0x8000;
    ((prefix * 8 + a) * 2 + 1) * 0x1_0000_0000 + (b * 2 + 1) * 0x1_0000 + (c * 2 + 1)
  }

  /** The time in a stamp, wherever the marker bits are. */
  function StampTime(v: nat): nat {
    v / 0x2_0000_0000 % 8 * 0x4000_0000 + v / 0x2_0000 % 0x8000 * 0x8000 + v / 2 % 0x8000
  }

  /** The prefix and the three marker bits are there. */
  predicate StampMarked(prefix: nat, v: nat) {
    v / 0x10_0000_0000 == prefix && v / 0x1_0000_0000 % 2 == 1 && v / 0x1_0000 % 2 == 1 && v % 2 == 1
  }

  lemma StampMarks(prefix: nat, t: nat)
    ensures StampMarked(prefix, Stamp(prefix, t))
  {
    var a, b, c := t / 0x4000_0000 % 8, t / 0x8000 % 0x8000, t % 0x8000;
    var x, v := (prefix * 8 + a) * 2 + 1, Stamp(prefix, t);
    DivMod(x, 0x1_0000_0000, (b * 2 + 1) * 0x1_0000 + (c * 2 + 1));
    assert v == (x * 0x1_0000 + (b * 2 + 1)) * 0x1_0000 + (c * 2 + 1);
    DivMod(x * 0x1_0000 + (b * 2 + 1), 0x1_0000, c * 2 + 1);
    assert v == prefix * 0x10_0000_0000 + ((a * 2 + 1) * 0x1_0000_0000 + (b * 2 + 1) * 0x1_0000 + (c * 2 + 1));
    DivMod(prefix, 0x10_0000_0000, (a * 2 + 1) * 0x1_0000_0000 + (b * 2 + 1) * 0x1_0000 + (c * 2 + 1));
  }

  lemma StampReads(prefix: nat, t: nat)
    requires t < TIME
    ensures StampTime(Stamp(prefix, t)) == t
  {
    var a, b, c := t / 0x4000_0000 % 8, t / 0x8000 % 0x8000, t % 0x8000;
    TimeParts(t);
    StampParts(prefix * 8 + a, b, c);
    assert (prefix * 8 + a) % 8 == a;
  }

  lemma TimeParts(t: nat)
    requires t < TIME
    ensures t == t / 0x4000_0000 % 8 * 0x4000_0000 + t / 0x8000 % 0x8000 * 0x8000 + t % 0x8000
  {
    var x := t / 0x8000;
    assert t == x * 0x8000 + t % 0x8000;
    assert x / 0x8000 == t / 0x4000_0000 && x / 0x8000 < 8;
  }

  lemma StampParts(x: nat, b: nat, c: nat)
    requires b < 0x8000 && c < 0x8000
    ensures var v := (x * 2 + 1) * 0x1_0000_0000 + (b * 2 + 1) * 0x1_0000 + (c * 2 + 1);
            v / 0x2_0000_0000 == x && v / 0x2_0000 % 0x8000 == b && v / 2 % 0x8000 == c
  {
    var v := (x * 2 + 1) * 0x1_0000_0000 + (b * 2 + 1) * 0x1_0000 + (c * 2 + 1);
    var y := (x * 2 + 1) * 0x8000 + b;
    assert v == x * 0x2_0000_0000 + (0x1_0000_0000 + (b * 2 + 1) * 0x1_0000 + (c * 2 + 1));
    DivMod(x, 0x2_0000_0000, 0x1_0000_0000 + (b * 2 + 1) * 0x1_0000 + (c * 2 + 1));
    assert v == y * 0x2_0000 + (0x1_0000 + c * 2 + 1);
    DivMod(y, 0x2_0000, 0x1_0000 + c * 2 + 1);
    DivMod(x * 2 + 1, 0x8000, b);
    var z := (x * 2 + 1) * 0x8000_0000 + (b * 2 + 1) * 0x8000 + c;
    assert v / 2 == z;
    assert z == ((x * 2 + 1) * 0x1_0000 + (b * 2 + 1)) * 0x8000 + c;
    DivMod((x * 2 + 1) * 0x1_0000 + (b * 2 + 1), 0x8000, c);
  }

  // ----- PES packets (section 2.4.3.6) -----

  /** `copy` is the original_or_copy byte, which the source leaves unset. */
  datatype Pes = Pes(streamId: Byte, pts: nat, copy: Byte, data: seq<Byte>)

  const MAX_DATA := 65000

  ghost predicate PesOk(p: Pes) {
    p.pts < TIME && |p.data| <= MAX_DATA
  }

  function PesHeader(p: Pes, len: nat): (h: seq<Byte>)
    ensures |h| == 14
  {
    [0, 0, 1, p.streamId] + BigEndian(2, len)
    + [0x8C + p.copy % 2, 0x80, 5] + BigEndian(5, Stamp(2, p.pts))
  }

  /** A serialised packet: its length field counts the eight header bytes after it
      and the data. */
  function PesBytes(p: Pes): seq<Byte> {
    PesHeader(p, 8 + |p.data|) + p.data
  }

  /** A start code prefix, an id and a length, as every PS element but the pack
      header begins, and the bytes the element takes. */
  function ReadElement(d: seq<Byte>): Option<(Byte, nat)> {
    if |d| < 6 || d[..3] != [0, 0, 1] then None
    else
      var end := 6 + d[4] as nat * 256 + d[5] as nat;
      if |d| < end then None else Some((d[3], end))
  }

  /** stream_id, PTS and data as the standard lays them out, of a packet that is not
      scrambled, has priority, begins at its data's alignment point, is not copyrighted and
      has the PTS as its only optional field. */
  function ReadPes(d: seq<Byte>): Option<(Byte, nat, seq<Byte>)> {
    var e := ReadElement(d);
    if e.None? || e.value.1 < 14 || d[6] / 2 != 0x46 || d[7] != 0x80 || d[8] != 5 then None
    else
      var stamp := Value(d[9..14]);
      if !StampMarked(2, stamp) then None else Some((d[3], StampTime(stamp), d[14..e.value.1]))
  }

  lemma BigEndian2(v: nat)
    requires v < 0x1_0000
    ensures BigEndian(2, v) == [v / 256, v % 256]
  {
    assert BigEndian(1, v / 256) == BigEndian(0, v / 256 / 256) + [v / 256 % 256];
    assert v / 256 % 256 == v / 256;
  }

  /** The first six bytes of an element, whatever follows it. */
  lemma ElementReads(id: Byte, len: nat, body: seq<Byte>, rest: seq<Byte>)
    requires len < 0x1_0000 && |body| == len
    ensures ReadElement([0, 0, 1, id] + BigEndian(2, len) + body + rest) == Some((id, 6 + len))
  {
    BigEndian2(len);
    var d := [0, 0, 1, id] + BigEndian(2, len) + body + rest;
    assert d[0] == 0 && d[1] == 0 && d[2] == 1 && d[3] == id && d[4] == len / 256 && d[5] == len % 256;
    assert d[..3] == [0, 0, 1];
  }

  lemma StampBound(prefix: nat, t: nat)
    requires prefix < 16 && t < TIME
    ensures Stamp(prefix, t) < Pow2(40)
    ensures Stamp(prefix, t) / 0x1_0000_0000 / 16 == prefix
  {
    Pow2Values();
    Pow2Sum(32, 8);
    var a := t / 0x4000_0000 % 8;
    StampParts(prefix * 8 + a, t / 0x8000 % 0x8000, t % 0x8000);
    DivMod((prefix * 8 + a) * 2 + 1, 0x1_0000_0000, Stamp(prefix, t) - ((prefix * 8 + a) * 2 + 1) * 0x1_0000_0000);
  }

  /** Reading back a serialised packet gives its stream id, all 33 bits of its PTS
      and exactly its data; with the cap on the data the length never wraps. */
  lemma PesReads(p: Pes, rest: seq<Byte>)
    requires PesOk(p)
    ensures ReadElement(PesBytes(p) + rest) == Some((p.streamId, |PesBytes(p)|))
    ensures ReadPes(PesBytes(p) + rest) == Some((p.streamId, p.pts, p.data))
  {
    var flags := [0x8C + p.copy % 2, 0x80, 5];
    var stamp := BigEndian(5, Stamp(2, p.pts));
    PesLayout(p.streamId, flags, stamp, p.data, rest);
    StampField(p.pts);
    hide Stamp, BigEndian, Value, StampTime, StampMarked;
  }

  /** The bytes of a packet with five optional header bytes, read back. */
  lemma PesLayout(id: Byte, flags: seq<Byte>, stamp: seq<Byte>, data: seq<Byte>, rest: seq<Byte>)
    requires |flags| == 3 && |stamp| == 5 && |data| <= MAX_DATA
    ensures var d := [0, 0, 1, id] + BigEndian(2, 8 + |data|) + flags + stamp + data + rest;
            && ReadElement(d) == Some((id, 14 + |data|)) && |d| >= 14 + |data|
            && d[3] == id && d[6] == flags[0] && d[7] == flags[1] && d[8] == flags[2]
            && d[9] == stamp[0] && d[9..14] == stamp && d[14..14 + |data|] == data
  {
    hide BigEndian;
    var body := flags + stamp + data;
    var d := [0, 0, 1, id] + BigEndian(2, 8 + |data|) + flags + stamp + data + rest;
    assert d == [0, 0, 1, id] + BigEndian(2, 8 + |data|) + body + rest;
    ElementReads(id, 8 + |data|, body, rest);
  }

  lemma StampField(t: nat)
    requires t < TIME
    ensures var v := Value(BigEndian(5, Stamp(2, t)));
            StampTime(v) == t && StampMarked(2, v)
  {
    hide Stamp, BigEndian, Value, StampTime, StampMarked;
    Pow2Values();
    StampBound(2, t);
    ValueOfBigEndian(5, Stamp(2, t));
    StampReads(2, t);
    StampMarks(2, t);
  }

  /** Byte `i` of a big-endian number. */
  lemma {:induction false} ByteAt(k: nat, v: nat, i: nat)
    requires i < k
    ensures BigEndian(k, v)[i] == Shr(v, 8 * (k - 1 - i)) % 256
  {
    if i < k - 1 {
      ByteAt(k - 1, v / 256, i);
      ShrByte(v);
      ShrShr(v, 8, 8 * (k - 2 - i));
    }
  }

  // ----- the system header (section 2.5.3.5) -----

  datatype StreamBound = StreamBound(streamId: Byte, scale: nat, size: nat)

  /** Id 0xB7 takes a longer entry, which is not modelled. */
  ghost predicate BoundOk(b: StreamBound) {
    b.scale < 2 && b.size < 0x2000 && b.streamId != 0xB7
  }

  function BoundBytes(b: StreamBound): (d: seq<Byte>)
    ensures |d| == 3
  {
    [b.streamId] + BigEndian(2, 0xC000 + b.scale * 0x2000 + b.size)
  }

  function BoundsBytes(bs: seq<StreamBound>): (d: seq<Byte>)
    ensures |d| == 3 * |bs|
  {
    if bs == [] then [] else BoundsBytes(bs[..|bs| - 1]) + BoundBytes(bs[|bs| - 1])
  }

  /** One video and one audio stream at most, no rate bound, both clocks locked. */
  const SYSTEM_FLAGS: seq<Byte> := [0xFF, 0xFF, 0xFF, 0x04, 0xE1, 0x7F]

  function SystemHeaderBytes(bs: seq<StreamBound>): seq<Byte> {
    [0, 0, 1, 0xBB] + BigEndian(2, 6 + 3 * |bs|) + (SYSTEM_FLAGS + BoundsBytes(bs))
  }

  /** Entries of three bytes, as long as there are marker bits. */
  function ReadBounds(d: seq<Byte>): seq<StreamBound> {
    if |d| < 3 || d[1] / 64 != 3 then []
    else
      var v := d[1] as nat * 256 + d[2] as nat;
      [StreamBound(d[0], v / 0x2000 % 2, v % 0x2000)] + ReadBounds(d[3..])
  }

  /** A system header with the largest rate bound, for one audio and one video stream, both
      with a locked clock, neither fixed nor constrained; and its stream list. */
  function ReadSystemHeader(d: seq<Byte>): Option<seq<StreamBound>> {
    var e := ReadElement(d);
    if e.None? || e.value.0 != 0xBB || e.value.1 < 12 || d[6..12] != [0xFF, 0xFF, 0xFF, 0x04, 0xE1, 0x7F] then None
    else Some(ReadBounds(d[12..e.value.1]))
  }

  lemma {:induction false} BoundsRead(bs: seq<StreamBound>, tail: seq<Byte>)
    requires forall i :: 0 <= i < |bs| ==> BoundOk(bs[i])
    ensures ReadBounds(BoundsBytes(bs) + tail) == bs + ReadBounds(tail)
    decreases |bs|
  {
    if bs == [] {
      NilLeft(tail);
      NilLeft(ReadBounds(tail));
    } else {
      var b, front := bs[|bs| - 1], bs[..|bs| - 1];
      var next := BoundBytes(b) + tail;
      Assoc(BoundsBytes(front), BoundBytes(b), tail);
      BoundsRead(front, next);
      BoundReads(b, tail);
      Assoc(front, [b], ReadBounds(tail));
      assert front + [b] == bs;
    }
  }

  lemma BoundReads(b: StreamBound, tail: seq<Byte>)
    requires BoundOk(b)
    ensures ReadBounds(BoundBytes(b) + tail) == [b] + ReadBounds(tail)
  {
    var v := 0xC000 + b.scale * 0x2000 + b.size;
    BigEndian2(v);
    var next := BoundBytes(b) + tail;
    assert next[0] == b.streamId && next[1] == v / 256 && next[2] == v % 256;
    assert next[3..] == tail;
    assert v == (6 + b.scale) * 0x2000 + b.size;
    DivMod(6 + b.scale, 0x2000, b.size);
  }

  /** Reading back a system header gives its stream list. */
  lemma SystemHeaderReads(bs: seq<StreamBound>, rest: seq<Byte>)
    requires (forall i :: 0 <= i < |bs| ==> BoundOk(bs[i])) && 3 * |bs| < 0x1_0000 - 6
    ensures var d := SystemHeaderBytes(bs);
            && ReadElement(d + rest) == Some((0xBB, |d|))
            && ReadSystemHeader(d + rest) == Some(bs)
  {
    var body := SYSTEM_FLAGS + BoundsBytes(bs);
    var d := SystemHeaderBytes(bs) + rest;
    ElementReads(0xBB, 6 + 3 * |bs|, body, rest);
    assert d[12..12 + 3 * |bs|] == BoundsBytes(bs);
    assert d[6..12] == SYSTEM_FLAGS;
    BoundsRead(bs, []);
    NilRight(BoundsBytes(bs));
    NilRight(bs);
  }

  // ----- the pack header (section 2.5.3.3) -----

  datatype PackHead = PackHead(scr: nat, ext: nat, rate: nat)

  ghost predicate PackOk(h: PackHead) {
    h.scr < TIME && h.ext < 300 && h.rate < 0x1_0000_0000
  }

  /** program_mux_rate in units of 50 bytes, as 22 bits of a 32-bit sum. */
  function RateUnits(rate: nat): nat {
    (rate + 49) % 0x1_0000_0000 / 50 % 0x40_0000
  }

  function PackHeaderBytes(h: PackHead): (d: seq<Byte>)
    ensures |d| == 14
  {
    [0, 0, 1, 0xBA] + BigEndian(6, (Stamp(1, h.scr) * 512 + h.ext) * 2 + 1)
    + BigEndian(3, RateUnits(h.rate) * 4 + 3) + [0]
  }

  /** Clock, extension and rate units of a pack header without stuffing. */
  function ReadPackHeader(d: seq<Byte>): Option<(nat, nat, nat)> {
    if |d| < 14 || d[..4] != [0, 0, 1, 0xBA] || d[13] != 0 then None
    else
      var v, w := Value(d[4..10]), Value(d[10..13]);
      if !StampMarked(1, v / 1024) || v % 2 != 1 || w % 4 != 3 then None
      else Some((StampTime(v / 1024), v / 2 % 512, w / 4))
  }

  lemma ClockField(scr: nat, ext: nat)
    requires scr < TIME && ext < 512
    ensures var v := (Stamp(1, scr) * 512 + ext) * 2 + 1;
            && v < 0x1_0000_0000_0000 && StampTime(v / 1024) == scr && v / 2 % 512 == ext
            && StampMarked(1, v / 1024) && v % 2 == 1
  {
    StampReads(1, scr);
    StampMarks(1, scr);
    StampFits(scr);
    hide Stamp, StampTime, StampMarked;
    DivMod(Stamp(1, scr), 1024, ext * 2 + 1);
    DivMod(Stamp(1, scr), 512, ext);
    assert (Stamp(1, scr) * 512 + ext) * 2 + 1 == Stamp(1, scr) * 1024 + (ext * 2 + 1);
  }

  lemma StampFits(t: nat)
    ensures Stamp(1, t) < 0x20_0000_0000
  {}

  /** Reading back a pack header gives its clock, its extension and its rate. */
  lemma PackHeaderReads(h: PackHead, rest: seq<Byte>)
    requires PackOk(h)
    ensures ReadPackHeader(PackHeaderBytes(h) + rest) == Some((h.scr, h.ext, RateUnits(h.rate)))
  {
    hide Stamp, StampTime, StampMarked, BigEndian, Value, RateUnits;
    var v, w := (Stamp(1, h.scr) * 512 + h.ext) * 2 + 1, RateUnits(h.rate) * 4 + 3;
    HeaderParts(v, w, rest);
    ClockField(h.scr, h.ext);
    UnitsBound(h.rate);
    Pow2Bytes();
    ValueOfBigEndian(6, v);
    ValueOfBigEndian(3, w);
  }

  lemma HeaderParts(v: nat, w: nat, rest: seq<Byte>)
    ensures var d := [0, 0, 1, 0xBA] + BigEndian(6, v) + BigEndian(3, w) + [0] + rest;
            && d[..4] == [0, 0, 1, 0xBA] && d[13] == 0
            && d[4..10] == BigEndian(6, v) && d[10..13] == BigEndian(3, w)
  {
    hide BigEndian;
  }

  lemma UnitsBound(rate: nat)
    ensures RateUnits(rate) < 0x40_0000
  {}

  lemma Pow2Bytes()
    ensures Pow2(24) == 0x100_0000 && Pow2(48) == 0x1_0000_0000_0000
  {
    Pow2Values();
    Pow2Sum(8, 16);
    Pow2Sum(16, 32);
  }

  /** The rate written covers the bytes counted, by less than one unit of 50, if and only
      if they fit the 22 bits of the field. */
  lemma RateCovers(rate: nat)
    requires rate < 0x1_0000_0000
    ensures rate <= 50 * RateUnits(rate) < rate + 50 <==> rate <= 50 * 0x3F_FFFF
  {}

  // ----- the program stream map, by its outer framing -----

  datatype Elementary = Elementary(streamType: Byte, streamId: Byte)

  function ElementariesBytes(es: seq<Elementary>): (d: seq<Byte>)
    ensures |d| == 4 * |es|
  {
    if es == [] then []
    else ElementariesBytes(es[..|es| - 1]) + [es[|es| - 1].streamType, es[|es| - 1].streamId, 0, 0]
  }

  /** The inner length adds five for every stream of four bytes, as the source does. */
  function PsmBytes(es: seq<Elementary>): seq<Byte> {
    [0, 0, 1, 0xBC] + BigEndian(2, 10 + 4 * |es|)
    + ([0x81, 0x01, 0, 0] + BigEndian(2, 5 * |es|) + ElementariesBytes(es) + [0, 0, 0, 0])
  }

  /** Entries without descriptors. */
  function ReadElementaries(d: seq<Byte>): Option<seq<Elementary>> {
    if d == [] then Some([])
    else if |d| < 4 || d[2] != 0 || d[3] != 0 then None
    else
      var rest := ReadElementaries(d[4..]);
      if rest.None? then None else Some([Elementary(d[0], d[1])] + rest.value)
  }

  /** A map of version 1 that is current, has no descriptors and ends in a CRC of zero; its
      streams as far as its outer length says. The inner length counts five bytes for each,
      as the source's does. */
  function ReadMap(d: seq<Byte>): Option<seq<Elementary>> {
    var e := ReadElement(d);
    if e.None? || e.value.0 != 0xBC || e.value.1 < 16 then None
    else if d[6..10] != [0x81, 0x01, 0, 0] || d[e.value.1 - 4..e.value.1] != [0, 0, 0, 0] then None
    else
      var es := ReadElementaries(d[12..e.value.1 - 4]);
      if es.None? || d[10] as nat * 256 + d[11] as nat != 5 * |es.value| then None else es
  }

  lemma {:induction false} ElementariesRead(es: seq<Elementary>, tail: seq<Byte>)
    requires ReadElementaries(tail).Some?
    ensures ReadElementaries(ElementariesBytes(es) + tail) == Some(es + ReadElementaries(tail).value)
    decreases |es|
  {
    if es == [] {
      NilLeft(tail);
      NilLeft(ReadElementaries(tail).value);
    } else {
      var e, front := es[|es| - 1], es[..|es| - 1];
      var b := [e.streamType, e.streamId, 0, 0];
      assert (b + tail)[4..] == tail;
      Assoc(ElementariesBytes(front), b, tail);
      ElementariesRead(front, b + tail);
      Assoc(front, [e], ReadElementaries(tail).value);
      assert front + [e] == es;
    }
  }

  /** The outer length of a map leads to its end, and its streams and their types are read
      back. */
  lemma PsmReads(es: seq<Elementary>, rest: seq<Byte>)
    requires 5 * |es| < 0x1_0000 - 10
    ensures ReadElement(PsmBytes(es) + rest) == Some((0xBC, |PsmBytes(es)|))
    ensures ReadMap(PsmBytes(es) + rest) == Some(es)
  {
    var body := [0x81, 0x01, 0, 0] + BigEndian(2, 5 * |es|) + ElementariesBytes(es) + [0, 0, 0, 0];
    ElementReads(0xBC, 10 + 4 * |es|, body, rest);
    BigEndian2(5 * |es|);
    MapLayout(BigEndian(2, 10 + 4 * |es|), BigEndian(2, 5 * |es|), ElementariesBytes(es), rest);
    ElementariesRead(es, []);
    NilRight(ElementariesBytes(es));
    NilRight(es);
  }

  lemma MapLayout(len: seq<Byte>, inner: seq<Byte>, es: seq<Byte>, rest: seq<Byte>)
    requires |len| == 2 && |inner| == 2
    ensures var d := [0, 0, 1, 0xBC] + len + ([0x81, 0x01, 0, 0] + inner + es + [0, 0, 0, 0]) + rest;
            var n := 16 + |es|;
            && d[6..10] == [0x81, 0x01, 0, 0] && d[10] == inner[0] && d[11] == inner[1]
            && d[12..n - 4] == es && d[n - 4..n] == [0, 0, 0, 0]
  {
    var d := [0, 0, 1, 0xBC] + len + ([0x81, 0x01, 0, 0] + inner + es + [0, 0, 0, 0]) + rest;
    assert d == ([0, 0, 1, 0xBC] + len + [0x81, 0x01, 0, 0] + inner) + es + ([0, 0, 0, 0] + rest);
  }
}
