/** BitStream of PS/Semantics.cpp, as a class with its length field. */
module BitStreamClass {
  import opened Bytes
  import opened Bits
  import opened BitStreams

  // ----- values in memory, most significant byte first -----

  function Htons(v: nat): (m: seq<Byte>)
    requires v < 0x1_0000
    ensures |m| == 2
  {
    var hi: int, lo: int := v / 0x100, v % 0x100;
    [hi, lo]
  }

  function Htonl(v: nat): (m: seq<Byte>)
    requires v < 0x1_0000_0000
    ensures |m| == 4
  {
    Htons(v / 0x1_0000) + Htons(v % 0x1_0000)
  }

  function Word(m: seq<Byte>): (v: nat)
    requires |m| == 2
    ensures v < 0x1_0000
  {
    m[0] as int * 0x100 + m[1] as int
  }

  function DWord(m: seq<Byte>): (v: nat)
    requires |m| == 4
    ensures v < 0x1_0000_0000
  {
    Word(m[..2]) * 0x1_0000 + Word(m[2..])
  }

  lemma HtonlWords(v: nat)
    requires v < 0x1_0000_0000
    ensures DWord(Htonl(v)) == v
  {
    var m := Htonl(v);
    assert m[..2] == Htons(v / 0x1_0000) && m[2..] == Htons(v % 0x1_0000);
  }

  /** How the writers split a field at bit `w`: the part above it, then the part
      below it, either of which may be empty. */
  lemma SplitField(w: nat, n: nat, v: nat, s: nat)
    ensures s >= w ==> ToBits(n, Shr(Shr(v, w), s - w)) == ToBits(n, Shr(v, s))
    ensures n + s <= w ==> ToBits(n, Shr(Low(v, w), s)) == ToBits(n, Shr(v, s))
    ensures s <= w < n + s ==>
              ToBits(n + s - w, Shr(v, w)) + ToBits(w - s, Shr(Low(v, w), s)) == ToBits(n, Shr(v, s))
  {
    if s >= w { ShrShr(v, w, s - w); }
    forall i: nat | s + i < w ensures Bit(Shr(Low(v, w), s), i) == Bit(Shr(v, s), i) {
      BitShr(Low(v, w), s, i);
      BitShr(v, s, i);
      BitLow(v, w, s + i);
    }
    if n + s <= w { SameBits(n, Shr(Low(v, w), s), Shr(v, s)); }
    if s <= w < n + s {
      SameBits(w - s, Shr(Low(v, w), s), Shr(v, s));
      ToBitsConcat(n + s - w, w - s, Shr(v, s));
      ShrShr(v, s, w - s);
    }
  }

  lemma SameBits(n: nat, x: nat, y: nat)
    requires forall i: nat :: i < n ==> Bit(x, i) == Bit(y, i)
    ensures ToBits(n, x) == ToBits(n, y)
  {
    hide Bit;
    var l, r := ToBits(n, x), ToBits(n, y);
    forall i | 0 <= i < n ensures l[i] == r[i] {
      assert Bit(x, n - 1 - i) == Bit(y, n - 1 - i);
    }
  }

  /** The two parts the writers make of a field of hi * 2^w + lo. */
  lemma FieldParts(w: nat, hi: nat, lo: nat, v: nat, n: nat, s: nat)
    requires lo < Pow2(w) && v == hi * Pow2(w) + lo && 0 < n && s + n <= 2 * w
    ensures var n1, start := if s > w then n else n + s - w, if s > w then s - w else 0;
            var k := if n1 > 0 then n1 else 0;
            && ToBits(n, Shr(v, s)) == ToBits(k, Shr(hi, start)) + ToBits(n - k, Shr(lo, s))
            && (k > 0 ==> start + k <= w) && (n - k > 0 ==> s + n - k <= w)
  {
    hide ToBits, Shr, Low, Pow2;
    WordParts(hi, lo, w);
    SplitField(w, n, v, s);
    NilLeft(ToBits(n, Shr(lo, s)));
    NilRight(ToBits(n, Shr(hi, if s > w then s - w else 0)));
    ShrNone(hi);
  }

  lemma ShrNone(v: nat)
    ensures Shr(v, 0) == v
  {}

  lemma WordParts(hi: nat, lo: nat, w: nat)
    requires lo < Pow2(w)
    ensures Shr(hi * Pow2(w) + lo, w) == hi && Low(hi * Pow2(w) + lo, w) == lo
  {
    ShrLow(hi * Pow2(w) + lo, w);
    DivMod(hi, Pow2(w), lo);
  }

  // ----- the length field -----

  /** Bytes after a field that ends at bit `end`. */
  function CountAfter(offset: nat, end: nat): nat
    requires end <= offset
  {
    (offset - end + 7) / 8
  }

  /** The bits `raw` with the 16 bits at `l` replaced. */
  function Patch(raw: seq<bool>, l: nat, len: nat): (r: seq<bool>)
    requires l + 16 <= |raw|
    ensures |r| == |raw|
  {
    raw[..l] + ToBits(16, len) + raw[l + 16..]
  }

  lemma PatchAppend(raw: seq<bool>, l: nat, len: nat, add: seq<bool>)
    requires l + 16 <= |raw|
    ensures Patch(raw + add, l, len) == Patch(raw, l, len) + add
  {
    assert (raw + add)[..l] == raw[..l] && (raw + add)[l + 16..] == raw[l + 16..] + add;
    Assoc(raw[..l] + ToBits(16, len), raw[l + 16..], add);
  }

  lemma PatchTwice(raw: seq<bool>, l: nat, a: nat, b: nat)
    requires l + 16 <= |raw|
    ensures Patch(Patch(raw, l, a), l, b) == Patch(raw, l, b)
  {
    var p := Patch(raw, l, a);
    assert p[..l] == raw[..l] && p[l + 16..] == raw[l + 16..];
  }

  /** The two bytes stored big-endian at byte `i`. */
  lemma StoreWord(stream: seq<Byte>, offset: nat, i: nat, len: nat)
    requires Clean(stream, offset) && 8 * i + 16 <= offset && len < 0x1_0000
    ensures var r := stream[i := len / 0x100][i + 1 := len % 0x100];
            && Clean(r, offset)
            && Written(r, offset) == Patch(Written(stream, offset), 8 * i, len)
  {
    hide ToBits, BytesBits, Bit;
    var r := stream[i := len / 0x100][i + 1 := len % 0x100];
    forall k | 0 <= k < 8 * |r|
      ensures BytesBits(r)[k] == if 8 * i <= k < 8 * i + 16 then ToBits(16, len)[k - 8 * i] else BytesBits(stream)[k]
    {
      StoredBit(stream, i, len, k);
    }
    var l, p := Written(r, offset), Patch(Written(stream, offset), 8 * i, len);
    assert forall k :: 0 <= k < |l| ==> l[k] == p[k];
  }

  lemma WordBits(len: nat)
    requires len < 0x1_0000
    ensures ToBits(16, len) == ToBits(8, len / 0x100) + ToBits(8, len % 0x100)
  {
    hide ToBits, Shr, Low, Pow2;
    Pow2Values();
    WordParts(len / 0x100, len % 0x100, 8);
    ToBitsConcat(8, 8, len);
    ToBitsLow(8, len, 8);
  }

  lemma StoredBit(stream: seq<Byte>, i: nat, len: nat, k: nat)
    requires i + 1 < |stream| && len < 0x1_0000 && k < 8 * |stream|
    ensures var r := stream[i := len / 0x100][i + 1 := len % 0x100];
            BytesBits(r)[k] == if 8 * i <= k < 8 * i + 16 then ToBits(16, len)[k - 8 * i] else BytesBits(stream)[k]
  {
    hide Bit;
    WordBits(len);
    if 8 * i <= k < 8 * i + 8 {
      assert k / 8 == i && k % 8 == k - 8 * i;
    } else if 8 * i + 8 <= k < 8 * i + 16 {
      assert k / 8 == i + 1 && k % 8 == k - 8 * i - 8;
    }
  }

  /** The vector, grown if need be, with `data` copied to byte `i`. */
  function Copied(stream: seq<Byte>, i: nat, data: seq<Byte>): (r: seq<Byte>)
    requires i <= |stream|
    ensures i + |data| <= |r| && |stream| <= |r|
    ensures r[..i] == stream[..i] && r[i..i + |data|] == data
    ensures forall j :: i + |data| <= j < |r| ==> r[j] == if j < |stream| then stream[j] else 0
  {
    var grown := if i + |data| > |stream| then stream + Zeros(i + |data| - |stream|) else stream;
    var r := grown[..i] + data + grown[i + |data|..];
    assert r[..i] == stream[..i] && r[i..i + |data|] == data;
    r
  }

  lemma CopyWritten(stream: seq<Byte>, i: nat, data: seq<Byte>)
    requires i <= |stream|
    ensures Written(Copied(stream, i, data), 8 * i + 8 * |data|) == Written(stream, 8 * i) + BytesBits(data)
  {
    hide BytesBits, Copied;
    var r := Copied(stream, i, data);
    assert r[0..i + |data|] == stream[0..i] + data;
    BytesBitsConcat(stream[0..i], data);
    BytesBitsSlice(r, 0, i + |data|);
    BytesBitsSlice(stream, 0, i);
  }

  /** Whole bytes copied at a byte boundary. */
  lemma CopyAligned(stream: seq<Byte>, offset: nat, data: seq<Byte>)
    requires Clean(stream, offset) && offset % 8 == 0
    ensures var r := Copied(stream, offset / 8, data);
            && Clean(r, offset + 8 * |data|)
            && Written(r, offset + 8 * |data|) == Written(stream, offset) + BytesBits(data)
  {
    hide Copied, Written, Bit;
    var n := offset + 8 * |data|;
    var r := Copied(stream, offset / 8, data);
    CopyWritten(stream, offset / 8, data);
    forall k | n <= k < 8 * |r| ensures !BytesBits(r)[k] {
      if k / 8 < |stream| {
        assert BytesBits(stream)[k] == Bit(stream[k / 8], 7 - k % 8);
      } else {
        BitZero(7 - k % 8);
      }
    }
  }

  /** No single write8 of the field of `n` bits at bit `s` crosses the end of the
      vector: write8 does not grow the vector for its second byte. */
  predicate HasRoom(size: nat, offset: nat, n: int, s: int) {
    var end := 8 * size;
    offset >= end || offset + n <= end || (s + offset + n - end) % 8 == 0
  }

  /** The size of the vector after writing the bits from `offset` to `end`. */
  function Grown(size: nat, offset: nat, end: nat): nat {
    if end <= 8 * size then size else (if offset / 8 > size then offset / 8 else size) + 128
  }

  /** Room for a field is room for its two parts, the lower of which ends a byte. */
  lemma RoomForParts(size: nat, offset: nat, a: nat, b: nat, n: nat, s: nat, start: nat, w: nat)
    requires n == a + b && (w == 8 || w == 16 || w == 32) && 0 < n <= 64
    requires HasRoom(size, offset, n, s)
    requires (a > 0 && b > 0 && b == w - s && start == 0) || a == 0 || (b == 0 && s == start + w)
    ensures a > 0 ==> HasRoom(size, offset, a, start)
    ensures a > 0 ==> HasRoom(Grown(size, offset, offset + a), offset + a, b, s)
    ensures a == 0 ==> HasRoom(size, offset, b, s)
    ensures a > 0 && b > 0 ==> Grown(Grown(size, offset, offset + a), offset + a, offset + n) == Grown(size, offset, offset + n)
  {}

  class BitStream {
    var stream: seq<Byte>
    var offset: nat
    var length: nat
    const lengthFieldOffset: int
    /** What was asked to be written, and whether the length field was stored. */
    ghost var raw: seq<bool>
    ghost var patched: bool

    /** The bits of the stream. */
    ghost function Bits(): seq<bool>
      reads this
      requires offset <= 8 * |stream|
    {
      Written(stream, offset)
    }

    /** The offset is past the length field. */
    ghost predicate PastField()
      reads this
    {
      lengthFieldOffset >= 0 && offset >= lengthFieldOffset + 16
    }

    ghost predicate Coherent()
      reads this
    {
      && Clean(stream, offset) && offset == |raw| && length < 0x1_0000
      && (lengthFieldOffset >= 0 ==> lengthFieldOffset % 8 == 0)
      && (patched ==> PastField()) && (!patched ==> length == 0)
      && Bits() == if patched then Patch(raw, lengthFieldOffset, length) else raw
    }

    /** The stream shows the bits written, except that the length field, once there
        are bytes after it, shows their count modulo 2^16. */
    ghost predicate Valid()
      reads this
    {
      && Coherent()
      && (PastField() ==> length == CountAfter(offset, lengthFieldOffset + 16) % 0x1_0000)
    }

    constructor (lengthFieldOffset: int := -1)
      requires lengthFieldOffset >= 0 ==> lengthFieldOffset % 8 == 0
      ensures Valid() && raw == [] && stream == [] && !patched
      ensures this.lengthFieldOffset == lengthFieldOffset
    {
      stream, offset, length := [], 0, 0;
      this.lengthFieldOffset := lengthFieldOffset;
      raw, patched := [], false;
    }

    method Clear()
      modifies this
      requires Valid()
      ensures Valid() && raw == [] && stream == [] && offset == 0 && !patched
    {
      stream, offset, length := [], 0, 0;
      raw, patched := [], false;
    }

    /** getLength: bytes begun. */
    function GetLength(): nat
      reads this
    {
      (offset + 7) / 8
    }

    /** A count of zero, or of a multiple of 65536 bytes, does not begin the patching. */
    method UpdateLengthField()
      requires Coherent() && lengthFieldOffset >= 0
      modifies this`stream, this`length, this`patched
      ensures Valid() && |stream| == |old(stream)|
      ensures patched == (old(patched)
                          || (PastField() && CountAfter(offset, lengthFieldOffset + 16) % 0x1_0000 != 0))
    {
      hide Written, ToBits, Patch;
      if offset < lengthFieldOffset + 16 { return; }
      var len := ((offset - lengthFieldOffset - 16) + 7) / 8 % 0x1_0000;
      if len == length { return; }
      ghost var shown := Bits();
      var bigendian := Htons(len);
      var index := lengthFieldOffset / 8;
      StoreWord(stream, offset, index, len);
      if patched { PatchTwice(raw, lengthFieldOffset, length, len); }
      length := len;
      patched := true;
      stream := stream[index := bigendian[0]][index + 1 := bigendian[1]];
    }

    predicate Room(n: int, s: int)
      reads this
    {
      HasRoom(|stream|, offset, n, s)
    }

    /** Bits were added: the shown ones are the old ones with the new at the end. */
    lemma Appended(shown: seq<bool>, was: seq<bool>, add: seq<bool>)
      requires patched ==> lengthFieldOffset >= 0 && lengthFieldOffset + 16 <= |was|
      requires shown == if patched then Patch(was, lengthFieldOffset, length) else was
      ensures shown + add == if patched then Patch(was + add, lengthFieldOffset, length) else was + add
    {
      if patched { PatchAppend(was, lengthFieldOffset, length, add); }
    }

    /** The field goes to the current byte and the one after it. */
    method Append8(n: nat, value: Byte, s: nat)
      requires Coherent() && 0 < n && s + n <= 8 && Room(n, s)
      modifies this`stream, this`offset, this`raw
      ensures Coherent() && offset == old(offset) + n && raw == old(raw) + ToBits(n, Shr(value, s))
      ensures |stream| == Grown(old(|stream|), old(offset), offset)
    {
      hide Put8, Written, ToBits, Shr, Patch, Resized, BytesBits;
      Put8Appends(stream, offset, n, value, s);
      Appended(Bits(), raw, ToBits(n, Shr(value, s)));
      stream := Put8(stream, offset, n, value, s);
      offset := offset + n;
      raw := raw + ToBits(n, Shr(value, s));
    }

    method Write8(n: int, value: Byte, s: int := 0)
      requires Valid() && (0 < n && 0 <= s && s + n <= 8 ==> Room(n, s))
      modifies this
      ensures Valid() && (old(patched) ==> patched)
      ensures 0 < n && 0 <= s && s + n <= 8 ==>
                && raw == old(raw) + ToBits(n, Shr(value, s)) && offset == old(offset) + n
                && |stream| == Grown(old(|stream|), old(offset), offset)
      ensures !(0 < n && 0 <= s && s + n <= 8) ==> unchanged(this)
    {
      hide Bits, ToBits, Shr, Clean, HasRoom;
      if n <= 0 || s < 0 || s + n > 8 { return; }
      Append8(n, value, s);
      if lengthFieldOffset >= 0 { UpdateLengthField(); }
    }

    /** write16be: a 16-bit value given as its two bytes in memory. */
    method Write16be(n: int, m: seq<Byte>, s: int)
      requires Valid() && |m| == 2 && (0 < n && 0 <= s && s + n <= 16 ==> Room(n, s))
      modifies this
      ensures Valid() && (old(patched) ==> patched)
      ensures 0 < n && 0 <= s && s + n <= 16 ==>
                && raw == old(raw) + ToBits(n, Shr(Word(m), s)) && offset == old(offset) + n
                && |stream| == Grown(old(|stream|), old(offset), offset)
      ensures !(0 < n && 0 <= s && s + n <= 16) ==> unchanged(this)
    {
      hide Valid, ToBits, Shr, Grown, HasRoom;
      if n <= 0 || s < 0 || s + n > 16 { return; }
      ghost var was, size, off := raw, |stream|, offset;
      var b1nbits := if s > 8 then n else n + s - 8;
      var b1start := if s > 8 then s - 8 else 0;
      var b2nbits := n - (if b1nbits > 0 then b1nbits else 0);
      Pow2Values();
      FieldParts(8, m[0], m[1], Word(m), n, s);
      ghost var a: nat := if b1nbits > 0 then b1nbits else 0;
      RoomForParts(size, off, a, b2nbits, n, s, b1start, 8);
      Write8(b1nbits, m[0], b1start);
      ghost var mid := raw;
      Write8(b2nbits, m[1], s);
      TwoParts(was, mid, raw, a, Shr(m[0], b1start), b2nbits, Shr(m[1], s));
    }

    method Write32be(n: int, m: seq<Byte>, s: int)
      requires Valid() && |m| == 4 && (0 < n && 0 <= s && s + n <= 32 ==> Room(n, s))
      modifies this
      ensures Valid() && (old(patched) ==> patched)
      ensures 0 < n && 0 <= s && s + n <= 32 ==>
                && raw == old(raw) + ToBits(n, Shr(DWord(m), s)) && offset == old(offset) + n
                && |stream| == Grown(old(|stream|), old(offset), offset)
      ensures !(0 < n && 0 <= s && s + n <= 32) ==> unchanged(this)
    {
      hide Valid, ToBits, Shr, Word, Grown, HasRoom;
      if n <= 0 || s < 0 || s + n > 32 { return; }
      ghost var was, size, off := raw, |stream|, offset;
      var w1nbits := if s > 16 then n else n + s - 16;
      var w1start := if s > 16 then s - 16 else 0;
      var w2nbits := n - (if w1nbits > 0 then w1nbits else 0);
      Pow2Values();
      FieldParts(16, Word(m[..2]), Word(m[2..]), DWord(m), n, s);
      ghost var a: nat := if w1nbits > 0 then w1nbits else 0;
      RoomForParts(size, off, a, w2nbits, n, s, w1start, 16);
      Write16be(w1nbits, m[..2], w1start);
      ghost var mid := raw;
      Write16be(w2nbits, m[2..], s);
      TwoParts(was, mid, raw, a, Shr(Word(m[..2]), w1start), w2nbits, Shr(Word(m[2..]), s));
    }

    method Write16(n: int, value: nat, s: int := 0)
      requires Valid() && value < 0x1_0000 && (0 < n && 0 <= s && s + n <= 16 ==> Room(n, s))
      modifies this
      ensures Valid() && (old(patched) ==> patched)
      ensures 0 < n && 0 <= s && s + n <= 16 ==>
                && raw == old(raw) + ToBits(n, Shr(value, s)) && offset == old(offset) + n
                && |stream| == Grown(old(|stream|), old(offset), offset)
      ensures !(0 < n && 0 <= s && s + n <= 16) ==> unchanged(this)
    {
      assert Word(Htons(value)) == value;
      Write16be(n, Htons(value), s);
    }

    method Write32(n: int, value: nat, s: int := 0)
      requires Valid() && value < 0x1_0000_0000 && (0 < n && 0 <= s && s + n <= 32 ==> Room(n, s))
      modifies this
      ensures Valid() && (old(patched) ==> patched)
      ensures 0 < n && 0 <= s && s + n <= 32 ==>
                && raw == old(raw) + ToBits(n, Shr(value, s)) && offset == old(offset) + n
                && |stream| == Grown(old(|stream|), old(offset), offset)
      ensures !(0 < n && 0 <= s && s + n <= 32) ==> unchanged(this)
    {
      HtonlWords(value);
      Write32be(n, Htonl(value), s);
    }

    method Write64(n: int, value: nat, s: int := 0)
      requires Valid() && value < 0x1_0000_0000_0000_0000 && (0 < n && 0 <= s && s + n <= 64 ==> Room(n, s))
      modifies this
      ensures Valid() && (old(patched) ==> patched)
      ensures 0 < n && 0 <= s && s + n <= 64 ==>
                && raw == old(raw) + ToBits(n, Shr(value, s)) && offset == old(offset) + n
                && |stream| == Grown(old(|stream|), old(offset), offset)
      ensures !(0 < n && 0 <= s && s + n <= 64) ==> unchanged(this)
    {
      hide Valid, ToBits, Shr, Word, DWord, Grown, HasRoom;
      if n <= 0 || s < 0 || s + n > 64 { return; }
      ghost var was, size, off := raw, |stream|, offset;
      var dw1, dw2 := value / 0x1_0000_0000, value % 0x1_0000_0000;
      var dw1nbits := if s > 32 then n else n + s - 32;
      var dw1start := if s > 32 then s - 32 else 0;
      var dw2nbits := n - (if dw1nbits > 0 then dw1nbits else 0);
      HtonlWords(dw1);
      HtonlWords(dw2);
      Pow2Values();
      FieldParts(32, dw1, dw2, value, n, s);
      ghost var a: nat := if dw1nbits > 0 then dw1nbits else 0;
      RoomForParts(size, off, a, dw2nbits, n, s, dw1start, 32);
      Write32be(dw1nbits, Htonl(dw1), dw1start);
      ghost var mid := raw;
      Write32be(dw2nbits, Htonl(dw2), s);
      TwoParts(was, mid, raw, a, Shr(dw1, dw1start), dw2nbits, Shr(dw2, s));
    }

    /** The vector holds `data` after the bytes written so far. */
    method CopyBytes(data: seq<Byte>)
      requires Valid() && offset % 8 == 0 && data != []
      modifies this
      ensures Valid() && (old(patched) ==> patched)
      ensures raw == old(raw) + BytesBits(data) && offset == old(offset) + 8 * |data|
    {
      hide Written, BytesBits, Patch, Copied;
      CopyAligned(stream, offset, data);
      Appended(Bits(), raw, BytesBits(data));
      stream := Copied(stream, offset / 8, data);
      offset := offset + 8 * |data|;
      raw := raw + BytesBits(data);
      if lengthFieldOffset >= 0 { UpdateLengthField(); }
    }

    /** The source copies to the current byte: callers are at a byte boundary. */
    method WriteBytes(data: seq<Byte>)
      requires Valid() && offset % 8 == 0
      modifies this
      ensures Valid() && (old(patched) ==> patched)
      ensures raw == old(raw) + BytesBits(data) && offset == old(offset) + 8 * |data|
    {
      if |data| == 0 {
        NilRight(raw);
        return;
      }
      CopyBytes(data);
    }

    method WriteBitStream(other: BitStream)
      requires Valid() && other != this && other.Valid() && offset % 8 == 0
      modifies this
      ensures Valid() && (old(patched) ==> patched)
      ensures raw == old(raw) + BytesBits(other.Data()) && offset == old(offset) + 8 * |other.Data()|
    {
      if other.GetLength() == 0 {
        NilRight(raw);
        return;
      }
      CopyBytes(other.Data());
    }

    /** getData, getLength: the bytes of the stream. */
    function Data(): (d: seq<Byte>)
      reads this
      requires Valid()
      ensures |d| == (offset + 7) / 8
    {
      stream[..(offset + 7) / 8]
    }

    /** A stream of whole bytes is the bytes of its bits. */
    lemma DataBits()
      requires Valid() && offset % 8 == 0
      ensures BytesBits(Data()) == Bits()
    {
      BytesBitsSlice(stream, 0, offset / 8);
      assert stream[0..offset / 8] == Data();
    }
  }

  /** Either part of a field may be empty. */
  lemma TwoParts(was: seq<bool>, mid: seq<bool>, now: seq<bool>, a: nat, x: nat, b: nat, y: nat)
    requires mid == if a > 0 then was + ToBits(a, x) else was
    requires now == if b > 0 then mid + ToBits(b, y) else mid
    ensures now == was + (ToBits(a, x) + ToBits(b, y))
  {
    if a == 0 { NilRight(was); }
    if b == 0 { NilRight(mid); }
    Assoc(was, ToBits(a, x), ToBits(b, y));
  }
}
